/** Registers that others may rewrite at any instant, and what two equal reads
    of one of them tell. */
module Registers {

  ghost predicate Seen<R(!new), C(!new)>(trace: (nat, R) -> C, r: R, cell: C, from: nat, to: nat) {
    exists t: nat :: from <= t <= to && trace(t, r) == cell
  }

  /** The register does not return to a value it left. */
  ghost predicate NoRepeats<R(!new), C(!new)>(trace: (nat, R) -> C, r: R, from: nat, to: nat) {
    forall a: nat, b: nat, c: nat |
      from <= a <= b <= c <= to && trace(a, r) == trace(c, r) :: trace(b, r) == trace(a, r)
  }

  /** Seen before and after, then held in between. */
  lemma SeenTwice<R(!new), C(!new)>(trace: (nat, R) -> C, r: R, cell: C, from: nat, at: nat, to: nat)
    requires Seen(trace, r, cell, from, at) && Seen(trace, r, cell, at, to)
    requires NoRepeats(trace, r, from, to)
    ensures trace(at, r) == cell
  {
    var a: nat :| from <= a <= at && trace(a, r) == cell;
    var c: nat :| at <= c <= to && trace(c, r) == cell;
    assert trace(a, r) == trace(c, r);
  }

  /** Two equal reads alone do not show what was held between them. */
  lemma RepeatHides<R(!new), C(!new)>(r: R, before: C, between: C)
    requires before != between
    ensures exists trace: (nat, R) -> C ::
      Seen(trace, r, before, 0, 1) && Seen(trace, r, before, 1, 2) && trace(1, r) != before
  {
    var trace: (nat, R) -> C := (t, _) => if t == 1 then between else before;
    assert trace(0, r) == before && trace(2, r) == before && trace(1, r) != before;
    assert Seen(trace, r, before, 0, 1) && Seen(trace, r, before, 1, 2);
  }
}
