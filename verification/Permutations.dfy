/** Reordering a sequence. */
module Permutations {

  lemma MultisetSplit<P>(a: seq<P>, p: P, b: seq<P>)
    ensures multiset(a + [p] + b) - multiset{p} == multiset(a + b)
  {}

  /** Where the first of one order lies in another, and what is around it. */
  lemma Locate<P>(ps: seq<P>, qs: seq<P>) returns (a: seq<P>, b: seq<P>)
    requires ps != [] && multiset(ps) == multiset(qs)
    ensures qs == a + [ps[0]] + b && multiset(a + b) == multiset(ps[1..])
  {
    assert ps[0] in multiset(qs);
    var k :| 0 <= k < |qs| && qs[k] == ps[0];
    a, b := qs[..k], qs[k + 1..];
    MultisetSplit(a, ps[0], b);
    MultisetSplit([], ps[0], ps[1..]);
    assert qs == a + [ps[0]] + b;
    assert [] + [ps[0]] + ps[1..] == ps && [] + ps[1..] == ps[1..];
  }
}
