/** Reuse reports: per phase five lanes of decisions, frozen while one final
    read reports them, and written as one fixed-width record. */
module ReuseReports {
  import opened Wrappers

  datatype Decision = Absent | Current | Reactivated | OtherByte

  const SOURCE := 0
  const SEARCH := 1
  const LANES := 5
  const PHASES := 15

  // ---- the record

  const HEX := "0123456789ABCDEF"

  function Letter(d: Decision): char {
    match d
    case Absent => '0'
    case Current => 'c'
    case Reactivated => 'p'
    case OtherByte => '?'
  }

  function DecisionOf(c: char): Decision {
    if c == '0' then Absent else if c == 'c' then Current else if c == 'p' then Reactivated else OtherByte
  }

  predicate Encodable(lanes: seq<Decision>) {
    && |lanes| == LANES && lanes[SOURCE] == lanes[SEARCH]
    && (forall i | 0 <= i < LANES :: lanes[i] != OtherByte && (lanes[i] == Reactivated ==> i <= SEARCH))
  }

  /** Fills one 14-byte record, or refuses. `bound` says the current state
      belongs to the process that opened the report. */
  method Record(bound: bool, producer: nat, phase: nat, lanes: seq<Decision>) returns (record: array<char>, ok: bool)
    requires producer < 16 && phase < 16 && |lanes| == LANES
    ensures record.Length == 14 && fresh(record)
    ensures ok <==> bound && Encodable(lanes)
    ensures ok ==> Decoded(record[..]) == Some((producer, phase, lanes))
  {
    record := new char[14](_ => '0');
    if !bound || lanes[SOURCE] != lanes[SEARCH] { return record, false; }
    for lane := 0 to LANES
      invariant forall i | 0 <= i < lane :: lanes[i] != OtherByte && (lanes[i] == Reactivated ==> i <= SEARCH)
      invariant forall i | 0 <= i < lane :: record[8 + i] == Letter(lanes[i])
    {
      match lanes[lane]
      case Absent => record[8 + lane] := '0';
      case Current => record[8 + lane] := 'c';
      case Reactivated =>
        if lane > SEARCH { return record, false; }
        record[8 + lane] := 'p';
      case OtherByte => return record, false;
    }
    record[0], record[1], record[2], record[3] := 'R', 'U', '1', ':';
    record[4], record[5], record[6], record[7] := HEX[producer], ':', HEX[phase], ':';
    record[13] := '\n';
    ok := true;
    HexBack(producer);
    HexBack(phase);
    assert record[..][8..13] == record[8..13];
    DecisionsBack(record[8..13], lanes);
  }

  function Decisions(text: seq<char>): (lanes: seq<Decision>)
    ensures |lanes| == |text| && forall i | 0 <= i < |text| :: lanes[i] == DecisionOf(text[i])
  {
    seq(|text|, i requires 0 <= i < |text| => DecisionOf(text[i]))
  }

  lemma DecisionsBack(text: seq<char>, lanes: seq<Decision>)
    requires |text| == |lanes| && forall i | 0 <= i < |text| :: lanes[i] != OtherByte && text[i] == Letter(lanes[i])
    ensures Decisions(text) == lanes
  {}

  function Digit(c: char): (d: nat)
    ensures d <= 16
  {
    Find(HEX, c)
  }

  function Find(s: string, c: char): (i: nat)
    ensures i <= |s|
  {
    if s == "" || s[0] == c then 0 else 1 + Find(s[1..], c)
  }

  lemma HexBack(n: nat)
    requires n < 16
    ensures Digit(HEX[n]) == n
  {
    FindAt(HEX, n);
  }

  lemma {:induction false} FindAt(s: string, n: nat)
    requires n < |s| && forall i | 0 <= i < n :: s[i] != s[n]
    ensures Find(s, s[n]) == n
  {
    if n > 0 { FindAt(s[1..], n - 1); }
  }

  /** Reads a record back. */
  function Decoded(record: seq<char>): Option<(nat, nat, seq<Decision>)> {
    if |record| == 14 && record[..4] == "RU1:" && record[5] == record[7] == ':' && record[13] == '\n' &&
       Digit(record[4]) < 16 && Digit(record[6]) < 16
    then Some((Digit(record[4]), Digit(record[6]), Decisions(record[8..13])))
    else None
  }

  // ---- the state the mutex protects

  /** `writes` counts the records written for the phase and `written` is the
      last one's lanes. */
  datatype Phase = Phase(lanes: seq<Decision>, pending: bool, complete: bool, writes: nat, written: seq<Decision>)

  const Empty := Phase([Absent, Absent, Absent, Absent, Absent], false, false, 0, [])

  datatype Reuse = Reuse(failed: bool, phases: seq<Phase>)

  /** Every lane from first to last still has no decision, or this one. */
  predicate Agrees(lanes: seq<Decision>, first: int, last: int, d: Decision) {
    |lanes| == LANES && forall i | 0 <= i < LANES && first <= i <= last :: lanes[i] == Absent || lanes[i] == d
  }

  function Decided(lanes: seq<Decision>, first: int, last: int, d: Decision): (r: seq<Decision>)
    requires |lanes| == LANES
    ensures |r| == LANES && forall i | 0 <= i < LANES :: r[i] == if first <= i <= last then d else lanes[i]
  {
    seq(LANES, i requires 0 <= i < LANES => if first <= i <= last then d else lanes[i])
  }

  /** Decides the lanes from first to last of the current phase. */
  function Observed(failed: bool, p: Phase, first: int, last: int, d: Decision): (Phase, bool) {
    if 0 <= first <= last < LANES && (d == Current || d == Reactivated) &&
       !failed && !p.pending && !p.complete && Agrees(p.lanes, first, last, d)
    then (p.(lanes := Decided(p.lanes, first, last, d)), true) else (p, false)
  }

  datatype Begun = Started | Skipped | Invalid

  function Began(failed: bool, phase: nat, p: Phase, query: bool): (Phase, Begun) {
    if failed || p.pending then (p, Invalid)
    else if phase == 14 && !query then (p, Skipped)
    else if query != (phase == 14) then (p, Invalid)
    else if p.complete then (p, Skipped)
    else (p.(pending := true), Started)
  }

  /** May a finish write? The mutex is released while it does. */
  predicate MayWrite(failed: bool, p: Phase) {
    !failed && p.pending && !p.complete
  }

  function Finished(p: Phase): Phase {
    p.(pending := false, complete := true)
  }

  // ---- every interleaving of observers and final reads

  datatype Tail =
    | Idle
    | Reporting(phase: nat)                            // a final read whose report has not joined
    | Writing(phase: nat, lanes: seq<Decision>)        // it may write these lanes
    | Wrote(phase: nat)                                // the record is out
    | Reported(phase: nat)
    | Refusing
    | Failed

  datatype Action =
    | ObserveIndex(phase: nat, reactivated: bool, ours: bool)
    | ObserveLane(phase: nat, lane: nat, ours: bool)
    | Begin(phase: nat, query: bool, current: bool)
    | Abort
    | Check(current: bool)
    | Write(bound: bool, ok: bool)
    | Finish
    | Refuse

  datatype System = System(reuse: Reuse, tails: map<nat, Tail>)

  function Initially(): System {
    System(Reuse(false, seq(PHASES, _ => Empty)), map[])
  }

  function TailOf(s: System, id: nat): Tail {
    if id in s.tails then s.tails[id] else Idle
  }

  /** The phase a move concerns; 0 when it concerns none. */
  function PhaseOf(t: Tail, a: Action): nat {
    match t
    case Idle => (match a case ObserveIndex(p, _, _) => p case ObserveLane(p, _, _) => p case Begin(p, _, _) => p case _ => 0)
    case Reporting(p) => p
    case Writing(p, _) => p
    case Wrote(p) => p
    case _ => 0
  }

  function PhaseMove(failed: bool, phase: nat, p: Phase, t: Tail, a: Action): (Phase, Tail) {
    match (t, a)
    case (Idle, ObserveIndex(_, reactivated, ours)) =>
      if !ours then (p, Refusing) else
      var (next, valid) := Observed(failed, p, SOURCE, SEARCH, if reactivated then Reactivated else Current);
      (next, if valid then Idle else Refusing)
    case (Idle, ObserveLane(_, lane, ours)) =>
      if !ours || lane <= SEARCH then (p, Refusing) else
      var (next, valid) := Observed(failed, p, lane, lane, Current);
      (next, if valid then Idle else Refusing)
    case (Idle, Begin(_, query, current)) =>
      if !current then (p, Refusing) else
      var (next, begun) := Began(failed, phase, p, query);
      (next, match begun case Started => Reporting(phase) case Skipped => Idle case Invalid => Refusing)
    case (Reporting(_), Abort) => (p.(pending := false), Idle)
    case (Reporting(_), Check(current)) => (p, if current && MayWrite(failed, p) then Writing(phase, p.lanes) else Refusing)
    case (Writing(_, lanes), Write(bound, ok)) =>
      if bound && Encodable(lanes) && ok then (p.(writes := p.writes + 1, written := lanes), Wrote(phase)) else (p, Refusing)
    case (Wrote(_), Finish) => (Finished(p), Reported(phase))
    case _ => (p, t)
  }

  function Move(r: Reuse, t: Tail, a: Action): (Reuse, Tail)
    requires |r.phases| == PHASES
  {
    var k := PhaseOf(t, a);
    if t.Refusing? && a.Refuse? then (r.(failed := true), Failed)
    else if k == 0 || k > PHASES then (r, if t.Idle? && (a.ObserveIndex? || a.ObserveLane? || a.Begin?) then Refusing else t)
    else
      var (p, u) := PhaseMove(r.failed, k, r.phases[k - 1], t, a);
      (r.(phases := r.phases[k - 1 := p]), u)
  }

  function Step(s: System, id: nat, a: Action): (n: System)
    requires |s.reuse.phases| == PHASES
    ensures |n.reuse.phases| == PHASES
  {
    var (r, t) := Move(s.reuse, TailOf(s, id), a);
    System(r, s.tails[id := t])
  }

  function Run(moves: seq<(nat, Action)>): (s: System)
    ensures |s.reuse.phases| == PHASES
  {
    if moves == [] then Initially()
    else Step(Run(moves[..|moves| - 1]), moves[|moves| - 1].0, moves[|moves| - 1].1)
  }

  // ---- what every interleaving keeps

  /** Lanes the encoder accepts, and at most one record, written for them. */
  ghost predicate PhaseSound(p: Phase) {
    && Encodable(p.lanes) && !(p.pending && p.complete)
    && p.writes <= 1 && (p.complete ==> p.writes == 1) && (p.writes == 1 ==> p.written == p.lanes && (p.pending || p.complete))
  }

  /** The phase a tail is reporting, which it alone does. */
  function Holds(t: Tail): nat {
    if t.Reporting? || t.Writing? || t.Wrote? then t.phase else 0
  }

  ghost predicate TailFits(phase: nat, p: Phase, t: Tail) {
    match t
    case Reporting(k) => k == phase ==> p.pending && p.writes == 0
    case Writing(k, lanes) => k == phase ==> p.pending && p.writes == 0 && lanes == p.lanes
    case Wrote(k) => k == phase ==> p.pending && p.writes == 1
    case Reported(k) => k == phase ==> p.complete
    case _ => true
  }

  ghost predicate Inv(s: System) {
    && |s.reuse.phases| == PHASES
    && (forall k | 0 <= k < PHASES :: PhaseSound(s.reuse.phases[k]))
    && (forall id, k | id in s.tails && 0 <= k < PHASES :: TailFits(k + 1, s.reuse.phases[k], s.tails[id]))
    && (forall id | id in s.tails :: Holds(s.tails[id]) <= PHASES && (s.tails[id].Failed? ==> s.reuse.failed))
    && (forall i, j | i in s.tails && j in s.tails && Holds(s.tails[i]) != 0 && Holds(s.tails[i]) == Holds(s.tails[j]) :: i == j)
  }

  /** Lanes are frozen while a report is pending and for good once complete;
      only the abort of the report itself reopens them. */
  ghost predicate Frozen(phase: nat, p: Phase, q: Phase, t: Tail, a: Action) {
    && (p.pending || p.complete ==> q.lanes == p.lanes)
    && (p.complete ==> q == p)
    && (p.pending && !q.pending && !q.complete ==> a.Abort? && Holds(t) == phase)
  }

  lemma PhaseMoveKeeps(failed: bool, phase: nat, p: Phase, t: Tail, a: Action)
    requires PhaseSound(p) && TailFits(phase, p, t) && phase == PhaseOf(t, a) != 0
    ensures var (q, u) := PhaseMove(failed, phase, p, t, a);
      && PhaseSound(q) && TailFits(phase, q, u) && Frozen(phase, p, q, t, a) && !u.Failed?
      && (Holds(u) == 0 || (Holds(u) == phase && (Holds(t) == phase || !p.pending)))
      && (Holds(t) != phase && p.pending ==> q == p)
      && (u.Reported? ==> u.phase == phase)
  {}

  /** A tail that did not move still fits. */
  lemma OthersFit(s: System, id: nat, a: Action, i: nat, k: nat)
    requires Inv(s) && i in s.tails && i != id && 0 <= k < PHASES
    ensures TailFits(k + 1, Step(s, id, a).reuse.phases[k], s.tails[i])
  {
    var t := TailOf(s, id);
    var phase := PhaseOf(t, a);
    assert TailFits(k + 1, s.reuse.phases[k], s.tails[i]);
    if phase == k + 1 && !(t.Refusing? && a.Refuse?) {
      assert TailFits(phase, s.reuse.phases[k], t);
      PhaseMoveKeeps(s.reuse.failed, phase, s.reuse.phases[k], t, a);
    }
  }

  /** A move leaves the phases it does not concern, and does not hold them. */
  lemma Elsewhere(s: System, id: nat, a: Action, k: nat)
    requires Inv(s) && k < PHASES && PhaseOf(TailOf(s, id), a) != k + 1
    ensures var n := Step(s, id, a);
      n.reuse.phases[k] == s.reuse.phases[k] && TailFits(k + 1, n.reuse.phases[k], TailOf(n, id)) && Holds(TailOf(n, id)) != k + 1
  {
    var t := TailOf(s, id);
    var phase := PhaseOf(t, a);
    assert TailFits(k + 1, s.reuse.phases[k], t);
    if 1 <= phase <= PHASES {
      assert TailFits(phase, s.reuse.phases[phase - 1], t);
      PhaseMoveKeeps(s.reuse.failed, phase, s.reuse.phases[phase - 1], t, a);
    }
  }

  /** What the mover leaves behind. */
  lemma MoverFits(s: System, id: nat, a: Action, k: nat)
    requires Inv(s) && k < PHASES
    ensures var t, n := TailOf(s, id), Step(s, id, a); var u := TailOf(n, id);
      && PhaseSound(n.reuse.phases[k]) && TailFits(k + 1, n.reuse.phases[k], u)
      && Frozen(k + 1, s.reuse.phases[k], n.reuse.phases[k], t, a)
      && (Holds(u) == k + 1 ==> Holds(t) == k + 1 || !s.reuse.phases[k].pending)
  {
    var t := TailOf(s, id);
    var phase := PhaseOf(t, a);
    assert PhaseSound(s.reuse.phases[k]);
    if phase == k + 1 {
      assert TailFits(phase, s.reuse.phases[k], t);
      PhaseMoveKeeps(s.reuse.failed, phase, s.reuse.phases[k], t, a);
    } else {
      Elsewhere(s, id, a, k);
    }
  }

  lemma MoverBounds(s: System, id: nat, a: Action)
    requires Inv(s)
    ensures var n := Step(s, id, a);
      Holds(TailOf(n, id)) <= PHASES && (TailOf(n, id).Failed? ==> n.reuse.failed) && (s.reuse.failed ==> n.reuse.failed)
  {
    var t := TailOf(s, id);
    var phase := PhaseOf(t, a);
    if 1 <= phase <= PHASES {
      assert TailFits(phase, s.reuse.phases[phase - 1], t);
      PhaseMoveKeeps(s.reuse.failed, phase, s.reuse.phases[phase - 1], t, a);
    }
  }

  lemma HoldersApart(s: System, id: nat, a: Action, i: nat)
    requires Inv(s) && i in s.tails && i != id && Holds(s.tails[i]) != 0
    ensures Holds(s.tails[i]) != Holds(TailOf(Step(s, id, a), id))
  {
    var k := Holds(s.tails[i]) - 1;
    MoverFits(s, id, a, k);
    assert TailFits(k + 1, s.reuse.phases[k], s.tails[i]);
  }

  lemma StepKeeps(s: System, id: nat, a: Action)
    requires Inv(s)
    ensures Inv(Step(s, id, a))
    ensures s.reuse.failed ==> Step(s, id, a).reuse.failed
    ensures forall k | 0 <= k < PHASES ::
      Frozen(k + 1, s.reuse.phases[k], Step(s, id, a).reuse.phases[k], TailOf(s, id), a)
  {
    var n := Step(s, id, a);
    MoverBounds(s, id, a);
    forall k | 0 <= k < PHASES
      ensures PhaseSound(n.reuse.phases[k]) && Frozen(k + 1, s.reuse.phases[k], n.reuse.phases[k], TailOf(s, id), a)
    {
      MoverFits(s, id, a, k);
    }
    forall i, k | i in n.tails && 0 <= k < PHASES ensures TailFits(k + 1, n.reuse.phases[k], n.tails[i]) {
      if i == id { MoverFits(s, id, a, k); } else { OthersFit(s, id, a, i, k); }
    }
    forall i | i in n.tails && i != id && Holds(n.tails[i]) != 0 ensures Holds(n.tails[i]) != Holds(n.tails[id]) {
      HoldersApart(s, id, a, i);
    }
  }

  lemma {:induction false} RunKeeps(moves: seq<(nat, Action)>)
    ensures Inv(Run(moves))
  {
    if moves != [] {
      var n := |moves| - 1;
      RunKeeps(moves[..n]);
      StepKeeps(Run(moves[..n]), moves[n].0, moves[n].1);
    }
  }

  /** In every run, for every phase: source and search agree, an encoder bound
      to the process accepts the lanes, and a complete phase wrote exactly one
      record, of exactly these lanes. */
  lemma LanesEncode(moves: seq<(nat, Action)>, k: nat)
    requires k < PHASES
    ensures var p := Run(moves).reuse.phases[k];
      && |p.lanes| == LANES && p.lanes[SOURCE] == p.lanes[SEARCH] && Encodable(p.lanes)
      && p.writes <= 1 && (p.complete ==> p.writes == 1 && p.written == p.lanes && !p.pending)
  {
    RunKeeps(moves);
    assert PhaseSound(Run(moves).reuse.phases[k]);
  }

  // ---- the same sections, in place

  class ReuseControl {
    var failed: bool
    const phases: array<Phase>

    ghost predicate Valid()
      reads this, phases
    {
      phases.Length == PHASES && forall k | 0 <= k < PHASES :: |phases[k].lanes| == LANES
    }

    /** Every phase is as runs keep it. */
    ghost predicate Sound()
      reads this, phases
    {
      Valid() && forall k | 0 <= k < PHASES :: PhaseSound(phases[k])
    }

    ghost function View(): Reuse
      reads this, phases
    {
      Reuse(failed, phases[..])
    }

    constructor ()
      ensures Sound() && View() == Initially().reuse && fresh(phases)
    {
      failed := false;
      phases := new Phase[PHASES](_ => Empty);
      new;
      assert phases[..] == seq(PHASES, _ => Empty);
    }

    method Refuse()
      modifies this`failed
      ensures failed
    {
      failed := true;
    }

    /** Decides the lanes from first to last, one by one, if none refuses. */
    method Observe(phase: int, first: int, last: int, d: Decision) returns (valid: bool)
      requires Valid()
      modifies phases
      ensures Valid()
      ensures !(1 <= phase <= PHASES) ==> !valid && phases[..] == old(phases[..])
      ensures 1 <= phase <= PHASES ==>
        && valid == Observed(failed, old(phases[phase - 1]), first, last, d).1
        && phases[..] == old(phases[..])[phase - 1 := Observed(failed, old(phases[phase - 1]), first, last, d).0]
      ensures old(Sound()) && ((first == SOURCE && last == SEARCH) || (first == last > SEARCH && d == Current)) ==> Sound()
    {
      if first < 0 || last < first || last >= LANES || phase < 1 || phase > PHASES || (d != Current && d != Reactivated) {
        return false;
      }
      var p := phases[phase - 1];
      valid := !failed && !p.pending && !p.complete;
      var lane := first;
      while valid && lane <= last
        invariant first <= lane <= last + 1
        invariant valid ==> !failed && !p.pending && !p.complete && forall i | first <= i < lane :: p.lanes[i] == Absent || p.lanes[i] == d
        invariant !valid ==> failed || p.pending || p.complete || !Agrees(p.lanes, first, last, d)
      {
        valid := p.lanes[lane] == Absent || p.lanes[lane] == d;
        lane := lane + 1;
      }
      if valid {
        var lanes := p.lanes;
        for i := first to last + 1
          invariant |lanes| == LANES
          invariant forall j | 0 <= j < LANES :: lanes[j] == if first <= j < i then d else p.lanes[j]
        {
          lanes := lanes[i := d];
        }
        assert lanes == Decided(p.lanes, first, last, d);
        phases[phase - 1] := p.(lanes := lanes);
      }
    }

    method BeginFinal(phase: int, query: bool) returns (begun: Begun)
      requires Valid()
      modifies phases
      ensures Valid()
      ensures !(1 <= phase <= PHASES) ==> begun == Invalid && phases[..] == old(phases[..])
      ensures 1 <= phase <= PHASES ==>
        phases[..] == old(phases[..])[phase - 1 := phases[phase - 1]] && (phases[phase - 1], begun) == Began(failed, phase, old(phases[phase - 1]), query)
      ensures old(Sound()) ==> Sound()
    {
      if phase < 1 || phase > PHASES { return Invalid; }
      var p := phases[phase - 1];
      if failed || p.pending { return Invalid; }
      if phase == 14 && !query { return Skipped; }
      if query != (phase == 14) { return Invalid; }
      if p.complete { return Skipped; }
      phases[phase - 1] := p.(pending := true);
      begun := Started;
    }

    method AbortFinal(phase: int)
      requires Valid() && 1 <= phase <= PHASES
      modifies phases
      ensures Valid() && phases[..] == old(phases[..])[phase - 1 := old(phases[phase - 1]).(pending := false)]
      ensures old(Sound()) && old(phases[phase - 1]).writes == 0 ==> Sound()
    {
      phases[phase - 1] := phases[phase - 1].(pending := false);
    }

    method CompleteFinal(phase: int)
      requires Valid() && 1 <= phase <= PHASES
      modifies phases
      ensures Valid() && phases[..] == old(phases[..])[phase - 1 := Finished(old(phases[phase - 1]))]
      ensures old(Sound()) && old(phases[phase - 1]).writes == 1 ==> Sound()
    {
      phases[phase - 1] := phases[phase - 1].(pending := false, complete := true);
    }
  }
}
