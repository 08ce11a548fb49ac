/** Exact reads: requests carry consecutive ordinals, one is active at a time,
    the first failure latches, and every admitted request reports and runs its
    continuation before the next is admitted. */
module ExactReads {
  import opened Wrappers

  const MAX_ORDINAL := 11_531

  // ---- the ordinal header

  function Format(n: nat): (s: string) {
    if n < 10 then [DigitOf(n)] else Format(n / 10) + [DigitOf(n % 10)]
  }

  function DigitOf(d: nat): char
    requires d < 10
  {
    "0123456789"[d]
  }

  function Parse(s: string): Option<nat> {
    if s == "" then None
    else
      var last := s[|s| - 1];
      if !('0' <= last <= '9') then None
      else if |s| == 1 then Some((last - '0') as nat)
      else
        var front := Parse(s[..|s| - 1]);
        if front.None? then None else Some(front.value * 10 + (last - '0') as nat)
  }

  lemma {:induction false} ParseBack(n: nat)
    ensures Parse(Format(n)) == Some(n)
  {
    if n >= 10 {
      ParseBack(n / 10);
      var s := Format(n);
      assert s[..|s| - 1] == Format(n / 10);
      assert n == n / 10 * 10 + n % 10;
    }
  }

  lemma {:induction false} FormatLength(n: nat, digits: nat)
    requires digits > 0 && n < Power(digits)
    ensures |Format(n)| <= digits
  {
    if n >= 10 { FormatLength(n / 10, digits - 1); }
  }

  function Power(digits: nat): nat {
    if digits == 0 then 1 else 10 * Power(digits - 1)
  }

  /** Parsing is bounded before it starts. */
  function HeaderOrdinal(s: string): Option<nat> {
    if |s| == 0 || |s| > 20 then None
    else
      match Parse(s)
      case None => None
      case Some(n) => if Format(n) != s || n == 0 || n > MAX_ORDINAL then None else Some(n)
  }

  /** A header names an ordinal exactly when it is that ordinal's one
      canonical text. */
  lemma HeaderIsCanonical(s: string, n: nat)
    ensures HeaderOrdinal(s) == Some(n) <==> s == Format(n) && 1 <= n <= MAX_ORDINAL
  {
    if s == Format(n) && 1 <= n <= MAX_ORDINAL {
      ParseBack(n);
      assert Power(5) == 100000 by { assert Power(1) == 10; assert Power(2) == 100; assert Power(3) == 1000; assert Power(4) == 10000; }
      FormatLength(n, 5);
      assert |Format(n)| > 0;
    }
  }

  // ---- composing the continuations of one final read

  /** What a control's final tail returns: no continuation of its own, one, or
      a refusal. */
  datatype Outcome = Absent | Tail(id: nat) | Declined

  /** An installed control: is it handed the continuation so far, and does it
      hand that back when it refuses? */
  datatype Asked = Asked(handed: bool, keeps: bool, outcome: Outcome)

  /** The controls of a final read, in the order they are asked; one that is
      not installed is left out. */
  function Installed(retention: Option<Outcome>, stale: Option<Outcome>, checkpoint: Option<Outcome>,
                     cleanup: Option<Outcome>, reuse: Option<Outcome>): seq<Asked>
  {
    Ask(retention, false, false) + Ask(stale, false, false) + Ask(checkpoint, true, false) +
    Ask(cleanup, true, true) + Ask(reuse, true, false)
  }

  function Ask(o: Option<Outcome>, handed: bool, keeps: bool): seq<Asked> {
    if o.Some? then [Asked(handed, keeps, o.value)] else []
  }

  function Own(o: Outcome): seq<nat> {
    if o.Tail? then [o.id] else []
  }

  /** The continuations a read is left with, and whether a control refused. */
  function Composed(asked: seq<Asked>, prior: seq<nat>): (seq<nat>, bool) {
    if asked == [] then (prior, false)
    else if asked[0].outcome.Declined? then (if asked[0].keeps then prior else [], true)
    else Composed(asked[1..], (if asked[0].handed then prior else []) + Own(asked[0].outcome))
  }

  /** Every continuation made before the first refusal. */
  function Made(asked: seq<Asked>): seq<nat> {
    if asked == [] || asked[0].outcome.Declined? then [] else Own(asked[0].outcome) + Made(asked[1..])
  }

  /** No control that drops what it was given is reached with something to drop. */
  predicate NothingDropped(asked: seq<Asked>, prior: seq<nat>) {
    if asked == [] then true
    else if asked[0].outcome.Declined? then asked[0].keeps || prior == []
    else (asked[0].handed || prior == []) && NothingDropped(asked[1..], prior + Own(asked[0].outcome))
  }

  /** Any read runs all the continuations its controls made, in order, exactly
      when nothing is dropped; otherwise it runs fewer. */
  lemma {:induction false} ComposedIsMade(asked: seq<Asked>, prior: seq<nat>)
    ensures Composed(asked, prior).0 == prior + Made(asked) <==> NothingDropped(asked, prior)
    ensures |Composed(asked, prior).0| <= |prior| + |Made(asked)|
    ensures |Composed(asked, prior).0| == |prior| + |Made(asked)| ==> NothingDropped(asked, prior)
  {
    if asked != [] && !asked[0].outcome.Declined? {
      var own := Own(asked[0].outcome);
      var next := (if asked[0].handed then prior else []) + own;
      ComposedIsMade(asked[1..], next);
      assert prior + (own + Made(asked[1..])) == prior + own + Made(asked[1..]);
      if !asked[0].handed && prior == [] { assert prior + own == next; }
    }
  }

  /** Which controls a server epoch installs: retention in the first, stale and
      then checkpoint in the third, cleanup in none after it. */
  predicate InstalledIn(epoch: nat, retention: Option<Outcome>, stale: Option<Outcome>, checkpoint: Option<Outcome>,
                        cleanup: Option<Outcome>)
  {
    && (retention.Some? ==> epoch == 1) && (stale.Some? ==> epoch == 3) && (checkpoint.Some? ==> stale.Some?)
    && (cleanup.Some? ==> epoch <= 3)
  }

  predicate Makes(o: Option<Outcome>) {
    o.Some? && o.value.Tail?
  }

  predicate Refuses(o: Option<Outcome>) {
    o == Some(Declined)
  }

  /** The first control to refuse is the checkpoint or the reuse control, and one
      asked before it had made a continuation. */
  predicate LateRefusal(retention: Option<Outcome>, stale: Option<Outcome>, checkpoint: Option<Outcome>,
                        cleanup: Option<Outcome>, reuse: Option<Outcome>)
  {
    && !Refuses(retention) && !Refuses(stale)
    && if Refuses(checkpoint) then Makes(stale)
       else !Refuses(cleanup) && Refuses(reuse) && (Makes(retention) || Makes(stale) || Makes(checkpoint) || Makes(cleanup))
  }

  /** One more control, asked first. */
  lemma AskedFirst(o: Option<Outcome>, handed: bool, keeps: bool, rest: seq<Asked>, prior: seq<nat>)
    ensures NothingDropped(Ask(o, handed, keeps) + rest, prior) ==
      if o.None? then NothingDropped(rest, prior)
      else if o.value.Declined? then keeps || prior == []
      else (handed || prior == []) && NothingDropped(rest, prior + Own(o.value))
  {
    var all := Ask(o, handed, keeps) + rest;
    if o.Some? {
      assert all[0] == Asked(handed, keeps, o.value) && all[1..] == rest;
    } else {
      assert all == rest;
    }
  }

  /** Between the controls of an epoch only a late refusal drops anything. */
  lemma OnlyLateRefusalDrops(epoch: nat, retention: Option<Outcome>, stale: Option<Outcome>, checkpoint: Option<Outcome>,
                             cleanup: Option<Outcome>, reuse: Option<Outcome>)
    requires InstalledIn(epoch, retention, stale, checkpoint, cleanup)
    ensures NothingDropped(Installed(retention, stale, checkpoint, cleanup, reuse), []) <==>
      !LateRefusal(retention, stale, checkpoint, cleanup, reuse)
  {
    var fifth := Ask(reuse, true, false);
    var fourth := Ask(cleanup, true, true) + fifth;
    var third := Ask(checkpoint, true, false) + fourth;
    var second := Ask(stale, false, false) + third;
    var asked := Ask(retention, false, false) + second;
    assert asked == Installed(retention, stale, checkpoint, cleanup, reuse);
    var none: seq<nat> := [];
    var p1 := none + if retention.Some? then Own(retention.value) else [];
    var p2 := p1 + if stale.Some? then Own(stale.value) else [];
    var p3 := p2 + if checkpoint.Some? then Own(checkpoint.value) else [];
    var p4 := p3 + if cleanup.Some? then Own(cleanup.value) else [];
    AskedFirst(retention, false, false, second, none);
    AskedFirst(stale, false, false, third, p1);
    AskedFirst(checkpoint, true, false, fourth, p2);
    AskedFirst(cleanup, true, true, fifth, p3);
    AskedFirst(reuse, true, false, [], p4);
    assert fifth + [] == fifth;
    assert (retention.None? ==> p1 == none) && (stale.None? ==> p2 == p1) && (checkpoint.None? ==> p3 == p2) && (cleanup.None? ==> p4 == p3);
    assert (p1 != [] <==> Makes(retention)) && (p2 != [] <==> p1 != [] || Makes(stale));
    assert (p3 != [] <==> p2 != [] || Makes(checkpoint)) && (p4 != [] <==> p3 != [] || Makes(cleanup));
  }

  /** In every epoch a final read runs exactly the continuations its controls
      made, in order, unless a control that gives nothing back refuses after an
      earlier one made its own. */
  lemma ReadRunsMade(epoch: nat, retention: Option<Outcome>, stale: Option<Outcome>, checkpoint: Option<Outcome>,
                     cleanup: Option<Outcome>, reuse: Option<Outcome>)
    requires InstalledIn(epoch, retention, stale, checkpoint, cleanup)
    ensures var asked := Installed(retention, stale, checkpoint, cleanup, reuse);
      && (Composed(asked, []).0 == Made(asked) <==> !LateRefusal(retention, stale, checkpoint, cleanup, reuse))
      && (!Refuses(retention) && !Refuses(stale) && !Refuses(checkpoint) && !Refuses(cleanup) && !Refuses(reuse) ==>
            Composed(asked, []).0 == Made(asked))
  {
    OnlyLateRefusalDrops(epoch, retention, stale, checkpoint, cleanup, reuse);
    var asked := Installed(retention, stale, checkpoint, cleanup, reuse);
    ComposedIsMade(asked, []);
    assert [] + Made(asked) == Made(asked);
  }

  /** That happens: in the first epoch the reuse control refuses after the
      retention control made its continuation, which never runs. */
  lemma RefusalLosesRetention(id: nat)
    ensures InstalledIn(1, Some(Tail(id)), None, None, None)
    ensures var asked := Installed(Some(Tail(id)), None, None, None, Some(Declined));
      Composed(asked, []) == ([], true) && Made(asked) == [id]
  {
    var asked := Installed(Some(Tail(id)), None, None, None, Some(Declined));
    assert asked == [Asked(false, false, Tail(id)), Asked(true, false, Declined)];
    assert asked[1..] == [Asked(true, false, Declined)];
    assert Made(asked) == Own(Tail(id)) + Made(asked[1..]);
    var none: seq<nat> := [];
    assert none + Own(Tail(id)) == [id];
    assert Composed(asked[1..], [id]) == (none, true);
  }

  // ---- the state the mutex protects

  datatype State = State(next: nat, active: bool, failed: bool)

  const Opened := State(1, false, false)

  function Admitted(s: State, ordinal: Option<nat>): (State, bool) {
    if ordinal.Some? && !s.failed && !s.active && ordinal.value == s.next
    then (s.(active := true, next := s.next + 1), true) else (s, false)
  }

  /** The caller that gets true also tells the process. */
  function Released(s: State, erred: bool): (State, bool) {
    (s.(active := false, failed := s.failed || erred), erred && !s.failed)
  }

  function Marked(s: State): (State, bool) {
    (s.(failed := true), !s.failed)
  }

  // ---- every interleaving of requests

  /** What one admitted request has done so far. `whole` says its handler
      completed and its whole body was written. */
  datatype Work = Work(ordinal: nat, whole: bool, erred: bool, commits: bool, continues: bool)

  datatype Thread =
    | Start
    | Refused(ordinal: nat)              // found inadmissible, or without a ledger
    | Telling(ordinal: nat)              // the first failure's own refusal
    | Serving(ordinal: nat)
    | Served(work: Work)
    | Counted(work: Work)                // the ledger is finished
    | Committed(work: Work)              // past the commit
    | Reported(work: Work)               // past the report
    | Continued(work: Work)              // past the continuation
    | Latching                           // the first failure, about to tell the process
    | Returned

  datatype Action =
    | Request(header: string, admissible: bool, ledger: bool)
    | Mark
    | Tell(sent: bool)
    | Serve(whole: bool, erred: bool, commits: bool, continues: bool)
    | Count(clean: bool)
    | Commit(ok: bool)
    | Report(sent: bool)
    | Continue(ok: bool)
    | Release
    | Fail

  /** The logs: ordinals admitted, reported, committed and continued, those
      whose body was whole and ledger clean, and those that owe a continuation;
      and how often the process was told to fail. */
  datatype System = System(
    state: State, holder: Option<nat>, latch: Option<nat>, admitted: seq<nat>, reported: seq<nat>, committed: set<nat>,
    clean: set<nat>, owed: set<nat>, continued: set<nat>, runs: nat, fails: nat, threads: map<nat, Thread>)

  const Idle := System(Opened, None, None, [], [], {}, {}, {}, {}, 0, 0, map[])

  function ThreadOf(s: System, id: nat): Thread {
    if id in s.threads then s.threads[id] else Start
  }

  function Put(s: System, id: nat, t: Thread): System {
    s.(threads := s.threads[id := t])
  }

  function Step(s: System, id: nat, a: Action): System {
    match (ThreadOf(s, id), a)
    case (Start, Request(header, admissible, ledger)) =>
      var ordinal := if admissible then HeaderOrdinal(header) else None;
      var (next, ok) := Admitted(s.state, ordinal);
      if !ok then Put(s, id, Refused(0))
      else
        Put(s.(state := next, holder := Some(id), admitted := s.admitted + [ordinal.value]), id,
            if ledger then Serving(ordinal.value) else Refused(ordinal.value))
    case (Refused(o), Mark) =>
      var (next, first) := Marked(s.state);
      Put(s.(state := next, latch := if first then Some(id) else s.latch), id,
          if first then Telling(o) else if o != 0 then Continued(Work(o, false, false, false, false)) else Returned)
    case (Telling(o), Tell(sent)) =>
      Put(s.(reported := if sent then s.reported + [o] else s.reported, fails := s.fails + 1), id,
          if o != 0 then Continued(Work(o, false, false, false, false)) else Returned)
    case (Serving(o), Serve(whole, erred, commits, continues)) =>
      Put(s.(owed := if continues then s.owed + {o} else s.owed), id, Served(Work(o, whole, erred || !whole, commits, continues)))
    case (Served(w), Count(clean)) =>
      var v := w.(erred := w.erred || !clean);
      Put(s.(clean := if v.whole && !v.erred then s.clean + {w.ordinal} else s.clean), id, Counted(v))
    case (Counted(w), Commit(ok)) =>
      if w.whole && !w.erred && w.commits
      then Put(if ok then s.(committed := s.committed + {w.ordinal}) else s, id, Committed(w.(erred := !ok)))
      else Put(s, id, Committed(w))
    case (Committed(w), Report(sent)) =>
      Put(s.(reported := if sent then s.reported + [w.ordinal] else s.reported), id, Reported(w.(erred := w.erred || !sent)))
    case (Reported(w), Continue(ok)) =>
      if w.continues
      then Put(s.(continued := s.continued + {w.ordinal}, runs := s.runs + 1), id, Continued(w.(erred := w.erred || !ok)))
      else Put(s, id, Continued(w))
    case (Continued(w), Release) =>
      var (next, first) := Released(s.state, w.erred);
      Put(s.(state := next, holder := None, latch := if first then Some(id) else s.latch), id, if first then Latching else Returned)
    case (Latching, Fail) => Put(s.(fails := s.fails + 1), id, Returned)
    case _ => s
  }

  function Run(moves: seq<(nat, Action)>): System {
    if moves == [] then Idle
    else Step(Run(moves[..|moves| - 1]), moves[|moves| - 1].0, moves[|moves| - 1].1)
  }

  // ---- what every interleaving keeps

  /** The ordinal of the active request a thread is serving; 0 for none. */
  function Holds(t: Thread): nat {
    match t
    case Refused(o) => o
    case Telling(o) => o
    case Serving(o) => o
    case Served(w) => w.ordinal
    case Counted(w) => w.ordinal
    case Committed(w) => w.ordinal
    case Reported(w) => w.ordinal
    case Continued(w) => w.ordinal
    case _ => 0
  }

  /** Is the request's continuation still to come? */
  predicate Owes(t: Thread) {
    (t.Served? || t.Counted? || t.Committed? || t.Reported?) && t.work.continues
  }

  ghost predicate ThreadFits(s: System, id: nat, t: Thread) {
    && (Holds(t) != 0 <==> s.holder == Some(id))
    && (Holds(t) != 0 ==> Holds(t) == s.state.next - 1)
    && (Holds(t) == 0 ==> t.Start? || t.Refused? || t.Telling? || t.Latching? || t.Returned?)
    && (t.Telling? || t.Latching? ==> s.latch == Some(id) && s.fails == 0)
    && (t.Serving? || (t.Refused? && t.ordinal != 0) ==> Holds(t) !in s.owed && Holds(t) !in s.clean)
    && (t.Served? ==> t.work.ordinal !in s.clean)
    && (t.Counted? ==> (t.work.whole && !t.work.erred ==> t.work.ordinal in s.clean))
    && (Owes(t) ==> Holds(t) in s.owed && Holds(t) !in s.continued)
  }

  /** Ordinals, the one holder and the one latch. */
  ghost predicate Numbered(s: System) {
    && s.state.next == |s.admitted| + 1 <= MAX_ORDINAL + 1 && (forall i | 0 <= i < |s.admitted| :: s.admitted[i] == i + 1)
    && (s.state.active <==> s.holder.Some?) && (s.state.failed <==> s.latch.Some?)
    && s.fails <= (if s.state.failed then 1 else 0)
    && (s.holder.Some? ==> s.holder.value in s.threads)
  }

  /** What was committed was clean, and only the holder's continuation is
      still to come. */
  ghost predicate Settled(s: System) {
    Accounted(s) && OneOwes(s)
  }

  ghost predicate Accounted(s: System) {
    && s.committed <= s.clean && s.continued <= s.owed && |s.continued| == s.runs
    && (forall o | o in s.owed || o in s.clean :: 1 <= o < s.state.next)
  }

  ghost predicate OneOwes(s: System) {
    forall o | o in s.owed && o !in s.continued :: s.holder.Some? && Owes(ThreadOf(s, s.holder.value)) && o == s.state.next - 1
  }

  ghost predicate Inv(s: System) {
    Numbered(s) && Settled(s) && forall id | id in s.threads :: ThreadFits(s, id, s.threads[id])
  }

  /** A request's admission. */
  lemma AdmissionKeeps(s: System, id: nat, a: Action)
    requires Inv(s) && ThreadOf(s, id).Start?
    ensures Inv(Step(s, id, a))
  {
    var n := Step(s, id, a);
    forall i | i in n.threads ensures ThreadFits(n, i, n.threads[i]) {
      if i != id { assert ThreadFits(s, i, s.threads[i]); }
    }
  }

  lemma ServingNumbers(s: System, id: nat, a: Action)
    requires Numbered(s) && !ThreadOf(s, id).Start? && ThreadFits(s, id, ThreadOf(s, id))
    ensures Numbered(Step(s, id, a))
  {}

  lemma ServingAccounts(s: System, id: nat, a: Action)
    requires Numbered(s) && Settled(s) && !ThreadOf(s, id).Start? && ThreadFits(s, id, ThreadOf(s, id))
    ensures Accounted(Step(s, id, a))
  {}

  lemma ServingOwes(s: System, id: nat, a: Action)
    requires Numbered(s) && Settled(s) && !ThreadOf(s, id).Start? && ThreadFits(s, id, ThreadOf(s, id))
    ensures OneOwes(Step(s, id, a))
  {}

  lemma MoverLands(s: System, id: nat, a: Action)
    requires Numbered(s) && Settled(s) && !ThreadOf(s, id).Start? && ThreadFits(s, id, ThreadOf(s, id))
    ensures ThreadFits(Step(s, id, a), id, ThreadOf(Step(s, id, a), id))
  {}

  lemma OtherLands(s: System, id: nat, a: Action, i: nat)
    requires Numbered(s) && !ThreadOf(s, id).Start? && ThreadFits(s, id, ThreadOf(s, id))
    requires i != id && ThreadFits(s, i, ThreadOf(s, i))
    ensures ThreadFits(Step(s, id, a), i, ThreadOf(s, i))
  {}

  lemma ServingKeeps(s: System, id: nat, a: Action)
    requires Inv(s) && !ThreadOf(s, id).Start?
    ensures Inv(Step(s, id, a))
  {
    ServingNumbers(s, id, a);
    ServingAccounts(s, id, a);
    ServingOwes(s, id, a);
    var n := Step(s, id, a);
    forall i | i in n.threads ensures ThreadFits(n, i, n.threads[i]) {
      if i == id { MoverLands(s, id, a); } else { OtherLands(s, id, a, i); }
    }
  }

  lemma {:induction false} RunKeeps(moves: seq<(nat, Action)>)
    ensures Inv(Run(moves))
  {
    if moves != [] {
      var n := |moves| - 1;
      RunKeeps(moves[..n]);
      var s := Run(moves[..n]);
      if ThreadOf(s, moves[n].0).Start? {
        AdmissionKeeps(s, moves[n].0, moves[n].1);
      } else {
        ServingKeeps(s, moves[n].0, moves[n].1);
      }
    }
  }

  /** In every run the admitted ordinals are 1, 2, 3, ... up to the maximum; only
      whole bodies with clean ledgers were committed; the process was told of at
      most one failure; and when no request is active every continuation owed
      has run, and run once. */
  lemma AdmittedInOrder(moves: seq<(nat, Action)>)
    ensures var s := Run(moves);
      && |s.admitted| <= MAX_ORDINAL && (forall i | 0 <= i < |s.admitted| :: s.admitted[i] == i + 1)
      && s.committed <= s.clean && s.fails <= 1 && (s.fails == 1 ==> s.state.failed)
      && s.continued <= s.owed && s.runs == |s.continued|
      && (!s.state.active ==> s.continued == s.owed)
  {
    RunKeeps(moves);
  }

  /** After the first failure nothing is admitted, and only the request still
      active and the refusal that latched it may report. */
  lemma FailureCloses(moves: seq<(nat, Action)>, id: nat, a: Action)
    requires Run(moves).state.failed
    ensures var s := Run(moves); var n := Step(s, id, a);
      && n.state.failed && n.latch == s.latch && n.admitted == s.admitted
      && (n.reported != s.reported ==> s.holder == Some(id) || s.latch == Some(id))
      && (n.committed != s.committed ==> s.holder == Some(id))
  {
    RunKeeps(moves);
    var s := Run(moves);
    if id in s.threads { assert ThreadFits(s, id, s.threads[id]); }
  }

  lemma OnlyRequestsAreAdmitted(s: System, id: nat, a: Action)
    ensures Step(s, id, a).admitted == s.admitted || (a.Request? && Admitted(s.state, HeaderOrdinal(a.header)).1)
  {}

  /** A request is admitted only when no other is active, and when it is every
      continuation owed so far has run. */
  lemma AdmittedAlone(moves: seq<(nat, Action)>, id: nat, a: Action)
    requires Step(Run(moves), id, a).admitted != Run(moves).admitted
    ensures var s := Run(moves);
      && !s.state.active && !s.state.failed && s.continued == s.owed
      && a.Request? && a.header == Format(|s.admitted| + 1)
  {
    RunKeeps(moves);
    var s := Run(moves);
    OnlyRequestsAreAdmitted(s, id, a);
    HeaderIsCanonical(a.header, s.state.next);
    assert forall o | o in s.owed :: o in s.continued;
  }

  // ---- the same sections, in place

  /** With what it admitted and how often it answered that a failure was the
      first: what every run keeps of these fields. */
  class Accounting {
    var nextOrdinal: nat
    var active: bool
    var failed: bool
    ghost var admitted: seq<nat>
    ghost var firsts: nat

    ghost function View(): State
      reads this
    {
      State(nextOrdinal, active, failed)
    }

    ghost predicate Valid()
      reads this
    {
      && nextOrdinal == |admitted| + 1 <= MAX_ORDINAL + 1 && (forall i | 0 <= i < |admitted| :: admitted[i] == i + 1)
      && firsts == if failed then 1 else 0
    }

    constructor ()
      ensures Valid() && View() == Opened
    {
      nextOrdinal, active, failed, admitted, firsts := 1, false, false, [], 0;
    }

    method Admit(header: string, admissible: bool) returns (ordinal: nat, ok: bool)
      requires Valid()
      modifies this
      ensures Valid() && (View(), ok) == Admitted(old(View()), if admissible then HeaderOrdinal(header) else None)
      ensures ok ==> header == Format(ordinal) && ordinal == old(nextOrdinal)
      ensures admitted == old(admitted) + (if ok then [ordinal] else [])
    {
      if !admissible { return 0, false; }
      var parsed := HeaderOrdinal(header);
      if parsed.None? { return 0, false; }
      HeaderIsCanonical(header, parsed.value);
      if failed || active || parsed.value != nextOrdinal { return 0, false; }
      active := true;
      nextOrdinal := nextOrdinal + 1;
      admitted := admitted + [parsed.value];
      return parsed.value, true;
    }

    method Release(erred: bool) returns (first: bool)
      requires Valid()
      modifies this
      ensures Valid() && (View(), first) == Released(old(View()), erred)
      ensures admitted == old(admitted) && firsts == old(firsts) + if first then 1 else 0
    {
      active := false;
      first := erred && !failed;
      if erred { failed := true; }
      if first { firsts := firsts + 1; }
    }

    method MarkFailed() returns (first: bool)
      requires Valid()
      modifies this
      ensures Valid() && (View(), first) == Marked(old(View()))
      ensures admitted == old(admitted) && firsts == old(firsts) + if first then 1 else 0
    {
      first := !failed;
      failed := true;
      if first { firsts := firsts + 1; }
    }
  }
}
