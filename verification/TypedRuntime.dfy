/** The typed runtime's two flags: settlements raise one, a recovery loop trades
    it for the other around a reconcile, and admissions look at both. */
module TypedRuntime {

  /** Where the recovery loop stands. Each of its stores is a step. */
  datatype Loop =
    | Waiting                          // for a tick
    | Due                              // it saw pending
    | Blocked                          // it stored recovering
    | Cleared                          // it withdrew pending, and enters the owners
    | Reconciling(covered: set<nat>)   // since a moment when these were unresolved
    | Failing                          // the reconcile failed
    | Restored                         // it stored pending again
    | Succeeding                       // the reconcile returned nil
    | Leaving                          // entering the owners failed
    | Exited

  /** At a load: how many recoveries had let admission go without success, how
      many reconciles had returned nil, and whether the loop had exited. */
  datatype Moment = Moment(released: nat, reconciled: nat, exited: bool)

  /** An admission: `unresolved` are the failures unresolved at its first load,
      `passed` those of them still unresolved at its second. */
  datatype Handler =
    | Idle
    | Loaded(unresolved: set<nat>, first: Moment)
    | Held
    | Admitted(unresolved: set<nat>, first: Moment, passed: set<nat>, second: Moment)

  /** `failures` counts the settlement failures so far; `unresolved` are those
      that no successful reconcile started after. */
  datatype System = System(
    pending: bool, recovering: bool, loop: Loop, failures: nat, unresolved: set<nat>, released: nat, reconciled: nat,
    handlers: map<nat, Handler>)

  const Initial := System(false, false, Waiting, 0, {}, 0, 0, map[])

  function Now(s: System): Moment {
    Moment(s.released, s.reconciled, s.loop.Exited?)
  }

  datatype Action =
    | Settle(failed: bool)
    | Tick
    | Enter(ok: bool)
    | Reconcile(ok: bool)
    | Load(id: nat)

  function LoopStep(s: System, a: Action): System {
    match (s.loop, a)
    case (Waiting, Tick) => if s.pending then s.(loop := Due) else s
    case (Due, Tick) => s.(recovering := true, loop := Blocked)
    case (Blocked, Tick) => s.(pending := false, loop := Cleared)
    case (Cleared, Enter(ok)) => s.(loop := if ok then Reconciling(s.unresolved) else Leaving)
    case (Reconciling(covered), Reconcile(ok)) =>
      if ok then s.(unresolved := s.unresolved - covered, reconciled := s.reconciled + 1, loop := Succeeding) else s.(loop := Failing)
    case (Failing, Tick) => s.(pending := true, loop := Restored)
    case (Restored, Tick) => s.(recovering := false, released := s.released + 1, loop := Waiting)
    case (Succeeding, Tick) => s.(recovering := false, loop := Waiting)
    case (Leaving, Tick) => s.(recovering := false, released := s.released + 1, loop := Exited)
    case _ => s
  }

  /** An admission loads pending, then recovering. */
  function HandlerStep(s: System, id: nat): System {
    var h := if id in s.handlers then s.handlers[id] else Idle;
    match h
    case Idle => s.(handlers := s.handlers[id := if s.pending then Held else Loaded(s.unresolved, Now(s))])
    case Loaded(u, first) =>
      s.(handlers := s.handlers[id := if s.recovering then Held else Admitted(u, first, u * s.unresolved, Now(s))])
    case _ => s
  }

  function Step(s: System, a: Action): System {
    match a
    case Settle(failed) =>
      if failed then s.(pending := true, failures := s.failures + 1, unresolved := s.unresolved + {s.failures}) else s
    case Load(id) => HandlerStep(s, id)
    case _ => LoopStep(s, a)
  }

  function Run(actions: seq<Action>): System {
    if actions == [] then Initial else Step(Run(actions[..|actions| - 1]), actions[|actions| - 1])
  }

  // ---- what every interleaving keeps

  predicate Recovers(l: Loop) {
    l.Blocked? || l.Cleared? || l.Reconciling? || l.Failing? || l.Restored? || l.Succeeding? || l.Leaving?
  }

  /** Failures the flags do not stand for any more. */
  predicate Lost(s: System) {
    s.unresolved != {} && !s.pending && !s.recovering
  }

  ghost predicate FlagsFit(s: System) {
    && (s.recovering <==> Recovers(s.loop))
    && (s.loop.Due? || s.loop.Blocked? || s.loop.Restored? ==> s.pending)
    && (s.loop.Waiting? || s.loop.Succeeding? ==> s.unresolved == {} || s.pending)
    && (s.loop.Reconciling? ==> s.unresolved <= s.loop.covered || s.pending)
    && (forall f | f in s.unresolved :: f < s.failures)
    && (s.loop.Reconciling? ==> forall f | f in s.loop.covered :: f < s.failures)
  }

  /** What an admission saw at its first load stays unresolved until a reconcile
      returns nil, which resolves all of it; until then the recovery that had
      withdrawn pending is still under way, or let go. */
  ghost predicate HandlerFits(s: System, h: Handler) {
    match h
    case Loaded(u, first) =>
      && first.released <= s.released && first.reconciled <= s.reconciled && (first.exited ==> s.loop.Exited?)
      && (forall f | f in u :: f < s.failures)
      && (if first.reconciled == s.reconciled then u <= s.unresolved else u !! s.unresolved)
      && (first.reconciled == s.reconciled && s.loop.Reconciling? ==> u <= s.loop.covered)
      && (u != {} && first.reconciled == s.reconciled && first.released == s.released && !first.exited ==>
            s.recovering && !s.loop.Succeeding?)
    case Admitted(u, first, passed, second) =>
      && first.released <= second.released && first.reconciled <= second.reconciled
      && passed == (if first.reconciled == second.reconciled then u else {})
      && (passed != {} ==> first.released < second.released || first.exited)
    case _ => true
  }

  ghost predicate Inv(s: System) {
    FlagsFit(s) && forall id | id in s.handlers :: HandlerFits(s, s.handlers[id])
  }

  lemma FlagsKeep(s: System, a: Action)
    requires FlagsFit(s)
    ensures FlagsFit(Step(s, a))
  {}

  lemma LoadKeeps(s: System, id: nat)
    requires Inv(s)
    ensures HandlerFits(HandlerStep(s, id), HandlerStep(s, id).handlers[id])
  {
    if id in s.handlers {
      var h := s.handlers[id];
      assert HandlerFits(s, h);
      if h.Loaded? {
        var u, held := h.unresolved, s.unresolved;
        assert (u <= held ==> u * held == u) && (u !! held ==> u * held == {});
      }
    }
  }

  lemma HandlersKeep(s: System, a: Action, id: nat)
    requires Inv(s) && id in Step(s, a).handlers
    ensures HandlerFits(Step(s, a), Step(s, a).handlers[id])
  {
    if a.Load? && a.id == id { LoadKeeps(s, id); } else { assert HandlerFits(s, s.handlers[id]); }
  }

  lemma {:induction false} RunKeeps(actions: seq<Action>)
    ensures Inv(Run(actions))
  {
    if actions != [] {
      var n := |actions| - 1;
      RunKeeps(actions[..n]);
      var s, a := Run(actions[..n]), actions[n];
      FlagsKeep(s, a);
      forall id | id in Run(actions).handlers ensures HandlerFits(Run(actions), Run(actions).handlers[id]) {
        HandlersKeep(s, a, id);
      }
    }
  }

  /** In every run a failure is lost only after the loop has left, which it does
      only when entering the owners fails. */
  lemma LostOnlyByLeaving(actions: seq<Action>)
    ensures Lost(Run(actions)) ==> Run(actions).loop.Exited?
    ensures Run(actions).loop.Exited? ==> Enter(false) in actions
  {
    RunKeeps(actions);
    LeavingNeedsEnter(actions);
  }

  lemma {:induction false} LeavingNeedsEnter(actions: seq<Action>)
    ensures Run(actions).loop.Leaving? || Run(actions).loop.Exited? ==> Enter(false) in actions
  {
    if actions != [] { LeavingNeedsEnter(actions[..|actions| - 1]); }
  }

  /** A failed entry loses a failure exactly when one is unresolved and none has
      been settled since pending was withdrawn. */
  lemma FailedEntryLoses(actions: seq<Action>)
    requires Run(actions).loop.Cleared?
    ensures Lost(Step(Step(Run(actions), Enter(false)), Tick)) <==> Run(actions).unresolved != {} && !Run(actions).pending
  {}

  /** That happens: a failure, a tick's worth of stores and a refused entry. */
  lemma EntryFailureLoses()
    ensures Lost(Run([Settle(true), Tick, Tick, Tick, Enter(false), Tick]))
  {
    var all := [Settle(true), Tick, Tick, Tick, Enter(false), Tick];
    assert all[..5][..4] == all[..4] && all[..4][..3] == all[..3] && all[..3][..2] == all[..2] && all[..2][..1] == all[..1];
    assert Run(all[..1]) == Initial.(pending := true, failures := 1, unresolved := {0});
    assert Run(all[..2]) == Run(all[..1]).(loop := Due);
    assert Run(all[..3]) == Run(all[..2]).(recovering := true, loop := Blocked);
    assert Run(all[..4]) == Run(all[..3]).(pending := false, loop := Cleared);
    assert Run(all[..5]) == Run(all[..4]).(loop := Leaving);
    assert Run(all) == Step(Run(all[..5]), Tick);
  }

  /** When an admission passes over failures: exactly those it saw at its first
      load, and exactly when no reconcile returned nil between its two loads. The
      loop had then exited, or a recovery ended without success in between. */
  lemma AdmittedIsClean(actions: seq<Action>, id: nat)
    requires id in Run(actions).handlers && Run(actions).handlers[id].Admitted?
    ensures var h := Run(actions).handlers[id];
      && (h.passed != {} <==> h.unresolved != {} && h.second.reconciled == h.first.reconciled)
      && (h.passed != {} ==> h.passed == h.unresolved && (h.first.released < h.second.released || h.first.exited))
  {
    RunKeeps(actions);
    assert HandlerFits(Run(actions), Run(actions).handlers[id]);
  }

  /** An admission that completes at this moment passes over exactly the failures
      it saw at its first load that are unresolved now, whatever the flags say. */
  lemma PassingOver(actions: seq<Action>, id: nat)
    requires id in Run(actions).handlers && Run(actions).handlers[id].Loaded?
    ensures var s := Run(actions); var h, n := s.handlers[id], Step(s, Load(id)).handlers[id];
      (n.Admitted? && n.passed != {}) <==> (!s.recovering && h.unresolved != {} && h.first.reconciled == s.reconciled)
  {
    RunKeeps(actions);
    assert HandlerFits(Run(actions), Run(actions).handlers[id]);
  }

  /** The two loads may straddle the end of a failed recovery: the chunk is
      admitted although one flag was always up. */
  lemma StraddlingLoads(s: System, id: nat)
    requires Inv(s) && s.loop.Reconciling? && !s.pending && s.unresolved != {} && id !in s.handlers
    ensures var a := Step(s, Load(id));
      var b := Step(a, Reconcile(false)); var c := Step(b, Tick); var d := Step(c, Tick); var e := Step(d, Load(id));
      && e.handlers[id].Admitted? && e.unresolved == s.unresolved && e.handlers[id].passed == e.unresolved
      && !Lost(s) && !Lost(a) && !Lost(b) && !Lost(c) && !Lost(d) && !Lost(e)
  {}

  /** That happens in a run. */
  lemma StraddlingRun()
    ensures var s := Run([Settle(true), Tick, Tick, Tick, Enter(true), Load(0), Reconcile(false), Tick, Tick, Load(0)]);
      0 in s.handlers && s.handlers[0].Admitted? && s.handlers[0].passed == s.unresolved == {0}
  {
    var before := [Settle(true), Tick, Tick, Tick, Enter(true)];
    assert before[..4][..3] == before[..3] && before[..3][..2] == before[..2] && before[..2][..1] == before[..1];
    assert Run(before[..1]) == Initial.(pending := true, failures := 1, unresolved := {0});
    assert Run(before[..2]) == Run(before[..1]).(loop := Due);
    assert Run(before[..3]) == Run(before[..2]).(recovering := true, loop := Blocked);
    assert Run(before[..4]) == Run(before[..3]).(pending := false, loop := Cleared);
    var s := Run(before);
    assert s == Run(before[..4]).(loop := Reconciling({0}));
    RunKeeps(before);
    StraddlingLoads(s, 0);
    RunOn(before, [Load(0), Reconcile(false), Tick, Tick, Load(0)]);
    assert before + [Load(0), Reconcile(false), Tick, Tick, Load(0)] ==
      [Settle(true), Tick, Tick, Tick, Enter(true), Load(0), Reconcile(false), Tick, Tick, Load(0)];
  }

  lemma RunOn(before: seq<Action>, more: seq<Action>)
    requires |more| == 5
    ensures Run(before + more) == Step(Step(Step(Step(Step(Run(before), more[0]), more[1]), more[2]), more[3]), more[4])
  {
    var all, n := before + more, |before|;
    assert all[..n] == before;
    forall k | 0 <= k < 5 ensures Run(all[..n + k + 1]) == Step(Run(all[..n + k]), more[k]) {
      assert all[..n + k + 1][..n + k] == all[..n + k];
    }
    assert all[..n + 5] == all;
    assert all[..n + 0] == before && Run(all[..n + 1]) == Step(Run(all[..n + 0]), more[0]);
    assert Run(all[..n + 1 + 1]) == Step(Run(all[..n + 1]), more[1]);
    assert Run(all[..n + 2 + 1]) == Step(Run(all[..n + 2]), more[2]);
    assert Run(all[..n + 3 + 1]) == Step(Run(all[..n + 3]), more[3]);
    assert Run(all[..n + 4 + 1]) == Step(Run(all[..n + 4]), more[4]);
  }

  // ---- the same stores, in place

  /** `unresolved` are the failures that no successful reconcile started after. */
  class TypedServe {
    var pending: bool
    var recovering: bool
    ghost var failures: nat
    ghost var unresolved: set<nat>

    /** No failure is lost while nothing runs. */
    ghost predicate Valid()
      reads this
    {
      !recovering && (unresolved == {} || pending) && forall f | f in unresolved :: f < failures
    }

    constructor ()
      ensures Valid() && !pending && unresolved == {}
    {
      pending, recovering, failures, unresolved := false, false, 0, {};
    }

    /** Whether the native handler runs, or the chunk is deferred. */
    method Handle() returns (admitted: bool)
      requires Valid()
      ensures admitted <==> !pending && !recovering
      ensures admitted ==> unresolved == {}
    {
      if pending { return false; }
      admitted := !recovering;
    }

    method AfterSettlement(failed: bool)
      requires Valid()
      modifies this
      ensures Valid() && pending == (old(pending) || failed)
      ensures unresolved == old(unresolved) + (if failed then {old(failures)} else {})
    {
      if failed {
        unresolved, failures := unresolved + {failures}, failures + 1;
        pending := true;
      }
    }

    /** One tick with nothing else running. A failure stays pending unless the
        reconcile succeeded or the loop ended, which alone loses it. */
    method Recover(entered: bool, reconciled: bool) returns (goes: bool)
      requires Valid()
      modifies this
      ensures !recovering && (goes ==> Valid())
      ensures goes == (old(pending) ==> entered)
      ensures pending == (old(pending) && entered && !reconciled)
      ensures unresolved == if old(pending) && entered && reconciled then {} else old(unresolved)
    {
      if !pending { return true; }
      recovering := true;
      pending := false;
      if !entered {
        recovering := false;
        return false;
      }
      if reconciled { unresolved := {}; } else { pending := true; }
      recovering := false;
      goes := true;
    }
  }
}
