/** The marker control of one publication: a handler, the hook its native call
    reaches, two one-shot readers and an exclusive fence, in one fixed order. */
module MarkerControl {
  import opened Wrappers

  // ---- the continuation among the errors that may wrap it

  /** `Wrap` unwraps to one error and `Join` to any number of them. */
  datatype Error = Nil | Leaf(id: nat) | Wrap(inner: Error) | Join(children: seq<Error>)

  function Chained(joins: seq<bool>, e: Error): Error {
    if joins == [] then e
    else if joins[0] then Join([Chained(joins[1..], e)])
    else Wrap(Chained(joins[1..], e))
  }

  function Leaves(e: Error): seq<nat> {
    match e
    case Nil => []
    case Leaf(id) => [id]
    case Wrap(inner) => Leaves(inner)
    case Join(children) => LeavesOf(children)
  }

  function LeavesOf(es: seq<Error>): seq<nat> {
    if es == [] then [] else Leaves(es[0]) + LeavesOf(es[1..])
  }

  ghost predicate IsChainTo(e: Error, continuation: nat) {
    exists joins :: e == Chained(joins, Leaf(continuation))
  }

  lemma ChainStep(inner: Error, join: bool, continuation: nat)
    ensures IsChainTo(if join then Join([inner]) else Wrap(inner), continuation) <==> IsChainTo(inner, continuation)
  {
    if joins :| inner == Chained(joins, Leaf(continuation)) {
      assert ([join] + joins)[1..] == joins;
      assert (if join then Join([inner]) else Wrap(inner)) == Chained([join] + joins, Leaf(continuation));
    }
    if joins :| (if join then Join([inner]) else Wrap(inner)) == Chained(joins, Leaf(continuation)) {
      assert Join([inner]).children[0] == inner;
      assert inner == Chained(joins[1..], Leaf(continuation));
    }
  }

  lemma WideIsNoChain(children: seq<Error>, continuation: nat)
    requires |children| != 1
    ensures !IsChainTo(Join(children), continuation)
  {
    forall joins ensures Join(children) != Chained(joins, Leaf(continuation)) {
      if joins != [] && joins[0] { assert |Chained(joins, Leaf(continuation)).children| == 1; }
    }
  }

  /** A chain carries the continuation and no other error. */
  lemma {:induction false} ChainHasOneLeaf(joins: seq<bool>, continuation: nat)
    ensures Leaves(Chained(joins, Leaf(continuation))) == [continuation]
  {
    if joins != [] {
      ChainHasOneLeaf(joins[1..], continuation);
      var inner := Chained(joins[1..], Leaf(continuation));
      assert LeavesOf([inner]) == Leaves(inner) + LeavesOf([inner][1..]);
    }
  }

  /** Accepts exactly the unary chains that end in the continuation. */
  method OnlyContinuation(err: Error, continuation: nat) returns (only: bool)
    ensures only <==> IsChainTo(err, continuation)
    ensures only ==> Leaves(err) == [continuation]
  {
    var e := err;
    while e != Nil
      invariant IsChainTo(err, continuation) <==> IsChainTo(e, continuation)
      decreases e
    {
      match e
      case Join(children) =>
        if |children| != 1 {
          WideIsNoChain(children, continuation);
          return false;
        }
        assert e == Join([children[0]]);
        ChainStep(children[0], true, continuation);
        e := children[0];
      case Wrap(inner) =>
        ChainStep(inner, false, continuation);
        e := inner;
      case Leaf(id) =>
        only := id == continuation;
        LeafChain(id, continuation);
        if only {
          var joins :| err == Chained(joins, Leaf(continuation));
          ChainHasOneLeaf(joins, continuation);
        }
        return;
      case Nil =>
    }
    forall joins ensures Nil != Chained(joins, Leaf(continuation)) {}
    only := false;
  }

  lemma LeafChain(id: nat, continuation: nat)
    ensures IsChainTo(Leaf(id), continuation) <==> id == continuation
  {
    assert Chained([], Leaf(continuation)) == Leaf(continuation);
  }

  // ---- the fields the mutex protects

  datatype Stage = Armed | Handling | Hit | Recovering | Recovered | Advancing | Complete
  {
    function Rank(): nat {
      match this
      case Armed => 0 case Handling => 1 case Hit => 2 case Recovering => 3
      case Recovered => 4 case Advancing => 5 case Complete => 6
    }
  }

  datatype Point = HitPoint | RecoveredPoint | OtherPoint

  datatype Chunk = Chunk(repository: nat, schedule: nat)
  datatype Target = Target(point: Point, repository: nat, schedule: nat, generation: nat, root: nat, formerStage: nat)

  datatype Barrier = Barrier(reading: bool, reported: bool, readyCloses: nat, releaseCloses: nat)

  datatype Control = Control(
    stage: Stage, chunk: Chunk, target: Target, hit: Barrier, recovered: Barrier, recoveryCommitted: bool, err: bool)

  const Fresh := Barrier(false, false, 0, 0)
  const Initial := Control(Armed, Chunk(0, 0), Target(OtherPoint, 0, 0, 0, 0, 0), Fresh, Fresh, false, false)

  // ---- the locked sections

  function Handled(c: Control, chunk: Chunk): (Control, bool) {
    if !c.err && c.stage == Armed then (c.(stage := Handling, chunk := chunk), true) else (c, false)
  }

  function Installed(c: Control, target: Target): (Control, bool) {
    if !c.err && c.stage == Handling && target.point == HitPoint && target.repository == c.chunk.repository &&
       target.schedule == c.chunk.schedule
    then (c.(target := target, stage := Hit, hit := c.hit.(readyCloses := c.hit.readyCloses + 1)), true)
    else (c, false)
  }

  function BeganRecovery(c: Control): (Control, bool) {
    if !c.err && c.stage == Hit && c.hit.reported then (c.(stage := Recovering), true) else (c, false)
  }

  function RecoveredAt(c: Control, target: Target): (Control, bool) {
    if !c.err && c.stage == Recovering && target.repository == c.target.repository &&
       target.generation == c.target.generation && target.root == c.target.root && target.formerStage == c.target.formerStage
    then (c.(recoveryCommitted := true, stage := Recovered,
             recovered := c.recovered.(readyCloses := c.recovered.readyCloses + 1)), true)
    else (c, false)
  }

  function Committed(c: Control, recovered: bool): Control {
    c.(recoveryCommitted := c.recoveryCommitted || recovered)
  }

  function BeganAdvance(c: Control): (Control, bool) {
    if !c.err && c.stage == Recovered && c.recovered.reported then (c.(stage := Advancing), true) else (c, false)
  }

  function Completed(c: Control, live: bool): (Control, bool) {
    if !c.err && live then (c.(stage := Complete), true) else (c, false)
  }

  function At(c: Control, point: Point): Barrier {
    if point == RecoveredPoint then c.recovered else c.hit
  }

  function With(c: Control, point: Point, b: Barrier): Control {
    if point == RecoveredPoint then c.(recovered := b) else c.(hit := b)
  }

  function Claimed(c: Control, point: Point): (Control, bool) {
    if !c.err && c.stage != Complete && !At(c, point).reading &&
       (point == HitPoint || (point == RecoveredPoint && c.hit.reported))
    then (With(c, point, At(c, point).(reading := true)), true) else (c, false)
  }

  function Reported(c: Control, point: Point, live: bool): (Control, bool) {
    var b := At(c, point);
    var valid := (point == HitPoint && c.stage == Hit) || (point == RecoveredPoint && c.stage == Recovered && c.recoveryCommitted);
    if !c.err && live && valid && b.reading && !b.reported
    then (With(c, point, b.(reported := true, releaseCloses := b.releaseCloses + 1)), true) else (c, false)
  }

  // ---- every interleaving of handlers, hooks and readers

  datatype Result = Success | Continuation | Done | Failed

  datatype Thread =
    | Start
    | Publishing                  // a handler inside the native publication
    | Accepted                    // it returned the continuation alone
    | Fencing                     // before the exclusive fence
    | Fenced                      // inside the selected recovery
    | FenceStop                   // a refused recovery callback, about to stop the control
    | AwaitingRecovered           // the recovery callback, until its report joins
    | Unfencing(ok: bool)         // the recovery returned, the fence still held
    | Leaving                     // the fence released
    | Advance                     // before the service runtime's own advance
    | Advanced
    | AwaitingHit                 // the installed hook, until its report joins
    | Awaiting(point: Point)      // a reader, until the marker or its recovery
    | Reading(point: Point)       // a reader, until its report
    | Refusing
    | Returned(result: Result)

  datatype Action =
    | Handle(chunk: Chunk, ours: bool)
    | Publish(only: bool, current: bool)
    | Continue(measured: bool)
    | Acquire(ok: bool)
    | Recover(target: Target, current: bool)
    | Release(current: bool)
    | Leave(recovered: bool, failed: bool)
    | Unfence(current: bool)
    | Prepare
    | RunAdvance(ok: bool)
    | Finish(current: bool)
    | Install(target: Target, current: bool)
    | Open(point: Point, current: bool)
    | Ready(read: bool)
    | Report(joined: bool, live: bool)
    | Cancel
    | Stop

  /** `owner` is the handler that left Armed; `fenced` says it holds the
      exclusive fence; `advances` counts the service runtime's advances and
      `collided` says one began under the fence. */
  datatype System = System(
    control: Control, owner: Option<nat>, fenced: bool, advances: nat, collided: bool, threads: map<nat, Thread>)

  const Idle := System(Initial, None, false, 0, false, map[])

  function ThreadOf(s: System, id: nat): Thread {
    if id in s.threads then s.threads[id] else Start
  }

  function Enter(c: Control, a: Action): (Control, Thread) {
    match a
    case Handle(chunk, ours) =>
      if !ours then (c, Refusing) else
      var (next, valid) := Handled(c, chunk);
      (next, if valid then Publishing else Refusing)
    case Install(target, current) =>
      if !current then (c, Refusing) else
      var (next, valid) := Installed(c, target);
      (next, if valid then AwaitingHit else Refusing)
    case Open(point, current) =>
      if !current then (c, Refusing) else
      var (next, valid) := Claimed(c, point);
      (next, if valid then Awaiting(point) else Refusing)
    case _ => (c, Start)
  }

  /** The handler, from its native call to its return. */
  function HandlerMove(c: Control, t: Thread, a: Action): (Control, Thread) {
    match (t, a)
    case (Publishing, Publish(only, current)) => (c, if only && current then Accepted else Refusing)
    case (Accepted, Continue(measured)) =>
      if !measured then (c, Refusing) else
      var (next, valid) := BeganRecovery(c);
      (next, if valid then Fencing else Refusing)
    case (Fencing, Acquire(ok)) => (c, if ok then Fenced else Refusing)
    case (Fenced, Recover(target, current)) =>
      if !current then (c, FenceStop) else
      var (next, valid) := RecoveredAt(c, target);
      (next, if valid then AwaitingRecovered else FenceStop)
    case (FenceStop, Stop) => (c.(err := true), Fenced)
    case (AwaitingRecovered, Release(current)) =>
      if c.recovered.releaseCloses == 0 then (c, t)
      else (c, if !c.err && c.recovered.reported && current then Fenced else FenceStop)
    case (AwaitingRecovered, Cancel) => (c, FenceStop)
    case (Fenced, Leave(recovered, failed)) => (Committed(c, recovered), Unfencing(recovered && !failed))
    case (Unfencing(ok), Unfence(current)) => (c, if ok && current then Leaving else Refusing)
    case (Leaving, Prepare) =>
      var (next, valid) := BeganAdvance(c);
      (next, if valid then Advance else Refusing)
    case (Advance, RunAdvance(ok)) => (c, if ok then Advanced else Refusing)
    case (Advanced, Finish(current)) =>
      var (next, valid) := Completed(c, current);
      (next, if valid then Returned(Success) else Refusing)
    case _ => (c, t)
  }

  function OtherMove(c: Control, t: Thread, a: Action): (Control, Thread) {
    match (t, a)
    case (AwaitingHit, Release(current)) =>
      if c.hit.releaseCloses == 0 then (c, t)
      else (c, if !c.err && c.hit.reported && current then Returned(Continuation) else Refusing)
    case (Awaiting(point), Ready(read)) =>
      if At(c, point).readyCloses == 0 then (c, t) else (c, if read && !c.err then Reading(point) else Refusing)
    case (Reading(point), Report(joined, live)) =>
      if !joined then (c, Refusing) else
      var (next, valid) := Reported(c, point, live);
      (next, if valid then Returned(Done) else Refusing)
    case (Refusing, Stop) => (c.(err := true), Returned(Failed))
    case (_, Cancel) => (c, if t.Returned? then t else Refusing)
    case _ => (c, t)
  }

  predicate Handles(t: Thread) {
    t.Publishing? || t.Accepted? || t.Fencing? || InFence(t) || t.Leaving? || t.Advance? || t.Advanced?
  }

  predicate InFence(t: Thread) {
    t.Fenced? || t.FenceStop? || t.AwaitingRecovered? || t.Unfencing?
  }

  function Move(c: Control, t: Thread, a: Action): (Control, Thread) {
    if t.Start? then Enter(c, a) else if Handles(t) then HandlerMove(c, t, a) else OtherMove(c, t, a)
  }

  function Step(s: System, id: nat, a: Action): System {
    var t := ThreadOf(s, id);
    var (c, u) := Move(s.control, t, a);
    System(
      c,
      if t.Start? && u.Publishing? then Some(id) else s.owner,
      if InFence(u) && !InFence(t) then true else if InFence(t) && !InFence(u) then false else s.fenced,
      if t.Advance? && a.RunAdvance? then s.advances + 1 else s.advances,
      s.collided || (t.Advance? && a.RunAdvance? && s.fenced),
      s.threads[id := u])
  }

  function Run(moves: seq<(nat, Action)>): System {
    if moves == [] then Idle
    else Step(Run(moves[..|moves| - 1]), moves[|moves| - 1].0, moves[|moves| - 1].1)
  }

  // ---- what every interleaving keeps

  ghost predicate Sound(c: Control) {
    && (c.hit.reading || !c.hit.reported) && (c.recovered.reading || !c.recovered.reported)
    && c.hit.readyCloses == (if c.stage.Rank() >= 2 then 1 else 0)
    && c.recovered.readyCloses == (if c.stage.Rank() >= 4 then 1 else 0)
    && c.hit.releaseCloses == (if c.hit.reported then 1 else 0)
    && c.recovered.releaseCloses == (if c.recovered.reported then 1 else 0)
    && (c.hit.reported ==> c.stage.Rank() >= 2) && (c.stage.Rank() >= 3 ==> c.hit.reported)
    && (c.recovered.reported ==> c.stage.Rank() >= 4) && (c.stage.Rank() >= 5 ==> c.recovered.reported)
    && (c.stage.Rank() >= 4 ==> c.recoveryCommitted)
    && (c.stage.Rank() >= 2 ==> c.target.repository == c.chunk.repository && c.target.schedule == c.chunk.schedule)
  }

  /** The stages a handler's place allows. */
  ghost predicate StageFits(c: Control, t: Thread) {
    match t
    case Publishing => 1 <= c.stage.Rank() <= 2
    case Accepted => 1 <= c.stage.Rank() <= 2
    case Fencing => c.stage == Recovering
    case AwaitingRecovered => c.stage == Recovered
    case Leaving => 3 <= c.stage.Rank() <= 4
    case Advance => c.stage == Advancing
    case Advanced => c.stage == Advancing
    case Returned(Continuation) => c.hit.reported
    case Returned(Failed) => c.err
    case _ => InFence(t) ==> 3 <= c.stage.Rank() <= 4
  }

  ghost predicate ThreadFits(s: System, id: nat, t: Thread) {
    && ((Handles(t) || t == Returned(Success)) ==> s.owner == Some(id))
    && StageFits(s.control, t)
    && (InFence(t) ==> s.fenced)
    && (t == Returned(Success) <==> s.owner == Some(id) && s.control.stage == Complete)
  }

  ghost predicate Inv(s: System) {
    && Sound(s.control) && !s.collided
    && (s.owner.Some? <==> s.control.stage != Armed)
    && (s.owner.Some? ==> s.owner.value in s.threads)
    && (s.fenced ==> s.owner.Some? && InFence(s.threads[s.owner.value]))
    && (s.advances > 0 ==> s.control.stage.Rank() >= 5) && s.advances <= 1
    && (s.advances == 1 ==> !s.threads[s.owner.value].Advance?)
    && (forall id | id in s.threads :: ThreadFits(s, id, s.threads[id]))
  }

  /** One move goes to the next stage or stays, and nothing moves but the
      latch once the control has failed. */
  ghost predicate Advances(c: Control, d: Control) {
    && c.stage.Rank() <= d.stage.Rank() <= c.stage.Rank() + 1
    && (c.err ==> d.err && d.stage == c.stage && d.hit.reported == c.hit.reported && d.recovered.reported == c.recovered.reported)
    && (c.hit.reported ==> d.hit.reported) && (c.recovered.reported ==> d.recovered.reported)
    && (c.stage != Armed ==> d.chunk == c.chunk) && (c.stage.Rank() >= 2 ==> d.target == c.target)
  }

  lemma EnterKeeps(c: Control, a: Action)
    requires Sound(c)
    ensures var (d, u) := Enter(c, a);
      && Sound(d) && Advances(c, d) && StageFits(d, u) && !InFence(u) && !u.Advance? && u != Returned(Success)
      && (Handles(u) ==> u.Publishing?)
      && (u.Publishing? <==> c.stage == Armed && d.stage == Handling)
      && (!u.Publishing? ==> d.stage == c.stage || (c.stage == Handling && d.stage == Hit))
  {}

  lemma HandlerKeeps(c: Control, t: Thread, a: Action)
    requires Sound(c) && Handles(t) && StageFits(c, t)
    ensures var (d, u) := HandlerMove(c, t, a);
      && Sound(d) && Advances(c, d) && StageFits(d, u) && d.stage != Armed
      && (u == Returned(Success) <==> d.stage == Complete)
      && (u.Advance? ==> t == u || (t.Leaving? && c.stage == Recovered))
      && (t.Advance? && a.RunAdvance? ==> !u.Advance?)
  {}

  lemma OtherKeeps(c: Control, t: Thread, a: Action)
    requires Sound(c) && !Handles(t) && !t.Start? && StageFits(c, t)
    ensures var (d, u) := OtherMove(c, t, a);
      && Sound(d) && Advances(c, d) && StageFits(d, u) && d.stage == c.stage && !Handles(u)
      && (t == Returned(Success) ==> u == t) && (u == Returned(Success) ==> t == u)
  {}

  /** Every kind of move keeps the fields and suits the mover. */
  lemma MoveKeeps(s: System, id: nat, a: Action)
    requires Inv(s)
    ensures var n := Step(s, id, a); var u := ThreadOf(n, id);
      && Sound(n.control) && Advances(s.control, n.control) && StageFits(n.control, u)
      && (n.control.stage != s.control.stage ==> n.owner == Some(id) || (s.control.stage == Handling && n.control.stage == Hit))
  {
    var t := ThreadOf(s, id);
    if t.Start? { EnterKeeps(s.control, a); }
    else if Handles(t) { HandlerKeeps(s.control, t, a); }
    else { OtherKeeps(s.control, t, a); }
  }

  /** The moving thread afterwards. */
  lemma MoverFits(s: System, id: nat, a: Action)
    requires Inv(s)
    ensures ThreadFits(Step(s, id, a), id, ThreadOf(Step(s, id, a), id))
  {
    MoveKeeps(s, id, a);
    var t := ThreadOf(s, id);
    if t.Start? { EnterKeeps(s.control, a); }
    else if Handles(t) { HandlerKeeps(s.control, t, a); }
    else { OtherKeeps(s.control, t, a); }
  }

  /** A thread that did not move. */
  lemma OthersFit(s: System, id: nat, a: Action, i: nat)
    requires Inv(s) && i in s.threads && i != id
    ensures ThreadFits(Step(s, id, a), i, s.threads[i])
  {
    MoveKeeps(s, id, a);
    assert ThreadFits(s, i, s.threads[i]);
    if id in s.threads { assert ThreadFits(s, id, s.threads[id]); }
  }

  lemma StepKeeps(s: System, id: nat, a: Action)
    requires Inv(s)
    ensures Inv(Step(s, id, a)) && Advances(s.control, Step(s, id, a).control)
  {
    MoveKeeps(s, id, a);
    MoverFits(s, id, a);
    var t := ThreadOf(s, id);
    if t.Start? { EnterKeeps(s.control, a); }
    else if Handles(t) { HandlerKeeps(s.control, t, a); }
    else { OtherKeeps(s.control, t, a); }
    var n := Step(s, id, a);
    forall i | i in n.threads ensures ThreadFits(n, i, n.threads[i]) {
      if i != id { OthersFit(s, id, a, i); }
    }
  }

  lemma {:induction false} RunKeeps(moves: seq<(nat, Action)>)
    ensures Inv(Run(moves))
  {
    if moves != [] {
      var n := |moves| - 1;
      RunKeeps(moves[..n]);
      StepKeeps(Run(moves[..n]), moves[n].0, moves[n].1);
    }
  }

  /** Success and only success completes the stage, for the one call that left
      Armed; by then both reads had joined, the recovery had committed, and the
      service runtime had advanced once, without the fence. */
  lemma SuccessIsCompletion(moves: seq<(nat, Action)>, id: nat)
    ensures var s := Run(moves);
      && (ThreadOf(s, id) == Returned(Success) <==> s.owner == Some(id) && s.control.stage == Complete)
      && !s.collided && s.advances <= 1
      && (s.advances == 1 ==> s.control.hit.reported && s.control.recovered.reported && s.control.recoveryCommitted)
      && (s.control.stage == Complete ==> s.control.hit.reported && s.control.recovered.reported && s.control.recoveryCommitted)
  {
    RunKeeps(moves);
    var s := Run(moves);
    if id in s.threads { assert ThreadFits(s, id, s.threads[id]); }
  }

  /** So a complete stage does not make a later call succeed: it fails, and the
      stage stays. */
  lemma LateCallFails(s: System, id: nat, chunk: Chunk, ours: bool)
    requires Inv(s) && s.control.stage == Complete && ThreadOf(s, id) == Start
    ensures var n := Step(Step(s, id, Handle(chunk, ours)), id, Stop);
      ThreadOf(n, id) == Returned(Failed) && n.control.stage == Complete && n.control.err
  {}

  // ---- the same sections, in place

  /** Every section keeps what runs keep; only the handler that began the advance
      completes the stage. */
  class Marker {
    var stage: Stage
    var chunk: Chunk
    var target: Target
    var hit: Barrier
    var recovered: Barrier
    var recoveryCommitted: bool
    var err: bool

    ghost function View(): Control
      reads this
    {
      Control(stage, chunk, target, hit, recovered, recoveryCommitted, err)
    }

    constructor ()
      ensures View() == Initial
      ensures Sound(View())
    {
      stage, chunk, target := Armed, Chunk(0, 0), Target(OtherPoint, 0, 0, 0, 0, 0);
      hit, recovered, recoveryCommitted, err := Fresh, Fresh, false, false;
    }

    method Handle(selected: Chunk) returns (valid: bool)
      requires Sound(View())
      modifies this
      ensures (View(), valid) == Handled(old(View()), selected)
      ensures Sound(View()) && Advances(old(View()), View())
    {
      valid := !err && stage == Armed;
      if valid { stage, chunk := Handling, selected; }
    }

    method MarkerInstalled(installed: Target) returns (valid: bool)
      requires Sound(View())
      modifies this
      ensures (View(), valid) == Installed(old(View()), installed)
      ensures Sound(View()) && Advances(old(View()), View())
    {
      valid := !err && stage == Handling && installed.point == HitPoint && installed.repository == chunk.repository &&
               installed.schedule == chunk.schedule;
      if valid { target, stage, hit := installed, Hit, hit.(readyCloses := hit.readyCloses + 1); }
    }

    method BeginRecovery() returns (valid: bool)
      requires Sound(View())
      modifies this
      ensures (View(), valid) == BeganRecovery(old(View()))
      ensures Sound(View()) && Advances(old(View()), View())
    {
      valid := !err && stage == Hit && hit.reported;
      if valid { stage := Recovering; }
    }

    method RecoverSelected(at: Target) returns (valid: bool)
      requires Sound(View())
      modifies this
      ensures (View(), valid) == RecoveredAt(old(View()), at)
      ensures Sound(View()) && Advances(old(View()), View())
    {
      valid := !err && stage == Recovering && at.repository == target.repository && at.generation == target.generation &&
               at.root == target.root && at.formerStage == target.formerStage;
      if valid { recoveryCommitted, stage, recovered := true, Recovered, recovered.(readyCloses := recovered.readyCloses + 1); }
    }

    method Commit(committed: bool)
      requires Sound(View())
      modifies this
      ensures View() == Committed(old(View()), committed)
      ensures Sound(View()) && Advances(old(View()), View())
    {
      recoveryCommitted := recoveryCommitted || committed;
    }

    method BeginAdvance() returns (valid: bool)
      requires Sound(View())
      modifies this
      ensures (View(), valid) == BeganAdvance(old(View()))
      ensures Sound(View()) && Advances(old(View()), View())
    {
      valid := !err && stage == Recovered && recovered.reported;
      if valid { stage := Advancing; }
    }

    method CompleteStage(live: bool) returns (valid: bool)
      requires Sound(View()) && stage == Advancing
      modifies this
      ensures (View(), valid) == Completed(old(View()), live)
      ensures Sound(View()) && Advances(old(View()), View())
    {
      valid := !err && live;
      if valid { stage := Complete; }
    }

    method ClaimRead(point: Point) returns (valid: bool)
      requires Sound(View())
      modifies this
      ensures (View(), valid) == Claimed(old(View()), point)
      ensures Sound(View()) && Advances(old(View()), View())
    {
      var barrier := hit;
      if point == RecoveredPoint {
        if !hit.reported { return false; }
        barrier := recovered;
      } else if point != HitPoint {
        return false;
      }
      valid := !err && stage != Complete && !barrier.reading;
      if valid {
        if point == RecoveredPoint { recovered := recovered.(reading := true); } else { hit := hit.(reading := true); }
      }
    }

    method FinishReport(point: Point, live: bool) returns (valid: bool)
      requires Sound(View())
      modifies this
      ensures (View(), valid) == Reported(old(View()), point, live)
      ensures Sound(View()) && Advances(old(View()), View())
    {
      var barrier := if point == RecoveredPoint then recovered else hit;
      valid := (point == HitPoint && stage == Hit) || (point == RecoveredPoint && stage == Recovered && recoveryCommitted);
      valid := valid && !err && live && barrier.reading && !barrier.reported;
      if valid {
        barrier := barrier.(reported := true, releaseCloses := barrier.releaseCloses + 1);
        if point == RecoveredPoint { recovered := barrier; } else { hit := barrier; }
      }
    }

    method StopControl() returns (first: bool)
      requires Sound(View())
      modifies this
      ensures View() == old(View()).(err := true) && first == !old(err)
      ensures Sound(View()) && Advances(old(View()), View())
    {
      first := !err;
      err := true;
    }
  }
}
