/** The selected checkpoint recovery: a killed lease, its requeue and its
    recovery arrive as callbacks in any order the store allows, one reader
    reports the recovery, and an optional settlement proof must precede the
    accepted final authority. */
module CheckpointRecovery {
  import opened Wrappers

  // ---- what the parent carried over, and what is compared with it

  datatype ScheduleStatus = Unset | Active | Settled | OtherSchedule
  datatype ChunkStatus = Pending | Running | Done
  datatype Priority = NeverRun | Stale | OtherPriority
  datatype Point = Hit | Requeued | Recovered | OtherPoint

  /** The digest of a schedule, an offset and an attempt determines all three. */
  datatype Identity = Identity(schedule: nat, offset: int, attempt: int)

  /** A digest is a number; 0 is one that is not a digest. `schedule` stands
      for repository, stage, resource class, generation and schedule digest. */
  datatype Event = Event(
    point: Point, schedule: nat, identity: Identity, offset: int, length: int, attempt: int,
    scheduleStatus: ScheduleStatus, priority: Priority, status: ChunkStatus, leased: bool, cutoff: bool,
    row: nat, checkpoint: nat, token: nat)

  /** `named` stands for the fields of a transition no comparison changes. */
  datatype Transition = Transition(
    named: nat, point: Point, scheduleStatus: ScheduleStatus, priority: Priority, status: ChunkStatus, leased: bool,
    completed: bool, rootExists: bool, root: nat, current: bool, checkpoint: nat, token: nat,
    leaseChanged: bool, chunks: nat, successes: nat)

  datatype Root = Root(domain: nat, plan: nat, root: nat)

  datatype Input = Input(
    prior: nat, targetGeneration: nat, schedule: nat, offset: int, identity: Identity, domain: nat, plan: nat,
    hit: Transition, roots: seq<Root>, settlement: bool)

  /** The domain roots are in strictly increasing domain order and name the
      selected domain with the selected plan. */
  ghost predicate ValidRoots(input: Input) {
    && (forall i, j | 0 <= i < j < |input.roots| :: input.roots[i].domain < input.roots[j].domain)
    && (forall i | 0 <= i < |input.roots| ::
          input.roots[i].domain != 0 && input.roots[i].plan != 0 && input.roots[i].root != 0)
    && (exists i | 0 <= i < |input.roots| :: input.roots[i].domain == input.domain && input.roots[i].plan == input.plan)
  }

  /** One pass over neighbours decides it. */
  method CheckRoots(input: Input) returns (found: bool)
    ensures found <==> ValidRoots(input)
  {
    found := false;
    for i := 0 to |input.roots|
      invariant forall j, k | 0 <= j < k < i :: input.roots[j].domain < input.roots[k].domain
      invariant forall j | 0 <= j < i :: input.roots[j].domain != 0 && input.roots[j].plan != 0 && input.roots[j].root != 0
      invariant found <==> exists j | 0 <= j < i :: input.roots[j].domain == input.domain && input.roots[j].plan == input.plan
    {
      var root := input.roots[i];
      if root.domain == 0 || (i > 0 && root.domain <= input.roots[i - 1].domain) || root.plan == 0 || root.root == 0 {
        return false;
      }
      if root.domain == input.domain { found := root.plan == input.plan; }
    }
  }

  // ---- comparing a recovery with the hit

  /** The last root of the domain, as the comparison's loop leaves it. */
  function RootOf(roots: seq<Root>, domain: nat, default: nat): (r: nat)
    ensures (forall i | 0 <= i < |roots| :: roots[i].domain != domain) ==> r == default
    ensures (exists i | 0 <= i < |roots| :: roots[i].domain == domain) ==>
      exists i :: 0 <= i < |roots| && roots[i].domain == domain && r == roots[i].root
  {
    if roots == [] then default
    else
      var n := |roots| - 1;
      if roots[n].domain == domain then roots[n].root
      else RootOf(roots[..n], domain, default)
  }

  /** The recovery the hit predicts, given what only the read can tell. */
  function Expected(input: Input, value: Transition, event: Event): Transition {
    var want := input.hit.(point := Recovered, priority := Stale, status := Done, leased := false,
                           scheduleStatus := value.scheduleStatus, completed := true, token := event.token,
                           checkpoint := value.checkpoint, chunks := 0, successes := 0);
    if value.rootExists || value.current || value.root != 0 || !input.settlement || value.scheduleStatus != Active
    then want.(rootExists := true, current := true, root := RootOf(input.roots, input.domain, want.root))
    else want
  }

  predicate MatchesRecovered(input: Input, value: Transition, event: Event) {
    && (value.scheduleStatus == Settled || (input.settlement && value.scheduleStatus == Active))
    && value.chunks == 0 && value.successes == 0 && value.checkpoint != 0
    && value == Expected(input, value, event)
  }

  /** A matching recovery completed the selected chunk, unleased, under the
      event's token; its root is the carried one, or wholly absent while an
      opted-in schedule is still active. */
  lemma MatchedRecovery(input: Input, value: Transition, event: Event)
    requires ValidRoots(input)
    requires !input.hit.rootExists && !input.hit.current && input.hit.root == 0 && !input.hit.leaseChanged
    requires MatchesRecovered(input, value, event)
    ensures value.named == input.hit.named && value.point == Recovered && value.status == Done && !value.leased
    ensures value.completed && value.token == event.token && !value.leaseChanged
    ensures (value.rootExists && value.current && exists i ::
        0 <= i < |input.roots| && input.roots[i].domain == input.domain &&
        input.roots[i].plan == input.plan && input.roots[i].root == value.root)
      || (input.settlement && value.scheduleStatus == Active && !value.rootExists && !value.current && value.root == 0)
    ensures !input.settlement ==> value.scheduleStatus == Settled && value.rootExists && value.current
  {
    if value.rootExists {
      var i :| 0 <= i < |input.roots| && input.roots[i].domain == input.domain && input.roots[i].plan == input.plan;
      var k :| 0 <= k < |input.roots| && input.roots[k].domain == input.domain &&
        input.roots[k].root == RootOf(input.roots, input.domain, 0);
      assert i == k;
    }
  }

  // ---- callbacks of other chunks

  predicate Targets(input: Input, e: Event) {
    e.schedule == input.schedule && e.identity == input.identity && e.offset == input.offset && e.length == 1 && e.attempt == 0
  }

  /** A well-formed completion of another chunk of the same schedule. */
  predicate Sibling(input: Input, e: Event) {
    && e.point == Recovered && e.schedule == input.schedule && e.identity != input.identity && e.offset != input.offset
    && e.length == 1 && e.attempt == 0 && e.priority == Stale && e.status == Done && !e.leased && !e.cutoff
    && e.scheduleStatus == Unset && e.row == 0 && e.checkpoint == 0 && e.token != 0
    && e.identity == Identity(e.schedule, e.offset, e.attempt)
  }

  // ---- the fields the mutex protects

  /** What the first refusal saw. */
  datatype Failure = Failure(hitSeen: bool, requeued: bool, recoveredSeen: bool, reading: bool, reported: bool)

  datatype Settlement = Settlement(schedule: nat, status: ScheduleStatus, total: nat, pending: nat, running: nat,
                                   succeeded: nat, failed: nat)
  {
    predicate Complete() {
      status == Settled && total > 0 && pending == 0 && running == 0 && failed == 0 && succeeded == total
    }
  }

  /** `report` is the transition reported and `proof` the settlement proved;
      neither is kept by the program. */
  datatype Control = Control(
    hit: bool, killed: nat, requeueSeen: bool, requeuedCloses: nat,
    reading: bool, queued: nat, recovered: Option<Event>, readyCloses: nat, reported: bool, releaseCloses: nat,
    report: Option<Transition>, settled: bool, proof: Option<Settlement>, finalSeen: bool, err: bool, failure: Option<Failure>)

  const Initial := Control(false, 0, false, 0, false, 0, None, 0, false, 0, None, false, None, false, false, None)

  // ---- the locked sections

  /** `hitLive` says the hit's callback context has not ended. */
  function Observed(c: Control, e: Event, hitLive: bool): (Control, bool) {
    match e.point
    case Hit =>
      if !c.err && !c.hit && !c.requeueSeen && e.scheduleStatus == Active && e.priority == NeverRun &&
         e.status == Running && e.leased && e.cutoff && e.row != 0 && e.checkpoint != 0 && e.token != 0
      then (c.(killed := e.token, hit := true), true) else (c, false)
    case Requeued =>
      if !c.err && c.hit && hitLive && !c.requeueSeen && e.scheduleStatus == Active && e.priority == Stale &&
         e.status == Pending && !e.leased && !e.cutoff
      then (c.(requeueSeen := true, requeuedCloses := c.requeuedCloses + 1), true) else (c, false)
    case Recovered =>
      if !c.err && c.hit && c.recovered.None? && e.priority == Stale && e.status == Done && !e.leased &&
         !e.cutoff && e.token != 0 && e.token != c.killed
      then (c.(recovered := Some(e)), true) else (c, false)
    case OtherPoint => (c, false)
  }

  function Met(c: Control): (Control, bool) {
    if !c.err && c.requeueSeen then (c.(readyCloses := c.readyCloses + 1), true) else (c, false)
  }

  function Claimed(c: Control): (Control, bool) {
    if !c.err && !c.reading then (c.(reading := true, queued := c.queued + 1), true) else (c, false)
  }

  /** `live` says neither the control nor the recovery's callback has ended. */
  function Reported(c: Control, live: bool, value: Transition): (Control, bool) {
    if !c.err && live && c.reading && !c.reported && c.recovered.Some?
    then (c.(reported := true, releaseCloses := c.releaseCloses + 1, report := Some(value)), true) else (c, false)
  }

  predicate MaySettle(c: Control) {
    !c.err && c.reported && !c.settled && !c.finalSeen
  }

  function SettledBy(c: Control, value: Settlement): Control {
    if value.Complete() && !c.err then c.(settled := true, proof := Some(value)) else c
  }

  datatype Final = Final(authority: nat, generation: nat, roots: seq<Root>)

  function Finished(input: Input, c: Control, value: Option<Final>): (Control, bool) {
    if value == Some(Final(input.prior, input.targetGeneration, input.roots)) && !c.err && c.reported && !c.finalSeen
    then (c.(finalSeen := true), true) else (c, false)
  }

  function Refused(c: Control): Control {
    if c.err then c
    else c.(err := true, failure := Some(Failure(c.hit, c.requeueSeen, c.recovered.Some?, c.reading, c.reported)))
  }

  // ---- every interleaving of the callers

  datatype Result = Continue | Started | Ignored | Accepted | Failed

  datatype Thread =
    | Start
    | AwaitingReader                     // the scheduler, before it starts
    | Received                           // the scheduler, holding the reader's context
    | Rendezvous                         // the recovered callback, until the requeue is seen
    | AwaitingRelease                    // the recovered callback, until the report joins
    | Queued                             // the reader, until the callback
    | Reading                            // the reader, past the callback
    | Reporting(transition: Transition)  // the reader, holding the matched recovery
    | Settling(settlement: Settlement)       // a settlement read, until its report
    | Finalizing                         // a final read, past the settlement check
    | Refusing
    | Returned(result: Result)

  /** The booleans are what the caller finds outside the mutex. */
  datatype Action =
    | AwaitReader(current: bool)
    | Receive
    | Begin(current: bool)
    | Notify(event: Event, current: bool, hitLive: bool)
    | Meet(current: bool)
    | Release(current: bool)
    | Open(current: bool)
    | Ready
    | Observe(transition: Transition, projected: bool)
    | Report(joined: bool, live: bool)
    | Settle(settlement: Option<Settlement>, current: bool)
    | SettleReport(joined: bool)
    | Finalize(current: bool)
    | Capture(final: Option<Final>)
    | Cancel
    | Refuse

  datatype System = System(control: Control, threads: map<nat, Thread>)

  function ThreadOf(s: System, id: nat): Thread {
    if id in s.threads then s.threads[id] else Start
  }

  function Enter(input: Input, c: Control, a: Action): (Control, Thread) {
    match a
    case AwaitReader(current) => (c, if current then AwaitingReader else Refusing)
    case Notify(event, current, hitLive) =>
      if Sibling(input, event) then (c, Returned(Ignored))
      else if !current || !Targets(input, event) then (c, Refusing)
      else var (next, valid) := Observed(c, event, hitLive);
        (next, if !valid then Refusing else if event.point == Recovered then Rendezvous else Returned(Continue))
    case Open(current) =>
      if !current then (c, Refusing) else
      var (next, valid) := Claimed(c);
      (next, if valid then Queued else Refusing)
    case Settle(value, current) =>
      if !input.settlement then (c, Returned(Failed))
      else if !current || !MaySettle(c) || value.None? || value.value.schedule != input.schedule then (c, Refusing)
      else (c, Settling(value.value))
    case Finalize(current) =>
      if !current || (input.settlement && !c.settled) then (c, Refusing) else (c, Finalizing)
    case _ => (c, Start)
  }

  function GoOn(input: Input, c: Control, t: Thread, a: Action): (Control, Thread) {
    match (t, a)
    case (AwaitingReader, Receive) => if c.queued > 0 then (c.(queued := c.queued - 1), Received) else (c, t)
    case (Received, Begin(current)) => (c, if !c.err && c.reading && current then Returned(Started) else Refusing)
    case (Rendezvous, Meet(current)) =>
      var (next, valid) := Met(c);
      (next, if valid && current then AwaitingRelease else Refusing)
    case (AwaitingRelease, Release(current)) =>
      if c.releaseCloses == 0 then (c, t) else (c, if !c.err && c.reported && current then Returned(Continue) else Refusing)
    case (Queued, Ready) => (c, if c.readyCloses > 0 then Reading else t)
    case (Reading, Observe(value, projected)) =>
      (c, if c.recovered.Some? && MatchesRecovered(input, value, c.recovered.value) && projected then Reporting(value) else Refusing)
    case (Reporting(value), Report(joined, live)) =>
      if !joined then (c, Refusing) else
      var (next, valid) := Reported(c, live, value);
      (next, if valid then Returned(Continue) else Refusing)
    case (Settling(value), SettleReport(joined)) =>
      if joined then (SettledBy(c, value), Returned(Continue)) else (c, Refusing)
    case (Finalizing, Capture(value)) =>
      var (next, valid) := Finished(input, c, value);
      (next, if valid then Returned(Accepted) else Refusing)
    case (_, Cancel) => (c, if t.Returned? || t.Rendezvous? then t else Refusing)
    case (Refusing, Refuse) => (Refused(c), Returned(Failed))
    case _ => (c, t)
  }

  function Move(input: Input, c: Control, t: Thread, a: Action): (Control, Thread) {
    if t.Start? then Enter(input, c, a) else GoOn(input, c, t, a)
  }

  function Step(input: Input, s: System, id: nat, a: Action): System {
    var (c, t) := Move(input, s.control, ThreadOf(s, id), a);
    System(c, s.threads[id := t])
  }

  function Run(input: Input, moves: seq<(nat, Action)>): System {
    if moves == [] then System(Initial, map[])
    else Step(input, Run(input, moves[..|moves| - 1]), moves[|moves| - 1].0, moves[|moves| - 1].1)
  }

  // ---- what every interleaving keeps

  /** The chain of proofs, each resting on the ones before it. */
  ghost predicate Chain(input: Input, c: Control) {
    && (c.requeueSeen ==> c.hit)
    && (c.recovered.Some? ==> c.hit && c.recovered.value.token != c.killed && Targets(input, c.recovered.value))
    && (c.readyCloses > 0 ==> c.requeueSeen && c.recovered.Some?)
    && (c.reported ==> c.reading && c.readyCloses > 0)
    && (c.reported ==> c.report.Some? && MatchesRecovered(input, c.report.value, c.recovered.value))
    && (c.settled ==> c.reported && c.proof.Some? && c.proof.value.Complete() && c.proof.value.schedule == input.schedule)
    && (c.finalSeen ==> c.reported && (input.settlement ==> c.settled))
  }

  ghost predicate ClosedOnce(c: Control) {
    && c.requeuedCloses == (if c.requeueSeen then 1 else 0)
    && c.readyCloses <= 1 && c.queued <= (if c.reading then 1 else 0)
    && c.releaseCloses == (if c.reported then 1 else 0)
  }

  /** The first refusal's record is the state it leaves behind for good. */
  ghost predicate Latched(c: Control) {
    && (c.err <==> c.failure.Some?)
    && (c.err ==> c.failure.value == Failure(c.hit, c.requeueSeen, c.recovered.Some?, c.reading, c.reported))
  }

  ghost predicate Sound(input: Input, c: Control) {
    Chain(input, c) && ClosedOnce(c) && Latched(c)
  }

  ghost predicate ThreadFits(input: Input, c: Control, t: Thread) {
    match t
    case Received => c.reading
    case Rendezvous => c.recovered.Some?
    case AwaitingRelease => c.readyCloses > 0
    case Queued => c.reading
    case Reading => c.reading && c.readyCloses > 0
    case Reporting(value) =>
      c.reading && c.readyCloses > 0 && c.recovered.Some? && MatchesRecovered(input, value, c.recovered.value)
    case Settling(value) => c.reported && value.schedule == input.schedule
    case Finalizing => input.settlement ==> c.settled
    case Returned(Started) => c.reading
    case Returned(Accepted) => c.finalSeen
    case _ => true
  }

  /** At most one callback is between its two sections, and only while
      `ready` is open. */
  ghost predicate OneRendezvous(s: System) {
    && (forall id | id in s.threads :: s.threads[id].Rendezvous? ==> s.control.readyCloses == 0)
    && (forall i, j | i in s.threads && j in s.threads && s.threads[i].Rendezvous? && s.threads[j].Rendezvous? :: i == j)
  }

  ghost predicate Inv(input: Input, s: System) {
    && Sound(input, s.control) && OneRendezvous(s)
    && (forall id | id in s.threads :: ThreadFits(input, s.control, s.threads[id]))
  }

  ghost predicate Frozen(c: Control, d: Control) {
    && d.err && d.failure == c.failure && d.settled == c.settled && d.finalSeen == c.finalSeen
    && d.reported == c.reported && d.requeueSeen == c.requeueSeen && d.hit == c.hit
  }

  /** What one move does to what was already proved. */
  ghost predicate Advances(c: Control, d: Control) {
    && (c.hit ==> d.hit && d.killed == c.killed) && (c.requeueSeen ==> d.requeueSeen)
    && (c.recovered.Some? ==> d.recovered == c.recovered) && c.readyCloses <= d.readyCloses
    && (c.reading ==> d.reading) && (c.reported ==> d.reported && d.report == c.report) && (c.settled ==> d.settled)
    && (c.finalSeen ==> d.finalSeen) && (c.err ==> Frozen(c, d))
  }

  lemma EnterKeeps(input: Input, c: Control, a: Action)
    requires Sound(input, c)
    ensures Sound(input, Enter(input, c, a).0) && Advances(c, Enter(input, c, a).0)
  {}

  lemma EnterFits(input: Input, c: Control, a: Action)
    requires Sound(input, c)
    ensures var (d, u) := Enter(input, c, a);
      ThreadFits(input, d, u) && d.readyCloses == c.readyCloses && (u.Rendezvous? ==> c.recovered.None?)
  {}

  lemma GoOnKeeps(input: Input, c: Control, t: Thread, a: Action)
    requires Sound(input, c) && ThreadFits(input, c, t) && (t.Rendezvous? ==> c.readyCloses == 0)
    ensures Sound(input, GoOn(input, c, t, a).0) && Advances(c, GoOn(input, c, t, a).0)
  {}

  lemma GoOnFits(input: Input, c: Control, t: Thread, a: Action)
    requires Sound(input, c) && ThreadFits(input, c, t)
    ensures var (d, u) := GoOn(input, c, t, a);
      && ThreadFits(input, d, u)
      && (u.Rendezvous? ==> t.Rendezvous?) && (d.readyCloses == c.readyCloses || (t.Rendezvous? && !u.Rendezvous?))
  {}

  lemma FitsLater(input: Input, c: Control, d: Control, t: Thread)
    requires Advances(c, d) && ThreadFits(input, c, t)
    ensures ThreadFits(input, d, t)
  {}

  lemma RendezvousKeeps(input: Input, s: System, id: nat, d: Control, u: Thread)
    requires Inv(input, s)
    requires u.Rendezvous? ==> ThreadOf(s, id).Rendezvous? || s.control.recovered.None?
    requires d.readyCloses == s.control.readyCloses || (ThreadOf(s, id).Rendezvous? && !u.Rendezvous?)
    ensures OneRendezvous(System(d, s.threads[id := u]))
  {
    if s.control.recovered.None? {
      assert forall i | i in s.threads :: !s.threads[i].Rendezvous?;
    }
  }

  lemma StepKeeps(input: Input, s: System, id: nat, a: Action)
    requires Inv(input, s)
    ensures Inv(input, Step(input, s, id, a)) && Advances(s.control, Step(input, s, id, a).control)
  {
    var t := ThreadOf(s, id);
    if t.Start? {
      EnterKeeps(input, s.control, a);
      EnterFits(input, s.control, a);
    } else {
      GoOnKeeps(input, s.control, t, a);
      GoOnFits(input, s.control, t, a);
    }
    var (d, u) := Move(input, s.control, t, a);
    forall i | i in s.threads ensures ThreadFits(input, d, s.threads[i]) {
      FitsLater(input, s.control, d, s.threads[i]);
    }
    RendezvousKeeps(input, s, id, d, u);
  }

  lemma {:induction false} RunKeeps(input: Input, moves: seq<(nat, Action)>)
    ensures Inv(input, Run(input, moves))
  {
    if moves != [] {
      var n := |moves| - 1;
      RunKeeps(input, moves[..n]);
      StepKeeps(input, Run(input, moves[..n]), moves[n].0, moves[n].1);
    }
  }

  /** In every run, an accepted final authority rests on the whole chain: with
      the opt-in a complete settlement of the exact schedule, and always one
      reported recovery of the selected chunk, under a lease other than the one
      killed, after both earlier callbacks. */
  lemma AcceptedMeans(input: Input, moves: seq<(nat, Action)>, id: nat)
    requires ThreadOf(Run(input, moves), id) == Returned(Accepted)
    ensures var c := Run(input, moves).control;
      && (input.settlement ==> c.settled && c.proof.Some? && c.proof.value.Complete() && c.proof.value.schedule == input.schedule)
      && c.reported && c.readyCloses == 1 && c.releaseCloses == 1 && c.requeuedCloses == 1
      && c.hit && c.requeueSeen && c.recovered.Some? && c.recovered.value.token != c.killed
      && Targets(input, c.recovered.value)
      && c.report.Some? && c.report.value.point == Recovered && c.report.value.token == c.recovered.value.token
      && c.report.value.completed && (!input.settlement ==> c.report.value.scheduleStatus == Settled)
  {
    RunKeeps(input, moves);
    assert ThreadFits(input, Run(input, moves).control, ThreadOf(Run(input, moves), id));
  }

  /** Once refused, no later callback, read, settlement or final is credited. */
  lemma {:induction false} RefusalIsFinal(input: Input, moves: seq<(nat, Action)>, k: nat)
    requires k <= |moves| && Run(input, moves[..k]).control.err
    ensures Frozen(Run(input, moves[..k]).control, Run(input, moves).control)
  {
    if k == |moves| {
      assert moves[..k] == moves;
    } else {
      var n := |moves| - 1;
      assert moves[..n][..k] == moves[..k];
      RefusalIsFinal(input, moves[..n], k);
      RunKeeps(input, moves[..n]);
      StepKeeps(input, Run(input, moves[..n]), moves[n].0, moves[n].1);
    }
  }

  /** A well-formed completion in the schedule is either ignored or names both
      selected coordinates; an ignored one changes nothing. */
  lemma SiblingOrTarget(input: Input, c: Control, e: Event, current: bool, hitLive: bool)
    requires input.identity == Identity(input.schedule, input.offset, 0)
    requires e.point == Recovered && e.priority == Stale && e.status == Done && !e.leased && !e.cutoff
    requires e.scheduleStatus == Unset && e.row == 0 && e.checkpoint == 0 && e.token != 0 && e.length == 1 && e.attempt == 0
    requires e.schedule == input.schedule && e.identity == Identity(e.schedule, e.offset, e.attempt)
    ensures Sibling(input, e) <==> !Targets(input, e)
    ensures Sibling(input, e) <==> e.offset != input.offset
    ensures Sibling(input, e) ==> Enter(input, c, Notify(e, current, hitLive)) == (c, Returned(Ignored))
  {}

  // ---- the same sections, in place

  /** Every section keeps what runs keep; one that a caller reaches only after
      another requires what that one left it. */
  class RecoveryControl {
    const input: Input
    var hit: bool
    var killed: nat
    var requeueSeen: bool
    ghost var requeuedCloses: nat
    var reading: bool
    var queued: nat
    var recovered: Option<Event>
    ghost var readyCloses: nat
    var reported: bool
    ghost var releaseCloses: nat
    ghost var report: Option<Transition>
    var settled: bool
    ghost var proof: Option<Settlement>
    var finalSeen: bool
    var err: bool
    var failure: Option<Failure>

    ghost function View(): Control
      reads this
    {
      Control(hit, killed, requeueSeen, requeuedCloses, reading, queued, recovered, readyCloses, reported,
              releaseCloses, report, settled, proof, finalSeen, err, failure)
    }

    constructor (input: Input)
      ensures View() == Initial && this.input == input
      ensures Sound(input, View())
    {
      this.input := input;
      hit, killed, requeueSeen, requeuedCloses, reading, queued := false, 0, false, 0, false, 0;
      recovered, readyCloses, reported, releaseCloses, report := None, 0, false, 0, None;
      settled, proof, finalSeen, err, failure := false, None, false, false, None;
    }

    method Transition(e: Event, hitLive: bool) returns (valid: bool)
      requires Sound(input, View()) && Targets(input, e)
      modifies this
      ensures (View(), valid) == Observed(old(View()), e, hitLive)
      ensures Sound(input, View()) && Advances(old(View()), View())
    {
      valid := !err;
      match e.point
      case Hit =>
        valid := valid && !hit && !requeueSeen && e.scheduleStatus == Active && e.priority == NeverRun &&
                 e.status == Running && e.leased && e.cutoff && e.row != 0 && e.checkpoint != 0 && e.token != 0;
        if valid { killed, hit := e.token, true; }
      case Requeued =>
        valid := valid && hit && hitLive && !requeueSeen && e.scheduleStatus == Active && e.priority == Stale &&
                 e.status == Pending && !e.leased && !e.cutoff;
        if valid { requeueSeen, requeuedCloses := true, requeuedCloses + 1; }
      case Recovered =>
        valid := valid && hit && recovered.None? && e.priority == Stale && e.status == Done && !e.leased &&
                 !e.cutoff && e.token != 0 && e.token != killed;
        if valid { recovered := Some(e); }
      case OtherPoint =>
        valid := false;
    }

    method Meet() returns (valid: bool)
      requires Sound(input, View()) && recovered.Some? && readyCloses == 0
      modifies this
      ensures (View(), valid) == Met(old(View()))
      ensures Sound(input, View()) && Advances(old(View()), View())
    {
      valid := !err && requeueSeen;
      if valid { readyCloses := readyCloses + 1; }
    }

    method ClaimRead() returns (valid: bool)
      requires Sound(input, View())
      modifies this
      ensures (View(), valid) == Claimed(old(View()))
      ensures Sound(input, View()) && Advances(old(View()), View())
    {
      valid := !err && !reading;
      if valid { reading, queued := true, queued + 1; }
    }

    method FinishReport(live: bool, ghost value: Transition) returns (valid: bool)
      requires Sound(input, View()) && ThreadFits(input, View(), Reporting(value))
      modifies this
      ensures (View(), valid) == Reported(old(View()), live, value)
      ensures Sound(input, View()) && Advances(old(View()), View())
    {
      valid := !err && live && reading && !reported && recovered.Some?;
      if valid { reported, releaseCloses, report := true, releaseCloses + 1, Some(value); }
    }

    method Settle(value: Settlement)
      requires Sound(input, View()) && ThreadFits(input, View(), Settling(value))
      modifies this
      ensures View() == SettledBy(old(View()), value)
      ensures Sound(input, View()) && Advances(old(View()), View())
    {
      if value.Complete() {
        if !err { settled, proof := true, Some(value); }
      }
    }

    method FinishFinal(value: Option<Final>) returns (valid: bool)
      requires Sound(input, View()) && ThreadFits(input, View(), Finalizing)
      modifies this
      ensures (View(), valid) == Finished(input, old(View()), value)
      ensures Sound(input, View()) && Advances(old(View()), View())
    {
      valid := value.Some? && !err && reported && !finalSeen && value.value.authority == input.prior &&
               value.value.generation == input.targetGeneration && value.value.roots == input.roots;
      if valid { finalSeen := true; }
    }

    method Refuse() returns (first: bool)
      requires Sound(input, View())
      modifies this
      ensures View() == Refused(old(View())) && first == !old(err)
      ensures Sound(input, View()) && Advances(old(View()), View())
    {
      first := !err;
      if first { err, failure := true, Some(Failure(hit, requeueSeen, recovered.Some?, reading, reported)); }
    }
  }
}
