/** The stale-lease control: one mutex, two close-once barriers, and any number
    of workers, reaper callbacks and readers that rendezvous on them. Every
    locked section is one step. */
module StaleLease {
  import opened Wrappers

  // ---- what the sections compare

  datatype Status = Pending | Running | Done
  datatype Priority = NeverRun | Stale | OtherPriority
  datatype Point = Hit | Requeued | Recovered | OtherPoint

  datatype Place = Place(
    repository: nat, stage: nat, resource: nat, generation: nat, schedule: nat,
    offset: nat, length: nat, attempt: nat)

  /** A claimed chunk; identity and lease 0 stand for the empty string. */
  datatype Chunk = Chunk(place: Place, identity: nat, lease: nat, status: Status, priority: Priority)

  /** The digest of a lease token determines the token. */
  datatype TokenDigest = NoToken | DigestOf(token: nat)

  datatype Event = Event(
    point: Point, place: Place, identity: nat, status: Status, priority: Priority,
    leased: bool, token: TokenDigest)

  const NoPlace := Place(0, 0, 0, 0, 0, 0, 0, 0)
  const NoChunk := Chunk(NoPlace, 0, 0, Pending, NeverRun)

  // ---- the authority captured at the end of a phase

  /** One extraction root; domains are ordered as their numbers and SELECTED is
      the domain the recovery targets. */
  datatype Root = Root(
    current: bool, domain: nat, generation: nat, plan: nat, root: nat, candidate: nat, source: nat, observation: nat,
    scheduled: bool, partitions: nat)

  datatype Upstream = Upstream(candidate: nat, source: nat, observation: nat)

  const ROOTS := 9
  const PARTITIONS := 56
  const SELECTED := 1
  const TARGET_ORDINAL := 6

  predicate RootFits(r: Root, u: Upstream) {
    && r.current && r.generation != 0 && r.plan != 0 && r.root != 0 && !r.scheduled && r.partitions <= PARTITIONS
    && r.candidate == u.candidate && r.source == u.source && r.observation == u.observation
  }

  function Partitions(roots: seq<Root>): nat {
    if roots == [] then 0 else Partitions(roots[..|roots| - 1]) + roots[|roots| - 1].partitions
  }

  /** Nine roots of one generation, one per domain, whose partitions are the
      whole plan and among which the target partition exists. */
  ghost predicate Complete(roots: seq<Root>, u: Upstream) {
    && |roots| == ROOTS && Partitions(roots) == PARTITIONS
    && (forall i | 0 <= i < |roots| :: RootFits(roots[i], u) && roots[i].generation == roots[0].generation)
    && (forall i, j | 0 <= i < j < |roots| :: roots[i].domain < roots[j].domain)
    && (exists i | 0 <= i < |roots| :: roots[i].domain == SELECTED && roots[i].partitions > TARGET_ORDINAL)
  }

  /** One pass that compares each root with the one before it. */
  method FinalSnapshot(roots: seq<Root>, u: Upstream) returns (generation: Option<nat>)
    ensures generation.Some? <==> Complete(roots, u)
    ensures generation.Some? ==> forall i | 0 <= i < |roots| :: roots[i].generation == generation.value
  {
    if |roots| != ROOTS { return None; }
    var current, total, found := 0, 0, false;
    for i := 0 to |roots|
      invariant forall k | 0 <= k < i :: RootFits(roots[k], u) && roots[k].generation == current == roots[0].generation
      invariant forall j, k | 0 <= j < k < i :: roots[j].domain < roots[k].domain
      invariant total == Partitions(roots[..i])
      invariant found <==> exists k | 0 <= k < i :: roots[k].domain == SELECTED && roots[k].partitions > TARGET_ORDINAL
    {
      var r := roots[i];
      if !RootFits(r, u) || (i != 0 && (r.generation != current || r.domain <= roots[i - 1].domain)) { return None; }
      current := r.generation;
      assert roots[..i + 1][..i] == roots[..i];
      total := total + r.partitions;
      found := found || (r.domain == SELECTED && r.partitions > TARGET_ORDINAL);
    }
    assert roots[..|roots|] == roots;
    if !found || total != PARTITIONS { return None; }
    generation := Some(current);
  }

  // ---- the fields the mutex protects

  datatype Barrier = Barrier(
    reading: bool, reported: bool, observer: Option<nat>, transition: Option<Event>,
    readyCloses: nat, releaseCloses: nat)

  const Fresh := Barrier(false, false, None, None, 0, 0)

  datatype Control = Control(
    captured: bool, confirmed: bool, preparing: bool, armed: bool, final: nat, target: Place,
    claim: Chunk, reclaimed: bool, reclaimedLease: TokenDigest, requeueSeen: bool, requeuedCloses: nat,
    hit: Barrier, recovered: Barrier, err: bool)

  const Initial := Control(false, false, false, false, 0, NoPlace, NoChunk, false, NoToken, false, 0, Fresh, Fresh, false)

  // ---- the locked sections, as functions of those fields

  /** Remembers the phase-six authority; accepts only the same one in phase seven. */
  function Captured(c: Control, phase: nat, value: nat): (r: (Control, bool)) {
    if phase == 7 then (c, !c.err && c.recovered.reported && value == c.final)
    else if !c.err && !c.captured then (c.(final := value, captured := true), true)
    else (c, false)
  }

  function Confirmed(c: Control, joined: bool): (Control, bool) {
    if joined && !c.err && c.captured && !c.confirmed then (c.(confirmed := true), true) else (c, false)
  }

  function Prepared(c: Control): (Control, bool) {
    if !c.err && c.confirmed && !c.preparing && !c.armed then (c.(preparing := true), true) else (c, false)
  }

  function Armed(c: Control, target: Place): (Control, bool) {
    if !c.err && c.preparing && !c.armed then (c.(target := target, armed := true, preparing := false), true)
    else (c, false)
  }

  predicate AtTarget(chunk: Chunk, target: Place) {
    chunk.place == target && target.length == 1 && target.attempt == 0
  }

  /** A worker about to hold the selected chunk: the first claim, or a later
      one of the same chunk under another lease. */
  function Claimed(c: Control, chunk: Chunk, target: Place): (Control, bool) {
    var valid := !c.err && AtTarget(chunk, target) && chunk.status == Running && chunk.lease != 0;
    if chunk.priority == Stale then
      (c, valid && c.hit.observer.Some? && c.hit.reported && !c.reclaimed &&
          chunk.identity == c.claim.identity && chunk.lease != c.claim.lease)
    else if valid && chunk.priority == NeverRun && c.claim.identity == 0 then (c.(claim := chunk), true)
    else (c, false)
  }

  function Reclaimed(c: Control, chunk: Chunk): (Control, bool) {
    if !c.err && c.requeueSeen && !c.reclaimed
    then (c.(reclaimed := true, reclaimedLease := DigestOf(chunk.lease)), true)
    else (c, false)
  }

  predicate OfOld(c: Control, e: Event) {
    && !c.err && c.armed && c.claim.identity != 0
    && e.place == c.claim.place.(length := 1, attempt := 0) && e.identity == c.claim.identity
  }

  /** The reaper's callback, on the context `observer`. */
  function Observed(c: Control, e: Event, observer: nat): (Control, bool) {
    match e.point
    case Hit =>
      if OfOld(c, e) && c.hit.observer.None? && !c.requeueSeen && e.priority == NeverRun &&
         e.status == Running && e.leased && e.token == DigestOf(c.claim.lease)
      then (c.(hit := Readied(c.hit, e, observer)), true) else (c, false)
    case Requeued =>
      if OfOld(c, e) && c.hit.reported && !c.requeueSeen && e.priority == Stale && e.status == Pending && !e.leased
      then (c.(requeueSeen := true, requeuedCloses := c.requeuedCloses + 1), true) else (c, false)
    case Recovered =>
      if OfOld(c, e) && c.requeueSeen && c.reclaimed && c.recovered.observer.None? &&
         e.priority == Stale && e.status == Done && !e.leased && e.token == c.reclaimedLease
      then (c.(recovered := Readied(c.recovered, e, observer)), true) else (c, false)
    case OtherPoint => (c, false)
  }

  function Readied(b: Barrier, e: Event, observer: nat): Barrier {
    b.(observer := Some(observer), transition := Some(e), readyCloses := b.readyCloses + 1)
  }

  function At(c: Control, point: Point): Barrier {
    if point == Recovered then c.recovered else c.hit
  }

  function With(c: Control, point: Point, b: Barrier): Control {
    if point == Recovered then c.(recovered := b) else c.(hit := b)
  }

  function Opened(c: Control, point: Point): (Control, bool) {
    if !c.err && c.armed && !At(c, point).reading && (point == Hit || (point == Recovered && c.hit.reported))
    then (With(c, point, At(c, point).(reading := true)), true) else (c, false)
  }

  /** `live` says that neither the control nor the observer was cancelled. */
  function Reported(c: Control, point: Point, live: bool): (Control, bool) {
    var b := At(c, point);
    if !c.err && live && b.reading && !b.reported && b.observer.Some?
    then (With(c, point, b.(reported := true, releaseCloses := b.releaseCloses + 1)), true) else (c, false)
  }

  // ---- every interleaving of the callers

  datatype Result = Continue | Adopted | Accepted(value: nat) | LeaseLost | Failed

  /** Where a caller stands between two locked sections. */
  datatype Thread =
    | Start
    | Preparing
    | Selected(chunk: Chunk, target: Place)   // a worker that saw its chunk armed
    | AwaitingRequeue                         // the first claim, without a heartbeat
    | Rejoining(chunk: Chunk)                 // a later claim of the same chunk
    | Notifying(point: Point)                 // a reaper callback, until its report joins
    | Awaiting(point: Point)                  // a reader, until the callback
    | Reading(point: Point)                   // a reader, until its own report
    | Refusing                                // found invalid, about to stop the control
    | Returned(result: Result)

  /** A caller's next move. The booleans are what it finds outside the mutex:
      its context, the launch phase, the native read. */
  datatype Action =
    | Capture(phase: nat, value: nat, current: bool)
    | Confirm(joined: bool)
    | Prepare(current: bool)
    | Arm(target: Place, written: bool)
    | Select(chunk: Chunk, ours: bool)
    | Claim(current: bool)
    | Rejoin(current: bool)
    | Resume(current: bool)
    | Notify(event: Event, observer: nat, current: bool)
    | Release(current: bool)
    | Open(point: Point, current: bool)
    | Ready(observed: bool)
    | Report(joined: bool, live: bool)
    | Cancel
    | Stop

  datatype System = System(control: Control, threads: map<nat, Thread>)

  function ThreadOf(s: System, id: nat): Thread {
    if id in s.threads then s.threads[id] else Start
  }

  /** A caller's first section. */
  function Enter(c: Control, a: Action): (Control, Thread) {
    match a
    case Capture(phase, value, current) =>
      if phase != 6 && phase != 7 then (c, Returned(Continue))
      else if !current then (c, Refusing)
      else var (next, valid) := Captured(c, phase, value);
        (next, if !valid then Refusing else if phase == 7 then Returned(Accepted(value)) else Returned(Continue))
    case Confirm(joined) =>
      var (next, valid) := Confirmed(c, joined);
      (next, if valid then Returned(Continue) else Refusing)
    case Prepare(current) =>
      if !current then (c, Refusing) else
      var (next, valid) := Prepared(c);
      (next, if valid then Preparing else Refusing)
    case Select(chunk, ours) =>
      if c.armed && ours && chunk.place.generation == c.target.generation && chunk.place.offset == c.target.offset
      then (c, Selected(chunk, c.target)) else (c, Returned(Continue))
    case Notify(event, observer, current) =>
      if !current then (c, Refusing) else
      var (next, valid) := Observed(c, event, observer);
      (next, if !valid then Refusing else if event.point == Requeued then Returned(Continue) else Notifying(event.point))
    case Open(point, current) =>
      if !current then (c, Refusing) else
      var (next, valid) := Opened(c, point);
      (next, if valid then Awaiting(point) else Refusing)
    case _ => (c, Start)
  }

  /** A caller that goes on from where it waits. */
  function GoOn(c: Control, t: Thread, a: Action): (Control, Thread) {
    match (t, a)
    case (Preparing, Arm(target, written)) =>
      if !written then (c, Refusing) else
      var (next, valid) := Armed(c, target);
      (next, if valid then Returned(Continue) else Refusing)
    case (Selected(chunk, target), Claim(current)) =>
      if !current then (c, Refusing) else
      var (next, valid) := Claimed(c, chunk, target);
      (next, if !valid then Refusing else if chunk.priority == Stale then Rejoining(chunk) else AwaitingRequeue)
    case (Rejoining(chunk), Rejoin(current)) =>
      var (next, valid) := Reclaimed(c, chunk);
      (next, if valid && current then Returned(Adopted) else Refusing)
    case (AwaitingRequeue, Resume(current)) =>
      if c.requeuedCloses == 0 then (c, t)
      else (c, if !c.err && c.requeueSeen && c.hit.reported && current then Returned(LeaseLost) else Refusing)
    case (Notifying(point), Release(current)) =>
      if At(c, point).releaseCloses == 0 then (c, t)
      else (c, if !c.err && At(c, point).reported && current then Returned(Continue) else Refusing)
    case (Awaiting(point), Ready(observed)) =>
      if At(c, point).readyCloses == 0 then (c, t) else (c, if observed then Reading(point) else Refusing)
    case (Reading(point), Report(joined, live)) =>
      if !joined then (c, Refusing) else
      var (next, valid) := Reported(c, point, live);
      (next, if valid then Returned(Continue) else Refusing)
    case (_, Cancel) =>
      (c, if t.Returned? || t.Rejoining? then t else Refusing)
    case (Refusing, Stop) => (c.(err := true), Returned(Failed))
    case _ => (c, t)
  }

  function Move(c: Control, t: Thread, a: Action): (Control, Thread) {
    if t.Start? then Enter(c, a) else GoOn(c, t, a)
  }

  function Step(s: System, id: nat, a: Action): System {
    var (c, t) := Move(s.control, ThreadOf(s, id), a);
    System(c, s.threads[id := t])
  }

  function Run(s: System, moves: seq<(nat, Action)>): System {
    if moves == [] then s else Step(Run(s, moves[..|moves| - 1]), moves[|moves| - 1].0, moves[|moves| - 1].1)
  }

  // ---- what every interleaving keeps

  /** How many of the protocol's milestones, in their one order, were reached. */
  function Progress(c: Control): (n: nat)
    ensures n <= 10
  {
    if !c.captured then 0 else if !c.confirmed then 1 else if !c.armed then 2
    else if c.claim.identity == 0 then 3 else if c.hit.readyCloses == 0 then 4 else if !c.hit.reported then 5
    else if !c.requeueSeen then 6 else if !c.reclaimed then 7
    else if c.recovered.readyCloses == 0 then 8 else if !c.recovered.reported then 9 else 10
  }

  /** No milestone was reached before an earlier one. */
  ghost predicate Ordered(c: Control) {
    var n := Progress(c);
    && c.captured == (n >= 1) && c.confirmed == (n >= 2) && c.armed == (n >= 3) && (c.claim.identity != 0) == (n >= 4)
    && (c.hit.readyCloses > 0) == (n >= 5) && c.hit.reported == (n >= 6) && c.requeueSeen == (n >= 7)
    && c.reclaimed == (n >= 8) && (c.recovered.readyCloses > 0) == (n >= 9) && c.recovered.reported == (n >= 10)
  }

  /** Each channel was closed at most once, by the section that sets its flag. */
  ghost predicate ClosedOnce(c: Control) {
    && c.requeuedCloses == (if c.requeueSeen then 1 else 0)
    && c.hit.readyCloses == (if c.hit.observer.Some? then 1 else 0)
    && c.hit.releaseCloses == (if c.hit.reported then 1 else 0)
    && c.recovered.readyCloses == (if c.recovered.observer.Some? then 1 else 0)
    && c.recovered.releaseCloses == (if c.recovered.reported then 1 else 0)
  }

  /** The killed lease, the reclaiming lease and what each callback showed. */
  ghost predicate Tokens(c: Control) {
    && (c.hit.observer.Some? <==> c.hit.transition.Some?)
    && (c.recovered.observer.Some? <==> c.recovered.transition.Some?)
    && (c.hit.transition.Some? ==> c.hit.transition.value.token == DigestOf(c.claim.lease))
    && (c.reclaimed ==> c.reclaimedLease != DigestOf(c.claim.lease))
    && (c.recovered.transition.Some? ==> c.recovered.transition.value.token == c.reclaimedLease)
  }

  ghost predicate Sound(c: Control) {
    && Ordered(c) && ClosedOnce(c) && Tokens(c)
    && (c.preparing ==> c.confirmed && !c.armed)
    && (c.claim.identity != 0 ==> AtTarget(c.claim, c.target))
  }

  ghost predicate ThreadFits(c: Control, t: Thread) {
    match t
    case Preparing => c.confirmed
    case Selected(_, target) => c.armed && target == c.target
    case Rejoining(chunk) => c.hit.reported && chunk.identity == c.claim.identity && chunk.lease != c.claim.lease
    case Reading(point) => At(c, point).observer.Some?
    case Returned(LeaseLost) => c.requeueSeen && c.hit.reported
    case Returned(Adopted) => c.reclaimed
    case Returned(Accepted(value)) => c.recovered.reported && value == c.final
    case Returned(Failed) => c.err
    case _ => true
  }

  ghost predicate Inv(s: System) {
    && Sound(s.control)
    && (forall id | id in s.threads :: ThreadFits(s.control, s.threads[id]))
    && (forall i, j | i in s.threads && j in s.threads && s.threads[i] == s.threads[j] == Returned(Adopted) :: i == j)
  }

  /** One move reaches at most one milestone, undoes none, and reaches none once
      the control has failed; what a milestone fixed stays fixed. */
  ghost predicate Advances(c: Control, d: Control) {
    && Progress(c) <= Progress(d) <= Progress(c) + 1
    && (c.err ==> d.err && Progress(d) == Progress(c))
    && (c.captured ==> d.final == c.final)
    && (c.armed ==> d.target == c.target)
    && (c.claim.identity != 0 ==> d.claim == c.claim)
    && (c.reclaimed ==> d.reclaimedLease == c.reclaimedLease)
  }

  /** The section keeps the fields' invariant and only adds to what was reached. */
  ghost predicate Keeps(c: Control, d: Control) {
    Sound(d) && Advances(c, d)
  }

  lemma SameKeeps(c: Control)
    requires Sound(c)
    ensures Keeps(c, c)
  {}

  lemma StopKeeps(c: Control)
    requires Sound(c)
    ensures Keeps(c, c.(err := true))
  {}

  lemma CaptureKeeps(c: Control, phase: nat, value: nat)
    requires Sound(c)
    ensures Keeps(c, Captured(c, phase, value).0)
  {}

  lemma PreparationKeeps(c: Control, joined: bool, target: Place)
    requires Sound(c)
    ensures Keeps(c, Confirmed(c, joined).0) && Keeps(c, Prepared(c).0) && Keeps(c, Armed(c, target).0)
  {}

  lemma WorkersKeep(c: Control, t: Thread)
    requires Sound(c) && ThreadFits(c, t)
    ensures t.Selected? ==> Keeps(c, Claimed(c, t.chunk, t.target).0)
    ensures t.Rejoining? ==> Keeps(c, Reclaimed(c, t.chunk).0)
  {}

  lemma ObservedKeeps(c: Control, e: Event, observer: nat)
    requires Sound(c)
    ensures Keeps(c, Observed(c, e, observer).0)
  {}

  lemma ReadersKeep(c: Control, point: Point, live: bool)
    requires Sound(c)
    ensures Keeps(c, Opened(c, point).0) && Keeps(c, Reported(c, point, live).0)
  {}

  lemma EnterKeeps(c: Control, a: Action)
    requires Sound(c)
    ensures Keeps(c, Enter(c, a).0)
  {
    SameKeeps(c);
    hide Keeps;
    match a
    case Capture(phase, value, _) => CaptureKeeps(c, phase, value);
    case Confirm(joined) => PreparationKeeps(c, joined, NoPlace);
    case Prepare(_) => PreparationKeeps(c, false, NoPlace);
    case Notify(event, observer, _) => ObservedKeeps(c, event, observer);
    case Open(point, _) => ReadersKeep(c, point, false);
    case _ =>
  }

  lemma GoOnKeeps(c: Control, t: Thread, a: Action)
    requires Sound(c) && ThreadFits(c, t)
    ensures Keeps(c, GoOn(c, t, a).0)
  {
    SameKeeps(c);
    hide Keeps;
    match (t, a)
    case (Preparing, Arm(target, _)) => PreparationKeeps(c, false, target);
    case (Selected(_, _), Claim(_)) => WorkersKeep(c, t);
    case (Rejoining(_), Rejoin(_)) => WorkersKeep(c, t);
    case (Reading(point), Report(_, live)) => ReadersKeep(c, point, live);
    case (Refusing, Stop) => assert Keeps(c, c.(err := true)) by { StopKeeps(c); }
    case _ =>
  }

  lemma MoverFits(c: Control, t: Thread, a: Action)
    requires Sound(c) && ThreadFits(c, t) && Sound(Move(c, t, a).0) && Advances(c, Move(c, t, a).0)
    ensures var (d, u) := Move(c, t, a);
      ThreadFits(d, u) && (u == Returned(Adopted) ==> t == u || (!c.reclaimed && d.reclaimed))
  {
    if Move(c, t, a).1 == t { FitsLater(c, Move(c, t, a).0, t); }
  }

  lemma FitsLater(c: Control, d: Control, t: Thread)
    requires Sound(c) && Sound(d) && Advances(c, d) && ThreadFits(c, t)
    ensures ThreadFits(d, t)
  {}

  lemma StepKeeps(s: System, id: nat, a: Action)
    requires Inv(s)
    ensures Inv(Step(s, id, a)) && Advances(s.control, Step(s, id, a).control)
  {
    var t := ThreadOf(s, id);
    EnterKeeps(s.control, a);
    GoOnKeeps(s.control, t, a);
    MoverFits(s.control, t, a);
    var (d, u) := Move(s.control, t, a);
    forall i | i in s.threads && i != id ensures ThreadFits(d, s.threads[i]) {
      FitsLater(s.control, d, s.threads[i]);
    }
  }

  /** Every run, of any number of callers, keeps the order, the single closes,
      the lease distinction and the return conditions. */
  lemma {:induction false} RunKeeps(moves: seq<(nat, Action)>)
    ensures Inv(Run(System(Initial, map[]), moves))
  {
    if moves != [] {
      var n := |moves| - 1;
      RunKeeps(moves[..n]);
      StepKeeps(Run(System(Initial, map[]), moves[..n]), moves[n].0, moves[n].1);
    }
  }

  /** What a caller may conclude from its own return, in any run: the old worker
      lost its lease to a committed requeue after a joined hit report; an
      accepted phase-seven authority equals the captured one and follows a
      recovery reported under another lease than the one killed. */
  lemma ReturnsMean(moves: seq<(nat, Action)>, id: nat)
    ensures var s := Run(System(Initial, map[]), moves); var c := s.control;
      && (ThreadOf(s, id) == Returned(LeaseLost) ==> c.requeueSeen && c.hit.reported && c.requeuedCloses == 1)
      && (ThreadOf(s, id).Returned? && ThreadOf(s, id).result.Accepted? ==>
            && ThreadOf(s, id).result.value == c.final && c.confirmed && c.requeueSeen && c.recovered.reported
            && c.hit.transition.Some? && c.recovered.transition.Some?
            && c.hit.transition.value.token == DigestOf(c.claim.lease)
            && c.recovered.transition.value.token != c.hit.transition.value.token)
  {
    RunKeeps(moves);
    var s := Run(System(Initial, map[]), moves);
    assert ThreadFits(s.control, ThreadOf(s, id));
  }

  // ---- the same sections, in place

  /** Every section keeps what runs keep; one that a caller reaches only after
      another requires what that one left it. */
  class StaleControl {
    var captured: bool
    var confirmed: bool
    var preparing: bool
    var armed: bool
    var final: nat
    var target: Place
    var claim: Chunk
    var reclaimed: bool
    var reclaimedLease: TokenDigest
    var requeueSeen: bool
    ghost var requeuedCloses: nat
    var hit: Barrier
    var recovered: Barrier
    var err: bool

    ghost function View(): Control
      reads this
    {
      Control(captured, confirmed, preparing, armed, final, target, claim, reclaimed, reclaimedLease,
              requeueSeen, requeuedCloses, hit, recovered, err)
    }

    constructor ()
      ensures View() == Initial
      ensures Sound(View())
    {
      captured, confirmed, preparing, armed, final, target := false, false, false, false, 0, NoPlace;
      claim, reclaimed, reclaimedLease, requeueSeen, requeuedCloses := NoChunk, false, NoToken, false, 0;
      hit, recovered, err := Fresh, Fresh, false;
    }

    method CaptureFinal(phase: nat, value: nat) returns (valid: bool)
      requires Sound(View())
      modifies this
      ensures (View(), valid) == Captured(old(View()), phase, value)
      ensures Keeps(old(View()), View())
    {
      CaptureKeeps(View(), phase, value);
      if phase == 7 {
        return !err && recovered.reported && value == final;
      }
      valid := !err && !captured;
      if valid { final, captured := value, true; }
    }

    method ConfirmFinal(joined: bool) returns (valid: bool)
      requires Sound(View())
      modifies this
      ensures (View(), valid) == Confirmed(old(View()), joined)
      ensures Keeps(old(View()), View())
    {
      PreparationKeeps(View(), joined, NoPlace);
      valid := joined && !err && captured && !confirmed;
      if valid { confirmed := true; }
    }

    method BeginPrepare() returns (valid: bool)
      requires Sound(View())
      modifies this
      ensures (View(), valid) == Prepared(old(View()))
      ensures Keeps(old(View()), View())
    {
      PreparationKeeps(View(), false, NoPlace);
      valid := !err && confirmed && !preparing && !armed;
      if valid { preparing := true; }
    }

    method Arm(prepared: Place) returns (valid: bool)
      requires Sound(View())
      modifies this
      ensures (View(), valid) == Armed(old(View()), prepared)
      ensures Keeps(old(View()), View())
    {
      PreparationKeeps(View(), false, prepared);
      valid := !err && preparing && !armed;
      if valid { target, armed, preparing := prepared, true, false; }
    }

    method Claim(chunk: Chunk, at: Place) returns (valid: bool)
      requires Sound(View()) && ThreadFits(View(), Selected(chunk, at))
      modifies this
      ensures (View(), valid) == Claimed(old(View()), chunk, at)
      ensures Keeps(old(View()), View())
    {
      WorkersKeep(View(), Selected(chunk, at));
      valid := !err && AtTarget(chunk, at) && chunk.status == Running && chunk.lease != 0;
      if chunk.priority == Stale {
        valid := valid && hit.observer.Some? && hit.reported && !reclaimed &&
                 chunk.identity == claim.identity && chunk.lease != claim.lease;
      } else {
        valid := valid && chunk.priority == NeverRun && claim.identity == 0;
        if valid { claim := chunk; }
      }
    }

    method Reclaim(chunk: Chunk) returns (valid: bool)
      requires Sound(View()) && ThreadFits(View(), Rejoining(chunk))
      modifies this
      ensures (View(), valid) == Reclaimed(old(View()), chunk)
      ensures Keeps(old(View()), View())
    {
      WorkersKeep(View(), Rejoining(chunk));
      valid := !err && requeueSeen && !reclaimed;
      if valid { reclaimed, reclaimedLease := true, DigestOf(chunk.lease); }
    }

    method Transition(e: Event, observer: nat) returns (valid: bool)
      requires Sound(View())
      modifies this
      ensures (View(), valid) == Observed(old(View()), e, observer)
      ensures Keeps(old(View()), View())
    {
      ObservedKeeps(View(), e, observer);
      valid := !err && armed && claim.identity != 0 &&
               e.place == claim.place.(length := 1, attempt := 0) && e.identity == claim.identity;
      match e.point
      case Hit =>
        valid := valid && hit.observer.None? && !requeueSeen && e.priority == NeverRun &&
                 e.status == Running && e.leased && e.token == DigestOf(claim.lease);
        if valid { hit := hit.(observer := Some(observer), transition := Some(e), readyCloses := hit.readyCloses + 1); }
      case Requeued =>
        valid := valid && hit.reported && !requeueSeen && e.priority == Stale && e.status == Pending && !e.leased;
        if valid { requeueSeen, requeuedCloses := true, requeuedCloses + 1; }
      case Recovered =>
        valid := valid && requeueSeen && reclaimed && recovered.observer.None? && e.priority == Stale &&
                 e.status == Done && !e.leased && e.token == reclaimedLease;
        if valid {
          recovered := recovered.(observer := Some(observer), transition := Some(e), readyCloses := recovered.readyCloses + 1);
        }
      case OtherPoint =>
        valid := false;
    }

    method ClaimRead(point: Point) returns (valid: bool)
      requires Sound(View())
      modifies this
      ensures (View(), valid) == Opened(old(View()), point)
      ensures Keeps(old(View()), View())
    {
      ReadersKeep(View(), point, false);
      var barrier := if point == Recovered then recovered else hit;
      valid := !err && armed && !barrier.reading && (point == Hit || (point == Recovered && hit.reported));
      if valid {
        if point == Recovered { recovered := recovered.(reading := true); } else { hit := hit.(reading := true); }
      }
    }

    method FinishReport(point: Point, live: bool) returns (valid: bool)
      requires Sound(View())
      modifies this
      ensures (View(), valid) == Reported(old(View()), point, live)
      ensures Keeps(old(View()), View())
    {
      ReadersKeep(View(), point, live);
      var barrier := if point == Recovered then recovered else hit;
      valid := !err && live && barrier.reading && !barrier.reported && barrier.observer.Some?;
      if valid {
        barrier := barrier.(reported := true, releaseCloses := barrier.releaseCloses + 1);
        if point == Recovered { recovered := barrier; } else { hit := barrier; }
      }
    }

    /** The first cause is kept; later ones only observe it. */
    method Stop() returns (first: bool)
      requires Sound(View())
      modifies this
      ensures View() == old(View()).(err := true) && first == !old(err)
      ensures Keeps(old(View()), View())
    {
      StopKeeps(View());
      first := !err;
      err := true;
    }
  }
}
