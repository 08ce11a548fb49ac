/** The terminal checkpoint: a hook that parks inside its own handler, a reader
    that reports it, and a quiesce that writes one footer after the phase's
    reuse record. */
module CheckpointTerminal {
  import opened Wrappers
  import Reuse = ReuseReports

  const TERMINAL_PHASE := 8

  /** `rest` stands for the coordinates other than generation and offset. */
  datatype Place = Place(generation: nat, offset: nat, rest: nat)
  datatype Event = Event(place: Place, wellFormed: bool, token: nat)
  datatype Claim = Claim(place: Place, token: nat)

  predicate ClaimMatches(claim: Claim, event: Event, target: Place) {
    event.wellFormed && event.place == target && event.token != 0 && claim == Claim(event.place, event.token)
  }

  /** What a reader found and is about to report. */
  datatype Observation = Observation(hit: bool, token: nat, checkpoint: nat)

  // ---- the fields the mutex protects

  datatype Control = Control(
    armed: bool, target: Place, parked: bool, heartbeat: Option<Claim>, event: Option<Event>, readyCloses: nat,
    reading: bool, reported: bool, releaseCloses: nat, observed: Option<Observation>, terminal: bool, err: bool)

  const NoPlace := Place(0, 0, 0)
  const Initial := Control(false, NoPlace, false, None, None, 0, false, false, 0, None, false, false)

  // ---- the locked sections

  function Armed(c: Control, target: Place): (Control, bool) {
    if !c.err && !c.armed then (c.(armed := true, target := target), true) else (c, false)
  }

  function Parked(c: Control, event: Event, claim: Claim): (Control, bool) {
    if !c.err && !c.parked && c.heartbeat.None?
    then (c.(heartbeat := Some(claim), parked := true, event := Some(event), readyCloses := c.readyCloses + 1), true)
    else (c, false)
  }

  function Claimed(c: Control): (Control, bool) {
    if !c.err && c.armed && !c.reading then (c.(reading := true), true) else (c, false)
  }

  /** `live` says neither the control nor the hook's context has ended. */
  function HitFinished(c: Control, value: Observation, live: bool): (Control, bool) {
    if !c.err && live && c.parked && c.reading && !c.reported && c.event.Some? && value.hit &&
       value.token == c.event.value.token && value.checkpoint != 0
    then (c.(observed := Some(value), reported := true, releaseCloses := c.releaseCloses + 1), true) else (c, false)
  }

  function MadeTerminal(c: Control): (Control, bool) {
    if !c.err && c.reported && c.parked && !c.terminal then (c.(terminal := true), true) else (c, false)
  }

  predicate StillParked(c: Control, live: bool) {
    !c.err && c.parked && live
  }

  // ---- every interleaving of the hook, the readers, the terminal and the reports

  datatype Result = Passed | Done | Success | Failed

  datatype Thread =
    | Start
    | Matched(event: Event, claim: Option<Claim>)  // a hook whose event names the target
    | Held                                         // the parked hook
    | Unparked                                     // its context ended
    | Awaiting                                     // a reader, until the hook
    | Reading                                      // a reader, until its report
    | AwaitingHit                                  // the terminal, until the hit is reported
    | Quiescing                                    // it made the control terminal
    | Quiesced                                     // the claim's heartbeat is stopped
    | Recording                                    // it is writing the phase's reuse record
    | Recorded
    | Footed                                       // the footer is out
    | Refusing
    | Returned(result: Result)

  datatype Action =
    | Arm(target: Place)
    | Checkpoint(event: Event, claim: Option<Claim>)
    | Park(current: bool)
    | Expire
    | Unpark
    | Open(current: bool)
    | Ready(read: bool)
    | Report(value: Observation, joined: bool, live: bool)
    | Terminate(current: bool)
    | Release
    | QuiesceHeartbeat(ok: bool)
    | Confirm(live: bool)
    | Record(report: Reuse.Action)
    | WriteFooter(ok: bool)
    | Finish(live: bool)
    | Cancel
    | Stop

  /** `hook` is the thread that parked, `owner` the one that made the control
      terminal; `quiesced` and `footers` are what the terminal did. */
  datatype System = System(
    control: Control, reuse: Reuse.System, hook: Option<nat>, owner: Option<nat>, matched: set<nat>,
    quiesced: bool, footers: nat, threads: map<nat, Thread>)

  function Idle(): System {
    System(Initial, Reuse.Initially(), None, None, {}, false, 0, map[])
  }

  function ThreadOf(s: System, id: nat): Thread {
    if id in s.threads then s.threads[id] else Start
  }

  function Enter(c: Control, a: Action): (Control, Thread) {
    match a
    case Arm(target) =>
      var (next, valid) := Armed(c, target);
      (next, if valid then Returned(Done) else Refusing)
    case Checkpoint(event, claim) =>
      if !c.armed || event.place.generation != c.target.generation || event.place.offset != c.target.offset
      then (c, Returned(Passed)) else (c, Matched(event, claim))
    case Open(current) =>
      if !current then (c, Refusing) else
      var (next, valid) := Claimed(c);
      (next, if valid then Awaiting else Refusing)
    case Terminate(current) => (c, if current then AwaitingHit else Refusing)
    case _ => (c, Start)
  }

  function HookMove(c: Control, t: Thread, a: Action): (Control, Thread) {
    match (t, a)
    case (Matched(event, claim), Park(current)) =>
      if claim.None? || !current || !ClaimMatches(claim.value, event, c.target) then (c, Refusing) else
      var (next, valid) := Parked(c, event, claim.value);
      (next, if valid then Held else Refusing)
    case (Held, Expire) => (c, Unparked)
    case (Unparked, Unpark) => (c.(parked := false), Refusing)
    case _ => (c, t)
  }

  function ReaderMove(c: Control, t: Thread, a: Action): (Control, Thread) {
    match (t, a)
    case (Awaiting, Ready(read)) => if c.readyCloses == 0 then (c, t) else (c, if read then Reading else Refusing)
    case (Reading, Report(value, joined, live)) =>
      if !joined then (c, Refusing) else
      var (next, valid) := HitFinished(c, value, live);
      (next, if valid then Returned(Done) else Refusing)
    case (Refusing, Stop) => (c.(err := true), Returned(Failed))
    case (_, Cancel) => (c, if t.Returned? then t else Refusing)
    case _ => (c, t)
  }

  function TerminalMove(c: Control, t: Thread, a: Action): (Control, Thread) {
    match (t, a)
    case (AwaitingHit, Release) =>
      if c.releaseCloses == 0 then (c, t) else
      var (next, valid) := MadeTerminal(c);
      if !valid then (next, Refusing)
      else (next, if c.heartbeat.Some? && c.event.Some? && ClaimMatches(c.heartbeat.value, c.event.value, c.target)
                  then Quiescing else Refusing)
    case (Quiescing, QuiesceHeartbeat(ok)) => (c, if ok then Quiesced else Refusing)
    case (Quiesced, Confirm(live)) => (c, if StillParked(c, live) then Recording else Refusing)
    case (Recorded, WriteFooter(ok)) => (c, if ok then Footed else Refusing)
    case (Footed, Finish(live)) =>
      (c, if StillParked(c, live) && c.terminal && c.reported then Returned(Success) else Refusing)
    case (_, Cancel) => (c, Refusing)
    case _ => (c, t)
  }

  predicate Hooks(t: Thread) { t.Matched? || t.Held? || t.Unparked? }

  predicate Terminates(t: Thread) { t.AwaitingHit? || Owns(t) }

  predicate Owns(t: Thread) { t.Quiescing? || t.Quiesced? || t.Recording? || t.Recorded? || t.Footed? }

  /** The terminal's next report step: begin, check, write, finish. */
  predicate Scripted(tail: Reuse.Tail, a: Reuse.Action) {
    match tail
    case Idle => a == Reuse.Begin(TERMINAL_PHASE, false, true)
    case Reporting(_) => a == Reuse.Check(true)
    case Writing(_, _) => a.Write?
    case Wrote(_) => a.Finish?
    case _ => false
  }

  /** Where the terminal stands once its report reached a new place. */
  function AfterRecord(before: Reuse.Tail, tail: Reuse.Tail): Thread {
    match tail
    case Reported(_) => Recorded
    case Refusing => Refusing
    case Idle => if before.Idle? then Refusing else Recording // the phase was already complete
    case _ => Recording
  }

  function Step(s: System, id: nat, a: Action): (n: System)
    requires |s.reuse.reuse.phases| == Reuse.PHASES
    ensures |n.reuse.reuse.phases| == Reuse.PHASES
  {
    var t := ThreadOf(s, id);
    if a.Record? then
      if t.Start? then s.(reuse := Reuse.Step(s.reuse, id, a.report))
      else if t.Recording? && Scripted(Reuse.TailOf(s.reuse, id), a.report) then
        var r := Reuse.Step(s.reuse, id, a.report);
        s.(reuse := r, threads := s.threads[id := AfterRecord(Reuse.TailOf(s.reuse, id), Reuse.TailOf(r, id))])
      else s
    else if t.Start? && !Reuse.TailOf(s.reuse, id).Idle? then s
    else
      var (c, u) := if t.Start? then Enter(s.control, a) else if Hooks(t) then HookMove(s.control, t, a)
                    else if Terminates(t) then TerminalMove(s.control, t, a) else ReaderMove(s.control, t, a);
      s.(control := c, threads := s.threads[id := u],
         hook := if t.Matched? && u.Held? then Some(id) else s.hook,
         owner := if c.terminal && !s.control.terminal then Some(id) else s.owner,
         matched := if u.Matched? then s.matched + {id} else s.matched,
         quiesced := s.quiesced || (t.Quiescing? && u.Quiesced?),
         footers := if t.Recorded? && a.WriteFooter? then s.footers + 1 else s.footers)
  }

  function Run(moves: seq<(nat, Action)>): (s: System)
    ensures |s.reuse.reuse.phases| == Reuse.PHASES
  {
    if moves == [] then Idle()
    else Step(Run(moves[..|moves| - 1]), moves[|moves| - 1].0, moves[|moves| - 1].1)
  }

  // ---- what every interleaving keeps

  ghost predicate Sound(c: Control) {
    && (c.heartbeat.Some? <==> c.event.Some?) && (c.parked ==> c.event.Some?)
    && c.readyCloses == (if c.event.Some? then 1 else 0) && c.releaseCloses == (if c.reported then 1 else 0)
    && (c.event.Some? ==> c.armed && ClaimMatches(c.heartbeat.value, c.event.value, c.target))
    && (c.reported ==> c.reading && c.event.Some? && c.observed.Some? && c.observed.value.token == c.event.value.token)
    && (c.terminal ==> c.reported)
  }

  ghost predicate Completed(s: System) {
    |s.reuse.reuse.phases| == Reuse.PHASES && s.reuse.reuse.phases[TERMINAL_PHASE - 1].complete
  }

  ghost predicate ThreadFits(s: System, id: nat, t: Thread) {
    && (id in s.matched ==> Hooks(t) || t.Refusing? || t == Returned(Failed))
    && (Hooks(t) ==> id in s.matched) && (t.Matched? ==> s.control.armed)
    && (t.Held? || t.Unparked? ==> s.hook == Some(id) && s.control.parked)
    && (Owns(t) || t == Returned(Success) ==> s.owner == Some(id) && s.control.terminal)
    && (t.Quiesced? || t.Recording? || t.Recorded? || t.Footed? || t == Returned(Success) ==> s.quiesced)
    && (t.Recorded? || t.Footed? || t == Returned(Success) ==> Completed(s))
    && (t.AwaitingHit? || t.Quiescing? || t.Quiesced? ==> Reuse.TailOf(s.reuse, id).Idle?)
    && (t == Returned(Failed) ==> s.control.err)
  }

  /** The owner's report is the terminal phase's. */
  ghost predicate ReportFits(tail: Reuse.Tail, t: Thread) {
    t.Recording? ==> tail.Idle? || (Reuse.Holds(tail) == TERMINAL_PHASE)
  }

  predicate PastFooter(t: Thread) {
    t.Footed? || t.Refusing? || t.Returned?
  }

  ghost predicate FooterFits(s: System) {
    && s.footers <= 1 && (s.quiesced ==> s.control.terminal)
    && (s.footers == 1 ==> s.quiesced && s.owner.Some? && PastFooter(ThreadOf(s, s.owner.value)) && Completed(s))
  }

  ghost predicate HookFits(s: System) {
    s.control.parked ==>
      s.hook.Some? && (ThreadOf(s, s.hook.value).Held? || ThreadOf(s, s.hook.value).Unparked?)
  }

  ghost predicate Inv(s: System) {
    && Reuse.Inv(s.reuse) && Sound(s.control) && FooterFits(s) && HookFits(s)
    && (s.owner.Some? <==> s.control.terminal)
    && s.matched <= s.threads.Keys
    && (forall id | id in s.threads :: ThreadFits(s, id, s.threads[id]) && ReportFits(Reuse.TailOf(s.reuse, id), s.threads[id]))
  }

  /** What a control step may do to what others rely on. */
  ghost predicate Advances(c: Control, d: Control) {
    && (c.armed ==> d.armed && d.target == c.target) && (c.event.Some? ==> d.event == c.event && d.heartbeat == c.heartbeat)
    && (c.reported ==> d.reported && d.observed == c.observed) && (c.terminal ==> d.terminal) && (c.err ==> d.err)
  }

  lemma EnterKeeps(c: Control, a: Action)
    requires Sound(c)
    ensures var (d, u) := Enter(c, a);
      && Sound(d) && Advances(c, d) && d.terminal == c.terminal && d.parked == c.parked && (u.Matched? ==> d.armed)
      && (u.Start? || u.Matched? || u.Awaiting? || u.AwaitingHit? || u.Refusing? || u == Returned(Passed) || u == Returned(Done))
  {}

  lemma HookKeeps(c: Control, t: Thread, a: Action)
    requires Sound(c) && Hooks(t) && (t.Matched? ==> c.armed) && (t.Held? || t.Unparked? ==> c.parked)
    ensures var (d, u) := HookMove(c, t, a);
      && Sound(d) && Advances(c, d) && d.terminal == c.terminal
      && (u == t || (t.Matched? && u.Held? && !c.parked) || (t.Held? && u.Unparked?) || u.Refusing?)
      && d.parked == (if t.Matched? && u.Held? then true else if t.Unparked? && u.Refusing? then false else c.parked)
  {}

  lemma ReaderKeeps(c: Control, t: Thread, a: Action)
    requires Sound(c) && !t.Start? && !Hooks(t) && !Terminates(t) && (t == Returned(Failed) ==> c.err)
    ensures var (d, u) := ReaderMove(c, t, a);
      && Sound(d) && Advances(c, d) && d.terminal == c.terminal && d.parked == c.parked
      && (u == t || u.Reading? || u.Refusing? || u == Returned(Done) || (u == Returned(Failed) && t.Refusing? && d.err))
      && (t.Refusing? ==> u == t || u == Returned(Failed)) && (t.Returned? ==> u == t)
  {}

  lemma TerminalKeeps(c: Control, t: Thread, a: Action)
    requires Sound(c) && Terminates(t) && (Owns(t) ==> c.terminal)
    ensures var (d, u) := TerminalMove(c, t, a);
      && Sound(d) && Advances(c, d) && d.parked == c.parked
      && (d.terminal != c.terminal ==> t.AwaitingHit? && (u.Quiescing? || u.Refusing?))
      && (u == t || u.Refusing? || (t.AwaitingHit? && u.Quiescing? && d.terminal && !c.terminal)
          || (t.Quiescing? && u.Quiesced?) || (t.Quiesced? && u.Recording?) || (t.Recorded? && u.Footed?)
          || (t.Footed? && u == Returned(Success)))
      && (t.Recorded? && a.WriteFooter? ==> u.Footed? || u.Refusing?)
  {}

  /** One step of the control, whoever makes it. */
  lemma ControlKeeps(s: System, id: nat, a: Action)
    requires Inv(s) && !a.Record?
    ensures var n := Step(s, id, a);
      && Sound(n.control) && Advances(s.control, n.control) && n.reuse == s.reuse
      && (n.control.terminal != s.control.terminal ==> n.owner == Some(id))
      && (n.control.terminal == s.control.terminal ==> n.owner == s.owner)
  {
    var t := ThreadOf(s, id);
    if t.Start? { EnterKeeps(s.control, a); }
    else if Hooks(t) { HookKeeps(s.control, t, a); }
    else if Terminates(t) { TerminalKeeps(s.control, t, a); }
    else { ReaderKeeps(s.control, t, a); }
  }

  ghost predicate Landed(n: System, id: nat) {
    id in n.threads ==> ThreadFits(n, id, n.threads[id]) && ReportFits(Reuse.TailOf(n.reuse, id), n.threads[id])
  }

  lemma EntrantLands(s: System, id: nat, a: Action)
    requires Inv(s) && !a.Record? && ThreadOf(s, id).Start?
    ensures Landed(Step(s, id, a), id)
  {
    var t := ThreadOf(s, id);
    if id in s.threads { assert ThreadFits(s, id, t); }
    EnterKeeps(s.control, a);
  }

  lemma ParkLands(s: System, id: nat, a: Action)
    requires Inv(s) && !a.Record? && ThreadOf(s, id).Matched?
    ensures Landed(Step(s, id, a), id)
  {
    assert ThreadFits(s, id, ThreadOf(s, id));
    HookKeeps(s.control, ThreadOf(s, id), a);
  }

  lemma UnparkLands(s: System, id: nat, a: Action)
    requires Inv(s) && !a.Record? && (ThreadOf(s, id).Held? || ThreadOf(s, id).Unparked?)
    ensures Landed(Step(s, id, a), id)
  {
    assert ThreadFits(s, id, ThreadOf(s, id));
    HookKeeps(s.control, ThreadOf(s, id), a);
  }

  lemma TerminalLands(s: System, id: nat, a: Action)
    requires Inv(s) && !a.Record? && Terminates(ThreadOf(s, id))
    ensures Landed(Step(s, id, a), id)
  {
    var t := ThreadOf(s, id);
    if id in s.threads { assert ThreadFits(s, id, t); }
    TerminalKeeps(s.control, t, a);
  }

  lemma ReaderLands(s: System, id: nat, a: Action)
    requires Inv(s) && !a.Record? && !ThreadOf(s, id).Start? && !Hooks(ThreadOf(s, id)) && !Terminates(ThreadOf(s, id))
    ensures Landed(Step(s, id, a), id)
  {
    var t := ThreadOf(s, id);
    if id in s.threads { assert ThreadFits(s, id, t); }
    ReaderKeeps(s.control, t, a);
  }

  /** The moving thread afterwards. */
  lemma MoverFits(s: System, id: nat, a: Action)
    requires Inv(s) && !a.Record?
    ensures Landed(Step(s, id, a), id)
  {
    var t := ThreadOf(s, id);
    if t.Start? { EntrantLands(s, id, a); }
    else if t.Matched? { ParkLands(s, id, a); }
    else if Hooks(t) { UnparkLands(s, id, a); }
    else if Terminates(t) { TerminalLands(s, id, a); }
    else { ReaderLands(s, id, a); }
  }

  /** A thread that did not move. */
  lemma OthersFit(s: System, id: nat, a: Action, i: nat)
    requires Inv(s) && !a.Record? && i in s.threads && i != id
    ensures Landed(Step(s, id, a), i)
  {
    var t := ThreadOf(s, id);
    ControlKeeps(s, id, a);
    assert ThreadFits(s, i, s.threads[i]);
    if id in s.threads { assert ThreadFits(s, id, t); }
    if t.Start? { EnterKeeps(s.control, a); }
    else if Hooks(t) { HookKeeps(s.control, t, a); }
    else if Terminates(t) { TerminalKeeps(s.control, t, a); }
    else { ReaderKeeps(s.control, t, a); }
  }

  /** The footer after a control step. */
  lemma FooterKeeps(s: System, id: nat, a: Action)
    requires Inv(s) && !a.Record?
    ensures FooterFits(Step(s, id, a))
  {
    var t := ThreadOf(s, id);
    ControlKeeps(s, id, a);
    if id in s.threads { assert ThreadFits(s, id, t); }
    if t.Start? { EnterKeeps(s.control, a); }
    else if Hooks(t) { HookKeeps(s.control, t, a); }
    else if Terminates(t) { TerminalKeeps(s.control, t, a); }
    else { ReaderKeeps(s.control, t, a); }
  }

  lemma HookStaysOnItsMove(s: System, id: nat, a: Action)
    requires Inv(s) && !a.Record? && Hooks(ThreadOf(s, id))
    ensures HookFits(Step(s, id, a))
  {
    var t := ThreadOf(s, id);
    assert ThreadFits(s, id, t);
    HookKeeps(s.control, t, a);
  }

  lemma HookStaysBeside(s: System, id: nat, a: Action)
    requires Inv(s) && !a.Record? && !Hooks(ThreadOf(s, id))
    ensures HookFits(Step(s, id, a))
  {
    var t := ThreadOf(s, id);
    if id in s.threads { assert ThreadFits(s, id, t); }
    if t.Start? { EnterKeeps(s.control, a); }
    else if Terminates(t) { TerminalKeeps(s.control, t, a); }
    else { ReaderKeeps(s.control, t, a); }
  }

  /** The parked hook after a control step. */
  lemma HookStays(s: System, id: nat, a: Action)
    requires Inv(s) && !a.Record?
    ensures HookFits(Step(s, id, a))
  {
    if Hooks(ThreadOf(s, id)) { HookStaysOnItsMove(s, id, a); } else { HookStaysBeside(s, id, a); }
  }

  /** One step of the terminal's scripted report. */
  lemma ScriptKeeps(r: Reuse.System, id: nat, a: Reuse.Action)
    requires Reuse.Inv(r) && Scripted(Reuse.TailOf(r, id), a)
    requires Reuse.TailOf(r, id).Idle? || Reuse.Holds(Reuse.TailOf(r, id)) == TERMINAL_PHASE
    ensures var n := Reuse.Step(r, id, a); var tail := Reuse.TailOf(n, id);
      && (tail.Idle? || tail.Refusing? || Reuse.Holds(tail) == TERMINAL_PHASE || tail == Reuse.Reported(TERMINAL_PHASE))
      && (tail.Reported? ==> n.reuse.phases[TERMINAL_PHASE - 1].complete)
  {
    Reuse.StepKeeps(r, id, a);
    var n := Reuse.Step(r, id, a);
    assert Reuse.TailFits(TERMINAL_PHASE, n.reuse.phases[TERMINAL_PHASE - 1], Reuse.TailOf(n, id));
  }

  lemma RecordLands(s: System, id: nat, a: Action, i: nat)
    requires Inv(s) && a.Record? && i in s.threads
    requires Completed(s) ==> Completed(Step(s, id, a))
    ensures Landed(Step(s, id, a), i)
  {
    assert Landed(s, i);
    if i == id && ThreadOf(s, id).Recording? && Scripted(Reuse.TailOf(s.reuse, id), a.report) {
      ScriptKeeps(s.reuse, id, a.report);
    }
  }

  lemma RecordCompleted(s: System, id: nat, a: Action)
    requires Inv(s) && a.Record?
    ensures Reuse.Inv(Step(s, id, a).reuse) && (Completed(s) ==> Completed(Step(s, id, a)))
  {
    Reuse.StepKeeps(s.reuse, id, a.report);
    var k := TERMINAL_PHASE - 1;
    assert Reuse.Frozen(k + 1, s.reuse.reuse.phases[k], Reuse.Step(s.reuse, id, a.report).reuse.phases[k],
                        Reuse.TailOf(s.reuse, id), a.report);
  }

  lemma RecordKeeps(s: System, id: nat, a: Action)
    requires Inv(s) && a.Record?
    ensures Inv(Step(s, id, a))
  {
    var n := Step(s, id, a);
    RecordCompleted(s, id, a);
    forall i | i in n.threads ensures Landed(n, i) {
      RecordLands(s, id, a, i);
    }
    if n.owner.Some? { assert Landed(s, n.owner.value); }
    if n.hook.Some? { assert Landed(s, n.hook.value); }
  }

  lemma StepKeeps(s: System, id: nat, a: Action)
    requires Inv(s)
    ensures Inv(Step(s, id, a)) && Advances(s.control, Step(s, id, a).control)
  {
    if a.Record? {
      RecordKeeps(s, id, a);
    } else {
      ControlKeeps(s, id, a);
      FooterKeeps(s, id, a);
      HookStays(s, id, a);
      var n := Step(s, id, a);
      forall i | i in n.threads ensures Landed(n, i) {
        if i == id { MoverFits(s, id, a); } else { OthersFit(s, id, a, i); }
      }
    }
  }

  lemma {:induction false} RunKeeps(moves: seq<(nat, Action)>)
    ensures Inv(Run(moves))
  {
    if moves != [] {
      var n := |moves| - 1;
      RunKeeps(moves[..n]);
      StepKeeps(Run(moves[..n]), moves[n].0, moves[n].1);
    }
  }

  /** In every run at most one footer is written, and by then the hook had
      parked, its hit was reported, its heartbeat stopped and the phase had
      exactly one reuse record, of its final lanes; a hook whose event named the
      target never returns but with a failure. */
  lemma FooterMeans(moves: seq<(nat, Action)>, id: nat)
    ensures var s := Run(moves);
      && s.footers <= 1
      && (s.footers == 1 ==>
            && s.control.event.Some? && s.control.reported && s.control.terminal && s.quiesced
            && s.reuse.reuse.phases[TERMINAL_PHASE - 1].complete && s.reuse.reuse.phases[TERMINAL_PHASE - 1].writes == 1
            && s.reuse.reuse.phases[TERMINAL_PHASE - 1].written == s.reuse.reuse.phases[TERMINAL_PHASE - 1].lanes)
      && (id in s.matched && ThreadOf(s, id).Returned? ==> ThreadOf(s, id) == Returned(Failed) && s.control.err)
  {
    RunKeeps(moves);
    var s := Run(moves);
    assert Reuse.PhaseSound(s.reuse.reuse.phases[TERMINAL_PHASE - 1]);
    if id in s.matched { assert ThreadFits(s, id, s.threads[id]); }
  }

  // ---- the same sections, in place

  /** Every section keeps what runs keep; a hook parks with the claim it matched. */
  class Checkpoint {
    var armed: bool
    var target: Place
    var parked: bool
    var heartbeat: Option<Claim>
    var event: Option<Event>
    ghost var readyCloses: nat
    var reading: bool
    var reported: bool
    ghost var releaseCloses: nat
    var observed: Option<Observation>
    var terminal: bool
    var err: bool

    ghost function View(): Control
      reads this
    {
      Control(armed, target, parked, heartbeat, event, readyCloses, reading, reported, releaseCloses, observed, terminal, err)
    }

    constructor ()
      ensures View() == Initial
      ensures Sound(View())
    {
      armed, target, parked, heartbeat, event, readyCloses := false, NoPlace, false, None, None, 0;
      reading, reported, releaseCloses, observed, terminal, err := false, false, 0, None, false, false;
    }

    method Arm(prepared: Place) returns (valid: bool)
      requires Sound(View())
      modifies this
      ensures (View(), valid) == Armed(old(View()), prepared)
      ensures Sound(View()) && Advances(old(View()), View())
    {
      valid := !err && !armed;
      if valid { target, armed := prepared, true; }
    }

    method Park(hit: Event, claim: Claim) returns (valid: bool)
      requires Sound(View()) && armed && ClaimMatches(claim, hit, target)
      modifies this
      ensures (View(), valid) == Parked(old(View()), hit, claim)
      ensures Sound(View()) && Advances(old(View()), View())
    {
      valid := !err && !parked && heartbeat.None?;
      if valid { heartbeat, parked, event, readyCloses := Some(claim), true, Some(hit), readyCloses + 1; }
    }

    method Unpark()
      requires Sound(View())
      modifies this
      ensures View() == old(View()).(parked := false)
      ensures Sound(View()) && Advances(old(View()), View())
    {
      parked := false;
    }

    method ClaimRead() returns (valid: bool)
      requires Sound(View())
      modifies this
      ensures (View(), valid) == Claimed(old(View()))
      ensures Sound(View()) && Advances(old(View()), View())
    {
      valid := !err && armed && !reading;
      if valid { reading := true; }
    }

    method FinishHit(value: Observation, live: bool) returns (valid: bool)
      requires Sound(View())
      modifies this
      ensures (View(), valid) == HitFinished(old(View()), value, live)
      ensures Sound(View()) && Advances(old(View()), View())
    {
      valid := !err && live && parked && reading && !reported && event.Some? && value.hit &&
               value.token == event.value.token && value.checkpoint != 0;
      if valid { observed, reported, releaseCloses := Some(value), true, releaseCloses + 1; }
    }

    method MakeTerminal() returns (valid: bool)
      requires Sound(View())
      modifies this
      ensures (View(), valid) == MadeTerminal(old(View()))
      ensures Sound(View()) && Advances(old(View()), View())
    {
      valid := !err && reported && parked && !terminal;
      if valid { terminal := true; }
    }

    method StopControl() returns (first: bool)
      requires Sound(View())
      modifies this
      ensures View() == old(View()).(err := true) && first == !old(err)
      ensures Sound(View()) && Advances(old(View()), View())
    {
      first := !err;
      err := true;
    }
  }
}
