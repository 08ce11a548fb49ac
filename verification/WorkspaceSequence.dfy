/** The workspace point automaton, the lifecycle steps and the callbacks of each
    server epoch, and why the report budgets never refuse what they admit. */
module WorkspaceSequence {
  import opened Wrappers
  import W = WorkspaceReports

  datatype Name = Start | Normalized | Ballast | Finish | Removed | Prepared | ArchiveFinish

  datatype Path =
    | Park | NormalDrive | NormalRead | CollectRead | RefuseRead | LatchedRead
    | RecoveryDrive | RecoveryRead | ResumedRead | FreshDrive | FreshRead

  datatype Mark = Point(phase: nat, name: Name) | Command(path: Path)

  // ---- the tables

  /** A position: its phase, the lifecycle step it needs and its name. */
  function PhaseEightOn(ordinal: nat): Option<(nat, nat, Name)> {
    var sequence := [
      (9, 1, Start), (9, 3, Normalized), (9, 3, Ballast), (9, 4, Finish),
      (10, 4, Start), (10, 4, Ballast), (10, 5, Finish),
      (11, 5, Start), (11, 5, Ballast), (11, 6, Removed), (11, 9, Finish)];
    if ordinal < |sequence| then Some(sequence[ordinal]) else None
  }

  predicate PointMatches(epoch: nat, point: nat, phase: nat, step: nat, name: Name) {
    match epoch
    case 1 =>
      step == 0 &&
      ((name == Finish && ((point == 0 && phase == 2) || (point == 1 && phase == 3) || (point == 3 && phase == 4)))
       || (name == Start && point == 2 && phase == 4))
    case 2 => step == 0 && point == 0 && name == Finish && phase == 5
    case 3 =>
      var sequence := [(6, Finish), (7, Start), (7, Prepared), (7, Finish), (8, Start), (8, Prepared)];
      step == 0 && point < |sequence| && sequence[point] == (phase, name)
    case 4 =>
      if phase == 8 then step <= 1 && point == 0 && name == Finish
      else point > 0 && PhaseEightOn(point - 1) == Some((phase, step, name))
    case 5 =>
      var sequence := [(12, 1, ArchiveFinish), (13, 1, Start), (13, 3, Finish), (14, 3, Start), (14, 3, Finish)];
      point < |sequence| && sequence[point] == (phase, step, name)
    case _ => false
  }

  /** The points a lifecycle command needs behind it. */
  predicate Precedes(epoch: nat, point: nat, path: Path) {
    if epoch == 5 then (path == FreshDrive || path == FreshRead) ==> point == 2
    else
      var p := if epoch == 4 && point > 0 then point - 1 else point;
      match path
      case NormalDrive => p == 1
      case NormalRead => p == 1
      case CollectRead => p == 3
      case RefuseRead => p == 6
      case LatchedRead => p == 9
      case RecoveryDrive => p == 10
      case RecoveryRead => p == 10
      case ResumedRead => p == 10
      case _ => true
  }

  predicate Expected(epoch: nat, initial: nat, point: nat, step: nat, path: Path, phase: nat) {
    && Precedes(epoch, point, path)
    && if step == 0 then path == Park && phase == initial
       else if epoch == 4 then
         (match step
          case 1 => path == NormalDrive && phase == 9
          case 2 => path == NormalRead && phase == 9
          case 3 => path == CollectRead && phase == 9
          case 4 => path == RefuseRead && phase == 10
          case 5 => path == LatchedRead && phase == 11
          case 6 => path == RecoveryDrive && phase == 11
          case 7 => path == RecoveryRead && phase == 11
          case 8 => path == ResumedRead && phase == 11
          case _ => false)
       else if epoch == 5 then (step == 1 && path == FreshDrive && phase == 13) || (step == 2 && path == FreshRead && phase == 13)
       else false
  }

  /** How often a command's native work may ask for a sample. */
  function Turns(path: Path): nat {
    match path
    case NormalDrive => W.TURNS
    case RecoveryDrive => W.TURNS
    case FreshDrive => W.TURNS
    case CollectRead => 1
    case RefuseRead => 1
    case LatchedRead => 1
    case ResumedRead => 1
    case _ => 0
  }

  // ---- failure-free runs

  /** `spent` are the samples native work took in phases 9, 10, 11 and 13. */
  datatype Control = Control(
    epoch: nat, initial: nat, point: nat, step: nat, busy: Option<Path>, turns: nat, spent9: nat, spent10: nat,
    spent11: nat, spent13: nat, warm: bool, reports: W.Reports, log: seq<Mark>)

  datatype Action =
    | Sample(phase: nat, name: Name)
    | Begin(path: Path, phase: nat)
    | Capacity
    | End
    | WarmStart
    | PhysicalAuthor
    | MarkerHit

  function PathPhase(path: Path): nat {
    match path
    case NormalDrive => 9
    case NormalRead => 9
    case CollectRead => 9
    case RefuseRead => 10
    case FreshDrive => 13
    case FreshRead => 13
    case _ => 11
  }

  /** The phase an action samples in; 0 for those that do not. */
  function SamplePhase(s: Control, a: Action): nat {
    match a
    case Sample(phase, _) => phase
    case Capacity => if s.busy.Some? then PathPhase(s.busy.value) else 0
    case WarmStart => 3
    case PhysicalAuthor => 4
    case MarkerHit => 6
    case _ => 0
  }

  /** What the control lets through, with phases that only move forward,
      callbacks delivered once and native work within its turns. The physical
      callback is only configured together with the warm-start callback, whose
      failure ends the phase channel before the fourth phase. */
  predicate Admitted(s: Control, a: Action) {
    && (SamplePhase(s, a) != 0 ==> SamplePhase(s, a) >= s.reports.phase)
    && match a
       case Sample(phase, name) => s.busy.None? && PointMatches(s.epoch, s.point, phase, s.step, name)
       case Begin(path, phase) => s.busy.None? && Expected(s.epoch, s.initial, s.point, s.step, path, phase)
       case Capacity => s.busy.Some? && s.turns < Turns(s.busy.value)
       case End => s.busy.Some?
       case WarmStart => s.epoch == 1 && s.busy.None? && s.point == 1 && s.step == 0 && !s.warm
       case PhysicalAuthor => s.epoch == 1 && s.busy.None? && s.point == 3 && s.step == 0 && s.warm && !s.reports.physical
       case MarkerHit => s.epoch == 3 && s.busy.None? && s.point == 0 && s.step == 0 && !s.reports.marker
  }

  /** One pair of records. */
  function Pair(r: W.Reports, phase: nat): (n: W.Reports)
    requires |r.counts| == W.SLOTS
    ensures |n.counts| == W.SLOTS
  {
    W.Completed(W.Begun(r, phase, true, true), 0, 0, true)
  }

  predicate MayPair(r: W.Reports, phase: nat)
    requires |r.counts| == W.SLOTS
  {
    W.MayBegin(r, phase)
  }

  function Reopen(r: W.Reports): (n: W.Reports)
    requires |r.counts| == W.SLOTS
    ensures |n.counts| == W.SLOTS
  {
    W.ReopenedReport(r, true)
  }

  function Moved(s: Control, a: Action): (n: Control)
    requires |s.reports.counts| == W.SLOTS
    ensures |n.reports.counts| == W.SLOTS
  {
    match a
    case Sample(phase, name) =>
      s.(point := s.point + 1, reports := Pair(s.reports, phase), log := s.log + [Point(phase, name)])
    case Begin(path, _) => s.(busy := Some(path), turns := 0)
    case Capacity =>
      if s.busy.None? then s
      else
        var phase := PathPhase(s.busy.value);
        var n := s.(turns := s.turns + 1, reports := Pair(s.reports, phase));
        if phase == 9 then n.(spent9 := s.spent9 + 1) else if phase == 10 then n.(spent10 := s.spent10 + 1)
        else if phase == 11 then n.(spent11 := s.spent11 + 1) else n.(spent13 := s.spent13 + 1)
    case End => if s.busy.None? then s else s.(step := s.step + 1, busy := None, turns := 0, log := s.log + [Command(s.busy.value)])
    case WarmStart => s.(warm := true, reports := Pair(s.reports, 3))
    case PhysicalAuthor => s.(reports := Reopen(Pair(s.reports, 4)))
    case MarkerHit => s.(reports := Reopen(Pair(s.reports, 6)))
  }

  function Initial(epoch: nat, initial: nat): Control {
    Control(epoch, initial, 0, 0, None, 0, 0, 0, 0, 0, false, W.Opened(epoch + 1, 0), [])
  }

  /** A failure-free run: every action is admitted and accepted by the reports. */
  function Run(epoch: nat, initial: nat, actions: seq<Action>): (s: Option<Control>)
    ensures s.Some? ==> |s.value.reports.counts| == W.SLOTS
  {
    if actions == [] then Some(Initial(epoch, initial))
    else
      var before := Run(epoch, initial, actions[..|actions| - 1]);
      var a := actions[|actions| - 1];
      if before.None? || !Admitted(before.value, a) || Moved(before.value, a).reports.err then None
      else Some(Moved(before.value, a))
  }

  // ---- what runs keep

  function Clamp(n: int, most: nat): (c: nat)
    ensures c <= most
  {
    if n < 0 then 0 else if n > most then most else n
  }

  function One(b: bool): nat { if b then 1 else 0 }

  predicate CountsEarly(s: Control)
    requires |s.reports.counts| == W.SLOTS
  {
    var c := s.reports.counts;
    match s.epoch
    case 1 =>
      && s.point <= 4 && c[7] == Clamp(s.point, 1) && c[8] == One(s.warm) + Clamp(s.point - 1, 1)
      && c[9] == Clamp(s.point - 2, 2) + One(s.reports.physical)
      && s.reports.sequence == c[7] + c[8] + c[9]
      && (s.warm ==> s.point >= 1) && (s.reports.physical ==> s.point >= 3 && s.warm)
    case 2 => s.point <= 1 && c[10] == s.point
    case 3 =>
      && s.point <= 6 && c[11] == One(s.reports.marker) + Clamp(s.point, 1) && c[12] == Clamp(s.point - 1, 3)
      && c[13] == Clamp(s.point - 4, 2) && (s.point == 0 ==> s.reports.sequence == c[11])
    case _ => true
  }

  predicate CountsLate(s: Control)
    requires |s.reports.counts| == W.SLOTS
  {
    var c := s.reports.counts;
    match s.epoch
    case 4 =>
      && s.point <= 12 && c[14] == Clamp(s.point, 1) && c[0] == Clamp(s.point - 1, 4) + s.spent9
      && c[1] == Clamp(s.point - 5, 3) + s.spent10 && c[2] == Clamp(s.point - 8, 4) + s.spent11
    case 5 =>
      && s.point <= 5 && c[5] == Clamp(s.point, 1) && c[3] == Clamp(s.point - 1, 2) + s.spent13
      && c[6] == Clamp(s.point - 3, 2)
    case _ => true
  }

  /** Native work spent no more than its finished commands and the current one
      allow. */
  predicate Spending(s: Control) {
    var now := if s.busy.Some? then s.turns else 0;
    var phase := if s.busy.Some? then PathPhase(s.busy.value) else 0;
    && (s.busy.Some? ==> s.turns <= Turns(s.busy.value))
    && s.spent9 <= (if s.step > 1 then W.TURNS else 0) + One(s.step > 3) + (if phase == 9 then now else 0)
    && s.spent10 <= One(s.step > 4) + (if phase == 10 then now else 0)
    && s.spent11 <= One(s.step > 5) + (if s.step > 6 then W.TURNS else 0) + One(s.step > 8) + (if phase == 11 then now else 0)
    && s.spent13 <= (if s.step > 1 then W.TURNS else 0) + (if phase == 13 then now else 0)
  }

  /** The command under way is the one of its step. */
  predicate Busy(s: Control) {
    s.busy.Some? ==>
      if s.step == 0 then s.busy.value == Park
      else if s.epoch == 4 then s.step <= 8 &&
        s.busy.value == [NormalDrive, NormalRead, CollectRead, RefuseRead, LatchedRead, RecoveryDrive, RecoveryRead, ResumedRead][s.step - 1]
      else s.epoch == 5 && s.step <= 2 && s.busy.value == [FreshDrive, FreshRead][s.step - 1]
  }

  predicate Quiet(s: Control) {
    |s.reports.counts| == W.SLOTS && !s.reports.err && !s.reports.pending && s.reports.archive == 0 && s.reports.producer == s.epoch + 1
  }

  predicate Sound(s: Control) {
    Quiet(s) && 1 <= s.epoch <= 5 && CountsEarly(s) && CountsLate(s) && Spending(s) && Busy(s)
  }

  /** No admitted sample is refused by a budget, in any epoch. */
  lemma NeverOverBudget(s: Control, a: Action)
    requires Sound(s) && Admitted(s, a) && SamplePhase(s, a) != 0
    ensures MayPair(s.reports, SamplePhase(s, a))
  {}

  /** The reports after one more pair in a phase. */
  ghost predicate Paired(r: W.Reports, n: W.Reports, phase: nat)
    requires |r.counts| == W.SLOTS
  {
    var slot := W.SampleSlot(r.producer, phase, r.archive);
    && slot.Some? && slot.value.0 < W.SLOTS && n.counts == r.counts[slot.value.0 := r.counts[slot.value.0] + 1]
    && n.sequence == r.sequence + 1 && n.phase == phase && !n.err && !n.pending
    && n.producer == r.producer && n.archive == r.archive && n.physical == r.physical && n.marker == r.marker
  }

  lemma PairMeans(r: W.Reports, phase: nat)
    requires |r.counts| == W.SLOTS && MayPair(r, phase)
    ensures Paired(r, Pair(r, phase), phase)
  {}

  lemma SampleCountsEarly(s: Control, phase: nat, name: Name, n: W.Reports)
    requires Sound(s) && Admitted(s, Sample(phase, name)) && Paired(s.reports, n, phase) && s.epoch <= 3
    ensures var m := Moved(s, Sample(phase, name)).(reports := n); CountsEarly(m) && CountsLate(m)
  {}

  lemma SampleCountsLate(s: Control, phase: nat, name: Name, n: W.Reports)
    requires Sound(s) && Admitted(s, Sample(phase, name)) && Paired(s.reports, n, phase) && s.epoch >= 4
    ensures var m := Moved(s, Sample(phase, name)).(reports := n); CountsEarly(m) && CountsLate(m)
  {}

  lemma SampleRest(s: Control, phase: nat, name: Name, n: W.Reports)
    requires Sound(s) && Paired(s.reports, n, phase)
    ensures var m := Moved(s, Sample(phase, name)).(reports := n); Quiet(m) && Spending(m) && Busy(m)
  {}

  lemma SampleKeeps(s: Control, phase: nat, name: Name)
    requires Sound(s) && Admitted(s, Sample(phase, name))
    ensures Sound(Moved(s, Sample(phase, name)))
  {
    NeverOverBudget(s, Sample(phase, name));
    var n := Pair(s.reports, phase);
    PairMeans(s.reports, phase);
    SampleRest(s, phase, name, n);
    if s.epoch <= 3 { SampleCountsEarly(s, phase, name, n); } else { SampleCountsLate(s, phase, name, n); }
    assert Moved(s, Sample(phase, name)) == Moved(s, Sample(phase, name)).(reports := n);
  }

  lemma CapacityCounts(s: Control, n: W.Reports)
    requires Sound(s) && Admitted(s, Capacity) && Paired(s.reports, n, SamplePhase(s, Capacity))
    ensures CountsLate(Moved(s, Capacity).(reports := n)) && CountsEarly(Moved(s, Capacity).(reports := n))
  {
    if s.epoch == 4 {
      assert s.step <= 8 && Turns(s.busy.value) > 0;
    } else {
      assert s.epoch == 5 && s.busy.value == FreshDrive;
    }
  }

  lemma CapacityRest(s: Control, n: W.Reports)
    requires Sound(s) && Admitted(s, Capacity) && Paired(s.reports, n, SamplePhase(s, Capacity))
    ensures var m := Moved(s, Capacity).(reports := n); Quiet(m) && Spending(m) && Busy(m)
  {}

  lemma CapacityKeeps(s: Control)
    requires Sound(s) && Admitted(s, Capacity)
    ensures Sound(Moved(s, Capacity))
  {
    NeverOverBudget(s, Capacity);
    var n := Pair(s.reports, SamplePhase(s, Capacity));
    PairMeans(s.reports, SamplePhase(s, Capacity));
    CapacityCounts(s, n);
    CapacityRest(s, n);
    assert Moved(s, Capacity) == Moved(s, Capacity).(reports := n);
  }

  lemma CommandKeeps(s: Control, a: Action)
    requires Sound(s) && Admitted(s, a) && (a.Begin? || a.End?)
    ensures Sound(Moved(s, a))
  {}

  lemma CallbackKeeps(s: Control, a: Action)
    requires Sound(s) && Admitted(s, a) && (a.WarmStart? || a.PhysicalAuthor? || a.MarkerHit?)
    ensures !Moved(s, a).reports.err && Sound(Moved(s, a))
  {
    NeverOverBudget(s, a);
    PairMeans(s.reports, SamplePhase(s, a));
  }

  lemma MovedKeeps(s: Control, a: Action)
    requires Sound(s) && Admitted(s, a)
    ensures !Moved(s, a).reports.err && Sound(Moved(s, a))
  {
    match a
    case Sample(phase, name) => SampleKeeps(s, phase, name);
    case Capacity => CapacityKeeps(s);
    case Begin(_, _) => CommandKeeps(s, a);
    case End => CommandKeeps(s, a);
    case _ => CallbackKeeps(s, a);
  }

  /** In every run of every epoch the reports accept everything the control
      admits: samples are within their budgets and reopenings are due. */
  lemma {:induction false} AdmittedIsAccepted(epoch: nat, initial: nat, actions: seq<Action>, a: Action)
    requires 1 <= epoch <= 5 && Run(epoch, initial, actions).Some? && Admitted(Run(epoch, initial, actions).value, a)
    ensures Sound(Run(epoch, initial, actions).value)
    ensures var s := Run(epoch, initial, actions).value;
      && (SamplePhase(s, a) != 0 ==> MayPair(s.reports, SamplePhase(s, a)))
      && !Moved(s, a).reports.err && Run(epoch, initial, actions + [a]) == Some(Moved(s, a))
  {
    RunKeeps(epoch, initial, actions);
    var s := Run(epoch, initial, actions).value;
    MovedKeeps(s, a);
    if SamplePhase(s, a) != 0 { NeverOverBudget(s, a); }
    assert (actions + [a])[..|actions|] == actions;
  }

  lemma {:induction false} RunKeeps(epoch: nat, initial: nat, actions: seq<Action>)
    requires 1 <= epoch <= 5 && Run(epoch, initial, actions).Some?
    ensures Sound(Run(epoch, initial, actions).value)
  {
    if actions != [] {
      RunKeeps(epoch, initial, actions[..|actions| - 1]);
      MovedKeeps(Run(epoch, initial, actions[..|actions| - 1]).value, actions[|actions| - 1]);
    }
  }

  // ---- one order per epoch

  /** The marks of an epoch in their order; the fourth begins after its park and
      its phase-eight finish, which may come either way round. */
  function Order(epoch: nat): seq<Mark> {
    match epoch
    case 1 => [Point(2, Finish), Point(3, Finish), Point(4, Start), Point(4, Finish)]
    case 2 => [Point(5, Finish)]
    case 3 => [Point(6, Finish), Point(7, Start), Point(7, Prepared), Point(7, Finish), Point(8, Start), Point(8, Prepared)]
    case 4 => [
      Point(9, Start), Command(NormalDrive), Command(NormalRead), Point(9, Normalized), Point(9, Ballast), Command(CollectRead),
      Point(9, Finish), Point(10, Start), Point(10, Ballast), Command(RefuseRead), Point(10, Finish), Point(11, Start),
      Point(11, Ballast), Command(LatchedRead), Point(11, Removed), Command(RecoveryDrive), Command(RecoveryRead),
      Command(ResumedRead), Point(11, Finish)]
    case 5 => [
      Command(Park), Point(12, ArchiveFinish), Point(13, Start), Command(FreshDrive), Command(FreshRead), Point(13, Finish),
      Point(14, Start), Point(14, Finish)]
    case _ => []
  }

  /** Which points the fourth and fifth epochs can have passed at each step. */
  predicate CourseAt(epoch: nat, point: nat, step: nat) {
    match epoch
    case 4 =>
      if point == 0 || step == 0 then point <= 1 && step <= 1
      else
        var q := point - 1;
        (match step
         case 1 => q <= 1 case 2 => q == 1 case 3 => 1 <= q <= 3 case 4 => 3 <= q <= 6 case 5 => 6 <= q <= 9
         case 6 => 9 <= q <= 10 case 7 => q == 10 case 8 => q == 10 case 9 => 10 <= q <= 11 case _ => false)
    case 5 =>
      (match step
       case 0 => point == 0 case 1 => point <= 2 case 2 => point == 2 case 3 => 2 <= point <= 5 case _ => false)
    case _ => step <= 1 && point <= |Order(epoch)|
  }

  predicate OnCourse(s: Control) {
    CourseAt(s.epoch, s.point, s.step)
  }

  predicate BusyOnCourse(s: Control) {
    s.busy.Some? ==> Expected(s.epoch, s.initial, s.point, s.step, s.busy.value, if s.step == 0 then s.initial else PathPhase(s.busy.value))
  }

  function Parked(s: Control): seq<Mark> {
    if s.step > 0 then [Command(Park)] else []
  }

  /** The log is the epoch's order, cut where the run stands. */
  ghost predicate Logged(s: Control)
    requires OnCourse(s)
  {
    match s.epoch
    case 4 =>
      var finish := if s.point > 0 then [Point(8, Finish)] else [];
      var n := if s.point == 0 || s.step == 0 then 0 else s.point + s.step - 2;
      n <= |Order(4)| && (s.log == finish + Parked(s) + Order(4)[..n] || s.log == Parked(s) + finish + Order(4)[..n])
    case 5 => s.point + s.step <= |Order(5)| && s.log == Order(5)[..s.point + s.step]
    case _ => s.log == Order(s.epoch)[..s.point] + Parked(s)
  }

  ghost predicate Ordered(s: Control) {
    1 <= s.epoch <= 5 && OnCourse(s) && BusyOnCourse(s) && Logged(s)
  }

  /** The only mark the fourth epoch admits at a place on its course. */
  lemma FourthNext(s: Control, m: Mark)
    requires s.epoch == 4 && OnCourse(s) && s.point > 0 && s.step > 0
    requires match m
             case Point(phase, name) => PointMatches(4, s.point, phase, s.step, name)
             case Command(path) => Expected(4, s.initial, s.point, s.step, path, PathPhase(path))
    ensures s.point + s.step - 2 < |Order(4)| && Order(4)[s.point + s.step - 2] == m
  {
    if m.Point? { assert PhaseEightOn(s.point - 1) == Some((m.phase, s.step, m.name)); }
  }

  lemma FifthNext(s: Control, m: Mark)
    requires s.epoch == 5 && OnCourse(s)
    requires match m
             case Point(phase, name) => PointMatches(5, s.point, phase, s.step, name)
             case Command(path) => Expected(5, s.initial, s.point, s.step, path, if s.step == 0 then s.initial else PathPhase(path))
    ensures s.point + s.step < |Order(5)| && Order(5)[s.point + s.step] == m
  {}

  /** One more mark of an order. */
  lemma Extends(order: seq<Mark>, n: nat, m: Mark, before: seq<Mark>)
    requires n < |order| && order[n] == m
    ensures before + order[..n] + [m] == before + order[..n + 1]
  {
    assert order[..n + 1] == order[..n] + [m];
  }

  /** What a passed mark does to the place and the log. */
  ghost predicate Passed(s: Control, n: Control, m: Mark) {
    && n.epoch == s.epoch && n.initial == s.initial && n.busy.None? && n.log == s.log + [m]
    && n.point == s.point + One(m.Point?) && n.step == s.step + One(m.Command?)
  }

  /** The fourth epoch's park and phase-eight finish, in either order. */
  lemma FourthStarts(s: Control, n: Control, m: Mark)
    requires Ordered(s) && s.epoch == 4 && (s.point == 0 || s.step == 0) && Passed(s, n, m)
    requires match m
             case Point(phase, name) => PointMatches(4, s.point, phase, s.step, name)
             case Command(path) => exists phase :: Expected(4, s.initial, s.point, s.step, path, phase)
    ensures Ordered(n)
  {
    assert Order(4)[..0] == [];
    assert m == (if m.Point? then Point(8, Finish) else Command(Park));
  }

  lemma FourthGoes(s: Control, n: Control, m: Mark)
    requires Ordered(s) && s.epoch == 4 && s.point > 0 && s.step > 0 && Passed(s, n, m)
    requires match m
             case Point(phase, name) => PointMatches(4, s.point, phase, s.step, name)
             case Command(path) => Expected(4, s.initial, s.point, s.step, path, PathPhase(path))
    ensures Ordered(n)
  {
    FourthNext(s, m);
    var k := s.point + s.step - 2;
    Extends(Order(4), k, m, [Point(8, Finish)] + [Command(Park)]);
    Extends(Order(4), k, m, [Command(Park)] + [Point(8, Finish)]);
    FourthCourse(s, n, m);
  }

  lemma FourthCourse(s: Control, n: Control, m: Mark)
    requires s.epoch == 4 && OnCourse(s) && s.point > 0 && s.step > 0 && Passed(s, n, m)
    requires s.point + s.step - 2 < |Order(4)| && Order(4)[s.point + s.step - 2] == m
    requires m.Point? ==> PointMatches(4, s.point, m.phase, s.step, m.name)
    requires m.Command? ==> Expected(4, s.initial, s.point, s.step, m.path, PathPhase(m.path))
    ensures OnCourse(n)
  {}

  lemma FourthKeeps(s: Control, a: Action)
    requires Ordered(s) && s.epoch == 4 && |s.reports.counts| == W.SLOTS && Admitted(s, a) && (a.Sample? || a.End?)
    ensures Ordered(Moved(s, a))
  {
    var m := if a.Sample? then Point(a.phase, a.name) else Command(s.busy.value);
    if s.point > 0 && s.step > 0 { FourthGoes(s, Moved(s, a), m); } else { FourthStarts(s, Moved(s, a), m); }
  }

  lemma FifthKeeps(s: Control, a: Action)
    requires Ordered(s) && s.epoch == 5 && |s.reports.counts| == W.SLOTS && Admitted(s, a) && (a.Sample? || a.End?)
    ensures Ordered(Moved(s, a))
  {
    var m := if a.Sample? then Point(a.phase, a.name) else Command(s.busy.value);
    FifthNext(s, m);
    Extends(Order(5), s.point + s.step, m, []);
    assert [] + Order(5)[..s.point + s.step] == s.log && [] + Order(5)[..s.point + s.step + 1] == Order(5)[..s.point + s.step + 1];
  }

  lemma EarlyKeeps(s: Control, a: Action)
    requires Ordered(s) && s.epoch <= 3 && |s.reports.counts| == W.SLOTS && Admitted(s, a) && (a.Sample? || a.End?)
    ensures Ordered(Moved(s, a))
  {
    if a.Sample? {
      assert Order(s.epoch)[s.point] == Point(a.phase, a.name);
      Extends(Order(s.epoch), s.point, Point(a.phase, a.name), []);
      assert [] + Order(s.epoch)[..s.point] == Order(s.epoch)[..s.point];
      assert [] + Order(s.epoch)[..s.point + 1] == Order(s.epoch)[..s.point + 1];
    }
  }

  lemma SamePlace(s: Control, n: Control)
    requires Ordered(s) && n.epoch == s.epoch && n.point == s.point && n.step == s.step && n.log == s.log && BusyOnCourse(n)
    ensures Ordered(n)
  {}

  lemma OthersKeep(s: Control, a: Action)
    requires Ordered(s) && |s.reports.counts| == W.SLOTS && Admitted(s, a) && !a.Sample? && !a.End?
    ensures Ordered(Moved(s, a))
  {
    SamePlace(s, Moved(s, a));
  }

  /** Every failure-free run passes its epoch's marks in the one order, however
      many callbacks and native samples fall between them. */
  lemma {:induction false} OneOrder(epoch: nat, initial: nat, actions: seq<Action>)
    requires 1 <= epoch <= 5 && Run(epoch, initial, actions).Some?
    ensures Ordered(Run(epoch, initial, actions).value)
  {
    if actions == [] {
      assert forall e :: Order(e)[..0] == [];
    } else {
      var n := |actions| - 1;
      OneOrder(epoch, initial, actions[..n]);
      var s, a := Run(epoch, initial, actions[..n]).value, actions[n];
      if !a.Sample? && !a.End? { OthersKeep(s, a); }
      else if s.epoch == 4 { FourthKeeps(s, a); }
      else if s.epoch == 5 { FifthKeeps(s, a); }
      else { EarlyKeeps(s, a); }
    }
  }

  // ---- the same automata, in place

  /** A point or a command that is due leads along the epoch's course. */
  lemma CoursePoint(epoch: nat, point: nat, step: nat, phase: nat, name: Name)
    requires 1 <= epoch <= 5 && CourseAt(epoch, point, step) && PointMatches(epoch, point, phase, step, name)
    ensures CourseAt(epoch, point + 1, step)
  {
    if epoch == 4 && phase != 8 { assert PhaseEightOn(point - 1) == Some((phase, step, name)); }
  }

  lemma CourseCommand(epoch: nat, initial: nat, point: nat, step: nat, path: Path, phase: nat)
    requires 1 <= epoch <= 5 && CourseAt(epoch, point, step) && Expected(epoch, initial, point, step, path, phase)
    ensures CourseAt(epoch, point, step + 1)
  {}

  class Lifecycle {
    const epoch: nat
    const initial: nat
    var point: nat
    var step: nat
    var busy: bool
    var err: bool

    /** The place is on the epoch's course. */
    ghost predicate Valid()
      reads this
    {
      1 <= epoch <= 5 && CourseAt(epoch, point, step)
    }

    constructor (epoch: nat, initial: nat)
      requires 1 <= epoch <= 5
      ensures Valid()
      ensures this.epoch == epoch && this.initial == initial && point == 0 && step == 0 && !busy && !err
    {
      this.epoch, this.initial, point, step, busy, err := epoch, initial, 0, 0, false, false;
    }

    method BeginSample(phase: nat, name: Name) returns (ok: bool)
      modifies this`busy
      ensures ok <==> !err && !old(busy) && PointMatches(epoch, point, phase, step, name)
      ensures busy == (old(busy) || ok)
    {
      ok := !err && !busy && PointMatches(epoch, point, phase, step, name);
      if ok { busy := true; }
    }

    /** The position may not have moved meanwhile. */
    method EndSample(phase: nat, name: Name) returns (ok: bool)
      requires Valid()
      modifies this`busy, this`point
      ensures Valid()
      ensures ok <==> !err && old(busy) && PointMatches(epoch, old(point), phase, step, name)
      ensures point == old(point) + One(ok) && busy == (old(busy) && !ok)
    {
      ok := !err && busy && PointMatches(epoch, point, phase, step, name);
      if ok {
        CoursePoint(epoch, point, step, phase, name);
        point, busy := point + 1, false;
      }
    }

    method BeginCommand(path: Path, phase: nat) returns (ok: bool)
      modifies this`busy
      ensures ok <==> !err && !old(busy) && Expected(epoch, initial, point, step, path, phase)
      ensures busy == (old(busy) || ok)
    {
      ok := !err && !busy && Expected(epoch, initial, point, step, path, phase);
      if ok { busy := true; }
    }

    method CompleteCommand(path: Path, phase: nat) returns (ok: bool)
      requires Valid()
      modifies this`busy, this`step
      ensures Valid()
      ensures ok <==> !err && old(busy) && Expected(epoch, initial, point, old(step), path, phase)
      ensures step == old(step) + One(ok) && busy == (old(busy) && !ok)
    {
      ok := !err && busy && Expected(epoch, initial, point, step, path, phase);
      if ok {
        CourseCommand(epoch, initial, point, step, path, phase);
        step, busy := step + 1, false;
      }
    }

    method StopControl()
      modifies this`err
      ensures err
    {
      err := true;
    }
  }

  datatype Owner = Observation | Search | Relationship | OtherOwner

  /** A returned tick: was its owner registered or left out, was it attempted,
      did it fail, what it reported, and whether its record reached the sink. */
  datatype Tick = Tick(known: bool, unnamed: bool, attempted: bool, failed: bool, scanned: int, deleted: int, bytes: int,
                       measured: bool, owner: Owner, sent: bool)

  const CANDIDATES := 64

  function DeleteLimit(owner: Owner): nat {
    match owner
    case Observation => 1_024
    case Search => 64
    case Relationship => 1_024
    case OtherOwner => 16
  }

  const WORD := 0x1_0000_0000_0000_0000

  predicate Counted(t: Tick) { t.attempted && t.known }

  predicate ValidTick(t: Tick) {
    && (t.known || t.unnamed) && t.measured && t.scanned >= 0 && t.deleted >= 0 && t.bytes >= 0
    && (Counted(t) || (!t.attempted && t.failed && t.scanned == 0 && t.deleted == 0 && t.bytes == 0))
  }

  /** After a valid tick is recorded its record is sent, and then its caps are
      checked. */
  predicate Delivered(t: Tick) {
    t.sent && t.scanned <= CANDIDATES && t.deleted <= DeleteLimit(t.owner)
  }

  function OwnerTurns(ticks: seq<Tick>): nat {
    if ticks == [] then 0 else OwnerTurns(ticks[..|ticks| - 1]) + One(Counted(ticks[|ticks| - 1]))
  }

  function DeletedBy(ticks: seq<Tick>): int {
    if ticks == [] then 0
    else DeletedBy(ticks[..|ticks| - 1]) + if Counted(ticks[|ticks| - 1]) then ticks[|ticks| - 1].deleted else 0
  }

  function MostBy(ticks: seq<Tick>): (m: nat)
    ensures forall i | 0 <= i < |ticks| && Counted(ticks[i]) :: ticks[i].deleted <= m
    ensures m == 0 || exists i | 0 <= i < |ticks| :: Counted(ticks[i]) && ticks[i].deleted == m
  {
    if ticks == [] then 0
    else
      var m, t := MostBy(ticks[..|ticks| - 1]), ticks[|ticks| - 1];
      if Counted(t) && t.deleted > m then t.deleted else m
  }

  /** The totals of one drive. */
  datatype Totals = Totals(returned: nat, turns: nat, deleted: nat, most: nat, err: bool)

  /** One returned tick, recorded before anything else can fail. */
  function Observed(p: Totals, t: Tick): Totals {
    if p.returned == W.TURNS then p.(err := true)
    else
      var q := p.(returned := p.returned + 1);
      if !Counted(t) then q.(err := p.err || !ValidTick(t) || !Delivered(t))
      else if t.deleted < 0 || p.deleted + t.deleted >= WORD then q.(turns := p.turns + 1, err := true)
      else q.(turns := p.turns + 1, deleted := p.deleted + t.deleted, most := if t.deleted > p.most then t.deleted else p.most,
              err := p.err || !ValidTick(t) || !Delivered(t))
  }

  function ObservedAll(ticks: seq<Tick>): Totals {
    if ticks == [] then Totals(0, 0, 0, 0, false) else Observed(ObservedAll(ticks[..|ticks| - 1]), ticks[|ticks| - 1])
  }

  predicate AllValid(ticks: seq<Tick>) {
    ticks == [] || (AllValid(ticks[..|ticks| - 1]) && ValidTick(ticks[|ticks| - 1]) && Delivered(ticks[|ticks| - 1]))
  }

  /** Without a fault the totals are those of all ticks, every one of them valid,
      delivered and within the allowances; there is a fault exactly when a tick is
      invalid, undelivered, beyond an allowance, or overflows the sum. */
  lemma {:induction false} TotalsMean(ticks: seq<Tick>)
    ensures var p := ObservedAll(ticks);
      && p.returned <= W.TURNS && p.turns <= p.returned && p.deleted < WORD
      && (!p.err ==> p.returned == |ticks| && p.turns == OwnerTurns(ticks) && p.deleted == DeletedBy(ticks) && p.most == MostBy(ticks))
      && (!p.err <==> |ticks| <= W.TURNS && DeletedBy(ticks) < WORD && AllValid(ticks))
  {
    if ticks != [] {
      var n := |ticks| - 1;
      TotalsMean(ticks[..n]);
    }
  }

  class TurnPrefix {
    var returned: nat
    var turns: nat
    var deleted: nat
    var most: nat
    var err: bool

    ghost function View(): Totals
      reads this
    {
      Totals(returned, turns, deleted, most, err)
    }

    constructor ()
      ensures View() == ObservedAll([])
    {
      returned, turns, deleted, most, err := 0, 0, 0, 0, false;
    }

    method ObserveOwner(t: Tick)
      modifies this
      ensures View() == Observed(old(View()), t)
    {
      if returned == W.TURNS {
        err := true;
        return;
      }
      returned := returned + 1;
      var valid := ValidTick(t);
      if t.attempted && t.known {
        turns := turns + 1;
        if t.deleted >= 0 && deleted + t.deleted < WORD {
          deleted := deleted + t.deleted;
          if t.deleted > most { most := t.deleted; }
        } else {
          valid := false;
        }
      }
      if !valid {
        err := true;
        return;
      }
      if !t.sent || t.scanned > CANDIDATES || t.deleted > DeleteLimit(t.owner) { err := true; }
    }
  }
}
