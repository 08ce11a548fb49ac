/** Tail readiness: a poll that says "ready" only when the selected relationship
    is still the one published and a current caller resolves it, and says
    "pending" for everything that only has to be waited for. */
module TailReadiness {
  import opened Registers
  import opened Wrappers

  // Digests and names are numbers; 0 stands for the empty string.

  datatype Pointer = Pointer(generation: nat, root: nat)

  datatype Selector = Selector(
    repository: nat, v3: bool, relationship: Pointer, catalogRoot: nat, catalogRevision: nat,
    stateSummary: nat, stateRevision: nat, digest: nat)

  datatype Relationship = Relationship(
    pointer: Pointer, repository: nat, catalogRoot: nat, catalogRevision: nat, stateSummary: nat, stateRevision: nat,
    namespace: Pointer, observation: nat, required: seq<nat>, domains: seq<Domain>)

  /** A resolver namespace: whose it is and the catalog it resolves. */
  datatype Namespace = Namespace(repository: nat, catalog: Pointer)

  datatype Caller = Caller(repository: nat, resolver: Pointer, generation: nat, manifest: nat)

  /** `policy` is a domain's name and version. */
  datatype Domain = Domain(policy: nat, authority: nat)

  datatype Status = Active | Settled | OtherStatus
  datatype Schedule = Schedule(status: Status, failed: nat, rest: nat)
  datatype Publication = Publication(resolver: Pointer)
  datatype CatalogPointer = CatalogPointer(repository: nat, root: nat, revision: nat)
  datatype Summary = Summary(valid: bool, repository: nat, catalog: nat, catalogRevision: nat, summary: nat, revision: nat)

  datatype Register =
    | SelectorAt
    | PointerAt
    | GenerationAt(pointer: Pointer)     // an immutable generation, until it is retired
    | NamespaceAt(pointer: Pointer)
    | CallerAt
    | CallerCurrentAt(caller: Caller)    // whether the store holds it to be current
    | ScheduleAt
    | ObservationAt
    | DomainAt(policy: nat)
    | PublicationAt
    | PublicationCurrentAt(publication: Publication)
    | CatalogPointerAt
    | SummaryAt

  datatype Cell =
    | Missing
    | SelectorIs(selector: Selector)
    | PointerIs(pointer: Pointer)
    | GenerationIs(relationship: Relationship)
    | NamespaceIs(namespace: Namespace)
    | CallerIs(caller: Caller)
    | Flag(flag: bool)
    | ScheduleIs(schedule: Schedule)
    | ObservationIs(observation: nat)
    | DomainIs(authority: nat)
    | PublicationIs(publication: Publication)
    | CatalogPointerIs(catalog: CatalogPointer)
    | SummaryIs(summary: Summary)

  datatype Error = StoreNotFound | RelationshipNotFound | NamespaceNotFound | Conflict | Publishing | Failed

  /** What a read at an instant may meet besides the register's content. */
  datatype Fault = NoFault | Busy | Broken

  datatype World = World(repository: nat, policies: seq<nat>, held: (nat, Register) -> Cell, fault: nat -> Fault)

  datatype Outcome<T> = Ok(value: T) | Err(error: Error)

  function NotFound(r: Register): Error {
    match r
    case PointerAt => RelationshipNotFound
    case GenerationAt(_) => RelationshipNotFound
    case NamespaceAt(_) => NamespaceNotFound
    case _ => StoreNotFound
  }

  function Get(w: World, t: nat, r: Register): Outcome<Cell> {
    match w.fault(t)
    case Broken => Err(Failed)
    case Busy => Err(if r.PointerAt? || r.GenerationAt? then Publishing else Conflict)
    case NoFault => if w.held(t, r) == Missing then Err(NotFound(r)) else Ok(w.held(t, r))
  }

  /** The errors a caller is told to poll again for. */
  predicate Pollable(e: Error) {
    e == StoreNotFound || e == Conflict || e == RelationshipNotFound || e == Publishing
  }

  datatype Answer =
    | Pending
    | Ready(selector: Selector, relationship: Relationship, caller: Caller)
    | Error(error: Error)

  function Polled(e: Error): Answer {
    if Pollable(e) then Pending else Error(e)
  }

  /** When each read happens, in the order they happen. */
  datatype Times = Times(
    selector: nat, before: nat, pointer: nat, generation: nat, generationAgain: nat, namespace: nat,
    namespaceAgain: nat, caller: nat, current: nat, archive: Archive, confirmed: nat, selectorAgain: nat, after: nat)

  datatype Archive = Archive(
    observation: nat, domains: seq<nat>, publication: nat, publicationCurrent: nat,
    catalog: nat, summary: nat, catalogAgain: nat, summaryAgain: nat)

  ghost predicate InOrder(at: Times) {
    && at.selector <= at.before <= at.pointer <= at.generation <= at.generationAgain <= at.namespace
    && at.namespace <= at.namespaceAgain <= at.caller <= at.current <= at.archive.observation
    && (forall i | 0 <= i < |at.archive.domains| :: at.archive.observation <= at.archive.domains[i] <= at.archive.publication)
    && at.archive.observation <= at.archive.publication <= at.archive.publicationCurrent <= at.archive.catalog
    && at.archive.catalog <= at.archive.summary <= at.archive.catalogAgain <= at.archive.summaryAgain
    && at.archive.summaryAgain <= at.confirmed <= at.selectorAgain <= at.after
  }

  // ---- immutable generations that may be retired

  /** Opens a generation; missing bytes are a wait only if the publication moved. */
  function ReadGeneration(w: World, pointer: Pointer, t: nat, again: nat): Outcome<Option<Relationship>> {
    match Get(w, t, GenerationAt(pointer))
    case Ok(GenerationIs(r)) => if r.pointer == pointer then Ok(Some(r)) else Err(Failed)
    case Ok(_) => Err(Failed)
    case Err(e) => if e != RelationshipNotFound then Err(e) else Moved(w, pointer, again, e)
  }

  function ReadNamespace(w: World, pointer: Pointer, r: Relationship, t: nat, again: nat): Outcome<Option<Namespace>> {
    match Get(w, t, NamespaceAt(r.namespace))
    case Ok(NamespaceIs(n)) => Ok(Some(n))
    case Ok(_) => Err(Failed)
    case Err(e) => if e != NamespaceNotFound then Err(e) else Moved(w, pointer, again, e)
  }

  function Moved<T>(w: World, pointer: Pointer, again: nat, missing: Error): Outcome<Option<T>> {
    match Get(w, again, PointerAt)
    case Ok(PointerIs(p)) => if p != pointer then Ok(None) else Err(missing)
    case Ok(_) => Err(Failed)
    case Err(e) => if Pollable(e) then Ok(None) else Err(e)
  }

  // ---- the archive's extra inputs

  /** The schedule and whether it is idle; an absent one is. */
  function ReadSchedule(w: World, t: nat): Outcome<(Option<Schedule>, bool)> {
    match Get(w, t, ScheduleAt)
    case Err(e) => if e == StoreNotFound then Ok((None, true)) else Err(Failed)
    case Ok(ScheduleIs(s)) =>
      if s.status == Active then Ok((Some(s), false))
      else if s.status == Settled && s.failed == 0 then Ok((Some(s), true))
      else Err(Failed)
    case Ok(_) => Err(Failed)
  }

  function DomainsCurrent(w: World, r: Relationship, at: seq<nat>, i: nat): Outcome<bool>
    requires |at| == |w.policies| == |r.domains| == |r.required| && i <= |at|
    decreases |at| - i
  {
    if i == |at| then Ok(true)
    else if r.required[i] != w.policies[i] || r.domains[i].policy != w.policies[i] then Ok(false)
    else
      match Get(w, at[i], DomainAt(w.policies[i]))
      case Err(e) => if e == StoreNotFound then Ok(false) else Err(e)
      case Ok(cell) => if cell != DomainIs(r.domains[i].authority) then Ok(false) else DomainsCurrent(w, r, at, i + 1)
  }

  predicate StateMatches(w: World, r: Relationship, p: CatalogPointer, s: Summary) {
    && s.valid && p.repository == w.repository && s.repository == w.repository
    && p.root == s.catalog && p.revision == s.catalogRevision && r.catalogRoot == p.root && r.catalogRevision == p.revision
    && r.stateSummary == s.summary && r.stateRevision == s.revision
  }

  /** Both catalog registers, each read twice. */
  function CatalogStateCurrent(w: World, r: Relationship, at: Archive): Outcome<bool> {
    match Get(w, at.catalog, CatalogPointerAt)
    case Err(e) => if e == StoreNotFound then Ok(false) else Err(e)
    case Ok(pointer) =>
      match Get(w, at.summary, SummaryAt)
      case Err(e) => if e == StoreNotFound then Ok(false) else Err(e)
      case Ok(summary) =>
        if !pointer.CatalogPointerIs? || !summary.SummaryIs? then Err(Failed)
        else if !StateMatches(w, r, pointer.catalog, summary.summary) then Ok(false)
        else
          match Get(w, at.catalogAgain, CatalogPointerAt)
          case Err(e) => Err(e)
          case Ok(pointerAgain) =>
            match Get(w, at.summaryAgain, SummaryAt)
            case Err(e) => Err(e)
            case Ok(summaryAgain) => Ok(pointerAgain == pointer && summaryAgain == summary)
  }

  function ArchiveCurrent(w: World, r: Relationship, n: Namespace, at: Archive): Outcome<bool> {
    match Get(w, at.observation, ObservationAt)
    case Err(e) => Err(e)
    case Ok(observation) =>
      if observation != ObservationIs(r.observation) || |r.required| != |w.policies| || |r.domains| != |w.policies| ||
         |w.policies| != 9 || |at.domains| != 9 then Ok(false)
      else
        match DomainsCurrent(w, r, at.domains, 0)
        case Err(e) => Err(e)
        case Ok(false) => Ok(false)
        case Ok(true) =>
          match Get(w, at.publication, PublicationAt)
          case Err(e) => if e == StoreNotFound then Ok(false) else Err(Failed)
          case Ok(PublicationIs(p)) =>
            (match Get(w, at.publicationCurrent, PublicationCurrentAt(p))
             case Err(e) => Err(e)
             case Ok(current) =>
               if current != Flag(true) || p.resolver != n.catalog then Ok(false) else CatalogStateCurrent(w, r, at))
          case Ok(_) => Err(Failed)
  }

  // ---- the poll

  predicate RelationshipMatches(s: Selector, r: Relationship) {
    && r.repository == s.repository && r.pointer == s.relationship && r.catalogRoot == s.catalogRoot
    && r.catalogRevision == s.catalogRevision && r.stateSummary == s.stateSummary && r.stateRevision == s.stateRevision
  }

  predicate CallerMatches(c: Caller, r: Relationship, n: Namespace) {
    n.repository == r.repository && c.repository == r.repository && c.resolver == n.catalog
  }

  /** The last reads: the publication, the selector and the archive's schedule. */
  function Confirm(w: World, at: Times, archive: bool, before: Option<Schedule>,
                   s: Selector, r: Relationship, c: Caller): Answer
  {
    match Get(w, at.confirmed, PointerAt)
    case Err(e) => Polled(e)
    case Ok(again) =>
      if again != PointerIs(r.pointer) then Pending
      else
        match Get(w, at.selectorAgain, SelectorAt)
        case Err(e) => Polled(e)
        case Ok(selector) =>
          if selector != SelectorIs(s) then Polled(Conflict)
          else if !archive then Complete(s, r, c)
          else
            match ReadSchedule(w, at.after)
            case Err(e) => Error(e)
            case Ok((after, idle)) => if idle && before == after then Complete(s, r, c) else Pending
  }

  function Complete(s: Selector, r: Relationship, c: Caller): Answer {
    if s.digest == 0 || r.pointer.generation == 0 || r.pointer.root == 0 || c.generation == 0 || c.manifest == 0
    then Error(Failed) else Ready(s, r, c)
  }

  function ReadCaller(w: World, at: Times, archive: bool, before: Option<Schedule>,
                      s: Selector, r: Relationship, n: Namespace): Answer
  {
    match Get(w, at.caller, CallerAt)
    case Err(e) => Polled(e)
    case Ok(CallerIs(c)) =>
      (match Get(w, at.current, CallerCurrentAt(c))
       case Err(e) => Error(e)
       case Ok(current) =>
         if current != Flag(true) || !CallerMatches(c, r, n) then Pending
         else
           match (if archive then ArchiveCurrent(w, r, n, at.archive) else Ok(true))
           case Err(e) => Error(e)
           case Ok(false) => Pending
           case Ok(true) => Confirm(w, at, archive, before, s, r, c))
    case Ok(_) => Error(Failed)
  }

  function ReadPublication(w: World, at: Times, archive: bool, before: Option<Schedule>, s: Selector): Answer {
    match Get(w, at.pointer, PointerAt)
    case Err(e) => Polled(e)
    case Ok(PointerIs(pointer)) =>
      if pointer != s.relationship then Pending
      else
        (match ReadGeneration(w, pointer, at.generation, at.generationAgain)
         case Err(e) => Error(e)
         case Ok(None) => Pending
         case Ok(Some(r)) =>
           if !RelationshipMatches(s, r) then Error(Failed)
           else
             match ReadNamespace(w, pointer, r, at.namespace, at.namespaceAgain)
             case Err(e) => Error(e)
             case Ok(None) => Pending
             case Ok(Some(n)) => ReadCaller(w, at, archive, before, s, r, n))
    case Ok(_) => Error(Failed)
  }

  function ReadTail(w: World, at: Times, archive: bool): Answer {
    match Get(w, at.selector, SelectorAt)
    case Err(e) => Polled(e)
    case Ok(SelectorIs(s)) =>
      if s.repository != w.repository || !s.v3 then Error(Failed)
      else if !archive then ReadPublication(w, at, false, None, s)
      else
        (match ReadSchedule(w, at.before)
         case Err(e) => Error(e)
         case Ok((before, idle)) => if idle then ReadPublication(w, at, true, before, s) else Pending)
    case Ok(_) => Error(Failed)
  }

  // ---- what "ready" means

  /** What a ready answer read, before any assumption about others' writes. */
  lemma ReadyRead(w: World, at: Times, archive: bool)
    requires ReadTail(w, at, archive).Ready?
    ensures var s, r, c := ReadTail(w, at, archive).selector, ReadTail(w, at, archive).relationship, ReadTail(w, at, archive).caller;
      && w.held(at.selector, SelectorAt) == w.held(at.selectorAgain, SelectorAt) == SelectorIs(s)
      && w.held(at.pointer, PointerAt) == w.held(at.confirmed, PointerAt) == PointerIs(s.relationship)
      && w.held(at.current, CallerCurrentAt(c)) == Flag(true)
      && RelationshipMatches(s, r) && s.repository == w.repository
      && w.held(at.namespace, NamespaceAt(r.namespace)).NamespaceIs?
      && CallerMatches(c, r, w.held(at.namespace, NamespaceAt(r.namespace)).namespace)
  {
    var s := w.held(at.selector, SelectorAt).selector;
    var before := if archive then ReadSchedule(w, at.before).value.0 else None;
    assert ReadTail(w, at, archive) == ReadPublication(w, at, archive, before, s);
    var r := ReadGeneration(w, s.relationship, at.generation, at.generationAgain).value.value;
    var n := ReadNamespace(w, s.relationship, r, at.namespace, at.namespaceAgain).value.value;
    assert ReadTail(w, at, archive) == ReadCaller(w, at, archive, before, s, r, n);
    var c := w.held(at.caller, CallerAt).caller;
    assert ReadTail(w, at, archive) == Confirm(w, at, archive, before, s, r, c);
  }

  /** Ready: for the whole span between the two pointer reads the published
      pointer named exactly the selected generation and root, and inside that
      span the store held the caller to be current. */
  lemma ReadyHolds(w: World, at: Times, archive: bool)
    requires InOrder(at)
    requires NoRepeats(w.held, PointerAt, at.pointer, at.confirmed) && NoRepeats(w.held, SelectorAt, at.selector, at.selectorAgain)
    requires ReadTail(w, at, archive).Ready?
    ensures var s, c := ReadTail(w, at, archive).selector, ReadTail(w, at, archive).caller;
      && (forall t: nat | at.pointer <= t <= at.confirmed ::
            w.held(t, PointerAt) == PointerIs(s.relationship) && w.held(t, SelectorAt) == SelectorIs(s))
      && at.pointer <= at.current <= at.confirmed && w.held(at.current, CallerCurrentAt(c)) == Flag(true)
  {
    ReadyRead(w, at, archive);
    var s := ReadTail(w, at, archive).selector;
    forall t: nat | at.pointer <= t <= at.confirmed
      ensures w.held(t, PointerAt) == PointerIs(s.relationship) && w.held(t, SelectorAt) == SelectorIs(s)
    {
      assert w.held(at.pointer, PointerAt) == w.held(at.confirmed, PointerAt);
      assert w.held(at.selector, SelectorAt) == w.held(at.selectorAgain, SelectorAt);
    }
  }

  /** An archive is ready only between two readings of one idle schedule, and
      with a catalog and state that held together at one instant. */
  lemma ArchiveReady(w: World, at: Times)
    requires InOrder(at) && NoRepeats(w.held, CatalogPointerAt, at.archive.catalog, at.archive.catalogAgain)
    requires ReadTail(w, at, true).Ready?
    ensures var r := ReadTail(w, at, true).relationship;
      && ReadSchedule(w, at.before).Ok? && ReadSchedule(w, at.before) == ReadSchedule(w, at.after)
      && ReadSchedule(w, at.before).value.1
      && w.held(at.archive.summary, CatalogPointerAt).CatalogPointerIs? && w.held(at.archive.summary, SummaryAt).SummaryIs?
      && StateMatches(w, r, w.held(at.archive.summary, CatalogPointerAt).catalog, w.held(at.archive.summary, SummaryAt).summary)
  {
    var s := w.held(at.selector, SelectorAt).selector;
    var before := ReadSchedule(w, at.before).value.0;
    var r := ReadGeneration(w, s.relationship, at.generation, at.generationAgain).value.value;
    var n := ReadNamespace(w, s.relationship, r, at.namespace, at.namespaceAgain).value.value;
    assert ReadTail(w, at, true) == ReadCaller(w, at, true, before, s, r, n);
    var c := w.held(at.caller, CallerAt).caller;
    assert ReadTail(w, at, true) == Confirm(w, at, true, before, s, r, c);
    assert ArchiveCurrent(w, r, n, at.archive) == Ok(true);
    assert CatalogStateCurrent(w, r, at.archive) == Ok(true);
    assert w.held(at.archive.catalog, CatalogPointerAt) == w.held(at.archive.catalogAgain, CatalogPointerAt);
  }

  // ---- retirement is a wait, not an error

  /** A generation's bytes never change while they exist, and retirement keeps
      the generation the published pointer names together with its namespace. */
  ghost predicate KeepsNamed(w: World, from: nat, to: nat) {
    && (forall t: nat, u: nat, p: Pointer | from <= t <= to && from <= u <= to && w.held(t, GenerationAt(p)) != Missing &&
                                            w.held(u, GenerationAt(p)) != Missing ::
          w.held(t, GenerationAt(p)) == w.held(u, GenerationAt(p)))
    && (forall t: nat | from <= t <= to && w.held(t, PointerAt).PointerIs? :: NamedKept(w, t, w.held(t, PointerAt).pointer))
  }

  ghost predicate NamedKept(w: World, t: nat, p: Pointer) {
    && w.held(t, GenerationAt(p)) != Missing
    && (w.held(t, GenerationAt(p)).GenerationIs? ==>
          w.held(t, NamespaceAt(w.held(t, GenerationAt(p)).relationship.namespace)) != Missing)
  }

  predicate MissingBytes(a: Answer) {
    a == Error(RelationshipNotFound) || a == Error(NamespaceNotFound)
  }

  /** The poll got as far as opening what the selected pointer names. */
  predicate Opens(w: World, at: Times, archive: bool) {
    var selector, pointer := Get(w, at.selector, SelectorAt), Get(w, at.pointer, PointerAt);
    && selector.Ok? && selector.value.SelectorIs? && selector.value.selector.repository == w.repository && selector.value.selector.v3
    && (archive ==> ReadSchedule(w, at.before).Ok? && ReadSchedule(w, at.before).value.1)
    && pointer == Ok(PointerIs(selector.value.selector.relationship))
  }

  /** The selected generation's bytes are gone. */
  predicate GenerationGone(w: World, at: Times, p: Pointer) {
    Get(w, at.generation, GenerationAt(p)) == Err(RelationshipNotFound)
  }

  /** Its bytes are as selected, but those of its namespace are gone. */
  predicate NamespaceGone(w: World, at: Times, s: Selector) {
    var g := Get(w, at.generation, GenerationAt(s.relationship));
    && g.Ok? && g.value.GenerationIs? && RelationshipMatches(s, g.value.relationship)
    && Get(w, at.namespace, NamespaceAt(g.value.relationship.namespace)) == Err(NamespaceNotFound)
  }

  /** Absent bytes are reported as an error exactly when the pointer read that
      follows finds the same pointer again. */
  lemma MissingRead(w: World, at: Times, archive: bool)
    ensures MissingBytes(ReadTail(w, at, archive)) <==>
      && Opens(w, at, archive)
      && var s := w.held(at.selector, SelectorAt).selector; var p := s.relationship;
         || (GenerationGone(w, at, p) && Get(w, at.generationAgain, PointerAt) == Ok(PointerIs(p)))
         || (NamespaceGone(w, at, s) && Get(w, at.namespaceAgain, PointerAt) == Ok(PointerIs(p)))
  {
    if Opens(w, at, archive) {
      var s := w.held(at.selector, SelectorAt).selector;
      var before := if archive then ReadSchedule(w, at.before).value.0 else None;
      assert ReadTail(w, at, archive) == ReadPublication(w, at, archive, before, s);
      var g := ReadGeneration(w, s.relationship, at.generation, at.generationAgain);
      if g.Ok? && g.value.Some? {
        var n := ReadNamespace(w, s.relationship, g.value.value, at.namespace, at.namespaceAgain);
        if n.Ok? && n.value.Some? { CallerNeverMissing(w, at, archive, before, s, g.value.value, n.value.value); }
      }
    }
  }

  lemma {:induction false} DomainsNeverMissing(w: World, r: Relationship, at: seq<nat>, i: nat)
    requires |at| == |w.policies| == |r.domains| == |r.required| && i <= |at|
    ensures DomainsCurrent(w, r, at, i) != Err(RelationshipNotFound)
    ensures DomainsCurrent(w, r, at, i) != Err(NamespaceNotFound)
    decreases |at| - i
  {
    if i < |at| { DomainsNeverMissing(w, r, at, i + 1); }
  }

  lemma ArchiveNeverMissing(w: World, r: Relationship, n: Namespace, at: Archive)
    ensures ArchiveCurrent(w, r, n, at) != Err(RelationshipNotFound)
    ensures ArchiveCurrent(w, r, n, at) != Err(NamespaceNotFound)
  {
    if |r.required| == |r.domains| == |w.policies| == |at.domains| { DomainsNeverMissing(w, r, at.domains, 0); }
    assert CatalogStateCurrent(w, r, at) != Err(RelationshipNotFound);
  }

  lemma CallerNeverMissing(w: World, at: Times, archive: bool, before: Option<Schedule>, s: Selector, r: Relationship, n: Namespace)
    ensures !MissingBytes(ReadCaller(w, at, archive, before, s, r, n))
  {
    ArchiveNeverMissing(w, r, n, at.archive);
    var c := Get(w, at.caller, CallerAt);
    if c.Ok? && c.value.CallerIs? {
      assert !MissingBytes(Confirm(w, at, archive, before, s, r, c.value.caller));
    }
  }

  /** The pointer left what it held at `from` and came back to it. */
  ghost predicate LeftAndReturned(w: World, from: nat, to: nat) {
    exists b: nat, c: nat | from <= b <= c <= to ::
      w.held(b, PointerAt) != w.held(from, PointerAt) == w.held(c, PointerAt)
  }

  /** A retired generation is a wait: its absence is an error only when the
      published pointer left it and came back during the poll. */
  lemma RetirementIsPending(w: World, at: Times, archive: bool)
    requires InOrder(at) && KeepsNamed(w, at.selector, at.selectorAgain)
    requires MissingBytes(ReadTail(w, at, archive))
    ensures w.held(at.pointer, PointerAt).PointerIs? && LeftAndReturned(w, at.pointer, at.selectorAgain)
  {
    MissingRead(w, at, archive);
    var p := w.held(at.pointer, PointerAt).pointer;
    var t, again := if w.held(at.generation, GenerationAt(p)) == Missing then at.generation else at.namespace,
      if w.held(at.generation, GenerationAt(p)) == Missing then at.generationAgain else at.namespaceAgain;
    assert w.held(t, PointerAt) != PointerIs(p) by {
      assert w.held(t, PointerAt) == PointerIs(p) ==> NamedKept(w, t, p);
    }
    assert w.held(at.pointer, PointerAt) == w.held(again, PointerAt);
  }

  /** The pointer can be read: the read does not break. */
  predicate PointerReadable(w: World, t: nat) {
    w.fault(t) != Broken && (w.held(t, PointerAt) == Missing || w.held(t, PointerAt).PointerIs?)
  }

  /** Bytes that are gone when they are opened: the answer is a wait unless the
      next pointer read finds the same pointer, or breaks; so it is a wait
      whenever the pointer did not leave and return. */
  lemma GoneIsPending(w: World, at: Times, archive: bool)
    requires Opens(w, at, archive) && PointerReadable(w, at.generationAgain) && PointerReadable(w, at.namespaceAgain)
    requires GenerationGone(w, at, w.held(at.pointer, PointerAt).pointer) || NamespaceGone(w, at, w.held(at.selector, SelectorAt).selector)
    ensures ReadTail(w, at, archive) == Pending || MissingBytes(ReadTail(w, at, archive))
    ensures InOrder(at) && KeepsNamed(w, at.selector, at.selectorAgain) && !LeftAndReturned(w, at.pointer, at.selectorAgain) ==>
      ReadTail(w, at, archive) == Pending
  {
    var s := w.held(at.selector, SelectorAt).selector;
    var before := if archive then ReadSchedule(w, at.before).value.0 else None;
    assert ReadTail(w, at, archive) == ReadPublication(w, at, archive, before, s);
    var g := ReadGeneration(w, s.relationship, at.generation, at.generationAgain);
    if g.Ok? && g.value.Some? {
      assert ReadNamespace(w, s.relationship, g.value.value, at.namespace, at.namespaceAgain) != Err(Failed);
    }
    if InOrder(at) && KeepsNamed(w, at.selector, at.selectorAgain) && MissingBytes(ReadTail(w, at, archive)) {
      RetirementIsPending(w, at, archive);
    }
  }

  /** A pointer that leaves a generation and returns to it may make the same
      poll an error, so the condition is needed. */
  lemma ReturnIsError()
    ensures exists w: World, at: Times ::
      InOrder(at) && KeepsNamed(w, at.selector, at.selectorAgain) && MissingBytes(ReadTail(w, at, false))
  {
    var p, q := Pointer(1, 1), Pointer(2, 2);
    var held: (nat, Register) -> Cell := (t: nat, r: Register) =>
      match r
      case SelectorAt => SelectorIs(Selector(1, true, p, 1, 1, 1, 1, 1))
      case PointerAt => PointerIs(if t == 1 then q else p)
      case GenerationAt(g) =>
        if t == 1 && g == p then Missing else GenerationIs(Relationship(g, 1, 1, 1, 1, 1, q, 1, [], []))
      case NamespaceAt(g) => NamespaceIs(Namespace(1, p))
      case _ => Missing;
    var w := World(1, [], held, t => NoFault);
    var at := Times(0, 0, 0, 1, 2, 2, 2, 2, 2, Archive(2, [], 2, 2, 2, 2, 2, 2), 2, 2, 2);
    assert ReadGeneration(w, p, 1, 2) == Err(RelationshipNotFound);
    assert ReadPublication(w, at, false, None, Selector(1, true, p, 1, 1, 1, 1, 1)) == Error(RelationshipNotFound);
    assert InOrder(at);
    assert KeepsNamed(w, 0, 2);
  }
}
