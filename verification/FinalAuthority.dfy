/** The final authority read: it collects independently changing publications
    one after the other, checks that they name each other, and reads every one
    of them again before it answers. */
module FinalAuthority {
  import opened Registers
  import opened Wrappers
  import Components = ComponentInventory

  // Digests, names and commits are numbers; 0 stands for the empty string.

  datatype Repo = Repo(name: nat, commit: nat, deleting: bool)

  datatype Selector = Selector(
    repository: nat, v3: bool, catalogRoot: nat, catalogRevision: nat, stateRevision: nat, stateSummary: nat,
    search: nat, relationship: Pointer, digest: nat)

  datatype State = State(repository: nat, catalog: nat, catalogRevision: nat, revision: nat, summary: nat)

  datatype Activation = Activation(plan: nat, schedule: nat, unit: nat)

  datatype Catalog = Catalog(repository: nat, digest: nat, logical: nat, source: nat, commit: nat)

  datatype Observation = Observation(source: nat, generation: nat, inventoryRoot: nat, sourceRoot: nat)

  datatype Candidate = Candidate(repository: nat, commit: nat, policy: nat, generation: nat, manifest: nat)

  /** The plan of one extraction domain. */
  datatype Plan = Plan(
    repository: nat, domain: nat, version: nat, candidateManifest: nat, candidateGeneration: nat, candidatePolicy: nat,
    source: nat, observation: nat)

  /** What a domain's authority carries determines its plan. */
  datatype Authority = Authority(plan: Plan, root: nat, run: nat)

  datatype Pointer = Pointer(generation: nat, root: nat)

  /** A relationship root: what its upstream publications were. */
  datatype Relationship = Relationship(
    pointer: Pointer, repository: nat, catalogRoot: nat, catalogLogical: nat, catalogSource: nat, catalogRevision: nat,
    stateSummary: nat, stateRevision: nat, observation: nat, observationManifest: nat, observationSource: nat,
    sourceRoot: nat, observationRoot: nat, upstream: nat, upstreamNamed: nat, upstreamRepository: nat,
    required: seq<Policy>, domains: seq<Authority>, namespace: Pointer, rpc: Pointer, kafka: Pointer)

  datatype Caller = Caller(
    current: bool, repository: nat, commit: nat, candidateManifest: nat, candidatePolicy: nat,
    resolver: Pointer, expected: nat, generation: nat, manifest: nat, bound: Pointer)

  /** A resolver namespace and the catalog it resolves. */
  datatype Namespace = Namespace(repository: nat, catalog: Pointer)

  datatype Policy = Policy(domain: nat, version: nat)

  /** `inventories` are the domains of its candidate inventories, in order. */
  datatype Source = Source(commit: nat, digest: nat, inventories: seq<nat>)

  /** Immutable content, named by digest. */
  datatype Content = Content(
    sources: nat -> Source, relationships: Pointer -> Relationship, namespaces: Pointer -> Namespace,
    projections: Pointer -> seq<Components.Identity>,
    rpc: Pointer -> seq<Components.RpcPosting>, kafka: Pointer -> seq<Components.KafkaPosting>)

  // ---- the registers

  /** One publication, or one record named by its key, that others may rewrite
      at any time. */
  datatype Register =
    | RepositoryAt
    | SelectorAt
    | StateAt(revision: nat, summary: nat)
    | ActivationAt(selector: Selector)
    | CatalogAt(digest: nat)
    | ObservationAt
    | CandidateAt
    | DomainAt(domain: nat)
    | RelationshipAt
    | CallerAt

  datatype Cell =
    | Missing
    | RepositoryIs(repo: Repo)
    | SelectorIs(selector: Selector)
    | StateIs(state: State)
    | ActivationIs(activation: Activation)
    | CatalogIs(catalog: Catalog)
    | ObservationIs(observation: Observation)
    | CandidateIs(candidate: Candidate)
    | DomainIs(authority: Authority)
    | RelationshipIs(pointer: Pointer)
    | CallerIs(caller: Caller)

  /** What each register held at each instant. */
  type Trace = (nat, Register) -> Cell

  // ---- the answer

  datatype Answer = Answer(
    repo: Repo, selector: Selector, state: State, activation: Activation, catalog: Catalog, source: Source,
    observation: Observation, candidate: Candidate, domains: seq<Authority>, relationship: Relationship,
    namespace: Namespace, caller: Caller)

  /** What the answer says a register held; None when it says nothing. */
  function Claim(policies: seq<Policy>, a: Answer, r: Register): Option<Cell> {
    match r
    case RepositoryAt => Some(RepositoryIs(a.repo))
    case SelectorAt => Some(SelectorIs(a.selector))
    case StateAt(revision, summary) =>
      if revision == a.selector.stateRevision && summary == a.selector.stateSummary then Some(StateIs(a.state)) else None
    case ActivationAt(selector) => if selector == a.selector then Some(ActivationIs(a.activation)) else None
    case CatalogAt(digest) => if digest == a.selector.catalogRoot then Some(CatalogIs(a.catalog)) else None
    case ObservationAt => Some(ObservationIs(a.observation))
    case CandidateAt => Some(CandidateIs(a.candidate))
    case DomainAt(domain) => DomainClaim(policies, a.domains, domain)
    case RelationshipAt => Some(RelationshipIs(a.relationship.pointer))
    case CallerAt => Some(CallerIs(a.caller))
  }

  function DomainClaim(policies: seq<Policy>, domains: seq<Authority>, domain: nat): (c: Option<Cell>)
    ensures c.Some? ==> exists i :: 0 <= i < |policies| && i < |domains| && policies[i].domain == domain && c.value == DomainIs(domains[i])
  {
    if policies == [] || domains == [] then None
    else if policies[0].domain == domain then Some(DomainIs(domains[0]))
    else
      var c := DomainClaim(policies[1..], domains[1..], domain);
      assert c.Some? ==> exists i :: 0 <= i < |policies[1..]| && i < |domains[1..]| && policies[1..][i].domain == domain && c.value == DomainIs(domains[1..][i]);
      c
  }

  ghost predicate AllSeen(trace: Trace, policies: seq<Policy>, a: Answer, from: nat, to: nat) {
    forall r | Claim(policies, a, r).Some? :: Seen(trace, r, Claim(policies, a, r).value, from, to)
  }

  ghost predicate AllHeld(trace: Trace, policies: seq<Policy>, a: Answer, at: nat) {
    forall r | Claim(policies, a, r).Some? :: trace(at, r) == Claim(policies, a, r).value
  }

  /** No register the answer claims returned to a value it left. */
  ghost predicate NoneRepeats(trace: Trace, policies: seq<Policy>, a: Answer, from: nat, to: nat) {
    forall r | Claim(policies, a, r).Some? :: NoRepeats(trace, r, from, to)
  }

  lemma OneInstant(trace: Trace, policies: seq<Policy>, a: Answer, from: nat, at: nat, to: nat)
    requires AllSeen(trace, policies, a, from, at) && AllSeen(trace, policies, a, at, to)
    requires NoneRepeats(trace, policies, a, from, to)
    ensures AllHeld(trace, policies, a, at)
  {
    forall r | Claim(policies, a, r).Some? ensures trace(at, r) == Claim(policies, a, r).value {
      SeenTwice(trace, r, Claim(policies, a, r).value, from, at, to);
    }
  }

  // ---- how the collected publications must name each other

  /** The constants a reader is built with. */
  datatype Bindings = Bindings(repository: nat, policies: seq<Policy>, policy: nat)

  predicate StateMatches(b: Bindings, selector: Selector, state: State) {
    && selector.repository == b.repository && selector.v3
    && selector.repository == state.repository && selector.catalogRoot == state.catalog
    && selector.catalogRevision == state.catalogRevision && selector.stateRevision == state.revision
    && selector.stateSummary == state.summary
  }

  predicate CatalogMatches(selector: Selector, root: Catalog) {
    && selector.v3 && selector.repository != 0 && selector.repository == root.repository
    && selector.catalogRoot == root.digest && selector.catalogRevision != 0 && selector.stateRevision != 0
    && selector.stateSummary != 0 && selector.search != 0
    && selector.relationship.generation != 0 && selector.relationship.root != 0 && selector.digest != 0
  }

  predicate PlanMatches(b: Bindings, policy: Policy, plan: Plan, o: Observation, c: Candidate) {
    && plan.repository == b.repository && plan.domain == policy.domain && plan.version == policy.version
    && plan.candidateManifest == c.manifest && plan.candidateGeneration == c.generation && plan.candidatePolicy == c.policy
    && plan.source == o.source && plan.observation == o.generation
  }

  predicate RelationshipMatches(
    b: Bindings, selector: Selector, state: State, catalog: Catalog, o: Observation, domains: seq<Authority>,
    c: Candidate, root: Relationship)
  {
    && root.pointer == selector.relationship && root.repository == b.repository
    && root.catalogRoot == catalog.digest && root.catalogLogical == catalog.logical && root.catalogSource == catalog.source
    && root.catalogRevision == state.catalogRevision
    && root.stateSummary == state.summary && root.stateRevision == state.revision
    && root.observation == o.generation && root.observationManifest == o.inventoryRoot && root.observationSource == o.source
    && root.sourceRoot == o.sourceRoot && root.observationRoot == o.inventoryRoot
    && root.upstreamNamed == root.upstream && root.upstreamRepository == b.repository
    && |root.required| == |b.policies| && |root.domains| == |domains|
    && (forall i | 0 <= i < |b.policies| ::
          && root.required[i] == b.policies[i]
          && i < |domains| && root.domains[i] == domains[i]
          && domains[i].plan.candidateManifest == c.manifest && domains[i].plan.candidatePolicy == c.policy)
  }

  predicate CallerMatches(b: Bindings, read: Caller, commit: nat, c: Candidate, root: Relationship, n: Namespace) {
    && read.current && read.expected != 0 && read.repository == b.repository && read.commit == commit
    && read.candidateManifest == c.manifest && read.candidatePolicy == c.policy
    && n.repository == root.repository && read.repository == root.repository
    && read.resolver == n.catalog && read.bound == n.catalog
    && read.generation == read.expected && read.manifest != 0
  }

  /** A source has one candidate inventory a domain, in policy order. */
  predicate InventoriesMatch(b: Bindings, source: Source) {
    |source.inventories| == |b.policies| && forall i | 0 <= i < |b.policies| :: source.inventories[i] == b.policies[i].domain
  }

  /** The postings a relationship names identify its projections, each as often. */
  ghost predicate Composes(content: Content, root: Relationship) {
    && (forall p | p in content.projections(root.pointer) :: Components.Valid(p))
    && multiset(content.projections(root.pointer)) ==
       multiset(Components.Keys(Components.RpcIdentity, content.rpc(root.rpc))) +
       multiset(Components.Keys(Components.KafkaIdentity, content.kafka(root.kafka)))
  }

  /** Everything an answer's parts must say about each other. */
  ghost predicate Consistent(b: Bindings, a: Answer) {
    && a.repo.name == b.repository && !a.repo.deleting && a.repo.commit != 0
    && StateMatches(b, a.selector, a.state) && CatalogMatches(a.selector, a.catalog)
    && a.source.commit == a.repo.commit == a.catalog.commit && a.observation.source == a.source.digest
    && a.candidate.repository == b.repository && a.candidate.commit == a.source.commit && a.candidate.policy == b.policy
    && InventoriesMatch(b, a.source) && |a.domains| == |b.policies|
    && (forall i | 0 <= i < |b.policies| ::
          PlanMatches(b, b.policies[i], a.domains[i].plan, a.observation, a.candidate))
    && RelationshipMatches(b, a.selector, a.state, a.catalog, a.observation, a.domains, a.candidate, a.relationship)
    && CallerMatches(b, a.caller, a.source.commit, a.candidate, a.relationship, a.namespace)
  }

  /** The collected registers are all the claims there are. */
  lemma ClaimsSeen(trace: Trace, b: Bindings, a: Answer, from: nat, to: nat)
    requires Seen(trace, RepositoryAt, RepositoryIs(a.repo), from, to)
    requires Seen(trace, SelectorAt, SelectorIs(a.selector), from, to)
    requires Seen(trace, StateAt(a.selector.stateRevision, a.selector.stateSummary), StateIs(a.state), from, to)
    requires Seen(trace, ActivationAt(a.selector), ActivationIs(a.activation), from, to)
    requires Seen(trace, CatalogAt(a.selector.catalogRoot), CatalogIs(a.catalog), from, to)
    requires Seen(trace, ObservationAt, ObservationIs(a.observation), from, to)
    requires Seen(trace, CandidateAt, CandidateIs(a.candidate), from, to)
    requires |a.domains| == |b.policies|
    requires forall i | 0 <= i < |b.policies| ::
      Seen(trace, DomainAt(b.policies[i].domain), DomainIs(a.domains[i]), from, to)
    requires Seen(trace, RelationshipAt, RelationshipIs(a.relationship.pointer), from, to)
    requires Seen(trace, CallerAt, CallerIs(a.caller), from, to)
    ensures AllSeen(trace, b.policies, a, from, to)
  {
    forall r | Claim(b.policies, a, r).Some? ensures Seen(trace, r, Claim(b.policies, a, r).value, from, to) {
      match r
      case DomainAt(domain) =>
        var i :| 0 <= i < |b.policies| && b.policies[i].domain == domain && Claim(b.policies, a, r).value == DomainIs(a.domains[i]);
      case _ =>
    }
  }

  // ---- reading, while others write

  class Publications {
    const trace: Trace
    var clock: nat

    constructor (trace: Trace)
      ensures this.trace == trace && clock == 0
    {
      this.trace, clock := trace, 0;
    }

    /** Reads a register at some later instant, or fails. */
    method Read(r: Register) returns (cell: Cell, ghost t: nat)
      modifies this
      ensures old(clock) <= t == clock
      ensures cell == Missing || cell == trace(t, r)
    {
      var delay: nat, ok: bool := *, *;
      clock := clock + delay;
      t := clock;
      cell := if ok then trace(clock, r) else Missing;
    }
  }

  class Reader {
    const b: Bindings
    const registers: Publications
    const content: Content

    constructor (b: Bindings, registers: Publications, content: Content)
      ensures this.b == b && this.registers == registers && this.content == content
    {
      this.b, this.registers, this.content := b, registers, content;
    }

    method AuthorizedRepository() returns (repo: Option<Repo>, ghost t: nat)
      modifies registers
      ensures old(registers.clock) <= t == registers.clock
      ensures repo.Some? ==>
        && repo.value.name == b.repository && !repo.value.deleting && repo.value.commit != 0
        && registers.trace(t, RepositoryAt) == RepositoryIs(repo.value)
    {
      var cell;
      cell, t := registers.Read(RepositoryAt);
      var visible: bool := *;
      repo := if cell.RepositoryIs? && cell.repo.name == b.repository && !cell.repo.deleting && cell.repo.commit != 0 && visible
              then Some(cell.repo) else None;
    }

    method SelectedState(selector: Selector) returns (state: Option<State>, ghost t: nat)
      modifies registers
      ensures old(registers.clock) <= t == registers.clock
      ensures state.Some? ==>
        && StateMatches(b, selector, state.value)
        && registers.trace(t, StateAt(selector.stateRevision, selector.stateSummary)) == StateIs(state.value)
    {
      if selector.repository != b.repository || !selector.v3 { return None, registers.clock; }
      var cell;
      cell, t := registers.Read(StateAt(selector.stateRevision, selector.stateSummary));
      state := if cell.StateIs? && StateMatches(b, selector, cell.state) then Some(cell.state) else None;
    }

    /** One snapshot per extraction domain, in policy order, as the source's
        inventories are. */
    method ReadExtraction(source: Source, o: Observation, c: Candidate) returns (domains: Option<seq<Authority>>)
      modifies registers
      ensures old(registers.clock) <= registers.clock
      ensures domains.Some? ==> InventoriesMatch(b, source)
      ensures domains.Some? ==> |domains.value| == |b.policies| && forall i | 0 <= i < |b.policies| ::
        && PlanMatches(b, b.policies[i], domains.value[i].plan, o, c)
        && Seen(registers.trace, DomainAt(b.policies[i].domain), DomainIs(domains.value[i]), old(registers.clock), registers.clock)
    {
      domains := None;
      if |source.inventories| != |b.policies| { return; }
      var collected: seq<Authority> := [];
      for k := 0 to |b.policies|
        invariant old(registers.clock) <= registers.clock
        invariant |collected| == k && forall i | 0 <= i < k :: source.inventories[i] == b.policies[i].domain
        invariant forall i | 0 <= i < k ::
          && PlanMatches(b, b.policies[i], collected[i].plan, o, c)
          && Seen(registers.trace, DomainAt(b.policies[i].domain), DomainIs(collected[i]), old(registers.clock), registers.clock)
      {
        if source.inventories[k] != b.policies[k].domain { return; }
        var cell, _ := registers.Read(DomainAt(b.policies[k].domain));
        var derived: bool := *;
        if !cell.DomainIs? || !PlanMatches(b, b.policies[k], cell.authority.plan, o, c) || !derived { return; }
        collected := collected + [cell.authority];
      }
      domains := Some(collected);
    }

    /** Reads every domain again and compares. */
    method ConfirmExtraction(domains: seq<Authority>) returns (ok: bool)
      requires |domains| == |b.policies|
      modifies registers
      ensures old(registers.clock) <= registers.clock
      ensures ok ==> forall i | 0 <= i < |b.policies| ::
        Seen(registers.trace, DomainAt(b.policies[i].domain), DomainIs(domains[i]), old(registers.clock), registers.clock)
    {
      for k := 0 to |b.policies|
        invariant old(registers.clock) <= registers.clock
        invariant forall i | 0 <= i < k ::
          Seen(registers.trace, DomainAt(b.policies[i].domain), DomainIs(domains[i]), old(registers.clock), registers.clock)
      {
        var cell, _ := registers.Read(DomainAt(b.policies[k].domain));
        if cell != DomainIs(domains[k]) { return false; }
      }
      ok := true;
    }

    /** The postings of the relationship just read against its projections. */
    method OpenComponents(root: Relationship) returns (available: bool, ok: bool)
      ensures ok <==> available && Composes(content, root)
    {
      available := *;
      if !available { return available, false; }
      ok := Components.Composition(content.projections(root.pointer), content.rpc(root.rpc), content.kafka(root.kafka));
    }

    method Collect() returns (answer: Option<Answer>)
      modifies registers
      ensures old(registers.clock) <= registers.clock
      ensures answer.Some? ==> Consistent(b, answer.value) && Composes(content, answer.value.relationship)
      ensures answer.Some? ==> AllSeen(registers.trace, b.policies, answer.value, old(registers.clock), registers.clock)
    {
      answer := None;
      var repo, t0 := AuthorizedRepository();
      if repo.None? { return; }
      var selected, t1 := registers.Read(SelectorAt);
      if !selected.SelectorIs? { return; }
      var selector := selected.selector;
      var state, t2 := SelectedState(selector);
      if state.None? { return; }
      var activated, t3 := registers.Read(ActivationAt(selector));
      if !activated.ActivationIs? { return; }
      var rooted, t4 := registers.Read(CatalogAt(selector.catalogRoot));
      if !rooted.CatalogIs? || !CatalogMatches(selector, rooted.catalog) { return; }
      var source := content.sources(selector.search);
      if source.commit != repo.value.commit || rooted.catalog.commit != source.commit { return; }
      var observed, t5 := registers.Read(ObservationAt);
      if !observed.ObservationIs? || observed.observation.source != source.digest { return; }
      var candidate, t6 := registers.Read(CandidateAt);
      if !candidate.CandidateIs? || candidate.candidate.repository != b.repository ||
         candidate.candidate.commit != source.commit || candidate.candidate.policy != b.policy { return; }
      var domains := ReadExtraction(source, observed.observation, candidate.candidate);
      if domains.None? { return; }
      var pointer, t7 := registers.Read(RelationshipAt);
      if !pointer.RelationshipIs? { return; }
      var relationship := content.relationships(pointer.pointer).(pointer := pointer.pointer);
      if !RelationshipMatches(b, selector, state.value, rooted.catalog, observed.observation, domains.value,
                              candidate.candidate, relationship) { return; }
      var available, composes := OpenComponents(relationship);
      if !composes { return; }
      var namespace := content.namespaces(relationship.namespace);
      var caller, t8 := registers.Read(CallerAt);
      if !caller.CallerIs? || !CallerMatches(b, caller.caller, source.commit, candidate.candidate, relationship, namespace) { return; }
      var a := Answer(repo.value, selector, state.value, activated.activation, rooted.catalog, source,
                      observed.observation, candidate.candidate, domains.value, relationship, namespace, caller.caller);
      ClaimsSeen(registers.trace, b, a, old(registers.clock), registers.clock);
      answer := Some(a);
    }

    method Confirm(a: Answer) returns (ok: bool)
      requires Consistent(b, a)
      modifies registers
      ensures old(registers.clock) <= registers.clock
      ensures ok ==> AllSeen(registers.trace, b.policies, a, old(registers.clock), registers.clock)
    {
      var domains := ConfirmExtraction(a.domains);
      if !domains { return false; }
      var candidate, t0 := registers.Read(CandidateAt);
      if candidate != CandidateIs(a.candidate) { return false; }
      var observation, t1 := registers.Read(ObservationAt);
      if observation != ObservationIs(a.observation) { return false; }
      var catalog, t2 := registers.Read(CatalogAt(a.selector.catalogRoot));
      if catalog != CatalogIs(a.catalog) { return false; }
      var state, t3 := SelectedState(a.selector);
      if state != Some(a.state) { return false; }
      var activation, t4 := registers.Read(ActivationAt(a.selector));
      if activation != ActivationIs(a.activation) { return false; }
      var caller, t5 := registers.Read(CallerAt);
      if caller != CallerIs(a.caller) { return false; }
      var relationship, t6 := registers.Read(RelationshipAt);
      if relationship != RelationshipIs(a.relationship.pointer) { return false; }
      var selector, t7 := registers.Read(SelectorAt);
      if selector != SelectorIs(a.selector) { return false; }
      var repo, t8 := AuthorizedRepository();
      if repo.None? || repo.value.commit != a.repo.commit || repo.value.name != a.repo.name { return false; }
      ClaimsSeen(registers.trace, b, a, old(registers.clock), registers.clock);
      ok := true;
    }

    /** An answer's parts name each other, and unless a register it claims
        returned to a value it had left, all of them were held at one instant of
        the read. */
    method Read() returns (answer: Option<Answer>, ghost at: nat)
      modifies registers
      ensures old(registers.clock) <= at <= registers.clock
      ensures answer.Some? ==> Consistent(b, answer.value) && Composes(content, answer.value.relationship)
      ensures answer.Some? && NoneRepeats(registers.trace, b.policies, answer.value, old(registers.clock), registers.clock) ==>
        AllHeld(registers.trace, b.policies, answer.value, at)
    {
      answer := Collect();
      at := registers.clock;
      if answer.None? { return; }
      var ok := Confirm(answer.value);
      if !ok { answer := None; return; }
      if NoneRepeats(registers.trace, b.policies, answer.value, old(registers.clock), registers.clock) {
        OneInstant(registers.trace, b.policies, answer.value, old(registers.clock), at, registers.clock);
      }
    }
  }

  // ---- the two caches a successful read fills

  /** What a read derived and may commit once its whole body was written. */
  datatype Pending<K, V> = Pending(key: K, projection: V)

  /** One slot: the last committed derivation. */
  class Cache<K(==), V> {
    const derive: K -> V
    var slot: Option<Pending<K, V>>

    ghost predicate Valid()
      reads this
    {
      slot.Some? ==> slot.value.projection == derive(slot.value.key)
    }

    constructor (derive: K -> V)
      ensures Valid() && slot == None && this.derive == derive
    {
      this.derive, slot := derive, None;
    }

    /** A hit answers what deriving again would, and leaves nothing to commit. */
    method Prepare(key: K) returns (projection: Option<V>, pending: Option<Pending<K, V>>)
      requires Valid()
      ensures projection.Some? ==> projection.value == derive(key)
      ensures pending.Some? ==> pending.value == Pending(key, derive(key)) && projection.Some?
      ensures pending.None? && projection.Some? ==> slot.Some? && slot.value.key == key
    {
      if slot.Some? && slot.value.key == key { return Some(slot.value.projection), None; }
      var derived: bool := *;
      if !derived { return None, None; }
      var value := derive(key);
      projection, pending := Some(value), Some(Pending(key, value));
    }
  }

  /** Fills both caches or, cancelled, neither; a hit's cache stays as it is. */
  method CommitCaches<A(==), B, C(==), D>(
    sources: Cache<A, B>, source: Option<Pending<A, B>>,
    catalogs: Cache<C, D>, catalog: Option<Pending<C, D>>, cancelled: bool) returns (ok: bool)
    requires sources as object != catalogs as object // they are of different types
    requires sources.Valid() && catalogs.Valid()
    requires source.Some? ==> source.value.projection == sources.derive(source.value.key)
    requires catalog.Some? ==> catalog.value.projection == catalogs.derive(catalog.value.key)
    modifies sources`slot, catalogs`slot
    ensures sources.Valid() && catalogs.Valid() && ok == !cancelled
    ensures sources.slot == (if ok && source.Some? then source else old(sources.slot))
    ensures catalogs.slot == (if ok && catalog.Some? then catalog else old(catalogs.slot))
  {
    if cancelled { return false; }
    if source.Some? { sources.slot := source; }
    if catalog.Some? { catalogs.slot := catalog; }
    ok := true;
  }
}
