/** Selectors, targets, and the leases that keep the generations a selector
    names out of lifecycle collection's reach. */
module RuntimeSelectors {
  import opened Wrappers

  datatype Repository = Repository(name: string)

  /** A content digest, or the empty string that stands for none. */
  datatype Digest = Absent | Sha256(id: nat)

  datatype Backend = V2 | V3

  datatype Target = Target(
    catalogGeneration: Digest, catalogRoot: Digest, catalogRevision: nat,
    stateRevision: nat, stateSummary: Digest, search: Digest,
    relationship: Digest, relationshipRoot: Digest)

  datatype Selector = Selector(
    repository: Repository, backend: Backend, target: Target,
    revision: nat, digest: Digest, changedAt: nat)

  datatype Cause = NotFound | Conflict | Pending | Continuation | Deferred | Unavailable | Broken

  /** A joined error as the set of its causes; no error is the empty set. */
  type Failure = set<Cause>

  /** An immutable generation that lifecycle collection may delete once unleased. */
  datatype Generation =
    | Search(repository: Repository, digest: Digest)
    | Relationship(repository: Repository, backend: Backend, generation: Digest, root: Digest)

  datatype Lease = Lease(id: nat, generation: Generation)

  /** The two leases held for one selector. */
  datatype Pins = Pins(selector: Selector, search: Lease, relationship: Lease) {
    ghost function Leases(): set<Lease> { {search, relationship} }

    /** Both leases name exactly the generations the selector needs. */
    ghost predicate For(s: Selector) {
      && search.generation == SearchOf(s)
      && relationship.generation == RelationshipOf(s)
    }

    ghost predicate Proper() { For(selector) && search != relationship }
  }

  function SearchOf(s: Selector): Generation { Search(s.repository, s.target.search) }

  function RelationshipOf(s: Selector): Generation {
    Relationship(s.repository, s.backend, s.target.relationship, s.target.relationshipRoot)
  }

  predicate SameChoice(a: Selector, b: Selector) {
    a.repository == b.repository && a.backend == b.backend && a.target == b.target
  }

  // ---- coverage of the durable selectors by live leases

  ghost predicate Out(g: Generation, leases: set<Lease>) {
    exists l :: l in leases && l.generation == g
  }

  /** Every generation a durable selector names is leased. */
  ghost predicate Covered(selectors: map<Repository, Selector>, leases: set<Lease>) {
    forall r | r in selectors :: Out(SearchOf(selectors[r]), leases) && Out(RelationshipOf(selectors[r]), leases)
  }

  /** What one moment adds to the count of moments that leave a durable
      selector's generation open to collection. */
  ghost function Exposed(selectors: map<Repository, Selector>, leases: set<Lease>): nat {
    if Covered(selectors, leases) then 0 else 1
  }

  // ---- the pins a controller holds

  /** Each entry is filed under its own repository and leases what it selects. */
  ghost predicate Filed(held: map<Repository, Pins>) {
    forall r | r in held :: held[r].Proper() && held[r].selector.repository == r
  }

  /** The lease sits in the map: only its own repository's entry can hold it. */
  ghost predicate At(held: map<Repository, Pins>, l: Lease) {
    l.generation.repository in held && l in held[l.generation.repository].Leases()
  }

  ghost predicate Holds(held: map<Repository, Pins>, s: Selector) {
    s.repository in held && SameChoice(held[s.repository].selector, s)
  }

  /** Every live lease is in exactly one place: an entry of one of the two
      maps, or `running`, the leases of the call in progress. */
  ghost predicate Conserved(leases: set<Lease>, pins: map<Repository, Pins>, uncertain: map<Repository, Pins>, running: set<Lease>) {
    && Filed(pins) && Filed(uncertain)
    && (forall l :: l in leases <==> l in running || At(pins, l) || At(uncertain, l))
    && (forall l :: At(pins, l) ==> !At(uncertain, l) && l !in running)
    && (forall l :: At(uncertain, l) ==> l !in running)
  }

  function LeasesAt(held: map<Repository, Pins>, repository: Repository): (s: set<Lease>) {
    if repository in held then {held[repository].search, held[repository].relationship} else {}
  }

  lemma ConservedInstalling(leases: set<Lease>, pins: map<Repository, Pins>, uncertain: map<Repository, Pins>,
                            repository: Repository, held: Pins)
    requires held.Proper() && held.selector.repository == repository
    requires Conserved(leases, pins, uncertain, held.Leases())
    ensures Conserved(leases, pins[repository := held], uncertain, LeasesAt(pins, repository))
  {
    assert forall l | l in LeasesAt(pins, repository) :: At(pins, l);
  }

  lemma ConservedTaking(leases: set<Lease>, pins: map<Repository, Pins>, uncertain: map<Repository, Pins>, repository: Repository)
    requires Conserved(leases, pins, uncertain, {})
    ensures Conserved(leases, pins, uncertain - {repository}, LeasesAt(uncertain, repository))
  {
  }

  lemma ConservedTakingPins(leases: set<Lease>, pins: map<Repository, Pins>, uncertain: map<Repository, Pins>, repository: Repository)
    requires Conserved(leases, pins, uncertain, {})
    ensures Conserved(leases, pins - {repository}, uncertain, LeasesAt(pins, repository))
  {
  }

  lemma ConservedReplacing(leases: set<Lease>, pins: map<Repository, Pins>, uncertain: map<Repository, Pins>,
                           next: map<Repository, Pins>, running: set<Lease>)
    requires Conserved(leases, pins, uncertain, running)
    requires Filed(next) && forall l :: At(next, l) <==> l in running
    ensures Conserved(leases, next, map[], leases - running)
    ensures forall l :: l in leases - running <==> At(pins, l) || At(uncertain, l)
  {
  }

  /** Every durable selector's generations are leased in one of the maps. */
  ghost predicate Kept(selectors: map<Repository, Selector>, pins: map<Repository, Pins>, uncertain: map<Repository, Pins>) {
    forall r | r in selectors ::
      selectors[r].repository == r && (Holds(pins, selectors[r]) || Holds(uncertain, selectors[r]))
  }

  lemma EntryIsLeased(held: map<Repository, Pins>, s: Selector, floor: set<Lease>)
    requires Filed(held) && Holds(held, s)
    requires forall l :: At(held, l) ==> l in floor
    ensures Out(SearchOf(s), floor) && Out(RelationshipOf(s), floor)
  {
    var p := held[s.repository];
    assert At(held, p.search) && At(held, p.relationship);
  }

  lemma KeptIsCovered(selectors: map<Repository, Selector>, pins: map<Repository, Pins>, uncertain: map<Repository, Pins>, floor: set<Lease>)
    requires Filed(pins) && Filed(uncertain) && Kept(selectors, pins, uncertain)
    requires forall l :: At(pins, l) || At(uncertain, l) ==> l in floor
    ensures Covered(selectors, floor)
  {
    forall r | r in selectors ensures Out(SearchOf(selectors[r]), floor) && Out(RelationshipOf(selectors[r]), floor) {
      EntryIsLeased(if Holds(pins, selectors[r]) then pins else uncertain, selectors[r], floor);
    }
  }

  /** An entry that matches the durable selector may replace whatever kept it. */
  lemma KeptWith(selectors: map<Repository, Selector>, pins: map<Repository, Pins>, uncertain: map<Repository, Pins>,
                 repository: Repository, held: Pins)
    requires Kept(selectors, pins, uncertain)
    requires repository in selectors ==> SameChoice(held.selector, selectors[repository])
    ensures Kept(selectors, pins[repository := held], uncertain)
    ensures Kept(selectors, pins[repository := held], uncertain - {repository})
  {
  }

  lemma KeptRetiring(selectors: map<Repository, Selector>, pins: map<Repository, Pins>, uncertain: map<Repository, Pins>, repository: Repository)
    ensures Kept(selectors, pins, uncertain) ==>
      && Kept(selectors - {repository}, pins - {repository}, uncertain)
      && Kept(selectors - {repository}, pins - {repository}, uncertain - {repository})
  {
  }

  lemma ConservedFiling(leases: set<Lease>, pins: map<Repository, Pins>, uncertain: map<Repository, Pins>,
                        repository: Repository, held: Pins)
    requires held.Proper() && held.selector.repository == repository && repository !in uncertain
    requires Conserved(leases, pins, uncertain, held.Leases())
    ensures Conserved(leases, pins, uncertain[repository := held], {})
  {
  }

  /** Whether or not a swap commits, the leases taken for its target and those
      already filed cover what is durable. */
  lemma SwapIsCovered(prior: map<Repository, Selector>, selectors: map<Repository, Selector>, leases: set<Lease>,
                      pins: map<Repository, Pins>, uncertain: map<Repository, Pins>, repository: Repository, held: Pins)
    requires held.Proper() && held.selector.repository == repository
    requires Conserved(leases, pins, uncertain, held.Leases()) && Kept(prior, pins, uncertain)
    requires selectors == prior || (repository in selectors && selectors == prior[repository := selectors[repository]] &&
                                    SameChoice(held.selector, selectors[repository]))
    ensures Covered(selectors, leases)
    ensures selectors != prior ==> Kept(selectors, pins[repository := held], uncertain)
    ensures Kept(selectors, pins, uncertain[repository := held]) || repository in uncertain
  {
    KeptIsCovered(selectors, if selectors == prior then pins else pins[repository := held], uncertain, leases);
  }

  /** A swap found committed is kept by the leases taken for its target. */
  lemma CommittedIsKept(prior: map<Repository, Selector>, selectors: map<Repository, Selector>, pins: map<Repository, Pins>,
                        uncertain: map<Repository, Pins>, repository: Repository, held: Pins)
    requires Kept(prior, pins, uncertain) && repository in selectors && held.selector.repository == repository
    requires selectors == prior || selectors == prior[repository := selectors[repository]]
    requires SameChoice(held.selector, selectors[repository])
    ensures Kept(selectors, pins[repository := held.(selector := selectors[repository])], uncertain)
  {
    var next := pins[repository := held.(selector := selectors[repository])];
    forall r | r in selectors
      ensures selectors[r].repository == r && (Holds(next, selectors[r]) || Holds(uncertain, selectors[r]))
    {
      if r != repository { assert selectors[r] == prior[r]; }
    }
  }

  // ---- counting

  ghost function Counted(leases: set<Lease>, g: Generation): nat {
    |set l | l in leases && l.generation == g|
  }

  ghost function InMap(leases: set<Lease>, held: map<Repository, Pins>): set<Lease> {
    set l | l in leases && At(held, l)
  }

  /** Per generation, the leases out are those filed in each map plus those of
      the running call: none is lost and none is held twice. */
  lemma CountedByPlace(leases: set<Lease>, pins: map<Repository, Pins>, uncertain: map<Repository, Pins>, running: set<Lease>, g: Generation)
    requires Conserved(leases, pins, uncertain, running)
    ensures Counted(leases, g) == Counted(InMap(leases, pins), g) + Counted(InMap(leases, uncertain), g) + Counted(running, g)
  {
    var p, u := InMap(leases, pins), InMap(leases, uncertain);
    assert leases == p + u + running && p !! u && (p + u) !! running;
    CountedUnion(p, u, g);
    CountedUnion(p + u, running, g);
  }

  lemma CountedUnion(a: set<Lease>, b: set<Lease>, g: Generation)
    requires a !! b
    ensures Counted(a + b, g) == Counted(a, g) + Counted(b, g)
  {
    var x, y := set l | l in a && l.generation == g, set l | l in b && l.generation == g;
    assert x !! y && (set l | l in a + b && l.generation == g) == x + y;
  }
}
