/** The durable store and the lease table, as the controller sees them: every
    call may fail, and a failed write may still have been committed. */
module RuntimeStore {
  import opened Wrappers
  import opened RuntimeSelectors

  datatype CatalogName = CatalogName(generation: Digest, revision: nat)

  /** An immutable v2 catalog generation: the v3 root its canonical bytes
      convert to, if they decode. */
  datatype V2Publication = V2Publication(holdingRoot: Option<Digest>)

  datatype CatalogPointer = CatalogPointer(root: Digest, revision: nat)

  datatype StatePoint = StatePoint(summary: Digest, revision: nat)

  datatype RelationshipPublication = RelationshipPublication(
    generation: Digest, root: Digest, catalog: CatalogPointer, state: StatePoint)

  /** The mutable v2 state summary: the catalog it is of, and its own state. */
  datatype Summary = Summary(names: CatalogName, state: StatePoint)

  datatype V2Relationship = V2Relationship(generation: Digest, root: Digest, catalog: Digest, state: StatePoint)

  /** What was selected, and what the v2 summary was, when v2 rows changed, and
      the publication being written, if one was. */
  datatype Mutation = Mutation(
    repository: Repository, selector: Option<Selector>, summary: Option<Summary>, publication: Option<CatalogName>)

  predicate IsOf(summary: Option<Summary>, publication: CatalogName) {
    summary.Some? && summary.value.names == publication
  }

  /** No explicit v2 reader could see the change. */
  predicate Fenced(m: Mutation) {
    m.selector.None? || m.selector.value.backend == V3 || (m.publication.Some? && IsOf(m.summary, m.publication.value))
  }

  /** Nothing but fenced changes came after. */
  ghost predicate OnlyFenced(before: seq<Mutation>, after: seq<Mutation>) {
    before <= after && forall i | |before| <= i < |after| :: Fenced(after[i])
  }

  function Lookup<V>(m: map<Repository, V>, key: Repository): Option<V> {
    if key in m then Some(m[key]) else None
  }

  const Troubles: Failure := {NotFound, Conflict, Broken}

  /** Something that is missing or moved on will be there later. */
  function Wait(failure: Failure): Failure {
    if NotFound in failure || Conflict in failure then failure + {Pending} else failure
  }

  class Store {
    var selectors: map<Repository, Selector>
    var leases: set<Lease>
    var issued: nat
    var publications: map<(Repository, Digest), V2Publication>
    var catalogs: map<Repository, CatalogName>
    var summaries: map<Repository, Summary>
    var relationships: map<Repository, V2Relationship>
    var searches: map<Repository, Digest>
    var candidates: map<Repository, CatalogPointer>
    var states: map<Repository, StatePoint>
    var roots: map<Repository, RelationshipPublication>
    ghost var exposures: nat            // moments that left a durable selector's generation unleased
    ghost var mutations: seq<Mutation>

    ghost predicate Valid()
      reads this
    {
      && (forall l | l in leases :: l.id < issued)
      && (forall r | r in selectors :: selectors[r].repository == r)
    }

    constructor ()
      ensures Valid() && selectors == map[] && leases == {} && exposures == 0 && mutations == []
    {
      selectors, leases, issued := map[], {}, 0;
      publications, candidates, states, roots := map[], map[], map[], map[];
      catalogs, summaries, relationships, searches := map[], map[], map[], map[];
      exposures, mutations := 0, [];
    }

    method Acquire(generation: Generation) returns (lease: Option<Lease>)
      requires Valid()
      modifies this`leases, this`issued, this`exposures
      ensures Valid()
      ensures lease.None? ==> leases == old(leases)
      ensures lease.Some? ==>
        && lease.value.generation == generation && lease.value !in old(leases)
        && leases == old(leases) + {lease.value}
      ensures exposures == old(exposures) + (if lease.Some? then Exposed(selectors, leases) else 0)
    {
      var granted: bool := *;
      if !granted { return None; }
      lease := Some(Lease(issued, generation));
      leases, issued := leases + {lease.value}, issued + 1;
      exposures := exposures + Exposed(selectors, leases);
    }

    /** A lease can be given back only while it is out, so at most once. */
    method Release(lease: Lease)
      requires Valid() && lease in leases
      modifies this`leases, this`exposures
      ensures Valid() && leases == old(leases) - {lease}
      ensures exposures == old(exposures) + Exposed(selectors, leases)
    {
      leases := leases - {lease};
      exposures := exposures + Exposed(selectors, leases);
    }

    method Get(repository: Repository) returns (failure: Failure, selector: Option<Selector>)
      ensures failure == {} ==> selector == Lookup(selectors, repository) && selector.Some?
      ensures failure != {} ==> selector.None?
      ensures NotFound in failure ==> repository !in selectors
    {
      var reachable: bool := *;
      if !reachable { return {Broken}, None; }
      if repository !in selectors { return {NotFound}, None; }
      return {}, Some(selectors[repository]);
    }

    method Confirm(selector: Selector) returns (failure: Failure)
      ensures failure == {} ==> Lookup(selectors, selector.repository) == Some(selector)
    {
      var current;
      failure, current := Get(selector.repository);
      if failure == {} && current != Some(selector) { failure := {Conflict}; }
    }

    method List() returns (failure: Failure, rows: seq<Selector>)
      requires Valid()
      ensures failure == {} ==>
        && (forall s | s in rows :: Lookup(selectors, s.repository) == Some(s))
        && (forall r | r in selectors :: selectors[r] in rows)
        && (forall i, j | 0 <= i < j < |rows| :: rows[i].repository != rows[j].repository)
    {
      var reachable: bool := *;
      if !reachable { return {Broken}, []; }
      var left := selectors.Keys;
      failure, rows := {}, [];
      while left != {}
        invariant left <= selectors.Keys
        invariant forall s | s in rows :: s.repository !in left && Lookup(selectors, s.repository) == Some(s)
        invariant forall r | r in selectors && r !in left :: selectors[r] in rows
        invariant forall i, j | 0 <= i < j < |rows| :: rows[i].repository != rows[j].repository
        decreases left
      {
        var r :| r in left;
        left, rows := left - {r}, rows + [selectors[r]];
      }
    }

    /** Compare and swap. Success is a commit; failure says nothing about it. */
    method Swap(repository: Repository, backend: Backend, expected: Option<Selector>, target: Target)
      returns (failure: Failure, selected: Option<Selector>)
      requires Valid()
      modifies this`selectors, this`exposures
      ensures Valid()
      ensures selectors == old(selectors) || Committed(old(selectors), selectors, repository, backend, expected, target)
      ensures failure == {} ==>
        && Committed(old(selectors), selectors, repository, backend, expected, target)
        && selected == Some(selectors[repository])
      ensures exposures == old(exposures) || exposures == old(exposures) + Exposed(selectors, leases)
    {
      var attempted: bool := *;
      var current := Lookup(selectors, repository);
      if !attempted || current.Some? != expected.Some? ||
         (current.Some? && (current.value.revision, current.value.digest) != (expected.value.revision, expected.value.digest))
      {
        return {Conflict}, None;
      }
      var digest: Digest := *;
      var now: nat := *;
      var next := Selector(repository, backend, target, (if expected.Some? then expected.value.revision else 0) + 1, digest, now);
      selectors := selectors[repository := next];
      exposures := exposures + Exposed(selectors, leases);
      var acknowledged: bool := *;
      if !acknowledged { return {Broken}, None; }
      return {}, Some(next);
    }

    static ghost predicate Committed(before: map<Repository, Selector>, after: map<Repository, Selector>,
                                     repository: Repository, backend: Backend, expected: Option<Selector>, target: Target)
    {
      && repository in after && after == before[repository := after[repository]]
      && after[repository].repository == repository
      && after[repository].backend == backend && after[repository].target == target
      && (repository in before <==> expected.Some?)
      && after[repository].revision == (if expected.Some? then expected.value.revision else 0) + 1
    }

    /** Removes the selector of a repository being deleted; may fail after the fact. */
    method Retire(repository: Repository) returns (failure: Failure)
      requires Valid()
      modifies this`selectors, this`exposures
      ensures Valid()
      ensures selectors == old(selectors) || selectors == old(selectors) - {repository}
      ensures failure == {} ==> selectors == old(selectors) - {repository}
      ensures exposures == old(exposures) || exposures == old(exposures) + Exposed(selectors, leases)
    {
      var attempted: bool := *;
      if !attempted { return {Conflict}; }
      selectors := selectors - {repository};
      exposures := exposures + Exposed(selectors, leases);
      var acknowledged: bool := *;
      failure := if acknowledged then {} else {Broken};
    }

    /** How a call to another package may fail. */
    method Trouble() returns (failure: Failure)
      ensures failure <= Troubles
    {
      var missing: bool, conflicting: bool, broken: bool := *, *, *;
      failure := (if missing then {NotFound} else {}) + (if conflicting then {Conflict} else {}) + (if broken then {Broken} else {});
    }

    /** Publishes the v3 candidate rebuilt from an immutable v2 generation. */
    method PublishHolding(selector: Selector, root: Digest) returns (failure: Failure)
      modifies this`candidates
      ensures failure == {} ==> selector.repository in candidates && candidates[selector.repository].root == root
    {
      failure := Trouble();
      if failure != {} { return; }
      if selector.backend != V2 { return {Broken}; }
      var revision: nat := *;
      candidates := candidates[selector.repository := CatalogPointer(root, revision)];
      return {};
    }

    /** One pass of state reconciliation or activation; `settled` means it found
        nothing left to do. */
    method ReconcileState(repository: Repository) returns (failure: Failure, settled: bool)
      modifies this`states
      ensures failure <= Troubles
    {
      var next: map<Repository, StatePoint> := *;
      states := next;
      settled := *;
      failure := Trouble();
    }

    method ReconcileRelationship(repository: Repository) returns (failure: Failure, current: bool)
      modifies this`roots
    {
      var next: map<Repository, RelationshipPublication> := *;
      roots := next;
      current := *;
      failure := Trouble();
    }

    /** One bounded chunk of v3 state work; `settled` means the schedule is done. */
    method ProcessChunk(repository: Repository) returns (failure: Failure, settled: bool)
      modifies this`states
      ensures failure <= Troubles
    {
      failure, settled := ReconcileState(repository);
    }

    /** The search generation the index publishes now; others may
        have been reindexed meanwhile. */
    method ReadSearch(repository: Repository) returns (failure: Failure, search: Digest)
      modifies this`searches
      ensures failure == {} ==> Lookup(searches, repository) == Some(search)
    {
      var next: map<Repository, Digest> := *;
      searches := next;
      failure := Trouble();
      if failure != {} { return failure, Absent; }
      if repository !in searches { return {Broken}, Absent; }
      search := searches[repository];
    }

    method ReconcileV2Relationship(repository: Repository) returns (failure: Failure)
      modifies this`relationships
    {
      var next: map<Repository, V2Relationship> := *;
      relationships := next;
      failure := Trouble();
    }

    /** A change to the mutable v2 catalog or state rows. */
    method Mutate(repository: Repository, publication: Option<CatalogName>) returns (failure: Failure)
      modifies this`catalogs, this`summaries, this`mutations
      ensures mutations == old(mutations) +
        [Mutation(repository, Lookup(selectors, repository), Lookup(old(summaries), repository), publication)]
    {
      mutations := mutations + [Mutation(repository, Lookup(selectors, repository), Lookup(summaries, repository), publication)];
      var rows: map<Repository, CatalogName>, next: map<Repository, Summary> := *, *;
      var reachable: bool := *;
      catalogs, summaries := rows, next;
      failure := if reachable then {} else {Broken};
    }
  }
}
