/** The controller that moves each repository's durable selector while it holds
    the leases of whatever that selector may name. */
module ServiceRuntime {
  import opened Wrappers
  import opened RuntimeSelectors
  import opened RuntimeStore

  class Controller {
    const store: Store
    const extraction: bool              // a relationship runtime is configured
    const configured: map<Repository, Backend>
    var pins: map<Repository, Pins>
    var uncertain: map<Repository, Pins>
    ghost var pinned: bool              // PinSelections has succeeded and Close has not run
    ghost var promised: nat             // exposures before coverage was promised

    // ---- the invariant

    ghost predicate Promised()
      reads this, store
    {
      pinned ==> Kept(store.selectors, pins, uncertain) && store.exposures == promised
    }

    /** The state inside a call that has taken `running` and filed none of it yet. */
    ghost predicate Running(running: set<Lease>)
      reads this, store
    {
      store.Valid() && Conserved(store.leases, pins, uncertain, running) && Promised()
    }

    ghost predicate Valid()
      reads this, store
    {
      Running({})
    }

    constructor (store: Store, extraction: bool, configured: map<Repository, Backend>)
      requires store.Valid() && store.leases == {}
      ensures Valid() && this.store == store && this.extraction == extraction && this.configured == configured && !pinned
      ensures pins == map[] && uncertain == map[]
    {
      this.store, this.extraction, this.configured := store, extraction, configured;
      pins, uncertain, pinned, promised := map[], map[], false, 0;
    }

    ghost predicate Reads(repository: Repository, current: Option<Selector>)
      reads this, store
    {
      current == Lookup(store.selectors, repository)
    }

    // ---- taking and giving back leases

    method TakeLease(generation: Generation, ghost running: set<Lease>) returns (lease: Option<Lease>)
      requires Running(running)
      modifies store`leases, store`issued, store`exposures
      ensures lease.None? ==> Running(running)
      ensures lease.Some? ==>
        lease.value.generation == generation && lease.value !in running && Running(running + {lease.value})
    {
      Covering();
      lease := store.Acquire(generation);
      Covering();
    }

    method GiveBack(lease: Lease, ghost running: set<Lease>)
      requires Running(running) && lease in running
      modifies store`leases, store`exposures
      ensures Running(running - {lease})
    {
      store.Release(lease);
      Covering();
    }

    method AcquirePins(selector: Selector, ghost running: set<Lease>) returns (failure: Failure, held: Option<Pins>)
      requires Running(running)
      modifies store`leases, store`issued, store`exposures
      ensures failure == {} <==> held.Some?
      ensures held.None? ==> Running(running)
      ensures held.Some? ==>
        && held.value.selector == selector && held.value.Proper() && held.value.Leases() !! running
        && Running(running + held.value.Leases())
    {
      var search := TakeLease(SearchOf(selector), running);
      if search.None? { return {Broken}, None; }
      ghost var one := running + {search.value};
      var relationship := TakeLease(RelationshipOf(selector), one);
      if relationship.None? {
        GiveBack(search.value, one);
        assert one - {search.value} == running;
        return {Broken}, None;
      }
      held := Some(Pins(selector, search.value, relationship.value));
      assert one + {relationship.value} == running + held.value.Leases();
      failure := {};
    }

    /** Gives back leases that were never filed. */
    method Release(held: Pins, ghost running: set<Lease>)
      requires Running(running) && held.Proper() && held.Leases() <= running
      modifies store`leases, store`exposures
      ensures Running(running - held.Leases())
    {
      GiveBack(held.search, running);
      GiveBack(held.relationship, running - {held.search});
      assert running - {held.search} - {held.relationship} == running - held.Leases();
    }

    /** Whatever else is leased, the two maps alone cover what is durable. */
    lemma Covering()
      requires Filed(pins) && Filed(uncertain)
      requires forall l :: At(pins, l) || At(uncertain, l) ==> l in store.leases
      ensures Kept(store.selectors, pins, uncertain) ==> Exposed(store.selectors, store.leases) == 0
    {
      if Kept(store.selectors, pins, uncertain) { KeptIsCovered(store.selectors, pins, uncertain, store.leases); }
    }

    method InstallPins(repository: Repository, held: Pins)
      requires held.Proper() && held.selector.repository == repository
      requires store.Valid() && Conserved(store.leases, pins, uncertain, held.Leases())
      requires pinned ==> Kept(store.selectors, pins[repository := held], uncertain) && store.exposures == promised
      modifies this`pins, store`leases, store`exposures
      ensures Valid() && pins == old(pins)[repository := held]
    {
      var prior := Lookup(pins, repository);
      ConservedInstalling(store.leases, pins, uncertain, repository, held);
      pins := pins[repository := held];
      if prior.Some? { Release(prior.value, prior.value.Leases()); }
    }

    /** Releases an unresolved entry that no durable selector relies on. */
    method DropUncertain(repository: Repository)
      requires store.Valid() && Conserved(store.leases, pins, uncertain, {})
      requires pinned ==> Kept(store.selectors, pins, uncertain - {repository}) && store.exposures == promised
      modifies this`uncertain, store`leases, store`exposures
      ensures Valid() && uncertain == old(uncertain) - {repository}
    {
      var held := Lookup(uncertain, repository);
      ConservedTaking(store.leases, pins, uncertain, repository);
      uncertain := uncertain - {repository};
      if held.Some? { Release(held.value, held.value.Leases()); }
    }

    method DropPins(repository: Repository)
      requires store.Valid() && Conserved(store.leases, pins, uncertain, {})
      requires pinned ==> Kept(store.selectors, pins - {repository}, uncertain) && store.exposures == promised
      modifies this`pins, store`leases, store`exposures
      ensures Valid() && pins == old(pins) - {repository}
    {
      var held := Lookup(pins, repository);
      ConservedTakingPins(store.leases, pins, uncertain, repository);
      pins := pins - {repository};
      if held.Some? { Release(held.value, held.value.Leases()); }
    }

    /** Settles what an earlier unacknowledged swap left open, now that the
        durable selector is known. */
    method ResolveUncertain(repository: Repository, current: Option<Selector>)
      requires Valid() && Reads(repository, current)
      modifies this`pins, this`uncertain, store`leases, store`exposures
      ensures Valid() && uncertain == old(uncertain) - {repository}
      ensures pins == old(pins) || (current.Some? && repository in old(uncertain) &&
        pins == old(pins)[repository := old(uncertain)[repository].(selector := current.value)])
    {
      if repository !in uncertain {
        assert uncertain - {repository} == uncertain;
        return;
      }
      ghost var rest := uncertain - {repository};
      if current.Some? && SameChoice(current.value, uncertain[repository].selector) {
        var held := uncertain[repository].(selector := current.value);
        ConservedTaking(store.leases, pins, uncertain, repository);
        if pinned { KeptWith(store.selectors, pins, uncertain, repository, held); }
        ghost var next := pins[repository := held];
        uncertain := uncertain - {repository};
        InstallPins(repository, held);
        assert uncertain == rest && pins == next;
      } else {
        DropUncertain(repository);
      }
    }

    /** Leases the durable selector itself, unless its leases are already filed. */
    method EnsurePinned(selector: Selector) returns (failure: Failure)
      requires Valid() && Reads(selector.repository, Some(selector))
      modifies this`pins, store`leases, store`issued, store`exposures
      ensures Valid()
      ensures failure != {} ==> pins == old(pins)
      ensures failure == {} ==> Pinned(selector) && pins == old(pins)[selector.repository := pins[selector.repository]]
    {
      if selector.repository in pins && pins[selector.repository].selector == selector { return {}; }
      var held;
      failure, held := LeaseConfirmed(selector, {});
      if failure != {} { return; }
      if pinned { KeptWith(store.selectors, pins, uncertain, selector.repository, held.value); }
      InstallPins(selector.repository, held.value);
    }

    /** Leases a selector, then checks that it is still what is durable. */
    method LeaseConfirmed(selector: Selector, ghost running: set<Lease>) returns (failure: Failure, held: Option<Pins>)
      requires Running(running)
      modifies store`leases, store`issued, store`exposures
      ensures failure == {} <==> held.Some?
      ensures held.None? ==> Running(running)
      ensures held.Some? ==>
        && held.value.selector == selector && held.value.Proper() && held.value.Leases() !! running
        && Running(running + held.value.Leases()) && Reads(selector.repository, Some(selector))
    {
      failure, held := AcquirePins(selector, running);
      if failure != {} { return; }
      var valid: bool := *;             // the recovery package's check of the target
      failure := if valid then {} else {Broken};
      if failure == {} { failure := store.Confirm(selector); }
      if failure != {} {
        Release(held.value, running + held.value.Leases());
        assert running + held.value.Leases() - held.value.Leases() == running;
        held := None;
      }
    }

    ghost predicate Pinned(selector: Selector)
      reads this
    {
      selector.repository in pins && pins[selector.repository].selector == selector
    }

    // ---- moving the durable selector

    /** The durable selector is exactly this choice, and its leases are filed. */
    ghost predicate Chosen(repository: Repository, backend: Backend, target: Target)
      reads this, store
    {
      && repository in store.selectors && Pinned(store.selectors[repository])
      && store.selectors[repository].backend == backend && store.selectors[repository].target == target
    }

    method SelectLocked(repository: Repository, backend: Backend, current: Option<Selector>, target: Target)
      returns (failure: Failure)
      requires Valid() && Reads(repository, current)
      modifies this`pins, this`uncertain, store`selectors, store`leases, store`issued, store`exposures
      ensures Valid()
      ensures store.selectors == old(store.selectors) ||
        Store.Committed(old(store.selectors), store.selectors, repository, backend, current, target)
      ensures failure == {} ==> Chosen(repository, backend, target) && repository !in uncertain
      ensures failure != {} && store.selectors != old(store.selectors) ==>
        Holds(uncertain, store.selectors[repository])
      ensures current.Some? && current.value.backend == backend && current.value.target == target ==>
        store.selectors == old(store.selectors)
    {
      ResolveUncertain(repository, current);
      if current.Some? && current.value.backend == backend && current.value.target == target {
        failure := EnsurePinned(current.value);
        return;
      }
      failure := HoldAndSwap(repository, backend, current, target);
    }

    /** Leases the target before it can become durable, then swaps. */
    method HoldAndSwap(repository: Repository, backend: Backend, current: Option<Selector>, target: Target)
      returns (failure: Failure)
      requires Valid() && Reads(repository, current) && repository !in uncertain
      requires current.Some? ==> current.value.backend != backend || current.value.target != target
      modifies this`pins, this`uncertain, store`selectors, store`leases, store`issued, store`exposures
      ensures Valid()
      ensures store.selectors == old(store.selectors) ||
        Store.Committed(old(store.selectors), store.selectors, repository, backend, current, target)
      ensures failure == {} ==> Chosen(repository, backend, target) && repository !in uncertain
      ensures failure != {} && store.selectors != old(store.selectors) ==>
        Holds(uncertain, store.selectors[repository])
    {
      var prospective := Selector(repository, backend, target, 0, Absent, 0);
      var held;
      failure, held := AcquirePins(prospective, {});
      if failure != {} { return; }
      var valid: bool := *;             // the recovery package's check of the target
      if !valid {
        Release(held.value, held.value.Leases());
        return {Broken};
      }
      failure := SwapHolding(repository, backend, current, target, held.value);
    }

    /** The compare-and-swap, made while the leases of its target are held. */
    method SwapHolding(repository: Repository, backend: Backend, current: Option<Selector>, target: Target, held: Pins)
      returns (failure: Failure)
      requires Running(held.Leases()) && Reads(repository, current) && repository !in uncertain
      requires held.Proper() && held.selector == Selector(repository, backend, target, 0, Absent, 0)
      requires current.Some? ==> current.value.backend != backend || current.value.target != target
      modifies this`pins, this`uncertain, store`selectors, store`leases, store`exposures
      ensures Valid()
      ensures store.selectors == old(store.selectors) ||
        Store.Committed(old(store.selectors), store.selectors, repository, backend, current, target)
      ensures failure == {} ==> Chosen(repository, backend, target) && repository !in uncertain
      ensures failure != {} && store.selectors != old(store.selectors) ==>
        Holds(uncertain, store.selectors[repository])
    {
      ghost var prior := store.selectors;
      var selected;
      failure, selected := store.Swap(repository, backend, current, target);
      if pinned {
        SwapIsCovered(prior, store.selectors, store.leases, pins, uncertain, repository, held);
      }
      if failure == {} {
        InstallPins(repository, held.(selector := selected.value));
      } else {
        failure := SettleFailedSwap(repository, backend, target, held, failure, prior);
      }
    }

    /** Keeps leases whose fate is not known. */
    method FileUncertain(repository: Repository, held: Pins)
      requires held.Proper() && held.selector.repository == repository && repository !in uncertain
      requires store.Valid() && Conserved(store.leases, pins, uncertain, held.Leases())
      requires pinned ==> Kept(store.selectors, pins, uncertain[repository := held]) && store.exposures == promised
      modifies this`uncertain
      ensures Valid() && uncertain == old(uncertain)[repository := held]
    {
      ConservedFiling(store.leases, pins, uncertain, repository, held);
      uncertain := uncertain[repository := held];
    }

    /** After a swap that reported failure: only the durable row says whether it
        committed, and if that cannot be read the leases are kept, unresolved. */
    method SettleFailedSwap(repository: Repository, backend: Backend, target: Target, held: Pins, reported: Failure,
                            ghost prior: map<Repository, Selector>)
      returns (failure: Failure)
      requires store.Valid() && Conserved(store.leases, pins, uncertain, held.Leases())
      requires reported != {} && repository !in uncertain
      requires held.Proper() && held.selector == Selector(repository, backend, target, 0, Absent, 0)
      requires repository in prior ==> prior[repository].backend != backend || prior[repository].target != target
      requires store.selectors == prior || (repository in store.selectors &&
        store.selectors == prior[repository := store.selectors[repository]] && SameChoice(held.selector, store.selectors[repository]))
      requires pinned ==> Kept(prior, pins, uncertain) && store.exposures == promised
      modifies this`pins, this`uncertain, store`leases, store`exposures
      ensures Valid()
      ensures failure == {} ==> Chosen(repository, backend, target) && repository !in uncertain
      ensures failure != {} && store.selectors != prior ==> Holds(uncertain, store.selectors[repository])
    {
      var doubt, confirmed := store.Get(repository);
      if doubt != {} && NotFound !in doubt {
        FileUncertain(repository, held);
        return reported + doubt;
      }
      if NotFound in doubt {
        Release(held, held.Leases());
        return reported + doubt;
      }
      if confirmed.value.backend != backend || confirmed.value.target != target {
        Release(held, held.Leases());
        return reported + {Conflict};
      }
      if pinned { CommittedIsKept(prior, store.selectors, pins, uncertain, repository, held); }
      InstallPins(repository, held.(selector := confirmed.value));
      return {};
    }

    // ---- startup, deletion and shutdown

    /** Gives back every lease of a map that is no longer filed. */
    method ReleaseAll(values: map<Repository, Pins>, ghost running: set<Lease>)
      requires Running(running) && Filed(values)
      requires forall l :: At(values, l) ==> l in running
      modifies store`leases, store`exposures
      ensures Running(Rest(running, values))
    {
      var left := values.Keys;
      ghost var now := running;
      while left != {}
        invariant left <= values.Keys && Running(now)
        invariant forall l :: l in now <==> l in running && !(At(values, l) && l.generation.repository !in left)
        decreases left
      {
        var r :| r in left;
        Release(values[r], now);
        now := now - values[r].Leases();
        left := left - {r};
      }
      assert now == Rest(running, values);
    }

    /** Leases every listed selector afresh; only when all of them are held and
        confirmed are the earlier leases given back. */
    method PinSelections() returns (failure: Failure)
      requires Valid()
      modifies this, store`leases, store`issued, store`exposures
      ensures Valid()
      ensures failure == {} ==>
        && pinned && uncertain == map[] && (old(pinned) ==> promised == old(promised))
        && pins.Keys == store.selectors.Keys && forall r | r in store.selectors :: Pinned(store.selectors[r])
      ensures failure != {} ==>
        pins == old(pins) && uncertain == old(uncertain) && pinned == old(pinned) && promised == old(promised)
    {
      var rows;
      failure, rows := store.List();
      if failure != {} { return; }
      if |rows| > 0 && !extraction { return {Unavailable}; }
      var next; ghost var running;
      failure, next, running := LeaseAll(rows);
      if failure != {} { return; }
      assert forall r | r in next :: next[r].selector in rows;
      Replace(next, running);
    }

    method LeaseAll(rows: seq<Selector>) returns (failure: Failure, next: map<Repository, Pins>, ghost running: set<Lease>)
      requires Valid()
      requires forall i, j | 0 <= i < j < |rows| :: rows[i].repository != rows[j].repository
      modifies store`leases, store`issued, store`exposures
      ensures failure != {} ==> Valid()
      ensures failure == {} ==>
        && Running(running) && Filed(next) && (forall l :: At(next, l) <==> l in running)
        && (forall s | s in rows :: s.repository in next && next[s.repository].selector == s)
        && (forall r | r in next :: next[r].selector in rows)
    {
      next, running := map[], {};
      for i := 0 to |rows|
        invariant Running(running) && Filed(next) && (forall l :: At(next, l) <==> l in running)
        invariant forall j | 0 <= j < i :: rows[j].repository in next && next[rows[j].repository].selector == rows[j]
        invariant forall r | r in next :: next[r].selector in rows[..i]
      {
        var held;
        failure, held := LeaseConfirmed(rows[i], running);
        if failure != {} {
          ReleaseAll(next, running);
          assert Rest(running, next) == {};
          return;
        }
        Adding(next, running, rows[i].repository, held.value);
        next := next[rows[i].repository := held.value];
        running := running + held.value.Leases();
      }
      failure := {};
    }

    lemma Adding(next: map<Repository, Pins>, running: set<Lease>, repository: Repository, held: Pins)
      requires Filed(next) && (forall l :: At(next, l) <==> l in running)
      requires repository !in next && held.Proper() && held.selector.repository == repository
      ensures Filed(next[repository := held])
      ensures forall l :: At(next[repository := held], l) <==> l in running + held.Leases()
    {
    }

    /** Files the fresh leases, then gives back everything filed before. */
    method Replace(next: map<Repository, Pins>, ghost running: set<Lease>)
      requires Running(running) && Filed(next)
      requires forall l :: At(next, l) <==> l in running
      requires Kept(store.selectors, next, map[])
      modifies this, store`leases, store`exposures
      ensures Valid() && pinned && pins == next && uncertain == map[]
      ensures old(pinned) ==> promised == old(promised)
    {
      var prior, open := pins, uncertain;
      ghost var earlier := store.leases - running;
      ConservedReplacing(store.leases, pins, uncertain, next, running);
      promised := if pinned then promised else store.exposures;
      pins, uncertain, pinned := next, map[], true;
      ReleaseAll(prior, earlier);
      ReleaseAll(open, Rest(earlier, prior));
      assert Rest(Rest(earlier, prior), open) == {};
    }

    /** Runs under the deletion's own mutation lock: the durable selector leaves
        first, and only then the leases. */
    method RetireRepository(repository: Repository) returns (failure: Failure)
      requires Valid()
      modifies this`pins, this`uncertain, store`selectors, store`leases, store`exposures
      ensures Valid()
      ensures store.selectors == old(store.selectors) || store.selectors == old(store.selectors) - {repository}
      ensures failure == {} ==>
        && store.selectors == old(store.selectors) - {repository}
        && pins == old(pins) - {repository} && uncertain == old(uncertain) - {repository}
      ensures failure != {} ==> pins == old(pins) && uncertain == old(uncertain)
    {
      failure := store.Retire(repository);
      Covering();
      if failure != {} { return; }
      KeptRetiring(old(store.selectors), pins, uncertain, repository);
      DropPins(repository);
      DropUncertain(repository);
    }

    method Close()
      requires Valid()
      modifies this, store`leases, store`exposures
      ensures Valid() && pins == map[] && uncertain == map[] && !pinned && store.leases == {}
    {
      var prior, open := pins, uncertain;
      ghost var earlier := store.leases;
      pins, uncertain, pinned := map[], map[], false;
      ReleaseAll(prior, earlier);
      ReleaseAll(open, Rest(earlier, prior));
      assert Rest(Rest(earlier, prior), open) == {};
    }

    // ---- v3 authority and the fence around v2 rows

    /** The v3 target that the current candidate, state and relationship agree on. */
    ghost predicate Complete(repository: Repository, search: Digest, target: Target)
      reads store
    {
      && search != Absent && repository in store.candidates && repository in store.states && repository in store.roots
      && store.roots[repository].catalog == store.candidates[repository]
      && store.roots[repository].state == store.states[repository]
      && target == Target(Absent, store.candidates[repository].root, store.candidates[repository].revision,
                          store.states[repository].revision, store.states[repository].summary, search,
                          store.roots[repository].generation, store.roots[repository].root)
    }

    /** The immutable v2 generation has a v3 form. */
    ghost predicate Holdable(repository: Repository, generation: Digest)
      reads store
    {
      (repository, generation) in store.publications && store.publications[(repository, generation)].holdingRoot.Some?
    }

    /** The complete v3 target rebuilt from the generation a v2 selector names. */
    ghost predicate Holding(s: Selector, target: Target)
      reads store
    {
      && Holdable(s.repository, s.target.catalogGeneration) && Complete(s.repository, s.target.search, target)
      && target.catalogRoot == store.publications[(s.repository, s.target.catalogGeneration)].holdingRoot.value
    }

    method CompleteV3(repository: Repository, search: Digest) returns (failure: Failure, target: Option<Target>)
      modifies store`states, store`roots
      ensures failure == {} <==> target.Some?
      ensures target.Some? ==> Complete(repository, search, target.value)
    {
      target := None;
      var settled, current;
      failure, settled := store.ReconcileState(repository);
      if failure != {} { return Wait(failure), None; }
      if !settled { return {Pending, Continuation}, None; }
      if search == Absent { return {Pending}, None; }
      failure, settled := store.ReconcileState(repository);
      if failure != {} { return Wait(failure), None; }
      if !settled { return {Pending, Continuation}, None; }
      failure, current := store.ReconcileRelationship(repository);
      if failure != {} { return Wait(failure), None; }
      if !current { return {Pending, Continuation}, None; }
      if repository !in store.candidates || repository !in store.states || repository !in store.roots {
        return {Pending, NotFound}, None;
      }
      var catalog, state, root := store.candidates[repository], store.states[repository], store.roots[repository];
      if root.catalog != catalog || root.state != state { return {Pending}, None; }
      target := Some(Target(Absent, catalog.root, catalog.revision, state.revision, state.summary, search,
                            root.generation, root.root));
    }

    method HoldingGeneration(repository: Repository, generation: Digest) returns (failure: Failure, root: Digest)
      ensures failure == {} ==> Holdable(repository, generation) && root == store.publications[(repository, generation)].holdingRoot.value
    {
      if (repository, generation) !in store.publications { return {NotFound}, Absent; }
      match store.publications[(repository, generation)].holdingRoot
      case None => return {Broken}, Absent;
      case Some(r) => return {}, r;
    }

    method PrepareV3Holding(repository: Repository, selector: Option<Selector>) returns (failure: Failure, target: Option<Target>)
      modifies store`candidates, store`states, store`roots
      ensures failure == {} <==> target.Some?
      ensures target.Some? ==>
        && selector.Some? && selector.value.backend == V2 && selector.value.repository == repository
        && Holding(selector.value, target.value)
    {
      if !extraction || selector.None? || selector.value.repository != repository || selector.value.backend != V2 {
        return {Pending}, None;
      }
      var root;
      failure, root := HoldingGeneration(repository, selector.value.target.catalogGeneration);
      if failure != {} { return Wait(failure), None; }
      failure := store.PublishHolding(selector.value, root);
      if failure != {} { return Wait(failure), None; }
      failure, target := CompleteV3(repository, selector.value.target.search);
    }

    method HoldSelectedV2(repository: Repository, selector: Selector) returns (failure: Failure)
      requires Valid() && Reads(repository, Some(selector))
      modifies this`pins, this`uncertain, store`selectors, store`leases, store`issued, store`exposures
      modifies store`candidates, store`states, store`roots
      ensures Valid()
      ensures failure == {} ==> Held(selector)
    {
      var target;
      failure, target := PrepareV3Holding(repository, Some(selector));
      if failure != {} { return Wait(failure); }
      failure := SelectLocked(repository, V3, Some(selector), target.value);
    }

    /** The durable selector is the v3 holding target of an earlier v2 selector. */
    ghost predicate Held(earlier: Selector)
      reads this, store
    {
      && earlier.repository in store.selectors && Pinned(store.selectors[earlier.repository])
      && store.selectors[earlier.repository].backend == V3
      && Holding(earlier, store.selectors[earlier.repository].target)
    }

    /** Changes v2 rows only where no explicit v2 reader can see the change. */
    method WithV2Mutation(repository: Repository, publication: CatalogName) returns (failure: Failure, ran: bool)
      requires Valid()
      modifies this`pins, this`uncertain, store`selectors, store`leases, store`issued, store`exposures
      modifies store`candidates, store`states, store`roots, store`catalogs, store`summaries, store`mutations
      ensures Valid() && OnlyFenced(old(store.mutations), store.mutations)
      ensures !ran ==> failure != {} && store.mutations == old(store.mutations) && store.summaries == old(store.summaries)
      ensures ran ==>
        && store.mutations == old(store.mutations) +
             [Mutation(repository, Lookup(store.selectors, repository), Lookup(old(store.summaries), repository), Some(publication))]
        && var before := Lookup(old(store.selectors), repository);
           if before.None? || before.value.backend == V3 || IsOf(Lookup(old(store.summaries), repository), publication)
           then store.selectors == old(store.selectors)
           else Held(before.value)
    {
      ran := false;
      var selector;
      failure, selector := store.Get(repository);
      if NotFound in failure || (failure == {} && selector.value.backend == V3) {
        failure := store.Mutate(repository, Some(publication));
        return failure, true;
      }
      if failure != {} { return; }
      var readable: bool := *;          // the state summary can be read
      if !readable { return {Broken}, false; }
      if repository in store.summaries && store.summaries[repository].names == publication {
        failure := store.Mutate(repository, Some(publication));
        return failure, true;
      }
      failure := HoldSelectedV2(repository, selector.value);
      if failure != {} { return; }
      failure := store.Mutate(repository, Some(publication));
      return failure, true;
    }

    // ---- advancing a configured repository

    method AdvanceV3(repository: Repository) returns (failure: Failure)
      requires Valid()
      modifies this`pins, this`uncertain, store`selectors, store`leases, store`issued, store`exposures
      modifies store`candidates, store`states, store`roots, store`searches
      ensures Valid()
      ensures failure == {} ==> Advanced(repository)
    {
      var prepared: bool := *;          // catalog reconciliation and the search generation it leaves
      var candidates: map<Repository, CatalogPointer> := *;
      if !extraction || !prepared { return {Pending}; }
      store.candidates := candidates;
      var search, target, current;
      failure, search := store.ReadSearch(repository);
      if failure != {} { return Wait(failure); }
      failure, target := CompleteV3(repository, search);
      if failure != {} { return; }
      failure, current := store.Get(repository);
      if failure != {} && NotFound !in failure { return; }
      failure := SelectLocked(repository, V3, current, target.value);
      assert Complete(repository, search, target.value);
    }

    /** The published search generation is served with a complete v3 target. */
    ghost predicate Advanced(repository: Repository)
      reads this, store
    {
      && repository in store.selectors && Pinned(store.selectors[repository]) && store.selectors[repository].backend == V3
      && var target := store.selectors[repository].target;
         Complete(repository, target.search, target) && Lookup(store.searches, repository) == Some(target.search)
    }

    /** The v2 target that the mutable catalog, its summary and the current
        relationship agree on. */
    ghost predicate Agreed(repository: Repository, search: Digest, target: Target)
      reads store
    {
      && repository in store.catalogs && repository in store.summaries && repository in store.relationships
      && store.relationships[repository].catalog == store.catalogs[repository].generation
      && store.relationships[repository].state == store.summaries[repository].state
      && target == Target(store.catalogs[repository].generation, Absent, store.catalogs[repository].revision,
                          store.summaries[repository].state.revision, store.summaries[repository].state.summary, search,
                          store.relationships[repository].generation, store.relationships[repository].root)
    }

    method V2Target(repository: Repository, search: Digest) returns (failure: Failure, target: Option<Target>)
      ensures failure == {} <==> target.Some?
      ensures target.Some? ==> Agreed(repository, search, target.value)
    {
      if repository !in store.catalogs || repository !in store.summaries || repository !in store.relationships {
        return {NotFound}, None;
      }
      var catalog, summary, root := store.catalogs[repository], store.summaries[repository], store.relationships[repository];
      if root.catalog != catalog.generation || root.state != summary.state { return {Pending}, None; }
      return {}, Some(Target(catalog.generation, Absent, catalog.revision, summary.state.revision, summary.state.summary,
                             search, root.generation, root.root));
    }

    /** Reads the published search generation and, where one is needed, activates
        it in the v2 rows. */
    method ActivateSearch(repository: Repository) returns (failure: Failure, search: Digest)
      modifies store`searches, store`catalogs, store`summaries, store`mutations
      ensures store.mutations == old(store.mutations) || store.mutations == old(store.mutations) +
        [Mutation(repository, Lookup(store.selectors, repository), Lookup(old(store.summaries), repository), None)]
      ensures failure == {} && search != Absent ==> Lookup(store.searches, repository) == Some(search)
    {
      var serves: bool, needed: bool := *, *;
      if !serves { return {}, Absent; }
      if repository !in store.catalogs { return {NotFound}, Absent; }
      failure, search := store.ReadSearch(repository);
      if failure != {} || !needed { return; }
      failure := store.Mutate(repository, None);
    }

    /** Is the selected search generation the published one, of the selected
        catalog, with nothing to activate? */
    method SearchIsCurrent(selector: Selector) returns (failure: Failure, current: bool)
      modifies store`searches
      ensures failure == {} && current ==>
        && Lookup(store.searches, selector.repository) == Some(selector.target.search)
        && Lookup(store.catalogs, selector.repository) ==
           Some(CatalogName(selector.target.catalogGeneration, selector.target.catalogRevision))
    {
      var root;
      failure, root := store.ReadSearch(selector.repository);
      if failure != {} { return Wait(failure), false; }
      if root != selector.target.search { return {}, false; }
      if selector.repository !in store.catalogs { return {NotFound}, false; }
      var catalog := store.catalogs[selector.repository];
      if catalog != CatalogName(selector.target.catalogGeneration, selector.target.catalogRevision) { return {}, false; }
      var answered: bool, needed: bool := *, *;
      return (if answered then {} else {Broken}), !needed;
    }

    /** The search generation to serve. A v2 reader whose search generation must
        change is moved to its holding target first. */
    method ReconcileV2Search(repository: Repository) returns (failure: Failure, search: Digest)
      requires Valid()
      modifies this`pins, this`uncertain, store`selectors, store`leases, store`issued, store`exposures
      modifies store`candidates, store`states, store`roots, store`searches, store`catalogs, store`summaries, store`mutations
      ensures Valid() && OnlyFenced(old(store.mutations), store.mutations)
      ensures failure == {} ==>
        || store.selectors == old(store.selectors)
        || (repository in old(store.selectors) && Held(old(store.selectors)[repository]))
      ensures failure == {} && search != Absent ==> Lookup(store.searches, repository) == Some(search)
      ensures failure == {} && repository in store.selectors && store.selectors[repository].backend == V2 ==>
        search == store.selectors[repository].target.search && store.mutations == old(store.mutations)
    {
      var selector, current;
      failure, selector := store.Get(repository);
      if NotFound in failure || (failure == {} && selector.value.backend == V3) {
        failure, search := ActivateSearch(repository);
        return;
      }
      if failure != {} { return failure, Absent; }
      failure, current := SearchIsCurrent(selector.value);
      if failure != {} { return failure, Absent; }
      if current { return {}, selector.value.target.search; }
      failure, search := ReplaceV2Search(repository, selector.value);
    }

    /** Activates the published search generation once its v2 reader is held. */
    method ReplaceV2Search(repository: Repository, selector: Selector) returns (failure: Failure, search: Digest)
      requires Valid() && Reads(repository, Some(selector))
      modifies this`pins, this`uncertain, store`selectors, store`leases, store`issued, store`exposures
      modifies store`candidates, store`states, store`roots, store`searches, store`catalogs, store`summaries, store`mutations
      ensures Valid() && OnlyFenced(old(store.mutations), store.mutations)
      ensures failure == {} ==> Held(selector)
      ensures failure == {} && search != Absent ==> Lookup(store.searches, repository) == Some(search)
    {
      failure := HoldSelectedV2(repository, selector);
      if failure != {} { return failure, Absent; }
      failure, search := ActivateSearch(repository);
    }

    /** The selected v2 target is the one everything agrees on, and pinned. */
    ghost predicate Served(repository: Repository)
      reads this, store
    {
      && repository in store.selectors && Pinned(store.selectors[repository]) && store.selectors[repository].backend == V2
      && var target := store.selectors[repository].target;
         Agreed(repository, target.search, target) && Lookup(store.searches, repository) == Some(target.search)
    }

    method AdvanceV2(repository: Repository, explicit: bool) returns (failure: Failure)
      requires Valid()
      modifies this`pins, this`uncertain, store`selectors, store`leases, store`issued, store`exposures
      modifies store`candidates, store`states, store`roots, store`searches, store`catalogs, store`summaries, store`mutations
      modifies store`relationships
      ensures Valid() && OnlyFenced(old(store.mutations), store.mutations)
      ensures failure == {} && repository in store.selectors ==> Served(repository) && (explicit || repository in old(store.selectors))
      ensures failure == {} && explicit ==> Served(repository)
      ensures failure == {} && explicit && Lookup(old(store.selectors), repository) != Some(store.selectors[repository]) ==>
        Holdable(repository, store.selectors[repository].target.catalogGeneration)
    {
      var search, target;
      failure, search := ReconcileV2Search(repository);
      if failure != {} { return Wait(failure); }
      if search == Absent || !extraction { return {Pending}; }
      failure := store.ReconcileV2Relationship(repository);
      if failure != {} { return Wait(failure); }
      failure, target := V2Target(repository, search);
      if failure != {} { return Wait(failure); }
      failure := ChooseV2(repository, explicit, target.value);
    }

    /** Selects the v2 target unless nobody selects this repository; an explicit
        choice of another target must have a v3 form. */
    method ChooseV2(repository: Repository, explicit: bool, target: Target) returns (failure: Failure)
      requires Valid()
      modifies this`pins, this`uncertain, store`selectors, store`leases, store`issued, store`exposures
      ensures Valid()
      ensures failure == {} && (explicit || repository in old(store.selectors)) ==> Chosen(repository, V2, target)
      ensures failure == {} && !explicit && repository !in old(store.selectors) ==> repository !in store.selectors
      ensures failure == {} && explicit && Lookup(old(store.selectors), repository) != Lookup(store.selectors, repository) ==>
        Holdable(repository, target.catalogGeneration)
    {
      var current;
      failure, current := store.Get(repository);
      if NotFound in failure && !explicit { return {}; }
      if failure != {} && NotFound !in failure { return; }
      if explicit && (current.None? || current.value.backend != V2 || current.value.target != target) {
        var root;
        failure, root := HoldingGeneration(repository, target.catalogGeneration);
        if failure != {} { return; }
      }
      failure := SelectLocked(repository, V2, current, target);
    }

    /** A configured repository ends with its own kind of target served; an
        explicit v2 reader also has a holding target ready. */
    ghost predicate Settled(repository: Repository)
      reads this, store
    {
      repository in configured ==>
        if configured[repository] == V3 then Advanced(repository)
        else repository in store.selectors ==>
          Served(repository) && exists target :: Holding(store.selectors[repository], target)
    }

    method AdvanceLocked(repository: Repository) returns (failure: Failure)
      requires Valid()
      modifies this`pins, this`uncertain, store`selectors, store`leases, store`issued, store`exposures
      modifies store`candidates, store`states, store`roots, store`searches, store`catalogs, store`summaries, store`mutations
      modifies store`relationships
      ensures Valid() && OnlyFenced(old(store.mutations), store.mutations)
      ensures failure == {} ==> Settled(repository)
      ensures repository !in configured ==> failure == {} && store.selectors == old(store.selectors)
    {
      if repository !in configured { return {}; }
      if configured[repository] == V3 {
        failure := AdvanceV3(repository);
        return;
      }
      var doubt, current := store.Get(repository);
      failure := AdvanceV2WithHolding(repository, NotFound !in doubt);
    }

    method AdvanceV2WithHolding(repository: Repository, explicit: bool) returns (failure: Failure)
      requires Valid() && (!explicit ==> repository !in store.selectors)
      modifies this`pins, this`uncertain, store`selectors, store`leases, store`issued, store`exposures
      modifies store`candidates, store`states, store`roots, store`searches, store`catalogs, store`summaries, store`mutations
      modifies store`relationships
      ensures Valid() && OnlyFenced(old(store.mutations), store.mutations)
      ensures failure == {} && repository in store.selectors ==>
        Served(repository) && exists target :: Holding(store.selectors[repository], target)
    {
      var target, current;
      failure := AdvanceV2(repository, explicit);
      if failure != {} || !explicit { return; }
      failure, current := store.Get(repository);
      if failure != {} { return; }
      failure, target := PrepareV3Holding(repository, current);
    }

    /** Advances and swallows a pending outcome; `done` says there was none. */
    method Advance(repository: Repository) returns (failure: Failure, ghost done: bool)
      requires Valid()
      modifies this`pins, this`uncertain, store`selectors, store`leases, store`issued, store`exposures
      modifies store`candidates, store`states, store`roots, store`searches, store`catalogs, store`summaries, store`mutations
      modifies store`relationships
      ensures Valid() && OnlyFenced(old(store.mutations), store.mutations)
      ensures done ==> failure == {} && Settled(repository)
      ensures Pending !in failure && (repository !in configured ==> done && store.selectors == old(store.selectors))
    {
      failure := AdvanceLocked(repository);
      done := failure == {};
      if Pending in failure { failure := {}; }
    }

    /** A chunk of v3 state work; one that settles its schedule advances, a
        continuation is success and anything else pending is deferred. */
    method ProcessChunk(repository: Repository) returns (failure: Failure, ghost done: bool)
      requires Valid()
      modifies this`pins, this`uncertain, store`selectors, store`leases, store`issued, store`exposures
      modifies store`candidates, store`states, store`roots, store`searches, store`catalogs, store`summaries, store`mutations
      modifies store`relationships
      ensures Valid() && OnlyFenced(old(store.mutations), store.mutations)
      ensures done ==> failure == {} && Settled(repository)
      ensures Continuation !in failure && (Pending in failure ==> Deferred in failure)
    {
      var settled;
      failure, settled := store.ProcessChunk(repository);
      if failure != {} || !settled {
        var reported: bool := *;
        return failure + (if reported then {} else {Broken}), false;
      }
      failure := AdvanceLocked(repository);
      done := failure == {};
      if Continuation in failure { failure := {}; }
      else if Pending in failure { failure := failure + {Deferred}; }
    }

    /** Any run of the process between a successful PinSelections and Close: no
        moment of it leaves a generation some durable selector names unleased, and
        no v2 row changes before an explicit v2 reader. */
    method Serve(operations: seq<Operation>)
      requires Valid() && pinned
      modifies this, store
      ensures Valid() && pinned && store.exposures == old(store.exposures)
      ensures OnlyFenced(old(store.mutations), store.mutations)
    {
      for i := 0 to |operations|
        invariant Valid() && pinned && promised == old(promised)
        invariant OnlyFenced(old(store.mutations), store.mutations)
      {
        var failure, ran; ghost var done;
        match operations[i]
        case Advancing(r) => failure, done := Advance(r);
        case Processing(r) => failure, done := ProcessChunk(r);
        case Mutating(r, publication) => failure, ran := WithV2Mutation(r, publication);
        case Retiring(r) => failure := RetireRepository(r);
        case Repinning => failure := PinSelections();
      }
    }
  }

  datatype Operation =
    | Advancing(repository: Repository)
    | Processing(repository: Repository)
    | Mutating(repository: Repository, publication: CatalogName)
    | Retiring(repository: Repository)
    | Repinning

  ghost function Rest(running: set<Lease>, values: map<Repository, Pins>): set<Lease> {
    set l | l in running && !At(values, l)
  }
}
