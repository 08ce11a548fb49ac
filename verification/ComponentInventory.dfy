/** The component inventory: a count per projected identity that the RPC and
    Kafka postings must use up exactly. */
module ComponentInventory {
  import opened Permutations

  datatype Kind = Rpc | Kafka | OtherKind

  /** Spellings are numbers; 0 is the empty one and LITERAL the literal class. */
  datatype Identity = Identity(kind: Kind, plane: nat, class_: nat, lookup: nat, digest: nat)
  datatype RpcPosting = RpcPosting(protocol: nat, class_: nat, operation: nat, digest: nat)
  datatype KafkaPosting = KafkaPosting(plane: nat, class_: nat, topic: nat, digest: nat)

  const LITERAL := 1

  predicate Valid(i: Identity) {
    (i.kind == Rpc || i.kind == Kafka) && i.plane != 0 && i.class_ != 0 && i.digest != 0
  }

  function RpcIdentity(p: RpcPosting): Identity {
    Identity(Rpc, p.protocol, p.class_, p.operation, p.digest)
  }

  function KafkaIdentity(p: KafkaPosting): Identity {
    Identity(Kafka, p.plane, p.class_, if p.class_ == LITERAL then p.topic else 0, p.digest)
  }

  function Keys<P(!new)>(identify: P -> Identity, ps: seq<P>): (keys: seq<Identity>)
    ensures |keys| == |ps| && forall i | 0 <= i < |ps| :: keys[i] == identify(ps[i])
  {
    seq(|ps|, i requires 0 <= i < |ps| => identify(ps[i]))
  }

  lemma KeysSplit<P(!new)>(identify: P -> Identity, a: seq<P>, p: P, b: seq<P>)
    ensures multiset(Keys(identify, a + [p] + b)) == multiset(Keys(identify, a + b)) + multiset{identify(p)}
  {
    assert Keys(identify, a + [p] + b) == Keys(identify, a) + [identify(p)] + Keys(identify, b);
    assert Keys(identify, a + b) == Keys(identify, a) + Keys(identify, b);
  }

  /** Reordering postings does not change what they identify. */
  lemma {:induction false} KeysOrder<P(!new)>(identify: P -> Identity, ps: seq<P>, qs: seq<P>)
    requires multiset(ps) == multiset(qs)
    ensures multiset(Keys(identify, ps)) == multiset(Keys(identify, qs))
  {
    if ps == [] {
      assert |multiset(qs)| == 0;
    } else {
      var a, b := Locate(ps, qs);
      KeysOrder(identify, ps[1..], a + b);
      KeysSplit(identify, a, ps[0], b);
      KeysSplit(identify, [], ps[0], ps[1..]);
      assert [] + [ps[0]] + ps[1..] == ps && [] + ps[1..] == ps[1..];
    }
  }

  /** A key no longer expected, after all that was taken, is one too many. */
  lemma OneTooMany(m: multiset<Identity>, left: multiset<Identity>, keys: seq<Identity>, k: nat)
    requires k < |keys| && left + multiset(keys[..k]) == m && keys[k] !in left
    ensures !(multiset(keys) <= m)
  {
    assert keys == keys[..k] + ([keys[k]] + keys[k + 1..]);
    assert multiset(keys)[keys[k]] > m[keys[k]];
  }

  class Inventory {
    /** Positive counts only: a key that is used up is deleted. */
    var counts: map<Identity, nat>

    ghost predicate Positive()
      reads this
    {
      forall i | i in counts :: counts[i] > 0
    }

    /** The identities still expected. */
    ghost predicate Expects(m: multiset<Identity>)
      reads this
    {
      Positive() && (forall i :: m[i] == Count(i))
    }

    function Count(i: Identity): nat
      reads this
    {
      if i in counts then counts[i] else 0
    }

    constructor ()
      ensures Expects(multiset{})
    {
      counts := map[];
    }

    /** Counts every projected identity, or refuses an invalid one. */
    method Build(projections: seq<Identity>) returns (ok: bool)
      requires Expects(multiset{})
      modifies this
      ensures ok <==> forall p | p in projections :: Valid(p)
      ensures ok ==> Expects(multiset(projections))
    {
      for k := 0 to |projections|
        invariant forall p | p in projections[..k] :: Valid(p)
        invariant Expects(multiset(projections[..k]))
      {
        var key := projections[k];
        if !Valid(key) { return false; }
        counts := counts[key := Count(key) + 1];
        assert projections[..k + 1] == projections[..k] + [key];
      }
      assert projections[..|projections|] == projections;
      ok := true;
    }

    /** Uses up one expected identity, deleting the last. */
    method Take(key: Identity, ghost m: multiset<Identity>) returns (ok: bool)
      requires Expects(m)
      modifies this
      ensures ok <==> key in m
      ensures Expects(if ok then m - multiset{key} else m)
    {
      if key !in counts { return false; }
      if counts[key] == 1 { counts := counts - {key}; } else { counts := counts[key := counts[key] - 1]; }
      ok := true;
    }

    method Complete(ghost m: multiset<Identity>) returns (ok: bool)
      requires Expects(m)
      ensures ok <==> m == multiset{}
    {
      ok := counts == map[];
      if !ok {
        var i :| i in counts;
        assert m[i] > 0;
      } else {
        assert forall i :: m[i] == 0;
      }
    }

    /** Takes the identity of every posting in turn. */
    method TakeAll<P(!new)>(identify: P -> Identity, postings: seq<P>, ghost m: multiset<Identity>)
      returns (ok: bool, ghost left: multiset<Identity>)
      requires Expects(m)
      modifies this
      ensures ok <==> multiset(Keys(identify, postings)) <= m
      ensures ok ==> Expects(left) && left + multiset(Keys(identify, postings)) == m
    {
      left := m;
      ghost var keys := Keys(identify, postings);
      for k := 0 to |postings|
        invariant Expects(left) && left + multiset(keys[..k]) == m
      {
        var taking := Take(identify(postings[k]), left);
        if !taking {
          OneTooMany(m, left, keys, k);
          return false, left;
        }
        left := left - multiset{keys[k]};
        assert keys[..k + 1] == keys[..k] + [keys[k]];
      }
      assert keys[..|postings|] == keys;
      ok := true;
    }
  }

  /** The composition check succeeds exactly when every projection is valid and
      the postings identify the projected components, each as often. */
  method Composition(projections: seq<Identity>, rpc: seq<RpcPosting>, kafka: seq<KafkaPosting>) returns (ok: bool)
    ensures ok <==>
      && (forall p | p in projections :: Valid(p))
      && multiset(projections) == multiset(Keys(RpcIdentity, rpc)) + multiset(Keys(KafkaIdentity, kafka))
  {
    var expected := new Inventory();
    ok := expected.Build(projections);
    if !ok { return; }
    ghost var all, left, rest;
    all := multiset(projections);
    ok, left := expected.TakeAll(RpcIdentity, rpc, all);
    if !ok { return; }
    ok, rest := expected.TakeAll(KafkaIdentity, kafka, left);
    if !ok {
      Cancel(left, multiset(Keys(RpcIdentity, rpc)), multiset(Keys(KafkaIdentity, kafka)), all);
      return;
    }
    ok := expected.Complete(rest);
    Cancel(left, multiset(Keys(RpcIdentity, rpc)), multiset(Keys(KafkaIdentity, kafka)), all);
  }

  lemma Cancel(left: multiset<Identity>, r: multiset<Identity>, k: multiset<Identity>, all: multiset<Identity>)
    requires left + r == all
    ensures all == r + k <==> left == k
  {
    if all == r + k {
      forall i ensures left[i] == k[i] { assert all[i] == left[i] + r[i] && all[i] == r[i] + k[i]; }
    }
  }
}
