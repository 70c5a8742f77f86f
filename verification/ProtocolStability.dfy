/** A step of one call keeps what the invariant says of every other call. */
module ProtocolStability {
  import opened Common
  import opened BucketPolicy
  import opened Permissions
  import opened Delegations
  import opened Protocol
  import opened ProtocolInvariant

  lemma RemovalStable(s: State, n: State, id: nat, j: nat)
    requires RowsInv(s) && NoDangling(s) && RowsInv(n) && Rely(s, n, id)
    requires j in s.calls && j != id && s.calls[j].Removing? && RemovalInv(s, s.calls[j].removal)
    ensures RemovalInv(n, s.calls[j].removal)
  {
    var r := s.calls[j].removal;
    assert Others(s, id, j);
    if r.strip.Some? { WriteStable(s, n, id, j, r.strip.value); }
    if r.stage >= HELD {
      assert Holds(s.calls[j], PrincipalRow(r.p), Update);
      assert r.p in n.live;
    }
    if r.stage >= CHECKED {
      forall b | b in n.policies ensures r.p !in NamedSet(n.policies[b]) {
        if Policy(n, b) == Policy(s, b) { assert b in s.policies; }
      }
    }
    if r.stage >= LISTING_KEYS {
      forall k | k in n.keys && n.keys[k] == r.p ensures k in r.listed {
        if k !in s.keys { assert Blocks(s.calls[j], PrincipalRow(r.p), Share); }
      }
    }
  }

  lemma CreationStable(s: State, n: State, id: nat, j: nat)
    requires RowsInv(s) && RowsInv(n) && Rely(s, n, id) && OwnKeys(s)
    requires j in s.calls && j != id && s.calls[j].Creating? && CreationInv(s, s.calls[j].creation)
    ensures CreationInv(n, s.calls[j].creation)
  {
    var r := s.calls[j].creation;
    assert Others(s, id, j);
    assert !Owns(s, id, r.k);
    if r.stage == INSERTING {
      assert Holds(s.calls[j], PrincipalRow(r.p), Share);
      assert r.p in n.live;
    }
    if LISTING <= r.stage <= STORED && r.k in n.keys && Clean(n, r.p) {
      assert r.k in s.keys && s.keys[r.k] == r.p && Clean(s, r.p);
      forall b ensures if r.stage == STORED then Matches(n, r.k, r.p, b) else Planned(n, r, b) {
        assert ProgressAt(s, n, r.k, r.p, b);
        assert r.stage == STORED ==> Matches(s, r.k, r.p, b);
        assert r.stage <= OWN_LOCKED ==> Planned(s, r, b);
      }
    }
  }

  lemma DropStable(s: State, n: State, id: nat, r: BucketDeletion)
    requires Rely(s, n, id) && DropInv(s, r)
    ensures DropInv(n, r)
  {
    forall d, e | d in n.grants && e in n.grants && SamePair(d, e) && d in r.doomed ensures e in r.doomed {
      assert d in s.grants;
      assert e in s.grants;
    }
  }

  lemma InfoStable(s: State, n: State, id: nat, r: InfoRequest)
    requires Rely(s, n, id) && InfoInv(s, r)
    ensures InfoInv(n, r)
  {
    if Meet(r.stored, n.grants) {
      var d :| d in r.stored && d in n.grants;
      assert d.link in s.minted && d in s.grants;
      assert Meet(r.stored, s.grants);
      forall e | e in r.chained ensures e in n.grants {
        assert e in s.grants && SamePair(d, e);
      }
    }
    forall d | d in r.stored && d in n.grants ensures d in s.grants { assert d.link in s.minted; }
  }

  lemma CallStable(s: State, n: State, id: nat, j: nat)
    requires Inv(s) && RowsInv(n) && Rely(s, n, id)
    requires j in s.calls && j != id
    ensures CallInv(n, s.calls[j])
  {
    Whole(s);
    match s.calls[j]
    case Writing(w) => WriteStable(s, n, id, j, w);
    case Removing(r) => RemovalStable(s, n, id, j);
    case Creating(r) => CreationStable(s, n, id, j);
    case Deleting(_) =>
    case Adding(_) =>
    case MakingBucket(_) =>
    case DroppingBucket(r) => DropStable(s, n, id, r);
    case Asking(r) => InfoStable(s, n, id, r);
  }
}
