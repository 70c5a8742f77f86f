/** Commits of key creations and deletions, principal adds and buckets. */
module ProtocolKeyCommits {
  import opened Common
  import opened BucketPolicy
  import opened Permissions
  import opened Delegations
  import opened Protocol
  import opened ProtocolInvariant
  import opened ProtocolLocks
  import opened ProtocolQuiet
  import opened ProtocolCommits

  // -------------------------------------------------------------- key creations

  ghost predicate AfterCreation(s: State, n: State, id: nat, r: KeyCreation, e: Event) {
    && id in s.calls && s.calls[id] == Creating(r)
    && SameTables(CreationTables(s, r, e), n)
    && NoCleaner(s, n)
  }

  lemma InsertTables(s: State, n: State, id: nat, r: KeyCreation)
    requires TablesInv(s) && CreationInv(s, r) && AfterCreation(s, n, id, r, InsertKey) && r.stage == INSERTING
    ensures RowsInv(n) && NoDangling(n) && forall k, b :: OneRevision(n, k, b)
  {
    forall k, b ensures OneRevision(n, k, b) {
      assert OneRevision(s, k, b);
      DroppedRevision(s, n, k, b);
    }
  }

  lemma InsertKeysRely(s: State, n: State, id: nat, r: KeyCreation)
    requires Exclusive(s) && RowsInv(s) && CreationInv(s, r) && AfterCreation(s, n, id, r, InsertKey) && r.stage == INSERTING
    ensures KeysRely(s, n, id)
  {
    assert Holds(s.calls[id], PrincipalRow(r.p), Share);
    OwnAlone(s, id, PrincipalRow(r.p), Share);
  }

  lemma InsertRely(s: State, n: State, id: nat, r: KeyCreation)
    requires Exclusive(s) && RowsInv(s) && CreationInv(s, r) && AfterCreation(s, n, id, r, InsertKey) && r.stage == INSERTING
    ensures Rely(s, n, id)
  {
    InsertKeysRely(s, n, id, r);
  }

  lemma InsertKeeps(s: State, n: State, id: nat, r: KeyCreation)
    requires Inv(s) && AfterCreation(s, n, id, r, InsertKey) && r.stage == INSERTING
    ensures Rely(s, n, id) && TablesInv(n)
  {
    Whole(s);
    assert CallInv(s, s.calls[id]);
    InsertTables(s, n, id, r);
    InsertRely(s, n, id, r);
    CreatedKept(s, n, id);
  }

  /** What a creation stores: the key had nothing, and over each bucket it read
      it gets one document's commands. */
  lemma StoredHeld(s: State, id: nat, r: KeyCreation, issued: set<Delegation>, k: Did, b: Did)
    requires CanKeyCreate(s, id, r, StoreGrants(issued))
    ensures k != r.k ==> Held(s.grants + issued, k, b) == Held(s.grants, k, b)
    ensures b in r.docs ==> Held(s.grants + issued, r.k, b) == Commands(Some(r.docs[b]), r.p)
    ensures b !in r.docs ==> Held(s.grants + issued, r.k, b) == {}
  {
    if k != r.k { HeldSame(s.grants + issued, s.grants, k, b); }
    HeldSame(s.grants + issued, issued, r.k, b);
    if b !in r.docs { assert Over(issued, r.k, b) == {}; }
  }

  lemma StoreTables(s: State, n: State, id: nat, r: KeyCreation, issued: set<Delegation>)
    requires TablesInv(s) && CreationInv(s, r) && CanKeyCreate(s, id, r, StoreGrants(issued))
    requires AfterCreation(s, n, id, r, StoreGrants(issued))
    ensures RowsInv(n) && NoDangling(n) && forall k, b :: OneRevision(n, k, b)
  {
    forall d | d in n.grants ensures d.link in n.minted {
      if d in issued { assert d.link in Links(issued); }
    }
    forall k, b ensures OneRevision(n, k, b) {
      StoredHeld(s, id, r, issued, k, b);
      assert OneRevision(s, k, b);
      if k != r.k {
        DroppedRevision(s, n, k, b);
      } else if b in r.docs {
        assert Revision(b, r.docs[b]) in n.revisions;
      }
    }
  }

  lemma StoreRely(s: State, n: State, id: nat, r: KeyCreation, issued: set<Delegation>)
    requires CreationInv(s, r) && CanKeyCreate(s, id, r, StoreGrants(issued))
    requires AfterCreation(s, n, id, r, StoreGrants(issued))
    ensures Rely(s, n, id)
  {
    forall d | d in n.grants ensures d in s.grants || (d.link !in s.minted && d.link in n.minted) {
      if d in issued { assert d.link in Links(issued); }
    }
    forall k, b | k in s.keys && k in n.keys && !Owns(s, id, k) && Clean(n, s.keys[k])
      ensures ProgressAt(s, n, k, s.keys[k], b)
    {
      StoredHeld(s, id, r, issued, k, b);
    }
  }

  /** A creation that stores leaves its key in step. */
  lemma StoreCovers(s: State, n: State, id: nat, r: KeyCreation, issued: set<Delegation>)
    requires CreationInv(s, r) && CanKeyCreate(s, id, r, StoreGrants(issued))
    requires AfterCreation(s, n, id, r, StoreGrants(issued))
    ensures CreationInv(n, r.(stage := STORED))
  {
    if r.k in n.keys && Clean(n, r.p) {
      forall b ensures Matches(n, r.k, r.p, b) {
        StoredHeld(s, id, r, issued, r.k, b);
        assert Planned(s, r, b);
        assert Over(s.grants, r.k, b) == {};
      }
    }
  }

  lemma StoreKeeps(s: State, n: State, id: nat, r: KeyCreation, issued: set<Delegation>)
    requires Inv(s) && CanKeyCreate(s, id, r, StoreGrants(issued))
    requires AfterCreation(s, n, id, r, StoreGrants(issued))
    ensures Rely(s, n, id) && TablesInv(n) && CreationInv(n, r.(stage := STORED))
  {
    Whole(s);
    assert CallInv(s, s.calls[id]);
    StoreTables(s, n, id, r, issued);
    StoreRely(s, n, id, r, issued);
    StoreCovers(s, n, id, r, issued);
    CreatedKept(s, n, id);
  }

  lemma FinishTables(s: State, n: State, id: nat, r: KeyCreation)
    requires TablesInv(s) && CreationInv(s, r) && AfterCreation(s, n, id, r, FinishCreate) && r.stage == STORED
    ensures RowsInv(n) && NoDangling(n) && forall k, b :: OneRevision(n, k, b)
  {
    forall k, b ensures OneRevision(n, k, b) {
      assert OneRevision(s, k, b);
      DroppedRevision(s, n, k, b);
    }
  }

  lemma FinishInStep(s: State, n: State, id: nat, r: KeyCreation)
    requires CreatedInStep(s) && CreationInv(s, r) && AfterCreation(s, n, id, r, FinishCreate) && r.stage == STORED
    requires RowsInv(s)
    ensures CreatedInStep(n)
  {
    forall k | k in n.created && k in n.keys && Clean(n, n.keys[k]) ensures InStep(n, k, n.keys[k]) {
      assert InStep(s, k, s.keys[k]);
      SameInStep(s, n, k, s.keys[k]);
    }
  }

  lemma SameInStep(s: State, n: State, k: Did, p: PrincipalId)
    requires InStep(s, k, p) && n.grants == s.grants && n.policies == s.policies
    ensures InStep(n, k, p)
  {
    forall b ensures Matches(n, k, p, b) { assert Matches(s, k, p, b); }
  }

  lemma FinishRely(s: State, n: State, id: nat, r: KeyCreation)
    requires AfterCreation(s, n, id, r, FinishCreate)
    ensures Rely(s, n, id)
  {
    assert SameTables(s.(created := n.created), n);
    SameRely(s.(created := n.created), n, id);
    forall k, b | k in s.keys ensures ProgressAt(s, n, k, s.keys[k], b) {}
    assert CreatedRely(s, n, id);
  }

  lemma FinishKeeps(s: State, n: State, id: nat, r: KeyCreation)
    requires Inv(s) && AfterCreation(s, n, id, r, FinishCreate) && r.stage == STORED
    ensures Rely(s, n, id) && TablesInv(n)
  {
    Whole(s);
    assert CallInv(s, s.calls[id]);
    FinishTables(s, n, id, r);
    FinishInStep(s, n, id, r);
    FinishRely(s, n, id, r);
  }

  lemma KeyGrantsDropped(s: State, key: Did, k: Did, b: Did)
    ensures Held((set d | d in s.grants && d.audience != key), k, b) == if k == key then {} else Held(s.grants, k, b)
  {
    var g := set d | d in s.grants && d.audience != key;
    if k == key { assert Over(g, k, b) == {}; } else { HeldSame(g, s.grants, k, b); }
  }

  /** A key's grants or its row go, or both, and nothing else does. */
  ghost predicate KeyDropped(s: State, n: State, k: Did) {
    && (n.grants == s.grants || n.grants == set d | d in s.grants && d.audience != k)
    && (n.keys == s.keys || n.keys == s.keys - {k})
    && SameTables(s, n.(grants := s.grants, keys := s.keys))
    && NoCleaner(s, n)
  }

  lemma DroppedKeyTables(s: State, n: State, key: Did)
    requires TablesInv(s) && KeyDropped(s, n, key)
    ensures RowsInv(n) && NoDangling(n) && forall k, b :: OneRevision(n, k, b)
  {
    forall k, b ensures OneRevision(n, k, b) {
      KeyGrantsDropped(s, key, k, b);
      assert OneRevision(s, k, b);
      DroppedRevision(s, n, k, b);
    }
  }

  lemma DroppedKeyProgress(s: State, n: State, id: nat, key: Did)
    requires KeyDropped(s, n, key) && (key !in n.keys || Owns(s, id, key))
    ensures ProgressRely(s, n, id)
  {
    forall k, b | k in s.keys && k in n.keys && !Owns(s, id, k) && Clean(n, s.keys[k])
      ensures ProgressAt(s, n, k, s.keys[k], b)
    {
      KeyGrantsDropped(s, key, k, b);
    }
  }

  lemma DroppedKeyGrants(s: State, n: State, key: Did)
    requires KeyDropped(s, n, key)
    ensures GrantsRely(s, n)
  {
    if n.grants != s.grants { assert n.grants == set d | d in s.grants && d.audience !in {key}; DroppedGrantsRely(s, n, {key}); }
  }

  lemma DroppedKeyRely(s: State, n: State, id: nat, key: Did)
    requires KeyDropped(s, n, key) && ProgressRely(s, n, id) && GrantsRely(s, n)
    ensures Rely(s, n, id)
  {}

  lemma DroppedKeyKeeps(s: State, n: State, id: nat, key: Did)
    requires Inv(s) && KeyDropped(s, n, key) && (key !in n.keys || Owns(s, id, key))
    ensures Rely(s, n, id) && TablesInv(n)
  {
    Whole(s);
    DroppedKeyTables(s, n, key);
    DroppedKeyProgress(s, n, id, key);
    DroppedKeyGrants(s, n, key);
    DroppedKeyRely(s, n, id, key);
    CreatedKept(s, n, id);
  }

  lemma RollBackKeeps(s: State, n: State, id: nat, r: KeyCreation, e: Event)
    requires Inv(s) && AfterCreation(s, n, id, r, e) && (e.RollBackGrants? || e.RollBackRow?) && r.stage == ROLLBACK
    ensures Rely(s, n, id) && TablesInv(n) && CreationInv(n, r)
  {
    Whole(s);
    assert CallInv(s, s.calls[id]);
    DroppedKeyKeeps(s, n, id, r.k);
  }

  lemma DeleteKeeps(s: State, n: State, id: nat, r: KeyDeletion)
    requires Inv(s) && SameTables(DeletionTables(s, r, CommitKeyDelete), n) && NoCleaner(s, n)
    ensures Rely(s, n, id) && TablesInv(n)
  {
    Whole(s);
    DroppedKeyKeeps(s, n, id, r.k);
  }

  // ------------------------------------------------------ principals and buckets

  lemma AddLive(s: State, n: State, id: nat, r: PrincipalAddition)
    requires Exclusive(s) && id in s.calls && s.calls[id] == Adding(r) && r.stage == TENANT
    requires n.live == s.live + {r.p}
    ensures LiveRely(s, n, id)
  {
    assert Holds(s.calls[id], TenantLock, Update);
    OwnAlone(s, id, TenantLock, Update);
  }

  lemma AddRely(s: State, n: State, id: nat, r: PrincipalAddition)
    requires LiveRely(s, n, id) && SameTables(s.(live := s.live + {r.p}), n) && NoCleaner(s, n)
    ensures Rely(s, n, id)
  {}

  lemma AddKeeps(s: State, n: State, id: nat, r: PrincipalAddition)
    requires Inv(s) && id in s.calls && s.calls[id] == Adding(r) && r.stage == TENANT
    requires SameTables(s.(live := s.live + {r.p}), n) && NoCleaner(s, n)
    ensures Rely(s, n, id) && TablesInv(n)
  {
    Whole(s);
    assert CallInv(s, s.calls[id]);
    AddLive(s, n, id, r);
    AddRely(s, n, id, r);
    forall k, b ensures OneRevision(n, k, b) {
      assert OneRevision(s, k, b);
      DroppedRevision(s, n, k, b);
    }
    CreatedKept(s, n, id);
  }

  /** A bucket's rows go only when no call has its policy loaded. */
  lemma BucketGoneRely(s: State, n: State, id: nat, b: Did)
    requires Free(s, id, BucketRow(b), Update) && Free(s, id, PolicyRow(b), Update)
    requires n.policies == s.policies - {b} && n.buckets == s.buckets - {b} && n.born == s.born
    ensures PolicyRely(s, n, id)
  {
    forall j | Others(s, id, j) ensures Unloaded(s.calls[j], b) {
      assert !Blocks(s.calls[j], BucketRow(b), Update) && !Blocks(s.calls[j], PolicyRow(b), Update);
    }
  }

  /** The doomed rows take whole pairs over their bucket. */
  lemma DoomedHeld(s: State, r: BucketDeletion, k: Did, b: Did)
    requires DropInv(s, r)
    ensures Held(s.grants - r.doomed, k, b) == {} || Held(s.grants - r.doomed, k, b) == Held(s.grants, k, b)
    ensures b != r.b ==> Held(s.grants - r.doomed, k, b) == Held(s.grants, k, b)
  {
    var g := s.grants - r.doomed;
    if b != r.b {
      HeldSame(g, s.grants, k, b);
    } else if Held(g, k, b) != {} {
      var d :| d in Over(g, k, b);
      assert forall e :: e in s.grants && e.audience == k && e.subject == b ==> SamePair(e, d);
      HeldSame(g, s.grants, k, b);
    }
  }

  lemma BucketProgress(s: State, n: State, id: nat, b: Did, k: Did, p: PrincipalId, over: Did)
    requires n.policies == s.policies - {b}
    requires over != b ==> Held(n.grants, k, over) == Held(s.grants, k, over)
    ensures ProgressAt(s, n, k, p, over)
  {
    NothingRequired(n, p, b);
  }

  lemma UndoKeeps(s: State, n: State, id: nat, b: Did)
    requires Inv(s) && id in s.calls && s.calls[id] == MakingBucket(b)
    requires Free(s, id, BucketRow(b), Update) && Free(s, id, PolicyRow(b), Update)
    requires SameTables(Tables(s, MakingBucket(b), UndoBucket), n) && NoCleaner(s, n)
    ensures Rely(s, n, id) && TablesInv(n)
  {
    Whole(s);
    BucketGoneRely(s, n, id, b);
    forall k, o ensures OneRevision(n, k, o) {
      assert OneRevision(s, k, o);
      DroppedRevision(s, n, k, o);
    }
    forall k, o | k in s.keys && k in n.keys ensures ProgressAt(s, n, k, s.keys[k], o) {
      BucketProgress(s, n, id, b, k, s.keys[k], o);
    }
    CreatedKept(s, n, id);
  }

  lemma DropTablesKept(s: State, n: State, r: BucketDeletion)
    requires TablesInv(s) && DropInv(s, r)
    requires SameTables(DropTables(s, r, CommitBucketDelete), n)
    ensures RowsInv(n) && NoDangling(n) && forall k, b :: OneRevision(n, k, b)
  {
    forall k, o ensures OneRevision(n, k, o) {
      DoomedHeld(s, r, k, o);
      assert OneRevision(s, k, o);
      DroppedRevision(s, n, k, o);
    }
    DropRows(s, n, r);
  }

  lemma DropRows(s: State, n: State, r: BucketDeletion)
    requires RowsInv(s) && NoDangling(s) && SameTables(DropTables(s, r, CommitBucketDelete), n)
    ensures RowsInv(n) && NoDangling(n)
  {}

  lemma DropProgress(s: State, n: State, id: nat, r: BucketDeletion)
    requires DropInv(s, r)
    requires SameTables(DropTables(s, r, CommitBucketDelete), n)
    ensures ProgressRely(s, n, id)
  {
    forall k, o | k in s.keys && k in n.keys ensures ProgressAt(s, n, k, s.keys[k], o) {
      DoomedHeld(s, r, k, o);
      BucketProgress(s, n, id, r.b, k, s.keys[k], o);
    }
  }

  lemma DropGrants(s: State, n: State, r: BucketDeletion)
    requires DropInv(s, r)
    requires SameTables(DropTables(s, r, CommitBucketDelete), n)
    ensures GrantsRely(s, n)
  {}

  lemma DropKeeps(s: State, n: State, id: nat, r: BucketDeletion)
    requires Inv(s) && id in s.calls && s.calls[id] == DroppingBucket(r)
    requires Free(s, id, BucketRow(r.b), Update) && Free(s, id, PolicyRow(r.b), Update)
    requires SameTables(DropTables(s, r, CommitBucketDelete), n) && NoCleaner(s, n)
    ensures Rely(s, n, id) && TablesInv(n)
  {
    Whole(s);
    assert CallInv(s, s.calls[id]);
    BucketGoneRely(s, n, id, r.b);
    DropTablesKept(s, n, r);
    DropProgress(s, n, id, r);
    DropGrants(s, n, r);
    CreatedKept(s, n, id);
  }

  /** A key creation begins: its id is new, so nothing mentions it. */
  lemma BegunRevision(s: State, n: State, r: KeyCreation, k: Did, b: Did)
    requires OneRevision(s, k, b) && r.k !in s.bound
    requires n.grants == s.grants && n.revisions == s.revisions && n.bound == s.bound[r.k := r.p]
    ensures OneRevision(n, k, b)
  {
    if k == r.k {
      forall d: Document ensures Commands(Some(d), BoundTo(s, k)) == {} {
        assert EffectiveSet(Some(d), WILDCARD) == {};
      }
      assert Held(n.grants, k, b) == {};
    } else if Held(n.grants, k, b) != {} {
      var d :| Revision(b, d) in s.revisions && Held(s.grants, k, b) == Commands(Some(d), BoundTo(s, k));
      assert Revision(b, d) in n.revisions && Held(n.grants, k, b) == Commands(Some(d), BoundTo(n, k));
    }
  }

  lemma BegunRely(s: State, n: State, id: nat, r: KeyCreation)
    requires r.k !in s.bound && SameTables(s.(bound := s.bound[r.k := r.p]), n) && NoCleaner(s, n)
    ensures Rely(s, n, id)
  {
    assert n.keys == s.keys && n.created == s.created;
  }

  lemma BeginCreationKeeps(s: State, n: State, id: nat, r: KeyCreation)
    requires Inv(s) && r.k !in s.bound && id !in s.calls
    requires SameTables(s.(bound := s.bound[r.k := r.p]), n) && NoCleaner(s, n)
    ensures Rely(s, n, id) && TablesInv(n)
  {
    Whole(s);
    forall k, b ensures OneRevision(n, k, b) {
      assert OneRevision(s, k, b);
      BegunRevision(s, n, r, k, b);
    }
    BegunRely(s, n, id, r);
    CreatedKept(s, n, id);
  }

  lemma BeginBucketKeeps(s: State, n: State, id: nat, b: Did)
    requires Inv(s) && b !in s.usedBuckets && id !in s.calls
    requires SameTables(s.(buckets := s.buckets + {b}, usedBuckets := s.usedBuckets + {b}), n) && NoCleaner(s, n)
    ensures Rely(s, n, id) && TablesInv(n)
  {
    Whole(s);
    forall k, o ensures OneRevision(n, k, o) {
      assert OneRevision(s, k, o);
      DroppedRevision(s, n, k, o);
    }
    CreatedKept(s, n, id);
  }
}
