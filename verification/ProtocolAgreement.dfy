/** When a key's grants agree with its principal's policies, exactly: over every
    interleaving a created key of a principal no removal touches can do over a
    bucket what the policy says, unless what it holds there went stale: stored by
    a creation whose reading the policy had overtaken, or left behind by its
    bucket's end. */
module ProtocolAgreement {
  import opened Common
  import opened Access
  import opened BucketPolicy
  import opened Permissions
  import opened Delegations
  import opened Protocol
  import opened ProtocolInvariant
  import opened ProtocolLocks
  import opened ProtocolQuiet
  import opened ProtocolCommits
  import opened ProtocolKeyCommits
  import opened ProtocolSafety
  import opened ProtocolTables
  import opened ProtocolHistory
  import opened ProtocolDeletes

  // ------------------------------------------------------------------ the invariant

  /** What is stale is stored. */
  ghost predicate StaleRows(h: History) {
    forall x :: x in h.stale ==> Over(h.s.grants, x.key, x.bucket) != {}
  }

  /** k's holding over b is stale if it can do something there while its
      principal can do nothing, and only then. */
  ghost predicate StaleAt(h: History, k: Did, p: PrincipalId, b: Did) {
    Holding(k, b) in h.stale <==> Over(h.s.grants, k, b) != {} && Required(h.s, p, b) == {}
  }

  ghost predicate AgreesParts(h: History) {
    && StaleRows(h)
    && forall k, b :: k in h.s.keys && Clean(h.s, h.s.keys[k]) ==> StaleAt(h, k, h.s.keys[k], b)
  }

  ghost predicate Agrees(h: History) {
    forall g :: g == h ==> AgreesParts(g)
  }

  lemma AgreesWhole(h: History)
    requires Agrees(h)
    ensures AgreesParts(h)
  {}

  lemma HeldNothing(ds: set<Delegation>, k: Did, b: Did)
    ensures Held(ds, k, b) == {} <==> Over(ds, k, b) == {}
  {
    if d :| d in Over(ds, k, b) { assert d.command in Held(ds, k, b); }
  }

  // ------------------------------------------------------- one holding, one step

  /** What is stale after a step: what was, less what the step dropped, and what
      the step makes stale. */
  ghost predicate StaleIs(h: History, n: History, storing: set<Holding>) {
    n.stale == (h.stale - Holdings(h.s.grants - n.s.grants)) + storing + Orphaned(h.s, n.s)
  }

  ghost predicate Ends(s: State, n: State, b: Did) {
    b in s.buckets && b !in n.buckets
  }

  lemma DroppedIs(g: set<Delegation>, n: set<Delegation>, k: Did, b: Did)
    ensures Holding(k, b) in Holdings(g - n) <==> exists d :: d in Over(g, k, b) && d !in n
  {
    if d :| d in Over(g, k, b) && d !in n { assert d in g - n && Holding(d.audience, d.subject) == Holding(k, b); }
  }

  lemma OrphanedIs(s: State, n: State, k: Did, b: Did)
    ensures Holding(k, b) in Orphaned(s, n) <==> Over(n.grants, k, b) != {} && Ends(s, n, b)
  {
    var left := set d | d in n.grants && d.subject in s.buckets && d.subject !in n.buckets;
    if Ends(s, n, b) {
      if d :| d in Over(n.grants, k, b) { assert d in left && Holding(d.audience, d.subject) == Holding(k, b); }
    }
    if Holding(k, b) in Holdings(left) {
      var d :| d in left && Holding(d.audience, d.subject) == Holding(k, b);
      assert d in Over(n.grants, k, b);
    }
  }

  /** Rows kept, bucket kept: as stale as before. */
  lemma RowsKept(h: History, n: History, storing: set<Holding>, k: Did, b: Did)
    requires StaleIs(h, n, storing) && Holding(k, b) !in storing
    requires Over(n.s.grants, k, b) == Over(h.s.grants, k, b) && !Ends(h.s, n.s, b)
    ensures Holding(k, b) in n.stale <==> Holding(k, b) in h.stale
  {
    DroppedIs(h.s.grants, n.s.grants, k, b);
    OrphanedIs(h.s, n.s, k, b);
    forall d | d in Over(h.s.grants, k, b) ensures d in n.s.grants { assert d in Over(n.s.grants, k, b); }
  }

  /** No old row kept, bucket kept: not stale. */
  lemma RowsReplaced(h: History, n: History, storing: set<Holding>, k: Did, b: Did)
    requires StaleIs(h, n, storing) && StaleRows(h) && Holding(k, b) !in storing
    requires Over(h.s.grants, k, b) !! n.s.grants && (Over(n.s.grants, k, b) == {} || !Ends(h.s, n.s, b))
    ensures Holding(k, b) !in n.stale
  {
    DroppedIs(h.s.grants, n.s.grants, k, b);
    OrphanedIs(h.s, n.s, k, b);
    if d :| d in Over(h.s.grants, k, b) { assert d !in n.s.grants; }
  }

  /** Rows kept, bucket gone: stale. */
  lemma RowsOrphaned(h: History, n: History, storing: set<Holding>, k: Did, b: Did)
    requires StaleIs(h, n, storing) && StaleRows(h) && Holding(k, b) !in storing
    requires Over(n.s.grants, k, b) == Over(h.s.grants, k, b) && Ends(h.s, n.s, b)
    ensures Holding(k, b) in n.stale <==> Over(n.s.grants, k, b) != {}
  {
    OrphanedIs(h.s, n.s, k, b);
  }

  // ----------------------------------------------------------- steps that only drop

  /** Over b the step keeps the policy and the bucket, or ends both. */
  ghost predicate KeepsOrEnds(s: State, n: State, b: Did) {
    if Ends(s, n, b) then b !in n.policies else Policy(n, b) == Policy(s, b)
  }

  lemma TablesEnd(s: State, c: Call, e: Event, b: Did)
    requires RowsInv(s) && !e.CommitWrite?
    ensures KeepsOrEnds(s, Tables(s, c, e), b)
  {
    match c
    case Removing(r) => RemovalEndsNothing(s, r, e);
    case Creating(r) => CreationEndsNothing(s, r, e);
    case _ =>
  }

  lemma RemovalEndsNothing(s: State, r: Removal, e: Event)
    requires !e.CommitWrite?
    ensures RemovalTables(s, r, e).policies == s.policies && RemovalTables(s, r, e).buckets == s.buckets
  {}

  lemma CreationEndsNothing(s: State, r: KeyCreation, e: Event)
    ensures CreationTables(s, r, e).policies == s.policies && CreationTables(s, r, e).buckets == s.buckets
  {}

  lemma StepEnds(s: State, id: nat, e: Event, b: Did)
    requires RowsInv(s) && Can(s, id, e) && !e.CommitWrite?
    ensures KeepsOrEnds(s, Do(s, id, e), b)
  {
    if e.Begin? {
      BegunTables(s, id, e);
    } else if !e.Fail? {
      DoTables(s, id, e);
      TablesEnd(s, s.calls[id], e, b);
    }
  }

  lemma ShrinkAt(h: History, n: History, k: Did, p: PrincipalId, b: Did)
    requires StaleIs(h, n, {}) && StaleRows(h) && n.s.grants <= h.s.grants && GrantsRely(h.s, n.s)
    requires KeepsOrEnds(h.s, n.s, b) && (StaleAt(h, k, p, b) || Over(n.s.grants, k, b) == {})
    ensures StaleAt(n, k, p, b)
  {
    if Over(n.s.grants, k, b) == {} {
      forall d | d in Over(h.s.grants, k, b) ensures d !in n.s.grants { assert d in n.s.grants ==> d in Over(n.s.grants, k, b); }
      RowsReplaced(h, n, {}, k, b);
    } else {
      WholeRows(h.s, n.s, k, b);
      if Ends(h.s, n.s, b) { RowsOrphaned(h, n, {}, k, b); } else { RowsKept(h, n, {}, k, b); }
    }
  }

  /** A step that only drops keeps all of a key's rows over a bucket, or none. */
  lemma WholeRows(s: State, n: State, k: Did, b: Did)
    requires n.grants <= s.grants && GrantsRely(s, n) && Over(n.grants, k, b) != {}
    ensures Over(n.grants, k, b) == Over(s.grants, k, b)
  {
    var d :| d in Over(n.grants, k, b);
    forall e | e in Over(s.grants, k, b) ensures e in Over(n.grants, k, b) { assert SamePair(d, e); }
  }

  // ------------------------------------------------------------------ policy writes

  /** A policy write's commit, at its own bucket and elsewhere. */
  lemma WriteAt(h: History, n: History, id: nat, w: Write, issued: set<Delegation>, k: Did, b: Did)
    requires Inv(h.s) && Ahead(h.s) && id in h.s.calls && h.s.calls[id] == Writing(w) && CanCommit(h.s, w, issued)
    requires SameTables(Committed(h.s, w, issued), n.s) && StaleIs(h, n, {}) && StaleRows(h)
    requires k in h.s.keys && StaleAt(h, k, h.s.keys[k], b)
    ensures StaleAt(n, k, h.s.keys[k], b)
  {
    Whole(h.s);
    assert CallInv(h.s, h.s.calls[id]);
    if b == w.bucket && k in w.remaining {
      RewrittenAt(h, n, w, issued, k);
    } else {
      UnlistedRows(h.s, n.s, w, issued, k, b);
      if b == w.bucket && EffectiveSet(w.was, h.s.keys[k]) != EffectiveSet(w.doc, h.s.keys[k]) {
        UnlistedBehind(h.s, id, w, issued, k);
        RowsReplaced(h, n, {}, k, b);
      } else {
        RowsKept(h, n, {}, k, b);
      }
    }
  }

  /** What the commit rewrites is what the new document requires. */
  lemma RewrittenAt(h: History, n: History, w: Write, issued: set<Delegation>, k: Did)
    requires RowsInv(h.s) && WriteInv(h.s, w) && CanCommit(h.s, w, issued) && w.rotates
    requires SameTables(Committed(h.s, w, issued), n.s) && StaleIs(h, n, {}) && StaleRows(h)
    requires k in h.s.keys && k in w.remaining
    ensures StaleAt(n, k, h.s.keys[k], w.bucket)
  {
    CommittedHeld(h.s, w, issued, k, w.bucket);
    HeldNothing(n.s.grants, k, w.bucket);
    RowsReplaced(h, n, {}, k, w.bucket);
  }

  lemma UnlistedRows(s: State, n: State, w: Write, issued: set<Delegation>, k: Did, b: Did)
    requires WriteInv(s, w) && CanCommit(s, w, issued) && SameTables(Committed(s, w, issued), n)
    requires k in s.keys && (b != w.bucket || k !in w.remaining)
    ensures Over(n.grants, k, b) == Over(s.grants, k, b)
  {}

  /** A key whose principal's access changes is rewritten, or holds nothing. */
  lemma UnlistedBehind(s: State, id: nat, w: Write, issued: set<Delegation>, k: Did)
    requires Inv(s) && Ahead(s) && id in s.calls && s.calls[id] == Writing(w) && CanCommit(s, w, issued)
    requires k in s.keys && k !in w.remaining && EffectiveSet(w.was, s.keys[k]) != EffectiveSet(w.doc, s.keys[k])
    ensures Over(s.grants, k, w.bucket) == {}
  {
    Whole(s);
    assert CallInv(s, s.calls[id]);
    assert s.keys[k] in s.live;
    if w.doc.None? {
      DeleteCommits(s, id, w, issued, k);
      assert Behind(s, k, w.bucket);
    }
  }

  /** A removal's rewrite of a policy touches no grants, and only the removed
      principal's access. */
  lemma StripAt(h: History, n: History, id: nat, r: Removal, issued: set<Delegation>, k: Did, b: Did)
    requires Inv(h.s) && id in h.s.calls && h.s.calls[id] == Removing(r) && r.strip.Some? && CanCommit(h.s, r.strip.value, issued)
    requires SameTables(Committed(h.s, r.strip.value, issued), n.s) && StaleIs(h, n, {})
    requires k in h.s.keys && h.s.keys[k] != r.p && StaleAt(h, k, h.s.keys[k], b)
    ensures StaleAt(n, k, h.s.keys[k], b)
  {
    Whole(h.s);
    assert CallInv(h.s, h.s.calls[id]);
    StripRequires(h.s, r.strip.value, r.p, h.s.keys[k]);
    UnlistedRows(h.s, n.s, r.strip.value, issued, k, b);
    RowsKept(h, n, {}, k, b);
  }

  // ------------------------------------------------------------------------ stores

  lemma StoringIs(s: State, id: nat, r: KeyCreation, issued: set<Delegation>, k: Did, b: Did)
    requires id in s.calls && s.calls[id] == Creating(r) && CanKeyCreate(s, id, r, StoreGrants(issued))
    ensures Holding(k, b) in StoringStale(s, id, StoreGrants(issued)) <==>
              k == r.k && Over(issued, k, b) != {} && Held(issued, r.k, b) != Required(s, r.p, b)
  {
    var stale := set d | d in issued && Held(issued, r.k, d.subject) != Required(s, r.p, d.subject) :: Holding(d.audience, d.subject);
    assert StoringStale(s, id, StoreGrants(issued)) == stale;
    if k == r.k && Held(issued, r.k, b) != Required(s, r.p, b) {
      if d :| d in Over(issued, k, b) { assert Holding(d.audience, d.subject) in stale; }
    }
  }

  lemma StoreOtherAt(h: History, n: History, id: nat, r: KeyCreation, issued: set<Delegation>, k: Did, p: PrincipalId, b: Did)
    requires id in h.s.calls && h.s.calls[id] == Creating(r) && CanKeyCreate(h.s, id, r, StoreGrants(issued))
    requires SameTables(CreationTables(h.s, r, StoreGrants(issued)), n.s)
    requires StaleIs(h, n, StoringStale(h.s, id, StoreGrants(issued)))
    requires k != r.k && StaleAt(h, k, p, b)
    ensures StaleAt(n, k, p, b)
  {
    StoringIs(h.s, id, r, issued, k, b);
    assert Over(n.s.grants, k, b) == Over(h.s.grants, k, b);
    RowsKept(h, n, StoringStale(h.s, id, StoreGrants(issued)), k, b);
  }

  /** The creation's own key: what it read holds still, or nothing is required any
      more. */
  lemma StoreOwnAt(h: History, n: History, id: nat, r: KeyCreation, issued: set<Delegation>, b: Did)
    requires id in h.s.calls && h.s.calls[id] == Creating(r) && CanKeyCreate(h.s, id, r, StoreGrants(issued))
    requires SameTables(CreationTables(h.s, r, StoreGrants(issued)), n.s)
    requires StaleIs(h, n, StoringStale(h.s, id, StoreGrants(issued))) && StaleRows(h)
    requires Planned(h.s, r, b)
    ensures StaleAt(n, r.k, r.p, b)
  {
    StoringIs(h.s, id, r, issued, r.k, b);
    OrphanedIs(h.s, n.s, r.k, b);
    assert Over(h.s.grants, r.k, b) == {};
    assert Over(n.s.grants, r.k, b) == Over(issued, r.k, b);
    HeldNothing(h.s.grants, r.k, b);
    HeldNothing(issued, r.k, b);
    StoredHeld(h.s, id, r, issued, r.k, b);
    if b !in r.docs { assert Over(issued, r.k, b) == {}; }
  }

  // ------------------------------------------------------------------------- steps

  lemma StaleRowsKept(h: History, id: nat, e: Event)
    requires StaleRows(h) && Can(h.s, id, e)
    ensures StaleRows(After(h, id, e))
  {
    var n := After(h, id, e);
    forall x | x in n.stale ensures Over(n.s.grants, x.key, x.bucket) != {} {
      if x in Orphaned(h.s, n.s) {
        OrphanedIs(h.s, n.s, x.key, x.bucket);
      } else if x in StoringStale(h.s, id, e) {
        StoringStored(h.s, id, e, x);
      } else {
        DroppedIs(h.s.grants, n.s.grants, x.key, x.bucket);
        var d :| d in Over(h.s.grants, x.key, x.bucket);
        assert d in Over(n.s.grants, x.key, x.bucket);
      }
    }
  }

  lemma StoringStored(s: State, id: nat, e: Event, x: Holding)
    requires Can(s, id, e) && x in StoringStale(s, id, e)
    ensures Over(Do(s, id, e).grants, x.key, x.bucket) != {}
  {
    MayCreate(s, id, e);
    CreationTablesAre(s, id, e);
    var d :| d in e.issued && Holding(d.audience, d.subject) == x;
    assert d in Over(Do(s, id, e).grants, x.key, x.bucket);
  }

  /** A clean principal's key in the table is its own of before, or new. */
  lemma CleanKey(s: State, id: nat, e: Event, k: Did)
    requires Inv(s) && Can(s, id, e) && k in Do(s, id, e).keys && Clean(Do(s, id, e), Do(s, id, e).keys[k])
    ensures k in s.keys ==> s.keys[k] == Do(s, id, e).keys[k] && Clean(s, s.keys[k])
  {
    StepRely(s, id, e);
  }

  lemma ShrinkStep(h: History, id: nat, e: Event, k: Did, b: Did)
    requires Inv(h.s) && Ahead(h.s) && AgreesParts(h) && Can(h.s, id, e) && !e.CommitWrite? && !e.StoreGrants?
    requires k in Do(h.s, id, e).keys && Clean(Do(h.s, id, e), Do(h.s, id, e).keys[k])
    ensures StaleAt(After(h, id, e), k, Do(h.s, id, e).keys[k], b)
  {
    var n := After(h, id, e);
    DoAdds(h.s, id, e);
    RowsOf(h.s);
    StepEnds(h.s, id, e, b);
    StepRely(h.s, id, e);
    CleanKey(h.s, id, e, k);
    if k !in h.s.keys { NewHoldsNothing(h.s, id, e, k, b); }
    ShrinkAt(h, n, k, n.s.keys[k], b);
  }

  lemma RowsOf(s: State)
    requires Inv(s)
    ensures RowsInv(s)
  {
    Whole(s);
  }

  lemma NewHoldsNothing(s: State, id: nat, e: Event, k: Did, b: Did)
    requires Inv(s) && Ahead(s) && Can(s, id, e) && k in Do(s, id, e).keys && k !in s.keys
    ensures Over(Do(s, id, e).grants, k, b) == {} && !e.CommitWrite? && !e.StoreGrants?
  {
    AheadWhole(s);
    InsertedBehind(s, id, e, k, b);
    NewRow(s, id, e, k);
  }

  lemma WriteStepAt(h: History, id: nat, e: Event, k: Did, b: Did)
    requires Inv(h.s) && Ahead(h.s) && AgreesParts(h) && Can(h.s, id, e) && e.CommitWrite?
    requires k in Do(h.s, id, e).keys && Clean(Do(h.s, id, e), Do(h.s, id, e).keys[k])
    ensures StaleAt(After(h, id, e), k, Do(h.s, id, e).keys[k], b)
  {
    var n := After(h, id, e);
    Issuers(h.s, id, e);
    CleanKey(h.s, id, e, k);
    if k !in h.s.keys { NewHoldsNothing(h.s, id, e, k, b); }
    assert StaleAt(h, k, h.s.keys[k], b);
    StepIs(h.s, id, e);
    if h.s.calls[id].Writing? {
      WritingCommits(h.s, id, e);
      WriteAt(h, n, id, h.s.calls[id].write, e.issued, k, b);
    } else {
      RemovalCommits(h.s, id, e);
      StripAt(h, n, id, h.s.calls[id].removal, e.issued, k, b);
    }
  }

  lemma StoreStepAt(h: History, id: nat, e: Event, k: Did, b: Did)
    requires Inv(h.s) && Ahead(h.s) && AgreesParts(h) && Can(h.s, id, e) && e.StoreGrants?
    requires k in Do(h.s, id, e).keys && Clean(Do(h.s, id, e), Do(h.s, id, e).keys[k])
    ensures StaleAt(After(h, id, e), k, Do(h.s, id, e).keys[k], b)
  {
    var n := After(h, id, e);
    Issuers(h.s, id, e);
    CleanKey(h.s, id, e, k);
    if k !in h.s.keys { NewHoldsNothing(h.s, id, e, k, b); }
    assert StaleAt(h, k, h.s.keys[k], b);
    var r := h.s.calls[id].creation;
    MayCreate(h.s, id, e);
    CreationTablesAre(h.s, id, e);
    if k == r.k {
      Whole(h.s);
      assert CallInv(h.s, h.s.calls[id]);
      assert Planned(h.s, r, b);
      StoreOwnAt(h, n, id, r, e.issued, b);
    } else {
      StoreOtherAt(h, n, id, r, e.issued, k, h.s.keys[k], b);
    }
  }

  lemma StepAgrees(h: History, id: nat, e: Event)
    requires Inv(h.s) && Ahead(h.s) && Agrees(h) && Can(h.s, id, e)
    ensures Agrees(After(h, id, e))
  {
    AgreesWhole(h);
    var n := After(h, id, e);
    StaleRowsKept(h, id, e);
    forall k, b | k in n.s.keys && Clean(n.s, n.s.keys[k]) ensures StaleAt(n, k, n.s.keys[k], b) {
      if e.CommitWrite? {
        WriteStepAt(h, id, e, k, b);
      } else if e.StoreGrants? {
        StoreStepAt(h, id, e, k, b);
      } else {
        ShrinkStep(h, id, e, k, b);
      }
    }
  }

  lemma StartAgrees()
    ensures Agrees(START)
  {}

  lemma FollowAgrees(h: History, n: History)
    requires Inv(h.s) && Ahead(h.s) && Agrees(h) && Follows(h, n)
    ensures Inv(n.s) && Ahead(n.s) && Agrees(n)
  {
    var id, e := Stepped(h, n);
    StepInv(h.s, id, e);
    StepAhead(h.s, id, e);
    StepAgrees(h, id, e);
  }

  lemma {:induction false} ChronicleAgrees(hs: seq<History>, i: nat)
    requires Chronicle(hs) && i < |hs|
    ensures Inv(hs[i].s) && Ahead(hs[i].s) && Agrees(hs[i])
  {
    if i == 0 {
      InitialInv();
      InitialAhead();
      StartAgrees();
    } else {
      ChronicleAgrees(hs, i - 1);
      assert StepAt(hs, i - 1);
      FollowAgrees(hs[i - 1], hs[i]);
    }
  }

  // ---------------------------------------------------------------------- the theorem

  /** Agreement, exactly: in every state of every run a created key of a principal
      no removal touches holds over a bucket the commands the committed policy
      grants its principal, if and only if its holding there is not stale. */
  lemma Agreement(hs: seq<History>, i: nat, k: Did, b: Did)
    requires Chronicle(hs) && i < |hs|
    requires k in hs[i].s.created && k in hs[i].s.keys && Clean(hs[i].s, hs[i].s.keys[k])
    ensures Held(hs[i].s.grants, k, b) == Required(hs[i].s, hs[i].s.keys[k], b) <==> Holding(k, b) !in hs[i].stale
  {
    ChronicleAgrees(hs, i);
    AgreesWhole(hs[i]);
    Whole(hs[i].s);
    var s := hs[i].s;
    assert InStep(s, k, s.keys[k]);
    assert Matches(s, k, s.keys[k], b);
    assert StaleAt(hs[i], k, s.keys[k], b);
    HeldNothing(s.grants, k, b);
  }

  /** Policies are enforced: over a bucket where its holding is not stale, such a
      key can run a command exactly when the committed policy permits its principal
      an action that maps to it. */
  lemma PoliciesEnforced(hs: seq<History>, i: nat, k: Did, b: Did, c: Command)
    requires Chronicle(hs) && i < |hs| && Holding(k, b) !in hs[i].stale
    requires k in hs[i].s.created && k in hs[i].s.keys && Clean(hs[i].s, hs[i].s.keys[k])
    ensures CanRun(hs[i].s.grants, k, b, c) <==>
      b in hs[i].s.policies && LetsRun(hs[i].s.policies[b], hs[i].s.keys[k], c)
  {
    Agreement(hs, i, k, b);
    HeldMeans(hs[i].s.grants, k, b, c);
    LetsRunMeans(Policy(hs[i].s, b), hs[i].s.keys[k], c);
  }

  // --------------------------------------------------------- what staleness means

  /** A creation stores for its key x.key commands over x.bucket other than those
      required there by then: a policy write has overtaken its reading. */
  ghost predicate StoresStale(h: History, n: History, x: Holding) {
    exists id: nat, issued :: Takes(h, n, id, StoreGrants(issued))
      && Owns(h.s, id, x.key) && Held(issued, x.key, x.bucket) != {}
      && Held(issued, x.key, x.bucket) != Required(h.s, h.s.calls[id].creation.p, x.bucket)
  }

  /** The bucket's row goes and x.key's grants over it stay. */
  ghost predicate LeavesBehind(h: History, n: History, x: Holding) {
    Ends(h.s, n.s, x.bucket) && Over(n.s.grants, x.key, x.bucket) != {}
  }

  ghost predicate SameRows(h: History, n: History, x: Holding) {
    Over(h.s.grants, x.key, x.bucket) == Over(n.s.grants, x.key, x.bucket)
  }

  /** x went stale at step a, and since then no row of it has come or gone. */
  ghost predicate StaleSince(hs: seq<History>, a: nat, i: nat, x: Holding) {
    && a < i < |hs|
    && (StoresStale(hs[a], hs[a + 1], x) || LeavesBehind(hs[a], hs[a + 1], x))
    && forall m :: a < m <= i ==> SameRows(hs[m], hs[i], x)
  }

  lemma StoringMeans(h: History, n: History, id: nat, e: Event, x: Holding)
    requires Takes(h, n, id, e) && Can(h.s, id, e) && x in StoringStale(h.s, id, e)
    ensures StoresStale(h, n, x)
  {
    MayCreate(h.s, id, e);
    StoringIs(h.s, id, h.s.calls[id].creation, e.issued, x.key, x.bucket);
    HeldNothing(e.issued, x.key, x.bucket);
    assert e == StoreGrants(e.issued);
  }

  lemma UndroppedRows(s: State, n: State, x: Holding)
    requires GrantsRely(s, n) && Over(s.grants, x.key, x.bucket) != {} && x !in Holdings(s.grants - n.grants)
    ensures Over(s.grants, x.key, x.bucket) == Over(n.grants, x.key, x.bucket)
  {
    DroppedIs(s.grants, n.grants, x.key, x.bucket);
    var d :| d in Over(s.grants, x.key, x.bucket);
    forall e | e in Over(n.grants, x.key, x.bucket) ensures e in s.grants { assert SamePair(d, e); }
  }

  /** What is stale after a step was stale before and is as it was, or went stale
      at it. */
  lemma StaleStep(h: History, n: History, x: Holding)
    requires Inv(h.s) && StaleRows(h) && Follows(h, n) && x in n.stale
    ensures (x in h.stale && SameRows(h, n, x)) || StoresStale(h, n, x) || LeavesBehind(h, n, x)
  {
    var id, e := Stepped(h, n);
    if x in Orphaned(h.s, n.s) {
      OrphanedIs(h.s, n.s, x.key, x.bucket);
    } else if x in StoringStale(h.s, id, e) {
      StoringMeans(h, n, id, e, x);
    } else {
      StepRely(h.s, id, e);
      UndroppedRows(h.s, n.s, x);
    }
  }

  lemma StoresStaleEnters(h: History, n: History, x: Holding)
    requires StoresStale(h, n, x)
    ensures x in n.stale
  {
    var id: nat, issued :| Takes(h, n, id, StoreGrants(issued))
      && Owns(h.s, id, x.key) && Held(issued, x.key, x.bucket) != {}
      && Held(issued, x.key, x.bucket) != Required(h.s, h.s.calls[id].creation.p, x.bucket);
    Took(h, n, id, StoreGrants(issued));
    MayCreate(h.s, id, StoreGrants(issued));
    StoringIs(h.s, id, h.s.calls[id].creation, issued, x.key, x.bucket);
    HeldNothing(issued, x.key, x.bucket);
  }

  lemma LeavesBehindEnters(h: History, n: History, x: Holding)
    requires Follows(h, n) && LeavesBehind(h, n, x)
    ensures x in n.stale
  {
    var id, e := Stepped(h, n);
    OrphanedIs(h.s, n.s, x.key, x.bucket);
  }

  lemma StaleLasts(h: History, n: History, x: Holding)
    requires Follows(h, n) && x in h.stale && SameRows(h, n, x)
    ensures x in n.stale
  {
    var id, e := Stepped(h, n);
    DroppedIs(h.s.grants, n.s.grants, x.key, x.bucket);
    forall d | d in Over(h.s.grants, x.key, x.bucket) ensures d in n.s.grants { assert d in Over(n.s.grants, x.key, x.bucket); }
  }

  /** The last step before i at which x's rows or its staleness began. */
  lemma {:induction false} WentStale(hs: seq<History>, i: nat, x: Holding) returns (a: nat)
    requires i < |hs| && hs[0].stale == {} && x in hs[i].stale
    ensures a < i && x in hs[a + 1].stale && !(x in hs[a].stale && SameRows(hs[a], hs[a + 1], x))
    ensures forall m :: a < m <= i ==> SameRows(hs[m], hs[i], x)
  {
    a := i - 1;
    if x in hs[a].stale && SameRows(hs[a], hs[i], x) { a := WentStale(hs, i - 1, x); }
  }

  lemma {:induction false} StaysStale(hs: seq<History>, a: nat, i: nat, x: Holding)
    requires Chronicle(hs) && a < i < |hs| && x in hs[a + 1].stale
    requires forall m :: a < m <= i ==> SameRows(hs[m], hs[i], x)
    ensures x in hs[i].stale
    decreases i - a
  {
    if a + 1 < i {
      assert StepAt(hs, a + 1);
      assert SameRows(hs[a + 1], hs[i], x) && SameRows(hs[a + 2], hs[i], x);
      StaleLasts(hs[a + 1], hs[a + 2], x);
      StaysStale(hs, a + 1, i, x);
    }
  }

  /** A holding is stale exactly if a creation once stored it other than required,
      or its bucket ended without it, and it has been left alone since. */
  lemma StaleMeans(hs: seq<History>, i: nat, x: Holding)
    requires Chronicle(hs) && i < |hs|
    ensures x in hs[i].stale <==> exists a: nat :: StaleSince(hs, a, i, x)
  {
    if x in hs[i].stale {
      var a := WentStale(hs, i, x);
      ChronicleAgrees(hs, a);
      AgreesWhole(hs[a]);
      assert StepAt(hs, a);
      StaleStep(hs[a], hs[a + 1], x);
      assert StaleSince(hs, a, i, x);
    }
    if a: nat :| StaleSince(hs, a, i, x) {
      assert StepAt(hs, a);
      if StoresStale(hs[a], hs[a + 1], x) { StoresStaleEnters(hs[a], hs[a + 1], x); } else { LeavesBehindEnters(hs[a], hs[a + 1], x); }
      StaysStale(hs, a, i, x);
    }
  }
}
