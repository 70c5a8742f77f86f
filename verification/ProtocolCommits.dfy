/** Steps that commit: each keeps the tables' invariant and does to the tables
    only what the other calls' locks allow. */
module ProtocolCommits {
  import opened Common
  import opened BucketPolicy
  import opened Permissions
  import opened Delegations
  import opened Protocol
  import opened ProtocolInvariant
  import opened ProtocolLocks
  import opened ProtocolQuiet

  // ---------------------------------------------------------------- common parts

  lemma OwnAlone(s: State, id: nat, l: Lock, m: Mode)
    requires Exclusive(s) && id in s.calls && Holds(s.calls[id], l, m)
    ensures forall j :: Others(s, id, j) ==> !Blocks(s.calls[j], l, m)
  {
    forall j | Others(s, id, j) ensures !Blocks(s.calls[j], l, m) {
      assert Compatible(s.calls[id], s.calls[j]);
    }
  }

  /** Keys already created stay in step. */
  lemma CreatedKept(s: State, n: State, id: nat)
    requires Inv(s) && Rely(s, n, id) && n.created == s.created
    ensures CreatedInStep(n)
  {
    Whole(s);
    forall k | k in n.created && k in n.keys && Clean(n, n.keys[k]) ensures InStep(n, k, n.keys[k]) {
      assert !Owns(s, id, k) by { assert id in s.calls ==> CallInv(s, s.calls[id]); }
      assert k in s.keys && s.keys[k] == n.keys[k];
      assert Clean(s, s.keys[k]);
      assert InStep(s, k, s.keys[k]);
      forall b ensures Matches(n, k, n.keys[k], b) {
        assert ProgressAt(s, n, k, s.keys[k], b);
        assert Matches(s, k, s.keys[k], b);
      }
    }
  }

  lemma HeldSame(a: set<Delegation>, b: set<Delegation>, k: Did, over: Did)
    requires forall d: Delegation :: d.audience == k && d.subject == over ==> (d in a <==> d in b)
    ensures Held(a, k, over) == Held(b, k, over)
  {
    assert Over(a, k, over) == Over(b, k, over);
  }

  lemma NothingRequired(s: State, p: PrincipalId, b: Did)
    ensures b !in s.policies ==> Required(s, p, b) == {}
  {}

  // ------------------------------------------------------------ committing a write

  /** What the rewritten keys hold over the bucket is what was issued; the rest
      is as it was. */
  lemma CommittedHeld(s: State, w: Write, issued: set<Delegation>, k: Did, b: Did)
    requires Reissued(s, w, issued) && w.remaining <= w.auds
    ensures b != w.bucket || k !in w.auds ==> Held(Committed(s, w, issued).grants, k, b) == Held(s.grants, k, b)
    ensures k in w.remaining ==> Held(Committed(s, w, issued).grants, k, w.bucket) == Commands(w.doc, BoundTo(s, k))
    ensures k in w.auds && k !in w.remaining ==> Held(Committed(s, w, issued).grants, k, w.bucket) == {}
  {
    var g := Committed(s, w, issued).grants;
    if b != w.bucket || k !in w.auds { HeldSame(g, s.grants, k, b); }
    if k in w.auds { HeldSame(g, issued, k, w.bucket); }
    if k in w.auds && k !in w.remaining { assert Over(issued, k, w.bucket) == {}; }
  }

  /** The tables a committed write leaves. */
  ghost predicate AfterWrite(s: State, n: State, w: Write, issued: set<Delegation>) {
    var m := Committed(s, w, issued);
    && SameTables(m, n)
    && NoCleaner(s, n)
  }

  /** w is call id's: its locks are held, its part of the invariant holds. */
  ghost predicate OwnWrite(s: State, id: nat, w: Write) {
    && id in s.calls
    && (forall l, m :: WriteHolds(w, l, m) ==> Holds(s.calls[id], l, m))
    && !s.calls[id].Creating?
    && WriteInv(s, w)
  }

  /** A row that stays is the same row. */
  lemma WriteBorn(s: State, n: State, w: Write, issued: set<Delegation>)
    requires SameTables(Committed(s, w, issued), n)
    ensures forall b :: b in s.policies && b in n.policies ==> Born(n, b) == Born(s, b)
  {}

  /** No other call holds the bucket's lock, nor a named principal's row for
      update. */
  lemma WriteAlone(s: State, id: nat, w: Write)
    requires Exclusive(s) && OwnWrite(s, id, w) && w.stage >= LOADED
    ensures forall j :: Others(s, id, j) ==> !HoldsSome(s.calls[j], BucketLock(w.bucket))
    ensures forall p, j :: w.doc.Some? && p in NamedSet(w.doc.value) && Others(s, id, j) ==>
              !Holds(s.calls[j], PrincipalRow(p), Update)
  {
    assert WriteHolds(w, BucketLock(w.bucket), Update);
    OwnAlone(s, id, BucketLock(w.bucket), Update);
    forall p, j | w.doc.Some? && p in NamedSet(w.doc.value) && Others(s, id, j)
      ensures !Holds(s.calls[j], PrincipalRow(p), Update)
    {
      assert WriteHolds(w, PrincipalRow(p), KeyShare);
      OwnAlone(s, id, PrincipalRow(p), KeyShare);
    }
  }

  lemma WritePolicyRely(s: State, n: State, id: nat, w: Write, issued: set<Delegation>)
    requires Exclusive(s) && OwnWrite(s, id, w) && CanCommit(s, w, issued) && AfterWrite(s, n, w, issued)
    ensures PolicyRely(s, n, id)
  {
    WriteBorn(s, n, w, issued);
    WriteAlone(s, id, w);
  }

  lemma WriteGrantsRely(s: State, n: State, w: Write, issued: set<Delegation>)
    requires RowsInv(s) && WriteInv(s, w) && CanCommit(s, w, issued) && AfterWrite(s, n, w, issued)
    ensures GrantsRely(s, n)
  {
    forall d | d in n.grants ensures d in s.grants || (d.link !in s.minted && d.link in n.minted) {
      if d in issued { assert d.link in Links(issued); }
    }
  }

  /** Stripping the removed principal from a policy leaves what every other
      principal requires. */
  lemma StripRequires(s: State, w: Write, p: PrincipalId, q: PrincipalId)
    requires WriteInv(s, w) && w.stage >= LOADED && Strips(w, p) && q != p
    ensures EffectiveSet(w.doc, q) == EffectiveSet(Policy(s, w.bucket), q)
  {
    var d: Document :| w.condition == IfMatch(ETag(d)) && w.doc == StripWrite(w.bucket, d, p).doc;
    SameTagSameMeaning(w.was.value, d, q);
    StripPreservesOthers(d, p, q);
  }

  lemma WriteProgress(s: State, n: State, id: nat, w: Write, issued: set<Delegation>)
    requires Inv(s) && OwnWrite(s, id, w) && CanCommit(s, w, issued) && AfterWrite(s, n, w, issued)
    requires !w.rotates ==> s.calls[id].Removing? && Strips(w, s.calls[id].removal.p)
    ensures ProgressRely(s, n, id)
  {
    Whole(s);
    forall k, b | k in s.keys && k in n.keys && !Owns(s, id, k) && Clean(n, s.keys[k])
      ensures ProgressAt(s, n, k, s.keys[k], b)
    {
      var p := s.keys[k];
      CommittedHeld(s, w, issued, k, b);
      if b == w.bucket {
        assert Required(n, p, b) == Commands(w.doc, p);
        if !w.rotates {
          StripRequires(s, w, s.calls[id].removal.p, p);
        } else if w.doc.None? {
          assert Required(n, p, b) == {};
        } else if k !in w.remaining {
          assert p in s.live;
          assert EffectiveSet(w.was, p) == EffectiveSet(w.doc, p);
        }
      }
    }
  }

  lemma WriteTables(s: State, n: State, id: nat, w: Write, issued: set<Delegation>)
    requires Inv(s) && OwnWrite(s, id, w) && CanCommit(s, w, issued) && AfterWrite(s, n, w, issued)
    ensures RowsInv(n) && NoDangling(n) && forall k, b :: OneRevision(n, k, b)
  {
    Whole(s);
    forall d | d in n.grants ensures d.link in n.minted {
      if d in issued { assert d.link in Links(issued); }
    }
    assert w.was.Some? ==> w.bucket in s.policies;
    forall k, b ensures OneRevision(n, k, b) {
      CommittedHeld(s, w, issued, k, b);
      assert OneRevision(s, k, b);
      if b == w.bucket && k in w.remaining {
        if w.doc.Some? { assert Revision(b, w.doc.value) in n.revisions; }
      } else if b != w.bucket || k !in w.auds {
        if Held(s.grants, k, b) != {} {
          var d :| Revision(b, d) in s.revisions && Held(s.grants, k, b) == Commands(Some(d), BoundTo(s, k));
          assert Revision(b, d) in n.revisions && Held(n.grants, k, b) == Commands(Some(d), BoundTo(n, k));
        }
      }
    }
  }

  lemma WriteCommitted(s: State, n: State, id: nat, w: Write, issued: set<Delegation>)
    requires Inv(s) && OwnWrite(s, id, w) && CanCommit(s, w, issued) && AfterWrite(s, n, w, issued)
    requires !w.rotates ==> s.calls[id].Removing? && Strips(w, s.calls[id].removal.p)
    ensures Rely(s, n, id) && TablesInv(n)
  {
    Whole(s);
    WritePolicyRely(s, n, id, w, issued);
    WriteGrantsRely(s, n, w, issued);
    WriteProgress(s, n, id, w, issued);
    WriteTables(s, n, id, w, issued);
    CreatedKept(s, n, id);
  }

  lemma WritingKeeps(s: State, id: nat, w: Write, issued: set<Delegation>)
    requires Inv(s) && id in s.calls && s.calls[id] == Writing(w) && CanCommit(s, w, issued)
    requires NoCleaner(s, Do(s, id, CommitWrite(issued)))
    ensures Keeps(s, Do(s, id, CommitWrite(issued)), id)
  {
    Whole(s);
    assert CallInv(s, s.calls[id]);
    StepIs(s, id, CommitWrite(issued));
    WriteCommitted(s, Do(s, id, CommitWrite(issued)), id, w, issued);
  }

  lemma StrippingKeeps(s: State, id: nat, r: Removal, issued: set<Delegation>)
    requires Inv(s) && id in s.calls && s.calls[id] == Removing(r)
    requires r.strip.Some? && CanCommit(s, r.strip.value, issued)
    requires NoCleaner(s, Do(s, id, CommitWrite(issued)))
    ensures Keeps(s, Do(s, id, CommitWrite(issued)), id)
  {
    Whole(s);
    var n := Do(s, id, CommitWrite(issued));
    assert CallInv(s, s.calls[id]);
    StepIs(s, id, CommitWrite(issued));
    WriteCommitted(s, n, id, r.strip.value, issued);
    assert RemovalInv(n, r.(strip := None));
  }

  // ------------------------------------------------------------------- removals

  /** The tables a removal's step leaves, and who it leaves clean. */
  ghost predicate AfterRemoval(s: State, n: State, id: nat, r: Removal, e: Event) {
    && id in s.calls && s.calls[id] == Removing(r)
    && SameTables(RemovalTables(s, r, e), n)
    && forall p :: p != r.p && Clean(n, p) ==> Clean(s, p)
  }

  /** A removal's keys lose their grants, and every other key keeps its own. */
  lemma ListedDropped(s: State, listed: set<Did>, k: Did, b: Did)
    ensures Held((set d | d in s.grants && d.audience !in listed), k, b) == if k in listed then {} else Held(s.grants, k, b)
  {
    var g := set d | d in s.grants && d.audience !in listed;
    if k in listed { assert Over(g, k, b) == {}; } else { HeldSame(g, s.grants, k, b); }
  }

  lemma DroppedRevision(s: State, n: State, k: Did, b: Did)
    requires OneRevision(s, k, b) && n.revisions == s.revisions && n.bound == s.bound
    requires Held(n.grants, k, b) == {} || Held(n.grants, k, b) == Held(s.grants, k, b)
    ensures OneRevision(n, k, b)
  {}

  lemma DroppedGrantsRely(s: State, n: State, listed: set<Did>)
    requires n.grants == set d | d in s.grants && d.audience !in listed
    ensures GrantsRely(s, n)
  {}

  lemma ClearTables(s: State, n: State, id: nat, r: Removal)
    requires TablesInv(s) && AfterRemoval(s, n, id, r, ClearGrants)
    ensures RowsInv(n) && NoDangling(n) && forall k, b :: OneRevision(n, k, b)
  {
    forall k, b ensures OneRevision(n, k, b) {
      ListedDropped(s, r.listed, k, b);
      assert OneRevision(s, k, b);
      DroppedRevision(s, n, k, b);
    }
  }

  lemma ClearProgress(s: State, n: State, id: nat, r: Removal)
    requires RowsInv(s) && RemovalInv(s, r) && AfterRemoval(s, n, id, r, ClearGrants)
    requires id in n.calls && n.calls[id].Removing? && n.calls[id].removal.p == r.p
    ensures ProgressRely(s, n, id)
  {
    forall k, b | k in s.keys && k in n.keys && !Owns(s, id, k) && Clean(n, s.keys[k])
      ensures ProgressAt(s, n, k, s.keys[k], b)
    {
      ListedDropped(s, r.listed, k, b);
    }
  }

  lemma ClearRely(s: State, n: State, id: nat, r: Removal)
    requires AfterRemoval(s, n, id, r, ClearGrants) && NoCleaner(s, n)
    requires ProgressRely(s, n, id) && GrantsRely(s, n)
    ensures Rely(s, n, id)
  {}

  lemma ClearKeeps(s: State, n: State, id: nat, r: Removal)
    requires Inv(s) && AfterRemoval(s, n, id, r, ClearGrants) && NoCleaner(s, n)
    requires id in n.calls && n.calls[id].Removing? && n.calls[id].removal.p == r.p
    ensures Rely(s, n, id) && TablesInv(n)
  {
    Whole(s);
    assert CallInv(s, s.calls[id]);
    ClearTables(s, n, id, r);
    ClearProgress(s, n, id, r);
    DroppedGrantsRely(s, n, r.listed);
    ClearRely(s, n, id, r);
    CreatedKept(s, n, id);
  }

  lemma GoneKeeps(s: State, n: State, id: nat, r: Removal)
    requires Inv(s) && AfterRemoval(s, n, id, r, PrincipalGone) && r.p !in s.live
    ensures Rely(s, n, id) && TablesInv(n)
  {
    Whole(s);
    SameRely(s, n, id);
    SameInv(s, n);
  }

  lemma RemovedTables(s: State, n: State, id: nat, r: Removal)
    requires TablesInv(s) && RemovalInv(s, r) && AfterRemoval(s, n, id, r, CommitRemoval) && r.stage == REMOVED
    ensures RowsInv(n) && NoDangling(n) && forall k, b :: OneRevision(n, k, b)
  {
    forall k, b ensures OneRevision(n, k, b) {
      ListedDropped(s, r.listed, k, b);
      assert OneRevision(s, k, b);
      DroppedRevision(s, n, k, b);
    }
  }

  lemma RemovedLive(s: State, n: State, id: nat, r: Removal)
    requires Exclusive(s) && AfterRemoval(s, n, id, r, CommitRemoval) && r.stage == REMOVED
    ensures LiveRely(s, n, id)
  {
    assert Holds(s.calls[id], PrincipalRow(r.p), Update);
    OwnAlone(s, id, PrincipalRow(r.p), Update);
  }

  lemma RemovedHeld(s: State, n: State, id: nat, r: Removal, k: Did, b: Did)
    requires AfterRemoval(s, n, id, r, CommitRemoval) && k in n.keys
    ensures Held(n.grants, k, b) == Held(s.grants, k, b) && n.policies == s.policies
  {
    ListedDropped(s, r.listed, k, b);
  }

  lemma RemovedProgress(s: State, n: State, id: nat, r: Removal)
    requires AfterRemoval(s, n, id, r, CommitRemoval)
    ensures ProgressRely(s, n, id)
  {
    forall k, b | k in s.keys && k in n.keys && !Owns(s, id, k) && Clean(n, s.keys[k])
      ensures ProgressAt(s, n, k, s.keys[k], b)
    {
      RemovedHeld(s, n, id, r, k, b);
    }
  }

  lemma RemovedClean(s: State, n: State, id: nat, r: Removal)
    requires RemovalInv(s, r) && AfterRemoval(s, n, id, r, CommitRemoval) && r.stage == REMOVED
    ensures CleanRely(s, n)
  {}

  lemma RemovedRows(s: State, n: State, id: nat, r: Removal)
    requires RemovalInv(s, r) && AfterRemoval(s, n, id, r, CommitRemoval)
    ensures Grows(s, n) && PolicyRely(s, n, id) && KeysRely(s, n, id) && CreatedRely(s, n, id)
  {}

  lemma RemovedRely(s: State, n: State, id: nat, r: Removal)
    requires RemovalInv(s, r) && AfterRemoval(s, n, id, r, CommitRemoval)
    requires LiveRely(s, n, id) && ProgressRely(s, n, id) && CleanRely(s, n) && GrantsRely(s, n)
    ensures Rely(s, n, id)
  {
    RemovedRows(s, n, id, r);
  }

  lemma RemovedKeeps(s: State, n: State, id: nat, r: Removal)
    requires Inv(s) && AfterRemoval(s, n, id, r, CommitRemoval) && r.stage == REMOVED
    ensures Rely(s, n, id) && TablesInv(n)
  {
    Whole(s);
    assert CallInv(s, s.calls[id]);
    RemovedTables(s, n, id, r);
    RemovedLive(s, n, id, r);
    RemovedProgress(s, n, id, r);
    RemovedClean(s, n, id, r);
    DroppedGrantsRely(s, n, r.listed);
    RemovedRely(s, n, id, r);
    CreatedKept(s, n, id);
  }
}
