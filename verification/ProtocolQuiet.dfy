/** Steps that commit nothing: locks taken, tables read, revocations published,
    calls begun or failed. The tables stay and the stepping call keeps its own
    part of the invariant. */
module ProtocolQuiet {
  import opened Common
  import opened BucketPolicy
  import opened Permissions
  import opened Delegations
  import opened Protocol
  import opened ProtocolInvariant
  import opened ProtocolLocks

  /** Nothing committed differs but what was published. */
  ghost predicate SameTables(s: State, n: State) {
    && s.live == n.live && s.buckets == n.buckets && s.policies == n.policies && s.born == n.born
    && s.keys == n.keys && s.grants == n.grants
    && s.bound == n.bound && s.inserted == n.inserted && s.usedBuckets == n.usedBuckets
    && s.minted == n.minted && s.revisions == n.revisions && s.created == n.created
  }

  /** No principal becomes clean. */
  ghost predicate NoCleaner(s: State, n: State) {
    forall p :: Clean(n, p) ==> Clean(s, p)
  }

  lemma SameRely(s: State, n: State, id: nat)
    requires SameTables(s, n) && CleanRely(s, n)
    ensures Rely(s, n, id)
  {}

  lemma SameInv(s: State, n: State)
    requires TablesInv(s) && SameTables(s, n) && CleanRely(s, n)
    ensures TablesInv(n)
  {
    forall k, b ensures OneRevision(n, k, b) { assert OneRevision(s, k, b); }
    forall k | k in n.created && k in n.keys && Clean(n, n.keys[k]) ensures InStep(n, k, n.keys[k]) {
      assert InStep(s, k, s.keys[k]);
      forall b ensures Matches(n, k, n.keys[k], b) {
        assert Matches(s, k, s.keys[k], b);
      }
    }
  }

  lemma SameCall(s: State, n: State, c: Call)
    requires SameTables(s, n) && NoCleaner(s, n) && CallInv(s, c)
    ensures CallInv(n, c)
  {
    if c.Creating? { SameCreation(s, n, c.creation); }
  }

  lemma SameCreation(s: State, n: State, r: KeyCreation)
    requires SameTables(s, n) && NoCleaner(s, n) && CreationInv(s, r)
    ensures CreationInv(n, r)
  {
    if LISTING <= r.stage <= OWN_LOCKED && r.k in n.keys && Clean(n, r.p) {
      forall b ensures Planned(n, r, b) { assert Planned(s, r, b); }
    }
    if r.stage == STORED && r.k in n.keys && Clean(n, r.p) {
      forall b ensures Matches(n, r.k, r.p, b) {
        assert Matches(s, r.k, r.p, b);
      }
    }
  }

  /** The events that commit. */
  predicate Commits(e: Event) {
    || e.CommitWrite? || e.ClearGrants? || e.PrincipalGone? || e.CommitRemoval?
    || e.InsertKey? || e.StoreGrants? || e.FinishCreate? || e.RollBackGrants? || e.RollBackRow?
    || e.CommitKeyDelete? || e.CommitAdd? || e.UndoBucket? || e.CommitBucketDelete?
    || (e.Begin? && (e.call.Creating? || e.call.MakingBucket?))
  }

  lemma RemovalQuiet(s: State, r: Removal, e: Event)
    requires !Commits(e)
    ensures SameTables(s, RemovalTables(s, r, e))
  {}

  lemma StepQuiet(s: State, c: Call, e: Event)
    requires !Commits(e)
    ensures SameTables(s, Tables(s, c, e))
  {
    match c
    case Writing(_) =>
    case Removing(r) => RemovalQuiet(s, r, e);
    case Creating(_) =>
    case Deleting(_) =>
    case Adding(_) =>
    case MakingBucket(_) =>
    case DroppingBucket(_) =>
    case Asking(_) =>
  }

  lemma QuietTables(s: State, id: nat, e: Event)
    requires Can(s, id, e) && !Commits(e)
    ensures SameTables(s, Do(s, id, e))
  {
    if !e.Begin? && !e.Fail? { StepQuiet(s, s.calls[id], e); }
  }

  lemma SamePrincipal(s: State, c: Call, e: Event)
    requires c.Removing?
    ensures NextCall(s, c, e).Some? ==> NextCall(s, c, e).value.Removing? && NextCall(s, c, e).value.removal.p == c.removal.p
    ensures !e.PrincipalGone? && !e.CommitRemoval? ==> NextCall(s, c, e).Some?
  {
    RemovalGoesOn(s, c.removal, e);
  }

  lemma RemovalGoesOn(s: State, r: Removal, e: Event)
    ensures RemovalNext(s, r, e).Some? ==> RemovalNext(s, r, e).value.p == r.p
    ensures !e.PrincipalGone? && !e.CommitRemoval? ==> RemovalNext(s, r, e).Some?
  {}

  /** A step ends the removal of p. */
  predicate EndsRemoval(c: Call, e: Event, p: PrincipalId) {
    (e.PrincipalGone? || e.CommitRemoval?) && c.Removing? && c.removal.p == p
  }

  lemma UnfinishedKept(s: State, c: Call, e: Event, p: PrincipalId)
    requires p in s.unfinished && !EndsRemoval(c, e, p)
    ensures p in Tables(s, c, e).unfinished
  {
    match c
    case Writing(_) =>
    case Removing(r) => RemovalUnfinished(s, r, e, p);
    case Creating(_) =>
    case Deleting(_) =>
    case Adding(_) =>
    case MakingBucket(_) =>
    case DroppingBucket(_) =>
    case Asking(_) =>
  }

  lemma RemovalUnfinished(s: State, r: Removal, e: Event, p: PrincipalId)
    requires p in s.unfinished && !EndsRemoval(Removing(r), e, p)
    ensures p in RemovalTables(s, r, e).unfinished
  {}

  /** Only the end of its removal makes a principal clean. */
  lemma CleanKept(s: State, id: nat, e: Event, p: PrincipalId)
    requires Can(s, id, e) && Clean(Do(s, id, e), p)
    requires id in s.calls ==> !EndsRemoval(s.calls[id], e, p)
    ensures Clean(s, p)
  {
    var n := Do(s, id, e);
    OthersKept(s, id, e);
    if !e.Begin? && !e.Fail? && p in s.unfinished { UnfinishedKept(s, s.calls[id], e, p); }
    forall j | j in s.calls && s.calls[j].Removing? ensures s.calls[j].removal.p != p {
      if j != id {
        assert Others(s, id, j) && n.calls[j] == s.calls[j];
      } else if e.Fail? {
        assert s.calls[id].removal.p in n.unfinished;
      } else {
        SamePrincipal(s, s.calls[id], e);
        assert NextCall(s, s.calls[id], e).Some? ==> id in n.calls && n.calls[id].removal.p == s.calls[id].removal.p;
      }
    }
  }

  lemma NoCleanerUnless(s: State, id: nat, e: Event)
    requires Can(s, id, e) && !e.PrincipalGone? && !e.CommitRemoval?
    ensures NoCleaner(s, Do(s, id, e))
  {
    forall p | Clean(Do(s, id, e), p) ensures Clean(s, p) { CleanKept(s, id, e, p); }
  }

  // ------------------------------------------------------- the stepping call

  lemma WriteStep(s: State, id: nat, w: Write, e: Event)
    requires RowsInv(s) && NoDangling(s) && WriteInv(s, w) && WriteCan(s, id, w, e)
    ensures WriteInv(s, WriteDo(s, w, e))
  {
    if e.Affect? && w.doc.Some? {
      forall p | p in s.live ensures EffectiveSet(w.was, p) != EffectiveSet(w.doc, p) ==> p in WriteDo(s, w, e).affected {
        ChangedIsExact(w.was, w.doc, s.live, p);
      }
    }
  }

  lemma StripStep(s: State, id: nat, r: Removal, e: Event)
    requires RowsInv(s) && NoDangling(s) && RemovalInv(s, r) && CanRemoval(s, id, r, e) && !RemovalsOwn(e)
    ensures RemovalNext(s, r, e).Some? && RemovalInv(s, RemovalNext(s, r, e).value)
  {
    StripNextIs(s, id, r, e);
    StripKeeps(s, id, r.strip.value, e, r.p);
  }

  lemma StripNextIs(s: State, id: nat, r: Removal, e: Event)
    requires CanRemoval(s, id, r, e) && !RemovalsOwn(e)
    ensures r.strip.Some? && r.stage == STRIPPING && WriteCan(s, id, r.strip.value, e)
    ensures RemovalNext(s, r, e) == Some(r.(strip := Some(WriteDo(s, r.strip.value, e))))
  {}

  /** A statement of a policy rewrite keeps what it rewrites. */
  lemma StripKeeps(s: State, id: nat, w: Write, e: Event, p: PrincipalId)
    requires RowsInv(s) && NoDangling(s) && WriteInv(s, w) && WriteCan(s, id, w, e) && Strips(w, p)
    ensures WriteInv(s, WriteDo(s, w, e)) && Strips(WriteDo(s, w, e), p)
  {
    WriteStep(s, id, w, e);
    var d: Document :| w.condition == IfMatch(ETag(d)) && w.doc == StripWrite(w.bucket, d, p).doc;
    assert WriteDo(s, w, e).condition == IfMatch(ETag(d));
  }

  lemma RemovalStep(s: State, id: nat, r: Removal, e: Event)
    requires RowsInv(s) && NoDangling(s) && RemovalInv(s, r) && CanRemoval(s, id, r, e) && !Commits(e) && RemovalsOwn(e)
    ensures RemovalNext(s, r, e).Some? && RemovalInv(s, RemovalNext(s, r, e).value)
  {
    if e.CheckPolicies? {
      forall b | b in s.policies ensures r.p !in NamedSet(s.policies[b]) {
        assert r.p in NamedSet(s.policies[b]) ==> Indexed(s.policies[b], r.p);
      }
    }
    if e.StripNext? && e.b in r.todo {
      var w := StripWrite(e.b, r.todo[e.b], r.p);
      assert w.condition == IfMatch(ETag(r.todo[e.b])) && w.doc == StripWrite(w.bucket, r.todo[e.b], r.p).doc;
    }
  }

  lemma CreationStep(s: State, id: nat, r: KeyCreation, e: Event)
    requires RowsInv(s) && NoDangling(s) && CreationInv(s, r) && CanKeyCreate(s, id, r, e) && !Commits(e)
    ensures CreationNext(s, r, e).Some? && CreationInv(s, CreationNext(s, r, e).value)
  {
    var v := CreationNext(s, r, e).value;
    if LISTING <= v.stage <= OWN_LOCKED && v.k in s.keys && Clean(s, v.p) {
      forall b ensures Planned(s, v, b) {
        if e.ListPolicies? {
          ListedPlanned(s, v, b);
        } else {
          assert Planned(s, r, b);
        }
      }
    }
    if v.stage == STORED && v.k in s.keys && Clean(s, v.p) {
      forall b ensures Matches(s, v.k, v.p, b) {
        if r.stage == PLANNED { assert Planned(s, r, b); }
      }
    }
  }

  /** A bucket the policy listing leaves out grants the principal nothing. */
  lemma ListedPlanned(s: State, r: KeyCreation, b: Did)
    requires r.stage == LISTING && r.docs == map[]
    requires r.cands == map b | b in s.policies && Indexed(s.policies[b], r.p) :: Born(s, b)
    ensures Planned(s, r, b)
  {
    if b !in r.cands {
      if b in s.policies { EffectiveIsIndexed(s.policies[b], r.p); }
      assert EffectiveSet(Policy(s, b), r.p) == {};
      assert Required(s, r.p, b) == {};
    }
  }

  lemma DropStep(s: State, id: nat, r: BucketDeletion, e: Event)
    requires RowsInv(s) && DropInv(s, r) && CanBucketDelete(s, id, r, e) && !Commits(e)
    ensures DropNext(s, r, e).Some? && DropInv(s, DropNext(s, r, e).value)
  {}

  lemma InfoStep(s: State, id: nat, r: InfoRequest, e: Event)
    requires RowsInv(s) && InfoInv(s, r) && CanInfo(s, id, r, e)
    ensures InfoInv(s, InfoNext(s, r, e))
  {
    if e.GetPolicy? {
      var v := InfoNext(s, r, e);
      forall d: Option<Document> | TagOf(d) == v.tag ensures EffectiveSet(d, r.p) == v.eff {
        var q := Policy(s, r.b);
        if d.Some? { SameTagSameMeaning(d.value, q.value, r.p); }
      }
    }
  }

  /** Where a quiet step leaves its call, the invariant holds of it. */
  ghost predicate NextInv(s: State, c: Call, e: Event) {
    forall n :: NextCall(s, c, e) == Some(n) ==> CallInv(s, n)
  }

  lemma QuietWrite(s: State, id: nat, e: Event)
    requires Inv(s) && Can(s, id, e) && id in s.calls && s.calls[id].Writing? && !Commits(e) && !e.Fail?
    ensures NextInv(s, s.calls[id], e)
  {
    Whole(s);
    assert CallInv(s, s.calls[id]);
    MayWrite(s, id, e);
    WriteStep(s, id, s.calls[id].write, e);
  }

  lemma QuietRemoval(s: State, id: nat, e: Event)
    requires Inv(s) && Can(s, id, e) && id in s.calls && s.calls[id].Removing? && !Commits(e) && !e.Fail?
    ensures NextInv(s, s.calls[id], e)
  {
    Whole(s);
    assert CallInv(s, s.calls[id]);
    MayRemove(s, id, e);
    if RemovalsOwn(e) { RemovalStep(s, id, s.calls[id].removal, e); } else { StripStep(s, id, s.calls[id].removal, e); }
  }

  lemma QuietCreation(s: State, id: nat, e: Event)
    requires Inv(s) && Can(s, id, e) && id in s.calls && s.calls[id].Creating? && !Commits(e) && !e.Fail?
    ensures NextInv(s, s.calls[id], e)
  {
    Whole(s);
    assert CallInv(s, s.calls[id]);
    MayCreate(s, id, e);
    CreationStep(s, id, s.calls[id].creation, e);
  }

  lemma QuietDrop(s: State, id: nat, e: Event)
    requires Inv(s) && Can(s, id, e) && id in s.calls && s.calls[id].DroppingBucket? && !Commits(e) && !e.Fail?
    ensures NextInv(s, s.calls[id], e)
  {
    Whole(s);
    assert CallInv(s, s.calls[id]);
    MayDrop(s, id, e);
    DropStep(s, id, s.calls[id].drop, e);
  }

  lemma QuietInfo(s: State, id: nat, e: Event)
    requires Inv(s) && Can(s, id, e) && id in s.calls && s.calls[id].Asking? && !Commits(e) && !e.Fail?
    ensures NextInv(s, s.calls[id], e)
  {
    Whole(s);
    assert CallInv(s, s.calls[id]);
    MayAsk(s, id, e);
    InfoStep(s, id, s.calls[id].info, e);
  }

  lemma QuietRest(s: State, c: Call, e: Event)
    requires CallInv(s, c) && (c.Deleting? || c.Adding? || c.MakingBucket?)
    ensures NextInv(s, c, e)
  {}

  lemma QuietCall(s: State, id: nat, e: Event)
    requires Inv(s) && Can(s, id, e) && id in s.calls && !Commits(e) && !e.Fail?
    ensures NextInv(s, s.calls[id], e)
  {
    Whole(s);
    match s.calls[id]
    case Writing(_) => QuietWrite(s, id, e);
    case Removing(_) => QuietRemoval(s, id, e);
    case Creating(_) => QuietCreation(s, id, e);
    case DroppingBucket(_) => QuietDrop(s, id, e);
    case Asking(_) => QuietInfo(s, id, e);
    case _ =>
      assert CallInv(s, s.calls[id]);
      QuietRest(s, s.calls[id], e);
  }

  lemma BegunCall(s: State, c: Call)
    requires RowsInv(s) && CanBegin(s, c) && !c.Creating?
    ensures CallInv(s, c)
  {}

  /** A step's tables and the stepping call's next state. */
  lemma StepIs(s: State, id: nat, e: Event)
    requires id in s.calls && !e.Begin? && !e.Fail?
    ensures SameTables(Tables(s, s.calls[id], e), Do(s, id, e))
    ensures id in Do(s, id, e).calls <==> NextCall(s, s.calls[id], e).Some?
    ensures id in Do(s, id, e).calls ==> Some(Do(s, id, e).calls[id]) == NextCall(s, s.calls[id], e)
  {}

  /** What a step owes: the other calls' reliance, the tables' invariant and its
      own. */
  ghost predicate KeepsParts(s: State, n: State, id: nat) {
    && Rely(s, n, id)
    && TablesInv(n)
    && (forall c :: id in n.calls && c == n.calls[id] ==> CallInv(n, c))
  }

  ghost predicate Keeps(s: State, n: State, id: nat) {
    forall m :: m == n ==> KeepsParts(s, m, id)
  }

  lemma KeptWhole(s: State, n: State, id: nat)
    requires Keeps(s, n, id)
    ensures KeepsParts(s, n, id)
  {}

  lemma QuietKeeps(s: State, id: nat, e: Event)
    requires Inv(s) && Can(s, id, e) && !Commits(e)
    ensures Keeps(s, Do(s, id, e), id)
  {
    Whole(s);
    var n := Do(s, id, e);
    QuietTables(s, id, e);
    NoCleanerUnless(s, id, e);
    SameRely(s, n, id);
    SameInv(s, n);
    if e.Begin? {
      BegunCall(s, e.call);
      SameCall(s, n, e.call);
    } else if id in n.calls {
      OwnStep(s, id, e);
      QuietCall(s, id, e);
      SameCall(s, n, n.calls[id]);
    }
  }
}
