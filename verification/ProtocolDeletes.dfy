/** A policy delete takes no lock on the tenant, so principals and keys can
    appear while it rotates. They fall behind it: a key it does not list holds
    nothing over the bucket, and its creation cannot return before the delete
    commits. */
module ProtocolDeletes {
  import opened Common
  import opened BucketPolicy
  import opened Permissions
  import opened Delegations
  import opened Protocol
  import opened ProtocolInvariant
  import opened ProtocolLocks
  import opened ProtocolQuiet
  import opened ProtocolCommits
  import opened ProtocolSafety
  import opened ProtocolTables

  // ------------------------------------------------------------------ the invariant

  /** Only keys with a row ever inserted hold anything. */
  ghost predicate GrantsInserted(s: State) {
    forall d :: d in s.grants ==> d.audience in s.inserted
  }

  ghost predicate RowInserted(s: State, r: KeyCreation) {
    INSERTED <= r.stage <= STORED ==> r.k in s.inserted
  }

  /** The creation has not read b's policy and cannot go on without it, or it is
      being undone. */
  ghost predicate Unread(s: State, r: KeyCreation, b: Did) {
    || r.stage <= INSERTED
    || (r.stage == LISTING && StillThere(s, r, b) && b !in r.docs)
    || r.stage >= ROLLBACK
  }

  ghost predicate Behind(s: State, k: Did, b: Did) {
    && k !in s.created
    && (forall d :: d in s.grants ==> d.audience != k || d.subject != b)
    && forall j :: j in s.calls && s.calls[j].Creating? && s.calls[j].creation.k == k ==> Unread(s, s.calls[j].creation, b)
  }

  /** The delete will rotate p's key k. */
  ghost predicate Reached(w: Write, k: Did, p: PrincipalId) {
    if w.stage < LISTED then p in w.affected else k in w.listed
  }

  /** w is a delete that has computed whom it affects. */
  ghost predicate Rotating(w: Write) {
    w.rotates && w.doc.None? && w.stage >= AFFECTED
  }

  /** A key the old policy grants anything is reached or behind. */
  ghost predicate DeleteReaches(s: State, w: Write) {
    Rotating(w) ==>
      forall k :: k in s.keys && EffectiveSet(w.was, s.keys[k]) != {} ==> Reached(w, k, s.keys[k]) || Behind(s, k, w.bucket)
  }

  ghost predicate CallAhead(s: State, c: Call) {
    match c
    case Writing(w) => DeleteReaches(s, w)
    case Creating(r) => RowInserted(s, r)
    case _ => true
  }

  ghost predicate AheadParts(s: State) {
    GrantsInserted(s) && forall i :: i in s.calls ==> CallAhead(s, s.calls[i])
  }

  ghost predicate Ahead(s: State) {
    forall u :: u == s ==> AheadParts(u)
  }

  lemma AheadWhole(s: State)
    requires Ahead(s)
    ensures AheadParts(s)
  {}

  // -------------------------------------------------------------- grants and rows

  /** Whoever stores grants stores them for inserted keys. */
  lemma IssuedInserted(s: State, id: nat, e: Event, d: Delegation)
    requires Inv(s) && AheadParts(s) && Can(s, id, e) && d in Issuing(e)
    ensures d.audience in s.inserted
  {
    Whole(s);
    Issuers(s, id, e);
    assert CallInv(s, s.calls[id]) && CallAhead(s, s.calls[id]);
    match s.calls[id]
    case Writing(_) => WritingCommits(s, id, e);
    case Removing(_) => RemovalCommits(s, id, e);
    case _ => MayCreate(s, id, e);
  }

  lemma GrantsInsertedKept(s: State, id: nat, e: Event)
    requires Inv(s) && AheadParts(s) && Can(s, id, e) && s.inserted <= Do(s, id, e).inserted
    ensures GrantsInserted(Do(s, id, e))
  {
    DoAdds(s, id, e);
    forall d | d in Do(s, id, e).grants ensures d.audience in Do(s, id, e).inserted {
      if d in Issuing(e) { IssuedInserted(s, id, e, d); }
    }
  }

  lemma CreationRow(s: State, id: nat, r: KeyCreation, e: Event)
    requires CanKeyCreate(s, id, r, e) && RowInserted(s, r) && CreationNext(s, r, e).Some?
    ensures RowInserted(CreationTables(s, r, e), CreationNext(s, r, e).value)
  {}

  lemma CreationRowKept(s: State, id: nat, e: Event)
    requires Can(s, id, e) && id in s.calls && s.calls[id].Creating? && RowInserted(s, s.calls[id].creation)
    requires id in Do(s, id, e).calls
    ensures Do(s, id, e).calls[id].Creating? && RowInserted(Do(s, id, e), Do(s, id, e).calls[id].creation)
  {
    CreationGoesOn(s, id, e);
    OwnStep(s, id, e);
    CreationTablesAre(s, id, e);
    CreationRow(s, id, s.calls[id].creation, e);
  }

  lemma CreationOwnNext(s: State, r: KeyCreation, e: Event)
    ensures NextCall(s, Creating(r), e).Some? <==> CreationNext(s, r, e).Some?
    ensures CreationNext(s, r, e).Some? ==> NextCall(s, Creating(r), e) == Some(Creating(CreationNext(s, r, e).value))
  {}

  // ------------------------------------------------------------------- keys behind

  /** w is call j's, and a delete under way. */
  ghost predicate Deletes(s: State, j: nat, w: Write) {
    j in s.calls && s.calls[j] == Writing(w) && Rotating(w)
  }

  /** While a delete is under way no other call writes its bucket's policy, reads
      it, or rewrites grants over it. */
  lemma DeleteHolds(s: State, j: nat, w: Write)
    requires Inv(s) && Deletes(s, j, w)
    ensures w.was == Policy(s, w.bucket) && w.was.Some?
    ensures !Unloaded(s.calls[j], w.bucket)
    ensures forall i :: Others(s, j, i) ==>
              !Holds(s.calls[i], BucketLock(w.bucket), Update) && !Holds(s.calls[i], PolicyRow(w.bucket), Share)
    ensures forall i :: Others(s, j, i) ==> !Free(s, i, PolicyRow(w.bucket), Share)
  {
    Whole(s);
    assert CallInv(s, s.calls[j]);
    assert Holds(s.calls[j], BucketLock(w.bucket), Update);
    assert Holds(s.calls[j], PolicyRow(w.bucket), Update);
    OwnAlone(s, j, BucketLock(w.bucket), Update);
    OwnAlone(s, j, PolicyRow(w.bucket), Update);
    assert Blocks(s.calls[j], PolicyRow(w.bucket), Share);
  }

  lemma BehindUncreated(s: State, id: nat, e: Event, k: Did, b: Did)
    requires Can(s, id, e) && Behind(s, k, b)
    ensures k !in Do(s, id, e).created
  {
    if k in Do(s, id, e).created { NewlyCreated(s, id, e, k); }
  }

  /** Nothing is stored for a key behind over the delete's bucket. */
  lemma BehindUnissued(s: State, id: nat, e: Event, j: nat, w: Write, k: Did, d: Delegation)
    requires Inv(s) && Can(s, id, e) && Deletes(s, j, w) && j != id && Behind(s, k, w.bucket) && d in Issuing(e)
    ensures d.audience != k || d.subject != w.bucket
  {
    Whole(s);
    DeleteHolds(s, j, w);
    Issuers(s, id, e);
    assert CallInv(s, s.calls[id]);
    assert Others(s, j, id);
    match s.calls[id]
    case Writing(v) =>
      WritingCommits(s, id, e);
      assert Holds(s.calls[id], BucketLock(v.bucket), Update);
    case Removing(_) => RemovalCommits(s, id, e);
    case _ => MayCreate(s, id, e);
  }

  lemma BehindHoldsNothing(s: State, id: nat, e: Event, j: nat, w: Write, k: Did)
    requires Inv(s) && Can(s, id, e) && Deletes(s, j, w) && j != id && Behind(s, k, w.bucket)
    ensures forall d :: d in Do(s, id, e).grants ==> d.audience != k || d.subject != w.bucket
  {
    DoAdds(s, id, e);
    forall d | d in Do(s, id, e).grants ensures d.audience != k || d.subject != w.bucket {
      if d in Issuing(e) { BehindUnissued(s, id, e, j, w, k, d); }
    }
  }

  /** A creation that lists policies finds the delete's bucket, and then waits
      for its row. */
  lemma StaysUnread(s: State, id: nat, r: KeyCreation, e: Event, b: Did)
    requires CanKeyCreate(s, id, r, e) && Unread(s, r, b) && CreationNext(s, r, e).Some?
    requires !Free(s, id, PolicyRow(b), Share) && b in s.policies && Indexed(s.policies[b], r.p)
    ensures Unread(s, CreationNext(s, r, e).value, b)
  {}

  /** Unreadness is a matter of the policy's row. */
  lemma UnreadKept(s: State, n: State, r: KeyCreation, b: Did)
    requires Unread(s, r, b) && b in s.policies && b in n.policies && Born(n, b) == Born(s, b)
    ensures Unread(n, r, b)
  {}

  lemma KeyIsBound(s: State, k: Did)
    requires Inv(s) && k in s.keys
    ensures k in s.bound && s.bound[k] == s.keys[k]
  {
    Whole(s);
  }

  lemma OwnKeysPrincipal(s: State, id: nat, k: Did)
    requires Inv(s) && Owns(s, id, k) && k in s.keys
    ensures s.calls[id].creation.p == s.keys[k]
  {
    Whole(s);
    assert CallInv(s, s.calls[id]);
  }

  lemma CreationGoesOn(s: State, id: nat, e: Event)
    requires Can(s, id, e) && id in s.calls && s.calls[id].Creating? && id in Do(s, id, e).calls
    ensures CanKeyCreate(s, id, s.calls[id].creation, e) && CreationNext(s, s.calls[id].creation, e).Some?
    ensures Do(s, id, e).calls[id] == Creating(CreationNext(s, s.calls[id].creation, e).value)
  {
    OwnStep(s, id, e);
    MayCreate(s, id, e);
    CreationOwnNext(s, s.calls[id].creation, e);
  }

  lemma OwnUnread(s: State, id: nat, e: Event, j: nat, w: Write, k: Did)
    requires Inv(s) && Can(s, id, e) && Deletes(s, j, w) && j != id && Behind(s, k, w.bucket)
    requires k in s.keys && EffectiveSet(w.was, s.keys[k]) != {}
    requires id in Do(s, id, e).calls && Do(s, id, e).calls[id].Creating? && Do(s, id, e).calls[id].creation.k == k
    ensures Unread(s, Do(s, id, e).calls[id].creation, w.bucket)
  {
    KeyIsBound(s, k);
    NextCreation(s, id, e, k);
    var r := s.calls[id].creation;
    OwnKeysPrincipal(s, id, k);
    assert Unread(s, r, w.bucket);
    DeleteHolds(s, j, w);
    assert Others(s, j, id);
    EffectiveIsIndexed(w.was.value, r.p);
    CreationGoesOn(s, id, e);
    StaysUnread(s, id, r, e, w.bucket);
  }

  lemma BehindKept(s: State, id: nat, e: Event, j: nat, w: Write, k: Did)
    requires Inv(s) && Can(s, id, e) && Deletes(s, j, w) && j != id && Behind(s, k, w.bucket)
    requires k in s.keys && EffectiveSet(w.was, s.keys[k]) != {}
    requires Rely(s, Do(s, id, e), id)
    ensures Behind(Do(s, id, e), k, w.bucket)
  {
    var n, b := Do(s, id, e), w.bucket;
    OthersKept(s, id, e);
    DeleteHolds(s, j, w);
    assert Others(s, id, j);
    assert Policy(n, b) == Policy(s, b);
    BehindUncreated(s, id, e, k, b);
    BehindHoldsNothing(s, id, e, j, w, k);
    forall i | i in n.calls && n.calls[i].Creating? && n.calls[i].creation.k == k ensures Unread(n, n.calls[i].creation, b) {
      if i == id {
        OwnUnread(s, id, e, j, w, k);
      } else {
        assert Others(s, id, i);
      }
      UnreadKept(s, n, n.calls[i].creation, b);
    }
  }

  // ------------------------------------------------------------------ keys inserted

  lemma NewRow(s: State, id: nat, e: Event, k: Did)
    requires Can(s, id, e) && k in Do(s, id, e).keys && k !in s.keys
    ensures id in s.calls && s.calls[id].Creating? && s.calls[id].creation.k == k && e.InsertKey?
    ensures Do(s, id, e).keys == s.keys[k := s.calls[id].creation.p] && s.calls[id].creation.stage == INSERTING
    ensures Do(s, id, e).grants == s.grants && Do(s, id, e).created == s.created && Do(s, id, e).policies == s.policies
    ensures Do(s, id, e).buckets == s.buckets
    ensures id in Do(s, id, e).calls && Do(s, id, e).calls[id] == Creating(s.calls[id].creation.(stage := INSERTED))
  {
    if !Commits(e) { QuietTables(s, id, e); }
    if e.Begin? { BegunTables(s, id, e); }
    DoTables(s, id, e);
    InsertsRow(s, s.calls[id], e, k);
    MayCreate(s, id, e);
    InsertedNext(s, id);
  }

  lemma InsertsRow(s: State, c: Call, e: Event, k: Did)
    requires k in Tables(s, c, e).keys && k !in s.keys
    ensures c.Creating? && c.creation.k == k && e.InsertKey?
  {
    match c
    case Removing(r) => RemovalInsertsNothing(s, r, e);
    case Creating(r) => CreationInserts(s, r, e, k);
    case _ =>
  }

  lemma RemovalInsertsNothing(s: State, r: Removal, e: Event)
    ensures RemovalTables(s, r, e).keys.Keys <= s.keys.Keys
  {}

  lemma CreationInserts(s: State, r: KeyCreation, e: Event, k: Did)
    requires k in CreationTables(s, r, e).keys && k !in s.keys
    ensures r.k == k && e.InsertKey?
  {}

  lemma InsertedNext(s: State, id: nat)
    requires id in s.calls && s.calls[id].Creating?
    ensures var r, n := s.calls[id].creation, Do(s, id, InsertKey);
      && n.keys == s.keys[r.k := r.p] && n.grants == s.grants && n.created == s.created
      && n.policies == s.policies && n.buckets == s.buckets
      && id in n.calls && n.calls[id] == Creating(r.(stage := INSERTED))
  {}

  /** A key inserted now is behind every delete under way. */
  lemma InsertedBehind(s: State, id: nat, e: Event, k: Did, b: Did)
    requires Inv(s) && AheadParts(s) && Can(s, id, e) && k in Do(s, id, e).keys && k !in s.keys
    ensures Behind(Do(s, id, e), k, b)
  {
    Whole(s);
    NewRow(s, id, e, k);
    var n := Do(s, id, e);
    assert CallInv(s, s.calls[id]);
    OthersKept(s, id, e);
    forall i | i in n.calls && n.calls[i].Creating? && n.calls[i].creation.k == k ensures Unread(n, n.calls[i].creation, b) {
      if i != id { assert Others(s, id, i); }
    }
  }

  // ------------------------------------------------------------------------- steps

  /** Another call's step keeps what a delete is ahead of. */
  lemma ReachesKept(s: State, id: nat, e: Event, j: nat, w: Write)
    requires Inv(s) && AheadParts(s) && Can(s, id, e) && Rely(s, Do(s, id, e), id)
    requires Others(s, id, j) && s.calls[j] == Writing(w)
    ensures DeleteReaches(Do(s, id, e), w)
  {
    var n := Do(s, id, e);
    assert CallAhead(s, s.calls[j]);
    if Rotating(w) {
      forall k | k in n.keys && EffectiveSet(w.was, n.keys[k]) != {} ensures Reached(w, k, n.keys[k]) || Behind(n, k, w.bucket) {
        if k !in s.keys {
          InsertedBehind(s, id, e, k, w.bucket);
        } else if !Reached(w, k, s.keys[k]) {
          BehindKept(s, id, e, j, w, k);
        }
      }
    }
  }

  /** Computing whom it affects, a delete finds every principal its policy grants
      anything. */
  lemma AffectReaches(s: State, w: Write)
    requires NoDangling(s) && w.doc.None? && w.stage == LOADED
    ensures DeleteReaches(s, WriteDo(s, w, Affect))
  {
    forall k | k in s.keys ensures EffectiveSet(w.was, s.keys[k]) != {} ==> s.keys[k] in WriteDo(s, w, Affect).affected {
      ChangedIsExact(w.was, w.doc, s.live, s.keys[k]);
    }
  }

  /** Its later steps lose none: listing keys lists those of whom it found. */
  lemma WriteReaches(s: State, id: nat, w: Write, e: Event)
    requires WriteCan(s, id, w, e) && DeleteReaches(s, w) && !e.Affect?
    ensures DeleteReaches(s, WriteDo(s, w, e))
  {
    var v := WriteDo(s, w, e);
    if Rotating(v) {
      assert v.was == w.was && v.bucket == w.bucket && Rotating(w);
      forall k | k in s.keys && Reached(w, k, s.keys[k]) ensures Reached(v, k, s.keys[k]) {}
    }
  }

  /** A call that steps without committing leaves what a delete is ahead of. */
  lemma SameReaches(s: State, n: State, w: Write)
    requires DeleteReaches(s, w) && SameTables(s, n)
    requires forall j :: j in n.calls && n.calls[j].Creating? ==> j in s.calls && s.calls[j] == n.calls[j]
    ensures DeleteReaches(n, w)
  {
    forall k | Behind(s, k, w.bucket) ensures Behind(n, k, w.bucket) {
      forall j | j in n.calls && n.calls[j].Creating? && n.calls[j].creation.k == k ensures Unread(n, n.calls[j].creation, w.bucket) {
        assert Unread(s, s.calls[j].creation, w.bucket);
      }
    }
  }

  lemma OwnWriteAhead(s: State, id: nat, e: Event)
    requires Inv(s) && AheadParts(s) && Can(s, id, e) && id in s.calls && s.calls[id].Writing? && id in Do(s, id, e).calls
    ensures Do(s, id, e).calls[id].Writing? && DeleteReaches(Do(s, id, e), Do(s, id, e).calls[id].write)
  {
    var w, n := s.calls[id].write, Do(s, id, e);
    WriteGoesOn(s, id, e);
    assert CallAhead(s, s.calls[id]);
    Whole(s);
    if e.Affect? && w.doc.None? { AffectReaches(s, w); } else if !e.Affect? { WriteReaches(s, id, w, e); }
    OthersKept(s, id, e);
    forall j | j in n.calls && n.calls[j].Creating? ensures j in s.calls && s.calls[j] == n.calls[j] { assert Others(s, id, j); }
    SameReaches(s, n, n.calls[id].write);
  }

  lemma WriteGoesOn(s: State, id: nat, e: Event)
    requires Can(s, id, e) && id in s.calls && s.calls[id].Writing? && id in Do(s, id, e).calls
    ensures WriteCan(s, id, s.calls[id].write, e) && Do(s, id, e).calls[id] == Writing(WriteDo(s, s.calls[id].write, e))
    ensures SameTables(s, Do(s, id, e))
  {
    OwnStep(s, id, e);
    MayWrite(s, id, e);
    OwnWriteNext(s, s.calls[id].write, e);
    WriteCommitsNothing(s, id, s.calls[id].write, e);
    QuietTables(s, id, e);
  }

  lemma OwnWriteNext(s: State, w: Write, e: Event)
    requires NextCall(s, Writing(w), e).Some?
    ensures !e.CommitWrite? && NextCall(s, Writing(w), e).value == Writing(WriteDo(s, w, e))
  {}

  /** Only a write becomes a write, only a creation a creation. */
  lemma SameKind(s: State, c: Call, e: Event)
    requires NextCall(s, c, e).Some?
    ensures NextCall(s, c, e).value.Writing? == c.Writing? && NextCall(s, c, e).value.Creating? == c.Creating?
  {}

  lemma BegunAhead(s: State, c: Call, n: State)
    requires CanBegin(s, c)
    ensures CallAhead(n, c)
  {}

  lemma OwnAhead(s: State, id: nat, e: Event)
    requires Inv(s) && AheadParts(s) && Can(s, id, e) && id in Do(s, id, e).calls
    ensures CallAhead(Do(s, id, e), Do(s, id, e).calls[id])
  {
    if e.Begin? {
      BegunTables(s, id, e);
      BegunAhead(s, e.call, Do(s, id, e));
    } else {
      OwnStep(s, id, e);
      SameKind(s, s.calls[id], e);
      assert CallAhead(s, s.calls[id]);
      if s.calls[id].Writing? {
        OwnWriteAhead(s, id, e);
      } else if s.calls[id].Creating? {
        CreationRowKept(s, id, e);
      }
    }
  }

  lemma OtherAhead(s: State, id: nat, e: Event, j: nat)
    requires Inv(s) && AheadParts(s) && Can(s, id, e) && Rely(s, Do(s, id, e), id) && Others(s, id, j)
    ensures CallAhead(Do(s, id, e), s.calls[j])
  {
    assert CallAhead(s, s.calls[j]);
    if s.calls[j].Writing? { ReachesKept(s, id, e, j, s.calls[j].write); }
  }

  lemma StepAhead(s: State, id: nat, e: Event)
    requires Inv(s) && Ahead(s) && Can(s, id, e)
    ensures Ahead(Do(s, id, e))
  {
    AheadWhole(s);
    var n := Do(s, id, e);
    StepRely(s, id, e);
    OthersKept(s, id, e);
    GrantsInsertedKept(s, id, e);
    forall j | j in n.calls ensures CallAhead(n, n.calls[j]) {
      if j == id {
        OwnAhead(s, id, e);
      } else {
        assert Others(s, id, j);
        OtherAhead(s, id, e, j);
      }
    }
  }

  lemma InitialAhead()
    ensures Ahead(INITIAL)
  {}

  lemma {:induction false} RunAhead(states: seq<State>, i: nat)
    requires Run(states) && i < |states|
    ensures Inv(states[i]) && Ahead(states[i])
  {
    RunInv(states, i);
    if i == 0 {
      InitialAhead();
    } else {
      RunAhead(states, i - 1);
      assert Next(states[i - 1], states[i]);
      var id, e :| Can(states[i - 1], id, e) && states[i] == Do(states[i - 1], id, e);
      StepAhead(states[i - 1], id, e);
    }
  }

  lemma ReachableAhead(s: State)
    requires Reachable(s)
    ensures Inv(s) && Ahead(s)
  {
    var states :| Run(states) && states[|states| - 1] == s;
    RunAhead(states, |states| - 1);
  }

  // ------------------------------------------------------------- a delete's commit

  /** At a delete's commit, a key that the old policy granted anything is among
      those re-read, or holds nothing and is not created. */
  lemma DeleteCommits(s: State, id: nat, w: Write, issued: set<Delegation>, k: Did)
    requires Inv(s) && Ahead(s) && id in s.calls && s.calls[id] == Writing(w) && CanCommit(s, w, issued) && w.doc.None?
    requires k in s.keys && EffectiveSet(w.was, s.keys[k]) != {}
    ensures (k in w.remaining && s.keys[k] in w.affected) || Behind(s, k, w.bucket)
  {
    Whole(s);
    AheadWhole(s);
    assert CallInv(s, s.calls[id]) && CallAhead(s, s.calls[id]);
    assert Rotating(w);
  }
}
