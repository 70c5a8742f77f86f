/** Conservation of grants over every interleaving: what a created key ever held
    is stored, published as revoked, or had expired when it was announced, exactly
    unless it was lost: stored by a creation over a bucket whose deletion had
    announced, and dropped by that deletion. */
module ProtocolConservation {
  import opened Common
  import opened BucketPolicy
  import opened Permissions
  import opened Delegations
  import opened Protocol
  import opened ProtocolInvariant
  import opened ProtocolLocks
  import opened ProtocolQuiet
  import opened ProtocolCommits
  import opened ProtocolSafety
  import opened ProtocolTables
  import opened ProtocolHistory

  // ------------------------------------------------------------------ the invariant

  /** The key was never created and never will be: its row is gone, or its
      creation is over or rolling back. */
  ghost predicate Abandoned(s: State, k: Did) {
    && k !in s.created && k in s.bound
    && ((k in s.inserted && k !in s.keys)
        || forall j :: j in s.calls && s.calls[j].Creating? && s.calls[j].creation.k == k ==> s.calls[j].creation.stage >= ROLLBACK)
  }

  ghost predicate Conserved(h: History) {
    forall d :: d in h.ever ==> d in h.s.grants || Accounted(h, d) || d in h.lost || Abandoned(h.s, d.audience)
  }

  /** A created key whose row is gone holds nothing. */
  ghost predicate NoLeftovers(s: State) {
    forall d :: d in s.grants && d.audience in s.created ==> d.audience in s.keys
  }

  /** What was lost is gone for good: not stored, not published, not expired when
      announced. */
  ghost predicate LostForGood(h: History) {
    && LinksDistinct(h.ever) && Links(h.ever) <= h.s.minted
    && forall d :: d in h.lost ==> d in h.ever && d !in h.s.grants && !Accounted(h, d)
  }

  /** What a call that has announced may drop is accounted for, or was stored
      beside it. */
  ghost predicate CallAccounts(h: History, j: nat, c: Call) {
    match c
    case Writing(w) =>
      && (w.stage >= READ ==> forall k :: k in w.remaining ==> k in h.s.keys || k !in h.s.created)
      && (w.stage >= PUBLISHED ==> forall d :: d in Replaced(h.s, w) ==> Accounted(h, d))
    case Removing(r) =>
      r.stage == REVOKED || r.stage == REMOVED ==>
        r.listed <= r.auds && forall d :: d in h.s.grants && d.audience in r.listed ==> Accounted(h, d)
    case Deleting(r) => r.stage >= ANNOUNCED ==> forall d :: d in h.s.grants && d.audience == r.k ==> Accounted(h, d)
    case DroppingBucket(r) =>
      && (ANNOUNCED <= r.stage < DOOMED ==>
           forall d :: d in h.s.grants && d.subject == r.b ==> Accounted(h, d) || d in LateOf(h, j))
      && (r.stage >= DOOMED ==> forall d :: d in r.doomed ==> Accounted(h, d) || d in LateOf(h, j))
    case _ => true
  }

  ghost predicate BalancedParts(h: History) {
    && (forall d :: d in h.s.grants ==> d in h.ever)
    && (forall d :: d in h.ever ==> d.audience in h.s.bound)
    && NoLeftovers(h.s)
    && Conserved(h) && LostForGood(h)
    && forall i :: i in h.s.calls ==> CallAccounts(h, i, h.s.calls[i])
  }

  ghost predicate Balanced(h: History) {
    forall g :: g == h ==> BalancedParts(g)
  }

  lemma BalancedWhole(h: History)
    requires Balanced(h)
    ensures BalancedParts(h)
  {}

  // ------------------------------------------------------- what a step does to grants

  /** New grants go only to audiences no other call has locked, and are late for
      every other call that is deleting their bucket. */
  ghost predicate AddsRely(h: History, n: History, id: nat) {
    forall d :: d in n.s.grants && d !in h.s.grants ==>
      && (forall j :: Others(h.s, id, j) ==> !Holds(h.s.calls[j], AudienceLock(d.audience), Update))
      && (forall j :: Others(h.s, id, j) && Announced(h.s.calls[j], d.subject) ==> d in LateOf(n, j))
  }

  /** Key rows go only under their audience's lock, or by their own creation. */
  ghost predicate RowsRely(h: History, n: History, id: nat) {
    && (forall k :: k in h.s.keys && k !in n.s.keys ==>
         Owns(h.s, id, k) || forall j :: Others(h.s, id, j) ==> !Holds(h.s.calls[j], AudienceLock(k), Update))
    && (forall k :: k in n.s.created && k !in h.s.created ==> k in h.s.keys && k in n.s.keys)
    && (forall k :: Owns(h.s, id, k) ==> k !in h.s.created)
  }

  ghost predicate AccountsGrow(h: History, n: History) {
    h.s.revoked <= n.s.revoked && h.lapsed <= n.lapsed && h.lost <= n.lost && h.s.created <= n.s.created
  }

  ghost predicate LateGrows(h: History, n: History, id: nat) {
    forall j :: Others(h.s, id, j) && h.s.calls[j].DroppingBucket? ==> LateOf(h, j) <= LateOf(n, j)
  }

  lemma AccountsStable(h: History, n: History, id: nat, j: nat)
    requires Others(h.s, id, j) && CallInv(h.s, h.s.calls[j]) && CallAccounts(h, j, h.s.calls[j])
    requires AddsRely(h, n, id) && RowsRely(h, n, id) && AccountsGrow(h, n) && LateGrows(h, n, id)
    ensures CallAccounts(n, j, h.s.calls[j])
  {
    match h.s.calls[j]
    case Writing(w) =>
      forall k | w.stage >= READ && k in w.remaining ensures k in n.s.keys || k !in n.s.created {
        assert Holds(h.s.calls[j], AudienceLock(k), Update);
      }
      forall d | w.stage >= PUBLISHED && d in Replaced(n.s, w) ensures Accounted(n, d) {
        assert Holds(h.s.calls[j], AudienceLock(d.audience), Update);
        assert d in h.s.grants && d in Replaced(h.s, w);
      }
    case Removing(r) =>
      forall d | (r.stage == REVOKED || r.stage == REMOVED) && d in n.s.grants && d.audience in r.listed ensures Accounted(n, d) {
        assert Holds(h.s.calls[j], AudienceLock(d.audience), Update);
        assert d in h.s.grants;
      }
    case Deleting(r) =>
      forall d | r.stage >= ANNOUNCED && d in n.s.grants && d.audience == r.k ensures Accounted(n, d) {
        assert Holds(h.s.calls[j], AudienceLock(d.audience), Update);
        assert d in h.s.grants;
      }
    case DroppingBucket(r) =>
      forall d | ANNOUNCED <= r.stage < DOOMED && d in n.s.grants && d.subject == r.b ensures Accounted(n, d) || d in LateOf(n, j) {
        assert Announced(h.s.calls[j], d.subject);
      }
    case _ =>
  }

  // --------------------------------------------------------------- what grows

  lemma AccountsKept(h: History, id: nat, e: Event)
    requires Can(h.s, id, e)
    ensures AccountsGrow(h, After(h, id, e)) && LateGrows(h, After(h, id, e), id)
  {
    DoGrows(h.s, id, e);
    OthersKept(h.s, id, e);
  }

  // ---------------------------------------------------------------- abandoned keys

  lemma StaysUncreated(s: State, id: nat, e: Event, k: Did)
    requires Can(s, id, e) && Abandoned(s, k)
    ensures k !in Do(s, id, e).created
  {
    if k in Do(s, id, e).created { NewlyCreated(s, id, e, k); }
  }

  lemma AbandonedKept(s: State, id: nat, e: Event, k: Did)
    requires Inv(s) && Can(s, id, e) && Abandoned(s, k) && Rely(s, Do(s, id, e), id)
    ensures Abandoned(Do(s, id, e), k)
  {
    Whole(s);
    var n := Do(s, id, e);
    OthersKept(s, id, e);
    StaysUncreated(s, id, e, k);
    forall j | j in n.calls && n.calls[j].Creating? && n.calls[j].creation.k == k && !(k in s.inserted && k !in s.keys)
      ensures n.calls[j].creation.stage >= ROLLBACK
    {
      if j == id { NextCreation(s, id, e, k); } else { assert Others(s, id, j); }
    }
  }

  // ------------------------------------------------------------------ quiet steps

  /** What a step owes the account: what it drops is accounted for, what it adds
      or deletes is its own to, and its call's own part holds. */
  ghost predicate TalliedParts(h: History, n: History, id: nat) {
    && AddsRely(h, n, id) && RowsRely(h, n, id)
    && (forall d :: d in h.s.grants && d !in n.s.grants ==> Accounted(n, d) || d in n.lost || Abandoned(n.s, d.audience))
    && (forall d :: d in n.s.grants && d !in h.s.grants ==> d.audience in n.s.bound)
    && NoLeftovers(n.s)
    && (forall c :: id in n.s.calls && c == n.s.calls[id] ==> CallAccounts(n, id, c))
  }

  ghost predicate Tallied(h: History, n: History, id: nat) {
    forall m :: m == n ==> TalliedParts(h, m, id)
  }

  lemma TalliedWhole(h: History, n: History, id: nat)
    requires Tallied(h, n, id)
    ensures TalliedParts(h, n, id)
  {}

  /** An announcement accounts for all it covers. */
  lemma AnnouncedAccounts(h: History, id: nat, e: Event, d: Delegation)
    requires e.Announce? && id in h.s.calls && d in Covers(h.s, h.s.calls[id])
    requires Links(Unexpired(Covers(h.s, h.s.calls[id]), e.now)) <= After(h, id, e).s.revoked
    ensures Accounted(After(h, id, e), d)
  {
    if !Expired(d, e.now) { assert d in Unexpired(Covers(h.s, h.s.calls[id]), e.now); }
  }

  lemma WriteAnnounces(h: History, id: nat, e: Event)
    requires id in h.s.calls && h.s.calls[id].Writing? && e.Announce? && h.s.calls[id].write.stage == READ
    requires CallAccounts(h, id, h.s.calls[id])
    ensures CallAccounts(After(h, id, e), id, Writing(WriteDo(h.s, h.s.calls[id].write, e)))
  {
    var w, n := h.s.calls[id].write, After(h, id, e);
    DoTables(h.s, id, e);
    forall d | d in Replaced(n.s, w) ensures Accounted(n, d) { AnnouncedAccounts(h, id, e, d); }
  }

  /** Short of announcing, a write's step changes what it accounts for only by
      reading which keys remain. */
  lemma WriteStepAccounts(h: History, n: History, id: nat, w: Write, e: Event)
    requires WriteCan(h.s, id, w, e) && !e.Announce? && CallAccounts(h, id, Writing(w))
    requires SameTables(h.s, n.s) && AccountsGrow(h, n)
    ensures CallAccounts(n, id, Writing(WriteDo(h.s, w, e)))
  {}

  lemma WriteAccounts(h: History, id: nat, e: Event)
    requires Balanced(h) && Can(h.s, id, e) && !Commits(e) && !e.Fail? && id in h.s.calls && h.s.calls[id].Writing?
    ensures CallAccounts(After(h, id, e), id, Writing(WriteDo(h.s, h.s.calls[id].write, e)))
  {
    BalancedWhole(h);
    assert CallAccounts(h, id, h.s.calls[id]);
    MayWrite(h.s, id, e);
    if e.Announce? {
      WriteAnnounces(h, id, e);
    } else {
      QuietTables(h.s, id, e);
      AccountsKept(h, id, e);
      WriteStepAccounts(h, After(h, id, e), id, h.s.calls[id].write, e);
    }
  }

  lemma RemovalAnnounces(h: History, id: nat, e: Event)
    requires id in h.s.calls && h.s.calls[id].Removing? && e.Announce?
    requires h.s.calls[id].removal.listed <= h.s.calls[id].removal.auds
    ensures RemovalNext(h.s, h.s.calls[id].removal, e).Some?
    ensures CallAccounts(After(h, id, e), id, Removing(RemovalNext(h.s, h.s.calls[id].removal, e).value))
  {
    var r, n := h.s.calls[id].removal, After(h, id, e);
    DoTables(h.s, id, e);
    forall d | d in n.s.grants && d.audience in r.listed ensures Accounted(n, d) { AnnouncedAccounts(h, id, e, d); }
  }

  /** Only an announcement takes a removal to the stages that drop grants. */
  lemma RemovalStages(s: State, id: nat, r: Removal, e: Event)
    requires CanRemoval(s, id, r, e) && !Commits(e) && !e.Announce? && RemovalNext(s, r, e).Some?
    ensures RemovalNext(s, r, e).value.stage != REVOKED && RemovalNext(s, r, e).value.stage != REMOVED
  {}

  lemma RemovalAccounts(h: History, id: nat, e: Event)
    requires Can(h.s, id, e) && !Commits(e) && !e.Fail? && id in h.s.calls && h.s.calls[id].Removing?
    requires RemovalNext(h.s, h.s.calls[id].removal, e).Some?
    ensures CallAccounts(After(h, id, e), id, Removing(RemovalNext(h.s, h.s.calls[id].removal, e).value))
  {
    MayRemove(h.s, id, e);
    if e.Announce? { RemovalAnnounces(h, id, e); } else { RemovalStages(h.s, id, h.s.calls[id].removal, e); }
  }

  lemma DeletionAccounts(h: History, id: nat, e: Event)
    requires Inv(h.s) && Balanced(h) && Can(h.s, id, e) && !Commits(e) && !e.Fail? && id in h.s.calls && h.s.calls[id].Deleting?
    requires DeletionNext(h.s.calls[id].deletion, e).Some?
    ensures CallAccounts(After(h, id, e), id, Deleting(DeletionNext(h.s.calls[id].deletion, e).value))
  {
    Whole(h.s);
    BalancedWhole(h);
    var r, n := h.s.calls[id].deletion, After(h, id, e);
    MayStep(h.s, id, e);
    QuietTables(h.s, id, e);
    if e.Announce? {
      DoTables(h.s, id, e);
      forall d | d in n.s.grants && d.audience == r.k ensures Accounted(n, d) { AnnouncedAccounts(h, id, e, d); }
    }
  }

  lemma DropAnnounces(h: History, id: nat, e: Event)
    requires id in h.s.calls && h.s.calls[id].DroppingBucket? && e.Announce?
    ensures CallAccounts(After(h, id, e), id, DroppingBucket(h.s.calls[id].drop.(stage := ANNOUNCED)))
  {
    var r, n := h.s.calls[id].drop, After(h, id, e);
    DoTables(h.s, id, e);
    forall d | d in n.s.grants && d.subject == r.b ensures Accounted(n, d) { AnnouncedAccounts(h, id, e, d); }
  }

  lemma DropStepAccounts(h: History, n: History, id: nat, r: BucketDeletion, e: Event)
    requires CanBucketDelete(h.s, id, r, e) && !e.Announce? && DropNext(h.s, r, e).Some?
    requires CallAccounts(h, id, DroppingBucket(r)) && SameTables(h.s, n.s) && AccountsGrow(h, n)
    requires LateOf(h, id) <= LateOf(n, id)
    ensures CallAccounts(n, id, DroppingBucket(DropNext(h.s, r, e).value))
  {}

  /** Only announcing forgets what was late. */
  lemma OwnLate(h: History, id: nat, e: Event)
    requires id in h.s.calls && id in Do(h.s, id, e).calls && Do(h.s, id, e).calls[id].DroppingBucket? && !e.Announce? && !e.Begin?
    ensures LateOf(h, id) <= LateOf(After(h, id, e), id)
  {}

  lemma DropAccounts(h: History, id: nat, e: Event)
    requires Balanced(h) && Can(h.s, id, e) && !Commits(e) && !e.Fail? && id in h.s.calls && h.s.calls[id].DroppingBucket?
    requires DropNext(h.s, h.s.calls[id].drop, e).Some? && id in Do(h.s, id, e).calls
    requires Do(h.s, id, e).calls[id] == DroppingBucket(DropNext(h.s, h.s.calls[id].drop, e).value)
    ensures CallAccounts(After(h, id, e), id, Do(h.s, id, e).calls[id])
  {
    BalancedWhole(h);
    assert CallAccounts(h, id, h.s.calls[id]);
    MayDrop(h.s, id, e);
    if e.Announce? {
      DropAnnounces(h, id, e);
    } else {
      QuietTables(h.s, id, e);
      AccountsKept(h, id, e);
      OwnLate(h, id, e);
      DropStepAccounts(h, After(h, id, e), id, h.s.calls[id].drop, e);
    }
  }

  lemma OwnAccounts(h: History, id: nat, e: Event)
    requires Inv(h.s) && Balanced(h) && Can(h.s, id, e) && !Commits(e)
    requires id in Do(h.s, id, e).calls
    ensures CallAccounts(After(h, id, e), id, Do(h.s, id, e).calls[id])
  {
    if !e.Begin? {
      OwnStep(h.s, id, e);
      match h.s.calls[id]
      case Writing(_) => WriteAccounts(h, id, e);
      case Removing(_) => RemovalAccounts(h, id, e);
      case Deleting(_) => DeletionAccounts(h, id, e);
      case DroppingBucket(_) => DropAccounts(h, id, e);
      case _ =>
    }
  }

  lemma QuietTally(h: History, n: History, id: nat)
    requires NoLeftovers(h.s) && SameTables(h.s, n.s) && forall k :: Owns(h.s, id, k) ==> k !in h.s.created
    requires forall c :: id in n.s.calls && c == n.s.calls[id] ==> CallAccounts(n, id, c)
    ensures Tallied(h, n, id)
  {}

  lemma QuietTallied(h: History, id: nat, e: Event)
    requires Inv(h.s) && Balanced(h) && Can(h.s, id, e) && !Commits(e)
    ensures Tallied(h, After(h, id, e), id)
  {
    BalancedWhole(h);
    QuietTables(h.s, id, e);
    forall k | Owns(h.s, id, k) ensures k !in h.s.created { OwnKeyUncreated(h.s, id, k); }
    if id in Do(h.s, id, e).calls { OwnAccounts(h, id, e); }
    QuietTally(h, After(h, id, e), id);
  }

  // ---------------------------------------------------------------------- commits

  /** No key's row and no creation changes. */
  ghost predicate SameKeys(h: History, n: History) {
    n.s.keys == h.s.keys && n.s.created == h.s.created && n.s.inserted == h.s.inserted && n.s.bound == h.s.bound
  }

  /** What the commit leaves of a key that is gone from the table. */
  lemma LeftoverAbandoned(h: History, n: History, w: Write, d: Delegation)
    requires NoLeftovers(h.s) && WriteInv(h.s, w) && SameKeys(h, n) && w.stage >= READ
    requires d in h.s.grants && d.audience in w.listed && d.audience !in w.remaining
    ensures Abandoned(n.s, d.audience)
  {}

  /** A policy commit drops what it announced, or what keys gone from the table
      left behind. */
  lemma WriteDrops(h: History, n: History, id: nat, w: Write, issued: set<Delegation>, d: Delegation)
    requires NoLeftovers(h.s) && OwnWrite(h.s, id, w) && CanCommit(h.s, w, issued)
    requires w.rotates ==> CallAccounts(h, id, Writing(w))
    requires SameTables(Committed(h.s, w, issued), n.s) && AccountsGrow(h, n)
    requires d in h.s.grants && d !in n.s.grants
    ensures Accounted(n, d) || Abandoned(n.s, d.audience)
  {
    assert d.subject == w.bucket && d.audience in w.auds;
    if d.audience in w.remaining {
      assert d in Replaced(h.s, w);
    } else {
      LeftoverAbandoned(h, n, w, d);
    }
  }

  /** What a policy commit issues goes to keys it has locked, over a bucket it has
      locked. */
  lemma WriteAdds(h: History, n: History, id: nat, w: Write, issued: set<Delegation>)
    requires Exclusive(h.s) && OwnWrite(h.s, id, w) && CanCommit(h.s, w, issued)
    requires SameTables(Committed(h.s, w, issued), n.s)
    ensures AddsRely(h, n, id)
  {
    assert WriteHolds(w, BucketLock(w.bucket), Update);
    OwnAlone(h.s, id, BucketLock(w.bucket), Update);
    forall d, j | d in issued && Others(h.s, id, j)
      ensures !Holds(h.s.calls[j], AudienceLock(d.audience), Update) && !Announced(h.s.calls[j], d.subject)
    {
      assert WriteHolds(w, AudienceLock(d.audience), Update);
      OwnAlone(h.s, id, AudienceLock(d.audience), Update);
      assert !HoldsSome(h.s.calls[j], BucketLock(w.bucket));
    }
  }

  lemma WriteTallied(h: History, n: History, id: nat, w: Write, issued: set<Delegation>)
    requires Inv(h.s) && Balanced(h) && OwnWrite(h.s, id, w) && CanCommit(h.s, w, issued)
    requires w.rotates ==> CallAccounts(h, id, Writing(w))
    requires SameTables(Committed(h.s, w, issued), n.s) && AccountsGrow(h, n)
    requires forall c :: id in n.s.calls && c == n.s.calls[id] ==> CallAccounts(n, id, c)
    ensures Tallied(h, n, id)
  {
    Whole(h.s);
    BalancedWhole(h);
    WriteAdds(h, n, id, w, issued);
    forall d | d in h.s.grants && d !in n.s.grants ensures Accounted(n, d) || Abandoned(n.s, d.audience) {
      WriteDrops(h, n, id, w, issued, d);
    }
    WriteLeftovers(h, n, id, w, issued);
  }

  lemma WriteLeftovers(h: History, n: History, id: nat, w: Write, issued: set<Delegation>)
    requires NoLeftovers(h.s) && WriteInv(h.s, w) && CanCommit(h.s, w, issued) && (w.rotates ==> CallAccounts(h, id, Writing(w)))
    requires SameTables(Committed(h.s, w, issued), n.s)
    ensures NoLeftovers(n.s)
    ensures forall d :: d in n.s.grants && d !in h.s.grants ==> d.audience in n.s.bound
  {}

  lemma WritingTallied(h: History, id: nat, e: Event)
    requires Inv(h.s) && Balanced(h) && Can(h.s, id, e) && Commits(e) && id in h.s.calls && h.s.calls[id].Writing?
    ensures Tallied(h, After(h, id, e), id)
  {
    Whole(h.s);
    BalancedWhole(h);
    var w, n := h.s.calls[id].write, After(h, id, e);
    assert CallInv(h.s, h.s.calls[id]) && CallAccounts(h, id, h.s.calls[id]);
    WritingCommits(h.s, id, e);
    AccountsKept(h, id, e);
    StepIs(h.s, id, e);
    WriteTallied(h, n, id, w, e.issued);
  }

  // A removal's commits.

  lemma StrippingTallied(h: History, n: History, id: nat, e: Event)
    requires Inv(h.s) && Balanced(h) && Can(h.s, id, e) && e.CommitWrite? && id in h.s.calls && h.s.calls[id].Removing?
    requires n.s == Do(h.s, id, e) && AccountsGrow(h, n)
    ensures Tallied(h, n, id)
  {
    var r := h.s.calls[id].removal;
    StripTablesAre(h.s, id, e);
    StripOwn(h.s, id, r);
    assert CallAccounts(n, id, Removing(r.(strip := None)));
    WriteTallied(h, n, id, r.strip.value, e.issued);
  }

  lemma StripOwn(s: State, id: nat, r: Removal)
    requires Inv(s) && id in s.calls && s.calls[id] == Removing(r) && r.strip.Some?
    ensures OwnWrite(s, id, r.strip.value) && !r.strip.value.rotates
  {
    Whole(s);
    assert CallInv(s, s.calls[id]);
  }

  /** A removal drops only what it announced. */
  lemma RemovalDrops(h: History, n: History, id: nat, r: Removal)
    requires Balanced(h) && id in h.s.calls && h.s.calls[id] == Removing(r) && (r.stage == REVOKED || r.stage == REMOVED)
    requires AccountsGrow(h, n)
    ensures NoLeftovers(h.s) && r.listed <= r.auds
    ensures forall d :: d in h.s.grants && d.audience in r.listed ==> Accounted(n, d)
  {
    BalancedWhole(h);
    assert CallAccounts(h, id, h.s.calls[id]);
  }

  lemma ClearTally(h: History, n: History, id: nat, r: Removal)
    requires NoLeftovers(h.s) && id in h.s.calls && h.s.calls[id] == Removing(r) && SameKeys(h, n)
    requires n.s.grants == set d | d in h.s.grants && d.audience !in r.listed
    requires forall d :: d in h.s.grants && d.audience in r.listed ==> Accounted(n, d)
    requires id in n.s.calls ==> CallAccounts(n, id, n.s.calls[id])
    ensures Tallied(h, n, id)
  {}

  lemma ClearTallied(h: History, n: History, id: nat, e: Event)
    requires Balanced(h) && Can(h.s, id, e) && e.ClearGrants? && id in h.s.calls && h.s.calls[id].Removing?
    requires n.s == Do(h.s, id, e) && AccountsGrow(h, n)
    ensures Tallied(h, n, id)
  {
    ClearTablesAre(h.s, id, e);
    RemovalDrops(h, n, id, h.s.calls[id].removal);
    ClearTally(h, n, id, h.s.calls[id].removal);
  }

  lemma GoneTallied(h: History, n: History, id: nat, e: Event)
    requires NoLeftovers(h.s) && Can(h.s, id, e) && e.PrincipalGone? && id in h.s.calls && h.s.calls[id].Removing?
    requires n.s == Do(h.s, id, e)
    ensures Tallied(h, n, id)
  {
    GoneUntouched(h.s, id, e);
    UntouchedTally(h, n, id);
  }

  lemma RemovedTally(h: History, n: History, id: nat, r: Removal)
    requires NoLeftovers(h.s) && id in h.s.calls && h.s.calls[id] == Removing(r) && id !in n.s.calls
    requires n.s.grants == set d | d in h.s.grants && d.audience !in r.listed
    requires n.s.keys == (map k | k in h.s.keys && k !in r.listed :: h.s.keys[k]) && n.s.created == h.s.created
    requires forall d :: d in h.s.grants && d.audience in r.listed ==> Accounted(n, d)
    requires forall k, j :: k in r.listed && Others(h.s, id, j) ==> !Holds(h.s.calls[j], AudienceLock(k), Update)
    ensures Tallied(h, n, id)
  {}

  lemma RemovalAlone(s: State, id: nat, r: Removal)
    requires Inv(s) && id in s.calls && s.calls[id] == Removing(r) && r.listed <= r.auds
    ensures forall k, j :: k in r.listed && Others(s, id, j) ==> !Holds(s.calls[j], AudienceLock(k), Update)
  {
    Whole(s);
    forall k, j | k in r.listed && Others(s, id, j) ensures !Holds(s.calls[j], AudienceLock(k), Update) {
      assert Holds(s.calls[id], AudienceLock(k), Update);
      OwnAlone(s, id, AudienceLock(k), Update);
    }
  }

  lemma RemovedTallied(h: History, n: History, id: nat, e: Event)
    requires Inv(h.s) && Balanced(h) && Can(h.s, id, e) && e.CommitRemoval? && id in h.s.calls && h.s.calls[id].Removing?
    requires n.s == Do(h.s, id, e) && AccountsGrow(h, n)
    ensures Tallied(h, n, id)
  {
    RemovedTablesAre(h.s, id, e);
    RemovalDrops(h, n, id, h.s.calls[id].removal);
    RemovalAlone(h.s, id, h.s.calls[id].removal);
    RemovedTally(h, n, id, h.s.calls[id].removal);
  }

  lemma RemovalTallied(h: History, n: History, id: nat, e: Event)
    requires Inv(h.s) && Balanced(h) && Can(h.s, id, e) && Commits(e) && id in h.s.calls && h.s.calls[id].Removing?
    requires n.s == Do(h.s, id, e) && AccountsGrow(h, n) && NoLeftovers(h.s)
    ensures Tallied(h, n, id)
  {
    RemovalCommitKinds(h.s, id, e);
    if e.CommitWrite? {
      StrippingTallied(h, n, id, e);
    } else if e.ClearGrants? {
      ClearTallied(h, n, id, e);
    } else if e.PrincipalGone? {
      GoneTallied(h, n, id, e);
    } else {
      RemovedTallied(h, n, id, e);
    }
  }

  // A creation's commits.

  lemma StoreAdds(h: History, id: nat, e: Event)
    requires Exclusive(h.s) && Can(h.s, id, e) && e.StoreGrants? && id in h.s.calls && h.s.calls[id].Creating?
    ensures AddsRely(h, After(h, id, e), id)
  {
    var r, n := h.s.calls[id].creation, After(h, id, e);
    MayCreate(h.s, id, e);
    DoAdds(h.s, id, e);
    OthersKept(h.s, id, e);
    assert Holds(h.s.calls[id], AudienceLock(r.k), Update);
    OwnAlone(h.s, id, AudienceLock(r.k), Update);
    forall d, j | d in n.s.grants && d !in h.s.grants && Others(h.s, id, j) && Announced(h.s.calls[j], d.subject)
      ensures d in LateOf(n, j)
    {
      assert d in StoredBeside(h.s.calls[j], e);
    }
  }

  /** A creation's call accounts for nothing itself. */
  lemma StoreTally(h: History, n: History, id: nat, r: KeyCreation, issued: set<Delegation>)
    requires NoLeftovers(h.s) && id in h.s.calls && h.s.calls[id] == Creating(r) && r.k !in h.s.created && r.k in h.s.bound
    requires AddsRely(h, n, id) && SameKeys(h, n) && n.s.grants == h.s.grants + issued
    requires forall d :: d in issued ==> d.audience == r.k
    requires id in n.s.calls ==> n.s.calls[id].Creating?
    ensures Tallied(h, n, id)
  {}

  lemma StoreTallied(h: History, id: nat, e: Event)
    requires Inv(h.s) && NoLeftovers(h.s) && Can(h.s, id, e) && e.StoreGrants? && id in h.s.calls && h.s.calls[id].Creating?
    ensures Tallied(h, After(h, id, e), id)
  {
    Whole(h.s);
    var r, n := h.s.calls[id].creation, After(h, id, e);
    assert CallInv(h.s, h.s.calls[id]);
    MayCreate(h.s, id, e);
    CreationTablesAre(h.s, id, e);
    StoreAdds(h, id, e);
    StoreTally(h, n, id, r, e.issued);
  }

  lemma RollBackAbandons(s: State, id: nat, e: Event)
    requires Inv(s) && Can(s, id, e) && id in s.calls && s.calls[id].Creating? && s.calls[id].creation.stage == ROLLBACK
    requires e.RollBackGrants? || e.RollBackRow?
    ensures Abandoned(Do(s, id, e), s.calls[id].creation.k)
  {
    Whole(s);
    var r, n := s.calls[id].creation, Do(s, id, e);
    assert CallInv(s, s.calls[id]);
    CreationTablesAre(s, id, e);
    OthersKept(s, id, e);
    StepIs(s, id, e);
    RollBackNext(s, r, e);
    forall j | j in n.calls && n.calls[j].Creating? && n.calls[j].creation.k == r.k ensures n.calls[j].creation.stage >= ROLLBACK {
      if j != id { assert Others(s, id, j); }
    }
  }

  lemma RollBackTally(h: History, n: History, id: nat, r: KeyCreation)
    requires NoLeftovers(h.s) && id in h.s.calls && h.s.calls[id] == Creating(r) && r.k !in h.s.created
    requires n.s.grants <= h.s.grants && forall d :: d in h.s.grants && d !in n.s.grants ==> d.audience == r.k
    requires n.s.created == h.s.created && forall k :: k in h.s.keys && k !in n.s.keys ==> k == r.k
    requires Abandoned(n.s, r.k) && (id in n.s.calls ==> n.s.calls[id].Creating?)
    ensures Tallied(h, n, id)
  {}

  lemma RollBackTallied(h: History, n: History, id: nat, e: Event)
    requires Inv(h.s) && NoLeftovers(h.s) && Can(h.s, id, e) && id in h.s.calls && h.s.calls[id].Creating?
    requires n.s == Do(h.s, id, e) && (e.RollBackGrants? || e.RollBackRow?)
    ensures Tallied(h, n, id)
  {
    OwnKeyUncreated(h.s, id, h.s.calls[id].creation.k);
    MayCreate(h.s, id, e);
    CreationTablesAre(h.s, id, e);
    RollBackAbandons(h.s, id, e);
    RollBackTally(h, n, id, h.s.calls[id].creation);
  }

  lemma InsertTally(h: History, n: History, id: nat, r: KeyCreation)
    requires NoLeftovers(h.s) && id in h.s.calls && h.s.calls[id] == Creating(r) && r.k !in h.s.created
    requires n.s.grants == h.s.grants && n.s.created == h.s.created && n.s.keys == h.s.keys[r.k := r.p]
    requires id in n.s.calls ==> n.s.calls[id].Creating?
    ensures Tallied(h, n, id)
  {}

  lemma InsertTallied(h: History, n: History, id: nat, e: Event)
    requires Inv(h.s) && NoLeftovers(h.s) && Can(h.s, id, e) && e.InsertKey? && id in h.s.calls && h.s.calls[id].Creating?
    requires n.s == Do(h.s, id, e)
    ensures Tallied(h, n, id)
  {
    OwnKeyUncreated(h.s, id, h.s.calls[id].creation.k);
    CreationTablesAre(h.s, id, e);
    InsertTally(h, n, id, h.s.calls[id].creation);
  }

  lemma FinishTally(h: History, n: History, id: nat, r: KeyCreation)
    requires NoLeftovers(h.s) && id in h.s.calls && h.s.calls[id] == Creating(r) && r.k !in h.s.created && r.k in h.s.keys
    requires n.s.grants == h.s.grants && n.s.created == h.s.created + {r.k} && n.s.keys == h.s.keys
    requires id in n.s.calls ==> n.s.calls[id].Creating?
    ensures Tallied(h, n, id)
  {}

  lemma FinishTallied(h: History, n: History, id: nat, e: Event)
    requires Inv(h.s) && NoLeftovers(h.s) && Can(h.s, id, e) && e.FinishCreate? && id in h.s.calls && h.s.calls[id].Creating?
    requires n.s == Do(h.s, id, e)
    ensures Tallied(h, n, id)
  {
    OwnKeyUncreated(h.s, id, h.s.calls[id].creation.k);
    MayCreate(h.s, id, e);
    CreationTablesAre(h.s, id, e);
    FinishTally(h, n, id, h.s.calls[id].creation);
  }

  lemma CreationTallied(h: History, n: History, id: nat, e: Event)
    requires Inv(h.s) && NoLeftovers(h.s) && Can(h.s, id, e) && Commits(e) && id in h.s.calls && h.s.calls[id].Creating?
    requires n.s == Do(h.s, id, e) && !e.StoreGrants?
    ensures Tallied(h, n, id)
  {
    CreationCommitKinds(h.s, id, e);
    if e.InsertKey? {
      InsertTallied(h, n, id, e);
    } else if e.FinishCreate? {
      FinishTallied(h, n, id, e);
    } else {
      RollBackTallied(h, n, id, e);
    }
  }

  // The other calls' commits.

  lemma KeyDeleteTally(h: History, n: History, id: nat, r: KeyDeletion)
    requires NoLeftovers(h.s) && id in h.s.calls && h.s.calls[id] == Deleting(r) && id !in n.s.calls
    requires n.s.grants == (set d | d in h.s.grants && d.audience != r.k) && n.s.keys == h.s.keys - {r.k}
    requires n.s.created == h.s.created && forall d :: d in h.s.grants && d.audience == r.k ==> Accounted(n, d)
    requires forall j :: Others(h.s, id, j) ==> !Holds(h.s.calls[j], AudienceLock(r.k), Update)
    ensures Tallied(h, n, id)
  {}

  lemma DeletionDrops(h: History, n: History, id: nat, r: KeyDeletion)
    requires Balanced(h) && id in h.s.calls && h.s.calls[id] == Deleting(r) && r.stage == ANNOUNCED && AccountsGrow(h, n)
    ensures NoLeftovers(h.s) && forall d :: d in h.s.grants && d.audience == r.k ==> Accounted(n, d)
  {
    BalancedWhole(h);
    assert CallAccounts(h, id, h.s.calls[id]);
  }

  lemma DeletionAlone(s: State, id: nat, r: KeyDeletion)
    requires Inv(s) && id in s.calls && s.calls[id] == Deleting(r) && r.stage == ANNOUNCED
    ensures forall j :: Others(s, id, j) ==> !Holds(s.calls[j], AudienceLock(r.k), Update)
  {
    Whole(s);
    assert Holds(s.calls[id], AudienceLock(r.k), Update);
    OwnAlone(s, id, AudienceLock(r.k), Update);
  }

  lemma DeletionTally(h: History, n: History, id: nat, r: KeyDeletion)
    requires Inv(h.s) && Balanced(h) && id in h.s.calls && h.s.calls[id] == Deleting(r) && r.stage == ANNOUNCED
    requires SameTables(DeletionTables(h.s, r, CommitKeyDelete), n.s) && id !in n.s.calls && AccountsGrow(h, n)
    ensures Tallied(h, n, id)
  {
    DeletionDrops(h, n, id, r);
    DeletionAlone(h.s, id, r);
    KeyDeleteTally(h, n, id, r);
  }

  lemma KeyDeleteTallied(h: History, n: History, id: nat, e: Event)
    requires Inv(h.s) && Balanced(h) && Can(h.s, id, e) && Commits(e) && id in h.s.calls && h.s.calls[id].Deleting?
    requires n.s == Do(h.s, id, e) && AccountsGrow(h, n)
    ensures Tallied(h, n, id)
  {
    DeletionTablesAre(h.s, id, e);
    DeletionTally(h, n, id, h.s.calls[id].deletion);
  }

  lemma BucketDeleteTallied(h: History, id: nat, e: Event)
    requires Inv(h.s) && Balanced(h) && Can(h.s, id, e) && Commits(e) && id in h.s.calls && h.s.calls[id].DroppingBucket?
    ensures Tallied(h, After(h, id, e), id)
  {
    BalancedWhole(h);
    var r, n := h.s.calls[id].drop, After(h, id, e);
    assert CallAccounts(h, id, h.s.calls[id]);
    DroppingCommits(h.s, id, e);
    MayDrop(h.s, id, e);
    AccountsKept(h, id, e);
    StepIs(h.s, id, e);
    BucketDeleteTally(h, n, id, r);
  }

  /** A bucket's deletion drops what is accounted for, and loses the rest. */
  lemma BucketDeleteTally(h: History, n: History, id: nat, r: BucketDeletion)
    requires NoLeftovers(h.s) && id in h.s.calls && h.s.calls[id] == DroppingBucket(r) && SameKeys(h, n) && id !in n.s.calls
    requires n.s.grants == h.s.grants - r.doomed && AccountsGrow(h, n)
    requires forall d :: d in r.doomed && d in h.s.grants ==> Accounted(h, d) || d in n.lost
    ensures Tallied(h, n, id)
  {}

  /** Adds, and bucket creations undone, touch no grant and no key. */
  lemma UntouchedTally(h: History, n: History, id: nat)
    requires NoLeftovers(h.s) && id in h.s.calls && !h.s.calls[id].Creating? && SameKeys(h, n) && n.s.grants == h.s.grants
    requires id !in n.s.calls
    ensures Tallied(h, n, id)
  {}

  lemma OtherTallied(h: History, n: History, id: nat, e: Event)
    requires NoLeftovers(h.s) && Can(h.s, id, e) && Commits(e) && id in h.s.calls
    requires h.s.calls[id].Adding? || h.s.calls[id].MakingBucket? || h.s.calls[id].Asking?
    requires n.s == Do(h.s, id, e)
    ensures Tallied(h, n, id)
  {
    OtherUntouched(h.s, id, e);
    UntouchedTally(h, n, id);
  }

  /** A call that has not stepped accounts for nothing. */
  lemma BegunAccounts(h: History, n: History, id: nat, c: Call)
    requires CanBegin(h.s, c)
    ensures CallAccounts(n, id, c)
  {}

  lemma BeginTally(h: History, n: History, id: nat)
    requires NoLeftovers(h.s) && id !in h.s.calls && id in n.s.calls && CallAccounts(n, id, n.s.calls[id])
    requires n.s.grants == h.s.grants && n.s.keys == h.s.keys && n.s.created == h.s.created
    ensures Tallied(h, n, id)
  {}

  lemma BeginTallied(h: History, n: History, id: nat, e: Event)
    requires NoLeftovers(h.s) && Can(h.s, id, e) && e.Begin? && n.s == Do(h.s, id, e)
    ensures Tallied(h, n, id)
  {
    BegunTables(h.s, id, e);
    BegunAccounts(h, n, id, e.call);
    BeginTally(h, n, id);
  }

  lemma CommitTallied(h: History, id: nat, e: Event)
    requires Inv(h.s) && Balanced(h) && Can(h.s, id, e) && Commits(e)
    ensures Tallied(h, After(h, id, e), id)
  {
    BalancedWhole(h);
    AccountsKept(h, id, e);
    var n := After(h, id, e);
    if e.Begin? {
      BeginTallied(h, n, id, e);
    } else {
      match h.s.calls[id]
      case Writing(_) => WritingTallied(h, id, e);
      case Removing(_) => RemovalTallied(h, n, id, e);
      case Creating(_) => if e.StoreGrants? { StoreTallied(h, id, e); } else { CreationTallied(h, n, id, e); }
      case Deleting(_) => KeyDeleteTallied(h, n, id, e);
      case DroppingBucket(_) => BucketDeleteTallied(h, id, e);
      case _ => OtherTallied(h, n, id, e);
    }
  }

  // ------------------------------------------------------------------ every chronicle

  lemma StepBalanced(h: History, id: nat, e: Event)
    requires Inv(h.s) && Balanced(h) && Can(h.s, id, e)
    ensures Balanced(After(h, id, e))
  {
    BalancedWhole(h);
    var n := After(h, id, e);
    if Commits(e) { CommitTallied(h, id, e); } else { QuietTallied(h, id, e); }
    TalliedWhole(h, n, id);
    StepRely(h.s, id, e);
    AccountsKept(h, id, e);
    TalliedConserves(h, id, e);
    LossKept(h, id, e);
    CallsAccount(h, n, id, e);
  }

  lemma CallsAccount(h: History, n: History, id: nat, e: Event)
    requires Inv(h.s) && Balanced(h) && Can(h.s, id, e) && n.s == Do(h.s, id, e)
    requires TalliedParts(h, n, id) && AccountsGrow(h, n) && LateGrows(h, n, id)
    ensures forall j :: j in n.s.calls ==> CallAccounts(n, j, n.s.calls[j])
  {
    Whole(h.s);
    BalancedWhole(h);
    OthersKept(h.s, id, e);
    forall j | j in n.s.calls ensures CallAccounts(n, j, n.s.calls[j]) {
      if j != id {
        assert Others(h.s, id, j);
        AccountsStable(h, n, id, j);
      }
    }
  }

  lemma TalliedConserves(h: History, id: nat, e: Event)
    requires Inv(h.s) && Conserved(h) && Can(h.s, id, e) && TalliedParts(h, After(h, id, e), id)
    requires AccountsGrow(h, After(h, id, e)) && Rely(h.s, Do(h.s, id, e), id)
    ensures Conserved(After(h, id, e))
  {
    forall d | d in h.ever && Abandoned(h.s, d.audience) ensures Abandoned(Do(h.s, id, e), d.audience) {
      AbandonedKept(h.s, id, e, d.audience);
    }
    EachConserved(h, After(h, id, e), id);
  }

  lemma EachConserved(h: History, n: History, id: nat)
    requires Conserved(h) && TalliedParts(h, n, id) && AccountsGrow(h, n) && n.ever == h.ever + n.s.grants
    requires forall d :: d in h.ever && Abandoned(h.s, d.audience) ==> Abandoned(n.s, d.audience)
    ensures Conserved(n)
  {}

  lemma FollowBalanced(h: History, n: History)
    requires Inv(h.s) && Balanced(h) && Follows(h, n)
    ensures Inv(n.s) && Balanced(n)
  {
    var id, e := Stepped(h, n);
    StepInv(h.s, id, e);
    StepBalanced(h, id, e);
  }

  lemma StartBalanced()
    ensures Inv(START.s) && Balanced(START)
  {
    InitialInv();
  }

  lemma {:induction false} ChronicleBalanced(hs: seq<History>, i: nat)
    requires Chronicle(hs) && i < |hs|
    ensures Inv(hs[i].s) && Balanced(hs[i])
  {
    if i == 0 {
      StartBalanced();
    } else {
      ChronicleBalanced(hs, i - 1);
      assert StepAt(hs, i - 1);
      FollowBalanced(hs[i - 1], hs[i]);
    }
  }

  /** A created key whose row is gone holds nothing, whatever took the row: its own
      deletion or its principal's removal. */
  lemma GoneKeysHoldNothing(s: State, d: Delegation)
    requires Reachable(s) && d in s.grants && d.audience in s.created
    ensures d.audience in s.keys && s.keys[d.audience] in s.live
  {
    var states :| Run(states) && states[|states| - 1] == s;
    var hs := RunHasChronicle(states);
    ChronicleBalanced(hs, |hs| - 1);
    BalancedWhole(hs[|hs| - 1]);
    Whole(s);
  }

  // ------------------------------------------------------------------ lost for good

  lemma EverDistinct(h: History, id: nat, e: Event)
    requires LostForGood(h) && Can(h.s, id, e) && Rely(h.s, Do(h.s, id, e), id) && h.s.grants <= h.ever
    ensures LinksDistinct(h.ever + Do(h.s, id, e).grants) && Links(h.ever + Do(h.s, id, e).grants) <= Do(h.s, id, e).minted
  {
    DoAdds(h.s, id, e);
    IssuingDistinct(h.s, id, e);
    DistinctWith(h.ever, Issuing(e), Do(h.s, id, e).grants, h.s.minted);
    forall d | d in h.ever + Do(h.s, id, e).grants ensures d.link in Do(h.s, id, e).minted {
      if d in h.ever { assert d.link in Links(h.ever); }
    }
  }

  lemma DistinctWith(ever: set<Delegation>, issued: set<Delegation>, grants: set<Delegation>, minted: set<string>)
    requires LinksDistinct(ever) && Links(ever) <= minted && LinksDistinct(issued) && grants <= ever + issued
    requires forall d :: d in issued ==> d.link !in minted
    ensures LinksDistinct(ever + grants)
  {
    forall d | d in ever ensures d.link in minted { assert d.link in Links(ever); }
  }

  /** What is lost stays lost: nothing stores it again, and nothing can publish or
      find expired what is not stored. */
  lemma StaysLost(h: History, id: nat, e: Event, d: Delegation)
    requires LostForGood(h) && Can(h.s, id, e) && Rely(h.s, Do(h.s, id, e), id) && h.s.grants <= h.ever && d in h.lost
    ensures d !in Do(h.s, id, e).grants && !Accounted(After(h, id, e), d)
  {
    assert d.link in Links(h.ever);
    DoAdds(h.s, id, e);
    forall x | x in h.s.grants ensures x.link != d.link { assert x in h.ever; }
    assert Lapsing(h.s, id, e) <= h.s.grants;
  }

  lemma NewlyLost(h: History, id: nat, e: Event, d: Delegation)
    requires Can(h.s, id, e) && d in Losing(h, id, e)
    ensures d in h.s.grants && d !in Do(h.s, id, e).grants && !Accounted(After(h, id, e), d)
  {
    DroppingCommits(h.s, id, e);
    DoTables(h.s, id, e);
  }

  lemma LossKept(h: History, id: nat, e: Event)
    requires LostForGood(h) && Can(h.s, id, e) && Rely(h.s, Do(h.s, id, e), id) && h.s.grants <= h.ever
    ensures LostForGood(After(h, id, e))
  {
    EverDistinct(h, id, e);
    var n := After(h, id, e);
    forall d | d in n.lost ensures d in n.ever && d !in n.s.grants && !Accounted(n, d) {
      if d in h.lost { StaysLost(h, id, e, d); } else { NewlyLost(h, id, e, d); }
    }
  }

  // ---------------------------------------------------------------------- the theorem

  /** Conservation, exactly: in every state of every run, what a created key ever
      held is stored, or was published as revoked, or had expired when it was
      announced, if and only if it was not lost. */
  lemma NothingVanishes(hs: seq<History>, i: nat, d: Delegation)
    requires Chronicle(hs) && i < |hs| && d in hs[i].ever && d.audience in hs[i].s.created
    ensures d in hs[i].s.grants || d.link in hs[i].s.revoked || d in hs[i].lapsed <==> d !in hs[i].lost
  {
    ChronicleBalanced(hs, i);
    BalancedWhole(hs[i]);
  }

  /** What is lost stays lost, whoever held it. */
  lemma LostStaysLost(hs: seq<History>, i: nat, j: nat, d: Delegation)
    requires Chronicle(hs) && i <= j < |hs| && d in hs[i].lost
    ensures d in hs[j].lost && d !in hs[j].s.grants && d.link !in hs[j].s.revoked && d !in hs[j].lapsed
  {
    LostGrows(hs, i, j, d);
    ChronicleBalanced(hs, j);
    BalancedWhole(hs[j]);
  }

  /** A creation stores d over a bucket whose deletion x has announced. */
  ghost predicate StoresBeside(h: History, n: History, x: nat, d: Delegation) {
    && x in h.s.calls && Announced(h.s.calls[x], d.subject)
    && exists id: nat, issued :: Takes(h, n, id, StoreGrants(issued)) && d in issued
  }

  /** What becomes late is being stored beside the deletion. */
  lemma BecomesLate(h: History, id: nat, e: Event, x: nat, d: Delegation)
    requires d in LateOf(After(h, id, e), x) && d !in LateOf(h, x)
    ensures x in h.s.calls && Announced(h.s.calls[x], d.subject) && e == StoreGrants(Issuing(e)) && d in Issuing(e)
  {
    assert d in StoredBeside(h.s.calls[x], e);
  }

  lemma LateStep(h: History, n: History, x: nat, d: Delegation)
    requires Follows(h, n) && d in LateOf(n, x) && d !in LateOf(h, x)
    ensures StoresBeside(h, n, x, d)
  {
    var id, e := Stepped(h, n);
    BecomesLate(h, id, e, x, d);
  }

  lemma NoneLateAtFirst(hs: seq<History>, x: nat)
    requires Chronicle(hs)
    ensures LateOf(hs[0], x) == {}
  {}

  /** The step at which d became late for x, and it has been late since. */
  lemma {:induction false} BecameLate(hs: seq<History>, i: nat, x: nat, d: Delegation) returns (a: nat)
    requires i < |hs| && LateOf(hs[0], x) == {} && d in LateOf(hs[i], x)
    ensures a < i && d !in LateOf(hs[a], x) && forall m :: a < m <= i ==> d in LateOf(hs[m], x)
  {
    a := i - 1;
    if d in LateOf(hs[a], x) { a := BecameLate(hs, a, x, d); }
  }

  /** Call x, a deletion, commits and drops d with its bucket, unaccounted for. */
  ghost predicate DropsUnaccounted(h: History, n: History, x: nat, d: Delegation) {
    && Takes(h, n, x, CommitBucketDelete)
    && x in h.s.calls && h.s.calls[x].DroppingBucket? && d in h.s.calls[x].drop.doomed
    && d in h.s.grants && !Accounted(h, d)
  }

  ghost predicate EndsBucket(h: History, x: nat) {
    x in h.s.calls && h.s.calls[x].DroppingBucket?
  }

  /** A creation stores d at step a while deletion x of its bucket has announced,
      and at step c that same deletion drops it, neither published nor expired. */
  ghost predicate LostBetween(hs: seq<History>, a: nat, c: nat, x: nat, d: Delegation) {
    && a < c && c + 1 < |hs|
    && StoresBeside(hs[a], hs[a + 1], x, d)
    && (forall m :: a <= m <= c ==> EndsBucket(hs[m], x))
    && DropsUnaccounted(hs[c], hs[c + 1], x, d)
  }

  lemma LateIsDeleting(h: History, n: History, x: nat, d: Delegation)
    requires Follows(h, n) && d in LateOf(n, x)
    ensures EndsBucket(n, x)
  {
    var id, e := Stepped(h, n);
  }

  lemma LostStep(h: History, n: History, d: Delegation) returns (x: nat)
    requires Follows(h, n) && d in n.lost && d !in h.lost
    ensures d in LateOf(h, x) && DropsUnaccounted(h, n, x, d)
  {
    var id, e := Stepped(h, n);
    x := id;
  }

  lemma {:induction false} BecameLost(hs: seq<History>, i: nat, d: Delegation) returns (c: nat)
    requires i < |hs| && hs[0].lost == {} && d in hs[i].lost
    ensures c < i && d !in hs[c].lost && d in hs[c + 1].lost
  {
    c := i - 1;
    if d in hs[c].lost { c := BecameLost(hs, c, d); }
  }

  lemma LateBetween(hs: seq<History>, c: nat, x: nat, d: Delegation) returns (a: nat)
    requires Chronicle(hs) && c < |hs| && d in LateOf(hs[c], x)
    ensures a < c && StoresBeside(hs[a], hs[a + 1], x, d) && forall m :: a <= m <= c ==> EndsBucket(hs[m], x)
  {
    NoneLateAtFirst(hs, x);
    a := BecameLate(hs, c, x, d);
    assert StepAt(hs, a);
    LateStep(hs[a], hs[a + 1], x, d);
    forall m | a < m <= c ensures EndsBucket(hs[m], x) {
      assert StepAt(hs, m - 1);
      LateIsDeleting(hs[m - 1], hs[m], x, d);
    }
  }

  ghost predicate HasAnnounced(h: History, x: nat) {
    EndsBucket(h, x) && h.s.calls[x].drop.stage >= ANNOUNCED
  }

  lemma StoredIsLate(h: History, n: History, x: nat, d: Delegation)
    requires StoresBeside(h, n, x, d) && EndsBucket(n, x)
    ensures d in LateOf(n, x) && HasAnnounced(n, x)
  {
    var id: nat, issued :| Takes(h, n, id, StoreGrants(issued)) && d in issued;
    Took(h, n, id, StoreGrants(issued));
    Issuers(h.s, id, StoreGrants(issued));
    OthersKept(h.s, id, StoreGrants(issued));
    assert Others(h.s, id, x);
    assert d in StoredBeside(h.s.calls[x], StoreGrants(issued));
  }

  lemma DropGoesOn(s: State, id: nat, r: BucketDeletion, e: Event)
    requires CanBucketDelete(s, id, r, e) && r.stage >= ANNOUNCED && DropNext(s, r, e).Some?
    ensures !e.Announce? && DropNext(s, r, e).value.stage >= ANNOUNCED
  {}

  lemma DropNextCall(s: State, r: BucketDeletion, e: Event)
    ensures NextCall(s, DroppingBucket(r), e).Some? ==>
              DropNext(s, r, e).Some? && NextCall(s, DroppingBucket(r), e).value == DroppingBucket(DropNext(s, r, e).value)
  {}

  /** A deletion that has announced does not announce again. */
  lemma AnnouncedOnce(s: State, id: nat, e: Event, x: nat)
    requires Can(s, id, e) && x in s.calls && s.calls[x].DroppingBucket? && s.calls[x].drop.stage >= ANNOUNCED
    requires x in Do(s, id, e).calls && Do(s, id, e).calls[x].DroppingBucket?
    ensures Do(s, id, e).calls[x].drop.stage >= ANNOUNCED && (x == id ==> !e.Announce? && !e.Begin?)
  {
    if x == id {
      OwnStep(s, id, e);
      MayDrop(s, id, e);
      DropNextCall(s, s.calls[id].drop, e);
      DropGoesOn(s, id, s.calls[id].drop, e);
    } else {
      OthersKept(s, id, e);
      assert Others(s, id, x);
    }
  }

  lemma StaysLate(h: History, n: History, x: nat, d: Delegation)
    requires Follows(h, n) && d in LateOf(h, x) && HasAnnounced(h, x) && EndsBucket(n, x)
    ensures d in LateOf(n, x) && HasAnnounced(n, x)
  {
    var id, e := Stepped(h, n);
    AnnouncedOnce(h.s, id, e, x);
  }

  lemma {:induction false} LateUntil(hs: seq<History>, a: nat, c: nat, x: nat, d: Delegation)
    requires Chronicle(hs) && a <= c < |hs| && d in LateOf(hs[a], x) && HasAnnounced(hs[a], x)
    requires forall m :: a <= m <= c ==> EndsBucket(hs[m], x)
    ensures d in LateOf(hs[c], x) && HasAnnounced(hs[c], x)
  {
    if a < c {
      LateUntil(hs, a, c - 1, x, d);
      assert StepAt(hs, c - 1);
      StaysLate(hs[c - 1], hs[c], x, d);
    }
  }

  lemma DropsLost(h: History, n: History, x: nat, d: Delegation)
    requires DropsUnaccounted(h, n, x, d) && d in LateOf(h, x)
    ensures d in n.lost
  {
    Took(h, n, x, CommitBucketDelete);
  }

  lemma LostKept(h: History, n: History)
    requires Follows(h, n)
    ensures h.lost <= n.lost
  {
    var id, e := Stepped(h, n);
  }

  lemma {:induction false} LostGrows(hs: seq<History>, i: nat, j: nat, d: Delegation)
    requires Chronicle(hs) && i <= j < |hs| && d in hs[i].lost
    ensures d in hs[j].lost
  {
    if i < j {
      LostGrows(hs, i, j - 1, d);
      assert StepAt(hs, j - 1);
      LostKept(hs[j - 1], hs[j]);
    }
  }

  ghost predicate LostBefore(hs: seq<History>, i: nat, d: Delegation) {
    exists a: nat, c: nat, x: nat :: LostBetween(hs, a, c, x, d) && c < i
  }

  lemma LostOnce(hs: seq<History>, i: nat, d: Delegation)
    requires Chronicle(hs) && i < |hs|
    ensures d in hs[i].lost ==> LostBefore(hs, i, d)
  {
    if d in hs[i].lost {
      var c := BecameLost(hs, i, d);
      assert StepAt(hs, c);
      var x := LostStep(hs[c], hs[c + 1], d);
      var a := LateBetween(hs, c, x, d);
      assert LostBetween(hs, a, c, x, d);
    }
  }

  lemma LostSince(hs: seq<History>, a: nat, c: nat, x: nat, d: Delegation)
    requires Chronicle(hs) && LostBetween(hs, a, c, x, d)
    ensures d in hs[c + 1].lost
  {
    StoredIsLate(hs[a], hs[a + 1], x, d);
    LateUntil(hs, a + 1, c, x, d);
    DropsLost(hs[c], hs[c + 1], x, d);
  }

  lemma LostStill(hs: seq<History>, i: nat, d: Delegation)
    requires Chronicle(hs) && i < |hs|
    ensures LostBefore(hs, i, d) ==> d in hs[i].lost
  {
    if LostBefore(hs, i, d) {
      var a: nat, c: nat, x: nat :| LostBetween(hs, a, c, x, d) && c < i;
      LostSince(hs, a, c, x, d);
      LostGrows(hs, c + 1, i, d);
    }
  }

  /** How a grant is lost, exactly: a creation stored it after a deletion of its
      bucket had announced, and that same deletion then dropped it unpublished. */
  lemma LostMeans(hs: seq<History>, i: nat, d: Delegation)
    requires Chronicle(hs) && i < |hs|
    ensures d in hs[i].lost <==> LostBefore(hs, i, d)
  {
    LostOnce(hs, i, d);
    LostStill(hs, i, d);
  }

  /** Some call announces over d, expired by the clock it announces with. */
  ghost predicate FoundExpired(s: State, d: Delegation) {
    exists id: nat, now: nat :: Can(s, id, Announce(now)) && id in s.calls && d in Covers(s, s.calls[id])
      && d.expires.Some? && d.expires.value <= now
  }

  lemma BecomesLapsed(h: History, id: nat, e: Event, d: Delegation)
    requires Can(h.s, id, e) && d in After(h, id, e).lapsed && d !in h.lapsed
    ensures FoundExpired(h.s, d)
  {
    assert e == Announce(e.now);
  }

  lemma LapsedStep(h: History, n: History, d: Delegation)
    requires Follows(h, n) && d in n.lapsed && d !in h.lapsed
    ensures FoundExpired(h.s, d)
  {
    var id, e := Stepped(h, n);
    BecomesLapsed(h, id, e, d);
  }

  /** What lapsed had expired by the clock of an announcement that covered it. */
  lemma {:induction false} LapsedHadExpired(hs: seq<History>, i: nat, d: Delegation)
    requires Chronicle(hs) && i < |hs| && d in hs[i].lapsed
    ensures exists a: nat :: a < i && FoundExpired(hs[a].s, d)
  {
    assert i > 0 && StepAt(hs, i - 1);
    if d in hs[i - 1].lapsed { LapsedHadExpired(hs, i - 1, d); } else { LapsedStep(hs[i - 1], hs[i], d); }
  }
}
