/** The grants protocol of one tenant on the Postgres backend, as a state
    machine: committed tables, in-flight calls, and one event per database
    statement, lock acquisition, publish or commit.

    A call's program counter says which locks it holds, so the lock table is the
    union over the calls in flight. A transaction's writes are buffered in its
    call and appear in the tables when it commits; an event that reads sees the
    committed tables. Every wait is a guard: the event is not enabled while
    another call holds a conflicting lock. Fail stands for every way a call ends
    early: a lock timeout, a failed publish, a cancelled request, a crash. */
module Protocol {
  import opened Common
  import opened BucketPolicy
  import opened Permissions
  import opened Delegations

  // ------------------------------------------------------------------- locks

  /** Postgres row lock modes; an advisory lock is Share or Update. */
  datatype Mode = KeyShare | Share | NoKeyUpdate | Update

  predicate Conflicts(a: Mode, b: Mode) {
    match a
    case KeyShare => b.Update?
    case Share => b.NoKeyUpdate? || b.Update?
    case NoKeyUpdate => !b.KeyShare?
    case Update => true
  }

  datatype Lock =
    | TenantLock
    | PrincipalRow(p: PrincipalId)
    | BucketLock(b: Did)
    | BucketRow(b: Did)
    | PolicyRow(b: Did)
    | AudienceLock(k: Did)

  // ------------------------------------------------------------------- calls

  /** A write's precondition on the bucket's current policy. */
  datatype Condition = Unconditional | IfMatch(tag: Tag) | IfNoneMatch

  predicate Meets(c: Condition, current: Option<Document>) {
    match c
    case Unconditional => true
    case IfMatch(tag) => current.Some? && ETag(current.value) == tag
    case IfNoneMatch => current.None?
  }

  const BEGUN: nat := 0

  // Stages of a policy transaction.
  const TENANT: nat := 1
  const BUCKET: nat := 2
  const LOADED: nat := 3
  const AFFECTED: nat := 4
  const LISTED: nat := 5
  const READ: nat := 6
  const PUBLISHED: nat := 7

  /** A policy write in flight: Put when doc is a document, Delete when it is
      none. A rotating write rewrites the grants of the principals it affects;
      a removal's rewrite of a policy does not. */
  datatype Write = Write(
    bucket: Did,
    doc: Option<Document>,
    condition: Condition,
    rotates: bool,
    stage: nat,
    checked: set<PrincipalId>,  // named principals held FOR KEY SHARE
    was: Option<Document>,      // the row the write replaces, once loaded
    affected: set<PrincipalId>, // principals whose effective set changes
    locked: set<PrincipalId>,   // those of them held FOR NO KEY UPDATE
    listed: set<Did>,           // their keys, as listed
    auds: set<Did>,             // audience locks held
    remaining: set<Did>)        // listed keys still present when re-read

  // Stages of a removal.
  const REVOKING: nat := 1
  const REVOKED: nat := 2
  const CLEARED: nat := 3
  const STRIPPING: nat := 4
  const HELD: nat := 5
  const CHECKED: nat := 6
  const LISTING_KEYS: nat := 7
  const REMOVED: nat := 8

  // Stages of a key creation.
  const FOUND: nat := 1
  const INSERTING: nat := 2
  const INSERTED: nat := 3
  const LISTING: nat := 4
  const PLANNED: nat := 5
  const OWN_LOCKED: nat := 6
  const STORED: nat := 7
  const ROLLBACK: nat := 8

  // Stages of a key deletion and of a bucket deletion.
  const LOCKED: nat := 1
  const ANNOUNCED: nat := 2
  const AUDIENCES: nat := 3
  const DOOMED: nat := 4

  // Stages of a bucket info request.
  const PRINCIPAL_READ: nat := 1
  const POLICY_READ: nat := 2
  const GRANTS_LISTED: nat := 3
  const CHAINED: nat := 4
  const SETTLED: nat := 5
  const ANSWERED: nat := 6

  datatype Removal = Removal(
    p: PrincipalId,
    stage: nat,
    todo: map<Did, Document>, // listed policies still to rewrite
    strip: Option<Write>,     // the rewrite in progress
    listed: set<Did>,         // the principal's keys, as listed
    auds: set<Did>)           // audience locks held

  datatype KeyCreation = KeyCreation(
    k: Did,
    p: PrincipalId,
    stage: nat,
    cands: map<Did, nat>,     // buckets whose policy row the listing found
    docs: map<Did, Document>) // those of them read, with their documents

  datatype KeyDeletion = KeyDeletion(k: Did, stage: nat)

  datatype PrincipalAddition = PrincipalAddition(p: PrincipalId, stage: nat)

  datatype BucketDeletion = BucketDeletion(
    b: Did,
    stage: nat,
    listed: set<Did>,         // audiences to lock
    auds: set<Did>,           // audience locks held
    doomed: set<Delegation>)  // rows the transaction deleted

  datatype InfoRequest = InfoRequest(
    k: Did,
    p: PrincipalId,
    b: Did,
    stage: nat,
    eff: set<string>,            // the actions it will report
    tag: Option<Tag>,            // of the policy they came from
    stored: set<Delegation>,     // the key's grants, as first listed
    chained: set<Delegation>,    // the grants its proof chains end in
    again: set<Delegation>,      // the key's grants, as listed again
    atPolicy: Option<Document>,  // the policy and the grants at the re-read;
    atGrants: set<Delegation>)   // bookkeeping, no step depends on them

  datatype Call =
    | Writing(write: Write)
    | Removing(removal: Removal)
    | Creating(creation: KeyCreation)
    | Deleting(deletion: KeyDeletion)
    | Adding(addition: PrincipalAddition)
    | MakingBucket(made: Did)
    | DroppingBucket(drop: BucketDeletion)
    | Asking(info: InfoRequest)

  predicate WriteHolds(w: Write, l: Lock, m: Mode) {
    match l
    case TenantLock => m.Share? && w.doc.Some? && w.stage >= TENANT
    case PrincipalRow(p) => (m.KeyShare? && p in w.checked) || (m.NoKeyUpdate? && p in w.locked)
    case BucketLock(b) => m.Update? && b == w.bucket && w.stage >= BUCKET
    case BucketRow(b) => m.KeyShare? && b == w.bucket && w.doc.Some? && w.stage >= LOADED
    case PolicyRow(b) => m.Update? && b == w.bucket && w.was.Some? && w.stage >= LOADED
    case AudienceLock(k) => m.Update? && k in w.auds
  }

  /** The locks a call holds at its program counter. */
  predicate Holds(c: Call, l: Lock, m: Mode) {
    match c
    case Writing(w) => WriteHolds(w, l, m)
    case Removing(r) =>
      || (r.strip.Some? && WriteHolds(r.strip.value, l, m))
      || (m.Update? && l == PrincipalRow(r.p) && r.stage >= HELD)
      || (m.Update? && l.AudienceLock? && l.k in r.auds)
    case Creating(r) =>
      || (m.Share? && l == PrincipalRow(r.p) && r.stage == INSERTING)
      || (m.Share? && l.PolicyRow? && l.b in r.docs && r.stage == LISTING)
      || (m.Update? && l == AudienceLock(r.k) && r.stage == OWN_LOCKED)
    case Deleting(r) => m.Update? && l == AudienceLock(r.k) && r.stage >= LOCKED
    case Adding(r) => m.Update? && l == TenantLock && r.stage >= TENANT
    case MakingBucket(_) => false
    case DroppingBucket(r) =>
      m.Update? && ((l == BucketLock(r.b) && r.stage >= LOCKED) || (l.AudienceLock? && l.k in r.auds))
    case Asking(_) => false
  }

  predicate HoldsSome(c: Call, l: Lock) {
    Holds(c, l, KeyShare) || Holds(c, l, Share) || Holds(c, l, NoKeyUpdate) || Holds(c, l, Update)
  }

  /** c holds l in a mode that makes a request for m wait. */
  predicate Blocks(c: Call, l: Lock, m: Mode) {
    || (Conflicts(m, KeyShare) && Holds(c, l, KeyShare))
    || (Conflicts(m, Share) && Holds(c, l, Share))
    || (Conflicts(m, NoKeyUpdate) && Holds(c, l, NoKeyUpdate))
    || (Conflicts(m, Update) && Holds(c, l, Update))
  }

  // ------------------------------------------------------------------- state

  datatype Revision = Revision(bucket: Did, doc: Document)

  datatype State = State(
    // committed tables
    live: set<PrincipalId>,
    buckets: set<Did>,
    policies: map<Did, Document>,
    born: map<Did, nat>,      // how often a bucket's policy row was created
    keys: map<Did, PrincipalId>,
    grants: set<Delegation>,
    // what has been published
    revoked: set<string>,
    // what was ever used: key ids with their principals, key rows, bucket ids,
    // links, and every document a bucket's policy ever was
    bound: map<Did, PrincipalId>,
    inserted: set<Did>,
    usedBuckets: set<Did>,
    minted: set<string>,
    revisions: set<Revision>,
    // keys whose creation returned, and principals with a failed removal
    created: set<Did>,
    unfinished: set<PrincipalId>,
    calls: map<nat, Call>)

  function Policy(s: State, b: Did): Option<Document> {
    if b in s.policies then Some(s.policies[b]) else None
  }

  function BoundTo(s: State, k: Did): PrincipalId {
    if k in s.bound then s.bound[k] else WILDCARD
  }

  /** The commands a policy grants a principal. */
  function Commands(d: Option<Document>, p: PrincipalId): set<Command> {
    CommandSet(EffectiveSet(d, p))
  }

  /** What p's keys must be able to do on b. */
  function Required(s: State, p: PrincipalId, b: Did): set<Command> {
    Commands(Policy(s, b), p)
  }

  predicate Free(s: State, id: nat, l: Lock, m: Mode) {
    forall j :: j in s.calls && j != id ==> !Blocks(s.calls[j], l, m)
  }

  /** No removal of p is in flight, and none that failed is left unrepeated. */
  predicate Clean(s: State, p: PrincipalId) {
    && p !in s.unfinished
    && forall j :: j in s.calls && s.calls[j].Removing? ==> s.calls[j].removal.p != p
  }

  const INITIAL: State :=
    State({}, {}, map[], map[], map[], {}, {}, map[], {}, {}, {}, {}, {}, {}, map[])

  function Born(s: State, b: Did): nat {
    if b in s.born then s.born[b] else 0
  }

  /** The policy row a creation's listing found is still there, whatever document
      it holds now. A row deleted since is skipped, and so is one created in its
      place. */
  predicate StillThere(s: State, r: KeyCreation, b: Did) {
    b in r.cands && b in s.policies && Born(s, b) == r.cands[b]
  }

  // ------------------------------------------------------------------ events

  datatype Event =
    | Begin(call: Call)
    | Fail
    // locks and reads several calls share
    | TakeTenant
    | TakeBucket
    | LockAudience(k: Did)
    | GetPrincipal
    | Announce(now: nat)             // publish revocations, as of the clock's now
    // policy write
    | CheckNamed(p: PrincipalId)
    | Load
    | Affect
    | LockRow(p: PrincipalId)
    | ListKeys
    | ReadGrants
    | CommitWrite(issued: set<Delegation>)
    // removal
    | ClearGrants
    | ListForStrip
    | StripNext(b: Did)
    | StripGone
    | HoldPrincipal
    | PrincipalGone
    | CheckPolicies
    | ListOwnKeys
    | CommitRemoval
    // key creation
    | HoldForInsert
    | InsertKey
    | ListPolicies
    | ReadPolicy(b: Did)
    | PoliciesRead
    | LockOwn
    | StoreGrants(issued: set<Delegation>)
    | NothingToStore
    | FinishCreate
    | RollBack
    | RollBackGrants
    | RollBackRow
    // key deletion, principal add, buckets
    | CommitKeyDelete
    | CommitAdd
    | KeepBucket
    | UndoBucket
    | ListAudiences
    | DeleteRows
    | CommitBucketDelete
    // bucket info
    | GetPolicy
    | ListGrant(d: Delegation)
    | EndList
    | AddChain(d: Delegation)
    | EndChains
    | Reread
    | ListAgain(d: Delegation)
    | Answer

  function BeginWrite(b: Did, doc: Option<Document>, c: Condition, rotates: bool): Write {
    Write(b, doc, c, rotates, BEGUN, {}, None, {}, {}, {}, {}, {})
  }

  /** A call as it is before its first statement. */
  predicate CanBegin(s: State, c: Call) {
    match c
    case Writing(w) => w == BeginWrite(w.bucket, w.doc, w.condition, true)
    case Removing(r) => r == Removal(r.p, BEGUN, map[], None, {}, {})
    case Creating(r) => r == KeyCreation(r.k, r.p, BEGUN, map[], map[]) && r.k !in s.bound
    case Deleting(r) => r.stage == BEGUN
    case Adding(r) => r.stage == BEGUN && r.p != WILDCARD
    case MakingBucket(b) => b !in s.usedBuckets
    case DroppingBucket(r) => r == BucketDeletion(r.b, BEGUN, {}, {}, {})
    case Asking(r) =>
      && r == InfoRequest(r.k, r.p, r.b, BEGUN, {}, None, {}, {}, {}, None, {})
      && r.k in s.keys && s.keys[r.k] == r.p && r.b in s.buckets
  }

  /** Starting a call issues a key creation's fresh id and commits a bucket
      creation's row. */
  function Started(s: State, id: nat, c: Call): State {
    var n := s.(calls := s.calls[id := c]);
    match c
    case Creating(r) => n.(bound := s.bound[r.k := r.p])
    case MakingBucket(b) => n.(buckets := s.buckets + {b}, usedBuckets := s.usedBuckets + {b})
    case _ => n
  }

  // ------------------------------------------------- policy writes, step by step

  /** The grants a rotation revokes: what the remaining keys hold over the
      bucket. */
  function Replaced(s: State, w: Write): set<Delegation> {
    set d | d in s.grants && d.subject == w.bucket && d.audience in w.remaining
  }

  predicate WriteCan(s: State, id: nat, w: Write, e: Event) {
    match e
    case TakeTenant => w.stage == BEGUN && w.doc.Some? && Free(s, id, TenantLock, Share)
    case CheckNamed(p) =>
      && w.stage == TENANT && w.doc.Some? && p in NamedSet(w.doc.value) && p !in w.checked
      && Free(s, id, PrincipalRow(p), KeyShare) && p in s.live
    case TakeBucket =>
      && (if w.doc.Some? then w.stage == TENANT && NamedSet(w.doc.value) <= w.checked else w.stage == BEGUN)
      && Free(s, id, BucketLock(w.bucket), Update)
    case Load =>
      && w.stage == BUCKET
      && (w.doc.Some? ==> w.bucket in s.buckets && Free(s, id, BucketRow(w.bucket), KeyShare))
      && (w.doc.None? ==> w.bucket in s.policies)
      && (w.bucket in s.policies ==> Free(s, id, PolicyRow(w.bucket), Update))
      && Meets(w.condition, Policy(s, w.bucket))
    case Affect =>
      && w.stage == LOADED && w.rotates
      && (w.doc.Some? ==> NamedSet(w.doc.value) <= s.live)
    case LockRow(p) =>
      && w.stage == AFFECTED && p in w.affected && p in s.live && p !in w.locked
      && Free(s, id, PrincipalRow(p), NoKeyUpdate)
    case ListKeys => w.stage == AFFECTED && forall p :: p in w.affected && p in s.live ==> p in w.locked
    case LockAudience(k) => w.stage == LISTED && k in w.listed && k !in w.auds && Free(s, id, AudienceLock(k), Update)
    case ReadGrants => w.stage == LISTED && w.listed <= w.auds
    case Announce(_) => w.stage == READ
    case _ => false
  }

  function WriteDo(s: State, w: Write, e: Event): Write {
    match e
    case TakeTenant => w.(stage := TENANT)
    case CheckNamed(p) => w.(checked := w.checked + {p})
    case TakeBucket => w.(stage := BUCKET)
    case Load => w.(stage := LOADED, was := Policy(s, w.bucket))
    case Affect => w.(stage := AFFECTED, affected := ChangedSet(w.was, w.doc, s.live))
    case LockRow(p) => w.(locked := w.locked + {p})
    case ListKeys => w.(stage := LISTED, listed := set k | k in s.keys && s.keys[k] in w.affected)
    case LockAudience(k) => w.(auds := w.auds + {k})
    case ReadGrants => w.(stage := READ, remaining := set k | k in w.listed && k in s.keys)
    case Announce(_) => w.(stage := PUBLISHED)
    case _ => w
  }

  /** issued is what a rotation issues: for each remaining key, the commands its
      principal has under the new document, over the bucket, under new links. */
  predicate Reissued(s: State, w: Write, issued: set<Delegation>) {
    && (forall d :: d in issued ==> d.link !in s.minted && d.subject == w.bucket && d.audience in w.remaining)
    && (forall c, d :: c in issued && d in issued && c.link == d.link ==> c == d)
    && (forall k :: k in w.remaining ==> Held(issued, k, w.bucket) == Commands(w.doc, BoundTo(s, k)))
  }

  predicate CanCommit(s: State, w: Write, issued: set<Delegation>) {
    && w.stage == (if w.rotates then PUBLISHED else LOADED)
    && Reissued(s, w, issued)
  }

  /** The commit: the policy row, its index and the rewritten grants together. */
  function Committed(s: State, w: Write, issued: set<Delegation>): State {
    s.(policies := if w.doc.Some? then s.policies[w.bucket := w.doc.value] else s.policies - {w.bucket},
       born := if w.doc.Some? && w.bucket !in s.policies then s.born[w.bucket := Born(s, w.bucket) + 1] else s.born,
       revisions := if w.doc.Some? then s.revisions + {Revision(w.bucket, w.doc.value)} else s.revisions,
       grants := (set d | d in s.grants && !(d.subject == w.bucket && d.audience in w.auds)) + issued,
       minted := s.minted + Links(issued))
  }

  // ------------------------------------------------------------ the other calls

  ghost predicate CanRemoval(s: State, id: nat, r: Removal, e: Event)
  {
    match e
    case ListOwnKeys => r.stage == BEGUN || r.stage == CHECKED
    case LockAudience(k) =>
      && (r.stage == REVOKING || r.stage == LISTING_KEYS) && k in r.listed && k !in r.auds
      && Free(s, id, AudienceLock(k), Update)
    case Announce(_) => r.strip.None? && (r.stage == REVOKING || r.stage == LISTING_KEYS) && r.listed <= r.auds
    case ClearGrants => r.stage == REVOKED
    case ListForStrip => r.stage == CLEARED
    case StripNext(b) => r.stage == STRIPPING && r.strip.None? && b in r.todo
    case StripGone =>
      && r.stage == STRIPPING && r.strip.Some? && r.strip.value.doc.None? && r.strip.value.stage == BUCKET
      && r.strip.value.bucket !in s.policies
    case CommitWrite(issued) => r.stage == STRIPPING && r.strip.Some? && CanCommit(s, r.strip.value, issued)
    case HoldPrincipal =>
      && r.stage == STRIPPING && r.strip.None? && r.todo == map[]
      && Free(s, id, PrincipalRow(r.p), Update) && r.p in s.live
    case PrincipalGone =>
      && r.stage == STRIPPING && r.strip.None? && r.todo == map[]
      && Free(s, id, PrincipalRow(r.p), Update) && r.p !in s.live
    case CheckPolicies =>
      && r.stage == HELD
      && forall b :: b in s.policies && Indexed(s.policies[b], r.p) ==> r.p !in NamedSet(s.policies[b])
    case CommitRemoval => r.stage == REMOVED
    case _ => r.stage == STRIPPING && r.strip.Some? && forall w :: w == r.strip.value ==> WriteCan(s, id, w, e)
  }

  /** The rewrite of one listed policy without the principal: a conditional
      write of what is left, or a conditional delete when nothing is. */
  function StripWrite(b: Did, d: Document, p: PrincipalId): Write {
    var left := StripDocument(d, p);
    BeginWrite(b, if left.statements == [] then None else Some(left), IfMatch(ETag(d)), false)
  }

  function RemovalNext(s: State, r: Removal, e: Event): Option<Removal> {
    match e
    case ListOwnKeys =>
      Some(r.(stage := if r.stage == BEGUN then REVOKING else LISTING_KEYS,
              listed := (set k | k in s.keys && s.keys[k] == r.p), auds := {}))
    case LockAudience(k) => Some(r.(auds := r.auds + {k}))
    case Announce(_) => Some(r.(stage := if r.stage == REVOKING then REVOKED else REMOVED))
    case ClearGrants => Some(r.(stage := CLEARED, listed := {}, auds := {}))
    case ListForStrip =>
      Some(r.(stage := STRIPPING, todo := map b | b in s.policies && Indexed(s.policies[b], r.p) :: s.policies[b]))
    case StripNext(b) =>
      Some(if b !in r.todo then r
           else r.(todo := r.todo - {b},
                   strip := if r.p in NamedSet(r.todo[b]) then Some(StripWrite(b, r.todo[b], r.p)) else None))
    case StripGone => Some(r.(strip := None))
    case CommitWrite(_) => Some(r.(strip := None))
    case HoldPrincipal => Some(r.(stage := HELD))
    case PrincipalGone => None
    case CheckPolicies => Some(r.(stage := CHECKED))
    case CommitRemoval => None
    case _ => Some(if r.strip.None? then r else r.(strip := Some(WriteDo(s, r.strip.value, e))))
  }

  function RemovalTables(s: State, r: Removal, e: Event): State {
    match e
    case Announce(now) => s.(revoked := s.revoked + Links(Unexpired((set d | d in s.grants && d.audience in r.listed), now)))
    case ClearGrants => s.(grants := set d | d in s.grants && d.audience !in r.listed)
    case CommitWrite(issued) => if r.strip.None? then s else Committed(s, r.strip.value, issued)
    case PrincipalGone => s.(unfinished := s.unfinished - {r.p})
    case CommitRemoval =>
      s.(grants := (set d | d in s.grants && d.audience !in r.listed),
         keys := map k | k in s.keys && k !in r.listed :: s.keys[k],
         live := s.live - {r.p},
         unfinished := s.unfinished - {r.p})
    case _ => s
  }

  predicate CanKeyCreate(s: State, id: nat, r: KeyCreation, e: Event)
  {
    match e
    case GetPrincipal => r.stage == BEGUN && Free(s, id, PrincipalRow(r.p), Share) && r.p in s.live
    case HoldForInsert => r.stage == FOUND && Free(s, id, PrincipalRow(r.p), Share) && r.p in s.live
    case InsertKey => r.stage == INSERTING
    case ListPolicies => r.stage == INSERTED
    case ReadPolicy(b) =>
      r.stage == LISTING && b in r.cands && b !in r.docs && (StillThere(s, r, b) ==> Free(s, id, PolicyRow(b), Share))
    case PoliciesRead => r.stage == LISTING && r.cands.Keys <= r.docs.Keys
    case LockOwn => r.stage == PLANNED && Free(s, id, AudienceLock(r.k), Update)
    case NothingToStore => r.stage == PLANNED && forall b :: b in r.docs ==> Commands(Some(r.docs[b]), r.p) == {}
    case StoreGrants(issued) =>
      && r.stage == OWN_LOCKED
      && (forall d :: d in s.grants ==> d.audience != r.k)
      && (forall d :: d in issued ==> d.link !in s.minted && d.audience == r.k && d.subject in r.docs)
      && (forall a, d :: a in issued && d in issued && a.link == d.link ==> a == d)
      && (forall b :: b in r.docs ==> Held(issued, r.k, b) == Commands(Some(r.docs[b]), r.p))
    case FinishCreate => r.stage == STORED && r.k in s.keys
    case RollBack => INSERTING <= r.stage <= STORED
    case RollBackGrants => r.stage == ROLLBACK && Free(s, id, AudienceLock(r.k), Update)
    case RollBackRow => r.stage == ROLLBACK
    case _ => false
  }

  function CreationNext(s: State, r: KeyCreation, e: Event): Option<KeyCreation> {
    match e
    case GetPrincipal => Some(r.(stage := FOUND))
    case HoldForInsert => Some(r.(stage := INSERTING))
    case InsertKey => Some(r.(stage := INSERTED))
    case ListPolicies =>
      Some(r.(stage := LISTING, cands := (map b | b in s.policies && Indexed(s.policies[b], r.p) :: Born(s, b)), docs := map[]))
    case ReadPolicy(b) =>
      Some(if StillThere(s, r, b) then r.(docs := r.docs[b := s.policies[b]]) else r.(cands := r.cands - {b}))
    case PoliciesRead => Some(r.(stage := PLANNED))
    case LockOwn => Some(r.(stage := OWN_LOCKED))
    case NothingToStore => Some(r.(stage := STORED))
    case StoreGrants(_) => Some(r.(stage := STORED))
    case FinishCreate => None
    case RollBack => Some(r.(stage := ROLLBACK))
    case _ => Some(r)
  }

  function CreationTables(s: State, r: KeyCreation, e: Event): State {
    match e
    case InsertKey => s.(keys := s.keys[r.k := r.p], inserted := s.inserted + {r.k})
    case StoreGrants(issued) => s.(grants := s.grants + issued, minted := s.minted + Links(issued))
    case FinishCreate => s.(created := s.created + {r.k})
    case RollBackGrants => s.(grants := set d | d in s.grants && d.audience != r.k)
    case RollBackRow => s.(keys := s.keys - {r.k})
    case _ => s
  }

  predicate CanKeyDelete(s: State, id: nat, r: KeyDeletion, e: Event)
  {
    match e
    case LockAudience(k) => r.stage == BEGUN && k == r.k && Free(s, id, AudienceLock(k), Update)
    case Announce(_) => r.stage == LOCKED
    case CommitKeyDelete => r.stage == ANNOUNCED
    case _ => false
  }

  function DeletionNext(r: KeyDeletion, e: Event): Option<KeyDeletion> {
    match e
    case LockAudience(_) => Some(r.(stage := LOCKED))
    case Announce(_) => Some(r.(stage := ANNOUNCED))
    case _ => None
  }

  function DeletionTables(s: State, r: KeyDeletion, e: Event): State {
    match e
    case Announce(now) => s.(revoked := s.revoked + Links(Unexpired((set d | d in s.grants && d.audience == r.k), now)))
    case CommitKeyDelete => s.(grants := (set d | d in s.grants && d.audience != r.k), keys := s.keys - {r.k})
    case _ => s
  }

  predicate CanBucketDelete(s: State, id: nat, r: BucketDeletion, e: Event)
  {
    match e
    case TakeBucket => r.stage == BEGUN && Free(s, id, BucketLock(r.b), Update)
    case Announce(_) => r.stage == LOCKED
    case ListAudiences => r.stage == ANNOUNCED
    case LockAudience(k) => r.stage == AUDIENCES && k in r.listed && k !in r.auds && Free(s, id, AudienceLock(k), Update)
    case DeleteRows => r.stage == AUDIENCES && r.listed <= r.auds
    case CommitBucketDelete => r.stage == DOOMED && Free(s, id, BucketRow(r.b), Update) && Free(s, id, PolicyRow(r.b), Update)
    case _ => false
  }

  function DropNext(s: State, r: BucketDeletion, e: Event): Option<BucketDeletion> {
    match e
    case TakeBucket => Some(r.(stage := LOCKED))
    case Announce(_) => Some(r.(stage := ANNOUNCED))
    case ListAudiences => Some(r.(stage := AUDIENCES, listed := set d | d in s.grants && d.subject == r.b :: d.audience))
    case LockAudience(k) => Some(r.(auds := r.auds + {k}))
    case DeleteRows => Some(r.(stage := DOOMED, doomed := set d | d in s.grants && d.subject == r.b))
    case _ => None
  }

  function DropTables(s: State, r: BucketDeletion, e: Event): State {
    match e
    case Announce(now) => s.(revoked := s.revoked + Links(Unexpired((set d | d in s.grants && d.subject == r.b), now)))
    case CommitBucketDelete =>
      s.(grants := s.grants - r.doomed, buckets := s.buckets - {r.b}, policies := s.policies - {r.b})
    case _ => s
  }

  predicate CanInfo(s: State, id: nat, r: InfoRequest, e: Event)
  {
    match e
    case GetPrincipal => r.stage == BEGUN && Free(s, id, PrincipalRow(r.p), Share) && r.p in s.live
    case GetPolicy =>
      && r.stage == PRINCIPAL_READ && Free(s, id, BucketLock(r.b), Share) && Free(s, id, PolicyRow(r.b), Share)
      && EffectiveSet(Policy(s, r.b), r.p) != {}
    case ListGrant(d) => r.stage == POLICY_READ && d in Over(s.grants, r.k, r.b)
    case EndList => r.stage == POLICY_READ
    case AddChain(d) => r.stage == GRANTS_LISTED && r.stored != {} && d in Over(s.grants, r.k, r.b)
    case EndChains => r.stage == GRANTS_LISTED
    case Reread =>
      && r.stage == CHAINED && Free(s, id, BucketLock(r.b), Share) && Free(s, id, PolicyRow(r.b), Share)
      && TagOf(Policy(s, r.b)) == r.tag
    case ListAgain(d) => r.stage == SETTLED && d in Over(s.grants, r.k, r.b)
    case Answer => r.stage == SETTLED && r.again == r.stored
    case _ => false
  }

  function InfoNext(s: State, r: InfoRequest, e: Event): InfoRequest {
    match e
    case GetPrincipal => r.(stage := PRINCIPAL_READ)
    case GetPolicy => r.(stage := POLICY_READ, eff := EffectiveSet(Policy(s, r.b), r.p), tag := TagOf(Policy(s, r.b)))
    case ListGrant(d) => r.(stored := r.stored + {d})
    case EndList => r.(stage := GRANTS_LISTED)
    case AddChain(d) => r.(chained := r.chained + {d})
    case EndChains => r.(stage := CHAINED)
    case Reread => r.(stage := SETTLED, atPolicy := Policy(s, r.b), atGrants := s.grants)
    case ListAgain(d) => r.(again := r.again + {d})
    case Answer => r.(stage := ANSWERED)
    case _ => r
  }

  // ------------------------------------------------------------ the transition

  /** Call id may take event e in s. */
  ghost predicate Can(s: State, id: nat, e: Event) {
    if e.Begin? then id !in s.calls && CanBegin(s, e.call)
    else id in s.calls && (e.Fail? || forall c :: c == s.calls[id] ==> CanStep(s, id, c, e))
  }

  ghost predicate CanStep(s: State, id: nat, c: Call, e: Event) {
    match c
    case Writing(w) => if e.CommitWrite? then CanCommit(s, w, e.issued) else WriteCan(s, id, w, e)
    case Removing(r) => CanRemoval(s, id, r, e)
    case Creating(r) => CanKeyCreate(s, id, r, e)
    case Deleting(r) => CanKeyDelete(s, id, r, e)
    case Adding(r) =>
      || (e.TakeTenant? && r.stage == BEGUN && Free(s, id, TenantLock, Update))
      || (e.CommitAdd? && r.stage == TENANT && Free(s, id, PrincipalRow(r.p), NoKeyUpdate) && r.p !in s.live)
    case MakingBucket(b) =>
      || e.KeepBucket?
      || (e.UndoBucket? && Free(s, id, BucketRow(b), Update) && Free(s, id, PolicyRow(b), Update))
    case DroppingBucket(r) => CanBucketDelete(s, id, r, e)
    case Asking(r) => CanInfo(s, id, r, e)
  }

  /** Where the step leaves the call: its next program counter, or none when
      the call has returned. */
  function NextCall(s: State, c: Call, e: Event): Option<Call> {
    match c
    case Writing(w) => if e.CommitWrite? then None else Some(Writing(WriteDo(s, w, e)))
    case Removing(r) =>
      var n := RemovalNext(s, r, e);
      if n.None? then None else Some(Removing(n.value))
    case Creating(r) =>
      var n := CreationNext(s, r, e);
      if n.None? then None else Some(Creating(n.value))
    case Deleting(r) =>
      var n := DeletionNext(r, e);
      if n.None? then None else Some(Deleting(n.value))
    case Adding(r) => if e.TakeTenant? then Some(Adding(r.(stage := TENANT))) else None
    case MakingBucket(_) => None
    case DroppingBucket(r) =>
      var n := DropNext(s, r, e);
      if n.None? then None else Some(DroppingBucket(n.value))
    case Asking(r) => Some(Asking(InfoNext(s, r, e)))
  }

  /** What the step commits or publishes. */
  function Tables(s: State, c: Call, e: Event): State {
    match c
    case Writing(w) =>
      if e.CommitWrite? then Committed(s, w, e.issued)
      else if e.Announce? then s.(revoked := s.revoked + Links(Unexpired(Replaced(s, w), e.now)))
      else s
    case Removing(r) => RemovalTables(s, r, e)
    case Creating(r) => CreationTables(s, r, e)
    case Deleting(r) => DeletionTables(s, r, e)
    case Adding(r) => if e.CommitAdd? then s.(live := s.live + {r.p}) else s
    case MakingBucket(b) => if e.UndoBucket? then s.(buckets := s.buckets - {b}, policies := s.policies - {b}) else s
    case DroppingBucket(r) => DropTables(s, r, e)
    case Asking(_) => s
  }

  /** The state after the call's step. */
  function Do(s: State, id: nat, e: Event): State {
    if e.Begin? then Started(s, id, e.call)
    else if id !in s.calls then s
    else if e.Fail? then Failed(s, id, s.calls[id])
    else
      var c := NextCall(s, s.calls[id], e);
      Tables(s, s.calls[id], e).(calls := if c.None? then s.calls - {id} else s.calls[id := c.value])
  }

  /** A call that fails rolls its transaction back; what it published stays
      published, and a removal stays unfinished. */
  function Failed(s: State, id: nat, c: Call): State {
    var n := s.(calls := s.calls - {id});
    if c.Removing? then n.(unfinished := s.unfinished + {c.removal.p}) else n
  }

  /** One step of some call. */
  ghost predicate Next(s: State, n: State) {
    exists id, e :: Can(s, id, e) && n == Do(s, id, e)
  }

  /** A run: any interleaving of any calls, from an empty tenant. */
  ghost predicate Run(states: seq<State>) {
    && |states| > 0
    && states[0] == INITIAL
    && forall i :: 0 <= i < |states| - 1 ==> Next(states[i], states[i + 1])
  }

  ghost predicate Reachable(s: State) {
    exists states :: Run(states) && states[|states| - 1] == s
  }
}
