/** What a credential may do (pkg/rpc/service/auth/auth.go), its agreement with
    the local mirror, and why an authorized request has proofs
    (pkg/rpc/authorize.go). */
module Authorization {
  import opened Common
  import opened BucketPolicy
  import opened Permissions
  import opened Delegations
  import opened KeyStore
  import opened BucketStore
  import opened Operations
  import opened RequestLaws
  import opened Tenancy
  import opened ProofChain

  /** The rows an authorization reads, share-locked, and the provider the
      request came through. */
  datatype Rows = Rows(
    live: set<PrincipalId>,
    policies: map<Did, Document>,
    buckets: Buckets,
    provider: Did)

  predicate HasName(rows: Rows, name: string) {
    exists b :: b in rows.buckets && rows.buckets[b].name == name
  }

  /** The bucket of a name; names are unique. */
  function ByName(rows: Rows, name: string): BucketRecord
    requires BucketStore.WellFiled(rows.buckets) && HasName(rows, name)
    ensures Stored(rows.buckets, ByName(rows, name)) && ByName(rows, name).name == name
  {
    var b :| b in rows.buckets && rows.buckets[b].name == name;
    rows.buckets[b]
  }

  function ResolveBucket(rows: Rows, tenant: Did, name: string): Result<BucketRecord>
    requires BucketStore.WellFiled(rows.buckets)
  {
    if !HasName(rows, name) then Err(UnknownBucket)
    else if ByName(rows, name).tenant != tenant then Err(ForeignBucket)
    else Ok(ByName(rows, name))
  }

  function AssertServedBy(rows: Rows, b: BucketRecord): Result<BucketRecord> {
    if b.provider == rows.provider then Ok(b) else Err(RegionMismatch)
  }

  function ResolveInScope(rows: Rows, rec: KeyRecord, name: string): Result<BucketRecord>
    requires BucketStore.WellFiled(rows.buckets)
  {
    var b := ResolveBucket(rows, rec.tenant, name);
    if b.Err? then b
    else if rec.buckets != [] && b.value.id !in rec.buckets then Err(BucketNotPermitted)
    else AssertServedBy(rows, b.value)
  }

  function EffectiveOn(rows: Rows, p: PrincipalId, b: Did): set<string> {
    EffectiveSet(if b in rows.policies then Some(rows.policies[b]) else None, p)
  }

  /** The bucket, when the principal holds every one of perms on it. An empty
      effective set reads as an unknown bucket. */
  function PrincipalAccess(rows: Rows, tenant: Did, p: PrincipalId, name: string, perms: seq<string>): Result<BucketRecord>
    requires BucketStore.WellFiled(rows.buckets)
  {
    var b := ResolveBucket(rows, tenant, name);
    if b.Err? then b
    else if EffectiveOn(rows, p, b.value.id) == {} then Err(UnknownBucket)
    else if !(Elements(perms) <= EffectiveOn(rows, p, b.value.id)) then Err(OperationNotPermitted)
    else AssertServedBy(rows, b.value)
  }

  /** The operations no policy grants, whatever it says. */
  predicate NoPolicyGrants(op: Operation) {
    || op == CreateBucket || op == DeleteBucket
    || (op.Subresource? && op.name in {
         "GetBucketPolicy", "PutBucketPolicy", "DeleteBucketPolicy", "GetBucketPolicyStatus",
         "GetBucketEncryption", "PutBucketEncryption", "DeleteBucketEncryption",
         "PutBucketTagging", "DeleteBucketTagging", "PutBucketVersioning", "PutObjectLockConfiguration",
         "PutBucketCors", "DeleteBucketCors"})
  }

  /** What an authorization resolves: the addressed bucket and the copy's
      source. */
  datatype Granted = Granted(bucket: Option<BucketRecord>, source: Option<BucketRecord>)

  /** authorizeOperation for a service key: its own permissions, within its
      scope. */
  function AuthorizeService(rows: Rows, rec: KeyRecord, c: Classification): Result<Granted>
    requires BucketStore.WellFiled(rows.buckets)
  {
    if !(Elements(PermissionsOf(c)) <= Elements(rec.permissions)) then Err(OperationNotPermitted)
    else if !AddressesExistingBucket(c.op) then Ok(Granted(None, None))
    else
      var b := ResolveInScope(rows, rec, c.bucket);
      if b.Err? then Err(b.error)
      else if !CopiesSource(c.op) || c.source.None? then Ok(Granted(Some(b.value), None))
      else if SourcePermission(c) !in rec.permissions then Err(OperationNotPermitted)
      else if c.source.value.bucket == c.bucket then Ok(Granted(Some(b.value), Some(b.value)))
      else
        var s := ResolveInScope(rows, rec, c.source.value.bucket);
        if s.Err? then Err(s.error) else Ok(Granted(Some(b.value), Some(s.value)))
  }

  /** authorizeOperation for a key bound to p: p's effective set on each
      bucket. */
  function AuthorizePrincipal(rows: Rows, tenant: Did, p: PrincipalId, c: Classification): Result<Granted>
    requires BucketStore.WellFiled(rows.buckets)
  {
    if p !in rows.live then Err(UnknownAccessKey)
    else if c.op == ListBuckets then Ok(Granted(None, None))
    else if NoPolicyGrants(c.op) then Err(OperationNotPermitted)
    else
      var b := PrincipalAccess(rows, tenant, p, c.bucket, PermissionsOf(c));
      if b.Err? then Err(b.error)
      else if !CopiesSource(c.op) || c.source.None? then Ok(Granted(Some(b.value), None))
      else if c.source.value.bucket == c.bucket then
        if SourcePermission(c) !in EffectiveOn(rows, p, b.value.id) then Err(OperationNotPermitted)
        else Ok(Granted(Some(b.value), Some(b.value)))
      else
        var s := PrincipalAccess(rows, tenant, p, c.source.value.bucket, [SourcePermission(c)]);
        if s.Err? then Err(s.error) else Ok(Granted(Some(b.value), Some(s.value)))
  }

  function AuthorizeOperation(rows: Rows, rec: KeyRecord, c: Classification): Result<Granted>
    requires BucketStore.WellFiled(rows.buckets)
  {
    if rec.principal.None? then AuthorizeService(rows, rec, c)
    else AuthorizePrincipal(rows, rec.tenant, rec.principal.value, c)
  }

  // ------------------------------------------------------------ the local mirror

  /** The credential holds the required permission on the bucket: a service key
      among its permissions and within its scope, a principal-bound key in the
      principal's effective set. */
  predicate Satisfied(rows: Rows, rec: KeyRecord, q: Requirement)
    requires BucketStore.WellFiled(rows.buckets)
  {
    && HasName(rows, q.bucket)
    && var b := ByName(rows, q.bucket);
       if rec.principal.None? then q.permission in rec.permissions && (rec.buckets == [] || b.id in rec.buckets)
       else q.permission in EffectiveOn(rows, rec.principal.value, b.id)
  }

  /** The bucket exists, is the tenant's, and is served by the provider. */
  ghost predicate Reachable(rows: Rows, tenant: Did, name: string)
    requires BucketStore.WellFiled(rows.buckets)
  {
    HasName(rows, name) && ByName(rows, name).tenant == tenant && ByName(rows, name).provider == rows.provider
  }

  /** The operations that create or delete a bucket, read or write its policy, or
      change its configuration for everyone. */
  ghost predicate OwnersOnly(op: Operation) {
    || op == CreateBucket || op == DeleteBucket
    || op == Subresource("GetBucketPolicy") || op == Subresource("PutBucketPolicy") || op == Subresource("DeleteBucketPolicy")
    || op == Subresource("GetBucketPolicyStatus")
    || op == Subresource("GetBucketEncryption") || op == Subresource("PutBucketEncryption") || op == Subresource("DeleteBucketEncryption")
    || op == Subresource("PutBucketTagging") || op == Subresource("DeleteBucketTagging")
    || op == Subresource("PutBucketVersioning") || op == Subresource("PutObjectLockConfiguration")
    || op == Subresource("PutBucketCors") || op == Subresource("DeleteBucketCors")
  }

  /** No principal does them, whatever the policies say. */
  lemma NeverByPolicy(rows: Rows, rec: KeyRecord, r: Request)
    requires BucketStore.WellFiled(rows.buckets) && rec.principal.Some? && Authorize(rows, rec, r).Allowed?
    ensures !OwnersOnly(Authorize(rows, rec, r).op)
  {}

  /** Policies name policy actions only, and none of those stands for an
      operation no policy grants. */
  ghost predicate WellFormed(rows: Rows) {
    && (forall b, st :: b in rows.policies && st in rows.policies[b].statements ==> st.actions <= POLICY_ACTIONS + {POLICY_WILDCARD})
    && forall op :: OwnersOnly(op) ==> Permission(op) !in POLICY_ACTIONS
  }

  lemma NothingBeyondActions(rows: Rows, p: PrincipalId, b: Did)
    requires WellFormed(rows)
    ensures EffectiveOn(rows, p, b) <= POLICY_ACTIONS
  {
    forall a | a in EffectiveOn(rows, p, b) ensures a in POLICY_ACTIONS {
      var st :| st in rows.policies[b].statements && st.effect == Allow && st.Names(p) && a in Expand(st.actions);
    }
  }

  /** The local mirror is exact: on an operation that addresses an existing
      bucket, with every bucket it names reachable, the authorizer admits the
      credential exactly when every pair RequirementsFor returns is satisfied.
      Both decide on the same trusted classification. */
  lemma MirrorExact(rows: Rows, rec: KeyRecord, c: Classification)
    requires BucketStore.WellFiled(rows.buckets) && WellFormed(rows) && AddressesExistingBucket(c.op)
    requires Reachable(rows, rec.tenant, c.bucket)
    requires c.source.Some? ==> Reachable(rows, rec.tenant, c.source.value.bucket)
    requires rec.principal.Some? ==> rec.principal.value in rows.live
    ensures AuthorizeOperation(rows, rec, c).Ok? <==> forall q :: q in Requirements(c) ==> Satisfied(rows, rec, q)
  {
    RequirementsSplit(c);
    if rec.principal.None? { ServiceMirror(rows, rec, c); } else { PrincipalMirror(rows, rec, c); }
  }

  /** The pairs required: each permission on the addressed bucket, and the
      source's on the source. */
  lemma RequirementsSplit(c: Classification)
    requires AddressesExistingBucket(c.op)
    ensures forall q :: q in Requirements(c) <==>
      (q.bucket == c.bucket && q.permission in PermissionsOf(c))
      || (CopiesSource(c.op) && c.source.Some? && q == Requirement(c.source.value.bucket, SourcePermission(c)))
  {
    forall q { RequirementsSplitAt(c, q); }
  }

  lemma ServiceMirror(rows: Rows, rec: KeyRecord, c: Classification)
    requires BucketStore.WellFiled(rows.buckets) && rec.principal.None? && AddressesExistingBucket(c.op)
    requires Reachable(rows, rec.tenant, c.bucket)
    requires c.source.Some? ==> Reachable(rows, rec.tenant, c.source.value.bucket)
    requires forall q :: q in Requirements(c) <==>
      (q.bucket == c.bucket && q.permission in PermissionsOf(c))
      || (CopiesSource(c.op) && c.source.Some? && q == Requirement(c.source.value.bucket, SourcePermission(c)))
    ensures AuthorizeService(rows, rec, c).Ok? <==> forall q :: q in Requirements(c) ==> Satisfied(rows, rec, q)
  {
    assert PermissionsOf(c)[0] in PermissionsOf(c);
    assert Requirement(c.bucket, PermissionsOf(c)[0]) in Requirements(c);
    if forall q :: q in Requirements(c) ==> Satisfied(rows, rec, q) {
      forall p | p in PermissionsOf(c) ensures p in rec.permissions { assert Requirement(c.bucket, p) in Requirements(c); }
      assert CopiesSource(c.op) && c.source.Some? ==> Requirement(c.source.value.bucket, SourcePermission(c)) in Requirements(c);
    }
    if AuthorizeService(rows, rec, c).Ok? {
      forall p | p in PermissionsOf(c) ensures p in rec.permissions { assert p in Elements(PermissionsOf(c)); }
    }
  }

  lemma PrincipalMirror(rows: Rows, rec: KeyRecord, c: Classification)
    requires BucketStore.WellFiled(rows.buckets) && WellFormed(rows) && AddressesExistingBucket(c.op)
    requires rec.principal.Some? && rec.principal.value in rows.live
    requires Reachable(rows, rec.tenant, c.bucket)
    requires c.source.Some? ==> Reachable(rows, rec.tenant, c.source.value.bucket)
    requires forall q :: q in Requirements(c) <==>
      (q.bucket == c.bucket && q.permission in PermissionsOf(c))
      || (CopiesSource(c.op) && c.source.Some? && q == Requirement(c.source.value.bucket, SourcePermission(c)))
    ensures AuthorizePrincipal(rows, rec.tenant, rec.principal.value, c).Ok? <==>
      forall q :: q in Requirements(c) ==> Satisfied(rows, rec, q)
  {
    var p := rec.principal.value;
    var b := ByName(rows, c.bucket).id;
    NothingBeyondActions(rows, p, b);
    assert PermissionsOf(c)[0] == Permission(c.op) && Permission(c.op) in PermissionsOf(c);
    assert Requirement(c.bucket, Permission(c.op)) in Requirements(c);
    if forall q :: q in Requirements(c) ==> Satisfied(rows, rec, q) {
      forall a | a in PermissionsOf(c) ensures a in EffectiveOn(rows, p, b) { assert Requirement(c.bucket, a) in Requirements(c); }
      if CopiesSource(c.op) && c.source.Some? {
        assert Requirement(c.source.value.bucket, SourcePermission(c)) in Requirements(c);
        assert Elements([SourcePermission(c)]) == {SourcePermission(c)};
      }
    }
    if AuthorizePrincipal(rows, rec.tenant, p, c).Ok? { PrincipalHolds(rows, rec.tenant, p, c); }
  }

  lemma PrincipalHolds(rows: Rows, tenant: Did, p: PrincipalId, c: Classification)
    requires BucketStore.WellFiled(rows.buckets) && AddressesExistingBucket(c.op) && HasName(rows, c.bucket)
    requires c.source.Some? ==> HasName(rows, c.source.value.bucket)
    requires AuthorizePrincipal(rows, tenant, p, c).Ok?
    ensures forall a :: a in PermissionsOf(c) ==> a in EffectiveOn(rows, p, ByName(rows, c.bucket).id)
    ensures CopiesSource(c.op) && c.source.Some? ==> SourcePermission(c) in EffectiveOn(rows, p, ByName(rows, c.source.value.bucket).id)
  {
    forall a | a in PermissionsOf(c) ensures a in Elements(PermissionsOf(c)) {}
    assert SourcePermission(c) in Elements([SourcePermission(c)]);
  }

  /** The authorizer's answer to a request: the request is unfit to decide on, the
      credential is refused, or the operation is admitted. */
  datatype Answer = Unfit(why: Refusal) | Denied(error: Error) | Allowed(op: Operation, granted: Granted)

  /** What Authorize decides once the signature is verified. */
  function Authorize(rows: Rows, rec: KeyRecord, r: Request): Answer
    requires BucketStore.WellFiled(rows.buckets)
  {
    var c := Trusted(r);
    if c.Refuse? then Unfit(c.why)
    else
      var g := AuthorizeOperation(rows, rec, c.value);
      if g.Err? then Denied(g.error) else Allowed(c.value.op, g.value)
  }

  /** An admitted operation's buckets are reachable. */
  lemma AdmittedReaches(rows: Rows, rec: KeyRecord, c: Classification)
    requires BucketStore.WellFiled(rows.buckets) && AddressesExistingBucket(c.op)
    requires AuthorizeOperation(rows, rec, c).Ok?
    ensures Reachable(rows, rec.tenant, c.bucket)
    ensures CopiesSource(c.op) && c.source.Some? ==> Reachable(rows, rec.tenant, c.source.value.bucket)
    ensures rec.principal.Some? ==> rec.principal.value in rows.live
  {}

  /** The mirror, request by request: it refuses exactly the requests the
      authorizer will not decide on, for the same reason. Of the others that
      address an existing bucket, the authorizer admits exactly those of a
      credential not yet removed for which every pair the mirror returns is
      satisfied, on a bucket of the tenant's that the provider serves. Listing and
      creating buckets, for which the mirror returns no pair, it admits for a
      service key that holds every permission the request asks, and for a principal
      not yet removed that lists; they resolve no bucket. */
  lemma MirrorOfRequest(rows: Rows, rec: KeyRecord, r: Request)
    requires BucketStore.WellFiled(rows.buckets) && WellFormed(rows)
    ensures match RequirementsFor(r)
      case Refuse(why) => Authorize(rows, rec, r) == Unfit(why)
      case Accept(need) =>
        && !Authorize(rows, rec, r).Unfit?
        && (Authorize(rows, rec, r).Allowed? ==> Authorize(rows, rec, r).op == need.0)
        && if need.0 != ListBuckets && need.0 != CreateBucket then
             Authorize(rows, rec, r).Allowed? <==>
               && (rec.principal.Some? ==> rec.principal.value in rows.live)
               && forall q :: q in need.1 ==> Reachable(rows, rec.tenant, q.bucket) && Satisfied(rows, rec, q)
           else
             && (Authorize(rows, rec, r).Allowed? ==> Authorize(rows, rec, r).granted == Granted(None, None))
             && (Authorize(rows, rec, r).Allowed? <==>
                  match rec.principal
                  case None => forall p :: Asks(r, need.0, p) ==> p in rec.permissions
                  case Some(p) => need.0 == ListBuckets && p in rows.live)
  {
    MirrorsTrusted(r);
    if Trusted(r).Accept? {
      if AddressesExistingBucket(Trusted(r).value.op) {
        SourceIsCopied(r, Trusted(r).value);
        ClassificationMirror(rows, rec, Trusted(r).value);
      } else {
        BucketlessMirror(rows, rec, r, Trusted(r).value);
      }
    }
  }

  lemma BucketlessMirror(rows: Rows, rec: KeyRecord, r: Request, c: Classification)
    requires BucketStore.WellFiled(rows.buckets) && !AddressesExistingBucket(c.op) && Trusted(r) == Accept(c)
    ensures AuthorizeOperation(rows, rec, c).Ok? ==> AuthorizeOperation(rows, rec, c).value == Granted(None, None)
    ensures AuthorizeOperation(rows, rec, c).Ok? <==>
      match rec.principal
      case None => forall p :: Asks(r, c.op, p) ==> p in rec.permissions
      case Some(p) => c.op == ListBuckets && p in rows.live
  {
    forall p ensures p in Elements(PermissionsOf(c)) <==> Asks(r, c.op, p) { RequirementsAre(r, c, Requirement("", p)); }
  }

  /** What is admitted is resolved by name: the bucket the request addresses and,
      for a copy, the source's. */
  lemma GrantedAreNamed(rows: Rows, rec: KeyRecord, r: Request)
    requires BucketStore.WellFiled(rows.buckets) && Authorize(rows, rec, r).Allowed?
    ensures var a := Authorize(rows, rec, r);
      && (a.op != ListBuckets && a.op != CreateBucket ==> HasName(rows, r.bucket) && a.granted.bucket == Some(ByName(rows, r.bucket)))
      && (a.op == CopyObject || a.op == UploadPartCopy ==>
           exists src :: Copies(r, src) && HasName(rows, src.bucket) && a.granted.source == Some(ByName(rows, src.bucket)))
      && (a.op != CopyObject && a.op != UploadPartCopy ==> a.granted.source == None)
  {
    TrustedFits(r, Trusted(r).value);
    ClassifiedIs(r, "", "");
    ResolvedByName(rows, rec, Trusted(r).value);
  }

  lemma ResolvedByName(rows: Rows, rec: KeyRecord, c: Classification)
    requires BucketStore.WellFiled(rows.buckets) && AuthorizeOperation(rows, rec, c).Ok?
    requires c.source.Some? <==> CopiesSource(c.op)
    ensures var g := AuthorizeOperation(rows, rec, c).value;
      && (AddressesExistingBucket(c.op) ==> HasName(rows, c.bucket) && g.bucket == Some(ByName(rows, c.bucket)))
      && (CopiesSource(c.op) ==> HasName(rows, c.source.value.bucket) && g.source == Some(ByName(rows, c.source.value.bucket)))
      && (!CopiesSource(c.op) ==> g.source == None)
  {}


  /** Why a bucket is refused a service key, asked in this order: it is unknown,
      another tenant's, outside the key's scope, or served elsewhere. */
  ghost function BucketRefusal(rows: Rows, rec: KeyRecord, name: string): Option<Error> {
    if !exists b :: b in rows.buckets && rows.buckets[b].name == name then Some(UnknownBucket)
    else if !exists b :: b in rows.buckets && rows.buckets[b].name == name && rows.buckets[b].tenant == rec.tenant then Some(ForeignBucket)
    else if rec.buckets != [] && !exists b :: b in rec.buckets && b in rows.buckets && rows.buckets[b].name == name then Some(BucketNotPermitted)
    else if !exists b :: b in rows.buckets && rows.buckets[b].name == name && rows.buckets[b].provider == rows.provider then Some(RegionMismatch)
    else None
  }

  /** Why one is refused a principal that needs perms there: it is unknown, or the
      principal holds nothing on it, which reads the same; another tenant's; one it
      holds too little on; or served elsewhere. */
  ghost function AccessRefusal(rows: Rows, tenant: Did, p: PrincipalId, name: string, perms: set<string>): Option<Error> {
    if !exists b :: b in rows.buckets && rows.buckets[b].name == name then Some(UnknownBucket)
    else if !exists b :: b in rows.buckets && rows.buckets[b].name == name && rows.buckets[b].tenant == tenant then Some(ForeignBucket)
    else if !exists b :: b in rows.buckets && rows.buckets[b].name == name && EffectiveOn(rows, p, b) != {} then Some(UnknownBucket)
    else if !exists b :: b in rows.buckets && rows.buckets[b].name == name && perms <= EffectiveOn(rows, p, b) then Some(OperationNotPermitted)
    else if !exists b :: b in rows.buckets && rows.buckets[b].name == name && rows.buckets[b].provider == rows.provider then Some(RegionMismatch)
    else None
  }

  function ReadOf(src: Source): string {
    if src.version != "" then "s3:GetObjectVersion" else "s3:GetObject"
  }

  /** Why an operation is refused a service key: first a permission it lacks, then
      the bucket; and for a copy, the source's permission and its bucket. */
  lemma ServiceRefusal(rows: Rows, rec: KeyRecord, r: Request)
    requires BucketStore.WellFiled(rows.buckets) && rec.principal.None? && Authorize(rows, rec, r).Denied?
    ensures var op, why := RequirementsFor(r).value.0, Authorize(rows, rec, r).error;
      if exists p :: Asks(r, op, p) && p !in rec.permissions then why == OperationNotPermitted
      else if BucketRefusal(rows, rec, r.bucket).Some? then BucketRefusal(rows, rec, r.bucket) == Some(why)
      else
        exists src :: Copies(r, src)
          && (if ReadOf(src) !in rec.permissions then why == OperationNotPermitted else BucketRefusal(rows, rec, src.bucket) == Some(why))
  {
    var c := Trusted(r).value;
    TrustedFits(r, c);
    ClassifiedIs(r, "", "");
    forall p ensures p in Elements(PermissionsOf(c)) <==> Asks(r, c.op, p) { RequirementsAre(r, c, Requirement("", p)); }
    ScopeRefusal(rows, rec, r.bucket);
    if c.source.Some? { ScopeRefusal(rows, rec, c.source.value.bucket); }
  }

  lemma ScopeRefusal(rows: Rows, rec: KeyRecord, name: string)
    requires BucketStore.WellFiled(rows.buckets)
    ensures match BucketRefusal(rows, rec, name)
      case None => ResolveInScope(rows, rec, name).Ok?
      case Some(e) => ResolveInScope(rows, rec, name) == Err(e)
  {
    if HasName(rows, name) { NamedOnce(rows, name); }
  }

  lemma NamedOnce(rows: Rows, name: string)
    requires BucketStore.WellFiled(rows.buckets) && HasName(rows, name)
    ensures forall b :: b in rows.buckets && rows.buckets[b].name == name <==> b == ByName(rows, name).id
    ensures ByName(rows, name) == rows.buckets[ByName(rows, name).id]
  {}

  lemma AccessRefused(rows: Rows, tenant: Did, p: PrincipalId, name: string, perms: seq<string>)
    requires BucketStore.WellFiled(rows.buckets)
    ensures match AccessRefusal(rows, tenant, p, name, Elements(perms))
      case None => PrincipalAccess(rows, tenant, p, name, perms).Ok?
      case Some(e) => PrincipalAccess(rows, tenant, p, name, perms) == Err(e)
  {
    if HasName(rows, name) { NamedOnce(rows, name); }
  }

  /** Why one is refused a principal's key: the principal is gone, no policy grants
      the operation, the bucket; and for a copy, the source's bucket. */
  lemma PrincipalRefusal(rows: Rows, rec: KeyRecord, r: Request)
    requires BucketStore.WellFiled(rows.buckets) && rec.principal.Some? && Authorize(rows, rec, r).Denied?
    ensures var op, why, p := RequirementsFor(r).value.0, Authorize(rows, rec, r).error, rec.principal.value;
      var asked := Elements(PermissionsOf(Trusted(r).value));
      && (forall a :: a in asked <==> Asks(r, op, a))
      && if p !in rows.live then why == UnknownAccessKey
         else if OwnersOnly(op) then why == OperationNotPermitted
         else if AccessRefusal(rows, rec.tenant, p, r.bucket, asked).Some? then AccessRefusal(rows, rec.tenant, p, r.bucket, asked) == Some(why)
         else exists src :: Copies(r, src) && AccessRefusal(rows, rec.tenant, p, src.bucket, {ReadOf(src)}) == Some(why)
  {
    var c := Trusted(r).value;
    TrustedFits(r, c);
    ClassifiedIs(r, "", "");
    forall a ensures a in Elements(PermissionsOf(c)) <==> Asks(r, c.op, a) { RequirementsAre(r, c, Requirement("", a)); }
    AccessDenied(rows, rec.tenant, rec.principal.value, c);
  }

  lemma AccessDenied(rows: Rows, tenant: Did, p: PrincipalId, c: Classification)
    requires BucketStore.WellFiled(rows.buckets) && AuthorizePrincipal(rows, tenant, p, c).Err?
    requires c.source.Some? <==> CopiesSource(c.op)
    ensures var why, asked := AuthorizePrincipal(rows, tenant, p, c).error, Elements(PermissionsOf(c));
      if p !in rows.live then why == UnknownAccessKey
      else if OwnersOnly(c.op) then why == OperationNotPermitted
      else if AccessRefusal(rows, tenant, p, c.bucket, asked).Some? then AccessRefusal(rows, tenant, p, c.bucket, asked) == Some(why)
      else c.source.Some? && AccessRefusal(rows, tenant, p, c.source.value.bucket, {ReadOf(c.source.value)}) == Some(why)
  {
    AccessRefused(rows, tenant, p, c.bucket, PermissionsOf(c));
    if c.source.Some? { SourceRefused(rows, tenant, p, c); }
  }

  /** A source in the addressed bucket is asked for there. */
  lemma SourceRefused(rows: Rows, tenant: Did, p: PrincipalId, c: Classification)
    requires BucketStore.WellFiled(rows.buckets) && c.source.Some?
    ensures var src := c.source.value;
      && SourcePermission(c) == ReadOf(src)
      && match AccessRefusal(rows, tenant, p, src.bucket, {ReadOf(src)})
         case None => PrincipalAccess(rows, tenant, p, src.bucket, [SourcePermission(c)]).Ok?
         case Some(e) => PrincipalAccess(rows, tenant, p, src.bucket, [SourcePermission(c)]) == Err(e)
  {
    assert Elements([SourcePermission(c)]) == {SourcePermission(c)};
    AccessRefused(rows, tenant, p, c.source.value.bucket, [SourcePermission(c)]);
  }


  lemma ClassificationMirror(rows: Rows, rec: KeyRecord, c: Classification)
    requires BucketStore.WellFiled(rows.buckets) && WellFormed(rows) && AddressesExistingBucket(c.op)
    requires c.source.Some? ==> CopiesSource(c.op)
    ensures AuthorizeOperation(rows, rec, c).Ok? <==>
      && (rec.principal.Some? ==> rec.principal.value in rows.live)
      && forall q :: q in Requirements(c) ==> Reachable(rows, rec.tenant, q.bucket) && Satisfied(rows, rec, q)
  {
    RequirementsSplit(c);
    if AuthorizeOperation(rows, rec, c).Ok? {
      AdmittedReaches(rows, rec, c);
      MirrorExact(rows, rec, c);
    } else if && (rec.principal.Some? ==> rec.principal.value in rows.live)
              && forall q :: q in Requirements(c) ==> Reachable(rows, rec.tenant, q.bucket) {
      RequiresBuckets(rows, rec, c);
      MirrorExact(rows, rec, c);
    }
  }

  lemma RequiresBuckets(rows: Rows, rec: KeyRecord, c: Classification)
    requires BucketStore.WellFiled(rows.buckets) && AddressesExistingBucket(c.op) && (c.source.Some? ==> CopiesSource(c.op))
    requires forall q :: q in Requirements(c) ==> Reachable(rows, rec.tenant, q.bucket)
    ensures Reachable(rows, rec.tenant, c.bucket) && (c.source.Some? ==> Reachable(rows, rec.tenant, c.source.value.bucket))
  {
    RequirementsSplit(c);
    assert PermissionsOf(c)[0] in PermissionsOf(c);
    assert Requirement(c.bucket, PermissionsOf(c)[0]) in Requirements(c);
    assert c.source.Some? ==> Requirement(c.source.value.bucket, SourcePermission(c)) in Requirements(c);
  }


  // -------------------------------------------------- what a refusal gives away

  /** A bucket a principal can do nothing on is refused exactly as one that does
      not exist. */
  lemma HiddenLikeMissing(rows: Rows, rec: KeyRecord, c: Classification, missing: string)
    requires BucketStore.WellFiled(rows.buckets) && rec.principal.Some?
    requires HasName(rows, c.bucket) && ByName(rows, c.bucket).tenant == rec.tenant && !HasName(rows, missing)
    requires EffectiveOn(rows, rec.principal.value, ByName(rows, c.bucket).id) == {} && c.op != ListBuckets
    ensures AuthorizeOperation(rows, rec, c) == AuthorizeOperation(rows, rec, c.(bucket := missing))
    ensures AuthorizeOperation(rows, rec, c).Err?
  {
    var p := rec.principal.value;
    var hidden := c.(bucket := missing);
    assert PermissionsOf(hidden) == PermissionsOf(c) && NoPolicyGrants(hidden.op) == NoPolicyGrants(c.op);
    assert PrincipalAccess(rows, rec.tenant, p, c.bucket, PermissionsOf(c)) == Err(UnknownBucket);
    assert PrincipalAccess(rows, rec.tenant, p, missing, PermissionsOf(c)) == Err(UnknownBucket);
  }

  /** Only a caller that holds everything the operation needs on the addressed
      bucket is told that another region serves it, or its source. */
  lemma RegionAskedLast(rows: Rows, rec: KeyRecord, c: Classification, perm: string)
    requires BucketStore.WellFiled(rows.buckets) && AuthorizeOperation(rows, rec, c) == Err(RegionMismatch)
    requires perm in PermissionsOf(c)
    ensures Satisfied(rows, rec, Requirement(c.bucket, perm))
  {
    assert perm in Elements(PermissionsOf(c));
  }

  // --------------------------------------------------- authorized means provable

  /** The tables hold the rows the authorization read. */
  ghost predicate Reads(t: Tables, rows: Rows) {
    && rows.live == t.live && rows.policies == t.policies && rows.buckets.Keys == t.buckets
    && BucketStore.WellFiled(rows.buckets)
  }

  /** A key holding a command over a bucket, or over every bucket, has a chain to
      the bucket's root: the root delegation, then the grant. */
  lemma GrantHasChain(t: Tables, k: Did, b: Did, over: Did, cmd: Command)
    requires Inv(t) && k in t.keys && b in t.buckets && (over == b || over == UNDEF)
    requires cmd in Held(t.grants, k, over)
    ensures HasChain(t.grants, k, cmd, b)
  {
    Whole(t);
    assert Rooted(t, b);
    var root :| root in t.grants && IsRoot(root, t.tenant, b);
    var d :| d in Over(t.grants, k, over) && d.command == cmd;
    assert d.issuer == t.tenant by { assert k in t.usedKeys && t.tenant !in t.usedKeys; }
    TwoLinks(t.grants, t.tenant, k, cmd, b, root, d);
  }

  lemma TwoLinks(rows: set<Delegation>, tenant: Did, k: Did, cmd: Command, b: Did, root: Delegation, d: Delegation)
    requires root in rows && IsRoot(root, tenant, b)
    requires d in rows && d.issuer == tenant && d.audience == k && OverSubject(d, b) && d.command == cmd
    ensures HasChain(rows, k, cmd, b)
  {
    assert IsChain(rows, k, cmd, b, [root, d]);
  }

  /** What a permission stands for, its holder holds. */
  lemma PermissionHeld(t: Tables, k: Did, b: Did, perm: string, cmd: Command)
    requires Inv(t) && k in t.keys && b in t.buckets && !Unsettled(t, t.keys[k])
    requires var rec := t.keys[k];
      if rec.principal.Some? then perm in EffectiveSet(PolicyOf(t, b), rec.principal.value)
      else perm in rec.permissions && (rec.buckets == [] || b in rec.buckets)
    requires cmd in CommandsOf(perm)
    ensures HasChain(t.grants, k, cmd, b)
  {
    Whole(t);
    var rec := t.keys[k];
    if rec.principal.Some? || rec.buckets != [] {
      assert Held(t.grants, k, b) == KeyRequires(t, rec, b);
      GrantHasChain(t, k, b, b, cmd);
    } else {
      assert Held(t.grants, k, UNDEF) == KeyRequires(t, rec, UNDEF);
      GrantHasChain(t, k, b, UNDEF, cmd);
    }
  }

  /** Authorized implies provable: when the authorizer admits a key, of either
      kind, every command of the operation's permission has a proof chain from
      the key to the addressed bucket's root, and every command of the source's
      permission one to the source bucket's. */
  lemma AuthorizedImpliesProvable(t: Tables, rows: Rows, k: Did, c: Classification, cmd: Command)
    requires Inv(t) && Reads(t, rows) && k in t.keys && !Unsettled(t, t.keys[k])
    requires AuthorizeOperation(rows, t.keys[k], c).Ok?
    ensures var g := AuthorizeOperation(rows, t.keys[k], c).value;
      && (g.bucket.Some? && cmd in CommandsOf(Permission(c.op)) ==> HasChain(t.grants, k, cmd, g.bucket.value.id))
      && (g.source.Some? && cmd in CommandsOf(SourcePermission(c)) ==> HasChain(t.grants, k, cmd, g.source.value.id))
  {
    var rec := t.keys[k];
    var g := AuthorizeOperation(rows, rec, c).value;
    AdmittedHolds(rows, rec, c);
    if g.bucket.Some? && cmd in CommandsOf(Permission(c.op)) { PermissionHeld(t, k, g.bucket.value.id, Permission(c.op), cmd); }
    if g.source.Some? && cmd in CommandsOf(SourcePermission(c)) { PermissionHeld(t, k, g.source.value.id, SourcePermission(c), cmd); }
  }

  /** An admitted credential holds the permissions on the very buckets
      resolved. */
  lemma AdmittedHolds(rows: Rows, rec: KeyRecord, c: Classification)
    requires BucketStore.WellFiled(rows.buckets) && AuthorizeOperation(rows, rec, c).Ok?
    ensures var g := AuthorizeOperation(rows, rec, c).value;
      && (g.bucket.Some? ==> HoldsOn(rows, rec, g.bucket.value, Permission(c.op)))
      && (g.source.Some? ==> HoldsOn(rows, rec, g.source.value, SourcePermission(c)))
  {
    assert PermissionsOf(c)[0] == Permission(c.op);
    assert Permission(c.op) in Elements(PermissionsOf(c));
    assert SourcePermission(c) in Elements([SourcePermission(c)]);
  }

  predicate HoldsOn(rows: Rows, rec: KeyRecord, b: BucketRecord, perm: string) {
    && Stored(rows.buckets, b)
    && if rec.principal.Some? then perm in EffectiveOn(rows, rec.principal.value, b.id)
       else perm in rec.permissions && (rec.buckets == [] || b.id in rec.buckets)
  }

  // -------------------------------------------------- the request's delegations

  /** issuePermissionDelegations: the key re-delegates each command of the
      permission to the gateway. */
  method IssuePermissionDelegations(source: LinkSource, key: Did, gateway: Did, bucket: Did, perm: string, expires: nat)
    returns (dels: seq<Delegation>)
    requires source.Valid() && bucket != UNDEF
    modifies source
    ensures source.Valid()
    ensures IssuedFor(dels, key, gateway, {bucket}, Elements(CommandsOf(perm)))
    ensures forall d :: d in dels ==> d.link !in old(source.minted) && d.expires == Some(expires)
  {
    dels := Issue(source, key, gateway, [bucket], [perm], Some(expires));
    assert Elements([bucket]) == {bucket} && Elements([perm]) == {perm};
    assert CommandSet({perm}) == Elements(CommandsOf(perm));
  }

  /** What the gateway is handed works: each re-delegated command extends the
      key's chain to one from the gateway to the bucket's root. */
  lemma GatewayCanProve(rows: set<Delegation>, dels: seq<Delegation>, key: Did, gateway: Did, b: Did, perm: string, d: Delegation)
    requires IssuedFor(dels, key, gateway, {b}, Elements(CommandsOf(perm)))
    requires forall cmd :: cmd in CommandsOf(perm) ==> HasChain(rows, key, cmd, b)
    requires d in dels
    ensures HasChain(rows + Elements(dels), gateway, d.command, b)
  {
    assert d.command in CommandsOf(perm);
    var ps :| IsChain(rows, key, d.command, b, ps);
    var longer := ps + [d];
    forall i | 0 <= i < |longer| - 1
      ensures longer[i].audience == longer[i + 1].issuer && Proves(longer[i].command, longer[i + 1].command)
    {
      if i == |ps| - 1 { assert longer[i] == ps[|ps| - 1] && longer[i + 1] == d; }
    }
    assert IsChain(rows + Elements(dels), gateway, d.command, b, longer);
  }
}
