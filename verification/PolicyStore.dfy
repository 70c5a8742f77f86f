/** The in-memory bucket policy store with its principal index
    (pkg/store/bucketpolicy/memory/store.go). */
module PolicyStore {
  import opened Common
  import opened Order
  import opened BucketPolicy

  datatype Record = Record(bucket: Did, policy: Document, etag: Tag)

  /** A stored policy with its index: the principals it names, and whether it
      names the wildcard. */
  datatype Entry = Entry(tenant: Did, rec: Record, named: set<PrincipalId>, wildcard: bool)

  /** A write's precondition: none, the current tag, or no current policy. */
  datatype Input = Input(bucket: Did, tenant: Did, policy: Document, conditional: bool, ifMatch: Option<Tag>)

  predicate Precondition(x: Input, current: Option<Record>) {
    x.conditional ==>
      if x.ifMatch.None? then current.None? else current.Some? && current.value.etag == x.ifMatch.value
  }

  function Documents(entries: map<Did, Entry>): map<Did, Document> {
    map b | b in entries :: entries[b].rec.policy
  }

  /** The entry's index says what its document says. */
  ghost predicate IndexAgrees(e: Entry, b: Did) {
    && e.rec.bucket == b
    && e.rec.etag == ETag(e.rec.policy)
    && e.named == NamedSet(e.rec.policy)
    && (e.wildcard <==> HasWildcard(e.rec.policy))
  }

  class MemoryPolicies {
    var policies: map<Did, Entry>

    ghost predicate Valid() reads this {
      forall b :: b in policies ==> IndexAgrees(policies[b], b)
    }

    constructor ()
      ensures Valid() && policies == map[]
    {
      policies := map[];
    }

    method Get(bucket: Did) returns (r: Result<Record>)
      requires Valid()
      ensures bucket !in policies ==> r == Err(RecordNotFound)
      ensures bucket in policies ==> r == Ok(policies[bucket].rec)
    {
      r := if bucket in policies then Ok(policies[bucket].rec) else Err(RecordNotFound);
    }

    /** The checks of Put before its callback: the arguments, the bucket, and the
        precondition against the current record, which the callback is handed. */
    method BeginPut(x: Input, hasBucket: bool) returns (r: Result<Option<Record>>)
      requires Valid()
      ensures x.bucket == UNDEF || x.tenant == UNDEF ==> r == Err(InvalidArgument)
      ensures x.bucket != UNDEF && x.tenant != UNDEF && !hasBucket ==> r == Err(RecordNotFound)
      ensures var current := if x.bucket in policies then Some(policies[x.bucket].rec) else None;
        x.bucket != UNDEF && x.tenant != UNDEF && hasBucket ==>
          r == if Precondition(x, current) then Ok(current) else Err(PreconditionFailed)
      ensures r == Err(PreconditionFailed) <==>
        && x.bucket != UNDEF && x.tenant != UNDEF && hasBucket && x.conditional
        && match x.ifMatch
           case None => x.bucket in policies
           case Some(tag) => x.bucket !in policies || policies[x.bucket].rec.etag != tag
    {
      if x.bucket == UNDEF || x.tenant == UNDEF { return Err(InvalidArgument); }
      if !hasBucket { return Err(RecordNotFound); }
      var current := if x.bucket in policies then Some(policies[x.bucket].rec) else None;
      r := if Precondition(x, current) then Ok(current) else Err(PreconditionFailed);
    }

    /** The rest of Put: store the normalised document and its index. The stored
        document has the input's tag, and so its meaning. */
    method FinishPut(x: Input) returns (etag: Tag)
      requires Valid()
      modifies this
      ensures Valid() && etag == ETag(x.policy)
      ensures policies.Keys == old(policies.Keys) + {x.bucket}
      ensures forall b :: b in old(policies) && b != x.bucket ==> policies[b] == old(policies)[b]
      ensures policies[x.bucket].tenant == x.tenant && ETag(policies[x.bucket].rec.policy) == ETag(x.policy)
    {
      var doc := Canonical(x.policy);
      var named, wildcard := Named(doc);
      etag := ETag(doc);
      policies := policies[x.bucket := Entry(x.tenant, Record(x.bucket, doc, etag), (set p | p in named), wildcard)];
    }

    /** Delete, up to its callback: none stored, or the wrong tag. No tag given
        deletes whatever is stored. */
    method BeginDelete(bucket: Did, ifMatch: Option<Tag>) returns (r: Result<Record>)
      requires Valid()
      ensures bucket !in policies ==> r == Err(RecordNotFound)
      ensures bucket in policies && ifMatch.Some? && policies[bucket].rec.etag != ifMatch.value ==> r == Err(PreconditionFailed)
      ensures bucket in policies && (ifMatch.Some? ==> policies[bucket].rec.etag == ifMatch.value) ==> r == Ok(policies[bucket].rec)
    {
      if bucket !in policies { return Err(RecordNotFound); }
      var rec := policies[bucket].rec;
      if ifMatch.Some? && rec.etag != ifMatch.value { return Err(PreconditionFailed); }
      r := Ok(rec);
    }

    method FinishDelete(bucket: Did)
      requires Valid()
      modifies this
      ensures Valid() && policies == old(policies) - {bucket}
    {
      policies := policies - {bucket};
    }

    /** ListByPrincipal answers from the index, ordered by bucket: exactly the
        tenant's policies with a statement that applies to the principal. */
    method ListByPrincipal(tenant: Did, principal: PrincipalId) returns (recs: seq<Record>)
      requires Valid()
      ensures forall i, j :: 0 <= i < j < |recs| ==> Before(recs[i].bucket, recs[j].bucket)
      ensures forall r :: r in recs <==>
        r.bucket in policies && policies[r.bucket].rec == r && policies[r.bucket].tenant == tenant && Indexed(r.policy, principal)
      ensures principal != WILDCARD ==> forall r :: r in recs <==>
        r.bucket in policies && policies[r.bucket].rec == r && policies[r.bucket].tenant == tenant
        && exists st :: st in r.policy.statements && st.Names(principal)
    {
      var names := [];
      var rest := policies.Keys;
      while rest != {}
        invariant rest <= policies.Keys
        invariant forall i, j :: 0 <= i < j < |names| ==> names[i] != names[j]
        invariant forall b :: b in names <==>
          b in policies && b !in rest && policies[b].tenant == tenant && Indexed(policies[b].rec.policy, principal)
        decreases rest
      {
        var b :| b in rest;
        rest := rest - {b};
        var e := policies[b];
        if e.tenant == tenant && (e.wildcard || principal in e.named) { names := names + [b]; }
      }
      SortOfDistinct(names);
      names := Sort(names);
      recs := RecordsOf(names);
      forall r: Record | r.bucket in policies && policies[r.bucket].rec == r ensures r in recs <==> r.bucket in names {}
      forall r: Record ensures principal != WILDCARD ==>
        (Indexed(r.policy, principal) <==> exists st :: st in r.policy.statements && st.Names(principal))
      {
        EffectiveIsIndexed(r.policy, principal);
      }
    }

    method RecordsOf(names: seq<Did>) returns (recs: seq<Record>)
      requires Valid() && forall b :: b in names ==> b in policies
      requires StrictlySorted(names)
      ensures |recs| == |names| && forall i :: 0 <= i < |names| ==> recs[i] == policies[names[i]].rec
      ensures forall i, j :: 0 <= i < j < |recs| ==> Before(recs[i].bucket, recs[j].bucket)
      ensures forall r :: r in recs <==> r.bucket in names && policies[r.bucket].rec == r
    {
      recs := seq(|names|, i requires 0 <= i < |names| && names[i] in policies reads this => policies[names[i]].rec);
      forall r: Record | r.bucket in names && policies[r.bucket].rec == r ensures r in recs {
        var i :| 0 <= i < |names| && names[i] == r.bucket;
        assert recs[i] == r;
      }
    }
  }

  /** A bucket whose policy gives the principal anything is listed. */
  lemma NothingUnlisted(entries: map<Did, Entry>, recs: seq<Record>, tenant: Did, p: PrincipalId, b: Did)
    requires b in entries && entries[b].tenant == tenant && entries[b].rec.bucket == b
    requires forall r :: r in recs <==>
      r.bucket in entries && entries[r.bucket].rec == r && entries[r.bucket].tenant == tenant && Indexed(r.policy, p)
    ensures EffectiveSet(Some(entries[b].rec.policy), p) != {} ==> entries[b].rec in recs
  {
    EffectiveIsIndexed(entries[b].rec.policy, p);
  }
}
