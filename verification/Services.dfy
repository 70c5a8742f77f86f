/** The tenant services over the in-memory stores: policy writes and removals,
    key creation and deletion, principal creation and removal, bucket creation
    and deletion. Each call runs to its end before the next begins; an argument
    says whether a publish or a later step fails. */
module Services {
  import opened Common
  import opened Order
  import opened BucketPolicy
  import opened Permissions
  import opened Delegations
  import opened DelegationStore
  import opened KeyStore
  import opened PolicyStore
  import opened BucketStore
  import opened Tenancy
  import opened Rotator

  const MAX_NAME := 64
  const MAX_PRINCIPAL_ID := 255

  /** ValidID: what may name a principal. It travels as one path segment, so it
      holds no character that delimits or escapes one and is no dot segment. */
  predicate ValidId(id: PrincipalId) {
    && id != "" && Utf8Size(id) <= MAX_PRINCIPAL_ID && id != WILDCARD
    && (forall c :: c in id ==> c != '\0' && c !in "/;,?%")
    && id != "." && id != ".."
  }

  /** Only the links signed differ. */
  ghost predicate Unchanged(t: Tables, u: Tables) {
    t.minted <= u.minted && u == t.(minted := u.minted)
  }

  /** A key of a principal whose access doc changes holds d over b. */
  ghost predicate Replaces(t: Tables, b: Did, doc: Option<Document>, d: Delegation) {
    && d in t.grants && d.subject == b && d.audience in t.keys && t.keys[d.audience].principal.Some?
    && var p := t.keys[d.audience].principal.value; EffectiveSet(PolicyOf(t, b), p) != EffectiveSet(doc, p)
  }

  /** A change to doc has something to revoke. */
  ghost predicate MustPublish(t: Tables, b: Did, doc: Option<Document>, now: nat) {
    exists d :: Replaces(t, b, doc, d) && Outlives(d, now)
  }

  /** Over b the keys of the principals whose access doc changes lose what they
      held, what had not expired of it revoked, and no other grant is touched. */
  ghost predicate Renewed(t: Tables, u: Tables, b: Did, doc: Option<Document>, now: nat) {
    && (forall d :: d in t.grants ==> (d in u.grants <==> !Replaces(t, b, doc, d)))
    && (forall d :: d in u.grants && d !in t.grants ==> d.subject == b && d.audience in t.keys && d.link !in t.minted)
    && (forall l :: l in u.revoked <==>
         l in t.revoked || exists d :: Replaces(t, b, doc, d) && Outlives(d, now) && d.link == l)
  }

  /** Something some keys hold has not expired. */
  ghost predicate HoldLive(t: Tables, keys: set<Did>, now: nat) {
    exists d :: d in t.grants && d.audience in keys && Outlives(d, now)
  }

  /** Some keys hold nothing any more, what had not expired of it revoked, and no
      other grant is touched. */
  ghost predicate Stopped(t: Tables, u: Tables, keys: set<Did>, now: nat) {
    && (forall d :: d in u.grants <==> d in t.grants && d.audience !in keys)
    && (forall l :: l in u.revoked <==>
         l in t.revoked || exists d :: d in t.grants && d.audience in keys && Outlives(d, now) && d.link == l)
  }

  /** Nothing but grants of key id is added, and nothing revoked. */
  ghost predicate OnlyGrantsTo(t: Tables, u: Tables, id: Did, expires: Option<nat>) {
    && (forall d :: d in t.grants ==> d in u.grants)
    && (forall d :: d in u.grants && d !in t.grants ==> d.audience == id && d.expires == expires && d.link !in t.minted)
    && u.revoked == t.revoked
  }

  /** The write's condition holds of the bucket's policy. */
  ghost predicate MayReplace(t: Tables, x: Input) {
    x.conditional ==>
      if x.ifMatch.Some? then x.bucket in t.policies && ETag(t.policies[x.bucket]) == x.ifMatch.value
      else x.bucket !in t.policies
  }

  class Tenant {
    const tenant: Did
    const keys: MemoryKeys
    const policies: MemoryPolicies
    const buckets: MemoryBuckets
    const delegations: MemoryStore
    const source: LinkSource
    const publisher: Publisher
    const rotator: Rotator
    /** Principal rows; a removed one stays as a tombstone. */
    var principals: map<PrincipalId, bool>

    ghost var usedKeys: set<Did>
    ghost var usedBuckets: set<Did>
    ghost var ever: set<Delegation>
    ghost var unfinished: set<PrincipalId>
    ghost var clock: nat

    ghost function View(): Tables
      reads this, keys, policies, buckets, delegations, source, publisher
    {
      Tables(tenant, LiveSet(), keys.keys, Documents(policies.policies), buckets.buckets.Keys,
             delegations.Contents(), publisher.revoked, source.minted,
             usedKeys, usedBuckets, ever, unfinished, clock)
    }

    function LiveSet(): set<PrincipalId>
      reads this
    {
      set p | p in principals && principals[p]
    }

    ghost predicate Wired()
      reads this, keys, policies, buckets, delegations, source
    {
      && rotator.tenant == tenant && rotator.delegations == delegations && rotator.keys == keys
      && rotator.source == source && rotator.publisher == publisher
      && keys.Valid() && policies.Valid() && buckets.Valid() && delegations.Valid() && source.Valid()
      && (forall b :: b in policies.policies ==> policies.policies[b].tenant == tenant)
      && (forall b :: b in buckets.buckets ==> buckets.buckets[b].tenant == tenant)
    }

    /** Everything the services keep true of the tenant. */
    ghost predicate Valid()
      reads this, keys, policies, buckets, delegations, source, publisher
    {
      Wired() && Inv(View())
    }

    constructor (tenant: Did)
      requires tenant != UNDEF
      ensures Valid()
      ensures View() == Tables(tenant, {}, map[], map[], {}, {}, {}, {}, {}, {}, {}, {}, 0)
    {
      this.tenant := tenant;
      var k := new MemoryKeys();
      var d := new MemoryStore();
      var s := new LinkSource();
      var p := new Publisher();
      keys, delegations, source, publisher := k, d, s, p;
      rotator := new Rotator(tenant, d, k, s, p);
      policies := new MemoryPolicies();
      buckets := new MemoryBuckets();
      principals := map[];
      usedKeys, usedBuckets, ever, unfinished, clock := {}, {}, {}, {}, 0;
      new;
      EmptyInv(tenant);
      assert View() == Tables(tenant, {}, map[], map[], {}, {}, {}, {}, {}, {}, {}, {}, 0);
    }

    lemma RotatorReady()
      requires Valid()
      ensures rotator.Valid()
      ensures tenant != UNDEF && UNDEF !in View().buckets && View().policies.Keys <= View().buckets
      ensures forall ps :: rotator.BoundKeys(ps) == KeysOf(View(), ps)
    {
      var t := View();
      Whole(t);
      assert t.grants <= t.grants + t.ever;
      assert Links(t.grants) <= Links(t.grants + t.ever);
      forall ps ensures rotator.BoundKeys(ps) == KeysOf(t, ps) {
        assert forall k :: k in t.keys ==> KeyRowAgrees(t, k);
      }
    }

    /** The tenant has an id, and its keys are filed as it says. */
    lemma TenantDefined()
      requires Valid()
      ensures tenant != UNDEF && keys.keys.Keys <= usedKeys && buckets.buckets.Keys <= usedBuckets
      ensures forall k :: k in keys.keys ==> keys.keys[k].tenant == tenant
    {
      var t := View();
      Whole(t);
      assert forall k :: k in t.keys ==> KeyRowAgrees(t, k);
    }

    method ListIds() returns (ids: seq<PrincipalId>)
      ensures Elements(ids) == LiveSet()
    {
      ids := [];
      var rest := LiveSet();
      while rest != {}
        invariant rest <= LiveSet()
        invariant Elements(ids) == LiveSet() - rest
        decreases rest
      {
        var p :| p in rest;
        rest := rest - {p};
        ElementsJoin(ids, [p]);
        ids := ids + [p];
      }
    }

    // ------------------------------------------------------------- principals

    /** Create: record the principal, reviving a tombstone; created says whether
        it was not there. */
    method CreatePrincipal(p: PrincipalId) returns (r: Result<bool>)
      requires Valid()
      modifies this
      ensures Valid()
      ensures r == Err(InvalidArgument) <==>
        || p == "" || p == "*" || p == "." || p == ".." || Utf8Size(p) > 255
        || exists c :: c in p && (c == '\0' || c == '/' || c == ';' || c == ',' || c == '?' || c == '%')
      ensures !ValidId(p) ==> r == Err(InvalidArgument) && View() == old(View())
      ensures ValidId(p) ==>
        r == Ok(p !in old(View()).live) && View() == old(View()).(live := old(View()).live + {p})
    {
      if !ValidId(p) { return Err(InvalidArgument); }
      PrincipalAdded(View(), p);
      r := Ok(!(p in principals && principals[p]));
      principals := principals[p := true];
      assert View() == old(View()).(live := old(View()).live + {p});
    }

    // ------------------------------------------------------------------ policies

    method Actions(doc: Option<Document>, affected: seq<PrincipalId>) returns (actions: map<PrincipalId, seq<string>>)
      ensures actions.Keys == Elements(affected)
      ensures forall p :: p in actions ==> Elements(actions[p]) == EffectiveSet(doc, p)
    {
      actions := map[];
      for i := 0 to |affected|
        invariant actions.Keys == Elements(affected[..i])
        invariant forall p :: p in actions ==> Elements(actions[p]) == EffectiveSet(doc, p)
      {
        assert affected[..i + 1] == affected[..i] + [affected[i]];
        ElementsJoin(affected[..i], [affected[i]]);
        var eff := Effective(doc, affected[i]);
        assert Elements(eff) == EffectiveSet(doc, affected[i]);
        actions := actions[affected[i] := eff];
      }
      assert affected[..|affected|] == affected;
    }

    /** rotate: compute who the change affects and rewrite their keys' grants
        over the bucket, before the policy itself is written. */
    method Rotate(bucket: Did, was: Option<Document>, doc: Option<Document>, now: nat, fails: bool)
      returns (err: Option<Error>, ghost affected: set<PrincipalId>, ghost issued: set<Delegation>)
      requires Valid() && bucket in buckets.buckets && was == PolicyOf(View(), bucket)
      modifies delegations, source, publisher
      ensures Wired() && old(source.minted) <= source.minted
      ensures err.Some? <==> fails && MustPublish(old(View()), bucket, doc, now)
      ensures err.Some? ==> err.value == PublishFailed && Unchanged(old(View()), View())
      ensures err.None? ==> RotatedTables(old(View()), View(), bucket, doc, affected, issued, now)
    {
      var principals := ListIds();
      var ids := Changed(was, doc, principals);
      affected, issued := ChangedSet(was, doc, LiveSet()), {};
      assert Elements(principals) == set q | q in principals;
      assert Elements(ids) == affected;
      NoElements(ids);
      MustPublishMeans(View(), bucket, doc, now);
      if ids == [] {
        NothingRotates(View(), bucket, now);
        return None, affected, {};
      }
      var actions := Actions(doc, ids);
      err, issued := RotateAffected(bucket, actions, doc, affected, now, fails);
    }

    method RotateAffected(bucket: Did, actions: map<PrincipalId, seq<string>>, ghost doc: Option<Document>, ghost affected: set<PrincipalId>, now: nat, fails: bool)
      returns (err: Option<Error>, ghost issued: set<Delegation>)
      requires Valid() && bucket in buckets.buckets && affected == ChangedSet(PolicyOf(View(), bucket), doc, LiveSet())
      requires actions.Keys == affected && forall p :: p in actions ==> Elements(actions[p]) == EffectiveSet(doc, p)
      modifies delegations, source, publisher
      ensures Wired() && old(source.minted) <= source.minted
      ensures err.Some? <==> fails && MustPublish(old(View()), bucket, doc, now)
      ensures err.Some? ==> err.value == PublishFailed && Unchanged(old(View()), View())
      ensures err.None? ==> RotatedTables(old(View()), View(), bucket, doc, affected, issued, now)
    {
      RotatorReady();
      MustPublishMeans(View(), bucket, doc, now);
      ghost var t, a := View(), rotator.State();
      err, issued := rotator.Rotate(bucket, actions, now, fails);
      assert View() == t.(grants := rotator.State().contents, revoked := rotator.State().revoked, minted := rotator.State().minted);
      if err.None? { RotatedIsTables(t, a, rotator.State(), bucket, doc, affected, actions, issued, now); }
    }

    /** Write: refuse a document that may not be stored as the named bucket's,
        check the precondition, rotate, and store. A failed publish leaves
        everything. */
    method WritePolicy(x: Input, bucketName: string, now: nat, fails: bool) returns (r: Result<Tag>)
      requires Valid() && x.tenant == tenant
      modifies this, policies, delegations, source, publisher
      ensures Valid()
      ensures r.Err? ==> Unchanged(old(View()), View())
      ensures r == Err(InvalidPolicy) <==> !Storable(x.policy, bucketName, old(View()).live)
      ensures Storable(x.policy, bucketName, old(View()).live) ==>
        && (r == Err(InvalidArgument) <==> x.bucket == UNDEF)
        && (r == Err(RecordNotFound) <==> x.bucket != UNDEF && x.bucket !in old(View()).buckets)
        && (r == Err(PreconditionFailed) <==> x.bucket in old(View()).buckets && !MayReplace(old(View()), x))
        && (r == Err(PublishFailed) <==>
             && x.bucket in old(View()).buckets && MayReplace(old(View()), x)
             && fails && MustPublish(old(View()), x.bucket, Some(x.policy), now))
        && (r.Ok? <==>
             && x.bucket in old(View()).buckets && MayReplace(old(View()), x)
             && !(fails && MustPublish(old(View()), x.bucket, Some(x.policy), now)))
      ensures r.Ok? ==>
        && r.value == ETag(x.policy) && PolicyWrite(old(View()), View(), x)
        && Renewed(old(View()), View(), x.bucket, Some(x.policy), now)
    {
      RotatorReady();
      var principals := ListIds();
      var ok := Validate(x.policy, bucketName, set p | p in principals);
      assert Elements(principals) == set p | p in principals;
      if !ok { return Err(InvalidPolicy); }
      var begun := policies.BeginPut(x, x.bucket in buckets.buckets);
      if begun.Err? { return Err(begun.error); }
      r := RotateAndStore(x, if begun.value.None? then None else Some(begun.value.value.policy), now, fails);
    }

    /** The callback and the write, once the precondition holds of the document
        the callback is handed. */
    method RotateAndStore(x: Input, was: Option<Document>, now: nat, fails: bool) returns (r: Result<Tag>)
      requires Valid() && x.tenant == tenant && x.bucket in buckets.buckets && NamedSet(x.policy) <= LiveSet()
      requires was == PolicyOf(View(), x.bucket)
      modifies this, policies, delegations, source, publisher
      ensures Valid()
      ensures r == Err(PublishFailed) || r == Ok(ETag(x.policy))
      ensures r.Err? <==> fails && MustPublish(old(View()), x.bucket, Some(x.policy), now)
      ensures r.Err? ==> Unchanged(old(View()), View())
      ensures r.Ok? ==> PolicyChange(old(View()), View(), x) && Renewed(old(View()), View(), x.bucket, Some(x.policy), now)
    {
      ghost var t := View();
      var err; ghost var affected; ghost var issued;
      err, affected, issued := Rotate(x.bucket, was, Some(x.policy), now, fails);
      if err.Some? {
        MoreMinted(t, source.minted);
        return Err(err.value);
      }
      ghost var z := View();
      var etag := StorePolicy(x, t, affected, issued, now);
      RotatedRenews(t, z, x.bucket, Some(x.policy), affected, issued, now);
      SameRenewed(t, z, View(), x.bucket, Some(x.policy), now);
      r := Ok(etag);
    }

    /** The write itself, once the grants are rotated to it. */
    method StorePolicy(x: Input, ghost t: Tables, ghost affected: set<PrincipalId>, ghost issued: set<Delegation>, ghost now: nat)
      returns (etag: Tag)
      requires Wired() && Inv(t) && x.tenant == tenant
      requires x.bucket in t.buckets && NamedSet(x.policy) <= t.live
      requires RotatedTables(t, View(), x.bucket, Some(x.policy), affected, issued, now)
      modifies this, policies
      ensures Valid() && etag == ETag(x.policy)
      ensures PolicyChange(t, View(), x)
      ensures View().grants == old(View()).grants && View().revoked == old(View()).revoked
    {
      ghost var z := View();
      etag := PutDocument(x);
      ghost var doc := policies.policies[x.bucket].rec.policy;
      ghost var u := AfterPolicy(z, x.bucket, Some(doc), now);
      clock, ever := u.clock, u.ever;
      assert View() == u;
      PolicyWritten(t, z, x.bucket, x.policy, doc, affected, issued, now);
    }

    method PutDocument(x: Input) returns (etag: Tag)
      requires Wired() && x.tenant == tenant
      modifies policies
      ensures Wired() && etag == ETag(x.policy) && x.bucket in policies.policies
      ensures var doc := policies.policies[x.bucket].rec.policy;
        ETag(doc) == ETag(x.policy) && View() == WithPolicy(old(View()), x.bucket, Some(doc))
      ensures policies.policies == old(policies.policies)[x.bucket := policies.policies[x.bucket]]
    {
      ghost var was := policies.policies;
      etag := policies.FinishPut(x);
      DocumentsStored(was, policies.policies, x.bucket);
    }

    /** Remove: every principal the policy reached loses its access. */
    method RemovePolicy(bucket: Did, ifMatch: Option<Tag>, now: nat, fails: bool) returns (err: Option<Error>)
      requires Valid()
      modifies this, policies, delegations, source, publisher
      ensures Valid()
      ensures err.Some? ==> Unchanged(old(View()), View())
      ensures var t := old(View());
        && (err == Some(RecordNotFound) <==> bucket !in t.policies)
        && (err == Some(PreconditionFailed) <==> bucket in t.policies && ifMatch.Some? && ETag(t.policies[bucket]) != ifMatch.value)
        && (err == Some(PublishFailed) <==>
             && bucket in t.policies && (ifMatch.Some? ==> ETag(t.policies[bucket]) == ifMatch.value)
             && fails && MustPublish(t, bucket, None, now))
        && (err == None <==>
             && bucket in t.policies && (ifMatch.Some? ==> ETag(t.policies[bucket]) == ifMatch.value)
             && !(fails && MustPublish(t, bucket, None, now)))
      ensures err.None? ==>
        && View().policies == old(View()).policies - {bucket}
        && SameRows(old(View()), View()) && Renewed(old(View()), View(), bucket, None, now)
    {
      RotatorReady();
      var begun := policies.BeginDelete(bucket, ifMatch);
      if begun.Err? { return Some(begun.error); }
      ghost var t := View();
      ghost var affected; ghost var issued;
      err, affected, issued := Rotate(bucket, Some(begun.value.policy), None, now, fails);
      if err.Some? {
        MoreMinted(t, source.minted);
        return err;
      }
      ghost var z := View();
      DropPolicy(bucket, t, affected, issued, now);
      RotatedRenews(t, z, bucket, None, affected, issued, now);
      SameRenewed(t, z, View(), bucket, None, now);
    }

    method DropPolicy(bucket: Did, ghost t: Tables, ghost affected: set<PrincipalId>, ghost issued: set<Delegation>, ghost now: nat)
      requires Wired() && Inv(t) && bucket in t.buckets
      requires RotatedTables(t, View(), bucket, None, affected, issued, now)
      modifies this, policies
      ensures Valid()
      ensures View().policies == t.policies - {bucket} && SameRows(t, View())
      ensures View().grants == old(View()).grants && View().revoked == old(View()).revoked
    {
      ghost var z := View();
      policies.FinishDelete(bucket);
      assert Documents(policies.policies) == t.policies - {bucket};
      ghost var u := AfterPolicy(z, bucket, None, now);
      clock, ever := u.clock, u.ever;
      assert View() == u;
      PolicyDropped(t, z, bucket, affected, issued, now);
    }

    // ---------------------------------------------------------------------- keys

    /** Create, for a key bound to a principal: its grants are those the tenant's
        policies give the principal. A failure at the end rolls everything
        back. */
    method CreatePrincipalKey(id: Did, name: string, p: PrincipalId, expires: Option<nat>, fails: bool)
      returns (r: Result<KeyRecord>)
      requires Valid() && id !in usedKeys && id != tenant
      modifies this, keys, delegations, source
      ensures Valid()
      ensures r.Err? ==> Unchanged(old(View()), View())
      ensures var t := old(View());
        var named := name != "" && Utf8Size(name) <= 64 && ValidId(p);
        var taken := exists k :: k in t.keys && t.keys[k].name == name && t.keys[k].principal == Some(p);
        && (r == Err(InvalidArgument) <==> !named || (p in t.live && id == UNDEF))
        && (r == Err(NameConflict) <==> named && p in t.live && id != UNDEF && taken)
        && (r == Err(RecordNotFound) <==> named && (p !in t.live || (id != UNDEF && !taken && fails)))
        && (r.Ok? <==> named && p in t.live && id != UNDEF && !taken && !fails)
      ensures r.Ok? ==>
        && r.value == KeyRecord(id, tenant, name, Some(p), [], [], expires)
        && View().keys == old(View()).keys[id := r.value]
        && SameButKeys(old(View()), View()) && OnlyGrantsTo(old(View()), View(), id, expires)
    {
      TenantDefined();
      if name == "" || Utf8Size(name) > MAX_NAME || !ValidId(p) { return Err(InvalidArgument); }
      if p !in LiveSet() { return Err(RecordNotFound); }
      ghost var t := View();
      KeyIsNew(t, id);
      var rec := KeyRecord(id, tenant, name, Some(p), [], [], expires);
      var err := keys.Add(rec, Some(LiveSet()));
      if err.Some? { return Err(if err.value == RecordExists then NameConflict else InvalidArgument); }
      var recs := policies.ListByPrincipal(tenant, p);
      forall i, j | 0 <= i < j < |recs| ensures recs[i].bucket != recs[j].bucket { BeforeIrreflexive(recs[i].bucket); }
      var dels := IssueForPolicies(recs, p, id, expires);
      ListedRequires(t, policies.policies, recs, dels, rec, p);
      r := StoreKey(rec, dels, fails, t);
    }

    /** The creation's loop: for each listed policy that gives the principal
        anything, delegations for what it gives. */
    method IssueForPolicies(recs: seq<Record>, p: PrincipalId, id: Did, expires: Option<nat>) returns (dels: seq<Delegation>)
      requires source.Valid() && forall i, j :: 0 <= i < j < |recs| ==> recs[i].bucket != recs[j].bucket
      modifies source
      ensures source.Valid() && source.minted == old(source.minted) + Links(Elements(dels))
      ensures IssuedFrom(dels, tenant, id, recs, p, old(source.minted)) && forall d :: d in dels ==> d.expires == expires
    {
      ghost var minted := source.minted;
      dels := [];
      for i := 0 to |recs|
        invariant source.Valid() && source.minted == minted + Links(Elements(dels))
        invariant IssuedFrom(dels, tenant, id, recs[..i], p, minted) && forall d :: d in dels ==> d.expires == expires
      {
        var eff := Effective(Some(recs[i].policy), p);
        assert recs[..i + 1] == recs[..i] + [recs[i]];
        assert Elements(eff) == EffectiveSet(Some(recs[i].policy), p);
        NoElements(eff);
        if eff == [] {
          IssuedNothing(dels, tenant, id, recs[..i], p, minted, recs[i]);
          continue;
        }
        var granted := Issue(source, tenant, id, [recs[i].bucket], eff, expires);
        assert Elements([recs[i].bucket]) == {recs[i].bucket};
        IssuedMore(dels, tenant, id, recs[..i], p, minted, recs[i], granted);
        ElementsJoin(dels, granted);
        LinksUnion(Elements(dels), Elements(granted));
        dels := dels + granted;
      }
      assert recs[..|recs|] == recs;
    }

    /** Create, for a service key: delegations for its permissions over each
        named bucket, or powerline ones when none is named. */
    method CreateServiceKey(id: Did, name: string, permissions: seq<string>, bucketNames: seq<string>, expires: Option<nat>, fails: bool)
      returns (r: Result<KeyRecord>)
      requires Valid() && id !in usedKeys && id != tenant
      modifies this, keys, delegations, source
      ensures Valid()
      ensures r.Err? ==> Unchanged(old(View()), View())
      ensures var t := old(View());
        var accepted := name != "" && Utf8Size(name) <= 64 && permissions != [] && forall q :: q in permissions ==> q in PERMISSION_COMMANDS;
        var known := forall n :: n in bucketNames ==> NamedBucket(n);
        var taken := exists k :: k in t.keys && t.keys[k].name == name && t.keys[k].principal == None;
        && (r == Err(InvalidArgument) <==> !accepted || (known && id == UNDEF))
        && (r == Err(UnknownBucket) <==> accepted && !known)
        && (r == Err(NameConflict) <==> accepted && known && id != UNDEF && taken)
        && (r == Err(RecordNotFound) <==> accepted && known && id != UNDEF && !taken && fails)
        && (r.Ok? <==> accepted && known && id != UNDEF && !taken && !fails)
      ensures r.Ok? ==> OnlyGrantsTo(old(View()), View(), id, expires)
      ensures r.Ok? ==>
        && r.value == KeyRecord(id, tenant, name, None, permissions, r.value.buckets, expires)
        && |r.value.buckets| == |bucketNames|
        && (forall i :: 0 <= i < |bucketNames| ==>
             r.value.buckets[i] in buckets.buckets && buckets.buckets[r.value.buckets[i]].name == bucketNames[i])
        && View().keys == old(View()).keys[id := r.value]
        && SameButKeys(old(View()), View())
    {
      RotatorReady();
      if name == "" || Utf8Size(name) > MAX_NAME || permissions == [] { return Err(InvalidArgument); }
      if q :| q in permissions && q !in PERMISSION_COMMANDS { return Err(InvalidArgument); }
      var resolved := ResolveBuckets(bucketNames);
      if resolved.Err? { return Err(resolved.error); }
      r := AddServiceKey(KeyRecord(id, tenant, name, None, permissions, resolved.value, expires), fails);
    }

    /** The record and its delegations, once the arguments are accepted. */
    method AddServiceKey(rec: KeyRecord, fails: bool) returns (r: Result<KeyRecord>)
      requires Valid() && rec.id !in usedKeys && rec.id != tenant && rec.tenant == tenant && rec.principal.None?
      requires forall i :: 0 <= i < |rec.buckets| ==> rec.buckets[i] in buckets.buckets
      modifies this, keys, delegations, source
      ensures Valid()
      ensures r.Err? ==> Unchanged(old(View()), View())
      ensures var taken := exists k :: k in old(View()).keys && old(View()).keys[k].name == rec.name && old(View()).keys[k].principal == None;
        && (r == Err(InvalidArgument) <==> !Consistent(rec))
        && (r == Err(NameConflict) <==> Consistent(rec) && taken)
        && (r == Err(RecordNotFound) <==> Consistent(rec) && !taken && fails)
        && (r.Ok? <==> Consistent(rec) && !taken && !fails)
      ensures r.Ok? ==> r.value == rec && View().keys == old(View()).keys[rec.id := rec] && SameButKeys(old(View()), View())
      ensures r.Ok? ==> OnlyGrantsTo(old(View()), View(), rec.id, rec.expires)
    {
      TenantDefined();
      ghost var t := View();
      KeyIsNew(t, rec.id);
      var err := keys.Add(rec, Some(LiveSet()));
      if err.Some? { return Err(if err.value == RecordExists then NameConflict else InvalidArgument); }
      var dels := Issue(source, tenant, rec.id, rec.buckets, rec.permissions, rec.expires);
      ServiceRequires(t, dels, rec);
      r := StoreKey(rec, dels, fails, t);
    }

    /** The named buckets' ids, from one tenant-scoped listing; a name it does not
        return is unknown. */
    method ResolveBuckets(names: seq<string>) returns (r: Result<seq<Did>>)
      requires buckets.Valid()
      ensures r.Ok? ==> |r.value| == |names| && forall i :: 0 <= i < |names| ==>
        r.value[i] in buckets.buckets && buckets.buckets[r.value[i]].name == names[i]
      ensures r.Err? ==> r.error == UnknownBucket
      ensures r.Ok? <==> forall n :: n in names ==> NamedBucket(n)
    {
      if names == [] { return Ok([]); }
      var byName := ListNamed(names);
      var ids := [];
      for i := 0 to |names|
        invariant |ids| == i
        invariant forall j :: 0 <= j < i ==> ids[j] in buckets.buckets && buckets.buckets[ids[j]].name == names[j]
        invariant forall j :: 0 <= j < i ==> NamedBucket(names[j])
      {
        if names[i] !in byName {
          assert !NamedBucket(names[i]);
          return Err(UnknownBucket);
        }
        ids := ids + [byName[names[i]]];
      }
      r := Ok(ids);
    }

    /** The tenant has a bucket of the name. */
    ghost predicate NamedBucket(n: string)
      reads buckets
    {
      exists b :: b in buckets.buckets && buckets.buckets[b].tenant == tenant && buckets.buckets[b].name == n
    }

    method ListNamed(names: seq<string>) returns (byName: map<string, Did>)
      requires buckets.Valid()
      ensures names != [] ==> forall n :: n in names && NamedBucket(n) ==> n in byName
      ensures forall n :: n in byName ==> NamedBucket(n) && byName[n] in buckets.buckets && buckets.buckets[byName[n]].name == n
    {
      var now := buckets.buckets;
      var states := seq(|now| + 1, _ => now);
      assert forall bs :: bs in states ==> bs == now;
      assert states[0] in states;
      var found, pages, finished := Collect(states, tenant, ListConfig({}, (set n | n in names), "", UNDEF), 1000);
      byName := map[];
      for i := 0 to |found|
        invariant forall n :: n in byName ==> byName[n] in now && now[byName[n]].name == n && now[byName[n]].tenant == tenant
        invariant forall j :: 0 <= j < i ==> found[j].name in byName
      {
        assert found[i] in found;
        byName := byName[found[i].name := found[i].id];
      }
      forall n | names != [] && n in names && NamedBucket(n) ensures n in byName {
        var b :| b in now && now[b].tenant == tenant && now[b].name == n;
        assert n in (set m | m in names);
        assert StoredThroughout(states[..pages], now[b]);
        assert now[b] in found;
      }
    }

    /** Store the new key's delegations under its lock, refusing when it holds
        any; a later failure rolls the grants and the row back. */
    method StoreKey(rec: KeyRecord, dels: seq<Delegation>, fails: bool, ghost t: Tables) returns (r: Result<KeyRecord>)
      requires Wired() && Inv(t) && rec.id !in t.keys && rec.id !in t.usedKeys
      requires NewKey(t, rec, Elements(dels))
      requires View() == t.(keys := t.keys[rec.id := rec], minted := t.minted + Links(Elements(dels)))
      modifies this, keys, delegations
      ensures Valid()
      ensures r == if fails then Err(RecordNotFound) else Ok(rec)
      ensures r.Err? ==> Unchanged(t, View())
      ensures r.Ok? ==> View().keys == t.keys[rec.id := rec] && SameButKeys(t, View()) && OnlyGrantsTo(t, View(), rec.id, rec.expires)
    {
      NewKeyStores(t, rec, Elements(dels));
      KeyIsNew(t, rec.id);
      StoreGrants(rec.id, dels);
      if fails {
        RollBack(rec, t);
        return Err(RecordNotFound);
      }
      ghost var u := AfterKey(t, rec, Elements(dels));
      usedKeys, ever := u.usedKeys, u.ever;
      assert View() == u;
      r := Ok(rec);
    }

    method RollBack(rec: KeyRecord, ghost t: Tables)
      requires Wired() && Inv(t) && rec.id !in t.keys && t.minted <= source.minted
      requires forall d :: d in t.grants ==> d.audience != rec.id
      requires forall d :: d in delegations.Contents() && d.audience != rec.id ==> d in t.grants
      requires t.grants <= delegations.Contents()
      requires View() == t.(keys := t.keys[rec.id := rec], minted := source.minted, grants := delegations.Contents())
      modifies keys, delegations
      ensures Valid() && Unchanged(t, View())
    {
      delegations.DeleteByAudience(rec.id);
      keys.Delete(rec.id);
      MoreMinted(t, source.minted);
      assert View() == t.(minted := source.minted);
    }

    method StoreGrants(id: Did, dels: seq<Delegation>)
      requires delegations.Valid() && LinksDistinct(delegations.Contents() + Elements(dels))
      requires forall d :: d in delegations.Contents() ==> d.audience != id
      requires forall d :: d in dels ==> d.audience == id
      modifies delegations
      ensures delegations.Valid() && delegations.Contents() == old(delegations.Contents()) + Elements(dels)
    {
      NoElements(dels);
      if dels == [] { return; }
      var current := delegations.Current([id], None);
      assert Elements([id]) == {id};
      NoElements(current[id]);
      assert current[id] == [];
      if current[id] != [] { return; }
      WrapHas(dels);
      AcceptedWrap(id, dels);
      var next: map<Did, Batch> := map[id := Wrap(dels)];
      IncomingWrap(id, dels);
      assert Outgoing(delegations.Contents(), {id}, None) == {};
      var err := delegations.Replace([id], None, next);
    }

    /** Delete: revoke what the key holds, then delete its row and its grants. A
        failed publish leaves all of them. */
    method DeleteKey(id: Did, now: nat, fails: bool) returns (err: Option<Error>)
      requires Valid()
      modifies this, keys, delegations, publisher
      ensures Valid()
      ensures err.Some? ==> Unchanged(old(View()), View())
      ensures var t := old(View());
        && (err == Some(RecordNotFound) <==> id !in t.keys)
        && (err == Some(PublishFailed) <==> id in t.keys && fails && HoldLive(t, {id}, now))
        && (err == None <==> id in t.keys && !(fails && HoldLive(t, {id}, now)))
      ensures err.None? ==>
        && View().keys == old(View()).keys - {id}
        && Stopped(old(View()), View(), {id}, now) && SameButKeys(old(View()), View())
    {
      var found := keys.Get(id);
      if found.Err? { return Some(found.error); }
      ghost var t := View();
      assert Elements([id]) == {id};
      err := RevokeHeld([id], now, fails);
      if err.Some? { return; }
      DropKey(id, t, now);
    }

    /** Publish what some keys hold, and drop it. */
    method RevokeHeld(ids: seq<Did>, now: nat, fails: bool) returns (err: Option<Error>)
      requires Valid()
      modifies delegations, publisher
      ensures Wired()
      ensures err == if fails && HoldLive(old(View()), Elements(ids), now) then Some(PublishFailed) else None
      ensures View() == if err.Some? then old(View()) else Cleared(old(View()), Elements(ids), now)
      ensures err.None? ==> Stopped(old(View()), View(), Elements(ids), now)
    {
      RotatorReady();
      ghost var t := View();
      ClearedMeans(t, Elements(ids), now);
      err := rotator.RevokeAll(ids, now, fails);
      NoLinks();
      assert View() == if err.Some? then t else Cleared(t, Elements(ids), now);
    }

    method DropKey(id: Did, ghost t: Tables, ghost now: nat)
      requires Wired() && Inv(t) && id in t.keys && View() == Cleared(t, {id}, now)
      modifies this, keys
      ensures Valid() && View().grants == Cleared(t, {id}, now).grants && View().revoked == Cleared(t, {id}, now).revoked
      ensures View().keys == t.keys - {id} && SameButKeys(t, View())
    {
      keys.Delete(id);
      KeysCleared(t, {id}, now);
      ghost var u := Settle(WithoutKeys(Cleared(t, {id}, now), {id}).(clock := Later(t.clock, now)));
      clock, ever := u.clock, u.ever;
      assert View() == u;
    }

    // --------------------------------------------------------- principal removal

    /** Delete: revoke what the principal's keys hold, strip the principal from
        the policies naming it, then delete its keys and its row. An early end
        leaves a principal whose removal is unfinished; the call can be
        repeated. rewrites is how many policy rewrites go through. */
    method DeletePrincipal(p: PrincipalId, now: nat, revokeFails: bool, rewrites: nat, removeFails: bool)
      returns (err: Option<Error>)
      requires Valid()
      modifies this, keys, policies, delegations, publisher
      ensures Valid()
      ensures Remembers(old(View()), View())
      ensures forall q, b :: q != p ==> EffectiveSet(PolicyOf(View(), b), q) == EffectiveSet(PolicyOf(old(View()), b), q)
      ensures var t := old(View());
        var published, stripped := !(revokeFails && HoldLive(t, KeysOf(t, {p}), now)), |Naming(t.policies, p)| <= rewrites;
        && (err == Some(PublishFailed) <==> !published)
        && (err == Some(PreconditionFailed) <==> published && !stripped)
        && (err == None <==> published && stripped)
      ensures err == Some(PublishFailed) ==> Unchanged(old(View()), View())
      ensures err == Some(PreconditionFailed) ==>
        && View().live == old(View()).live && View().keys == old(View()).keys
        && View().unfinished == old(View()).unfinished + {p}
      ensures err != Some(PublishFailed) ==>
        && Stopped(old(View()), View(), KeysOf(old(View()), {p}), now)
        && forall b :: StrippedAt(PolicyOf(old(View()), b), PolicyOf(View(), b), p)
      ensures err.None? ==>
        && View().live == old(View()).live - {p}
        && View().keys == old(View()).keys - KeysOf(old(View()), {p})
        && View().unfinished == old(View()).unfinished - {p}
        && forall b :: b in View().policies ==> p !in NamedSet(View().policies[b])
    {
      ghost var was := View();
      err := RevokeKeys(p, now, revokeFails);
      if err.Some? { return; }
      err := StripAndRemove(p, was, now, rewrites, removeFails);
    }

    /** The policies and the rows, once what the keys held is revoked. */
    method StripAndRemove(p: PrincipalId, ghost was: Tables, now: nat, rewrites: nat, fails: bool) returns (err: Option<Error>)
      requires Valid() && Stopped(was, View(), KeysOf(was, {p}), now) && View() == AfterRevoke(was, p, now)
      modifies this, keys, policies, delegations, publisher
      ensures Valid() && Remembers(old(View()), View())
      ensures err == if |Naming(was.policies, p)| <= rewrites then None else Some(PreconditionFailed)
      ensures OthersSame(was, View(), p) && forall b :: StrippedAt(PolicyOf(was, b), PolicyOf(View(), b), p)
      ensures Stopped(was, View(), KeysOf(was, {p}), now)
      ensures err.Some? ==> View().live == was.live && View().keys == was.keys && View().unfinished == was.unfinished + {p}
      ensures err.None? ==>
        && View().live == was.live - {p} && View().unfinished == was.unfinished - {p}
        && View().keys == was.keys - KeysOf(was, {p})
        && forall b :: b in View().policies ==> p !in NamedSet(View().policies[b])
    {
      ghost var t := View();
      var ok := StripFromPolicies(p, rewrites);
      if !ok { return Some(PreconditionFailed); }
      ghost var z := View();
      err := FinishRemoval(p, now, fails);
      StoppedTwice(was, z, View(), KeysOf(was, {p}), now);
      StrippedCompose(t, z, View(), p);
    }

    method RevokeKeys(p: PrincipalId, now: nat, fails: bool) returns (err: Option<Error>)
      requires Valid()
      modifies this, delegations, publisher
      ensures Valid()
      ensures err == if fails && HoldLive(old(View()), KeysOf(old(View()), {p}), now) then Some(PublishFailed) else None
      ensures err.Some? ==> Unchanged(old(View()), View())
      ensures err.None? ==> View() == AfterRevoke(old(View()), p, now) && Stopped(old(View()), View(), KeysOf(old(View()), {p}), now)
    {
      RotatorReady();
      ghost var t := View();
      ClearedMeans(t, KeysOf(t, {p}), now);
      err := rotator.Revoke(p, now, fails);
      if err.Some? {
        assert View() == t;
        return;
      }
      PrincipalCleared(t, p, now);
      ghost var u := AfterRevoke(t, p, now);
      clock, ever, unfinished := u.clock, u.ever, u.unfinished;
      assert View() == u;
    }

    /** stripFromPolicies: every policy naming the principal is rewritten without
        it, if that many rewrites go through. */
    method StripFromPolicies(p: PrincipalId, rewrites: nat) returns (ok: bool)
      requires Valid() && p in unfinished
      modifies policies
      ensures Valid() && Stripped(old(View()), View(), p)
      ensures ok <==> |Naming(old(View()).policies, p)| <= rewrites
      ensures ok ==> forall b :: b in View().policies ==> p !in NamedSet(View().policies[b])
    {
      ghost var t := View();
      var recs := policies.ListByPrincipal(tenant, p);
      var done := 0;
      NamedAreListed(policies.policies, recs, tenant, p);
      for i := 0 to |recs|
        invariant Valid() && Stripped(t, View(), p)
        invariant ToStrip(policies.policies, recs, i, p)
        invariant done <= rewrites && |Naming(View().policies, p)| + done == |Naming(t.policies, p)|
      {
        ghost var z, before := View(), policies.policies;
        forall j | i < j < |recs| ensures recs[j].bucket != recs[i].bucket { BeforeIrreflexive(recs[i].bucket); }
        var changed := StripPolicy(recs[i], p, done == rewrites);
        if changed && done == rewrites { return false; }
        StrippedCompose(t, z, View(), p);
        OneStripped(before, policies.policies, recs, i, p);
        if changed { done := done + 1; }
      }
      assert Naming(View().policies, p) == {};
      ok := true;
    }

    /** One listed policy: rewritten without the principal, or deleted when nothing
        is left, both under the tag the listing read. */
    method StripPolicy(rec: Record, p: PrincipalId, fails: bool) returns (changed: bool)
      requires Valid() && p in unfinished
      requires rec.bucket in policies.policies && policies.policies[rec.bucket].rec == rec
      modifies policies
      ensures Valid() && Stripped(old(View()), View(), p)
      ensures changed <==> p in NamedSet(rec.policy)
      ensures changed && fails ==> View() == old(View()) && Naming(View().policies, p) != {}
      ensures !(changed && fails) ==>
        |Naming(View().policies, p)| + (if changed then 1 else 0) == |Naming(old(View()).policies, p)|
      ensures forall b :: b != rec.bucket ==>
        (b in policies.policies <==> b in old(policies.policies))
        && (b in policies.policies ==> policies.policies[b] == old(policies.policies)[b])
      ensures !(changed && fails) && rec.bucket in policies.policies ==> p !in NamedSet(policies.policies[rec.bucket].rec.policy)
    {
      var doc;
      doc, changed := RemovePrincipal(rec.policy, p);
      ghost var before := View().policies;
      assert before[rec.bucket] == rec.policy;
      if !changed || fails {
        assert changed ==> rec.bucket in Naming(before, p);
        return;
      }
      if doc.statements == [] { DropStripped(rec, p); } else { StoreStripped(rec, doc, p); }
      OneFewer(before, View().policies, rec.bucket, p);
    }

    method DropStripped(rec: Record, p: PrincipalId)
      requires Valid() && p in unfinished
      requires rec.bucket in policies.policies && policies.policies[rec.bucket].rec == rec
      requires Strip(rec.policy.statements, p) == [] && p in NamedSet(rec.policy)
      modifies policies
      ensures Valid() && Stripped(old(View()), View(), p)
      ensures policies.policies == old(policies.policies) - {rec.bucket}
    {
      ghost var t := View();
      var begun := policies.BeginDelete(rec.bucket, Some(rec.etag));
      if begun.Err? { assert false; }
      policies.FinishDelete(rec.bucket);
      StripToNothing(t, rec.bucket, p);
      assert View() == WithPolicy(t, rec.bucket, None);
    }

    method StoreStripped(rec: Record, doc: Document, p: PrincipalId)
      requires Valid() && p in unfinished
      requires rec.bucket in policies.policies && policies.policies[rec.bucket].rec == rec
      requires doc == StripDocument(rec.policy, p) && doc.statements != [] && p in NamedSet(rec.policy)
      modifies policies
      ensures Valid() && Stripped(old(View()), View(), p)
      ensures policies.policies.Keys == old(policies.policies).Keys
      ensures forall b :: b != rec.bucket && b in policies.policies ==> policies.policies[b] == old(policies.policies)[b]
      ensures p !in NamedSet(policies.policies[rec.bucket].rec.policy)
    {
      RotatorReady();
      ghost var t := View();
      assert rec.bucket in t.policies && rec.bucket in t.buckets;
      var x := Input(rec.bucket, tenant, doc, true, Some(rec.etag));
      var begun := policies.BeginPut(x, rec.bucket in buckets.buckets);
      if begun.Err? { assert false; }
      var etag := PutDocument(x);
      StripToDocument(t, rec.bucket, policies.policies[rec.bucket].rec.policy, p);
    }

    /** The last phase, while the principal row is held: no policy may name it;
        its keys' grants are revoked, the keys go, and the row is
        tombstoned. */
    method FinishRemoval(p: PrincipalId, now: nat, fails: bool) returns (err: Option<Error>)
      requires Valid() && p in unfinished
      requires forall b :: b in View().policies ==> p !in NamedSet(View().policies[b])
      modifies this, keys, delegations, publisher
      ensures Valid() && View().policies == old(View()).policies
      ensures Remembers(old(View()), View())
      ensures err == if fails && HoldLive(old(View()), KeysOf(old(View()), {p}), now) then Some(PublishFailed) else None
      ensures err.Some? ==> View() == old(View())
      ensures err.None? ==>
        && View().live == old(View()).live - {p} && View().unfinished == old(View()).unfinished - {p}
        && View().keys == old(View()).keys - KeysOf(old(View()), {p})
        && Stopped(old(View()), View(), KeysOf(old(View()), {p}), now)
    {
      ghost var t := View();
      if p !in LiveSet() {
        NoKeysOfDead(t, p);
        unfinished := unfinished - {p};
        assert View() == t.(unfinished := t.unfinished - {p});
        assert t.keys - {} == t.keys && t.live - {p} == t.live;
        return None;
      }
      var recs := policies.ListByPrincipal(tenant, p);
      forall rec | rec in recs ensures p !in NamedSet(rec.policy) { assert t.policies[rec.bucket] == rec.policy; }
      for i := 0 to |recs|
        modifies {}
        invariant forall rec <- recs :: p !in NamedSet(rec.policy)
      {
        var doc, named := RemovePrincipal(recs[i].policy, p);
        if named {
          assert false;
          return Some(NamedAgain);
        }
      }
      err := RemoveKeys(p, now, fails);
    }

    method DeleteRows(ids: seq<Did>)
      requires keys.Valid()
      modifies keys
      ensures keys.Valid() && keys.keys == old(keys.keys) - Elements(ids)
    {
      for i := 0 to |ids|
        invariant keys.Valid() && keys.keys == old(keys.keys) - Elements(ids[..i])
      {
        assert ids[..i + 1] == ids[..i] + [ids[i]];
        ElementsJoin(ids[..i], [ids[i]]);
        keys.Delete(ids[i]);
      }
      assert ids[..|ids|] == ids;
    }

    method RemoveKeys(p: PrincipalId, now: nat, fails: bool) returns (err: Option<Error>)
      requires Valid() && p in unfinished && p in LiveSet()
      requires forall b :: b in View().policies ==> p !in NamedSet(View().policies[b])
      modifies this, keys, delegations, publisher
      ensures Valid() && View().policies == old(View()).policies
      ensures Remembers(old(View()), View())
      ensures err == if fails && HoldLive(old(View()), KeysOf(old(View()), {p}), now) then Some(PublishFailed) else None
      ensures err.Some? ==> View() == old(View())
      ensures err.None? ==>
        && View().live == old(View()).live - {p} && View().unfinished == old(View()).unfinished - {p}
        && View().keys == old(View()).keys - KeysOf(old(View()), {p})
        && Stopped(old(View()), View(), KeysOf(old(View()), {p}), now)
    {
      RotatorReady();
      ghost var t := View();
      var recs := keys.ListByTenant(tenant, Filter(Some(p), None, None));
      BoundToOne(t, recs, p);
      err := RevokeHeld(Ids(recs), now, fails);
      if err.Some? { return; }
      ghost var gone := KeysOf(t, {p});
      assert View() == Cleared(t, gone, now);
      DeleteRows(Ids(recs));
      TombstoneRow(p, t, now);
    }

    method TombstoneRow(p: PrincipalId, ghost t: Tables, ghost now: nat)
      requires Wired() && Inv(t) && forall b :: b in t.policies ==> p !in NamedSet(t.policies[b])
      requires View() == Cleared(t, KeysOf(t, {p}), now).(keys := t.keys - KeysOf(t, {p}))
      modifies this
      ensures Valid() && View() == AfterGone(t, p, now)
    {
      PrincipalGoneCleared(t, p, now);
      ghost var u := AfterGone(t, p, now);
      principals := principals[p := false];
      clock, ever, unfinished := u.clock, u.ever, u.unfinished;
      assert LiveSet() == t.live - {p};
      assert View() == u;
    }

    // -------------------------------------------------------------------- buckets

    /** Create: the record, then the root delegation from the bucket's own key to
        the tenant. A later failure removes the record and leaves the root,
        inert. */
    method CreateBucket(b: Did, provider: Did, name: string, fails: bool) returns (err: Option<Error>)
      requires Valid() && b !in usedBuckets && b != UNDEF
      modifies this, buckets, delegations, source
      ensures Valid()
      ensures Remembers(old(View()), View())
      ensures View().policies == old(View()).policies && View().keys == old(View()).keys && View().live == old(View()).live
      ensures var valid, taken := provider != UNDEF && ValidName(name), exists o :: o in old(buckets.buckets) && old(buckets.buckets)[o].name == name;
        && (err == Some(InvalidArgument) <==> !valid)
        && (err == Some(RecordExists) <==> valid && taken)
        && (err == Some(RecordNotFound) <==> valid && !taken && fails)
        && (err == None <==> valid && !taken && !fails)
      ensures View().revoked == old(View()).revoked
      ensures err.Some? ==> View().buckets == old(View()).buckets
      ensures err.None? ==>
        && View().buckets == old(View()).buckets + {b} && buckets.buckets == old(buckets.buckets)[b := BucketRecord(b, tenant, provider, name)]
      ensures (err.None? || err == Some(RecordNotFound)) ==> exists root :: RootOf(root, b) && View().grants == old(View()).grants + {root}
      ensures err == Some(InvalidArgument) || err == Some(RecordExists) ==> View() == old(View())
      ensures View().unfinished == old(View()).unfinished
    {
      TenantDefined();
      NameMeans(name);
      ghost var t := View();
      err := buckets.Add(b, tenant, provider, name);
      if err.Some? {
        assert View() == t;
        return;
      }
      err := RootBucket(b, t, fails);
    }

    /** The root delegation, once the record is there. */
    method RootBucket(b: Did, ghost t: Tables, fails: bool) returns (err: Option<Error>)
      requires Wired() && Inv(t) && b !in t.usedBuckets && b !in t.buckets && b != UNDEF && View() == t.(buckets := t.buckets + {b})
      modifies this, buckets, delegations, source
      ensures Valid() && Remembers(t, View())
      ensures err == if fails then Some(RecordNotFound) else None
      ensures buckets.buckets == if fails then old(buckets.buckets) - {b} else old(buckets.buckets)
      ensures View().buckets == if fails then t.buckets else t.buckets + {b}
      ensures View().policies == t.policies && View().keys == t.keys && View().live == t.live
      ensures View().unfinished == t.unfinished && View().revoked == t.revoked
      ensures exists root :: RootOf(root, b) && View().grants == t.grants + {root}
    {
      var root := StoreRoot(b, t);
      assert RootOf(root, b);
      usedBuckets := usedBuckets + {b};
      assert View() == WithBucket(t, b, root);
      if fails {
        UndoBucket(b, root, t);
        return Some(RecordNotFound);
      }
      BucketCreated(t, b, root);
      err := None;
    }

    /** The bucket's own key lets the tenant do everything over it, for good. */
    ghost predicate RootOf(d: Delegation, b: Did) {
      d.issuer == b && d.subject == b && d.audience == tenant && d.command == "/" && d.expires.None?
    }

    method StoreRoot(b: Did, ghost t: Tables) returns (root: Delegation)
      requires delegations.Valid() && source.Valid() && Inv(t)
      requires delegations.Contents() == t.grants && source.minted == t.minted
      modifies delegations, source
      ensures delegations.Valid() && source.Valid() && IsRoot(root, tenant, b) && root.link !in t.minted
      ensures delegations.Contents() == t.grants + {root} && source.minted == t.minted + {root.link}
    {
      var link := source.Mint();
      root := Delegation(link, b, tenant, b, TOP, None);
      RootIsNew(t, root);
      assert Present([Some(root)]) == {root};
      var stored := delegations.PutBatch([Some(root)]);
    }

    method UndoBucket(b: Did, ghost root: Delegation, ghost t: Tables)
      requires Wired() && Inv(t) && b !in t.usedBuckets && b != UNDEF && b !in t.buckets
      requires IsRoot(root, t.tenant, b) && root.link !in t.minted && View() == WithBucket(t, b, root)
      modifies buckets
      ensures Valid() && View() == WithBucket(t, b, root).(buckets := t.buckets)
      ensures buckets.buckets == old(buckets.buckets) - {b}
    {
      buckets.Delete(b);
      BucketUndone(t, b, root);
      assert View() == WithBucket(t, b, root).(buckets := t.buckets);
    }

    /** Delete: publish what the tenant issued over the bucket, then drop every
        delegation over it, its record and its policy. A failed publish leaves
        all of them. */
    method DeleteBucket(b: Did, now: nat, fails: bool) returns (err: Option<Error>)
      requires Valid()
      modifies this, buckets, policies, delegations, publisher
      ensures Valid()
      ensures err.Some? ==> View() == old(View())
      ensures var t := old(View());
        var live := exists d :: d in t.grants && d.subject == b && d.issuer == tenant && Outlives(d, now);
        && (err == Some(RecordNotFound) <==> b !in t.buckets)
        && (err == Some(PublishFailed) <==> b in t.buckets && fails && live)
        && (err == None <==> b in t.buckets && !(fails && live))
      ensures err.None? ==> View() == WithoutBucket(old(View()), b, now) && Emptied(old(View()), View(), b, now)
    {
      WithoutMeans(View(), b, now);
      if b !in buckets.buckets { return Some(RecordNotFound); }
      RotatorReady();
      ghost var t := View();
      var ok := RevokeDelegations(b, now, fails);
      if !ok {
        assert View() == t;
        return Some(PublishFailed);
      }
      assert View() == t.(revoked := WithoutBucket(t, b, now).revoked);
      DropBucket(b, t, now);
      err := None;
    }

    method DropBucket(b: Did, ghost t: Tables, ghost now: nat)
      requires Wired() && Inv(t) && b in t.buckets && b != UNDEF
      requires View() == t.(revoked := WithoutBucket(t, b, now).revoked)
      modifies this, buckets, policies, delegations
      ensures Valid() && View() == WithoutBucket(t, b, now)
    {
      BucketDeleted(t, b, now);
      DropRows(b);
      clock := Later(clock, now);
      assert View() == WithoutBucket(t, b, now);
    }

    method DropRows(b: Did)
      requires Wired() && b != UNDEF
      modifies buckets, policies, delegations
      ensures Wired()
      ensures View() == old(View()).(
        grants := (set d | d in old(View()).grants && d.subject != b),
        buckets := old(View()).buckets - {b}, policies := old(View()).policies - {b})
    {
      ghost var t := View();
      var err := delegations.DeleteBySubject(b);
      buckets.Delete(b);
      policies.FinishDelete(b);
      assert Documents(policies.policies) == t.policies - {b};
      assert buckets.buckets.Keys == t.buckets - {b};
    }

    /** Publish a revocation for every delegation over the bucket that the tenant
        issued; the bucket's own root is not the tenant's to revoke. */
    method RevokeDelegations(b: Did, now: nat, fails: bool) returns (ok: bool)
      requires delegations.Valid() && LinksDistinct(delegations.Contents()) && b != UNDEF
      modifies publisher
      ensures var issued := set d | d in delegations.Contents() && d.subject == b && d.issuer == tenant;
        && (ok <==> !fails || Unexpired(issued, now) == {})
        && publisher.revoked == old(publisher.revoked) + if ok then Links(Unexpired(issued, now)) else {}
    {
      var listed := delegations.ListBySubject(b);
      var issued := [];
      for i := 0 to |listed.value|
        modifies {}
        invariant Elements(issued) == set d | d in listed.value[..i] && d.issuer == tenant
      {
        var d := listed.value[i];
        assert listed.value[..i + 1] == listed.value[..i] + [d];
        ElementsJoin(issued, [d]);
        if d.issuer != tenant { continue; }
        issued := issued + [d];
      }
      assert listed.value[..|listed.value|] == listed.value;
      assert Elements(issued) == set d | d in delegations.Contents() && d.subject == b && d.issuer == tenant;
      ok := PublishRevocations(publisher, issued, now, fails);
    }
  }

  /** No bucket b, no policy of it and no grant over it is left, and what the tenant
      had issued over it and had not expired is revoked. */
  ghost predicate Emptied(t: Tables, u: Tables, b: Did, now: nat) {
    && (forall o :: o in u.buckets <==> o in t.buckets && o != b)
    && (forall o :: PolicyOf(u, o) == if o == b then None else PolicyOf(t, o))
    && (forall d :: d in u.grants <==> d in t.grants && d.subject != b)
    && (forall l :: l in u.revoked <==>
         l in t.revoked || exists d :: d in t.grants && d.subject == b && d.issuer == t.tenant && Outlives(d, now) && d.link == l)
  }

  lemma WithoutMeans(t: Tables, b: Did, now: nat)
    ensures Emptied(t, WithoutBucket(t, b, now), b, now)
    ensures Unexpired((set d | d in t.grants && d.subject == b && d.issuer == t.tenant), now) != {} <==>
      exists d :: d in t.grants && d.subject == b && d.issuer == t.tenant && Outlives(d, now)
  {
    var going := Unexpired((set d | d in t.grants && d.subject == b && d.issuer == t.tenant), now);
    forall d ensures d in going <==> d in t.grants && d.subject == b && d.issuer == t.tenant && Outlives(d, now) {}
    if d :| d in t.grants && d.subject == b && d.issuer == t.tenant && Outlives(d, now) { assert d in going; }
    forall l ensures l in Links(going) <==>
      exists d :: d in t.grants && d.subject == b && d.issuer == t.tenant && Outlives(d, now) && d.link == l
    {
      if d :| d in t.grants && d.subject == b && d.issuer == t.tenant && Outlives(d, now) && d.link == l { assert d in going; }
    }
  }

  lemma RootIsNew(t: Tables, root: Delegation)
    requires Inv(t) && root.link !in t.minted
    ensures LinksDistinct(t.grants + {root})
  {
    Whole(t);
    forall d | d in t.grants ensures d.link in t.minted { assert d.link in Links(t.grants + t.ever); }
  }

  /** A removal's first phase is over. */
  function AfterRevoke(t: Tables, p: PrincipalId, now: nat): Tables {
    Settle(Cleared(t, KeysOf(t, {p}), now).(unfinished := t.unfinished + {p}, clock := Later(t.clock, now)))
  }

  lemma PrincipalCleared(t: Tables, p: PrincipalId, now: nat)
    requires Inv(t)
    ensures Inv(AfterRevoke(t, p, now))
  {
    PrincipalRevoked(t, p, now);
    NoLinks();
    assert AfterRevoke(t, p, now) == Settle(Rewrite(t.(unfinished := t.unfinished + {p}), KeysOf(t, {p}), None, {}, now));
  }

  /** The policy is as it was, or has lost p, and with it every statement that named
      p alone; a document left with no statement is gone. */
  ghost predicate StrippedAt(was: Option<Document>, now: Option<Document>, p: PrincipalId) {
    || now == was
    || (was.Some? && p in NamedSet(was.value)
        && if Strip(was.value.statements, p) == [] then now.None?
           else now.Some? && ETag(now.value) == ETag(StripDocument(was.value, p)))
  }

  /** Nobody but p has different access. */
  ghost predicate OthersSame(t: Tables, u: Tables, p: PrincipalId) {
    forall q, b :: q != p ==> EffectiveSet(PolicyOf(u, b), q) == EffectiveSet(PolicyOf(t, b), q)
  }

  /** Only policies differ, stripped of p, and nobody else has different access. */
  ghost predicate Stripped(t: Tables, u: Tables, p: PrincipalId) {
    && u == t.(policies := u.policies)
    && OthersSame(t, u, p)
    && forall b :: StrippedAt(PolicyOf(t, b), PolicyOf(u, b), p)
  }

  lemma StrippedCompose(t: Tables, z: Tables, u: Tables, p: PrincipalId)
    requires OthersSame(t, z, p) && forall b :: StrippedAt(PolicyOf(t, b), PolicyOf(z, b), p)
    requires u.policies == z.policies || (OthersSame(z, u, p) && forall b :: StrippedAt(PolicyOf(z, b), PolicyOf(u, b), p))
    ensures OthersSame(t, u, p) && forall b :: StrippedAt(PolicyOf(t, b), PolicyOf(u, b), p)
  {
    forall q, b | q != p ensures EffectiveSet(PolicyOf(u, b), q) == EffectiveSet(PolicyOf(t, b), q) {
      assert EffectiveSet(PolicyOf(z, b), q) == EffectiveSet(PolicyOf(t, b), q);
    }
    forall b ensures StrippedAt(PolicyOf(t, b), PolicyOf(u, b), p) {
      if u.policies == z.policies {
        assert PolicyOf(u, b) == PolicyOf(z, b);
      } else {
        StrippedOnce(PolicyOf(t, b), PolicyOf(z, b), PolicyOf(u, b), p);
      }
    }
  }

  /** A policy stripped of p is not stripped again. */
  lemma StrippedOnce(was: Option<Document>, mid: Option<Document>, now: Option<Document>, p: PrincipalId)
    requires StrippedAt(was, mid, p) && StrippedAt(mid, now, p)
    ensures StrippedAt(was, now, p)
  {
    if mid != was && mid.Some? {
      SameTagSameMeaning(mid.value, StripDocument(was.value, p), p);
      StripNames(was.value, p, p);
    }
  }

  /** The buckets whose policy names p. */
  ghost function Naming(policies: map<Did, Document>, p: PrincipalId): set<Did> {
    set b | b in policies && p in NamedSet(policies[b])
  }

  lemma OneFewer(was: map<Did, Document>, now: map<Did, Document>, b: Did, p: PrincipalId)
    requires b in was && (b in now ==> p !in NamedSet(now[b]))
    requires forall o :: o != b ==> (o in now <==> o in was) && (o in now ==> now[o] == was[o])
    ensures |Naming(was, p)| == |Naming(now, p)| + if p in NamedSet(was[b]) then 1 else 0
  {
    assert Naming(now, p) == Naming(was, p) - {b};
  }

  /** Clearing keys that already hold nothing changes nothing. */
  lemma StoppedTwice(t: Tables, z: Tables, u: Tables, keys: set<Did>, now: nat)
    requires Stopped(t, z, keys, now) && Stopped(z, u, keys, now)
    ensures Stopped(t, u, keys, now)
  {}

  /** From the i-th on, the listed records are stored as listed, and no other policy
      names p. */
  ghost predicate ToStrip(entries: map<Did, Entry>, recs: seq<Record>, i: nat, p: PrincipalId) {
    && (forall j :: i <= j < |recs| ==> recs[j].bucket in entries && entries[recs[j].bucket].rec == recs[j])
    && forall b :: b in entries && p in NamedSet(entries[b].rec.policy) ==> exists j :: i <= j < |recs| && recs[j].bucket == b
  }

  lemma OneStripped(was: map<Did, Entry>, now: map<Did, Entry>, recs: seq<Record>, i: nat, p: PrincipalId)
    requires ToStrip(was, recs, i, p) && i < |recs|
    requires forall j :: i < j < |recs| ==> recs[j].bucket != recs[i].bucket
    requires forall b :: b != recs[i].bucket ==> (b in now <==> b in was) && (b in now ==> now[b] == was[b])
    requires recs[i].bucket in now ==> p !in NamedSet(now[recs[i].bucket].rec.policy)
    ensures ToStrip(now, recs, i + 1, p)
  {
    forall b | b in now && p in NamedSet(now[b].rec.policy) ensures exists j :: i + 1 <= j < |recs| && recs[j].bucket == b {
      var j :| i <= j < |recs| && recs[j].bucket == b;
    }
  }

  lemma NamedAreListed(entries: map<Did, Entry>, recs: seq<Record>, tenant: Did, p: PrincipalId)
    requires forall b :: b in entries ==> entries[b].tenant == tenant && entries[b].rec.bucket == b
    requires forall r :: r in recs <==>
      r.bucket in entries && entries[r.bucket].rec == r && entries[r.bucket].tenant == tenant && Indexed(r.policy, p)
    ensures forall i :: 0 <= i < |recs| ==> recs[i].bucket in entries && entries[recs[i].bucket].rec == recs[i]
    ensures forall b :: b in entries && p in NamedSet(entries[b].rec.policy) ==> exists i :: 0 <= i < |recs| && recs[i].bucket == b
  {
    forall i | 0 <= i < |recs| ensures recs[i].bucket in entries && entries[recs[i].bucket].rec == recs[i] { assert recs[i] in recs; }
    forall b | b in entries && p in NamedSet(entries[b].rec.policy) ensures exists i :: 0 <= i < |recs| && recs[i].bucket == b {
      assert entries[b].rec in recs;
    }
  }

  lemma StripToNothing(t: Tables, b: Did, p: PrincipalId)
    requires Inv(t) && b in t.policies && p in t.unfinished && Strip(t.policies[b].statements, p) == []
    requires p in NamedSet(t.policies[b])
    ensures Inv(WithPolicy(t, b, None)) && Stripped(t, WithPolicy(t, b, None), p)
  {
    var u := WithPolicy(t, b, None);
    forall q | q != p ensures EffectiveSet(None, q) == EffectiveSet(PolicyOf(t, b), q) { StripPreservesOthers(t.policies[b], p, q); }
    PolicyStripped(t, b, None, p);
    forall q, o | q != p ensures EffectiveSet(PolicyOf(u, o), q) == EffectiveSet(PolicyOf(t, o), q) {}
  }

  lemma StripToDocument(t: Tables, b: Did, doc: Document, p: PrincipalId)
    requires Inv(t) && b in t.policies && p in t.unfinished && ETag(doc) == ETag(StripDocument(t.policies[b], p))
    requires p in NamedSet(t.policies[b]) && Strip(t.policies[b].statements, p) != []
    ensures Inv(WithPolicy(t, b, Some(doc))) && Stripped(t, WithPolicy(t, b, Some(doc)), p)
    ensures p !in NamedSet(doc)
  {
    var u, d := WithPolicy(t, b, Some(doc)), StripDocument(t.policies[b], p);
    SameMeaning(doc, d);
    StripLeavesWildcard(t.policies[b], p);
    forall q | q != p ensures EffectiveSet(Some(doc), q) == EffectiveSet(PolicyOf(t, b), q) { StripPreservesOthers(t.policies[b], p, q); }
    PolicyStripped(t, b, Some(doc), p);
    forall q, o | q != p ensures EffectiveSet(PolicyOf(u, o), q) == EffectiveSet(PolicyOf(t, o), q) {}
  }

  /** A principal that is not live has no keys, so its removal has nothing left
      to do. */
  lemma NoKeysOfDead(t: Tables, p: PrincipalId)
    requires Inv(t) && p !in t.live
    ensures KeysOf(t, {p}) == {} && Inv(t.(unfinished := t.unfinished - {p}))
  {
    Whole(t);
    assert forall k :: k in t.keys ==> KeyRowAgrees(t, k);
    var u := t.(unfinished := t.unfinished - {p});
    forall b | b in u.buckets ensures Rooted(u, b) { RootedMore(t, u, b); }
    forall k, b | k in u.keys && !Unsettled(u, u.keys[k]) ensures Held(u.grants, k, b) == KeyRequires(u, u.keys[k], b) {
      assert !Unsettled(t, t.keys[k]);
      assert Held(t.grants, k, b) == KeyRequires(t, t.keys[k], b);
    }
  }

  lemma BoundToOne(t: Tables, recs: seq<KeyRecord>, p: PrincipalId)
    requires Inv(t)
    requires forall rec :: rec in recs <==>
      rec.id in t.keys && t.keys[rec.id] == rec && KeyStore.Selected(rec, t.tenant, Filter(Some(p), None, None))
    ensures Elements(Ids(recs)) == KeysOf(t, {p})
  {
    Whole(t);
    forall k | k in KeysOf(t, {p}) ensures k in Ids(recs) {
      assert KeyRowAgrees(t, k);
      assert t.keys[k] in recs;
      var i :| 0 <= i < |recs| && recs[i] == t.keys[k];
      assert Ids(recs)[i] == k;
    }
    forall k | k in Ids(recs) ensures k in KeysOf(t, {p}) {
      var i :| 0 <= i < |recs| && Ids(recs)[i] == k;
      assert recs[i] in recs;
    }
  }

  /** The removal is over: the keys, then the row. */
  function AfterGone(t: Tables, p: PrincipalId, now: nat): Tables {
    Tombstoned(Settle(WithoutKeys(Cleared(t, KeysOf(t, {p}), now), KeysOf(t, {p})).(clock := Later(t.clock, now))), p)
  }

  lemma PrincipalGoneCleared(t: Tables, p: PrincipalId, now: nat)
    requires Inv(t) && forall b :: b in t.policies ==> p !in NamedSet(t.policies[b])
    ensures Inv(AfterGone(t, p, now))
  {
    PrincipalGone(t, p, now);
    NoLinks();
    var keys := KeysOf(t, {p});
    assert Settle(WithoutKeys(Cleared(t, keys, now), keys).(clock := Later(t.clock, now)))
        == Settle(Rewrite(WithoutKeys(t, keys), keys, None, {}, now));
  }

  /** Some keys' grants are revoked and gone. */
  function Cleared(t: Tables, keys: set<Did>, now: nat): Tables {
    t.(grants := t.grants - Outgoing(t.grants, keys, None),
       revoked := t.revoked + Links(Unexpired(Outgoing(t.grants, keys, None), now)))
  }

  lemma KeysCleared(t: Tables, keys: set<Did>, now: nat)
    requires Inv(t) && keys <= t.keys.Keys
    ensures Inv(Settle(WithoutKeys(Cleared(t, keys, now), keys).(clock := Later(t.clock, now))))
  {
    KeysDeleted(t, keys, now);
    NoLinks();
    assert Settle(WithoutKeys(Cleared(t, keys, now), keys).(clock := Later(t.clock, now)))
        == Settle(Rewrite(WithoutKeys(t, keys), keys, None, {}, now));
  }

  lemma ClearedMeans(t: Tables, keys: set<Did>, now: nat)
    ensures Stopped(t, Cleared(t, keys, now), keys, now)
    ensures HoldLive(t, keys, now) <==> Unexpired(Outgoing(t.grants, keys, None), now) != {}
  {
    var going := Unexpired(Outgoing(t.grants, keys, None), now);
    forall d ensures d in going <==> d in t.grants && d.audience in keys && Outlives(d, now) {}
    if d :| d in t.grants && d.audience in keys && Outlives(d, now) { assert d in going; }
    forall l ensures l in Links(going) <==> exists d :: d in t.grants && d.audience in keys && Outlives(d, now) && d.link == l {
      if d :| d in t.grants && d.audience in keys && Outlives(d, now) && d.link == l { assert d in going; }
    }
  }

  lemma IncomingWrap(id: Did, dels: seq<Delegation>)
    ensures Incoming({id}, map[id := Wrap(dels)]) == Elements(dels)
  {
    WrapHas(dels);
    forall d | d in dels ensures d in Incoming({id}, map[id := Wrap(dels)]) {
      assert d in Present(Wrap(dels));
    }
    forall d | d in Incoming({id}, map[id := Wrap(dels)]) ensures d in Elements(dels) {
      assert d in Present(Wrap(dels));
    }
  }

  /** Principals, policies and buckets are as they were. */
  ghost predicate SameButKeys(t: Tables, u: Tables) {
    && Remembers(t, u)
    && u.tenant == t.tenant && u.live == t.live && u.policies == t.policies && u.buckets == t.buckets
    && u.unfinished == t.unfinished
  }

  /** issued is what the key requires, freshly signed for it. */
  ghost predicate NewKey(t: Tables, rec: KeyRecord, issued: set<Delegation>) {
    && rec.id != t.tenant && rec.tenant == t.tenant
    && (rec.principal.Some? ==> rec.principal.value in t.live)
    && (forall b :: b in rec.buckets ==> b in t.buckets)
    && Fresh(t, {rec.id}, None, issued)
    && (forall d :: d in issued ==> d.expires == rec.expires)
    && forall b :: Held(issued, rec.id, b) == KeyRequires(t, rec, b)
  }

  function AfterKey(t: Tables, rec: KeyRecord, issued: set<Delegation>): Tables {
    Settle(WithKey(t, rec).(grants := t.grants + issued, minted := t.minted + Links(issued)))
  }

  /** Nothing mentions a key id never used. */
  lemma KeyIsNew(t: Tables, id: Did)
    requires Inv(t) && id !in t.usedKeys && id != t.tenant
    ensures id !in t.keys && forall d :: d in t.grants ==> d.audience != id
  {
    Whole(t);
  }

  lemma NewKeyStores(t: Tables, rec: KeyRecord, issued: set<Delegation>)
    requires Inv(t) && rec.id !in t.usedKeys && NewKey(t, rec, issued)
    ensures Inv(AfterKey(t, rec, issued))
    ensures LinksDistinct(t.grants + issued)
    ensures Outgoing(t.grants, {rec.id}, None) == {}
  {
    KeyIsNew(t, rec.id);
    KeyCreated(t, rec, issued, 0);
    assert Going(t, {rec.id}, None) == {};
    assert Unexpired({}, 0) == {};
    NoLinks();
    assert AfterKey(t, rec, issued) == Settle(Rewrite(WithKey(t, rec), {rec.id}, None, issued, 0));
    Whole(t);
    forall d | d in t.grants ensures d.link in t.minted { assert d.link in Links(t.grants + t.ever); }
  }

  lemma AcceptedWrap(id: Did, dels: seq<Delegation>)
    requires forall d :: d in dels ==> d.audience == id
    ensures Accepted([id], None, map[id := Wrap(dels)])
  {
    WrapHas(dels);
    forall o | o in Wrap(dels) ensures o.Some? && o.value.audience == id {
      assert o.Some? ==> o.value in Present(Wrap(dels));
    }
  }

  /** For each listed policy, the key gets what it grants the principal. */
  ghost predicate IssuedFrom(dels: seq<Delegation>, tenant: Did, id: Did, recs: seq<Record>, p: PrincipalId, minted: set<string>) {
    && LinksDistinct(Elements(dels))
    && (forall d :: d in dels ==>
         d.link !in minted && d.issuer == tenant && d.audience == id && exists r :: r in recs && r.bucket == d.subject)
    && forall r :: r in recs ==> Held(Elements(dels), id, r.bucket) == CommandSet(EffectiveSet(Some(r.policy), p))
  }

  lemma IssuedNothing(dels: seq<Delegation>, tenant: Did, id: Did, recs: seq<Record>, p: PrincipalId, minted: set<string>, r: Record)
    requires IssuedFrom(dels, tenant, id, recs, p, minted) && EffectiveSet(Some(r.policy), p) == {}
    requires forall o :: o in recs ==> o.bucket != r.bucket
    ensures IssuedFrom(dels, tenant, id, recs + [r], p, minted)
  {
    assert Over(Elements(dels), id, r.bucket) == {};
  }

  lemma IssuedMore(
      dels: seq<Delegation>, tenant: Did, id: Did, recs: seq<Record>, p: PrincipalId, minted: set<string>,
      r: Record, granted: seq<Delegation>)
    requires IssuedFrom(dels, tenant, id, recs, p, minted)
    requires forall o :: o in recs ==> o.bucket != r.bucket
    requires IssuedFor(granted, tenant, id, {r.bucket}, CommandSet(EffectiveSet(Some(r.policy), p)))
    requires forall d :: d in granted ==> d.link !in minted + Links(Elements(dels))
    ensures IssuedFrom(dels + granted, tenant, id, recs + [r], p, minted)
  {
    var all := Elements(dels + granted);
    ElementsJoin(dels, granted);
    IssuedHeld(granted, tenant, id, {r.bucket}, CommandSet(EffectiveSet(Some(r.policy), p)), r.bucket);
    forall d | d in dels ensures d.link in Links(Elements(dels)) { assert d in Elements(dels); }
    forall o | o in recs + [r] ensures Held(all, id, o.bucket) == CommandSet(EffectiveSet(Some(o.policy), p)) {
      if o in recs { HeldSame(all, Elements(dels), id, o.bucket); } else { HeldSame(all, Elements(granted), id, o.bucket); }
    }
  }

  /** What was issued from the listing is what the key requires. */
  lemma ListedRequires(t: Tables, entries: map<Did, Entry>, recs: seq<Record>, dels: seq<Delegation>, rec: KeyRecord, p: PrincipalId)
    requires Inv(t) && t.policies == Documents(entries) && rec.tenant == t.tenant && rec.id != t.tenant && rec.id !in t.keys
    requires rec.principal == Some(p) && p in t.live && rec.buckets == []
    requires forall b :: b in entries ==> entries[b].tenant == t.tenant && entries[b].rec.bucket == b
    requires forall r :: r in recs <==>
      r.bucket in entries && entries[r.bucket].rec == r && entries[r.bucket].tenant == t.tenant && Indexed(r.policy, p)
    requires IssuedFrom(dels, t.tenant, rec.id, recs, p, t.minted) && forall d :: d in dels ==> d.expires == rec.expires
    ensures NewKey(t, rec, Elements(dels))
  {
    Whole(t);
    var issued := Elements(dels);
    forall b ensures Held(issued, rec.id, b) == KeyRequires(t, rec, b) {
      if b in entries && entries[b].rec in recs {
        assert PolicyOf(t, b) == Some(entries[b].rec.policy);
      } else {
        if b in entries { NothingUnlisted(entries, recs, t.tenant, p, b); }
        assert EffectiveSet(PolicyOf(t, b), p) == {};
        assert Over(issued, rec.id, b) == {};
      }
    }
  }

  lemma ServiceRequires(t: Tables, dels: seq<Delegation>, rec: KeyRecord)
    requires Inv(t) && rec.principal.None? && rec.tenant == t.tenant && rec.id != t.tenant && rec.id !in t.keys
    requires forall i :: 0 <= i < |rec.buckets| ==> rec.buckets[i] in t.buckets
    requires IssuedFor(dels, t.tenant, rec.id, if rec.buckets == [] then {UNDEF} else Elements(rec.buckets), CommandSet(Elements(rec.permissions)))
    requires forall d :: d in dels ==> d.link !in t.minted && d.expires == rec.expires
    ensures NewKey(t, rec, Elements(dels))
  {
    Whole(t);
    var subjects := if rec.buckets == [] then {UNDEF} else Elements(rec.buckets);
    IssuedHeld(dels, t.tenant, rec.id, subjects, CommandSet(Elements(rec.permissions)), UNDEF);
    forall b ensures Held(Elements(dels), rec.id, b) == KeyRequires(t, rec, b) {
      IssuedHeld(dels, t.tenant, rec.id, subjects, CommandSet(Elements(rec.permissions)), b);
    }
  }

  lemma DocumentsStored(was: map<Did, Entry>, now: map<Did, Entry>, b: Did)
    requires now.Keys == was.Keys + {b} && forall o :: o in was && o != b ==> now[o] == was[o]
    ensures Documents(now) == Documents(was)[b := now[b].rec.policy]
  {}

  /** What was ever held, published or timed stays known. */
  ghost predicate Remembers(t: Tables, u: Tables) {
    t.ever <= u.ever && t.revoked <= u.revoked && t.clock <= u.clock
  }

  /** Principals, keys and buckets are as they were. */
  ghost predicate SameRows(t: Tables, u: Tables) {
    && Remembers(t, u)
    && u.tenant == t.tenant && u.live == t.live && u.keys == t.keys && u.buckets == t.buckets
    && u.unfinished == t.unfinished
  }

  /** The write x committed: it was allowed, the bucket's policy now has its tag,
      and no other bucket's policy, no principal, key or bucket changed. */
  ghost predicate PolicyWrite(t: Tables, u: Tables, x: Input) {
    && NamedSet(x.policy) <= t.live && x.bucket in t.buckets
    && (x.conditional ==> TagOf(PolicyOf(t, x.bucket)) == x.ifMatch)
    && PolicyChange(t, u, x)
  }

  ghost predicate PolicyChange(t: Tables, u: Tables, x: Input) {
    && TagOf(PolicyOf(u, x.bucket)) == Some(ETag(x.policy))
    && (forall b :: b != x.bucket ==> PolicyOf(u, b) == PolicyOf(t, b))
    && SameRows(t, u)
  }

  /** A policy change commits after the rotation made for it. */
  function AfterPolicy(z: Tables, b: Did, doc: Option<Document>, now: nat): Tables {
    Settle(WithPolicy(z, b, doc).(clock := Later(z.clock, now)))
  }

  lemma PolicyDropped(t: Tables, z: Tables, b: Did, affected: set<PrincipalId>, issued: set<Delegation>, now: nat)
    requires Inv(t) && b in t.buckets && RotatedTables(t, z, b, None, affected, issued, now)
    ensures Inv(AfterPolicy(z, b, None, now))
  {
    var u := Settle(Rewrite(WithPolicy(t, b, None), KeysOf(t, affected), Some(b), issued, now));
    RotationExact(t, b, None, affected, issued);
    PolicyRotated(t, b, None, affected, issued, now);
    MoreMinted(u, z.minted);
    assert AfterPolicy(z, b, None, now) == u.(minted := z.minted);
  }

  /** The grants over the bucket are rewritten for a new document, for the keys of
      everyone it affects, and nothing else is. */
  ghost predicate RotatedTables(
      t: Tables, u: Tables, b: Did, doc: Option<Document>, affected: set<PrincipalId>, issued: set<Delegation>, now: nat)
  {
    && affected == ChangedSet(PolicyOf(t, b), doc, t.live)
    && Fresh(t, KeysOf(t, affected), Some(b), issued)
    && (forall k :: k in KeysOf(t, affected) ==> Held(issued, k, b) == CommandSet(EffectiveSet(doc, t.keys[k].principal.value)))
    && t.minted + Links(issued) <= u.minted
    && u == Rewrite(t, KeysOf(t, affected), Some(b), issued, now).(minted := u.minted, clock := t.clock)
  }

  lemma RotatedIsTables(
      t: Tables, a: Stored, z: Stored, b: Did, doc: Option<Document>, affected: set<PrincipalId>,
      actions: map<PrincipalId, seq<string>>, issued: set<Delegation>, now: nat)
    requires Inv(t) && b in t.buckets && a == Stored(t.grants, t.revoked, t.minted)
    requires affected == ChangedSet(PolicyOf(t, b), doc, t.live)
    requires actions.Keys == affected && forall p :: p in actions ==> Elements(actions[p]) == EffectiveSet(doc, p)
    requires Rotated(a, z, t.tenant, t.keys, KeysOf(t, affected), b, actions, now, issued)
    ensures RotatedTables(t, t.(grants := z.contents, revoked := z.revoked, minted := z.minted), b, doc, affected, issued, now)
  {
    Whole(t);
  }

  /** What the rotation sees as going is what the change replaces. */
  lemma GoingMeans(t: Tables, b: Did, doc: Option<Document>, d: Delegation)
    requires Inv(t)
    ensures d in Outgoing(t.grants, KeysOf(t, ChangedSet(PolicyOf(t, b), doc, t.live)), Some(b)) <==> Replaces(t, b, doc, d)
  {
    Whole(t);
    if d.audience in t.keys && t.keys[d.audience].principal.Some? {
      assert KeyRowAgrees(t, d.audience);
      ChangedIsExact(PolicyOf(t, b), doc, t.live, t.keys[d.audience].principal.value);
    }
  }

  lemma MustPublishMeans(t: Tables, b: Did, doc: Option<Document>, now: nat)
    requires Inv(t)
    ensures MustPublish(t, b, doc, now) <==>
      Unexpired(Outgoing(t.grants, KeysOf(t, ChangedSet(PolicyOf(t, b), doc, t.live)), Some(b)), now) != {}
    ensures MustPublish(t, b, doc, now) ==> ChangedSet(PolicyOf(t, b), doc, t.live) != {}
  {
    var going := Outgoing(t.grants, KeysOf(t, ChangedSet(PolicyOf(t, b), doc, t.live)), Some(b));
    forall d ensures d in going <==> Replaces(t, b, doc, d) { GoingMeans(t, b, doc, d); }
    if d :| Replaces(t, b, doc, d) && Outlives(d, now) { assert d in Unexpired(going, now); }
    if d :| d in Unexpired(going, now) { assert Replaces(t, b, doc, d) && Outlives(d, now); }
  }

  lemma RotatedRenews(
      t: Tables, z: Tables, b: Did, doc: Option<Document>, affected: set<PrincipalId>, issued: set<Delegation>, now: nat)
    requires Inv(t) && RotatedTables(t, z, b, doc, affected, issued, now)
    ensures Renewed(t, z, b, doc, now)
  {
    Whole(t);
    var going := Outgoing(t.grants, KeysOf(t, affected), Some(b));
    forall d ensures d in going <==> Replaces(t, b, doc, d) { GoingMeans(t, b, doc, d); }
    forall d | d in t.grants ensures d !in issued { assert d.link in Links(t.grants + t.ever); }
    forall l ensures l in Links(Unexpired(going, now)) <==> exists d :: Replaces(t, b, doc, d) && Outlives(d, now) && d.link == l {
      if d :| Replaces(t, b, doc, d) && Outlives(d, now) && d.link == l { assert d in Unexpired(going, now); }
    }
  }

  lemma SameRenewed(t: Tables, z: Tables, u: Tables, b: Did, doc: Option<Document>, now: nat)
    requires Renewed(t, z, b, doc, now) && u.grants == z.grants && u.revoked == z.revoked
    ensures Renewed(t, u, b, doc, now)
  {}

  lemma NothingRotates(t: Tables, bucket: Did, now: nat)
    ensures KeysOf(t, {}) == {}
    ensures Rewrite(t, {}, Some(bucket), {}, now).grants == t.grants
    ensures Rewrite(t, {}, Some(bucket), {}, now).revoked == t.revoked
    ensures Links({}) == {}
  {
    assert Unexpired({}, now) == {};
    assert Going(t, {}, Some(bucket)) == {};
  }

  /** Writing a document's normal form after rotating to the document itself. */
  lemma PolicyWritten(
      t: Tables, z: Tables, b: Did, given: Document, doc: Document, affected: set<PrincipalId>,
      issued: set<Delegation>, now: nat)
    requires Inv(t) && b in t.buckets && NamedSet(given) <= t.live && ETag(given) == ETag(doc)
    requires RotatedTables(t, z, b, Some(given), affected, issued, now)
    ensures Inv(AfterPolicy(z, b, Some(doc), now))
  {
    var u := Settle(Rewrite(WithPolicy(t, b, Some(doc)), KeysOf(t, affected), Some(b), issued, now));
    SameMeaning(given, doc);
    RotationExact(t, b, Some(doc), affected, issued);
    PolicyRotated(t, b, Some(doc), affected, issued, now);
    MoreMinted(u, z.minted);
    assert AfterPolicy(z, b, Some(doc), now) == u.(minted := z.minted);
  }

  lemma SameMeaning(d: Document, e: Document)
    requires ETag(d) == ETag(e)
    ensures forall p :: EffectiveSet(Some(d), p) == EffectiveSet(Some(e), p)
    ensures NamedSet(d) == NamedSet(e)
  {
    SameTagSameMeaning(d, e, "");
    forall p ensures EffectiveSet(Some(d), p) == EffectiveSet(Some(e), p) { SameTagSameMeaning(d, e, p); }
  }

  /** The principals found affected cover every live one whose access changes. */
  lemma RotationExact(t: Tables, b: Did, doc: Option<Document>, affected: set<PrincipalId>, issued: set<Delegation>)
    requires affected == ChangedSet(PolicyOf(t, b), doc, t.live)
      || exists d :: doc.Some? && ETag(d) == ETag(doc.value) && affected == ChangedSet(PolicyOf(t, b), Some(d), t.live)
    ensures forall p :: p in t.live && EffectiveSet(PolicyOf(t, b), p) != EffectiveSet(doc, p) ==> p in affected
  {
    if affected == ChangedSet(PolicyOf(t, b), doc, t.live) {
      forall p | p in t.live { ChangedIsExact(PolicyOf(t, b), doc, t.live, p); }
    } else {
      var d :| doc.Some? && ETag(d) == ETag(doc.value) && affected == ChangedSet(PolicyOf(t, b), Some(d), t.live);
      SameMeaning(d, doc.value);
      forall p | p in t.live { ChangedIsExact(PolicyOf(t, b), Some(d), t.live, p); }
    }
  }
}
