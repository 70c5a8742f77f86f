/** One tenant's tables, what its services keep true of them, and why each
    change keeps it. The services themselves are in Services. */
module Tenancy {
  import opened Common
  import opened Access
  import opened BucketPolicy
  import opened Permissions
  import opened Delegations
  import opened DelegationStore
  import opened KeyStore

  datatype Tables = Tables(
    tenant: Did,
    live: set<PrincipalId>,
    keys: map<Did, KeyRecord>,
    policies: map<Did, Document>,
    buckets: set<Did>,
    grants: set<Delegation>,
    revoked: set<string>,
    minted: set<string>,         // links ever signed
    usedKeys: set<Did>,          // key ids and bucket ids ever generated
    usedBuckets: set<Did>,
    ever: set<Delegation>,       // what created keys ever held
    unfinished: set<PrincipalId>, // principals with a removal left unfinished
    clock: nat)

  function PolicyOf(t: Tables, b: Did): Option<Document> {
    if b in t.policies then Some(t.policies[b]) else None
  }

  /** What a key must hold over a subject: a principal-bound key, what the
      bucket's policy grants its principal; a service key, its permissions over
      each bucket of its scope, or over every bucket at once when it has none. */
  function KeyRequires(t: Tables, rec: KeyRecord, b: Did): set<Command> {
    if rec.principal.Some? then CommandSet(EffectiveSet(PolicyOf(t, b), rec.principal.value))
    else if rec.buckets == [] then if b == UNDEF then CommandSet(Elements(rec.permissions)) else {}
    else if b in rec.buckets && b in t.buckets then CommandSet(Elements(rec.permissions))
    else {}
  }

  predicate Unsettled(t: Tables, rec: KeyRecord) {
    rec.principal.Some? && rec.principal.value in t.unfinished
  }

  /** Grants agree with policies: every key holds exactly what it requires. */
  ghost predicate GrantsAgree(t: Tables) {
    forall k, b :: k in t.keys && !Unsettled(t, t.keys[k]) ==> Held(t.grants, k, b) == KeyRequires(t, t.keys[k], b)
  }

  /** No delegation a created key ever held is simply gone: it is stored, was
      published as revoked, or had expired when it was dropped. */
  ghost predicate Conserved(t: Tables) {
    forall d :: d in t.ever ==> d in t.grants || d.link in t.revoked || Expired(d, t.clock)
  }

  predicate IsRoot(d: Delegation, tenant: Did, b: Did) {
    d.issuer == b && d.subject == b && d.audience == tenant && d.command == TOP && d.expires == None
  }

  ghost predicate Rooted(t: Tables, b: Did) {
    exists d :: d in t.grants && IsRoot(d, t.tenant, b)
  }

  ghost predicate RowsAgree(t: Tables) {
    && t.tenant != UNDEF && t.tenant !in t.usedKeys && UNDEF !in t.usedBuckets && WILDCARD !in t.live
    && t.policies.Keys <= t.buckets <= t.usedBuckets
    && t.keys.Keys <= t.usedKeys
    && (forall b :: b in t.policies ==> NamedSet(t.policies[b]) <= t.live)
    && (forall k :: k in t.keys ==> KeyRowAgrees(t, k))
  }

  ghost predicate KeyRowAgrees(t: Tables, k: Did)
    requires k in t.keys
  {
    && t.keys[k].id == k && t.keys[k].tenant == t.tenant
    && (t.keys[k].principal.Some? ==> t.keys[k].principal.value in t.live)
    && forall b :: b in t.keys[k].buckets ==> b in t.usedBuckets
  }

  ghost predicate GrantsFiled(t: Tables) {
    && LinksDistinct(t.grants + t.ever)
    && Links(t.grants + t.ever) <= t.minted
    && (forall d :: d in t.grants ==> d.audience == t.tenant || (d.audience in t.usedKeys && d.issuer == t.tenant))
    && (forall d :: d in t.grants ==> d.subject == UNDEF || d.subject in t.usedBuckets)
    && (forall d :: d in t.grants && d.audience in t.keys ==> d in t.ever)
    && (forall d :: d in t.ever ==> d.issuer == t.tenant)
    && (forall d :: d in t.grants && d.audience in t.keys ==> d.expires == t.keys[d.audience].expires)
  }

  ghost predicate AllAgree(t: Tables) {
    && RowsAgree(t)
    && GrantsFiled(t)
    && (forall b :: b in t.buckets ==> Rooted(t, b))
    && GrantsAgree(t)
    && Conserved(t)
  }

  /** The services' invariant, as a whole: a quantifier, so that a proof that
      only passes it on does not take it apart. */
  ghost predicate Inv(t: Tables) {
    forall u :: u == t ==> AllAgree(u)
  }

  /** A tenant as it is provisioned. */
  lemma EmptyInv(tenant: Did)
    requires tenant != UNDEF
    ensures Inv(Tables(tenant, {}, map[], map[], {}, {}, {}, {}, {}, {}, {}, {}, 0))
  {}

  lemma Whole(t: Tables)
    requires Inv(t)
    ensures AllAgree(t)
  {}

  /** Grants agree with policies: a principal-bound key holds over each bucket
      exactly the commands of its principal's effective set. */
  lemma KeysAgreeWithPolicies(t: Tables, k: Did, p: PrincipalId, b: Did)
    requires Inv(t) && k in t.keys && t.keys[k].principal == Some(p) && p !in t.unfinished
    ensures Held(t.grants, k, b) == CommandSet(EffectiveSet(PolicyOf(t, b), p))
  {
    Whole(t);
    assert Held(t.grants, k, b) == KeyRequires(t, t.keys[k], b);
  }

  /** Policies are enforced: a settled principal's key can run a command over a
      bucket exactly when the bucket's policy permits the principal an action that
      maps to it. */
  lemma PoliciesEnforced(t: Tables, k: Did, p: PrincipalId, b: Did, c: Command)
    requires Inv(t) && k in t.keys && t.keys[k].principal == Some(p) && p !in t.unfinished
    ensures CanRun(t.grants, k, b, c) <==> b in t.policies && LetsRun(t.policies[b], p, c)
  {
    KeysAgreeWithPolicies(t, k, p, b);
    HeldMeans(t.grants, k, b, c);
    LetsRunMeans(PolicyOf(t, b), p, c);
  }

  /** A service key can run, over each bucket of its scope that still stands, or
      over every bucket at once when it has no scope, exactly what its permissions
      map to. */
  lemma ServiceKeysEnforced(t: Tables, k: Did, b: Did, c: Command)
    requires Inv(t) && k in t.keys && t.keys[k].principal.None?
    ensures CanRun(t.grants, k, b, c) <==>
      && (if t.keys[k].buckets == [] then b == UNDEF else b in t.keys[k].buckets && b in t.buckets)
      && exists a :: a in t.keys[k].permissions && Maps(a, c)
  {
    Whole(t);
    var rec := t.keys[k];
    assert Held(t.grants, k, b) == KeyRequires(t, rec, b);
    HeldMeans(t.grants, k, b, c);
    CommandSetMeans(Elements(rec.permissions), c);
  }

  /** Grants expire with their key, and not before. */
  lemma GrantsExpireWithKey(t: Tables, k: Did, d: Delegation)
    requires Inv(t) && k in t.keys && d in t.grants && d.audience == k
    ensures d.issuer == t.tenant && d.expires == t.keys[k].expires
  {
    Whole(t);
  }

  /** Conservation: what a created key ever held is still stored, was published
      as revoked, or has expired. */
  lemma NothingVanishes(t: Tables, d: Delegation)
    requires Inv(t) && d in t.ever
    ensures d in t.grants || d.link in t.revoked || (d.expires.Some? && d.expires.value <= t.clock)
  {
    Whole(t);
  }

  /** What a key holds now is remembered. */
  lemma HeldIsRemembered(t: Tables, k: Did, d: Delegation)
    requires Inv(t) && k in t.keys && d in t.grants && d.audience == k
    ensures d in t.ever
  {
    Whole(t);
  }

  // -------------------------------------------------------------------- changes

  /** Remember what the keys now hold. */
  function Settle(t: Tables): Tables {
    t.(ever := t.ever + set d | d in t.grants && d.audience in t.keys)
  }

  function Later(a: nat, b: nat): nat { if a < b then b else a }

  /** The delegations a rewrite replaces. */
  function Going(t: Tables, keys: set<Did>, over: Option<Did>): set<Delegation> {
    Outgoing(t.grants, keys, over)
  }

  /** Publish what goes that has not expired, then store what comes instead. */
  function Rewrite(t: Tables, keys: set<Did>, over: Option<Did>, issued: set<Delegation>, now: nat): Tables {
    t.(grants := t.grants - Going(t, keys, over) + issued,
       minted := t.minted + Links(issued),
       revoked := t.revoked + Links(Unexpired(Going(t, keys, over), now)),
       clock := Later(t.clock, now))
  }

  /** Freshly signed by the tenant, for keys, over what is being rewritten. */
  ghost predicate Fresh(t: Tables, keys: set<Did>, over: Option<Did>, issued: set<Delegation>) {
    && LinksDistinct(issued)
    && forall d :: d in issued ==>
      d.link !in t.minted && d.issuer == t.tenant && d.audience in keys && Covers(over, d)
      && (d.subject == UNDEF || d.subject in t.usedBuckets)
      && (d.audience in t.keys ==> d.expires == t.keys[d.audience].expires)
  }

  lemma HeldSame(a: set<Delegation>, b: set<Delegation>, k: Did, over: Did)
    requires forall d: Delegation :: d.audience == k && d.subject == over ==> (d in a <==> d in b)
    ensures Held(a, k, over) == Held(b, k, over)
  {
    assert Over(a, k, over) == Over(b, k, over);
  }

  /** A rewrite decides what its keys hold over what it covers, and leaves
      everything else. */
  lemma RewriteHeld(t: Tables, keys: set<Did>, over: Option<Did>, issued: set<Delegation>, now: nat, k: Did, b: Did)
    requires Fresh(t, keys, over, issued)
    ensures Held(Rewrite(t, keys, over, issued, now).grants, k, b)
         == if k in keys && (over.Some? ==> b == over.value) then Held(issued, k, b) else Held(t.grants, k, b)
  {
    var g := Rewrite(t, keys, over, issued, now).grants;
    HeldSame(g, if k in keys && (over.Some? ==> b == over.value) then issued else t.grants, k, b);
  }

  lemma RewriteConserves(t: Tables, keys: set<Did>, over: Option<Did>, issued: set<Delegation>, now: nat)
    requires Conserved(t)
    ensures Conserved(Rewrite(t, keys, over, issued, now))
    ensures Conserved(Settle(Rewrite(t, keys, over, issued, now)))
  {
    var u := Rewrite(t, keys, over, issued, now);
    forall d | d in u.ever ensures d in u.grants || d.link in u.revoked || Expired(d, u.clock) {
      if d in t.grants && d !in u.grants && !Expired(d, now) {
        assert d in Unexpired(Going(t, keys, over), now);
      }
    }
  }

  lemma RewriteFiled(t: Tables, keys: set<Did>, over: Option<Did>, issued: set<Delegation>, now: nat)
    requires GrantsFiled(t) && Fresh(t, keys, over, issued) && keys <= t.usedKeys
    ensures GrantsFiled(Settle(Rewrite(t, keys, over, issued, now)))
  {
    var u := Settle(Rewrite(t, keys, over, issued, now));
    forall d | d in u.grants + u.ever ensures d in t.grants + t.ever || d in issued {}
    forall d | d in t.grants + t.ever ensures d.link in t.minted { assert d.link in Links(t.grants + t.ever); }
    forall d | d in issued ensures d.link in u.minted { assert d.link in Links(issued); }
  }

  lemma RewriteRoots(t: Tables, keys: set<Did>, over: Option<Did>, issued: set<Delegation>, now: nat, b: Did)
    requires Rooted(t, b) && t.tenant !in keys
    ensures Rooted(Rewrite(t, keys, over, issued, now), b)
  {
    var d :| d in t.grants && IsRoot(d, t.tenant, b);
    assert d in Rewrite(t, keys, over, issued, now).grants;
  }

  // ------------------------------------------------------- a policy is rewritten

  function WithPolicy(t: Tables, b: Did, doc: Option<Document>): Tables {
    t.(policies := if doc.Some? then t.policies[b := doc.value] else t.policies - {b})
  }

  function KeysOf(t: Tables, principals: set<PrincipalId>): set<Did> {
    set k | k in t.keys && t.keys[k].principal.Some? && t.keys[k].principal.value in principals
  }

  /** A rewrite keeps everything but the agreement with policies. */
  lemma RewriteKeeps(t: Tables, keys: set<Did>, over: Option<Did>, issued: set<Delegation>, now: nat)
    requires GrantsFiled(t) && Conserved(t) && Fresh(t, keys, over, issued)
    requires keys <= t.usedKeys && t.tenant !in keys && forall b :: b in t.buckets ==> Rooted(t, b)
    ensures var u := Settle(Rewrite(t, keys, over, issued, now));
      GrantsFiled(u) && Conserved(u) && forall b :: b in u.buckets ==> Rooted(u, b)
  {
    RewriteFiled(t, keys, over, issued, now);
    RewriteConserves(t, keys, over, issued, now);
    forall b | b in t.buckets ensures Rooted(Settle(Rewrite(t, keys, over, issued, now)), b) {
      RewriteRoots(t, keys, over, issued, now, b);
      RootedMore(Rewrite(t, keys, over, issued, now), Settle(Rewrite(t, keys, over, issued, now)), b);
    }
  }

  lemma RootedMore(t: Tables, u: Tables, b: Did)
    requires Rooted(t, b) && u.tenant == t.tenant && t.grants <= u.grants
    ensures Rooted(u, b)
  {
    var d :| d in t.grants && IsRoot(d, t.tenant, b);
    assert d in u.grants;
  }

  /** A rotation to a new policy: the keys of every principal it affects get its
      commands, so grants agree with the new policy. Keys of a principal whose
      access stays, and grants over other buckets, are left alone. */
  lemma PolicyRotated(t: Tables, b: Did, doc: Option<Document>, affected: set<PrincipalId>, issued: set<Delegation>, now: nat)
    requires Inv(t) && b in t.buckets
    requires doc.Some? ==> NamedSet(doc.value) <= t.live
    requires forall p :: p in t.live && EffectiveSet(PolicyOf(t, b), p) != EffectiveSet(doc, p) ==> p in affected
    requires Fresh(t, KeysOf(t, affected), Some(b), issued)
    requires forall k :: k in KeysOf(t, affected) ==>
      Held(issued, k, b) == CommandSet(EffectiveSet(doc, t.keys[k].principal.value))
    ensures Inv(Settle(Rewrite(WithPolicy(t, b, doc), KeysOf(t, affected), Some(b), issued, now)))
  {
    Whole(t);
    var v := WithPolicy(t, b, doc);
    var keys := KeysOf(t, affected);
    forall o | o in v.buckets ensures Rooted(v, o) { RootedMore(t, v, o); }
    RewriteKeeps(v, keys, Some(b), issued, now);
    RotatedAgree(t, b, doc, affected, issued, now);
    RotatedRows(t, b, doc);
    RewriteRows(v, keys, Some(b), issued, now);
  }

  lemma RotatedRows(t: Tables, b: Did, doc: Option<Document>)
    requires RowsAgree(t) && b in t.buckets && (doc.Some? ==> NamedSet(doc.value) <= t.live)
    ensures RowsAgree(WithPolicy(t, b, doc))
  {
    assert forall k :: k in t.keys ==> KeyRowAgrees(t, k);
  }

  lemma RewriteRows(t: Tables, keys: set<Did>, over: Option<Did>, issued: set<Delegation>, now: nat)
    requires RowsAgree(t)
    ensures RowsAgree(Settle(Rewrite(t, keys, over, issued, now)))
  {
    assert forall k :: k in t.keys ==> KeyRowAgrees(t, k);
  }

  lemma RotatedAgree(t: Tables, b: Did, doc: Option<Document>, affected: set<PrincipalId>, issued: set<Delegation>, now: nat)
    requires RowsAgree(t) && GrantsAgree(t)
    requires forall p :: p in t.live && EffectiveSet(PolicyOf(t, b), p) != EffectiveSet(doc, p) ==> p in affected
    requires Fresh(t, KeysOf(t, affected), Some(b), issued)
    requires forall k :: k in KeysOf(t, affected) ==>
      Held(issued, k, b) == CommandSet(EffectiveSet(doc, t.keys[k].principal.value))
    ensures GrantsAgree(Settle(Rewrite(WithPolicy(t, b, doc), KeysOf(t, affected), Some(b), issued, now)))
  {
    var v := WithPolicy(t, b, doc);
    var keys := KeysOf(t, affected);
    var u := Settle(Rewrite(v, keys, Some(b), issued, now));
    forall k, o | k in u.keys && !Unsettled(u, u.keys[k]) ensures Held(u.grants, k, o) == KeyRequires(u, u.keys[k], o) {
      RewriteHeld(v, keys, Some(b), issued, now, k, o);
      assert Held(t.grants, k, o) == KeyRequires(t, t.keys[k], o);
      assert KeyRowAgrees(t, k);
    }
  }

  // ------------------------------------------------------------- keys come and go

  /** A key is created with what it requires. */
  lemma KeyCreated(t: Tables, rec: KeyRecord, issued: set<Delegation>, now: nat)
    requires Inv(t) && rec.id !in t.usedKeys && rec.id != t.tenant && rec.tenant == t.tenant
    requires rec.principal.Some? ==> rec.principal.value in t.live
    requires forall b :: b in rec.buckets ==> b in t.buckets
    requires Fresh(t, {rec.id}, None, issued) && forall d :: d in issued ==> d.expires == rec.expires
    requires forall b :: Held(issued, rec.id, b) == KeyRequires(t, rec, b)
    ensures Inv(Settle(Rewrite(WithKey(t, rec), {rec.id}, None, issued, now)))
  {
    Whole(t);
    var v := WithKey(t, rec);
    forall o | o in v.buckets ensures Rooted(v, o) { RootedMore(t, v, o); }
    CreatedFiled(t, rec);
    RewriteKeeps(v, {rec.id}, None, issued, now);
    CreatedRows(t, rec);
    RewriteRows(v, {rec.id}, None, issued, now);
    CreatedAgree(t, rec, issued, now);
  }

  lemma CreatedFiled(t: Tables, rec: KeyRecord)
    requires GrantsFiled(t) && rec.id !in t.usedKeys && rec.id != t.tenant
    ensures GrantsFiled(WithKey(t, rec))
  {
    forall d | d in t.grants ensures d.audience != rec.id {}
  }

  lemma CreatedRows(t: Tables, rec: KeyRecord)
    requires RowsAgree(t) && rec.id !in t.usedKeys && rec.id != t.tenant && rec.tenant == t.tenant
    requires rec.principal.Some? ==> rec.principal.value in t.live
    requires forall b :: b in rec.buckets ==> b in t.buckets
    ensures RowsAgree(WithKey(t, rec))
  {
    var v := WithKey(t, rec);
    forall k | k in v.keys ensures KeyRowAgrees(v, k) {
      assert k != rec.id ==> KeyRowAgrees(t, k);
    }
  }

  lemma CreatedAgree(t: Tables, rec: KeyRecord, issued: set<Delegation>, now: nat)
    requires GrantsAgree(t) && rec.id !in t.keys
    requires Fresh(t, {rec.id}, None, issued) && forall d :: d in issued ==> d.expires == rec.expires
    requires forall b :: Held(issued, rec.id, b) == KeyRequires(t, rec, b)
    ensures GrantsAgree(Settle(Rewrite(WithKey(t, rec), {rec.id}, None, issued, now)))
  {
    var v := WithKey(t, rec);
    var u := Settle(Rewrite(v, {rec.id}, None, issued, now));
    forall k, b | k in u.keys && !Unsettled(u, u.keys[k]) ensures Held(u.grants, k, b) == KeyRequires(u, u.keys[k], b) {
      RewriteHeld(v, {rec.id}, None, issued, now, k, b);
      if k != rec.id { assert Held(t.grants, k, b) == KeyRequires(t, t.keys[k], b); }
    }
  }

  function WithKey(t: Tables, rec: KeyRecord): Tables {
    t.(keys := t.keys[rec.id := rec], usedKeys := t.usedKeys + {rec.id})
  }

  function WithoutKeys(t: Tables, keys: set<Did>): Tables {
    t.(keys := t.keys - keys)
  }

  /** Keys are deleted with everything they hold revoked. */
  lemma KeysDeleted(t: Tables, keys: set<Did>, now: nat)
    requires Inv(t) && keys <= t.keys.Keys
    ensures Inv(Settle(Rewrite(WithoutKeys(t, keys), keys, None, {}, now)))
  {
    Whole(t);
    var v := WithoutKeys(t, keys);
    forall b | b in v.buckets ensures Rooted(v, b) { RootedMore(t, v, b); }
    RewriteKeeps(v, keys, None, {}, now);
    assert forall k :: k in v.keys ==> KeyRowAgrees(t, k);
    RewriteRows(v, keys, None, {}, now);
    ClearedAgree(t, v, keys, now);
  }

  /** Clearing some keys leaves the others in agreement; the cleared ones are gone
      or unsettled. */
  lemma ClearedAgree(t: Tables, v: Tables, keys: set<Did>, now: nat)
    requires GrantsAgree(t) && v.grants == t.grants && v.policies == t.policies && v.buckets == t.buckets
    requires forall k :: k in v.keys ==> k in t.keys && v.keys[k] == t.keys[k] && (k in keys ==> Unsettled(v, v.keys[k]))
    requires t.unfinished <= v.unfinished
    ensures GrantsAgree(Settle(Rewrite(v, keys, None, {}, now)))
  {
    var u := Settle(Rewrite(v, keys, None, {}, now));
    forall k, b | k in u.keys && !Unsettled(u, u.keys[k]) ensures Held(u.grants, k, b) == KeyRequires(u, u.keys[k], b) {
      RewriteHeld(v, keys, None, {}, now, k, b);
      assert !Unsettled(t, t.keys[k]);
      assert Held(t.grants, k, b) == KeyRequires(t, t.keys[k], b);
    }
  }

  // --------------------------------------------------------- principals come and go

  lemma PrincipalAdded(t: Tables, p: PrincipalId)
    requires Inv(t) && p != WILDCARD
    ensures Inv(t.(live := t.live + {p}))
  {
    Whole(t);
    var u := t.(live := t.live + {p});
    forall b | b in u.buckets ensures Rooted(u, b) { assert Rooted(t, b); }
    forall k, b | k in u.keys && !Unsettled(u, u.keys[k]) ensures Held(u.grants, k, b) == KeyRequires(u, u.keys[k], b) {
      assert Held(t.grants, k, b) == KeyRequires(t, t.keys[k], b);
    }
  }

  /** A removal's first phase: the principal's keys lose what they hold. */
  lemma PrincipalRevoked(t: Tables, p: PrincipalId, now: nat)
    requires Inv(t)
    ensures Inv(Settle(Rewrite(t.(unfinished := t.unfinished + {p}), KeysOf(t, {p}), None, {}, now)))
  {
    Whole(t);
    var v := t.(unfinished := t.unfinished + {p});
    var keys := KeysOf(t, {p});
    forall b | b in v.buckets ensures Rooted(v, b) { RootedMore(t, v, b); }
    RewriteKeeps(v, keys, None, {}, now);
    assert forall k :: k in v.keys ==> KeyRowAgrees(t, k);
    RewriteRows(v, keys, None, {}, now);
    ClearedAgree(t, v, keys, now);
  }

  /** Its second: a policy is rewritten without the principal. Nobody else's
      access changes, so nothing is rotated. */
  lemma PolicyStripped(t: Tables, b: Did, doc: Option<Document>, p: PrincipalId)
    requires Inv(t) && b in t.policies && p in t.unfinished
    requires doc.Some? ==> NamedSet(doc.value) <= NamedSet(t.policies[b])
    requires forall q :: q != p ==> EffectiveSet(doc, q) == EffectiveSet(PolicyOf(t, b), q)
    ensures Inv(WithPolicy(t, b, doc))
  {
    Whole(t);
    var u := WithPolicy(t, b, doc);
    forall o | o in u.buckets ensures Rooted(u, o) { assert Rooted(t, o); }
    forall k, o | k in u.keys && !Unsettled(u, u.keys[k]) ensures Held(u.grants, k, o) == KeyRequires(u, u.keys[k], o) {
      assert Held(t.grants, k, o) == KeyRequires(t, t.keys[k], o);
    }
  }

  /** Its last: no policy names the principal, so its keys go, then its row, and
      no removal of it is unfinished any more. */
  lemma PrincipalGone(t: Tables, p: PrincipalId, now: nat)
    requires Inv(t) && forall b :: b in t.policies ==> p !in NamedSet(t.policies[b])
    ensures Inv(Tombstoned(Settle(Rewrite(WithoutKeys(t, KeysOf(t, {p})), KeysOf(t, {p}), None, {}, now)), p))
  {
    var keys := KeysOf(t, {p});
    KeysDeleted(t, keys, now);
    RowTombstoned(Settle(Rewrite(WithoutKeys(t, keys), keys, None, {}, now)), p);
  }

  lemma RowTombstoned(t: Tables, p: PrincipalId)
    requires Inv(t) && forall b :: b in t.policies ==> p !in NamedSet(t.policies[b])
    requires forall k :: k in t.keys ==> t.keys[k].principal != Some(p)
    ensures Inv(Tombstoned(t, p))
  {
    Whole(t);
    var u := Tombstoned(t, p);
    assert forall k :: k in u.keys ==> KeyRowAgrees(t, k);
    forall b | b in u.buckets ensures Rooted(u, b) { RootedMore(t, u, b); }
    forall k, b | k in u.keys && !Unsettled(u, u.keys[k]) ensures Held(u.grants, k, b) == KeyRequires(u, u.keys[k], b) {
      assert Held(t.grants, k, b) == KeyRequires(t, t.keys[k], b);
    }
  }

  function Tombstoned(t: Tables, p: PrincipalId): Tables {
    t.(live := t.live - {p}, unfinished := t.unfinished - {p})
  }

  // ------------------------------------------------------------ buckets come and go

  function WithBucket(t: Tables, b: Did, root: Delegation): Tables {
    t.(buckets := t.buckets + {b}, usedBuckets := t.usedBuckets + {b},
       grants := t.grants + {root}, minted := t.minted + {root.link})
  }

  lemma BucketCreated(t: Tables, b: Did, root: Delegation)
    requires Inv(t) && b !in t.usedBuckets && b != UNDEF
    requires IsRoot(root, t.tenant, b) && root.link !in t.minted
    ensures Inv(WithBucket(t, b, root))
  {
    Whole(t);
    var u := WithBucket(t, b, root);
    BucketFiled(t, b, root);
    forall o | o in u.buckets ensures Rooted(u, o) {
      if o == b { assert root in u.grants && IsRoot(root, u.tenant, b); }
      else { RootedMore(t, u, o); }
    }
    forall k, o | k in u.keys && !Unsettled(u, u.keys[k]) ensures Held(u.grants, k, o) == KeyRequires(u, u.keys[k], o) {
      HeldSame(u.grants, t.grants, k, o);
      assert Held(t.grants, k, o) == KeyRequires(t, t.keys[k], o);
      assert KeyRowAgrees(t, k);
    }
  }

  /** A creation that fails after storing the root leaves the root behind, over a
      bucket no row names. */
  lemma BucketUndone(t: Tables, b: Did, root: Delegation)
    requires Inv(t) && b !in t.usedBuckets && b != UNDEF
    requires IsRoot(root, t.tenant, b) && root.link !in t.minted
    ensures Inv(WithBucket(t, b, root).(buckets := t.buckets))
  {
    BucketCreated(t, b, root);
    Whole(t);
    var v := WithBucket(t, b, root);
    Whole(v);
    assert forall k :: k in t.keys ==> KeyRowAgrees(t, k);
    UndoneAgrees(t, v, b);
    UndoneRows(t, v, b);
  }

  lemma UndoneRows(t: Tables, v: Tables, b: Did)
    requires AllAgree(t) && AllAgree(v) && v.buckets == t.buckets + {b} && v.policies == t.policies && v.keys == t.keys
    requires v.usedBuckets == t.usedBuckets + {b} && GrantsAgree(v.(buckets := t.buckets))
    ensures AllAgree(v.(buckets := t.buckets))
  {
    var u := v.(buckets := t.buckets);
    assert forall k :: k in u.keys ==> KeyRowAgrees(v, k);
    forall o | o in u.buckets ensures Rooted(u, o) { assert Rooted(v, o); RootedMore(v, u, o); }
  }

  /** No key's scope holds a bucket id never used. */
  lemma UndoneAgrees(t: Tables, v: Tables, b: Did)
    requires GrantsAgree(v) && v.keys == t.keys && v.buckets == t.buckets + {b} && b !in t.usedBuckets
    requires forall k :: k in t.keys ==> KeyRowAgrees(t, k)
    ensures GrantsAgree(v.(buckets := t.buckets))
  {
    var u := v.(buckets := t.buckets);
    forall k, o | k in u.keys && !Unsettled(u, u.keys[k]) ensures Held(u.grants, k, o) == KeyRequires(u, u.keys[k], o) {
      assert KeyRowAgrees(t, k);
      assert Held(v.grants, k, o) == KeyRequires(v, v.keys[k], o);
    }
  }

  lemma BucketFiled(t: Tables, b: Did, root: Delegation)
    requires GrantsFiled(t) && t.tenant !in t.keys
    requires IsRoot(root, t.tenant, b) && root.link !in t.minted
    ensures GrantsFiled(WithBucket(t, b, root))
  {
    forall d | d in t.grants + t.ever ensures d.link in t.minted { assert d.link in Links(t.grants + t.ever); }
  }

  /** A bucket goes, with everything over it; what the tenant issued over it is
      revoked first. */
  function WithoutBucket(t: Tables, b: Did, now: nat): Tables {
    t.(buckets := t.buckets - {b}, policies := t.policies - {b},
       grants := (set d | d in t.grants && d.subject != b),
       revoked := t.revoked + Links(Unexpired((set d | d in t.grants && d.subject == b && d.issuer == t.tenant), now)),
       clock := Later(t.clock, now))
  }

  lemma BucketDeleted(t: Tables, b: Did, now: nat)
    requires Inv(t) && b in t.buckets
    ensures Inv(WithoutBucket(t, b, now))
  {
    Whole(t);
    var u := WithoutBucket(t, b, now);
    DeletedConserves(t, b, now);
    forall o | o in u.buckets ensures Rooted(u, o) {
      assert Rooted(t, o);
      var d :| d in t.grants && IsRoot(d, t.tenant, o);
      assert d in u.grants;
    }
    forall k, o | k in u.keys && !Unsettled(u, u.keys[k]) ensures Held(u.grants, k, o) == KeyRequires(u, u.keys[k], o) {
      if o == b {
        assert Over(u.grants, k, o) == {};
        assert EffectiveSet(None, "") == {};
      } else {
        HeldSame(u.grants, t.grants, k, o);
      }
      assert Held(t.grants, k, o) == KeyRequires(t, t.keys[k], o);
    }
  }

  /** Grants over the bucket are all the tenant's own, but for the tenant's
      root. */
  lemma DeletedConserves(t: Tables, b: Did, now: nat)
    requires GrantsFiled(t) && Conserved(t)
    ensures Conserved(WithoutBucket(t, b, now))
  {
    var u := WithoutBucket(t, b, now);
    forall d | d in u.ever ensures d in u.grants || d.link in u.revoked || Expired(d, u.clock) {
      if d in t.grants && d !in u.grants && !Expired(d, now) {
        assert d in Unexpired((set d | d in t.grants && d.subject == b && d.issuer == t.tenant), now);
      }
    }
  }

  /** Signing links for a call that then fails changes nothing. */
  lemma MoreMinted(t: Tables, minted: set<string>)
    requires Inv(t) && t.minted <= minted
    ensures Inv(t.(minted := minted))
  {
    Whole(t);
    var u := t.(minted := minted);
    forall b | b in u.buckets ensures Rooted(u, b) { assert Rooted(t, b); }
    forall k, b | k in u.keys && !Unsettled(u, u.keys[k]) ensures Held(u.grants, k, b) == KeyRequires(u, u.keys[k], b) {
      assert Held(t.grants, k, b) == KeyRequires(t, t.keys[k], b);
    }
  }
}
