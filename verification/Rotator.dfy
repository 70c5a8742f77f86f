/** The rewrite of stored delegations as policies change
    (pkg/grant/rotator.go). */
module Rotator {
  import opened Common
  import opened BucketPolicy
  import opened Permissions
  import opened Delegations
  import opened DelegationStore
  import opened KeyStore
  import opened Tenancy

  /** The revocation service: what has been published to it. A publish may fail,
      and then nothing of it is recorded. */
  class Publisher {
    var revoked: set<string>

    constructor ()
      ensures revoked == {}
    {
      revoked := {};
    }

    method PublishBatch(dels: seq<Delegation>, fails: bool) returns (ok: bool)
      modifies this
      ensures ok == !fails
      ensures revoked == if ok then old(revoked) + Links(Elements(dels)) else old(revoked)
    {
      if !fails { revoked := revoked + Links(Elements(dels)); }
      ok := !fails;
    }
  }

  /** Still good after now. */
  ghost predicate Outlives(d: Delegation, now: nat) {
    d.expires.None? || now < d.expires.value
  }

  /** PublishRevocations: one request for the unexpired ones; none when there are
      none. */
  method PublishRevocations(publisher: Publisher, dels: seq<Delegation>, now: nat, fails: bool) returns (ok: bool)
    modifies publisher
    ensures ok <==> !fails || Unexpired(Elements(dels), now) == {}
    ensures publisher.revoked == old(publisher.revoked) + if ok then Links(Unexpired(Elements(dels), now)) else {}
    ensures !ok <==> fails && exists d :: d in dels && Outlives(d, now)
    ensures forall l :: l in publisher.revoked <==>
      l in old(publisher.revoked) || (ok && exists d :: d in dels && d.link == l && Outlives(d, now))
  {
    assert forall d :: d in Unexpired(Elements(dels), now) <==> d in dels && Outlives(d, now);
    var live := [];
    for i := 0 to |dels|
      modifies {}
      invariant Elements(live) == Unexpired(Elements(dels[..i]), now)
    {
      assert dels[..i + 1] == dels[..i] + [dels[i]];
      ElementsJoin(dels[..i], [dels[i]]);
      ElementsJoin(live, [dels[i]]);
      if !Expired(dels[i], now) { live := live + [dels[i]]; }
    }
    assert dels[..|dels|] == dels;
    NoElements(live);
    if live == [] {
      assert Unexpired(Elements(dels), now) == {};
      NoLinks();
      return true;
    }
    ok := publisher.PublishBatch(live, fails);
  }

  function Wrap(ds: seq<Delegation>): Batch {
    seq(|ds|, i requires 0 <= i < |ds| => Some(ds[i]))
  }

  lemma WrapHas(ds: seq<Delegation>)
    ensures None !in Wrap(ds) && Present(Wrap(ds)) == Elements(ds)
  {
    forall d | d in ds ensures Some(d) in Wrap(ds) {
      var i :| 0 <= i < |ds| && ds[i] == d;
      assert Wrap(ds)[i] == Some(d);
    }
  }

  /** What was issued for a key over some subjects is what it then holds over
      them. */
  lemma IssuedHeld(dels: seq<Delegation>, issuer: Did, key: Did, subjects: set<Did>, cmds: set<Command>, b: Did)
    requires IssuedFor(dels, issuer, key, subjects, cmds)
    ensures Held(Elements(dels), key, b) == if b in subjects then cmds else {}
    ensures LinksDistinct(Elements(dels))
  {
    forall c | b in subjects && c in cmds ensures c in Held(Elements(dels), key, b) {
      assert Has(dels, b, c);
      var d :| d in dels && d.subject == b && d.command == c;
      assert d in Over(Elements(dels), key, b);
    }
    forall x, y | x in Elements(dels) && y in Elements(dels) && x.link == y.link ensures x == y {
      var i :| 0 <= i < |dels| && dels[i] == x;
      var j :| 0 <= j < |dels| && dels[j] == y;
      assert dels[i].link != dels[j].link || i == j;
    }
  }

  // --------------------------------------------------------- the rotation's loop

  /** The keys done so far and what the loop has built for them. */
  datatype Progress = Progress(
    revoked: seq<Delegation>,
    next: map<Did, Batch>,
    issued: set<Delegation>)

  /** After some keys: revoked is what they hold over the bucket, next what was
      issued for each, and that is what its principal's actions map to. */
  ghost predicate Prepared(
      g: Progress, tenant: Did, bucket: Did, minted: set<string>, contents: set<Delegation>,
      done: seq<KeyRecord>, actions: map<PrincipalId, seq<string>>)
  {
    && Elements(g.revoked) == Outgoing(contents, Elements(Ids(done)), Some(bucket))
    && g.next.Keys == Elements(Ids(done))
    && LinksDistinct(g.issued)
    && (forall d :: d in g.issued ==>
         d.link !in minted && d.issuer == tenant && d.subject == bucket && d.audience in g.next && ExpiresWith(d, done))
    && (forall k :: k in g.next ==> None !in g.next[k] && Present(g.next[k]) == (set d | d in g.issued && d.audience == k))
    && (forall rec :: rec in done && rec.principal.Some? && rec.principal.value in actions ==>
         Held(g.issued, rec.id, bucket) == CommandSet(Elements(actions[rec.principal.value])))
  }

  ghost predicate ExpiresWith(d: Delegation, recs: seq<KeyRecord>) {
    exists rec :: rec in recs && rec.id == d.audience && rec.expires == d.expires
  }

  lemma IdsGrow(done: seq<KeyRecord>, rec: KeyRecord)
    ensures Elements(Ids(done + [rec])) == Elements(Ids(done)) + {rec.id}
  {
    assert Ids(done + [rec]) == Ids(done) + [rec.id];
  }

  lemma PrepareOne(
      g: Progress, tenant: Did, bucket: Did, minted: set<string>, contents: set<Delegation>,
      done: seq<KeyRecord>, actions: map<PrincipalId, seq<string>>, rec: KeyRecord, held: seq<Delegation>, made: seq<Delegation>)
    requires Prepared(g, tenant, bucket, minted, contents, done, actions)
    requires DistinctIds(done + [rec]) && rec.principal.Some? && rec.principal.value in actions
    requires Elements(held) == Outgoing(contents, {rec.id}, Some(bucket))
    requires IssuedFor(made, tenant, rec.id, {bucket}, CommandSet(Elements(actions[rec.principal.value])))
    requires forall d :: d in made ==> d.link !in minted + Links(g.issued) && d.expires == rec.expires
    ensures Prepared(
      Progress(g.revoked + held, g.next[rec.id := Wrap(made)], g.issued + Elements(made)),
      tenant, bucket, minted, contents, done + [rec], actions)
  {
    var n := Progress(g.revoked + held, g.next[rec.id := Wrap(made)], g.issued + Elements(made));
    IdsGrow(done, rec);
    NotDone(done, rec);
    WrapHas(made);
    IssuedHeld(made, tenant, rec.id, {bucket}, CommandSet(Elements(actions[rec.principal.value])), bucket);
    ElementsJoin(g.revoked, held);
    forall d | d in g.issued ensures d.link in Links(g.issued) && d.audience != rec.id {}
    ExpiriesGrow(g.issued, done, rec, made);
    forall k | k in n.next ensures None !in n.next[k] && Present(n.next[k]) == (set d | d in n.issued && d.audience == k) {}
    forall r | r in done + [rec] && r.principal.Some? && r.principal.value in actions
      ensures Held(n.issued, r.id, bucket) == CommandSet(Elements(actions[r.principal.value]))
    {
      if r in done {
        assert r.id in Ids(done) by { var i :| 0 <= i < |done| && done[i] == r; assert Ids(done)[i] == r.id; }
        HeldSame(n.issued, g.issued, r.id, bucket);
      } else {
        HeldSame(n.issued, Elements(made), rec.id, bucket);
      }
    }
  }

  lemma ExpiriesGrow(issued: set<Delegation>, done: seq<KeyRecord>, rec: KeyRecord, made: seq<Delegation>)
    requires forall d :: d in issued ==> ExpiresWith(d, done)
    requires forall d :: d in made ==> d.audience == rec.id && d.expires == rec.expires
    ensures forall d :: d in issued + Elements(made) ==> ExpiresWith(d, done + [rec])
  {
    forall d | d in issued + Elements(made) ensures ExpiresWith(d, done + [rec]) {
      if d in issued {
        var r :| r in done && r.id == d.audience && r.expires == d.expires;
        assert r in done + [rec];
      } else {
        assert rec in done + [rec];
      }
    }
  }

  lemma NextListed(recs: seq<KeyRecord>, i: nat)
    requires i < |recs| && DistinctIds(recs)
    ensures recs[..i + 1] == recs[..i] + [recs[i]] && DistinctIds(recs[..i] + [recs[i]])
    ensures recs[i].id in Elements(Ids(recs))
  {
    assert Ids(recs)[i] == recs[i].id;
  }

  lemma NotDone(done: seq<KeyRecord>, rec: KeyRecord)
    requires DistinctIds(done + [rec])
    ensures rec.id !in Elements(Ids(done))
  {
    forall i | 0 <= i < |done| ensures Ids(done)[i] != rec.id {
      assert (done + [rec])[i].id != (done + [rec])[|done|].id;
    }
  }

  /** What the keys get over the bucket is what was issued. */
  lemma PreparedReplacement(
      g: Progress, tenant: Did, bucket: Did, minted: set<string>, contents: set<Delegation>,
      recs: seq<KeyRecord>, actions: map<PrincipalId, seq<string>>)
    requires Prepared(g, tenant, bucket, minted, contents, recs, actions)
    requires LinksDistinct(contents) && Links(contents) <= minted
    ensures Accepted(Ids(recs), Some(bucket), g.next)
    ensures Incoming(Elements(Ids(recs)), g.next) == g.issued
    ensures LinksDistinct(contents + g.issued)
  {
    forall aud, o | aud in Ids(recs) && o in Entries(g.next, aud)
      ensures o.Some? && o.value.audience == aud && Covers(Some(bucket), o.value)
    {
      assert aud in Elements(Ids(recs));
      assert o.Some? ==> o.value in Present(g.next[aud]);
    }
    forall d | d in Incoming(Elements(Ids(recs)), g.next) ensures d in g.issued {
      var aud, o :| aud in Ids(recs) && o in Entries(g.next, aud) && o.Some? && o.value == d;
      assert d in Present(g.next[aud]);
    }
    forall d | d in g.issued ensures d in Incoming(Elements(Ids(recs)), g.next) {
      assert d in Present(g.next[d.audience]);
      assert Some(d) in g.next[d.audience];
    }
    forall d | d in contents ensures d.link in minted { assert d.link in Links(contents); }
  }

  lemma StoredLinks(contents: set<Delegation>, stored: set<Delegation>, issued: set<Delegation>, minted: set<string>)
    requires Links(contents) <= minted && stored <= contents + issued && LinksDistinct(contents + issued)
    ensures Links(stored) <= minted + Links(issued) && LinksDistinct(stored)
    ensures forall d :: d in issued ==> d.link in Links(issued)
  {
    forall d | d in stored ensures d.link in minted + Links(issued) {
      assert d in contents ==> d.link in Links(contents);
    }
  }

  datatype Stored = Stored(contents: set<Delegation>, revoked: set<string>, minted: set<string>)

  /** The rotation is done: what the bound keys held over the bucket is gone and
      published, and what was issued, under new links, came instead; each key
      holds over the bucket what its principal's actions map to. */
  ghost predicate Rotated(
      a: Stored, z: Stored, tenant: Did, keys: map<Did, KeyRecord>, bound: set<Did>,
      bucket: Did, actions: map<PrincipalId, seq<string>>, now: nat, issued: set<Delegation>)
  {
    var going := Outgoing(a.contents, bound, Some(bucket));
    && z.contents == a.contents - going + issued
    && z.revoked == a.revoked + Links(Unexpired(going, now))
    && a.minted + Links(issued) <= z.minted
    && LinksDistinct(issued)
    && (forall d :: d in issued ==>
         d.link !in a.minted && d.issuer == tenant && d.subject == bucket && d.audience in bound
         && (d.audience in keys ==> d.expires == keys[d.audience].expires))
    && (forall k :: k in bound && k in keys && keys[k].principal.Some? && keys[k].principal.value in actions ==>
         Held(issued, k, bucket) == CommandSet(Elements(actions[keys[k].principal.value])))
  }

  class Rotator {
    const tenant: Did
    const delegations: MemoryStore
    const keys: MemoryKeys
    const source: LinkSource
    const publisher: Publisher

    constructor (tenant: Did, delegations: MemoryStore, keys: MemoryKeys, source: LinkSource, publisher: Publisher)
      ensures this.tenant == tenant && this.delegations == delegations && this.keys == keys
      ensures this.source == source && this.publisher == publisher
    {
      this.tenant, this.delegations, this.keys, this.source, this.publisher := tenant, delegations, keys, source, publisher;
    }

    ghost predicate Valid()
      reads delegations, keys, source
    {
      && delegations.Valid() && keys.Valid() && source.Valid()
      && LinksDistinct(delegations.Contents()) && Links(delegations.Contents()) <= source.minted
    }

    /** The keys bound to some principals. */
    ghost function BoundKeys(principals: set<PrincipalId>): set<Did>
      reads keys
    {
      set k | k in keys.keys && keys.keys[k].tenant == tenant
        && keys.keys[k].principal.Some? && keys.keys[k].principal.value in principals
    }

    /** The listing of the keys bound to some principals. */
    ghost predicate ListsBound(recs: seq<KeyRecord>, principals: set<PrincipalId>)
      reads keys
    {
      forall rec :: rec in recs <==>
        rec.id in keys.keys && keys.keys[rec.id] == rec && Selected(rec, tenant, Filter(None, Some(principals), None))
    }

    lemma ListedAreBound(recs: seq<KeyRecord>, principals: set<PrincipalId>)
      requires keys.Valid()
      requires ListsBound(recs, principals)
      ensures Elements(Ids(recs)) == BoundKeys(principals)
    {
      forall k | k in BoundKeys(principals) ensures k in Ids(recs) {
        assert keys.keys[k] in recs;
        var i :| 0 <= i < |recs| && recs[i] == keys.keys[k];
        assert Ids(recs)[i] == k;
      }
      forall k | k in Ids(recs) ensures k in BoundKeys(principals) {
        var i :| 0 <= i < |recs| && Ids(recs)[i] == k;
        assert recs[i] in recs;
      }
    }

    /** What a rotation reads and writes, as values. */
    ghost function State(): Stored
      reads delegations, source, publisher
    {
      Stored(delegations.Contents(), publisher.revoked, source.minted)
    }

    /** Rotate: every key of each principal in actions gets, over the bucket,
        exactly what the principal's actions map to; its other delegations, and
        every other key's, stay. What it replaces is published first, so a
        failed publish changes no table. */
    method Rotate(bucket: Did, actions: map<PrincipalId, seq<string>>, now: nat, fails: bool)
      returns (err: Option<Error>, ghost issued: set<Delegation>)
      requires Valid() && bucket != UNDEF
      modifies delegations, source, publisher
      ensures Valid() && old(source.minted) <= source.minted
      ensures err.Some? <==> fails && Unexpired(Outgoing(old(delegations.Contents()), BoundKeys(actions.Keys), Some(bucket)), now) != {}
      ensures err.Some? ==> err.value == PublishFailed && State() == old(State()).(minted := source.minted)
      ensures err.None? ==> Rotated(old(State()), State(), tenant, keys.keys, BoundKeys(actions.Keys), bucket, actions, now, issued)
    {
      issued := {};
      var recs := keys.ListByTenant(tenant, Filter(None, Some(actions.Keys), None));
      ListedAreBound(recs, actions.Keys);
      NoElements(Ids(recs));
      if recs == [] {
        OutgoingGrows(delegations.Contents(), {}, "", Some(bucket));
        assert Unexpired({}, now) == {};
        NoLinks();
        return None, {};
      }
      err, issued := RotateKeys(bucket, actions, recs, now, fails);
    }

    method RotateKeys(bucket: Did, actions: map<PrincipalId, seq<string>>, recs: seq<KeyRecord>, now: nat, fails: bool)
      returns (err: Option<Error>, ghost issued: set<Delegation>)
      requires Valid() && bucket != UNDEF && DistinctIds(recs)
      requires ListsBound(recs, actions.Keys)
      requires Elements(Ids(recs)) == BoundKeys(actions.Keys)
      modifies delegations, source, publisher
      ensures Valid() && old(source.minted) <= source.minted
      ensures err.Some? <==> fails && Unexpired(Outgoing(old(delegations.Contents()), BoundKeys(actions.Keys), Some(bucket)), now) != {}
      ensures err.Some? ==> err.value == PublishFailed && State() == old(State()).(minted := source.minted)
      ensures err.None? ==> Rotated(old(State()), State(), tenant, keys.keys, BoundKeys(actions.Keys), bucket, actions, now, issued)
    {
      ghost var a := State();
      var g, ok := PrepareAndPublish(bucket, actions, recs, now, fails);
      if !ok { return Some(PublishFailed), {}; }
      issued := g.issued;
      err := StorePrepared(g, bucket, a.minted, recs, actions);
      RotatedHeld(g, bucket, a, State(), recs, actions, now);
    }

    method PrepareAndPublish(bucket: Did, actions: map<PrincipalId, seq<string>>, recs: seq<KeyRecord>, now: nat, fails: bool)
      returns (g: Progress, ok: bool)
      requires Valid() && DistinctIds(recs) && ListsBound(recs, actions.Keys)
      modifies source, publisher
      ensures Valid() && source.minted == old(source.minted) + Links(g.issued)
      ensures Prepared(g, tenant, bucket, old(source.minted), delegations.Contents(), recs, actions)
      ensures var going := Outgoing(delegations.Contents(), Elements(Ids(recs)), Some(bucket));
        && (ok <==> !fails || Unexpired(going, now) == {})
        && publisher.revoked == old(publisher.revoked) + if ok then Links(Unexpired(going, now)) else {}
    {
      g := PrepareListed(bucket, actions, recs);
      ok := PublishRevocations(publisher, g.revoked, now, fails);
    }

    /** What the keys hold over the bucket, and what they are to hold instead. */
    method PrepareListed(bucket: Did, actions: map<PrincipalId, seq<string>>, recs: seq<KeyRecord>) returns (g: Progress)
      requires Valid() && DistinctIds(recs) && ListsBound(recs, actions.Keys)
      modifies source
      ensures Valid() && source.minted == old(source.minted) + Links(g.issued)
      ensures Prepared(g, tenant, bucket, old(source.minted), delegations.Contents(), recs, actions)
    {
      var current := delegations.Current(Ids(recs), Some(bucket));
      g := PrepareAll(bucket, actions, recs, current);
    }

    /** The callback has published: what it prepared replaces what the keys
        held. */
    method StorePrepared(g: Progress, bucket: Did, ghost minted: set<string>, recs: seq<KeyRecord>, ghost actions: map<PrincipalId, seq<string>>)
      returns (err: Option<Error>)
      requires delegations.Valid() && keys.Valid() && source.Valid() && bucket != UNDEF
      requires LinksDistinct(delegations.Contents()) && Links(delegations.Contents()) <= minted
      requires Prepared(g, tenant, bucket, minted, delegations.Contents(), recs, actions)
      requires source.minted == minted + Links(g.issued)
      modifies delegations
      ensures Valid() && err == None
      ensures delegations.Contents() ==
        old(delegations.Contents()) - Outgoing(old(delegations.Contents()), Elements(Ids(recs)), Some(bucket)) + g.issued
    {
      ghost var contents := delegations.Contents();
      PreparedReplacement(g, tenant, bucket, minted, contents, recs, actions);
      err := delegations.Replace(Ids(recs), Some(bucket), g.next);
      StoredLinks(contents, delegations.Contents(), g.issued, minted);
    }

    lemma RotatedHeld(
        g: Progress, bucket: Did, a: Stored, z: Stored, recs: seq<KeyRecord>, actions: map<PrincipalId, seq<string>>, now: nat)
      requires keys.Valid() && Prepared(g, tenant, bucket, a.minted, a.contents, recs, actions)
      requires ListsBound(recs, actions.Keys)
      requires var going := Outgoing(a.contents, Elements(Ids(recs)), Some(bucket));
        z == Stored(a.contents - going + g.issued, a.revoked + Links(Unexpired(going, now)), a.minted + Links(g.issued))
      ensures Rotated(a, z, tenant, keys.keys, BoundKeys(actions.Keys), bucket, actions, now, g.issued)
    {
      ListedAreBound(recs, actions.Keys);
      forall d | d in g.issued && d.audience in keys.keys ensures d.expires == keys.keys[d.audience].expires {
        assert ExpiresWith(d, recs);
      }
      forall k | k in BoundKeys(actions.Keys)
        ensures Held(g.issued, k, bucket) == CommandSet(Elements(actions[keys.keys[k].principal.value]))
      {
        assert keys.keys[k] in recs;
      }
    }

    /** The listed keys still present when they are looked up again. */
    method Remaining(recs: seq<KeyRecord>) returns (live: set<Did>)
      requires keys.Valid()
      requires forall rec :: rec in recs ==> rec.id in keys.keys && keys.keys[rec.id] == rec && rec.tenant == tenant
      ensures forall rec :: rec in recs ==> rec.id in live
    {
      var ids := set k | k in Ids(recs);
      var remaining := keys.ListByTenant(tenant, Filter(None, None, Some(ids)));
      live := set rec | rec in remaining :: rec.id;
      forall rec | rec in recs ensures rec.id in live {
        var i :| 0 <= i < |recs| && recs[i] == rec;
        assert Ids(recs)[i] in ids;
        assert rec in remaining;
      }
    }

    method PrepareKey(
        g: Progress, bucket: Did, ghost minted: set<string>, ghost done: seq<KeyRecord>,
        actions: map<PrincipalId, seq<string>>, rec: KeyRecord, held: seq<Delegation>)
      returns (n: Progress)
      requires source.Valid() && source.minted == minted + Links(g.issued)
      requires Prepared(g, tenant, bucket, minted, delegations.Contents(), done, actions)
      requires DistinctIds(done + [rec]) && rec.principal.Some? && rec.principal.value in actions
      requires Elements(held) == Outgoing(delegations.Contents(), {rec.id}, Some(bucket))
      modifies source
      ensures source.Valid() && source.minted == minted + Links(n.issued)
      ensures Prepared(n, tenant, bucket, minted, delegations.Contents(), done + [rec], actions)
    {
      var made := Issue(source, tenant, rec.id, [bucket], actions[rec.principal.value], rec.expires);
      assert Elements([bucket]) == {bucket};
      PrepareOne(g, tenant, bucket, minted, delegations.Contents(), done, actions, rec, held, made);
      LinksUnion(g.issued, Elements(made));
      n := Progress(g.revoked + held, g.next[rec.id := Wrap(made)], g.issued + Elements(made));
    }

    /** The callback's loop: for every listed key that remains, what it holds is
        to be revoked, and its principal's actions are issued to it. */
    method PrepareAll(bucket: Did, actions: map<PrincipalId, seq<string>>, recs: seq<KeyRecord>, current: map<Did, seq<Delegation>>)
      returns (g: Progress)
      requires Valid() && DistinctIds(recs)
      requires forall rec :: rec in recs ==>
        rec.id in keys.keys && keys.keys[rec.id] == rec && rec.tenant == tenant && rec.principal.Some? && rec.principal.value in actions
      requires current.Keys == Elements(Ids(recs))
      requires forall k :: k in current ==> Elements(current[k]) == Outgoing(delegations.Contents(), {k}, Some(bucket))
      modifies source
      ensures Valid()
      ensures source.minted == old(source.minted) + Links(g.issued)
      ensures Prepared(g, tenant, bucket, old(source.minted), delegations.Contents(), recs, actions)
    {
      ghost var minted := source.minted;
      ghost var contents := delegations.Contents();
      var remaining := Remaining(recs);
      g := Progress([], map[], {});
      for i := 0 to |recs|
        invariant source.Valid() && source.minted == minted + Links(g.issued)
        invariant Prepared(g, tenant, bucket, minted, contents, recs[..i], actions)
      {
        NextListed(recs, i);
        assert recs[i] in recs && recs[i].id in remaining;
        if recs[i].id !in remaining { continue; }
        g := PrepareKey(g, bucket, minted, recs[..i], actions, recs[i], current[recs[i].id]);
      }
      assert recs[..|recs|] == recs;
    }

    /** Revoke: every key of the principal loses everything it holds, published
        first. */
    method Revoke(principal: PrincipalId, now: nat, fails: bool) returns (err: Option<Error>)
      requires Valid()
      modifies delegations, publisher
      ensures Valid()
      ensures err.Some? <==> fails && Unexpired(Outgoing(old(delegations.Contents()), BoundKeys({principal}), None), now) != {}
      ensures err.Some? ==> err.value == PublishFailed
      ensures err.Some? ==> delegations.Contents() == old(delegations.Contents()) && publisher.revoked == old(publisher.revoked)
      ensures err.None? ==>
        (var going := Outgoing(old(delegations.Contents()), BoundKeys({principal}), None);
         delegations.Contents() == old(delegations.Contents()) - going
         && publisher.revoked == old(publisher.revoked) + Links(Unexpired(going, now)))
    {
      var recs := keys.ListByTenant(tenant, Filter(None, Some({principal}), None));
      ListedAreBound(recs, {principal});
      NoElements(Ids(recs));
      if recs == [] {
        assert Outgoing(delegations.Contents(), {}, None) == {};
        return None;
      }
      err := RevokeAll(Ids(recs), now, fails);
    }

    /** Revoke and drop everything some keys hold. */
    method RevokeAll(auds: seq<Did>, now: nat, fails: bool) returns (err: Option<Error>)
      requires Valid()
      modifies delegations, publisher
      ensures Valid()
      ensures var going := Outgoing(old(delegations.Contents()), Elements(auds), None);
        && (err.Some? <==> fails && Unexpired(going, now) != {})
        && (err.Some? ==> err.value == PublishFailed)
        && delegations.Contents() == (if err.Some? then old(delegations.Contents()) else old(delegations.Contents()) - going)
        && publisher.revoked == old(publisher.revoked) + if err.Some? then {} else Links(Unexpired(going, now))
    {
      var current := delegations.Current(auds, None);
      var all := [];
      for i := 0 to |auds|
        modifies {}
        invariant Elements(all) == Outgoing(delegations.Contents(), Elements(auds[..i]), None)
      {
        assert auds[..i + 1] == auds[..i] + [auds[i]] && auds[i] in Elements(auds);
        ElementsJoin(auds[..i], [auds[i]]);
        ElementsJoin(all, current[auds[i]]);
        OutgoingGrows(delegations.Contents(), Elements(auds[..i]), auds[i], None);
        all := all + current[auds[i]];
      }
      assert auds[..|auds|] == auds;
      var ok := PublishRevocations(publisher, all, now, fails);
      if !ok { return Some(PublishFailed); }
      var none: map<Did, Batch> := map[];
      assert Incoming(Elements(auds), none) == {};
      assert delegations.Contents() + {} == delegations.Contents();
      err := delegations.Replace(auds, None, none);
    }
  }

  lemma NoLinks()
    ensures Links({}) == {}
  {}

  lemma OutgoingGrows(ds: set<Delegation>, auds: set<Did>, aud: Did, over: Option<Did>)
    ensures Outgoing(ds, auds + {aud}, over) == Outgoing(ds, auds, over) + Outgoing(ds, {aud}, over)
    ensures Outgoing(ds, {}, over) == {}
  {}

  lemma LinksUnion(a: set<Delegation>, b: set<Delegation>)
    ensures Links(a + b) == Links(a) + Links(b)
  {}
}
