/** The in-memory bucket store's keyset listing
    (pkg/store/bucket/memory/store.go) and the paging loop over it
    (pkg/store/store.go). */
module BucketStore {
  import opened Common
  import opened Order

  datatype BucketRecord = BucketRecord(id: Did, tenant: Did, provider: Did, name: string)

  predicate LetterOrDigit(c: char) { 'a' <= c <= 'z' || '0' <= c <= '9' }

  /** ValidateName: 3 to 63 lowercase letters, digits, dots or hyphens, starting and
      ending with a letter or digit. */
  predicate ValidName(name: string) {
    && 3 <= |name| <= 63
    && LetterOrDigit(name[0]) && LetterOrDigit(name[|name| - 1])
    && forall i :: 0 <= i < |name| ==> LetterOrDigit(name[i]) || name[i] == '.' || name[i] == '-'
  }

  lemma NameMeans(name: string)
    ensures ValidName(name) <==>
      && 3 <= |name| <= 63 && name[0] !in ".-" && name[|name| - 1] !in ".-"
      && forall c :: c in name ==> 'a' <= c <= 'z' || '0' <= c <= '9' || c == '.' || c == '-'
  {
    if |name| >= 3 { assert name[0] in name && name[|name| - 1] in name; }
    assert forall i :: 0 <= i < |name| ==> name[i] in name;
  }

  type Buckets = map<Did, BucketRecord>

  /** Records are filed under their ids, and names are unique. */
  ghost predicate WellFiled(bs: Buckets) {
    && (forall id :: id in bs ==> bs[id].id == id)
    && forall a, b :: a in bs && b in bs && bs[a].name == bs[b].name ==> a == b
  }

  /** A listing's filters, each restricting it when given. */
  datatype ListConfig = ListConfig(ids: set<Did>, names: set<string>, prefix: string, provider: Did)

  datatype Page = Page(cursor: Option<string>, results: seq<BucketRecord>)

  predicate HasPrefix(s: string, prefix: string) {
    |prefix| <= |s| && s[..|prefix|] == prefix
  }

  predicate Wanted(b: BucketRecord, tenant: Did, cfg: ListConfig) {
    && b.tenant == tenant
    && (cfg.ids != {} ==> b.id in cfg.ids)
    && (cfg.names != {} ==> b.name in cfg.names)
    && HasPrefix(b.name, cfg.prefix)
    && (cfg.provider != UNDEF ==> b.provider == cfg.provider)
  }

  /** A bucket is wanted if it is the tenant's and every filter given takes it. */
  lemma WantedMeans(b: BucketRecord, tenant: Did, cfg: ListConfig)
    ensures Wanted(b, tenant, cfg) <==>
      && b.tenant == tenant
      && (cfg.ids == {} || b.id in cfg.ids) && (cfg.names == {} || b.name in cfg.names)
      && (exists rest :: b.name == cfg.prefix + rest)
      && (cfg.provider == UNDEF || b.provider == cfg.provider)
  {
    if HasPrefix(b.name, cfg.prefix) { assert b.name == cfg.prefix + b.name[|cfg.prefix|..]; }
  }

  /** b comes after the cursor, whether or not a bucket has the cursor's name. */
  predicate After(cursor: Option<string>, b: BucketRecord) {
    cursor.Some? ==> Before(cursor.value, b.name)
  }

  predicate Selected(bs: Buckets, tenant: Did, cfg: ListConfig, cursor: Option<string>, b: BucketRecord) {
    Stored(bs, b) && Wanted(b, tenant, cfg) && After(cursor, b)
  }

  predicate Stored(bs: Buckets, b: BucketRecord) {
    b.id in bs && bs[b.id] == b
  }

  ghost predicate NameSorted(recs: seq<BucketRecord>) {
    forall i, j :: 0 <= i < j < |recs| ==> Before(recs[i].name, recs[j].name)
  }

  /** A page: of the buckets wanted after the cursor, in name order, all of them
      when they are no more than limit, or else the first limit of them with the
      last one's name as the next cursor. */
  ghost predicate IsPage(bs: Buckets, tenant: Did, cfg: ListConfig, cursor: Option<string>, limit: nat, page: Page) {
    && NameSorted(page.results)
    && (forall b :: b in page.results ==> Stored(bs, b) && Wanted(b, tenant, cfg) && After(cursor, b))
    && (forall b :: Stored(bs, b) && Wanted(b, tenant, cfg) && After(cursor, b) ==>
         b in page.results || (page.cursor.Some? && Before(page.cursor.value, b.name)))
    && |page.results| <= limit
    && (page.cursor.Some? ==>
         && |page.results| == limit && page.results != [] && page.cursor.value == page.results[|page.results| - 1].name
         && MoreAfter(bs, tenant, cfg, page.cursor.value))
  }

  /** Some wanted bucket's name comes after name. */
  ghost predicate MoreAfter(bs: Buckets, tenant: Did, cfg: ListConfig, name: string) {
    exists b :: Stored(bs, b) && Wanted(b, tenant, cfg) && Before(name, b.name)
  }

  method ListPage(bs: Buckets, tenant: Did, cfg: ListConfig, cursor: Option<string>, limit: nat) returns (r: Result<Page>)
    requires WellFiled(bs) && limit > 0
    ensures cfg.ids != {} && cfg.names != {} <==> r == Err(InvalidArgument)
    ensures !(cfg.ids != {} && cfg.names != {}) ==> r.Ok? && IsPage(bs, tenant, cfg, cursor, limit, r.value)
    ensures r.Ok? && r.value.cursor.None? ==> forall b :: b in r.value.results <==>
      && Stored(bs, b) && Wanted(b, tenant, cfg)
      && (cursor.Some? ==> Before(cursor.value, b.name))
  {
    if cfg.ids != {} && cfg.names != {} { return Err(InvalidArgument); }
    var recs := Ordered(bs, tenant, cfg, cursor);
    if |recs| > limit {
      CutIsPage(bs, tenant, cfg, cursor, limit, recs);
      return Ok(Page(Some(recs[limit - 1].name), recs[..limit]));
    }
    r := Ok(Page(None, recs));
  }

  lemma CutIsPage(bs: Buckets, tenant: Did, cfg: ListConfig, cursor: Option<string>, limit: nat, recs: seq<BucketRecord>)
    requires 0 < limit < |recs| && NameSorted(recs)
    requires forall b :: b in recs <==> Stored(bs, b) && Wanted(b, tenant, cfg) && After(cursor, b)
    ensures IsPage(bs, tenant, cfg, cursor, limit, Page(Some(recs[limit - 1].name), recs[..limit]))
  {
    var first, last := recs[..limit], recs[limit - 1].name;
    forall b | b in recs ensures b in first || Before(last, b.name) {
      var i :| 0 <= i < |recs| && recs[i] == b;
      if i < limit { assert first[i] == b; } else { assert Before(recs[limit - 1].name, recs[i].name); }
    }
    forall b | b in first ensures b in recs {}
    assert recs[limit] in recs && Before(last, recs[limit].name);
    assert MoreAfter(bs, tenant, cfg, last);
  }

  lemma NameIsNew(bs: Buckets, named: map<string, BucketRecord>, names: seq<string>, id: Did, rest: set<Did>)
    requires WellFiled(bs) && id in bs && forall n :: n in names <==> n in named
    requires forall n :: n in named ==> named[n].name == n && Stored(bs, named[n]) && named[n].id !in rest && named[n].id != id
    ensures bs[id].name !in names
  {
    forall n | n in named ensures n != bs[id].name { assert bs[named[n].id].name == n; }
  }

  /** The buckets wanted after the cursor, by name. */
  method Matching(bs: Buckets, tenant: Did, cfg: ListConfig, cursor: Option<string>)
    returns (names: seq<string>, named: map<string, BucketRecord>)
    requires WellFiled(bs)
    ensures forall i, j :: 0 <= i < j < |names| ==> names[i] != names[j]
    ensures forall n :: n in names <==> n in named
    ensures forall n :: n in named ==> named[n].name == n && Selected(bs, tenant, cfg, cursor, named[n])
    ensures forall b :: Stored(bs, b) && Wanted(b, tenant, cfg) && After(cursor, b) ==> b.name in named && named[b.name] == b
  {
    names, named := [], map[];
    var rest := bs.Keys;
    while rest != {}
      invariant rest <= bs.Keys
      invariant forall i, j :: 0 <= i < j < |names| ==> names[i] != names[j]
      invariant forall n :: n in names <==> n in named
      invariant forall n :: n in named ==>
        named[n].name == n && Selected(bs, tenant, cfg, cursor, named[n]) && named[n].id !in rest
      invariant forall b :: Stored(bs, b) && b.id !in rest && Wanted(b, tenant, cfg) && After(cursor, b) ==>
        b.name in named && named[b.name] == b
      decreases rest
    {
      var id :| id in rest;
      rest := rest - {id};
      var b := bs[id];
      if Wanted(b, tenant, cfg) && After(cursor, b) {
        NameIsNew(bs, named, names, id, rest);
        names := names + [b.name];
        named := named[b.name := b];
      }
    }
  }

  /** Everything wanted after the cursor, in name order. */
  method Ordered(bs: Buckets, tenant: Did, cfg: ListConfig, cursor: Option<string>) returns (recs: seq<BucketRecord>)
    requires WellFiled(bs)
    ensures NameSorted(recs)
    ensures forall b :: b in recs <==> Stored(bs, b) && Wanted(b, tenant, cfg) && After(cursor, b)
  {
    var names, named := Matching(bs, tenant, cfg, cursor);
    SortOfDistinct(names);
    names := Sort(names);
    recs := seq(|names|, i requires 0 <= i < |names| && names[i] in named => named[names[i]]);
    forall b | Stored(bs, b) && Wanted(b, tenant, cfg) && After(cursor, b) ensures b in recs {
      assert b.name in names;
      var i :| 0 <= i < |names| && names[i] == b.name;
      assert recs[i] == b;
    }
  }

  // ------------------------------------------------------------------ collecting

  /** Collect over the listing: read pages until one has no cursor or no results.
      states holds what the store is when each page is read, so any adds and
      deletes may come between pages. The run is finished unless the states run
      out first. Its items are strictly increasing by name; each was stored when
      its page was read; and a finished run holds every wanted bucket that was
      stored throughout. */
  method Collect(states: seq<Buckets>, tenant: Did, cfg: ListConfig, limit: nat)
    returns (items: seq<BucketRecord>, pages: nat, finished: bool)
    requires forall bs :: bs in states ==> WellFiled(bs)
    requires limit > 0 && !(cfg.ids != {} && cfg.names != {})
    ensures NameSorted(items)
    ensures pages <= |states| && (!finished ==> pages == |states|)
    ensures forall b :: b in items ==> Wanted(b, tenant, cfg) && exists bs :: bs in states && Stored(bs, b)
    ensures finished ==> forall b :: StoredThroughout(states[..pages], b) && Wanted(b, tenant, cfg) ==> b in items
    ensures |states| > 0 && |states| > |states[0]| && (forall bs :: bs in states ==> bs == states[0]) ==> finished
  {
    items, pages, finished := [], 0, false;
    var cursor: Option<string> := None;
    while pages < |states|
      invariant pages <= |states|
      invariant NameSorted(items)
      invariant items == [] ==> cursor == None && pages == 0
      invariant items != [] ==> cursor == Some(items[|items| - 1].name)
      invariant |items| >= pages
      invariant forall b :: b in items ==> Wanted(b, tenant, cfg) && exists bs :: bs in states && Stored(bs, b)
      invariant forall b :: StoredThroughout(states[..pages], b) && Wanted(b, tenant, cfg) && !After(cursor, b) ==> b in items
    {
      var r := ListPage(states[pages], tenant, cfg, cursor, limit);
      var page := r.value;
      AppendPage(items, cursor, page.results);
      ThroughoutGrows(states, pages);
      forall b | StoredThroughout(states[..pages + 1], b) && Wanted(b, tenant, cfg)
        ensures b in items + page.results || (page.cursor.Some? && Before(page.cursor.value, b.name))
      {
        assert StoredThroughout(states[..pages], b) && Stored(states[pages], b);
      }
      assert states[pages] in states;
      items := items + page.results;
      pages := pages + 1;
      if page.cursor == None || page.results == [] { return items, pages, true; }
      cursor := page.cursor;
    }
    if |states| > 0 && forall bs :: bs in states ==> bs == states[0] {
      DistinctFits(items, states[0]);
    }
  }

  ghost predicate StoredThroughout(states: seq<Buckets>, b: BucketRecord) {
    forall bs :: bs in states ==> Stored(bs, b)
  }

  lemma ThroughoutGrows(states: seq<Buckets>, pages: nat)
    requires pages < |states|
    ensures forall b :: StoredThroughout(states[..pages + 1], b) ==> StoredThroughout(states[..pages], b) && Stored(states[pages], b)
  {
    assert states[..pages + 1] == states[..pages] + [states[pages]];
  }

  lemma AppendPage(items: seq<BucketRecord>, cursor: Option<string>, more: seq<BucketRecord>)
    requires NameSorted(items) && NameSorted(more)
    requires items != [] ==> cursor == Some(items[|items| - 1].name)
    requires forall b :: b in more ==> After(cursor, b)
    ensures NameSorted(items + more)
  {
    var all := items + more;
    forall i, j | 0 <= i < j < |all| ensures Before(all[i].name, all[j].name) {
      if i < |items| <= j {
        assert all[j] in more;
        if i < |items| - 1 { BeforeTransitive(all[i].name, items[|items| - 1].name, all[j].name); }
      }
    }
  }

  /** Distinct stored buckets are no more than the store holds: on a fixed store
      the loop reads at most one page more than there are buckets. */
  lemma {:induction false} DistinctFits(items: seq<BucketRecord>, bs: Buckets)
    requires NameSorted(items) && forall b :: b in items ==> Stored(bs, b)
    ensures |items| <= |bs|
  {
    if items != [] {
      var init, last := items[..|items| - 1], items[|items| - 1];
      assert last in items && items == init + [last];
      InitStored(init, last, bs);
      DistinctFits(init, bs - {last.id});
      assert (bs - {last.id}).Keys == bs.Keys - {last.id};
    }
  }

  lemma InitStored(init: seq<BucketRecord>, last: BucketRecord, bs: Buckets)
    requires NameSorted(init + [last]) && Stored(bs, last) && forall b :: b in init ==> Stored(bs, b)
    ensures NameSorted(init) && forall b :: b in init ==> Stored(bs - {last.id}, b)
  {
    var all := init + [last];
    forall i, j | 0 <= i < j < |init| ensures Before(init[i].name, init[j].name) {
      assert Before(all[i].name, all[j].name);
    }
    BeforeIrreflexive(last.name);
    forall b | b in init ensures Stored(bs - {last.id}, b) {
      var i :| 0 <= i < |init| && init[i] == b;
      assert Before(all[i].name, all[|init|].name);
    }
  }

  class MemoryBuckets {
    var buckets: Buckets

    ghost predicate Valid() reads this { WellFiled(buckets) }

    constructor ()
      ensures Valid() && buckets == map[]
    {
      buckets := map[];
    }

    method Add(id: Did, tenant: Did, provider: Did, name: string) returns (err: Option<Error>)
      requires Valid()
      modifies this
      ensures Valid()
      ensures err == Some(InvalidArgument) <==>
        || id == UNDEF || tenant == UNDEF || provider == UNDEF
        || |name| < 3 || |name| > 63 || name[0] in ".-" || name[|name| - 1] in ".-"
        || exists c :: c in name && !('a' <= c <= 'z' || '0' <= c <= '9' || c == '.' || c == '-')
      ensures err == None ==> id !in old(buckets) && forall b :: b in old(buckets) ==> old(buckets)[b].name != name
      ensures err == Some(RecordExists) ==> id in old(buckets) || exists b :: b in old(buckets) && old(buckets)[b].name == name
      ensures err.None? || err == Some(RecordExists) || err == Some(InvalidArgument)
      ensures buckets == if err.Some? then old(buckets) else old(buckets)[id := BucketRecord(id, tenant, provider, name)]
    {
      NameMeans(name);
      if id == UNDEF || tenant == UNDEF || provider == UNDEF || !ValidName(name) { return Some(InvalidArgument); }
      if b :| b in buckets && (b == id || buckets[b].name == name) { return Some(RecordExists); }
      buckets := buckets[id := BucketRecord(id, tenant, provider, name)];
      err := None;
    }

    method GetByName(name: string) returns (r: Result<BucketRecord>)
      requires Valid()
      ensures r.Ok? ==> Stored(buckets, r.value) && r.value.name == name
      ensures r.Err? ==> r.error == RecordNotFound && forall b :: b in buckets ==> buckets[b].name != name
    {
      if b :| b in buckets && buckets[b].name == name { return Ok(buckets[b]); }
      r := Err(RecordNotFound);
    }

    method ListByTenant(tenant: Did, cfg: ListConfig, cursor: Option<string>, limit: nat) returns (r: Result<Page>)
      requires Valid() && limit > 0
      ensures cfg.ids != {} && cfg.names != {} <==> r == Err(InvalidArgument)
      ensures !(cfg.ids != {} && cfg.names != {}) ==> r.Ok? && IsPage(buckets, tenant, cfg, cursor, limit, r.value)
    {
      r := ListPage(buckets, tenant, cfg, cursor, limit);
    }

    method Delete(id: Did)
      requires Valid()
      modifies this
      ensures Valid() && buckets == old(buckets) - {id}
    {
      buckets := buckets - {id};
    }
  }
}
