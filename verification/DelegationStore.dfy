/** The in-memory delegation store (pkg/store/delegation/memory/store.go): each
    audience's delegations in a list sorted by link. It refines a plain set. */
module DelegationStore {
  import opened Common
  import opened Order
  import opened Permissions
  import opened Delegations

  // ------------------------------------------------------------------- listings

  const DEFAULT_LIMIT := 1000

  /** What follows the delegation with the cursor's link; everything when there is
      none. */
  function AfterCursor(ds: seq<Delegation>, cursor: Option<string>): seq<Delegation>
    decreases |ds|
  {
    if cursor.None? || forall d :: d in ds ==> d.link != cursor.value then ds
    else if ds[0].link == cursor.value then ds[1..]
    else AfterCursor(ds[1..], cursor)
  }

  /** page: the first limit delegations after the cursor, and the cursor the rest
      starts from, so pages over a fixed listing neither skip nor repeat. */
  method Page(ds: seq<Delegation>, cursor: Option<string>, limit: int) returns (results: seq<Delegation>, next: Option<string>)
    requires LinkSorted(ds)
    ensures var rest, n := AfterCursor(ds, cursor), if limit <= 0 then 1000 else limit;
      && (next.Some? <==> |rest| > n)
      && (next.None? ==> results == rest)
      && (next.Some? ==> |results| == n && results + AfterCursor(ds, next) == rest)
    ensures next.None? ==> forall d ::
      d in results <==> d in ds && (cursor.Some? && (exists e :: e in ds && e.link == cursor.value) ==> Before(cursor.value, d.link))
  {
    if cursor.Some? { AfterMeans(ds, cursor.value); }
    var rest := Resume(ds, cursor);
    var n := if limit <= 0 then DEFAULT_LIMIT else limit;
    if |rest| <= n { return rest, None; }
    results := rest[..n];
    next := Some(results[n - 1].link);
    NextPage(ds, rest, n);
  }

  /** The scan for the cursor. */
  method Resume(ds: seq<Delegation>, cursor: Option<string>) returns (rest: seq<Delegation>)
    ensures rest == AfterCursor(ds, cursor) && |rest| <= |ds| && rest == ds[|ds| - |rest|..]
  {
    rest := ds;
    if cursor.None? { return; }
    var i := 0;
    while i < |ds| && ds[i].link != cursor.value
      invariant 0 <= i <= |ds|
      invariant forall j :: 0 <= j < i ==> ds[j].link != cursor.value
    {
      i := i + 1;
    }
    CursorAt(ds, cursor.value, i);
    if i < |ds| { rest := ds[i + 1..]; }
  }

  lemma NextPage(ds: seq<Delegation>, rest: seq<Delegation>, n: nat)
    requires LinkSorted(ds) && 0 < n < |rest| <= |ds| && rest == ds[|ds| - |rest|..]
    ensures rest[..n] + AfterCursor(ds, Some(rest[n - 1].link)) == rest
  {
    var at := |ds| - |rest| + n - 1;
    assert ds[at] == rest[n - 1];
    BeforeIrreflexive(ds[at].link);
    CursorAt(ds, ds[at].link, at);
    assert ds[at + 1..] == rest[n..];
  }

  lemma {:induction false} CursorAt(ds: seq<Delegation>, cursor: string, i: nat)
    requires i <= |ds| && forall j :: 0 <= j < i ==> ds[j].link != cursor
    requires i < |ds| ==> ds[i].link == cursor
    ensures AfterCursor(ds, Some(cursor)) == if i < |ds| then ds[i + 1..] else ds
  {
    if i < |ds| {
      assert ds[i] in ds;
      if i > 0 {
        CursorAt(ds[1..], cursor, i - 1);
        assert ds[1..][i..] == ds[i + 1..];
      }
    }
  }

  /** What follows a cursor is what comes after it in link order; a cursor nothing
      has leaves everything. */
  lemma {:induction false} AfterMeans(ds: seq<Delegation>, cursor: string)
    requires LinkSorted(ds)
    ensures LinkSorted(AfterCursor(ds, Some(cursor)))
    ensures forall d :: d in AfterCursor(ds, Some(cursor)) <==>
      d in ds && ((exists e :: e in ds && e.link == cursor) ==> Before(cursor, d.link))
  {
    if e :| e in ds && e.link == cursor {
      if ds[0].link == cursor {
        BeforeIrreflexive(cursor);
        assert ds == [ds[0]] + ds[1..];
        forall d | d in ds[1..] ensures Before(cursor, d.link) { var i :| 1 <= i < |ds| && ds[i] == d; }
      } else {
        AfterMeans(ds[1..], cursor);
        assert ds == [ds[0]] + ds[1..] && e in ds[1..];
        var i :| 1 <= i < |ds| && ds[i] == e;
        assert Before(ds[0].link, cursor);
        if Before(cursor, ds[0].link) { BeforeTransitive(cursor, ds[0].link, cursor); BeforeIrreflexive(cursor); }
      }
    }
  }

  // --------------------------------------------------- lists sorted by link

  ghost predicate LinkSorted(ds: seq<Delegation>) {
    forall i, j :: 0 <= i < j < |ds| ==> Before(ds[i].link, ds[j].link)
  }

  function InsertByLink(ds: seq<Delegation>, d: Delegation): seq<Delegation> {
    if ds == [] || Before(d.link, ds[0].link) then [d] + ds else [ds[0]] + InsertByLink(ds[1..], d)
  }

  function SortByLink(ds: seq<Delegation>): seq<Delegation> {
    if ds == [] then [] else InsertByLink(SortByLink(ds[..|ds| - 1]), ds[|ds| - 1])
  }

  lemma {:induction false} InsertHas(ds: seq<Delegation>, d: Delegation)
    ensures Elements(InsertByLink(ds, d)) == Elements(ds) + {d}
  {
    if ds != [] && !Before(d.link, ds[0].link) {
      InsertHas(ds[1..], d);
      ElementsJoin([ds[0]], ds[1..]);
      ElementsJoin([ds[0]], InsertByLink(ds[1..], d));
      assert ds == [ds[0]] + ds[1..];
    } else {
      ElementsJoin([d], ds);
    }
  }

  lemma {:induction false} InsertKeepsOrder(ds: seq<Delegation>, d: Delegation)
    requires LinkSorted(ds) && forall e :: e in ds ==> e.link != d.link
    ensures LinkSorted(InsertByLink(ds, d))
  {
    if ds != [] {
      var rest := InsertByLink(ds[1..], d);
      BeforeTotal(d.link, ds[0].link);
      if Before(d.link, ds[0].link) {
        forall i | 0 <= i < |ds| ensures Before(d.link, ds[i].link) {
          if i > 0 { BeforeTransitive(d.link, ds[0].link, ds[i].link); }
        }
      } else {
        InsertKeepsOrder(ds[1..], d);
        InsertHas(ds[1..], d);
        forall e | e in rest ensures Before(ds[0].link, e.link) {
          assert e in Elements(rest);
        }
      }
    }
  }

  lemma {:induction false} SortedStays(ds: seq<Delegation>)
    requires LinkSorted(ds)
    ensures SortByLink(ds) == ds
  {
    if ds != [] {
      SortedStays(ds[..|ds| - 1]);
      AppendsLast(ds[..|ds| - 1], ds[|ds| - 1]);
      assert ds == ds[..|ds| - 1] + [ds[|ds| - 1]];
    }
  }

  lemma {:induction false} AppendsLast(ds: seq<Delegation>, d: Delegation)
    requires LinkSorted(ds) && forall e :: e in ds ==> Before(e.link, d.link)
    ensures InsertByLink(ds, d) == ds + [d]
  {
    if ds != [] {
      if Before(d.link, ds[0].link) {
        BeforeTransitive(ds[0].link, d.link, ds[0].link);
        BeforeIrreflexive(ds[0].link);
      }
      AppendsLast(ds[1..], d);
      assert ds == [ds[0]] + ds[1..];
    }
  }

  /** Appending to a sorted list and sorting files one delegation. */
  lemma SortAppended(ds: seq<Delegation>, d: Delegation)
    requires LinkSorted(ds) && forall e :: e in ds ==> e.link != d.link
    ensures LinkSorted(SortByLink(ds + [d])) && Elements(SortByLink(ds + [d])) == Elements(ds) + {d}
  {
    assert (ds + [d])[..|ds|] == ds;
    SortedStays(ds);
    InsertHas(ds, d);
    InsertKeepsOrder(ds, d);
  }

  /** A sorted list is fixed by what it holds. */
  lemma {:induction false} SortedIsUnique(a: seq<Delegation>, b: seq<Delegation>)
    requires LinkSorted(a) && LinkSorted(b) && Elements(a) == Elements(b)
    ensures a == b
  {
    if a == [] {
      NoElements(b);
    } else {
      assert a[0] in Elements(b);
      SameFirst(a, b);
      SortedRest(a);
      SortedRest(b);
      SortedIsUnique(a[1..], b[1..]);
      assert a == [a[0]] + a[1..] && b == [b[0]] + b[1..];
    }
  }

  lemma SameFirst(a: seq<Delegation>, b: seq<Delegation>)
    requires LinkSorted(a) && LinkSorted(b) && Elements(a) == Elements(b) && a != [] && b != []
    ensures a[0] == b[0]
  {
    assert a[0] in Elements(b) && b[0] in Elements(a);
    var i :| 0 <= i < |b| && b[i] == a[0];
    var j :| 0 <= j < |a| && a[j] == b[0];
    BeforeIrreflexive(a[0].link);
    if i > 0 && j > 0 {
      assert Before(b[0].link, b[i].link) && Before(a[0].link, a[j].link);
      BeforeTransitive(b[0].link, a[0].link, b[0].link);
      BeforeIrreflexive(b[0].link);
    }
  }

  lemma SortedRest(a: seq<Delegation>)
    requires LinkSorted(a) && a != []
    ensures LinkSorted(a[1..]) && Elements(a[1..]) == Elements(a) - {a[0]}
  {
    forall d | d in a[1..] ensures d != a[0] {
      var i :| 0 <= i < |a[1..]| && a[1..][i] == d;
      assert Before(a[0].link, a[i + 1].link);
      BeforeIrreflexive(a[0].link);
    }
    assert a == [a[0]] + a[1..];
  }

  // ------------------------------------------------------------ filed delegations

  type Filing = map<Did, seq<Delegation>>

  function Filed(m: Filing, aud: Did): seq<Delegation> {
    if aud in m then m[aud] else []
  }

  /** Every list is sorted by link, holds only its audience's delegations, and is
      not empty. */
  ghost predicate WellFiled(m: Filing) {
    forall aud :: aud in m ==> m[aud] != [] && LinkSorted(m[aud]) && forall d :: d in m[aud] ==> d.audience == aud
  }

  ghost function ContentsOf(m: Filing): set<Delegation> {
    set aud, d | aud in m && d in m[aud] :: d
  }

  lemma FiledUnder(m: Filing, aud: Did, d: Delegation)
    requires WellFiled(m)
    ensures d in Filed(m, aud) <==> d in ContentsOf(m) && d.audience == aud
  {}

  /** The contents fix the filing. */
  lemma ContentsFixFiling(m: Filing, n: Filing)
    requires WellFiled(m) && WellFiled(n) && ContentsOf(m) == ContentsOf(n)
    ensures m == n
  {
    forall aud ensures Filed(m, aud) == Filed(n, aud) {
      forall d ensures d in Filed(m, aud) <==> d in Filed(n, aud) {
        FiledUnder(m, aud, d);
        FiledUnder(n, aud, d);
      }
      assert Elements(Filed(m, aud)) == Elements(Filed(n, aud));
      SortedIsUnique(Filed(m, aud), Filed(n, aud));
    }
    assert forall aud :: aud in m <==> Filed(m, aud) != [];
    assert forall aud :: aud in n <==> Filed(n, aud) != [];
  }

  /** Refiling one audience changes only what it holds. */
  lemma Refiled(m: Filing, aud: Did, ds: seq<Delegation>)
    requires WellFiled(m) && LinkSorted(ds) && forall d :: d in ds ==> d.audience == aud
    ensures var n := if ds == [] then m - {aud} else m[aud := ds];
      WellFiled(n) && ContentsOf(n) == (set d | d in ContentsOf(m) && d.audience != aud) + Elements(ds)
  {
    var n := if ds == [] then m - {aud} else m[aud := ds];
    assert WellFiled(n);
    forall d ensures d in ContentsOf(n) <==> (d in ContentsOf(m) && d.audience != aud) || d in ds {
      FiledUnder(m, d.audience, d);
      FiledUnder(n, d.audience, d);
    }
  }

  function Kept(ds: seq<Delegation>, over: Option<Did>): seq<Delegation> {
    if ds == [] then []
    else Kept(ds[..|ds| - 1], over) + if Covers(over, ds[|ds| - 1]) then [] else [ds[|ds| - 1]]
  }

  /** A replacement covers the delegations over its subject, or all of them. */
  predicate Covers(over: Option<Did>, d: Delegation) {
    over.Some? ==> d.subject == over.value
  }

  lemma {:induction false} KeptHas(ds: seq<Delegation>, over: Option<Did>)
    ensures Elements(Kept(ds, over)) == set d | d in ds && !Covers(over, d)
    ensures LinkSorted(ds) ==> LinkSorted(Kept(ds, over))
  {
    if ds != [] {
      var init, last := ds[..|ds| - 1], ds[|ds| - 1];
      assert ds == init + [last];
      KeptHas(init, over);
      var k := Kept(init, over);
      ElementsJoin(k, if Covers(over, last) then [] else [last]);
      if LinkSorted(ds) {
        forall i | 0 <= i < |k| ensures Before(k[i].link, last.link) {
          assert k[i] in Elements(k);
          assert k[i] in init;
        }
      }
    }
  }

  // ------------------------------------------------------------------- the store

  /** What a caller hands in may hold nil delegations. */
  type Batch = seq<Option<Delegation>>

  function Present(batch: Batch): set<Delegation> {
    set o | o in batch && o.Some? :: o.value
  }

  function Entries(next: map<Did, Batch>, aud: Did): Batch {
    if aud in next then next[aud] else []
  }

  predicate AcceptedFor(batch: Batch, aud: Did, over: Option<Did>) {
    forall o :: o in batch ==> o.Some? && o.value.audience == aud && Covers(over, o.value)
  }

  /** No nil delegation, none filed under another audience, none over another
      subject. */
  predicate Accepted(audiences: seq<Did>, over: Option<Did>, next: map<Did, Batch>) {
    forall aud :: aud in audiences ==> AcceptedFor(Entries(next, aud), aud, over)
  }

  /** What the listed audiences get. */
  function Incoming(audiences: set<Did>, next: map<Did, Batch>): set<Delegation> {
    set aud, o | aud in audiences && o in Entries(next, aud) && o.Some? :: o.value
  }

  function Outgoing(ds: set<Delegation>, audiences: set<Did>, over: Option<Did>): set<Delegation> {
    set d | d in ds && d.audience in audiences && Covers(over, d)
  }

  /** Each listed audience loses what is covered and gets what comes in. */
  function Replaced(ds: set<Delegation>, audiences: set<Did>, over: Option<Did>, next: map<Did, Batch>): set<Delegation> {
    ds - Outgoing(ds, audiences, over) + Incoming(audiences, next)
  }

  class MemoryStore {
    var byAudience: Filing

    ghost predicate Valid() reads this { WellFiled(byAudience) }

    ghost function Contents(): set<Delegation> reads this { ContentsOf(byAudience) }

    constructor ()
      ensures Valid() && Contents() == {}
    {
      byAudience := map[];
    }

    /** put: file each delegation, skipping any whose link its audience holds. */
    method Put(ds: seq<Delegation>)
      requires Valid() && LinksDistinct(Contents() + Elements(ds))
      modifies this
      ensures Valid() && Contents() == old(Contents()) + Elements(ds)
    {
      for i := 0 to |ds|
        invariant Valid() && Contents() == old(Contents()) + Elements(ds[..i])
      {
        var d := ds[i];
        assert d in ds && ds[..i + 1] == ds[..i] + [d];
        assert Elements(ds[..i + 1]) == Elements(ds[..i]) + {d};
        var existing := Filed(byAudience, d.audience);
        assert Elements(ds[..i]) <= Elements(ds);
        if e :| e in existing && e.link == d.link {
          FiledUnder(byAudience, d.audience, e);
          assert d in Contents();
        } else {
          SortAppended(existing, d);
          FileOne(byAudience, d);
          byAudience := byAudience[d.audience := SortByLink(existing + [d])];
        }
      }
      assert ds[..|ds|] == ds;
    }

    method PutBatch(batch: Batch) returns (err: Option<Error>)
      requires Valid() && LinksDistinct(Contents() + Present(batch))
      modifies this
      ensures Valid()
      ensures None in batch ==> err == Some(InvalidArgument) && Contents() == old(Contents())
      ensures None !in batch ==> err == None && Contents() == old(Contents()) + Present(batch)
    {
      if None in batch { return Some(InvalidArgument); }
      var ds := Unwrap(batch);
      Put(ds);
      err := None;
    }

    /** The sets a replacement hands to its callback: each listed audience's
        covered delegations. */
    method Current(audiences: seq<Did>, over: Option<Did>) returns (current: map<Did, seq<Delegation>>)
      requires Valid()
      ensures current.Keys == Elements(audiences)
      ensures forall aud :: aud in current ==>
        LinkSorted(current[aud]) && Elements(current[aud]) == Outgoing(Contents(), {aud}, over)
      ensures forall aud, d :: aud in current ==>
        (d in current[aud] <==> d in Contents() && d.audience == aud && (over == None || over == Some(d.subject)))
    {
      current := map[];
      for i := 0 to |audiences|
        invariant current.Keys == Elements(audiences[..i])
        invariant forall aud :: aud in current ==>
          LinkSorted(current[aud]) && Elements(current[aud]) == Outgoing(Contents(), {aud}, over)
      {
        var aud := audiences[i];
        assert audiences[..i + 1] == audiences[..i] + [aud];
        assert Elements(audiences[..i + 1]) == Elements(audiences[..i]) + {aud};
        if aud !in current {
          var ds := Covered(Filed(byAudience, aud), over);
          forall d ensures d in ds <==> d in Outgoing(Contents(), {aud}, over) { FiledUnder(byAudience, aud, d); }
          current := current[aud := ds];
        }
      }
      assert audiences[..|audiences|] == audiences;
      forall aud, d | aud in current ensures d in current[aud] <==> d in Outgoing(Contents(), {aud}, over) {
        assert d in current[aud] <==> d in Elements(current[aud]);
      }
    }

    /** One listed audience: drop what is covered, file what comes in. */
    method ReplaceOne(aud: Did, over: Option<Did>, batch: Batch)
      requires Valid() && None !in batch && LinksDistinct(Contents() + Present(batch))
      modifies this
      ensures Valid()
      ensures Contents() == old(Contents()) - Outgoing(old(Contents()), {aud}, over) + Present(batch)
    {
      var kept := Kept(Filed(byAudience, aud), over);
      KeepOne(byAudience, aud, over);
      byAudience := if kept == [] then byAudience - {aud} else byAudience[aud := kept];
      var ds := Unwrap(batch);
      Put(ds);
    }

    /** The replacement itself, once the callback has returned next: refused
        whole, or the listed audiences' covered delegations become exactly next's,
        however often an audience is listed. */
    method Replace(audiences: seq<Did>, over: Option<Did>, next: map<Did, Batch>) returns (err: Option<Error>)
      requires Valid() && LinksDistinct(Contents() + Incoming(Elements(audiences), next))
      modifies this
      ensures Valid()
      ensures err == if over == Some(UNDEF) || !Accepted(audiences, over, next) then Some(InvalidArgument) else None
      ensures err.Some? ==> byAudience == old(byAudience)
      ensures err.None? ==> Contents() == Replaced(old(Contents()), Elements(audiences), over, next)
      ensures err.Some? <==> over == Some(UNDEF) || exists aud ::
        aud in audiences && aud in next && exists o ::
          o in next[aud] && (o == None || o.value.audience != aud || (over.Some? && o.value.subject != over.value))
      ensures err.None? ==> forall d :: d in Contents() <==>
        || (d in old(Contents()) && !(d.audience in audiences && (over == None || over == Some(d.subject))))
        || exists aud :: aud in audiences && aud in next && Some(d) in next[aud]
    {
      if over == Some(UNDEF) { return Some(InvalidArgument); }
      if aud :| aud in audiences && !AcceptedFor(Entries(next, aud), aud, over) { return Some(InvalidArgument); }
      ReplaceEach(audiences, over, next);
      err := None;
      ghost var was := old(Contents());
      forall d ensures d in Incoming(Elements(audiences), next) <==> exists aud :: aud in audiences && aud in next && Some(d) in next[aud] {
        if aud :| aud in audiences && aud in next && Some(d) in next[aud] { assert Some(d) in Entries(next, aud) && Some(d).value == d; }
      }
    }

    method ReplaceEach(audiences: seq<Did>, over: Option<Did>, next: map<Did, Batch>)
      requires Valid() && LinksDistinct(Contents() + Incoming(Elements(audiences), next))
      requires Accepted(audiences, over, next)
      modifies this
      ensures Valid() && Contents() == Replaced(old(Contents()), Elements(audiences), over, next)
    {
      for i := 0 to |audiences|
        invariant Valid()
        invariant Contents() == Replaced(old(Contents()), Elements(audiences[..i]), over, next)
      {
        var aud := audiences[i];
        ElementsGrow(audiences, i);
        ReplaceStep(old(Contents()), Elements(audiences[..i]), aud, over, next, Elements(audiences));
        ReplaceOne(aud, over, Entries(next, aud));
      }
      assert audiences[..|audiences|] == audiences;
    }

    method DeleteByAudience(audience: Did)
      requires Valid()
      modifies this
      ensures Valid() && Contents() == set d | d in old(Contents()) && d.audience != audience
    {
      Refiled(byAudience, audience, []);
      byAudience := byAudience - {audience};
    }

    /** DeleteBySubject: every audience's delegations over the subject, and no
        powerline ones. */
    method DeleteBySubject(subject: Did) returns (err: Option<Error>)
      requires Valid()
      modifies this
      ensures Valid()
      ensures subject == UNDEF ==> err == Some(InvalidArgument) && byAudience == old(byAudience)
      ensures subject != UNDEF ==> err == None && Contents() == set d | d in old(Contents()) && d.subject != subject
    {
      if subject == UNDEF { return Some(InvalidArgument); }
      var rest := byAudience.Keys;
      while rest != {}
        invariant Valid()
        invariant Contents() == set d | d in old(Contents()) && (d.subject != subject || d.audience in rest)
        decreases rest
      {
        var aud :| aud in rest;
        var kept := Kept(Filed(byAudience, aud), Some(subject));
        KeepOne(byAudience, aud, Some(subject));
        byAudience := if kept == [] then byAudience - {aud} else byAudience[aud := kept];
        rest := rest - {aud};
      }
      forall d | d in old(Contents()) ensures d.audience in old(byAudience.Keys) {}
      err := None;
    }

    /** Everything over the subject, gathered audience by audience and sorted by
        link. */
    method ListBySubject(subject: Did) returns (r: Result<seq<Delegation>>)
      requires Valid() && LinksDistinct(Contents())
      ensures subject == UNDEF ==> r == Err(InvalidArgument)
      ensures subject != UNDEF ==> r.Ok? && LinkSorted(r.value)
      ensures r.Ok? ==> forall d :: d in r.value <==> d in Contents() && d.subject == subject
    {
      if subject == UNDEF { return Err(InvalidArgument); }
      var ds: seq<Delegation> := [];
      var rest := byAudience.Keys;
      while rest != {}
        invariant LinkSorted(ds)
        invariant rest <= byAudience.Keys
        invariant Elements(ds) == set d | d in Contents() && d.subject == subject && d.audience !in rest
        decreases rest
      {
        var aud :| aud in rest;
        rest := rest - {aud};
        ds := GatherOver(ds, byAudience[aud], subject, aud);
      }
      forall d ensures d in ds <==> d in Contents() && d.subject == subject { assert d in ds <==> d in Elements(ds); }
      r := Ok(ds);
    }

    method GatherOver(ds: seq<Delegation>, held: seq<Delegation>, subject: Did, aud: Did) returns (out: seq<Delegation>)
      requires Valid() && LinksDistinct(Contents()) && LinkSorted(ds) && Elements(ds) <= Contents()
      requires aud in byAudience && held == byAudience[aud] && forall d :: d in ds ==> d.audience != aud
      ensures LinkSorted(out)
      ensures Elements(out) == Elements(ds) + set d | d in Contents() && d.subject == subject && d.audience == aud
    {
      out := ds;
      for i := 0 to |held|
        invariant LinkSorted(out)
        invariant Elements(out) == Elements(ds) + set d | d in held[..i] && d.subject == subject
      {
        var d := held[i];
        assert held[..i + 1] == held[..i] + [d] && d in held;
        forall e | e in out ensures e.link != d.link {
          FiledUnder(byAudience, aud, d);
          assert e in Elements(out);
          if e in held[..i] { NotAgain(held, i, e); } else { assert e in Elements(ds); }
        }
        SortAppended(out, d);
        if d.subject == subject { out := SortByLink(out + [d]); }
      }
      assert held[..|held|] == held;
      forall d ensures d in held <==> d in Contents() && d.audience == aud { FiledUnder(byAudience, aud, d); }
    }

    /** Everything the audience holds, in link order. */
    method ListByAudience(audience: Did) returns (ds: seq<Delegation>)
      requires Valid()
      ensures LinkSorted(ds) && forall d :: d in ds <==> d in Contents() && d.audience == audience
    {
      ds := Filed(byAudience, audience);
      forall d ensures d in ds <==> d in Contents() && d.audience == audience { FiledUnder(byAudience, audience, d); }
    }
  }

  lemma NotAgain(held: seq<Delegation>, i: nat, e: Delegation)
    requires LinkSorted(held) && i < |held| && e in held[..i]
    ensures e.link != held[i].link
  {
    var j :| 0 <= j < i && held[j] == e;
    BeforeIrreflexive(e.link);
  }

  lemma FileOne(m: Filing, d: Delegation)
    requires WellFiled(m) && forall e :: e in Filed(m, d.audience) ==> e.link != d.link
    ensures var n := m[d.audience := SortByLink(Filed(m, d.audience) + [d])];
      WellFiled(n) && ContentsOf(n) == ContentsOf(m) + {d}
  {
    var ds := SortByLink(Filed(m, d.audience) + [d]);
    SortAppended(Filed(m, d.audience), d);
    assert d in Elements(ds);
    forall e | e in ds ensures e.audience == d.audience {
      assert e in Elements(ds);
      if e != d { FiledUnder(m, d.audience, e); }
    }
    Refiled(m, d.audience, ds);
    forall e ensures e in ContentsOf(m) && e.audience == d.audience <==> e in Filed(m, d.audience) { FiledUnder(m, d.audience, e); }
  }

  lemma KeepOne(m: Filing, aud: Did, over: Option<Did>)
    requires WellFiled(m)
    ensures var kept := Kept(Filed(m, aud), over);
      var n := if kept == [] then m - {aud} else m[aud := kept];
      WellFiled(n) && ContentsOf(n) == ContentsOf(m) - Outgoing(ContentsOf(m), {aud}, over)
  {
    var kept := Kept(Filed(m, aud), over);
    KeptHas(Filed(m, aud), over);
    forall d | d in kept ensures d.audience == aud {
      assert d in Elements(kept);
      FiledUnder(m, aud, d);
    }
    Refiled(m, aud, kept);
    forall d ensures d in kept <==> d in ContentsOf(m) && d.audience == aud && !Covers(over, d) {
      FiledUnder(m, aud, d);
      assert d in kept <==> d in Elements(kept);
    }
  }

  /** One more audience replaced, whether or not it was before. */
  lemma ReplaceStep(was: set<Delegation>, done: set<Did>, aud: Did, over: Option<Did>, next: map<Did, Batch>, all: set<Did>)
    requires forall a :: a in done + {aud} ==> AcceptedFor(Entries(next, a), a, over)
    requires done + {aud} <= all && LinksDistinct(was + Incoming(all, next))
    ensures var before := Replaced(was, done, over, next);
      && Replaced(was, done + {aud}, over, next) == before - Outgoing(before, {aud}, over) + Present(Entries(next, aud))
      && LinksDistinct(before + Present(Entries(next, aud)))
  {
    var before := Replaced(was, done, over, next);
    assert Incoming(done, next) + Present(Entries(next, aud)) <= Incoming(all, next);
    forall d | d in Incoming(done, next) && d.audience == aud ensures d in Present(Entries(next, aud)) {
      var a, o :| a in done && o in Entries(next, a) && o.Some? && o.value == d;
      assert a == aud;
    }
  }

  method Unwrap(batch: Batch) returns (ds: seq<Delegation>)
    requires None !in batch
    ensures Elements(ds) == Present(batch)
  {
    ds := [];
    for i := 0 to |batch|
      invariant Elements(ds) == Present(batch[..i])
    {
      assert batch[..i + 1] == batch[..i] + [batch[i]];
      assert batch[i] in batch;
      assert Present(batch[..i + 1]) == Present(batch[..i]) + {batch[i].value};
      ds := ds + [batch[i].value];
    }
    assert batch[..|batch|] == batch;
  }

  method Covered(ds: seq<Delegation>, over: Option<Did>) returns (r: seq<Delegation>)
    requires LinkSorted(ds)
    ensures LinkSorted(r) && forall d :: d in r <==> d in ds && Covers(over, d)
  {
    r := [];
    for i := 0 to |ds|
      invariant LinkSorted(r) && forall d :: d in r <==> d in ds[..i] && Covers(over, d)
    {
      assert forall e :: e in r ==> e in ds[..i];
      assert ds[..i + 1] == ds[..i] + [ds[i]];
      forall k | 0 <= k < |r| ensures Before(r[k].link, ds[i].link) { assert r[k] in ds[..i]; }
      if Covers(over, ds[i]) { r := r + [ds[i]]; }
    }
    assert ds[..|ds|] == ds;
  }
}
