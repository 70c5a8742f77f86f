/** Delegations, and the stored delegations of an access key
    (pkg/grant/grant.go). */
module Delegations {
  import opened Common
  import opened Permissions

  /** A signed delegation: issuer lets audience run command, and what it
      proves, over subject. An undefined subject is a powerline: every subject
      the issuer may act on. The link is the delegation's content identifier. */
  datatype Delegation = Delegation(
    link: string,
    issuer: Did,
    audience: Did,
    subject: Did,
    command: Command,
    expires: Option<nat>)

  predicate Expired(d: Delegation, now: nat) {
    d.expires.Some? && d.expires.value <= now
  }

  function Unexpired(ds: set<Delegation>, now: nat): set<Delegation> {
    set d | d in ds && !Expired(d, now)
  }

  /** Links tell delegations apart. */
  ghost predicate LinksDistinct(ds: set<Delegation>) {
    forall a, b :: a in ds && b in ds && a.link == b.link ==> a == b
  }

  function Links(ds: set<Delegation>): set<string> {
    set d | d in ds :: d.link
  }

  /** The delegations of ds that key holds over bucket. */
  function Over(ds: set<Delegation>, key: Did, bucket: Did): set<Delegation> {
    set d | d in ds && d.audience == key && d.subject == bucket
  }

  /** The commands key holds over bucket. */
  function Held(ds: set<Delegation>, key: Did, bucket: Did): set<Command> {
    set d | d in Over(ds, key, bucket) :: d.command
  }

  /** key can run the command over bucket: some delegation says so. */
  ghost predicate CanRun(ds: set<Delegation>, key: Did, bucket: Did, c: Command) {
    exists d :: d in ds && d.audience == key && d.subject == bucket && d.command == c
  }

  lemma HeldMeans(ds: set<Delegation>, key: Did, bucket: Did, c: Command)
    ensures c in Held(ds, key, bucket) <==> CanRun(ds, key, bucket, c)
  {
    if d :| d in ds && d.audience == key && d.subject == bucket && d.command == c { assert d in Over(ds, key, bucket); }
  }

  ghost predicate DistinctLinks(ds: seq<Delegation>) {
    forall i, j :: 0 <= i < j < |ds| ==> ds[i].link != ds[j].link
  }

  lemma {:induction false} LinkCount(ds: seq<Delegation>)
    requires DistinctLinks(ds)
    ensures |Links(Elements(ds))| == |ds|
  {
    if ds != [] {
      LinkCount(ds[..|ds| - 1]);
      LastLinkNew(ds);
    }
  }

  lemma LastLinkNew(ds: seq<Delegation>)
    requires ds != [] && DistinctLinks(ds)
    ensures var init, link := Links(Elements(ds[..|ds| - 1])), ds[|ds| - 1].link;
      link !in init && Links(Elements(ds)) == init + {link}
  {
    var init, last := ds[..|ds| - 1], ds[|ds| - 1];
    assert ds == init + [last];
    ElementsJoin(init, [last]);
    assert Elements([last]) == {last};
    assert Elements(ds) == Elements(init) + {last};
    forall d | d in init ensures d.link != last.link {
      var i :| 0 <= i < |init| && init[i] == d;
      assert ds[i].link != ds[|ds| - 1].link;
    }
  }

  lemma SubsetSize(a: set<string>, b: set<string>)
    requires b <= a && |a| == |b|
    ensures a == b
  {
    assert a == b + (a - b);
    assert |a - b| == 0;
  }

  /** sameLinks: as many, and none of b's missing from a. For listings that hold
      each delegation once, that is the same set of links. */
  method SameLinks(a: seq<Delegation>, b: seq<Delegation>) returns (same: bool)
    requires DistinctLinks(a) && DistinctLinks(b)
    ensures same <==> Links(Elements(a)) == Links(Elements(b))
  {
    LinkCount(a);
    LinkCount(b);
    if |a| != |b| { return false; }
    var links := Links(Elements(a));
    for i := 0 to |b|
      invariant forall j :: 0 <= j < i ==> b[j].link in links
    {
      if b[i].link !in links {
        assert b[i] in Elements(b) && b[i].link in Links(Elements(b));
        return false;
      }
    }
    assert Links(Elements(b)) <= links;
    SubsetSize(links, Links(Elements(b)));
    same := true;
  }

  /** The links signed so far. Signing draws a nonce, so every delegation gets a
      link none had before; the class is what remains of that randomness. */
  class LinkSource {
    ghost var minted: set<string>
    var next: nat

    ghost predicate Valid() reads this {
      forall l :: l in minted ==> |l| < next
    }

    constructor ()
      ensures Valid() && minted == {}
    {
      minted, next := {}, 0;
    }

    method Mint() returns (link: string)
      requires Valid()
      modifies this
      ensures Valid()
      ensures link !in old(minted) && minted == old(minted) + {link}
    {
      link := seq(next, _ => 'l');
      minted := minted + {link};
      next := next + 1;
    }
  }

  ghost predicate Has(dels: seq<Delegation>, subject: Did, command: Command) {
    exists d :: d in dels && d.subject == subject && d.command == command
  }

  /** dels is one delegation per subject and command from issuer to key. */
  ghost predicate IssuedFor(dels: seq<Delegation>, issuer: Did, key: Did, subjects: set<Did>, commands: set<Command>) {
    && (forall d :: d in dels ==>
         d.issuer == issuer && d.audience == key && d.subject in subjects && d.command in commands)
    && (forall s, c :: s in subjects && c in commands ==> Has(dels, s, c))
    && (forall i, j :: 0 <= i < j < |dels| ==> dels[i].link != dels[j].link)
  }

  lemma LinksJoin(a: seq<Delegation>, b: seq<Delegation>)
    ensures Links(Elements(a + b)) == Links(Elements(a)) + Links(Elements(b))
    ensures forall d :: d in a ==> d.link in Links(Elements(a))
  {
    assert Elements(a + b) == Elements(a) + Elements(b);
  }

  lemma ExtendIssued(dels: seq<Delegation>, d: Delegation, cmds: seq<Command>)
    requires IssuedFor(dels, d.issuer, d.audience, {d.subject}, Elements(cmds))
    requires d.link !in Links(Elements(dels))
    ensures IssuedFor(dels + [d], d.issuer, d.audience, {d.subject}, Elements(cmds + [d.command]))
  {
    var all := dels + [d];
    forall c | c in Elements(cmds + [d.command]) ensures Has(all, d.subject, c) {
      assert d in all;
      if c != d.command { HasMore(dels, [d], d.subject, c); }
    }
    forall e | e in dels ensures e.link != d.link { assert e in Elements(dels); }
  }

  lemma HasMore(a: seq<Delegation>, b: seq<Delegation>, subject: Did, command: Command)
    requires Has(a, subject, command) || Has(b, subject, command)
    ensures Has(a + b, subject, command)
  {
    if Has(a, subject, command) {
      var d :| d in a && d.subject == subject && d.command == command;
      assert d in a + b;
    } else {
      var d :| d in b && d.subject == subject && d.command == command;
      assert d in a + b;
    }
  }

  /** The inner loop of Issue: one delegation per command, over one subject. */
  method IssueOver(source: LinkSource, issuer: Did, key: Did, subject: Did, cmds: seq<Command>, expires: Option<nat>)
    returns (dels: seq<Delegation>)
    requires source.Valid()
    modifies source
    ensures source.Valid()
    ensures IssuedFor(dels, issuer, key, {subject}, Elements(cmds))
    ensures forall d :: d in dels ==> d.link !in old(source.minted) && d.expires == expires
    ensures source.minted == old(source.minted) + Links(Elements(dels)) && |dels| == |cmds|
  {
    dels := [];
    for j := 0 to |cmds|
      invariant source.Valid()
      invariant IssuedFor(dels, issuer, key, {subject}, Elements(cmds[..j])) && |dels| == j
      invariant forall d :: d in dels ==> d.link !in old(source.minted) && d.expires == expires
      invariant source.minted == old(source.minted) + Links(Elements(dels))
    {
      var link := source.Mint();
      var d := Delegation(link, issuer, key, subject, cmds[j], expires);
      assert cmds[..j + 1] == cmds[..j] + [cmds[j]];
      ExtendIssued(dels, d, cmds[..j]);
      LinksJoin(dels, [d]);
      dels := dels + [d];
    }
    assert cmds[..|cmds|] == cmds;
  }

  /** Issue: tenant-signed delegations, one per subject and command and no more,
      powerline ones when no subject is named. All links are new. */
  method Issue(source: LinkSource, issuer: Did, key: Did, subjects: seq<Did>, actions: seq<string>, expires: Option<nat>)
    returns (dels: seq<Delegation>)
    requires source.Valid()
    modifies source
    ensures source.Valid()
    ensures IssuedFor(dels, issuer, key, if subjects == [] then {UNDEF} else Elements(subjects), CommandSet(Elements(actions)))
    ensures forall d :: d in dels ==>
      d.issuer == issuer && d.audience == key && d.link !in old(source.minted) && d.expires == expires
    ensures forall s, c :: Has(dels, s, c) <==>
      (if subjects == [] then s == UNDEF else s in subjects) && exists a :: a in actions && Maps(a, c)
    ensures source.minted == old(source.minted) + Links(Elements(dels))
    ensures |dels| == (if subjects == [] then 1 else |subjects|) * |FirstSeen(Flatten(actions))|
  {
    var over := if subjects == [] then [UNDEF] else subjects;
    var cmds := CommandsFor(actions);
    dels := [];
    for i := 0 to |over|
      invariant source.Valid()
      invariant IssuedFor(dels, issuer, key, Elements(over[..i]), Elements(cmds))
      invariant forall d :: d in dels ==> d.link !in old(source.minted) && d.expires == expires
      invariant source.minted == old(source.minted) + Links(Elements(dels))
      invariant |dels| == i * |cmds|
    {
      var more := IssueOver(source, issuer, key, over[i], cmds, expires);
      ElementsGrow(over, i);
      JoinIssued(dels, more, issuer, key, Elements(over[..i]), over[i], Elements(cmds));
      LinksJoin(dels, more);
      OneMore(i, |cmds|);
      dels := dels + more;
    }
    assert over[..|over|] == over;
    forall s, c { IssuedMeans(dels, issuer, key, over, cmds, s, c); }
    assert Elements(over) == if subjects == [] then {UNDEF} else Elements(subjects);
  }

  lemma IssuedMeans(dels: seq<Delegation>, issuer: Did, key: Did, subjects: seq<Did>, cmds: seq<Command>, s: Did, c: Command)
    requires IssuedFor(dels, issuer, key, Elements(subjects), Elements(cmds))
    ensures Has(dels, s, c) <==> s in subjects && c in cmds
  {}

  lemma OneMore(i: nat, m: nat)
    ensures i * m + m == (i + 1) * m
  {}

  lemma JoinIssued(dels: seq<Delegation>, more: seq<Delegation>, issuer: Did, key: Did, subjects: set<Did>, s: Did, commands: set<Command>)
    requires IssuedFor(dels, issuer, key, subjects, commands)
    requires IssuedFor(more, issuer, key, {s}, commands)
    requires forall d :: d in more ==> d.link !in Links(Elements(dels))
    ensures IssuedFor(dels + more, issuer, key, subjects + {s}, commands)
  {
    var all := dels + more;
    forall t, c | t in subjects + {s} && c in commands ensures Has(all, t, c) { HasMore(dels, more, t, c); }
    forall i, j | 0 <= i < j < |all| ensures all[i].link != all[j].link {
      if i < |dels| <= j {
        assert dels[i] in Elements(dels) && more[j - |dels|] in more;
      }
    }
  }
}
