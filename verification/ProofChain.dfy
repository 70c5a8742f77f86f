/** The proof-chain search of the Postgres delegation store
    (pkg/store/delegation/postgres/store.go). */
module ProofChain {
  import opened Common
  import opened Permissions
  import opened Delegations

  /** a proves b: the same command, the top command, or a prefix of b that ends
      at a segment boundary. */
  predicate Proves(a: Command, b: Command) {
    || a == b
    || a == TOP
    || (|b| > |a| && b[..|a|] == a && b[|a|] == '/')
  }

  /** A command proves those at or under it, segment by segment. */
  lemma ProvesMeans(a: Command, b: Command)
    ensures Proves(a, b) <==> a == "/" || a == b || exists rest :: b == a + "/" + rest
  {
    if |b| > |a| && b[..|a|] == a && b[|a|] == '/' { assert b == a + "/" + b[|a| + 1..]; }
    if rest :| b == a + "/" + rest { assert b[..|a|] == a && b[|a|] == '/'; }
  }

  lemma ProvesTransitive(a: Command, b: Command, c: Command)
    requires Proves(a, b) && Proves(b, c)
    ensures Proves(a, c)
  {
    if |b| > |a| && b[..|a|] == a && |c| > |b| && c[..|b|] == b {
      assert c[..|a|] == c[..|b|][..|a|];
      assert c[|a|] == c[..|b|][|a|];
    }
  }

  // ------------------------------------------------------------- what is sought

  predicate OverSubject(d: Delegation, sub: Did) {
    d.subject == sub || d.subject == UNDEF
  }

  /** The delegation is a trust root: its subject issued it. */
  predicate Root(d: Delegation) {
    d.subject != UNDEF && d.subject == d.issuer
  }

  /** A proof chain, root first: the subject issued the first, each audience
      issues the next, the last is for aud, all are over the subject, and each
      command proves the next and the last proves cmd. */
  ghost predicate IsChain(rows: set<Delegation>, aud: Did, cmd: Command, sub: Did, ps: seq<Delegation>) {
    && |ps| > 0
    && (forall d :: d in ps ==> d in rows && OverSubject(d, sub))
    && ps[0].issuer == sub && ps[0].subject == sub
    && ps[|ps| - 1].audience == aud && Proves(ps[|ps| - 1].command, cmd)
    && forall i :: 0 <= i < |ps| - 1 ==> ps[i].audience == ps[i + 1].issuer && Proves(ps[i].command, ps[i + 1].command)
  }

  ghost predicate HasChain(rows: set<Delegation>, aud: Did, cmd: Command, sub: Did) {
    exists ps :: IsChain(rows, aud, cmd, sub, ps)
  }

  /** Every delegation of a chain proves every later one and the request. */
  lemma {:induction false} ChainProvesAll(rows: set<Delegation>, aud: Did, cmd: Command, sub: Did, ps: seq<Delegation>, i: nat, j: nat)
    requires IsChain(rows, aud, cmd, sub, ps) && i <= j < |ps|
    ensures Proves(ps[i].command, ps[j].command) && Proves(ps[i].command, cmd)
    decreases |ps| - i
  {
    if i < |ps| - 1 {
      ChainProvesAll(rows, aud, cmd, sub, ps, i + 1, if j > i then j else i + 1);
      ProvesTransitive(ps[i].command, ps[i + 1].command, cmd);
      if i < j { ProvesTransitive(ps[i].command, ps[i + 1].command, ps[j].command); }
    }
  }

  // ---------------------------------------------------------------- the search

  /** A row the query starts from. */
  predicate Starts(d: Delegation, aud: Did, cmd: Command, sub: Did) {
    d.audience == aud && OverSubject(d, sub) && Proves(d.command, cmd)
  }

  /** d extends a path whose last delegation is c. */
  predicate Follows(d: Delegation, c: Delegation, sub: Did) {
    d.audience == c.issuer && OverSubject(d, sub) && Proves(d.command, c.command)
  }

  /** A path from aud towards the root, leaf first. */
  ghost predicate Trail(rows: set<Delegation>, aud: Did, cmd: Command, sub: Did, p: seq<Delegation>) {
    && |p| > 0
    && (forall d :: d in p ==> d in rows)
    && Starts(p[0], aud, cmd, sub)
    && forall i :: 0 <= i < |p| - 1 ==> Follows(p[i + 1], p[i], sub)
  }

  ghost predicate NoRepeats(p: seq<Delegation>) {
    forall i, j :: 0 <= i < j < |p| ==> p[i].link != p[j].link
  }

  /** A path the recursive query produces: no id twice, and nothing beyond a
      root. */
  ghost predicate Walk(rows: set<Delegation>, aud: Did, cmd: Command, sub: Did, p: seq<Delegation>) {
    && Trail(rows, aud, cmd, sub, p)
    && NoRepeats(p)
    && forall i :: 0 <= i < |p| - 1 ==> !Root(p[i])
  }

  function Last(p: seq<Delegation>): Delegation
    requires |p| > 0
  {
    p[|p| - 1]
  }

  /** The recursive term joins row d to path c. */
  predicate Joins(c: seq<Delegation>, d: Delegation, sub: Did) {
    |c| > 0 && !Root(Last(c)) && Follows(d, Last(c), sub) && forall e :: e in c ==> e.link != d.link
  }

  /** One iteration of the recursive term. */
  function Extended(rows: set<Delegation>, work: set<seq<Delegation>>, sub: Did): set<seq<Delegation>> {
    set c, d | c in work && d in rows && Joins(c, d, sub) :: c + [d]
  }

  lemma WalkExtends(rows: set<Delegation>, aud: Did, cmd: Command, sub: Did, c: seq<Delegation>, d: Delegation)
    requires |c| > 0
    ensures Walk(rows, aud, cmd, sub, c + [d]) <==> Walk(rows, aud, cmd, sub, c) && d in rows && Joins(c, d, sub)
  {
    var p := c + [d];
    assert p[0] == c[0] && p[..|c|] == c && p[|c|] == d;
    if Walk(rows, aud, cmd, sub, p) {
      assert forall e :: e in c ==> e in p;
      assert forall i :: 0 <= i < |c| ==> p[i] == c[i];
      assert Follows(p[|c| - 1 + 1], p[|c| - 1], sub);
      assert d in p;
      forall e | e in c ensures e.link != d.link {
        var i :| 0 <= i < |c| && c[i] == e;
        assert p[i].link != p[|c|].link;
      }
    }
    if Walk(rows, aud, cmd, sub, c) && d in rows && Joins(c, d, sub) {
      forall i, j | 0 <= i < j < |p| ensures p[i].link != p[j].link {
        if j == |c| { assert p[i] in c; }
      }
    }
  }

  /** A path without repeats is no longer than the table. */
  lemma {:induction false} NoRepeatsShort(rows: set<Delegation>, p: seq<Delegation>)
    requires NoRepeats(p) && forall d :: d in p ==> d in rows
    ensures |p| <= |rows|
  {
    if p != [] {
      var rest := p[..|p| - 1];
      assert p == rest + [Last(p)];
      forall d | d in rest ensures d in rows - {Last(p)} {
        var i :| 0 <= i < |rest| && rest[i] == d;
        assert p[i].link != p[|p| - 1].link;
      }
      NoRepeatsShort(rows - {Last(p)}, rest);
      assert Last(p) in rows;
    }
  }

  /** The working table after the recursive term is the walks one longer. */
  lemma ExtendedIsNext(rows: set<Delegation>, aud: Did, cmd: Command, sub: Did, work: set<seq<Delegation>>, depth: nat)
    requires depth > 0
    requires forall p :: p in work <==> Walk(rows, aud, cmd, sub, p) && |p| == depth
    ensures forall p :: p in Extended(rows, work, sub) <==> Walk(rows, aud, cmd, sub, p) && |p| == depth + 1
  {
    forall p ensures p in Extended(rows, work, sub) <==> Walk(rows, aud, cmd, sub, p) && |p| == depth + 1 {
      if p in Extended(rows, work, sub) {
        var c, d :| c in work && d in rows && Joins(c, d, sub) && p == c + [d];
        WalkExtends(rows, aud, cmd, sub, c, d);
      }
      if Walk(rows, aud, cmd, sub, p) && |p| == depth + 1 {
        var c, d := p[..depth], p[depth];
        assert p == c + [d];
        WalkExtends(rows, aud, cmd, sub, c, d);
        assert c in work;
      }
    }
  }

  /** The base term is the walks of one delegation. */
  lemma StartsAreWalks(rows: set<Delegation>, aud: Did, cmd: Command, sub: Did, p: seq<Delegation>)
    ensures p in (set d | d in rows && Starts(d, aud, cmd, sub) :: [d]) <==> Walk(rows, aud, cmd, sub, p) && |p| == 1
  {
    if Walk(rows, aud, cmd, sub, p) && |p| == 1 {
      assert p == [p[0]] && p[0] in rows;
    }
  }

  /** The recursive query: every walk, found level by level. */
  method Walks(rows: set<Delegation>, aud: Did, cmd: Command, sub: Did) returns (chain: set<seq<Delegation>>)
    ensures forall p :: p in chain <==> Walk(rows, aud, cmd, sub, p)
  {
    var work := set d | d in rows && Starts(d, aud, cmd, sub) :: [d];
    chain := work;
    ghost var depth := 1;
    forall p ensures p in work <==> Walk(rows, aud, cmd, sub, p) && |p| == 1 { StartsAreWalks(rows, aud, cmd, sub, p); }
    while work != {}
      invariant depth > 0
      invariant forall p :: p in work <==> Walk(rows, aud, cmd, sub, p) && |p| == depth
      invariant forall p :: p in chain <==> Walk(rows, aud, cmd, sub, p) && |p| <= depth
      decreases if work == {} then -1 else |rows| - depth
    {
      ghost var some :| some in work;
      NoRepeatsShort(rows, some);
      ExtendedIsNext(rows, aud, cmd, sub, work, depth);
      work := Extended(rows, work, sub);
      chain := chain + work;
      depth := depth + 1;
      if work != {} {
        ghost var next :| next in work;
        NoRepeatsShort(rows, next);
      }
    }
    forall p | Walk(rows, aud, cmd, sub, p) ensures p in chain { NoLongerWalks(rows, aud, cmd, sub, p, depth); }
  }

  /** When no walk has a given length, none is longer. */
  lemma {:induction false} NoLongerWalks(rows: set<Delegation>, aud: Did, cmd: Command, sub: Did, p: seq<Delegation>, depth: nat)
    requires Walk(rows, aud, cmd, sub, p) && depth > 0
    requires forall q :: Walk(rows, aud, cmd, sub, q) ==> |q| != depth
    ensures |p| < depth
  {
    if |p| > depth {
      assert p == p[..|p| - 1] + [Last(p)];
      WalkExtends(rows, aud, cmd, sub, p[..|p| - 1], Last(p));
      NoLongerWalks(rows, aud, cmd, sub, p[..|p| - 1], depth);
    }
  }

  // ------------------------------------------------- walks suffice for chains

  function Reverse(p: seq<Delegation>): (r: seq<Delegation>)
    ensures |r| == |p| && forall i :: 0 <= i < |p| ==> r[i] == p[|p| - 1 - i]
    ensures forall d :: d in r <==> d in p
  {
    var r := seq(|p|, i requires 0 <= i < |p| => p[|p| - 1 - i]);
    assert forall i :: 0 <= i < |p| ==> p[i] == r[|p| - 1 - i];
    r
  }

  /** A trail that ends in a root, read backwards, is a chain. */
  lemma TrailIsChain(rows: set<Delegation>, aud: Did, cmd: Command, sub: Did, p: seq<Delegation>)
    requires sub != UNDEF && Trail(rows, aud, cmd, sub, p) && Root(Last(p))
    ensures IsChain(rows, aud, cmd, sub, Reverse(p))
  {
    var r := Reverse(p);
    forall d | d in p ensures OverSubject(d, sub) { TrailOver(rows, aud, cmd, sub, p, d); }
    assert r[0] == Last(p) && Last(p) in p;
    forall i | 0 <= i < |r| - 1 ensures r[i].audience == r[i + 1].issuer && Proves(r[i].command, r[i + 1].command) {
      assert Follows(p[|p| - 2 - i + 1], p[|p| - 2 - i], sub);
    }
  }

  /** A chain, read backwards, is a trail that ends in a root. */
  lemma ChainIsTrail(rows: set<Delegation>, aud: Did, cmd: Command, sub: Did, ps: seq<Delegation>)
    requires sub != UNDEF && IsChain(rows, aud, cmd, sub, ps)
    ensures Trail(rows, aud, cmd, sub, Reverse(ps)) && Root(Last(Reverse(ps)))
  {
    var p := Reverse(ps);
    assert p[0] == ps[|ps| - 1] && p[0] in ps;
    forall i | 0 <= i < |p| - 1 ensures Follows(p[i + 1], p[i], sub) {
      var k := |p| - 2 - i;
      assert ps[k] == p[i + 1] && ps[k + 1] == p[i] && ps[k] in ps;
    }
  }

  lemma TrailOver(rows: set<Delegation>, aud: Did, cmd: Command, sub: Did, p: seq<Delegation>, d: Delegation)
    requires Trail(rows, aud, cmd, sub, p) && d in p
    ensures OverSubject(d, sub)
  {
    var i :| 0 <= i < |p| && p[i] == d;
    if i > 0 { assert Follows(p[i - 1 + 1], p[i - 1], sub); }
  }

  /** Cutting a trail after any delegation leaves a trail. */
  lemma Truncate(rows: set<Delegation>, aud: Did, cmd: Command, sub: Did, p: seq<Delegation>, i: nat)
    requires Trail(rows, aud, cmd, sub, p) && i < |p|
    ensures Trail(rows, aud, cmd, sub, p[..i + 1])
  {}

  /** Cutting out a cycle leaves a trail. */
  lemma CutCycle(rows: set<Delegation>, aud: Did, cmd: Command, sub: Did, p: seq<Delegation>, i: nat, j: nat)
    requires Trail(rows, aud, cmd, sub, p) && i < j < |p| - 1 && p[i] == p[j]
    ensures Trail(rows, aud, cmd, sub, p[..i + 1] + p[j + 1..])
  {
    var q := p[..i + 1] + p[j + 1..];
    assert forall d :: d in q ==> d in p;
    forall k | 0 <= k < |q| - 1 ensures Follows(q[k + 1], q[k], sub) {
      if k == i { assert q[k] == p[j] && q[k + 1] == p[j + 1]; }
      else if k < i { assert q[k] == p[k] && q[k + 1] == p[k + 1]; }
      else { assert q[k] == p[k - i + j] && q[k + 1] == p[k - i + j + 1]; }
    }
  }

  lemma WithoutCycle(rows: set<Delegation>, aud: Did, cmd: Command, sub: Did, p: seq<Delegation>) returns (q: seq<Delegation>)
    requires LinksDistinct(rows) && Trail(rows, aud, cmd, sub, p) && Root(Last(p)) && !NoRepeats(p)
    requires forall i :: 0 <= i < |p| - 1 ==> !Root(p[i])
    ensures |q| < |p| && Trail(rows, aud, cmd, sub, q) && Root(Last(q))
  {
    var i, j :| 0 <= i < j < |p| && p[i].link == p[j].link;
    assert p[i] in p && p[j] in p;
    assert p[i] == p[j];
    CutCycle(rows, aud, cmd, sub, p, i, j);
    q := p[..i + 1] + p[j + 1..];
  }

  /** Every trail to a root shortens to a walk to a root: drop what lies beyond
      the first root, and cut out cycles. */
  lemma {:induction false} ShortenToWalk(rows: set<Delegation>, aud: Did, cmd: Command, sub: Did, p: seq<Delegation>)
    requires LinksDistinct(rows)
    requires Trail(rows, aud, cmd, sub, p) && Root(Last(p))
    ensures exists w :: Walk(rows, aud, cmd, sub, w) && Root(Last(w)) && |w| <= |p|
    decreases |p|
  {
    if i :| 0 <= i < |p| - 1 && Root(p[i]) {
      Truncate(rows, aud, cmd, sub, p, i);
      ShortenToWalk(rows, aud, cmd, sub, p[..i + 1]);
    } else if !NoRepeats(p) {
      var q := WithoutCycle(rows, aud, cmd, sub, p);
      ShortenToWalk(rows, aud, cmd, sub, q);
    } else {
      assert Walk(rows, aud, cmd, sub, p);
    }
  }

  // ------------------------------------------------------------------ the result

  /** ORDER BY depth LIMIT 1, over the complete paths. */
  method Shortest(paths: set<seq<Delegation>>) returns (best: Option<seq<Delegation>>)
    ensures best.None? <==> paths == {}
    ensures best.Some? ==> best.value in paths && forall p :: p in paths ==> |best.value| <= |p|
  {
    best := None;
    var rest := paths;
    while rest != {}
      invariant rest <= paths
      invariant best.None? <==> rest == paths
      invariant best.Some? ==> best.value in paths && forall p :: p in paths - rest ==> |best.value| <= |p|
      decreases rest
    {
      var p :| p in rest;
      rest := rest - {p};
      if best.None? || |p| < |best.value| { best := Some(p); }
    }
  }

  /** A returned chain is one, and none is shorter. */
  ghost predicate ShortestChain(rows: set<Delegation>, aud: Did, cmd: Command, sub: Did, ps: seq<Delegation>) {
    && IsChain(rows, aud, cmd, sub, ps)
    && forall other :: IsChain(rows, aud, cmd, sub, other) ==> |ps| <= |other|
  }

  /** ProofChain: refuses an undefined subject; otherwise a shortest chain, or
      none exactly when there is none. */
  method ProofChain(rows: set<Delegation>, aud: Did, cmd: Command, sub: Did) returns (r: Result<seq<Delegation>>)
    requires LinksDistinct(rows)
    ensures sub == UNDEF <==> r == Err(InvalidArgument)
    ensures sub != UNDEF ==> r.Ok? && (r.value == [] <==> !HasChain(rows, aud, cmd, sub))
    ensures r.Ok? && r.value != [] ==> ShortestChain(rows, aud, cmd, sub, r.value) && NoRepeats(r.value)
  {
    if sub == UNDEF { return Err(InvalidArgument); }
    var chain := Walks(rows, aud, cmd, sub);
    var complete := set p | p in chain && |p| > 0 && Root(Last(p));
    var best := Shortest(complete);
    forall other | IsChain(rows, aud, cmd, sub, other)
      ensures best.Some? && |best.value| <= |other|
    {
      CompleteWalk(rows, aud, cmd, sub, other, complete);
    }
    if best.None? { return Ok([]); }
    TrailIsChain(rows, aud, cmd, sub, best.value);
    r := Ok(Reverse(best.value));
    assert IsChain(rows, aud, cmd, sub, r.value);
  }

  /** Every chain has a complete walk at most as long. */
  lemma CompleteWalk(rows: set<Delegation>, aud: Did, cmd: Command, sub: Did, ps: seq<Delegation>, complete: set<seq<Delegation>>)
    requires LinksDistinct(rows) && sub != UNDEF && IsChain(rows, aud, cmd, sub, ps)
    requires forall p :: p in complete <==> Walk(rows, aud, cmd, sub, p) && Root(Last(p))
    ensures exists w :: w in complete && |w| <= |ps|
  {
    ChainIsTrail(rows, aud, cmd, sub, ps);
    ShortenToWalk(rows, aud, cmd, sub, Reverse(ps));
  }
}
