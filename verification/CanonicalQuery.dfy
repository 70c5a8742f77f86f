/** The SigV4 canonical query string (pkg/sigv4/canonical.go). A string is a
    sequence of bytes, one character each. */
module CanonicalQuery {
  import opened Common
  import opened Order

  /** Every character is a byte. */
  predicate Bytes(s: string) {
    forall i :: 0 <= i < |s| ==> s[i] as int < 256
  }

  // -------------------------------------------------------------- percent-encoding

  predicate Unreserved(c: char) {
    'A' <= c <= 'Z' || 'a' <= c <= 'z' || '0' <= c <= '9' || c in "-_.~"
  }

  const UPPER_HEX := "0123456789ABCDEF"

  function EncodeByte(c: char, encodeSlash: bool): string
    requires c as int < 256
  {
    if Unreserved(c) || (c == '/' && !encodeSlash) then [c]
    else ['%', UPPER_HEX[c as int / 16], UPPER_HEX[c as int % 16]]
  }

  function Encode(s: string, encodeSlash: bool): string
    requires Bytes(s)
  {
    if s == "" then "" else EncodeByte(s[0], encodeSlash) + Encode(s[1..], encodeSlash)
  }

  function Concat(pieces: seq<string>): string {
    if pieces == [] then "" else pieces[0] + Concat(pieces[1..])
  }

  /** p is how c is sent: the letters, the digits and - _ . ~ as they are, a slash
      too unless it is encoded, and any other byte as a percent sign and the two
      upper-case hex digits of its code. */
  ghost predicate PieceOf(p: string, c: char, encodeSlash: bool) {
    if 'A' <= c <= 'Z' || 'a' <= c <= 'z' || '0' <= c <= '9' || c == '-' || c == '_' || c == '.' || c == '~' || (c == '/' && !encodeSlash)
    then p == [c]
    else c as int < 256 && p == ['%', "0123456789ABCDEF"[c as int / 16], "0123456789ABCDEF"[c as int % 16]]
  }

  /** The encoding of s is its characters' pieces, one after another. */
  lemma {:induction false} EncodedPieces(s: string, encodeSlash: bool) returns (pieces: seq<string>)
    requires Bytes(s)
    ensures |pieces| == |s| && forall i :: 0 <= i < |s| ==> PieceOf(pieces[i], s[i], encodeSlash)
    ensures Encode(s, encodeSlash) == Concat(pieces)
  {
    pieces := [];
    if s != "" {
      var rest := EncodedPieces(s[1..], encodeSlash);
      ByteIsPiece(s[0], encodeSlash);
      pieces := [EncodeByte(s[0], encodeSlash)] + rest;
      assert pieces[1..] == rest;
    }
  }

  lemma ByteIsPiece(c: char, encodeSlash: bool)
    requires c as int < 256
    ensures PieceOf(EncodeByte(c, encodeSlash), c, encodeSlash)
  {}

  lemma EncodeIsPieced(s: string, encodeSlash: bool)
    requires Bytes(s)
    ensures Pieced(Encode(s, encodeSlash), s, encodeSlash)
  {
    var pieces := EncodedPieces(s, encodeSlash);
  }

  /** out is s's characters' pieces, one after another. */
  ghost predicate Pieced(out: string, s: string, encodeSlash: bool) {
    exists pieces :: out == Concat(pieces) && |pieces| == |s| && forall i :: 0 <= i < |s| ==> PieceOf(pieces[i], s[i], encodeSlash)
  }

  method AwsUriEncode(s: string, encodeSlash: bool) returns (out: string)
    requires Bytes(s)
    ensures out == Encode(s, encodeSlash)
    ensures Pieced(out, s, encodeSlash)
  {
    out := "";
    for i := 0 to |s|
      invariant out + Encode(s[i..], encodeSlash) == Encode(s, encodeSlash)
    {
      assert s[i..][1..] == s[i + 1..];
      out := out + EncodeByte(s[i], encodeSlash);
    }
    assert out + [] == out;
    EncodeIsPieced(s, encodeSlash);
  }

  function HexValue(c: char): nat {
    if '0' <= c <= '9' then c as int - '0' as int
    else if 'A' <= c <= 'F' then c as int - 'A' as int + 10
    else 0
  }

  function Decode(e: string): string
    decreases |e|
  {
    if e == "" then ""
    else if e[0] == '%' && |e| >= 3 then [(16 * HexValue(e[1]) + HexValue(e[2])) as char] + Decode(e[3..])
    else [e[0]] + Decode(e[1..])
  }

  lemma HexRoundTrip(d: nat)
    requires d < 16
    ensures HexValue(UPPER_HEX[d]) == d && UPPER_HEX[d] !in "=&%"
  {
    assert d == 0 || d == 1 || d == 2 || d == 3 || d == 4 || d == 5 || d == 6 || d == 7
        || d == 8 || d == 9 || d == 10 || d == 11 || d == 12 || d == 13 || d == 14 || d == 15;
  }

  lemma DecodeByte(c: char, rest: string, encodeSlash: bool)
    requires c as int < 256
    ensures Decode(EncodeByte(c, encodeSlash) + rest) == [c] + Decode(rest)
    ensures forall x :: x in EncodeByte(c, encodeSlash) ==> x != '=' && x != '&'
  {
    var head := EncodeByte(c, encodeSlash);
    HexRoundTrip(c as int / 16);
    HexRoundTrip(c as int % 16);
    assert (head + rest)[|head|..] == rest;
  }

  /** Decoding undoes encoding, so encoding is injective; and what it emits never
      holds '=' or '&'. */
  lemma {:induction false} EncodeRoundTrip(s: string, encodeSlash: bool)
    requires Bytes(s)
    ensures Decode(Encode(s, encodeSlash)) == s
    ensures forall c :: c in Encode(s, encodeSlash) ==> c != '=' && c != '&'
  {
    if s != "" {
      EncodeRoundTrip(s[1..], encodeSlash);
      DecodeByte(s[0], Encode(s[1..], encodeSlash), encodeSlash);
      assert s == [s[0]] + s[1..];
    }
  }

  lemma EncodeInjective(a: string, b: string, encodeSlash: bool)
    requires Bytes(a) && Bytes(b) && Encode(a, encodeSlash) == Encode(b, encodeSlash)
    ensures a == b
  {
    EncodeRoundTrip(a, encodeSlash);
    EncodeRoundTrip(b, encodeSlash);
  }

  // ------------------------------------------------------------------------ pairs

  datatype Pair = Pair(key: string, value: string)

  predicate PairBytes(p: Pair) { Bytes(p.key) && Bytes(p.value) }

  function EncodePair(p: Pair): string
    requires PairBytes(p)
  {
    Encode(p.key, true) + "=" + Encode(p.value, true)
  }

  function EncodeAll(ps: seq<Pair>): seq<string>
    requires forall p :: p in ps ==> PairBytes(p)
  {
    if ps == [] then [] else [EncodePair(ps[0])] + EncodeAll(ps[1..])
  }

  /** s before its first sep. */
  function Upto(s: string, sep: char): string {
    if s == "" || s[0] == sep then "" else [s[0]] + Upto(s[1..], sep)
  }

  lemma {:induction false} UptoStops(a: string, rest: string, sep: char)
    requires sep !in a && (rest == "" || rest[0] == sep)
    ensures Upto(a + rest, sep) == a
  {
    if a == "" {
      assert a + rest == rest;
    } else {
      assert (a + rest)[1..] == a[1..] + rest;
      UptoStops(a[1..], rest, sep);
    }
  }

  /** Two strings that agree up to where a separator starts are the same there,
      and after. */
  lemma SameHead(a: string, b: string, x: string, y: string, sep: char)
    requires sep !in a && sep !in b && a + x == b + y
    requires (x == "" || x[0] == sep) && (y == "" || y[0] == sep)
    ensures a == b && x == y
  {
    UptoStops(a, x, sep);
    UptoStops(b, y, sep);
    assert x == (a + x)[|a|..] && y == (b + y)[|b|..];
  }

  lemma SplitAtSep(a: string, x: string, b: string, y: string)
    requires '=' !in a && '=' !in b && a + "=" + x == b + "=" + y
    ensures a == b && x == y
  {
    assert a + ("=" + x) == a + "=" + x && b + ("=" + y) == b + "=" + y;
    SameHead(a, b, "=" + x, "=" + y, '=');
    assert x == ("=" + x)[1..] && y == ("=" + y)[1..];
  }

  lemma PairInjective(p: Pair, q: Pair)
    requires PairBytes(p) && PairBytes(q) && EncodePair(p) == EncodePair(q)
    ensures p == q
  {
    EncodeRoundTrip(p.key, true);
    EncodeRoundTrip(q.key, true);
    SplitAtSep(Encode(p.key, true), Encode(p.value, true), Encode(q.key, true), Encode(q.value, true));
    EncodeInjective(p.key, q.key, true);
    EncodeInjective(p.value, q.value, true);
  }

  lemma PairPlain(p: Pair)
    requires PairBytes(p)
    ensures EncodePair(p) != "" && '&' !in EncodePair(p)
  {
    EncodeRoundTrip(p.key, true);
    EncodeRoundTrip(p.value, true);
  }

  /** Encoding keeps how often each pair occurs. */
  lemma {:induction false} EncodeCounts(ps: seq<Pair>, p: Pair)
    requires PairBytes(p) && forall q :: q in ps ==> PairBytes(q)
    ensures multiset(EncodeAll(ps))[EncodePair(p)] == multiset(ps)[p]
  {
    if ps != [] {
      EncodeCounts(ps[1..], p);
      assert ps == [ps[0]] + ps[1..];
      if EncodePair(ps[0]) == EncodePair(p) { PairInjective(ps[0], p); }
    }
  }

  lemma {:induction false} EncodedHas(ps: seq<Pair>, e: string)
    requires forall q :: q in ps ==> PairBytes(q)
    ensures e in EncodeAll(ps) ==> exists q :: q in ps && EncodePair(q) == e
  {
    if ps != [] {
      EncodedHas(ps[1..], e);
      if e in EncodeAll(ps) && e != EncodePair(ps[0]) {
        assert e in EncodeAll(ps[1..]);
        var q :| q in ps[1..] && EncodePair(q) == e;
        assert q in ps;
      }
    }
  }

  /** The same pairs, in any order, encode to the same strings, in some order. */
  lemma SamePairsSameStrings(a: seq<Pair>, b: seq<Pair>)
    requires (forall q :: q in a ==> PairBytes(q)) && forall q :: q in b ==> PairBytes(q)
    ensures multiset(EncodeAll(a)) == multiset(EncodeAll(b)) <==> multiset(a) == multiset(b)
  {
    if multiset(a) == multiset(b) {
      forall e ensures multiset(EncodeAll(a))[e] == multiset(EncodeAll(b))[e] {
        EncodedHas(a, e);
        EncodedHas(b, e);
        InMultiset(EncodeAll(a), e);
        InMultiset(EncodeAll(b), e);
        if q :| q in a && EncodePair(q) == e {
          EncodeCounts(a, q);
          EncodeCounts(b, q);
        } else if q :| q in b && EncodePair(q) == e {
          EncodeCounts(a, q);
          EncodeCounts(b, q);
        }
      }
    }
    if multiset(EncodeAll(a)) == multiset(EncodeAll(b)) {
      forall p ensures multiset(a)[p] == multiset(b)[p] {
        if p in a || p in b {
          EncodeCounts(a, p);
          EncodeCounts(b, p);
        } else {
          assert p !in multiset(a) && p !in multiset(b);
        }
      }
    }
  }

  // ------------------------------------------------------------------- the string

  function Join(xs: seq<string>): string
    decreases 2 * |xs|
  {
    if xs == [] then "" else xs[0] + Tail(xs[1..])
  }

  /** What a join adds after the first string. */
  function Tail(xs: seq<string>): string
    decreases 2 * |xs| + 1
  {
    if xs == [] then "" else "&" + Join(xs)
  }

  /** A joined string falls apart in one way. */
  lemma {:induction false} JoinInjective(xs: seq<string>, ys: seq<string>)
    requires forall x :: x in xs + ys ==> x != "" && '&' !in x
    requires Join(xs) == Join(ys)
    ensures xs == ys
  {
    assert forall x :: x in xs || x in ys ==> x in xs + ys;
    if xs == [] || ys == [] {
      JoinNonempty(xs);
      JoinNonempty(ys);
    } else {
      assert xs[0] in xs + ys && ys[0] in xs + ys;
      SameHead(xs[0], ys[0], Tail(xs[1..]), Tail(ys[1..]), '&');
      TailInjective(xs[1..], ys[1..]);
      assert forall z :: z in xs[1..] + ys[1..] ==> z in xs + ys;
      JoinInjective(xs[1..], ys[1..]);
      assert xs == [xs[0]] + xs[1..] && ys == [ys[0]] + ys[1..];
    }
  }

  lemma TailInjective(xs: seq<string>, ys: seq<string>)
    requires Tail(xs) == Tail(ys)
    ensures Join(xs) == Join(ys) && (xs == [] <==> ys == [])
  {
    if xs != [] { assert Tail(xs)[1..] == Join(xs); }
    if ys != [] { assert Tail(ys)[1..] == Join(ys); }
  }

  lemma JoinNonempty(xs: seq<string>)
    requires forall x :: x in xs ==> x != ""
    ensures Join(xs) == "" <==> xs == []
  {
    if xs != [] { assert xs[0] in xs; }
  }

  /** A query: each key with its values. */
  type Query = map<string, seq<string>>

  predicate QueryBytes(q: Query) {
    forall k :: k in q ==> Bytes(k) && forall v :: v in q[k] ==> Bytes(v)
  }

  /** How often a query holds a pair. */
  function Count(q: Query, p: Pair): nat {
    if p.key in q then multiset(q[p.key])[p.value] else 0
  }

  /** ps is the query's pairs, in some order. */
  ghost predicate Lists(q: Query, ps: seq<Pair>) {
    forall p :: multiset(ps)[p] == Count(q, p)
  }

  function Canonical(ps: seq<Pair>): string
    requires forall p :: p in ps ==> PairBytes(p)
  {
    Join(Sort(EncodeAll(ps)))
  }

  lemma ListedBytes(q: Query, ps: seq<Pair>)
    requires QueryBytes(q) && Lists(q, ps)
    ensures forall p :: p in ps ==> PairBytes(p)
  {
    forall p | p in ps ensures PairBytes(p) {
      assert multiset(ps)[p] > 0;
      assert p.value in multiset(q[p.key]);
    }
  }

  /** The query's canonical string, whatever order its pairs are listed in. */
  ghost predicate IsCanonical(q: Query, s: string)
    requires QueryBytes(q)
  {
    forall ps :: Lists(q, ps) ==> (forall p :: p in ps ==> PairBytes(p)) && s == Canonical(ps)
  }

  lemma OrderDoesNotMatter(a: seq<Pair>, b: seq<Pair>)
    requires (forall p :: p in a ==> PairBytes(p)) && (forall p :: p in b ==> PairBytes(p)) && multiset(a) == multiset(b)
    ensures Canonical(a) == Canonical(b)
  {
    SamePairsSameStrings(a, b);
    SortSorts(EncodeAll(a));
    SortSorts(EncodeAll(b));
    SortedUnique(Sort(EncodeAll(a)), Sort(EncodeAll(b)));
  }

  /** canonicalQueryString: encode every pair, in the map's order, sort, join. */
  method CanonicalQueryString(q: Query) returns (s: string, ghost listed: seq<Pair>)
    requires QueryBytes(q)
    ensures IsCanonical(q, s) && Lists(q, listed)
  {
    var pairs: seq<string> := [];
    listed := [];
    var rest := q.Keys;
    while rest != {}
      invariant rest <= q.Keys
      invariant forall p :: multiset(listed)[p] == if p.key in rest then 0 else Count(q, p)
      invariant forall p :: p in listed ==> PairBytes(p) && p.key !in rest
      invariant pairs == EncodeAll(listed)
      decreases rest
    {
      var key :| key in rest;
      rest := rest - {key};
      pairs, listed := AddValues(pairs, listed, key, q[key]);
    }
    pairs := Sort(pairs);
    s := JoinPairs(pairs);
    AnyListing(q, listed);
  }

  /** One listing's string is every listing's. */
  lemma AnyListing(q: Query, listed: seq<Pair>)
    requires QueryBytes(q) && Lists(q, listed) && forall p :: p in listed ==> PairBytes(p)
    ensures IsCanonical(q, Canonical(listed))
  {
    forall ps | Lists(q, ps) ensures (forall p :: p in ps ==> PairBytes(p)) && Canonical(listed) == Canonical(ps) {
      ListedBytes(q, ps);
      assert forall p :: multiset(ps)[p] == multiset(listed)[p];
      assert multiset(ps) == multiset(listed);
      OrderDoesNotMatter(ps, listed);
    }
  }

  /** The inner loop: one key's values. */
  method AddValues(pairs: seq<string>, ghost listed: seq<Pair>, key: string, values: seq<string>)
    returns (out: seq<string>, ghost grown: seq<Pair>)
    requires Bytes(key) && forall v :: v in values ==> Bytes(v)
    requires (forall p :: p in listed ==> PairBytes(p)) && pairs == EncodeAll(listed)
    requires forall p :: p in listed ==> p.key != key
    ensures (forall p :: p in grown ==> PairBytes(p)) && out == EncodeAll(grown)
    ensures forall p :: multiset(grown)[p] == multiset(listed)[p] + if p.key == key then multiset(values)[p.value] else 0
    ensures forall p :: p in grown ==> p in listed || p.key == key
  {
    var ek := AwsUriEncode(key, true);
    out, grown := pairs, listed;
    for i := 0 to |values|
      invariant (forall p :: p in grown ==> PairBytes(p)) && out == EncodeAll(grown)
      invariant grown == listed + PairsOf(key, values[..i])
    {
      var ev := AwsUriEncode(values[i], true);
      PairsGrow(listed, key, values, i);
      EncodeAppend(grown, Pair(key, values[i]));
      out := out + [ek + "=" + ev];
      grown := grown + [Pair(key, values[i])];
    }
    assert values[..|values|] == values;
    forall p ensures multiset(PairsOf(key, values))[p] == if p.key == key then multiset(values)[p.value] else 0 {
      PairsCount(key, values, p);
    }
  }

  lemma PairsGrow(listed: seq<Pair>, key: string, values: seq<string>, i: nat)
    requires i < |values|
    ensures listed + PairsOf(key, values[..i + 1]) == (listed + PairsOf(key, values[..i])) + [Pair(key, values[i])]
  {
    assert PairsOf(key, values[..i + 1]) == PairsOf(key, values[..i]) + [Pair(key, values[i])];
  }

  function PairsOf(key: string, values: seq<string>): seq<Pair> {
    seq(|values|, i requires 0 <= i < |values| => Pair(key, values[i]))
  }

  lemma {:induction false} PairsCount(key: string, values: seq<string>, p: Pair)
    ensures multiset(PairsOf(key, values))[p] == if p.key == key then multiset(values)[p.value] else 0
  {
    if values != [] {
      var init, last := values[..|values| - 1], values[|values| - 1];
      assert values == init + [last];
      assert PairsOf(key, values) == PairsOf(key, init) + [Pair(key, last)];
      PairsCount(key, init, p);
    }
  }

  lemma {:induction false} EncodeAppend(ps: seq<Pair>, p: Pair)
    requires PairBytes(p) && forall q :: q in ps ==> PairBytes(q)
    ensures EncodeAll(ps + [p]) == EncodeAll(ps) + [EncodePair(p)]
  {
    if ps != [] {
      assert (ps + [p])[1..] == ps[1..] + [p];
      EncodeAppend(ps[1..], p);
    }
  }

  method JoinPairs(xs: seq<string>) returns (s: string)
    ensures s == Join(xs)
  {
    if xs == [] { return ""; }
    s := xs[|xs| - 1];
    var i := |xs| - 1;
    while i > 0
      invariant 0 <= i < |xs| && s == Join(xs[i..])
    {
      i := i - 1;
      assert xs[i..][1..] == xs[i + 1..];
      s := xs[i] + ("&" + s);
    }
    assert xs[0..] == xs;
  }

  // ----------------------------------------------------------------- its form

  /** s cut at every sep. */
  function Split(s: string, sep: char): seq<string> {
    if s == "" then [""]
    else
      var rest := Split(s[1..], sep);
      if s[0] == sep then [""] + rest else [[s[0]] + rest[0]] + rest[1..]
  }

  lemma {:induction false} SplitHead(x: string, rest: string, sep: char)
    requires sep !in x
    ensures Split(x, sep) == [x]
    ensures Split(x + [sep] + rest, sep) == [x] + Split(rest, sep)
  {
    if x == "" {
      assert x + [sep] + rest == [sep] + rest;
    } else {
      SplitHead(x[1..], rest, sep);
      assert (x + [sep] + rest)[1..] == x[1..] + [sep] + rest;
      assert x == [x[0]] + x[1..];
    }
  }

  lemma {:induction false} SplitJoin(xs: seq<string>)
    requires xs != [] && forall x :: x in xs ==> '&' !in x
    ensures Split(Join(xs), '&') == xs
  {
    assert xs == [xs[0]] + xs[1..];
    if |xs| == 1 {
      SplitHead(xs[0], "", '&');
      assert Tail(xs[1..]) == "" && Join(xs) == xs[0];
      assert xs == [xs[0]];
    } else {
      SplitHead(xs[0], Join(xs[1..]), '&');
      SplitJoin(xs[1..]);
      assert Join(xs) == xs[0] + "&" + Join(xs[1..]);
    }
  }

  /** Cut at its ampersands, the string is in byte order a key and a value,
      encoded, around an equals sign, for every pair of the query as often as it
      holds it, and nothing else. */
  lemma CanonicalForm(q: Query, s: string, ps: seq<Pair>)
    requires QueryBytes(q) && IsCanonical(q, s) && Lists(q, ps)
    ensures s == "" <==> ps == []
    ensures ps != [] ==> Sorted(Split(s, '&'))
    ensures ps != [] ==> forall p :: PairBytes(p) ==>
      multiset(Split(s, '&'))[Encode(p.key, true) + "=" + Encode(p.value, true)] == Count(q, p)
    ensures ps != [] ==> forall x :: x in Split(s, '&') ==>
      exists p :: p in ps && PairBytes(p) && x == Encode(p.key, true) + "=" + Encode(p.value, true)
  {
    var xs := Sort(EncodeAll(ps));
    SortedPlain(ps);
    JoinNonempty(xs);
    SortSorts(EncodeAll(ps));
    SameSize(ps);
    if ps != [] {
      SplitJoin(xs);
      forall p | PairBytes(p) ensures multiset(xs)[EncodePair(p)] == Count(q, p) { EncodeCounts(ps, p); }
      forall x | x in xs ensures exists p :: p in ps && EncodePair(p) == x {
        InMultiset(xs, x);
        InMultiset(EncodeAll(ps), x);
        EncodedHas(ps, x);
      }
    }
  }

  lemma SameSize(ps: seq<Pair>)
    requires forall p :: p in ps ==> PairBytes(p)
    ensures Sort(EncodeAll(ps)) == [] <==> ps == []
  {
    if ps != [] { assert EncodePair(ps[0]) in multiset(EncodeAll(ps)); }
    if Sort(EncodeAll(ps)) == [] { assert multiset(EncodeAll(ps)) == multiset{}; }
  }

  /** A faithful normal form: two queries have the same canonical string exactly
      when they hold the same pairs as often. */
  lemma CanonicalIsFaithful(q: Query, r: Query, s: string, t: string, ps: seq<Pair>, qs: seq<Pair>)
    requires QueryBytes(q) && QueryBytes(r)
    requires IsCanonical(q, s) && Lists(q, ps) && IsCanonical(r, t) && Lists(r, qs)
    ensures s == t <==> forall p :: Count(q, p) == Count(r, p)
  {
    ListedBytes(q, ps);
    ListedBytes(r, qs);
    if s == t { SameStringSamePairs(ps, qs); }
    SameCounts(q, r, ps, qs);
    if multiset(ps) == multiset(qs) { OrderDoesNotMatter(ps, qs); }
  }

  lemma SameCounts(q: Query, r: Query, ps: seq<Pair>, qs: seq<Pair>)
    requires Lists(q, ps) && Lists(r, qs)
    ensures multiset(ps) == multiset(qs) <==> forall p :: Count(q, p) == Count(r, p)
  {
    forall p ensures Count(q, p) == multiset(ps)[p] && Count(r, p) == multiset(qs)[p] {}
  }

  lemma SameStringSamePairs(ps: seq<Pair>, qs: seq<Pair>)
    requires (forall p :: p in ps ==> PairBytes(p)) && (forall p :: p in qs ==> PairBytes(p))
    requires Canonical(ps) == Canonical(qs)
    ensures multiset(ps) == multiset(qs)
  {
    SortedPlain(ps);
    SortedPlain(qs);
    JoinInjective(Sort(EncodeAll(ps)), Sort(EncodeAll(qs)));
    SamePairsSameStrings(ps, qs);
  }

  lemma SortedPlain(ps: seq<Pair>)
    requires forall p :: p in ps ==> PairBytes(p)
    ensures forall x :: x in Sort(EncodeAll(ps)) ==> x != "" && '&' !in x
  {
    forall x | x in Sort(EncodeAll(ps)) ensures x != "" && '&' !in x {
      InMultiset(Sort(EncodeAll(ps)), x);
      InMultiset(EncodeAll(ps), x);
      EncodedHas(ps, x);
      var q :| q in ps && EncodePair(q) == x;
      PairPlain(q);
    }
  }
}
