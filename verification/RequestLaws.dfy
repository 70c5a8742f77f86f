/** What a request is and needs, read off its parts: the operation its method,
    path and query select, the headers it is decided from, the permissions it
    needs, and when it is refused (pkg/rpc/service/auth/operation.go). */
module RequestLaws {
  import opened Common
  import opened Permissions
  import opened CanonicalQuery
  import opened Operations

  // ---------------------------------------------------------------- cutting

  /** sep is in s at i. */
  predicate At(s: string, i: nat, sep: string) {
    i + |sep| <= |s| && s[i..i + |sep|] == sep
  }

  /** Cutting finds the first occurrence, or there is none. */
  lemma {:induction false} CutIsFirst(s: string, sep: string)
    requires sep != ""
    ensures match Cut(s, sep)
      case None => forall i: nat :: !At(s, i, sep)
      case Some(cut) => s == cut.0 + sep + cut.1 && forall i: nat :: i < |cut.0| ==> !At(s, i, sep)
    decreases |s|
  {
    if |s| >= |sep| && s[..|sep|] != sep {
      CutIsFirst(s[1..], sep);
      assert s == [s[0]] + s[1..];
      forall i: nat | i > 0 ensures At(s, i, sep) <==> At(s[1..], i - 1, sep) { AtLater(s, i, sep); }
      if Cut(s[1..], sep).Some? {
        forall i: nat | i < |Cut(s, sep).value.0| ensures !At(s, i, sep) {
          if i > 0 { assert !At(s[1..], i - 1, sep); }
        }
      } else {
        forall i: nat ensures !At(s, i, sep) {
          if i > 0 { assert !At(s[1..], i - 1, sep); }
        }
      }
    }
  }

  lemma AtLater(s: string, i: nat, sep: string)
    requires s != "" && i > 0
    ensures At(s, i, sep) <==> At(s[1..], i - 1, sep)
  {
    if i + |sep| <= |s| { assert s[i..i + |sep|] == s[1..][i - 1..i - 1 + |sep|]; }
  }

  lemma CutUnique(s: string, sep: string, a: string, b: string)
    requires sep != "" && s == a + sep + b && forall i: nat :: i < |a| ==> !At(s, i, sep)
    ensures Cut(s, sep) == Some((a, b))
  {
    CutIsFirst(s, sep);
    assert At(s, |a|, sep);
    var cut := Cut(s, sep).value;
    assert At(s, |cut.0|, sep);
    assert |cut.0| == |a|;
    assert a == s[..|a|] && cut.0 == s[..|a|];
    assert b == s[|a| + |sep|..] && cut.1 == s[|a| + |sep|..];
  }

  // --------------------------------------------------- a header's first value

  ghost predicate Blank(s: string) {
    forall c :: c in s ==> c in " \t\n\U{0B}\U{0C}\r"
  }

  /** v is w among blanks, then perhaps a comma and more. */
  ghost predicate Parts(v: string, before: string, w: string, after: string, more: string) {
    && v == before + w + after + more
    && Blank(before) && Blank(after)
    && ',' !in before + w + after && (more == "" || more[0] == ',')
    && (w != "" ==> !Blank([w[0]]) && !Blank([w[|w| - 1]]))
  }

  ghost predicate HasFirst(v: string, w: string) {
    exists before, after, more :: Parts(v, before, w, after, more)
  }

  /** w is v's first value; a quantifier, so that a proof that only passes it on
      does not take it apart. */
  ghost predicate FirstIs(v: string, w: string) {
    forall u :: u == v ==> HasFirst(u, w)
  }

  lemma {:induction false} TrimLeftCuts(s: string) returns (before: string)
    ensures s == before + TrimLeft(s) && Blank(before)
    ensures TrimLeft(s) != "" ==> !Space(TrimLeft(s)[0])
  {
    before := "";
    if s != "" && Space(s[0]) {
      var rest := TrimLeftCuts(s[1..]);
      before := [s[0]] + rest;
    }
  }

  lemma {:induction false} TrimRightCuts(s: string) returns (after: string)
    ensures s == TrimRight(s) + after && Blank(after)
    ensures TrimRight(s) != "" ==> !Space(TrimRight(s)[|TrimRight(s)| - 1]) && TrimRight(s)[0] == s[0]
  {
    after := "";
    if s != "" && Space(s[|s| - 1]) {
      var rest := TrimRightCuts(s[..|s| - 1]);
      after := rest + [s[|s| - 1]];
    }
  }

  lemma {:induction false} TrimLeftOff(before: string, s: string)
    requires Blank(before) && (s == "" || !Space(s[0]))
    ensures TrimLeft(before + s) == s
  {
    if before == "" {
      assert before + s == s;
    } else {
      assert before[0] in before;
      assert (before + s)[1..] == before[1..] + s;
      TrimLeftOff(before[1..], s);
    }
  }

  lemma {:induction false} TrimRightOff(s: string, after: string)
    requires Blank(after) && (s == "" || !Space(s[|s| - 1]))
    ensures TrimRight(s + after) == s
    decreases |after|
  {
    if after == "" {
      assert s + after == s;
    } else {
      var n := |after| - 1;
      assert after[n] in after;
      assert (s + after)[..|s + after| - 1] == s + after[..n];
      TrimRightOff(s, after[..n]);
    }
  }

  /** Before the first comma, or all of it. */
  lemma HeadOf(v: string, head: string, more: string)
    requires v == head + more && ',' !in head && (more == "" || more[0] == ',')
    ensures (if Cut(v, ",").None? then v else Cut(v, ",").value.0) == head
  {
    forall i: nat | i < |head| ensures !At(v, i, ",") { assert v[i] == head[i]; }
    if more == "" {
      CutIsFirst(v, ",");
      assert Cut(v, ",").Some? ==> At(v, |Cut(v, ",").value.0|, ",");
    } else {
      assert more == "," + more[1..];
      CutUnique(v, ",", head, more[1..]);
    }
  }

  /** The value decided on is the one before the first comma, without the blanks
      around it. */
  lemma FirstMeans(v: string, w: string)
    ensures First(v) == w <==> FirstIs(v, w)
  {
    if First(v) == w { FirstHas(v); }
    if FirstIs(v, w) {
      assert HasFirst(v, w);
      var before, after, more :| Parts(v, before, w, after, more);
      PartsFirst(v, before, w, after, more);
    }
  }

  lemma PartsFirst(v: string, before: string, w: string, after: string, more: string)
    requires Parts(v, before, w, after, more)
    ensures First(v) == w
  {
    var head := before + w + after;
    HeadOf(v, head, more);
    TrimParts(before, w, after);
  }

  lemma TrimParts(before: string, w: string, after: string)
    requires Blank(before) && Blank(after) && (w != "" ==> !Space(w[0]) && !Space(w[|w| - 1]))
    ensures TrimRight(TrimLeft(before + w + after)) == w
  {
    if w == "" {
      TrimLeftOff(before + after, "");
      assert before + w + after == (before + after) + "";
    } else {
      assert before + w + after == before + (w + after);
      TrimLeftOff(before, w + after);
      TrimRightOff(w, after);
    }
  }

  lemma FirstHas(v: string)
    ensures FirstIs(v, First(v))
  {
    CutIsFirst(v, ",");
    var cut := Cut(v, ",");
    if cut.None? {
      NoComma(v, v, "");
      TrimmedIs(v, v, "");
    } else {
      var more := "," + cut.value.1;
      assert v == cut.value.0 + more;
      NoComma(v, cut.value.0, more);
      TrimmedIs(v, cut.value.0, more);
    }
  }

  lemma TrimmedIs(v: string, head: string, more: string)
    requires v == head + more && ',' !in head && (more == "" || more[0] == ',')
    ensures FirstIs(v, TrimRight(TrimLeft(head)))
  {
    var before := TrimLeftCuts(head);
    var after := TrimRightCuts(TrimLeft(head));
    MakeParts(v, head, more, before, TrimLeft(head), TrimRight(TrimLeft(head)), after);
  }

  lemma MakeParts(v: string, head: string, more: string, before: string, left: string, w: string, after: string)
    requires v == head + more && ',' !in head && (more == "" || more[0] == ',')
    requires head == before + left && left == w + after && Blank(before) && Blank(after)
    requires w != "" ==> !Space(left[0]) && !Space(w[|w| - 1])
    ensures Parts(v, before, w, after, more)
  {
    assert before + w + after == head;
    assert w != "" ==> w[0] == left[0];
  }


  lemma NoComma(v: string, head: string, more: string)
    requires v == head + more && forall i: nat :: i < |head| ==> !At(v, i, ",")
    ensures ',' !in head
  {
    forall c | c in head ensures c != ',' {
      var i: nat :| i < |head| && head[i] == c;
      assert !At(v, i, ",") && v[i] == c && v[i..i + 1] == [c];
    }
  }

  /** The header asks for it: its first value is "true", in any case. */
  ghost predicate SaysTrue(v: string) {
    exists w :: FirstIs(v, w) && |w| == 4 && w[0] in "tT" && w[1] in "rR" && w[2] in "uU" && w[3] in "eE"
  }

  lemma FlagMeans(headers: map<string, string>, name: string)
    ensures Flagged(headers, name) <==> name in headers && headers[name] != "" && SaysTrue(headers[name])
  {
    if name in headers {
      FirstHas(headers[name]);
      var w := First(headers[name]);
      LowerTrue(w);
      if SaysTrue(headers[name]) {
        var x :| FirstIs(headers[name], x) && |x| == 4 && x[0] in "tT" && x[1] in "rR" && x[2] in "uU" && x[3] in "eE";
        FirstMeans(headers[name], x);
      }
    }
  }

  lemma LowerTrue(w: string)
    ensures Lower(w) == "true" <==> |w| == 4 && w[0] in "tT" && w[1] in "rR" && w[2] in "uU" && w[3] in "eE"
  {
    if |w| == 4 {
      assert Lower(w) == [Lower(w)[0], Lower(w)[1], Lower(w)[2], Lower(w)[3]];
      forall i | 0 <= i < 4 ensures Lower(w)[i] == (if 'A' <= w[i] <= 'Z' then (w[i] as int + 32) as char else w[i]) {}
    }
  }

  // ------------------------------------------------------------- the copy source

  /** p stands for c: c itself, a plus for a space, or two hex digits of c's
      code. */
  ghost predicate StandsFor(p: string, c: char) {
    || (|p| == 1 && (if p[0] == '+' then c == ' ' else p[0] != '%' && c == p[0]))
    || (|p| == 3 && p[0] == '%' && exists hi, lo :: HexIs(p[1], hi) && HexIs(p[2], lo) && c as int == 16 * hi + lo)
  }

  ghost predicate HexIs(c: char, d: int) {
    0 <= d < 16 && (c == "0123456789abcdef"[d] || c == "0123456789ABCDEF"[d])
  }

  lemma HexMeans(c: char, d: int)
    ensures HexIs(c, d) <==> HexDigit(c) == Some(d)
  {
    if 0 <= d < 16 {
      assert d == 0 || d == 1 || d == 2 || d == 3 || d == 4 || d == 5 || d == 6 || d == 7
        || d == 8 || d == 9 || d == 10 || d == 11 || d == 12 || d == 13 || d == 14 || d == 15;
    }
  }

  /** s is t written out, each character by a piece that stands for it. */
  ghost predicate Spells(s: string, t: string) {
    exists pieces :: SpelledBy(pieces, t) && s == Concat(pieces)
  }

  ghost predicate SpelledBy(pieces: seq<string>, t: string) {
    |pieces| == |t| && forall i :: 0 <= i < |t| ==> StandsFor(pieces[i], t[i])
  }

  lemma UnescapePiece(p: string, c: char, rest: string)
    requires StandsFor(p, c)
    ensures QueryUnescape(p + rest) == (if QueryUnescape(rest).None? then None else Some([c] + QueryUnescape(rest).value))
  {
    var s := p + rest;
    assert s[|p|..] == rest && s[0] == p[0];
    if |p| == 3 {
      assert s[1] == p[1] && s[2] == p[2];
      var hi, lo :| HexIs(p[1], hi) && HexIs(p[2], lo) && c as int == 16 * hi + lo;
      HexMeans(p[1], hi);
      HexMeans(p[2], lo);
      UnescapeByte(s, hi, lo);
    }
  }

  lemma UnescapeByte(s: string, hi: int, lo: int)
    requires |s| >= 3 && s[0] == '%' && HexDigit(s[1]) == Some(hi) && HexDigit(s[2]) == Some(lo)
    ensures QueryUnescape(s) ==
      if QueryUnescape(s[3..]).None? then None else Some([(16 * hi + lo) as char] + QueryUnescape(s[3..]).value)
  {}


  lemma {:induction false} UnescapeSpelled(pieces: seq<string>, t: string)
    requires SpelledBy(pieces, t)
    ensures QueryUnescape(Concat(pieces)) == Some(t)
  {
    if pieces != [] {
      UnescapeSpelled(pieces[1..], t[1..]);
      UnescapePiece(pieces[0], t[0], Concat(pieces[1..]));
      assert t == [t[0]] + t[1..];
    }
  }

  lemma {:induction false} SpelledOut(s: string) returns (pieces: seq<string>)
    requires QueryUnescape(s).Some?
    ensures SpelledBy(pieces, QueryUnescape(s).value) && s == Concat(pieces)
    decreases |s|
  {
    pieces := [];
    if s != "" {
      var n := if s[0] == '%' then 3 else 1;
      var rest := SpelledOut(s[n..]);
      if n == 3 {
        HexMeans(s[1], HexDigit(s[1]).value);
        HexMeans(s[2], HexDigit(s[2]).value);
      }
      pieces := [s[..n]] + rest;
      assert pieces[1..] == rest && s == s[..n] + s[n..];
    }
  }

  /** Decoding is exact: s decodes to t if and only if it spells t. */
  lemma UnescapeMeans(s: string, t: string)
    ensures QueryUnescape(s) == Some(t) <==> Spells(s, t)
  {
    if QueryUnescape(s) == Some(t) { var pieces := SpelledOut(s); }
    if Spells(s, t) {
      var pieces :| SpelledBy(pieces, t) && s == Concat(pieces);
      UnescapeSpelled(pieces, t);
    }
  }

  /** t is the source's bucket, a slash and its key, with its version after the
      first suffix that names one. */
  ghost predicate SourceText(t: string, src: Source) {
    && '/' !in src.bucket
    && var path := src.bucket + "/" + src.key;
       || (t == path + "?versionId=" + src.version && forall i: nat :: i < |path| ==> !At(t, i, "?versionId="))
       || (t == path && src.version == "" && forall i: nat :: !At(t, i, "?versionId="))
  }

  lemma PathMeans(path: string, bucket: string, key: string)
    ensures Cut(path, "/") == Some((bucket, key)) <==> '/' !in bucket && path == bucket + "/" + key
  {
    if '/' !in bucket && path == bucket + "/" + key {
      forall i: nat | i < |bucket| ensures !At(path, i, "/") { assert path[i] == bucket[i]; }
      CutUnique(path, "/", bucket, key);
    }
    if Cut(path, "/") == Some((bucket, key)) {
      CutIsFirst(path, "/");
      forall c | c in bucket ensures c != '/' {
        var i: nat :| i < |bucket| && bucket[i] == c;
        assert !At(path, i, "/") && path[i] == c && path[i..i + 1] == [c];
      }
    }
  }

  /** A copy source is what its value spells, after an optional slash: bucket and
      key at the first slash, and a version, if a suffix names one. */
  lemma CopySourceMeans(v: string, src: Source)
    ensures ParseCopySource(v) == Some(src) <==>
      exists t :: Spells(if v != "" && v[0] == '/' then v[1..] else v, t) && SourceText(t, src)
  {
    var s := if v != "" && v[0] == '/' then v[1..] else v;
    if t :| Spells(s, t) && SourceText(t, src) {
      UnescapeMeans(s, t);
      SourceTextMeans(t, src);
    }
    if ParseCopySource(v) == Some(src) {
      var t := QueryUnescape(s).value;
      UnescapeMeans(s, t);
      SourceTextMeans(t, src);
    }
  }

  lemma SourceTextMeans(t: string, src: Source)
    ensures FromText(t) == Some(src) <==> SourceText(t, src)
  {
    var path := src.bucket + "/" + src.key;
    CutIsFirst(t, "?versionId=");
    PathMeans(path, src.bucket, src.key);
    if FromText(t) == Some(src) {
      var versioned := Cut(t, "?versionId=");
      PathMeans(if versioned.None? then t else versioned.value.0, src.bucket, src.key);
    }
    if SourceText(t, src) {
      if t == path + "?versionId=" + src.version && forall i: nat :: i < |path| ==> !At(t, i, "?versionId=") {
        CutUnique(t, "?versionId=", path, src.version);
      } else if Cut(t, "?versionId=").Some? {
        assert At(t, |Cut(t, "?versionId=").value.0|, "?versionId=");
      }
    }
  }

  /** What a client writes comes back: the percent-encoding of a source, with or
      without the slash in front, names that source. */
  lemma EncodedSource(src: Source, v: string)
    requires src.bucket != "" && '/' !in src.bucket
    requires var t := src.bucket + "/" + src.key + "?versionId=" + src.version;
      && Bytes(t) && (forall i: nat :: i < |src.bucket| + 1 + |src.key| ==> !At(t, i, "?versionId="))
      && (v == Encode(t, false) || v == "/" + Encode(t, false))
    ensures ParseCopySource(v) == Some(src)
  {
    var t := src.bucket + "/" + src.key + "?versionId=" + src.version;
    var pieces := EncodedPieces(t, false);
    forall i | 0 <= i < |t| ensures StandsFor(pieces[i], t[i]) { EncodedStandsFor(pieces[i], t[i], false); }
    assert Spells(Encode(t, false), t);
    assert pieces[0] != "" && pieces[0][0] != '/' && Encode(t, false)[0] == pieces[0][0] by { assert t[0] == src.bucket[0] && t[0] in src.bucket; }
    assert SourceText(t, src);
    assert ("/" + Encode(t, false))[1..] == Encode(t, false);
    CopySourceMeans(v, src);
  }

  lemma EncodedStandsFor(p: string, c: char, encodeSlash: bool)
    requires PieceOf(p, c, encodeSlash)
    ensures StandsFor(p, c)
  {
    if |p| == 3 {
      assert HexIs(p[1], c as int / 16) && HexIs(p[2], c as int % 16);
    }
  }

  // ------------------------------------------------ what an operation is decided from

  /** The header is sent with a value. */
  ghost predicate Sent(headers: map<string, string>, name: string) {
    name in headers && headers[name] != ""
  }

  /** The headers that decide something about the operation: a copy's source, the
      locks and tags of a write, the bypass of a delete, the lock of a new
      bucket. */
  ghost predicate Decides(op: Operation, headers: map<string, string>, h: string) {
    && Sent(headers, h)
    && match op
       case PutObject | CreateMultipartUpload =>
         h == "x-amz-object-lock-mode" || h == "x-amz-object-lock-retain-until-date" || h == "x-amz-object-lock-legal-hold" || h == "x-amz-tagging"
       case CopyObject =>
         || h == "x-amz-copy-source"
         || h == "x-amz-object-lock-mode" || h == "x-amz-object-lock-retain-until-date" || h == "x-amz-object-lock-legal-hold"
         || ((h == "x-amz-tagging-directive" || h == "x-amz-tagging") && ReplacesTags(headers))
       case UploadPartCopy => h == "x-amz-copy-source"
       case DeleteObject | DeleteObjectVersion | DeleteObjects | PutObjectRetention =>
         h == "x-amz-bypass-governance-retention" && SaysTrue(headers[h])
       case CreateBucket => h == "x-amz-bucket-object-lock-enabled" && SaysTrue(headers[h])
       case _ => false
  }

  ghost predicate ReplacesTags(headers: map<string, string>) {
    Sent(headers, "x-amz-tagging-directive") && FirstIs(headers["x-amz-tagging-directive"], "REPLACE")
  }

  /** The permissions its headers put on it. */
  ghost predicate HeadersAsk(op: Operation, headers: map<string, string>, p: string) {
    match op
    case PutObject | CreateMultipartUpload => LocksAsk(headers, p) || (p == "s3:PutObjectTagging" && Sent(headers, "x-amz-tagging"))
    case CopyObject => LocksAsk(headers, p) || (p == "s3:PutObjectTagging" && ReplacesTags(headers))
    case DeleteObject | DeleteObjectVersion | DeleteObjects | PutObjectRetention =>
      p == "s3:BypassGovernanceRetention"
      && Sent(headers, "x-amz-bypass-governance-retention") && SaysTrue(headers["x-amz-bypass-governance-retention"])
    case CreateBucket =>
      (p == "s3:PutBucketVersioning" || p == "s3:PutBucketObjectLockConfiguration")
      && Sent(headers, "x-amz-bucket-object-lock-enabled") && SaysTrue(headers["x-amz-bucket-object-lock-enabled"])
    case _ => false
  }

  ghost predicate LocksAsk(headers: map<string, string>, p: string) {
    || (p == "s3:PutObjectRetention" && (Sent(headers, "x-amz-object-lock-mode") || Sent(headers, "x-amz-object-lock-retain-until-date")))
    || (p == "s3:PutObjectLegalHold" && Sent(headers, "x-amz-object-lock-legal-hold"))
  }

  lemma NeedsMean(op: Operation, headers: map<string, string>, p: string, h: string)
    ensures p in AllPermissions(Needs(op, headers)) <==> HeadersAsk(op, headers, p)
    ensures h in NeededHeaders(Needs(op, headers)) <==> h != COPY_SOURCE && Decides(op, headers, h)
  {
    NeededHeadersHas(Needs(op, headers), h);
    if op == PutObject || op == CreateMultipartUpload {
      WriteNeeds(headers, p, h);
    } else if op == CopyObject {
      CopyNeeds(headers, p, h);
    } else if op == DeleteObject || op == DeleteObjectVersion || op == DeleteObjects || op == PutObjectRetention {
      BypassNeeds(op, headers, p, h);
    } else if op == CreateBucket {
      LockedNeeds(headers, p, h);
    }
  }

  lemma BypassNeeds(op: Operation, headers: map<string, string>, p: string, h: string)
    requires op == DeleteObject || op == DeleteObjectVersion || op == DeleteObjects || op == PutObjectRetention
    ensures p in AllPermissions(Needs(op, headers)) <==> HeadersAsk(op, headers, p)
    ensures (exists n :: n in Needs(op, headers) && n.header == h) <==> h != COPY_SOURCE && Decides(op, headers, h)
  {
    DeletesAlike(op, headers, p, h);
    DeleteNeeds(headers, p, h);
  }

  lemma DeletesAlike(op: Operation, headers: map<string, string>, p: string, h: string)
    requires op == DeleteObject || op == DeleteObjectVersion || op == DeleteObjects || op == PutObjectRetention
    ensures Needs(op, headers) == Needs(DeleteObject, headers) && HeadersAsk(op, headers, p) == HeadersAsk(DeleteObject, headers, p)
    ensures Decides(op, headers, h) == Decides(DeleteObject, headers, h)
  {}

  lemma DeleteNeeds(headers: map<string, string>, p: string, h: string)
    ensures p in AllPermissions(Needs(DeleteObject, headers)) <==> HeadersAsk(DeleteObject, headers, p)
    ensures (exists n :: n in Needs(DeleteObject, headers) && n.header == h) <==> h != COPY_SOURCE && Decides(DeleteObject, headers, h)
  {
    DeleteFlag(headers);
    FlagNeeds(DeleteObject, headers, BYPASS, ["s3:BypassGovernanceRetention"], p, h);
    FlagAsks(headers, p);
    FlagDecides(headers, h);
  }

  lemma DeleteFlag(headers: map<string, string>)
    ensures Needs(DeleteObject, headers) == If(Flagged(headers, BYPASS), BYPASS, ["s3:BypassGovernanceRetention"])
  {}

  lemma FlagAsks(headers: map<string, string>, p: string)
    ensures HeadersAsk(DeleteObject, headers, p) <==>
      Sent(headers, BYPASS) && SaysTrue(headers[BYPASS]) && p in ["s3:BypassGovernanceRetention"]
  {}




  lemma FlagDecides(headers: map<string, string>, h: string)
    ensures h != COPY_SOURCE && Decides(DeleteObject, headers, h) <==> h == BYPASS && Sent(headers, BYPASS) && SaysTrue(headers[BYPASS])
  {
    NotTheSource();
  }

  lemma NotTheSource()
    ensures BYPASS != COPY_SOURCE && LOCK_ENABLED != COPY_SOURCE
  {
    assert BYPASS[6] == 'b' && LOCK_ENABLED[6] == 'b' && COPY_SOURCE[6] == 'c';
  }

  lemma LockedNeeds(headers: map<string, string>, p: string, h: string)
    ensures p in AllPermissions(Needs(CreateBucket, headers)) <==> HeadersAsk(CreateBucket, headers, p)
    ensures (exists n :: n in Needs(CreateBucket, headers) && n.header == h) <==> h != COPY_SOURCE && Decides(CreateBucket, headers, h)
  {
    NotTheSource();
    FlagNeeds(CreateBucket, headers, LOCK_ENABLED, ["s3:PutBucketVersioning", "s3:PutBucketObjectLockConfiguration"], p, h);
  }

  lemma FlagNeeds(op: Operation, headers: map<string, string>, flag: string, perms: seq<string>, p: string, h: string)
    requires Needs(op, headers) == If(Flagged(headers, flag), flag, perms)
    ensures p in AllPermissions(Needs(op, headers)) <==> Sent(headers, flag) && SaysTrue(headers[flag]) && p in perms
    ensures (exists n :: n in Needs(op, headers) && n.header == h) <==> h == flag && Sent(headers, flag) && SaysTrue(headers[flag])
  {
    FlagMeans(headers, flag);
    IfMeans(Flagged(headers, flag), flag, perms, p, h);
  }

  lemma WriteNeeds(headers: map<string, string>, p: string, h: string)
    ensures p in AllPermissions(Needs(PutObject, headers)) <==> HeadersAsk(PutObject, headers, p)
    ensures (exists n :: n in Needs(PutObject, headers) && n.header == h) <==> h != COPY_SOURCE && Decides(PutObject, headers, h)
  {
    var tags := If(HeaderValue(headers, TAGGING).Some?, TAGGING, ["s3:PutObjectTagging"]);
    IfMeans(HeaderValue(headers, TAGGING).Some?, TAGGING, ["s3:PutObjectTagging"], p, h);
    LocksMean(headers, tags, p, h);
  }

  lemma CopyNeeds(headers: map<string, string>, p: string, h: string)
    ensures p in AllPermissions(Needs(CopyObject, headers)) <==> HeadersAsk(CopyObject, headers, p)
    ensures (exists n :: n in Needs(CopyObject, headers) && n.header == h) <==> h != COPY_SOURCE && Decides(CopyObject, headers, h)
  {
    var directive := If(Replaces(headers), TAGGING_DIRECTIVE, ["s3:PutObjectTagging"]);
    var tags := If(Replaces(headers) && HeaderValue(headers, TAGGING).Some?, TAGGING, []);
    ReplacesMeans(headers);
    IfMeans(Replaces(headers), TAGGING_DIRECTIVE, ["s3:PutObjectTagging"], p, h);
    IfMeans(Replaces(headers) && HeaderValue(headers, TAGGING).Some?, TAGGING, [], p, h);
    BothHave(directive, tags, p, h);
    assert Needs(CopyObject, headers) == LockNeeds(headers) + (directive + tags);
    LocksMean(headers, directive + tags, p, h);
  }

  lemma IfMeans(present: bool, header: string, permissions: seq<string>, p: string, h: string)
    ensures p in AllPermissions(If(present, header, permissions)) <==> present && p in permissions
    ensures (exists n :: n in If(present, header, permissions) && n.header == h) <==> present && h == header
  {
    if present { assert Need(header, permissions) in If(present, header, permissions); }
  }

  lemma BothHave(a: seq<Need>, b: seq<Need>, p: string, h: string)
    ensures p in AllPermissions(a + b) <==> p in AllPermissions(a) || p in AllPermissions(b)
    ensures (exists n :: n in a + b && n.header == h) <==> (exists n :: n in a && n.header == h) || exists n :: n in b && n.header == h
  {
    assert forall n :: n in a + b <==> n in a || n in b;
  }

  lemma ReplacesMeans(headers: map<string, string>)
    ensures Replaces(headers) <==> ReplacesTags(headers)
  {
    if TAGGING_DIRECTIVE in headers { FirstMeans(headers[TAGGING_DIRECTIVE], "REPLACE"); }
  }

  lemma NeededHeadersHas(needs: seq<Need>, h: string)
    ensures h in NeededHeaders(needs) <==> exists n :: n in needs && n.header == h
  {
    if n :| n in needs && n.header == h {
      var i :| 0 <= i < |needs| && needs[i] == n;
      assert NeededHeaders(needs)[i] == h;
    }
  }

  /** The lock headers' needs, before others. */
  lemma LocksMean(headers: map<string, string>, more: seq<Need>, p: string, h: string)
    ensures p in AllPermissions(LockNeeds(headers) + more) <==> LocksAsk(headers, p) || p in AllPermissions(more)
    ensures (exists n :: n in LockNeeds(headers) + more && n.header == h) <==>
      || (Sent(headers, h) && (h == LOCK_MODE || h == RETAIN_UNTIL || h == LEGAL_HOLD))
      || exists n :: n in more && n.header == h
  {
    var mode := If(HeaderValue(headers, LOCK_MODE).Some?, LOCK_MODE, ["s3:PutObjectRetention"]);
    var until := If(HeaderValue(headers, RETAIN_UNTIL).Some?, RETAIN_UNTIL, ["s3:PutObjectRetention"]);
    var hold := If(HeaderValue(headers, LEGAL_HOLD).Some?, LEGAL_HOLD, ["s3:PutObjectLegalHold"]);
    IfMeans(HeaderValue(headers, LOCK_MODE).Some?, LOCK_MODE, ["s3:PutObjectRetention"], p, h);
    IfMeans(HeaderValue(headers, RETAIN_UNTIL).Some?, RETAIN_UNTIL, ["s3:PutObjectRetention"], p, h);
    IfMeans(HeaderValue(headers, LEGAL_HOLD).Some?, LEGAL_HOLD, ["s3:PutObjectLegalHold"], p, h);
    BothHave(mode, until, p, h);
    BothHave(mode + until, hold, p, h);
    BothHave(LockNeeds(headers), more, p, h);
  }

  // ------------------------------------------------------------ what it needs

  /** What the credential needs on the addressed bucket to do op. */
  ghost predicate Asks(r: Request, op: Operation, p: string) {
    || p == (if op in OPERATION_PERMISSION then OPERATION_PERMISSION[op] else "")
    || (op == GetObjectAttributes && p == "s3:GetObject")
    || HeadersAsk(op, r.headers, p)
    || (op == DeleteObjects && r.body.Some? && r.body.value.Ok? && p in r.body.value.value)
  }

  /** The request's copy source. */
  ghost predicate Copies(r: Request, src: Source) {
    "x-amz-copy-source" in r.headers && r.headers["x-amz-copy-source"] != ""
    && ParseCopySource(r.headers["x-amz-copy-source"]) == Some(src)
  }

  /** What it needs on any bucket. */
  ghost predicate Required(r: Request, op: Operation, q: Requirement) {
    && op != ListBuckets && op != CreateBucket
    && (|| (q.bucket == r.bucket && Asks(r, op, q.permission))
        || ((op == CopyObject || op == UploadPartCopy)
            && exists src :: Copies(r, src) && q.bucket == src.bucket
                 && q.permission == (if src.version != "" then "s3:GetObjectVersion" else "s3:GetObject")))
  }

  /** The body is one the operation reads, or there is none and it reads none. */
  ghost predicate BodyFits(r: Request, op: Operation) {
    if op == DeleteObjects then r.body.Some? && r.body.value.Ok? else r.body.None?
  }

  ghost predicate AllSignedFor(r: Request, op: Operation) {
    forall h :: Decides(op, r.headers, h) ==> h in r.signed
  }

  /** The order headers are decided from. */
  function Rank(h: string): nat {
    if h == "x-amz-copy-source" then 0
    else if h == "x-amz-object-lock-mode" then 1
    else if h == "x-amz-object-lock-retain-until-date" then 2
    else if h == "x-amz-object-lock-legal-hold" then 3
    else if h == "x-amz-tagging-directive" then 4
    else if h == "x-amz-tagging" then 5
    else 6
  }

  /** The request is one to do op: refused for the first header that decides something
      about op and is not signed, then for its body, and otherwise accepted as op
      with exactly what it needs. */
  ghost predicate IsFor(r: Request, op: Operation) {
    match RequirementsFor(r)
    case Refuse(UnsignedHeader(h)) =>
      && Decides(op, r.headers, h) && h !in r.signed
      && forall o :: Decides(op, r.headers, o) && Rank(o) < Rank(h) ==> o in r.signed
    case Refuse(InvalidBody) => AllSignedFor(r, op) && !BodyFits(r, op)
    case Refuse(_) => false
    case Accept(need) => need.0 == op && AllSignedFor(r, op) && BodyFits(r, op) && forall q :: q in need.1 <==> Required(r, op, q)
  }

  ghost predicate RankSorted(names: seq<string>) {
    forall i, j :: 0 <= i < j < |names| ==> Rank(names[i]) < Rank(names[j])
  }

  lemma {:induction false} UnsignedIs(names: seq<string>, signed: set<string>)
    ensures match FirstUnsigned(names, signed)
      case Some(h) => h in names && h !in signed && (RankSorted(names) ==> forall o :: o in names && Rank(o) < Rank(h) ==> o in signed)
      case None => forall n :: n in names ==> n in signed
  {
    if names != [] {
      UnsignedIs(names[1..], signed);
      assert names == [names[0]] + names[1..];
    }
  }

  lemma Ranks()
    ensures Rank(COPY_SOURCE) == 0 && Rank(LOCK_MODE) == 1 && Rank(RETAIN_UNTIL) == 2 && Rank(LEGAL_HOLD) == 3
    ensures Rank(TAGGING_DIRECTIVE) == 4 && Rank(TAGGING) == 5
  {
    assert |COPY_SOURCE| == 17 && |LOCK_MODE| == 22 && |RETAIN_UNTIL| == 35 && |LEGAL_HOLD| == 28;
    assert |TAGGING_DIRECTIVE| == 23 && |TAGGING| == 13;
  }

  /** Names in rank order, from lo up to hi. */
  ghost predicate Between(names: seq<string>, lo: nat, hi: nat) {
    RankSorted(names) && forall n :: n in names ==> lo <= Rank(n) < hi
  }

  lemma BetweenJoin(a: seq<Need>, b: seq<Need>, lo: nat, mid: nat, hi: nat)
    requires Between(NeededHeaders(a), lo, mid) && Between(NeededHeaders(b), mid, hi) && lo <= mid <= hi
    ensures Between(NeededHeaders(a + b), lo, hi)
  {
    var x, y := NeededHeaders(a), NeededHeaders(b);
    assert NeededHeaders(a + b) == x + y;
    forall i, j | 0 <= i < j < |x + y| ensures Rank((x + y)[i]) < Rank((x + y)[j]) {
      if i < |x| <= j { assert x[i] in x && y[j - |x|] in y; }
    }
  }

  lemma OneBetween(present: bool, header: string, permissions: seq<string>)
    ensures Between(NeededHeaders(If(present, header, permissions)), Rank(header), Rank(header) + 1)
  {}

  /** Headers are decided from in order. */
  lemma NeedsInOrder(op: Operation, headers: map<string, string>)
    ensures Between(NeededHeaders(Needs(op, headers)), 1, 7)
  {
    if op == PutObject || op == CreateMultipartUpload {
      LocksInOrder(headers);
      OneMoreTag(headers);
    } else if op == CopyObject {
      CopyInOrder(headers);
    }
  }

  lemma LocksInOrder(headers: map<string, string>)
    ensures Between(NeededHeaders(LockNeeds(headers)), 1, 4)
  {
    Ranks();
    var mode := If(HeaderValue(headers, LOCK_MODE).Some?, LOCK_MODE, ["s3:PutObjectRetention"]);
    var until := If(HeaderValue(headers, RETAIN_UNTIL).Some?, RETAIN_UNTIL, ["s3:PutObjectRetention"]);
    var hold := If(HeaderValue(headers, LEGAL_HOLD).Some?, LEGAL_HOLD, ["s3:PutObjectLegalHold"]);
    OneBetween(HeaderValue(headers, LOCK_MODE).Some?, LOCK_MODE, ["s3:PutObjectRetention"]);
    OneBetween(HeaderValue(headers, RETAIN_UNTIL).Some?, RETAIN_UNTIL, ["s3:PutObjectRetention"]);
    OneBetween(HeaderValue(headers, LEGAL_HOLD).Some?, LEGAL_HOLD, ["s3:PutObjectLegalHold"]);
    BetweenJoin(mode, until, 1, 2, 3);
    BetweenJoin(mode + until, hold, 1, 3, 4);
  }

  lemma OneMoreTag(headers: map<string, string>)
    requires Between(NeededHeaders(LockNeeds(headers)), 1, 4)
    ensures Between(NeededHeaders(LockNeeds(headers) + If(HeaderValue(headers, TAGGING).Some?, TAGGING, ["s3:PutObjectTagging"])), 1, 7)
  {
    Ranks();
    OneBetween(HeaderValue(headers, TAGGING).Some?, TAGGING, ["s3:PutObjectTagging"]);
    BetweenJoin(LockNeeds(headers), If(HeaderValue(headers, TAGGING).Some?, TAGGING, ["s3:PutObjectTagging"]), 1, 4, 7);
  }

  lemma CopyInOrder(headers: map<string, string>)
    ensures Between(NeededHeaders(Needs(CopyObject, headers)), 1, 7)
  {
    Ranks();
    var directive := If(Replaces(headers), TAGGING_DIRECTIVE, ["s3:PutObjectTagging"]);
    var tags := If(Replaces(headers) && HeaderValue(headers, TAGGING).Some?, TAGGING, []);
    LocksInOrder(headers);
    OneBetween(Replaces(headers), TAGGING_DIRECTIVE, ["s3:PutObjectTagging"]);
    OneBetween(Replaces(headers) && HeaderValue(headers, TAGGING).Some?, TAGGING, []);
    BetweenJoin(LockNeeds(headers), directive, 1, 4, 5);
    BetweenJoin(LockNeeds(headers) + directive, tags, 1, 5, 7);
  }

  lemma DecidedInOrder(r: Request)
    requires Classify(r).Accept?
    ensures RankSorted(Classify(r).value.headers)
  {
    var c := ClassifyRoute(r).value;
    assert Routed(Path(r), CopySource(r), c);
    Ranks();
    NeedsInOrder(c.op, r.headers);
    var needed := NeededHeaders(Needs(c.op, r.headers));
    assert Classify(r).value.headers == c.headers + needed;
    forall j | 0 <= j < |needed| ensures 1 <= Rank(needed[j]) { assert needed[j] in needed; }
  }

  /** A routed request is decided from the headers it should be, and asks for what
      it should. */
  lemma ClassifiedIs(r: Request, h: string, p: string)
    requires Classify(r).Accept?
    ensures var c := Classify(r).value;
      && c.bucket == r.bucket && c.bodyPermissions == []
      && (if c.op == CopyObject || c.op == UploadPartCopy then c.source.Some? && Copies(r, c.source.value) else c.source.None?)
      && (h in c.headers <==> Decides(c.op, r.headers, h))
      && (p in c.headerPermissions <==> HeadersAsk(c.op, r.headers, p))
  {
    var c := ClassifyRoute(r).value;
    assert Routed(Path(r), CopySource(r), c);
    NeedsMean(c.op, r.headers, p, h);
    NeededHas(Needs(c.op, r.headers), []);
    assert p in Elements(Classify(r).value.headerPermissions) <==> p in AllPermissions(Needs(c.op, r.headers));
  }

  /** The pairs returned are those required. */
  lemma RequirementsAre(r: Request, c: Classification, q: Requirement)
    requires Trusted(r) == Accept(c)
    ensures q.permission in PermissionsOf(c) <==> Asks(r, c.op, q.permission)
    ensures q in Requirements(c) <==> Required(r, c.op, q)
  {
    ClassifiedIs(r, "", q.permission);
    TrustedFits(r, c);
    AsksMeans(r, c, q.permission);
    if AddressesExistingBucket(c.op) { RequirementsSplitAt(c, q); }
    if CopiesSource(c.op) { OneSource(r, c.source.value); }
  }

  lemma SourceIsCopied(r: Request, c: Classification)
    requires Trusted(r) == Accept(c)
    ensures c.source.Some? ==> CopiesSource(c.op)
  {
    TrustedFits(r, c);
    ClassifiedIs(r, "", "");
  }

  lemma OneSource(r: Request, s: Source)
    requires Copies(r, s)
    ensures forall src :: Copies(r, src) <==> src == s
  {}

  lemma AsksMeans(r: Request, c: Classification, p: string)
    requires BodyFits(r, c.op)
    requires c.bodyPermissions == if c.op == DeleteObjects then r.body.value.value else []
    requires p in c.headerPermissions <==> HeadersAsk(c.op, r.headers, p)
    ensures p in PermissionsOf(c) <==> Asks(r, c.op, p)
  {}

  /** An accepted request's decisions are signed and its body is read. */
  lemma TrustedFits(r: Request, c: Classification)
    requires Trusted(r) == Accept(c)
    ensures Classify(r).Accept? && BodyFits(r, c.op) && AllSignedFor(r, c.op)
    ensures c == Classify(r).value.(bodyPermissions := if c.op == DeleteObjects then r.body.value.value else [])
  {
    var plain := Classify(r).value;
    ClassifiedIs(r, "", "");
    UnsignedIs(plain.headers, r.signed);
    forall h ensures Decides(c.op, r.headers, h) ==> h in r.signed { ClassifiedIs(r, h, ""); }
  }


  lemma RequirementsSplitAt(c: Classification, q: Requirement)
    requires AddressesExistingBucket(c.op)
    ensures q in Requirements(c) <==>
      (q.bucket == c.bucket && q.permission in PermissionsOf(c))
      || (CopiesSource(c.op) && c.source.Some? && q == Requirement(c.source.value.bucket, SourcePermission(c)))
  {
    if q.permission in PermissionsOf(c) {
      var i :| 0 <= i < |PermissionsOf(c)| && PermissionsOf(c)[i] == q.permission;
      assert OnBucket(c.bucket, PermissionsOf(c))[i] == Requirement(c.bucket, q.permission);
    }
  }

  lemma ClassifiedIsFor(r: Request)
    requires Classify(r).Accept?
    ensures IsFor(r, Classify(r).value.op)
  {
    var c := Classify(r).value;
    MirrorsTrusted(r);
    if Trusted(r).Accept? {
      TrustedFits(r, Trusted(r).value);
      forall q ensures q in Requirements(Trusted(r).value) <==> Required(r, c.op, q) { RequirementsAre(r, Trusted(r).value, q); }
    } else {
      RefusedFits(r, c);
    }
  }

  /** Why a classified request is refused. */
  lemma RefusedFits(r: Request, c: Classification)
    requires Classify(r) == Accept(c) && Trusted(r).Refuse?
    ensures match Trusted(r).why
      case UnsignedHeader(h) =>
        Decides(c.op, r.headers, h) && h !in r.signed && forall o :: Decides(c.op, r.headers, o) && Rank(o) < Rank(h) ==> o in r.signed
      case InvalidBody => AllSignedFor(r, c.op) && !BodyFits(r, c.op)
      case _ => false
  {
    DecidedInOrder(r);
    UnsignedIs(c.headers, r.signed);
    forall h ensures h in c.headers <==> Decides(c.op, r.headers, h) { ClassifiedIs(r, h, ""); }
  }



  // --------------------------------------------------- which operation it is

  /** The query names the subresource. */
  ghost predicate Names(r: Request, n: string) {
    n in SUBRESOURCES && n in r.query
  }

  lemma NamedCount(r: Request)
    ensures |NamedSubresources(r)| > 1 <==> exists n :: Names(r, n) && exists m :: Names(r, m) && n != m
    ensures |NamedSubresources(r)| == 0 <==> forall n :: !Names(r, n)
    ensures |NamedSubresources(r)| == 1 ==> forall n :: Names(r, n) <==> n == Only(NamedSubresources(r))
  {
    var named := NamedSubresources(r);
    assert forall n :: Names(r, n) <==> n in named;
    if |named| == 1 { Singleton(named); }
    if |named| > 1 {
      var n :| n in named;
      assert |named - {n}| > 0;
      var m :| m in named - {n};
      assert Names(r, n) && Names(r, m) && n != m;
    }
  }

  /** Requests no operation is performed for, in the order they are refused: two
      subresources, one that is not served, no method of S3's, and no bucket but a
      method that needs one. Without a bucket the others list buckets. */
  lemma Unaddressed(r: Request)
    ensures RequirementsFor(r) == Refuse(ConflictingQuery) <==> exists n :: Names(r, n) && exists m :: Names(r, m) && n != m
    ensures (forall n, m :: Names(r, n) && Names(r, m) ==> n == m) ==>
      if exists n :: Names(r, n) && !SUBRESOURCES[n] then RequirementsFor(r) == Refuse(UnsupportedOperation)
      else if r.verb == Unsupported then RequirementsFor(r) == Refuse(UnsupportedMethod)
      else r.bucket == "" ==>
        if r.verb == Get || r.verb == Head then IsFor(r, ListBuckets) else RequirementsFor(r) == Refuse(NoBucket)
  {
    NamedCount(r);
    assert Path(r).query == r.query && NamedSubresources(Path(r)) == NamedSubresources(r);
    if Classify(r).Accept? { ClassifiedIsFor(r); }
  }

  /** Nothing the query names selects the operation: it names nothing served, or
      something that selects nothing for the method and the path. */
  ghost predicate NoneSelects(r: Request) {
    && (forall n, m :: Names(r, n) && Names(r, m) ==> n == m)
    && forall n :: Names(r, n) ==>
         SUBRESOURCES[n] && (r.verb == Head || (r.verb, n) !in (if r.key == "" then BUCKET_ROUTES else OBJECT_ROUTES))
  }

  /** The operation the method and the path select: on a bucket by the method, on
      an object by the method and by whether a version is named, and a copy
      exactly when a PUT of an object names a source that parses. A POST selects
      none. */
  lemma PlainOperation(r: Request)
    requires r.verb != Unsupported && r.bucket != "" && NoneSelects(r)
    ensures var versioned := "versionId" in r.query && r.query["versionId"] != "";
      match r.verb
      case Get | Head => IsFor(r, if r.key == "" then ListBucket else if versioned then GetObjectVersion else GetObject)
      case Put => IsFor(r, if r.key == "" then CreateBucket else if exists src :: Copies(r, src) then CopyObject else PutObject)
      case Delete => IsFor(r, if r.key == "" then DeleteBucket else if versioned then DeleteObjectVersion else DeleteObject)
      case _ => RequirementsFor(r) == Refuse(UnsupportedOperation)
  {
    NamedCount(r);
    PathNames(r);
    SourceCopies(r);
    if Classify(r).Accept? { ClassifiedIsFor(r); }
  }

  lemma PathNames(r: Request)
    ensures NamedSubresources(Path(r)) == NamedSubresources(r) && Routes(Path(r)) == Routes(r)
  {}

  lemma SourceCopies(r: Request)
    ensures CopySource(r).Some? <==> exists src :: Copies(r, src)
  {
    if CopySource(r).Some? { assert Copies(r, CopySource(r).value); }
  }

  /** The operation a subresource selects: its route's, unless nothing is
      authorized for that route; and the upload of a part, a copy when it names a
      source, only with its number. */
  lemma SelectedOperation(r: Request, n: string)
    requires r.verb != Unsupported && r.verb != Head && r.bucket != ""
    requires Names(r, n) && SUBRESOURCES[n] && forall m :: Names(r, m) ==> m == n
    requires (r.verb, n) in if r.key == "" then BUCKET_ROUTES else OBJECT_ROUTES
    ensures var route: Option<Operation> := (if r.key == "" then BUCKET_ROUTES else OBJECT_ROUTES)[(r.verb, n)];
      if route.None? || (route == Some(UploadPart) && "partNumber" !in r.query) then RequirementsFor(r) == Refuse(UnsupportedOperation)
      else if route == Some(UploadPart) && exists src :: Copies(r, src) then IsFor(r, UploadPartCopy)
      else IsFor(r, route.value)
  {
    NamedCount(r);
    PathNames(r);
    SourceCopies(r);
    if Classify(r).Accept? { ClassifiedIsFor(r); }
  }

  /** A DELETE is accepted only as a delete, unless a subresource it names selects
      another operation. */
  lemma DeletesOnlyDelete(r: Request)
    requires r.verb == Delete && RequirementsFor(r).Accept?
    requires forall n :: Names(r, n) ==> (Delete, n) !in (if r.key == "" then BUCKET_ROUTES else OBJECT_ROUTES)
    ensures var op := RequirementsFor(r).value.0; op == DeleteBucket || op == DeleteObject || op == DeleteObjectVersion
  {
    Unaddressed(r);
    PlainOperation(r);
  }
}
