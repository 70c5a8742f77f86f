/** Classification of a request and what it needs authorized
    (pkg/rpc/service/auth/operation.go). The URL is taken apart: its first path
    segment, the rest, and its query. Header names are lower-cased; the
    signature parser refuses two that differ only in case. */
module Operations {
  import opened Common
  import opened Permissions

  datatype Verb = Get | Head | Put | Post | Delete | Unsupported

  /** The operations the code names; every other is selected by a route of a
      subresource. */
  datatype Operation =
    | ListBuckets | ListBucket | CreateBucket | DeleteBucket
    | GetObject | GetObjectVersion | GetObjectAttributes
    | PutObject | CopyObject | CreateMultipartUpload | UploadPart | UploadPartCopy
    | DeleteObject | DeleteObjectVersion | DeleteObjects | PutObjectRetention
    | Subresource(name: string)

  /** What a route may select: an operation, or nothing that is authorized. A copy
      is selected by its source's header alone. */
  type Selected = o: Option<Operation> | o != Some(CopyObject) && o != Some(UploadPartCopy) witness None

  /** The tables; every theorem holds for any contents. A subresource is served
      or not; a route selects an operation, or is one nothing is authorized
      for. */
  const SUBRESOURCES: map<string, bool>
  const BUCKET_ROUTES: map<(Verb, string), Selected>
  const OBJECT_ROUTES: map<(Verb, string), Selected>
  const OPERATION_PERMISSION: map<Operation, string>

  datatype Request = Request(
    verb: Verb,
    bucket: string,
    key: string,
    query: map<string, string>,
    headers: map<string, string>,
    signed: set<string>,                   // header names the signature covers
    body: Option<Result<seq<string>>>)     // what a bound body adds, or its refusal

  datatype Refusal =
    | ConflictingQuery
    | UnsupportedOperation
    | UnsupportedMethod
    | NoBucket
    | UnsignedHeader(header: string)
    | InvalidBody

  datatype Outcome<+T> = Accept(value: T) | Refuse(why: Refusal)

  datatype Source = Source(bucket: string, key: string, version: string)

  datatype Classification = Classification(
    op: Operation,
    bucket: string,
    key: string,
    source: Option<Source>,
    headerPermissions: seq<string>,
    headers: seq<string>,               // every header a decision was taken from
    bodyPermissions: seq<string>)

  // --------------------------------------------------------------- header values

  /** An empty value counts as absent. */
  function HeaderValue(headers: map<string, string>, name: string): Option<string> {
    if name in headers && headers[name] != "" then Some(headers[name]) else None
  }

  /** s before and after the first sep, if it is there. */
  function Cut(s: string, sep: string): Option<(string, string)>
    requires sep != ""
    decreases |s|
  {
    if |s| < |sep| then None
    else if s[..|sep|] == sep then Some(("", s[|sep|..]))
    else
      var rest := Cut(s[1..], sep);
      if rest.None? then None else Some(([s[0]] + rest.value.0, rest.value.1))
  }

  predicate Space(c: char) { c in " \t\n\U{0B}\U{0C}\r" }

  function TrimLeft(s: string): string {
    if s != "" && Space(s[0]) then TrimLeft(s[1..]) else s
  }

  function TrimRight(s: string): string {
    if s != "" && Space(s[|s| - 1]) then TrimRight(s[..|s| - 1]) else s
  }

  /** A repeated header reaches the service comma-joined; its first value
      decides. */
  function First(v: string): string {
    var cut := Cut(v, ",");
    TrimRight(TrimLeft(if cut.None? then v else cut.value.0))
  }

  function Lower(s: string): string {
    seq(|s|, i requires 0 <= i < |s| => if 'A' <= s[i] <= 'Z' then (s[i] as int + 32) as char else s[i])
  }

  function HexDigit(c: char): Option<nat> {
    if '0' <= c <= '9' then Some(c as int - '0' as int)
    else if 'a' <= c <= 'f' then Some(c as int - 'a' as int + 10)
    else if 'A' <= c <= 'F' then Some(c as int - 'A' as int + 10)
    else None
  }

  /** Percent-decoding with '+' for a space; none for a bad escape. */
  function QueryUnescape(s: string): Option<string>
    decreases |s|
  {
    if s == "" then Some("")
    else if s[0] == '%' then
      if |s| < 3 || HexDigit(s[1]).None? || HexDigit(s[2]).None? then None
      else
        var rest := QueryUnescape(s[3..]);
        if rest.None? then None else Some([(16 * HexDigit(s[1]).value + HexDigit(s[2]).value) as char] + rest.value)
    else
      var rest := QueryUnescape(s[1..]);
      if rest.None? then None else Some([if s[0] == '+' then ' ' else s[0]] + rest.value)
  }

  /** Bucket and key at the first slash, after cutting off a version suffix. */
  function FromText(text: string): Option<Source> {
    var versioned := Cut(text, "?versionId=");
    var path, version := if versioned.None? then text else versioned.value.0, if versioned.None? then "" else versioned.value.1;
    var split := Cut(path, "/");
    if split.None? then None else Some(Source(split.value.0, split.value.1, version))
  }

  /** parseCopySource: an optional leading slash, decoding, an optional version
      suffix, then bucket and key at the first slash. */
  function ParseCopySource(v: string): Option<Source> {
    var decoded := QueryUnescape(if v != "" && v[0] == '/' then v[1..] else v);
    if decoded.None? then None else FromText(decoded.value)
  }

  // --------------------------------------------------------------- classification

  const COPY_SOURCE := "x-amz-copy-source"
  const LOCK_MODE := "x-amz-object-lock-mode"
  const RETAIN_UNTIL := "x-amz-object-lock-retain-until-date"
  const LEGAL_HOLD := "x-amz-object-lock-legal-hold"
  const TAGGING := "x-amz-tagging"
  const TAGGING_DIRECTIVE := "x-amz-tagging-directive"
  const LOCK_ENABLED := "x-amz-bucket-object-lock-enabled"
  const BYPASS := "x-amz-bypass-governance-retention"

  /** A PUT of an object or a part is a copy when it names a source that
      parses. */
  function CopySource(r: Request): Option<Source> {
    var v := HeaderValue(r.headers, COPY_SOURCE);
    if v.None? then None else ParseCopySource(v.value)
  }

  /** The operation on the addressed bucket and key, a copy when there is a
      source. */
  function Copied(r: Request, plain: Operation, copy: Operation, src: Option<Source>): Classification {
    if src.None? then Plain(r, plain)
    else Classification(copy, r.bucket, r.key, src, [], [COPY_SOURCE], [])
  }

  function Plain(r: Request, op: Operation): Classification {
    Classification(op, r.bucket, r.key, None, [], [], [])
  }

  /** What routing leaves: the addressed bucket and key, and a source only for a
      copy, decided from the copy-source header alone. */
  predicate Routed(r: Request, src: Option<Source>, c: Classification) {
    && c.bucket == r.bucket && c.key == r.key && c.headerPermissions == [] && c.bodyPermissions == []
    && if CopiesSource(c.op) then src.Some? && c.source == src && c.headers == [COPY_SOURCE] else c.source.None? && c.headers == []
  }

  /** The subresources the query names. */
  function NamedSubresources(r: Request): set<string> {
    set n | n in SUBRESOURCES && n in r.query
  }

  /** A version named in the query, which an empty value does not name. */
  predicate Versioned(r: Request) {
    "versionId" in r.query && r.query["versionId"] != ""
  }

  function Routes(r: Request): map<(Verb, string), Selected> {
    if r.key != "" then OBJECT_ROUTES else BUCKET_ROUTES
  }

  /** The operation when no route of a subresource selects one. */
  function PlainRoute(r: Request, src: Option<Source>): (o: Outcome<Classification>)
    ensures o.Accept? ==> Routed(r, src, o.value)
  {
    match r.verb
    case Get => Accept(Plain(r, if r.key == "" then ListBucket else if Versioned(r) then GetObjectVersion else GetObject))
    case Put => Accept(if r.key == "" then Plain(r, CreateBucket) else Copied(r, PutObject, CopyObject, src))
    case Delete => Accept(Plain(r, if r.key == "" then DeleteBucket else if Versioned(r) then DeleteObjectVersion else DeleteObject))
    case _ => Refuse(UnsupportedOperation)
  }

  function SubresourceRoute(r: Request, name: string, src: Option<Source>): (o: Outcome<Classification>)
    ensures o.Accept? ==> Routed(r, src, o.value)
  {
    if (r.verb, name) !in Routes(r) then PlainRoute(r, src)
    else
      var route := Routes(r)[(r.verb, name)];
      if route.None? then Refuse(UnsupportedOperation)
      else if route.value != UploadPart then Accept(Plain(r, route.value))
      else if "partNumber" !in r.query then Refuse(UnsupportedOperation)
      else Accept(Copied(r, UploadPart, UploadPartCopy, src))
  }

  function Only(names: set<string>): string
    requires |names| == 1
  {
    Singleton(names);
    var n :| n in names;
    n
  }

  lemma Singleton(names: set<string>)
    requires |names| == 1
    ensures forall a, b :: a in names && b in names ==> a == b
    ensures exists n :: n in names
  {
    var n :| n in names;
    assert |names - {n}| == 0;
    forall a | a in names ensures a == n { assert a in names - {n} || a == n; }
  }

  /** The route a path, method and query select, given what the copy-source
      header names. */
  function Route(r: Request, src: Option<Source>): (o: Outcome<Classification>)
    ensures o.Accept? ==> Routed(r, src, o.value)
  {
    var named := NamedSubresources(r);
    if |named| > 1 then Refuse(ConflictingQuery)
    else if |named| == 1 && !SUBRESOURCES[Only(named)] then Refuse(UnsupportedOperation)
    else if r.verb == Unsupported then Refuse(UnsupportedMethod)
    else if r.bucket == "" then
      if r.verb == Get || r.verb == Head then Accept(Plain(r, ListBuckets)) else Refuse(NoBucket)
    else if r.verb == Head then
      Accept(Plain(r, if r.key == "" then ListBucket else if Versioned(r) then GetObjectVersion else GetObject))
    else if |named| == 1 then SubresourceRoute(r, Only(named), src)
    else PlainRoute(r, src)
  }

  /** The request without its headers and body. */
  function Path(r: Request): Request { r.(headers := map[], signed := {}, body := None) }

  /** classifyRoute. */
  function ClassifyRoute(r: Request): Outcome<Classification> { Route(Path(r), CopySource(r)) }

  /** A source that does not make the request a copy changes nothing. */
  lemma SourceUnused(r: Request, s: Option<Source>, t: Option<Source>)
    requires s.Some? && Route(r, s).Accept? && Route(r, s).value.source.None?
    ensures Route(r, t) == Route(r, s)
  {}

  // ------------------------------------------------------ what the headers add

  /** A header decided from, and the permissions it adds. */
  datatype Need = Need(header: string, permissions: seq<string>)

  function If(present: bool, header: string, permissions: seq<string>): seq<Need> {
    if present then [Need(header, permissions)] else []
  }

  predicate Flagged(headers: map<string, string>, name: string) {
    var v := HeaderValue(headers, name);
    v.Some? && Lower(First(v.value)) == "true"
  }

  predicate Replaces(headers: map<string, string>) {
    var v := HeaderValue(headers, TAGGING_DIRECTIVE);
    v.Some? && First(v.value) == "REPLACE"
  }

  /** What readHeaders decides, header by header. */
  function Needs(op: Operation, headers: map<string, string>): seq<Need> {
    if op == PutObject || op == CreateMultipartUpload then
      LockNeeds(headers) + If(HeaderValue(headers, TAGGING).Some?, TAGGING, ["s3:PutObjectTagging"])
    else if op == CopyObject then
      LockNeeds(headers)
      + If(Replaces(headers), TAGGING_DIRECTIVE, ["s3:PutObjectTagging"])
      + If(Replaces(headers) && HeaderValue(headers, TAGGING).Some?, TAGGING, [])
    else if op == DeleteObject || op == DeleteObjectVersion || op == DeleteObjects || op == PutObjectRetention then
      If(Flagged(headers, BYPASS), BYPASS, ["s3:BypassGovernanceRetention"])
    else if op == CreateBucket then
      If(Flagged(headers, LOCK_ENABLED), LOCK_ENABLED, ["s3:PutBucketVersioning", "s3:PutBucketObjectLockConfiguration"])
    else []
  }

  function LockNeeds(headers: map<string, string>): seq<Need> {
    If(HeaderValue(headers, LOCK_MODE).Some?, LOCK_MODE, ["s3:PutObjectRetention"])
    + If(HeaderValue(headers, RETAIN_UNTIL).Some?, RETAIN_UNTIL, ["s3:PutObjectRetention"])
    + If(HeaderValue(headers, LEGAL_HOLD).Some?, LEGAL_HOLD, ["s3:PutObjectLegalHold"])
  }

  function Merge(perms: seq<string>, more: seq<string>): seq<string>
    decreases |more|
  {
    if more == [] then perms
    else Merge(if more[0] in perms then perms else perms + [more[0]], more[1..])
  }

  function NeededPermissions(needs: seq<Need>, perms: seq<string>): seq<string> {
    if needs == [] then perms else NeededPermissions(needs[1..], Merge(perms, needs[0].permissions))
  }

  function NeededHeaders(needs: seq<Need>): seq<string> {
    seq(|needs|, i requires 0 <= i < |needs| => needs[i].header)
  }

  /** The classification with what the headers add. */
  function WithHeaders(c: Classification, headers: map<string, string>): Classification {
    c.(headerPermissions := NeededPermissions(Needs(c.op, headers), c.headerPermissions),
       headers := c.headers + NeededHeaders(Needs(c.op, headers)))
  }

  /** classifyRequest. */
  function Classify(r: Request): Outcome<Classification> {
    var c := ClassifyRoute(r);
    if c.Refuse? then c else Accept(WithHeaders(c.value, r.headers))
  }

  lemma {:induction false} MergeHas(perms: seq<string>, more: seq<string>)
    ensures Elements(Merge(perms, more)) == Elements(perms) + Elements(more)
    ensures Distinct(perms) ==> Distinct(Merge(perms, more))
    decreases |more|
  {
    if more != [] {
      var next := if more[0] in perms then perms else perms + [more[0]];
      MergeHas(next, more[1..]);
      assert more == [more[0]] + more[1..];
      ElementsJoin([more[0]], more[1..]);
      ElementsJoin(perms, [more[0]]);
    }
  }

  ghost predicate Distinct(xs: seq<string>) {
    forall i, j :: 0 <= i < j < |xs| ==> xs[i] != xs[j]
  }

  function AllPermissions(needs: seq<Need>): set<string> {
    set n, p | n in needs && p in n.permissions :: p
  }

  /** The permissions added are those of the needs, each once. */
  lemma {:induction false} NeededHas(needs: seq<Need>, perms: seq<string>)
    ensures Elements(NeededPermissions(needs, perms)) == Elements(perms) + AllPermissions(needs)
    ensures Distinct(perms) ==> Distinct(NeededPermissions(needs, perms))
  {
    if needs != [] {
      MergeHas(perms, needs[0].permissions);
      NeededHas(needs[1..], Merge(perms, needs[0].permissions));
      assert needs == [needs[0]] + needs[1..];
      assert AllPermissions(needs) == Elements(needs[0].permissions) + AllPermissions(needs[1..]);
    }
  }

  lemma HeadersGrow(headers: seq<string>, needs: seq<Need>, i: nat)
    requires i < |needs|
    ensures headers + NeededHeaders(needs)[..i + 1] == (headers + NeededHeaders(needs)[..i]) + [needs[i].header]
  {}

  /** readHeaders, filling the classification's fields need by need. */
  method ReadHeaders(c: Classification, headers: map<string, string>) returns (perms: seq<string>, names: seq<string>)
    ensures perms == WithHeaders(c, headers).headerPermissions && names == WithHeaders(c, headers).headers
    ensures Elements(perms) == Elements(c.headerPermissions) + AllPermissions(Needs(c.op, headers))
    ensures Distinct(c.headerPermissions) ==> Distinct(perms)
  {
    var needs := Needs(c.op, headers);
    perms, names := c.headerPermissions, c.headers;
    for i := 0 to |needs|
      invariant NeededPermissions(needs[i..], perms) == NeededPermissions(needs, c.headerPermissions)
      invariant names == c.headers + NeededHeaders(needs)[..i]
    {
      assert needs[i..][1..] == needs[i + 1..];
      HeadersGrow(c.headers, needs, i);
      perms := Merge(perms, needs[i].permissions);
      names := names + [needs[i].header];
    }
    NeededHas(needs, c.headerPermissions);
  }

  // ------------------------------------------------------------ what is required

  predicate CopiesSource(op: Operation) { op == CopyObject || op == UploadPartCopy }

  predicate AddressesExistingBucket(op: Operation) { op != ListBuckets && op != CreateBucket }

  predicate ReadsBody(op: Operation) { op == DeleteObjects }

  /** The permission that names the operation. */
  function Permission(op: Operation): string {
    if op in OPERATION_PERMISSION then OPERATION_PERMISSION[op] else ""
  }

  /** Every permission the credential needs on the addressed bucket: the
      operation's own and its companion, then its headers' and its body's. */
  function PermissionsOf(c: Classification): seq<string> {
    [Permission(c.op)] + (if c.op == GetObjectAttributes then ["s3:GetObject"] else [])
    + c.headerPermissions + c.bodyPermissions
  }

  function SourcePermission(c: Classification): string {
    if c.source.Some? && c.source.value.version != "" then "s3:GetObjectVersion" else "s3:GetObject"
  }

  datatype Requirement = Requirement(bucket: string, permission: string)

  function OnBucket(bucket: string, permissions: seq<string>): seq<Requirement> {
    seq(|permissions|, i requires 0 <= i < |permissions| => Requirement(bucket, permissions[i]))
  }

  /** The first header of names the signature does not cover. */
  function FirstUnsigned(names: seq<string>, signed: set<string>): Option<string> {
    if names == [] then None
    else if names[0] !in signed then Some(names[0])
    else FirstUnsigned(names[1..], signed)
  }

  /** What a classification comes to once every header it was decided from is known
      to be signed and the body bound. */
  function Bound(r: Request, c: Classification): Outcome<Classification> {
    var unsigned := FirstUnsigned(c.headers, r.signed);
    if unsigned.Some? then Refuse(UnsignedHeader(unsigned.value))
    else if !ReadsBody(c.op) then if r.body.Some? then Refuse(InvalidBody) else Accept(c)
    else if r.body.None? || r.body.value.Err? then Refuse(InvalidBody)
    else Accept(c.(bodyPermissions := c.bodyPermissions + r.body.value.value))
  }

  /** What the authorizer decides on: the classification, always bound. */
  function Trusted(r: Request): Outcome<Classification> {
    var c := Classify(r);
    if c.Refuse? then c else Bound(r, c.value)
  }

  function Requirements(c: Classification): seq<Requirement> {
    if !AddressesExistingBucket(c.op) then []
    else
      OnBucket(c.bucket, PermissionsOf(c))
      + if CopiesSource(c.op) && c.source.Some? then [Requirement(c.source.value.bucket, SourcePermission(c))] else []
  }

  /** RequirementsFor: the operation and every bucket and permission it needs. The
      signature is looked at only when there is something to bind. */
  function RequirementsFor(r: Request): Outcome<(Operation, seq<Requirement>)> {
    var c := Classify(r);
    if c.Refuse? then Refuse(c.why)
    else if c.value.headers == [] && !ReadsBody(c.value.op) && r.body.None? then Accept((c.value.op, Requirements(c.value)))
    else
      var bound := Bound(r, c.value);
      if bound.Refuse? then Refuse(bound.why) else Accept((bound.value.op, Requirements(bound.value)))
  }

  /** Skipping the signature loses nothing: the mirror reads the classification the
      authorizer decides on, or refuses for the same reason. */
  lemma MirrorsTrusted(r: Request)
    ensures RequirementsFor(r) ==
      if Trusted(r).Refuse? then Refuse(Trusted(r).why) else Accept((Trusted(r).value.op, Requirements(Trusted(r).value)))
  {}

  lemma {:induction false} AllSigned(names: seq<string>, signed: set<string>)
    ensures FirstUnsigned(names, signed).None? <==> forall n :: n in names ==> n in signed
  {
    if names != [] {
      AllSigned(names[1..], signed);
      assert names == [names[0]] + names[1..];
    }
  }

  /** Every header decided from has a value; a copy is decided from its source's
      header, and only a copy has a source. */
  lemma DecidedHeadersPresent(r: Request, name: string)
    requires Classify(r).Accept?
    ensures var c := Classify(r).value;
      && (name in c.headers ==> HeaderValue(r.headers, name).Some?)
      && (c.source.Some? ==> CopiesSource(c.op) && COPY_SOURCE in c.headers && c.source == CopySource(r))
  {
    var c := ClassifyRoute(r).value;
    assert Routed(Path(r), CopySource(r), c);
    if name in NeededHeaders(Needs(c.op, r.headers)) {
      var i :| 0 <= i < |Needs(c.op, r.headers)| && NeededHeaders(Needs(c.op, r.headers))[i] == name;
      NeedsPresent(c.op, r.headers);
      assert Needs(c.op, r.headers)[i] in Needs(c.op, r.headers);
    }
  }

  lemma NeedsPresent(op: Operation, headers: map<string, string>)
    ensures forall n :: n in Needs(op, headers) ==> HeaderValue(headers, n.header).Some?
  {}

  // --------------------------------------------------- bound to the signature

  /** Two requests a signature cannot tell apart: the path, method, query and body
      are the same, and every header it covers. */
  ghost predicate SameSigned(a: Request, b: Request) {
    && a.verb == b.verb && a.bucket == b.bucket && a.key == b.key && a.query == b.query
    && a.body == b.body && a.signed == b.signed
    && forall n :: n in a.signed ==> HeaderValue(a.headers, n) == HeaderValue(b.headers, n)
  }

  /** Headers nobody signed decide nothing: two accepted requests with the same
      signed parts need the same things, whatever their other headers are. */
  lemma BoundToSignature(a: Request, b: Request)
    requires SameSigned(a, b) && Trusted(a).Accept? && Trusted(b).Accept?
    ensures Trusted(a) == Trusted(b) && RequirementsFor(a) == RequirementsFor(b)
  {
    var c, d := Classify(a).value, Classify(b).value;
    AllSigned(c.headers, a.signed);
    AllSigned(d.headers, b.signed);
    SameRoute(a, b);
    SameNeeds(a, b, ClassifyRoute(a).value);
  }

  /** A copy source decides the route only when its header is signed. */
  lemma SameRoute(a: Request, b: Request)
    requires SameSigned(a, b) && Classify(a).Accept? && Classify(b).Accept?
    requires forall n :: n in Classify(a).value.headers ==> n in a.signed
    requires forall n :: n in Classify(b).value.headers ==> n in b.signed
    ensures ClassifyRoute(a) == ClassifyRoute(b)
  {
    var s, t := CopySource(a), CopySource(b);
    assert Path(a) == Path(b);
    RouteHeaders(a);
    RouteHeaders(b);
    if s != t {
      assert COPY_SOURCE !in a.signed;
      if s.Some? { SourceUnused(Path(a), s, t); } else { SourceUnused(Path(b), t, s); }
    }
  }

  lemma RouteHeaders(r: Request)
    requires Classify(r).Accept?
    ensures ClassifyRoute(r).value.source.Some? ==> COPY_SOURCE in Classify(r).value.headers
    ensures forall n :: n in NeededHeaders(Needs(ClassifyRoute(r).value.op, r.headers)) ==> n in Classify(r).value.headers
  {
    assert Routed(Path(r), CopySource(r), ClassifyRoute(r).value);
  }

  lemma SameNeeds(a: Request, b: Request, c: Classification)
    requires SameSigned(a, b) && ClassifyRoute(a) == Accept(c) && ClassifyRoute(b) == Accept(c)
    requires forall n :: n in Classify(a).value.headers ==> n in a.signed
    requires forall n :: n in Classify(b).value.headers ==> n in b.signed
    ensures Needs(c.op, a.headers) == Needs(c.op, b.headers)
  {
    RouteHeaders(a);
    RouteHeaders(b);
    NeedsAgree(c.op, a.headers, b.headers, a.signed);
  }

  ghost predicate AllCovered(needs: seq<Need>, signed: set<string>) {
    forall n :: n in needs ==> n.header in signed
  }

  lemma CoveredParts(a: seq<Need>, b: seq<Need>, signed: set<string>)
    requires AllCovered(a + b, signed)
    ensures AllCovered(a, signed) && AllCovered(b, signed)
  {
    assert forall n :: n in a || n in b ==> n in a + b;
  }

  /** Header by header: one whose presence adds a need is signed, so it is the
      same in both. */
  lemma NeedsAgree(op: Operation, a: map<string, string>, b: map<string, string>, signed: set<string>)
    requires forall n :: n in signed ==> HeaderValue(a, n) == HeaderValue(b, n)
    requires forall n :: n in NeededHeaders(Needs(op, a)) ==> n in signed
    requires forall n :: n in NeededHeaders(Needs(op, b)) ==> n in signed
    ensures Needs(op, a) == Needs(op, b)
  {
    NeedSigned(op, a, signed);
    NeedSigned(op, b, signed);
    if op == PutObject || op == CreateMultipartUpload {
      TaggedAgree(a, b, signed);
    } else if op == CopyObject {
      CopyAgree(a, b, signed);
    } else if op == CreateBucket {
      FlagAgrees(a, b, LOCK_ENABLED, ["s3:PutBucketVersioning", "s3:PutBucketObjectLockConfiguration"], signed);
    } else if op == DeleteObject || op == DeleteObjectVersion || op == DeleteObjects || op == PutObjectRetention {
      FlagAgrees(a, b, BYPASS, ["s3:BypassGovernanceRetention"], signed);
    }
  }

  lemma FlagAgrees(a: map<string, string>, b: map<string, string>, name: string, perms: seq<string>, signed: set<string>)
    requires forall n :: n in signed ==> HeaderValue(a, n) == HeaderValue(b, n)
    requires AllCovered(If(Flagged(a, name), name, perms), signed) && AllCovered(If(Flagged(b, name), name, perms), signed)
    ensures Flagged(a, name) == Flagged(b, name)
  {
    assert Flagged(a, name) ==> Need(name, perms) in If(Flagged(a, name), name, perms);
    assert Flagged(b, name) ==> Need(name, perms) in If(Flagged(b, name), name, perms);
    assert name in signed ==> HeaderValue(a, name) == HeaderValue(b, name);
  }

  lemma PresenceAgrees(a: map<string, string>, b: map<string, string>, name: string, perms: seq<string>, signed: set<string>)
    requires forall n :: n in signed ==> HeaderValue(a, n) == HeaderValue(b, n)
    requires AllCovered(If(HeaderValue(a, name).Some?, name, perms), signed)
    requires AllCovered(If(HeaderValue(b, name).Some?, name, perms), signed)
    ensures HeaderValue(a, name).Some? == HeaderValue(b, name).Some?
  {
    assert HeaderValue(a, name).Some? ==> Need(name, perms) in If(HeaderValue(a, name).Some?, name, perms);
    assert HeaderValue(b, name).Some? ==> Need(name, perms) in If(HeaderValue(b, name).Some?, name, perms);
  }

  lemma LocksCovered(headers: map<string, string>, signed: set<string>)
    requires AllCovered(LockNeeds(headers), signed)
    ensures AllCovered(If(HeaderValue(headers, LOCK_MODE).Some?, LOCK_MODE, ["s3:PutObjectRetention"]), signed)
    ensures AllCovered(If(HeaderValue(headers, RETAIN_UNTIL).Some?, RETAIN_UNTIL, ["s3:PutObjectRetention"]), signed)
    ensures AllCovered(If(HeaderValue(headers, LEGAL_HOLD).Some?, LEGAL_HOLD, ["s3:PutObjectLegalHold"]), signed)
  {
    var x := If(HeaderValue(headers, LOCK_MODE).Some?, LOCK_MODE, ["s3:PutObjectRetention"]);
    var y := If(HeaderValue(headers, RETAIN_UNTIL).Some?, RETAIN_UNTIL, ["s3:PutObjectRetention"]);
    CoveredParts(x + y, If(HeaderValue(headers, LEGAL_HOLD).Some?, LEGAL_HOLD, ["s3:PutObjectLegalHold"]), signed);
    CoveredParts(x, y, signed);
  }

  lemma LocksAgree(a: map<string, string>, b: map<string, string>, signed: set<string>)
    requires forall n :: n in signed ==> HeaderValue(a, n) == HeaderValue(b, n)
    requires AllCovered(LockNeeds(a), signed) && AllCovered(LockNeeds(b), signed)
    ensures LockNeeds(a) == LockNeeds(b)
  {
    LocksCovered(a, signed);
    LocksCovered(b, signed);
    PresenceAgrees(a, b, LOCK_MODE, ["s3:PutObjectRetention"], signed);
    PresenceAgrees(a, b, RETAIN_UNTIL, ["s3:PutObjectRetention"], signed);
    PresenceAgrees(a, b, LEGAL_HOLD, ["s3:PutObjectLegalHold"], signed);
  }

  lemma TaggedAgree(a: map<string, string>, b: map<string, string>, signed: set<string>)
    requires forall n :: n in signed ==> HeaderValue(a, n) == HeaderValue(b, n)
    requires AllCovered(Needs(PutObject, a), signed) && AllCovered(Needs(PutObject, b), signed)
    ensures Needs(PutObject, a) == Needs(PutObject, b)
  {
    CoveredParts(LockNeeds(a), If(HeaderValue(a, TAGGING).Some?, TAGGING, ["s3:PutObjectTagging"]), signed);
    CoveredParts(LockNeeds(b), If(HeaderValue(b, TAGGING).Some?, TAGGING, ["s3:PutObjectTagging"]), signed);
    LocksAgree(a, b, signed);
    PresenceAgrees(a, b, TAGGING, ["s3:PutObjectTagging"], signed);
  }

  lemma CopyAgree(a: map<string, string>, b: map<string, string>, signed: set<string>)
    requires forall n :: n in signed ==> HeaderValue(a, n) == HeaderValue(b, n)
    requires AllCovered(Needs(CopyObject, a), signed) && AllCovered(Needs(CopyObject, b), signed)
    ensures Needs(CopyObject, a) == Needs(CopyObject, b)
  {
    CopyCovered(a, signed);
    CopyCovered(b, signed);
    LocksAgree(a, b, signed);
  }

  lemma CopyCovered(headers: map<string, string>, signed: set<string>)
    requires AllCovered(Needs(CopyObject, headers), signed)
    ensures AllCovered(LockNeeds(headers), signed)
    ensures Replaces(headers) ==> TAGGING_DIRECTIVE in signed
    ensures Replaces(headers) && HeaderValue(headers, TAGGING).Some? ==> TAGGING in signed
  {
    var directive := If(Replaces(headers), TAGGING_DIRECTIVE, ["s3:PutObjectTagging"]);
    var tags := If(Replaces(headers) && HeaderValue(headers, TAGGING).Some?, TAGGING, []);
    CoveredParts(LockNeeds(headers) + directive, tags, signed);
    CoveredParts(LockNeeds(headers), directive, signed);
    assert Replaces(headers) ==> Need(TAGGING_DIRECTIVE, ["s3:PutObjectTagging"]) in directive;
    assert Replaces(headers) && HeaderValue(headers, TAGGING).Some? ==> Need(TAGGING, []) in tags;
  }

  lemma NeedSigned(op: Operation, headers: map<string, string>, signed: set<string>)
    requires forall n :: n in NeededHeaders(Needs(op, headers)) ==> n in signed
    ensures AllCovered(Needs(op, headers), signed)
  {
    forall n | n in Needs(op, headers) ensures n.header in signed {
      var i :| 0 <= i < |Needs(op, headers)| && Needs(op, headers)[i] == n;
      assert NeededHeaders(Needs(op, headers))[i] in NeededHeaders(Needs(op, headers));
    }
  }
}
