/** Bucket policy evaluation (pkg/bucketpolicy/bucketpolicy.go). The document
    is a sequence of statements; its lists are sets. */
module BucketPolicy {
  import opened Common
  import opened Order

  /** The principal that stands for every principal. */
  const WILDCARD: PrincipalId := "*"
  /** The action that stands for every policy action. */
  const POLICY_WILDCARD := "s3:*"
  /** The actions a policy may grant; every theorem holds for any such set. */
  const POLICY_ACTIONS: set<string>

  datatype Effect = Allow | Deny

  datatype Statement = Statement(
    sid: string,
    effect: Effect,
    principal: set<PrincipalId>,
    actions: set<string>,
    resources: set<string>)
  {
    predicate All() { WILDCARD in principal }

    /** The statement applies to p. The wildcard is never a principal. */
    predicate Names(p: PrincipalId) { p != WILDCARD && (All() || p in principal) }

    /** A wildcard statement's stray ids carry no meaning and are not stored. */
    function Normal(): Statement {
      if All() then this.(principal := {WILDCARD}) else this
    }
  }

  datatype Document = Document(version: string, statements: seq<Statement>)

  function Expand(actions: set<string>): set<string> {
    if POLICY_WILDCARD in actions then actions - {POLICY_WILDCARD} + POLICY_ACTIONS else actions
  }

  function ActionsOf(sts: seq<Statement>, e: Effect, p: PrincipalId): set<string> {
    set st, a | st in sts && st.effect == e && st.Names(p) && a in Expand(st.actions) :: a
  }

  /** What p holds under d: an allow statement applies and no deny does. */
  function EffectiveSet(d: Option<Document>, p: PrincipalId): (r: set<string>)
    ensures p == WILDCARD ==> r == {}
  {
    if d.None? then {}
    else ActionsOf(d.value.statements, Allow, p) - ActionsOf(d.value.statements, Deny, p)
  }

  /** The statement applies to p and covers a: it lists a, or lists the wildcard
      and a is a policy action. */
  ghost predicate Touches(st: Statement, p: PrincipalId, a: string) {
    && ("*" in st.principal || p in st.principal)
    && ((a != "s3:*" && a in st.actions) || ("s3:*" in st.actions && a in POLICY_ACTIONS))
  }

  /** Allowed by some statement, denied by none. */
  ghost predicate Permits(d: Document, p: PrincipalId, a: string) {
    && p != WILDCARD
    && (exists st :: st in d.statements && st.effect == Allow && Touches(st, p, a))
    && (forall st :: st in d.statements && st.effect == Deny ==> !Touches(st, p, a))
  }

  /** Access, action by action. */
  lemma EffectiveMeans(d: Option<Document>, p: PrincipalId, a: string)
    ensures a in EffectiveSet(d, p) <==> d.Some? && Permits(d.value, p, a)
  {
    if d.Some? {
      forall st | st in d.value.statements && p != WILDCARD
        ensures Touches(st, p, a) <==> st.Names(p) && a in Expand(st.actions)
      {}
    }
  }

  /** One more deny takes away exactly what it touches, whatever else is allowed. */
  lemma DenyPrevails(d: Document, st: Statement, p: PrincipalId, a: string)
    requires st.effect == Deny
    ensures a in EffectiveSet(Some(d.(statements := d.statements + [st])), p) <==>
      a in EffectiveSet(Some(d), p) && !Touches(st, p, a)
  {
    AppendedStatements(d, st, p, a);
  }

  /** One more allow adds exactly what it touches and no deny does. */
  lemma AllowAdds(d: Document, st: Statement, p: PrincipalId, a: string)
    requires st.effect == Allow && p != WILDCARD
    ensures a in EffectiveSet(Some(d.(statements := d.statements + [st])), p) <==>
      || a in EffectiveSet(Some(d), p)
      || (Touches(st, p, a) && forall o :: o in d.statements && o.effect == Deny ==> !Touches(o, p, a))
  {
    AppendedStatements(d, st, p, a);
  }

  lemma AppendedStatements(d: Document, st: Statement, p: PrincipalId, a: string)
    ensures forall o :: o in (d.statements + [st]) <==> o in d.statements || o == st
    ensures var e := d.(statements := d.statements + [st]);
      a in EffectiveSet(Some(e), p) <==>
        && p != WILDCARD
        && (exists o :: o in e.statements && o.effect == Allow && Touches(o, p, a))
        && (forall o :: o in e.statements && o.effect == Deny ==> !Touches(o, p, a))
    ensures a in EffectiveSet(Some(d), p) <==>
        && p != WILDCARD
        && (exists o :: o in d.statements && o.effect == Allow && Touches(o, p, a))
        && (forall o :: o in d.statements && o.effect == Deny ==> !Touches(o, p, a))
  {
    EffectiveMeans(Some(d), p, a);
    EffectiveMeans(Some(d.(statements := d.statements + [st])), p, a);
  }

  function NamedSet(d: Document): set<PrincipalId> {
    set st, p | st in d.statements && !st.All() && p in st.principal :: p
  }

  predicate HasWildcard(d: Document) {
    exists st :: st in d.statements && st.All()
  }

  /** The principal index lists d for p. */
  predicate Indexed(d: Document, p: PrincipalId) {
    HasWildcard(d) || p in NamedSet(d)
  }

  /** The strong entity tag. The stored tag hashes the canonical document, the
      version and the set of its normalised statements; the model keeps what is
      hashed, so equal tags mean equal content. */
  datatype Tag = Tag(version: string, statements: set<Statement>)

  function ETag(d: Document): Tag {
    Tag(d.version, set st | st in d.statements :: st.Normal())
  }

  function TagOf(d: Option<Document>): Option<Tag> {
    if d.None? then None else Some(ETag(d.value))
  }

  /** The document as stored: normalised and without repeated statements. The
      stored order is by content identifier; nothing below depends on it. */
  function Canonical(d: Document): (r: Document)
    ensures ETag(r) == ETag(d)
    ensures Once(r.statements)
    ensures forall st :: st in r.statements && WILDCARD in st.principal ==> st.principal == {WILDCARD}
  {
    NormalisedHas(d.statements);
    NormalisedOnce(d.statements);
    var r := Document(d.version, Normalised(d.statements));
    assert ETag(r).statements == ETag(d).statements;
    r
  }

  function Normalised(sts: seq<Statement>): seq<Statement> {
    if sts == [] then []
    else
      var rest := Normalised(sts[1..]);
      if sts[0].Normal() in rest then rest else [sts[0].Normal()] + rest
  }

  lemma {:induction false} NormalisedHas(sts: seq<Statement>)
    ensures forall st :: st in Normalised(sts) ==> st.Normal() == st && exists o :: o in sts && o.Normal() == st
    ensures forall o :: o in sts ==> o.Normal() in Normalised(sts)
  {
    if sts != [] {
      NormalisedHas(sts[1..]);
      assert sts[0] in sts;
      forall o | o in sts[1..] ensures o in sts {}
    }
  }

  ghost predicate Once(sts: seq<Statement>) {
    forall i, j :: 0 <= i < j < |sts| ==> sts[i] != sts[j]
  }

  lemma {:induction false} NormalisedOnce(sts: seq<Statement>)
    ensures Once(Normalised(sts))
  {
    if sts != [] {
      NormalisedOnce(sts[1..]);
      var rest := Normalised(sts[1..]);
      forall i, j | 0 <= i < j < |Normalised(sts)| ensures Normalised(sts)[i] != Normalised(sts)[j] {
        assert Normalised(sts) == rest || Normalised(sts) == [sts[0].Normal()] + rest;
      }
    }
  }

  // ---------------------------------------------------------------- evaluation

  /** The evaluation loop: fill the allowed and denied sets, keep what is
      allowed and not denied, sort. */
  method Effective(d: Option<Document>, p: PrincipalId) returns (out: seq<string>)
    ensures StrictlySorted(out)
    ensures forall a :: a in out <==> a in EffectiveSet(d, p)
    ensures forall a :: a in out <==>
      && d.Some? && p != WILDCARD
      && (exists st :: st in d.value.statements && st.effect == Allow && Touches(st, p, a))
      && (forall st :: st in d.value.statements && st.effect == Deny ==> !Touches(st, p, a))
  {
    forall a { EffectiveMeans(d, p, a); }
    if d.None? { return []; }
    var sts := d.value.statements;
    var allowed: set<string>, denied: set<string> := {}, {};
    for i := 0 to |sts|
      invariant allowed == ActionsOf(sts[..i], Allow, p)
      invariant denied == ActionsOf(sts[..i], Deny, p)
    {
      var st := sts[i];
      assert sts[..i + 1] == sts[..i] + [st];
      if st.Names(p) {
        if st.effect == Deny {
          denied := denied + Expand(st.actions);
        } else {
          allowed := allowed + Expand(st.actions);
        }
      }
    }
    assert sts[..|sts|] == sts;
    out := [];
    var rest := allowed;
    while rest != {}
      invariant rest <= allowed
      invariant forall i, j :: 0 <= i < j < |out| ==> out[i] != out[j]
      invariant forall a :: a in out <==> a in allowed - rest && a !in denied
      decreases rest
    {
      var a :| a in rest;
      rest := rest - {a};
      if a !in denied { out := out + [a]; }
    }
    SortOfDistinct(out);
    out := Sort(out);
  }

  /** The principals the document names, and whether a statement names all. */
  method Named(d: Document) returns (principals: seq<PrincipalId>, wildcard: bool)
    ensures StrictlySorted(principals)
    ensures forall p :: p in principals <==> p in NamedSet(d)
    ensures forall p :: p in principals <==>
      exists st :: st in d.statements && WILDCARD !in st.principal && p in st.principal
    ensures wildcard <==> HasWildcard(d)
    ensures wildcard <==> exists st :: st in d.statements && WILDCARD in st.principal
  {
    var sts := d.statements;
    var seen: set<PrincipalId> := {};
    principals, wildcard := [], false;
    for i := 0 to |sts|
      invariant forall p :: p in principals <==> p in seen
      invariant seen == NamedSet(Document(d.version, sts[..i]))
      invariant forall a, b :: 0 <= a < b < |principals| ==> principals[a] != principals[b]
      invariant wildcard <==> HasWildcard(Document(d.version, sts[..i]))
    {
      var st := sts[i];
      ghost var before := Document(d.version, sts[..i]);
      ghost var after := Document(d.version, sts[..i + 1]);
      assert sts[..i + 1] == sts[..i] + [st];
      assert st in after.statements;
      if st.All() {
        wildcard := true;
      } else {
        var rest := st.principal;
        while rest != {}
          invariant rest <= st.principal
          invariant seen == NamedSet(before) + (st.principal - rest)
          invariant forall p :: p in principals <==> p in seen
          invariant forall a, b :: 0 <= a < b < |principals| ==> principals[a] != principals[b]
          decreases rest
        {
          var p :| p in rest;
          rest := rest - {p};
          if p !in seen {
            seen := seen + {p};
            principals := principals + [p];
          }
        }
        assert HasWildcard(after) ==> HasWildcard(before);
      }
      assert NamedSet(after) == NamedSet(before) + (if st.All() then {} else st.principal);
    }
    assert sts[..|sts|] == sts;
    SortOfDistinct(principals);
    principals := Sort(principals);
  }

  // ----------------------------------------------------------------- validation

  /** Whether a document is well formed, and the bucket a resource's ARN names:
      libforge's, and every theorem holds for any such functions. */
  const WELL_FORMED: Document -> bool
  const ARN_BUCKET: string -> string

  /** The statement's resources name the bucket, and the principals it names
      exist. */
  predicate Fits(st: Statement, bucket: string, tenant: set<PrincipalId>) {
    && (forall r :: r in st.resources ==> ARN_BUCKET(r) == bucket)
    && (!st.All() ==> forall p :: p in st.principal ==> p != "" && p in tenant)
  }

  /** d may be stored as the policy of the bucket. */
  ghost predicate Storable(d: Document, bucket: string, tenant: set<PrincipalId>) {
    WELL_FORMED(d) && forall st :: st in d.statements ==> Fits(st, bucket, tenant)
  }

  /** Validate, statement by statement. A storable document names only principals
      of the tenant. */
  method Validate(d: Document, bucket: string, tenant: set<PrincipalId>) returns (ok: bool)
    ensures ok <==> Storable(d, bucket, tenant)
    ensures ok <==>
      && WELL_FORMED(d)
      && (forall st :: st in d.statements ==> forall r :: r in st.resources ==> ARN_BUCKET(r) == bucket)
      && (forall st :: st in d.statements && WILDCARD !in st.principal ==> forall p :: p in st.principal ==> p in tenant - {""})
    ensures ok ==> NamedSet(d) <= tenant - {""}
  {
    if !WELL_FORMED(d) { return false; }
    for i := 0 to |d.statements|
      invariant forall j :: 0 <= j < i ==> Fits(d.statements[j], bucket, tenant)
    {
      var st := d.statements[i];
      assert st in d.statements;
      if r :| r in st.resources && ARN_BUCKET(r) != bucket { return false; }
      if st.All() { continue; }
      if p :| p in st.principal && (p == "" || p !in tenant) { return false; }
    }
    ok := true;
  }

  // ------------------------------------------------------------ meaning of a tag

  /** Statement order, repeats and stray wildcard ids do not change what a
      document means: equal tags give every principal the same actions and index
      the same principals. */
  lemma SameTagSameMeaning(d: Document, e: Document, p: PrincipalId)
    requires ETag(d) == ETag(e)
    ensures EffectiveSet(Some(d), p) == EffectiveSet(Some(e), p)
    ensures NamedSet(d) == NamedSet(e) && (HasWildcard(d) <==> HasWildcard(e))
  {
    TagCovers(d, e, p);
    TagCovers(e, d, p);
  }

  lemma TagCovers(d: Document, e: Document, p: PrincipalId)
    requires ETag(d) == ETag(e)
    ensures forall k :: ActionsOf(d.statements, k, p) <= ActionsOf(e.statements, k, p)
    ensures NamedSet(d) <= NamedSet(e)
    ensures HasWildcard(d) ==> HasWildcard(e)
  {
    forall st | st in d.statements
      ensures exists o :: o in e.statements && o.Normal() == st.Normal()
    {
      assert st.Normal() in ETag(d).statements;
      assert st.Normal() in ETag(e).statements;
    }
    forall k, a | a in ActionsOf(d.statements, k, p) ensures a in ActionsOf(e.statements, k, p) {
      var st :| st in d.statements && st.effect == k && st.Names(p) && a in Expand(st.actions);
      var o :| o in e.statements && o.Normal() == st.Normal();
      assert o.effect == k && o.Names(p) && o.actions == st.actions;
    }
    forall q | q in NamedSet(d) ensures q in NamedSet(e) {
      var st :| st in d.statements && !st.All() && q in st.principal;
      var o :| o in e.statements && o.Normal() == st.Normal();
      assert !o.All() && o.principal == st.principal;
    }
    if HasWildcard(d) {
      var st :| st in d.statements && st.All();
      var o :| o in e.statements && o.Normal() == st.Normal();
      assert o.All();
    }
  }

  /** One statement stands for another: they differ at most in the ids a wildcard
      makes meaningless. */
  ghost predicate Alike(s: Statement, t: Statement) {
    && s.sid == t.sid && s.effect == t.effect && s.actions == t.actions && s.resources == t.resources
    && (s.principal == t.principal || (WILDCARD in s.principal && WILDCARD in t.principal))
  }

  ghost predicate Covered(d: Document, e: Document) {
    forall s :: s in d.statements ==> exists t :: t in e.statements && Alike(s, t)
  }

  lemma AlikeMeans(s: Statement, t: Statement)
    ensures Alike(s, t) <==> s.Normal() == t.Normal()
  {}

  lemma TagCovered(d: Document, e: Document)
    requires ETag(d) == ETag(e)
    ensures Covered(d, e)
  {
    forall s | s in d.statements ensures exists t :: t in e.statements && Alike(s, t) {
      assert s.Normal() in ETag(e).statements by { assert s.Normal() in ETag(d).statements; }
      var t :| t in e.statements && t.Normal() == s.Normal();
      AlikeMeans(s, t);
    }
  }

  lemma CoveredTag(d: Document, e: Document)
    requires Covered(d, e)
    ensures ETag(d).statements <= ETag(e).statements
  {
    forall s | s in d.statements ensures s.Normal() in ETag(e).statements {
      var t :| t in e.statements && Alike(s, t);
      AlikeMeans(s, t);
    }
  }

  /** Two documents have one tag exactly if they have one version and each
      statement of either stands for one of the other's. */
  lemma SameTagMeans(d: Document, e: Document)
    ensures ETag(d) == ETag(e) <==> d.version == e.version && Covered(d, e) && Covered(e, d)
  {
    if ETag(d) == ETag(e) {
      TagCovered(d, e);
      TagCovered(e, d);
    }
    if Covered(d, e) && Covered(e, d) {
      CoveredTag(d, e);
      CoveredTag(e, d);
    }
  }

  /** Reordering or repeating statements leaves the tag alone. */
  lemma PermutedSameTag(d: Document, e: Document)
    requires d.version == e.version
    requires forall st :: st in d.statements <==> st in e.statements
    ensures ETag(d) == ETag(e)
  {
    assert ETag(d).statements == ETag(e).statements;
  }

  /** A bucket whose policy gives p anything is listed for p. */
  lemma EffectiveIsIndexed(d: Document, p: PrincipalId)
    ensures EffectiveSet(Some(d), p) != {} ==> Indexed(d, p)
    ensures p != WILDCARD ==> (Indexed(d, p) <==> exists st :: st in d.statements && st.Names(p))
  {
    if EffectiveSet(Some(d), p) != {} {
      var a :| a in EffectiveSet(Some(d), p);
      var st :| st in d.statements && st.effect == Allow && st.Names(p) && a in Expand(st.actions);
      assert st.All() || p in NamedSet(d);
    }
    if p != WILDCARD && Indexed(d, p) {
      if HasWildcard(d) {
        var st :| st in d.statements && st.All();
        assert st.Names(p);
      } else {
        var st :| st in d.statements && !st.All() && p in st.principal;
        assert st.Names(p);
      }
    }
    if st :| st in d.statements && st.Names(p) {
      assert st.All() || p in NamedSet(d);
    }
  }

  // --------------------------------------------------------------- who changed

  /** The principals either policy could reach, among the tenant's. */
  function Candidates(d: Option<Document>, tenant: set<PrincipalId>): set<PrincipalId> {
    if d.None? then {}
    else NamedSet(d.value) + (if HasWildcard(d.value) then tenant else {})
  }

  function ChangedSet(was: Option<Document>, now: Option<Document>, tenant: set<PrincipalId>): set<PrincipalId> {
    set p | p in Candidates(was, tenant) + Candidates(now, tenant) && EffectiveSet(was, p) != EffectiveSet(now, p)
  }

  /** For every principal the tenant lists, being reported is the same as
      having different access before and after. */
  lemma ChangedIsExact(was: Option<Document>, now: Option<Document>, tenant: set<PrincipalId>, p: PrincipalId)
    requires p in tenant
    ensures p in ChangedSet(was, now, tenant) <==> EffectiveSet(was, p) != EffectiveSet(now, p)
  {
    if EffectiveSet(was, p) != EffectiveSet(now, p) {
      if was.Some? { EffectiveIsIndexed(was.value, p); }
      if now.Some? { EffectiveIsIndexed(now.value, p); }
    }
  }

  /** Some statement that is not for everyone names p. */
  ghost predicate Mentions(d: Option<Document>, p: PrincipalId) {
    d.Some? && exists st :: st in d.value.statements && WILDCARD !in st.principal && p in st.principal
  }

  lemma ChangedMeans(was: Option<Document>, now: Option<Document>, tenant: set<PrincipalId>, p: PrincipalId)
    ensures p in ChangedSet(was, now, tenant) <==>
      EffectiveSet(was, p) != EffectiveSet(now, p) && (p in tenant || Mentions(was, p) || Mentions(now, p))
  {
    if p in tenant { ChangedIsExact(was, now, tenant, p); }
    assert was.Some? ==> (p in NamedSet(was.value) <==> Mentions(was, p));
    assert now.Some? ==> (p in NamedSet(now.value) <==> Mentions(now, p));
  }

  method Changed(was: Option<Document>, now: Option<Document>, tenantPrincipals: seq<PrincipalId>)
    returns (out: seq<PrincipalId>)
    ensures StrictlySorted(out)
    ensures forall p :: p in out <==> p in ChangedSet(was, now, set q | q in tenantPrincipals)
    ensures forall p :: p in out <==>
      EffectiveSet(was, p) != EffectiveSet(now, p) && (p in tenantPrincipals || Mentions(was, p) || Mentions(now, p))
  {
    forall p { ChangedMeans(was, now, (set q | q in tenantPrincipals), p); }
    ghost var tenant := set q | q in tenantPrincipals;
    var docs := [was, now];
    var candidates: set<PrincipalId> := {};
    for i := 0 to 2
      invariant candidates == (if i > 0 then Candidates(was, tenant) else {}) + (if i > 1 then Candidates(now, tenant) else {})
    {
      if docs[i].Some? {
        var named, wildcard := Named(docs[i].value);
        candidates := candidates + set p | p in named;
        if wildcard { candidates := candidates + set p | p in tenantPrincipals; }
      }
    }
    out := [];
    var rest := candidates;
    while rest != {}
      invariant rest <= candidates
      invariant forall i, j :: 0 <= i < j < |out| ==> out[i] != out[j]
      invariant forall p :: p in out <==> p in candidates - rest && EffectiveSet(was, p) != EffectiveSet(now, p)
      decreases rest
    {
      var p :| p in rest;
      rest := rest - {p};
      var before := Effective(was, p);
      var after := Effective(now, p);
      assert EffectiveSet(was, p) == EffectiveSet(now, p) ==> before == after by {
        if EffectiveSet(was, p) == EffectiveSet(now, p) { StrictUnique(before, after); }
      }
      assert before == after ==> EffectiveSet(was, p) == EffectiveSet(now, p);
      if before != after { out := out + [p]; }
    }
    SortOfDistinct(out);
    out := Sort(out);
  }

  // ---------------------------------------------------------- removing a principal

  function StripOne(st: Statement, p: PrincipalId): seq<Statement> {
    if p in st.principal && !st.All() then
      if st.principal - {p} == {} then [] else [st.(principal := st.principal - {p})]
    else [st]
  }

  function Strip(sts: seq<Statement>, p: PrincipalId): seq<Statement> {
    if sts == [] then [] else StripOne(sts[0], p) + Strip(sts[1..], p)
  }

  function StripDocument(d: Document, p: PrincipalId): Document {
    Document(d.version, Strip(d.statements, p))
  }

  /** What is left of st without p: the statement with its other principals, or
      nothing when it named p alone. */
  ghost predicate LeftOf(st: Statement, p: PrincipalId, t: Statement) {
    if WILDCARD in st.principal || p !in st.principal then t == st
    else t == st.(principal := st.principal - {p}) && t.principal != {}
  }

  lemma StripNext(out: seq<Statement>, sts: seq<Statement>, i: nat, p: PrincipalId)
    requires i < |sts|
    ensures out + Strip(sts[i..], p) == (out + StripOne(sts[i], p)) + Strip(sts[i + 1..], p)
    ensures out + [] == out
  {
    assert sts[i..][1..] == sts[i + 1..];
  }

  method RemovePrincipal(d: Document, p: PrincipalId) returns (r: Document, changed: bool)
    ensures r == StripDocument(d, p)
    ensures changed <==> p in NamedSet(d)
    ensures changed <==> exists st :: st in d.statements && WILDCARD !in st.principal && p in st.principal
    ensures r.version == d.version
    ensures forall t :: t in r.statements <==> exists st :: st in d.statements && LeftOf(st, p, t)
  {
    StripContents(d.statements, p);
    forall st, t ensures LeftOf(st, p, t) <==> t in StripOne(st, p) {}
    var out: seq<Statement> := [];
    changed := false;
    for i := 0 to |d.statements|
      invariant out + Strip(d.statements[i..], p) == Strip(d.statements, p)
      invariant changed <==> exists j :: 0 <= j < i && p in d.statements[j].principal && !d.statements[j].All()
    {
      var st := d.statements[i];
      StripNext(out, d.statements, i, p);
      if p in st.principal && !st.All() {
        changed := true;
        var ids := st.principal - {p};
        if ids == {} { continue; }
        st := st.(principal := ids);
      }
      out := out + [st];
    }
    assert out + [] == out;
    r := Document(d.version, out);
  }

  /** What stripping leaves: each surviving statement is an original one, without
      p unless it names everyone; each original that named anyone else survives. */
  lemma {:induction false} StripContents(sts: seq<Statement>, p: PrincipalId)
    ensures forall t :: t in Strip(sts, p) <==> exists st :: st in sts && t in StripOne(st, p)
  {
    if sts != [] {
      StripContents(sts[1..], p);
      assert sts[0] in sts;
      forall st | st in sts ensures st == sts[0] || st in sts[1..] {}
    }
  }

  /** Stripping p leaves every other principal's access as it was. */
  lemma StripPreservesOthers(d: Document, p: PrincipalId, q: PrincipalId)
    requires q != p
    ensures EffectiveSet(Some(StripDocument(d, p)), q) == EffectiveSet(Some(d), q)
    ensures Strip(d.statements, p) == [] ==> EffectiveSet(Some(d), q) == {}
  {
    var s := Strip(d.statements, p);
    StripContents(d.statements, p);
    forall e ensures ActionsOf(s, e, q) == ActionsOf(d.statements, e, q) {
      forall a | a in ActionsOf(d.statements, e, q) ensures a in ActionsOf(s, e, q) {
        var st :| st in d.statements && st.effect == e && st.Names(q) && a in Expand(st.actions);
        if p in st.principal && !st.All() {
          assert q in st.principal - {p};
          var t := st.(principal := st.principal - {p});
          assert t in StripOne(st, p) && t in s && t.Names(q);
        } else {
          assert st in StripOne(st, p) && st in s;
        }
      }
      forall a | a in ActionsOf(s, e, q) ensures a in ActionsOf(d.statements, e, q) {
        var t :| t in s && t.effect == e && t.Names(q) && a in Expand(t.actions);
        var st :| st in d.statements && t in StripOne(st, p);
        assert st.effect == e && st.Names(q) && st.actions == t.actions;
      }
    }
  }

  lemma StripNames(d: Document, p: PrincipalId, q: PrincipalId)
    ensures q in NamedSet(StripDocument(d, p)) <==> q in NamedSet(d) && q != p
  {
    var s := Strip(d.statements, p);
    StripContents(d.statements, p);
    if q in NamedSet(StripDocument(d, p)) {
      var t :| t in s && !t.All() && q in t.principal;
      var st :| st in d.statements && t in StripOne(st, p);
      assert !st.All() && q in st.principal;
    }
    if q in NamedSet(d) && q != p {
      var st :| st in d.statements && !st.All() && q in st.principal;
      if p in st.principal {
        var t := st.(principal := st.principal - {p});
        assert q in t.principal && !t.All();
        assert t in StripOne(st, p) && t in s;
      } else {
        assert st in StripOne(st, p) && st in s;
      }
    }
  }

  lemma StripWildcard(d: Document, p: PrincipalId)
    ensures HasWildcard(StripDocument(d, p)) <==> HasWildcard(d)
  {
    var s := Strip(d.statements, p);
    StripContents(d.statements, p);
    if HasWildcard(d) {
      var st :| st in d.statements && st.All();
      assert st in StripOne(st, p) && st in s;
    }
    if HasWildcard(StripDocument(d, p)) {
      var t :| t in s && t.All();
      var st :| st in d.statements && t in StripOne(st, p);
      assert st.All();
    }
  }

  /** Stripping p leaves only wildcard statements applying to it, and names no
      one new. */
  lemma StripLeavesWildcard(d: Document, p: PrincipalId)
    ensures NamedSet(StripDocument(d, p)) == NamedSet(d) - {p}
    ensures HasWildcard(StripDocument(d, p)) <==> HasWildcard(d)
    ensures forall st :: st in StripDocument(d, p).statements && st.Names(p) ==> st.All()
  {
    var r := StripDocument(d, p);
    StripWildcard(d, p);
    forall q ensures q in NamedSet(r) <==> q in NamedSet(d) - {p} { StripNames(d, p, q); }
    StripNames(d, p, p);
    forall st | st in r.statements && st.Names(p) ensures st.All() {
      assert p in st.principal && !st.All() ==> p in NamedSet(r);
    }
  }

  lemma {:induction false} StripDistributes(a: seq<Statement>, b: seq<Statement>, p: PrincipalId)
    ensures Strip(a + b, p) == Strip(a, p) + Strip(b, p)
  {
    if a == [] {
      assert a + b == b;
    } else {
      assert (a + b)[1..] == a[1..] + b;
      StripDistributes(a[1..], b, p);
    }
  }

  /** Removing two principals in either order gives the same document; removing
      one twice is removing it once. */
  lemma {:induction false} StripCommutes(sts: seq<Statement>, p: PrincipalId, q: PrincipalId)
    ensures Strip(Strip(sts, p), q) == Strip(Strip(sts, q), p)
    ensures p == q ==> Strip(Strip(sts, p), q) == Strip(sts, p)
  {
    if sts != [] {
      var st := sts[0];
      StripCommutes(sts[1..], p, q);
      StripDistributes(StripOne(st, p), Strip(sts[1..], p), q);
      StripDistributes(StripOne(st, q), Strip(sts[1..], q), p);
      StripSingle(st, p, q);
    }
  }

  lemma StripSingle(st: Statement, p: PrincipalId, q: PrincipalId)
    ensures Strip(StripOne(st, p), q) == Strip(StripOne(st, q), p)
    ensures p == q ==> Strip(StripOne(st, p), q) == StripOne(st, p)
  {
    assert st.principal - {p} - {q} == st.principal - {q} - {p};
    assert p !in st.principal ==> st.principal - {p} == st.principal;
    assert q !in st.principal ==> st.principal - {q} == st.principal;
  }
}
