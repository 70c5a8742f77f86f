/** What the protocol's calls achieve: begun while no other call is in flight, each
    can run to its end and do what it is for. The safety theorems say what a call
    never does; these, that its guards do not keep it from doing its work. */
module ProtocolProgress {
  import opened Common
  import opened BucketPolicy
  import opened Permissions
  import opened Delegations
  import opened Protocol
  import opened ProtocolInvariant
  import opened ProtocolLocks
  import opened ProtocolQuiet
  import opened ProtocolCommits
  import opened ProtocolSafety
  import opened ProtocolTables
  import opened ProtocolHistory
  import opened ProtocolConservation

  // -------------------------------------------------------------- a call's steps

  /** Call id takes es, one after the other. */
  ghost predicate Plays(s: State, id: nat, es: seq<Event>)
    decreases |es|
  {
    es == [] || (Can(s, id, es[0]) && !es[0].Fail? && Plays(Do(s, id, es[0]), id, es[1..]))
  }

  function Play(s: State, id: nat, es: seq<Event>): State
    decreases |es|
  {
    if es == [] then s else Play(Do(s, id, es[0]), id, es[1..])
  }

  /** Steps of call id alone, none of them failing, lead from s to n. */
  ghost predicate Leads(s: State, id: nat, n: State) {
    exists es :: Plays(s, id, es) && Play(s, id, es) == n
  }

  lemma {:induction false} PlayJoins(s: State, id: nat, a: seq<Event>, b: seq<Event>)
    requires Plays(s, id, a) && Plays(Play(s, id, a), id, b)
    ensures Plays(s, id, a + b) && Play(s, id, a + b) == Play(Play(s, id, a), id, b)
    decreases |a|
  {
    if a == [] {
      assert a + b == b;
    } else {
      assert (a + b)[0] == a[0] && (a + b)[1..] == a[1..] + b;
      PlayJoins(Do(s, id, a[0]), id, a[1..], b);
    }
  }

  lemma Leading(s: State, id: nat, m: State, n: State)
    requires Leads(s, id, m) && Leads(m, id, n)
    ensures Leads(s, id, n)
  {
    var a :| Plays(s, id, a) && Play(s, id, a) == m;
    var b :| Plays(m, id, b) && Play(m, id, b) == n;
    PlayJoins(s, id, a, b);
  }

  lemma Stays(s: State, id: nat)
    ensures Leads(s, id, s)
  {
    assert Plays(s, id, []) && Play(s, id, []) == s;
  }

  lemma Goes(s: State, id: nat, e: Event)
    requires Can(s, id, e) && !e.Fail?
    ensures Leads(s, id, Do(s, id, e))
  {
    var es := [e];
    assert es[0] == e && es[1..] == [];
    assert Play(Do(s, id, e), id, []) == Do(s, id, e) && Plays(Do(s, id, e), id, []);
    assert Plays(s, id, es);
    assert Play(s, id, es) == Play(Do(s, id, es[0]), id, es[1..]);
    assert Plays(s, id, [e]) && Play(s, id, [e]) == Do(s, id, e);
  }

  /** The tables of s, with call id alone in flight, at c. */
  function Only(s: State, id: nat, c: Call): State {
    s.(calls := map[id := c])
  }

  lemma NoneBlocks(s: State, id: nat, c: Call)
    ensures forall l, m :: Free(Only(s, id, c), id, l, m)
  {}

  lemma Begins(s: State, id: nat, c: Call)
    requires s.calls == map[] && CanBegin(s, c)
    ensures Leads(s, id, Started(s, id, c))
  {
    Goes(s, id, Begin(c));
  }

  // ---------------------------------------------------------------- policy writes

  lemma WriteGoes(s: State, id: nat, w: Write, e: Event)
    requires WriteCan(Only(s, id, Writing(w)), id, w, e) && !e.Begin? && !e.Fail? && !e.CommitWrite?
    ensures var t := if e.Announce? then s.(revoked := s.revoked + Links(Unexpired(Replaced(s, w), e.now))) else s;
      Leads(Only(s, id, Writing(w)), id, Only(t, id, Writing(WriteDo(Only(s, id, Writing(w)), w, e))))
  {
    var start := Only(s, id, Writing(w));
    WriteNext(start, w, e);
    OnlyDo(s, id, Writing(w), e, Writing(WriteDo(start, w, e)));
    WriteMay(start, id, w, e);
    Goes(start, id, e);
  }

  lemma WriteMay(s: State, id: nat, w: Write, e: Event)
    requires id in s.calls && s.calls[id] == Writing(w) && WriteCan(s, id, w, e) && !e.Begin? && !e.Fail? && !e.CommitWrite?
    ensures Can(s, id, e)
  {}

  lemma WriteNext(s: State, w: Write, e: Event)
    requires !e.CommitWrite?
    ensures NextCall(s, Writing(w), e) == Some(Writing(WriteDo(s, w, e)))
    ensures Tables(s, Writing(w), e) == if e.Announce? then s.(revoked := s.revoked + Links(Unexpired(Replaced(s, w), e.now))) else s
  {}

  lemma OnlyDo(s: State, id: nat, c: Call, e: Event, d: Call)
    requires !e.Begin? && !e.Fail? && NextCall(Only(s, id, c), c, e) == Some(d)
    ensures Do(Only(s, id, c), id, e) == Tables(Only(s, id, c), c, e).(calls := map[id := d])
  {
    assert Only(s, id, c).calls[id := d] == map[id := d];
  }


  lemma {:induction false} ChecksAll(s: State, id: nat, w: Write, todo: set<PrincipalId>)
    requires w.stage == TENANT && w.doc.Some? && todo <= NamedSet(w.doc.value) * s.live && todo !! w.checked
    ensures Leads(Only(s, id, Writing(w)), id, Only(s, id, Writing(w.(checked := w.checked + todo))))
    decreases todo
  {
    NoneBlocks(s, id, Writing(w));
    if todo == {} {
      assert w.checked + todo == w.checked;
      Stays(Only(s, id, Writing(w)), id);
    } else {
      var p :| p in todo;
      var v := w.(checked := w.checked + {p});
      WriteGoes(s, id, w, CheckNamed(p));
      ChecksAll(s, id, v, todo - {p});
      assert v.checked + (todo - {p}) == w.checked + todo;
      Leading(Only(s, id, Writing(w)), id, Only(s, id, Writing(v)), Only(s, id, Writing(w.(checked := w.checked + todo))));
    }
  }

  lemma {:induction false} LocksRows(s: State, id: nat, w: Write, todo: set<PrincipalId>)
    requires w.stage == AFFECTED && todo <= w.affected * s.live && todo !! w.locked
    ensures Leads(Only(s, id, Writing(w)), id, Only(s, id, Writing(w.(locked := w.locked + todo))))
    decreases todo
  {
    NoneBlocks(s, id, Writing(w));
    if todo == {} {
      assert w.locked + todo == w.locked;
      Stays(Only(s, id, Writing(w)), id);
    } else {
      var p :| p in todo;
      var v := w.(locked := w.locked + {p});
      WriteGoes(s, id, w, LockRow(p));
      LocksRows(s, id, v, todo - {p});
      assert v.locked + (todo - {p}) == w.locked + todo;
      Leading(Only(s, id, Writing(w)), id, Only(s, id, Writing(v)), Only(s, id, Writing(w.(locked := w.locked + todo))));
    }
  }

  lemma {:induction false} LocksKeys(s: State, id: nat, w: Write, todo: set<Did>)
    requires w.stage == LISTED && todo <= w.listed && todo !! w.auds
    ensures Leads(Only(s, id, Writing(w)), id, Only(s, id, Writing(w.(auds := w.auds + todo))))
    decreases todo
  {
    NoneBlocks(s, id, Writing(w));
    if todo == {} {
      assert w.auds + todo == w.auds;
      Stays(Only(s, id, Writing(w)), id);
    } else {
      var k :| k in todo;
      var v := w.(auds := w.auds + {k});
      WriteGoes(s, id, w, LockAudience(k));
      LocksKeys(s, id, v, todo - {k});
      assert v.auds + (todo - {k}) == w.auds + todo;
      Leading(Only(s, id, Writing(w)), id, Only(s, id, Writing(v)), Only(s, id, Writing(w.(auds := w.auds + todo))));
    }
  }

  // -------------------------------------------------------------------- new links

  lemma {:induction false} NewLink(minted: set<string>) returns (link: string)
    ensures link !in minted && forall l :: l in minted ==> |l| < |link|
    decreases minted
  {
    link := "l";
    if minted != {} {
      var l :| l in minted;
      var longer := NewLink(minted - {l});
      link := longer + l + "l";
    }
  }

  /** Each of wanted, under a link of its own that none had. */
  ghost predicate Signed(issued: set<Delegation>, wanted: set<Delegation>, minted: set<string>) {
    && LinksDistinct(issued) && (forall d :: d in issued ==> d.link !in minted && d.(link := "") in wanted)
    && forall w :: w in wanted ==> exists d :: d in issued && d.(link := "") == w
  }

  lemma {:induction false} Signs(wanted: set<Delegation>, minted: set<string>) returns (issued: set<Delegation>)
    requires forall d :: d in wanted ==> d.link == ""
    ensures Signed(issued, wanted, minted)
    decreases wanted
  {
    issued := {};
    if wanted != {} {
      var w :| w in wanted;
      var link := NewLink(minted);
      var rest := Signs(wanted - {w}, minted + {link});
      var d := w.(link := link);
      issued := rest + {d};
      forall x | x in wanted ensures exists y :: y in issued && y.(link := "") == x {
        if x == w {
          assert d in issued && d.(link := "") == x;
        } else {
          assert x in wanted - {w};
          var y :| y in rest && y.(link := "") == x;
          assert y in issued;
        }
      }
    }
  }

  /** What a rotation to doc wants k to hold over b. */
  function WantedOver(s: State, keys: set<Did>, b: Did, doc: Option<Document>): set<Delegation> {
    set k, c | k in keys && c in Commands(doc, BoundTo(s, k)) :: Delegation("", "", k, b, c, None)
  }

  lemma SignedHeld(issued: set<Delegation>, wanted: set<Delegation>, minted: set<string>, k: Did, b: Did)
    requires Signed(issued, wanted, minted)
    ensures Held(issued, k, b) == Held(wanted, k, b)
  {
    forall c ensures c in Held(issued, k, b) <==> c in Held(wanted, k, b) {
      if c in Held(issued, k, b) {
        var d :| d in Over(issued, k, b) && d.command == c;
        assert d.(link := "") in Over(wanted, k, b);
      }
      if c in Held(wanted, k, b) {
        var w :| w in Over(wanted, k, b) && w.command == c;
        var d :| d in issued && d.(link := "") == w;
        assert d in Over(issued, k, b);
      }
    }
  }

  lemma Reissues(s: State, w: Write) returns (issued: set<Delegation>)
    ensures Reissued(s, w, issued)
  {
    var wanted := WantedOver(s, w.remaining, w.bucket, w.doc);
    issued := Signs(wanted, s.minted);
    forall k | k in w.remaining ensures Held(issued, k, w.bucket) == Commands(w.doc, BoundTo(s, k)) {
      SignedHeld(issued, wanted, s.minted, k, w.bucket);
      forall c ensures c in Held(wanted, k, w.bucket) <==> c in Commands(w.doc, BoundTo(s, k)) {
        if c in Commands(w.doc, BoundTo(s, k)) { assert Delegation("", "", k, w.bucket, c, None) in Over(wanted, k, w.bucket); }
      }
    }
  }

  // ----------------------------------------------------------- a write, from the start

  /** The tables a write may change. */
  ghost predicate Replaces(s: State, n: State, b: Did, doc: Option<Document>) {
    && n.calls == map[] && n.live == s.live && n.buckets == s.buckets && n.keys == s.keys
    && n.policies == (if doc.Some? then s.policies[b := doc.value] else s.policies - {b})
  }

  /** A loaded write goes on to commit. */
  lemma RotatesOn(s: State, id: nat, w: Write, now: nat) returns (n: State)
    requires w.stage == LOADED && w.rotates && w.locked == {} && w.auds == {}
    requires w.doc.Some? ==> NamedSet(w.doc.value) <= s.live
    ensures Leads(Only(s, id, Writing(w)), id, n) && Replaces(s, n, w.bucket, w.doc)
  {
    var start := Only(s, id, Writing(w));
    WriteGoes(s, id, w, Affect);
    var v := WriteDo(start, w, Affect);
    LocksRows(s, id, v, v.affected * s.live);
    Leading(start, id, Only(s, id, Writing(v)), Only(s, id, Writing(v.(locked := v.locked + v.affected * s.live))));
    v := v.(locked := v.locked + v.affected * s.live);
    n := ListsOn(s, id, v, now);
    Leading(start, id, Only(s, id, Writing(v)), n);
  }

  lemma ListsOn(s: State, id: nat, w: Write, now: nat) returns (n: State)
    requires w.stage == AFFECTED && w.rotates && w.auds == {} && forall p :: p in w.affected && p in s.live ==> p in w.locked
    ensures Leads(Only(s, id, Writing(w)), id, n) && Replaces(s, n, w.bucket, w.doc)
  {
    var start := Only(s, id, Writing(w));
    WriteGoes(s, id, w, ListKeys);
    var v := WriteDo(start, w, ListKeys);
    LocksKeys(s, id, v, v.listed);
    var u := v.(auds := v.auds + v.listed);
    Leading(start, id, Only(s, id, Writing(v)), Only(s, id, Writing(u)));
    n := PublishesOn(s, id, u, now);
    Leading(start, id, Only(s, id, Writing(u)), n);
  }

  lemma PublishesOn(s: State, id: nat, w: Write, now: nat) returns (n: State)
    requires w.stage == LISTED && w.rotates && w.listed <= w.auds
    ensures Leads(Only(s, id, Writing(w)), id, n) && Replaces(s, n, w.bucket, w.doc)
  {
    WriteGoes(s, id, w, ReadGrants);
    var v := WriteDo(Only(s, id, Writing(w)), w, ReadGrants);
    n := AnnouncesOn(s, id, v, now);
    Leading(Only(s, id, Writing(w)), id, Only(s, id, Writing(v)), n);
  }

  lemma AnnouncesOn(s: State, id: nat, w: Write, now: nat) returns (n: State)
    requires w.stage == READ && w.rotates
    ensures Leads(Only(s, id, Writing(w)), id, n) && Replaces(s, n, w.bucket, w.doc)
  {
    WriteGoes(s, id, w, Announce(now));
    var t := s.(revoked := s.revoked + Links(Unexpired(Replaced(s, w), now)));
    n := CommitsOn(t, id, w.(stage := PUBLISHED));
    Leading(Only(s, id, Writing(w)), id, Only(t, id, Writing(w.(stage := PUBLISHED))), n);
  }

  lemma CommitsOn(s: State, id: nat, w: Write) returns (n: State)
    requires w.stage == PUBLISHED && w.rotates
    ensures Leads(Only(s, id, Writing(w)), id, n) && Replaces(s, n, w.bucket, w.doc)
  {
    var start := Only(s, id, Writing(w));
    var issued := Reissues(start, w);
    n := Do(start, id, CommitWrite(issued));
    Goes(start, id, CommitWrite(issued));
  }


  /** The write's precondition, as the caller sees it. */
  ghost predicate ConditionHolds(s: State, b: Did, c: Condition) {
    match c
    case Unconditional => true
    case IfMatch(tag) => b in s.policies && ETag(s.policies[b]) == tag
    case IfNoneMatch => b !in s.policies
  }

  /** A Put on a bucket that is there, naming live principals, under a precondition
      that holds, replaces the bucket's policy. */
  lemma PutCompletes(s: State, id: nat, b: Did, doc: Document, c: Condition, now: nat) returns (n: State)
    requires s.calls == map[] && b in s.buckets && NamedSet(doc) <= s.live && ConditionHolds(s, b, c)
    ensures Leads(s, id, n) && Replaces(s, n, b, Some(doc))
  {
    var w := BeginWrite(b, Some(doc), c, true);
    Begins(s, id, Writing(w));
    var v := LoadsPut(s, id, w);
    Leading(s, id, Only(s, id, Writing(w)), Only(s, id, Writing(v)));
    n := RotatesOn(s, id, v, now);
    Leading(s, id, Only(s, id, Writing(v)), n);
  }

  lemma LoadsPut(s: State, id: nat, w: Write) returns (v: Write)
    requires w.doc.Some? && w.stage == BEGUN && w.checked == {}
    requires w.bucket in s.buckets && NamedSet(w.doc.value) <= s.live && ConditionHolds(s, w.bucket, w.condition)
    ensures Leads(Only(s, id, Writing(w)), id, Only(s, id, Writing(v)))
    ensures v == w.(stage := LOADED, was := Policy(s, w.bucket), checked := NamedSet(w.doc.value))
  {
    var u := ChecksOn(s, id, w);
    v := LoadsOn(s, id, u);
    Leading(Only(s, id, Writing(w)), id, Only(s, id, Writing(u)), Only(s, id, Writing(v)));
  }

  /** The tenant's lock, and the named principals' rows. */
  lemma ChecksOn(s: State, id: nat, w: Write) returns (v: Write)
    requires w.doc.Some? && w.stage == BEGUN && w.checked == {} && NamedSet(w.doc.value) <= s.live
    ensures Leads(Only(s, id, Writing(w)), id, Only(s, id, Writing(v)))
    ensures v == w.(stage := TENANT, checked := NamedSet(w.doc.value))
  {
    NoneBlocks(s, id, Writing(w));
    WriteGoes(s, id, w, TakeTenant);
    var u := w.(stage := TENANT);
    ChecksAll(s, id, u, NamedSet(w.doc.value));
    v := u.(checked := u.checked + NamedSet(w.doc.value));
    Leading(Only(s, id, Writing(w)), id, Only(s, id, Writing(u)), Only(s, id, Writing(v)));
  }


  /** The bucket's lock and row, once a Put has its names. */
  lemma LoadsOn(s: State, id: nat, w: Write) returns (v: Write)
    requires if w.doc.Some? then w.stage == TENANT && NamedSet(w.doc.value) <= w.checked && w.bucket in s.buckets
             else w.stage == BEGUN && w.bucket in s.policies
    requires ConditionHolds(s, w.bucket, w.condition)
    ensures Leads(Only(s, id, Writing(w)), id, Only(s, id, Writing(v)))
    ensures v == w.(stage := LOADED, was := Policy(s, w.bucket))
  {
    NoneBlocks(s, id, Writing(w));
    WriteGoes(s, id, w, TakeBucket);
    v := w.(stage := BUCKET);
    NoneBlocks(s, id, Writing(v));
    WriteGoes(s, id, v, Load);
    Leading(Only(s, id, Writing(w)), id, Only(s, id, Writing(v)), Only(s, id, Writing(v.(stage := LOADED, was := Policy(s, w.bucket)))));
    v := v.(stage := LOADED, was := Policy(s, w.bucket));
  }

  /** A Delete of a policy that is there, under a precondition that holds, removes
      it. */
  lemma DeleteCompletes(s: State, id: nat, b: Did, c: Condition, now: nat) returns (n: State)
    requires s.calls == map[] && b in s.policies && ConditionHolds(s, b, c)
    ensures Leads(s, id, n) && Replaces(s, n, b, None)
  {
    var w := BeginWrite(b, None, c, true);
    Begins(s, id, Writing(w));
    var v := LoadsOn(s, id, w);
    Leading(s, id, Only(s, id, Writing(w)), Only(s, id, Writing(v)));
    n := RotatesOn(s, id, v, now);
    Leading(s, id, Only(s, id, Writing(v)), n);
  }

  // ------------------------------------------------------------------- other calls

  /** A step that leaves the call in flight. */
  lemma CallGoes(s: State, id: nat, c: Call, e: Event, d: Call, t: State)
    requires CanStep(Only(s, id, c), id, c, e) && !e.Begin? && !e.Fail?
    requires NextCall(Only(s, id, c), c, e) == Some(d) && Tables(Only(s, id, c), c, e) == Only(t, id, c)
    ensures Leads(Only(s, id, c), id, Only(t, id, d))
  {
    MaySteps(s, id, c, e);
    OnlyDo(s, id, c, e, d);
    Goes(Only(s, id, c), id, e);
  }

  lemma MaySteps(s: State, id: nat, c: Call, e: Event)
    requires CanStep(Only(s, id, c), id, c, e) && !e.Begin?
    ensures Can(Only(s, id, c), id, e)
  {}


  /** A step that ends it. */
  lemma CallEnds(s: State, id: nat, c: Call, e: Event, t: State)
    requires CanStep(Only(s, id, c), id, c, e) && !e.Begin? && !e.Fail?
    requires NextCall(Only(s, id, c), c, e) == None && Tables(Only(s, id, c), c, e) == Only(t, id, c)
    ensures Leads(Only(s, id, c), id, t.(calls := map[]))
  {
    MaySteps(s, id, c, e);
    OnlyEnds(s, id, c, e);
    Goes(Only(s, id, c), id, e);
  }

  lemma OnlyEnds(s: State, id: nat, c: Call, e: Event)
    requires !e.Begin? && !e.Fail? && NextCall(Only(s, id, c), c, e) == None
    ensures Do(Only(s, id, c), id, e) == Tables(Only(s, id, c), c, e).(calls := map[])
  {
    assert Only(s, id, c).calls - {id} == map[];
  }


  /** A principal who is not there can be added. */
  lemma AddCompletes(s: State, id: nat, p: PrincipalId) returns (n: State)
    requires s.calls == map[] && p != WILDCARD && p !in s.live
    ensures Leads(s, id, n) && n == s.(live := s.live + {p})
  {
    var c, d := Adding(PrincipalAddition(p, BEGUN)), Adding(PrincipalAddition(p, TENANT));
    n := s.(live := s.live + {p});
    NoneBlocks(s, id, c);
    NoneBlocks(s, id, d);
    Begins(s, id, c);
    CallGoes(s, id, c, TakeTenant, d, s);
    CallEnds(s, id, d, CommitAdd, n);
    Leading(s, id, Only(s, id, c), Only(s, id, d));
    Leading(s, id, Only(s, id, d), n);
  }

  /** A bucket under an id never used can be created. */
  lemma BucketCompletes(s: State, id: nat, b: Did) returns (n: State)
    requires s.calls == map[] && b !in s.usedBuckets
    ensures Leads(s, id, n) && n == s.(buckets := s.buckets + {b}, usedBuckets := s.usedBuckets + {b})
  {
    var c := MakingBucket(b);
    n := s.(buckets := s.buckets + {b}, usedBuckets := s.usedBuckets + {b});
    Begins(s, id, c);
    CallEnds(n, id, c, KeepBucket, n);
    assert Started(s, id, c) == Only(n, id, c);
    Leading(s, id, Only(n, id, c), n);
  }

  lemma DeletionGoes(s: State, id: nat, r: KeyDeletion, e: Event, v: KeyDeletion)
    requires CanKeyDelete(Only(s, id, Deleting(r)), id, r, e) && !e.Begin? && !e.Fail? && DeletionNext(r, e) == Some(v)
    ensures Leads(Only(s, id, Deleting(r)), id, Only(DeletionTables(s, r, e), id, Deleting(v)))
  {
    DeletionTablesOnly(s, id, r, e);
    CallGoes(s, id, Deleting(r), e, Deleting(v), DeletionTables(s, r, e));
  }

  lemma DeletionTablesOnly(s: State, id: nat, r: KeyDeletion, e: Event)
    ensures DeletionTables(Only(s, id, Deleting(r)), r, e) == Only(DeletionTables(s, r, e), id, Deleting(r))
  {}

  /** A key can be deleted, and its unexpired grants published. */
  lemma KeyDeleteCompletes(s: State, id: nat, k: Did, now: nat) returns (n: State)
    requires s.calls == map[]
    ensures Leads(s, id, n) && n.calls == map[] && n.keys == s.keys - {k}
    ensures n.grants == set d | d in s.grants && d.audience != k
    ensures forall d :: d in s.grants && d.audience == k && (d.expires.Some? ==> now < d.expires.value) ==> d.link in n.revoked
  {
    var r := KeyDeletion(k, BEGUN);
    NoneBlocks(s, id, Deleting(r));
    Begins(s, id, Deleting(r));
    DeletionGoes(s, id, r, LockAudience(k), r.(stage := LOCKED));
    Leading(s, id, Only(s, id, Deleting(r)), Only(s, id, Deleting(r.(stage := LOCKED))));
    n := KeyDeletesOn(s, id, r.(stage := LOCKED), now);
    Leading(s, id, Only(s, id, Deleting(r.(stage := LOCKED))), n);
  }

  lemma KeyDeletesOn(s: State, id: nat, r: KeyDeletion, now: nat) returns (n: State)
    requires r.stage == LOCKED
    ensures Leads(Only(s, id, Deleting(r)), id, n) && n.calls == map[] && n.keys == s.keys - {r.k}
    ensures n.grants == set d | d in s.grants && d.audience != r.k
    ensures forall d :: d in s.grants && d.audience == r.k && (d.expires.Some? ==> now < d.expires.value) ==> d.link in n.revoked
  {
    var t, v := DeletionTables(s, r, Announce(now)), r.(stage := ANNOUNCED);
    DeletionGoes(s, id, r, Announce(now), v);
    DeletionTablesOnly(t, id, v, CommitKeyDelete);
    CallEnds(t, id, Deleting(v), CommitKeyDelete, DeletionTables(t, v, CommitKeyDelete));
    n := DeletionTables(t, v, CommitKeyDelete).(calls := map[]);
    Leading(Only(s, id, Deleting(r)), id, Only(t, id, Deleting(v)), n);
    var held := set d | d in s.grants && d.audience == r.k;
    forall d | d in held && (d.expires.Some? ==> now < d.expires.value) ensures d.link in n.revoked { assert d in Unexpired(held, now); }
  }

  // --------------------------------------------------------------- bucket deletions

  lemma {:induction false} DropLocks(s: State, id: nat, r: BucketDeletion, todo: set<Did>)
    requires r.stage == AUDIENCES && todo <= r.listed && todo !! r.auds
    ensures Leads(Only(s, id, DroppingBucket(r)), id, Only(s, id, DroppingBucket(r.(auds := r.auds + todo))))
    decreases todo
  {
    var c := DroppingBucket(r);
    NoneBlocks(s, id, c);
    if todo == {} {
      assert r.auds + todo == r.auds;
      Stays(Only(s, id, c), id);
    } else {
      var k :| k in todo;
      var q := r.(auds := r.auds + {k});
      CallGoes(s, id, c, LockAudience(k), DroppingBucket(q), s);
      DropLocks(s, id, q, todo - {k});
      assert q.auds + (todo - {k}) == r.auds + todo;
      Leading(Only(s, id, c), id, Only(s, id, DroppingBucket(q)), Only(s, id, DroppingBucket(r.(auds := r.auds + todo))));
    }
  }

  /** A bucket can be deleted, with its policy and everything over it. */
  lemma BucketDeleteCompletes(s: State, id: nat, b: Did, now: nat) returns (n: State)
    requires s.calls == map[]
    ensures Leads(s, id, n) && Dropped(s, n, b)
  {
    var r := BucketDeletion(b, BEGUN, {}, {}, {});
    Begins(s, id, DroppingBucket(r));
    NoneBlocks(s, id, DroppingBucket(r));
    CallGoes(s, id, DroppingBucket(r), TakeBucket, DroppingBucket(r.(stage := LOCKED)), s);
    Leading(s, id, Only(s, id, DroppingBucket(r)), Only(s, id, DroppingBucket(r.(stage := LOCKED))));
    n := DropsLocked(s, id, r.(stage := LOCKED), now);
    Leading(s, id, Only(s, id, DroppingBucket(r.(stage := LOCKED))), n);
  }

  lemma DropsLocked(s: State, id: nat, r: BucketDeletion, now: nat) returns (n: State)
    requires r == BucketDeletion(r.b, LOCKED, {}, {}, {})
    ensures Leads(Only(s, id, DroppingBucket(r)), id, n) && Dropped(s, n, r.b)
  {
    var t := DropTables(s, r, Announce(now));
    CallGoes(s, id, DroppingBucket(r), Announce(now), DroppingBucket(r.(stage := ANNOUNCED)), t);
    n := DropsOn(t, id, r.(stage := ANNOUNCED));
    Leading(Only(s, id, DroppingBucket(r)), id, Only(t, id, DroppingBucket(r.(stage := ANNOUNCED))), n);
  }


  lemma DropsOn(s: State, id: nat, r: BucketDeletion) returns (n: State)
    requires r == BucketDeletion(r.b, ANNOUNCED, {}, {}, {})
    ensures Leads(Only(s, id, DroppingBucket(r)), id, n) && Dropped(s, n, r.b)
  {
    var v := DropsListed(s, id, r);
    n := DropsRows(s, id, v);
    Leading(Only(s, id, DroppingBucket(r)), id, Only(s, id, DroppingBucket(v)), n);
  }

  lemma DropsListed(s: State, id: nat, r: BucketDeletion) returns (v: BucketDeletion)
    requires r == BucketDeletion(r.b, ANNOUNCED, {}, {}, {})
    ensures v.b == r.b && v.stage == AUDIENCES && v.listed <= v.auds
    ensures Leads(Only(s, id, DroppingBucket(r)), id, Only(s, id, DroppingBucket(v)))
  {
    var u := DropNext(Only(s, id, DroppingBucket(r)), r, ListAudiences).value;
    CallGoes(s, id, DroppingBucket(r), ListAudiences, DroppingBucket(u), s);
    DropLocks(s, id, u, u.listed);
    v := u.(auds := u.auds + u.listed);
    Leading(Only(s, id, DroppingBucket(r)), id, Only(s, id, DroppingBucket(u)), Only(s, id, DroppingBucket(v)));
  }


  lemma DropsRows(s: State, id: nat, r: BucketDeletion) returns (n: State)
    requires r.stage == AUDIENCES && r.listed <= r.auds
    ensures Leads(Only(s, id, DroppingBucket(r)), id, n) && Dropped(s, n, r.b)
  {
    var v := DoomsRows(s, id, r);
    n := DropsDoomed(s, id, v);
    Leading(Only(s, id, DroppingBucket(r)), id, Only(s, id, DroppingBucket(v)), n);
  }

  /** What a bucket's deletion comes to. */
  ghost predicate Dropped(s: State, n: State, b: Did) {
    && n.calls == map[] && n.buckets == s.buckets - {b} && n.policies == s.policies - {b}
    && n.grants == set d | d in s.grants && d.subject != b
  }


  lemma DoomsRows(s: State, id: nat, r: BucketDeletion) returns (v: BucketDeletion)
    requires r.stage == AUDIENCES && r.listed <= r.auds
    ensures v == r.(stage := DOOMED, doomed := v.doomed) && v.doomed == set d | d in s.grants && d.subject == r.b
    ensures Leads(Only(s, id, DroppingBucket(r)), id, Only(s, id, DroppingBucket(v)))
  {
    v := DropNext(Only(s, id, DroppingBucket(r)), r, DeleteRows).value;
    CallGoes(s, id, DroppingBucket(r), DeleteRows, DroppingBucket(v), s);
  }


  lemma DropsDoomed(s: State, id: nat, r: BucketDeletion) returns (n: State)
    requires r.stage == DOOMED && r.doomed == set d | d in s.grants && d.subject == r.b
    ensures Leads(Only(s, id, DroppingBucket(r)), id, n) && Dropped(s, n, r.b)
  {
    NoneBlocks(s, id, DroppingBucket(r));
    var t := DropTables(s, r, CommitBucketDelete);
    CallEnds(s, id, DroppingBucket(r), CommitBucketDelete, t);
    n := t.(calls := map[]);
  }



  // ------------------------------------------------------------------ key creations

  lemma CreationGoes(s: State, id: nat, r: KeyCreation, e: Event, v: KeyCreation)
    requires CanKeyCreate(Only(s, id, Creating(r)), id, r, e) && !e.Begin? && !e.Fail?
    requires CreationNext(Only(s, id, Creating(r)), r, e) == Some(v)
    ensures Leads(Only(s, id, Creating(r)), id, Only(CreationTables(s, r, e), id, Creating(v)))
  {
    CreationTablesOnly(s, id, r, e);
    CallGoes(s, id, Creating(r), e, Creating(v), CreationTables(s, r, e));
  }

  lemma CreationTablesOnly(s: State, id: nat, r: KeyCreation, e: Event)
    ensures CreationTables(Only(s, id, Creating(r)), r, e) == Only(CreationTables(s, r, e), id, Creating(r))
  {}

  lemma {:induction false} ReadsAll(s: State, id: nat, r: KeyCreation, todo: set<Did>)
    requires r.stage == LISTING && todo <= r.cands.Keys && todo !! r.docs.Keys
    requires forall b :: b in r.cands ==> b in s.policies && Born(s, b) == r.cands[b]
    ensures Leads(Only(s, id, Creating(r)), id, Only(s, id, Creating(r.(docs := ReadToo(s, r.docs, todo)))))
    decreases todo
  {
    if todo == {} {
      assert ReadToo(s, r.docs, todo) == r.docs;
      Stays(Only(s, id, Creating(r)), id);
    } else {
      var b :| b in todo;
      var v := r.(docs := r.docs[b := s.policies[b]]);
      ReadsOne(s, id, r, b, v);
      ReadsAll(s, id, v, todo - {b});
      assert ReadToo(s, r.docs, todo) == ReadToo(s, v.docs, todo - {b});
      Leading(Only(s, id, Creating(r)), id, Only(s, id, Creating(v)), Only(s, id, Creating(v.(docs := ReadToo(s, v.docs, todo - {b})))));
    }
  }

  lemma ReadsOne(s: State, id: nat, r: KeyCreation, b: Did, v: KeyCreation)
    requires r.stage == LISTING && b in r.cands && b !in r.docs && b in s.policies && Born(s, b) == r.cands[b]
    requires v == r.(docs := r.docs[b := s.policies[b]])
    ensures Leads(Only(s, id, Creating(r)), id, Only(s, id, Creating(v)))
  {
    NoneBlocks(s, id, Creating(r));
    CreationGoes(s, id, r, ReadPolicy(b), v);
  }


  /** docs, and the policies of todo. */
  function ReadToo(s: State, docs: map<Did, Document>, todo: set<Did>): map<Did, Document> {
    map b | b in docs.Keys + todo && (b in docs || b in s.policies) :: if b in docs then docs[b] else s.policies[b]
  }


  /** The commands docs grant p, over their buckets, to k. */
  function WantedBy(docs: map<Did, Document>, k: Did, p: PrincipalId): set<Delegation> {
    set b, c | b in docs && c in Commands(Some(docs[b]), p) :: Delegation("", "", k, b, c, None)
  }

  lemma WantedHeld(docs: map<Did, Document>, k: Did, p: PrincipalId, b: Did)
    ensures Held(WantedBy(docs, k, p), k, b) == if b in docs then Commands(Some(docs[b]), p) else {}
  {
    forall c ensures c in Held(WantedBy(docs, k, p), k, b) <==> b in docs && c in Commands(Some(docs[b]), p) {
      if b in docs && c in Commands(Some(docs[b]), p) { assert Delegation("", "", k, b, c, None) in Over(WantedBy(docs, k, p), k, b); }
    }
  }

  /** What was read is stored, and the creation returns. */
  lemma StoresOn(s: State, id: nat, r: KeyCreation) returns (n: State)
    requires r.stage == PLANNED && r.k in s.keys && forall d :: d in s.grants ==> d.audience != r.k
    ensures Leads(Only(s, id, Creating(r)), id, n) && n.calls == map[] && n.keys == s.keys && r.k in n.created
    ensures n.policies == s.policies && n.live == s.live
    ensures forall b :: Held(n.grants, r.k, b) == if b in r.docs then Commands(Some(r.docs[b]), r.p) else {}
  {
    if forall b :: b in r.docs ==> Commands(Some(r.docs[b]), r.p) == {} {
      CreationGoes(s, id, r, NothingToStore, r.(stage := STORED));
      n := Finishes(s, id, r.(stage := STORED));
      Leading(Only(s, id, Creating(r)), id, Only(s, id, Creating(r.(stage := STORED))), n);
      forall b ensures Held(n.grants, r.k, b) == {} {}
    } else {
      n := StoresIssued(s, id, r);
    }
  }

  lemma StoresIssued(s: State, id: nat, r: KeyCreation) returns (n: State)
    requires r.stage == PLANNED && r.k in s.keys && forall d :: d in s.grants ==> d.audience != r.k
    ensures Leads(Only(s, id, Creating(r)), id, n) && n.calls == map[] && n.keys == s.keys && r.k in n.created
    ensures n.policies == s.policies && n.live == s.live
    ensures forall b :: Held(n.grants, r.k, b) == if b in r.docs then Commands(Some(r.docs[b]), r.p) else {}
  {
    var issued := SignsFor(s, r);
    var v := r.(stage := OWN_LOCKED);
    NoneBlocks(s, id, Creating(r));
    CreationGoes(s, id, r, LockOwn, v);
    CreationGoes(s, id, v, StoreGrants(issued), r.(stage := STORED));
    var t := CreationTables(s, v, StoreGrants(issued));
    Leading(Only(s, id, Creating(r)), id, Only(s, id, Creating(v)), Only(t, id, Creating(r.(stage := STORED))));
    n := Finishes(t, id, r.(stage := STORED));
    Leading(Only(s, id, Creating(r)), id, Only(t, id, Creating(r.(stage := STORED))), n);
    forall b ensures Held(n.grants, r.k, b) == Held(issued, r.k, b) { assert Over(n.grants, r.k, b) == Over(issued, r.k, b); }
  }

  lemma SignsFor(s: State, r: KeyCreation) returns (issued: set<Delegation>)
    ensures LinksDistinct(issued) && forall d :: d in issued ==> d.link !in s.minted && d.audience == r.k && d.subject in r.docs
    ensures forall b :: Held(issued, r.k, b) == if b in r.docs then Commands(Some(r.docs[b]), r.p) else {}
  {
    var wanted := WantedBy(r.docs, r.k, r.p);
    issued := Signs(wanted, s.minted);
    forall d | d in issued ensures d.audience == r.k && d.subject in r.docs { assert d.(link := "") in wanted; }
    forall b ensures Held(issued, r.k, b) == if b in r.docs then Commands(Some(r.docs[b]), r.p) else {} {
      WantedHeld(r.docs, r.k, r.p, b);
      SignedHeld(issued, wanted, s.minted, r.k, b);
    }
  }


  lemma Finishes(s: State, id: nat, r: KeyCreation) returns (n: State)
    requires r.stage == STORED && r.k in s.keys
    ensures Leads(Only(s, id, Creating(r)), id, n) && n == s.(calls := map[], created := s.created + {r.k})
  {
    n := s.(calls := map[], created := s.created + {r.k});
    CallEnds(s, id, Creating(r), FinishCreate, s.(created := s.created + {r.k}));
  }

  /** From the inserted row to the grants. */
  lemma PlansOn(s: State, id: nat, r: KeyCreation) returns (n: State)
    requires r == KeyCreation(r.k, r.p, INSERTED, map[], map[]) && r.k in s.keys && r.p != WILDCARD
    requires forall d :: d in s.grants ==> d.audience != r.k
    ensures Leads(Only(s, id, Creating(r)), id, n) && n.calls == map[] && n.keys == s.keys && r.k in n.created
    ensures n.policies == s.policies && n.live == s.live
    ensures forall b :: Held(n.grants, r.k, b) == Required(s, r.p, b)
  {
    var docs := map b | b in s.policies && Indexed(s.policies[b], r.p) :: s.policies[b];
    var v := ListsPolicies(s, id, r, docs);
    n := StoresOn(s, id, v);
    Leading(Only(s, id, Creating(r)), id, Only(s, id, Creating(v)), n);
    forall b ensures Held(n.grants, r.k, b) == Required(s, r.p, b) { ReadIsRequired(s, docs, r.p, b); }
  }

  lemma ListsPolicies(s: State, id: nat, r: KeyCreation, docs: map<Did, Document>) returns (v: KeyCreation)
    requires r == KeyCreation(r.k, r.p, INSERTED, map[], map[])
    requires docs == map b | b in s.policies && Indexed(s.policies[b], r.p) :: s.policies[b]
    ensures v.k == r.k && v.p == r.p && v.stage == PLANNED && v.docs == docs
    ensures Leads(Only(s, id, Creating(r)), id, Only(s, id, Creating(v)))
  {
    var u := CreationNext(Only(s, id, Creating(r)), r, ListPolicies).value;
    CreationGoes(s, id, r, ListPolicies, u);
    Listed(s, id, r, docs);
    v := ReadsListed(s, id, u, docs);
    Leading(Only(s, id, Creating(r)), id, Only(s, id, Creating(u)), Only(s, id, Creating(v)));
  }

  lemma Listed(s: State, id: nat, r: KeyCreation, docs: map<Did, Document>)
    requires docs == map b | b in s.policies && Indexed(s.policies[b], r.p) :: s.policies[b]
    ensures var u := CreationNext(Only(s, id, Creating(r)), r, ListPolicies).value;
      u.cands.Keys == docs.Keys && forall b :: b in u.cands ==> b in s.policies && Born(s, b) == u.cands[b]
    ensures docs == ReadToo(s, map[], docs.Keys)
  {}


  lemma ReadsListed(s: State, id: nat, r: KeyCreation, docs: map<Did, Document>) returns (v: KeyCreation)
    requires r.stage == LISTING && r.docs == map[] && docs == ReadToo(s, r.docs, r.cands.Keys)
    requires forall b :: b in r.cands ==> b in s.policies && Born(s, b) == r.cands[b]
    ensures v == r.(stage := PLANNED, docs := docs) && Leads(Only(s, id, Creating(r)), id, Only(s, id, Creating(v)))
  {
    ReadsAll(s, id, r, r.cands.Keys);
    v := r.(stage := PLANNED, docs := docs);
    CreationGoes(s, id, r.(docs := docs), PoliciesRead, v);
    Leading(Only(s, id, Creating(r)), id, Only(s, id, Creating(r.(docs := docs))), Only(s, id, Creating(v)));
  }



  lemma ReadIsRequired(s: State, docs: map<Did, Document>, p: PrincipalId, b: Did)
    requires p != WILDCARD && docs == map b | b in s.policies && Indexed(s.policies[b], p) :: s.policies[b]
    ensures Required(s, p, b) == if b in docs then Commands(Some(docs[b]), p) else {}
  {
    if b in s.policies && b !in docs {
      EffectiveIsIndexed(s.policies[b], p);
      assert Commands(Some(s.policies[b]), p) == {};
    } else if b !in s.policies {
      assert EffectiveSet(None, p) == {};
      assert Commands(None, p) == {};
    }
  }

  /** No key under a fresh id holds anything. */
  lemma FreshHoldsNothing(s: State, k: Did)
    requires Reachable(s) && k !in s.bound
    ensures forall d :: d in s.grants ==> d.audience != k
  {
    var states :| Run(states) && states[|states| - 1] == s;
    var hs := RunHasChronicle(states);
    ChronicleBalanced(hs, |hs| - 1);
    BalancedWhole(hs[|hs| - 1]);
  }

  /** A key of a live principal, under an id never used, can be created, holding
      over every bucket what the policies grant its principal. */
  lemma CreationCompletes(s: State, id: nat, k: Did, p: PrincipalId) returns (n: State)
    requires Reachable(s) && s.calls == map[] && p in s.live && k !in s.bound
    ensures Leads(s, id, n) && n.calls == map[] && n.keys == s.keys[k := p] && k in n.created
    ensures n.policies == s.policies && n.live == s.live
    ensures forall b :: Held(n.grants, k, b) == Required(s, p, b)
  {
    ReachableInv(s);
    Whole(s);
    FreshHoldsNothing(s, k);
    var r := KeyCreation(k, p, BEGUN, map[], map[]);
    var t := s.(bound := s.bound[k := p]);
    Begins(s, id, Creating(r));
    assert Started(s, id, Creating(r)) == Only(t, id, Creating(r));
    NoneBlocks(t, id, Creating(r));
    CreationGoes(t, id, r, GetPrincipal, r.(stage := FOUND));
    Leading(s, id, Only(t, id, Creating(r)), Only(t, id, Creating(r.(stage := FOUND))));
    n := InsertsOn(t, id, r.(stage := FOUND));
    Leading(s, id, Only(t, id, Creating(r.(stage := FOUND))), n);
    forall b ensures Required(t, p, b) == Required(s, p, b) {}
  }

  lemma InsertsOn(s: State, id: nat, r: KeyCreation) returns (n: State)
    requires r == KeyCreation(r.k, r.p, FOUND, map[], map[]) && r.p in s.live && r.p != WILDCARD
    requires forall d :: d in s.grants ==> d.audience != r.k
    ensures Leads(Only(s, id, Creating(r)), id, n) && n.calls == map[] && n.keys == s.keys[r.k := r.p] && r.k in n.created
    ensures n.policies == s.policies && n.live == s.live
    ensures forall b :: Held(n.grants, r.k, b) == Required(s, r.p, b)
  {
    var start := Only(s, id, Creating(r));
    NoneBlocks(s, id, Creating(r));
    CreationGoes(s, id, r, HoldForInsert, r.(stage := INSERTING));
    n := InsertsRow(s, id, r.(stage := INSERTING));
    Leading(start, id, Only(s, id, Creating(r.(stage := INSERTING))), n);
  }

  lemma InsertsRow(s: State, id: nat, r: KeyCreation) returns (n: State)
    requires r == KeyCreation(r.k, r.p, INSERTING, map[], map[]) && r.p != WILDCARD
    requires forall d :: d in s.grants ==> d.audience != r.k
    ensures Leads(Only(s, id, Creating(r)), id, n) && n.calls == map[] && n.keys == s.keys[r.k := r.p] && r.k in n.created
    ensures n.policies == s.policies && n.live == s.live
    ensures forall b :: Held(n.grants, r.k, b) == Required(s, r.p, b)
  {
    var t := CreationTables(s, r, InsertKey);
    CreationGoes(s, id, r, InsertKey, r.(stage := INSERTED));
    n := PlansOn(t, id, r.(stage := INSERTED));
    Leading(Only(s, id, Creating(r)), id, Only(t, id, Creating(r.(stage := INSERTED))), n);
    forall b ensures Required(t, r.p, b) == Required(s, r.p, b) {}
  }

  /** A creation that gives up can take back its row and whatever it stored. */
  lemma RollBackCompletes(s: State, id: nat, r: KeyCreation) returns (n: State)
    requires INSERTING <= r.stage <= STORED
    ensures Leads(Only(s, id, Creating(r)), id, n)
    ensures n.keys == s.keys - {r.k} && n.grants == set d | d in s.grants && d.audience != r.k
    ensures n.policies == s.policies && n.live == s.live && n.buckets == s.buckets && n.revoked == s.revoked
  {
    var v := r.(stage := ROLLBACK);
    CreationGoes(s, id, r, RollBack, v);
    n := RollsBack(s, id, v);
    Leading(Only(s, id, Creating(r)), id, Only(s, id, Creating(v)), n);
  }

  lemma RollsBack(s: State, id: nat, r: KeyCreation) returns (n: State)
    requires r.stage == ROLLBACK
    ensures Leads(Only(s, id, Creating(r)), id, n)
    ensures n == Only(s.(keys := s.keys - {r.k}, grants := set d | d in s.grants && d.audience != r.k), id, Creating(r))
  {
    NoneBlocks(s, id, Creating(r));
    CreationGoes(s, id, r, RollBackGrants, r);
    var t := CreationTables(s, r, RollBackGrants);
    CreationGoes(t, id, r, RollBackRow, r);
    n := Only(CreationTables(t, r, RollBackRow), id, Creating(r));
    Leading(Only(s, id, Creating(r)), id, Only(t, id, Creating(r)), n);
  }

  /** And a bucket's creation its record. */
  lemma UndoCompletes(s: State, id: nat, b: Did) returns (n: State)
    requires b !in s.policies
    ensures Leads(Only(s, id, MakingBucket(b)), id, n) && n == s.(buckets := s.buckets - {b}, calls := map[])
  {
    NoneBlocks(s, id, MakingBucket(b));
    n := s.(buckets := s.buckets - {b}, calls := map[]);
    assert s.policies - {b} == s.policies;
    CallEnds(s, id, MakingBucket(b), UndoBucket, s.(buckets := s.buckets - {b}));
  }

  // ------------------------------------------------------------------- bucket info

  lemma InfoGoes(s: State, id: nat, r: InfoRequest, e: Event)
    requires CanInfo(Only(s, id, Asking(r)), id, r, e) && !e.Begin? && !e.Fail?
    ensures Leads(Only(s, id, Asking(r)), id, Only(s, id, Asking(InfoNext(Only(s, id, Asking(r)), r, e))))
  {
    CallGoes(s, id, Asking(r), e, Asking(InfoNext(Only(s, id, Asking(r)), r, e)), s);
  }

  lemma {:induction false} ListsGrants(s: State, id: nat, r: InfoRequest, todo: set<Delegation>)
    requires r.stage == POLICY_READ && todo <= Over(s.grants, r.k, r.b)
    ensures Leads(Only(s, id, Asking(r)), id, Only(s, id, Asking(r.(stored := r.stored + todo))))
    decreases todo
  {
    if todo == {} {
      assert r.stored + todo == r.stored;
      Stays(Only(s, id, Asking(r)), id);
    } else {
      var d :| d in todo;
      var v := r.(stored := r.stored + {d});
      InfoGoes(s, id, r, ListGrant(d));
      ListsGrants(s, id, v, todo - {d});
      assert v.stored + (todo - {d}) == r.stored + todo;
      Leading(Only(s, id, Asking(r)), id, Only(s, id, Asking(v)), Only(s, id, Asking(r.(stored := r.stored + todo))));
    }
  }

  lemma {:induction false} AddsChains(s: State, id: nat, r: InfoRequest, todo: set<Delegation>)
    requires r.stage == GRANTS_LISTED && todo <= Over(s.grants, r.k, r.b) && (todo != {} ==> r.stored != {})
    ensures Leads(Only(s, id, Asking(r)), id, Only(s, id, Asking(r.(chained := r.chained + todo))))
    decreases todo
  {
    if todo == {} {
      assert r.chained + todo == r.chained;
      Stays(Only(s, id, Asking(r)), id);
    } else {
      var d :| d in todo;
      var v := r.(chained := r.chained + {d});
      InfoGoes(s, id, r, AddChain(d));
      AddsChains(s, id, v, todo - {d});
      assert v.chained + (todo - {d}) == r.chained + todo;
      Leading(Only(s, id, Asking(r)), id, Only(s, id, Asking(v)), Only(s, id, Asking(r.(chained := r.chained + todo))));
    }
  }

  lemma {:induction false} ListsAgain(s: State, id: nat, r: InfoRequest, todo: set<Delegation>)
    requires r.stage == SETTLED && todo <= Over(s.grants, r.k, r.b)
    ensures Leads(Only(s, id, Asking(r)), id, Only(s, id, Asking(r.(again := r.again + todo))))
    decreases todo
  {
    if todo == {} {
      assert r.again + todo == r.again;
      Stays(Only(s, id, Asking(r)), id);
    } else {
      var d :| d in todo;
      var v := r.(again := r.again + {d});
      InfoGoes(s, id, r, ListAgain(d));
      ListsAgain(s, id, v, todo - {d});
      assert v.again + (todo - {d}) == r.again + todo;
      Leading(Only(s, id, Asking(r)), id, Only(s, id, Asking(v)), Only(s, id, Asking(r.(again := r.again + todo))));
    }
  }

  /** The reads of the first pass. */
  lemma InfoReads(s: State, id: nat, r: InfoRequest) returns (v: InfoRequest)
    requires r == InfoRequest(r.k, r.p, r.b, BEGUN, {}, None, {}, {}, {}, None, {})
    requires r.p in s.live && EffectiveSet(Policy(s, r.b), r.p) != {}
    ensures Leads(Only(s, id, Asking(r)), id, Only(s, id, Asking(v)))
    ensures v == r.(stage := GRANTS_LISTED, eff := EffectiveSet(Policy(s, r.b), r.p), tag := TagOf(Policy(s, r.b)),
                    stored := Over(s.grants, r.k, r.b))
  {
    var start := Only(s, id, Asking(r));
    NoneBlocks(s, id, Asking(r));
    InfoGoes(s, id, r, GetPrincipal);
    var r1 := r.(stage := PRINCIPAL_READ);
    NoneBlocks(s, id, Asking(r1));
    InfoGoes(s, id, r1, GetPolicy);
    var r2 := r1.(stage := POLICY_READ, eff := EffectiveSet(Policy(s, r.b), r.p), tag := TagOf(Policy(s, r.b)));
    Leading(start, id, Only(s, id, Asking(r1)), Only(s, id, Asking(r2)));
    v := InfoLists(s, id, r2);
    Leading(start, id, Only(s, id, Asking(r2)), Only(s, id, Asking(v)));
  }

  lemma InfoLists(s: State, id: nat, r: InfoRequest) returns (v: InfoRequest)
    requires r.stage == POLICY_READ && r.stored == {}
    ensures Leads(Only(s, id, Asking(r)), id, Only(s, id, Asking(v)))
    ensures v == r.(stage := GRANTS_LISTED, stored := Over(s.grants, r.k, r.b))
  {
    var all := Over(s.grants, r.k, r.b);
    ListsGrants(s, id, r, all);
    var q := r.(stored := all);
    assert r.stored + all == all;
    InfoGoes(s, id, q, EndList);
    v := q.(stage := GRANTS_LISTED);
    Leading(Only(s, id, Asking(r)), id, Only(s, id, Asking(q)), Only(s, id, Asking(v)));
  }


  /** Its chains and the second pass. */
  lemma InfoSettles(s: State, id: nat, r: InfoRequest) returns (v: InfoRequest)
    requires r.stage == GRANTS_LISTED && r.chained == {} && r.again == {}
    requires r.stored == Over(s.grants, r.k, r.b) && r.tag == TagOf(Policy(s, r.b))
    ensures Leads(Only(s, id, Asking(r)), id, Only(s, id, Asking(v)))
    ensures v.k == r.k && v.b == r.b && v.stage == SETTLED && v.eff == r.eff && v.again == {}
    ensures v.stored == r.stored && v.chained == r.stored
  {
    var start, all := Only(s, id, Asking(r)), Over(s.grants, r.k, r.b);
    AddsChains(s, id, r, all);
    var r1 := r.(chained := all);
    assert r.chained + all == all;
    InfoGoes(s, id, r1, EndChains);
    var r2 := r1.(stage := CHAINED);
    Leading(start, id, Only(s, id, Asking(r1)), Only(s, id, Asking(r2)));
    NoneBlocks(s, id, Asking(r2));
    InfoGoes(s, id, r2, Reread);
    v := r2.(stage := SETTLED, atPolicy := Policy(s, r.b), atGrants := s.grants);
    Leading(start, id, Only(s, id, Asking(r2)), Only(s, id, Asking(v)));
  }

  /** A principal with any access to a bucket is told what it may do there and by
      which grants. */
  lemma InfoCompletes(s: State, id: nat, k: Did, b: Did) returns (n: State, v: InfoRequest)
    requires s.calls == map[] && k in s.keys && s.keys[k] in s.live && b in s.buckets
    requires EffectiveSet(Policy(s, b), s.keys[k]) != {}
    ensures Leads(s, id, n) && n == Only(s, id, Asking(v)) && v.stage == ANSWERED
    ensures v.eff == EffectiveSet(Policy(s, b), s.keys[k]) && v.stored == Over(s.grants, k, b) && v.chained == v.stored
  {
    var r := InfoRequest(k, s.keys[k], b, BEGUN, {}, None, {}, {}, {}, None, {});
    Begins(s, id, Asking(r));
    var r1 := InfoReads(s, id, r);
    Leading(s, id, Only(s, id, Asking(r)), Only(s, id, Asking(r1)));
    var r2 := InfoSettles(s, id, r1);
    Leading(s, id, Only(s, id, Asking(r1)), Only(s, id, Asking(r2)));
    ListsAgain(s, id, r2, r2.stored);
    var r3 := r2.(again := r2.stored);
    assert r2.again + r2.stored == r2.stored;
    Leading(s, id, Only(s, id, Asking(r2)), Only(s, id, Asking(r3)));
    InfoGoes(s, id, r3, Answer);
    v := r3.(stage := ANSWERED);
    n := Only(s, id, Asking(v));
    Leading(s, id, Only(s, id, Asking(r3)), n);
  }

  // ------------------------------------------------------------- principal removals

  lemma RemovalGoes(s: State, id: nat, r: Removal, e: Event, v: Removal)
    requires CanRemoval(Only(s, id, Removing(r)), id, r, e) && !e.Begin? && !e.Fail?
    requires RemovalNext(Only(s, id, Removing(r)), r, e) == Some(v)
    ensures Leads(Only(s, id, Removing(r)), id, Only(RemovalTables(s, r, e), id, Removing(v)))
  {
    RemovalTablesOnly(s, id, r, e);
    CallGoes(s, id, Removing(r), e, Removing(v), RemovalTables(s, r, e));
  }

  lemma RemovalTablesOnly(s: State, id: nat, r: Removal, e: Event)
    ensures RemovalTables(Only(s, id, Removing(r)), r, e) == Only(RemovalTables(s, r, e), id, Removing(r))
  {}

  lemma {:induction false} RemovalLocks(s: State, id: nat, r: Removal, todo: set<Did>)
    requires (r.stage == REVOKING || r.stage == LISTING_KEYS) && todo <= r.listed && todo !! r.auds
    ensures Leads(Only(s, id, Removing(r)), id, Only(s, id, Removing(r.(auds := r.auds + todo))))
    decreases todo
  {
    NoneBlocks(s, id, Removing(r));
    if todo == {} {
      assert r.auds + todo == r.auds;
      Stays(Only(s, id, Removing(r)), id);
    } else {
      var k :| k in todo;
      var v := r.(auds := r.auds + {k});
      RemovalGoes(s, id, r, LockAudience(k), v);
      RemovalLocks(s, id, v, todo - {k});
      assert v.auds + (todo - {k}) == r.auds + todo;
      Leading(Only(s, id, Removing(r)), id, Only(s, id, Removing(v)), Only(s, id, Removing(r.(auds := r.auds + todo))));
    }
  }

  /** The principal's keys listed, locked and announced, at either end of the
      removal. */
  lemma RemovalPublishes(s: State, id: nat, r: Removal, now: nat) returns (t: State, v: Removal)
    requires (r.stage == BEGUN || r.stage == CHECKED) && r.strip.None?
    ensures Leads(Only(s, id, Removing(r)), id, Only(t, id, Removing(v)))
    ensures t == s.(revoked := t.revoked) && v.p == r.p && v.strip.None? && v.todo == r.todo
    ensures v.stage == (if r.stage == BEGUN then REVOKED else REMOVED) && v.listed == set k | k in s.keys && s.keys[k] == r.p
  {
    var start := Only(s, id, Removing(r));
    var listed := set k | k in s.keys && s.keys[k] == r.p;
    var r1 := r.(stage := if r.stage == BEGUN then REVOKING else LISTING_KEYS, listed := listed, auds := {});
    RemovalGoes(s, id, r, ListOwnKeys, r1);
    RemovalLocks(s, id, r1, listed);
    var r2 := r1.(auds := listed);
    assert r1.auds + listed == listed;
    Leading(start, id, Only(s, id, Removing(r1)), Only(s, id, Removing(r2)));
    v := r2.(stage := if r2.stage == REVOKING then REVOKED else REMOVED);
    RemovalGoes(s, id, r2, Announce(now), v);
    t := RemovalTables(s, r2, Announce(now));
    Leading(start, id, Only(s, id, Removing(r2)), Only(t, id, Removing(v)));
  }

  // The rewrite of one policy.

  lemma StripGoes(s: State, id: nat, r: Removal, e: Event, w: Write)
    requires r.stage == STRIPPING && r.strip == Some(w)
    requires e.TakeTenant? || e.CheckNamed? || e.TakeBucket? || e.Load?
    requires WriteCan(Only(s, id, Removing(r)), id, w, e)
    ensures Leads(Only(s, id, Removing(r)), id, Only(s, id, Removing(r.(strip := Some(WriteDo(Only(s, id, Removing(r)), w, e))))))
  {
    RemovalGoes(s, id, r, e, r.(strip := Some(WriteDo(Only(s, id, Removing(r)), w, e))));
  }

  lemma FreeForRemoval(s: State, id: nat, r: Removal)
    ensures forall l, m :: Free(Only(s, id, Removing(r)), id, l, m)
  {}

  lemma {:induction false} StripChecks(s: State, id: nat, r: Removal, w: Write, todo: set<PrincipalId>)
    requires r.stage == STRIPPING && r.strip == Some(w) && w.stage == TENANT && w.doc.Some?
    requires todo <= NamedSet(w.doc.value) * s.live && todo !! w.checked
    ensures Leads(Only(s, id, Removing(r)), id, Only(s, id, Removing(r.(strip := Some(w.(checked := w.checked + todo))))))
    decreases todo
  {
    FreeForRemoval(s, id, r);
    if todo == {} {
      assert w.checked + todo == w.checked;
      Stays(Only(s, id, Removing(r)), id);
    } else {
      var p :| p in todo;
      var v := w.(checked := w.checked + {p});
      StripGoes(s, id, r, CheckNamed(p), w);
      StripChecks(s, id, r.(strip := Some(v)), v, todo - {p});
      assert v.checked + (todo - {p}) == w.checked + todo;
      Leading(Only(s, id, Removing(r)), id, Only(s, id, Removing(r.(strip := Some(v)))),
              Only(s, id, Removing(r.(strip := Some(w.(checked := w.checked + todo))))));
    }
  }

  /** A rewrite up to its bucket's lock. */
  lemma StripStarts(s: State, id: nat, r: Removal, w: Write) returns (v: Write)
    requires r.stage == STRIPPING && r.strip == Some(w) && w.stage == BEGUN && w.checked == {}
    requires w.doc.Some? ==> NamedSet(w.doc.value) <= s.live
    ensures Leads(Only(s, id, Removing(r)), id, Only(s, id, Removing(r.(strip := Some(v)))))
    ensures v == w.(stage := BUCKET, checked := v.checked)
  {
    var start := Only(s, id, Removing(r));
    FreeForRemoval(s, id, r);
    v := w;
    if w.doc.Some? {
      StripGoes(s, id, r, TakeTenant, w);
      var u := w.(stage := TENANT);
      StripChecks(s, id, r.(strip := Some(u)), u, NamedSet(w.doc.value));
      v := u.(checked := u.checked + NamedSet(w.doc.value));
      Leading(start, id, Only(s, id, Removing(r.(strip := Some(u)))), Only(s, id, Removing(r.(strip := Some(v)))));
      FreeForRemoval(s, id, r.(strip := Some(v)));
    } else {
      Stays(start, id);
      assert r.(strip := Some(w)) == r;
    }
    StripGoes(s, id, r.(strip := Some(v)), TakeBucket, v);
    var u := v.(stage := BUCKET);
    Leading(start, id, Only(s, id, Removing(r.(strip := Some(v)))), Only(s, id, Removing(r.(strip := Some(u)))));
    v := u;
  }

  /** And from there to its commit. */
  lemma StripEnds(s: State, id: nat, r: Removal, w: Write)
    requires r.stage == STRIPPING && r.strip == Some(w) && w.stage == BUCKET && !w.rotates && w.remaining == {} && w.auds == {}
    requires w.bucket in s.policies && w.bucket in s.buckets && w.condition == IfMatch(ETag(s.policies[w.bucket]))
    ensures Leads(Only(s, id, Removing(r)), id, Only(Committed(s, w, {}), id, Removing(r.(strip := None))))
  {
    var start := Only(s, id, Removing(r));
    FreeForRemoval(s, id, r);
    StripGoes(s, id, r, Load, w);
    var v := w.(stage := LOADED, was := Policy(s, w.bucket));
    var q := r.(strip := Some(v));
    RemovalGoes(s, id, q, CommitWrite({}), r.(strip := None));
    assert Committed(s, v, {}) == Committed(s, w, {});
    Leading(start, id, Only(s, id, Removing(q)), Only(Committed(s, w, {}), id, Removing(r.(strip := None))));
  }

  /** What the removal's loop keeps: policies name live principals, what is still
      listed is stored as listed, and nothing else names p. */
  ghost predicate Stripping(s: State, r: Removal) {
    && r.stage == STRIPPING && r.strip.None?
    && s.policies.Keys <= s.buckets && (forall b :: b in s.policies ==> NamedSet(s.policies[b]) <= s.live)
    && (forall b :: b in r.todo ==> b in s.policies && s.policies[b] == r.todo[b])
    && forall b :: b in s.policies && b !in r.todo ==> r.p !in NamedSet(s.policies[b])
  }

  /** The tables a strip leaves alone. */
  ghost predicate OnlyPolicies(s: State, t: State) {
    t.live == s.live && t.keys == s.keys && t.unfinished == s.unfinished && t.grants == s.grants && t.buckets == s.buckets
  }

  lemma StripsOne(s: State, id: nat, r: Removal, b: Did) returns (t: State)
    requires Stripping(s, r) && b in r.todo
    ensures Leads(Only(s, id, Removing(r)), id, Only(t, id, Removing(r.(todo := r.todo - {b}))))
    ensures OnlyPolicies(s, t) && Stripping(t, r.(todo := r.todo - {b}))
  {
    var start, v := Only(s, id, Removing(r)), r.(todo := r.todo - {b});
    if r.p !in NamedSet(r.todo[b]) {
      t := s;
      RemovalGoes(s, id, r, StripNext(b), v);
    } else {
      var w := StripWrite(b, r.todo[b], r.p);
      var q := v.(strip := Some(w));
      RemovalGoes(s, id, r, StripNext(b), q);
      NamesLive(s, b, r.p);
      var u := StripStarts(s, id, q, w);
      Leading(start, id, Only(s, id, Removing(q)), Only(s, id, Removing(v.(strip := Some(u)))));
      StripEnds(s, id, v.(strip := Some(u)), u);
      t := Committed(s, u, {});
      Leading(start, id, Only(s, id, Removing(v.(strip := Some(u)))), Only(t, id, Removing(v)));
      StrippedGoesOn(s, r, b, u);
    }
  }

  lemma NamesLive(s: State, b: Did, p: PrincipalId)
    requires b in s.policies && NamedSet(s.policies[b]) <= s.live
    ensures var d := StripDocument(s.policies[b], p); NamedSet(d) <= s.live && p !in NamedSet(d)
  {
    forall q ensures q in NamedSet(StripDocument(s.policies[b], p)) <==> q in NamedSet(s.policies[b]) && q != p {
      StripNames(s.policies[b], p, q);
    }
  }

  lemma StrippedGoesOn(s: State, r: Removal, b: Did, w: Write)
    requires Stripping(s, r) && b in r.todo && w.bucket == b && w.doc == StripWrite(b, r.todo[b], r.p).doc && w.auds == {}
    ensures Stripping(Committed(s, w, {}), r.(todo := r.todo - {b})) && OnlyPolicies(s, Committed(s, w, {}))
  {
    NamesLive(s, b, r.p);
    assert Committed(s, w, {}).grants == s.grants;
  }

  lemma {:induction false} StripsAll(s: State, id: nat, r: Removal) returns (t: State)
    requires Stripping(s, r)
    ensures Leads(Only(s, id, Removing(r)), id, Only(t, id, Removing(r.(todo := map[]))))
    ensures OnlyPolicies(s, t) && Stripping(t, r.(todo := map[]))
    decreases |r.todo|
  {
    if r.todo == map[] {
      t := s;
      Stays(Only(s, id, Removing(r)), id);
    } else {
      var b :| b in r.todo;
      var u := StripsOne(s, id, r, b);
      var v := r.(todo := r.todo - {b});
      assert v.todo.Keys == r.todo.Keys - {b} && |v.todo.Keys| == |v.todo| && |r.todo.Keys| == |r.todo|;
      t := StripsAll(u, id, v);
      Leading(Only(s, id, Removing(r)), id, Only(u, id, Removing(v)), Only(t, id, Removing(r.(todo := map[]))));
    }
  }

  /** What a removal comes to. */
  ghost predicate Removed(s: State, n: State, p: PrincipalId) {
    && n.calls == map[] && n.live == s.live - {p} && n.unfinished == s.unfinished - {p}
    && (forall b :: b in n.policies ==> p !in NamedSet(n.policies[b]))
    && n.keys == map k | k in s.keys && s.keys[k] != p :: s.keys[k]
  }

  /** A principal, there or half removed before, can be removed: no policy names
      it, no key is its own, and it is live no more. */
  lemma RemovalCompletes(s: State, id: nat, p: PrincipalId, now: nat, later: nat) returns (n: State)
    requires Reachable(s) && s.calls == map[]
    ensures Leads(s, id, n) && Removed(s, n, p)
  {
    ReachableInv(s);
    Whole(s);
    var r := Removal(p, BEGUN, map[], None, {}, {});
    Begins(s, id, Removing(r));
    var t, v := RemovalPublishes(s, id, r, now);
    Leading(s, id, Only(s, id, Removing(r)), Only(t, id, Removing(v)));
    var u, q := ListsForStrip(t, id, v);
    Leading(s, id, Only(t, id, Removing(v)), Only(u, id, Removing(q)));
    var x := StripsAll(u, id, q);
    var e := q.(todo := map[]);
    Leading(s, id, Only(u, id, Removing(q)), Only(x, id, Removing(e)));
    n := RemovesRow(x, id, e, later);
    Leading(s, id, Only(x, id, Removing(e)), n);
  }

  /** The grants cleared and the policies listed. */
  lemma ListsForStrip(s: State, id: nat, r: Removal) returns (t: State, v: Removal)
    requires r.stage == REVOKED && r.strip.None? && r.todo == map[]
    requires s.policies.Keys <= s.buckets && forall b :: b in s.policies ==> NamedSet(s.policies[b]) <= s.live
    ensures Leads(Only(s, id, Removing(r)), id, Only(t, id, Removing(v)))
    ensures t == s.(grants := t.grants) && v.p == r.p && Stripping(t, v)
  {
    var q := r.(stage := CLEARED, listed := {}, auds := {});
    RemovalGoes(s, id, r, ClearGrants, q);
    t := RemovalTables(s, r, ClearGrants);
    v := q.(stage := STRIPPING, todo := map b | b in s.policies && Indexed(s.policies[b], r.p) :: s.policies[b]);
    assert v.todo == map b | b in t.policies && Indexed(t.policies[b], r.p) :: t.policies[b];
    RemovalGoes(t, id, q, ListForStrip, v);
    Leading(Only(s, id, Removing(r)), id, Only(t, id, Removing(q)), Only(t, id, Removing(v)));
    forall b | b in t.policies && b !in v.todo ensures r.p !in NamedSet(t.policies[b]) {}
  }

  lemma RemovesRow(s: State, id: nat, r: Removal, now: nat) returns (n: State)
    requires Stripping(s, r) && r.todo == map[] && forall k :: k in s.keys ==> s.keys[k] in s.live
    ensures Leads(Only(s, id, Removing(r)), id, n) && Removed(s, n, r.p)
  {
    FreeForRemoval(s, id, r);
    if r.p in s.live {
      n := RemovesKeys(s, id, r, now);
    } else {
      RemovalTablesOnly(s, id, r, PrincipalGone);
      CallEnds(s, id, Removing(r), PrincipalGone, RemovalTables(s, r, PrincipalGone));
      n := RemovalTables(s, r, PrincipalGone).(calls := map[]);
    }
  }

  lemma RemovesKeys(s: State, id: nat, r: Removal, now: nat) returns (n: State)
    requires Stripping(s, r) && r.todo == map[] && r.p in s.live
    ensures Leads(Only(s, id, Removing(r)), id, n) && Removed(s, n, r.p)
  {
    var start := Only(s, id, Removing(r));
    FreeForRemoval(s, id, r);
    var r1, r2 := r.(stage := HELD), r.(stage := CHECKED);
    RemovalGoes(s, id, r, HoldPrincipal, r1);
    RemovalGoes(s, id, r1, CheckPolicies, r2);
    Leading(start, id, Only(s, id, Removing(r1)), Only(s, id, Removing(r2)));
    var t, v := RemovalPublishes(s, id, r2, now);
    Leading(start, id, Only(s, id, Removing(r2)), Only(t, id, Removing(v)));
    n := RemovesListed(t, id, v);
    Leading(start, id, Only(t, id, Removing(v)), n);
  }

  lemma RemovesListed(s: State, id: nat, r: Removal) returns (n: State)
    requires r.stage == REMOVED && r.listed == set k | k in s.keys && s.keys[k] == r.p
    requires forall b :: b in s.policies ==> r.p !in NamedSet(s.policies[b])
    ensures Leads(Only(s, id, Removing(r)), id, n) && Removed(s, n, r.p)
  {
    var t := RemovalTables(s, r, CommitRemoval);
    RemovalTablesOnly(s, id, r, CommitRemoval);
    CallEnds(s, id, Removing(r), CommitRemoval, t);
    n := t.(calls := map[]);
    assert n.keys == map k | k in s.keys && k !in r.listed :: s.keys[k];
  }

}
