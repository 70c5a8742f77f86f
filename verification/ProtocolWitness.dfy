/** A run that leaves a key holding commands no policy grants: the policy is
    deleted between a creation's listing and its store. The rotation leaves the
    key with nothing, so the creation's guard sees nothing to refuse. */
module ProtocolWitness {
  import opened Common
  import opened BucketPolicy
  import opened Permissions
  import opened Delegations
  import opened Protocol

  const P: PrincipalId := "p"
  const B: Did := "b"
  const K: Did := "k"

  function Doc(action: string): Document {
    Document("v", [Statement("", Allow, {P}, {action}, {})])
  }

  lemma DocFacts(action: string)
    requires action != POLICY_WILDCARD
    ensures NamedSet(Doc(action)) == {P} && !HasWildcard(Doc(action))
    ensures EffectiveSet(Some(Doc(action)), P) == {action}
    ensures Indexed(Doc(action), P)
    ensures ChangedSet(None, Some(Doc(action)), {P}) == {P}
    ensures ChangedSet(Some(Doc(action)), None, {P}) == {P}
  {
    var d := Doc(action);
    var st := d.statements[0];
    assert st in d.statements && !st.All() && P in st.principal && st.Names(P);
    assert NamedSet(d) == {P};
    assert Expand(st.actions) == {action};
    assert ActionsOf(d.statements, Allow, P) == {action};
    assert ActionsOf(d.statements, Deny, P) == {};
    assert EffectiveSet(None, P) == {};
  }

  /** Every command of the action, over B, to K. */
  function Stored(action: string): set<Delegation> {
    set c | c in CommandSet({action}) :: Delegation(c, "", K, B, c, None)
  }

  lemma StoredHeld(action: string)
    ensures Held(Stored(action), K, B) == CommandSet({action})
    ensures Held({}, K, B) == {}
  {
    forall c | c in CommandSet({action}) ensures c in Held(Stored(action), K, B) {
      assert Delegation(c, "", K, B, c, None) in Over(Stored(action), K, B);
    }
  }

  lemma Step(s: State, id: nat, e: Event) returns (n: State)
    requires Reachable(s) && Can(s, id, e)
    ensures n == Do(s, id, e) && Reachable(n)
  {
    n := Do(s, id, e);
    var states :| Run(states) && states[|states| - 1] == s;
    var more := states + [n];
    assert Next(s, n);
    forall i | 0 <= i < |more| - 1 ensures Next(more[i], more[i + 1]) {
      if i < |states| - 1 { assert Next(states[i], states[i + 1]); }
    }
    assert Run(more);
  }

  /** The principal and the bucket exist. */
  function Settled(): State {
    INITIAL.(live := {P}, buckets := {B}, usedBuckets := {B})
  }

  /** And the bucket's policy allows the principal the action. */
  function Allowed(action: string): State {
    Settled().(policies := map[B := Doc(action)], born := map[B := 1], revisions := {Revision(B, Doc(action))})
  }

  /** And a creation of K has read that policy. */
  function Planned(action: string): State {
    Allowed(action).(
      keys := map[K := P], bound := map[K := P], inserted := {K},
      calls := map[0 := Creating(KeyCreation(K, P, PLANNED, map[B := 1], map[B := Doc(action)]))])
  }

  lemma ReachSettled()
    ensures Reachable(Settled())
  {
    assert Run([INITIAL]);
    var s := Step(INITIAL, 0, Begin(Adding(PrincipalAddition(P, BEGUN))));
    s := Step(s, 0, TakeTenant);
    s := Step(s, 0, CommitAdd);
    s := Step(s, 0, Begin(MakingBucket(B)));
    s := Step(s, 0, KeepBucket);
    assert s == Settled();
  }

  /** Call id of base stands at c. */
  function At(base: State, id: nat, c: Call): State {
    base.(calls := base.calls[id := c])
  }

  lemma WriteMay(s: State, id: nat, w: Write, e: Event)
    requires id in s.calls && s.calls[id] == Writing(w) && WriteCan(s, id, w, e)
    requires !e.Begin? && !e.Fail? && !e.CommitWrite?
    ensures Can(s, id, e)
  {}

  lemma WriteDoes(base: State, id: nat, w: Write, e: Event)
    requires !e.Begin? && !e.Fail? && !e.CommitWrite?
    requires e.Announce? ==> Replaced(At(base, id, Writing(w)), w) == {}
    ensures Do(At(base, id, Writing(w)), id, e) == At(base, id, Writing(WriteDo(At(base, id, Writing(w)), w, e)))
  {}

  /** The write takes a step that commits and publishes nothing. */
  lemma WriteAt(base: State, id: nat, w: Write, e: Event, v: Write)
    requires Reachable(At(base, id, Writing(w))) && WriteCan(At(base, id, Writing(w)), id, w, e)
    requires v == WriteDo(At(base, id, Writing(w)), w, e) && !e.Begin? && !e.Fail? && !e.CommitWrite?
    requires e.Announce? ==> w.remaining == {} || base.grants == {}
    ensures Reachable(At(base, id, Writing(v)))
  {
    var s := At(base, id, Writing(w));
    WriteMay(s, id, w, e);
    WriteDoes(base, id, w, e);
    var n := Step(s, id, e);
  }

  lemma CreationMay(s: State, id: nat, r: KeyCreation, e: Event)
    requires id in s.calls && s.calls[id] == Creating(r) && CanKeyCreate(s, id, r, e)
    requires !e.Begin? && !e.Fail?
    ensures Can(s, id, e)
  {}

  lemma DoIs(s: State, id: nat, e: Event, c: Call)
    requires id in s.calls && !e.Begin? && !e.Fail? && NextCall(s, s.calls[id], e) == Some(c)
    ensures Do(s, id, e) == Tables(s, s.calls[id], e).(calls := s.calls[id := c])
  {}

  lemma CreationNextIs(s: State, r: KeyCreation, e: Event, v: KeyCreation)
    requires CreationNext(s, r, e) == Some(v)
    ensures NextCall(s, Creating(r), e) == Some(Creating(v)) && Tables(s, Creating(r), e) == CreationTables(s, r, e)
  {}

  lemma CreationDoes(base: State, id: nat, r: KeyCreation, e: Event, v: KeyCreation)
    requires CreationNext(At(base, id, Creating(r)), r, e) == Some(v) && !e.Begin? && !e.Fail?
    ensures Do(At(base, id, Creating(r)), id, e) == At(CreationTables(base, r, e), id, Creating(v))
  {
    var s := At(base, id, Creating(r));
    CreationNextIs(s, r, e, v);
    DoIs(s, id, e, Creating(v));
    CreationTablesAt(base, id, r, e);
    assert s.calls[id := Creating(v)] == base.calls[id := Creating(v)];
  }

  lemma CreationTablesAt(base: State, id: nat, r: KeyCreation, e: Event)
    ensures CreationTables(At(base, id, Creating(r)), r, e) == At(CreationTables(base, r, e), id, Creating(r))
    ensures CreationTables(base, r, e).calls == base.calls
  {}

  lemma CreationAt(base: State, id: nat, r: KeyCreation, e: Event, v: KeyCreation)
    requires Reachable(At(base, id, Creating(r))) && CanKeyCreate(At(base, id, Creating(r)), id, r, e)
    requires CreationNext(At(base, id, Creating(r)), r, e) == Some(v) && !e.Begin? && !e.Fail?
    ensures Reachable(At(CreationTables(base, r, e), id, Creating(v)))
  {
    CreationMay(At(base, id, Creating(r)), id, r, e);
    CreationDoes(base, id, r, e, v);
    var n := Step(At(base, id, Creating(r)), id, e);
  }

  /** A put of a document naming P, up to holding the bucket's rows. */
  lemma ReachLoaded(base: State, doc: Document, w: Write)
    requires Reachable(base) && base.calls == map[] && base.live == {P} && B in base.buckets && NamedSet(doc) == {P}
    requires w == BeginWrite(B, Some(doc), Unconditional, true).(stage := LOADED, checked := {P}, was := Policy(base, B))
    ensures Reachable(At(base, 0, Writing(w)))
  {
    var w0 := BeginWrite(B, Some(doc), Unconditional, true);
    var s := Step(base, 0, Begin(Writing(w0)));
    assert s == At(base, 0, Writing(w0));
    var w1 := w0.(stage := TENANT);
    WriteAt(base, 0, w0, TakeTenant, w1);
    var w2 := w1.(checked := {P});
    WriteAt(base, 0, w1, CheckNamed(P), w2);
    var w3 := w2.(stage := BUCKET);
    WriteAt(base, 0, w2, TakeBucket, w3);
    WriteAt(base, 0, w3, Load, w);
  }

  /** No call of base but id holds a lock. */
  ghost predicate Alone(base: State, id: nat) {
    forall j, l, m :: j in base.calls && j != id ==> !Holds(base.calls[j], l, m)
  }

  lemma AloneFree(base: State, id: nat, c: Call, l: Lock, m: Mode)
    requires Alone(base, id)
    ensures Free(At(base, id, c), id, l, m)
  {}

  /** From there to holding the affected principal's row, with its keys listed. */
  lemma ReachListed(base: State, id: nat, w: Write, v: Write)
    requires Alone(base, id) && base.live == {P} && forall k :: k in base.keys ==> base.keys[k] == P
    requires w.rotates && w.stage == LOADED && (w.doc.Some? ==> NamedSet(w.doc.value) == {P})
    requires w.affected == {} && w.locked == {} && ChangedSet(w.was, w.doc, {P}) == {P}
    requires v == w.(stage := LISTED, affected := {P}, locked := {P}, listed := base.keys.Keys)
    requires Reachable(At(base, id, Writing(w)))
    ensures Reachable(At(base, id, Writing(v)))
  {
    var w1 := w.(stage := AFFECTED, affected := {P});
    WriteAt(base, id, w, Affect, w1);
    var w2 := w1.(locked := {P});
    AloneFree(base, id, Writing(w1), PrincipalRow(P), NoKeyUpdate);
    WriteAt(base, id, w1, LockRow(P), w2);
    assert (set k | k in base.keys && base.keys[k] in w2.affected) == base.keys.Keys;
    WriteAt(base, id, w2, ListKeys, v);
  }

  /** And on to the commit, when the keys hold nothing. */
  lemma ReachPublished(base: State, id: nat, w: Write, v: Write)
    requires Alone(base, id) && base.grants == {} && (base.keys.Keys == {} || base.keys.Keys == {K})
    requires w.stage == LISTED && w.listed == base.keys.Keys && w.auds == {} && w.remaining == {}
    requires v == w.(stage := PUBLISHED, auds := w.listed, remaining := w.listed)
    requires Reachable(At(base, id, Writing(w)))
    ensures Reachable(At(base, id, Writing(v)))
  {
    var w1 := w.(auds := w.listed);
    if K in base.keys {
      AloneFree(base, id, Writing(w), AudienceLock(K), Update);
      WriteAt(base, id, w, LockAudience(K), w1);
    } else {
      assert w1 == w;
    }
    var w2 := w1.(stage := READ, remaining := w.listed);
    WriteAt(base, id, w1, ReadGrants, w2);
    WriteAt(base, id, w2, Announce(0), v);
  }

  lemma ReachAllowed(action: string)
    requires action != POLICY_WILDCARD
    ensures Reachable(Allowed(action))
  {
    DocFacts(action);
    ReachSettled();
    var w := BeginWrite(B, Some(Doc(action)), Unconditional, true).(stage := LOADED, checked := {P});
    ReachLoaded(Settled(), Doc(action), w);
    var u := w.(stage := LISTED, affected := {P}, locked := {P});
    ReachListed(Settled(), 0, w, u);
    var v := u.(stage := PUBLISHED);
    ReachPublished(Settled(), 0, u, v);
    CommitAllowed(action, v);
  }

  lemma CommitAllowed(action: string, v: Write)
    requires action != POLICY_WILDCARD && Reachable(At(Settled(), 0, Writing(v)))
    requires v == Write(B, Some(Doc(action)), Unconditional, true, PUBLISHED, {P}, None, {P}, {P}, {}, {}, {})
    ensures Reachable(Allowed(action))
  {
    var s := Step(At(Settled(), 0, Writing(v)), 0, CommitWrite({}));
    assert s == Allowed(action);
  }

  lemma ReachPlanned(action: string)
    requires action != POLICY_WILDCARD
    ensures Reachable(Planned(action))
  {
    DocFacts(action);
    ReachAllowed(action);
    var base := Allowed(action).(bound := map[K := P]);
    var r0 := KeyCreation(K, P, BEGUN, map[], map[]);
    var s := Step(Allowed(action), 0, Begin(Creating(r0)));
    assert s == At(base, 0, Creating(r0));
    var r1 := r0.(stage := FOUND);
    CreationAt(base, 0, r0, GetPrincipal, r1);
    var r2 := r0.(stage := INSERTING);
    CreationAt(base, 0, r1, HoldForInsert, r2);
    var r3 := r0.(stage := INSERTED);
    CreationAt(base, 0, r2, InsertKey, r3);
    ReachRead(action, base.(keys := map[K := P], inserted := {K}), r3);
  }

  lemma ListsIt(action: string, base: State, r: KeyCreation, r1: KeyCreation)
    requires action != POLICY_WILDCARD && base.policies == map[B := Doc(action)] && base.born == map[B := 1]
    requires r == KeyCreation(K, P, INSERTED, map[], map[]) && r1 == r.(stage := LISTING, cands := map[B := 1])
    ensures CreationNext(At(base, 0, Creating(r)), r, ListPolicies) == Some(r1)
  {
    DocFacts(action);
    var s := At(base, 0, Creating(r));
    var cands := map b | b in s.policies && Indexed(s.policies[b], P) :: Born(s, b);
    assert cands.Keys == {B} && cands[B] == 1;
    assert cands == map[B := 1];
  }

  lemma ReachRead(action: string, base: State, r: KeyCreation)
    requires action != POLICY_WILDCARD
    requires base == Allowed(action).(keys := map[K := P], bound := map[K := P], inserted := {K})
    requires r == KeyCreation(K, P, INSERTED, map[], map[]) && Reachable(At(base, 0, Creating(r)))
    ensures Reachable(Planned(action))
  {
    DocFacts(action);
    var r1 := r.(stage := LISTING, cands := map[B := 1]);
    ListsIt(action, base, r, r1);
    CreationAt(base, 0, r, ListPolicies, r1);
    var r2 := r1.(docs := map[B := Doc(action)]);
    CreationAt(base, 0, r1, ReadPolicy(B), r2);
    var r3 := r2.(stage := PLANNED);
    CreationAt(base, 0, r2, PoliciesRead, r3);
    assert At(base, 0, Creating(r3)) == Planned(action);
  }

  /** The policy's deletion begins, while the creation stands where it is. */
  lemma ReachDeleting(action: string, w: Write)
    requires action != POLICY_WILDCARD
    requires w == BeginWrite(B, None, Unconditional, true).(stage := LOADED, was := Some(Doc(action)))
    ensures Reachable(At(Planned(action), 1, Writing(w)))
  {
    ReachPlanned(action);
    var w0 := BeginWrite(B, None, Unconditional, true);
    var s := Step(Planned(action), 1, Begin(Writing(w0)));
    assert s == At(Planned(action), 1, Writing(w0));
    var w1 := w0.(stage := BUCKET);
    WriteAt(Planned(action), 1, w0, TakeBucket, w1);
    WriteAt(Planned(action), 1, w1, Load, w);
  }

  lemma ReachDeleted(action: string)
    requires action != POLICY_WILDCARD
    ensures Reachable(Planned(action).(policies := map[]))
  {
    DocFacts(action);
    var w := BeginWrite(B, None, Unconditional, true).(stage := LOADED, was := Some(Doc(action)));
    ReachDeleting(action, w);
    var u := w.(stage := LISTED, affected := {P}, locked := {P}, listed := {K});
    ReachListed(Planned(action), 1, w, u);
    var v := u.(stage := PUBLISHED, auds := {K}, remaining := {K});
    ReachPublished(Planned(action), 1, u, v);
    CommitDeleted(action, v);
  }

  lemma CommitDeleted(action: string, v: Write)
    requires action != POLICY_WILDCARD && Reachable(At(Planned(action), 1, Writing(v)))
    requires v == Write(B, None, Unconditional, true, PUBLISHED, {}, Some(Doc(action)), {P}, {P}, {K}, {K}, {K})
    ensures Reachable(Planned(action).(policies := map[]))
  {
    assert Commands(None, P) == {} && Held({}, K, B) == {};
    var s := Step(At(Planned(action), 1, Writing(v)), 1, CommitWrite({}));
    assert s == Planned(action).(policies := map[]);
  }

  lemma StoreStep(action: string, base: State, r: KeyCreation, last: State)
    requires action != POLICY_WILDCARD
    requires base == Planned(action).(policies := map[], calls := map[])
    requires r == KeyCreation(K, P, OWN_LOCKED, map[B := 1], map[B := Doc(action)])
    requires last == base.(grants := Stored(action), minted := Links(Stored(action)))
    requires Reachable(At(base, 0, Creating(r)))
    ensures Reachable(At(last, 0, Creating(r.(stage := STORED))))
  {
    DocFacts(action);
    StoredHeld(action);
    var e := StoreGrants(Stored(action));
    assert CanKeyCreate(At(base, 0, Creating(r)), 0, r, e);
    CreationAt(base, 0, r, e, r.(stage := STORED));
    assert CreationTables(base, r, e) == last;
  }

  /** The key is created, holding what it read; the policy is gone. */
  function Stale(action: string): State {
    Allowed(action).(
      policies := map[], keys := map[K := P], bound := map[K := P], inserted := {K},
      grants := Stored(action), minted := Links(Stored(action)), created := {K})
  }

  lemma ReachStored(action: string)
    requires action != POLICY_WILDCARD
    ensures Reachable(Stale(action).(
              created := {}, calls := map[0 := Creating(KeyCreation(K, P, STORED, map[B := 1], map[B := Doc(action)]))]))
  {
    ReachDeleted(action);
    var base := Planned(action).(policies := map[], calls := map[]);
    var r := KeyCreation(K, P, PLANNED, map[B := 1], map[B := Doc(action)]);
    assert Planned(action).(policies := map[]) == At(base, 0, Creating(r));
    var r1 := r.(stage := OWN_LOCKED);
    CreationAt(base, 0, r, LockOwn, r1);
    var last := base.(grants := Stored(action), minted := Links(Stored(action)));
    StoreStep(action, base, r1, last);
    assert At(last, 0, Creating(r.(stage := STORED))) == Stale(action).(created := {}, calls := map[0 := Creating(r.(stage := STORED))]);
  }

  lemma ReachStale(action: string)
    requires action != POLICY_WILDCARD
    ensures Reachable(Stale(action))
  {
    ReachStored(action);
    var r := KeyCreation(K, P, STORED, map[B := 1], map[B := Doc(action)]);
    var s := Step(Stale(action).(created := {}, calls := map[0 := Creating(r)]), 0, FinishCreate);
    assert s == Stale(action);
  }

  /** For any action that maps to a command: a created key of a principal no
      removal touches can hold commands while its principal has none. */
  lemma StaleGrantReachable(action: string)
    requires action != POLICY_WILDCARD && CommandSet({action}) != {}
    ensures exists s :: Reachable(s) && K in s.created && K in s.keys && Clean(s, s.keys[K])
              && Required(s, s.keys[K], B) == {} && Held(s.grants, K, B) == CommandSet({action})
  {
    var s := Stale(action);
    ReachStale(action);
    StoredHeld(action);
    assert Required(s, P, B) == {};
  }

  // --------------------------------------- a stale holding a delete does not see

  /** A document that denies P the action. */
  function Denial(action: string): Document {
    Document("v", [Statement("", Deny, {P}, {action}, {})])
  }

  lemma DenialFacts(action: string)
    ensures NamedSet(Denial(action)) == {P} && EffectiveSet(Some(Denial(action)), P) == {}
    ensures ChangedSet(None, Some(Denial(action)), {P}) == {}
    ensures ChangedSet(Some(Denial(action)), None, {P}) == {}
  {
    var d := Denial(action);
    var st := d.statements[0];
    assert st in d.statements && !st.All() && P in st.principal;
    assert NamedSet(d) == {P} && !HasWildcard(d);
    assert ActionsOf(d.statements, Allow, P) == {};
  }

  /** A write that affects no one goes from its rows to its commit. */
  lemma ReachIdle(base: State, w: Write)
    requires base.calls == map[] && base.live == {P} && w.rotates && w.stage == LOADED
    requires ChangedSet(w.was, w.doc, {P}) == {} && (w.doc.Some? ==> NamedSet(w.doc.value) == {P})
    requires w.affected == {} && w.locked == {} && w.listed == {} && w.auds == {} && w.remaining == {}
    requires Reachable(At(base, 0, Writing(w)))
    ensures Reachable(At(base, 0, Writing(w.(stage := PUBLISHED))))
  {
    WriteAt(base, 0, w, Affect, w.(stage := AFFECTED));
    WriteAt(base, 0, w.(stage := AFFECTED), ListKeys, w.(stage := LISTED));
    WriteAt(base, 0, w.(stage := LISTED), ReadGrants, w.(stage := READ));
    WriteAt(base, 0, w.(stage := READ), Announce(0), w.(stage := PUBLISHED));
  }

  /** The stale key, under the denial. */
  function Denied(action: string): State {
    Stale(action).(
      policies := map[B := Denial(action)], born := map[B := 2],
      revisions := {Revision(B, Doc(action)), Revision(B, Denial(action))})
  }

  lemma ReachDenied(action: string)
    requires action != POLICY_WILDCARD
    ensures Reachable(Denied(action))
  {
    DenialFacts(action);
    ReachStale(action);
    var w := BeginWrite(B, Some(Denial(action)), Unconditional, true).(stage := LOADED, checked := {P});
    ReachLoaded(Stale(action), Denial(action), w);
    ReachIdle(Stale(action), w);
    CommitDenial(action, w.(stage := PUBLISHED));
  }

  lemma CommitDenial(action: string, v: Write)
    requires Reachable(At(Stale(action), 0, Writing(v)))
    requires v == Write(B, Some(Denial(action)), Unconditional, true, PUBLISHED, {P}, None, {}, {}, {}, {}, {})
    ensures Reachable(Denied(action))
  {
    var s := Step(At(Stale(action), 0, Writing(v)), 0, CommitWrite({}));
    assert s == Denied(action);
  }

  lemma ReachDenialGone(action: string, w: Write)
    requires action != POLICY_WILDCARD
    requires w == BeginWrite(B, None, Unconditional, true).(stage := PUBLISHED, was := Some(Denial(action)))
    ensures Reachable(At(Denied(action), 0, Writing(w)))
  {
    DenialFacts(action);
    ReachDenied(action);
    var w0 := BeginWrite(B, None, Unconditional, true);
    var s := Step(Denied(action), 0, Begin(Writing(w0)));
    assert s == At(Denied(action), 0, Writing(w0));
    WriteAt(Denied(action), 0, w0, TakeBucket, w0.(stage := BUCKET));
    WriteAt(Denied(action), 0, w0.(stage := BUCKET), Load, w.(stage := LOADED));
    ReachIdle(Denied(action), w.(stage := LOADED));
  }

  /** A stale holding outlives even the policy's deletion: put a document that
      grants its principal nothing, then delete it, and neither write changes the
      principal's access, so neither touches the key. */
  lemma StaleSurvivesDelete(action: string)
    requires action != POLICY_WILDCARD && CommandSet({action}) != {}
    ensures exists s: State, id: nat, issued :: Reachable(s) && Can(s, id, CommitWrite(issued))
              && s.calls[id].Writing? && s.calls[id].write.bucket == B && s.calls[id].write.doc == None
              && K in s.created && K in s.keys && Clean(s, s.keys[K])
              && Held(Do(s, id, CommitWrite(issued)).grants, K, B) == CommandSet({action})
  {
    var w := BeginWrite(B, None, Unconditional, true).(stage := PUBLISHED, was := Some(Denial(action)));
    ReachDenialGone(action, w);
    var s := At(Denied(action), 0, Writing(w));
    StoredHeld(action);
    assert Do(s, 0, CommitWrite({})).grants == Stored(action);
    assert Can(s, 0, CommitWrite({}));
  }

  // ------------------------------------------- a grant that goes unpublished

  /** A run that once stored d ends in s. */
  ghost predicate Had(s: State, d: Delegation) {
    exists states: seq<State>, i: nat :: Run(states) && i < |states| && states[|states| - 1] == s && d in states[i].grants
  }

  lemma HadNow(s: State, d: Delegation)
    requires Reachable(s) && d in s.grants
    ensures Had(s, d)
  {
    var states: seq<State> :| Run(states) && states[|states| - 1] == s;
    assert d in states[|states| - 1].grants;
  }

  lemma HadStep(s: State, id: nat, e: Event, d: Delegation) returns (n: State)
    requires Had(s, d) && Can(s, id, e)
    ensures n == Do(s, id, e) && Had(n, d)
  {
    n := Do(s, id, e);
    var states: seq<State>, i: nat :| Run(states) && i < |states| && states[|states| - 1] == s && d in states[i].grants;
    var more := states + [n];
    assert Next(s, n);
    forall j | 0 <= j < |more| - 1 ensures Next(more[j], more[j + 1]) {
      if j < |states| - 1 { assert Next(states[j], states[j + 1]); }
    }
    assert more[i] == states[i] && more[|more| - 1] == n;
    assert Run(more);
  }

  function Dropping(stage: nat): BucketDeletion { BucketDeletion(B, stage, {}, {}, {}) }

  /** The bucket's deletion has published, the creation stands where it was. */
  lemma ReachAnnounced(action: string)
    requires action != POLICY_WILDCARD
    ensures Reachable(At(Planned(action), 1, DroppingBucket(Dropping(ANNOUNCED))))
  {
    ReachPlanned(action);
    var base := Planned(action);
    var s := Step(base, 1, Begin(DroppingBucket(Dropping(BEGUN))));
    assert s == At(base, 1, DroppingBucket(Dropping(BEGUN)));
    s := Step(s, 1, TakeBucket);
    assert s == At(base, 1, DroppingBucket(Dropping(LOCKED)));
    assert Unexpired({}, 0) == {};
    s := Step(s, 1, Announce(0));
    assert s == At(base, 1, DroppingBucket(Dropping(ANNOUNCED)));
  }

  /** The tables with the creation's grants stored and its key created. */
  function Created(action: string): State {
    Allowed(action).(
      keys := map[K := P], bound := map[K := P], inserted := {K}, created := {K},
      grants := Stored(action), minted := Links(Stored(action)))
  }

  lemma ReachCreated(action: string)
    requires action != POLICY_WILDCARD
    ensures Reachable(At(Created(action), 1, DroppingBucket(Dropping(ANNOUNCED))))
  {
    ReachAnnounced(action);
    var drop := DroppingBucket(Dropping(ANNOUNCED));
    var base := At(Planned(action).(calls := map[]), 1, drop);
    var r := KeyCreation(K, P, PLANNED, map[B := 1], map[B := Doc(action)]);
    assert At(Planned(action), 1, drop) == At(base, 0, Creating(r));
    var r1 := r.(stage := OWN_LOCKED);
    CreationAt(base, 0, r, LockOwn, r1);
    StoreBeside(action, base, r1);
    var last := base.(grants := Stored(action), minted := Links(Stored(action)));
    FinishBeside(action, last, r.(stage := STORED));
    assert last.(created := {K}) == At(Created(action), 1, drop);
  }

  lemma StoreBeside(action: string, base: State, r: KeyCreation)
    requires action != POLICY_WILDCARD && base.grants == {} && base.minted == {} && base.bound == map[K := P]
    requires r == KeyCreation(K, P, OWN_LOCKED, map[B := 1], map[B := Doc(action)])
    requires Reachable(At(base, 0, Creating(r)))
    ensures Reachable(At(base.(grants := Stored(action), minted := Links(Stored(action))), 0, Creating(r.(stage := STORED))))
  {
    DocFacts(action);
    StoredHeld(action);
    var e := StoreGrants(Stored(action));
    assert CanKeyCreate(At(base, 0, Creating(r)), 0, r, e);
    CreationAt(base, 0, r, e, r.(stage := STORED));
    assert CreationTables(base, r, e) == base.(grants := Stored(action), minted := Links(Stored(action)));
  }

  lemma FinishBeside(action: string, base: State, r: KeyCreation)
    requires r.stage == STORED && r.k == K && K in base.keys && base.created == {} && 0 !in base.calls
    requires Reachable(At(base, 0, Creating(r)))
    ensures Reachable(base.(created := {K}))
  {
    var s := Step(At(base, 0, Creating(r)), 0, FinishCreate);
    assert s == base.(created := {K});
  }

  lemma DropMay(s: State, id: nat, r: BucketDeletion, e: Event)
    requires id in s.calls && s.calls[id] == DroppingBucket(r) && CanBucketDelete(s, id, r, e)
    requires !e.Begin? && !e.Fail?
    ensures Can(s, id, e)
  {}

  /** The deletion takes a step that commits and publishes nothing. */
  lemma DropAt(base: State, r: BucketDeletion, e: Event, v: BucketDeletion, d: Delegation)
    requires Had(At(base, 1, DroppingBucket(r)), d) && CanBucketDelete(At(base, 1, DroppingBucket(r)), 1, r, e)
    requires DropNext(At(base, 1, DroppingBucket(r)), r, e) == Some(v)
    requires !e.Begin? && !e.Fail? && !e.Announce? && !e.CommitBucketDelete?
    ensures Had(At(base, 1, DroppingBucket(v)), d)
  {
    var s := At(base, 1, DroppingBucket(r));
    DropMay(s, 1, r, e);
    DoIs(s, 1, e, DroppingBucket(v));
    var n := HadStep(s, 1, e, d);
    assert n == At(base, 1, DroppingBucket(v));
  }

  lemma DropLists(base: State, d: Delegation, r: BucketDeletion)
    requires d.subject == B && d.audience == K && forall x :: x in base.grants ==> x.audience == K
    requires d in base.grants && Had(At(base, 1, DroppingBucket(Dropping(ANNOUNCED))), d)
    requires r == BucketDeletion(B, AUDIENCES, {K}, {}, {})
    ensures Had(At(base, 1, DroppingBucket(r)), d)
  {
    assert (set x | x in base.grants && x.subject == B :: x.audience) == {K};
    DropAt(base, Dropping(ANNOUNCED), ListAudiences, r, d);
  }

  lemma DropLocks(base: State, d: Delegation, r: BucketDeletion)
    requires r == BucketDeletion(B, AUDIENCES, {K}, {}, {}) && base.calls == map[]
    requires Had(At(base, 1, DroppingBucket(r)), d)
    ensures Had(At(base, 1, DroppingBucket(r.(auds := {K}))), d)
  {
    assert r.auds + {K} == {K};
    DropAt(base, r, LockAudience(K), r.(auds := {K}), d);
  }

  lemma DropDeletes(base: State, d: Delegation, r: BucketDeletion)
    requires r == BucketDeletion(B, AUDIENCES, {K}, {K}, {}) && forall x :: x in base.grants ==> x.subject == B
    requires Had(At(base, 1, DroppingBucket(r)), d)
    ensures Had(At(base, 1, DroppingBucket(r.(stage := DOOMED, doomed := base.grants))), d)
  {
    assert (set x | x in base.grants && x.subject == B) == base.grants;
    DropAt(base, r, DeleteRows, r.(stage := DOOMED, doomed := base.grants), d);
  }

  lemma DropsUnpublished(action: string, d: Delegation) returns (s: State)
    requires d in Stored(action) && Had(At(Created(action), 1, DroppingBucket(Dropping(ANNOUNCED))), d)
    ensures Had(s, d) && K in s.created && K in s.keys && s.grants == {} && s.revoked == {}
  {
    var r := BucketDeletion(B, AUDIENCES, {K}, {}, {});
    DropLists(Created(action), d, r);
    DropLocks(Created(action), d, r);
    DropDeletes(Created(action), d, r.(auds := {K}));
    var v := BucketDeletion(B, DOOMED, {K}, {K}, Stored(action));
    DropMay(At(Created(action), 1, DroppingBucket(v)), 1, v, CommitBucketDelete);
    s := HadStep(At(Created(action), 1, DroppingBucket(v)), 1, CommitBucketDelete, d);
  }

  /** Without the exception conservation is false: a delegation a created key once
      held can be gone, unpublished, though it never expires. */
  lemma UnpublishedLossReachable(action: string)
    requires action != POLICY_WILDCARD && CommandSet({action}) != {}
    ensures exists s, d :: Had(s, d) && d.audience in s.created && d.audience in s.keys && d.expires == None
              && d !in s.grants && d.link !in s.revoked
  {
    var c :| c in CommandSet({action});
    var d := Delegation(c, "", K, B, c, None);
    assert d in Stored(action);
    ReachCreated(action);
    HadNow(At(Created(action), 1, DroppingBucket(Dropping(ANNOUNCED))), d);
    var s := DropsUnpublished(action, d);
    assert d.audience == K;
  }
}
