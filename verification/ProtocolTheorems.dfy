/** What the grants protocol guarantees, over every interleaving of any number of
    policy writes, removals, key creations and deletions, principal adds, bucket
    creations and deletions and info requests. */
module ProtocolTheorems {
  import opened Common
  import opened Access
  import opened BucketPolicy
  import opened Permissions
  import opened Delegations
  import opened Protocol
  import opened ProtocolInvariant
  import opened ProtocolQuiet
  import opened ProtocolCommits
  import opened ProtocolLocks
  import opened ProtocolSafety
  import opened ProtocolDeletes

  /** No missing grant: a key whose creation returned can do, on every bucket,
      all that the committed policy grants its principal; and nothing else,
      unless the policy grants its principal no command at all. */
  lemma NoMissingGrant(s: State, k: Did, b: Did)
    requires Reachable(s) && k in s.created && k in s.keys && Clean(s, s.keys[k])
    ensures Required(s, s.keys[k], b) <= Held(s.grants, k, b)
    ensures Required(s, s.keys[k], b) != {} ==> Held(s.grants, k, b) == Required(s, s.keys[k], b)
    ensures forall c :: b in s.policies && LetsRun(s.policies[b], s.keys[k], c) ==> CanRun(s.grants, k, b, c)
  {
    forall c ensures b in s.policies && LetsRun(s.policies[b], s.keys[k], c) ==> c in Required(s, s.keys[k], b) {
      LetsRunMeans(Policy(s, b), s.keys[k], c);
    }
    forall c { HeldMeans(s.grants, k, b, c); }
    ReachableInv(s);
    assert InStep(s, k, s.keys[k]);
    assert Matches(s, k, s.keys[k], b);
  }

  /** A key never holds a mixture of revisions: over a bucket it has nothing, or
      what one document that was the bucket's policy granted its principal. */
  lemma NeverAMixture(s: State, k: Did, b: Did)
    requires Reachable(s) && Held(s.grants, k, b) != {}
    ensures k in s.bound
    ensures exists d :: Revision(b, d) in s.revisions && Held(s.grants, k, b) == Commands(Some(d), s.bound[k])
  {
    ReachableInv(s);
    assert OneRevision(s, k, b);
    var d :| Revision(b, d) in s.revisions && Held(s.grants, k, b) == Commands(Some(d), BoundTo(s, k));
    assert EffectiveSet(Some(d), WILDCARD) == {};
    assert Commands(Some(d), WILDCARD) == {};
  }

  /** The revisions are the documents committed writes stored, no others. */
  lemma RevisionsAreCommitted(s: State, id: nat, e: Event, b: Did, d: Document)
    requires Reachable(s) && Can(s, id, e)
    requires Revision(b, d) in Do(s, id, e).revisions && Revision(b, d) !in s.revisions
    ensures e.CommitWrite? && Policy(Do(s, id, e), b) == Some(d)
  {
    if !e.CommitWrite? {
      if Commits(e) && !e.Begin? { SameRevisions(s, s.calls[id], e); StepIs(s, id, e); }
      if !Commits(e) { QuietTables(s, id, e); }
    } else {
      StepIs(s, id, e);
      CommitIsAWrite(s, id, s.calls[id], e, b, d);
    }
  }

  lemma SameRevisions(s: State, c: Call, e: Event)
    requires !e.CommitWrite?
    ensures Tables(s, c, e).revisions == s.revisions
  {
    match c
    case Removing(r) => assert RemovalTables(s, r, e).revisions == s.revisions;
    case _ =>
  }

  lemma CommitIsAWrite(s: State, id: nat, c: Call, e: Event, b: Did, d: Document)
    requires e.CommitWrite? && Revision(b, d) in Tables(s, c, e).revisions && Revision(b, d) !in s.revisions
    ensures Policy(Tables(s, c, e), b) == Some(d)
  {
    match c
    case Writing(_) =>
    case Removing(r) => assert RemovalTables(s, r, e) == if r.strip.None? then s else Committed(s, r.strip.value, e.issued);
    case _ =>
  }

  /** Removal leaves nothing behind: every committed policy names only live
      principals and every key row belongs to one. */
  lemma RemovalLeavesNothing(s: State)
    requires Reachable(s)
    ensures forall b, p :: b in s.policies && p in NamedSet(s.policies[b]) ==> p in s.live
    ensures forall k :: k in s.keys ==> s.keys[k] in s.live
  {
    ReachableInv(s);
  }

  /** A principal added, for the first time or again, has no keys, and on every
      bucket exactly the access of any principal the policy does not name. */
  lemma AddedStartsFresh(s: State, id: nat, b: Did, q: PrincipalId)
    requires Reachable(s) && Can(s, id, CommitAdd) && s.calls[id].Adding?
    requires b in s.policies && q != WILDCARD && q !in NamedSet(s.policies[b])
    ensures var p := s.calls[id].addition.p;
      && p in Do(s, id, CommitAdd).live
      && (forall k :: k in Do(s, id, CommitAdd).keys ==> Do(s, id, CommitAdd).keys[k] != p)
      && EffectiveSet(Policy(Do(s, id, CommitAdd), b), p) == EffectiveSet(Policy(s, b), q)
  {
    ReachableInv(s);
    assert CallInv(s, s.calls[id]);
    MayStep(s, id, CommitAdd);
    StepIs(s, id, CommitAdd);
    UnnamedAlike(s.policies[b], s.calls[id].addition.p, q);
  }

  lemma UnnamedAlike(d: Document, p: PrincipalId, q: PrincipalId)
    requires p != WILDCARD && q != WILDCARD && p !in NamedSet(d) && q !in NamedSet(d)
    ensures EffectiveSet(Some(d), p) == EffectiveSet(Some(d), q)
  {
    forall st | st in d.statements ensures st.Names(p) == st.Names(q) {
      assert !st.All() && p in st.principal ==> p in NamedSet(d);
      assert !st.All() && q in st.principal ==> q in NamedSet(d);
    }
    forall e ensures ActionsOf(d.statements, e, p) == ActionsOf(d.statements, e, q) {}
  }

  /** A lock held for update has one holder, one held for no key update only key
      sharers beside it, and one share-locked only sharers of either kind. */
  lemma NoConflictingHolders(s: State, i: nat, j: nat, l: Lock, a: Mode, b: Mode)
    requires Reachable(s) && i in s.calls && j in s.calls && i != j
    requires Holds(s.calls[i], l, a) && Holds(s.calls[j], l, b)
    ensures (a.KeyShare? && !b.Update?) || (b.KeyShare? && !a.Update?) || (a.Share? && b.Share?)
  {
    ReachableInv(s);
    assert Compatible(s.calls[i], s.calls[j]);
    assert !Blocks(s.calls[j], l, a);
  }

  /** No update is lost: a committing write, a Put or a Delete, replaces the very
      document its callback computed the affected principals from, its
      precondition holds of it, and it rotates exactly whom it must. Every
      principal it rotates has its access changed; a Put rotates every live
      principal, and a Delete every principal with a created key, whose access it
      changes; and every key of a rotated principal ends up holding over the
      bucket exactly what the new policy grants. */
  lemma NoLostUpdate(s: State, id: nat, issued: set<Delegation>)
    requires Reachable(s) && Can(s, id, CommitWrite(issued)) && s.calls[id].Writing?
    ensures var w, n := s.calls[id].write, Do(s, id, CommitWrite(issued));
      && w.was == Policy(s, w.bucket)
      && (match w.condition
          case IfMatch(tag) => w.bucket in s.policies && ETag(s.policies[w.bucket]) == tag
          case IfNoneMatch => w.bucket !in s.policies
          case Unconditional => true)
      && (match w.doc
          case Some(doc) => w.bucket in s.buckets && NamedSet(doc) <= s.live && n.policies == s.policies[w.bucket := doc]
          case None => w.bucket in s.policies && n.policies == s.policies - {w.bucket})
      && (forall p :: p in w.affected ==> Differs(s, n, w.bucket, p))
      && (w.doc.Some? ==> forall p :: p in s.live ==> (p in w.affected <==> Differs(s, n, w.bucket, p)))
      && (forall k :: k in s.created && k in n.keys ==> (n.keys[k] in w.affected <==> Differs(s, n, w.bucket, n.keys[k])))
      && (forall k :: k in n.keys && n.keys[k] in w.affected ==>
           Held(n.grants, k, w.bucket) == Required(n, n.keys[k], w.bucket))
  {
    ReachableAhead(s);
    Whole(s);
    var w, n := s.calls[id].write, Do(s, id, CommitWrite(issued));
    WritingCommits(s, id, CommitWrite(issued));
    assert CallInv(s, s.calls[id]);
    StepIs(s, id, CommitWrite(issued));
    forall k | k in n.keys ensures RotatedKey(s, n, w, k) { WriteRotates(s, n, id, w, issued, k); }
  }

  /** The step changes what b's policy grants p. */
  ghost predicate Differs(s: State, n: State, b: Did, p: PrincipalId) {
    EffectiveSet(Policy(s, b), p) != EffectiveSet(Policy(n, b), p)
  }

  ghost predicate RotatedKey(s: State, n: State, w: Write, k: Did) {
    k in n.keys ==>
      && (k in s.created ==> (n.keys[k] in w.affected <==> Differs(s, n, w.bucket, n.keys[k])))
      && (n.keys[k] in w.affected ==> Held(n.grants, k, w.bucket) == Required(n, n.keys[k], w.bucket))
  }

  lemma WriteRotates(s: State, n: State, id: nat, w: Write, issued: set<Delegation>, k: Did)
    requires Inv(s) && Ahead(s) && id in s.calls && s.calls[id] == Writing(w) && CanCommit(s, w, issued)
    requires SameTables(Committed(s, w, issued), n)
    ensures RotatedKey(s, n, w, k)
  {
    Whole(s);
    assert CallInv(s, s.calls[id]);
    CommittedHeld(s, w, issued, k, w.bucket);
    if k in n.keys && w.doc.None? && EffectiveSet(w.was, n.keys[k]) != {} {
      DeleteCommits(s, id, w, issued, k);
      if k !in w.remaining { BehindHeld(s, n, w, issued, k); }
    }
  }

  /** A key behind a delete holds nothing over its bucket when it commits. */
  lemma BehindHeld(s: State, n: State, w: Write, issued: set<Delegation>, k: Did)
    requires SameTables(Committed(s, w, issued), n) && Reissued(s, w, issued) && Behind(s, k, w.bucket) && k !in w.remaining
    ensures Held(n.grants, k, w.bucket) == {}
  {
    assert Over(n.grants, k, w.bucket) == {};
  }

  /** What a policy's deletion revokes: a created key of a principal it granted
      anything holds nothing over the bucket afterwards, and every other created
      key holds what it held. */
  lemma DeleteRevokes(s: State, id: nat, issued: set<Delegation>, k: Did)
    requires Reachable(s) && Can(s, id, CommitWrite(issued)) && s.calls[id].Writing? && s.calls[id].write.doc.None?
    requires k in s.created && k in s.keys
    ensures var b := s.calls[id].write.bucket;
      Held(Do(s, id, CommitWrite(issued)).grants, k, b) ==
        if EffectiveSet(Policy(s, b), s.keys[k]) != {} then {} else Held(s.grants, k, b)
  {
    ReachableAhead(s);
    Whole(s);
    var w := s.calls[id].write;
    WritingCommits(s, id, CommitWrite(issued));
    assert CallInv(s, s.calls[id]);
    StepIs(s, id, CommitWrite(issued));
    CommittedHeld(s, w, issued, k, w.bucket);
    if EffectiveSet(w.was, s.keys[k]) != {} { DeleteCommits(s, id, w, issued, k); }
  }

  /** A removal's rewrite of a policy replaces what it listed: every other
      principal's access stays, and the removed one is no longer named. */
  lemma StripLosesNothing(s: State, id: nat, issued: set<Delegation>, q: PrincipalId)
    requires Reachable(s) && Can(s, id, CommitWrite(issued)) && s.calls[id].Removing?
    ensures s.calls[id].removal.strip.Some?
    ensures var b, p, n := s.calls[id].removal.strip.value.bucket, s.calls[id].removal.p, Do(s, id, CommitWrite(issued));
      && (q != p ==> EffectiveSet(Policy(n, b), q) == EffectiveSet(Policy(s, b), q))
      && (b in n.policies ==> p !in NamedSet(n.policies[b]))
  {
    ReachableInv(s);
    var r, n := s.calls[id].removal, Do(s, id, CommitWrite(issued));
    RemovalCommits(s, id, CommitWrite(issued));
    var w := r.strip.value;
    assert CallInv(s, s.calls[id]);
    StepIs(s, id, CommitWrite(issued));
    assert RemovalTables(s, r, CommitWrite(issued)) == Committed(s, w, issued);
    if q != r.p { StripRequires(s, w, r.p, q); }
    var d: Document :| w.condition == IfMatch(ETag(d)) && w.doc == StripWrite(w.bucket, d, r.p).doc;
    StripNames(d, r.p, r.p);
  }

  // --------------------------------------------------------------- bucket info

  /** The same info request is in flight in every state from i to j. */
  ghost predicate InFlight(states: seq<State>, i: nat, j: nat, id: nat, r: InfoRequest) {
    j < |states| && forall m :: i <= m <= j ==> IsRequest(states[m], id, r)
  }

  ghost predicate IsRequest(s: State, id: nat, r: InfoRequest) {
    && id in s.calls && s.calls[id].Asking?
    && s.calls[id].info.k == r.k && s.calls[id].info.p == r.p && s.calls[id].info.b == r.b
  }

  /** State i is the one the request's re-read saw. */
  ghost predicate RereadAt(states: seq<State>, i: nat, j: nat, id: nat, r: InfoRequest) {
    && i < j && InFlight(states, i, j, id, r)
    && Policy(states[i], r.b) == r.atPolicy
    && states[i].grants == r.atGrants
  }

  lemma StaysAsking(s: State, c: Call, e: Event)
    requires NextCall(s, c, e).Some? && NextCall(s, c, e).value.Asking?
    ensures c.Asking? && NextCall(s, c, e).value.info == InfoNext(s, c.info, e)
  {}

  lemma InfoStepped(s: State, id: nat, e: Event)
    requires Can(s, id, e) && id in Do(s, id, e).calls && Do(s, id, e).calls[id].Asking?
    requires Do(s, id, e).calls[id].info.stage >= SETTLED
    ensures IsRequest(s, id, Do(s, id, e).calls[id].info)
    ensures FromReread(s, s.calls[id].info, Do(s, id, e).calls[id].info)
  {
    assert !e.Begin? && !e.Fail?;
    StepIs(s, id, e);
    StaysAsking(s, s.calls[id], e);
    MayAsk(s, id, e);
  }

  /** A request past its re-read was the same request one state before, and
      either past its re-read too or just taking it. */
  lemma RequestBefore(s: State, n: State, id: nat)
    requires Next(s, n) && id in n.calls && n.calls[id].Asking? && n.calls[id].info.stage >= SETTLED
    ensures IsRequest(s, id, n.calls[id].info)
    ensures FromReread(s, s.calls[id].info, n.calls[id].info)
  {
    var by_, e :| Can(s, by_, e) && n == Do(s, by_, e);
    if by_ == id {
      InfoStepped(s, id, e);
    } else {
      OthersKept(s, by_, e);
      assert Others(s, by_, id);
    }
  }

  ghost predicate FromReread(s: State, before: InfoRequest, r: InfoRequest) {
    if before.stage >= SETTLED then before.atPolicy == r.atPolicy && before.atGrants == r.atGrants
    else Policy(s, r.b) == r.atPolicy && s.grants == r.atGrants
  }

  lemma {:induction false} RereadExists(states: seq<State>, j: nat, id: nat)
    requires Run(states) && j < |states| && id in states[j].calls && states[j].calls[id].Asking?
    requires states[j].calls[id].info.stage >= SETTLED
    ensures exists i: nat :: RereadAt(states, i, j, id, states[j].calls[id].info)
  {
    var r := states[j].calls[id].info;
    assert j > 0;
    assert Next(states[j - 1], states[j]);
    RequestBefore(states[j - 1], states[j], id);
    var before := states[j - 1].calls[id].info;
    if before.stage < SETTLED {
      assert RereadAt(states, j - 1, j, id, r);
    } else {
      RereadExists(states, j - 1, id);
      var i: nat :| RereadAt(states, i, j - 1, id, before);
      RereadLasts(states, i, j, id, before, r);
    }
  }

  lemma RereadLasts(states: seq<State>, i: nat, j: nat, id: nat, before: InfoRequest, r: InfoRequest)
    requires 0 < j < |states| && RereadAt(states, i, j - 1, id, before) && IsRequest(states[j], id, r)
    requires before.k == r.k && before.p == r.p && before.b == r.b
    requires before.atPolicy == r.atPolicy && before.atGrants == r.atGrants
    ensures RereadAt(states, i, j, id, r)
  {}

  /** A successful bucket info is linearizable: at some instant of the request
      the permissions it returns, and there are some, were the principal's under the
      committed policy, and every grant it returns was stored. */
  lemma InfoLinearizable(states: seq<State>, j: nat, id: nat)
    requires Run(states) && j < |states| && id in states[j].calls && states[j].calls[id].Asking?
    requires states[j].calls[id].info.stage == ANSWERED
    ensures var r := states[j].calls[id].info;
      exists i: nat :: i < j && InFlight(states, i, j, id, r)
        && r.eff == EffectiveSet(Policy(states[i], r.b), r.p) && r.eff != {}
        && r.stored + r.chained <= states[i].grants
  {
    var r := states[j].calls[id].info;
    RunInv(states, j);
    Whole(states[j]);
    assert CallInv(states[j], states[j].calls[id]);
    RereadExists(states, j, id);
    var i: nat :| RereadAt(states, i, j, id, r);
    AnswerSound(states[j], r);
    assert r.eff == EffectiveSet(Policy(states[i], r.b), r.p);
  }

  lemma AnswerSound(s: State, r: InfoRequest)
    requires InfoInv(s, r) && r.stage == ANSWERED
    ensures r.eff == EffectiveSet(r.atPolicy, r.p) && r.eff != {} && r.stored + r.chained <= r.atGrants
  {
    if r.stored != {} {
      var d :| d in r.stored;
      assert d in r.again && d in r.atGrants;
      assert Meet(r.stored, r.atGrants);
    }
  }
}
