/** What a bucket's deletion takes: every grant stored over the bucket, but those a
    creation stores between the deletion's delete of its rows and its commit. */
module ProtocolBuckets {
  import opened Common
  import opened BucketPolicy
  import opened Permissions
  import opened Delegations
  import opened Protocol
  import opened ProtocolInvariant
  import opened ProtocolLocks
  import opened ProtocolQuiet
  import opened ProtocolCommits
  import opened ProtocolSafety
  import opened ProtocolTables
  import opened ProtocolHistory
  import opened ProtocolConservation

  /** Call x is a bucket deletion that has deleted its rows and not yet committed,
      and d, over its bucket, is not among them. */
  ghost predicate Missed(s: State, x: nat, d: Delegation) {
    && x in s.calls && s.calls[x].DroppingBucket? && s.calls[x].drop.stage == DOOMED
    && s.calls[x].drop.b == d.subject && d in s.grants && d !in s.calls[x].drop.doomed
  }

  /** A creation stores d behind such a deletion. */
  ghost predicate StoresBehind(h: History, n: History, x: nat, d: Delegation) {
    && x in h.s.calls && h.s.calls[x].DroppingBucket? && h.s.calls[x].drop.stage == DOOMED
    && h.s.calls[x].drop.b == d.subject
    && exists id: nat, issued :: Takes(h, n, id, StoreGrants(issued)) && d in issued
  }

  /** The deletion's own step to that stage takes all there is. */
  lemma DeletesAll(s: State, id: nat, e: Event, d: Delegation)
    requires Can(s, id, e)
    ensures !Missed(Do(s, id, e), id, d)
  {
    if id in Do(s, id, e).calls && Do(s, id, e).calls[id].DroppingBucket? {
      if e.Begin? {
        BegunTables(s, id, e);
      } else {
        OwnStep(s, id, e);
        OwnDrop(s, s.calls[id], e);
        MayDrop(s, id, e);
        DropNextCall(s, s.calls[id].drop, e);
        if Do(s, id, e).calls[id].drop.stage == DOOMED {
          DropReaches(s, id, s.calls[id].drop, e);
          QuietTables(s, id, e);
        }
      }
    }
  }

  lemma OwnDrop(s: State, c: Call, e: Event)
    requires NextCall(s, c, e).Some? && NextCall(s, c, e).value.DroppingBucket?
    ensures c.DroppingBucket?
  {}

  lemma DropReaches(s: State, id: nat, r: BucketDeletion, e: Event)
    requires CanBucketDelete(s, id, r, e) && DropNext(s, r, e).Some? && DropNext(s, r, e).value.stage == DOOMED
    ensures DropNext(s, r, e).value.doomed == set d | d in s.grants && d.subject == r.b
    ensures DropNext(s, r, e).value.b == r.b && !Commits(e)
  {}

  /** A policy write issues only over the bucket it holds. */
  lemma WriterHolds(s: State, id: nat, e: Event, d: Delegation)
    requires Inv(s) && Can(s, id, e) && e.CommitWrite? && d in e.issued
    ensures id in s.calls && Holds(s.calls[id], BucketLock(d.subject), Update)
  {
    Whole(s);
    Issuers(s, id, e);
    assert CallInv(s, s.calls[id]);
    if s.calls[id].Writing? { WritingCommits(s, id, e); } else { RemovalCommits(s, id, e); }
  }

  /** A policy write issues nothing over a bucket another call is deleting. */
  lemma NotIssuedOver(s: State, id: nat, e: Event, x: nat, d: Delegation)
    requires Inv(s) && Can(s, id, e) && d in Issuing(e) && Others(s, id, x)
    requires s.calls[x].DroppingBucket? && s.calls[x].drop.stage == DOOMED && s.calls[x].drop.b == d.subject
    ensures e.StoreGrants?
  {
    Whole(s);
    assert Holds(s.calls[x], BucketLock(d.subject), Update);
    OwnAlone(s, x, BucketLock(d.subject), Update);
    if e.CommitWrite? { WriterHolds(s, id, e, d); }
  }

  lemma MissedStep(h: History, n: History, x: nat, d: Delegation)
    requires Inv(h.s) && Follows(h, n) && Missed(n.s, x, d)
    ensures Missed(h.s, x, d) || StoresBehind(h, n, x, d)
  {
    var id, e := Stepped(h, n);
    DeletesAll(h.s, id, e, d);
    OthersKept(h.s, id, e);
    assert Others(h.s, id, x);
    if d !in h.s.grants {
      DoAdds(h.s, id, e);
      NotIssuedOver(h.s, id, e, x, d);
      assert Takes(h, n, id, StoreGrants(e.issued));
    }
  }

  /** Stored behind deletion x at step a, and missed by it ever since. */
  ghost predicate MissedFrom(hs: seq<History>, a: nat, i: nat, x: nat, d: Delegation)
    requires a < i < |hs|
  {
    StoresBehind(hs[a], hs[a + 1], x, d) && forall m :: a < m <= i ==> Missed(hs[m].s, x, d)
  }

  lemma {:induction false} MissedSince(hs: seq<History>, i: nat, x: nat, d: Delegation) returns (a: nat)
    requires Chronicle(hs) && i < |hs| && Missed(hs[i].s, x, d)
    ensures a < i && MissedFrom(hs, a, i, x, d)
  {
    assert hs[0].s.calls == map[];
    a := i - 1;
    ChronicleBalanced(hs, a);
    assert StepAt(hs, a);
    MissedStep(hs[a], hs[i], x, d);
    if Missed(hs[a].s, x, d) { a := MissedSince(hs, a, x, d); }
  }

  /** The step is x's commit of a bucket's deletion. */
  ghost predicate Deletes(h: History, n: History, x: nat, b: Did) {
    && Takes(h, n, x, CommitBucketDelete)
    && x in h.s.calls && h.s.calls[x].DroppingBucket? && h.s.calls[x].drop.b == b
  }

  lemma LeftByDeletion(h: History, n: History, x: nat, d: Delegation)
    requires Deletes(h, n, x, d.subject) && d in n.s.grants
    ensures Missed(h.s, x, d)
  {
    Took(h, n, x, CommitBucketDelete);
    MayDrop(h.s, x, CommitBucketDelete);
    DroppingCommits(h.s, x, CommitBucketDelete);
    StepIs(h.s, x, CommitBucketDelete);
  }

  /** A bucket's deletion leaves no grant over it but those creations stored after
      it had deleted its rows, and it leaves neither the bucket nor its policy. */
  lemma DeletionTakesAll(hs: seq<History>, i: nat, x: nat, b: Did)
    requires Chronicle(hs) && i + 1 < |hs| && Deletes(hs[i], hs[i + 1], x, b)
    ensures b !in hs[i + 1].s.buckets && b !in hs[i + 1].s.policies
    ensures forall d :: d in hs[i + 1].s.grants && d.subject == b ==>
              exists a: nat :: a < i && MissedFrom(hs, a, i, x, d)
  {
    BucketGone(hs[i], hs[i + 1], x, b);
    forall d | d in hs[i + 1].s.grants && d.subject == b ensures exists a: nat :: a < i && MissedFrom(hs, a, i, x, d) {
      LeftByDeletion(hs[i], hs[i + 1], x, d);
      var a := MissedSince(hs, i, x, d);
    }
  }

  lemma BucketGone(h: History, n: History, x: nat, b: Did)
    requires Deletes(h, n, x, b)
    ensures b !in n.s.buckets && b !in n.s.policies
  {
    Took(h, n, x, CommitBucketDelete);
    DroppingCommits(h.s, x, CommitBucketDelete);
    StepIs(h.s, x, CommitBucketDelete);
  }
}
