/** What is published as revoked, exactly: the unexpired grants an announcement
    covers, and nothing else ever. */
module ProtocolRevocations {
  import opened Common
  import opened BucketPolicy
  import opened Permissions
  import opened Delegations
  import opened Protocol
  import opened ProtocolInvariant
  import opened ProtocolLocks
  import opened ProtocolQuiet
  import opened ProtocolCommits
  import opened ProtocolSafety
  import opened ProtocolTables
  import opened ProtocolHistory
  import opened ProtocolConservation

  /** d is what call c is about to take away: over the bucket a write gives another
      policy, from a key of a principal whose access it changes; a removed
      principal's key's; a deleted key's; or over a deleted bucket. */
  ghost predicate TakesAway(s: State, c: Call, d: Delegation) {
    && d in s.grants
    && match c
       case Writing(w) =>
         && d.subject == w.bucket && d.audience in s.bound
         && EffectiveSet(Policy(s, w.bucket), s.bound[d.audience]) != EffectiveSet(w.doc, s.bound[d.audience])
       case Removing(r) => d.audience in s.bound && s.bound[d.audience] == r.p
       case Deleting(r) => d.audience == r.k
       case DroppingBucket(r) => d.subject == r.b
       case _ => false
  }

  /** Only an announcement publishes, and only what its call takes away and has not
      expired by the clock. */
  lemma PublishesOnlyTaken(s: State, id: nat, e: Event, link: string)
    requires Inv(s) && Can(s, id, e) && link in Do(s, id, e).revoked && link !in s.revoked
    ensures e.Announce? && id in s.calls
    ensures exists d: Delegation :: d.link == link && TakesAway(s, s.calls[id], d) && (d.expires.Some? ==> e.now < d.expires.value)
  {
    Whole(s);
    assert !e.Begin? && !e.Fail?;
    DoTables(s, id, e);
    OnlyAnnouncing(s, s.calls[id], e);
    var d :| d in Unexpired(Covers(s, s.calls[id]), e.now) && d.link == link;
    assert CallInv(s, s.calls[id]);
    CoveredIsTaken(s, id, e, d);
  }

  lemma OnlyAnnouncing(s: State, c: Call, e: Event)
    ensures Tables(s, c, e).revoked == if e.Announce? then s.revoked + Links(Unexpired(Covers(s, c), e.now)) else s.revoked
  {
    match c
    case Writing(w) =>
    case Removing(r) =>
    case Creating(r) => CreationGrows(s, r, e);
    case _ =>
  }

  lemma CoveredIsTaken(s: State, id: nat, e: Event, d: Delegation)
    requires InvParts(s) && Can(s, id, e) && e.Announce? && id in s.calls && d in Covers(s, s.calls[id])
    ensures TakesAway(s, s.calls[id], d)
  {
    assert CallInv(s, s.calls[id]);
    match s.calls[id]
    case Writing(w) => MayWrite(s, id, e);
    case _ =>
  }

  /** Some call announces that it takes away d, not expired by its clock. */
  ghost predicate Publishes(s: State, d: Delegation) {
    exists id: nat, now: nat ::
      Can(s, id, Announce(now)) && id in s.calls && TakesAway(s, s.calls[id], d) && (d.expires.Some? ==> now < d.expires.value)
  }

  lemma PublishedBy(s: State, n: State, link: string)
    requires Inv(s) && Next(s, n) && link in n.revoked && link !in s.revoked
    ensures exists d: Delegation :: d.link == link && Publishes(s, d)
  {
    var id, e :| Can(s, id, e) && n == Do(s, id, e);
    PublishesOnlyTaken(s, id, e, link);
    assert e == Announce(e.now);
    var d: Delegation :| d.link == link && TakesAway(s, s.calls[id], d) && (d.expires.Some? ==> e.now < d.expires.value);
    assert Publishes(s, d);
  }

  /** Nothing else is ever revoked: each link published in a run was that of a
      delegation stored, unexpired, and being taken away. */
  lemma {:induction false} RevokedWasTaken(states: seq<State>, i: nat, link: string)
    requires Run(states) && i < |states| && link in states[i].revoked
    ensures exists a: nat, d: Delegation :: a < i && d.link == link && Publishes(states[a], d)
  {
    assert i > 0;
    if link in states[i - 1].revoked {
      RevokedWasTaken(states, i - 1, link);
    } else {
      RunInv(states, i - 1);
      assert Next(states[i - 1], states[i]);
      PublishedBy(states[i - 1], states[i], link);
    }
  }
}
