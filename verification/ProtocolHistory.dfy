/** What happened before a state: the bookkeeping the theorems about whole runs
    speak of. No step depends on it. */
module ProtocolHistory {
  import opened Common
  import opened BucketPolicy
  import opened Permissions
  import opened Delegations
  import opened Protocol

  /** A key and a bucket it may hold grants over. */
  datatype Holding = Holding(key: Did, bucket: Did)

  datatype History = History(
    s: State,
    // every delegation ever stored
    ever: set<Delegation>,
    // those an announcement covered and left out, expired by its clock
    lapsed: set<Delegation>,
    // for each bucket deletion in flight, what was stored over its bucket since
    // it announced
    late: map<nat, set<Delegation>>,
    // of those, what the deletion went on to drop with nothing accounting for it
    lost: set<Delegation>,
    // keys and buckets whose grants a store or a bucket's end left behind
    stale: set<Holding>)

  /** What a call's announcement covers. */
  function Covers(s: State, c: Call): set<Delegation> {
    match c
    case Writing(w) => Replaced(s, w)
    case Removing(r) => set d | d in s.grants && d.audience in r.listed
    case Deleting(r) => set d | d in s.grants && d.audience == r.k
    case DroppingBucket(r) => set d | d in s.grants && d.subject == r.b
    case _ => {}
  }

  /** Published as revoked, or expired when it was to be. */
  predicate Accounted(h: History, d: Delegation) {
    d.link in h.s.revoked || d in h.lapsed
  }

  /** The call is a deletion of bucket b that has announced and not yet deleted
      its rows. */
  predicate Announced(c: Call, b: Did) {
    c.DroppingBucket? && c.drop.b == b && ANNOUNCED <= c.drop.stage < DOOMED
  }

  function LateOf(h: History, j: nat): set<Delegation> {
    if j in h.late then h.late[j] else {}
  }

  // -------------------------------------------------------------- what a step adds

  /** What an announcement finds expired. */
  function Lapsing(s: State, id: nat, e: Event): set<Delegation> {
    if e.Announce? && id in s.calls then set d | d in Covers(s, s.calls[id]) && Expired(d, e.now) else {}
  }

  /** What a creation stores over a bucket whose deletion c has announced. */
  function StoredBeside(c: Call, e: Event): set<Delegation> {
    if e.StoreGrants? then set d | d in e.issued && Announced(c, d.subject) else {}
  }

  function LateAfter(h: History, id: nat, e: Event): map<nat, set<Delegation>> {
    var n := Do(h.s, id, e);
    map j | j in n.calls && n.calls[j].DroppingBucket? ::
      if j !in h.s.calls || (j == id && (e.Announce? || e.Begin?)) then {} else LateOf(h, j) + StoredBeside(h.s.calls[j], e)
  }

  /** What a bucket deletion's commit drops of what was stored since it announced,
      with nothing accounting for it. */
  function Losing(h: History, id: nat, e: Event): set<Delegation> {
    if e.CommitBucketDelete? && id in h.s.calls && h.s.calls[id].DroppingBucket?
    then set d | d in h.s.calls[id].drop.doomed && d in h.s.grants && d in LateOf(h, id) && !Accounted(h, d)
    else {}
  }

  function Holdings(ds: set<Delegation>): set<Holding> {
    set d | d in ds :: Holding(d.audience, d.subject)
  }

  /** The holdings a creation stores other than they are required by now: the
      policy it read has been overtaken, and its guard let it pass. */
  function StoringStale(s: State, id: nat, e: Event): set<Holding> {
    if e.StoreGrants? && id in s.calls && s.calls[id].Creating? then
      var r := s.calls[id].creation;
      set d | d in e.issued && Held(e.issued, r.k, d.subject) != Required(s, r.p, d.subject) :: Holding(d.audience, d.subject)
    else {}
  }

  /** The holdings over a bucket that outlive it. */
  function Orphaned(s: State, n: State): set<Holding> {
    Holdings(set d | d in n.grants && d.subject in s.buckets && d.subject !in n.buckets)
  }

  /** A holding is stale from such a store, or from its bucket's end, until
      something drops or rewrites what the key holds there. */
  function StaleAfter(h: History, id: nat, e: Event): set<Holding> {
    var n := Do(h.s, id, e);
    (h.stale - Holdings(h.s.grants - n.grants)) + StoringStale(h.s, id, e) + Orphaned(h.s, n)
  }

  function After(h: History, id: nat, e: Event): History {
    var n := Do(h.s, id, e);
    History(
      n,
      h.ever + n.grants,
      h.lapsed + Lapsing(h.s, id, e),
      LateAfter(h, id, e),
      h.lost + Losing(h, id, e),
      StaleAfter(h, id, e))
  }

  const START: History := History(INITIAL, {}, {}, map[], {}, {})

  ghost predicate Steps(h: History, n: History, id: nat, e: Event) {
    Can(h.s, id, e) && n == After(h, id, e)
  }

  /** Call id steps from h to n by e; a quantifier for the same reason as the
      invariant. */
  ghost predicate Takes(h: History, n: History, id: nat, e: Event) {
    forall g :: g == h ==> Steps(g, n, id, e)
  }

  lemma Took(h: History, n: History, id: nat, e: Event)
    requires Takes(h, n, id, e)
    ensures Can(h.s, id, e) && n == After(h, id, e)
  {
    assert Steps(h, n, id, e);
  }

  ghost predicate Follows(h: History, n: History) {
    exists id, e :: Takes(h, n, id, e)
  }

  lemma Stepped(h: History, n: History) returns (id: nat, e: Event)
    requires Follows(h, n)
    ensures Takes(h, n, id, e) && Can(h.s, id, e) && n == After(h, id, e)
  {
    id, e :| Takes(h, n, id, e);
    Took(h, n, id, e);
  }

  ghost predicate StepAt(hs: seq<History>, i: nat)
    requires i + 1 < |hs|
  {
    Follows(hs[i], hs[i + 1])
  }

  /** A run with its history. */
  ghost predicate Chronicle(hs: seq<History>) {
    && |hs| > 0 && hs[0] == START
    && forall i: nat :: i + 1 < |hs| ==> StepAt(hs, i)
  }

  /** Every run has one. */
  lemma {:induction false} RunHasChronicle(states: seq<State>) returns (hs: seq<History>)
    requires Run(states)
    ensures Chronicle(hs) && |hs| == |states| && forall i :: 0 <= i < |hs| ==> hs[i].s == states[i]
  {
    if |states| == 1 {
      hs := [START];
    } else {
      var init := states[..|states| - 1];
      forall i | 0 <= i < |init| - 1 ensures Next(init[i], init[i + 1]) { assert Next(states[i], states[i + 1]); }
      assert Run(init);
      var before := RunHasChronicle(init);
      var last := |init| - 1;
      assert Next(states[last], states[last + 1]);
      var id, e :| Can(states[last], id, e) && states[last + 1] == Do(states[last], id, e);
      var n := After(before[last], id, e);
      hs := before + [n];
      assert Steps(before[last], n, id, e);
      assert Takes(before[last], n, id, e);
      forall i: nat | i + 1 < |hs| ensures StepAt(hs, i) {
        if i < last { assert StepAt(before, i); }
      }
    }
  }
}
