/** The exceptions the exact theorems make are met by runs: some holding does go
    stale and some grant is lost. */
module ProtocolExceptions {
  import opened Common
  import opened BucketPolicy
  import opened Permissions
  import opened Delegations
  import opened Protocol
  import opened ProtocolHistory
  import opened ProtocolConservation
  import opened ProtocolAgreement
  import opened ProtocolWitness

  function Last(hs: seq<History>): History
    requires hs != []
  {
    hs[|hs| - 1]
  }

  /** A run in which a created key's holding is stale. */
  lemma StaleHoldingReachable(action: string)
    requires action != POLICY_WILDCARD && CommandSet({action}) != {}
    ensures exists hs: seq<History> :: Chronicle(hs) && K in Last(hs).s.created && K in Last(hs).s.keys && Holding(K, B) in Last(hs).stale
  {
    StaleGrantReachable(action);
    var s: State :| Reachable(s) && K in s.created && K in s.keys && Clean(s, s.keys[K])
      && Required(s, s.keys[K], B) == {} && Held(s.grants, K, B) == CommandSet({action});
    var states :| Run(states) && states[|states| - 1] == s;
    var hs := RunHasChronicle(states);
    Agreement(hs, |hs| - 1, K, B);
    assert Last(hs).s == s;
  }

  lemma {:induction false} EverKept(hs: seq<History>, i: nat, j: nat, d: Delegation)
    requires Chronicle(hs) && i <= j < |hs| && d in hs[i].ever
    ensures d in hs[j].ever
  {
    if i < j {
      EverKept(hs, i, j - 1, d);
      assert StepAt(hs, j - 1);
      var id, e := Stepped(hs[j - 1], hs[j]);
    }
  }

  /** What never expires never lapses. */
  lemma NeverLapses(hs: seq<History>, i: nat, d: Delegation)
    requires Chronicle(hs) && i < |hs| && d.expires == None
    ensures d !in hs[i].lapsed
  {
    if d in hs[i].lapsed {
      LapsedHadExpired(hs, i, d);
      assert false;
    }
  }

  /** A grant of a created key that never expires, gone and unpublished, is lost. */
  lemma GoneIsLost(hs: seq<History>, i: nat, d: Delegation)
    requires Chronicle(hs) && i < |hs| && d in hs[i].s.grants && d.expires == None && d.audience in Last(hs).s.created
    requires d !in Last(hs).s.grants && d.link !in Last(hs).s.revoked
    ensures d in Last(hs).lost
  {
    var last := |hs| - 1;
    ChronicleBalanced(hs, i);
    BalancedWhole(hs[i]);
    EverKept(hs, i, last, d);
    NothingVanishes(hs, last, d);
    NeverLapses(hs, last, d);
  }

  /** A run in which a created key's grant is lost. */
  lemma LossReachable(action: string)
    requires action != POLICY_WILDCARD && CommandSet({action}) != {}
    ensures exists hs: seq<History>, d: Delegation :: Chronicle(hs) && d.audience in Last(hs).s.created && d in Last(hs).lost
  {
    UnpublishedLossReachable(action);
    var s: State, d: Delegation :| Had(s, d) && d.audience in s.created && d.audience in s.keys && d.expires == None
      && d !in s.grants && d.link !in s.revoked;
    var states: seq<State>, i: nat :| Run(states) && i < |states| && states[|states| - 1] == s && d in states[i].grants;
    var hs := RunHasChronicle(states);
    assert Last(hs).s == s && hs[i].s == states[i];
    GoneIsLost(hs, i, d);
  }
}
