/** The lock table stays consistent: a call takes a lock only when no other call
    holds a conflicting one. */
module ProtocolLocks {
  import opened Common
  import opened BucketPolicy
  import opened Permissions
  import opened Delegations
  import opened Protocol
  import opened ProtocolInvariant

  /** d holds nothing but what c held or what is free for the taking. */
  ghost predicate TakesFree(s: State, id: nat, c: Call, d: Call) {
    forall l, m :: Holds(d, l, m) ==> Holds(c, l, m) || Free(s, id, l, m)
  }

  lemma CompatibleSymmetric(c: Call, d: Call)
    requires Compatible(c, d)
    ensures Compatible(d, c)
  {
    forall l, m | Holds(d, l, m) ensures !Blocks(c, l, m) {
      assert Holds(c, l, KeyShare) ==> !Blocks(d, l, KeyShare);
      assert Holds(c, l, Share) ==> !Blocks(d, l, Share);
      assert Holds(c, l, NoKeyUpdate) ==> !Blocks(d, l, NoKeyUpdate);
      assert Holds(c, l, Update) ==> !Blocks(d, l, Update);
    }
  }

  lemma WriteTakesFree(s: State, id: nat, w: Write, e: Event)
    requires WriteCan(s, id, w, e)
    ensures forall l, m :: WriteHolds(WriteDo(s, w, e), l, m) ==> WriteHolds(w, l, m) || Free(s, id, l, m)
  {
    var v := WriteDo(s, w, e);
    forall l, m | WriteHolds(v, l, m) ensures WriteHolds(w, l, m) || Free(s, id, l, m) {}
  }

  // What a call's step must have met, by kind of call.

  lemma MayWrite(s: State, id: nat, e: Event)
    requires Can(s, id, e) && id in s.calls && s.calls[id].Writing? && !e.Fail?
    ensures if e.CommitWrite? then CanCommit(s, s.calls[id].write, e.issued) else WriteCan(s, id, s.calls[id].write, e)
  {
    MayStep(s, id, e);
  }

  lemma MayRemove(s: State, id: nat, e: Event)
    requires Can(s, id, e) && id in s.calls && s.calls[id].Removing? && !e.Fail?
    ensures CanRemoval(s, id, s.calls[id].removal, e)
  {
    MayStep(s, id, e);
  }

  lemma MayCreate(s: State, id: nat, e: Event)
    requires Can(s, id, e) && id in s.calls && s.calls[id].Creating? && !e.Fail?
    ensures CanKeyCreate(s, id, s.calls[id].creation, e)
  {
    MayStep(s, id, e);
  }

  lemma MayDrop(s: State, id: nat, e: Event)
    requires Can(s, id, e) && id in s.calls && s.calls[id].DroppingBucket? && !e.Fail?
    ensures CanBucketDelete(s, id, s.calls[id].drop, e)
  {
    MayStep(s, id, e);
  }

  lemma MayAsk(s: State, id: nat, e: Event)
    requires Can(s, id, e) && id in s.calls && s.calls[id].Asking? && !e.Fail?
    ensures CanInfo(s, id, s.calls[id].info, e)
  {
    MayStep(s, id, e);
  }

  lemma MayStep(s: State, id: nat, e: Event)
    requires Can(s, id, e) && id in s.calls && !e.Fail?
    ensures CanStep(s, id, s.calls[id], e)
  {}

  // A step takes only free locks, by kind of call.

  lemma WriteCallTakesFree(s: State, id: nat, e: Event)
    requires Can(s, id, e) && id in s.calls && s.calls[id].Writing? && !e.Fail?
    ensures NextTakesFree(s, id, e)
  {
    MayWrite(s, id, e);
    if !e.CommitWrite? { WriteTakesFree(s, id, s.calls[id].write, e); }
  }

  lemma RemovalTakesFree(s: State, id: nat, e: Event)
    requires Can(s, id, e) && id in s.calls && s.calls[id].Removing? && !e.Fail?
    ensures NextTakesFree(s, id, e)
  {
    if RemovalsOwn(e) { RemovalOwnTakesFree(s, id, e); } else { StripTakesFree(s, id, e); }
  }

  /** The event is the removal's own, not a statement of a policy rewrite. */
  predicate RemovalsOwn(e: Event) {
    || e.ListOwnKeys? || e.LockAudience? || e.Announce? || e.ClearGrants? || e.ListForStrip? || e.StripNext?
    || e.StripGone? || e.CommitWrite? || e.HoldPrincipal? || e.PrincipalGone? || e.CheckPolicies? || e.CommitRemoval?
  }

  lemma StripTakesFree(s: State, id: nat, e: Event)
    requires Can(s, id, e) && id in s.calls && s.calls[id].Removing? && !e.Fail? && !RemovalsOwn(e)
    ensures NextTakesFree(s, id, e)
  {
    MayRemove(s, id, e);
    WriteTakesFree(s, id, s.calls[id].removal.strip.value, e);
  }

  lemma RemovalOwnTakesFree(s: State, id: nat, e: Event)
    requires Can(s, id, e) && id in s.calls && s.calls[id].Removing? && !e.Fail? && RemovalsOwn(e)
    ensures NextTakesFree(s, id, e)
  {
    MayRemove(s, id, e);
  }

  lemma CreationTakesFree(s: State, id: nat, e: Event)
    requires Can(s, id, e) && id in s.calls && s.calls[id].Creating? && !e.Fail?
    ensures NextTakesFree(s, id, e)
  {
    MayCreate(s, id, e);
  }

  lemma DropTakesFree(s: State, id: nat, e: Event)
    requires Can(s, id, e) && id in s.calls && s.calls[id].DroppingBucket? && !e.Fail?
    ensures NextTakesFree(s, id, e)
  {
    MayDrop(s, id, e);
  }

  lemma OtherTakesFree(s: State, id: nat, e: Event)
    requires Can(s, id, e) && id in s.calls && !e.Fail?
    requires s.calls[id].Deleting? || s.calls[id].Adding? || s.calls[id].MakingBucket? || s.calls[id].Asking?
    ensures NextTakesFree(s, id, e)
  {
    MayStep(s, id, e);
  }

  ghost predicate NextTakesFree(s: State, id: nat, e: Event)
    requires id in s.calls
  {
    forall n :: NextCall(s, s.calls[id], e) == Some(n) ==> TakesFree(s, id, s.calls[id], n)
  }

  lemma StepTakesFree(s: State, id: nat, e: Event)
    requires Can(s, id, e) && id in s.calls && !e.Fail?
    ensures NextTakesFree(s, id, e)
  {
    match s.calls[id]
    case Writing(_) => WriteCallTakesFree(s, id, e);
    case Removing(_) => RemovalTakesFree(s, id, e);
    case Creating(_) => CreationTakesFree(s, id, e);
    case DroppingBucket(_) => DropTakesFree(s, id, e);
    case _ => OtherTakesFree(s, id, e);
  }

  lemma ReplaceCompatible(s: State, id: nat, d: Call, j: nat)
    requires Exclusive(s) && id in s.calls && Others(s, id, j)
    requires TakesFree(s, id, s.calls[id], d)
    ensures Compatible(d, s.calls[j])
  {
    forall l, m | Holds(d, l, m) ensures !Blocks(s.calls[j], l, m) {
      if Holds(s.calls[id], l, m) { assert Compatible(s.calls[id], s.calls[j]); }
    }
  }

  /** A step changes no call but its own. */
  lemma OthersKept(s: State, id: nat, e: Event)
    requires Can(s, id, e)
    ensures Do(s, id, e).calls.Keys <= s.calls.Keys + {id}
    ensures forall j :: Others(s, id, j) ==> j in Do(s, id, e).calls && Do(s, id, e).calls[j] == s.calls[j]
  {}

  lemma BegunHoldsNothing(s: State, c: Call)
    requires CanBegin(s, c)
    ensures forall l, m :: !Holds(c, l, m)
  {}

  /** A step of the call's own, seen from the call. */
  lemma OwnStep(s: State, id: nat, e: Event)
    requires id in s.calls && id in Do(s, id, e).calls && !e.Begin?
    ensures !e.Fail? && NextCall(s, s.calls[id], e) == Some(Do(s, id, e).calls[id])
  {}

  lemma OwnCompatible(s: State, id: nat, e: Event, j: nat)
    requires Exclusive(s) && Can(s, id, e) && id in Do(s, id, e).calls && Others(s, id, j)
    ensures Compatible(Do(s, id, e).calls[id], s.calls[j])
  {
    if e.Begin? {
      BegunHoldsNothing(s, e.call);
    } else {
      OwnStep(s, id, e);
      StepTakesFree(s, id, e);
      ReplaceCompatible(s, id, Do(s, id, e).calls[id], j);
    }
  }

  lemma ExclusiveKept(s: State, id: nat, e: Event)
    requires Exclusive(s) && Can(s, id, e)
    ensures Exclusive(Do(s, id, e))
  {
    var n := Do(s, id, e);
    OthersKept(s, id, e);
    forall j | id in n.calls && Others(s, id, j)
      ensures Compatible(n.calls[id], s.calls[j]) && Compatible(s.calls[j], n.calls[id])
    {
      OwnCompatible(s, id, e, j);
      CompatibleSymmetric(n.calls[id], s.calls[j]);
    }
    forall i, j | i in n.calls && j in n.calls && i != j ensures Compatible(n.calls[i], n.calls[j]) {
      if i == id {
        assert Others(s, id, j);
      } else if j == id {
        assert Others(s, id, i);
      } else {
        assert Others(s, id, i) && Others(s, id, j);
      }
    }
  }

  lemma SameKey(s: State, c: Call, e: Event)
    ensures NextCall(s, c, e).Some? && NextCall(s, c, e).value.Creating? ==>
              c.Creating? && c.creation.k == NextCall(s, c, e).value.creation.k
  {}

  /** A key creation starts with an id no other call has. */
  lemma OwnKeyNew(s: State, id: nat, e: Event, j: nat)
    requires forall i :: i in s.calls ==> CallInv(s, s.calls[i])
    requires OwnKeys(s) && Can(s, id, e)
    requires Others(s, id, j) && s.calls[j].Creating?
    requires id in Do(s, id, e).calls && Do(s, id, e).calls[id].Creating?
    ensures s.calls[j].creation.k != Do(s, id, e).calls[id].creation.k
  {
    if e.Begin? { BegunKeyNew(s, e.call, j); } else { SameKey(s, s.calls[id], e); }
  }

  lemma BegunKeyNew(s: State, c: Call, j: nat)
    requires CanBegin(s, c) && c.Creating? && j in s.calls && s.calls[j].Creating? && CallInv(s, s.calls[j])
    ensures s.calls[j].creation.k != c.creation.k
  {}

  lemma OwnKeysKept(s: State, id: nat, e: Event)
    requires forall i :: i in s.calls ==> CallInv(s, s.calls[i])
    requires OwnKeys(s) && Can(s, id, e)
    ensures OwnKeys(Do(s, id, e))
  {
    var n := Do(s, id, e);
    OthersKept(s, id, e);
    forall i, j | i in n.calls && j in n.calls && i != j && n.calls[i].Creating? && n.calls[j].Creating?
      ensures n.calls[i].creation.k != n.calls[j].creation.k
    {
      if i == id {
        OwnKeyNew(s, id, e, j);
      } else if j == id {
        OwnKeyNew(s, id, e, i);
      } else {
        assert Others(s, id, i) && Others(s, id, j);
      }
    }
  }
}
