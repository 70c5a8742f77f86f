/** Safety of the grants protocol over every interleaving. */
module ProtocolSafety {
  import opened Common
  import opened BucketPolicy
  import opened Permissions
  import opened Delegations
  import opened Protocol
  import opened ProtocolInvariant
  import opened ProtocolStability
  import opened ProtocolLocks
  import opened ProtocolQuiet
  import opened ProtocolCommits
  import opened ProtocolKeyCommits

  // ------------------------------------------------------------------- one step

  lemma WriteCommitsNothing(s: State, id: nat, w: Write, e: Event)
    requires WriteCan(s, id, w, e)
    ensures !Commits(e)
  {}

  lemma WritingCommits(s: State, id: nat, e: Event)
    requires Can(s, id, e) && id in s.calls && s.calls[id].Writing? && Commits(e)
    ensures e.CommitWrite? && CanCommit(s, s.calls[id].write, e.issued)
  {
    MayWrite(s, id, e);
    if !e.CommitWrite? { WriteCommitsNothing(s, id, s.calls[id].write, e); }
  }

  lemma StripCommitsNothing(s: State, id: nat, r: Removal, e: Event)
    requires CanRemoval(s, id, r, e) && !RemovalsOwn(e)
    ensures !Commits(e)
  {
    WriteCommitsNothing(s, id, r.strip.value, e);
  }

  lemma RemovalCommits(s: State, id: nat, e: Event)
    requires Can(s, id, e) && id in s.calls && s.calls[id].Removing? && Commits(e)
    ensures var r := s.calls[id].removal;
      || (e.ClearGrants? && r.stage == REVOKED)
      || (e.PrincipalGone? && r.p !in s.live)
      || (e.CommitRemoval? && r.stage == REMOVED)
      || (e.CommitWrite? && r.strip.Some? && CanCommit(s, r.strip.value, e.issued))
  {
    MayRemove(s, id, e);
    if !RemovalsOwn(e) { StripCommitsNothing(s, id, s.calls[id].removal, e); }
  }

  lemma ClearGrantsKeeps(s: State, id: nat, r: Removal)
    requires Inv(s) && id in s.calls && s.calls[id] == Removing(r) && r.stage == REVOKED
    requires NoCleaner(s, Do(s, id, ClearGrants))
    ensures Keeps(s, Do(s, id, ClearGrants), id)
  {
    Whole(s);
    var n := Do(s, id, ClearGrants);
    assert CallInv(s, s.calls[id]);
    StepIs(s, id, ClearGrants);
    ClearKeeps(s, n, id, r);
    assert RemovalInv(n, r.(stage := CLEARED, listed := {}, auds := {}));
  }

  lemma GoneStepKeeps(s: State, id: nat, r: Removal)
    requires Inv(s) && id in s.calls && s.calls[id] == Removing(r) && r.p !in s.live
    requires forall p :: p != r.p && Clean(Do(s, id, PrincipalGone), p) ==> Clean(s, p)
    ensures Keeps(s, Do(s, id, PrincipalGone), id)
  {
    StepIs(s, id, PrincipalGone);
    GoneKeeps(s, Do(s, id, PrincipalGone), id, r);
  }

  lemma RemovedStepKeeps(s: State, id: nat, r: Removal)
    requires Inv(s) && id in s.calls && s.calls[id] == Removing(r) && r.stage == REMOVED
    requires forall p :: p != r.p && Clean(Do(s, id, CommitRemoval), p) ==> Clean(s, p)
    ensures Keeps(s, Do(s, id, CommitRemoval), id)
  {
    StepIs(s, id, CommitRemoval);
    RemovedKeeps(s, Do(s, id, CommitRemoval), id, r);
  }

  lemma InsertStepKeeps(s: State, id: nat, r: KeyCreation)
    requires Inv(s) && id in s.calls && s.calls[id] == Creating(r) && r.stage == INSERTING
    requires NoCleaner(s, Do(s, id, InsertKey))
    ensures Keeps(s, Do(s, id, InsertKey), id)
  {
    Whole(s);
    assert CallInv(s, s.calls[id]);
    StepIs(s, id, InsertKey);
    InsertKeeps(s, Do(s, id, InsertKey), id, r);
    assert CreationInv(Do(s, id, InsertKey), r.(stage := INSERTED));
  }

  lemma StoreStepKeeps(s: State, id: nat, r: KeyCreation, issued: set<Delegation>)
    requires Inv(s) && id in s.calls && s.calls[id] == Creating(r) && CanKeyCreate(s, id, r, StoreGrants(issued))
    requires NoCleaner(s, Do(s, id, StoreGrants(issued)))
    ensures Keeps(s, Do(s, id, StoreGrants(issued)), id)
  {
    StepIs(s, id, StoreGrants(issued));
    StoreKeeps(s, Do(s, id, StoreGrants(issued)), id, r, issued);
  }

  lemma FinishStepKeeps(s: State, id: nat, r: KeyCreation)
    requires Inv(s) && id in s.calls && s.calls[id] == Creating(r) && r.stage == STORED
    requires NoCleaner(s, Do(s, id, FinishCreate))
    ensures Keeps(s, Do(s, id, FinishCreate), id)
  {
    StepIs(s, id, FinishCreate);
    FinishKeeps(s, Do(s, id, FinishCreate), id, r);
  }

  lemma RollBackStepKeeps(s: State, id: nat, r: KeyCreation, e: Event)
    requires Inv(s) && id in s.calls && s.calls[id] == Creating(r) && r.stage == ROLLBACK
    requires e.RollBackGrants? || e.RollBackRow?
    requires NoCleaner(s, Do(s, id, e))
    ensures Keeps(s, Do(s, id, e), id)
  {
    StepIs(s, id, e);
    RollBackNext(s, r, e);
    RollBackKeeps(s, Do(s, id, e), id, r, e);
  }

  lemma RollBackNext(s: State, r: KeyCreation, e: Event)
    requires e.RollBackGrants? || e.RollBackRow?
    ensures NextCall(s, Creating(r), e) == Some(Creating(r)) && Tables(s, Creating(r), e) == CreationTables(s, r, e)
  {}

  // The one event by which each remaining kind of call commits, and that it ends
  // the call.

  lemma DeletionCommits(s: State, id: nat, e: Event)
    requires Can(s, id, e) && Commits(e) && id in s.calls && s.calls[id].Deleting?
    ensures e == CommitKeyDelete && NextCall(s, s.calls[id], e) == None
  {
    MayStep(s, id, e);
  }

  lemma AdditionCommits(s: State, id: nat, e: Event)
    requires Can(s, id, e) && Commits(e) && id in s.calls && s.calls[id].Adding?
    ensures e == CommitAdd && NextCall(s, s.calls[id], e) == None && s.calls[id].addition.stage == TENANT
  {
    MayStep(s, id, e);
  }

  lemma MakingCommits(s: State, id: nat, e: Event)
    requires Can(s, id, e) && Commits(e) && id in s.calls && s.calls[id].MakingBucket?
    ensures e == UndoBucket && NextCall(s, s.calls[id], e) == None
    ensures Free(s, id, BucketRow(s.calls[id].made), Update) && Free(s, id, PolicyRow(s.calls[id].made), Update)
  {
    MayStep(s, id, e);
  }

  lemma DroppingCommits(s: State, id: nat, e: Event)
    requires Can(s, id, e) && Commits(e) && id in s.calls && s.calls[id].DroppingBucket?
    ensures e == CommitBucketDelete && NextCall(s, s.calls[id], e) == None
    ensures Free(s, id, BucketRow(s.calls[id].drop.b), Update) && Free(s, id, PolicyRow(s.calls[id].drop.b), Update)
  {
    MayDrop(s, id, e);
  }

  lemma DeletionKeeps(s: State, id: nat, e: Event)
    requires Inv(s) && Can(s, id, e) && Commits(e) && id in s.calls && s.calls[id].Deleting?
    requires NoCleaner(s, Do(s, id, e))
    ensures Keeps(s, Do(s, id, e), id)
  {
    DeletionCommits(s, id, e);
    StepIs(s, id, CommitKeyDelete);
    DeleteKeeps(s, Do(s, id, CommitKeyDelete), id, s.calls[id].deletion);
  }

  lemma AdditionKeeps(s: State, id: nat, e: Event)
    requires Inv(s) && Can(s, id, e) && Commits(e) && id in s.calls && s.calls[id].Adding?
    requires NoCleaner(s, Do(s, id, e))
    ensures Keeps(s, Do(s, id, e), id)
  {
    AdditionCommits(s, id, e);
    StepIs(s, id, CommitAdd);
    AddKeeps(s, Do(s, id, CommitAdd), id, s.calls[id].addition);
  }

  lemma MakingKeeps(s: State, id: nat, e: Event)
    requires Inv(s) && Can(s, id, e) && Commits(e) && id in s.calls && s.calls[id].MakingBucket?
    requires NoCleaner(s, Do(s, id, e))
    ensures Keeps(s, Do(s, id, e), id)
  {
    MakingCommits(s, id, e);
    StepIs(s, id, UndoBucket);
    UndoKeeps(s, Do(s, id, UndoBucket), id, s.calls[id].made);
  }

  lemma DroppingKeeps(s: State, id: nat, e: Event)
    requires Inv(s) && Can(s, id, e) && Commits(e) && id in s.calls && s.calls[id].DroppingBucket?
    requires NoCleaner(s, Do(s, id, e))
    ensures Keeps(s, Do(s, id, e), id)
  {
    DroppingCommits(s, id, e);
    StepIs(s, id, CommitBucketDelete);
    DropKeeps(s, Do(s, id, CommitBucketDelete), id, s.calls[id].drop);
  }

  /** Info requests only read. */
  lemma AskingCommitsNothing(s: State, id: nat, e: Event)
    requires Can(s, id, e) && id in s.calls && s.calls[id].Asking?
    ensures !Commits(e)
  {
    if !e.Fail? { MayAsk(s, id, e); }
  }

  lemma OtherKeeps(s: State, id: nat, e: Event)
    requires Inv(s) && Can(s, id, e) && Commits(e) && id in s.calls
    requires !s.calls[id].Writing? && !s.calls[id].Removing? && !s.calls[id].Creating?
    requires NoCleaner(s, Do(s, id, e))
    ensures Keeps(s, Do(s, id, e), id)
  {
    match s.calls[id]
    case Deleting(_) => DeletionKeeps(s, id, e);
    case Adding(_) => AdditionKeeps(s, id, e);
    case MakingBucket(_) => MakingKeeps(s, id, e);
    case DroppingBucket(_) => DroppingKeeps(s, id, e);
    case Asking(_) => AskingCommitsNothing(s, id, e);
  }

  lemma BeginKeeps(s: State, id: nat, c: Call)
    requires Inv(s) && id !in s.calls && CanBegin(s, c) && Commits(Begin(c))
    requires NoCleaner(s, Started(s, id, c))
    ensures Keeps(s, Started(s, id, c), id)
  {
    Whole(s);
    var n := Started(s, id, c);
    if c.Creating? {
      BeginCreationKeeps(s, n, id, c.creation);
      assert CreationInv(n, c.creation);
    } else {
      BeginBucketKeeps(s, n, id, c.made);
    }
  }

  /** Only a removal's step makes a principal clean, and only its own. */
  ghost predicate CleanUnlessEnded(s: State, n: State, c: Call, e: Event) {
    forall p :: Clean(n, p) && !EndsRemoval(c, e, p) ==> Clean(s, p)
  }

  lemma CleanUnless(s: State, id: nat, e: Event)
    requires Can(s, id, e) && id in s.calls
    ensures CleanUnlessEnded(s, Do(s, id, e), s.calls[id], e)
  {
    forall p | Clean(Do(s, id, e), p) && !EndsRemoval(s.calls[id], e, p) ensures Clean(s, p) { CleanKept(s, id, e, p); }
  }

  lemma NoCleanerOther(s: State, id: nat, e: Event)
    requires Can(s, id, e) && (id in s.calls ==> !s.calls[id].Removing?)
    ensures NoCleaner(s, Do(s, id, e))
  {
    forall p | Clean(Do(s, id, e), p) ensures Clean(s, p) { CleanKept(s, id, e, p); }
  }

  lemma RemovalCommitKeeps(s: State, id: nat, e: Event)
    requires Inv(s) && Can(s, id, e) && Commits(e) && id in s.calls && s.calls[id].Removing?
    ensures Keeps(s, Do(s, id, e), id)
  {
    CleanUnless(s, id, e);
    RemovalCommits(s, id, e);
    var r := s.calls[id].removal;
    match e
    case ClearGrants => ClearGrantsKeeps(s, id, r);
    case PrincipalGone => GoneStepKeeps(s, id, r);
    case CommitRemoval => RemovedStepKeeps(s, id, r);
    case CommitWrite(issued) => StrippingKeeps(s, id, r, issued);
    case _ =>
  }

  lemma WriteCommitKeeps(s: State, id: nat, e: Event)
    requires Inv(s) && Can(s, id, e) && Commits(e) && id in s.calls && s.calls[id].Writing?
    ensures Keeps(s, Do(s, id, e), id)
  {
    NoCleanerOther(s, id, e);
    WritingCommits(s, id, e);
    WritingKeeps(s, id, s.calls[id].write, e.issued);
  }

  lemma CreationCommitKeeps(s: State, id: nat, e: Event)
    requires Inv(s) && Can(s, id, e) && Commits(e) && id in s.calls && s.calls[id].Creating?
    ensures Keeps(s, Do(s, id, e), id)
  {
    NoCleanerOther(s, id, e);
    MayCreate(s, id, e);
    var r := s.calls[id].creation;
    CreationKinds(s, id, r, e);
    match e
    case InsertKey => InsertStepKeeps(s, id, r);
    case StoreGrants(issued) => StoreStepKeeps(s, id, r, issued);
    case FinishCreate => FinishStepKeeps(s, id, r);
    case _ => RollBackStepKeeps(s, id, r, e);
  }

  lemma CreationKinds(s: State, id: nat, r: KeyCreation, e: Event)
    requires CanKeyCreate(s, id, r, e) && Commits(e)
    ensures e.InsertKey? || e.StoreGrants? || e.FinishCreate? || e.RollBackGrants? || e.RollBackRow?
  {}

  lemma OtherCommitKeeps(s: State, id: nat, e: Event)
    requires Inv(s) && Can(s, id, e) && Commits(e)
    requires id in s.calls ==> !s.calls[id].Removing? && !s.calls[id].Writing? && !s.calls[id].Creating?
    ensures Keeps(s, Do(s, id, e), id)
  {
    NoCleanerOther(s, id, e);
    if e.Begin? { BeginKeeps(s, id, e.call); } else { OtherKeeps(s, id, e); }
  }

  lemma CommitKeeps(s: State, id: nat, e: Event)
    requires Inv(s) && Can(s, id, e) && Commits(e)
    ensures Keeps(s, Do(s, id, e), id)
  {
    if id in s.calls && s.calls[id].Removing? {
      RemovalCommitKeeps(s, id, e);
    } else if id in s.calls && s.calls[id].Writing? {
      WriteCommitKeeps(s, id, e);
    } else if id in s.calls && s.calls[id].Creating? {
      CreationCommitKeeps(s, id, e);
    } else {
      OtherCommitKeeps(s, id, e);
    }
  }

  /** Any step of any call keeps the invariant. */
  lemma StepInv(s: State, id: nat, e: Event)
    requires Inv(s) && Can(s, id, e)
    ensures Inv(Do(s, id, e))
  {
    Whole(s);
    var n := Do(s, id, e);
    ExclusiveKept(s, id, e);
    OwnKeysKept(s, id, e);
    OthersKept(s, id, e);
    if Commits(e) { CommitKeeps(s, id, e); } else { QuietKeeps(s, id, e); }
    KeptWhole(s, n, id);
    forall j | j in n.calls ensures CallInv(n, n.calls[j]) {
      if j != id {
        assert Others(s, id, j);
        CallStable(s, n, id, j);
      }
    }
  }

  lemma InitialInv()
    ensures Inv(INITIAL)
  {}

  lemma {:induction false} RunInv(states: seq<State>, i: nat)
    requires Run(states) && i < |states|
    ensures Inv(states[i])
  {
    if i == 0 {
      InitialInv();
    } else {
      RunInv(states, i - 1);
      assert Next(states[i - 1], states[i]);
      var id, e :| Can(states[i - 1], id, e) && states[i] == Do(states[i - 1], id, e);
      StepInv(states[i - 1], id, e);
    }
  }

  lemma ReachableInv(s: State)
    requires Reachable(s)
    ensures InvParts(s)
  {
    var states :| Run(states) && states[|states| - 1] == s;
    RunInv(states, |states| - 1);
    Whole(s);
  }
}
