/** What a step of each kind of call does to grants, keys and created keys. */
module ProtocolTables {
  import opened Common
  import opened BucketPolicy
  import opened Permissions
  import opened Delegations
  import opened Protocol
  import opened ProtocolInvariant
  import opened ProtocolLocks
  import opened ProtocolQuiet
  import opened ProtocolCommits
  import opened ProtocolSafety

  lemma RevokedGrows(s: State, c: Call, e: Event)
    ensures s.revoked <= Tables(s, c, e).revoked && s.created <= Tables(s, c, e).created
  {
    match c
    case Removing(r) => RemovalGrows(s, r, e);
    case Creating(r) => CreationGrows(s, r, e);
    case _ =>
  }

  lemma RemovalGrows(s: State, r: Removal, e: Event)
    ensures s.revoked <= RemovalTables(s, r, e).revoked && s.created == RemovalTables(s, r, e).created
  {}

  lemma CreationGrows(s: State, r: KeyCreation, e: Event)
    ensures s.revoked == CreationTables(s, r, e).revoked && s.created <= CreationTables(s, r, e).created
  {}

  lemma DoGrows(s: State, id: nat, e: Event)
    requires Can(s, id, e)
    ensures s.revoked <= Do(s, id, e).revoked && s.created <= Do(s, id, e).created
  {
    if !e.Begin? && !e.Fail? {
      RevokedGrows(s, s.calls[id], e);
      DoTables(s, id, e);
    }
  }

  lemma DoTables(s: State, id: nat, e: Event)
    requires id in s.calls && !e.Begin? && !e.Fail?
    ensures Do(s, id, e).revoked == Tables(s, s.calls[id], e).revoked
    ensures SameTables(Tables(s, s.calls[id], e), Do(s, id, e))
  {}

  lemma TablesCreated(s: State, c: Call, e: Event)
    ensures Tables(s, c, e).created == if c.Creating? && e.FinishCreate? then s.created + {c.creation.k} else s.created
  {
    match c
    case Removing(r) => RemovalGrows(s, r, e);
    case _ =>
  }

  lemma FinishTables(s: State, r: KeyCreation)
    ensures Tables(s, Creating(r), FinishCreate) == s.(created := s.created + {r.k})
  {}

  /** Only a creation makes a key created, and it finishes with its row there. */
  lemma NewlyCreated(s: State, id: nat, e: Event, k: Did)
    requires Can(s, id, e) && k in Do(s, id, e).created && k !in s.created
    ensures e.FinishCreate? && id in s.calls && s.calls[id].Creating? && s.calls[id].creation.k == k
    ensures s.calls[id].creation.stage == STORED && k in s.keys && Do(s, id, e).keys == s.keys
    ensures Do(s, id, e).grants == s.grants
  {
    if !Commits(e) { QuietTables(s, id, e); }
    assert !e.Begin? && !e.Fail?;
    DoTables(s, id, e);
    TablesCreated(s, s.calls[id], e);
    FinishTables(s, s.calls[id].creation);
    MayCreate(s, id, e);
  }

  lemma CreationStaysOver(s: State, id: nat, r: KeyCreation, e: Event)
    requires CanKeyCreate(s, id, r, e) && r.stage >= ROLLBACK
    ensures CreationNext(s, r, e) == Some(r) && !e.FinishCreate?
  {}

  lemma NextCreation(s: State, id: nat, e: Event, k: Did)
    requires Can(s, id, e) && k in s.bound
    requires id in Do(s, id, e).calls && Do(s, id, e).calls[id].Creating? && Do(s, id, e).calls[id].creation.k == k
    ensures id in s.calls && s.calls[id].Creating? && s.calls[id].creation.k == k
    ensures s.calls[id].creation.stage >= ROLLBACK ==> Do(s, id, e).calls[id].creation.stage >= ROLLBACK
  {
    assert !e.Begin?;
    OwnStep(s, id, e);
    SameKey(s, s.calls[id], e);
    MayCreate(s, id, e);
    if s.calls[id].creation.stage >= ROLLBACK { CreationStaysOver(s, id, s.calls[id].creation, e); }
  }

  lemma OwnKeyUncreated(s: State, id: nat, k: Did)
    requires Inv(s) && Owns(s, id, k)
    ensures k !in s.created
  {
    Whole(s);
    assert CallInv(s, s.calls[id]);
  }

  lemma RemovalCommitKinds(s: State, id: nat, e: Event)
    requires Can(s, id, e) && Commits(e) && id in s.calls && s.calls[id].Removing?
    ensures e.CommitWrite? || e.ClearGrants? || e.PrincipalGone? || e.CommitRemoval?
  {
    RemovalCommits(s, id, e);
  }

  /** The tables a creation's commit leaves, by event. */
  lemma CreationTablesAre(s: State, id: nat, e: Event)
    requires id in s.calls && s.calls[id].Creating? && !e.Begin? && !e.Fail?
    ensures SameTables(CreationTables(s, s.calls[id].creation, e), Do(s, id, e))
    ensures id in Do(s, id, e).calls ==> Do(s, id, e).calls[id].Creating?
  {
    StepIs(s, id, e);
    CreationStays(s, s.calls[id].creation, e);
  }

  lemma CreationStays(s: State, r: KeyCreation, e: Event)
    ensures Tables(s, Creating(r), e) == CreationTables(s, r, e)
    ensures NextCall(s, Creating(r), e).Some? ==> NextCall(s, Creating(r), e).value.Creating?
  {}

  lemma CreationCommitKinds(s: State, id: nat, e: Event)
    requires Can(s, id, e) && Commits(e) && id in s.calls && s.calls[id].Creating?
    ensures e.InsertKey? || e.StoreGrants? || e.FinishCreate? || e.RollBackGrants? || e.RollBackRow?
  {
    MayCreate(s, id, e);
  }

  lemma OtherUntouched(s: State, id: nat, e: Event)
    requires Can(s, id, e) && Commits(e) && id in s.calls
    requires s.calls[id].Adding? || s.calls[id].MakingBucket? || s.calls[id].Asking?
    ensures var n := Do(s, id, e);
      n.grants == s.grants && n.keys == s.keys && n.created == s.created && n.inserted == s.inserted && n.bound == s.bound
      && id !in n.calls
  {
    match s.calls[id]
    case Adding(_) =>
      AdditionCommits(s, id, e);
      StepIs(s, id, e);
    case MakingBucket(_) =>
      MakingCommits(s, id, e);
      StepIs(s, id, e);
    case Asking(_) => AskingCommitsNothing(s, id, e);
  }

  lemma GoneUntouched(s: State, id: nat, e: Event)
    requires Can(s, id, e) && e.PrincipalGone? && id in s.calls && s.calls[id].Removing?
    ensures SameTables(s, Do(s, id, e)) && id !in Do(s, id, e).calls
  {
    StepIs(s, id, e);
  }

  lemma ClearTablesAre(s: State, id: nat, e: Event)
    requires Can(s, id, e) && e.ClearGrants? && id in s.calls && s.calls[id].Removing?
    ensures s.calls[id].removal.stage == REVOKED
    ensures SameTables(RemovalTables(s, s.calls[id].removal, ClearGrants), Do(s, id, e))
    ensures id in Do(s, id, e).calls ==> Do(s, id, e).calls[id].Removing? && Do(s, id, e).calls[id].removal.stage == CLEARED
  {
    MayRemove(s, id, e);
    StepIs(s, id, e);
  }

  lemma RemovedTablesAre(s: State, id: nat, e: Event)
    requires Can(s, id, e) && e.CommitRemoval? && id in s.calls && s.calls[id].Removing?
    ensures s.calls[id].removal.stage == REMOVED && id !in Do(s, id, e).calls
    ensures SameTables(RemovalTables(s, s.calls[id].removal, CommitRemoval), Do(s, id, e))
  {
    MayRemove(s, id, e);
    StepIs(s, id, e);
  }

  lemma StripTablesAre(s: State, id: nat, e: Event)
    requires Can(s, id, e) && e.CommitWrite? && id in s.calls && s.calls[id].Removing?
    ensures var r := s.calls[id].removal;
      && r.stage == STRIPPING && r.strip.Some? && CanCommit(s, r.strip.value, e.issued)
      && SameTables(Committed(s, r.strip.value, e.issued), Do(s, id, e))
      && id in Do(s, id, e).calls && Do(s, id, e).calls[id] == Removing(r.(strip := None))
  {
    MayRemove(s, id, e);
    StepIs(s, id, e);
  }

  lemma DeletionTablesAre(s: State, id: nat, e: Event)
    requires Can(s, id, e) && Commits(e) && id in s.calls && s.calls[id].Deleting?
    ensures SameTables(DeletionTables(s, s.calls[id].deletion, CommitKeyDelete), Do(s, id, e))
    ensures id !in Do(s, id, e).calls && s.calls[id].deletion.stage == ANNOUNCED
  {
    DeletionCommits(s, id, e);
    MayStep(s, id, e);
    StepIs(s, id, e);
  }

  lemma BegunTables(s: State, id: nat, e: Event)
    requires Can(s, id, e) && e.Begin?
    ensures var n := Do(s, id, e);
      && n.grants == s.grants && n.keys == s.keys && n.created == s.created && n.inserted == s.inserted
      && n.policies == s.policies && s.bound.Keys <= n.bound.Keys && id !in s.calls && id in n.calls && n.calls[id] == e.call
      && s.buckets <= n.buckets
  {}

  lemma StepRely(s: State, id: nat, e: Event)
    requires Inv(s) && Can(s, id, e)
    ensures Rely(s, Do(s, id, e), id)
  {
    if Commits(e) { CommitKeeps(s, id, e); } else { QuietKeeps(s, id, e); }
    KeptWhole(s, Do(s, id, e), id);
  }

  // -------------------------------------------------------- what a step adds

  /** What an event stores, if it stores anything. */
  function Issuing(e: Event): set<Delegation> {
    match e
    case CommitWrite(issued) => issued
    case StoreGrants(issued) => issued
    case _ => {}
  }

  lemma TablesAdd(s: State, c: Call, e: Event)
    ensures Tables(s, c, e).grants <= s.grants + Issuing(e)
    ensures Tables(s, c, e).revoked <= s.revoked + Links(s.grants)
  {
    match c
    case Removing(r) => RemovalAdds(s, r, e);
    case Creating(r) => CreationAdds(s, r, e);
    case _ =>
  }

  lemma RemovalAdds(s: State, r: Removal, e: Event)
    ensures RemovalTables(s, r, e).grants <= s.grants + Issuing(e)
    ensures RemovalTables(s, r, e).revoked <= s.revoked + Links(s.grants)
  {}

  lemma CreationAdds(s: State, r: KeyCreation, e: Event)
    ensures CreationTables(s, r, e).grants <= s.grants + Issuing(e)
    ensures CreationTables(s, r, e).revoked == s.revoked
  {}

  /** A step stores only what its event issues and revokes only what is stored. */
  lemma DoAdds(s: State, id: nat, e: Event)
    requires Can(s, id, e)
    ensures Do(s, id, e).grants <= s.grants + Issuing(e)
    ensures Do(s, id, e).revoked <= s.revoked + Links(s.grants)
  {
    if !e.Begin? && !e.Fail? {
      TablesAdd(s, s.calls[id], e);
      DoTables(s, id, e);
    }
  }

  /** Who issues: a policy commit or a creation's store. */
  lemma Issuers(s: State, id: nat, e: Event)
    requires Can(s, id, e) && (e.CommitWrite? || e.StoreGrants?)
    ensures id in s.calls
    ensures e.CommitWrite? ==> s.calls[id].Writing? || s.calls[id].Removing?
    ensures e.StoreGrants? ==> s.calls[id].Creating?
  {
    MayStep(s, id, e);
    if s.calls[id].Writing? && e.StoreGrants? {
      MayWrite(s, id, e);
      WriteCommitsNothing(s, id, s.calls[id].write, e);
    }
    if s.calls[id].Removing? { RemovalCommitKinds(s, id, e); }
    if s.calls[id].Creating? { CreationCommitKinds(s, id, e); }
  }

  lemma IssuingDistinct(s: State, id: nat, e: Event)
    requires Can(s, id, e)
    ensures LinksDistinct(Issuing(e)) && forall d :: d in Issuing(e) ==> d.link !in s.minted
  {
    if e.CommitWrite? || e.StoreGrants? {
      Issuers(s, id, e);
      match s.calls[id]
      case Writing(_) => WritingCommits(s, id, e);
      case Removing(_) => RemovalCommits(s, id, e);
      case _ => MayCreate(s, id, e);
    }
  }
}
