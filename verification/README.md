# Grants of an object-storage control plane

A Dafny model of how Hilt decides, stores and proves what an S3 access key may
do, with proofs of what its design relies on.

A bucket policy gives principals actions. `Effective(policy, principal)` is the
definition of access. What the storage network enforces is a stored copy of it:
delegations from the tenant to each access key, one per bucket and command.
Policy writes, policy removals, key creations and deletions, principal adds and
removals and bucket deletions each try to keep that copy in step, under row
locks, advisory locks and per-key delegation locks, and publish a revocation of
whatever they take away before they take it away.

The project models this twice.

* **As a protocol** (`Protocol*.dfy`): any number of calls in flight against the
  Postgres backend, one event per statement, lock, publish or commit. A call's
  program counter says which locks it holds; its writes appear when it commits;
  a timeout, a failed publish or a crash is a `Fail` event that may strike at any
  point and rolls the call's tables back but not what it published. The
  theorems hold of every reachable state, or every run, of every interleaving.
* **As imperative services over in-memory stores** (`Services.dfy` and the stores
  it uses): classes whose methods run one at a time, each proved against a
  value-level account of the tenant's tables (`Tenancy.dfy`).

Beside them stand the proof-chain search, the request classifier and its local
mirror, the authorizer, the ordered acquisition of principal slots, the paged
bucket listing and the SigV4 canonical query string.

## Main results

* `ProtocolAgreement.Agreement`: under every interleaving, a key whose creation
  returned, of a principal with no removal in flight or unfinished, holds over a
  bucket exactly the commands the committed policy grants its principal, if and
  only if its holding there is not stale. `ProtocolAgreement.StaleMeans` says when
  it is: a creation stored it after a policy write had overtaken what it read, the
  guard at `pkg/api/service/accesskey/service.go:285` seeing only a rotation that
  stored something, or its bucket ended without it; and nothing has rewritten or
  dropped it since. A stale holding is always one whose principal the policy
  grants no command: `ProtocolTheorems.NoMissingGrant`.
  `ProtocolExceptions.StaleHoldingReachable` shows there are such runs.
* `ProtocolTheorems.NoLostUpdate`, `DeleteRevokes`: a committing policy write, a Put
  or a Delete, replaces the document its callback saw and rotates exactly whom it
  must; a Delete takes from each created key of a principal it granted anything
  all it held over the bucket, although it locks out neither new principals nor
  new keys (`ProtocolDeletes`). `ProtocolWitness.StaleSurvivesDelete` shows what it
  does not take.
* `ProtocolTheorems.NeverAMixture`: what a key holds over a bucket is nothing or
  exactly one revision's commands.
* `ProtocolTheorems.InfoLinearizable`: a successful bucket info request has an
  instant at which its permissions were the effective set and its grants stored.
* `ProtocolConservation.NothingVanishes`: in every state of every run, what a
  created key ever held is stored, was published as revoked, or had expired when
  it was announced, if and only if it was not lost. `ProtocolConservation.LostMeans`
  says what is: what a creation stored over a bucket whose deletion had already
  announced, and that same deletion then dropped. `LostStaysLost`: it is not stored
  or published ever after. `ProtocolExceptions.LossReachable` shows there are such
  runs.
* `ProtocolBuckets.DeletionTakesAll`: a bucket's deletion leaves no grant over it
  but those stored between its delete of the rows and its commit.
  `ProtocolConservation.GoneKeysHoldNothing`: a created key whose row is gone holds
  nothing.
* `ProtocolRevocations.RevokedWasTaken`: nothing is ever published as revoked but
  a stored, unexpired grant of a key or bucket whose call was taking it away.
* `ProtocolProgress`: each call, begun while no other is in flight, can run to its
  end and do what it is for, under conditions its caller can check: the safety
  theorems do not hold by a guard that lets nothing happen.
* `ProtocolTheorems.RemovalLeavesNothing`, `AddedStartsFresh`,
  `StripLosesNothing`, `NoConflictingHolders`.
* `ProofChain.ProofChain`: the recursive search returns a chain exactly when
  there is one, and a shortest one, although it follows only paths without
  repeats that stop at the first root.
* `BucketPolicy.Effective`: allowed by an applying statement and denied by none,
  action by action; `DenyPrevails`, `AllowAdds`.
* `Services.Tenant`: every call succeeds and fails exactly when its contract says,
  over its arguments and the tables before it. After every call, failed or not,
  every settled key holds exactly what it must (`Tenancy.KeysAgreeWithPolicies`,
  `PoliciesEnforced`), and nothing a key ever held vanishes without being revoked or
  expiring (`Tenancy.NothingVanishes`).
* `Authorization.AuthorizedImpliesProvable`: an admitted request's commands have
  proof chains. `Authorization.MirrorOfRequest`: request by request, the gateway's
  local check refuses what the authorizer will not decide on, for the same reason,
  and agrees with it on the rest. `RequestLaws` says, from a request's parts alone,
  which operation it is, what it needs and when it is refused.
  `Operations.BoundToSignature`: unsigned headers decide nothing.
* `DelegationStore.MemoryStore`: the sorted per-audience lists refine a plain
  set. `RowSlots.NoDeadlock`, `RowSlots.OneHolder`. `BucketStore.Collect`.
  `CanonicalQuery.CanonicalIsFaithful`, `CanonicalForm`.

## Assumptions

* No route of a subresource selects a copy: only a copy source does.
* The policy actions, the permission table, the route and subresource tables, the
  operation permissions, a document's well-formedness and the bucket an ARN names
  are opaque constants: every theorem holds for any.
* A policy document is a version and a sequence of statements with an effect and
  sets of principals, actions and resources. Its entity tag is modelled as what
  the tag hashes, so equal tags mean equal normalised content.
* Links identify delegations, and a signed delegation's link is new.
* Key and bucket ids are freshly generated, passed as arguments that were never
  used before.
* Publishing to the revocation service either fails and changes nothing or adds
  links to a set. The clock is an argument.

## Where the comments and the code differ

The comment at `pkg/rpc/service/bucket/service.go:613-615` says a policy write
commits its grants before its policy row appears. On Postgres the rotation joins
the policy's transaction (`pkg/store/pglock/pglock.go:111-135`), so both appear
together; the protocol's state machine follows the code.

The comment at `pkg/api/service/accesskey/service.go:277-283` says a creation
fails rather than store stale grants beside a rotation's. Its guard looks at what
the key holds, and a rotation to a policy that grants the principal nothing leaves
the key holding nothing, so the creation goes on; the protocol follows the code,
and `ProtocolAgreement` says exactly what comes of it.

## How the proof of the protocol goes

`ProtocolInvariant` states, for each kind of call and stage, what holds while the
call stands there, and `Rely`: what one call's step may do to what another
relies on. `ProtocolStability` shows that a step within `Rely` keeps every other
call's part, using only the locks that call holds. `ProtocolLocks` shows that no
two calls hold conflicting locks. `ProtocolQuiet` covers the steps that commit
nothing, `ProtocolCommits` and `ProtocolKeyCommits` the steps that do, and
`ProtocolSafety.StepInv` puts them together; `ProtocolSafety.ReachableInv` is the
induction over runs. `ProtocolTables` says what each kind of step does to grants
and keys. `ProtocolDeletes` adds what holds beside a policy delete: a key it did not
list has fallen behind it, holding nothing over the bucket, its creation waiting
for the policy's row. `ProtocolHistory` adds a history to the state (what was ever
stored, what had lapsed when announced, what was stored late, lost or stale); no
step depends on it, and every run has its chronicle. `ProtocolConservation` and
`ProtocolAgreement` are two more inductions of the same kind, over chronicles.

## Model

| member | source | states |
|---|---|---|
| BucketPolicy.Effective | pkg/bucketpolicy/bucketpolicy.go:108-134 | sorted and each once, an action is returned if and only if some allow statement that applies to the principal lists it, or lists s3:* with the action a policy action, and no deny statement that applies does |
| BucketPolicy.EffectiveMeans | pkg/bucketpolicy/bucketpolicy.go:93-134 | the effective set every other theorem speaks of, action by action: allowed by some applying statement, denied by none |
| BucketPolicy.DenyPrevails | pkg/bucketpolicy/bucketpolicy.go:108-134 | one more deny takes away exactly what it applies to and covers, whatever is allowed |
| BucketPolicy.AllowAdds | pkg/bucketpolicy/bucketpolicy.go:108-134 | one more allow adds exactly what it covers and no deny does |
| BucketPolicy.Named | pkg/bucketpolicy/bucketpolicy.go:138-154 | the named principals, sorted, each once, and whether a statement names everyone |
| BucketPolicy.Changed | pkg/bucketpolicy/bucketpolicy.go:181-205 | sorted and each once, the candidates either document reaches for which one permits an action the other does not |
| BucketPolicy.ChangedIsExact | pkg/bucketpolicy/bucketpolicy.go:181-205 | a listed principal is reported if and only if its effective set changes |
| BucketPolicy.RemovePrincipal | pkg/bucketpolicy/bucketpolicy.go:159-175 | the loop leaves exactly the statements that were, without the principal and without those it emptied, under the same version, and reports a change exactly when the document named it |
| BucketPolicy.StripPreservesOthers | pkg/bucketpolicy/bucketpolicy.go:159-175 | stripping leaves every other principal's effective set as it was, and an emptied document gave nobody else anything |
| BucketPolicy.StripLeavesWildcard | pkg/bucketpolicy/bucketpolicy.go:159-175 | after stripping only wildcard statements apply to the principal, and everyone else is still named |
| BucketPolicy.StripCommutes | pkg/bucketpolicy/bucketpolicy.go:159-175 | stripping is idempotent and commutes for two principals |
| BucketPolicy.SameTagSameMeaning | pkg/store/bucketpolicy/memory/store.go:104-114 | documents with the same tag give every principal the same actions and name the same principals |
| BucketPolicy.SameTagMeans | pkg/store/bucketpolicy/memory/store.go:104-114 | two documents have the same tag if and only if their versions are equal and each statement of either has its like in the other, wildcard lists being alike |
| BucketPolicy.PermutedSameTag | pkg/store/bucketpolicy/memory/store.go:104-114 | permuting or repeating statements keeps the tag, and so the meaning |
| BucketPolicy.Canonical | pkg/store/bucketpolicy/memory/store.go:104-108 | the stored normal form has the tag of the document given, no statement twice, and no stray ids beside a wildcard |
| BucketPolicy.EffectiveIsIndexed | pkg/bucketpolicy/bucketpolicy.go:138-154 | a document that gives a principal anything is indexed for it; it is indexed exactly when a statement applies |
| Permissions.CommandsFor | pkg/s3perm/s3perm.go:171-183 | each command some given permission's row of the table has, once, in first-seen order, and no other |
| Delegations.Issue | pkg/grant/grant.go:24-43 | one delegation per subject and command the actions map to and no more, powerline when no subject is named, with the expiry given, under links never signed before |
| Delegations.SameLinks | pkg/rpc/service/bucket/service.go:339-353 | for listings without repeats, true exactly when the two hold the same links |
| ProtocolAgreement.Agreement | pkg/api/service/accesskey/service.go:240-296 | a created key of a clean principal holds over a bucket exactly the commands the committed policy grants its principal, if and only if its holding there is not stale |
| ProtocolAgreement.PoliciesEnforced | pkg/api/service/bucketpolicy/service.go:273-290 | the same, command by command: a created key whose holding is not stale may run a command over a bucket if and only if some action its permissions row maps to the command is allowed by an applying statement of the committed policy and denied by none |
| ProtocolAgreement.StaleMeans | pkg/api/service/accesskey/service.go:276-290 | a holding is stale exactly if a creation stored it after a policy write had overtaken its reading, or its bucket ended without it, and no row of it has come or gone since |
| ProtocolAgreement.StepAgrees | pkg/grant/rotator.go:117-146 | every event keeps the account of staleness: a clean principal's key is stale over a bucket exactly where it holds something and its principal is granted nothing |
| ProtocolAgreement.WriteAt | pkg/api/service/bucketpolicy/service.go:129-206 | a policy write's commit, Put or Delete, leaves no key of a clean principal newly out of agreement over any bucket, and ends the staleness of what it rewrites |
| ProtocolAgreement.StoreOwnAt | pkg/api/service/accesskey/service.go:276-296 | a creation's store leaves its key in agreement, or stale where the policy by then grants its principal nothing |
| ProtocolTheorems.NoMissingGrant | pkg/api/service/accesskey/service.go:217-296 | a created key of a clean principal never lacks an effective command over any bucket, and holds exactly the effective ones wherever there are any |
| ProtocolWitness.StaleGrantReachable | pkg/api/service/accesskey/service.go:280-290 | a reachable state in which a created key of a clean principal holds commands while its principal has none: the guard misses a rotation that stored nothing |
| ProtocolExceptions.StaleHoldingReachable | pkg/api/service/accesskey/service.go:280-290 | some run makes a created key's holding stale |
| ProtocolTheorems.NeverAMixture | pkg/grant/rotator.go:117-146 | whatever a key holds over a bucket, if anything, is exactly what one document that was that bucket's policy grants its principal |
| ProtocolTheorems.RevisionsAreCommitted | pkg/store/bucketpolicy/postgres/store.go:156-190 | the revisions meant are the documents committed writes stored, no others |
| ProtocolTheorems.RemovalLeavesNothing | pkg/store/bucketpolicy/postgres/store.go:421-456 | every committed policy names only live principals and every key row belongs to one |
| ProtocolTheorems.AddedStartsFresh | pkg/store/principal/postgres/store.go:40-79 | a principal added or revived has no keys, and on every bucket the access of any unnamed principal |
| ProtocolTheorems.NoConflictingHolders | pkg/store/pglock/pglock.go:61-93 | a lock held for update has one holder, one held for no key update only key sharers beside it, one share-locked only sharers |
| ProtocolTheorems.NoLostUpdate | pkg/store/bucketpolicy/postgres/store.go:105-229 | a committing Put or Delete replaces the very document its callback saw, on a bucket that is there and naming live principals, with the tag it was conditional on or over none; it rotates exactly the principals whose access it changes (of the live ones for a Put, of those with created keys for either), and leaves each rotated principal's keys exactly what the new policy grants |
| ProtocolTheorems.DeleteRevokes | pkg/api/service/bucketpolicy/service.go:180-206 | after a committed Delete a created key of a principal the policy granted anything holds nothing over the bucket, and every other created key what it held |
| ProtocolDeletes.StepAhead | pkg/store/bucketpolicy/postgres/store.go:193-229 | while a Delete is under way, every key its policy grants anything is one it will rotate, or holds nothing over the bucket and cannot be created before it commits |
| ProtocolDeletes.StaysUnread | pkg/api/service/accesskey/service.go:247-262 | a creation that lists policies during a Delete finds the bucket's and waits for its row |
| ProtocolWitness.StaleSurvivesDelete | pkg/api/service/bucketpolicy/service.go:180-206 | a stale holding survives a Delete whose document granted its principal nothing |
| ProtocolTheorems.StripLosesNothing | pkg/api/service/principal/service.go:282-310 | a removal's rewrite leaves every other principal's access and no longer names the removed one, whatever was written since the listing |
| ProtocolTheorems.InfoLinearizable | pkg/rpc/service/bucket/service.go:556-645 | a successful info request has an instant, while it is in flight, at which its permissions are the principal's effective set and all its grants are stored |
| ProtocolConservation.NothingVanishes | pkg/grant/rotator.go:117-167 | in every state of every run, what a created key ever held is stored, published as revoked, or expired when announced, if and only if it is not lost |
| ProtocolConservation.LostMeans | pkg/rpc/service/bucket/service.go:318-391 | a grant is lost exactly if a creation stored it after a deletion of its bucket had announced and that deletion then dropped it, neither published nor expired |
| ProtocolConservation.LostStaysLost | pkg/rpc/service/bucket/service.go:318-391 | what is lost is never stored, published or found expired afterwards |
| ProtocolConservation.LapsedHadExpired | pkg/grant/rotator.go:206-230 | what lapsed had expired by the clock of an announcement that covered it |
| ProtocolRevocations.RevokedWasTaken | pkg/grant/rotator.go:206-230 | nothing is revoked for nothing: every link ever published in a run is that of a delegation stored and unexpired when a call announced it, and over the bucket, of the key or of the principal that call takes it from |
| ProtocolRevocations.PublishesOnlyTaken | pkg/grant/rotator.go:206-230 | no event but an announcement publishes, and it nothing but what its call is about to take away |
| ProtocolConservation.GoneKeysHoldNothing | pkg/api/service/accesskey/service.go:374-430 | a created key whose row is gone holds nothing |
| ProtocolBuckets.DeletionTakesAll | pkg/rpc/service/bucket/service.go:318-335 | a bucket's deletion leaves neither the bucket, nor its policy, nor any grant over it but those a creation stored after it had deleted its rows |
| ProtocolHistory.RunHasChronicle | pkg/grant/rotator.go:117-167 | every run has its history, so the theorems about chronicles are about every run |
| ProtocolConservation.AnnouncedAccounts | pkg/grant/rotator.go:206-230 | an announcement accounts for everything it covers, published or expired |
| ProtocolConservation.WriteDrops | pkg/grant/rotator.go:117-146 | a policy commit drops only what its rotation published, or what abandoned creations left |
| ProtocolConservation.RemovedTallied | pkg/api/service/principal/service.go:240-262 | a removal's commit drops only what it published, for keys whose locks it holds |
| ProtocolConservation.StepBalanced | pkg/rpc/service/bucket/service.go:318-391 | every event of every call keeps the account of grants balanced |
| ProtocolWitness.UnpublishedLossReachable | pkg/rpc/service/bucket/service.go:318-335 | a run in which a created key's unexpired grant goes without being published: its creation stored it between the deletion's listing and its delete |
| ProtocolExceptions.LossReachable | pkg/rpc/service/bucket/service.go:318-335 | some run loses a created key's grant |
| ProtocolProgress.PutCompletes | pkg/store/bucketpolicy/postgres/store.go:105-190 | begun with no other call in flight, a Put on a bucket that is there, naming live principals, under a precondition that holds, can run to its end and replace the policy |
| ProtocolProgress.DeleteCompletes | pkg/store/bucketpolicy/postgres/store.go:193-229 | a Delete of a policy that is there, under a precondition that holds, can remove it |
| ProtocolProgress.CreationCompletes | pkg/api/service/accesskey/service.go:217-305 | a key of a live principal can be created, holding over every bucket exactly what the committed policies grant |
| ProtocolProgress.RollBackCompletes | pkg/api/service/accesskey/service.go:199-215 | a creation that gives up can take back its row and whatever it stored, at any stage |
| ProtocolProgress.KeyDeleteCompletes | pkg/api/service/accesskey/service.go:374-430 | a key can be deleted with its grants, the unexpired published |
| ProtocolProgress.AddCompletes | pkg/store/principal/postgres/store.go:40-79 | a principal that is not there can be added |
| ProtocolProgress.RemovalCompletes | pkg/api/service/principal/service.go:170-310 | a principal, there or half removed, can be removed: no policy names it, it has no key, and its removal is finished |
| ProtocolProgress.BucketDeleteCompletes | pkg/rpc/service/bucket/service.go:287-336 | a bucket can be deleted with its policy and everything over it |
| ProtocolProgress.InfoCompletes | pkg/rpc/service/bucket/service.go:556-645 | a principal with any access to a bucket can be told its effective set and all its key's grants there |
| ProtocolSafety.StepInv | pkg/store/bucketpolicy/postgres/store.go:105-229 | any event of any call keeps the protocol's invariant |
| ProtocolSafety.RunInv | pkg/store/pglock/pglock.go:111-135 | every state of every run satisfies the invariant |
| ProtocolInvariant.WriteStable | pkg/store/bucketpolicy/postgres/store.go:105-190 | the locks a policy write holds keep what it has read true while others step |
| ProtocolStability.RemovalStable | pkg/store/principal/postgres/store.go:164-206 | the row a removal holds keeps its principal live, unnamed and without new keys while others step |
| ProtocolStability.CreationStable | pkg/api/service/accesskey/service.go:240-296 | a creation's plan for its key stays good while others step |
| ProtocolStability.DropStable | pkg/store/delegation/postgres/store.go:358-387 | what a bucket deletion deleted stays whole keys' grants while others step |
| ProtocolStability.InfoStable | pkg/rpc/service/bucket/service.go:556-645 | what an info request has read stays consistent while others step |
| ProtocolLocks.ExclusiveKept | pkg/store/pglock/pglock.go:55-93 | every event keeps the locks held compatible |
| ProtocolQuiet.WriteStep | pkg/store/bucketpolicy/postgres/store.go:105-155 | each statement of a policy transaction establishes what the next one relies on |
| ProtocolQuiet.CreationStep | pkg/api/service/accesskey/service.go:247-296 | each step of a key creation keeps, for every bucket, a plan that leaves the key in step |
| ProtocolQuiet.InfoStep | pkg/rpc/service/bucket/service.go:556-645 | each read of an info request keeps its account of what it saw |
| ProtocolCommits.WriteCommitted | pkg/grant/rotator.go:117-146 | a policy commit, with the grants its rotation joined to it, keeps every key in step and disturbs no other call |
| ProtocolCommits.StripRequires | pkg/api/service/principal/service.go:282-310 | rewriting a policy without the removed principal changes no other principal's effective set |
| ProtocolCommits.RemovedKeeps | pkg/api/service/principal/service.go:217-274 | a removal's commit leaves no key and no policy behind it |
| ProtocolKeyCommits.StoreCovers | pkg/api/service/accesskey/service.go:284-289 | a creation that passes its guard and stores leaves its key in step over every bucket |
| ProtocolKeyCommits.InsertKeeps | pkg/api/service/accesskey/service.go:217-238 | inserting a key row under its principal's share lock disturbs no other call |
| ProtocolKeyCommits.AddKeeps | pkg/store/principal/postgres/store.go:40-79 | an add under the tenant lock changes nobody's list of principals under it |
| ProtocolKeyCommits.DropKeeps | pkg/rpc/service/bucket/service.go:318-335 | a bucket deletion takes whole keys' grants and a policy no one has loaded |
| ProofChain.ProvesTransitive | pkg/store/delegation/postgres/store.go:427-430 | the command test is transitive: exact, top, or a prefix at a segment boundary |
| ProofChain.ProvesMeans | pkg/store/delegation/postgres/store.go:427-430 | a command proves another exactly if it is the top command, the same, or the other is it, a slash and more |
| ProofChain.ChainProvesAll | pkg/store/delegation/delegation.go:33-39 | in a chain every command proves all later ones and the request |
| ProofChain.Walks | pkg/store/delegation/postgres/store.go:406-433 | the recursive query terminates and finds exactly the paths without repeats that do not go beyond a root |
| ProofChain.ShortenToWalk | pkg/store/delegation/postgres/store.go:420-431 | every path to a root shortens to one the query explores |
| ProofChain.TrailIsChain | pkg/store/delegation/postgres/store.go:444-456 | reversing a path to a root gives a chain, root first |
| ProofChain.ProofChain | pkg/store/delegation/postgres/store.go:396-458 | refuses an undefined subject; otherwise returns a shortest chain, or none exactly when none exists |
| DelegationStore.MemoryStore.Put | pkg/store/delegation/memory/store.go:155-170 | files each delegation under its audience in link order; the contents become the union |
| DelegationStore.MemoryStore.PutBatch | pkg/store/delegation/memory/store.go:62-77 | a batch with a nil delegation changes nothing |
| DelegationStore.MemoryStore.Current | pkg/store/delegation/memory/store.go:114-129 | the callback is handed each listed audience once, with exactly its covered delegations |
| DelegationStore.MemoryStore.Replace | pkg/store/delegation/memory/store.go:131-151 | refused exactly for the undefined subject or a replacement that is nil, under another audience or over another subject, changing nothing; otherwise each delegation stored is one that was and is not covered, or one of the replacement, however often an audience is listed |
| DelegationStore.ReplaceStep | pkg/store/delegation/memory/store.go:141-150 | replacing an audience again gives the same contents |
| DelegationStore.MemoryStore.DeleteByAudience | pkg/store/delegation/memory/store.go:241-251 | removes exactly the audience's delegations |
| DelegationStore.MemoryStore.DeleteBySubject | pkg/store/delegation/memory/store.go:253-278 | refuses the undefined subject; otherwise removes exactly the delegations over the subject |
| DelegationStore.MemoryStore.ListBySubject | pkg/store/delegation/memory/store.go:179-202 | everything over the subject, from every audience, in link order |
| DelegationStore.MemoryStore.ListByAudience | pkg/store/delegation/memory/store.go:172-177 | everything the audience holds, in link order |
| DelegationStore.ContentsFixFiling | pkg/store/delegation/memory/store.go:155-170 | the contents determine the stored lists: two stores with the same contents are the same |
| DelegationStore.Page | pkg/store/delegation/memory/store.go:206-239 | a page and what its cursor leads to are together what the page's own cursor led to; a last page is everything after the cursor in link order |
| DelegationStore.AfterMeans | pkg/store/delegation/memory/store.go:206-222 | what follows a cursor is exactly what comes after it in link order, and everything when nothing has it |
| KeyStore.MemoryKeys.Add | pkg/store/accesskey/memory/store.go:56-98 | refuses an inconsistent input and a principal its guard does not admit, then a used id, or a used name within the tenant or the principal, and otherwise stores exactly the record |
| KeyStore.MemoryKeys.ListByTenant | pkg/store/accesskey/memory/store.go:113-153 | every record the filters select, once |
| KeyStore.MemoryKeys.Delete | pkg/store/accesskey/memory/store.go:155-161 | removes exactly the key |
| PolicyStore.MemoryPolicies.BeginPut | pkg/store/bucketpolicy/memory/store.go:76-98 | the errors before the callback, in order, and the current record it is handed; the precondition fails exactly if the write is conditional and the current tag is not the one given, or a policy is stored where none may be |
| PolicyStore.MemoryPolicies.FinishPut | pkg/store/bucketpolicy/memory/store.go:104-126 | stores a document with the input's tag and its index, and no other bucket's |
| PolicyStore.MemoryPolicies.BeginDelete | pkg/store/bucketpolicy/memory/store.go:129-141 | not found, the wrong tag, or the current record; no tag is unconditional |
| PolicyStore.MemoryPolicies.ListByPrincipal | pkg/store/bucketpolicy/memory/store.go:164-181 | exactly the tenant's policies with a statement that applies to the principal, in bucket order |
| PolicyStore.NothingUnlisted | pkg/bucketpolicy/bucketpolicy.go:138-154 | a bucket with a non-empty effective set is listed |
| BucketStore.ListPage | pkg/store/bucket/memory/store.go:81-144 | the wanted buckets after the cursor in name order: all of them and no cursor when they are no more than the limit, or else the first of them up to it, with the last one's name as cursor |
| BucketStore.WantedMeans | pkg/store/bucket/memory/store.go:81-130 | a bucket is wanted if it is the tenant's and every filter given takes it, a prefix being what its name starts with |
| BucketStore.Collect | pkg/store/store.go:41-58 | with any changes between pages, a finished run returns every wanted bucket stored throughout, once, in increasing name order; on a fixed store it finishes |
| BucketStore.MemoryBuckets.Add | pkg/store/bucket/memory/store.go:29-59 | refuses exactly undefined ids and names not of 3 to 63 lower-case letters, digits, dots and hyphens or not bounded by a letter or digit, then a used id or name, and otherwise stores the record |
| BucketStore.MemoryBuckets.GetByName | pkg/store/bucket/memory/store.go:69-79 | the bucket of the name, or not found exactly when no bucket has it |
| Rotator.PublishRevocations | pkg/grant/rotator.go:206-230 | a link is published if and only if some delegation given has it and has no expiry or one after the clock; it fails exactly if the service does and there is one to publish |
| Rotator.Rotator.Rotate | pkg/grant/rotator.go:84-147 | every key of the principals named gets over the bucket exactly what their actions map to, under new links; what goes is published; a failed publish changes no table |
| Rotator.PreparedReplacement | pkg/store/delegation/delegation.go:70-98 | what the loop prepares passes the replacement checks and is exactly what was issued |
| Rotator.Rotator.Revoke | pkg/grant/rotator.go:151-167 | every key of the principal loses everything, published first; a failed publish changes no table |
| Services.Tenant.CreatePrincipal | pkg/api/service/principal/service.go:92-137 | refuses what may not name a principal, and otherwise adds or revives the principal and says which, and changes nothing else |
| Services.Tenant.Rotate | pkg/api/service/bucketpolicy/service.go:273-290 | rotates the keys of exactly the principals whose access changes to their new commands |
| Services.Tenant.WritePolicy | pkg/api/service/bucketpolicy/service.go:129-177 | refused exactly as invalid, over an undefined bucket, over none, under a precondition that fails, or when the service fails to publish an unexpired grant some changed principal's key loses, changing nothing; otherwise the bucket's policy has the input's tag, the changed principals' keys lose what they held there, revoked, and no other grant is touched |
| BucketPolicy.Validate | pkg/bucketpolicy/bucketpolicy.go:71-91 | accepts exactly the well-formed documents whose resources name the bucket and whose principals exist, so an accepted one names only the tenant's principals |
| Services.Tenant.RemovePolicy | pkg/api/service/bucketpolicy/service.go:185-205 | refused exactly for no policy, the wrong tag, or a failed publish of something to revoke; otherwise exactly the bucket's policy goes, and what the principals it reached held there, revoked |
| Services.Tenant.CreatePrincipalKey | pkg/api/service/accesskey/service.go:86-305 | created exactly for a sound name not used by the principal, a live principal and a defined id, unless the last step fails; it then holds what the policies grant, and no other grant is added; refused, nothing is left |
| Services.Tenant.CreateServiceKey | pkg/api/service/accesskey/service.go:141-174 | created exactly for a sound unused name, known permissions, and buckets of the tenant's; the scope is the named buckets' ids in order; the key holds its permissions over each, or over all |
| Services.Tenant.ResolveBuckets | pkg/api/service/accesskey/service.go:141-174 | refused exactly when some name is no bucket of the tenant |
| Services.Tenant.DeleteKey | pkg/api/service/accesskey/service.go:374-434 | refused exactly for no such key or a failed publish of something unexpired, leaving all; otherwise the key, its row and its grants go together, the unexpired revoked, and nothing else |
| Services.Tenant.DeletePrincipal | pkg/api/service/principal/service.go:170-202 | ends early exactly when something unexpired cannot be published or a rewrite does not go through; completed, the principal, its keys and every mention of it are gone; ended early, its rows stay and it is unfinished; either way each policy is as it was or its rewrite without the principal, and nobody else's access changes |
| Services.Tenant.StripFromPolicies | pkg/api/service/principal/service.go:282-310 | succeeds exactly if as many rewrites go through as policies name the principal; afterwards none does; other principals keep their access at every point |
| Services.Tenant.FinishRemoval | pkg/api/service/principal/service.go:217-274 | fails exactly when something unexpired cannot be published, and then changes nothing; otherwise the keys and the row go |
| Services.Tenant.CreateBucket | pkg/rpc/service/bucket/service.go:109-276 | refused exactly for an invalid name or provider, a used name or a failing later step; otherwise the record and a root delegation, the bucket's own to the tenant for everything and for good; a failure removes the record and leaves every other row |
| Services.Tenant.DeleteBucket | pkg/rpc/service/bucket/service.go:287-336 | refused exactly for no such bucket or a failed publish of something unexpired the tenant issued; otherwise the bucket, its policy and everything over it go, that published first |
| Services.Tenant.RevokeDelegations | pkg/rpc/service/bucket/service.go:364-391 | publishes exactly the unexpired delegations over the bucket that the tenant issued |
| Tenancy.KeysAgreeWithPolicies | pkg/api/service/bucketpolicy/service.go:273-290 | a principal-bound key holds over each bucket exactly its principal's effective commands, unless a removal of the principal is unfinished |
| Tenancy.PoliciesEnforced | pkg/api/service/bucketpolicy/service.go:273-290 | command by command: the key may run it over the bucket if and only if some action whose row of the table has it is allowed by an applying statement and denied by none |
| Tenancy.ServiceKeysEnforced | pkg/api/service/accesskey/service.go:141-174 | a service key may run a command over a bucket of its scope that still stands, or over all when it has none, if and only if some permission of its own maps to it |
| Tenancy.NothingVanishes | pkg/grant/rotator.go:117-167 | what a created key ever held is stored, published as revoked, or has an expiry the clock has passed |
| Tenancy.HeldIsRemembered | pkg/grant/rotator.go:117-167 | what a key holds now is among what conservation speaks of |
| Tenancy.GrantsExpireWithKey | pkg/grant/grant.go:24-28 | a stored grant of a key is the tenant's and expires with the key |
| Tenancy.PolicyRotated | pkg/grant/rotator.go:78-147 | a rotation to a new policy keeps grants in agreement |
| Tenancy.KeyCreated | pkg/api/service/accesskey/service.go:240-296 | a key created with what it requires keeps grants in agreement |
| Tenancy.KeysDeleted | pkg/api/service/accesskey/service.go:400-416 | deleting keys with their grants revoked keeps agreement and conservation |
| Tenancy.PolicyStripped | pkg/api/service/principal/service.go:282-310 | rewriting a policy without a principal being removed needs no rotation |
| Tenancy.PrincipalGone | pkg/api/service/principal/service.go:217-274 | once no policy names a principal, deleting its keys and its row settles it |
| Tenancy.BucketDeleted | pkg/rpc/service/bucket/service.go:318-391 | deleting a bucket with what the tenant issued over it revoked keeps agreement and conservation |
| Operations.ReadHeaders | pkg/rpc/service/auth/operation.go:369-413 | the header permissions are exactly those of the headers decided from, each once |
| Operations.DecidedHeadersPresent | pkg/rpc/service/auth/operation.go:618-736 | every header decided from has a value, and only a copy has a source, the one its header names |
| Operations.SourceUnused | pkg/rpc/service/auth/operation.go:645-657 | a source that does not make the request a copy changes nothing of its route |
| Operations.BoundToSignature | pkg/rpc/service/auth/operation.go:255-304 | two accepted requests with the same signed parts need the same things, whatever their unsigned headers |
| RequestLaws.PlainOperation | pkg/rpc/service/auth/operation.go:679-736 | which operation a request is when no subresource selects one, by its method, by whether it names a key and a version, and a copy exactly if a PUT of an object names a source that parses; a POST is refused |
| RequestLaws.SelectedOperation | pkg/rpc/service/auth/operation.go:690-706 | a subresource selects its route's operation, nothing where none is authorized, and the upload of a part, or its copy, only with a part number |
| RequestLaws.Unaddressed | pkg/rpc/service/auth/operation.go:629-677 | refused as conflicting exactly for two named subresources; then for one not served, a foreign method, and no bucket, but for listing buckets |
| RequestLaws.DeletesOnlyDelete | pkg/rpc/service/auth/operation.go:724-732 | a DELETE whose query selects nothing is accepted only as the delete of a bucket, an object or a version |
| RequestLaws.ClassifiedIsFor | pkg/rpc/service/auth/operation.go:276-304 | what RequirementsFor answers for its operation: refused exactly if a header that decides something about it is unsigned, naming the first, then if its body does not fit, and otherwise exactly the permissions its table row, its companion, its headers, its body and its source ask, each on its bucket |
| RequestLaws.NeedsMean | pkg/rpc/service/auth/operation.go:369-413 | which headers decide something about an operation and which permissions they add |
| RequestLaws.FirstMeans | pkg/rpc/service/auth/operation.go:370-373 | a header is decided on the value before its first comma, without the blanks around it |
| RequestLaws.CopySourceMeans | pkg/rpc/service/auth/operation.go:753-771 | a value parses as a source if and only if, after an optional slash, it spells the source's bucket, a slash and its key, and its version after the first suffix that names one |
| RequestLaws.EncodedSource | pkg/rpc/service/auth/operation.go:753-771 | a percent-encoded source parses back to the source, with or without a leading slash |
| Authorization.MirrorOfRequest | pkg/rpc/service/auth/operation.go:276-304 | RequirementsFor refuses exactly the requests the authorizer will not decide on, for the same reason; of the others that address an existing bucket, the authorizer admits exactly those with every pair satisfied on a bucket of the tenant's that the provider serves, and a principal still live; listing and creating buckets it admits, resolving none, for a service key with every permission asked, and listing for a live principal |
| Authorization.GrantedAreNamed | pkg/rpc/service/auth/auth.go:269-367 | what an admitted request resolves is the bucket it names and, for a copy, its source's |
| Authorization.ServiceRefusal | pkg/rpc/service/auth/auth.go:279-312 | why a service key is refused, in order: a permission it lacks; its bucket unknown, another tenant's, out of scope or elsewhere; the source's permission; the source's bucket |
| Authorization.PrincipalRefusal | pkg/rpc/service/auth/auth.go:314-397 | why a principal's key is refused, in order: the principal gone; an operation no policy grants; its bucket unknown or out of reach, another tenant's, too little held on it, or elsewhere; the source's bucket likewise |
| Authorization.NeverByPolicy | pkg/rpc/service/auth/auth.go:334-345 | no principal creates or deletes a bucket, reads or writes its policy or changes its configuration, whatever the policies say |
| Operations.MirrorsTrusted | pkg/rpc/service/auth/operation.go:276-292 | looking at the signature only when there is something to bind gives the classification the authorizer decides on |
| Authorization.MirrorExact | pkg/rpc/service/auth/operation.go:276-304 | the authorizer admits the credential if and only if every pair the mirror returns is satisfied |
| Authorization.ServiceMirror | pkg/rpc/service/auth/auth.go:282-312 | the same for a service key's permissions and scope, copy sources included |
| Authorization.PrincipalMirror | pkg/rpc/service/auth/auth.go:314-397 | the same for a principal's effective sets, the operations no policy grants included |
| Authorization.HiddenLikeMissing | pkg/rpc/service/auth/auth.go:369-388 | a bucket a principal can do nothing on is refused exactly as one that does not exist |
| Authorization.RegionAskedLast | pkg/rpc/service/auth/auth.go:487-501 | only a caller holding everything the operation needs on the addressed bucket is told which region serves it |
| Authorization.AuthorizedImpliesProvable | pkg/rpc/service/auth/auth.go:269-367 | every command of an admitted operation's permission has a proof chain from the key to the bucket's root, and the copy source's likewise |
| Authorization.GrantHasChain | pkg/rpc/service/bucket/service.go:162-175 | a grant over the bucket or a powerline one reaches the bucket's root delegation |
| Authorization.IssuePermissionDelegations | pkg/rpc/authorize.go:272-285 | the key re-delegates each command of the permission to the gateway |
| Authorization.GatewayCanProve | pkg/rpc/authorize.go:101-146 | each re-delegated command extends the key's chain to one the gateway can use |
| RowSlots.ArrangeOrders | pkg/store/principal/memory/store.go:83-88 | the rows are sorted by tenant and then by id, each once, none lost |
| RowSlots.NoDeadlock | pkg/store/principal/memory/store.go:83-110 | while some caller is not done, some caller can step without its timer |
| RowSlots.OneHolder | pkg/store/principal/memory/store.go:69-110 | a slot is full exactly while one caller holds it, and never two |
| RowSlots.DoneHoldsNothing | pkg/store/principal/memory/store.go:92-107 | a caller that is done, timed out or not, holds no slot |
| RowSlots.TouchesOnlyItsOwn | pkg/store/principal/memory/store.go:92-107 | a caller empties only slots it took |
| CanonicalQuery.AwsUriEncode | pkg/sigv4/canonical.go:75-93 | each byte is sent as itself if it is unreserved, or a slash that is kept, and as a percent sign and two upper-case hex digits otherwise |
| CanonicalQuery.EncodeRoundTrip | pkg/sigv4/canonical.go:75-93 | decoding undoes encoding, and encoding never emits = or & |
| CanonicalQuery.CanonicalQueryString | pkg/sigv4/canonical.go:36-46 | the string is the sorted, joined encodings of the query's pairs, whatever order the map is read in |
| CanonicalQuery.CanonicalForm | pkg/sigv4/canonical.go:36-46 | cut at its ampersands the string is, in byte order, an encoded key, an equals sign and an encoded value for every pair as often as the query holds it, and nothing else |
| CanonicalQuery.CanonicalIsFaithful | pkg/sigv4/canonical.go:36-46 | two queries have the same string if and only if they hold the same pairs as often |

## Left out

- ProtocolTheorems.NoMissingGrant: says nothing of what a key holds where the policy grants its principal no command; `ProtocolAgreement.Agreement` says exactly when that is nothing.
- ProtocolAgreement.Agreement: says nothing of a principal whose removal is in flight or failed and was not repeated; such a principal's grants are out of step by design until the removal is repeated.
- ProtocolTheorems.DeleteRevokes: that no created key holds anything over the bucket after a Delete is false, as `ProtocolWitness.StaleSurvivesDelete` shows; a stale holding of a principal the deleted document granted nothing stays.
- ProtocolConservation.NothingVanishes: is about created keys; a creation that fails deletes what it stored without publishing it.
- Tenancy.NothingVanishes: is about created keys; a creation that fails deletes what it stored without publishing it.
- Services.Tenant.CreateBucket: the failed call leaves the root delegation of a bucket no row names; provisioning and routing of the bucket's space are one failing step.
- BucketPolicy.Validate: a document's well-formedness and the parsing of an ARN are libforge's and not part of this model.
- Operations.BoundToSignature: the checksums that bind a body are not modelled; a body is what it adds, the same in both requests.
- Authorization.MirrorOfRequest: with `MirrorExact` and `PrincipalMirror`, assumes policies name policy actions only, as validation ensures, and that no policy action stands for an operation no policy grants.
- RequestLaws.ClassifiedIsFor: the pairs a request needs are stated as a set, not in order.
- RequestLaws.FirstMeans: the blanks cut off are the ASCII ones.
- ProtocolProgress.PutCompletes: with the module's other members, is about a call with no other in flight; what a call meets beside others it may wait for, and a wait may end in a timeout.
- ProtocolTheorems.InfoLinearizable: is about principal-bound keys, and a page of the grant listing or a proof chain is read as single grants in any order, which allows more than the pages do.
- Service keys and root delegations in the protocol's state machine: they take part in no rotation; the sequential services cover them.
- The memory backend's locks in the protocol: its WithLock chooses the live rows before it waits, so the removal theorem is stated for Postgres only.
- Access-key row locks, the delegation lock of a batch put, and the order in which delegation rows are inserted: nothing above depends on them.
- Tenant provisioning and tenant deletion, which remove rows of every kind without the invariants above.
- Timeouts, deadlines, clock skew and midnight expiry: a timeout is an event that may happen at any waiting point.
- Cryptography, XML, URL parsing, HTTP, CBOR, configuration, the command line, the vault, and the clients of Swarf, Sprue and the PLC directory.
- The contents of the permission, route and subresource tables.
- The cleanup delegations, routing policies, provider lookup by region, metrics and wrap keys.
- The in-memory store's own proof-chain search, which is libforge's and not part of this model.
