# Models and proofs for the Open Social Protocol

This project models the stateful core of the repository in Dafny and proves what its design relies on.
`dafny verify dfyconfig.toml` checks all of it. Nothing here runs the original programs.

The code that changes things step by step (contracts, indexer database, sync loop, quota store, sponsor
service, cross-post orchestrator, codec streams) is written as classes and loops. Each method is proved
against a function of the old state, and the properties are proved about those functions over whole
runs, so they hold of the classes.

## What is modelled

| files | component |
|---|---|
| `Identity`, `IdentityRuns`, `IdentityDevices`, `IdentityEpochs` | identity contract: storage, every entry point, runs of transactions under a non-decreasing clock |
| `Communities`, `CommunityRuns`, `CommunityIndex` | communities contract: ranked roles with expiry, time-locked ownership transfer |
| `Chain`, `SocialTables`, `Projections`, `RegistryLog`, `SocialLog`, `Database`, `IndexerStore`, `Reorg` | indexer: parsing a block, projecting events into all tables, what the tables show of a whole log, applying and rolling back blocks, paged replay |
| `IndexRefinement` | contract and indexer together: the index shows the identity contract's storage |
| `Sync`, `SyncRuns` | sync loop against a node that may answer anything |
| `StateHash`, `Paging`, `PostListing` | state hash chain, event and post paging |
| `Quota`, `QuotaRuns`, `Sponsor` | sponsor quotas, reservations, overlapping `sponsor()` calls |
| `Reconcile`, `Queue`, `CrossPost`, `CrossPostRuns`, `CrossPostSignals`, `CrossPostQueue`, `CrossPostLimit` | cross-post records, orchestrator with its log of signals, queue, size limit of the list, runs under any answers |
| `CrossPostChain`, `CrossPostLanding`, `CrossPostAccepted`, `CrossPostCases` | the orchestrator against a chain on which accepted transactions land late or never |
| `Codec`, `CodecRoundTrip`, `CodecStreams`, `CodecCanonical`, `CodecObjects` | interpreted protobuf codec, canonicalisation, decoded objects |
| `Bytes`, `Seqs`, `Wrappers` | contract byte helpers, duplicate-free lists, options |

Things the code cannot see become parameters: block times and signers are part of a transaction, the node
is a record of its answers in one step, hashes and decoders are functions, a browser worker that stops is
one of the answers of `publishKoinos`. Reverts and thrown errors are results (`Reverted`, `None`, `Failed`,
`Rejected`), and a reverted or failed step leaves the state as the source leaves it.

## Findings

* An accepted publication is not on the chain yet: `publishPost` returns once a node has taken the transaction
  (apps/extension/src/background/publish.ts:98-112, packages/sdk/src/client/protocolClient.ts:356). Two consequences
  show in apps/extension/src/background/crosspost.ts:187-327. An earlier transaction of the same attempt, whose answer
  was lost, can still land first, and then the record names a post the chain never gets (`LateTransactionWins`; exactly
  when this cannot happen: `AcceptedIdExactly`, `AcceptedIdIsSafeExactly`). And a lookup before the accepted post has
  landed sends the record to manual review, which it never leaves (`EarlyLookupForcesReview`; exactly when:
  `ManualReviewExactly`, `ReviewFollowsTheChain`). No action the queue offers for the record as it is stored does so
  (`OfferedActionsForceNoReview`). An action offered for an earlier state of the record can: exactly when is
  `OutdatedOffersForceReviewExactly`, and in the run above the lookup was offered before the answer came
  (`EarlyLookupIsOffered`).
* A sponsor that stays silent counts as one that refused. `SponsorClient` turns an aborted request into a `SponsorError`
  (packages/sdk/src/sponsor.ts:279-285), which `classify` answers with "failed"
  (apps/extension/src/background/publish.ts:182-197), although the protocol description asks for a lookup after an
  unknown outcome, in its table of reconciliation cases and for sponsors. A retry then sends another transaction without
  a lookup while the first may still land (`SilentSponsorIsSentAgain` is a run in which it does; exactly when a
  publication that may land is sent again at once: `ResentWhileOpenExactly`).
* Finality needs a final height below the head (apps/indexer/src/sync.ts:205-250). With a reversible window of 0, or
  a node that calls its head irreversible, a rollback at the head deletes a final block
  (`FinalityNeedsALowerFinalHeight` gives a run for every such configuration in which an indexed height is final).
* The device epoch is a u32 counter (packages/contracts/identity/assembly/Identity.ts:509). A voided device becomes
  valid again after a multiple of 2^32 recoveries (`DeviceAcceptedExactly`; `VoidedDeviceReturns` is a run in which it
  does); below that, `DeviceAuthority` holds.
* The 200-record limit of the cross-post list (apps/extension/src/background/crosspost.ts:108-117) asks only for
  state "succeeded" and drops the oldest such records (`LimitDropsExactly`), also one whose signed proof is still missing
  (exactly when: `MissingProofsLostExactly`). Even the newest record can go, in the save that stores it
  (`NewestMayBeForgotten` is a run in which 200 drafts wait and a published and reported post is forgotten).
* The state hash covers the events of each block and the number of blocks (apps/indexer/src/hash.ts:50). Ids of
  blocks without events do not enter it (`HashesCompareEvents`).
* Actor resolution lets capability 0 pass for any valid device (packages/contracts/identity/assembly/Identity.ts:196),
  although the protocol description asks for a common capability bit in every case. The model follows the code;
  `CapabilityZeroDiffers` says exactly where the two differ, and `CapabilityZeroPasses` is a run that ends there.

## Model

| member | source | states |
|---|---|---|
| Bytes.Concat | packages/contracts/common/assembly/util.ts:11-21 | the buffer holds all parts, in order, and nothing else |
| Bytes.ConcatInjectivePrefix | packages/contracts/identity/assembly/Identity.ts:75-77 | device keys of two 25-byte addresses never collide: equal keys mean equal account and device |
| Bytes.ConcatInjectiveSuffix | packages/contracts/communities/assembly/Communities.ts:105-108 | role keys never collide although community ids vary in length, because the subject has a fixed length |
| Bytes.U64be | packages/contracts/common/assembly/util.ts:34-41 | eight bytes whose big-endian value is the number, for every u64 |
| Bytes.Compare | packages/contracts/common/assembly/util.ts:49-58 | the in-place comparison is the lexicographic order |
| Bytes.OrderIsNumeric | packages/contracts/common/assembly/util.ts:24-58 | byte order of equally long big-endian strings is numeric order, so stored numbers sort by value |
| Identity.Identity.constructor | packages/contracts/identity/assembly/Identity.ts:44-73 | a contract starts with empty storage and no events |
| Identity.Identity.DeviceStorageKey | packages/contracts/identity/assembly/Identity.ts:75-77 | the key is the account followed by the device |
| Identity.Identity.Contains | packages/contracts/identity/assembly/Identity.ts:114-119 | true exactly for members of the list |
| Identity.Identity.ValidatePolicy | packages/contracts/identity/assembly/Identity.ts:122-136 | accepts exactly policies of 1 to 16 distinct guardian addresses other than the account, with a threshold they can meet and a delay of at most a year |
| Identity.Identity.LoadRecovery | packages/contracts/identity/assembly/Identity.ts:146-150 | the stored recovery state, or an empty one |
| Identity.Identity.ResolveActor | packages/contracts/identity/assembly/Identity.ts:168-200 | the signer, or the first reason for which the device is refused |
| Identity.Identity.DoRegister | packages/contracts/identity/assembly/Identity.ts:206-242 | exactly when it succeeds, the new storage and the events; otherwise nothing changes |
| Identity.Identity.DoUpdateProfile | packages/contracts/identity/assembly/Identity.ts:244-262 | new storage and events of a profile update through owner or device; otherwise nothing changes |
| Identity.Identity.DoRotateEncryptionKey | packages/contracts/identity/assembly/Identity.ts:264-288 | only the owner, only to a higher key version |
| Identity.Identity.DoAuthorizeDevice | packages/contracts/identity/assembly/Identity.ts:290-327 | a device record of the current epoch with a bounded lifetime and protocol capabilities only |
| Identity.Identity.DoRevokeDevice | packages/contracts/identity/assembly/Identity.ts:329-352 | the record stays and is marked revoked |
| Identity.Identity.DoSetRecoveryPolicy | packages/contracts/identity/assembly/Identity.ts:354-385 | the first policy is active at once, later ones are pending for the active policy's delay |
| Identity.Identity.DoApplyRecoveryPolicy | packages/contracts/identity/assembly/Identity.ts:387-414 | the pending policy becomes active when its time came, and a pending recovery is cancelled |
| Identity.Identity.DoCancelRecoveryPolicy | packages/contracts/identity/assembly/Identity.ts:416-434 | the pending policy is gone, the active one stays |
| Identity.Identity.DoProposeRecovery | packages/contracts/identity/assembly/Identity.ts:436-480 | one more approval, or a new round for another owner; the clock starts when the threshold is met |
| Identity.Identity.DoCancelRecovery | packages/contracts/identity/assembly/Identity.ts:482-494 | the owner drops the pending recovery |
| Identity.Identity.DoExecuteRecovery | packages/contracts/identity/assembly/Identity.ts:496-528 | new owner, next device epoch, pending policy and recovery gone |
| Identity.Identity.Execute | packages/contracts/identity/assembly/Identity.ts:206-528 | any transaction does to storage and event log what the run model says, a revert nothing |
| IdentityRuns.StepFrame | packages/contracts/identity/assembly/Identity.ts:206-528 | a transaction touches the identity and recovery state of its own account only |
| IdentityRuns.ReachableOk | packages/contracts/identity/assembly/Identity.ts:354-528 | in every reachable storage approvals are duplicate-free current guardians, the effective time is set exactly when the threshold is met, the pending new owner differs from the owner, pending things need a policy |
| IdentityRuns.PendingIsBacked | packages/contracts/identity/assembly/Identity.ts:436-480 | behind every approval of a pending recovery stands an accepted proposal of that owner signed by that guardian, with nothing voiding it since |
| IdentityRuns.OnlyExecutionChangesOwner | packages/contracts/identity/assembly/Identity.ts:496-528 | no other entry point changes the owner of a registered identity |
| IdentityRuns.RecoverySafety | packages/contracts/identity/assembly/Identity.ts:354-528 | whenever an owner changes, at least threshold distinct guardians of the policy active then had signed proposals for exactly that new owner, without owner cancel, policy application or another candidate in between, and the delay had elapsed since the threshold was reached |
| IdentityRuns.PendingPolicyIsQueued | packages/contracts/identity/assembly/Identity.ts:354-434 | a pending policy was set by the owner and has stood unchanged since, for at least the delay of the active policy when its time comes |
| IdentityRuns.PolicyTimeLock | packages/contracts/identity/assembly/Identity.ts:354-414 | every policy after the first was continuously pending for at least the delay of the policy it replaced and was not carried across a recovery |
| IdentityRuns.Recoverable | packages/contracts/identity/assembly/Identity.ts:436-528 | from every reachable state with a policy, for every new owner other than the current one, at most threshold proposals and then an execution are all accepted and install that owner |
| IdentityDevices.EpochCountsRecoveries | packages/contracts/identity/assembly/Identity.ts:496-528 | the device epoch is the number of accepted recoveries, modulo 2^32 |
| IdentityDevices.DevicesAlwaysOk | packages/contracts/identity/assembly/Identity.ts:290-352 | device records always sit under the key of their own account and device |
| IdentityDevices.EveryDeviceGranted | packages/contracts/identity/assembly/Identity.ts:290-352 | every stored device was authorised by the owner of that moment with those rights, and is marked revoked exactly when it was revoked since |
| IdentityDevices.DeviceAuthority | packages/contracts/identity/assembly/Identity.ts:168-200 | whenever resolution accepts a device, the present owner authorised it after the last recovery, did not revoke it since, and it is unexpired and holds the capability |
| IdentityDevices.DeviceAcceptedExactly | packages/contracts/identity/assembly/Identity.ts:168-200 | the exact condition for a recorded device in any run, including the wrap-around of the epoch |
| IdentityDevices.CapabilityZeroDiffers | packages/contracts/identity/assembly/Identity.ts:168-200 | the contract accepts every device the description accepts, and one it does not exactly when a device in force is asked for capability 0 |
| IdentityDevices.RecoveryVoidsDevices | packages/contracts/identity/assembly/Identity.ts:496-528 | after a recovery a device is accepted exactly when its record already carries the new epoch and is otherwise good |
| IdentityDevices.OnlyNewOwnerAfterRecovery | packages/contracts/identity/assembly/Identity.ts:496-528 | immediately after a recovery every accepted resolution of the account names the new owner |
| IdentityEpochs.VoidedDeviceReturns | packages/contracts/identity/assembly/Identity.ts:496-528 | a run with 2^32 recoveries: the device is refused after the first and accepted after the last, for an owner who never authorised it |
| IdentityEpochs.CapabilityZeroPasses | packages/contracts/identity/assembly/Identity.ts:168-200 | a run after which a device is accepted for capability 0 without a common capability bit |
| Communities.Communities.constructor | packages/contracts/communities/assembly/Communities.ts:68-92 | a contract starts without communities, roles and identity contract |
| Communities.Communities.RoleStorageKey | packages/contracts/communities/assembly/Communities.ts:105-108 | the key is the community id followed by the subject |
| Communities.Communities.RoleInEffect | packages/contracts/communities/assembly/Communities.ts:129-139 | owner for the owner, otherwise the stored unexpired role, otherwise none |
| Communities.Communities.DoSetIdentityContract | packages/contracts/communities/assembly/Communities.ts:175-182 | only with the contract's own authority |
| Communities.Communities.DoCreateCommunity | packages/contracts/communities/assembly/Communities.ts:188-233 | a new record for an unused id, created with the creator's own key |
| Communities.Communities.DoSetRole | packages/contracts/communities/assembly/Communities.ts:239-279 | exactly when a role may be set, and the role table after it |
| Communities.Communities.DoSetPolicy | packages/contracts/communities/assembly/Communities.ts:285-311 | admins and the owner change the policy reference and nothing else |
| Communities.Communities.DoProposeOwnerTransfer | packages/contracts/communities/assembly/Communities.ts:317-344 | only the owner, effective after the community's delay |
| Communities.Communities.DoCancelOwnerTransfer | packages/contracts/communities/assembly/Communities.ts:346-371 | only the owner, only when one is pending |
| Communities.Communities.DoExecuteOwnerTransfer | packages/contracts/communities/assembly/Communities.ts:373-400 | anybody, once the time came; the new owner's stored role is dropped |
| Communities.Communities.DoSetLabel | packages/contracts/communities/assembly/Communities.ts:406-437 | moderators and above; storage does not change |
| Communities.Communities.Execute | packages/contracts/communities/assembly/Communities.ts:175-437 | any transaction does to storage and event log what the run model says, a revert nothing |
| CommunityRuns.ReachableOk | packages/contracts/communities/assembly/Communities.ts:239-400 | in every reachable storage no stored role belongs to a community's owner or is the owner role or none, and a pending owner is another address |
| CommunityRuns.OwnershipStep | packages/contracts/communities/assembly/Communities.ts:317-400 | owner, pending owner, transfer time and delay of a community change in the three transfer calls on it only, each authorised as it must be |
| CommunityRuns.PowerCannotGrow | packages/contracts/communities/assembly/Communities.ts:118-279 | while no role or transfer call of the owner is accepted and no transfer is pending, the owner stays and who has admin rank at any later time is exactly who would have had it anyway, whatever admins and moderators do and whoever a reverted call names |
| CommunityRuns.EveryRoleAppointed | packages/contracts/communities/assembly/Communities.ts:239-279 | every stored role was set by an accepted call of someone who might set it, and every admin role by the owner of that moment |
| CommunityRuns.PendingTransferProposed | packages/contracts/communities/assembly/Communities.ts:317-371 | a pending transfer is the owner's own, uncancelled and not replaced proposal |
| CommunityRuns.TransferTimeLock | packages/contracts/communities/assembly/Communities.ts:317-400 | an owner changes only by an executed transfer, at least the delay after the owner's own proposal of exactly that new owner; right after it the previous owner has no role |
| CommunityIndex.CommunityIndexRefines | apps/indexer/src/projections.ts:599-666 | for every run and every interleaving with other contracts' events the indexed community equals contract storage: owner, name, policy, delay, pending owner, transfer time |
| Chain.ParseBlockItem | apps/indexer/src/chain.ts:64-95 | rejects items without height, id or header; otherwise the block with the protocol events of its transactions |
| Chain.ParsedEventsCanonical | apps/indexer/src/chain.ts:72-88 | parsed events are strictly ordered by transaction and position, and their raw bytes decode to what they carry |
| Chain.ParsedEventsComplete | apps/indexer/src/chain.ts:72-88 | a parsed block holds exactly the decodable events of configured contracts in transactions that were not reverted |
| Projections.ProjectConcat | apps/indexer/src/projections.ts:786-819 | projecting a log in two parts is projecting it whole |
| Projections.ProjectKeepsTruncated | apps/indexer/src/db.ts:478-484 | no projection leaves anything behind that truncation does not remove, `projection.` meta keys included |
| Projections.NotificationsNumbered | apps/indexer/src/projections.ts:101-135 | notification ids of every projected log are 1, 2, 3 and so on, so a replay renumbers them identically |
| IndexerStore.IndexerDb.Notify | apps/indexer/src/projections.ts:115-135 | nobody is notified of their own acts, and ids follow the highest one |
| IndexerStore.IndexerDb.ApplyIdentityEvent | apps/indexer/src/projections.ts:148-269 | the rows and the notification of an identity event |
| IndexerStore.IndexerDb.ApplyPublicationEvent | apps/indexer/src/projections.ts:430-597 | the rows of a publications event, key packages and cross-post outcomes included, and the notifications: one per delivered key, at most one otherwise |
| IndexerStore.IndexerDb.DistributeKeys | apps/indexer/src/projections.ts:537-571 | every addressed key of a readable set stored once and announced to its recipient, in order; nothing for a set that cannot be read |
| IndexerStore.IndexerDb.ApplyRelationEvent | apps/indexer/src/projections.ts:307-404 | edges, blocks, follows, audiences and the notification of a relationships event; the SocialLog lemmas say what the tables show of a whole log |
| IndexerStore.IndexerDb.ApplyMessagingEvent | apps/indexer/src/projections.ts:788-796 | conversations replaced, messages inserted once |
| IndexerStore.IndexerDb.ApplyTokenEvent | apps/indexer/src/projections.ts:797-802 | token accounts replaced, every other token event listed at its position |
| IndexerStore.IndexerDb.ApplySponsorshipEvent | apps/indexer/src/projections.ts:698-734 | sponsors and grants after a sponsorship event; the first registration time stays |
| SocialLog.EdgeShowsLastEvent | apps/indexer/src/projections.ts:307-375 | in every log a pair shows the last request, acceptance, removal or block of the two; after a block neither a request nor a friendship is left |
| SocialLog.NoEdgeWithoutEvent | apps/indexer/src/projections.ts:307-375 | a pair that no event was about has no row |
| SocialLog.FollowShownExactly | apps/indexer/src/projections.ts:363-389 | in every log a follow is shown if and only if an event made it and neither an unfollow nor a block by either side came since, with the time of the last such event |
| SocialLog.FirstMessageStays | apps/indexer/src/projections.ts:792-794 | of all messages with one sender and id the first is shown, whatever comes later |
| SocialLog.PackagesAreDelivered | apps/indexer/src/projections.ts:537-571 | in an ordered log the key table holds exactly the keys some distribution delivers to an address, each as it was delivered |
| SocialLog.IndexedPackagesAreDelivered | apps/indexer/src/projections.ts:537-571 | the same for the database of any chain of blocks |
| IndexerStore.IndexerDb.ApplyCommunityEvent | apps/indexer/src/projections.ts:599-690 | the rows and the notification of a communities event |
| IndexerStore.IndexerDb.ApplyRegistryEvent | apps/indexer/src/projections.ts:740-783 | the upserts, the deletion of cancelled proposals and the meta keys of a registry event, as the rules that the RegistryLog lemmas give a meaning over whole logs |
| RegistryLog.EntryShowsLastEvent | apps/indexer/src/projections.ts:740-768 | in every log an entry is shown exactly when its last event is not a proposal cancelled since, with the status and times of that event |
| RegistryLog.EntryShowsLastHash | apps/indexer/src/projections.ts:743-768 | a shown entry has the last ABI hash proposed for it; only a cancellation in between can leave it without one |
| RegistryLog.PendingAdminIsLastProposal | apps/indexer/src/projections.ts:769-775 | an admin change is pending exactly when the last admin event proposed it, and then as proposed |
| RegistryLog.AdminIsLastChange | apps/indexer/src/projections.ts:772-775 | the admin shown is the one of the last change |
| IndexerStore.IndexerDb.Apply | apps/indexer/src/projections.ts:786-819 | one event changes the tables of the contract that emitted it |
| IndexerStore.IndexerDb.TruncateProjections | apps/indexer/src/db.ts:478-484 | every row of every projection table and every `projection.` meta key is gone, everything else stays |
| IndexerStore.RowsAfterCursor | apps/indexer/src/projections.ts:851-866 | the keyset cursor after k rows selects exactly the remaining rows |
| IndexerStore.IndexerDb.ReplayProjections | apps/indexer/src/projections.ts:846-870 | the paged loop makes of the tables exactly the projection of the whole log, each row once |
| IndexerStore.IndexerDb.Restore | apps/indexer/src/db.ts:426-451 | after a rollback of the transaction every table is as it was |
| IndexerStore.IndexerDb.ApplyBlock | apps/indexer/src/sync.ts:105-165 | rows, projections and checkpoint together, or the database unchanged |
| IndexerStore.IndexerDb.RollbackTo | apps/indexer/src/sync.ts:168-174 | log and checkpoints cut at the height, projections those of the log that is left |
| Reorg.ApplyIndexed | apps/indexer/src/sync.ts:105-165 | exactly the blocks that extend the stored ones are accepted, and then the database is that of one more block |
| Reorg.FreshIsIndexed | apps/indexer/src/sync.ts:105-165 | a fresh indexer that is given chained blocks applies all of them |
| Reorg.LogRehydrates | apps/indexer/src/projections.ts:821-843 | decoding the stored bytes again gives the events that were applied |
| Reorg.RollbackIndexed | apps/indexer/src/sync.ts:168-174 | a rollback leaves the database of the blocks that remain, projections and notification ids included |
| Reorg.ReorgConvergence | apps/indexer/src/sync.ts:105-174 | after any applied blocks, refused blocks and rollbacks log, checkpoints, state hashes, meta and every projection table equal those of a fresh indexer that applied only the blocks now stored |
| IndexRefinement.IndexRefinesContract | apps/indexer/src/projections.ts:148-269 | for every run of the identity contract and every interleaving with other events, identity and device rows equal contract storage: owner, keys, profile, epoch, policy, pending policy, pending recovery with count, threshold and time |
| IndexRefinement.IndexerShowsContract | apps/indexer/src/sync.ts:105-174 | the same through any history of applied blocks, refused blocks and rollbacks |
| StateHash.HashesCompareEvents | apps/indexer/src/hash.ts:50-55 | with a collision-free hash two indexers have the same state hash exactly when they stored equally many blocks with the same events |
| Sync.IndexedLogSorted | apps/indexer/src/sync.ts:114-144 | the log of chained blocks is in primary-key order |
| Sync.CheckpointsOfStored | apps/indexer/src/db.ts:466-476 | checkpoint reads name the stored block of that height and the last one |
| Sync.Syncer.constructor | apps/indexer/src/sync.ts:193-202 | a new syncer has stored nothing and verified no chain id |
| Sync.Syncer.RollbackFork | apps/indexer/src/sync.ts:234-250 | rolls back to the final height below the fork, or refuses and changes nothing |
| Sync.Syncer.ReconcileTipStep | apps/indexer/src/sync.ts:324-350 | what a step does when the head is at or below the tip |
| Sync.Syncer.AdvanceStep | apps/indexer/src/sync.ts:285-308 | what a step does with fetched blocks: apply, roll back at a fork, wait |
| Sync.Syncer.Step | apps/indexer/src/sync.ts:274-315 | one step does to the database what the block-list model says, and the database stays that of the stored blocks |
| Sync.Syncer.SyncToHead | apps/indexer/src/sync.ts:356-365 | the loop's result and state are those of the run model, for any node answers |
| SyncRuns.AlwaysLinked | apps/indexer/src/sync.ts:274-350 | in every run stored blocks stay contiguous from the start height and parent-linked, whatever the node answers |
| SyncRuns.Finality | apps/indexer/src/sync.ts:205-250 | when the final height is below the head no step deletes or changes a stored block at or below it |
| SyncRuns.FinalityNeedsALowerFinalHeight | apps/indexer/src/sync.ts:205-250 | otherwise, if an indexed height is final, some run from an empty database, over blocks with distinct ids and real parents, ends with a step that deletes a final block: the condition is exact |
| SyncRuns.HeadShrinkTolerance | apps/indexer/src/sync.ts:324-350 | blocks are dropped without a contradicting id only above a head below the tip, and only if an earlier completed step also saw a head below that same tip with only failed steps in between |
| SyncRuns.CanonicalStep | apps/indexer/src/sync.ts:282-308 | from canonical blocks a step against a consistent node applies the next batch and is caught up exactly at the head |
| SyncRuns.DivergedStep | apps/indexer/src/sync.ts:234-350 | from blocks that are not canonical one step cuts back to canonical ones |
| SyncRuns.Converges | apps/indexer/src/sync.ts:234-365 | against a fixed consistent chain a run ends caught up with exactly its blocks after at most one rollback, and none when the stored blocks were canonical |
| Paging.PageIsWholeBlocks | apps/indexer/src/queries.ts:730-750 | a page is exactly the rows from its start up to the next height, which is strictly greater and within the tip; only a single block exceeds the limit |
| Paging.EventPagingIsExact | apps/indexer/src/queries.ts:730-750 | following the next height from any start ends and yields every later row once, in order |
| Paging.IndexedUpTo | apps/indexer/src/queries.ts:730-733 | the log of every indexed chain meets what event paging needs |
| Paging.CursorRoundTrip | apps/indexer/src/queries.ts:84-100 | a cursor is read back as the position it was made from |
| Paging.PostPagingIsExact | apps/indexer/src/queries.ts:215-234 | following the cursors of a listing in strictly falling positions yields it whole, once, in at most one page per post |
| Paging.DistinctPositions | apps/indexer/src/projections.ts:434-481 | different posts have different positions, each that of one event |
| Paging.IndexedPostsArePaged | apps/indexer/src/projections.ts:434-481 | in the database of any chain of blocks different posts have different positions, each that of one event |
| PostListing.IndexedListingsPageExactly | apps/indexer/src/queries.ts:132-234 | in the database of any chain of blocks, whatever the filter: what the order by position returns falls strictly, and following `nextCursor` serves every selected post once, newest first |
| PostListing.SelectionExists | apps/indexer/src/queries.ts:132-234 | there is such an ordered selection for every table and filter |
| Quota.QuotaStore.constructor | apps/sponsor/src/quota.ts:109-133 | a new store is empty |
| Quota.QuotaStore.BurstWindow | apps/sponsor/src/quota.ts:141-147 | keeps exactly the entries after the cutoff, in order |
| Quota.QuotaStore.BurstOps | apps/sponsor/src/quota.ts:150-152 | the operations inside the window |
| Quota.QuotaStore.Check | apps/sponsor/src/quota.ts:155-181 | the decision, what remains and when to retry |
| Quota.QuotaStore.HoldOps | apps/sponsor/src/quota.ts:197-210 | the operations are charged to the day and the window at once |
| Quota.QuotaStore.Unhold | apps/sponsor/src/quota.ts:213-222 | the charge is undone and the entry found by identity, wherever pruning left it |
| Quota.QuotaStore.Settle | apps/sponsor/src/quota.ts:225-240 | receipt data on the row and the aggregate counters |
| Quota.QuotaStore.Reserve | apps/sponsor/src/quota.ts:249-275 | check and charge together |
| Quota.QuotaStore.Commit | apps/sponsor/src/quota.ts:264-268 | settles once, later calls change nothing |
| Quota.QuotaStore.Release | apps/sponsor/src/quota.ts:269-273 | gives back once, later calls change nothing |
| Quota.QuotaStore.RecordAccepted | apps/sponsor/src/quota.ts:278-283 | charges and settles without a limit |
| Quota.QuotaStore.RecordRefusal | apps/sponsor/src/quota.ts:286-288 | counts the refusal on its day |
| QuotaRuns.RowsAreCharged | apps/sponsor/src/quota.ts:197-283 | in every run each (user, day) row holds exactly what was charged and not released |
| QuotaRuns.ClampNeverFires | apps/sponsor/src/quota.ts:213-216 | a release never takes more than the row holds, so the clamp at zero is never used |
| QuotaRuns.QuotaConservation | apps/sponsor/src/quota.ts:197-294 | on every day the users' operations are the accepted ones plus those of open reservations, and transaction, revert and RC totals match the counters, in any interleaving |
| QuotaRuns.DailyBound | apps/sponsor/src/quota.ts:155-275 | with reservations as the only entry no (user, day) row exceeds the daily allowance |
| QuotaRuns.WindowsAreExact | apps/sponsor/src/quota.ts:141-222 | the pruned and rebuilt window lists exactly the unreleased operations after the cutoff, each once |
| QuotaRuns.BurstBound | apps/sponsor/src/quota.ts:141-275 | with non-decreasing times the unreleased operations of a user in every half-open interval of the window length are at most the burst limit |
| QuotaRuns.DailyRetry | apps/sponsor/src/quota.ts:160-168 | waiting the stated seconds reaches the next UTC day, and no fewer seconds do |
| QuotaRuns.BurstRetry | apps/sponsor/src/quota.ts:170-178 | waiting the stated seconds takes the oldest entry out of the window, and no fewer do |
| Sponsor.SponsorService.Arrived | apps/sponsor/src/server.ts:269-274 | quota is reserved before anything is signed or sent |
| Sponsor.SponsorService.SignatureDone | apps/sponsor/src/server.ts:276-282 | a failed co-signature releases and refuses |
| Sponsor.SponsorService.SendDone | apps/sponsor/src/server.ts:289-313 | a send that throws releases, one that returns commits, also when it reverted or timed out |
| Sponsor.CallsOwnTheirReservations | apps/sponsor/src/server.ts:261-314 | in every interleaving each accepted call owns one reservation, open exactly in flight, committed exactly when the send returned, released exactly when nothing was sent |
| Sponsor.SponsoredWithinDailyLimit | apps/sponsor/src/server.ts:261-314 | calls whose send returned and calls in flight together never exceed a payee's daily allowance, and are what the payee's row says |
| Sponsor.NothingLeaks | apps/sponsor/src/server.ts:261-314 | once every call is answered each day's charged operations are exactly the accepted ones |
| Reconcile.NewRecordSound | packages/sdk/src/reconcile.ts:58-70 | a fresh record satisfies the machine invariant |
| Reconcile.StepIsSound | packages/sdk/src/reconcile.ts:96-157 | every event keeps the invariant, rewrites no recorded fact, and asks for manual review exactly when it contradicts one |
| Reconcile.MachineInvariant | packages/sdk/src/reconcile.ts:58-164 | over every event sequence post id and host ref are set exactly when their side is ok and written once, the state is the derived one, manual review is never left and success only for it |
| Reconcile.RetryNeverRepublishes | packages/sdk/src/reconcile.ts:160-164 | a retry publishes on Koinos exactly when no post id is known and the outcome is not unknown |
| Reconcile.ResolveOutcome | packages/sdk/src/reconcile.ts:210-230 | chain before indexer, and no event when an answer throws |
| Reconcile.RetryRecord | packages/sdk/src/reconcile.ts:236-270 | the whole retry sequence, for every answer |
| Reconcile.RetryIsSafe | packages/sdk/src/reconcile.ts:236-270 | a retry keeps all facts, never publishes with a known post id, and after an unknown outcome only when a lookup found nothing |
| Queue.NoDeadEnds | apps/extension/src/shared/queue.ts:60-164 | a record is offered no action exactly when it is finished or was sent a moment ago |
| Queue.UnfinishedAsksForAttention | apps/extension/src/shared/queue.ts:60-168 | an unfinished record that is not fresh asks for attention |
| CrossPost.CrossPostOrchestrator.Save | apps/extension/src/background/crosspost.ts:108-117 | the list after the size limit |
| CrossPost.CrossPostOrchestrator.Update | apps/extension/src/background/crosspost.ts:119-125 | replaces the attempt's record or puts it first |
| CrossPost.CrossPostOrchestrator.MaybeProof | apps/extension/src/background/crosspost.ts:253-267 | what is stored and returned for every answer of the proof |
| CrossPost.CrossPostOrchestrator.Send | apps/extension/src/background/crosspost.ts:217-222 | a publication starts from the record that was just saved, and is logged with what it hands over |
| CrossPost.CrossPostOrchestrator.LookUp | apps/extension/src/background/crosspost.ts:208-215 | a completed lookup is logged with what it asked for and what was answered |
| CrossPost.CrossPostOrchestrator.Publish | apps/extension/src/background/crosspost.ts:217-251 | what is stored, signalled and returned for every answer of the node, and for none |
| CrossPost.CrossPostOrchestrator.Draft | apps/extension/src/background/crosspost.ts:136-180 | idempotent per attempt id; the log gets a new draft exactly when one is stored |
| CrossPost.CrossPostOrchestrator.Confirm | apps/extension/src/background/crosspost.ts:187-206 | only a draft, stored as submitting before it is sent; every record stored and every signal, in order |
| CrossPost.CrossPostOrchestrator.Retry | apps/extension/src/background/crosspost.ts:270-298 | an unknown outcome is looked up before the record is prepared and sent; every record stored and every signal, in order |
| CrossPost.CrossPostOrchestrator.Reconcile | apps/extension/src/background/crosspost.ts:311-327 | looks up and never publishes; stale submissions count as unknown |
| CrossPost.CrossPostOrchestrator.ReportHost | apps/extension/src/background/crosspost.ts:333-351 | the host side as the user reports it |
| CrossPost.CrossPostOrchestrator.Prove | apps/extension/src/background/crosspost.ts:353-362 | records a missing proof, refuses otherwise |
| CrossPost.CrossPostOrchestrator.Discard | apps/extension/src/background/crosspost.ts:364-374 | removes a record unless its submission is fresh |
| CrossPostRuns.RecordsAlwaysOk | apps/extension/src/background/crosspost.ts:136-374 | in every run, whatever the answers, attempt ids are unique and every stored record is sound, keyed by its author, complete in what it asks the indexer for, and has its draft text until it is published |
| CrossPostRuns.ManualReviewExactly | apps/extension/src/background/crosspost.ts:311-351 | a turn that changes a record leaves it under manual review if and only if it already was, the user reported another host link than the recorded one, or a reconciling lookup of a record with a post id found none or another |
| CrossPostRuns.FactsStay | packages/sdk/src/reconcile.ts:96-157 | post id, host link and, once confirmed, key of a record stay until the attempt is discarded |
| CrossPostSignals.CallSignals | apps/extension/src/background/crosspost.ts:187-327 | of every call: a publication starts from a record that is ready for it or right after a lookup that found nothing, and the record it leaves is ready again only after a refusal or such a lookup |
| CrossPostSignals.UnknownIsNeverResentBlindly | apps/extension/src/background/crosspost.ts:187-327 | in every run directly before a publication stands a new draft, a refusal or a lookup that found nothing; an answer directly follows its publication, and after an unanswered one the next signal is a lookup or a new draft |
| CrossPostSignals.ResentWhileOpenExactly | apps/extension/src/background/publish.ts:182-197 | a publication that may still land is sent again without a lookup if and only if it failed while it was submitted, was classified as failed, and was not a single copy that the chain reverted |
| CrossPostSignals.AcceptedIsNeverResent | apps/extension/src/background/crosspost.ts:187-327 | between an accepted publication of an attempt and its next publication stands a new draft |
| CrossPostChain.ChainIsKnown | apps/extension/src/background/publish.ts:98-112 | what is on the chain or may still land under the run's keys was there at the start or was handed over in the run |
| CrossPostChain.ChainIsUnderWay | apps/extension/src/background/publish.ts:98-112 | the same without what was finally refused: the chain holds only what was there at the start or was handed over and not so refused |
| CrossPostChain.CallJustified | apps/extension/src/background/crosspost.ts:187-327 | every post id and every id or hash for the indexer that a call stores comes from the record before it or from a publication or lookup under its key |
| CrossPostLanding.RecordsAreKnown | apps/extension/src/background/crosspost.ts:187-327 | whatever landed when and whatever answer was lost, every recorded post id and everything a record asks the indexer for was handed over under the record's key |
| CrossPostLanding.PostIdIsTheChains | apps/extension/src/background/crosspost.ts:187-327 | a recorded post id was handed over under the key of the record's author and attempt, and is the chain's post for it, whenever there is one, if nothing else that may land was handed over under the key |
| CrossPostLanding.LookupTells | apps/extension/src/background/app.ts:145-163 | a post the indexer finds by id or content hash is the post of the key that was looked up |
| CrossPostLanding.FoundIdIsTheChains | packages/sdk/src/reconcile.ts:210-230 | after a lookup that found a post, in whatever call, the record names the chain's post for its key or is under manual review |
| CrossPostAccepted.AcceptedIsRecorded | apps/extension/src/background/crosspost.ts:217-251 | the record after an accepted publication holds its id, under the key it was sent with |
| CrossPostAccepted.AcceptedIdExactly | apps/extension/src/background/publish.ts:98-112 | an accepted id must be the key's post, whatever the chain does next, if and only if no other id is under way under the key |
| CrossPostAccepted.AcceptedIdStaysRight | apps/extension/src/background/crosspost.ts:187-327 | such an id stays right for the rest of the run, as long as the record is kept |
| CrossPostAccepted.AcceptedIdIsSafeExactly | apps/extension/src/background/crosspost.ts:217-327 | for a client: the accepted id is the key's post, if there is one, in every chain that agrees with all answers so far, if and only if nothing with another id that may still land was handed over under the key before |
| CrossPostAccepted.ReviewFollowsTheChain | apps/extension/src/background/crosspost.ts:311-327 | reconciling a record with a post id forces manual review while that post has not landed or when another has, and never once it has landed |
| CrossPostCases.LateTransactionWins | apps/extension/src/background/crosspost.ts:217-298 | a run with true answers in which the record names an accepted post and the chain has the earlier, unanswered one |
| CrossPostCases.EarlyLookupForcesReview | apps/extension/src/background/crosspost.ts:311-327 | a run with true answers in which an accepted, not yet landed post is looked up and the record goes to manual review |
| CrossPostCases.EarlyLookupIsOffered | apps/extension/src/shared/queue.ts:60-164 | the queue offered that lookup for the record as it was stored before the answer |
| CrossPostCases.SilentSponsorIsSentAgain | apps/extension/src/background/publish.ts:182-197 | a run with true answers in which a sponsor passes a transaction on and is not heard, the retry sends another without a lookup and is accepted, and the chain gets the first |
| CrossPostQueue.OfferedActionsAreAccepted | apps/extension/src/shared/queue.ts:60-164 | every offered action passes the orchestrator's gate, draft text included |
| CrossPostQueue.OfferedActionsForceNoReview | apps/extension/src/shared/queue.ts:60-164 | no action the queue offers for a record drives that record to manual review, whatever chain, node and indexer answer |
| CrossPostQueue.OutdatedOffersForceReviewExactly | apps/extension/src/shared/queue.ts:60-164 | an action offered for an earlier state of the record forces review if and only if a lookup contradicts a post id, or a reported link another link, that was recorded since |
| CrossPostQueue.QueueHasNoDeadEnds | apps/extension/src/background/crosspost.ts:187-374 | in every run each record is finished, fresh, or offered an action that is accepted |
| CrossPostLimit.LimitDropsOldestFinished | apps/extension/src/background/crosspost.ts:108-117 | the size limit drops only succeeded records, and of those none newer than one that stays |
| CrossPostLimit.LimitDropsExactly | apps/extension/src/background/crosspost.ts:108-117 | a save drops a record if and only if the list is over the limit, the record is succeeded, and its rank by time and place among the succeeded ones is below the number of records too many |
| CrossPostLimit.MissingProofsLostExactly | apps/extension/src/background/crosspost.ts:108-117 | a save loses an unfinished record if and only if one of those lowest-ranked succeeded records still misses its proof |
| CrossPostLimit.NewestMayBeForgotten | apps/extension/src/background/crosspost.ts:108-117 | a run from an empty list in which a published and reported post is dropped, its proof missing, by the save that stores it as succeeded |
| Codec.VarintReads | apps/extension/src/shared/protobufNoEval.ts:200-202 | a varint is read back as written, and the bytes after it are left |
| Codec.DelimitedReads | apps/extension/src/shared/protobufNoEval.ts:204-211 | a length-delimited value is read back exactly to its end |
| Codec.PackedReads | apps/extension/src/shared/protobufNoEval.ts:338-346 | a packed list is read back item by item to the end of its payload |
| CodecRoundTrip.MessageEncodes | apps/extension/src/shared/protobufNoEval.ts:213-265 | every canonical message within the recursion limit encodes |
| CodecRoundTrip.MessageDecodes | apps/extension/src/shared/protobufNoEval.ts:286-361 | decoding with a schema that knows fewer fields, at every nesting depth, gives the message without the fields it does not know |
| CodecRoundTrip.RoundTrip | apps/extension/src/shared/protobufNoEval.ts:200-361 | for every schema decoding an encoded canonical message gives it back: nested, packed, unpacked, empty messages |
| CodecRoundTrip.EncodingInjective | packages/sdk/src/encoding.ts:175-180 | different canonical messages of a type have different bytes |
| CodecRoundTrip.SubSchemaReadsProjection | apps/extension/src/shared/protobufNoEval.ts:299-306 | unknown fields of any wire form the encoder writes are skipped without disturbing known ones |
| CodecStreams.Writer.Ldelim | apps/extension/src/shared/protobufNoEval.ts:204-211 | closing a fork puts its bytes behind their length and restores the outer writer |
| CodecStreams.WriteItem | apps/extension/src/shared/protobufNoEval.ts:200-211 | one tagged value appended to the writer, forks balanced |
| CodecStreams.WriteField | apps/extension/src/shared/protobufNoEval.ts:238-262 | packed and unpacked lists and single values |
| CodecStreams.WriteMessage | apps/extension/src/shared/protobufNoEval.ts:213-265 | the writer ends with exactly the message's bytes appended, or the encoder throws |
| CodecStreams.Reader.SkipType | apps/extension/src/shared/protobufNoEval.ts:303-306 | a skipped value is consumed exactly |
| CodecStreams.Reader.ReadPacked | apps/extension/src/shared/protobufNoEval.ts:339-345 | the loop stops exactly at the bound |
| CodecStreams.Reader.ReadValue | apps/extension/src/shared/protobufNoEval.ts:307-350 | one value read and the bound restored |
| CodecStreams.Reader.ReadMessage | apps/extension/src/shared/protobufNoEval.ts:286-361 | the bounded reader stands exactly behind the message afterwards and its outer bound is restored |
| CodecCanonical.CanonicalConforms | packages/sdk/src/encoding.ts:81-172 | whatever object is accepted, its canonical form is a canonical message within range and depth |
| CodecCanonical.EncodeDecodes | packages/sdk/src/encoding.ts:175-180 | every accepted object encodes, and the codec decodes its bytes to its canonical form |
| CodecCanonical.SameBytesSameCanonicalForm | packages/sdk/src/encoding.ts:154-180 | two objects have the same bytes exactly when they have the same canonical form |
| CodecObjects.FilledCanonical | packages/sdk/src/encoding.ts:182-206 | filling in defaults and empty lists, at every depth, changes no canonical form |
| CodecObjects.CanonicalSettles | packages/sdk/src/encoding.ts:154-172 | canonicalising twice changes nothing |
| CodecObjects.ObjectRoundTrip | packages/sdk/src/encoding.ts:174-220 | the object `decode` hands out for an encoded object has the same canonical form and encodes to the same bytes |
| CodecObjects.ScalarsArePresent | packages/sdk/src/encoding.ts:182-220 | in a decoded object each scalar field has the encoded value, or its default when the object encoded had none |

## Left out

- Cryptography, base64 and base58, JSON rendering and UTF-8: hashes, decoders, key derivations and link checks are function parameters; strings in protobuf messages are their UTF-8 bytes.
- HTTP, SQLite, browser storage and timers: tables are maps or ordered lists, a transaction happens whole or not at all. Nested transactions of `IndexerDb.transaction` only join the outer one.
- Texts: revert reasons, error messages, titles and details of the queue, log lines. `lastError` keeps whether and roughly what, not the wording.
- Clock: contract runs assume head block times that never go back and stay clear of the u64 limit (positive for recoveries, whose effective time 0 means none). Reconciliation and orchestrator calls use one time per call.
- Impacted accounts of events: they take part in nothing proved here, and the event views that are hashed carry none.
- The contracts relationships, messaging, token, sponsorship, publications and registry themselves: the index is modelled for their events, and for identity and communities also compared with storage. A pair of accounts is a set where the table stores it sorted; conversations, messages, token states and media are kept as their JSON text.
- The index's role rows are not compared with the contract: an executed transfer drops the new owner's stored role in the contract and not in the index.
- `Syncer` counters, timestamps and log messages, the polling timer, and the promise queue that keeps steps from overlapping: a run is a sequence of steps. A step asks a node for the same range at most once.
- `sweep` of the orchestrator is a series of `reconcile` calls, which runs contain in any order. Display columns of a stored cross-post (url, title, sequence, epoch, block height) and the list order of the panel are not kept.
- CrossPostLanding.PostIdIsTheChains: assumes that transactions built for different keys carry different post ids and content hashes (both are hashes over the attempt's content and time), that only this client publishes under its attempt ids, and that posts are not undone by a reorganisation of the chain. Posts of later versions, by whose hash the indexer also matches, are not part of the chain's model.
- CrossPostAccepted.AcceptedIdIsSafeExactly: of the failures only a revert of a transaction that has no other copy excludes that it lands; a sponsor's refusal does not, because a request that timed out reads the same. When a key has a post, the contract refuses another, so a node is assumed to accept a publication only while its key has none.
- CrossPostAccepted.AcceptedIdStaysRight: assumes that keys of different attempts differ (they are hashes of author and attempt id).
- IdentityDevices.DeviceAuthority: for fewer than 2^32 recoveries of the account; `IdentityDevices.DeviceAcceptedExactly` has no such limit.
- IdentityDevices.OnlyNewOwnerAfterRecovery: for fewer than 2^32 recoveries of the account, as `IdentityEpochs.VoidedDeviceReturns` requires.
- IndexerStore.IndexerDb.Restore: a transaction inside a transaction only joins the outer one, so only the outer rollback is modelled.
- CodecCanonical.EncodeDecodes: is about the codec alone; the objects `decode` makes of its result are those of `CodecObjects.ObjectRoundTrip`.
- Paging.PostPagingIsExact: takes the listing as given; `PostListing.IndexedListingsPageExactly` derives it for indexed databases.
- QuotaRuns.BurstBound: assumes reservation times that never go back; `sponsor()` reads its clock before an asynchronous validation, and a restart empties the in-memory window.
- Protobuf groups, maps, floats, negative integers, fixed-width and zigzag fields, wrappers and required fields; `verify` and `fromObject`, and of `toObject` everything but its defaults. Skipping does handle fixed-width wire types. A canonical message must encode to less than 4 GiB.
- CodecRoundTrip.RoundTrip: messages are lists of set fields in id order; key order and prototypes of JavaScript objects have no counterpart.
- CodecCanonical.CanonicalConforms: names of enum values, decimal strings and textual byte forms are converted before the model starts; addresses stay bytes when they are decoded.
