# Sync engine verification

A Dafny model of the two-node synchronisation engine: publishing, importing, checkpointing and adopting membership
over Git refs that move only forward, with a durable job store, crashes at every step, and a network that loses
answers. `dafny verify dfyconfig.toml` checks all of it.

## How it is modelled

- **Commits are values.** A commit contains its parents and its tree, and a record identity contains the fields it is
  the digest of, so digests and object names are injective and no record can name a commit that contains it. A
  signature is the name of the key that made it.
- **Crashes are a number of steps.** A run that changes durable state is a method that is told how many steps it lives;
  every durable write and every effect costs one. A contract for every number of steps is a contract for every crash
  point. Lease expiry, refused operations, edits by others and the pushes of the other node are inputs, and the
  contracts hold for all of them.
- **Overlapping runs are state machines.** Where runs interleave, the model is a transition function over actions and
  the theorems are about every sequence of actions.
- **Time** is a number; the methods take the instants at which they work. A claim is live while the instant is before
  its expiry and can be taken over only after it; at the very instant of expiry it is neither, and recovery is refused.

| file | what it models |
|---|---|
| Commits, Records, Snapshots, Sets | commits, trees, signed records, membership, content comparison and the trees of new commits |
| Trust, Builders, Walks, ImportTrust, BuiltHistory | acceptance of content commits, the commits the commands build, the bounded walks of an import |
| Push, RefProtocol | one push and its classification; two nodes, one remote, interleaved processes |
| Journals, CandidateRuns, SharedRef | the candidate a journal names; concurrent invocations for one job; the jobs of two nodes and the ref they push |
| Control, Emergency | the control row; the emergency posture of an adopted membership |
| Publishing, Recovery, Checkpointing, MembershipApply | publication, checkpoint and membership jobs with claims, fences, crashes and recovery |
| ImportEffects, ImportMachine, ImportRecovery | file effects of an import, the states of its job, its attempts and recovery |
| Checkouts, ControllerImport | the checked-out ref, index and controller files following a commit; imports of controller records alone |
| Delivery, Serving, PeerInbox | nudge delivery and backoff, rate window and inbox admission, settling nudges against history |
| Management, ManagementRuns, Rotation, Drain, Strings | management requests, one execution at a time and overlapping; the recovery cursor, the round-robin drain, the order of identifiers |

## Where the code does less than it seems to promise

Each of these is stated with its exact condition or with a run that shows it.

- A second checkpoint with the same kind, target and membership is signed and pushed by apply and refused by everybody,
  because a checkpoint's identity does not cover its predecessor (`Builders.CheckpointCommitAcceptedIff`,
  `BuiltHistory.RefusedHeadStopsTheGroup`), until a new one is applied over it
  (`BuiltHistory.NewCheckpointRestoresTrust`).
- A publication that replaces an empty file by another file can be taken for no change
  (`Snapshots.ComparisonExactIff`).
- Two checkpoint invocations can sign two candidates for one plan (`CandidateRuns.OutdatedClaimForks`).
- An import can find its local ref ahead of what it fetched, because checkpoint apply takes no resource guard
  (`RefProtocol.ImportRelation`, `RefProtocol.AheadIff`, `RefProtocol.AheadIsReachable`): in every run exactly when some
  step moved its node on from what it had fetched (`RefProtocol.AheadRunIff`).
- A publication blocked by a moved remote may have reached it (`RefProtocol.BuiltUponIsReachable`): exactly when the
  fetched history has its candidate (`RefProtocol.BlockedReachedIff`).
- A resolved delivery can be sent again by a worker that was slow between its claim and its send, and only by such a
  worker (`Delivery.TwoWorkersResend`, `Delivery.ResolvedIsNotSent`, `Delivery.RobbedResends`).
- A refused delivery may have been committed (`Delivery.RefusedMayBeCommitted`): it certainly was not exactly when
  nothing was sent for it (`Delivery.UncommittedIffNeverSent`).
- Two overlapping membership adoptions can clear an emergency that is adopted
  (`Emergency.OverlappingAdoptionsDisarm`), exactly under the conditions of `Emergency.TwoAdoptionsArmedIff`; the next
  reconcile arms it again (`Emergency.RefreshRearms`).
- A membership plan that a run finds out of date before it signs is blocked for good: when configuration and membership
  fit it again, re-entry still refuses it (`MembershipApply.Plan.Recover`, `MembershipApply.ApplyCrashReapply`).
- A management request may be put down as uncertain while its execution still performs an effect
  (`ManagementRuns.LateEffectIsReachable`), only of a job it had linked (`ManagementRuns.DisownedPerformsOldOnly`).
- An advance whose ref is at the target already succeeds without installing the index (`Checkouts.StaleIndexPasses`);
  its own interruptions never leave that behind (`Checkouts.Checkout.ApplyImportIndex`).
- The error of the history coverage depends on the order of the questions when the chain breaks at the last commit of
  the bound (`PeerInbox.ErrorDependsOnOrder`), and only then (`PeerInbox.Coverage.Contains`).
- Removing a member makes its publications that are not imported yet unacceptable
  (`Builders.PublicationUnderLaterMembership`).

## Model

| member | source | states |
|---|---|---|
| Push.PushFastForward | internal/adapters/gitlocal/git.go:1164-1209 | The report and the final remote value, told from what others push around it, whether the push is delivered and answered, and what the two reads see |
| Push.PushAndClassify | internal/cli/sync.go:392-409 | A push that landed is only ever called confirmed or unknown; retryable, conflict and trust answers prove that this push changed nothing; conflict holds exactly when the first read shows neither predecessor nor candidate; confirmed proves the candidate was on the remote |
| Push.LandedNeverShowsPredecessor | internal/adapters/gitlocal/git.go:1189-1208 | After a landed push no later fast-forward shows the predecessor again, which is what makes reading the predecessor back a proof of no effect |
| Push.UnknownIsEither | internal/cli/sync.go:404-408 | The unknown answer is honest: one report follows both a landed and a lost push |
| RefProtocol.StepKeepsSafe | internal/cli/sync_publish.go:244-277 | Every step of every process of both nodes, with crashes and late pushes, keeps what each node and each process relies on: bases, candidates, plans and local refs stay on the remote history |
| RefProtocol.LandIsCompareAndSwap | internal/adapters/gitlocal/git.go:1184-1208 | A push that lands under the fast-forward rule moves the remote by exactly one commit, from the candidate's own base |
| RefProtocol.StepMovesForward | internal/cli/sync_publish.go:453-504 | In every step the remote stays or moves to a child that was journaled before, and local refs move only forward |
| RefProtocol.RefsStayOnOneChain | internal/cli/sync_reconcile.go:240-246 | On every run both local refs are ancestors of the remote, the remote is one first-parent chain above the start, and the nodes never diverge |
| RefProtocol.ReachedIff | internal/adapters/gitlocal/git.go:1184-1208 | In every run from a safe state, a commit above the remote was the remote's value at some point exactly when the final remote has it in its history |
| RefProtocol.CandidateReachedIff | internal/cli/sync_publish.go:333-381 | Whether a journaled candidate ever reached the remote is exactly whether the history of the remote has it |
| RefProtocol.BlockedReachedIff | internal/cli/sync_publish.go:357-381 | A publication that recovery blocks, finding neither base nor candidate, reached the remote exactly when the history recovery fetched has its candidate, and nothing that happens later changes that |
| SharedRef.RemoteIsOwnCandidate | internal/cli/sync_membership.go:265-296 | Write-ahead, job by job, for any number of jobs of two nodes with late pushes: in every run the remote is the start or a commit in the journal of the very job whose push set it, and for publications and membership that job's only candidate |
| SharedRef.LocalFollowsRemote | internal/cli/sync_membership.go:334-398 | In every run a node's local ref is the start or a candidate one of its jobs journaled and read back from the remote, and it lies on the remote's history |
| RefProtocol.RemoteIsJournaled | internal/cli/sync_publish.go:205-250 | Write-ahead over publish, checkpoint and import together: on every run the remote shows the start or a commit that a node had journaled |
| RefProtocol.ImportRelation | internal/cli/sync_reconcile.go:206-246 | What an import finds when it compares its local ref with its fetch: never diverged, and ahead only if a checkpoint, which takes no guard, advanced the ref in between |
| RefProtocol.ImportSeesFastForward | internal/cli/sync_reconcile.go:240-246 | In every run without such a checkpoint the relation is equal or behind |
| RefProtocol.AheadIsReachable | internal/cli/sync_checkpoint.go:156-235 | A run in which a checkpoint of the same node makes the ahead branch reachable with nothing outside the protocol moving a ref |
| RefProtocol.AheadIff | internal/cli/sync_checkpoint.go:206-235 | While an import compares and is not ahead, an advance of its node's ref puts it ahead exactly when the node already was at what it fetched |
| RefProtocol.AheadRunIff | internal/cli/sync_reconcile.go:240-246 | Over whole runs: an import ends up ahead exactly when at some step its node was at what it had fetched and was moved on |
| RefProtocol.AheadStays | internal/cli/sync_reconcile.go:240-246 | An import that is ahead stays ahead, whatever runs |
| RefProtocol.RivalNeverLands | internal/adapters/gitlocal/git.go:1184-1208 | Of two candidates over one base, once one is on the remote history the other never will be |
| RefProtocol.BuiltUponIsReachable | internal/cli/sync_publish.go:357-381 | A run in which a crashed publication did reach the remote and was built on before its recovery, so recovery sees neither base nor candidate |
| RefProtocol.SendReaches | internal/cli/sync_publish.go:205-262 | An undisturbed publish or checkpoint journals one child of the base and sends it, and changes nothing else |
| RefProtocol.SettleReaches | internal/cli/sync_publish.go:252-277 | Undisturbed, that candidate becomes the remote and the local value |
| RefProtocol.ImportReaches | internal/cli/sync_reconcile.go:464-588 | An undisturbed import of a node one commit behind brings its local ref to the remote's value |
| Snapshots.NewControllerRecords | internal/cli/sync_publish.go:735-751 | The records a commit adds; nothing when a record of the parent was rewritten or removed |
| Snapshots.ContentEqual | internal/cli/sync_publish.go:521-531 | Equal size and equal reading of every path of the first map, where a missing path reads as empty |
| Snapshots.ComparisonExactIff | internal/cli/sync_publish.go:521-531 | The comparison is equality for every snapshot exactly when the base has no empty file |
| Snapshots.EmptyFileConfuses | internal/cli/sync_publish.go:162-164 | With an empty file in the base there is a different snapshot, with any file of your choice in place of it, that counts as no content change |
| Snapshots.MissingPaths | internal/cli/sync_publish.go:539-548 | Exactly the base paths the snapshot lacks |
| Snapshots.CloneFiles | internal/cli/sync_publish.go:532-538 | An equal copy |
| Snapshots.RebuiltIsSnapshotPlusRecords | internal/cli/sync_publish.go:209-213 | Base minus missing paths, overlaid with snapshot and record, has exactly the snapshot as content and exactly the base records plus the new one as controller records |
| Trust.VerifiedIff | internal/cli/sync_publish.go:597-733 | Acceptance without its counting: linear, readable, locally safe, all old records kept, and the new records are one binding publication, or one binding checkpoint with its plan |
| Trust.CountExactOnAccepted | internal/cli/sync_reconcile.go:1036-1050 | On an accepted commit the cheap count holds exactly when its new record is a checkpoint with its plan |
| Trust.CountInexactWithoutAcceptance | internal/cli/sync_reconcile.go:1036-1050 | Without acceptance the count proves nothing: a commit that rewrites a checkpoint satisfies it |
| Builders.BuildPublication | internal/cli/sync_publish.go:134-243 | The publish command up to its signed candidate computes the specified commit or refuses |
| Builders.BuildSignedPublication | internal/cli/sync_publish.go:209-236 | Clone, add the record, delete what is missing, over the base: the specified candidate |
| Builders.PublishedCommitIsAccepted | internal/cli/sync_publish.go:206-243 | Every commit the publish command signs is accepted under the same configuration and membership, and adds one publication |
| Builders.BuildSignedCheckpoint | internal/cli/sync_checkpoint.go:163-199 | Target content, checkpoint and plan over the predecessor: the specified candidate |
| Builders.CheckpointCommitAcceptedIff | internal/cli/sync_checkpoint.go:163-199 | Of the checkpoint commits that apply signs and pushes, exactly those are accepted whose checkpoint record the predecessor does not hold; the record's identity does not cover the predecessor |
| Builders.CheckpointOfHeadIsAccepted | internal/cli/sync_checkpoint.go:125-138 | A checkpoint of the head it is applied to, such as the initial baseline, is always accepted |
| Builders.RepeatedResolutionIsRefused | internal/domain/syncrecords/publication.go:173-187 | Resolving to the same target again, above the first resolution, signs a commit nobody accepts |
| Builders.PublicationUnderLaterMembership | internal/domain/syncrecords/membership.go:427-435 | After the membership moves on, an accepted publication stays accepted exactly while its publisher's key is active |
| Builders.CheckpointUnderLaterMembership | internal/cli/sync_publish.go:689-729 | Accepted checkpoints stay accepted under every later membership |
| Walks.FirstParentRange | internal/adapters/gitlocal/git.go:402-429 | The in-place reversed walk returns the specified range or error |
| Walks.RangeAboveIsChain | internal/adapters/gitlocal/git.go:402-429 | A successful range is exactly the first-parent chain between its ends, oldest first |
| Walks.RangeAboveBound | internal/adapters/gitlocal/git.go:411-428 | The bound is reported exactly when the whole bound is linear and does not meet the start |
| Walks.RangeAboveNotLinear | internal/adapters/gitlocal/git.go:411-418 | The other failure is exactly a commit within the bound that is not linear, met before the start |
| ImportTrust.VerifyImportRange | internal/cli/sync_reconcile.go:1055-1065 | The backward loop decides the specified range trust |
| ImportTrust.VerifyImportBase | internal/cli/sync_reconcile.go:1067-1083 | The bounded loop finds the specified anchor or error |
| ImportTrust.TrustedBaseIsAnchored | internal/cli/sync_reconcile.go:1067-1083 | A successful base walk has found the checkpoint the base stands on, within the bound |
| ImportTrust.AnchoredBaseIsTrusted | internal/cli/sync_reconcile.go:1067-1083 | Whatever stands on a checkpoint within the bound passes, and otherwise only the bound stops it |
| ImportTrust.ImportIsAnchored | internal/cli/sync_reconcile.go:276-304 | Base walk and range walk together: the target stands on an accepted checkpoint through accepted publications only |
| ImportTrust.RecordsMatchCommits | internal/cli/sync_publish.go:735-751 | Down to the anchor the records only grow, and the records above the anchor's are in bijection with the commits above it |
| BuiltHistory.ImportTrustChain | internal/cli/sync_reconcile.go:1052-1083 | The chain of trust of an import in full: a checkpoint commit of the administrator below, one bound and signed publication per commit above, and exactly those records gained |
| BuiltHistory.CommandsAreAccepted | internal/cli/sync_publish.go:597-733 | Publications, and checkpoints whose record the predecessor does not hold, are accepted, and a baseline counts as a checkpoint; the repeated checkpoints that the command also signs are excluded here and refused |
| BuiltHistory.CommandHistoryIsImportable | internal/cli/sync_reconcile.go:276-304 | While publications and checkpoints that are not repeated are all that extends the remote, an import from any earlier commit never fails for lack of trust: its walks succeed, or stop at the bound, and it says when |
| BuiltHistory.NewCheckpointRestoresTrust | internal/cli/sync_reconcile.go:1055-1083 | A new checkpoint over any head, refused ones included, is accepted, and every range that ends in it is trusted |
| BuiltHistory.RepeatedResolutionExample | internal/cli/sync_checkpoint.go:163-199 | In a group of two over its verified baseline: a resolution is accepted, the same once more is signed and refused, and a checkpoint of another kind over it is accepted |
| BuiltHistory.SmallGroup | internal/cli/sync_publish.go:206-243 | The premises of these results are met: a group of two, its baseline and a publication above it, both accepted |
| BuiltHistory.RefusedHeadStopsTheGroup | internal/cli/sync_publish.go:134-136 | On a refused head no publication is built and no range that ends in it is trusted |
| Journals.JournalCandidate | internal/cli/sync_publish.go:753-763 | The backward scan finds the newest candidate |
| Journals.CandidateIgnoresOrder | internal/cli/sync_publish.go:753-763 | The scan answers the same for every order of the entries exactly when all candidates named are one commit |
| CandidateRuns.OneCandidateInEveryRun | internal/cli/sync_membership.go:257-296 | Membership apply, which reads the journal under its claim, and publish, which holds the guard, journal a single candidate in every concurrent run |
| CandidateRuns.UpToDateRunsAreSingle | internal/cli/sync_checkpoint.go:146-162 | Checkpoint apply does so in every run in which no claim is made on an outdated reading of the journal |
| CandidateRuns.OutdatedClaimForks | internal/cli/sync_checkpoint.go:146-162 | And one outdated claim is enough to journal a second candidate |
| CandidateRuns.CheckpointMaySignTwo | internal/cli/sync_checkpoint.go:146-199 | Two checkpoint invocations started together reach such a claim |
| Control.ControlStaysCoherent | internal/adapters/sqlite/sync.go:286-480 | Every control row reached by holds, pauses, resumes, adoptions and checkpoints is coherent, and its emergency mode is the one last adopted |
| Control.HoldOnlyStrengthens | internal/adapters/sqlite/sync.go:345-394 | Nothing but a checkpoint weakens a safety hold |
| Publishing.Site.ClaimJob | internal/adapters/sqlite/sync.go:644-719 | A claim is granted exactly under the store's conditions, with a new fence; otherwise nothing changes |
| Publishing.Site.Finish | internal/adapters/sqlite/sync.go:1697-1748 | Only the live owner under its fence releases a job, with evidence naming its candidate |
| Publishing.Site.BlockAfterRemoteMove | internal/adapters/sqlite/sync.go:1200-1230 | An unowned signed job is blocked and keeps its candidate |
| Publishing.Site.FinishPublished | internal/adapters/sqlite/sync.go:1442-1610 | Publishing and the delivery obligation are one transaction, all or nothing, and there is one delivery for each published job |
| Publishing.MakeClaimable | internal/cli/sync_publish.go:395-435 | A rejected, expired or uncertain job becomes claimable again with the same candidate |
| Publishing.PushClaimed | internal/cli/sync_publish.go:452-480 | One push of a claimed candidate in any weather, and the durable state each answer leads to |
| Recovery.RecoverJob | internal/cli/sync_publish.go:333-518 | For every crash point: recovery keeps the only candidate, pushes only over the job's base, moves the local ref only from base to candidate, moves nothing when the remote shows anything else but blocks the job and holds the group, and under stated conditions ends with remote, local and one delivery at the candidate |
| Recovery.Recover | internal/cli/sync_publish.go:333-518 | The loop over unresolved jobs: jobs without a candidate or of another membership are passed over unchanged, the first other job decides |
| Recovery.RecoverTwice | internal/cli/sync_publish.go:333-518 | When one unresolved job is actionable, a run publishes it, and the next run, over the jobs that it finds unresolved then, changes nothing at all |
| Recovery.Sign | internal/cli/sync_publish.go:205-243 | A claimed job is frozen, unless an earlier run did, and signed; a tree or a signature that fails releases the job where it stands, without a candidate |
| Recovery.Publish | internal/cli/sync_publish.go:165-288 | For every crash point of a publish run, of a new job or of one left unsigned: refs move only after the candidate is journaled, and the job stays as recovery needs it; with nothing in its way the run ends published |
| Recovery.PublishCrashRecover | internal/cli/sync_publish.go:98-518 | End to end: a publish run that dies anywhere, then one publish run that lives: remote, local ref and exactly one delivery end at one candidate, the first run's whenever that one was journaled |
| Checkpointing.Plan.Recover | internal/cli/sync_checkpoint.go:254-378 | Re-entry settles a candidate the remote shows, reopens one it does not show over an unmoved predecessor, and on a moved remote an unresolved job without a live claim is blocked and the group held; the candidate is kept and nothing is pushed |
| Checkpointing.Plan.Apply | internal/cli/sync_checkpoint.go:146-241 | Applying uses the journaled candidate if there is one, journals before it pushes, and for every crash point moves the local ref only from the predecessor to the candidate |
| Checkpointing.ApplyCrashReapply | internal/cli/sync_checkpoint.go:102-241 | End to end: after a crash anywhere a re-entered plan ends applied at one candidate, the first one if it was journaled |
| MembershipApply.Plan.Recover | internal/cli/sync_membership.go:125-211 | Re-entry settles a candidate the remote shows, makes a blocked, uncertain or expired job claimable over an unmoved remote with the candidate it has, leaves a blocked one without any blocked, and never pushes |
| MembershipApply.Plan.SettleConfirmed | internal/cli/sync_membership.go:334-398 | A confirmed candidate is adopted from its predecessor only: an emergency first, then the ref, then the job with its posture, for every crash point |
| MembershipApply.Plan.FinishBeforeEffect | internal/cli/sync_membership.go:431-446 | A refusal before any effect blocks the job or leaves it planned, exactly when the claim is granted and the run lives, and changes nothing else |
| MembershipApply.Plan.Apply | internal/cli/sync_membership.go:213-332 | Applying uses the journaled candidate if there is one, journals before it pushes, pushes only a fitting plan over the predecessor, and for every crash point moves the local ref only from the predecessor to the candidate |
| MembershipApply.Plan.PushAndAdopt | internal/cli/sync_membership.go:293-331 | Push, arm, move, finish under one claim; a job it leaves planned or blocked and unclaimed did not reach the remote by this push |
| MembershipApply.ApplyCrashReapply | internal/cli/sync_membership.go:77-398 | End to end: after a first run that dies or fails anywhere, one re-entry ends with the remote, the local ref and the posture at one candidate, the first one if it was journaled, for every first run but exactly those that found the plan out of date and lived to block it, which leave no effect |
| ImportEffects.Diff | internal/app/syncimport/import.go:24-58 | The plan names exactly the differing paths, once each and in order, with the bytes to write |
| ImportEffects.DeletionsMeaning | internal/app/syncimport/import.go:36-57 | The deletions are exactly the planned absences, in order |
| ImportEffects.DiffRoundTrip | internal/app/syncimport/import.go:21-58 | The plan of a difference leads exactly from one content to the other and leaves unrelated paths alone |
| ImportEffects.Worktree.Inspect | internal/app/syncimport/import.go:72-100 | All before, all after, unexpected and mixed, each exactly when it says so |
| ImportEffects.Worktree.Apply | internal/app/syncimport/import.go:105-180 | For every crash point only before values are ever overwritten, only with their after values; a finished run reaches the plan; an independent value stops it |
| ImportMachine.EffectsImplyState | internal/cli/sync_reconcile.go:547-566 | In every reachable state, with edits and deaths anywhere: validated and deferred jobs have left no effect, so effects remain only in applying, recovering, uncertain or applied jobs |
| ImportMachine.UninspectedResolutionIsSound | internal/cli/sync_reconcile.go:657-664 | Settling an obsolete unclaimed plan without looking at the tree is sound in every reachable state |
| ImportMachine.EffectsDoRemain | internal/cli/sync_reconcile.go:464-588 | Effects do remain in reachable states of applying jobs, so the invariant is about something |
| ImportRecovery.FinishRecovering | internal/cli/sync_reconcile.go:1248-1264 | A failed first attempt leaves explained effects to recovery, and is uncertain and held exactly when they are not explained |
| ImportRecovery.ImportSite.AdvanceIndex | internal/adapters/gitlocal/git.go:434-519 | The advance of a path-carrying import: index, then ref, for every crash point; foreign staged entries refuse it, and a ref at the target already ends it without the index |
| ImportRecovery.ApplyFresh | internal/cli/sync_reconcile.go:520-580 | The first attempt of a plan: for every crash point and every failure the tree holds some planned values over before values and nothing else, the ref has moved only over an index that follows the plan, and with nothing in its way the plan is applied |
| ImportRecovery.Prepare | internal/cli/sync_reconcile.go:829-892 | Without a live claim, unexplained effects lead to a hold in every case, untouched plans are released or retired, anything between becomes claimable |
| ImportRecovery.Execute | internal/cli/sync_reconcile.go:926-979 | Claim, begin, write, move the index, move the ref, finish: for every crash point and every interference the tree changes only from before to after values, the ref moves only over an index that follows the plan, and a recovered job is exactly at its target |
| ImportRecovery.RecoverImport | internal/cli/sync_reconcile.go:605-1008 | A path is written only if the measurement explained every path and the ref; any explained partial state, undisturbed, ends applied at the exact target; otherwise nothing is written, and without a live claim the group is held |
| ImportRecovery.ApplyCrashRecover | internal/cli/sync_reconcile.go:464-1008 | End to end: an import that dies or fails anywhere, also between index and ref, then one recovery: every planned path, the index, the ref and the job are at the target, or nothing was applied at all |
| Checkouts.ContentAdvanceChanges | internal/adapters/gitlocal/git.go:596-619 | Exactly the Markdown paths that differ between two commits are staged or removed, with the target's bytes |
| Checkouts.ProgressMayAdvance | internal/adapters/gitlocal/git.go:621-727 | The check before an advance admits whatever an interrupted advance leaves |
| Checkouts.Checkout.Materialize | internal/adapters/gitlocal/git.go:801-855 | Missing records are added one by one and nothing that exists is overwritten, at every crash point |
| Checkouts.Checkout.ApplyImportIndex | internal/adapters/gitlocal/git.go:434-519 | Records, then index, then ref, for every crash point: the ref is at the target only after the records and the index; entries and files outside the advance stay; a refused advance changes nothing |
| Checkouts.Checkout.Resume | internal/adapters/gitlocal/git.go:577-585 | However often an advance is interrupted and started again, it ends with ref, index, records and a clean state exactly as an undisturbed advance would |
| Checkouts.StaleIndexPasses | internal/adapters/gitlocal/git.go:505-511 | A ref that reached the target some other way passes for a finished advance although the index was not installed |
| ControllerImport.Site.FinishController | internal/cli/sync_reconcile.go:1214-1232 | A controller-only attempt that met an error is applied, validated again or uncertain exactly as the checkout shows |
| ControllerImport.Site.Attempt | internal/cli/sync_reconcile.go:406-447 | For every crash point of an attempt the checkout holds a trace of this advance, and the job is applied only at the target |
| ControllerImport.Site.SettleByState | internal/cli/sync_reconcile.go:782-821 | A plan at its target is applied, an untouched one is validated or retired, and any other is uncertain and held |
| ControllerImport.Site.Recover | internal/cli/sync_reconcile.go:707-822 | Recovery touches the checkout only to resume the trace of this very advance, a state that is neither that trace nor a clean end without a live claim holds the group, and with the gates open its result is decided by what the checkout shows |
| ControllerImport.Trace | internal/cli/sync_reconcile.go:707-716 | What an interrupted controller-only advance can leave: nothing, a dirty trace at the old ref, or the clean target |
| ControllerImport.ApplyCrashRecover | internal/cli/sync_reconcile.go:378-822 | End to end: a controller-only import that dies anywhere, then one recovery: ref, index and records are at the target and the job applied, or nothing was touched |
| Emergency.Node.AdoptRemote | internal/cli/sync_reconcile.go:103-169 | For every crash point of an adoption by reconcile an adopted emergency revision is armed |
| Emergency.Node.AdoptApplied | internal/cli/sync_membership.go:301-314 | The same for membership apply |
| Emergency.Node.AdoptRecovered | internal/cli/sync_membership.go:334-398 | The same for the recovery of a confirmed membership, which also finishes when nothing fails |
| Emergency.Node.Run | internal/cli/sync_reconcile.go:119-169 | In every run of one invocation at a time, each dying anywhere, an adopted emergency revision is armed and nothing is active |
| Emergency.OneAdoptionStaysArmed | internal/adapters/sqlite/sync.go:396-403 | Each single adoption keeps the posture armed at each of its points |
| Emergency.ArmedIffGuarded | internal/cli/sync_reconcile.go:119-145 | Any steps of overlapping adoptions stay armed at every point exactly when no normal posture is written over an adopted emergency revision and no move to an emergency revision takes effect while the mode is not armed |
| Emergency.TwoAdoptionsArmedIff | internal/cli/sync_reconcile.go:119-145 | For every interleaving of a normal and an emergency adoption, whoever runs them: only the clearing of the one and the move of the other can disarm, exactly under these conditions |
| Emergency.OverlappingAdoptionsDisarm | internal/cli/sync_reconcile.go:119-145 | Two overlapping adoptions can leave an emergency revision adopted and the group active |
| Delivery.AcceptedIsCommittedOnce | internal/cli/sync_peer_delivery.go:53-126 | With any loss, delay, repetition, death and lease expiry: an accepted job was committed by the receiver with its exact bytes, and no publication is committed twice |
| Delivery.RowsOnlyGrow | internal/adapters/sqlite/sync_peer.go:88-108 | What the receiver committed stays as it is |
| Delivery.ResolvedIsNotSent | internal/cli/sync_peer_delivery.go:62-124 | With any number of workers a resolved job is never sent again in a run in which no expired claim is taken from a worker that is about to send under it |
| Delivery.RobbedResends | internal/cli/sync_peer_delivery.go:68-78 | And from every safe state such a claim lets the job be delivered and accepted, and then sent again by the worker that lost it |
| Delivery.TwoWorkersResend | internal/cli/sync_serve.go:276-277 | Two workers of one service do reach that: an accepted job is about to be sent again |
| Delivery.ResolvedStays | internal/adapters/sqlite/sync.go:2160-2164 | A resolved delivery keeps its answer for good |
| Delivery.UncommittedIffNeverSent | internal/cli/sync_peer_delivery.go:146-156 | Whatever the answer, refusal included: the receiver cannot have committed the publication exactly when the run sent nothing for it; otherwise one that has fits all the sender has seen |
| Delivery.NeverSentNeverCommitted | internal/cli/sync_peer_delivery.go:146-192 | A publication whose attempts the sender itself declined is not committed, and nothing on its way can commit it |
| Delivery.RefusedMayBeCommitted | internal/cli/sync_peer_delivery.go:146-156 | A refused job may have been committed all the same, so refusal says nothing about the receiver |
| Delivery.DeliveryDue | internal/cli/sync_peer_delivery.go:128-144 | The doubling loop computes the capped delay; an unreadable instant is never due |
| Delivery.DelayGrows | internal/cli/sync_peer_delivery.go:136-142 | The delay never shrinks and is the longest exactly from the sixth attempt on |
| Serving.AtMostTwiceTheCalls | internal/cli/sync_serve.go:504-518 | At most 239 calls of a sender are admitted in any half-open minute, and at most 120 in one that starts no later than its first call |
| Serving.BoundIsReached | internal/cli/sync_serve.go:504-518 | 239 is reached, so the bound is the least one |
| Serving.Limiter.AllowRate | internal/cli/sync_serve.go:504-518 | The verdict and the new rate are the sender's own; no other sender is affected |
| Serving.Limiter.Serve | internal/cli/sync_serve.go:504-518 | In every history of calls each sender is answered as if it called alone |
| Serving.Inbox.AdmitNudge | internal/adapters/sqlite/sync_peer.go:88-141 | Same bytes again are acknowledged without a change, other bytes refused, new ones need room in queue, inbox and ledger; nudges alone never fill the queue |
| PeerInbox.Coverage.Contains | internal/cli/sync_peer_inbox.go:249-284 | The answer is whether the target is among the first commits of the readable chain, whatever was asked before, and all questions together look up at most the bound; unless the chain breaks at the very last commit of the bound, the error too is the same in every order, and says that the chain breaks |
| PeerInbox.SettleRows | internal/cli/sync_peer_inbox.go:194-236 | A row is resolved as covered exactly when its target is within the bound, in whatever order the rows come, with one bounded walk for all; unless the chain breaks at the last commit of the bound, a row stays pending exactly when its target is not covered and the chain breaks |
| PeerInbox.ErrorDependsOnOrder | internal/cli/sync_peer_inbox.go:249-284 | When the chain does break at the last commit of the bound, two orders of questions disagree about the error, for every target that is not covered |
| PeerInbox.BoundedOutput.Write | internal/cli/sync_peer_inbox.go:182-192 | The buffer is always the longest prefix of the output that fits, and overflow says that something was lost |
| Rotation.Cursor.Pass | internal/cli/sync_management_recovery.go:33-44 | A pass takes the least eligible request after the cursor, or the least of all |
| Rotation.PickDoesNotPass | internal/cli/sync_management_recovery.go:33-44 | A pick never jumps over an eligible request on the way round |
| Rotation.BetweenTwoPicks | internal/cli/sync_management_recovery.go:33-44 | Between two picks of one request every other request that stayed eligible has had its turn, however the rest of the set changed |
| Rotation.EveryRequestOncePerRound | internal/cli/sync_management_recovery.go:33-44 | With a fixed set of n requests any n consecutive passes inspect each exactly once |
| Drain.MaxRouteLimit | internal/cli/aftercommand.go:237-245 | The largest limit, and zero when none is positive |
| Drain.Routes.Round | internal/cli/aftercommand.go:193-217 | One round visits every live route under its limit once while the budget lasts |
| Drain.Routes.Run | internal/cli/aftercommand.go:190-226 | After every completed round each live route has had exactly its share, none exceeds its limit, live routes under their limits differ by at most one visit, and with budget left each live route has used its limit or last claimed nothing |
| Management.Request.Associate | internal/cli/sync_management_worker.go:91-129 | A job is linked with a reserved place, or needs none, links are never lost, and a retry links nothing but its eligible obligations |
| Management.Request.DoRecoverPublication | internal/cli/sync_publish.go:349-354 | Publication recovery performs its push and ref move only for a linked job, keeps a place for its delivery, and with room and life enough ends settled with the delivery linked |
| Management.Request.DoRecoverImport | internal/cli/sync_reconcile.go:629-642 | Import recovery performs its writes only for a linked job and never those that adopt a checkpoint, and with room and life enough settles it |
| Management.Request.DoFreshImport | internal/cli/sync_management_worker.go:131-165 | A fresh import is admitted and linked in one transaction before its first effect; a full job queue, a checkpoint or a retry leaves no link and no effect |
| Management.Request.DoDeliver | internal/cli/sync_peer_delivery.go:59-124 | A retry sends exactly the deliveries among its eligible obligations, past both boundaries, and links nothing |
| Management.Request.DoVerify | internal/cli/sync_verify.go:111-190 | A verification observes nothing before its job is admitted and linked, and is held when there is no room |
| Management.Request.Execute | internal/cli/sync_reconcile.go:103-106 | An execution has only effects that its works may cause, and none from past a membership revision that is not adopted: it adopts neither that nor a checkpoint |
| Management.Request.Dispatch | internal/cli/sync_management_worker.go:258-463 | For each of the three actions the state that an execution ends in, and when; one that ends as a no-op or a failure has no link and performed nothing |
| Management.Request.Recover | internal/cli/sync_management_recovery.go:53-113 | A request is queued again only without any link, and exactly then when it may run; it is finished exactly when all of its links are settled and, for a verification, something of it is kept, as its result or as expired |
| Management.Life | internal/cli/sync_management_worker.go:258-463 | In every life of a request of any action, with deaths anywhere: effects belong to linked jobs, the membership ref is never moved, a retry touches its obligations only, and a request that waits to run again or ended as a no-op performed nothing |
| ManagementRuns.EveryEffectIsLinked | internal/adapters/sqlite/sync_management_execution.go:14-298 | With any number of overlapping executions and recovery passes, each as slow as it likes and with any clock: effects belong to linked jobs, a queued request has no effect and nobody left who could perform one, a no-op or failure has none, and settled means settled |
| ManagementRuns.LinkedIsNotRunAgain | internal/cli/sync_management_recovery.go:85-105 | A request with a link and an execution is never executed again, in any run |
| ManagementRuns.FinishedStays | internal/domain/syncmanagement/request.go:155-169 | A finished request stays as it finished, and after a no-op or a failure nothing is ever performed |
| ManagementRuns.DisownedPerformsOldOnly | internal/adapters/sqlite/sync_management_execution.go:74-81 | A worker whose claim is gone changes the request no more and performs nothing but for jobs it linked before, whatever else runs |
| ManagementRuns.RequeuedIsQuiet | internal/cli/sync_management_recovery.go:85-105 | Once a request is queued again, no execution from before performs anything any more |
| ManagementRuns.LateEffectIsReachable | internal/adapters/sqlite/sync_management_execution.go:121-195 | A run in which recovery has put the request down as uncertain and its execution performs an effect afterwards |

## Left out

- Git, SSH signing, SQLite, secret resolution, HTTP, launchd, systemd and Watchman themselves: they appear as the values
  and outcomes the code reads from them.
- Record formats beyond the fields that bind a record: schema strings, identifier patterns, strict JSON decoding and
  duplicate receipt identities. Different encodings of one record are told apart by a number.
- Path rules are four decisions about one path (governed, protected, reserved, identity); the route engines that make
  them are not part of the model. File modes other than the regular one are a single unreadable value.
- Publication eligibility and the double capture of the working tree: a publish run starts from a captured snapshot.
- `push_pending` is never written by the code and is not a state of the model.
- Checkpointing.Plan.Apply: one run at a time; overlapping runs are covered by CandidateRuns and RefProtocol only, because the
  single-candidate claim is false for them.
- RefProtocol.RemoteIsJournaled: one set of journaled commits for each node; job by job it is SharedRef.RemoteIsOwnCandidate.
- BuiltHistory.CommandsAreAccepted: leaves out repeated checkpoints, of which the claim is false; they are decided by
  Builders.CheckpointCommitAcceptedIff.
- BuiltHistory.CommandHistoryIsImportable: leaves out the same repeated checkpoints.
- MembershipApply.Plan.Apply: one run at a time; overlapping runs are the subject of CandidateRuns, SharedRef and Emergency.
- ManagementRuns.EveryEffectIsLinked: effects are told by worker and job, without the guards inside each job.
- Publishing.Site.FinishPublished: the queue counts obligations of other kinds as one number.
- ImportRecovery.RecoverImport: temporary files and new directories of a path write are not modelled.
- ImportRecovery.ApplyFresh: nobody else edits the tree during the first attempt; edits are covered by Execute and by
  ImportMachine.
- Checkouts.Checkout.ApplyImportIndex: aliases of controller paths on a case-folding file system, and paths hidden by an
  ignore rule, are not modelled.
- ControllerImport.Site.Recover: clearing a hold with a verified checkpoint after the recovery is modelled in Control only.
- ImportMachine.EffectsImplyState: at most one process of a node works on an import, which the resource guard gives.
- Emergency.Node.Run: one invocation at a time, because the property is false for overlapping ones.
- Management.Request.Dispatch: the result of a verification is one status, and claim renewal and authorization are inputs.
- Snapshots.MissingPaths: the result is a set; the order in which the source lists it is not stated.
- Builders.BuildPublication: eligibility of the snapshot, the comparison of the remote head and the onboarding refusal
  come before it and are not part of it.
- PeerInbox.SettleRows: failures of the store while it records a resolution are not modelled.
- Delivery: request signing, TLS and authorization of the peer are outcomes the receiver may answer with at any time.
- The contents of membership transitions and plans, import observation revisions, verification runs, status, setup,
  doctor, dispatch, schedules, log rotation and unit files: other concerns with little state of their own here.
- Malicious peers, and the strength of digests and signatures.
