# Change Capsule, modelled and proved

Change Capsule gives one change attempt its own Git worktree and branch, records checkpoints and
evidence about it, seals it into an immutable result, lands that result on a target, and cleans up.
Everything it knows is durable: a manifest per capsule, two artifact files, a reservation index, and
what Git holds. A process can stop between any two of its writes, and others may move the same
branches, files and HEADs meanwhile. This project models that protocol and the algorithms under it,
and proves what the tool promises about them.

## How the model is built

**The world** (`World.dfy`, `Git.dfy`, `Model.dfy`). Each capsule has a *store* (manifest, result,
patch), written only by the manager, and a *Git side* (branch, two pending refs, worktree entry and
registration, files, index), which anybody may change. Integration targets, reservations and the clock
complete it. Commits are their own content, so equal identifiers are equal commits; patches satisfy
`apply(base, diff(base, tree)) == tree`, which is proved and not assumed. Digests stand for what they
digest; where the bytes matter (`Requests.dfy`, `Receipts.dfy`) the hash is a parameter and each
theorem names the pair of inputs that must not collide.

**The machine** (`Machine.dfy`). A program counter stands before each block of code that ends in one
durable effect; a step runs that block on what it then finds. A run is any sequence of events: starting
an operation, one step, the death of the process, a move by somebody else. All safety theorems are
about every run. "Undisturbed" theorems say exactly which moves by others they exclude. An error
returned halfway is a death at that point, except `abort_integration`, which is a step.

**The manager** (`Manager.dfy`). The class `CapsuleManager` holds the methods of `create.rs`,
`lifecycle.rs` and `recover.rs` in their own imperative form, branch by branch. Its `schedule` says how
others move between any two effects and when the process dies. Every method is proved to do, under
every schedule, exactly what the machine does from the same counter, and every such execution is a run
(`Execution.ExecutionIsRun`), so the theorems about runs are theorems about these methods. Those that
callers use also promise, of themselves, what a reported success means.

**The decisions** (`Decisions.dfy`, `SealedDecisions.dfy`, `RecoveryDecisions.dfy`). For every operation and
every state: exactly when a call goes ahead, what it then records, and that otherwise the whole call
changes nothing. Conditions and records are given in the fields of the state, independently of the guards
the blocks of code use, and proved to agree. `Safekeeping.dfy` draws the consequences for whole runs.

Reading order: `Model`, `Git`, `Ordering`, `World`, `Machine`, `Execution`; the decisions; then
`Invariant` and `Runs` (safety), `Safekeeping`, `IntegrationDecision` with `IntegrationOutcome`, `CheckpointAtomicity` with `CheckpointOutcome`,
`Cleanup` with `CleanupOutcome`, `IntegrationJournals` with `TargetChain`, `Reconciliation` with
`WholeSweep`, `CreationOutcome`, `SealedReceipts`, `Closing`, `Bounds`, `EndToEnd` and `Reached`; then
`ManagerSafety`, `Manager`. `Capacity` builds on the checkpoint files. The remaining files
stand on their own: `Framing`, `Requests`, `IgnoredWalk`, `IgnoredContent`, `Receipts`, `Publication`,
`Quoting`, `GitPaths`, `Worktrees`.

## What the code does not do, and exactly when

The model follows the code where an expected property turned out not to hold; each case has its exact
condition proved.

- **A stranded integration.** If a process dies between recovery's ref deletion and its manifest write
  while the record already names the head that was to land, every later recovery declines. In calm
  runs it happens exactly then (`IntegrationOutcome.StuckIffCrashStrands`,
  `IntegrationOutcome.IntegrationIsDecided`), and it does happen (`Reached.AnIntegrationCanStrand`).
- **A checkpoint that cannot be recorded.** If the prepared commit is one the capsule already lists,
  recovery fails for ever, and otherwise never (`CheckpointOutcome.CheckpointIsAtomic`,
  `CheckpointOutcome.UnrecordableForEver`). It takes a branch that was moved back
  (`CheckpointAtomicity.NewAboveTheList`), and one is enough (`Reached.ACheckpointCanBeUnrecordable`).
- **A second recovery that still acts.** It does exactly when the first re-created a lost checkpoint
  ref, or completed a creation beside a stray one (`Reconciliation.SecondRecoveryIsQuiet`,
  `WholeSweep.SecondSweepIsQuiet`, with a run to such a state in `Reached.SecondRecoveryCanAct`).
- **A creation nobody else disturbed, orphaned.** A retry cannot tell the branch its own dead process
  made from somebody's. It orphans the identity exactly when a process died after Git made the branch
  and before it made the worktree, which one command does in that order (`CreationOutcome.RetryIsDecided`, `Reached.ACreationCanBeOrphaned`).
- **A size check that keeps the old time.** The projection before a checkpoint does not foresee that the
  time of the next write may be longer. Only the first journal write can be refused for it, exactly when
  the time has grown by more digits than there was room (`Capacity.OnlyTheJournalCanBeRefused`,
  `Capacity.PaddedIsRefused`). No capsule is wedged: the branch has not moved, and the next recovery
  takes the ref away (`Capacity.RefusalIsSettled`).

## Model

| member | source | states |
|---|---|---|
| `Git.ApplyDiff` | src/git.rs:457-480 | applying the patch between two trees to the first yields exactly the second |
| `Git.AppliesIff` | src/git.rs:457-480 | a patch applies exactly to a base with all its preimages, and then sets the paths it lists and no other |
| `Git.OneChildOnALine` | src/manager/lifecycle.rs:600-606 | a line of sole parents meets at most one child of any commit |
| `Ordering.SortedIsUnique` | src/idempotency.rs:200-203 | an ordered map has one iteration order, however it was filled |
| `World.NamesAreDisjoint` | src/manager/mod.rs:690-696 | distinct capsules have distinct branches, workspaces and pending refs, and the two kinds of ref never coincide |
| `Runs.ManifestsStayReadable` | src/state.rs:490-611 | in every run every stored manifest passes the strict reader: journals match the state, identity and evidence are well formed |
| `Runs.HistoryOnlyGrows` | src/manager/lifecycle.rs:74-83 | a manifest never disappears, its identity never changes, checkpoints and evidence only extend, a dropped record is final |
| `Runs.SealsAreWriteOnce` | src/manager/artifacts.rs:141-175 | once a manifest refers to a result, that reference, both files and every conjunct of the artifact match stay for ever, torn closes included, and the capsule is never open again |
| `Runs.ReservationsAreForever` | src/state.rs:179-192 | a published reservation never changes or disappears, no two keys share a capsule, and what is stored under the reserved id always agrees with it |
| `Runs.KeyedCreationReturnsItsCapsule` | src/manager/create.rs:159-198 | every successful keyed creation returns the capsule reserved for its key, as stored, agreeing with the reservation and no longer being created |
| `ManagerSafety.ConflictsChangeNothing` | src/manager/create.rs:33-44 | over the whole call, whatever others do meanwhile: a keyed creation for a reserved key goes on with the reserved capsule exactly when its request is the same, and otherwise ends with nothing durable changed by it |
| `Bounds.CapsulesStayBounded` | src/manager/lifecycle.rs:152-167 | no run exceeds 64 evidence records, 256 KiB of their text, or 128 checkpoints counting the journaled one |
| `SealedReceipts.SealsVerify` | src/verify.rs:312-446 | in every reachable state a stored seal satisfies what offline verification asks, including that its patch applies to the base and reproduces itself and its paths |
| `Isolation.StepSpares` | src/manager/recover.rs:187-231 | only an integration into a target moves its HEAD; recovery never does |
| `Isolation.OthersStepAside` | src/manager/lifecycle.rs:317-318 | a step taken for one capsule leaves every other capsule, and every target it is not integrating into, as they are |
| `IntegrationDecision.ProposedReproduces` | src/manager/lifecycle.rs:573-616 | the integration commit of a valid seal exists, has the base as sole parent and reproduces the sealed patch and paths |
| `IntegrationDecision.Decision` | src/manager/recover.rs:233-325 | what recovery decides at each of the six points an undisturbed integration can stand at |
| `RecoveryDecisions.IntegrationIsRecovered` | src/manager/recover.rs:211-325 | in the fields themselves and over the whole call, for every interrupted integration: off the journaled worktree and head ref, or not clean and full, nothing; else decline, refuse, restore or finalize, exactly when |
| `Safekeeping.IntegrationsEndOnTheirTarget` | src/manager/recover.rs:211-231 | over every run: as long as recovery never finds the journaled worktree on the journaled head ref, no operation but a forced drop changes anything stored, nor the ref that protects the commit |
| `IntegrationOutcome.RecoverySettles` | src/manager/recover.rs:42-68 | from each point, the point one recovery ends at; with nothing to apply, a journaled target means integrated |
| `IntegrationOutcome.IntegrationIsDecided` | src/manager/lifecycle.rs:311-389 | interrupted anywhere, recovery included: if a crash stranded it, the next recovery declines and it is neither closed nor integrated; in every other run the next recovery leaves it closed with HEAD at the base or integrated with HEAD at the one journaled commit |
| `IntegrationOutcome.StuckIffCrashStrands` | src/manager/recover.rs:304-320 | a calm run ends stranded if and only if it began so or a process died between recovery's ref deletion and its manifest write while the record already named the head to land; being stranded is for ever |
| `IntegrationOutcome.StuckOnlyByCrashInRecovery` | src/manager/recover.rs:304-320 | the only event that strands an integration is that crash |
| `IntegrationOutcome.RestoreCrashStrands` | src/manager/recover.rs:314-320 | that crash does strand it, from every protected integration that has a change |
| `Reached.AnIntegrationCanStrand` | src/manager/recover.rs:304-320 | whatever the base, the edit and the names, a run from the empty state root that ends stranded: HEAD at the base, capsule integrating, every recovery declining |
| `IntegrationOutcome.IntegrationSucceeds` | src/manager/lifecycle.rs:342-388 | left alone, an accepted call integrates: the record is final and HEAD is at the proposed commit |
| `SealedDecisions.IntegrationIsDecided` | src/manager/lifecycle.rs:311-333 | in the fields themselves and over the whole call: integrate journals the target and a message from subject, title or id exactly when the capsule is closed, at home, its files as sealed, its workspace still the sealed change on the sealed head, and the target a clean and full worktree of the repository at the base; else nothing durable is changed |
| `SealedDecisions.PreparationIsDecided` | src/manager/lifecycle.rs:335-352 | from every state: fails without the files, goes back to closed when nothing could land, journals a head that is the base, and pins any other by a ref that must be free |
| `SealedDecisions.AdvanceIsDecided` | src/manager/lifecycle.rs:354-368 | the look before the fast-forward passes exactly a target still as journaled: repository, worktree, head ref, clean, HEAD |
| `SealedDecisions.LandingIsDecided` | src/manager/lifecycle.rs:369-387 | from every state: HEAD moves only forward to the journaled commit, and the ref goes only at that commit |
| `Safekeeping.DriftIsRefused` | src/manager/query.rs:208-242 | after the close, any other change or head in the workspace makes integrate and an unforced drop end at once with nothing changed |
| `Safekeeping.EditsAfterCloseSurvive` | src/manager/lifecycle.rs:463-470 | and over every run of operations on any capsule without a forced drop, such edits and commits stay where they are |
| `IntegrationJournals.JournaledCommitIsTheSeal` | src/manager/lifecycle.rs:583-615 | in every run the commit a capsule with changes journals for its target is the one built on its base from the sealed patch, naming the capsule |
| `TargetChain.HeadsFormAChain` | src/manager/lifecycle.rs:354-370 | without external moves every commit written to a target HEAD has the previous HEAD as sole parent, over any operations, crashes and recoveries |
| `TargetChain.NoTwoLandOnOneBase` | src/manager/lifecycle.rs:563-569 | two capsules pinned to one base never both land changes on one target |
| `TargetChain.TrailersDiffer` | src/manager/lifecycle.rs:587-590 | integration messages of different capsules differ, whatever their subjects |
| `Decisions.CheckpointIsDecided` | src/manager/lifecycle.rs:16-74 | in the fields themselves: a checkpoint pins the workspace tree on HEAD and journals it exactly when the capsule is active and at home, there is a change, fewer than 128 are listed and no ref is pending; else nothing is changed |
| `RecoveryDecisions.CheckpointIsFinished` | src/manager/recover.rs:82-136 | what finishing a journaled checkpoint does first, from every state: nothing unless at home, proved from Git, and the ref nobody else's |
| `RecoveryDecisions.CheckpointIsRecorded` | src/manager/recover.rs:137-164 | the checkpoint recorded is the journal's, with its time, and never one already listed |
| `CheckpointOutcome.CheckpointIsAtomic` | src/manager/recover.rs:82-185 | interrupted anywhere, recovery included: before its journal is written the next recovery undoes a checkpoint entirely, afterwards it completes it entirely, appended once with no ref left, unless its commit is already listed, when it fails |
| `CheckpointOutcome.UnrecordableForEver` | src/manager/recover.rs:145-153 | in that last case every later recovery fails too, whatever else goes on, until somebody outside touches the capsule |
| `Reached.ACheckpointCanBeUnrecordable` | src/manager/recover.rs:145-153 | whatever the base and the edit, a run from the empty state root that comes to it: checkpoint, branch moved back, the same checkpoint again |
| `CheckpointOutcome.JournaledCommitStaysReachable` | src/manager/recover.rs:109-137 | meanwhile a journaled commit is held by the pending ref or the branch, and re-creating a lost ref is never reached |
| `CheckpointOutcome.CheckpointSucceeds` | src/manager/lifecycle.rs:16-85 | left alone, an accepted checkpoint is taken, unless its commit is already listed |
| `CheckpointAtomicity.NewAboveTheList` | src/manager/lifecycle.rs:26-48 | as long as every listed checkpoint is an ancestor of HEAD the prepared commit is not listed, so the exception takes a branch moved back |
| `Cleanup.DeletionsAreJournaled` | src/manager/lifecycle.rs:707-729 | in every run a branch is deleted, or a workspace removed, only while the branch is at the head the stored cleanup journal names |
| `Cleanup.CommitsAfterCleanupSurvive` | src/git.rs:177-201 | once the branch has moved past that head, no operation on any capsule changes anything of this one until somebody outside moves it |
| `CleanupOutcome.CleanupCompletes` | src/manager/lifecycle.rs:700-757 | undisturbed, the next recovery after any crash ends dropped with no worktree, registration, branch or pending ref, and whenever the record says dropped that is so |
| `SealedDecisions.DropIsDecided` | src/manager/lifecycle.rs:433-499 | in the fields themselves: a drop journals the branch head and whether to check the seal exactly when it is forced or the capsule sealed or orphaned, sealed work not forced still has its seal, and what is there is its own: the workspace at home, or a registration on its branch, or a branch at the base, a checkpoint, the sealed head or a journaled head |
| `SealedDecisions.RemovalIsDecided` | src/manager/lifecycle.rs:700-727 | the second look before the workspace or a left-over registration goes: at home, at the journaled head, the seal holding if the journal asks |
| `SealedDecisions.BranchDeletionIsDecided` | src/git.rs:177-201 | the branch goes only at the journaled head and while no registered worktree is on it |
| `Safekeeping.UnrecordedCommitsSurvive` | src/manager/lifecycle.rs:483-488 | over every run, forced drops included: once workspace and registration are gone, a branch at a commit the manifest does not record is never deleted or moved by the manager |
| `CleanupOutcome.DropIsAllOrNothing` | src/manager/lifecycle.rs:433-505 | left alone, a drop refuses and changes nothing, or leaves nothing but the record |
| `Reconciliation.OperationsFinish` | src/manager/recover.rs:17-31 | left alone, every operation ends, from any state and any point inside it |
| `Reconciliation.SecondRecoveryIsQuiet` | src/manager/recover.rs:34-68 | after a recovery that ended well the next does nothing, exactly when the first did not leave a checkpoint ref |
| `Reconciliation.RecreatedRefIsLeft` | src/manager/recover.rs:105-143 | for every checkpoint whose pending ref was lost before the branch moved, recovery completes it, leaves the ref it re-created, and the next recovery acts again |
| `Reached.SecondRecoveryCanAct` | src/manager/recover.rs:105-143 | whatever the base and the edit, a run from the empty state root to such a state |
| `RecoveryDecisions.CreationIsResumed` | src/manager/create.rs:270-340 | in the fields themselves: creation goes on exactly from nothing at all or from the pinned base in its own worktree; else Git is left as it is and the identity orphaned where allowed |
| `RecoveryDecisions.RequestIsDecided` | src/manager/create.rs:33-73 | a keyed request goes on with the reservation of its key exactly if it repeats it; a new key publishes what was asked and the commit it meant before anything else; otherwise nothing is changed |
| `RecoveryDecisions.ReservationIsResumed` | src/manager/create.rs:159-198 | a retry returns or resumes only a capsule that is as reserved in all seven fields, and starts one only where nothing is stored |
| `RecoveryDecisions.OpenIsRecovered` | src/manager/recover.rs:167-185 | an active capsule not at home is orphaned; at home it loses at most a stray ref |
| `Reconciliation.CreationEnds` | src/manager/create.rs:270-367 | creation ends active only on an owned worktree whose HEAD, branch, index and files are the pinned base, or orphans that same identity, or fails leaving the record as it was |
| `Reconciliation.CreationIsConservative` | src/manager/create.rs:289-330 | at no step does it delete or move an existing branch or replace what stands at the workspace path |
| `Reconciliation.CreationIsDecided` | src/manager/create.rs:275-330 | it ends active exactly when Git shows nothing at all or exactly the pinned base |
| `CreationOutcome.RetryIsDecided` | src/manager/create.rs:159-198 | a keyed creation interrupted anywhere, retried and recovered any number of times: its next undisturbed retry succeeds with the reserved identity, orphaned if and only if a process died between making the branch and making the worktree, and otherwise active with a clean worktree at the reserved commit |
| `Reached.ACreationCanBeOrphaned` | src/manager/create.rs:311-330 | a run from the empty state root in which only that death orphans a creation |
| `Reconciliation.ActiveIsDecided` | src/manager/recover.rs:167-185 | recovery orphans an active capsule exactly when its worktree is not provably its own, and otherwise only removes a stray ref |
| `WholeSweep.SecondSweepIsQuiet` | src/manager/recover.rs:17-31 | a second sweep over all capsules reports no action anywhere and changes nothing, exactly when the first left no checkpoint ref behind |
| `Closing.CloseSealsTheWorkspace` | src/manager/lifecycle.rs:208-303 | an undisturbed close seals exactly the workspace, or, its evidence wanting, changes nothing; applying the sealed patch to the base gives the workspace's tree |
| `Decisions.ConfirmIsDecided` | src/manager/lifecycle.rs:238-298 | a close seals exactly when the second look agrees with the first and the evidence meets what is asked; the result tells every one of its sixteen entries of that look and of the capsule, ignored bytes and paths included, and the reference repeats them |
| `Decisions.EvidenceIsDecided` | src/manager/lifecycle.rs:119-190 | evidence is appended exactly within the bounds; a run is recorded with its output digest, byte count, summary and time, a claim without any output, both bound to the patch as it stands |
| `EndToEnd.AnEditLands` | src/manager/lifecycle.rs:311-389 | whatever the base, the edit and the names: create, edit, close and integrate leave a clean target of the same repository one commit further, on the base alone, with exactly the edited files |
| `ManagerSafety.SuccessIsHonest` | src/manager/lifecycle.rs:215-257 | under every schedule a call that reports success did what was asked: the seal meets the requirements on the final patch; the checkpoint, or the coherent record, is the last listed; the integration names the target and the commit landed; the capsule is dropped |
| `ManagerSafety.ExecutionKeeps` | src/manager/lifecycle.rs:74-83 | under every schedule an execution keeps the invariant of all runs and only evolves what was stored |
| `Manager.CapsuleManager.TakeCheckpoint` | src/manager/lifecycle.rs:16-85 | under every schedule the world, outcome and remaining schedule are those of the machine: prepare, pin, journal, advance, record |
| `Manager.CapsuleManager.FinishCheckpoint` | src/manager/recover.rs:82-165 | the same as the machine under every schedule: the journaled checkpoint is verified, advanced and completed, or left |
| `Manager.CapsuleManager.ResetIndex` | src/git.rs:545-559 | the same as the machine under every schedule: the second command of advancing the branch, and what follows |
| `Manager.CapsuleManager.CompleteCheckpoint` | src/manager/recover.rs:137-164 | the same as the machine under every schedule: the pending ref goes, then the checkpoint is appended |
| `Manager.CapsuleManager.AddEvidence` | src/manager/lifecycle.rs:146-191 | the same as the machine under every schedule: the locked half of recording evidence |
| `Manager.CapsuleManager.StoredEvidenceBytes` | src/manager/lifecycle.rs:157-161 | the loop sums command and summary text of all records |
| `Manager.CapsuleManager.Close` | src/manager/lifecycle.rs:208-303 | the same as the machine under every schedule: two equal observations, then patch, result and manifest in that order |
| `Manager.CapsuleManager.IntegrateInto` | src/manager/lifecycle.rs:311-333 | the same as the machine under every schedule: validation and the first journal write |
| `Manager.CapsuleManager.ProposeHead` | src/manager/lifecycle.rs:573-616 | nothing without a target, its HEAD when there is no change, else the one commit on the base alone that brings exactly the sealed change, signed and naming the capsule; a seal that reproduces always has one |
| `SealedDecisions.SealIsLanded` | src/git.rs:457-480 | such a commit is at most one, the one Git builds from the patch |
| `Manager.CapsuleManager.PrepareIntegration` | src/manager/lifecycle.rs:335-352 | the same as the machine under every schedule: protect and journal the proposed head, or abort back to closed |
| `Manager.CapsuleManager.FastForwardTarget` | src/manager/lifecycle.rs:354-379 | the same as the machine under every schedule: the target is validated again, then moved |
| `Manager.CapsuleManager.DeleteIntegrationRef` | src/manager/lifecycle.rs:380-388 | the same as the machine under every schedule: the ref goes, then the final manifest is written |
| `Manager.CapsuleManager.DropCapsule` | src/manager/lifecycle.rs:433-505 | the same as the machine under every schedule: ownership and seal checks, the cleanup journal, then cleanup |
| `Manager.CapsuleManager.FinishCleanup` | src/manager/lifecycle.rs:700-724 | the same as the machine under every schedule: removal of the worktree at the journaled head |
| `Manager.CapsuleManager.DeleteBranch` | src/manager/lifecycle.rs:726-744 | the same as the machine under every schedule: deletion of the branch at the journaled head, and the prune |
| `Manager.CapsuleManager.ClearPendingRefs` | src/manager/lifecycle.rs:745-756 | the same as the machine under every schedule: the loop over both refs, and the dropped record |
| `Manager.CapsuleManager.CreateCapsule` | src/manager/create.rs:13-26 | the same as the machine under every schedule: plain creation of a new identity |
| `Manager.CapsuleManager.CreateIdempotent` | src/manager/create.rs:33-73 | the same as the machine under every schedule: the reservation is read or published first, then materialised |
| `Manager.CapsuleManager.MaterializeRecord` | src/manager/create.rs:159-198 | the same as the machine under every schedule: resumes whatever part of the reserved creation exists |
| `Manager.CapsuleManager.MaterializeNew` | src/manager/create.rs:243-262 | the same as the machine under every schedule: directory, manifest, then the Git side |
| `Manager.CapsuleManager.CompleteCreating` | src/manager/create.rs:270-340 | the same as the machine under every schedule: the decision between completing, activating and abandoning |
| `Manager.CapsuleManager.AddWorktree` | src/git.rs:102-127 | the same as the machine under every schedule: branch, bare worktree and checkout, one after the other |
| `Manager.CapsuleManager.ActivateCreated` | src/manager/create.rs:342-347 | the same as the machine under every schedule: ownership is checked before the capsule becomes active |
| `Manager.CapsuleManager.AbandonCreation` | src/manager/create.rs:349-367 | the same as the machine under every schedule: orphans the same identity or fails |
| `Manager.CapsuleManager.Recover` | src/manager/recover.rs:17-31 | the same as recovering each listed capsule in turn in the machine: the loop over all capsules up to the first error |
| `Manager.CapsuleManager.RecoverCapsule` | src/manager/recover.rs:42-68 | the same as the machine under every schedule: the dispatch on the stored state |
| `Manager.CapsuleManager.RecoverActive` | src/manager/recover.rs:167-185 | the same effect and next counter as the machine, for every state: removes a stray ref or orphans |
| `Manager.CapsuleManager.RecoverIntegrating` | src/manager/recover.rs:233-325 | the same effect and next counter as the machine, for every state: finalises, restores, declines or fails |
| `Requests.RequestBytesInjective` | src/idempotency.rs:176-210 | equal request bytes come from equal paths, project key, selector, commit, label and links |
| `Requests.RecordDigestBindsEverything` | src/idempotency.rs:126-139 | two sealed records have the same record digest exactly when they are the same, label and links included |
| `Requests.ReplayIsSameRequest` | src/manager/create.rs:121-157 | a replay is accepted exactly when repository, label and links are equal and the selector is the same or resolves to the reserved commit |
| `Requests.FeedRequest` | src/idempotency.rs:176-205 | the builder feeds exactly the canonical bytes |
| `Requests.UpdateLinks` | src/idempotency.rs:199-203 | its loop feeds the count and the links in key order |
| `Framing.RunningDigest.UpdateBytes` | src/idempotency.rs:207-210 | feeds a length and then the bytes |
| `IgnoredWalk.Inventory.Visit` | src/manager/mod.rs:503-590 | the recursion over one subtree: what is seen, the total and the bytes fed, and exactly when it fails |
| `IgnoredWalk.Inventory.VisitEntries` | src/manager/mod.rs:568-585 | its loop over the sorted entries |
| `IgnoredWalk.Inventory.ReadFile` | src/manager/mod.rs:525-562 | the read loop accepts exactly a file that did not change, and feeds its length and content |
| `IgnoredWalk.Inventory.VisitRoots` | src/manager/mod.rs:484-501 | the loop over the roots |
| `IgnoredContent.InventoryIsExact` | src/manager/mod.rs:503-512 | for any tree and any list of roots, overlapping or not, every object below a root is emitted exactly once as what it is, and nothing else |
| `IgnoredContent.StreamIsInjective` | src/manager/mod.rs:628-639 | the byte stream decodes uniquely into paths, kinds and contents |
| `IgnoredContent.EqualStreamsMeanEqualContent` | src/manager/mod.rs:484-501 | equal streams come from equal ignored content |
| `Receipts.ClosedReceiptsVerify` | src/verify.rs:167-262 | what close sealed exports to a receipt that verifies under exactly the evidence requirements its records satisfy, the one it was closed with among them |
| `Receipts.AcceptanceMeans` | src/verify.rs:167-405 | acceptance in full and both ways: three bounded files, a bundle describing exactly the other two, a result of the bundle's capsule and of the very patch beside it, well formed throughout, and the evidence asked for bound to that patch |
| `Receipts.MixedReceiptIsRefused` | src/verify.rs:320-342 | a result paired with a patch of another digest or length, or with another capsule's bundle, is refused whatever the descriptors say |
| `Receipts.CloseTells` | src/manager/lifecycle.rs:258-290 | what close writes into each entry of the result, and when it refuses |
| `Receipts.ExportTells` | src/manager/artifacts.rs:61-131 | the exported bundle names, sizes and digests both files, referring to them by name |
| `Receipts.BundleBindsReceipt` | src/verify.rs:287-310 | two accepted receipts with the same bundle bytes are the same receipt |
| `Publication.Exporter.Export` | src/state.rs:428-448 | whatever happens, an existing destination is not altered, and if the marker is in a new one every file is there with its bytes |
| `Publication.Exporter.Publish` | src/state.rs:787-824 | at every moment each file is in exactly one of the two directories, and the marker moves last |
| `Publication.Exporter.RenameOthers` | src/state.rs:808-819 | the loop over the sorted entries leaves the marker |
| `Capacity.OnlyTheJournalCanBeRefused` | src/manager/lifecycle.rs:507-535 | past the projection neither the completion nor any recovery write is ever refused for size; the journal write is, exactly when its time is longer than the last one by more than the room left |
| `Capacity.FormsCompare` | src/manager/lifecycle.rs:507-512 | byte for byte, how much larger the journaled manifest is than the completed and the open one |
| `Capacity.RefusalIsSettled` | src/manager/recover.rs:167-185 | a refused journal write leaves an open capsule and a ref; the next recovery takes the ref away and all is as before |
| `Capacity.PaddedIsRefused` | src/state.rs:619-632 | manifests of the program that are refused there: 63 full checkpoints and a padded message, whenever the clock has gained a digit |
| `Capacity.NoRefusalForCenturies` | src/manager/lifecycle.rs:513-535 | from ten digits to eleven the journal write always fits too |
| `Capacity.ProjectionsAreWritten` | src/manager/recover.rs:154-163 | the two projected manifests are the two the protocol writes |
| `Quoting.CommandLineReads` | src/manager/mod.rs:225-252 | reading a rendered command line by the shell grammar gives back the argument vector, for every vector |
| `Quoting.OnlyPlainIsBare` | src/manager/mod.rs:237-252 | an argument is shown bare exactly when it is made of letters, digits and the nine listed marks, and otherwise between single quotes |
| `Quoting.CommandLineInjective` | src/manager/mod.rs:225-252 | so no two argument vectors are recorded alike |
| `GitPaths.Utf8IsText` | src/git.rs:841-857 | well-formed UTF-8 is exactly what encodes a sequence of Unicode scalar values |
| `GitPaths.NamesEncode` | src/git.rs:841-857 | every non-empty NUL-free name encodes to a valid path that decodes to it |
| `GitPaths.EncodingsDecode` | src/model.rs:495-531 | every valid encoding is the one encoding of a name |
| `GitPaths.InventoryParses` | src/git.rs:832-838 | parsing a NUL-separated inventory gives the listed paths, in order |
| `Worktrees.ParseStrings` | src/git.rs:874-886 | splits at NULs, dropping empty items, and fails exactly on ill-formed UTF-8 |
| `Worktrees.ParseWorktrees` | src/git.rs:888-917 | the parser's loop computes the fold over its fields |
| `Worktrees.ListRoundTrip` | src/git.rs:888-917 | parsing a printed list gives back its paths, heads, branches and bare flags, in order, whatever other lines stand between |

## Left out

- Manifest update time (`updated_at_unix`): not a field of the machine's manifest; `Capacity.dfy` treats what depends on it, with the fields a checkpoint does not touch left open.
- Sizes in the machine: a refusal for size is a death before the write it refuses, a torn close included; the size of a patch is its number of changed paths.
- Commit dates: two commits with equal parent, tree, message and author are one, as they are in Git within one second.
- A capsule's own workspace used as the target of another capsule's integration: to that capsule it is a commit made from outside.
- Worktree registrations of the capsule's branch at another path, unborn and detached heads beyond the `onBranch` flag, submodules, sparse checkout of the workspace, diff text, and a checkout or merge that stops halfway.
- Project keys: represented by the common directory they are derived from; distinct directories are taken to have distinct keys.
- Selectors and repository discovery: a request carries what its selector resolves to at that moment.
- The command an evidence call executes: one value with exit code and output, produced before the locks are taken.
- `Requests.RequestBytesInjective`, `IgnoredContent.StreamIsInjective`: state the Unix path encoding only; the Windows and portable ones are not modelled.
- `IgnoredWalk.Inventory.Visit`: symlink metadata length is the length of its target, as on Unix; objects that vanish between listing and reading are errors and not modelled further.
- `Receipts.ClosedReceiptsVerify`: takes as hypotheses a monotone clock, that Git lists changed paths exactly for a non-empty patch, that the JSON codec reads back the two documents and that they fit the size bound; the first two are proved of every run in `SealedReceipts.SealsVerify`.
- Repository verification over bytes: proved structurally in `SealedReceipts.SealsVerify`, not repeated in `Receipts.dfy`.
- `Quoting.CommandLineReads`: reads one simple command line; expansions, operators and comments make the reader give up, which the theorem shows never happens.
- `Publication.Exporter.Export`: `fsync`, permissions and the removal of a leftover staging directory are not modelled.
- Signatures, attestations, capabilities, listing, status, text validation, process spawning and the command line: only easy members, or no protocol of their own.
