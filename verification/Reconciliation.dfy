/** Recovery run to its end: it always ends, and when a second one has nothing left to do. */
module Reconciliation {
  import opened Model
  import opened Git
  import opened World
  import opened Machine
  import opened Invariant
  import opened Sweeps

  // ---- every operation ends ----

  /** The most steps a process at this counter can still take. */
  function Rank(pc: PC): nat {
    match pc
    case Done(_) => 0
    case Write(_) => 1
    case Materialize(_) => 8
    case Prepare(_, _) => 7
    case Publish(_, _) => 6
    case CompleteCreating(_, _, _) => 5
    case AddWorktree(_, _) => 4
    case CheckOut(_, _) => 3
    case Activate(_, _, _) => 2
    case BeginCheckpoint(_, _) => 7
    case JournalCheckpoint(_) => 6
    case FinishCheckpoint(_, _) => 5
    case AdvanceBranch(_, _) => 4
    case ResetIndex(_, _) => 3
    case DeleteCheckpointRef(_, _) => 2
    case RecordCheckpoint(_) => 1
    case AttachEvidence(_) => 1
    case ObserveClose(_) => 4
    case ConfirmClose(_, _, _) => 3
    case WriteResult(_, _) => 2
    case BeginIntegrate(_, _, _) => 7
    case PrepareIntegration(_) => 6
    case JournalTarget(_, _) => 5
    case Revalidate(_) => 4
    case Advance(_) => 3
    case DeleteIntegrationRef(_, _) => 2
    case BeginDrop(_) => 8
    case RemoveWorktree(_) => 7
    case Deregister(_) => 6
    case DeleteBranch(_) => 5
    case Prune(_) => 4
    case ClearCheckpointRef(_) => 3
    case ClearIntegrationRef(_) => 2
    case BeginRecover => 8
  }

  lemma CreationRank(s: Local, pc: PC)
    requires CreationPc(pc)
    ensures Rank(CreationStep(s, pc).pc) < Rank(pc)
  {
    hide Owned;
    hide Clean;
    hide Agrees;
  }

  lemma CheckpointingRank(s: Local, pc: PC)
    requires CheckpointingPc(pc)
    ensures Rank(CheckpointingStep(s, pc).pc) < Rank(pc)
  {
    hide Owned;
    hide Diff;
    hide CommitPatch;
  }

  lemma ClosingRank(s: Local, pc: PC)
    requires ClosingPc(pc)
    ensures Rank(ClosingStep(s, pc).pc) < Rank(pc)
  {
    hide Owned;
    hide Diff;
    hide Satisfies;
    hide SealedResult;
  }

  lemma IntegratingRank(s: Local, pc: PC)
    requires IntegratingPc(pc)
    ensures Rank(IntegratingStep(s, pc).pc) < Rank(pc)
  {
    hide EnsureSealed;
    hide FastForward;
    hide IntegrationCommit;
    hide Diff;
    hide ChangedPaths;
  }

  lemma DroppingRank(s: Local, pc: PC)
    requires DroppingPc(pc)
    ensures Rank(DroppingStep(s, pc).pc) < Rank(pc)
  {
    hide Owned;
    hide EnsureSealed;
    hide RegistrationMatches;
    hide RecordedHead;
  }

  lemma RecoverIntegratingRank(s: Local, c: Capsule)
    ensures Rank(RecoverIntegrating(s, c).pc) <= 1
  {
    hide StoredMatch;
    hide IntegrationMatches;
    hide TargetRecoverable;
  }

  lemma RecoveryRank(s: Local)
    ensures Rank(StepBeginRecover(s).pc) < 8
  {
    hide Owned;
    hide RecoverIntegrating;
    if s.cell.store.manifest.Some? {
      RecoverIntegratingRank(s, s.cell.store.manifest.value);
    }
  }

  lemma StepRank(s: Local, pc: PC)
    requires !pc.Done?
    ensures Rank(Step(s, pc).pc) < Rank(pc)
  {
    hide CreationStep;
    hide CheckpointingStep;
    hide ClosingStep;
    hide IntegratingStep;
    hide DroppingStep;
    hide StepBeginRecover;
    if CreationPc(pc) {
      CreationRank(s, pc);
    } else if CheckpointingPc(pc) {
      CheckpointingRank(s, pc);
    } else if ClosingPc(pc) {
      ClosingRank(s, pc);
    } else if IntegratingPc(pc) {
      IntegratingRank(s, pc);
    } else if DroppingPc(pc) {
      DroppingRank(s, pc);
    } else if pc.BeginRecover? {
      RecoveryRank(s);
    }
  }

  /** Left alone, every operation finishes, from any state and any counter. */
  lemma {:induction false} OperationsFinish(s: Local, pc: PC, n: nat)
    requires n >= Rank(pc)
    ensures Drive(s, pc, n).pc.Done?
    decreases n
  {
    hide Step;
    if pc.Done? {
      DriveStaysDone(s, pc.outcome, n);
    } else {
      StepRank(s, pc);
      OperationsFinish(Step(s, pc).s, Step(s, pc).pc, n - 1);
    }
  }

  // ---- the second recovery ----

  /** Creation can be completed as it stands. */
  predicate WillActivate(g: GitSide, c: Capsule) {
    && g.source
    && if g.entry == Missing then g.branch.None? && g.registration.None?
       else
         var c1 := if c.gitDir.None? then c.(gitDir := RepositoryGitDir(g)) else c;
         Owned(g, c1) && g.branch.value == c.identity.base && (Clean(g) || Unchecked(g))
  }

  /** Recovery will finish an active capsule and leave a pending checkpoint ref behind: one it
      re-created itself for a branch still at the old head, or one that stood beside a creation. */
  predicate LeavesRef(s: Local) {
    var g := s.cell.git;
    match s.cell.store.manifest
    case None => false
    case Some(c) =>
      || (c.state.Checkpointing? && c.journal.Some? && g.branch == Some(c.journal.value.headBefore)
          && g.checkpointRef.None?)
      || (c.state.Creating? && WillActivate(g, c) && g.checkpointRef.Some?)
  }

  predicate Settled(leaves: bool, g: GitSide, c: Capsule) {
    && (c.state.Active? ==> Owned(g, c) && g.checkpointRef.Some? == leaves)
    && (!c.state.Active? ==>
          !leaves && (c.state.Orphaned? || c.state.Closed? || c.state.Integrated?
          || c.state.Dropped?))
  }

  /** What each counter of a recovery that began in `first` can say. */
  predicate Track(first: Local, s: Local, pc: PC) {
    var g, leaves := s.cell.git, LeavesRef(first);
    match pc
    case BeginRecover => s == first
    case Done(outcome) =>
      && (outcome.NoAction? ==> s == first && !leaves)
      && (outcome.Succeeded? ==> s.cell.store.manifest == Some(outcome.capsule) && Settled(leaves, g, outcome.capsule))
    case Write(c) => Settled(leaves, g, c)
    case FinishCheckpoint(c, sweep) => sweep && s == first && s.cell.store.manifest == Some(c) && c.state.Checkpointing?
    case AdvanceBranch(c, pending) => !pending && leaves && Owned(g, c) && g.checkpointRef.Some?
    case ResetIndex(c, pending) =>
      Owned(g, c) && g.checkpointRef.Some? && pending == !leaves
    case DeleteCheckpointRef(c, pending) =>
      Owned(g, c) && (if pending then !leaves else g.checkpointRef.Some? == leaves)
    case RecordCheckpoint(c) => Owned(g, c) && g.checkpointRef.Some? == leaves
    case CompleteCreating(c, _, sweep) => sweep && s == first && s.cell.store.manifest == Some(c) && c.state.Creating?
    case AddWorktree(c, sweep) => sweep && g.checkpointRef.Some? == leaves && g.branch.Some?
    case CheckOut(c, sweep) =>
      && sweep && g.checkpointRef.Some? == leaves && g.branch.Some? && g.entry.Linked?
      && g.registration == Some(Registration(g.entry.gitDir, true))
    case Activate(c, created, sweep) =>
      && sweep && g.checkpointRef.Some? == leaves
      && (!created ==> Owned(g, c))
    case RemoveWorktree(_) => !leaves
    case Deregister(_) => !leaves
    case DeleteBranch(_) => !leaves
    case Prune(_) => !leaves
    case ClearCheckpointRef(_) => !leaves
    case ClearIntegrationRef(_) => !leaves
    case _ => false
  }

  lemma BeginTracks(s: Local)
    ensures var n := StepBeginRecover(s); Track(s, n.s, n.pc)
  {
    hide IntegrationMatches;
    hide TargetRecoverable;
    hide StoredMatch;
    hide WillActivate;
  }

  lemma CreationTracks(first: Local, s: Local, pc: PC)
    requires CreationPc(pc) && Track(first, s, pc)
    ensures var n := CreationStep(s, pc); Track(first, n.s, n.pc)
  {
    hide Clean;
    hide Unchecked;
  }

  lemma CheckpointingTracks(first: Local, s: Local, pc: PC)
    requires CheckpointingPc(pc) && Track(first, s, pc)
    ensures var n := CheckpointingStep(s, pc); Track(first, n.s, n.pc)
  {
    hide Diff;
    hide WillActivate;
  }

  lemma DroppingTracks(first: Local, s: Local, pc: PC)
    requires DroppingPc(pc) && Track(first, s, pc)
    ensures var n := DroppingStep(s, pc); Track(first, n.s, n.pc)
  {
    hide EnsureSealed;
    hide LeavesRef;
    hide Owned;
    hide RegistrationMatches;
  }

  lemma StepTracks(first: Local, s: Local, pc: PC)
    requires Track(first, s, pc)
    ensures var n := Step(s, pc); Track(first, n.s, n.pc)
  {
    hide CreationStep;
    hide CheckpointingStep;
    hide ClosingStep;
    hide IntegratingStep;
    hide DroppingStep;
    hide StepBeginRecover;
    hide LeavesRef;
    hide Owned;
    if CreationPc(pc) {
      CreationTracks(first, s, pc);
    } else if CheckpointingPc(pc) {
      CheckpointingTracks(first, s, pc);
    } else if DroppingPc(pc) {
      DroppingTracks(first, s, pc);
    } else if pc.BeginRecover? {
      BeginTracks(s);
    }
  }

  lemma {:induction false} DriveTracks(first: Local, s: Local, pc: PC, n: nat)
    requires Track(first, s, pc)
    ensures var end := Drive(s, pc, n); Track(first, end.s, end.pc)
    decreases n
  {
    hide Step;
    hide Track;
    if n == 0 {
    } else {
      StepTracks(first, s, pc);
      DriveTracks(first, Step(s, pc).s, Step(s, pc).pc, n - 1);
    }
  }

  /** Recovery of what a finished recovery left: quiet, unless a ref was left. */
  lemma AfterSettled(s: Local, leaves: bool, c: Capsule)
    requires s.cell.store.manifest == Some(c) && Settled(leaves, s.cell.git, c)
    ensures !leaves ==> StepBeginRecover(s) == Next(s, Done(NoAction))
    ensures leaves ==> StepBeginRecover(s).pc == Write(c) && StepBeginRecover(s).s.cell.git.checkpointRef.None?
                       && StepBeginRecover(s).s.cell.store == s.cell.store
  {
    hide RecoverIntegrating;
  }

  /** A finished recovery reported no action, or left a settled manifest. */
  lemma FirstRecovery(s: Local, n: nat)
    requires Drive(s, BeginRecover, n).pc.Done? && !Drive(s, BeginRecover, n).pc.outcome.Failed?
    ensures var end := Drive(s, BeginRecover, n); Track(s, end.s, end.pc)
  {
    hide Step;
    hide LeavesRef;
    DriveTracks(s, s, BeginRecover, n);
  }

  predicate Quiet(s: Local, n: nat) {
    Drive(s, BeginRecover, n) == Next(s, Done(NoAction))
  }

  /** A recovery that reports no action changed nothing, so doing it again does the same. */
  lemma QuietTwice(s: Local, n: nat, k: nat)
    requires n >= 8 && k >= 8 && Drive(s, BeginRecover, n) == Next(s, Done(NoAction))
    ensures Quiet(s, k)
  {
    hide Step;
    if n <= k {
      DriveMore(s, BeginRecover, n, k);
      DriveStaysDone(s, NoAction, k - n);
    } else {
      OperationsFinish(s, BeginRecover, k);
      var end := Drive(s, BeginRecover, k);
      DriveMore(s, BeginRecover, k, n);
      DriveStaysDone(end.s, end.pc.outcome, n - k);
    }
  }

  lemma {:induction false} DriveMore(s: Local, pc: PC, n: nat, k: nat)
    requires n <= k
    ensures var mid := Drive(s, pc, n); Drive(s, pc, k) == Drive(mid.s, mid.pc, k - n)
    decreases n
  {
    hide Step;
    if n == 0 {
    } else {
      DriveMore(Step(s, pc).s, Step(s, pc).pc, n - 1, k - 1);
    }
  }

  /** A recovery that ended well is followed by one that does nothing, exactly when it does not
      leave a checkpoint ref behind; then the second one removes that ref. */
  lemma SecondRecoveryIsQuiet(s: Local, n: nat, k: nat)
    requires n >= 8 && k >= 8
    ensures Drive(s, BeginRecover, n).pc.Done?
    ensures !Drive(s, BeginRecover, n).pc.outcome.Failed? ==>
              var second := Drive(Drive(s, BeginRecover, n).s, BeginRecover, k);
              && (Quiet(Drive(s, BeginRecover, n).s, k) <==> !LeavesRef(s))
              && second.pc.Done? && !second.pc.outcome.Failed?
  {
    hide Step;
    hide LeavesRef;
    hide StepBeginRecover;
    OperationsFinish(s, BeginRecover, n);
    var end := Drive(s, BeginRecover, n);
    if !end.pc.outcome.Failed? {
      FirstRecovery(s, n);
      if end.pc.outcome.NoAction? {
        QuietTwice(s, n, k);
      } else {
        AfterSettled(end.s, LeavesRef(s), end.pc.outcome.capsule);
        Unfolds(end.s, BeginRecover);
        var next := StepBeginRecover(end.s);
        if LeavesRef(s) {
          WriteSaves(next.s, end.pc.outcome.capsule, k - 1);
        } else {
          DriveStaysDone(end.s, NoAction, k - 1);
        }
      }
    }
  }

  /** A journaled checkpoint whose pending ref somebody deleted before the branch moved. */
  predicate RefLost(s: Local, c: Capsule) {
    && s.cell.store.manifest == Some(c)
    && c.state.Checkpointing?
    && c.journal.Some?
    && Owned(s.cell.git, c)
    && c.journal.value.headAfter.parents == [c.journal.value.headBefore]
    && OfPatch(Diff(c.journal.value.headBefore.tree, c.journal.value.headAfter.tree)) == c.journal.value.patchSha256
    && s.cell.git.branch == Some(c.journal.value.headBefore)
    && s.cell.git.checkpointRef.None?
    && forall k | 0 <= k < |c.checkpoints| :: c.checkpoints[k].commit != c.journal.value.headAfter
  }

  lemma FourSteps(s: Local, c: Capsule)
    requires RefLost(s, c)
    ensures var g := s.cell.git.(checkpointRef := Some(c.journal.value.headAfter),
                                 branch := Some(c.journal.value.headAfter), index := c.journal.value.headAfter.tree);
            Drive(s, BeginRecover, 5) == Next(WithGit(s, g), RecordCheckpoint(c))
  {
    hide Step;
    hide Diff;
    var j, g := c.journal.value, s.cell.git;
    var s1 := WithGit(s, g.(checkpointRef := Some(j.headAfter)));
    var s2 := WithGit(s, g.(checkpointRef := Some(j.headAfter), branch := Some(j.headAfter)));
    var s3 := WithGit(s, g.(checkpointRef := Some(j.headAfter), branch := Some(j.headAfter),
        index := j.headAfter.tree));
    RefLostSteps(s, c, s1, s2, s3);
    calc {
      Drive(s, BeginRecover, 5);
      Drive(s, FinishCheckpoint(c, true), 4);
      Drive(s1, AdvanceBranch(c, false), 3);
      Drive(s2, ResetIndex(c, false), 2);
      Drive(s3, DeleteCheckpointRef(c, false), 1);
      Drive(s3, RecordCheckpoint(c), 0);
    }
  }

  lemma RefLostSteps(s: Local, c: Capsule, s1: Local, s2: Local, s3: Local)
    requires RefLost(s, c)
    requires s1 == WithGit(s, s.cell.git.(checkpointRef := Some(c.journal.value.headAfter)))
    requires s2 == WithGit(s1, s1.cell.git.(branch := Some(c.journal.value.headAfter)))
    requires s3 == WithGit(s2, s2.cell.git.(index := c.journal.value.headAfter.tree))
    ensures Step(s, BeginRecover) == Next(s, FinishCheckpoint(c, true))
    ensures Step(s, FinishCheckpoint(c, true)) == Next(s1, AdvanceBranch(c, false))
    ensures Step(s1, AdvanceBranch(c, false)) == Next(s2, ResetIndex(c, false))
    ensures Step(s2, ResetIndex(c, false)) == Next(s3, DeleteCheckpointRef(c, false))
    ensures Step(s3, DeleteCheckpointRef(c, false)) == Next(s3, RecordCheckpoint(c))
  {
    hide Diff;
    hide RecoverIntegrating;
  }

  /** Recovery re-creates the ref, completes the checkpoint, and leaves the ref; the next recovery
      then removes it, so a second sweep is not always quiet. */
  lemma RecreatedRefIsLeft(s: Local, c: Capsule, k: nat)
    requires RefLost(s, c) && k >= 8
    ensures var first := Drive(s, BeginRecover, 8);
            && first.pc.Done? && first.pc.outcome.Succeeded?
            && first.s.cell.git.checkpointRef == Some(c.journal.value.headAfter)
            && !Quiet(first.s, k)
  {
    hide Step;
    hide Diff;
    hide Drive;
    hide Quiet;
    FourSteps(s, c);
    DriveMore(s, BeginRecover, 5, 8);
    var mid := Drive(s, BeginRecover, 5);
    RecordEnds(mid.s, c);
    SecondRecoveryIsQuiet(s, 8, k);
  }

  lemma RecordEnds(s: Local, c: Capsule)
    requires c.journal.Some?
    requires forall k | 0 <= k < |c.checkpoints| :: c.checkpoints[k].commit != c.journal.value.headAfter
    ensures var end := Drive(s, RecordCheckpoint(c), 3);
            end.pc.Done? && end.pc.outcome.Succeeded? && end.s.cell.git == s.cell.git
  {
    hide Step;
    var next := StepRecordCheckpoint(s, c);
    Unfolds(s, RecordCheckpoint(c));
    DriveStaysDone(next.s, next.pc.outcome, 2);
  }

  // ---- creation is decided conservatively ----

  /** A creation in progress: the identity stays, the branch is the one pinned, nothing is removed. */
  predicate Making(c: Capsule, s: Local, pc: PC) {
    var g, base := s.cell.git, c.identity.base;
    match pc
    case CompleteCreating(d, _, _) => d == c && s.cell.store.manifest == Some(c) && c.state.Creating?
    case AddWorktree(d, _) => d == c && s.cell.store.manifest == Some(c) && g.branch == Some(base)
    case CheckOut(d, _) =>
      && d == c && s.cell.store.manifest == Some(c) && g.branch == Some(base)
      && g.entry.Linked? && g.registration == Some(Registration(g.entry.gitDir, true))
    case Activate(d, created, _) =>
      && s.cell.store.manifest == Some(c)
      && d == c.(gitDir := d.gitDir)
      && g.branch == Some(base) && g.tree == g.index == base.tree
      && (!created ==> Owned(g, d))
    case Write(d) => Decided(c, s, d)
    case Done(outcome) =>
      && s.cell.store.manifest.Some?
      && (outcome.Failed? ==> s.cell.store.manifest == Some(c))
      && (!outcome.Failed? ==> outcome.Succeeded? && Decided(c, s, outcome.capsule))
    case _ => false
  }

  /** What creation may end as. */
  predicate Decided(c: Capsule, s: Local, d: Capsule) {
    var g, base := s.cell.git, c.identity.base;
    && s.cell.store.manifest == Some(d)
    && d == c.(state := d.state, gitDir := d.gitDir)
    && (d.state.Orphaned?
        || (d.state.Active? && Owned(g, d) && g.branch == Some(base) && g.tree == g.index == base.tree))
  }

  /** The counter hands on the creation, and leaves branch and path where they are. */
  predicate Makes(c: Capsule, s: Local, n: Next) {
    && Making(c, n.s, n.pc)
    && (s.cell.git.branch.Some? ==> n.s.cell.git.branch == s.cell.git.branch)
    && (s.cell.git.entry != Missing ==> n.s.cell.git.entry == s.cell.git.entry)
  }

  lemma CompletingMakes(c: Capsule, s: Local, allowOrphan: bool, sweep: bool)
    requires Making(c, s, CompleteCreating(c, allowOrphan, sweep))
    ensures Makes(c, s, StepCompleteCreating(s, c, allowOrphan, sweep))
  {
    hide Clean;
    hide Unchecked;
    hide RepositoryGitDir;
  }

  lemma WorktreeMakes(c: Capsule, s: Local, pc: PC)
    requires (pc.AddWorktree? || pc.CheckOut? || pc.Activate?) && Making(c, s, pc)
    ensures Makes(c, s, CreationStep(s, pc))
  {
    hide StepMaterialize;
    hide StepPrepare;
    hide StepCompleteCreating;
  }

  lemma StepMakes(c: Capsule, s: Local, pc: PC)
    requires Making(c, s, pc)
    ensures Makes(c, s, Step(s, pc))
  {
    hide CheckpointingStep;
    hide ClosingStep;
    hide IntegratingStep;
    hide DroppingStep;
    hide StepBeginRecover;
    hide StepMaterialize;
    hide StepPrepare;
    hide StepCompleteCreating;
    hide StepAddWorktree;
    hide StepCheckOut;
    hide StepActivate;
    hide Owned;
    if pc.CompleteCreating? {
      CompletingMakes(c, s, pc.allowOrphan, pc.sweep);
    } else if CreationPc(pc) {
      WorktreeMakes(c, s, pc);
    }
  }

  /** Completing a creation, undisturbed, fails and leaves the manifest, or ends active on an owned
      worktree whose HEAD, branch, index and files are the pinned base, or orphans that same
      identity; it never removes or moves a branch, nor what stands at the workspace path. */
  lemma {:induction false} CreationIsConservative(c: Capsule, s: Local, pc: PC, n: nat)
    requires Making(c, s, pc)
    ensures var end := Drive(s, pc, n);
            && Making(c, end.s, end.pc)
            && (s.cell.git.branch.Some? ==> end.s.cell.git.branch == s.cell.git.branch)
            && (s.cell.git.entry != Missing ==> end.s.cell.git.entry == s.cell.git.entry)
    decreases n
  {
    hide Step;
    hide Making;
    if n == 0 {
    } else {
      StepMakes(c, s, pc);
      CreationIsConservative(c, Step(s, pc).s, Step(s, pc).pc, n - 1);
    }
  }

  /** Stated from the start of `complete_creating`, for both of its callers. */
  lemma CreationEnds(c: Capsule, s: Local, allowOrphan: bool, sweep: bool, n: nat)
    requires s.cell.store.manifest == Some(c) && c.state.Creating? && n >= 5
    ensures var end := Drive(s, CompleteCreating(c, allowOrphan, sweep), n);
            && end.pc.Done?
            && (end.pc.outcome.Failed? ==> end.s.cell.store == s.cell.store)
            && (!end.pc.outcome.Failed? ==> end.pc.outcome.Succeeded? && Decided(c, end.s, end.pc.outcome.capsule))
  {
    hide Step;
    CreationIsConservative(c, s, CompleteCreating(c, allowOrphan, sweep), n);
    OperationsFinish(s, CompleteCreating(c, allowOrphan, sweep), n);
    StoreOnlyManifest(s, CompleteCreating(c, allowOrphan, sweep), n);
  }

  /** Creation past its publication touches nothing of the state directory but the manifest. */
  lemma {:induction false} StoreOnlyManifest(s: Local, pc: PC, n: nat)
    requires pc.CompleteCreating? || pc.AddWorktree? || pc.CheckOut? || pc.Activate? || pc.Write? || pc.Done?
    ensures var end := Drive(s, pc, n).s.cell.store; end == s.cell.store.(manifest := end.manifest)
    decreases n
  {
    hide Step;
    if n == 0 {
    } else {
      CreationStores(s, pc);
      StoreOnlyManifest(Step(s, pc).s, Step(s, pc).pc, n - 1);
    }
  }

  lemma CreationStores(s: Local, pc: PC)
    requires pc.CompleteCreating? || pc.AddWorktree? || pc.CheckOut? || pc.Activate? || pc.Write? || pc.Done?
    ensures var n := Step(s, pc);
            && n.s.cell.store == s.cell.store.(manifest := n.s.cell.store.manifest)
            && (n.pc.CompleteCreating? || n.pc.AddWorktree? || n.pc.CheckOut? || n.pc.Activate? || n.pc.Write?
                || n.pc.Done?)
  {
    hide CheckpointingStep;
    hide ClosingStep;
    hide IntegratingStep;
    hide DroppingStep;
    hide Owned;
  }

  /** Which end a creation is bound for. */
  predicate Bound(will: bool, s: Local, pc: PC) {
    var g := s.cell.git;
    match pc
    case AddWorktree(c, _) => will && g.entry == Missing && g.registration.None? && g.branch.Some?
    case CheckOut(c, _) =>
      will && g.branch.Some? && g.entry.Linked? && g.registration == Some(Registration(g.entry.gitDir, true))
    case Activate(c, created, _) =>
      && will
      && (created ==> g.branch.Some? && g.entry.Linked? && g.registration == Some(Registration(g.entry.gitDir, true)))
    case Write(c) => if will then c.state.Active? else c.state.Orphaned?
    case Done(outcome) => outcome.Succeeded? && if will then outcome.capsule.state.Active?
        else outcome.capsule.state.Orphaned?
    case _ => false
  }

  lemma CompletingBinds(s: Local, c: Capsule, sweep: bool)
    ensures var n := StepCompleteCreating(s, c, true, sweep); Bound(WillActivate(s.cell.git, c), n.s, n.pc)
    ensures !WillActivate(s.cell.git, c) ==> StepCompleteCreating(s, c, false, sweep) == Fail(s)
    ensures WillActivate(s.cell.git, c) ==>
          StepCompleteCreating(s, c, false, sweep)
          == StepCompleteCreating(s, c, true, sweep)
  {
    hide Owned;
    hide Clean;
    hide Unchecked;
    hide RepositoryGitDir;
    if Owned(s.cell.git, c) {
      OwnedHasBranch(s.cell.git, c);
    }
  }

  lemma StepBinds(will: bool, s: Local, pc: PC)
    requires Bound(will, s, pc)
    ensures var n := Step(s, pc); Bound(will, n.s, n.pc)
  {
    hide CheckpointingStep;
    hide ClosingStep;
    hide IntegratingStep;
    hide DroppingStep;
    hide StepBeginRecover;
    hide StepMaterialize;
    hide StepPrepare;
    hide StepCompleteCreating;
  }

  lemma {:induction false} DriveBinds(will: bool, s: Local, pc: PC, n: nat)
    requires Bound(will, s, pc)
    ensures var end := Drive(s, pc, n); Bound(will, end.s, end.pc)
    decreases n
  {
    hide Step;
    hide Bound;
    if n == 0 {
    } else {
      StepBinds(will, s, pc);
      DriveBinds(will, Step(s, pc).s, Step(s, pc).pc, n - 1);
    }
  }

  /** The decision itself, both ways: undisturbed, a creation becomes active exactly when what Git
      shows is nothing at all or exactly the pinned base; otherwise it is orphaned, or fails where
      the identity may not be orphaned. */
  lemma CreationIsDecided(c: Capsule, s: Local, allowOrphan: bool, sweep: bool, n: nat)
    requires n >= 5
    ensures var end := Drive(s, CompleteCreating(c, allowOrphan, sweep), n);
            && end.pc.Done?
            && (end.pc.outcome.Succeeded? <==> WillActivate(s.cell.git, c) || allowOrphan)
            && (end.pc.outcome.Succeeded? ==>
                  (end.pc.outcome.capsule.state.Active? <==> WillActivate(s.cell.git, c))
                  && (end.pc.outcome.capsule.state.Orphaned? <==> !WillActivate(s.cell.git, c)))
  {
    hide Step;
    hide WillActivate;
    hide StepCompleteCreating;
    var will := WillActivate(s.cell.git, c);
    Unfolds(s, CompleteCreating(c, allowOrphan, sweep));
    CompletingBinds(s, c, sweep);
    OperationsFinish(s, CompleteCreating(c, allowOrphan, sweep), n);
    if will || allowOrphan {
      var next := StepCompleteCreating(s, c, true, sweep);
      DriveBinds(will, next.s, next.pc, n - 1);
    } else {
      DriveStaysDone(s, Failed, n - 1);
    }
  }

  /** Recovery orphans an active capsule exactly when its worktree is not provably its own. */
  lemma ActiveIsDecided(s: Local, c: Capsule, n: nat)
    requires s.cell.store.manifest == Some(c) && c.state.Active? && n >= 2
    ensures var end := Drive(s, BeginRecover, n);
            && end.pc.Done?
            && end.s.cell.store.manifest == Some(if Owned(s.cell.git, c) then c else c.(state := Orphaned))
            && end.s.cell.git == if Owned(s.cell.git, c) then s.cell.git.(checkpointRef := None) else s.cell.git
  {
    hide Step;
    hide StepBeginRecover;
    Unfolds(s, BeginRecover);
    ActiveBegins(s, c);
    var next := StepBeginRecover(s);
    if next.pc.Write? {
      WriteSaves(next.s, next.pc.c, n - 1);
    } else {
      DriveStaysDone(s, NoAction, n - 1);
    }
  }

  lemma ActiveBegins(s: Local, c: Capsule)
    requires s.cell.store.manifest == Some(c) && c.state.Active?
    ensures var n := StepBeginRecover(s);
            if !Owned(s.cell.git, c) then n == Next(s, Write(c.(state := Orphaned)))
            else if s.cell.git.checkpointRef.Some? then n
                == Next(WithGit(s, s.cell.git.(checkpointRef := None)), Write(c))
            else n == Next(s, Done(NoAction))
  {
    hide RecoverIntegrating;
  }

  lemma WriteSaves(s: Local, c: Capsule, n: nat)
    requires n >= 1
    ensures Drive(s, Write(c), n) == Next(Save(s, c), Done(Succeeded(c)))
  {
    DriveStaysDone(Save(s, c), Succeeded(c), n - 1);
  }
}
