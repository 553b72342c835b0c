/** Cleanup: what it may delete, and what an interrupted one ends as. */
module Cleanup {
  import opened Model
  import opened Git
  import opened World
  import opened Machine
  import opened Invariant
  import opened Runs
  import opened Isolation
  import opened Sweeps

  // ---- what may be deleted, in every run ----

  /** The counter is the one block of code that may delete this, at the head its journal names. */
  predicate DeletesAtJournaledHead(s: Local, pc: PC) {
    && (pc.DeleteBranch? || pc.RemoveWorktree?)
    && pc.c.cleanup.Some?
    && pc.c.cleanup.value.branchHead == s.cell.git.branch
  }

  predicate Spared(s: Local, n: Next) {
    && (s.cell.git.branch.Some? ==> n.s.cell.git.branch.Some?)
    && (s.cell.git.entry != Missing ==> n.s.cell.git.entry == s.cell.git.entry)
  }

  lemma CreationSpared(s: Local, pc: PC)
    requires CreationPc(pc)
    ensures Spared(s, CreationStep(s, pc))
  {
    hide Owned;
    hide Clean;
    hide Agrees;
  }

  lemma CheckpointingSpared(s: Local, pc: PC)
    requires CheckpointingPc(pc)
    ensures Spared(s, CheckpointingStep(s, pc))
  {
    hide Owned;
    hide Diff;
    hide CommitPatch;
  }

  lemma ClosingSpared(s: Local, pc: PC)
    requires ClosingPc(pc)
    ensures Spared(s, ClosingStep(s, pc))
  {
    hide Owned;
    hide Diff;
    hide Satisfies;
    hide SealedResult;
  }

  lemma IntegratingSpared(s: Local, pc: PC)
    requires IntegratingPc(pc)
    ensures Spared(s, IntegratingStep(s, pc))
  {
    hide EnsureSealed;
    hide FastForward;
    hide IntegrationCommit;
    hide Diff;
    hide ChangedPaths;
  }

  lemma DroppingSpared(s: Local, pc: PC)
    requires DroppingPc(pc)
    ensures Spared(s, DroppingStep(s, pc)) || DeletesAtJournaledHead(s, pc)
  {
    hide Owned;
    hide EnsureSealed;
    hide RegistrationMatches;
    hide RecordedHead;
  }

  lemma RecoverIntegratingSpared(s: Local, c: Capsule)
    ensures Spared(s, RecoverIntegrating(s, c))
  {
    hide StoredMatch;
    hide IntegrationMatches;
    hide TargetRecoverable;
    hide Finalized;
  }

  lemma RecoverySpared(s: Local)
    ensures Spared(s, StepBeginRecover(s))
  {
    hide Owned;
    hide RecoverIntegrating;
    if s.cell.store.manifest.Some? {
      RecoverIntegratingSpared(s, s.cell.store.manifest.value);
    }
  }

  lemma StepSpared(s: Local, pc: PC)
    ensures Spared(s, Step(s, pc)) || DeletesAtJournaledHead(s, pc)
  {
    hide CreationStep;
    hide CheckpointingStep;
    hide ClosingStep;
    hide IntegratingStep;
    hide DroppingStep;
    hide StepBeginRecover;
    if CreationPc(pc) {
      CreationSpared(s, pc);
    } else if CheckpointingPc(pc) {
      CheckpointingSpared(s, pc);
    } else if ClosingPc(pc) {
      ClosingSpared(s, pc);
    } else if IntegratingPc(pc) {
      IntegratingSpared(s, pc);
    } else if DroppingPc(pc) {
      DroppingSpared(s, pc);
    } else if pc.BeginRecover? {
      RecoverySpared(s);
    }
  }

  /** In every run, the manager removes a capsule's branch, or what stands at its workspace path,
      only while the stored manifest is being cleaned up and the branch is at the head journaled
      when that began. */
  lemma DeletionsAreJournaled(events: seq<Event>, id: string)
    ensures var m, after := RunFrom(INITIAL, events), Occur(RunFrom(INITIAL, events), Advanced);
            var g, h := CellOf(m.world, id).git, CellOf(after.world, id).git;
            (g.branch.Some? && h.branch.None?) || (g.entry != Missing && h.entry != g.entry) ==>
              var manifest := ManifestIn(m, id);
              && manifest.Some?
              && manifest.value.state.Dropping?
              && manifest.value.cleanup.Some?
              && manifest.value.cleanup.value.branchHead == g.branch
  {
    hide RunFrom;
    hide Step;
    hide Kept;
    hide Owned;
    hide SameRequest;
    hide Unused;
    InitialKept();
    RunKeeps(INITIAL, events);
    var m := RunFrom(INITIAL, events);
    if Serves(m.proc, id) {
      StepSpared(View(m.world, id), m.proc.pc);
      DroppingIsHeld(m);
    }
  }

  lemma DroppingIsHeld(m: State)
    requires Kept(m) && m.proc.Running?
    ensures m.proc.pc.DeleteBranch? || m.proc.pc.RemoveWorktree? ==>
              CellOf(m.world, m.proc.id).store.manifest == Some(m.proc.pc.c) && m.proc.pc.c.state.Dropping?
  {
    hide StoresKept;
    hide ReservationsKept;
    hide CreationAgrees;
    hide KeyServed;
    hide Good;
  }

  // ---- commits made after cleanup began ----

  /** The branch is no longer where it was when cleanup was journaled. */
  predicate Diverged(d: Capsule, g: GitSide) {
    d.state.Dropping? && d.cleanup.Some? && g.branch.Some? && d.cleanup.value.branchHead != g.branch
  }

  /** The counters a process serving the capsule can then be at. */
  predicate Refusing(d: Capsule, pc: PC) {
    match pc
    case RemoveWorktree(c) => c == d
    case DeleteBranch(c) => c == d
    case BeginCheckpoint(_, _) => true
    case AttachEvidence(_) => true
    case ObserveClose(_) => true
    case BeginIntegrate(_, _, _) => true
    case BeginDrop(_) => true
    case BeginRecover => true
    case Materialize(_) => true
    case Done(_) => true
    case _ => false
  }

  lemma StepRefuses(s: Local, d: Capsule, pc: PC)
    requires s.cell.store.manifest == Some(d) && Diverged(d, s.cell.git) && Refusing(d, pc)
    ensures var n := Step(s, pc); n.s == s && Refusing(d, n.pc)
  {
    hide Owned;
    hide EnsureSealed;
    hide Agrees;
    hide RecoverIntegrating;
  }

  predicate Refused(m: State, id: string, cell: Cell, d: Capsule) {
    && CellOf(m.world, id) == cell
    && (Serves(m.proc, id) ==> Refusing(d, m.proc.pc))
  }

  lemma OccurRefuses(m: State, e: Event, id: string, cell: Cell, d: Capsule)
    requires cell.store.manifest == Some(d) && Diverged(d, cell.git) && Refused(m, id, cell, d)
    requires !(e.External? && e.move.Disturb? && e.move.id == id)
    ensures Refused(Occur(m, e), id, cell, d)
  {
    hide Step;
    hide Diverged;
    hide SameRequest;
    hide InitialCapsule;
    if e.Advanced? && Serves(m.proc, id) {
      StepRefuses(View(m.world, id), d, m.proc.pc);
    }
  }

  predicate Undisturbed(events: seq<Event>, id: string) {
    forall i | 0 <= i < |events| :: !(events[i].External? && events[i].move.Disturb? && events[i].move.id == id)
  }

  /** Once the branch has moved past the head cleanup journaled, no operation on any capsule,
      repeated forced drops and recoveries included, changes anything of this one, until somebody
      outside moves it. */
  lemma {:induction false} CommitsAfterCleanupSurvive(m: State, events: seq<Event>, id: string, d: Capsule)
    requires CellOf(m.world, id).store.manifest == Some(d) && Diverged(d, CellOf(m.world, id).git)
    requires Serves(m.proc, id) ==> Refusing(d, m.proc.pc)
    requires Undisturbed(events, id)
    ensures CellOf(RunFrom(m, events).world, id) == CellOf(m.world, id)
    ensures Serves(RunFrom(m, events).proc, id) ==> Refusing(d, RunFrom(m, events).proc.pc)
    decreases |events|
  {
    hide Occur;
    hide Refusing;
    hide Diverged;
    if events == [] {
    } else {
      var e := events[0];
      assert !(e.External? && e.move.Disturb? && e.move.id == id);
      OccurRefuses(m, e, id, CellOf(m.world, id), d);
      CommitsAfterCleanupSurvive(Occur(m, e), events[1..], id, d);
    }
  }

  // ---- an undisturbed cleanup ----

  /** Where cleanup stands: what is still there, all of it as journaled. */
  datatype Point = Whole | Unlinked | Loose | Bare | Unpinned | Empty | Gone

  predicate UnderCleanup(d: Capsule) {
    d.cleanup.Some? && d.state.Dropping?
  }

  predicate Stands(d: Capsule, s: Local, point: Point)
    requires d.cleanup.Some?
  {
    var g, head := s.cell.git, d.cleanup.value.branchHead;
    && s.cell.store.manifest == Some(if point.Gone? then Final(d, s.cell.store.manifest) else d)
    && match point
       case Whole =>
         g.entry != Missing && Owned(g, d) && g.branch == head
         && (d.cleanup.value.requireSealed ==> EnsureSealed(s, d))
       case Unlinked =>
         g.entry == Missing && g.registration.Some? && RegistrationMatches(g, head)
       case Loose => g.entry == Missing && g.registration.None? && (g.branch == head || g.branch.None?)
       case Bare => g.entry == Missing && g.registration.None? && g.branch.None?
       case Unpinned => Cleared(g) && g.checkpointRef.None?
       case Empty => Cleared(g) && g.checkpointRef.None? && g.integrationRef.None?
       case Gone => Cleared(g) && g.checkpointRef.None? && g.integrationRef.None?
  }

  predicate Cleared(g: GitSide) {
    g.entry == Missing && g.registration.None? && g.branch.None?
  }

  /** The dropped record, at whatever time it was written. */
  function Final(d: Capsule, written: Option<Capsule>): Capsule {
    d.(state := Dropped, journal := None, cleanup := None,
       droppedAt := if written.Some? && written.value.droppedAt.Some? then written.value.droppedAt else Some(0))
  }

  ghost predicate Rests(d: Capsule, s: Local)
    requires d.cleanup.Some?
  {
    exists point :: Stands(d, s, point)
  }

  ghost predicate At(d: Capsule, s: Local, pc: PC)
    requires d.cleanup.Some?
  {
    match pc
    case RemoveWorktree(c) => c == d && exists point: Point :: !point.Gone? && Stands(d, s, point)
    case Deregister(c) => c == d && Stands(d, s, Unlinked)
    case DeleteBranch(c) => c == d && Stands(d, s, Loose)
    case Prune(c) => c == d && Stands(d, s, Bare)
    case ClearCheckpointRef(c) => c == d && Stands(d, s, Bare)
    case ClearIntegrationRef(c) => c == d && Stands(d, s, Unpinned)
    case Write(c) => Stands(d, s, Empty) && c == Final(d, Some(c)) && c.droppedAt.Some?
    case Materialize(_) => Rests(d, s)
    case BeginCheckpoint(_, _) => Rests(d, s)
    case AttachEvidence(_) => Rests(d, s)
    case ObserveClose(_) => Rests(d, s)
    case BeginIntegrate(_, _, _) => Rests(d, s)
    case BeginDrop(_) => Rests(d, s)
    case BeginRecover => Rests(d, s)
    case Done(_) => Rests(d, s)
    case _ => false
  }

  /** A drop that goes ahead starts from a whole, unlinked or loose worktree. */
  lemma DropJournals(s: Local, force: bool, c: Capsule)
    requires s.cell.store.manifest == Some(c) && !c.state.Dropped? && !c.state.Dropping?
    ensures var n := StepBeginDrop(s, force);
            n.pc.RemoveWorktree? ==>
              n.pc.c.state.Dropping? && n.pc.c.cleanup.Some? && At(n.pc.c, n.s, n.pc)
  {
    hide RecordedHead;
    hide Stands;
    hide EnsureSealed;
    var n := StepBeginDrop(s, force);
    if n.pc.RemoveWorktree? {
      JournaledStands(s, force, c, if s.cell.git.entry != Missing then Whole
                                   else if s.cell.git.registration.Some? then Unlinked else Loose);
    }
  }

  lemma JournaledStands(s: Local, force: bool, c: Capsule, point: Point)
    requires s.cell.store.manifest == Some(c) && !c.state.Dropped? && !c.state.Dropping?
    requires StepBeginDrop(s, force).pc.RemoveWorktree?
    requires point == if s.cell.git.entry != Missing then Whole
                      else if s.cell.git.registration.Some? then Unlinked else Loose
    ensures var n := StepBeginDrop(s, force); n.pc.c.cleanup.Some? && Stands(n.pc.c, n.s, point)
  {
    hide RecordedHead;
    hide Diff;
  }

  /** What `finish_cleanup` does next from each point. */
  function Advances(d: Capsule, s: Local, point: Point): Next
    requires UnderCleanup(d)
  {
    var g := s.cell.git;
    match point
    case Whole => Next(WithGit(s, g.(entry := Missing, tree := map[], index := map[], ignored := map[])), Deregister(d))
    case Unlinked => Next(WithGit(s, g.(registration := None)), DeleteBranch(d))
    case _ => Next(s, DeleteBranch(d))
  }

  lemma RemoveAdvances(d: Capsule, s: Local, point: Point)
    requires UnderCleanup(d) && Stands(d, s, point) && !point.Gone?
    ensures var n := StepRemoveWorktree(s, d);
            && n == Advances(d, s, point)
            && At(d, n.s, n.pc)
  {
    hide EnsureSealed;
  }

  lemma RefsStay(d: Capsule, s: Local, pc: PC)
    requires UnderCleanup(d) && At(d, s, pc)
    requires pc.ClearCheckpointRef? || pc.ClearIntegrationRef?
    ensures var n := DroppingStep(s, pc);
            && At(d, n.s, n.pc)
            && n.pc == if pc.ClearCheckpointRef? then ClearIntegrationRef(d)
                       else Write(Final(d, Some(d.(droppedAt := Some(s.clock)))))
  {
    hide EnsureSealed;
    hide Owned;
    hide StepBeginDrop;
    hide StepRemoveWorktree;
    hide StepDeleteBranch;
    hide StepPrune;
  }

  lemma LooseStays(d: Capsule, s: Local, pc: PC)
    requires UnderCleanup(d) && At(d, s, pc)
    requires pc.Deregister? || pc.DeleteBranch? || pc.Prune? || pc.ClearCheckpointRef? || pc.ClearIntegrationRef?
    ensures var n := DroppingStep(s, pc);
            && At(d, n.s, n.pc)
            && n.pc == match pc
                       case Deregister(_) => DeleteBranch(d)
                       case DeleteBranch(_) => Prune(d)
                       case Prune(_) => ClearCheckpointRef(d)
                       case ClearCheckpointRef(_) => ClearIntegrationRef(d)
                       case _ => Write(Final(d, Some(d.(droppedAt := Some(s.clock)))))
  {
    hide Stands;
    hide DroppingStep;
    if pc.ClearCheckpointRef? || pc.ClearIntegrationRef? {
      RefsStay(d, s, pc);
    } else {
      BranchStays(d, s, pc);
    }
  }

  lemma BranchStays(d: Capsule, s: Local, pc: PC)
    requires UnderCleanup(d) && At(d, s, pc)
    requires pc.Deregister? || pc.DeleteBranch? || pc.Prune?
    ensures var n := DroppingStep(s, pc);
            && At(d, n.s, n.pc)
            && n.pc == match pc
                       case Deregister(_) => DeleteBranch(d)
                       case DeleteBranch(_) => Prune(d)
                       case _ => ClearCheckpointRef(d)
  {
    hide EnsureSealed;
    hide Owned;
    hide StepBeginDrop;
    hide StepRemoveWorktree;
    hide StepClearCheckpointRef;
    hide StepClearIntegrationRef;
  }

  lemma WriteStays(d: Capsule, s: Local, c: Capsule)
    requires UnderCleanup(d) && At(d, s, Write(c))
    ensures Stands(d, Save(s, c), Gone)
  {
    hide EnsureSealed;
  }

  /** Every other operation on a capsule being dropped, or dropped, leaves it as it is. */
  lemma OthersStay(d: Capsule, s: Local, pc: PC)
    requires UnderCleanup(d) && At(d, s, pc)
    requires pc.Materialize? || pc.BeginCheckpoint? || pc.AttachEvidence? || pc.ObserveClose?
             || pc.BeginIntegrate? || pc.BeginDrop? || pc.BeginRecover? || pc.Done?
    ensures var n := Step(s, pc);
            && n.s == s
            && (n.pc.Done? || (n.pc == RemoveWorktree(d) && s.cell.store.manifest == Some(d)))
  {
    hide EnsureSealed;
    hide Owned;
    hide Agrees;
    hide RecoverIntegrating;
  }
}
