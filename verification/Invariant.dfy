/** What every run keeps: each manifest the manager writes is one its strict reader accepts, seals
    are written once, and history only grows. */
module Invariant {
  import opened Model
  import opened Git
  import opened World
  import opened Machine

  /** A sealed state has a seal, a seal matches the stored files, and the work is then over. */
  predicate SealKept(store: Store, c: Capsule) {
    && (c.result.Some? ==>
          && StoredMatch(store, c)
          && Reproduces(c.identity.base, store.result.value, store.patch.value)
          && (c.state.Closed? || c.state.Integrating? || c.state.Integrated? || c.state.Dropping? || c.state.Dropped?))
    && ((c.state.Closed? || c.state.Integrating? || c.state.Integrated?) ==> c.result.Some?)
    && (c.closedAt.Some? == c.result.Some?)
  }

  predicate Good(store: Store, c: Capsule, id: string) {
    ReaderAccepts(c, id) && SealKept(store, c)
  }

  predicate StoreKept(store: Store, id: string) {
    match store.manifest
    case None => EmptyStore(store)
    case Some(c) => Good(store, c, id) && (c.state.Creating? ==> c.gitDir.None?)
  }

  /** How a manifest may evolve. */
  predicate Extends(c: Capsule, d: Capsule) {
    && d.identity == c.identity
    && (c.gitDir.Some? ==> d.gitDir == c.gitDir)
    && c.checkpoints <= d.checkpoints
    && c.evidence <= d.evidence
    && (c.result.Some? ==> d.result == c.result && d.checkpoints == c.checkpoints && d.evidence == c.evidence)
    && (c.closedAt.Some? ==> d.closedAt == c.closedAt)
    && (c.state.Dropped? ==> d == c)
  }

  /** What a counter relies on about the process's copy `c` of the manifest. */
  datatype Stage =
    | Free
    | Named(id: string)
    | Unpublished(c: Capsule)                // nothing is stored yet
    | Held(c: Capsule, state: CapsuleState)  // it is what is stored
    | Located(c: Capsule, located: bool)     // it is what is stored up to the worktree's Git dir
    | Writable(c: Capsule)                   // it may be written next
    | HalfSealed(c: Capsule, result: Sealed) // it may be written once `result` is

  function StageOf(pc: PC): Stage {
    match pc
    case Done(outcome) => if outcome.Succeeded? then Held(outcome.capsule, outcome.capsule.state) else Free
    case Write(c) => Writable(c)
    case Materialize(record) => Named(record.id)
    case Prepare(c, _) => Unpublished(c)
    case Publish(c, _) => Unpublished(c)
    case CompleteCreating(c, _, _) => Held(c, Creating)
    case AddWorktree(c, _) => Held(c, Creating)
    case CheckOut(c, _) => Held(c, Creating)
    case Activate(c, created, _) => Located(c, !created)
    case BeginCheckpoint(_, _) => Free
    case JournalCheckpoint(c) => Writable(c)
    case FinishCheckpoint(c, _) => Held(c, Checkpointing)
    case AdvanceBranch(c, _) => Held(c, Checkpointing)
    case ResetIndex(c, _) => Held(c, Checkpointing)
    case DeleteCheckpointRef(c, _) => Held(c, Checkpointing)
    case RecordCheckpoint(c) => Held(c, Checkpointing)
    case AttachEvidence(_) => Free
    case ObserveClose(_) => Free
    case ConfirmClose(c, _, _) => Held(c, Active)
    case WriteResult(c, r) => HalfSealed(c, r)
    case BeginIntegrate(_, _, _) => Free
    case PrepareIntegration(c) => Held(c, Integrating)
    case JournalTarget(c, _) => Held(c, Integrating)
    case Revalidate(c) => Held(c, Integrating)
    case Advance(c) => Held(c, Integrating)
    case DeleteIntegrationRef(c, _) => Writable(c)
    case BeginDrop(_) => Free
    case RemoveWorktree(c) => Held(c, Dropping)
    case Deregister(c) => Held(c, Dropping)
    case DeleteBranch(c) => Held(c, Dropping)
    case Prune(c) => Held(c, Dropping)
    case ClearCheckpointRef(c) => Held(c, Dropping)
    case ClearIntegrationRef(c) => Held(c, Dropping)
    case BeginRecover => Free
  }

  predicate StageKept(store: Store, id: string, stage: Stage) {
    match stage
    case Free => true
    case Named(name) => name == id && ValidId(id)
    case Unpublished(c) =>
      EmptyStore(store) && Good(store, c, id) && c.state.Creating? && c.gitDir.None? && c.result.None?
    case Held(c, state) => store.manifest == Some(c) && c.state == state
    case Located(c, located) =>
      && store.manifest.Some?
      && c == store.manifest.value.(gitDir := c.gitDir)
      && c.state.Creating?
      && (located ==> c.gitDir.Some?)
    case Writable(c) =>
      && store.manifest.Some?
      && Extends(store.manifest.value, c)
      && Good(store, c, id)
      && !c.state.Creating?
    case HalfSealed(c, r) =>
      && store.manifest.Some?
      && store.manifest.value.result.None?
      && Extends(store.manifest.value, c)
      && store.patch.Some?
      && c.result.Some?
      && c.closedAt.Some?
      && c.state.Closed?
      && ArtifactsMatch(c, c.result.value, r, store.patch.value)
      && Reproduces(c.identity.base, r, store.patch.value)
      && ReaderAccepts(c, id)
  }

  predicate PcKept(store: Store, id: string, pc: PC) {
    && StageKept(store, id, StageOf(pc))
    && (pc.JournalCheckpoint? ==> pc.c.state.Checkpointing?)
  }

  /** What one step may do to the state directory: evolve the manifest, and leave sealed files be. */
  predicate StoreEvolves(a: Store, b: Store) {
    && (a.manifest.Some? ==> b.manifest.Some? && Extends(a.manifest.value, b.manifest.value))
    && (a.manifest.Some? && a.manifest.value.result.Some? ==> b.result == a.result && b.patch == a.patch)
  }

  lemma StoreEvolvesTransitive(a: Store, b: Store, c: Store)
    requires StoreEvolves(a, b) && StoreEvolves(b, c)
    ensures StoreEvolves(a, c)
  {}

  /** What a step must hand on. */
  predicate Keeps(s: Local, id: string, n: Next) {
    && StoreKept(n.s.cell.store, id)
    && PcKept(n.s.cell.store, id, n.pc)
    && StoreEvolves(s.cell.store, n.s.cell.store)
  }

  predicate Ready(s: Local, id: string, pc: PC) {
    StoreKept(s.cell.store, id) && PcKept(s.cell.store, id, pc)
  }

  /** Most steps touch only Git. */
  predicate Quiet(s: Local, pc: PC, n: Next) {
    && n.s.cell.store == s.cell.store
    && (StageOf(n.pc) == StageOf(pc) || StageOf(n.pc) == Free)
    && !n.pc.JournalCheckpoint?
  }

  lemma QuietKeeps(s: Local, id: string, pc: PC, n: Next)
    requires Ready(s, id, pc) && Quiet(s, pc, n)
    ensures Keeps(s, id, n)
  {
    hide Reproduces;
    hide Good;
    hide EmptyStore;
    hide StageOf;
    hide ArtifactsMatch;
    hide ReaderAccepts;
  }

  // ---- creation ----

  lemma CreationKeeps(s: Local, id: string, pc: PC)
    requires CreationPc(pc) && Ready(s, id, pc)
    ensures Keeps(s, id, CreationStep(s, pc))
  {
    hide Reproduces;
    hide Ready;
    hide Keeps;
    if pc.CompleteCreating? {
      CompleteCreatingKeeps(s, id, pc.c, pc.allowOrphan, pc.sweep);
    } else if pc.Materialize? || pc.Prepare? || pc.Publish? {
      PublishKeeps(s, id, pc);
    } else {
      WorktreeKeeps(s, id, pc);
    }
  }

  lemma PublishKeeps(s: Local, id: string, pc: PC)
    requires (pc.Materialize? || pc.Prepare? || pc.Publish?) && Ready(s, id, pc)
    ensures Keeps(s, id, CreationStep(s, pc))
  {
    hide Reproduces;
    hide ArtifactsMatch;
    hide StepCompleteCreating;
    hide StepAddWorktree;
    hide StepCheckOut;
    hide StepActivate;
  }

  lemma CompleteCreatingKeeps(s: Local, id: string, c: Capsule, allowOrphan: bool, sweep: bool)
    requires Ready(s, id, CompleteCreating(c, allowOrphan, sweep))
    ensures Keeps(s, id, StepCompleteCreating(s, c, allowOrphan, sweep))
  {
    hide Reproduces;
    hide ArtifactsMatch;
    hide Clean;
    hide RepositoryGitDir;
  }

  lemma WorktreeKeeps(s: Local, id: string, pc: PC)
    requires (pc.AddWorktree? || pc.CheckOut? || pc.Activate?) && Ready(s, id, pc)
    ensures Keeps(s, id, CreationStep(s, pc))
  {
    hide Reproduces;
    hide ArtifactsMatch;
    hide StepCompleteCreating;
    hide StepMaterialize;
    hide StepPrepare;
  }

  // ---- checkpoint ----

  lemma CheckpointingQuiet(s: Local, pc: PC)
    requires CheckpointingPc(pc) && !pc.BeginCheckpoint? && !pc.JournalCheckpoint? && !pc.RecordCheckpoint?
    ensures Quiet(s, pc, CheckpointingStep(s, pc))
  {
    hide Reproduces;
    hide Owned;
    hide Diff;
  }

  lemma CheckpointingKeeps(s: Local, id: string, pc: PC)
    requires CheckpointingPc(pc) && Ready(s, id, pc)
    ensures Keeps(s, id, CheckpointingStep(s, pc))
  {
    hide Reproduces;
    if pc.BeginCheckpoint? {
      BeginCheckpointKeeps(s, id, pc.message, pc.author);
    } else if pc.JournalCheckpoint? || pc.RecordCheckpoint? {
      CheckpointWrites(s, id, pc);
    } else {
      CheckpointingQuiet(s, pc);
      QuietKeeps(s, id, pc, CheckpointingStep(s, pc));
    }
  }

  lemma BeginCheckpointKeeps(s: Local, id: string, message: string, author: Author)
    requires StoreKept(s.cell.store, id)
    ensures Keeps(s, id, StepBeginCheckpoint(s, message, author))
  {
    hide Reproduces;
    hide Diff;
    hide CommitPatch;
    hide ArtifactsMatch;
  }

  lemma CheckpointWrites(s: Local, id: string, pc: PC)
    requires (pc.JournalCheckpoint? || pc.RecordCheckpoint?) && Ready(s, id, pc)
    ensures Keeps(s, id, CheckpointingStep(s, pc))
  {
    hide Reproduces;
    hide ArtifactsMatch;
    hide StepBeginCheckpoint;
    hide StepFinishCheckpoint;
  }

  // ---- evidence and close ----

  lemma ClosingKeeps(s: Local, id: string, pc: PC)
    requires ClosingPc(pc) && Ready(s, id, pc)
    ensures Keeps(s, id, ClosingStep(s, pc))
  {
    hide Reproduces;
    hide Keeps;
    if pc.AttachEvidence? {
      EvidenceKeeps(s, id, pc.input);
    } else if pc.ConfirmClose? {
      ConfirmCloseKeeps(s, id, pc.c, pc.required, pc.first);
    } else {
      SealingKeeps(s, id, pc);
    }
  }

  lemma EvidenceKeeps(s: Local, id: string, input: EvidenceInput)
    requires StoreKept(s.cell.store, id)
    ensures Keeps(s, id, StepAttachEvidence(s, input))
  {
    hide Reproduces;
    hide Diff;
    hide ArtifactsMatch;
  }

  lemma SealMatches(c: Capsule, o: Observation, tree: Tree, now: nat)
    requires o.patch == Diff(c.identity.base.tree, tree)
    ensures var r := SealedResult(c, o, now);
            ArtifactsMatch(Closing(c, r, now), SealOf(r), r, o.patch) && Reproduces(c.identity.base, r, o.patch)
  {
    hide ContentBytes;
    hide ChangedPaths;
    hide Diff;
    hide Apply;
    ApplyDiff(c.identity.base.tree, tree);
  }

  lemma HalfSealedKeeps(s: Local, id: string, c: Capsule, r: Sealed, patch: Patch, now: nat)
    requires StoreKept(s.cell.store, id) && s.cell.store.manifest == Some(c) && c.state.Active?
    requires ArtifactsMatch(Closing(c, r, now), SealOf(r), r, patch) && Reproduces(c.identity.base, r, patch)
    ensures Keeps(s, id, Next(s.(cell := s.cell.(store := s.cell.store.(patch := Some(patch)))),
                              WriteResult(Closing(c, r, now), r)))
  {
    hide ArtifactsMatch;
    hide Reproduces;
    hide SealOf;
    hide ValidId;
  }

  lemma WritePatchKeeps(s: Local, id: string, c: Capsule, o: Observation)
    requires StoreKept(s.cell.store, id) && s.cell.store.manifest == Some(c) && c.state.Active?
    requires o.patch == Diff(c.identity.base.tree, s.cell.git.tree)
    ensures Keeps(s, id, WritePatch(s, c, o))
  {
    hide Keeps;
    hide StoreKept;
    hide ArtifactsMatch;
    hide Reproduces;
    hide SealedResult;
    hide Closing;
    hide Diff;
    SealMatches(c, o, s.cell.git.tree, s.clock);
    HalfSealedKeeps(s, id, c, SealedResult(c, o, s.clock), o.patch, s.clock);
  }

  lemma ConfirmCloseKeeps(s: Local, id: string, c: Capsule, required: Requirements, first: Observation)
    requires Ready(s, id, ConfirmClose(c, required, first))
    ensures Keeps(s, id, StepConfirmClose(s, c, required, first))
  {
    hide Reproduces;
    hide Keeps;
    hide WritePatch;
    hide Diff;
    hide Clean;
    hide Satisfies;
    QuietKeeps(s, id, ConfirmClose(c, required, first), Fail(s));
    if s.cell.git.branch.Some? && first == Observe(s.cell.git, c.identity.base) {
      WritePatchKeeps(s, id, c, first);
    }
  }

  lemma SealingKeeps(s: Local, id: string, pc: PC)
    requires (pc.ObserveClose? || pc.WriteResult?) && Ready(s, id, pc)
    ensures Keeps(s, id, ClosingStep(s, pc))
  {
    hide Reproduces;
    hide Diff;
    hide StepAttachEvidence;
    hide StepConfirmClose;
  }

  // ---- integrate ----

  lemma BeginIntegrateKeeps(s: Local, id: string, target: string, subject: Option<string>, author: Author)
    requires StoreKept(s.cell.store, id)
    ensures Keeps(s, id, StepBeginIntegrate(s, target, subject, author))
  {
    hide Reproduces;
    hide EnsureSealed;
  }

  lemma JournaledGood(store: Store, id: string, c: Capsule, proposed: Commit)
    requires StoreKept(store, id) && store.manifest == Some(c) && c.state.Integrating? && c.integration.Some?
    ensures var d := Journaled(c, proposed);
            Extends(c, d) && Good(store.(manifest := Some(d)), d, id) && d.state.Integrating?
  {
    hide Reproduces;
    hide ValidId;
  }

  lemma ProtectKeeps(s: Local, id: string, c: Capsule, proposed: Commit)
    requires Ready(s, id, PrepareIntegration(c)) && c.integration.Some?
    ensures Keeps(s, id, Protect(s, c, proposed))
    ensures Keeps(s, id, StepJournalTarget(s, c, proposed))
  {
    hide Reproduces;
    JournaledGood(s.cell.store, id, c, proposed);
    hide Good;
    hide Extends;
    hide Journaled;
  }

  lemma AbortKeeps(s: Local, id: string, c: Capsule)
    requires Ready(s, id, PrepareIntegration(c))
    ensures Keeps(s, id, Next(Save(s, c.(state := Closed, integration := None)), Done(Failed)))
  {
    hide Reproduces;
    hide ValidId;
  }

  lemma PrepareIntegrationKeeps(s: Local, id: string, c: Capsule)
    requires Ready(s, id, PrepareIntegration(c))
    ensures Keeps(s, id, StepPrepareIntegration(s, c))
  {
    hide Reproduces;
    hide Keeps;
    hide Ready;
    hide Protect;
    hide Diff;
    hide IntegrationCommit;
    AbortKeeps(s, id, c);
    QuietKeeps(s, id, PrepareIntegration(c), Fail(s));
    if c.integration.Some? {
      var i := c.integration.value;
      if i.target in s.targets {
        ProtectKeeps(s, id, c, s.targets[i.target].head);
      }
      if s.cell.store.patch.Some? && IntegrationCommit(c, s.cell.store.patch.value).Some? {
        ProtectKeeps(s, id, c, IntegrationCommit(c, s.cell.store.patch.value).value);
      }
    }
  }

  lemma FinalizedWritable(s: Local, id: string, c: Capsule, now: nat)
    requires Ready(s, id, Advance(c)) && c.integration.Some?
    ensures StageKept(s.cell.store, id, Writable(Finalized(c, now)))
  {
    hide Reproduces;
    hide ValidId;
  }

  lemma AdvanceStage(s: Local, c: Capsule)
    ensures var n := StepAdvance(s, c);
            && n.s.cell == s.cell
            && (n == Fail(s) || (c.integration.Some? && StageOf(n.pc) == Writable(Finalized(c, s.clock))))
  {
    hide Reproduces;
    hide Finalized;
    hide FastForward;
  }

  lemma AdvanceKeeps(s: Local, id: string, c: Capsule)
    requires Ready(s, id, Advance(c))
    ensures Keeps(s, id, StepAdvance(s, c))
  {
    hide Reproduces;
    hide StageKept;
    hide Finalized;
    hide Good;
    hide FastForward;
    AdvanceStage(s, c);
    QuietKeeps(s, id, Advance(c), Fail(s));
    if c.integration.Some? {
      FinalizedWritable(s, id, c, s.clock);
    }
  }

  lemma IntegratingQuiet(s: Local, pc: PC)
    requires pc.Revalidate? || pc.DeleteIntegrationRef?
    ensures Quiet(s, pc, IntegratingStep(s, pc))
  {
    hide Reproduces;
    hide StepBeginIntegrate;
    hide StepPrepareIntegration;
    hide StepAdvance;
    hide StepJournalTarget;
  }

  lemma IntegratingKeeps(s: Local, id: string, pc: PC)
    requires IntegratingPc(pc) && Ready(s, id, pc)
    ensures Keeps(s, id, IntegratingStep(s, pc))
  {
    hide Reproduces;
    if pc.Revalidate? || pc.DeleteIntegrationRef? {
      IntegratingQuiet(s, pc);
      QuietKeeps(s, id, pc, IntegratingStep(s, pc));
    } else {
      OtherIntegratingKeeps(s, id, pc);
    }
  }

  lemma OtherIntegratingKeeps(s: Local, id: string, pc: PC)
    requires pc.BeginIntegrate? || pc.PrepareIntegration? || pc.Advance? || pc.JournalTarget?
    requires Ready(s, id, pc)
    ensures Keeps(s, id, IntegratingStep(s, pc))
  {
    hide Reproduces;
    hide Keeps;
    match pc
    case BeginIntegrate(target, subject, author) => BeginIntegrateKeeps(s, id, target, subject, author);
    case PrepareIntegration(c) => PrepareIntegrationKeeps(s, id, c);
    case Advance(c) => AdvanceKeeps(s, id, c);
    case JournalTarget(c, proposed) =>
      if c.integration.Some? {
        ProtectKeeps(s, id, c, proposed);
      }
  }

  // ---- drop ----

  lemma RemovingQuiet(s: Local, c: Capsule)
    ensures Quiet(s, RemoveWorktree(c), StepRemoveWorktree(s, c))
  {
    hide EnsureSealed;
    hide Owned;
    hide RegistrationMatches;
  }

  lemma DeletingQuiet(s: Local, c: Capsule)
    ensures Quiet(s, DeleteBranch(c), StepDeleteBranch(s, c))
  {}

  lemma DroppingQuiet(s: Local, pc: PC)
    requires DroppingPc(pc) && !pc.BeginDrop? && !pc.ClearIntegrationRef?
    ensures Quiet(s, pc, DroppingStep(s, pc))
  {
    hide StepBeginDrop;
    hide StepRemoveWorktree;
    hide StepDeleteBranch;
    if pc.RemoveWorktree? {
      RemovingQuiet(s, pc.c);
    } else if pc.DeleteBranch? {
      DeletingQuiet(s, pc.c);
    }
  }

  lemma DroppingKeeps(s: Local, id: string, pc: PC)
    requires DroppingPc(pc) && Ready(s, id, pc)
    ensures Keeps(s, id, DroppingStep(s, pc))
  {
    hide Reproduces;
    hide Keeps;
    hide Quiet;
    if pc.BeginDrop? {
      BeginDropKeeps(s, id, pc.force);
    } else if pc.ClearIntegrationRef? {
      ClearIntegrationRefKeeps(s, id, pc.c);
    } else {
      DroppingQuiet(s, pc);
      QuietKeeps(s, id, pc, DroppingStep(s, pc));
    }
  }

  lemma DroppingGood(store: Store, id: string, c: Capsule, d: Capsule)
    requires StoreKept(store, id) && store.manifest == Some(c) && !c.state.Dropped? && !c.state.Dropping?
    requires d.cleanup.Some? && d == c.(state := Dropping, cleanup := d.cleanup, gitDir := d.gitDir)
    requires c.gitDir.Some? ==> d.gitDir == c.gitDir
    ensures Extends(c, d) && Good(store.(manifest := Some(d)), d, id)
  {
    hide Reproduces;
    hide ValidId;
  }

  lemma BeginDropKeeps(s: Local, id: string, force: bool)
    requires StoreKept(s.cell.store, id)
    ensures Keeps(s, id, StepBeginDrop(s, force))
  {
    hide Good;
    hide Extends;
    hide EnsureSealed;
    hide Owned;
    hide RegistrationMatches;
    hide RecordedHead;
    if s.cell.store.manifest.Some? {
      ExtendsSelf(s.cell.store.manifest.value);
      var n := StepBeginDrop(s, force);
      if n.pc.RemoveWorktree? && n.pc.c != s.cell.store.manifest.value {
        DroppingGood(s.cell.store, id, s.cell.store.manifest.value, n.pc.c);
      }
    }
  }

  lemma ClearIntegrationRefKeeps(s: Local, id: string, c: Capsule)
    requires Ready(s, id, ClearIntegrationRef(c))
    ensures Keeps(s, id, StepClearIntegrationRef(s, c))
  {
    hide Reproduces;
  }

  // ---- recovery ----

  /** What recovery may write over a manifest: a change of state, and of the journal with it. */
  lemma RecoveredWritable(store: Store, id: string, c: Capsule, d: Capsule)
    requires StoreKept(store, id) && store.manifest == Some(c)
    requires || d == c
             || (c.state.Active? && d == c.(state := Orphaned))
             || (c.state.Integrating? && d == c.(state := Closed, integration := None))
             || (c.state.Integrating? && c.integration.Some? && exists now :: d == Finalized(c, now))
    requires !d.state.Creating?
    ensures StageKept(store, id, Writable(d))
  {
    hide Reproduces;
    hide ValidId;
  }

  lemma RecoverIntegratingKeeps(s: Local, id: string, c: Capsule)
    requires StoreKept(s.cell.store, id) && s.cell.store.manifest == Some(c) && c.state.Integrating?
    ensures Keeps(s, id, RecoverIntegrating(s, c))
  {
    hide Good;
    hide Extends;
    hide StoredMatch;
    hide IntegrationMatches;
    hide TargetRecoverable;
    hide Finalized;
    IntegratingHasJournal(s.cell.store, id, c);
    RecoveredWritable(s.cell.store, id, c, c.(state := Closed, integration := None));
    RecoveredWritable(s.cell.store, id, c, Finalized(c, s.clock));
    ExtendsSelf(c);
  }

  lemma IntegratingHasJournal(store: Store, id: string, c: Capsule)
    requires StoreKept(store, id) && store.manifest == Some(c) && c.state.Integrating?
    ensures c.integration.Some? && forall now :: !Finalized(c, now).state.Creating?
  {
    hide SealKept;
    hide ValidId;
  }

  lemma ExtendsSelf(c: Capsule)
    ensures Extends(c, c)
  {}

  lemma RecoveringKeeps(s: Local, id: string)
    requires StoreKept(s.cell.store, id)
    ensures Keeps(s, id, StepBeginRecover(s))
  {
    hide Good;
    hide Extends;
    hide Owned;
    hide RecoverIntegrating;
    if s.cell.store.manifest.Some? {
      var c := s.cell.store.manifest.value;
      ExtendsSelf(c);
      if c.state.Integrating? {
        RecoverIntegratingKeeps(s, id, c);
      } else if c.state.Active? {
        RecoveredWritable(s.cell.store, id, c, c);
        RecoveredWritable(s.cell.store, id, c, c.(state := Orphaned));
      }
    }
  }

  // ---- any step ----

  lemma WriteKeeps(s: Local, id: string, c: Capsule)
    requires Ready(s, id, Write(c))
    ensures Keeps(s, id, Next(Save(s, c), Done(Succeeded(c))))
  {
    hide Reproduces;
  }

  /** Every counter hands on what the next one relies on, whatever moved in between. */
  lemma StepKeeps(s: Local, id: string, pc: PC)
    requires Ready(s, id, pc)
    ensures Keeps(s, id, Step(s, pc))
  {
    hide Reproduces;
    hide Keeps;
    hide CreationStep;
    hide CheckpointingStep;
    hide ClosingStep;
    hide IntegratingStep;
    hide DroppingStep;
    hide StepBeginRecover;
    if CreationPc(pc) {
      CreationKeeps(s, id, pc);
    } else if CheckpointingPc(pc) {
      CheckpointingKeeps(s, id, pc);
    } else if ClosingPc(pc) {
      ClosingKeeps(s, id, pc);
    } else if IntegratingPc(pc) {
      IntegratingKeeps(s, id, pc);
    } else if DroppingPc(pc) {
      DroppingKeeps(s, id, pc);
    } else if pc.Write? {
      WriteKeeps(s, id, pc.c);
    } else if pc.BeginRecover? {
      RecoveringKeeps(s, id);
    } else {
      QuietKeeps(s, id, pc, Next(s, pc));
    }
  }
}
