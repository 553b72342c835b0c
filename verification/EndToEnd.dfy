/** The whole of an attempt, from its creation to its landing, with an edit by the worker in between. */
module EndToEnd {
  import opened Model
  import opened Git
  import opened World
  import opened Machine
  import opened Isolation
  import opened Sweeps
  import opened WholeSweep
  import Invariant
  import Reconciliation
  import Closing
  import D = IntegrationDecision
  import O = IntegrationOutcome

  /** A target is there, and a capsule is created for it. */
  function Created(id: string, request: Request<string, Commit>, name: string, t: Target): State {
    var m := Occur(Occur(INITIAL, External(MoveTarget(name, t))), Start(Create(id, request)));
    RunFrom(m, Steps(7))
  }

  /** The worker leaves these files in the workspace. */
  function Edited(m: State, id: string, tree: Tree): State {
    Occur(m, External(Disturb(id, CellOf(m.world, id).git.(tree := tree))))
  }

  function Sealed(m: State, id: string, required: Requirements): State {
    RunFrom(Occur(m, Start(Close(id, required))), Steps(4))
  }

  function Landed(m: State, id: string, name: string, subject: Option<string>, author: Author): State {
    RunFrom(Occur(m, Start(Integrate(id, name, subject, author))), Steps(7))
  }

  const NOTHING_REQUIRED: Requirements := Requirements(false, false, false)

  lemma {:induction false} DriveAimsNowhere(s: Local, pc: PC, n: nat)
    requires AimsNowhere(pc)
    ensures Drive(s, pc, n).s.targets == s.targets && Drive(s, pc, n).s.clock == s.clock
    decreases n
  {
    hide Step;
    hide AimsNowhere;
    if n == 0 {
    } else {
      StepAimsNowhere(s, pc);
      DriveAimsNowhere(Step(s, pc).s, Step(s, pc).pc, n - 1);
    }
  }

  /** An active capsule on its base: what creation hands to the worker. */
  predicate Fresh(s: Local, c: Capsule, base: Commit) {
    && s.cell.store.manifest == Some(c)
    && c.state.Active?
    && JournalsConsistent(c)
    && c.result.None?
    && c.checkpoints == []
    && c.identity.base == base
    && Owned(s.cell.git, c)
    && s.cell.git.branch == Some(base)
    && s.cell.git.integrationRef.None?
    && s.cell.git.checkpointRef.None?
  }

  lemma PublishSteps(s: Local, c: Capsule)
    requires !s.cell.store.directory
    ensures var made := s.(cell := s.cell.(store := s.cell.store.(directory := true)));
            && Step(s, Prepare(c, false)) == Next(made, Publish(c, false))
            && Step(made, Publish(c, false)) == Next(Save(made, c), CompleteCreating(c, false, false))
  {
    hide StepCompleteCreating;
    hide StepMaterialize;
  }

  /** Creation does not touch the pending refs. */
  lemma {:induction false} CreationLeavesRefs(s: Local, pc: PC, n: nat)
    requires pc.CompleteCreating? || pc.AddWorktree? || pc.CheckOut? || pc.Activate? || pc.Write? || pc.Done?
    ensures Drive(s, pc, n).s.cell.git.integrationRef == s.cell.git.integrationRef
    ensures Drive(s, pc, n).s.cell.git.checkpointRef == s.cell.git.checkpointRef
    decreases n
  {
    hide Step;
    if n == 0 {
    } else {
      Reconciliation.CreationStores(s, pc);
      StepLeavesRefs(s, pc);
      CreationLeavesRefs(Step(s, pc).s, Step(s, pc).pc, n - 1);
    }
  }

  lemma StepLeavesRefs(s: Local, pc: PC)
    requires pc.CompleteCreating? || pc.AddWorktree? || pc.CheckOut? || pc.Activate? || pc.Write? || pc.Done?
    ensures Step(s, pc).s.cell.git.integrationRef == s.cell.git.integrationRef
    ensures Step(s, pc).s.cell.git.checkpointRef == s.cell.git.checkpointRef
  {
    hide CheckpointingStep;
    hide ClosingStep;
    hide IntegratingStep;
    hide DroppingStep;
    hide StepBeginRecover;
    hide Owned;
  }

  lemma CreationIsFresh(s: Local, c: Capsule)
    requires s.cell == EMPTY_CELL && c.state.Creating? && JournalsConsistent(c) && c.result.None? && c.checkpoints == []
    ensures var end := Drive(s, Prepare(c, false), 7);
            && end.pc.Done? && end.pc.outcome.Succeeded?
            && Fresh(end.s, end.pc.outcome.capsule, c.identity.base)
            && end.pc.outcome.capsule.identity == c.identity
  {
    hide Step;
    hide Owned;
    var made := s.(cell := s.cell.(store := s.cell.store.(directory := true)));
    var saved := Save(made, c);
    PublishSteps(s, c);
    calc {
      Drive(s, Prepare(c, false), 7);
      Drive(made, Publish(c, false), 6);
      Drive(saved, CompleteCreating(c, false, false), 5);
    }
    Reconciliation.CreationEnds(c, saved, false, false, 5);
    Reconciliation.CreationIsDecided(c, saved, false, false, 5);
    CreationLeavesRefs(saved, CompleteCreating(c, false, false), 5);
  }

  /** The attempt of the closing example: what the integration finds. */
  function AttemptOf(s: Local, c: Capsule, id: string, name: string, t: Target,
                     subject: Option<string>, author: Author): D.Attempt
    requires s.cell.git.branch.Some?
  {
    var o := Closing.Workspace(s, c);
    var r := SealedResult(c, o, s.clock);
    D.Attempt(id, name, t, subject, author, Machine.Closing(c, r, s.clock), r, o.patch)
  }

  /** A freshly closed capsule with an accepting target is a valid attempt whose seal holds. */
  lemma ClosedIsValid(s: Local, c: Capsule, id: string, name: string, t: Target,
                      subject: Option<string>, author: Author)
    requires Fresh(s, c, t.head) && t.commonDir == c.identity.commonDir && t.clean && t.full
    ensures var a := AttemptOf(s, c, id, name, t, subject, author);
            var sealed := s.(cell := s.cell.(store := Closing.Closed(s, c)));
            && D.Valid(a)
            && EnsureSealed(sealed, a.sealed)
  {
    hide SealedResult;
    hide Diff;
    hide Reproduces;
    hide ChangedPaths;
    var o := Closing.Workspace(s, c);
    Invariant.SealMatches(c, o, s.cell.git.tree, s.clock);
    SealedFields(c, o, s.clock);
  }

  lemma SealedFields(c: Capsule, o: Observation, now: nat)
    ensures var r := SealedResult(c, o, now);
            && r.headCommit == o.head
            && r.patchSha256 == OfPatch(o.patch)
            && r.patchBytes == PatchSize(o.patch)
            && r.changedPaths == ChangedPaths(o.patch)
            && (r.kind.NoChange? <==> o.patch == map[])
  {
    hide ContentBytes;
    hide ChangedPaths;
  }

  /** The commit proposed for such an attempt has exactly the workspace's tree. */
  lemma ProposedTree(s: Local, c: Capsule, id: string, name: string, t: Target,
                     subject: Option<string>, author: Author)
    requires Fresh(s, c, t.head) && t.commonDir == c.identity.commonDir && t.clean && t.full
    requires s.cell.git.tree != t.head.tree
    ensures var a := AttemptOf(s, c, id, name, t, subject, author);
            && D.Valid(a)
            && D.Proposed(a).parents == [t.head]
            && D.Proposed(a).tree == s.cell.git.tree
            && D.Proposed(a).author == author
  {
    hide SealedResult;
    hide Diff;
    hide Apply;
    hide Reproduces;
    hide ArtifactsMatch;
    hide EnsureSealed;
    var a := AttemptOf(s, c, id, name, t, subject, author);
    ClosedIsValid(s, c, id, name, t, subject, author);
    SealedFields(c, Closing.Workspace(s, c), s.clock);
    EmptyDiff(t.head.tree, s.cell.git.tree);
    ApplyDiff(t.head.tree, s.cell.git.tree);
    D.ProposedReproduces(a);
  }

  // ---- the three stages ----

  lemma StageOne(id: string, request: Request<string, Commit>, name: string, t: Target)
    requires ValidId(id) && request.resolved.Some?
    ensures var m := Created(id, request, name, t);
            && m.proc.Running? && m.proc.id == id && m.proc.pc.Done? && m.proc.pc.outcome.Succeeded?
            && Fresh(View(m.world, id), m.proc.pc.outcome.capsule, request.resolved.value)
            && m.proc.pc.outcome.capsule.identity.commonDir == request.commonDir
            && m.world.targets == map[name := t]
  {
    hide RunFrom;
    hide Step;
    hide Drive;
    hide Owned;
    hide JournalsConsistent;
    hide Steps;
    var m := Occur(Occur(INITIAL, External(MoveTarget(name, t))), Start(Create(id, request)));
    var c := InitialCapsule(id, request.title, request.links, request.source, request.commonDir,
                            request.resolved.value, 0);
    assert m.proc == Running(id, None, Prepare(c, false));
    InitialConsistent(id, request);
    StepsAreDrive(m, 7);
    CreationIsFresh(View(m.world, id), c);
    DriveAimsNowhere(View(m.world, id), Prepare(c, false), 7);
  }

  lemma InitialConsistent(id: string, request: Request<string, Commit>)
    requires |id| >= 4 && request.resolved.Some?
    ensures JournalsConsistent(InitialCapsule(id, request.title, request.links, request.source, request.commonDir,
                                              request.resolved.value, 0))
  {}

  lemma StageTwo(m: State, id: string, c: Capsule, base: Commit)
    requires Finished(m.proc) && Fresh(View(m.world, id), c, base)
    ensures var s := View(m.world, id);
            var after := Sealed(m, id, NOTHING_REQUIRED);
            && s.cell.git.branch.Some?
            && View(after.world, id) == s.(cell := s.cell.(store := Closing.Closed(s, c)))
            && Finished(after.proc)
  {
    hide RunFrom;
    hide Step;
    hide Drive;
    hide Owned;
    hide Steps;
    hide Closing.Closed;
    var begun := Occur(m, Start(Close(id, NOTHING_REQUIRED)));
    StepsAreDrive(begun, 4);
    Closing.CloseWrites(View(m.world, id), c, NOTHING_REQUIRED, 4);
  }

  lemma StageThree(m: State, s: Local, c: Capsule, id: string, name: string, t: Target,
                   subject: Option<string>, author: Author)
    requires Fresh(s, c, t.head) && t.commonDir == c.identity.commonDir && t.clean && t.full
    requires s.cell.git.tree != t.head.tree && name in s.targets && s.targets[name] == t
    requires Finished(m.proc) && View(m.world, id) == s.(cell := s.cell.(store := Closing.Closed(s, c)))
    ensures var after := Landed(m, id, name, subject, author);
            var manifest := CellOf(after.world, id).store.manifest;
            && name in after.world.targets
            && after.world.targets[name].head.parents == [t.head]
            && after.world.targets[name].head.tree == s.cell.git.tree
            && manifest.Some? && manifest.value.state.Integrated?
  {
    hide RunFrom;
    hide Step;
    hide Drive;
    hide Steps;
    hide D.Valid;
    hide D.Proposed;
    hide EnsureSealed;
    hide Owned;
    hide SealedResult;
    hide Machine.Closing;
    var a := AttemptOf(s, c, id, name, t, subject, author);
    ClosedIsValid(s, c, id, name, t, subject, author);
    ProposedTree(s, c, id, name, t, subject, author);
    var begun := Occur(m, Start(Integrate(id, name, subject, author)));
    StandsUntouched(s, c, a, t.head);
    O.IntegrationSucceeds(a, View(m.world, id), 7);
    StepsAreDrive(begun, 7);
    var after := RunFrom(begun, Steps(7));
    RecordedMeans(a, View(after.world, id));
  }

  lemma StandsUntouched(s: Local, c: Capsule, a: D.Attempt, base: Commit)
    requires Fresh(s, c, base) && D.Valid(a) && a.target.head == base
    requires a == AttemptOf(s, c, a.id, a.name, a.target, a.subject, a.author)
    requires a.name in s.targets && s.targets[a.name] == a.target
    ensures D.Stands(a, s.(cell := s.cell.(store := Closing.Closed(s, c))), D.Untouched)
  {
    hide D.Valid;
    hide D.Proposed;
    hide Owned;
    hide SealedResult;
    hide Machine.Closing;
  }

  lemma RecordedMeans(a: D.Attempt, s: Local)
    requires D.Valid(a) && D.Stands(a, s, D.Recorded)
    ensures a.name in s.targets && s.targets[a.name].head == D.Proposed(a)
    ensures s.cell.store.manifest.Some? && s.cell.store.manifest.value.state.Integrated?
  {
    hide D.Valid;
    hide D.Proposed;
    hide D.Prepared;
  }

  /** Whatever the base, the edit, and the names involved: create, edit, close and integrate leave
      the target one commit further, on top of the base alone, with exactly the edited files. */
  lemma AnEditLands(id: string, request: Request<string, Commit>, name: string, t: Target, tree: Tree,
                    subject: Option<string>, author: Author)
    requires ValidId(id) && request.resolved == Some(t.head) && request.commonDir == t.commonDir
    requires t.clean && t.full && tree != t.head.tree
    ensures var m := Sealed(Edited(Created(id, request, name, t), id, tree), id, NOTHING_REQUIRED);
            var after := Landed(m, id, name, subject, author);
            var manifest := CellOf(after.world, id).store.manifest;
            && name in after.world.targets
            && after.world.targets[name].head.parents == [t.head]
            && after.world.targets[name].head.tree == tree
            && manifest.Some? && manifest.value.state.Integrated?
  {
    hide RunFrom;
    hide Created;
    hide Sealed;
    hide Landed;
    hide JournalsConsistent;
    hide Closing.Closed;
    StageOne(id, request, name, t);
    var created := Created(id, request, name, t);
    var c := created.proc.pc.outcome.capsule;
    var edited := Edited(created, id, tree);
    StageTwo(edited, id, c, t.head);
    StageThree(Sealed(edited, id, NOTHING_REQUIRED), View(edited.world, id), c, id, name, t, subject, author);
  }
}
