/** Runs from the empty state root to the states that the outcome theorems set apart. */
module Reached {
  import opened Model
  import opened Git
  import opened World
  import opened Machine
  import opened Sweeps
  import opened EndToEnd
  import Reconciliation
  import Closing
  import Isolation
  import D = IntegrationDecision
  import O = IntegrationOutcome
  import C = CheckpointAtomicity
  import P = CheckpointOutcome
  import K = CreationOutcome

  ghost predicate Reachable(m: State) {
    exists events :: RunFrom(INITIAL, events) == m
  }

  lemma InitialReachable()
    ensures Reachable(INITIAL)
  {
    assert RunFrom(INITIAL, []) == INITIAL;
  }

  lemma RunReaches(m: State, more: seq<Event>)
    requires Reachable(m)
    ensures Reachable(RunFrom(m, more))
  {
    hide RunFrom;
    var events :| RunFrom(INITIAL, events) == m;
    RunConcat(INITIAL, events, more);
  }

  lemma OccurReaches(m: State, e: Event)
    requires Reachable(m)
    ensures Reachable(Occur(m, e))
  {
    hide Reachable;
    hide Occur;
    RunReaches(m, [e]);
    assert RunFrom(m, [e]) == RunFrom(Occur(m, e), []);
  }

  lemma CreatedReachable(id: string, request: Request<string, Commit>, name: string, t: Target)
    ensures Reachable(Created(id, request, name, t))
  {
    hide Reachable;
    hide Occur;
    hide RunFrom;
    InitialReachable();
    var there := Occur(INITIAL, External(MoveTarget(name, t)));
    OccurReaches(INITIAL, External(MoveTarget(name, t)));
    OccurReaches(there, Start(Create(id, request)));
    RunReaches(Occur(there, Start(Create(id, request))), Steps(7));
  }

  // ---- a stranded integration ----

  /** A call of `integrate` dies once both its journals are written; the recovery after it dies once
      it has deleted the pending ref. */
  function DiesTwice(m: State, id: string, name: string, subject: Option<string>, author: Author): State {
    Occur(RunFrom(RunFrom(Occur(m, Start(Integrate(id, name, subject, author))), Steps(3)), Sweep(id, 1)), Crash)
  }

  lemma StrandsAttempt(a: D.Attempt, m: State)
    requires D.Valid(a) && D.Stands(a, View(m.world, a.id), D.Untouched) && Finished(m.proc)
    requires EnsureSealed(View(m.world, a.id), a.sealed) && CellOf(m.world, a.id).git.integrationRef.None?
    requires D.Proposed(a) != a.target.head
    ensures D.Stands(a, View(DiesTwice(m, a.id, a.name, a.subject, a.author).world, a.id), D.Stranded)
  {
    hide D.Valid;
    hide D.Stands;
    hide D.Proposed;
    hide EnsureSealed;
    hide RunFrom;
    hide Drive;
    hide Steps;
    hide Sweep;
    var begun := Occur(m, Start(Integrate(a.id, a.name, a.subject, a.author)));
    StepsAreDrive(begun, 3);
    O.ThreeSteps(a, View(m.world, a.id));
    O.RestoreCrashStrands(a, RunFrom(begun, Steps(3)));
  }

  /** Whatever the base, the edit and the names: a reachable state in which the integration is
      stranded. HEAD is still at the base, the capsule still integrating, and recovery declines. */
  lemma AnIntegrationCanStrand(id: string, request: Request<string, Commit>, name: string, t: Target, tree: Tree,
                               subject: Option<string>, author: Author, n: nat)
    requires ValidId(id) && request.resolved == Some(t.head) && request.commonDir == t.commonDir
    requires t.clean && t.full && tree != t.head.tree && n >= 2
    ensures var m := EndToEnd.Sealed(Edited(Created(id, request, name, t), id, tree), id, NOTHING_REQUIRED);
            var stuck := DiesTwice(m, id, name, subject, author);
            var after := RunFrom(stuck, Sweep(id, n));
            && Reachable(stuck)
            && CellOf(stuck.world, id).store.manifest.Some?
            && CellOf(stuck.world, id).store.manifest.value.state.Integrating?
            && name in stuck.world.targets && stuck.world.targets[name].head == t.head
            && View(after.world, id) == View(stuck.world, id)
            && after.proc == Running(id, None, Done(NoAction))
  {
    hide RunFrom;
    hide Created;
    hide EndToEnd.Sealed;
    hide Steps;
    hide Sweep;
    hide DiesTwice;
    hide JournalsConsistent;
    hide Closing.Closed;
    hide D.Valid;
    hide D.Stands;
    hide D.Proposed;
    hide EnsureSealed;
    hide Machine.Closing;
    hide SealedResult;
    hide Reachable;
    StageOne(id, request, name, t);
    var created := Created(id, request, name, t);
    var c := created.proc.pc.outcome.capsule;
    var edited := Edited(created, id, tree);
    var s := View(edited.world, id);
    StageTwo(edited, id, c, t.head);
    var m := EndToEnd.Sealed(edited, id, NOTHING_REQUIRED);
    var a := AttemptOf(s, c, id, name, t, subject, author);
    ClosedIsValid(s, c, id, name, t, subject, author);
    ProposedTree(s, c, id, name, t, subject, author);
    StandsUntouched(s, c, a, t.head);
    StrandsAttempt(a, m);
    var stuck := DiesTwice(m, id, name, subject, author);
    StrandedMeans(a, View(stuck.world, id));
    O.RecoverySettles(a, stuck, D.Stranded, n);
    O.SweepServes(stuck, id, n);
    CreatedReachable(id, request, name, t);
    DiesTwiceReachable(created, id, tree, name, subject, author);
  }

  lemma StrandedMeans(a: D.Attempt, s: Local)
    requires D.Valid(a) && D.Stands(a, s, D.Stranded)
    ensures s.cell.store.manifest.Some? && s.cell.store.manifest.value.state.Integrating?
    ensures a.name in s.targets && s.targets[a.name].head == a.target.head
  {
    hide D.Valid;
    hide D.Proposed;
    hide D.Prepared;
    D.JournalFacts(a, D.Prepared(a));
  }

  lemma DiesTwiceReachable(created: State, id: string, tree: Tree, name: string, subject: Option<string>,
                           author: Author)
    requires Reachable(created)
    ensures var m := EndToEnd.Sealed(Edited(created, id, tree), id, NOTHING_REQUIRED);
            Reachable(DiesTwice(m, id, name, subject, author))
  {
    hide Reachable;
    hide Occur;
    hide RunFrom;
    hide Steps;
    hide Sweep;
    var edited := Edited(created, id, tree);
    OccurReaches(created, External(Disturb(id, CellOf(created.world, id).git.(tree := tree))));
    OccurReaches(edited, Start(Close(id, NOTHING_REQUIRED)));
    RunReaches(Occur(edited, Start(Close(id, NOTHING_REQUIRED))), Steps(4));
    var m := EndToEnd.Sealed(edited, id, NOTHING_REQUIRED);
    var begun := Occur(m, Start(Integrate(id, name, subject, author)));
    OccurReaches(m, Start(Integrate(id, name, subject, author)));
    RunReaches(begun, Steps(3));
    RunReaches(RunFrom(begun, Steps(3)), Sweep(id, 1));
    OccurReaches(RunFrom(RunFrom(begun, Steps(3)), Sweep(id, 1)), Crash);
  }

  // ---- a checkpoint of a fresh capsule ----

  /** The call of `checkpoint` that finds this in a workspace just edited. */
  function CallOn(m: State, id: string, message: string, author: Author, open: Capsule): C.Attempt {
    C.Attempt(id, message, author, open, CellOf(m.world, id).git)
  }

  lemma EditedStaysFresh(m: State, id: string, tree: Tree, c: Capsule, base: Commit)
    requires Fresh(View(m.world, id), c, base)
    ensures Fresh(View(Edited(m, id, tree).world, id), c, base)
    ensures CellOf(Edited(m, id, tree).world, id).git.tree == tree && Edited(m, id, tree).proc == m.proc
  {
    hide JournalsConsistent;
  }

  lemma FreshIsValid(m: State, id: string, c: Capsule, base: Commit, message: string, author: Author)
    requires Fresh(View(m.world, id), c, base) && CellOf(m.world, id).git.tree != base.tree
    ensures var a := CallOn(m, id, message, author, c);
            C.Valid(a) && C.Stands(a, View(m.world, id), C.Old) && !C.AlreadyRecorded(a)
  {
    hide Diff;
    EmptyDiff(base.tree, CellOf(m.world, id).git.tree);
  }

  // ---- a lost pending ref ----

  /** The call dies once its journal is written, and somebody deletes the pending ref. */
  function LosesRef(m: State, id: string, message: string, author: Author): State {
    var dead := Occur(RunFrom(Occur(m, Start(TakeCheckpoint(id, message, author))), Steps(2)), Crash);
    Occur(dead, External(Disturb(id, CellOf(dead.world, id).git.(checkpointRef := None))))
  }

  lemma TwoSteps(a: C.Attempt, s: Local)
    requires C.Valid(a) && C.Stands(a, s, C.Old)
    ensures a.git.branch.Some? && C.Stands(a, Drive(s, BeginCheckpoint(a.message, a.author), 2).s, C.Journaled)
  {
    hide C.Valid;
    hide C.Stands;
    hide C.IsPrepared;
    hide Step;
    hide StepBeginCheckpoint;
    hide StepFinishCheckpoint;
    C.HasBranch(a);
    C.BeginStays(a, s);
    var begin := BeginCheckpoint(a.message, a.author);
    var next := StepBeginCheckpoint(s, a.message, a.author);
    Unfolds(s, begin);
    Unfolds(next.s, next.pc);
    P.JournaledStands(a, next.s, next.pc.c);
    calc {
      Drive(s, begin, 2);
      Drive(next.s, next.pc, 1);
      Drive(Save(next.s, next.pc.c), FinishCheckpoint(next.pc.c, false), 0);
    }
  }

  lemma JournaledLosesRef(a: C.Attempt, s: Local)
    requires C.Valid(a) && a.git.branch.Some? && C.Stands(a, s, C.Journaled) && a.open.checkpoints == []
    ensures s.cell.store.manifest.Some?
    ensures Reconciliation.RefLost(WithGit(s, s.cell.git.(checkpointRef := None)), s.cell.store.manifest.value)
  {
    hide Diff;
    C.StillOwned(a, s, s.cell.store.manifest.value, C.Journaled);
    C.JournalReproduces(a, s.cell.store.manifest.value);
  }

  /** Whatever the base and the edit: a reachable state from which the first recovery re-creates the
      ref and completes the checkpoint, and the second still acts. */
  lemma SecondRecoveryCanAct(id: string, request: Request<string, Commit>, name: string, t: Target, tree: Tree,
                             message: string, author: Author, k: nat)
    requires ValidId(id) && request.resolved == Some(t.head) && tree != t.head.tree && k >= 8
    ensures var m := LosesRef(Edited(Created(id, request, name, t), id, tree), id, message, author);
            var first := Drive(View(m.world, id), BeginRecover, 8);
            && Reachable(m)
            && first.pc.Done? && first.pc.outcome.Succeeded?
            && !Reconciliation.Quiet(first.s, k)
  {
    hide RunFrom;
    hide Created;
    hide Steps;
    hide JournalsConsistent;
    hide Owned;
    hide Edited;
    hide C.Valid;
    hide C.Stands;
    hide Reconciliation.RefLost;
    hide Reconciliation.Quiet;
    hide Reachable;
    hide Drive;
    StageOne(id, request, name, t);
    var created := Created(id, request, name, t);
    var c := created.proc.pc.outcome.capsule;
    var edited := Edited(created, id, tree);
    var a := CallOn(edited, id, message, author, c);
    EditedStaysFresh(created, id, tree, c, t.head);
    FreshIsValid(edited, id, c, t.head, message, author);
    TwoSteps(a, View(edited.world, id));
    var begun := Occur(edited, Start(TakeCheckpoint(id, message, author)));
    StepsAreDrive(begun, 2);
    var dead := RunFrom(begun, Steps(2));
    JournaledLosesRef(a, View(dead.world, id));
    var m := LosesRef(edited, id, message, author);
    Reconciliation.RecreatedRefIsLeft(View(m.world, id), CellOf(dead.world, id).store.manifest.value, k);
    CreatedReachable(id, request, name, t);
    LosesRefReachable(created, id, tree, message, author);
  }

  lemma LosesRefReachable(created: State, id: string, tree: Tree, message: string, author: Author)
    requires Reachable(created)
    ensures Reachable(LosesRef(Edited(created, id, tree), id, message, author))
  {
    hide Reachable;
    hide Occur;
    hide RunFrom;
    hide Steps;
    var edited := Edited(created, id, tree);
    OccurReaches(created, External(Disturb(id, CellOf(created.world, id).git.(tree := tree))));
    var begun := Occur(edited, Start(TakeCheckpoint(id, message, author)));
    OccurReaches(edited, Start(TakeCheckpoint(id, message, author)));
    RunReaches(begun, Steps(2));
    var dead := Occur(RunFrom(begun, Steps(2)), Crash);
    OccurReaches(RunFrom(begun, Steps(2)), Crash);
    OccurReaches(dead, External(Disturb(id, CellOf(dead.world, id).git.(checkpointRef := None))));
  }

  // ---- a checkpoint that cannot be recorded ----

  /** The checkpoint is taken, and the worker moves the branch back to where it was. */
  function MovesBack(m: State, id: string, message: string, author: Author): State {
    var taken := RunFrom(Occur(m, Start(TakeCheckpoint(id, message, author))), Steps(7));
    Occur(taken, External(Disturb(id, CellOf(taken.world, id).git.(branch := CellOf(m.world, id).git.branch))))
  }

  /** The second call, with the same message by the same author, of the same files. */
  function Again(m: State, id: string, message: string, author: Author): State {
    RunFrom(Occur(m, Start(TakeCheckpoint(id, message, author))), Steps(7))
  }

  /** What the second call finds: the commit it prepares is the one just recorded. */
  lemma BackIsRecorded(a: C.Attempt, s: Local, now: Local)
    requires C.Valid(a) && a.git.branch.Some? && a.open.checkpoints == [] && C.Stands(a, s, C.Appended)
    requires now.cell == s.cell.(git := s.cell.git.(branch := a.git.branch))
    ensures s.cell.store.manifest.Some?
    ensures var b := C.Attempt(a.id, a.message, a.author, s.cell.store.manifest.value, now.cell.git);
            C.Valid(b) && C.AlreadyRecorded(b) && C.Stands(b, now, C.Old)
  {
    hide Diff;
    var c := s.cell.store.manifest.value;
    assert c.checkpoints[0].commit == C.After(a);
  }

  /** Whatever the base and the edit: a reachable state in which an accepted checkpoint cannot be
      recorded. Left alone the call fails, and so does every recovery after it, whatever else goes
      on, as long as nobody outside touches the capsule. */
  lemma ACheckpointCanBeUnrecordable(id: string, request: Request<string, Commit>, name: string, t: Target, tree: Tree,
                                     message: string, author: Author, events: seq<Event>, n: nat)
    requires ValidId(id) && request.resolved == Some(t.head) && tree != t.head.tree && n >= 5
    requires forall e | e in events ::
               && (e.Start? ==> Isolation.LeavesAlone(e.op, id))
               && (e.External? && e.move.Disturb? ==> e.move.id != id)
    ensures var m := MovesBack(Edited(Created(id, request, name, t), id, tree), id, message, author);
            var failed := Again(m, id, message, author);
            var later := RunFrom(failed, events);
            && Reachable(later)
            && CellOf(m.world, id).store.manifest.Some?
            && P.Accepted(CallOn(m, id, message, author, CellOf(m.world, id).store.manifest.value), m)
            && failed.proc == Running(id, None, Done(Failed))
            && CellOf(later.world, id).store.manifest.Some?
            && CellOf(later.world, id).store.manifest.value.state.Checkpointing?
            && RunFrom(later, Sweep(id, n)).proc == Running(id, None, Done(Failed))
  {
    hide RunFrom;
    hide Created;
    hide Steps;
    hide Sweep;
    hide Edited;
    hide MovesBack;
    hide Again;
    hide JournalsConsistent;
    hide Owned;
    hide C.Valid;
    hide C.Stands;
    hide C.AlreadyRecorded;
    hide C.Phase;
    hide P.Accepted;
    hide Reachable;
    StageOne(id, request, name, t);
    var created := Created(id, request, name, t);
    var c := created.proc.pc.outcome.capsule;
    var edited := Edited(created, id, tree);
    EditedStaysFresh(created, id, tree, c, t.head);
    FreshIsValid(edited, id, c, t.head, message, author);
    var m := MovesBack(edited, id, message, author);
    MovedBack(edited, id, c, message, author);
    var b := CallOn(m, id, message, author, CellOf(m.world, id).store.manifest.value);
    var failed := Again(m, id, message, author);
    AgainFails(b, m);
    assert C.AllCalm(b, events);
    P.UnrecordableForEver(b, failed, events, n);
    UnpinnedMeans(b, View(RunFrom(failed, events).world, id));
    CreatedReachable(id, request, name, t);
    AgainReachable(created, id, tree, message, author);
    RunReaches(failed, events);
  }

  lemma MovedBack(m: State, id: string, c: Capsule, message: string, author: Author)
    requires Finished(m.proc) && c.checkpoints == []
    requires var a := CallOn(m, id, message, author, c);
             C.Valid(a) && C.Stands(a, View(m.world, id), C.Old) && !C.AlreadyRecorded(a)
    ensures var back := MovesBack(m, id, message, author);
            && Finished(back.proc)
            && CellOf(back.world, id).store.manifest.Some?
            && var b := CallOn(back, id, message, author, CellOf(back.world, id).store.manifest.value);
               && C.Valid(b) && C.AlreadyRecorded(b) && C.Stands(b, View(back.world, id), C.Old)
               && P.Accepted(b, back)
  {
    hide RunFrom;
    hide Steps;
    hide Drive;
    hide C.Valid;
    hide C.Stands;
    hide C.AlreadyRecorded;
    var a := CallOn(m, id, message, author, c);
    C.HasBranch(a);
    var begun := Occur(m, Start(TakeCheckpoint(id, message, author)));
    StepsAreDrive(begun, 7);
    P.CheckpointSucceeds(a, View(m.world, id), 7);
    var taken := RunFrom(begun, Steps(7));
    var back := MovesBack(m, id, message, author);
    BackIsRecorded(a, View(taken.world, id), View(back.world, id));
    ValidIsAccepted(CallOn(back, id, message, author, CellOf(back.world, id).store.manifest.value), back);
  }

  lemma ValidIsAccepted(a: C.Attempt, m: State)
    requires C.Valid(a) && C.Stands(a, View(m.world, a.id), C.Old)
    ensures P.Accepted(a, m)
  {
    hide Diff;
  }

  lemma AgainFails(b: C.Attempt, m: State)
    requires Finished(m.proc) && C.Valid(b) && C.AlreadyRecorded(b) && C.Stands(b, View(m.world, b.id), C.Old)
    ensures var failed := Again(m, b.id, b.message, b.author);
            && b.git.branch.Some?
            && C.Stands(b, View(failed.world, b.id), C.Unpinned)
            && failed.proc == Running(b.id, None, Done(Failed))
            && C.Phase(b, failed)
  {
    hide RunFrom;
    hide Steps;
    hide Drive;
    hide C.Valid;
    hide C.Stands;
    hide C.AlreadyRecorded;
    var begun := Occur(m, Start(TakeCheckpoint(b.id, b.message, b.author)));
    StepsAreDrive(begun, 7);
    P.CheckpointSucceeds(b, View(m.world, b.id), 7);
    C.RestsAt(b, View(RunFrom(begun, Steps(7)).world, b.id), C.Unpinned);
  }

  lemma UnpinnedMeans(b: C.Attempt, s: Local)
    requires b.git.branch.Some? && C.Stands(b, s, C.Unpinned)
    ensures s.cell.store.manifest.Some? && s.cell.store.manifest.value.state.Checkpointing?
  {}

  lemma AgainReachable(created: State, id: string, tree: Tree, message: string, author: Author)
    requires Reachable(created)
    ensures Reachable(Again(MovesBack(Edited(created, id, tree), id, message, author), id, message, author))
  {
    hide Reachable;
    hide Occur;
    hide RunFrom;
    hide Steps;
    var edited := Edited(created, id, tree);
    var call := Start(TakeCheckpoint(id, message, author));
    OccurReaches(created, External(Disturb(id, CellOf(created.world, id).git.(tree := tree))));
    OccurReaches(edited, call);
    RunReaches(Occur(edited, call), Steps(7));
    var taken := RunFrom(Occur(edited, call), Steps(7));
    var git := CellOf(taken.world, id).git.(branch := CellOf(edited.world, id).git.branch);
    OccurReaches(taken, External(Disturb(id, git)));
    var m := MovesBack(edited, id, message, author);
    OccurReaches(m, call);
    RunReaches(Occur(m, call), Steps(7));
  }

  // ---- an orphaned creation ----

  /** Whatever the key and the request: a reachable state in which the retry of a creation that only
      its own process's death disturbed ends orphaned. */
  lemma ACreationCanBeOrphaned(key: string, request: Request<string, Commit>, id: string,
                               again: Request<string, Commit>, otherId: string, n: nat)
    requires ValidId(id) && request.resolved.Some? && n >= 8
    requires SameRequest(again, K.AttemptOf(INITIAL, key, request, id).record)
    ensures var m := RunFrom(K.Opening(INITIAL, key, request, id), Steps(4));
            var a := K.AttemptOf(INITIAL, key, request, id);
            var after := RunFrom(m, K.Retry(a, again, otherId, n));
            && Reachable(after)
            && CellOf(after.world, id).store.manifest.Some?
            && CellOf(after.world, id).store.manifest.value.state.Orphaned?
  {
    hide RunFrom;
    hide K.Opening;
    hide K.Retry;
    hide K.DoomsIn;
    hide Steps;
    hide SameRequest;
    hide Reachable;
    K.DiesAfterFour(INITIAL, key, request, id);
    K.RetryIsDecided(INITIAL, key, request, id, Steps(4), again, otherId, n);
    OpeningReachable(key, request, id);
    var first, a := K.Opening(INITIAL, key, request, id), K.AttemptOf(INITIAL, key, request, id);
    RunReaches(first, Steps(4));
    RunReaches(RunFrom(first, Steps(4)), K.Retry(a, again, otherId, n));
  }

  lemma OpeningReachable(key: string, request: Request<string, Commit>, id: string)
    ensures Reachable(K.Opening(INITIAL, key, request, id))
  {
    hide Reachable;
    hide Occur;
    InitialReachable();
    OccurReaches(INITIAL, Start(CreateKeyed(key, request, id)));
    OccurReaches(Occur(INITIAL, Start(CreateKeyed(key, request, id))), Advanced);
  }
}
