/** What an interrupted checkpoint ends as, over whole runs from the empty state root. */
module CheckpointOutcome {
  import opened Model
  import opened Git
  import opened World
  import opened Machine
  import opened Invariant
  import opened Runs
  import opened Isolation
  import opened Sweeps
  import opened CheckpointAtomicity

  /** The checkpoint is there, or its commit is one the capsule lists already. */
  predicate Ends(a: Attempt, n: Next)
    requires a.git.branch.Some?
  {
    && n.pc.Done?
    && if AlreadyRecorded(a) then Stands(a, n.s, Unpinned) && n.pc.outcome.Failed?
       else Stands(a, n.s, Appended) && !n.pc.outcome.Failed?
  }

  lemma RecordEnds(a: Attempt, s: Local, c: Capsule, n: nat)
    requires Valid(a) && Stands(a, s, Unpinned) && s.cell.store.manifest == Some(c) && n >= 1
    ensures a.git.branch.Some? && Ends(a, Drive(s, RecordCheckpoint(c), n))
  {
    hide CreationStep;
    hide ClosingStep;
    hide IntegratingStep;
    hide DroppingStep;
    hide StepBeginRecover;
    hide StepBeginCheckpoint;
    hide StepFinishCheckpoint;
    hide StepAdvanceBranch;
    hide StepResetIndex;
    hide StepDeleteCheckpointRef;
    hide AlreadyRecorded;
    hide Step;
    hide Stands;
    hide StepRecordCheckpoint;
    Unfolds(s, RecordCheckpoint(c));
    RecordStays(a, s, c);
    var next := StepRecordCheckpoint(s, c);
    DriveStaysDone(next.s, next.pc.outcome, n - 1);
  }

  lemma DeleteEnds(a: Attempt, s: Local, c: Capsule, pending: bool, n: nat)
    requires Valid(a) && Stands(a, s, if pending then Indexed else Unpinned)
    requires s.cell.store.manifest == Some(c) && n >= 2
    ensures a.git.branch.Some? && Ends(a, Drive(s, DeleteCheckpointRef(c, pending), n))
  {
    hide CreationStep;
    hide ClosingStep;
    hide IntegratingStep;
    hide DroppingStep;
    hide StepBeginRecover;
    hide StepBeginCheckpoint;
    hide StepFinishCheckpoint;
    hide StepAdvanceBranch;
    hide StepResetIndex;
    hide StepRecordCheckpoint;
    hide Ends;
    hide Step;
    hide Stands;
    hide StepDeleteCheckpointRef;
    Unfolds(s, DeleteCheckpointRef(c, pending));
    DeleteStays(a, s, c, pending);
    RecordEnds(a, StepDeleteCheckpointRef(s, c, pending).s, c, n - 1);
  }

  lemma ResetEnds(a: Attempt, s: Local, c: Capsule, n: nat)
    requires Valid(a) && Stands(a, s, Moved) && s.cell.store.manifest == Some(c) && n >= 3
    ensures a.git.branch.Some? && Ends(a, Drive(s, ResetIndex(c, true), n))
  {
    hide CreationStep;
    hide ClosingStep;
    hide IntegratingStep;
    hide DroppingStep;
    hide StepBeginRecover;
    hide StepBeginCheckpoint;
    hide StepFinishCheckpoint;
    hide StepAdvanceBranch;
    hide StepResetIndex;
    hide StepDeleteCheckpointRef;
    hide StepRecordCheckpoint;
    hide Valid;
    hide Ends;
    hide Step;
    hide Stands;
    HasBranch(a);
    Unfolds(s, ResetIndex(c, true));
    ResetStays(a, s, c);
    DeleteEnds(a, StepResetIndex(s, c, true).s, c, true, n - 1);
  }

  lemma FinishEnds(a: Attempt, s: Local, c: Capsule, sweep: bool, point: Point, n: nat)
    requires Valid(a) && Stands(a, s, point) && s.cell.store.manifest == Some(c) && n >= 4
    requires point.Journaled? || point.Moved? || point.Indexed? || point.Unpinned?
    ensures a.git.branch.Some? && Ends(a, Drive(s, FinishCheckpoint(c, sweep), n))
  {
    hide CreationStep;
    hide ClosingStep;
    hide IntegratingStep;
    hide DroppingStep;
    hide StepBeginRecover;
    hide StepBeginCheckpoint;
    hide StepFinishCheckpoint;
    hide StepAdvanceBranch;
    hide StepResetIndex;
    hide StepDeleteCheckpointRef;
    hide StepRecordCheckpoint;
    hide Valid;
    hide Ends;
    hide Step;
    hide Stands;
    HasBranch(a);
    Unfolds(s, FinishCheckpoint(c, sweep));
    FinishStays(a, s, c, sweep, point);
    var next := StepFinishCheckpoint(s, c, sweep);
    if point.Journaled? {
      ResetEnds(a, next.s, c, n - 1);
    } else {
      DeleteEnds(a, next.s, c, !point.Unpinned?, n - 1);
    }
  }

  /** From each point, one recovery that runs to its end. */
  lemma RecoverySettles(a: Attempt, s: Local, point: Point, n: nat)
    requires Valid(a) && Stands(a, s, point) && n >= 5
    ensures a.git.branch.Some?
    ensures var end := Drive(s, BeginRecover, n);
            match point
            case Old => Stands(a, end.s, Old)
            case Pinned => Stands(a, end.s, Old)
            case Appended => Stands(a, end.s, Appended)
            case _ => Ends(a, end)
  {
    hide CreationStep;
    hide ClosingStep;
    hide IntegratingStep;
    hide DroppingStep;
    hide StepBeginCheckpoint;
    hide StepFinishCheckpoint;
    hide StepAdvanceBranch;
    hide StepResetIndex;
    hide StepDeleteCheckpointRef;
    hide StepRecordCheckpoint;
    hide Ends;
    hide Step;
    hide Stands;
    hide StepBeginRecover;
    hide At;
    Unfolds(s, BeginRecover);
    RecoverStays(a, s, point);
    var next := StepBeginRecover(s);
    Unfolds(next.s, next.pc);
    match point
    case Old => DriveStaysDone(s, NoAction, n - 1);
    case Appended => DriveStaysDone(s, NoAction, n - 1);
    case Pinned =>
      WriteStays(a, next.s);
      DriveStaysDone(Save(next.s, a.open), Succeeded(a.open), n - 2);
    case _ => FinishEnds(a, s, next.pc.c, true, point, n - 1);
  }

  /** Left alone, an accepted call takes the checkpoint, unless its commit is already listed. */
  lemma CheckpointSucceeds(a: Attempt, s: Local, n: nat)
    requires Valid(a) && Stands(a, s, Old) && n >= 7
    ensures a.git.branch.Some? && Ends(a, Drive(s, BeginCheckpoint(a.message, a.author), n))
  {
    hide CreationStep;
    hide ClosingStep;
    hide IntegratingStep;
    hide DroppingStep;
    hide StepBeginRecover;
    hide StepFinishCheckpoint;
    hide StepAdvanceBranch;
    hide StepResetIndex;
    hide StepDeleteCheckpointRef;
    hide StepRecordCheckpoint;
    hide Ends;
    hide Step;
    hide Stands;
    hide IsPrepared;
    hide StepBeginCheckpoint;
    var begin := BeginCheckpoint(a.message, a.author);
    HasBranch(a);
    Unfolds(s, begin);
    BeginStays(a, s);
    var next := StepBeginCheckpoint(s, a.message, a.author);
    Unfolds(next.s, next.pc);
    JournaledStands(a, next.s, next.pc.c);
    FinishEnds(a, Save(next.s, next.pc.c), next.pc.c, false, Journaled, n - 2);
  }

  lemma JournaledStands(a: Attempt, s: Local, c: Capsule)
    requires Valid(a) && At(a, s, JournalCheckpoint(c))
    ensures Stands(a, Save(s, c), Journaled) && Save(s, c).cell.store.manifest == Some(c)
  {
    hide IsPrepared;
  }

  // ---- the theorem ----

  /** What `checkpoint` found, in a reachable state. */
  predicate Accepted(a: Attempt, m: State) {
    && CellOf(m.world, a.id).store.manifest == Some(a.open)
    && CellOf(m.world, a.id).git == a.git
    && a.open.state.Active?
    && Owned(a.git, a.open)
    && a.git.checkpointRef.None?
    && Diff(Before(a).tree, a.git.tree) != map[]
    && |a.open.checkpoints| < CHECKPOINT_COUNT_CAP
  }

  function Called(a: Attempt, before: seq<Event>): State {
    Occur(RunFrom(INITIAL, before), Start(TakeCheckpoint(a.id, a.message, a.author)))
  }

  lemma CallStands(a: Attempt, before: seq<Event>)
    requires Accepted(a, RunFrom(INITIAL, before)) && Finished(RunFrom(INITIAL, before).proc)
    ensures Valid(a) && Phase(a, Called(a, before))
  {
    hide RunFrom;
    hide Diff;
    ManifestsStayAccepted(before, a.id);
  }

  /** Nothing of the attempt is visible: the old HEAD, the old list, no ref. */
  predicate Undone(a: Attempt, m: State) {
    CellOf(m.world, a.id).store.manifest == Some(a.open) && CellOf(m.world, a.id).git == a.git
  }

  /** The capsule is active again, HEAD and index are at the prepared commit, no ref is left, and the
      checkpoint was appended once. */
  predicate Taken(a: Attempt, m: State)
    requires a.git.branch.Some?
  {
    var c, g := CellOf(m.world, a.id).store.manifest, CellOf(m.world, a.id).git;
    && c.Some?
    && c.value.state.Active?
    && |c.value.checkpoints| == |a.open.checkpoints| + 1
    && c.value.checkpoints[..|a.open.checkpoints|] == a.open.checkpoints
    && c.value.checkpoints[|a.open.checkpoints|].commit == After(a)
    && c.value.checkpoints[|a.open.checkpoints|].message == a.message
    && c.value.checkpoints[|a.open.checkpoints|].author == a.author
    && c.value.(checkpoints := a.open.checkpoints) == a.open
    && g == a.git.(branch := Some(After(a)), index := a.git.tree)
  }

  lemma PointsMean(a: Attempt, m: State)
    requires Valid(a)
    ensures Stands(a, View(m.world, a.id), Old) ==> Undone(a, m)
    ensures Stands(a, View(m.world, a.id), Appended) ==> Taken(a, m)
  {
    hide Diff;
    hide Owned;
    HasBranch(a);
  }

  lemma PhaseRests(a: Attempt, m: State)
    requires Valid(a) && a.git.branch.Some? && Phase(a, m)
    ensures Rests(a, View(m.world, a.id))
  {
    hide Valid;
    hide At;
    hide Rests;
    if Serves(m.proc, a.id) {
      AtRests(a, View(m.world, a.id), m.proc.pc);
    }
  }

  /** Checkpoint atomicity. An accepted call may be interrupted anywhere, recovery included. If it
      had not yet written its journal, the next recovery undoes it entirely; if it had, recovery
      completes it entirely, unless the prepared commit is one the capsule already lists: then
      recovery fails and the capsule stays `Checkpointing`. */
  lemma CheckpointIsAtomic(a: Attempt, before: seq<Event>, during: seq<Event>, n: nat)
    requires Accepted(a, RunFrom(INITIAL, before)) && Finished(RunFrom(INITIAL, before).proc)
    requires AllCalm(a, during) && n >= 5
    ensures a.git.branch.Some?
    ensures Decided(a, RunFrom(Called(a, before), during), n)
  {
    hide RunFrom;
    hide Called;
    hide AllCalm;
    hide Phase;
    hide Decided;
    CallStands(a, before);
    RunStays(a, Called(a, before), during);
    Outcome(a, RunFrom(Called(a, before), during), n);
  }

  /** What a death in `m` and the recovery after it come to. */
  predicate Decided(a: Attempt, m: State, n: nat)
    requires a.git.branch.Some?
  {
    var after := RunFrom(m, Sweep(a.id, n));
    if CellOf(m.world, a.id).store.manifest == Some(a.open) then Undone(a, after)
    else if !AlreadyRecorded(a) then Taken(a, after)
    else Stands(a, View(after.world, a.id), Unpinned) && after.proc == Running(a.id, None, Done(Failed))
  }

  lemma Outcome(a: Attempt, m: State, n: nat)
    requires Valid(a) && a.git.branch.Some? && Phase(a, m) && n >= 5
    ensures Decided(a, m, n)
  {
    hide RunFrom;
    hide Sweep;
    hide Phase;
    hide Stands;
    hide Undone;
    hide Taken;
    hide Drive;
    hide Diff;
    hide AlreadyRecorded;
    PhaseRests(a, m);
    var s := View(m.world, a.id);
    var point :| Stands(a, s, point);
    RecoverySettles(a, s, point, n);
    SweepIsDrive(m, a.id, n);
    PointsMean(a, RunFrom(m, Sweep(a.id, n)));
    OpenMeans(a, s, point);
  }

  lemma OpenMeans(a: Attempt, s: Local, point: Point)
    requires Valid(a) && Stands(a, s, point)
    ensures s.cell.store.manifest == Some(a.open) <==> point.Old? || point.Pinned?
    ensures point.Appended? ==> !AlreadyRecorded(a)
  {
    hide Diff;
    hide AlreadyRecorded;
    HasBranch(a);
  }

  // ---- the checkpoint that cannot be recorded ----

  /** What a process finding it there can be doing: nothing that changes anything. */
  lemma UnrecordableStep(a: Attempt, s: Local, pc: PC)
    requires Valid(a) && AlreadyRecorded(a) && At(a, s, pc) && Stands(a, s, Unpinned)
    ensures Stands(a, Step(s, pc).s, Unpinned)
  {
    hide ClosingStep;
    hide IntegratingStep;
    hide DroppingStep;
    hide StepBeginCheckpoint;
    hide StepAdvanceBranch;
    hide StepResetIndex;
    hide Step;
    hide AlreadyRecorded;
    hide StepFinishCheckpoint;
    hide StepDeleteCheckpointRef;
    hide StepRecordCheckpoint;
    hide StepBeginRecover;
    hide StepMaterialize;
    hide Valid;
    hide Stands;
    Unfolds(s, pc);
    AtUnpinned(a, s, pc);
    if pc.FinishCheckpoint? {
      FinishStays(a, s, pc.c, pc.sweep, Unpinned);
      UnpinnedFinish(a, s, pc.c, pc.sweep);
    } else if pc.DeleteCheckpointRef? {
      DeleteStays(a, s, pc.c, false);
    } else if pc.RecordCheckpoint? {
      RecordStays(a, s, pc.c);
    } else if pc.BeginRecover? {
      RecoverStays(a, s, Unpinned);
    } else if pc.Materialize? {
      MaterializeStays(a, s, pc.record);
    }
  }

  lemma UnpinnedFinish(a: Attempt, s: Local, c: Capsule, sweep: bool)
    requires Valid(a) && Stands(a, s, Unpinned) && s.cell.store.manifest == Some(c)
    ensures Stands(a, StepFinishCheckpoint(s, c, sweep).s, Unpinned)
  {
    hide Diff;
    StillOwned(a, s, c, Unpinned);
    JournalReproduces(a, c);
  }

  lemma AtUnpinned(a: Attempt, s: Local, pc: PC)
    requires Valid(a) && At(a, s, pc) && Stands(a, s, Unpinned)
    ensures pc.FinishCheckpoint? || pc.DeleteCheckpointRef? || pc.RecordCheckpoint? || pc.BeginRecover?
            || pc.Materialize? || pc.Done?
    ensures pc.FinishCheckpoint? || pc.DeleteCheckpointRef? || pc.RecordCheckpoint? ==>
              s.cell.store.manifest == Some(pc.c)
    ensures pc.DeleteCheckpointRef? ==> !pc.pending
    ensures pc.Materialize? ==> Rests(a, s)
  {
    hide Diff;
    hide Rests;
    hide AlreadyRecorded;
    HasBranch(a);
  }

  lemma UnrecordableStays(a: Attempt, m: State, e: Event)
    requires Valid(a) && AlreadyRecorded(a) && Phase(a, m) && Calm(a, e)
    requires Stands(a, View(m.world, a.id), Unpinned)
    ensures Stands(a, View(Occur(m, e).world, a.id), Unpinned)
  {
    hide Valid;
    hide Stands;
    hide AlreadyRecorded;
    hide At;
    hide Step;
    hide SameRequest;
    HasBranch(a);
    var s, t := View(m.world, a.id), View(Occur(m, e).world, a.id);
    if e.Advanced? && Serves(m.proc, a.id) {
      UnrecordableStep(a, s, m.proc.pc);
      SameCellStands(a, Step(s, m.proc.pc).s, t, Unpinned);
    } else {
      SameCellStands(a, s, t, Unpinned);
    }
  }

  /** From there every recovery fails, for ever, as long as nobody outside touches the capsule. */
  lemma {:induction false} UnrecordableForEver(a: Attempt, m: State, events: seq<Event>, n: nat)
    requires Valid(a) && AlreadyRecorded(a) && Phase(a, m) && AllCalm(a, events) && n >= 5
    requires Stands(a, View(m.world, a.id), Unpinned)
    ensures var end := RunFrom(m, events);
            && Stands(a, View(end.world, a.id), Unpinned)
            && RunFrom(end, Sweep(a.id, n)).proc == Running(a.id, None, Done(Failed))
    decreases |events|
  {
    hide Valid;
    hide Stands;
    hide AlreadyRecorded;
    hide Phase;
    hide Calm;
    hide Occur;
    hide Sweep;
    hide Drive;
    HasBranch(a);
    if events == [] {
      assert RunFrom(m, events) == m;
      SweepIsDrive(m, a.id, n);
      RecoverySettles(a, View(m.world, a.id), Unpinned, n);
    } else {
      assert Calm(a, events[0]);
      OccurStays(a, m, events[0]);
      UnrecordableStays(a, m, events[0]);
      UnrecordableForEver(a, Occur(m, events[0]), events[1..], n);
    }
  }

  /** All the while, a journaled commit is held by the pending ref or by the branch, and recovery
      never comes to re-create a lost ref. */
  lemma JournaledCommitStaysReachable(a: Attempt, before: seq<Event>, during: seq<Event>)
    requires Accepted(a, RunFrom(INITIAL, before)) && Finished(RunFrom(INITIAL, before).proc)
    requires AllCalm(a, during)
    ensures var m := RunFrom(Called(a, before), during);
            var cell := CellOf(m.world, a.id);
            && cell.store.manifest.Some?
            && (cell.store.manifest.value.journal.Some? ==>
                  var j := cell.store.manifest.value.journal.value;
                  cell.git.checkpointRef == Some(j.headAfter) || cell.git.branch == Some(j.headAfter))
            && (Serves(m.proc, a.id) ==> !m.proc.pc.AdvanceBranch?)
  {
    hide RunFrom;
    hide Called;
    hide AllCalm;
    hide Phase;
    hide Diff;
    hide AlreadyRecorded;
    CallStands(a, before);
    RunStays(a, Called(a, before), during);
    PhaseHolds(a, RunFrom(Called(a, before), during));
  }

  lemma PhaseHolds(a: Attempt, m: State)
    requires Valid(a) && a.git.branch.Some? && Phase(a, m)
    ensures var cell := CellOf(m.world, a.id);
            && cell.store.manifest.Some?
            && (cell.store.manifest.value.journal.Some? ==>
                  var j := cell.store.manifest.value.journal.value;
                  cell.git.checkpointRef == Some(j.headAfter) || cell.git.branch == Some(j.headAfter))
            && (Serves(m.proc, a.id) ==> !m.proc.pc.AdvanceBranch?)
  {
    hide Diff;
    hide Owned;
    PhaseRests(a, m);
    var point :| Stands(a, View(m.world, a.id), point);
  }
}
