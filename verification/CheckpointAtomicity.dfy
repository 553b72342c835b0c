/** A checkpoint interrupted anywhere, and its recovery, in an undisturbed workspace. */
module CheckpointAtomicity {
  import opened Model
  import opened Git
  import opened World
  import opened Machine
  import opened Isolation
  import opened Sweeps

  /** One call of `checkpoint`: the open capsule it found, and the Git side as it stood. */
  datatype Attempt = Attempt(id: string, message: string, author: Author, open: Capsule, git: GitSide)

  /** There is something to checkpoint and room to record it, and no ref is left over. */
  predicate Valid(a: Attempt) {
    && a.open.state.Active?
    && a.open.journal.None?
    && Owned(a.git, a.open)
    && a.git.checkpointRef.None?
    && Diff(a.git.branch.value.tree, a.git.tree) != map[]
    && |a.open.checkpoints| < CHECKPOINT_COUNT_CAP
  }

  /** The same commit was recorded before. */
  predicate AlreadyRecorded(a: Attempt)
    requires a.git.branch.Some?
  {
    exists k | 0 <= k < |a.open.checkpoints| :: a.open.checkpoints[k].commit == After(a)
  }

  function Before(a: Attempt): Commit
    requires a.git.branch.Some?
  {
    a.git.branch.value
  }

  /** The prepared commit: the workspace exactly, on top of the old HEAD. */
  function After(a: Attempt): Commit
    requires a.git.branch.Some?
  {
    Commit([Before(a)], a.git.tree, a.message, a.author)
  }

  /** As long as every listed checkpoint is behind HEAD, as it is while nobody moves the branch back,
      a prepared commit is never one of them. */
  lemma NewAboveTheList(a: Attempt)
    requires a.git.branch.Some?
    requires forall k | 0 <= k < |a.open.checkpoints| :: Ancestor(a.open.checkpoints[k].commit, Before(a))
    ensures !AlreadyRecorded(a)
  {
    ParentsAreShallower(After(a).parents, 0);
    forall k | 0 <= k < |a.open.checkpoints|
      ensures a.open.checkpoints[k].commit != After(a)
    {
      AncestorsAreShallower(a.open.checkpoints[k].commit, Before(a));
    }
  }

  lemma HasBranch(a: Attempt)
    requires Valid(a)
    ensures a.git.branch.Some?
  {
    hide Diff;
  }

  function JournalAt(a: Attempt, now: nat): Journal
    requires a.git.branch.Some?
  {
    Journal(Before(a), After(a), OfPatch(Diff(Before(a).tree, a.git.tree)), a.message, a.author, now)
  }

  function Prepared(a: Attempt, now: nat): Capsule
    requires a.git.branch.Some?
  {
    a.open.(state := Checkpointing, journal := Some(JournalAt(a, now)))
  }

  /** Everything as before, and one checkpoint more. */
  function Completed(a: Attempt, now: nat): Capsule
    requires a.git.branch.Some?
  {
    a.open.(checkpoints := a.open.checkpoints + [Checkpoint(After(a), a.message, a.author, now)])
  }

  predicate IsPrepared(a: Attempt, c: Capsule)
    requires a.git.branch.Some?
  {
    c.journal.Some? && c == Prepared(a, c.journal.value.startedAt)
  }

  predicate IsCompleted(a: Attempt, c: Capsule)
    requires a.git.branch.Some?
  {
    && |c.checkpoints| == |a.open.checkpoints| + 1
    && c == Completed(a, c.checkpoints[|a.open.checkpoints|].createdAt)
  }

  /** Where the durable state stands: which of the five effects have happened. */
  datatype Point = Old | Pinned | Journaled | Moved | Indexed | Unpinned | Appended

  function GitAt(a: Attempt, point: Point): GitSide
    requires a.git.branch.Some?
  {
    var pin, g := Some(After(a)), a.git;
    match point
    case Old => g
    case Pinned => g.(checkpointRef := pin)
    case Journaled => g.(checkpointRef := pin)
    case Moved => g.(checkpointRef := pin, branch := pin)
    case Indexed => g.(checkpointRef := pin, branch := pin, index := a.git.tree)
    case Unpinned => g.(branch := pin, index := a.git.tree)
    case Appended => g.(branch := pin, index := a.git.tree)
  }

  predicate ManifestAt(a: Attempt, manifest: Option<Capsule>, point: Point)
    requires a.git.branch.Some?
  {
    match point
    case Old => manifest == Some(a.open)
    case Pinned => manifest == Some(a.open)
    case Appended => manifest.Some? && IsCompleted(a, manifest.value) && !AlreadyRecorded(a)
    case _ => manifest.Some? && IsPrepared(a, manifest.value)
  }

  predicate Stands(a: Attempt, s: Local, point: Point)
    requires a.git.branch.Some?
  {
    ManifestAt(a, s.cell.store.manifest, point) && s.cell.git == GitAt(a, point)
  }

  ghost predicate Rests(a: Attempt, s: Local)
    requires a.git.branch.Some?
  {
    exists point :: Stands(a, s, point)
  }

  /** Where it stands while a process serves the capsule. Re-creating the lost ref, which is what
      leads to `AdvanceBranch`, is on no such path. */
  ghost predicate At(a: Attempt, s: Local, pc: PC)
    requires a.git.branch.Some?
  {
    match pc
    case BeginCheckpoint(message, author) => message == a.message && author == a.author && Stands(a, s, Old)
    case JournalCheckpoint(c) => IsPrepared(a, c) && Stands(a, s, Pinned)
    case FinishCheckpoint(c, _) =>
      && s.cell.store.manifest == Some(c)
      && (Stands(a, s, Journaled) || Stands(a, s, Moved) || Stands(a, s, Indexed) || Stands(a, s, Unpinned))
    case ResetIndex(c, pending) => pending && s.cell.store.manifest == Some(c) && Stands(a, s, Moved)
    case DeleteCheckpointRef(c, pending) =>
      s.cell.store.manifest == Some(c) && Stands(a, s, if pending then Indexed else Unpinned)
    case RecordCheckpoint(c) => s.cell.store.manifest == Some(c) && Stands(a, s, Unpinned)
    case Write(c) => c == a.open && Stands(a, s, Old)
    case Materialize(_) => Rests(a, s)
    case BeginRecover => Rests(a, s)
    case Done(_) => Rests(a, s)
    case _ => false
  }

  // ---- steps ----

  lemma CommitIsAfter(a: Attempt)
    requires a.git.branch.Some?
    ensures CommitPatch(Before(a), Diff(Before(a).tree, a.git.tree), a.message, a.author) == Some(After(a))
    ensures After(a) != Before(a)
  {
    ApplyDiff(Before(a).tree, a.git.tree);
    assert Height(After(a)) == Height(Before(a)) + 1;
    hide Diff;
    hide Apply;
  }

  lemma BeginStays(a: Attempt, s: Local)
    requires Valid(a) && Stands(a, s, Old)
    ensures var n := StepBeginCheckpoint(s, a.message, a.author); At(a, n.s, n.pc) && n.pc.JournalCheckpoint?
  {
    hide Diff;
    hide CommitPatch;
    CommitIsAfter(a);
  }

  lemma JournalStays(a: Attempt, s: Local, c: Capsule)
    requires Valid(a) && IsPrepared(a, c) && Stands(a, s, Pinned)
    ensures At(a, Save(s, c), FinishCheckpoint(c, false))
  {
    hide IsPrepared;
    assert Stands(a, Save(s, c), Journaled);
  }

  /** The worktree stays owned, and the journal stays provable from Git, at every point. */
  lemma StillOwned(a: Attempt, s: Local, c: Capsule, point: Point)
    requires Valid(a) && Stands(a, s, point) && s.cell.store.manifest == Some(c)
    ensures Owned(s.cell.git, c)
  {
    hide Diff;
  }

  lemma JournalReproduces(a: Attempt, c: Capsule)
    requires Valid(a) && IsPrepared(a, c)
    ensures c.journal.Some?
    ensures var j := c.journal.value;
            && j.headBefore == Before(a)
            && j.headAfter == After(a)
            && j.headAfter.parents == [j.headBefore]
            && OfPatch(Diff(j.headBefore.tree, j.headAfter.tree)) == j.patchSha256
            && After(a) != Before(a)
  {
    hide Diff;
    CommitIsAfter(a);
  }

  lemma FinishStays(a: Attempt, s: Local, c: Capsule, sweep: bool, point: Point)
    requires Valid(a) && Stands(a, s, point) && s.cell.store.manifest == Some(c)
    requires point.Journaled? || point.Moved? || point.Indexed? || point.Unpinned?
    ensures var n := StepFinishCheckpoint(s, c, sweep);
            && At(a, n.s, n.pc)
            && n.pc == match point
                       case Journaled => ResetIndex(c, true)
                       case Unpinned => DeleteCheckpointRef(c, false)
                       case _ => DeleteCheckpointRef(c, true)
  {
    hide Diff;
    hide IsPrepared;
    StillOwned(a, s, c, point);
    JournalReproduces(a, c);
  }

  lemma ResetStays(a: Attempt, s: Local, c: Capsule)
    requires Valid(a) && Stands(a, s, Moved) && s.cell.store.manifest == Some(c)
    ensures var n := StepResetIndex(s, c, true);
            n.pc == DeleteCheckpointRef(c, true) && Stands(a, n.s, Indexed) && n.s.cell.store == s.cell.store
  {
    hide Diff;
    JournalReproduces(a, c);
  }

  lemma DeleteStays(a: Attempt, s: Local, c: Capsule, pending: bool)
    requires Valid(a) && Stands(a, s, if pending then Indexed else Unpinned) && s.cell.store.manifest == Some(c)
    ensures var n := StepDeleteCheckpointRef(s, c, pending);
            n.pc == RecordCheckpoint(c) && Stands(a, n.s, Unpinned) && n.s.cell.store == s.cell.store
  {
    hide Diff;
    JournalReproduces(a, c);
  }

  /** The record step refuses a commit the capsule already lists, and only that. */
  lemma RecordStays(a: Attempt, s: Local, c: Capsule)
    requires Valid(a) && Stands(a, s, Unpinned) && s.cell.store.manifest == Some(c)
    ensures var n := StepRecordCheckpoint(s, c);
            if AlreadyRecorded(a) then n == Fail(s) else Stands(a, n.s, Appended) && n.pc.Done? && !n.pc.outcome.Failed?
  {
    hide Diff;
    JournalReproduces(a, c);
  }

  lemma RecoverStays(a: Attempt, s: Local, point: Point)
    requires Valid(a) && Stands(a, s, point)
    ensures s.cell.store.manifest.Some?
    ensures var n := StepBeginRecover(s);
            && At(a, n.s, n.pc)
            && match point
               case Old => n.s == s && n.pc == Done(NoAction)
               case Appended => n.s == s && n.pc == Done(NoAction)
               case Pinned => Stands(a, n.s, Old) && n.pc == Write(a.open)
               case _ => n.s == s && n.pc == FinishCheckpoint(s.cell.store.manifest.value, true)
  {
    hide Diff;
    hide RecoverIntegrating;
    if point.Pinned? {
      assert StepBeginRecover(s).s.cell.git == a.git;
    }
    StillOwned(a, s, s.cell.store.manifest.value, point);
  }

  lemma MaterializeStays(a: Attempt, s: Local, record: Reservation<string, Commit>)
    requires Valid(a) && Rests(a, s)
    ensures var n := StepMaterialize(s, record); n.s == s && n.pc.Done?
  {
    hide Agrees;
    hide Diff;
  }

  lemma RestsAt(a: Attempt, s: Local, point: Point)
    requires Valid(a) && Stands(a, s, point)
    ensures Rests(a, s)
  {
    hide Stands;
    hide Valid;
  }

  lemma StepStays(a: Attempt, s: Local, pc: PC)
    requires Valid(a) && At(a, s, pc)
    ensures var n := Step(s, pc); At(a, n.s, n.pc)
  {
    hide Valid;
    hide Stands;
    hide ClosingStep;
    hide IntegratingStep;
    hide DroppingStep;
    hide StepBeginRecover;
    hide StepBeginCheckpoint;
    hide StepFinishCheckpoint;
    hide StepResetIndex;
    hide StepDeleteCheckpointRef;
    hide StepRecordCheckpoint;
    hide StepMaterialize;
    HasBranch(a);
    var n := Step(s, pc);
    match pc
    case BeginCheckpoint(_, _) => BeginStays(a, s);
    case JournalCheckpoint(c) => JournalStays(a, s, c);
    case FinishCheckpoint(c, sweep) =>
      var point :| Stands(a, s, point) && (point.Journaled? || point.Moved? || point.Indexed? || point.Unpinned?);
      FinishStays(a, s, c, sweep, point);
    case ResetIndex(c, _) => ResetStays(a, s, c);
    case DeleteCheckpointRef(c, pending) => DeleteStays(a, s, c, pending);
    case RecordCheckpoint(c) =>
      RecordStays(a, s, c);
      RestsAt(a, n.s, if AlreadyRecorded(a) then Unpinned else Appended);
    case Write(c) => WriteStays(a, s);
    case Materialize(record) => MaterializeStays(a, s, record);
    case BeginRecover =>
      var point :| Stands(a, s, point);
      RecoverStays(a, s, point);
    case Done(_) =>
  }

  lemma WriteStays(a: Attempt, s: Local)
    requires Valid(a) && Stands(a, s, Old)
    ensures Stands(a, Save(s, a.open), Old) && Rests(a, Save(s, a.open))
  {
    hide Diff;
    assert Save(s, a.open) == s;
  }

  lemma AtRests(a: Attempt, s: Local, pc: PC)
    requires Valid(a) && At(a, s, pc)
    ensures Rests(a, s)
  {
    hide Valid;
    hide Stands;
    HasBranch(a);
  }

  // ---- runs ----

  /** Nobody touches this capsule but its own recovery; everything else may go on around it. */
  predicate Calm(a: Attempt, e: Event) {
    match e
    case Start(op) => LeavesAlone(op, a.id)
    case External(Disturb(id, _)) => id != a.id
    case _ => true
  }

  predicate AllCalm(a: Attempt, events: seq<Event>) {
    forall i | 0 <= i < |events| :: Calm(a, events[i])
  }

  ghost predicate Phase(a: Attempt, m: State)
    requires a.git.branch.Some?
  {
    if Serves(m.proc, a.id) then At(a, View(m.world, a.id), m.proc.pc)
    else Rests(a, View(m.world, a.id))
  }

  lemma StandsFrame(a: Attempt, s: Local, t: Local, pc: PC)
    requires a.git.branch.Some? && t.cell == s.cell
    ensures At(a, s, pc) ==> At(a, t, pc)
    ensures Rests(a, s) ==> Rests(a, t)
  {
    hide Stands;
    forall point
      ensures Stands(a, s, point) == Stands(a, t, point)
    {
      SameCellStands(a, s, t, point);
    }
  }

  lemma SameCellStands(a: Attempt, s: Local, t: Local, point: Point)
    requires a.git.branch.Some? && t.cell == s.cell
    ensures Stands(a, s, point) == Stands(a, t, point)
  {
    hide ManifestAt;
    hide GitAt;
  }

  lemma RestsHasManifest(a: Attempt, s: Local)
    requires a.git.branch.Some? && Rests(a, s)
    ensures s.cell.store.manifest.Some?
  {}

  lemma RestsAnywhere(a: Attempt, s: Local)
    requires a.git.branch.Some?
    ensures Rests(a, s) ==> forall record :: At(a, s, Materialize(record))
    ensures Rests(a, s) ==> At(a, s, BeginRecover)
  {
    hide Stands;
  }

  lemma StartStays(a: Attempt, m: State, op: Op)
    requires Valid(a) && Phase(a, m) && Calm(a, Start(op)) && Finished(m.proc)
    ensures Phase(a, State(m.world, Begin(m.world, op)))
  {
    hide Rests;
    hide At;
    hide Owned;
    hide Diff;
    hide InitialCapsule;
    var s := View(m.world, a.id);
    HasBranch(a);
    if Serves(m.proc, a.id) {
      AtRests(a, s, m.proc.pc);
    }
    RestsHasManifest(a, s);
    RestsAnywhere(a, s);
  }

  lemma AdvancedStays(a: Attempt, m: State)
    requires Valid(a) && a.git.branch.Some? && Phase(a, m)
    ensures Phase(a, StepProc(m))
  {
    hide Valid;
    hide Step;
    hide Rests;
    hide At;
    hide SameRequest;
    var s := View(m.world, a.id);
    var t := View(StepProc(m).world, a.id);
    if Serves(m.proc, a.id) {
      StepStays(a, s, m.proc.pc);
      StandsFrame(a, Step(s, m.proc.pc).s, t, Step(s, m.proc.pc).pc);
    } else {
      StandsFrame(a, s, t, Done(Failed));
      RestsAnywhere(a, t);
    }
  }

  lemma OccurStays(a: Attempt, m: State, e: Event)
    requires Valid(a) && a.git.branch.Some? && Phase(a, m) && Calm(a, e)
    ensures Phase(a, Occur(m, e))
  {
    hide Valid;
    hide Rests;
    hide At;
    hide StepProc;
    hide Begin;
    var s := View(m.world, a.id);
    match e
    case Start(op) =>
      if Finished(m.proc) {
        StartStays(a, m, op);
      }
    case Advanced => AdvancedStays(a, m);
    case Crash =>
      if Serves(m.proc, a.id) {
        AtRests(a, s, m.proc.pc);
      }
    case External(move) =>
      StandsFrame(a, s, View(ApplyMove(m.world, move), a.id), if m.proc.Running? then m.proc.pc else Done(Failed));
  }

  lemma {:induction false} RunStays(a: Attempt, m: State, events: seq<Event>)
    requires Valid(a) && a.git.branch.Some? && Phase(a, m) && AllCalm(a, events)
    ensures Phase(a, RunFrom(m, events))
    decreases |events|
  {
    hide Valid;
    hide Phase;
    hide Calm;
    hide Occur;
    if events == [] {
    } else {
      assert Calm(a, events[0]);
      OccurStays(a, m, events[0]);
      RunStays(a, Occur(m, events[0]), events[1..]);
    }
  }
}
