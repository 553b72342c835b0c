/** What an interrupted keyed creation ends as when it is retried, over whole runs. */
module CreationOutcome {
  import opened Model
  import opened Git
  import opened World
  import opened Machine
  import opened Invariant
  import opened Runs
  import opened Isolation
  import opened Sweeps
  import Reconciliation

  /** One published reservation and the key it is published under. */
  datatype Attempt = Attempt(key: string, record: Reservation<string, Commit>)

  predicate Valid(a: Attempt) {
    ValidId(a.record.id)
  }

  /** The manifest creation publishes, the one it ends with, and the one it gives up with. */
  function Initial(a: Attempt): Capsule
    requires Valid(a)
  {
    var r := a.record;
    InitialCapsule(r.id, r.title, r.links, r.source, r.commonDir, r.baseCommit, r.reservedAt)
  }

  function Active(a: Attempt): Capsule
    requires Valid(a)
  {
    Initial(a).(state := CapsuleState.Active, gitDir := Some(a.record.id))
  }

  function Orphan(a: Attempt): Capsule
    requires Valid(a)
  {
    Initial(a).(state := Orphaned)
  }

  // ---- where it can stand ----

  datatype Point = Reserved | Published | Branched | Linked | CheckedOut | Ready | Abandoned

  predicate Bare(g: GitSide, branch: Option<Commit>) {
    g.source && g.entry == Missing && g.registration.None? && g.branch == branch && g.checkpointRef.None?
  }

  predicate HasWorktree(a: Attempt, g: GitSide) {
    && g.source
    && g.entry == Entry.Linked(a.record.id)
    && g.registration == Some(Registration(a.record.id, true))
    && g.branch == Some(a.record.baseCommit)
    && g.checkpointRef.None?
  }

  predicate CleanAt(g: GitSide, base: Commit) {
    g.tree == g.index == base.tree
  }

  predicate Stands(a: Attempt, s: Local, point: Point)
    requires Valid(a)
  {
    var store, g, base := s.cell.store, s.cell.git, a.record.baseCommit;
    match point
    case Reserved => EmptyStore(store) && Bare(g, None)
    case Published => store.manifest == Some(Initial(a)) && Bare(g, None)
    case Branched => store.manifest == Some(Initial(a)) && Bare(g, Some(base))
    case Linked => store.manifest == Some(Initial(a)) && HasWorktree(a, g) && Unchecked(g)
    case CheckedOut => store.manifest == Some(Initial(a)) && HasWorktree(a, g) && CleanAt(g, base)
    case Ready => store.manifest == Some(Active(a)) && HasWorktree(a, g) && CleanAt(g, base)
    case Abandoned => store.manifest == Some(Orphan(a)) && Bare(g, Some(base))
  }

  ghost predicate Rests(a: Attempt, s: Local)
    requires Valid(a)
  {
    exists point :: Stands(a, s, point)
  }

  predicate Ended(a: Attempt, s: Local, c: Capsule)
    requires Valid(a)
  {
    s.cell.store.manifest == Some(c) && (Stands(a, s, Ready) || Stands(a, s, Abandoned))
  }

  predicate Begun(a: Attempt, s: Local)
    requires Valid(a)
  {
    Stands(a, s, Published) || Stands(a, s, Branched) || Stands(a, s, Point.Linked) || Stands(a, s, CheckedOut)
  }

  /** Where it stands while a process serves the capsule; `outcome` is not yet told to anybody. */
  ghost predicate At(a: Attempt, s: Local, pc: PC)
    requires Valid(a)
  {
    match pc
    case Materialize(record) => record == a.record && Rests(a, s)
    case Prepare(c, reserved) => c == Initial(a) && reserved && Stands(a, s, Reserved)
    case Publish(c, reserved) => c == Initial(a) && reserved && Stands(a, s, Reserved)
    case CompleteCreating(c, allowOrphan, _) => c == Initial(a) && allowOrphan && Begun(a, s)
    case AddWorktree(c, _) => c == Initial(a) && Stands(a, s, Branched)
    case CheckOut(c, _) => c == Initial(a) && Stands(a, s, Point.Linked)
    case Activate(c, created, _) =>
      Stands(a, s, CheckedOut) && c == if created then Initial(a) else Initial(a).(gitDir := Some(a.record.id))
    case Write(c) => Ended(a, s, c)
    case BeginRecover => Rests(a, s)
    case Done(outcome) => Rests(a, s) && (outcome.Succeeded? ==> Ended(a, s, outcome.capsule))
    case _ => false
  }

  /** The branch was made and the worktree was not: what recovery cannot tell from somebody's branch. */
  predicate Cut(a: Attempt, s: Local) {
    && s.cell.git.entry == Missing
    && s.cell.git.branch.Some?
    && s.cell.store.manifest.Some?
  }

  // ---- steps ----

  lemma InitialAgrees(a: Attempt)
    requires Valid(a)
    ensures Agrees(a.record, Initial(a)) && Agrees(a.record, Active(a)) && Agrees(a.record, Orphan(a))
    ensures Initial(a).state.Creating? && Initial(a).gitDir.None? && Initial(a).identity.base == a.record.baseCommit
    ensures Initial(a).identity.id == a.record.id
  {}

  /** A step keeps to the plan, and neither dooms the creation nor saves it. */
  predicate Follows(a: Attempt, s: Local, pc: PC, n: Next)
    requires Valid(a)
  {
    (Cut(a, n.s) && !n.pc.AddWorktree?) == (Cut(a, s) && !pc.AddWorktree?)
  }

  /** The call has neither failed nor found nothing to do. */
  predicate Onward(pc: PC) {
    !pc.BeginRecover? && (pc.Done? ==> pc.outcome.Succeeded?)
  }

  lemma MaterializeStays(a: Attempt, s: Local)
    requires Valid(a) && Rests(a, s)
    ensures var n := StepMaterialize(s, a.record);
            At(a, n.s, n.pc) && Follows(a, s, Materialize(a.record), n) && Onward(n.pc)
  {
    hide Agrees;
    hide Initial;
    hide Unchecked;
    InitialAgrees(a);
    InitialIs(a);
    var point :| Stands(a, s, point);
  }

  lemma InitialIs(a: Attempt)
    requires Valid(a)
    ensures Initial(a) == InitialCapsule(a.record.id, a.record.title, a.record.links, a.record.source,
                                         a.record.commonDir, a.record.baseCommit, a.record.reservedAt)
  {}

  lemma PrepareStays(a: Attempt, s: Local, pc: PC)
    requires Valid(a) && At(a, s, pc) && (pc.Prepare? || pc.Publish?)
    ensures var n := CreationStep(s, pc); At(a, n.s, n.pc) && Follows(a, s, pc, n) && Onward(n.pc)
  {
    hide Initial;
  }

  lemma CompleteStays(a: Attempt, s: Local, sweep: bool)
    requires Valid(a) && Begun(a, s)
    ensures var pc := CompleteCreating(Initial(a), true, sweep);
            var n := StepCompleteCreating(s, Initial(a), true, sweep);
            At(a, n.s, n.pc) && Follows(a, s, pc, n) && Onward(n.pc)
  {
    hide Initial;
    InitialAgrees(a);
    var n := StepCompleteCreating(s, Initial(a), true, sweep);
    if Stands(a, s, Published) {
      assert Stands(a, n.s, Branched);
    } else if Stands(a, s, Branched) {
      assert Stands(a, n.s, Abandoned);
    } else {
      assert Stands(a, n.s, CheckedOut);
    }
  }

  lemma WorktreeStays(a: Attempt, s: Local, pc: PC)
    requires Valid(a) && At(a, s, pc) && (pc.AddWorktree? || pc.CheckOut? || pc.Activate?)
    ensures var n := CreationStep(s, pc);
            At(a, n.s, n.pc) && Follows(a, s, pc, n) && Onward(n.pc)
  {
    hide Initial;
    hide StepMaterialize;
    hide StepPrepare;
    hide StepCompleteCreating;
    InitialAgrees(a);
    var n := CreationStep(s, pc);
    if pc.AddWorktree? {
      assert Stands(a, n.s, Point.Linked);
    } else if pc.CheckOut? {
      assert Stands(a, n.s, CheckedOut);
    } else {
      assert Stands(a, n.s, Ready);
    }
  }

  lemma RecoverStays(a: Attempt, s: Local)
    requires Valid(a) && Rests(a, s)
    ensures var n := StepBeginRecover(s); At(a, n.s, n.pc) && Follows(a, s, BeginRecover, n)
  {
    hide Initial;
    hide RecoverIntegrating;
    InitialAgrees(a);
    var point :| Stands(a, s, point);
  }

  lemma WriteStays(a: Attempt, s: Local, c: Capsule)
    requires Valid(a) && Ended(a, s, c)
    ensures Save(s, c) == s && At(a, s, Done(Succeeded(c)))
  {
    hide Initial;
  }

  lemma StepStays(a: Attempt, s: Local, pc: PC)
    requires Valid(a) && At(a, s, pc)
    ensures var n := Step(s, pc);
            && At(a, n.s, n.pc) && Follows(a, s, pc, n)
            && (Onward(pc) ==> Onward(n.pc))
  {
    hide Step;
    hide Stands;
    hide Rests;
    hide Initial;
    hide CheckpointingStep;
    hide ClosingStep;
    hide IntegratingStep;
    hide DroppingStep;
    hide StepBeginRecover;
    hide StepMaterialize;
    hide StepPrepare;
    hide StepCompleteCreating;
    hide StepAddWorktree;
    hide StepCheckOut;
    hide StepActivate;
    Unfolds(s, pc);
    match pc
    case Materialize(_) => MaterializeStays(a, s);
    case Prepare(_, _) => PrepareStays(a, s, pc);
    case Publish(_, _) => PrepareStays(a, s, pc);
    case CompleteCreating(_, _, sweep) => CompleteStays(a, s, sweep);
    case AddWorktree(_, _) => WorktreeStays(a, s, pc);
    case CheckOut(_, _) => WorktreeStays(a, s, pc);
    case Activate(_, _, _) => WorktreeStays(a, s, pc);
    case Write(c) => WriteStays(a, s, c);
    case BeginRecover => RecoverStays(a, s);
    case Done(_) =>
  }

  // ---- runs ----

  /** Nobody outside touches this capsule's Git side, and no other operation is asked of it than
      keyed creation and recovery. */
  predicate Calm(a: Attempt, e: Event) {
    match e
    case Start(op) => LeavesAlone(op, a.record.id)
    case External(Disturb(id, _)) => id != a.record.id
    case _ => true
  }

  predicate AllCalm(a: Attempt, events: seq<Event>) {
    forall i | 0 <= i < |events| :: Calm(a, events[i])
  }

  predicate Registered(a: Attempt, w: World) {
    && a.key in w.reservations
    && w.reservations[a.key] == a.record
    && forall key | key in w.reservations && key != a.key :: w.reservations[key].id != a.record.id
  }

  ghost predicate Phase(a: Attempt, m: State)
    requires Valid(a)
  {
    && Registered(a, m.world)
    && var s := View(m.world, a.record.id);
       if Serves(m.proc, a.record.id) then At(a, s, m.proc.pc) else Rests(a, s)
  }

  lemma SameCellStands(a: Attempt, s: Local, t: Local)
    requires Valid(a) && t.cell == s.cell
    ensures forall point :: Stands(a, s, point) == Stands(a, t, point)
    ensures Rests(a, s) == Rests(a, t) && Cut(a, s) == Cut(a, t)
  {
    hide Initial;
    hide Active;
    hide Orphan;
    hide HasWorktree;
    hide Bare;
    forall point
      ensures Stands(a, s, point) == Stands(a, t, point)
    {
    }
    hide Stands;
    assert Rests(a, s) ==> Rests(a, t);
  }

  lemma AtFrame(a: Attempt, s: Local, t: Local, pc: PC)
    requires Valid(a) && t.cell == s.cell && At(a, s, pc)
    ensures At(a, t, pc)
  {
    hide Initial;
    hide Stands;
    hide Rests;
    SameCellStands(a, s, t);
  }

  lemma AtRests(a: Attempt, s: Local, pc: PC)
    requires Valid(a) && At(a, s, pc)
    ensures Rests(a, s) && (pc.AddWorktree? ==> Cut(a, s))
  {
    hide Initial;
    hide HasWorktree;
    hide Unchecked;
  }

  predicate Doomed(a: Attempt, m: State) {
    Cut(a, View(m.world, a.record.id)) && !(Serves(m.proc, a.record.id) && m.proc.pc.AddWorktree?)
  }

  /** The process dies after it made the branch and before it made the worktree. */
  predicate Dooms(a: Attempt, m: State, e: Event) {
    e.Crash? && Serves(m.proc, a.record.id) && m.proc.pc.AddWorktree?
  }

  lemma AdvancedStays(a: Attempt, m: State)
    requires Valid(a) && Phase(a, m)
    ensures Phase(a, StepProc(m)) && Doomed(a, StepProc(m)) == Doomed(a, m)
  {
    hide Step;
    hide Rests;
    hide At;
    hide Cut;
    hide SameRequest;
    var id := a.record.id;
    var s, t := View(m.world, id), View(StepProc(m).world, id);
    if Serves(m.proc, id) {
      StepStays(a, s, m.proc.pc);
      var n := Step(s, m.proc.pc);
      SameCellStands(a, n.s, t);
      AtFrame(a, n.s, t, n.pc);
    } else {
      SameCellStands(a, s, t);
      MaterializeAt(a, t);
    }
  }

  lemma MaterializeAt(a: Attempt, s: Local)
    requires Valid(a)
    ensures Rests(a, s) ==> At(a, s, Materialize(a.record)) && At(a, s, BeginRecover)
  {
    hide Rests;
  }

  lemma StartStays(a: Attempt, m: State, op: Op)
    requires Valid(a) && Phase(a, m) && Calm(a, Start(op)) && Finished(m.proc)
    ensures Phase(a, State(m.world, Begin(m.world, op)))
    ensures Doomed(a, State(m.world, Begin(m.world, op))) == Doomed(a, m)
  {
    hide Rests;
    hide At;
    hide Cut;
    hide InitialCapsule;
    var s := View(m.world, a.record.id);
    if Serves(m.proc, a.record.id) {
      AtRests(a, s, m.proc.pc);
    }
    MaterializeAt(a, s);
  }

  lemma OccurStays(a: Attempt, m: State, e: Event)
    requires Valid(a) && Phase(a, m) && Calm(a, e)
    ensures Phase(a, Occur(m, e)) && (Doomed(a, Occur(m, e)) <==> Doomed(a, m) || Dooms(a, m, e))
  {
    hide Rests;
    hide At;
    hide Cut;
    hide StepProc;
    hide Begin;
    var s := View(m.world, a.record.id);
    match e
    case Start(op) =>
      if Finished(m.proc) {
        StartStays(a, m, op);
      }
    case Advanced => AdvancedStays(a, m);
    case Crash =>
      if Serves(m.proc, a.record.id) {
        AtRests(a, s, m.proc.pc);
      }
    case External(move) =>
      var t := View(ApplyMove(m.world, move), a.record.id);
      SameCellStands(a, s, t);
      if Serves(m.proc, a.record.id) {
        AtFrame(a, s, t, m.proc.pc);
      }
  }

  /** Somewhere in the run the process dies there. */
  predicate DoomsIn(a: Attempt, m: State, events: seq<Event>)
    decreases |events|
  {
    events != [] && (Dooms(a, m, events[0]) || DoomsIn(a, Occur(m, events[0]), events[1..]))
  }

  lemma {:induction false} RunStays(a: Attempt, m: State, events: seq<Event>)
    requires Valid(a) && Phase(a, m) && AllCalm(a, events)
    ensures Phase(a, RunFrom(m, events))
    ensures Doomed(a, RunFrom(m, events)) <==> Doomed(a, m) || DoomsIn(a, m, events)
    decreases |events|
  {
    hide Valid;
    hide Phase;
    hide Doomed;
    hide Dooms;
    hide Calm;
    hide Occur;
    if events == [] {
    } else {
      assert Calm(a, events[0]);
      OccurStays(a, m, events[0]);
      RunStays(a, Occur(m, events[0]), events[1..]);
    }
  }

  // ---- a retry left alone ----

  lemma {:induction false} DriveStays(a: Attempt, s: Local, pc: PC, n: nat)
    requires Valid(a) && At(a, s, pc) && Onward(pc)
    ensures var end := Drive(s, pc, n); At(a, end.s, end.pc) && Onward(end.pc) && Follows(a, s, pc, end)
    decreases n
  {
    hide Valid;
    hide Step;
    hide At;
    hide Onward;
    hide Cut;
    if n == 0 {
    } else {
      StepStays(a, s, pc);
      DriveStays(a, Step(s, pc).s, Step(s, pc).pc, n - 1);
    }
  }

  lemma EndedIs(a: Attempt, s: Local, c: Capsule)
    requires Valid(a) && Ended(a, s, c)
    ensures s.cell.store.manifest == Some(c)
    ensures if Cut(a, s) then c == Orphan(a) && Bare(s.cell.git, Some(a.record.baseCommit))
            else c == Active(a) && HasWorktree(a, s.cell.git) && CleanAt(s.cell.git, a.record.baseCommit)
  {
    hide Initial;
  }

  /** The process that holds the locks dies, and the same request is made again. */
  function Retry(a: Attempt, request: Request<string, Commit>, freshId: string, n: nat): seq<Event> {
    [Crash] + ([Start(CreateKeyed(a.key, request, freshId))] + ([Advanced] + Steps(n)))
  }

  lemma RetryRuns(a: Attempt, m: State, request: Request<string, Commit>, freshId: string, n: nat)
    requires Registered(a, m.world) && SameRequest(request, a.record)
    ensures var id := a.record.id;
            var end := Drive(View(m.world, id), Materialize(a.record), n);
            var after := RunFrom(m, Retry(a, request, freshId, n));
            View(after.world, id) == end.s && after.proc == Running(id, Some(a.key), end.pc)
  {
    hide Step;
    hide SameRequest;
    var call := Start(CreateKeyed(a.key, request, freshId));
    RunNext(m, Crash, [call] + ([Advanced] + Steps(n)));
    var dead := Occur(m, Crash);
    RunNext(dead, call, [Advanced] + Steps(n));
    RunNext(Occur(dead, call), Advanced, Steps(n));
    StepsAreDrive(State(m.world, Running(a.record.id, Some(a.key), Materialize(a.record))), n);
  }

  /** The first four steps of a creation nobody disturbs: the branch is made. */
  lemma FourSteps(a: Attempt, s: Local)
    requires Valid(a) && Stands(a, s, Reserved)
    ensures Drive(s, Materialize(a.record), 4).pc.AddWorktree?
  {
    hide Step;
    hide Initial;
    hide Agrees;
    hide StepAddWorktree;
    hide StepCheckOut;
    hide StepActivate;
    var c, store := Initial(a), s.cell.store;
    InitialAgrees(a);
    InitialIs(a);
    var made := s.(cell := s.cell.(store := store.(directory := true)));
    Unfolds(s, Materialize(a.record));
    Unfolds(s, Prepare(c, true));
    Unfolds(made, Publish(c, true));
    Unfolds(Save(made, c), CompleteCreating(c, true, false));
    calc {
      Drive(s, Materialize(a.record), 4);
      Drive(s, Prepare(c, true), 3);
      Drive(made, Publish(c, true), 2);
      Drive(Save(made, c), CompleteCreating(c, true, false), 1);
    }
  }

  // ---- the theorem ----

  /** The first call of a key publishes a reservation for an identity nobody has used. */
  predicate Fresh(m: State, key: string, request: Request<string, Commit>, freshId: string) {
    && Finished(m.proc)
    && key !in m.world.reservations
    && request.resolved.Some?
    && Unused(m.world, freshId)
    && Bare(CellOf(m.world, freshId).git, None)
  }

  function Opening(m: State, key: string, request: Request<string, Commit>, freshId: string): State {
    Occur(Occur(m, Start(CreateKeyed(key, request, freshId))), Advanced)
  }

  function AttemptOf(m: State, key: string, request: Request<string, Commit>, freshId: string): Attempt
    requires request.resolved.Some?
  {
    Attempt(key, Reservation(freshId, request.source, request.commonDir, request.selector,
                             request.resolved.value, request.title, request.links, m.world.clock))
  }

  lemma PublishedStands(m: State, key: string, request: Request<string, Commit>, freshId: string)
    requires Fresh(m, key, request, freshId)
    ensures var a := AttemptOf(m, key, request, freshId);
            var p := Opening(m, key, request, freshId);
            Valid(a) && Phase(a, p) && !Doomed(a, p)
  {
    hide Initial;
    var a := AttemptOf(m, key, request, freshId);
    var p := Opening(m, key, request, freshId);
    assert Stands(a, View(p.world, freshId), Reserved);
  }

  /** A keyed creation may be interrupted anywhere and retried or recovered any number of times. Its
      next retry that is left alone succeeds with the reserved identity: orphaned if ever a process
      died between making the branch and making the worktree, and otherwise active, its worktree
      clean and at the reserved commit. */
  lemma RetryIsDecided(m: State, key: string, request: Request<string, Commit>, freshId: string, during: seq<Event>,
                       again: Request<string, Commit>, otherId: string, n: nat)
    requires Fresh(m, key, request, freshId) && n >= 8
    requires var a := AttemptOf(m, key, request, freshId); AllCalm(a, during) && SameRequest(again, a.record)
    ensures var a := AttemptOf(m, key, request, freshId);
            var first := Opening(m, key, request, freshId);
            var after := RunFrom(RunFrom(first, during), Retry(a, again, otherId, n));
            var cell := CellOf(after.world, freshId);
            var doomed := DoomsIn(a, first, during + [Crash]);
            && Valid(a)
            && cell.store.manifest == Some(if doomed then Orphan(a) else Active(a))
            && after.proc == Running(freshId, Some(key), Done(Succeeded(cell.store.manifest.value)))
            && (if doomed then Bare(cell.git, request.resolved)
                else HasWorktree(a, cell.git) && CleanAt(cell.git, request.resolved.value))
  {
    hide RunFrom;
    hide Retry;
    hide Opening;
    hide Phase;
    hide Doomed;
    hide DoomsIn;
    hide AllCalm;
    hide SameRequest;
    var a := AttemptOf(m, key, request, freshId);
    var first := Opening(m, key, request, freshId);
    PublishedStands(m, key, request, freshId);
    RunStays(a, first, during);
    DiesThen(a, first, during);
    var now := RunFrom(first, during);
    Retried(a, now, again, otherId, n);
  }

  /** Whether the run ends doomed once its process is dead. */
  lemma DiesThen(a: Attempt, m: State, during: seq<Event>)
    requires Valid(a) && Phase(a, m) && !Doomed(a, m) && AllCalm(a, during)
    ensures Cut(a, View(RunFrom(m, during).world, a.record.id)) <==> DoomsIn(a, m, during + [Crash])
  {
    hide RunFrom;
    hide Phase;
    hide DoomsIn;
    hide Cut;
    RunConcat(m, during, [Crash]);
    RunStays(a, m, during + [Crash]);
    RunNext(RunFrom(m, during), Crash, []);
    NothingRuns(Occur(RunFrom(m, during), Crash));
    assert [Crash] + [] == [Crash];
  }

  lemma NothingRuns(m: State)
    ensures RunFrom(m, []) == m
  {}

  lemma Retried(a: Attempt, m: State, request: Request<string, Commit>, otherId: string, n: nat)
    requires Valid(a) && Phase(a, m) && SameRequest(request, a.record) && n >= 8
    ensures var after := RunFrom(m, Retry(a, request, otherId, n));
            var cell := CellOf(after.world, a.record.id);
            var doomed := Cut(a, View(m.world, a.record.id));
            && cell.store.manifest == Some(if doomed then Orphan(a) else Active(a))
            && after.proc == Running(a.record.id, Some(a.key), Done(Succeeded(cell.store.manifest.value)))
            && (if doomed then Bare(cell.git, Some(a.record.baseCommit))
                else HasWorktree(a, cell.git) && CleanAt(cell.git, a.record.baseCommit))
  {
    hide RunFrom;
    hide Retry;
    hide Rests;
    hide Initial;
    hide Cut;
    hide Ended;
    hide Step;
    hide SameRequest;
    var s, pc := View(m.world, a.record.id), Materialize(a.record);
    if Serves(m.proc, a.record.id) {
      AtRests(a, s, m.proc.pc);
    }
    RetryRuns(a, m, request, otherId, n);
    DriveStays(a, s, pc, n);
    Reconciliation.OperationsFinish(s, pc, n);
    var end := Drive(s, pc, n);
    EndedIs(a, end.s, end.pc.outcome.capsule);
  }

  /** A process that dies right after its fourth step dooms the creation. */
  lemma DiesAfterFour(m: State, key: string, request: Request<string, Commit>, freshId: string)
    requires Fresh(m, key, request, freshId)
    ensures AllCalm(AttemptOf(m, key, request, freshId), Steps(4))
    ensures DoomsIn(AttemptOf(m, key, request, freshId), Opening(m, key, request, freshId), Steps(4) + [Crash])
  {
    hide RunFrom;
    hide DoomsIn;
    hide Step;
    hide Phase;
    hide Initial;
    hide Drive;
    var a, first := AttemptOf(m, key, request, freshId), Opening(m, key, request, freshId);
    PublishedStands(m, key, request, freshId);
    assert Stands(a, View(first.world, freshId), Reserved);
    StepsAreCalm(a, 4);
    StepsAreDrive(first, 4);
    FourSteps(a, View(first.world, freshId));
    RunStays(a, first, Steps(4));
    var now := RunFrom(first, Steps(4));
    StillCut(a, now);
    DiesThen(a, first, Steps(4));
  }

  lemma StillCut(a: Attempt, m: State)
    requires Valid(a) && Phase(a, m) && Serves(m.proc, a.record.id) && m.proc.pc.AddWorktree?
    ensures Cut(a, View(m.world, a.record.id))
  {
    hide At;
    hide Cut;
    AtRests(a, View(m.world, a.record.id), m.proc.pc);
  }

  lemma {:induction false} StepsAreCalm(a: Attempt, n: nat)
    ensures AllCalm(a, Steps(n))
  {
    if n == 0 {
    } else {
      StepsAreCalm(a, n - 1);
    }
  }
}
