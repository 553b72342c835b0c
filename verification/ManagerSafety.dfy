/** What the methods of the manager promise their callers under every schedule, by way of the runs
    their executions are. */
module ManagerSafety {
  import opened Model
  import opened Git
  import opened Ordering
  import opened World
  import opened Machine
  import opened Invariant
  import opened Runs
  import opened Execution
  import opened Decisions

  /** Whatever moves in between and wherever the process dies, an execution keeps the invariant of
      all runs and only evolves what was stored. */
  lemma ExecutionKeeps(w: World, id: string, key: Option<string>, pc: PC, schedule: seq<seq<Move>>)
    requires Kept(State(w, Running(id, key, pc)))
    ensures var end := Execute(w, id, pc, schedule);
            Kept(State(end.world, Running(id, key, end.pc))) && Evolves(w, end.world)
  {
    hide Kept;
    hide Evolves;
    hide Execute;
    hide RunFrom;
    ExecutionIsRun(w, id, key, pc, schedule);
    RunKeeps(State(w, Running(id, key, pc)), EventsOf(w, id, pc, schedule));
  }

  // ---- what success means ----

  /** What a caller asked for. */
  datatype Goal =
    | Seal(required: Requirements)
    | Checkpointed(message: string, author: Author)
    | Recorded(input: EvidenceInput)
    | Landed(target: string)
    | Cleaned

  /** The seal meets the requirements, on exactly the patch it seals. */
  predicate Meets(required: Requirements, c: Capsule) {
    && c.state.Closed?
    && c.result.Some?
    && Satisfies(required, c.evidence, c.result.value.patchSha256)
  }

  predicate Achieved(goal: Goal, c: Capsule) {
    match goal
    case Seal(required) => Meets(required, c)
    case Checkpointed(message, author) =>
      && c.state.Active? && c.journal.None? && c.checkpoints != []
      && c.checkpoints[|c.checkpoints| - 1].message == message
      && c.checkpoints[|c.checkpoints| - 1].author == author
    case Recorded(input) =>
      && c.state.Active? && c.evidence != []
      && TellsWhatRan(c.evidence[|c.evidence| - 1], input)
    case Landed(target) =>
      && c.state.Integrated? && c.integration.Some?
      && c.integration.value.target == target
      && c.integration.value.after.Some? && c.integration.value.integratedAt.Some?
    case Cleaned => c.state.Dropped?
  }

  /** A reported success is a success. */
  predicate Honest(goal: Goal, outcome: Outcome) {
    !outcome.NoAction? && (outcome.Succeeded? ==> Achieved(goal, outcome.capsule))
  }

  predicate Seals(required: Requirements, pc: PC) {
    match pc
    case ObserveClose(r) => r == required
    case ConfirmClose(_, r, _) => r == required
    case WriteResult(c, _) => Meets(required, c)
    case Write(c) => Meets(required, c)
    case Done(outcome) => Honest(Seal(required), outcome)
    case _ => false
  }

  predicate Checkpoints(message: string, author: Author, pc: PC) {
    match pc
    case BeginCheckpoint(m, a) => m == message && a == author
    case FinishCheckpoint(c, sweep) => !sweep && Journals(c, message, author)
    case Done(outcome) => Honest(Checkpointed(message, author), outcome)
    case _ => CheckpointingPc(pc) && Journals(pc.c, message, author)
  }

  predicate Journals(c: Capsule, message: string, author: Author) {
    c.journal.Some? && c.journal.value.message == message && c.journal.value.author == author
  }

  predicate Records(input: EvidenceInput, pc: PC) {
    match pc
    case AttachEvidence(i) => i == input
    case Done(outcome) => Honest(Recorded(input), outcome)
    case _ => false
  }

  predicate Lands(target: string, pc: PC) {
    match pc
    case BeginIntegrate(t, _, _) => t == target
    case DeleteIntegrationRef(c, _) => Achieved(Landed(target), c)
    case Write(c) => Achieved(Landed(target), c)
    case Done(outcome) => Honest(Landed(target), outcome)
    case _ => IntegratingPc(pc) && pc.c.integration.Some? && pc.c.integration.value.target == target
  }

  predicate Cleans(pc: PC) {
    match pc
    case Write(c) => c.state.Dropped?
    case Done(outcome) => Honest(Cleaned, outcome)
    case _ => DroppingPc(pc)
  }

  predicate Pursues(goal: Goal, pc: PC) {
    match goal
    case Seal(required) => Seals(required, pc)
    case Checkpointed(message, author) => Checkpoints(message, author, pc)
    case Recorded(input) => Records(input, pc)
    case Landed(target) => Lands(target, pc)
    case Cleaned => Cleans(pc)
  }

  lemma ConfirmSeals(required: Requirements, s: Local, c: Capsule, first: Observation)
    ensures Seals(required, StepConfirmClose(s, c, required, first).pc)
  {
    hide Diff;
    hide Clean;
    hide Satisfies;
    hide ContentBytes;
    hide ChangedPaths;
    hide SortedKeys;
  }

  lemma StepSeals(required: Requirements, s: Local, pc: PC)
    requires ClosingPc(pc) && Seals(required, pc)
    ensures Seals(required, ClosingStep(s, pc).pc)
  {
    hide Owned;
    hide Observe;
    hide Satisfies;
    hide StepAttachEvidence;
    hide StepConfirmClose;
    if pc.ConfirmClose? {
      ConfirmSeals(required, s, pc.c, pc.first);
    }
  }

  lemma StepRecords(input: EvidenceInput, s: Local, pc: PC)
    requires ClosingPc(pc) && Records(input, pc)
    ensures Records(input, ClosingStep(s, pc).pc)
  {
    hide Owned;
    hide Diff;
    hide EvidenceBytes;
    hide StepObserveClose;
    hide StepConfirmClose;
    hide StepWriteResult;
  }

  lemma StepCheckpoints(message: string, author: Author, s: Local, pc: PC)
    requires CheckpointingPc(pc) && Checkpoints(message, author, pc)
    ensures Checkpoints(message, author, CheckpointingStep(s, pc).pc)
  {
    hide Owned;
    hide Diff;
    hide CommitPatch;
  }

  lemma StepLands(target: string, s: Local, pc: PC)
    requires IntegratingPc(pc) && Lands(target, pc)
    ensures Lands(target, IntegratingStep(s, pc).pc)
  {
    hide EnsureSealed;
    hide FastForward;
    hide IntegrationCommit;
    hide Diff;
    hide ChangedPaths;
    hide StepPrepareIntegration;
    hide Begun;
    if pc.PrepareIntegration? {
      PrepareLands(target, s, pc.c);
    } else if pc.BeginIntegrate? {
      BeginLands(target, s, pc);
    }
  }

  lemma BeginLands(target: string, s: Local, pc: PC)
    requires pc.BeginIntegrate? && pc.target == target
    ensures Lands(target, StepBeginIntegrate(s, target, pc.subject, pc.author).pc)
  {
    hide EnsureSealed;
  }

  lemma PrepareLands(target: string, s: Local, c: Capsule)
    requires Lands(target, PrepareIntegration(c))
    ensures Lands(target, StepPrepareIntegration(s, c).pc)
  {
    hide IntegrationCommit;
    hide Diff;
    hide ChangedPaths;
  }

  lemma StepCleans(s: Local, pc: PC)
    requires DroppingPc(pc)
    ensures Cleans(DroppingStep(s, pc).pc)
  {
    hide Owned;
    hide EnsureSealed;
    hide RegistrationMatches;
    hide RecordedHead;
  }

  lemma StepPursues(goal: Goal, s: Local, pc: PC)
    requires Pursues(goal, pc)
    ensures Pursues(goal, Step(s, pc).pc)
  {
    hide Step;
    hide Achieved;
    hide CreationStep;
    hide CheckpointingStep;
    hide ClosingStep;
    hide IntegratingStep;
    hide DroppingStep;
    hide StepBeginRecover;
    Unfolds(s, pc);
    AchievedIs(goal, pc);
    if !pc.Write? && !pc.Done? {
      match goal
      case Seal(required) => StepSeals(required, s, pc);
      case Checkpointed(message, author) => StepCheckpoints(message, author, s, pc);
      case Recorded(input) => StepRecords(input, s, pc);
      case Landed(target) => StepLands(target, s, pc);
      case Cleaned => StepCleans(s, pc);
    }
  }

  lemma AchievedIs(goal: Goal, pc: PC)
    ensures pc.Write? ==> (Pursues(goal, pc) ==> Achieved(goal, pc.c))
  {
    hide Meets;
  }

  /** A call that reports success did what it was asked, whatever happened around it: the seal
      meets the requirements on the final patch, the checkpoint or the record is the last one
      listed, the record names the target and the commit landed there, the capsule is dropped. */
  lemma {:induction false} SuccessIsHonest(w: World, id: string, pc: PC, goal: Goal, schedule: seq<seq<Move>>)
    requires Pursues(goal, pc)
    ensures Pursues(goal, Execute(w, id, pc, schedule).pc)
    decreases |schedule|
  {
    hide Step;
    hide Pursues;
    hide ApplyMoves;
    if pc.Done? || schedule == [] {
    } else {
      var around := ApplyMoves(w, schedule[0]);
      var n := Step(View(around, id), pc);
      StepPursues(goal, View(around, id), pc);
      SuccessIsHonest(Put(around, id, n.s), id, n.pc, goal, schedule[1..]);
    }
  }

  /** The counter a call with this goal starts at. */
  predicate Asks(goal: Goal, pc: PC) {
    match goal
    case Seal(required) => pc == ObserveClose(required)
    case Checkpointed(message, author) => pc == BeginCheckpoint(message, author)
    case Recorded(input) => pc == AttachEvidence(input)
    case Landed(target) => pc.BeginIntegrate? && pc.target == target
    case Cleaned => pc.BeginDrop?
  }

  lemma CallIsHonest(w: World, id: string, pc: PC, goal: Goal, schedule: seq<seq<Move>>)
    requires Asks(goal, pc)
    ensures var end := Execute(w, id, pc, schedule).pc; end.Done? ==> Honest(goal, end.outcome)
  {
    hide Execute;
    hide Honest;
    SuccessIsHonest(w, id, pc, goal, schedule);
  }

  // ---- refusals ----

  lemma {:induction false} MovesKeepReservations(w: World, moves: seq<Move>)
    ensures ApplyMoves(w, moves).reservations == w.reservations
    decreases |moves|
  {
    if moves == [] {
    } else {
      MovesKeepReservations(ApplyMove(w, moves[0]), moves[1..]);
    }
  }

  /** A keyed creation for a reserved key runs on the reserved capsule if its request is the same,
      and otherwise is over with nothing durable changed by it, whatever others did meanwhile. */
  lemma ConflictsChangeNothing(m: State, key: string, request: Request<string, Commit>, freshId: string,
                               moves: seq<Move>)
    requires Finished(m.proc) && key in m.world.reservations
    ensures var record := m.world.reservations[key];
            var after := RunFrom(m, [Start(CreateKeyed(key, request, freshId))] + (Externals(moves) + [Advanced]));
            && after.world == ApplyMoves(m.world, moves)
            && after.proc == if SameRequest(request, record) then Running(record.id, Some(key), Materialize(record))
                             else Idle
  {
    hide ApplyMoves;
    hide Externals;
    hide SameRequest;
    var started := State(m.world, Reserve(key, request, freshId));
    var e := Start(CreateKeyed(key, request, freshId));
    var rest := Externals(moves) + [Advanced];
    assert ([e] + rest)[1..] == rest;
    ExternalsApply(started, moves);
    RunConcat(started, Externals(moves), [Advanced]);
    MovesKeepReservations(m.world, moves);
    var waiting := State(ApplyMoves(m.world, moves), started.proc);
    assert RunFrom(waiting, [Advanced]) == RunFrom(Occur(waiting, Advanced), []);
  }
}
