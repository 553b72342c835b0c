/** What an interrupted integration ends as, over whole runs from the empty state root. */
module IntegrationOutcome {
  import opened Model
  import opened Git
  import opened World
  import opened Machine
  import opened Invariant
  import opened Runs
  import opened Isolation
  import opened Sweeps
  import Reconciliation
  import opened IntegrationDecision

  /** Where one undisturbed recovery takes each point. */
  function Settled(a: Attempt, point: Point): Point
    requires Valid(a)
  {
    match point
    case Journaling => Untouched
    case Protected => if Proposed(a) == a.target.head then Recorded else Untouched
    case Landed => Recorded
    case _ => point
  }

  /** After a crash at any moment, one recovery takes the integration to exactly this point; at
      the one stranded point it declines and changes nothing. */
  lemma RecoverySettles(a: Attempt, m: State, point: Point, n: nat)
    requires Valid(a) && Stands(a, View(m.world, a.id), point) && n >= 2
    ensures var after := RunFrom(m, Sweep(a.id, n));
            && Stands(a, View(after.world, a.id), Settled(a, point))
            && after.proc.Running?
            && after.proc.pc.Done?
            && (point.Stranded? ==>
                  View(after.world, a.id) == View(m.world, a.id) && after.proc.pc == Done(NoAction))
  {
    hide Valid;
    hide StepBeginRecover;
    hide Proposed;
    hide Stands;
    hide At;
    hide RunFrom;
    hide Sweep;
    hide Prepared;
    hide Step;
    var s := View(m.world, a.id);
    SweepIsDrive(m, a.id, n);
    Unfolds(s, BeginRecover);
    Decision(a, s, point);
    DecidedStays(a, s, point);
    var next := Decided(a, s, point);
    Unfolds(next.s, next.pc);
    if next.pc.Write? {
      AtWrite(a, s, point);
      WriteStands(a, next.s, next.pc.c);
      DriveStaysDone(Save(next.s, next.pc.c), Succeeded(next.pc.c), n - 2);
    } else {
      DriveStaysDone(s, NoAction, n - 1);
    }
  }

  lemma AtWrite(a: Attempt, s: Local, point: Point)
    requires Valid(a) && Decided(a, s, point).pc.Write?
    ensures (Decided(a, s, point).pc.c == a.sealed) == (Settled(a, point).Untouched?)
  {
    FinalIs(a, s.clock);
    hide Valid;
    hide Proposed;
    hide Prepared;
    hide Finalized;
    hide IsFinal;
  }

  // ---- how an attempt begins ----

  function CallOf(a: Attempt): Op {
    Integrate(a.id, a.name, a.subject, a.author)
  }

  /** The call meets what `integrate` asks of the capsule and of the target. */
  predicate Accepted(a: Attempt, m: State) {
    var s := View(m.world, a.id);
    && s.cell.store.manifest == Some(a.sealed)
    && s.cell.store.result == Some(a.result)
    && s.cell.store.patch == Some(a.patch)
    && a.name in s.targets
    && s.targets[a.name] == a.target
    && a.sealed.state.Closed?
    && a.target.commonDir == a.sealed.identity.commonDir
    && a.target.head == a.sealed.identity.base
    && a.target.clean
    && a.target.full
  }

  /** In every reachable state an accepted call is a valid attempt: the seal invariant is what
      makes the proposed commit exist and reproduce the sealed patch. */
  lemma AcceptedIsValid(a: Attempt, before: seq<Event>)
    requires Accepted(a, RunFrom(INITIAL, before))
    ensures Valid(a) && Stands(a, View(RunFrom(INITIAL, before).world, a.id), Untouched)
  {
    hide RunFrom;
    hide ArtifactsMatch;
    hide Reproduces;
    hide Proposed;
    hide Kept;
    var m := RunFrom(INITIAL, before);
    InitialKept();
    RunKeeps(INITIAL, before);
    KeptCell(m, a.id);
  }

  /** The state right after the call was made. */
  function Called(a: Attempt, before: seq<Event>): State {
    Occur(RunFrom(INITIAL, before), Start(CallOf(a)))
  }

  lemma CallStands(a: Attempt, before: seq<Event>)
    requires Accepted(a, RunFrom(INITIAL, before)) && Finished(RunFrom(INITIAL, before).proc)
    ensures Valid(a) && Phase(a, Called(a, before)) && !Stuck(a, Called(a, before))
  {
    hide RunFrom;
    hide Accepted;
    hide Valid;
    hide Stands;
    hide At;
    AcceptedIsValid(a, before);
    CallAt(a, View(Called(a, before).world, a.id));
  }

  lemma CallAt(a: Attempt, s: Local)
    requires Valid(a) && Stands(a, s, Untouched)
    ensures At(a, s, CallPc(a)) && !Stands(a, s, Stranded)
  {
    hide Valid;
    hide Stands;
    if Stands(a, s, Stranded) {
      PointsDiffer(a, s, Untouched, Stranded);
    }
  }

  // ---- the stranded point ----

  /** Stranded, and not about to be written back by the recovery that made it so. */
  predicate Stuck(a: Attempt, m: State)
    requires Valid(a)
  {
    && Stands(a, View(m.world, a.id), Stranded)
    && !(Serves(m.proc, a.id) && m.proc.pc == Write(a.sealed))
  }

  /** A step reaches the stranded point only as the first half of recovery's restore. */
  lemma StrandedOnlyByRecovery(a: Attempt, s: Local, pc: PC)
    requires Valid(a) && At(a, s, pc)
    requires Stands(a, Step(s, pc).s, Stranded)
    ensures (Stands(a, s, Stranded) && pc != Write(a.sealed)) || Step(s, pc).pc == Write(a.sealed)
  {
    hide Valid;
    hide Stands;
    hide StepBeginRecover;
    hide StepBeginIntegrate;
    hide StepPrepareIntegration;
    hide StepAdvance;
    hide StepRevalidate;
    hide StepJournalTarget;
    hide StepDeleteIntegrationRef;
    hide StepMaterialize;
    var n := Step(s, pc);
    if pc.Materialize? {
      MaterializeStays(a, s, pc.record);
    } else if AsksForActivePc(pc) {
      InactiveStays(a, s, pc);
    } else if pc.BeginRecover? {
      RecoveryStrands(a, s);
    } else if pc.Write? {
      WriteStands(a, s, pc.c);
      PointsDiffer(a, n.s, if pc.c == a.sealed then Untouched else Recorded, Stranded);
    } else if !pc.Done? {
      StepStays(a, s, pc);
      IntegratingNotStranded(a, s, pc);
    }
  }

  lemma RecoveryStrands(a: Attempt, s: Local)
    requires Valid(a) && Rests(a, s)
    requires Stands(a, StepBeginRecover(s).s, Stranded)
    ensures Stands(a, s, Stranded) || StepBeginRecover(s).pc == Write(a.sealed)
  {
    hide Valid;
    hide Proposed;
    hide StepBeginRecover;
    hide Stands;
    var point :| Stands(a, s, point);
    Decision(a, s, point);
    if point.Landed? {
      ClearedLands(a, s);
      PointsDiffer(a, Cleared(s), Landed, Stranded);
    } else if !point.Journaling? && Decided(a, s, point).s == s {
      PointsDiffer(a, s, point, Stranded);
      assert point != Protected;
    }
  }

  lemma ClearedLands(a: Attempt, s: Local)
    requires Valid(a) && Stands(a, s, Landed)
    ensures Stands(a, Cleared(s), Landed)
  {
    hide Valid;
    hide Proposed;
    hide Prepared;
    hide Undisturbed;
    UndisturbedFrame(a, s, Cleared(s));
  }

  /** A step of `integrate` that neither moves on nor finishes changes nothing. */
  lemma IntegratingEnds(a: Attempt, s: Local, pc: PC)
    requires Valid(a) && At(a, s, pc) && IntegratingPc(pc)
    ensures var n := IntegratingStep(s, pc);
            n.s == s || IntegratingPc(n.pc) || (n.pc.Write? && IsFinal(a, n.pc.c))
  {
    hide Proposed;
    hide Prepared;
    hide Started;
    hide Stands;
    hide Valid;
    hide EnsureSealed;
    hide StepPrepareIntegration;
    hide Finalized;
    hide IsFinal;
    if pc.PrepareIntegration? {
      PreparesProposed(a, s);
    }
    FinalIs(a, s.clock);
  }

  lemma IntegratingNotStranded(a: Attempt, s: Local, pc: PC)
    requires Valid(a) && At(a, s, pc) && IntegratingPc(pc)
    ensures !Stands(a, Step(s, pc).s, Stranded)
  {
    hide Valid;
    hide Stands;
    hide Proposed;
    hide IsFinal;
    hide IntegratingStep;
    var n := Step(s, pc);
    StepStays(a, s, pc);
    IntegratingEnds(a, s, pc);
    FinalIs(a, 0);
    if Stands(a, n.s, Stranded) {
      forall point | Stands(a, n.s, point)
        ensures point.Stranded?
      {
        PointsDiffer(a, n.s, point, Stranded);
      }
    }
  }

  /** The crash that strands: the process dies before recovery's write of the capsule it restored,
      while the record still names the head that was to land. */
  predicate Strands(a: Attempt, m: State, e: Event)
    requires Valid(a)
  {
    && e.Crash?
    && Serves(m.proc, a.id)
    && m.proc.pc == Write(a.sealed)
    && CellOf(m.world, a.id).store.manifest == Some(Prepared(a))
  }

  /** Being stuck takes such a crash. */
  lemma StuckOnlyByCrashInRecovery(a: Attempt, m: State, e: Event)
    requires Valid(a) && Phase(a, m) && Calm(a, m, e)
    requires !Stuck(a, m) && Stuck(a, Occur(m, e))
    ensures Strands(a, m, e)
  {
    hide Valid;
    hide At;
    hide Step;
    hide Rests;
    hide Proposed;
    hide Prepared;
    hide Undisturbed;
    var s, t := View(m.world, a.id), View(Occur(m, e).world, a.id);
    if e.Advanced? && Serves(m.proc, a.id) {
      StandsFrame(a, t, Step(s, m.proc.pc).s, Stranded);
      StrandedOnlyByRecovery(a, s, m.proc.pc);
    } else {
      if e.Advanced? {
        OthersStepAside(m, a.id, a.name);
      }
      StandsFrame(a, t, s, Stranded);
    }
  }

  /** Such a crash leaves it stuck. */
  lemma StrandingIsStuck(a: Attempt, m: State, e: Event)
    requires Valid(a) && Phase(a, m) && Strands(a, m, e)
    ensures Stuck(a, Occur(m, e))
  {
    hide Valid;
    hide Proposed;
    hide Prepared;
    hide Started;
    hide IsFinal;
    hide Undisturbed;
    JournalFacts(a, Started(a));
    JournaledAfter(a);
    SealedIsNotFinal(a);
  }

  lemma SealedIsNotFinal(a: Attempt)
    requires Valid(a)
    ensures !IsFinal(a, a.sealed)
  {
    FinalIs(a, 0);
    hide Valid;
    hide IsFinal;
  }

  /** What a process finding it stranded can still be doing: nothing that ends it. */
  lemma StrandedStep(a: Attempt, s: Local, pc: PC)
    requires Valid(a) && At(a, s, pc) && Stands(a, s, Stranded) && pc != Write(a.sealed)
    ensures Step(s, pc).s == s && Step(s, pc).pc.Done?
  {
    hide Step;
    hide Valid;
    hide Stands;
    hide CreationStep;
    hide CheckpointingStep;
    hide ClosingStep;
    hide IntegratingStep;
    hide DroppingStep;
    hide StepBeginRecover;
    hide StepMaterialize;
    Unfolds(s, pc);
    UnlessStranded(a, s, pc);
    if pc.Materialize? {
      MaterializeStays(a, s, pc.record);
      MaterializeUnfolds(s, pc.record);
    } else if AsksForActivePc(pc) {
      InactiveStays(a, s, pc);
    } else if pc.BeginRecover? {
      Decision(a, s, Stranded);
    }
  }

  lemma MaterializeUnfolds(s: Local, record: Reservation<string, Commit>)
    ensures CreationStep(s, Materialize(record)) == StepMaterialize(s, record)
  {
    hide StepMaterialize;
  }

  lemma UnlessStranded(a: Attempt, s: Local, pc: PC)
    requires Valid(a) && At(a, s, pc) && Stands(a, s, Stranded) && pc != Write(a.sealed)
    ensures pc.Done? || pc.BeginRecover? || pc.Materialize? || AsksForActivePc(pc)
    ensures pc.BeginRecover? || pc.Materialize? || AsksForActivePc(pc) ==> Rests(a, s)
  {
    hide Valid;
    hide Stands;
    hide Rests;
    hide Started;
    hide Prepared;
    hide IsFinal;
    forall point | Stands(a, s, point)
      ensures point.Stranded?
    {
      PointsDiffer(a, s, point, Stranded);
    }
  }

  /** Nothing calm gets it out of there. */
  lemma StuckStays(a: Attempt, m: State, e: Event)
    requires Valid(a) && Phase(a, m) && Calm(a, m, e) && Stuck(a, m)
    ensures Stuck(a, Occur(m, e))
  {
    hide Valid;
    hide Stands;
    hide At;
    hide Step;
    hide Rests;
    hide InitialCapsule;
    var s, t := View(m.world, a.id), View(Occur(m, e).world, a.id);
    if e.Advanced? && Serves(m.proc, a.id) {
      StrandedStep(a, s, m.proc.pc);
      StandsFrame(a, s, t, Stranded);
    } else {
      if e.Advanced? {
        OthersStepAside(m, a.id, a.name);
      }
      StandsFrame(a, s, t, Stranded);
    }
  }

  /** Somewhere in the run a stranding crash happens. */
  predicate CrashStrands(a: Attempt, m: State, events: seq<Event>)
    requires Valid(a)
    decreases |events|
  {
    events != [] && (Strands(a, m, events[0]) || CrashStrands(a, Occur(m, events[0]), events[1..]))
  }

  /** Exactly when a calm run ends stuck: it was so, or one crash made it so, and then for ever. */
  lemma {:induction false} StuckIffCrashStrands(a: Attempt, m: State, events: seq<Event>)
    requires Valid(a) && Phase(a, m) && CalmRun(a, m, events)
    ensures Stuck(a, RunFrom(m, events)) <==> Stuck(a, m) || CrashStrands(a, m, events)
    decreases |events|
  {
    hide Valid;
    hide Phase;
    hide Calm;
    hide Occur;
    hide Stuck;
    hide Strands;
    if events == [] {
    } else {
      var e := events[0];
      OccurStays(a, m, e);
      StuckIffCrashStrands(a, Occur(m, e), events[1..]);
      if Stuck(a, m) {
        StuckStays(a, m, e);
      } else if Strands(a, m, e) {
        StrandingIsStuck(a, m, e);
      } else if Stuck(a, Occur(m, e)) {
        StuckOnlyByCrashInRecovery(a, m, e);
      }
    }
  }

  /** That crash does strand it: the point is reachable from every protected one. */
  lemma RestoreCrashStrands(a: Attempt, m: State)
    requires Valid(a) && Stands(a, View(m.world, a.id), Protected) && Proposed(a) != a.target.head
    ensures Stands(a, View(RunFrom(m, Sweep(a.id, 1)).world, a.id), Stranded)
  {
    hide Valid;
    hide Proposed;
    hide Prepared;
    hide Undisturbed;
    hide StepBeginRecover;
    hide Step;
    hide RunFrom;
    hide Sweep;
    var s := View(m.world, a.id);
    SweepIsDrive(m, a.id, 1);
    Unfolds(s, BeginRecover);
    Decision(a, s, Protected);
    UndisturbedFrame(a, s, Cleared(s));
  }

  // ---- an undisturbed call ----

  /** On its way: nothing can make the next step of the call fail. */
  ghost predicate Going(a: Attempt, s: Local, pc: PC)
    requires Valid(a)
  {
    && At(a, s, pc)
    && (match pc
        case BeginIntegrate(_, _, _) => EnsureSealed(s, a.sealed) && s.cell.git.integrationRef.None?
        case PrepareIntegration(_) => s.cell.git.integrationRef.None?
        case JournalTarget(_, _) => true
        case Revalidate(_) => true
        case Advance(_) => true
        case DeleteIntegrationRef(_, _) => true
        case Write(c) => IsFinal(a, c)
        case Done(outcome) => outcome.Succeeded? && Stands(a, s, Recorded)
        case _ => false)
  }

  lemma BeginGoes(a: Attempt, s: Local)
    requires Valid(a) && Going(a, s, CallPc(a))
    ensures StepBeginIntegrate(s, a.name, a.subject, a.author)
        == Next(Save(s, Started(a)), PrepareIntegration(Started(a)))
  {
    hide EnsureSealed;
    hide ArtifactsMatch;
    hide Reproduces;
    hide Proposed;
    hide Begun;
  }

  lemma PrepareGoes(a: Attempt, s: Local)
    requires Valid(a) && Going(a, s, PrepareIntegration(Started(a)))
    ensures !StepPrepareIntegration(s, Started(a)).pc.Done?
  {
    hide Valid;
    hide Proposed;
    hide Started;
    hide StepPrepareIntegration;
    JournalFacts(a, Started(a));
    PreparesProposed(a, s);
  }

  lemma TargetGoes(a: Attempt, s: Local, pc: PC)
    requires Valid(a) && Going(a, s, pc)
    requires pc.JournalTarget? || pc.Revalidate? || pc.DeleteIntegrationRef?
    ensures var n := IntegratingStep(s, pc);
            n.pc.Revalidate? || n.pc.Advance? || (n.pc.Write? && IsFinal(a, n.pc.c))
  {
    hide Proposed;
    hide Finalized;
    hide EnsureSealed;
    hide ArtifactsMatch;
    hide Reproduces;
    hide StepBeginIntegrate;
    hide StepPrepareIntegration;
    hide StepAdvance;
  }

  lemma AdvanceGoes(a: Attempt, s: Local)
    requires Valid(a) && Going(a, s, Advance(Prepared(a)))
    ensures var n := StepAdvance(s, Prepared(a)); n.pc.DeleteIntegrationRef? || (n.pc.Write? && IsFinal(a, n.pc.c))
  {
    hide Valid;
    hide Proposed;
    hide Prepared;
    hide Started;
    hide Finalized;
    hide IsFinal;
    hide FastForward;
    JournalFacts(a, Started(a));
    JournalFacts(a, Prepared(a));
    JournaledAfter(a);
    FinalIs(a, s.clock);
    if Proposed(a) != a.target.head {
      ForwardsTo(a);
    }
  }

  lemma JournaledAfter(a: Attempt)
    requires Valid(a)
    ensures Prepared(a).integration.Some? && Prepared(a).integration.value.after == Some(Proposed(a))
  {
    hide Proposed;
    hide ArtifactsMatch;
    hide Reproduces;
  }

  lemma StepGoes(a: Attempt, s: Local, pc: PC)
    requires Valid(a) && Going(a, s, pc)
    ensures var n := Step(s, pc); Going(a, n.s, n.pc)
  {
    hide Valid;
    hide Stands;
    hide EnsureSealed;
    hide CreationStep;
    hide CheckpointingStep;
    hide ClosingStep;
    hide DroppingStep;
    hide StepBeginRecover;
    hide StepBeginIntegrate;
    hide StepPrepareIntegration;
    hide StepAdvance;
    hide StepRevalidate;
    hide StepJournalTarget;
    hide StepDeleteIntegrationRef;
    hide IsFinal;
    hide At;
    StepStays(a, s, pc);
    PcIs(a, s, pc);
    match pc
    case BeginIntegrate(_, _, _) => BeginGoes(a, s);
    case PrepareIntegration(_) =>
      PrepareGoes(a, s);
      PrepareNeverWrites(a, s);
    case Advance(_) => AdvanceGoes(a, s);
    case Write(c) =>
      FinalIs(a, 0);
      WriteStands(a, s, c);
    case Done(_) =>
    case _ => TargetGoes(a, s, pc);
  }

  lemma PrepareNeverWrites(a: Attempt, s: Local)
    requires Valid(a) && Stands(a, s, Journaling)
    ensures var n := StepPrepareIntegration(s, Started(a)).pc; n.Done? || n.Revalidate? || n.JournalTarget?
  {
    hide Valid;
    hide Proposed;
    hide Started;
    hide StepPrepareIntegration;
    JournalFacts(a, Started(a));
    PreparesProposed(a, s);
  }

  lemma {:induction false} DriveGoes(a: Attempt, s: Local, pc: PC, n: nat)
    requires Valid(a) && Going(a, s, pc)
    ensures var end := Drive(s, pc, n); Going(a, end.s, end.pc)
    decreases n
  {
    hide Valid;
    hide Step;
    hide Going;
    if n == 0 {
    } else {
      StepGoes(a, s, pc);
      DriveGoes(a, Step(s, pc).s, Step(s, pc).pc, n - 1);
    }
  }

  /** Left alone, an accepted call whose seal still matches the workspace integrates: the record
      says so, and HEAD is at the proposed commit. */
  lemma IntegrationSucceeds(a: Attempt, s: Local, n: nat)
    requires Valid(a) && Stands(a, s, Untouched) && n >= 7
    requires EnsureSealed(s, a.sealed) && s.cell.git.integrationRef.None?
    ensures var end := Drive(s, CallPc(a), n);
            && end.pc.Done? && end.pc.outcome.Succeeded?
            && Stands(a, end.s, Recorded)
  {
    hide Valid;
    hide Stands;
    hide EnsureSealed;
    hide Step;
    DriveGoes(a, s, CallPc(a), n);
    Reconciliation.OperationsFinish(s, CallPc(a), n);
  }

  /** Its first three steps: both journals are written, the commit is protected, HEAD not yet moved. */
  lemma ThreeSteps(a: Attempt, s: Local)
    requires Valid(a) && Stands(a, s, Untouched) && Proposed(a) != a.target.head
    requires EnsureSealed(s, a.sealed) && s.cell.git.integrationRef.None?
    ensures var mid := Drive(s, CallPc(a), 3); mid.pc == Revalidate(Prepared(a)) && Stands(a, mid.s, Protected)
  {
    hide Valid;
    hide Proposed;
    hide EnsureSealed;
    hide Step;
    hide Stands;
    hide Started;
    hide StepBeginIntegrate;
    hide StepPrepareIntegration;
    hide StepJournalTarget;
    var p := Proposed(a);
    CallAt(a, s);
    DriveGoes(a, s, CallPc(a), 3);
    BeginGoes(a, s);
    Unfolds(s, CallPc(a));
    var s1 := Save(s, Started(a));
    DriveGoes(a, s, CallPc(a), 1);
    StartedUnprotected(a, s, s1);
    Unfolds(s1, PrepareIntegration(Started(a)));
    var s2 := WithGit(s1, s1.cell.git.(integrationRef := Some(p)));
    Unfolds(s2, JournalTarget(Started(a), p));
    JournalsTarget(a, s2);
    calc {
      Drive(s, CallPc(a), 3);
      Drive(s1, PrepareIntegration(Started(a)), 2);
      Drive(s2, JournalTarget(Started(a), p), 1);
      Drive(Save(s2, Prepared(a)), Revalidate(Prepared(a)), 0);
    }
  }

  lemma StartedUnprotected(a: Attempt, s: Local, s1: Local)
    requires Valid(a) && Stands(a, s, Untouched) && Proposed(a) != a.target.head && s1 == Save(s, Started(a))
    requires s.cell.git.integrationRef.None?
    ensures StepPrepareIntegration(s1, Started(a))
         == Next(WithGit(s1, s1.cell.git.(integrationRef := Some(Proposed(a)))), JournalTarget(Started(a), Proposed(a)))
  {
    hide Valid;
    hide Proposed;
    hide Started;
    hide StepPrepareIntegration;
    JournalFacts(a, Started(a));
    assert Stands(a, s1, Journaling);
    PreparesProposed(a, s1);
  }

  lemma JournalsTarget(a: Attempt, s: Local)
    requires Valid(a)
    ensures StepJournalTarget(s, Started(a), Proposed(a)) == Next(Save(s, Prepared(a)), Revalidate(Prepared(a)))
  {
    hide Valid;
    hide Proposed;
    hide Started;
    hide Journaled;
    JournalFacts(a, Started(a));
  }

  // ---- the theorem ----

  predicate Restored(a: Attempt, m: State) {
    && CellOf(m.world, a.id).store.manifest == Some(a.sealed)
    && a.name in m.world.targets
    && m.world.targets[a.name].head == a.sealed.identity.base
  }

  predicate Completed(a: Attempt, m: State)
    requires Valid(a)
  {
    var manifest := CellOf(m.world, a.id).store.manifest;
    && manifest.Some?
    && manifest.value.state.Integrated?
    && manifest.value.integration.Some?
    && manifest.value.integration.value.before == a.sealed.identity.base
    && manifest.value.integration.value.after == Some(Proposed(a))
    && manifest.value.integration.value.integratedAt.Some?
    && a.name in m.world.targets
    && m.world.targets[a.name].head == Proposed(a)
  }

  lemma PointsMean(a: Attempt, m: State)
    requires Valid(a)
    ensures Stands(a, View(m.world, a.id), Untouched) ==> Restored(a, m)
    ensures Stands(a, View(m.world, a.id), Recorded) ==> Completed(a, m)
    ensures Stands(a, View(m.world, a.id), Stranded) ==> !Restored(a, m) && !Completed(a, m)
  {
    hide Valid;
    hide Proposed;
    hide Started;
    JournalFacts(a, Started(a));
    JournalFacts(a, Prepared(a));
    BaseIs(a);
  }

  lemma BaseIs(a: Attempt)
    requires Valid(a)
    ensures a.target.head == a.sealed.identity.base
  {
    hide ArtifactsMatch;
    hide Reproduces;
  }

  /** The integration decision. An accepted call may be interrupted anywhere, recovery included.
      Unless a crash stranded it, the next recovery leaves the capsule closed as sealed with HEAD at
      the base, or integrated with HEAD at the one journaled commit. If one did, then this recovery
      and every other declines, and it is neither. */
  lemma IntegrationIsDecided(a: Attempt, before: seq<Event>, during: seq<Event>, n: nat)
    requires Accepted(a, RunFrom(INITIAL, before)) && Finished(RunFrom(INITIAL, before).proc)
    requires CalmRun(a, Called(a, before), during) && n >= 2
    ensures Valid(a)
    ensures var m := RunFrom(Called(a, before), during);
            var after := RunFrom(m, Sweep(a.id, n));
            if CrashStrands(a, Called(a, before), during + [Crash]) then
              && !Restored(a, after) && !Completed(a, after)
              && View(after.world, a.id) == View(m.world, a.id)
              && after.proc == Running(a.id, None, Done(NoAction))
            else
              Restored(a, after) || Completed(a, after)
  {
    hide RunFrom;
    hide Sweep;
    hide Accepted;
    hide Called;
    hide Valid;
    hide CalmRun;
    hide Phase;
    hide Stands;
    hide Stuck;
    hide CrashStrands;
    hide Completed;
    hide Restored;
    CallStands(a, before);
    var c := Called(a, before);
    var m := RunFrom(c, during);
    RunStays(a, c, during);
    PhaseRests(a, m);
    var point :| Stands(a, View(m.world, a.id), point);
    RecoverySettles(a, m, point, n);
    SweepServes(m, a.id, n);
    PointsMean(a, RunFrom(m, Sweep(a.id, n)));
    CrashedIsStuck(a, c, during, point);
  }

  lemma SweepServes(m: State, id: string, n: nat)
    ensures var p := RunFrom(m, Sweep(id, n)).proc; p.Running? && p.id == id && p.forKey.None?
  {
    hide RunFrom;
    hide Sweep;
    hide Step;
    SweepIsDrive(m, id, n);
  }

  /** Once the process is dead, stuck and stranded are the same. */
  lemma CrashedIsStuck(a: Attempt, m: State, events: seq<Event>, point: Point)
    requires Valid(a) && Phase(a, m) && CalmRun(a, m, events) && !Stuck(a, m)
    requires Stands(a, View(RunFrom(m, events).world, a.id), point)
    ensures point.Stranded? <==> CrashStrands(a, m, events + [Crash])
  {
    hide Valid;
    hide Phase;
    hide Stands;
    hide RunFrom;
    var end := RunFrom(m, events);
    CalmConcat(a, m, events);
    RunConcat(m, events, [Crash]);
    CrashRuns(end);
    StuckIffCrashStrands(a, m, events + [Crash]);
    if Stands(a, View(end.world, a.id), Stranded) {
      PointsDiffer(a, View(end.world, a.id), point, Stranded);
    }
  }

  lemma CrashRuns(m: State)
    ensures RunFrom(m, [Crash]) == State(m.world, Idle)
  {
    assert RunFrom(Occur(m, Crash), []) == Occur(m, Crash);
  }

  lemma {:induction false} CalmConcat(a: Attempt, m: State, events: seq<Event>)
    requires CalmRun(a, m, events)
    ensures CalmRun(a, m, events + [Crash])
    decreases |events|
  {
    hide Occur;
    var e := events + [Crash];
    if events == [] {
      assert e == [Crash];
    } else {
      assert e[0] == events[0] && e[1..] == events[1..] + [Crash];
      CalmConcat(a, Occur(m, events[0]), events[1..]);
    }
  }

  lemma PhaseRests(a: Attempt, m: State)
    requires Valid(a) && Phase(a, m)
    ensures Rests(a, View(m.world, a.id))
  {
    hide Valid;
    hide At;
    hide Rests;
    if Serves(m.proc, a.id) {
      AtRests(a, View(m.world, a.id), m.proc.pc);
    }
  }
}
