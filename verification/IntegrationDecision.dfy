/** The decision recovery takes about an interrupted integration, with the target undisturbed. */
module IntegrationDecision {
  import opened Model
  import opened Git
  import opened World
  import opened Machine
  import opened Isolation

  /** One call of `integrate`: the sealed capsule it found, and the target as it stood. */
  datatype Attempt = Attempt(
    id: string,
    name: string,
    target: Target,
    subject: Option<string>,
    author: Author,
    sealed: Capsule,
    result: Sealed,
    patch: Patch)

  predicate Valid(a: Attempt) {
    && a.sealed.state.Closed?
    && JournalsConsistent(a.sealed)
    && a.sealed.result.Some?
    && ArtifactsMatch(a.sealed, a.sealed.result.value, a.result, a.patch)
    && Reproduces(a.sealed.identity.base, a.result, a.patch)
    && a.target.commonDir == a.sealed.identity.commonDir
    && a.target.head == a.sealed.identity.base
    && a.target.clean
    && a.target.full
  }

  function Started(a: Attempt): Capsule {
    Begun(a.sealed, a.name, a.target, a.subject, a.author)
  }

  /** The commit the target is to end at: the base itself when there is nothing to apply. */
  function Proposed(a: Attempt): Commit
    requires Valid(a)
  {
    if a.result.kind.NoChange? then a.target.head
    else
      ProposedReproduces(a);
      IntegrationCommit(Started(a), a.patch).value
  }

  lemma ProposedReproduces(a: Attempt)
    requires Valid(a) && !a.result.kind.NoChange?
    ensures var p := IntegrationCommit(Started(a), a.patch);
            && p.Some?
            && p.value.parents == [a.target.head]
            && Diff(a.target.head.tree, p.value.tree) == a.patch
            && ChangedPaths(a.patch) == a.result.changedPaths
            && p.value != a.target.head
  {
    hide ChangedPaths;
    hide Diff;
    hide Apply;
    assert Height(IntegrationCommit(Started(a), a.patch).value) == Height(a.target.head) + 1;
  }

  function Prepared(a: Attempt): Capsule
    requires Valid(a)
  {
    Journaled(Started(a), Proposed(a))
  }

  predicate IsFinal(a: Attempt, c: Capsule)
    requires Valid(a)
  {
    && c.integration.Some?
    && c.integration.value.integratedAt.Some?
    && c == Finalized(Prepared(a), c.integration.value.integratedAt.value)
  }

  /** Where the durable state stands between two processes. */
  datatype Point = Untouched | Journaling | Protected | Landed | Recorded | Stranded

  predicate Placed(a: Attempt, manifest: Option<Capsule>, ref: Option<Commit>, head: Commit, point: Point)
    requires Valid(a)
  {
    var base, p := a.target.head, Proposed(a);
    match point
    case Untouched => manifest == Some(a.sealed) && head == base
    case Journaling => manifest == Some(Started(a)) && head == base
    case Protected => manifest == Some(Prepared(a)) && head == base && (p != base ==> ref == Some(p))
    case Landed => manifest == Some(Prepared(a)) && head == p && p != base && (ref == None || ref == Some(p))
    case Recorded => manifest.Some? && IsFinal(a, manifest.value) && head == p
    case Stranded => manifest == Some(Prepared(a)) && head == base && p != base && ref == None
  }

  /** The sealed files are there, and the target is as found except for its HEAD. */
  predicate Undisturbed(a: Attempt, s: Local) {
    && s.cell.store.result == Some(a.result)
    && s.cell.store.patch == Some(a.patch)
    && a.name in s.targets
    && s.targets[a.name] == a.target.(head := s.targets[a.name].head)
  }

  predicate Stands(a: Attempt, s: Local, point: Point)
    requires Valid(a)
  {
    && Undisturbed(a, s)
    && Placed(a, s.cell.store.manifest, s.cell.git.integrationRef, s.targets[a.name].head, point)
  }

  ghost predicate Rests(a: Attempt, s: Local)
    requires Valid(a)
  {
    exists point :: Stands(a, s, point)
  }

  /** Where it stands while a process serves the capsule. */
  ghost predicate At(a: Attempt, s: Local, pc: PC)
    requires Valid(a)
  {
    match pc
    case BeginIntegrate(target, subject, author) =>
      target == a.name && subject == a.subject && author == a.author && Stands(a, s, Untouched)
    case PrepareIntegration(c) => c == Started(a) && Stands(a, s, Journaling)
    case JournalTarget(c, proposed) =>
      && c == Started(a)
      && proposed == Proposed(a) != a.target.head
      && Stands(a, s, Journaling)
      && s.cell.git.integrationRef == Some(proposed)
    case Revalidate(c) => c == Prepared(a) && Stands(a, s, Protected)
    case Advance(c) => c == Prepared(a) && Stands(a, s, Protected)
    case DeleteIntegrationRef(c, expected) => IsFinal(a, c) && expected == Proposed(a) && Stands(a, s, Landed)
    case Write(c) =>
      || (IsFinal(a, c) && (Stands(a, s, Landed) || (Stands(a, s, Protected) && Proposed(a) == a.target.head)))
      || (c == a.sealed && (Stands(a, s, Journaling) || Stands(a, s, Stranded)))
    case Materialize(_) => Rests(a, s)
    case BeginRecover => Rests(a, s)
    case Done(_) => Rests(a, s)
    case _ => AsksForActivePc(pc) && Rests(a, s)
  }

  // ---- what recovery decides at each point ----

  lemma PreparedMatches(a: Attempt, store: Store)
    requires Valid(a) && store.result == Some(a.result) && store.patch == Some(a.patch)
    ensures StoredMatch(store, Prepared(a))
    ensures var i := Prepared(a).integration.value;
            IntegrationMatches(i, a.result, a.patch, Proposed(a)) && i.after == Some(Proposed(a))
  {
    hide Diff;
    hide ChangedPaths;
    hide IntegrationCommit;
    hide Apply;
    if !a.result.kind.NoChange? {
      ProposedReproduces(a);
    } else {
      EmptyInventory(a.patch);
    }
  }

  lemma EmptyInventory(patch: Patch)
    ensures patch == map[] ==> ChangedPaths(patch) == []
  {}

  function Cleared(s: Local): Local {
    WithGit(s, s.cell.git.(integrationRef := None))
  }

  /** The next counter recovery reaches from each point. */
  function Decided(a: Attempt, s: Local, point: Point): Next
    requires Valid(a)
  {
    match point
    case Journaling => Next(Cleared(s), Write(a.sealed))
    case Protected =>
      if Proposed(a) == a.target.head then Next(s, Write(Finalized(Prepared(a), s.clock)))
      else Next(Cleared(s), Write(a.sealed))
    case Landed => Next(Cleared(s), Write(Finalized(Prepared(a), s.clock)))
    case _ => Next(s, Done(NoAction))
  }

  /** Both journals name the target as it stood, and undo to the sealed capsule. */
  lemma JournalFacts(a: Attempt, c: Capsule)
    requires Valid(a) && (c == Started(a) || c == Prepared(a))
    ensures c.state.Integrating? && c.integration.Some? && c.identity == a.sealed.identity
    ensures c.(state := Closed, integration := None) == a.sealed
    ensures c.integration.value.target == a.name
    ensures c.integration.value.gitDir == a.target.gitDir && c.integration.value.headRef == a.target.headRef
    ensures c.integration.value.before == a.target.head
    ensures c.integration.value.after == if c == Started(a) then None else Some(Proposed(a))
  {
    hide Proposed;
    hide ArtifactsMatch;
    hide Reproduces;
  }

  lemma TargetStands(a: Attempt, s: Local, c: Capsule)
    requires Valid(a) && (c == Started(a) || c == Prepared(a)) && Undisturbed(a, s)
    ensures c.integration.Some? && TargetRecoverable(s, c, c.integration.value)
  {
    hide Started;
    hide Prepared;
    hide ArtifactsMatch;
    hide Reproduces;
    JournalFacts(a, c);
  }

  /** What recovery does with a fully journaled integration, target and artifacts agreeing. */
  lemma RecoveryOf(s: Local, c: Capsule, i: Integration, p: Commit)
    requires s.cell.store.manifest == Some(c) && c.state.Integrating? && c.integration == Some(i) && i.after == Some(p)
    requires TargetRecoverable(s, c, i)
    requires s.cell.store.result.Some? && s.cell.store.patch.Some? && StoredMatch(s.cell.store, c)
    requires p != i.before && (s.cell.git.integrationRef == None || s.cell.git.integrationRef == Some(p))
    requires s.targets[i.target].head == p
    requires IntegrationMatches(i, s.cell.store.result.value, s.cell.store.patch.value, p)
    ensures StepBeginRecover(s) == Next(Cleared(s), Write(Finalized(c, s.clock)))
  {
    hide StoredMatch;
    hide Owned;
    hide RecoverActive;
    hide IntegrationMatches;
    hide Finalized;
  }

  lemma DecisionWhenLanded(a: Attempt, s: Local)
    requires Valid(a) && Stands(a, s, Landed)
    ensures StepBeginRecover(s) == Decided(a, s, Landed)
  {
    hide Valid;
    hide Started;
    hide Prepared;
    hide Proposed;
    hide StoredMatch;
    hide StepBeginRecover;
    hide TargetRecoverable;
    hide IntegrationMatches;
    hide Finalized;
    var c := Prepared(a);
    PreparedMatches(a, s.cell.store);
    JournalFacts(a, c);
    TargetStands(a, s, c);
    JournalFacts(a, Started(a));
    RecoveryOf(s, c, c.integration.value, Proposed(a));
  }

  lemma DecisionWhenProtected(a: Attempt, s: Local, point: Point)
    requires Valid(a) && Stands(a, s, point) && (point.Protected? || point.Stranded?)
    ensures StepBeginRecover(s) == Decided(a, s, point)
  {
    hide Valid;
    hide Prepared;
    hide Proposed;
    hide StoredMatch;
    hide Owned;
    hide RecoverActive;
    hide TargetRecoverable;
    hide IntegrationMatches;
    hide Finalized;
    PreparedMatches(a, s.cell.store);
    JournalFacts(a, Prepared(a));
    TargetStands(a, s, Prepared(a));
  }

  lemma DecisionWhenUnprepared(a: Attempt, s: Local, point: Point)
    requires Valid(a) && Stands(a, s, point)
    requires point.Untouched? || point.Journaling? || point.Recorded?
    ensures StepBeginRecover(s) == Decided(a, s, point)
  {
    hide ArtifactsMatch;
    hide Reproduces;
    hide Started;
    hide Prepared;
    hide Proposed;
    hide StoredMatch;
    hide Owned;
    hide RecoverActive;
    hide TargetRecoverable;
    hide IntegrationMatches;
    JournalFacts(a, Started(a));
    JournalFacts(a, Prepared(a));
    TargetStands(a, s, Started(a));
  }

  lemma Decision(a: Attempt, s: Local, point: Point)
    requires Valid(a) && Stands(a, s, point)
    ensures StepBeginRecover(s) == Decided(a, s, point)
  {
    hide StepBeginRecover;
    hide Decided;
    hide Stands;
    hide Valid;
    match point
    case Landed => DecisionWhenLanded(a, s);
    case Protected => DecisionWhenProtected(a, s, point);
    case Stranded => DecisionWhenProtected(a, s, point);
    case _ => DecisionWhenUnprepared(a, s, point);
  }

  // ---- steps ----

  lemma FinalIs(a: Attempt, now: nat)
    requires Valid(a)
    ensures IsFinal(a, Finalized(Prepared(a), now))
    ensures !IsFinal(a, a.sealed)
  {
    hide Proposed;
    hide ArtifactsMatch;
    hide Reproduces;
  }

  lemma DecidedStays(a: Attempt, s: Local, point: Point)
    requires Valid(a) && Stands(a, s, point)
    ensures var n := Decided(a, s, point); At(a, n.s, n.pc)
  {
    hide Valid;
    hide Proposed;
    hide Prepared;
    hide Started;
    hide Finalized;
    hide IsFinal;
    FinalIs(a, s.clock);
  }

  lemma RecoverStays(a: Attempt, s: Local)
    requires Valid(a) && Rests(a, s)
    ensures var n := StepBeginRecover(s); At(a, n.s, n.pc)
  {
    hide StepBeginRecover;
    hide Decided;
    hide At;
    hide Valid;
    hide Stands;
    var point :| Stands(a, s, point);
    Decision(a, s, point);
    DecidedStays(a, s, point);
  }

  lemma UndisturbedFrame(a: Attempt, s: Local, t: Local)
    requires Undisturbed(a, s) && t.targets == s.targets
    requires t.cell.store.result == s.cell.store.result && t.cell.store.patch == s.cell.store.patch
    ensures Undisturbed(a, t)
  {}

  lemma WriteStands(a: Attempt, s: Local, c: Capsule)
    requires Valid(a) && At(a, s, Write(c))
    ensures Stands(a, Save(s, c), if c == a.sealed then Untouched else Recorded)
  {
    hide Undisturbed;
    hide Valid;
    hide Proposed;
    hide Prepared;
    hide Started;
    hide Finalized;
    hide IsFinal;
    FinalIs(a, 0);
    UndisturbedFrame(a, s, Save(s, c));
  }

  lemma WriteStays(a: Attempt, s: Local, c: Capsule)
    requires Valid(a) && At(a, s, Write(c))
    ensures At(a, Save(s, c), Done(Succeeded(c)))
  {
    hide Valid;
    hide Stands;
    WriteStands(a, s, c);
  }

  lemma BeginStays(a: Attempt, s: Local)
    requires Valid(a) && Stands(a, s, Untouched)
    ensures var n := StepBeginIntegrate(s, a.name, a.subject, a.author); At(a, n.s, n.pc)
  {
    hide EnsureSealed;
    hide ArtifactsMatch;
    hide Reproduces;
    hide Proposed;
  }

  lemma PreparesProposed(a: Attempt, s: Local)
    requires Valid(a) && Stands(a, s, Journaling)
    ensures StepPrepareIntegration(s, Started(a)) == Protect(s, Started(a), Proposed(a))
  {
    hide ArtifactsMatch;
    hide Reproduces;
    hide Diff;
    hide ChangedPaths;
    hide IntegrationCommit;
    hide Protect;
    if !a.result.kind.NoChange? {
      ProposedReproduces(a);
    }
  }

  lemma ProtectStays(a: Attempt, s: Local)
    requires Valid(a) && Stands(a, s, Journaling)
    ensures var n := Protect(s, Started(a), Proposed(a)); At(a, n.s, n.pc)
  {
    hide Undisturbed;
    hide Valid;
    hide Proposed;
    hide Started;
    hide Journaled;
    JournalFacts(a, Started(a));
    var n := Protect(s, Started(a), Proposed(a));
    if n.pc.Revalidate? {
      assert n == Next(Save(s, Prepared(a)), Revalidate(Prepared(a)));
    }
    UndisturbedFrame(a, s, n.s);
  }

  lemma PrepareStays(a: Attempt, s: Local)
    requires Valid(a) && Stands(a, s, Journaling)
    ensures var n := StepPrepareIntegration(s, Started(a)); At(a, n.s, n.pc)
  {
    hide StepPrepareIntegration;
    hide Protect;
    hide Valid;
    hide Stands;
    hide At;
    PreparesProposed(a, s);
    ProtectStays(a, s);
  }

  /** The proposed commit is a child of the base, so the fast-forward goes exactly there. */
  lemma ForwardsTo(a: Attempt)
    requires Valid(a) && Proposed(a) != a.target.head
    ensures FastForward(a.target.head, Proposed(a)) == Some(Proposed(a))
  {
    hide IntegrationCommit;
    hide Reproduces;
    hide ArtifactsMatch;
    ProposedReproduces(a);
    assert Ancestor(a.target.head, Proposed(a).parents[0]);
  }

  lemma AdvanceStays(a: Attempt, s: Local)
    requires Valid(a) && Stands(a, s, Protected)
    ensures var n := StepAdvance(s, Prepared(a)); At(a, n.s, n.pc)
  {
    hide Valid;
    hide Proposed;
    hide Prepared;
    hide Started;
    hide Finalized;
    hide IsFinal;
    hide FastForward;
    JournalFacts(a, Prepared(a));
    FinalIs(a, s.clock);
    if Proposed(a) != a.target.head {
      ForwardsTo(a);
    }
    JournalFacts(a, Started(a));
  }

  lemma JournalStays(a: Attempt, s: Local, pc: PC)
    requires pc.JournalTarget? && Valid(a) && At(a, s, pc)
    ensures var n := StepJournalTarget(s, pc.c, pc.proposed); At(a, n.s, n.pc)
  {
    hide Undisturbed;
    hide Valid;
    hide Proposed;
    hide Started;
    hide Journaled;
    JournalFacts(a, Started(a));
    UndisturbedFrame(a, s, Save(s, Prepared(a)));
  }

  lemma RevalidateStays(a: Attempt, s: Local, pc: PC)
    requires pc.Revalidate? && Valid(a) && At(a, s, pc)
    ensures var n := StepRevalidate(s, pc.c); At(a, n.s, n.pc)
  {
    hide Valid;
    hide Proposed;
    hide Prepared;
    hide Undisturbed;
  }

  lemma DeleteStays(a: Attempt, s: Local, pc: PC)
    requires pc.DeleteIntegrationRef? && Valid(a) && At(a, s, pc)
    ensures var n := StepDeleteIntegrationRef(s, pc.c, pc.expected); At(a, n.s, n.pc)
  {
    hide Valid;
    hide Proposed;
    hide Prepared;
    hide IsFinal;
    hide Undisturbed;
    UndisturbedFrame(a, s, Cleared(s));
  }

  lemma MaterializeStays(a: Attempt, s: Local, record: Reservation<string, Commit>)
    requires Valid(a) && Rests(a, s)
    ensures var n := StepMaterialize(s, record); n.s == s && n.pc.Done?
  {
    hide Agrees;
    hide Proposed;
    hide Undisturbed;
    hide ArtifactsMatch;
    hide Reproduces;
  }

  function CallPc(a: Attempt): PC {
    BeginIntegrate(a.name, a.subject, a.author)
  }

  /** What the counters of a call carry. */
  lemma PcIs(a: Attempt, s: Local, pc: PC)
    requires Valid(a) && At(a, s, pc)
    ensures pc.BeginIntegrate? ==> pc == CallPc(a) && Stands(a, s, Untouched)
    ensures pc.PrepareIntegration? ==> pc.c == Started(a) && Stands(a, s, Journaling)
    ensures pc.Advance? ==> pc.c == Prepared(a) && Stands(a, s, Protected)
    ensures pc.Materialize? || pc.BeginRecover? || AsksForActivePc(pc) ==> Rests(a, s)
    ensures CreationPc(pc) ==> pc.Materialize?
    ensures CheckpointingPc(pc) || ClosingPc(pc) ==> AsksForActivePc(pc)
    ensures !DroppingPc(pc)
  {
    hide Valid;
    hide Stands;
    hide Rests;
    hide Started;
    hide Prepared;
  }

  lemma DoneRests(a: Attempt, s: Local, outcome: Outcome)
    requires Valid(a) && Rests(a, s)
    ensures At(a, s, Done(outcome))
  {
    hide Valid;
    hide Rests;
  }

  /** Every step of `integrate` and of recovery stays on the plan. */
  lemma StepStays(a: Attempt, s: Local, pc: PC)
    requires Valid(a) && At(a, s, pc)
    ensures var n := Step(s, pc); At(a, n.s, n.pc)
  {
    hide Step;
    hide Rests;
    hide Valid;
    hide Stands;
    hide ClosingStep;
    hide CheckpointingStep;
    hide DroppingStep;
    hide StepBeginRecover;
    hide StepBeginIntegrate;
    hide StepPrepareIntegration;
    hide StepAdvance;
    hide StepRevalidate;
    hide StepJournalTarget;
    hide StepDeleteIntegrationRef;
    hide StepMaterialize;
    hide At;
    Unfolds(s, pc);
    PcIs(a, s, pc);
    match pc
    case BeginIntegrate(_, _, _) => BeginStays(a, s);
    case PrepareIntegration(_) => PrepareStays(a, s);
    case JournalTarget(_, _) => JournalStays(a, s, pc);
    case Revalidate(_) => RevalidateStays(a, s, pc);
    case DeleteIntegrationRef(_, _) => DeleteStays(a, s, pc);
    case Advance(_) => AdvanceStays(a, s);
    case Write(c) => WriteStays(a, s, c);
    case Materialize(record) =>
      MaterializeStays(a, s, record);
      DoneRests(a, s, StepMaterialize(s, record).pc.outcome);
    case BeginRecover => RecoverStays(a, s);
    case Done(_) =>
    case _ =>
      InactiveStays(a, s, pc);
      DoneRests(a, s, Failed);
  }

  /** A capsule in this protocol is never active, so what asks for an active one is refused. */
  lemma InactiveStays(a: Attempt, s: Local, pc: PC)
    requires Valid(a) && Rests(a, s) && AsksForActivePc(pc)
    ensures Step(s, pc) == Fail(s)
  {
    hide Step;
    hide Undisturbed;
    hide Valid;
    hide Proposed;
    hide Started;
    hide Prepared;
    hide IsFinal;
    JournalFacts(a, Started(a));
    JournalFacts(a, Prepared(a));
    FinalStates(a);
    RefusesInactive(s, pc);
  }

  lemma AtRests(a: Attempt, s: Local, pc: PC)
    requires Valid(a) && At(a, s, pc)
    ensures Rests(a, s)
  {
    hide Valid;
    hide Stands;
  }

  /** The points exclude one another. */
  lemma PointsDiffer(a: Attempt, s: Local, p: Point, q: Point)
    requires Valid(a) && Stands(a, s, p) && Stands(a, s, q)
    ensures p == q
  {
    JournalFacts(a, Started(a));
    JournalFacts(a, Prepared(a));
    FinalStates(a);
    hide Valid;
    hide Proposed;
    hide Started;
    hide Prepared;
    hide IsFinal;
  }

  lemma FinalStates(a: Attempt)
    requires Valid(a)
    ensures a.sealed.state.Closed?
    ensures forall c | IsFinal(a, c) :: c.state.Integrated?
  {
    hide Proposed;
    hide ArtifactsMatch;
    hide Reproduces;
  }

  // ---- runs ----

  /** The target, and the pending ref of this capsule, are moved by nobody else, and the capsule is
      not dropped, nor another integration asked of it or of the target; all else may go on. */
  predicate Calm(a: Attempt, m: State, e: Event) {
    match e
    case Advanced => true
    case Crash => true
    case Start(op) => (LeavesAlone(op, a.id) || AsksForActive(op)) && !(op.Integrate? && op.target == a.name)
    case External(Disturb(id, git)) =>
      id != a.id || git.integrationRef == CellOf(m.world, a.id).git.integrationRef
    case External(MoveTarget(name, _)) => name != a.name
    case External(RemoveTarget(name)) => name != a.name
    case External(Tick(_)) => true
  }

  predicate CalmRun(a: Attempt, m: State, events: seq<Event>)
    decreases |events|
  {
    events == [] || (Calm(a, m, events[0]) && CalmRun(a, Occur(m, events[0]), events[1..]))
  }

  ghost predicate Phase(a: Attempt, m: State)
    requires Valid(a)
  {
    if Serves(m.proc, a.id) then At(a, View(m.world, a.id), m.proc.pc)
    else Rests(a, View(m.world, a.id)) && !Aims(m.proc, a.name)
  }

  /** What the points look at. */
  predicate SameView(a: Attempt, s: Local, t: Local) {
    && t.cell.store == s.cell.store
    && t.cell.git.integrationRef == s.cell.git.integrationRef
    && (a.name in t.targets <==> a.name in s.targets)
    && (a.name in s.targets ==> t.targets[a.name] == s.targets[a.name])
  }

  lemma StandsFrame(a: Attempt, s: Local, t: Local, point: Point)
    requires Valid(a) && SameView(a, s, t) && Stands(a, s, point)
    ensures Stands(a, t, point)
  {
    hide Valid;
    hide Placed;
  }

  lemma AtFrame(a: Attempt, s: Local, t: Local, pc: PC)
    requires Valid(a) && SameView(a, s, t)
    ensures At(a, s, pc) ==> At(a, t, pc)
    ensures Rests(a, s) ==> Rests(a, t)
  {
    hide Valid;
    hide Stands;
    forall point | Stands(a, s, point)
      ensures Stands(a, t, point)
    {
      StandsFrame(a, s, t, point);
    }
  }

  lemma RestsHasManifest(a: Attempt, s: Local)
    requires Valid(a) && Rests(a, s)
    ensures s.cell.store.manifest.Some?
  {
    hide Valid;
    hide Proposed;
  }

  lemma StartStays(a: Attempt, m: State, op: Op)
    requires Valid(a) && Phase(a, m) && Calm(a, m, Start(op)) && Finished(m.proc)
    ensures Phase(a, State(m.world, Begin(m.world, op)))
  {
    hide Valid;
    hide Rests;
    hide InitialCapsule;
    var s := View(m.world, a.id);
    if Serves(m.proc, a.id) {
      AtRests(a, s, m.proc.pc);
    }
    RestsHasManifest(a, s);
  }

  lemma AdvancedStays(a: Attempt, m: State)
    requires Valid(a) && Phase(a, m)
    ensures Phase(a, StepProc(m))
  {
    hide Valid;
    hide Step;
    hide Rests;
    hide At;
    hide PcAims;
    hide SameRequest;
    var s := View(m.world, a.id);
    if Serves(m.proc, a.id) {
      StepStays(a, s, m.proc.pc);
      AtFrame(a, Step(s, m.proc.pc).s, View(StepProc(m).world, a.id), Step(s, m.proc.pc).pc);
    } else {
      OthersStepAside(m, a.id, a.name);
      AtFrame(a, s, View(StepProc(m).world, a.id), Done(Failed));
      RestsAtMaterialize(a, View(StepProc(m).world, a.id));
    }
  }

  lemma RestsAtMaterialize(a: Attempt, s: Local)
    requires Valid(a)
    ensures Rests(a, s) ==> forall record :: At(a, s, Materialize(record))
  {
    hide Valid;
    hide Stands;
  }

  lemma OccurStays(a: Attempt, m: State, e: Event)
    requires Valid(a) && Phase(a, m) && Calm(a, m, e)
    ensures Phase(a, Occur(m, e))
  {
    hide Valid;
    hide Rests;
    hide At;
    hide PcAims;
    hide StepProc;
    hide Begin;
    var s := View(m.world, a.id);
    match e
    case Start(op) =>
      if Finished(m.proc) {
        StartStays(a, m, op);
      }
    case Advanced => AdvancedStays(a, m);
    case Crash =>
      if Serves(m.proc, a.id) {
        AtRests(a, s, m.proc.pc);
      }
    case External(move) =>
      AtFrame(a, s, View(ApplyMove(m.world, move), a.id), if m.proc.Running? then m.proc.pc else Done(Failed));
  }

  lemma {:induction false} RunStays(a: Attempt, m: State, events: seq<Event>)
    requires Valid(a) && Phase(a, m) && CalmRun(a, m, events)
    ensures Phase(a, RunFrom(m, events))
    decreases |events|
  {
    hide Valid;
    hide Phase;
    hide Calm;
    hide Occur;
    if events == [] {
    } else {
      OccurStays(a, m, events[0]);
      RunStays(a, Occur(m, events[0]), events[1..]);
    }
  }
}
