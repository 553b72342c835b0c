/** Every seal any run leaves is one offline verification accepts, repository check included. */
module SealedReceipts {
  import opened Model
  import opened Git
  import opened World
  import opened Machine
  import opened Invariant
  import opened Runs

  /** No manifest is from the future, and nothing was sealed before it was created. */
  predicate Timed(clock: nat, c: Capsule) {
    && c.identity.createdAt <= clock
    && (c.result.Some? ==> c.identity.createdAt <= c.result.value.sealedAt)
  }

  predicate StoreTimed(clock: nat, store: Store) {
    store.manifest.Some? ==> Timed(clock, store.manifest.value)
  }

  predicate PcTimed(clock: nat, pc: PC) {
    && (pc.Write? || pc.WriteResult? || pc.JournalCheckpoint? || pc.DeleteIntegrationRef? || pc.Prepare? || pc.Publish? ==>
          Timed(clock, pc.c))
    && (pc.Materialize? ==> pc.record.reservedAt <= clock)
  }

  predicate Begins(s: Local, id: string, pc: PC) {
    Ready(s, id, pc) && StoreTimed(s.clock, s.cell.store) && PcTimed(s.clock, pc)
  }

  predicate Hands(s: Local, n: Next) {
    StoreTimed(s.clock, n.s.cell.store) && PcTimed(s.clock, n.pc)
  }

  lemma CreationTimed(s: Local, id: string, pc: PC)
    requires CreationPc(pc) && Begins(s, id, pc)
    ensures Hands(s, CreationStep(s, pc))
  {
    hide Owned;
    hide Clean;
    hide Agrees;
    hide StoredMatch;
    hide Reproduces;
    hide ValidId;
  }

  lemma CheckpointingTimed(s: Local, id: string, pc: PC)
    requires CheckpointingPc(pc) && Begins(s, id, pc)
    ensures Hands(s, CheckpointingStep(s, pc))
  {
    hide Owned;
    hide Diff;
    hide CommitPatch;
    hide StoredMatch;
    hide Reproduces;
    hide ValidId;
  }

  lemma SealTime(c: Capsule, o: Observation, now: nat)
    ensures SealOf(SealedResult(c, o, now)).sealedAt == now
  {
    hide ContentBytes;
    hide ChangedPaths;
  }

  lemma ConfirmTimed(s: Local, id: string, c: Capsule, required: Requirements, first: Observation)
    requires Begins(s, id, ConfirmClose(c, required, first))
    ensures Hands(s, StepConfirmClose(s, c, required, first))
  {
    hide Diff;
    hide Clean;
    hide Satisfies;
    hide Good;
    hide SealedResult;
    hide SealOf;
    SealTime(c, first, s.clock);
  }

  lemma ClosingTimed(s: Local, id: string, pc: PC)
    requires ClosingPc(pc) && !pc.ConfirmClose? && Begins(s, id, pc)
    ensures Hands(s, ClosingStep(s, pc))
  {
    hide Owned;
    hide Diff;
    hide Clean;
    hide StepConfirmClose;
    hide Good;
    hide StoredMatch;
    hide ArtifactsMatch;
    hide Reproduces;
    hide ReaderAccepts;
  }

  lemma IntegratingTimed(s: Local, id: string, pc: PC)
    requires IntegratingPc(pc) && !pc.PrepareIntegration? && Begins(s, id, pc)
    ensures Hands(s, IntegratingStep(s, pc))
  {
    hide EnsureSealed;
    hide FastForward;
    hide StepPrepareIntegration;
    hide StoredMatch;
    hide Reproduces;
    hide ValidId;
  }

  lemma PreparingTimed(s: Local, id: string, c: Capsule)
    requires Begins(s, id, PrepareIntegration(c))
    ensures Hands(s, StepPrepareIntegration(s, c))
  {
    hide IntegrationCommit;
    hide Diff;
    hide ChangedPaths;
    hide StoredMatch;
    hide Reproduces;
    hide ValidId;
  }

  lemma DroppingTimed(s: Local, id: string, pc: PC)
    requires DroppingPc(pc) && Begins(s, id, pc)
    ensures Hands(s, DroppingStep(s, pc))
  {
    hide Owned;
    hide EnsureSealed;
    hide RegistrationMatches;
    hide RecordedHead;
    hide StoredMatch;
    hide Reproduces;
    hide ValidId;
  }

  lemma RecoveryTimed(s: Local, id: string)
    requires Begins(s, id, BeginRecover)
    ensures Hands(s, StepBeginRecover(s))
  {
    hide Owned;
    hide IntegrationMatches;
    hide TargetRecoverable;
    hide StoredMatch;
    hide Reproduces;
    hide ValidId;
  }

  lemma StepTimed(s: Local, id: string, pc: PC)
    requires Begins(s, id, pc)
    ensures Hands(s, Step(s, pc))
  {
    hide CreationStep;
    hide CheckpointingStep;
    hide StepAttachEvidence;
    hide StepObserveClose;
    hide StepConfirmClose;
    hide StepWriteResult;
    hide DroppingStep;
    hide StepBeginRecover;
    hide StepPrepareIntegration;
    hide StepBeginIntegrate;
    hide StepRevalidate;
    hide StepAdvance;
    hide StepJournalTarget;
    hide StepDeleteIntegrationRef;
    hide Ready;
    if CreationPc(pc) {
      CreationTimed(s, id, pc);
    } else if CheckpointingPc(pc) {
      CheckpointingTimed(s, id, pc);
    } else if pc.ConfirmClose? {
      ConfirmTimed(s, id, pc.c, pc.required, pc.first);
    } else if ClosingPc(pc) {
      ClosingTimed(s, id, pc);
    } else if DroppingPc(pc) {
      DroppingTimed(s, id, pc);
    } else if pc.PrepareIntegration? {
      PreparingTimed(s, id, pc.c);
    } else if IntegratingPc(pc) {
      IntegratingTimed(s, id, pc);
    } else if pc.BeginRecover? {
      RecoveryTimed(s, id);
    }
  }

  // ---- runs ----

  predicate AllTimed(m: State) {
    && (forall id | id in m.world.cells :: StoreTimed(m.world.clock, m.world.cells[id].store))
    && (forall key | key in m.world.reservations :: m.world.reservations[key].reservedAt <= m.world.clock)
    && (m.proc.Running? ==> PcTimed(m.world.clock, m.proc.pc))
  }

  lemma CellTimed(m: State, id: string)
    requires AllTimed(m)
    ensures StoreTimed(m.world.clock, CellOf(m.world, id).store)
  {}

  lemma RunningTimed(m: State)
    requires Kept(m) && AllTimed(m) && m.proc.Running?
    ensures AllTimed(StepProc(m))
  {
    hide Step;
    hide StoreTimed;
    hide PcTimed;
    hide PcKept;
    hide StoreKept;
    hide CreationAgrees;
    hide KeyServed;
    var id := m.proc.id;
    CellKept(m.world, id);
    CellTimed(m, id);
    StepTimed(View(m.world, id), id, m.proc.pc);
  }

  lemma StartTimed(m: State, op: Op)
    requires AllTimed(m)
    ensures AllTimed(State(m.world, Begin(m.world, op)))
  {
    hide StoreTimed;
    hide Unused;
  }

  lemma ReserveTimed(m: State)
    requires AllTimed(m) && !m.proc.Running?
    ensures AllTimed(StepProc(m))
  {
    hide StoreTimed;
    hide Unused;
    hide SameRequest;
  }

  lemma LaterTimed(early: nat, late: nat, store: Store, pc: PC)
    requires early <= late
    ensures StoreTimed(early, store) ==> StoreTimed(late, store)
    ensures PcTimed(early, pc) ==> PcTimed(late, pc)
  {}

  lemma MoveTimed(m: State, move: Move)
    requires AllTimed(m)
    ensures AllTimed(State(ApplyMove(m.world, move), m.proc))
  {
    hide StoreTimed;
    hide PcTimed;
    var w := ApplyMove(m.world, move);
    forall id | id in w.cells
      ensures StoreTimed(w.clock, w.cells[id].store)
    {
      CellTimed(m, id);
      LaterTimed(m.world.clock, w.clock, CellOf(m.world, id).store, Done(Failed));
    }
    if m.proc.Running? {
      LaterTimed(m.world.clock, w.clock, EMPTY_CELL.store, m.proc.pc);
    }
  }

  lemma OccurTimed(m: State, e: Event)
    requires Kept(m) && AllTimed(m)
    ensures AllTimed(Occur(m, e))
  {
    hide StepProc;
    hide Begin;
    hide ApplyMove;
    hide StoreTimed;
    hide Kept;
    match e
    case Start(op) => StartTimed(m, op);
    case Advanced =>
      if m.proc.Running? {
        RunningTimed(m);
      } else {
        ReserveTimed(m);
      }
    case Crash =>
    case External(move) => MoveTimed(m, move);
  }

  lemma {:induction false} RunTimed(m: State, events: seq<Event>)
    requires Kept(m) && AllTimed(m)
    ensures AllTimed(RunFrom(m, events))
    decreases |events|
  {
    hide Kept;
    hide AllTimed;
    hide Occur;
    hide Evolves;
    if events == [] {
    } else {
      OccurKeeps(m, events[0]);
      OccurTimed(m, events[0]);
      RunTimed(Occur(m, events[0]), events[1..]);
    }
  }

  /** What offline verification asks of a result, digests standing for what they digest, and its
      repository check: the patch applies to the base and reproduces itself and its paths. */
  predicate Verifies(base: Commit, r: Sealed, patch: Patch) {
    && r.patchSha256 == OfPatch(patch)
    && r.patchBytes == PatchSize(patch)
    && r.createdAt <= r.sealedAt
    && (forall e | e in r.evidence :: e.Coherent())
    && (r.kind.NoChange? == (patch == map[]))
    && ((patch == map[]) == (r.changedPaths == []))
    && Apply(base.tree, patch).Some?
    && var applied := Apply(base.tree, patch).value;
       Diff(base.tree, applied) == patch && ChangedPaths(Diff(base.tree, applied)) == r.changedPaths
  }

  lemma EmptyPaths(patch: Patch)
    ensures ChangedPaths(patch) == [] <==> patch == map[]
  {
    assert |ChangedPaths(patch)| == |patch.Keys|;
    if ChangedPaths(patch) == [] {
      assert patch.Keys == {};
    }
  }

  /** In every reachable state the stored result and patch of a sealed capsule verify. */
  lemma SealsVerify(events: seq<Event>, id: string)
    ensures var store := CellOf(RunFrom(INITIAL, events).world, id).store;
            store.manifest.Some? && store.manifest.value.result.Some? ==>
              && store.result.Some? && store.patch.Some?
              && store.result.value.capsuleId == id
              && store.result.value.baseCommit == store.manifest.value.identity.base
              && Verifies(store.manifest.value.identity.base, store.result.value, store.patch.value)
  {
    hide RunFrom;
    hide Apply;
    hide Diff;
    hide ChangedPaths;
    hide ValidId;
    hide Kept;
    hide AllTimed;
    InitialKept();
    InitialTimed();
    RunKeeps(INITIAL, events);
    RunTimed(INITIAL, events);
    var m := RunFrom(INITIAL, events);
    CellTimed(m, id);
    KeptCell(m, id);
    var store := CellOf(m.world, id).store;
    if store.patch.Some? {
      EmptyPaths(store.patch.value);
    }
  }

  lemma InitialTimed()
    ensures AllTimed(INITIAL)
  {}
}
