/** In every reachable state a journaled integration commit is the one commit made from the base,
    the sealed patch and the capsule's own name. */
module IntegrationJournals {
  import opened Model
  import opened Git
  import opened World
  import opened Machine
  import opened Invariant
  import opened Runs

  /** The journal of `c` is pinned to its base, and what it is to land is built from the seal. */
  predicate Sound(store: Store, c: Capsule) {
    c.integration.Some? ==>
      && c.result.Some?
      && c.integration.value.before == c.identity.base
      && (c.state.Integrating? ==> c.integration.value.integratedAt.None?)
      && (c.integration.value.after.Some? ==> SoundProposal(store, c, c.integration.value.after.value))
  }

  predicate SoundProposal(store: Store, c: Capsule, proposed: Commit)
    requires c.integration.Some?
  {
    store.result.Some? && store.patch.Some? && !store.result.value.kind.NoChange?
    ==> IntegrationCommit(c, store.patch.value) == Some(proposed)
  }

  predicate StoreSound(store: Store) {
    store.manifest.Some? ==> Sound(store, store.manifest.value)
  }

  predicate PcSound(store: Store, pc: PC) {
    && (pc.Write? || pc.DeleteIntegrationRef? || pc.JournalCheckpoint? ==> Sound(store, pc.c))
    && (pc.JournalTarget? ==> pc.c.integration.Some? ==> SoundProposal(store, pc.c, pc.proposed))
  }

  predicate Begins(s: Local, id: string, pc: PC) {
    Ready(s, id, pc) && StoreSound(s.cell.store) && PcSound(s.cell.store, pc)
  }

  predicate Hands(n: Next) {
    StoreSound(n.s.cell.store) && PcSound(n.s.cell.store, n.pc)
  }

  /** `d` carries the integration record of `c` unchanged, or none. */
  predicate Carries(c: Capsule, d: Capsule) {
    d.integration.None?
    || (d.integration == c.integration && d.identity == c.identity && (c.result.Some? ==> d.result.Some?)
        && (d.state.Integrating? ==> c.state.Integrating?))
  }

  /** Steps of everything but integration and recovery carry the record along. */
  predicate CarriesOn(s: Local, n: Next) {
    var store, after := s.cell.store, n.s.cell.store;
    && (store.manifest.Some? && store.manifest.value.integration.Some? ==>
          after.result == store.result
          && after.patch == store.patch)
    && (after.manifest.Some? ==>
          after.manifest.value.integration.None?
          || (store.manifest.Some? && Carries(store.manifest.value, after.manifest.value)))
    && (n.pc.Write? || n.pc.JournalCheckpoint? ==>
          n.pc.c.integration.None?
          || (store.manifest.Some? && Carries(store.manifest.value, n.pc.c)))
    && !n.pc.JournalTarget? && !n.pc.DeleteIntegrationRef?
  }

  lemma CarriesOnHands(s: Local, n: Next)
    requires StoreSound(s.cell.store) && CarriesOn(s, n)
    ensures Hands(n)
  {
    hide CommitPatch;
  }

  lemma CreationCarries(s: Local, id: string, pc: PC)
    requires CreationPc(pc) && Ready(s, id, pc)
    ensures CarriesOn(s, CreationStep(s, pc))
  {
    hide Owned;
    hide Clean;
    hide Agrees;
    hide StoredMatch;
    hide Reproduces;
    hide ValidId;
  }

  lemma CheckpointingCarries(s: Local, id: string, pc: PC)
    requires CheckpointingPc(pc) && Ready(s, id, pc)
    ensures CarriesOn(s, CheckpointingStep(s, pc))
  {
    hide Owned;
    hide Diff;
    hide CommitPatch;
    hide StoredMatch;
    hide Reproduces;
    hide ValidId;
  }

  lemma ClosingCarries(s: Local, id: string, pc: PC)
    requires ClosingPc(pc) && Ready(s, id, pc) && StoreSound(s.cell.store)
    ensures CarriesOn(s, ClosingStep(s, pc))
  {
    hide Owned;
    hide Diff;
    hide Satisfies;
    hide SealedResult;
    hide StoredMatch;
    hide ArtifactsMatch;
    hide Reproduces;
    hide ValidId;
    hide SoundProposal;
  }

  lemma DroppingCarries(s: Local, id: string, pc: PC)
    requires DroppingPc(pc) && Ready(s, id, pc)
    ensures CarriesOn(s, DroppingStep(s, pc))
  {
    hide Owned;
    hide EnsureSealed;
    hide RegistrationMatches;
    hide RecordedHead;
    hide StoredMatch;
    hide Reproduces;
    hide ValidId;
  }

  lemma RecoveryHands(s: Local, id: string)
    requires Ready(s, id, BeginRecover) && StoreSound(s.cell.store)
    ensures Hands(StepBeginRecover(s))
  {
    hide Owned;
    hide IntegrationMatches;
    hide TargetRecoverable;
    hide StoredMatch;
    hide Reproduces;
    hide ValidId;
    hide CommitPatch;
  }

  lemma PrepareHands(s: Local, id: string, c: Capsule)
    requires Begins(s, id, PrepareIntegration(c))
    ensures Hands(StepPrepareIntegration(s, c))
  {
    hide StoredMatch;
    hide Reproduces;
    hide ValidId;
    hide CommitPatch;
    hide Diff;
    hide ChangedPaths;
  }

  lemma IntegratingHands(s: Local, id: string, pc: PC)
    requires pc.BeginIntegrate? || pc.JournalTarget?
    requires Begins(s, id, pc)
    ensures Hands(IntegratingStep(s, pc))
  {
    hide StoredMatch;
    hide EnsureSealed;
    hide Reproduces;
    hide ValidId;
    hide CommitPatch;
    hide StepAdvance;
    hide StepRevalidate;
    hide StepDeleteIntegrationRef;
    hide StepPrepareIntegration;
  }

  lemma AdvancingHands(s: Local, id: string, pc: PC)
    requires pc.Revalidate? || pc.Advance? || pc.DeleteIntegrationRef?
    requires Begins(s, id, pc)
    ensures Hands(IntegratingStep(s, pc))
  {
    hide StoredMatch;
    hide EnsureSealed;
    hide Reproduces;
    hide ValidId;
    hide CommitPatch;
    hide FastForward;
    hide StepBeginIntegrate;
    hide StepJournalTarget;
    hide StepPrepareIntegration;
  }

  lemma StepHands(s: Local, id: string, pc: PC)
    requires Begins(s, id, pc)
    ensures Hands(Step(s, pc))
  {
    hide CreationStep;
    hide CheckpointingStep;
    hide ClosingStep;
    hide DroppingStep;
    hide StepBeginRecover;
    hide StepPrepareIntegration;
    hide StepBeginIntegrate;
    hide StepRevalidate;
    hide StepAdvance;
    hide StepJournalTarget;
    hide StepDeleteIntegrationRef;
    hide CarriesOn;
    hide Ready;
    hide Sound;
    if CreationPc(pc) {
      CreationCarries(s, id, pc);
      CarriesOnHands(s, Step(s, pc));
    } else if CheckpointingPc(pc) {
      CheckpointingCarries(s, id, pc);
      CarriesOnHands(s, Step(s, pc));
    } else if ClosingPc(pc) {
      ClosingCarries(s, id, pc);
      CarriesOnHands(s, Step(s, pc));
    } else if DroppingPc(pc) {
      DroppingCarries(s, id, pc);
      CarriesOnHands(s, Step(s, pc));
    } else if pc.PrepareIntegration? {
      PrepareHands(s, id, pc.c);
    } else if pc.BeginIntegrate? || pc.JournalTarget? {
      IntegratingHands(s, id, pc);
    } else if IntegratingPc(pc) {
      AdvancingHands(s, id, pc);
    } else if pc.BeginRecover? {
      RecoveryHands(s, id);
    } else if pc.Write? {
      SaveHands(s, pc.c);
    }
  }

  lemma SaveHands(s: Local, c: Capsule)
    requires Sound(s.cell.store, c)
    ensures Hands(Next(Save(s, c), Done(Succeeded(c))))
  {
    hide IntegrationCommit;
  }

  // ---- every run ----

  predicate AllSound(m: State) {
    && (forall id | id in m.world.cells :: StoreSound(m.world.cells[id].store))
    && (m.proc.Running? ==> PcSound(CellOf(m.world, m.proc.id).store, m.proc.pc))
  }

  lemma SoundCell(m: State, id: string)
    requires AllSound(m)
    ensures StoreSound(CellOf(m.world, id).store)
  {}

  lemma RunningSound(m: State)
    requires Kept(m) && AllSound(m) && m.proc.Running?
    ensures AllSound(StepProc(m))
  {
    hide Step;
    hide StoreSound;
    hide PcSound;
    hide PcKept;
    hide StoreKept;
    hide CreationAgrees;
    hide KeyServed;
    hide ReservationsKept;
    var id := m.proc.id;
    KeptReady(m);
    SoundCell(m, id);
    StepHands(View(m.world, id), id, m.proc.pc);
  }

  lemma KeptReady(m: State)
    requires Kept(m) && m.proc.Running?
    ensures Ready(View(m.world, m.proc.id), m.proc.id, m.proc.pc)
  {
    hide PcKept;
    hide CreationAgrees;
    hide KeyServed;
    hide ReservationsKept;
    hide Good;
  }

  lemma OccurSound(m: State, e: Event)
    requires Kept(m) && AllSound(m)
    ensures AllSound(Occur(m, e))
  {
    hide Step;
    hide StoreSound;
    hide Kept;
    match e
    case Advanced =>
      if m.proc.Running? {
        RunningSound(m);
      } else {
        ReserveSound(m);
      }
    case Start(op) => StartSound(m, op);
    case Crash =>
    case External(move) => MoveSound(m, move);
  }

  lemma ReserveSound(m: State)
    requires AllSound(m) && !m.proc.Running?
    ensures AllSound(StepProc(m))
  {
    hide StoreSound;
    hide Unused;
    hide SameRequest;
  }

  lemma StartSound(m: State, op: Op)
    requires AllSound(m)
    ensures AllSound(State(m.world, Begin(m.world, op)))
  {
    hide StoreSound;
    hide InitialCapsule;
    hide Unused;
  }

  lemma MoveSound(m: State, move: Move)
    requires AllSound(m)
    ensures AllSound(State(ApplyMove(m.world, move), m.proc))
  {
    var w := ApplyMove(m.world, move);
    if move.Disturb? {
      SoundCell(m, move.id);
      assert CellOf(w, move.id).store == CellOf(m.world, move.id).store;
    }
    assert forall id :: CellOf(w, id).store == CellOf(m.world, id).store;
    hide StoreSound;
    hide Sound;
    hide SoundProposal;
  }

  lemma {:induction false} RunSound(m: State, events: seq<Event>)
    requires Kept(m) && AllSound(m)
    ensures AllSound(RunFrom(m, events))
    decreases |events|
  {
    hide Kept;
    hide AllSound;
    hide Occur;
    hide Evolves;
    if events == [] {
    } else {
      OccurKeeps(m, events[0]);
      OccurSound(m, events[0]);
      RunSound(Occur(m, events[0]), events[1..]);
    }
  }

  lemma InitialSound()
    ensures Kept(INITIAL) && AllSound(INITIAL)
  {}

  /** Whatever was interrupted and retried, the commit a capsule with changes journals for its
      target is built on the capsule's base from the sealed patch, and names the capsule. */
  lemma JournaledCommitIsTheSeal(events: seq<Event>, id: string)
    ensures var store := CellOf(RunFrom(INITIAL, events).world, id).store;
            store.manifest.Some? && store.manifest.value.integration.Some? ==>
              var c := store.manifest.value;
              && c.integration.value.before == c.identity.base
              && store.result.Some? && store.patch.Some?
              && (c.integration.value.after.Some? && !store.result.value.kind.NoChange? ==>
                    var p := c.integration.value.after.value;
                    && p.parents == [c.identity.base]
                    && Diff(c.identity.base.tree, p.tree) == store.patch.value
                    && p.message == c.integration.value.message + "\n\nChange-Capsule: " + id)
  {
    hide RunFrom;
    hide Apply;
    hide Diff;
    hide ArtifactsMatch;
    InitialSound();
    RunSound(INITIAL, events);
    RunKeeps(INITIAL, events);
    var m := RunFrom(INITIAL, events);
    KeptSeal(m, id);
    SoundCell(m, id);
  }

  lemma KeptSeal(m: State, id: string)
    requires Kept(m)
    ensures var store := CellOf(m.world, id).store;
            store.manifest.Some? ==>
              && store.manifest.value.identity.id == id
              && (store.manifest.value.result.Some? ==>
                    store.result.Some? && store.patch.Some?
                    && Reproduces(store.manifest.value.identity.base, store.result.value, store.patch.value))
  {
    hide Reproduces;
    hide ArtifactsMatch;
    hide ReservationsKept;
    hide ProcKept;
    hide ValidId;
    assert StoreKept(CellOf(m.world, id).store, id);
  }
}
