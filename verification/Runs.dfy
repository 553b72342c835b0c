/** Safety over every run: any operations in any order, dying at any step, with anything outside
    the manager moving in between. */
module Runs {
  import opened Model
  import opened Git
  import opened World
  import opened Machine
  import opened Invariant
  import Decisions
  import RecoveryDecisions

  predicate StoresKept(w: World) {
    forall id | id in w.cells :: StoreKept(w.cells[id].store, id)
  }

  /** Reservations name distinct capsules, and what is stored under them agrees. */
  predicate ReservationsKept(w: World) {
    && (forall key | key in w.reservations :: ValidId(w.reservations[key].id))
    && (forall a, b | a in w.reservations && b in w.reservations && a != b ::
          w.reservations[a].id != w.reservations[b].id)
    && (forall key | key in w.reservations :: ManifestAgrees(w, w.reservations[key]))
  }

  predicate ManifestAgrees(w: World, record: Reservation<string, Commit>) {
    var manifest := CellOf(w, record.id).store.manifest;
    manifest.Some? ==> Agrees(record, manifest.value)
  }

  /** A creation in progress agrees with whatever reservation names its id. */
  predicate CreationAgrees(w: World, id: string, pc: PC) {
    && (pc.Prepare? || pc.Publish? ==>
          forall key | key in w.reservations && w.reservations[key].id == id :: Agrees(w.reservations[key], pc.c))
    && (pc.Materialize? ==> exists key :: key in w.reservations && w.reservations[key] == pc.record)
  }

  /** A keyed creation runs on its reserved id and never reports a capsule still being created. */
  predicate KeyServed(w: World, id: string, forKey: Option<string>, pc: PC) {
    forKey.Some? ==>
      && forKey.value in w.reservations
      && w.reservations[forKey.value].id == id
      && (pc.Done? || CreationPc(pc))
      && (pc.Done? && pc.outcome.Succeeded? ==> !pc.outcome.capsule.state.Creating?)
      && (CreationPc(pc) && !pc.Materialize? ==> !IsSweep(pc))
  }

  predicate IsSweep(pc: PC) {
    (pc.CompleteCreating? || pc.AddWorktree? || pc.CheckOut? || pc.Activate?) && pc.sweep
  }

  predicate ProcKept(w: World, p: Proc) {
    p.Running? ==>
      && PcKept(CellOf(w, p.id).store, p.id, p.pc)
      && CreationAgrees(w, p.id, p.pc)
      && KeyServed(w, p.id, p.forKey, p.pc)
  }

  predicate Kept(m: State) {
    StoresKept(m.world) && ReservationsKept(m.world) && ProcKept(m.world, m.proc)
  }

  /** What any later world owes to an earlier one. */
  ghost predicate Evolves(a: World, b: World) {
    && (forall id :: StoreEvolves(CellOf(a, id).store, CellOf(b, id).store))
    && (forall key | key in a.reservations :: key in b.reservations && b.reservations[key] == a.reservations[key])
  }

  lemma EvolvesTransitive(a: World, b: World, c: World)
    requires Evolves(a, b) && Evolves(b, c)
    ensures Evolves(a, c)
  {
    forall id
      ensures StoreEvolves(CellOf(a, id).store, CellOf(c, id).store)
    {
      StoreEvolvesTransitive(CellOf(a, id).store, CellOf(b, id).store, CellOf(c, id).store);
    }
  }

  lemma EvolvesReflexive(w: World)
    ensures Evolves(w, w)
  {}

  // ---- one event ----

  predicate SameStores(a: World, b: World) {
    && b.reservations == a.reservations
    && (forall id | id in a.cells :: CellOf(b, id).store == a.cells[id].store)
    && (forall id | id in b.cells :: CellOf(a, id).store == b.cells[id].store)
  }

  lemma SameStoresKeep(m: State, w: World)
    requires Kept(m) && SameStores(m.world, w)
    ensures Kept(State(w, m.proc)) && Evolves(m.world, w)
  {
    assert forall id :: CellOf(w, id).store == CellOf(m.world, id).store;
    assert StoreKept(EMPTY_CELL.store, "");
    hide StoreKept;
    hide PcKept;
    hide Agrees;
    hide Extends;
  }

  lemma MoveKeeps(m: State, move: Move)
    requires Kept(m)
    ensures Kept(State(ApplyMove(m.world, move), m.proc)) && Evolves(m.world, ApplyMove(m.world, move))
  {
    hide Kept;
    hide Evolves;
    SameStoresKeep(m, ApplyMove(m.world, move));
  }

  /** A manifest appears only when creation publishes it. */
  lemma FirstManifest(s: Local, id: string, pc: PC)
    requires Ready(s, id, pc) && s.cell.store.manifest.None?
    ensures var after := Step(s, pc).s.cell.store.manifest;
            after.Some? ==> pc.Publish? && after.value == pc.c
  {
    hide Good;
    hide EmptyStore;
    hide Agrees;
    hide CheckpointingStep;
    hide ClosingStep;
    hide IntegratingStep;
    hide DroppingStep;
    if CreationPc(pc) {
    } else {
      FreeNeedsManifest(s, id, pc);
    }
  }

  lemma FreeNeedsManifest(s: Local, id: string, pc: PC)
    requires Ready(s, id, pc) && s.cell.store.manifest.None? && !CreationPc(pc)
    ensures Step(s, pc).s.cell.store.manifest.None?
  {
  }

  /** What creation hands on besides the manifest. */
  lemma CreationHandsOn(s: Local, id: string, pc: PC)
    requires Ready(s, id, pc) && CreationPc(pc) && !IsSweep(pc)
    ensures var n := Step(s, pc).pc;
            && (n.Done? || (CreationPc(n) && !n.Materialize? && !IsSweep(n)))
            && (n.Done? && n.outcome.Succeeded? ==> !n.outcome.capsule.state.Creating?)
            && (n.Prepare? ==> pc.Materialize? && Agrees(pc.record, n.c))
            && (n.Publish? ==> pc.Prepare? && n.c == pc.c)
  {
    hide CheckpointingStep;
    hide ClosingStep;
    hide IntegratingStep;
    hide DroppingStep;
    hide StepBeginRecover;
    hide Good;
    hide Owned;
  }

  predicate CreatesNothing(n: Next) {
    !n.pc.Prepare? && !n.pc.Publish? && !n.pc.Materialize?
  }

  lemma CheckpointingCreatesNothing(s: Local, pc: PC)
    requires CheckpointingPc(pc)
    ensures CreatesNothing(CheckpointingStep(s, pc))
  {
    hide Owned;
    hide Diff;
    hide CommitPatch;
  }

  lemma IntegratingCreatesNothing(s: Local, pc: PC)
    requires IntegratingPc(pc)
    ensures CreatesNothing(IntegratingStep(s, pc))
  {
    hide EnsureSealed;
    hide Diff;
    hide ChangedPaths;
    hide IntegrationCommit;
    hide FastForward;
  }

  lemma DroppingCreatesNothing(s: Local, pc: PC)
    requires DroppingPc(pc)
    ensures CreatesNothing(DroppingStep(s, pc))
  {
    hide Owned;
    hide EnsureSealed;
    hide RegistrationMatches;
    hide RecordedHead;
  }

  lemma RecoveringCreatesNothing(s: Local)
    ensures CreatesNothing(StepBeginRecover(s))
  {
    hide Owned;
    hide IntegrationMatches;
    hide StoredMatch;
    hide TargetRecoverable;
  }

  lemma OnlyCreationCreates(s: Local, pc: PC)
    requires !CreationPc(pc)
    ensures CreatesNothing(Step(s, pc))
  {
    hide CheckpointingStep;
    hide IntegratingStep;
    hide DroppingStep;
    hide StepBeginRecover;
    hide Owned;
    hide Diff;
    hide Satisfies;
    hide SealedResult;
    if CheckpointingPc(pc) {
      CheckpointingCreatesNothing(s, pc);
    } else if IntegratingPc(pc) {
      IntegratingCreatesNothing(s, pc);
    } else if DroppingPc(pc) {
      DroppingCreatesNothing(s, pc);
    } else if pc.BeginRecover? {
      RecoveringCreatesNothing(s);
    }
  }

  lemma StepRunningKeeps(m: State)
    requires Kept(m) && m.proc.Running?
    ensures Kept(StepProc(m)) && Evolves(m.world, StepProc(m).world)
  {
    hide Step;
    var id, pc := m.proc.id, m.proc.pc;
    var s := View(m.world, id);
    var n := Step(s, pc);
    assert StoreKept(s.cell.store, id);
    StepKeeps(s, id, pc);
    var w := Put(m.world, id, n.s);
    assert forall other :: CellOf(w, other) == if other == id then n.s.cell else CellOf(m.world, other);
    StoresStayKept(m.world, w, id);
    ReservationsStayKept(m, w);
    ProcStaysKept(m, w);
  }

  lemma StoresStayKept(a: World, w: World, id: string)
    requires StoresKept(a) && StoreKept(CellOf(w, id).store, id)
    requires forall other | other != id :: CellOf(w, other) == CellOf(a, other)
    requires w.cells.Keys <= a.cells.Keys + {id} && w.reservations == a.reservations
    requires StoreEvolves(CellOf(a, id).store, CellOf(w, id).store)
    ensures StoresKept(w) && Evolves(a, w)
  {
    hide StoreKept;
    forall other | other in w.cells
      ensures StoreKept(w.cells[other].store, other)
    {
      assert w.cells[other] == CellOf(w, other);
      if other != id {
        assert CellOf(w, other) == a.cells[other];
      }
    }
  }

  lemma CellKept(w: World, id: string)
    requires StoresKept(w)
    ensures StoreKept(CellOf(w, id).store, id)
  {
    hide Good;
  }

  lemma KeptCell(m: State, id: string)
    requires Kept(m)
    ensures StoreKept(CellOf(m.world, id).store, id)
  {
    hide ReservationsKept;
    hide ProcKept;
    hide StoreKept;
    CellKept(m.world, id);
  }

  lemma ReservationsStayKept(m: State, w: World)
    requires Kept(m) && m.proc.Running?
    requires var n := Step(View(m.world, m.proc.id), m.proc.pc);
             w == Put(m.world, m.proc.id, n.s) && Keeps(View(m.world, m.proc.id), m.proc.id, n)
    ensures ReservationsKept(w)
  {
    hide Step;
    hide PcKept;
    hide StoreKept;
    hide KeyServed;
    var id, pc := m.proc.id, m.proc.pc;
    var s := View(m.world, id);
    CellKept(m.world, id);
    forall key | key in w.reservations
      ensures ManifestAgrees(w, w.reservations[key])
    {
      assert ManifestAgrees(m.world, m.world.reservations[key]);
      if w.reservations[key].id == id && s.cell.store.manifest.None? {
        FirstManifest(s, id, pc);
      }
    }
  }

  lemma DoneStaysPut(s: Local, pc: PC)
    ensures pc.Done? ==> Step(s, pc) == Next(s, pc)
  {}

  lemma ProcStaysKept(m: State, w: World)
    requires Kept(m) && m.proc.Running?
    requires var n := Step(View(m.world, m.proc.id), m.proc.pc);
             w == Put(m.world, m.proc.id, n.s) && Keeps(View(m.world, m.proc.id), m.proc.id, n)
    ensures ProcKept(w, StepProc(m).proc)
  {
    hide Step;
    hide PcKept;
    hide StoreKept;
    hide StoreEvolves;
    hide Agrees;
    var id, pc := m.proc.id, m.proc.pc;
    var s := View(m.world, id);
    CellKept(m.world, id);
    assert CellOf(w, id) == Step(s, pc).s.cell;
    if CreationPc(pc) {
      if !IsSweep(pc) {
        CreationHandsOn(s, id, pc);
      } else {
        SweepHandsOn(s, pc);
      }
    } else {
      OnlyCreationCreates(s, pc);
    }
    DoneStaysPut(s, pc);
    MaterializeNames(s.cell.store, id, pc);
  }

  lemma MaterializeNames(store: Store, id: string, pc: PC)
    requires PcKept(store, id, pc)
    ensures pc.Materialize? ==> pc.record.id == id
  {
    hide Good;
    hide ReaderAccepts;
  }

  lemma SweepHandsOn(s: Local, pc: PC)
    requires CreationPc(pc) && IsSweep(pc)
    ensures var n := Step(s, pc).pc; !n.Prepare? && !n.Publish? && !n.Materialize?
  {
    hide Owned;
  }

  lemma ReserveKeeps(m: State)
    requires Kept(m) && m.proc.Reserve?
    ensures Kept(StepProc(m)) && Evolves(m.world, StepProc(m).world)
  {
    hide StoresKept;
    hide ReservationsKept;
    hide Evolves;
    hide SameRequest;
    hide ValidId;
    var n := StepProc(m);
    EvolvesReflexive(m.world);
    if n.world != m.world {
      PublishedKeeps(m, n.world, m.proc.key, n.world.reservations[m.proc.key]);
    } else if n.proc != Idle {
      ReservedId(m.world, m.proc.key);
    }
  }

  lemma ReservedId(w: World, key: string)
    requires ReservationsKept(w) && key in w.reservations
    ensures ValidId(w.reservations[key].id)
  {
    hide ValidId;
    hide ManifestAgrees;
  }

  lemma PublishedKeeps(m: State, w: World, key: string, record: Reservation<string, Commit>)
    requires Kept(m) && key !in m.world.reservations && Unused(m.world, record.id)
    requires w == m.world.(reservations := m.world.reservations[key := record])
    ensures StoresKept(w) && ReservationsKept(w) && Evolves(m.world, w)
  {
    hide StoreKept;
    hide Agrees;
    hide ProcKept;
    assert forall id :: CellOf(w, id) == CellOf(m.world, id);
    forall other | other in w.reservations
      ensures ManifestAgrees(w, w.reservations[other])
    {
      assert other != key ==> ManifestAgrees(m.world, m.world.reservations[other]);
    }
  }

  lemma StartKeeps(m: State, op: Op)
    requires Kept(m)
    ensures Kept(State(m.world, Begin(m.world, op)))
  {
    hide StoreKept;
    hide ReservationsKept;
    hide ValidId;
  }

  lemma OccurKeeps(m: State, e: Event)
    requires Kept(m)
    ensures Kept(Occur(m, e)) && Evolves(m.world, Occur(m, e).world)
  {
    EvolvesReflexive(m.world);
    match e
    case Start(op) => StartKeeps(m, op);
    case Advanced =>
      if m.proc.Running? {
        StepRunningKeeps(m);
      } else if m.proc.Reserve? {
        ReserveKeeps(m);
      }
    case Crash => assert ProcKept(m.world, Idle);
    case External(move) => MoveKeeps(m, move);
    hide ProcKept;
    hide StoresKept;
    hide ReservationsKept;
    hide Evolves;
    hide Step;
  }

  // ---- every run ----

  /** The invariant holds of every reachable state, and later states only evolve earlier ones. */
  lemma {:induction false} RunKeeps(m: State, events: seq<Event>)
    requires Kept(m)
    ensures Kept(RunFrom(m, events)) && Evolves(m.world, RunFrom(m, events).world)
    decreases |events|
  {
    hide Kept;
    hide Evolves;
    hide Occur;
    if events == [] {
      EvolvesReflexive(m.world);
    } else {
      OccurKeeps(m, events[0]);
      RunKeeps(Occur(m, events[0]), events[1..]);
      EvolvesTransitive(m.world, Occur(m, events[0]).world, RunFrom(m, events).world);
    }
  }

  lemma InitialKept()
    ensures Kept(INITIAL)
  {}

  /** Two moments of one run from the empty state root. */
  lemma RunsKeep(first: seq<Event>, more: seq<Event>)
    ensures Kept(RunFrom(INITIAL, first))
    ensures Kept(RunFrom(INITIAL, first + more))
    ensures Evolves(RunFrom(INITIAL, first).world, RunFrom(INITIAL, first + more).world)
  {
    RunKeeps(INITIAL, first);
    RunKeeps(RunFrom(INITIAL, first), more);
    RunConcat(INITIAL, first, more);
    hide Evolves;
    hide Kept;
    hide Occur;
  }

  function ManifestIn(m: State, id: string): Option<Capsule> {
    CellOf(m.world, id).store.manifest
  }

  /** What the strict reader demands of a manifest: its names are those of its id, a capsule with a
      worktree knows its admin directory, evidence is an execution or a claim and nothing between,
      and a journal is there exactly in the states that are under way. */
  predicate IsReadable(c: Capsule, id: string) {
    var i := c.identity;
    && i.id == id && 8 <= |id| <= 64 && id[..4] == "cap-"
    && (forall k | 0 <= k < |id| :: 'a' <= id[k] <= 'z' || '0' <= id[k] <= '9' || id[k] == '-')
    && i.branch == "capsule/" + id[4..]
    && i.workspace == ["workspaces", i.commonDir, id]
    && (c.state in {Active, Checkpointing, Closed, Integrating, Integrated} ==> c.gitDir.Some?)
    && (forall k | 0 <= k < |c.evidence| ::
          var e := c.evidence[k]; e.executed == e.outputSha256.Some? == e.outputBytes.Some?)
    && (c.state.Checkpointing? ==> c.journal.Some?)
    && (c.journal.Some? ==> c.state in {Checkpointing, Dropping})
    && (c.state in {Integrating, Integrated} ==> c.integration.Some?)
    && (c.integration.Some? ==> c.state in {Integrating, Integrated, Dropping, Dropped})
    && (c.state.Dropping? <==> c.cleanup.Some?)
  }

  lemma ReaderReads(c: Capsule, id: string)
    requires ReaderAccepts(c, id)
    ensures IsReadable(c, id)
  {
    forall k | 0 <= k < |id|
      ensures id[k] in id
    {
    }
    forall k | 0 <= k < |c.evidence|
      ensures c.evidence[k] in c.evidence
    {
    }
  }

  /** Every manifest any run leaves on disk is one the strict reader accepts. */
  lemma ManifestsStayReadable(events: seq<Event>, id: string)
    ensures var manifest := ManifestIn(RunFrom(INITIAL, events), id);
            manifest.Some? ==> IsReadable(manifest.value, id)
  {
    hide IsReadable;
    ManifestsStayAccepted(events, id);
    var manifest := ManifestIn(RunFrom(INITIAL, events), id);
    if manifest.Some? {
      ReaderReads(manifest.value, id);
    }
    hide RunFrom;
    hide ReaderAccepts;
  }

  lemma ManifestsStayAccepted(events: seq<Event>, id: string)
    ensures var manifest := ManifestIn(RunFrom(INITIAL, events), id);
            manifest.Some? ==> ReaderAccepts(manifest.value, id)
  {
    hide RunFrom;
    hide ReaderAccepts;
    RunKeeps(INITIAL, events);
    assert StoreKept(CellOf(RunFrom(INITIAL, events).world, id).store, id);
  }

  /** A manifest never disappears, its identity never changes, its history is append-only, and a
      dropped record is final. */
  lemma HistoryOnlyGrows(first: seq<Event>, more: seq<Event>, id: string)
    requires ManifestIn(RunFrom(INITIAL, first), id).Some?
    ensures var before := ManifestIn(RunFrom(INITIAL, first), id).value;
            var after := ManifestIn(RunFrom(INITIAL, first + more), id);
            && after.Some?
            && after.value.identity == before.identity
            && before.checkpoints <= after.value.checkpoints
            && before.evidence <= after.value.evidence
            && (before.gitDir.Some? ==> after.value.gitDir == before.gitDir)
            && (before.state.Dropped? ==> after.value == before)
  {
    hide RunFrom;
    RunsKeep(first, more);
  }

  /** Once sealed, always sealed: the reference, both files and everything they quote stay as the
      one close left them, the artifact check passes for ever, and the capsule is never open again. */
  lemma SealsAreWriteOnce(first: seq<Event>, more: seq<Event>, id: string)
    requires var manifest := ManifestIn(RunFrom(INITIAL, first), id); manifest.Some? && manifest.value.result.Some?
    ensures var before, after := CellOf(RunFrom(INITIAL, first).world, id).store,
                                 CellOf(RunFrom(INITIAL, first + more).world, id).store;
            && after.manifest.Some?
            && after.manifest.value.result == before.manifest.value.result
            && after.manifest.value.closedAt == before.manifest.value.closedAt
            && after.result == before.result
            && after.patch == before.patch
            && Decisions.FilesAreSealed(after.manifest.value, after)
            && !after.manifest.value.state.Creating?
            && !after.manifest.value.state.Active?
            && !after.manifest.value.state.Checkpointing?
            && !after.manifest.value.state.Orphaned?
  {
    hide RunFrom;
    hide ReaderAccepts;
    hide Decisions.FilesAreSealed;
    RunsKeep(first, more);
    var a, b := RunFrom(INITIAL, first).world, RunFrom(INITIAL, first + more).world;
    assert StoreKept(CellOf(a, id).store, id) && StoreKept(CellOf(b, id).store, id);
    assert StoreEvolves(CellOf(a, id).store, CellOf(b, id).store);
    Decisions.MatchIsSealed(CellOf(b, id).store.manifest.value, CellOf(b, id).store);
  }

  /** A published reservation stays as it is, no two keys share a capsule, and what is stored
      under the reserved id agrees with it at every later moment. */
  lemma ReservationsAreForever(first: seq<Event>, more: seq<Event>, key: string)
    requires key in RunFrom(INITIAL, first).world.reservations
    ensures var before, after := RunFrom(INITIAL, first).world, RunFrom(INITIAL, first + more).world;
            && key in after.reservations
            && after.reservations[key] == before.reservations[key]
            && (var manifest := CellOf(after, after.reservations[key].id).store.manifest;
                manifest.Some? ==> RecoveryDecisions.IsAsReserved(manifest.value, after.reservations[key]))
            && forall other | other in after.reservations && other != key ::
                 after.reservations[other].id != after.reservations[key].id
  {
    hide RunFrom;
    hide StoresKept;
    hide ProcKept;
    RunsKeep(first, more);
  }

  /** Whenever a keyed creation has succeeded, it returned the capsule reserved for that key, as
      stored, and no longer being created. */
  lemma KeyedCreationReturnsItsCapsule(events: seq<Event>)
    requires var p := RunFrom(INITIAL, events).proc;
             p.Running? && p.forKey.Some? && p.pc.Done? && p.pc.outcome.Succeeded?
    ensures var m := RunFrom(INITIAL, events);
            var key, c := m.proc.forKey.value, m.proc.pc.outcome.capsule;
            && key in m.world.reservations
            && m.world.reservations[key].id == m.proc.id
            && ManifestIn(m, m.proc.id) == Some(c)
            && RecoveryDecisions.IsAsReserved(c, m.world.reservations[key])
            && !c.state.Creating?
  {
    RunKeeps(INITIAL, events);
    var m := RunFrom(INITIAL, events);
    assert ManifestAgrees(m.world, m.world.reservations[m.proc.forKey.value]);
    hide RunFrom;
    hide StoresKept;
  }
}
