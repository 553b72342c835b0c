/** What an interrupted drop ends as, over whole runs from the empty state root. */
module CleanupOutcome {
  import opened Model
  import opened Git
  import opened World
  import opened Machine
  import opened Invariant
  import opened Runs
  import opened Isolation
  import opened Sweeps
  import opened Cleanup
  import opened SealedDecisions

  lemma RestsAt(d: Capsule, s: Local, point: Point)
    requires UnderCleanup(d) && Stands(d, s, point)
    ensures Rests(d, s)
  {
    hide Stands;
  }

  lemma AtRests(d: Capsule, s: Local, pc: PC)
    requires UnderCleanup(d) && At(d, s, pc)
    ensures Rests(d, s)
  {
    hide Stands;
  }

  lemma RemovableAt(d: Capsule, s: Local)
    requires UnderCleanup(d) && Rests(d, s) && s.cell.store.manifest == Some(d)
    ensures At(d, s, RemoveWorktree(d))
  {
    hide EnsureSealed;
    hide Owned;
    var point :| Stands(d, s, point);
    assert !point.Gone?;
  }

  lemma StepStays(d: Capsule, s: Local, pc: PC)
    requires UnderCleanup(d) && At(d, s, pc)
    ensures var n := Step(s, pc); At(d, n.s, n.pc)
  {
    hide Stands;
    hide Rests;
    hide CreationStep;
    hide CheckpointingStep;
    hide ClosingStep;
    hide IntegratingStep;
    hide StepBeginRecover;
    hide StepRemoveWorktree;
    hide StepDeregister;
    hide StepDeleteBranch;
    hide StepPrune;
    hide StepClearCheckpointRef;
    hide StepClearIntegrationRef;
    hide StepBeginDrop;
    var n := Step(s, pc);
    if pc.RemoveWorktree? {
      var point: Point :| !point.Gone? && Stands(d, s, point);
      RemoveAdvances(d, s, point);
    } else if pc.Deregister? || pc.DeleteBranch? || pc.Prune? || pc.ClearCheckpointRef? || pc.ClearIntegrationRef? {
      LooseStays(d, s, pc);
    } else if pc.Write? {
      WriteStays(d, s, pc.c);
      RestsAt(d, n.s, Gone);
    } else {
      AtRests(d, s, pc);
      OthersStay(d, s, pc);
      if n.pc.RemoveWorktree? {
        RemovableAt(d, s);
      }
    }
  }

  ghost predicate Phase(d: Capsule, m: State, id: string)
    requires d.cleanup.Some?
  {
    if Serves(m.proc, id) then At(d, View(m.world, id), m.proc.pc) else Rests(d, View(m.world, id))
  }

  lemma StandsFrame(d: Capsule, s: Local, t: Local, point: Point)
    requires d.cleanup.Some? && t.cell == s.cell
    ensures Stands(d, s, point) == Stands(d, t, point)
  {
    hide Owned;
    hide StoredMatch;
  }

  lemma AtFrame(d: Capsule, s: Local, t: Local, pc: PC)
    requires d.cleanup.Some? && t.cell == s.cell
    ensures At(d, s, pc) ==> At(d, t, pc)
    ensures Rests(d, s) ==> Rests(d, t)
  {
    hide Stands;
    forall point
      ensures Stands(d, s, point) == Stands(d, t, point)
    {
      StandsFrame(d, s, t, point);
    }
  }

  lemma RestsHasManifest(d: Capsule, s: Local)
    requires d.cleanup.Some? && Rests(d, s)
    ensures s.cell.store.manifest.Some?
  {
    hide Owned;
    hide EnsureSealed;
  }

  lemma OccurStays(d: Capsule, m: State, e: Event, id: string)
    requires UnderCleanup(d) && Phase(d, m, id)
    requires !(e.External? && e.move.Disturb? && e.move.id == id)
    ensures Phase(d, Occur(m, e), id)
  {
    hide Rests;
    hide Step;
    hide SameRequest;
    hide InitialCapsule;
    hide Stands;
    var s, t := View(m.world, id), View(Occur(m, e).world, id);
    if Serves(m.proc, id) {
      AtRests(d, s, m.proc.pc);
      if e.Advanced? {
        StepStays(d, s, m.proc.pc);
        AtFrame(d, Step(s, m.proc.pc).s, t, Step(s, m.proc.pc).pc);
      } else {
        AtFrame(d, s, t, m.proc.pc);
      }
    } else {
      AtFrame(d, s, t, Done(Failed));
    }
    RestsHasManifest(d, s);
  }

  lemma {:induction false} RunStays(d: Capsule, m: State, events: seq<Event>, id: string)
    requires UnderCleanup(d) && Phase(d, m, id) && Undisturbed(events, id)
    ensures Phase(d, RunFrom(m, events), id)
    decreases |events|
  {
    hide Phase;
    hide Occur;
    if events == [] {
    } else {
      var e := events[0];
      assert !(e.External? && e.move.Disturb? && e.move.id == id);
      OccurStays(d, m, e, id);
      RunStays(d, Occur(m, e), events[1..], id);
    }
  }

  // ---- one recovery ----

  lemma EndsFrom(d: Capsule, s: Local, pc: PC, n: nat)
    requires UnderCleanup(d) && At(d, s, pc)
    requires pc.DeleteBranch? || pc.Prune? || pc.ClearCheckpointRef? || pc.ClearIntegrationRef? || pc.Write?
    requires n >= (match pc case DeleteBranch(_) => 5 case Prune(_) => 4 case ClearCheckpointRef(_) => 3
                            case ClearIntegrationRef(_) => 2 case _ => 1)
    ensures Stands(d, Drive(s, pc, n).s, Gone)
    decreases n
  {
    hide Stands;
    hide Rests;
    hide Step;
    var next := Step(s, pc);
    Unfolds(s, pc);
    if pc.Write? {
      WriteStays(d, s, pc.c);
      DriveStaysDone(next.s, Succeeded(pc.c), n - 1);
    } else {
      LooseStays(d, s, pc);
      EndsFrom(d, next.s, next.pc, n - 1);
    }
  }

  lemma RemoveEnds(d: Capsule, s: Local, point: Point, n: nat)
    requires UnderCleanup(d) && Stands(d, s, point) && !point.Gone? && n >= 7
    ensures Stands(d, Drive(s, RemoveWorktree(d), n).s, Gone)
  {
    hide Stands;
    hide Rests;
    hide Step;
    hide At;
    Unfolds(s, RemoveWorktree(d));
    RemoveAdvances(d, s, point);
    var next := StepRemoveWorktree(s, d);
    if next.pc.Deregister? {
      LooseStays(d, next.s, next.pc);
      Unfolds(next.s, next.pc);
      var last := DroppingStep(next.s, next.pc);
      EndsFrom(d, last.s, last.pc, n - 2);
    } else {
      EndsFrom(d, next.s, next.pc, n - 1);
    }
  }

  lemma RecoverySettles(d: Capsule, s: Local, n: nat)
    requires UnderCleanup(d) && Rests(d, s) && n >= 8
    ensures Stands(d, Drive(s, BeginRecover, n).s, Gone)
  {
    hide Stands;
    hide Step;
    hide At;
    var point :| Stands(d, s, point);
    Unfolds(s, BeginRecover);
    RecoverBegins(d, s, point);
    if point.Gone? {
      DriveStaysDone(s, NoAction, n - 1);
    } else {
      RemoveEnds(d, s, point, n - 1);
    }
  }

  lemma RecoverBegins(d: Capsule, s: Local, point: Point)
    requires UnderCleanup(d) && Stands(d, s, point)
    ensures StepBeginRecover(s) == Next(s, if point.Gone? then Done(NoAction) else RemoveWorktree(d))
  {
    hide Owned;
    hide EnsureSealed;
    hide RecoverIntegrating;
  }

  // ---- an undisturbed call ----

  /** Left alone, a drop either refuses and changes nothing, or drops: no worktree, registration,
      branch or pending ref is left. */
  lemma DropIsAllOrNothing(s: Local, c: Capsule, force: bool, n: nat)
    requires s.cell.store.manifest == Some(c) && !c.state.Dropped? && !c.state.Dropping? && n >= 8
    ensures var begun, end := StepBeginDrop(s, force), Drive(s, BeginDrop(force), n);
            if MayDrop(s, force) then
              begun.pc.RemoveWorktree? && UnderCleanup(begun.pc.c) && Stands(begun.pc.c, end.s, Gone)
            else end == Next(s, Done(Failed))
  {
    hide Step;
    hide Stands;
    hide StepBeginDrop;
    hide MayDrop;
    Unfolds(s, BeginDrop(force));
    DropDecides(s, force);
    if MayDrop(s, force) {
      DropJournals(s, force, c);
      var next := StepBeginDrop(s, force);
      var point: Point :| !point.Gone? && Stands(next.pc.c, next.s, point);
      RemoveEnds(next.pc.c, next.s, point, n - 1);
    } else {
      DriveStaysDone(s, Failed, n - 1);
    }
  }

  // ---- the theorem ----

  /** Nothing of the capsule is left but its record. */
  predicate Dropped(d: Capsule, m: State, id: string) {
    var manifest, g := CellOf(m.world, id).store.manifest, CellOf(m.world, id).git;
    && manifest.Some?
    && manifest.value.state.Dropped?
    && manifest.value == d.(state := Model.Dropped, journal := None, cleanup := None,
        droppedAt := manifest.value.droppedAt)
    && g.entry == Missing
    && g.registration.None?
    && g.branch.None?
    && g.checkpointRef.None?
    && g.integrationRef.None?
  }

  lemma GoneMeans(d: Capsule, m: State, id: string)
    requires UnderCleanup(d)
    ensures Stands(d, View(m.world, id), Gone) ==> Dropped(d, m, id)
  {}

  /** A state whose manifest says dropped is one where nothing is left. */
  lemma DroppedIsGone(d: Capsule, s: Local)
    requires UnderCleanup(d) && Rests(d, s)
    requires s.cell.store.manifest.value.state.Dropped?
    ensures Stands(d, s, Gone)
  {
    hide Owned;
    hide EnsureSealed;
    var point :| Stands(d, s, point);
  }

  /** Cleanup completes. From the moment a drop has journaled itself, whatever operations are asked
      of this or any other capsule and wherever processes die, as long as nobody outside touches
      this capsule's Git side: the next recovery ends with the record dropped and no worktree,
      registration, branch or pending ref left, and whenever the record says dropped that is so. */
  lemma CleanupCompletes(m: State, force: bool, during: seq<Event>, n: nat)
    requires m.proc.Running? && m.proc.pc == BeginDrop(force)
    requires var c := CellOf(m.world, m.proc.id).store.manifest;
             c.Some? && !c.value.state.Dropping? && !c.value.state.Dropped?
    requires Occur(m, Advanced).proc.pc.RemoveWorktree?
    requires Undisturbed(during, m.proc.id) && n >= 8
    ensures var id, d := m.proc.id, Occur(m, Advanced).proc.pc.c;
            var now := RunFrom(Occur(m, Advanced), during);
            && UnderCleanup(d)
            && Dropped(d, RunFrom(now, Sweep(id, n)), id)
            && (CellOf(now.world, id).store.manifest.Some?)
            && (CellOf(now.world, id).store.manifest.value.state.Dropped? ==> Dropped(d, now, id))
  {
    hide RunFrom;
    hide Sweep;
    hide Stands;
    hide At;
    hide Rests;
    hide Undisturbed;
    hide StepBeginDrop;
    hide Dropped;
    var id := m.proc.id;
    var c := CellOf(m.world, id).store.manifest.value;
    DropJournals(View(m.world, id), force, c);
    var begun := Occur(m, Advanced);
    var d := begun.proc.pc.c;
    AtFrame(d, StepBeginDrop(View(m.world, id), force).s, View(begun.world, id), begun.proc.pc);
    RunStays(d, begun, during, id);
    var now := RunFrom(begun, during);
    PhaseRests(d, now, id);
    RestsHasManifest(d, View(now.world, id));
    RecoverySettles(d, View(now.world, id), n);
    SweepIsDrive(now, id, n);
    GoneMeans(d, RunFrom(now, Sweep(id, n)), id);
    GoneMeans(d, now, id);
    if CellOf(now.world, id).store.manifest.value.state.Dropped? {
      DroppedIsGone(d, View(now.world, id));
    }
  }

  lemma PhaseRests(d: Capsule, m: State, id: string)
    requires UnderCleanup(d) && Phase(d, m, id)
    ensures Rests(d, View(m.world, id))
  {
    hide At;
    hide Rests;
    if Serves(m.proc, id) {
      AtRests(d, View(m.world, id), m.proc.pc);
    }
  }
}
