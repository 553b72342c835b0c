/** What the manager never takes away, over whole runs: an integration it cannot find on its target,
    edits made after the close, and commits no manifest records. */
module Safekeeping {
  import opened Model
  import opened Git
  import opened World
  import opened Machine
  import opened Isolation
  import opened Execution
  import opened Decisions
  import opened SealedDecisions
  import opened RecoveryDecisions

  /** Nobody outside touches this capsule's Git side. */
  predicate Undisturbed(events: seq<Event>, id: string) {
    forall i | 0 <= i < |events| :: !(events[i].External? && events[i].move.Disturb? && events[i].move.id == id)
  }

  /** The first block of an operation, or its end. */
  predicate Waiting(pc: PC) {
    || AsksForActivePc(pc)
    || pc.BeginIntegrate?
    || pc.BeginDrop?
    || pc.BeginRecover?
    || pc.Materialize?
    || pc.Done?
  }

  /** Every operation begins by waiting, on a capsule that exists. */
  lemma StartWaits(m: State, op: Op, id: string)
    requires Finished(m.proc) && CellOf(m.world, id).store.manifest.Some?
    requires Serves(Begin(m.world, op), id)
    ensures Waiting(Begin(m.world, op).pc) && (Begin(m.world, op).pc.BeginDrop? ==> op == Drop(id, Begin(m.world, op).pc.force))
  {
    hide InitialCapsule;
  }

  // ---- an integration astray ----

  /** Whenever a recovery of this capsule looks, the target is not the one the journal names, or not
      clean and full; and the capsule is not dropped by force. */
  predicate Astray(id: string, c: Capsule, i: Integration, m: State, events: seq<Event>)
    decreases |events|
  {
    events == []
    || (&& (events[0].Advanced? && Serves(m.proc, id) && m.proc.pc.BeginRecover? ==>
              !OnItsTarget(View(m.world, id), c, i))
        && events[0] != Start(Drop(id, true))
        && Astray(id, c, i, Occur(m, events[0]), events[1..]))
  }

  predicate LeftAlone(id: string, store: Store, m: State) {
    && CellOf(m.world, id).store == store
    && (Serves(m.proc, id) ==> Waiting(m.proc.pc) && m.proc.pc != BeginDrop(true))
  }

  lemma AstrayStep(s: Local, c: Capsule, i: Integration, pc: PC)
    requires s.cell.store.manifest == Some(c) && c.state.Integrating? && c.integration == Some(i)
    requires Waiting(pc) && pc != BeginDrop(true)
    requires pc.BeginRecover? ==> !OnItsTarget(s, c, i)
    ensures Step(s, pc).s == s && Step(s, pc).pc.Done?
  {
    hide Step;
    hide OnItsTarget;
    hide VerdictOn;
    hide Owned;
    hide EnsureSealed;
    hide RecoverIntegrating;
    hide Agrees;
    Unfolds(s, pc);
    if AsksForActivePc(pc) {
      RefusesInactive(s, pc);
    } else if pc.BeginRecover? {
      IntegrationDecides(s, c, i);
    }
  }

  lemma AstrayOccurs(id: string, c: Capsule, i: Integration, m: State, e: Event, store: Store)
    requires store.manifest == Some(c) && c.state.Integrating? && c.integration == Some(i) && LeftAlone(id, store, m)
    requires e.Advanced? && Serves(m.proc, id) && m.proc.pc.BeginRecover? ==> !OnItsTarget(View(m.world, id), c, i)
    requires e != Start(Drop(id, true))
    ensures LeftAlone(id, store, Occur(m, e))
    ensures !(e.External? && e.move.Disturb? && e.move.id == id) ==> CellOf(Occur(m, e).world, id) == CellOf(m.world, id)
  {
    hide Step;
    hide OnItsTarget;
    hide SameRequest;
    hide Begin;
    match e
    case Advanced =>
      if Serves(m.proc, id) {
        AstrayStep(View(m.world, id), c, i, m.proc.pc);
      }
    case Start(op) =>
      if Finished(m.proc) && Serves(Begin(m.world, op), id) {
        StartWaits(m, op, id);
      }
    case _ =>
  }

  /** Recovery ends a journaled integration only on the journaled worktree and head ref. As long as it
      never finds the target so, no operation changes what is stored of the capsule, nor anything of
      its Git side: the record stays, and so does the ref that protects the commit. */
  lemma {:induction false} IntegrationsEndOnTheirTarget(id: string, c: Capsule, i: Integration, m: State,
                                                        events: seq<Event>)
    requires CellOf(m.world, id).store.manifest == Some(c) && c.state.Integrating? && c.integration == Some(i)
    requires LeftAlone(id, CellOf(m.world, id).store, m) && Astray(id, c, i, m, events)
    ensures CellOf(RunFrom(m, events).world, id).store == CellOf(m.world, id).store
    ensures Undisturbed(events, id) ==> CellOf(RunFrom(m, events).world, id) == CellOf(m.world, id)
    decreases |events|
  {
    hide Occur;
    hide LeftAlone;
    hide OnItsTarget;
    if events == [] {
    } else {
      var e := events[0];
      AstrayOccurs(id, c, i, m, e, CellOf(m.world, id).store);
      LeftAloneStored(id, CellOf(m.world, id).store, Occur(m, e));
      IntegrationsEndOnTheirTarget(id, c, i, Occur(m, e), events[1..]);
      if Undisturbed(events, id) {
        assert !(e.External? && e.move.Disturb? && e.move.id == id);
      }
    }
  }

  lemma LeftAloneStored(id: string, store: Store, m: State)
    requires LeftAlone(id, store, m)
    ensures CellOf(m.world, id).store == store
  {}

  // ---- edits after the close ----

  /** The workspace is no longer what was sealed: another change, or another head. */
  predicate Drifted(s: Local, c: Capsule) {
    || s.cell.store.patch != Some(Diff(c.identity.base.tree, s.cell.git.tree))
    || s.cell.store.result.None?
    || s.cell.git.branch != Some(s.cell.store.result.value.headCommit)
  }

  lemma DriftBreaksSeal(s: Local, c: Capsule)
    requires Drifted(s, c)
    ensures !SealHolds(s, c)
  {
    hide Diff;
  }

  /** A sealed capsule that drifted is neither integrated nor dropped without force: the whole call
      changes nothing, whatever the target. */
  lemma DriftIsRefused(w: World, id: string, target: string, subject: Option<string>, author: Author,
                       schedule: seq<seq<Move>>)
    requires schedule != []
    requires var s := Found(w, id, schedule);
             && s.cell.store.manifest.Some?
             && IsSealed(s.cell.store.manifest.value) && Drifted(s, s.cell.store.manifest.value)
    ensures Refused(w, id, BeginIntegrate(target, subject, author), schedule)
    ensures Refused(w, id, BeginDrop(false), schedule)
  {
    hide Refused;
    hide GoesOn;
    hide Drifted;
    hide SealHolds;
    hide ApplyMoves;
    var s := Found(w, id, schedule);
    DriftBreaksSeal(s, s.cell.store.manifest.value);
    IntegrationIsDecided(w, id, target, subject, author, schedule);
    SealedDecisions.DropIsDecided(w, id, false, schedule);
  }

  lemma DriftedStep(s: Local, c: Capsule, pc: PC)
    requires s.cell.store.manifest == Some(c) && IsSealed(c) && Drifted(s, c)
    requires Waiting(pc) && pc != BeginDrop(true)
    ensures Step(s, pc).s == s && Step(s, pc).pc.Done?
  {
    hide Step;
    hide Drifted;
    hide SealHolds;
    hide EnsureSealed;
    hide Agrees;
    hide StepBeginDrop;
    Unfolds(s, pc);
    DriftBreaksSeal(s, c);
    SealedIsHeld(s, c);
    if AsksForActivePc(pc) {
      RefusesInactive(s, pc);
    } else if pc.BeginDrop? {
      DropDecides(s, false);
    }
  }

  lemma DriftedOccurs(id: string, c: Capsule, m: State, e: Event)
    requires CellOf(m.world, id).store.manifest == Some(c) && IsSealed(c) && Drifted(View(m.world, id), c)
    requires LeftAlone(id, CellOf(m.world, id).store, m)
    requires e != Start(Drop(id, true)) && !(e.External? && e.move.Disturb? && e.move.id == id)
    ensures CellOf(Occur(m, e).world, id) == CellOf(m.world, id)
    ensures LeftAlone(id, CellOf(m.world, id).store, Occur(m, e))
    ensures Drifted(View(Occur(m, e).world, id), c)
  {
    hide Step;
    hide Diff;
    hide SameRequest;
    hide Begin;
    match e
    case Advanced =>
      if Serves(m.proc, id) {
        DriftedStep(View(m.world, id), c, m.proc.pc);
      }
    case Start(op) =>
      if Finished(m.proc) && Serves(Begin(m.world, op), id) {
        StartWaits(m, op, id);
      }
    case _ =>
  }

  /** Edits and commits made after the close survive every operation on any capsule, dying or not, as
      long as nobody drops this one by force. */
  lemma {:induction false} EditsAfterCloseSurvive(id: string, c: Capsule, m: State, events: seq<Event>)
    requires CellOf(m.world, id).store.manifest == Some(c) && IsSealed(c) && Drifted(View(m.world, id), c)
    requires LeftAlone(id, CellOf(m.world, id).store, m)
    requires Undisturbed(events, id) && forall i | 0 <= i < |events| :: events[i] != Start(Drop(id, true))
    ensures CellOf(RunFrom(m, events).world, id) == CellOf(m.world, id)
    decreases |events|
  {
    hide Occur;
    hide LeftAlone;
    hide Drifted;
    if events == [] {
    } else {
      var e := events[0];
      assert e != Start(Drop(id, true)) && !(e.External? && e.move.Disturb? && e.move.id == id);
      DriftedOccurs(id, c, m, e);
      EditsAfterCloseSurvive(id, c, Occur(m, e), events[1..]);
    }
  }

  // ---- commits nobody recorded ----

  /** The workspace is gone, and the branch holds a commit the manifest does not record. */
  predicate Stray(g: GitSide, x: Commit, recorded: set<Commit>) {
    g.entry == Missing && g.registration.None? && g.branch == Some(x) && x !in recorded
  }

  /** The copy of the manifest records nothing new and is not being cleaned up. */
  predicate NoMore(d: Capsule, recorded: set<Commit>) {
    Recorded(d) <= recorded && !d.state.Dropping?
  }

  predicate Holds(recorded: set<Commit>, pc: PC) {
    || Waiting(pc)
    || ((pc.CompleteCreating? || pc.FinishCheckpoint? || pc.Write?) && NoMore(pc.c, recorded))
  }

  lemma StrayStep(s: Local, x: Commit, recorded: set<Commit>, pc: PC)
    requires s.cell.store.manifest.Some? && NoMore(s.cell.store.manifest.value, recorded)
    requires Stray(s.cell.git, x, recorded) && Holds(recorded, pc)
    ensures var n := Step(s, pc);
            && Stray(n.s.cell.git, x, recorded) && Holds(recorded, n.pc)
            && n.s.cell.store.manifest.Some? && NoMore(n.s.cell.store.manifest.value, recorded)
  {
    hide Step;
    hide Recorded;
    hide CreationStep;
    hide CheckpointingStep;
    hide ClosingStep;
    hide IntegratingStep;
    hide DroppingStep;
    hide StepBeginRecover;
    var c := s.cell.store.manifest.value;
    Unfolds(s, pc);
    if pc.CompleteCreating? || pc.Materialize? {
      StrayCreation(s, x, recorded, pc);
    } else if pc.FinishCheckpoint? || pc.BeginCheckpoint? || pc.AttachEvidence? || pc.ObserveClose? || pc.BeginIntegrate? {
      StrayAway(s, c, pc);
    } else if pc.BeginDrop? {
      StrayDrop(s, c, x, recorded, pc.force);
    } else if pc.BeginRecover? {
      StrayRecovery(s, c, recorded);
    }
  }

  lemma SameRecords(c: Capsule, d: Capsule)
    requires d == c.(state := d.state, gitDir := d.gitDir, integration := d.integration)
    ensures Recorded(d) == Recorded(c)
  {}

  lemma StrayCreation(s: Local, x: Commit, recorded: set<Commit>, pc: PC)
    requires s.cell.store.manifest.Some? && NoMore(s.cell.store.manifest.value, recorded)
    requires Stray(s.cell.git, x, recorded) && Holds(recorded, pc) && (pc.CompleteCreating? || pc.Materialize?)
    ensures var n := CreationStep(s, pc);
            && n.s.cell.git == s.cell.git && Holds(recorded, n.pc)
            && n.s.cell.store.manifest.Some? && NoMore(n.s.cell.store.manifest.value, recorded)
  {
    hide Recorded;
    hide Owned;
    hide Agrees;
    if pc.CompleteCreating? {
      SameRecords(pc.c, pc.c.(state := Orphaned));
    }
  }

  /** Without a workspace there is no checkpoint, evidence, close or integration. */
  lemma StrayAway(s: Local, c: Capsule, pc: PC)
    requires s.cell.store.manifest == Some(c) && s.cell.git.entry == Missing
    requires pc.FinishCheckpoint? || pc.BeginCheckpoint? || pc.AttachEvidence? || pc.ObserveClose? || pc.BeginIntegrate?
    ensures Step(s, pc) == Fail(s)
  {
    hide Step;
    hide Diff;
    hide StoredMatch;
    hide EvidenceBytes;
    Unfolds(s, pc);
  }

  lemma StrayDrop(s: Local, c: Capsule, x: Commit, recorded: set<Commit>, force: bool)
    requires s.cell.store.manifest == Some(c) && NoMore(c, recorded) && Stray(s.cell.git, x, recorded)
    ensures var n := DroppingStep(s, BeginDrop(force)); n.s == s && n.pc.Done?
  {
    hide Recorded;
    hide SealHolds;
    hide AtHome;
    hide StepBeginDrop;
    if c.state.Dropped? {
      DropResumes(s, force);
    } else {
      DropDecides(s, force);
    }
  }

  lemma StrayRecovery(s: Local, c: Capsule, recorded: set<Commit>)
    requires s.cell.store.manifest == Some(c) && NoMore(c, recorded)
    requires s.cell.git.entry == Missing && s.cell.git.registration.None?
    ensures var n := StepBeginRecover(s);
            && n.s.cell.store == s.cell.store && Holds(recorded, n.pc)
            && n.s.cell.git == s.cell.git.(integrationRef := n.s.cell.git.integrationRef)
  {
    hide Recorded;
    hide RecoverIntegrating;
    hide OnItsTarget;
    hide VerdictOn;
    SameRecords(c, c.(state := Orphaned));
    if c.state.Integrating? {
      IntegratingRecords(s, c, recorded);
    }
  }

  lemma IntegratingRecords(s: Local, c: Capsule, recorded: set<Commit>)
    requires NoMore(c, recorded)
    ensures var n := RecoverIntegrating(s, c);
            && n.s.cell.store == s.cell.store && (n.pc.Write? ==> NoMore(n.pc.c, recorded)) && (n.pc.Write? || n.pc.Done?)
            && n.s.cell.git == s.cell.git.(integrationRef := n.s.cell.git.integrationRef)
  {
    hide Recorded;
    hide RecoverIntegrating;
    hide OnItsTarget;
    hide VerdictOn;
    match c.integration
    case None =>
      SameRecords(c, c.(state := Orphaned));
      NoJournalOrphans(s, c);
    case Some(i) =>
      IntegrationDecides(s, c, i);
      SameRecords(c, c.(state := Closed, integration := None));
      SameRecords(c, c.(state := Integrated, integration := Some(i.(integratedAt := Some(s.clock)))));
  }

  lemma NoJournalOrphans(s: Local, c: Capsule)
    requires c.integration.None?
    ensures RecoverIntegrating(s, c) == Next(s, Write(c.(state := Orphaned)))
  {}

  predicate StaysStray(id: string, x: Commit, recorded: set<Commit>, m: State) {
    var cell := CellOf(m.world, id);
    && cell.store.manifest.Some? && NoMore(cell.store.manifest.value, recorded)
    && Stray(cell.git, x, recorded)
    && (Serves(m.proc, id) ==> Holds(recorded, m.proc.pc))
  }

  lemma StrayOccurs(id: string, x: Commit, recorded: set<Commit>, m: State, e: Event)
    requires StaysStray(id, x, recorded, m)
    requires !(e.External? && e.move.Disturb? && e.move.id == id)
    ensures StaysStray(id, x, recorded, Occur(m, e))
  {
    hide Step;
    hide Stray;
    hide NoMore;
    hide SameRequest;
    hide Begin;
    match e
    case Advanced =>
      if Serves(m.proc, id) {
        StrayStep(View(m.world, id), x, recorded, m.proc.pc);
      }
    case Start(op) =>
      if Finished(m.proc) && Serves(Begin(m.world, op), id) {
        StartWaits(m, op, id);
      }
    case _ =>
  }

  /** Once the workspace and its registration are gone, a branch at a commit the manifest does not
      record is never deleted or moved by the manager: not by forced drops, recoveries or retried
      creations, in any number, dying anywhere. */
  lemma UnrecordedCommitsSurvive(id: string, x: Commit, c: Capsule, m: State, events: seq<Event>)
    requires CellOf(m.world, id).store.manifest == Some(c) && !c.state.Dropping?
    requires var g := CellOf(m.world, id).git; g.entry == Missing && g.registration.None? && g.branch == Some(x)
    requires x !in Recorded(c) && (Serves(m.proc, id) ==> Waiting(m.proc.pc))
    requires Undisturbed(events, id)
    ensures CellOf(RunFrom(m, events).world, id).git.branch == Some(x)
  {
    hide RunFrom;
    hide Recorded;
    StraysStay(id, x, Recorded(c), m, events);
  }

  lemma {:induction false} StraysStay(id: string, x: Commit, recorded: set<Commit>, m: State, events: seq<Event>)
    requires StaysStray(id, x, recorded, m) && Undisturbed(events, id)
    ensures StaysStray(id, x, recorded, RunFrom(m, events))
    decreases |events|
  {
    hide Occur;
    hide StaysStray;
    if events == [] {
    } else {
      var e := events[0];
      assert !(e.External? && e.move.Disturb? && e.move.id == id);
      StrayOccurs(id, x, recorded, m, e);
      StraysStay(id, x, recorded, Occur(m, e), events[1..]);
    }
  }
}
