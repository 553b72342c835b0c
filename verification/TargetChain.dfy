/** Many capsules and one target worktree, with no external move of its HEAD: what the manager
    writes there is a chain of single commits, and no two capsules pinned to one base both land. */
module TargetChain {
  import opened Model
  import opened Git
  import opened World
  import opened Machine
  import opened Invariant
  import opened Runs
  import opened Isolation
  import opened IntegrationJournals

  const TRAILER := "\n\nChange-Capsule: "

  predicate Unmoved(events: seq<Event>, name: string) {
    forall i | 0 <= i < |events| :: !Moves(events[i], name)
  }

  predicate Moves(e: Event, name: string) {
    e.External? && ((e.move.MoveTarget? && e.move.name == name) || (e.move.RemoveTarget? && e.move.name == name))
  }

  /** `p` is `h`, or one commit on top of it alone. */
  predicate OneOnTop(h: Commit, p: Commit) {
    p == h || p.parents == [h]
  }

  /** What an integration in progress knows about its target, given that only it may move HEAD. */
  predicate Aligned(targets: map<string, Target>, name: string, pc: PC) {
    PcAims(pc, name) ==>
      && (pc.PrepareIntegration? ==>
            pc.c.integration.value.before == pc.c.identity.base && HeadIs(targets, name, pc.c.identity.base))
      && (pc.JournalTarget? ==>
            OneOnTop(pc.c.integration.value.before, pc.proposed)
                && HeadIs(targets, name, pc.c.integration.value.before))
      && (pc.Revalidate? || pc.Advance? ==>
            && pc.c.integration.value.after.Some?
            && OneOnTop(pc.c.integration.value.before, pc.c.integration.value.after.value)
            && HeadIs(targets, name, pc.c.integration.value.before))
  }

  predicate HeadIs(targets: map<string, Target>, name: string, head: Commit) {
    name in targets && targets[name].head == head
  }

  lemma PrepareAligns(s: Local, c: Capsule, name: string)
    requires Aligned(s.targets, name, PrepareIntegration(c)) && PcAims(PrepareIntegration(c), name)
    ensures var n := StepPrepareIntegration(s, c);
            n.s.targets == s.targets && Aligned(n.s.targets, name, n.pc)
  {
    hide Apply;
    hide Diff;
    hide ChangedPaths;
  }

  lemma ForwardsOne(h: Commit, p: Commit)
    requires OneOnTop(h, p)
    ensures FastForward(h, p) == Some(p)
  {
    if p != h {
      assert Ancestor(h, p.parents[0]);
    }
  }

  lemma AdvanceAligns(s: Local, c: Capsule, name: string)
    requires Aligned(s.targets, name, Advance(c)) && PcAims(Advance(c), name)
    ensures var n := StepAdvance(s, c);
            && name in n.s.targets && name in s.targets
            && OneOnTop(s.targets[name].head, n.s.targets[name].head)
            && n.s.targets[name].head == c.integration.value.after.value
            && !PcAims(n.pc, name)
  {
    hide FastForward;
    ForwardsOne(c.integration.value.before, c.integration.value.after.value);
  }

  lemma OthersAlign(s: Local, pc: PC, name: string)
    requires pc.BeginIntegrate? || pc.JournalTarget? || pc.Revalidate?
    requires PcAims(pc, name) && Aligned(s.targets, name, pc)
    ensures var n := IntegratingStep(s, pc);
            n.s.targets == s.targets && Aligned(n.s.targets, name, n.pc)
  {
    hide EnsureSealed;
    hide StepPrepareIntegration;
    hide StepAdvance;
  }

  /** One step moves the HEAD by at most one commit, and hands the alignment on. */
  lemma StepAligns(s: Local, pc: PC, name: string)
    requires Aligned(s.targets, name, pc) && name in s.targets
    ensures var n := Step(s, pc);
            && Aligned(n.s.targets, name, n.pc)
            && name in n.s.targets
            && OneOnTop(s.targets[name].head, n.s.targets[name].head)
  {
    hide CreationStep;
    hide CheckpointingStep;
    hide ClosingStep;
    hide DroppingStep;
    hide StepBeginRecover;
    hide StepPrepareIntegration;
    hide StepBeginIntegrate;
    hide StepAdvance;
    hide StepRevalidate;
    hide StepJournalTarget;
    hide StepDeleteIntegrationRef;
    if !PcAims(pc, name) {
      StepSpares(s, pc, name);
    } else if pc.PrepareIntegration? {
      PrepareAligns(s, pc.c, name);
    } else if pc.Advance? {
      AdvanceAligns(s, pc.c, name);
    } else {
      OthersAlign(s, pc, name);
    }
  }

  /** The process holding the locks knows its target, and the target is there. */
  predicate Steady(m: State, name: string) {
    name in m.world.targets && (m.proc.Running? ==> Aligned(m.world.targets, name, m.proc.pc))
  }

  function HeadOf(m: State, name: string): Commit
    requires Steady(m, name)
  {
    m.world.targets[name].head
  }

  lemma OccurAligns(m: State, e: Event, name: string)
    requires Steady(m, name) && !Moves(e, name)
    ensures Steady(Occur(m, e), name)
    ensures OneOnTop(HeadOf(m, name), HeadOf(Occur(m, e), name))
    ensures !e.Advanced? ==> HeadOf(m, name) == HeadOf(Occur(m, e), name)
  {
    hide Step;
    hide Unused;
    hide SameRequest;
    if e.Advanced? && m.proc.Running? {
      StepAligns(View(m.world, m.proc.id), m.proc.pc, name);
    }
  }

  lemma OnLineExtends(x: Commit, h: Commit, p: Commit)
    requires OnLine(x, h) && OneOnTop(h, p)
    ensures OnLine(x, p)
  {}

  lemma {:induction false} RunAligns(m: State, events: seq<Event>, name: string)
    requires Steady(m, name) && Unmoved(events, name)
    ensures Steady(RunFrom(m, events), name)
    ensures OnLine(HeadOf(m, name), HeadOf(RunFrom(m, events), name))
    decreases |events|
  {
    hide Occur;
    hide Steady;
    hide Moves;
    if events == [] {
    } else {
      assert !Moves(events[0], name);
      OccurAligns(m, events[0], name);
      RunAligns(Occur(m, events[0]), events[1..], name);
      OnLineThrough(HeadOf(m, name), HeadOf(Occur(m, events[0]), name), HeadOf(RunFrom(m, events), name));
    }
  }

  lemma {:induction false} OnLineThrough(x: Commit, y: Commit, z: Commit)
    requires OneOnTop(x, y) && OnLine(y, z)
    ensures OnLine(x, z)
  {
    if y == z {
      OnLineExtends(x, x, y);
    } else {
      OnLineThrough(x, y, z.parents[0]);
    }
  }

  /** The chain. From any state in which nobody is integrating into the target, through any
      operations on any capsules, crashes and recoveries, every commit written to its HEAD has the
      previous HEAD as its sole parent, and HEAD never leaves the line it was on. */
  lemma HeadsFormAChain(m: State, events: seq<Event>, e: Event, name: string)
    requires name in m.world.targets && !Aims(m.proc, name) && Unmoved(events + [e], name)
    ensures var now, later := RunFrom(m, events), RunFrom(m, events + [e]);
            && name in now.world.targets && name in later.world.targets
            && OnLine(m.world.targets[name].head, now.world.targets[name].head)
            && (later.world.targets[name].head == now.world.targets[name].head
                || later.world.targets[name].head.parents == [now.world.targets[name].head])
  {
    hide Occur;
    hide Moves;
    assert (events + [e])[|events|] == e && forall i | 0 <= i < |events| :: (events + [e])[i] == events[i];
    RunAligns(m, events, name);
    RunConcat(m, events, [e]);
    OccurAligns(RunFrom(m, events), e, name);
    var now := RunFrom(m, events);
    assert RunFrom(now, [e]) == RunFrom(Occur(now, e), []);
  }

  // ---- who has landed ----

  /** The capsule's record says its integration into `name` was completed. */
  predicate LandedOn(c: Capsule, name: string) {
    && c.integration.Some?
    && c.integration.value.target == name
    && c.integration.value.after.Some?
    && c.integration.value.integratedAt.Some?
  }

  predicate Landing(targets: map<string, Target>, name: string, c: Capsule) {
    LandedOn(c, name) ==> name in targets && OnLine(c.integration.value.after.value, targets[name].head)
  }

  predicate Lands(s: Local, name: string, pc: PC) {
    && (s.cell.store.manifest.Some? ==> Landing(s.targets, name, s.cell.store.manifest.value))
    && (pc.Write? || pc.DeleteIntegrationRef? || pc.JournalCheckpoint? ==> Landing(s.targets, name, pc.c))
  }

  lemma LandingExtends(s: Local, t: Local, name: string, c: Capsule)
    requires name in s.targets && name in t.targets && OneOnTop(s.targets[name].head, t.targets[name].head)
    requires Landing(s.targets, name, c)
    ensures Landing(t.targets, name, c)
  {
    hide OnLine;
    if LandedOn(c, name) {
      OnLineExtends(c.integration.value.after.value, s.targets[name].head, t.targets[name].head);
    }
  }

  lemma CarriedLands(s: Local, n: Next, name: string)
    requires CarriesOn(s, n) && Lands(s, name, Done(Failed))
    requires name in s.targets && name in n.s.targets && OneOnTop(s.targets[name].head, n.s.targets[name].head)
    ensures Lands(n.s, name, n.pc)
  {
    hide OnLine;
    if s.cell.store.manifest.Some? {
      LandingExtends(s, n.s, name, s.cell.store.manifest.value);
    }
  }

  lemma PrepareLands(s: Local, id: string, c: Capsule, name: string)
    requires Begins(s, id, PrepareIntegration(c)) && Lands(s, name, PrepareIntegration(c))
    ensures var n := StepPrepareIntegration(s, c); Lands(n.s, name, n.pc)
  {
    hide OnLine;
    hide StoredMatch;
    hide Reproduces;
    hide ValidId;
    hide IntegrationCommit;
    hide Diff;
    hide ChangedPaths;
    hide SoundProposal;
  }

  lemma IntegratingLands(s: Local, id: string, pc: PC, name: string)
    requires pc.BeginIntegrate? || pc.JournalTarget? || pc.Revalidate? || pc.DeleteIntegrationRef?
    requires Begins(s, id, pc) && Lands(s, name, pc)
    ensures var n := IntegratingStep(s, pc); Lands(n.s, name, n.pc)
  {
    hide OnLine;
    hide StoredMatch;
    hide EnsureSealed;
    hide Reproduces;
    hide ValidId;
    hide SoundProposal;
    hide StepAdvance;
    hide StepPrepareIntegration;
  }

  lemma AdvanceLands(s: Local, id: string, c: Capsule, name: string)
    requires Begins(s, id, Advance(c)) && Lands(s, name, Advance(c))
    requires name in s.targets && Aligned(s.targets, name, Advance(c))
    ensures var n := StepAdvance(s, c); Lands(n.s, name, n.pc)
  {
    hide FastForward;
    hide StoredMatch;
    hide Reproduces;
    hide ValidId;
    hide SoundProposal;
    var n := StepAdvance(s, c);
    if PcAims(Advance(c), name) {
      AdvanceAligns(s, c, name);
    }
    if s.cell.store.manifest.Some? {
      LandingMoves(s, n.s, name, s.cell.store.manifest.value);
    }
  }

  lemma LandingMoves(s: Local, t: Local, name: string, c: Capsule)
    requires Landing(s.targets, name, c) && name in s.targets && name in t.targets
    ensures OneOnTop(s.targets[name].head, t.targets[name].head) ==> Landing(t.targets, name, c)
  {
    if OneOnTop(s.targets[name].head, t.targets[name].head) {
      LandingExtends(s, t, name, c);
    }
  }

  lemma RecoveryLands(s: Local, id: string, name: string)
    requires Begins(s, id, BeginRecover) && Lands(s, name, BeginRecover)
    ensures var n := StepBeginRecover(s); n.s.targets == s.targets && Lands(n.s, name, n.pc)
  {
    hide OnLine;
    hide Owned;
    hide IntegrationMatches;
    hide StoredMatch;
    hide Reproduces;
    hide ValidId;
    hide SoundProposal;
    LineStarts(s, name);
  }

  lemma LineStarts(s: Local, name: string)
    ensures name in s.targets ==> OnLine(s.targets[name].head, s.targets[name].head)
  {}

  lemma StepLands(s: Local, id: string, pc: PC, name: string)
    requires Begins(s, id, pc) && Lands(s, name, pc)
    requires name in s.targets && Aligned(s.targets, name, pc)
    ensures var n := Step(s, pc); Lands(n.s, name, n.pc)
  {
    hide CreationStep;
    hide CheckpointingStep;
    hide ClosingStep;
    hide DroppingStep;
    hide StepBeginRecover;
    hide StepPrepareIntegration;
    hide StepBeginIntegrate;
    hide StepAdvance;
    hide StepRevalidate;
    hide StepJournalTarget;
    hide StepDeleteIntegrationRef;
    hide Landing;
    hide CarriesOn;
    hide Ready;
    hide Sound;
    hide Aligned;
    StepAligns(s, pc, name);
    var n := Step(s, pc);
    if CreationPc(pc) {
      CreationCarries(s, id, pc);
      CarriedLands(s, n, name);
    } else if CheckpointingPc(pc) {
      CheckpointingCarries(s, id, pc);
      CarriedLands(s, n, name);
    } else if ClosingPc(pc) {
      ClosingCarries(s, id, pc);
      CarriedLands(s, n, name);
    } else if DroppingPc(pc) {
      DroppingCarries(s, id, pc);
      CarriedLands(s, n, name);
    } else if pc.Advance? {
      AdvanceLands(s, id, pc.c, name);
    } else if pc.PrepareIntegration? {
      PrepareLands(s, id, pc.c, name);
    } else if IntegratingPc(pc) {
      IntegratingLands(s, id, pc, name);
    } else if pc.BeginRecover? {
      RecoveryLands(s, id, name);
    }
  }

  /** Everything the induction over runs carries for one capsule and one target. */
  predicate Carried(m: State, id: string, name: string) {
    && Kept(m)
    && AllSound(m)
    && Steady(m, name)
    && Lands(View(m.world, id), name, if Serves(m.proc, id) then m.proc.pc else Done(Failed))
  }

  lemma ServingLands(m: State, id: string, name: string)
    requires Carried(m, id, name) && Serves(m.proc, id)
    ensures Carried(StepProc(m), id, name)
  {
    hide Step;
    hide Kept;
    hide AllSound;
    hide Lands;
    hide Aligned;
    hide Evolves;
    var s := View(m.world, id);
    OccurKeeps(m, Advanced);
    OccurSound(m, Advanced);
    OccurAligns(m, Advanced, name);
    ReadyToStep(m);
    StepLands(s, id, m.proc.pc, name);
    var n := Step(s, m.proc.pc);
    SameLands(n.s, View(StepProc(m).world, id), name, n.pc);
  }

  lemma ReadyToStep(m: State)
    requires Kept(m) && AllSound(m) && m.proc.Running?
    ensures Begins(View(m.world, m.proc.id), m.proc.id, m.proc.pc)
  {
    hide Kept;
    hide Ready;
    hide StoreSound;
    KeptReady(m);
    SoundCell(m, m.proc.id);
  }

  lemma SameLands(s: Local, t: Local, name: string, pc: PC)
    requires Lands(s, name, pc) && t.cell.store == s.cell.store && t.targets == s.targets
    ensures Lands(t, name, pc)
  {
    hide Landing;
  }

  lemma BystanderLands(s: Local, t: Local, name: string, pc: PC)
    requires Lands(s, name, pc) && t.cell.store == s.cell.store
    requires name in s.targets && name in t.targets && OneOnTop(s.targets[name].head, t.targets[name].head)
    ensures Lands(t, name, pc)
  {
    hide OnLine;
    hide LandedOn;
    hide Landing;
    if s.cell.store.manifest.Some? {
      LandingExtends(s, t, name, s.cell.store.manifest.value);
    }
    if pc.Write? || pc.DeleteIntegrationRef? || pc.JournalCheckpoint? {
      LandingExtends(s, t, name, pc.c);
    }
  }

  lemma StoreAside(m: State, e: Event, id: string)
    requires !(e.Advanced? && Serves(m.proc, id))
    ensures CellOf(Occur(m, e).world, id).store == CellOf(m.world, id).store
  {
    hide Step;
    hide Begin;
    hide SameRequest;
    hide Unused;
  }

  lemma ProcAside(m: State, e: Event, id: string)
    requires !(e.Advanced? && Serves(m.proc, id))
    ensures Serves(Occur(m, e).proc, id) ==>
              (Serves(m.proc, id) && Occur(m, e).proc.pc == m.proc.pc)
              || (!Occur(m, e).proc.pc.Write? && !Occur(m, e).proc.pc.DeleteIntegrationRef?
                  && !Occur(m, e).proc.pc.JournalCheckpoint?)
  {
    hide Step;
    hide SameRequest;
    hide Unused;
    hide InitialCapsule;
  }

  lemma OccurLands(m: State, e: Event, id: string, name: string)
    requires Carried(m, id, name) && !Moves(e, name)
    ensures Carried(Occur(m, e), id, name)
  {
    hide Step;
    hide StepProc;
    hide Kept;
    hide AllSound;
    hide Landing;
    hide Aligned;
    hide Evolves;
    hide Begin;
    hide ApplyMove;
    if e.Advanced? && Serves(m.proc, id) {
      ServingLands(m, id, name);
    } else {
      OccurKeeps(m, e);
      OccurSound(m, e);
      OccurAligns(m, e, name);
      StoreAside(m, e, id);
      ProcAside(m, e, id);
      var s, t := View(m.world, id), View(Occur(m, e).world, id);
      BystanderLands(s, t, name, if Serves(m.proc, id) then m.proc.pc else Done(Failed));
      BystanderLands(s, t, name, Done(Failed));
    }
  }

  lemma {:induction false} RunLands(m: State, events: seq<Event>, id: string, name: string)
    requires Carried(m, id, name) && Unmoved(events, name)
    ensures Carried(RunFrom(m, events), id, name)
    decreases |events|
  {
    hide Occur;
    hide Carried;
    hide Moves;
    if events == [] {
    } else {
      assert !Moves(events[0], name);
      OccurLands(m, events[0], id, name);
      RunLands(Occur(m, events[0]), events[1..], id, name);
    }
  }

  lemma SuffixChars(a: string, y: string, i: nat)
    requires ValidId(y) && |y| <= |a| && a[|a| - |y|..] == y
    requires |a| - |y| <= i < |a|
    ensures a[i] != ' '
  {
    assert a[i] == y[i - (|a| - |y|)] && y[i - (|a| - |y|)] in y;
  }

  /** The trailer names the capsule, so the messages of different capsules differ. */
  lemma TrailersDiffer(m: string, n: string, x: string, y: string)
    requires ValidId(x) && ValidId(y)
    requires m + TRAILER + x == n + TRAILER + y
    ensures x == y
  {
    var a, b := m + TRAILER + x, n + TRAILER + y;
    assert a[|a| - |x|..] == x && b[|b| - |y|..] == y;
    assert a[|a| - |x| - 1] == ' ' && b[|b| - |y| - 1] == ' ';
    if |x| < |y| {
      SuffixChars(a, y, |a| - |x| - 1);
    } else if |y| < |x| {
      SuffixChars(b, x, |b| - |y| - 1);
    }
  }

  /** The capsule has changes, and its record says they landed on `name`. */
  predicate LandedChanges(m: State, id: string, name: string) {
    var store := CellOf(m.world, id).store;
    && store.manifest.Some?
    && LandedOn(store.manifest.value, name)
    && store.result.Some?
    && !store.result.value.kind.NoChange?
  }

  lemma LandedIsOnLine(m: State, id: string, name: string)
    requires Carried(m, id, name) && LandedChanges(m, id, name)
    ensures Steady(m, name)
    ensures var i := CellOf(m.world, id).store.manifest.value.integration.value;
            OnLine(i.after.value, HeadOf(m, name))
  {
    hide Kept;
    hide AllSound;
    hide OnLine;
    hide Aligned;
  }

  predicate NotYet(m: State, id: string, name: string) {
    var manifest := CellOf(m.world, id).store.manifest;
    manifest.Some? ==> !LandedOn(manifest.value, name)
  }

  lemma CarriedAtStart(before: seq<Event>, id: string, name: string)
    requires var m := RunFrom(INITIAL, before); Finished(m.proc) && name in m.world.targets && NotYet(m, id, name)
    ensures Carried(RunFrom(INITIAL, before), id, name)
  {
    hide RunFrom;
    hide Kept;
    hide AllSound;
    hide OnLine;
    InitialSound();
    RunKeeps(INITIAL, before);
    RunSound(INITIAL, before);
  }

  /** Two capsules pinned to one base never both land changes on one target: from any reachable
      state in which neither has landed there, over any operations, crashes and recoveries. */
  lemma NoTwoLandOnOneBase(before: seq<Event>, during: seq<Event>, x: string, y: string, name: string)
    requires var m := RunFrom(INITIAL, before);
             && Finished(m.proc)
             && name in m.world.targets
             && NotYet(m, x, name) && NotYet(m, y, name)
    requires Unmoved(during, name) && x != y
    ensures var m := RunFrom(INITIAL, before + during);
            LandedChanges(m, x, name) && LandedChanges(m, y, name) ==>
              CellOf(m.world, x).store.manifest.value.identity.base
              != CellOf(m.world, y).store.manifest.value.identity.base
  {
    hide RunFrom;
    hide NotYet;
    hide Unmoved;
    hide Carried;
    hide OnLine;
    CarriedAtStart(before, x, name);
    CarriedAtStart(before, y, name);
    RunConcat(INITIAL, before, during);
    RunLands(RunFrom(INITIAL, before), during, x, name);
    RunLands(RunFrom(INITIAL, before), during, y, name);
    var m := RunFrom(INITIAL, before + during);
    if LandedChanges(m, x, name) && LandedChanges(m, y, name) {
      LandedIsOnLine(m, x, name);
      LandedIsOnLine(m, y, name);
      JournaledCommitIsTheSeal(before + during, x);
      JournaledCommitIsTheSeal(before + during, y);
      ManifestsStayReadable(before + during, x);
      ManifestsStayReadable(before + during, y);
      var i, j := CellOf(m.world, x).store.manifest.value.integration.value,
                  CellOf(m.world, y).store.manifest.value.integration.value;
      if i.before == j.before {
        OneChildOnALine(i.after.value, j.after.value, HeadOf(m, name));
        TrailersDiffer(i.message, j.message, x, y);
      }
    }
  }
}
