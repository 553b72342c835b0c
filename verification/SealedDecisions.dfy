/** Exactly when a sealed capsule may be integrated or a capsule dropped, what each journals, and what
    their second looks accept, for every state and in the state's own fields. */
module SealedDecisions {
  import opened Model
  import opened Git
  import opened Ordering
  import opened World
  import opened Machine
  import opened Execution
  import opened Decisions

  // ---- integrate ----

  /** A clean and full worktree of the capsule's repository, at the capsule's base. */
  predicate Accepts(s: Local, target: string, c: Capsule) {
    && target in s.targets
    && s.targets[target].commonDir == c.identity.commonDir
    && s.targets[target].clean
    && s.targets[target].full
    && s.targets[target].head == c.identity.base
  }

  predicate MayIntegrate(s: Local, target: string) {
    && s.cell.store.manifest.Some?
    && s.cell.store.manifest.value.state.Closed?
    && SealHolds(s, s.cell.store.manifest.value)
    && Accepts(s, target, s.cell.store.manifest.value)
  }

  /** The subject given, or else the capsule's title, or else one made of its id. */
  predicate Entitled(message: string, subject: Option<string>, c: Capsule) {
    && (subject.Some? ==> message == subject.value)
    && (subject.None? && c.identity.title.Some? ==> message == c.identity.title.value)
    && (subject.None? && c.identity.title.None? ==> message == "Integrate capsule " + c.identity.id)
  }

  /** The first journal: the target as it stands, and nothing prepared yet. */
  predicate Journals(d: Capsule, c: Capsule, target: string, t: Target, subject: Option<string>, author: Author) {
    && d.integration.Some?
    && d == c.(state := Integrating, integration := d.integration)
    && var i := d.integration.value;
       && (i.target, i.gitDir, i.headRef, i.before) == (target, t.gitDir, t.headRef, t.head)
       && i.after.None? && i.integratedAt.None?
       && i.author == author
       && Entitled(i.message, subject, c)
  }

  /** Integration journals itself on a closed capsule whose seal holds and a target that accepts it,
      and otherwise is refused. */
  lemma IntegrationIsDecided(w: World, id: string, target: string, subject: Option<string>, author: Author,
                             schedule: seq<seq<Move>>)
    requires schedule != []
    ensures var s, pc := Found(w, id, schedule), BeginIntegrate(target, subject, author);
            if MayIntegrate(s, target) then
              exists d ::
                && Journals(d, s.cell.store.manifest.value, target, s.targets[target], subject, author)
                && GoesOn(w, id, pc, schedule, Save(s, d), PrepareIntegration(d))
            else Refused(w, id, pc, schedule)
  {
    hide Execute;
    hide ApplyMoves;
    hide Put;
    hide Step;
    hide EnsureSealed;
    hide SealHolds;
    hide Begun;
    hide StepPrepareIntegration;
    hide StepJournalTarget;
    hide StepRevalidate;
    hide StepAdvance;
    hide StepDeleteIntegrationRef;
    var s, pc := Found(w, id, schedule), BeginIntegrate(target, subject, author);
    FirstBlock(w, id, pc, schedule);
    Unfolds(s, pc);
    if s.cell.store.manifest.Some? {
      var c := s.cell.store.manifest.value;
      SealedIsHeld(s, c);
      if MayIntegrate(s, target) {
        BegunJournals(c, target, s.targets[target], subject, author);
      }
    }
  }

  lemma BegunJournals(c: Capsule, target: string, t: Target, subject: Option<string>, author: Author)
    ensures Journals(Begun(c, target, t, subject, author), c, target, t, subject, author)
  {}

  /** The commit brings exactly the sealed change onto the capsule's base alone, in the caller's name
      and with a message that names the capsule. */
  predicate LandsSeal(capsule: Capsule, result: Sealed, patch: Patch, commit: Commit)
    requires capsule.integration.Some?
  {
    && commit.parents == [capsule.identity.base]
    && Diff(capsule.identity.base.tree, commit.tree) == patch
    && ChangedPaths(patch) == result.changedPaths
    && commit.message == IntegrationMessage(capsule)
    && commit.author == capsule.integration.value.author
  }

  /** There is at most one, the one Git builds from the patch; a seal that reproduces has one. */
  lemma SealIsLanded(capsule: Capsule, result: Sealed, patch: Patch)
    requires capsule.integration.Some?
    ensures var built, base := IntegrationCommit(capsule, patch), capsule.identity.base;
            forall commit :: LandsSeal(capsule, result, patch, commit)
                             <==> built == Some(commit) && commit.parents == [base]
                                  && Diff(base.tree, commit.tree) == patch
                                  && ChangedPaths(patch) == result.changedPaths
    ensures Reproduces(capsule.identity.base, result, patch) ==>
              var built := IntegrationCommit(capsule, patch);
              built.Some? && LandsSeal(capsule, result, patch, built.value)
  {
    hide Diff;
    hide Apply;
    hide ChangedPaths;
    hide IntegrationMessage;
    forall commit | LandsSeal(capsule, result, patch, commit)
      ensures IntegrationCommit(capsule, patch) == Some(commit)
    {
      ApplyDiff(capsule.identity.base.tree, commit.tree);
    }
  }

  /** What is to land: HEAD itself when nothing is sealed, else the commit that lands the seal. */
  predicate IsProposed(s: Local, c: Capsule, r: Sealed, patch: Patch, proposed: Commit)
    requires c.integration.Some?
  {
    && c.integration.value.target in s.targets
    && if r.kind.NoChange? then proposed == s.targets[c.integration.value.target].head
       else LandsSeal(c, r, patch, proposed)
  }

  /** What preparing an integration does: without the files it fails; with nothing it could land it goes
      back to closed; a proposed head that is the base is journaled, and any other is first pinned by
      the pending ref, which must be free. */
  lemma PreparationIsDecided(s: Local, c: Capsule)
    requires c.integration.Some?
    ensures var n, store, i, g := StepPrepareIntegration(s, c), s.cell.store, c.integration.value, s.cell.git;
            if store.result.None? || store.patch.None? then n == Fail(s)
            else if !(exists proposed :: IsProposed(s, c, store.result.value, store.patch.value, proposed)) then
              n == Next(Save(s, c.(state := Closed, integration := None)), Done(Failed))
            else
              forall proposed | IsProposed(s, c, store.result.value, store.patch.value, proposed) ::
                var journaled := c.(integration := Some(i.(after := Some(proposed))));
                if proposed == i.before then n == Next(Save(s, journaled), Revalidate(journaled))
                else if g.integrationRef.Some? then n == Fail(s)
                else n == Next(WithGit(s, g.(integrationRef := Some(proposed))), JournalTarget(c, proposed))
  {
    hide Diff;
    hide ChangedPaths;
    hide IntegrationCommit;
    hide LandsSeal;
    var store := s.cell.store;
    if store.result.Some? && store.patch.Some? {
      SealIsLanded(c, store.result.value, store.patch.value);
      if c.integration.value.target in s.targets {
        assert store.result.value.kind.NoChange? ==>
            IsProposed(s, c, store.result.value, store.patch.value, s.targets[c.integration.value.target].head);
        var built := IntegrationCommit(c, store.patch.value);
        assert built.Some? && LandsSeal(c, store.result.value, store.patch.value, built.value)
               && !store.result.value.kind.NoChange? ==>
            IsProposed(s, c, store.result.value, store.patch.value, built.value);
      }
    }
  }

  /** HEAD moves only forward to the journaled commit: there if it descends from HEAD, nowhere if HEAD is
      already past it, and else the call fails. What follows is the ref, deleted only at that commit. */
  lemma LandingIsDecided(s: Local, c: Capsule)
    requires c.integration.Some? && c.integration.value.after.Some?
    ensures var n, i := StepAdvance(s, c), c.integration.value;
            var p, final := i.after.value, c.(state := Integrated, integration := Some(i.(integratedAt := Some(s.clock))));
            if p == i.before then n == Next(s, Write(final))
            else if i.target !in s.targets then n == Fail(s)
            else
              var t := s.targets[i.target];
              if Ancestor(t.head, p) then
                n == Next(s.(targets := s.targets[i.target := t.(head := p)]), DeleteIntegrationRef(final, p))
              else if Ancestor(p, t.head) then n == Next(s, DeleteIntegrationRef(final, p))
              else n == Fail(s)
    ensures forall p :: var n, g := StepDeleteIntegrationRef(s, c, p), s.cell.git;
              if g.integrationRef.None? then n == Next(s, Write(c))
              else if g.integrationRef == Some(p) then n == Next(WithGit(s, g.(integrationRef := None)), Write(c))
              else n == Fail(s)
  {
    var i := c.integration.value;
    if i.target in s.targets {
      var t := s.targets[i.target];
      assert s.targets[i.target := t.(head := t.head)] == s.targets;
    }
  }

  /** The target is still as journaled, clean, and where it was. */
  predicate StandsAsJournaled(s: Local, c: Capsule) {
    && c.integration.Some?
    && var i := c.integration.value;
       && i.target in s.targets
       && s.targets[i.target].commonDir == c.identity.commonDir
       && s.targets[i.target].gitDir == i.gitDir
       && s.targets[i.target].headRef == i.headRef
       && s.targets[i.target].clean
       && s.targets[i.target].head == i.before
  }

  /** The look immediately before the fast-forward. */
  lemma AdvanceIsDecided(w: World, id: string, c: Capsule, schedule: seq<seq<Move>>)
    requires schedule != []
    ensures var s, pc := Found(w, id, schedule), Revalidate(c);
            if StandsAsJournaled(s, c) then GoesOn(w, id, pc, schedule, s, Advance(c))
            else Refused(w, id, pc, schedule)
  {
    hide Execute;
    hide ApplyMoves;
    hide Put;
    hide Step;
    hide StepBeginIntegrate;
    hide StepPrepareIntegration;
    hide StepAdvance;
    hide StepDeleteIntegrationRef;
    FirstBlock(w, id, Revalidate(c), schedule);
    Unfolds(Found(w, id, schedule), Revalidate(c));
  }

  // ---- drop ----

  /** The commits a manifest records: its base, its checkpoints, the head it was sealed at, and both
      ends of a checkpoint under way. */
  function Recorded(c: Capsule): set<Commit> {
    {c.identity.base}
    + (set k | 0 <= k < |c.checkpoints| :: c.checkpoints[k].commit)
    + (if c.result.Some? then {c.result.value.headCommit} else {})
    + (if c.journal.Some? then {c.journal.value.headBefore, c.journal.value.headAfter} else {})
  }

  lemma RecordedIsHead(c: Capsule, head: Commit)
    ensures RecordedHead(c, head) <==> head in Recorded(c)
  {}

  predicate IsSealed(c: Capsule) { c.state.Closed? || c.state.Integrated? }

  /** What stands at the path, or else the registration, or else the branch, must be the capsule's:
      a workspace at home (a creation is asked what its worktree is), a registration on the capsule's
      branch, or a branch at a commit the manifest records. */
  predicate IsItsOwn(g: GitSide, c: Capsule) {
    if g.entry != Missing then AtHome(g, Named(g, c))
    else if g.registration.Some? then g.registration.value.onBranch && g.branch.Some?
    else g.branch.Some? ==> g.branch.value in Recorded(c)
  }

  /** The admin directory the record names; a creation that does not know it yet asks Git. */
  function Named(g: GitSide, c: Capsule): Option<string> {
    if c.gitDir.None? && c.state.Creating? && g.entry != Missing then
      match g.entry
      case Foreign(elsewhere) => elsewhere
      case Linked(d) =>
        if g.registration.Some? && g.registration.value.gitDir == d then Some(d) else None
    else c.gitDir
  }

  /** Work that is not sealed takes force, and sealed work not forced takes its workspace with the
      seal holding. */
  predicate MayDrop(s: Local, force: bool) {
    && s.cell.store.manifest.Some?
    && var c, g := s.cell.store.manifest.value, s.cell.git;
       && (force || IsSealed(c) || c.state.Orphaned?)
       && (IsSealed(c) && !force ==> SealHolds(s, c))
       && IsItsOwn(g, c)
  }

  /** The cleanup journal: the branch as it stands, and whether the seal is to be checked again. */
  predicate JournalsCleanup(d: Capsule, c: Capsule, g: GitSide, force: bool) {
    && d.cleanup == Some(Cleanup(g.branch, IsSealed(c) && !force))
    && d == c.(state := Dropping, gitDir := Named(g, c), cleanup := d.cleanup)
  }

  /** A drop returns a capsule already dropped, resumes one being dropped, and else journals itself or is
      refused. */
  lemma DropIsDecided(w: World, id: string, force: bool, schedule: seq<seq<Move>>)
    requires schedule != []
    ensures var s, pc := Found(w, id, schedule), BeginDrop(force);
            var manifest := s.cell.store.manifest;
            if manifest.Some? && manifest.value.state.Dropped? then
              Execute(w, id, pc, schedule) == Ending(ApplyMoves(w, schedule[0]), Done(Succeeded(manifest.value)), schedule[1..])
            else if manifest.Some? && manifest.value.state.Dropping? then
              GoesOn(w, id, pc, schedule, s, RemoveWorktree(manifest.value))
            else if MayDrop(s, force) then
              exists d ::
                && JournalsCleanup(d, manifest.value, s.cell.git, force)
                && GoesOn(w, id, pc, schedule, Save(s, d), RemoveWorktree(d))
            else Refused(w, id, pc, schedule)
  {
    hide Execute;
    hide ApplyMoves;
    hide Put;
    hide Step;
    hide StepBeginDrop;
    hide MayDrop;
    hide StepRemoveWorktree;
    hide StepDeleteBranch;
    hide StepPrune;
    var s, pc := Found(w, id, schedule), BeginDrop(force);
    FirstBlock(w, id, pc, schedule);
    Unfolds(s, pc);
    var manifest := s.cell.store.manifest;
    if manifest.Some? && (manifest.value.state.Dropped? || manifest.value.state.Dropping?) {
      DropResumes(s, force);
      if manifest.value.state.Dropped? {
        Stops(w, id, pc, schedule, Succeeded(manifest.value));
      }
    } else {
      DropDecides(s, force);
    }
  }

  lemma DropResumes(s: Local, force: bool)
    requires s.cell.store.manifest.Some?
    requires s.cell.store.manifest.value.state.Dropped? || s.cell.store.manifest.value.state.Dropping?
    ensures var c := s.cell.store.manifest.value;
            StepBeginDrop(s, force) == Next(s, if c.state.Dropped? then Done(Succeeded(c)) else RemoveWorktree(c))
  {
    hide EnsureSealed;
    hide Owned;
  }

  lemma DropDecides(s: Local, force: bool)
    requires s.cell.store.manifest.Some? ==>
               !s.cell.store.manifest.value.state.Dropping? && !s.cell.store.manifest.value.state.Dropped?
    ensures var n := StepBeginDrop(s, force);
            if MayDrop(s, force) then
              && n.pc.RemoveWorktree?
              && JournalsCleanup(n.pc.c, s.cell.store.manifest.value, s.cell.git, force)
              && n.s == Save(s, n.pc.c)
            else n == Fail(s)
  {
    hide EnsureSealed;
    hide SealHolds;
    hide Owned;
    hide AtHome;
    hide RecordedHead;
    hide Recorded;
    if s.cell.store.manifest.Some? {
      var c, g := s.cell.store.manifest.value, s.cell.git;
      SealedIsHeld(s, c);
      SealHoldsAtHome(s, c);
      OwnedIsAtHome(g, c);
      OwnedIsAtHome(g, c.(gitDir := RepositoryGitDir(g)));
      if g.branch.Some? {
        RecordedIsHead(c, g.branch.value);
      }
    }
  }

  lemma SealHoldsAtHome(s: Local, c: Capsule)
    ensures SealHolds(s, c) ==> AtHome(s.cell.git, c.gitDir) && s.cell.git.entry != Missing
  {
    hide FilesAreSealed;
    hide Diff;
  }

  /** The second look, before the workspace is deleted: it is at home, on the journaled head, and the
      seal still holds if the journal asks for that; a registration left over is the capsule's own. */
  predicate MayRemove(s: Local, c: Capsule) {
    && c.cleanup.Some?
    && var g, head := s.cell.git, c.cleanup.value.branchHead;
       if g.entry != Missing then
         && AtHome(g, c.gitDir) && g.branch == head
         && (c.cleanup.value.requireSealed ==> SealHolds(s, c))
       else g.registration.Some? ==> g.registration.value.onBranch && g.branch.Some? && g.branch == head
  }

  lemma RemovalIsDecided(w: World, id: string, c: Capsule, schedule: seq<seq<Move>>)
    requires schedule != []
    ensures var s, pc := Found(w, id, schedule), RemoveWorktree(c);
            var g := s.cell.git;
            if !MayRemove(s, c) then Refused(w, id, pc, schedule)
            else if g.entry != Missing then
              GoesOn(w, id, pc, schedule, WithGit(s, g.(entry := Missing, tree := map[], index := map[], ignored := map[])),
                     Deregister(c))
            else GoesOn(w, id, pc, schedule, WithGit(s, g.(registration := None)), DeleteBranch(c))
  {
    hide Execute;
    hide ApplyMoves;
    hide Put;
    hide Step;
    hide EnsureSealed;
    hide SealHolds;
    hide Owned;
    hide AtHome;
    hide StepBeginDrop;
    hide StepDeleteBranch;
    hide StepPrune;
    var s, pc := Found(w, id, schedule), RemoveWorktree(c);
    FirstBlock(w, id, pc, schedule);
    Unfolds(s, pc);
    SealedIsHeld(s, c);
    OwnedIsAtHome(s.cell.git, c);
  }

  /** The branch goes only at the journaled head and while no registered worktree is on it; a branch
      that was not there at first is refused if it has appeared. */
  lemma BranchDeletionIsDecided(w: World, id: string, c: Capsule, schedule: seq<seq<Move>>)
    requires schedule != [] && c.cleanup.Some?
    ensures var s, pc := Found(w, id, schedule), DeleteBranch(c);
            var g := s.cell.git;
            if g.branch.None? then GoesOn(w, id, pc, schedule, s, Prune(c))
            else if c.cleanup.value.branchHead == g.branch && !(g.registration.Some? && g.registration.value.onBranch) then
              GoesOn(w, id, pc, schedule, WithGit(s, g.(branch := None)), Prune(c))
            else Refused(w, id, pc, schedule)
  {
    hide Execute;
    hide ApplyMoves;
    hide Put;
    hide Step;
    hide StepBeginDrop;
    hide StepRemoveWorktree;
    hide StepPrune;
    FirstBlock(w, id, DeleteBranch(c), schedule);
    Unfolds(Found(w, id, schedule), DeleteBranch(c));
  }

  /** A prune forgets a registration only where nothing stands at the workspace. */
  lemma PruneIsDecided(s: Local, c: Capsule)
    ensures var n, g := StepPrune(s, c), s.cell.git;
            n == Next(if g.entry == Missing then WithGit(s, g.(registration := None)) else s, ClearCheckpointRef(c))
  {}
}
