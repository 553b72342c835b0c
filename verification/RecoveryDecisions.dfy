/** Exactly what recovery makes of each interrupted operation, and what a keyed retry resumes, for every
    state and in the state's own fields. */
module RecoveryDecisions {
  import opened Model
  import opened Git
  import opened Ordering
  import opened World
  import opened Machine
  import opened Execution
  import opened Decisions

  // ---- an integration ----

  /** The target is the very worktree the journal names, on the very head ref, of the capsule's
      repository, clean and full. */
  predicate OnItsTarget(s: Local, c: Capsule, i: Integration) {
    && i.target in s.targets
    && s.targets[i.target].commonDir == c.identity.commonDir
    && s.targets[i.target].gitDir == i.gitDir
    && s.targets[i.target].headRef == i.headRef
    && s.targets[i.target].clean
    && s.targets[i.target].full
  }

  /** The head is what the seal lands: the base for a sealed nothing, or its one child that brings
      exactly the sealed patch and paths. */
  predicate Lands(i: Integration, r: Sealed, patch: Patch, head: Commit) {
    if head == i.before then patch == map[] && r.patchBytes == 0 && r.changedPaths == [] && r.kind.NoChange?
    else
      && head.parents == [i.before]
      && Diff(i.before.tree, head.tree) == patch
      && r.changedPaths == SortedKeys(patch.Keys)
  }

  datatype Verdict = Decline | Refuse | Restore | Finalize

  /** The verdict on an integration found on its target. Before the proposed head is journaled, HEAD
      must not have moved. Afterwards the files must be as sealed and the pending ref, where there is
      a change, not somebody else's; HEAD at the proposed head finalizes if it lands the seal, HEAD at
      the base restores if the ref still protects the proposed commit. */
  function VerdictOn(s: Local, c: Capsule, i: Integration): Verdict
    requires i.target in s.targets
  {
    var head, ref, store := s.targets[i.target].head, s.cell.git.integrationRef, s.cell.store;
    match i.after
    case None => if head == i.before then Restore else Decline
    case Some(proposed) =>
      if store.result.None? || store.patch.None? then Refuse
      else if !FilesAreSealed(c, store) then Decline
      else if proposed != i.before && ref.Some? && ref != Some(proposed) then Refuse
      else if head == proposed then
        if Lands(i, store.result.value, store.patch.value, head) then Finalize else Decline
      else if head == i.before && ref == Some(proposed) then Restore
      else Decline
  }

  lemma LandsIsMatch(i: Integration, r: Sealed, patch: Patch, head: Commit)
    ensures IntegrationMatches(i, r, patch, head) <==> Lands(i, r, patch, head)
  {
    hide Diff;
  }

  /** What `recover` does about a capsule found integrating, whatever others do around it. Off its
      target, nothing, whatever else is so. */
  lemma IntegrationIsRecovered(w: World, id: string, schedule: seq<seq<Move>>)
    requires schedule != []
    requires var manifest := Found(w, id, schedule).cell.store.manifest;
             manifest.Some? && manifest.value.state.Integrating? && manifest.value.integration.Some?
    ensures var s := Found(w, id, schedule);
            var c, i := s.cell.store.manifest.value, s.cell.store.manifest.value.integration.value;
            var cleared := WithGit(s, s.cell.git.(integrationRef := None));
            if !OnItsTarget(s, c, i) || VerdictOn(s, c, i).Decline? then
              Execute(w, id, BeginRecover, schedule) == Ending(ApplyMoves(w, schedule[0]), Done(NoAction), schedule[1..])
            else
              match VerdictOn(s, c, i)
              case Refuse => Refused(w, id, BeginRecover, schedule)
              case Restore =>
                GoesOn(w, id, BeginRecover, schedule, cleared, Write(c.(state := Closed, integration := None)))
              case _ =>
                GoesOn(w, id, BeginRecover, schedule, if i.after == Some(i.before) then s else cleared,
                       Write(c.(state := Integrated, integration := Some(i.(integratedAt := Some(s.clock))))))
  {
    hide Execute;
    hide ApplyMoves;
    hide Put;
    hide Step;
    hide OnItsTarget;
    hide VerdictOn;
    hide RecoverIntegrating;
    var s := Found(w, id, schedule);
    var c := s.cell.store.manifest.value;
    FirstBlock(w, id, BeginRecover, schedule);
    Unfolds(s, BeginRecover);
    IntegrationDecides(s, c, c.integration.value);
    if Step(s, BeginRecover) == Next(s, Done(NoAction)) {
      Stops(w, id, BeginRecover, schedule, NoAction);
    }
  }

  lemma IntegrationDecides(s: Local, c: Capsule, i: Integration)
    requires c.integration == Some(i)
    ensures var n, cleared := RecoverIntegrating(s, c), WithGit(s, s.cell.git.(integrationRef := None));
            if !OnItsTarget(s, c, i) || VerdictOn(s, c, i).Decline? then n == Next(s, Done(NoAction))
            else
              match VerdictOn(s, c, i)
              case Refuse => n == Fail(s)
              case Restore => n == Next(cleared, Write(c.(state := Closed, integration := None)))
              case _ =>
                n == Next(if i.after == Some(i.before) then s else cleared,
                          Write(c.(state := Integrated, integration := Some(i.(integratedAt := Some(s.clock))))))
  {
    hide StoredMatch;
    hide FilesAreSealed;
    hide IntegrationMatches;
    hide Lands;
    MatchIsSealed(c, s.cell.store);
    if i.target in s.targets && s.cell.store.result.Some? && s.cell.store.patch.Some? {
      LandsIsMatch(i, s.cell.store.result.value, s.cell.store.patch.value, s.targets[i.target].head);
    }
  }

  // ---- a checkpoint ----

  /** The journal can be proved from Git: the prepared commit is on the old HEAD alone and its change
      is the one whose digest was journaled. */
  predicate IsProved(j: Journal) {
    j.headAfter.parents == [j.headBefore] && j.patchSha256 == OfPatch(Diff(j.headBefore.tree, j.headAfter.tree))
  }

  /** What finishing a journaled checkpoint does first, called by the checkpoint itself or by a sweep:
      nothing is touched unless the worktree is at home, the journal proved and no other commit is
      under the pending ref; a HEAD that is neither end of the journal is left alone. */
  lemma CheckpointIsFinished(s: Local, c: Capsule, sweep: bool)
    requires c.journal.Some?
    ensures var n, g, j := StepFinishCheckpoint(s, c, sweep), s.cell.git, c.journal.value;
            if !AtHome(g, c.gitDir) || !IsProved(j) then n == Fail(s)
            else if g.branch == Some(j.headBefore) then
              if g.checkpointRef.None? then
                n == Next(WithGit(s, g.(checkpointRef := Some(j.headAfter))), AdvanceBranch(c, false))
              else if g.checkpointRef == Some(j.headAfter) then
                n == Next(WithGit(s, g.(branch := Some(j.headAfter))), ResetIndex(c, true))
              else n == Fail(s)
            else if g.branch == Some(j.headAfter) then
              if g.checkpointRef.None? || g.checkpointRef == Some(j.headAfter) then
                n == Next(WithGit(s, g.(index := j.headAfter.tree)), DeleteCheckpointRef(c, g.checkpointRef.Some?))
              else n == Fail(s)
            else n == Next(s, Done(if sweep then NoAction else Failed))
  {
    hide Diff;
    hide Owned;
    hide AtHome;
    OwnedIsAtHome(s.cell.git, c);
    if AtHome(s.cell.git, c.gitDir) {
      HomeHasBranch(s.cell.git, c.gitDir);
    }
  }

  /** And last: the ref is deleted only at the prepared commit, and the checkpoint recorded only if no
      listed one has that commit, with the journal's message, author and time. */
  lemma CheckpointIsRecorded(s: Local, c: Capsule)
    requires c.journal.Some?
    ensures var n, j := StepRecordCheckpoint(s, c), c.journal.value;
            if exists k | 0 <= k < |c.checkpoints| :: c.checkpoints[k].commit == j.headAfter then n == Fail(s)
            else
              && n.pc.Done? && n.pc.outcome.Succeeded?
              && var d := n.pc.outcome.capsule;
                 && n.s == Save(s, d)
                 && |d.checkpoints| == |c.checkpoints| + 1
                 && d == c.(state := Active, journal := None, checkpoints := c.checkpoints + [d.checkpoints[|c.checkpoints|]])
                 && var p := d.checkpoints[|c.checkpoints|];
                    (p.commit, p.message, p.author, p.createdAt) == (j.headAfter, j.message, j.author, j.startedAt)
    ensures var n, g, j := StepDeleteCheckpointRef(s, c, true), s.cell.git, c.journal.value;
            if g.checkpointRef.None? then n == Next(s, RecordCheckpoint(c))
            else if g.checkpointRef == Some(j.headAfter) then
              n == Next(WithGit(s, g.(checkpointRef := None)), RecordCheckpoint(c))
            else n == Fail(s)
  {}

  /** In between, the branch moves only from the old HEAD, and the reset that follows runs in the
      worktree Git resolves, moving the branch too if that worktree is on it. */
  lemma BranchIsAdvanced(s: Local, c: Capsule, pending: bool)
    requires c.journal.Some?
    ensures var n, g, j := StepAdvanceBranch(s, c, pending), s.cell.git, c.journal.value;
            if g.branch == Some(j.headBefore) then
              n == Next(WithGit(s, g.(branch := Some(j.headAfter))), ResetIndex(c, pending))
            else n == Fail(s)
    ensures var n, g, j := StepResetIndex(s, c, pending), s.cell.git, c.journal.value;
            if !Resolves(g) then n == Fail(s)
            else
              var branch := if g.registration.value.onBranch then Some(j.headAfter) else g.branch;
              n == Next(WithGit(s, g.(index := j.headAfter.tree, branch := branch)), DeleteCheckpointRef(c, pending))
  {}

  /** Git finds the admin directory the workspace names. */
  predicate Resolves(g: GitSide) {
    g.entry.Linked? && g.registration.Some? && g.registration.value.gitDir == g.entry.gitDir
  }

  // ---- an open capsule ----

  /** An open capsule not at home is orphaned; at home it at most loses a stray pending ref. */
  lemma OpenIsRecovered(w: World, id: string, schedule: seq<seq<Move>>)
    requires schedule != []
    requires var manifest := Found(w, id, schedule).cell.store.manifest; manifest.Some? && manifest.value.state.Active?
    ensures var s := Found(w, id, schedule);
            var c, g := s.cell.store.manifest.value, s.cell.git;
            if !AtHome(g, c.gitDir) then GoesOn(w, id, BeginRecover, schedule, s, Write(c.(state := Orphaned)))
            else if g.checkpointRef.Some? then
              GoesOn(w, id, BeginRecover, schedule, WithGit(s, g.(checkpointRef := None)), Write(c))
            else Execute(w, id, BeginRecover, schedule) == Ending(ApplyMoves(w, schedule[0]), Done(NoAction), schedule[1..])
  {
    hide Execute;
    hide ApplyMoves;
    hide Put;
    hide Step;
    hide Owned;
    hide AtHome;
    hide RecoverIntegrating;
    var s := Found(w, id, schedule);
    var c := s.cell.store.manifest.value;
    FirstBlock(w, id, BeginRecover, schedule);
    Unfolds(s, BeginRecover);
    OwnedIsAtHome(s.cell.git, c);
    HomeIsThere(s.cell.git, c.gitDir);
    if Step(s, BeginRecover) == Next(s, Done(NoAction)) {
      Stops(w, id, BeginRecover, schedule, NoAction);
    }
  }

  lemma HomeIsThere(g: GitSide, gitDir: Option<string>)
    ensures AtHome(g, gitDir) ==> g.entry != Missing
  {}

  // ---- a creation ----

  /** What Git shows is nothing at all, or exactly the pinned base in a worktree that is the
      capsule's, with HEAD and files as committed, or no files checked out yet. */
  predicate IsAsPinned(g: GitSide, c: Capsule) {
    && g.source
    && if g.entry == Missing then g.branch.None? && g.registration.None?
       else
         && AtHome(g, Resolved(g, c))
         && g.branch == Some(c.identity.base)
         && (g.tree == g.index == c.identity.base.tree || (g.tree == map[] && g.ignored == map[]))
  }

  /** The recorded admin directory, or the one Git resolves at the workspace. */
  function Resolved(g: GitSide, c: Capsule): Option<string> {
    if c.gitDir.Some? then c.gitDir
    else
      match g.entry
      case Missing => None
      case Foreign(elsewhere) => elsewhere
      case Linked(d) =>
        if g.registration.Some? && g.registration.value.gitDir == d then Some(d) else None
  }

  /** Creation goes on exactly from what is as pinned; from anything else it changes nothing of Git,
      and orphans the identity where that is allowed. */
  lemma CreationIsResumed(s: Local, c: Capsule, allowOrphan: bool, sweep: bool)
    ensures var n, g, base := StepCompleteCreating(s, c, allowOrphan, sweep), s.cell.git, c.identity.base;
            if !IsAsPinned(g, c) then
              if !allowOrphan then n == Fail(s)
              else
                var known := if g.source && g.entry != Missing then Resolved(g, c) else c.gitDir;
                var orphan := c.(state := Orphaned, gitDir := known);
                n == Next(Save(s, orphan), if sweep then Write(orphan) else Done(Succeeded(orphan)))
            else if g.entry == Missing then n == Next(WithGit(s, g.(branch := Some(base))), AddWorktree(c, sweep))
            else n == Next(WithGit(s, g.(tree := base.tree, index := base.tree)),
                           Activate(c.(gitDir := Resolved(g, c)), false, sweep))
  {
    hide Owned;
    hide AtHome;
    var g := s.cell.git;
    var located := c.(gitDir := Resolved(g, c));
    OwnedIsAtHome(g, located);
    if AtHome(g, located.gitDir) {
      HomeHasBranch(g, located.gitDir);
    }
  }

  /** A worktree is added only where nothing stands and nothing is registered: on the branch, under an
      admin directory of the capsule's name, with no files yet. The reset that checks them out sets
      files and index to the base, and the branch too if the worktree is on it. */
  lemma WorktreeIsAdded(s: Local, c: Capsule, sweep: bool)
    ensures var n, g, d := StepAddWorktree(s, c, sweep), s.cell.git, c.identity.id;
            if g.entry != Missing || g.registration.Some? then n == Fail(s)
            else
              n == Next(WithGit(s, GitSide(g.source, Linked(d), Some(Registration(d, true)), g.branch, g.checkpointRef,
                                           g.integrationRef, map[], map[], map[])), CheckOut(c, sweep))
    ensures var n, g, base := StepCheckOut(s, c, sweep), s.cell.git, c.identity.base;
            if !Resolves(g) then n == Fail(s)
            else
              var branch := if g.registration.value.onBranch then Some(base) else g.branch;
              n == Next(WithGit(s, g.(tree := base.tree, index := base.tree, branch := branch)), Activate(c, true, sweep))
  {}

  /** What a reservation promised, field by field. */
  predicate IsAsReserved(c: Capsule, r: Reservation<string, Commit>) {
    && (c.identity.id, c.identity.source, c.identity.commonDir) == (r.id, r.source, r.commonDir)
    && (c.identity.base, c.identity.createdAt) == (r.baseCommit, r.reservedAt)
    && (c.identity.title, c.identity.links) == (r.title, r.links)
  }

  /** A retry returns or resumes only a capsule that is as reserved, and starts one only where nothing
      is stored yet, as reserved. */
  lemma ReservationIsResumed(w: World, record: Reservation<string, Commit>, schedule: seq<seq<Move>>)
    requires schedule != [] && |record.id| >= 4
    ensures var s, pc := Found(w, record.id, schedule), Materialize(record);
            var store, around := s.cell.store, ApplyMoves(w, schedule[0]);
            match store.manifest
            case Some(c) =>
              if !IsAsReserved(c, record) then Refused(w, record.id, pc, schedule)
              else if c.state.Creating? then GoesOn(w, record.id, pc, schedule, s, CompleteCreating(c, true, false))
              else Execute(w, record.id, pc, schedule) == Ending(around, Done(Succeeded(c)), schedule[1..])
            case None =>
              if store.result.Some? || store.patch.Some? || !s.cell.git.source then Refused(w, record.id, pc, schedule)
              else
                exists c ::
                  && IsAsReserved(c, record)
                  && c.state.Creating? && c.gitDir.None?
                  && c.checkpoints == [] && c.evidence == [] && c.result.None?
                  && c.identity.branch == "capsule/" + record.id[4..]
                  && c.identity.workspace == ["workspaces", record.commonDir, record.id]
                  && GoesOn(w, record.id, pc, schedule, s, Prepare(c, true))
  {
    hide Execute;
    hide ApplyMoves;
    hide Put;
    hide Step;
    hide StepPrepare;
    hide StepCompleteCreating;
    hide StepAddWorktree;
    hide StepCheckOut;
    hide StepActivate;
    var s, pc := Found(w, record.id, schedule), Materialize(record);
    FirstBlock(w, record.id, pc, schedule);
    Unfolds(s, pc);
    if s.cell.store.manifest.Some? && Step(s, pc).pc.Done? && !Step(s, pc).pc.outcome.Failed? {
      Stops(w, record.id, pc, schedule, Succeeded(s.cell.store.manifest.value));
    }
  }

  /** The directory is made only where there is none, or an empty one of the same reservation. */
  lemma DirectoryIsMade(s: Local, c: Capsule, reserved: bool)
    ensures var n, store := StepPrepare(s, c, reserved), s.cell.store;
            if store.directory && !(reserved && store.manifest.None? && store.result.None? && store.patch.None?)
            then n == Fail(s)
            else n == Next(s.(cell := s.cell.(store := store.(directory := true))), Publish(c, reserved))
  {}

  /** A new worktree becomes the capsule's only if it is at home under the directory Git resolves. */
  lemma CreationIsActivated(s: Local, c: Capsule, sweep: bool)
    requires c.gitDir.None?
    ensures var n, active := StepActivate(s, c, true, sweep), c.(state := Active, gitDir := Resolved(s.cell.git, c));
            if AtHome(s.cell.git, Resolved(s.cell.git, c)) then
              n == Next(Save(s, active), if sweep then Write(active) else Done(Succeeded(active)))
            else n == Fail(s)
  {
    hide Owned;
    hide AtHome;
    OwnedIsAtHome(s.cell.git, c.(gitDir := RepositoryGitDir(s.cell.git)));
  }

  // ---- a request ----

  /** A generated identifier may be used: nothing is stored under it and no reservation names it. */
  predicate IsFree(w: World, id: string) {
    && (id in w.cells ==> w.cells[id].store == Store(false, None, None, None))
    && forall key | key in w.reservations :: w.reservations[key].id != id
  }

  /** The request is the reserved one: it may name the reserved commit otherwise, and nothing else. */
  predicate Repeats(request: Request<string, Commit>, r: Reservation<string, Commit>) {
    && (request.source, request.commonDir) == (r.source, r.commonDir)
    && (request.title, request.links) == (r.title, r.links)
    && (request.selector == r.selector || request.resolved == Some(r.baseCommit))
  }

  /** The reservation says what was asked, the commit it meant, and when. */
  predicate Reserves(r: Reservation<string, Commit>, request: Request<string, Commit>, id: string, now: nat) {
    && r.id == id && r.reservedAt == now
    && (r.source, r.commonDir, r.selector) == (request.source, request.commonDir, request.selector)
    && (r.title, r.links) == (request.title, request.links)
    && request.resolved == Some(r.baseCommit)
  }

  /** A keyed request goes on with the reservation of its key if it repeats it; for a key of its own it
      publishes one, write-once, before anything else; and otherwise nothing is changed. */
  lemma RequestIsDecided(w: World, key: string, request: Request<string, Commit>, freshId: string)
    requires ValidId(freshId)
    ensures var after := StepReserve(w, key, request, freshId);
            if key in w.reservations then
              && after.world == w
              && after.proc == (if Repeats(request, w.reservations[key])
                                then Running(w.reservations[key].id, Some(key), Materialize(w.reservations[key]))
                                else Idle)
            else if request.resolved.Some? && IsFree(w, freshId) then
              && key in after.world.reservations
              && after.world == w.(reservations := w.reservations[key := after.world.reservations[key]])
              && Reserves(after.world.reservations[key], request, freshId, w.clock)
              && after.proc == Running(freshId, Some(key), Materialize(after.world.reservations[key]))
            else after == State(w, Idle)
  {}

  /** A plain creation starts from the request itself, under a free identifier. */
  lemma CreationIsBegun(w: World, id: string, request: Request<string, Commit>)
    requires ValidId(id)
    ensures var p := Begin(w, Create(id, request));
            if request.resolved.Some? && IsFree(w, id) then
              && p.Running? && p.id == id && p.pc.Prepare? && !p.pc.reserved
              && var c := p.pc.c;
                 && c.state.Creating? && c.gitDir.None? && c.checkpoints == [] && c.evidence == [] && c.result.None?
                 && (c.identity.id, c.identity.source, c.identity.commonDir) == (id, request.source, request.commonDir)
                 && (c.identity.title, c.identity.links) == (request.title, request.links)
                 && request.resolved == Some(c.identity.base) && c.identity.createdAt == w.clock
            else p == Idle
  {}
}
