/** The lifecycle as a machine of durable steps. A program counter stands before one block of
    code: what that block reads, and the at most one durable effect it ends with. A process may
    die at any counter, and anything outside the manager may change in between. */
module Machine {
  import opened Model
  import opened Git
  import opened Ordering
  import opened World

  const CHECKPOINT_COUNT_CAP: nat := 128
  const EVIDENCE_COUNT_CAP: nat := 64
  const EVIDENCE_TOTAL_BYTES_CAP: nat := 256 * 1024

  /** What an evidence call brings to the locked section: a claim, or a finished execution. */
  datatype EvidenceInput =
    | Claim(command: string, exitCode: int, summary: Option<string>)
    | Run(command: string, exitCode: int, summary: Option<string>, output: string)

  /** One pass of the close snapshot transaction. */
  datatype Observation = Observation(patch: Patch, head: Commit, clean: bool, ignored: Tree)

  datatype Outcome = Failed | NoAction | Succeeded(capsule: Capsule)

  /** `c` is the process's own copy of the manifest; `sweep` marks a call made by recovery. */
  datatype PC =
    | Done(outcome: Outcome)
    | Write(c: Capsule)
    // create.rs
    | Materialize(record: Reservation<string, Commit>)
    | Prepare(c: Capsule, reserved: bool)
    | Publish(c: Capsule, reserved: bool)
    | CompleteCreating(c: Capsule, allowOrphan: bool, sweep: bool)
    | AddWorktree(c: Capsule, sweep: bool)
    | CheckOut(c: Capsule, sweep: bool)
    | Activate(c: Capsule, created: bool, sweep: bool)
    // checkpoint
    | BeginCheckpoint(message: string, author: Author)
    | JournalCheckpoint(c: Capsule)
    | FinishCheckpoint(c: Capsule, sweep: bool)
    | AdvanceBranch(c: Capsule, pending: bool)
    | ResetIndex(c: Capsule, pending: bool)
    | DeleteCheckpointRef(c: Capsule, pending: bool)
    | RecordCheckpoint(c: Capsule)
    // evidence and close
    | AttachEvidence(input: EvidenceInput)
    | ObserveClose(required: Requirements)
    | ConfirmClose(c: Capsule, required: Requirements, first: Observation)
    | WriteResult(c: Capsule, result: Sealed)
    // integrate
    | BeginIntegrate(target: string, subject: Option<string>, author: Author)
    | PrepareIntegration(c: Capsule)
    | JournalTarget(c: Capsule, proposed: Commit)
    | Revalidate(c: Capsule)
    | Advance(c: Capsule)
    | DeleteIntegrationRef(c: Capsule, expected: Commit)
    // drop
    | BeginDrop(force: bool)
    | RemoveWorktree(c: Capsule)
    | Deregister(c: Capsule)
    | DeleteBranch(c: Capsule)
    | Prune(c: Capsule)
    | ClearCheckpointRef(c: Capsule)
    | ClearIntegrationRef(c: Capsule)
    // recover.rs
    | BeginRecover

  datatype Next = Next(s: Local, pc: PC)

  // ---- effects ----

  function Save(s: Local, c: Capsule): Local {
    s.(cell := s.cell.(store := s.cell.store.(manifest := Some(c))))
  }

  function WithGit(s: Local, g: GitSide): Local {
    s.(cell := s.cell.(git := g))
  }

  function Fail(s: Local): Next { Next(s, Done(Failed)) }

  // ---- create.rs ----

  function InitialCapsule(id: string, title: Option<string>, links: map<string, string>, source: string,
                          commonDir: string, base: Commit, now: nat): Capsule
    requires |id| >= 4
  {
    Capsule(
      Identity(id, title, links, source, commonDir, WorkspacePath(commonDir, id), BranchName(id), base, now),
      Creating, None, [], None, [], None, None, None, None, None)
  }

  /** `validate_reservation_capsule`. */
  predicate Agrees(record: Reservation<string, Commit>, c: Capsule) {
    && c.identity.id == record.id
    && c.identity.source == record.source
    && c.identity.commonDir == record.commonDir
    && c.identity.base == record.baseCommit
    && c.identity.title == record.title
    && c.identity.links == record.links
    && c.identity.createdAt == record.reservedAt
  }

  predicate EmptyStore(store: Store) {
    store.manifest.None? && store.result.None? && store.patch.None?
  }

  function StepMaterialize(s: Local, record: Reservation<string, Commit>): Next {
    var store := s.cell.store;
    match store.manifest
    case Some(c) =>
      if !Agrees(record, c) then Fail(s)
      else if c.state.Creating? then Next(s, CompleteCreating(c, true, false))
      else Next(s, Done(Succeeded(c)))
    case None =>
      if !EmptyStore(store) || !s.cell.git.source || |record.id| < 4 then Fail(s)
      else
        Next(s, Prepare(InitialCapsule(record.id, record.title, record.links, record.source,
                                       record.commonDir, record.baseCommit, record.reservedAt), true))
  }

  function StepPrepare(s: Local, c: Capsule, reserved: bool): Next {
    var store := s.cell.store;
    if store.directory && !(reserved && EmptyStore(store)) then Fail(s)
    else Next(s.(cell := s.cell.(store := store.(directory := true))), Publish(c, reserved))
  }

  function Abandon(s: Local, c: Capsule, allowOrphan: bool, sweep: bool): Next {
    if !allowOrphan then Fail(s)
    else
      var orphan := c.(state := Orphaned);
      Next(Save(s, orphan), if sweep then Write(orphan) else Done(Succeeded(orphan)))
  }

  function StepCompleteCreating(s: Local, c: Capsule, allowOrphan: bool, sweep: bool): Next {
    var g := s.cell.git;
    if !g.source then Abandon(s, c, allowOrphan, sweep)
    else if g.entry != Missing then
      var c1 := if c.gitDir.None? then c.(gitDir := RepositoryGitDir(g)) else c;
      if !Owned(g, c1) then Abandon(s, c1, allowOrphan, sweep)
      else if g.branch.value != c.identity.base || (!Clean(g) && !Unchecked(g)) then
        Abandon(s, c1, allowOrphan, sweep)
      else
        Next(WithGit(s, g.(tree := c.identity.base.tree, index := c.identity.base.tree)),
             Activate(c1, false, sweep))
    else if g.branch.Some? || g.registration.Some? then Abandon(s, c, allowOrphan, sweep)
    else Next(WithGit(s, g.(branch := Some(c.identity.base))), AddWorktree(c, sweep))
  }

  /** The second half of `git worktree add --no-checkout -b`: admin entry and bare directory. */
  function StepAddWorktree(s: Local, c: Capsule, sweep: bool): Next {
    var g := s.cell.git;
    if g.entry != Missing || g.registration.Some? then Fail(s)
    else
      var d := c.identity.id;
      Next(WithGit(s, g.(entry := Linked(d), registration := Some(Registration(d, true)),
                         tree := map[], index := map[], ignored := map[])),
           CheckOut(c, sweep))
  }

  /** `git reset --hard`; on a branch it moves that branch too. */
  function StepCheckOut(s: Local, c: Capsule, sweep: bool): Next {
    var g := s.cell.git;
    if !g.entry.Linked? || RepositoryGitDir(g).None? then Fail(s)
    else
      var g1 := g.(tree := c.identity.base.tree, index := c.identity.base.tree);
      Next(WithGit(s, if g.registration.value.onBranch then g1.(branch := Some(c.identity.base)) else g1),
           Activate(c, true, sweep))
  }

  function StepActivate(s: Local, c: Capsule, created: bool, sweep: bool): Next {
    var g := s.cell.git;
    var c1 := if created then c.(gitDir := RepositoryGitDir(g)) else c;
    if created && !Owned(g, c1) then Fail(s)
    else
      var active := c1.(state := Active);
      Next(Save(s, active), if sweep then Write(active) else Done(Succeeded(active)))
  }

  // ---- lifecycle.rs: checkpoint ----

  function StepBeginCheckpoint(s: Local, message: string, author: Author): Next {
    var g := s.cell.git;
    match s.cell.store.manifest
    case None => Fail(s)
    case Some(c) =>
      if !c.state.Active? || !Owned(g, c) then Fail(s)
      else
        var before := g.branch.value;
        var patch := Diff(before.tree, g.tree);
        if patch == map[] then Fail(s)
        else
          match CommitPatch(before, patch, message, author)
          case None => Fail(s)
          case Some(after) =>
            if after.parents != [before] || Diff(before.tree, after.tree) != patch then Fail(s)
            else if |c.checkpoints| >= CHECKPOINT_COUNT_CAP then Fail(s)
            else if g.checkpointRef.Some? then Fail(s)
            else
              var journal := Journal(before, after, OfPatch(patch), message, author, s.clock);
              Next(WithGit(s, g.(checkpointRef := Some(after))),
                   JournalCheckpoint(c.(state := Checkpointing, journal := Some(journal))))
  }

  function StepFinishCheckpoint(s: Local, c: Capsule, sweep: bool): Next {
    var g := s.cell.git;
    if c.journal.None? || !Owned(g, c) then Fail(s)
    else
      var j := c.journal.value;
      if j.headAfter.parents != [j.headBefore]
         || OfPatch(Diff(j.headBefore.tree, j.headAfter.tree)) != j.patchSha256 then Fail(s)
      else
        var head := g.branch.value;
        var pending := g.checkpointRef;
        if head == j.headBefore then
          match pending
          case Some(p) =>
            if p != j.headAfter then Fail(s)
            else Next(WithGit(s, g.(branch := Some(j.headAfter))), ResetIndex(c, true))
          case None =>
            Next(WithGit(s, g.(checkpointRef := Some(j.headAfter))), AdvanceBranch(c, false))
        else if head == j.headAfter then
          if pending.Some? && pending.value != head then Fail(s)
          else Next(WithGit(s, g.(index := j.headAfter.tree)), DeleteCheckpointRef(c, pending.Some?))
        else if sweep then Next(s, Done(NoAction))
        else Fail(s)
  }

  function StepAdvanceBranch(s: Local, c: Capsule, pending: bool): Next {
    var g := s.cell.git;
    if c.journal.None? || g.branch != Some(c.journal.value.headBefore) then Fail(s)
    else Next(WithGit(s, g.(branch := Some(c.journal.value.headAfter))), ResetIndex(c, pending))
  }

  /** `git reset --mixed`; on a branch it moves that branch too. */
  function StepResetIndex(s: Local, c: Capsule, pending: bool): Next {
    var g := s.cell.git;
    if c.journal.None? || !g.entry.Linked? || RepositoryGitDir(g).None? then Fail(s)
    else
      var after := c.journal.value.headAfter;
      var g1 := g.(index := after.tree);
      Next(WithGit(s, if g.registration.value.onBranch then g1.(branch := Some(after)) else g1),
           DeleteCheckpointRef(c, pending))
  }

  function StepDeleteCheckpointRef(s: Local, c: Capsule, pending: bool): Next {
    var g := s.cell.git;
    if !pending || g.checkpointRef.None? then Next(s, RecordCheckpoint(c))
    else if c.journal.None? || g.checkpointRef != Some(c.journal.value.headAfter) then Fail(s)
    else Next(WithGit(s, g.(checkpointRef := None)), RecordCheckpoint(c))
  }

  function CheckpointOf(j: Journal): Checkpoint<Commit> {
    Checkpoint(j.headAfter, j.message, j.author, j.startedAt)
  }

  function StepRecordCheckpoint(s: Local, c: Capsule): Next {
    if c.journal.None? then Fail(s)
    else
      var j := c.journal.value;
      if exists k | 0 <= k < |c.checkpoints| :: c.checkpoints[k].commit == j.headAfter then Fail(s)
      else
        var done := c.(checkpoints := c.checkpoints + [CheckpointOf(j)], journal := None, state := Active);
        Next(Save(s, done), Done(Succeeded(done)))
  }

  // ---- lifecycle.rs: evidence and close ----

  function SummaryBytes(summary: Option<string>): nat {
    match summary case Some(text) => |text| case None => 0
  }

  function EvidenceBytes(evidence: seq<Evidence<Digest>>): nat {
    if evidence == [] then 0
    else |evidence[0].command| + SummaryBytes(evidence[0].summary) + EvidenceBytes(evidence[1..])
  }

  /** The record made under the locks, bound to the patch as it stands now. */
  function EvidenceOf(input: EvidenceInput, patch: Patch, now: nat): Evidence<Digest> {
    match input
    case Claim(command, exitCode, summary) =>
      Evidence(command, exitCode, false, None, None, summary, OfPatch(patch), now)
    case Run(command, exitCode, summary, output) =>
      Evidence(command, exitCode, true, Some(OfOutput(output)), Some(|output|), summary, OfPatch(patch), now)
  }

  function StepAttachEvidence(s: Local, input: EvidenceInput): Next {
    var g := s.cell.git;
    match s.cell.store.manifest
    case None => Fail(s)
    case Some(c) =>
      if !c.state.Active? || !Owned(g, c) then Fail(s)
      else if |c.evidence| >= EVIDENCE_COUNT_CAP then Fail(s)
      else if EvidenceBytes(c.evidence) + |input.command| + SummaryBytes(input.summary)
              > EVIDENCE_TOTAL_BYTES_CAP then Fail(s)
      else
        var item := EvidenceOf(input, Diff(c.identity.base.tree, g.tree), s.clock);
        var done := c.(evidence := c.evidence + [item]);
        Next(Save(s, done), Done(Succeeded(done)))
  }

  function Observe(g: GitSide, base: Commit): Observation
    requires g.branch.Some?
  {
    Observation(Diff(base.tree, g.tree), g.branch.value, Clean(g), g.ignored)
  }

  function StepObserveClose(s: Local, required: Requirements): Next {
    var g := s.cell.git;
    match s.cell.store.manifest
    case None => Fail(s)
    case Some(c) =>
      if !c.state.Active? || !Owned(g, c) then Fail(s)
      else Next(s, ConfirmClose(c, required, Observe(g, c.identity.base)))
  }

  function KindOf(o: Observation): ResultKind {
    if o.patch == map[] then NoChange else if o.clean then Committed else Patched
  }

  function ContentBytes(tree: Tree, paths: seq<string>): nat {
    if paths == [] then 0
    else (if paths[0] in tree then |tree[paths[0]]| else 0) + ContentBytes(tree, paths[1..])
  }

  function SealedResult(c: Capsule, o: Observation, now: nat): Sealed {
    CapsuleResult(
      c.identity.id, c.identity.title, c.identity.links, KindOf(o), c.identity.base, o.head,
      OfPatch(o.patch), PatchSize(o.patch), ChangedPaths(o.patch),
      ContentBytes(o.ignored, SortedKeys(o.ignored.Keys)), Some(OfInventory(o.ignored)),
      SortedKeys(o.ignored.Keys), c.checkpoints, c.evidence, c.identity.createdAt, now)
  }

  function SealOf(r: Sealed): ResultRef {
    ResultRef(r.kind, r.headCommit, r.patchSha256, OfResult(r), r.patchBytes, |r.changedPaths|, r.sealedAt)
  }

  function Closing(c: Capsule, r: Sealed, now: nat): Capsule {
    c.(result := Some(SealOf(r)), state := Closed, closedAt := Some(now))
  }

  /** The patch is written first; result and manifest follow. */
  function WritePatch(s: Local, c: Capsule, o: Observation): Next {
    var r := SealedResult(c, o, s.clock);
    Next(s.(cell := s.cell.(store := s.cell.store.(patch := Some(o.patch)))), WriteResult(Closing(c, r, s.clock), r))
  }

  /** The second observation must equal the first before any artifact is written. */
  function StepConfirmClose(s: Local, c: Capsule, required: Requirements, first: Observation): Next {
    var g := s.cell.git;
    if g.branch.None? then Fail(s)
    else
      var o := Observe(g, c.identity.base);
      if o != first || !Satisfies(required, c.evidence, OfPatch(o.patch)) then Fail(s)
      else WritePatch(s, c, o)
  }

  function StepWriteResult(s: Local, c: Capsule, r: Sealed): Next {
    Next(s.(cell := s.cell.(store := s.cell.store.(result := Some(r)))), Write(c))
  }

  // ---- query.rs: ensure_sealed ----

  predicate EnsureSealed(s: Local, c: Capsule) {
    var g := s.cell.git;
    && c.result.Some?
    && Owned(g, c)
    && StoredMatch(s.cell.store, c)
    && var r, snapshot := s.cell.store.result.value, Diff(c.identity.base.tree, g.tree);
       && r.headCommit == g.branch.value
       && r.patchSha256 == OfPatch(snapshot)
       && r.patchBytes == PatchSize(snapshot)
       && r.changedPaths == ChangedPaths(snapshot)
       && s.cell.store.patch.value == snapshot
  }

  // ---- lifecycle.rs: integrate ----

  /** The journal `start_integration` writes; the subject defaults to the title, then to the id. */
  function Begun(c: Capsule, name: string, t: Target, subject: Option<string>, author: Author): Capsule {
    var message := match subject
      case Some(text) => text
      case None => (match c.identity.title
                    case Some(text) => text
                    case None => "Integrate capsule " + c.identity.id);
    c.(state := Integrating,
       integration := Some(Integration(name, t.gitDir, t.headRef, t.head, None, message, author, None)))
  }

  function StepBeginIntegrate(s: Local, target: string, subject: Option<string>, author: Author): Next {
    match s.cell.store.manifest
    case None => Fail(s)
    case Some(c) =>
      if !c.state.Closed? || !EnsureSealed(s, c) then Fail(s)
      else if target !in s.targets then Fail(s)
      else
        var t := s.targets[target];
        if t.commonDir != c.identity.commonDir || !t.full || !t.clean || t.head != c.identity.base then Fail(s)
        else
          var begun := Begun(c, target, t, subject, author);
          Next(Save(s, begun), PrepareIntegration(begun))
  }

  /** The message of the integration commit names its capsule. */
  function IntegrationMessage(c: Capsule): string
    requires c.integration.Some?
  {
    c.integration.value.message + "\n\nChange-Capsule: " + c.identity.id
  }

  /** The commit `prepare_integration` builds from the sealed patch. */
  function IntegrationCommit(c: Capsule, patch: Patch): Option<Commit>
    requires c.integration.Some?
  {
    CommitPatch(c.identity.base, patch, IntegrationMessage(c), c.integration.value.author)
  }

  function StepPrepareIntegration(s: Local, c: Capsule): Next {
    if c.integration.None? || s.cell.store.result.None? || s.cell.store.patch.None? then Fail(s)
    else
      var i := c.integration.value;
      var r, patch := s.cell.store.result.value, s.cell.store.patch.value;
      var aborted := Next(Save(s, c.(state := Closed, integration := None)), Done(Failed));
      if i.target !in s.targets then aborted
      else if r.kind == NoChange then
        Protect(s, c, s.targets[i.target].head)
      else
        match IntegrationCommit(c, patch)
        case None => aborted
        case Some(commit) =>
          if commit.parents != [c.identity.base]
             || Diff(c.identity.base.tree, commit.tree) != patch
             || ChangedPaths(patch) != r.changedPaths then aborted
          else Protect(s, c, commit)
  }

  function Journaled(c: Capsule, proposed: Commit): Capsule
    requires c.integration.Some?
  {
    c.(integration := Some(c.integration.value.(after := Some(proposed))))
  }

  function Protect(s: Local, c: Capsule, proposed: Commit): Next
    requires c.integration.Some?
  {
    var g := s.cell.git;
    if proposed == c.integration.value.before then
      Next(Save(s, Journaled(c, proposed)), Revalidate(Journaled(c, proposed)))
    else if g.integrationRef.Some? then Fail(s)
    else Next(WithGit(s, g.(integrationRef := Some(proposed))), JournalTarget(c, proposed))
  }

  function StepJournalTarget(s: Local, c: Capsule, proposed: Commit): Next {
    if c.integration.None? then Fail(s)
    else Next(Save(s, Journaled(c, proposed)), Revalidate(Journaled(c, proposed)))
  }

  /** Checked again immediately before the fast-forward. */
  function StepRevalidate(s: Local, c: Capsule): Next {
    if c.integration.None? then Fail(s)
    else
      var i := c.integration.value;
      if i.target !in s.targets then Fail(s)
      else
        var t := s.targets[i.target];
        if t.commonDir != c.identity.commonDir || t.gitDir != i.gitDir || t.headRef != i.headRef
           || !t.clean || t.head != i.before then Fail(s)
        else Next(s, Advance(c))
  }

  function Finalized(c: Capsule, now: nat): Capsule
    requires c.integration.Some?
  {
    c.(state := Integrated, integration := Some(c.integration.value.(integratedAt := Some(now))))
  }

  /** The only step that moves a target HEAD. */
  function StepAdvance(s: Local, c: Capsule): Next {
    if c.integration.None? || c.integration.value.after.None? then Fail(s)
    else
      var i := c.integration.value;
      var p := i.after.value;
      if p == i.before then Next(s, Write(Finalized(c, s.clock)))
      else if i.target !in s.targets then Fail(s)
      else
        match FastForward(s.targets[i.target].head, p)
        case None => Fail(s)
        case Some(head) =>
          Next(s.(targets := s.targets[i.target := s.targets[i.target].(head := head)]),
               DeleteIntegrationRef(Finalized(c, s.clock), p))
  }

  function StepDeleteIntegrationRef(s: Local, c: Capsule, expected: Commit): Next {
    var g := s.cell.git;
    if g.integrationRef.None? then Next(s, Write(c))
    else if g.integrationRef.value != expected then Fail(s)
    else Next(WithGit(s, g.(integrationRef := None)), Write(c))
  }

  // ---- lifecycle.rs: drop ----

  /** `recorded_capsule_head`. */
  predicate RecordedHead(c: Capsule, head: Commit) {
    || head == c.identity.base
    || (exists k | 0 <= k < |c.checkpoints| :: c.checkpoints[k].commit == head)
    || (c.result.Some? && c.result.value.headCommit == head)
    || (c.journal.Some? && (c.journal.value.headBefore == head || c.journal.value.headAfter == head))
  }

  function StepBeginDrop(s: Local, force: bool): Next {
    var g := s.cell.git;
    match s.cell.store.manifest
    case None => Fail(s)
    case Some(c) =>
      if c.state.Dropped? then Next(s, Done(Succeeded(c)))
      else if c.state.Dropping? then Next(s, RemoveWorktree(c))
      else if (c.state.Creating? || c.state.Checkpointing? || c.state.Integrating? || c.state.Active?)
          && !force then Fail(s)
      else
        var requireSealed := (c.state.Closed? || c.state.Integrated?) && !force;
        if requireSealed && !EnsureSealed(s, c) then Fail(s)
        else
          var c1 := if g.entry != Missing && c.gitDir.None? && c.state.Creating?
                    then c.(gitDir := RepositoryGitDir(g)) else c;
          var journaled := c1.(state := Dropping, cleanup := Some(Cleanup(g.branch, requireSealed)));
          if g.entry != Missing then
            if !Owned(g, c1) then Fail(s) else Next(Save(s, journaled), RemoveWorktree(journaled))
          else if requireSealed then Fail(s)
          else if g.registration.Some? then
            if !RegistrationMatches(g, g.branch) then Fail(s)
            else Next(Save(s, journaled), RemoveWorktree(journaled))
          else if g.branch.Some? && !RecordedHead(c, g.branch.value) then Fail(s)
          else Next(Save(s, journaled), RemoveWorktree(journaled))
  }

  function StepRemoveWorktree(s: Local, c: Capsule): Next {
    var g := s.cell.git;
    if c.cleanup.None? then Fail(s)
    else
      var expected := c.cleanup.value.branchHead;
      if g.entry != Missing then
        if !Owned(g, c) || g.branch != expected then Fail(s)
        else if c.cleanup.value.requireSealed && !EnsureSealed(s, c) then Fail(s)
        else Next(WithGit(s, g.(entry := Missing, tree := map[], index := map[], ignored := map[])), Deregister(c))
      else if g.registration.Some? then
        if !RegistrationMatches(g, expected) then Fail(s)
        else Next(WithGit(s, g.(registration := None)), DeleteBranch(c))
      else Next(s, DeleteBranch(c))
  }

  /** The second half of `git worktree remove --force`. */
  function StepDeregister(s: Local, c: Capsule): Next {
    Next(WithGit(s, s.cell.git.(registration := None)), DeleteBranch(c))
  }

  function StepDeleteBranch(s: Local, c: Capsule): Next {
    var g := s.cell.git;
    if c.cleanup.None? then Fail(s)
    else
      match c.cleanup.value.branchHead
      case Some(head) =>
        if g.branch.None? then Next(s, Prune(c))
        else if g.branch.value != head then Fail(s)
        else if g.registration.Some? && g.registration.value.onBranch then Fail(s)
        else Next(WithGit(s, g.(branch := None)), Prune(c))
      case None =>
        if g.branch.Some? then Fail(s) else Next(s, Prune(c))
  }

  function StepPrune(s: Local, c: Capsule): Next {
    var g := s.cell.git;
    Next(if g.entry == Missing then WithGit(s, g.(registration := None)) else s, ClearCheckpointRef(c))
  }

  function StepClearCheckpointRef(s: Local, c: Capsule): Next {
    Next(WithGit(s, s.cell.git.(checkpointRef := None)), ClearIntegrationRef(c))
  }

  function StepClearIntegrationRef(s: Local, c: Capsule): Next {
    Next(WithGit(s, s.cell.git.(integrationRef := None)),
         Write(c.(state := Dropped, journal := None, cleanup := None, droppedAt := Some(s.clock))))
  }

  // ---- recover.rs ----

  function StepBeginRecover(s: Local): Next {
    match s.cell.store.manifest
    case None => Fail(s)
    case Some(c) =>
      match c.state
      case Creating => Next(s, CompleteCreating(c, true, true))
      case Checkpointing => Next(s, FinishCheckpoint(c, true))
      case Active => RecoverActive(s, c)
      case Integrating => RecoverIntegrating(s, c)
      case Dropping => Next(s, RemoveWorktree(c))
      case _ => Next(s, Done(NoAction))
  }

  function RecoverActive(s: Local, c: Capsule): Next {
    var g := s.cell.git;
    if g.entry != Missing && Owned(g, c) then
      if g.checkpointRef.Some? then Next(WithGit(s, g.(checkpointRef := None)), Write(c))
      else Next(s, Done(NoAction))
    else Next(s, Write(c.(state := Orphaned)))
  }

  /** `recovery_integration_target` succeeds. */
  predicate TargetRecoverable(s: Local, c: Capsule, i: Integration) {
    && i.target in s.targets
    && var t := s.targets[i.target];
       && t.commonDir == c.identity.commonDir
       && t.gitDir == i.gitDir
       && t.headRef == i.headRef
       && t.full
       && t.clean
  }

  /** `integration_matches_result`. */
  predicate IntegrationMatches(i: Integration, r: Sealed, patch: Patch, head: Commit) {
    if head == i.before then
      r.kind == NoChange && r.patchBytes == 0 && r.changedPaths == [] && patch == map[]
    else
      && head.parents == [i.before]
      && Diff(i.before.tree, head.tree) == patch
      && ChangedPaths(Diff(i.before.tree, head.tree)) == r.changedPaths
  }

  function RecoverIntegrating(s: Local, c: Capsule): Next {
    var g := s.cell.git;
    match c.integration
    case None => Next(s, Write(c.(state := Orphaned)))
    case Some(i) =>
      var declined := Next(s, Done(NoAction));
      var restored := c.(state := Closed, integration := None);
      if !TargetRecoverable(s, c, i) then declined
      else
        var head := s.targets[i.target].head;
        match i.after
        case None =>
          if head != i.before then declined
          else Next(WithGit(s, g.(integrationRef := None)), Write(restored))
        case Some(p) =>
          if s.cell.store.result.None? || s.cell.store.patch.None? then Fail(s)
          else if !StoredMatch(s.cell.store, c) then declined
          else if p != i.before && g.integrationRef.Some? && g.integrationRef.value != p then Fail(s)
          else if head == p then
            if !IntegrationMatches(i, s.cell.store.result.value, s.cell.store.patch.value, head) then declined
            else if p != i.before then
              Next(WithGit(s, g.(integrationRef := None)), Write(Finalized(c, s.clock)))
            else Next(s, Write(Finalized(c, s.clock)))
          else if head == i.before then
            if g.integrationRef != Some(p) then declined
            else Next(WithGit(s, g.(integrationRef := None)), Write(restored))
          else declined
  }

  // ---- one step ----

  predicate CreationPc(pc: PC) {
    || pc.Materialize?
    || pc.Prepare?
    || pc.Publish?
    || pc.CompleteCreating?
    || pc.AddWorktree?
    || pc.CheckOut?
    || pc.Activate?
  }

  predicate CheckpointingPc(pc: PC) {
    || pc.BeginCheckpoint?
    || pc.JournalCheckpoint?
    || pc.FinishCheckpoint?
    || pc.AdvanceBranch?
    || pc.ResetIndex?
    || pc.DeleteCheckpointRef?
    || pc.RecordCheckpoint?
  }

  predicate ClosingPc(pc: PC) {
    || pc.AttachEvidence?
    || pc.ObserveClose?
    || pc.ConfirmClose?
    || pc.WriteResult?
  }

  predicate IntegratingPc(pc: PC) {
    || pc.BeginIntegrate?
    || pc.PrepareIntegration?
    || pc.JournalTarget?
    || pc.Revalidate?
    || pc.Advance?
    || pc.DeleteIntegrationRef?
  }

  predicate DroppingPc(pc: PC) {
    || pc.BeginDrop?
    || pc.RemoveWorktree?
    || pc.Deregister?
    || pc.DeleteBranch?
    || pc.Prune?
    || pc.ClearCheckpointRef?
    || pc.ClearIntegrationRef?
  }

  function CreationStep(s: Local, pc: PC): Next
    requires CreationPc(pc)
  {
    match pc
    case Materialize(record) => StepMaterialize(s, record)
    case Prepare(c, reserved) => StepPrepare(s, c, reserved)
    case Publish(c, reserved) => Next(Save(s, c), CompleteCreating(c, reserved, false))
    case CompleteCreating(c, allowOrphan, sweep) => StepCompleteCreating(s, c, allowOrphan, sweep)
    case AddWorktree(c, sweep) => StepAddWorktree(s, c, sweep)
    case CheckOut(c, sweep) => StepCheckOut(s, c, sweep)
    case Activate(c, created, sweep) => StepActivate(s, c, created, sweep)
  }

  function CheckpointingStep(s: Local, pc: PC): Next
    requires CheckpointingPc(pc)
  {
    match pc
    case BeginCheckpoint(message, author) => StepBeginCheckpoint(s, message, author)
    case JournalCheckpoint(c) => Next(Save(s, c), FinishCheckpoint(c, false))
    case FinishCheckpoint(c, sweep) => StepFinishCheckpoint(s, c, sweep)
    case AdvanceBranch(c, pending) => StepAdvanceBranch(s, c, pending)
    case ResetIndex(c, pending) => StepResetIndex(s, c, pending)
    case DeleteCheckpointRef(c, pending) => StepDeleteCheckpointRef(s, c, pending)
    case RecordCheckpoint(c) => StepRecordCheckpoint(s, c)
  }

  function ClosingStep(s: Local, pc: PC): Next
    requires ClosingPc(pc)
  {
    match pc
    case AttachEvidence(input) => StepAttachEvidence(s, input)
    case ObserveClose(required) => StepObserveClose(s, required)
    case ConfirmClose(c, required, first) => StepConfirmClose(s, c, required, first)
    case WriteResult(c, r) => StepWriteResult(s, c, r)
  }

  function IntegratingStep(s: Local, pc: PC): Next
    requires IntegratingPc(pc)
  {
    match pc
    case BeginIntegrate(target, subject, author) => StepBeginIntegrate(s, target, subject, author)
    case PrepareIntegration(c) => StepPrepareIntegration(s, c)
    case JournalTarget(c, proposed) => StepJournalTarget(s, c, proposed)
    case Revalidate(c) => StepRevalidate(s, c)
    case Advance(c) => StepAdvance(s, c)
    case DeleteIntegrationRef(c, expected) => StepDeleteIntegrationRef(s, c, expected)
  }

  function DroppingStep(s: Local, pc: PC): Next
    requires DroppingPc(pc)
  {
    match pc
    case BeginDrop(force) => StepBeginDrop(s, force)
    case RemoveWorktree(c) => StepRemoveWorktree(s, c)
    case Deregister(c) => StepDeregister(s, c)
    case DeleteBranch(c) => StepDeleteBranch(s, c)
    case Prune(c) => StepPrune(s, c)
    case ClearCheckpointRef(c) => StepClearCheckpointRef(s, c)
    case ClearIntegrationRef(c) => StepClearIntegrationRef(s, c)
  }

  function Step(s: Local, pc: PC): Next {
    if CreationPc(pc) then CreationStep(s, pc)
    else if CheckpointingPc(pc) then CheckpointingStep(s, pc)
    else if ClosingPc(pc) then ClosingStep(s, pc)
    else if IntegratingPc(pc) then IntegratingStep(s, pc)
    else if DroppingPc(pc) then DroppingStep(s, pc)
    else
      match pc
      case Write(c) => Next(Save(s, c), Done(Succeeded(c)))
      case BeginRecover => StepBeginRecover(s)
      case Done(_) => Next(s, pc)
  }

  /** The block of code behind each counter. */
  lemma Unfolds(s: Local, pc: PC)
    ensures CreationPc(pc) ==> Step(s, pc) == CreationStep(s, pc)
    ensures CheckpointingPc(pc) ==> Step(s, pc) == CheckpointingStep(s, pc)
    ensures ClosingPc(pc) ==> Step(s, pc) == ClosingStep(s, pc)
    ensures IntegratingPc(pc) ==> Step(s, pc) == IntegratingStep(s, pc)
    ensures DroppingPc(pc) ==> Step(s, pc) == DroppingStep(s, pc)
    ensures pc.Write? ==> Step(s, pc) == Next(Save(s, pc.c), Done(Succeeded(pc.c)))
    ensures pc.BeginRecover? ==> Step(s, pc) == StepBeginRecover(s)
    ensures pc.Done? ==> Step(s, pc) == Next(s, pc)
  {
    hide CreationStep;
    hide CheckpointingStep;
    hide ClosingStep;
    hide IntegratingStep;
    hide DroppingStep;
    hide StepBeginRecover;
  }

  // ---- runs ----

  datatype Op =
    | Create(id: string, request: Request<string, Commit>)
    | CreateKeyed(key: string, request: Request<string, Commit>, freshId: string)
    | TakeCheckpoint(id: string, message: string, author: Author)
    | AddEvidence(id: string, input: EvidenceInput)
    | Close(id: string, required: Requirements)
    | Integrate(id: string, target: string, subject: Option<string>, author: Author)
    | Drop(id: string, force: bool)
    | Recover(id: string)

  /** The process holding the locks, if any; `forKey` is set while it serves a keyed creation. */
  datatype Proc =
    | Idle
    | Reserve(key: string, request: Request<string, Commit>, freshId: string)
    | Running(id: string, forKey: Option<string>, pc: PC)

  /** What outside actors do: anything to the Git side of a capsule, anything to a target, and
      the passing of time. The state root itself is the manager's alone. */
  datatype Move =
    | Disturb(id: string, git: GitSide)
    | MoveTarget(name: string, target: Target)
    | RemoveTarget(name: string)
    | Tick(seconds: nat)

  datatype Event = Start(op: Op) | Advanced | Crash | External(move: Move)

  datatype State = State(world: World, proc: Proc)

  /** A generated identifier is new: nothing is stored under it and no reservation names it. */
  predicate Unused(w: World, id: string) {
    && ValidId(id)
    && CellOf(w, id).store == EMPTY_CELL.store
    && forall key | key in w.reservations :: w.reservations[key].id != id
  }

  function Begin(w: World, op: Op): Proc {
    match op
    case Create(id, request) =>
      if Unused(w, id) && request.resolved.Some? then
        Running(id, None, Prepare(InitialCapsule(id, request.title, request.links, request.source,
                                                 request.commonDir, request.resolved.value, w.clock), false))
      else Idle
    case CreateKeyed(key, request, freshId) => Reserve(key, request, freshId)
    case TakeCheckpoint(id, message, author) => Running(id, None, BeginCheckpoint(message, author))
    case AddEvidence(id, input) => Running(id, None, AttachEvidence(input))
    case Close(id, required) => Running(id, None, ObserveClose(required))
    case Integrate(id, target, subject, author) => Running(id, None, BeginIntegrate(target, subject, author))
    case Drop(id, force) => Running(id, None, BeginDrop(force))
    case Recover(id) => Running(id, None, BeginRecover)
  }

  predicate Finished(p: Proc) {
    p == Idle || (p.Running? && p.pc.Done?)
  }

  /** `create_idempotent` up to the published reservation. */
  function StepReserve(w: World, key: string, request: Request<string, Commit>, freshId: string): State {
    if key in w.reservations then
      var record := w.reservations[key];
      if SameRequest(request, record) then State(w, Running(record.id, Some(key), Materialize(record)))
      else State(w, Idle)
    else if request.resolved.None? || !Unused(w, freshId) then State(w, Idle)
    else
      var record := Reservation(freshId, request.source, request.commonDir, request.selector,
                                request.resolved.value, request.title, request.links, w.clock);
      State(w.(reservations := w.reservations[key := record]), Running(freshId, Some(key), Materialize(record)))
  }

  function StepProc(m: State): State {
    match m.proc
    case Idle => m
    case Reserve(key, request, freshId) => StepReserve(m.world, key, request, freshId)
    case Running(id, key, pc) =>
      var n := Step(View(m.world, id), pc);
      State(Put(m.world, id, n.s), Running(id, key, n.pc))
  }

  function ApplyMove(w: World, move: Move): World {
    match move
    case Disturb(id, git) => w.(cells := w.cells[id := CellOf(w, id).(git := git)])
    case MoveTarget(name, target) => w.(targets := w.targets[name := target])
    case RemoveTarget(name) => w.(targets := w.targets - {name})
    case Tick(seconds) => w.(clock := w.clock + seconds)
  }

  function Occur(m: State, e: Event): State {
    match e
    case Start(op) => if Finished(m.proc) then State(m.world, Begin(m.world, op)) else m
    case Advanced => StepProc(m)
    case Crash => State(m.world, Idle)
    case External(move) => State(ApplyMove(m.world, move), m.proc)
  }

  function RunFrom(m: State, events: seq<Event>): State
    decreases |events|
  {
    if events == [] then m else RunFrom(Occur(m, events[0]), events[1..])
  }

  const INITIAL: State := State(World(map[], map[], map[], 0), Idle)

  lemma {:induction false} RunConcat(m: State, a: seq<Event>, b: seq<Event>)
    ensures RunFrom(m, a + b) == RunFrom(RunFrom(m, a), b)
    decreases |a|
  {
    if a == [] {
      assert a + b == b;
    } else {
      assert (a + b)[0] == a[0] && (a + b)[1..] == a[1..] + b;
      RunConcat(Occur(m, a[0]), a[1..], b);
    }
  }
}
