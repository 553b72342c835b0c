/** Everything durable: per capsule its state directory and its Git side, plus the integration
    targets, the reservations and the clock. */
module World {
  import opened Model
  import opened Git
  import opened Ordering

  /** Digests are represented by what they digest: the collision-free idealisation of SHA-256. */
  datatype Digest =
    | OfPatch(patch: Patch)
    | OfResult(result: Sealed)
    | OfOutput(output: string)
    | OfInventory(inventory: Tree)

  type Sealed = CapsuleResult<Commit, Digest, string>

  /** What never changes once a capsule exists. The project key is represented by the common
      directory it is a digest of. */
  datatype Identity = Identity(
    id: string,
    title: Option<string>,
    links: map<string, string>,
    source: string,
    commonDir: string,
    workspace: seq<string>,
    branch: string,
    base: Commit,
    createdAt: nat)

  datatype Journal = Journal(
    headBefore: Commit,
    headAfter: Commit,
    patchSha256: Digest,
    message: string,
    author: Author,
    startedAt: nat)

  datatype Integration = Integration(
    target: string,
    gitDir: string,
    headRef: string,
    before: Commit,
    after: Option<Commit>,
    message: string,
    author: Author,
    integratedAt: Option<nat>)

  datatype Cleanup = Cleanup(branchHead: Option<Commit>, requireSealed: bool)

  datatype ResultRef = ResultRef(
    kind: ResultKind,
    headCommit: Commit,
    patchSha256: Digest,
    resultSha256: Digest,
    patchBytes: nat,
    changedPaths: nat,
    sealedAt: nat)

  /** The manifest, `capsule.json`. */
  datatype Capsule = Capsule(
    identity: Identity,
    state: CapsuleState,
    gitDir: Option<string>,
    checkpoints: seq<Checkpoint<Commit>>,
    journal: Option<Journal>,
    evidence: seq<Evidence<Digest>>,
    result: Option<ResultRef>,
    integration: Option<Integration>,
    cleanup: Option<Cleanup>,
    closedAt: Option<nat>,
    droppedAt: Option<nat>)

  /** The state directory of one capsule. */
  datatype Store = Store(
    directory: bool,
    manifest: Option<Capsule>,
    result: Option<Sealed>,
    patch: Option<Patch>)

  /** What stands at the workspace path: nothing, the worktree of the named admin directory, or
      something else (which may itself be a worktree elsewhere registered). */
  datatype Entry = Missing | Linked(gitDir: string) | Foreign(elsewhere: Option<string>)

  /** A worktree admin entry whose recorded path is this workspace. */
  datatype Registration = Registration(gitDir: string, onBranch: bool)

  /** The Git side of one capsule: everything an actor outside the manager can also change. */
  datatype GitSide = GitSide(
    source: bool,
    entry: Entry,
    registration: Option<Registration>,
    branch: Option<Commit>,
    checkpointRef: Option<Commit>,
    integrationRef: Option<Commit>,
    tree: Tree,
    index: Tree,
    ignored: Tree)

  datatype Cell = Cell(store: Store, git: GitSide)

  /** An integration target: `full` is no sparse checkout and no hidden index entries. */
  datatype Target = Target(
    commonDir: string,
    gitDir: string,
    headRef: string,
    head: Commit,
    clean: bool,
    full: bool)

  /** What one operation on one capsule can see and change. */
  datatype Local = Local(cell: Cell, targets: map<string, Target>, clock: nat)

  datatype World = World(
    cells: map<string, Cell>,
    targets: map<string, Target>,
    reservations: map<string, Reservation<string, Commit>>,
    clock: nat)

  const NO_GIT := GitSide(true, Missing, None, None, None, None, map[], map[], map[])
  const EMPTY_CELL := Cell(Store(false, None, None, None), NO_GIT)

  function CellOf(w: World, id: string): Cell {
    if id in w.cells then w.cells[id] else EMPTY_CELL
  }

  function View(w: World, id: string): Local {
    Local(CellOf(w, id), w.targets, w.clock)
  }

  function Put(w: World, id: string, s: Local): World {
    if s.cell == CellOf(w, id) then w.(targets := s.targets)
    else w.(cells := w.cells[id := s.cell], targets := s.targets)
  }

  // ---- naming ----

  predicate ValidId(id: string) {
    && 8 <= |id| <= 64
    && id[..4] == "cap-"
    && forall c | c in id :: 'a' <= c <= 'z' || '0' <= c <= '9' || c == '-'
  }

  function BranchName(id: string): string
    requires |id| >= 4
  {
    "capsule/" + id[4..]
  }

  function WorkspacePath(commonDir: string, id: string): seq<string> {
    ["workspaces", commonDir, id]
  }

  function CheckpointRefName(id: string): string { "refs/change-capsule/" + id + "/checkpoint" }

  function IntegrationRefName(id: string): string { "refs/change-capsule/" + id + "/integration" }

  /** Capsules own disjoint branches, refs and workspaces, which is what lets the world keep one
      independent cell for each. */
  lemma NamesAreDisjoint(a: string, b: string, p: string, q: string)
    requires ValidId(a) && ValidId(b) && a != b
    ensures BranchName(a) == "capsule/" + a[4..] && WorkspacePath(p, a) == ["workspaces", p, a]
    ensures CheckpointRefName(a) == "refs/change-capsule/" + a + "/checkpoint"
    ensures IntegrationRefName(a) == "refs/change-capsule/" + a + "/integration"
    ensures BranchName(a) != BranchName(b)
    ensures WorkspacePath(p, a) != WorkspacePath(q, b)
    ensures CheckpointRefName(a) != CheckpointRefName(b)
    ensures IntegrationRefName(a) != IntegrationRefName(b)
    ensures CheckpointRefName(a) != IntegrationRefName(b)
    ensures CheckpointRefName(a) != IntegrationRefName(a)
  {
    assert a == a[..4] + a[4..] && b == b[..4] + b[4..];
    assert BranchName(a)[8..] == a[4..] && BranchName(b)[8..] == b[4..];
    assert WorkspacePath(p, a)[2] == a && WorkspacePath(q, b)[2] == b;
    TailsDiffer(a, b);
    TailsDiffer(a, a);
  }

  /** The slash ends the id, so the id can be read back from a ref name. */
  lemma TailsDiffer(a: string, b: string)
    requires ValidId(a) && ValidId(b)
    ensures a != b ==> CheckpointRefName(a) != CheckpointRefName(b)
    ensures a != b ==> IntegrationRefName(a) != IntegrationRefName(b)
    ensures CheckpointRefName(a) != IntegrationRefName(b)
  {
    var n := |"refs/change-capsule/"|;
    var ca, cb, ia, ib := CheckpointRefName(a), CheckpointRefName(b), IntegrationRefName(a), IntegrationRefName(b);
    SlashEnds(a, b, ca, cb, n);
    SlashEnds(a, b, ia, ib, n);
    SlashEnds(a, b, ca, ib, n);
    assert ca[n + |a| + 1] == 'c' && ib[n + |b| + 1] == 'i';
  }

  lemma SlashEnds(a: string, b: string, x: string, y: string, n: nat)
    requires ValidId(a) && ValidId(b)
    requires n + |a| < |x| && x[n..n + |a|] == a && x[n + |a|] == '/'
    requires n + |b| < |y| && y[n..n + |b|] == b && y[n + |b|] == '/'
    ensures x == y ==> a == b
  {
    forall i | n <= i < n + |a|
      ensures x[i] != '/'
    {
      assert x[i] == a[i - n] && a[i - n] in a;
    }
    forall i | n <= i < n + |b|
      ensures y[i] != '/'
    {
      assert y[i] == b[i - n] && b[i - n] in b;
    }
  }

  // ---- what the strict reader accepts (state.rs) ----

  predicate JournalsConsistent(c: Capsule) {
    && (if c.journal.Some? then (c.state.Checkpointing? || c.state.Dropping?) else !c.state.Checkpointing?)
    && (if c.integration.Some? then (c.state.Integrating? || c.state.Integrated? || c.state.Dropping?
        || c.state.Dropped?)
        else (!c.state.Integrating? && !c.state.Integrated?))
    && (c.state.Dropping?) == c.cleanup.Some?
  }

  predicate IdentityWellFormed(c: Capsule, id: string) {
    && c.identity.id == id
    && ValidId(id)
    && c.identity.workspace == WorkspacePath(c.identity.commonDir, id)
    && c.identity.branch == BranchName(id)
    && ((c.state.Active? || c.state.Checkpointing? || c.state.Closed? || c.state.Integrating?
        || c.state.Integrated?) ==> c.gitDir.Some?)
    && forall e | e in c.evidence :: e.Coherent()
  }

  /** `validate_capsule_manifest`. */
  predicate ReaderAccepts(c: Capsule, id: string) {
    IdentityWellFormed(c, id) && JournalsConsistent(c)
  }

  // ---- ownership and seals ----

  /** The admin directory Git resolves at the workspace path. */
  function RepositoryGitDir(g: GitSide): Option<string> {
    match g.entry
    case Missing => None
    case Foreign(d) => d
    case Linked(d) =>
      if g.registration.Some? && g.registration.value.gitDir == d then Some(d) else None
  }

  /** `validate_owned_worktree`. */
  predicate Owned(g: GitSide, c: Capsule) {
    && g.entry.Linked?
    && g.registration == Some(Registration(g.entry.gitDir, true))
    && c.gitDir == Some(g.entry.gitDir)
    && g.branch.Some?
  }

  lemma OwnedHasBranch(g: GitSide, c: Capsule)
    requires Owned(g, c)
    ensures g.branch.Some?
  {}

  /** `validate_registered_record` on the listed entry. */
  predicate RegistrationMatches(g: GitSide, expected: Option<Commit>)
    requires g.registration.Some?
  {
    g.registration.value.onBranch && g.branch.Some? && g.branch == expected
  }

  predicate Clean(g: GitSide)
    requires g.branch.Some?
  {
    g.tree == g.index == g.branch.value.tree
  }

  /** `is_unchecked_worktree_shape`: nothing but the `.git` file is there yet. */
  predicate Unchecked(g: GitSide) {
    g.tree == map[] && g.ignored == map[]
  }

  /** Every conjunct of `sealed_artifact_snapshot`. */
  predicate ArtifactsMatch(c: Capsule, ref: ResultRef, r: Sealed, patch: Patch) {
    && ref.kind == r.kind
    && ref.headCommit == r.headCommit
    && ref.patchSha256 == OfPatch(patch)
    && ref.patchSha256 == r.patchSha256
    && ref.resultSha256 == OfResult(r)
    && ref.patchBytes == PatchSize(patch)
    && ref.patchBytes == r.patchBytes
    && ref.changedPaths == |r.changedPaths|
    && ref.sealedAt == r.sealedAt
    && r.capsuleId == c.identity.id
    && r.title == c.identity.title
    && r.links == c.identity.links
    && r.baseCommit == c.identity.base
    && r.checkpoints == c.checkpoints
    && r.evidence == c.evidence
    && r.createdAt == c.identity.createdAt
  }

  predicate StoredMatch(store: Store, c: Capsule) {
    && c.result.Some? && store.result.Some? && store.patch.Some?
    && ArtifactsMatch(c, c.result.value, store.result.value, store.patch.value)
  }

  /** What a seal made by close says beyond its digests: the patch is one Git can reproduce. */
  predicate Reproduces(base: Commit, r: Sealed, patch: Patch) {
    && (r.kind.NoChange? == (patch == map[]))
    && r.changedPaths == ChangedPaths(patch)
    && Apply(base.tree, patch).Some?
    && Diff(base.tree, Apply(base.tree, patch).value) == patch
  }

  /** Paths Git lists for a patch, in its one canonical order. */
  function ChangedPaths(patch: Patch): seq<string> {
    SortedKeys(patch.Keys)
  }
}
