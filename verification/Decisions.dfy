/** Exactly when each operation goes ahead, and what it then records, for every state and in the
    state's own fields. The first block of a call decides it, on the state others left it. */
module Decisions {
  import opened Model
  import opened Git
  import opened Ordering
  import opened World
  import opened Machine
  import opened Execution

  /** What the first block of a call finds. */
  function Found(w: World, id: string, schedule: seq<seq<Move>>): Local
    requires schedule != []
  {
    View(ApplyMoves(w, schedule[0]), id)
  }

  /** The whole call ends there, and nothing durable is changed by it. */
  predicate Refused(w: World, id: string, pc: PC, schedule: seq<seq<Move>>)
    requires schedule != []
  {
    Execute(w, id, pc, schedule) == Ending(ApplyMoves(w, schedule[0]), Done(Failed), schedule[1..])
  }

  /** The call goes on from there. */
  predicate GoesOn(w: World, id: string, pc: PC, schedule: seq<seq<Move>>, s: Local, next: PC)
    requires schedule != []
  {
    Execute(w, id, pc, schedule) == Execute(Put(ApplyMoves(w, schedule[0]), id, s), id, next, schedule[1..])
  }

  lemma FirstBlock(w: World, id: string, pc: PC, schedule: seq<seq<Move>>)
    requires schedule != [] && !pc.Done?
    ensures var s := Found(w, id, schedule);
            var n := Step(s, pc);
            GoesOn(w, id, pc, schedule, n.s, n.pc) && (n == Fail(s) ==> Refused(w, id, pc, schedule))
  {
    hide Step;
    hide ApplyMoves;
    hide Execute;
    hide Put;
    var s := Found(w, id, schedule);
    var n := Step(s, pc);
    Unrolls(w, id, pc, schedule);
    if n == Fail(s) {
      Stops(w, id, pc, schedule, Failed);
    }
  }

  lemma Unrolls(w: World, id: string, pc: PC, schedule: seq<seq<Move>>)
    requires schedule != [] && !pc.Done?
    ensures var n := Step(Found(w, id, schedule), pc); GoesOn(w, id, pc, schedule, n.s, n.pc)
  {
    hide Step;
    hide ApplyMoves;
  }

  // ---- the workspace and the seal ----

  /** The workspace is the worktree registered under exactly the admin directory the record names,
      and it is on the capsule's branch. */
  predicate AtHome(g: GitSide, gitDir: Option<string>) {
    && gitDir.Some?
    && g.entry == Linked(gitDir.value)
    && g.registration == Some(Registration(gitDir.value, true))
    && g.branch.Some?
  }

  lemma OwnedIsAtHome(g: GitSide, c: Capsule)
    ensures Owned(g, c) <==> AtHome(g, c.gitDir)
  {}

  /** Everything the reference in the manifest says about the two files, and the result about the
      manifest, is so. */
  predicate FilesAreSealed(c: Capsule, store: Store) {
    && c.result.Some? && store.result.Some? && store.patch.Some?
    && var ref, r, patch, identity := c.result.value, store.result.value, store.patch.value, c.identity;
       && ref.patchSha256 == r.patchSha256 == OfPatch(patch)
       && ref.resultSha256 == OfResult(r)
       && ref.patchBytes == r.patchBytes == |patch|
       && ref.changedPaths == |r.changedPaths|
       && (ref.kind, ref.headCommit, ref.sealedAt) == (r.kind, r.headCommit, r.sealedAt)
       && (r.capsuleId, r.title, r.links) == (identity.id, identity.title, identity.links)
       && (r.baseCommit, r.createdAt) == (identity.base, identity.createdAt)
       && (r.checkpoints, r.evidence) == (c.checkpoints, c.evidence)
  }

  lemma MatchIsSealed(c: Capsule, store: Store)
    ensures StoredMatch(store, c) <==> FilesAreSealed(c, store)
  {}

  /** The files are as sealed, and so is the workspace: the same change on the same head. */
  predicate SealHolds(s: Local, c: Capsule) {
    var g, store := s.cell.git, s.cell.store;
    && AtHome(g, c.gitDir)
    && FilesAreSealed(c, store)
    && store.patch.value == Diff(c.identity.base.tree, g.tree)
    && store.result.value.headCommit == g.branch.value
    && store.result.value.changedPaths == SortedKeys(store.patch.value.Keys)
  }

  lemma SealedIsHeld(s: Local, c: Capsule)
    ensures EnsureSealed(s, c) <==> SealHolds(s, c)
  {
    hide Diff;
    hide Owned;
    hide StoredMatch;
    hide AtHome;
    OwnedIsAtHome(s.cell.git, c);
    MatchIsSealed(c, s.cell.store);
    if AtHome(s.cell.git, c.gitDir) {
      HomeHasBranch(s.cell.git, c.gitDir);
    }
  }

  lemma HomeHasBranch(g: GitSide, gitDir: Option<string>)
    requires AtHome(g, gitDir)
    ensures g.branch.Some?
  {}

  // ---- checkpoint ----

  /** There is something to checkpoint, room for it, and no pending ref. */
  predicate MayCheckpoint(s: Local) {
    var manifest, g := s.cell.store.manifest, s.cell.git;
    && manifest.Some?
    && manifest.value.state.Active?
    && AtHome(g, manifest.value.gitDir)
    && g.tree != g.branch.value.tree
    && |manifest.value.checkpoints| < 128
    && g.checkpointRef.None?
  }

  /** A checkpoint pins the workspace's tree on top of HEAD and journals that commit, or is refused. */
  lemma CheckpointIsDecided(w: World, id: string, message: string, author: Author, schedule: seq<seq<Move>>)
    requires schedule != []
    ensures var s, pc := Found(w, id, schedule), BeginCheckpoint(message, author);
            if MayCheckpoint(s) then
              var c, g := s.cell.store.manifest.value, s.cell.git;
              var head := g.branch.value;
              var prepared := Commit([head], g.tree, message, author);
              var journal := Journal(head, prepared, OfPatch(Diff(head.tree, g.tree)), message, author, s.clock);
              GoesOn(w, id, pc, schedule, WithGit(s, g.(checkpointRef := Some(prepared))),
                     JournalCheckpoint(c.(state := Checkpointing, journal := Some(journal))))
            else Refused(w, id, pc, schedule)
  {
    hide Execute;
    hide ApplyMoves;
    hide Put;
    hide Step;
    hide Diff;
    hide Apply;
    hide Owned;
    hide AtHome;
    hide StepFinishCheckpoint;
    hide StepAdvanceBranch;
    hide StepResetIndex;
    hide StepDeleteCheckpointRef;
    hide StepRecordCheckpoint;
    var s, pc := Found(w, id, schedule), BeginCheckpoint(message, author);
    FirstBlock(w, id, pc, schedule);
    Unfolds(s, pc);
    if s.cell.store.manifest.Some? {
      OwnedIsAtHome(s.cell.git, s.cell.store.manifest.value);
      if AtHome(s.cell.git, s.cell.store.manifest.value.gitDir) {
        HomeHasBranch(s.cell.git, s.cell.store.manifest.value.gitDir);
        ApplyDiff(s.cell.git.branch.value.tree, s.cell.git.tree);
        EmptyDiff(s.cell.git.branch.value.tree, s.cell.git.tree);
      }
    }
  }

  // ---- evidence ----

  /** Bytes of command and summary text over all records. */
  function Text(evidence: seq<Evidence<Digest>>): nat {
    if evidence == [] then 0
    else
      var last := evidence[|evidence| - 1];
      Text(evidence[..|evidence| - 1]) + |last.command| + (if last.summary.Some? then |last.summary.value| else 0)
  }

  lemma {:induction false} TextAdds(first: Evidence<Digest>, rest: seq<Evidence<Digest>>)
    ensures Text([first] + rest)
            == |first.command| + (if first.summary.Some? then |first.summary.value| else 0) + Text(rest)
    decreases |rest|
  {
    var all := [first] + rest;
    if rest == [] {
      assert all[..|all| - 1] == [];
    } else {
      assert all[..|all| - 1] == [first] + rest[..|rest| - 1];
      TextAdds(first, rest[..|rest| - 1]);
    }
  }

  lemma {:induction false} TextIsBytes(evidence: seq<Evidence<Digest>>)
    ensures EvidenceBytes(evidence) == Text(evidence)
  {
    if evidence == [] {
    } else {
      TextIsBytes(evidence[1..]);
      TextAdds(evidence[0], evidence[1..]);
      assert evidence == [evidence[0]] + evidence[1..];
    }
  }

  predicate MayRecord(s: Local, input: EvidenceInput) {
    var manifest := s.cell.store.manifest;
    && manifest.Some?
    && manifest.value.state.Active?
    && AtHome(s.cell.git, manifest.value.gitDir)
    && |manifest.value.evidence| < 64
    && Text(manifest.value.evidence) + |input.command|
       + (if input.summary.Some? then |input.summary.value| else 0) <= 262_144
  }

  /** The record says what was run or claimed, and of a run what came out of it. */
  predicate TellsWhatRan(e: Evidence<Digest>, input: EvidenceInput) {
    && e.command == input.command
    && e.exitCode == input.exitCode
    && e.summary == input.summary
    && e.executed == input.Run?
    && e.outputSha256 == (if input.Run? then Some(OfOutput(input.output)) else None)
    && e.outputBytes == (if input.Run? then Some(|input.output|) else None)
  }

  /** It is bound to the patch as the workspace stands, at the time of recording. */
  predicate Tells(e: Evidence<Digest>, input: EvidenceInput, patch: Patch, now: nat) {
    TellsWhatRan(e, input) && e.patchSha256 == OfPatch(patch) && e.recordedAt == now
  }

  /** Evidence is appended to an active capsule within the bounds, as told, or refused. */
  lemma EvidenceIsDecided(w: World, id: string, input: EvidenceInput, schedule: seq<seq<Move>>)
    requires schedule != []
    ensures var s, pc := Found(w, id, schedule), AttachEvidence(input);
            var end := Execute(w, id, pc, schedule);
            if MayRecord(s, input) then
              var c := s.cell.store.manifest.value;
              && end.pc.Done? && end.pc.outcome.Succeeded?
              && var d := end.pc.outcome.capsule;
                 && end.world == Put(ApplyMoves(w, schedule[0]), id, Save(s, d))
                 && |d.evidence| == |c.evidence| + 1
                 && d == c.(evidence := c.evidence + [d.evidence[|c.evidence|]])
                 && Tells(d.evidence[|c.evidence|], input, Diff(c.identity.base.tree, s.cell.git.tree), s.clock)
            else Refused(w, id, pc, schedule)
  {
    hide Execute;
    hide ApplyMoves;
    hide Put;
    hide Step;
    hide Diff;
    hide Owned;
    hide AtHome;
    hide EvidenceBytes;
    hide Text;
    hide StepObserveClose;
    hide StepConfirmClose;
    var s, pc := Found(w, id, schedule), AttachEvidence(input);
    FirstBlock(w, id, pc, schedule);
    Unfolds(s, pc);
    if s.cell.store.manifest.Some? {
      var c := s.cell.store.manifest.value;
      OwnedIsAtHome(s.cell.git, c);
      TextIsBytes(c.evidence);
      var n := StepAttachEvidence(s, input);
      if MayRecord(s, input) {
        Ends(Put(ApplyMoves(w, schedule[0]), id, n.s), id, n.pc, schedule[1..]);
      }
    }
  }

  // ---- close ----

  /** The evidence a close or a verification can ask for, each kind independently. */
  predicate Vouched(required: Requirements, evidence: seq<Evidence<Digest>>, patch: Digest) {
    && (required.successful ==> evidence != [] && forall i | 0 <= i < |evidence| :: evidence[i].exitCode == 0)
    && (required.currentSuccessful ==>
          exists i | 0 <= i < |evidence| :: evidence[i].exitCode == 0 && evidence[i].patchSha256 == patch)
    && (required.executed ==>
          exists i | 0 <= i < |evidence| ::
            evidence[i].executed && evidence[i].exitCode == 0 && evidence[i].patchSha256 == patch)
  }

  lemma VouchedIsSatisfied(required: Requirements, evidence: seq<Evidence<Digest>>, patch: Digest)
    ensures Satisfies(required, evidence, patch) <==> Vouched(required, evidence, patch)
  {
    assert forall e | e in evidence :: exists i | 0 <= i < |evidence| :: evidence[i] == e;
  }

  /** The second look at the workspace shows what the first did. */
  predicate SameAgain(s: Local, c: Capsule, first: Observation) {
    var g := s.cell.git;
    && g.branch.Some?
    && first.patch == Diff(c.identity.base.tree, g.tree)
    && first.head == g.branch.value
    && (first.clean <==> g.tree == g.index == g.branch.value.tree)
    && first.ignored == g.ignored
  }

  /** Bytes of all ignored content, in whatever order it is added up. */
  ghost function Volume(tree: Tree): nat {
    if tree == map[] then 0 else var path :| path in tree; |tree[path]| + Volume(tree - {path})
  }

  lemma {:induction false} VolumeWithout(tree: Tree, path: string)
    requires path in tree
    ensures Volume(tree) == |tree[path]| + Volume(tree - {path})
    decreases |tree|
  {
    var other :| other in tree && Volume(tree) == |tree[other]| + Volume(tree - {other});
    if other == path {
    } else {
      VolumeWithout(tree - {other}, path);
      VolumeWithout(tree - {path}, other);
      assert tree - {other} - {path} == tree - {path} - {other};
    }
  }

  lemma {:induction false} ContentIsVolume(tree: Tree, paths: seq<string>)
    requires StrictlySorted(paths)
    requires forall p | p in paths :: p in tree
    requires forall p | p in tree :: p in paths
    ensures ContentBytes(tree, paths) == Volume(tree)
    decreases |paths|
  {
    if paths == [] {
      assert tree == map[];
    } else {
      var first, rest := paths[0], paths[1..];
      var less := tree - {first};
      assert first !in rest by {
        Irreflexive(first);
      }
      assert forall p | p in paths :: p == first || p in rest;
      ContentIsVolume(less, rest);
      SameContent(tree, less, rest);
      VolumeWithout(tree, first);
    }
  }

  lemma {:induction false} SameContent(a: Tree, b: Tree, paths: seq<string>)
    requires forall p | p in paths :: p in a && p in b && a[p] == b[p]
    ensures ContentBytes(a, paths) == ContentBytes(b, paths)
  {
    if paths == [] {
    } else {
      SameContent(a, b, paths[1..]);
    }
  }

  /** The sealed result tells what was observed of the workspace, and repeats the capsule. */
  ghost predicate Seals(r: Sealed, c: Capsule, o: Observation, now: nat) {
    && r.capsuleId == c.identity.id
    && r.title == c.identity.title
    && r.links == c.identity.links
    && r.kind == (if o.patch == map[] then NoChange else if o.clean then Committed else Patched)
    && r.baseCommit == c.identity.base
    && r.headCommit == o.head
    && r.patchSha256 == OfPatch(o.patch)
    && r.patchBytes == |o.patch|
    && r.changedPaths == SortedKeys(o.patch.Keys)
    && r.ignoredBytes == Volume(o.ignored)
    && r.ignoredContentSha256 == Some(OfInventory(o.ignored))
    && r.ignoredPaths == SortedKeys(o.ignored.Keys)
    && r.checkpoints == c.checkpoints
    && r.evidence == c.evidence
    && r.createdAt == c.identity.createdAt
    && r.sealedAt == now
  }

  lemma SealedResultTells(c: Capsule, o: Observation, now: nat)
    ensures Seals(SealedResult(c, o, now), c, o, now)
  {
    hide ContentBytes;
    hide Volume;
    hide StrictlySorted;
    var paths := SortedKeys(o.ignored.Keys);
    assert forall p | p in o.ignored :: p in o.ignored.Keys;
    ContentIsVolume(o.ignored, paths);
  }

  /** The reference repeats the result, and the closed manifest adds nothing but it. */
  predicate Refers(d: Capsule, c: Capsule, r: Sealed, now: nat) {
    && d.result.Some?
    && d == c.(state := Closed, result := d.result, closedAt := Some(now))
    && var ref := d.result.value;
       && (ref.kind, ref.headCommit, ref.patchSha256) == (r.kind, r.headCommit, r.patchSha256)
       && (ref.patchBytes, ref.changedPaths, ref.sealedAt) == (r.patchBytes, |r.changedPaths|, r.sealedAt)
       && ref.resultSha256 == OfResult(r)
  }

  /** A close observes an active capsule at home; it seals only if the second look agrees with the
      first and the evidence meets what is asked, and then writes the patch before anything else. */
  lemma CloseIsDecided(w: World, id: string, required: Requirements, schedule: seq<seq<Move>>)
    requires schedule != []
    ensures var s, pc := Found(w, id, schedule), ObserveClose(required);
            var manifest, g := s.cell.store.manifest, s.cell.git;
            if manifest.Some? && manifest.value.state.Active? && AtHome(g, manifest.value.gitDir) then
              exists first ::
                SameAgain(s, manifest.value, first)
                && GoesOn(w, id, pc, schedule, s, ConfirmClose(manifest.value, required, first))
            else Refused(w, id, pc, schedule)
  {
    hide Execute;
    hide ApplyMoves;
    hide Put;
    hide Step;
    hide Diff;
    hide Owned;
    hide AtHome;
    hide StepAttachEvidence;
    hide StepConfirmClose;
    var s, pc := Found(w, id, schedule), ObserveClose(required);
    FirstBlock(w, id, pc, schedule);
    Unfolds(s, pc);
    if s.cell.store.manifest.Some? {
      var c := s.cell.store.manifest.value;
      OwnedIsAtHome(s.cell.git, c);
      if AtHome(s.cell.git, c.gitDir) {
        HomeHasBranch(s.cell.git, c.gitDir);
        assert SameAgain(s, c, Observe(s.cell.git, c.identity.base));
      }
    }
  }

  lemma ConfirmIsDecided(w: World, id: string, c: Capsule, required: Requirements, first: Observation,
                         schedule: seq<seq<Move>>)
    requires schedule != []
    ensures var s, pc := Found(w, id, schedule), ConfirmClose(c, required, first);
            if SameAgain(s, c, first) && Vouched(required, c.evidence, OfPatch(first.patch)) then
              exists d, r ::
                && Seals(r, c, first, s.clock)
                && Refers(d, c, r, s.clock)
                && GoesOn(w, id, pc, schedule, s.(cell := s.cell.(store := s.cell.store.(patch := Some(first.patch)))),
                          WriteResult(d, r))
            else Refused(w, id, pc, schedule)
  {
    hide Execute;
    hide ApplyMoves;
    hide Put;
    hide Step;
    hide Diff;
    hide Satisfies;
    hide Vouched;
    hide SealedResult;
    hide Seals;
    hide StepAttachEvidence;
    hide StepObserveClose;
    var s, pc := Found(w, id, schedule), ConfirmClose(c, required, first);
    FirstBlock(w, id, pc, schedule);
    Unfolds(s, pc);
    VouchedIsSatisfied(required, c.evidence, OfPatch(first.patch));
    SealedResultTells(c, first, s.clock);
    var r := SealedResult(c, first, s.clock);
    if SameAgain(s, c, first) {
      assert first == Observe(s.cell.git, c.identity.base);
      assert Refers(Machine.Closing(c, r, s.clock), c, r, s.clock);
    }
  }
}
