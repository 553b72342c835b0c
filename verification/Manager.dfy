/** The manager's methods in their own imperative form: each reads the world, changes it one durable
    effect at a time, and can lose its process between any two of them. Every method is proved to
    do exactly what the machine of durable steps does from the same start, under every schedule. */
module Manager {
  import opened Model
  import opened Git
  import opened Ordering
  import opened World
  import opened Machine
  import opened Execution
  import opened SealedDecisions
  import Safety = ManagerSafety

  /** The durable world, and what is still to come in between: one batch of foreign moves for each
      step the process will live to take. */
  class CapsuleManager {
    var world: World
    var schedule: seq<seq<Move>>

    constructor (world: World, schedule: seq<seq<Move>>)
      ensures this.world == world && this.schedule == schedule
    {
      this.world := world;
      this.schedule := schedule;
    }

    function Here(id: string): Local
      reads this
    {
      View(world, id)
    }

    /** The state and outcome are those of `ending`; no outcome means the process died. */
    predicate Reached(ending: Ending, outcome: Option<Outcome>)
      reads this
    {
      && world == ending.world
      && schedule == ending.rest
      && (match outcome
          case Some(o) => ending.pc == Done(o)
          case None => !ending.pc.Done?)
    }

    /** All that is missing from `ending` is one write of `capsule`, without interruption. */
    predicate AboutToWrite(ending: Ending, id: string, capsule: Capsule)
      reads this
    {
      ending == Ending(Put(world, id, Save(Here(id), capsule)), Done(Succeeded(capsule)), schedule)
    }

    /** What happens around the process before its next block of code, if it lives that long. */
    method Interleave(ghost id: string, ghost pc: PC) returns (alive: bool)
      modifies this
      ensures alive == (old(schedule) != [])
      ensures alive ==> world == ApplyMoves(old(world), old(schedule)[0]) && schedule == old(schedule)[1..]
      ensures !alive ==> world == old(world) && schedule == old(schedule)
      ensures !alive ==> Execute(world, id, pc, schedule) == Ending(world, pc, schedule)
    {
      alive := schedule != [];
      if alive {
        var moves := schedule[0];
        schedule := schedule[1..];
        var i := 0;
        while i < |moves|
          invariant 0 <= i <= |moves|
          invariant schedule == old(schedule)[1..]
          invariant ApplyMoves(world, moves[i..]) == ApplyMoves(old(world), moves)
        {
          assert moves[i..][1..] == moves[i + 1..];
          world := ApplyMove(world, moves[i]);
          i := i + 1;
        }
      } else {
        Ends(world, id, pc, schedule);
      }
    }

    /** One atomic manifest write. */
    method WriteCapsule(id: string, capsule: Capsule)
      modifies this`world
      ensures Here(id) == Save(old(Here(id)), capsule)
      ensures world == Put(old(world), id, Here(id))
    {
      world := Put(world, id, Save(Here(id), capsule));
    }

    /** One write of the patch file. */
    method WritePatch(id: string, patch: Patch)
      modifies this`world
      ensures Here(id) == old(Here(id)).(cell := old(Here(id)).cell.(store := old(Here(id)).cell.store.(patch := Some(patch))))
      ensures world == Put(old(world), id, Here(id))
    {
      var s := Here(id);
      world := Put(world, id, s.(cell := s.cell.(store := s.cell.store.(patch := Some(patch)))));
    }

    /** One write of the result file. */
    method WriteResult(id: string, result: Sealed)
      modifies this`world
      ensures Here(id) == old(Here(id)).(cell := old(Here(id)).cell.(store := old(Here(id)).cell.store.(result := Some(result))))
      ensures world == Put(old(world), id, Here(id))
    {
      var s := Here(id);
      world := Put(world, id, s.(cell := s.cell.(store := s.cell.store.(result := Some(result)))));
    }

    /** One Git command on the capsule's side. */
    method ChangeGit(id: string, git: GitSide)
      modifies this`world
      ensures Here(id) == WithGit(old(Here(id)), git)
      ensures world == Put(old(world), id, Here(id))
    {
      world := Put(world, id, WithGit(Here(id), git));
    }

    /** One fast-forward of an integration target. */
    method MoveHead(id: string, name: string, head: Commit)
      requires name in world.targets
      modifies this`world
      ensures Here(id) == old(Here(id)).(targets := old(world).targets[name := old(world).targets[name].(head := head)])
      ensures world == Put(old(world), id, Here(id))
    {
      var s := Here(id);
      world := Put(world, id, s.(targets := s.targets[name := s.targets[name].(head := head)]));
    }

    // ---- recover.rs ----

    /** `finish_checkpoint`: on completion the new manifest is handed back for the caller to write. */
    method FinishCheckpoint(id: string, journaled: Capsule, sweep: bool)
      returns (outcome: Option<Outcome>, capsule: Capsule)
      modifies this
      ensures outcome.Some? && outcome.value.Succeeded? ==>
                outcome.value.capsule == capsule
                && AboutToWrite(Execute(old(world), id, PC.FinishCheckpoint(journaled, sweep), old(schedule)), id, capsule)
      ensures !(outcome.Some? && outcome.value.Succeeded?) ==>
                Reached(Execute(old(world), id, PC.FinishCheckpoint(journaled, sweep), old(schedule)), outcome)
    {
      hide CreationStep;
      hide ClosingStep;
      hide IntegratingStep;
      hide DroppingStep;
      hide StepBeginRecover;
      hide Owned;
      hide Diff;
      hide Execute;
      hide Step;
      hide ApplyMoves;
      hide Put;
      hide StepBeginCheckpoint;
      hide StepResetIndex;
      hide StepDeleteCheckpointRef;
      hide StepRecordCheckpoint;
      capsule := journaled;
      ghost var pc, w, q := PC.FinishCheckpoint(journaled, sweep), world, schedule;
      var alive := Interleave(id, pc);
      if !alive {
        return None, capsule;
      }
      Unfolds(Here(id), pc);
      var git := Here(id).cell.git;
      if capsule.journal.None? || !Owned(git, capsule) {
        Stops(w, id, pc, q, Failed);
        return Some(Failed), capsule;
      }
      var journal := capsule.journal.value;
      if journal.headAfter.parents != [journal.headBefore]
         || OfPatch(Diff(journal.headBefore.tree, journal.headAfter.tree)) != journal.patchSha256 {
        Stops(w, id, pc, q, Failed);
        return Some(Failed), capsule;
      }
      OwnedHasBranch(git, capsule);
      var head, pending := git.branch.value, git.checkpointRef;
      if head == journal.headBefore {
        if pending.None? {
          ChangeGit(id, git.(checkpointRef := Some(journal.headAfter)));
          Proceeds(w, id, pc, q, world, AdvanceBranch(capsule, false));
          pc, w, q := AdvanceBranch(capsule, false), world, schedule;
          alive := Interleave(id, pc);
          if !alive {
            return None, capsule;
          }
          Unfolds(Here(id), pc);
          git := Here(id).cell.git;
          if git.branch != Some(journal.headBefore) {
            Stops(w, id, pc, q, Failed);
            return Some(Failed), capsule;
          }
        } else if pending.value != journal.headAfter {
          Stops(w, id, pc, q, Failed);
          return Some(Failed), capsule;
        }
        ChangeGit(id, git.(branch := Some(journal.headAfter)));
        Proceeds(w, id, pc, q, world, PC.ResetIndex(capsule, pending.Some?));
        outcome, capsule := ResetIndex(id, capsule, pending.Some?);
      } else if head == journal.headAfter {
        if pending.Some? && pending.value != head {
          Stops(w, id, pc, q, Failed);
          return Some(Failed), capsule;
        }
        ChangeGit(id, git.(index := journal.headAfter.tree));
        Proceeds(w, id, pc, q, world, PC.DeleteCheckpointRef(capsule, pending.Some?));
        outcome, capsule := CompleteCheckpoint(id, capsule, pending.Some?);
      } else {
        Stops(w, id, pc, q, if sweep then NoAction else Failed);
        return Some(if sweep then NoAction else Failed), capsule;
      }
    }

    /** The second command of `advance_branch`, and what follows it. */
    method ResetIndex(id: string, journaled: Capsule, pending: bool)
      returns (outcome: Option<Outcome>, capsule: Capsule)
      modifies this
      ensures outcome.Some? && outcome.value.Succeeded? ==>
                outcome.value.capsule == capsule
                && AboutToWrite(Execute(old(world), id, PC.ResetIndex(journaled, pending), old(schedule)), id, capsule)
      ensures !(outcome.Some? && outcome.value.Succeeded?) ==>
                Reached(Execute(old(world), id, PC.ResetIndex(journaled, pending), old(schedule)), outcome)
    {
      hide CreationStep;
      hide ClosingStep;
      hide IntegratingStep;
      hide DroppingStep;
      hide StepBeginRecover;
      hide Execute;
      hide Step;
      hide ApplyMoves;
      hide Put;
      hide RepositoryGitDir;
      hide StepBeginCheckpoint;
      hide StepFinishCheckpoint;
      hide StepDeleteCheckpointRef;
      hide StepRecordCheckpoint;
      capsule := journaled;
      ghost var pc, w, q := PC.ResetIndex(journaled, pending), world, schedule;
      var alive := Interleave(id, pc);
      if !alive {
        return None, capsule;
      }
      Unfolds(Here(id), pc);
      var git := Here(id).cell.git;
      if capsule.journal.None? || !git.entry.Linked? || RepositoryGitDir(git).None? {
        Stops(w, id, pc, q, Failed);
        return Some(Failed), capsule;
      }
      LinkedRegistration(git);
      var after := capsule.journal.value.headAfter;
      git := git.(index := after.tree);
      if git.registration.value.onBranch {
        git := git.(branch := Some(after));
      }
      ChangeGit(id, git);
      Proceeds(w, id, pc, q, world, PC.DeleteCheckpointRef(capsule, pending));
      outcome, capsule := CompleteCheckpoint(id, capsule, pending);
    }

    /** The end of `finish_checkpoint`: the pending ref goes, and the checkpoint is appended. */
    method CompleteCheckpoint(id: string, journaled: Capsule, pending: bool)
      returns (outcome: Option<Outcome>, capsule: Capsule)
      modifies this
      ensures outcome.Some? && outcome.value.Succeeded? ==>
                outcome.value.capsule == capsule
                && AboutToWrite(Execute(old(world), id, PC.DeleteCheckpointRef(journaled, pending), old(schedule)), id, capsule)
      ensures !(outcome.Some? && outcome.value.Succeeded?) ==>
                Reached(Execute(old(world), id, PC.DeleteCheckpointRef(journaled, pending), old(schedule)), outcome)
    {
      hide CreationStep;
      hide ClosingStep;
      hide IntegratingStep;
      hide DroppingStep;
      hide StepBeginRecover;
      hide Execute;
      hide Step;
      hide ApplyMoves;
      hide Put;
      hide StepBeginCheckpoint;
      hide StepFinishCheckpoint;
      capsule := journaled;
      ghost var pc, w, q := PC.DeleteCheckpointRef(journaled, pending), world, schedule;
      var alive := Interleave(id, pc);
      if !alive {
        return None, capsule;
      }
      Unfolds(Here(id), pc);
      var git := Here(id).cell.git;
      if pending && git.checkpointRef.Some? {
        if capsule.journal.None? || git.checkpointRef != Some(capsule.journal.value.headAfter) {
          Stops(w, id, pc, q, Failed);
          return Some(Failed), capsule;
        }
        ChangeGit(id, git.(checkpointRef := None));
      } else {
        PutsBack(world, id);
      }
      Proceeds(w, id, pc, q, world, RecordCheckpoint(capsule));
      pc, w, q := RecordCheckpoint(capsule), world, schedule;
      alive := Interleave(id, pc);
      if !alive {
        return None, capsule;
      }
      Unfolds(Here(id), pc);
      if capsule.journal.None? {
        Stops(w, id, pc, q, Failed);
        return Some(Failed), capsule;
      }
      var journal := capsule.journal.value;
      if exists k | 0 <= k < |capsule.checkpoints| :: capsule.checkpoints[k].commit == journal.headAfter {
        Stops(w, id, pc, q, Failed);
        return Some(Failed), capsule;
      }
      var checkpoint := Checkpoint(journal.headAfter, journal.message, journal.author, journal.startedAt);
      capsule := capsule.(checkpoints := capsule.checkpoints + [checkpoint]);
      capsule := capsule.(journal := None);
      capsule := capsule.(state := Active);
      WriteEnds(w, id, pc, q, world, capsule);
      return Some(Succeeded(capsule)), capsule;
    }

    // ---- lifecycle.rs: checkpoint ----

    method TakeCheckpoint(id: string, message: string, author: Author) returns (outcome: Option<Outcome>)
      modifies this
      ensures Reached(Execute(old(world), id, BeginCheckpoint(message, author), old(schedule)), outcome)
      ensures outcome.Some? ==> Safety.Honest(Safety.Checkpointed(message, author), outcome.value)
    {
      hide CreationStep;
      hide ClosingStep;
      hide IntegratingStep;
      hide DroppingStep;
      hide StepBeginRecover;
      hide Safety.Honest;
      hide Owned;
      hide Diff;
      hide CommitPatch;
      hide Execute;
      hide Step;
      hide ApplyMoves;
      hide Put;
      hide StepFinishCheckpoint;
      hide StepResetIndex;
      hide StepDeleteCheckpointRef;
      hide StepRecordCheckpoint;
      ghost var pc, w, q := BeginCheckpoint(message, author), world, schedule;
      Safety.CallIsHonest(w, id, pc, Safety.Checkpointed(message, author), q);
      var alive := Interleave(id, pc);
      if !alive {
        return None;
      }
      Unfolds(Here(id), pc);
      var git := Here(id).cell.git;
      var stored := Here(id).cell.store.manifest;
      if stored.None? || !stored.value.state.Active? || !Owned(git, stored.value) {
        Stops(w, id, pc, q, Failed);
        return Some(Failed);
      }
      var capsule := stored.value;
      OwnedHasBranch(git, capsule);
      var headBefore := git.branch.value;
      var patch := Diff(headBefore.tree, git.tree);
      if patch == map[] {
        Stops(w, id, pc, q, Failed);
        return Some(Failed);
      }
      var prepared := CommitPatch(headBefore, patch, message, author);
      if prepared.None? || prepared.value.parents != [headBefore]
         || Diff(headBefore.tree, prepared.value.tree) != patch {
        Stops(w, id, pc, q, Failed);
        return Some(Failed);
      }
      var headAfter := prepared.value;
      var journal := Journal(headBefore, headAfter, OfPatch(patch), message, author, Here(id).clock);
      if |capsule.checkpoints| >= CHECKPOINT_COUNT_CAP || git.checkpointRef.Some? {
        Stops(w, id, pc, q, Failed);
        return Some(Failed);
      }
      ChangeGit(id, git.(checkpointRef := Some(headAfter)));
      capsule := capsule.(state := Checkpointing);
      capsule := capsule.(journal := Some(journal));
      Proceeds(w, id, pc, q, world, JournalCheckpoint(capsule));
      pc, w, q := JournalCheckpoint(capsule), world, schedule;
      alive := Interleave(id, pc);
      if !alive {
        return None;
      }
      Unfolds(Here(id), pc);
      WriteCapsule(id, capsule);
      Proceeds(w, id, pc, q, world, PC.FinishCheckpoint(capsule, false));
      outcome, capsule := FinishCheckpoint(id, capsule, false);
      if outcome.Some? && outcome.value.Succeeded? {
        WriteCapsule(id, capsule);
      }
    }

    // ---- lifecycle.rs: evidence and close ----

    /** The stored text of all records, command and summary. */
    method StoredEvidenceBytes(evidence: seq<Evidence<Digest>>) returns (total: nat)
      ensures total == EvidenceBytes(evidence)
    {
      total := 0;
      var i := 0;
      while i < |evidence|
        invariant 0 <= i <= |evidence|
        invariant total + EvidenceBytes(evidence[i..]) == EvidenceBytes(evidence)
      {
        assert evidence[i..][1..] == evidence[i + 1..];
        total := total + |evidence[i].command| + SummaryBytes(evidence[i].summary);
        i := i + 1;
      }
    }

    /** `add_evidence` from the moment it holds the locks; an executed command ran before that. */
    method AddEvidence(id: string, input: EvidenceInput) returns (outcome: Option<Outcome>)
      modifies this
      ensures Reached(Execute(old(world), id, AttachEvidence(input), old(schedule)), outcome)
      ensures outcome.Some? ==> Safety.Honest(Safety.Recorded(input), outcome.value)
    {
      hide CreationStep;
      hide CheckpointingStep;
      hide IntegratingStep;
      hide DroppingStep;
      hide StepBeginRecover;
      hide Safety.Honest;
      hide Owned;
      hide Diff;
      hide Execute;
      hide Step;
      hide ApplyMoves;
      hide Put;
      hide EvidenceOf;
      hide StepObserveClose;
      hide StepConfirmClose;
      ghost var pc, w, q := AttachEvidence(input), world, schedule;
      Safety.CallIsHonest(w, id, pc, Safety.Recorded(input), q);
      var alive := Interleave(id, pc);
      if !alive {
        return None;
      }
      Unfolds(Here(id), pc);
      var git := Here(id).cell.git;
      var stored := Here(id).cell.store.manifest;
      if stored.None? || !stored.value.state.Active? || !Owned(git, stored.value) {
        Stops(w, id, pc, q, Failed);
        return Some(Failed);
      }
      var capsule := stored.value;
      var bytes := StoredEvidenceBytes(capsule.evidence);
      if |capsule.evidence| >= EVIDENCE_COUNT_CAP
         || bytes + |input.command| + SummaryBytes(input.summary) > EVIDENCE_TOTAL_BYTES_CAP {
        Stops(w, id, pc, q, Failed);
        return Some(Failed);
      }
      var patch := Diff(capsule.identity.base.tree, git.tree);
      capsule := capsule.(evidence := capsule.evidence + [EvidenceOf(input, patch, Here(id).clock)]);
      WriteEnds(w, id, pc, q, world, capsule);
      WriteCapsule(id, capsule);
      return Some(Succeeded(capsule));
    }

    method Close(id: string, required: Requirements) returns (outcome: Option<Outcome>)
      modifies this
      ensures Reached(Execute(old(world), id, ObserveClose(required), old(schedule)), outcome)
      ensures outcome.Some? ==> Safety.Honest(Safety.Seal(required), outcome.value)
    {
      hide CreationStep;
      hide CheckpointingStep;
      hide IntegratingStep;
      hide DroppingStep;
      hide StepBeginRecover;
      hide Safety.Honest;
      hide Owned;
      hide Diff;
      hide Clean;
      hide Execute;
      hide Step;
      hide ApplyMoves;
      hide Put;
      hide SealedResult;
      hide SealOf;
      hide Satisfies;
      hide StepAttachEvidence;
      ghost var pc, w, q := ObserveClose(required), world, schedule;
      Safety.CallIsHonest(w, id, pc, Safety.Seal(required), q);
      var alive := Interleave(id, pc);
      if !alive {
        return None;
      }
      Unfolds(Here(id), pc);
      var git := Here(id).cell.git;
      var stored := Here(id).cell.store.manifest;
      if stored.None? || !stored.value.state.Active? || !Owned(git, stored.value) {
        Stops(w, id, pc, q, Failed);
        return Some(Failed);
      }
      var capsule := stored.value;
      OwnedHasBranch(git, capsule);
      var initial := Observe(git, capsule.identity.base);
      PutsBack(world, id);
      Proceeds(w, id, pc, q, world, ConfirmClose(capsule, required, initial));
      pc, w, q := ConfirmClose(capsule, required, initial), world, schedule;
      alive := Interleave(id, pc);
      if !alive {
        return None;
      }
      Unfolds(Here(id), pc);
      git := Here(id).cell.git;
      if git.branch.None? || Observe(git, capsule.identity.base) != initial
         || !Satisfies(required, capsule.evidence, OfPatch(initial.patch)) {
        Stops(w, id, pc, q, Failed);
        return Some(Failed);
      }
      var sealedAt := Here(id).clock;
      var result := SealedResult(capsule, initial, sealedAt);
      WritePatch(id, initial.patch);
      capsule := capsule.(result := Some(SealOf(result)));
      capsule := capsule.(state := Closed);
      capsule := capsule.(closedAt := Some(sealedAt));
      Proceeds(w, id, pc, q, world, PC.WriteResult(capsule, result));
      pc, w, q := PC.WriteResult(capsule, result), world, schedule;
      alive := Interleave(id, pc);
      if !alive {
        return None;
      }
      Unfolds(Here(id), pc);
      WriteResult(id, result);
      Proceeds(w, id, pc, q, world, Write(capsule));
      outcome := FinalWrite(id, capsule);
    }

    /** The manifest write an operation ends with, after one more chance to die. */
    method FinalWrite(id: string, capsule: Capsule) returns (outcome: Option<Outcome>)
      modifies this
      ensures Reached(Execute(old(world), id, Write(capsule), old(schedule)), outcome)
    {
      hide Execute;
      hide Step;
      hide ApplyMoves;
      hide Put;
      ghost var pc, w, q := Write(capsule), world, schedule;
      var alive := Interleave(id, pc);
      if !alive {
        return None;
      }
      Unfolds(Here(id), pc);
      WriteEnds(w, id, pc, q, world, capsule);
      WriteCapsule(id, capsule);
      return Some(Succeeded(capsule));
    }

    // ---- lifecycle.rs: integrate ----

    method IntegrateInto(id: string, target: string, subject: Option<string>, author: Author)
      returns (outcome: Option<Outcome>)
      modifies this
      ensures Reached(Execute(old(world), id, BeginIntegrate(target, subject, author), old(schedule)), outcome)
      ensures outcome.Some? ==> Safety.Honest(Safety.Landed(target), outcome.value)
    {
      hide CreationStep;
      hide CheckpointingStep;
      hide ClosingStep;
      hide DroppingStep;
      hide StepBeginRecover;
      hide Safety.Honest;
      hide EnsureSealed;
      hide Execute;
      hide Step;
      hide ApplyMoves;
      hide Put;
      hide Begun;
      hide StepPrepareIntegration;
      hide StepJournalTarget;
      hide StepRevalidate;
      hide StepAdvance;
      hide StepDeleteIntegrationRef;
      ghost var pc, w, q := BeginIntegrate(target, subject, author), world, schedule;
      Safety.CallIsHonest(w, id, pc, Safety.Landed(target), q);
      var alive := Interleave(id, pc);
      if !alive {
        return None;
      }
      Unfolds(Here(id), pc);
      var stored := Here(id).cell.store.manifest;
      if stored.None? || !stored.value.state.Closed? || !EnsureSealed(Here(id), stored.value)
         || target !in Here(id).targets {
        Stops(w, id, pc, q, Failed);
        return Some(Failed);
      }
      var capsule, t := stored.value, Here(id).targets[target];
      if t.commonDir != capsule.identity.commonDir || !t.full || !t.clean || t.head != capsule.identity.base {
        Stops(w, id, pc, q, Failed);
        return Some(Failed);
      }
      capsule := Begun(capsule, target, t, subject, author);
      WriteCapsule(id, capsule);
      Proceeds(w, id, pc, q, world, PC.PrepareIntegration(capsule));
      outcome := PrepareIntegration(id, capsule);
    }

    /** `prepare_integration`: HEAD itself when there is nothing to land, else the one commit that
        lands the seal, and nothing when there is no such commit. */
    method ProposeHead(id: string, capsule: Capsule, result: Sealed, patch: Patch) returns (head: Option<Commit>)
      requires capsule.integration.Some?
      ensures var target := capsule.integration.value.target;
              && (target !in world.targets ==> head == None)
              && (target in world.targets && result.kind.NoChange? ==> head == Some(world.targets[target].head))
              && (target in world.targets && !result.kind.NoChange? ==>
                    forall commit :: head == Some(commit) <==> LandsSeal(capsule, result, patch, commit))
      ensures capsule.integration.value.target in world.targets && Reproduces(capsule.identity.base, result, patch) ==>
                head.Some?
    {
      hide Diff;
      hide IntegrationCommit;
      hide ChangedPaths;
      var i := capsule.integration.value;
      if i.target !in world.targets {
        return None;
      }
      if result.kind == NoChange {
        return Some(world.targets[i.target].head);
      }
      SealIsLanded(capsule, result, patch);
      var prepared := IntegrationCommit(capsule, patch);
      if prepared.None? || prepared.value.parents != [capsule.identity.base] {
        return None;
      }
      if Diff(capsule.identity.base.tree, prepared.value.tree) != patch
         || ChangedPaths(patch) != result.changedPaths {
        return None;
      }
      return prepared;
    }

    /** Prepares the commit, or aborts back to closed, and protects what it prepared. */
    method PrepareIntegration(id: string, started: Capsule) returns (outcome: Option<Outcome>)
      modifies this
      ensures Reached(Execute(old(world), id, PC.PrepareIntegration(started), old(schedule)), outcome)
    {
      hide CreationStep;
      hide CheckpointingStep;
      hide ClosingStep;
      hide DroppingStep;
      hide StepBeginRecover;
      hide Execute;
      hide Step;
      hide ApplyMoves;
      hide Put;
      hide Diff;
      hide ChangedPaths;
      hide IntegrationCommit;
      hide StepBeginIntegrate;
      hide StepRevalidate;
      hide StepAdvance;
      hide StepDeleteIntegrationRef;
      var capsule := started;
      ghost var pc, w, q := PC.PrepareIntegration(started), world, schedule;
      var alive := Interleave(id, pc);
      if !alive {
        return None;
      }
      Unfolds(Here(id), pc);
      var store, git := Here(id).cell.store, Here(id).cell.git;
      if capsule.integration.None? || store.result.None? || store.patch.None? {
        Stops(w, id, pc, q, Failed);
        return Some(Failed);
      }
      SealIsLanded(capsule, store.result.value, store.patch.value);
      var proposed := ProposeHead(id, capsule, store.result.value, store.patch.value);
      if proposed.None? {
        capsule := capsule.(state := Closed);
        capsule := capsule.(integration := None);
        WriteCapsule(id, capsule);
        Proceeds(w, id, pc, q, world, Done(Failed));
        Ends(world, id, Done(Failed), schedule);
        return Some(Failed);
      }
      if proposed.value != capsule.integration.value.before {
        if git.integrationRef.Some? {
          Stops(w, id, pc, q, Failed);
          return Some(Failed);
        }
        ChangeGit(id, git.(integrationRef := proposed));
        Proceeds(w, id, pc, q, world, JournalTarget(capsule, proposed.value));
        pc, w, q := JournalTarget(capsule, proposed.value), world, schedule;
        alive := Interleave(id, pc);
        if !alive {
          return None;
        }
        Unfolds(Here(id), pc);
      }
      capsule := capsule.(integration := Some(capsule.integration.value.(after := proposed)));
      WriteCapsule(id, capsule);
      Proceeds(w, id, pc, q, world, Revalidate(capsule));
      outcome := FastForwardTarget(id, capsule);
    }

    /** The target is validated again, then moved. */
    method FastForwardTarget(id: string, journaled: Capsule) returns (outcome: Option<Outcome>)
      modifies this
      ensures Reached(Execute(old(world), id, Revalidate(journaled), old(schedule)), outcome)
    {
      hide CreationStep;
      hide CheckpointingStep;
      hide ClosingStep;
      hide DroppingStep;
      hide StepBeginRecover;
      hide Execute;
      hide Step;
      hide ApplyMoves;
      hide Put;
      hide FastForward;
      hide StepBeginIntegrate;
      hide StepPrepareIntegration;
      hide StepJournalTarget;
      hide StepDeleteIntegrationRef;
      var capsule := journaled;
      ghost var pc, w, q := Revalidate(capsule), world, schedule;
      var alive := Interleave(id, pc);
      if !alive {
        return None;
      }
      Unfolds(Here(id), pc);
      if capsule.integration.None? || capsule.integration.value.target !in Here(id).targets {
        Stops(w, id, pc, q, Failed);
        return Some(Failed);
      }
      var i := capsule.integration.value;
      var t := Here(id).targets[i.target];
      if t.commonDir != capsule.identity.commonDir || t.gitDir != i.gitDir || t.headRef != i.headRef
         || !t.clean || t.head != i.before {
        Stops(w, id, pc, q, Failed);
        return Some(Failed);
      }
      PutsBack(world, id);
      Proceeds(w, id, pc, q, world, Advance(capsule));
      pc, w, q := Advance(capsule), world, schedule;
      alive := Interleave(id, pc);
      if !alive {
        return None;
      }
      Unfolds(Here(id), pc);
      if i.after.None? {
        Stops(w, id, pc, q, Failed);
        return Some(Failed);
      }
      var proposed := i.after.value;
      if proposed == i.before {
        capsule := Finalize(id, capsule);
        PutsBack(world, id);
        Proceeds(w, id, pc, q, world, Write(capsule));
        outcome := FinalWrite(id, capsule);
        return;
      }
      var forward := if i.target in Here(id).targets then FastForward(Here(id).targets[i.target].head, proposed) else None;
      if forward.None? {
        Stops(w, id, pc, q, Failed);
        return Some(Failed);
      }
      MoveHead(id, i.target, forward.value);
      capsule := Finalize(id, capsule);
      Proceeds(w, id, pc, q, world, PC.DeleteIntegrationRef(capsule, proposed));
      outcome := DeleteIntegrationRef(id, capsule, proposed);
    }

    /** The manifest of a completed integration. */
    method Finalize(id: string, journaled: Capsule) returns (capsule: Capsule)
      requires journaled.integration.Some?
      ensures capsule == Finalized(journaled, world.clock)
    {
      capsule := journaled;
      capsule := capsule.(integration := Some(capsule.integration.value.(integratedAt := Some(world.clock))));
      capsule := capsule.(state := Integrated);
    }

    method DeleteIntegrationRef(id: string, capsule: Capsule, expected: Commit) returns (outcome: Option<Outcome>)
      modifies this
      ensures Reached(Execute(old(world), id, PC.DeleteIntegrationRef(capsule, expected), old(schedule)), outcome)
    {
      hide CreationStep;
      hide CheckpointingStep;
      hide ClosingStep;
      hide DroppingStep;
      hide StepBeginRecover;
      hide Execute;
      hide Step;
      hide ApplyMoves;
      hide Put;
      hide StepBeginIntegrate;
      hide StepPrepareIntegration;
      hide StepJournalTarget;
      hide StepRevalidate;
      hide StepAdvance;
      ghost var pc, w, q := PC.DeleteIntegrationRef(capsule, expected), world, schedule;
      var alive := Interleave(id, pc);
      if !alive {
        return None;
      }
      Unfolds(Here(id), pc);
      var git := Here(id).cell.git;
      if git.integrationRef.Some? {
        if git.integrationRef.value != expected {
          Stops(w, id, pc, q, Failed);
          return Some(Failed);
        }
        ChangeGit(id, git.(integrationRef := None));
      } else {
        PutsBack(world, id);
      }
      Proceeds(w, id, pc, q, world, Write(capsule));
      outcome := FinalWrite(id, capsule);
    }

    // ---- lifecycle.rs: drop ----

    method DropCapsule(id: string, force: bool) returns (outcome: Option<Outcome>)
      modifies this
      ensures Reached(Execute(old(world), id, BeginDrop(force), old(schedule)), outcome)
      ensures outcome.Some? ==> Safety.Honest(Safety.Cleaned, outcome.value)
    {
      hide CreationStep;
      hide CheckpointingStep;
      hide ClosingStep;
      hide IntegratingStep;
      hide StepBeginRecover;
      hide Safety.Honest;
      hide Owned;
      hide EnsureSealed;
      hide RegistrationMatches;
      hide RecordedHead;
      hide RepositoryGitDir;
      hide Execute;
      hide Step;
      hide ApplyMoves;
      hide Put;
      hide StepRemoveWorktree;
      hide StepDeregister;
      hide StepDeleteBranch;
      hide StepPrune;
      hide StepClearCheckpointRef;
      hide StepClearIntegrationRef;
      ghost var pc, w, q := BeginDrop(force), world, schedule;
      Safety.CallIsHonest(w, id, pc, Safety.Cleaned, q);
      var alive := Interleave(id, pc);
      if !alive {
        return None;
      }
      Unfolds(Here(id), pc);
      var git := Here(id).cell.git;
      var stored := Here(id).cell.store.manifest;
      if stored.None? {
        Stops(w, id, pc, q, Failed);
        return Some(Failed);
      }
      var capsule := stored.value;
      if capsule.state.Dropped? {
        Stops(w, id, pc, q, Succeeded(capsule));
        return Some(Succeeded(capsule));
      }
      if capsule.state.Dropping? {
        PutsBack(world, id);
        Proceeds(w, id, pc, q, world, RemoveWorktree(capsule));
        outcome := FinishCleanup(id, capsule);
        return;
      }
      if (capsule.state.Creating? || capsule.state.Checkpointing? || capsule.state.Integrating? || capsule.state.Active?)
         && !force {
        Stops(w, id, pc, q, Failed);
        return Some(Failed);
      }
      var requireSealed := (capsule.state.Closed? || capsule.state.Integrated?) && !force;
      if requireSealed && !EnsureSealed(Here(id), capsule) {
        Stops(w, id, pc, q, Failed);
        return Some(Failed);
      }
      var refused: bool;
      if git.entry != Missing {
        if capsule.gitDir.None? && capsule.state.Creating? {
          capsule := capsule.(gitDir := RepositoryGitDir(git));
        }
        refused := !Owned(git, capsule);
      } else if requireSealed {
        refused := true;
      } else if git.registration.Some? {
        refused := !RegistrationMatches(git, git.branch);
      } else {
        refused := git.branch.Some? && !RecordedHead(capsule, git.branch.value);
      }
      if refused {
        Stops(w, id, pc, q, Failed);
        return Some(Failed);
      }
      capsule := capsule.(state := Dropping);
      capsule := capsule.(cleanup := Some(Cleanup(git.branch, requireSealed)));
      WriteCapsule(id, capsule);
      Proceeds(w, id, pc, q, world, RemoveWorktree(capsule));
      outcome := FinishCleanup(id, capsule);
    }

    /** `finish_cleanup`, and the write its callers end with. */
    method FinishCleanup(id: string, journaled: Capsule) returns (outcome: Option<Outcome>)
      modifies this
      ensures Reached(Execute(old(world), id, RemoveWorktree(journaled), old(schedule)), outcome)
    {
      hide CreationStep;
      hide CheckpointingStep;
      hide ClosingStep;
      hide IntegratingStep;
      hide StepBeginRecover;
      hide Owned;
      hide EnsureSealed;
      hide RegistrationMatches;
      hide Execute;
      hide Step;
      hide ApplyMoves;
      hide Put;
      hide StepBeginDrop;
      hide StepDeleteBranch;
      hide StepPrune;
      hide StepClearCheckpointRef;
      hide StepClearIntegrationRef;
      var capsule := journaled;
      ghost var pc, w, q := RemoveWorktree(capsule), world, schedule;
      var alive := Interleave(id, pc);
      if !alive {
        return None;
      }
      Unfolds(Here(id), pc);
      var git := Here(id).cell.git;
      if capsule.cleanup.None? {
        Stops(w, id, pc, q, Failed);
        return Some(Failed);
      }
      var expected := capsule.cleanup.value.branchHead;
      if git.entry != Missing {
        if !Owned(git, capsule) || git.branch != expected
           || (capsule.cleanup.value.requireSealed && !EnsureSealed(Here(id), capsule)) {
          Stops(w, id, pc, q, Failed);
          return Some(Failed);
        }
        ChangeGit(id, git.(entry := Missing, tree := map[], index := map[], ignored := map[]));
        Proceeds(w, id, pc, q, world, Deregister(capsule));
        pc, w, q := Deregister(capsule), world, schedule;
        alive := Interleave(id, pc);
        if !alive {
          return None;
        }
        Unfolds(Here(id), pc);
        ChangeGit(id, Here(id).cell.git.(registration := None));
      } else if git.registration.Some? {
        if !RegistrationMatches(git, expected) {
          Stops(w, id, pc, q, Failed);
          return Some(Failed);
        }
        ChangeGit(id, git.(registration := None));
      } else {
        PutsBack(world, id);
      }
      Proceeds(w, id, pc, q, world, PC.DeleteBranch(capsule));
      outcome := DeleteBranch(id, capsule);
    }

    /** `delete_branch_if_matches` at the journaled head, then the prune. */
    method DeleteBranch(id: string, journaled: Capsule) returns (outcome: Option<Outcome>)
      modifies this
      ensures Reached(Execute(old(world), id, PC.DeleteBranch(journaled), old(schedule)), outcome)
    {
      hide CreationStep;
      hide CheckpointingStep;
      hide ClosingStep;
      hide IntegratingStep;
      hide StepBeginRecover;
      hide Execute;
      hide Step;
      hide ApplyMoves;
      hide Put;
      hide StepBeginDrop;
      hide StepRemoveWorktree;
      hide StepClearCheckpointRef;
      hide StepClearIntegrationRef;
      var capsule := journaled;
      ghost var pc, w, q := PC.DeleteBranch(capsule), world, schedule;
      var alive := Interleave(id, pc);
      if !alive {
        return None;
      }
      Unfolds(Here(id), pc);
      var git := Here(id).cell.git;
      if capsule.cleanup.None? {
        Stops(w, id, pc, q, Failed);
        return Some(Failed);
      }
      match capsule.cleanup.value.branchHead {
        case Some(head) =>
          if git.branch.None? {
            PutsBack(world, id);
          } else if git.branch.value != head || (git.registration.Some? && git.registration.value.onBranch) {
            Stops(w, id, pc, q, Failed);
            return Some(Failed);
          } else {
            ChangeGit(id, git.(branch := None));
          }
        case None =>
          if git.branch.Some? {
            Stops(w, id, pc, q, Failed);
            return Some(Failed);
          }
          PutsBack(world, id);
      }
      Proceeds(w, id, pc, q, world, Prune(capsule));
      pc, w, q := Prune(capsule), world, schedule;
      alive := Interleave(id, pc);
      if !alive {
        return None;
      }
      Unfolds(Here(id), pc);
      git := Here(id).cell.git;
      if git.entry == Missing {
        ChangeGit(id, git.(registration := None));
      } else {
        PutsBack(world, id);
      }
      Proceeds(w, id, pc, q, world, ClearCheckpointRef(capsule));
      outcome := ClearPendingRefs(id, capsule);
    }

    /** The loop over both pending refs, and the dropped record. */
    method ClearPendingRefs(id: string, journaled: Capsule) returns (outcome: Option<Outcome>)
      modifies this
      ensures Reached(Execute(old(world), id, ClearCheckpointRef(journaled), old(schedule)), outcome)
    {
      hide CreationStep;
      hide CheckpointingStep;
      hide ClosingStep;
      hide IntegratingStep;
      hide StepBeginRecover;
      hide Execute;
      hide Step;
      hide ApplyMoves;
      hide Put;
      hide StepBeginDrop;
      hide StepRemoveWorktree;
      hide StepDeregister;
      hide StepDeleteBranch;
      hide StepPrune;
      ghost var ending := Execute(world, id, ClearCheckpointRef(journaled), schedule);
      var capsule := journaled;
      for i := 0 to 2
        invariant ending == Execute(old(world), id, ClearCheckpointRef(journaled), old(schedule))
        invariant i < 2 ==> capsule == journaled
        invariant i == 0 ==> ending == Execute(world, id, ClearCheckpointRef(capsule), schedule)
        invariant i == 1 ==> ending == Execute(world, id, ClearIntegrationRef(capsule), schedule)
        invariant i == 2 ==> ending == Execute(world, id, Write(capsule), schedule)
      {
        ghost var pc, w, q := if i == 0 then ClearCheckpointRef(capsule) else ClearIntegrationRef(capsule), world, schedule;
        var alive := Interleave(id, pc);
        if !alive {
          return None;
        }
        Unfolds(Here(id), pc);
        if i == 0 {
          ChangeGit(id, Here(id).cell.git.(checkpointRef := None));
          Proceeds(w, id, pc, q, world, ClearIntegrationRef(capsule));
        } else {
          ChangeGit(id, Here(id).cell.git.(integrationRef := None));
          capsule := capsule.(state := Dropped);
          capsule := capsule.(journal := None, cleanup := None);
          capsule := capsule.(droppedAt := Some(Here(id).clock));
          Proceeds(w, id, pc, q, world, Write(capsule));
        }
      }
      outcome := FinalWrite(id, capsule);
    }

    // ---- create.rs ----

    /** `create`, once the selector resolved and a new id was drawn. */
    method CreateCapsule(id: string, request: Request<string, Commit>) returns (outcome: Option<Outcome>)
      requires Unused(world, id)
      modifies this
      ensures request.resolved.None? ==> world == old(world) && schedule == old(schedule) && outcome == Some(Failed)
      ensures request.resolved.Some? ==>
                Reached(Execute(old(world), id,
                                Prepare(InitialCapsule(id, request.title, request.links, request.source, request.commonDir,
                                                       request.resolved.value, old(world).clock), false),
                                old(schedule)), outcome)
    {
      if request.resolved.None? {
        return Some(Failed);
      }
      var capsule := InitialCapsule(id, request.title, request.links, request.source, request.commonDir,
                                    request.resolved.value, world.clock);
      outcome := MaterializeNew(id, capsule, false);
    }

    /** `materialize_new_capsule`. */
    method MaterializeNew(id: string, initial: Capsule, reserved: bool) returns (outcome: Option<Outcome>)
      modifies this
      ensures Reached(Execute(old(world), id, Prepare(initial, reserved), old(schedule)), outcome)
    {
      hide CheckpointingStep;
      hide ClosingStep;
      hide IntegratingStep;
      hide DroppingStep;
      hide StepBeginRecover;
      hide Execute;
      hide Step;
      hide ApplyMoves;
      hide Put;
      hide StepMaterialize;
      hide StepCompleteCreating;
      hide StepAddWorktree;
      hide StepCheckOut;
      hide StepActivate;
      var capsule := initial;
      ghost var pc, w, q := Prepare(capsule, reserved), world, schedule;
      var alive := Interleave(id, pc);
      if !alive {
        return None;
      }
      Unfolds(Here(id), pc);
      var store := Here(id).cell.store;
      if store.directory && !(reserved && EmptyStore(store)) {
        Stops(w, id, pc, q, Failed);
        return Some(Failed);
      }
      MakeDirectory(id);
      Proceeds(w, id, pc, q, world, Publish(capsule, reserved));
      pc, w, q := Publish(capsule, reserved), world, schedule;
      alive := Interleave(id, pc);
      if !alive {
        return None;
      }
      Unfolds(Here(id), pc);
      WriteCapsule(id, capsule);
      Proceeds(w, id, pc, q, world, PC.CompleteCreating(capsule, reserved, false));
      outcome := CompleteCreating(id, capsule, reserved, false);
    }

    method MakeDirectory(id: string)
      modifies this`world
      ensures Here(id) == old(Here(id)).(cell := old(Here(id)).cell.(store := old(Here(id)).cell.store.(directory := true)))
      ensures world == Put(old(world), id, Here(id))
    {
      var s := Here(id);
      world := Put(world, id, s.(cell := s.cell.(store := s.cell.store.(directory := true))));
    }

    /** `complete_creating`; a sweep's caller writes the manifest once more. */
    method CompleteCreating(id: string, creating: Capsule, allowOrphan: bool, sweep: bool)
      returns (outcome: Option<Outcome>)
      modifies this
      ensures Reached(Execute(old(world), id, PC.CompleteCreating(creating, allowOrphan, sweep), old(schedule)), outcome)
    {
      hide Abandon;
      hide Owned;
      hide Clean;
      hide Unchecked;
      hide RepositoryGitDir;
      hide Execute;
      hide Step;
      hide ApplyMoves;
      hide Put;
      hide StepMaterialize;
      hide StepPrepare;
      hide StepAddWorktree;
      hide StepCheckOut;
      hide StepActivate;
      hide CheckpointingStep;
      hide ClosingStep;
      hide IntegratingStep;
      hide DroppingStep;
      hide StepBeginRecover;
      var capsule := creating;
      ghost var pc, w, q := PC.CompleteCreating(capsule, allowOrphan, sweep), world, schedule;
      var alive := Interleave(id, pc);
      if !alive {
        return None;
      }
      Unfolds(Here(id), pc);
      var git := Here(id).cell.git;
      var contradictory := !git.source;
      if !contradictory {
        if git.entry != Missing {
          if capsule.gitDir.None? {
            capsule := capsule.(gitDir := RepositoryGitDir(git));
          }
          contradictory := !Owned(git, capsule);
          if !contradictory {
            OwnedHasBranch(git, capsule);
            contradictory := git.branch.value != capsule.identity.base || (!Clean(git) && !Unchecked(git));
          }
        } else {
          contradictory := git.branch.Some? || git.registration.Some?;
        }
      }
      if contradictory {
        outcome := AbandonCreation(id, capsule, allowOrphan, sweep, w, pc, q);
        return;
      }
      if git.entry != Missing {
        ChangeGit(id, git.(tree := capsule.identity.base.tree, index := capsule.identity.base.tree));
        Proceeds(w, id, pc, q, world, Activate(capsule, false, sweep));
        outcome := ActivateCreated(id, capsule, false, sweep);
      } else {
        ChangeGit(id, git.(branch := Some(capsule.identity.base)));
        Proceeds(w, id, pc, q, world, PC.AddWorktree(capsule, sweep));
        outcome := AddWorktree(id, capsule, sweep);
      }
    }

    /** `abandon_creation`, in the same block as what found the contradiction. */
    method AbandonCreation(id: string, creating: Capsule, allowOrphan: bool, sweep: bool,
                           ghost w: World, ghost pc: PC, ghost q: seq<seq<Move>>)
      returns (outcome: Option<Outcome>)
      requires q != [] && !pc.Done? && world == ApplyMoves(w, q[0]) && schedule == q[1..]
      requires Step(Here(id), pc) == Abandon(Here(id), creating, allowOrphan, sweep)
      modifies this
      ensures Reached(Execute(w, id, pc, q), outcome)
    {
      hide Execute;
      hide Step;
      hide ApplyMoves;
      hide Put;
      if !allowOrphan {
        Stops(w, id, pc, q, Failed);
        return Some(Failed);
      }
      var capsule := creating.(state := Orphaned);
      if sweep {
        WriteCapsule(id, capsule);
        Proceeds(w, id, pc, q, world, Write(capsule));
        outcome := FinalWrite(id, capsule);
      } else {
        WriteEnds(w, id, pc, q, world, capsule);
        WriteCapsule(id, capsule);
        outcome := Some(Succeeded(capsule));
      }
    }

    /** `git worktree add` and the checkout, then the ownership check. */
    method AddWorktree(id: string, creating: Capsule, sweep: bool) returns (outcome: Option<Outcome>)
      modifies this
      ensures Reached(Execute(old(world), id, PC.AddWorktree(creating, sweep), old(schedule)), outcome)
    {
      hide CheckpointingStep;
      hide ClosingStep;
      hide IntegratingStep;
      hide DroppingStep;
      hide StepBeginRecover;
      hide Execute;
      hide Step;
      hide ApplyMoves;
      hide Put;
      hide RepositoryGitDir;
      hide StepMaterialize;
      hide StepPrepare;
      hide StepCompleteCreating;
      hide StepActivate;
      ghost var pc, w, q := PC.AddWorktree(creating, sweep), world, schedule;
      var alive := Interleave(id, pc);
      if !alive {
        return None;
      }
      Unfolds(Here(id), pc);
      var git := Here(id).cell.git;
      if git.entry != Missing || git.registration.Some? {
        Stops(w, id, pc, q, Failed);
        return Some(Failed);
      }
      var d := creating.identity.id;
      ChangeGit(id, git.(entry := Linked(d), registration := Some(Registration(d, true)),
                         tree := map[], index := map[], ignored := map[]));
      Proceeds(w, id, pc, q, world, CheckOut(creating, sweep));
      pc, w, q := CheckOut(creating, sweep), world, schedule;
      alive := Interleave(id, pc);
      if !alive {
        return None;
      }
      Unfolds(Here(id), pc);
      git := Here(id).cell.git;
      if !git.entry.Linked? || RepositoryGitDir(git).None? {
        Stops(w, id, pc, q, Failed);
        return Some(Failed);
      }
      LinkedRegistration(git);
      git := git.(tree := creating.identity.base.tree, index := creating.identity.base.tree);
      if git.registration.value.onBranch {
        git := git.(branch := Some(creating.identity.base));
      }
      ChangeGit(id, git);
      Proceeds(w, id, pc, q, world, Activate(creating, true, sweep));
      outcome := ActivateCreated(id, creating, true, sweep);
    }

    /** `activate_created_capsule`; a worktree just created is checked first. */
    method ActivateCreated(id: string, creating: Capsule, created: bool, sweep: bool) returns (outcome: Option<Outcome>)
      modifies this
      ensures Reached(Execute(old(world), id, Activate(creating, created, sweep), old(schedule)), outcome)
    {
      hide Owned;
      hide RepositoryGitDir;
      hide Execute;
      hide Step;
      hide ApplyMoves;
      hide Put;
      hide StepMaterialize;
      hide StepPrepare;
      hide StepCompleteCreating;
      hide StepAddWorktree;
      hide StepCheckOut;
      var capsule := creating;
      ghost var pc, w, q := Activate(creating, created, sweep), world, schedule;
      var alive := Interleave(id, pc);
      if !alive {
        return None;
      }
      Unfolds(Here(id), pc);
      if created {
        capsule := capsule.(gitDir := RepositoryGitDir(Here(id).cell.git));
        if !Owned(Here(id).cell.git, capsule) {
          Stops(w, id, pc, q, Failed);
          return Some(Failed);
        }
      }
      capsule := capsule.(state := Active);
      if sweep {
        WriteCapsule(id, capsule);
        Proceeds(w, id, pc, q, world, Write(capsule));
        outcome := FinalWrite(id, capsule);
      } else {
        WriteEnds(w, id, pc, q, world, capsule);
        WriteCapsule(id, capsule);
        outcome := Some(Succeeded(capsule));
      }
    }

    /** `create_idempotent`: the reservation is published before any other effect. */
    method CreateIdempotent(key: string, request: Request<string, Commit>, freshId: string)
      returns (outcome: Option<Outcome>)
      modifies this
      ensures old(schedule) == [] ==> outcome == None && world == old(world) && schedule == []
      ensures old(schedule) != [] ==>
                var m := StepReserve(ApplyMoves(old(world), old(schedule)[0]), key, request, freshId);
                if m.proc.Running? then Reached(Execute(m.world, m.proc.id, m.proc.pc, old(schedule)[1..]), outcome)
                else outcome == Some(Failed) && world == m.world && schedule == old(schedule)[1..]
      ensures old(schedule) != [] && key in old(world).reservations
              && !SameRequest(request, old(world).reservations[key]) ==>
                outcome == Some(Failed) && world == ApplyMoves(old(world), old(schedule)[0])
    {
      hide Execute;
      hide Step;
      hide ApplyMoves;
      hide SameRequest;
      hide Unused;
      var alive := Interleave(freshId, Done(Failed));
      if !alive {
        return None;
      }
      Safety.MovesKeepReservations(old(world), old(schedule)[0]);
      if key in world.reservations {
        var record := world.reservations[key];
        if !SameRequest(request, record) {
          return Some(Failed);
        }
        outcome := MaterializeRecord(record);
        return;
      }
      if request.resolved.None? || !Unused(world, freshId) {
        return Some(Failed);
      }
      var record := Reservation(freshId, request.source, request.commonDir, request.selector,
                                request.resolved.value, request.title, request.links, world.clock);
      world := world.(reservations := world.reservations[key := record]);
      outcome := MaterializeRecord(record);
    }

    /** `materialize_idempotency_record`. */
    method MaterializeRecord(record: Reservation<string, Commit>) returns (outcome: Option<Outcome>)
      modifies this
      ensures Reached(Execute(old(world), record.id, Materialize(record), old(schedule)), outcome)
    {
      hide Agrees;
      hide Execute;
      hide Step;
      hide ApplyMoves;
      hide Put;
      hide InitialCapsule;
      hide StepPrepare;
      hide StepCompleteCreating;
      hide StepAddWorktree;
      hide StepCheckOut;
      hide StepActivate;
      var id := record.id;
      ghost var pc, w, q := Materialize(record), world, schedule;
      var alive := Interleave(id, pc);
      if !alive {
        return None;
      }
      Unfolds(Here(id), pc);
      var store := Here(id).cell.store;
      if store.manifest.Some? {
        var capsule := store.manifest.value;
        if !Agrees(record, capsule) {
          Stops(w, id, pc, q, Failed);
          return Some(Failed);
        }
        if capsule.state.Creating? {
          PutsBack(world, id);
          Proceeds(w, id, pc, q, world, PC.CompleteCreating(capsule, true, false));
          outcome := CompleteCreating(id, capsule, true, false);
          return;
        }
        Stops(w, id, pc, q, Succeeded(capsule));
        return Some(Succeeded(capsule));
      }
      if !EmptyStore(store) || !Here(id).cell.git.source || |id| < 4 {
        Stops(w, id, pc, q, Failed);
        return Some(Failed);
      }
      var capsule := InitialCapsule(id, record.title, record.links, record.source, record.commonDir,
                                    record.baseCommit, record.reservedAt);
      PutsBack(world, id);
      Proceeds(w, id, pc, q, world, Prepare(capsule, true));
      outcome := MaterializeNew(id, capsule, true);
    }

    // ---- recover.rs: the dispatch ----

    /** `recover`: every listed capsule in turn, up to the first error. */
    method Recover(ids: seq<string>) returns (outcomes: seq<Option<Outcome>>)
      modifies this
      ensures Report(world, schedule, outcomes) == RecoverEach(old(world), ids, old(schedule))
    {
      hide Execute;
      outcomes := [];
      for i := 0 to |ids|
        invariant var more := RecoverEach(world, ids[i..], schedule);
                  RecoverEach(old(world), ids, old(schedule)) == Report(more.world, more.rest, outcomes + more.outcomes)
      {
        assert ids[i..][1..] == ids[i + 1..];
        ghost var before := outcomes;
        var outcome := RecoverCapsule(ids[i]);
        outcomes := outcomes + [outcome];
        if outcome == None || outcome.value.Failed? {
          return;
        }
        assert forall rest :: before + ([outcome] + rest) == outcomes + rest;
      }
    }

    /** `recover_capsule_locked`. */
    method RecoverCapsule(id: string) returns (outcome: Option<Outcome>)
      modifies this
      ensures Reached(Execute(old(world), id, BeginRecover, old(schedule)), outcome)
    {
      hide Execute;
      hide Step;
      hide ApplyMoves;
      hide Put;
      hide Machine.RecoverActive;
      hide Machine.RecoverIntegrating;
      ghost var pc, w, q := BeginRecover, world, schedule;
      var alive := Interleave(id, pc);
      if !alive {
        return None;
      }
      Unfolds(Here(id), pc);
      var stored := Here(id).cell.store.manifest;
      if stored.None? {
        Stops(w, id, pc, q, Failed);
        return Some(Failed);
      }
      var capsule := stored.value;
      var action: Outcome;
      match capsule.state {
        case Creating =>
          PutsBack(world, id);
          Proceeds(w, id, pc, q, world, PC.CompleteCreating(capsule, true, true));
          outcome := CompleteCreating(id, capsule, true, true);
          return;
        case Checkpointing =>
          PutsBack(world, id);
          Proceeds(w, id, pc, q, world, PC.FinishCheckpoint(capsule, true));
          outcome, capsule := FinishCheckpoint(id, capsule, true);
          if outcome.Some? && outcome.value.Succeeded? {
            WriteCapsule(id, capsule);
          }
          return;
        case Active => action, capsule := RecoverActive(id, capsule);
        case Integrating => action, capsule := RecoverIntegrating(id, capsule);
        case Dropping =>
          PutsBack(world, id);
          Proceeds(w, id, pc, q, world, RemoveWorktree(capsule));
          outcome := FinishCleanup(id, capsule);
          return;
        case _ =>
          Stops(w, id, pc, q, NoAction);
          return Some(NoAction);
      }
      if action.Succeeded? {
        Proceeds(w, id, pc, q, world, Write(capsule));
        outcome := FinalWrite(id, capsule);
      } else {
        Proceeds(w, id, pc, q, world, Done(action));
        Ends(world, id, Done(action), schedule);
        outcome := Some(action);
      }
    }

    /** `recover_active`: whether anything was to do, and the manifest to write then. */
    method RecoverActive(id: string, active: Capsule) returns (action: Outcome, capsule: Capsule)
      modifies this`world
      ensures Machine.RecoverActive(old(Here(id)), active)
              == Next(Here(id), if action.Succeeded? then Write(capsule) else Done(action))
      ensures world == Put(old(world), id, Here(id))
    {
      hide Owned;
      hide Put;
      capsule := active;
      var git := Here(id).cell.git;
      PutsBack(world, id);
      if git.entry != Missing && Owned(git, capsule) {
        if git.checkpointRef.Some? {
          ChangeGit(id, git.(checkpointRef := None));
          return Succeeded(capsule), capsule;
        }
        return NoAction, capsule;
      }
      capsule := capsule.(state := Orphaned);
      return Succeeded(capsule), capsule;
    }

    /** `recover_integrating`: likewise; what it fails on it leaves. */
    method RecoverIntegrating(id: string, integrating: Capsule) returns (action: Outcome, capsule: Capsule)
      modifies this`world
      ensures Machine.RecoverIntegrating(old(Here(id)), integrating)
              == Next(Here(id), if action.Succeeded? then Write(capsule) else Done(action))
      ensures world == Put(old(world), id, Here(id))
    {
      hide Put;
      hide TargetRecoverable;
      hide StoredMatch;
      hide IntegrationMatches;
      capsule := integrating;
      PutsBack(world, id);
      if capsule.integration.None? {
        capsule := capsule.(state := Orphaned);
        return Succeeded(capsule), capsule;
      }
      var integration := capsule.integration.value;
      var s := Here(id);
      if !TargetRecoverable(s, capsule, integration) {
        return NoAction, capsule;
      }
      HasTarget(s, capsule, integration);
      var git, head := s.cell.git, s.targets[integration.target].head;
      if integration.after.None? {
        if head != integration.before {
          return NoAction, capsule;
        }
        ChangeGit(id, git.(integrationRef := None));
        capsule := capsule.(state := Closed);
        capsule := capsule.(integration := None);
        return Succeeded(capsule), capsule;
      }
      var proposed, store := integration.after.value, s.cell.store;
      if store.result.None? || store.patch.None? {
        return Failed, capsule;
      }
      if !StoredMatch(store, capsule) {
        return NoAction, capsule;
      }
      var pending := proposed != integration.before;
      if pending && git.integrationRef.Some? && git.integrationRef.value != proposed {
        return Failed, capsule;
      }
      if proposed == head {
        if !IntegrationMatches(integration, store.result.value, store.patch.value, head) {
          return NoAction, capsule;
        }
        capsule := Finalize(id, capsule);
        if pending {
          ChangeGit(id, git.(integrationRef := None));
        }
        return Succeeded(capsule), capsule;
      }
      if head == integration.before {
        if git.integrationRef != Some(proposed) {
          return NoAction, capsule;
        }
        capsule := capsule.(state := Closed);
        capsule := capsule.(integration := None);
        ChangeGit(id, git.(integrationRef := None));
        return Succeeded(capsule), capsule;
      }
      return NoAction, capsule;
    }
  }

  lemma LinkedRegistration(git: GitSide)
    requires git.entry.Linked? && RepositoryGitDir(git).Some?
    ensures git.registration.Some?
  {}

  lemma HasTarget(s: Local, capsule: Capsule, integration: Integration)
    requires TargetRecoverable(s, capsule, integration)
    ensures integration.target in s.targets
  {}

  lemma PutsBack(w: World, id: string)
    ensures Put(w, id, View(w, id)) == w
  {}

  /** A block that ends in one manifest write and success. */
  lemma WriteEnds(w: World, id: string, pc: PC, schedule: seq<seq<Move>>, now: World, capsule: Capsule)
    requires schedule != [] && !pc.Done? && now == ApplyMoves(w, schedule[0])
    requires Step(View(now, id), pc) == Next(Save(View(now, id), capsule), Done(Succeeded(capsule)))
    ensures Execute(w, id, pc, schedule)
            == Ending(Put(now, id, Save(View(now, id), capsule)), Done(Succeeded(capsule)), schedule[1..])
  {
    hide Step;
    hide ApplyMoves;
    hide Execute;
    var after := Put(now, id, Save(View(now, id), capsule));
    Proceeds(w, id, pc, schedule, after, Done(Succeeded(capsule)));
    Ends(after, id, Done(Succeeded(capsule)), schedule[1..]);
  }
}
