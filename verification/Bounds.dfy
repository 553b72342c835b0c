/** The documented bounds on what one capsule retains hold in every reachable state. */
module Bounds {
  import opened Model
  import opened Git
  import opened World
  import opened Machine
  import opened Invariant
  import opened Runs

  /** At most 64 evidence records with 256 KiB of text, and at most 128 checkpoints, one of which may
      still be in the journal. */
  predicate Bounded(c: Capsule) {
    && |c.evidence| <= EVIDENCE_COUNT_CAP
    && EvidenceBytes(c.evidence) <= EVIDENCE_TOTAL_BYTES_CAP
    && |c.checkpoints| + (if c.state.Checkpointing? then 1 else 0) <= CHECKPOINT_COUNT_CAP
  }

  predicate StoreBounded(store: Store) {
    store.manifest.Some? ==> Bounded(store.manifest.value)
  }

  predicate PcBounded(pc: PC) {
    pc.Write? || pc.WriteResult? || pc.JournalCheckpoint? || pc.DeleteIntegrationRef? || pc.Prepare? || pc.Publish? ==>
      Bounded(pc.c)
  }

  predicate Begins(s: Local, id: string, pc: PC) {
    Ready(s, id, pc) && StoreBounded(s.cell.store) && PcBounded(pc)
  }

  predicate Hands(n: Next) {
    StoreBounded(n.s.cell.store) && PcBounded(n.pc)
  }

  lemma {:induction false} BytesAppend(evidence: seq<Evidence<Digest>>, item: Evidence<Digest>)
    ensures EvidenceBytes(evidence + [item]) == EvidenceBytes(evidence) + |item.command| + SummaryBytes(item.summary)
    decreases |evidence|
  {
    if evidence == [] {
      assert [] + [item] == [item] && [item][1..] == [];
    } else {
      assert (evidence + [item])[0] == evidence[0] && (evidence + [item])[1..] == evidence[1..] + [item];
      BytesAppend(evidence[1..], item);
    }
  }

  lemma EvidenceBounded(s: Local, id: string, input: EvidenceInput)
    requires Begins(s, id, AttachEvidence(input))
    ensures Hands(StepAttachEvidence(s, input))
  {
    hide Owned;
    hide Diff;
    hide EvidenceBytes;
    hide Good;
    if s.cell.store.manifest.Some? {
      var c := s.cell.store.manifest.value;
      BytesAppend(c.evidence, EvidenceOf(input, Diff(c.identity.base.tree, s.cell.git.tree), s.clock));
    }
  }

  lemma CreationBounded(s: Local, id: string, pc: PC)
    requires CreationPc(pc) && Begins(s, id, pc)
    ensures Hands(CreationStep(s, pc))
  {
    hide Owned;
    hide Clean;
    hide Unchecked;
    hide RepositoryGitDir;
    hide Agrees;
    hide EvidenceBytes;
    hide Good;
    hide EmptyStore;
    EmptyEvidence();
  }

  lemma CheckpointingBounded(s: Local, id: string, pc: PC)
    requires CheckpointingPc(pc) && Begins(s, id, pc)
    ensures Hands(CheckpointingStep(s, pc))
  {
    hide Owned;
    hide Diff;
    hide CommitPatch;
    hide StoredMatch;
    hide Reproduces;
    hide ValidId;
    hide EvidenceBytes;
  }

  lemma ClosingBounded(s: Local, id: string, pc: PC)
    requires ClosingPc(pc) && !pc.AttachEvidence? && Begins(s, id, pc)
    ensures Hands(ClosingStep(s, pc))
  {
    hide Owned;
    hide Diff;
    hide Satisfies;
    hide StoredMatch;
    hide ArtifactsMatch;
    hide Reproduces;
    hide ValidId;
    hide SealedResult;
    hide EvidenceBytes;
    hide StepAttachEvidence;
  }

  lemma IntegratingBounded(s: Local, id: string, pc: PC)
    requires IntegratingPc(pc) && !pc.PrepareIntegration? && Begins(s, id, pc)
    ensures Hands(IntegratingStep(s, pc))
  {
    hide EnsureSealed;
    hide FastForward;
    hide StepPrepareIntegration;
    hide StoredMatch;
    hide Reproduces;
    hide ValidId;
    hide EvidenceBytes;
  }

  lemma PreparingBounded(s: Local, id: string, c: Capsule)
    requires Begins(s, id, PrepareIntegration(c))
    ensures Hands(StepPrepareIntegration(s, c))
  {
    hide IntegrationCommit;
    hide Diff;
    hide ChangedPaths;
    hide StoredMatch;
    hide Reproduces;
    hide ValidId;
    hide EvidenceBytes;
  }

  lemma DroppingBounded(s: Local, id: string, pc: PC)
    requires DroppingPc(pc) && Begins(s, id, pc)
    ensures Hands(DroppingStep(s, pc))
  {
    hide Owned;
    hide EnsureSealed;
    hide RegistrationMatches;
    hide RecordedHead;
    hide StoredMatch;
    hide Reproduces;
    hide ValidId;
    hide EvidenceBytes;
  }

  lemma RecoveryBounded(s: Local, id: string)
    requires Begins(s, id, BeginRecover)
    ensures Hands(StepBeginRecover(s))
  {
    hide Owned;
    hide IntegrationMatches;
    hide TargetRecoverable;
    hide StoredMatch;
    hide Reproduces;
    hide ValidId;
    hide EvidenceBytes;
  }

  lemma StepBounded(s: Local, id: string, pc: PC)
    requires Begins(s, id, pc)
    ensures Hands(Step(s, pc))
  {
    hide CreationStep;
    hide CheckpointingStep;
    hide StepAttachEvidence;
    hide StepObserveClose;
    hide StepConfirmClose;
    hide StepWriteResult;
    hide DroppingStep;
    hide StepBeginRecover;
    hide StepPrepareIntegration;
    hide StepBeginIntegrate;
    hide StepRevalidate;
    hide StepAdvance;
    hide StepJournalTarget;
    hide StepDeleteIntegrationRef;
    hide Ready;
    hide EvidenceBytes;
    if CreationPc(pc) {
      CreationBounded(s, id, pc);
    } else if CheckpointingPc(pc) {
      CheckpointingBounded(s, id, pc);
    } else if pc.AttachEvidence? {
      EvidenceBounded(s, id, pc.input);
    } else if ClosingPc(pc) {
      ClosingBounded(s, id, pc);
    } else if DroppingPc(pc) {
      DroppingBounded(s, id, pc);
    } else if pc.PrepareIntegration? {
      PreparingBounded(s, id, pc.c);
    } else if IntegratingPc(pc) {
      IntegratingBounded(s, id, pc);
    } else if pc.BeginRecover? {
      RecoveryBounded(s, id);
    }
  }

  // ---- runs ----

  predicate AllBounded(m: State) {
    && (forall id | id in m.world.cells :: StoreBounded(m.world.cells[id].store))
    && (m.proc.Running? ==> PcBounded(m.proc.pc))
  }

  lemma CellBounded(m: State, id: string)
    requires AllBounded(m)
    ensures StoreBounded(CellOf(m.world, id).store)
  {}

  lemma RunningBounded(m: State)
    requires Kept(m) && AllBounded(m) && m.proc.Running?
    ensures AllBounded(StepProc(m))
  {
    hide Step;
    hide StoreBounded;
    hide PcBounded;
    hide PcKept;
    hide StoreKept;
    hide CreationAgrees;
    hide KeyServed;
    hide ReservationsKept;
    var id := m.proc.id;
    CellKept(m.world, id);
    CellBounded(m, id);
    StepBounded(View(m.world, id), id, m.proc.pc);
  }

  lemma OthersBounded(m: State, e: Event)
    requires AllBounded(m) && !(e.Advanced? && m.proc.Running?)
    ensures AllBounded(Occur(m, e))
  {
    hide Step;
    hide StoreBounded;
    hide Unused;
    hide SameRequest;
    hide EvidenceBytes;
    EmptyEvidence();
    forall id
      ensures StoreBounded(CellOf(m.world, id).store)
    {
      CellBounded(m, id);
    }
  }

  lemma EmptyEvidence()
    ensures EvidenceBytes([]) == 0
  {}

  lemma {:induction false} RunBounded(m: State, events: seq<Event>)
    requires Kept(m) && AllBounded(m)
    ensures AllBounded(RunFrom(m, events))
    decreases |events|
  {
    hide Kept;
    hide AllBounded;
    hide Evolves;
    hide StepProc;
    if events == [] {
    } else {
      OccurKeeps(m, events[0]);
      if events[0].Advanced? && m.proc.Running? {
        RunningBounded(m);
      } else {
        OthersBounded(m, events[0]);
      }
      RunBounded(Occur(m, events[0]), events[1..]);
    }
  }

  /** No run, however its checkpoints and evidence calls are interrupted and repeated, leaves a
      capsule past its bounds. */
  lemma CapsulesStayBounded(events: seq<Event>, id: string)
    ensures var manifest := ManifestIn(RunFrom(INITIAL, events), id);
            manifest.Some? ==> Bounded(manifest.value)
  {
    hide RunFrom;
    hide Kept;
    hide Bounded;
    InitialKept();
    RunBounded(INITIAL, events);
    CellBounded(RunFrom(INITIAL, events), id);
  }
}
