/** What a process serving one capsule leaves alone: the cells of all others, and every target it
    was not asked to integrate into. */
module Isolation {
  import opened Model
  import opened Git
  import opened World
  import opened Machine

  /** The process is integrating into target `t`. */
  predicate Aims(p: Proc, t: string) {
    p.Running? && PcAims(p.pc, t)
  }

  predicate PcAims(pc: PC, t: string) {
    || (pc.BeginIntegrate? && pc.target == t)
    || ((pc.PrepareIntegration? || pc.JournalTarget? || pc.Revalidate? || pc.Advance?)
        && pc.c.integration.Some? && pc.c.integration.value.target == t)
  }

  predicate Serves(p: Proc, id: string) {
    p.Running? && p.id == id
  }

  /** An operation that is not one of capsule `id`'s own; retried creation and recovery are allowed. */
  predicate LeavesAlone(op: Op, id: string) {
    match op
    case Create(_, _) => true
    case CreateKeyed(_, _, _) => true
    case Recover(_) => true
    case _ => op.id != id
  }

  /** An operation that refuses any capsule that is not active. */
  predicate AsksForActive(op: Op) {
    op.TakeCheckpoint? || op.AddEvidence? || op.Close?
  }

  predicate AsksForActivePc(pc: PC) {
    pc.BeginCheckpoint? || pc.AttachEvidence? || pc.ObserveClose?
  }

  lemma RefusesInactive(s: Local, pc: PC)
    requires AsksForActivePc(pc) && s.cell.store.manifest.Some? && !s.cell.store.manifest.value.state.Active?
    ensures Step(s, pc) == Fail(s)
  {
    hide Owned;
    hide Diff;
    hide EvidenceBytes;
  }

  predicate Spares(s: Local, n: Next, t: string) {
    && (t in n.s.targets <==> t in s.targets)
    && (t in s.targets ==> n.s.targets[t] == s.targets[t])
    && n.s.clock == s.clock
    && !PcAims(n.pc, t)
  }

  lemma CreationSpares(s: Local, pc: PC, t: string)
    requires CreationPc(pc)
    ensures Spares(s, CreationStep(s, pc), t)
  {
    hide Owned;
    hide Clean;
    hide Agrees;
  }

  lemma CheckpointingSpares(s: Local, pc: PC, t: string)
    requires CheckpointingPc(pc)
    ensures Spares(s, CheckpointingStep(s, pc), t)
  {
    hide Owned;
    hide Diff;
    hide CommitPatch;
  }

  lemma ClosingSpares(s: Local, pc: PC, t: string)
    requires ClosingPc(pc)
    ensures Spares(s, ClosingStep(s, pc), t)
  {
    hide Owned;
    hide Diff;
    hide Satisfies;
    hide SealedResult;
  }

  lemma DroppingSpares(s: Local, pc: PC, t: string)
    requires DroppingPc(pc)
    ensures Spares(s, DroppingStep(s, pc), t)
  {
    hide Owned;
    hide EnsureSealed;
    hide RegistrationMatches;
    hide RecordedHead;
  }

  lemma BeginIntegrateSpares(s: Local, target: string, subject: Option<string>, author: Author, t: string)
    requires target != t
    ensures Spares(s, StepBeginIntegrate(s, target, subject, author), t)
  {
    hide EnsureSealed;
  }

  lemma PrepareIntegrationSpares(s: Local, c: Capsule, t: string)
    requires !PcAims(PrepareIntegration(c), t)
    ensures Spares(s, StepPrepareIntegration(s, c), t)
  {
    if c.integration.Some? {
      forall proposed
        ensures Spares(s, Protect(s, c, proposed), t)
      {
      }
    }
    hide Protect;
    hide IntegrationCommit;
    hide Diff;
    hide ChangedPaths;
  }

  lemma AdvanceSpares(s: Local, pc: PC, t: string)
    requires pc.JournalTarget? || pc.Revalidate? || pc.Advance? || pc.DeleteIntegrationRef?
    requires !PcAims(pc, t)
    ensures Spares(s, IntegratingStep(s, pc), t)
  {
    hide StepBeginIntegrate;
    hide StepPrepareIntegration;
    hide FastForward;
  }

  lemma IntegratingSpares(s: Local, pc: PC, t: string)
    requires IntegratingPc(pc) && !PcAims(pc, t)
    ensures Spares(s, IntegratingStep(s, pc), t)
  {
    hide Spares;
    if pc.BeginIntegrate? {
      BeginIntegrateSpares(s, pc.target, pc.subject, pc.author, t);
    } else if pc.PrepareIntegration? {
      PrepareIntegrationSpares(s, pc.c, t);
    } else {
      AdvanceSpares(s, pc, t);
    }
  }

  lemma RecoverySpares(s: Local, t: string)
    ensures Spares(s, StepBeginRecover(s), t)
  {
    hide Owned;
    hide StoredMatch;
    hide IntegrationMatches;
    hide TargetRecoverable;
  }

  /** Only an integration into `t` moves its HEAD; recovery never does. */
  lemma StepSpares(s: Local, pc: PC, t: string)
    requires !PcAims(pc, t)
    ensures Spares(s, Step(s, pc), t)
  {
    hide CreationStep;
    hide CheckpointingStep;
    hide ClosingStep;
    hide IntegratingStep;
    hide DroppingStep;
    hide StepBeginRecover;
    if CreationPc(pc) {
      CreationSpares(s, pc, t);
    } else if CheckpointingPc(pc) {
      CheckpointingSpares(s, pc, t);
    } else if ClosingPc(pc) {
      ClosingSpares(s, pc, t);
    } else if IntegratingPc(pc) {
      IntegratingSpares(s, pc, t);
    } else if DroppingPc(pc) {
      DroppingSpares(s, pc, t);
    } else if pc.BeginRecover? {
      RecoverySpares(s, t);
    }
  }

  /** A step taken for another capsule, seen from capsule `id` and target `t`. */
  lemma OthersStepAside(m: State, id: string, t: string)
    requires !Serves(m.proc, id) && !Aims(m.proc, t)
    ensures var n := StepProc(m);
            && CellOf(n.world, id) == CellOf(m.world, id)
            && (t in n.world.targets <==> t in m.world.targets)
            && (t in m.world.targets ==> n.world.targets[t] == m.world.targets[t])
            && n.world.clock == m.world.clock
            && !Aims(n.proc, t)
            && (Serves(n.proc, id) ==> n.proc.pc.Materialize?)
  {
    hide Step;
    if m.proc.Running? {
      StepSpares(View(m.world, m.proc.id), m.proc.pc, t);
    }
  }
}
