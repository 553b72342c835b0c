/** What an undisturbed close seals, and what a recorded piece of evidence is bound to. */
module Closing {
  import opened Model
  import opened Git
  import opened World
  import opened Machine
  import opened Sweeps
  import opened Reconciliation

  /** What the capsule's workspace shows against its base. */
  function Workspace(s: Local, c: Capsule): Observation
    requires s.cell.git.branch.Some?
  {
    Observe(s.cell.git, c.identity.base)
  }

  lemma CloseSteps(s: Local, c: Capsule, required: Requirements)
    requires s.cell.store.manifest == Some(c) && c.state.Active? && Owned(s.cell.git, c)
    ensures s.cell.git.branch.Some?
    ensures Step(s, ObserveClose(required)) == Next(s, ConfirmClose(c, required, Workspace(s, c)))
    ensures var o := Workspace(s, c);
            Step(s, ConfirmClose(c, required, o))
            == if Satisfies(required, c.evidence, OfPatch(o.patch)) then WritePatch(s, c, o) else Fail(s)
  {
    hide Diff;
    hide Clean;
    hide Satisfies;
    hide WritePatch;
    hide StepAttachEvidence;
    OwnedHasBranch(s.cell.git, c);
  }

  /** The store after the three writes of a close. */
  function Closed(s: Local, c: Capsule): Store
    requires s.cell.git.branch.Some?
  {
    var o := Workspace(s, c);
    var r := SealedResult(c, o, s.clock);
    s.cell.store.(patch := Some(o.patch), result := Some(r), manifest := Some(Machine.Closing(c, r, s.clock)))
  }

  lemma CloseWrites(s: Local, c: Capsule, required: Requirements, n: nat)
    requires s.cell.store.manifest == Some(c) && c.state.Active? && Owned(s.cell.git, c) && n >= 4
    ensures s.cell.git.branch.Some?
    ensures var end := Drive(s, ObserveClose(required), n);
            if Satisfies(required, c.evidence, OfPatch(Workspace(s, c).patch))
            then end.s == s.(cell := s.cell.(store := Closed(s, c))) && end.pc.Done? && end.pc.outcome.Succeeded?
            else end == Next(s, Done(Failed))
  {
    hide Step;
    hide Satisfies;
    hide Owned;
    hide Observe;
    hide SealedResult;
    hide Machine.Closing;
    hide StepObserveClose;
    hide StepConfirmClose;
    CloseSteps(s, c, required);
    var o := Workspace(s, c);
    if Satisfies(required, c.evidence, OfPatch(o.patch)) {
      var s1 := WritePatch(s, c, o).s;
      var r := SealedResult(c, o, s.clock);
      var d := Machine.Closing(c, r, s.clock);
      var s2 := s1.(cell := s1.cell.(store := s1.cell.store.(result := Some(r))));
      Unfolds(s1, WriteResult(d, r));
      Unfolds(s2, Write(d));
      DriveStaysDone(Save(s2, d), Succeeded(d), n - 4);
      calc {
        Drive(s, ObserveClose(required), n);
        Drive(s, ConfirmClose(c, required, o), n - 1);
        Drive(s1, WriteResult(d, r), n - 2);
        Drive(s2, Write(d), n - 3);
        Drive(Save(s2, d), Done(Succeeded(d)), n - 4);
      }
    } else {
      DriveStaysDone(s, Failed, n - 2);
    }
  }

  /** An undisturbed close either finds the evidence wanting and changes nothing, or seals exactly
      the workspace: applying the sealed patch to the base gives its tree, the kind says whether
      there is a change and whether it is all committed, and HEAD, checkpoints, evidence and the
      ignored content are those of that moment. The workspace itself is not touched. */
  lemma CloseSealsTheWorkspace(s: Local, c: Capsule, required: Requirements, n: nat)
    requires s.cell.store.manifest == Some(c) && c.state.Active? && Owned(s.cell.git, c) && n >= 4
    ensures var end := Drive(s, ObserveClose(required), n);
            var g, store, base := s.cell.git, end.s.cell.store, c.identity.base;
            && end.s.cell.git == g
            && g.branch.Some?
            && if Satisfies(required, c.evidence, OfPatch(Diff(base.tree, g.tree))) then
                 && store.patch.Some? && store.result.Some? && store.manifest.Some?
                 && Apply(base.tree, store.patch.value) == Some(g.tree)
                 && (var r := store.result.value;
                     && (r.kind.NoChange? <==> g.tree == base.tree)
                     && (r.kind.Committed? <==> g.tree != base.tree && g.tree == g.index == g.branch.value.tree)
                     && r.headCommit == g.branch.value
                     && r.checkpoints == c.checkpoints && r.evidence == c.evidence
                     && r.ignoredContentSha256 == Some(OfInventory(g.ignored)))
                 && store.manifest.value.state.Closed?
                 && store.manifest.value.identity == c.identity
               else store == s.cell.store && end.pc == Done(Failed)
  {
    hide Drive;
    hide Satisfies;
    hide Owned;
    hide Diff;
    hide Apply;
    hide ContentBytes;
    hide ChangedPaths;
    CloseWrites(s, c, required, n);
    ApplyDiff(c.identity.base.tree, s.cell.git.tree);
    EmptyDiff(c.identity.base.tree, s.cell.git.tree);
  }
}
