/** Recovery of every capsule of a state root, twice. */
module WholeSweep {
  import opened Model
  import opened Git
  import opened World
  import opened Machine
  import opened Isolation
  import opened Sweeps
  import opened Reconciliation
  import opened Execution

  /** Time for `k` steps in which nobody else moves. */
  function Calm(k: nat): seq<seq<Move>> {
    seq(k, _ => [])
  }

  function After(w: World, id: string): Next {
    Drive(View(w, id), BeginRecover, 8)
  }

  ghost predicate AimsNowhere(pc: PC) {
    forall t :: !PcAims(pc, t)
  }

  /** Two worlds that differ in nothing any operation can see, but perhaps in one capsule. */
  ghost predicate SameBut(a: World, b: World, id: string) {
    && (forall other | other != id :: CellOf(b, other) == CellOf(a, other))
    && b.targets == a.targets
    && b.reservations == a.reservations
    && b.clock == a.clock
  }

  lemma StepAimsNowhere(s: Local, pc: PC)
    requires AimsNowhere(pc)
    ensures AimsNowhere(Step(s, pc).pc) && Step(s, pc).s.targets == s.targets && Step(s, pc).s.clock == s.clock
  {
    hide Step;
    hide PcAims;
    var n := Step(s, pc);
    forall t
      ensures !PcAims(n.pc, t)
      ensures t in n.s.targets <==> t in s.targets
      ensures t in s.targets ==> n.s.targets[t] == s.targets[t]
      ensures n.s.clock == s.clock
    {
      StepSpares(s, pc, t);
    }
    StepKeepsClock(s, pc);
    assert n.s.targets.Keys == s.targets.Keys;
  }

  /** With nobody else about, an execution that never integrates is the drive of its counter. */
  lemma {:induction false} CalmExecution(w: World, id: string, pc: PC, k: nat)
    requires AimsNowhere(pc) && k >= Rank(pc)
    ensures var one, drive := Execute(w, id, pc, Calm(k)), Drive(View(w, id), pc, Rank(pc));
            && one.pc == drive.pc
            && View(one.world, id) == drive.s
            && SameBut(w, one.world, id)
            && drive.s.targets == w.targets
            && exists left :: left >= k - Rank(pc) && one.rest == Calm(left)
    decreases k
  {
    hide Step;
    hide AimsNowhere;
    hide PcAims;
    hide Rank;
    hide Put;
    RankOfDone(pc);
    if pc.Done? {
      Ends(w, id, pc, Calm(k));
      DriveStaysDone(View(w, id), pc.outcome, Rank(pc));
      assert Calm(k) == Calm(k) && k >= k - Rank(pc);
    } else {
      var s := View(w, id);
      var n := Step(s, pc);
      StepRank(s, pc);
      StepAimsNowhere(s, pc);
      assert Calm(k)[0] == [] && Calm(k)[1..] == Calm(k - 1);
      var next := Put(w, id, n.s);
      ViewPut(w, id, n.s);
      PutElsewhere(w, id, n.s);
      CalmExecution(next, id, n.pc, k - 1);
      OperationsFinish(n.s, n.pc, Rank(n.pc));
      var end := Drive(n.s, n.pc, Rank(n.pc));
      DriveMore(n.s, n.pc, Rank(n.pc), Rank(pc) - 1);
      DriveStaysDone(end.s, end.pc.outcome, Rank(pc) - 1 - Rank(n.pc));
    }
  }

  lemma RankOfDone(pc: PC)
    ensures pc.Done? <==> Rank(pc) == 0
  {}

  lemma PutElsewhere(w: World, id: string, s: Local)
    requires s.clock == w.clock && s.targets == w.targets
    ensures SameBut(w, Put(w, id, s), id)
  {}

  lemma BeginAimsNowhere()
    ensures AimsNowhere(BeginRecover) && Rank(BeginRecover) == 8
  {}

  predicate Distinct(ids: seq<string>) {
    forall i, j | 0 <= i < j < |ids| :: ids[i] != ids[j]
  }

  /** None of the capsules fails to recover. */
  predicate NoneFails(w: World, ids: seq<string>) {
    forall i | 0 <= i < |ids| :: Recovers(w, ids[i])
  }

  predicate Recovers(w: World, id: string) {
    After(w, id).pc.Done? && !After(w, id).pc.outcome.Failed?
  }

  /** A sweep recovers each capsule as if it were alone. */
  lemma {:induction false} SweepIsPointwise(w: World, ids: seq<string>, k: nat)
    requires Distinct(ids) && NoneFails(w, ids) && k >= 8 * |ids|
    ensures var r := RecoverEach(w, ids, Calm(k));
            && |r.outcomes| == |ids|
            && (forall i | 0 <= i < |ids| ::
                  Recovers(w, ids[i]) && r.outcomes[i] == Some(After(w, ids[i]).pc.outcome)
                  && View(r.world, ids[i]) == After(w, ids[i]).s)
            && (forall id | id !in ids :: View(r.world, id) == View(w, id))
            && r.world.targets == w.targets
            && r.world.reservations == w.reservations
            && r.world.clock == w.clock
    decreases |ids|
  {
    hide Drive;
    hide Execute;
    hide AimsNowhere;
    if ids == [] {
    } else {
      var id := ids[0];
      assert Recovers(w, id);
      BeginAimsNowhere();
      CalmExecution(w, id, BeginRecover, k);
      var one := Execute(w, id, BeginRecover, Calm(k));
      var left: nat :| left >= k - 8 && one.rest == Calm(left);
      var rest := ids[1..];
      forall i | 0 <= i < |rest|
        ensures rest[i] != id && View(one.world, rest[i]) == View(w, rest[i]) && Recovers(w, rest[i])
            && Recovers(one.world, rest[i])
      {
        assert rest[i] == ids[i + 1];
      }
      SweepIsPointwise(one.world, rest, left);
      var r := RecoverEach(w, ids, Calm(k));
      var more := RecoverEach(one.world, rest, Calm(left));
      forall i | 0 <= i < |ids|
        ensures Recovers(w, ids[i]) && r.outcomes[i] == Some(After(w, ids[i]).pc.outcome)
        ensures View(r.world, ids[i]) == After(w, ids[i]).s
      {
        if i > 0 {
          assert ids[i] == rest[i - 1] && r.outcomes[i] == more.outcomes[i - 1];
        } else {
          assert id !in rest;
        }
      }
      forall other | other !in ids
        ensures View(r.world, other) == View(w, other)
      {
        assert other != id && other !in rest;
      }
    }
  }

  predicate AllQuiet(outcomes: seq<Option<Outcome>>) {
    forall i | 0 <= i < |outcomes| :: outcomes[i] == Some(NoAction)
  }

  /** A second sweep right after one that succeeded for every capsule reports no action anywhere,
      exactly when the first left no checkpoint ref behind; and then it changes nothing. */
  lemma SecondSweepIsQuiet(w: World, ids: seq<string>, k: nat, l: nat)
    requires Distinct(ids) && NoneFails(w, ids) && k >= 8 * |ids| && l >= 8 * |ids|
    ensures var first := RecoverEach(w, ids, Calm(k));
            var second := RecoverEach(first.world, ids, Calm(l));
            && |second.outcomes| == |ids|
            && (AllQuiet(second.outcomes) <==> forall i | 0 <= i < |ids| :: !LeavesRef(View(w, ids[i])))
            && (AllQuiet(second.outcomes) ==> forall id :: View(second.world, id) == View(first.world, id))
  {
    hide RecoverEach;
    hide Drive;
    hide LeavesRef;
    SweepIsPointwise(w, ids, k);
    var first := RecoverEach(w, ids, Calm(k));
    forall i | 0 <= i < |ids|
      ensures Recovers(first.world, ids[i])
      ensures (After(first.world, ids[i]).pc == Done(NoAction)) == !LeavesRef(View(w, ids[i]))
      ensures !LeavesRef(View(w, ids[i])) ==> After(first.world, ids[i]).s == View(first.world, ids[i])
    {
      SecondRecoveryIsQuiet(View(w, ids[i]), 8, 8);
      QuietOrNot(View(first.world, ids[i]));
    }
    SweepIsPointwise(first.world, ids, l);
    var second := RecoverEach(first.world, ids, Calm(l));
    if AllQuiet(second.outcomes) {
      forall i | 0 <= i < |ids|
        ensures !LeavesRef(View(w, ids[i])) && View(second.world, ids[i]) == View(first.world, ids[i])
      {
        assert second.outcomes[i] == Some(NoAction);
      }
      forall id
        ensures View(second.world, id) == View(first.world, id)
      {
        if id in ids {
          var i :| 0 <= i < |ids| && ids[i] == id;
        }
      }
    }
  }

  /** A recovery reports no action only when it took none. */
  lemma QuietOrNot(s: Local)
    requires Drive(s, BeginRecover, 8).pc.Done?
    ensures Drive(s, BeginRecover, 8).pc == Done(NoAction) ==> Quiet(s, 8)
  {
    hide Step;
    hide LeavesRef;
    DriveTracks(s, s, BeginRecover, 8);
  }
}
