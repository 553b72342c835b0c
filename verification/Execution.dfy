/** One operation from its first counter until it finishes or its process dies, with the moves of
    others coming in between its durable steps: what a method of the manager is to do. */
module Execution {
  import opened Model
  import opened Git
  import opened World
  import opened Machine

  /** Where an execution got to; it died if the counter is not done. */
  datatype Ending = Ending(world: World, pc: PC, rest: seq<seq<Move>>)

  function ApplyMoves(w: World, moves: seq<Move>): World
    decreases |moves|
  {
    if moves == [] then w else ApplyMoves(ApplyMove(w, moves[0]), moves[1..])
  }

  /** The process takes one step for every batch of moves on the schedule, and dies at its end. */
  function Execute(w: World, id: string, pc: PC, schedule: seq<seq<Move>>): Ending
    decreases |schedule|
  {
    if pc.Done? || schedule == [] then Ending(w, pc, schedule)
    else
      var around := ApplyMoves(w, schedule[0]);
      var n := Step(View(around, id), pc);
      Execute(Put(around, id, n.s), id, n.pc, schedule[1..])
  }

  /** One step of an execution, from `around` to `after`. */
  lemma Proceeds(w: World, id: string, pc: PC, schedule: seq<seq<Move>>, after: World, next: PC)
    requires schedule != [] && !pc.Done?
    requires var around := ApplyMoves(w, schedule[0]);
             Step(View(around, id), pc) == Next(View(after, id), next) && after == Put(around, id, View(after, id))
    ensures Execute(w, id, pc, schedule) == Execute(after, id, next, schedule[1..])
  {
    hide Step;
    hide ApplyMoves;
    hide View;
    hide Put;
  }

  /** A block that ends the operation where it stands. */
  lemma Stops(w: World, id: string, pc: PC, schedule: seq<seq<Move>>, outcome: Outcome)
    requires schedule != [] && !pc.Done?
    requires var s := View(ApplyMoves(w, schedule[0]), id); Step(s, pc) == Next(s, Done(outcome))
    ensures Execute(w, id, pc, schedule) == Ending(ApplyMoves(w, schedule[0]), Done(outcome), schedule[1..])
  {
    hide Step;
    hide ApplyMoves;
    Proceeds(w, id, pc, schedule, ApplyMoves(w, schedule[0]), Done(outcome));
    Ends(ApplyMoves(w, schedule[0]), id, Done(outcome), schedule[1..]);
  }

  /** An execution is over once it is done, or has no time left. */
  lemma Ends(w: World, id: string, pc: PC, schedule: seq<seq<Move>>)
    requires pc.Done? || schedule == []
    ensures Execute(w, id, pc, schedule) == Ending(w, pc, schedule)
  {
    hide Step;
  }

  /** What a sweep over several capsules reports: the outcome of each it got to. */
  datatype Report = Report(world: World, rest: seq<seq<Move>>, outcomes: seq<Option<Outcome>>)

  /** `recover`: each listed capsule in turn; an error, or the death of the process, ends it. */
  function RecoverEach(w: World, ids: seq<string>, schedule: seq<seq<Move>>): Report
    decreases |ids|
  {
    if ids == [] then Report(w, schedule, [])
    else
      var one := Execute(w, ids[0], BeginRecover, schedule);
      if !one.pc.Done? then Report(one.world, one.rest, [None])
      else if one.pc.outcome.Failed? then Report(one.world, one.rest, [Some(Failed)])
      else
        var more := RecoverEach(one.world, ids[1..], one.rest);
        Report(more.world, more.rest, [Some(one.pc.outcome)] + more.outcomes)
  }

  function Externals(moves: seq<Move>): seq<Event>
    decreases |moves|
  {
    if moves == [] then [] else [External(moves[0])] + Externals(moves[1..])
  }

  /** The events of the run an execution is. */
  function EventsOf(w: World, id: string, pc: PC, schedule: seq<seq<Move>>): seq<Event>
    decreases |schedule|
  {
    if pc.Done? || schedule == [] then []
    else
      var around := ApplyMoves(w, schedule[0]);
      var n := Step(View(around, id), pc);
      Externals(schedule[0]) + ([Advanced] + EventsOf(Put(around, id, n.s), id, n.pc, schedule[1..]))
  }

  lemma {:induction false} ExternalsApply(m: State, moves: seq<Move>)
    ensures RunFrom(m, Externals(moves)) == State(ApplyMoves(m.world, moves), m.proc)
    decreases |moves|
  {
    hide StepProc;
    hide ApplyMove;
    if moves == [] {
    } else {
      var e := External(moves[0]);
      assert ([e] + Externals(moves[1..]))[1..] == Externals(moves[1..]);
      ExternalsApply(Occur(m, e), moves[1..]);
    }
  }

  /** Every execution is a run of the machine, so what holds of all runs holds of it. */
  lemma {:induction false} ExecutionIsRun(w: World, id: string, key: Option<string>, pc: PC, schedule: seq<seq<Move>>)
    ensures var run := Execute(w, id, pc, schedule);
            RunFrom(State(w, Running(id, key, pc)), EventsOf(w, id, pc, schedule))
            == State(run.world, Running(id, key, run.pc))
    decreases |schedule|
  {
    hide Step;
    hide ApplyMoves;
    hide Externals;
    if pc.Done? || schedule == [] {
    } else {
      var m := State(w, Running(id, key, pc));
      var around := ApplyMoves(w, schedule[0]);
      var n := Step(View(around, id), pc);
      var more := EventsOf(Put(around, id, n.s), id, n.pc, schedule[1..]);
      ExternalsApply(m, schedule[0]);
      RunConcat(m, Externals(schedule[0]), [Advanced] + more);
      assert ([Advanced] + more)[1..] == more;
      ExecutionIsRun(Put(around, id, n.s), id, key, n.pc, schedule[1..]);
    }
  }

  lemma ViewPut(w: World, id: string, s: Local)
    requires s.clock == w.clock
    ensures View(Put(w, id, s), id) == s
    ensures Put(w, id, View(w, id)) == w
  {}
}
