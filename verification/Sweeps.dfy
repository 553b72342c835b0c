/** One process left alone: the steps it takes when nothing else happens, and recovery so run. */
module Sweeps {
  import opened Model
  import opened World
  import opened Git
  import opened Machine
  import opened Isolation

  /** The state and counter after `n` steps with nothing in between. */
  function Drive(s: Local, pc: PC, n: nat): Next
    decreases n
  {
    if n == 0 then Next(s, pc)
    else
      var next := Step(s, pc);
      Drive(next.s, next.pc, n - 1)
  }

  lemma {:induction false} DriveStaysDone(s: Local, outcome: Outcome, n: nat)
    ensures Drive(s, Done(outcome), n) == Next(s, Done(outcome))
  {
    hide Step;
    if n == 0 {
    } else {
      DoneStays(s, outcome);
      DriveStaysDone(s, outcome, n - 1);
    }
  }

  lemma DoneStays(s: Local, outcome: Outcome)
    ensures Step(s, Done(outcome)) == Next(s, Done(outcome))
  {}

  function Steps(n: nat): seq<Event> {
    if n == 0 then [] else [Advanced] + Steps(n - 1)
  }

  /** The process holding the locks dies, and one recovery of the capsule then runs `n` steps. */
  function Sweep(id: string, n: nat): seq<Event> {
    [Crash] + ([Start(Recover(id))] + Steps(n))
  }

  lemma RunNext(m: State, e: Event, rest: seq<Event>)
    ensures RunFrom(m, [e] + rest) == RunFrom(Occur(m, e), rest)
  {
    hide Occur;
    assert ([e] + rest)[1..] == rest;
  }

  lemma {:induction false} StepsAreDrive(m: State, n: nat)
    requires m.proc.Running?
    ensures var driven := Drive(View(m.world, m.proc.id), m.proc.pc, n);
            var after := RunFrom(m, Steps(n));
            && View(after.world, m.proc.id) == driven.s
            && after.proc == Running(m.proc.id, m.proc.forKey, driven.pc)
    decreases n
  {
    hide Step;
    if n == 0 {
    } else {
      RunNext(m, Advanced, Steps(n - 1));
      var next := Step(View(m.world, m.proc.id), m.proc.pc);
      var after := Occur(m, Advanced);
      AdvancedView(m, after);
      StepsAreDrive(after, n - 1);
    }
  }

  lemma AdvancedView(m: State, after: State)
    requires m.proc.Running? && after == Occur(m, Advanced)
    ensures var next := Step(View(m.world, m.proc.id), m.proc.pc);
            && after.proc == Running(m.proc.id, m.proc.forKey, next.pc)
            && (View(after.world, m.proc.id) == next.s)
  {
    StepKeepsClock(View(m.world, m.proc.id), m.proc.pc);
    hide Step;
  }

  /** No step sets the clock. */
  lemma StepKeepsClock(s: Local, pc: PC)
    ensures Step(s, pc).s.clock == s.clock
  {
    hide Step;
    var aim := if pc.BeginIntegrate? then pc.target
               else if (pc.PrepareIntegration? || pc.JournalTarget? || pc.Revalidate? || pc.Advance?) && pc.c.integration.Some?
               then pc.c.integration.value.target else "";
    assert aim + "x" != aim;
    StepSpares(s, pc, aim + "x");
  }

  /** What recovery makes of a state is what driving it from its first counter makes of it. */
  lemma SweepIsDrive(m: State, id: string, n: nat)
    ensures var driven := Drive(View(m.world, id), BeginRecover, n);
            var after := RunFrom(m, Sweep(id, n));
            && View(after.world, id) == driven.s
            && after.proc == Running(id, None, driven.pc)
  {
    hide Step;
    RunNext(m, Crash, [Start(Recover(id))] + Steps(n));
    RunNext(Occur(m, Crash), Start(Recover(id)), Steps(n));
    StepsAreDrive(State(m.world, Running(id, None, BeginRecover)), n);
  }
}
