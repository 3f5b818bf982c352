/** balanceThreads: how many pool threads can ever be started. */
module SchedulerThreads {
  import opened Machine
  import opened TaskScheduler
  import opened SchedulerTurns
  import opened SchedulerPlaces

  function Balancing(): Agent -> int {
    (agent: Agent) => One(agent.pc.BalanceCount? || agent.pc.BalanceSize? || agent.pc.AddThread?)
  }

  /** Passed the size test, has not started its thread yet. */
  function Committed(): Agent -> int {
    (agent: Agent) => One(agent.pc.AddThread?)
  }

  /** A run in which at most `callers` threads are inside balanceThreads at any time. */
  ghost predicate RunsWithin(s: State, steps: seq<Step>, s': State, callers: nat)
    decreases |steps|
  {
    && Sum(s.agents, Balancing()) <= callers
    && if steps == [] then s == s'
       else Enabled(s, steps[0]) && RunsWithin(Do(s, steps[0]), steps[1..], s', callers)
  }

  ghost predicate PoolBound(s: State, callers: nat) {
    s.maxThreads >= 1 && s.poolSize + Sum(s.agents, Committed()) <= s.maxThreads - 1 + callers
  }

  lemma RunTaskPool(s: State, a: nat, choice: Choice)
    requires CanAdvance(s, a) && UsesSlot(s.agents[a].pc)
    ensures !RunTask(s, a, choice).pc.AddThread?
  {
  }

  lemma MoveTaskPool(s: State, a: nat, choice: Choice)
    requires CanAdvance(s, a) && !UsesSlot(s.agents[a].pc)
    ensures var turn := MoveTask(s, a, choice); var pc := s.agents[a].pc;
            && turn.after.maxThreads == s.maxThreads
            && turn.after.poolSize == s.poolSize + One(pc.AddThread?)
            && turn.pc.AddThread? == (pc.BalanceSize? && s.poolSize < s.maxThreads)
  {
    MovePool(s, a, choice);
  }

  lemma StepKeepsPoolBound(s: State, step: Step, callers: nat)
    requires Enabled(s, step) && PoolBound(s, callers)
    requires Sum(Do(s, step).agents, Balancing()) <= callers
    ensures PoolBound(Do(s, step), callers)
  {
    if step.Advance? {
      AdvanceKeepsPoolBound(s, step.agent, step.choice, callers);
    } else {
      CallFrame(s, step);
      if StartsAgent(step) {
        SumAppend(s.agents, Starts(s, step), Committed());
      }
    }
  }

  lemma AdvanceKeepsPoolBound(s: State, a: nat, choice: Choice, callers: nat)
    requires CanAdvance(s, a) && PoolBound(s, callers)
    requires Sum(Do(s, Advance(a, choice)).agents, Balancing()) <= callers
    ensures PoolBound(Do(s, Advance(a, choice)), callers)
  {
    AdvanceSum(s, a, choice, Committed());
    SumMonotone(Do(s, Advance(a, choice)).agents, Committed(), Balancing());
    if UsesSlot(s.agents[a].pc) {
      RunTaskFrame(s, a, choice);
      RunTaskPool(s, a, choice);
    } else {
      MoveTaskPool(s, a, choice);
    }
  }

  lemma {:induction false} RunKeepsPoolBound(s: State, steps: seq<Step>, s': State, callers: nat)
    requires PoolBound(s, callers) && RunsWithin(s, steps, s', callers)
    ensures PoolBound(s', callers)
    decreases |steps|
  {
    if steps != [] {
      StepKeepsPoolBound(s, steps[0], callers);
      RunKeepsPoolBound(Do(s, steps[0]), steps[1..], s', callers);
    }
  }

  lemma {:induction false} RunKeepsMaximum(s: State, steps: seq<Step>, s': State, callers: nat)
    requires RunsWithin(s, steps, s', callers)
    ensures s'.maxThreads == s.maxThreads
    decreases |steps|
  {
    if steps != [] {
      if steps[0].Advance? {
        if UsesSlot(s.agents[steps[0].agent].pc) {
          RunTaskFrame(s, steps[0].agent, steps[0].choice);
        } else {
          MoveTaskPool(s, steps[0].agent, steps[0].choice);
        }
      } else {
        CallFrame(s, steps[0]);
      }
      RunKeepsMaximum(Do(s, steps[0]), steps[1..], s', callers);
    }
  }

  /**
   * With `callers` threads in balanceThreads at the same time the pool never outgrows its maximum
   * by more than callers - 1; one caller at a time never outgrows it.
   */
  lemma PoolNeverOutgrows(s: State, steps: seq<Step>, s': State, callers: nat)
    requires Init(s) && s.maxThreads >= 1 && RunsWithin(s, steps, s', callers)
    ensures s'.poolSize <= s.maxThreads - 1 + callers
    ensures callers == 1 ==> s'.poolSize <= s.maxThreads
  {
    assert s.agents[..|s.agents| - 1] == [];
    assert Sum(s.agents, Committed()) == 0;
    RunKeepsPoolBound(s, steps, s', callers);
    RunKeepsMaximum(s, steps, s', callers);
    SumNonNegative(s'.agents, Committed());
  }
}
