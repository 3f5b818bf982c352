/** What the task and active counters mean in every reachable state, although they are updated apart from the queue. */
module SchedulerCounters {
  import opened Machine
  import opened TaskScheduler
  import opened SchedulerTurns
  import opened SchedulerPlaces

  /** Counted but not pushed, or popped but not yet subtracted: +1. Pushed back but not yet counted: -1. */
  function Lag(): Agent -> int {
    (agent: Agent) =>
      if agent.pc.Pushing? || agent.pc.Popped? || agent.pc.Activated? then 1
      else if agent.pc.Requeued? then -1
      else 0
  }

  /** Between the two updates of the active count in drainTasks. */
  predicate IsActive(pc: Pc) {
    || UsesSlot(pc) || pc.Activated? || pc.Decremented? || pc.Requeueing? || pc.Requeued?
    || pc.Exiting? || pc.Deleting? || pc.Leaving?
  }

  function Active(): Agent -> int {
    (agent: Agent) => One(IsActive(agent.pc))
  }

  function ExactTasks(s: State): int {
    |s.queue| + Sum(s.agents, Lag())
  }

  ghost predicate CountersExact(s: State) {
    && s.taskCount == ExactTasks(s)
    && s.activeCount == Sum(s.agents, Active())
  }

  lemma RunTaskLag(s: State, a: nat, choice: Choice)
    requires CanAdvance(s, a) && UsesSlot(s.agents[a].pc)
    ensures var turn := RunTask(s, a, choice); IsActive(turn.pc) && Lag()(Agent(turn.pc, turn.slot)) == 0
  {
  }

  lemma MoveLag(s: State, a: nat, choice: Choice)
    requires CanAdvance(s, a) && !UsesSlot(s.agents[a].pc)
    ensures var pc := s.agents[a].pc; var turn := MoveTask(s, a, choice);
            Lag()(Agent(turn.pc, turn.slot)) ==
              if pc.Counting? || (pc.LoopHead? && s.queue != []) || pc.Popped? then 1
              else if pc.Requeueing? then -1
              else 0
  {
  }

  /** The task counter moves by exactly what queue length and lag move by. */
  lemma MoveTaskLag(s: State, a: nat, choice: Choice)
    requires CanAdvance(s, a) && !UsesSlot(s.agents[a].pc)
    ensures var turn := MoveTask(s, a, choice); var agent := Agent(turn.pc, turn.slot);
            turn.after.taskCount - s.taskCount == (|turn.after.queue| + Lag()(agent)) - (|s.queue| + Lag()(s.agents[a]))
  {
    MoveTaskCount(s, a, choice);
    MoveQueue(s, a, choice);
    MoveLag(s, a, choice);
  }

  lemma MoveIsActive(s: State, a: nat, choice: Choice)
    requires CanAdvance(s, a) && !UsesSlot(s.agents[a].pc)
    ensures var pc := s.agents[a].pc;
            IsActive(MoveTask(s, a, choice).pc) == (pc.Popped? || (IsActive(pc) && !pc.Leaving?))
  {
    if Attaches(s.agents[a].pc) {
      assert Attaches(AttachTurn(s, a).pc) || AttachTurn(s, a).pc.Ended?;
    } else if InCall(s.agents[a].pc) {
      assert InCall(CallTurn(s, a).pc) || CallTurn(s, a).pc.Ended?;
    } else {
      PoolIsActive(s, a, choice);
    }
  }

  lemma PoolIsActive(s: State, a: nat, choice: Choice)
    requires CanAdvance(s, a) && !UsesSlot(s.agents[a].pc)
    ensures var pc := s.agents[a].pc;
            IsActive(PoolTurn(s, a, choice).pc) == (pc.Popped? || (IsActive(pc) && !pc.Leaving?))
  {
  }

  lemma MoveTaskActive(s: State, a: nat, choice: Choice)
    requires CanAdvance(s, a) && !UsesSlot(s.agents[a].pc)
    ensures var turn := MoveTask(s, a, choice);
            turn.after.activeCount == s.activeCount + One(IsActive(turn.pc)) - One(IsActive(s.agents[a].pc))
  {
    MoveActiveCount(s, a, choice);
    MoveIsActive(s, a, choice);
  }

  lemma RunTaskKeepsCounters(s: State, a: nat, choice: Choice)
    requires CanAdvance(s, a) && UsesSlot(s.agents[a].pc) && CountersExact(s)
    ensures CountersExact(Do(s, Advance(a, choice)))
  {
    AdvanceSum(s, a, choice, Lag());
    AdvanceSum(s, a, choice, Active());
    RunTaskFrame(s, a, choice);
    RunTaskLag(s, a, choice);
  }

  lemma MoveTaskKeepsCounters(s: State, a: nat, choice: Choice)
    requires CanAdvance(s, a) && !UsesSlot(s.agents[a].pc) && CountersExact(s)
    ensures CountersExact(Do(s, Advance(a, choice)))
  {
    AdvanceSum(s, a, choice, Lag());
    AdvanceSum(s, a, choice, Active());
    MoveTaskLag(s, a, choice);
    MoveTaskActive(s, a, choice);
  }

  /** A call that has just begun has touched neither queue nor counters. */
  lemma StartedIdle(s: State, step: Step)
    requires Enabled(s, step) && StartsAgent(step)
    ensures Lag()(Starts(s, step)) == 0 && Active()(Starts(s, step)) == 0
  {
  }

  lemma CallKeepsCounters(s: State, step: Step)
    requires Enabled(s, step) && !step.Advance? && CountersExact(s)
    ensures CountersExact(Do(s, step))
  {
    CallFrame(s, step);
    if StartsAgent(step) {
      StartedIdle(s, step);
      SumAppend(s.agents, Starts(s, step), Lag());
      SumAppend(s.agents, Starts(s, step), Active());
    }
  }

  lemma StepKeepsCounters(s: State, step: Step)
    requires Enabled(s, step) && CountersExact(s)
    ensures CountersExact(Do(s, step))
  {
    if !step.Advance? {
      CallKeepsCounters(s, step);
    } else if UsesSlot(s.agents[step.agent].pc) {
      RunTaskKeepsCounters(s, step.agent, step.choice);
    } else {
      MoveTaskKeepsCounters(s, step.agent, step.choice);
    }
  }

  lemma {:induction false} RunKeepsCounters(s: State, steps: seq<Step>, s': State)
    requires CountersExact(s) && Runs(s, steps, s')
    ensures CountersExact(s')
    decreases |steps|
  {
    if steps != [] {
      StepKeepsCounters(s, steps[0]);
      RunKeepsCounters(Do(s, steps[0]), steps[1..], s');
    }
  }

  lemma InitCounters(s: State)
    requires Init(s)
    ensures CountersExact(s)
  {
    assert s.agents[..|s.agents| - 1] == [];
    assert Sum(s.agents, Lag()) == 0 && Sum(s.agents, Active()) == 0;
  }

  function Presence(): Agent -> int {
    (agent: Agent) => 1
  }

  function ActiveLag(): Agent -> int {
    (agent: Agent) => Lag()(agent) + Active()(agent)
  }

  lemma {:induction false} SumSplits(agents: seq<Agent>)
    ensures Sum(agents, ActiveLag()) == Sum(agents, Lag()) + Sum(agents, Active())
  {
    if agents != [] {
      SumSplits(agents[..|agents| - 1]);
    }
  }

  lemma {:induction false} SumPresence(agents: seq<Agent>)
    ensures Sum(agents, Presence()) == |agents|
  {
    if agents != [] {
      SumPresence(agents[..|agents| - 1]);
    }
  }

  lemma LagBounds(agents: seq<Agent>)
    ensures -|agents| <= Sum(agents, Lag()) <= |agents|
    ensures 0 <= Sum(agents, Lag()) + Sum(agents, Active()) <= 2 * |agents|
  {
    SumSplits(agents);
    SumNonNegative(agents, ActiveLag());
    SumMonotone(agents, Lag(), Presence());
    SumMonotone(agents, Active(), Presence());
    SumPresence(agents);
    NegatedLag(agents);
  }

  lemma {:induction false} NegatedLag(agents: seq<Agent>)
    ensures -|agents| <= Sum(agents, Lag())
  {
    if agents != [] {
      NegatedLag(agents[..|agents| - 1]);
    }
  }

  /** Scheduler::remaining: the two counters added in machine arithmetic. */
  function Remaining(s: State): Word {
    Wrap(Wrap(s.taskCount) + Wrap(s.activeCount))
  }

  ghost predicate FitsWord(s: State) {
    |s.queue| + 2 * |s.agents| < WORD
  }

  /**
   * In every reachable state the task counter is, modulo 2^64, the queue length corrected by the
   * threads caught between a queue operation and its counter update; and `remaining` never
   * reports less than the queue length, even while the task counter alone has wrapped below zero.
   */
  lemma EveryRunCounts(s: State, steps: seq<Step>, s': State)
    requires Init(s) && Runs(s, steps, s')
    ensures Wrap(s'.taskCount) == Wrap(|s'.queue| + Sum(s'.agents, Lag()))
    ensures Wrap(s'.activeCount) == Wrap(Sum(s'.agents, Active()))
    ensures FitsWord(s') ==> Remaining(s') == |s'.queue| + Sum(s'.agents, Lag()) + Sum(s'.agents, Active())
    ensures FitsWord(s') ==> Remaining(s') >= |s'.queue|
  {
    ReachableIsExact(s, steps, s');
    ExactMeans(s');
  }

  lemma ReachableIsExact(s: State, steps: seq<Step>, s': State)
    requires Init(s) && Runs(s, steps, s')
    ensures CountersExact(s')
  {
    InitCounters(s);
    RunKeepsCounters(s, steps, s');
  }

  lemma ExactMeans(s: State)
    requires CountersExact(s)
    ensures Wrap(s.taskCount) == Wrap(|s.queue| + Sum(s.agents, Lag())) && Wrap(s.activeCount) == Wrap(Sum(s.agents, Active()))
    ensures FitsWord(s) ==> Remaining(s) == |s.queue| + Sum(s.agents, Lag()) + Sum(s.agents, Active()) >= |s.queue|
  {
    if FitsWord(s) {
      RemainingIsExact(s);
    }
  }

  lemma RemainingIsExact(s: State)
    requires CountersExact(s) && FitsWord(s)
    ensures Remaining(s) == |s.queue| + Sum(s.agents, Lag()) + Sum(s.agents, Active())
    ensures Remaining(s) >= |s.queue|
  {
    LagBounds(s.agents);
    WrapAdds(s.taskCount, s.activeCount);
  }

  /**
   * No task is forgotten: while the queue holds one, either the counter that keeps the dispatchers
   * polling is not zero, or some thread is still inside drainTasks about to count the task it
   * pushed back.
   */
  lemma NoTaskForgotten(s: State, steps: seq<Step>, s': State) returns (a: nat)
    requires Init(s) && Runs(s, steps, s') && FitsWord(s')
    requires s'.queue != [] && Wrap(s'.taskCount) == 0
    ensures a < |s'.agents| && s'.agents[a].pc.Requeued?
  {
    InitCounters(s);
    RunKeepsCounters(s, steps, s');
    LagBounds(s'.agents);
    if Sum(s'.agents, Lag()) >= 0 {
      WrapSmall(s'.taskCount);
    }
    a := NegativeLag(s'.agents);
  }

  lemma {:induction false} NegativeLag(agents: seq<Agent>) returns (a: nat)
    requires Sum(agents, Lag()) < 0
    ensures a < |agents| && agents[a].pc.Requeued?
  {
    if agents[|agents| - 1].pc.Requeued? {
      a := |agents| - 1;
    } else {
      a := NegativeLag(agents[..|agents| - 1]);
    }
  }
}
