/** Where every task is: conservation over each step, and its consequences over all runs. */
module SchedulerPlaces {
  import opened Machine
  import opened TaskScheduler
  import opened SchedulerTurns

  /** How often a thread has task `t` in its hands: in its slot, or on the way in or out of it. */
  function Hands(t: TaskId): Agent -> int {
    (agent: Agent) => One(Carries(agent.pc, t)) + One(agent.slot == Keeps(t))
  }

  /** How often task `t` occurs anywhere: on a timer, in the queue, in a thread's hands, freed. */
  function Places(s: State, t: TaskId): int {
    s.timers[t] + multiset(s.queue)[t] + Sum(s.agents, Hands(t)) + s.freed[t]
  }

  /** Each task handed over is in exactly one place. */
  ghost predicate OnePlaceEach(s: State) {
    forall t: TaskId :: Places(s, t) == One(t < |s.tasks|)
  }

  predicate SlotFilled(agent: Agent) {
    UsesSlot(agent.pc) ==> agent.slot.Keeps?
  }

  ghost predicate SlotsFilled(s: State) {
    forall a :: 0 <= a < |s.agents| ==> SlotFilled(s.agents[a])
  }

  /** A task in a thread's hands is one of the tasks handed over, and nothing else has it. */
  lemma HandsExclusive(s: State, a: nat, t: TaskId)
    requires OnePlaceEach(s) && a < |s.agents| && Hands(t)(s.agents[a]) > 0
    ensures t < |s.tasks| && t !in s.freed && t !in s.timers && t !in s.queue
    ensures Hands(t)(s.agents[a]) == 1
    ensures forall b :: 0 <= b < |s.agents| && b != a ==> Hands(t)(s.agents[b]) == 0
  {
    SumBounds(s.agents, a, Hands(t));
    assert Places(s, t) == One(t < |s.tasks|);
    assert t in s.queue ==> multiset(s.queue)[t] > 0;
    forall b | 0 <= b < |s.agents| && b != a
      ensures Hands(t)(s.agents[b]) == 0
    {
      SumBoundsTwo(s.agents, a, b, Hands(t));
    }
  }

  lemma SumBoundsTwo<T>(s: seq<T>, i: nat, j: nat, weight: T -> int)
    requires i < |s| && j < |s| && i != j && forall x :: weight(x) >= 0
    ensures weight(s[i]) + weight(s[j]) <= Sum(s, weight)
  {
    var last := |s| - 1;
    SumNonNegative(s[..last], weight);
    if i == last {
      SumBounds(s[..last], j, weight);
    } else if j == last {
      SumBounds(s[..last], i, weight);
    } else {
      SumBoundsTwo(s[..last], i, j, weight);
    }
  }

  /** What the life-cycle operations leave alone: they change one thread and one task's record. */
  lemma RunTaskFrame(s: State, a: nat, choice: Choice)
    requires CanAdvance(s, a) && UsesSlot(s.agents[a].pc)
    ensures var turn := RunTask(s, a, choice); var t := s.agents[a].slot.task;
            && SlotFilled(Agent(turn.pc, turn.slot))
            && |turn.after.tasks| == |s.tasks| && turn.after.tasks == s.tasks[t := turn.after.tasks[t]]
            && turn.after.tasks[t].kind == s.tasks[t].kind && turn.after.tasks[t].aborts == s.tasks[t].aborts
            && turn.after == s.(tasks := turn.after.tasks)
  {
    RunSlot(s, a, choice);
    RunTasks(s, a, choice);
    RunTouches(s, a, choice);
  }

  lemma MoveTaskFrame(s: State, a: nat, choice: Choice)
    requires CanAdvance(s, a) && !UsesSlot(s.agents[a].pc)
    ensures var turn := MoveTask(s, a, choice);
            && SlotFilled(Agent(turn.pc, turn.slot))
            && turn.after.tasks == s.tasks && turn.after.timers == s.timers
  {
    MoveTasks(s, a, choice);
    MoveTimers(s, a, choice);
    MoveToSlot(s, a, choice);
    MoveSlot(s, a, choice);
  }

  lemma AdvanceSum(s: State, a: nat, choice: Choice, weight: Agent -> int)
    requires CanAdvance(s, a)
    ensures var turn := TurnOf(s, a, choice);
            Sum(Do(s, Advance(a, choice)).agents, weight)
            == Sum(s.agents, weight) - weight(s.agents[a]) + weight(Agent(turn.pc, turn.slot))
               + (if s.agents[a].pc.AddThread? then weight(Agent(Outside, Vacant)) else 0)
  {
    var turn := TurnOf(s, a, choice);
    var moved := s.agents[a := Agent(turn.pc, turn.slot)];
    SumUpdate(s.agents, a, Agent(turn.pc, turn.slot), weight);
    SumAppend(moved, Agent(Outside, Vacant), weight);
  }

  lemma PopCount(queue: seq<TaskId>, t: TaskId)
    requires queue != []
    ensures multiset(queue)[t] == One(queue[0] == t) + multiset(queue[1..])[t]
  {
    assert queue == [queue[0]] + queue[1..];
  }

  lemma PushCount(queue: seq<TaskId>, u: TaskId, t: TaskId)
    ensures multiset(queue + [u])[t] == multiset(queue)[t] + One(u == t)
  {
  }

  /** Queue, hands and freed memory together hold `t` as often after the turn as before. */
  ghost predicate Balanced(s: State, a: nat, turn: Turn, t: TaskId)
    requires a < |s.agents|
  {
    multiset(turn.after.queue)[t] + Hands(t)(Agent(turn.pc, turn.slot)) + turn.after.freed[t]
    == multiset(s.queue)[t] + Hands(t)(s.agents[a]) + s.freed[t]
  }

  /** The task in question is popped, or pushed, by this operation. */
  predicate Pops(s: State, pc: Pc, t: TaskId) {
    pc.LoopHead? && s.queue != [] && s.queue[0] == t
  }

  predicate Pushes(pc: Pc, t: TaskId) {
    (pc.Requeueing? || pc.Pushing?) && pc.task == t
  }

  lemma QueueBalances(s: State, a: nat, choice: Choice, t: TaskId)
    requires CanAdvance(s, a) && !UsesSlot(s.agents[a].pc)
    ensures var pc := s.agents[a].pc;
            multiset(MoveTask(s, a, choice).after.queue)[t] == multiset(s.queue)[t] - One(Pops(s, pc, t)) + One(Pushes(pc, t))
  {
    var pc := s.agents[a].pc;
    MoveQueue(s, a, choice);
    if pc.LoopHead? && s.queue != [] {
      PopCount(s.queue, t);
    } else if pc.Requeueing? || pc.Pushing? {
      PushCount(s.queue, pc.task, t);
    }
  }

  lemma FreedBalances(s: State, a: nat, choice: Choice, t: TaskId)
    requires CanAdvance(s, a) && !UsesSlot(s.agents[a].pc)
    ensures MoveTask(s, a, choice).after.freed[t] == s.freed[t] + One(Freeing(s, a, choice) == Keeps(t))
  {
    MoveFreed(s, a, choice);
  }

  lemma CarriedBalances(s: State, a: nat, choice: Choice, t: TaskId)
    requires CanAdvance(s, a) && !UsesSlot(s.agents[a].pc)
    ensures var pc := s.agents[a].pc;
            One(Carries(MoveTask(s, a, choice).pc, t))
            == One(Carries(pc, t)) + One(Pops(s, pc, t)) - One(Pushes(pc, t)) - One((pc.Decremented? || pc.Deleting?) && pc.task == t)
  {
    MoveCarries(s, a, choice, t);
  }

  lemma SlotBalances(s: State, a: nat, choice: Choice, t: TaskId)
    requires CanAdvance(s, a) && !UsesSlot(s.agents[a].pc) && Hands(t)(s.agents[a]) <= 1
    ensures var Agent(pc, slot) := s.agents[a];
            One(MoveTask(s, a, choice).slot == Keeps(t))
            == One(slot == Keeps(t)) + One((pc.Decremented? || pc.Deleting?) && pc.task == t) - One(Freeing(s, a, choice) == Keeps(t))
  {
    MoveSlot(s, a, choice);
  }

  /** Moving a task takes it out of one place and puts it into another. */
  lemma MoveConserves(s: State, a: nat, choice: Choice, t: TaskId)
    requires CanAdvance(s, a) && !UsesSlot(s.agents[a].pc) && OnePlaceEach(s)
    ensures Balanced(s, a, MoveTask(s, a, choice), t)
  {
    if Hands(t)(s.agents[a]) > 0 {
      HandsExclusive(s, a, t);
    }
    QueueBalances(s, a, choice, t);
    FreedBalances(s, a, choice, t);
    CarriedBalances(s, a, choice, t);
    SlotBalances(s, a, choice, t);
  }

  /** No step of a thread creates, loses or duplicates a task. */
  lemma AdvanceConserves(s: State, a: nat, choice: Choice, t: TaskId)
    requires CanAdvance(s, a) && OnePlaceEach(s)
    ensures Places(Do(s, Advance(a, choice)), t) == Places(s, t)
  {
    AdvanceSum(s, a, choice, Hands(t));
    if UsesSlot(s.agents[a].pc) {
      RunTaskFrame(s, a, choice);
      RunHands(s, a, choice, t);
    } else {
      MoveTaskFrame(s, a, choice);
      MoveConserves(s, a, choice, t);
    }
  }

  predicate Creates(step: Step) {
    step.Schedule? || step.ScheduleLater?
  }

  /** Exactly the scheduling calls bring in a task, and that task is the new one. */
  lemma StepConserves(s: State, step: Step, t: TaskId)
    requires Enabled(s, step) && OnePlaceEach(s)
    ensures Places(Do(s, step), t) == Places(s, t) + One(Creates(step) && t == |s.tasks|)
  {
    if step.Advance? {
      AdvanceConserves(s, step.agent, step.choice, t);
    } else {
      CallConserves(s, step, t);
    }
  }

  predicate StartsAgent(step: Step) {
    step.Schedule? || step.Fire? || step.Abort? || step.Start? || step.Attach?
  }

  /** The thread or call that a step of the environment starts. */
  function Starts(s: State, step: Step): Agent
    requires StartsAgent(step)
  {
    match step
    case Schedule(_) => Agent(Counting(|s.tasks|), Vacant)
    case Fire(t) => Agent(Counting(t), Vacant)
    case Abort(t) => Agent(Aborting(t), Vacant)
    case Attach(_) => Agent(AttachRead(|s.members|), Vacant)
    case Start => Agent(BalanceCount, Vacant)
  }

  lemma CallFrame(s: State, step: Step)
    requires Enabled(s, step) && !step.Advance?
    ensures var s' := Do(s, step);
            && s'.queue == s.queue && s'.freed == s.freed
            && s'.taskCount == s.taskCount && s'.activeCount == s.activeCount
            && s'.agents == (if StartsAgent(step) then s.agents + [Starts(s, step)] else s.agents)
            && (!step.ScheduleLater? && !step.Fire? ==> s'.timers == s.timers)
            && s'.poolSize == s.poolSize && s'.maxThreads == s.maxThreads
  {
  }

  lemma CallConserves(s: State, step: Step, t: TaskId)
    requires Enabled(s, step) && !step.Advance?
    ensures Places(Do(s, step), t) == Places(s, t) + One(Creates(step) && t == |s.tasks|)
  {
    CallFrame(s, step);
    if StartsAgent(step) {
      var agent := Starts(s, step);
      SumAppend(s.agents, agent, Hands(t));
      StartedHands(s, step, t);
    }
  }

  lemma StartedHands(s: State, step: Step, t: TaskId)
    requires Enabled(s, step) && StartsAgent(step)
    ensures Hands(t)(Starts(s, step)) + Do(s, step).timers[t] == s.timers[t] + One(step.Schedule? && t == |s.tasks|)
  {
  }

  /** The table of tasks grows by scheduling only, and no task changes its kind. */
  lemma TaskTable(s: State, step: Step)
    requires Enabled(s, step)
    ensures |Do(s, step).tasks| == |s.tasks| + One(Creates(step))
    ensures forall t :: 0 <= t < |s.tasks| ==> Do(s, step).tasks[t].kind == s.tasks[t].kind
  {
    if step.Advance? {
      if UsesSlot(s.agents[step.agent].pc) {
        RunTaskFrame(s, step.agent, step.choice);
      } else {
        MoveTaskFrame(s, step.agent, step.choice);
      }
    }
  }

  lemma StepKeepsSlots(s: State, step: Step)
    requires Enabled(s, step) && SlotsFilled(s)
    ensures SlotsFilled(Do(s, step))
  {
    if step.Advance? {
      if UsesSlot(s.agents[step.agent].pc) {
        RunTaskFrame(s, step.agent, step.choice);
      } else {
        MoveTaskFrame(s, step.agent, step.choice);
      }
    }
  }

  ghost predicate PlacesInv(s: State) {
    SlotsFilled(s) && OnePlaceEach(s)
  }

  lemma StepKeepsPlaces(s: State, step: Step)
    requires Enabled(s, step) && PlacesInv(s)
    ensures PlacesInv(Do(s, step))
  {
    StepKeepsSlots(s, step);
    TaskTable(s, step);
    forall t: TaskId
      ensures Places(Do(s, step), t) == One(t < |Do(s, step).tasks|)
    {
      StepConserves(s, step, t);
    }
  }

  lemma {:induction false} RunKeepsPlaces(s: State, steps: seq<Step>, s': State)
    requires PlacesInv(s) && Runs(s, steps, s')
    ensures PlacesInv(s')
    decreases |steps|
  {
    if steps != [] {
      StepKeepsPlaces(s, steps[0]);
      RunKeepsPlaces(Do(s, steps[0]), steps[1..], s');
    }
  }

  lemma InitPlaces(s: State)
    requires Init(s)
    ensures PlacesInv(s)
  {
    forall t: TaskId
      ensures Places(s, t) == 0
    {
      assert s.agents[..|s.agents| - 1] == [];
      assert Sum(s.agents, Hands(t)) == Hands(t)(Agent(Outside, Vacant));
    }
  }

  /**
   * In every interleaving each task is in exactly one place (a timer, the queue, one thread's
   * hands, freed), is freed at most once, and its handler runs on at most one thread.
   */
  lemma EveryRunIsSafe(s: State, steps: seq<Step>, s': State)
    requires Init(s) && Runs(s, steps, s')
    ensures forall t: TaskId :: t < |s'.tasks| ==>
              s'.timers[t] + multiset(s'.queue)[t] + Sum(s'.agents, Hands(t)) + s'.freed[t] == 1
    ensures forall t: TaskId :: s'.freed[t] <= 1
    ensures forall a, b :: 0 <= a < |s'.agents| && 0 <= b < |s'.agents| && a != b
              && InHandler(s'.agents[a].pc) && InHandler(s'.agents[b].pc)
              ==> s'.agents[a].slot != s'.agents[b].slot
  {
    InitPlaces(s);
    RunKeepsPlaces(s, steps, s');
    forall t: TaskId
      ensures t < |s'.tasks| ==> s'.timers[t] + multiset(s'.queue)[t] + Sum(s'.agents, Hands(t)) + s'.freed[t] == 1
      ensures s'.freed[t] <= 1
    {
      assert Places(s', t) == One(t < |s'.tasks|);
      SumNonNegative(s'.agents, Hands(t));
    }
    forall a, b | 0 <= a < |s'.agents| && 0 <= b < |s'.agents| && a != b
                  && InHandler(s'.agents[a].pc) && InHandler(s'.agents[b].pc)
      ensures s'.agents[a].slot != s'.agents[b].slot
    {
      assert SlotFilled(s'.agents[a]);
      var t := s'.agents[a].slot.task;
      HandsExclusive(s', a, t);
      assert Hands(t)(s'.agents[b]) == 0;
    }
  }

  /** A thread with a task in its slot can go on, and the task has not been deleted. */
  lemma SlotCanStep(s: State, a: nat)
    requires PlacesInv(s) && a < |s.agents| && UsesSlot(s.agents[a].pc)
    ensures CanAdvance(s, a) && s.agents[a].slot.task !in s.freed
  {
    assert SlotFilled(s.agents[a]);
    HandsExclusive(s, a, s.agents[a].slot.task);
  }
}
