/**
 * How often a task's handler is entered, yields and is put back, counted from the states of the run:
 * a task that completes was run from its beginning to its end.
 */
module SchedulerEntries {
  import opened Machine
  import opened TaskScheduler
  import opened SchedulerTurns
  import opened SchedulerPlaces
  import opened SchedulerHistory
  import opened SchedulerAborts
  import opened SchedulerLife
  import opened SchedulerParking

  // ---- what a step is for task `t`

  /** The thread that takes the step has `t` in its slot. */
  predicate WorksOn(s: State, step: Step, t: TaskId) {
    step.Advance? && step.agent < |s.agents| && s.agents[step.agent].slot == Keeps(t)
  }

  /** The thread comes into the handler of `t` from outside it. */
  predicate Enters(s: State, step: Step, t: TaskId)
    requires Enabled(s, step)
  {
    && WorksOn(s, step, t) && !InHandler(s.agents[step.agent].pc)
    && Do(s, step).agents[step.agent] == Agent(Running, Keeps(t))
  }

  /** The thread leaves the handler in the middle. */
  predicate Yields(s: State, step: Step, t: TaskId) {
    WorksOn(s, step, t) && s.agents[step.agent].pc.YieldStore?
  }

  predicate BeginsExit(s: State, step: Step, t: TaskId) {
    WorksOn(s, step, t) && s.agents[step.agent].pc.ExitStart?
  }

  /** The thread puts `t` at the end of the queue again. */
  predicate PutsBack(s: State, step: Step, t: TaskId)
    requires Enabled(s, step)
  {
    && step.Advance? && s.agents[step.agent].pc == Requeueing(t)
    && Do(s, step).queue == s.queue + [t]
  }

  ghost function Entries(s: State, steps: seq<Step>, t: TaskId): nat
    decreases |steps|
  {
    if steps == [] || !Enabled(s, steps[0]) then 0
    else One(Enters(s, steps[0], t)) + Entries(Do(s, steps[0]), steps[1..], t)
  }

  ghost function YieldCount(s: State, steps: seq<Step>, t: TaskId): nat
    decreases |steps|
  {
    if steps == [] || !Enabled(s, steps[0]) then 0
    else One(Yields(s, steps[0], t)) + YieldCount(Do(s, steps[0]), steps[1..], t)
  }

  ghost function ExitCount(s: State, steps: seq<Step>, t: TaskId): nat
    decreases |steps|
  {
    if steps == [] || !Enabled(s, steps[0]) then 0
    else One(BeginsExit(s, steps[0], t)) + ExitCount(Do(s, steps[0]), steps[1..], t)
  }

  ghost function PutBackCount(s: State, steps: seq<Step>, t: TaskId): nat
    decreases |steps|
  {
    if steps == [] || !Enabled(s, steps[0]) then 0
    else One(PutsBack(s, steps[0], t)) + PutBackCount(Do(s, steps[0]), steps[1..], t)
  }

  // ---- the records kept with a task are these counts

  function RunsOf(s: State, t: TaskId): nat {
    if t < |s.tasks| then s.tasks[t].runs else 0
  }

  function CompletionsOfTask(s: State, t: TaskId): nat {
    if t < |s.tasks| then s.tasks[t].completions else 0
  }

  lemma TurnRuns(s: State, a: nat, choice: Choice)
    requires CanAdvance(s, a) && UsesSlot(s.agents[a].pc)
    ensures var turn := RunTask(s, a, choice); var Agent(pc, slot) := s.agents[a]; var t := slot.task;
            && t < |turn.after.tasks|
            && turn.after.tasks[t].runs == s.tasks[t].runs + One(!InHandler(pc) && turn.pc.Running?)
  {
  }

  lemma MoveNotInHandler(s: State, a: nat, choice: Choice)
    requires CanAdvance(s, a) && !UsesSlot(s.agents[a].pc)
    ensures !InHandler(MoveTask(s, a, choice).pc) && !MoveTask(s, a, choice).pc.ReadPending?
  {
    MoveToSlot(s, a, choice);
  }

  lemma StepRuns(s: State, step: Step, t: TaskId)
    requires Enabled(s, step)
    ensures RunsOf(Do(s, step), t) == RunsOf(s, t) + One(Enters(s, step, t))
  {
    if step.Advance? {
      if UsesSlot(s.agents[step.agent].pc) {
        TurnStepRuns(s, step.agent, step.choice, t);
      } else {
        MoveTasks(s, step.agent, step.choice);
        MoveNotInHandler(s, step.agent, step.choice);
      }
    }
  }

  lemma TurnStepRuns(s: State, a: nat, choice: Choice, t: TaskId)
    requires CanAdvance(s, a) && UsesSlot(s.agents[a].pc)
    ensures var step := Advance(a, choice); RunsOf(Do(s, step), t) == RunsOf(s, t) + One(Enters(s, step, t))
  {
    RunTaskFrame(s, a, choice);
    RunSlot(s, a, choice);
    TurnRuns(s, a, choice);
  }

  lemma {:induction false} RunsAreEntries(s: State, steps: seq<Step>, s': State, t: TaskId)
    requires Runs(s, steps, s')
    ensures RunsOf(s', t) == RunsOf(s, t) + Entries(s, steps, t)
    decreases |steps|
  {
    if steps != [] {
      StepRuns(s, steps[0], t);
      RunsAreEntries(Do(s, steps[0]), steps[1..], s', t);
    }
  }

  lemma StepExits(s: State, step: Step, t: TaskId)
    requires Enabled(s, step)
    ensures CompletionsOfTask(Do(s, step), t) == CompletionsOfTask(s, t) + One(BeginsExit(s, step, t))
  {
    if step.Advance? {
      if UsesSlot(s.agents[step.agent].pc) {
        RunTaskFrame(s, step.agent, step.choice);
        RunCompletions(s, step.agent, step.choice);
      } else {
        MoveTasks(s, step.agent, step.choice);
      }
    }
  }

  lemma {:induction false} CompletionsAreExits(s: State, steps: seq<Step>, s': State, t: TaskId)
    requires Runs(s, steps, s')
    ensures CompletionsOfTask(s', t) == CompletionsOfTask(s, t) + ExitCount(s, steps, t)
    decreases |steps|
  {
    if steps != [] {
      StepExits(s, steps[0], t);
      CompletionsAreExits(Do(s, steps[0]), steps[1..], s', t);
    }
  }

  // ---- entries against yields

  function Handling(t: TaskId): Agent -> int {
    (agent: Agent) => One(InHandler(agent.pc) && agent.slot == Keeps(t))
  }

  predicate HasFinished(s: State, t: TaskId) {
    t < |s.tasks| && s.tasks[t].status.FINISHED?
  }

  /** The handler is being run, or was run to its end. */
  function Inside(s: State, t: TaskId): int {
    One(HasFinished(s, t)) + Sum(s.agents, Handling(t))
  }

  ghost predicate Sound(s: State) {
    PlacesInv(s) && LifeOk(s)
  }

  /** One turn of the thread with `t` in its slot, on the status that the life cycle guarantees. */
  lemma ReadTurnInside(s: State, a: nat, choice: Choice, t: TaskId)
    requires CanAdvance(s, a) && UsesSlot(s.agents[a].pc) && !Stores(s.agents[a].pc) && AgentOk(s.tasks, s.agents[a])
    requires s.agents[a].slot == Keeps(t)
    ensures var turn := ReadTurn(s, a, choice); var pc := s.agents[a].pc;
            InHandler(turn.pc) == InHandler(pc) && turn.after == s && (turn.slot == Keeps(t) || !InHandler(pc))
  {
  }

  lemma StoreTurnInside(s: State, a: nat, t: TaskId)
    requires CanAdvance(s, a) && Stores(s.agents[a].pc) && AgentOk(s.tasks, s.agents[a])
    requires s.agents[a].slot == Keeps(t)
    ensures var turn := StoreTurn(s, a); var pc := s.agents[a].pc;
            && One(!InHandler(pc) && turn.pc.Running? && turn.slot == Keeps(t)) + One(InHandler(pc)) + One(HasFinished(s, t))
               == One(pc.YieldStore?) + One(InHandler(turn.pc) && turn.slot == Keeps(t)) + One(HasFinished(turn.after, t))
  {
  }

  lemma SlotTurnInside(s: State, a: nat, choice: Choice, t: TaskId)
    requires CanAdvance(s, a) && UsesSlot(s.agents[a].pc) && Sound(s)
    ensures var step := Advance(a, choice);
            One(Enters(s, step, t)) + Inside(s, t) == One(Yields(s, step, t)) + Inside(Do(s, step), t)
  {
    assert AgentOk(s.tasks, s.agents[a]);
    AdvanceSum(s, a, choice, Handling(t));
    RunTaskFrame(s, a, choice);
    RunSlot(s, a, choice);
    if s.agents[a].slot == Keeps(t) {
      if Stores(s.agents[a].pc) {
        StoreTurnInside(s, a, t);
      } else {
        ReadTurnInside(s, a, choice, t);
      }
    }
  }

  lemma MoveTurnInside(s: State, a: nat, choice: Choice, t: TaskId)
    requires CanAdvance(s, a) && !UsesSlot(s.agents[a].pc)
    ensures var step := Advance(a, choice);
            !Enters(s, step, t) && !Yields(s, step, t) && Inside(s, t) == Inside(Do(s, step), t)
  {
    AdvanceSum(s, a, choice, Handling(t));
    MoveTasks(s, a, choice);
    MoveNotInHandler(s, a, choice);
  }

  /** A call changes the status of a task by abort only, and brings in tasks that are INACTIVE. */
  lemma CallStatus(s: State, step: Step, t: TaskId)
    requires Enabled(s, step) && !step.Advance? && t < |Do(s, step).tasks|
    ensures Do(s, step).tasks[t].status == if step.Abort? && step.task == t then ABORTED
                                           else if t < |s.tasks| then s.tasks[t].status else INACTIVE
  {
  }

  lemma CallInside(s: State, step: Step, t: TaskId)
    requires Timely(s, step) && !step.Advance? && Sound(s)
    ensures Inside(s, t) == Inside(Do(s, step), t)
  {
    CallHandling(s, step, t);
    TaskTable(s, step);
    if t < |Do(s, step).tasks| {
      CallStatus(s, step, t);
    }
    if step.Abort? {
      InTimeIsWaiting(s, step.task);
    }
  }

  lemma CallHandling(s: State, step: Step, t: TaskId)
    requires Enabled(s, step) && !step.Advance?
    ensures Sum(Do(s, step).agents, Handling(t)) == Sum(s.agents, Handling(t))
  {
    CallFrame(s, step);
    if StartsAgent(step) {
      SumAppend(s.agents, Starts(s, step), Handling(t));
    }
  }

  lemma StepInside(s: State, step: Step, t: TaskId)
    requires Timely(s, step) && Sound(s)
    ensures One(Enters(s, step, t)) + Inside(s, t) == One(Yields(s, step, t)) + Inside(Do(s, step), t)
  {
    if !step.Advance? {
      CallInside(s, step, t);
    } else if UsesSlot(s.agents[step.agent].pc) {
      SlotTurnInside(s, step.agent, step.choice, t);
    } else {
      MoveTurnInside(s, step.agent, step.choice, t);
    }
  }

  lemma StepKeepsSound(s: State, step: Step)
    requires Timely(s, step) && Sound(s)
    ensures Sound(Do(s, step))
  {
    StepKeepsPlaces(s, step);
    StepKeepsLife(s, step);
  }

  /** In runs with timely aborts: what came into the handler went out of it by a yield, or is in it, or finished it. */
  lemma {:induction false} EntriesAndYields(s: State, steps: seq<Step>, s': State, t: TaskId)
    requires TimelyRuns(s, steps, s') && Sound(s)
    ensures Sound(s') && Entries(s, steps, t) + Inside(s, t) == YieldCount(s, steps, t) + Inside(s', t)
    decreases |steps|
  {
    if steps != [] {
      StepInside(s, steps[0], t);
      StepKeepsSound(s, steps[0]);
      EntriesAndYields(Do(s, steps[0]), steps[1..], s', t);
    }
  }

  // ---- yields against pushes

  function Deciding(t: TaskId): Agent -> int {
    (agent: Agent) => One(agent.pc.ReadPending? && agent.slot == Keeps(t))
  }

  function Returning(t: TaskId): Agent -> int {
    (agent: Agent) => One(agent.pc == Requeueing(t))
  }

  predicate IsPending(s: State, t: TaskId) {
    t < |s.tasks| && s.tasks[t].status.PENDING?
  }

  /** On the way from the yield to the queue. */
  function OnTheWay(s: State, t: TaskId): int {
    (if IsPending(s, t) then Sum(s.agents, Deciding(t)) else 0) + Sum(s.agents, Returning(t))
  }

  /** A task in one thread's hands is in no other thread's. */
  lemma OthersNotDeciding(s: State, a: nat, t: TaskId)
    requires PlacesInv(s) && a < |s.agents| && UsesSlot(s.agents[a].pc) && s.agents[a].slot == Keeps(t)
    ensures Sum(s.agents, Deciding(t)) == One(s.agents[a].pc.ReadPending?)
  {
    HandsExclusive(s, a, t);
    var gone := s.agents[a := Agent(Outside, Vacant)];
    SumUpdate(s.agents, a, Agent(Outside, Vacant), Deciding(t));
    forall b | 0 <= b < |gone|
      ensures Deciding(t)(gone[b]) == 0
    {
      assert b != a ==> Hands(t)(s.agents[b]) == 0;
    }
    SumZero(gone, Deciding(t));
  }

  lemma ReadTurnOnTheWay(s: State, a: nat, choice: Choice, t: TaskId)
    requires CanAdvance(s, a) && UsesSlot(s.agents[a].pc) && !Stores(s.agents[a].pc) && AgentOk(s.tasks, s.agents[a])
    requires s.agents[a].slot == Keeps(t)
    ensures var turn := ReadTurn(s, a, choice); var pc := s.agents[a].pc;
            && turn.after == s && !(turn.pc.ReadPending? && IsPending(s, t))
            && (turn.pc == Requeueing(t) <==> pc.ReadPending? && IsPending(s, t))
  {
  }

  lemma StoreTurnOnTheWay(s: State, a: nat, t: TaskId)
    requires CanAdvance(s, a) && Stores(s.agents[a].pc) && AgentOk(s.tasks, s.agents[a])
    requires s.agents[a].slot == Keeps(t)
    ensures var turn := StoreTurn(s, a); var pc := s.agents[a].pc;
            && !turn.pc.Requeueing? && (turn.pc.ReadPending? ==> turn.slot == Keeps(t))
            && (turn.pc.ReadPending? && IsPending(turn.after, t) <==> pc.YieldStore?)
  {
  }

  lemma RunOthersReturning(s: State, a: nat, choice: Choice, t: TaskId)
    requires CanAdvance(s, a) && UsesSlot(s.agents[a].pc) && s.agents[a].slot != Keeps(t)
    ensures RunTask(s, a, choice).pc != Requeueing(t) && RunTask(s, a, choice).slot != Keeps(t)
  {
    RunHands(s, a, choice, t);
  }

  /** The thread that works on `t` yields, decides, or does something else. */
  lemma OwnTurnOnTheWay(s: State, a: nat, choice: Choice, t: TaskId)
    requires CanAdvance(s, a) && UsesSlot(s.agents[a].pc) && Sound(s) && s.agents[a].slot == Keeps(t)
    ensures var step := Advance(a, choice);
            One(Yields(s, step, t)) + OnTheWay(s, t) == OnTheWay(Do(s, step), t)
  {
    assert AgentOk(s.tasks, s.agents[a]);
    AdvanceSum(s, a, choice, Deciding(t));
    AdvanceSum(s, a, choice, Returning(t));
    OthersNotDeciding(s, a, t);
    RunTaskFrame(s, a, choice);
    if Stores(s.agents[a].pc) {
      StoreTurnOnTheWay(s, a, t);
    } else {
      ReadTurnOnTheWay(s, a, choice, t);
      RunSlot(s, a, choice);
    }
  }

  lemma OtherTurnOnTheWay(s: State, a: nat, choice: Choice, t: TaskId)
    requires CanAdvance(s, a) && UsesSlot(s.agents[a].pc) && s.agents[a].slot != Keeps(t)
    ensures OnTheWay(s, t) == OnTheWay(Do(s, Advance(a, choice)), t)
  {
    AdvanceSum(s, a, choice, Deciding(t));
    AdvanceSum(s, a, choice, Returning(t));
    RunTaskFrame(s, a, choice);
    RunOthersReturning(s, a, choice, t);
  }

  lemma MoveReturning(s: State, a: nat, choice: Choice)
    requires CanAdvance(s, a) && !UsesSlot(s.agents[a].pc)
    ensures !MoveTask(s, a, choice).pc.Requeueing?
  {
  }

  lemma MoveOnTheWay(s: State, a: nat, choice: Choice, t: TaskId)
    requires CanAdvance(s, a) && !UsesSlot(s.agents[a].pc)
    ensures var step := Advance(a, choice);
            OnTheWay(s, t) == One(PutsBack(s, step, t)) + OnTheWay(Do(s, step), t)
  {
    AdvanceSum(s, a, choice, Deciding(t));
    AdvanceSum(s, a, choice, Returning(t));
    MoveTasks(s, a, choice);
    MoveNotInHandler(s, a, choice);
    MoveReturning(s, a, choice);
    MoveQueue(s, a, choice);
  }

  lemma CallOnTheWay(s: State, step: Step, t: TaskId)
    requires Timely(s, step) && !step.Advance? && Sound(s)
    ensures OnTheWay(s, t) == OnTheWay(Do(s, step), t)
  {
    CallReturning(s, step, t);
    CallPending(s, step, t);
  }

  lemma CallPending(s: State, step: Step, t: TaskId)
    requires Timely(s, step) && !step.Advance?
    ensures IsPending(Do(s, step), t) == IsPending(s, t) || Sum(s.agents, Deciding(t)) == 0
  {
    TaskTable(s, step);
    if t < |Do(s, step).tasks| {
      CallStatus(s, step, t);
    }
    if step.Abort? && step.task == t {
      NobodyDecides(s, t);
    }
  }

  lemma CallReturning(s: State, step: Step, t: TaskId)
    requires Enabled(s, step) && !step.Advance?
    ensures Sum(Do(s, step).agents, Deciding(t)) == Sum(s.agents, Deciding(t))
    ensures Sum(Do(s, step).agents, Returning(t)) == Sum(s.agents, Returning(t))
  {
    CallFrame(s, step);
    if StartsAgent(step) {
      SumAppend(s.agents, Starts(s, step), Deciding(t));
      SumAppend(s.agents, Starts(s, step), Returning(t));
    }
  }

  lemma NobodyDecides(s: State, t: TaskId)
    requires InTime(s, t)
    ensures Sum(s.agents, Deciding(t)) == 0
  {
    forall a | 0 <= a < |s.agents|
      ensures Deciding(t)(s.agents[a]) == 0
    {
      assert !Claims(s.agents[a], t);
    }
    SumZero(s.agents, Deciding(t));
  }

  lemma StepOnTheWay(s: State, step: Step, t: TaskId)
    requires Timely(s, step) && Sound(s)
    ensures One(Yields(s, step, t)) + OnTheWay(s, t) == One(PutsBack(s, step, t)) + OnTheWay(Do(s, step), t)
  {
    if !step.Advance? {
      CallOnTheWay(s, step, t);
    } else if !UsesSlot(s.agents[step.agent].pc) {
      MoveOnTheWay(s, step.agent, step.choice, t);
    } else if s.agents[step.agent].slot == Keeps(t) {
      OwnTurnOnTheWay(s, step.agent, step.choice, t);
    } else {
      OtherTurnOnTheWay(s, step.agent, step.choice, t);
    }
  }

  /** In such runs each yield is followed by a push of the task, or the thread is on the way to it. */
  lemma {:induction false} YieldsAndPushes(s: State, steps: seq<Step>, s': State, t: TaskId)
    requires TimelyRuns(s, steps, s') && Sound(s)
    ensures YieldCount(s, steps, t) + OnTheWay(s, t) == PutBackCount(s, steps, t) + OnTheWay(s', t)
    decreases |steps|
  {
    if steps != [] {
      StepOnTheWay(s, steps[0], t);
      StepKeepsSound(s, steps[0]);
      YieldsAndPushes(Do(s, steps[0]), steps[1..], s', t);
    }
  }

  // ---- plain tasks do not yield

  predicate YieldsProperly(s: State, a: nat)
    requires a < |s.agents|
  {
    var Agent(pc, slot) := s.agents[a];
    (pc.YieldCheck? || pc.YieldStore?) && slot.Keeps? ==> slot.task < |s.tasks| && s.tasks[slot.task].kind.Coroutine?
  }

  ghost predicate AllYieldProperly(s: State) {
    forall a {:trigger YieldsProperly(s, a)} :: 0 <= a < |s.agents| ==> YieldsProperly(s, a)
  }

  lemma TurnYieldsProperly(s: State, a: nat, choice: Choice)
    requires CanAdvance(s, a) && UsesSlot(s.agents[a].pc) && YieldsProperly(s, a)
    ensures var turn := RunTask(s, a, choice); var t := s.agents[a].slot.task;
            (turn.pc.YieldCheck? || turn.pc.YieldStore?) && turn.slot.Keeps? ==> turn.slot == Keeps(t) && s.tasks[t].kind.Coroutine?
  {
  }

  lemma AdvanceYieldsProperly(s: State, a: nat, choice: Choice)
    requires CanAdvance(s, a) && AllYieldProperly(s)
    ensures AllYieldProperly(Do(s, Advance(a, choice)))
  {
    var s' := Do(s, Advance(a, choice));
    TaskTable(s, Advance(a, choice));
    assert YieldsProperly(s, a);
    if UsesSlot(s.agents[a].pc) {
      TurnYieldsProperly(s, a, choice);
    } else {
      MoveNotInHandler(s, a, choice);
    }
    forall b | 0 <= b < |s'.agents|
      ensures YieldsProperly(s', b)
    {
      assert b < |s.agents| ==> YieldsProperly(s, b);
      assert b < |s.agents| && b != a ==> s'.agents[b] == s.agents[b];
    }
  }

  lemma StepYieldsProperly(s: State, step: Step)
    requires Enabled(s, step) && AllYieldProperly(s)
    ensures AllYieldProperly(Do(s, step))
  {
    if step.Advance? {
      AdvanceYieldsProperly(s, step.agent, step.choice);
    } else {
      var s' := Do(s, step);
      CallFrame(s, step);
      TaskTable(s, step);
      forall b | 0 <= b < |s'.agents|
        ensures YieldsProperly(s', b)
      {
        if b < |s.agents| {
          assert YieldsProperly(s, b) && s'.agents[b] == s.agents[b];
        }
      }
    }
  }

  lemma PlainDoesNotYield(s: State, step: Step, t: TaskId)
    requires Enabled(s, step) && AllYieldProperly(s) && t < |s.tasks| && s.tasks[t].kind.Plain?
    ensures !Yields(s, step, t)
  {
    if step.Advance? {
      assert YieldsProperly(s, step.agent);
    }
  }

  lemma {:induction false} PlainNeverYields(s: State, steps: seq<Step>, s': State, t: TaskId)
    requires Runs(s, steps, s') && AllYieldProperly(s) && PlacesInv(s) && t < |s'.tasks| && s'.tasks[t].kind.Plain?
    ensures YieldCount(s, steps, t) == 0
    decreases |steps|
  {
    if steps != [] {
      StepYieldsProperly(s, steps[0]);
      StepKeepsPlaces(s, steps[0]);
      PlainNeverYields(Do(s, steps[0]), steps[1..], s', t);
      TasksAreTheScheduled(s, steps, s');
      if t < |s.tasks| {
        assert Kinds(s'.tasks)[t] == Kinds(s.tasks)[t];
        PlainDoesNotYield(s, steps[0], t);
      } else {
        UnknownDoesNotYield(s, steps[0], t);
      }
    }
  }

  lemma UnknownDoesNotYield(s: State, step: Step, t: TaskId)
    requires Enabled(s, step) && t >= |s.tasks|
    ensures !Yields(s, step, t)
  {
  }

  // ---- what was freed

  /** Deleted after its completion handlers, or after an abort. */
  predicate EndedProperly(s: State, t: TaskId) {
    t in s.freed ==> t < |s.tasks| && (Completed(s.tasks[t]) || Parked(s.tasks[t]))
  }

  lemma FreeingEnds(s: State, a: nat, choice: Choice)
    requires CanAdvance(s, a) && !UsesSlot(s.agents[a].pc) && LifeOk(s) && Freeing(s, a, choice).Keeps?
    ensures var t := Freeing(s, a, choice).task; t < |s.tasks| && (Completed(s.tasks[t]) || Parked(s.tasks[t]))
  {
    assert AgentOk(s.tasks, s.agents[a]);
  }

  lemma MoveEndsProperly(s: State, a: nat, choice: Choice, t: TaskId)
    requires CanAdvance(s, a) && !UsesSlot(s.agents[a].pc) && LifeOk(s) && EndedProperly(s, t)
    ensures EndedProperly(Do(s, Advance(a, choice)), t)
  {
    MoveTasks(s, a, choice);
    MoveFreed(s, a, choice);
    if Freeing(s, a, choice).Keeps? {
      FreeingEnds(s, a, choice);
    }
  }

  lemma RunEndsProperly(s: State, a: nat, choice: Choice, t: TaskId)
    requires CanAdvance(s, a) && UsesSlot(s.agents[a].pc) && Sound(s) && EndedProperly(s, t)
    ensures EndedProperly(Do(s, Advance(a, choice)), t)
  {
    RunTaskFrame(s, a, choice);
    HandsExclusive(s, a, s.agents[a].slot.task);
  }

  lemma StepEndsProperly(s: State, step: Step, t: TaskId)
    requires Timely(s, step) && Sound(s) && EndedProperly(s, t)
    ensures EndedProperly(Do(s, step), t)
  {
    if !step.Advance? {
      CallFrame(s, step);
    } else if UsesSlot(s.agents[step.agent].pc) {
      RunEndsProperly(s, step.agent, step.choice, t);
    } else {
      MoveEndsProperly(s, step.agent, step.choice, t);
    }
  }

  lemma {:induction false} RunsEndProperly(s: State, steps: seq<Step>, s': State, t: TaskId)
    requires TimelyRuns(s, steps, s') && Sound(s) && EndedProperly(s, t)
    ensures EndedProperly(s', t)
    decreases |steps|
  {
    if steps != [] {
      StepEndsProperly(s, steps[0], t);
      StepKeepsSound(s, steps[0]);
      RunsEndProperly(Do(s, steps[0]), steps[1..], s', t);
    }
  }

  // ---- an abort that comes while the handler runs

  /**
   * The thread with `t` in its hands will not yield any more: its handler runs on an ABORTED task, or is over. Or
   * the task is out of its slot for good.
   */
  predicate YieldsNoMore(s: State, a: nat, t: TaskId)
    requires a < |s.agents| && t < |s.tasks|
  {
    var Agent(pc, slot) := s.agents[a]; var status := s.tasks[t].status;
    if slot == Keeps(t) then
      || ((pc.Running? || pc.YieldCheck?) && status.ABORTED?)
      || pc.FinishStore? || pc.ExitStart? || (pc.ReadPending? && Over(status))
    else (pc.Exiting? || pc.Deleting?) && pc.task == t
  }

  /** Somebody has it like that, or it was freed. */
  ghost predicate Doomed(s: State, t: TaskId) {
    t < |s.tasks| && (t in s.freed || exists a :: 0 <= a < |s.agents| && YieldsNoMore(s, a, t))
  }

  lemma DoomedSlotTurn(s: State, a: nat, choice: Choice, t: TaskId)
    requires CanAdvance(s, a) && UsesSlot(s.agents[a].pc) && s.agents[a].slot == Keeps(t) && t < |s.tasks|
    requires YieldsNoMore(s, a, t)
    ensures !s.agents[a].pc.YieldStore?
    ensures var s' := Do(s, Advance(a, choice)); t < |s'.tasks| && YieldsNoMore(s', a, t)
  {
  }

  lemma DoomedMove(s: State, a: nat, choice: Choice, t: TaskId)
    requires CanAdvance(s, a) && !UsesSlot(s.agents[a].pc) && PlacesInv(s) && t < |s.tasks| && YieldsNoMore(s, a, t)
    ensures Doomed(Do(s, Advance(a, choice)), t)
  {
    var s' := Do(s, Advance(a, choice));
    HandsExclusive(s, a, t);
    MoveTasks(s, a, choice);
    MoveFreed(s, a, choice);
    if s.agents[a].pc.Exiting? {
      ExitingGoesOn(s, a, choice);
      assert YieldsNoMore(s', a, t);
    }
  }

  lemma ExitingGoesOn(s: State, a: nat, choice: Choice)
    requires CanAdvance(s, a) && s.agents[a].pc.Exiting?
    ensures var agent := Do(s, Advance(a, choice)).agents[a]; var t := s.agents[a].pc.task;
            (agent.pc == Deleting(t) || (agent.pc.Exiting? && agent.pc.task == t)) && agent.slot == s.agents[a].slot
  {
  }

  /** Whoever has the task in its hands is the only one; the others do not touch it. */
  lemma DoomedByOther(s: State, a: nat, choice: Choice, b: nat, t: TaskId)
    requires CanAdvance(s, a) && PlacesInv(s) && t < |s.tasks| && b < |s.agents| && b != a && YieldsNoMore(s, b, t)
    ensures !Yields(s, Advance(a, choice), t) && Doomed(Do(s, Advance(a, choice)), t)
  {
    var s' := Do(s, Advance(a, choice));
    HandsExclusive(s, b, t);
    assert Hands(t)(s.agents[a]) == 0 && s'.agents[b] == s.agents[b];
    if UsesSlot(s.agents[a].pc) {
      RunTaskFrame(s, a, choice);
    } else {
      MoveTasks(s, a, choice);
    }
    assert YieldsNoMore(s', b, t);
  }

  lemma DoomedAdvance(s: State, a: nat, choice: Choice, t: TaskId)
    requires CanAdvance(s, a) && PlacesInv(s) && Doomed(s, t)
    ensures !Yields(s, Advance(a, choice), t) && Doomed(Do(s, Advance(a, choice)), t)
  {
    if t in s.freed {
      FreedStays(s, a, choice, t);
    } else {
      var b :| 0 <= b < |s.agents| && YieldsNoMore(s, b, t);
      if b != a {
        DoomedByOther(s, a, choice, b, t);
      } else if s.agents[a].slot == Keeps(t) {
        DoomedSlotTurn(s, a, choice, t);
        assert YieldsNoMore(Do(s, Advance(a, choice)), a, t);
      } else {
        DoomedMove(s, a, choice, t);
      }
    }
  }

  lemma FreedStays(s: State, a: nat, choice: Choice, t: TaskId)
    requires CanAdvance(s, a) && PlacesInv(s) && t in s.freed && t < |s.tasks|
    ensures !Yields(s, Advance(a, choice), t) && Doomed(Do(s, Advance(a, choice)), t)
  {
    TaskTable(s, Advance(a, choice));
    if Hands(t)(s.agents[a]) > 0 {
      HandsExclusive(s, a, t);
    }
    if UsesSlot(s.agents[a].pc) {
      RunTaskFrame(s, a, choice);
    } else {
      MoveFreed(s, a, choice);
    }
  }

  lemma DoomedCall(s: State, step: Step, t: TaskId)
    requires Enabled(s, step) && !step.Advance? && Doomed(s, t)
    ensures Doomed(Do(s, step), t)
  {
    var s' := Do(s, step);
    CallFrame(s, step);
    TaskTable(s, step);
    CallStatus(s, step, t);
    if t !in s.freed {
      var b :| 0 <= b < |s.agents| && YieldsNoMore(s, b, t);
      assert s'.agents[b] == s.agents[b] && YieldsNoMore(s', b, t);
    }
  }

  lemma StepKeepsDoomed(s: State, step: Step, t: TaskId)
    requires Enabled(s, step) && PlacesInv(s) && Doomed(s, t)
    ensures !Yields(s, step, t) && Doomed(Do(s, step), t)
  {
    if step.Advance? {
      DoomedAdvance(s, step.agent, step.choice, t);
    } else {
      DoomedCall(s, step, t);
    }
  }

  lemma {:induction false} DoomedYieldsNoMore(s: State, steps: seq<Step>, s': State, t: TaskId)
    requires PlacesInv(s) && Runs(s, steps, s') && Doomed(s, t)
    ensures YieldCount(s, steps, t) == 0 && Doomed(s', t)
    decreases |steps|
  {
    if steps != [] {
      StepKeepsDoomed(s, steps[0], t);
      StepKeepsPlaces(s, steps[0]);
      DoomedYieldsNoMore(Do(s, steps[0]), steps[1..], s', t);
    }
  }

  /**
   * A coroutine that is aborted while its handler runs does not yield any more, in no continuation
   * whatsoever: each further call of yield comes back into the handler with an exception.
   */
  lemma AbortedInsideYieldsNoMore(s: State, a: nat, t: TaskId, steps: seq<Step>, s': State)
    requires PlacesInv(s) && Live(s, t) && a < |s.agents| && s.agents[a].slot == Keeps(t)
    requires s.agents[a].pc.Running? || s.agents[a].pc.YieldCheck?
    requires Runs(Do(s, Abort(t)), steps, s')
    ensures YieldCount(Do(s, Abort(t)), steps, t) == 0
  {
    var aborted := Do(s, Abort(t));
    StepKeepsPlaces(s, Abort(t));
    assert aborted.agents[a] == s.agents[a] && YieldsNoMore(aborted, a, t);
    DoomedYieldsNoMore(aborted, steps, s', t);
  }

  // ---- main results

  lemma {:induction false} TimelyIsRun(s: State, steps: seq<Step>, s': State)
    requires TimelyRuns(s, steps, s')
    ensures Runs(s, steps, s')
    decreases |steps|
  {
    if steps != [] {
      TimelyIsRun(Do(s, steps[0]), steps[1..], s');
    }
  }

  lemma InitSound(s: State)
    requires Init(s)
    ensures Sound(s) && AllYieldProperly(s) && forall t: TaskId :: Inside(s, t) == 0 && OnTheWay(s, t) == 0
  {
    InitPlaces(s);
    forall t: TaskId
      ensures Inside(s, t) == 0 && OnTheWay(s, t) == 0
    {
      SumZero(s.agents, Handling(t));
      SumZero(s.agents, Returning(t));
    }
  }

  /** The counts of one task over a whole run, and what they say of its record. */
  lemma CountsFromInit(s: State, steps: seq<Step>, s': State, t: TaskId)
    requires Init(s) && TimelyRuns(s, steps, s') && t < |s'.tasks|
    ensures Sound(s') && EndedProperly(s', t)
    ensures Entries(s, steps, t) == YieldCount(s, steps, t) + Inside(s', t)
    ensures YieldCount(s, steps, t) == PutBackCount(s, steps, t) + OnTheWay(s', t)
    ensures s'.tasks[t].completions == ExitCount(s, steps, t) && s'.tasks[t].aborts == AbortCalls(steps, t)
    ensures |Scheduled(steps)| == |s'.tasks| && s'.tasks[t].kind == Scheduled(steps)[t]
    ensures Scheduled(steps)[t].Plain? ==> YieldCount(s, steps, t) == 0
  {
    TimelyIsRun(s, steps, s');
    InitSound(s);
    EntriesAndYields(s, steps, s', t);
    YieldsAndPushes(s, steps, s', t);
    RunsEndProperly(s, steps, s', t);
    CompletionsAreExits(s, steps, s', t);
    AbortsAreCounted(s, steps, s', t);
    KindsFromInit(s, steps, s', t);
    if s'.tasks[t].kind.Plain? {
      PlainNeverYields(s, steps, s', t);
    }
  }

  lemma KindsFromInit(s: State, steps: seq<Step>, s': State, t: TaskId)
    requires Init(s) && Runs(s, steps, s') && t < |s'.tasks|
    ensures |Scheduled(steps)| == |s'.tasks| && s'.tasks[t].kind == Scheduled(steps)[t]
  {
    TasksAreTheScheduled(s, steps, s');
    assert Kinds(s.tasks) == [];
    assert Kinds(s'.tasks)[t] == s'.tasks[t].kind;
  }

  /** Nobody is in the handler of a task that is over. */
  lemma OverIsOutside(s: State, t: TaskId)
    requires LifeOk(s) && t < |s.tasks| && Over(s.tasks[t].status)
    ensures Sum(s.agents, Handling(t)) == 0
  {
    forall a | 0 <= a < |s.agents|
      ensures Handling(t)(s.agents[a]) == 0
    {
      assert AgentOk(s.tasks, s.agents[a]);
    }
    SumZero(s.agents, Handling(t));
  }

  /**
   * A task whose completion handlers are called was not aborted, is completed once, and its handler
   * was run from its beginning to its end: it was entered exactly once more than it yielded, and a plain
   * task exactly once.
   */
  lemma CompletedTaskWasRun(s: State, steps: seq<Step>, s': State, t: TaskId)
    requires Init(s) && TimelyRuns(s, steps, s') && t < |s'.tasks| && ExitCount(s, steps, t) > 0
    ensures ExitCount(s, steps, t) == 1 && AbortCalls(steps, t) == 0
    ensures Entries(s, steps, t) == YieldCount(s, steps, t) + 1
    ensures t < |Scheduled(steps)| && (Scheduled(steps)[t].Plain? ==> Entries(s, steps, t) == 1)
  {
    CountsFromInit(s, steps, s', t);
    OverIsOutside(s', t);
  }

  /** Nor does a task get to FINISHED in another way. */
  lemma FinishedTaskWasRun(s: State, steps: seq<Step>, s': State, t: TaskId)
    requires Init(s) && TimelyRuns(s, steps, s') && HasFinished(s', t)
    ensures AbortCalls(steps, t) == 0 && Entries(s, steps, t) == YieldCount(s, steps, t) + 1
    ensures t < |Scheduled(steps)| && (Scheduled(steps)[t].Plain? ==> Entries(s, steps, t) == 1)
  {
    CountsFromInit(s, steps, s', t);
    assert Marked(s'.tasks[t]);
    OverIsOutside(s', t);
  }

  /** A task that yielded has been put back into the queue as often, or a thread that found it PENDING is about to. */
  lemma YieldedIsPutBack(s: State, steps: seq<Step>, s': State, t: TaskId) returns (a: nat)
    requires Init(s) && TimelyRuns(s, steps, s') && t < |s'.tasks| && YieldCount(s, steps, t) != PutBackCount(s, steps, t)
    ensures YieldCount(s, steps, t) > PutBackCount(s, steps, t) && a < |s'.agents|
    ensures s'.agents[a].pc == Requeueing(t)
            || (s'.agents[a] == Agent(ReadPending, Keeps(t)) && s'.tasks[t].status.PENDING?)
  {
    CountsFromInit(s, steps, s', t);
    SumNonNegative(s'.agents, Deciding(t));
    SumNonNegative(s'.agents, Returning(t));
    if Sum(s'.agents, Returning(t)) != 0 {
      a := SumHasTerm(s'.agents, Returning(t));
    } else {
      a := SumHasTerm(s'.agents, Deciding(t));
    }
  }

  /** A live task that is left when nobody works any more is parked, aborted, in some slot. */
  lemma LeftIsParked(s: State, t: TaskId)
    requires Sound(s) && NothingLeft(s) && t < |s.tasks| && t !in s.freed
    ensures Parked(s.tasks[t])
  {
    var a := LiveIsParked(s, t);
    assert AgentOk(s.tasks, s.agents[a]) && Resting(s.agents[a]);
  }

  lemma RestingIsNotOnTheWay(s: State, t: TaskId)
    requires NothingLeft(s)
    ensures OnTheWay(s, t) == 0
  {
    forall a | 0 <= a < |s.agents|
      ensures Deciding(t)(s.agents[a]) == 0 && Returning(t)(s.agents[a]) == 0
    {
      assert Resting(s.agents[a]) && (Carries(s.agents[a].pc, t) || s.agents[a].pc != Requeueing(t));
    }
    SumZero(s.agents, Deciding(t));
    SumZero(s.agents, Returning(t));
  }

  /**
   * When nothing is left to run, every task ever scheduled has had its fate: one that was not aborted
   * completed once after its whole handler was run, and one that was aborted never completed and its
   * handler never came to its end. Each yield was followed by one push.
   */
  lemma EveryTaskRunsOrWasAborted(s: State, steps: seq<Step>, s': State, t: TaskId)
    requires Init(s) && TimelyRuns(s, steps, s') && NothingLeft(s') && t < |Scheduled(steps)|
    ensures t < |s'.tasks|
    ensures AbortCalls(steps, t) <= 1 && ExitCount(s, steps, t) == 1 - AbortCalls(steps, t)
    ensures Entries(s, steps, t) == YieldCount(s, steps, t) + 1 - AbortCalls(steps, t)
    ensures Scheduled(steps)[t].Plain? ==> YieldCount(s, steps, t) == 0
    ensures PutBackCount(s, steps, t) == YieldCount(s, steps, t)
  {
    TimelyIsRun(s, steps, s');
    TasksAreTheScheduled(s, steps, s');
    CountsFromInit(s, steps, s', t);
    if t !in s'.freed {
      LeftIsParked(s', t);
    }
    assert Marked(s'.tasks[t]);
    OverIsOutside(s', t);
    RestingIsNotOnTheWay(s', t);
  }
}
