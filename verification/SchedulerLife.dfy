/** The life cycle of a task in runs whose aborts all come in time: status against place, step by step. */
module SchedulerLife {
  import opened Machine
  import opened TaskScheduler
  import opened SchedulerTurns
  import opened SchedulerPlaces
  import opened SchedulerAborts

  /** On a timer, being pushed, queued or just popped. */
  predicate Waiting(task: Task) {
    task.completions == 0 && (if task.aborts > 0 then task.status.ABORTED? else task.status.INACTIVE? || task.status.PENDING?)
  }

  /** Left in a thread's slot after the abort test. */
  predicate Parked(task: Task) {
    task.aborts > 0 && task.status.ABORTED? && task.completions == 0
  }

  /** exit() has begun. */
  predicate Completed(task: Task) {
    task.aborts == 0 && task.status.FINISHED? && task.completions == 1
  }

  /** Past the abort test: the status that each program counter relies on. */
  predicate Underway(pc: Pc, task: Task) {
    && task.aborts == 0 && task.completions == 0
    && match pc
       case ReadInactive => task.status.INACTIVE? || task.status.PENDING?
       case CreateCheck => task.status.INACTIVE?
       case CreateStore => task.status.INACTIVE?
       case ReadCreated => task.status.CREATED? || task.status.PENDING?
       case ReadResumable => task.status.PENDING?
       case EnterCheck => task.status.CREATED? || task.status.PENDING?
       case EnterStore => task.status.CREATED? || task.status.PENDING?
       case ReadPending => task.status.PENDING? || task.status.FINISHED?
       case ExitStart => task.status.FINISHED?
       case _ => task.status.ACTIVE?
  }

  predicate SlotOk(pc: Pc, task: Task) {
    if pc.ReadAborted? then Waiting(task) else if UsesSlot(pc) then Underway(pc, task) else Parked(task)
  }

  predicate AgentOk(tasks: seq<Task>, agent: Agent) {
    && (agent.slot.Keeps? ==> agent.slot.task < |tasks| && SlotOk(agent.pc, tasks[agent.slot.task]))
    && match agent.pc
       case Popped(t) => t < |tasks| && Waiting(tasks[t])
       case Activated(t) => t < |tasks| && Waiting(tasks[t])
       case Decremented(t) => t < |tasks| && Waiting(tasks[t])
       case Requeueing(t) => t < |tasks| && Waiting(tasks[t])
       case Counting(t) => t < |tasks| && Waiting(tasks[t])
       case Pushing(t) => t < |tasks| && Waiting(tasks[t])
       case Exiting(t, _) => t < |tasks| && Completed(tasks[t])
       case Deleting(t) => t < |tasks| && Completed(tasks[t])
       case _ => true
  }

  /** A task is aborted once or completes once or neither, and the status shows which for good. */
  predicate Marked(task: Task) {
    && task.aborts <= 1 && (task.aborts > 0 ==> task.status.ABORTED?)
    && task.completions <= 1 && (task.completions > 0 ==> task.status.FINISHED?)
  }

  ghost predicate LifeOk(s: State) {
    && (forall a :: 0 <= a < |s.agents| ==> AgentOk(s.tasks, s.agents[a]))
    && (forall t :: t in s.queue ==> t < |s.tasks| && Waiting(s.tasks[t]))
    && (forall t :: t in s.timers ==> t < |s.tasks| && Waiting(s.tasks[t]))
    && (forall t :: 0 <= t < |s.tasks| ==> Marked(s.tasks[t]))
  }

  /** The first abort of a task, while no thread is past its abort test for it. */
  ghost predicate InTime(s: State, t: TaskId) {
    && t < |s.tasks| && s.tasks[t].aborts == 0
    && forall a :: 0 <= a < |s.agents| ==>
         !Claims(s.agents[a], t) && !(s.agents[a].pc.Exiting? && s.agents[a].pc.task == t)
         && !(s.agents[a].pc.Deleting? && s.agents[a].pc.task == t)
  }

  ghost predicate Timely(s: State, step: Step) {
    Enabled(s, step) && (step.Abort? ==> InTime(s, step.task))
  }

  ghost predicate TimelyRuns(s: State, steps: seq<Step>, s': State)
    decreases |steps|
  {
    if steps == [] then s == s'
    else Timely(s, steps[0]) && TimelyRuns(Do(s, steps[0]), steps[1..], s')
  }

  /** A change to task `t` does not concern a thread without `t` in its hands. */
  lemma AgentUnaffected(tasks: seq<Task>, t: TaskId, task: Task, agent: Agent)
    requires t < |tasks| && AgentOk(tasks, agent) && Hands(t)(agent) == 0
    ensures AgentOk(tasks[t := task], agent)
  {
  }

  /** Reading the status moves a thread on to an operation that the status fits. */
  lemma ReadTurnLife(s: State, a: nat, choice: Choice)
    requires CanAdvance(s, a) && UsesSlot(s.agents[a].pc) && !Stores(s.agents[a].pc) && AgentOk(s.tasks, s.agents[a])
    ensures var turn := ReadTurn(s, a, choice); AgentOk(s.tasks, Agent(turn.pc, turn.slot)) && turn.after == s
  {
  }

  lemma StoreTurnAgent(s: State, a: nat)
    requires CanAdvance(s, a) && Stores(s.agents[a].pc) && AgentOk(s.tasks, s.agents[a])
    ensures var turn := StoreTurn(s, a); AgentOk(turn.after.tasks, Agent(turn.pc, turn.slot))
  {
  }

  lemma StoreTurnMarks(s: State, a: nat)
    requires CanAdvance(s, a) && Stores(s.agents[a].pc) && AgentOk(s.tasks, s.agents[a])
    ensures var tasks := StoreTurn(s, a).after.tasks; var t := s.agents[a].slot.task; t < |tasks| && Marked(tasks[t])
  {
  }

  lemma RunTaskLife(s: State, a: nat, choice: Choice)
    requires CanAdvance(s, a) && UsesSlot(s.agents[a].pc) && AgentOk(s.tasks, s.agents[a])
    requires Marked(s.tasks[s.agents[a].slot.task])
    ensures var turn := RunTask(s, a, choice); var t := s.agents[a].slot.task;
            AgentOk(turn.after.tasks, Agent(turn.pc, turn.slot)) && t < |turn.after.tasks| && Marked(turn.after.tasks[t])
  {
    if Stores(s.agents[a].pc) {
      StoreTurnAgent(s, a);
      StoreTurnMarks(s, a);
    } else {
      ReadTurnLife(s, a, choice);
    }
  }

  lemma PoolTurnLife(s: State, a: nat, choice: Choice)
    requires CanAdvance(s, a) && !UsesSlot(s.agents[a].pc) && AgentOk(s.tasks, s.agents[a])
    requires s.queue != [] ==> s.queue[0] < |s.tasks| && Waiting(s.tasks[s.queue[0]])
    ensures var turn := PoolTurn(s, a, choice); AgentOk(s.tasks, Agent(turn.pc, turn.slot))
  {
  }

  lemma CallTurnLife(s: State, a: nat)
    requires CanAdvance(s, a) && InCall(s.agents[a].pc) && AgentOk(s.tasks, s.agents[a])
    ensures var turn := CallTurn(s, a); AgentOk(s.tasks, Agent(turn.pc, turn.slot))
  {
  }

  lemma MoveTaskLife(s: State, a: nat, choice: Choice)
    requires CanAdvance(s, a) && !UsesSlot(s.agents[a].pc) && AgentOk(s.tasks, s.agents[a])
    requires s.queue != [] ==> s.queue[0] < |s.tasks| && Waiting(s.tasks[s.queue[0]])
    ensures var turn := MoveTask(s, a, choice); AgentOk(s.tasks, Agent(turn.pc, turn.slot))
  {
    if Attaches(s.agents[a].pc) {
      MoveSlot(s, a, choice);
      assert Attaches(AttachTurn(s, a).pc) || AttachTurn(s, a).pc.Ended?;
    } else if InCall(s.agents[a].pc) {
      CallTurnLife(s, a);
    } else {
      PoolTurnLife(s, a, choice);
    }
  }

  lemma RunTaskKeepsLife(s: State, a: nat, choice: Choice)
    requires CanAdvance(s, a) && UsesSlot(s.agents[a].pc) && OnePlaceEach(s) && LifeOk(s)
    ensures LifeOk(Do(s, Advance(a, choice)))
  {
    var turn := RunTask(s, a, choice);
    var t := s.agents[a].slot.task;
    RunTaskFrame(s, a, choice);
    RunTaskLife(s, a, choice);
    HandsExclusive(s, a, t);
    forall b | 0 <= b < |s.agents| && b != a
      ensures AgentOk(turn.after.tasks, s.agents[b])
    {
      AgentUnaffected(s.tasks, t, turn.after.tasks[t], s.agents[b]);
    }
    TaskMovedLife(s, a, t, turn);
  }

  /** One thread moved on and the record of the task in its hands changed. */
  lemma TaskMovedLife(s: State, a: nat, t: TaskId, turn: Turn)
    requires LifeOk(s) && a < |s.agents| && t < |s.tasks| && t !in s.queue && t !in s.timers
    requires |turn.after.tasks| == |s.tasks| && turn.after.tasks == s.tasks[t := turn.after.tasks[t]]
    requires turn.after == s.(tasks := turn.after.tasks) && Marked(turn.after.tasks[t])
    requires AgentOk(turn.after.tasks, Agent(turn.pc, turn.slot))
    requires forall b :: 0 <= b < |s.agents| && b != a ==> AgentOk(turn.after.tasks, s.agents[b])
    ensures LifeOk(turn.after.(agents := s.agents[a := Agent(turn.pc, turn.slot)]))
  {
  }

  lemma MoveTaskKeepsLife(s: State, a: nat, choice: Choice)
    requires CanAdvance(s, a) && !UsesSlot(s.agents[a].pc) && LifeOk(s)
    ensures LifeOk(Do(s, Advance(a, choice)))
  {
    assert s.queue != [] ==> s.queue[0] in s.queue;
    MoveTaskFrame(s, a, choice);
    MoveTaskLife(s, a, choice);
    forall t | t in MoveTask(s, a, choice).after.queue
      ensures t < |s.tasks| && Waiting(s.tasks[t])
    {
      QueuedIsWaiting(s, a, choice, t);
    }
    var turn := MoveTask(s, a, choice);
    ThreadMovedLife(s, a, turn, if s.agents[a].pc.AddThread? then [Agent(Outside, Vacant)] else []);
  }

  lemma ThreadMovedLife(s: State, a: nat, turn: Turn, started: seq<Agent>)
    requires LifeOk(s) && a < |s.agents| && turn.after.tasks == s.tasks && turn.after.timers == s.timers
    requires AgentOk(s.tasks, Agent(turn.pc, turn.slot)) && (started == [] || started == [Agent(Outside, Vacant)])
    requires forall t :: t in turn.after.queue ==> t < |s.tasks| && Waiting(s.tasks[t])
    ensures LifeOk(turn.after.(agents := s.agents[a := Agent(turn.pc, turn.slot)] + started))
  {
  }

  lemma QueuedIsWaiting(s: State, a: nat, choice: Choice, t: TaskId)
    requires CanAdvance(s, a) && !UsesSlot(s.agents[a].pc) && LifeOk(s) && t in MoveTask(s, a, choice).after.queue
    ensures t < |s.tasks| && Waiting(s.tasks[t])
  {
    MoveQueue(s, a, choice);
    assert AgentOk(s.tasks, s.agents[a]);
    assert s.queue != [] ==> forall u :: u in s.queue[1..] ==> u in s.queue;
  }

  /** A task that can still be aborted in time is waiting. */
  lemma InTimeIsWaiting(s: State, t: TaskId)
    requires OnePlaceEach(s) && LifeOk(s) && Live(s, t) && InTime(s, t)
    ensures Waiting(s.tasks[t])
  {
    assert Places(s, t) == 1;
    if t !in s.timers && t !in s.queue {
      assert multiset(s.queue)[t] == 0;
      var a := SumHasTerm(s.agents, Hands(t));
      assert AgentOk(s.tasks, s.agents[a]) && !Claims(s.agents[a], t);
    }
  }

  lemma AbortKeepsLife(s: State, t: TaskId)
    requires OnePlaceEach(s) && LifeOk(s) && Live(s, t) && InTime(s, t)
    ensures LifeOk(Do(s, Abort(t)))
  {
    var s' := Do(s, Abort(t));
    InTimeIsWaiting(s, t);
    forall a | 0 <= a < |s.agents|
      ensures AgentOk(s'.tasks, s.agents[a])
    {
      AbortedAgentLife(s, t, a);
    }
    forall a | 0 <= a < |s'.agents|
      ensures AgentOk(s'.tasks, s'.agents[a])
    {
      assert a < |s.agents| ==> s'.agents[a] == s.agents[a];
    }
    WaitingChanged(s, s', t);
  }

  /** A waiting task got another record that says it waits. */
  lemma WaitingChanged(s: State, s': State, t: TaskId)
    requires LifeOk(s) && t < |s.tasks| == |s'.tasks| && s'.tasks == s.tasks[t := s'.tasks[t]]
    requires Waiting(s'.tasks[t]) && Marked(s'.tasks[t]) && s'.queue == s.queue && s'.timers == s.timers
    requires forall a :: 0 <= a < |s'.agents| ==> AgentOk(s'.tasks, s'.agents[a])
    ensures LifeOk(s')
  {
  }

  /** A thread that is not past its abort test is content with an aborted task. */
  lemma AbortedAgentLife(s: State, t: TaskId, a: nat)
    requires LifeOk(s) && t < |s.tasks| && Waiting(s.tasks[t]) && InTime(s, t) && a < |s.agents|
    ensures var task := s.tasks[t];
            AgentOk(s.tasks[t := task.(status := ABORTED, aborts := task.aborts + 1)], s.agents[a])
  {
    assert AgentOk(s.tasks, s.agents[a]) && !Claims(s.agents[a], t);
  }

  lemma NewTaskLife(s: State, kind: Kind)
    requires LifeOk(s)
    ensures LifeOk(Make(s, kind)) && Waiting(Make(s, kind).tasks[|s.tasks|])
  {
    var tasks := Make(s, kind).tasks;
    assert forall t :: 0 <= t < |s.tasks| ==> tasks[t] == s.tasks[t];
    forall a | 0 <= a < |s.agents|
      ensures AgentOk(tasks, s.agents[a])
    {
      assert AgentOk(s.tasks, s.agents[a]);
    }
  }

  lemma CallKeepsLife(s: State, step: Step)
    requires Enabled(s, step) && !step.Advance? && !step.Abort? && LifeOk(s)
    ensures LifeOk(Do(s, step))
  {
    if Creates(step) {
      NewTaskLife(s, step.kind);
      CreatedLife(Make(s, step.kind), Do(s, step), |s.tasks|);
    } else {
      CallTasks(s, step);
      CallFrame(s, step);
      if StartsAgent(step) {
        StartedLife(s, step);
        SameTasksLife(s, Do(s, step), [Starts(s, step)]);
      } else {
        SameTasksLife(s, Do(s, step), []);
      }
    }
  }

  lemma StartedLife(s: State, step: Step)
    requires Enabled(s, step) && StartsAgent(step) && !step.Abort? && !step.Schedule? && LifeOk(s)
    ensures AgentOk(s.tasks, Starts(s, step))
  {
  }

  /** No record changed, nothing new is queued or on a timer, and new calls are in order. */
  lemma SameTasksLife(s: State, s': State, started: seq<Agent>)
    requires LifeOk(s) && s'.tasks == s.tasks && s'.queue == s.queue && s'.timers <= s.timers
    requires s'.agents == s.agents + started && forall i :: 0 <= i < |started| ==> AgentOk(s.tasks, started[i])
    ensures LifeOk(s')
  {
  }

  /** A new task sits on its timer or in the hands of the call that counts it. */
  lemma CreatedLife(made: State, s': State, t: TaskId)
    requires LifeOk(made) && t < |made.tasks| && Waiting(made.tasks[t])
    requires s'.tasks == made.tasks && s'.queue == made.queue
    requires s'.agents == made.agents || s'.agents == made.agents + [Agent(Counting(t), Vacant)]
    requires s'.timers == made.timers || s'.timers == made.timers + multiset{t}
    ensures LifeOk(s')
  {
  }

  lemma CallTasks(s: State, step: Step)
    requires Enabled(s, step) && !step.Advance? && !step.Abort? && !Creates(step)
    ensures Do(s, step).tasks == s.tasks
    ensures Do(s, step).timers == if step.Fire? then s.timers - multiset{step.task} else s.timers
  {
  }

  lemma StepKeepsLife(s: State, step: Step)
    requires Timely(s, step) && OnePlaceEach(s) && LifeOk(s)
    ensures LifeOk(Do(s, step))
  {
    if step.Advance? {
      if UsesSlot(s.agents[step.agent].pc) {
        RunTaskKeepsLife(s, step.agent, step.choice);
      } else {
        MoveTaskKeepsLife(s, step.agent, step.choice);
      }
    } else if step.Abort? {
      AbortKeepsLife(s, step.task);
    } else {
      CallKeepsLife(s, step);
    }
  }

  predicate Over(status: Status) {
    status.FINISHED? || status.ABORTED?
  }

  /** In such runs FINISHED and ABORTED are final. */
  lemma OverIsFinal(s: State, step: Step, t: TaskId)
    requires Timely(s, step) && OnePlaceEach(s) && LifeOk(s) && t < |s.tasks| && Over(s.tasks[t].status)
    ensures t < |Do(s, step).tasks| && Over(Do(s, step).tasks[t].status)
  {
    if step.Advance? && UsesSlot(s.agents[step.agent].pc) {
      RunTaskFrame(s, step.agent, step.choice);
      assert AgentOk(s.tasks, s.agents[step.agent]);
      if s.agents[step.agent].slot.task == t {
        OverSlotKept(s, step.agent, step.choice);
      }
    } else if step.Advance? {
      MoveTaskFrame(s, step.agent, step.choice);
    }
  }

  lemma OverSlotKept(s: State, a: nat, choice: Choice)
    requires CanAdvance(s, a) && UsesSlot(s.agents[a].pc) && AgentOk(s.tasks, s.agents[a])
    requires Over(s.tasks[s.agents[a].slot.task].status)
    ensures var t := s.agents[a].slot.task; var tasks := RunTask(s, a, choice).after.tasks;
            t < |tasks| && tasks[t].status == s.tasks[t].status
  {
  }
}
