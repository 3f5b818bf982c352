/**
 * The concurrent scheduler as a transition system: one program counter for every thread that
 * drains the queue, every call of scheduleAbstractTask in progress and every abort in progress.
 * Each load, store, counter update, queue operation and handler call is one step, so a run of
 * steps is one interleaving.
 */
module TaskScheduler {
  import opened Machine

  type TaskId = nat

  datatype Kind = Plain | Coroutine

  datatype Status = INACTIVE | CREATED | ACTIVE | PENDING | FINISHED | ABORTED

  /**
   * `started` says that a coroutine's body was entered. The last three fields are history: how
   * often the handler was entered or resumed, how often exit() began, how often abort() was called.
   */
  datatype Task = Task(kind: Kind, status: Status, started: bool, runs: nat, completions: nat, aborts: nat) {
    /** Plain tasks carry a non-empty Holder, coroutines an empty one. */
    predicate Holds() {
      kind.Plain?
    }
  }

  /** The next operation of a thread; comments give the operation it stands for. */
  datatype Pc =
    // a thread of the pool, between two calls of drainTasks
    | Outside
    | JoinTest                         // joinPool reads the hold count
    | Joined                           // joinPool returned
    | Ended                            // the thread or call is over
    // drainTasks
    | LoopHead                         // pop
    | Popped(task: TaskId)             // active count + 1
    | Activated(task: TaskId)          // task count - 1
    | Decremented(task: TaskId)        // put the task in the thread's slot
    | ReadAborted                      // status != ABORTED ?
    | ReadInactive                     // status == INACTIVE ?
    | CreateCheck                      // CoroutineTask::create reads the status
    | CreateStore                      // status := CREATED
    | ReadCreated                      // status == CREATED ?
    | ReadResumable                    // status == PENDING ?
    | EnterCheck                       // enter() reads the status
    | EnterStore                       // status := ACTIVE
    | BodyCheck                        // coroutine() reads the status
    | BodyStore                        // status := ACTIVE, then the handler starts
    | ResumeStore                      // yield() returns: status := ACTIVE
    | Running                          // inside the handler
    | YieldCheck                       // yield() reads the status
    | YieldStore                       // status := PENDING, then leave the coroutine
    | FinishStore                      // status := FINISHED
    | ReadPending                      // status == PENDING ?
    | ExitStart                        // exit() begins its loop over the completion handlers
    | Requeueing(task: TaskId)         // push
    | Requeued                         // task count + 1
    | Exiting(task: TaskId, todo: seq<nat>) // completion handlers still to be called
    | Deleting(task: TaskId)           // delete
    | Leaving                          // active count - 1
    | ReadPause                        // paused ?
    // scheduleAbstractTask and balanceThreads
    | Counting(task: TaskId)           // task count + 1
    | Pushing(task: TaskId)            // push
    | BalanceCount                     // task count > 0 ?
    | BalanceSize                      // pool size < maximum ?
    | AddThread                        // start a thread
    // abort, after its store
    | Aborting(task: TaskId)           // begin the loop over the cancellation handlers
    | Cancelling(todo: seq<nat>)       // cancellation handlers still to be called
    // TaskGroup::attach of a member
    | AttachRead(member: nat)          // status FINISHED or ABORTED ?
    | AttachCount(member: nat)         // finished count + 1
    | AttachCompletion(member: nat)    // add the completion handler
    | AttachCancellation(member: nat)  // add the cancellation handler

  /** A thread's own copy of the thread-specific current task. */
  datatype Slot = Vacant | Keeps(task: TaskId)

  datatype Agent = Agent(pc: Pc, slot: Slot)

  /** A handler of a member: not added, or added when its task's handlers had been called `before` times. */
  datatype Hook = Unhooked | Hooked(before: nat)

  /** History: how often exit() and abort() had begun to call handlers when attach read the status. */
  datatype Reading = Unread | Read(exits: nat, cancels: nat)

  /**
   * A member of the one task group under study. `counted` says that attach found its task over;
   * `signals` and `reading` are history: how often the member raised the shared counter.
   */
  datatype Member = Member(task: TaskId, counted: bool, completion: Hook, cancellation: Hook,
                           signals: nat, reading: Reading)

  /** A Holder object that lives outside any task. */
  datatype Holder = Full | Empty | Destroyed

  /**
   * The counters are kept as exact integers; the word in memory, which is all that the program
   * ever reads, is Wrap of the integer. `cancels` is history: how often abort() began its loop.
   */
  datatype State = State(
    tasks: seq<Task>,
    timers: multiset<TaskId>,
    queue: seq<TaskId>,
    agents: seq<Agent>,
    freed: multiset<TaskId>,
    taskCount: int,
    activeCount: int,
    holdCount: int,
    paused: bool,
    poolSize: nat,
    maxThreads: nat,
    holders: seq<Holder>,
    manual: nat,
    members: seq<Member>,
    finished: int,
    cancels: multiset<TaskId>)

  /** What the program decides where the scheduler does not. */
  datatype Choice = Go | Stop

  datatype Step =
    | Advance(agent: nat, choice: Choice)
    | Schedule(kind: Kind)             // scheduleTask, scheduleCoroutine
    | ScheduleLater(kind: Kind)        // the timed forms
    | Fire(task: TaskId)               // the timer expires or was cancelled
    | Abort(task: TaskId)
    | Start                            // start() calls balanceThreads
    | Pause
    | Resume
    | Hold
    | Release
    | MakeHolder
    | CopyHolder(holder: nat)
    | ResetHolder(holder: nat)
    | DropHolder(holder: nat)
    | Attach(task: TaskId)             // TaskGroup::push_back

  const MAIN: nat := 0

  predicate Init(s: State) {
    && s.tasks == [] && s.timers == multiset{} && s.queue == [] && s.freed == multiset{}
    && s.agents == [Agent(Outside, Vacant)]
    && s.taskCount == 0 && s.activeCount == 0 && s.holdCount == 0
    && s.poolSize == 0 && s.holders == [] && s.manual == 0
    && s.members == [] && s.finished == 0 && s.cancels == multiset{}
  }

  /** The operations that look at the task in the thread's slot. */
  predicate UsesSlot(pc: Pc) {
    || pc.ReadAborted? || pc.ReadInactive? || pc.CreateCheck? || pc.CreateStore? || pc.ReadCreated?
    || pc.ReadResumable? || pc.EnterCheck? || pc.EnterStore? || pc.BodyCheck? || pc.BodyStore?
    || pc.ResumeStore? || pc.Running? || pc.YieldCheck? || pc.YieldStore? || pc.FinishStore?
    || pc.ReadPending? || pc.ExitStart?
  }

  /** The operations of attach. */
  predicate Attaches(pc: Pc) {
    pc.AttachRead? || pc.AttachCount? || pc.AttachCompletion? || pc.AttachCancellation?
  }

  /** The handler of the slot's task is running on this thread, or is being entered or left by it. */
  predicate InHandler(pc: Pc) {
    pc.Running? || pc.YieldCheck? || pc.YieldStore? || pc.FinishStore?
  }

  /** A live task has been handed over and not been freed. */
  predicate Live(s: State, t: TaskId) {
    t < |s.tasks| && t !in s.freed
  }

  /** A thread that is not over can take its next step; what it works on exists. */
  predicate CanAdvance(s: State, a: nat) {
    && a < |s.agents|
    && (var Agent(pc, slot) := s.agents[a];
        && !pc.Joined? && !pc.Ended?
        && (slot.Keeps? ==> slot.task < |s.tasks|)
        && (UsesSlot(pc) ==> slot.Keeps?)
        && (pc.Deleting? ==> pc.task < |s.tasks|)
        && (pc.Exiting? && pc.todo != [] ==> pc.todo[0] < |s.members|)
        && (pc.Cancelling? && pc.todo != [] ==> pc.todo[0] < |s.members|)
        && (Attaches(pc) ==> pc.member < |s.members| && s.members[pc.member].task < |s.tasks|))
  }

  predicate Enabled(s: State, step: Step) {
    match step
    case Advance(a, _) => CanAdvance(s, a)
    case Fire(t) => t in s.timers
    case Abort(t) => Live(s, t)
    case Attach(t) => Live(s, t)
    case Release => s.manual > 0
    case CopyHolder(h) => h < |s.holders| && !s.holders[h].Destroyed?
    case ResetHolder(h) => h < |s.holders| && !s.holders[h].Destroyed?
    case DropHolder(h) => h < |s.holders| && !s.holders[h].Destroyed?
    case _ => true
  }

  function SetStatus(s: State, t: TaskId, status: Status): State
    requires t < |s.tasks|
  {
    s.(tasks := s.tasks[t := s.tasks[t].(status := status)])
  }

  /** Entering or resuming the handler of `t`. */
  function Run(s: State, t: TaskId): State
    requires t < |s.tasks|
  {
    var task := s.tasks[t];
    s.(tasks := s.tasks[t := task.(status := ACTIVE, started := true, runs := task.runs + 1)])
  }

  /** `delete`: the task's Holder is released, then its memory returned. */
  function Free(s: State, t: TaskId): State
    requires t < |s.tasks|
  {
    s.(freed := s.freed + multiset{t},
       holdCount := if s.tasks[t].Holds() then s.holdCount - 1 else s.holdCount)
  }

  /** thread_specific_ptr::reset: a previous, different task is deleted. */
  function FreeSlot(s: State, slot: Slot, next: Slot): State
    requires slot.Keeps? ==> slot.task < |s.tasks|
  {
    if slot.Vacant? || slot == next then s else Free(s, slot.task)
  }

  /** The completion handlers of the group on task `t`, by member, in the order in which they were added. */
  function CompletionsOf(members: seq<Member>, t: TaskId): seq<nat> {
    if members == [] then []
    else
      var n := |members| - 1;
      CompletionsOf(members[..n], t) + (if members[n].completion.Hooked? && members[n].task == t then [n] else [])
  }

  function CancellationsOf(members: seq<Member>, t: TaskId): seq<nat> {
    if members == [] then []
    else
      var n := |members| - 1;
      CancellationsOf(members[..n], t) + (if members[n].cancellation.Hooked? && members[n].task == t then [n] else [])
  }

  /** A handler of the group, or attach itself, adds one to the shared counter. */
  function Signal(s: State, i: nat): State
    requires i < |s.members|
  {
    s.(finished := s.finished + 1, members := s.members[i := s.members[i].(signals := s.members[i].signals + 1)])
  }

  function SetMember(s: State, i: nat, member: Member): State
    requires i < |s.members|
  {
    s.(members := s.members[i := member])
  }

  function Do(s: State, step: Step): State
    requires Enabled(s, step)
  {
    match step
    case Advance(a, choice) =>
      var turn := TurnOf(s, a, choice);
      var agents := s.agents[a := Agent(turn.pc, turn.slot)];
      turn.after.(agents := if s.agents[a].pc.AddThread? then agents + [Agent(Outside, Vacant)] else agents)
    case Schedule(kind) =>
      var made := Make(s, kind);
      made.(agents := made.agents + [Agent(Counting(|s.tasks|), Vacant)])
    case ScheduleLater(kind) =>
      var made := Make(s, kind);
      made.(timers := made.timers + multiset{|s.tasks|})
    case Fire(t) =>
      s.(timers := s.timers - multiset{t}, agents := s.agents + [Agent(Counting(t), Vacant)])
    case Abort(t) =>
      var task := s.tasks[t];
      s.(tasks := s.tasks[t := task.(status := ABORTED, aborts := task.aborts + 1)],
         agents := s.agents + [Agent(Aborting(t), Vacant)])
    case Start => s.(agents := s.agents + [Agent(BalanceCount, Vacant)])
    case Pause => s.(paused := true)
    case Resume => s.(paused := false)
    case Hold => s.(manual := s.manual + 1, holdCount := s.holdCount + 1)
    case Release => s.(manual := s.manual - 1, holdCount := s.holdCount - 1)
    case MakeHolder => s.(holders := s.holders + [Full], holdCount := s.holdCount + 1)
    case CopyHolder(h) =>
      s.(holders := s.holders + [s.holders[h]],
         holdCount := if s.holders[h].Full? then s.holdCount + 1 else s.holdCount)
    case ResetHolder(h) =>
      s.(holders := s.holders[h := Empty],
         holdCount := if s.holders[h].Full? then s.holdCount - 1 else s.holdCount)
    case DropHolder(h) =>
      s.(holders := s.holders[h := Destroyed],
         holdCount := if s.holders[h].Full? then s.holdCount - 1 else s.holdCount)
    case Attach(t) =>
      s.(members := s.members + [Member(t, false, Unhooked, Unhooked, 0, Unread)],
         agents := s.agents + [Agent(AttachRead(|s.members|), Vacant)])
  }

  /** The constructors of Task and CoroutineTask. */
  function Make(s: State, kind: Kind): State {
    s.(tasks := s.tasks + [Task(kind, INACTIVE, false, 0, 0, 0)],
       holdCount := if kind.Plain? then s.holdCount + 1 else s.holdCount)
  }

  /** One thread's step: its next operation and slot, and the rest of the state after it. */
  datatype Turn = Turn(pc: Pc, slot: Slot, after: State)

  /** The threads of the pool: between two calls of drainTasks and in its loop, outside the life cycle. */
  function PoolTurn(s: State, a: nat, choice: Choice): Turn
    requires CanAdvance(s, a)
  {
    var Agent(pc, slot) := s.agents[a];
    match pc
    case Outside =>
      if choice.Go? then Turn(if s.paused then Outside else LoopHead, slot, s)
      else if a == MAIN then Turn(JoinTest, slot, s)
      else Turn(Ended, Vacant, FreeSlot(s, slot, Vacant))
    case JoinTest => Turn(if Wrap(s.holdCount) == 0 then Joined else Outside, slot, s)
    case LoopHead =>
      if s.queue == [] then Turn(Outside, slot, s)
      else Turn(Popped(s.queue[0]), slot, s.(queue := s.queue[1..]))
    case Popped(t) => Turn(Activated(t), slot, s.(activeCount := s.activeCount + 1))
    case Activated(t) => Turn(Decremented(t), slot, s.(taskCount := s.taskCount - 1))
    case Decremented(t) => Turn(ReadAborted, Keeps(t), FreeSlot(s, slot, Keeps(t)))
    case Requeueing(t) => Turn(Requeued, slot, s.(queue := s.queue + [t]))
    case Requeued => Turn(Leaving, slot, s.(taskCount := s.taskCount + 1))
    case Exiting(t, todo) =>
      if todo == [] then Turn(Deleting(t), slot, s) else Turn(Exiting(t, todo[1..]), slot, Signal(s, todo[0]))
    case Deleting(t) => Turn(Leaving, slot, Free(s, t))
    case Leaving => Turn(ReadPause, slot, s.(activeCount := s.activeCount - 1))
    case ReadPause => Turn(if s.paused then Outside else LoopHead, slot, s)
    case _ => Turn(pc, slot, s)
  }

  /** The calls in progress: scheduleAbstractTask with balanceThreads, and abort. */
  predicate InCall(pc: Pc) {
    || pc.Counting? || pc.Pushing? || pc.BalanceCount? || pc.BalanceSize? || pc.AddThread?
    || pc.Aborting? || pc.Cancelling?
  }

  function CallTurn(s: State, a: nat): Turn
    requires CanAdvance(s, a) && InCall(s.agents[a].pc)
  {
    var Agent(pc, slot) := s.agents[a];
    match pc
    case Counting(t) => Turn(Pushing(t), slot, s.(taskCount := s.taskCount + 1))
    case Pushing(t) => Turn(BalanceCount, slot, s.(queue := s.queue + [t]))
    case BalanceCount => Turn(if Wrap(s.taskCount) > 0 then BalanceSize else Ended, slot, s)
    case BalanceSize => Turn(if s.poolSize < s.maxThreads then AddThread else Ended, slot, s)
    case AddThread => Turn(BalanceCount, slot, s.(poolSize := s.poolSize + 1))
    case Aborting(t) =>
      Turn(Cancelling(CancellationsOf(s.members, t)), slot, s.(cancels := s.cancels + multiset{t}))
    case Cancelling(todo) =>
      if todo == [] then Turn(Ended, slot, s) else Turn(Cancelling(todo[1..]), slot, Signal(s, todo[0]))
  }

  /** TaskGroup::attach: one read of the status, then the counter or the two handlers. */
  function AttachTurn(s: State, a: nat): Turn
    requires CanAdvance(s, a) && Attaches(s.agents[a].pc)
  {
    var Agent(pc, slot) := s.agents[a];
    var i := pc.member;
    var member := s.members[i];
    var task := s.tasks[member.task];
    match pc
    case AttachRead(_) =>
      var over := task.status.FINISHED? || task.status.ABORTED?;
      Turn(if over then AttachCount(i) else AttachCompletion(i), slot,
           SetMember(s, i, member.(reading := Read(task.completions, s.cancels[member.task]))))
    case AttachCount(_) => Turn(Ended, slot, Signal(SetMember(s, i, member.(counted := true)), i))
    case AttachCompletion(_) =>
      Turn(AttachCancellation(i), slot, SetMember(s, i, member.(completion := Hooked(task.completions))))
    case AttachCancellation(_) =>
      Turn(Ended, slot, SetMember(s, i, member.(cancellation := Hooked(s.cancels[member.task]))))
  }

  /** All operations outside the life cycle of the task in the slot. */
  function MoveTask(s: State, a: nat, choice: Choice): Turn
    requires CanAdvance(s, a)
  {
    var pc := s.agents[a].pc;
    if Attaches(pc) then AttachTurn(s, a) else if InCall(pc) then CallTurn(s, a) else PoolTurn(s, a, choice)
  }

  /** The life-cycle operations that only read the status of the task in the slot, and its handler. */
  function ReadTurn(s: State, a: nat, choice: Choice): Turn
    requires CanAdvance(s, a) && UsesSlot(s.agents[a].pc)
  {
    var Agent(pc, slot) := s.agents[a];
    var task := s.tasks[slot.task];
    match pc
    case ReadAborted => Turn(if task.status.ABORTED? then Leaving else ReadInactive, slot, s)
    case ReadInactive =>
      Turn(if !task.status.INACTIVE? then ReadCreated else if task.kind.Plain? then CreateStore else CreateCheck,
           slot, s)
    case CreateCheck => Turn(if task.status.ABORTED? then ReadCreated else CreateStore, slot, s)
    case ReadCreated => Turn(if task.status.CREATED? then EnterCheck else ReadResumable, slot, s)
    case ReadResumable => Turn(if task.status.PENDING? then EnterCheck else ReadPending, slot, s)
    case EnterCheck => Turn(if task.status.ABORTED? then ReadPending else EnterStore, slot, s)
    case BodyCheck => Turn(if task.status.ABORTED? then ReadPending else BodyStore, slot, s)
    case Running =>
      // A plain task cannot yield: the exception comes back into its handler.
      Turn(if choice.Stop? then FinishStore else if task.kind.Plain? then Running else YieldCheck, slot, s)
    case YieldCheck => Turn(if task.status.ABORTED? then Running else YieldStore, slot, s)
    case ReadPending =>
      if task.status.PENDING? then Turn(Requeueing(slot.task), Vacant, s) else Turn(ExitStart, slot, s)
    case _ => Turn(pc, slot, s)
  }

  /** The life-cycle operations that change the task in the slot. */
  predicate Stores(pc: Pc) {
    || pc.CreateStore? || pc.EnterStore? || pc.BodyStore? || pc.ResumeStore? || pc.YieldStore? || pc.FinishStore?
    || pc.ExitStart?
  }

  function StoreTurn(s: State, a: nat): Turn
    requires CanAdvance(s, a) && Stores(s.agents[a].pc)
  {
    var Agent(pc, slot) := s.agents[a];
    var t := slot.task;
    var task := s.tasks[t];
    match pc
    case CreateStore => Turn(ReadCreated, slot, SetStatus(s, t, CREATED))
    case EnterStore =>
      if task.kind.Plain? then Turn(Running, slot, Run(s, t))
      else Turn(if task.started then ResumeStore else BodyCheck, slot, SetStatus(s, t, ACTIVE))
    case BodyStore => Turn(Running, slot, Run(s, t))
    case ResumeStore => Turn(Running, slot, Run(s, t))
    case YieldStore => Turn(ReadPending, slot, SetStatus(s, t, PENDING))
    case FinishStore => Turn(ReadPending, slot, SetStatus(s, t, FINISHED))
    case ExitStart =>
      // release() and the beginning of exit().
      Turn(Exiting(t, CompletionsOf(s.members, t)), Vacant,
           s.(tasks := s.tasks[t := task.(completions := task.completions + 1)]))
  }

  function RunTask(s: State, a: nat, choice: Choice): Turn
    requires CanAdvance(s, a) && UsesSlot(s.agents[a].pc)
  {
    if Stores(s.agents[a].pc) then StoreTurn(s, a) else ReadTurn(s, a, choice)
  }

  function TurnOf(s: State, a: nat, choice: Choice): Turn
    requires CanAdvance(s, a)
  {
    if UsesSlot(s.agents[a].pc) then RunTask(s, a, choice) else MoveTask(s, a, choice)
  }

  /** A run: each step is enabled where it is taken. */
  ghost predicate Runs(s: State, steps: seq<Step>, s': State)
    decreases |steps|
  {
    if steps == [] then s == s'
    else Enabled(s, steps[0]) && Runs(Do(s, steps[0]), steps[1..], s')
  }
}
