/** What one step of a thread or call does to each part of the state, one part at a time. */
module SchedulerTurns {
  import opened TaskScheduler

  function One(b: bool): nat {
    if b then 1 else 0
  }

  /** A program counter that carries a task outside the slot. */
  predicate Carries(pc: Pc, t: TaskId) {
    match pc
    case Popped(u) => t == u
    case Activated(u) => t == u
    case Decremented(u) => t == u
    case Requeueing(u) => t == u
    case Exiting(u, _) => t == u
    case Deleting(u) => t == u
    case Counting(u) => t == u
    case Pushing(u) => t == u
    case _ => false
  }

  // ---- operations outside the life cycle

  lemma MoveTasks(s: State, a: nat, choice: Choice)
    requires CanAdvance(s, a) && !UsesSlot(s.agents[a].pc)
    ensures MoveTask(s, a, choice).after.tasks == s.tasks
  {
  }

  lemma MoveTimers(s: State, a: nat, choice: Choice)
    requires CanAdvance(s, a) && !UsesSlot(s.agents[a].pc)
    ensures MoveTask(s, a, choice).after.timers == s.timers
  {
  }

  lemma MoveQueue(s: State, a: nat, choice: Choice)
    requires CanAdvance(s, a) && !UsesSlot(s.agents[a].pc)
    ensures var pc := s.agents[a].pc;
            MoveTask(s, a, choice).after.queue
            == if pc.LoopHead? && s.queue != [] then s.queue[1..]
               else if pc.Requeueing? || pc.Pushing? then s.queue + [pc.task]
               else s.queue
  {
  }

  /** The task whose memory the step returns, if any. */
  function Freeing(s: State, a: nat, choice: Choice): Slot
    requires a < |s.agents|
  {
    var Agent(pc, slot) := s.agents[a];
    if pc.Deleting? then Keeps(pc.task)
    else if pc.Decremented? && slot != Keeps(pc.task) then slot
    else if pc.Outside? && choice.Stop? && a != MAIN then slot
    else Vacant
  }

  lemma MoveFreed(s: State, a: nat, choice: Choice)
    requires CanAdvance(s, a) && !UsesSlot(s.agents[a].pc)
    ensures var gone := Freeing(s, a, choice);
            MoveTask(s, a, choice).after.freed == s.freed + if gone.Keeps? then multiset{gone.task} else multiset{}
  {
  }

  lemma MoveSlot(s: State, a: nat, choice: Choice)
    requires CanAdvance(s, a) && !UsesSlot(s.agents[a].pc)
    ensures var Agent(pc, slot) := s.agents[a];
            MoveTask(s, a, choice).slot ==
              if pc.Decremented? then Keeps(pc.task)
              else if pc.Outside? && choice.Stop? && a != MAIN then Vacant
              else slot
  {
  }

  /** The one way into the life cycle. */
  lemma MoveToSlot(s: State, a: nat, choice: Choice)
    requires CanAdvance(s, a) && !UsesSlot(s.agents[a].pc)
    ensures var pc := MoveTask(s, a, choice).pc;
            if s.agents[a].pc.Decremented? then pc.ReadAborted? else !UsesSlot(pc)
  {
    if Attaches(s.agents[a].pc) {
      assert Attaches(AttachTurn(s, a).pc) || AttachTurn(s, a).pc.Ended?;
    } else if InCall(s.agents[a].pc) {
      assert InCall(CallTurn(s, a).pc) || CallTurn(s, a).pc.Ended?;
    }
  }

  lemma MoveCarries(s: State, a: nat, choice: Choice, t: TaskId)
    requires CanAdvance(s, a) && !UsesSlot(s.agents[a].pc)
    ensures var pc := s.agents[a].pc;
            One(Carries(MoveTask(s, a, choice).pc, t)) ==
              if pc.LoopHead? then One(s.queue != [] && s.queue[0] == t)
              else if pc.Decremented? || pc.Deleting? || pc.Requeueing? || pc.Pushing? then 0
              else One(Carries(pc, t))
  {
  }

  lemma MoveTaskCount(s: State, a: nat, choice: Choice)
    requires CanAdvance(s, a) && !UsesSlot(s.agents[a].pc)
    ensures var pc := s.agents[a].pc;
            MoveTask(s, a, choice).after.taskCount
            == s.taskCount + if pc.Activated? then -1 else if pc.Counting? || pc.Requeued? then 1 else 0
  {
  }

  lemma MoveActiveCount(s: State, a: nat, choice: Choice)
    requires CanAdvance(s, a) && !UsesSlot(s.agents[a].pc)
    ensures var pc := s.agents[a].pc;
            MoveTask(s, a, choice).after.activeCount
            == s.activeCount + if pc.Popped? then 1 else if pc.Leaving? then -1 else 0
  {
  }

  /** Deleting a task with a Holder releases its hold. */
  lemma MoveHoldCount(s: State, a: nat, choice: Choice)
    requires CanAdvance(s, a) && !UsesSlot(s.agents[a].pc)
    ensures var gone := Freeing(s, a, choice);
            (gone.Keeps? ==> gone.task < |s.tasks|)
            && MoveTask(s, a, choice).after.holdCount == s.holdCount - One(gone.Keeps? && s.tasks[gone.task].Holds())
  {
  }

  lemma MoveHolders(s: State, a: nat, choice: Choice)
    requires CanAdvance(s, a) && !UsesSlot(s.agents[a].pc)
    ensures var after := MoveTask(s, a, choice).after; after.holders == s.holders && after.manual == s.manual
  {
  }

  lemma MovePool(s: State, a: nat, choice: Choice)
    requires CanAdvance(s, a) && !UsesSlot(s.agents[a].pc)
    ensures var after := MoveTask(s, a, choice).after;
            after.poolSize == s.poolSize + One(s.agents[a].pc.AddThread?) && after.maxThreads == s.maxThreads
  {
  }

  lemma MoveCancels(s: State, a: nat, choice: Choice)
    requires CanAdvance(s, a) && !UsesSlot(s.agents[a].pc)
    ensures var pc := s.agents[a].pc;
            MoveTask(s, a, choice).after.cancels == s.cancels + if pc.Aborting? then multiset{pc.task} else multiset{}
  {
  }

  // ---- life-cycle operations

  lemma RunSlot(s: State, a: nat, choice: Choice)
    requires CanAdvance(s, a) && UsesSlot(s.agents[a].pc)
    ensures var turn := RunTask(s, a, choice); UsesSlot(turn.pc) ==> turn.slot == s.agents[a].slot
  {
  }

  /** The task stays in the thread's hands. */
  lemma RunHands(s: State, a: nat, choice: Choice, t: TaskId)
    requires CanAdvance(s, a) && UsesSlot(s.agents[a].pc)
    ensures var turn := RunTask(s, a, choice);
            One(Carries(turn.pc, t)) + One(turn.slot == Keeps(t)) == One(s.agents[a].slot == Keeps(t))
  {
  }

  lemma RunTouches(s: State, a: nat, choice: Choice)
    requires CanAdvance(s, a) && UsesSlot(s.agents[a].pc)
    ensures var turn := RunTask(s, a, choice); turn.after == s.(tasks := turn.after.tasks)
  {
  }

  lemma RunTasks(s: State, a: nat, choice: Choice)
    requires CanAdvance(s, a) && UsesSlot(s.agents[a].pc)
    ensures var tasks := RunTask(s, a, choice).after.tasks; var t := s.agents[a].slot.task;
            && |tasks| == |s.tasks| && tasks == s.tasks[t := tasks[t]]
            && tasks[t].kind == s.tasks[t].kind && tasks[t].aborts == s.tasks[t].aborts
  {
  }

  /** exit() is counted where it begins. */
  lemma RunCompletions(s: State, a: nat, choice: Choice)
    requires CanAdvance(s, a) && UsesSlot(s.agents[a].pc)
    ensures var turn := RunTask(s, a, choice); var t := s.agents[a].slot.task;
            && t < |turn.after.tasks|
            && turn.after.tasks[t].completions == s.tasks[t].completions + One(s.agents[a].pc.ExitStart?)
  {
  }
}
