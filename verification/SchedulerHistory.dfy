/** What the calls and steps of a run add up to, counted from the run itself. */
module SchedulerHistory {
  import opened Machine
  import opened TaskScheduler
  import opened SchedulerTurns
  import opened SchedulerPlaces

  // ---- holds

  /** Calls of hold() less calls of release(). */
  function OpenHolds(steps: seq<Step>): int {
    if steps == [] then 0
    else (if steps[0].Hold? then 1 else if steps[0].Release? then -1 else 0) + OpenHolds(steps[1..])
  }

  /** The Holder objects that a program has after these steps: a copy holds exactly if its original does. */
  function HoldersAfter(holders: seq<Holder>, steps: seq<Step>): seq<Holder>
    decreases |steps|
  {
    if steps == [] then holders
    else
      var now :=
        match steps[0]
        case MakeHolder => holders + [Full]
        case CopyHolder(h) => if h < |holders| then holders + [holders[h]] else holders
        case ResetHolder(h) => if h < |holders| then holders[h := Empty] else holders
        case DropHolder(h) => if h < |holders| then holders[h := Destroyed] else holders
        case _ => holders;
      HoldersAfter(now, steps[1..])
  }

  lemma AdvanceHolds(s: State, a: nat, choice: Choice)
    requires CanAdvance(s, a)
    ensures Do(s, Advance(a, choice)).manual == s.manual && Do(s, Advance(a, choice)).holders == s.holders
  {
    if UsesSlot(s.agents[a].pc) {
      RunTaskFrame(s, a, choice);
    } else {
      MoveHolders(s, a, choice);
    }
  }

  lemma {:induction false} HoldsAreCounted(s: State, steps: seq<Step>, s': State)
    requires Runs(s, steps, s')
    ensures s'.manual == s.manual + OpenHolds(steps)
    decreases |steps|
  {
    if steps != [] {
      if steps[0].Advance? {
        AdvanceHolds(s, steps[0].agent, steps[0].choice);
      }
      HoldsAreCounted(Do(s, steps[0]), steps[1..], s');
    }
  }

  lemma {:induction false} HoldersAreReplayed(s: State, steps: seq<Step>, s': State)
    requires Runs(s, steps, s')
    ensures s'.holders == HoldersAfter(s.holders, steps)
    decreases |steps|
  {
    if steps != [] {
      if steps[0].Advance? {
        AdvanceHolds(s, steps[0].agent, steps[0].choice);
      }
      HoldersAreReplayed(Do(s, steps[0]), steps[1..], s');
    }
  }

  // ---- scheduled tasks and timers

  /** The kinds of the tasks scheduled, in order. */
  function Scheduled(steps: seq<Step>): seq<Kind> {
    if steps == [] then []
    else (if Creates(steps[0]) then [steps[0].kind] else []) + Scheduled(steps[1..])
  }

  function Kinds(tasks: seq<Task>): seq<Kind> {
    seq(|tasks|, t requires 0 <= t < |tasks| => tasks[t].kind)
  }

  lemma KindsGrow(s: State, step: Step)
    requires Enabled(s, step)
    ensures Kinds(Do(s, step).tasks) == Kinds(s.tasks) + if Creates(step) then [step.kind] else []
  {
    TaskTable(s, step);
  }

  lemma {:induction false} TasksAreTheScheduled(s: State, steps: seq<Step>, s': State)
    requires Runs(s, steps, s')
    ensures Kinds(s'.tasks) == Kinds(s.tasks) + Scheduled(steps)
    decreases |steps|
  {
    if steps != [] {
      KindsGrow(s, steps[0]);
      TasksAreTheScheduled(Do(s, steps[0]), steps[1..], s');
    }
  }

  /** How often a timer was set for task `t` less how often it fired; `next` is the number of the next task. */
  function TimersOf(steps: seq<Step>, next: nat, t: TaskId): int
    decreases |steps|
  {
    if steps == [] then 0
    else
      One(steps[0].ScheduleLater? && t == next) - One(steps[0].Fire? && steps[0].task == t)
      + TimersOf(steps[1..], next + One(Creates(steps[0])), t)
  }

  lemma StepTimers(s: State, step: Step, t: TaskId)
    requires Enabled(s, step)
    ensures Do(s, step).timers[t] == s.timers[t] + One(step.ScheduleLater? && t == |s.tasks|) - One(step.Fire? && step.task == t)
  {
    if step.Advance? {
      if UsesSlot(s.agents[step.agent].pc) {
        RunTaskFrame(s, step.agent, step.choice);
      } else {
        MoveTimers(s, step.agent, step.choice);
      }
    }
  }

  lemma {:induction false} TimersAreTheDelayed(s: State, steps: seq<Step>, s': State, t: TaskId)
    requires Runs(s, steps, s')
    ensures s'.timers[t] == s.timers[t] + TimersOf(steps, |s.tasks|, t)
    decreases |steps|
  {
    if steps != [] {
      StepTimers(s, steps[0], t);
      TaskTable(s, steps[0]);
      TimersAreTheDelayed(Do(s, steps[0]), steps[1..], s', t);
    }
  }

  // ---- aborts and their loops

  function AbortCalls(steps: seq<Step>, t: TaskId): nat {
    if steps == [] then 0 else One(steps[0].Abort? && steps[0].task == t) + AbortCalls(steps[1..], t)
  }

  function AbortsOf(s: State, t: TaskId): nat {
    if t < |s.tasks| then s.tasks[t].aborts else 0
  }

  lemma StepAborts(s: State, step: Step, t: TaskId)
    requires Enabled(s, step)
    ensures AbortsOf(Do(s, step), t) == AbortsOf(s, t) + One(step.Abort? && step.task == t)
  {
    if step.Advance? {
      if UsesSlot(s.agents[step.agent].pc) {
        RunTaskFrame(s, step.agent, step.choice);
      } else {
        MoveTasks(s, step.agent, step.choice);
      }
    }
  }

  lemma {:induction false} AbortsAreCounted(s: State, steps: seq<Step>, s': State, t: TaskId)
    requires Runs(s, steps, s')
    ensures AbortsOf(s', t) == AbortsOf(s, t) + AbortCalls(steps, t)
    decreases |steps|
  {
    if steps != [] {
      StepAborts(s, steps[0], t);
      AbortsAreCounted(Do(s, steps[0]), steps[1..], s', t);
    }
  }

  /** The agent that takes the step is at the beginning of the loop of an abort of `t`. */
  predicate BeginsAbortLoop(s: State, step: Step, t: TaskId) {
    step.Advance? && step.agent < |s.agents| && s.agents[step.agent].pc == Aborting(t)
  }

  ghost function AbortLoops(s: State, steps: seq<Step>, t: TaskId): nat
    decreases |steps|
  {
    if steps == [] || !Enabled(s, steps[0]) then 0
    else One(BeginsAbortLoop(s, steps[0], t)) + AbortLoops(Do(s, steps[0]), steps[1..], t)
  }

  lemma StepAbortLoops(s: State, step: Step, t: TaskId)
    requires Enabled(s, step)
    ensures Do(s, step).cancels[t] == s.cancels[t] + One(BeginsAbortLoop(s, step, t))
  {
    if step.Advance? {
      if UsesSlot(s.agents[step.agent].pc) {
        RunTaskFrame(s, step.agent, step.choice);
      } else {
        MoveCancels(s, step.agent, step.choice);
      }
    }
  }

  lemma {:induction false} AbortLoopsAreCounted(s: State, steps: seq<Step>, s': State, t: TaskId)
    requires Runs(s, steps, s')
    ensures s'.cancels[t] == s.cancels[t] + AbortLoops(s, steps, t)
    decreases |steps|
  {
    if steps != [] {
      StepAbortLoops(s, steps[0], t);
      AbortLoopsAreCounted(Do(s, steps[0]), steps[1..], s', t);
    }
  }

  // ---- the queue

  /** What a step pushes: the task that a thread or call is about to push when it takes the step. */
  function Pushed(s: State, step: Step): seq<TaskId> {
    if step.Advance? && step.agent < |s.agents| then
      match s.agents[step.agent].pc
      case Pushing(t) => [t]
      case Requeueing(t) => [t]
      case _ => []
    else []
  }

  /** What a step pops: the task with which a thread comes out of the head of the loop. */
  function Taken(s: State, step: Step): seq<TaskId>
    requires Enabled(s, step)
  {
    if step.Advance? && s.agents[step.agent].pc.LoopHead? then
      match Do(s, step).agents[step.agent].pc
      case Popped(t) => [t]
      case _ => []
    else []
  }

  ghost function AllPushed(s: State, steps: seq<Step>): seq<TaskId>
    decreases |steps|
  {
    if steps == [] || !Enabled(s, steps[0]) then []
    else Pushed(s, steps[0]) + AllPushed(Do(s, steps[0]), steps[1..])
  }

  ghost function AllTaken(s: State, steps: seq<Step>): seq<TaskId>
    decreases |steps|
  {
    if steps == [] || !Enabled(s, steps[0]) then []
    else Taken(s, steps[0]) + AllTaken(Do(s, steps[0]), steps[1..])
  }

  lemma StepQueues(s: State, step: Step)
    requires Enabled(s, step)
    ensures s.queue + Pushed(s, step) == Taken(s, step) + Do(s, step).queue
  {
    TakesTheFirst(s, step);
    QueueAfter(s, step);
  }

  predicate Pops(s: State, step: Step) {
    step.Advance? && step.agent < |s.agents| && s.agents[step.agent].pc.LoopHead? && s.queue != []
  }

  lemma QueueAfter(s: State, step: Step)
    requires Enabled(s, step)
    ensures Do(s, step).queue == if Pops(s, step) then s.queue[1..] else s.queue + Pushed(s, step)
  {
    if !step.Advance? {
      CallFrame(s, step);
    } else if UsesSlot(s.agents[step.agent].pc) {
      RunTaskFrame(s, step.agent, step.choice);
    } else {
      MoveQueue(s, step.agent, step.choice);
    }
  }

  lemma TakesTheFirst(s: State, step: Step)
    requires Enabled(s, step)
    ensures Taken(s, step) == if Pops(s, step) then [s.queue[0]] else []
  {
    if step.Advance? && s.agents[step.agent].pc.LoopHead? {
      PopsTheFirst(s, step.agent, step.choice);
    }
  }

  lemma PopsTheFirst(s: State, a: nat, choice: Choice)
    requires CanAdvance(s, a) && s.agents[a].pc.LoopHead?
    ensures Do(s, Advance(a, choice)).agents[a].pc == if s.queue == [] then Outside else Popped(s.queue[0])
  {
  }

  /** First in, first out, over every run: what was queued and pushed is what was popped and is queued, in order. */
  lemma {:induction false} FirstInFirstOut(s: State, steps: seq<Step>, s': State)
    requires Runs(s, steps, s')
    ensures s.queue + AllPushed(s, steps) == AllTaken(s, steps) + s'.queue
    decreases |steps|
  {
    if steps != [] {
      var m := Do(s, steps[0]);
      StepQueues(s, steps[0]);
      FirstInFirstOut(m, steps[1..], s');
      Regroup(s.queue, Pushed(s, steps[0]), AllPushed(m, steps[1..]), Taken(s, steps[0]), m.queue,
              AllTaken(m, steps[1..]), s'.queue);
    }
  }

  lemma Regroup(queue: seq<TaskId>, pushed: seq<TaskId>, later: seq<TaskId>, taken: seq<TaskId>, middle: seq<TaskId>,
                next: seq<TaskId>, last: seq<TaskId>)
    requires queue + pushed == taken + middle && middle + later == next + last
    ensures queue + (pushed + later) == (taken + next) + last
  {
    assert queue + (pushed + later) == (queue + pushed) + later;
    assert (taken + middle) + later == taken + (middle + later);
    assert taken + (next + last) == (taken + next) + last;
  }

  // ---- pausing

  /** What the last call of pause() or resume() asked for. */
  function PausedAfter(paused: bool, steps: seq<Step>): bool
    decreases |steps|
  {
    if steps == [] then paused
    else PausedAfter(if steps[0].Pause? then true else if steps[0].Resume? then false else paused, steps[1..])
  }

  lemma AdvancePaused(s: State, a: nat, choice: Choice)
    requires CanAdvance(s, a)
    ensures Do(s, Advance(a, choice)).paused == s.paused
  {
    if UsesSlot(s.agents[a].pc) {
      RunTaskFrame(s, a, choice);
    }
  }

  lemma {:induction false} PausedAsAsked(s: State, steps: seq<Step>, s': State)
    requires Runs(s, steps, s')
    ensures s'.paused == PausedAfter(s.paused, steps)
    decreases |steps|
  {
    if steps != [] {
      if steps[0].Advance? {
        AdvancePaused(s, steps[0].agent, steps[0].choice);
      }
      PausedAsAsked(Do(s, steps[0]), steps[1..], s');
    }
  }

  function AtHead(): Agent -> int {
    (agent: Agent) => One(agent.pc.LoopHead?)
  }

  lemma PausedTurn(s: State, a: nat, choice: Choice)
    requires CanAdvance(s, a) && s.paused
    ensures !TurnOf(s, a, choice).pc.LoopHead? && Do(s, Advance(a, choice)).paused
  {
    if UsesSlot(s.agents[a].pc) {
      RunTaskFrame(s, a, choice);
    }
  }

  lemma PausedStep(s: State, step: Step)
    requires Enabled(s, step) && s.paused && !step.Resume?
    ensures Do(s, step).paused
    ensures |Taken(s, step)| + Sum(Do(s, step).agents, AtHead()) <= Sum(s.agents, AtHead())
  {
    if step.Advance? {
      AdvanceSum(s, step.agent, step.choice, AtHead());
      PausedTurn(s, step.agent, step.choice);
    } else {
      CallFrame(s, step);
      if StartsAgent(step) {
        SumAppend(s.agents, Starts(s, step), AtHead());
      }
    }
  }

  /** While tasks are paused no task is popped but by the threads that were just about to pop one, one for each. */
  lemma {:induction false} PausedPopsNoMore(s: State, steps: seq<Step>, s': State)
    requires Runs(s, steps, s') && s.paused && forall i :: 0 <= i < |steps| ==> !steps[i].Resume?
    ensures s'.paused && |AllTaken(s, steps)| + Sum(s'.agents, AtHead()) <= Sum(s.agents, AtHead())
    decreases |steps|
  {
    if steps != [] {
      PausedStep(s, steps[0]);
      assert forall i :: 0 <= i < |steps[1..]| ==> steps[1..][i] == steps[i + 1];
      PausedPopsNoMore(Do(s, steps[0]), steps[1..], s');
    }
  }
}
