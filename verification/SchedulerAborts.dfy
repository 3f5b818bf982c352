/** When abort() takes effect: exactly while no thread is past its abort test for the task. */
module SchedulerAborts {
  import opened Machine
  import opened TaskScheduler
  import opened SchedulerTurns
  import opened SchedulerPlaces

  /** A thread that has read a status other than ABORTED for `t` and is still working on it. */
  predicate Claims(agent: Agent, t: TaskId) {
    UsesSlot(agent.pc) && !agent.pc.ReadAborted? && agent.slot == Keeps(t)
  }

  ghost predicate Claimed(s: State, t: TaskId) {
    exists a :: 0 <= a < |s.agents| && Claims(s.agents[a], t)
  }

  ghost predicate Suppressed(s: State, t: TaskId) {
    t < |s.tasks| && s.tasks[t].status.ABORTED? && !Claimed(s, t)
  }

  /** The handler and the completion handlers of `t` stand where they stood. */
  predicate Untouched(s: State, s': State, t: TaskId) {
    && t < |s.tasks| && t < |s'.tasks|
    && s'.tasks[t].runs == s.tasks[t].runs && s'.tasks[t].completions == s.tasks[t].completions
  }

  lemma MoveTaskClaims(s: State, a: nat, choice: Choice, t: TaskId)
    requires CanAdvance(s, a) && !UsesSlot(s.agents[a].pc)
    ensures var turn := MoveTask(s, a, choice); !Claims(Agent(turn.pc, turn.slot), t)
  {
    MoveToSlot(s, a, choice);
  }

  lemma RunTaskClaims(s: State, a: nat, choice: Choice, t: TaskId)
    requires CanAdvance(s, a) && UsesSlot(s.agents[a].pc) && !Claims(s.agents[a], t)
    requires t < |s.tasks| && s.tasks[t].status.ABORTED?
    ensures var turn := RunTask(s, a, choice);
            !Claims(Agent(turn.pc, turn.slot), t) && t < |turn.after.tasks| && turn.after.tasks[t] == s.tasks[t]
  {
  }

  lemma StepKeepsSuppressed(s: State, step: Step, t: TaskId)
    requires Enabled(s, step) && Suppressed(s, t)
    ensures Suppressed(Do(s, step), t) && Untouched(s, Do(s, step), t)
  {
    var s' := Do(s, step);
    if step.Advance? {
      var a, choice := step.agent, step.choice;
      if UsesSlot(s.agents[a].pc) {
        RunTaskClaims(s, a, choice, t);
      } else {
        MoveTaskFrame(s, a, choice);
        MoveTaskClaims(s, a, choice, t);
      }
      var turn := TurnOf(s, a, choice);
      assert forall b :: 0 <= b < |s.agents| ==> s'.agents[b] == if b == a then Agent(turn.pc, turn.slot) else s.agents[b];
      assert forall b :: |s.agents| <= b < |s'.agents| ==> s'.agents[b] == Agent(Outside, Vacant);
    } else {
      CallFrame(s, step);
    }
  }

  lemma {:induction false} RunKeepsSuppressed(s: State, steps: seq<Step>, s': State, t: TaskId)
    requires Suppressed(s, t) && Runs(s, steps, s')
    ensures Suppressed(s', t) && Untouched(s, s', t)
    decreases |steps|
  {
    if steps != [] {
      StepKeepsSuppressed(s, steps[0], t);
      RunKeepsSuppressed(Do(s, steps[0]), steps[1..], s', t);
    }
  }

  /**
   * A task aborted while no thread is past its abort test (on its timer, queued, just popped)
   * never has its handler entered or resumed again and never fires completion handlers,
   * whatever the threads do afterwards.
   */
  lemma AbortInTimeIsFinal(s: State, t: TaskId, steps: seq<Step>, s': State)
    requires Live(s, t) && !Claimed(s, t) && Runs(Do(s, Abort(t)), steps, s')
    ensures Untouched(s, s', t) && s'.tasks[t].status.ABORTED?
  {
    var aborted := Do(s, Abort(t));
    assert forall a :: 0 <= a < |s.agents| ==> aborted.agents[a] == s.agents[a];
    RunKeepsSuppressed(aborted, steps, s', t);
  }

  /** How many steps a thread is from the point where an abort it has overlooked shows. */
  function Ahead(pc: Pc): nat {
    match pc
    case ReadInactive => 5
    case CreateCheck => 5
    case ReadCreated => 4
    case ReadResumable => 3
    case EnterCheck => 3
    case BodyCheck => 3
    case YieldCheck => 3
    case ReadPending => 2
    case Running => 2
    case _ => 1
  }

  /** The abort was lost: overwritten by a later status, or followed by the completion handlers. */
  predicate AbortLost(s: State, s': State, t: TaskId) {
    t < |s.tasks| && t < |s'.tasks|
    && (!s'.tasks[t].status.ABORTED? || s'.tasks[t].completions > s.tasks[t].completions)
  }

  lemma TooLateStep(s: State, a: nat, t: TaskId)
    requires CanAdvance(s, a) && Claims(s.agents[a], t) && s.tasks[t].status.ABORTED?
    ensures var s' := Do(s, Advance(a, Stop));
            || AbortLost(s, s', t)
            || (t < |s'.tasks| && s'.tasks[t] == s.tasks[t] && a < |s'.agents| && Claims(s'.agents[a], t)
                && Ahead(s'.agents[a].pc) < Ahead(s.agents[a].pc) && CanAdvance(s', a))
  {
    if Stores(s.agents[a].pc) {
      TooLateStore(s, a, t);
    }
  }

  lemma TooLateStore(s: State, a: nat, t: TaskId)
    requires CanAdvance(s, a) && Claims(s.agents[a], t) && s.tasks[t].status.ABORTED? && Stores(s.agents[a].pc)
    ensures AbortLost(s, Do(s, Advance(a, Stop)), t)
  {
  }

  /** Once a thread is past its abort test there are continuations in which the abort is lost. */
  lemma {:induction false} TooLate(s: State, a: nat, t: TaskId) returns (steps: seq<Step>, s': State)
    requires CanAdvance(s, a) && Claims(s.agents[a], t) && s.tasks[t].status.ABORTED?
    ensures Runs(s, steps, s') && AbortLost(s, s', t)
    decreases Ahead(s.agents[a].pc)
  {
    var step := Advance(a, Stop);
    s' := Do(s, step);
    TooLateStep(s, a, t);
    if AbortLost(s, s', t) {
      steps := [step];
      assert steps[1..] == [];
    } else {
      var next := s';
      steps, s' := TooLate(next, a, t);
      assert ([step] + steps)[1..] == steps;
      steps := [step] + steps;
    }
  }

  /** In every continuation of the abort of `t` the abort stands. */
  ghost predicate AbortStands(s: State, t: TaskId)
    requires Live(s, t)
  {
    forall steps, s' :: Runs(Do(s, Abort(t)), steps, s') ==> !AbortLost(s, s', t)
  }

  /** The two cases together: an abort stands in every continuation exactly when no thread had passed its test. */
  lemma AbortStandsExactlyInTime(s: State, t: TaskId)
    requires PlacesInv(s) && Live(s, t)
    ensures AbortStands(s, t) <==> !Claimed(s, t)
  {
    var aborted := Do(s, Abort(t));
    if Claimed(s, t) {
      var a :| 0 <= a < |s.agents| && Claims(s.agents[a], t);
      assert aborted.agents[a] == s.agents[a];
      StepKeepsPlaces(s, Abort(t));
      SlotCanStep(aborted, a);
      var steps, s' := TooLate(aborted, a, t);
      assert Runs(aborted, steps, s') && AbortLost(s, s', t);
      assert !AbortStands(s, t);
    } else {
      forall steps, s' | Runs(aborted, steps, s')
        ensures !AbortLost(s, s', t)
      {
        AbortInTimeIsFinal(s, t, steps, s');
      }
    }
  }
}
