/**
 * Aborted tasks parked in a thread's slot: drainTasks leaves them there until the next pop, and they
 * keep their hold. When nothing else is left, they alone decide whether joinPool returns.
 */
module SchedulerParking {
  import opened Machine
  import opened TaskScheduler
  import opened SchedulerTurns
  import opened SchedulerPlaces
  import opened SchedulerHistory
  import opened SchedulerHolds

  /** The thread has left a task in its slot. */
  predicate Parks(agent: Agent) {
    !UsesSlot(agent.pc) && agent.slot.Keeps?
  }

  predicate ParkedAborted(s: State, a: nat)
    requires a < |s.agents|
  {
    Parks(s.agents[a]) ==> s.agents[a].slot.task < |s.tasks| && s.tasks[s.agents[a].slot.task].status.ABORTED?
  }

  ghost predicate AllParkedAborted(s: State) {
    forall a {:trigger ParkedAborted(s, a)} :: 0 <= a < |s.agents| ==> ParkedAborted(s, a)
  }

  /** Only the abort test leaves a task in the slot. */
  lemma RunParks(s: State, a: nat, choice: Choice)
    requires CanAdvance(s, a) && UsesSlot(s.agents[a].pc)
    ensures var turn := RunTask(s, a, choice);
            Parks(Agent(turn.pc, turn.slot)) ==>
              turn.after == s && turn.slot == s.agents[a].slot && s.tasks[turn.slot.task].status.ABORTED?
  {
  }

  lemma RunKeepsParked(s: State, a: nat, choice: Choice, b: nat)
    requires CanAdvance(s, a) && UsesSlot(s.agents[a].pc) && PlacesInv(s) && AllParkedAborted(s)
    requires b < |Do(s, Advance(a, choice)).agents|
    ensures ParkedAborted(Do(s, Advance(a, choice)), b)
  {
    var t := s.agents[a].slot.task;
    RunTaskFrame(s, a, choice);
    if b == a {
      RunParks(s, a, choice);
    } else if b < |s.agents| {
      assert ParkedAborted(s, b);
      assert Hands(t)(s.agents[a]) > 0;
      HandsExclusive(s, a, t);
    }
  }

  lemma MoveKeepsParked(s: State, a: nat, choice: Choice, b: nat)
    requires CanAdvance(s, a) && !UsesSlot(s.agents[a].pc) && AllParkedAborted(s)
    requires b < |Do(s, Advance(a, choice)).agents|
    ensures ParkedAborted(Do(s, Advance(a, choice)), b)
  {
    MoveTasks(s, a, choice);
    MoveSlot(s, a, choice);
    MoveToSlot(s, a, choice);
    assert b < |s.agents| ==> ParkedAborted(s, b);
  }

  lemma CallStatus(s: State, step: Step, t: TaskId)
    requires Enabled(s, step) && !step.Advance? && t < |s.tasks|
    ensures t < |Do(s, step).tasks|
    ensures Do(s, step).tasks[t].status == (if step.Abort? && step.task == t then ABORTED else s.tasks[t].status)
  {
  }

  lemma StepKeepsParked(s: State, step: Step)
    requires Enabled(s, step) && PlacesInv(s) && AllParkedAborted(s)
    ensures AllParkedAborted(Do(s, step))
  {
    var s' := Do(s, step);
    forall b | 0 <= b < |s'.agents|
      ensures ParkedAborted(s', b)
    {
      if !step.Advance? {
        CallFrame(s, step);
        if b < |s.agents| {
          assert ParkedAborted(s, b);
          if Parks(s.agents[b]) {
            CallStatus(s, step, s.agents[b].slot.task);
          }
        }
      } else if UsesSlot(s.agents[step.agent].pc) {
        RunKeepsParked(s, step.agent, step.choice, b);
      } else {
        MoveKeepsParked(s, step.agent, step.choice, b);
      }
    }
  }

  lemma {:induction false} RunsKeepParked(s: State, steps: seq<Step>, s': State)
    requires Runs(s, steps, s') && PlacesInv(s) && AllParkedAborted(s)
    ensures PlacesInv(s') && AllParkedAborted(s')
    decreases |steps|
  {
    if steps != [] {
      StepKeepsParked(s, steps[0]);
      StepKeepsPlaces(s, steps[0]);
      RunsKeepParked(Do(s, steps[0]), steps[1..], s');
    }
  }

  /** In every reachable state a task that lies in a slot outside its thread's life-cycle code was aborted. */
  lemma ParkedTasksAreAborted(s: State, steps: seq<Step>, s': State, a: nat)
    requires Init(s) && Runs(s, steps, s') && a < |s'.agents| && Parks(s'.agents[a])
    ensures var t := s'.agents[a].slot.task;
            t < |s'.tasks| && t !in s'.freed && s'.tasks[t].status.ABORTED?
  {
    InitPlaces(s);
    assert ParkedAborted(s, 0);
    RunsKeepParked(s, steps, s');
    assert ParkedAborted(s', a);
    HandsExclusive(s', a, s'.agents[a].slot.task);
  }

  // ---- joinPool when nothing else is left

  /** The thread is not working on a task. */
  ghost predicate Resting(agent: Agent) {
    !UsesSlot(agent.pc) && forall t: TaskId :: !Carries(agent.pc, t)
  }

  /** No task is left to run and nobody works on one. */
  ghost predicate NothingLeft(s: State) {
    s.queue == [] && s.timers == multiset{} && forall a :: 0 <= a < |s.agents| ==> Resting(s.agents[a])
  }

  /** The program has released what it held; only tasks hold the pool. */
  ghost predicate NothingHeld(steps: seq<Step>) {
    OpenHolds(steps) == 0 && forall h :: 0 <= h < |HoldersAfter([], steps)| ==> !HoldersAfter([], steps)[h].Full?
  }

  predicate ParksPlain(s: State, a: nat)
    requires a < |s.agents|
  {
    s.agents[a].slot.Keeps? && s.agents[a].slot.task < |s.tasks| && s.tasks[s.agents[a].slot.task].kind.Plain?
  }

  /** A live task that is on no timer and not queued is in some slot. */
  lemma LiveIsParked(s: State, t: TaskId) returns (a: nat)
    requires PlacesInv(s) && NothingLeft(s) && t < |s.tasks| && t !in s.freed
    ensures a < |s.agents| && s.agents[a].slot == Keeps(t)
  {
    assert Places(s, t) == 1;
    a := SumHasTerm(s.agents, Hands(t));
    assert Resting(s.agents[a]);
  }

  /**
   * When nothing else is left, joinPool's test succeeds if and only if no thread has a plain task
   * parked in its slot; and every task parked there was aborted.
   */
  lemma JoinReturnsExactlyWhenNoneParked(s: State, steps: seq<Step>, s': State, choice: Choice)
    requires Init(s) && Runs(s, steps, s') && NothingLeft(s') && NothingHeld(steps)
    requires CanAdvance(s', MAIN) && s'.agents[MAIN].pc.JoinTest?
    requires CountFits(s', steps)
    ensures TurnOf(s', MAIN, choice).pc.Joined? <==> forall a :: 0 <= a < |s'.agents| ==> !ParksPlain(s', a)
    ensures forall a :: 0 <= a < |s'.agents| && ParksPlain(s', a) ==>
              s'.tasks[s'.agents[a].slot.task].status.ABORTED?
  {
    JoinReturnsExactlyWhenReleased(s, steps, s', choice);
    InitPlaces(s);
    RunKeepsPlaces(s, steps, s');
    forall a | 0 <= a < |s'.agents| && ParksPlain(s', a)
      ensures s'.agents[a].slot.task !in s'.freed && s'.tasks[s'.agents[a].slot.task].status.ABORTED?
    {
      assert Resting(s'.agents[a]);
      ParkedTasksAreAborted(s, steps, s', a);
    }
    forall t | 0 <= t < |s'.tasks| && s'.tasks[t].kind.Plain? && t !in s'.freed
      ensures exists a :: 0 <= a < |s'.agents| && ParksPlain(s', a)
    {
      var a := LiveIsParked(s', t);
      assert ParksPlain(s', a);
    }
  }

  /** And then the main thread can get to that test, and out of joinPool, by two steps of its own. */
  lemma JoinPoolCanReturn(s: State, steps: seq<Step>, m: State) returns (s': State)
    requires Init(s) && Runs(s, steps, m) && NothingLeft(m) && NothingHeld(steps) && CountFits(m, steps)
    requires m.agents != [] && m.agents[MAIN].pc.Outside?
    requires forall a :: 0 <= a < |m.agents| ==> !ParksPlain(m, a)
    ensures Runs(m, [Advance(MAIN, Stop), Advance(MAIN, Go)], s') && s'.agents != [] && s'.agents[MAIN].pc.Joined?
  {
    ReachableHolds(s, steps, m);
    AllPlainFreed(m);
    NoneLive(m.tasks, m.freed);
    NoneFull(m.holders);
    WrapSmall(0);
    CanGoOn(m);
    s' := TestAndReturn(m);
  }

  lemma TestAndReturn(m: State) returns (s': State)
    requires CanAdvance(m, MAIN) && m.agents[MAIN].pc.Outside? && Wrap(m.holdCount) == 0
    ensures Runs(m, [Advance(MAIN, Stop), Advance(MAIN, Go)], s') && s'.agents != [] && s'.agents[MAIN].pc.Joined?
  {
    var test := m.(agents := m.agents[MAIN := Agent(JoinTest, m.agents[MAIN].slot)]);
    s' := m.(agents := m.agents[MAIN := Agent(Joined, m.agents[MAIN].slot)]);
    LeavesForTest(m, test);
    LeavesJoin(test, s');
    assert [Advance(MAIN, Go)][1..] == [];
    assert Runs(test, [Advance(MAIN, Go)], s');
    assert [Advance(MAIN, Stop), Advance(MAIN, Go)][1..] == [Advance(MAIN, Go)];
  }

  lemma LeavesForTest(m: State, test: State)
    requires CanAdvance(m, MAIN) && m.agents[MAIN].pc.Outside?
    requires test == m.(agents := m.agents[MAIN := Agent(JoinTest, m.agents[MAIN].slot)])
    ensures Do(m, Advance(MAIN, Stop)) == test
  {
  }

  lemma LeavesJoin(test: State, s': State)
    requires CanAdvance(test, MAIN) && test.agents[MAIN].pc.JoinTest? && Wrap(test.holdCount) == 0
    requires s' == test.(agents := test.agents[MAIN := Agent(Joined, test.agents[MAIN].slot)])
    ensures Do(test, Advance(MAIN, Go)) == s'
  {
  }

  lemma CanGoOn(s: State)
    requires PlacesInv(s) && s.agents != [] && s.agents[MAIN].pc.Outside?
    ensures CanAdvance(s, MAIN)
  {
    if s.agents[MAIN].slot.Keeps? {
      HandsExclusive(s, MAIN, s.agents[MAIN].slot.task);
    }
  }

  lemma AllPlainFreed(s: State)
    requires PlacesInv(s) && NothingLeft(s) && forall a :: 0 <= a < |s.agents| ==> !ParksPlain(s, a)
    ensures forall t :: 0 <= t < |s.tasks| && s.tasks[t].kind.Plain? ==> t in s.freed
  {
    forall t | 0 <= t < |s.tasks| && s.tasks[t].kind.Plain?
      ensures t in s.freed
    {
      if t !in s.freed {
        var a := LiveIsParked(s, t);
        assert ParksPlain(s, a);
        assert false;
      }
    }
  }

  // ---- a main thread that parks one waits for ever

  /** The main thread polls and has a plain task parked; all other threads and calls are over. */
  predicate Hung(s: State) {
    && s.queue == [] && s.timers == multiset{} && s.agents != [] && 0 < s.holdCount < WORD
    && (s.agents[MAIN].pc.Outside? || s.agents[MAIN].pc.LoopHead? || s.agents[MAIN].pc.JoinTest?)
    && ParksPlain(s, MAIN)
    && forall a :: 0 < a < |s.agents| ==> s.agents[a].pc.Ended?
  }

  lemma HungStep(s: State, step: Step)
    requires Hung(s) && step.Advance? && Enabled(s, step)
    ensures Hung(Do(s, step))
  {
    WrapSmall(s.holdCount);
    assert step.agent == MAIN;
  }

  /** No thread can get out of such a state by itself: joinPool tests the hold count for ever. */
  lemma {:induction false} HungForEver(s: State, steps: seq<Step>, s': State)
    requires Hung(s) && Runs(s, steps, s') && forall i :: 0 <= i < |steps| ==> steps[i].Advance?
    ensures Hung(s') && !s'.agents[MAIN].pc.Joined?
    decreases |steps|
  {
    if steps != [] {
      HungStep(s, steps[0]);
      HungForEver(Do(s, steps[0]), steps[1..], s');
    }
  }

  /**
   * For any number of tasks: once the main thread is the last one and has a plain task parked, with
   * nothing left to pop, no continuation by the threads alone lets joinPool return.
   */
  lemma ParkedMainWaitsForEver(s: State, steps: seq<Step>, m: State, more: seq<Step>, s': State)
    requires Init(s) && Runs(s, steps, m) && NothingLeft(m) && NothingHeld(steps) && CountFits(m, steps)
    requires m.agents != [] && ParksPlain(m, MAIN)
    requires m.agents[MAIN].pc.Outside? || m.agents[MAIN].pc.LoopHead? || m.agents[MAIN].pc.JoinTest?
    requires forall a :: 0 < a < |m.agents| ==> m.agents[a].pc.Ended?
    requires Runs(m, more, s') && forall i :: 0 <= i < |more| ==> more[i].Advance?
    ensures s'.agents != [] && !s'.agents[MAIN].pc.Joined? && ParksPlain(s', MAIN)
  {
    ReachableHolds(s, steps, m);
    ParkedTasksAreAborted(s, steps, m, MAIN);
    NoneLive(m.tasks, m.freed);
    NoneFull(m.holders);
    HungForEver(m, more, s');
  }
}
