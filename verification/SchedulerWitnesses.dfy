/** Interleavings showing that the bounds and conditions of the scheduler theorems are needed. */
module SchedulerWitnesses {
  import opened Machine
  import opened TaskScheduler
  import opened SchedulerTurns
  import opened SchedulerPlaces
  import opened SchedulerAborts
  import opened SchedulerLife
  import opened SchedulerParking
  import opened TaskGroups
  import opened TaskGroupAwait
  import opened TaskGroupHangs

  predicate Leads(s: State, step: Step, s': State) {
    Enabled(s, step) && Do(s, step) == s'
  }

  /** One step in front of a run. */
  lemma Before(s: State, step: Step, m: State, rest: seq<Step>, s': State) returns (steps: seq<Step>)
    requires Leads(s, step, m) && Runs(m, rest, s')
    ensures Runs(s, steps, s') && steps == [step] + rest
  {
    steps := [step] + rest;
    assert steps[1..] == rest;
  }

  lemma {:induction false} RunsChain(s: State, begin: seq<Step>, m: State, after: seq<Step>, s': State)
    requires Runs(s, begin, m) && Runs(m, after, s')
    ensures Runs(s, begin + after, s')
    decreases |begin|
  {
    if begin == [] {
      assert begin + after == after;
    } else {
      var next := Do(s, begin[0]);
      RunsChain(next, begin[1..], m, after, s');
      var whole := Before(s, begin[0], next, begin[1..] + after, s');
      assert begin + after == whole;
    }
  }

  const THREAD := Agent(Outside, Vacant)
  const OVER := Agent(Ended, Vacant)
  const FRESH := Task(Plain, INACTIVE, false, 0, 0, 0)

  function Idle(maxThreads: nat): State {
    State([], multiset{}, [], [THREAD], multiset{}, 0, 0, 0, false, 0, maxThreads, [], 0, [], 0, multiset{})
  }

  function AbortedTask(times: nat): Task {
    Task(Plain, ABORTED, false, 0, 0, times)
  }

  // ---- a second abort of one member

  /** attach up to the reading of a status that is not over. */
  lemma AttachBegins(s: State, t: TaskId) returns (steps: seq<Step>, s': State)
    requires Live(s, t) && !Over(s.tasks[t].status)
    ensures Runs(s, steps, s') && forall k :: 0 <= k < |steps| ==> !steps[k].Abort?
    ensures var member := Member(t, false, Unhooked, Unhooked, 0, Read(s.tasks[t].completions, s.cancels[t]));
            s' == s.(members := s.members + [member], agents := s.agents + [Agent(AttachCompletion(|s.members|), Vacant)])
  {
    var member := Member(t, false, Unhooked, Unhooked, 0, Read(s.tasks[t].completions, s.cancels[t]));
    var m := Do(s, Attach(t));
    s' := s.(members := s.members + [member], agents := s.agents + [Agent(AttachCompletion(|s.members|), Vacant)]);
    steps := Before(m, Advance(|s.agents|, Go), s', [], s');
    steps := Before(s, Attach(t), m, steps, s');
  }

  /** attach adds both handlers. */
  lemma HandlersAreAdded(s: State, a: nat, i: nat) returns (steps: seq<Step>, s': State)
    requires i < |s.members| && s.members[i].task < |s.tasks|
    requires CanAdvance(s, a) && s.agents[a] == Agent(AttachCompletion(i), Vacant)
    ensures Runs(s, steps, s') && forall k :: 0 <= k < |steps| ==> !steps[k].Abort?
    ensures var t := s.members[i].task;
            var member := s.members[i].(completion := Hooked(s.tasks[t].completions), cancellation := Hooked(s.cancels[t]));
            s' == s.(members := s.members[i := member], agents := s.agents[a := OVER])
  {
    var t := s.members[i].task;
    var half := s.members[i].(completion := Hooked(s.tasks[t].completions));
    var m := s.(members := s.members[i := half], agents := s.agents[a := Agent(AttachCancellation(i), Vacant)]);
    s' := s.(members := s.members[i := half.(cancellation := Hooked(s.cancels[t]))], agents := s.agents[a := OVER]);
    steps := Before(m, Advance(a, Go), s', [], s');
    steps := Before(s, Advance(a, Go), m, steps, s');
  }

  /** A call of attach that nothing interrupts. */
  lemma AttachAlone(s: State, t: TaskId) returns (steps: seq<Step>, s': State)
    requires Live(s, t) && !Over(s.tasks[t].status)
    ensures var exits, cancels := s.tasks[t].completions, s.cancels[t];
            var member := Member(t, false, Hooked(exits), Hooked(cancels), 0, Read(exits, cancels));
            Runs(s, steps, s') && s' == s.(members := s.members + [member], agents := s.agents + [OVER])
  {
    var steps1, m := AttachBegins(s, t);
    var steps2;
    steps2, s' := HandlersAreAdded(m, |s.agents|, |s.members|);
    RunsChain(s, steps1, m, steps2, s');
    steps := steps1 + steps2;
  }

  /** abort() up to the beginning of its loop. */
  lemma AbortBegins(s: State, t: TaskId) returns (steps: seq<Step>, s': State)
    requires Live(s, t)
    ensures var task := s.tasks[t].(status := ABORTED, aborts := s.tasks[t].aborts + 1);
            Runs(s, steps, s')
            && s' == s.(tasks := s.tasks[t := task], cancels := s.cancels + multiset{t},
                        agents := s.agents + [Agent(Cancelling(CancellationsOf(s.members, t)), Vacant)])
  {
    var task := s.tasks[t].(status := ABORTED, aborts := s.tasks[t].aborts + 1);
    var s1 := s.(tasks := s.tasks[t := task], agents := s.agents + [Agent(Aborting(t), Vacant)]);
    s' := s.(tasks := s.tasks[t := task], cancels := s.cancels + multiset{t},
             agents := s.agents + [Agent(Cancelling(CancellationsOf(s.members, t)), Vacant)]);
    steps := Before(s1, Advance(|s.agents|, Go), s', [], s');
    steps := Before(s, Abort(t), s1, steps, s');
  }

  function Hooks(t: TaskId, signals: nat): Member {
    Member(t, false, Hooked(0), Hooked(0), signals, NEITHER)
  }

  const C0 := Agent(Counting(0), Vacant)
  const C1 := Agent(Counting(1), Vacant)
  const CALLING := Agent(Cancelling([0]), Vacant)
  const CALLED := Agent(Cancelling([]), Vacant)

  /** Two plain tasks, both still to be pushed, and a group of both. */
  function Grouped(task: Task, agents: seq<Agent>, signals: nat, cancels: multiset<TaskId>): State {
    Idle(1).(tasks := [task, FRESH], holdCount := 2, agents := agents,
             members := [Hooks(0, signals), Hooks(1, 0)], finished := signals, cancels := cancels)
  }

  lemma BothAttached() returns (steps: seq<Step>, s: State)
    ensures Runs(Idle(1), steps, s) && s == Grouped(FRESH, [THREAD, C0, C1, OVER, OVER], 0, multiset{})
  {
    var s1 := Idle(1).(tasks := [FRESH], agents := [THREAD, C0], holdCount := 1);
    var s2 := Idle(1).(tasks := [FRESH, FRESH], agents := [THREAD, C0, C1], holdCount := 2);
    var steps3, s3 := AttachAlone(s2, 0);
    var steps4, s4 := AttachAlone(s3, 1);
    RunsChain(s2, steps3, s3, steps4, s4);
    s := s4;
    steps := Before(s1, Schedule(Plain), s2, steps3 + steps4, s);
    steps := Before(Idle(1), Schedule(Plain), s1, steps, s);
    assert s.members == [Hooks(0, 0), Hooks(1, 0)];
    assert s.agents == [THREAD, C0, C1, OVER, OVER];
  }

  lemma FirstHandler(signals: nat)
    ensures CancellationsOf([Hooks(0, signals), Hooks(1, 0)], 0) == [0]
  {
    var both := [Hooks(0, signals), Hooks(1, 0)];
    assert both[..1] == [Hooks(0, signals)];
    assert both[..1][..0] == [];
    assert CancellationsOf(both[..1], 0) == [0];
  }

  lemma AbortedTwice(s: State) returns (steps: seq<Step>, s': State)
    requires s == Grouped(FRESH, [THREAD, C0, C1, OVER, OVER], 0, multiset{})
    ensures Runs(s, steps, s')
    ensures s' == Grouped(AbortedTask(2), [THREAD, C0, C1, OVER, OVER, CALLING, CALLING], 0, multiset{0, 0})
  {
    FirstHandler(0);
    var steps1, s1 := AbortBegins(s, 0);
    assert s1 == Grouped(AbortedTask(1), [THREAD, C0, C1, OVER, OVER, CALLING], 0, multiset{0}) by {
      assert s1.agents == [THREAD, C0, C1, OVER, OVER, CALLING];
      assert s1.cancels == multiset{0};
    }
    var steps2;
    steps2, s' := AbortBegins(s1, 0);
    assert s'.agents == [THREAD, C0, C1, OVER, OVER, CALLING, CALLING];
    assert s'.cancels == multiset{0, 0};
    RunsChain(s, steps1, s1, steps2, s');
    steps := steps1 + steps2;
  }

  lemma CalledTwice(s: State) returns (steps: seq<Step>, s': State)
    requires s == Grouped(AbortedTask(2), [THREAD, C0, C1, OVER, OVER, CALLING, CALLING], 0, multiset{0, 0})
    ensures Runs(s, steps, s')
    ensures s' == Grouped(AbortedTask(2), [THREAD, C0, C1, OVER, OVER, CALLED, CALLED], 2, multiset{0, 0})
  {
    var s1 := Grouped(AbortedTask(2), [THREAD, C0, C1, OVER, OVER, CALLED, CALLING], 1, multiset{0, 0});
    s' := Grouped(AbortedTask(2), [THREAD, C0, C1, OVER, OVER, CALLED, CALLED], 2, multiset{0, 0});
    assert [0][1..] == [];
    steps := Before(s1, Advance(6, Go), s', [], s');
    steps := Before(s, Advance(5, Go), s1, steps, s');
  }

  /**
   * Aborting one member twice makes await return while another member has not even started:
   * each abort calls the cancellation handler again.
   */
  lemma SecondAbortBreaksAwait() returns (steps: seq<Step>, s: State)
    ensures Init(Idle(1)) && Runs(Idle(1), steps, s)
    ensures AwaitReturns(s)
    ensures |s.members| == 2 && !IsOver(s, 1) && s.members[1].task < |s.tasks| && s.tasks[s.members[1].task].status.INACTIVE?
  {
    var steps1, s1 := BothAttached();
    var steps2, s2 := AbortedTwice(s1);
    var steps3, s3 := CalledTwice(s2);
    RunsChain(Idle(1), steps1, s1, steps2, s2);
    RunsChain(Idle(1), steps1 + steps2, s2, steps3, s3);
    steps, s := steps1 + steps2 + steps3, s3;
    WrapSmall(2);
  }

  // ---- a member that ends while attach adds its handlers

  /**
   * Whenever a worker is about to call exit() of a member's task while attach stands between reading
   * its status and adding the handlers, the worker can go first, and the member is missed.
   */
  lemma WorkerOvertakesAttach(s: State, a: nat, b: nat, i: nat) returns (steps: seq<Step>, s': State)
    requires CanAdvance(s, a) && s.agents[a].pc.ExitStart? && CanAdvance(s, b) && s.agents[b] == Agent(AttachCompletion(i), Vacant)
    requires s.agents[a].slot == Keeps(s.members[i].task)
    requires s.members[i].reading.Read? && s.members[i].reading.exits <= s.tasks[s.members[i].task].completions
    ensures Runs(s, steps, s') && forall k :: 0 <= k < |steps| ==> !steps[k].Abort?
    ensures i < |s'.members| && Missed(s'.members[i])
  {
    var m := Do(s, Advance(a, Go));
    RunTaskFrame(s, a, Go);
    RunCompletions(s, a, Go);
    var rest;
    rest, s' := HandlersAreAdded(m, b, i);
    steps := Before(s, Advance(a, Go), m, rest, s');
  }

  /** One task, scheduled and being added to a group; `abort` is a call of its abort(). */
  function Racing(task: Task, attach: Agent, abort: seq<Agent>, member: Member, cancels: multiset<TaskId>): State {
    Idle(1).(tasks := [task], holdCount := 1, agents := [THREAD, C0, attach] + abort, members := [member],
             cancels := cancels)
  }

  const READ := Member(0, false, Unhooked, Unhooked, 0, NEITHER)
  const ADDING := Agent(AttachCompletion(0), Vacant)

  ghost predicate TimelyReaches(s: State, goal: State) {
    exists steps :: TimelyRuns(s, steps, goal)
  }

  lemma TimelyBefore(s: State, step: Step, next: State, goal: State)
    requires Timely(s, step) && Do(s, step) == next && TimelyReaches(next, goal)
    ensures TimelyReaches(s, goal)
  {
    var rest :| TimelyRuns(next, rest, goal);
    assert ([step] + rest)[1..] == rest;
    assert TimelyRuns(s, [step] + rest, goal);
  }

  // The steps of the run, last one first.

  /** Both handlers were added, too late. */
  function Missing(): State {
    Racing(AbortedTask(1), OVER, [CALLED], READ.(completion := Hooked(0), cancellation := Hooked(1)), multiset{0})
  }

  lemma CancellationIsAdded(goal: State)
    requires TimelyReaches(Missing(), goal)
    ensures TimelyReaches(Racing(AbortedTask(1), Agent(AttachCancellation(0), Vacant), [CALLED],
                                 READ.(completion := Hooked(0)), multiset{0}), goal)
  {
    TimelyBefore(Racing(AbortedTask(1), Agent(AttachCancellation(0), Vacant), [CALLED],
                        READ.(completion := Hooked(0)), multiset{0}), Advance(2, Go), Missing(), goal);
  }

  lemma CompletionIsAdded(goal: State)
    requires TimelyReaches(Racing(AbortedTask(1), Agent(AttachCancellation(0), Vacant), [CALLED],
                                  READ.(completion := Hooked(0)), multiset{0}), goal)
    ensures TimelyReaches(Racing(AbortedTask(1), ADDING, [CALLED], READ, multiset{0}), goal)
  {
    TimelyBefore(Racing(AbortedTask(1), ADDING, [CALLED], READ, multiset{0}), Advance(2, Go),
                 Racing(AbortedTask(1), Agent(AttachCancellation(0), Vacant), [CALLED],
                        READ.(completion := Hooked(0)), multiset{0}), goal);
  }

  lemma NobodyToCall()
    ensures Leads(Racing(AbortedTask(1), ADDING, [Agent(Aborting(0), Vacant)], READ, multiset{}), Advance(3, Go),
                  Racing(AbortedTask(1), ADDING, [CALLED], READ, multiset{0}))
  {
    assert [READ][..0] == [] && CancellationsOf([READ], 0) == [];
    assert multiset{} + multiset{0} == multiset{0};
  }

  lemma AbortCallsNobody(goal: State)
    requires TimelyReaches(Racing(AbortedTask(1), ADDING, [CALLED], READ, multiset{0}), goal)
    ensures TimelyReaches(Racing(AbortedTask(1), ADDING, [Agent(Aborting(0), Vacant)], READ, multiset{}), goal)
  {
    NobodyToCall();
    TimelyBefore(Racing(AbortedTask(1), ADDING, [Agent(Aborting(0), Vacant)], READ, multiset{}), Advance(3, Go),
                 Racing(AbortedTask(1), ADDING, [CALLED], READ, multiset{0}), goal);
  }

  lemma AbortComesBetween(goal: State)
    requires TimelyReaches(Racing(AbortedTask(1), ADDING, [Agent(Aborting(0), Vacant)], READ, multiset{}), goal)
    ensures TimelyReaches(Racing(FRESH, ADDING, [], READ, multiset{}), goal)
  {
    var s := Racing(FRESH, ADDING, [], READ, multiset{});
    assert InTime(s, 0);
    TimelyBefore(s, Abort(0), Racing(AbortedTask(1), ADDING, [Agent(Aborting(0), Vacant)], READ, multiset{}), goal);
  }

  lemma StatusIsRead(goal: State)
    requires TimelyReaches(Racing(FRESH, ADDING, [], READ, multiset{}), goal)
    ensures TimelyReaches(Racing(FRESH, Agent(AttachRead(0), Vacant), [], READ.(reading := Unread), multiset{}), goal)
  {
    TimelyBefore(Racing(FRESH, Agent(AttachRead(0), Vacant), [], READ.(reading := Unread), multiset{}), Advance(2, Go),
                 Racing(FRESH, ADDING, [], READ, multiset{}), goal);
  }

  lemma TaskIsAttached(goal: State)
    requires TimelyReaches(Racing(FRESH, Agent(AttachRead(0), Vacant), [], READ.(reading := Unread), multiset{}), goal)
    ensures TimelyReaches(Idle(1).(tasks := [FRESH], agents := [THREAD, C0], holdCount := 1), goal)
  {
    TimelyBefore(Idle(1).(tasks := [FRESH], agents := [THREAD, C0], holdCount := 1), Attach(0),
                 Racing(FRESH, Agent(AttachRead(0), Vacant), [], READ.(reading := Unread), multiset{}), goal);
  }

  lemma TaskIsScheduled(goal: State)
    requires TimelyReaches(Idle(1).(tasks := [FRESH], agents := [THREAD, C0], holdCount := 1), goal)
    ensures TimelyReaches(Idle(1), goal)
  {
    TimelyBefore(Idle(1), Schedule(Plain), Idle(1).(tasks := [FRESH], agents := [THREAD, C0], holdCount := 1), goal);
  }

  lemma MissingIsReached(goal: State)
    requires TimelyReaches(Missing(), goal)
    ensures TimelyReaches(Idle(1), goal)
  {
    CancellationIsAdded(goal);
    CompletionIsAdded(goal);
    AbortCallsNobody(goal);
    AbortComesBetween(goal);
    StatusIsRead(goal);
    TaskIsAttached(goal);
    TaskIsScheduled(goal);
  }

  lemma MissingIsMissed()
    ensures TimelyReaches(Missing(), Missing()) && AtRest(Missing())
    ensures |Missing().members| == 1 && IsOver(Missing(), 0) && Missed(Missing().members[0])
  {
    assert TimelyRuns(Missing(), [], Missing());
  }

  /**
   * One task is scheduled and added to a group; it is aborted in time, after attach has read its status
   * and before attach adds the handlers. The member is over, yet await never returns, in no
   * continuation with timely aborts.
   */
  lemma AttachCanMissTheEnd() returns (steps: seq<Step>, s: State)
    ensures Init(Idle(1)) && TimelyRuns(Idle(1), steps, s) && AtRest(s)
    ensures |s.members| == 1 && IsOver(s, 0) && Missed(s.members[0])
    ensures forall more: seq<Step>, s' :: TimelyRuns(s, more, s') && |s'.members| < WORD ==> !AwaitReturns(s')
  {
    s := Missing();
    MissingIsMissed();
    MissingIsReached(s);
    steps :| TimelyRuns(Idle(1), steps, s);
    forall more: seq<Step>, s' | TimelyRuns(s, more, s') && |s'.members| < WORD
      ensures !AwaitReturns(s')
    {
      MissedNeverReturns(Idle(1), steps, s, more, s', 0);
    }
  }

  // ---- joinPool waits for a parked task

  /** The main thread meets one aborted plain task. */
  function Draining(main: Agent, schedule: Pc, queue: seq<TaskId>, taskCount: int, active: int): State {
    Idle(1).(tasks := [AbortedTask(1)], holdCount := 1, queue := queue, taskCount := taskCount, activeCount := active,
             agents := [main, Agent(schedule, Vacant), CALLED], cancels := multiset{0})
  }

  ghost predicate Reaches(s: State, goal: State) {
    exists steps :: Runs(s, steps, goal)
  }

  lemma ReachesBefore(s: State, step: Step, next: State, goal: State)
    requires Leads(s, step, next) && Reaches(next, goal)
    ensures Reaches(s, goal)
  {
    var rest :| Runs(next, rest, goal);
    var steps := Before(s, step, next, rest, goal);
  }

  lemma ReachesBeforeAll(s: State, begin: seq<Step>, m: State, goal: State)
    requires Runs(s, begin, m) && Reaches(m, goal)
    ensures Reaches(s, goal)
  {
    var rest :| Runs(m, rest, goal);
    RunsChain(s, begin, m, rest, goal);
  }

  /** All calls have ended. */
  function Parking(): State {
    Draining(Agent(LoopHead, Keeps(0)), Ended, [], 0, 0).(agents := [Agent(LoopHead, Keeps(0)), OVER, OVER])
  }

  lemma AbortEnds(goal: State)
    requires Reaches(Parking(), goal)
    ensures Reaches(Draining(Agent(LoopHead, Keeps(0)), Ended, [], 0, 0), goal)
  {
    ReachesBefore(Draining(Agent(LoopHead, Keeps(0)), Ended, [], 0, 0), Advance(2, Go), Parking(), goal);
  }

  lemma ScheduleEnds(goal: State)
    requires Reaches(Draining(Agent(LoopHead, Keeps(0)), Ended, [], 0, 0), goal)
    ensures Reaches(Draining(Agent(LoopHead, Keeps(0)), BalanceCount, [], 0, 0), goal)
  {
    WrapSmall(0);
    ReachesBefore(Draining(Agent(LoopHead, Keeps(0)), BalanceCount, [], 0, 0), Advance(1, Go),
                  Draining(Agent(LoopHead, Keeps(0)), Ended, [], 0, 0), goal);
  }

  // The steps of the main thread, once the task is queued and while its caller stands still, last one first.

  lemma PauseIsRead(goal: State)
    requires Reaches(Draining(Agent(LoopHead, Keeps(0)), BalanceCount, [], 0, 0), goal)
    ensures Reaches(Draining(Agent(ReadPause, Keeps(0)), BalanceCount, [], 0, 0), goal)
  {
    ReachesBefore(Draining(Agent(ReadPause, Keeps(0)), BalanceCount, [], 0, 0), Advance(MAIN, Go),
                  Draining(Agent(LoopHead, Keeps(0)), BalanceCount, [], 0, 0), goal);
  }

  lemma TaskIsLeftInSlot(goal: State)
    requires Reaches(Draining(Agent(ReadPause, Keeps(0)), BalanceCount, [], 0, 0), goal)
    ensures Reaches(Draining(Agent(Leaving, Keeps(0)), BalanceCount, [], 0, 1), goal)
  {
    ReachesBefore(Draining(Agent(Leaving, Keeps(0)), BalanceCount, [], 0, 1), Advance(MAIN, Go),
                  Draining(Agent(ReadPause, Keeps(0)), BalanceCount, [], 0, 0), goal);
  }

  lemma AbortIsRead(goal: State)
    requires Reaches(Draining(Agent(Leaving, Keeps(0)), BalanceCount, [], 0, 1), goal)
    ensures Reaches(Draining(Agent(ReadAborted, Keeps(0)), BalanceCount, [], 0, 1), goal)
  {
    ReachesBefore(Draining(Agent(ReadAborted, Keeps(0)), BalanceCount, [], 0, 1), Advance(MAIN, Go),
                  Draining(Agent(Leaving, Keeps(0)), BalanceCount, [], 0, 1), goal);
  }

  lemma TaskComesToSlot(goal: State)
    requires Reaches(Draining(Agent(ReadAborted, Keeps(0)), BalanceCount, [], 0, 1), goal)
    ensures Reaches(Draining(Agent(Decremented(0), Vacant), BalanceCount, [], 0, 1), goal)
  {
    ReachesBefore(Draining(Agent(Decremented(0), Vacant), BalanceCount, [], 0, 1), Advance(MAIN, Go),
                  Draining(Agent(ReadAborted, Keeps(0)), BalanceCount, [], 0, 1), goal);
  }

  lemma TaskIsDiscounted(goal: State)
    requires Reaches(Draining(Agent(Decremented(0), Vacant), BalanceCount, [], 0, 1), goal)
    ensures Reaches(Draining(Agent(Activated(0), Vacant), BalanceCount, [], 1, 1), goal)
  {
    ReachesBefore(Draining(Agent(Activated(0), Vacant), BalanceCount, [], 1, 1), Advance(MAIN, Go),
                  Draining(Agent(Decremented(0), Vacant), BalanceCount, [], 0, 1), goal);
  }

  lemma TaskIsActive(goal: State)
    requires Reaches(Draining(Agent(Activated(0), Vacant), BalanceCount, [], 1, 1), goal)
    ensures Reaches(Draining(Agent(Popped(0), Vacant), BalanceCount, [], 1, 0), goal)
  {
    ReachesBefore(Draining(Agent(Popped(0), Vacant), BalanceCount, [], 1, 0), Advance(MAIN, Go),
                  Draining(Agent(Activated(0), Vacant), BalanceCount, [], 1, 1), goal);
  }

  lemma TaskIsPopped(goal: State)
    requires Reaches(Draining(Agent(Popped(0), Vacant), BalanceCount, [], 1, 0), goal)
    ensures Reaches(Draining(Agent(LoopHead, Vacant), BalanceCount, [0], 1, 0), goal)
  {
    ReachesBefore(Draining(Agent(LoopHead, Vacant), BalanceCount, [0], 1, 0), Advance(MAIN, Go),
                  Draining(Agent(Popped(0), Vacant), BalanceCount, [], 1, 0), goal);
  }

  lemma DrainingBegins(goal: State)
    requires Reaches(Draining(Agent(LoopHead, Vacant), BalanceCount, [0], 1, 0), goal)
    ensures Reaches(Draining(THREAD, BalanceCount, [0], 1, 0), goal)
  {
    ReachesBefore(Draining(THREAD, BalanceCount, [0], 1, 0), Advance(MAIN, Go),
                  Draining(Agent(LoopHead, Vacant), BalanceCount, [0], 1, 0), goal);
  }

  lemma TaskIsPushed(goal: State)
    requires Reaches(Draining(THREAD, BalanceCount, [0], 1, 0), goal)
    ensures Reaches(Draining(THREAD, Pushing(0), [], 1, 0), goal)
  {
    ReachesBefore(Draining(THREAD, Pushing(0), [], 1, 0), Advance(1, Go), Draining(THREAD, BalanceCount, [0], 1, 0), goal);
  }

  lemma TaskIsCounted(goal: State)
    requires Reaches(Draining(THREAD, Pushing(0), [], 1, 0), goal)
    ensures Reaches(Draining(THREAD, Counting(0), [], 0, 0), goal)
  {
    ReachesBefore(Draining(THREAD, Counting(0), [], 0, 0), Advance(1, Go), Draining(THREAD, Pushing(0), [], 1, 0), goal);
  }

  /** The task is scheduled and aborted before it is pushed. */
  lemma TaskIsAborted(goal: State)
    requires Reaches(Draining(THREAD, Counting(0), [], 0, 0), goal)
    ensures Reaches(Idle(1), goal)
  {
    var s1 := Idle(1).(tasks := [FRESH], holdCount := 1, agents := [THREAD, C0]);
    var steps2, s2 := AbortBegins(s1, 0);
    assert s2 == Draining(THREAD, Counting(0), [], 0, 0) by {
      assert CancellationsOf([], 0) == [];
      assert s2.agents == [THREAD, C0, CALLED];
      assert s2.cancels == multiset{0};
    }
    ReachesBeforeAll(s1, steps2, s2, goal);
    ReachesBefore(Idle(1), Schedule(Plain), s1, goal);
  }

  lemma ParkingHangs()
    ensures Hung(Parking()) && Reaches(Parking(), Parking())
  {
    assert Runs(Parking(), [], Parking());
  }

  lemma ParkingIsReached(goal: State)
    requires Reaches(Parking(), goal)
    ensures Reaches(Draining(Agent(Decremented(0), Vacant), BalanceCount, [], 0, 1), goal)
  {
    AbortEnds(goal);
    ScheduleEnds(goal);
    PauseIsRead(goal);
    TaskIsLeftInSlot(goal);
    AbortIsRead(goal);
    TaskComesToSlot(goal);
  }

  lemma QueuedIsReached(goal: State)
    requires Reaches(Parking(), goal)
    ensures Reaches(Idle(1), goal)
  {
    ParkingIsReached(goal);
    TaskIsDiscounted(goal);
    TaskIsActive(goal);
    TaskIsPopped(goal);
    DrainingBegins(goal);
    TaskIsPushed(goal);
    TaskIsCounted(goal);
    TaskIsAborted(goal);
  }

  /**
   * Scheduling one task, aborting it before a thread gets to it and letting the main thread pop
   * it leaves joinPool waiting for ever, with nothing queued and nothing running: the aborted
   * task keeps its hold until another task is popped into the same slot.
   */
  lemma AbortCanHangJoinPool() returns (steps: seq<Step>, s: State)
    ensures Init(Idle(1)) && Runs(Idle(1), steps, s) && Hung(s)
    ensures forall more: seq<Step>, s' :: Runs(s, more, s') && (forall i :: 0 <= i < |more| ==> more[i].Advance?)
              ==> Hung(s') && !s'.agents[MAIN].pc.Joined?
  {
    s := Parking();
    ParkingHangs();
    QueuedIsReached(s);
    steps :| Runs(Idle(1), steps, s);
    forall more: seq<Step>, s' | Runs(s, more, s') && (forall i :: 0 <= i < |more| ==> more[i].Advance?)
      ensures Hung(s') && !s'.agents[MAIN].pc.Joined?
    {
      HungForEver(s, more, s');
    }
  }
}
