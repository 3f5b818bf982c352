/** TaskGroup::await: when it returns, when it is right to, and when it never does. */
module TaskGroupAwait {
  import opened Machine
  import opened TaskScheduler
  import opened SchedulerTurns
  import opened SchedulerPlaces
  import opened SchedulerAborts
  import opened SchedulerLife
  import opened TaskGroups

  // ---- no thread is ever stuck

  /**
   * In every reachable state each thread and call that is not over can take its next step, and a
   * thread's own task, in its slot or on the way in or out of it, has not been deleted.
   */
  lemma EveryThreadCanStep(s: State, steps: seq<Step>, s': State, a: nat)
    requires Init(s) && Runs(s, steps, s')
    requires a < |s'.agents| && !s'.agents[a].pc.Joined? && !s'.agents[a].pc.Ended?
    ensures CanAdvance(s', a)
    ensures forall t: TaskId :: Hands(t)(s'.agents[a]) > 0 ==> t < |s'.tasks| && t !in s'.freed
  {
    InitPlaces(s);
    RunKeepsPlaces(s, steps, s');
    InitGroup(s);
    RunKeepsGroup(s, steps, s');
    var agent := s'.agents[a];
    assert SlotFilled(agent) && AttachFits(s'.members, agent.pc);
    assert Attaches(agent.pc) ==> MemberOk(s', agent.pc.member);
    if Todo(agent.pc) != [] {
      ToCallIsMember(s', a, Todo(agent.pc)[0]);
    }
    forall t: TaskId | Hands(t)(agent) > 0
      ensures t < |s'.tasks| && t !in s'.freed
    {
      HandsExclusive(s', a, t);
    }
    assert agent.slot.Keeps? ==> Hands(agent.slot.task)(agent) > 0;
    assert agent.pc.Deleting? ==> Hands(agent.pc.task)(agent) > 0;
  }

  // ---- what the counter counts

  /** The loop condition of TaskGroup::await, negated. */
  predicate AwaitReturns(s: State) {
    Wrap(s.finished) >= |s.members|
  }

  /**
   * In every run the counter is the sum of the members' signals, and each member's signals and the
   * calls of its handlers still to come together are exactly its handovers: every exit() and every
   * abort() that finds a member's handler counts it, the second as well as the first.
   */
  lemma EveryRunCountsHandovers(s: State, steps: seq<Step>, s': State)
    requires Init(s) && Runs(s, steps, s')
    ensures s'.finished == Sum(s'.members, Signals())
    ensures forall i :: 0 <= i < |s'.members| ==>
              s'.members[i].signals + Sum(s'.agents, ToCall(i)) == Handovers(s'.tasks, s'.cancels)(s'.members[i])
  {
    InitGroup(s);
    RunKeepsGroup(s, steps, s');
    forall i | 0 <= i < |s'.members|
      ensures s'.members[i].signals + Sum(s'.agents, ToCall(i)) == Handovers(s'.tasks, s'.cancels)(s'.members[i])
    {
      assert Accounted(s', i);
    }
  }

  /** Every call of exit() or abort() that begins hands over each member whose handler it finds, however often it was before. */
  lemma EachLoopHandsOver(s: State, a: nat, choice: Choice, i: nat)
    requires CanAdvance(s, a) && GroupOk(s) && i < |s.members|
    requires s.agents[a].pc.ExitStart? || s.agents[a].pc.Aborting?
    ensures var pc := s.agents[a].pc; var s' := Do(s, Advance(a, choice));
            Handed(s', i) == Handed(s, i) +
              if pc.ExitStart? then One(s.members[i].completion.Hooked? && s.agents[a].slot == Keeps(s.members[i].task))
              else One(s.members[i].cancellation.Hooked? && pc.task == s.members[i].task)
  {
    if s.agents[a].pc.ExitStart? {
      ExitHandsOver(s, a, choice, i);
    } else {
      AbortHandsOver(s, a, choice, i);
    }
  }

  lemma FirstIsSignalled(s: State, a: nat)
    requires GroupOk(s) && a < |s.agents| && CanAdvance(s, a) && Todo(s.agents[a].pc) != []
    ensures var m := Do(s, Advance(a, Go)); var todo := Todo(s.agents[a].pc);
            && GroupOk(m) && |m.agents| == |s.agents| && Todo(m.agents[a].pc) == todo[1..]
            && |m.members| == |s.members| && todo[0] < |s.members|
            && forall i :: 0 <= i < |s.members| ==> m.members[i].signals == s.members[i].signals + One(i == todo[0])
  {
    CallingTurn(s, a, Go);
    CallingKeepsGroup(s, a, Go);
  }

  lemma CallingGoesOn(s: State, a: nat)
    requires GroupOk(s) && a < |s.agents| && CanAdvance(s, a) && |Todo(s.agents[a].pc)| > 1
    ensures CanAdvance(Do(s, Advance(a, Go)), a)
  {
    FirstIsSignalled(s, a);
    CallingTurn(s, a, Go);
    ToCallIsMember(Do(s, Advance(a, Go)), a, Todo(s.agents[a].pc)[1..][0]);
  }

  /** A thread that goes on calling its handlers signals each member as often as it has it on its list. */
  lemma {:induction false} ListIsSignalled(s: State, a: nat) returns (steps: seq<Step>, s': State)
    requires GroupOk(s) && a < |s.agents| && CanAdvance(s, a) && Todo(s.agents[a].pc) != []
    ensures Runs(s, steps, s') && GroupOk(s') && |s'.members| == |s.members| && a < |s'.agents| && Todo(s'.agents[a].pc) == []
    ensures forall i :: 0 <= i < |s.members| ==>
              s'.members[i].signals == s.members[i].signals + multiset(Todo(s.agents[a].pc))[i]
    decreases |Todo(s.agents[a].pc)|
  {
    var todo := Todo(s.agents[a].pc);
    var m := Do(s, Advance(a, Go));
    FirstIsSignalled(s, a);
    steps, s' := [], m;
    if |todo| > 1 {
      CallingGoesOn(s, a);
      steps, s' := ListIsSignalled(m, a);
    }
    OneStepFirst(s, Advance(a, Go), steps, s');
    steps := [Advance(a, Go)] + steps;
    forall i: nat | i < |s.members|
      ensures s'.members[i].signals == s.members[i].signals + multiset(Todo(s.agents[a].pc))[i]
    {
      PopCount(todo, i);
    }
  }

  lemma OneStepFirst(s: State, step: Step, steps: seq<Step>, s': State)
    requires Enabled(s, step) && Runs(Do(s, step), steps, s')
    ensures Runs(s, [step] + steps, s')
  {
    assert ([step] + steps)[1..] == steps;
  }

  // ---- when await is right

  /** exit() or abort() of the member's task has begun to call handlers, or attach found the task over. */
  predicate IsOver(s: State, i: nat)
    requires i < |s.members|
  {
    var member := s.members[i];
    member.counted || Exits(s.tasks, member.task) > 0 || s.cancels[member.task] > 0
  }

  lemma {:induction false} SignalsAtMostOnce(members: seq<Member>)
    requires forall i :: 0 <= i < |members| ==> members[i].signals <= 1
    ensures 0 <= Sum(members, Signals()) <= |members|
    ensures Sum(members, Signals()) == |members| <==> forall i :: 0 <= i < |members| ==> members[i].signals == 1
  {
    if members != [] {
      var n := |members| - 1;
      SignalsAtMostOnce(members[..n]);
      assert forall i :: 0 <= i < n ==> members[..n][i] == members[i];
    }
  }

  lemma SignalsAreHandovers(s: State, i: nat)
    requires GroupOk(s) && i < |s.members|
    ensures s.members[i].signals <= Handed(s, i) && (Handed(s, i) > 0 ==> IsOver(s, i))
  {
    assert Accounted(s, i) && MemberOk(s, i);
    SumNonNegative(s.agents, ToCall(i));
  }

  /**
   * As long as no member is handed over twice, await returns exactly when every member has been
   * signalled, and then every member's task is over.
   */
  lemma AwaitIsRight(s: State, steps: seq<Step>, s': State)
    requires Init(s) && Runs(s, steps, s') && |s'.members| < WORD
    requires forall i :: 0 <= i < |s'.members| ==> Handed(s', i) <= 1
    ensures AwaitReturns(s') <==> forall i :: 0 <= i < |s'.members| ==> s'.members[i].signals == 1
    ensures AwaitReturns(s') ==> forall i :: 0 <= i < |s'.members| ==> IsOver(s', i)
  {
    InitGroup(s);
    RunKeepsGroup(s, steps, s');
    forall i | 0 <= i < |s'.members|
      ensures s'.members[i].signals <= 1 && (s'.members[i].signals == 1 ==> IsOver(s', i))
    {
      SignalsAreHandovers(s', i);
    }
    SignalsAtMostOnce(s'.members);
    WrapSmall(s'.finished);
  }

  /** So an await that returns before some member is over has counted another one at least twice. */
  lemma EarlyReturnNeedsSecondHandover(s: State, steps: seq<Step>, s': State, j: nat) returns (i: nat)
    requires Init(s) && Runs(s, steps, s') && |s'.members| < WORD
    requires AwaitReturns(s') && j < |s'.members| && !IsOver(s', j)
    ensures i < |s'.members| && i != j && Handed(s', i) >= 2
  {
    if forall k :: 0 <= k < |s'.members| ==> Handed(s', k) <= 1 {
      AwaitIsRight(s, steps, s');
    }
    i :| 0 <= i < |s'.members| && Handed(s', i) > 1;
    InitGroup(s);
    RunKeepsGroup(s, steps, s');
    assert MemberOk(s', j);
  }

  /** No thread has a member's handler still to call. */
  predicate NothingPending(s: State) {
    forall a :: 0 <= a < |s.agents| ==> Todo(s.agents[a].pc) == []
  }

  lemma {:induction false} SameSums(members: seq<Member>, tasks: seq<Task>, cancels: multiset<TaskId>)
    requires forall i :: 0 <= i < |members| ==> members[i].signals == Handovers(tasks, cancels)(members[i])
    ensures Sum(members, Signals()) == Sum(members, Handovers(tasks, cancels))
  {
    if members != [] {
      var n := |members| - 1;
      assert forall i :: 0 <= i < n ==> members[..n][i] == members[i];
      SameSums(members[..n], tasks, cancels);
    }
  }

  /** When no handler is left to be called, await returns if and only if there were as many handovers as members. */
  lemma AwaitAtRest(s: State, steps: seq<Step>, s': State)
    requires Init(s) && Runs(s, steps, s') && NothingPending(s')
    requires Sum(s'.members, Handovers(s'.tasks, s'.cancels)) < WORD
    ensures AwaitReturns(s') <==> Sum(s'.members, Handovers(s'.tasks, s'.cancels)) >= |s'.members|
  {
    EveryRunCountsHandovers(s, steps, s');
    forall i | 0 <= i < |s'.members|
      ensures s'.members[i].signals == Handovers(s'.tasks, s'.cancels)(s'.members[i])
    {
      SumZero(s'.agents, ToCall(i));
    }
    SameSums(s'.members, s'.tasks, s'.cancels);
    SumNonNegative(s'.members, Signals());
    WrapSmall(s'.finished);
  }

  // ---- aborts and the loops they begin

  function AbortingOf(t: TaskId): Agent -> int {
    (agent: Agent) => One(agent.pc.Aborting? && agent.pc.task == t)
  }

  function Aborts(tasks: seq<Task>, t: TaskId): nat {
    if t < |tasks| then tasks[t].aborts else 0
  }

  /** Every call of abort() has begun its loop or is about to. */
  predicate AbortsBegin(s: State, t: TaskId) {
    s.cancels[t] + Sum(s.agents, AbortingOf(t)) == Aborts(s.tasks, t)
  }

  lemma MoveAborting(s: State, a: nat, choice: Choice)
    requires CanAdvance(s, a) && !UsesSlot(s.agents[a].pc)
    ensures !MoveTask(s, a, choice).pc.Aborting?
  {
  }

  lemma RunAborting(s: State, a: nat, choice: Choice)
    requires CanAdvance(s, a) && UsesSlot(s.agents[a].pc)
    ensures !RunTask(s, a, choice).pc.Aborting?
  {
  }

  lemma AdvanceKeepsAborts(s: State, a: nat, choice: Choice, t: TaskId)
    requires CanAdvance(s, a) && AbortsBegin(s, t)
    ensures AbortsBegin(Do(s, Advance(a, choice)), t)
  {
    AdvanceSum(s, a, choice, AbortingOf(t));
    if UsesSlot(s.agents[a].pc) {
      RunTaskFrame(s, a, choice);
      RunAborting(s, a, choice);
    } else {
      MoveTasks(s, a, choice);
      MoveCancels(s, a, choice);
      MoveAborting(s, a, choice);
    }
  }

  lemma CallAborts(s: State, step: Step, t: TaskId)
    requires Enabled(s, step) && !step.Advance?
    ensures Do(s, step).cancels == s.cancels
    ensures Aborts(Do(s, step).tasks, t) == Aborts(s.tasks, t) + One(step.Abort? && step.task == t)
    ensures StartsAgent(step) ==> AbortingOf(t)(Starts(s, step)) == One(step.Abort? && step.task == t)
  {
  }

  lemma StepKeepsAborts(s: State, step: Step, t: TaskId)
    requires Enabled(s, step) && AbortsBegin(s, t)
    ensures AbortsBegin(Do(s, step), t)
  {
    if step.Advance? {
      AdvanceKeepsAborts(s, step.agent, step.choice, t);
    } else {
      CallFrame(s, step);
      CallAborts(s, step, t);
      if StartsAgent(step) {
        SumAppend(s.agents, Starts(s, step), AbortingOf(t));
      }
    }
  }

  lemma {:induction false} RunKeepsAborts(s: State, steps: seq<Step>, s': State, t: TaskId)
    requires AbortsBegin(s, t) && Runs(s, steps, s')
    ensures AbortsBegin(s', t)
    decreases |steps|
  {
    if steps != [] {
      StepKeepsAborts(s, steps[0], t);
      RunKeepsAborts(Do(s, steps[0]), steps[1..], s', t);
    }
  }

  lemma AbortsBeginCount(s: State, steps: seq<Step>, s': State, t: TaskId)
    requires Init(s) && Runs(s, steps, s')
    ensures s'.cancels[t] <= Aborts(s'.tasks, t)
  {
    assert s.agents[..|s.agents| - 1] == [];
    assert Sum(s.agents, AbortingOf(t)) == 0;
    RunKeepsAborts(s, steps, s', t);
    SumNonNegative(s'.agents, AbortingOf(t));
  }

  /** What a caller can see to: each member's task is aborted at most once, and not also completed. */
  predicate OverAtMostOnce(s: State) {
    forall i :: 0 <= i < |s.members| && s.members[i].task < |s.tasks| ==>
      var task := s.tasks[s.members[i].task]; task.aborts + task.completions <= 1
  }

  /** Then await is right, whatever happens to other tasks and however attach is interleaved. */
  lemma AwaitIsRightWhenOverOnce(s: State, steps: seq<Step>, s': State)
    requires Init(s) && Runs(s, steps, s') && |s'.members| < WORD && OverAtMostOnce(s')
    ensures AwaitReturns(s') <==> forall i :: 0 <= i < |s'.members| ==> s'.members[i].signals == 1
    ensures AwaitReturns(s') ==> forall i :: 0 <= i < |s'.members| ==> IsOver(s', i)
  {
    InitGroup(s);
    RunKeepsGroup(s, steps, s');
    forall i | 0 <= i < |s'.members|
      ensures Handed(s', i) <= 1
    {
      OverOnceHandedOnce(s, steps, s', i);
    }
    AwaitIsRight(s, steps, s');
  }

  lemma OverOnceHandedOnce(s: State, steps: seq<Step>, s': State, i: nat)
    requires Init(s) && Runs(s, steps, s') && GroupOk(s') && i < |s'.members| && OverAtMostOnce(s')
    ensures Handed(s', i) <= 1
  {
    var member := s'.members[i];
    assert MemberOk(s', i);
    AbortsBeginCount(s, steps, s', member.task);
  }
}
