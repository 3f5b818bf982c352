/** The hold count: what it counts in every reachable state, and when joinPool returns. */
module SchedulerHolds {
  import opened Machine
  import opened TaskScheduler
  import opened SchedulerTurns
  import opened SchedulerPlaces
  import opened SchedulerHistory

  /** Tasks with a non-empty Holder that have not been deleted. */
  function LiveHolding(tasks: seq<Task>, freed: multiset<TaskId>): nat {
    if tasks == [] then 0
    else
      var n := |tasks| - 1;
      LiveHolding(tasks[..n], freed) + One(tasks[n].Holds() && n !in freed)
  }

  function Full(): Holder -> int {
    (holder: Holder) => One(holder.Full?)
  }

  ghost predicate HoldsExact(s: State) {
    s.holdCount == LiveHolding(s.tasks, s.freed) + Sum(s.holders, Full()) + s.manual
  }

  lemma {:induction false} FreeingOne(tasks: seq<Task>, freed: multiset<TaskId>, t: TaskId)
    requires t !in freed
    ensures LiveHolding(tasks, freed + multiset{t})
            == LiveHolding(tasks, freed) - One(t < |tasks| && tasks[t].Holds())
  {
    if tasks != [] {
      FreeingOne(tasks[..|tasks| - 1], freed, t);
    }
  }

  lemma AddingOne(tasks: seq<Task>, freed: multiset<TaskId>, task: Task)
    requires |tasks| !in freed
    ensures LiveHolding(tasks + [task], freed) == LiveHolding(tasks, freed) + One(task.Holds())
  {
    assert (tasks + [task])[..|tasks|] == tasks;
  }

  /** The count depends on the kinds of the tasks only. */
  lemma {:induction false} SameKinds(tasks: seq<Task>, tasks': seq<Task>, freed: multiset<TaskId>)
    requires |tasks| == |tasks'| && forall t :: 0 <= t < |tasks| ==> tasks[t].kind == tasks'[t].kind
    ensures LiveHolding(tasks, freed) == LiveHolding(tasks', freed)
  {
    if tasks != [] {
      SameKinds(tasks[..|tasks| - 1], tasks'[..|tasks| - 1], freed);
    }
  }

  /** Nothing is counted exactly when every holding task is deleted. */
  lemma {:induction false} NoneLive(tasks: seq<Task>, freed: multiset<TaskId>)
    ensures LiveHolding(tasks, freed) == 0 <==> forall t :: 0 <= t < |tasks| && tasks[t].Holds() ==> t in freed
    ensures LiveHolding(tasks, freed) <= |tasks|
  {
    if tasks != [] {
      var n := |tasks| - 1;
      NoneLive(tasks[..n], freed);
      assert forall t :: 0 <= t < n ==> tasks[..n][t] == tasks[t];
    }
  }

  lemma {:induction false} NoneFull(holders: seq<Holder>)
    ensures Sum(holders, Full()) == 0 <==> forall h :: 0 <= h < |holders| ==> !holders[h].Full?
    ensures 0 <= Sum(holders, Full()) <= |holders|
  {
    if holders != [] {
      var n := |holders| - 1;
      NoneFull(holders[..n]);
      assert forall h :: 0 <= h < n ==> holders[..n][h] == holders[h];
    }
  }

  /** A deletion lowers the hold count by the deleted task's share. */
  lemma FreeKeepsHolds(s: State, t: TaskId)
    requires t < |s.tasks| && t !in s.freed && HoldsExact(s)
    ensures HoldsExact(Free(s, t))
  {
    FreeingOne(s.tasks, s.freed, t);
  }

  lemma AdvanceKeepsHolds(s: State, a: nat, choice: Choice)
    requires CanAdvance(s, a) && OnePlaceEach(s) && HoldsExact(s)
    ensures HoldsExact(Do(s, Advance(a, choice)))
  {
    if UsesSlot(s.agents[a].pc) {
      RunTaskFrame(s, a, choice);
      SameKinds(s.tasks, RunTask(s, a, choice).after.tasks, s.freed);
    } else {
      MoveKeepsHolds(s, a, choice);
    }
  }

  /** What a thread deletes is in its hands. */
  lemma FreeingIsLive(s: State, a: nat, choice: Choice)
    requires CanAdvance(s, a) && OnePlaceEach(s) && Freeing(s, a, choice).Keeps?
    ensures Freeing(s, a, choice).task < |s.tasks| && Freeing(s, a, choice).task !in s.freed
  {
    HandsExclusive(s, a, Freeing(s, a, choice).task);
  }

  lemma MoveKeepsHolds(s: State, a: nat, choice: Choice)
    requires CanAdvance(s, a) && !UsesSlot(s.agents[a].pc) && OnePlaceEach(s) && HoldsExact(s)
    ensures HoldsExact(MoveTask(s, a, choice).after)
  {
    var gone := Freeing(s, a, choice);
    MoveTasks(s, a, choice);
    MoveFreed(s, a, choice);
    MoveHoldCount(s, a, choice);
    MoveHolders(s, a, choice);
    if gone.Keeps? {
      FreeingIsLive(s, a, choice);
      FreeKeepsHolds(s, gone.task);
    } else {
      assert s.freed + multiset{} == s.freed;
    }
  }

  lemma CallKeepsHolds(s: State, step: Step)
    requires Enabled(s, step) && !step.Advance? && OnePlaceEach(s) && HoldsExact(s)
    ensures HoldsExact(Do(s, step))
  {
    var s' := Do(s, step);
    match step
    case Schedule(kind) => NewIsLive(s, kind);
    case ScheduleLater(kind) => NewIsLive(s, kind);
    case Abort(t) => SameKinds(s.tasks, s'.tasks, s.freed);
    case MakeHolder => SumAppend(s.holders, Holder.Full, Full());
    case CopyHolder(h) => SumAppend(s.holders, s.holders[h], Full());
    case ResetHolder(h) => SumUpdate(s.holders, h, Empty, Full());
    case DropHolder(h) => SumUpdate(s.holders, h, Destroyed, Full());
    case _ =>
  }

  lemma NewIsLive(s: State, kind: Kind)
    requires OnePlaceEach(s)
    ensures LiveHolding(Make(s, kind).tasks, s.freed) == LiveHolding(s.tasks, s.freed) + One(kind.Plain?)
  {
    assert Places(s, |s.tasks|) == 0;
    SumNonNegative(s.agents, Hands(|s.tasks|));
    AddingOne(s.tasks, s.freed, Task(kind, INACTIVE, false, 0, 0, 0));
  }

  lemma StepKeepsHolds(s: State, step: Step)
    requires Enabled(s, step) && OnePlaceEach(s) && HoldsExact(s)
    ensures HoldsExact(Do(s, step))
  {
    if step.Advance? {
      AdvanceKeepsHolds(s, step.agent, step.choice);
    } else {
      CallKeepsHolds(s, step);
    }
  }

  lemma {:induction false} RunKeepsHolds(s: State, steps: seq<Step>, s': State)
    requires PlacesInv(s) && HoldsExact(s) && Runs(s, steps, s')
    ensures HoldsExact(s')
    decreases |steps|
  {
    if steps != [] {
      StepKeepsPlaces(s, steps[0]);
      StepKeepsHolds(s, steps[0]);
      RunKeepsHolds(Do(s, steps[0]), steps[1..], s');
    }
  }

  lemma ReachableHolds(s: State, steps: seq<Step>, s': State)
    requires Init(s) && Runs(s, steps, s')
    ensures PlacesInv(s') && HoldsExact(s') && s'.manual == OpenHolds(steps) && s'.holders == HoldersAfter([], steps)
  {
    InitPlaces(s);
    RunKeepsPlaces(s, steps, s');
    RunKeepsHolds(s, steps, s');
    HoldsAreCounted(s, steps, s');
    HoldersAreReplayed(s, steps, s');
  }

  /**
   * In every reachable state the hold count is live plain tasks, plus the full ones of the Holders that
   * the program made, copied, reset and dropped, plus calls of hold() less calls of release().
   */
  lemma EveryRunHolds(s: State, steps: seq<Step>, s': State)
    requires Init(s) && Runs(s, steps, s')
    ensures s'.holdCount == LiveHolding(s'.tasks, s'.freed) + Sum(HoldersAfter([], steps), Full()) + OpenHolds(steps)
  {
    ReachableHolds(s, steps, s');
  }

  /** Every plain task is deleted, and the program has emptied or dropped its Holders and released its holds. */
  ghost predicate AllReleased(s: State, steps: seq<Step>) {
    && (forall t :: 0 <= t < |s.tasks| && s.tasks[t].kind.Plain? ==> t in s.freed)
    && (forall h :: 0 <= h < |HoldersAfter([], steps)| ==> !HoldersAfter([], steps)[h].Full?)
    && OpenHolds(steps) == 0
  }

  /** Fewer tasks, Holders and open holds than a word can count. */
  ghost predicate CountFits(s: State, steps: seq<Step>) {
    |s.tasks| + |HoldersAfter([], steps)| + OpenHolds(steps) < WORD
  }

  /**
   * joinPool returns at its test exactly when every plain task has been deleted, no full Holder
   * is left and every call of hold() was answered by one of release().
   */
  lemma JoinReturnsExactlyWhenReleased(s: State, steps: seq<Step>, s': State, choice: Choice)
    requires Init(s) && Runs(s, steps, s')
    requires CanAdvance(s', MAIN) && s'.agents[MAIN].pc.JoinTest?
    requires CountFits(s', steps)
    ensures TurnOf(s', MAIN, choice).pc.Joined? <==> AllReleased(s', steps)
  {
    ReachableHolds(s, steps, s');
    NoneLive(s'.tasks, s'.freed);
    NoneFull(s'.holders);
  }

  /** So no plain task is on a timer, queued, running or parked in a thread's slot at that moment. */
  lemma JoinLeavesNoPlainTask(s: State, steps: seq<Step>, s': State, choice: Choice, t: TaskId)
    requires Init(s) && Runs(s, steps, s')
    requires CanAdvance(s', MAIN) && s'.agents[MAIN].pc.JoinTest? && TurnOf(s', MAIN, choice).pc.Joined?
    requires CountFits(s', steps)
    requires t < |s'.tasks| && s'.tasks[t].kind.Plain?
    ensures t !in s'.timers && t !in s'.queue && t in s'.freed
    ensures forall a :: 0 <= a < |s'.agents| ==> Hands(t)(s'.agents[a]) == 0
  {
    JoinReturnsExactlyWhenReleased(s, steps, s', choice);
    ReachableHolds(s, steps, s');
    forall a | 0 <= a < |s'.agents|
      ensures Hands(t)(s'.agents[a]) == 0
    {
      if Hands(t)(s'.agents[a]) > 0 {
        HandsExclusive(s', a, t);
      }
    }
    assert Places(s', t) == 1;
    SumNonNegative(s'.agents, Hands(t));
    assert t in s'.queue ==> multiset(s'.queue)[t] > 0;
  }
}
