/**
 * TaskGroup::await in runs whose aborts all come in time: when every member is over, it returns
 * exactly if no member ended while attach was between reading its status and adding its handlers.
 */
module TaskGroupHangs {
  import opened Machine
  import opened TaskScheduler
  import opened SchedulerTurns
  import opened SchedulerPlaces
  import opened SchedulerAborts
  import opened SchedulerLife
  import opened TaskGroups
  import opened TaskGroupAwait

  predicate StatusOver(s: State, t: TaskId) {
    t < |s.tasks| && Over(s.tasks[t].status)
  }

  const NEITHER := Read(0, 0)

  /** A counted member is over; one whose handlers were added was read when neither exit() nor abort() had begun. */
  predicate ReadingOk(s: State, i: nat)
    requires i < |s.members|
  {
    && (s.members[i].counted ==> StatusOver(s, s.members[i].task))
    && (s.members[i].completion.Hooked? ==> s.members[i].reading == NEITHER)
  }

  /** The same for a member that attach has read and not yet counted or added handlers for. */
  predicate AttachReads(s: State, pc: Pc) {
    Attaches(pc) && pc.member < |s.members| ==>
      && (pc.AttachCount? ==> StatusOver(s, s.members[pc.member].task))
      && (pc.AttachCompletion? ==> s.members[pc.member].reading == NEITHER)
  }

  ghost predicate ReadingsOk(s: State) {
    && (forall i {:trigger ReadingOk(s, i)} :: 0 <= i < |s.members| ==> ReadingOk(s, i))
    && (forall a {:trigger s.agents[a]} :: 0 <= a < |s.agents| ==> AttachReads(s, s.agents[a].pc))
  }

  ghost predicate AllOk(s: State) {
    && PlacesInv(s) && LifeOk(s) && GroupOk(s) && ReadingsOk(s)
    && forall t: TaskId {:trigger AbortsBegin(s, t)} :: AbortsBegin(s, t)
  }

  /** Neither exit() nor abort() of a task that is not over has begun. */
  lemma NotOverNotBegun(s: State, t: TaskId)
    requires LifeOk(s) && AbortsBegin(s, t) && t < |s.tasks|
    ensures s.tasks[t].completions + s.cancels[t] <= 1
    ensures !Over(s.tasks[t].status) ==> s.tasks[t].completions == 0 && s.cancels[t] == 0
    ensures s.tasks[t].completions > 0 || s.cancels[t] > 0 ==> Over(s.tasks[t].status)
  {
    assert Marked(s.tasks[t]);
    SumNonNegative(s.agents, AbortingOf(t));
  }

  /** What no step but attach's own does to a member. */
  predicate SameMember(member: Member, member': Member) {
    member' == member.(signals := member'.signals)
  }

  predicate MembersKept(s: State, s': State) {
    && |s'.members| == |s.members|
    && forall i :: 0 <= i < |s.members| ==> SameMember(s.members[i], s'.members[i])
  }

  lemma OthersKeepMembers(s: State, step: Step)
    requires Enabled(s, step) && !step.Attach?
    requires step.Advance? ==> !Attaches(s.agents[step.agent].pc)
    ensures MembersKept(s, Do(s, step))
  {
    if step.Advance? {
      var a, choice := step.agent, step.choice;
      var pc := s.agents[a].pc;
      if UsesSlot(pc) {
        RunTaskFrame(s, a, choice);
      } else if Todo(pc) != [] {
        CallingTurn(s, a, choice);
      } else if pc.Aborting? {
        AbortingTurn(s, a, choice);
      } else {
        QuietMembers(s, a, choice);
      }
    } else {
      CallMembers(s, step);
    }
  }

  /** No step but attach's own begins or goes on with an attach. */
  lemma OthersDoNotAttach(s: State, step: Step, a: nat)
    requires Enabled(s, step) && !step.Attach? && GroupOk(s)
    requires step.Advance? ==> !Attaches(s.agents[step.agent].pc)
    requires a < |Do(s, step).agents| && Attaches(Do(s, step).agents[a].pc)
    ensures a < |s.agents| && s.agents[a].pc == Do(s, step).agents[a].pc
  {
    if step.Advance? {
      var b, choice := step.agent, step.choice;
      var pc := s.agents[b].pc;
      if UsesSlot(pc) {
        RunTodo(s, b, choice);
      } else if Todo(pc) != [] {
        CallingTurn(s, b, choice);
      } else if pc.Aborting? {
        AbortingTurn(s, b, choice);
      } else {
        QuietTurn(s, b, choice);
      }
    } else {
      CallFrame(s, step);
      CallMembers(s, step);
    }
  }

  lemma OverStays(s: State, step: Step, t: TaskId)
    requires Timely(s, step) && OnePlaceEach(s) && LifeOk(s) && StatusOver(s, t)
    ensures StatusOver(Do(s, step), t)
  {
    OverIsFinal(s, step, t);
  }

  lemma OthersKeepReadings(s: State, step: Step)
    requires Timely(s, step) && AllOk(s) && !step.Attach?
    requires step.Advance? ==> !Attaches(s.agents[step.agent].pc)
    ensures ReadingsOk(Do(s, step))
  {
    var s' := Do(s, step);
    OthersKeepMembers(s, step);
    forall i | 0 <= i < |s'.members|
      ensures ReadingOk(s', i)
    {
      assert ReadingOk(s, i) && SameMember(s.members[i], s'.members[i]);
      if s.members[i].counted {
        OverStays(s, step, s.members[i].task);
      }
    }
    forall a | 0 <= a < |s'.agents|
      ensures AttachReads(s', s'.agents[a].pc)
    {
      if Attaches(s'.agents[a].pc) {
        OthersDoNotAttach(s, step, a);
        var i := s'.agents[a].pc.member;
        assert AttachReads(s, s.agents[a].pc);
        if i < |s.members| {
          assert SameMember(s.members[i], s'.members[i]);
          if s'.agents[a].pc.AttachCount? {
            OverStays(s, step, s.members[i].task);
          }
        }
      }
    }
  }

  /** The record of a member after a step of its attach, and where that attach is then. */
  lemma AttachStep(s: State, a: nat, choice: Choice)
    requires CanAdvance(s, a) && Attaches(s.agents[a].pc) && AllOk(s)
    ensures var pc := s.agents[a].pc; var i := pc.member; var turn := MoveTask(s, a, choice);
            && i < |s.members| && s.members[i].task < |s.tasks|
            && turn.after == s.(members := s.members[i := AttachMember(s, pc, s.members[i])],
                                finished := s.finished + One(pc.AttachCount?))
            && ReadingOk(turn.after, i) && AttachReads(turn.after, turn.pc)
  {
    var i := s.agents[a].pc.member;
    AttachingTurn(s, a, choice);
    if s.agents[a].pc.AttachRead? {
      AttachReadsRight(s, a, choice);
    }
    assert AttachFits(s.members, s.agents[a].pc) && AttachReads(s, s.agents[a].pc) && ReadingOk(s, i) && MemberOk(s, i);
    NotOverNotBegun(s, s.members[i].task);
  }

  lemma AttachReadsRight(s: State, a: nat, choice: Choice)
    requires CanAdvance(s, a) && s.agents[a].pc.AttachRead?
    ensures var i := s.agents[a].pc.member;
            MoveTask(s, a, choice).pc ==
              if Over(s.tasks[s.members[i].task].status) then AttachCount(i) else AttachCompletion(i)
  {
  }

  lemma AttachKeepsAgents(s: State, a: nat, choice: Choice, b: nat)
    requires CanAdvance(s, a) && Attaches(s.agents[a].pc) && AllOk(s) && b < |Do(s, Advance(a, choice)).agents|
    ensures AttachReads(Do(s, Advance(a, choice)), Do(s, Advance(a, choice)).agents[b].pc)
  {
    var s' := Do(s, Advance(a, choice));
    var turn := MoveTask(s, a, choice);
    AttachStep(s, a, choice);
    if b == a {
      assert AttachReads(turn.after, turn.pc);
    } else if b < |s.agents| {
      AttachingAlone(s, a);
      assert AttachReads(s, s.agents[b].pc);
    }
  }

  lemma AttachKeepsReadings(s: State, a: nat, choice: Choice)
    requires CanAdvance(s, a) && Attaches(s.agents[a].pc) && AllOk(s)
    ensures ReadingsOk(Do(s, Advance(a, choice)))
  {
    var s' := Do(s, Advance(a, choice));
    AttachStep(s, a, choice);
    forall i | 0 <= i < |s'.members|
      ensures ReadingOk(s', i)
    {
      assert ReadingOk(s, i) && ReadingOk(MoveTask(s, a, choice).after, s.agents[a].pc.member);
    }
    forall b | 0 <= b < |s'.agents|
      ensures AttachReads(s', s'.agents[b].pc)
    {
      AttachKeepsAgents(s, a, choice, b);
    }
  }

  lemma NewMemberKeepsReadings(s: State, t: TaskId)
    requires Enabled(s, Attach(t)) && AllOk(s)
    ensures ReadingsOk(Do(s, Attach(t)))
  {
    var s' := Do(s, Attach(t));
    forall i | 0 <= i < |s'.members|
      ensures ReadingOk(s', i)
    {
      assert i < |s.members| ==> ReadingOk(s, i);
    }
    forall a | 0 <= a < |s'.agents|
      ensures AttachReads(s', s'.agents[a].pc)
    {
      if a < |s.agents| {
        assert AttachReads(s, s.agents[a].pc) && AttachFits(s.members, s.agents[a].pc);
      }
    }
  }

  lemma StepKeepsReadings(s: State, step: Step)
    requires Timely(s, step) && AllOk(s)
    ensures ReadingsOk(Do(s, step))
  {
    if step.Attach? {
      NewMemberKeepsReadings(s, step.task);
    } else if step.Advance? && Attaches(s.agents[step.agent].pc) {
      AttachKeepsReadings(s, step.agent, step.choice);
    } else {
      OthersKeepReadings(s, step);
    }
  }

  lemma {:induction false} RunKeepsAll(s: State, steps: seq<Step>, s': State)
    requires AllOk(s) && TimelyRuns(s, steps, s')
    ensures AllOk(s')
    decreases |steps|
  {
    if steps != [] {
      StepKeepsPlaces(s, steps[0]);
      StepKeepsLife(s, steps[0]);
      StepKeepsGroup(s, steps[0]);
      StepKeepsReadings(s, steps[0]);
      forall t: TaskId
        ensures AbortsBegin(Do(s, steps[0]), t)
      {
        StepKeepsAborts(s, steps[0], t);
      }
      RunKeepsAll(Do(s, steps[0]), steps[1..], s');
    }
  }

  lemma InitAll(s: State)
    requires Init(s)
    ensures AllOk(s)
  {
    InitPlaces(s);
    InitGroup(s);
    assert s.agents[..|s.agents| - 1] == [];
    forall t: TaskId
      ensures AbortsBegin(s, t)
    {
      assert Sum(s.agents, AbortingOf(t)) == AbortingOf(t)(Agent(Outside, Vacant));
    }
  }

  // ---- main results

  lemma HandedAtMostOnce(s: State, i: nat)
    requires AllOk(s) && i < |s.members|
    ensures s.members[i].signals <= Handed(s, i) <= 1
    ensures Handed(s, i) == 1 ==> StatusOver(s, s.members[i].task)
  {
    SignalsAreHandovers(s, i);
    assert MemberOk(s, i) && ReadingOk(s, i);
    NotOverNotBegun(s, s.members[i].task);
  }

  /**
   * In every run with timely aborts await returns exactly when each member has been counted, and then
   * the status of every member's task is FINISHED or ABORTED.
   */
  lemma AwaitReturnsOnlyWhenAllOver(s: State, steps: seq<Step>, s': State)
    requires Init(s) && TimelyRuns(s, steps, s') && |s'.members| < WORD
    ensures AwaitReturns(s') <==> forall i :: 0 <= i < |s'.members| ==> s'.members[i].signals == 1
    ensures AwaitReturns(s') ==> forall i :: 0 <= i < |s'.members| ==> StatusOver(s', s'.members[i].task)
  {
    InitAll(s);
    RunKeepsAll(s, steps, s');
    forall i | 0 <= i < |s'.members|
      ensures s'.members[i].signals <= 1 && (s'.members[i].signals == 1 ==> StatusOver(s', s'.members[i].task))
    {
      HandedAtMostOnce(s', i);
    }
    SignalsAtMostOnce(s'.members);
    WrapSmall(s'.finished);
  }

  /** exit() or abort() began between attach's reading of the status and its adding of the handler for it. */
  predicate Missed(member: Member) {
    member.reading.Read?
    && ((member.completion.Hooked? && member.completion.before > member.reading.exits)
        || (member.cancellation.Hooked? && member.cancellation.before > member.reading.cancels))
  }

  /** No call of attach is in progress, and no thread has a handler of the group to call. */
  predicate AtRest(s: State) {
    forall a :: 0 <= a < |s.agents| ==> Todo(s.agents[a].pc) == [] && !Attaches(s.agents[a].pc)
  }

  /** A member that is over was handed over, unless it was missed. */
  lemma HandedUnlessMissed(s: State, i: nat)
    requires AllOk(s) && i < |s.members| && IsOver(s, i) && Attached(s.members[i])
    ensures Handed(s, i) == One(!Missed(s.members[i]))
  {
    assert MemberOk(s, i) && ReadingOk(s, i);
    NotOverNotBegun(s, s.members[i].task);
  }

  /** A missed member is never handed over. */
  lemma MissedIsNotHanded(s: State, i: nat)
    requires AllOk(s) && i < |s.members| && Missed(s.members[i])
    ensures s.members[i].signals == 0
  {
    assert MemberOk(s, i) && ReadingOk(s, i);
    NotOverNotBegun(s, s.members[i].task);
    SignalsAreHandovers(s, i);
  }

  /**
   * When every member is over and nothing is in progress, await returns if and only if no member's
   * exit() or abort() began between attach's reading of its status and the adding of its handler.
   */
  lemma AwaitReturnsExactlyWhenNoneMissed(s: State, steps: seq<Step>, s': State)
    requires Init(s) && TimelyRuns(s, steps, s') && |s'.members| < WORD && AtRest(s')
    requires forall i :: 0 <= i < |s'.members| ==> IsOver(s', i)
    ensures AwaitReturns(s') <==> forall i :: 0 <= i < |s'.members| ==> !Missed(s'.members[i])
  {
    InitAll(s);
    RunKeepsAll(s, steps, s');
    AwaitReturnsOnlyWhenAllOver(s, steps, s');
    forall i | 0 <= i < |s'.members|
      ensures s'.members[i].signals == One(!Missed(s'.members[i]))
    {
      assert AttachedOnce(s', i) && Accounted(s', i);
      SumZero(s'.agents, Attaching(i));
      SumZero(s'.agents, ToCall(i));
      HandedUnlessMissed(s', i);
    }
  }

  lemma StepKeepsMissed(s: State, step: Step, i: nat)
    requires Enabled(s, step) && GroupOk(s) && i < |s.members| && Missed(s.members[i])
    ensures i < |Do(s, step).members| && Missed(Do(s, step).members[i])
  {
    assert MemberOk(s, i);
    if step.Advance? && Attaches(s.agents[step.agent].pc) {
      AttachingTurn(s, step.agent, step.choice);
      assert AttachFits(s.members, s.agents[step.agent].pc);
    } else if !step.Attach? {
      OthersKeepMembers(s, step);
      assert SameMember(s.members[i], Do(s, step).members[i]);
    }
  }

  lemma {:induction false} RunKeepsMissed(s: State, steps: seq<Step>, s': State, i: nat)
    requires TimelyRuns(s, steps, s') && GroupOk(s) && i < |s.members| && Missed(s.members[i])
    ensures i < |s'.members| && Missed(s'.members[i])
    decreases |steps|
  {
    if steps != [] {
      StepKeepsMissed(s, steps[0], i);
      StepKeepsGroup(s, steps[0]);
      RunKeepsMissed(Do(s, steps[0]), steps[1..], s', i);
    }
  }

  /** Once a member was missed await never returns, whatever happens next. */
  lemma MissedNeverReturns(s: State, steps: seq<Step>, m: State, more: seq<Step>, s': State, i: nat)
    requires Init(s) && TimelyRuns(s, steps, m) && i < |m.members| && Missed(m.members[i])
    requires TimelyRuns(m, more, s') && |s'.members| < WORD
    ensures !AwaitReturns(s')
  {
    InitAll(s);
    RunKeepsAll(s, steps, m);
    RunKeepsAll(m, more, s');
    RunKeepsMissed(m, more, s', i);
    MissedIsNotHanded(s', i);
    forall k | 0 <= k < |s'.members|
      ensures s'.members[k].signals <= 1
    {
      HandedAtMostOnce(s', k);
    }
    SignalsAtMostOnce(s'.members);
    WrapSmall(s'.finished);
  }
}
