/**
 * TaskGroup: what the shared counter of finished members counts in every run, with attach, exit and
 * abort interleaved in any way.
 */
module TaskGroups {
  import opened Machine
  import opened TaskScheduler
  import opened SchedulerTurns
  import opened SchedulerPlaces

  function Todo(pc: Pc): seq<nat> {
    if pc.Exiting? || pc.Cancelling? then pc.todo else []
  }

  /** How often a thread still has to call a handler of member `i`. */
  function ToCall(i: nat): Agent -> int {
    (agent: Agent) => multiset(Todo(agent.pc))[i]
  }

  function Signals(): Member -> int {
    (member: Member) => member.signals
  }

  /** How often exit() of a task, and abort(), have begun to call handlers. */
  function Exits(tasks: seq<Task>, t: TaskId): nat {
    if t < |tasks| then tasks[t].completions else 0
  }

  /**
   * How often the member has been handed over for counting: by attach itself, and by every call of
   * exit() and abort() that began after the handler for it had been added.
   */
  function Handovers(tasks: seq<Task>, cancels: multiset<TaskId>): Member -> int {
    (member: Member) =>
      One(member.counted)
      + (if member.completion.Hooked? then Exits(tasks, member.task) - member.completion.before else 0)
      + (if member.cancellation.Hooked? then cancels[member.task] - member.cancellation.before else 0)
  }

  function Handed(s: State, i: nat): int {
    if i < |s.members| then Handovers(s.tasks, s.cancels)(s.members[i]) else 0
  }

  function SignalsOf(s: State, i: nat): nat {
    if i < |s.members| then s.members[i].signals else 0
  }

  /** What was handed over has been counted or is in a thread's hands to be counted. */
  predicate Accounted(s: State, i: nat) {
    SignalsOf(s, i) + Sum(s.agents, ToCall(i)) == Handed(s, i)
  }

  /** The call of attach for member `i`. */
  function Attaching(i: nat): Agent -> int {
    (agent: Agent) => One(Attaches(agent.pc) && agent.pc.member == i)
  }

  predicate Attached(member: Member) {
    member.counted || member.cancellation.Hooked?
  }

  /** Each member has one call of attach, in progress or over. */
  predicate AttachedOnce(s: State, i: nat) {
    Sum(s.agents, Attaching(i)) + One(i < |s.members| && Attached(s.members[i])) == One(i < |s.members|)
  }

  /** How far attach is with a member. */
  predicate AttachFits(members: seq<Member>, pc: Pc) {
    Attaches(pc) ==>
      && pc.member < |members|
      && (var member := members[pc.member];
          !member.counted && member.cancellation.Unhooked? && (member.completion.Hooked? <==> pc.AttachCancellation?))
  }

  predicate MemberOk(s: State, i: nat)
    requires i < |s.members|
  {
    var member := s.members[i];
    && member.task < |s.tasks|
    && (member.counted ==> member.completion.Unhooked? && member.cancellation.Unhooked?)
    && (member.cancellation.Hooked? ==> member.completion.Hooked?)
    && (member.completion.Hooked? ==> member.completion.before <= s.tasks[member.task].completions)
    && (member.cancellation.Hooked? ==> member.cancellation.before <= s.cancels[member.task])
  }

  ghost predicate GroupOk(s: State) {
    && (forall i: nat {:trigger Accounted(s, i)} :: Accounted(s, i))
    && (forall i: nat {:trigger AttachedOnce(s, i)} :: AttachedOnce(s, i))
    && (forall a {:trigger s.agents[a]} :: 0 <= a < |s.agents| ==> AttachFits(s.members, s.agents[a].pc))
    && (forall i {:trigger MemberOk(s, i)} :: 0 <= i < |s.members| ==> MemberOk(s, i))
    && s.finished == Sum(s.members, Signals())
  }

  // ---- handing over

  lemma {:induction false} CompletionsCount(members: seq<Member>, t: TaskId, i: nat)
    ensures multiset(CompletionsOf(members, t))[i]
            == One(i < |members| && members[i].completion.Hooked? && members[i].task == t)
  {
    if members != [] {
      CompletionsCount(members[..|members| - 1], t, i);
    }
  }

  lemma {:induction false} CancellationsCount(members: seq<Member>, t: TaskId, i: nat)
    ensures multiset(CancellationsOf(members, t))[i]
            == One(i < |members| && members[i].cancellation.Hooked? && members[i].task == t)
  {
    if members != [] {
      CancellationsCount(members[..|members| - 1], t, i);
    }
  }

  /** A handler waiting to be called belongs to a member. */
  lemma ToCallIsMember(s: State, a: nat, i: nat)
    requires GroupOk(s) && a < |s.agents| && i in Todo(s.agents[a].pc)
    ensures i < |s.members|
  {
    SumBounds(s.agents, a, ToCall(i));
    assert ToCall(i)(s.agents[a]) >= 1;
    assert Accounted(s, i);
  }

  /** The member that attach is working on has no other call of attach. */
  lemma AttachingAlone(s: State, a: nat)
    requires GroupOk(s) && a < |s.agents| && Attaches(s.agents[a].pc)
    ensures var i := s.agents[a].pc.member;
            && i < |s.members| && Sum(s.agents, Attaching(i)) == 1
            && forall b :: 0 <= b < |s.agents| && b != a && Attaches(s.agents[b].pc) ==> s.agents[b].pc.member != i
  {
    var i := s.agents[a].pc.member;
    assert AttachFits(s.members, s.agents[a].pc) && AttachedOnce(s, i);
    SumBounds(s.agents, a, Attaching(i));
    forall b | 0 <= b < |s.agents| && b != a && Attaches(s.agents[b].pc)
      ensures s.agents[b].pc.member != i
    {
      SumBoundsTwo(s.agents, a, b, Attaching(i));
    }
  }

  // ---- steps of the life cycle: exit() begins

  lemma RunTodo(s: State, a: nat, choice: Choice)
    requires CanAdvance(s, a) && UsesSlot(s.agents[a].pc)
    ensures var pc := RunTask(s, a, choice).pc;
            && Todo(pc) == (if s.agents[a].pc.ExitStart? then CompletionsOf(s.members, s.agents[a].slot.task) else [])
            && !Attaches(pc)
  {
  }

  /** Beginning exit() hands over each member whose completion handler is there, once more. */
  lemma ExitHandsOver(s: State, a: nat, choice: Choice, i: nat)
    requires CanAdvance(s, a) && UsesSlot(s.agents[a].pc) && GroupOk(s)
    ensures var s' := Do(s, Advance(a, choice)); var t := s.agents[a].slot.task;
            && s'.members == s.members && s'.finished == s.finished
            && Handed(s', i) - Handed(s, i)
               == One(s.agents[a].pc.ExitStart? && i < |s.members| && s.members[i].completion.Hooked? && s.members[i].task == t)
            && Accounted(s', i)
  {
    RunTaskFrame(s, a, choice);
    RunCompletions(s, a, choice);
    ExitCalls(s, a, choice, i);
    assert Accounted(s, i);
    assert i < |s.members| ==> MemberOk(s, i);
  }

  lemma ExitCalls(s: State, a: nat, choice: Choice, i: nat)
    requires CanAdvance(s, a) && UsesSlot(s.agents[a].pc)
    ensures Sum(Do(s, Advance(a, choice)).agents, ToCall(i)) == Sum(s.agents, ToCall(i))
              + One(s.agents[a].pc.ExitStart? && i < |s.members| && s.members[i].completion.Hooked?
                    && s.members[i].task == s.agents[a].slot.task)
  {
    AdvanceSum(s, a, choice, ToCall(i));
    RunTodo(s, a, choice);
    CompletionsCount(s.members, s.agents[a].slot.task, i);
  }

  lemma RunKeepsAttaching(s: State, a: nat, choice: Choice, i: nat)
    requires CanAdvance(s, a) && UsesSlot(s.agents[a].pc) && GroupOk(s)
    ensures AttachedOnce(Do(s, Advance(a, choice)), i)
  {
    AdvanceSum(s, a, choice, Attaching(i));
    RunTaskFrame(s, a, choice);
    RunTodo(s, a, choice);
    assert AttachedOnce(s, i);
  }

  lemma RunTaskKeepsGroup(s: State, a: nat, choice: Choice)
    requires CanAdvance(s, a) && UsesSlot(s.agents[a].pc) && GroupOk(s)
    ensures GroupOk(Do(s, Advance(a, choice)))
  {
    var s' := Do(s, Advance(a, choice));
    RunTaskFrame(s, a, choice);
    RunCompletions(s, a, choice);
    RunTodo(s, a, choice);
    forall i: nat
      ensures Accounted(s', i) && AttachedOnce(s', i)
    {
      ExitHandsOver(s, a, choice, i);
      RunKeepsAttaching(s, a, choice, i);
    }
    forall i | 0 <= i < |s'.members|
      ensures MemberOk(s', i)
    {
      assert MemberOk(s, i);
    }
  }

  // ---- steps that neither call handlers nor attach

  predicate Quiet(pc: Pc) {
    !UsesSlot(pc) && !Attaches(pc) && Todo(pc) == [] && !pc.Aborting?
  }

  lemma QuietTurn(s: State, a: nat, choice: Choice)
    requires CanAdvance(s, a) && Quiet(s.agents[a].pc)
    ensures var turn := MoveTask(s, a, choice); Todo(turn.pc) == [] && !Attaches(turn.pc)
  {
  }

  lemma QuietMembers(s: State, a: nat, choice: Choice)
    requires CanAdvance(s, a) && Quiet(s.agents[a].pc)
    ensures var after := MoveTask(s, a, choice).after; after.members == s.members && after.finished == s.finished
  {
  }

  lemma QuietKeepsGroup(s: State, a: nat, choice: Choice)
    requires CanAdvance(s, a) && Quiet(s.agents[a].pc) && GroupOk(s)
    ensures GroupOk(Do(s, Advance(a, choice)))
  {
    var s' := Do(s, Advance(a, choice));
    MoveTasks(s, a, choice);
    MoveCancels(s, a, choice);
    QuietTurn(s, a, choice);
    QuietMembers(s, a, choice);
    assert s.cancels + multiset{} == s.cancels;
    forall i: nat
      ensures Accounted(s', i) && AttachedOnce(s', i)
    {
      AdvanceSum(s, a, choice, ToCall(i));
      AdvanceSum(s, a, choice, Attaching(i));
      assert Accounted(s, i) && AttachedOnce(s, i);
    }
    forall i | 0 <= i < |s'.members|
      ensures MemberOk(s', i)
    {
      assert MemberOk(s, i);
    }
  }

  // ---- abort begins to call handlers

  lemma AbortingTurn(s: State, a: nat, choice: Choice)
    requires CanAdvance(s, a) && s.agents[a].pc.Aborting?
    ensures var t := s.agents[a].pc.task; var turn := MoveTask(s, a, choice);
            && turn.pc == Cancelling(CancellationsOf(s.members, t))
            && turn.after == s.(cancels := s.cancels + multiset{t})
  {
  }

  /** Beginning abort's loop hands over each member whose cancellation handler is there, once more. */
  lemma AbortHandsOver(s: State, a: nat, choice: Choice, i: nat)
    requires CanAdvance(s, a) && s.agents[a].pc.Aborting? && GroupOk(s)
    ensures var s' := Do(s, Advance(a, choice)); var t := s.agents[a].pc.task;
            && s'.members == s.members
            && Handed(s', i) - Handed(s, i)
               == One(i < |s.members| && s.members[i].cancellation.Hooked? && s.members[i].task == t)
            && Accounted(s', i) && AttachedOnce(s', i)
  {
    AdvanceSum(s, a, choice, Attaching(i));
    AbortingTurn(s, a, choice);
    AbortCallsAlready(s, a, choice, i);
    assert Accounted(s, i) && AttachedOnce(s, i);
    assert i < |s.members| ==> MemberOk(s, i);
  }

  lemma AbortCallsAlready(s: State, a: nat, choice: Choice, i: nat)
    requires CanAdvance(s, a) && s.agents[a].pc.Aborting?
    ensures Sum(Do(s, Advance(a, choice)).agents, ToCall(i)) == Sum(s.agents, ToCall(i))
              + One(i < |s.members| && s.members[i].cancellation.Hooked? && s.members[i].task == s.agents[a].pc.task)
  {
    AdvanceSum(s, a, choice, ToCall(i));
    AbortingTurn(s, a, choice);
    CancellationsCount(s.members, s.agents[a].pc.task, i);
  }

  lemma AbortingKeepsGroup(s: State, a: nat, choice: Choice)
    requires CanAdvance(s, a) && s.agents[a].pc.Aborting? && GroupOk(s)
    ensures GroupOk(Do(s, Advance(a, choice)))
  {
    var s' := Do(s, Advance(a, choice));
    AbortingTurn(s, a, choice);
    forall i: nat
      ensures Accounted(s', i) && AttachedOnce(s', i)
    {
      AbortHandsOver(s, a, choice, i);
    }
    forall i | 0 <= i < |s'.members|
      ensures MemberOk(s', i)
    {
      assert MemberOk(s, i);
    }
  }

  // ---- a handler is called

  lemma CallingTurn(s: State, a: nat, choice: Choice)
    requires CanAdvance(s, a) && Todo(s.agents[a].pc) != []
    ensures var i := Todo(s.agents[a].pc)[0]; var turn := MoveTask(s, a, choice);
            && i < |s.members| && Todo(turn.pc) == Todo(s.agents[a].pc)[1..] && !Attaches(turn.pc)
            && turn.after == Signal(s, i)
            && turn.pc == (if s.agents[a].pc.Exiting? then Exiting(s.agents[a].pc.task, Todo(turn.pc))
                           else Cancelling(Todo(turn.pc)))
  {
  }

  lemma CallingKeepsAccount(s: State, a: nat, choice: Choice, i: nat)
    requires CanAdvance(s, a) && Todo(s.agents[a].pc) != [] && GroupOk(s)
    ensures Accounted(Do(s, Advance(a, choice)), i) && AttachedOnce(Do(s, Advance(a, choice)), i)
  {
    AdvanceSum(s, a, choice, Attaching(i));
    CallingTurn(s, a, choice);
    OneCallLess(s, a, choice, i);
    assert Accounted(s, i) && AttachedOnce(s, i);
  }

  lemma OneCallLess(s: State, a: nat, choice: Choice, i: nat)
    requires CanAdvance(s, a) && Todo(s.agents[a].pc) != []
    ensures Sum(Do(s, Advance(a, choice)).agents, ToCall(i)) == Sum(s.agents, ToCall(i)) - One(Todo(s.agents[a].pc)[0] == i)
  {
    AdvanceSum(s, a, choice, ToCall(i));
    CallingTurn(s, a, choice);
    PopCount(Todo(s.agents[a].pc), i);
  }

  lemma CallingKeepsGroup(s: State, a: nat, choice: Choice)
    requires CanAdvance(s, a) && Todo(s.agents[a].pc) != [] && GroupOk(s)
    ensures GroupOk(Do(s, Advance(a, choice)))
  {
    var s' := Do(s, Advance(a, choice));
    var j := Todo(s.agents[a].pc)[0];
    CallingTurn(s, a, choice);
    SumUpdate(s.members, j, s.members[j].(signals := s.members[j].signals + 1), Signals());
    forall i: nat
      ensures Accounted(s', i) && AttachedOnce(s', i)
    {
      CallingKeepsAccount(s, a, choice, i);
    }
    forall i | 0 <= i < |s'.members|
      ensures MemberOk(s', i)
    {
      assert MemberOk(s, i);
    }
  }

  // ---- attach

  /** The member after a step of attach. */
  function AttachMember(s: State, pc: Pc, member: Member): Member
    requires Attaches(pc) && member.task < |s.tasks|
  {
    var exits, cancels := s.tasks[member.task].completions, s.cancels[member.task];
    match pc
    case AttachRead(_) => member.(reading := Read(exits, cancels))
    case AttachCount(_) => member.(counted := true, signals := member.signals + 1)
    case AttachCompletion(_) => member.(completion := Hooked(exits))
    case AttachCancellation(_) => member.(cancellation := Hooked(cancels))
  }

  lemma AttachingTurn(s: State, a: nat, choice: Choice)
    requires CanAdvance(s, a) && Attaches(s.agents[a].pc)
    ensures var pc := s.agents[a].pc; var i := pc.member; var turn := MoveTask(s, a, choice);
            && turn.after == s.(members := s.members[i := AttachMember(s, pc, s.members[i])],
                                finished := s.finished + One(pc.AttachCount?))
            && Todo(turn.pc) == []
            && (if pc.AttachCount? || pc.AttachCancellation? then turn.pc.Ended?
                else Attaches(turn.pc) && turn.pc.member == i && !turn.pc.AttachRead?
                     && (turn.pc.AttachCancellation? <==> pc.AttachCompletion?))
  {
  }

  lemma AttachKeepsAccount(s: State, a: nat, choice: Choice, i: nat)
    requires CanAdvance(s, a) && Attaches(s.agents[a].pc) && GroupOk(s)
    ensures Accounted(Do(s, Advance(a, choice)), i)
  {
    AdvanceSum(s, a, choice, ToCall(i));
    AttachingTurn(s, a, choice);
    assert AttachFits(s.members, s.agents[a].pc);
    assert Accounted(s, i);
    assert i < |s.members| ==> MemberOk(s, i);
  }

  lemma AttachKeepsOnce(s: State, a: nat, choice: Choice, i: nat)
    requires CanAdvance(s, a) && Attaches(s.agents[a].pc) && GroupOk(s)
    ensures AttachedOnce(Do(s, Advance(a, choice)), i)
  {
    AdvanceSum(s, a, choice, Attaching(i));
    AttachingTurn(s, a, choice);
    assert AttachFits(s.members, s.agents[a].pc);
    assert AttachedOnce(s, i);
  }

  lemma AttachKeepsFits(s: State, a: nat, choice: Choice)
    requires CanAdvance(s, a) && Attaches(s.agents[a].pc) && GroupOk(s)
    ensures var s' := Do(s, Advance(a, choice));
            forall b :: 0 <= b < |s'.agents| ==> AttachFits(s'.members, s'.agents[b].pc)
  {
    var s' := Do(s, Advance(a, choice));
    AttachingAlone(s, a);
    AttachingTurn(s, a, choice);
    forall b | 0 <= b < |s'.agents|
      ensures AttachFits(s'.members, s'.agents[b].pc)
    {
      assert AttachFits(s.members, s.agents[a].pc);
      assert b < |s.agents| ==> AttachFits(s.members, s.agents[b].pc);
    }
  }

  lemma AttachKeepsGroup(s: State, a: nat, choice: Choice)
    requires CanAdvance(s, a) && Attaches(s.agents[a].pc) && GroupOk(s)
    ensures GroupOk(Do(s, Advance(a, choice)))
  {
    var s' := Do(s, Advance(a, choice));
    var j := s.agents[a].pc.member;
    AttachingTurn(s, a, choice);
    AttachKeepsFits(s, a, choice);
    assert MemberOk(s, j);
    SumUpdate(s.members, j, AttachMember(s, s.agents[a].pc, s.members[j]), Signals());
    forall i: nat
      ensures Accounted(s', i) && AttachedOnce(s', i)
    {
      AttachKeepsAccount(s, a, choice, i);
      AttachKeepsOnce(s, a, choice, i);
    }
    forall i | 0 <= i < |s'.members|
      ensures MemberOk(s', i)
    {
      assert MemberOk(s, i);
    }
  }

  // ---- calls

  /** Nothing that the group looks at has changed, but for records of new tasks and a new call. */
  lemma CallMembers(s: State, step: Step)
    requires Enabled(s, step) && !step.Advance? && !step.Attach?
    ensures var s' := Do(s, step);
            && s'.members == s.members && s'.finished == s.finished && s'.cancels == s.cancels
            && |s.tasks| <= |s'.tasks|
            && forall t :: 0 <= t < |s.tasks| ==> s'.tasks[t].completions == s.tasks[t].completions
    ensures StartsAgent(step) ==> Todo(Starts(s, step).pc) == [] && !Attaches(Starts(s, step).pc)
  {
  }

  lemma CallKeepsAccount(s: State, step: Step, i: nat)
    requires Enabled(s, step) && !step.Advance? && !step.Attach? && GroupOk(s)
    ensures Accounted(Do(s, step), i) && AttachedOnce(Do(s, step), i)
  {
    CallMembers(s, step);
    CallFrame(s, step);
    if StartsAgent(step) {
      SumAppend(s.agents, Starts(s, step), ToCall(i));
      SumAppend(s.agents, Starts(s, step), Attaching(i));
    }
    assert Accounted(s, i) && AttachedOnce(s, i);
    assert i < |s.members| ==> MemberOk(s, i);
  }

  lemma CallKeepsGroup(s: State, step: Step)
    requires Enabled(s, step) && !step.Advance? && !step.Attach? && GroupOk(s)
    ensures GroupOk(Do(s, step))
  {
    var s' := Do(s, step);
    CallMembers(s, step);
    CallFrame(s, step);
    forall i: nat
      ensures Accounted(s', i) && AttachedOnce(s', i)
    {
      CallKeepsAccount(s, step, i);
    }
    forall i | 0 <= i < |s'.members|
      ensures MemberOk(s', i)
    {
      assert MemberOk(s, i);
    }
  }

  lemma NewMemberKeepsGroup(s: State, t: TaskId)
    requires Enabled(s, Attach(t)) && GroupOk(s)
    ensures GroupOk(Do(s, Attach(t)))
  {
    var s' := Do(s, Attach(t));
    var n := |s.members|;
    var agent := Agent(AttachRead(n), Vacant);
    SumAppend(s.members, s'.members[n], Signals());
    forall i: nat
      ensures Accounted(s', i) && AttachedOnce(s', i)
    {
      SumAppend(s.agents, agent, ToCall(i));
      SumAppend(s.agents, agent, Attaching(i));
      assert Accounted(s, i) && AttachedOnce(s, i);
    }
    forall i | 0 <= i < |s'.members|
      ensures MemberOk(s', i)
    {
      assert i < n ==> MemberOk(s, i);
    }
    forall a | 0 <= a < |s'.agents|
      ensures AttachFits(s'.members, s'.agents[a].pc)
    {
      assert a < |s.agents| ==> AttachFits(s.members, s.agents[a].pc);
    }
  }

  lemma StepKeepsGroup(s: State, step: Step)
    requires Enabled(s, step) && GroupOk(s)
    ensures GroupOk(Do(s, step))
  {
    match step
    case Advance(a, choice) =>
      var pc := s.agents[a].pc;
      if UsesSlot(pc) {
        RunTaskKeepsGroup(s, a, choice);
      } else if Attaches(pc) {
        AttachKeepsGroup(s, a, choice);
      } else if Todo(pc) != [] {
        CallingKeepsGroup(s, a, choice);
      } else if pc.Aborting? {
        AbortingKeepsGroup(s, a, choice);
      } else {
        QuietKeepsGroup(s, a, choice);
      }
    case Attach(t) => NewMemberKeepsGroup(s, t);
    case _ => CallKeepsGroup(s, step);
  }

  lemma {:induction false} RunKeepsGroup(s: State, steps: seq<Step>, s': State)
    requires GroupOk(s) && Runs(s, steps, s')
    ensures GroupOk(s')
    decreases |steps|
  {
    if steps != [] {
      StepKeepsGroup(s, steps[0]);
      RunKeepsGroup(Do(s, steps[0]), steps[1..], s');
    }
  }

  lemma InitGroup(s: State)
    requires Init(s)
    ensures GroupOk(s)
  {
    assert s.agents[..|s.agents| - 1] == [];
    forall i: nat
      ensures Accounted(s, i) && AttachedOnce(s, i)
    {
      assert Sum(s.agents, ToCall(i)) == ToCall(i)(Agent(Outside, Vacant));
      assert Sum(s.agents, Attaching(i)) == Attaching(i)(Agent(Outside, Vacant));
    }
  }
}
