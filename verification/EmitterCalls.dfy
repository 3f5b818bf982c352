/**
 * What a program does with the emitter, call by call: emits call handlers, and handlers are programs
 * that call the emitter again. Each effect is a run of the steps of EventEmitter.
 */
module EmitterCalls {
  import opened EventEmitter

  /** What one call of a handler does with the emitter. */
  datatype Program = Program(actions: seq<Action>, throws: bool)

  /**
   * One action. The k-th handler that an emit calls behaves like `handlers[k]`, and does nothing
   * beyond the last; `catches` says that the caller goes on when the emit throws.
   */
  datatype Action =
    | Register(event: string, functor: nat, limit: Limit)
    | Remove(event: string, functor: nat)
    | RemoveAll(event: string)
    | Fire(event: string, handlers: seq<Program>, catches: bool)

  /** The state afterwards, the steps taken, and whether an exception comes out. */
  datatype Effect = Effect(after: State, steps: seq<Step>, threw: bool)

  // ---- joining runs

  lemma {:induction false} RunsJoin(s: State, a: seq<Step>, m: State, b: seq<Step>, s': State)
    requires Runs(s, a, m) && Runs(m, b, s')
    ensures Runs(s, a + b, s')
    decreases |a|
  {
    if a == [] {
      assert a + b == b;
    } else {
      assert (a + b)[1..] == a[1..] + b;
      RunsJoin(Do(s, a[0]), a[1..], m, b, s');
    }
  }

  lemma StepFirst(s: State, step: Step, b: seq<Step>, s': State)
    requires Enabled(s, step) && Runs(Do(s, step), b, s')
    ensures Runs(s, [step] + b, s')
  {
    assert ([step] + b)[1..] == b;
  }

  lemma OneStep(s: State, step: Step)
    requires Enabled(s, step)
    ensures Runs(s, [step], Do(s, step))
  {
    assert [step][1..] == [];
  }

  /** An effect that is a run, keeps the invariant and leaves the stack with these frames. */
  ghost predicate Sound(s: State, effect: Effect, frames: seq<Frame>) {
    Ok(effect.after) && Runs(s, effect.steps, effect.after) && effect.after.frames == frames
  }

  /** One step and then another effect. */
  function After(step: Step, effect: Effect): Effect {
    effect.(steps := [step] + effect.steps)
  }

  function Then(first: Effect, second: Effect): Effect {
    second.(steps := first.steps + second.steps)
  }

  // ---- programs and emits

  /** The step of an action that is no emit. */
  function StepOf(action: Action): Step {
    match action
    case Register(event, functor, limit) => On(event, functor, limit)
    case Remove(event, functor) => Off(event, functor)
    case RemoveAll(event) => AllOff(event)
    case Fire(event, _, _) => Emit(event)
  }

  lemma ActionIsEnabled(s: State, action: Action)
    requires Ok(s) && CodeRuns(s)
    ensures Enabled(s, StepOf(action)) && Ok(Do(s, StepOf(action)))
    ensures !action.Fire? ==> Do(s, StepOf(action)).frames == s.frames
  {
    ReadyForCode(s, action.event);
    StepOk(s, StepOf(action));
  }

  /** A program's actions from the n-th on. */
  ghost function Performed(s: State, program: Program, n: nat): (effect: Effect)
    requires Ok(s) && CodeRuns(s) && n <= |program.actions|
    ensures Sound(s, effect, s.frames)
    decreases program, 0, |program.actions| - n
  {
    if n == |program.actions| then Effect(s, [], program.throws)
    else
      var first := Acted(s, program.actions[n]);
      if first.threw && !program.actions[n].catches then first
      else
        var rest := Performed(first.after, program, n + 1);
        RunsJoin(s, first.steps, first.after, rest.steps, rest.after);
        Then(first, rest)
  }

  /** One action; only an emit can throw. */
  ghost function Acted(s: State, action: Action): (effect: Effect)
    requires Ok(s) && CodeRuns(s)
    ensures Sound(s, effect, s.frames) && (effect.threw ==> action.Fire?)
    decreases action, 3, 0
  {
    if action.Fire? then Emitted(s, action)
    else
      ActionIsEnabled(s, action);
      OneStep(s, StepOf(action));
      Effect(Do(s, StepOf(action)), [StepOf(action)], false)
  }

  /** emit: the loop over the listeners, if there are any. */
  ghost function Emitted(s: State, action: Action): (effect: Effect)
    requires action.Fire? && Ok(s) && CodeRuns(s)
    ensures Sound(s, effect, s.frames)
    decreases action, 2, 0
  {
    ActionIsEnabled(s, action);
    var begun := Do(s, Emit(action.event));
    if action.event !in s.current then
      OneStep(s, Emit(action.event));
      Effect(begun, [Emit(action.event)], false)
    else
      var loop := Looped(begun, action, 0);
      StepFirst(s, Emit(action.event), loop.steps, loop.after);
      After(Emit(action.event), loop)
  }

  /** An emit is at the head of its loop. */
  ghost predicate AtLoop(s: State) {
    Ok(s) && s.frames != [] && !Top(s).calling
  }

  function Below(s: State): seq<Frame>
    requires s.frames != []
  {
    s.frames[..|s.frames| - 1]
  }

  /** The loop from the listener at hand on, when `k` handlers have been called. */
  ghost function Looped(s: State, action: Action, k: nat): (effect: Effect)
    requires action.Fire? && AtLoop(s)
    ensures Sound(s, effect, Below(s))
    decreases action, 1, Left(s)
  {
    ReadyToVisit(s);
    if Top(s).index >= Top(s).length then
      LoopEnds(s);
      Effect(Do(s, End), [End], false)
    else
      var visited := Do(s, Visit);
      VisitGoesOn(s);
      if !Top(visited).calling then
        var rest := Looped(visited, action, k);
        StepFirst(s, Visit, rest.steps, rest.after);
        After(Visit, rest)
      else
        var inner := Called(visited, action, k);
        StepFirst(s, Visit, inner.steps, inner.after);
        if inner.threw then After(Visit, inner)
        else
          var rest := Looped(inner.after, action, k + 1);
          RunsJoin(s, [Visit] + inner.steps, inner.after, rest.steps, rest.after);
          Then(After(Visit, inner), rest)
  }

  /** The emit on top of the stack goes on with its next listener, or an exception has ended it. */
  predicate LeavesHandler(s: State, after: State, threw: bool)
    requires s.frames != []
  {
    if threw then after.frames == Below(s)
    else
      && after.frames != [] && Below(after) == Below(s)
      && Top(after) == Top(s).(calling := false, index := Top(s).index + 1)
  }

  /** The body of the k-th handler that an emit calls. */
  ghost function Handled(s: State, action: Action, k: nat): (effect: Effect)
    requires action.Fire? && Ok(s) && CodeRuns(s)
    ensures Sound(s, effect, s.frames)
    decreases action, 0, 0
  {
    if k < |action.handlers| then Performed(s, action.handlers[k], 0) else Effect(s, [], false)
  }

  /** The call of the k-th handler of an emit: its program, and the return into the loop or out of it. */
  ghost function Called(s: State, action: Action, k: nat): (effect: Effect)
    requires action.Fire? && Ok(s) && s.frames != [] && Top(s).calling
    ensures Ok(effect.after) && Runs(s, effect.steps, effect.after) && LeavesHandler(s, effect.after, effect.threw)
    decreases action, 0, 1
  {
    var inner := Handled(s, action, k);
    var step := if inner.threw then Throw else Return;
    HandlerLeaves(s, inner, step);
    Effect(Do(inner.after, step), inner.steps + [step], inner.threw)
  }

  // ---- the steps between

  /** Listeners still to be visited. */
  function Left(s: State): nat {
    if s.frames != [] && Top(s).index <= Top(s).length then Top(s).length - Top(s).index else 0
  }

  lemma LoopEnds(s: State)
    requires AtLoop(s) && Top(s).index >= Top(s).length
    ensures Enabled(s, End) && Ok(Do(s, End)) && Runs(s, [End], Do(s, End)) && Do(s, End).frames == Below(s)
    ensures Do(s, End).ended == s.ended + [Top(s)] && Top(s).visited == Top(s).snapshot
  {
    assert FrameOk(s, s.frames[|s.frames| - 1]);
    StepOk(s, End);
    OneStep(s, End);
  }

  lemma VisitGoesOn(s: State)
    requires AtLoop(s) && Top(s).index < Top(s).length
    ensures Enabled(s, Visit)
    ensures var visited := Do(s, Visit);
            && Ok(visited) && visited.frames != [] && Below(visited) == Below(s) && Top(visited).length == Top(s).length
            && Top(visited).snapshot == Top(s).snapshot && Top(visited).list == Top(s).list
            && Top(visited).index == if Top(visited).calling then Top(s).index else Top(s).index + 1
  {
    ReadyToVisit(s);
    StepOk(s, Visit);
  }

  lemma HandlerLeaves(s: State, inner: Effect, step: Step)
    requires Ok(s) && s.frames != [] && Top(s).calling && Sound(s, inner, s.frames)
    requires step == if inner.threw then Throw else Return
    ensures Enabled(inner.after, step) && Ok(Do(inner.after, step)) && Runs(s, inner.steps + [step], Do(inner.after, step))
    ensures LeavesHandler(s, Do(inner.after, step), inner.threw)
  {
    StepOk(inner.after, step);
    OneStep(inner.after, step);
    RunsJoin(s, inner.steps, inner.after, [step], Do(inner.after, step));
    StackAfter(s, inner.after, step);
  }

  lemma StackAfter(s: State, m: State, step: Step)
    requires m.frames == s.frames && s.frames != [] && Top(s).calling && (step.Return? || step.Throw?)
    ensures LeavesHandler(s, Do(m, step), step.Throw?)
  {
  }

  // ---- an emit that ends has visited its event's listeners

  function EndCount(steps: seq<Step>): nat {
    if steps == [] then 0 else (if steps[0].End? then 1 else 0) + EndCount(steps[1..])
  }

  /** Every emit that ends without an exception leaves its frame behind, and no frame goes away. */
  lemma {:induction false} EndsAreCounted(s: State, steps: seq<Step>, s': State)
    requires Runs(s, steps, s')
    ensures s.ended <= s'.ended && |s'.ended| == |s.ended| + EndCount(steps)
    decreases |steps|
  {
    if steps != [] {
      EndsAreCounted(Do(s, steps[0]), steps[1..], s');
    }
  }

  /** Without an exception the effect's last step is an End, of an emit that has visited this snapshot. */
  ghost predicate EndsWith(effect: Effect, snapshot: seq<nat>) {
    !effect.threw ==>
      && (exists steps: seq<Step> :: effect.steps == steps + [End])
      && exists ended: seq<Frame>, frame: Frame :: effect.after.ended == ended + [frame] && frame.visited == snapshot
  }

  lemma EndsLater(step: Step, first: Effect, rest: Effect, snapshot: seq<nat>)
    requires EndsWith(rest, snapshot)
    ensures EndsWith(After(step, rest), snapshot) && EndsWith(Then(first, rest), snapshot)
  {
    if !rest.threw {
      var steps: seq<Step> :| rest.steps == steps + [End];
      assert [step] + rest.steps == ([step] + steps) + [End];
      assert first.steps + rest.steps == (first.steps + steps) + [End];
    }
  }

  lemma {:induction false} LoopEndsWithAll(s: State, action: Action, k: nat)
    requires action.Fire? && AtLoop(s)
    ensures EndsWith(Looped(s, action, k), Top(s).snapshot)
    decreases Left(s), 1
  {
    ReadyToVisit(s);
    if Top(s).index >= Top(s).length {
      LoopEnds(s);
      assert [] + [End] == [End];
    } else {
      var visited := Do(s, Visit);
      VisitGoesOn(s);
      if !Top(visited).calling {
        LoopEndsWithAll(visited, action, k);
        EndsLater(Visit, Looped(visited, action, k), Looped(visited, action, k), Top(s).snapshot);
      } else {
        CallEndsWithAll(s, action, k);
      }
    }
  }

  lemma {:induction false} CallEndsWithAll(s: State, action: Action, k: nat)
    requires Calling(s) && action.Fire?
    ensures EndsWith(Looped(s, action, k), Top(s).snapshot)
    decreases Left(s), 0
  {
    var inner := Called(Do(s, Visit), action, k);
    if inner.threw {
      ThrowLeavesLoop(s, action, k);
    } else {
      LoopContinues(s, action, k);
      LoopEndsWithAll(inner.after, action, k + 1);
      EndsLater(Visit, After(Visit, inner), Looped(inner.after, action, k + 1), Top(s).snapshot);
    }
  }

  /** The listener at hand is one that is called. */
  ghost predicate Calling(s: State) {
    && AtLoop(s) && Top(s).index < Top(s).length && Enabled(s, Visit)
    && Ok(Do(s, Visit)) && Do(s, Visit).frames != [] && Top(Do(s, Visit)).calling
  }

  lemma ThrowLeavesLoop(s: State, action: Action, k: nat)
    requires Calling(s) && action.Fire? && Called(Do(s, Visit), action, k).threw
    ensures Looped(s, action, k) == After(Visit, Called(Do(s, Visit), action, k))
  {
  }

  lemma LoopContinues(s: State, action: Action, k: nat)
    requires Calling(s) && action.Fire? && !Called(Do(s, Visit), action, k).threw
    ensures var inner := Called(Do(s, Visit), action, k);
            && AtLoop(inner.after) && Left(inner.after) < Left(s) && Top(inner.after).snapshot == Top(s).snapshot
            && Looped(s, action, k) == Then(After(Visit, inner), Looped(inner.after, action, k + 1))
  {
    VisitGoesOn(s);
  }

  lemma EmitBegins(s: State, e: string)
    requires Ok(s) && Enabled(s, Emit(e)) && e in s.current
    ensures var begun := Do(s, Emit(e));
            begun.frames == s.frames + [Top(begun)] && !Top(begun).calling && Top(begun).snapshot == Listeners(s.registrations, e)
  {
    assert EventOk(s, e);
  }

  /**
   * An emit of an event with an array that does not throw leaves one frame more in `ended` than the
   * emits that ended inside it; that frame is the last, and it has visited exactly the listeners that the
   * event had when emit was called, in order of registration.
   */
  lemma EmitVisitsAllListeners(s: State, action: Action)
    requires action.Fire? && Ok(s) && CodeRuns(s) && action.event in s.current && !Emitted(s, action).threw
    ensures var effect := Emitted(s, action); var ended := effect.after.ended;
            && s.ended <= ended && |ended| == |s.ended| + EndCount(effect.steps) > |s.ended|
            && LastVisited(ended) == Listeners(s.registrations, action.event)
  {
    var effect := Emitted(s, action);
    EmitEndsWithListeners(s, action);
    EndsAreCounted(s, effect.steps, effect.after);
    LastFrame(effect, Listeners(s.registrations, action.event));
  }

  /** Whom the emit visited that ended last. */
  function LastVisited(ended: seq<Frame>): seq<nat> {
    if ended == [] then [] else ended[|ended| - 1].visited
  }

  lemma LastFrame(effect: Effect, snapshot: seq<nat>)
    requires EndsWith(effect, snapshot) && !effect.threw
    ensures LastVisited(effect.after.ended) == snapshot && EndCount(effect.steps) > 0
  {
    var steps: seq<Step> :| effect.steps == steps + [End];
    LastEnd(effect.steps);
  }

  lemma EmitEndsWithListeners(s: State, action: Action)
    requires action.Fire? && Ok(s) && CodeRuns(s) && action.event in s.current
    ensures EndsWith(Emitted(s, action), Listeners(s.registrations, action.event))
  {
    ActionIsEnabled(s, action);
    EmitBegins(s, action.event);
    var loop := Looped(Do(s, Emit(action.event)), action, 0);
    LoopEndsWithAll(Do(s, Emit(action.event)), action, 0);
    EndsLater(Emit(action.event), loop, loop, Listeners(s.registrations, action.event));
  }

  lemma {:induction false} LastEnd(steps: seq<Step>)
    requires steps != [] && steps[|steps| - 1] == End
    ensures EndCount(steps) > 0
  {
    if |steps| > 1 {
      LastEnd(steps[1..]);
    }
  }

  // ---- an emit throws exactly if a handler does

  /** What the programs of the handlers do that the loop calls from here on, in order. */
  ghost function HandlerEffects(s: State, action: Action, k: nat): seq<Effect>
    requires action.Fire? && AtLoop(s)
    decreases Left(s)
  {
    ReadyToVisit(s);
    if Top(s).index >= Top(s).length then []
    else
      var visited := Do(s, Visit);
      VisitGoesOn(s);
      if !Top(visited).calling then HandlerEffects(visited, action, k)
      else
        var handled := Handled(visited, action, k);
        [handled] + if handled.threw then [] else HandlerEffects(Called(visited, action, k).after, action, k + 1)
  }

  /** Only the last of the effects throws, if any does, and `threw` says whether. */
  predicate ThrowsLast(effects: seq<Effect>, threw: bool) {
    && (threw <==> exists j :: 0 <= j < |effects| && effects[j].threw)
    && (forall j :: 0 <= j < |effects| - 1 ==> !effects[j].threw)
  }

  lemma ThrowsLater(first: Effect, rest: seq<Effect>, threw: bool)
    requires if first.threw then rest == [] && threw else ThrowsLast(rest, threw)
    ensures ThrowsLast([first] + rest, threw)
  {
    var effects := [first] + rest;
    assert effects[0] == first && forall j :: 0 <= j < |rest| ==> effects[j + 1] == rest[j];
  }

  /** An exception comes out of an emit exactly if one comes out of a handler it calls, and that handler is its last. */
  lemma {:induction false} LoopThrowsExactly(s: State, action: Action, k: nat)
    requires action.Fire? && AtLoop(s)
    ensures ThrowsLast(HandlerEffects(s, action, k), Looped(s, action, k).threw)
    decreases Left(s), 1
  {
    ReadyToVisit(s);
    if Top(s).index < Top(s).length {
      var visited := Do(s, Visit);
      VisitGoesOn(s);
      if !Top(visited).calling {
        LoopThrowsExactly(visited, action, k);
      } else {
        CallThrowsExactly(s, action, k);
      }
    }
  }

  lemma {:induction false} CallThrowsExactly(s: State, action: Action, k: nat)
    requires Calling(s) && action.Fire?
    ensures ThrowsLast(HandlerEffects(s, action, k), Looped(s, action, k).threw)
    decreases Left(s), 0
  {
    var visited := Do(s, Visit);
    var handled, inner := Handled(visited, action, k), Called(visited, action, k);
    if inner.threw {
      ThrowLeavesLoop(s, action, k);
      ThrowsLater(handled, [], true);
    } else {
      LoopContinues(s, action, k);
      LoopThrowsExactly(inner.after, action, k + 1);
      ThrowsLater(handled, HandlerEffects(inner.after, action, k + 1), Looped(inner.after, action, k + 1).threw);
    }
    EffectsContinue(s, action, k);
  }

  lemma EffectsContinue(s: State, action: Action, k: nat)
    requires Calling(s) && action.Fire?
    ensures var handled, inner := Handled(Do(s, Visit), action, k), Called(Do(s, Visit), action, k);
            && inner.threw == handled.threw
            && (!inner.threw ==> AtLoop(inner.after))
            && HandlerEffects(s, action, k) == [handled] + if inner.threw then [] else HandlerEffects(inner.after, action, k + 1)
  {
    VisitGoesOn(s);
  }

  lemma EmitThrowsExactly(s: State, action: Action)
    requires action.Fire? && Ok(s) && CodeRuns(s)
    ensures action.event !in s.current ==> !Emitted(s, action).threw && Emitted(s, action).after == s
    ensures action.event in s.current ==>
              && Enabled(s, Emit(action.event)) && AtLoop(Do(s, Emit(action.event)))
              && ThrowsLast(HandlerEffects(Do(s, Emit(action.event)), action, 0), Emitted(s, action).threw)
  {
    ActionIsEnabled(s, action);
    if action.event in s.current {
      LoopThrowsExactly(Do(s, Emit(action.event)), action, 0);
    }
  }

  // ---- a program takes the steps of its actions

  /** The steps of a run that are taken with `d` emits in progress. */
  ghost function AtDepth(s: State, steps: seq<Step>, d: nat): seq<Step>
    decreases |steps|
  {
    if steps == [] || !Enabled(s, steps[0]) then []
    else (if |s.frames| == d then [steps[0]] else []) + AtDepth(Do(s, steps[0]), steps[1..], d)
  }

  lemma {:induction false} DepthJoins(s: State, a: seq<Step>, m: State, b: seq<Step>, d: nat)
    requires Runs(s, a, m)
    ensures AtDepth(s, a + b, d) == AtDepth(s, a, d) + AtDepth(m, b, d)
    decreases |a|
  {
    if a == [] {
      assert a + b == b;
    } else {
      assert (a + b)[1..] == a[1..] + b;
      DepthJoins(Do(s, a[0]), a[1..], m, b, d);
    }
  }

  lemma DepthFirst(s: State, step: Step, b: seq<Step>, d: nat)
    requires Enabled(s, step)
    ensures AtDepth(s, [step] + b, d) == (if |s.frames| == d then [step] else []) + AtDepth(Do(s, step), b, d)
  {
    assert ([step] + b)[1..] == b;
  }

  /** The steps of the first `m` actions. */
  function StepsOf(actions: seq<Action>): seq<Step> {
    seq(|actions|, i requires 0 <= i < |actions| => StepOf(actions[i]))
  }

  /** What the actions do that a program performs from the n-th on, in order. */
  ghost function ActionEffects(s: State, program: Program, n: nat): seq<Effect>
    requires Ok(s) && CodeRuns(s) && n <= |program.actions|
    decreases |program.actions| - n
  {
    if n == |program.actions| then []
    else
      var first := Acted(s, program.actions[n]);
      [first] + if first.threw && !program.actions[n].catches then [] else ActionEffects(first.after, program, n + 1)
  }

  /** The effect of an action ends its program. */
  predicate Stops(action: Action, effect: Effect) {
    action.Fire? && !action.catches && effect.threw
  }

  /** Nothing is done at a depth below that of the state. */
  ghost predicate StaysAbove(s: State, steps: seq<Step>, depth: nat) {
    forall d: nat {:trigger AtDepth(s, steps, d)} :: d < depth ==> AtDepth(s, steps, d) == []
  }

  lemma {:induction false} AboveJoins(s: State, a: seq<Step>, m: State, b: seq<Step>, depth: nat)
    requires Runs(s, a, m) && StaysAbove(s, a, depth) && StaysAbove(m, b, depth)
    ensures StaysAbove(s, a + b, depth)
  {
    forall d: nat | d < depth
      ensures AtDepth(s, a + b, d) == []
    {
      DepthJoins(s, a, m, b, d);
    }
  }

  lemma AboveFirst(s: State, step: Step, b: seq<Step>, depth: nat)
    requires Enabled(s, step) && depth <= |s.frames| && StaysAbove(Do(s, step), b, depth)
    ensures StaysAbove(s, [step] + b, depth)
  {
    forall d: nat | d < depth
      ensures AtDepth(s, [step] + b, d) == []
    {
      DepthFirst(s, step, b, d);
    }
  }

  lemma AboveOne(s: State, step: Step, depth: nat)
    requires Enabled(s, step) && depth <= |s.frames|
    ensures StaysAbove(s, [step], depth)
  {
    AboveFirst(s, step, [], depth);
    assert [step] + [] == [step];
  }

  /**
   * What performing actions amounts to, if `own` are the steps at the program's own depth: one for each action,
   * in order; either all actions, or all up to an emit that throws and is not caught; and an exception
   * comes out exactly in that case, or if the program throws after its last action.
   */
  predicate Performs(own: seq<Step>, actions: seq<Action>, throws: bool, threw: bool, effects: seq<Effect>) {
    && |effects| <= |actions| && own == StepsOf(actions[..|effects|])
    && (forall j :: 0 <= j < |effects| - 1 ==> !Stops(actions[j], effects[j]))
    && if effects != [] && Stops(actions[|effects| - 1], effects[|effects| - 1]) then threw
       else |effects| == |actions| && threw == throws
  }

  lemma PerformsOne(actions: seq<Action>, throws: bool, first: Effect)
    requires actions != [] && Stops(actions[0], first)
    ensures Performs([StepOf(actions[0])], actions, throws, first.threw, [first])
  {
    assert StepsOf(actions[..1]) == [StepOf(actions[0])];
  }

  lemma PerformsMore(own: seq<Step>, actions: seq<Action>, throws: bool, first: Effect, threw: bool, effects: seq<Effect>)
    requires actions != [] && !Stops(actions[0], first) && Performs(own, actions[1..], throws, threw, effects)
    ensures Performs([StepOf(actions[0])] + own, actions, throws, threw, [first] + effects)
  {
    StepsGrow(actions, |effects|);
    StopsLater(actions, first, effects);
  }

  lemma StepsGrow(actions: seq<Action>, m: nat)
    requires m < |actions|
    ensures StepsOf(actions[..m + 1]) == [StepOf(actions[0])] + StepsOf(actions[1..][..m])
  {
  }

  lemma StopsLater(actions: seq<Action>, first: Effect, effects: seq<Effect>)
    requires |effects| < |actions| && !Stops(actions[0], first)
    requires forall j :: 0 <= j < |effects| - 1 ==> !Stops(actions[1..][j], effects[j])
    ensures forall j :: 0 <= j < |effects| ==> !Stops(actions[j], ([first] + effects)[j])
    ensures effects != [] ==> ([first] + effects)[|effects|] == effects[|effects| - 1] && actions[|effects|] == actions[1..][|effects| - 1]
  {
    forall j | 0 <= j < |effects|
      ensures !Stops(actions[j], ([first] + effects)[j])
    {
      assert j > 0 ==> actions[j] == actions[1..][j - 1] && ([first] + effects)[j] == effects[j - 1];
    }
  }

  lemma {:induction false} PerformsItsActions(s: State, program: Program, n: nat)
    requires Ok(s) && CodeRuns(s) && n <= |program.actions|
    ensures var effect := Performed(s, program, n);
            && Performs(AtDepth(s, effect.steps, |s.frames|), program.actions[n..], program.throws, effect.threw,
                        ActionEffects(s, program, n))
            && StaysAbove(s, effect.steps, |s.frames|)
    decreases program, 0, |program.actions| - n
  {
    if n < |program.actions| {
      var actions, first := program.actions[n..], Acted(s, program.actions[n]);
      ActsOnce(s, program.actions[n]);
      if Stops(actions[0], first) {
        PerformsOne(actions, program.throws, first);
        assert [first] + [] == [first];
      } else {
        var rest := Performed(first.after, program, n + 1);
        PerformsItsActions(first.after, program, n + 1);
        assert actions[1..] == program.actions[n + 1..];
        PerformsMore(AtDepth(first.after, rest.steps, |s.frames|), actions, program.throws, first, rest.threw,
                     ActionEffects(first.after, program, n + 1));
        DepthJoins(s, first.steps, first.after, rest.steps, |s.frames|);
        AboveJoins(s, first.steps, first.after, rest.steps, |s.frames|);
      }
    }
  }

  /** One action is one step at its own depth. */
  lemma {:induction false} ActsOnce(s: State, action: Action)
    requires Ok(s) && CodeRuns(s)
    ensures AtDepth(s, Acted(s, action).steps, |s.frames|) == [StepOf(action)] && StaysAbove(s, Acted(s, action).steps, |s.frames|)
    decreases action, 3, 0
  {
    ActionIsEnabled(s, action);
    var step := StepOf(action);
    DepthFirst(s, step, [], |s.frames|);
    assert [step] + [] == [step];
    if action.Fire? && action.event in s.current {
      var begun := Do(s, step);
      var loop := Looped(begun, action, 0);
      LoopStaysAbove(begun, action, 0);
      assert AtDepth(begun, loop.steps, |s.frames|) == [];
      DepthFirst(s, step, loop.steps, |s.frames|);
      Shallower(begun, loop.steps, |begun.frames|, |s.frames|);
      AboveFirst(s, step, loop.steps, |s.frames|);
    } else {
      AboveOne(s, step, |s.frames|);
    }
  }

  lemma Shallower(s: State, steps: seq<Step>, depth: nat, less: nat)
    requires StaysAbove(s, steps, depth) && less <= depth
    ensures StaysAbove(s, steps, less)
  {
  }

  /** The loop of an emit and everything called from it. */
  lemma {:induction false} LoopStaysAbove(s: State, action: Action, k: nat)
    requires action.Fire? && AtLoop(s)
    ensures StaysAbove(s, Looped(s, action, k).steps, |s.frames|)
    decreases action, 1, Left(s)
  {
    ReadyToVisit(s);
    if Top(s).index >= Top(s).length {
      LoopEnds(s);
      AboveOne(s, End, |s.frames|);
    } else {
      var visited := Do(s, Visit);
      VisitGoesOn(s);
      if !Top(visited).calling {
        LoopStaysAbove(visited, action, k);
        AboveFirst(s, Visit, Looped(visited, action, k).steps, |s.frames|);
      } else {
        var inner := Called(visited, action, k);
        CallStaysAbove(visited, action, k);
        AboveFirst(s, Visit, inner.steps, |s.frames|);
        if !inner.threw {
          StepFirst(s, Visit, inner.steps, inner.after);
          LoopStaysAbove(inner.after, action, k + 1);
          AboveJoins(s, [Visit] + inner.steps, inner.after, Looped(inner.after, action, k + 1).steps, |s.frames|);
        }
      }
    }
  }

  lemma {:induction false} CallStaysAbove(s: State, action: Action, k: nat)
    requires action.Fire? && Ok(s) && s.frames != [] && Top(s).calling
    ensures StaysAbove(s, Called(s, action, k).steps, |s.frames|)
    decreases action, 0, 0
  {
    var inner := Handled(s, action, k);
    var step := if inner.threw then Throw else Return;
    if k < |action.handlers| {
      PerformsItsActions(s, action.handlers[k], 0);
    }
    HandlerLeaves(s, inner, step);
    AboveOne(inner.after, step, |s.frames|);
    AboveJoins(s, inner.steps, inner.after, [step], |s.frames|);
  }
}
