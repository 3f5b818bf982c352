/**
 * The counted event emitter under re-entrant use: a handler may emit, register and remove listeners,
 * or throw, while the emits that called it are still going through their listeners.
 */
module EventEmitter {

  /** How often a listener may be called. Counting down leaves Infinity as it is. */
  datatype Limit = Infinity | Times(n: int) {
    predicate Positive() {
      Infinity? || n > 0
    }

    function Decremented(): Limit {
      if Infinity? then Infinity else Times(n - 1)
    }
  }

  /**
   * A listener object. `count` is what emit counts down; the rest beside the functor is history: its
   * event, its first count, whether off or allOff has taken it from its event, how often emits came by
   * and how often it was called.
   */
  datatype Registration = Registration(functor: nat, count: Limit, event: string, limit: Limit,
                                       removed: bool, visits: nat, calls: nat)

  /**
   * An emit in progress: the array it goes through, the length it read at the start, its position and
   * whether it is inside a handler; the listeners at its start and those visited are history.
   */
  datatype Frame = Frame(list: nat, length: nat, index: nat, calling: bool, snapshot: seq<nat>, visited: seq<nat>)

  /** Arrays are kept by number, because an emit holds on to its array when off replaces it. */
  datatype State = State(registrations: seq<Registration>, lists: seq<seq<nat>>, current: map<string, nat>,
                         frames: seq<Frame>, ended: seq<Frame>)

  datatype Step =
    | On(event: string, functor: nat, limit: Limit) // on, once and many
    | Off(event: string, functor: nat)
    | AllOff(event: string)
    | Emit(event: string)
    | Visit                                         // one round of emit's loop
    | Return                                        // the handler returns
    | Throw                                         // the handler throws, and so does its emit
    | End                                           // the loop is over

  const INIT := State([], [], map[], [], [])

  function Top(s: State): Frame
    requires s.frames != []
  {
    s.frames[|s.frames| - 1]
  }

  function WithTop(s: State, frame: Frame): State
    requires s.frames != []
  {
    s.(frames := s.frames[|s.frames| - 1 := frame])
  }

  /** Ordinary code runs: outside of every emit, or in the handler that the innermost emit called. */
  predicate CodeRuns(s: State) {
    s.frames == [] || Top(s).calling
  }

  predicate Enabled(s: State, step: Step) {
    match step
    case On(e, _, _) => CodeRuns(s) && (e in s.current ==> s.current[e] < |s.lists|)
    case Off(e, _) =>
      CodeRuns(s) && (e in s.current ==>
        s.current[e] < |s.lists| && forall k :: 0 <= k < |s.lists[s.current[e]]| ==> s.lists[s.current[e]][k] < |s.registrations|)
    case AllOff(e) => CodeRuns(s)
    case Emit(e) => CodeRuns(s) && (e in s.current ==> s.current[e] < |s.lists|)
    case Visit =>
      && s.frames != [] && !Top(s).calling && Top(s).index < Top(s).length
      && Top(s).list < |s.lists| && Top(s).index < |s.lists[Top(s).list]|
      && s.lists[Top(s).list][Top(s).index] < |s.registrations|
    case Return => s.frames != [] && Top(s).calling
    case Throw => s.frames != [] && Top(s).calling
    case End => s.frames != [] && !Top(s).calling && Top(s).index >= Top(s).length
  }

  /** filter(e => e.functor !== target). */
  function Without(registrations: seq<Registration>, list: seq<nat>, functor: nat): seq<nat>
    requires forall k :: 0 <= k < |list| ==> list[k] < |registrations|
  {
    if list == [] then []
    else
      var r := list[|list| - 1];
      Without(registrations, list[..|list| - 1], functor) + if registrations[r].functor != functor then [r] else []
  }

  /** History: the listeners of an event that are taken away. */
  function Removing(registrations: seq<Registration>, e: string, all: bool, functor: nat): (after: seq<Registration>)
    ensures |after| == |registrations|
  {
    seq(|registrations|, r requires 0 <= r < |registrations| =>
      var registration := registrations[r];
      if registration.event == e && (all || registration.functor == functor) then registration.(removed := true)
      else registration)
  }

  function DoOn(s: State, e: string, functor: nat, limit: Limit): State
    requires Enabled(s, On(e, functor, limit))
  {
    var r := |s.registrations|;
    var grown := s.(registrations := s.registrations + [Registration(functor, limit, e, limit, false, 0, 0)]);
    if e in s.current then
      var l := s.current[e];
      grown.(lists := s.lists[l := s.lists[l] + [r]])
    else
      grown.(lists := s.lists + [[r]], current := s.current[e := |s.lists|])
  }

  function DoOff(s: State, e: string, functor: nat): State
    requires Enabled(s, Off(e, functor))
  {
    if e in s.current then
      s.(registrations := Removing(s.registrations, e, false, functor),
         lists := s.lists + [Without(s.registrations, s.lists[s.current[e]], functor)],
         current := s.current[e := |s.lists|])
    else s
  }

  function DoEmit(s: State, e: string): State
    requires Enabled(s, Emit(e))
  {
    if e in s.current then
      var list := s.lists[s.current[e]];
      s.(frames := s.frames + [Frame(s.current[e], |list|, 0, false, list, [])])
    else s
  }

  function DoVisit(s: State): State
    requires Enabled(s, Visit)
  {
    var top := Top(s);
    var r := s.lists[top.list][top.index];
    var registration := s.registrations[r];
    var called := registration.count.Positive();
    WithTop(s.(registrations := s.registrations[r :=
                 registration.(count := registration.count.Decremented(), visits := registration.visits + 1,
                               calls := registration.calls + if called then 1 else 0)]),
            top.(visited := top.visited + [r], calling := called, index := if called then top.index else top.index + 1))
  }

  function Do(s: State, step: Step): State
    requires Enabled(s, step)
  {
    match step
    case On(e, functor, limit) => DoOn(s, e, functor, limit)
    case Off(e, functor) => DoOff(s, e, functor)
    case AllOff(e) => s.(registrations := Removing(s.registrations, e, true, 0), current := s.current - {e})
    case Emit(e) => DoEmit(s, e)
    case Visit => DoVisit(s)
    case Return => WithTop(s, Top(s).(calling := false, index := Top(s).index + 1))
    case Throw => s.(frames := s.frames[..|s.frames| - 1])
    case End => s.(frames := s.frames[..|s.frames| - 1], ended := s.ended + [Top(s)])
  }

  ghost predicate Runs(s: State, steps: seq<Step>, s': State)
    decreases |steps|
  {
    if steps == [] then s == s'
    else Enabled(s, steps[0]) && Runs(Do(s, steps[0]), steps[1..], s')
  }

  // ---- what every state looks like

  /** A registration with first count `n` was called on the first `n` visits and on no other. */
  predicate CountOk(registration: Registration) {
    match registration.limit
    case Infinity => registration.count.Infinity? && registration.calls == registration.visits
    case Times(n) =>
      && registration.count == Times(n - registration.visits)
      && registration.calls == (if n <= 0 then 0 else if n < registration.visits then n else registration.visits)
  }

  /** Strictly increasing numbers: in order of registration, nobody twice. */
  predicate Ordered(list: seq<nat>, bound: nat) {
    && (forall k :: 0 <= k < |list| ==> list[k] < bound)
    && forall j, k :: 0 <= j < k < |list| ==> list[j] < list[k]
  }

  /** The listeners an event has: registered for it and not taken away since. */
  function Listeners(registrations: seq<Registration>, e: string): seq<nat> {
    if registrations == [] then []
    else
      var r := |registrations| - 1;
      Listeners(registrations[..r], e) +
        if registrations[r].event == e && !registrations[r].removed then [r] else []
  }

  predicate FrameOk(s: State, frame: Frame) {
    && frame.list < |s.lists| && frame.index <= frame.length <= |s.lists[frame.list]|
    && frame.snapshot == s.lists[frame.list][..frame.length]
    && (frame.calling ==> frame.index < frame.length)
    && frame.visited == frame.snapshot[..if frame.calling then frame.index + 1 else frame.index]
  }

  predicate EventOk(s: State, e: string) {
    if e in s.current then s.current[e] < |s.lists| && s.lists[s.current[e]] == Listeners(s.registrations, e)
    else Listeners(s.registrations, e) == []
  }

  /** Two events never share an array. */
  predicate Apart(s: State) {
    forall e, e' :: e in s.current && e' in s.current && e != e' ==> s.current[e] != s.current[e']
  }

  ghost predicate Ok(s: State) {
    && (forall r {:trigger CountOk(s.registrations[r])} :: 0 <= r < |s.registrations| ==> CountOk(s.registrations[r]))
    && (forall l {:trigger s.lists[l]} :: 0 <= l < |s.lists| ==> Ordered(s.lists[l], |s.registrations|))
    && (forall i {:trigger s.frames[i]} :: 0 <= i < |s.frames| ==> FrameOk(s, s.frames[i]))
    && (forall i {:trigger s.ended[i]} :: 0 <= i < |s.ended| ==>
          s.ended[i].visited == s.ended[i].snapshot && Ordered(s.ended[i].snapshot, |s.registrations|))
    && (forall e {:trigger EventOk(s, e)} :: EventOk(s, e))
    && Apart(s)
  }

  // ---- listeners and their changes

  lemma {:induction false} ListenersOrdered(registrations: seq<Registration>, e: string)
    ensures Ordered(Listeners(registrations, e), |registrations|)
  {
    if registrations != [] {
      ListenersOrdered(registrations[..|registrations| - 1], e);
    }
  }

  /** What listeners an event has depends on the event and removal of each registration only. */
  lemma {:induction false} SameListeners(a: seq<Registration>, b: seq<Registration>, e: string)
    requires |a| == |b|
    requires forall r :: 0 <= r < |a| ==> (a[r].event == e && !a[r].removed <==> b[r].event == e && !b[r].removed)
    ensures Listeners(a, e) == Listeners(b, e)
  {
    if a != [] {
      SameListeners(a[..|a| - 1], b[..|b| - 1], e);
    }
  }

  lemma {:induction false} NoListeners(registrations: seq<Registration>, e: string)
    requires forall r :: 0 <= r < |registrations| && registrations[r].event == e ==> registrations[r].removed
    ensures Listeners(registrations, e) == []
  {
    if registrations != [] {
      NoListeners(registrations[..|registrations| - 1], e);
    }
  }

  lemma {:induction false} WithoutMore(registrations: seq<Registration>, more: seq<Registration>, list: seq<nat>, functor: nat)
    requires forall k :: 0 <= k < |list| ==> list[k] < |registrations|
    requires registrations <= more
    ensures Without(more, list, functor) == Without(registrations, list, functor)
  {
    if list != [] {
      WithoutMore(registrations, more, list[..|list| - 1], functor);
    }
  }

  lemma {:induction false} WithoutOrdered(registrations: seq<Registration>, list: seq<nat>, functor: nat)
    requires Ordered(list, |registrations|)
    ensures Ordered(Without(registrations, list, functor), |registrations|)
    ensures forall k :: 0 <= k < |Without(registrations, list, functor)| ==> Without(registrations, list, functor)[k] in list
  {
    if list != [] {
      WithoutOrdered(registrations, list[..|list| - 1], functor);
    }
  }

  lemma WithoutAppend(registrations: seq<Registration>, list: seq<nat>, r: nat, functor: nat)
    requires r < |registrations| && forall k :: 0 <= k < |list| ==> list[k] < |registrations|
    ensures Without(registrations, list + [r], functor) ==
              Without(registrations, list, functor) + if registrations[r].functor != functor then [r] else []
  {
    assert (list + [r])[..|list|] == list;
  }

  lemma RemovingFront(registrations: seq<Registration>, e: string, functor: nat)
    requires registrations != []
    ensures var r := |registrations| - 1;
            Listeners(Removing(registrations, e, false, functor), e) ==
              Listeners(Removing(registrations[..r], e, false, functor), e) +
                if registrations[r].event == e && !registrations[r].removed && registrations[r].functor != functor then [r]
                else []
  {
    var r := |registrations| - 1;
    assert Removing(registrations, e, false, functor)[..r] == Removing(registrations[..r], e, false, functor);
  }

  /** Filtering an event's array leaves exactly the listeners that off does not take away. */
  lemma {:induction false} FilteredListeners(registrations: seq<Registration>, e: string, functor: nat)
    requires Ordered(Listeners(registrations, e), |registrations|)
    ensures Without(registrations, Listeners(registrations, e), functor)
            == Listeners(Removing(registrations, e, false, functor), e)
  {
    if registrations != [] {
      var r := |registrations| - 1;
      var front := registrations[..r];
      ListenersOrdered(front, e);
      FilteredListeners(front, e, functor);
      WithoutMore(front, registrations, Listeners(front, e), functor);
      WithoutAppend(registrations, Listeners(front, e), r, functor);
      RemovingFront(registrations, e, functor);
      assert Listeners(front, e) + [] == Listeners(front, e);
      assert Listeners(registrations, e) ==
             if registrations[r].event == e && !registrations[r].removed then Listeners(front, e) + [r] else Listeners(front, e);
    } else {
      assert Removing(registrations, e, false, functor) == [];
    }
  }

  /** An event that gets a new array shares it with none. */
  lemma StaysApart(s: State, e: string, l: nat)
    requires Ok(s) && (l == |s.lists| || (e in s.current && l == s.current[e]))
    ensures Apart(s.(current := s.current[e := l]))
  {
    var s' := s.(current := s.current[e := l]);
    forall f, g | f in s'.current && g in s'.current && f != g
      ensures s'.current[f] != s'.current[g]
    {
      assert EventOk(s, f) && EventOk(s, g);
    }
  }

  // ---- every step keeps the invariant

  lemma ListsGrow(s: State, s': State, frame: Frame)
    requires FrameOk(s, frame) && |s.lists| <= |s'.lists| && s.lists[frame.list] <= s'.lists[frame.list]
    ensures FrameOk(s', frame)
  {
  }

  lemma OnKeepsEvent(s: State, e: string, functor: nat, limit: Limit, f: string)
    requires Ok(s) && Enabled(s, On(e, functor, limit))
    ensures EventOk(DoOn(s, e, functor, limit), f)
  {
    var s' := DoOn(s, e, functor, limit);
    assert s'.registrations[..|s.registrations|] == s.registrations;
    assert EventOk(s, e) && EventOk(s, f);
    assert f != e && e in s.current && f in s.current ==> s.current[f] != s.current[e];
  }

  lemma OnKeepsLists(s: State, e: string, functor: nat, limit: Limit, l: nat)
    requires Ok(s) && Enabled(s, On(e, functor, limit)) && l < |DoOn(s, e, functor, limit).lists|
    ensures var s' := DoOn(s, e, functor, limit);
            Ordered(s'.lists[l], |s'.registrations|) && (l < |s.lists| ==> s.lists[l] <= s'.lists[l])
  {
    if l < |s.lists| {
      assert Ordered(s.lists[l], |s.registrations|);
    }
  }

  lemma OnOk(s: State, e: string, functor: nat, limit: Limit)
    requires Ok(s) && Enabled(s, On(e, functor, limit))
    ensures Ok(DoOn(s, e, functor, limit))
  {
    var s' := DoOn(s, e, functor, limit);
    StaysApart(s, e, if e in s.current then s.current[e] else |s.lists|);
    assert s.current[e := if e in s.current then s.current[e] else |s.lists|] == s'.current;
    forall f
      ensures EventOk(s', f)
    {
      OnKeepsEvent(s, e, functor, limit, f);
    }
    forall l | 0 <= l < |s'.lists|
      ensures Ordered(s'.lists[l], |s'.registrations|)
    {
      OnKeepsLists(s, e, functor, limit, l);
    }
    forall i | 0 <= i < |s'.frames|
      ensures FrameOk(s', s'.frames[i])
    {
      assert FrameOk(s, s.frames[i]);
      OnKeepsLists(s, e, functor, limit, s.frames[i].list);
      ListsGrow(s, s', s.frames[i]);
    }
    forall k | 0 <= k < |s'.registrations|
      ensures CountOk(s'.registrations[k])
    {
      assert k < |s.registrations| ==> CountOk(s.registrations[k]);
    }
  }

  lemma OffOk(s: State, e: string, functor: nat)
    requires Ok(s) && Enabled(s, Off(e, functor)) && e in s.current
    ensures Ok(DoOff(s, e, functor))
  {
    assert EventOk(s, e);
    StaysApart(s, e, |s.lists|);
    WithoutOrdered(s.registrations, s.lists[s.current[e]], functor);
    OffEvents(s, e, functor);
    RemovingKeepsRest(s, DoOff(s, e, functor), e, false, functor);
  }

  lemma OffEvents(s: State, e: string, functor: nat)
    requires Ok(s) && Enabled(s, Off(e, functor)) && e in s.current
    ensures forall f {:trigger EventOk(DoOff(s, e, functor), f)} :: EventOk(DoOff(s, e, functor), f)
  {
    var s' := DoOff(s, e, functor);
    assert EventOk(s, e);
    FilteredListeners(s.registrations, e, functor);
    forall f
      ensures EventOk(s', f)
    {
      assert EventOk(s, f);
      if f != e {
        SameListeners(s.registrations, s'.registrations, f);
      }
    }
  }

  lemma RemovingKeepsRest(s: State, s': State, e: string, all: bool, functor: nat)
    requires Ok(s) && s'.registrations == Removing(s.registrations, e, all, functor)
    requires s.lists <= s'.lists && s'.frames == s.frames
    ensures forall r :: 0 <= r < |s'.registrations| ==> CountOk(s'.registrations[r])
    ensures forall i :: 0 <= i < |s'.frames| ==> FrameOk(s', s'.frames[i])
  {
    forall r | 0 <= r < |s'.registrations|
      ensures CountOk(s'.registrations[r])
    {
      assert CountOk(s.registrations[r]);
    }
    forall i | 0 <= i < |s'.frames|
      ensures FrameOk(s', s'.frames[i])
    {
      assert FrameOk(s, s.frames[i]);
    }
  }

  lemma AllOffOk(s: State, e: string)
    requires Ok(s) && Enabled(s, AllOff(e))
    ensures Ok(Do(s, AllOff(e)))
  {
    var s' := Do(s, AllOff(e));
    forall f
      ensures EventOk(s', f)
    {
      assert EventOk(s, f);
      if f != e {
        SameListeners(s.registrations, s'.registrations, f);
      } else {
        NoListeners(s'.registrations, e);
      }
    }
    RemovingKeepsRest(s, s', e, true, 0);
  }

  lemma EmitOk(s: State, e: string)
    requires Ok(s) && Enabled(s, Emit(e))
    ensures Ok(DoEmit(s, e))
  {
    var s' := DoEmit(s, e);
    forall i | 0 <= i < |s'.frames|
      ensures FrameOk(s', s'.frames[i])
    {
      if i < |s.frames| {
        assert FrameOk(s, s.frames[i]);
      }
    }
    EventsUntouched(s, s');
  }

  lemma EventsUntouched(s: State, s': State)
    requires Ok(s) && s'.lists == s.lists && s'.current == s.current && |s'.registrations| == |s.registrations|
    requires forall r :: 0 <= r < |s.registrations| ==>
               s'.registrations[r].event == s.registrations[r].event && s'.registrations[r].removed == s.registrations[r].removed
    ensures forall e {:trigger EventOk(s', e)} :: EventOk(s', e)
  {
    forall e
      ensures EventOk(s', e)
    {
      assert EventOk(s, e);
      SameListeners(s.registrations, s'.registrations, e);
    }
  }

  lemma VisitOk(s: State)
    requires Ok(s) && Enabled(s, Visit)
    ensures Ok(DoVisit(s))
  {
    var s' := DoVisit(s);
    var top := Top(s);
    assert FrameOk(s, s.frames[|s.frames| - 1]);
    var r := s.lists[top.list][top.index];
    forall i | 0 <= i < |s'.frames|
      ensures FrameOk(s', s'.frames[i])
    {
      assert FrameOk(s, s.frames[i]);
      assert top.snapshot[..top.index + 1] == top.snapshot[..top.index] + [r];
    }
    forall k | 0 <= k < |s'.registrations|
      ensures CountOk(s'.registrations[k])
    {
      assert CountOk(s.registrations[k]);
    }
    EventsUntouched(s, s');
  }

  lemma FrameStepOk(s: State, step: Step)
    requires Ok(s) && Enabled(s, step) && (step.Return? || step.Throw? || step.End?)
    ensures Ok(Do(s, step))
  {
    var s' := Do(s, step);
    assert FrameOk(s, s.frames[|s.frames| - 1]);
    forall i | 0 <= i < |s'.frames|
      ensures FrameOk(s', s'.frames[i])
    {
      assert FrameOk(s, s.frames[i]);
    }
    if step.End? {
      assert Ordered(s.lists[Top(s).list], |s.registrations|);
    }
    EventsUntouched(s, s');
  }

  lemma StepOk(s: State, step: Step)
    requires Ok(s) && Enabled(s, step)
    ensures Ok(Do(s, step))
  {
    match step
    case On(e, functor, limit) => OnOk(s, e, functor, limit);
    case Off(e, functor) =>
      if e in s.current {
        OffOk(s, e, functor);
      }
    case AllOff(e) => AllOffOk(s, e);
    case Emit(e) => EmitOk(s, e);
    case Visit => VisitOk(s);
    case _ => FrameStepOk(s, step);
  }

  lemma {:induction false} RunOk(s: State, steps: seq<Step>, s': State)
    requires Ok(s) && Runs(s, steps, s')
    ensures Ok(s')
    decreases |steps|
  {
    if steps != [] {
      StepOk(s, steps[0]);
      RunOk(Do(s, steps[0]), steps[1..], s');
    }
  }

  lemma InitOk()
    ensures Ok(INIT)
  {
  }

  // ---- main results

  /**
   * Whatever handlers do, a registration with count n has been called exactly min(n, visits) times,
   * not at all for n <= 0; without a count, on every visit. A once listener is called once at most.
   */
  lemma CalledExactly(steps: seq<Step>, s: State, r: nat)
    requires Runs(INIT, steps, s) && r < |s.registrations|
    ensures var registration := s.registrations[r];
            match registration.limit
            case Infinity => registration.calls == registration.visits
            case Times(n) => registration.calls == (if n <= 0 then 0 else if n < registration.visits then n else registration.visits)
    ensures s.registrations[r].limit == Times(1) ==> s.registrations[r].calls <= 1
  {
    InitOk();
    RunOk(INIT, steps, s);
    assert CountOk(s.registrations[r]);
  }

  /** An emit starts with exactly the listeners its event has, in order of registration. */
  lemma EmitStartsWithListeners(steps: seq<Step>, s: State, e: string)
    requires Runs(INIT, steps, s) && Enabled(s, Emit(e))
    ensures var listeners := Listeners(s.registrations, e);
            && Ordered(listeners, |s.registrations|)
            && if e in s.current then |Do(s, Emit(e)).frames| == |s.frames| + 1 && Top(Do(s, Emit(e))).snapshot == listeners
               else listeners == [] && Do(s, Emit(e)) == s
  {
    InitOk();
    RunOk(INIT, steps, s);
    assert EventOk(s, e);
    ListenersOrdered(s.registrations, e);
  }

  /**
   * Every emit in progress has visited a prefix of the listeners it started with, in order of
   * registration and each once, whatever was registered or removed meanwhile; one that ended without
   * an exception has visited all of them.
   */
  lemma VisitsItsSnapshot(steps: seq<Step>, s: State)
    requires Runs(INIT, steps, s)
    ensures forall i :: 0 <= i < |s.frames| ==>
              s.frames[i].visited <= s.frames[i].snapshot && Ordered(s.frames[i].snapshot, |s.registrations|)
    ensures forall i :: 0 <= i < |s.ended| ==>
              s.ended[i].visited == s.ended[i].snapshot && Ordered(s.ended[i].snapshot, |s.registrations|)
  {
    InitOk();
    RunOk(INIT, steps, s);
    forall i | 0 <= i < |s.frames|
      ensures s.frames[i].visited <= s.frames[i].snapshot && Ordered(s.frames[i].snapshot, |s.registrations|)
    {
      assert FrameOk(s, s.frames[i]) && Ordered(s.lists[s.frames[i].list], |s.registrations|);
    }
  }

  /** A run during which the emit at depth `d` does not end. */
  ghost predicate RunsAbove(s: State, steps: seq<Step>, s': State, d: nat)
    decreases |steps|
  {
    && d < |s.frames|
    && if steps == [] then s == s' else Enabled(s, steps[0]) && RunsAbove(Do(s, steps[0]), steps[1..], s', d)
  }

  lemma SnapshotStays(s: State, step: Step, d: nat)
    requires Enabled(s, step) && d < |s.frames| && d < |Do(s, step).frames|
    ensures Do(s, step).frames[d].snapshot == s.frames[d].snapshot
  {
  }

  lemma {:induction false} SnapshotStaysAbove(s: State, steps: seq<Step>, s': State, d: nat)
    requires Ok(s) && RunsAbove(s, steps, s', d)
    ensures Ok(s') && d < |s'.frames| && s'.frames[d].snapshot == s.frames[d].snapshot
    decreases |steps|
  {
    if steps != [] {
      StepOk(s, steps[0]);
      SnapshotStays(s, steps[0], d);
      SnapshotStaysAbove(Do(s, steps[0]), steps[1..], s', d);
    }
  }

  /**
   * From its first to its last moment an emit goes by the listeners that its event had when it was
   * called: it has visited them in order up to some point, and all of them when it ends, however deep
   * the emits, registrations and removals of its handlers went in between.
   */
  lemma EmitVisitsItsListeners(before: seq<Step>, m: State, e: string, during: seq<Step>, s: State)
    requires Runs(INIT, before, m) && Enabled(m, Emit(e)) && e in m.current
    requires RunsAbove(Do(m, Emit(e)), during, s, |m.frames|)
    ensures var d := |m.frames|; var listeners := Listeners(m.registrations, e);
            && d < |s.frames| && s.frames[d].visited <= listeners
            && (|s.frames| == d + 1 && Enabled(s, End) ==> s.frames[d].visited == listeners)
  {
    EmitStartsWithListeners(before, m, e);
    InitOk();
    RunOk(INIT, before, m);
    StepOk(m, Emit(e));
    SnapshotStaysAbove(Do(m, Emit(e)), during, s, |m.frames|);
    FrameGoesThroughSnapshot(s, |m.frames|);
  }

  lemma FrameGoesThroughSnapshot(s: State, d: nat)
    requires Ok(s) && d < |s.frames|
    ensures s.frames[d].visited <= s.frames[d].snapshot
    ensures |s.frames| == d + 1 && Enabled(s, End) ==> s.frames[d].visited == s.frames[d].snapshot
  {
    assert FrameOk(s, s.frames[d]);
  }

  /** Nothing that code may ask for gets stuck: every call can be made, and every emit goes on. */
  lemma NeverStuck(steps: seq<Step>, s: State, e: string, functor: nat, limit: Limit)
    requires Runs(INIT, steps, s)
    ensures CodeRuns(s) ==> Enabled(s, On(e, functor, limit)) && Enabled(s, Off(e, functor)) && Enabled(s, Emit(e))
    ensures !CodeRuns(s) ==> (Enabled(s, Visit) <==> !Enabled(s, End))
  {
    InitOk();
    RunOk(INIT, steps, s);
    ReadyForCode(s, e);
    if !CodeRuns(s) {
      ReadyToVisit(s);
    }
  }

  lemma ReadyForCode(s: State, e: string)
    requires Ok(s)
    ensures e in s.current ==>
              s.current[e] < |s.lists|
              && forall k :: 0 <= k < |s.lists[s.current[e]]| ==> s.lists[s.current[e]][k] < |s.registrations|
  {
    assert EventOk(s, e);
    if e in s.current {
      assert Ordered(s.lists[s.current[e]], |s.registrations|);
    }
  }

  lemma ReadyToVisit(s: State)
    requires Ok(s) && s.frames != [] && !Top(s).calling
    ensures Enabled(s, Visit) <==> Top(s).index < Top(s).length
  {
    assert FrameOk(s, s.frames[|s.frames| - 1]);
    assert Ordered(s.lists[Top(s).list], |s.registrations|);
  }
}
