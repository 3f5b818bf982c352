/** What the calls and visits of a run add up to, counted from the run itself. */
module EmitterHistory {
  import opened EventEmitter

  // ---- who is registered

  /** What a call of on, once or many asked for. */
  datatype Wish = Wish(functor: nat, event: string, limit: Limit)

  function Wishes(steps: seq<Step>): seq<Wish> {
    if steps == [] then []
    else (if steps[0].On? then [Wish(steps[0].functor, steps[0].event, steps[0].limit)] else []) + Wishes(steps[1..])
  }

  function WishesOf(registrations: seq<Registration>): seq<Wish> {
    seq(|registrations|, r requires 0 <= r < |registrations| =>
      Wish(registrations[r].functor, registrations[r].event, registrations[r].limit))
  }

  lemma StepWishes(s: State, step: Step)
    requires Enabled(s, step)
    ensures WishesOf(Do(s, step).registrations) == WishesOf(s.registrations) + Wishes([step])
  {
    assert [step][1..] == [];
  }

  /** Every registration has the functor, the event and the first count that its call gave, in the order of the calls. */
  lemma {:induction false} RegistrationsAreTheCalls(s: State, steps: seq<Step>, s': State)
    requires Runs(s, steps, s')
    ensures WishesOf(s'.registrations) == WishesOf(s.registrations) + Wishes(steps)
    decreases |steps|
  {
    if steps != [] {
      StepWishes(s, steps[0]);
      RegistrationsAreTheCalls(Do(s, steps[0]), steps[1..], s');
      WishesSplit(WishesOf(s.registrations), steps);
    }
  }

  lemma WishesSplit(before: seq<Wish>, steps: seq<Step>)
    requires steps != []
    ensures before + Wishes(steps) == (before + Wishes([steps[0]])) + Wishes(steps[1..])
  {
    assert [steps[0]][1..] == [];
  }

  // ---- who listens

  /** The registrations of a list that were not made with this functor. */
  function Others(wishes: seq<Wish>, list: seq<nat>, functor: nat): seq<nat> {
    if list == [] then []
    else
      var r := list[|list| - 1];
      Others(wishes, list[..|list| - 1], functor) + if r < |wishes| && wishes[r].functor == functor then [] else [r]
  }

  /** Exactly those made with the functor are taken away. */
  lemma {:induction false} OthersAreTheRest(wishes: seq<Wish>, list: seq<nat>, functor: nat, r: nat)
    ensures r in Others(wishes, list, functor) <==> r in list && !(r < |wishes| && wishes[r].functor == functor)
  {
    if list != [] {
      OthersAreTheRest(wishes, list[..|list| - 1], functor, r);
      assert list == list[..|list| - 1] + [list[|list| - 1]];
    }
  }

  /** Who listens to `e` after one more call. */
  function ListenersAfter(wishes: seq<Wish>, list: seq<nat>, step: Step, e: string): seq<nat> {
    match step
    case On(event, _, _) => if event == e then list + [|wishes|] else list
    case Off(event, functor) => if event == e then Others(wishes, list, functor) else list
    case AllOff(event) => if event == e then [] else list
    case _ => list
  }

  /** Who listens to `e` after these calls, by the number of the registration. */
  function ListenersOf(wishes: seq<Wish>, list: seq<nat>, steps: seq<Step>, e: string): seq<nat>
    decreases |steps|
  {
    if steps == [] then list
    else ListenersOf(wishes + Wishes([steps[0]]), ListenersAfter(wishes, list, steps[0], e), steps[1..], e)
  }

  lemma {:induction false} OthersAreWithout(registrations: seq<Registration>, list: seq<nat>, functor: nat)
    requires forall k :: 0 <= k < |list| ==> list[k] < |registrations|
    ensures Others(WishesOf(registrations), list, functor) == Without(registrations, list, functor)
  {
    if list != [] {
      OthersAreWithout(registrations, list[..|list| - 1], functor);
    }
  }

  lemma OnListeners(s: State, e: string, functor: nat, limit: Limit, f: string)
    requires Enabled(s, On(e, functor, limit))
    ensures Listeners(DoOn(s, e, functor, limit).registrations, f)
            == Listeners(s.registrations, f) + if e == f then [|s.registrations|] else []
  {
    var more := DoOn(s, e, functor, limit).registrations;
    assert more[..|s.registrations|] == s.registrations;
  }

  lemma OffListeners(s: State, e: string, functor: nat, f: string)
    requires Ok(s) && Enabled(s, Off(e, functor))
    ensures Listeners(DoOff(s, e, functor).registrations, f)
            == ListenersAfter(WishesOf(s.registrations), Listeners(s.registrations, f), Off(e, functor), f)
  {
    ListenersOrdered(s.registrations, f);
    if e == f {
      OthersAreWithout(s.registrations, Listeners(s.registrations, e), functor);
      assert EventOk(s, e);
      if e in s.current {
        FilteredListeners(s.registrations, e, functor);
      }
    } else if e in s.current {
      SameListeners(s.registrations, DoOff(s, e, functor).registrations, f);
    }
  }

  lemma AllOffListeners(s: State, e: string, f: string)
    requires Enabled(s, AllOff(e))
    ensures Listeners(Do(s, AllOff(e)).registrations, f) == if e == f then [] else Listeners(s.registrations, f)
  {
    var after := Do(s, AllOff(e)).registrations;
    if e == f {
      NoListeners(after, f);
    } else {
      SameListeners(s.registrations, after, f);
    }
  }

  lemma StepListeners(s: State, step: Step, e: string)
    requires Ok(s) && Enabled(s, step)
    ensures Listeners(Do(s, step).registrations, e)
            == ListenersAfter(WishesOf(s.registrations), Listeners(s.registrations, e), step, e)
  {
    match step
    case On(event, functor, limit) => OnListeners(s, event, functor, limit, e);
    case Off(event, functor) => OffListeners(s, event, functor, e);
    case AllOff(event) => AllOffListeners(s, event, e);
    case _ => SameListeners(s.registrations, Do(s, step).registrations, e);
  }

  /**
   * The listeners of an event are, in every run, those registered for it by calls of on, once and many
   * that no later call of off with their functor, or of allOff, has taken away.
   */
  lemma {:induction false} ListenersAreTheCalls(s: State, steps: seq<Step>, s': State, e: string)
    requires Ok(s) && Runs(s, steps, s')
    ensures Listeners(s'.registrations, e) == ListenersOf(WishesOf(s.registrations), Listeners(s.registrations, e), steps, e)
    decreases |steps|
  {
    if steps != [] {
      StepListeners(s, steps[0], e);
      StepWishes(s, steps[0]);
      StepOk(s, steps[0]);
      ListenersAreTheCalls(Do(s, steps[0]), steps[1..], s', e);
    }
  }

  /** From the start of a program. */
  lemma ListenersFromInit(steps: seq<Step>, s: State, e: string)
    requires Runs(INIT, steps, s)
    ensures WishesOf(s.registrations) == Wishes(steps)
    ensures Listeners(s.registrations, e) == ListenersOf([], [], steps, e)
  {
    InitOk();
    RegistrationsAreTheCalls(INIT, steps, s);
    ListenersAreTheCalls(INIT, steps, s, e);
    assert WishesOf([]) == [] && [] + Wishes(steps) == Wishes(steps);
  }

  // ---- who is visited and called

  /** The registration that an emit visits by this step. */
  predicate Visits(s: State, step: Step, r: nat) {
    step.Visit? && Enabled(s, step) && s.lists[Top(s).list][Top(s).index] == r
  }

  predicate Calls(s: State, step: Step, r: nat) {
    Visits(s, step, r) && Do(s, step).frames != [] && Top(Do(s, step)).calling
  }

  ghost function VisitCount(s: State, steps: seq<Step>, r: nat): nat
    decreases |steps|
  {
    if steps == [] || !Enabled(s, steps[0]) then 0
    else (if Visits(s, steps[0], r) then 1 else 0) + VisitCount(Do(s, steps[0]), steps[1..], r)
  }

  ghost function CallCount(s: State, steps: seq<Step>, r: nat): nat
    decreases |steps|
  {
    if steps == [] || !Enabled(s, steps[0]) then 0
    else (if Calls(s, steps[0], r) then 1 else 0) + CallCount(Do(s, steps[0]), steps[1..], r)
  }

  function VisitsOf(s: State, r: nat): nat {
    if r < |s.registrations| then s.registrations[r].visits else 0
  }

  function CallsOf(s: State, r: nat): nat {
    if r < |s.registrations| then s.registrations[r].calls else 0
  }

  lemma StepVisits(s: State, step: Step, r: nat)
    requires Enabled(s, step)
    ensures VisitsOf(Do(s, step), r) == VisitsOf(s, r) + if Visits(s, step, r) then 1 else 0
    ensures CallsOf(Do(s, step), r) == CallsOf(s, r) + if Calls(s, step, r) then 1 else 0
  {
  }

  lemma {:induction false} VisitsAreCounted(s: State, steps: seq<Step>, s': State, r: nat)
    requires Runs(s, steps, s')
    ensures VisitsOf(s', r) == VisitsOf(s, r) + VisitCount(s, steps, r)
    ensures CallsOf(s', r) == CallsOf(s, r) + CallCount(s, steps, r)
    decreases |steps|
  {
    if steps != [] {
      StepVisits(s, steps[0], r);
      VisitsAreCounted(Do(s, steps[0]), steps[1..], s', r);
    }
  }

  /**
   * Whatever handlers do, the handler given in the r-th call of on, once or many with count n has been
   * called on exactly min(n, v) of the v visits that emits paid it, on none for n <= 0 and on every one
   * without a count.
   */
  lemma CalledAsAskedFor(steps: seq<Step>, s: State, r: nat)
    requires Runs(INIT, steps, s) && r < |Wishes(steps)|
    ensures var visits, calls := VisitCount(INIT, steps, r), CallCount(INIT, steps, r);
            match Wishes(steps)[r].limit
            case Infinity => calls == visits
            case Times(n) => calls == (if n <= 0 then 0 else if n < visits then n else visits)
  {
    VisitsAreCounted(INIT, steps, s, r);
    ListenersFromInit(steps, s, "");
    assert WishesOf(s.registrations)[r] == Wishes(steps)[r];
    CalledExactly(steps, s, r);
  }
}
