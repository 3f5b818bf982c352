/**
 * The emitter as an object: emit is a loop that calls handlers, and handlers call the emitter again.
 * Every call has the effect that EmitterCalls gives it.
 */
module EmitterObject {
  import opened EventEmitter
  import opened EmitterCalls

  class Emitter {
    var registrations: seq<Registration>
    var lists: seq<seq<nat>>
    var current: map<string, nat>
    ghost var frames: seq<Frame>
    ghost var ended: seq<Frame>

    ghost function View(): State
      reads this
    {
      State(registrations, lists, current, frames, ended)
    }

    constructor ()
      ensures View() == INIT
    {
      registrations, lists, current, frames, ended := [], [], map[], [], [];
    }

    /** on, once and many. */
    method On(event: string, functor: nat, limit: Limit)
      requires Ok(View()) && CodeRuns(View())
      modifies this
      ensures EventEmitter.Enabled(old(View()), EventEmitter.On(event, functor, limit))
      ensures View() == DoOn(old(View()), event, functor, limit)
    {
      ReadyForCode(View(), event);
      if event !in current {
        lists, current := lists + [[]], current[event := |lists|];
      }
      var l := current[event];
      assert event !in old(current) ==> lists[l] + [|registrations|] == [|registrations|];
      lists := lists[l := lists[l] + [|registrations|]];
      assert event !in old(current) ==> lists == old(lists) + [[|registrations|]];
      registrations := registrations + [Registration(functor, limit, event, limit, false, 0, 0)];
    }

    /** filter. */
    method Filter(list: seq<nat>, functor: nat) returns (kept: seq<nat>)
      requires forall k :: 0 <= k < |list| ==> list[k] < |registrations|
      ensures kept == Without(registrations, list, functor)
    {
      kept := [];
      for i := 0 to |list|
        invariant kept == Without(registrations, list[..i], functor)
      {
        assert list[..i + 1][..i] == list[..i];
        if registrations[list[i]].functor != functor {
          kept := kept + [list[i]];
        }
      }
      assert list[..|list|] == list;
    }

    method Off(event: string, functor: nat)
      requires Ok(View()) && CodeRuns(View())
      modifies this
      ensures EventEmitter.Enabled(old(View()), EventEmitter.Off(event, functor))
      ensures View() == DoOff(old(View()), event, functor)
    {
      ReadyForCode(View(), event);
      if event in current {
        var kept := Filter(lists[current[event]], functor);
        registrations := Removing(registrations, event, false, functor);
        lists, current := lists + [kept], current[event := |lists|];
      }
    }

    method AllOff(event: string)
      requires Ok(View()) && CodeRuns(View())
      modifies this
      ensures View() == Do(old(View()), EventEmitter.AllOff(event))
    {
      registrations := Removing(registrations, event, true, 0);
      current := current - {event};
    }

    /** One round of the loop: event[i].count-- > 0. */
    method CountDown(l: nat, i: nat) returns (call: bool)
      requires Enabled(View(), Visit) && l == Top(View()).list && i == Top(View()).index
      modifies this
      ensures View() == DoVisit(old(View())) && call == Top(View()).calling
    {
      var r := lists[l][i];
      var registration := registrations[r];
      call := registration.count.Positive();
      registrations := registrations[r := registration.(count := registration.count.Decremented(),
                                                        visits := registration.visits + 1,
                                                        calls := registration.calls + if call then 1 else 0)];
      ghost var top := Top(View());
      frames := frames[|frames| - 1 := top.(visited := top.visited + [r], calling := call,
                                            index := if call then top.index else top.index + 1)];
    }

    /** The handler on top of the stack is over. */
    ghost method LeaveHandler(threw: bool)
      requires Ok(View()) && frames != [] && Top(View()).calling
      modifies this`frames
      ensures View() == Do(old(View()), if threw then Throw else Return)
    {
      var last := |frames| - 1;
      frames := if threw then frames[..last] else frames[last := frames[last].(calling := false, index := frames[last].index + 1)];
    }

    /** The body of the k-th handler of an emit, if it has one. */
    method RunHandler(action: Action, k: nat) returns (threw: bool)
      requires action.Fire? && Ok(View()) && CodeRuns(View())
      modifies this
      ensures var effect := Handled(old(View()), action, k); View() == effect.after && threw == effect.threw
      decreases action, 0
    {
      threw := false;
      if k < |action.handlers| {
        threw := Perform(action.handlers[k]);
      }
    }

    /** The call of the k-th handler of an emit, which returns to the loop or throws out of it. */
    method CallHandler(action: Action, k: nat) returns (threw: bool)
      requires action.Fire? && Ok(View()) && frames != [] && Top(View()).calling
      modifies this
      ensures var effect := Called(old(View()), action, k); View() == effect.after && threw == effect.threw
      decreases action, 1
    {
      threw := RunHandler(action, k);
      LeaveHandler(threw);
    }

    /** One round of the loop with its call, if there is one. */
    method Round(action: Action, l: nat, i: nat, k: nat) returns (called: bool, threw: bool)
      requires action.Fire? && AtLoop(View()) && l == Top(View()).list && i == Top(View()).index < Top(View()).length
      modifies this
      ensures var whole := Looped(old(View()), action, k);
              if threw then whole.threw && View() == whole.after
              else
                && AtLoop(View()) && Top(View()).list == l && Top(View()).index == i + 1
                && Top(View()).length == Top(old(View())).length
                && var rest := Looped(View(), action, if called then k + 1 else k);
                   rest.after == whole.after && rest.threw == whole.threw
      decreases action, 2
    {
      VisitGoesOn(View());
      called := CountDown(l, i);
      threw := false;
      if called {
        threw := CallHandler(action, k);
      }
    }

    /** The loop of an emit that has just begun. */
    method Loop(action: Action, l: nat, length: nat) returns (threw: bool)
      requires action.Fire? && AtLoop(View())
      requires Top(View()).list == l && Top(View()).index == 0 && Top(View()).length == length
      modifies this
      ensures var effect := Looped(old(View()), action, 0); View() == effect.after && threw == effect.threw
      decreases action, 3
    {
      threw := false;
      ghost var whole := Looped(View(), action, 0);
      var i, k := 0, 0;
      while i < length
        invariant AtLoop(View()) && Top(View()).list == l && Top(View()).index == i <= length == Top(View()).length
        invariant var rest := Looped(View(), action, k); rest.after == whole.after && rest.threw == whole.threw
      {
        var called;
        called, threw := Round(action, l, i, k);
        if threw {
          return;
        }
        if called {
          k := k + 1;
        }
        i := i + 1;
      }
      Close();
    }

    /** An emit begins. */
    ghost method Open(event: string)
      requires Ok(View()) && CodeRuns(View()) && event in current && Enabled(View(), Emit(event))
      modifies this`frames
      ensures View() == Do(old(View()), Emit(event))
    {
      frames := frames + [Frame(current[event], |lists[current[event]]|, 0, false, lists[current[event]], [])];
    }

    /** The innermost emit is over. */
    ghost method Close()
      requires Enabled(View(), End)
      modifies this`frames, this`ended
      ensures View() == Do(old(View()), End)
    {
      frames, ended := frames[..|frames| - 1], ended + [frames[|frames| - 1]];
    }

    /** emit; `threw` when a handler's exception came out of it. */
    method EmitEvent(action: Action) returns (threw: bool)
      requires action.Fire? && Ok(View()) && CodeRuns(View())
      modifies this
      ensures var effect := Emitted(old(View()), action); View() == effect.after && threw == effect.threw
      decreases action, 4
    {
      threw := false;
      ActionIsEnabled(View(), action);
      if action.event in current {
        var l := current[action.event];
        Open(action.event);
        threw := Loop(action, l, |lists[l]|);
      }
    }

    /** One action of a program. */
    method Act(action: Action) returns (threw: bool)
      requires Ok(View()) && CodeRuns(View())
      modifies this
      ensures var effect := Acted(old(View()), action); View() == effect.after && threw == effect.threw
      decreases action, 5
    {
      threw := false;
      match action {
        case Register(event, functor, limit) => On(event, functor, limit);
        case Remove(event, functor) => Off(event, functor);
        case RemoveAll(event) => AllOff(event);
        case Fire(_, _, _) => threw := EmitEvent(action);
      }
    }

    /** The body of a handler, or of a program at the top. */
    method Perform(program: Program) returns (threw: bool)
      requires Ok(View()) && CodeRuns(View())
      modifies this
      ensures var effect := Performed(old(View()), program, 0); View() == effect.after && threw == effect.threw
      decreases program, 0
    {
      ghost var whole := Performed(View(), program, 0);
      for n := 0 to |program.actions|
        invariant Ok(View()) && CodeRuns(View())
        invariant var rest := Performed(View(), program, n); rest.after == whole.after && rest.threw == whole.threw
      {
        threw := Act(program.actions[n]);
        if threw && !program.actions[n].catches {
          return;
        }
      }
      threw := program.throws;
    }
  }
}
