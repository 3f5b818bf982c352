/**
 * SinkDevice.write: every call with bytes to send runs a handler that offers the device one piece
 * per task and schedules itself again. Any number of calls overlap on one device.
 */
module SinkWrites {
  import opened Machine
  import opened Bytes

  /** The promise of a call. */
  datatype Outcome = Running | Fulfilled(count: nat) | Failed

  /** `written` is the handler's argument; `sent` is history: how many bytes the device took for this call. */
  datatype Call = Call(buffer: seq<Byte>, written: nat, sent: nat, outcome: Outcome)

  /** What reaches the device, in order: bytes, each with the call it belongs to, and end marks. */
  datatype Signal = Sent(call: nat, byte: Byte) | EndMark

  /** Handlers waiting in the scheduler are kept by the number of their call. */
  datatype Sink = Sink(calls: seq<Call>, tasks: multiset<nat>, log: seq<Signal>)

  /** What the device says of itself while one handler task runs, and how many of the offered bytes it takes. */
  datatype Weather = Weather(ready: bool, open: bool, error: bool, recommended: nat, maximum: nat,
                             takes: nat, throws: bool)

  // ---- one task of the handler

  function Offer(call: Call, weather: Weather): nat
    requires call.written <= |call.buffer|
  {
    Min(Min(weather.recommended, |call.buffer| - call.written), weather.maximum)
  }

  function Taken(call: Call, weather: Weather): nat
    requires call.written <= |call.buffer|
  {
    Min(weather.takes, Offer(call, weather))
  }

  datatype Decision = Retry | Finish(outcome: Outcome) | Send

  /** What one task of the handler does. */
  function Decide(call: Call, weather: Weather): Decision
    requires call.written <= |call.buffer|
  {
    if call.written == |call.buffer| then Finish(Fulfilled(call.written))
    else if weather.error then Finish(Failed)
    else if !weather.open then Finish(Fulfilled(call.written))
    else if !weather.ready then Retry
    else if Min(weather.recommended, |call.buffer| - call.written) == 0 then Finish(Fulfilled(call.written))
    else Send
  }

  function Signals(i: nat, bytes: seq<Byte>): (signals: seq<Signal>)
    ensures |signals| == |bytes| && forall k :: 0 <= k < |bytes| ==> signals[k] == Sent(i, bytes[k])
  {
    seq(|bytes|, k requires 0 <= k < |bytes| => Sent(i, bytes[k]))
  }

  predicate CanRun(s: Sink, i: nat) {
    i in s.tasks && i < |s.calls| && s.calls[i].written <= |s.calls[i].buffer| && s.calls[i].outcome.Running?
  }

  /** The bytes the device takes in this task. */
  function Piece(call: Call, weather: Weather): (piece: seq<Byte>)
    requires call.written <= |call.buffer|
    ensures call.written + |piece| <= |call.buffer|
    ensures call.buffer[..call.written] + piece == call.buffer[..call.written + |piece|]
  {
    if Decide(call, weather).Send? then call.buffer[call.written..call.written + Taken(call, weather)] else []
  }

  /** The call after the task. */
  function After(call: Call, weather: Weather): Call
    requires call.written <= |call.buffer|
  {
    match Decide(call, weather)
    case Retry => call
    case Finish(outcome) => call.(outcome := outcome)
    case Send =>
      var sent := call.written + |Piece(call, weather)|;
      if weather.throws then call.(sent := sent, outcome := Failed) else call.(written := sent, sent := sent)
  }

  function HandlerTurn(s: Sink, i: nat, weather: Weather): Sink
    requires CanRun(s, i)
  {
    var call := After(s.calls[i], weather);
    Sink(s.calls[i := call],
         if call.outcome.Running? then s.tasks else s.tasks - multiset{i},
         s.log + Signals(i, Piece(s.calls[i], weather)))
  }

  /** write(buffer): an empty buffer makes no call. */
  function Begin(s: Sink, buffer: seq<Byte>): Sink {
    if buffer == [] then s
    else s.(calls := s.calls + [Call(buffer, 0, 0, Running)], tasks := s.tasks + multiset{|s.calls|})
  }

  /** write(null): the device hears of the end only if it is ready. */
  function WriteNull(s: Sink, ready: bool): Sink {
    if ready then s.(log := s.log + [EndMark]) else s
  }

  datatype Step = Write(buffer: seq<Byte>) | End(ready: bool) | Task(call: nat, weather: Weather)

  predicate Enabled(s: Sink, step: Step) {
    step.Task? ==> CanRun(s, step.call)
  }

  function Do(s: Sink, step: Step): Sink
    requires Enabled(s, step)
  {
    match step
    case Write(buffer) => Begin(s, buffer)
    case End(ready) => WriteNull(s, ready)
    case Task(i, weather) => HandlerTurn(s, i, weather)
  }

  ghost predicate Runs(s: Sink, steps: seq<Step>, s': Sink)
    decreases |steps|
  {
    if steps == [] then s == s'
    else Enabled(s, steps[0]) && Runs(Do(s, steps[0]), steps[1..], s')
  }

  const INIT := Sink([], multiset{}, [])

  // ---- the log is an interleaving of prefixes

  /** The bytes of call `i` in the log. */
  function Mine(log: seq<Signal>, i: nat): seq<Byte> {
    if log == [] then []
    else
      var last := log[|log| - 1];
      Mine(log[..|log| - 1], i) + if last.Sent? && last.call == i then [last.byte] else []
  }

  lemma {:induction false} MineAppends(log: seq<Signal>, more: seq<Signal>, i: nat)
    ensures Mine(log + more, i) == Mine(log, i) + Mine(more, i)
  {
    if more == [] {
      assert log + more == log;
    } else {
      var last := |more| - 1;
      assert (log + more)[..|log| + last] == log + more[..last];
      MineAppends(log, more[..last], i);
    }
  }

  lemma {:induction false} MineOf(bytes: seq<Byte>, i: nat, j: nat)
    ensures Mine(Signals(i, bytes), j) == if i == j then bytes else []
  {
    if bytes != [] {
      var last := |bytes| - 1;
      assert Signals(i, bytes)[..last] == Signals(i, bytes[..last]);
      MineOf(bytes[..last], i, j);
      assert bytes == bytes[..last] + [bytes[last]];
    }
  }

  predicate CallOk(s: Sink, i: nat)
    requires i < |s.calls|
  {
    var call := s.calls[i];
    && call.buffer != [] && call.written <= call.sent <= |call.buffer|
    && Mine(s.log, i) == call.buffer[..call.sent]
    && s.tasks[i] == (if call.outcome.Running? then 1 else 0)
    && (!call.outcome.Failed? ==> call.sent == call.written)
    && (call.outcome.Fulfilled? ==> call.outcome.count == call.written)
  }

  ghost predicate Ok(s: Sink) {
    && (forall i {:trigger CallOk(s, i)} :: 0 <= i < |s.calls| ==> CallOk(s, i))
    && (forall i :: i in s.tasks ==> i < |s.calls|)
    && (forall k :: 0 <= k < |s.log| && s.log[k].Sent? ==> s.log[k].call < |s.calls|)
  }

  lemma NothingYet(log: seq<Signal>, i: nat)
    requires forall k :: 0 <= k < |log| && log[k].Sent? ==> log[k].call != i
    ensures Mine(log, i) == []
  {
  }

  lemma BeginOk(s: Sink, buffer: seq<Byte>)
    requires Ok(s)
    ensures Ok(Begin(s, buffer))
  {
    var s' := Begin(s, buffer);
    if buffer != [] {
      forall i | 0 <= i < |s'.calls|
        ensures CallOk(s', i)
      {
        if i < |s.calls| {
          assert CallOk(s, i);
        } else {
          NothingYet(s.log, i);
          assert i !in s.tasks;
        }
      }
    }
  }

  lemma EndOk(s: Sink, ready: bool)
    requires Ok(s)
    ensures Ok(WriteNull(s, ready))
  {
    var s' := WriteNull(s, ready);
    forall i | 0 <= i < |s'.calls|
      ensures CallOk(s', i)
    {
      assert CallOk(s, i);
      if ready {
        MineAppends(s.log, [EndMark], i);
      }
    }
  }

  lemma LogAfter(s: Sink, i: nat, weather: Weather, j: nat)
    requires CanRun(s, i)
    ensures Mine(HandlerTurn(s, i, weather).log, j) ==
              Mine(s.log, j) + if i == j then Piece(s.calls[i], weather) else []
  {
    MineAppends(s.log, Signals(i, Piece(s.calls[i], weather)), j);
    MineOf(Piece(s.calls[i], weather), i, j);
  }

  lemma TurnOk(s: Sink, i: nat, weather: Weather)
    requires Ok(s) && CanRun(s, i)
    ensures Ok(HandlerTurn(s, i, weather))
  {
    var s' := HandlerTurn(s, i, weather);
    assert CallOk(s, i);
    forall j | 0 <= j < |s'.calls|
      ensures CallOk(s', j)
    {
      assert CallOk(s, j);
      LogAfter(s, i, weather, j);
    }
  }

  lemma {:induction false} RunOk(s: Sink, steps: seq<Step>, s': Sink)
    requires Ok(s) && Runs(s, steps, s')
    ensures Ok(s')
    decreases |steps|
  {
    if steps != [] {
      match steps[0] {
        case Write(buffer) => BeginOk(s, buffer);
        case End(ready) => EndOk(s, ready);
        case Task(i, weather) => TurnOk(s, i, weather);
      }
      RunOk(Do(s, steps[0]), steps[1..], s');
    }
  }

  // ---- every write makes a call

  /** The buffers written, without the empty ones, in order. */
  function Written(steps: seq<Step>): seq<seq<Byte>> {
    if steps == [] then []
    else (if steps[0].Write? && steps[0].buffer != [] then [steps[0].buffer] else []) + Written(steps[1..])
  }

  function Buffers(calls: seq<Call>): seq<seq<Byte>> {
    seq(|calls|, i requires 0 <= i < |calls| => calls[i].buffer)
  }

  lemma StepBuffers(s: Sink, step: Step)
    requires Enabled(s, step)
    ensures Buffers(Do(s, step).calls) == Buffers(s.calls) + Written([step])
  {
    assert [step][1..] == [];
  }

  /** Every non-empty buffer that is written becomes a call of its own, in the order of the writes. */
  lemma {:induction false} CallsAreTheWrites(s: Sink, steps: seq<Step>, s': Sink)
    requires Runs(s, steps, s')
    ensures Buffers(s'.calls) == Buffers(s.calls) + Written(steps)
    decreases |steps|
  {
    if steps != [] {
      StepBuffers(s, steps[0]);
      CallsAreTheWrites(Do(s, steps[0]), steps[1..], s');
      assert [steps[0]][1..] == [] && Written(steps) == Written([steps[0]]) + Written(steps[1..]);
    }
  }

  lemma CallsFromInit(steps: seq<Step>, s: Sink)
    requires Runs(INIT, steps, s)
    ensures |s.calls| == |Written(steps)| && forall i :: 0 <= i < |s.calls| ==> s.calls[i].buffer == Written(steps)[i]
  {
    CallsAreTheWrites(INIT, steps, s);
    BuffersAre(s.calls, Written(steps));
  }

  lemma BuffersAre(calls: seq<Call>, buffers: seq<seq<Byte>>)
    requires Buffers(calls) == Buffers([]) + buffers
    ensures |calls| == |buffers| && forall i :: 0 <= i < |calls| ==> calls[i].buffer == buffers[i]
  {
    assert Buffers([]) + buffers == buffers;
    assert forall i :: 0 <= i < |calls| ==> Buffers(calls)[i] == calls[i].buffer;
  }

  /** How often write(null) found the device ready. */
  function ReadyEnds(steps: seq<Step>): nat {
    if steps == [] then 0 else (if steps[0].End? && steps[0].ready then 1 else 0) + ReadyEnds(steps[1..])
  }

  function EndMarks(): Signal -> int {
    (signal: Signal) => if signal.EndMark? then 1 else 0
  }

  lemma {:induction false} EndMarksAppend(log: seq<Signal>, more: seq<Signal>)
    ensures Sum(log + more, EndMarks()) == Sum(log, EndMarks()) + Sum(more, EndMarks())
  {
    if more == [] {
      assert log + more == log;
    } else {
      var last := |more| - 1;
      EndMarksAppend(log, more[..last]);
      assert log + more == (log + more[..last]) + [more[last]];
      SumAppend(log + more[..last], more[last], EndMarks());
    }
  }

  lemma StepEndMarks(s: Sink, step: Step)
    requires Enabled(s, step)
    ensures Sum(Do(s, step).log, EndMarks()) == Sum(s.log, EndMarks()) + if step.End? && step.ready then 1 else 0
  {
    match step
    case Write(_) =>
    case End(_) => SumAppend(s.log, EndMark, EndMarks());
    case Task(i, weather) =>
      var signals := Signals(i, Piece(s.calls[i], weather));
      EndMarksAppend(s.log, signals);
      SumZero(signals, EndMarks());
  }

  /** The device hears of the end once for every write(null) that found it ready. */
  lemma {:induction false} EndsAreReported(s: Sink, steps: seq<Step>, s': Sink)
    requires Runs(s, steps, s')
    ensures Sum(s'.log, EndMarks()) == Sum(s.log, EndMarks()) + ReadyEnds(steps)
    decreases |steps|
  {
    if steps != [] {
      StepEndMarks(s, steps[0]);
      EndsAreReported(Do(s, steps[0]), steps[1..], s');
    }
  }

  /**
   * In every run with any number of overlapping calls and any short counts, the bytes of each call
   * in the device's log are a prefix of its own buffer, in order, nothing repeated or skipped; every
   * byte belongs to some call; a promised number is the length of that prefix; and a call that has
   * not finished has exactly one handler task waiting.
   */
  lemma EveryCallSendsAPrefix(steps: seq<Step>, s: Sink, i: nat)
    requires Runs(INIT, steps, s) && i < |Written(steps)|
    ensures |s.calls| == |Written(steps)|
    ensures var call := s.calls[i];
            && Mine(s.log, i) <= call.buffer == Written(steps)[i]
            && (call.outcome.Fulfilled? ==> call.outcome.count == |Mine(s.log, i)|)
            && s.tasks[i] == (if call.outcome.Running? then 1 else 0)
    ensures forall k :: 0 <= k < |s.log| && s.log[k].Sent? ==> s.log[k].call < |s.calls|
  {
    RunOk(INIT, steps, s);
    CallsFromInit(steps, s);
    assert CallOk(s, i);
  }

  // ---- what becomes of a call

  /** What the device said in the tasks of call `i`, in order. */
  function Said(steps: seq<Step>, i: nat): seq<Weather> {
    if steps == [] then []
    else (if steps[0].Task? && steps[0].call == i then [steps[0].weather] else []) + Said(steps[1..], i)
  }

  /** The tasks of one call alone, and its state after them. */
  predicate Replays(call: Call, said: seq<Weather>, call': Call)
    decreases |said|
  {
    if said == [] then call == call'
    else
      && call.outcome.Running? && call.written <= |call.buffer|
      && Replays(After(call, said[0]), said[1..], call')
  }

  lemma StepOfCall(s: Sink, step: Step, i: nat)
    requires Enabled(s, step) && i < |s.calls|
    ensures i < |Do(s, step).calls|
    ensures Do(s, step).calls[i] == if step.Task? && step.call == i then After(s.calls[i], step.weather) else s.calls[i]
  {
  }

  lemma ReplaysFirst(call: Call, weather: Weather, rest: seq<Weather>, call': Call)
    requires call.outcome.Running? && call.written <= |call.buffer| && Replays(After(call, weather), rest, call')
    ensures Replays(call, [weather] + rest, call')
  {
    assert ([weather] + rest)[1..] == rest;
  }

  /** Other calls and their tasks in between change nothing for a call. */
  lemma {:induction false} CallAlone(s: Sink, steps: seq<Step>, s': Sink, i: nat)
    requires Runs(s, steps, s') && i < |s.calls|
    ensures i < |s'.calls| && Replays(s.calls[i], Said(steps, i), s'.calls[i])
    decreases |steps|
  {
    if steps != [] {
      var step := steps[0];
      StepOfCall(s, step, i);
      CallAlone(Do(s, step), steps[1..], s', i);
      if step.Task? && step.call == i {
        ReplaysFirst(s.calls[i], step.weather, Said(steps[1..], i), s'.calls[i]);
      } else {
        assert Said(steps, i) == Said(steps[1..], i);
      }
    }
  }

  lemma NewCall(s: Sink, step: Step, i: nat)
    requires Enabled(s, step) && |s.calls| <= i
    ensures !(step.Task? && step.call == i)
    ensures i < |Do(s, step).calls| ==> step.Write? && Do(s, step).calls[i] == Call(step.buffer, 0, 0, Running)
  {
  }

  lemma {:induction false} NewCallAlone(s: Sink, steps: seq<Step>, s': Sink, i: nat) returns (buffer: seq<Byte>)
    requires Runs(s, steps, s') && |s.calls| <= i < |s'.calls|
    ensures Replays(Call(buffer, 0, 0, Running), Said(steps, i), s'.calls[i])
    decreases |steps|
  {
    var step := steps[0];
    NewCall(s, step, i);
    assert Said(steps, i) == Said(steps[1..], i);
    if i < |Do(s, step).calls| {
      buffer := step.buffer;
      CallAlone(Do(s, step), steps[1..], s', i);
    } else {
      buffer := NewCallAlone(Do(s, step), steps[1..], s', i);
    }
  }

  /** The most that a device in this state takes of one offer. */
  function Room(weather: Weather): nat {
    if weather.open && weather.ready && !weather.error
    then Min(Min(weather.recommended, weather.maximum), weather.takes) else 0
  }

  function TotalRoom(said: seq<Weather>): nat {
    if said == [] then 0 else Room(said[0]) + TotalRoom(said[1..])
  }

  /** The device is closed, or ready and recommends nothing, and shows no error. */
  predicate Refuses(weather: Weather) {
    !weather.error && (!weather.open || (weather.ready && weather.recommended == 0))
  }

  predicate Breaks(weather: Weather) {
    weather.error || (weather.open && weather.ready && weather.recommended > 0 && weather.throws)
  }

  lemma {:induction false} FateOfReplay(call: Call, said: seq<Weather>, call': Call)
    requires Replays(call, said, call') && call.outcome.Running? && call.written <= |call.buffer|
    ensures call'.buffer == call.buffer
    ensures said == [] ==> call' == call
    ensures said != [] ==>
              var room := TotalRoom(said[..|said| - 1]); var last := said[|said| - 1]; var rest := |call.buffer| - call.written;
              && (call'.outcome.Fulfilled? <==> room >= rest || Refuses(last))
              && (call'.outcome.Failed? <==> room < rest && Breaks(last))
              && (call'.outcome.Fulfilled? ==> call'.outcome.count == call.written + Min(room, rest))
    decreases |said|
  {
    if |said| == 1 {
      assert said[1..] == [] && TotalRoom(said[..0]) == 0;
    } else if said != [] {
      var tail := said[1..];
      FateOfReplay(After(call, said[0]), tail, call');
      assert said[..|said| - 1][1..] == tail[..|tail| - 1] && said[|said| - 1] == tail[|tail| - 1];
    }
  }

  /**
   * What becomes of a call in any run is decided by its buffer's length and by what the device said
   * in its own tasks: the promise is kept exactly when earlier tasks had room for the whole buffer or
   * the last one found a device that refuses, it is broken exactly when bytes were left and the last
   * task met an error, and a promised number is the smaller of that room and the buffer's length.
   */
  lemma FateOfEachCall(steps: seq<Step>, s: Sink, i: nat)
    requires Runs(INIT, steps, s) && i < |Written(steps)|
    ensures |s.calls| == |Written(steps)| && s.calls[i].buffer == Written(steps)[i]
    ensures var call := s.calls[i]; var said := Said(steps, i);
            if said == [] then call.outcome.Running? && Mine(s.log, i) == []
            else
              var room := TotalRoom(said[..|said| - 1]); var last := said[|said| - 1];
              && (call.outcome.Fulfilled? <==> room >= |call.buffer| || Refuses(last))
              && (call.outcome.Failed? <==> room < |call.buffer| && Breaks(last))
              && (call.outcome.Fulfilled? ==>
                    call.outcome.count == Min(room, |call.buffer|) && Mine(s.log, i) == call.buffer[..Min(room, |call.buffer|)])
  {
    RunOk(INIT, steps, s);
    CallsFromInit(steps, s);
    assert CallOk(s, i);
    var buffer := NewCallAlone(INIT, steps, s, i);
    FateOfReplay(Call(buffer, 0, 0, Running), Said(steps, i), s.calls[i]);
  }

  /** A kept promise tells of fewer bytes than the buffer has exactly when bytes were left and the device refused. */
  lemma StopsShortExactlyWhen(steps: seq<Step>, s: Sink, i: nat)
    requires Runs(INIT, steps, s) && i < |s.calls| && s.calls[i].outcome.Fulfilled?
    ensures var said := Said(steps, i);
            && said != [] && i < |Written(steps)| && s.calls[i].buffer == Written(steps)[i]
            && (s.calls[i].outcome.count < |s.calls[i].buffer| <==>
                  TotalRoom(said[..|said| - 1]) < |s.calls[i].buffer| && Refuses(said[|said| - 1]))
  {
    CallsFromInit(steps, s);
    FateOfEachCall(steps, s, i);
  }

  /** That the device refused in the last task is not enough: the whole buffer may have been sent before. */
  lemma RefusedButWhole(byte: Byte)
    ensures var open := Weather(true, true, false, 1, 1, 1, false); var closed := open.(open := false);
            var steps := [Write([byte]), Task(0, open), Task(0, closed)];
            && Runs(INIT, steps, Sink([Call([byte], 1, 1, Fulfilled(1))], multiset{}, [Sent(0, byte)]))
            && Refuses(closed)
  {
    var open := Weather(true, true, false, 1, 1, 1, false);
    var closed := open.(open := false);
    var s := Sink([Call([byte], 1, 1, Running)], multiset{0}, [Sent(0, byte)]);
    assert Runs(s, [Task(0, closed)], Sink([Call([byte], 1, 1, Fulfilled(1))], multiset{}, [Sent(0, byte)]));
    var b := Do(INIT, Write([byte]));
    assert Do(b, Task(0, open)) == s;
    assert [Task(0, open), Task(0, closed)][1..] == [Task(0, closed)];
    assert [Write([byte]), Task(0, open), Task(0, closed)][1..] == [Task(0, open), Task(0, closed)];
  }

  // ---- progress

  /** The device is ready, open and free of errors and takes at least one byte. */
  predicate Good(weather: Weather) {
    && weather.ready && weather.open && !weather.error && !weather.throws
    && weather.recommended > 0 && weather.maximum > 0 && weather.takes > 0
  }

  ghost predicate GoodRuns(s: Sink, steps: seq<Step>, s': Sink) {
    Runs(s, steps, s') && forall k :: 0 <= k < |steps| && steps[k].Task? ==> Good(steps[k].weather)
  }

  /** Tasks a call still needs at most: one for each unsent byte and one to settle the promise. */
  function Need(): Call -> int {
    (call: Call) => if call.outcome.Running? && call.written <= |call.buffer| then |call.buffer| - call.written + 1 else 0
  }

  function Tasks(steps: seq<Step>): nat {
    if steps == [] then 0 else (if steps[0].Task? then 1 else 0) + Tasks(steps[1..])
  }

  function Begun(steps: seq<Step>): nat {
    if steps == [] then 0
    else (if steps[0].Write? && steps[0].buffer != [] then |steps[0].buffer| + 1 else 0) + Begun(steps[1..])
  }

  /** No call has failed or stopped short. */
  ghost predicate Whole(s: Sink) {
    forall i {:trigger s.calls[i]} :: 0 <= i < |s.calls| ==>
      match s.calls[i].outcome
      case Running => true
      case Fulfilled(n) => n == |s.calls[i].buffer|
      case Failed => false
  }

  lemma GoodTurn(s: Sink, i: nat, weather: Weather)
    requires Ok(s) && CanRun(s, i) && Good(weather) && Whole(s)
    ensures Sum(HandlerTurn(s, i, weather).calls, Need()) < Sum(s.calls, Need())
    ensures Whole(HandlerTurn(s, i, weather))
  {
    assert CallOk(s, i);
    SumUpdate(s.calls, i, HandlerTurn(s, i, weather).calls[i], Need());
  }

  lemma {:induction false} GoodRunProgresses(s: Sink, steps: seq<Step>, s': Sink)
    requires Ok(s) && Whole(s) && GoodRuns(s, steps, s')
    ensures Whole(s') && Tasks(steps) + Sum(s'.calls, Need()) <= Sum(s.calls, Need()) + Begun(steps)
    decreases |steps|
  {
    if steps != [] {
      var m := Do(s, steps[0]);
      RunOk(s, [steps[0]], m);
      match steps[0] {
        case Write(buffer) =>
          if buffer != [] {
            SumAppend(s.calls, Call(buffer, 0, 0, Running), Need());
          }
        case End(_) =>
        case Task(i, weather) => GoodTurn(s, i, weather);
      }
      forall k | 0 <= k < |steps[1..]| && steps[1..][k].Task?
        ensures Good(steps[1..][k].weather)
      {
        assert steps[1..][k] == steps[k + 1];
      }
      GoodRunProgresses(m, steps[1..], s');
    }
  }

  /**
   * While the device is ready, open and error-free and every write makes progress, all handlers
   * together run at most one task per byte and one more per call, and when none is left every buffer
   * written was promised in its whole length and the device has all of it.
   */
  lemma EveryCallFinishes(steps: seq<Step>, s: Sink)
    requires GoodRuns(INIT, steps, s)
    ensures Tasks(steps) <= Begun(steps)
    ensures |s.calls| == |Written(steps)|
    ensures s.tasks == multiset{} ==> forall i :: 0 <= i < |Written(steps)| ==>
              s.calls[i].outcome == Fulfilled(|Written(steps)[i]|) && Mine(s.log, i) == Written(steps)[i]
  {
    GoodRunProgresses(INIT, steps, s);
    RunOk(INIT, steps, s);
    CallsFromInit(steps, s);
    SumNonNegative(s.calls, Need());
    forall i | s.tasks == multiset{} && 0 <= i < |s.calls|
      ensures s.calls[i].outcome == Fulfilled(|s.calls[i].buffer|) && Mine(s.log, i) == s.calls[i].buffer
    {
      assert CallOk(s, i);
    }
  }

  lemma NothingSent(s: Sink, i: nat)
    requires i in s.tasks
    ensures s.log + Signals(i, []) == s.log && s.tasks - multiset{i} + multiset{i} == s.tasks
  {
  }

  // ---- the device and its handlers, updated in place

  class SinkDevice {
    var calls: seq<Call>
    var tasks: multiset<nat>
    var log: seq<Signal>

    function View(): Sink
      reads this
    {
      Sink(calls, tasks, log)
    }

    constructor ()
      ensures View() == INIT
    {
      calls, tasks, log := [], multiset{}, [];
    }

    /** write: null, an empty buffer, or bytes for a handler. */
    method Write(isNull: bool, buffer: seq<Byte>, ready: bool)
      modifies this
      ensures View() == if isNull then WriteNull(old(View()), ready) else Begin(old(View()), buffer)
    {
      if isNull {
        if ready {
          log := log + [EndMark];
        }
        return;
      }
      if |buffer| == 0 {
        return;
      }
      tasks := tasks + multiset{|calls|};
      calls := calls + [Call(buffer, 0, 0, Running)];
    }

    method DeviceWrite(i: nat, bytes: seq<Byte>, takes: nat) returns (count: nat)
      modifies this`log
      ensures count == Min(takes, |bytes|) && log == old(log) + Signals(i, bytes[..count])
    {
      count := Min(takes, |bytes|);
      log := log + Signals(i, bytes[..count]);
    }

    /** The promise of call `i` settles; its handler is not scheduled again. */
    method Settle(i: nat, outcome: Outcome)
      requires i < |calls|
      modifies this`calls
      ensures calls == old(calls)[i := old(calls[i]).(outcome := outcome)]
    {
      calls := calls[i := calls[i].(outcome := outcome)];
    }

    /** The part of the handler that offers the device a piece, and schedules the handler again. */
    method SendPiece(i: nat, written: nat, size: nat, weather: Weather)
      requires i < |calls| && calls[i].outcome.Running? && calls[i].written == written
      requires written + size <= |calls[i].buffer|
      modifies this
      ensures var call := old(calls[i]); var sent := written + Min(weather.takes, size);
              && log == old(log) + Signals(i, call.buffer[written..sent])
              && calls == old(calls)[i := if weather.throws then call.(sent := sent, outcome := Failed)
                                          else call.(written := sent, sent := sent)]
              && tasks == if weather.throws then old(tasks) else old(tasks) + multiset{i}
    {
      var buffer := calls[i].buffer;
      var count := DeviceWrite(i, buffer[written..written + size], weather.takes);
      assert buffer[written..written + size][..count] == buffer[written..written + count];
      calls := calls[i := calls[i].(sent := written + count)];
      if weather.throws {
        Settle(i, Failed);
        return;
      }
      calls := calls[i := calls[i].(written := written + count)];
      tasks := tasks + multiset{i};
    }

    /** One task of the handler of call `i`. */
    method WriteHandler(i: nat, weather: Weather)
      requires CanRun(View(), i)
      modifies this
      ensures View() == HandlerTurn(old(View()), i, weather)
    {
      NothingSent(View(), i);
      tasks := tasks - multiset{i};
      var length, written := |calls[i].buffer|, calls[i].written;
      // The body of the source's loop leaves it on every path, so that it runs at most once.
      label Loop: if written < length {
        if !weather.ready && weather.open {
          if weather.error {
            Settle(i, Failed);
          } else {
            tasks := tasks + multiset{i};
          }
          return;
        }
        if weather.error {
          Settle(i, Failed);
          return;
        } else if !weather.open {
          break Loop;
        }
        var size := Min(weather.recommended, length - written);
        if size != 0 {
          if size > weather.maximum {
            size := weather.maximum;
          }
          SendPiece(i, written, size, weather);
          return;
        } else {
          break Loop;
        }
      }
      Settle(i, Fulfilled(written));
    }
  }
}
