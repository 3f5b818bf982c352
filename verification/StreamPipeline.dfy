/**
 * A file push device, the readable stream on it, and `pipe` to any number of writable streams, from
 * one `resume` to the last `end`. The targets work on one item concurrently.
 */
module StreamPipeline {
  import opened Bytes
  import opened FilterChains

  const BLOCK: nat := 8388608

  /** What is piped where: the file, the readable stream's filters, and each target's filters. */
  datatype Pipe = Pipe(content: seq<Byte>, filters: seq<Filter>, targets: seq<seq<Filter>>)

  /** What a target is doing with the item it was given. */
  datatype Work =
    | Idle                                      // its write() has resolved
    | Passing(k: nat, item: Item)               // before filter k, or before device.write
    | Sending(bytes: seq<Byte>, sent: nat)      // the write handler of its device

  /** `seen` is the state of the target's filters; the last three fields are history. */
  datatype Target = Target(work: Work, seen: seq<seq<Item>>, given: seq<Item>, received: seq<Item>, log: seq<Byte>)

  datatype Purpose = Block | Flush | End

  datatype Phase =
    | Reading                                   // the read handler is scheduled
    | Filtering(k: nat, item: Item, final: bool) // in the readable stream's filters
    | Piping(purpose: Purpose)                  // waiting for all targets
    | Finished

  /** `position` and `eof` belong to the file stream, `seen` to the filters; `blocks` is history. */
  datatype State = State(position: nat, eof: bool, phase: Phase, seen: seq<seq<Item>>,
                         blocks: seq<seq<Byte>>, targets: seq<Target>)

  datatype Step =
    | Read(some: nat)                           // what readsome finds in the stream's buffer
    | Filter                                    // the next filter of the readable stream, or the emit after it
    | TargetFilter(target: nat)
    | TargetSend(target: nat, taken: nat)
    | Gather                                    // Promise.all of the targets' promises resolves

  function InitialTarget(filters: seq<Filter>): Target {
    Target(Idle, seq(|filters|, _ => []), [], [], [])
  }

  /** After `resume`: the handler is scheduled. */
  function Initial(p: Pipe): State {
    State(0, false, Reading, seq(|p.filters|, _ => []), [],
          seq(|p.targets|, i requires 0 <= i < |p.targets| => InitialTarget(p.targets[i])))
  }

  predicate AllIdle(targets: seq<Target>) {
    forall i :: 0 <= i < |targets| ==> targets[i].work.Idle?
  }

  predicate Enabled(p: Pipe, s: State, step: Step) {
    && |s.targets| == |p.targets|
    && match step
       case Read(some) => s.phase.Reading? && s.position <= |p.content| && some <= Min(BLOCK, |p.content| - s.position)
       case Filter => s.phase.Filtering? && |s.seen| == |p.filters|
       case TargetFilter(i) => i < |s.targets| && s.targets[i].work.Passing? && |s.targets[i].seen| == |p.targets[i]|
       case TargetSend(i, taken) =>
         i < |s.targets| && s.targets[i].work.Sending? && 1 <= taken <= |s.targets[i].work.bytes| - s.targets[i].work.sent
       case Gather => s.phase.Piping? && AllIdle(s.targets)
  }

  /** emit: every target's write() is called with the item. */
  function Give(targets: seq<Target>, item: Item): seq<Target> {
    seq(|targets|, i requires 0 <= i < |targets| =>
      targets[i].(work := Passing(0, item), given := targets[i].given + [item]))
  }

  /** One run of the read handler. Only `read` reaches the end of the file, and only when it comes up short. */
  function DoRead(p: Pipe, s: State, some: nat): State
    requires Enabled(p, s, Read(some))
  {
    var available := Min(BLOCK, |p.content| - s.position);
    var size := if some > 0 then some else available;
    var eof := some == 0 && available < BLOCK;
    if size > 0 then
      var block := p.content[s.position..s.position + size];
      s.(position := s.position + size, eof := eof, blocks := s.blocks + [block], phase := Filtering(0, Data(block), false))
    else if eof then s.(eof := true, phase := Filtering(0, Null, true))
    else s
  }

  function DoFilter(p: Pipe, s: State): State
    requires Enabled(p, s, Filter)
  {
    var Filtering(k, item, final) := s.phase;
    if k < |p.filters| then
      s.(seen := s.seen[k := s.seen[k] + [item]], phase := Filtering(k + 1, p.filters[k](s.seen[k], item), final))
    else if !final then s.(phase := Piping(Block), targets := Give(s.targets, item))
    else if item != Null then s.(phase := Piping(Flush), targets := Give(s.targets, item))
    else s.(phase := Piping(End), targets := Give(s.targets, Null))
  }

  /** The next filter of a target, or device.write: null and empty buffers are done at once. */
  function FilterOf(filters: seq<Filter>, t: Target): Target
    requires t.work.Passing? && |t.seen| == |filters|
  {
    var Passing(k, item) := t.work;
    if k < |filters| then t.(seen := t.seen[k := t.seen[k] + [item]], work := Passing(k + 1, filters[k](t.seen[k], item)))
    else if item == Null || item.bytes == [] then t.(work := Idle, received := t.received + [item])
    else t.(work := Sending(item.bytes, 0))
  }

  /** The device takes some bytes; with the last one the write resolves. */
  function SendOf(t: Target, taken: nat): Target
    requires t.work.Sending? && 1 <= taken <= |t.work.bytes| - t.work.sent
  {
    var Sending(bytes, sent) := t.work;
    var log := t.log + bytes[sent..sent + taken];
    if sent + taken < |bytes| then t.(work := Sending(bytes, sent + taken), log := log)
    else t.(work := Idle, received := t.received + [Data(bytes)], log := log)
  }

  function DoGather(s: State): State
    requires s.phase.Piping?
  {
    match s.phase.purpose
    case Block => s.(phase := if s.eof then Filtering(0, Null, true) else Reading)
    case Flush => s.(phase := Piping(End), targets := Give(s.targets, Null))
    case End => s.(phase := Finished)
  }

  function Do(p: Pipe, s: State, step: Step): State
    requires Enabled(p, s, step)
  {
    match step
    case Read(some) => DoRead(p, s, some)
    case Filter => DoFilter(p, s)
    case TargetFilter(i) => s.(targets := s.targets[i := FilterOf(p.targets[i], s.targets[i])])
    case TargetSend(i, taken) => s.(targets := s.targets[i := SendOf(s.targets[i], taken)])
    case Gather => DoGather(s)
  }

  ghost predicate Runs(p: Pipe, s: State, steps: seq<Step>, s': State)
    decreases |steps|
  {
    if steps == [] then s == s'
    else Enabled(p, s, steps[0]) && Runs(p, Do(p, s, steps[0]), steps[1..], s')
  }

  // ---- what every state looks like

  function Datas(blocks: seq<seq<Byte>>): seq<Item> {
    seq(|blocks|, i requires 0 <= i < |blocks| => Data(blocks[i]))
  }

  /** All items the targets are given for a file read in these blocks: the image of the data, what the flush yields, null. */
  function Whole(filters: seq<Filter>, blocks: seq<seq<Byte>>): seq<Item> {
    var image := Through(filters, Datas(blocks) + [Null]);
    if image[|blocks|] == Null then image else image + [Null]
  }

  ghost predicate TargetOk(filters: seq<Filter>, t: Target) {
    match t.work
    case Idle =>
      Saw(filters, t.seen, t.given, [], 0) && t.received == Through(filters, t.given) && t.log == Flat(t.received)
    case Passing(k, item) =>
      && t.given != []
      && (var before, x := t.given[..|t.given| - 1], t.given[|t.given| - 1];
          && k <= |filters| && Saw(filters, t.seen, before, [x], k) && item == Pass(filters[..k], before, x)
          && t.received == Through(filters, before) && t.log == Flat(t.received))
    case Sending(bytes, sent) =>
      && t.given != [] && sent < |bytes|
      && (var before, x := t.given[..|t.given| - 1], t.given[|t.given| - 1];
          && Saw(filters, t.seen, t.given, [], 0) && Data(bytes) == Pass(filters, before, x)
          && t.received == Through(filters, before) && t.log == Flat(t.received) + bytes[..sent])
  }

  /** The items that have come out of the readable stream's filters, and what was added after them. */
  function Emitted(filters: seq<Filter>, s: State): seq<Item> {
    match s.phase
    case Reading => Through(filters, Datas(s.blocks))
    case Filtering(_, _, final) =>
      Through(filters, Datas(if final || s.blocks == [] then s.blocks else s.blocks[..|s.blocks| - 1]))
    case Piping(Block) => Through(filters, Datas(s.blocks))
    case Piping(Flush) => Through(filters, Datas(s.blocks) + [Null])
    case Piping(End) => Whole(filters, s.blocks)
    case Finished => Whole(filters, s.blocks)
  }

  ghost predicate SourceOk(filters: seq<Filter>, s: State) {
    match s.phase
    case Reading => Saw(filters, s.seen, Datas(s.blocks), [], 0) && !s.eof
    case Filtering(k, item, final) =>
      && (final || s.blocks != [])
      && (var before := Datas(if final then s.blocks else s.blocks[..|s.blocks| - 1]);
          var x := if final then Null else Data(s.blocks[|s.blocks| - 1]);
          k <= |filters| && Saw(filters, s.seen, before, [x], k) && item == Pass(filters[..k], before, x))
      && (final ==> s.eof)
    case Piping(Block) => Saw(filters, s.seen, Datas(s.blocks), [], 0)
    case Piping(Flush) => s.eof && Through(filters, Datas(s.blocks) + [Null])[|s.blocks|] != Null
    case Piping(End) => s.eof
    case Finished => s.eof
  }

  ghost predicate FileOk(p: Pipe, s: State) {
    && s.position <= |p.content| && Concat(s.blocks) == p.content[..s.position]
    && (forall i :: 0 <= i < |s.blocks| ==> 1 <= |s.blocks[i]| <= BLOCK)
    && (s.eof ==> s.position == |p.content|)
  }

  ghost predicate Ok(p: Pipe, s: State) {
    && FileOk(p, s) && SourceOk(p.filters, s) && |s.targets| == |p.targets|
    && (!s.phase.Piping? ==> AllIdle(s.targets))
    && forall i {:trigger TargetOk(p.targets[i], s.targets[i])} :: 0 <= i < |s.targets| ==>
         TargetOk(p.targets[i], s.targets[i]) && s.targets[i].given == Emitted(p.filters, s)
  }

  lemma InitialOk(p: Pipe)
    ensures Ok(p, Initial(p))
  {
    var s := Initial(p);
    forall i | 0 <= i < |s.targets|
      ensures TargetOk(p.targets[i], s.targets[i]) && s.targets[i].given == Emitted(p.filters, s)
    {
      assert Through(p.filters, []) == [] && Through(p.targets[i], []) == [];
    }
  }

  // ---- targets

  lemma GivenOk(filters: seq<Filter>, t: Target, item: Item)
    requires TargetOk(filters, t) && t.work.Idle?
    ensures TargetOk(filters, t.(work := Passing(0, item), given := t.given + [item]))
  {
    assert (t.given + [item])[..|t.given|] == t.given;
  }

  lemma FilterOfOk(filters: seq<Filter>, t: Target)
    requires TargetOk(filters, t) && t.work.Passing?
    ensures TargetOk(filters, FilterOf(filters, t)) && FilterOf(filters, t).given == t.given
  {
    var Passing(k, item) := t.work;
    var before, x := t.given[..|t.given| - 1], t.given[|t.given| - 1];
    if k < |filters| {
      FilterStep(filters, t.seen, before, x, k, item);
    } else {
      assert filters[..k] == filters && t.given == before + [x];
      SawAll(filters, t.seen, before, x, k);
      ThroughAppend(filters, before, x);
      FlatAppend(t.received, item);
    }
  }

  lemma SendOfOk(filters: seq<Filter>, t: Target, taken: nat)
    requires TargetOk(filters, t) && t.work.Sending? && 1 <= taken <= |t.work.bytes| - t.work.sent
    ensures TargetOk(filters, SendOf(t, taken)) && SendOf(t, taken).given == t.given
  {
    var Sending(bytes, sent) := t.work;
    var before, x := t.given[..|t.given| - 1], t.given[|t.given| - 1];
    assert t.given == before + [x];
    assert Flat(t.received) + bytes[..sent] + bytes[sent..sent + taken] == Flat(t.received) + bytes[..sent + taken];
    if sent + taken == |bytes| {
      ThroughAppend(filters, before, x);
      FlatAppend(t.received, Data(bytes));
    }
  }

  lemma SourceUntouched(p: Pipe, s: State, targets: seq<Target>)
    requires FileOk(p, s) && SourceOk(p.filters, s)
    ensures var s' := s.(targets := targets);
            FileOk(p, s') && SourceOk(p.filters, s') && Emitted(p.filters, s') == Emitted(p.filters, s)
  {
  }

  lemma TargetStepOk(p: Pipe, s: State, i: nat, t: Target)
    requires Ok(p, s) && i < |s.targets| && s.phase.Piping?
    requires TargetOk(p.targets[i], t) && t.given == s.targets[i].given
    ensures Ok(p, s.(targets := s.targets[i := t]))
  {
    var targets := s.targets[i := t];
    SourceUntouched(p, s, targets);
    var emitted := Emitted(p.filters, s);
    assert TargetOk(p.targets[i], s.targets[i]) && s.targets[i].given == emitted;
    forall j | 0 <= j < |s.targets|
      ensures TargetOk(p.targets[j], s.targets[j]) && s.targets[j].given == emitted
    {
    }
    OthersOk(p, s, i, t, emitted);
  }

  lemma OthersOk(p: Pipe, s: State, i: nat, t: Target, emitted: seq<Item>)
    requires |s.targets| == |p.targets| && i < |s.targets| && TargetOk(p.targets[i], t) && t.given == emitted
    requires forall j {:trigger TargetOk(p.targets[j], s.targets[j])} :: 0 <= j < |s.targets| ==>
               TargetOk(p.targets[j], s.targets[j]) && s.targets[j].given == emitted
    ensures forall j {:trigger TargetOk(p.targets[j], s.targets[i := t][j])} :: 0 <= j < |s.targets| ==>
              TargetOk(p.targets[j], s.targets[i := t][j]) && s.targets[i := t][j].given == emitted
  {
    forall j | 0 <= j < |s.targets|
      ensures TargetOk(p.targets[j], s.targets[i := t][j]) && s.targets[i := t][j].given == emitted
    {
      if j != i {
        assert TargetOk(p.targets[j], s.targets[j]);
      }
    }
  }

  /** All targets idle get one more item. */
  lemma GiveOk(p: Pipe, s: State, s': State, item: Item)
    requires Ok(p, s) && AllIdle(s.targets) && FileOk(p, s') && SourceOk(p.filters, s') && s'.phase.Piping?
    requires s'.targets == Give(s.targets, item) && Emitted(p.filters, s') == Emitted(p.filters, s) + [item]
    ensures Ok(p, s')
  {
    forall i | 0 <= i < |s'.targets|
      ensures TargetOk(p.targets[i], s'.targets[i]) && s'.targets[i].given == Emitted(p.filters, s')
    {
      assert TargetOk(p.targets[i], s.targets[i]);
      GivenOk(p.targets[i], s.targets[i], item);
    }
  }

  /** The targets are left alone and nothing new was emitted. */
  lemma SameTargetsOk(p: Pipe, s: State, s': State)
    requires Ok(p, s) && AllIdle(s.targets) && FileOk(p, s') && SourceOk(p.filters, s')
    requires s'.targets == s.targets && Emitted(p.filters, s') == Emitted(p.filters, s)
    ensures Ok(p, s')
  {
    forall i | 0 <= i < |s'.targets|
      ensures TargetOk(p.targets[i], s'.targets[i]) && s'.targets[i].given == Emitted(p.filters, s')
    {
      assert TargetOk(p.targets[i], s.targets[i]);
    }
  }

  // ---- source

  lemma ReadOk(p: Pipe, s: State, some: nat)
    requires Ok(p, s) && Enabled(p, s, Read(some))
    ensures Ok(p, DoRead(p, s, some))
  {
    ReadFileOk(p, s, some);
    ReadSourceOk(p, s, some);
    SameTargetsOk(p, s, DoRead(p, s, some));
  }

  lemma ReadFileOk(p: Pipe, s: State, some: nat)
    requires FileOk(p, s) && Enabled(p, s, Read(some))
    ensures FileOk(p, DoRead(p, s, some))
  {
    var s' := DoRead(p, s, some);
    if s'.position > s.position {
      ConcatAppend(s.blocks, p.content[s.position..s'.position]);
      SliceSplits(p.content, s.position, s'.position);
    }
  }

  lemma ReadSourceOk(p: Pipe, s: State, some: nat)
    requires SourceOk(p.filters, s) && Enabled(p, s, Read(some))
    ensures var s' := DoRead(p, s, some); SourceOk(p.filters, s') && Emitted(p.filters, s') == Emitted(p.filters, s)
  {
    var s' := DoRead(p, s, some);
    if s'.position > s.position {
      BlockEnters(p.filters, s, p.content[s.position..s'.position], s');
    }
  }

  /** A block that was just read is before the first filter. */
  lemma BlockEnters(filters: seq<Filter>, s: State, block: seq<Byte>, s': State)
    requires SourceOk(filters, s) && s.phase.Reading?
    requires s'.seen == s.seen && s'.blocks == s.blocks + [block] && s'.phase == Filtering(0, Data(block), false)
    ensures SourceOk(filters, s') && Emitted(filters, s') == Emitted(filters, s)
  {
    assert s'.blocks[..|s.blocks|] == s.blocks && s'.blocks[|s.blocks|] == block;
    assert filters[..0] == [];
  }

  lemma DatasAppend(blocks: seq<seq<Byte>>)
    requires blocks != []
    ensures Datas(blocks) == Datas(blocks[..|blocks| - 1]) + [Data(blocks[|blocks| - 1])]
  {
  }

  /** What the item that has passed the last filter is, and what that makes the emitted items. */
  lemma LastFilterPassed(p: Pipe, s: State)
    requires SourceOk(p.filters, s) && s.phase.Filtering? && s.phase.k >= |p.filters|
    ensures !s.phase.final ==>
              && Through(p.filters, Datas(s.blocks)) == Emitted(p.filters, s) + [s.phase.item]
              && Saw(p.filters, s.seen, Datas(s.blocks), [], 0)
    ensures s.phase.final ==> Through(p.filters, Datas(s.blocks) + [Null]) == Emitted(p.filters, s) + [s.phase.item]
  {
    var Filtering(k, item, final) := s.phase;
    assert p.filters[..k] == p.filters;
    if final {
      ThroughAppend(p.filters, Datas(s.blocks), Null);
    } else {
      var before, x := Datas(s.blocks[..|s.blocks| - 1]), Data(s.blocks[|s.blocks| - 1]);
      DatasAppend(s.blocks);
      ThroughAppend(p.filters, before, x);
      SawAll(p.filters, s.seen, before, x, k);
    }
  }

  /** The item has passed the last filter of the readable stream. */
  lemma EmitOk(p: Pipe, s: State)
    requires Ok(p, s) && Enabled(p, s, Filter) && s.phase.k >= |p.filters|
    ensures Ok(p, DoFilter(p, s))
  {
    LastFilterPassed(p, s);
    GiveOk(p, s, DoFilter(p, s), s.phase.item);
  }

  lemma FilterOk(p: Pipe, s: State)
    requires Ok(p, s) && Enabled(p, s, Filter)
    ensures Ok(p, DoFilter(p, s))
  {
    var Filtering(k, item, final) := s.phase;
    if k < |p.filters| {
      var before := Datas(if final then s.blocks else s.blocks[..|s.blocks| - 1]);
      var x := if final then Null else Data(s.blocks[|s.blocks| - 1]);
      FilterStep(p.filters, s.seen, before, x, k, item);
      SameTargetsOk(p, s, DoFilter(p, s));
    } else {
      EmitOk(p, s);
    }
  }

  lemma GatherOk(p: Pipe, s: State)
    requires Ok(p, s) && Enabled(p, s, Gather)
    ensures Ok(p, DoGather(s))
  {
    match s.phase.purpose
    case Block => SameTargetsOk(p, s, DoGather(s));
    case Flush => GiveOk(p, s, DoGather(s), Null);
    case End => SameTargetsOk(p, s, DoGather(s));
  }

  lemma StepOk(p: Pipe, s: State, step: Step)
    requires Ok(p, s) && Enabled(p, s, step)
    ensures Ok(p, Do(p, s, step))
  {
    match step
    case Read(some) => ReadOk(p, s, some);
    case Filter => FilterOk(p, s);
    case TargetFilter(i) =>
      assert TargetOk(p.targets[i], s.targets[i]);
      FilterOfOk(p.targets[i], s.targets[i]);
      TargetStepOk(p, s, i, FilterOf(p.targets[i], s.targets[i]));
    case TargetSend(i, taken) =>
      assert TargetOk(p.targets[i], s.targets[i]);
      SendOfOk(p.targets[i], s.targets[i], taken);
      TargetStepOk(p, s, i, SendOf(s.targets[i], taken));
    case Gather => GatherOk(p, s);
  }

  lemma {:induction false} RunOk(p: Pipe, s: State, steps: seq<Step>, s': State)
    requires Ok(p, s) && Runs(p, s, steps, s')
    ensures Ok(p, s')
    decreases |steps|
  {
    if steps != [] {
      StepOk(p, s, steps[0]);
      RunOk(p, Do(p, s, steps[0]), steps[1..], s');
    }
  }

  // ---- main results

  /**
   * When a run is over the blocks are the whole file, each of 1 byte to 8 MiB, and every target's
   * device was handed exactly the image, under both chains of filters, of the blocks in file order.
   */
  lemma PipedInOrder(p: Pipe, steps: seq<Step>, s: State, i: nat)
    requires Runs(p, Initial(p), steps, s) && s.phase.Finished? && i < |p.targets|
    ensures Concat(s.blocks) == p.content && forall k :: 0 <= k < |s.blocks| ==> 1 <= |s.blocks[k]| <= BLOCK
    ensures |s.targets| == |p.targets| && s.targets[i].given == Whole(p.filters, s.blocks)
    ensures s.targets[i].received == Through(p.targets[i], Whole(p.filters, s.blocks))
    ensures s.targets[i].log == Flat(s.targets[i].received)
  {
    InitialOk(p);
    RunOk(p, Initial(p), steps, s);
    assert TargetOk(p.targets[i], s.targets[i]);
    assert p.content[..s.position] == p.content;
  }

  /**
   * Back-pressure: whenever the next block can be read, or the end is being prepared, every target's
   * device has taken the image of all blocks before, down to the last byte.
   */
  lemma NextBlockWaits(p: Pipe, steps: seq<Step>, s: State, i: nat)
    requires Runs(p, Initial(p), steps, s) && i < |p.targets|
    requires s.phase.Reading? || (s.phase.Filtering? && s.phase.final)
    ensures |s.targets| == |p.targets|
    ensures s.targets[i].received == Through(p.targets[i], Through(p.filters, Datas(s.blocks)))
    ensures s.targets[i].log == Flat(s.targets[i].received)
  {
    InitialOk(p);
    RunOk(p, Initial(p), steps, s);
    assert TargetOk(p.targets[i], s.targets[i]);
  }

  /** At every moment what a device has taken is part of what it would take of the blocks so far, in order. */
  lemma DevicesSeePrefixes(p: Pipe, steps: seq<Step>, s: State, i: nat)
    requires Runs(p, Initial(p), steps, s) && i < |p.targets|
    ensures |s.targets| == |p.targets| && s.targets[i].given == Emitted(p.filters, s)
    ensures s.targets[i].received <= Through(p.targets[i], s.targets[i].given)
  {
    InitialOk(p);
    RunOk(p, Initial(p), steps, s);
    var t := s.targets[i];
    assert TargetOk(p.targets[i], t);
    if !t.work.Idle? {
      var before, x := t.given[..|t.given| - 1], t.given[|t.given| - 1];
      assert t.given == before + [x];
      ThroughAppend(p.targets[i], before, x);
    }
  }

  /** A null at the end and nowhere else. */
  predicate EndsOnce(items: seq<Item>) {
    items != [] && forall k :: 0 <= k < |items| ==> (items[k] == Null <==> k == |items| - 1)
  }

  ghost predicate KeepData(filters: seq<Filter>) {
    forall k :: 0 <= k < |filters| ==> KeepsData(filters[k])
  }

  /** No item of a sequence is null. */
  predicate AllData(items: seq<Item>) {
    forall k :: 0 <= k < |items| ==> items[k] != Null
  }

  lemma LastIsOnlyNull(front: seq<Item>, last: Item)
    ensures EndsOnce(front + [last]) <==> AllData(front) && last == Null
  {
    var items := front + [last];
    assert items[|front|] == last && forall k :: 0 <= k < |front| ==> items[k] == front[k];
  }

  /** What the pipe gives its targets ends with the one null unless a filter made null of a block. */
  lemma WholeEndsOnce(filters: seq<Filter>, blocks: seq<seq<Byte>>)
    ensures EndsOnce(Whole(filters, blocks)) <==> AllData(Through(filters, Datas(blocks)))
    ensures var whole := Whole(filters, blocks); whole[|whole| - 1] == Null
  {
    var image, flush := Through(filters, Datas(blocks)), Pass(filters, Datas(blocks), Null);
    ThroughAppend(filters, Datas(blocks), Null);
    if flush == Null {
      LastIsOnlyNull(image, Null);
    } else {
      LastIsOnlyNull(image + [flush], Null);
      assert (image + [flush])[|image|] == flush && forall k :: 0 <= k < |image| ==> (image + [flush])[k] == image[k];
    }
  }

  /**
   * The write(null) of the pipe reaches each target after everything else, and it is the only null that
   * does, if and only if no filter of the readable stream made null of a block.
   */
  lemma EndReachesTargets(p: Pipe, steps: seq<Step>, s: State, i: nat)
    requires Runs(p, Initial(p), steps, s) && s.phase.Finished? && i < |p.targets|
    ensures |s.targets| == |p.targets| && s.targets[i].given != [] && s.targets[i].given[|s.targets[i].given| - 1] == Null
    ensures EndsOnce(s.targets[i].given) <==> AllData(Through(p.filters, Datas(s.blocks)))
  {
    PipedInOrder(p, steps, s, i);
    WholeEndsOnce(p.filters, s.blocks);
  }

  /**
   * A target's device hears of the end exactly once, as the last thing, if and only if the target's own
   * filters make null of the final null and of nothing before it: a flush in a target's own chain takes
   * the place of the end.
   */
  lemma DeviceHearsEndExactlyWhen(p: Pipe, steps: seq<Step>, s: State, i: nat)
    requires Runs(p, Initial(p), steps, s) && s.phase.Finished? && i < |p.targets|
    ensures |s.targets| == |p.targets| && s.targets[i].given != []
    ensures var before := s.targets[i].given[..|s.targets[i].given| - 1];
            EndsOnce(s.targets[i].received) <==>
              AllData(Through(p.targets[i], before)) && Pass(p.targets[i], before, Null) == Null
  {
    EndReachesTargets(p, steps, s, i);
    PipedInOrder(p, steps, s, i);
    var given := s.targets[i].given;
    var before := given[..|given| - 1];
    assert given == before + [Null];
    ThroughAppend(p.targets[i], before, Null);
    LastIsOnlyNull(Through(p.targets[i], before), Pass(p.targets[i], before, Null));
  }

  /** Behind filters that keep data data only the final null counts. */
  lemma KeptDataEndsOnce(p: Pipe, steps: seq<Step>, s: State, i: nat)
    requires Runs(p, Initial(p), steps, s) && s.phase.Finished? && i < |p.targets|
    requires KeepData(p.filters) && KeepData(p.targets[i])
    ensures |s.targets| == |p.targets| && EndsOnce(s.targets[i].given)
    ensures var before := s.targets[i].given[..|s.targets[i].given| - 1];
            EndsOnce(s.targets[i].received) <==> Pass(p.targets[i], before, Null) == Null
  {
    EndReachesTargets(p, steps, s, i);
    DeviceHearsEndExactlyWhen(p, steps, s, i);
    ThroughKeepsData(p.filters, Datas(s.blocks));
    ThroughKeepsData(p.targets[i], s.targets[i].given[..|s.targets[i].given| - 1]);
  }

  // ---- every run ends

  function FilterWork(fs: seq<Filter>, t: Target): nat {
    if t.work.Passing? && t.work.k <= |fs| then 1 + |fs| - t.work.k else 0
  }

  function SendWork(t: Target): nat {
    if t.work.Sending? && t.work.sent <= |t.work.bytes| then |t.work.bytes| - t.work.sent else 0
  }

  function FilterWorks(filters: seq<seq<Filter>>, targets: seq<Target>): nat
    requires |filters| == |targets|
  {
    if targets == [] then 0
    else FilterWork(filters[0], targets[0]) + FilterWorks(filters[1..], targets[1..])
  }

  function SendWorks(targets: seq<Target>): nat {
    if targets == [] then 0 else SendWork(targets[0]) + SendWorks(targets[1..])
  }

  /** The order of the phases that follow without another block being read. */
  function Rank(p: Pipe, s: State): nat {
    match s.phase
    case Filtering(k, _, false) => |p.filters| + 8 + if k <= |p.filters| then |p.filters| - k else 0
    case Piping(Block) => |p.filters| + 7
    case Reading => |p.filters| + 6
    case Filtering(k, _, true) => 5 + if k <= |p.filters| then |p.filters| - k else 0
    case Piping(Flush) => 4
    case Piping(End) => 3
    case Finished => 0
  }

  predicate Less(a: (nat, nat, nat, nat), b: (nat, nat, nat, nat)) {
    || a.0 < b.0
    || (a.0 == b.0 && (a.1 < b.1 || (a.1 == b.1 && (a.2 < b.2 || (a.2 == b.2 && a.3 < b.3)))))
  }

  function Measure(p: Pipe, s: State): (nat, nat, nat, nat)
    requires |s.targets| == |p.targets| && s.position <= |p.content|
  {
    (|p.content| - s.position, Rank(p, s), FilterWorks(p.targets, s.targets), SendWorks(s.targets))
  }

  lemma {:induction false} WorksUpdate(filters: seq<seq<Filter>>, targets: seq<Target>, i: nat, t: Target)
    requires |filters| == |targets| && i < |targets|
    ensures FilterWorks(filters, targets[i := t]) ==
              FilterWorks(filters, targets) - FilterWork(filters[i], targets[i]) + FilterWork(filters[i], t)
    ensures SendWorks(targets[i := t]) == SendWorks(targets) - SendWork(targets[i]) + SendWork(t)
    decreases |targets|
  {
    if i == 0 {
      assert targets[i := t][1..] == targets[1..];
    } else {
      assert targets[i := t][1..] == targets[1..][i - 1 := t];
      WorksUpdate(filters[1..], targets[1..], i - 1, t);
    }
  }

  /** Every step of every run brings the end nearer in a well-founded order. */
  lemma StepDecreases(p: Pipe, s: State, step: Step)
    requires Ok(p, s) && Enabled(p, s, step)
    ensures Ok(p, Do(p, s, step)) && Less(Measure(p, Do(p, s, step)), Measure(p, s))
  {
    StepOk(p, s, step);
    match step
    case TargetFilter(i) =>
      assert TargetOk(p.targets[i], s.targets[i]);
      WorksUpdate(p.targets, s.targets, i, FilterOf(p.targets[i], s.targets[i]));
    case TargetSend(i, taken) =>
      WorksUpdate(p.targets, s.targets, i, SendOf(s.targets[i], taken));
    case _ =>
  }

  /** Until it is over a run can always go on. */
  lemma SomeStepEnabled(p: Pipe, s: State) returns (step: Step)
    requires Ok(p, s) && !s.phase.Finished?
    ensures Enabled(p, s, step)
  {
    match s.phase
    case Reading => step := Read(0);
    case Filtering(_, _, _) => step := Filter;
    case Piping(_) =>
      if AllIdle(s.targets) {
        step := Gather;
      } else {
        var i :| 0 <= i < |s.targets| && !s.targets[i].work.Idle?;
        assert TargetOk(p.targets[i], s.targets[i]);
        step := if s.targets[i].work.Passing? then TargetFilter(i) else TargetSend(i, 1);
      }
  }

  /** A scheduler that always takes an enabled step reaches the end, whatever step it takes. */
  lemma {:induction false} EveryRunCanFinish(p: Pipe, s: State) returns (steps: seq<Step>, s': State)
    requires Ok(p, s)
    ensures Runs(p, s, steps, s') && s'.phase.Finished?
    decreases Measure(p, s).0, Measure(p, s).1, Measure(p, s).2, Measure(p, s).3
  {
    if s.phase.Finished? {
      steps, s' := [], s;
    } else {
      var step := SomeStepEnabled(p, s);
      StepDecreases(p, s, step);
      var rest;
      rest, s' := EveryRunCanFinish(p, Do(p, s, step));
      steps := [step] + rest;
    }
  }
}
