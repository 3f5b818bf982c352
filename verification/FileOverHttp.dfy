/** The read handler as the file device runs it, and a file piped into an HTTP response end to end. */
module FileOverHttp {
  import opened Bytes
  import opened FilterChains
  import opened StreamPipeline
  import opened ChunkedCoding
  import opened HttpResponse

  // ---- the device, updated in place

  /** What the handler does after reading: emit "data", emit "end" and resolve, or schedule itself again. */
  datatype Event = DataEvent(block: seq<Byte>) | EndEvent | Again

  class FilePushDevice {
    const content: seq<Byte>
    var position: nat           // myStream
    var eof: bool               // myStream.eof()

    constructor (content: seq<Byte>)
      ensures this.content == content && position == 0 && !eof
    {
      this.content, position, eof := content, 0, false;
    }

    ghost predicate Shows(p: Pipe, s: State)
      reads this
    {
      content == p.content && position == s.position && eof == s.eof
    }

    /** readsome: takes what is buffered. */
    method ReadSome(some: nat) returns (block: seq<Byte>)
      requires position + some <= |content|
      modifies this`position
      ensures position == old(position) + some && block == content[old(position)..position]
    {
      block := content[position..position + some];
      position := position + some;
    }

    /** read: takes up to a whole block; coming up short sets the end-of-file flag. */
    method Read() returns (block: seq<Byte>)
      requires position <= |content|
      modifies this
      ensures position == old(position) + Min(BLOCK, |content| - old(position)) && block == content[old(position)..position]
      ensures eof == (old(eof) || |block| < BLOCK)
    {
      var size := Min(BLOCK, |content| - position);
      block := content[position..position + size];
      position := position + size;
      if size < BLOCK {
        eof := true;
      }
    }

    /** The read handler, up to the point where it waits for the "data" event's promise. */
    method ReadHandler(some: nat, ghost p: Pipe, ghost s: State) returns (event: Event)
      requires Shows(p, s) && Enabled(p, s, StreamPipeline.Read(some)) && !s.eof
      modifies this
      ensures var s' := DoRead(p, s, some);
              && Shows(p, s')
              && event == match s'.phase
                          case Filtering(_, Data(block), _) => DataEvent(block)
                          case Filtering(_, Null, _) => EndEvent
                          case _ => Again
    {
      var block := ReadSome(some);
      if |block| == 0 {
        block := Read();
      }
      if |block| != 0 {
        event := DataEvent(block);
      } else if eof {
        event := EndEvent;
      } else {
        event := Again;
      }
    }

    /** What follows when that promise resolves. */
    method AfterData(ghost p: Pipe, ghost s: State) returns (event: Event)
      requires Shows(p, s) && Enabled(p, s, Gather) && s.phase == Piping(Block)
      ensures event == if DoGather(s).phase.Reading? then Again else EndEvent
    {
      event := if !eof then Again else EndEvent;
    }
  }

  // ---- a response as the device of a target

  /** The writes a response sees of a sequence of items while its connection stays open. */
  function WritesOf(items: seq<Item>): seq<Awaited> {
    if items == [] then []
    else
      var last := items[|items| - 1];
      WritesOf(items[..|items| - 1]) + if last.Data? then [Awaited(last.bytes, |last.bytes|)] else []
  }

  lemma {:induction false} AllOfThemDelivered(items: seq<Item>)
    ensures AllDelivered(WritesOf(items)) == Flat(items)
  {
    if items != [] {
      var front, last := items[..|items| - 1], items[|items| - 1];
      AllOfThemDelivered(front);
      if last.Data? {
        DeliveredIsPrefix(last.bytes, |last.bytes|);
        assert WritesOf(items) == WritesOf(front) + [Awaited(last.bytes, |last.bytes|)];
        assert WritesOf(items)[..|WritesOf(front)|] == WritesOf(front);
      } else {
        assert WritesOf(items) == WritesOf(front);
      }
    }
  }

  /**
   * The items of a finished target handed to a fresh response, one awaited write after another. The
   * client gets a complete body exactly when the device is still ready and the socket sound at the end.
   */
  method Respond(items: seq<Item>, header: seq<Byte>, ready: bool, network: Network) returns (response: Response)
    requires EndsOnce(items)
    ensures fresh(response) && response.Valid() && response.header == header
    ensures Complete(response.wire, header) <==> ready && !Fails(network, Flat(items) != [])
    ensures Complete(response.wire, header) ==> Decode(response.wire[|header|..]) == Body(Flat(items), [])
  {
    response := new Response(header);
    var n := |items| - 1;
    for i := 0 to n
      invariant response.Writing() && response.writes == WritesOf(items[..i]) && response.completed == 0
      invariant fresh(response) && response.header == header
      invariant response.headersSent == (Flat(items[..i]) != [])
    {
      var _, _ := response.AwaitedWrite(items[i].bytes, |items[i].bytes|, SOUND);
      NextWrite(items, i);
    }
    DeliveredBeforeNull(items);
    response.Finish(ready, network);
  }

  lemma NextWrite(items: seq<Item>, i: nat)
    requires i < |items| && items[i].Data?
    ensures WritesOf(items[..i + 1]) == WritesOf(items[..i]) + [Awaited(items[i].bytes, |items[i].bytes|)]
    ensures Flat(items[..i + 1]) == Flat(items[..i]) + items[i].bytes
    ensures Delivered(items[i].bytes, |items[i].bytes|) == items[i].bytes
  {
    assert items[..i + 1] == items[..i] + [items[i]];
    FlatAppend(items[..i], items[i]);
    DeliveredIsPrefix(items[i].bytes, |items[i].bytes|);
  }

  lemma DeliveredBeforeNull(items: seq<Item>)
    requires EndsOnce(items)
    ensures AllDelivered(WritesOf(items[..|items| - 1])) == Flat(items)
  {
    var front := items[..|items| - 1];
    assert items == front + [Null];
    FlatAppend(front, Null);
    AllOfThemDelivered(front);
  }

  /** The body of a response that was handed these items. */
  function BodyOf(items: seq<Item>): seq<Byte>
    requires items != []
  {
    Encode(AllPieces(WritesOf(items[..|items| - 1])) + [[]])
  }

  /** A decoder applied to the body gives back what the items carry. */
  lemma ItemsAreDecoded(items: seq<Item>)
    requires EndsOnce(items)
    ensures Decode(BodyOf(items)) == Body(Flat(items), [])
  {
    DeliveredBeforeNull(items);
    BodyDecodes(WritesOf(items[..|items| - 1]));
  }

  /**
   * A file piped into a response, through any filters, whatever its size and however it was split: if
   * the response's device heard its end, a chunked decoder applied to the body gives back exactly the
   * bytes of the image of the file's blocks.
   */
  lemma PipedFileIsDecoded(p: Pipe, steps: seq<Step>, s: State, i: nat)
    requires Runs(p, Initial(p), steps, s) && s.phase.Finished? && i < |p.targets|
    requires |s.targets| == |p.targets| && EndsOnce(s.targets[i].received)
    ensures Decode(BodyOf(s.targets[i].received)) ==
              Body(Flat(Through(p.targets[i], Whole(p.filters, s.blocks))), [])
  {
    PipedInOrder(p, steps, s, i);
    ItemsAreDecoded(s.targets[i].received);
  }

  /** Without filters the device does hear its end, and what is decoded is the file. */
  lemma PlainFileArrives(p: Pipe, steps: seq<Step>, s: State, i: nat)
    requires Runs(p, Initial(p), steps, s) && s.phase.Finished? && i < |p.targets|
    requires p.filters == [] && p.targets[i] == []
    ensures |s.targets| == |p.targets| && s.targets[i].received != []
    ensures Decode(BodyOf(s.targets[i].received)) == Body(p.content, [])
  {
    KeptDataEndsOnce(p, steps, s, i);
    PipedInOrder(p, steps, s, i);
    PipedFileIsDecoded(p, steps, s, i);
    PlainItems(s.blocks);
  }

  lemma PlainItems(blocks: seq<seq<Byte>>)
    ensures Whole([], blocks) == Datas(blocks) + [Null] && Flat(Whole([], blocks)) == Concat(blocks)
  {
    FlatAppend(Datas(blocks), Null);
    FlatIsConcat(blocks);
  }

  lemma {:induction false} FlatIsConcat(blocks: seq<seq<Byte>>)
    ensures Flat(Datas(blocks)) == Concat(blocks)
  {
    if blocks != [] {
      FlatIsConcat(blocks[..|blocks| - 1]);
      DatasAppend(blocks);
      FlatAppend(Datas(blocks[..|blocks| - 1]), Data(blocks[|blocks| - 1]));
    }
  }
}
