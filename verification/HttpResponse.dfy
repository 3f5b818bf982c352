/** Response::deviceWrite behind the write handler: header once, then one chunk for every piece. */
module HttpResponse {
  import opened Bytes
  import opened ChunkedCoding
  import opened SinkWrites

  const MAXIMUM: nat := 65535

  /** What the handler sees of a response whose connection is open and takes whatever it is offered. */
  const OPEN := Weather(true, true, false, MAXIMUM, MAXIMUM, MAXIMUM, false)

  /** The pieces that the handler of `call` hands to deviceWrite in at most `turns` tasks. */
  function Pieces(call: Call, turns: nat): seq<seq<Byte>>
    requires call.written <= |call.buffer|
    decreases turns
  {
    if turns == 0 || !SinkWrites.Decide(call, OPEN).Send? then []
    else [Piece(call, OPEN)] + Pieces(After(call, OPEN), turns - 1)
  }

  /** The call of a handler that has sent `count` bytes of its buffer. */
  function At(buffer: seq<Byte>, count: nat): Call {
    Call(buffer, count, count, Running)
  }

  /** Where the next task of the handler stops. */
  function Next(buffer: seq<Byte>, count: nat): (next: nat)
    requires count < |buffer|
    ensures count < next <= |buffer| && next <= count + MAXIMUM
  {
    count + Min(MAXIMUM, |buffer| - count)
  }

  /** A buffer from `count` on, cut into at most `turns` parts. */
  function Cut(buffer: seq<Byte>, count: nat, turns: nat): seq<seq<Byte>>
    requires count <= |buffer|
    decreases turns
  {
    if turns == 0 || count == |buffer| then []
    else [buffer[count..Next(buffer, count)]] + Cut(buffer, Next(buffer, count), turns - 1)
  }

  lemma {:induction false} HandlerCuts(buffer: seq<Byte>, count: nat, turns: nat)
    requires count <= |buffer|
    ensures Pieces(At(buffer, count), turns) == Cut(buffer, count, turns)
    decreases turns
  {
    if turns > 0 && count < |buffer| {
      HandlerCuts(buffer, Next(buffer, count), turns - 1);
    }
  }

  lemma {:induction false} CutSizes(buffer: seq<Byte>, count: nat, turns: nat)
    requires count <= |buffer|
    ensures forall i :: 0 <= i < |Cut(buffer, count, turns)| ==> 1 <= |Cut(buffer, count, turns)[i]| <= MAXIMUM
    decreases turns
  {
    if turns > 0 && count < |buffer| {
      CutSizes(buffer, Next(buffer, count), turns - 1);
    }
  }

  /** The parts put together again are what follows `count`, as far as the turns go. */
  lemma {:induction false} CutJoins(buffer: seq<Byte>, count: nat, turns: nat) returns (end: nat)
    requires count <= |buffer|
    ensures count <= end <= |buffer| && Concat(Cut(buffer, count, turns)) == buffer[count..end]
    ensures end == Min(|buffer|, count + turns * MAXIMUM)
    decreases turns
  {
    end := count;
    if turns > 0 && count < |buffer| {
      var next := Next(buffer, count);
      end := CutJoins(buffer, next, turns - 1);
      ConcatFirst(buffer[count..next], Cut(buffer, next, turns - 1));
      assert buffer[count..next] + buffer[next..end] == buffer[count..end];
    }
  }

  /** The part of a buffer that its handler sends in at most `turns` tasks. */
  function Delivered(buffer: seq<Byte>, turns: nat): seq<Byte> {
    Concat(Cut(buffer, 0, turns))
  }

  /** A buffer is sent as far as its handler's tasks go, the whole of it exactly when they are enough. */
  lemma DeliveredIsPrefix(buffer: seq<Byte>, turns: nat)
    ensures Delivered(buffer, turns) == buffer[..Min(|buffer|, turns * MAXIMUM)]
  {
    var end := CutJoins(buffer, 0, turns);
  }

  /** One awaited write, and for how many of its tasks the connection was open. */
  datatype Awaited = Awaited(buffer: seq<Byte>, turns: nat)

  /** All pieces of a sequence of awaited writes. */
  function AllPieces(writes: seq<Awaited>): seq<seq<Byte>> {
    if writes == [] then []
    else
      var last := writes[|writes| - 1];
      AllPieces(writes[..|writes| - 1]) + Cut(last.buffer, 0, last.turns)
  }

  function AllDelivered(writes: seq<Awaited>): seq<Byte> {
    if writes == [] then []
    else
      var last := writes[|writes| - 1];
      AllDelivered(writes[..|writes| - 1]) + Delivered(last.buffer, last.turns)
  }

  lemma {:induction false} AllPiecesAreCut(writes: seq<Awaited>)
    ensures forall i :: 0 <= i < |AllPieces(writes)| ==> 1 <= |AllPieces(writes)[i]| <= MAXIMUM
    ensures Concat(AllPieces(writes)) == AllDelivered(writes)
  {
    if writes != [] {
      var last := writes[|writes| - 1];
      AllPiecesAreCut(writes[..|writes| - 1]);
      CutSizes(last.buffer, 0, last.turns);
      ConcatJoins(AllPieces(writes[..|writes| - 1]), Cut(last.buffer, 0, last.turns));
    }
  }

  /**
   * The body that any sequence of awaited writes and one write(null) put on the wire decodes to
   * exactly the bytes that the promises counted, with nothing left over.
   */
  lemma BodyDecodes(writes: seq<Awaited>)
    ensures Decode(Encode(AllPieces(writes) + [[]])) == Body(AllDelivered(writes), [])
  {
    AllPiecesAreCut(writes);
    PiecesAreDecoded(AllPieces(writes), []);
    EncodeAppend(AllPieces(writes), []);
    assert Encode(AllPieces(writes)) + Chunk([]) + [] == Encode(AllPieces(writes)) + Chunk([]);
  }

  function Buffers(writes: seq<Awaited>): seq<seq<Byte>> {
    seq(|writes|, i requires 0 <= i < |writes| => writes[i].buffer)
  }

  /** The connection stayed open long enough for every one of the writes. */
  predicate OpenThroughout(writes: seq<Awaited>) {
    forall i :: 0 <= i < |writes| ==> writes[i].turns * MAXIMUM >= |writes[i].buffer|
  }

  lemma {:induction false} AllDeliveredWhileOpen(writes: seq<Awaited>)
    ensures |AllDelivered(writes)| <= |Concat(Buffers(writes))|
    ensures |AllDelivered(writes)| == |Concat(Buffers(writes))| <==> OpenThroughout(writes)
    ensures OpenThroughout(writes) ==> AllDelivered(writes) == Concat(Buffers(writes))
  {
    if writes != [] {
      var front, last := writes[..|writes| - 1], writes[|writes| - 1];
      AllDeliveredWhileOpen(front);
      DeliveredIsPrefix(last.buffer, last.turns);
      assert Buffers(writes)[..|writes| - 1] == Buffers(front);
      assert writes == front + [last];
      OneMoreOpen(front, last);
    }
  }

  lemma OneMoreOpen(front: seq<Awaited>, last: Awaited)
    ensures OpenThroughout(front + [last]) <==> OpenThroughout(front) && last.turns * MAXIMUM >= |last.buffer|
  {
    assert (front + [last])[|front|] == last;
    assert forall i :: 0 <= i < |front| ==> (front + [last])[i] == front[i];
  }

  /** A complete body decodes to all that was written exactly when the connection stayed open for every write. */
  lemma BodyIsEverything(writes: seq<Awaited>)
    ensures Decode(Encode(AllPieces(writes) + [[]])) == Body(Concat(Buffers(writes)), []) <==> OpenThroughout(writes)
  {
    BodyDecodes(writes);
    AllDeliveredWhileOpen(writes);
  }

  // ---- writes that fail

  /** What the socket does with bytes: all of them go out, or some of them and an error comes back. */
  datatype Transfer = Entire | Short(sent: nat)

  function GoesOut(transfer: Transfer, data: seq<Byte>): (sent: seq<Byte>)
    ensures sent <= data && (transfer.Short? && data != [] ==> |sent| < |data|)
  {
    if transfer.Entire? || data == [] then data else data[..Min(transfer.sent, |data| - 1)]
  }

  /** What the socket does with the header, if it is still to be written, and with the chunk. */
  datatype Network = Network(head: Transfer, body: Transfer)

  const SOUND := Network(Entire, Entire)

  predicate Fails(network: Network, headersSent: bool) {
    network.body.Short? || (!headersSent && network.head.Short?)
  }

  /** What a client makes of the bytes on the wire: the header is all there and the body has its end. */
  predicate Complete(wire: seq<Byte>, header: seq<Byte>) {
    header <= wire && Decode(wire[|header|..]).Body?
  }

  /** The wire stops before the end of the chunk of `last`. */
  predicate StopsWithin(wire: seq<Byte>, header: seq<Byte>, pieces: seq<seq<Byte>>, last: seq<Byte>) {
    wire <= header + Encode(pieces) + Chunk(last) && |wire| < |header + Encode(pieces) + Chunk(last)|
  }

  lemma StoppedIsIncomplete(wire: seq<Byte>, header: seq<Byte>, pieces: seq<seq<Byte>>, last: seq<Byte>)
    requires StopsWithin(wire, header, pieces, last) && forall i :: 0 <= i < |pieces| ==> pieces[i] != []
    ensures !Complete(wire, header)
  {
    if header <= wire {
      var n := |wire| - |header|;
      CutShortIsMalformed(pieces, last, n);
      Associative(header, Encode(pieces), Chunk(last));
      assert wire == (header + (Encode(pieces) + Chunk(last)))[..|wire|];
      assert wire[|header|..] == (Encode(pieces) + Chunk(last))[..n];
    }
  }

  lemma WireGrows(header: seq<Byte>, pieces: seq<seq<Byte>>, piece: seq<Byte>)
    ensures header + Encode(pieces + [piece]) == header + Encode(pieces) + Chunk(piece)
    ensures Encode([]) == []
  {
    EncodeAppend(pieces, piece);
    Associative(header, Encode(pieces), Chunk(piece));
  }

  lemma OneMorePiece(buffer: seq<Byte>, turns: nat, done: seq<seq<Byte>>, count: nat, left: nat)
    requires count < |buffer| && left > 0 && |Concat(done)| == count
    requires Cut(buffer, 0, turns) == done + Cut(buffer, count, left)
    ensures var next := Next(buffer, count); var more := done + [buffer[count..next]];
            |Concat(more)| == next && Cut(buffer, 0, turns) == more + Cut(buffer, next, left - 1)
  {
    var next := Next(buffer, count);
    ConcatAppend(done, buffer[count..next]);
    Associative(done, [buffer[count..next]], Cut(buffer, next, left - 1));
  }

  class Response {
    const header: seq<Byte>     // the serialized header, Transfer-Encoding included
    var headersSent: bool
    var wire: seq<Byte>
    var completed: nat          // calls of notifyCompleted
    ghost var pieces: seq<seq<Byte>>
    ghost var writes: seq<Awaited>
    ghost var failed: bool      // a write to the socket came back with an error

    /** The header comes first and once; the rest of the wire is the encoded pieces. */
    ghost predicate Valid()
      reads this
    {
      && (!failed ==> wire == (if headersSent then header else []) + Encode(pieces))
      && (!headersSent ==> pieces == [])
    }

    /** Nothing but awaited writes so far, and none has failed. */
    ghost predicate Writing()
      reads this
    {
      Valid() && !failed && pieces == AllPieces(writes)
    }

    constructor (header: seq<Byte>)
      ensures Writing() && !headersSent && wire == [] && writes == [] && completed == 0 && this.header == header
    {
      this.header, headersSent, wire, completed, pieces, writes, failed := header, false, [], 0, [], [], false;
    }

    /** The serialized header; the flag is set before it goes out. */
    method WriteHeader(transfer: Transfer) returns (threw: bool)
      requires Valid() && !headersSent
      modifies this`headersSent, this`wire, this`failed
      ensures Valid() && headersSent && threw == transfer.Short? && failed == (old(failed) || threw)
      ensures wire == old(wire) + GoesOut(transfer, header)
    {
      headersSent := true;
      wire := wire + GoesOut(transfer, header);
      threw := transfer.Short?;
      failed := failed || threw;
    }

    /** A chunk; the last one is reported even when its write fails. */
    method WriteChunk(isNull: bool, bytes: seq<Byte>, transfer: Transfer) returns (threw: bool)
      requires Valid() && headersSent && (isNull ==> bytes == [])
      modifies this`wire, this`completed, this`pieces, this`failed
      ensures Valid() && threw == transfer.Short? && failed == (old(failed) || threw)
      ensures wire == old(wire) + GoesOut(transfer, Chunk(bytes)) && completed == old(completed) + if isNull then 1 else 0
      ensures pieces == if threw then old(pieces) else old(pieces) + [bytes]
    {
      WireGrows(header, pieces, bytes);
      var chunk := if isNull then Chunk([]) else Chunk(bytes);
      wire := wire + GoesOut(transfer, chunk);
      if isNull {
        completed := completed + 1;
      }
      threw := transfer.Short?;
      failed := failed || threw;
      pieces := if threw then pieces else pieces + [bytes];
    }

    /** deviceWrite: null for the end of the body. */
    method DeviceWrite(isNull: bool, bytes: seq<Byte>, network: Network) returns (count: nat, threw: bool)
      requires Valid() && (isNull ==> bytes == [])
      modifies this`headersSent, this`wire, this`completed, this`pieces, this`failed
      ensures Valid() && headersSent && threw == Fails(network, old(headersSent)) && failed == (old(failed) || threw)
      ensures var headFails := !old(headersSent) && network.head.Short?;
              && wire == old(wire) + (if old(headersSent) then [] else GoesOut(network.head, header))
                         + (if headFails then [] else GoesOut(network.body, Chunk(bytes)))
              && completed == old(completed) + if isNull && !headFails then 1 else 0
      ensures !threw ==> count == |bytes| && pieces == old(pieces) + [bytes]
      ensures threw ==> pieces == old(pieces) && (!old(failed) ==> StopsWithin(wire, header, pieces, bytes))
    {
      count, threw := 0, false;
      if !headersSent {
        threw := WriteHeader(network.head);
        if threw {
          return;
        }
      }
      threw := WriteChunk(isNull, bytes, network.body);
      count := |bytes|;
    }

    method SendPiece(bytes: seq<Byte>) returns (count: nat)
      requires Valid()
      modifies this`headersSent, this`wire, this`completed, this`pieces, this`failed
      ensures Valid() && headersSent && count == |bytes| && completed == old(completed) && failed == old(failed)
      ensures pieces == old(pieces) + [bytes]
    {
      var sent, _ := DeviceWrite(false, bytes, SOUND);
      count := sent;
    }

    /** The tasks of one write handler that find the connection open, one piece each. */
    method SendPieces(buffer: seq<Byte>, turns: nat) returns (count: nat)
      requires Valid()
      modifies this`headersSent, this`wire, this`completed, this`pieces, this`failed
      ensures Valid() && count == |Delivered(buffer, turns)| && completed == old(completed) && failed == old(failed)
      ensures pieces == old(pieces) + Cut(buffer, 0, turns) && headersSent == (old(headersSent) || count > 0)
    {
      count := 0;
      var left: nat := turns;
      ghost var done := [];
      while count < |buffer| && left > 0
        invariant Valid() && count <= |buffer| && left <= turns && completed == old(completed) && failed == old(failed)
        invariant pieces == old(pieces) + done && count == |Concat(done)|
        invariant Cut(buffer, 0, turns) == done + Cut(buffer, count, left)
        invariant headersSent == (old(headersSent) || count > 0)
      {
        OneMorePiece(buffer, turns, done, count, left);
        var taken := SendPiece(buffer[count..count + Min(MAXIMUM, |buffer| - count)]);
        done := done + [buffer[count..Next(buffer, count)]];
        count, left := count + taken, left - 1;
      }
      assert done == Cut(buffer, 0, turns);
    }

    /** All tasks of one write handler: after `turns` of them the connection is closed or a write fails. */
    method RunHandler(buffer: seq<Byte>, turns: nat, network: Network) returns (count: nat, threw: bool)
      requires Valid() && !failed
      modifies this`headersSent, this`wire, this`completed, this`pieces, this`failed
      ensures Valid() && completed == old(completed) && count == |Delivered(buffer, turns)|
      ensures threw == failed == (count < |buffer| && Fails(network, old(headersSent) || count > 0))
      ensures headersSent == (old(headersSent) || count > 0 || threw)
      ensures pieces == old(pieces) + Cut(buffer, 0, turns)
      ensures threw ==> StopsWithin(wire, header, pieces, buffer[count..Next(buffer, count)])
    {
      count := SendPieces(buffer, turns);
      DeliveredIsPrefix(buffer, turns);
      threw := false;
      if count < |buffer| && Fails(network, headersSent) {
        var _, failing := DeviceWrite(false, buffer[count..Next(buffer, count)], network);
        threw := failing;
      }
    }

    /** await write(buffer); its promise is rejected if a write fails, and the body is then incomplete. */
    method AwaitedWrite(buffer: seq<Byte>, turns: nat, network: Network) returns (count: nat, threw: bool)
      requires Writing()
      modifies this
      ensures Valid() && completed == old(completed) && count == |Delivered(buffer, turns)|
      ensures threw == (count < |buffer| && Fails(network, old(headersSent) || count > 0))
      ensures headersSent == (old(headersSent) || count > 0 || threw)
      ensures writes == old(writes) + [Awaited(buffer, turns)]
      ensures if threw then !Complete(wire, header) else Writing()
    {
      count, threw := RunHandler(buffer, turns, network);
      assert (writes + [Awaited(buffer, turns)])[..|writes|] == writes;
      writes := writes + [Awaited(buffer, turns)];
      if threw {
        AllPiecesAreCut(writes);
        StoppedIsIncomplete(wire, header, pieces, buffer[count..Next(buffer, count)]);
      }
    }

    /**
     * write(null) after any awaited writes: nothing happens unless the device is ready, and an exception is
     * swallowed. A client has a complete body exactly when the device was ready and no write failed, and
     * what it then decodes is what the promises counted.
     */
    method Finish(ready: bool, network: Network)
      requires Writing()
      modifies this
      ensures Valid() && writes == old(writes)
      ensures completed == old(completed) + if ready && (old(headersSent) || network.head.Entire?) then 1 else 0
      ensures Complete(wire, header) <==> ready && !Fails(network, old(headersSent))
      ensures Complete(wire, header) ==> Decode(wire[|header|..]) == Body(AllDelivered(writes), [])
    {
      AllPiecesAreCut(writes);
      if !ready {
        NotEndedIsIncomplete(wire, header, pieces, headersSent);
        return;
      }
      var _, threw := DeviceWrite(true, [], network);
      if threw {
        StoppedIsIncomplete(wire, header, pieces, []);
      } else {
        BodyDecodes(writes);
        assert wire[|header|..] == Encode(pieces);
      }
    }
  }

  lemma NotEndedIsIncomplete(wire: seq<Byte>, header: seq<Byte>, pieces: seq<seq<Byte>>, headersSent: bool)
    requires wire == (if headersSent then header else []) + Encode(pieces) && (!headersSent ==> pieces == [])
    requires forall i :: 0 <= i < |pieces| ==> pieces[i] != []
    ensures !Complete(wire, header)
  {
    UnfinishedIsMalformed(pieces);
    if headersSent {
      assert wire[|header|..] == Encode(pieces);
    } else {
      assert wire == [] && Encode([]) == [];
    }
  }
}
