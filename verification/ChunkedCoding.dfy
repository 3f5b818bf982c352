/** The chunked transfer coding of section 4.1 of RFC 7230: what the server writes, and a decoder for it. */
module ChunkedCoding {
  import opened Bytes

  const CR: Byte := 13
  const LF: Byte := 10
  const SEMICOLON: Byte := 59
  const CRLF: seq<Byte> := [CR, LF]

  // ---- encoding

  function HexDigit(d: nat): Byte
    requires d < 16
  {
    if d < 10 then 48 + d else 87 + d
  }

  /** Hexadecimal digits, most significant first, without leading zeros. */
  function Hex(n: nat): seq<Byte> {
    if n < 16 then [HexDigit(n)] else Hex(n / 16) + [HexDigit(n % 16)]
  }

  /** One chunk. The last chunk with an empty trailer is written exactly like an empty one. */
  function Chunk(data: seq<Byte>): seq<Byte> {
    Hex(|data|) + CRLF + data + CRLF
  }

  function Chunks(pieces: seq<seq<Byte>>): seq<seq<Byte>> {
    seq(|pieces|, i requires 0 <= i < |pieces| => Chunk(pieces[i]))
  }

  function Encode(pieces: seq<seq<Byte>>): seq<Byte> {
    Concat(Chunks(pieces))
  }

  lemma EncodeAppend(pieces: seq<seq<Byte>>, piece: seq<Byte>)
    ensures Encode(pieces + [piece]) == Encode(pieces) + Chunk(piece)
  {
    assert Chunks(pieces + [piece]) == Chunks(pieces) + [Chunk(piece)];
    ConcatAppend(Chunks(pieces), Chunk(piece));
  }

  lemma EncodeFirst(piece: seq<Byte>, pieces: seq<seq<Byte>>)
    ensures Encode([piece] + pieces) == Chunk(piece) + Encode(pieces)
  {
    assert Chunks([piece] + pieces) == [Chunk(piece)] + Chunks(pieces);
    ConcatFirst(Chunk(piece), Chunks(pieces));
  }

  // ---- decoding

  datatype Line = Line(text: seq<Byte>, rest: seq<Byte>) | NoLine

  /** The text before the first CRLF. */
  function ReadLine(w: seq<Byte>): (line: Line)
    ensures line.Line? ==> |line.rest| + 2 <= |w|
  {
    if |w| < 2 then NoLine
    else if w[..2] == CRLF then Line([], w[2..])
    else
      match ReadLine(w[1..])
      case NoLine => NoLine
      case Line(text, rest) => Line([w[0]] + text, rest)
  }

  predicate IsHex(b: Byte) {
    48 <= b <= 57 || 97 <= b <= 102 || 65 <= b <= 70
  }

  function HexValue(b: Byte): nat
    requires IsHex(b)
  {
    if b <= 57 then b - 48 else if b <= 70 then b - 55 else b - 87
  }

  datatype Size = Size(value: nat) | NoSize

  function ParseHex(digits: seq<Byte>): Size {
    if digits == [] then NoSize
    else
      var last := |digits| - 1;
      if !IsHex(digits[last]) then NoSize
      else if last == 0 then Size(HexValue(digits[0]))
      else
        match ParseHex(digits[..last])
        case NoSize => NoSize
        case Size(n) => Size(n * 16 + HexValue(digits[last]))
  }

  /** The part of a chunk line before its extensions. */
  function WithoutExtensions(line: seq<Byte>): seq<Byte> {
    if line == [] || line[0] == SEMICOLON then [] else [line[0]] + WithoutExtensions(line[1..])
  }

  datatype Decoded = Body(bytes: seq<Byte>, rest: seq<Byte>) | Malformed

  /** Header fields after the last chunk are read and dropped. */
  function SkipTrailer(w: seq<Byte>): Decoded
    decreases |w|
  {
    match ReadLine(w)
    case NoLine => Malformed
    case Line(text, rest) => if text == [] then Body([], rest) else SkipTrailer(rest)
  }

  function Decode(w: seq<Byte>): Decoded
    decreases |w|
  {
    match ReadLine(w)
    case NoLine => Malformed
    case Line(text, rest) =>
      match ParseHex(WithoutExtensions(text))
      case NoSize => Malformed
      case Size(n) =>
        if n == 0 then SkipTrailer(rest)
        else if |rest| < n + 2 || rest[n..n + 2] != CRLF then Malformed
        else
          match Decode(rest[n + 2..])
          case Malformed => Malformed
          case Body(bytes, after) => Body(rest[..n] + bytes, after)
  }

  // ---- what is encoded is decoded

  lemma {:induction false} HexIsParsed(n: nat)
    ensures ParseHex(Hex(n)) == Size(n)
    ensures forall i :: 0 <= i < |Hex(n)| ==> IsHex(Hex(n)[i])
  {
    if n >= 16 {
      HexIsParsed(n / 16);
      var last := |Hex(n)| - 1;
      assert Hex(n)[..last] == Hex(n / 16);
      assert n == (n / 16) * 16 + n % 16;
    }
  }

  /** Sizes are written in lower case and without leading zeros. */
  lemma {:induction false} HexIsPlain(n: nat)
    ensures forall i :: 0 <= i < |Hex(n)| ==> 48 <= Hex(n)[i] <= 57 || 97 <= Hex(n)[i] <= 102
    ensures n > 0 ==> Hex(n)[0] != 48
  {
    if n >= 16 {
      HexIsPlain(n / 16);
      assert Hex(n)[..|Hex(n)| - 1] == Hex(n / 16);
    }
  }

  lemma {:induction false} NoExtensions(line: seq<Byte>)
    requires forall i :: 0 <= i < |line| ==> IsHex(line[i])
    ensures WithoutExtensions(line) == line
  {
    if line != [] {
      NoExtensions(line[1..]);
    }
  }

  lemma {:induction false} LineIsRead(line: seq<Byte>, rest: seq<Byte>)
    requires forall i :: 0 <= i < |line| ==> line[i] != CR
    ensures ReadLine(line + CRLF + rest) == Line(line, rest)
  {
    var w := line + CRLF + rest;
    if line == [] {
      assert w[..2] == CRLF && w[2..] == rest;
    } else {
      LineIsRead(line[1..], rest);
      assert w[1..] == line[1..] + CRLF + rest;
      assert w[0] == line[0] && w[..2] != CRLF;
    }
  }

  lemma ChunkFollowed(size: seq<Byte>, data: seq<Byte>, rest: seq<Byte>)
    ensures size + CRLF + data + CRLF + rest == size + CRLF + (data + CRLF + rest)
  {
  }

  lemma SizeIsParsed(n: nat)
    ensures ParseHex(WithoutExtensions(Hex(n))) == Size(n)
    ensures forall i :: 0 <= i < |Hex(n)| ==> Hex(n)[i] != CR
  {
    HexIsParsed(n);
    NoExtensions(Hex(n));
  }

  lemma ChunkIsRead(data: seq<Byte>, rest: seq<Byte>)
    ensures ReadLine(Chunk(data) + rest) == Line(Hex(|data|), data + CRLF + rest)
    ensures ParseHex(WithoutExtensions(Hex(|data|))) == Size(|data|)
  {
    SizeIsParsed(|data|);
    LineIsRead(Hex(|data|), data + CRLF + rest);
    ChunkFollowed(Hex(|data|), data, rest);
  }

  /** The empty piece ends the body. */
  lemma LastChunkEnds(rest: seq<Byte>)
    ensures Decode(Chunk([]) + rest) == Body([], rest)
  {
    ChunkIsRead([], rest);
    LineIsRead([], rest);
    assert [] + CRLF + rest == CRLF + rest;
  }

  lemma ChunkIsDecoded(data: seq<Byte>, rest: seq<Byte>)
    requires data != []
    ensures Decode(Chunk(data) + rest) ==
              match Decode(rest) case Malformed => Malformed case Body(bytes, after) => Body(data + bytes, after)
  {
    ChunkIsRead(data, rest);
    var tail := data + CRLF + rest;
    assert tail[..|data|] == data && tail[|data|..|data| + 2] == CRLF && tail[|data| + 2..] == rest;
  }

  /** Non-empty pieces before an empty one: the decoder gives back their concatenation and stops right after it. */
  lemma {:induction false} PiecesAreDecoded(pieces: seq<seq<Byte>>, rest: seq<Byte>)
    requires forall i :: 0 <= i < |pieces| ==> pieces[i] != []
    ensures Decode(Encode(pieces) + Chunk([]) + rest) == Body(Concat(pieces), rest)
    decreases |pieces|
  {
    if pieces == [] {
      assert Encode(pieces) + Chunk([]) + rest == Chunk([]) + rest;
      LastChunkEnds(rest);
    } else {
      PiecesAreDecoded(pieces[1..], rest);
      assert pieces == [pieces[0]] + pieces[1..];
      EncodeFirst(pieces[0], pieces[1..]);
      var tail := Encode(pieces[1..]) + Chunk([]) + rest;
      assert Encode(pieces) + Chunk([]) + rest == Chunk(pieces[0]) + tail;
      ChunkIsDecoded(pieces[0], tail);
      ConcatFirst(pieces[0], pieces[1..]);
    }
  }

  // ---- what is cut short is not

  lemma {:induction false} NoLineYet(line: seq<Byte>, n: nat)
    requires (forall i :: 0 <= i < |line| ==> line[i] != CR) && n < |line| + 2
    ensures ReadLine((line + CRLF)[..n]) == NoLine
  {
    var w := (line + CRLF)[..n];
    if line != [] && n >= 2 {
      NoLineYet(line[1..], n - 1);
      assert w[1..] == (line[1..] + CRLF)[..n - 1];
      assert w[0] == line[0] && w[..2] != CRLF;
    }
  }

  lemma ChunkCutShort(data: seq<Byte>, n: nat)
    requires n < |Chunk(data)|
    ensures Decode(Chunk(data)[..n]) == Malformed
  {
    var size := Hex(|data|);
    SizeIsParsed(|data|);
    if n < |size| + 2 {
      NoLineYet(size, n);
      assert Chunk(data)[..n] == (size + CRLF)[..n];
    } else {
      var rest := (data + CRLF)[..n - |size| - 2];
      assert Chunk(data)[..n] == size + CRLF + rest;
      LineIsRead(size, rest);
    }
  }

  /** A body cut off anywhere, be it by one byte, is never taken for a complete one. */
  lemma {:induction false} CutShortIsMalformed(pieces: seq<seq<Byte>>, last: seq<Byte>, n: nat)
    requires forall i :: 0 <= i < |pieces| ==> pieces[i] != []
    requires n < |Encode(pieces) + Chunk(last)|
    ensures Decode((Encode(pieces) + Chunk(last))[..n]) == Malformed
    decreases |pieces|
  {
    if pieces == [] {
      assert Encode(pieces) + Chunk(last) == Chunk(last);
      ChunkCutShort(last, n);
    } else {
      var first, tail := Chunk(pieces[0]), Encode(pieces[1..]) + Chunk(last);
      assert pieces == [pieces[0]] + pieces[1..];
      EncodeFirst(pieces[0], pieces[1..]);
      assert Encode(pieces) + Chunk(last) == first + tail;
      if n < |first| {
        ChunkCutShort(pieces[0], n);
        assert (first + tail)[..n] == first[..n];
      } else {
        CutShortIsMalformed(pieces[1..], last, n - |first|);
        assert (first + tail)[..n] == first + tail[..n - |first|];
        ChunkIsDecoded(pieces[0], tail[..n - |first|]);
      }
    }
  }

  /** Without an empty piece at its end a body is never complete. */
  lemma UnfinishedIsMalformed(pieces: seq<seq<Byte>>)
    requires forall i :: 0 <= i < |pieces| ==> pieces[i] != []
    ensures Decode(Encode(pieces)) == Malformed
  {
    CutShortIsMalformed(pieces, [], |Encode(pieces)|);
    assert (Encode(pieces) + Chunk([]))[..|Encode(pieces)|] == Encode(pieces);
  }
}
