/** Bytes and small facts about sequences that the streaming modules share. */
module Bytes {

  type Byte = b: int | 0 <= b < 256

  function Min(a: nat, b: nat): nat {
    if a < b then a else b
  }

  /** The concatenation of a list of pieces. */
  function Concat<T>(pieces: seq<seq<T>>): seq<T> {
    if pieces == [] then [] else Concat(pieces[..|pieces| - 1]) + pieces[|pieces| - 1]
  }

  lemma ConcatAppend<T>(pieces: seq<seq<T>>, piece: seq<T>)
    ensures Concat(pieces + [piece]) == Concat(pieces) + piece
  {
    assert (pieces + [piece])[..|pieces|] == pieces;
  }

  lemma SliceSplits<T>(s: seq<T>, i: nat, j: nat)
    requires i <= j <= |s|
    ensures s[..i] + s[i..j] == s[..j]
  {
  }

  lemma {:induction false} ConcatFirst<T>(piece: seq<T>, pieces: seq<seq<T>>)
    ensures Concat([piece] + pieces) == piece + Concat(pieces)
  {
    if pieces == [] {
      assert [piece] + pieces == [] + [piece];
      ConcatAppend([], piece);
    } else {
      var front, last := pieces[..|pieces| - 1], pieces[|pieces| - 1];
      ConcatFirst(piece, front);
      assert [piece] + pieces == ([piece] + front) + [last];
      ConcatAppend([piece] + front, last);
      Associative(piece, Concat(front), last);
    }
  }

  lemma {:induction false} ConcatJoins<T>(a: seq<seq<T>>, b: seq<seq<T>>)
    ensures Concat(a + b) == Concat(a) + Concat(b)
  {
    if b == [] {
      assert a + b == a;
    } else {
      var front, last := b[..|b| - 1], b[|b| - 1];
      ConcatJoins(a, front);
      assert a + b == (a + front) + [last];
      ConcatAppend(a + front, last);
      Associative(Concat(a), Concat(front), last);
    }
  }

  lemma Associative<T>(a: seq<T>, b: seq<T>, c: seq<T>)
    ensures (a + b) + c == a + (b + c)
  {
  }
}
