/** Machine words and weighted sums over sequences, shared by the scheduler modules. */
module Machine {

  const WORD: int := 0x1_0000_0000_0000_0000

  /** The value held by a `std::atomic_size_t`. */
  type Word = x: int | 0 <= x < WORD

  /** What a 64-bit unsigned word holds after arithmetic whose exact value is `x`. */
  function Wrap(x: int): Word {
    x % WORD
  }

  lemma WrapShift(x: int, d: int)
    ensures Wrap(Wrap(x) + d) == Wrap(x + d)
  {
    var q := x / WORD;
    assert Wrap(x) + d == (x + d) + (-q) * WORD;
    ModShift(x + d, -q);
  }

  lemma WrapSmall(x: int)
    requires 0 <= x < WORD
    ensures Wrap(x) == x
  {
  }

  /** Adding two words gives the word of the exact sum; a sum that fits is the sum itself. */
  lemma WrapAdds(x: int, y: int)
    ensures Wrap(Wrap(x) + Wrap(y)) == Wrap(x + y)
    ensures 0 <= x + y < WORD ==> Wrap(x + y) == x + y
  {
    WrapShift(x, Wrap(y));
    WrapShift(y, x);
  }

  lemma {:induction false} ModShift(x: int, k: int)
    ensures (x + k * WORD) % WORD == x % WORD
    decreases if k < 0 then -k else k
  {
    if k > 0 {
      ModShift(x, k - 1);
      assert x + k * WORD == (x + (k - 1) * WORD) + WORD;
    } else if k < 0 {
      ModShift(x, k + 1);
      assert x + k * WORD == (x + (k + 1) * WORD) - WORD;
    }
  }

  /** The sum of `weight` over a sequence. */
  function Sum<T>(s: seq<T>, weight: T -> int): int {
    if s == [] then 0 else Sum(s[..|s| - 1], weight) + weight(s[|s| - 1])
  }

  lemma {:induction false} SumUpdate<T>(s: seq<T>, i: nat, x: T, weight: T -> int)
    requires i < |s|
    ensures Sum(s[i := x], weight) == Sum(s, weight) - weight(s[i]) + weight(x)
  {
    var last := |s| - 1;
    if i == last {
      assert s[i := x][..last] == s[..last];
    } else {
      assert s[i := x][..last] == s[..last][i := x];
      SumUpdate(s[..last], i, x, weight);
    }
  }

  lemma SumAppend<T>(s: seq<T>, x: T, weight: T -> int)
    ensures Sum(s + [x], weight) == Sum(s, weight) + weight(x)
  {
    assert (s + [x])[..|s|] == s;
  }

  /** A sum of non-negative weights bounds each of its terms. */
  lemma {:induction false} SumBounds<T>(s: seq<T>, i: nat, weight: T -> int)
    requires i < |s| && forall x :: weight(x) >= 0
    ensures 0 <= weight(s[i]) <= Sum(s, weight)
  {
    SumNonNegative(s[..|s| - 1], weight);
    if i < |s| - 1 {
      SumBounds(s[..|s| - 1], i, weight);
    }
  }

  lemma {:induction false} SumNonNegative<T>(s: seq<T>, weight: T -> int)
    requires forall x :: weight(x) >= 0
    ensures Sum(s, weight) >= 0
  {
    if s != [] {
      SumNonNegative(s[..|s| - 1], weight);
    }
  }

  /** A larger weight on every element gives a larger sum. */
  lemma {:induction false} SumMonotone<T>(s: seq<T>, low: T -> int, high: T -> int)
    requires forall i :: 0 <= i < |s| ==> low(s[i]) <= high(s[i])
    ensures Sum(s, low) <= Sum(s, high)
  {
    if s != [] {
      SumMonotone(s[..|s| - 1], low, high);
    }
  }

  lemma {:induction false} SumZero<T>(s: seq<T>, weight: T -> int)
    requires forall i :: 0 <= i < |s| ==> weight(s[i]) == 0
    ensures Sum(s, weight) == 0
  {
    if s != [] {
      SumZero(s[..|s| - 1], weight);
    }
  }

  /** A sum differing from zero has a term differing from zero. */
  lemma {:induction false} SumHasTerm<T>(s: seq<T>, weight: T -> int) returns (i: nat)
    requires Sum(s, weight) != 0
    ensures i < |s| && weight(s[i]) != 0
  {
    var last := |s| - 1;
    if weight(s[last]) != 0 {
      i := last;
    } else {
      i := SumHasTerm(s[..last], weight);
    }
  }
}
