/** UDPSocket::deviceWrite: a buffer goes out as datagrams of at most 65507 bytes. */
module Datagrams {
  import opened Bytes

  const MAXIMUM: nat := 65507

  /** What becomes of one send_to: up to `count` of the offered bytes are sent, or it fails. */
  datatype Outcome = Sends(count: nat) | Canceled | Failed

  /** One send_to that did not fail: from which position of the buffer, how many bytes offered and taken. */
  datatype Range = Range(start: nat, offered: nat, taken: nat)

  function Taken(ranges: seq<Range>): nat {
    if ranges == [] then 0 else Taken(ranges[..|ranges| - 1]) + ranges[|ranges| - 1].taken
  }

  lemma TakenAppend(ranges: seq<Range>, range: Range)
    ensures Taken(ranges + [range]) == Taken(ranges) + range.taken
  {
    assert (ranges + [range])[..|ranges|] == ranges;
  }

  class UDPSocket {
    var sent: seq<Range>

    constructor ()
      ensures sent == []
    {
      sent := [];
    }

    method SendTo(start: nat, offered: nat, outcome: Outcome) returns (count: nat)
      modifies this
      ensures if outcome.Sends? then count == Min(outcome.count, offered) && sent == old(sent) + [Range(start, offered, count)]
              else count == 0 && sent == old(sent)
    {
      count := 0;
      if outcome.Sends? {
        count := Min(outcome.count, offered);
        sent := sent + [Range(start, offered, count)];
      }
    }

    /**
     * The k-th send_to of this call meets `network(k)`. Each starts a maximum after the one before, however
     * much that one took, and is offered what the counts say is left; the calls go on to the end of the
     * buffer or to the first that fails, and the failure is thrown unless it was a cancellation.
     */
    method DeviceWrite(length: nat, network: nat -> Outcome) returns (written: nat, threw: bool)
      modifies this
      ensures old(sent) <= sent && written <= length
      ensures var news := sent[|old(sent)|..];
              && Follow(length, network, news) && written == Taken(news)
              && (|news| * MAXIMUM < length ==> !network(|news|).Sends?)
              && (threw <==> |news| * MAXIMUM < length && network(|news|).Failed?)
    {
      ghost var news: seq<Range> := [];
      var remaining, i, k := length, 0, 0;
      written, threw := 0, false;
      while i < length
        invariant sent == old(sent) + news && k == |news| && i == k * MAXIMUM
        invariant written == Taken(news) <= length && remaining == length - written
        invariant Follow(length, network, news)
        decreases length - i
      {
        var outcome, offered := network(k), Min(MAXIMUM, remaining);
        var count := SendTo(i, offered, outcome);
        remaining, written := remaining - count, written + count;
        if !outcome.Sends? {
          if outcome.Failed? {
            threw := true;
          }
          break;
        }
        FollowAppend(length, network, news, Range(i, offered, count));
        TakenAppend(news, Range(i, offered, count));
        news := news + [Range(i, offered, count)];
        i, k := i + MAXIMUM, k + 1;
      }
      assert sent[|old(sent)|..] == news;
    }
  }

  /** The calls that the loop makes: where each starts, what it is offered and what it takes. */
  predicate FollowAt(length: nat, network: nat -> Outcome, ranges: seq<Range>, k: nat)
    requires k < |ranges|
  {
    var Range(start, offered, taken) := ranges[k];
    && start == k * MAXIMUM < length && Taken(ranges[..k]) <= length
    && offered == Min(MAXIMUM, length - Taken(ranges[..k]))
    && network(k).Sends? && taken == Min(network(k).count, offered)
  }

  ghost predicate Follow(length: nat, network: nat -> Outcome, ranges: seq<Range>) {
    forall k :: 0 <= k < |ranges| ==> FollowAt(length, network, ranges, k)
  }

  lemma FollowAppend(length: nat, network: nat -> Outcome, ranges: seq<Range>, range: Range)
    requires Follow(length, network, ranges) && Taken(ranges) <= length && network(|ranges|).Sends?
    requires range.start == |ranges| * MAXIMUM < length && range.offered == Min(MAXIMUM, length - Taken(ranges))
    requires range.taken == Min(network(|ranges|).count, range.offered)
    ensures Follow(length, network, ranges + [range])
  {
    var more := ranges + [range];
    forall k | 0 <= k < |more|
      ensures FollowAt(length, network, more, k)
    {
      assert more[..k] == ranges[..k];
      assert k == |ranges| ==> ranges[..k] == ranges;
      assert k < |ranges| ==> FollowAt(length, network, ranges, k);
    }
  }

  // ---- when the datagrams are the buffer

  /** Each datagram starts where the bytes taken before it end: nothing is skipped. */
  predicate Tiles(ranges: seq<Range>) {
    ranges == [] ||
    (var front := ranges[..|ranges| - 1]; Tiles(front) && ranges[|ranges| - 1].start == Taken(front))
  }

  predicate FullButLast(ranges: seq<Range>) {
    forall k :: 0 <= k < |ranges| - 1 ==> ranges[k].taken == MAXIMUM
  }

  lemma {:induction false} FullOnesTake(ranges: seq<Range>, k: nat)
    requires FullButLast(ranges) && k < |ranges|
    ensures Taken(ranges[..k]) == k * MAXIMUM
    decreases k
  {
    if k > 0 {
      FullOnesTake(ranges, k - 1);
      assert ranges[..k] == ranges[..k - 1] + [ranges[k - 1]];
      TakenAppend(ranges[..k - 1], ranges[k - 1]);
    }
  }

  /** Nothing is skipped if and only if every datagram but the last took a full maximum. */
  lemma {:induction false} TilesExactlyWhenFull(length: nat, network: nat -> Outcome, ranges: seq<Range>)
    requires Follow(length, network, ranges)
    ensures Tiles(ranges) <==> FullButLast(ranges)
    decreases |ranges|
  {
    if ranges != [] {
      var front, last := ranges[..|ranges| - 1], |ranges| - 1;
      forall k | 0 <= k < |front|
        ensures FollowAt(length, network, front, k)
      {
        assert FollowAt(length, network, ranges, k) && front[..k] == ranges[..k];
      }
      TilesExactlyWhenFull(length, network, front);
      assert FollowAt(length, network, ranges, last);
      if FullButLast(front) && last > 0 {
        FullOnesTake(front, last - 1);
        assert Taken(front) == (last - 1) * MAXIMUM + ranges[last - 1].taken;
      }
    }
  }

  /** The bytes that a datagram takes, as far as they are in the buffer. */
  function Cut(buffer: seq<Byte>, range: Range): seq<Byte> {
    buffer[Min(range.start, |buffer|)..Min(range.start + range.taken, |buffer|)]
  }

  function Cuts(buffer: seq<Byte>, ranges: seq<Range>): seq<seq<Byte>> {
    seq(|ranges|, k requires 0 <= k < |ranges| => Cut(buffer, ranges[k]))
  }

  /** Without a skip the datagrams together are the bytes of the buffer that are reported as written. */
  lemma {:induction false} TilesAreTheBuffer(buffer: seq<Byte>, ranges: seq<Range>)
    requires Tiles(ranges) && Taken(ranges) <= |buffer|
    ensures Concat(Cuts(buffer, ranges)) == buffer[..Taken(ranges)]
    decreases |ranges|
  {
    if ranges != [] {
      var front, last := ranges[..|ranges| - 1], ranges[|ranges| - 1];
      TilesAreTheBuffer(buffer, front);
      OneMoreTile(buffer, front, last);
      assert ranges == front + [last];
    }
  }

  lemma OneMoreTile(buffer: seq<Byte>, front: seq<Range>, last: Range)
    requires Taken(front) + last.taken <= |buffer| && last.start == Taken(front)
    requires Concat(Cuts(buffer, front)) == buffer[..Taken(front)]
    ensures Concat(Cuts(buffer, front + [last])) == buffer[..Taken(front) + last.taken]
  {
    assert Cuts(buffer, front + [last]) == Cuts(buffer, front) + [Cut(buffer, last)];
    ConcatAppend(Cuts(buffer, front), Cut(buffer, last));
    SliceSplits(buffer, Taken(front), Taken(front) + last.taken);
  }

  /** And each of them lies within the buffer. */
  lemma {:induction false} TileLiesWithin(buffer: seq<Byte>, ranges: seq<Range>, k: nat)
    requires Tiles(ranges) && Taken(ranges) <= |buffer| && k < |ranges|
    ensures ranges[k].start + ranges[k].taken <= |buffer| && |Cut(buffer, ranges[k])| == ranges[k].taken
    decreases |ranges|
  {
    if k < |ranges| - 1 {
      TileLiesWithin(buffer, ranges[..|ranges| - 1], k);
    }
  }

  /** A network that sends every datagram whole gets all of the buffer. */
  lemma WholeDatagramsSendAll(length: nat, network: nat -> Outcome, ranges: seq<Range>)
    requires Follow(length, network, ranges) && |ranges| * MAXIMUM >= length
    requires forall k :: 0 <= k < |ranges| ==> network(k).Sends? && network(k).count >= MAXIMUM
    ensures FullButLast(ranges) && Taken(ranges) == length
  {
    forall k | 0 <= k < |ranges|
      ensures ranges[k].taken == ranges[k].offered && Taken(ranges[..k]) == k * MAXIMUM
    {
      WholeSoFar(length, network, ranges, k);
    }
    forall k | 0 <= k < |ranges| - 1
      ensures ranges[k].taken == MAXIMUM
    {
      assert FollowAt(length, network, ranges, k) && FollowAt(length, network, ranges, k + 1);
    }
    if ranges != [] {
      assert FollowAt(length, network, ranges, |ranges| - 1);
    }
  }

  lemma {:induction false} WholeSoFar(length: nat, network: nat -> Outcome, ranges: seq<Range>, k: nat)
    requires Follow(length, network, ranges) && k < |ranges|
    requires forall j :: 0 <= j < |ranges| ==> network(j).Sends? && network(j).count >= MAXIMUM
    ensures ranges[k].taken == ranges[k].offered && Taken(ranges[..k]) == k * MAXIMUM
    decreases k
  {
    assert FollowAt(length, network, ranges, k);
    if k > 0 {
      WholeSoFar(length, network, ranges, k - 1);
      assert FollowAt(length, network, ranges, k - 1);
      assert ranges[..k] == ranges[..k - 1] + [ranges[k - 1]];
      TakenAppend(ranges[..k - 1], ranges[k - 1]);
    }
  }

  /** After a short count the number reported may be that of the whole buffer although bytes were skipped. */
  lemma ShortCountSkips()
    ensures var ranges := [Range(0, MAXIMUM, MAXIMUM - 5), Range(MAXIMUM, 15, 15)];
            var network := (k: nat) => if k == 0 then Sends(MAXIMUM - 5) else Sends(MAXIMUM);
            Follow(MAXIMUM + 10, network, ranges) && Taken(ranges) == MAXIMUM + 10 && !Tiles(ranges)
  {
    var first, second := Range(0, MAXIMUM, MAXIMUM - 5), Range(MAXIMUM, 15, 15);
    var network := (k: nat) => if k == 0 then Sends(MAXIMUM - 5) else Sends(MAXIMUM);
    assert Taken([]) == 0;
    TakenAppend([], first);
    TakenAppend([first], second);
    FollowAppend(MAXIMUM + 10, network, [], first);
    FollowAppend(MAXIMUM + 10, network, [first], second);
    assert [] + [first] == [first] && [first] + [second] == [first, second];
    assert [first, second][..1] == [first];
    assert [first, second][1].start != Taken([first, second][..1]);
  }

  /** Datagrams that are all full but the last determine how a buffer was split: the split is unique. */
  lemma {:induction false} SplitIsUnique(a: seq<seq<Byte>>, b: seq<seq<Byte>>)
    requires Concat(a) == Concat(b)
    requires forall k :: 0 <= k < |a| ==> 1 <= |a[k]| <= MAXIMUM && (k < |a| - 1 ==> |a[k]| == MAXIMUM)
    requires forall k :: 0 <= k < |b| ==> 1 <= |b[k]| <= MAXIMUM && (k < |b| - 1 ==> |b[k]| == MAXIMUM)
    ensures a == b
    decreases |a|
  {
    if a != [] && b != [] {
      assert a == [a[0]] + a[1..] && b == [b[0]] + b[1..];
      ConcatFirst(a[0], a[1..]);
      ConcatFirst(b[0], b[1..]);
      FirstPiece(a, b);
      assert Concat(a)[|a[0]|..] == Concat(a[1..]) && Concat(b)[|b[0]|..] == Concat(b[1..]);
      SplitIsUnique(a[1..], b[1..]);
    }
  }

  lemma FirstPiece(a: seq<seq<Byte>>, b: seq<seq<Byte>>)
    requires a != [] && b != [] && Concat(a) == Concat(b)
    requires Concat(a) == a[0] + Concat(a[1..]) && Concat(b) == b[0] + Concat(b[1..])
    requires forall k :: 0 <= k < |a| ==> 1 <= |a[k]| <= MAXIMUM && (k < |a| - 1 ==> |a[k]| == MAXIMUM)
    requires forall k :: 0 <= k < |b| ==> 1 <= |b[k]| <= MAXIMUM && (k < |b| - 1 ==> |b[k]| == MAXIMUM)
    ensures a[0] == b[0]
  {
    assert |a| == 1 ==> Concat(a[1..]) == [];
    assert |b| == 1 ==> Concat(b[1..]) == [];
    assert a[0] == Concat(a)[..|a[0]|] && b[0] == Concat(b)[..|b[0]|];
  }
}
