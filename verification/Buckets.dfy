/**
 The arithmetic of the eight-way partition in cell_split: bucket offsets, and the pigeonhole argument
 that keeps the cycle-leader loop inside its buckets while one element is held in hand.

 `ind` is the octant of every element, with the element in hand put where the hole is.
 */
module Buckets {
  /** The octants, laid out one after the other in order: offset[b] .. offset[b + 1] has room for
      exactly the elements of octant b. */
  function Width(offset: seq<int>, b: int): int
    requires |offset| == 9 && 0 <= b < 8
  {
    offset[b + 1] - offset[b]
  }

  /** Place `i` belongs to bucket `b`. */
  predicate In(offset: seq<int>, b: int, i: int)
    requires |offset| == 9
  {
    0 <= b < 8 && offset[b] <= i < offset[b] + Width(offset, b)
  }

  /** Place `i` is among the first count[b] places of bucket `b`. */
  predicate InPrefix(offset: seq<int>, count: seq<int>, b: int, i: int)
    requires |offset| == 9 && |count| == 8
  {
    0 <= b < 8 && offset[b] <= i < offset[b] + count[b]
  }

  ghost predicate Layout(ind: seq<int>, offset: seq<int>) {
    && |offset| == 9
    && offset[0] == 0 && offset[8] == |ind|
    && (forall i :: 0 <= i < |ind| ==> 0 <= ind[i] < 8)
    && (forall b :: 0 <= b < 8 ==> Width(offset, b) == multiset(ind)[b])
  }

  /** The first count[b] places of every bucket are settled. */
  ghost predicate Settled(ind: seq<int>, offset: seq<int>, count: seq<int>)
    requires Layout(ind, offset)
  {
    && |count| == 8
    && (forall b :: 0 <= b < 8 ==> 0 <= count[b] <= Width(offset, b))
    && (forall b, i :: InPrefix(offset, count, b, i) && 0 <= i < |ind| ==> ind[i] == b)
  }

  /** How much is settled in all; it bounds the number of swaps still to come. */
  ghost function Total(count: seq<int>): int
    requires |count| == 8
  {
    count[0] + count[1] + count[2] + count[3] + count[4] + count[5] + count[6] + count[7]
  }

  lemma OffsetsOrdered(ind: seq<int>, offset: seq<int>, a: int, b: int)
    requires Layout(ind, offset) && 0 <= a <= b <= 8
    ensures 0 <= offset[a] <= offset[b] <= |ind|
  {
    OffsetsFromTo(ind, offset, 0, a);
    OffsetsFromTo(ind, offset, a, b);
    OffsetsFromTo(ind, offset, b, 8);
  }

  lemma {:induction false} OffsetsFromTo(ind: seq<int>, offset: seq<int>, a: int, b: int)
    requires Layout(ind, offset) && 0 <= a <= b <= 8
    ensures offset[a] <= offset[b]
    decreases b - a
  {
    if a < b {
      assert Width(offset, a) == multiset(ind)[a];
      OffsetsFromTo(ind, offset, a + 1, b);
    }
  }

  /** A stretch of equal values and one more elsewhere. */
  lemma {:induction false} CountAtLeast(ind: seq<int>, lo: int, hi: int, hole: int, b: int)
    requires 0 <= lo <= hi <= |ind| && 0 <= hole < |ind| && !(lo <= hole < hi)
    requires ind[hole] == b && forall i :: lo <= i < hi ==> ind[i] == b
    ensures multiset(ind)[b] >= hi - lo + 1
    decreases hi - lo
  {
    if lo == hi {
      assert b in ind;
    } else {
      var rest := ind[..hi - 1] + ind[hi..];
      assert ind == ind[..hi - 1] + [ind[hi - 1]] + ind[hi..];
      assert multiset(ind) == multiset(rest) + multiset{ind[hi - 1]};
      var hole' := if hole < hi then hole else hole - 1;
      assert rest[hole'] == b;
      CountAtLeast(rest, lo, hi - 1, hole', b);
    }
  }

  /** Pigeonhole: as long as the element in hand belongs to bucket b, that bucket has a free place. */
  lemma RoomFor(ind: seq<int>, offset: seq<int>, b: int, upto: int, hole: int)
    requires Layout(ind, offset) && 0 <= b < 8
    requires offset[b] <= upto <= offset[b] + Width(offset, b)
    requires forall i :: offset[b] <= i < upto && 0 <= i < |ind| ==> ind[i] == b
    requires 0 <= hole < |ind| && !In(offset, b, hole) && ind[hole] == b
    ensures upto < offset[b] + Width(offset, b) <= |ind|
  {
    OffsetsOrdered(ind, offset, 0, b);
    OffsetsOrdered(ind, offset, b + 1, 8);
    CountAtLeast(ind, offset[b], upto, hole, b);
  }

  /** Exchanging two elements. */
  lemma SwapKeeps<T>(s: seq<T>, j: int, k: int) returns (t: seq<T>)
    requires 0 <= j < |s| && 0 <= k < |s|
    ensures t == s[j := s[k]][k := s[j]] && |t| == |s|
    ensures multiset(t) == multiset(s)
  {
    t := s[j := s[k]][k := s[j]];
    assert multiset(s[j := s[k]]) == multiset(s) - multiset{s[j]} + multiset{s[k]};
    var m := s[j := s[k]];
    assert multiset(m[k := s[j]]) == multiset(m) - multiset{m[k]} + multiset{s[j]};
  }

  function SumUpTo8(m: multiset<int>): int {
    m[0] + m[1] + m[2] + m[3] + m[4] + m[5] + m[6] + m[7]
  }

  lemma SumOfOneMore(m: multiset<int>, v: int)
    requires 0 <= v < 8
    ensures SumUpTo8(m + multiset{v}) == SumUpTo8(m) + 1
  {
  }

  /** The counts of the eight octants add up to the number of elements. */
  lemma {:induction false} CountsSum(ind: seq<int>)
    requires forall i :: 0 <= i < |ind| ==> 0 <= ind[i] < 8
    ensures SumUpTo8(multiset(ind)) == |ind|
  {
    if ind != [] {
      var n := |ind| - 1;
      CountsSum(ind[..n]);
      assert ind == ind[..n] + [ind[n]];
      assert multiset(ind) == multiset(ind[..n]) + multiset{ind[n]};
      hide SumUpTo8;
      SumOfOneMore(multiset(ind[..n]), ind[n]);
    }
  }

  /** When everything is settled every bucket holds its octant and nothing else. */
  lemma AllSettled(ind: seq<int>, offset: seq<int>, count: seq<int>)
    requires Layout(ind, offset) && Settled(ind, offset, count)
    requires forall b :: 0 <= b < 8 ==> count[b] == Width(offset, b)
    ensures forall b, i :: In(offset, b, i) ==> 0 <= i < |ind| && ind[i] == b
  {
    forall b, i | In(offset, b, i) ensures 0 <= i < |ind| && ind[i] == b {
      assert InPrefix(offset, count, b, i);
      OffsetsOrdered(ind, offset, 0, b);
      OffsetsOrdered(ind, offset, b + 1, 8);
    }
  }

  /** One scan of the cycle-leader loop: `count'` has moved past the places of bucket `bid` up to and
      including `j`, the first whose element does not belong there. */
  ghost predicate Scanned(ind: seq<int>, offset: seq<int>, count: seq<int>, count': seq<int>, bid: int, j: int)
    requires Layout(ind, offset)
  {
    && |count| == 8 && |count'| == 8 && 0 <= bid < 8
    && count'== count[bid := count'[bid]] && count[bid] < count'[bid] <= Width(offset, bid)
    && j == offset[bid] + count'[bid] - 1 && 0 <= j < |ind| && ind[j] != bid
    && forall i :: offset[bid] <= i < j && 0 <= i < |ind| ==> ind[i] == bid
  }

  /** Putting the element in hand at the scanned place, and taking the one found there into hand. */
  lemma AfterSwap(ind: seq<int>, offset: seq<int>, count: seq<int>, count': seq<int>, bid: int, j: int, hole: int)
    requires Layout(ind, offset) && Settled(ind, offset, count) && Scanned(ind, offset, count, count', bid, j)
    requires 0 <= hole < |ind| && ind[hole] == bid && hole != j
    requires forall b :: 0 <= b < 8 ==> !InPrefix(offset, count', b, hole)
    ensures var ind' := ind[j := bid][hole := ind[j]];
      Layout(ind', offset) && Settled(ind', offset, count') && Total(count) < Total(count') <= |ind|
  {
    TotalUpdate(count, bid, count'[bid]);
    TotalBounded(ind, offset, count');
    hide Total;
    var ind' := SwapKeeps(ind, j, hole);
    assert Layout(ind', offset);
    hide Layout;
    forall b, i | InPrefix(offset, count', b, i) && 0 <= i < |ind'| ensures ind'[i] == b {
      SettledAt(ind, offset, count, count', bid, j, hole, b, i);
    }
  }

  lemma SettledAt(ind: seq<int>, offset: seq<int>, count: seq<int>, count': seq<int>, bid: int, j: int, hole: int, b: int,
        i: int)
    requires Layout(ind, offset) && Settled(ind, offset, count) && Scanned(ind, offset, count, count', bid, j)
    requires 0 <= hole < |ind| && ind[hole] == bid && hole != j
    requires forall b :: 0 <= b < 8 ==> !InPrefix(offset, count', b, hole)
    requires InPrefix(offset, count', b, i) && 0 <= i < |ind|
    ensures ind[j := bid][hole := ind[j]][i] == b
  {
    assert InPrefix(offset, count', bid, j);
    assert i != hole;
    if b != bid {
      ApartPrefixes(ind, offset, count', b, bid, i, j);
      assert InPrefix(offset, count, b, i);
    }
  }

  lemma TotalUpdate(count: seq<int>, b: int, v: int)
    requires |count| == 8 && 0 <= b < 8
    ensures Total(count[b := v]) == Total(count) + v - count[b]
  {
  }

  lemma ApartPrefixes(ind: seq<int>, offset: seq<int>, count: seq<int>, a: int, b: int, i: int, j: int)
    requires Layout(ind, offset) && |count| == 8 && forall c :: 0 <= c < 8 ==> 0 <= count[c] <= Width(offset, c)
    requires InPrefix(offset, count, a, i) && InPrefix(offset, count, b, j) && a != b
    ensures i != j
  {
    if a < b { OffsetsOrdered(ind, offset, a + 1, b); } else { OffsetsOrdered(ind, offset, b + 1, a); }
  }

  lemma TotalBounded(ind: seq<int>, offset: seq<int>, count: seq<int>)
    requires Layout(ind, offset) && |count| == 8 && forall c :: 0 <= c < 8 ==> 0 <= count[c] <= Width(offset, c)
    ensures 0 <= Total(count) <= |ind|
  {
    CountsSum(ind);
    var m := multiset(ind);
    assert forall c :: 0 <= c < 8 ==> 0 <= count[c] <= m[c];
  }
}
