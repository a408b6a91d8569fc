/**
 The in-place eight-way partition of cell_split, as far as it is the same for every kind of element:
 the octants, the scan for the next place, and one link of the chain of swaps.
 */
module Partition {
  import opened Particles
  import opened Buckets

  /** struct cell_buff: the position of a particle and the octant it belongs to. */
  datatype Buff = Buff(x: Vec, ind: int)

  /** The side of the pivot plane: gas counts a coordinate on the plane as upper (`closed`), all other
      kinds count it as lower. */
  predicate Upper(x: real, pivot: real, closed: bool) {
    if closed then x >= pivot else x > pivot
  }

  function Octant(x: Vec, pivot: Vec, closed: bool): int {
    (if Upper(x.x, pivot.x, closed) then 4 else 0)
    + (if Upper(x.y, pivot.y, closed) then 2 else 0)
    + (if Upper(x.z, pivot.z, closed) then 1 else 0)
  }

  /** A gas particle and its gpart, at the same place, go to the same octant exactly when no coordinate
      lies on a pivot plane. */
  lemma SameOctant(x: Vec, pivot: Vec)
    ensures Octant(x, pivot, true) == Octant(x, pivot, false) <==>
      x.x != pivot.x && x.y != pivot.y && x.z != pivot.z
  {
  }

  ghost function Inds(b: seq<Buff>): (r: seq<int>)
    ensures |r| == |b| && forall i :: 0 <= i < |b| ==> r[i] == b[i].ind
  {
    seq(|b|, i requires 0 <= i < |b| => b[i].ind)
  }

  /** Every entry knows its own octant. */
  ghost predicate Classified(b: seq<Buff>, pivot: Vec, closed: bool) {
    forall i :: 0 <= i < |b| ==> b[i].ind == Octant(b[i].x, pivot, closed)
  }

  /** The loops that fill the buffer and set the bucket offsets. */
  method Classify(buff: array<Buff>, count: nat, pivot: Vec, closed: bool) returns (offset: seq<int>)
    requires count <= buff.Length
    modifies buff
    ensures forall i :: 0 <= i < buff.Length ==> buff[i].x == old(buff[i].x)
    ensures Classified(buff[..count], pivot, closed)
    ensures |offset| == 9 && Layout(Inds(buff[..count]), offset)
  {
    hide Upper, Layout;
    var bucketCount := [0, 0, 0, 0, 0, 0, 0, 0];
    ghost var buff0 := buff[..];
    assert Classified(buff[..0], pivot, closed) && Counted(buff[..0], bucketCount);
    for k := 0 to count
      invariant |bucketCount| == 8
      invariant forall i :: 0 <= i < buff.Length ==> buff[i].x == buff0[i].x
      invariant Classified(buff[..k], pivot, closed) && Counted(buff[..k], bucketCount)
    {
      var bid := Octant(buff[k].x, pivot, closed);
      assert 0 <= bid < 8;
      ghost var before := buff[..k];
      bucketCount := bucketCount[bid := bucketCount[bid] + 1];
      buff[k] := buff[k].(ind := bid);
      assert buff[..k + 1] == before + [buff[k]];
      OneMore(before, bucketCount[bid := bucketCount[bid] - 1], buff[k], pivot, closed);
    }
    offset := [0];
    for k := 1 to 9
      invariant |offset| == k && offset[0] == 0 && |bucketCount| == 8
      invariant forall b :: 0 <= b < k - 1 ==> offset[b + 1] == offset[b] + bucketCount[b]
    {
      offset := offset + [offset[k - 1] + bucketCount[k - 1]];
    }
    OffsetsComplete(buff[..count], offset, bucketCount, pivot, closed);
  }

  ghost predicate Counted(b: seq<Buff>, bucketCount: seq<int>) {
    |bucketCount| == 8 && forall o :: 0 <= o < 8 ==> bucketCount[o] == multiset(Inds(b))[o]
  }

  lemma OneMore(b: seq<Buff>, bucketCount: seq<int>, e: Buff, pivot: Vec, closed: bool)
    requires Classified(b, pivot, closed) && Counted(b, bucketCount)
    requires e.ind == Octant(e.x, pivot, closed)
    ensures Classified(b + [e], pivot, closed)
    ensures 0 <= e.ind < 8 && Counted(b + [e], bucketCount[e.ind := bucketCount[e.ind] + 1])
  {
    assert Inds(b + [e]) == Inds(b) + [e.ind];
  }

  lemma OffsetsComplete(b: seq<Buff>, offset: seq<int>, count: seq<int>, pivot: Vec, closed: bool)
    requires |offset| == 9 && |count| == 8 && offset[0] == 0
    requires Classified(b, pivot, closed) && Counted(b, count)
    requires forall b :: 0 <= b < 8 ==> offset[b + 1] == offset[b] + count[b]
    ensures Layout(Inds(b), offset)
  {
    var ind := Inds(b);
    CountsSum(ind);
    assert offset[8] == SumUpTo8(multiset(ind));
  }

  /** The inner loop that looks for the next place of bucket `bid` not yet holding one of its own.  The
      entry in the hole is in hand; `ind` has it in its place. */
  method Scan(buff: array<Buff>, offset: seq<int>, bucketCount: seq<int>, bid: int, ghost ind: seq<int>,
        ghost hole: int)
    returns (j: int, bucketCount': seq<int>)
    requires |ind| <= buff.Length && Layout(ind, offset) && Settled(ind, offset, bucketCount)
    requires forall i :: 0 <= i < |ind| && i != hole ==> buff[i].ind == ind[i]
    requires 0 <= hole < |ind| && 0 <= bid < 8 && ind[hole] == bid && !In(offset, bid, hole)
    ensures Scanned(ind, offset, bucketCount, bucketCount', bid, j)
  {
    OffsetsOrdered(ind, offset, 0, bid);
    j := offset[bid] + bucketCount[bid];
    bucketCount' := bucketCount[bid := bucketCount[bid] + 1];
    forall i | offset[bid] <= i < j && 0 <= i < |ind| ensures ind[i] == bid {
      assert InPrefix(offset, bucketCount, bid, i);
    }
    RoomFor(ind, offset, bid, j, hole);
    while buff[j].ind == bid
      invariant |bucketCount'| == 8 && bucketCount' == bucketCount[bid := bucketCount'[bid]]
      invariant bucketCount[bid] < bucketCount'[bid] <= Width(offset, bid)
      invariant j == offset[bid] + bucketCount'[bid] - 1 && 0 <= j < |ind|
      invariant forall i :: offset[bid] <= i < j && 0 <= i < |ind| ==> ind[i] == bid
      decreases Width(offset, bid) - bucketCount'[bid]
    {
      j := j + 1;
      RoomFor(ind, offset, bid, j, hole);
      bucketCount' := bucketCount'[bid := bucketCount'[bid] + 1];
    }
  }

  // ----- one chain of swaps, for any kind of element -----

  /** What a sort works on: the window [lo, lo + count) of an array, its buffer, and both as they were. */
  datatype Job<T> = Job(lo: int, count: int, offset: seq<int>, pivot: Vec, closed: bool, elems0: seq<T>,
    buff0: seq<Buff>)

  /** The arrays while the element of place `hole` is in hand (nothing is, if `hole` is -1): `a` and `b`
      are the window and its buffer with the element in hand put back. */
  ghost predicate Placed<T>(w: Job<T>, elems: seq<T>, buff: seq<Buff>, a: seq<T>, b: seq<Buff>, hole: int) {
    && 0 <= w.lo && 0 <= w.count && |a| == |b| == w.count
    && |elems| == |w.elems0| && |buff| == |w.buff0| && w.lo + w.count <= |elems| && w.count <= |buff|
    && (forall i :: 0 <= i < w.count && i != hole ==> elems[w.lo + i] == a[i] && buff[i] == b[i])
    && (forall i :: 0 <= i < |elems| && !(w.lo <= i < w.lo + w.count) ==> elems[i] == w.elems0[i])
    && (forall i :: w.count <= i < |buff| ==> buff[i] == w.buff0[i])
    && multiset(a) == multiset(w.elems0[w.lo..w.lo + w.count])
  }

  /** The octants of the buffer entries, and the places already settled. */
  ghost predicate Ordered<T>(w: Job<T>, b: seq<Buff>, bucketCount: seq<int>) {
    && |b| == w.count
    && Classified(b, w.pivot, w.closed)
    && Layout(Inds(b), w.offset)
    && Settled(Inds(b), w.offset, bucketCount)
  }

  /** The counts while bucket `bucket` is being filled at place `k`. */
  ghost predicate Filling(offset: seq<int>, bucketCount: seq<int>, bucket: int, k: int) {
    && |offset| == 9 && |bucketCount| == 8 && 0 <= bucket <= 8
    && (forall b :: 0 <= b < bucket ==> bucketCount[b] == Width(offset, b))
    && (bucket < 8 ==> k == offset[bucket] + bucketCount[bucket] && bucketCount[bucket] <= Width(offset, bucket))
  }

  function Swapped<T>(s: seq<T>, j: int, k: int): (t: seq<T>)
    requires 0 <= j < |s| && 0 <= k < |s|
    ensures |t| == |s|
  {
    s[j := s[k]][k := s[j]]
  }

  lemma PlaceStep<T>(w: Job<T>, elems: seq<T>, buff: seq<Buff>, a: seq<T>, b: seq<Buff>, j: int, k: int)
    requires Placed(w, elems, buff, a, b, k) && 0 <= k < w.count && 0 <= j < w.count && j != k
    ensures elems[w.lo + j] == Swapped(a, j, k)[k] && buff[j] == Swapped(b, j, k)[k]
    ensures Placed(w, elems[w.lo + j := a[k]], buff[j := b[k]], Swapped(a, j, k), Swapped(b, j, k), k)
  {
    SwappedSame(a, j, k);
    var e1, b1, a', b' := elems[w.lo + j := a[k]], buff[j := b[k]], Swapped(a, j, k), Swapped(b, j, k);
    forall i | 0 <= i < w.count && i != k ensures e1[w.lo + i] == a'[i] && b1[i] == b'[i] {
      if i != j { assert elems[w.lo + i] == a[i] && buff[i] == b[i]; }
    }
    hide Swapped;
  }

  lemma SwappedSame<T>(a: seq<T>, j: int, k: int)
    requires 0 <= j < |a| && 0 <= k < |a|
    ensures multiset(Swapped(a, j, k)) == multiset(a)
  {
    var a' := SwapKeeps(a, j, k);
  }

  lemma SwappedBuff(b: seq<Buff>, pivot: Vec, closed: bool, j: int, k: int)
    requires 0 <= j < |b| && 0 <= k < |b| && Classified(b, pivot, closed)
    ensures Classified(Swapped(b, j, k), pivot, closed)
    ensures Inds(Swapped(b, j, k)) == Inds(b)[j := b[k].ind][k := b[j].ind]
  {
  }

  lemma FillingKept(offset: seq<int>, bucketCount: seq<int>, next: seq<int>, bucket: int, k: int, bid: int)
    requires Filling(offset, bucketCount, bucket, k) && |next| == 8 && 0 <= bid < 8 && bid != bucket
    requires next == bucketCount[bid := next[bid]] && bucketCount[bid] < next[bid] <= Width(offset, bid)
    ensures Filling(offset, next, bucket, k)
  {
  }

  lemma OrderStep<T>(w: Job<T>, b: seq<Buff>, bucketCount: seq<int>, next: seq<int>, bucket: int, k: int, j: int)
    requires Ordered(w, b, bucketCount) && 0 <= k < w.count
    requires Filling(w.offset, bucketCount, bucket, k) && bucket < 8 && In(w.offset, bucket, k) && b[k].ind != bucket
    requires Scanned(Inds(b), w.offset, bucketCount, next, b[k].ind, j)
    ensures 0 <= j < w.count && j != k
    ensures Ordered(w, Swapped(b, j, k), next)
    ensures Filling(w.offset, next, bucket, k) && 0 <= Swapped(b, j, k)[k].ind < 8
    ensures |bucketCount| == 8 && |next| == 8 && Total(bucketCount) < Total(next) <= w.count
  {
    hide Settled, Total, Classified, In, InPrefix, Width;
    var ind := Inds(b);
    assert ind[j] == b[j].ind && ind[k] == b[k].ind && j != k;
    assert |next| == 8 && |w.offset| == 9 && next[b[k].ind] <= Width(w.offset, b[k].ind) && 0 <= bucket < 8
      && k == w.offset[bucket] + bucketCount[bucket] && 0 <= b[j].ind < 8;
    HoleOutside(ind, w.offset, bucketCount, next, bucket, b[k].ind, k);
    AfterSwap(ind, w.offset, bucketCount, next, b[k].ind, j, k);
    SwappedBuff(b, w.pivot, w.closed, j, k);
    FillingKept(w.offset, bucketCount, next, bucket, k, b[k].ind);
  }

  lemma ScanReady<T>(w: Job<T>, elems: seq<T>, buff: seq<Buff>, a: seq<T>, b: seq<Buff>, bucketCount: seq<int>,
        bucket: int, k: int)
    requires Placed(w, elems, buff, a, b, k) && Ordered(w, b, bucketCount) && 0 <= k < w.count
    requires Filling(w.offset, bucketCount, bucket, k) && bucket < 8 && In(w.offset, bucket, k) && b[k].ind != bucket
    ensures var ind := Inds(b);
      && |ind| == w.count <= |buff| && Layout(ind, w.offset) && Settled(ind, w.offset, bucketCount)
      && (forall i :: 0 <= i < |ind| && i != k ==> buff[i].ind == ind[i])
      && ind[k] == b[k].ind && 0 <= ind[k] < 8 && !In(w.offset, ind[k], k)
  {
    NotInOthers(Inds(b), w.offset, bucket, Inds(b)[k], k);
  }

  lemma NotInOthers(ind: seq<int>, offset: seq<int>, bucket: int, bid: int, k: int)
    requires Layout(ind, offset) && 0 <= bucket < 8 && 0 <= bid < 8 && bid != bucket && In(offset, bucket, k)
    ensures !In(offset, bid, k)
  {
    if bid < bucket { OffsetsOrdered(ind, offset, bid + 1, bucket); }
      else { OffsetsOrdered(ind, offset, bucket + 1, bid); }
  }

  lemma HoleOutside(ind: seq<int>, offset: seq<int>, count: seq<int>, count': seq<int>, bucket: int, bid: int, k: int)
    requires Layout(ind, offset) && Settled(ind, offset, count) && 0 <= bucket < 8 && 0 <= bid < 8 && bid != bucket
    requires |count'| == 8 && count' == count[bid := count'[bid]] && count'[bid] <= Width(offset, bid)
    requires In(offset, bucket, k) && k == offset[bucket] + count[bucket]
    ensures forall b :: 0 <= b < 8 ==> !InPrefix(offset, count', b, k)
  {
    forall b | 0 <= b < 8 && b != bucket ensures !InPrefix(offset, count', b, k) {
      NotInOthers(ind, offset, bucket, b, k);
    }
  }

  /** The place k of bucket `bucket` holds one of its own: it is settled. */
  lemma SettleOne<T>(w: Job<T>, b: seq<Buff>, bucketCount: seq<int>, bucket: int, k: int)
    requires Ordered(w, b, bucketCount) && Filling(w.offset, bucketCount, bucket, k) && bucket < 8
    requires In(w.offset, bucket, k) && 0 <= k < w.count && b[k].ind == bucket
    ensures Ordered(w, b, bucketCount[bucket := bucketCount[bucket] + 1])
    ensures Filling(w.offset, bucketCount[bucket := bucketCount[bucket] + 1], bucket, k + 1)
  {
    var ind := Inds(b);
    var next := bucketCount[bucket := bucketCount[bucket] + 1];
    forall c, i | InPrefix(w.offset, next, c, i) && 0 <= i < |ind| ensures ind[i] == c {
      if i == k {
        if c != bucket { NotInOthers(ind, w.offset, bucket, c, k); }
      } else {
        assert InPrefix(w.offset, bucketCount, c, i);
      }
    }
  }

  lemma TakeInHand<T>(w: Job<T>, elems: seq<T>, buff: seq<Buff>, a: seq<T>, b: seq<Buff>, bucketCount: seq<int>, k: int)
    requires Placed(w, elems, buff, a, b, -1) && Ordered(w, b, bucketCount) && 0 <= k < w.count
    ensures Placed(w, elems, buff, a, b, k)
    ensures elems[w.lo + k] == a[k] && buff[k] == b[k] && 0 <= b[k].ind < 8
  {
    assert Inds(b)[k] == b[k].ind;
  }

  lemma PutBack<T>(w: Job<T>, elems: seq<T>, buff: seq<Buff>, a: seq<T>, b: seq<Buff>, k: int)
    requires Placed(w, elems, buff, a, b, k) && 0 <= k < w.count
    ensures Placed(w, elems[w.lo + k := a[k]], buff[k := b[k]], a, b, -1)
  {
  }

  /** The bounds the code relies on. */
  lemma Bounds<T>(w: Job<T>, elems: seq<T>, buff: seq<Buff>, a: seq<T>, b: seq<Buff>, hole: int, bucketCount: seq<int>,
        bucket: int, k: int)
    requires Placed(w, elems, buff, a, b, hole) && Ordered(w, b, bucketCount)
    requires Filling(w.offset, bucketCount, bucket, k) && bucket < 8
    ensures |bucketCount| == 8 && |w.offset| == 9 && 0 <= w.lo && w.lo + w.count <= |elems| && w.count <= |buff|
    ensures |a| == |b| == w.count
    ensures 0 <= w.offset[bucket] <= k <= w.offset[bucket + 1] <= w.count && k == w.offset[bucket] + bucketCount[bucket]
    ensures k < w.offset[bucket + 1] <==> In(w.offset, bucket, k)
  {
    OffsetsOrdered(Inds(b), w.offset, 0, bucket);
    OffsetsOrdered(Inds(b), w.offset, bucket + 1, 8);
  }

  lemma Begin<T>(w: Job<T>, b: seq<Buff>, zeros: seq<int>)
    requires Ordered(w, b, zeros) && zeros == [0, 0, 0, 0, 0, 0, 0, 0]
    ensures Filling(w.offset, zeros, 0, w.offset[0] + zeros[0])
  {
    OffsetsOrdered(Inds(b), w.offset, 0, 1);
  }

  lemma NextBucket<T>(w: Job<T>, b: seq<Buff>, bucketCount: seq<int>, bucket: int, k: int)
    requires Ordered(w, b, bucketCount) && |bucketCount| == 8 && 0 <= bucket < 8 && |w.offset| == 9
    requires Filling(w.offset, bucketCount, bucket, k) && k >= w.offset[bucket + 1]
    ensures Filling(w.offset, bucketCount, bucket + 1,
      if bucket < 7 then w.offset[bucket + 1] + bucketCount[bucket + 1] else 0)
  {
  }

  /** Octant b is exactly in [offset[b], offset[b + 1]), and these stretches tile the window. */
  ghost predicate InOctants(xs: seq<Vec>, offset: seq<int>, pivot: Vec, closed: bool) {
    && |offset| == 9 && offset[0] == 0 && offset[8] == |xs|
    && (forall b :: 0 <= b < 8 ==> 0 <= Width(offset, b))
    && (forall b, i :: In(offset, b, i) ==> 0 <= i < |xs| && Octant(xs[i], pivot, closed) == b)
  }

  /** What lies in the window lay in it before, and the other way round. */
  lemma Where<T>(s: seq<T>, t: seq<T>, lo: int, hi: int, i: int) returns (j: int)
    requires 0 <= lo <= i < hi <= |s| == |t| && multiset(s[lo..hi]) == multiset(t[lo..hi])
    ensures lo <= j < hi && t[j] == s[i]
  {
    assert s[lo..hi][i - lo] in multiset(s[lo..hi]);
    assert s[i] in t[lo..hi];
    var k :| 0 <= k < hi - lo && t[lo..hi][k] == s[i];
    j := lo + k;
  }
}
