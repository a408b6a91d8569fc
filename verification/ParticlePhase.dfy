/**
 cell_split: the phases for parts, sparts, bparts and sinks.  The particles move, their gparts are told
 the new index.
 */
module ParticlePhase {
  import opened Particles
  import opened Buckets
  import opened Partition

  /** No two particles share a gpart. */
  ghost predicate NoSharing(a: seq<Particle>) {
    forall i, j :: 0 <= i < j < |a| && a[i].gpart != NULL ==> a[i].gpart != a[j].gpart
  }

  /** The gparts of the particles in `a` that are not in the hole know them at index base + i. */
  ghost predicate Known(a: seq<Particle>, gs: seq<Gpart>, base: int, hole: int) {
    forall i :: 0 <= i < |a| && i != hole && a[i].gpart != NULL ==>
      0 <= a[i].gpart < |gs| && gs[a[i].gpart].idOrNegOffset == -(base + i)
  }

  ghost predicate GpartsWithin(a: seq<Particle>, touched: set<int>, n: int) {
    forall i :: 0 <= i < |a| && a[i].gpart != NULL ==> a[i].gpart in touched && 0 <= a[i].gpart < n
  }

  /** Only stored indices have changed, and only those of gparts in `touched`. */
  ghost predicate OnlyIndices(before: seq<Gpart>, after: seq<Gpart>, touched: set<int>) {
    && |before| == |after|
    && forall g :: 0 <= g < |after| ==>
      && after[g] == before[g].(idOrNegOffset := after[g].idOrNegOffset)
      && (g !in touched ==> after[g] == before[g])
  }

  ghost predicate Paired(a: seq<Particle>, b: seq<Buff>) {
    |a| == |b| && forall i :: 0 <= i < |a| ==> a[i].x == b[i].x
  }

  /** The links of the window `a`, the particle in hand put back, with `gs0` the gparts at the start. */
  ghost predicate Links(a: seq<Particle>, b: seq<Buff>, gs: seq<Gpart>, gs0: seq<Gpart>, touched: set<int>, base: int,
        hole: int) {
    && Paired(a, b)
    && NoSharing(a)
    && GpartsWithin(a, touched, |gs|)
    && Known(a, gs, base, hole)
    && OnlyIndices(gs0, gs, touched)
  }

  /** The gpart array after the particle `p` has been put down at index `i`. */
  function Told(gs: seq<Gpart>, p: Particle, i: int): seq<Gpart> {
    if 0 <= p.gpart < |gs| then gs[p.gpart := gs[p.gpart].(idOrNegOffset := -i)] else gs
  }

  /** The particle in hand is put down at j, and its gpart is told so. */
  lemma LinkStep(a: seq<Particle>, b: seq<Buff>, gs: seq<Gpart>, gs0: seq<Gpart>, touched: set<int>, base: int, j: int,
        k: int)
    requires Links(a, b, gs, gs0, touched, base, k)
    requires 0 <= j < |a| && 0 <= k < |a| && j != k
    ensures Links(Swapped(a, j, k), Swapped(b, j, k), Told(gs, a[k], base + j), gs0, touched, base, k)
    ensures a[k].gpart != NULL ==> 0 <= a[k].gpart < |gs|
  {
  }

  /** The particle in hand goes back into the hole. */
  lemma LinkBack(a: seq<Particle>, b: seq<Buff>, gs: seq<Gpart>, gs0: seq<Gpart>, touched: set<int>, base: int, k: int)
    requires Links(a, b, gs, gs0, touched, base, k) && 0 <= k < |a|
    ensures Links(a, b, Told(gs, a[k], base + k), gs0, touched, base, -1)
    ensures a[k].gpart != NULL ==> 0 <= a[k].gpart < |gs|
  {
  }

  /** The two swaps with place j, and the new index told to the gpart. */
  method PutDown(ps: array<Particle>, buff: array<Buff>, gs: array<Gpart>, lo: nat, j: nat, part: Particle,
        tempBuff: Buff)
      returns (part': Particle, tempBuff': Buff)
    requires lo + j < ps.Length && j < buff.Length && (part.gpart != NULL ==> 0 <= part.gpart < gs.Length)
    modifies ps, buff, gs
    ensures part' == old(ps[lo + j]) && tempBuff' == old(buff[j])
    ensures ps[..] == old(ps[..])[lo + j := part] && buff[..] == old(buff[..])[j := tempBuff]
    ensures gs[..] == Told(old(gs[..]), part, lo + j)
  {
    part', tempBuff' := ps[lo + j], buff[j];
    ps[lo + j], buff[j] := part, tempBuff;
    if ps[lo + j].gpart != NULL {
      gs[ps[lo + j].gpart] := gs[ps[lo + j].gpart].(idOrNegOffset := -(j + lo));
    }
  }

  /** The chain of swaps that starts at place k: it ends with an element of this bucket in hand. */
  method Chain(ps: array<Particle>, buff: array<Buff>, gs: array<Gpart>, lo: nat, offset: seq<int>,
        bucketCount0: seq<int>, bucket: int, k: nat,
               ghost w: Job<Particle>, ghost a0: seq<Particle>, ghost b0: seq<Buff>,
               ghost gs0: seq<Gpart>, ghost touched: set<int>)
      returns (bucketCount: seq<int>, ghost a: seq<Particle>, ghost b: seq<Buff>)
    requires w.lo == lo && w.offset == offset && 0 <= k < w.count
    requires Placed(w, ps[..], buff[..], a0, b0, -1) && Ordered(w, b0, bucketCount0)
    requires Filling(offset, bucketCount0, bucket, k) && bucket < 8 && In(offset, bucket, k) && b0[k].ind != bucket
    requires Links(a0, b0, gs[..], gs0, touched, lo, -1)
    modifies ps, buff, gs
    ensures Placed(w, ps[..], buff[..], a, b, -1) && Ordered(w, b, bucketCount)
    ensures Filling(offset, bucketCount, bucket, k) && b[k].ind == bucket
    ensures Links(a, b, gs[..], gs0, touched, lo, -1)
  {
    hide Filling, GpartsWithin, In, Inds, Layout, NoSharing, OnlyIndices, Ordered, Paired, Placed, Scanned, Settled,
      Swapped, Told, Total;
    a, b, bucketCount := a0, b0, bucketCount0;
    Bounds(w, ps[..], buff[..], a, b, -1, bucketCount, bucket, k);
    TakeInHand(w, ps[..], buff[..], a, b, bucketCount, k);
    assert Links(a, b, gs[..], gs0, touched, lo, k);
    var part, tempBuff := ps[lo + k], buff[k];
    while tempBuff.ind != bucket
      invariant |a| == |b| == w.count && part == a[k] && tempBuff == b[k] && 0 <= b[k].ind < 8
      invariant Placed(w, ps[..], buff[..], a, b, k) && Ordered(w, b, bucketCount)
      invariant Filling(offset, bucketCount, bucket, k)
      invariant Links(a, b, gs[..], gs0, touched, lo, k)
      invariant |bucketCount| == 8
      decreases w.count - Total(bucketCount)
    {
      Bounds(w, ps[..], buff[..], a, b, k, bucketCount, bucket, k);
      ScanReady(w, ps[..], buff[..], a, b, bucketCount, bucket, k);
      var j, next := Scan(buff, offset, bucketCount, tempBuff.ind, Inds(b), k);
      OrderStep(w, b, bucketCount, next, bucket, k, j);
      PlaceStep(w, ps[..], buff[..], a, b, j, k);
      LinkStep(a, b, gs[..], gs0, touched, lo, j, k);
      part, tempBuff := PutDown(ps, buff, gs, lo, j, part, tempBuff);
      a, b, bucketCount := Swapped(a, j, k), Swapped(b, j, k), next;
    }
    PutBack(w, ps[..], buff[..], a, b, k);
    LinkBack(a, b, gs[..], gs0, touched, lo, k);
    Bounds(w, ps[..], buff[..], a, b, k, bucketCount, bucket, k);
    var _, _ := PutDown(ps, buff, gs, lo, k, part, tempBuff);
  }

  ghost function PlacesOf(a: seq<Particle>): (r: seq<Vec>)
    ensures |r| == |a| && forall i :: 0 <= i < |a| ==> r[i] == a[i].x
  {
    seq(|a|, i requires 0 <= i < |a| => a[i].x)
  }

  ghost function GpartsOf(a: seq<Particle>): set<int> {
    set i | 0 <= i < |a| && a[i].gpart != NULL :: a[i].gpart
  }

  lemma SortStarts(w: Job<Particle>, ps: seq<Particle>, buff: seq<Buff>, gs: seq<Gpart>, a: seq<Particle>, b: seq<Buff>,
        zeros: seq<int>)
    requires 0 <= w.lo && 0 <= w.count && w.elems0 == ps && w.buff0 == buff && w.lo + w.count <= |ps|
    requires w.count <= |buff|
    requires a == ps[w.lo..w.lo + w.count] && b == buff[..w.count] && zeros == [0, 0, 0, 0, 0, 0, 0, 0]
    requires Paired(a, b) && NoSharing(a) && Known(a, gs, w.lo, -1) && Classified(b, w.pivot, w.closed)
    requires Layout(Inds(b), w.offset)
    ensures Placed(w, ps, buff, a, b, -1) && Ordered(w, b, zeros)
    ensures Links(a, b, gs, gs, GpartsOf(a), w.lo, -1)
  {
    assert forall c, i :: !InPrefix(w.offset, zeros, c, i);
    forall c | 0 <= c < 8 ensures 0 <= zeros[c] <= Width(w.offset, c) {
      OffsetsOrdered(Inds(b), w.offset, c, c + 1);
    }
  }

  lemma SortEnds(w: Job<Particle>, ps: seq<Particle>, buff: seq<Buff>, gs: seq<Gpart>, gs0: seq<Gpart>,
                 a: seq<Particle>, b: seq<Buff>, bucketCount: seq<int>, touched: set<int>)
    requires Placed(w, ps, buff, a, b, -1) && Ordered(w, b, bucketCount) && Filling(w.offset, bucketCount, 8, 0)
    requires Links(a, b, gs, gs0, touched, w.lo, -1)
    ensures 0 <= w.lo && 0 <= w.count && w.lo + w.count <= |ps| && w.count <= |buff| && |ps| == |w.elems0|
    ensures ps[w.lo..w.lo + w.count] == a && buff[..w.count] == b
    ensures multiset(a) == multiset(w.elems0[w.lo..w.lo + w.count])
    ensures forall i :: 0 <= i < |ps| && !(w.lo <= i < w.lo + w.count) ==> ps[i] == w.elems0[i]
    ensures InOctants(PlacesOf(a), w.offset, w.pivot, w.closed)
    ensures |w.offset| == 9 && |bucketCount| == 8 && forall c :: 0 <= c < 8 ==> bucketCount[c] == Width(w.offset, c)
    ensures Paired(a, b) && Known(a, gs, w.lo, -1) && OnlyIndices(gs0, gs, touched)
  {
    AllSettled(Inds(b), w.offset, bucketCount);
  }

  /** The loop over the places of one bucket. */
  method FillBucket(ps: array<Particle>, buff: array<Buff>, gs: array<Gpart>, lo: nat, offset: seq<int>,
        bucketCount0: seq<int>, bucket: int,
                    ghost w: Job<Particle>, ghost a0: seq<Particle>, ghost b0: seq<Buff>,
                    ghost gs0: seq<Gpart>, ghost touched: set<int>)
      returns (bucketCount: seq<int>, ghost a: seq<Particle>, ghost b: seq<Buff>)
    requires w.lo == lo && w.offset == offset && |offset| == 9 && |bucketCount0| == 8 && 0 <= bucket < 8
    requires Placed(w, ps[..], buff[..], a0, b0, -1) && Ordered(w, b0, bucketCount0)
    requires Filling(offset, bucketCount0, bucket, offset[bucket] + bucketCount0[bucket])
    requires Links(a0, b0, gs[..], gs0, touched, lo, -1)
    modifies ps, buff, gs
    ensures |bucketCount| == 8
    ensures Placed(w, ps[..], buff[..], a, b, -1) && Ordered(w, b, bucketCount)
    ensures Filling(offset, bucketCount, bucket + 1, if bucket < 7 then offset[bucket + 1] + bucketCount[bucket + 1]
      else 0)
    ensures Links(a, b, gs[..], gs0, touched, lo, -1)
  {
    hide *;
    a, b, bucketCount := a0, b0, bucketCount0;
    var k := offset[bucket] + bucketCount[bucket];
    Bounds(w, ps[..], buff[..], a, b, -1, bucketCount, bucket, k);
    while k < offset[bucket + 1]
      invariant 0 <= k <= offset[bucket + 1] <= w.count && |bucketCount| == 8
      invariant Placed(w, ps[..], buff[..], a, b, -1) && Ordered(w, b, bucketCount)
      invariant Filling(offset, bucketCount, bucket, k)
      invariant Links(a, b, gs[..], gs0, touched, lo, -1)
    {
      Bounds(w, ps[..], buff[..], a, b, -1, bucketCount, bucket, k);
      TakeInHand(w, ps[..], buff[..], a, b, bucketCount, k);
      var bid := buff[k].ind;
      if bid != bucket {
        bucketCount, a, b := Chain(ps, buff, gs, lo, offset, bucketCount, bucket, k, w, a, b, gs0, touched);
        bid := bucket;
      }
      Bounds(w, ps[..], buff[..], a, b, -1, bucketCount, bucket, k);
      SettleOne(w, b, bucketCount, bucket, k);
      bucketCount := bucketCount[bid := bucketCount[bid] + 1];
      k := k + 1;
    }
    NextBucket(w, b, bucketCount, bucket, k);
  }

  /** The loop over the buckets. */
  method FillBuckets(ps: array<Particle>, buff: array<Buff>, gs: array<Gpart>, lo: nat, offset: seq<int>,
                     ghost w: Job<Particle>, ghost a0: seq<Particle>, ghost b0: seq<Buff>,
                     ghost gs0: seq<Gpart>, ghost touched: set<int>)
      returns (bucketCount: seq<int>, ghost a: seq<Particle>, ghost b: seq<Buff>)
    requires w.lo == lo && w.offset == offset && |offset| == 9
    requires Placed(w, ps[..], buff[..], a0, b0, -1) && Ordered(w, b0, [0, 0, 0, 0, 0, 0, 0, 0])
    requires Links(a0, b0, gs[..], gs0, touched, lo, -1)
    modifies ps, buff, gs
    ensures Placed(w, ps[..], buff[..], a, b, -1) && Ordered(w, b, bucketCount) && Filling(offset, bucketCount, 8, 0)
    ensures Links(a, b, gs[..], gs0, touched, lo, -1)
  {
    hide *;
    a, b, bucketCount := a0, b0, [0, 0, 0, 0, 0, 0, 0, 0];
    Begin(w, b, bucketCount);
    for bucket := 0 to 8
      invariant |bucketCount| == 8
      invariant Placed(w, ps[..], buff[..], a, b, -1) && Ordered(w, b, bucketCount)
      invariant Filling(offset, bucketCount, bucket, if bucket < 8 then offset[bucket] + bucketCount[bucket] else 0)
      invariant Links(a, b, gs[..], gs0, touched, lo, -1)
    {
      bucketCount, a, b := FillBucket(ps, buff, gs, lo, offset, bucketCount, bucket, w, a, b, gs0, touched);
    }
  }

  method Prepare(ps: array<Particle>, buff: array<Buff>, lo: nat, count: nat, pivot: Vec, closed: bool,
        ghost gs: seq<Gpart>)
      returns (offset: seq<int>, ghost w: Job<Particle>, ghost a: seq<Particle>, ghost b: seq<Buff>)
    requires lo + count <= ps.Length && count <= buff.Length
    requires Paired(ps[lo..lo + count], buff[..count])
    requires NoSharing(ps[lo..lo + count]) && Known(ps[lo..lo + count], gs, lo, -1)
    modifies buff
    ensures |offset| == 9 && w == Job(lo, count, offset, pivot, closed, old(ps[..]), buff[..])
    ensures a == old(ps[lo..lo + count])
    ensures Placed(w, ps[..], buff[..], a, b, -1) && Ordered(w, b, [0, 0, 0, 0, 0, 0, 0, 0])
    ensures Links(a, b, gs, gs, GpartsOf(a), lo, -1)
  {
    hide *;
    a := ps[lo..lo + count];
    ghost var buff0 := buff[..];
    assert buff0[..count] == buff[..count];
    offset := Classify(buff, count, pivot, closed);
    b := buff[..count];
    assert b == buff[..][..count] && a == ps[..][lo..lo + count];
    StillPaired(a, buff0, buff[..], count);
    w := Job(lo, count, offset, pivot, closed, ps[..], buff[..]);
    SortStarts(w, ps[..], buff[..], gs, a, b, [0, 0, 0, 0, 0, 0, 0, 0]);
  }

  /** One phase of cell_split, for one kind of particle. */
  method SortParticles(ps: array<Particle>, buff: array<Buff>, gs: array<Gpart>, lo: nat, count: nat, pivot: Vec,
        closed: bool)
      returns (offset: seq<int>, bucketCount: seq<int>)
    requires lo + count <= ps.Length && count <= buff.Length
    requires Paired(ps[lo..lo + count], buff[..count])
    requires NoSharing(ps[lo..lo + count]) && Known(ps[lo..lo + count], gs[..], lo, -1)
    modifies ps, buff, gs
    ensures InOctants(PlacesOf(ps[lo..lo + count]), offset, pivot, closed)
    ensures |offset| == 9 && |bucketCount| == 8 && forall b :: 0 <= b < 8 ==> bucketCount[b] == Width(offset, b)
    ensures multiset(ps[lo..lo + count]) == multiset(old(ps[lo..lo + count]))
    ensures forall i :: 0 <= i < ps.Length && !(lo <= i < lo + count) ==> ps[i] == old(ps[i])
    ensures Paired(ps[lo..lo + count], buff[..count])
    ensures Known(ps[lo..lo + count], gs[..], lo, -1)
    ensures OnlyIndices(old(gs[..]), gs[..], old(GpartsOf(ps[lo..lo + count])))
  {
    hide *;
    ghost var ps0, gs0 := ps[..], gs[..];
    assert ps0[lo..lo + count] == ps[lo..lo + count];
    ghost var w, a, b;
    offset, w, a, b := Prepare(ps, buff, lo, count, pivot, closed, gs0);
    ghost var touched := GpartsOf(a);
    bucketCount, a, b := FillBuckets(ps, buff, gs, lo, offset, w, a, b, gs0, touched);
    SortEnds(w, ps[..], buff[..], gs[..], gs0, a, b, bucketCount, touched);
    assert ps[lo..lo + count] == a && buff[..count] == b;
    assert forall i :: 0 <= i < ps.Length && !(lo <= i < lo + count) ==> ps[..][i] == ps0[i];
  }

  lemma StillPaired(a: seq<Particle>, before: seq<Buff>, after: seq<Buff>, count: nat)
    requires |before| == |after| && count <= |before| && Paired(a, before[..count])
    requires forall i :: 0 <= i < |before| ==> after[i].x == before[i].x
    ensures Paired(a, after[..count])
  {
  }

  /** What a phase relies on follows from the links of the whole array. */
  lemma LinkedWindow(ps: seq<Particle>, gs: seq<Gpart>, lo: int, hi: int, k: Kind)
    requires PointsToGpart(ps, gs, k) && 0 <= lo <= hi <= |ps|
    ensures NoSharing(ps[lo..hi]) && Known(ps[lo..hi], gs, lo, -1)
  {
    var a := ps[lo..hi];
    forall i, j | 0 <= i < j < |a| && a[i].gpart != NULL ensures a[i].gpart != a[j].gpart {
      assert a[i] == ps[lo + i] && a[j] == ps[lo + j];
    }
    assert forall i :: 0 <= i < |a| ==> a[i] == ps[lo + i];
  }

  lemma Touched(ps: seq<Particle>, lo: int, hi: int, g: int) returns (i: int)
    requires 0 <= lo <= hi <= |ps| && g in GpartsOf(ps[lo..hi])
    ensures lo <= i < hi && ps[i].gpart == g && g != NULL
  {
    var j :| 0 <= j < hi - lo && ps[lo..hi][j].gpart != NULL && ps[lo..hi][j].gpart == g;
    i := lo + j;
  }

  /** The gpart of a particle outside the window is not told anything. */
  lemma NotTouched(ps: seq<Particle>, gs: seq<Gpart>, lo: int, hi: int, k: Kind, i: int)
    requires PointsToGpart(ps, gs, k) && 0 <= lo <= hi <= |ps|
    requires 0 <= i < |ps| && !(lo <= i < hi) && ps[i].gpart != NULL
    ensures ps[i].gpart !in GpartsOf(ps[lo..hi])
  {
    hide GpartsOf;
    if ps[i].gpart in GpartsOf(ps[lo..hi]) {
      var i0 := Touched(ps, lo, hi, ps[i].gpart);
    }
  }

  /** A phase keeps the links of its own kind, in both directions. */
  lemma PhaseKeepsLinks(ps0: seq<Particle>, ps: seq<Particle>, gs0: seq<Gpart>, gs: seq<Gpart>, lo: int, hi: int,
        k: Kind)
    requires Linked(ps0, gs0, k) && 0 <= lo <= hi <= |ps0| == |ps|
    requires multiset(ps[lo..hi]) == multiset(ps0[lo..hi])
    requires forall i :: 0 <= i < |ps| && !(lo <= i < hi) ==> ps[i] == ps0[i]
    requires Known(ps[lo..hi], gs, lo, -1) && OnlyIndices(gs0, gs, GpartsOf(ps0[lo..hi]))
    ensures Linked(ps, gs, k)
  {
    forall i | 0 <= i < |ps| && ps[i].gpart != NULL
      ensures 0 <= ps[i].gpart < |gs| && gs[ps[i].gpart].kind == k && gs[ps[i].gpart].idOrNegOffset == -i
    {
      ForwardKept(ps0, ps, gs0, gs, lo, hi, k, i);
    }
    forall g | 0 <= g < |gs| && gs[g].kind == k
      ensures 0 <= -gs[g].idOrNegOffset < |ps| && ps[-gs[g].idOrNegOffset].gpart == g
    {
      BackwardKept(ps0, ps, gs0, gs, lo, hi, k, g);
    }
  }

  lemma ForwardKept(ps0: seq<Particle>, ps: seq<Particle>, gs0: seq<Gpart>, gs: seq<Gpart>, lo: int, hi: int, k: Kind,
        i: int)
    requires PointsToGpart(ps0, gs0, k) && 0 <= lo <= hi <= |ps0| == |ps|
    requires multiset(ps[lo..hi]) == multiset(ps0[lo..hi])
    requires forall i :: 0 <= i < |ps| && !(lo <= i < hi) ==> ps[i] == ps0[i]
    requires Known(ps[lo..hi], gs, lo, -1) && OnlyIndices(gs0, gs, GpartsOf(ps0[lo..hi]))
    requires 0 <= i < |ps| && ps[i].gpart != NULL
    ensures 0 <= ps[i].gpart < |gs| && gs[ps[i].gpart].kind == k && gs[ps[i].gpart].idOrNegOffset == -i
  {
    hide GpartsOf;
    if lo <= i < hi {
      assert ps[lo..hi][i - lo] == ps[i];
      var i0 := Where(ps, ps0, lo, hi, i);
    } else {
      NotTouched(ps0, gs0, lo, hi, k, i);
    }
  }

  lemma BackwardKept(ps0: seq<Particle>, ps: seq<Particle>, gs0: seq<Gpart>, gs: seq<Gpart>, lo: int, hi: int, k: Kind,
        g: int)
    requires Linked(ps0, gs0, k) && 0 <= lo <= hi <= |ps0| == |ps|
    requires multiset(ps[lo..hi]) == multiset(ps0[lo..hi])
    requires forall i :: 0 <= i < |ps| && !(lo <= i < hi) ==> ps[i] == ps0[i]
    requires Known(ps[lo..hi], gs, lo, -1) && OnlyIndices(gs0, gs, GpartsOf(ps0[lo..hi]))
    requires 0 <= g < |gs| && gs[g].kind == k
    ensures 0 <= -gs[g].idOrNegOffset < |ps| && ps[-gs[g].idOrNegOffset].gpart == g
  {
    hide GpartsOf;
    assert gs0[g].kind == k;
    var p := -gs0[g].idOrNegOffset;
    assert 0 <= p < |ps0| && ps0[p].gpart == g;
    if lo <= p < hi {
      var i := Where(ps0, ps, lo, hi, p);
      assert ps[lo..hi][i - lo] == ps[i];
    } else {
      NotTouched(ps0, gs0, lo, hi, k, p);
    }
  }

  /** ... and does not touch the links of the other kinds. */
  lemma PhaseKeepsOthers(ps0: seq<Particle>, gs0: seq<Gpart>, gs: seq<Gpart>, lo: int, hi: int, k: Kind,
        others: seq<Particle>, other: Kind)
    requires PointsToGpart(ps0, gs0, k) && 0 <= lo <= hi <= |ps0| && other != k
    requires OnlyIndices(gs0, gs, GpartsOf(ps0[lo..hi])) && Linked(others, gs0, other)
    ensures Linked(others, gs, other)
  {
    hide GpartsOf;
    forall g | 0 <= g < |gs| && gs[g].kind == other ensures gs[g] == gs0[g] {
      if g in GpartsOf(ps0[lo..hi]) {
        var i0 := Touched(ps0, lo, hi, g);
      }
    }
  }
}
