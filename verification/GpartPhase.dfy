/**
 cell_split: the phase for gparts.  The gparts move, their partners are told the new place.
 */
module GpartPhase {
  import opened Particles
  import opened Buckets
  import opened Partition

  /** No two gparts have the same partner. */
  ghost predicate NoSharedPartner(c: seq<Gpart>) {
    forall i, j :: 0 <= i < j < |c| && HasPartner(c[i].kind) && c[i].kind == c[j].kind ==>
      c[i].idOrNegOffset != c[j].idOrNegOffset
  }

  ghost predicate KnownPlace(c: seq<Gpart>, all: Partners, base: int, hole: int) {
    forall i :: 0 <= i < |c| && HasPartner(c[i].kind) ==>
      && 0 <= -c[i].idOrNegOffset < |all.Of(c[i].kind)|
      && (i != hole ==> all.Of(c[i].kind)[-c[i].idOrNegOffset].gpart == base + i)
  }

  ghost function PartnersOf(c: seq<Gpart>): set<(Kind, int)> {
    set i | 0 <= i < |c| && HasPartner(c[i].kind) :: (c[i].kind, -c[i].idOrNegOffset)
  }

  /** Only pointers to gparts have changed, and only those of the partners in `touched`. */
  ghost predicate OnlyPointers(before: Partners, after: Partners, touched: set<(Kind, int)>) {
    forall k :: HasPartner(k) ==>
      && |before.Of(k)| == |after.Of(k)|
      && forall p :: 0 <= p < |after.Of(k)| ==>
        && after.Of(k)[p] == before.Of(k)[p].(gpart := after.Of(k)[p].gpart)
        && ((k, p) !in touched ==> after.Of(k)[p] == before.Of(k)[p])
  }

  ghost predicate PairedPlace(c: seq<Gpart>, b: seq<Buff>) {
    |c| == |b| && forall i :: 0 <= i < |c| ==> c[i].x == b[i].x
  }

  ghost predicate PlaceLinks(c: seq<Gpart>, b: seq<Buff>, all: Partners, all0: Partners, touched: set<(Kind, int)>,
        base: int, hole: int) {
    && PairedPlace(c, b)
    && NoSharedPartner(c)
    && PartnersOf(c) <= touched
    && KnownPlace(c, all, base, hole)
    && OnlyPointers(all0, all, touched)
  }

  lemma PointedAt(all: Partners, g: Gpart, i: int, k: Kind, p: int)
    requires HasPartner(k) && 0 <= p < |all.Of(k)|
    ensures |all.Pointed(g, i).Of(k)| == |all.Of(k)|
    ensures all.Pointed(g, i).Of(k)[p] ==
      if k == g.kind && p == -g.idOrNegOffset then all.Of(k)[p].(gpart := i) else all.Of(k)[p]
  {
  }

  lemma PointedPlace(c: seq<Gpart>, all: Partners, base: int, j: int, k: int)
    requires KnownPlace(c, all, base, k) && NoSharedPartner(c)
    requires 0 <= j < |c| && 0 <= k < |c|
    ensures KnownPlace(Swapped(c, j, k), all.Pointed(c[k], base + j), base, if j == k then -1 else k)
  {
    var c', all' := Swapped(c, j, k), all.Pointed(c[k], base + j);
    hide Partners.Of, Partners.Pointed, HasPartner;
    forall i | 0 <= i < |c'| && HasPartner(c'[i].kind)
      ensures 0 <= -c'[i].idOrNegOffset < |all'.Of(c'[i].kind)|
      ensures i != (if j == k then -1 else k) ==> all'.Of(c'[i].kind)[-c'[i].idOrNegOffset].gpart == base + i
    {
      PointedAt(all, c[k], base + j, c'[i].kind, -c'[i].idOrNegOffset);
    }
  }

  lemma PointedOnly(all: Partners, all0: Partners, touched: set<(Kind, int)>, g: Gpart, i: int)
    requires OnlyPointers(all0, all, touched)
    requires HasPartner(g.kind) ==> (g.kind, -g.idOrNegOffset) in touched
    ensures OnlyPointers(all0, all.Pointed(g, i), touched)
  {
    var all' := all.Pointed(g, i);
    forall k | HasPartner(k) ensures |all'.Of(k)| == |all0.Of(k)| {}
    hide Partners.Of, Partners.Pointed, HasPartner;
    forall k, p | HasPartner(k) && 0 <= p < |all'.Of(k)|
      ensures all'.Of(k)[p] == all0.Of(k)[p].(gpart := all'.Of(k)[p].gpart)
      ensures (k, p) !in touched ==> all'.Of(k)[p] == all0.Of(k)[p]
    {
      PointedAt(all, g, i, k, p);
    }
  }

  lemma SwappedPlaces(c: seq<Gpart>, b: seq<Buff>, touched: set<(Kind, int)>, j: int, k: int)
    requires PairedPlace(c, b) && NoSharedPartner(c) && PartnersOf(c) <= touched && 0 <= j < |c| == |b| && 0 <= k < |c|
    ensures PairedPlace(Swapped(c, j, k), Swapped(b, j, k)) && NoSharedPartner(Swapped(c, j, k))
    ensures PartnersOf(Swapped(c, j, k)) <= touched
  {
    hide HasPartner;
    var c' := Swapped(c, j, k);
    forall q | q in PartnersOf(c') ensures q in touched {
      var i :| 0 <= i < |c'| && HasPartner(c'[i].kind) && q == (c'[i].kind, -c'[i].idOrNegOffset);
      var i0 := if i == j then k else if i == k then j else i;
      assert c[i0] == c'[i];
      assert q in PartnersOf(c);
    }
  }

  lemma InHand(c: seq<Gpart>, b: seq<Buff>, all: Partners, all0: Partners, touched: set<(Kind, int)>, base: int, k: int)
    requires PlaceLinks(c, b, all, all0, touched, base, k) && 0 <= k < |c|
    ensures HasPartner(c[k].kind) ==> (c[k].kind, -c[k].idOrNegOffset) in touched
    ensures HasPartner(c[k].kind) ==> 0 <= -c[k].idOrNegOffset < |all.Of(c[k].kind)|
  {
    assert HasPartner(c[k].kind) ==> (c[k].kind, -c[k].idOrNegOffset) in PartnersOf(c);
  }

  lemma PlaceLinkStep(c: seq<Gpart>, b: seq<Buff>, all: Partners, all0: Partners, touched: set<(Kind, int)>, base: int,
        j: int, k: int)
    requires PlaceLinks(c, b, all, all0, touched, base, k)
    requires 0 <= j < |c| == |b| && 0 <= k < |c|
    ensures PlaceLinks(Swapped(c, j, k), Swapped(b, j, k), all.Pointed(c[k], base + j), all0, touched, base,
      if j == k then -1 else k)
    ensures HasPartner(c[k].kind) ==> 0 <= -c[k].idOrNegOffset < |all.Of(c[k].kind)|
  {
    InHand(c, b, all, all0, touched, base, k);
    hide OnlyPointers, KnownPlace, PairedPlace, PartnersOf, NoSharedPartner, Partners.Of, Partners.Pointed, HasPartner;
    SwappedPlaces(c, b, touched, j, k);
    PointedPlace(c, all, base, j, k);
    PointedOnly(all, all0, touched, c[k], base + j);
  }

  /** The gpart in hand goes back into the hole. */
  lemma PlaceLinkBack(c: seq<Gpart>, b: seq<Buff>, all: Partners, all0: Partners, touched: set<(Kind, int)>, base: int,
        k: int)
    requires PlaceLinks(c, b, all, all0, touched, base, k) && 0 <= k < |c|
    ensures PlaceLinks(c, b, all.Pointed(c[k], base + k), all0, touched, base, -1)
    ensures HasPartner(c[k].kind) ==> 0 <= -c[k].idOrNegOffset < |all.Of(c[k].kind)|
  {
    PlaceLinkStep(c, b, all, all0, touched, base, k, k);
    assert Swapped(c, k, k) == c && Swapped(b, k, k) == b;
  }

  /** The two swaps with place j, and the new place told to the partner. */
  method PutDown(gs: array<Gpart>, buff: array<Buff>, parts: array<Particle>, sparts: array<Particle>,
        sinks: array<Particle>, bparts: array<Particle>,
                 lo: nat, j: nat, gpart: Gpart, tempBuff: Buff)
      returns (gpart': Gpart, tempBuff': Buff)
    requires Apart(parts, sparts, sinks, bparts)
    requires lo + j < gs.Length && j < buff.Length
    requires HasPartner(gpart.kind) ==> 0 <= -gpart.idOrNegOffset < |View(parts, sparts, sinks, bparts).Of(gpart.kind)|
    modifies gs, buff, parts, sparts, sinks, bparts
    ensures gpart' == old(gs[lo + j]) && tempBuff' == old(buff[j])
    ensures gs[..] == old(gs[..])[lo + j := gpart] && buff[..] == old(buff[..])[j := tempBuff]
    ensures View(parts, sparts, sinks, bparts) == old(View(parts, sparts, sinks, bparts)).Pointed(gpart, lo + j)
  {
    ghost var before := View(parts, sparts, sinks, bparts);
    gpart', tempBuff' := gs[lo + j], buff[j];
    gs[lo + j], buff[j] := gpart, tempBuff;
    assert View(parts, sparts, sinks, bparts) == before;
    var p := -gpart.idOrNegOffset;
    if gpart.kind == GasKind {
      parts[p] := parts[p].(gpart := lo + j);
    } else if gpart.kind == StarKind {
      sparts[p] := sparts[p].(gpart := lo + j);
    } else if gpart.kind == SinkKind {
      sinks[p] := sinks[p].(gpart := lo + j);
    } else if gpart.kind == BlackHoleKind {
      bparts[p] := bparts[p].(gpart := lo + j);
    }
  }

  /** The chain of swaps that starts at place k: it ends with a gpart of this bucket in hand. */
  method Chain(gs: array<Gpart>, buff: array<Buff>, parts: array<Particle>, sparts: array<Particle>,
        sinks: array<Particle>, bparts: array<Particle>,
               lo: nat, offset: seq<int>, bucketCount0: seq<int>, bucket: int, k: nat,
               ghost w: Job<Gpart>, ghost c0: seq<Gpart>, ghost b0: seq<Buff>,
               ghost all0: Partners, ghost touched: set<(Kind, int)>)
      returns (bucketCount: seq<int>, ghost c: seq<Gpart>, ghost b: seq<Buff>)
    requires Apart(parts, sparts, sinks, bparts)
    requires w.lo == lo && w.offset == offset && 0 <= k < w.count
    requires Placed(w, gs[..], buff[..], c0, b0, -1) && Ordered(w, b0, bucketCount0)
    requires Filling(offset, bucketCount0, bucket, k) && bucket < 8 && In(offset, bucket, k) && b0[k].ind != bucket
    requires PlaceLinks(c0, b0, View(parts, sparts, sinks, bparts), all0, touched, lo, -1)
    modifies gs, buff, parts, sparts, sinks, bparts
    ensures Placed(w, gs[..], buff[..], c, b, -1) && Ordered(w, b, bucketCount)
    ensures Filling(offset, bucketCount, bucket, k) && b[k].ind == bucket
    ensures PlaceLinks(c, b, View(parts, sparts, sinks, bparts), all0, touched, lo, -1)
  {
    hide *;
    c, b, bucketCount := c0, b0, bucketCount0;
    Bounds(w, gs[..], buff[..], c, b, -1, bucketCount, bucket, k);
    TakeInHand(w, gs[..], buff[..], c, b, bucketCount, k);
    AnyHole(c, b, View(parts, sparts, sinks, bparts), all0, touched, lo, k);
    var gpart, tempBuff := gs[lo + k], buff[k];
    while tempBuff.ind != bucket
      invariant |c| == |b| == w.count && gpart == c[k] && tempBuff == b[k] && 0 <= b[k].ind < 8
      invariant Placed(w, gs[..], buff[..], c, b, k) && Ordered(w, b, bucketCount)
      invariant Filling(offset, bucketCount, bucket, k)
      invariant PlaceLinks(c, b, View(parts, sparts, sinks, bparts), all0, touched, lo, k)
      invariant |bucketCount| == 8
      decreases w.count - Total(bucketCount)
    {
      Bounds(w, gs[..], buff[..], c, b, k, bucketCount, bucket, k);
      ScanReady(w, gs[..], buff[..], c, b, bucketCount, bucket, k);
      var j, next := Scan(buff, offset, bucketCount, tempBuff.ind, Inds(b), k);
      OrderStep(w, b, bucketCount, next, bucket, k, j);
      PlaceStep(w, gs[..], buff[..], c, b, j, k);
      PlaceLinkStep(c, b, View(parts, sparts, sinks, bparts), all0, touched, lo, j, k);
      gpart, tempBuff := PutDown(gs, buff, parts, sparts, sinks, bparts, lo, j, gpart, tempBuff);
      c, b, bucketCount := Swapped(c, j, k), Swapped(b, j, k), next;
    }
    PutBack(w, gs[..], buff[..], c, b, k);
    PlaceLinkBack(c, b, View(parts, sparts, sinks, bparts), all0, touched, lo, k);
    Bounds(w, gs[..], buff[..], c, b, k, bucketCount, bucket, k);
    var _, _ := PutDown(gs, buff, parts, sparts, sinks, bparts, lo, k, gpart, tempBuff);
  }

  lemma AnyHole(c: seq<Gpart>, b: seq<Buff>, all: Partners, all0: Partners, touched: set<(Kind, int)>, base: int,
        k: int)
    requires PlaceLinks(c, b, all, all0, touched, base, -1)
    ensures PlaceLinks(c, b, all, all0, touched, base, k)
  {
  }

  /** The loop over the places of one bucket. */
  method FillBucket(gs: array<Gpart>, buff: array<Buff>, parts: array<Particle>, sparts: array<Particle>,
        sinks: array<Particle>, bparts: array<Particle>,
                    lo: nat, offset: seq<int>, bucketCount0: seq<int>, bucket: int,
                    ghost w: Job<Gpart>, ghost c0: seq<Gpart>, ghost b0: seq<Buff>,
                    ghost all0: Partners, ghost touched: set<(Kind, int)>)
      returns (bucketCount: seq<int>, ghost c: seq<Gpart>, ghost b: seq<Buff>)
    requires Apart(parts, sparts, sinks, bparts)
    requires w.lo == lo && w.offset == offset && |offset| == 9 && |bucketCount0| == 8 && 0 <= bucket < 8
    requires Placed(w, gs[..], buff[..], c0, b0, -1) && Ordered(w, b0, bucketCount0)
    requires Filling(offset, bucketCount0, bucket, offset[bucket] + bucketCount0[bucket])
    requires PlaceLinks(c0, b0, View(parts, sparts, sinks, bparts), all0, touched, lo, -1)
    modifies gs, buff, parts, sparts, sinks, bparts
    ensures |bucketCount| == 8
    ensures Placed(w, gs[..], buff[..], c, b, -1) && Ordered(w, b, bucketCount)
    ensures Filling(offset, bucketCount, bucket + 1, if bucket < 7 then offset[bucket + 1] + bucketCount[bucket + 1]
      else 0)
    ensures PlaceLinks(c, b, View(parts, sparts, sinks, bparts), all0, touched, lo, -1)
  {
    hide *;
    c, b, bucketCount := c0, b0, bucketCount0;
    var k := offset[bucket] + bucketCount[bucket];
    Bounds(w, gs[..], buff[..], c, b, -1, bucketCount, bucket, k);
    while k < offset[bucket + 1]
      invariant 0 <= k <= offset[bucket + 1] <= w.count && |bucketCount| == 8
      invariant Placed(w, gs[..], buff[..], c, b, -1) && Ordered(w, b, bucketCount)
      invariant Filling(offset, bucketCount, bucket, k)
      invariant PlaceLinks(c, b, View(parts, sparts, sinks, bparts), all0, touched, lo, -1)
    {
      Bounds(w, gs[..], buff[..], c, b, -1, bucketCount, bucket, k);
      TakeInHand(w, gs[..], buff[..], c, b, bucketCount, k);
      var bid := buff[k].ind;
      if bid != bucket {
        bucketCount, c, b := Chain(gs, buff, parts, sparts, sinks, bparts, lo, offset, bucketCount, bucket, k, w, c, b,
          all0, touched);
        bid := bucket;
      }
      Bounds(w, gs[..], buff[..], c, b, -1, bucketCount, bucket, k);
      SettleOne(w, b, bucketCount, bucket, k);
      bucketCount := bucketCount[bid := bucketCount[bid] + 1];
      k := k + 1;
    }
    NextBucket(w, b, bucketCount, bucket, k);
  }

  /** The loop over the buckets. */
  method FillBuckets(gs: array<Gpart>, buff: array<Buff>, parts: array<Particle>, sparts: array<Particle>,
        sinks: array<Particle>, bparts: array<Particle>,
                     lo: nat, offset: seq<int>,
                     ghost w: Job<Gpart>, ghost c0: seq<Gpart>, ghost b0: seq<Buff>,
                     ghost all0: Partners, ghost touched: set<(Kind, int)>)
      returns (bucketCount: seq<int>, ghost c: seq<Gpart>, ghost b: seq<Buff>)
    requires Apart(parts, sparts, sinks, bparts)
    requires w.lo == lo && w.offset == offset && |offset| == 9
    requires Placed(w, gs[..], buff[..], c0, b0, -1) && Ordered(w, b0, [0, 0, 0, 0, 0, 0, 0, 0])
    requires PlaceLinks(c0, b0, View(parts, sparts, sinks, bparts), all0, touched, lo, -1)
    modifies gs, buff, parts, sparts, sinks, bparts
    ensures Placed(w, gs[..], buff[..], c, b, -1) && Ordered(w, b, bucketCount) && Filling(offset, bucketCount, 8, 0)
    ensures PlaceLinks(c, b, View(parts, sparts, sinks, bparts), all0, touched, lo, -1)
  {
    hide *;
    c, b, bucketCount := c0, b0, [0, 0, 0, 0, 0, 0, 0, 0];
    Begin(w, b, bucketCount);
    for bucket := 0 to 8
      invariant |bucketCount| == 8
      invariant Placed(w, gs[..], buff[..], c, b, -1) && Ordered(w, b, bucketCount)
      invariant Filling(offset, bucketCount, bucket, if bucket < 8 then offset[bucket] + bucketCount[bucket] else 0)
      invariant PlaceLinks(c, b, View(parts, sparts, sinks, bparts), all0, touched, lo, -1)
    {
      bucketCount, c, b := FillBucket(gs, buff, parts, sparts, sinks, bparts, lo, offset, bucketCount, bucket, w, c, b,
        all0, touched);
    }
  }

  ghost function PlacesOf(c: seq<Gpart>): (r: seq<Vec>)
    ensures |r| == |c| && forall i :: 0 <= i < |c| ==> r[i] == c[i].x
  {
    seq(|c|, i requires 0 <= i < |c| => c[i].x)
  }

  lemma SortStarts(w: Job<Gpart>, gs: seq<Gpart>, buff: seq<Buff>, all: Partners, c: seq<Gpart>, b: seq<Buff>,
        zeros: seq<int>)
    requires 0 <= w.lo && 0 <= w.count && w.elems0 == gs && w.buff0 == buff && w.lo + w.count <= |gs|
    requires w.count <= |buff|
    requires c == gs[w.lo..w.lo + w.count] && b == buff[..w.count] && zeros == [0, 0, 0, 0, 0, 0, 0, 0]
    requires PairedPlace(c, b) && NoSharedPartner(c) && KnownPlace(c, all, w.lo, -1) && Classified(b, w.pivot, w.closed)
    requires Layout(Inds(b), w.offset)
    ensures Placed(w, gs, buff, c, b, -1) && Ordered(w, b, zeros)
    ensures PlaceLinks(c, b, all, all, PartnersOf(c), w.lo, -1)
  {
    assert forall o, i :: !InPrefix(w.offset, zeros, o, i);
    forall o | 0 <= o < 8 ensures 0 <= zeros[o] <= Width(w.offset, o) {
      OffsetsOrdered(Inds(b), w.offset, o, o + 1);
    }
  }

  lemma SortEnds(w: Job<Gpart>, gs: seq<Gpart>, buff: seq<Buff>, all: Partners, all0: Partners,
                 c: seq<Gpart>, b: seq<Buff>, bucketCount: seq<int>, touched: set<(Kind, int)>)
    requires Placed(w, gs, buff, c, b, -1) && Ordered(w, b, bucketCount) && Filling(w.offset, bucketCount, 8, 0)
    requires PlaceLinks(c, b, all, all0, touched, w.lo, -1)
    ensures 0 <= w.lo && 0 <= w.count && w.lo + w.count <= |gs| && w.count <= |buff| && |gs| == |w.elems0|
    ensures gs[w.lo..w.lo + w.count] == c && buff[..w.count] == b
    ensures multiset(c) == multiset(w.elems0[w.lo..w.lo + w.count])
    ensures forall i :: 0 <= i < |gs| && !(w.lo <= i < w.lo + w.count) ==> gs[i] == w.elems0[i]
    ensures InOctants(PlacesOf(c), w.offset, w.pivot, w.closed)
    ensures |w.offset| == 9 && |bucketCount| == 8 && forall o :: 0 <= o < 8 ==> bucketCount[o] == Width(w.offset, o)
    ensures PairedPlace(c, b) && KnownPlace(c, all, w.lo, -1) && OnlyPointers(all0, all, touched)
  {
    AllSettled(Inds(b), w.offset, bucketCount);
  }

  lemma StillPaired(c: seq<Gpart>, before: seq<Buff>, after: seq<Buff>, count: nat)
    requires |before| == |after| && count <= |before| && PairedPlace(c, before[..count])
    requires forall i :: 0 <= i < |before| ==> after[i].x == before[i].x
    ensures PairedPlace(c, after[..count])
  {
  }

  method Prepare(gs: array<Gpart>, buff: array<Buff>, lo: nat, count: nat, pivot: Vec, ghost all: Partners)
      returns (offset: seq<int>, ghost w: Job<Gpart>, ghost c: seq<Gpart>, ghost b: seq<Buff>)
    requires lo + count <= gs.Length && count <= buff.Length
    requires PairedPlace(gs[lo..lo + count], buff[..count])
    requires NoSharedPartner(gs[lo..lo + count]) && KnownPlace(gs[lo..lo + count], all, lo, -1)
    modifies buff
    ensures |offset| == 9 && w == Job(lo, count, offset, pivot, false, old(gs[..]), buff[..])
    ensures c == old(gs[lo..lo + count])
    ensures Placed(w, gs[..], buff[..], c, b, -1) && Ordered(w, b, [0, 0, 0, 0, 0, 0, 0, 0])
    ensures PlaceLinks(c, b, all, all, PartnersOf(c), lo, -1)
  {
    hide *;
    c := gs[lo..lo + count];
    ghost var buff0 := buff[..];
    assert buff0[..count] == buff[..count];
    offset := Classify(buff, count, pivot, false);
    b := buff[..count];
    assert b == buff[..][..count] && c == gs[..][lo..lo + count];
    StillPaired(c, buff0, buff[..], count);
    w := Job(lo, count, offset, pivot, false, gs[..], buff[..]);
    SortStarts(w, gs[..], buff[..], all, c, b, [0, 0, 0, 0, 0, 0, 0, 0]);
  }

  /** The last phase of cell_split. */
  method SortGparts(gs: array<Gpart>, buff: array<Buff>, parts: array<Particle>, sparts: array<Particle>,
        sinks: array<Particle>, bparts: array<Particle>,
                    lo: nat, count: nat, pivot: Vec)
      returns (offset: seq<int>, bucketCount: seq<int>)
    requires Apart(parts, sparts, sinks, bparts)
    requires lo + count <= gs.Length && count <= buff.Length
    requires PairedPlace(gs[lo..lo + count], buff[..count])
    requires NoSharedPartner(gs[lo..lo + count])
    requires KnownPlace(gs[lo..lo + count], View(parts, sparts, sinks, bparts), lo, -1)
    modifies gs, buff, parts, sparts, sinks, bparts
    ensures InOctants(PlacesOf(gs[lo..lo + count]), offset, pivot, false)
    ensures |offset| == 9 && |bucketCount| == 8 && forall b :: 0 <= b < 8 ==> bucketCount[b] == Width(offset, b)
    ensures multiset(gs[lo..lo + count]) == multiset(old(gs[lo..lo + count]))
    ensures forall i :: 0 <= i < gs.Length && !(lo <= i < lo + count) ==> gs[i] == old(gs[i])
    ensures PairedPlace(gs[lo..lo + count], buff[..count])
    ensures KnownPlace(gs[lo..lo + count], View(parts, sparts, sinks, bparts), lo, -1)
    ensures OnlyPointers(old(View(parts, sparts, sinks, bparts)), View(parts, sparts, sinks, bparts),
      old(PartnersOf(gs[lo..lo + count])))
  {
    hide *;
    ghost var all0, gs0 := View(parts, sparts, sinks, bparts), gs[..];
    assert gs0[lo..lo + count] == gs[lo..lo + count];
    ghost var w, c, b;
    offset, w, c, b := Prepare(gs, buff, lo, count, pivot, all0);
    ghost var touched := PartnersOf(c);
    bucketCount, c, b := FillBuckets(gs, buff, parts, sparts, sinks, bparts, lo, offset, w, c, b, all0, touched);
    SortEnds(w, gs[..], buff[..], View(parts, sparts, sinks, bparts), all0, c, b, bucketCount, touched);
    assert gs[lo..lo + count] == c && buff[..count] == b;
    assert forall i :: 0 <= i < gs.Length && !(lo <= i < lo + count) ==> gs[..][i] == gs0[i];
  }

  lemma LinkedPlaces(gs: seq<Gpart>, all: Partners, lo: int, hi: int)
    requires 0 <= lo <= hi <= |gs| && forall k :: HasPartner(k) ==> PointsToParticle(all.Of(k), gs, k)
    ensures NoSharedPartner(gs[lo..hi]) && KnownPlace(gs[lo..hi], all, lo, -1)
  {
    hide Partners.Of, HasPartner;
    var c := gs[lo..hi];
    assert forall i :: 0 <= i < |c| ==> c[i] == gs[lo + i];
    forall i | 0 <= i < |c| && HasPartner(c[i].kind)
      ensures 0 <= -c[i].idOrNegOffset < |all.Of(c[i].kind)| && all.Of(c[i].kind)[-c[i].idOrNegOffset].gpart == lo + i
    {
      assert PointsToParticle(all.Of(c[i].kind), gs, c[i].kind);
      assert gs[lo + i].kind == c[i].kind;
    }
  }

  lemma Touched(gs: seq<Gpart>, lo: int, hi: int, k: Kind, p: int) returns (g: int)
    requires 0 <= lo <= hi <= |gs| && (k, p) in PartnersOf(gs[lo..hi])
    ensures lo <= g < hi && gs[g].kind == k && -gs[g].idOrNegOffset == p
  {
    var c := gs[lo..hi];
    var i :| 0 <= i < |c| && HasPartner(c[i].kind) && (c[i].kind, -c[i].idOrNegOffset) == (k, p);
    g := lo + i;
  }

  /** The phase keeps the links of every kind, in both directions. */
  lemma PhaseKeepsLinks(gs0: seq<Gpart>, gs: seq<Gpart>, all0: Partners, all: Partners, lo: int, hi: int, k: Kind)
    requires HasPartner(k) && Linked(all0.Of(k), gs0, k) && 0 <= lo <= hi <= |gs0| == |gs|
    requires multiset(gs[lo..hi]) == multiset(gs0[lo..hi])
    requires forall i :: 0 <= i < |gs| && !(lo <= i < hi) ==> gs[i] == gs0[i]
    requires KnownPlace(gs[lo..hi], all, lo, -1) && OnlyPointers(all0, all, PartnersOf(gs0[lo..hi]))
    ensures Linked(all.Of(k), gs, k)
  {
    var ps := all.Of(k);
    forall p | 0 <= p < |ps| && ps[p].gpart != NULL
      ensures 0 <= ps[p].gpart < |gs| && gs[ps[p].gpart].kind == k && gs[ps[p].gpart].idOrNegOffset == -p
    {
      ForwardKept(gs0, gs, all0, all, lo, hi, k, p);
    }
    forall g | 0 <= g < |gs| && gs[g].kind == k
      ensures 0 <= -gs[g].idOrNegOffset < |ps| && ps[-gs[g].idOrNegOffset].gpart == g
    {
      BackwardKept(gs0, gs, all0, all, lo, hi, k, g);
    }
  }

  lemma ForwardKept(gs0: seq<Gpart>, gs: seq<Gpart>, all0: Partners, all: Partners, lo: int, hi: int, k: Kind, p: int)
    requires HasPartner(k) && Linked(all0.Of(k), gs0, k) && 0 <= lo <= hi <= |gs0| == |gs|
    requires multiset(gs[lo..hi]) == multiset(gs0[lo..hi])
    requires forall i :: 0 <= i < |gs| && !(lo <= i < hi) ==> gs[i] == gs0[i]
    requires KnownPlace(gs[lo..hi], all, lo, -1) && OnlyPointers(all0, all, PartnersOf(gs0[lo..hi]))
    requires 0 <= p < |all.Of(k)| && all.Of(k)[p].gpart != NULL
    ensures var g := all.Of(k)[p].gpart; 0 <= g < |gs| && gs[g].kind == k && gs[g].idOrNegOffset == -p
  {
    hide PartnersOf, Partners.Of, HasPartner;
    if (k, p) in PartnersOf(gs0[lo..hi]) {
      var g0 := Touched(gs0, lo, hi, k, p);
      var g := Where(gs0, gs, lo, hi, g0);
      assert gs[lo..hi][g - lo] == gs[g];
    } else {
      var g := all.Of(k)[p].gpart;
      assert all.Of(k)[p] == all0.Of(k)[p];
      assert 0 <= g < |gs0| && gs0[g].kind == k && gs0[g].idOrNegOffset == -p;
      if lo <= g < hi { IsTouched(gs0, lo, hi, k, p, g); }
    }
  }

  lemma IsTouched(gs: seq<Gpart>, lo: int, hi: int, k: Kind, p: int, g: int)
    requires HasPartner(k) && 0 <= lo <= g < hi <= |gs| && gs[g].kind == k && gs[g].idOrNegOffset == -p
    ensures (k, p) in PartnersOf(gs[lo..hi])
  {
    assert gs[lo..hi][g - lo] == gs[g];
  }

  lemma BackwardKept(gs0: seq<Gpart>, gs: seq<Gpart>, all0: Partners, all: Partners, lo: int, hi: int, k: Kind, g: int)
    requires HasPartner(k) && Linked(all0.Of(k), gs0, k) && 0 <= lo <= hi <= |gs0| == |gs|
    requires forall i :: 0 <= i < |gs| && !(lo <= i < hi) ==> gs[i] == gs0[i]
    requires KnownPlace(gs[lo..hi], all, lo, -1) && OnlyPointers(all0, all, PartnersOf(gs0[lo..hi]))
    requires 0 <= g < |gs| && gs[g].kind == k
    ensures 0 <= -gs[g].idOrNegOffset < |all.Of(k)| && all.Of(k)[-gs[g].idOrNegOffset].gpart == g
  {
    hide PartnersOf, Partners.Of, HasPartner;
    if lo <= g < hi {
      assert gs[lo..hi][g - lo] == gs[g];
    } else {
      var p := -gs[g].idOrNegOffset;
      assert gs0[g] == gs[g];
      if (k, p) in PartnersOf(gs0[lo..hi]) {
        var g0 := Touched(gs0, lo, hi, k, p);
      }
    }
  }
}
