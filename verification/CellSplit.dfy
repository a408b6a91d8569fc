/**
 cell_split: the five phases one after the other, and the windows of the progeny.
 */
module CellSplit {
  import opened Octree
  import opened Particles
  import opened SpaceData
  import opened Buckets
  import opened Partition
  import ParticlePhase
  import GpartPhase

  // ----- permutations -----

  ghost function Map<T, U>(f: T -> U, s: seq<T>): (r: seq<U>)
    ensures |r| == |s| && forall i :: 0 <= i < |s| ==> r[i] == f(s[i])
  {
    seq(|s|, i requires 0 <= i < |s| => f(s[i]))
  }

  function Without<T>(s: seq<T>, j: int): seq<T>
    requires 0 <= j < |s|
  {
    s[..j] + s[j + 1..]
  }

  lemma WithoutOne<T>(s: seq<T>, j: int)
    requires 0 <= j < |s|
    ensures |Without(s, j)| == |s| - 1
    ensures multiset(s) == multiset(Without(s, j)) + multiset{s[j]}
    ensures multiset(Without(s, j)) == multiset(s) - multiset{s[j]}
  {
    assert s == s[..j] + [s[j]] + s[j + 1..];
  }

  lemma MapWithoutOne<T, U>(f: T -> U, s: seq<T>, j: int)
    requires 0 <= j < |s|
    ensures multiset(Map(f, s)) == multiset(Map(f, Without(s, j))) + multiset{f(s[j])}
  {
    assert Map(f, Without(s, j)) == Without(Map(f, s), j);
    WithoutOne(Map(f, s), j);
  }

  lemma {:induction false} MapKeepsMultiset<T, U>(f: T -> U, s: seq<T>, t: seq<T>)
    requires multiset(s) == multiset(t)
    ensures multiset(Map(f, s)) == multiset(Map(f, t))
  {
    assert |s| == |multiset(s)| == |multiset(t)| == |t|;
    if s != [] {
      assert s[0] in multiset(t);
      var j :| 0 <= j < |t| && t[j] == s[0];
      WithoutOne(s, 0);
      WithoutOne(t, j);
      MapWithoutOne(f, s, 0);
      MapWithoutOne(f, t, j);
      hide Map, Without;
      var s', t' := Without(s, 0), Without(t, j);
      assert multiset(s') == multiset(t') && |s'| < |s|;
      MapKeepsMultiset(f, s', t');
    }
  }

  // ----- what a phase leaves of the particles and of who belongs to whom -----

  /** What the window holds is the same, in another order; what is outside has not moved. */
  ghost predicate Kept<T>(before: seq<T>, after: seq<T>, lo: int, hi: int) {
    && |before| == |after| && 0 <= lo <= hi <= |after|
    && multiset(after[lo..hi]) == multiset(before[lo..hi])
    && forall i :: 0 <= i < |after| && !(lo <= i < hi) ==> after[i] == before[i]
  }

  lemma KeptTwice<T>(a: seq<T>, b: seq<T>, c: seq<T>, lo: int, hi: int)
    requires Kept(a, b, lo, hi) && Kept(b, c, lo, hi)
    ensures Kept(a, c, lo, hi)
  {
  }

  lemma BareSame(ps: seq<Particle>, gs0: seq<Gpart>, gs: seq<Gpart>, lo: int, hi: int, k: Kind)
    requires HasPartner(k) && PointsToGpart(ps, gs0, k) && 0 <= lo <= hi <= |ps|
    requires ParticlePhase.OnlyIndices(gs0, gs, ParticlePhase.GpartsOf(ps[lo..hi]))
    ensures BareGparts(gs) == BareGparts(gs0)
  {
    hide ParticlePhase.GpartsOf;
    forall g | 0 <= g < |gs| ensures BareGpart(gs[g]) == BareGpart(gs0[g]) {
      if g in ParticlePhase.GpartsOf(ps[lo..hi]) {
        var i := ParticlePhase.Touched(ps, lo, hi, g);
        assert gs0[g].kind == k;
      }
    }
  }

  lemma SameCouple(p: Particle, gs0: seq<Gpart>, gs: seq<Gpart>)
    requires BareGparts(gs) == BareGparts(gs0)
    ensures CoupleOf(p, gs) == CoupleOf(p, gs0)
  {
    if 0 <= p.gpart < |gs| {
      assert BareGparts(gs)[p.gpart] == BareGparts(gs0)[p.gpart];
    }
    assert |BareGparts(gs)| == |BareGparts(gs0)|;
  }

  lemma SameCouples(ps: seq<Particle>, gs0: seq<Gpart>, gs: seq<Gpart>)
    requires BareGparts(gs) == BareGparts(gs0)
    ensures Couples(ps, gs) == Couples(ps, gs0)
  {
    forall i | 0 <= i < |ps| ensures CoupleOf(ps[i], gs) == CoupleOf(ps[i], gs0) { SameCouple(ps[i], gs0, gs); }
  }

  lemma ParticlesKept(ps0: seq<Particle>, ps: seq<Particle>, gs: seq<Gpart>, lo: int, hi: int)
    requires 0 <= lo <= hi <= |ps0| == |ps| && multiset(ps[lo..hi]) == multiset(ps0[lo..hi])
    requires forall i :: 0 <= i < |ps| && !(lo <= i < hi) ==> ps[i] == ps0[i]
    ensures Kept(Couples(ps0, gs), Couples(ps, gs), lo, hi)
  {
    var f := (p: Particle) => CoupleOf(p, gs);
    MapKeepsMultiset(f, ps[lo..hi], ps0[lo..hi]);
    assert Couples(ps, gs)[lo..hi] == Map(f, ps[lo..hi]);
    assert Couples(ps0, gs)[lo..hi] == Map(f, ps0[lo..hi]);
  }

  /** Moving the gparts about does not change who belongs to whom. */
  lemma GpartsKeepCouples(gs0: seq<Gpart>, gs: seq<Gpart>, all0: Partners, all: Partners, lo: int, hi: int, k: Kind)
    requires HasPartner(k) && Linked(all0.Of(k), gs0, k) && 0 <= lo <= hi <= |gs0| == |gs|
    requires multiset(gs[lo..hi]) == multiset(gs0[lo..hi])
    requires forall i :: 0 <= i < |gs| && !(lo <= i < hi) ==> gs[i] == gs0[i]
    requires GpartPhase.KnownPlace(gs[lo..hi], all, lo, -1)
    requires GpartPhase.OnlyPointers(all0, all, GpartPhase.PartnersOf(gs0[lo..hi]))
    ensures Couples(all.Of(k), gs) == Couples(all0.Of(k), gs0)
  {
    forall p | 0 <= p < |all.Of(k)| ensures CoupleOf(all.Of(k)[p], gs) == CoupleOf(all0.Of(k)[p], gs0) {
      GpartsKeepCouple(gs0, gs, all0, all, lo, hi, k, p);
    }
  }

  lemma GpartsKeepCouple(gs0: seq<Gpart>, gs: seq<Gpart>, all0: Partners, all: Partners, lo: int, hi: int, k: Kind,
        p: int)
    requires HasPartner(k) && Linked(all0.Of(k), gs0, k) && 0 <= lo <= hi <= |gs0| == |gs|
    requires multiset(gs[lo..hi]) == multiset(gs0[lo..hi])
    requires forall i :: 0 <= i < |gs| && !(lo <= i < hi) ==> gs[i] == gs0[i]
    requires GpartPhase.KnownPlace(gs[lo..hi], all, lo, -1)
    requires GpartPhase.OnlyPointers(all0, all, GpartPhase.PartnersOf(gs0[lo..hi]))
    requires 0 <= p < |all.Of(k)|
    ensures |all0.Of(k)| == |all.Of(k)| && CoupleOf(all.Of(k)[p], gs) == CoupleOf(all0.Of(k)[p], gs0)
  {
    hide GpartPhase.PartnersOf, Partners.Of, HasPartner;
    if (k, p) in GpartPhase.PartnersOf(gs0[lo..hi]) {
      var g0 := GpartPhase.Touched(gs0, lo, hi, k, p);
      assert all0.Of(k)[p].gpart == g0;
      var g := Where(gs0, gs, lo, hi, g0);
      assert gs[lo..hi][g - lo] == gs[g];
      assert all.Of(k)[p].gpart == g;
    } else {
      var g := all0.Of(k)[p].gpart;
      assert all.Of(k)[p] == all0.Of(k)[p];
      if g != NULL && lo <= g < hi {
        GpartPhase.IsTouched(gs0, lo, hi, k, p, g);
      }
    }
  }

  // ----- the windows of the progeny -----

  /** All eight progeny are there. */
  ghost predicate Full(c: Cell) {
    |c.progeny| == 8 && c.split && forall k :: 0 <= k < 8 ==> c.progeny[k] != null
  }

  ghost function KidRecords(c: Cell): (r: seq<Windows>)
    requires Full(c)
    reads c.Kids()`windows
    ensures |r| == 8 && forall k :: 0 <= k < 8 ==> r[k] == c.progeny[k].windows
  {
    var p := c.progeny;
    [p[0].windows, p[1].windows, p[2].windows, p[3].windows, p[4].windows, p[5].windows, p[6].windows, p[7].windows]
  }

  /** The records after the windows of species `s` have been set. */
  ghost function Stored(before: seq<Windows>, s: Species, want: seq<Window>): (r: seq<Windows>)
    requires |before| == |want|
    ensures |r| == |before| && forall k :: 0 <= k < |r| ==> r[k] == WithWindow(before[k], s, want[k])
  {
    seq(|before|, k requires 0 <= k < |before| => WithWindow(before[k], s, want[k]))
  }

  /** The windows that go with the buckets of a cell whose own window begins at `start`. */
  ghost function BucketWindows(start: int, offset: seq<int>): (r: seq<Window>)
    requires |offset| == 9 && forall b :: 0 <= b < 8 ==> 0 <= Width(offset, b)
    ensures |r| == 8 && forall k :: 0 <= k < 8 ==> r[k] == Window(start + offset[k], Width(offset, k), Width(offset, k))
  {
    seq(8, k requires 0 <= k < 8 => Window(start + offset[k], Width(offset, k), Width(offset, k)))
  }

  lemma KidsApart(c: Cell)
    requires c.WellFormed() && Full(c)
    ensures forall j, k :: 0 <= j < 8 && 0 <= k < 8 && j != k ==> c.progeny[j] != c.progeny[k]
    ensures forall k :: 0 <= k < 8 ==> c.progeny[k] != c
  {
    hide Cell.WellFormed;
    KidsProper(c);
    KidsDisjoint(c);
    forall j, k | 0 <= j < 8 && 0 <= k < 8 && j != k ensures c.progeny[j] != c.progeny[k] {
      SubtreeNested(c.progeny[j], c.progeny[j]) by { KidsProper(c.progeny[j]); }
    }
  }

  /** The loop that stores counts and offsets. */
  method StoreKids(c: Cell, s: Species, offset: seq<int>, bucketCount: seq<int>)
    requires c.WellFormed() && Full(c) && |offset| == 9 && |bucketCount| == 8
    requires forall b :: 0 <= b < 8 ==> 0 <= bucketCount[b] == Width(offset, b)
    modifies c.Kids()`windows
    ensures KidRecords(c) == Stored(old(KidRecords(c)), s, BucketWindows(c.Win(s).start, offset))
    ensures c.windows == old(c.windows)
  {
    hide BucketWindows, Cell.WellFormed, Cell.Win, KidRecords, Stored, Width, WithWindow;
    KidsApart(c);
    assert |c.progeny| == 8 && forall k :: 0 <= k < 8 ==> c.progeny[k] != null && c.progeny[k] in c.Kids();
    ghost var before, start := KidRecords(c), c.Win(s).start;
    ghost var want := BucketWindows(start, offset);
    for k := 0 to 8
      invariant forall j :: 0 <= j < k ==> c.progeny[j].windows == WithWindow(before[j], s, want[j])
      invariant forall j :: k <= j < 8 ==> c.progeny[j].windows == before[j]
      invariant c.windows == old(c.windows)
    {
      var w := Window(c.Win(s).start + offset[k], bucketCount[k], bucketCount[k]);
      c.progeny[k].windows := WithWindow(c.progeny[k].windows, s, w);
    }
  }

  /** The window `w` holds particles of octant `b` only, and has no room to spare. */
  ghost predicate Holds(w: Window, xs: seq<Vec>, b: int, pivot: Vec, closed: bool) {
    w.total == w.count && forall i :: w.start <= i < w.start + w.count ==>
      0 <= i < |xs| && Octant(xs[i], pivot, closed) == b
  }

  /** Octant k lies in the window of progeny k, and the eight windows tile the window of the cell. */
  ghost predicate SplitUp(c: Cell, s: Species, xs: seq<Vec>, pivot: Vec)
    requires Full(c)
    reads c`windows, c.Kids()`windows
  {
    c.KidsTile(s) && forall k :: 0 <= k < 8 ==> Holds(c.progeny[k].Win(s), xs, k, pivot, s == Gas)
  }

  ghost predicate KidsStored(kids: seq<Windows>, s: Species, want: seq<Window>) {
    |kids| == |want| && forall k :: 0 <= k < |kids| ==> WindowOf(kids[k], s) == want[k]
  }

  lemma StoredOnes(before: seq<Windows>, s: Species, want: seq<Window>)
    requires |before| == |want|
    ensures KidsStored(Stored(before, s, want), s, want)
  {
  }

  lemma StoredOthers(before: seq<Windows>, s: Species, want: seq<Window>, o: Species, want': seq<Window>)
    requires |before| == |want| && o != s && KidsStored(before, o, want')
    ensures KidsStored(Stored(before, s, want), o, want')
  {
  }

  lemma KidStartAt(c: Cell, s: Species, offset: seq<int>, k: nat)
    requires Full(c) && |offset| == 9 && offset[0] == 0 && k <= 8
    requires forall b :: 0 <= b < 8 ==> 0 <= Width(offset, b)
    requires KidsStored(KidRecords(c), s, BucketWindows(c.Win(s).start, offset))
    ensures c.KidStart(s, k) == c.Win(s).start + offset[k]
  {
    if k > 0 {
      KidStartAt(c, s, offset, k - 1);
      assert c.progeny[k - 1].windows == KidRecords(c)[k - 1];
    }
  }

  lemma BucketHolds(start: int, end: int, xs: seq<Vec>, pivot: Vec, closed: bool, offset: seq<int>, k: int)
    requires 0 <= start <= end <= |xs| && InOctants(xs[start..end], offset, pivot, closed) && |offset| == 9
    requires 0 <= k < 8
    ensures Holds(BucketWindows(start, offset)[k], xs, k, pivot, closed)
  {
    hide Octant;
    var w := BucketWindows(start, offset)[k];
    forall i | w.start <= i < w.start + w.count ensures 0 <= i < |xs| && Octant(xs[i], pivot, closed) == k {
      assert In(offset, k, i - start);
      assert xs[start..end][i - start] == xs[i];
    }
  }

  lemma BucketsSplitUp(c: Cell, s: Species, xs: seq<Vec>, pivot: Vec, offset: seq<int>)
    requires Full(c) && 0 <= c.Win(s).start && c.End(s) <= |xs|
    requires InOctants(xs[c.Win(s).start..c.End(s)], offset, pivot, s == Gas) && |offset| == 9
    requires KidsStored(KidRecords(c), s, BucketWindows(c.Win(s).start, offset))
    ensures SplitUp(c, s, xs, pivot)
  {
    forall k | 0 <= k < 8 ensures Holds(c.progeny[k].Win(s), xs, k, pivot, s == Gas) {
      BucketHolds(c.Win(s).start, c.End(s), xs, pivot, s == Gas, offset, k);
      assert c.progeny[k].windows == KidRecords(c)[k];
    }
    BucketsTile(c, s, offset);
  }

  lemma BucketsTile(c: Cell, s: Species, offset: seq<int>)
    requires Full(c) && |offset| == 9 && offset[0] == 0 && offset[8] == c.Win(s).count
    requires forall b :: 0 <= b < 8 ==> 0 <= Width(offset, b)
    requires KidsStored(KidRecords(c), s, BucketWindows(c.Win(s).start, offset))
    ensures c.KidsTile(s)
  {
    hide Cell.KidStart;
    forall k | 0 <= k < 8 ensures c.progeny[k].Win(s).start == c.KidStart(s, k) {
      KidStartAt(c, s, offset, k);
      assert c.progeny[k].windows == KidRecords(c)[k];
    }
    KidStartAt(c, s, offset, 8);
  }

  // ----- the phases -----

  /** The window of a cell in the array of kind `k`. */
  function Lo(w: Windows, k: Kind): int
    requires HasPartner(k)
  {
    WindowOf(w, SpeciesOf(k)).start
  }

  function Hi(w: Windows, k: Kind): int
    requires HasPartner(k)
  {
    Lo(w, k) + WindowOf(w, SpeciesOf(k)).count
  }

  /** The windows of `w` lie inside the arrays. */
  ghost predicate InBounds(w: Windows, all: Partners, gs: seq<Gpart>) {
    && (forall k :: HasPartner(k) ==> 0 <= Lo(w, k) && Hi(w, k) <= |all.Of(k)|)
    && 0 <= w.grav.start && w.grav.start + w.grav.count <= |gs|
  }

  /** In every particle array the window holds the same couples, in another order. */
  ghost predicate AllKept(all0: Partners, gs0: seq<Gpart>, all: Partners, gs: seq<Gpart>, w: Windows) {
    forall k :: HasPartner(k) ==> Kept(Couples(all0.Of(k), gs0), Couples(all.Of(k), gs), Lo(w, k), Hi(w, k))
  }

  lemma AllKeptStart(all: Partners, gs: seq<Gpart>, w: Windows)
    requires InBounds(w, all, gs)
    ensures AllKept(all, gs, all, gs, w)
  {
    hide Partners.Of;
    forall k | HasPartner(k) ensures Kept(Couples(all.Of(k), gs), Couples(all.Of(k), gs), Lo(w, k), Hi(w, k)) {
      assert 0 <= Lo(w, k) <= Hi(w, k) <= |Couples(all.Of(k), gs)|;
    }
  }

  lemma AllKeptTwice(all0: Partners, gs0: seq<Gpart>, all1: Partners, gs1: seq<Gpart>, all: Partners, gs: seq<Gpart>,
        w: Windows)
    requires AllKept(all0, gs0, all1, gs1, w) && AllKept(all1, gs1, all, gs, w)
    ensures AllKept(all0, gs0, all, gs, w)
  {
    hide Partners.Of, Kept, Lo, Hi;
    forall k | HasPartner(k) ensures Kept(Couples(all0.Of(k), gs0), Couples(all.Of(k), gs), Lo(w, k), Hi(w, k)) {
      KeptTwice(Couples(all0.Of(k), gs0), Couples(all1.Of(k), gs1), Couples(all.Of(k), gs), Lo(w, k), Hi(w, k));
    }
  }

  /** What one of the first four phases does. */
  /** What such a phase means for the particles of kind `o`. */
  lemma PhaseDoneFor(k: Kind, all0: Partners, gs0: seq<Gpart>, ps: seq<Particle>, gs: seq<Gpart>, lo: int, hi: int,
        o: Kind)
    requires HasPartner(k) && HasPartner(o) && AllLinked(all0, gs0) && |ps| == |all0.Of(k)|
    requires 0 <= lo <= hi <= |ps|
    requires multiset(ps[lo..hi]) == multiset(all0.Of(k)[lo..hi])
    requires forall i :: 0 <= i < |ps| && !(lo <= i < hi) ==> ps[i] == all0.Of(k)[i]
    requires ParticlePhase.Known(ps[lo..hi], gs, lo, -1)
    requires ParticlePhase.OnlyIndices(gs0, gs, ParticlePhase.GpartsOf(all0.Of(k)[lo..hi]))
    requires |gs| == |gs0| && BareGparts(gs) == BareGparts(gs0)
    ensures Linked(all0.With(k, ps).Of(o), gs, o)
    ensures o == k ==> Kept(Couples(all0.Of(k), gs0), Couples(ps, gs), lo, hi)
    ensures o != k ==> Couples(all0.Of(o), gs) == Couples(all0.Of(o), gs0)
  {
    hide Partners.Of, ParticlePhase.Known, ParticlePhase.GpartsOf, ParticlePhase.OnlyIndices, BareGparts, PointsToGpart,
      PointsToParticle;
    var ps0 := all0.Of(k);
    assert Linked(ps0, gs0, k) && Linked(all0.Of(o), gs0, o);
    SameCouples(all0.Of(o), gs0, gs);
    if o == k {
      ParticlePhase.PhaseKeepsLinks(ps0, ps, gs0, gs, lo, hi, k);
      ParticlesKept(ps0, ps, gs, lo, hi);
    } else {
      ParticlePhase.PhaseKeepsOthers(ps0, gs0, gs, lo, hi, k, all0.Of(o), o);
    }
  }

  lemma ParticlePhaseDone(k: Kind, all0: Partners, gs0: seq<Gpart>, ps: seq<Particle>, gs: seq<Gpart>, w: Windows)
    requires HasPartner(k) && AllLinked(all0, gs0) && InBounds(w, all0, gs0) && |ps| == |all0.Of(k)|
    requires multiset(ps[Lo(w, k)..Hi(w, k)]) == multiset(all0.Of(k)[Lo(w, k)..Hi(w, k)])
    requires forall i :: 0 <= i < |ps| && !(Lo(w, k) <= i < Hi(w, k)) ==> ps[i] == all0.Of(k)[i]
    requires ParticlePhase.Known(ps[Lo(w, k)..Hi(w, k)], gs, Lo(w, k), -1)
    requires ParticlePhase.OnlyIndices(gs0, gs, ParticlePhase.GpartsOf(all0.Of(k)[Lo(w, k)..Hi(w, k)]))
    ensures AllLinked(all0.With(k, ps), gs) && AllKept(all0, gs0, all0.With(k, ps), gs, w)
    ensures BareGparts(gs) == BareGparts(gs0)
    ensures InBounds(w, all0.With(k, ps), gs)
  {
    hide Partners.Of, ParticlePhase.Known, ParticlePhase.GpartsOf;
    var all, ps0, lo, hi := all0.With(k, ps), all0.Of(k), Lo(w, k), Hi(w, k);
    assert |gs| == |gs0| && forall o :: HasPartner(o) ==> Lo(w, o) <= Hi(w, o);
    hide ParticlePhase.OnlyIndices;
    assert Linked(ps0, gs0, k);
    BareSame(ps0, gs0, gs, lo, hi, k);
    hide Linked, Couples, BareGparts;
    forall o | HasPartner(o)
      ensures Linked(all.Of(o), gs, o)
      ensures Kept(Couples(all0.Of(o), gs0), Couples(all.Of(o), gs), Lo(w, o), Hi(w, o))
    {
      PhaseDoneFor(k, all0, gs0, ps, gs, lo, hi, o);
    }
  }

  lemma PlacesOfWindow(ps: seq<Particle>, lo: int, hi: int)
    requires 0 <= lo <= hi <= |ps|
    ensures ParticlePhase.PlacesOf(ps)[lo..hi] == ParticlePhase.PlacesOf(ps[lo..hi])
  {
  }

  /** The sorting of one of the first four phases. */
  method SortPhase(s: Space, k: Kind, w: Windows, buff: array<Buff>, pivot: Vec)
      returns (offset: seq<int>, bucketCount: seq<int>)
    requires s.Apart() && HasPartner(k) && AllLinked(s.All(), s.gparts[..]) && InBounds(w, s.All(), s.gparts[..])
    requires 0 <= Lo(w, k) <= Hi(w, k) <= s.Array(k).Length && Hi(w, k) - Lo(w, k) <= buff.Length
    requires ParticlePhase.Paired(s.Array(k)[Lo(w, k)..Hi(w, k)], buff[..Hi(w, k) - Lo(w, k)])
    modifies s.Array(k), s.gparts, buff
    ensures AllLinked(s.All(), s.gparts[..]) && InBounds(w, s.All(), s.gparts[..])
    ensures AllKept(old(s.All()), old(s.gparts[..]), s.All(), s.gparts[..], w)
    ensures BareGparts(s.gparts[..]) == old(BareGparts(s.gparts[..]))
    ensures |offset| == 9 && |bucketCount| == 8 && forall b :: 0 <= b < 8 ==> 0 <= bucketCount[b] == Width(offset, b)
    ensures InOctants(ParticlePhase.PlacesOf(s.Array(k)[..])[Lo(w, k)..Hi(w, k)], offset, pivot, k == GasKind)
  {
    hide AllKept, BareGpart, BareGparts, Counts.Of, Hi, In, InBounds, Octant, ParticlePhase.GpartsOf,
      ParticlePhase.Known, ParticlePhase.NoSharing, ParticlePhase.OnlyIndices, ParticlePhase.Paired,
      ParticlePhase.PlacesOf, PointsToGpart, PointsToParticle, SpeciesOf, Width;
    var ps, lo, hi := s.Array(k), Lo(w, k), Hi(w, k);
    ghost var all0, gs0, ps0 := s.All(), s.gparts[..], ps[..];
    assert all0.Of(k) == ps0 && Linked(ps0, gs0, k);
    ParticlePhase.LinkedWindow(ps0, gs0, lo, hi, k);
    assert ps0[lo..hi] == ps[lo..hi] && lo + (hi - lo) == hi;
    offset, bucketCount := ParticlePhase.SortParticles(ps, buff, s.gparts, lo, hi - lo, pivot, k == GasKind);
    assert s.All() == all0.With(k, ps[..]);
    assert ps[..][lo..hi] == ps[lo..hi] && (forall i :: 0 <= i < ps.Length && !(lo <= i < hi) ==> ps[..][i] == ps0[i]);
    ParticlePhaseDone(k, all0, gs0, ps[..], s.gparts[..], w);
    PlacesOfWindow(ps[..], lo, hi);
    assert forall b :: 0 <= b < 8 ==> 0 <= Width(offset, b);
  }

  /** One of the first four phases. */
  method SplitParticles(s: Space, c: Cell, k: Kind, buff: array<Buff>, pivot: Vec) returns (offset: seq<int>)
    requires s.Apart() && c.WellFormed() && Full(c) && HasPartner(k)
    requires AllLinked(s.All(), s.gparts[..]) && InBounds(c.windows, s.All(), s.gparts[..])
    requires 0 <= Lo(c.windows, k) <= Hi(c.windows, k) <= s.Array(k).Length
    requires Hi(c.windows, k) - Lo(c.windows, k) <= buff.Length
    requires ParticlePhase.Paired(s.Array(k)[Lo(c.windows, k)..Hi(c.windows, k)],
      buff[..Hi(c.windows, k) - Lo(c.windows, k)])
    modifies s.Array(k), s.gparts, buff, c.Kids()`windows
    ensures AllLinked(s.All(), s.gparts[..]) && InBounds(c.windows, s.All(), s.gparts[..])
    ensures AllKept(old(s.All()), old(s.gparts[..]), s.All(), s.gparts[..], c.windows)
    ensures BareGparts(s.gparts[..]) == old(BareGparts(s.gparts[..]))
    ensures c.windows == old(c.windows) && |offset| == 9 && forall b :: 0 <= b < 8 ==> 0 <= Width(offset, b)
    ensures KidRecords(c) == Stored(old(KidRecords(c)), SpeciesOf(k), BucketWindows(Lo(c.windows, k), offset))
    ensures InOctants(ParticlePhase.PlacesOf(s.Array(k)[..])[Lo(c.windows, k)..Hi(c.windows, k)], offset, pivot,
      k == GasKind)
  {
    hide AllKept, AllLinked, BareGpart, BareGparts, BucketWindows, Cell.Kids, Cell.WellFormed, Counts.Of, Hi, In,
      InBounds, InOctants, KidRecords, Octant, ParticlePhase.Paired, ParticlePhase.PlacesOf, SpeciesOf, Stored, Width,
      WithWindow;
    var bucketCount;
    offset, bucketCount := SortPhase(s, k, c.windows, buff, pivot);
    assert KidRecords(c) == old(KidRecords(c)) by {
      assert forall k :: 0 <= k < 8 ==> c.progeny[k].windows == old(c.progeny[k].windows);
    }
    StoreKids(c, SpeciesOf(k), offset, bucketCount);
    assert c.windows == old(c.windows);
    assert c.Win(SpeciesOf(k)).start == Lo(c.windows, k);
  }

  /** What the last phase does. */
  lemma GpartPhaseDone(all0: Partners, gs0: seq<Gpart>, all: Partners, gs: seq<Gpart>, w: Windows)
    requires AllLinked(all0, gs0) && InBounds(w, all0, gs0) && |gs| == |gs0|
    requires var lo, hi := w.grav.start, w.grav.start + w.grav.count;
      && multiset(gs[lo..hi]) == multiset(gs0[lo..hi])
      && (forall i :: 0 <= i < |gs| && !(lo <= i < hi) ==> gs[i] == gs0[i])
      && GpartPhase.KnownPlace(gs[lo..hi], all, lo, -1)
      && GpartPhase.OnlyPointers(all0, all, GpartPhase.PartnersOf(gs0[lo..hi]))
    ensures AllLinked(all, gs) && AllKept(all0, gs0, all, gs, w) && InBounds(w, all, gs)
    ensures Kept(BareGparts(gs0), BareGparts(gs), w.grav.start, w.grav.start + w.grav.count)
    ensures forall k :: HasPartner(k) ==> ParticlePhase.PlacesOf(all.Of(k)) == ParticlePhase.PlacesOf(all0.Of(k))
  {
    hide Partners.Of, GpartPhase.KnownPlace, GpartPhase.PartnersOf;
    var lo, hi := w.grav.start, w.grav.start + w.grav.count;
    AllKeptStart(all0, gs0, w);
    forall k | HasPartner(k)
      ensures Linked(all.Of(k), gs, k)
      ensures Kept(Couples(all0.Of(k), gs0), Couples(all.Of(k), gs), Lo(w, k), Hi(w, k))
      ensures |all.Of(k)| == |all0.Of(k)| && ParticlePhase.PlacesOf(all.Of(k)) == ParticlePhase.PlacesOf(all0.Of(k))
    {
      assert Linked(all0.Of(k), gs0, k);
      GpartPhase.PhaseKeepsLinks(gs0, gs, all0, all, lo, hi, k);
      GpartsKeepCouples(gs0, gs, all0, all, lo, hi, k);
    }
    var f := (g: Gpart) => BareGpart(g);
    MapKeepsMultiset(f, gs[lo..hi], gs0[lo..hi]);
    assert BareGparts(gs)[lo..hi] == Map(f, gs[lo..hi]);
    assert BareGparts(gs0)[lo..hi] == Map(f, gs0[lo..hi]);
  }

  lemma GpartPlacesOfWindow(gs: seq<Gpart>, lo: int, hi: int)
    requires 0 <= lo <= hi <= |gs|
    ensures GpartPhase.PlacesOf(gs)[lo..hi] == GpartPhase.PlacesOf(gs[lo..hi])
  {
  }

  ghost predicate GpartsReady(s: Space, c: Cell, buff: array<Buff>)
    reads s.gparts, c`windows, buff
  {
    var w := c.windows.grav;
    && 0 <= w.start && w.start + w.count <= s.gparts.Length && w.count <= buff.Length
    && GpartPhase.PairedPlace(s.gparts[w.start..w.start + w.count], buff[..w.count])
  }

  method SortAllGparts(s: Space, w: Windows, buff: array<Buff>, pivot: Vec)
    returns (offset: seq<int>, bucketCount: seq<int>)
    requires s.Apart() && AllLinked(s.All(), s.gparts[..]) && InBounds(w, s.All(), s.gparts[..])
    requires 0 <= w.grav.start && w.grav.start + w.grav.count <= s.gparts.Length && w.grav.count <= buff.Length
    requires GpartPhase.PairedPlace(s.gparts[w.grav.start..w.grav.start + w.grav.count], buff[..w.grav.count])
    modifies s.parts, s.sparts, s.sinks, s.bparts, s.gparts, buff
    ensures AllLinked(s.All(), s.gparts[..]) && InBounds(w, s.All(), s.gparts[..])
    ensures AllKept(old(s.All()), old(s.gparts[..]), s.All(), s.gparts[..], w)
    ensures Kept(old(BareGparts(s.gparts[..])), BareGparts(s.gparts[..]), w.grav.start, w.grav.start + w.grav.count)
    ensures forall k :: HasPartner(k) ==>
      ParticlePhase.PlacesOf(s.All().Of(k)) == ParticlePhase.PlacesOf(old(s.All()).Of(k))
    ensures |offset| == 9 && |bucketCount| == 8 && forall b :: 0 <= b < 8 ==> 0 <= bucketCount[b] == Width(offset, b)
    ensures InOctants(GpartPhase.PlacesOf(s.gparts[..])[w.grav.start..w.grav.start + w.grav.count], offset, pivot,
      false)
  {
    hide AllKept, BareGpart, BareGparts, Counts.Of, GpartPhase.KnownPlace, GpartPhase.NoSharedPartner,
      GpartPhase.OnlyPointers, GpartPhase.PairedPlace, GpartPhase.PartnersOf, GpartPhase.PlacesOf, HasPartner, In,
      InBounds, Kept, Octant, ParticlePhase.PlacesOf, Partners.Of, PointsToGpart, PointsToParticle, View, Width;
    var gs, lo, count := s.gparts, w.grav.start, w.grav.count;
    ghost var all0, gs0 := s.All(), gs[..];
    assert View(s.parts, s.sparts, s.sinks, s.bparts) == all0 && Apart(s.parts, s.sparts, s.sinks, s.bparts);
    GpartPhase.LinkedPlaces(gs0, all0, lo, lo + count);
    assert gs0[lo..lo + count] == gs[lo..lo + count];
    offset, bucketCount := GpartPhase.SortGparts(gs, buff, s.parts, s.sparts, s.sinks, s.bparts, lo, count, pivot);
    assert s.All() == View(s.parts, s.sparts, s.sinks, s.bparts);
    assert gs[..][lo..lo + count] == gs[lo..lo + count]
      && (forall i :: 0 <= i < gs.Length && !(lo <= i < lo + count) ==> gs[..][i] == gs0[i]);
    GpartPhaseDone(all0, gs0, s.All(), gs[..], w);
    GpartPlacesOfWindow(gs[..], lo, lo + count);
    assert forall b :: 0 <= b < 8 ==> 0 <= Width(offset, b);
  }

  /** The last phase. */
  method SplitGparts(s: Space, c: Cell, buff: array<Buff>, pivot: Vec) returns (ghost offset: seq<int>)
    requires s.Apart() && c.WellFormed() && Full(c)
    requires AllLinked(s.All(), s.gparts[..]) && InBounds(c.windows, s.All(), s.gparts[..])
    requires GpartsReady(s, c, buff)
    modifies s.parts, s.sparts, s.sinks, s.bparts, s.gparts, buff, c.Kids()`windows
    ensures AllLinked(s.All(), s.gparts[..]) && InBounds(c.windows, s.All(), s.gparts[..])
    ensures AllKept(old(s.All()), old(s.gparts[..]), s.All(), s.gparts[..], c.windows)
    ensures Kept(old(BareGparts(s.gparts[..])), BareGparts(s.gparts[..]), c.windows.grav.start,
      c.windows.grav.start + c.windows.grav.count)
    ensures forall k :: HasPartner(k) ==>
      ParticlePhase.PlacesOf(s.All().Of(k)) == ParticlePhase.PlacesOf(old(s.All()).Of(k))
    ensures c.windows == old(c.windows) && |offset| == 9 && forall b :: 0 <= b < 8 ==> 0 <= Width(offset, b)
    ensures KidRecords(c) == Stored(old(KidRecords(c)), Grav, BucketWindows(c.windows.grav.start, offset))
    ensures SplitUp(c, Grav, GpartPhase.PlacesOf(s.gparts[..]), pivot)
  {
    hide AllKept, AllLinked, BareGpart, BareGparts, BucketWindows, Cell.Kids, Cell.WellFormed, Counts.Of,
      GpartPhase.PairedPlace, GpartPhase.PlacesOf, HasPartner, InBounds, InOctants, Kept, KidRecords, KidsStored,
      ParticlePhase.PlacesOf, Partners.Of, Space.All, Space.Apart, SplitUp, Stored, Width, WithWindow;
    assert 0 <= c.windows.grav.start && c.windows.grav.start + c.windows.grav.count <= s.gparts.Length
      && c.windows.grav.count <= buff.Length
      && GpartPhase.PairedPlace(s.gparts[c.windows.grav.start..c.windows.grav.start + c.windows.grav.count],
        buff[..c.windows.grav.count]);
    var offsets, bucketCount := SortAllGparts(s, c.windows, buff, pivot);
    offset := offsets;
    assert KidRecords(c) == old(KidRecords(c)) by {
      assert forall k :: 0 <= k < 8 ==> c.progeny[k].windows == old(c.progeny[k].windows);
    }
    ghost var w := c.windows;
    StoreKids(c, Grav, offsets, bucketCount);
    assert c.windows == w;
    assert c.Win(Grav) == w.grav && c.End(Grav) == w.grav.start + w.grav.count;
    StoredOnes(old(KidRecords(c)), Grav, BucketWindows(w.grav.start, offset));
    BucketsSplitUp(c, Grav, GpartPhase.PlacesOf(s.gparts[..]), pivot, offset);
  }

  /** The buffer has room for the particles of the cell, and holds their positions. */
  ghost predicate Ready(s: Space, c: Cell, k: Kind, buff: array<Buff>)
    requires HasPartner(k)
    reads s.Array(k), c`windows, buff
  {
    var lo, hi := Lo(c.windows, k), Hi(c.windows, k);
    && 0 <= lo <= hi <= s.Array(k).Length && hi - lo <= buff.Length
    && ParticlePhase.Paired(s.Array(k)[lo..hi], buff[..hi - lo])
  }

  lemma GpartsStillReady(gs0: seq<Gpart>, gs: seq<Gpart>, lo: int, hi: int, b: seq<Buff>)
    requires BareGparts(gs) == BareGparts(gs0) && 0 <= lo <= hi <= |gs0| && GpartPhase.PairedPlace(gs0[lo..hi], b)
    ensures hi <= |gs| && GpartPhase.PairedPlace(gs[lo..hi], b)
  {
    assert |gs| == |BareGparts(gs)| == |gs0|;
    forall i | lo <= i < hi ensures gs[i].x == gs0[i].x {
      assert BareGparts(gs)[i] == BareGparts(gs0)[i];
    }
    forall i | 0 <= i < hi - lo ensures gs[lo..hi][i].x == b[i].x {
      assert gs[lo..hi][i] == gs[lo + i] && gs0[lo..hi][i] == gs0[lo + i];
    }
  }

  function Middle(loc: Vec, width: Vec): Vec {
    loc.Plus(width.Times(0.5))
  }

  /** The windows of species `o` as stored after its own phase. */
  ghost predicate Placed8(kids: seq<Windows>, k: Kind, w: Windows, offset: seq<int>)
    requires HasPartner(k)
  {
    |offset| == 9 && (forall b :: 0 <= b < 8 ==> 0 <= Width(offset, b))
      && KidsStored(kids, SpeciesOf(k), BucketWindows(Lo(w, k), offset))
  }

  lemma StoredPlaced(before: seq<Windows>, kids: seq<Windows>, k: Kind, w: Windows, offset: seq<int>)
    requires HasPartner(k) && |before| == 8 && |offset| == 9 && forall b :: 0 <= b < 8 ==> 0 <= Width(offset, b)
    requires kids == Stored(before, SpeciesOf(k), BucketWindows(Lo(w, k), offset))
    ensures Placed8(kids, k, w, offset)
  {
    StoredOnes(before, SpeciesOf(k), BucketWindows(Lo(w, k), offset));
  }

  lemma StillPlaced(before: seq<Windows>, kids: seq<Windows>, s: Species, want: seq<Window>, k: Kind, w: Windows,
        offset: seq<int>)
    requires HasPartner(k) && |before| == |want| == 8 && s != SpeciesOf(k)
    requires kids == Stored(before, s, want) && Placed8(before, k, w, offset)
    ensures Placed8(kids, k, w, offset)
  {
    StoredOthers(before, s, want, SpeciesOf(k), BucketWindows(Lo(w, k), offset));
  }

  lemma PhaseSplitUp(c: Cell, k: Kind, xs: seq<Vec>, pivot: Vec, offset: seq<int>)
    requires HasPartner(k) && Full(c) && 0 <= Lo(c.windows, k) && Hi(c.windows, k) <= |xs|
    requires Placed8(KidRecords(c), k, c.windows, offset)
    requires InOctants(xs[Lo(c.windows, k)..Hi(c.windows, k)], offset, pivot, k == GasKind)
    ensures SplitUp(c, SpeciesOf(k), xs, pivot)
  {
    BucketsSplitUp(c, SpeciesOf(k), xs, pivot, offset);
  }

  lemma OpenReady(s: Space, c: Cell, k: Kind, buff: array<Buff>)
    requires HasPartner(k) && Ready(s, c, k, buff)
    ensures 0 <= Lo(c.windows, k) <= Hi(c.windows, k) <= s.Array(k).Length
    ensures Hi(c.windows, k) - Lo(c.windows, k) <= buff.Length
    ensures ParticlePhase.Paired(s.Array(k)[Lo(c.windows, k)..Hi(c.windows, k)],
      buff[..Hi(c.windows, k) - Lo(c.windows, k)])
  {
  }

  /** The phase of kind `k` is done: places and windows are as its offsets say. */
  ghost predicate Done(kids: seq<Windows>, w: Windows, k: Kind, xs: seq<Vec>, pivot: Vec, offset: seq<int>)
    requires HasPartner(k)
  {
    && 0 <= Lo(w, k) <= Hi(w, k) <= |xs|
    && Placed8(kids, k, w, offset)
    && InOctants(xs[Lo(w, k)..Hi(w, k)], offset, pivot, k == GasKind)
  }

  lemma StillDone(before: seq<Windows>, kids: seq<Windows>, w: Windows, k: Kind, xs: seq<Vec>, pivot: Vec,
        offset: seq<int>, o: Species, want: seq<Window>)
    requires HasPartner(k) && Done(before, w, k, xs, pivot, offset)
    requires |before| == |want| == 8 && o != SpeciesOf(k) && kids == Stored(before, o, want)
    ensures Done(kids, w, k, xs, pivot, offset)
  {
    hide InOctants, Placed8;
    StillPlaced(before, kids, o, want, k, w, offset);
  }

  lemma NowDone(before: seq<Windows>, kids: seq<Windows>, w: Windows, k: Kind, xs: seq<Vec>, pivot: Vec,
        offset: seq<int>)
    requires HasPartner(k) && |before| == 8 && |offset| == 9 && forall b :: 0 <= b < 8 ==> 0 <= Width(offset, b)
    requires 0 <= Lo(w, k) <= Hi(w, k) <= |xs|
    requires kids == Stored(before, SpeciesOf(k), BucketWindows(Lo(w, k), offset))
    requires InOctants(xs[Lo(w, k)..Hi(w, k)], offset, pivot, k == GasKind)
    ensures Done(kids, w, k, xs, pivot, offset)
  {
    StoredPlaced(before, kids, k, w, offset);
  }

  /** The first phases up to now: links hold, couples are kept, and the windows of the kinds in `done` are stored. */
  ghost predicate Progress(all0: Partners, gs0: seq<Gpart>, all: Partners, gs: seq<Gpart>, w: Windows,
        kids: seq<Windows>,
                           pivot: Vec, done: map<Kind, seq<int>>) {
    && AllLinked(all, gs) && InBounds(w, all, gs) && AllKept(all0, gs0, all, gs, w)
    && BareGparts(gs) == BareGparts(gs0) && |kids| == 8
    && forall k :: k in done ==> HasPartner(k) && Done(kids, w, k, ParticlePhase.PlacesOf(all.Of(k)), pivot, done[k])
  }

  lemma ProgressStep(all0: Partners, gs0: seq<Gpart>, all: Partners, gs: seq<Gpart>, w: Windows, kids: seq<Windows>,
                     pivot: Vec, done: map<Kind, seq<int>>, k: Kind, ps: seq<Particle>, gs1: seq<Gpart>,
                     kids1: seq<Windows>, offset: seq<int>)
    requires HasPartner(k) && k !in done && Progress(all0, gs0, all, gs, w, kids, pivot, done)
    requires AllLinked(all.With(k, ps), gs1) && InBounds(w, all.With(k, ps), gs1)
    requires AllKept(all, gs, all.With(k, ps), gs1, w) && BareGparts(gs1) == BareGparts(gs)
    requires |kids1| == 8 && |offset| == 9 && forall b :: 0 <= b < 8 ==> 0 <= Width(offset, b)
    requires kids1 == Stored(kids, SpeciesOf(k), BucketWindows(Lo(w, k), offset))
    requires 0 <= Lo(w, k) <= Hi(w, k) <= |ps|
    requires InOctants(ParticlePhase.PlacesOf(ps)[Lo(w, k)..Hi(w, k)], offset, pivot, k == GasKind)
    ensures Progress(all0, gs0, all.With(k, ps), gs1, w, kids1, pivot, done[k := offset])
  {
    hide AllKept, AllLinked, BareGparts, BucketWindows, Done, Hi, InBounds, InOctants, Lo, ParticlePhase.PlacesOf,
      Partners.Of, Stored, Width;
    AllKeptTwice(all0, gs0, all, gs, all.With(k, ps), gs1, w);
    NowDone(kids, kids1, w, k, ParticlePhase.PlacesOf(ps), pivot, offset);
    forall o | o in done ensures Done(kids1, w, o, ParticlePhase.PlacesOf(all.Of(o)), pivot, done[o]) {
      StillDone(kids, kids1, w, o, ParticlePhase.PlacesOf(all.Of(o)), pivot, done[o], SpeciesOf(k),
        BucketWindows(Lo(w, k), offset));
    }
  }

  /** One of the first four phases, after some others. */
  method SplitOne(s: Space, c: Cell, k: Kind, buff: array<Buff>, pivot: Vec,
                  ghost all0: Partners, ghost gs0: seq<Gpart>, ghost done: map<Kind, seq<int>>)
                    returns (ghost offset: seq<int>)
    requires s.Apart() && c.WellFormed() && Full(c) && HasPartner(k) && k !in done && Ready(s, c, k, buff)
    requires Progress(all0, gs0, s.All(), s.gparts[..], c.windows, KidRecords(c), pivot, done)
    modifies s.Array(k), s.gparts, buff, c.Kids()`windows
    ensures c.windows == old(c.windows)
    ensures Progress(all0, gs0, s.All(), s.gparts[..], c.windows, KidRecords(c), pivot, done[k := offset])
  {
    hide AllKept, AllLinked, BareGparts, BucketWindows, Cell.Kids, Cell.WellFormed, Done, Full, Hi, InBounds, InOctants,
      KidRecords, Lo, ParticlePhase.Paired, ParticlePhase.PlacesOf, Ready, Stored, Width;
    ghost var all, gs, kids, w := s.All(), s.gparts[..], KidRecords(c), c.windows;
    OpenReady(s, c, k, buff);
    offset := SplitParticles(s, c, k, buff, pivot);
    assert s.All() == all.With(k, s.Array(k)[..]);
    ProgressStep(all0, gs0, all, gs, w, kids, pivot, done, k, s.Array(k)[..], s.gparts[..], KidRecords(c), offset);
  }

  /** The first four phases. */
  method SplitFour(s: Space, c: Cell, pivot: Vec, buff: array<Buff>, sbuff: array<Buff>, bbuff: array<Buff>,
        sinkbuff: array<Buff>)
      returns (ghost gas: seq<int>, ghost stars: seq<int>, ghost blackHoles: seq<int>, ghost sinks: seq<int>)
    requires s.Apart() && c.WellFormed() && Full(c)
    requires AllLinked(s.All(), s.gparts[..]) && InBounds(c.windows, s.All(), s.gparts[..])
    requires buff != sbuff && buff != bbuff && buff != sinkbuff && sbuff != bbuff && sbuff != sinkbuff
    requires bbuff != sinkbuff
    requires Ready(s, c, GasKind, buff) && Ready(s, c, StarKind, sbuff) && Ready(s, c, BlackHoleKind, bbuff)
    requires Ready(s, c, SinkKind, sinkbuff)
    modifies s.parts, s.sparts, s.sinks, s.bparts, s.gparts, buff, sbuff, bbuff, sinkbuff, c.Kids()`windows
    ensures AllLinked(s.All(), s.gparts[..]) && InBounds(c.windows, s.All(), s.gparts[..])
    ensures AllKept(old(s.All()), old(s.gparts[..]), s.All(), s.gparts[..], c.windows)
    ensures BareGparts(s.gparts[..]) == old(BareGparts(s.gparts[..]))
    ensures c.windows == old(c.windows)
    ensures Done(KidRecords(c), c.windows, GasKind, ParticlePhase.PlacesOf(s.parts[..]), pivot, gas)
    ensures Done(KidRecords(c), c.windows, StarKind, ParticlePhase.PlacesOf(s.sparts[..]), pivot, stars)
    ensures Done(KidRecords(c), c.windows, BlackHoleKind, ParticlePhase.PlacesOf(s.bparts[..]), pivot, blackHoles)
    ensures Done(KidRecords(c), c.windows, SinkKind, ParticlePhase.PlacesOf(s.sinks[..]), pivot, sinks)
  {
    hide AllKept, AllLinked, BareGparts, Cell.Kids, Cell.WellFormed, Done, Full, InBounds, KidRecords, Progress, Ready,
      ParticlePhase.PlacesOf;
    ghost var all0, gs0 := s.All(), s.gparts[..];
    assert HasPartner(GasKind) && HasPartner(StarKind) && HasPartner(SinkKind) && HasPartner(BlackHoleKind);
    ProgressStarts(all0, gs0, c.windows, KidRecords(c), pivot);
    gas := SplitOne(s, c, GasKind, buff, pivot, all0, gs0, map[]);
    stars := SplitOne(s, c, StarKind, sbuff, pivot, all0, gs0, map[GasKind := gas]);
    blackHoles := SplitOne(s, c, BlackHoleKind, bbuff, pivot, all0, gs0, map[GasKind := gas, StarKind := stars]);
    sinks := SplitOne(s, c, SinkKind, sinkbuff, pivot, all0, gs0,
      map[GasKind := gas, StarKind := stars, BlackHoleKind := blackHoles]);
    ProgressEnds(all0, gs0, s.All(), s.gparts[..], c.windows, KidRecords(c), pivot, gas, stars, blackHoles, sinks);
  }

  lemma ProgressStarts(all: Partners, gs: seq<Gpart>, w: Windows, kids: seq<Windows>, pivot: Vec)
    requires AllLinked(all, gs) && InBounds(w, all, gs) && |kids| == 8
    ensures Progress(all, gs, all, gs, w, kids, pivot, map[])
  {
    AllKeptStart(all, gs, w);
  }

  lemma ProgressEnds(all0: Partners, gs0: seq<Gpart>, all: Partners, gs: seq<Gpart>, w: Windows, kids: seq<Windows>,
                     pivot: Vec, gas: seq<int>, stars: seq<int>, blackHoles: seq<int>, sinks: seq<int>)
    requires Progress(all0, gs0, all, gs, w, kids, pivot,
                      map[GasKind := gas, StarKind := stars, BlackHoleKind := blackHoles, SinkKind := sinks])
    ensures AllLinked(all, gs) && InBounds(w, all, gs) && AllKept(all0, gs0, all, gs, w)
    ensures BareGparts(gs) == BareGparts(gs0)
    ensures Done(kids, w, GasKind, ParticlePhase.PlacesOf(all.parts), pivot, gas)
    ensures Done(kids, w, StarKind, ParticlePhase.PlacesOf(all.sparts), pivot, stars)
    ensures Done(kids, w, BlackHoleKind, ParticlePhase.PlacesOf(all.bparts), pivot, blackHoles)
    ensures Done(kids, w, SinkKind, ParticlePhase.PlacesOf(all.sinks), pivot, sinks)
  {
    hide AllKept, AllLinked, BareGparts, Done, InBounds, ParticlePhase.PlacesOf;
    var done := map[GasKind := gas, StarKind := stars, BlackHoleKind := blackHoles, SinkKind := sinks];
    assert GasKind in done && StarKind in done && BlackHoleKind in done && SinkKind in done;
  }

  lemma AllSplitUp(c: Cell, all1: Partners, all: Partners, kids1: seq<Windows>, want: seq<Window>, pivot: Vec,
                   gas: seq<int>, stars: seq<int>, blackHoles: seq<int>, sinks: seq<int>)
    requires Full(c) && |kids1| == |want| == 8 && KidRecords(c) == Stored(kids1, Grav, want)
    requires Done(kids1, c.windows, GasKind, ParticlePhase.PlacesOf(all1.parts), pivot, gas)
    requires Done(kids1, c.windows, StarKind, ParticlePhase.PlacesOf(all1.sparts), pivot, stars)
    requires Done(kids1, c.windows, BlackHoleKind, ParticlePhase.PlacesOf(all1.bparts), pivot, blackHoles)
    requires Done(kids1, c.windows, SinkKind, ParticlePhase.PlacesOf(all1.sinks), pivot, sinks)
    requires forall k :: HasPartner(k) ==> ParticlePhase.PlacesOf(all.Of(k)) == ParticlePhase.PlacesOf(all1.Of(k))
    ensures forall k :: HasPartner(k) ==> SplitUp(c, SpeciesOf(k), ParticlePhase.PlacesOf(all.Of(k)), pivot)
  {
    hide Cell.Kids, Counts.Of, Full, Hi, InOctants, KidRecords, Lo, ParticlePhase.PlacesOf, Placed8, SplitUp, Stored,
      WithWindow;
    forall k | HasPartner(k) ensures SplitUp(c, SpeciesOf(k), ParticlePhase.PlacesOf(all.Of(k)), pivot) {
      var offset := if k == GasKind then gas else if k == StarKind then stars
                    else if k == BlackHoleKind then blackHoles else sinks;
      assert SpeciesOf(k) != Grav;
      assert Done(kids1, c.windows, k, ParticlePhase.PlacesOf(all.Of(k)), pivot, offset);
      StillDone(kids1, KidRecords(c), c.windows, k, ParticlePhase.PlacesOf(all.Of(k)), pivot, offset, Grav, want);
      PhaseSplitUp(c, k, ParticlePhase.PlacesOf(all.Of(k)), pivot, offset);
    }
  }

  /** The point lies in octant `k` of the cell: in its upper half along x for k from 4 to 7, along y for 2, 3, 6 and 7,
      along z for odd k.  A point on the plane between the halves is in the upper one if `closed`. */
  predicate LiesIn(x: Vec, loc: Vec, width: Vec, k: int, closed: bool) {
    && ((k == 4 || k == 5 || k == 6 || k == 7) <==>
        (x.x > loc.x + width.x / 2.0 || (closed && x.x == loc.x + width.x / 2.0)))
    && ((k == 2 || k == 3 || k == 6 || k == 7) <==>
        (x.y > loc.y + width.y / 2.0 || (closed && x.y == loc.y + width.y / 2.0)))
    && ((k == 1 || k == 3 || k == 5 || k == 7) <==>
        (x.z > loc.z + width.z / 2.0 || (closed && x.z == loc.z + width.z / 2.0)))
  }

  lemma OctantLiesIn(x: Vec, loc: Vec, width: Vec, k: int, closed: bool)
    requires Octant(x, Middle(loc, width), closed) == k
    ensures 0 <= k < 8 && LiesIn(x, loc, width, k, closed)
  {
    assert Middle(loc, width) == Vec(loc.x + width.x / 2.0, loc.y + width.y / 2.0, loc.z + width.z / 2.0);
  }

  /** The corner of progeny `k`. */
  function Corner(loc: Vec, width: Vec, k: int): Vec {
    Vec(loc.x + if k == 4 || k == 5 || k == 6 || k == 7 then width.x / 2.0 else 0.0,
        loc.y + if k == 2 || k == 3 || k == 6 || k == 7 then width.y / 2.0 else 0.0,
        loc.z + if k == 1 || k == 3 || k == 5 || k == 7 then width.z / 2.0 else 0.0)
  }

  /** For points of the cell: octant `k` is the box of half the width at the corner of progeny `k`.  For gas it is
      closed below and open above; for the others a point on the plane between two progeny is in the lower one. */
  lemma OctantBox(x: Vec, loc: Vec, width: Vec, k: int)
    requires loc.x <= x.x < loc.x + width.x && loc.y <= x.y < loc.y + width.y && loc.z <= x.z < loc.z + width.z
    ensures var low := Corner(loc, width, k);
      LiesIn(x, loc, width, k, true) <==>
        && low.x <= x.x < low.x + width.x / 2.0
        && low.y <= x.y < low.y + width.y / 2.0
        && low.z <= x.z < low.z + width.z / 2.0
    ensures var low := Corner(loc, width, k);
      LiesIn(x, loc, width, k, false) <==>
        && (if low.x == loc.x then x.x <= loc.x + width.x / 2.0 else low.x < x.x)
        && (if low.y == loc.y then x.y <= loc.y + width.y / 2.0 else low.y < x.y)
        && (if low.z == loc.z then x.z <= loc.z + width.z / 2.0 else low.z < x.z)
  {
  }

  /** Everything in the window of progeny `j` lies in octant `j` of the cell. */
  ghost predicate LieThere(c: Cell, s: Species, xs: seq<Vec>)
    requires Full(c)
    reads c`loc, c`width, c.Kids()`windows
  {
    forall j, i :: 0 <= j < 8 && c.progeny[j].Win(s).start <= i < c.progeny[j].Win(s).start + c.progeny[j].Win(s).count ==>
      LiesAt(xs, i, c.loc, c.width, j, s)
  }

  predicate LiesAt(xs: seq<Vec>, i: int, loc: Vec, width: Vec, k: int, s: Species) {
    0 <= i < |xs| && LiesIn(xs[i], loc, width, k, s == Gas)
  }

  lemma HoldsAt(w: Window, xs: seq<Vec>, b: int, pivot: Vec, closed: bool, i: int)
    requires Holds(w, xs, b, pivot, closed) && w.start <= i < w.start + w.count
    ensures 0 <= i < |xs| && Octant(xs[i], pivot, closed) == b
  {
    var x := xs[i];
  }

  lemma SplitUpLiesThere(c: Cell, s: Species, xs: seq<Vec>)
    requires Full(c) && SplitUp(c, s, xs, Middle(c.loc, c.width))
    ensures LieThere(c, s, xs)
  {
    hide Octant, Middle, LiesIn, Cell.KidStart;
    forall j, i | 0 <= j < 8 && c.progeny[j].Win(s).start <= i < c.progeny[j].Win(s).start + c.progeny[j].Win(s).count
      ensures LiesAt(xs, i, c.loc, c.width, j, s)
    {
      HoldsAt(c.progeny[j].Win(s), xs, j, Middle(c.loc, c.width), s == Gas, i);
      OctantLiesIn(xs[i], c.loc, c.width, j, s == Gas);
    }
  }

  /** cell_split: every progeny gets the particles of its octant and nothing else, all links between
      particles and gparts hold again, and nobody has changed partner. */
  method CellSplit(s: Space, c: Cell,
                   buff: array<Buff>, sbuff: array<Buff>, bbuff: array<Buff>, gbuff: array<Buff>, sinkbuff: array<Buff>)
    requires s.Apart() && c.WellFormed() && Full(c)
    requires AllLinked(s.All(), s.gparts[..]) && InBounds(c.windows, s.All(), s.gparts[..])
    requires buff != sbuff && buff != bbuff && buff != gbuff && buff != sinkbuff && sbuff != bbuff
    requires sbuff != gbuff && sbuff != sinkbuff && bbuff != gbuff && bbuff != sinkbuff && gbuff != sinkbuff
    requires Ready(s, c, GasKind, buff) && Ready(s, c, StarKind, sbuff) && Ready(s, c, BlackHoleKind, bbuff)
    requires Ready(s, c, SinkKind, sinkbuff)
    requires GpartsReady(s, c, gbuff)
    modifies s.parts, s.sparts, s.sinks, s.bparts, s.gparts, buff, sbuff, bbuff, gbuff, sinkbuff, c.Kids()`windows
    ensures AllLinked(s.All(), s.gparts[..])
    ensures AllKept(old(s.All()), old(s.gparts[..]), s.All(), s.gparts[..], c.windows)
    ensures Kept(old(BareGparts(s.gparts[..])), BareGparts(s.gparts[..]), c.windows.grav.start,
      c.windows.grav.start + c.windows.grav.count)
    ensures c.windows == old(c.windows)
    ensures forall k :: HasPartner(k) ==>
      SplitUp(c, SpeciesOf(k), ParticlePhase.PlacesOf(s.All().Of(k)), Middle(c.loc, c.width))
    ensures SplitUp(c, Grav, GpartPhase.PlacesOf(s.gparts[..]), Middle(c.loc, c.width))
    ensures forall k :: HasPartner(k) ==> LieThere(c, SpeciesOf(k), ParticlePhase.PlacesOf(s.All().Of(k)))
    ensures LieThere(c, Grav, GpartPhase.PlacesOf(s.gparts[..]))
  {
    hide AllKept, AllLinked, BareGpart, BareGparts, BucketWindows, Cell.Kids, Cell.WellFormed, Counts.Of, Done, Full,
      GpartPhase.PairedPlace, GpartPhase.PlacesOf, HasPartner, InBounds, Kept, KidRecords, LieThere, Middle,
      ParticlePhase.PlacesOf, Partners.Of, Ready, Space.Apart, Space.Array, SpeciesOf, SplitUp, Stored, Width,
      WithWindow;
    var pivot := Middle(c.loc, c.width);
    ghost var all0, gs0, w := s.All(), s.gparts[..], c.windows;
    ghost var gas, stars, blackHoles, sinks := SplitFour(s, c, pivot, buff, sbuff, bbuff, sinkbuff);
    ghost var all1, gs1, kids1 := s.All(), s.gparts[..], KidRecords(c);
    assert all1 == Partners(s.parts[..], s.sparts[..], s.sinks[..], s.bparts[..]);
    assert GpartsReady(s, c, gbuff) by {
      GpartsStillReady(gs0, gs1, w.grav.start, w.grav.start + w.grav.count, gbuff[..w.grav.count]);
    }
    ghost var grav := SplitGparts(s, c, gbuff, pivot);
    AllKeptTwice(all0, gs0, all1, gs1, s.All(), s.gparts[..], w);
    AllSplitUp(c, all1, s.All(), kids1, BucketWindows(w.grav.start, grav), pivot, gas, stars, blackHoles, sinks);
    forall k | HasPartner(k) ensures LieThere(c, SpeciesOf(k), ParticlePhase.PlacesOf(s.All().Of(k))) {
      SplitUpLiesThere(c, SpeciesOf(k), ParticlePhase.PlacesOf(s.All().Of(k)));
    }
    SplitUpLiesThere(c, Grav, GpartPhase.PlacesOf(s.gparts[..]));
  }

  /** A particle of progeny j and its gpart, at the same place, of progeny k: the two are the same
      progeny, except for gas exactly when a coordinate lies on a pivot plane. */
  lemma CoupleTogether(c: Cell, k: Kind, xs: seq<Vec>, gxs: seq<Vec>, pivot: Vec, j: int, i: int, l: int, g: int)
    requires HasPartner(k) && Full(c) && SplitUp(c, SpeciesOf(k), xs, pivot) && SplitUp(c, Grav, gxs, pivot)
    requires 0 <= j < 8 && c.progeny[j].Win(SpeciesOf(k)).start <= i < c.progeny[j].End(SpeciesOf(k))
    requires 0 <= l < 8 && c.progeny[l].Win(Grav).start <= g < c.progeny[l].End(Grav)
    requires 0 <= i < |xs| && 0 <= g < |gxs| && xs[i] == gxs[g]
    ensures j == l <==> (k == GasKind ==> xs[i].x != pivot.x && xs[i].y != pivot.y && xs[i].z != pivot.z)
  {
    SameOctant(xs[i], pivot);
    hide Octant;
    assert Octant(xs[i], pivot, k == GasKind) == j;
    assert Octant(gxs[g], pivot, false) == l;
  }
}
