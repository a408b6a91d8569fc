/**
 cell_reorder_extra_parts, _sparts, _sinks and _gparts: after the rebuild the slots kept free for new
 particles are anywhere in the window of a top-level cell; they are moved to its end.
 */
module ExtraSlots {
  import opened Octree
  import opened Particles
  import opened SpaceData
  import opened Buckets
  import opened Partition
  import opened LiveTree
  import CellSplit
  import ParticlePhase
  import GpartPhase

  // ----- counting free slots -----

  /** How many slots of [lo, hi) are free. */
  ghost function Extra(bins: seq<TimeBin>, lo: int, hi: int): nat
    requires 0 <= lo <= hi <= |bins|
  {
    multiset(bins[lo..hi])[NotCreated]
  }

  lemma ExtraSum(bins: seq<TimeBin>, lo: int, mid: int, hi: int)
    requires 0 <= lo <= mid <= hi <= |bins|
    ensures Extra(bins, lo, hi) == Extra(bins, lo, mid) + Extra(bins, mid, hi)
  {
    assert bins[lo..hi] == bins[lo..mid] + bins[mid..hi];
  }

  lemma {:induction false} ExtraBounds(bins: seq<TimeBin>, lo: int, hi: int)
    requires 0 <= lo <= hi <= |bins|
    ensures Extra(bins, lo, hi) <= hi - lo
    ensures Extra(bins, lo, hi) == hi - lo <==> forall i :: lo <= i < hi ==> bins[i].NotCreated?
    ensures Extra(bins, lo, hi) == 0 <==> forall i :: lo <= i < hi ==> !bins[i].NotCreated?
    decreases hi - lo
  {
    if lo < hi {
      ExtraSum(bins, lo, hi - 1, hi);
      ExtraBounds(bins, lo, hi - 1);
      assert bins[hi - 1..hi] == [bins[hi - 1]];
    }
  }

  lemma ExtraSwapped(bins: seq<TimeBin>, lo: int, hi: int, i: int, f: int)
    requires 0 <= lo <= i < f < hi <= |bins|
    ensures Extra(Swapped(bins, i, f), lo, hi) == Extra(bins, lo, hi)
  {
    var _ := SwapKeeps(bins[lo..hi], i - lo, f - lo);
    assert Swapped(bins, i, f)[lo..hi] == bins[lo..hi][i - lo := bins[lo..hi][f - lo]][f - lo := bins[lo..hi][i - lo]];
  }

  lemma SwapInside<T>(s: seq<T>, lo: int, hi: int, i: int, f: int)
    requires 0 <= lo <= i < f < hi <= |s|
    ensures CellSplit.Kept(s, Swapped(s, i, f), lo, hi)
  {
    var part := SwapKeeps(s[lo..hi], i - lo, f - lo);
    assert s[lo..hi][i - lo] == s[i] && s[lo..hi][f - lo] == s[f];
    assert Swapped(s, i, f)[lo..hi] == part;
  }

  /** The loop of all four functions, before round `i`: the slots before `i` are taken, and those between the
      end of the taken part and `f` are free. */
  ghost predicate Sorting(bins: seq<TimeBin>, lo: int, count: int, total: int, i: int, f: int, extra: nat) {
    && 0 <= lo <= i <= lo + count <= f <= lo + total <= |bins|
    && (forall j :: lo <= j < i ==> !bins[j].NotCreated?)
    && (forall j :: lo + count <= j < f ==> bins[j].NotCreated?)
    && Extra(bins, lo, lo + total) == extra
  }

  lemma SortingStep(bins: seq<TimeBin>, lo: int, count: int, total: int, i: int, f: int, extra: nat)
    requires Sorting(bins, lo, count, total, i, f, extra) && i < lo + count && f < lo + total
    requires bins[i].NotCreated? && !bins[f].NotCreated?
    ensures Sorting(Swapped(bins, i, f), lo, count, total, i + 1, f, extra)
  {
    hide Extra;
    ExtraSwapped(bins, lo, lo + total, i, f);
  }

  /** Pigeonhole: with a free slot at `i` the scan meets a particle unless there are too few of them. */
  lemma ScanStops(bins: seq<TimeBin>, lo: int, count: int, total: int, i: int, f: int, extra: nat)
    requires Sorting(bins, lo, count, total, i, f, extra) && i < lo + count && bins[i].NotCreated?
    ensures extra <= total - count ==> exists j :: f <= j < lo + total && !bins[j].NotCreated?
    ensures f == lo + total ==> extra > total - count
  {
    hide Extra;
    ExtraSum(bins, lo, lo + count, lo + total);
    ExtraBounds(bins, lo, lo + count);
    assert Extra(bins, lo, lo + count) > 0;
    ExtraSum(bins, lo + count, f, lo + total);
    ExtraBounds(bins, lo + count, f);
    ExtraBounds(bins, f, lo + total);
  }

  /** At the end, if the count is right, the free slots are the last ones. */
  lemma SortingEnds(bins: seq<TimeBin>, lo: int, count: int, total: int, f: int, extra: nat)
    requires Sorting(bins, lo, count, total, lo + count, f, extra)
    ensures extra <= total - count
    ensures extra == total - count ==> forall j :: lo + count <= j < lo + total ==> bins[j].NotCreated?
  {
    hide Extra;
    ExtraSum(bins, lo, lo + count, lo + total);
    ExtraBounds(bins, lo, lo + count);
    assert Extra(bins, lo, lo + count) == 0;
    ExtraBounds(bins, lo + count, lo + total);
  }

  // ----- particles -----

  /** The free slots belong to no gpart. */
  ghost predicate ExtraUnlinked(ps: seq<Particle>) {
    forall i :: 0 <= i < |ps| && ps[i].bin.NotCreated? ==> ps[i].gpart == NULL
  }

  /** A particle changes places with a free slot, and its gpart is told. */
  lemma SwapKeepsLinks(ps: seq<Particle>, gs: seq<Gpart>, k: Kind, i: int, f: int)
    requires HasPartner(k) && Linked(ps, gs, k) && 0 <= i < f < |ps| && ps[i].gpart == NULL
    ensures Linked(Swapped(ps, i, f), ParticlePhase.Told(gs, ps[f], i), k)
  {
    SwapKeepsForward(ps, gs, k, i, f);
    SwapKeepsBack(ps, gs, k, i, f);
  }

  lemma SwapKeepsForward(ps: seq<Particle>, gs: seq<Gpart>, k: Kind, i: int, f: int)
    requires PointsToGpart(ps, gs, k) && 0 <= i < f < |ps| && ps[i].gpart == NULL
    ensures PointsToGpart(Swapped(ps, i, f), ParticlePhase.Told(gs, ps[f], i), k)
  {
    var ps1, gs1 := Swapped(ps, i, f), ParticlePhase.Told(gs, ps[f], i);
    forall j | 0 <= j < |ps1| && ps1[j].gpart != NULL
      ensures 0 <= ps1[j].gpart < |gs1| && gs1[ps1[j].gpart].kind == k && gs1[ps1[j].gpart].idOrNegOffset == -j
    {
      hide PointsToGpart;
      LinkOf(ps, gs, k, if j == i then f else j);
      if ps[f].gpart != NULL { LinkOf(ps, gs, k, f); }
    }
  }

  lemma SwapKeepsBack(ps: seq<Particle>, gs: seq<Gpart>, k: Kind, i: int, f: int)
    requires PointsToParticle(ps, gs, k) && 0 <= i < f < |ps| && ps[i].gpart == NULL
    ensures PointsToParticle(Swapped(ps, i, f), ParticlePhase.Told(gs, ps[f], i), k)
  {
    var ps1, gs1 := Swapped(ps, i, f), ParticlePhase.Told(gs, ps[f], i);
    forall g | 0 <= g < |gs1| && gs1[g].kind == k
      ensures 0 <= -gs1[g].idOrNegOffset < |ps1| && ps1[-gs1[g].idOrNegOffset].gpart == g
    {
      LinkBackOf(ps, gs, k, g);
      BackAfterSwap(ps, gs, i, f, g);
    }
  }

  lemma BackAfterSwap(ps: seq<Particle>, gs: seq<Gpart>, i: int, f: int, g: int)
    requires 0 <= i < f < |ps| && ps[i].gpart == NULL && 0 <= g < |gs|
    requires 0 <= -gs[g].idOrNegOffset < |ps| && ps[-gs[g].idOrNegOffset].gpart == g
    ensures var gs1, ps1 := ParticlePhase.Told(gs, ps[f], i), Swapped(ps, i, f);
      |gs1| == |gs| && 0 <= -gs1[g].idOrNegOffset < |ps1| && ps1[-gs1[g].idOrNegOffset].gpart == g
  {
  }

  lemma SwapKeepsCouples(ps: seq<Particle>, gs: seq<Gpart>, k: Kind, i: int, f: int)
    requires HasPartner(k) && PointsToGpart(ps, gs, k) && 0 <= i < f < |ps| && ps[i].gpart == NULL
    ensures BareGparts(ParticlePhase.Told(gs, ps[f], i)) == BareGparts(gs)
    ensures Couples(Swapped(ps, i, f), ParticlePhase.Told(gs, ps[f], i)) == Swapped(Couples(ps, gs), i, f)
  {
    var gs1 := ParticlePhase.Told(gs, ps[f], i);
    if ps[f].gpart != NULL { LinkOf(ps, gs, k, f); }
    assert BareGparts(gs1) == BareGparts(gs);
    CellSplit.SameCouples(Swapped(ps, i, f), gs, gs1);
    assert Couples(Swapped(ps, i, f), gs) == Swapped(Couples(ps, gs), i, f);
  }

  /** The gparts of other kinds are as they were. */
  ghost predicate OthersSame(gs0: seq<Gpart>, gs: seq<Gpart>, k: Kind) {
    |gs| == |gs0| && forall g :: 0 <= g < |gs| ==> gs[g].kind == gs0[g].kind && (gs[g].kind != k ==> gs[g] == gs0[g])
  }

  lemma OthersStayLinked(others: seq<Particle>, gs0: seq<Gpart>, gs: seq<Gpart>, k: Kind, o: Kind)
    requires OthersSame(gs0, gs, k) && o != k && Linked(others, gs0, o)
    ensures Linked(others, gs, o)
  {
    forall i | 0 <= i < |others| && others[i].gpart != NULL
      ensures 0 <= others[i].gpart < |gs| && gs[others[i].gpart].kind == o && gs[others[i].gpart].idOrNegOffset == -i
    {
      LinkOf(others, gs0, o, i);
    }
    forall g | 0 <= g < |gs| && gs[g].kind == o
      ensures 0 <= -gs[g].idOrNegOffset < |others| && others[-gs[g].idOrNegOffset].gpart == g
    {
      LinkBackOf(others, gs0, o, g);
    }
  }

  /** Everything the loop over the particles keeps. */
  ghost predicate Tidy(ps0: seq<Particle>, gs0: seq<Gpart>, ps: seq<Particle>, gs: seq<Gpart>, k: Kind, lo: int,
        hi: int) {
    && Linked(ps, gs, k) && ExtraUnlinked(ps)
    && CellSplit.Kept(Couples(ps0, gs0), Couples(ps, gs), lo, hi)
    && BareGparts(gs) == BareGparts(gs0) && OthersSame(gs0, gs, k)
  }

  lemma TidyStep(ps0: seq<Particle>, gs0: seq<Gpart>, ps: seq<Particle>, gs: seq<Gpart>, k: Kind, lo: int, hi: int,
        i: int, f: int)
    requires HasPartner(k) && Tidy(ps0, gs0, ps, gs, k, lo, hi) && 0 <= lo <= i < f < hi <= |ps|
    requires ps[i].bin.NotCreated?
    ensures Tidy(ps0, gs0, Swapped(ps, i, f), ParticlePhase.Told(gs, ps[f], i), k, lo, hi)
  {
    hide BareGpart, BareGparts, CellSplit.Kept, CoupleOf, Couples, HasPartner, OthersSame, ParticlePhase.Told,
      PointsToGpart, PointsToParticle;
    assert Linked(ps, gs, k) && ExtraUnlinked(ps) && PointsToGpart(ps, gs, k);
    assert ps[i].gpart == NULL;
    var ps1, gs1 := Swapped(ps, i, f), ParticlePhase.Told(gs, ps[f], i);
    SwapKeepsLinks(ps, gs, k, i, f);
    SwapKeepsCouples(ps, gs, k, i, f);
    SwapInside(Couples(ps, gs), lo, hi, i, f);
    assert CellSplit.Kept(Couples(ps0, gs0), Couples(ps1, gs1), lo, hi) by {
      CellSplit.KeptTwice(Couples(ps0, gs0), Couples(ps, gs), Couples(ps1, gs1), lo, hi);
    }
    assert ExtraUnlinked(ps1);
    assert OthersSame(gs0, gs1, k) by {
      assert OthersSame(gs0, gs, k);
      ToldSame(ps, gs0, gs, k, i, f);
    }
  }

  lemma ToldSame(ps: seq<Particle>, gs0: seq<Gpart>, gs: seq<Gpart>, k: Kind, i: int, f: int)
    requires OthersSame(gs0, gs, k) && PointsToGpart(ps, gs, k) && 0 <= f < |ps|
    ensures OthersSame(gs0, ParticlePhase.Told(gs, ps[f], i), k)
  {
    if ps[f].gpart != NULL { LinkOf(ps, gs, k, f); }
  }

  /** The inner loop: the first taken slot from `f` on, or the end of the window. */
  method NextTaken(ps: array<Particle>, f: nat, end: nat) returns (r: nat)
    requires f <= end <= ps.Length
    ensures f <= r <= end && (r < end ==> !ps[r].bin.NotCreated?)
    ensures forall j :: f <= j < r ==> ps[j].bin.NotCreated?
  {
    r := f;
    while r < end && ps[r].bin.NotCreated?
      invariant f <= r <= end && forall j :: f <= j < r ==> ps[j].bin.NotCreated?
    {
      r := r + 1;
    }
  }

  /** memswap, and the gpart pointer. */
  method Exchange(ps: array<Particle>, gs: array<Gpart>, i: nat, f: nat, clear: bool)
    requires i < f < ps.Length && ps[i].gpart == NULL && (ps[f].gpart != NULL ==> 0 <= ps[f].gpart < gs.Length)
    modifies ps, gs
    ensures ps[..] == Swapped(old(ps[..]), i, f)
    ensures gs[..] == ParticlePhase.Told(old(gs[..]), old(ps[f]), i)
  {
    var place: int := i;
    ps[i], ps[f] := ps[f], ps[i];
    if ps[i].gpart != NULL {
      gs[ps[i].gpart] := gs[ps[i].gpart].(idOrNegOffset := -place);
    }
    if clear {
      ps[f] := ps[f].(gpart := NULL);
    }
  }

  /** The loops of cell_reorder_extra_parts, and with `clear` of cell_reorder_extra_sparts and _sinks. */
  method ReorderArray(ps: array<Particle>, gs: array<Gpart>, k: Kind, lo: nat, count: nat, total: nat, clear: bool)
    returns (ok: bool)
    requires HasPartner(k) && count <= total && lo + total <= ps.Length
    requires Linked(ps[..], gs[..], k) && ExtraUnlinked(ps[..])
    modifies ps, gs
    ensures ok <==> old(Extra(Bins(ps[..]), lo, lo + total)) <= total - count
    ensures ok ==> forall i :: lo <= i < lo + count ==> !ps[i].bin.NotCreated?
    ensures old(Extra(Bins(ps[..]), lo, lo + total)) == total - count ==> FreeSlots(ps[..], Window(lo, count, total))
    ensures Tidy(old(ps[..]), old(gs[..]), ps[..], gs[..], k, lo, lo + total)
  {
    hide Bins, Extra, ExtraUnlinked, FreeSlots, HasPartner, Linked, ParticlePhase.Told, Swapped, Tidy;
    ghost var ps0, gs0, extra := ps[..], gs[..], Extra(Bins(ps[..]), lo, lo + total);
    var f := lo + count;
    assert Tidy(ps0, gs0, ps0, gs0, k, lo, lo + total) by { TidyStarts(ps0, gs0, k, lo, lo + total); }
    assert Sorting(Bins(ps[..]), lo, count, total, lo, f, extra);
    for i := lo to lo + count
      invariant f <= lo + total && lo + count <= f
      invariant Sorting(Bins(ps[..]), lo, count, total, i, f, extra)
      invariant Tidy(ps0, gs0, ps[..], gs[..], k, lo, lo + total)
    {
      ghost var now := ps[..];
      if ps[i].bin.NotCreated? {
        var r := NextTaken(ps, f, lo + total);
        Scanned(now, lo, count, total, i, f, r, extra);
        if r == lo + total { return false; }
        f := r;
        LinkAt(now, gs[..], k, i, f, ps0, gs0, lo, lo + total);
        TidyStep(ps0, gs0, now, gs[..], k, lo, lo + total, i, f);
        Exchange(ps, gs, i, f, clear);
        MovedDown(now, lo, count, total, i, f, extra);
      } else {
        Passed(now, lo, count, total, i, f, extra);
      }
    }
    SortingEnds(Bins(ps[..]), lo, count, total, f, extra);
    Freed(ps0, gs0, ps[..], gs[..], k, lo, count, total, f, extra);
    assert forall i :: lo <= i < lo + count ==> !ps[i].bin.NotCreated? by {
      assert forall i :: lo <= i < lo + count ==> ps[i] == ps[..][i];
    }
    ok := true;
  }

  /** cell_reorder_extra_parts, _sparts and _sinks.  The scan for a particle to move down leaves the window exactly
      when the window has fewer particles than `count`; with as many as that, they end up in front and the free
      slots behind them.  All links hold, and every particle keeps its gpart. */
  method ReorderExtra(s: Space, k: Kind, lo: nat, count: nat, total: nat) returns (ok: bool)
    requires HasPartner(k) && s.Apart() && count <= total && lo + total <= s.Array(k).Length
    requires AllLinked(s.All(), s.gparts[..]) && ExtraUnlinked(s.Array(k)[..])
    modifies s.Array(k), s.gparts
    ensures ok <==> old(Extra(Bins(s.Array(k)[..]), lo, lo + total)) <= total - count
    ensures ok ==> forall i :: lo <= i < lo + count ==> !s.Array(k)[i].bin.NotCreated?
    ensures old(Extra(Bins(s.Array(k)[..]), lo, lo + total)) == total - count ==>
      FreeSlots(s.Array(k)[..], Window(lo, count, total))
    ensures AllLinked(s.All(), s.gparts[..]) && ExtraUnlinked(s.Array(k)[..])
    ensures CellSplit.Kept(old(Couples(s.Array(k)[..], s.gparts[..])), Couples(s.Array(k)[..], s.gparts[..]), lo,
      lo + total)
    ensures BareGparts(s.gparts[..]) == old(BareGparts(s.gparts[..]))
    ensures forall o :: HasPartner(o) && o != k ==>
      s.All().Of(o) == old(s.All().Of(o))
        && Couples(s.All().Of(o), s.gparts[..]) == old(Couples(s.All().Of(o), s.gparts[..]))
  {
    hide BareGparts, Bins, CellSplit.Kept, Couples, Extra, ExtraUnlinked, FreeSlots, Linked, OthersSame, Tidy;
    ghost var all0, gs0, ps0 := s.All(), s.gparts[..], s.Array(k)[..];
    assert all0.Of(k) == ps0;
    assert Linked(all0.Of(k), gs0, k);
    ok := ReorderArray(s.Array(k), s.gparts, k, lo, count, total, k != GasKind);
    assert s.All() == all0.With(k, s.Array(k)[..]);
    TidyForAll(all0, gs0, s.Array(k)[..], s.gparts[..], k, lo, lo + total);
  }

  lemma TidyForAll(all0: Partners, gs0: seq<Gpart>, ps: seq<Particle>, gs: seq<Gpart>, k: Kind, lo: int, hi: int)
    requires HasPartner(k) && AllLinked(all0, gs0) && Tidy(all0.Of(k), gs0, ps, gs, k, lo, hi)
    ensures AllLinked(all0.With(k, ps), gs) && ExtraUnlinked(ps)
    ensures CellSplit.Kept(Couples(all0.Of(k), gs0), Couples(ps, gs), lo, hi) && BareGparts(gs) == BareGparts(gs0)
    ensures forall o :: HasPartner(o) && o != k ==> Couples(all0.Of(o), gs) == Couples(all0.Of(o), gs0)
  {
    hide BareGparts, CellSplit.Kept, Couples, ExtraUnlinked, HasPartner, Linked, OthersSame, Partners.Of;
    forall o | HasPartner(o)
      ensures Linked(all0.With(k, ps).Of(o), gs, o)
      ensures o != k ==> Couples(all0.Of(o), gs) == Couples(all0.Of(o), gs0)
    {
      if o != k {
        assert Linked(all0.Of(o), gs0, o);
        OthersStayLinked(all0.Of(o), gs0, gs, k, o);
        CellSplit.SameCouples(all0.Of(o), gs0, gs);
      }
    }
  }

  lemma TidyStarts(ps: seq<Particle>, gs: seq<Gpart>, k: Kind, lo: int, hi: int)
    requires Linked(ps, gs, k) && ExtraUnlinked(ps) && 0 <= lo <= hi <= |ps|
    ensures Tidy(ps, gs, ps, gs, k, lo, hi)
  {
  }

  lemma Scanned(ps: seq<Particle>, lo: int, count: int, total: int, i: int, f: int, r: int, extra: nat)
    requires Sorting(Bins(ps), lo, count, total, i, f, extra) && lo <= i < lo + count && ps[i].bin.NotCreated?
    requires f <= r <= lo + total && forall j :: f <= j < r ==> ps[j].bin.NotCreated?
    ensures Sorting(Bins(ps), lo, count, total, i, r, extra)
    ensures r == lo + total ==> extra > total - count
  {
    assert forall j :: 0 <= j < |ps| ==> Bins(ps)[j] == ps[j].bin;
    ScanStops(Bins(ps), lo, count, total, i, r, extra);
  }

  lemma LinkAt(ps: seq<Particle>, gs: seq<Gpart>, k: Kind, i: int, f: int, ps0: seq<Particle>, gs0: seq<Gpart>, lo: int,
        hi: int)
    requires Tidy(ps0, gs0, ps, gs, k, lo, hi) && 0 <= i < f < |ps| && ps[i].bin.NotCreated?
    ensures ps[i].gpart == NULL && (ps[f].gpart != NULL ==> 0 <= ps[f].gpart < |gs|)
  {
    if ps[f].gpart != NULL { LinkOf(ps, gs, k, f); }
  }

  lemma MovedDown(ps: seq<Particle>, lo: int, count: int, total: int, i: int, f: int, extra: nat)
    requires Sorting(Bins(ps), lo, count, total, i, f, extra) && i < lo + count && f < lo + total
    requires ps[i].bin.NotCreated? && !ps[f].bin.NotCreated?
    ensures Sorting(Bins(Swapped(ps, i, f)), lo, count, total, i + 1, f, extra)
  {
    assert lo <= i < f < lo + total <= |ps|;
    assert Bins(Swapped(ps, i, f)) == Swapped(Bins(ps), i, f);
    SortingStep(Bins(ps), lo, count, total, i, f, extra);
  }

  lemma Passed(ps: seq<Particle>, lo: int, count: int, total: int, i: int, f: int, extra: nat)
    requires Sorting(Bins(ps), lo, count, total, i, f, extra) && i < lo + count && !ps[i].bin.NotCreated?
    ensures Sorting(Bins(ps), lo, count, total, i + 1, f, extra)
  {
  }

  lemma Freed(ps0: seq<Particle>, gs0: seq<Gpart>, ps: seq<Particle>, gs: seq<Gpart>, k: Kind, lo: int, count: int,
        total: int, f: int, extra: nat)
    requires Tidy(ps0, gs0, ps, gs, k, lo, lo + total) && Sorting(Bins(ps), lo, count, total, lo + count, f, extra)
    requires extra == total - count ==> forall j :: lo + count <= j < lo + total ==> Bins(ps)[j].NotCreated?
    requires 0 <= count <= total
    ensures extra == total - count ==> FreeSlots(ps, Window(lo, count, total))
  {
    assert forall j :: 0 <= j < |ps| ==> Bins(ps)[j] == ps[j].bin;
  }

  // ----- gparts -----

  /** The free slots have no partner. */
  ghost predicate ExtraAlone(gs: seq<Gpart>) {
    forall i :: 0 <= i < |gs| && gs[i].bin.NotCreated? ==> !HasPartner(gs[i].kind)
  }

  /** A gpart changes places with a free slot, and its partner is told: what that means for one particle ... */
  lemma PartnerAfterSwap(all: Partners, gs: seq<Gpart>, k: Kind, i: int, f: int, p: int)
    requires HasPartner(k) && Linked(all.Of(k), gs, k) && 0 <= i < f < |gs| && !HasPartner(gs[i].kind)
    requires 0 <= p < |all.Of(k)|
    ensures |all.Pointed(gs[f], i).Of(k)| == |all.Of(k)|
    ensures var q := all.Pointed(gs[f], i).Of(k)[p];
      && q == all.Of(k)[p].(gpart := q.gpart)
      && (q.gpart == NULL <==> all.Of(k)[p].gpart == NULL)
      && (q.gpart != NULL ==>
        0 <= q.gpart < |gs| && Swapped(gs, i, f)[q.gpart].kind == k && Swapped(gs, i, f)[q.gpart].idOrNegOffset == -p)
      && CoupleOf(q, Swapped(gs, i, f)) == CoupleOf(all.Of(k)[p], gs)
  {
    hide Partners.Of, Partners.Pointed, PointsToGpart, PointsToParticle;
    GpartPhase.PointedAt(all, gs[f], i, k, p);
    if gs[f].kind == k { LinkBackOf(all.Of(k), gs, k, f); }
    if all.Of(k)[p].gpart != NULL { LinkOf(all.Of(k), gs, k, p); }
  }

  /** ... and for one gpart. */
  lemma GpartAfterSwap(all: Partners, gs: seq<Gpart>, k: Kind, i: int, f: int, g: int)
    requires HasPartner(k) && PointsToParticle(all.Of(k), gs, k) && 0 <= i < f < |gs| && !HasPartner(gs[i].kind)
    requires |all.Pointed(gs[f], i).Of(k)| == |all.Of(k)|
    requires 0 <= g < |gs| && Swapped(gs, i, f)[g].kind == k
    ensures var p := -Swapped(gs, i, f)[g].idOrNegOffset;
      0 <= p < |all.Of(k)| && all.Pointed(gs[f], i).Of(k)[p].gpart == g
  {
    hide Partners.Of, Partners.Pointed, PointsToParticle;
    if g == f { assert false; }
    var g0 := if g == i then f else g;
    LinkBackOf(all.Of(k), gs, k, g0);
    if gs[f].kind == k { LinkBackOf(all.Of(k), gs, k, f); }
    GpartPhase.PointedAt(all, gs[f], i, k, -gs[g0].idOrNegOffset);
  }

  lemma PointedSize(all: Partners, g: Gpart, i: int, k: Kind)
    requires HasPartner(k)
    ensures |all.Pointed(g, i).Of(k)| == |all.Of(k)|
  {
  }

  lemma GpartSwapForward(all: Partners, gs: seq<Gpart>, k: Kind, i: int, f: int)
    requires HasPartner(k) && Linked(all.Of(k), gs, k) && 0 <= i < f < |gs| && !HasPartner(gs[i].kind)
    ensures PointsToGpart(all.Pointed(gs[f], i).Of(k), Swapped(gs, i, f), k)
    ensures Couples(all.Pointed(gs[f], i).Of(k), Swapped(gs, i, f)) == Couples(all.Of(k), gs)
  {
    hide Partners.Of, Partners.Pointed, Linked, CoupleOf, HasPartner;
    PointedSize(all, gs[f], i, k);
    assert |Swapped(gs, i, f)| == |gs|;
    forall p | 0 <= p < |all.Of(k)|
      ensures var q := all.Pointed(gs[f], i).Of(k)[p];
        && CoupleOf(q, Swapped(gs, i, f)) == CoupleOf(all.Of(k)[p], gs)
        && (q.gpart != NULL ==>
          0 <= q.gpart < |gs| && Swapped(gs, i, f)[q.gpart].kind == k && Swapped(gs, i, f)[q.gpart].idOrNegOffset == -p)
    {
      PartnerAfterSwap(all, gs, k, i, f, p);
    }
  }

  lemma GpartSwapBack(all: Partners, gs: seq<Gpart>, k: Kind, i: int, f: int)
    requires HasPartner(k) && PointsToParticle(all.Of(k), gs, k) && 0 <= i < f < |gs| && !HasPartner(gs[i].kind)
    ensures PointsToParticle(all.Pointed(gs[f], i).Of(k), Swapped(gs, i, f), k)
  {
    hide Partners.Of, Partners.Pointed, HasPartner;
    PointedSize(all, gs[f], i, k);
    var ps1, gs1 := all.Pointed(gs[f], i).Of(k), Swapped(gs, i, f);
    assert |gs1| == |gs|;
    forall g | 0 <= g < |gs1| && gs1[g].kind == k
      ensures 0 <= -gs1[g].idOrNegOffset < |ps1| && ps1[-gs1[g].idOrNegOffset].gpart == g
    {
      hide PointsToParticle;
      GpartAfterSwap(all, gs, k, i, f, g);
    }
  }

  lemma GpartSwapKeeps(all: Partners, gs: seq<Gpart>, k: Kind, i: int, f: int)
    requires HasPartner(k) && Linked(all.Of(k), gs, k) && 0 <= i < f < |gs| && !HasPartner(gs[i].kind)
    ensures Linked(all.Pointed(gs[f], i).Of(k), Swapped(gs, i, f), k)
    ensures Couples(all.Pointed(gs[f], i).Of(k), Swapped(gs, i, f)) == Couples(all.Of(k), gs)
  {
    hide Counts.Of, CoupleOf, Couples, HasPartner, Partners.Of, Partners.Pointed, PointsToGpart, PointsToParticle,
      Swapped;

    GpartSwapForward(all, gs, k, i, f);
    GpartSwapBack(all, gs, k, i, f);
  }

  /** Everything the loop over the gparts keeps. */
  ghost predicate GpartsTidy(all0: Partners, gs0: seq<Gpart>, all: Partners, gs: seq<Gpart>, lo: int, hi: int) {
    && AllLinked(all, gs) && ExtraAlone(gs)
    && CellSplit.Kept(BareGparts(gs0), BareGparts(gs), lo, hi)
    && forall k :: HasPartner(k) ==> Couples(all.Of(k), gs) == Couples(all0.Of(k), gs0)
  }

  lemma GpartsTidyStep(all0: Partners, gs0: seq<Gpart>, all: Partners, gs: seq<Gpart>, lo: int, hi: int, i: int, f: int)
    requires GpartsTidy(all0, gs0, all, gs, lo, hi) && 0 <= lo <= i < f < hi <= |gs| && gs[i].bin.NotCreated?
    ensures GpartsTidy(all0, gs0, all.Pointed(gs[f], i), Swapped(gs, i, f), lo, hi)
  {
    hide BareGpart, BareGparts, CellSplit.Kept, Counts.Of, CoupleOf, Couples, HasPartner, Linked, Partners.Of,
      Partners.Pointed;
    var all1, gs1 := all.Pointed(gs[f], i), Swapped(gs, i, f);
    assert AllLinked(all, gs) && ExtraAlone(gs);
    assert !HasPartner(gs[i].kind);
    forall k | HasPartner(k)
      ensures Linked(all1.Of(k), gs1, k) && Couples(all1.Of(k), gs1) == Couples(all0.Of(k), gs0)
    {
      assert Linked(all.Of(k), gs, k);
      GpartSwapKeeps(all, gs, k, i, f);
      assert Couples(all.Of(k), gs) == Couples(all0.Of(k), gs0);
    }
    assert AllLinked(all1, gs1);
    assert ExtraAlone(gs1);
    assert BareGparts(gs1) == Swapped(BareGparts(gs), i, f);
    SwapInside(BareGparts(gs), lo, hi, i, f);
    assert CellSplit.Kept(BareGparts(gs0), BareGparts(gs1), lo, hi) by {
      CellSplit.KeptTwice(BareGparts(gs0), BareGparts(gs), BareGparts(gs1), lo, hi);
    }
  }

  method NextTakenGpart(gs: array<Gpart>, f: nat, end: nat) returns (r: nat)
    requires f <= end <= gs.Length
    ensures f <= r <= end && (r < end ==> !gs[r].bin.NotCreated?)
    ensures forall j :: f <= j < r ==> gs[j].bin.NotCreated?
  {
    r := f;
    while r < end && gs[r].bin.NotCreated?
      invariant f <= r <= end && forall j :: f <= j < r ==> gs[j].bin.NotCreated?
    {
      r := r + 1;
    }
  }

  /** memswap_unaligned, and the pointer of the partner. */
  method ExchangeGparts(s: Space, i: nat, f: nat)
    requires s.Apart() && i < f < s.gparts.Length && !HasPartner(s.gparts[i].kind)
    requires HasPartner(s.gparts[f].kind) ==> 0 <= -s.gparts[f].idOrNegOffset < |s.All().Of(s.gparts[f].kind)|
    modifies s.gparts, s.parts, s.sparts, s.sinks, s.bparts
    ensures s.gparts[..] == Swapped(old(s.gparts[..]), i, f)
    ensures s.All() == old(s.All()).Pointed(old(s.gparts[f]), i)
  {
    s.gparts[i], s.gparts[f] := s.gparts[f], s.gparts[i];
    var p := -s.gparts[i].idOrNegOffset;
    if s.gparts[i].kind == GasKind {
      s.parts[p] := s.parts[p].(gpart := i);
    } else if s.gparts[i].kind == SinkKind {
      s.sinks[p] := s.sinks[p].(gpart := i);
    } else if s.gparts[i].kind == StarKind {
      s.sparts[p] := s.sparts[p].(gpart := i);
    } else if s.gparts[i].kind == BlackHoleKind {
      s.bparts[p] := s.bparts[p].(gpart := i);
    }
  }

  /** cell_reorder_extra_gparts */
  method ReorderExtraGparts(s: Space, lo: nat, count: nat, total: nat) returns (ok: bool)
    requires s.Apart() && count <= total && lo + total <= s.gparts.Length
    requires AllLinked(s.All(), s.gparts[..]) && ExtraAlone(s.gparts[..])
    modifies s.gparts, s.parts, s.sparts, s.sinks, s.bparts
    ensures ok <==> old(Extra(GpartBins(s.gparts[..]), lo, lo + total)) <= total - count
    ensures ok ==> forall i :: lo <= i < lo + count ==> !s.gparts[i].bin.NotCreated?
    ensures old(Extra(GpartBins(s.gparts[..]), lo, lo + total)) == total - count ==>
      FreeGpartSlots(s.gparts[..], Window(lo, count, total))
    ensures GpartsTidy(old(s.All()), old(s.gparts[..]), s.All(), s.gparts[..], lo, lo + total)
  {
    hide AllLinked, BareGpart, BareGparts, Counts.Of, CoupleOf, Couples, Extra, ExtraAlone, FreeGpartSlots, GpartBins,
      HasPartner, Partners.Of, Space.All, Space.Apart;
    ghost var all0, gs0, extra := s.All(), s.gparts[..], Extra(GpartBins(s.gparts[..]), lo, lo + total);
    var f := lo + count;
    assert GpartsTidy(all0, gs0, all0, gs0, lo, lo + total);
    assert Sorting(GpartBins(gs0), lo, count, total, lo, f, extra);
    for i := lo to lo + count
      invariant f <= lo + total && lo + count <= f
      invariant Sorting(GpartBins(s.gparts[..]), lo, count, total, i, f, extra)
      invariant GpartsTidy(all0, gs0, s.All(), s.gparts[..], lo, lo + total)
    {
      ghost var now := s.gparts[..];
      assert now[i] == s.gparts[i];
      if s.gparts[i].bin.NotCreated? {
        var r := NextTakenGpart(s.gparts, f, lo + total);
        GpartsScanned(now, lo, count, total, i, f, r, extra);
        if r == lo + total { return false; }
        f := r;
        MoveGpartDown(s, lo, count, total, i, f, extra, all0, gs0);
      } else {
        GpartPassed(now, lo, count, total, i, f, extra);
      }
    }
    SortingEnds(GpartBins(s.gparts[..]), lo, count, total, f, extra);
    GpartsFreed(s.gparts[..], lo, count, total, f, extra);
    assert forall i :: lo <= i < lo + count ==> !s.gparts[i].bin.NotCreated? by {
      assert forall i :: lo <= i < lo + count ==> s.gparts[i] == s.gparts[..][i];
    }
    ok := true;
  }

  method MoveGpartDown(s: Space, ghost lo: nat, ghost count: nat, ghost total: nat, i: nat, f: nat, ghost extra: nat,
                       ghost all0: Partners, ghost gs0: seq<Gpart>)
    requires s.Apart() && lo <= i < lo + count <= f < lo + total <= s.gparts.Length
    requires s.gparts[i].bin.NotCreated? && !s.gparts[f].bin.NotCreated?
    requires Sorting(GpartBins(s.gparts[..]), lo, count, total, i, f, extra)
    requires GpartsTidy(all0, gs0, s.All(), s.gparts[..], lo, lo + total)
    modifies s.gparts, s.parts, s.sparts, s.sinks, s.bparts
    ensures Sorting(GpartBins(s.gparts[..]), lo, count, total, i + 1, f, extra)
    ensures GpartsTidy(all0, gs0, s.All(), s.gparts[..], lo, lo + total)
  {
    hide *;
    ghost var all, now := s.All(), s.gparts[..];
    assert now[i] == s.gparts[i] && now[f] == s.gparts[f];
    PartnerAt(all0, gs0, all, now, lo, lo + total, i, f);
    GpartsTidyStep(all0, gs0, all, now, lo, lo + total, i, f);
    ExchangeGparts(s, i, f);
    GpartMovedDown(now, lo, count, total, i, f, extra);
  }

  lemma GpartsScanned(gs: seq<Gpart>, lo: int, count: int, total: int, i: int, f: int, r: int, extra: nat)
    requires Sorting(GpartBins(gs), lo, count, total, i, f, extra) && lo <= i < lo + count && gs[i].bin.NotCreated?
    requires f <= r <= lo + total && forall j :: f <= j < r ==> gs[j].bin.NotCreated?
    ensures Sorting(GpartBins(gs), lo, count, total, i, r, extra)
    ensures r == lo + total ==> extra > total - count
  {
    assert forall j :: 0 <= j < |gs| ==> GpartBins(gs)[j] == gs[j].bin;
    ScanStops(GpartBins(gs), lo, count, total, i, r, extra);
  }

  lemma PartnerAt(all0: Partners, gs0: seq<Gpart>, all: Partners, gs: seq<Gpart>, lo: int, hi: int, i: int, f: int)
    requires GpartsTidy(all0, gs0, all, gs, lo, hi) && 0 <= i < f < |gs| && gs[i].bin.NotCreated?
    ensures !HasPartner(gs[i].kind)
    ensures HasPartner(gs[f].kind) ==> 0 <= -gs[f].idOrNegOffset < |all.Of(gs[f].kind)|
  {
    hide Partners.Of, HasPartner, BareGparts, Couples, CellSplit.Kept;
    if HasPartner(gs[f].kind) { LinkBackOf(all.Of(gs[f].kind), gs, gs[f].kind, f); }
  }

  lemma GpartMovedDown(gs: seq<Gpart>, lo: int, count: int, total: int, i: int, f: int, extra: nat)
    requires Sorting(GpartBins(gs), lo, count, total, i, f, extra) && i < lo + count && f < lo + total
    requires gs[i].bin.NotCreated? && !gs[f].bin.NotCreated?
    ensures Sorting(GpartBins(Swapped(gs, i, f)), lo, count, total, i + 1, f, extra)
  {
    assert lo <= i < f < lo + total <= |gs|;
    assert GpartBins(Swapped(gs, i, f)) == Swapped(GpartBins(gs), i, f);
    SortingStep(GpartBins(gs), lo, count, total, i, f, extra);
  }

  lemma GpartPassed(gs: seq<Gpart>, lo: int, count: int, total: int, i: int, f: int, extra: nat)
    requires Sorting(GpartBins(gs), lo, count, total, i, f, extra) && i < lo + count && !gs[i].bin.NotCreated?
    ensures Sorting(GpartBins(gs), lo, count, total, i + 1, f, extra)
  {
  }

  lemma GpartsFreed(gs: seq<Gpart>, lo: int, count: int, total: int, f: int, extra: nat)
    requires ExtraAlone(gs) && Sorting(GpartBins(gs), lo, count, total, lo + count, f, extra) && 0 <= count <= total
    requires extra == total - count ==> forall j :: lo + count <= j < lo + total ==> GpartBins(gs)[j].NotCreated?
    ensures extra == total - count ==> FreeGpartSlots(gs, Window(lo, count, total))
  {
    assert forall j :: 0 <= j < |gs| ==> GpartBins(gs)[j] == gs[j].bin;
  }
}
