/**
 cell_remove_*, cell_convert_* and cell_spawn_*: one kind of particle becomes another, or leaves the
 calculation.
 */
module Conversions {
  import opened Octree
  import opened Particles
  import opened SpaceData
  import opened WindowShift
  import opened Insertion
  import opened LiveTree

  // ----- cutting a link -----

  /** A particle and its gpart part ways. */
  lemma CutOwn(ps: seq<Particle>, gs: seq<Gpart>, k: Kind, i: int, p': Particle, g': Gpart)
    requires Linked(ps, gs, k) && HasPartner(k) && 0 <= i < |ps| && ps[i].gpart != NULL
    requires p'.gpart == NULL && !HasPartner(g'.kind)
    ensures 0 <= ps[i].gpart < |gs| && gs[ps[i].gpart].kind == k
    ensures Linked(ps[i := p'], gs[ps[i].gpart := g'], k)
  {
    LinkOf(ps, gs, k, i);
    CutForward(ps, gs, k, i, p', g');
    CutBack(ps, gs, k, i, p', g');
  }

  lemma CutForward(ps: seq<Particle>, gs: seq<Gpart>, k: Kind, i: int, p': Particle, g': Gpart)
    requires PointsToGpart(ps, gs, k) && 0 <= i < |ps| && 0 <= ps[i].gpart < |gs| && p'.gpart == NULL
    ensures PointsToGpart(ps[i := p'], gs[ps[i].gpart := g'], k)
  {
    forall j | 0 <= j < |ps| && j != i && ps[j].gpart != NULL
      ensures ps[j].gpart != ps[i].gpart
    {
      Unshared(ps, gs, k, j, i);
    }
  }

  lemma CutBack(ps: seq<Particle>, gs: seq<Gpart>, k: Kind, i: int, p': Particle, g': Gpart)
    requires PointsToParticle(ps, gs, k) && 0 <= i < |ps| && 0 <= ps[i].gpart < |gs| && g'.kind != k
    ensures PointsToParticle(ps[i := p'], gs[ps[i].gpart := g'], k)
  {
  }

  lemma CutOther(gs: seq<Gpart>, g: int, g': Gpart, others: seq<Particle>, o: Kind)
    requires Linked(others, gs, o) && 0 <= g < |gs| && gs[g].kind != o && g'.kind != o
    ensures Linked(others, gs[g := g'], o)
  {
  }

  // ----- tying a link -----

  /** A particle without a gpart and a gpart nobody points to become partners. */
  lemma JoinOwn(ps: seq<Particle>, gs: seq<Gpart>, k: Kind, j: int, n: int, p': Particle, g': Gpart)
    requires LinkedBut(ps, gs, k, n) && 0 <= j < |ps| && ps[j].gpart == NULL && 0 <= n < |gs|
    requires p'.gpart == n && g'.kind == k && g'.idOrNegOffset == -j
    ensures Linked(ps[j := p'], gs[n := g'], k)
  {
    assert PointsToGpart(ps[j := p'], gs[n := g'], k) by { hide BackBut; }
    JoinBack(ps, gs, k, j, n, p', g');
  }

  lemma JoinBack(ps: seq<Particle>, gs: seq<Gpart>, k: Kind, j: int, n: int, p': Particle, g': Gpart)
    requires BackBut(ps, gs, k, n) && 0 <= j < |ps| && ps[j].gpart == NULL && 0 <= n < |gs|
    requires p'.gpart == n && g'.kind == k && g'.idOrNegOffset == -j
    ensures PointsToParticle(ps[j := p'], gs[n := g'], k)
  {
  }

  lemma JoinOther(others: seq<Particle>, gs: seq<Gpart>, o: Kind, n: int, g': Gpart)
    requires LinkedBut(others, gs, o, n) && 0 <= n < |gs| && g'.kind != o
    ensures Linked(others, gs[n := g'], o)
  {
  }

  lemma NobodysGpart(ps: seq<Particle>, gs: seq<Gpart>, k: Kind, n: int)
    requires Linked(ps, gs, k) && 0 <= n < |gs| && gs[n].kind != k
    ensures LinkedBut(ps, gs, k, n)
  {
  }

  // ----- the state before and after -----

  ghost function SetParticle(st: State, k: Kind, i: int, p: Particle): State
    requires HasPartner(k) && 0 <= i < |st.all.Of(k)|
  {
    st.(all := st.all.With(k, st.all.Of(k)[i := p]))
  }

  ghost function SetGpart(st: State, g: int, x: Gpart): State
    requires 0 <= g < |st.gs|
  {
    st.(gs := st.gs[g := x])
  }

  ghost function Count(st: State, s: Species): State {
    st.(inhibited := st.inhibited.Plus(s, 1))
  }

  /** A particle that exists, as opposed to a free slot. */
  ghost predicate Exists(st: State, k: Kind, i: int)
    requires HasPartner(k)
  {
    0 <= i < |st.all.Of(k)| && !st.all.Of(k)[i].bin.NotCreated?
  }

  lemma BinSet(ps: seq<Particle>, i: int, p: Particle)
    requires 0 <= i < |ps|
    ensures Bins(ps[i := p]) == Bins(ps)[i := p.bin]
    ensures InhibitedIn(Bins(ps[i := p])) == InhibitedIn(Bins(ps)) - (if ps[i].bin.Inhibited? then 1 else 0)
      + (if p.bin.Inhibited? then 1 else 0)
  {
    hide InhibitedIn;
    assert Bins(ps[i := p]) == Bins(ps)[i := p.bin];
    InhibitedAt(Bins(ps), i, p.bin);
  }

  lemma GpartBinSet(gs: seq<Gpart>, i: int, g: Gpart)
    requires 0 <= i < |gs|
    ensures InhibitedIn(GpartBins(gs[i := g])) == InhibitedIn(GpartBins(gs)) - (if gs[i].bin.Inhibited? then 1 else 0)
      + (if g.bin.Inhibited? then 1 else 0)
  {
    hide InhibitedIn;
    assert GpartBins(gs[i := g]) == GpartBins(gs)[i := g.bin];
    InhibitedAt(GpartBins(gs), i, g.bin);
  }

  lemma SlotsSet(ps: seq<Particle>, w: Window, i: int, p: Particle)
    requires FreeSlots(ps, w) && 0 <= i < |ps| && !ps[i].bin.NotCreated?
    ensures FreeSlots(ps[i := p], w)
  {
  }

  lemma GpartSlotsSet(gs: seq<Gpart>, w: Window, i: int, g: Gpart)
    requires FreeGpartSlots(gs, w) && 0 <= i < |gs| && (!gs[i].bin.NotCreated? || HasPartner(gs[i].kind))
    ensures FreeGpartSlots(gs[i := g], w)
  {
  }

  /** An inhibited particle leaves its gpart to itself. */
  ghost function Severed(st: State, k: Kind, i: int, p: Particle, x: Gpart): State
    requires Good(st) && HasPartner(k) && Exists(st, k, i) && st.all.Of(k)[i].gpart != NULL
  {
    assert GoodArray(st.all.Of(k), st.gs, k, st.inhibited.Of(SpeciesOf(k)));
    var st1 := Count(SetGpart(SetParticle(st, k, i, p), st.all.Of(k)[i].gpart, x), SpeciesOf(k));
    if x.bin.Inhibited? then Count(st1, Grav) else st1
  }

  lemma SeveredArrays(st: State, k: Kind, i: int, p: Particle, x: Gpart, o: Kind)
    requires Good(st) && HasPartner(k) && Exists(st, k, i) && st.all.Of(k)[i].gpart != NULL && HasPartner(o)
    requires p.gpart == NULL && p.bin.Inhibited? && !HasPartner(x.kind)
    ensures 0 <= st.all.Of(k)[i].gpart < |st.gs| && st.gs[st.all.Of(k)[i].gpart].kind == k
    ensures var gs1 := st.gs[st.all.Of(k)[i].gpart := x];
      if o == k then GoodArray(st.all.Of(k)[i := p], gs1, k, st.inhibited.Of(SpeciesOf(k)) + 1)
      else GoodArray(st.all.Of(o), gs1, o, st.inhibited.Of(SpeciesOf(o)))
  {
    hide Bins, Counts.Of, FreeGpartSlots, FreeSlots, GpartBins, GoodGparts, InhibitedIn, Linked, Partners.Of, SpeciesOf;
    var ps, g := st.all.Of(k), st.all.Of(k)[i].gpart;
    assert GoodArray(ps, st.gs, k, st.inhibited.Of(SpeciesOf(k)));
    assert GoodArray(st.all.Of(o), st.gs, o, st.inhibited.Of(SpeciesOf(o)));
    CutOwn(ps, st.gs, k, i, p, x);
    assert !ps[i].bin.Inhibited?;
    if o == k { BinSet(ps, i, p); } else { CutOther(st.gs, g, x, st.all.Of(o), o); }
  }

  lemma SeveredKeepsGood(st: State, k: Kind, i: int, p: Particle, x: Gpart)
    requires Good(st) && HasPartner(k) && Exists(st, k, i) && st.all.Of(k)[i].gpart != NULL
    requires p.gpart == NULL && p.bin.Inhibited? && !HasPartner(x.kind)
    ensures Good(Severed(st, k, i, p, x))
  {
    hide Counts.Plus, FreeGpartSlots, FreeSlots, GoodArray, GpartBins, HasPartner, InhibitedIn, Partners.Of,
      Partners.With;
    SeveredArrays(st, k, i, p, x, k);
    LinkAt(st, k, i);
    var ps, g, n := st.all.Of(k), st.all.Of(k)[i].gpart, st.inhibited.Plus(SpeciesOf(k), 1);
    var st1, gs1 := Severed(st, k, i, p, x), st.gs[g := x];
    assert st1 == State(st.all.With(k, ps[i := p]), gs1, st.top, st.extra,
                        if x.bin.Inhibited? then n.Plus(Grav, 1) else n);
    forall o | HasPartner(o) ensures GoodArray(st1.all.Of(o), gs1, o, st1.inhibited.Of(SpeciesOf(o))) {
      SpeciesApart(k, o);
      SeveredArrays(st, k, i, p, x, o);
    }
    SpeciesApart(k, k);
    assert !st.gs[g].bin.Inhibited?;
    GpartBinSet(st.gs, g, x);
    assert GoodGparts(gs1, st1.inhibited.grav) by {
      assert n.Of(Grav) == st.inhibited.Of(Grav) && n.Plus(Grav, 1).Of(Grav) == n.Of(Grav) + 1;
    }
    SlotsAfterSet(st, k, i, p);
    assert FreeGpartSlots(gs1, st1.top.grav) by { GpartSlotsSet(st.gs, st.top.grav, g, x); }
  }

  lemma SpeciesApart(k: Kind, o: Kind)
    requires HasPartner(k) && HasPartner(o)
    ensures SpeciesOf(k) != Grav && SpeciesOf(o) != Grav && (o != k ==> SpeciesOf(o) != SpeciesOf(k))
  {
  }

  lemma SlotsAfterSet(st: State, k: Kind, i: int, p: Particle)
    requires Good(st) && HasPartner(k) && Exists(st, k, i)
    ensures var all1 := st.all.With(k, st.all.Of(k)[i := p]);
      FreeSlots(all1.sparts, st.top.stars) && FreeSlots(all1.sinks, st.top.sinks)
  {
    hide FreeSlots, GoodArray, GoodGparts, FreeGpartSlots;
    if k == StarKind { SlotsSet(st.all.sparts, st.top.stars, i, p); }
    if k == SinkKind { SlotsSet(st.all.sinks, st.top.sinks, i, p); }
  }

  lemma GoodArrayIsBut(ps: seq<Particle>, gs: seq<Gpart>, k: Kind, inhibited: int, n: int)
    requires GoodArray(ps, gs, k, inhibited) && 0 <= n < |gs| && gs[n].kind != k
    ensures GoodArrayBut(ps, gs, k, inhibited, n)
  {
    hide Linked, LinkedBut;
    NobodysGpart(ps, gs, k, n);
  }

  lemma JoinedArray(ps: seq<Particle>, gs: seq<Gpart>, k: Kind, inhibited: int, j: int, p: Particle, n: int, x: Gpart)
    requires GoodArrayBut(ps, gs, k, inhibited, n) && 0 <= j < |ps| && 0 <= n < |gs| && ps[j].gpart == NULL
    requires !ps[j].bin.Inhibited?
    requires p.gpart == n && !p.bin.Inhibited? && x.kind == k && x.idOrNegOffset == -j
    ensures GoodArray(ps[j := p], gs[n := x], k, inhibited)
  {
    hide Linked, LinkedBut;
    JoinOwn(ps, gs, k, j, n, p, x);
    BinSet(ps, j, p);
  }

  lemma JoinedOther(others: seq<Particle>, gs: seq<Gpart>, o: Kind, inhibited: int, n: int, x: Gpart)
    requires GoodArrayBut(others, gs, o, inhibited, n) && 0 <= n < |gs| && x.kind != o
    ensures GoodArray(others, gs[n := x], o, inhibited)
  {
    hide Linked, LinkedBut;
    JoinOther(others, gs, o, n, x);
  }

  /** As good as before, whatever is to be written into the gpart `n`. */
  lemma GoodIsGoodBut(st: State, n: int)
    requires Good(st) && 0 <= n < |st.gs| && !HasPartner(st.gs[n].kind)
    ensures GoodBut(st, n)
  {
    hide Counts.Of, FreeGpartSlots, FreeSlots, GoodArray, GoodArrayBut, GoodGparts, HasPartner, Partners.Of, SpeciesOf;
    forall k | HasPartner(k) ensures GoodArrayBut(st.all.Of(k), st.gs, k, st.inhibited.Of(SpeciesOf(k)), n) {
      assert GoodArray(st.all.Of(k), st.gs, k, st.inhibited.Of(SpeciesOf(k)));
      GoodArrayIsBut(st.all.Of(k), st.gs, k, st.inhibited.Of(SpeciesOf(k)), n);
    }
  }

  /** The gpart is not one of the free slots of the top-level cell. */
  ghost predicate InUse(st: State, n: int) {
    var w := st.top.grav;
    0 <= n < |st.gs| && !(w.start + w.count <= n < w.start + w.total)
  }

  lemma InUseSet(st: State, n: int, x: Gpart)
    requires GoodBut(st, n) && InUse(st, n)
    ensures FreeGpartSlots(st.gs[n := x], st.top.grav)
  {
    hide GoodArrayBut, GoodGparts, FreeSlots;
  }

  lemma PartnersInUse(st: State, n: int)
    requires Good(st) && 0 <= n < |st.gs| && HasPartner(st.gs[n].kind)
    ensures InUse(st, n)
  {
    hide GoodArray, GoodGparts, FreeSlots;
  }

  /** The particle `j` of kind `k` and the gpart `n` become partners. */
  ghost function Joined(st: State, k: Kind, j: int, p: Particle, n: int, x: Gpart): State
    requires HasPartner(k) && 0 <= j < |st.all.Of(k)| && 0 <= n < |st.gs|
  {
    SetGpart(SetParticle(st, k, j, p), n, x)
  }

  lemma JoinedKeepsGood(st: State, k: Kind, j: int, p: Particle, n: int, x: Gpart)
    requires GoodBut(st, n) && HasPartner(k) && Exists(st, k, j) && 0 <= n < |st.gs|
    requires st.all.Of(k)[j].gpart == NULL && !st.all.Of(k)[j].bin.Inhibited?
    requires p.gpart == n && !p.bin.Inhibited? && x.kind == k && x.idOrNegOffset == -j && !x.bin.Inhibited?
    requires !st.gs[n].bin.Inhibited? && InUse(st, n)
    ensures Good(Joined(st, k, j, p, n, x))
  {
    hide Counts.Of, FreeGpartSlots, FreeSlots, GoodArray, GoodArrayBut, GpartBins, HasPartner, InUse, InhibitedIn,
      Partners.Of, Partners.With, SpeciesOf;
    var ps := st.all.Of(k);
    assert 0 <= j < |ps| && !ps[j].bin.NotCreated?;
    var gs1, st1 := st.gs[n := x], Joined(st, k, j, p, n, x);
    assert st1 == st.(all := st.all.With(k, ps[j := p]), gs := gs1);
    forall o | HasPartner(o) ensures GoodArray(st1.all.Of(o), gs1, o, st1.inhibited.Of(SpeciesOf(o))) {
      assert GoodArrayBut(st.all.Of(o), st.gs, o, st.inhibited.Of(SpeciesOf(o)), n);
      if o == k {
        JoinedArray(ps, st.gs, k, st.inhibited.Of(SpeciesOf(k)), j, p, n, x);
      } else {
        JoinedOther(st.all.Of(o), st.gs, o, st.inhibited.Of(SpeciesOf(o)), n, x);
      }
    }
    GpartBinSet(st.gs, n, x);
    assert GoodGparts(gs1, st1.inhibited.grav);
    assert FreeSlots(st1.all.sparts, st1.top.stars) && FreeSlots(st1.all.sinks, st1.top.sinks) by {
      JoinedSlots(st, k, j, p, n);
    }
    assert FreeGpartSlots(gs1, st1.top.grav) by { InUseSet(st, n, x); }
  }

  lemma JoinedSlots(st: State, k: Kind, i: int, p: Particle, n: int)
    requires GoodBut(st, n) && HasPartner(k) && Exists(st, k, i)
    ensures var all1 := st.all.With(k, st.all.Of(k)[i := p]);
      FreeSlots(all1.sparts, st.top.stars) && FreeSlots(all1.sinks, st.top.sinks)
  {
    hide FreeSlots, GoodArrayBut, GoodGparts, FreeGpartSlots;
    if k == StarKind { SlotsSet(st.all.sparts, st.top.stars, i, p); }
    if k == SinkKind { SlotsSet(st.all.sinks, st.top.sinks, i, p); }
  }

  // ----- couples, while one gpart is rewritten -----

  /** Nobody but perhaps the particle `i` has the gpart `g`. */
  ghost predicate OnlyOf(ps: seq<Particle>, g: int, i: int) {
    forall q :: 0 <= q < |ps| && q != i ==> ps[q].gpart != g
  }

  lemma CouplesSet(ps: seq<Particle>, gs: seq<Gpart>, i: int, p: Particle, g: int, x: Gpart)
    requires 0 <= i < |ps| && 0 <= g < |gs| && OnlyOf(ps, g, i)
    ensures Couples(ps[i := p], gs[g := x]) == Couples(ps, gs)[i := CoupleOf(p, gs[g := x])]
  {
  }

  lemma CouplesPut(ps: seq<Particle>, gs: seq<Gpart>, i: int, p: Particle)
    requires 0 <= i < |ps|
    ensures Couples(ps[i := p], gs) == Couples(ps, gs)[i := CoupleOf(p, gs)]
  {
  }

  lemma CouplesSame(ps: seq<Particle>, gs: seq<Gpart>, g: int, x: Gpart)
    requires 0 <= g < |gs| && OnlyOf(ps, g, NULL)
    ensures Couples(ps, gs[g := x]) == Couples(ps, gs)
  {
  }

  lemma OwnGpart(st: State, k: Kind, i: int)
    requires Good(st) && HasPartner(k) && 0 <= i < |st.all.Of(k)| && st.all.Of(k)[i].gpart != NULL
    ensures OnlyOf(st.all.Of(k), st.all.Of(k)[i].gpart, i)
  {
    hide Partners.Of, SpeciesOf, Counts.Of, FreeSlots, FreeGpartSlots, GoodGparts, HasPartner, InhibitedIn;
    assert GoodArray(st.all.Of(k), st.gs, k, st.inhibited.Of(SpeciesOf(k)));
  }

  lemma ForeignGpart(st: State, k: Kind, g: int)
    requires Good(st) && HasPartner(k) && 0 <= g < |st.gs| && st.gs[g].kind != k
    ensures OnlyOf(st.all.Of(k), g, NULL)
  {
    hide Partners.Of, SpeciesOf, Counts.Of, FreeSlots, FreeGpartSlots, GoodGparts, HasPartner, InhibitedIn;
    assert GoodArray(st.all.Of(k), st.gs, k, st.inhibited.Of(SpeciesOf(k)));
  }

  lemma NewGpartUnknown(st: State, k: Kind, n: int)
    requires GoodBut(st, n) && HasPartner(k) && 0 <= n
    ensures OnlyOf(st.all.Of(k), n, NULL)
  {
    hide Partners.Of, SpeciesOf, Counts.Of, FreeSlots, FreeGpartSlots, GoodGparts, HasPartner, InhibitedIn;
    assert GoodArrayBut(st.all.Of(k), st.gs, k, st.inhibited.Of(SpeciesOf(k)), n);
  }

  // ----- removing -----

  /** A particle without a gpart becomes inhibited. */
  lemma RetiredKeepsGood(st: State, k: Kind, i: int)
    requires Good(st) && HasPartner(k) && Exists(st, k, i) && !st.all.Of(k)[i].bin.Inhibited?
    requires st.all.Of(k)[i].gpart == NULL
    ensures Good(Count(SetParticle(st, k, i, st.all.Of(k)[i].(bin := Inhibited)), SpeciesOf(k)))
  {
    hide Counts.Plus, FreeGpartSlots, FreeSlots, GoodArray, GoodGparts, Partners.Of, Partners.With;
    var ps := st.all.Of(k);
    assert 0 <= i < |ps| && !ps[i].bin.NotCreated?;
    var p, n := ps[i].(bin := Inhibited), st.inhibited.Plus(SpeciesOf(k), 1);
    var st1 := Count(SetParticle(st, k, i, p), SpeciesOf(k));
    assert st1 == st.(all := st.all.With(k, ps[i := p]), inhibited := n);
    forall o | HasPartner(o) ensures GoodArray(st1.all.Of(o), st1.gs, o, st1.inhibited.Of(SpeciesOf(o))) {
      assert GoodArray(st.all.Of(o), st.gs, o, st.inhibited.Of(SpeciesOf(o)));
      assert o != k ==> SpeciesOf(o) != SpeciesOf(k);
      if o == k { RetiredArray(ps, st.gs, k, st.inhibited.Of(SpeciesOf(k)), i, p); }
    }
    assert n.Of(Grav) == st.inhibited.Of(Grav);
    assert n.grav == st.inhibited.grav;
    SlotsAfterSet(st, k, i, p);
  }

  /** Whatever else changes about a particle, its link stays. */
  lemma SameLink(ps: seq<Particle>, gs: seq<Gpart>, k: Kind, j: int, p: Particle)
    requires Linked(ps, gs, k) && 0 <= j < |ps| && p.gpart == ps[j].gpart
    ensures Linked(ps[j := p], gs, k)
  {
    var ps1 := ps[j := p];
    assert forall i :: 0 <= i < |ps| ==> ps1[i].gpart == ps[i].gpart;

    assert PointsToGpart(ps1, gs, k) by {
      forall i | 0 <= i < |ps1| && ps1[i].gpart != NULL
        ensures 0 <= ps1[i].gpart < |gs| && gs[ps1[i].gpart].kind == k && gs[ps1[i].gpart].idOrNegOffset == -i
      {
        LinkOf(ps, gs, k, i);
      }
    }
    assert PointsToParticle(ps1, gs, k) by {
      forall g | 0 <= g < |gs| && gs[g].kind == k
        ensures 0 <= -gs[g].idOrNegOffset < |ps1| && ps1[-gs[g].idOrNegOffset].gpart == g
      {
        LinkBackOf(ps, gs, k, g);
      }
    }
  }

  lemma RetiredArray(ps: seq<Particle>, gs: seq<Gpart>, k: Kind, n: int, i: int, p: Particle)
    requires GoodArray(ps, gs, k, n) && 0 <= i < |ps| && !ps[i].bin.Inhibited? && ps[i].gpart == NULL
    requires p == ps[i].(bin := Inhibited)
    ensures GoodArray(ps[i := p], gs, k, n + 1)
  {
    hide InhibitedIn, Linked;
    BinSet(ps, i, p);
    SameLink(ps, gs, k, i, p);
  }

  /** The state after cell_remove_part, _spart, _bpart or _sink. */
  ghost function Removed(st: State, k: Kind, i: int): State
    requires Good(st) && HasPartner(k) && Exists(st, k, i)
  {
    var p := st.all.Of(k)[i];
    if p.bin.Inhibited? then st
    else if p.gpart == NULL then Count(SetParticle(st, k, i, p.(bin := Inhibited)), SpeciesOf(k))
    else
      assert GoodArray(st.all.Of(k), st.gs, k, st.inhibited.Of(SpeciesOf(k)));
      Severed(st, k, i, p.(bin := Inhibited, gpart := NULL),
        st.gs[p.gpart].(kind := DarkMatter, idOrNegOffset := 1, bin := Inhibited))
  }

  lemma RemovedKeepsGood(st: State, k: Kind, i: int)
    requires Good(st) && HasPartner(k) && Exists(st, k, i)
    ensures Good(Removed(st, k, i))
  {
    hide Severed, Count, SetParticle, Partners.Of, Partners.With;
    var p := st.all.Of(k)[i];
    if !p.bin.Inhibited? {
      if p.gpart == NULL {
        RetiredKeepsGood(st, k, i);
      } else {
        assert GoodArray(st.all.Of(k), st.gs, k, st.inhibited.Of(SpeciesOf(k)));
        SeveredKeepsGood(st, k, i, p.(bin := Inhibited, gpart := NULL),
          st.gs[p.gpart].(kind := DarkMatter, idOrNegOffset := 1, bin := Inhibited));
      }
    }
  }

  /** What is taken out takes no further part, nor does its gpart: both are inhibited and counted, they have nothing to
      do with each other any more, and nothing else has changed.  It can be done twice. */
  lemma RemovedIsOut(st: State, k: Kind, i: int)
    requires Good(st) && HasPartner(k) && Exists(st, k, i) && !st.all.Of(k)[i].bin.Inhibited?
    ensures Exists(Removed(st, k, i), k, i) && Good(Removed(st, k, i))
    ensures Removed(Removed(st, k, i), k, i) == Removed(st, k, i)
    ensures var st', p := Removed(st, k, i), st.all.Of(k)[i];
      && st'.all.Of(k) == st.all.Of(k)[i := p.(bin := Inhibited, gpart := NULL)]
      && (forall o :: HasPartner(o) && o != k ==> st'.all.Of(o) == st.all.Of(o))
      && |st'.gs| == |st.gs| && st'.top == st.top && st'.extra == st.extra
      && (p.gpart == NULL ==> st'.gs == st.gs && st'.inhibited == st.inhibited.Plus(SpeciesOf(k), 1))
    ensures var st', p := Removed(st, k, i), st.all.Of(k)[i];
      p.gpart != NULL ==>
        && 0 <= p.gpart < |st.gs| && st'.gs[p.gpart].bin.Inhibited? && !HasPartner(st'.gs[p.gpart].kind)
        && (forall g :: 0 <= g < |st.gs| && g != p.gpart ==> st'.gs[g] == st.gs[g])
        && st'.inhibited == st.inhibited.Plus(SpeciesOf(k), 1).Plus(Grav, 1)
  {
    hide Counts.Plus, Counts.Of, Good, HasPartner, Partners.Of, Partners.With, SpeciesOf;
    LinkAt(st, k, i);
    RemovedKeepsGood(st, k, i);
    var p, st' := st.all.Of(k)[i], Removed(st, k, i);
    assert st'.all == st.all.With(k, st.all.Of(k)[i := p.(bin := Inhibited, gpart := NULL)]);
    assert !HasPartner(DarkMatter) by { NoPartner(); }
  }

  lemma NoPartner()
    ensures !HasPartner(DarkMatter)
  {
  }

  /** Taking a gpart out is in order exactly when it has no partner: cell_remove_gpart does not look for one. */
  lemma GpartRemoved(st: State, g: int)
    requires Good(st) && 0 <= g < |st.gs| && !st.gs[g].bin.Inhibited? && !st.gs[g].bin.NotCreated?
    ensures Good(Count(SetGpart(st, g, st.gs[g].(bin := Inhibited)), Grav)) <==> !HasPartner(st.gs[g].kind)
  {
    hide Counts.Plus, FreeGpartSlots, FreeSlots, GoodArray, GoodArrayBut, GpartBins, InhibitedIn, Partners.Of;
    var x := st.gs[g].(bin := Inhibited);
    var st1 := Count(SetGpart(st, g, x), Grav);
    assert st1 == st.(gs := st.gs[g := x], inhibited := st.inhibited.Plus(Grav, 1));
    if HasPartner(st.gs[g].kind) {
      assert st1.gs[g].bin.Inhibited? && HasPartner(st1.gs[g].kind);
      assert !Good(st1);
    } else {
      forall o | HasPartner(o) ensures GoodArray(st1.all.Of(o), st1.gs, o, st1.inhibited.Of(SpeciesOf(o))) {
        assert GoodArray(st.all.Of(o), st.gs, o, st.inhibited.Of(SpeciesOf(o)));
        assert SpeciesOf(o) != Grav;
        GoodArrayIsBut(st.all.Of(o), st.gs, o, st.inhibited.Of(SpeciesOf(o)), g);
        JoinedOther(st.all.Of(o), st.gs, o, st.inhibited.Of(SpeciesOf(o)), g, x);
      }
      assert st1.inhibited.Of(Grav) == st.inhibited.Of(Grav) + 1;
      assert st1.inhibited.grav == st.inhibited.grav + 1;
      GpartBinSet(st.gs, g, x);
      assert GoodGparts(st1.gs, st1.inhibited.grav);
      GpartSlotsSet(st.gs, st.top.grav, g, x);
      assert Good(st1);
    }
  }

  // ----- the operations -----

  lemma Pieces(s: Space, root: Cell)
    requires Inv(s, root)
    ensures s.Apart() && TopCell(root) && Good(StateOf(s, root)) && forall o :: root.Tiled(o)
    ensures StateOf(s, root) == State(s.All(), s.gparts[..], root.windows, s.nrExtra, s.nrInhibited)
    ensures forall k :: HasPartner(k) ==> s.All().Of(k) == s.Array(k)[..]
  {
    hide Good, TopCell, Cell.Tiled;
  }

  lemma Together(s: Space, root: Cell)
    requires s.Apart() && TopCell(root) && Good(StateOf(s, root)) && forall o :: root.Tiled(o)
    ensures Inv(s, root)
  {
  }

  /** A particle that can be handed to one of the operations. */
  ghost predicate Live(s: Space, root: Cell, k: Kind, i: int)
    requires HasPartner(k)
    reads s, s.parts, s.sparts, s.sinks, s.bparts, s.gparts, root`windows
  {
    Exists(StateOf(s, root), k, i)
  }

  /** cell_remove_part, cell_remove_spart, cell_remove_bpart and cell_remove_sink. */
  method Remove(s: Space, k: Kind, i: nat, ghost root: Cell)
    requires HasPartner(k) && Inv(s, root) && Live(s, root, k, i)
    modifies s.Array(k), s.gparts, s`nrInhibited
    ensures Inv(s, root) && StateOf(s, root) == Removed(old(StateOf(s, root)), k, i)
  {
    hide Cell.Tiled, Cell.WellFormed, Counts.Of, Counts.Plus, Exists, Good, GoodArray, HasPartner, Inv, Partners.Of,
      Partners.With, Space.All, Space.Apart, Space.Array, SpeciesOf, TopCell;
    ghost var st := StateOf(s, root);
    Pieces(s, root);
    assert Exists(st, k, i);
    RemovedKeepsGood(st, k, i);
    LinkAt(st, k, i);
    var ps := s.Array(k);
    assert st.all.Of(k) == ps[..];
    if ps[i].bin.Inhibited? {
      assert Removed(st, k, i) == st;
      return;
    }
    var g := ps[i].gpart;
    if g != NULL {
      PutGpart(s, g, s.gparts[g].(bin := Inhibited, idOrNegOffset := 1, kind := DarkMatter));
    }
    s.nrInhibited := s.nrInhibited.Plus(SpeciesOf(k), 1);
    if g != NULL {
      s.nrInhibited := s.nrInhibited.Plus(Grav, 1);
    }
    Put(s, k, i, ps[i].(bin := Inhibited, gpart := NULL));
    assert StateOf(s, root) == Removed(st, k, i);
    Together(s, root);
  }

  lemma LinkAt(st: State, k: Kind, i: int)
    requires Good(st) && HasPartner(k) && Exists(st, k, i)
    ensures 0 <= i < |st.all.Of(k)| && (st.all.Of(k)[i].gpart != NULL ==>
      0 <= st.all.Of(k)[i].gpart < |st.gs| && st.gs[st.all.Of(k)[i].gpart].kind == k && !st.all.Of(k)[i].bin.Inhibited?)
  {
    hide Bins, Counts.Of, FreeGpartSlots, FreeSlots, GoodGparts, HasPartner, InhibitedIn, Partners.Of, PointsToGpart,
      PointsToParticle, SpeciesOf;

    assert GoodArray(st.all.Of(k), st.gs, k, st.inhibited.Of(SpeciesOf(k)));
    if st.all.Of(k)[i].gpart != NULL {
      LinkOf(st.all.Of(k), st.gs, k, i);
    }
  }

  /** cell_remove_gpart.  It does not look for a partner, and leaves things in order exactly when there is none;
      it is called for dark matter only (`src/cell_drift.c:537-546`). */
  method RemoveGpart(s: Space, g: nat, ghost root: Cell) returns (aborted: bool)
    requires Inv(s, root) && g < s.gparts.Length && !s.gparts[g].bin.NotCreated?
    modifies s.gparts, s`nrInhibited
    ensures aborted <==> old(!s.gparts[g].bin.Inhibited? && s.gparts[g].kind == Background)
    ensures aborted || old(s.gparts[g].bin.Inhibited?) ==> StateOf(s, root) == old(StateOf(s, root))
    ensures !aborted && !old(s.gparts[g].bin.Inhibited?) ==>
      StateOf(s, root) == Count(SetGpart(old(StateOf(s, root)), g, old(s.gparts[g]).(bin := Inhibited)), Grav)
    ensures Inv(s, root) <==> old(s.gparts[g].bin.Inhibited?) || !HasPartner(old(s.gparts[g].kind))
  {
    hide Cell.Tiled, Cell.WellFormed, Counts.Of, Counts.Plus, Good, Inv, Partners.Of, Space.All, Space.Apart,
      Space.Array, TopCell;
    ghost var st := StateOf(s, root);
    Pieces(s, root);
    if s.gparts[g].bin.Inhibited? { return false; }
    if s.gparts[g].kind == Background { return true; }
    assert st.gs[g] == s.gparts[g];
    GpartRemoved(st, g);
    PutGpart(s, g, s.gparts[g].(bin := Inhibited));
    s.nrInhibited := s.nrInhibited.Plus(Grav, 1);
    assert StateOf(s, root) == Count(SetGpart(st, g, st.gs[g].(bin := Inhibited)), Grav);
    if HasPartner(st.gs[g].kind) {
      NotInOrder(s, root);
    } else {
      Together(s, root);
    }
    return false;
  }

  lemma NotInOrder(s: Space, root: Cell)
    requires !Good(StateOf(s, root))
    ensures !Inv(s, root)
  {
  }

  /** The state after cell_convert_part_to_gpart or cell_convert_spart_to_gpart: the gpart lives on as dark
      matter and carries the ID. */
  ghost function AsGpart(st: State, k: Kind, i: int): State
    requires Good(st) && HasPartner(k) && Exists(st, k, i) && st.all.Of(k)[i].gpart != NULL
  {
    assert GoodArray(st.all.Of(k), st.gs, k, st.inhibited.Of(SpeciesOf(k)));
    var p := st.all.Of(k)[i];
    Severed(st, k, i, p.(bin := Inhibited, gpart := NULL), st.gs[p.gpart].(kind := DarkMatter, idOrNegOffset := p.id))
  }

  lemma AsGpartKeepsGood(st: State, k: Kind, i: int)
    requires Good(st) && HasPartner(k) && Exists(st, k, i) && st.all.Of(k)[i].gpart != NULL
    ensures Good(AsGpart(st, k, i)) && 0 <= st.all.Of(k)[i].gpart < |st.gs|
    ensures AsGpart(st, k, i).all ==
      st.all.With(k, st.all.Of(k)[i := st.all.Of(k)[i].(bin := Inhibited, gpart := NULL)])
    ensures AsGpart(st, k, i).gs == st.gs[st.all.Of(k)[i].gpart := st.gs[st.all.Of(k)[i].gpart].(kind := DarkMatter,
      idOrNegOffset := st.all.Of(k)[i].id)]
    ensures AsGpart(st, k, i).inhibited == st.inhibited.Plus(SpeciesOf(k), 1)
    ensures AsGpart(st, k, i).top == st.top && AsGpart(st, k, i).extra == st.extra
    ensures !st.gs[st.all.Of(k)[i].gpart].bin.Inhibited? && st.gs[st.all.Of(k)[i].gpart].kind == k
    ensures !st.all.Of(k)[i].bin.Inhibited?
  {
    hide Partners.Of, Partners.With;
    LinkAt(st, k, i);
    var p := st.all.Of(k)[i];
    assert !st.gs[p.gpart].bin.Inhibited?;
    SeveredKeepsGood(st, k, i, p.(bin := Inhibited, gpart := NULL),
      st.gs[p.gpart].(kind := DarkMatter, idOrNegOffset := p.id));
  }

  /** cell_convert_part_to_gpart and cell_convert_spart_to_gpart. */
  method ConvertToGpart(s: Space, k: Kind, i: nat, ghost root: Cell) returns (r: Slot)
    requires (k == GasKind || k == StarKind) && HasPartner(k) && Inv(s, root) && Live(s, root, k, i)
    modifies s.Array(k), s.gparts, s`nrInhibited
    ensures r.Aborted? <==> old(StateOf(s, root)).all.Of(k)[i].gpart == NULL
    ensures r.Aborted? ==> StateOf(s, root) == old(StateOf(s, root))
    ensures !r.Aborted? ==>
      r == At(old(StateOf(s, root)).all.Of(k)[i].gpart) && StateOf(s, root) == AsGpart(old(StateOf(s, root)), k, i)
    ensures Inv(s, root)
  {
    hide AsGpart, Cell.Tiled, Cell.WellFormed, Counts.Of, Counts.Plus, Exists, Good, HasPartner, Inv, Partners.Of,
      Partners.With, Space.All, Space.Apart, Space.Array, SpeciesOf, TopCell;
    ghost var st := StateOf(s, root);
    Pieces(s, root);
    assert Exists(st, k, i);
    LinkAt(st, k, i);
    var ps := s.Array(k);
    assert st.all.Of(k) == ps[..];
    var g := ps[i].gpart;
    if g == NULL { return Aborted; }
    AsGpartKeepsGood(st, k, i);
    var id := ps[i].id;
    Put(s, k, i, ps[i].(bin := Inhibited, gpart := NULL));
    PutGpart(s, g, s.gparts[g].(kind := DarkMatter, idOrNegOffset := id));
    s.nrInhibited := s.nrInhibited.Plus(SpeciesOf(k), 1);
    assert StateOf(s, root) == AsGpart(st, k, i);
    Together(s, root);
    return At(g);
  }

  // ----- gas becomes a star or a sink -----

  /** The new particle: everything that is not copied is zero. */
  function Born(k: Kind, p: Particle, g: Gpart, n: int, bin: TimeBin, id: int): Particle {
    Particle(id, bin, n, g.x, g.v, p.diff, if k == StarKind then p.h else 0.0, g.mass, ZERO, ZERO, ZERO)
  }

  /** The state after a successful cell_convert_part_to_spart or cell_convert_part_to_sink. */
  ghost function Converted(st: State, k: Kind, j: int, i: int, middle: Vec, bin: int): State
    requires (k == StarKind || k == SinkKind) && HasPartner(k) && HasPartner(GasKind) && Good(st) && HasRoom(st, k, j)
    requires FreeSlots(st.all.Of(k), WindowOf(st.top, SpeciesOf(k))) && Exists(st, GasKind, i)
    requires st.all.Of(GasKind)[i].gpart != NULL
  {
    ConvertedParts(st, k, j, i, middle, bin);
    var p := st.all.Of(GasKind)[i];
    var st2 := AsGpart(AfterAdd(st, k, j, FreshParticle(middle, bin)), GasKind, i);
    Joined(st2, k, j, Born(k, p, st.gs[p.gpart], p.gpart, Bin(bin), p.id), p.gpart,
      st.gs[p.gpart].(kind := k, idOrNegOffset := -j, bin := Bin(bin)))
  }

  /** The new star or sink is not linked yet, the gas particle and its gpart are as they were. */
  lemma ConvertedParts(st: State, k: Kind, j: int, i: int, middle: Vec, bin: int)
    requires (k == StarKind || k == SinkKind) && HasPartner(k) && HasPartner(GasKind) && Good(st) && HasRoom(st, k, j)
    requires FreeSlots(st.all.Of(k), WindowOf(st.top, SpeciesOf(k))) && Exists(st, GasKind, i)
    requires st.all.Of(GasKind)[i].gpart != NULL
    ensures var st1, p := AfterAdd(st, k, j, FreshParticle(middle, bin)), st.all.Of(GasKind)[i];
      && Good(st1) && Exists(st1, GasKind, i) && st1.all.Of(GasKind)[i] == p && 0 <= p.gpart < |st.gs| == |st1.gs|
      && st1.gs[p.gpart] == st.gs[p.gpart] && st.gs[p.gpart].kind == GasKind && !st.gs[p.gpart].bin.Inhibited?
      && 0 <= j < |st1.all.Of(k)| && st1.all.Of(k)[j] == FreshParticle(middle, bin) && Exists(st1, k, j)
      && Good(AsGpart(st1, GasKind, i))
      && AsGpart(st1, GasKind, i).all.Of(k)[j] == FreshParticle(middle, bin)
      && |AsGpart(st1, GasKind, i).all.Of(k)| == |st1.all.Of(k)|
      && |AsGpart(st1, GasKind, i).gs| == |st.gs|
  {
    hide AsGpart, BareGpart, BareGparts, CanInsert, Counts.Of, Counts.Plus, CoupleOf, Couples, FreeGpartSlots,
      GoodArray, GoodGparts, HasPartner, Inserted, Lowered, OneMore, Partners.Of, Partners.With, SkipsInhibited,
      SpeciesOf, WindowOf;
    var x := FreshParticle(middle, bin);
    assert x.gpart == NULL && x.bin.Bin?;
    AddKeepsGood(st, k, j, x);
    var st1, ps, v := AfterAdd(st, k, j, x), st.all.Of(k), WindowOf(st.top, SpeciesOf(k));
    var end := v.start + v.count;
    assert 0 <= j <= end < |ps|;
    assert st1.all == st.all.With(k, Inserted(ps, j, end, x))
      && st1.gs == Lowered(st.gs, ps, j, end, SkipsInhibited(k));
    LinkAt(st, GasKind, i);
    var g := st.all.Of(GasKind)[i].gpart;
    assert GoodArray(ps, st.gs, k, st.inhibited.Of(SpeciesOf(k)));
    ArrayAfter(ps, st.gs, k, st.inhibited.Of(SpeciesOf(k)), j, end, SkipsInhibited(k), x);
    LoweredForeign(ps, st.gs, k, j, end, SkipsInhibited(k), g);
    assert st1.all.Of(k)[j] == x;
    assert Exists(st1, GasKind, i) && Exists(st1, k, j);
    AsGpartKeepsGood(st1, GasKind, i);
  }

  lemma ConvertedKeepsGood(st: State, k: Kind, j: int, i: int, middle: Vec, bin: int)
    requires (k == StarKind || k == SinkKind) && HasPartner(k) && HasPartner(GasKind) && Good(st) && HasRoom(st, k, j)
    requires FreeSlots(st.all.Of(k), WindowOf(st.top, SpeciesOf(k))) && Exists(st, GasKind, i)
    requires st.all.Of(GasKind)[i].gpart != NULL
    ensures Good(Converted(st, k, j, i, middle, bin))
  {
    hide AfterAdd, AsGpart, Counts.Of, Counts.Plus, FreeSlots, Good, GoodBut, HasRoom, Joined, Partners.Of,
      Partners.With, SpeciesOf, WindowOf;
    ConvertedParts(st, k, j, i, middle, bin);
    var p, st1 := st.all.Of(GasKind)[i], AfterAdd(st, k, j, FreshParticle(middle, bin));
    var g := p.gpart;
    var st2 := AsGpart(st1, GasKind, i);
    AsGpartKeepsGood(st1, GasKind, i);
    PartnersInUse(st1, g);
    assert InUse(st2, g);
    assert !HasPartner(DarkMatter);
    GoodIsGoodBut(st2, g);
    var born, x := Born(k, p, st.gs[g], g, Bin(bin), p.id), st.gs[g].(kind := k, idOrNegOffset := -j, bin := Bin(bin));
    assert born.gpart == g && born.bin == Bin(bin);
    var zeros := FreshParticle(middle, bin);
    assert zeros.gpart == NULL && zeros.bin == Bin(bin);
    assert Exists(st2, k, j);
    JoinedKeepsGood(st2, k, j, born, g, x);
    assert Converted(st, k, j, i, middle, bin) == Joined(st2, k, j, born, g, x);
  }

  /** The rest of the conversion, once the new record is there. */
  method BecomeStar(s: Space, k: Kind, i: nat, j: int, ghost middle: Vec, minActiveBin: int, ghost st: State,
        ghost root: Cell)
    requires (k == StarKind || k == SinkKind) && HasPartner(k) && HasPartner(GasKind) && Good(st) && HasRoom(st, k, j)
    requires FreeSlots(st.all.Of(k), WindowOf(st.top, SpeciesOf(k))) && Exists(st, GasKind, i)
    requires st.all.Of(GasKind)[i].gpart != NULL
    requires Inv(s, root) && StateOf(s, root) == AfterAdd(st, k, j, FreshParticle(middle, minActiveBin))
    modifies s`nrInhibited, s.parts, s.Array(k), s.gparts
    ensures Inv(s, root) && StateOf(s, root) == Converted(st, k, j, i, middle, minActiveBin)
  {
    hide AfterAdd, AsGpart, Cell.Tiled, Cell.WellFormed, Counts.Of, Counts.Plus, Exists, FreeSlots, FreshParticle, Good,
      HasPartner, HasRoom, Inv, Partners.Of, Partners.With, Space.All, Space.Apart, SpeciesOf, TopCell, WindowOf;
    ghost var st1 := StateOf(s, root);
    Pieces(s, root);
    ConvertedParts(st, k, j, i, middle, minActiveBin);
    ConvertedKeepsGood(st, k, j, i, middle, minActiveBin);
    AsGpartKeepsGood(st1, GasKind, i);
    assert s.Array(GasKind) == s.parts;
    assert Live(s, root, GasKind, i);
    LinkAt(st1, GasKind, i);
    assert s.All().Of(GasKind) == s.parts[..];
    var slot := ConvertToGpart(s, GasKind, i, root);
    Pieces(s, root);
    ghost var st2 := StateOf(s, root);
    assert s.All().Of(GasKind) == s.parts[..];
    assert st2.all.Of(GasKind)[i] == s.parts[i] && st2.gs[slot.index] == s.gparts[slot.index];
    var g, p, x := slot.index, s.parts[i], s.gparts[slot.index];
    var id := if k == StarKind then x.idOrNegOffset else p.id;
    PutGpart(s, g, x.(kind := k, idOrNegOffset := -j, bin := Bin(minActiveBin)));
    Put(s, k, j, Born(k, p, x, g, Bin(minActiveBin), id));
    assert StateOf(s, root) == Converted(st, k, j, i, middle, minActiveBin);
    Together(s, root);
  }

  /** The windows of one species make room for one more in front of the leaf `c`.  The cells above the leaf
      hold one more, which is at `p` and is the first of the leaf; all others hold what they held. */
  ghost predicate OneMoreIn<T>(root: Cell, c: Cell, s: Species, before: Snapshot, after: Snapshot, a: seq<T>, b: seq<T>,
        p: int)
    requires root.WellFormed()
  {
    && 0 <= p < |b| && AllAlike(root, c, s, before, after, a, b, p, b[p])
    && forall d :: d in root.subtree ==> WindowOf(after[d], s) == MovedWindow(WindowOf(before[d], s), MoveOf(root, true, c, d))
  }

  function MovedWindow(w: Window, m: Move): Window {
    match m
    case Grow => w.(count := w.count + 1)
    case Up => w.(start := w.start + 1)
    case Stay => w
  }

  /** The windows of all other species are what they were. */
  ghost predicate OthersStay(root: Cell, s: Species, before: Snapshot, after: Snapshot) {
    && Known(root, before) && Known(root, after)
    && forall d, o :: d in root.subtree && o != s ==> WindowOf(after[d], o) == WindowOf(before[d], o)
  }

  lemma OneMoreInserted<T>(root: Cell, c: Cell, s: Species, before: Snapshot, after: Snapshot, a: seq<T>, b: seq<T>,
        p: int, end: int)
    requires root.WellFormed() && root in root.subtree && c in root.subtree && !c.split
    requires Shifted(root, s, true, c, before, after) && Tiled(root, s, before)
    requires root in before && c in before && 0 <= p <= end < |a| == |b| && b == Inserted(a, p, end, b[p])
    requires p == WindowOf(before[c], s).start
    requires end == WindowOf(before[root], s).start + WindowOf(before[root], s).count
    requires 0 <= WindowOf(before[root], s).start
    ensures OneMoreIn(root, c, s, before, after, a, b, p)
  {
    hide Cell.WellFormed, Tiled, AllAlike, Inserted, MoveOf;
    AllInserted(root, c, s, before, after, a, p, end, b[p]);
  }

  /** Only the windows of the species at hand matter. */
  lemma OneMoreSame<T>(root: Cell, c: Cell, s: Species, before: Snapshot, after: Snapshot, before': Snapshot,
        after': Snapshot,
        a: seq<T>, b: seq<T>, p: int)
    requires root.WellFormed() && OneMoreIn(root, c, s, before, after, a, b, p) && Known(root, before')
    requires Known(root, after')
    requires forall d :: d in root.subtree ==> WindowOf(before'[d], s) == WindowOf(before[d], s)
    requires forall d :: d in root.subtree ==> WindowOf(after'[d], s) == WindowOf(after[d], s)
    ensures OneMoreIn(root, c, s, before', after', a, b, p)
  {
    hide Cell.WellFormed, Held, MoveOf, MovedWindow, Spliced, WindowOf;
  }

  lemma InOrder(s: Space, root: Cell, c: Cell)
    requires Inv(s, root) && c in root.subtree
    ensures root.WellFormed() && root in root.subtree && Known(root, Now(root)) && forall o :: Tiled(root, o, Now(root))
    ensures Now(root)[root] == root.windows == StateOf(s, root).top
    ensures forall o :: WindowOf(Now(root)[c], o) == c.Win(o)
  {
    hide Good, Cell.WellFormed, Cell.Tiled, Tiled, Space.All;
    TiledNow(root);
  }

  /** One of the couples is dissolved. */
  ghost function OneGone(a: seq<Couple>, i: int): seq<Couple>
    requires 0 <= i < |a|
  {
    a[i := Single(a[i].p.(bin := Inhibited))]
  }

  lemma ConvertedEverywhere(root: Cell, c: Cell, before: Snapshot, after: Snapshot, st: State, k: Kind, j: int, i: int,
        middle: Vec, bin: int)
    requires (k == StarKind || k == SinkKind) && HasPartner(k) && HasPartner(GasKind) && Good(st) && HasRoom(st, k, j)
    requires FreeSlots(st.all.Of(k), WindowOf(st.top, SpeciesOf(k))) && Exists(st, GasKind, i)
    requires st.all.Of(GasKind)[i].gpart != NULL
    requires root.WellFormed() && root in root.subtree && c in root.subtree && !c.split
    requires Shifted(root, SpeciesOf(k), true, c, before, after) && forall o :: Tiled(root, o, before)
    requires root in before && c in before && before[root] == st.top && j == WindowOf(before[c], SpeciesOf(k)).start
    ensures var st' := Converted(st, k, j, i, middle, bin);
      && OneMoreIn(root, c, SpeciesOf(k), before, after, Content(st, k), Content(st', k), j)
      && 0 <= i < |Content(st, GasKind)| && Content(st', GasKind) == OneGone(Content(st, GasKind), i)
      && forall o :: HasPartner(o) && o != k && o != GasKind ==> Content(st', o) == Content(st, o)
    ensures OthersStay(root, SpeciesOf(k), before, after)
  {
    hide AllAlike, Cell.WellFormed, Content, Converted, Counts.Of, Exists, Good, HasPartner, HasRoom, Inserted,
      OneMoreIn, Partners.Of, Shifted, SpeciesOf, Tiled, WindowOf;
    ConvertedContent(st, k, j, i, middle, bin);
    OtherWindows(root, SpeciesOf(k), c, before, after);
    var v := WindowOf(st.top, SpeciesOf(k));
    OneMoreInserted(root, c, SpeciesOf(k), before, after, Content(st, k),
      Content(Converted(st, k, j, i, middle, bin), k), j, v.start + v.count);
    PairAt(st, GasKind, i);
  }

  lemma PairAt(st: State, k: Kind, i: int)
    requires Good(st) && HasPartner(k) && Exists(st, k, i)
    ensures 0 <= i < |Content(st, k)| && Content(st, k)[i].p == st.all.Of(k)[i].(gpart := NULL)
  {
  }

  /** cell_convert_part_to_spart and cell_convert_part_to_sink. */
  method ConvertPart(s: Space, c: Cell, k: Kind, i: nat, middle: Vec, minActiveBin: int, now: int, ghost root: Cell)
    returns (r: Slot)
    requires (k == StarKind || k == SinkKind) && HasPartner(k) && HasPartner(GasKind)
    requires Inv(s, root) && c in root.subtree && Live(s, root, GasKind, i)
    modifies s`nrExtra, s`nrInhibited, s`forceRebuild, s.parts, s.Array(k), s.gparts, root.subtree`windows
    modifies root.subtree`starsSorted, root.subtree`tiOld
    ensures r == if old(StateOf(s, root)).all.Of(GasKind)[i].gpart == NULL then Aborted
                 else Fate(old(StateOf(s, root)), k, old(c.Refuses(SpeciesOf(k), now)), old(c.Win(SpeciesOf(k)).start))
    ensures r.NoRoom? ==>
      Inv(s, root) && StateOf(s, root) == old(StateOf(s, root)) && s.forceRebuild == old(s.forceRebuild) + 1
    ensures r.NoRoom? ==> Now(root) == old(Now(root))
    ensures r.At? ==> HasRoom(old(StateOf(s, root)), k, r.index) && FreeSlots(old(s.All()).Of(k),
      old(WindowOf(root.windows, SpeciesOf(k))))
    ensures r.At? ==>
      Inv(s, root) && StateOf(s, root) == Converted(old(StateOf(s, root)), k, r.index, i, middle, minActiveBin)
    ensures r.At? ==> OneMoreIn(root, c, SpeciesOf(k), old(Now(root)), Now(root), Content(old(StateOf(s, root)), k),
      Content(StateOf(s, root), k), r.index)
    ensures r.At? ==> Content(StateOf(s, root), GasKind) == OneGone(Content(old(StateOf(s, root)), GasKind), i)
    ensures r.At? ==> forall o :: HasPartner(o) && o != k && o != GasKind ==>
      Content(StateOf(s, root), o) == Content(old(StateOf(s, root)), o)
    ensures r.At? ==> OthersStay(root, SpeciesOf(k), old(Now(root)), Now(root))
    ensures r.At? ==> TimesSet(root, c, SpeciesOf(k), now, old(TimesOf(root)), root.subtree)
  {
    hide AfterAdd, AllAlike, Cell.Tiled, Cell.WellFormed, Cell.Win, Converted, Counts.Of, CoupleOf, Couples, Exists,
      FreeSlots, FreshParticle, Full, Good, HasPartner, HasRoom, Inv, Now, Partners.Of, Space.All, Space.Apart,
      SpeciesOf, StateOf, Tellable, TopCell, WindowOf;
    ghost var st, before := StateOf(s, root), Now(root);
    Pieces(s, root);
    InOrder(s, root, c);
    assert Exists(st, GasKind, i);
    LinkAt(st, GasKind, i);
    assert s.Array(GasKind) == s.parts;
    assert st.all.Of(GasKind)[i] == s.parts[i];
    if s.parts[i].gpart == NULL { return Aborted; }
    ghost var refused := c.Refuses(SpeciesOf(k), now);
    assert Fate(st, k, refused, c.Win(SpeciesOf(k)).start).At? ==> Fate(st, k, refused, c.Win(SpeciesOf(k)).start) == At(c.Win(SpeciesOf(k)).start);
    r := NewParticle(s, c, k, middle, minActiveBin, now, root);
    if !r.At? { return; }
    var j := r.index;
    ghost var middles := Now(root);
    assert !c.split;
    BecomeStar(s, k, i, j, middle, minActiveBin, st, root);
    assert Now(root) == middles;
    ConvertedEverywhere(root, c, before, middles, st, k, j, i, middle, minActiveBin);
  }

  /** The star or sink is the gas particle by another name: it carries its ID and has its gpart, which has
      changed its kind, its clock and its way back, and nothing else. */
  lemma ConvertedIsSame(st: State, k: Kind, j: int, i: int, middle: Vec, bin: int)
    requires (k == StarKind || k == SinkKind) && HasPartner(k) && HasPartner(GasKind) && Good(st) && HasRoom(st, k, j)
    requires FreeSlots(st.all.Of(k), WindowOf(st.top, SpeciesOf(k))) && Exists(st, GasKind, i)
    requires st.all.Of(GasKind)[i].gpart != NULL
    ensures var st', p := Converted(st, k, j, i, middle, bin), st.all.Of(GasKind)[i];
      && 0 <= j < |st'.all.Of(k)| && 0 <= p.gpart < |st'.gs| == |st.gs|
      && st'.all.Of(k)[j].id == p.id && st'.all.Of(k)[j].gpart == p.gpart
      && st'.gs[p.gpart] == st.gs[p.gpart].(kind := k, idOrNegOffset := -j, bin := Bin(bin))
      && st'.all.Of(k)[j].bin == Bin(bin) && st'.all.Of(k)[j].diff == p.diff
      && st'.all.Of(k)[j].x == st.gs[p.gpart].x && st'.all.Of(k)[j].v == st.gs[p.gpart].v
      && st'.all.Of(k)[j].mass == st.gs[p.gpart].mass && (k == StarKind ==> st'.all.Of(k)[j].h == p.h)
      && st'.all.Of(GasKind) == st.all.Of(GasKind)[i := p.(bin := Inhibited, gpart := NULL)]
      && (forall o :: HasPartner(o) && o != k && o != GasKind ==> st'.all.Of(o) == st.all.Of(o))
      && st'.inhibited == st.inhibited.Plus(Gas, 1) && st'.extra == st.extra.Plus(SpeciesOf(k), -1)
  {
    hide AsGpart, Counts.Of, Counts.Plus, Exists, FreeSlots, FreshParticle, Good, HasPartner, HasRoom, Inserted,
      Lowered, OneMore, Partners.Of, Partners.With, SkipsInhibited, WindowOf;
    LinkAt(st, GasKind, i);
    ConvertedParts(st, k, j, i, middle, bin);
    var st1, p := AfterAdd(st, k, j, FreshParticle(middle, bin)), st.all.Of(GasKind)[i];
    AsGpartKeepsGood(st1, GasKind, i);
    var st2 := AsGpart(st1, GasKind, i);
    var born := Born(k, p, st.gs[p.gpart], p.gpart, Bin(bin), p.id);
    var st' := Converted(st, k, j, i, middle, bin);
    assert st1.inhibited == st.inhibited && st1.extra == st.extra.Plus(SpeciesOf(k), -1)
      && (forall o :: HasPartner(o) && o != k ==> st1.all.Of(o) == st.all.Of(o));
    assert st' == st2.(all := st2.all.With(k, st2.all.Of(k)[j := born]),
      gs := st2.gs[p.gpart := st.gs[p.gpart].(kind := k, idOrNegOffset := -j, bin := Bin(bin))]);
    assert born.id == p.id && born.gpart == p.gpart && born.bin == Bin(bin) && born.diff == p.diff
      && born.x == st.gs[p.gpart].x && born.v == st.gs[p.gpart].v && born.mass == st.gs[p.gpart].mass;
    assert k == StarKind ==> born.h == p.h;
    assert SpeciesOf(GasKind) == Gas;
  }

  /** No other particle notices: of the gas only `i` is gone, the stars or sinks have one couple more, and the
      particles of all other kinds have the gparts they had. */
  lemma ConvertedContent(st: State, k: Kind, j: int, i: int, middle: Vec, bin: int)
    requires (k == StarKind || k == SinkKind) && HasPartner(k) && HasPartner(GasKind) && Good(st) && HasRoom(st, k, j)
    requires FreeSlots(st.all.Of(k), WindowOf(st.top, SpeciesOf(k))) && Exists(st, GasKind, i)
    requires st.all.Of(GasKind)[i].gpart != NULL
    ensures var st', v := Converted(st, k, j, i, middle, bin), WindowOf(st.top, SpeciesOf(k));
      && 0 <= j <= v.start + v.count < |Content(st, k)| == |Content(st', k)|
      && Content(st', k) == Inserted(Content(st, k), j, v.start + v.count, Content(st', k)[j])
      && 0 <= i < |Content(st, GasKind)|
      && Content(st', GasKind) ==
        Content(st, GasKind)[i := Single(st.all.Of(GasKind)[i].(bin := Inhibited, gpart := NULL))]
      && forall o :: HasPartner(o) && o != k && o != GasKind ==> Content(st', o) == Content(st, o)
  {
    hide AfterAdd, AsGpart, BareGparts, CoupleOf, Couples, Counts.Of, Counts.Plus, Exists, FreeSlots, FreshParticle,
      Good, HasPartner, HasRoom, Inserted, OnlyOf, Partners.Of, Partners.With, WindowOf;
    LinkAt(st, GasKind, i);
    ConvertedParts(st, k, j, i, middle, bin);
    var x, v, p := FreshParticle(middle, bin), WindowOf(st.top, SpeciesOf(k)), st.all.Of(GasKind)[i];
    var end := v.start + v.count;
    FreshIsSingle(middle, bin);
    RoomInside(st, k, j);
    AddKeepsGood(st, k, j, x);
    var st1 := AfterAdd(st, k, j, x);
    AsGpartKeepsGood(st1, GasKind, i);
    var g, gone := p.gpart, p.(bin := Inhibited, gpart := NULL);
    var born, y := Born(k, p, st.gs[g], g, Bin(bin), p.id), st.gs[g].(kind := k, idOrNegOffset := -j, bin := Bin(bin));
    var st' := Converted(st, k, j, i, middle, bin);
    assert st'.gs == st1.gs[g := y];
    assert st'.all == st1.all.With(GasKind, st1.all.Of(GasKind)[i := gone]).With(k, st1.all.Of(k)[j := born]);
    OwnGpart(st1, GasKind, i);
    CouplesSet(st1.all.Of(GasKind), st1.gs, i, gone, g, y);
    ForeignGpart(st1, k, g);
    OnlyOfMore(st1.all.Of(k), g, j);
    CouplesSet(st1.all.Of(k), st1.gs, j, born, g, y);
    forall o | HasPartner(o) && o != k && o != GasKind ensures Content(st', o) == Content(st, o) {
      ForeignGpart(st1, o, g);
      CouplesSame(st1.all.Of(o), st1.gs, g, y);
    }
    InsertedTwice(Content(st, k), j, end, Single(x), CoupleOf(born, st'.gs));
    GoneIsSingle(gone, st'.gs);
  }

  lemma RoomInside(st: State, k: Kind, j: int)
    requires HasPartner(k) && HasRoom(st, k, j) && FreeSlots(st.all.Of(k), WindowOf(st.top, SpeciesOf(k)))
    ensures var v := WindowOf(st.top, SpeciesOf(k)); 0 <= j <= v.start + v.count < |st.all.Of(k)|
  {
  }

  lemma OnlyOfMore(ps: seq<Particle>, g: int, i: int)
    requires OnlyOf(ps, g, NULL)
    ensures OnlyOf(ps, g, i)
  {
  }

  lemma FreshIsSingle(middle: Vec, bin: int)
    ensures FreshParticle(middle, bin).gpart == NULL && FreshParticle(middle, bin).bin == Bin(bin)
  {
  }

  lemma GoneIsSingle(p: Particle, gs: seq<Gpart>)
    requires p.gpart == NULL
    ensures CoupleOf(p, gs) == Single(p)
  {
  }

  // ----- a new star out of a gas particle or a sink -----

  lemma DiffKeepsGood(st: State, k: Kind, j: int, d: Vec)
    requires Good(st) && HasPartner(k) && Exists(st, k, j)
    ensures Good(SetParticle(st, k, j, st.all.Of(k)[j].(diff := d)))
  {
    hide Counts.Of, FreeGpartSlots, FreeSlots, GoodArray, GoodGparts, HasPartner, Partners.Of, Partners.With, SpeciesOf;
    var ps := st.all.Of(k);
    assert 0 <= j < |ps| && !ps[j].bin.NotCreated?;
    var p := ps[j].(diff := d);
    var st1 := SetParticle(st, k, j, p);
    assert st1 == st.(all := st.all.With(k, ps[j := p]));
    forall o | HasPartner(o) ensures GoodArray(st1.all.Of(o), st1.gs, o, st1.inhibited.Of(SpeciesOf(o))) {
      assert GoodArray(st.all.Of(o), st.gs, o, st.inhibited.Of(SpeciesOf(o)));
      if o == k { DiffArray(ps, st.gs, k, st.inhibited.Of(SpeciesOf(k)), j, d); }
    }
    SlotsAfterSet(st, k, j, p);
  }

  lemma DiffArray(ps: seq<Particle>, gs: seq<Gpart>, k: Kind, n: int, j: int, d: Vec)
    requires GoodArray(ps, gs, k, n) && 0 <= j < |ps|
    ensures GoodArray(ps[j := ps[j].(diff := d)], gs, k, n)
  {
    var ps1 := ps[j := ps[j].(diff := d)];
    assert Bins(ps1) == Bins(ps);
    assert forall i :: 0 <= i < |ps| ==> ps1[i].gpart == ps[i].gpart && ps1[i].bin == ps[i].bin;
    hide Bins, InhibitedIn, Linked;
    SameLink(ps, gs, k, j, ps[j].(diff := d));
  }

  /** The state after the new star has been added and told how far its parent has moved. */
  ghost function Conceived(st: State, j: int, middle: Vec, bin: int, d: Vec): State
    requires HasPartner(StarKind) && HasRoom(st, StarKind, j)
    requires FreeSlots(st.all.Of(StarKind), WindowOf(st.top, SpeciesOf(StarKind)))
  {
    var v := WindowOf(st.top, SpeciesOf(StarKind));
    var st1 := AfterAdd(st, StarKind, j, FreshParticle(middle, bin));
    SetParticle(st1, StarKind, j, FreshParticle(middle, bin).(diff := d))
  }

  lemma ConceivedKeepsGood(st: State, j: int, middle: Vec, bin: int, d: Vec)
    requires HasPartner(StarKind) && Good(st) && HasRoom(st, StarKind, j)
    requires FreeSlots(st.all.Of(StarKind), WindowOf(st.top, SpeciesOf(StarKind)))
    ensures Good(AfterAdd(st, StarKind, j, FreshParticle(middle, bin))) && Good(Conceived(st, j, middle, bin, d))
    ensures 0 <= j < |AfterAdd(st, StarKind, j, FreshParticle(middle, bin)).all.Of(StarKind)|
    ensures AfterAdd(st, StarKind, j, FreshParticle(middle, bin)).all.Of(StarKind)[j] == FreshParticle(middle, bin)
    ensures Exists(Conceived(st, j, middle, bin, d), StarKind, j)
    ensures Conceived(st, j, middle, bin, d).all.Of(StarKind)[j] == FreshParticle(middle, bin).(diff := d)
    ensures forall o :: HasPartner(o) && o != StarKind ==> Conceived(st, j, middle, bin, d).all.Of(o) == st.all.Of(o)
    ensures |Conceived(st, j, middle, bin, d).gs| == |st.gs| && Conceived(st, j, middle, bin, d).top.grav == st.top.grav
  {
    hide BareGpart, BareGparts, Counts.Of, Counts.Plus, CoupleOf, Couples, Good, HasPartner, Inserted, Lowered,
      Partners.Of, Partners.With, SkipsInhibited;
    var x := FreshParticle(middle, bin);
    assert x.gpart == NULL && x.bin.Bin?;
    AddKeepsGood(st, StarKind, j, x);
    var st1, ps, v := AfterAdd(st, StarKind, j, x), st.all.Of(StarKind), WindowOf(st.top, SpeciesOf(StarKind));
    var end := v.start + v.count;
    assert 0 <= j <= end < |ps|;
    assert st1.all == st.all.With(StarKind, Inserted(ps, j, end, x))
      && st1.gs == Lowered(st.gs, ps, j, end, SkipsInhibited(StarKind))
      && st1.top == OneMore(st.top, SpeciesOf(StarKind));
    assert st1.top.grav == st.top.grav;
    assert st1.all.Of(StarKind)[j] == x;
    assert Exists(st1, StarKind, j);
    DiffKeepsGood(st1, StarKind, j, d);
    assert Conceived(st, j, middle, bin, d) ==
      st1.(all := st1.all.With(StarKind, st1.all.Of(StarKind)[j := x.(diff := d)]));
    assert Conceived(st, j, middle, bin, d) == SetParticle(st1, StarKind, j, x.(diff := d));
    assert Exists(Conceived(st, j, middle, bin, d), StarKind, j);
  }

  function Offspring(p: Particle, n: int, bin: int, id: int): Particle {
    Particle(id, Bin(bin), n, p.x, p.v, p.diff, p.h, p.mass, ZERO, ZERO, ZERO)
  }

  ghost predicate CanSpawn(st: State, from: Kind, i: int, j: int)
  {
    && (from == GasKind || from == SinkKind) && HasPartner(from) && HasPartner(StarKind)
    && Good(st) && HasRoom(st, StarKind, j) && FreeSlots(st.all.Of(StarKind), WindowOf(st.top, SpeciesOf(StarKind)))
    && Exists(st, from, i) && st.all.Of(from)[i].gpart != NULL
  }

  /** The new star is alone at first, and nobody else notices. */
  lemma ConceivedContent(st: State, j: int, middle: Vec, bin: int, d: Vec)
    requires HasPartner(StarKind) && Good(st) && HasRoom(st, StarKind, j)
    requires FreeSlots(st.all.Of(StarKind), WindowOf(st.top, SpeciesOf(StarKind)))
    ensures var st2, v, x := Conceived(st, j, middle, bin, d), WindowOf(st.top, SpeciesOf(StarKind)), FreshParticle(middle, bin).(diff := d);
      && 0 <= j <= v.start + v.count < |Content(st, StarKind)|
      && Content(st2, StarKind) == Inserted(Content(st, StarKind), j, v.start + v.count, Single(x))
      && (forall o :: HasPartner(o) && o != StarKind ==> Content(st2, o) == Content(st, o))
      && BareGparts(st2.gs) == BareGparts(st.gs)
  {
    hide AfterAdd, BareGparts, CoupleOf, Couples, Counts.Of, Counts.Plus, FreeSlots, FreshParticle, Good, HasPartner,
      HasRoom, Inserted, Partners.Of, Partners.With, SpeciesOf, WindowOf;
    var x, v := FreshParticle(middle, bin), WindowOf(st.top, SpeciesOf(StarKind));
    FreshIsSingle(middle, bin);
    RoomInside(st, StarKind, j);
    AddKeepsGood(st, StarKind, j, x);
    var st1, y := AfterAdd(st, StarKind, j, x), x.(diff := d);
    CouplesPut(st1.all.Of(StarKind), st1.gs, j, y);
    GoneIsSingle(y, st1.gs);
    InsertedTwice(Content(st, StarKind), j, v.start + v.count, Single(x), Single(y));
  }

  /** Nor when it is taken out again. */
  lemma FailedContent(st: State, j: int, middle: Vec, bin: int, d: Vec)
    requires HasPartner(StarKind) && Good(st) && HasRoom(st, StarKind, j)
    requires FreeSlots(st.all.Of(StarKind), WindowOf(st.top, SpeciesOf(StarKind)))
    requires Good(Conceived(st, j, middle, bin, d)) && Exists(Conceived(st, j, middle, bin, d), StarKind, j)
    ensures var st3, v := Removed(Conceived(st, j, middle, bin, d), StarKind, j), WindowOf(st.top, SpeciesOf(StarKind));
      && 0 <= j <= v.start + v.count < |Content(st, StarKind)| == |Content(st3, StarKind)|
      && Content(st3, StarKind) == Inserted(Content(st, StarKind), j, v.start + v.count, Content(st3, StarKind)[j])
      && Content(st3, StarKind)[j] == Single(FreshParticle(middle, bin).(diff := d, bin := Inhibited))
      && (forall o :: HasPartner(o) && o != StarKind ==> Content(st3, o) == Content(st, o))
      && BareGparts(st3.gs) == BareGparts(st.gs)
  {
    hide AfterAdd, BareGparts, Conceived, CoupleOf, Couples, Counts.Of, Counts.Plus, FreeSlots, FreshParticle, Good,
      HasPartner, HasRoom, Inserted, Partners.Of, Partners.With, SpeciesOf, WindowOf;
    var st2, v, x := Conceived(st, j, middle, bin, d), WindowOf(st.top, SpeciesOf(StarKind)),
      FreshParticle(middle, bin).(diff := d);
    var y := x.(bin := Inhibited);
    FreshIsSingle(middle, bin);
    RoomInside(st, StarKind, j);
    ConceivedKeepsGood(st, j, middle, bin, d);
    ConceivedContent(st, j, middle, bin, d);
    CouplesPut(st2.all.Of(StarKind), st2.gs, j, y);
    GoneIsSingle(y, st2.gs);
    InsertedTwice(Content(st, StarKind), j, v.start + v.count, Single(x), Single(y));
  }

  /** With the star and the gpart in their places: what the code reads and writes next. */
  lemma SpawnedParts(st: State, from: Kind, i: int, j: int, n: int, middle: Vec, bin: int, d: Vec)
    requires CanSpawn(st, from, i, j) && HasGpartRoom(Conceived(st, j, middle, bin, d), n)
    ensures Good(Conceived(st, j, middle, bin, d))
    ensures var st3 := AfterAddGpart(Conceived(st, j, middle, bin, d), n, FreshGpart(middle, bin));
      && GoodBut(st3, n) && InUse(st3, n) && !st3.gs[n].bin.Inhibited?
      && Exists(st3, StarKind, j) && st3.all.Of(StarKind)[j].gpart == NULL && st3.all.Of(StarKind)[j].bin == Bin(bin)
      && 0 <= i < |st3.all.Of(from)| && 0 <= st3.all.Of(from)[i].gpart < |st3.gs| && st3.all.Of(from)[i].gpart != n
      && st3.all.Of(from)[i] == st.all.Of(from)[i].(gpart := st3.all.Of(from)[i].gpart)
  {
    hide AfterAdd, CanInsertGpart, Conceived, Counts.Of, Counts.Plus, CoupleOf, Couples, FreeSlots, Good, GoodBut,
      HasPartner, HasRoom, Inserted, Partners.Of, Raised, SpeciesOf;
    assert Good(st) && HasPartner(from) && HasPartner(StarKind) && from != StarKind && Exists(st, from, i)
      && st.all.Of(from)[i].gpart != NULL
      && HasRoom(st, StarKind, j) && FreeSlots(st.all.Of(StarKind), WindowOf(st.top, SpeciesOf(StarKind)));
    ConceivedKeepsGood(st, j, middle, bin, d);
    var st2, y := Conceived(st, j, middle, bin, d), FreshGpart(middle, bin);
    assert y.bin == Bin(bin);
    AddGpartKeepsGood(st2, n, y);
    CanAddGpart(st2, n);
    var st3, end := AfterAddGpart(st2, n, y), st2.top.grav.start + st2.top.grav.count;
    assert 0 <= n <= end < |st2.gs| && end < st2.top.grav.start + st2.top.grav.total;
    assert st3.all == Raised(st2.all, st2.gs, n, end) && st3.gs == Inserted(st2.gs, n, end, y)
      && st3.top == OneMore(st2.top, Grav);
    assert InUse(st3, n);
    assert st3.gs[n] == y;
    RaisedAt(st2.all, st2.gs, n, end, StarKind, j);
    var born := FreshParticle(middle, bin).(diff := d);
    assert born.gpart == NULL && born.bin == Bin(bin);
    assert 0 <= i < |st2.all.Of(from)|;
    assert Exists(st2, from, i);
    assert Exists(st3, StarKind, j);
    RaisedAt(st2.all, st2.gs, n, end, from, i);
    LinkAt(st2, from, i);
  }

  ghost function Spawned(st: State, from: Kind, i: int, j: int, n: int, middle: Vec, bin: int, id: int): State
    requires CanSpawn(st, from, i, j) && 0 <= i < |st.all.Of(from)|
    requires HasGpartRoom(Conceived(st, j, middle, bin, st.all.Of(from)[i].diff), n)
  {
    var d := st.all.Of(from)[i].diff;
    SpawnedParts(st, from, i, j, n, middle, bin, d);
    var st3 := AfterAddGpart(Conceived(st, j, middle, bin, d), n, FreshGpart(middle, bin));
    Joined(st3, StarKind, j, Offspring(st.all.Of(from)[i], n, bin, id), n,
      st3.gs[st3.all.Of(from)[i].gpart].(kind := StarKind, idOrNegOffset := -j, bin := Bin(bin)))
  }

  lemma SpawnedKeepsGood(st: State, from: Kind, i: int, j: int, n: int, middle: Vec, bin: int, id: int)
    requires CanSpawn(st, from, i, j) && 0 <= i < |st.all.Of(from)|
    requires HasGpartRoom(Conceived(st, j, middle, bin, st.all.Of(from)[i].diff), n)
    ensures Good(Spawned(st, from, i, j, n, middle, bin, id))
  {
    hide AfterAddGpart, Conceived, Counts.Of, Exists, FreeSlots, FreshGpart, Good, GoodBut, HasGpartRoom, HasPartner,
      HasRoom, Joined, Partners.Of, SpeciesOf, WindowOf;
    assert HasPartner(from) && HasPartner(StarKind) && Good(st)
      && HasRoom(st, StarKind, j) && FreeSlots(st.all.Of(StarKind), WindowOf(st.top, SpeciesOf(StarKind)));
    var d := st.all.Of(from)[i].diff;
    SpawnedParts(st, from, i, j, n, middle, bin, d);
    var st3 := AfterAddGpart(Conceived(st, j, middle, bin, d), n, FreshGpart(middle, bin));
    var p := Offspring(st.all.Of(from)[i], n, bin, id);
    assert p.gpart == n && p.bin == Bin(bin);
    assert 0 <= n < |st3.gs|;
    JoinedKeepsGood(st3, StarKind, j, p, n,
      st3.gs[st3.all.Of(from)[i].gpart].(kind := StarKind, idOrNegOffset := -j, bin := Bin(bin)));
  }

  /** A birth adds one couple to the stars and one gpart, and every other particle keeps the gpart it had. */
  lemma SpawnedContent(st: State, from: Kind, i: int, j: int, n: int, middle: Vec, bin: int, id: int)
    requires CanSpawn(st, from, i, j) && 0 <= i < |st.all.Of(from)|
    requires HasGpartRoom(Conceived(st, j, middle, bin, st.all.Of(from)[i].diff), n)
    ensures var st', v, w := Spawned(st, from, i, j, n, middle, bin, id), WindowOf(st.top, SpeciesOf(StarKind)), st.top.grav;
      && 0 <= j <= v.start + v.count < |Content(st, StarKind)| == |Content(st', StarKind)|
      && Content(st', StarKind) == Inserted(Content(st, StarKind), j, v.start + v.count, Content(st', StarKind)[j])
      && (forall o :: HasPartner(o) && o != StarKind ==> Content(st', o) == Content(st, o))
      && 0 <= n <= w.start + w.count < |st.gs| == |st'.gs|
      && BareGparts(st'.gs) == Inserted(BareGparts(st.gs), n, w.start + w.count, BareGpart(st'.gs[n]))
  {
    hide AfterAdd, AfterAddGpart, BareGpart, BareGparts, Conceived, CoupleOf, Couples, Counts.Of, Counts.Plus, Exists,
      FreeSlots, FreshGpart, FreshParticle, Good, GoodBut, HasGpartRoom, HasPartner, HasRoom, InUse, Inserted, OnlyOf,
      Partners.Of, Partners.With, SpeciesOf, WindowOf;
    assert HasPartner(from) && HasPartner(StarKind) && Good(st)
      && HasRoom(st, StarKind, j) && FreeSlots(st.all.Of(StarKind), WindowOf(st.top, SpeciesOf(StarKind)));
    var d, v, w := st.all.Of(from)[i].diff, WindowOf(st.top, SpeciesOf(StarKind)), st.top.grav;
    var st2, y := Conceived(st, j, middle, bin, d), FreshGpart(middle, bin);
    ConceivedKeepsGood(st, j, middle, bin, d);
    ConceivedContent(st, j, middle, bin, d);
    SpawnedParts(st, from, i, j, n, middle, bin, d);
    GpartAddedContent(st2, n, middle, bin);
    var st3 := AfterAddGpart(st2, n, y);
    var p := Offspring(st.all.Of(from)[i], n, bin, id);
    var x := st3.gs[st3.all.Of(from)[i].gpart].(kind := StarKind, idOrNegOffset := -j, bin := Bin(bin));
    var st' := Spawned(st, from, i, j, n, middle, bin, id);
    assert st' == Joined(st3, StarKind, j, p, n, x);
    JoinedContent(st3, StarKind, j, p, n, x);
    InsertedTwice(Content(st, StarKind), j, v.start + v.count, Single(FreshParticle(middle, bin).(diff := d)),
      Content(st', StarKind)[j]);
    InsertedTwice(BareGparts(st.gs), n, w.start + w.count, BareGpart(y), BareGpart(x));
  }

  lemma GpartAddedContent(st: State, n: int, middle: Vec, bin: int)
    requires Good(st) && HasGpartRoom(st, n)
    ensures var st1, v := AfterAddGpart(st, n, FreshGpart(middle, bin)), st.top.grav;
      && (forall o :: HasPartner(o) ==> Content(st1, o) == Content(st, o))
      && 0 <= n <= v.start + v.count < |st.gs|
      && BareGparts(st1.gs) == Inserted(BareGparts(st.gs), n, v.start + v.count, BareGpart(FreshGpart(middle, bin)))
  {
    hide BareGpart, BareGparts, CoupleOf, Couples, Counts.Of, Counts.Plus, FreeSlots, Good, GoodBut, HasPartner,
      Inserted, Partners.Of, Raised;
    AddGpartKeepsGood(st, n, FreshGpart(middle, bin));
    InsertedBare(st.gs, n, st.top.grav.start + st.top.grav.count, FreshGpart(middle, bin));
  }

  lemma JoinedContent(st: State, k: Kind, j: int, p: Particle, n: int, x: Gpart)
    requires GoodBut(st, n) && HasPartner(k) && 0 <= j < |st.all.Of(k)| && 0 <= n < |st.gs|
    ensures var st1 := Joined(st, k, j, p, n, x);
      && j < |Content(st1, k)| && Content(st1, k) == Content(st, k)[j := Content(st1, k)[j]]
      && (forall o :: HasPartner(o) && o != k ==> Content(st1, o) == Content(st, o))
      && |st1.gs| == |st.gs| && st1.gs[n] == x && BareGparts(st1.gs) == BareGparts(st.gs)[n := BareGpart(x)]
  {
    hide BareGpart, CoupleOf, Couples, GoodBut, HasPartner, OnlyOf, Partners.Of, Partners.With;
    NewGpartUnknown(st, k, n);
    OnlyOfMore(st.all.Of(k), n, j);
    CouplesSet(st.all.Of(k), st.gs, j, p, n, x);
    forall o | HasPartner(o) && o != k ensures Couples(st.all.Of(o), st.gs[n := x]) == Couples(st.all.Of(o), st.gs) {
      NewGpartUnknown(st, o, n);
      CouplesSame(st.all.Of(o), st.gs, n, x);
    }
  }

  /** The new star is its parent by another name: it is where the parent is, moves as the parent does, and has its mass
      and size; its gpart is the parent's with another kind, clock and way back.  The parent keeps everything, its
      gpart at most moves up by one place. */
  lemma SpawnedIsSame(st: State, from: Kind, i: int, j: int, n: int, middle: Vec, bin: int, id: int)
    requires CanSpawn(st, from, i, j) && 0 <= i < |st.all.Of(from)|
    requires HasGpartRoom(Conceived(st, j, middle, bin, st.all.Of(from)[i].diff), n)
    ensures var st', p := Spawned(st, from, i, j, n, middle, bin, id), st.all.Of(from)[i];
      && 0 <= j < |st'.all.sparts| && 0 <= n < |st'.gs| && 0 <= p.gpart < |st.gs|
      && st'.all.sparts[j].id == id && st'.all.sparts[j].bin == Bin(bin) && st'.all.sparts[j].gpart == n
      && st'.all.sparts[j].x == p.x && st'.all.sparts[j].v == p.v && st'.all.sparts[j].diff == p.diff
      && st'.all.sparts[j].h == p.h && st'.all.sparts[j].mass == p.mass
      && st'.gs[n] == st.gs[p.gpart].(kind := StarKind, idOrNegOffset := -j, bin := Bin(bin))
    ensures var st', p := Spawned(st, from, i, j, n, middle, bin, id), st.all.Of(from)[i];
      && i < |st'.all.Of(from)| && 0 <= st'.all.Of(from)[i].gpart < |st'.gs|
      && st'.all.Of(from)[i] == p.(gpart := st'.all.Of(from)[i].gpart)
      && p.gpart <= st'.all.Of(from)[i].gpart <= p.gpart + 1 && st'.all.Of(from)[i].gpart != n
      && st'.gs[st'.all.Of(from)[i].gpart] == st.gs[p.gpart]
  {
    hide AfterAdd, AfterAddGpart, Conceived, Counts.Of, Counts.Plus, FreeSlots, FreshGpart, FreshParticle, Good,
      GoodBut, HasGpartRoom, HasPartner, HasRoom, Inserted, Partners.Of, Partners.With, SpeciesOf, WindowOf;
    CanSpawnParts(st, from, i, j);
    var p, d := st.all.Of(from)[i], st.all.Of(from)[i].diff;
    SpawnedParts(st, from, i, j, n, middle, bin, d);
    ParentGpart(st, from, i, j, n, middle, bin);
    var st3 := AfterAddGpart(Conceived(st, j, middle, bin, d), n, FreshGpart(middle, bin));
    var star := Offspring(p, n, bin, id);
    var x := st3.gs[st3.all.Of(from)[i].gpart].(kind := StarKind, idOrNegOffset := -j, bin := Bin(bin));
    var st' := Spawned(st, from, i, j, n, middle, bin, id);
    assert st' == Joined(st3, StarKind, j, star, n, x);
    assert st' == st3.(all := st3.all.With(StarKind, st3.all.Of(StarKind)[j := star]), gs := st3.gs[n := x]);
    assert from != StarKind && st'.all.Of(from) == st3.all.Of(from) && st'.all.Of(StarKind)[j] == star;
    StarsOf(st'.all);
  }

  lemma StarsOf(all: Partners)
    ensures HasPartner(StarKind) && all.Of(StarKind) == all.sparts
  {
  }

  /** Neither the new star nor the new gpart touches the gpart of the parent, but for its place. */
  lemma ParentGpart(st: State, from: Kind, i: int, j: int, n: int, middle: Vec, bin: int)
    requires CanSpawn(st, from, i, j) && 0 <= i < |st.all.Of(from)|
    requires HasGpartRoom(Conceived(st, j, middle, bin, st.all.Of(from)[i].diff), n)
    ensures var p := st.all.Of(from)[i];
      var st3 := AfterAddGpart(Conceived(st, j, middle, bin, p.diff), n, FreshGpart(middle, bin));
      && 0 <= p.gpart < |st.gs| && i < |st3.all.Of(from)|
      && p.gpart <= st3.all.Of(from)[i].gpart <= p.gpart + 1 && st3.all.Of(from)[i].gpart < |st3.gs|
      && st3.gs[st3.all.Of(from)[i].gpart] == st.gs[p.gpart]
  {
    hide AfterAdd, AfterAddGpart, Conceived, Counts.Of, FreeSlots, FreshGpart, FreshParticle, Good, HasGpartRoom,
      HasRoom, HasPartner, Partners.Of, SpeciesOf, WindowOf;
    CanSpawnParts(st, from, i, j);
    var p := st.all.Of(from)[i];
    LinkAt(st, from, i);
    ConceivedKeepsGood(st, j, middle, bin, p.diff);
    ForeignStays(st, j, middle, bin, p.diff, p.gpart);
    GpartMovesUp(Conceived(st, j, middle, bin, p.diff), from, i, n, FreshGpart(middle, bin));
  }

  lemma GpartMovesUp(st: State, k: Kind, i: int, n: int, y: Gpart)
    requires Good(st) && HasPartner(k) && 0 <= i < |st.all.Of(k)| && st.all.Of(k)[i].gpart != NULL
    requires HasGpartRoom(st, n)
    ensures var g, st1 := st.all.Of(k)[i].gpart, AfterAddGpart(st, n, y);
      && 0 <= g < |st.gs| && i < |st1.all.Of(k)|
      && g <= st1.all.Of(k)[i].gpart <= g + 1 && st1.all.Of(k)[i].gpart < |st1.gs|
      && st1.gs[st1.all.Of(k)[i].gpart] == st.gs[g]
  {
    hide Counts.Of, Counts.Plus, FreeSlots, Good, HasPartner, Inserted, Linked, Partners.Of, Raised, SpeciesOf;
    var end := st.top.grav.start + st.top.grav.count;
    CanAddGpart(st, n);
    RaisedAt(st.all, st.gs, n, end, k, i);
    assert AllLinked(st.all, st.gs) && Linked(st.all.Of(k), st.gs, k);
    LinkInside(st.all.Of(k), st.gs, k, i);
    InsertGpartForward(st.all, st.gs, n, end, y, k, i);
  }

  lemma LinkInside(ps: seq<Particle>, gs: seq<Gpart>, k: Kind, i: int)
    requires Linked(ps, gs, k) && 0 <= i < |ps| && ps[i].gpart != NULL
    ensures 0 <= ps[i].gpart < |gs|
  {
    LinkOf(ps, gs, k, i);
  }

  /** A new star does not touch the gparts of other kinds. */
  lemma ForeignStays(st: State, j: int, middle: Vec, bin: int, d: Vec, g: int)
    requires HasPartner(StarKind) && Good(st) && HasRoom(st, StarKind, j)
    requires FreeSlots(st.all.Of(StarKind), WindowOf(st.top, SpeciesOf(StarKind)))
    requires 0 <= g < |st.gs| && st.gs[g].kind != StarKind
    ensures |Conceived(st, j, middle, bin, d).gs| == |st.gs| && Conceived(st, j, middle, bin, d).gs[g] == st.gs[g]
  {
    hide Counts.Of, Counts.Plus, FreeGpartSlots, FreshParticle, GoodArray, GoodGparts, HasPartner, InhibitedIn,
      Inserted, Linked, Lowered, OneMore, Partners.Of, Partners.With, SpeciesOf, WindowOf;
    ConceivedKeepsGood(st, j, middle, bin, d);
    var ps, v := st.all.Of(StarKind), WindowOf(st.top, SpeciesOf(StarKind));
    assert GoodArray(ps, st.gs, StarKind, st.inhibited.Of(SpeciesOf(StarKind)));
    RoomInside(st, StarKind, j);
    FreshIsSingle(middle, bin);
    ArrayAfter(ps, st.gs, StarKind, st.inhibited.Of(SpeciesOf(StarKind)), j, v.start + v.count,
      SkipsInhibited(StarKind),
      FreshParticle(middle, bin));
    LoweredForeign(ps, st.gs, StarKind, j, v.start + v.count, SkipsInhibited(StarKind), g);
  }

  lemma ArraysOf(s: Space)
    ensures forall k :: HasPartner(k) ==> s.All().Of(k) == s.Array(k)[..]
  {
  }

  /** The rest of the birth, once star and gpart are in their places. */
  method FillIn(s: Space, from: Kind, i: nat, j: int, n: int, ghost middle: Vec, minActiveBin: int, newId: int,
        ghost st: State, ghost root: Cell)
    requires CanSpawn(st, from, i, j) && i < |st.all.Of(from)|
    requires HasGpartRoom(Conceived(st, j, middle, minActiveBin, st.all.Of(from)[i].diff), n)
    requires InvBut(s, root, n)
    requires StateOf(s, root) == AfterAddGpart(Conceived(st, j, middle, minActiveBin, st.all.Of(from)[i].diff), n,
      FreshGpart(middle, minActiveBin))
    modifies s.sparts, s.gparts
    ensures Inv(s, root) && StateOf(s, root) == Spawned(st, from, i, j, n, middle, minActiveBin, newId)
  {
    hide AfterAddGpart, Cell.Rooted, Cell.Tiled, Cell.WellFormed, Conceived, Counts.Of, FreeSlots, FreshGpart, Good,
      GoodBut, HasGpartRoom, HasPartner, HasRoom, Inv, Leveled, Partners.Of, Partners.With, Space.All, Space.Apart,
      SpeciesOf, WindowOf;
    assert HasPartner(from) && HasPartner(StarKind) && from != StarKind && Good(st)
      && HasRoom(st, StarKind, j) && FreeSlots(st.all.Of(StarKind), WindowOf(st.top, SpeciesOf(StarKind)));
    ghost var d := st.all.Of(from)[i].diff;
    SpawnedParts(st, from, i, j, n, middle, minActiveBin, d);
    SpawnedKeepsGood(st, from, i, j, n, middle, minActiveBin, newId);
    ghost var st3 := StateOf(s, root);
    assert TopCell(root);
    assert root.WellFormed();
    assert s.Apart() && forall o :: root.Tiled(o);
    assert st3 == State(s.All(), s.gparts[..], root.windows, s.nrExtra, s.nrInhibited);
    ArraysOf(s);
    assert s.Array(StarKind) == s.sparts;
    assert 0 <= n < |st3.gs|;
    assert 0 <= j < |st3.all.Of(StarKind)|;
    var p := s.Array(from)[i];
    assert p == st3.all.Of(from)[i] && s.gparts[p.gpart] == st3.gs[p.gpart];
    PutGpart(s, n, s.gparts[p.gpart].(kind := StarKind, idOrNegOffset := -j, bin := Bin(minActiveBin)));
    Put(s, StarKind, j, Offspring(p, n, minActiveBin, newId));
    assert Offspring(p, n, minActiveBin, newId) == Offspring(st.all.Of(from)[i], n, minActiveBin, newId);
    assert StateOf(s, root) == Spawned(st, from, i, j, n, middle, minActiveBin, newId);
    Together(s, root);
  }

  /** One star more in `c`, and nothing else has changed for any cell. */
  ghost predicate StarAdded(root: Cell, c: Cell, before: Snapshot, after: Snapshot, st: State, st': State, j: int)
    requires root.WellFormed()
  {
    && OneMoreIn(root, c, Stars, before, after, Content(st, StarKind), Content(st', StarKind), j)
    && (forall o :: HasPartner(o) && o != StarKind ==> Content(st', o) == Content(st, o))
    && BareGparts(st'.gs) == BareGparts(st.gs)
    && OthersStay(root, Stars, before, after)
  }

  /** One star and one gpart more in `c`, and nothing else has changed for any cell. */
  ghost predicate StarAndGpartAdded(root: Cell, c: Cell, before: Snapshot, after: Snapshot, st: State, st': State,
        j: int, n: int)
    requires root.WellFormed()
  {
    && OneMoreIn(root, c, Stars, before, after, Content(st, StarKind), Content(st', StarKind), j)
    && OneMoreIn(root, c, Grav, before, after, BareGparts(st.gs), BareGparts(st'.gs), n)
    && (forall o :: HasPartner(o) && o != StarKind ==> Content(st', o) == Content(st, o))
    && forall d, o :: d in root.subtree && o != Stars && o != Grav ==> WindowOf(after[d], o) == WindowOf(before[d], o)
  }

  lemma SpawnedEverywhere(root: Cell, c: Cell, before: Snapshot, between: Snapshot, after: Snapshot,
        st: State, from: Kind, i: int, j: int, n: int, middle: Vec, bin: int, id: int)
    requires CanSpawn(st, from, i, j) && 0 <= i < |st.all.Of(from)|
    requires HasGpartRoom(Conceived(st, j, middle, bin, st.all.Of(from)[i].diff), n)
    requires root.WellFormed() && root in root.subtree && c in root.subtree && !c.split
    requires Shifted(root, Stars, true, c, before, between) && Shifted(root, Grav, true, c, between, after)
    requires forall o :: Tiled(root, o, before) && Tiled(root, o, between)
    requires root in before && c in before && before[root] == st.top && j == WindowOf(before[c], Stars).start
    requires root in between && c in between && between[root].grav == st.top.grav
    requires n == WindowOf(between[c], Grav).start
    ensures StarAndGpartAdded(root, c, before, after, st, Spawned(st, from, i, j, n, middle, bin, id), j, n)
  {
    hide AllAlike, BareGparts, CanSpawn, Cell.WellFormed, Conceived, Content, Exists, Good, HasGpartRoom, HasPartner,
      HasRoom, Inserted, OneMoreIn, Partners.Of, Shifted, Spawned, Tiled;
    CanSpawnParts(st, from, i, j);
    assert SpeciesOf(StarKind) == Stars;
    SpawnedContent(st, from, i, j, n, middle, bin, id);
    OtherWindows(root, Stars, c, before, between);
    OtherWindows(root, Grav, c, between, after);
    var st', v, w := Spawned(st, from, i, j, n, middle, bin, id), WindowOf(st.top, Stars), st.top.grav;
    OneMoreInserted(root, c, Stars, before, between, Content(st, StarKind), Content(st', StarKind), j,
      v.start + v.count);
    OneMoreSame(root, c, Stars, before, between, before, after, Content(st, StarKind), Content(st', StarKind), j);
    GravRoom(st);
    assert BareGparts(st'.gs)[n] == BareGpart(st'.gs[n]);
    OneMoreInserted(root, c, Grav, between, after, BareGparts(st.gs), BareGparts(st'.gs), n, w.start + w.count);
    OneMoreSame(root, c, Grav, between, after, before, after, BareGparts(st.gs), BareGparts(st'.gs), n);
  }

  lemma GravRoom(st: State)
    requires Good(st)
    ensures 0 <= st.top.grav.start
  {
    hide GoodArray, GoodGparts, FreeSlots;
  }

  lemma CanSpawnParts(st: State, from: Kind, i: int, j: int)
    requires CanSpawn(st, from, i, j)
    ensures HasPartner(from) && HasPartner(StarKind) && Good(st) && HasRoom(st, StarKind, j)
    ensures FreeSlots(st.all.Of(StarKind), WindowOf(st.top, SpeciesOf(StarKind)))
  {
  }

  lemma FailedEverywhere(root: Cell, c: Cell, before: Snapshot, after: Snapshot, st: State, j: int, middle: Vec,
        bin: int, d: Vec)
    requires HasPartner(StarKind) && Good(st) && HasRoom(st, StarKind, j)
    requires FreeSlots(st.all.Of(StarKind), WindowOf(st.top, SpeciesOf(StarKind)))
    requires Good(Conceived(st, j, middle, bin, d)) && Exists(Conceived(st, j, middle, bin, d), StarKind, j)
    requires root.WellFormed() && root in root.subtree && c in root.subtree && !c.split
    requires Shifted(root, Stars, true, c, before, after) && forall o :: Tiled(root, o, before)
    requires root in before && c in before && before[root] == st.top && j == WindowOf(before[c], Stars).start
    ensures StarAdded(root, c, before, after, st, Removed(Conceived(st, j, middle, bin, d), StarKind, j), j)
  {
    hide AllAlike, BareGparts, Cell.WellFormed, Conceived, Content, Exists, Good, HasPartner, HasRoom, Inserted,
      OneMoreIn, Partners.Of, Removed, Shifted, Tiled;
    assert SpeciesOf(StarKind) == Stars;
    FailedContent(st, j, middle, bin, d);
    OtherWindows(root, Stars, c, before, after);
    var st', v := Removed(Conceived(st, j, middle, bin, d), StarKind, j), WindowOf(st.top, Stars);
    OneMoreInserted(root, c, Stars, before, after, Content(st, StarKind), Content(st', StarKind), j, v.start + v.count);
  }

  /** How cell_spawn_new_spart_from_part and cell_spawn_new_spart_from_sink end. */
  datatype Birth = Alive(star: int, gpart: int) | NoStarSlot | NoGpartSlot(star: int) | Abort

  /** Where a new star and its gpart go, and whether the leaf refuses them. */
  datatype Site = Site(star: int, gpart: int, noStar: bool, noGpart: bool)

  ghost function SiteOf(c: Cell, now: int): Site
    reads c`windows, c`foreign, c`tiOld
  {
    Site(c.Win(Stars).start, c.Win(Grav).start, c.Refuses(Stars, now), c.Refuses(Grav, now))
  }

  /** How a birth at the front of a leaf must end. */
  ghost function BirthFate(st: State, from: Kind, i: int, site: Site): Birth
    requires HasPartner(from) && 0 <= i < |st.all.Of(from)|
  {
    if st.all.Of(from)[i].gpart == NULL then Abort
    else match Fate(st, StarKind, site.noStar, site.star)
      case Aborted => Abort
      case NoRoom => NoStarSlot
      case At(j) =>
        if site.noGpart then Abort
        else if st.top.grav.count == st.top.grav.total then NoGpartSlot(j) else Alive(j, site.gpart)
  }

  lemma BirthEnds(st: State, from: Kind, i: int, site: Site)
    requires HasPartner(from) && 0 <= i < |st.all.Of(from)| && st.all.Of(from)[i].gpart != NULL
    ensures Fate(st, StarKind, site.noStar, site.star).Aborted? ==> BirthFate(st, from, i, site) == Abort
    ensures Fate(st, StarKind, site.noStar, site.star).NoRoom? ==> BirthFate(st, from, i, site) == NoStarSlot
    ensures Fate(st, StarKind, site.noStar, site.star).At? ==>
      Fate(st, StarKind, site.noStar, site.star) == At(site.star) && !site.noStar
    ensures Fate(st, StarKind, site.noStar, site.star).At? ==>
      BirthFate(st, from, i, site) == if site.noGpart then Abort
                                      else if st.top.grav.count == st.top.grav.total then NoGpartSlot(site.star)
                                      else Alive(site.star, site.gpart)
  {
    hide Full, Tellable, Partners.Of, HasPartner;
  }

  /** A new star does not change the window of gparts of the leaf. */
  lemma SameGravWindow(st: State, j: int, middle: Vec, bin: int, d: Vec)
    requires HasPartner(StarKind) && HasRoom(st, StarKind, j)
    requires FreeSlots(st.all.Of(StarKind), WindowOf(st.top, SpeciesOf(StarKind)))
    requires 0 <= j < |AfterAdd(st, StarKind, j, FreshParticle(middle, bin)).all.Of(StarKind)|
    ensures Conceived(st, j, middle, bin, d).top.grav == st.top.grav
  {
  }

  /** The second half of a birth: a gpart for the new star, or back to before. */
  method GiveGpart(s: Space, c: Cell, from: Kind, i: nat, j: nat, middle: Vec, minActiveBin: int, now: int, newId: int,
        ghost st: State, ghost before: Snapshot, ghost root: Cell) returns (r: Birth)
    requires CanSpawn(st, from, i, j) && i < |st.all.Of(from)|
    requires Inv(s, root) && c in root.subtree && !c.split
    requires StateOf(s, root) == Conceived(st, j, middle, minActiveBin, st.all.Of(from)[i].diff)
    requires Shifted(root, Stars, true, c, before, Now(root)) && forall o :: Tiled(root, o, before)
    requires root in before && c in before && before[root] == st.top && j == WindowOf(before[c], Stars).start
    modifies s`nrExtra, s`nrInhibited, s`forceRebuild, s.parts, s.sparts, s.sinks, s.bparts, s.gparts
    modifies root.subtree`windows, root.subtree`starsSorted, root.subtree`tiOld
    ensures r == if old(c.Refuses(Grav, now)) then Abort
                 else if st.top.grav.count == st.top.grav.total then NoGpartSlot(j)
                   else Alive(j, old(c.Win(Grav).start))
    ensures r.NoGpartSlot? ==> var st2 := old(StateOf(s, root));
      Good(st2) && Exists(st2, StarKind, j) && Inv(s, root) && StateOf(s, root) == Removed(st2, StarKind, j)
      && s.forceRebuild == old(s.forceRebuild) + 1 && st2.top.grav.count == st2.top.grav.total
    ensures r.NoGpartSlot? ==> StarAdded(root, c, before, Now(root), st, StateOf(s, root), j)
    ensures r.Alive? ==> HasGpartRoom(Conceived(st, j, middle, minActiveBin, st.all.Of(from)[i].diff), r.gpart)
    ensures r.Alive? ==>
      Inv(s, root) && StateOf(s, root) == Spawned(st, from, i, j, r.gpart, middle, minActiveBin, newId)
    ensures r.Alive? ==> StarAndGpartAdded(root, c, before, Now(root), st, StateOf(s, root), j, r.gpart)
  {
    hide AfterAdd, AfterAddGpart, AllAlike, BareGpart, BareGparts, CanSpawn, Cell.Tiled, Cell.WellFormed, Cell.Win,
      Conceived, Content, Counts.Of, CoupleOf, Couples, Exists, FreeSlots, FreshGpart, FreshParticle, Good,
      HasGpartRoom, HasPartner, HasRoom, Inv, InvBut, Now, Partners.Of, Partners.With, Removed, Shifted, Space.All,
      Space.Apart, Spawned, StarAdded, StarAndGpartAdded, Tiled, TopCell, WindowOf;
    CanSpawnParts(st, from, i, j);
    ghost var between, d := Now(root), st.all.Of(from)[i].diff;
    InOrder(s, root, c);
    Pieces(s, root);
    ConceivedKeepsGood(st, j, middle, minActiveBin, d);
    SameGravWindow(st, j, middle, minActiveBin, d);
    var place := NewGpart(s, c, middle, minActiveBin, now, root);
    if place.Aborted? { return Abort; }
    if place.NoRoom? {
      assert Live(s, root, StarKind, j);
      Remove(s, StarKind, j, root);
      assert Now(root) == between;
      FailedEverywhere(root, c, before, between, st, j, middle, minActiveBin, d);
      return NoGpartSlot(j);
    }
    ghost var after := Now(root);
    FillIn(s, from, i, j, place.index, middle, minActiveBin, newId, st, root);
    assert Now(root) == after;
    SpawnedEverywhere(root, c, before, between, after, st, from, i, j, place.index, middle, minActiveBin, newId);
    return Alive(j, place.index);
  }

  /** The first half of a birth: a star in front of the leaf, that has moved as far as its parent. */
  method Conceive(s: Space, c: Cell, middle: Vec, minActiveBin: int, now: int, d: Vec, ghost root: Cell)
    returns (r: Slot)
    requires HasPartner(StarKind) && Inv(s, root) && c in root.subtree
    modifies s`nrExtra, s`forceRebuild, s.sparts, s.gparts, root.subtree`windows, root.subtree`starsSorted
    modifies root.subtree`tiOld
    ensures r == Fate(old(StateOf(s, root)), StarKind, old(c.Refuses(Stars, now)), old(c.Win(Stars).start))
    ensures r.NoRoom? ==>
      Inv(s, root) && StateOf(s, root) == old(StateOf(s, root)) && s.forceRebuild == old(s.forceRebuild) + 1
    ensures r.NoRoom? ==> Now(root) == old(Now(root))
    ensures r.At? ==>
      Inv(s, root) && s.forceRebuild == old(s.forceRebuild) && HasRoom(old(StateOf(s, root)), StarKind, r.index)
    ensures r.At? ==> FreeSlots(old(s.All()).Of(StarKind), old(WindowOf(root.windows, SpeciesOf(StarKind))))
    ensures r.At? ==> StateOf(s, root) == Conceived(old(StateOf(s, root)), r.index, middle, minActiveBin, d)
    ensures r.At? ==> Shifted(root, Stars, true, c, old(Now(root)), Now(root))
    ensures r.At? ==> r.index == old(c.Win(Stars).start) && c.Win(Grav) == old(c.Win(Grav))
    ensures r.At? ==> c.Refuses(Grav, now) == old(c.Refuses(Grav, now))
    ensures r.At? ==> !c.split && 0 <= r.index
  {
    hide AfterAdd, AllAlike, Cell.Tiled, Cell.WellFormed, Cell.Win, CoupleOf, Counts.Of, Exists, FreeSlots,
      FreshParticle, Full, Good, HasPartner, HasRoom, Inv, Now, Partners.Of, Partners.With, Shifted, Space.All,
      Space.Apart, Tellable, TopCell, WindowOf;
    ghost var st, refused := StateOf(s, root), c.Refuses(Stars, now);
    assert TimesOf(root)[c] == c.tiOld;
    Pieces(s, root);
    InOrder(s, root, c);
    assert SpeciesOf(StarKind) == Stars && s.Array(StarKind) == s.sparts;
    assert Fate(st, StarKind, refused, c.Win(Stars).start).At? ==> Fate(st, StarKind, refused, c.Win(Stars).start) == At(c.Win(Stars).start) && !refused;
    r := NewParticle(s, c, StarKind, middle, minActiveBin, now, root);
    if r.At? {
      var j := r.index;
      ghost var st1 := StateOf(s, root);
      ConceivedKeepsGood(st, j, middle, minActiveBin, d);
      Pieces(s, root);
      assert st1.all.Of(StarKind)[j] == s.sparts[j];
      Put(s, StarKind, j, s.sparts[j].(diff := d));
      assert StateOf(s, root) == Conceived(st, j, middle, minActiveBin, d);
      Together(s, root);
    }
  }

  /** cell_spawn_new_spart_from_part and cell_spawn_new_spart_from_sink.  When the gparts have run out the
      new star is taken out again, and stays behind as an inhibited particle. */
  method Spawn(s: Space, c: Cell, from: Kind, i: nat, middle: Vec, minActiveBin: int, now: int, newId: int,
        ghost root: Cell) returns (r: Birth)
    requires (from == GasKind || from == SinkKind) && HasPartner(from) && HasPartner(StarKind)
    requires Inv(s, root) && c in root.subtree && Live(s, root, from, i)
    modifies s`nrExtra, s`nrInhibited, s`forceRebuild, s.parts, s.sparts, s.sinks, s.bparts, s.gparts
    modifies root.subtree`windows, root.subtree`starsSorted, root.subtree`tiOld
    ensures i < |old(StateOf(s, root)).all.Of(from)|
    ensures r == BirthFate(old(StateOf(s, root)), from, i, old(SiteOf(c, now)))
    ensures r.NoStarSlot? ==>
      Inv(s, root) && StateOf(s, root) == old(StateOf(s, root)) && s.forceRebuild == old(s.forceRebuild) + 1
    ensures r.NoStarSlot? ==> Now(root) == old(Now(root))
    ensures r.Alive? || r.NoGpartSlot? ==>
      r.star == old(c.Win(Stars).start) && CanSpawn(old(StateOf(s, root)), from, i, r.star)
        && i < |old(StateOf(s, root)).all.Of(from)|
    ensures r.NoGpartSlot? ==> var st2 := Conceived(old(StateOf(s, root)), r.star, middle, minActiveBin, old(StateOf(s, root)).all.Of(from)[i].diff);
      Good(st2) && Exists(st2, StarKind, r.star) && Inv(s, root) && StateOf(s, root) == Removed(st2, StarKind, r.star)
      && s.forceRebuild == old(s.forceRebuild) + 1 && st2.top.grav.count == st2.top.grav.total
    ensures r.Alive? ==> HasGpartRoom(Conceived(old(StateOf(s, root)), r.star, middle, minActiveBin,
      old(StateOf(s, root)).all.Of(from)[i].diff), r.gpart)
    ensures r.Alive? ==> Inv(s, root)
    ensures r.Alive? ==>
      StateOf(s, root) == Spawned(old(StateOf(s, root)), from, i, r.star, r.gpart, middle, minActiveBin, newId)
    ensures r.NoGpartSlot? ==>
      StarAdded(root, c, old(Now(root)), Now(root), old(StateOf(s, root)), StateOf(s, root), r.star)
    ensures r.Alive? ==>
      StarAndGpartAdded(root, c, old(Now(root)), Now(root), old(StateOf(s, root)), StateOf(s, root), r.star, r.gpart)
  {
    hide AfterAdd, AfterAddGpart, AllAlike, BareGpart, BareGparts, Cell.Tiled, Cell.WellFormed, Cell.Win, Counts.Of,
      CoupleOf, Couples, Exists, FreeSlots, FreshGpart, FreshParticle, Full, Good, HasGpartRoom, HasPartner, HasRoom,
      Inv, InvBut, Now, Partners.Of, Partners.With, Removed, Shifted, Space.All, Space.Apart, Spawned, StarAdded,
      StarAndGpartAdded, Tellable, TopCell, WindowOf;
    ghost var st, before := StateOf(s, root), Now(root);
    Pieces(s, root);
    InOrder(s, root, c);
    assert SpeciesOf(StarKind) == Stars;
    assert Exists(st, from, i);
    LinkAt(st, from, i);
    assert st.all.Of(from)[i] == s.Array(from)[i];
    var p := s.Array(from)[i];
    if p.gpart == NULL { return Abort; }
    BirthEnds(st, from, i, SiteOf(c, now));
    var slot := Conceive(s, c, middle, minActiveBin, now, p.diff, root);
    if slot.Aborted? { return Abort; }
    if slot.NoRoom? { return NoStarSlot; }
    var j := slot.index;
    assert CanSpawn(st, from, i, j);
    r := GiveGpart(s, c, from, i, j, middle, minActiveBin, now, newId, st, before, root);
  }
}
