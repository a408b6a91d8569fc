/**
 cell_add_spart, cell_add_sink and cell_add_gpart as far as the shared arrays go: everything from the
 insertion point to the end of the top-level cell moves up by one place, and the links follow.
 */
module Insertion {
  import opened Particles
  import opened WindowShift

  /** Inhibited particles and gparts have been unlinked. */
  ghost predicate Unlinked(ps: seq<Particle>) {
    forall i :: 0 <= i < |ps| && ps[i].bin.Inhibited? ==> ps[i].gpart == NULL
  }

  ghost predicate GpartsUnlinked(gs: seq<Gpart>) {
    forall g :: 0 <= g < |gs| && gs[g].bin.Inhibited? ==> !HasPartner(gs[g].kind)
  }

  // ----- particles move, their gparts are told -----

  /** The particle is passed over when the links are updated. */
  predicate Skipped(q: Particle, skip: bool) {
    skip && q.bin.Inhibited?
  }

  /** The gparts after the one of `q` has been told that `q` moved up by one. */
  function LowerOne(gs: seq<Gpart>, q: Particle, skip: bool): (r: seq<Gpart>)
    ensures |r| == |gs|
  {
    if Skipped(q, skip) || !(0 <= q.gpart < |gs|) then gs
    else gs[q.gpart := gs[q.gpart].(idOrNegOffset := gs[q.gpart].idOrNegOffset - 1)]
  }

  ghost function Lowered(gs: seq<Gpart>, ps: seq<Particle>, p: nat, n: nat, skip: bool): (r: seq<Gpart>)
    requires p <= n <= |ps|
    ensures |r| == |gs|
    decreases n
  {
    if n == p then gs else LowerOne(Lowered(gs, ps, p, n - 1, skip), ps[n - 1], skip)
  }

  lemma {:induction false} LoweredOthers(gs: seq<Gpart>, ps: seq<Particle>, p: nat, n: nat, skip: bool, g: int)
    requires p <= n <= |ps| && 0 <= g < |gs| && forall i :: p <= i < n ==> ps[i].gpart != g
    ensures Lowered(gs, ps, p, n, skip)[g] == gs[g]
    decreases n
  {
    if p < n { LoweredOthers(gs, ps, p, n - 1, skip, g); }
  }

  /** Each gpart of the moved particles is told exactly once. */
  lemma {:induction false} LoweredOnce(gs: seq<Gpart>, ps: seq<Particle>, p: nat, n: nat, skip: bool, i: int)
    requires p <= i < n <= |ps| && 0 <= ps[i].gpart < |gs| && !Skipped(ps[i], skip)
    requires forall j :: p <= j < n && j != i ==> ps[j].gpart != ps[i].gpart
    ensures var g := ps[i].gpart; Lowered(gs, ps, p, n, skip)[g] == gs[g].(idOrNegOffset := gs[g].idOrNegOffset - 1)
    decreases n
  {
    if i == n - 1 {
      LoweredOthers(gs, ps, p, n - 1, skip, ps[i].gpart);
    } else {
      LoweredOnce(gs, ps, p, n - 1, skip, i);
    }
  }

  /** What the links need: the slot at `end` is a free one, and inhibited particles are unlinked. */
  ghost predicate CanInsert(ps: seq<Particle>, gs: seq<Gpart>, k: Kind, p: int, end: int, skip: bool) {
    && HasPartner(k) && Linked(ps, gs, k) && 0 <= p <= end < |ps| && ps[end].gpart == NULL
    && (skip ==> Unlinked(ps))
  }

  lemma Unshared(ps: seq<Particle>, gs: seq<Gpart>, k: Kind, i: int, j: int)
    requires PointsToGpart(ps, gs, k) && 0 <= i < |ps| && 0 <= j < |ps| && i != j && ps[i].gpart != NULL
    ensures ps[j].gpart != ps[i].gpart && 0 <= ps[i].gpart < |gs| && gs[ps[i].gpart].kind == k
  {
  }

  lemma LoweredAt(ps: seq<Particle>, gs: seq<Gpart>, k: Kind, p: int, end: int, skip: bool, i: int)
    requires CanInsert(ps, gs, k, p, end, skip) && 0 <= i < |ps| && ps[i].gpart != NULL
    ensures 0 <= ps[i].gpart < |gs|
    ensures var g, id := ps[i].gpart, gs[ps[i].gpart].idOrNegOffset;
      Lowered(gs, ps, p, end, skip)[g] == gs[g].(idOrNegOffset := if p <= i < end then id - 1 else id)
  {
    forall j | 0 <= j < |ps| && j != i ensures ps[j].gpart != ps[i].gpart { Unshared(ps, gs, k, i, j); }
    if p <= i < end { LoweredOnce(gs, ps, p, end, skip, i); } else { LoweredOthers(gs, ps, p, end, skip, ps[i].gpart); }
  }

  /** A gpart of another kind is not told anything. */
  lemma LoweredForeign(ps: seq<Particle>, gs: seq<Gpart>, k: Kind, p: int, end: int, skip: bool, g: int)
    requires CanInsert(ps, gs, k, p, end, skip) && 0 <= g < |gs| && gs[g].kind != k
    ensures Lowered(gs, ps, p, end, skip)[g] == gs[g]
  {
    assert forall i :: p <= i < end && ps[i].gpart != NULL ==> gs[ps[i].gpart].kind == k;
    LoweredOthers(gs, ps, p, end, skip, g);
  }

  lemma LoweredKinds(ps: seq<Particle>, gs: seq<Gpart>, k: Kind, p: int, end: int, skip: bool, g: int)
    requires CanInsert(ps, gs, k, p, end, skip) && 0 <= g < |gs|
    ensures Lowered(gs, ps, p, end, skip)[g].kind == gs[g].kind
    ensures BareGpart(Lowered(gs, ps, p, end, skip)[g]) == BareGpart(gs[g])
  {
    if gs[g].kind == k {
      LoweredAt(ps, gs, k, p, end, skip, -gs[g].idOrNegOffset);
    } else {
      LoweredForeign(ps, gs, k, p, end, skip, g);
    }
  }

  /** Inserting an unlinked particle keeps the links of its own kind ... */
  lemma InsertKeepsLinks(ps: seq<Particle>, gs: seq<Gpart>, k: Kind, p: int, end: int, skip: bool, x: Particle)
    requires CanInsert(ps, gs, k, p, end, skip) && x.gpart == NULL
    ensures Linked(Inserted(ps, p, end, x), Lowered(gs, ps, p, end, skip), k)
  {
    hide Inserted, Lowered, PointsToGpart, PointsToParticle;
    InsertKeepsGparts(ps, gs, k, p, end, skip, x);
    InsertKeepsParticles(ps, gs, k, p, end, skip, x);
  }

  lemma InsertKeepsGparts(ps: seq<Particle>, gs: seq<Gpart>, k: Kind, p: int, end: int, skip: bool, x: Particle)
    requires CanInsert(ps, gs, k, p, end, skip) && x.gpart == NULL
    ensures PointsToGpart(Inserted(ps, p, end, x), Lowered(gs, ps, p, end, skip), k)
  {
    hide Inserted, Lowered;
    assert 0 <= p <= end < |ps|;
    var ps1, gs1 := Inserted(ps, p, end, x), Lowered(gs, ps, p, end, skip);
    forall i | 0 <= i < |ps1| && ps1[i].gpart != NULL
      ensures 0 <= ps1[i].gpart < |gs1| && gs1[ps1[i].gpart].kind == k && gs1[ps1[i].gpart].idOrNegOffset == -i
    {
      InsertKeepsForward(ps, gs, k, p, end, skip, x, i);
    }
  }

  lemma InsertKeepsParticles(ps: seq<Particle>, gs: seq<Gpart>, k: Kind, p: int, end: int, skip: bool, x: Particle)
    requires CanInsert(ps, gs, k, p, end, skip) && x.gpart == NULL
    ensures PointsToParticle(Inserted(ps, p, end, x), Lowered(gs, ps, p, end, skip), k)
  {
    hide Inserted, Lowered;
    assert 0 <= p <= end < |ps|;
    var ps1, gs1 := Inserted(ps, p, end, x), Lowered(gs, ps, p, end, skip);
    forall g | 0 <= g < |gs1| && gs1[g].kind == k
      ensures 0 <= -gs1[g].idOrNegOffset < |ps1| && ps1[-gs1[g].idOrNegOffset].gpart == g
    {
      InsertKeepsBack(ps, gs, k, p, end, skip, x, g);
    }
  }

  lemma InsertKeepsForward(ps: seq<Particle>, gs: seq<Gpart>, k: Kind, p: int, end: int, skip: bool, x: Particle,
        i: int)
    requires CanInsert(ps, gs, k, p, end, skip) && x.gpart == NULL
    requires 0 <= i < |ps| && Inserted(ps, p, end, x)[i].gpart != NULL
    ensures var g, gs1 := Inserted(ps, p, end, x)[i].gpart, Lowered(gs, ps, p, end, skip);
      0 <= g < |gs| && gs1[g].kind == k && gs1[g].idOrNegOffset == -i
  {
    hide Inserted, Lowered, PointsToGpart, PointsToParticle;
    var i0 := if i < p || end < i then i else i - 1;
    assert i != p && Inserted(ps, p, end, x)[i] == ps[i0];
    LinkOf(ps, gs, k, i0);
    LoweredAt(ps, gs, k, p, end, skip, i0);
  }

  lemma InsertKeepsBack(ps: seq<Particle>, gs: seq<Gpart>, k: Kind, p: int, end: int, skip: bool, x: Particle, g: int)
    requires CanInsert(ps, gs, k, p, end, skip) && x.gpart == NULL
    requires 0 <= g < |gs| && Lowered(gs, ps, p, end, skip)[g].kind == k
    ensures var i := -Lowered(gs, ps, p, end, skip)[g].idOrNegOffset;
      0 <= i < |ps| && Inserted(ps, p, end, x)[i].gpart == g
  {
    hide Inserted, Lowered, PointsToGpart, PointsToParticle;
    LoweredKinds(ps, gs, k, p, end, skip, g);
    LinkBackOf(ps, gs, k, g);
    var i0 := -gs[g].idOrNegOffset;
    assert i0 != end;
    LoweredAt(ps, gs, k, p, end, skip, i0);
    var i := if i0 < p || end < i0 then i0 else i0 + 1;
    assert Inserted(ps, p, end, x)[i] == ps[i0];
  }

  /** ... and of all other kinds. */
  lemma InsertKeepsOthers(ps: seq<Particle>, gs: seq<Gpart>, k: Kind, p: int, end: int, skip: bool,
        others: seq<Particle>, o: Kind)
    requires CanInsert(ps, gs, k, p, end, skip) && o != k && Linked(others, gs, o)
    ensures Linked(others, Lowered(gs, ps, p, end, skip), o)
  {
    hide Lowered, PointsToGpart;
    assert 0 <= p <= end < |ps|;
    OthersForward(ps, gs, k, p, end, skip, others, o);
    var gs1 := Lowered(gs, ps, p, end, skip);
    forall g | 0 <= g < |gs1| && gs1[g].kind == o
      ensures 0 <= -gs1[g].idOrNegOffset < |others| && others[-gs1[g].idOrNegOffset].gpart == g
    {
      LoweredKinds(ps, gs, k, p, end, skip, g);
      LoweredForeign(ps, gs, k, p, end, skip, g);
    }
  }

  lemma OthersForward(ps: seq<Particle>, gs: seq<Gpart>, k: Kind, p: int, end: int, skip: bool, others: seq<Particle>,
        o: Kind)
    requires CanInsert(ps, gs, k, p, end, skip) && o != k && PointsToGpart(others, gs, o)
    ensures PointsToGpart(others, Lowered(gs, ps, p, end, skip), o)
  {
    hide Lowered;
    assert 0 <= p <= end < |ps|;
    var gs1 := Lowered(gs, ps, p, end, skip);
    forall i | 0 <= i < |others| && others[i].gpart != NULL
      ensures 0 <= others[i].gpart < |gs1| && gs1[others[i].gpart].kind == o && gs1[others[i].gpart].idOrNegOffset == -i
    {
      LoweredForeign(ps, gs, k, p, end, skip, others[i].gpart);
    }
  }

  /** The couples move up with their particles, and stay the couples they were. */
  lemma InsertKeepsCouples(ps: seq<Particle>, gs: seq<Gpart>, k: Kind, p: int, end: int, skip: bool, x: Particle)
    requires CanInsert(ps, gs, k, p, end, skip) && x.gpart == NULL
    ensures Couples(Inserted(ps, p, end, x), Lowered(gs, ps, p, end, skip)) ==
      Inserted(Couples(ps, gs), p, end, Single(x))
    ensures BareGparts(Lowered(gs, ps, p, end, skip)) == BareGparts(gs)
  {
    hide Inserted, Lowered;
    assert 0 <= p <= end < |ps|;
    var gs1 := Lowered(gs, ps, p, end, skip);
    forall g | 0 <= g < |gs| ensures BareGpart(gs1[g]) == BareGpart(gs[g]) { LoweredKinds(ps, gs, k, p, end, skip, g); }
    forall q: Particle ensures CoupleOf(q, gs1) == CoupleOf(q, gs) {}
    var r, t := Couples(Inserted(ps, p, end, x), gs1), Inserted(Couples(ps, gs), p, end, Single(x));
    forall i | 0 <= i < |ps| ensures r[i] == t[i] {
      assert r[i] == CoupleOf(Inserted(ps, p, end, x)[i], gs1);
    }
  }

  // ----- gparts move, their partners are told -----

  /** The particles after the partner of `g` has been told that `g` moved up by one. */
  function RaiseOne(all: Partners, g: Gpart): Partners {
    if g.bin.Inhibited? || !HasPartner(g.kind) || !(0 <= -g.idOrNegOffset < |all.Of(g.kind)|) then all
    else all.Pointed(g, all.Of(g.kind)[-g.idOrNegOffset].gpart + 1)
  }

  ghost function Raised(all: Partners, gs: seq<Gpart>, p: nat, n: nat): Partners
    requires p <= n <= |gs|
    decreases n
  {
    if n == p then all else RaiseOne(Raised(all, gs, p, n - 1), gs[n - 1])
  }

  lemma RaiseOneAt(all: Partners, g: Gpart, k: Kind, q: int)
    requires HasPartner(k) && 0 <= q < |all.Of(k)|
    ensures |RaiseOne(all, g).Of(k)| == |all.Of(k)|
    ensures RaiseOne(all, g).Of(k)[q] ==
      if !g.bin.Inhibited? && g.kind == k && -g.idOrNegOffset == q then all.Of(k)[q].(gpart := all.Of(k)[q].gpart + 1)
        else all.Of(k)[q]
  {
  }

  lemma {:induction false} RaisedSizes(all: Partners, gs: seq<Gpart>, p: nat, n: nat, k: Kind)
    requires p <= n <= |gs| && HasPartner(k)
    ensures |Raised(all, gs, p, n).Of(k)| == |all.Of(k)|
    decreases n
  {
    hide Partners.Of, HasPartner;
    if p < n {
      RaisedSizes(all, gs, p, n - 1, k);
      RaiseOneSize(Raised(all, gs, p, n - 1), gs[n - 1], k);
    }
  }

  lemma RaiseOneSize(all: Partners, g: Gpart, k: Kind)
    requires HasPartner(k)
    ensures |RaiseOne(all, g).Of(k)| == |all.Of(k)|
  {
  }

  lemma {:induction false} RaisedOthers(all: Partners, gs: seq<Gpart>, p: nat, n: nat, k: Kind, q: int)
    requires p <= n <= |gs| && HasPartner(k) && 0 <= q < |all.Of(k)|
    requires forall g :: p <= g < n ==> !(!gs[g].bin.Inhibited? && gs[g].kind == k && -gs[g].idOrNegOffset == q)
    ensures |Raised(all, gs, p, n).Of(k)| == |all.Of(k)| && Raised(all, gs, p, n).Of(k)[q] == all.Of(k)[q]
    decreases n
  {
    hide RaiseOne, Partners.Of, HasPartner;
    if p < n {
      RaisedOthers(all, gs, p, n - 1, k, q);
      RaiseOneAt(Raised(all, gs, p, n - 1), gs[n - 1], k, q);
    }
  }

  lemma {:induction false} RaisedOnce(all: Partners, gs: seq<Gpart>, p: nat, n: nat, k: Kind, q: int, g: int)
    requires p <= g < n <= |gs| && HasPartner(k) && 0 <= q < |all.Of(k)|
    requires !gs[g].bin.Inhibited? && gs[g].kind == k && -gs[g].idOrNegOffset == q
    requires forall o :: p <= o < n && o != g ==> !(gs[o].kind == k && -gs[o].idOrNegOffset == q)
    ensures |Raised(all, gs, p, n).Of(k)| == |all.Of(k)|
    ensures Raised(all, gs, p, n).Of(k)[q] == all.Of(k)[q].(gpart := all.Of(k)[q].gpart + 1)
    decreases n
  {
    hide RaiseOne, Partners.Of, HasPartner;
    if g == n - 1 {
      RaisedOthers(all, gs, p, n - 1, k, q);
    } else {
      RaisedOnce(all, gs, p, n - 1, k, q, g);
    }
    RaiseOneAt(Raised(all, gs, p, n - 1), gs[n - 1], k, q);
  }

  ghost predicate CanInsertGpart(all: Partners, gs: seq<Gpart>, p: int, end: int) {
    && AllLinked(all, gs) && GpartsUnlinked(gs) && 0 <= p <= end < |gs| && !HasPartner(gs[end].kind)
  }

  /** Where a gpart is after the shift. */
  function NewPlace(g: int, p: int, end: int): int {
    if p <= g < end then g + 1 else g
  }

  /** Every link leads to where its gpart now is, and nothing else of a particle has changed. */
  lemma RaisedAt(all: Partners, gs: seq<Gpart>, p: int, end: int, k: Kind, q: int)
    requires CanInsertGpart(all, gs, p, end) && HasPartner(k) && 0 <= q < |all.Of(k)|
    ensures |Raised(all, gs, p, end).Of(k)| == |all.Of(k)|
    ensures var old_ := all.Of(k)[q];
      Raised(all, gs, p, end).Of(k)[q] == if old_.gpart == NULL then old_
        else old_.(gpart := NewPlace(old_.gpart, p, end))
  {
    hide Partners.Of, Raised, HasPartner;
    var g := all.Of(k)[q].gpart;
    assert Linked(all.Of(k), gs, k);
    assert forall o :: 0 <= o < |gs| && gs[o].kind == k && -gs[o].idOrNegOffset == q ==> all.Of(k)[q].gpart == o;
    if g != NULL && p <= g < end {
      assert gs[g].kind == k && gs[g].idOrNegOffset == -q;
      RaisedOnce(all, gs, p, end, k, q, g);
    } else {
      RaisedOthers(all, gs, p, end, k, q);
    }
  }

  /** Linked, except that the new gpart at `n` has not been filled in yet. */
  ghost predicate LinkedBut(ps: seq<Particle>, gs: seq<Gpart>, k: Kind, n: int) {
    ForwardBut(ps, gs, k, n) && BackBut(ps, gs, k, n)
  }

  ghost predicate ForwardBut(ps: seq<Particle>, gs: seq<Gpart>, k: Kind, n: int) {
    forall i :: 0 <= i < |ps| && ps[i].gpart != NULL ==>
      0 <= ps[i].gpart < |gs| && ps[i].gpart != n && gs[ps[i].gpart].kind == k && gs[ps[i].gpart].idOrNegOffset == -i
  }

  ghost predicate BackBut(ps: seq<Particle>, gs: seq<Gpart>, k: Kind, n: int) {
    forall g :: 0 <= g < |gs| && g != n && gs[g].kind == k ==>
      0 <= -gs[g].idOrNegOffset < |ps| && ps[-gs[g].idOrNegOffset].gpart == g
  }

  lemma InsertGpartForward(all: Partners, gs: seq<Gpart>, p: int, end: int, x: Gpart, k: Kind, i: int)
    requires CanInsertGpart(all, gs, p, end) && HasPartner(k) && 0 <= i < |Raised(all, gs, p, end).Of(k)| == |all.Of(k)|
    requires Raised(all, gs, p, end).Of(k)[i].gpart != NULL
    ensures var g, g1 := all.Of(k)[i].gpart, Raised(all, gs, p, end).Of(k)[i].gpart;
      && 0 <= g < |gs| && g1 == NewPlace(g, p, end) && g1 != p && g1 < |gs| && gs[g].kind == k
      && gs[g].idOrNegOffset == -i
      && Inserted(gs, p, end, x)[g1] == gs[g]
  {
    hide Raised, Inserted, Partners.Of, GpartsUnlinked, HasPartner;
    assert Linked(all.Of(k), gs, k);
    RaisedAt(all, gs, p, end, k, i);
    var g := all.Of(k)[i].gpart;
    assert gs[g].kind == k;
    assert g != end;
    assert Inserted(gs, p, end, x)[NewPlace(g, p, end)] == gs[g];
  }

  lemma InsertGpartBack(all: Partners, gs: seq<Gpart>, p: int, end: int, x: Gpart, k: Kind, g: int)
    requires CanInsertGpart(all, gs, p, end) && HasPartner(k) && 0 <= g < |gs| && g != p
    requires Inserted(gs, p, end, x)[g].kind == k
    ensures var i := -Inserted(gs, p, end, x)[g].idOrNegOffset;
      0 <= i < |all.Of(k)| == |Raised(all, gs, p, end).Of(k)| && Raised(all, gs, p, end).Of(k)[i].gpart == g
  {
    hide Raised, Inserted, Partners.Of, GpartsUnlinked, HasPartner;
    assert Linked(all.Of(k), gs, k);
    var g0 := if g < p || end < g then g else g - 1;
    assert Inserted(gs, p, end, x)[g] == gs[g0];
    var i := -gs[g0].idOrNegOffset;
    assert 0 <= i < |all.Of(k)| && all.Of(k)[i].gpart == g0;
    RaisedAt(all, gs, p, end, k, i);
  }

  lemma InsertGpartKeepsLinks(all: Partners, gs: seq<Gpart>, p: int, end: int, x: Gpart, k: Kind)
    requires CanInsertGpart(all, gs, p, end) && HasPartner(k)
    ensures LinkedBut(Raised(all, gs, p, end).Of(k), Inserted(gs, p, end, x), k, p)
  {
    hide Raised, Inserted, Partners.Of, GpartsUnlinked, HasPartner, ForwardBut;
    assert 0 <= p <= end < |gs|;
    var ps1, gs1 := Raised(all, gs, p, end).Of(k), Inserted(gs, p, end, x);
    RaisedSizes(all, gs, p, end, k);
    InsertGpartForwardAll(all, gs, p, end, x, k);
    forall g | 0 <= g < |gs1| && g != p && gs1[g].kind == k
      ensures 0 <= -gs1[g].idOrNegOffset < |ps1| && ps1[-gs1[g].idOrNegOffset].gpart == g
    {
      InsertGpartBack(all, gs, p, end, x, k, g);
    }
  }

  lemma InsertGpartForwardAll(all: Partners, gs: seq<Gpart>, p: int, end: int, x: Gpart, k: Kind)
    requires CanInsertGpart(all, gs, p, end) && HasPartner(k)
    ensures ForwardBut(Raised(all, gs, p, end).Of(k), Inserted(gs, p, end, x), k, p)
  {
    hide Raised, Inserted, Partners.Of, GpartsUnlinked, HasPartner;
    assert 0 <= p <= end < |gs|;
    var ps1, gs1 := Raised(all, gs, p, end).Of(k), Inserted(gs, p, end, x);
    RaisedSizes(all, gs, p, end, k);
    forall i | 0 <= i < |ps1| && ps1[i].gpart != NULL
      ensures 0 <= ps1[i].gpart < |gs1| && ps1[i].gpart != p && gs1[ps1[i].gpart].kind == k
      ensures gs1[ps1[i].gpart].idOrNegOffset == -i
    {
      InsertGpartForward(all, gs, p, end, x, k, i);
    }
  }

  lemma InsertGpartKeepsCouples(all: Partners, gs: seq<Gpart>, p: int, end: int, x: Gpart, k: Kind)
    requires CanInsertGpart(all, gs, p, end) && HasPartner(k)
    ensures Couples(Raised(all, gs, p, end).Of(k), Inserted(gs, p, end, x)) == Couples(all.Of(k), gs)
  {
    hide Raised, Inserted, Partners.Of, GpartsUnlinked;
    var ps, ps1, gs1 := all.Of(k), Raised(all, gs, p, end).Of(k), Inserted(gs, p, end, x);
    RaisedSizes(all, gs, p, end, k);
    assert Linked(ps, gs, k);
    forall i | 0 <= i < |ps| ensures CoupleOf(ps1[i], gs1) == CoupleOf(ps[i], gs) {
      RaisedAt(all, gs, p, end, k, i);
      if ps[i].gpart != NULL { InsertGpartForward(all, gs, p, end, x, k, i); }
    }
  }
}
