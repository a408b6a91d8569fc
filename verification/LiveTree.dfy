/**
 cell_add_spart, cell_add_sink, cell_add_gpart: a new particle at the front of a leaf, while the tree
 is in use.
 */
module LiveTree {
  import opened Octree
  import opened Particles
  import opened SpaceData
  import opened WindowShift
  import opened Insertion

  // ----- counting -----

  /** How many of the particles are inhibited. */
  ghost function InhibitedIn(bins: seq<TimeBin>): nat {
    if bins == [] then 0 else InhibitedIn(bins[..|bins| - 1]) + if bins[|bins| - 1].Inhibited? then 1 else 0
  }

  ghost function Bins(ps: seq<Particle>): (r: seq<TimeBin>)
    ensures |r| == |ps| && forall i :: 0 <= i < |ps| ==> r[i] == ps[i].bin
  {
    seq(|ps|, i requires 0 <= i < |ps| => ps[i].bin)
  }

  ghost function GpartBins(gs: seq<Gpart>): (r: seq<TimeBin>)
    ensures |r| == |gs| && forall i :: 0 <= i < |gs| ==> r[i] == gs[i].bin
  {
    seq(|gs|, i requires 0 <= i < |gs| => gs[i].bin)
  }

  lemma {:induction false} InhibitedSum(a: seq<TimeBin>, b: seq<TimeBin>)
    ensures InhibitedIn(a + b) == InhibitedIn(a) + InhibitedIn(b)
  {
    if b == [] {
      assert a + b == a;
    } else {
      InhibitedSum(a, b[..|b| - 1]);
      assert (a + b)[..|a + b| - 1] == a + b[..|b| - 1];
    }
  }

  lemma InhibitedAt(bins: seq<TimeBin>, i: int, b: TimeBin)
    requires 0 <= i < |bins|
    ensures InhibitedIn(bins[i := b]) == InhibitedIn(bins) - (if bins[i].Inhibited? then 1 else 0)
      + (if b.Inhibited? then 1 else 0)
  {
    assert bins == bins[..i] + [bins[i]] + bins[i + 1..];
    assert bins[i := b] == bins[..i] + [b] + bins[i + 1..];
    InhibitedSum(bins[..i] + [bins[i]], bins[i + 1..]);
    InhibitedSum(bins[..i] + [b], bins[i + 1..]);
    assert (bins[..i] + [b])[..i] == bins[..i] && (bins[..i] + [bins[i]])[..i] == bins[..i];
  }

  /** Inserting replaces the free slot at `end` by the new element, as far as counting goes. */
  lemma InhibitedInserted(bins: seq<TimeBin>, p: int, end: int, b: TimeBin)
    requires 0 <= p <= end < |bins| && bins[end].NotCreated? && !b.Inhibited?
    ensures InhibitedIn(Inserted(bins, p, end, b)) == InhibitedIn(bins)
  {
    hide *;
    var x, y, z := bins[..p], bins[p..end], bins[end + 1..];
    InhibitedParts(x, y, [bins[end]] + z);
    InhibitedParts(x, [b] + y, z);
    NoneInhibited(bins[end], z);
    NoneInhibited(b, y);
    Regrouped(bins, p, end, b);
  }

  lemma Regrouped<T>(a: seq<T>, p: int, end: int, b: T)
    requires 0 <= p <= end < |a|
    ensures a == a[..p] + a[p..end] + ([a[end]] + a[end + 1..])
    ensures Inserted(a, p, end, b) == a[..p] + ([b] + a[p..end]) + a[end + 1..]
  {
    RegroupedInserted(a, p, end, b);
    hide Inserted;
    assert [a[end]] + a[end + 1..] == a[end..];
    assert a[..p] + a[p..end] == a[..end];
    assert a[..end] + a[end..] == a;
  }

  lemma RegroupedInserted<T>(a: seq<T>, p: int, end: int, b: T)
    requires 0 <= p <= end < |a|
    ensures Inserted(a, p, end, b) == a[..p] + ([b] + a[p..end]) + a[end + 1..]
  {
    var x, y, z := a[..p], a[p..end], a[end + 1..];
    assert x + [b] + y == x + ([b] + y);
  }

  lemma InhibitedParts(x: seq<TimeBin>, y: seq<TimeBin>, z: seq<TimeBin>)
    ensures InhibitedIn(x + y + z) == InhibitedIn(x) + InhibitedIn(y) + InhibitedIn(z)
  {
    InhibitedSum(x + y, z);
    InhibitedSum(x, y);
  }

  lemma NoneInhibited(b: TimeBin, z: seq<TimeBin>)
    requires !b.Inhibited?
    ensures InhibitedIn([b] + z) == InhibitedIn(z)
  {
    InhibitedSum([b], z);
    assert [b][..0] == [];
  }

  // ----- the state the operations work on -----

  /** The arrays, the windows of the top-level cell in them, and the counters. */
  datatype State = State(all: Partners, gs: seq<Gpart>, top: Windows, extra: Counts, inhibited: Counts)

  ghost predicate FreeSlots(ps: seq<Particle>, w: Window) {
    && 0 <= w.start && w.count <= w.total && w.start + w.total <= |ps|
    && forall i :: w.start + w.count <= i < w.start + w.total ==> ps[i].bin.NotCreated? && ps[i].gpart == NULL
  }

  ghost predicate FreeGpartSlots(gs: seq<Gpart>, w: Window) {
    && 0 <= w.start && w.count <= w.total && w.start + w.total <= |gs|
    && forall i :: w.start + w.count <= i < w.start + w.total ==> gs[i].bin.NotCreated? && !HasPartner(gs[i].kind)
  }

  ghost predicate GoodArray(ps: seq<Particle>, gs: seq<Gpart>, k: Kind, inhibited: int) {
    Linked(ps, gs, k) && Unlinked(ps) && InhibitedIn(Bins(ps)) == inhibited
  }

  ghost predicate GoodGparts(gs: seq<Gpart>, inhibited: int) {
    GpartsUnlinked(gs) && InhibitedIn(GpartBins(gs)) == inhibited
  }

  /** The links hold, inhibited particles are unlinked, there are free slots at the end of the top-level
      cell, and the counters of inhibited particles are right. */
  ghost predicate Good(st: State) {
    && (forall k :: HasPartner(k) ==> GoodArray(st.all.Of(k), st.gs, k, st.inhibited.Of(SpeciesOf(k))))
    && GoodGparts(st.gs, st.inhibited.grav)
    && FreeSlots(st.all.sparts, st.top.stars) && FreeSlots(st.all.sinks, st.top.sinks)
      && FreeGpartSlots(st.gs, st.top.grav)
  }

  ghost function StateOf(s: Space, root: Cell): State
    reads s, s.parts, s.sparts, s.sinks, s.bparts, s.gparts, root`windows
  {
    State(s.All(), s.gparts[..], root.windows, s.nrExtra, s.nrInhibited)
  }

  /** The particles of one kind, with their gparts. */
  ghost function Content(st: State, k: Kind): (r: seq<Couple>)
    requires HasPartner(k)
    ensures |r| == |st.all.Of(k)|
  {
    Couples(st.all.Of(k), st.gs)
  }

  ghost predicate TopCell(root: Cell)
    reads root.subtree`parent, root.subtree`depth
  {
    root.WellFormed() && root.Rooted() && Leveled(root) && root in root.subtree && root.parent == null
  }

  // ----- a new star or sink -----

  /** Sinks are passed over when inhibited, stars are not. */
  predicate SkipsInhibited(k: Kind) {
    k == SinkKind
  }

  /** A zeroed record at the centre of the cell. */
  function FreshParticle(middle: Vec, bin: int): Particle {
    Particle(0, Bin(bin), NULL, middle, ZERO, ZERO, 0.0, 0.0, ZERO, ZERO, ZERO)
  }

  function FreshGpart(middle: Vec, bin: int): Gpart {
    Gpart(GasKind, 0, Bin(bin), middle, ZERO, 0.0)
  }

  ghost function OneMore(w: Windows, s: Species): Windows {
    var v := WindowOf(w, s);
    WithWindow(w, s, v.(count := v.count + 1))
  }

  ghost predicate HasRoom(st: State, k: Kind, p: int)
    requires HasPartner(k)
  {
    var v := WindowOf(st.top, SpeciesOf(k));
    v.start <= p <= v.start + v.count && v.count < v.total
  }

  ghost function AfterAdd(st: State, k: Kind, p: int, x: Particle): State
    requires HasPartner(k) && HasRoom(st, k, p) && FreeSlots(st.all.Of(k), WindowOf(st.top, SpeciesOf(k)))
  {
    var v := WindowOf(st.top, SpeciesOf(k));
    State(st.all.With(k, Inserted(st.all.Of(k), p, v.start + v.count, x)),
          Lowered(st.gs, st.all.Of(k), p, v.start + v.count, SkipsInhibited(k)),
          OneMore(st.top, SpeciesOf(k)), st.extra.Plus(SpeciesOf(k), -1), st.inhibited)
  }

  lemma SlotsAfter(ps: seq<Particle>, w: Window, p: int, x: Particle)
    requires FreeSlots(ps, w) && w.start <= p <= w.start + w.count && w.count < w.total
    ensures FreeSlots(Inserted(ps, p, w.start + w.count, x), w.(count := w.count + 1))
  {
    hide Inserted;
  }

  lemma ArrayAfter(ps: seq<Particle>, gs: seq<Gpart>, k: Kind, n: int, p: int, end: int, skip: bool, x: Particle)
    requires GoodArray(ps, gs, k, n) && HasPartner(k) && 0 <= p <= end < |ps| && ps[end].bin.NotCreated?
    requires ps[end].gpart == NULL
    requires x.gpart == NULL && x.bin.Bin?
    ensures CanInsert(ps, gs, k, p, end, skip)
    ensures GoodArray(Inserted(ps, p, end, x), Lowered(gs, ps, p, end, skip), k, n)
  {
    hide Inserted, Lowered, Linked;
    assert CanInsert(ps, gs, k, p, end, skip);

    InsertKeepsLinks(ps, gs, k, p, end, skip, x);
    var ps1 := Inserted(ps, p, end, x);
    InhibitedInserted(Bins(ps), p, end, x.bin);
    assert Bins(ps1) == Inserted(Bins(ps), p, end, x.bin);
    forall i | 0 <= i < |ps1| && ps1[i].bin.Inhibited? ensures ps1[i].gpart == NULL {
      assert i != p && ps1[i] == ps[if i < p || end < i then i else i - 1];
    }
  }

  lemma GpartsAfter(gs: seq<Gpart>, gs1: seq<Gpart>, n: int, w: Window)
    requires BareGparts(gs1) == BareGparts(gs) && GoodGparts(gs, n) && FreeGpartSlots(gs, w)
    ensures GoodGparts(gs1, n) && FreeGpartSlots(gs1, w)
  {
    assert |gs1| == |BareGparts(gs1)| == |gs|;
    forall g | 0 <= g < |gs| ensures gs1[g].bin == gs[g].bin && gs1[g].kind == gs[g].kind {
      assert BareGparts(gs1)[g] == BareGparts(gs)[g];
    }
    assert GpartBins(gs1) == GpartBins(gs);
  }

  lemma OthersAfter(ps: seq<Particle>, gs: seq<Gpart>, k: Kind, p: int, end: int, skip: bool, others: seq<Particle>,
        o: Kind, n: int)
    requires CanInsert(ps, gs, k, p, end, skip) && o != k && GoodArray(others, gs, o, n)
    requires 0 <= p <= end < |ps| && BareGparts(Lowered(gs, ps, p, end, skip)) == BareGparts(gs)
    ensures GoodArray(others, Lowered(gs, ps, p, end, skip), o, n)
    ensures Couples(others, Lowered(gs, ps, p, end, skip)) == Couples(others, gs)
  {
    hide Lowered, Linked, CanInsert;
    InsertKeepsOthers(ps, gs, k, p, end, skip, others, o);
    var gs1 := Lowered(gs, ps, p, end, skip);
    forall i | 0 <= i < |others| ensures CoupleOf(others[i], gs1) == CoupleOf(others[i], gs) {
      var g := others[i].gpart;
      if 0 <= g < |gs| { assert BareGparts(gs1)[g] == BareGparts(gs)[g]; }
    }
  }

  /** A new star or sink leaves everything in order, and every couple together. */
  lemma AddKeepsGood(st: State, k: Kind, p: int, x: Particle)
    requires (k == StarKind || k == SinkKind) && Good(st) && HasRoom(st, k, p)
    requires FreeSlots(st.all.Of(k), WindowOf(st.top, SpeciesOf(k)))
    requires x.gpart == NULL && x.bin.Bin?
    ensures var st1, v := AfterAdd(st, k, p, x), WindowOf(st.top, SpeciesOf(k));
      && Good(st1)
      && (forall o :: HasPartner(o) && o != k ==> Couples(st1.all.Of(o), st1.gs) == Couples(st.all.Of(o), st.gs))
      && Couples(st1.all.Of(k), st1.gs) == Inserted(Couples(st.all.Of(k), st.gs), p, v.start + v.count, Single(x))
      && BareGparts(st1.gs) == BareGparts(st.gs)
  {
    hide BareGpart, BareGparts, CanInsert, Counts.Of, Counts.Plus, CoupleOf, Couples, FreeGpartSlots, GoodArray,
      GoodGparts, Inserted, Lowered, OneMore, Partners.Of, Partners.With, SkipsInhibited, SpeciesOf, WindowOf;
    var ps, v, skip := st.all.Of(k), WindowOf(st.top, SpeciesOf(k)), SkipsInhibited(k);
    var end := v.start + v.count;
    var st1 := AfterAdd(st, k, p, x);
    assert HasPartner(k);
    assert st1.all == st.all.With(k, Inserted(ps, p, end, x)) && st1.gs == Lowered(st.gs, ps, p, end, skip)
      && st1.inhibited == st.inhibited && st1.top == OneMore(st.top, SpeciesOf(k));
    assert forall o :: HasPartner(o) ==> GoodArray(st.all.Of(o), st.gs, o, st.inhibited.Of(SpeciesOf(o)));
    assert 0 <= p <= end < |ps| && ps[end].bin.NotCreated? && ps[end].gpart == NULL;
    ArrayAfter(ps, st.gs, k, st.inhibited.Of(SpeciesOf(k)), p, end, skip, x);
    InsertKeepsCouples(ps, st.gs, k, p, end, skip, x);
    GpartsAfter(st.gs, st1.gs, st.inhibited.grav, st.top.grav);
    AddKeepsSlots(st, k, p, x);
    forall o | HasPartner(o)
      ensures GoodArray(st1.all.Of(o), st1.gs, o, st1.inhibited.Of(SpeciesOf(o)))
      ensures o != k ==> Couples(st1.all.Of(o), st1.gs) == Couples(st.all.Of(o), st.gs)
    {
      if o != k {
        OthersAfter(ps, st.gs, k, p, end, skip, st.all.Of(o), o, st.inhibited.Of(SpeciesOf(o)));
      }
    }
  }

  lemma AddKeepsSlots(st: State, k: Kind, p: int, x: Particle)
    requires (k == StarKind || k == SinkKind) && Good(st) && HasRoom(st, k, p)
    requires FreeSlots(st.all.Of(k), WindowOf(st.top, SpeciesOf(k)))
    ensures var st1 := AfterAdd(st, k, p, x);
      FreeSlots(st1.all.sparts, st1.top.stars) && FreeSlots(st1.all.sinks, st1.top.sinks) && st1.top.grav == st.top.grav
  {
    hide GoodArray, GoodGparts, Inserted, Lowered, FreeSlots, FreeGpartSlots;
    SlotsAfter(st.all.Of(k), WindowOf(st.top, SpeciesOf(k)), p, x);
  }

  /** What a request for a new particle comes to.  `Aborted` is a call of error() or the dereference of a
      null pointer: the run ends there, and nothing is said about its memory. */
  datatype Slot = At(index: int) | NoRoom | Aborted

  /** The gparts of all particles from `p` to `end` can be told. */
  ghost predicate AllTold(ps: seq<Particle>, p: int, end: int, skip: bool)
    requires 0 <= p <= end <= |ps|
  {
    forall i :: p <= i < end ==> Skipped(ps[i], skip) || ps[i].gpart != NULL
  }

  /** memmove: everything from `p` to `end` moves up by one place. */
  method MoveUp<T>(a: array<T>, p: nat, end: nat)
    requires p <= end < a.Length
    modifies a
    ensures a[..] == Inserted(old(a[..]), p, end, old(a[p]))
    ensures a[p] == old(a[p])
  {
    forall i | p <= i < end {
      a[i + 1] := a[i];
    }
    hide Inserted;
    assert forall i {:trigger a[i]} :: 0 <= i < a.Length ==>
      a[i] == if i <= p || end < i then old(a[i]) else old(a[i - 1]);
  }

  /** The link of one moved particle. */
  method TellGpart(gs: array<Gpart>, q: Particle, skip: bool) returns (told: bool)
    requires q.gpart != NULL ==> 0 <= q.gpart < gs.Length
    modifies gs
    ensures told <==> Skipped(q, skip) || q.gpart != NULL
    ensures told ==> gs[..] == LowerOne(old(gs[..]), q, skip)
  {
    if Skipped(q, skip) {
      return true;
    }
    if q.gpart == NULL {
      return false;
    }
    gs[q.gpart] := gs[q.gpart].(idOrNegOffset := gs[q.gpart].idOrNegOffset - 1);
    return true;
  }

  /** The loop that updates the links of the particles that have moved. */
  method TellGparts(ps: array<Particle>, gs: array<Gpart>, p: nat, end: nat, k: Kind, skip: bool,
        ghost ps0: seq<Particle>) returns (told: bool)
    requires p <= end < ps.Length == |ps0| && PointsToGpart(ps0, gs[..], k)
    requires forall i :: p <= i < end ==> ps[i + 1] == ps0[i]
    modifies gs
    ensures told <==> AllTold(ps0, p, end, skip)
    ensures told ==> gs[..] == Lowered(old(gs[..]), ps0, p, end, skip)
    ensures ps[..] == old(ps[..])
  {
    hide LowerOne, Lowered, PointsToGpart, Skipped;
    ghost var gs0 := gs[..];
    LoweredStep(gs0, ps0, p, p, skip);
    for i := p to end
      invariant gs[..] == Lowered(gs0, ps0, p, i, skip)
      invariant AllTold(ps0, p, i, skip)
    {
      LoweredStep(gs0, ps0, p, i, skip);
      assert ps[i + 1] == ps0[i];
      if ps0[i].gpart != NULL { LinkOf(ps0, gs0, k, i); }
      told := TellGpart(gs, ps[i + 1], skip);
      if !told {
        assert !AllTold(ps0, p, end, skip);
        return false;
      }
      assert AllTold(ps0, p, i + 1, skip);
    }
    return true;
  }

  lemma LoweredStep(gs: seq<Gpart>, ps: seq<Particle>, p: nat, n: nat, skip: bool)
    requires p <= n <= |ps|
    ensures Lowered(gs, ps, p, p, skip) == gs && AllTold(ps, p, p, skip)
    ensures n < |ps| ==> Lowered(gs, ps, p, n + 1, skip) == LowerOne(Lowered(gs, ps, p, n, skip), ps[n], skip)
  {
  }

  /** The shift has run its course. */
  lemma ShiftDone(root: Cell, sp: Species, leaf: Cell, before: Snapshot, sorted: map<Cell, bool>)
    requires root.WellFormed() && AllShifted(root.subtree, sp, root, true, leaf, before, sorted)
    ensures Shifted(root, sp, true, leaf, before, Now(root))
    ensures forall d :: d in root.subtree ==>
      d in sorted && d.starsSorted == (sorted[d] && !(sp == Stars && leaf in d.subtree))
  {
    hide Cell.WellFormed, Moved, MoveOf;
    assert forall d :: d in root.subtree ==> ShiftedNow(d, sp, root, true, leaf, before, sorted);
  }

  /** How full the top-level cell is, and whether the links can be updated. */
  ghost predicate Full(st: State, k: Kind)
    requires HasPartner(k)
  {
    WindowOf(st.top, SpeciesOf(k)).count == WindowOf(st.top, SpeciesOf(k)).total
  }

  ghost predicate Tellable(st: State, k: Kind, p: int)
    requires HasPartner(k)
  {
    var v := WindowOf(st.top, SpeciesOf(k));
    && 0 <= p <= v.start + v.count <= |st.all.Of(k)|
    && AllTold(st.all.Of(k), p, v.start + v.count, SkipsInhibited(k))
  }

  ghost function SortedOf(root: Cell): map<Cell, bool>
    reads root.subtree`starsSorted
  {
    map d | d in root.subtree :: d.starsSorted
  }

  lemma Entry(s: Space, root: Cell, c: Cell, k: Kind)
    requires (k == StarKind || k == SinkKind) && TopCell(root) && c in root.subtree && root.Tiled(SpeciesOf(k))
    requires Good(StateOf(s, root))
    ensures var v := root.Win(SpeciesOf(k));
      && 0 <= v.start <= c.Win(SpeciesOf(k)).start <= v.start + v.count <= v.start + v.total <= s.Array(k).Length
      && v.count <= v.total
    ensures s.Array(k)[..] == s.All().Of(k) && FreeSlots(s.All().Of(k), WindowOf(root.windows, SpeciesOf(k)))
    ensures Linked(s.Array(k)[..], s.gparts[..], k)
  {
    hide Cell.WellFormed, Cell.Tiled;
    WindowInside(root, SpeciesOf(k), c);
    assert GoodArray(s.All().Of(k), s.gparts[..], k, s.nrInhibited.Of(SpeciesOf(k)));
  }

  lemma StatePieces(s: Space, root: Cell, k: Kind)
    requires HasPartner(k)
    ensures StateOf(s, root).all.Of(k) == s.Array(k)[..] && StateOf(s, root).gs == s.gparts[..]
    ensures StateOf(s, root).top == root.windows && WindowOf(root.windows, SpeciesOf(k)) == root.Win(SpeciesOf(k))
  {
  }

  /** The leaf begins where it began; the top-level cell has one more. */
  lemma ShiftedEnds(root: Cell, sp: Species, c: Cell, before: Snapshot)
    requires root.WellFormed() && root in root.subtree && c in root.subtree
    requires Shifted(root, sp, true, c, before, Now(root))
    ensures root in before && c in before && root.windows == OneMore(before[root], sp)
    ensures c.windows == OneMore(before[c], sp)
  {
    hide Cell.WellFormed, Later;
    SubtreeNested(root, c);
    assert MoveOf(root, true, c, c) == Grow && MoveOf(root, true, c, root) == Grow;
    assert Now(root)[c] == c.windows && Now(root)[root] == root.windows;
  }

  /** What the array and the gparts are after the move is the state after the insertion. */
  lemma AddedState(s: Space, root: Cell, k: Kind, st: State, p: int, x: Particle)
    requires HasPartner(k) && HasRoom(st, k, p) && FreeSlots(st.all.Of(k), WindowOf(st.top, SpeciesOf(k)))
    requires s.Apart() && s.All() == st.all.With(k, s.Array(k)[..])
    requires var v := WindowOf(st.top, SpeciesOf(k));
      && s.Array(k)[..] == Inserted(st.all.Of(k), p, v.start + v.count, x)
      && s.gparts[..] == Lowered(st.gs, st.all.Of(k), p, v.start + v.count, SkipsInhibited(k))
    requires root.windows == OneMore(st.top, SpeciesOf(k)) && s.nrExtra == st.extra.Plus(SpeciesOf(k), -1)
    requires s.nrInhibited == st.inhibited
    ensures StateOf(s, root) == AfterAdd(st, k, p, x)
  {
    hide Inserted, Lowered, OneMore, Partners.With;
  }

  lemma InsertedTwice<T>(a: seq<T>, p: int, end: int, x: T, y: T)
    requires 0 <= p <= end < |a|
    ensures Inserted(a, p, end, x)[p := y] == Inserted(a, p, end, y)
  {
  }

  /** The array of kind `k`, moved up, and the links. */
  method MoveAndTell(s: Space, k: Kind, p: nat, end: nat) returns (told: bool)
    requires HasPartner(k) && s.Apart() && p <= end < s.Array(k).Length
    requires PointsToGpart(s.Array(k)[..], s.gparts[..], k)
    modifies s.Array(k), s.gparts
    ensures told <==> AllTold(old(s.Array(k)[..]), p, end, SkipsInhibited(k))
    ensures told ==> s.Array(k)[..] == Inserted(old(s.Array(k)[..]), p, end, old(s.Array(k)[p]))
    ensures told ==> s.gparts[..] == Lowered(old(s.gparts[..]), old(s.Array(k)[..]), p, end, SkipsInhibited(k))
    ensures s.All() == old(s.All()).With(k, s.Array(k)[..])
  {
    hide Inserted, Lowered, AllTold, PointsToGpart;
    var ps := s.Array(k);
    ghost var ps0 := ps[..];
    assert ps0[p] == ps[p];
    MoveUp(ps, p, end);
    ghost var ps1 := ps[..];
    assert forall i :: p <= i < end ==> ps[i + 1] == ps0[i] by {
      MovedUp(ps0, p, end, ps0[p]); assert forall i :: p <= i < end ==> ps1[i + 1] == ps0[i];
    }
    told := TellGparts(ps, s.gparts, p, end, k, SkipsInhibited(k), ps0);
  }

  method Put(s: Space, k: Kind, p: nat, x: Particle)
    requires HasPartner(k) && s.Apart() && p < s.Array(k).Length
    modifies s.Array(k)
    ensures s.Array(k)[..] == old(s.Array(k)[..])[p := x]
    ensures s.All() == old(s.All()).With(k, s.Array(k)[..])
  {
    var ps := s.Array(k);
    ps[p] := x;
  }

  lemma WithTwice(all: Partners, k: Kind, a: seq<Particle>, b: seq<Particle>)
    requires HasPartner(k)
    ensures all.With(k, a).With(k, b) == all.With(k, b)
  {
  }

  /** The windows make room in front of the leaf `c`. */
  method ShiftTree(top: Cell, sp: Species, c: Cell, progeny: map<int, int>)
    requires TopCell(top) && c in top.subtree && !c.split && PathTo(top, c, progeny)
    modifies top.subtree`windows, top.subtree`starsSorted
    ensures Shifted(top, sp, true, c, old(Now(top)), Now(top))
    ensures top.windows == OneMore(old(top.windows), sp) && c.Win(sp).start == old(c.Win(sp).start)
    ensures forall d :: d in top.subtree ==> d.starsSorted == (old(d.starsSorted) && !(sp == Stars && c in d.subtree))
  {
    hide AllShifted, Cell.Rooted, Cell.WellFormed, Leveled, PathTo, Shifted;
    ghost var before, sorted := Now(top), SortedOf(top);
    assert top.WellFormed() && Leveled(top) && top in top.subtree;
    assert NotYet(top.subtree, before, sorted);
    assert before[top] == top.windows && before[c] == c.windows && forall d :: d in top.subtree ==> sorted[d] == d.starsSorted;
    Shift(top, sp, progeny, true, c, before, sorted);
    ShiftDone(top, sp, c, before, sorted);
    ShiftedEnds(top, sp, c, before);
    assert c.Win(sp).start == old(c.Win(sp).start);
  }

  /** There is room, and what the loop over the links will find. */
  lemma RoomFound(s: Space, top: Cell, c: Cell, k: Kind)
    requires (k == StarKind || k == SinkKind) && HasPartner(k) && TopCell(top) && c in top.subtree
    requires top.Tiled(SpeciesOf(k)) && Good(StateOf(s, top)) && !Full(StateOf(s, top), k)
    ensures top.WellFormed() && Leveled(top) && top in top.subtree && (SpeciesOf(k) == Stars <==> k == StarKind)
    ensures var st, p, end := StateOf(s, top), c.Win(SpeciesOf(k)).start, top.Win(SpeciesOf(k)).start + top.Win(SpeciesOf(k)).count;
      && st == State(s.All(), s.gparts[..], top.windows, s.nrExtra, s.nrInhibited) && st.all.Of(k) == s.Array(k)[..]
      && end == WindowOf(st.top, SpeciesOf(k)).start + WindowOf(st.top, SpeciesOf(k)).count
      && HasRoom(st, k, p) && 0 <= p <= end < s.Array(k).Length
        && FreeSlots(st.all.Of(k), WindowOf(st.top, SpeciesOf(k)))
      && PointsToGpart(s.Array(k)[..], s.gparts[..], k)
      && (Tellable(st, k, p) <==> AllTold(s.Array(k)[..], p, end, SkipsInhibited(k)))
  {
    hide AllTold, Cell.Rooted, Cell.Tiled, Cell.WellFormed, Good, Leveled, PointsToGpart, PointsToParticle,
      SkipsInhibited;
    Entry(s, top, c, k);
    StatePieces(s, top, k);
  }

  /** The insertion itself, once it is clear that there is room. */
  method InsertParticle(s: Space, top: Cell, c: Cell, progeny: map<int, int>, k: Kind, middle: Vec, minActiveBin: int)
    returns (told: bool)
    requires k == StarKind || k == SinkKind
    requires HasPartner(k) && s.Apart() && TopCell(top) && c in top.subtree && top.Tiled(SpeciesOf(k))
    requires Good(StateOf(s, top))
    requires !c.split && PathTo(top, c, progeny) && !Full(StateOf(s, top), k)
    modifies s`nrExtra, s.Array(k), s.gparts, top.subtree`windows, top.subtree`starsSorted
    ensures told <==> Tellable(old(StateOf(s, top)), k, old(c.Win(SpeciesOf(k)).start))
    ensures told ==> HasRoom(old(StateOf(s, top)), k, old(c.Win(SpeciesOf(k)).start)) && FreeSlots(old(s.All()).Of(k),
      old(WindowOf(top.windows, SpeciesOf(k))))
    ensures told ==> StateOf(s, top) == AfterAdd(old(StateOf(s, top)), k, old(c.Win(SpeciesOf(k)).start), FreshParticle(middle, minActiveBin))
    ensures told ==> Shifted(top, SpeciesOf(k), true, c, old(Now(top)), Now(top))
    ensures told ==> forall d :: d in top.subtree ==>
      d.starsSorted == (old(d.starsSorted) && !(k == StarKind && c in d.subtree))
  {
    hide AfterAdd, AllTold, Cell.Rooted, Cell.Tiled, Cell.WellFormed, Cell.Win, Counts.Of, Counts.Plus, FreeSlots,
      FreshParticle, Full, Good, HasRoom, Tellable, HasPartner, Inserted, Leveled, Lowered, Now, OneMore, Partners.Of,
      Partners.With, PathTo, PointsToGpart, PointsToParticle, Shifted, SkipsInhibited, Space.All, Space.Apart,
      Space.Array, WindowOf;
    var sp, p := SpeciesOf(k), c.Win(SpeciesOf(k)).start;
    var end := top.Win(sp).start + top.Win(sp).count;
    ghost var st, ps0 := StateOf(s, top), s.Array(k)[..];
    RoomFound(s, top, c, k);
    assert ps0[p] == s.Array(k)[p];

    told := MoveAndTell(s, k, p, end);
    ghost var moved := s.Array(k)[..];
    if !told { return; }

    ShiftTree(top, sp, c, progeny);
    Put(s, k, c.Win(sp).start, FreshParticle(middle, minActiveBin));
    InsertedTwice(ps0, p, end, ps0[p], FreshParticle(middle, minActiveBin));
    s.nrExtra := s.nrExtra.Plus(sp, -1);
    WithTwice(st.all, k, moved, s.Array(k)[..]);
    AddedState(s, top, k, st, p, FreshParticle(middle, minActiveBin));
  }

  lemma MovedUp<T>(a: seq<T>, p: int, end: int, x: T)
    requires 0 <= p <= end < |a|
    ensures forall i :: p <= i < end ==> Inserted(a, p, end, x)[i + 1] == a[i]
  {
  }

  /** How a request for a star or a sink at `p` must end. */
  ghost function Fate(st: State, k: Kind, refused: bool, p: int): Slot
    requires HasPartner(k)
  {
    if refused then Aborted
    else if Full(st, k) then if k == SinkKind then Aborted else NoRoom
    else if Tellable(st, k, p) then At(p) else Aborted
  }

  /** A request succeeds on a local, drifted leaf with a free slot at the top if every particle to be moved has a gpart;
      a sink may also be inhibited.  Stars find out that there is no room, sinks abort. */
  lemma FateMeans(st: State, k: Kind, refused: bool, p: int)
    requires (k == StarKind || k == SinkKind) && HasPartner(k)
    requires var v := WindowOf(st.top, SpeciesOf(k)); 0 <= p <= v.start + v.count <= |st.all.Of(k)|
    ensures var v, ps := WindowOf(st.top, SpeciesOf(k)), st.all.Of(k);
      Fate(st, k, refused, p) == At(p) <==>
        && !refused && v.count != v.total
        && forall i :: p <= i < v.start + v.count ==> ps[i].gpart != NULL || (k == SinkKind && ps[i].bin.Inhibited?)
    ensures var v := WindowOf(st.top, SpeciesOf(k));
      Fate(st, k, refused, p) == NoRoom <==> !refused && v.count == v.total && k == StarKind
    ensures Fate(st, k, refused, p) in [At(p), NoRoom, Aborted]
  {
    hide Partners.Of, SpeciesOf, WindowOf;
  }

  /** cell_add_spart and cell_add_sink. */
  method AddParticle(s: Space, c: Cell, k: Kind, middle: Vec, minActiveBin: int, now: int, ghost root: Cell)
    returns (r: Slot)
    requires k == StarKind || k == SinkKind
    requires HasPartner(k) && s.Apart() && TopCell(root) && c in root.subtree && root.Tiled(SpeciesOf(k))
    requires Good(StateOf(s, root))
    modifies s`nrExtra, s`forceRebuild, s.Array(k), s.gparts, root.subtree`windows, root.subtree`starsSorted
    modifies root.subtree`tiOld
    ensures r == Fate(old(StateOf(s, root)), k, old(c.Refuses(SpeciesOf(k), now)), old(c.Win(SpeciesOf(k)).start))
    ensures !r.Aborted? ==> !c.foreign && !c.split && old(c.tiOld.Of(SpeciesOf(k))) == now
    ensures r.NoRoom? ==> k == StarKind
    ensures r.NoRoom? ==> StateOf(s, root) == old(StateOf(s, root)) && Now(root) == old(Now(root))
    ensures r.NoRoom? ==> s.forceRebuild == old(s.forceRebuild) + 1
    ensures r.At? ==> s.forceRebuild == old(s.forceRebuild)
    ensures r.At? ==> HasRoom(old(StateOf(s, root)), k, r.index) && FreeSlots(old(s.All()).Of(k),
      old(WindowOf(root.windows, SpeciesOf(k))))
    ensures r.At? ==>
      StateOf(s, root) == AfterAdd(old(StateOf(s, root)), k, r.index, FreshParticle(middle, minActiveBin))
    ensures r.At? ==> Shifted(root, SpeciesOf(k), true, c, old(Now(root)), Now(root))
    ensures r.At? ==> forall d :: d in root.subtree ==>
      d.starsSorted == (old(d.starsSorted) && !(k == StarKind && c in d.subtree))
    ensures r.At? ==> TimesSet(root, c, SpeciesOf(k), now, old(TimesOf(root)), root.subtree)
    ensures r.NoRoom? ==> TimesOf(root) == old(TimesOf(root))
  {
    hide AfterAdd, Cell.Rooted, Cell.Tiled, Cell.WellFormed, Cell.Win, Counts.Of, FreeSlots, FreshParticle, Good,
      HasPartner, HasRoom, Leveled, Now, Partners.Of, PathTo, Shifted, Space.All, Space.Apart, Space.Array, SpeciesOf,
      Tellable, TimesOf, TimesSet, WindowOf;
    if c.foreign || c.tiOld.Of(SpeciesOf(k)) != now || c.split {
      assert Fate(StateOf(s, root), k, c.Refuses(SpeciesOf(k), now), c.Win(SpeciesOf(k)).start) == Aborted;
      return Aborted;
    }
    ghost var st := StateOf(s, root);
    StatePieces(s, root, k);
    assert root.WellFormed() && root.Rooted() && Leveled(root) && root in root.subtree && root.parent == null;
    var top, progeny := Climb(c, root);
    if top.Win(SpeciesOf(k)).count == top.Win(SpeciesOf(k)).total {
      assert Full(st, k);
      assert Fate(st, k, c.Refuses(SpeciesOf(k), now), c.Win(SpeciesOf(k)).start) ==
        if k == SinkKind then Aborted else NoRoom;
      if k == SinkKind {
        return Aborted;
      }
      s.forceRebuild := s.forceRebuild + 1;
      assert StateOf(s, root) == st;
      return NoRoom;
    }
    assert !Full(st, k);
    var p := c.Win(SpeciesOf(k)).start;
    assert Fate(st, k, c.Refuses(SpeciesOf(k), now), p) == if Tellable(st, k, p) then At(p) else Aborted;
    var told := InsertParticle(s, top, c, progeny, k, middle, minActiveBin);
    if !told { return Aborted; }
    SetTimes(c, SpeciesOf(k), now, root);
    return At(p);
  }

  // ----- a new gpart -----

  /** As `Good`, while the new gpart at `n` still holds zeros only. */
  ghost predicate GoodBut(st: State, n: int) {
    && (forall k :: HasPartner(k) ==> GoodArrayBut(st.all.Of(k), st.gs, k, st.inhibited.Of(SpeciesOf(k)), n))
    && GoodGparts(st.gs, st.inhibited.grav)
    && FreeSlots(st.all.sparts, st.top.stars) && FreeSlots(st.all.sinks, st.top.sinks)
      && FreeGpartSlots(st.gs, st.top.grav)
  }

  ghost predicate GoodArrayBut(ps: seq<Particle>, gs: seq<Gpart>, k: Kind, inhibited: int, n: int) {
    LinkedBut(ps, gs, k, n) && Unlinked(ps) && InhibitedIn(Bins(ps)) == inhibited
  }

  ghost predicate HasGpartRoom(st: State, p: int) {
    var v := st.top.grav;
    && FreeGpartSlots(st.gs, v) && v.start <= p <= v.start + v.count && v.count < v.total
  }

  ghost function AfterAddGpart(st: State, p: int, x: Gpart): State
    requires HasGpartRoom(st, p)
  {
    var v := st.top.grav;
    State(Raised(st.all, st.gs, p, v.start + v.count), Inserted(st.gs, p, v.start + v.count, x),
          OneMore(st.top, Grav), st.extra.Plus(Grav, -1), st.inhibited)
  }

  lemma RaisedArray(all: Partners, gs: seq<Gpart>, p: int, end: int, x: Gpart, k: Kind, n: int, w: Window)
    requires CanInsertGpart(all, gs, p, end) && HasPartner(k) && GoodArray(all.Of(k), gs, k, n)
    ensures GoodArrayBut(Raised(all, gs, p, end).Of(k), Inserted(gs, p, end, x), k, n, p)
    ensures FreeSlots(all.Of(k), w) ==> FreeSlots(Raised(all, gs, p, end).Of(k), w)
  {
    hide AllLinked, Bins, Counts.Of, GpartsUnlinked, HasPartner, InhibitedIn, Inserted, Linked, LinkedBut, NewPlace,
      Partners.Of, Raised;
    assert 0 <= p <= end < |gs|;
    InsertGpartKeepsLinks(all, gs, p, end, x, k);
    RaisedSizes(all, gs, p, end, k);
    var ps, ps1 := all.Of(k), Raised(all, gs, p, end).Of(k);
    forall i | 0 <= i < |ps| ensures ps1[i].bin == ps[i].bin && (ps[i].gpart == NULL ==> ps1[i].gpart == NULL) {
      RaisedAt(all, gs, p, end, k, i);
    }
    assert Bins(ps1) == Bins(ps);
    assert Unlinked(ps1);
    assert FreeSlots(ps, w) ==> FreeSlots(ps1, w);
  }

  lemma GpartSlotsAfter(gs: seq<Gpart>, w: Window, p: int, x: Gpart, n: int)
    requires FreeGpartSlots(gs, w) && w.start <= p <= w.start + w.count && w.count < w.total && GoodGparts(gs, n)
    requires x.bin.Bin?
    ensures FreeGpartSlots(Inserted(gs, p, w.start + w.count, x), w.(count := w.count + 1))
    ensures GoodGparts(Inserted(gs, p, w.start + w.count, x), n)
  {
    hide Inserted, InhibitedIn;
    var end := w.start + w.count;
    var gs1 := Inserted(gs, p, end, x);
    assert GpartBins(gs1) == Inserted(GpartBins(gs), p, end, x.bin);
    InhibitedInserted(GpartBins(gs), p, end, x.bin);
    forall g | 0 <= g < |gs1| && gs1[g].bin.Inhibited? ensures !HasPartner(gs1[g].kind) {
      assert g != p && gs1[g] == gs[if g < p || end < g then g else g - 1];
    }
  }

  /** A new gpart leaves everything in order but itself, and every couple together. */
  lemma AddGpartKeepsGood(st: State, p: int, x: Gpart)
    requires Good(st) && HasGpartRoom(st, p) && x.bin.Bin?
    ensures GoodBut(AfterAddGpart(st, p, x), p)
    ensures forall k :: HasPartner(k) ==>
      Couples(AfterAddGpart(st, p, x).all.Of(k), AfterAddGpart(st, p, x).gs) == Couples(st.all.Of(k), st.gs)
  {
    hide CanInsertGpart, Counts.Of, Counts.Plus, CoupleOf, Couples, FreeSlots, GoodArray, GoodArrayBut, GoodGparts,
      HasPartner, Inserted, Partners.Of, Raised, SpeciesOf;
    var v := st.top.grav;
    var end := v.start + v.count;
    var st1 := AfterAddGpart(st, p, x);
    assert 0 <= p <= end < |st.gs|;
    assert st1.all == Raised(st.all, st.gs, p, end) && st1.gs == Inserted(st.gs, p, end, x)
      && st1.top == OneMore(st.top, Grav)
      && st1.inhibited == st.inhibited;
    assert st1.top.stars == st.top.stars && st1.top.sinks == st.top.sinks && st1.top.grav == v.(count := v.count + 1);
    CanAddGpart(st, p);
    GpartSlotsAfter(st.gs, v, p, x, st.inhibited.grav);
    forall k | HasPartner(k)
      ensures GoodArrayBut(st1.all.Of(k), st1.gs, k, st1.inhibited.Of(SpeciesOf(k)), p)
      ensures Couples(st1.all.Of(k), st1.gs) == Couples(st.all.Of(k), st.gs)
    {
      assert GoodArray(st.all.Of(k), st.gs, k, st.inhibited.Of(SpeciesOf(k)));
      RaisedArray(st.all, st.gs, p, end, x, k, st.inhibited.Of(SpeciesOf(k)), v);
      InsertGpartKeepsCouples(st.all, st.gs, p, end, x, k);
    }
    RaisedFree(st, p, end, x);
  }

  lemma CanAddGpart(st: State, p: int)
    requires Good(st) && HasGpartRoom(st, p)
    ensures CanInsertGpart(st.all, st.gs, p, st.top.grav.start + st.top.grav.count)
  {
    hide Linked, FreeSlots, Unlinked, Partners.Of, InhibitedIn, HasPartner;
    assert forall k :: HasPartner(k) ==> GoodArray(st.all.Of(k), st.gs, k, st.inhibited.Of(SpeciesOf(k)));
  }

  lemma RaisedFree(st: State, p: int, end: int, x: Gpart)
    requires Good(st) && CanInsertGpart(st.all, st.gs, p, end)
    ensures FreeSlots(Raised(st.all, st.gs, p, end).sparts, st.top.stars)
    ensures FreeSlots(Raised(st.all, st.gs, p, end).sinks, st.top.sinks)
  {
    hide AllLinked, Counts.Of, FreeGpartSlots, FreeSlots, GoodArray, GoodArrayBut, GoodGparts, GpartsUnlinked, Inserted,
      Raised, SpeciesOf;
    assert HasPartner(StarKind) && HasPartner(SinkKind);
    assert 0 <= p <= end < |st.gs|;
    assert st.all.Of(StarKind) == st.all.sparts && st.all.Of(SinkKind) == st.all.sinks;
    var all1 := Raised(st.all, st.gs, p, end);
    assert all1.Of(StarKind) == all1.sparts && all1.Of(SinkKind) == all1.sinks;
    assert FreeSlots(st.all.sparts, st.top.stars) && FreeSlots(st.all.sinks, st.top.sinks)
      && GoodArray(st.all.Of(StarKind), st.gs, StarKind, st.inhibited.Of(SpeciesOf(StarKind)))
      && GoodArray(st.all.Of(SinkKind), st.gs, SinkKind, st.inhibited.Of(SpeciesOf(SinkKind)));
    RaisedArray(st.all, st.gs, p, end, x, StarKind, st.inhibited.Of(SpeciesOf(StarKind)), st.top.stars);
    RaisedArray(st.all, st.gs, p, end, x, SinkKind, st.inhibited.Of(SpeciesOf(SinkKind)), st.top.sinks);
  }

  /** The link of one moved gpart. */
  method TellPartner(s: Space, g: Gpart)
    requires s.Apart()
    requires !g.bin.Inhibited? && HasPartner(g.kind) ==> 0 <= -g.idOrNegOffset < s.Array(g.kind).Length
    modifies s.parts, s.sparts, s.sinks, s.bparts
    ensures s.All() == RaiseOne(old(s.All()), g)
  {
    if g.bin.Inhibited? { return; }
    var q := -g.idOrNegOffset;
    if g.kind == GasKind {
      s.parts[q] := s.parts[q].(gpart := s.parts[q].gpart + 1);
    } else if g.kind == StarKind {
      s.sparts[q] := s.sparts[q].(gpart := s.sparts[q].gpart + 1);
    } else if g.kind == SinkKind {
      s.sinks[q] := s.sinks[q].(gpart := s.sinks[q].gpart + 1);
    } else if g.kind == BlackHoleKind {
      s.bparts[q] := s.bparts[q].(gpart := s.bparts[q].gpart + 1);
    }
  }

  lemma RaisedStep(all: Partners, gs: seq<Gpart>, p: nat, n: nat)
    requires p <= n <= |gs|
    ensures Raised(all, gs, p, p) == all
    ensures n < |gs| ==> Raised(all, gs, p, n + 1) == RaiseOne(Raised(all, gs, p, n), gs[n])
  {
  }

  lemma PartnerThere(s: Space, all0: Partners, gs0: seq<Gpart>, p: nat, n: nat)
    requires p <= n < |gs0| && AllLinked(all0, gs0) && s.All() == Raised(all0, gs0, p, n)
    ensures HasPartner(gs0[n].kind) ==> 0 <= -gs0[n].idOrNegOffset < s.Array(gs0[n].kind).Length
  {
    hide Raised;
    var k := gs0[n].kind;
    if HasPartner(k) {
      RaisedSizes(all0, gs0, p, n, k);
      assert Linked(all0.Of(k), gs0, k);
      LinkBackOf(all0.Of(k), gs0, k, n);
      assert s.All().Of(k) == s.Array(k)[..];
    }
  }

  /** The loop that updates the links of the gparts that have moved. */
  method TellPartners(s: Space, p: nat, end: nat, ghost gs0: seq<Gpart>)
    requires s.Apart() && p <= end < s.gparts.Length == |gs0| && AllLinked(s.All(), gs0)
    requires forall i :: p <= i < end ==> s.gparts[i + 1] == gs0[i]
    modifies s.parts, s.sparts, s.sinks, s.bparts
    ensures s.All() == Raised(old(s.All()), gs0, p, end)
  {
    hide *;
    ghost var all0 := s.All();
    RaisedStep(all0, gs0, p, p);
    for i := p to end
      invariant s.All() == Raised(all0, gs0, p, i)
    {
      RaisedStep(all0, gs0, p, i);
      PartnerThere(s, all0, gs0, p, i);
      assert s.gparts[i + 1] == gs0[i];
      TellPartner(s, s.gparts[i + 1]);
    }
  }

  method PutGpart(s: Space, p: nat, x: Gpart)
    requires p < s.gparts.Length
    modifies s.gparts
    ensures s.gparts[..] == old(s.gparts[..])[p := x]
  {
    s.gparts[p] := x;
  }

  lemma GpartEntry(s: Space, root: Cell, c: Cell)
    requires TopCell(root) && c in root.subtree && root.Tiled(Grav) && Good(StateOf(s, root))
    ensures var v := root.Win(Grav);
      && 0 <= v.start <= c.Win(Grav).start <= v.start + v.count <= v.start + v.total <= s.gparts.Length
        && v.count <= v.total
      && v == root.windows.grav
    ensures AllLinked(s.All(), s.gparts[..]) && FreeGpartSlots(s.gparts[..], root.windows.grav)
  {
    hide Cell.WellFormed, Cell.Tiled, Linked, FreeSlots, Unlinked, Partners.Of, InhibitedIn, HasPartner;
    WindowInside(root, Grav, c);
    assert forall k :: HasPartner(k) ==> GoodArray(s.All().Of(k), s.gparts[..], k, s.nrInhibited.Of(SpeciesOf(k)));
  }

  /** The array of gparts, moved up, and the links. */
  method MoveAndTellPartners(s: Space, p: nat, end: nat)
    requires s.Apart() && p <= end < s.gparts.Length && AllLinked(s.All(), s.gparts[..])
    modifies s.parts, s.sparts, s.sinks, s.bparts, s.gparts
    ensures s.gparts[..] == Inserted(old(s.gparts[..]), p, end, old(s.gparts[p]))
    ensures s.All() == Raised(old(s.All()), old(s.gparts[..]), p, end)
  {
    hide AllLinked, Inserted, Raised, Space.All, Space.Apart;
    ghost var gs0 := s.gparts[..];
    assert gs0[p] == s.gparts[p];
    MoveUp(s.gparts, p, end);
    ghost var gs1 := s.gparts[..];
    assert forall i :: p <= i < end ==> s.gparts[i + 1] == gs0[i] by {
      MovedUp(gs0, p, end, gs0[p]);
      assert forall i :: p <= i < end ==> gs1[i + 1] == gs0[i];
    }
    TellPartners(s, p, end, gs0);
    assert s.gparts[..] == gs1;
  }

  /** The insertion itself, once it is clear that there is room. */
  method InsertGpart(s: Space, top: Cell, c: Cell, progeny: map<int, int>, middle: Vec, minActiveBin: int)
    requires s.Apart() && TopCell(top) && c in top.subtree && top.Tiled(Grav) && Good(StateOf(s, top))
    requires !c.split && PathTo(top, c, progeny) && top.windows.grav.count != top.windows.grav.total
    modifies s`nrExtra, s.parts, s.sparts, s.sinks, s.bparts, s.gparts, top.subtree`windows, top.subtree`starsSorted
    ensures HasGpartRoom(old(StateOf(s, top)), old(c.Win(Grav).start))
    ensures StateOf(s, top) ==
      AfterAddGpart(old(StateOf(s, top)), old(c.Win(Grav).start), FreshGpart(middle, minActiveBin))
    ensures Shifted(top, Grav, true, c, old(Now(top)), Now(top))
    ensures forall d :: d in top.subtree ==> d.starsSorted == old(d.starsSorted)
  {
    hide AllLinked, Cell.Tiled, Cell.WellFormed, Cell.Win, Counts.Of, Counts.Plus, FreeGpartSlots, FreshGpart, Good,
      HasPartner, Inserted, Now, OneMore, Partners.Of, PathTo, Raised, Shifted, Space.All, Space.Apart, TopCell;
    ghost var st, gs0 := StateOf(s, top), s.gparts[..];
    GpartEntry(s, top, c);
    var p, end := c.Win(Grav).start, top.Win(Grav).start + top.Win(Grav).count;
    assert st == State(s.All(), gs0, top.windows, s.nrExtra, s.nrInhibited);
    assert HasGpartRoom(st, p);
    assert gs0[p] == s.gparts[p];
    MoveAndTellPartners(s, p, end);
    ShiftTree(top, Grav, c, progeny);
    PutGpart(s, c.Win(Grav).start, FreshGpart(middle, minActiveBin));
    InsertedTwice(gs0, p, end, gs0[p], FreshGpart(middle, minActiveBin));
    s.nrExtra := s.nrExtra.Plus(Grav, -1);
    assert StateOf(s, top) == AfterAddGpart(st, p, FreshGpart(middle, minActiveBin));
  }

  /** cell_add_gpart. */
  method AddGpart(s: Space, c: Cell, middle: Vec, minActiveBin: int, now: int, ghost root: Cell) returns (r: Slot)
    requires s.Apart() && TopCell(root) && c in root.subtree && root.Tiled(Grav) && Good(StateOf(s, root))
    modifies s`nrExtra, s`forceRebuild, s.parts, s.sparts, s.sinks, s.bparts, s.gparts, root.subtree`windows
    modifies root.subtree`starsSorted, root.subtree`tiOld
    ensures r == if old(c.Refuses(Grav, now)) then Aborted
      else if old(root.windows.grav.count == root.windows.grav.total) then NoRoom else At(old(c.Win(Grav).start))
    ensures !r.Aborted? ==> !c.foreign && !c.split && old(c.tiOld.Of(Grav)) == now
    ensures r.NoRoom? ==> StateOf(s, root) == old(StateOf(s, root)) && Now(root) == old(Now(root))
    ensures r.NoRoom? ==> s.forceRebuild == old(s.forceRebuild) + 1
    ensures r.At? ==> s.forceRebuild == old(s.forceRebuild)
    ensures r.At? ==> HasGpartRoom(old(StateOf(s, root)), r.index)
    ensures r.At? ==>
      StateOf(s, root) == AfterAddGpart(old(StateOf(s, root)), r.index, FreshGpart(middle, minActiveBin))
    ensures r.At? ==> Shifted(root, Grav, true, c, old(Now(root)), Now(root))
    ensures forall d :: d in root.subtree ==> d.starsSorted == old(d.starsSorted)
    ensures r.At? ==> TimesSet(root, c, Grav, now, old(TimesOf(root)), root.subtree)
    ensures r.NoRoom? ==> TimesOf(root) == old(TimesOf(root))
  {
    hide AfterAddGpart, AllLinked, Cell.Rooted, Cell.Tiled, Cell.WellFormed, Counts.Of, Counts.Plus, FreeGpartSlots,
      FreshGpart, Good, HasGpartRoom, HasPartner, Leveled, Now, Partners.Of, PathTo, Shifted, Space.All, Space.Apart,
      TimesOf, TimesSet;
    if c.foreign || c.tiOld.Of(Grav) != now || c.split {
      return Aborted;
    }
    ghost var st := StateOf(s, root);
    assert root.WellFormed() && root.Rooted() && Leveled(root) && root in root.subtree && root.parent == null;
    var top, progeny := Climb(c, root);
    assert top.Win(Grav) == top.windows.grav;
    if top.Win(Grav).count == top.Win(Grav).total {
      s.forceRebuild := s.forceRebuild + 1;
      assert StateOf(s, root) == st;
      return NoRoom;
    }
    var p := c.Win(Grav).start;
    InsertGpart(s, top, c, progeny, middle, minActiveBin);
    SetTimes(c, Grav, now, root);
    return At(p);
  }

  /** The new record is the particle at `p`: zeroed but for its place and its clock. */
  lemma NewRecord(st: State, k: Kind, p: int, middle: Vec, bin: int)
    requires HasPartner(k) && HasRoom(st, k, p) && FreeSlots(st.all.Of(k), WindowOf(st.top, SpeciesOf(k)))
    ensures var ps := AfterAdd(st, k, p, FreshParticle(middle, bin)).all.Of(k);
      && |ps| == |st.all.Of(k)| && 0 <= p < |ps| && ps[p].x == middle && ps[p].bin == Bin(bin)
      && ps[p].gpart == NULL && ps[p].id == 0 && ps[p].mass == 0.0 && ps[p].h == 0.0
      && ps[p].v == ZERO == ps[p].diff && ps[p].predicted == ZERO == ps[p].aHydro && ps[p].aGrav == ZERO
  {
  }

  lemma NewGravRecord(st: State, p: int, middle: Vec, bin: int)
    requires HasGpartRoom(st, p)
    ensures var gs := AfterAddGpart(st, p, FreshGpart(middle, bin)).gs;
      && |gs| == |st.gs| && 0 <= p < |gs| && gs[p].x == middle && gs[p].bin == Bin(bin)
      && gs[p].idOrNegOffset == 0 && gs[p].mass == 0.0 && gs[p].v == ZERO
  {
  }

  // ----- what an insertion means for the cells -----

  /** What the cell `d` holds before and after `x` has been put in front of the leaf `c`. */
  ghost predicate HoldsAlike<T>(d: Cell, c: Cell, s: Species, before: Windows, after: Windows, a: seq<T>, b: seq<T>,
        p: int, x: T) {
    var v, w := WindowOf(before, s), WindowOf(after, s);
    && 0 <= v.start && v.start + v.count <= |a| && 0 <= w.start && w.start + w.count <= |b|
    && if c in d.subtree then v.start <= p <= v.start + v.count && Held(b, w) == Spliced(a, v, p, x) else Held(b, w) == Held(a, v)
  }

  lemma Alike<T>(d: Cell, c: Cell, s: Species, before: Windows, after: Windows, a: seq<T>, b: seq<T>, p: int, x: T)
    requires var v, w := WindowOf(before, s), WindowOf(after, s);
      && 0 <= v.start && v.start + v.count <= |a| && 0 <= w.start && w.start + w.count <= |b|
      && (c in d.subtree ==> v.start <= p <= v.start + v.count && Held(b, w) == Spliced(a, v, p, x))
      && (c !in d.subtree ==> Held(b, w) == Held(a, v))
    ensures HoldsAlike(d, c, s, before, after, a, b, p, x)
  {
    hide Held, Spliced, WindowOf;
  }

  /** What every cell holds, now and before. */
  ghost predicate AllAlike<T>(root: Cell, c: Cell, s: Species, before: Snapshot, after: Snapshot,
        a: seq<T>, b: seq<T>, p: int, x: T) {
    && Known(root, before) && Known(root, after)
    && forall d :: d in root.subtree ==> HoldsAlike(d, c, s, before[d], after[d], a, b, p, x)
  }

  lemma AllInserted<T>(root: Cell, c: Cell, s: Species, before: Snapshot, after: Snapshot, a: seq<T>, p: int, end: int,
        x: T)
    requires root.WellFormed() && root in root.subtree && c in root.subtree && !c.split
    requires Shifted(root, s, true, c, before, after) && Tiled(root, s, before)
    requires 0 <= WindowOf(before[root], s).start && p == WindowOf(before[c], s).start
    requires end == WindowOf(before[root], s).start + WindowOf(before[root], s).count < |a|
    ensures 0 <= p <= end && AllAlike(root, c, s, before, after, a, Inserted(a, p, end, x), p, x)
  {
    hide Cell.WellFormed, Held, HoldsAlike, Inserted, MoveOf, Moved, Spliced, Tiled, WindowOf;
    assert Known(root, before) && Known(root, after);
    HeldAfter(root, s, c, before, after, a, p, end, x, root);
    forall d | d in root.subtree ensures HoldsAlike(d, c, s, before[d], after[d], a, Inserted(a, p, end, x), p, x) {
      HeldAfter(root, s, c, before, after, a, p, end, x, d);
      Alike(d, c, s, before[d], after[d], a, Inserted(a, p, end, x), p, x);
    }
  }

  /** After a new star or sink: the links and counters are right, every cell is tiled by its progeny, the
      new particle is the first of its leaf, every other leaf holds the couples it held, and the free slots
      plus the particles of the top-level cell are as many as before. */
  lemma ParticleAdded(root: Cell, c: Cell, k: Kind, before: Snapshot, after: Snapshot, st: State, p: int, x: Particle)
    requires (k == StarKind || k == SinkKind) && root.WellFormed() && root in root.subtree && c in root.subtree
    requires !c.split
    requires Shifted(root, SpeciesOf(k), true, c, before, after) && forall o :: Tiled(root, o, before)
    requires st.top == before[root] && p == WindowOf(before[c], SpeciesOf(k)).start
    requires Good(st) && HasRoom(st, k, p) && FreeSlots(st.all.Of(k), WindowOf(st.top, SpeciesOf(k))) && x.gpart == NULL
    requires x.bin.Bin?
    ensures Good(AfterAdd(st, k, p, x)) && forall o :: Tiled(root, o, after)
    ensures forall d :: d in root.subtree ==>
      HoldsAlike(d, c, SpeciesOf(k), before[d], after[d], Couples(st.all.Of(k), st.gs),
        Couples(AfterAdd(st, k, p, x).all.Of(k), AfterAdd(st, k, p, x).gs), p, Single(x))
    ensures forall o :: HasPartner(o) && o != k ==>
      Couples(AfterAdd(st, k, p, x).all.Of(o), AfterAdd(st, k, p, x).gs) == Couples(st.all.Of(o), st.gs)
    ensures BareGparts(AfterAdd(st, k, p, x).gs) == BareGparts(st.gs)
    ensures forall d, o :: d in root.subtree && o != SpeciesOf(k) ==> WindowOf(after[d], o) == WindowOf(before[d], o)
    ensures forall o :: AfterAdd(st, k, p, x).extra.Of(o) + WindowOf(AfterAdd(st, k, p, x).top, o).count == st.extra.Of(o) + WindowOf(st.top, o).count
    ensures WindowOf(AfterAdd(st, k, p, x).top, SpeciesOf(k)).count <= WindowOf(st.top, SpeciesOf(k)).total
  {
    hide BareGpart, BareGparts, Cell.WellFormed, Counts.Of, Counts.Plus, CoupleOf, Couples, Good, Held, HoldsAlike,
      Inserted, Lowered, MoveOf, Moved, OneMore, Partners.Of, Partners.With, SkipsInhibited, SpeciesOf, Spliced, Tiled,
      WindowOf;

    var sp := SpeciesOf(k);
    assert HasPartner(k);
    assert root in before && c in before && Known(root, before);
    AddKeepsGood(st, k, p, x);
    var st1, v := AfterAdd(st, k, p, x), WindowOf(st.top, sp);
    forall o ensures Tiled(root, o, after) { AllStillTiled(root, sp, c, before, after, o); }
    OtherWindows(root, sp, c, before, after);
    assert st1.top == OneMore(st.top, sp) && st1.extra == st.extra.Plus(sp, -1);
    Conserved(st.top, sp);
    assert 0 <= v.start && 0 <= p <= v.start + v.count < |st.all.Of(k)|;
    var a, b, end := Couples(st.all.Of(k), st.gs), Couples(st1.all.Of(k), st1.gs), v.start + v.count;
    assert b == Inserted(a, p, end, Single(x));
    AllInserted(root, c, sp, before, after, a, p, end, Single(x));
    assert WindowOf(st1.top, sp).count <= v.total;
  }

  lemma Conserved(w: Windows, s: Species)
    ensures WindowOf(OneMore(w, s), s).count == WindowOf(w, s).count + 1
    ensures forall o :: o != s ==> WindowOf(OneMore(w, s), o) == WindowOf(w, o)
  {
  }

  lemma OtherWindows(root: Cell, s: Species, c: Cell, before: Snapshot, after: Snapshot)
    requires root.WellFormed() && Shifted(root, s, true, c, before, after)
    ensures Known(root, before) && Known(root, after)
    ensures forall d, o :: d in root.subtree && o != s ==> WindowOf(after[d], o) == WindowOf(before[d], o)
  {
    hide Cell.WellFormed, MoveOf;
  }

  /** After a new gpart the same, except that the new gpart itself is still to be filled in. */
  lemma GpartAdded(root: Cell, c: Cell, before: Snapshot, after: Snapshot, st: State, p: int, x: Gpart)
    requires root.WellFormed() && root in root.subtree && c in root.subtree && !c.split
    requires Shifted(root, Grav, true, c, before, after) && forall o :: Tiled(root, o, before)
    requires st.top == before[root] && p == before[c].grav.start && Good(st) && HasGpartRoom(st, p) && x.bin.Bin?
    ensures GoodBut(AfterAddGpart(st, p, x), p) && forall o :: Tiled(root, o, after)
    ensures forall d :: d in root.subtree ==>
      HoldsAlike(d, c, Grav, before[d], after[d], BareGparts(st.gs), BareGparts(AfterAddGpart(st, p, x).gs), p,
        BareGpart(x))
    ensures forall k :: HasPartner(k) ==>
      Couples(AfterAddGpart(st, p, x).all.Of(k), AfterAddGpart(st, p, x).gs) == Couples(st.all.Of(k), st.gs)
    ensures forall d, o :: d in root.subtree && o != Grav ==> WindowOf(after[d], o) == WindowOf(before[d], o)
    ensures forall o :: AfterAddGpart(st, p, x).extra.Of(o) + WindowOf(AfterAddGpart(st, p, x).top, o).count == st.extra.Of(o) + WindowOf(st.top, o).count
  {
    hide BareGpart, BareGparts, Cell.WellFormed, Counts.Of, Counts.Plus, CoupleOf, Couples, Good, GoodBut, HasPartner,
      Held, HoldsAlike, Inserted, MoveOf, Moved, OneMore, Partners.Of, Raised, Spliced, Tiled;

    assert root in before && c in before && Known(root, before);
    AddGpartKeepsGood(st, p, x);
    var st1, v := AfterAddGpart(st, p, x), st.top.grav;
    var end := v.start + v.count;
    assert 0 <= v.start && 0 <= p <= end < |st.gs|;
    forall o ensures Tiled(root, o, after) { AllStillTiled(root, Grav, c, before, after, o); }
    OtherWindows(root, Grav, c, before, after);
    assert st1.top == OneMore(st.top, Grav) && st1.extra == st.extra.Plus(Grav, -1)
      && st1.gs == Inserted(st.gs, p, end, x);
    Conserved(st.top, Grav);
    InsertedBare(st.gs, p, end, x);
    assert forall w: Windows :: WindowOf(w, Grav) == w.grav;
    AllInserted(root, c, Grav, before, after, BareGparts(st.gs), p, end, BareGpart(x));
  }

  lemma InsertedBare(gs: seq<Gpart>, p: int, end: int, x: Gpart)
    requires 0 <= p <= end < |gs|
    ensures BareGparts(Inserted(gs, p, end, x)) == Inserted(BareGparts(gs), p, end, BareGpart(x))
  {
    hide Inserted, BareGpart;
    var r, t := BareGparts(Inserted(gs, p, end, x)), Inserted(BareGparts(gs), p, end, BareGpart(x));
    forall i | 0 <= i < |gs| ensures r[i] == t[i] {
      assert r[i] == BareGpart(Inserted(gs, p, end, x)[i]);
    }
  }

  // ----- the operations, on a tree in order -----

  /** A local top-level cell in order: the state is good and every cell is tiled by its progeny. */
  ghost predicate Inv(s: Space, root: Cell)
    reads s, s.parts, s.sparts, s.sinks, s.bparts, s.gparts, root`windows
    reads root.subtree`parent, root.subtree`depth, root.subtree`windows
  {
    s.Apart() && TopCell(root) && Good(StateOf(s, root)) && forall o :: root.Tiled(o)
  }

  lemma TiledNow(root: Cell)
    requires root.WellFormed() && forall o :: root.Tiled(o)
    ensures forall o :: Tiled(root, o, Now(root))
    ensures Known(root, Now(root))
  {
    hide Cell.WellFormed, Cell.Tiled, Tiled;
    forall o ensures Tiled(root, o, Now(root)) { SameTiling(root, o, Now(root)); }
  }

  lemma TiledAgain(root: Cell)
    requires root.WellFormed() && forall o :: Tiled(root, o, Now(root))
    ensures forall o :: root.Tiled(o)
  {
    hide Cell.WellFormed, Cell.Tiled, Tiled;
    forall o ensures root.Tiled(o) { SameTiling(root, o, Now(root)); }
  }

  /** cell_add_spart and cell_add_sink, with what the caller may rely on. */
  method NewParticle(s: Space, c: Cell, k: Kind, middle: Vec, minActiveBin: int, now: int, ghost root: Cell)
    returns (r: Slot)
    requires k == StarKind || k == SinkKind
    requires HasPartner(k) && Inv(s, root) && c in root.subtree
    modifies s`nrExtra, s`forceRebuild, s.Array(k), s.gparts, root.subtree`windows, root.subtree`starsSorted
    modifies root.subtree`tiOld
    ensures r == Fate(old(StateOf(s, root)), k, old(c.Refuses(SpeciesOf(k), now)), old(c.Win(SpeciesOf(k)).start))
    ensures !r.Aborted? ==> !c.foreign && !c.split && old(c.tiOld.Of(SpeciesOf(k))) == now
    ensures r.NoRoom? ==> k == StarKind
    ensures r.NoRoom? ==>
      Inv(s, root) && StateOf(s, root) == old(StateOf(s, root)) && s.forceRebuild == old(s.forceRebuild) + 1
    ensures r.NoRoom? ==> Now(root) == old(Now(root))
    ensures r.At? ==> Inv(s, root) && s.forceRebuild == old(s.forceRebuild)
    ensures r.At? ==> HasRoom(old(StateOf(s, root)), k, r.index) && FreeSlots(old(s.All()).Of(k),
      old(WindowOf(root.windows, SpeciesOf(k))))
    ensures r.At? ==>
      StateOf(s, root) == AfterAdd(old(StateOf(s, root)), k, r.index, FreshParticle(middle, minActiveBin))
    ensures r.At? ==> Shifted(root, SpeciesOf(k), true, c, old(Now(root)), Now(root))
    ensures r.At? ==> AllAlike(root, c, SpeciesOf(k), old(Now(root)), Now(root),
      Content(old(StateOf(s, root)), k), Content(StateOf(s, root),
        k), r.index, Single(FreshParticle(middle, minActiveBin)))
    ensures r.At? ==> forall o :: HasPartner(o) && o != k ==>
      Content(StateOf(s, root), o) == Content(old(StateOf(s, root)), o)
    ensures r.At? ==> s.nrExtra.Of(SpeciesOf(k)) + root.Win(SpeciesOf(k)).count == old(s.nrExtra.Of(SpeciesOf(k)) + root.Win(SpeciesOf(k)).count)
    ensures r.At? ==> forall d :: d in root.subtree ==>
      d.starsSorted == (old(d.starsSorted) && !(k == StarKind && c in d.subtree))
    ensures r.At? ==> forall d, o :: d in root.subtree && o != SpeciesOf(k) ==> d.Win(o) == old(d.Win(o))
    ensures r.At? ==> TimesSet(root, c, SpeciesOf(k), now, old(TimesOf(root)), root.subtree)
    ensures r.NoRoom? ==> TimesOf(root) == old(TimesOf(root))
  {
    hide AfterAdd, BareGpart, BareGparts, Cell.Rooted, Cell.Tiled, Cell.WellFormed, Counts.Of, CoupleOf, Couples,
      FreeSlots, Full, Good, HasPartner, HasRoom, HoldsAlike, Known, Leveled, MoveOf, Moved, Partners.Of, Space.All,
      Space.Apart, Space.Array, SpeciesOf, Tellable, Tiled, WindowOf;
    ghost var st, before, p := StateOf(s, root), Now(root), c.Win(SpeciesOf(k)).start;
    assert s.Apart() && TopCell(root) && Good(st) && (forall o :: root.Tiled(o));
    assert root.WellFormed() && root in root.subtree;
    TiledNow(root);
    assert st.top == root.windows && st.all == s.All() && st.gs == s.gparts[..] && st.extra == s.nrExtra;
    assert before[root] == root.windows && before[c] == c.windows;
    assert forall d: Cell, o :: d.Win(o) == WindowOf(d.windows, o);
    ghost var refused := c.Refuses(SpeciesOf(k), now);
    assert Fate(st, k, refused, p).At? ==> Fate(st, k, refused, p) == At(p) && !c.split;
    r := AddParticle(s, c, k, middle, minActiveBin, now, root);
    assert TopCell(root) by { assert root.parent == null; }
    if r.NoRoom? {
      assert Inv(s, root) by { SameTree(root, before); }
    } else if r.At? {
      ghost var x := FreshParticle(middle, minActiveBin);
      assert x.gpart == NULL && x.bin.Bin?;
      ParticleAdded(root, c, k, before, Now(root), st, p, x);
      TiledAgain(root);
      assert Inv(s, root);
      assert StateOf(s, root).top == root.windows && StateOf(s, root).all == s.All()
        && StateOf(s, root).gs == s.gparts[..] && StateOf(s, root).extra == s.nrExtra;
      assert Known(root, Now(root)) && Known(root, before);
      WindowsStay(root, before, Now(root), SpeciesOf(k));
    }
  }

  lemma WindowsStay(root: Cell, before: Snapshot, after: Snapshot, s: Species)
    requires Known(root, before) && after == Now(root)
    requires forall d, o :: d in root.subtree && o != s ==> WindowOf(after[d], o) == WindowOf(before[d], o)
    ensures forall d, o :: d in root.subtree && o != s ==> d.Win(o) == WindowOf(before[d], o)
  {
  }

  lemma SameTree(root: Cell, before: Snapshot)
    requires root.WellFormed() && Now(root) == before && forall o :: Tiled(root, o, before)
    ensures forall o :: root.Tiled(o)
  {
    TiledAgain(root);
  }

  /** As `Inv`, while the new gpart at `n` still holds zeros only. */
  ghost predicate InvBut(s: Space, root: Cell, n: int)
    reads s, s.parts, s.sparts, s.sinks, s.bparts, s.gparts, root`windows
    reads root.subtree`parent, root.subtree`depth, root.subtree`windows
  {
    s.Apart() && TopCell(root) && GoodBut(StateOf(s, root), n) && forall o :: root.Tiled(o)
  }

  /** cell_add_gpart, with what the caller may rely on. */
  method NewGpart(s: Space, c: Cell, middle: Vec, minActiveBin: int, now: int, ghost root: Cell) returns (r: Slot)
    requires Inv(s, root) && c in root.subtree
    modifies s`nrExtra, s`forceRebuild, s.parts, s.sparts, s.sinks, s.bparts, s.gparts, root.subtree`windows
    modifies root.subtree`starsSorted, root.subtree`tiOld
    ensures r == if old(c.Refuses(Grav, now)) then Aborted
      else if old(root.windows.grav.count == root.windows.grav.total) then NoRoom else At(old(c.Win(Grav).start))
    ensures !r.Aborted? ==> !c.foreign && !c.split && old(c.tiOld.Of(Grav)) == now
    ensures r.NoRoom? ==>
      Inv(s, root) && StateOf(s, root) == old(StateOf(s, root)) && s.forceRebuild == old(s.forceRebuild) + 1
    ensures r.NoRoom? ==> Now(root) == old(Now(root))
    ensures r.At? ==> InvBut(s, root, r.index) && s.forceRebuild == old(s.forceRebuild)
    ensures r.At? ==> HasGpartRoom(old(StateOf(s, root)), r.index)
    ensures r.At? ==>
      StateOf(s, root) == AfterAddGpart(old(StateOf(s, root)), r.index, FreshGpart(middle, minActiveBin))
    ensures r.At? ==> Shifted(root, Grav, true, c, old(Now(root)), Now(root))
    ensures r.At? ==> AllAlike(root, c, Grav, old(Now(root)), Now(root),
      old(BareGparts(s.gparts[..])), BareGparts(s.gparts[..]), r.index, BareGpart(FreshGpart(middle, minActiveBin)))
    ensures r.At? ==> forall k :: HasPartner(k) ==> Content(StateOf(s, root), k) == Content(old(StateOf(s, root)), k)
    ensures r.At? ==> forall d, o :: d in root.subtree && o != Grav ==> d.Win(o) == old(d.Win(o))
    ensures r.At? ==> s.nrExtra.Of(Grav) + root.Win(Grav).count == old(s.nrExtra.Of(Grav) + root.Win(Grav).count)
    ensures forall d :: d in root.subtree ==> d.starsSorted == old(d.starsSorted)
    ensures r.At? ==> TimesSet(root, c, Grav, now, old(TimesOf(root)), root.subtree)
    ensures r.NoRoom? ==> TimesOf(root) == old(TimesOf(root))
  {
    hide AfterAddGpart, BareGpart, BareGparts, Cell.Rooted, Cell.Tiled, Cell.WellFormed, Counts.Of, CoupleOf, Couples,
      Good, GoodBut, HasGpartRoom, HasPartner, HoldsAlike, Known, Leveled, MoveOf, Moved, Partners.Of, Space.All,
      Space.Apart, Tiled;
    ghost var st, before, p := StateOf(s, root), Now(root), c.Win(Grav).start;
    assert s.Apart() && TopCell(root) && Good(st) && (forall o :: root.Tiled(o));
    assert root.WellFormed() && root in root.subtree;
    TiledNow(root);
    assert st.top == root.windows && st.all == s.All() && st.gs == s.gparts[..] && st.extra == s.nrExtra;
    assert before[root] == root.windows && before[c] == c.windows;
    assert (forall d: Cell, o :: d.Win(o) == WindowOf(d.windows, o)) && forall w: Windows :: WindowOf(w, Grav) == w.grav;
    r := AddGpart(s, c, middle, minActiveBin, now, root);
    assert TopCell(root) by { assert root.parent == null; }
    if r.NoRoom? {
      assert Inv(s, root) by { SameTree(root, before); }
    } else if r.At? {
      ghost var x := FreshGpart(middle, minActiveBin);
      assert x.bin.Bin?;
      GpartAdded(root, c, before, Now(root), st, p, x);
      TiledAgain(root);
      assert InvBut(s, root, p);
      assert StateOf(s, root).top == root.windows && StateOf(s, root).all == s.All()
        && StateOf(s, root).gs == s.gparts[..] && StateOf(s, root).extra == s.nrExtra;
      assert Known(root, Now(root)) && Known(root, before);
      WindowsStay(root, before, Now(root), Grav);
    }
  }
}
