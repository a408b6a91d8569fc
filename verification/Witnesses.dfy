/**
 Small examples of what the exact conditions elsewhere are about: a birth for which there is no gpart, a mark that
 a drift leaves behind, and a cell that is taken for complete because most of its progeny are missing.
 */
module Witnesses {
  import opened Octree
  import opened Particles
  import opened SpaceData
  import opened LiveTree
  import opened Conversions
  import opened ConversionRuns
  import opened HydroDrift
  import opened MeshCompleteness

  // ----- a birth without a gpart -----

  function Gas7(): Particle {
    Particle(7, Bin(0), 0, ZERO, ZERO, ZERO, 0.0, 1.0, ZERO, ZERO, ZERO)
  }

  function FreeStar(): Particle {
    Particle(0, NotCreated, NULL, ZERO, ZERO, ZERO, 0.0, 0.0, ZERO, ZERO, ZERO)
  }

  /** One gas particle, one free slot for a star, none for a gpart. */
  function Crowded(): State {
    State(Partners([Gas7()], [FreeStar()], [], []), [Gpart(GasKind, 0, Bin(0), ZERO, ZERO, 1.0)],
          Windows(Window(0, 1, 1), Window(0, 0, 1), Window(0, 0, 0), Window(0, 0, 0), Window(0, 1, 1)),
          Counts(0, 1, 0, 0, 0), Counts(0, 0, 0, 0, 0))
  }

  lemma OneBin(b: TimeBin)
    requires !b.Inhibited?
    ensures InhibitedIn([b]) == 0
  {
    assert [b][..0] == [];
  }

  lemma CrowdedArrays(k: Kind)
    requires HasPartner(k)
    ensures GoodArray(Crowded().all.Of(k), Crowded().gs, k, 0)
  {
    OneBin(Bin(0));
    OneBin(NotCreated);
    var ps := Crowded().all.Of(k);
    assert Bins(ps) == if k == GasKind then [Bin(0)] else if k == StarKind then [NotCreated] else [];
    assert InhibitedIn(Bins(ps)) == 0;
    hide InhibitedIn, Bins;
  }

  lemma CrowdedIsGood()
    ensures Good(Crowded())
  {
    forall k | HasPartner(k)
      ensures GoodArray(Crowded().all.Of(k), Crowded().gs, k, Crowded().inhibited.Of(SpeciesOf(k)))
    {
      CrowdedArrays(k);
    }
    OneBin(Bin(0));
    assert GpartBins(Crowded().gs) == [Bin(0)];
    hide InhibitedIn, GoodArray;
  }

  /** The star of this birth is taken out again, and stands in the way of all others. */
  lemma NoGpartForStar(middle: Vec, bin: int)
    ensures CanSpawn(Crowded(), GasKind, 0, 0)
    ensures BirthFate(Crowded(), GasKind, 0, Site(0, 0, false, false)) == NoGpartSlot(0)
    ensures var st2 := Conceived(Crowded(), 0, middle, bin, ZERO);
      HasPartner(StarKind) && Good(st2) && Exists(st2, StarKind, 0) && Stranded(Removed(st2, StarKind, 0), 0)
  {
    CrowdedIsGood();
    assert Fate(Crowded(), StarKind, false, 0) == At(0);
    hide Good;
    FailedBirthStrands(Crowded(), GasKind, 0, 0, middle, bin, ZERO);
  }

  // ----- a mark that stays -----

  /** A cell without progeny, and one with the single progeny `leaf`. */
  predicate Childless(c: Cell) {
    !c.split && |c.progeny| == 8 && forall k :: 0 <= k < 8 ==> c.progeny[k] == null
  }

  predicate OnlyChild(c: Cell, leaf: Cell) {
    |c.progeny| == 8 && c.progeny[0] == leaf && forall k :: 1 <= k < 8 ==> c.progeny[k] == null
  }

  lemma TwoCells(top: Cell, leaf: Cell)
    requires top.WellFormed() && leaf.WellFormed() && OnlyChild(top, leaf) && Childless(leaf)
    ensures leaf.subtree == {leaf} && top.subtree == {top, leaf} && top != leaf
  {
    hide Cell.WellFormed;
    KidsProper(top);
    KidsProper(leaf);
    forall d | d in leaf.subtree ensures d == leaf { if d != leaf { var k := SlotExists(leaf, d); } }
    forall d | d in top.subtree ensures d == top || d == leaf { if d != top { var k := SlotExists(top, d); } }
  }

  /** Two cells without gas, at rest. */
  ghost predicate EmptyPair(top: Cell, leaf: Cell)
    reads top`windows, top`hydroSuper, leaf`windows, leaf`hydroSuper, leaf`parent
  {
    && OnlyChild(top, leaf) && Childless(leaf) && top.WellFormed() && leaf.WellFormed() && leaf.parent == top
    && top.windows.hydro == leaf.windows.hydro == Window(0, 0, 0)
    && top.hydroSuper == leaf.hydroSuper == top
  }

  method NewLeaf() returns (leaf: Cell)
    ensures fresh(leaf) && leaf.WellFormed() && Childless(leaf)
  {
    hide Cell.WellFormed;
    var none: seq<Cell?> := [null, null, null, null, null, null, null, null];
    assert forall k :: 0 <= k < 8 ==> none[k] == null;
    leaf := new Cell(none);
  }

  method NewParent(leaf: Cell) returns (top: Cell)
    requires leaf.WellFormed()
    modifies leaf
    ensures fresh(top) && top.WellFormed() && OnlyChild(top, leaf) && leaf.parent == top
  {
    hide Cell.WellFormed;
    var one: seq<Cell?> := [leaf, null, null, null, null, null, null, null];
    assert one[0] == leaf && forall k :: 1 <= k < 8 ==> one[k] == null;
    top := new Cell(one);
    assert top.progeny[0] == leaf;
  }

  method AtRest(c: Cell, top: Cell)
    modifies c`windows, c`hydroSuper, c`tiOldPart, c`doDrift, c`doSubDrift
    ensures c.windows.hydro == Window(0, 0, 0) && c.hydroSuper == top && c.tiOldPart == 0 && !c.doDrift && !c.doSubDrift
  {
    var w := Window(0, 0, 0);
    c.windows := Windows(w, w, w, w, w);
    c.hydroSuper, c.tiOldPart, c.doDrift, c.doSubDrift := top, 0, false, false;
  }

  method BuildPair() returns (top: Cell, leaf: Cell)
    ensures fresh(top) && fresh(leaf) && EmptyPair(top, leaf)
    ensures !top.doDrift && !top.doSubDrift && !leaf.doDrift && !leaf.doSubDrift && top.tiOldPart == leaf.tiOldPart == 0
  {
    hide Cell.WellFormed;
    leaf := NewLeaf();
    top := NewParent(leaf);
    AtRest(top, top);
    AtRest(leaf, top);
  }

  lemma PairAtRest(top: Cell, leaf: Cell)
    requires EmptyPair(top, leaf)
    ensures leaf.subtree == {leaf} && top.subtree == {top, leaf} && top != leaf
    ensures top.Tiled(Gas) && SuperTree(top) && Shadowed(top, leaf)
    ensures forall ps :: AllBounded(top, ps)
  {
    TwoCells(top, leaf);
    PairTiled(top, leaf);
    hide Cell.WellFormed, Cell.Tiled;
    assert top.Rooted();
  }

  lemma PairTiled(top: Cell, leaf: Cell)
    requires EmptyPair(top, leaf) && leaf.subtree == {leaf}
    ensures top.Tiled(Gas)
  {
    NoGas(top, 8);
    NoGas(leaf, 8);
    assert forall k :: 0 <= k <= 8 ==> top.KidStart(Gas, k) == 0 by {
      forall k | 0 <= k <= 8 ensures top.KidStart(Gas, k) == 0 { NoGas(top, k); }
    }
  }

  lemma {:induction false} NoGas(c: Cell, k: nat)
    requires |c.progeny| == 8 && k <= 8 && c.windows.hydro.start == 0
    requires forall j :: 0 <= j < 8 && c.progeny[j] != null ==> c.progeny[j].windows.hydro.count == 0
    ensures c.KidStart(Gas, k) == 0
  {
    if k > 0 { NoGas(c, k - 1); }
  }

  lemma PairUnmarked(top: Cell, leaf: Cell, s: Scheduler)
    requires EmptyPair(top, leaf) && !top.doDrift && !top.doSubDrift && !leaf.doDrift && !leaf.doSubDrift
    ensures MarksConsistent(top, s) && leaf in top.subtree
  {
    hide Cell.WellFormed, Cell.Tiled, Cell.Rooted;
    PairAtRest(top, leaf);
  }

  lemma PairWalkable(top: Cell, leaf: Cell, s: Scheduler, parts: array<Particle>)
    requires EmptyPair(top, leaf) && MarksConsistent(top, s) && top.tiOldPart == leaf.tiOldPart == 0
    ensures Walkable(top, parts, 1) && Snapshot(top).Keys == top.subtree
  {
    hide Cell.WellFormed, Cell.Tiled, Cell.Rooted, Announced;
    PairAtRest(top, leaf);
  }

  lemma PairWalked(top: Cell, leaf: Cell, was: map<Cell, Was>)
    requires EmptyPair(top, leaf) && top.subtree <= was.Keys && Walked(top, false, was, 1)
    requires leaf in was && was[leaf].doDrift
    ensures leaf.doDrift
  {
    hide Cell.WellFormed, Cell.Tiled, Cell.Rooted;
    PairAtRest(top, leaf);
  }

  /** The marked cell is below an empty one, and the walk does not get there. */
  method MarkBelowEmpty(s: Scheduler, run: Run) returns (top: Cell, leaf: Cell)
    modifies s
    ensures fresh(top) && fresh(leaf) && leaf in top.subtree && leaf.doDrift
  {
    hide Cell.WellFormed, Cell.Rooted, Cell.Tiled, Advance, Moved, MarksConsistent, EmptyPair, Walkable, Walked,
      AllBounded, SameOutside;
    top, leaf := BuildPair();
    PairUnmarked(top, leaf, s);
    TwoTogether(top, leaf);
    ActivateDriftPart(leaf, s, top);
    var parts := new Particle[0];
    PairWalkable(top, leaf, s, parts);
    ghost var was := Snapshot(top);
    assert was[leaf].doDrift;
    DriftPart(top, false, parts, run, 1);
    PairWalked(top, leaf, was);
  }

  lemma TwoTogether(top: Cell, leaf: Cell)
    requires EmptyPair(top, leaf)
    ensures top.subtree == {top, leaf}
  {
    TwoCells(top, leaf);
  }

  // ----- a complete cell with seven progeny missing -----

  /** A place in each third of a unit cell's lower half. */
  function PlaceIn(b: int): real {
    if b == 0 then 1.0 / 12.0 else if b == 1 then 3.0 / 12.0 else 5.0 / 12.0
  }

  function PartAt(n: int): Part {
    var z := if n < 9 then 0 else if n < 18 then 1 else 2;
    var y := if n - 9 * z < 3 then 0 else if n - 9 * z < 6 then 1 else 2;
    Part(n - 9 * z - 3 * y, y, z)
  }

  function GasAt(b: Part): Particle {
    Gas7().(x := Vec(PlaceIn(b.x), PlaceIn(b.y), PlaceIn(b.z)))
  }

  /** One particle in each of the 27 parts of the lower octant. */
  ghost function Spread(): (r: seq<Particle>)
    ensures |r| == 27 && forall n :: 0 <= n < 27 ==> r[n] == GasAt(PartAt(n))
  {
    seq(27, n => GasAt(PartAt(n)))
  }

  /** A unit cell with all of its gas in the lower octant. */
  ghost predicate OneOctant(c: Cell, kid: Cell)
    reads c`windows, kid`windows, c`loc, c`width, kid`loc, kid`width
  {
    && OnlyChild(c, kid) && Childless(kid) && c.WellFormed() && kid.WellFormed()
    && c.windows.hydro == kid.windows.hydro == Window(0, 27, 27)
    && c.loc == kid.loc == ZERO && c.width == Vec(1.0, 1.0, 1.0) && kid.width == Vec(0.5, 0.5, 0.5)
  }

  lemma ThirdOfPlace(b: int)
    requires 0 <= b < 3
    ensures Third(PlaceIn(b), 0.0, 0.5) == b
  {
    Quotient(3.0 * (PlaceIn(b) - 0.0), 0.5, 6.0 * PlaceIn(b));
    Truncated(6.0 * PlaceIn(b));
  }

  lemma AllThirds(kid: Cell)
    requires kid.windows.hydro == Window(0, 27, 27) && kid.loc == ZERO && kid.width == Vec(0.5, 0.5, 0.5)
    ensures Scan(kid, Spread())
  {
    forall b | Proper(b) ensures PartHolds(kid, Spread(), b) {
      var n := Number(b);
      NumberInRange(b);
      assert PartAt(n) == b;
      ThirdOfPlace(b.x);
      ThirdOfPlace(b.y);
      ThirdOfPlace(b.z);
      hide Third;
      assert InPart(kid, Spread()[n], b);
    }
  }

  lemma {:induction false} GasInFirst(c: Cell, kid: Cell, k: nat)
    requires OneOctant(c, kid) && k <= 8
    ensures c.KidStart(Gas, k) == if k == 0 then 0 else 27
  {
    hide Cell.WellFormed;
    if k > 0 { GasInFirst(c, kid, k - 1); }
  }

  lemma OctantTiled(c: Cell, kid: Cell)
    requires OneOctant(c, kid)
    ensures c.Tiled(Gas) && kid.Tiled(Gas)
  {
    KidsProper(c);
    KidsProper(kid);
    forall k | 0 <= k <= 8 ensures c.KidStart(Gas, k) == if k == 0 then 0 else 27 { GasInFirst(c, kid, k); }
  }

  lemma OctantGeometry(c: Cell, kid: Cell)
    requires OneOctant(c, kid)
    ensures Geometry(c) && Geometry(kid) && c.subtree == {c, kid}
  {
    TwoCells(c, kid);
    hide Cell.WellFormed;
    assert KidPlaced(c, 0, kid);
  }

  lemma OctantSorted(c: Cell, kid: Cell)
    requires OneOctant(c, kid)
    ensures AllSorted(c, Spread())
  {
    KidsProper(c);
    KidsProper(kid);
    assert Sorted(c, Spread()) by { hide Cell.WellFormed; }
    assert AllSorted(kid, Spread());
  }

  /** The shortcut takes this cell for complete, and it is not. */
  lemma MissingAndComplete(c: Cell, kid: Cell)
    requires OneOctant(c, kid)
    ensures c.WellFormed() && Geometry(c) && Gap(c, Spread())
    ensures SelfComplete(c, Spread()) && Wide(c) && !Scan(c, Spread())
  {
    OctantTiled(c, kid);
    OctantGeometry(c, kid);
    OctantSorted(c, kid);
    AllThirds(kid);
    KidsProper(c);
    assert Gap(c, Spread()) by { GeometryBelow(c); hide Cell.WellFormed, Scan, Geometry; assert c.progeny[1] == null; }
    hide Cell.WellFormed, Scan, Geometry, Gap, AllSorted;
    GapIsWrong(c, Spread());
  }

  method WronglyComplete() returns (c: Cell)
    ensures fresh(c) && c.WellFormed() && Geometry(c) && Wide(c)
    ensures SelfComplete(c, Spread()) && !Scan(c, Spread())
  {
    hide Cell.WellFormed, Geometry, SelfComplete, Scan;
    var kid := NewLeaf();
    c := NewParent(kid);
    var w, v := Window(0, 27, 27), Window(0, 0, 0);
    c.windows := Windows(w, v, v, v, v);
    kid.windows := Windows(w, v, v, v, v);
    c.loc, c.width := ZERO, Vec(1.0, 1.0, 1.0);
    kid.loc, kid.width := ZERO, Vec(0.5, 0.5, 0.5);
    MissingAndComplete(c, kid);
  }
}
