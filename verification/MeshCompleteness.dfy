/**
 The completeness of a cell for the Voronoi mesh: whether each of its 27 parts holds gas.  The code asks the
 progeny first and looks at the particles only if they do not settle it.
 */
module MeshCompleteness {
  import opened Octree
  import opened Particles

  /** Conversion of a double to int: truncation toward zero. */
  function Trunc(r: real): int {
    if r >= 0.0 then r.Floor else -((-r).Floor)
  }

  /** The third of the cell that a coordinate falls into. */
  function Third(x: real, loc: real, width: real): int
    requires width > 0.0
  {
    Trunc(3.0 * (x - loc) / width)
  }

  lemma Truncated(r: real)
    ensures Trunc(r) == 0 <==> -1.0 < r < 1.0
    ensures Trunc(r) == 1 <==> 1.0 <= r < 2.0
    ensures Trunc(r) == 2 <==> 2.0 <= r < 3.0
  {
  }

  lemma Quotient(a: real, w: real, r: real)
    requires w > 0.0 && r * w == a
    ensures a / w == r
  {
  }

  /** Seen from the half `o` of a cell, thirds are twice as fine. */
  lemma HalfThirds(x: real, loc: real, width: real, o: int)
    requires width > 0.0 && 0 <= o <= 1
    ensures 3.0 * (x - (loc + o as real * (width / 2.0))) / (width / 2.0) ==
      2.0 * (3.0 * (x - loc) / width) - 3.0 * o as real
  {
    var r := 3.0 * (x - loc) / width;
    assert r * width == 3.0 * (x - loc);
    var h := width / 2.0;
    assert (2.0 * r - 3.0 * o as real) * h == r * width - 3.0 * o as real * h;
    Quotient(3.0 * (x - (loc + o as real * h)), h, 2.0 * r - 3.0 * o as real);
  }

  /** A third of the cell contains a third of one of its halves: the first that of the lower half, the
      second the last of the lower half, the third the second of the upper half. */
  function HalfOf(b: int): int { if b == 2 then 1 else 0 }

  function ThirdOf(b: int): int { if b == 0 then 0 else if b == 1 then 2 else 1 }

  lemma ThirdInside(x: real, loc: real, width: real, b: int)
    requires width > 0.0 && 0 <= b < 3
    requires Third(x, loc + HalfOf(b) as real * (width / 2.0), width / 2.0) == ThirdOf(b)
    ensures Third(x, loc, width) == b
  {
    HalfThirds(x, loc, width, HalfOf(b));
    Truncated(3.0 * (x - loc) / width);
    Truncated(3.0 * (x - (loc + HalfOf(b) as real * (width / 2.0))) / (width / 2.0));
    hide Trunc;
  }

  /** The first and the last third of a cell lie in one half each. */
  lemma ThirdOutside(x: real, loc: real, width: real, o: int)
    requires width > 0.0 && 0 <= o <= 1 && Third(x, loc, width) == 2 * o
    ensures if o == 0 then x < loc + width / 2.0 else x >= loc + width / 2.0
  {
    Truncated(3.0 * (x - loc) / width);
    hide Trunc;
    var r := 3.0 * (x - loc) / width;
    assert r * width == 3.0 * (x - loc);
    if o == 0 {
      assert r * width < 1.0 * width by { Scaled(r, 1.0, width); }
    } else {
      assert 2.0 * width <= r * width by { ScaledWeak(2.0, r, width); }
    }
  }

  lemma Scaled(a: real, b: real, w: real)
    requires a < b && w > 0.0
    ensures a * w < b * w
  {
  }

  lemma ScaledWeak(a: real, b: real, w: real)
    requires a <= b && w > 0.0
    ensures a * w <= b * w
  {
  }

  /** Where the thirds are: each begins where the one before ends.  The first reaches as far below the cell as above
      its lower face, since the conversion rounds toward zero. */
  lemma ThirdIsPlace(x: real, loc: real, width: real)
    requires width > 0.0
    ensures Third(x, loc, width) == 0 <==> -width < 3.0 * (x - loc) < width
    ensures Third(x, loc, width) == 1 <==> width <= 3.0 * (x - loc) < 2.0 * width
    ensures Third(x, loc, width) == 2 <==> 2.0 * width <= 3.0 * (x - loc) < 3.0 * width
  {
    var r := 3.0 * (x - loc) / width;
    Truncated(r);
    hide Trunc;
    assert r * width == 3.0 * (x - loc);
    Sides(r, 3.0 * (x - loc), width);
  }

  lemma Sides(r: real, a: real, w: real)
    requires w > 0.0 && r * w == a
    ensures (r > -1.0 <==> a > -w) && (r < 1.0 <==> a < w) && (r < 2.0 <==> a < 2.0 * w) && (r < 3.0 <==> a < 3.0 * w)
  {
    SameSide(-1.0, r, w);
    SameSide(r, 1.0, w);
    SameSide(r, 2.0, w);
    SameSide(r, 3.0, w);
  }

  lemma SameSide(a: real, b: real, w: real)
    requires w > 0.0
    ensures a < b <==> a * w < b * w
  {
    if a < b { Scaled(a, b, w); }
    if b < a { Scaled(b, a, w); }
  }

  // ----- the two ways to find out -----

  /** The bits of a progeny index. */
  function Bit(k: int, axis: int): int
    requires 0 <= axis < 3
  {
    if axis == 0 then (if 4 <= k then 1 else 0)
    else if axis == 1 then (if k == 2 || k == 3 || k == 6 || k == 7 then 1 else 0)
    else (if k == 1 || k == 3 || k == 5 || k == 7 then 1 else 0)
  }

  /** One of the 27 parts. */
  datatype Part = Part(x: int, y: int, z: int)

  predicate Proper(b: Part) {
    0 <= b.x < 3 && 0 <= b.y < 3 && 0 <= b.z < 3
  }

  predicate Wide(c: Cell)
    reads c`width
  {
    c.width.x > 0.0 && c.width.y > 0.0 && c.width.z > 0.0
  }

  /** The particle lies in this part of the cell, as the code computes it. */
  predicate InPart(c: Cell, p: Particle, b: Part)
    requires Wide(c)
    reads c`width, c`loc
  {
    Third(p.x.x, c.loc.x, c.width.x) == b.x && Third(p.x.y, c.loc.y, c.width.y) == b.y
      && Third(p.x.z, c.loc.z, c.width.z) == b.z
  }

  ghost predicate PartHolds(c: Cell, parts: seq<Particle>, b: Part)
    requires Wide(c)
    reads c`width, c`loc, c`windows
  {
    exists i :: c.Win(Gas).start <= i < c.End(Gas) && 0 <= i < |parts| && InPart(c, parts[i], b)
  }

  /** All 27 parts hold gas: the meaning of completeness. */
  ghost predicate Scan(c: Cell, parts: seq<Particle>)
    requires Wide(c)
    reads c`width, c`loc, c`windows
  {
    forall b :: Proper(b) ==> PartHolds(c, parts, b)
  }

  /** Progeny `k` is where it should be. */
  ghost predicate KidPlaced(c: Cell, k: int, kid: Cell)
    reads c`loc, c`width, kid`loc, kid`width
  {
    var h := c.width.Times(0.5);
    && kid.width == h
    && kid.loc == Vec(c.loc.x + Bit(k, 0) as real * h.x, c.loc.y + Bit(k, 1) as real * h.y,
      c.loc.z + Bit(k, 2) as real * h.z)
  }

  /** Every cell has a volume and its progeny are its octants. */
  ghost predicate Geometry(c: Cell)
    reads c.subtree`loc, c.subtree`width
  {
    && (forall d :: d in c.subtree ==> Wide(d))
    && forall d, k :: d in c.subtree && 0 <= k < |d.progeny| && d.progeny[k] != null && d.progeny[k] in c.subtree ==>
      KidPlaced(d, k, d.progeny[k])
  }

  /** What the code computes: progeny first, particles second. */
  ghost predicate SelfComplete(c: Cell, parts: seq<Particle>)
    requires c.WellFormed() && Geometry(c)
    reads c.subtree`loc, c.subtree`width, c.subtree`windows
    decreases c.subtree
  {
    GeometryBelow(c);
    (c.split && forall k :: 0 <= k < 8 && c.progeny[k] != null ==> SelfComplete(c.progeny[k], parts)) || Scan(c, parts)
  }

  lemma GeometryBelow(c: Cell)
    requires c.WellFormed() && Geometry(c)
    ensures |c.progeny| == 8 && c in c.subtree && Wide(c)
    ensures forall k :: 0 <= k < 8 && c.progeny[k] != null ==>
      c.progeny[k].WellFormed() && c.progeny[k].subtree < c.subtree && c.progeny[k] in c.subtree
        && Geometry(c.progeny[k]) && KidPlaced(c, k, c.progeny[k])
  {
    KidsProper(c);
    hide Cell.WellFormed, KidPlaced;
  }

  // ----- when the shortcut is right -----

  /** A particle in the right part of a progeny lies in the corresponding part of the cell. */
  lemma PartInside(c: Cell, k: int, p: Particle, b: Part)
    requires Wide(c) && 0 <= k < |c.progeny| && c.progeny[k] != null && Wide(c.progeny[k])
    requires KidPlaced(c, k, c.progeny[k]) && Proper(b)
    requires Bit(k, 0) == HalfOf(b.x) && Bit(k, 1) == HalfOf(b.y) && Bit(k, 2) == HalfOf(b.z)
    requires InPart(c.progeny[k], p, Part(ThirdOf(b.x), ThirdOf(b.y), ThirdOf(b.z)))
    ensures InPart(c, p, b)
  {
    hide Third;
    ThirdInside(p.x.x, c.loc.x, c.width.x, b.x);
    ThirdInside(p.x.y, c.loc.y, c.width.y, b.y);
    ThirdInside(p.x.z, c.loc.z, c.width.z, b.z);
  }

  /** Each part of a cell contains a part of one of its progeny. */
  lemma PartFromKid(c: Cell, parts: seq<Particle>, k: int, b: Part)
    requires c.WellFormed() && Geometry(c) && c.Tiled(Gas) && Proper(b) && c in c.subtree && Wide(c)
    requires k == 4 * HalfOf(b.x) + 2 * HalfOf(b.y) + HalfOf(b.z) && 0 <= k < |c.progeny| && c.progeny[k] != null
    requires c.progeny[k] in c.subtree && Wide(c.progeny[k]) && KidPlaced(c, k, c.progeny[k])
    requires Scan(c.progeny[k], parts)
    ensures PartHolds(c, parts, b)
  {
    hide Cell.End, Cell.Tiled, Cell.WellFormed, Cell.Win, Geometry, InPart, KidPlaced, Wide;
    var kid: Cell := c.progeny[k];
    var s := Part(ThirdOf(b.x), ThirdOf(b.y), ThirdOf(b.z));
    assert Bit(k, 0) == HalfOf(b.x) && Bit(k, 1) == HalfOf(b.y) && Bit(k, 2) == HalfOf(b.z);
    assert Proper(s);
    assert PartHolds(kid, parts, s);
    var i :| kid.Win(Gas).start <= i < kid.End(Gas) && 0 <= i < |parts| && InPart(kid, parts[i], s);
    PartInside(c, k, parts[i], b);
    WindowInside(c, Gas, kid);
    assert PartHolds(c, parts, b);
  }

  /** Eight complete progeny make a complete cell. */
  lemma EightComplete(c: Cell, parts: seq<Particle>)
    requires c.WellFormed() && Geometry(c) && c.Tiled(Gas) && c.split && c in c.subtree && Wide(c) && |c.progeny| == 8
    requires forall k :: 0 <= k < 8 ==> c.progeny[k] != null && c.progeny[k] in c.subtree && Wide(c.progeny[k])
    requires forall k :: 0 <= k < 8 ==> KidPlaced(c, k, c.progeny[k]) && Scan(c.progeny[k], parts)
    ensures Scan(c, parts)
  {
    hide Cell.Tiled, Cell.WellFormed, Geometry, KidPlaced, PartHolds, Proper, Wide;
    forall b | Proper(b) ensures PartHolds(c, parts, b) {
      var k := 4 * HalfOf(b.x) + 2 * HalfOf(b.y) + HalfOf(b.z);
      assert 0 <= k < 8;
      PartFromKid(c, parts, k, b);
    }
  }

  // ----- when it is wrong -----

  /** Every particle of a split cell lies in the octant of the progeny it belongs to. */
  ghost predicate InOctant(c: Cell, k: int, p: Particle)
    reads c`loc, c`width
  {
    && (p.x.x >= c.loc.x + c.width.x / 2.0 <==> Bit(k, 0) == 1)
    && (p.x.y >= c.loc.y + c.width.y / 2.0 <==> Bit(k, 1) == 1)
    && (p.x.z >= c.loc.z + c.width.z / 2.0 <==> Bit(k, 2) == 1)
  }

  ghost predicate Sorted(c: Cell, parts: seq<Particle>)
    requires |c.progeny| == 8
    reads c`loc, c`width, c.Kids()`windows
  {
    forall k, i :: 0 <= k < 8 && c.progeny[k] != null && c.progeny[k].Win(Gas).start <= i < c.progeny[k].End(Gas) && 0 <= i < |parts| ==>
      InOctant(c, k, parts[i])
  }

  /** The corner part of an octant can only hold particles of that octant. */
  lemma CornerPart(c: Cell, k: int, j: int, p: Particle)
    requires Wide(c) && 0 <= k < 8 && 0 <= j < 8 && j != k && InOctant(c, j, p)
    ensures !InPart(c, p, Part(2 * Bit(k, 0), 2 * Bit(k, 1), 2 * Bit(k, 2)))
  {
    hide Bit, Third;
    var b := Part(2 * Bit(k, 0), 2 * Bit(k, 1), 2 * Bit(k, 2));
    BitsDiffer(k, j);
    assert c.width.x > 0.0 && c.width.y > 0.0 && c.width.z > 0.0;
    if InPart(c, p, b) {
      assert Third(p.x.x, c.loc.x, c.width.x) == b.x && Third(p.x.y, c.loc.y, c.width.y) == b.y
        && Third(p.x.z, c.loc.z, c.width.z) == b.z;
      ThirdOutside(p.x.x, c.loc.x, c.width.x, Bit(k, 0));
      ThirdOutside(p.x.y, c.loc.y, c.width.y, Bit(k, 1));
      ThirdOutside(p.x.z, c.loc.z, c.width.z, Bit(k, 2));
    }
  }

  lemma BitsDiffer(k: int, j: int)
    requires 0 <= k < 8 && 0 <= j < 8 && j != k
    ensures Bit(k, 0) != Bit(j, 0) || Bit(k, 1) != Bit(j, 1) || Bit(k, 2) != Bit(j, 2)
    ensures forall axis :: 0 <= axis < 3 ==> 0 <= Bit(k, axis) <= 1 && 0 <= Bit(j, axis) <= 1
  {
  }

  /** Without progeny `k` the cell has nothing in the corner part of that octant. */
  lemma MissingIncomplete(c: Cell, parts: seq<Particle>, k: int)
    requires c.WellFormed() && c.split && c.Tiled(Gas) && |c.progeny| == 8 && 0 <= k < 8 && c.progeny[k] == null
    requires Wide(c) && Sorted(c, parts)
    ensures !Scan(c, parts)
  {
    hide Cell.End, Cell.KidStart, Cell.Kids, Cell.WellFormed, Cell.Win, InOctant, InPart, Wide;
    var b := Part(2 * Bit(k, 0), 2 * Bit(k, 1), 2 * Bit(k, 2));
    assert Proper(b);
    if PartHolds(c, parts, b) {
      var i :| c.Win(Gas).start <= i < c.End(Gas) && 0 <= i < |parts| && InPart(c, parts[i], b);
      assert c.KidStart(Gas, 8) == c.End(Gas);
      var j := KidAt(c, Gas, i, 8);
      assert InOctant(c, j, parts[i]);
      CornerPart(c, k, j, parts[i]);
    }
  }

  /** The shortcut is taken although a progeny is missing. */
  ghost predicate Gap(c: Cell, parts: seq<Particle>)
    requires c.WellFormed() && Geometry(c)
    reads c.subtree`loc, c.subtree`width, c.subtree`windows
  {
    GeometryBelow(c);
    && c.split
    && (exists k :: 0 <= k < 8 && c.progeny[k] == null)
    && forall k :: 0 <= k < 8 && c.progeny[k] != null ==> SelfComplete(c.progeny[k], parts)
  }

  /** The particles are where the last split put them. */
  ghost predicate AllSorted(c: Cell, parts: seq<Particle>)
    requires c.WellFormed()
    reads c.subtree`loc, c.subtree`width, c.subtree`windows
    decreases c.subtree
  {
    KidsProper(c);
    c.split ==> Sorted(c, parts) && forall k :: 0 <= k < 8 && c.progeny[k] != null ==> AllSorted(c.progeny[k], parts)
  }

  lemma {:induction false} Below(c: Cell, parts: seq<Particle>, d: Cell)
    requires c.WellFormed() && Geometry(c) && c.Tiled(Gas) && AllSorted(c, parts) && d in c.subtree
    ensures d.WellFormed() && Geometry(d) && d.Tiled(Gas) && AllSorted(d, parts) && d.subtree <= c.subtree
    decreases c.subtree
  {
    hide Geometry, Sorted;
    SubtreeNested(c, d);
    if d != c {
      GeometryBelow(c);
      var k := SlotExists(c, d);
      Below(c.progeny[k], parts, d);
    }
  }

  /** A cell the shortcut is wrong about, whatever lies below. */
  lemma GapIsWrong(c: Cell, parts: seq<Particle>)
    requires c.WellFormed() && Geometry(c) && c.Tiled(Gas) && AllSorted(c, parts) && Gap(c, parts)
    ensures Wide(c) && SelfComplete(c, parts) && !Scan(c, parts)
  {
    hide Cell.WellFormed, Cell.Tiled, Geometry, Scan, Sorted;
    GeometryBelow(c);
    var k :| 0 <= k < 8 && c.progeny[k] == null;
    MissingIncomplete(c, parts, k);
  }

  /** Without a gap here or below the code's answer is the scan's. */
  lemma {:induction false} NoGapIsRight(c: Cell, parts: seq<Particle>)
    requires c.WellFormed() && Geometry(c) && c.Tiled(Gas) && AllSorted(c, parts)
    requires forall d :: d in c.subtree && d.WellFormed() && Geometry(d) ==> !Gap(d, parts)
    ensures Wide(c) && (SelfComplete(c, parts) <==> Scan(c, parts))
    decreases c.subtree
  {
    GeometryBelow(c);
    hide AllSorted, Cell.Tiled, Cell.WellFormed, Geometry, KidPlaced, Scan, Wide;
    if c.split {
      assert !Gap(c, parts);
      forall k | 0 <= k < 8 && c.progeny[k] != null
        ensures SelfComplete(c.progeny[k], parts) <==> Scan(c.progeny[k], parts)
        ensures Wide(c.progeny[k])
      {
        Below(c, parts, c.progeny[k]);
        NoGapIsRight(c.progeny[k], parts);
      }
      if forall k :: 0 <= k < 8 && c.progeny[k] != null ==> SelfComplete(c.progeny[k], parts) {
        assert forall k :: 0 <= k < 8 ==> c.progeny[k] != null;
        EightComplete(c, parts);
      }
    }
  }

  /** The shortcut agrees with the scan in every cell of the tree exactly when it is never taken over a
      missing progeny. */
  lemma ShortcutAgrees(c: Cell, parts: seq<Particle>)
    requires c.WellFormed() && Geometry(c) && c.Tiled(Gas) && AllSorted(c, parts)
    ensures (forall d :: d in c.subtree && d.WellFormed() && Geometry(d) && Wide(d) ==> (SelfComplete(d, parts) <==> Scan(d, parts)))
      <==> (forall d :: d in c.subtree && d.WellFormed() && Geometry(d) ==> !Gap(d, parts))
  {
    hide *;
    if forall d :: d in c.subtree && d.WellFormed() && Geometry(d) ==> !Gap(d, parts) {
      forall d | d in c.subtree && d.WellFormed() && Geometry(d) && Wide(d)
        ensures SelfComplete(d, parts) <==> Scan(d, parts)
      {
        Below(c, parts, d);
        NoGapIsRight(d, parts);
      }
    } else {
      var d :| d in c.subtree && d.WellFormed() && Geometry(d) && Gap(d, parts);
      Below(c, parts, d);
      GapIsWrong(d, parts);
    }
  }

  // ----- the code -----

  /** The flag of a cell says what the code would compute for it. */
  ghost predicate Right(c: Cell, parts: seq<Particle>)
    requires c.WellFormed() && Geometry(c)
    reads c`selfCompleteness, c.subtree`loc, c.subtree`width, c.subtree`windows
  {
    c.selfCompleteness == if SelfComplete(c, parts) then Complete else Incomplete
  }

  ghost predicate FlagsRight(c: Cell, parts: seq<Particle>)
    requires c.WellFormed() && Geometry(c)
    reads c.subtree`selfCompleteness, c.subtree`loc, c.subtree`width, c.subtree`windows
    decreases c.subtree
  {
    GeometryBelow(c);
    && (c.selfCompleteness == Invalidated || Right(c, parts))
    && forall k :: 0 <= k < 8 && c.progeny[k] != null ==> FlagsRight(c.progeny[k], parts)
  }

  function Number(b: Part): int {
    b.x + 3 * b.y + 9 * b.z
  }

  lemma NumberUnique(b: Part, o: Part)
    requires Proper(b) && Proper(o) && Number(b) == Number(o)
    ensures b == o
  {
  }

  lemma PartOfNumber(k: int) returns (b: Part)
    requires 0 <= k < 27
    ensures Proper(b) && Number(b) == k
  {
    var z := if k < 9 then 0 else if k < 18 then 1 else 2;
    var y := if k - 9 * z < 3 then 0 else if k - 9 * z < 6 then 1 else 2;
    b := Part(k - 9 * z - 3 * y, y, z);
  }

  lemma NumberInRange(b: Part)
    requires Proper(b)
    ensures 0 <= Number(b) < 27
  {
  }

  ghost predicate Seen(c: Cell, parts: seq<Particle>, from: int, to: int, b: Part)
    requires Wide(c) && 0 <= from <= to <= |parts|
    reads c`width, c`loc
  {
    exists i :: from <= i < to && InPart(c, parts[i], b)
  }

  /** The parts found so far, as a bit mask. */
  ghost predicate Found(c: Cell, parts: seq<Particle>, from: int, to: int, flags: seq<bool>)
    requires Wide(c)
    reads c`width, c`loc
  {
    && 0 <= from <= to <= |parts| && |flags| == 27
    && forall b :: Proper(b) ==> 0 <= Number(b) < 27 && (flags[Number(b)] <==> Seen(c, parts, from, to, b))
  }

  lemma FoundNone(c: Cell, parts: seq<Particle>, from: int, flags: seq<bool>)
    requires Wide(c) && 0 <= from <= |parts| && |flags| == 27 && forall k :: 0 <= k < 27 ==> !flags[k]
    ensures Found(c, parts, from, from, flags)
  {
    forall b | Proper(b) ensures 0 <= Number(b) < 27 { NumberInRange(b); }
  }

  lemma FoundNext(c: Cell, parts: seq<Particle>, from: int, i: int, flags: seq<bool>, b: Part)
    requires Wide(c) && Found(c, parts, from, i, flags) && i < |parts| && InPart(c, parts[i], b)
    ensures Proper(b) ==> 0 <= Number(b) < 27
    ensures Found(c, parts, from, i + 1, if Proper(b) then flags[Number(b) := true] else flags)
  {
    hide Third, Number, Proper, InPart;
    if Proper(b) { NumberInRange(b); }
    var after := if Proper(b) then flags[Number(b) := true] else flags;
    forall o | Proper(o) ensures 0 <= Number(o) < 27 && (after[Number(o)] <==> Seen(c, parts, from, i + 1, o)) {
      SeenNext(c, parts, from, i, b, o);
      if Proper(b) && Number(o) == Number(b) { NumberUnique(o, b); }
    }
  }

  lemma SeenNext(c: Cell, parts: seq<Particle>, from: int, i: int, b: Part, o: Part)
    requires Wide(c) && 0 <= from <= i < |parts| && InPart(c, parts[i], b)
    ensures Seen(c, parts, from, i + 1, o) <==> Seen(c, parts, from, i, o) || o == b
  {
    assert InPart(c, parts[i], o) <==> o == b;
    hide InPart;
  }

  /** The loop over the particles. */
  method ScanParticles(c: Cell, parts: array<Particle>) returns (all: bool)
    requires Wide(c) && 0 <= c.Win(Gas).start && c.End(Gas) <= parts.Length
    ensures all <==> Scan(c, parts[..])
  {
    hide Cell.Win, Number, Proper, Scan, Seen, Third;
    var w := c.Win(Gas);
    var from, to := w.start, w.start + w.count;
    assert to == c.End(Gas);
    assert c.width.x > 0.0 && c.width.y > 0.0 && c.width.z > 0.0;
    var flags, criterion := seq(27, _ => false), seq(27, _ => true);
    ghost var ps := parts[..];
    FoundNone(c, ps, from, flags);
    var i := from;
    while flags != criterion && i < to
      invariant from <= i <= to
      invariant Found(c, ps, from, i, flags)
    {
      var p := parts[i];
      var b := Part(Third(p.x.x, c.loc.x, c.width.x), Third(p.x.y, c.loc.y, c.width.y),
        Third(p.x.z, c.loc.z, c.width.z));
      assert InPart(c, ps[i], b);
      FoundNext(c, ps, from, i, flags, b);
      if Proper(b) {
        assert |flags| == 27;
        flags := flags[Number(b) := true];
      }
      i := i + 1;
    }
    Scanned(c, ps, from, i, to, flags, criterion);
    return flags == criterion;
  }

  lemma Scanned(c: Cell, parts: seq<Particle>, from: int, i: int, to: int, flags: seq<bool>, criterion: seq<bool>)
    requires Wide(c) && Found(c, parts, from, i, flags) && |criterion| == 27 && forall k :: 0 <= k < 27 ==> criterion[k]
    requires from == c.Win(Gas).start && to == c.End(Gas) && i <= to <= |parts| && (flags != criterion ==> i == to)
    ensures flags == criterion <==> Scan(c, parts)
  {
    hide InPart, Number, Proper;
    if flags == criterion {
      forall b | Proper(b) ensures PartHolds(c, parts, b) { assert Seen(c, parts, from, i, b); }
    } else {
      var k :| 0 <= k < 27 && !flags[k];
      var b := PartOfNumber(k);
      assert !Seen(c, parts, from, to, b);
    }
  }

  lemma FlagsRightAt(c: Cell, parts: seq<Particle>)
    requires c.WellFormed() && Geometry(c) && FlagsRight(c, parts)
    ensures c.selfCompleteness == Invalidated || Right(c, parts)
    ensures forall k :: 0 <= k < 8 && c.progeny[k] != null ==>
      c.progeny[k].WellFormed() && Geometry(c.progeny[k]) && FlagsRight(c.progeny[k], parts)
  {
    GeometryBelow(c);
    hide Right, Geometry;
  }

  lemma FlagsRightFrom(c: Cell, parts: seq<Particle>)
    requires c.WellFormed() && Geometry(c) && Right(c, parts)
    requires forall k :: 0 <= k < 8 && c.progeny[k] != null ==>
      c.progeny[k].WellFormed() && Geometry(c.progeny[k]) && FlagsRight(c.progeny[k], parts)
    ensures FlagsRight(c, parts)
  {
    GeometryBelow(c);
    hide Right, Geometry;
  }

  lemma InsideArray(c: Cell, parts: array<Particle>)
    requires c.WellFormed() && Geometry(c) && c.Tiled(Gas) && 0 <= c.Win(Gas).start && c.End(Gas) <= parts.Length
    ensures |c.progeny| == 8 && c in c.subtree && Wide(c)
    ensures forall k :: 0 <= k < 8 && c.progeny[k] != null ==>
      c.progeny[k].WellFormed() && Geometry(c.progeny[k]) && c.progeny[k].Tiled(Gas)
        && 0 <= c.progeny[k].Win(Gas).start && c.progeny[k].End(Gas) <= parts.Length
      && c.progeny[k].subtree < c.subtree && c !in c.progeny[k].subtree
    ensures forall j, k :: 0 <= j < 8 && 0 <= k < 8 && j != k && c.progeny[j] != null && c.progeny[k] != null ==>
      c.progeny[j].subtree !! c.progeny[k].subtree
  {
    GeometryBelow(c);
    KidsProper(c);
    KidsDisjoint(c);
    hide Geometry, Wide, KidPlaced, Cell.KidStart;
    if c.split {
      forall k | 0 <= k < 8 && c.progeny[k] != null
        ensures c.progeny[k].Tiled(Gas) && 0 <= c.progeny[k].Win(Gas).start && c.progeny[k].End(Gas) <= parts.Length
      {
        WindowInside(c, Gas, c.progeny[k]);
      }
    }
  }

  /** Progeny that have been asked, and those that have not. */
  ghost predicate KidsAnswered(c: Cell, parts: seq<Particle>, i: int, allComplete: bool, force: bool)
    requires c.WellFormed() && Geometry(c)
    reads c.subtree`selfCompleteness, c.subtree`loc, c.subtree`width, c.subtree`windows
  {
    GeometryBelow(c);
    && (allComplete ==> forall k :: 0 <= k < i && k < 8 && c.progeny[k] != null ==> SelfComplete(c.progeny[k], parts))
    && (!allComplete ==> exists k :: 0 <= k < 8 && c.progeny[k] != null && !SelfComplete(c.progeny[k], parts))
    && (!force ==> forall k :: 0 <= k < 8 && c.progeny[k] != null ==> FlagsRight(c.progeny[k], parts))
  }

  /** cell_grid_update_self_completeness.  With `force` the flags found in the tree do not matter; without
      it they are taken for what they say.  The search stops at the first incomplete progeny, so the flags
      of those after it stay as they were. */
  method UpdateSelfCompleteness(c: Cell, parts: array<Particle>, force: bool)
    requires c.WellFormed() && Geometry(c) && c.Tiled(Gas) && 0 <= c.Win(Gas).start && c.End(Gas) <= parts.Length
    requires !force ==> FlagsRight(c, parts[..])
    modifies c.subtree`selfCompleteness, c.subtree`complete
    ensures Right(c, parts[..])
    ensures !force ==> FlagsRight(c, parts[..])
    ensures force || old(c.selfCompleteness) == Invalidated ==> c.complete == (c.selfCompleteness == Complete)
    ensures !force && old(c.selfCompleteness) != Invalidated ==>
      c.selfCompleteness == old(c.selfCompleteness) && c.complete == old(c.complete)
    decreases c.subtree
  {
    hide Cell.End, Cell.Tiled, Cell.WellFormed, Cell.Win, FlagsRight, Geometry, KidPlaced, Scan, Wide;
    ghost var ps := parts[..];
    InsideArray(c, parts);
    if !force {
      FlagsRightAt(c, ps);
      if c.selfCompleteness != Invalidated {
        return;
      }
    }
    if c.split {
      var allComplete := AskProgeny(c, parts, force);
      if allComplete {
        c.selfCompleteness := Complete;
        c.complete := true;
        assert SelfComplete(c, ps);
        assert Right(c, ps);
        if !force { FlagsRightFrom(c, ps); }
        return;
      }
    }
    var all := ScanParticles(c, parts);
    if all {
      c.selfCompleteness := Complete;
      c.complete := true;
    } else {
      c.selfCompleteness := Incomplete;
      c.complete := false;
    }
    assert SelfComplete(c, ps) <==> Scan(c, ps);
    assert Right(c, ps);
    if !force { FlagsRightFrom(c, ps); }
  }

  /** The loop over the progeny. */
  method AskProgeny(c: Cell, parts: array<Particle>, force: bool) returns (allComplete: bool)
    requires c.WellFormed() && Geometry(c) && c.Tiled(Gas) && c.split && 0 <= c.Win(Gas).start
    requires c.End(Gas) <= parts.Length
    requires !force ==> FlagsRight(c, parts[..])
    modifies c.subtree`selfCompleteness, c.subtree`complete
    ensures c.selfCompleteness == old(c.selfCompleteness) && c.complete == old(c.complete)
    ensures KidsAnswered(c, parts[..], 8, allComplete, force)
    decreases c.subtree, 0
  {
    hide Cell.End, Cell.Tiled, Cell.WellFormed, Cell.Win, FlagsRight, Geometry, KidPlaced, SelfComplete, Wide;
    ghost var ps := parts[..];
    InsideArray(c, parts);
    allComplete := true;
    if !force { FlagsRightAt(c, ps); }
    assert KidsAnswered(c, ps, 0, true, force);
    var i := 0;
    while allComplete && i < 8
      invariant 0 <= i <= 8 && c.selfCompleteness == old(c.selfCompleteness) && c.complete == old(c.complete)
      invariant KidsAnswered(c, ps, i, allComplete, force)
      decreases 8 - i
    {
      if c.progeny[i] != null {
        assert !force ==> forall k :: 0 <= k < 8 && c.progeny[k] != null ==> FlagsRight(c.progeny[k], ps);
        UpdateSelfCompleteness(c.progeny[i], parts, force);
        assert SelfComplete(c.progeny[i], ps) <==> c.progeny[i].selfCompleteness == Complete;
        allComplete := allComplete && c.progeny[i].selfCompleteness == Complete;
      }
      assert KidsAnswered(c, ps, i + 1, allComplete, force);
      i := i + 1;
    }
    assert KidsAnswered(c, ps, 8, allComplete, force);
  }
}
