/**
 The numbering of the progeny, which cell_split, the mesh, the sub-pair table and the unpacking of foreign cells each
 spell out for themselves: they all mean the same eight boxes.
 */
module Octants {
  import opened Octree
  import opened Particles
  import CellSplit
  import MeshCompleteness
  import ParticlePhase
  import Packing
  import SplitTable

  /** The receiver of a foreign tree puts progeny `k` where cell_split sends the particles of octant `k`. */
  lemma SameCorners(loc: Vec, width: Vec, k: int)
    requires 0 <= k < 8
    ensures Packing.Eighth(k, loc, Packing.Half(width)) == CellSplit.Corner(loc, width, k)
    ensures Packing.Half(width) == width.Times(0.5)
  {
  }

  /** So does the mesh, and the table of sub-pairs counts the progeny in the same order. */
  lemma SameBits(loc: Vec, width: Vec, k: int)
    requires 0 <= k < 8
    ensures CellSplit.Corner(loc, width, k) == Vec(
      loc.x + MeshCompleteness.Bit(k, 0) as real * width.Times(0.5).x,
      loc.y + MeshCompleteness.Bit(k, 1) as real * width.Times(0.5).y,
      loc.z + MeshCompleteness.Bit(k, 2) as real * width.Times(0.5).z)
    ensures SplitTable.BitX(k) == MeshCompleteness.Bit(k, 0)
    ensures SplitTable.BitY(k) == MeshCompleteness.Bit(k, 1)
    ensures SplitTable.BitZ(k) == MeshCompleteness.Bit(k, 2)
  {
  }

  /** What cell_split leaves is what the mesh relies on. */
  lemma SplitIsSorted(c: Cell, parts: seq<Particle>)
    requires CellSplit.Full(c) && CellSplit.LieThere(c, Gas, ParticlePhase.PlacesOf(parts))
    ensures MeshCompleteness.Sorted(c, parts)
  {
    var xs := ParticlePhase.PlacesOf(parts);
    forall k, i | 0 <= k < 8 && c.progeny[k].Win(Gas).start <= i < c.progeny[k].End(Gas) && 0 <= i < |parts|
      ensures MeshCompleteness.InOctant(c, k, parts[i])
    {
      assert CellSplit.LiesAt(xs, i, c.loc, c.width, k, Gas);
    }
  }

  /** A gas particle of the cell that is in the window of progeny `k` is inside that progeny. */
  lemma InsideOwnProgeny(c: Cell, parts: seq<Particle>, k: int, i: int)
    requires CellSplit.Full(c) && CellSplit.LieThere(c, Gas, ParticlePhase.PlacesOf(parts))
    requires 0 <= k < 8 && MeshCompleteness.KidPlaced(c, k, c.progeny[k])
    requires c.progeny[k].Win(Gas).start <= i < c.progeny[k].End(Gas) && 0 <= i < |parts|
    requires Inside(c, parts[i].x)
    ensures Inside(c.progeny[k], parts[i].x)
  {
    assert CellSplit.LiesAt(ParticlePhase.PlacesOf(parts), i, c.loc, c.width, k, Gas);
    CellSplit.OctantBox(parts[i].x, c.loc, c.width, k);
    SameBits(c.loc, c.width, k);
  }

  /** The box of a cell. */
  predicate Inside(c: Cell, x: Vec)
    reads c`loc, c`width
  {
    && c.loc.x <= x.x < c.loc.x + c.width.x
    && c.loc.y <= x.y < c.loc.y + c.width.y
    && c.loc.z <= x.z < c.loc.z + c.width.z
  }

  /** For all other kinds, and for gparts, it is inside or on its upper faces, and on a lower face only where that is a
      face of the cell itself. */
  lemma InsideOrOnTop(c: Cell, s: Species, xs: seq<Vec>, k: int, i: int)
    requires s != Gas && CellSplit.Full(c) && CellSplit.LieThere(c, s, xs)
    requires 0 <= k < 8 && MeshCompleteness.KidPlaced(c, k, c.progeny[k])
    requires c.progeny[k].Win(s).start <= i < c.progeny[k].End(s) && 0 <= i < |xs| && Inside(c, xs[i])
    ensures var low, size := c.progeny[k].loc, c.progeny[k].width;
      && low.x <= xs[i].x <= low.x + size.x && (xs[i].x == low.x ==> low.x == c.loc.x)
      && low.y <= xs[i].y <= low.y + size.y && (xs[i].y == low.y ==> low.y == c.loc.y)
      && low.z <= xs[i].z <= low.z + size.z && (xs[i].z == low.z ==> low.z == c.loc.z)
  {
    assert CellSplit.LiesAt(xs, i, c.loc, c.width, k, s);
    CellSplit.OctantBox(xs[i], c.loc, c.width, k);
    SameBits(c.loc, c.width, k);
  }
}
