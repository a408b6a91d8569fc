/**
 cell_set_grid_construction_level: on every way from the top of a tree to a leaf exactly one cell carries
 the Voronoi mesh.
 */
module ConstructionLevel {
  import opened Octree
  import opened Particles

  /** space_grid_split_threshold and the test of a cell above the construction level. */
  ghost predicate Splittable(c: Cell, threshold: int)
    reads c`windows, c.Kids()`complete
  {
    c.split && c.Win(Gas).count > threshold && forall k :: 0 <= k < |c.progeny| && c.progeny[k] != null ==>
      c.progeny[k].complete
  }

  /** Everything below `c` is told where the mesh is. */
  ghost predicate AllBelow(c: Cell, level: Cell)
    reads c.subtree`constructionLevel
  {
    forall d :: d in c.subtree ==> d.constructionLevel == level
  }

  /** What the code writes into the tree: null above the level, the cell of the level on and below it. */
  ghost predicate LevelSet(c: Cell, top: bool, threshold: int)
    requires c.WellFormed()
    reads c.subtree`constructionLevel, c.subtree`complete, c.subtree`windows
    decreases c.subtree
  {
    KidsProper(c);
    if Splittable(c, threshold) && (top ==> c.complete) then
      && c.constructionLevel == null
      && forall k :: 0 <= k < 8 && c.progeny[k] != null ==> LevelSet(c.progeny[k], false, threshold)
    else AllBelow(c, c)
  }

  /** cell_set_grid_construction_level below the construction level. */
  method SetBelow(c: Cell, level: Cell)
    requires c.WellFormed()
    modifies c.subtree`constructionLevel
    ensures AllBelow(c, level)
    decreases c.subtree
  {
    KidsProper(c);
    KidsDisjoint(c);
    hide Cell.WellFormed;
    c.constructionLevel := level;
    if c.split {
      for k := 0 to 8
        invariant c.constructionLevel == level
        invariant forall j :: 0 <= j < k && c.progeny[j] != null ==> AllBelow(c.progeny[j], level)
      {
        if c.progeny[k] != null {
          SetBelow(c.progeny[k], level);
        }
      }
    }
    forall d | d in c.subtree ensures d.constructionLevel == level {
      if d != c { var k := SlotExists(c, d); }
    }
  }

  /** cell_set_grid_construction_level above it.  An incomplete cell found here would be an error: only the
      top-level cell can be one, and that is where the level is then set. */
  method SetLevel(c: Cell, top: bool, threshold: int)
    requires c.WellFormed() && (!top ==> c.complete)
    modifies c.subtree`constructionLevel
    ensures LevelSet(c, top, threshold)
    ensures |c.progeny| == 8
    ensures c.constructionLevel == null <==>
      c.split && c.windows.hydro.count > threshold && (top ==> c.complete)
      && forall k :: 0 <= k < 8 && c.progeny[k] != null ==> c.progeny[k].complete
    ensures c.constructionLevel != null ==> c.constructionLevel == c
    decreases c.subtree
  {
    KidsProper(c);
    KidsDisjoint(c);
    hide Cell.WellFormed;
    var splittable := c.split && c.Win(Gas).count > threshold;
    if !c.complete {
      if top {
        splittable := false;
      } else {
        assert false;
      }
    }
    var k := 0;
    ghost var before := splittable;
    while splittable && k < 8
      invariant 0 <= k <= 8
      invariant splittable <==> before && forall j :: 0 <= j < k && c.progeny[j] != null ==> c.progeny[j].complete
      decreases 8 - k
    {
      if c.progeny[k] != null {
        splittable := splittable && c.progeny[k].complete;
      }
      k := k + 1;
    }
    assert splittable <==> Splittable(c, threshold) && (top ==> c.complete);
    if !splittable {
      SetBelow(c, c);
      return;
    }
    c.constructionLevel := null;
    for k := 0 to 8
      invariant c.constructionLevel == null
      invariant forall j :: 0 <= j < k && c.progeny[j] != null ==> LevelSet(c.progeny[j], false, threshold)
    {
      if c.progeny[k] != null {
        SetLevel(c.progeny[k], false, threshold);
      }
    }
  }

  // ----- what this means for a leaf -----

  /** The cells from `c` down to `leaf` that carry a mesh. */
  ghost function Carriers(c: Cell, leaf: Cell): set<Cell>
    reads c.subtree, c.subtree`constructionLevel
  {
    set d | d in c.subtree && leaf in d.subtree && d.constructionLevel == d
  }

  /** Exactly one cell on the way to each leaf carries a mesh, and the leaf knows it. */
  lemma {:induction false} OneCarrier(c: Cell, top: bool, threshold: int, leaf: Cell)
    requires c.WellFormed() && LevelSet(c, top, threshold) && leaf in c.subtree && !leaf.split
    ensures leaf.constructionLevel != null && Carriers(c, leaf) == {leaf.constructionLevel}
    ensures leaf.constructionLevel in c.subtree && leaf in leaf.constructionLevel.subtree
    decreases c.subtree
  {
    KidsProper(c);
    hide Cell.WellFormed;
    if Splittable(c, threshold) && (top ==> c.complete) {
      var k := SlotOf(c, leaf);
      var kid := c.progeny[k];
      OneCarrier(kid, false, threshold, leaf);
      KidsProper(c);
      assert kid.subtree <= c.subtree;
      forall d | d in c.subtree && leaf in d.subtree && d.constructionLevel == d ensures d in Carriers(kid, leaf) {}
    } else {
      assert leaf.constructionLevel == c && c.constructionLevel == c;
    }
  }

  /** Above the carrier the pointer is null, on it and below it is the carrier. */
  lemma {:induction false} PointerTells(c: Cell, top: bool, threshold: int, leaf: Cell, d: Cell)
    requires c.WellFormed() && LevelSet(c, top, threshold) && leaf in c.subtree && !leaf.split && d in c.subtree
    requires leaf in d.subtree
    ensures leaf.constructionLevel != null && leaf.constructionLevel in c.subtree
    ensures if d in leaf.constructionLevel.subtree then d.constructionLevel == leaf.constructionLevel
      else d.constructionLevel == null
    decreases c.subtree
  {
    KidsProper(c);
    hide Cell.WellFormed;
    OneCarrier(c, top, threshold, leaf);
    if Splittable(c, threshold) && (top ==> c.complete) {
      var k := SlotOf(c, leaf);
      if d == c {
        OneCarrier(c.progeny[k], false, threshold, leaf);
        NoCycle(c, leaf.constructionLevel);
      } else {
        PointerTells(c.progeny[k], false, threshold, leaf, d);
      }
    }
  }
}
