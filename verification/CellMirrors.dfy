/**
 What the exchanges of `Mirrors` mean for the cells of the octree: the star windows after any number of insertions,
 and the pointers to the construction level.
 */
module CellMirrors {
  import opened Octree
  import opened Packing
  import opened Mirrors
  import opened WindowShift
  import opened ConstructionLevel

  /** The tree has the cells below `c`. */
  ghost predicate SameKids<D>(c: Cell, t: Tree<D>) {
    |c.progeny| == 8 == |t.progeny| && forall k :: 0 <= k < 8 ==> (c.progeny[k] != null <==> t.progeny[k].Some?)
  }

  // ----- star windows -----

  /** `t` shows the star windows of the cells in `w`, with where they began in `w0`, at the rebuild. */
  ghost predicate Shows(c: Cell, w: Snapshot, w0: Snapshot, t: Tree<StarCell>)
    decreases t
  {
    && SameKids(c, t) && c in w && c in w0
    && t.data == StarCell(w[c].stars.start, w[c].stars.count, w0[c].stars.start)
    && forall k :: 0 <= k < 8 && t.progeny[k].Some? ==> Shows(c.progeny[k], w, w0, t.progeny[k].cell)
  }

  lemma {:induction false} ShownOctal(c: Cell, w: Snapshot, w0: Snapshot, t: Tree<StarCell>)
    requires Shows(c, w, w0, t)
    ensures Octal(t)
    decreases t
  {
    forall k | 0 <= k < 8 && t.progeny[k].Some?
      ensures Octal(t.progeny[k].cell)
    {
      ShownOctal(c.progeny[k], w, w0, t.progeny[k].cell);
    }
  }

  /** There is such a tree. */
  lemma {:induction false} CanShow(c: Cell, w: Snapshot, w0: Snapshot) returns (t: Tree<StarCell>)
    requires c.WellFormed() && Known(c, w) && Known(c, w0)
    ensures Shows(c, w, w0, t)
    decreases c.subtree
  {
    KidsProper(c);
    hide Cell.WellFormed;
    var kids: seq<Kid<StarCell>> := [];
    while |kids| < 8
      invariant |kids| <= 8
      invariant forall k :: 0 <= k < |kids| ==>
        (c.progeny[k] != null <==> kids[k].Some?) && (kids[k].Some? ==> Shows(c.progeny[k], w, w0, kids[k].cell))
      decreases 8 - |kids|
    {
      if c.progeny[|kids|] != null {
        var u := CanShow(c.progeny[|kids|], w, w0);
        kids := kids + [Some(u)];
      } else {
        kids := kids + [None];
      }
    }
    t := Tree(StarCell(w[c].stars.start, w[c].stars.count, w0[c].stars.start), kids);
  }

  lemma {:induction false} ShownSince(c: Cell, w: Snapshot, w0: Snapshot, t0: Tree<StarCell>, t: Tree<StarCell>)
    requires Shows(c, w0, w0, t0) && Shows(c, w, w0, t) && Octal(t0)
    ensures SameShape(t0, t) && Since(t0, t)
    decreases t0
  {
    forall k | 0 <= k < 8 && t0.progeny[k].Some?
      ensures SameShape(t0.progeny[k].cell, t.progeny[k].cell) && Since(t0.progeny[k].cell, t.progeny[k].cell)
    {
      ShownSince(c.progeny[k], w, w0, t0.progeny[k].cell, t.progeny[k].cell);
    }
  }

  lemma {:induction false} ShownUpTo(c: Cell, w: Snapshot, t: Tree<StarCell>, k: nat)
    requires c.WellFormed() && Known(c, w) && k <= 8 && Octal(t) && Shows(c, w, w, t)
    ensures KidStart(c, Stars, w, k) == w[c].stars.start + CountUpTo(t, k)
  {
    KidsProper(c);
    hide Cell.WellFormed;
    if k > 0 {
      ShownUpTo(c, w, t, k - 1);
      assert t.progeny[k - 1].Some? ==> Shows(c.progeny[k - 1], w, w, t.progeny[k - 1].cell);
    }
  }

  /** Tiled windows are in order. */
  lemma {:induction false} TiledInOrder(c: Cell, w: Snapshot, t: Tree<StarCell>)
    requires c.WellFormed() && Known(c, w) && Tiled(c, Stars, w) && Octal(t) && Shows(c, w, w, t)
    ensures InOrder(t)
    decreases t
  {
    KidsProper(c);
    forall k | 0 <= k < 8 && t.progeny[k].Some?
      ensures t.progeny[k].cell.data.rebuild == t.data.rebuild + CountUpTo(t, k) && InOrder(t.progeny[k].cell)
    {
      assert c.progeny[k] != null && Tiled(c.progeny[k], Stars, w);
      assert Shows(c.progeny[k], w, w, t.progeny[k].cell);
      KidShown(c, w, t, k);
      TiledInOrder(c.progeny[k], w, t.progeny[k].cell);
    }
  }

  lemma KidShown(c: Cell, w: Snapshot, t: Tree<StarCell>, k: nat)
    requires c.WellFormed() && Known(c, w) && Tiled(c, Stars, w) && Octal(t) && Shows(c, w, w, t) && k < 8
    requires t.progeny[k].Some?
    ensures t.progeny[k].cell.data.rebuild == t.data.rebuild + CountUpTo(t, k)
  {
    KidsProper(c);
    ShownUpTo(c, w, t, k);
    assert Shows(c.progeny[k], w, w, t.progeny[k].cell);
    hide Cell.WellFormed, KidStart, CountUpTo;
  }

  /** What is sent for a cell after a sequence of star insertions: the delta is the number of insertions into leaves
      before the cell, so it is never negative, and zero for the top-level cell. */
  lemma DeltasSent(top: Cell, leaves: seq<Cell>, snaps: seq<Snapshot>, d: Cell, t: Tree<StarCell>)
    requires top.WellFormed() && Insertions(top, Stars, leaves, snaps) && d in top.subtree
    requires Shows(d, snaps[|leaves|], snaps[0], t)
    ensures ToSend(t.data) == SfStars(Moves(top, leaves, d, Up), snaps[0][d].stars.count + Moves(top, leaves, d, Grow))
    ensures d == top ==> Moves(top, leaves, d, Up) == 0
  {
    hide Cell.WellFormed, MoveOf, Insertions;
    DeltasCount(top, Stars, leaves, snaps, d);
  }

  /** Linked at the rebuild and updated at any later time, the mirror of a top-level cell has in every cell the
      stars that the windows of the original hold then. */
  lemma ShownMirrored(top: Cell, w0: Snapshot, w: Snapshot, t0: Tree<StarCell>, t: Tree<StarCell>, u: Tree<StarCell>,
        at: int)
    requires top.WellFormed() && Known(top, w0) && Tiled(top, Stars, w0) && Octal(t0)
    requires Shows(top, w0, w0, t0) && Shows(top, w, w0, t) && LinkedTo(t0, u, at)
    ensures top in w0 && Octal(t) && Octal(u) && Size(u) == Size(t)
    ensures SameShape(t, Filled(u, Preorder(t, Field(ToSend)), OnReceipt))
    ensures Mirrored(t, Filled(u, Preorder(t, Field(ToSend)), OnReceipt), at - w0[top].stars.start)
  {
    hide *;
    ShownOctal(top, w, w0, t);
    ShownSince(top, w, w0, t0, t);
    TiledInOrder(top, w0, t0);
    ShownTop(top, w0, t0);
    MirrorFollows(t0, t, u, at);
  }

  /** After any sequence of star insertions: whatever mirror was linked at the rebuild follows them. */
  lemma InsertionsArrive(top: Cell, leaves: seq<Cell>, snaps: seq<Snapshot>)
      returns (t0: Tree<StarCell>, t: Tree<StarCell>)
    requires top.WellFormed() && Insertions(top, Stars, leaves, snaps)
    requires Known(top, snaps[0]) && Known(top, snaps[|leaves|]) && Tiled(top, Stars, snaps[0])
    ensures Shows(top, snaps[0], snaps[0], t0) && Shows(top, snaps[|leaves|], snaps[0], t) && Octal(t0) && Octal(t)
    ensures ToSend(t.data) == SfStars(0, snaps[0][top].stars.count + Moves(top, leaves, top, Grow))
    ensures forall u, at :: LinkedTo(t0, u, at) ==> Arrives(t, u, at - snaps[0][top].stars.start)
  {
    hide Cell.WellFormed, Shifted, Tiled, Shows, Octal, LinkedTo, Arrives, ToSend, Moves;
    KidsProper(top);
    t0 := CanShow(top, snaps[0], snaps[0]);
    t := CanShow(top, snaps[|leaves|], snaps[0]);
    ShownOctal(top, snaps[0], snaps[0], t0);
    ShownOctal(top, snaps[|leaves|], snaps[0], t);
    DeltasSent(top, leaves, snaps, top, t);
    forall u, at | LinkedTo(t0, u, at) ensures Arrives(t, u, at - snaps[0][top].stars.start) {
      ShownMirrored(top, snaps[0], snaps[|leaves|], t0, t, u, at);
      ArrivesSo(t, u, at - snaps[0][top].stars.start);
    }
  }

  /** What the receiver makes of `u` mirrors `t`. */
  ghost predicate Arrives(t: Tree<StarCell>, u: Tree<StarCell>, d: int)
    requires Octal(t)
  {
    && Octal(u) && Size(u) == Size(t) && SameShape(t, Filled(u, Preorder(t, Field(ToSend)), OnReceipt))
    && Mirrored(t, Filled(u, Preorder(t, Field(ToSend)), OnReceipt), d)
  }

  lemma ArrivesSo(t: Tree<StarCell>, u: Tree<StarCell>, d: int)
    requires Octal(t) && Octal(u) && Size(u) == Size(t)
    requires SameShape(t, Filled(u, Preorder(t, Field(ToSend)), OnReceipt))
    requires Mirrored(t, Filled(u, Preorder(t, Field(ToSend)), OnReceipt), d)
    ensures Arrives(t, u, d)
  {
    hide Octal, SameShape, Filled, Preorder, Mirrored, Size;
  }

  lemma ShownTop(c: Cell, w0: Snapshot, t0: Tree<StarCell>)
    requires Shows(c, w0, w0, t0)
    ensures c in w0 && t0.data.rebuild == w0[c].stars.start
  {
  }

  // ----- construction levels -----

  /** `t` shows the cells as the receiver can know them: depths, and pointers told by depth. */
  ghost predicate ShowsLevels(c: Cell, t: Tree<GridCell>, root: Cell)
    reads c`constructionLevel, c`depth, c.subtree`constructionLevel, c.subtree`depth, root.subtree`depth
    decreases t
  {
    && SameKids(c, t) && c in c.subtree && t.data.depth == c.depth
    && (c.constructionLevel == null ==> t.data.level == Null)
    && (c.constructionLevel != null ==> c.constructionLevel in root.subtree && t.data.level == ToDepth(c.constructionLevel.depth))
    && forall k :: 0 <= k < 8 && t.progeny[k].Some? ==>
         c.progeny[k] in c.subtree && c.progeny[k].subtree <= c.subtree
           && ShowsLevels(c.progeny[k], t.progeny[k].cell, root)
  }

  lemma {:induction false} LevelsOctal(c: Cell, t: Tree<GridCell>, root: Cell)
    requires ShowsLevels(c, t, root)
    ensures Octal(t)
    decreases t
  {
    forall k | 0 <= k < 8 && t.progeny[k].Some?
      ensures Octal(t.progeny[k].cell)
    {
      LevelsOctal(c.progeny[k], t.progeny[k].cell, root);
    }
  }

  lemma {:induction false} BelowLevelled(c: Cell, level: Cell, root: Cell, t: Tree<GridCell>)
    requires c.WellFormed() && Leveled(root) && c.subtree <= root.subtree && AllBelow(c, level)
    requires level.depth < c.depth && ShowsLevels(c, t, root) && Octal(t)
    ensures Levelled(t, ToDepth(level.depth))
    decreases t
  {
    KidsProper(c);
    hide Cell.WellFormed;
    forall k | 0 <= k < 8 && t.progeny[k].Some?
      ensures t.progeny[k].cell.data.depth == t.data.depth + 1 && Levelled(t.progeny[k].cell, t.data.level)
    {
      assert ShowsLevels(c.progeny[k], t.progeny[k].cell, root);
      BelowLevelled(c.progeny[k], level, root, t.progeny[k].cell);
    }
  }

  /** The pointers that cell_set_grid_construction_level sets are pointers the receiver can recover. */
  lemma {:induction false} SetIsLevelled(c: Cell, top: bool, threshold: int, root: Cell, t: Tree<GridCell>)
    requires c.WellFormed() && Leveled(root) && c.subtree <= root.subtree && LevelSet(c, top, threshold)
    requires ShowsLevels(c, t, root) && Octal(t)
    ensures Levelled(t, Null)
    decreases t
  {
    KidsProper(c);
    hide Cell.WellFormed;
    var above := Splittable(c, threshold) && (top ==> c.complete);
    forall k | 0 <= k < 8 && t.progeny[k].Some?
      ensures t.progeny[k].cell.data.depth == t.data.depth + 1 && Levelled(t.progeny[k].cell, t.data.level)
    {
      assert ShowsLevels(c.progeny[k], t.progeny[k].cell, root);
      if above {
        SetIsLevelled(c.progeny[k], false, threshold, root, t.progeny[k].cell);
      } else {
        assert AllBelow(c.progeny[k], c);
        BelowLevelled(c.progeny[k], c, root, t.progeny[k].cell);
      }
    }
  }

  /** The receiver recovers every pointer that was set, from the labels alone. */
  lemma LevelsRecovered(c: Cell, threshold: int, t: Tree<GridCell>)
    requires c.WellFormed() && Leveled(c) && LevelSet(c, true, threshold) && ShowsLevels(c, t, c)
    ensures Octal(t) && Levelled(t, Null)
  {
    hide *;
    LevelsOctal(c, t, c);
    SetIsLevelled(c, true, threshold, c, t);
  }
}
