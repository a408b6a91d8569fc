/**
 What two ranks agree about: the star windows of a foreign tree (cell_link_sparts, cell_pack_sf_counts,
 cell_unpack_sf_counts) and the pointers to the construction level (cell_pack_grid_extra and back).
 */
module Mirrors {
  import opened Packing

  // ----- star counts -----

  /** The star window of a cell, and where it began at the last rebuild. */
  datatype StarCell = StarCell(start: int, count: nat, rebuild: int)

  /** struct pcell_sf_stars */
  datatype SfStars = SfStars(delta: int, count: nat)

  function ToSend(d: StarCell): SfStars {
    SfStars(d.start - d.rebuild, d.count)
  }

  function OnReceipt(d: StarCell, e: SfStars): StarCell {
    StarCell(d.rebuild + e.delta, e.count, d.rebuild)
  }

  /** Stars in the first `k` progeny. */
  ghost function CountUpTo(t: Tree<StarCell>, k: nat): nat
    requires Octal(t) && k <= 8
    decreases k
  {
    if k == 0 then 0 else CountUpTo(t, k - 1) + if t.progeny[k - 1].Some? then t.progeny[k - 1].cell.data.count else 0
  }

  /** As the rebuild leaves it: every progeny begins where the one before it ends. */
  ghost predicate InOrder(t: Tree<StarCell>)
    requires Octal(t)
    decreases t
  {
    && t.data.start == t.data.rebuild
    && forall k :: 0 <= k < 8 && t.progeny[k].Some? ==>
      t.progeny[k].cell.data.rebuild == t.data.rebuild + CountUpTo(t, k) && InOrder(t.progeny[k].cell)
  }

  /** The two trees have the same counts. */
  ghost predicate SameCounts(t: Tree<StarCell>, u: Tree<StarCell>)
    requires Octal(t) && SameShape(t, u)
    decreases t
  {
    t.data.count == u.data.count
    && forall k :: 0 <= k < 8 && t.progeny[k].Some? ==> SameCounts(t.progeny[k].cell, u.progeny[k].cell)
  }

  /** What cell_link_sparts makes of the tree: the same cells and counts, with windows from `at` on. */
  ghost predicate LinkedTo(t: Tree<StarCell>, u: Tree<StarCell>, at: int)
    requires Octal(t)
  {
    SameShape(t, u) && SameCounts(t, u) && Octal(u) && InOrder(u) && u.data.rebuild == at
  }

  lemma {:induction false} SameCountsUpTo(t: Tree<StarCell>, u: Tree<StarCell>, k: nat)
    requires Octal(t) && SameShape(t, u) && Octal(u) && k <= 8
    requires forall j :: 0 <= j < k && t.progeny[j].Some? ==>
      t.progeny[j].cell.data.count == u.progeny[j].cell.data.count
    ensures CountUpTo(t, k) == CountUpTo(u, k)
    decreases k
  {
    if k > 0 { SameCountsUpTo(t, u, k - 1); }
  }

  /** Two trees in order with the same counts differ by where they begin. */
  ghost predicate Apart(t: Tree<StarCell>, u: Tree<StarCell>, d: int)
    requires Octal(t) && SameShape(t, u)
    decreases t
  {
    u.data.rebuild == t.data.rebuild + d
    && forall k :: 0 <= k < 8 && t.progeny[k].Some? ==> Apart(t.progeny[k].cell, u.progeny[k].cell, d)
  }

  lemma {:induction false} InOrderApart(t: Tree<StarCell>, u: Tree<StarCell>)
    requires Octal(t) && SameShape(t, u) && Octal(u) && SameCounts(t, u) && InOrder(t) && InOrder(u)
    ensures Apart(t, u, u.data.rebuild - t.data.rebuild)
    decreases t
  {
    forall k | 0 <= k < 8 && t.progeny[k].Some?
      ensures Apart(t.progeny[k].cell, u.progeny[k].cell, u.data.rebuild - t.data.rebuild)
    {
      SameCountsUpTo(t, u, k);
      InOrderApart(t.progeny[k].cell, u.progeny[k].cell);
    }
  }

  /** cell_link_sparts */
  method LinkSparts(t: Tree<StarCell>, at: int) returns (u: Tree<StarCell>, count: nat)
    requires Octal(t)
    ensures LinkedTo(t, u, at) && count == t.data.count
    decreases t
  {
    var progeny: seq<Kid<StarCell>> := [];
    var offset := 0;
    for k := 0 to 8
      invariant |progeny| == k && offset == CountUpTo(t, k)
      invariant forall j :: 0 <= j < k ==> (progeny[j].Some? <==> t.progeny[j].Some?)
      invariant forall j :: 0 <= j < k && t.progeny[j].Some? ==>
        LinkedTo(t.progeny[j].cell, progeny[j].cell, at + CountUpTo(t, j))
    {
      hide LinkedTo;
      if t.progeny[k].Some? {
        var v, n := LinkSparts(t.progeny[k].cell, at + offset);
        progeny := progeny + [Some(v)];
        offset := offset + n;
      } else {
        progeny := progeny + [None];
      }
    }
    u := Tree(StarCell(at, t.data.count, at), progeny);
    LinkedUp(t, u, at);
    return u, t.data.count;
  }

  lemma LinkedUp(t: Tree<StarCell>, u: Tree<StarCell>, at: int)
    requires Octal(t) && |u.progeny| == 8 && u.data == StarCell(at, t.data.count, at)
    requires forall j :: 0 <= j < 8 ==> (u.progeny[j].Some? <==> t.progeny[j].Some?)
    requires forall j :: 0 <= j < 8 && t.progeny[j].Some? ==>
      LinkedTo(t.progeny[j].cell, u.progeny[j].cell, at + CountUpTo(t, j))
    ensures LinkedTo(t, u, at)
  {
    SameShapeSizes(t, u, 8);
    forall k | 0 <= k < 8 && t.progeny[k].Some? ensures u.progeny[k].cell.data.rebuild == at + CountUpTo(u, k) {
      SameCountsUpTo(t, u, k);
    }
  }

  /** `t` some time after the rebuild that left `t0`: other windows, the same cells and marks. */
  ghost predicate Since(t0: Tree<StarCell>, t: Tree<StarCell>)
    requires Octal(t0) && SameShape(t0, t)
    decreases t0
  {
    t.data.rebuild == t0.data.rebuild
    && forall k :: 0 <= k < 8 && t0.progeny[k].Some? ==> Since(t0.progeny[k].cell, t.progeny[k].cell)
  }

  /** Every cell of the mirror has the stars of the cell it mirrors, `d` further on. */
  ghost predicate Mirrored(t: Tree<StarCell>, u: Tree<StarCell>, d: int)
    requires Octal(t) && SameShape(t, u)
    decreases t
  {
    u.data.count == t.data.count && u.data.start == t.data.start + d
    && forall k :: 0 <= k < 8 && t.progeny[k].Some? ==> Mirrored(t.progeny[k].cell, u.progeny[k].cell, d)
  }

  lemma {:induction false} ShapesCompose<D, E, F>(s: Tree<D>, t: Tree<E>, u: Tree<F>)
    requires Octal(s) && SameShape(s, t) && Octal(t) && SameShape(s, u)
    ensures SameShape(t, u)
    decreases s
  {
    forall k | 0 <= k < 8 && t.progeny[k].Some?
      ensures u.progeny[k].Some? && SameShape(t.progeny[k].cell, u.progeny[k].cell)
    {
      ShapesCompose(s.progeny[k].cell, t.progeny[k].cell, u.progeny[k].cell);
    }
  }

  /** Unpacking the deltas puts every window of the mirror where its original is. */
  lemma {:induction false} DeltasMirror(t0: Tree<StarCell>, t: Tree<StarCell>, u: Tree<StarCell>, d: int)
    requires Octal(t0) && SameShape(t0, t) && SameShape(t0, u) && Octal(t) && Octal(u) && SameShape(t, u)
    requires Since(t0, t) && Apart(t0, u, d) && Size(u) == Size(t)
    ensures SameShape(t, Filled(u, Preorder(t, Field(ToSend)), OnReceipt))
    ensures Mirrored(t, Filled(u, Preorder(t, Field(ToSend)), OnReceipt), d)
    decreases t0
  {
    var s := Preorder(t, Field(ToSend));
    var v := Filled(u, s, OnReceipt);
    NextKid(t, 0, Field(ToSend));
    assert s[0] == ToSend(t.data);
    SameShapeBack(t, u);
    ShapesCompose(u, t, v);
    forall k | 0 <= k < 8 && t.progeny[k].Some? ensures Mirrored(t.progeny[k].cell, v.progeny[k].cell, d) {
      DeltasKid(t, u, k);
      SameShapeSizes(t.progeny[k].cell, u.progeny[k].cell, 8);
      DeltasMirror(t0.progeny[k].cell, t.progeny[k].cell, u.progeny[k].cell, d);
    }
  }

  lemma {:induction false} SameShapeBack<D, E>(t: Tree<D>, u: Tree<E>)
    requires Octal(t) && SameShape(t, u) && Octal(u)
    ensures SameShape(u, t)
    decreases t
  {
    forall k | 0 <= k < 8 && u.progeny[k].Some? ensures SameShape(u.progeny[k].cell, t.progeny[k].cell) {
      SameShapeBack(t.progeny[k].cell, u.progeny[k].cell);
    }
  }

  lemma DeltasKid(t: Tree<StarCell>, u: Tree<StarCell>, k: nat)
    requires Octal(t) && SameShape(t, u) && Octal(u) && Size(u) == Size(t) && k < 8 && t.progeny[k].Some?
    ensures Octal(t.progeny[k].cell) && Octal(u.progeny[k].cell) && Size(u.progeny[k].cell) == Size(t.progeny[k].cell)
    ensures var v := Filled(u, Preorder(t, Field(ToSend)), OnReceipt);
      v.progeny[k] == Some(Filled(u.progeny[k].cell, Preorder(t.progeny[k].cell, Field(ToSend)), OnReceipt))
  {
    hide Field, Filled, OnReceipt, Preorder, PreorderUpTo, Size, SizeUpTo, ToSend;
    var f: Tree<StarCell> -> SfStars := Field(ToSend);
    var s := Preorder(t, f);
    SameShapeSizes(t, u, k);
    SameShapeSizes(t, u, k + 1);
    assert |t.progeny| == |u.progeny| == 8 && Octal(t.progeny[k].cell) && u.progeny[k].Some? && Octal(u.progeny[k].cell)
      && SameShape(t.progeny[k].cell, u.progeny[k].cell);
    SameShapeSizes(t.progeny[k].cell, u.progeny[k].cell, 8);
    FilledKid(u, s, OnReceipt, k);
    KidSlots(t, k, 8, f);
    NextKid(t, k, f);
    assert s[1..] == PreorderUpTo(t, 8, f);
  }

  /** The whole exchange: linked at the rebuild, packed and unpacked at any time after it, every cell of the
      mirror has as many stars as its original, in the same place relative to the top-level cell. */
  lemma MirrorFollows(t0: Tree<StarCell>, t: Tree<StarCell>, u: Tree<StarCell>, at: int)
    requires Octal(t0) && InOrder(t0) && SameShape(t0, t) && Octal(t) && Since(t0, t) && LinkedTo(t0, u, at)
    ensures Octal(u) && Size(u) == Size(t) && SameShape(t, Filled(u, Preorder(t, Field(ToSend)), OnReceipt))
    ensures Mirrored(t, Filled(u, Preorder(t, Field(ToSend)), OnReceipt), at - t0.data.rebuild)
  {
    hide Apart, Field, Filled, InOrder, Mirrored, Octal, OnReceipt, Preorder, SameCounts, SameShape, Since, Size,
      SizeUpTo, ToSend;

    SameShapeSizes(t0, t, 8);
    SameShapeSizes(t0, u, 8);
    ShapesCompose(t0, t, u);
    InOrderApart(t0, u);
    DeltasMirror(t0, t, u, at - t0.data.rebuild);
  }

  // ----- construction levels -----

  /** enum grid_construction_level */
  datatype Label = Above | On | Below

  /** Where a cell's pointer to the construction level leads: nowhere, or to the cell of that depth on its
      own way to the top. */
  datatype Pointer = Null | ToDepth(depth: int)

  datatype GridCell = GridCell(depth: int, level: Pointer)

  function LabelOf(d: GridCell): Label {
    if d.level == Null then Above else if d.level == ToDepth(d.depth) then On else Below
  }

  /** The pointers as cell_set_grid_construction_level leaves them: null above the level, and from the level
      on all to it. */
  ghost predicate Levelled(t: Tree<GridCell>, level: Pointer)
    requires Octal(t)
    decreases t
  {
    && (if level == Null then t.data.level == Null || t.data.level == ToDepth(t.data.depth) else t.data.level == level && level.depth < t.data.depth)
    && forall k :: 0 <= k < 8 && t.progeny[k].Some? ==>
      t.progeny[k].cell.data.depth == t.data.depth + 1 && Levelled(t.progeny[k].cell, t.data.level)
  }

  /** The receiver's cells: the same depths, and pointers that do not matter. */
  ghost predicate SameDepths(t: Tree<GridCell>, u: Tree<GridCell>)
    requires Octal(t) && SameShape(t, u)
    decreases t
  {
    u.data.depth == t.data.depth && forall k :: 0 <= k < 8 && t.progeny[k].Some? ==>
      SameDepths(t.progeny[k].cell, u.progeny[k].cell)
  }

  /** cell_unpack_grid_extra */
  method UnpackGridExtra(u: Tree<GridCell>, info: array<Label>, at: nat, level0: Pointer, ghost t: Tree<GridCell>)
      returns (v: Tree<GridCell>, count: nat)
    requires Octal(t) && SameShape(t, u) && SameDepths(t, u) && Levelled(t, level0)
    requires at + Size(t) <= info.Length && info[at..at + Size(t)] == Preorder(t, Field(LabelOf))
    ensures v == t && count == Size(t)
    decreases t
  {
    hide Octal, Preorder, PreorderUpTo, Size, SizeUpTo;
    ghost var f: Tree<GridCell> -> Label := Field(LabelOf);
    NextKid(t, 0, f);
    SameShapeSizes(t, u, 8);
    assert info[at] == LabelOf(t.data) by { assert info[at..at + Size(t)][0] == Preorder(t, f)[0]; }
    var level := if info[at] == On then ToDepth(u.data.depth) else level0;
    assert u.data.depth == t.data.depth && level == t.data.level;
    var progeny: seq<Kid<GridCell>> := [];
    count := 1;
    for k := 0 to 8
      invariant count == 1 + SizeUpTo(t, k) <= Size(t)
      invariant |progeny| == k && forall j :: 0 <= j < k ==> progeny[j] == t.progeny[j]
    {
      NextKid(t, k, f);
      assert |u.progeny| == 8 && (u.progeny[k].Some? <==> t.progeny[k].Some?);
      if u.progeny[k].Some? {
        GridKid(t, u, level0, k);
        GridSlots(t, info, at, k, f);
        var w, n := UnpackGridExtra(u.progeny[k].cell, info, at + count, level, t.progeny[k].cell);
        progeny := progeny + [Some(w)];
        count := count + n;
      } else {
        progeny := progeny + [None];
      }
    }
    v := Tree(GridCell(u.data.depth, level), progeny);
    assert progeny == t.progeny;
  }

  lemma GridKid(t: Tree<GridCell>, u: Tree<GridCell>, level: Pointer, k: nat)
    requires Octal(t) && SameShape(t, u) && SameDepths(t, u) && Levelled(t, level) && k < 8
    requires |t.progeny| == |u.progeny| == 8 && t.progeny[k].Some? && u.progeny[k].Some?
    ensures Octal(t.progeny[k].cell) && SameShape(t.progeny[k].cell, u.progeny[k].cell)
    ensures SameDepths(t.progeny[k].cell, u.progeny[k].cell) && Levelled(t.progeny[k].cell, t.data.level)
  {
  }

  lemma GridSlots(t: Tree<GridCell>, info: array<Label>, at: nat, k: nat, f: Tree<GridCell> -> Label)
    requires Octal(t) && k < 8 && |t.progeny| == 8 && t.progeny[k].Some?
    requires at + Size(t) <= info.Length && info[at..at + Size(t)] == Preorder(t, f)
    ensures Octal(t.progeny[k].cell) && at + 1 + SizeUpTo(t, k) + Size(t.progeny[k].cell) <= at + Size(t)
    ensures info[at + 1 + SizeUpTo(t, k)..at + 1 + SizeUpTo(t, k) + Size(t.progeny[k].cell)] ==
      Preorder(t.progeny[k].cell, f)
  {
    hide *;
    SameSlices(info, at, Size(t));
    KidEntries(t, f, info[..], at, k);
    SameSlices(info, at + 1 + SizeUpTo(t, k), Size(t.progeny[k].cell));
  }
}
