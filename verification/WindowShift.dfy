/**
 cell_recursively_shift_sparts / _sinks / _gparts: making room for one more particle at the front of a
 leaf.  The cells above the leaf grow by one, the cells after it in the tree move up by one.
 */
module WindowShift {
  import opened Octree

  /** The windows of all cells of a tree at some moment. */
  type Snapshot = map<Cell, Windows>

  ghost function Now(c: Cell): Snapshot
    reads c.subtree`windows
  {
    map d | d in c.subtree :: d.windows
  }

  // ----- tiling, over a snapshot -----

  ghost predicate Known(c: Cell, w: Snapshot) {
    c.subtree <= w.Keys
  }

  ghost function KidStart(c: Cell, s: Species, w: Snapshot, k: nat): int
    requires k <= 8 == |c.progeny| && c in w && forall j :: 0 <= j < 8 && c.progeny[j] != null ==> c.progeny[j] in w
  {
    if k == 0 then WindowOf(w[c], s).start
    else KidStart(c, s, w, k - 1) + if c.progeny[k - 1] == null then 0 else WindowOf(w[c.progeny[k - 1]], s).count
  }

  ghost predicate KidsTile(c: Cell, s: Species, w: Snapshot)
    requires |c.progeny| == 8 && c in w && forall j :: 0 <= j < 8 && c.progeny[j] != null ==> c.progeny[j] in w
  {
    && (forall k :: 0 <= k < 8 && c.progeny[k] != null ==> WindowOf(w[c.progeny[k]], s).start == KidStart(c, s, w, k))
    && KidStart(c, s, w, 8) == WindowOf(w[c], s).start + WindowOf(w[c], s).count
  }

  ghost predicate Tiled(c: Cell, s: Species, w: Snapshot)
    requires c.WellFormed() && Known(c, w)
    decreases c.subtree
  {
    c.split ==> KidsTile(c, s, w) && forall k :: 0 <= k < 8 && c.progeny[k] != null ==> Tiled(c.progeny[k], s, w)
  }

  lemma {:induction false} SameStart(c: Cell, s: Species, w: Snapshot, k: nat)
    requires k <= 8 == |c.progeny| && c in w && forall j :: 0 <= j < 8 && c.progeny[j] != null ==> c.progeny[j] in w
    requires c.windows == w[c] && forall j :: 0 <= j < 8 && c.progeny[j] != null ==>
      c.progeny[j].windows == w[c.progeny[j]]
    ensures KidStart(c, s, w, k) == c.KidStart(s, k)
  {
    if k > 0 { SameStart(c, s, w, k - 1); }
  }

  /** Over a snapshot of the present, tiling means what it means in the octree. */
  lemma {:induction false} SameTiling(c: Cell, s: Species, w: Snapshot)
    requires c.WellFormed() && Known(c, w) && forall d :: d in c.subtree ==> d.windows == w[d]
    ensures Tiled(c, s, w) <==> c.Tiled(s)
    decreases c.subtree
  {
    KidsProper(c);
    forall k | 0 <= k <= 8 ensures KidStart(c, s, w, k) == c.KidStart(s, k) { SameStart(c, s, w, k); }
    forall k | 0 <= k < 8 && c.progeny[k] != null ensures Tiled(c.progeny[k], s, w) <==> c.progeny[k].Tiled(s) {
      SameTiling(c.progeny[k], s, w);
    }
  }

  // ----- which cells come after a leaf -----

  ghost predicate Later(c: Cell, leaf: Cell, d: Cell)
    requires c.WellFormed()
    decreases c.subtree
  {
    exists j, k :: 0 <= j < 8 && 0 <= k < 8 && c.progeny[j] != null && c.progeny[k] != null
      && leaf in c.progeny[j].subtree && d in c.progeny[k].subtree
      && (j < k || (j == k && Later(c.progeny[j], leaf, d)))
  }

  lemma LaterKids(c: Cell, leaf: Cell, d: Cell, j: nat, k: nat)
    requires c.WellFormed() && j < 8 && k < 8 && c.progeny[j] != null && c.progeny[k] != null
    requires leaf in c.progeny[j].subtree && d in c.progeny[k].subtree
    ensures Later(c, leaf, d) <==> j < k || (j == k && Later(c.progeny[j], leaf, d))
  {
  }

  /** What becomes of the window of a cell. */
  datatype Move = Grow | Up | Stay

  function Moved(w: Windows, s: Species, m: Move): Windows {
    var v := WindowOf(w, s);
    match m
    case Grow => WithWindow(w, s, v.(count := v.count + 1))
    case Up => WithWindow(w, s, v.(start := v.start + 1))
    case Stay => w
  }

  /** On the main branch (`leaf` is below `c`), or else after the leaf. */
  ghost function MoveOf(c: Cell, mainBranch: bool, leaf: Cell, d: Cell): Move
    requires c.WellFormed()
  {
    if !mainBranch then Up
    else if leaf in d.subtree then Grow
    else if Later(c, leaf, d) then Up
    else Stay
  }

  ghost predicate Shifted(c: Cell, s: Species, mainBranch: bool, leaf: Cell, before: Snapshot, after: Snapshot)
    requires c.WellFormed()
  {
    && Known(c, before) && Known(c, after)
    && forall d :: d in c.subtree ==> after[d] == Moved(before[d], s, MoveOf(c, mainBranch, leaf, d))
  }

  // ----- the tiling survives -----

  lemma ShiftedKid(c: Cell, s: Species, mainBranch: bool, leaf: Cell, before: Snapshot, after: Snapshot, k: nat)
    requires c.WellFormed() && Shifted(c, s, mainBranch, leaf, before, after) && k < 8 && c.progeny[k] != null
    requires mainBranch ==> leaf in c.subtree && leaf != c
    ensures c.progeny[k].WellFormed() && c.progeny[k].subtree < c.subtree && c.progeny[k] in c.subtree
    ensures !mainBranch ==> Shifted(c.progeny[k], s, false, leaf, before, after)
    ensures mainBranch && leaf in c.progeny[k].subtree ==> Shifted(c.progeny[k], s, true, leaf, before, after)
    ensures forall j: int :: mainBranch && 0 <= j < k && c.progeny[j] != null && leaf in c.progeny[j].subtree ==>
      Shifted(c.progeny[k], s, false, leaf, before, after)
    ensures forall j: int :: mainBranch && k < j < 8 && c.progeny[j] != null && leaf in c.progeny[j].subtree ==>
      forall d :: d in c.progeny[k].subtree ==> after[d] == before[d]
  {
    KidsProper(c);
    KidsDisjoint(c);
    var kid := c.progeny[k];
    if mainBranch {
      var j := SlotExists(c, leaf);
      forall d | d in kid.subtree
        ensures MoveOf(c, true, leaf, d) == if j == k then MoveOf(kid, true, leaf, d) else if j < k then Up else Stay
      {
        LaterKids(c, leaf, d, j, k);
        SubtreeNested(kid, d);
      }
    }
  }

  lemma {:induction false} Unchanged(c: Cell, s: Species, before: Snapshot, after: Snapshot)
    requires c.WellFormed() && Known(c, before) && Known(c, after) && Tiled(c, s, before)
    requires forall d :: d in c.subtree ==> after[d] == before[d]
    ensures Tiled(c, s, after)
    decreases c.subtree
  {
    KidsProper(c);
    if c.split {
      forall k | 0 <= k <= 8
        ensures KidStart(c, s, after, k) == KidStart(c, s, before, k)
      {
        StartUnchanged(c, s, before, after, k);
      }
      forall k | 0 <= k < 8 && c.progeny[k] != null ensures Tiled(c.progeny[k], s, after) {
        Unchanged(c.progeny[k], s, before, after);
      }
    }
  }

  lemma {:induction false} StartUnchanged(c: Cell, s: Species, before: Snapshot, after: Snapshot, k: nat)
    requires k <= 8 == |c.progeny| && c in before && c in after && after[c] == before[c]
    requires forall j :: 0 <= j < 8 && c.progeny[j] != null ==>
      c.progeny[j] in before && c.progeny[j] in after && after[c.progeny[j]] == before[c.progeny[j]]
    ensures KidStart(c, s, after, k) == KidStart(c, s, before, k)
  {
    if k > 0 { StartUnchanged(c, s, before, after, k - 1); }
  }

  /** Progeny that all move up with their parent. */
  lemma {:induction false} StartUp(c: Cell, s: Species, leaf: Cell, before: Snapshot, after: Snapshot, k: nat)
    requires c.WellFormed() && Shifted(c, s, false, leaf, before, after) && k <= 8
    ensures KidStart(c, s, after, k) == KidStart(c, s, before, k) + 1
  {
    hide Cell.WellFormed, Later;
    KidsProper(c);
    if k > 0 { StartUp(c, s, leaf, before, after, k - 1); }
  }

  /** On the main branch the progeny after the one that grows move up. */
  lemma {:induction false} StartMain(c: Cell, s: Species, leaf: Cell, before: Snapshot, after: Snapshot, j: nat, k: nat)
    requires c.WellFormed() && Shifted(c, s, true, leaf, before, after) && leaf in c.subtree && leaf != c
    requires j < 8 && c.progeny[j] != null && leaf in c.progeny[j].subtree && k <= 8
    ensures KidStart(c, s, after, k) == KidStart(c, s, before, k) + if j < k then 1 else 0
  {
    hide Cell.WellFormed, Later;
    KidsProper(c);
    KidsDisjoint(c);
    if k > 0 {
      StartMain(c, s, leaf, before, after, j, k - 1);
      if c.progeny[k - 1] != null {
        ShiftedKid(c, s, true, leaf, before, after, k - 1);
      }
    }
  }

  /** The progeny still tile every cell after the shift. */
  lemma {:induction false} StillTiled(c: Cell, s: Species, mainBranch: bool, leaf: Cell, before: Snapshot,
        after: Snapshot)
    requires c.WellFormed() && Shifted(c, s, mainBranch, leaf, before, after) && Tiled(c, s, before)
    requires mainBranch ==> leaf in c.subtree && !leaf.split
    ensures Tiled(c, s, after)
    decreases c.subtree
  {
    hide Cell.WellFormed, Later;
    KidsProper(c);
    if c.split {
      if mainBranch { StillTiledMain(c, s, leaf, before, after); } else {
        forall k | 0 <= k <= 8 ensures KidStart(c, s, after, k) == KidStart(c, s, before, k) + 1 {
          StartUp(c, s, leaf, before, after, k);
        }
        forall k | 0 <= k < 8 && c.progeny[k] != null ensures Tiled(c.progeny[k], s, after) {
          ShiftedKid(c, s, false, leaf, before, after, k);
          StillTiled(c.progeny[k], s, false, leaf, before, after);
        }
      }
    }
  }

  lemma {:induction false} StillTiledMain(c: Cell, s: Species, leaf: Cell, before: Snapshot, after: Snapshot)
    requires c.WellFormed() && Shifted(c, s, true, leaf, before, after) && Tiled(c, s, before)
    requires leaf in c.subtree && !leaf.split && c.split
    ensures Tiled(c, s, after)
    decreases c.subtree, 0
  {
    hide Cell.WellFormed, Later;
    KidsProper(c);
    KidsDisjoint(c);
    var j := SlotExists(c, leaf);
    forall k | 0 <= k <= 8 ensures KidStart(c, s, after, k) == KidStart(c, s, before, k) + if j < k then 1 else 0 {
      StartMain(c, s, leaf, before, after, j, k);
    }
    forall k | 0 <= k < 8 && c.progeny[k] != null
      ensures Tiled(c.progeny[k], s, after) && WindowOf(after[c.progeny[k]], s).start == KidStart(c, s, after, k)
    {
      ShiftedKid(c, s, true, leaf, before, after, k);
      if k < j {
        Unchanged(c.progeny[k], s, before, after);
      } else {
        StillTiled(c.progeny[k], s, k == j, leaf, before, after);
      }
    }
  }

  lemma {:induction false} OthersStart(c: Cell, s: Species, before: Snapshot, after: Snapshot, k: nat)
    requires k <= 8 == |c.progeny| && c in before && c in after
    requires forall j :: 0 <= j < 8 && c.progeny[j] != null ==> c.progeny[j] in before && c.progeny[j] in after
    requires WindowOf(after[c], s) == WindowOf(before[c], s)
    requires forall j :: 0 <= j < 8 && c.progeny[j] != null ==>
      WindowOf(after[c.progeny[j]], s) == WindowOf(before[c.progeny[j]], s)
    ensures KidStart(c, s, after, k) == KidStart(c, s, before, k)
  {
    if k > 0 { OthersStart(c, s, before, after, k - 1); }
  }

  /** The other kinds of particles are tiled as before. */
  lemma {:induction false} OthersTiled(c: Cell, s: Species, before: Snapshot, after: Snapshot)
    requires c.WellFormed() && Known(c, before) && Known(c, after) && Tiled(c, s, before)
    requires forall d :: d in c.subtree ==> WindowOf(after[d], s) == WindowOf(before[d], s)
    ensures Tiled(c, s, after)
    decreases c.subtree
  {
    hide Cell.WellFormed, WindowOf;
    KidsProper(c);
    if c.split {
      forall k | 0 <= k <= 8
        ensures KidStart(c, s, after, k) == KidStart(c, s, before, k)
      {
        OthersStart(c, s, before, after, k);
      }
      forall k | 0 <= k < 8 && c.progeny[k] != null ensures Tiled(c.progeny[k], s, after) {
        OthersTiled(c.progeny[k], s, before, after);
      }
    }
  }

  /** After the shift all kinds of particles are tiled. */
  lemma AllStillTiled(c: Cell, s: Species, leaf: Cell, before: Snapshot, after: Snapshot, o: Species)
    requires c.WellFormed() && Shifted(c, s, true, leaf, before, after) && Tiled(c, o, before)
    requires leaf in c.subtree && !leaf.split
    ensures Tiled(c, o, after)
  {
    hide Cell.WellFormed, Later, Tiled;
    if o == s {
      StillTiled(c, s, true, leaf, before, after);
    } else {
      OthersTiled(c, o, before, after);
    }
  }

  // ----- order of the windows -----

  lemma {:induction false} StartMonotone(c: Cell, s: Species, w: Snapshot, j: nat, k: nat)
    requires c.WellFormed() && Known(c, w) && j <= k <= 8
    ensures KidStart(c, s, w, j) <= KidStart(c, s, w, k)
    decreases k
  {
    KidsProper(c);
    if j < k { StartMonotone(c, s, w, j, k - 1); }
  }

  /** A cell below `c` lies inside its window. */
  lemma {:induction false} Inside(c: Cell, s: Species, w: Snapshot, d: Cell)
    requires c.WellFormed() && Known(c, w) && Tiled(c, s, w) && d in c.subtree
    ensures var v, o := WindowOf(w[d], s), WindowOf(w[c], s);
      o.start <= v.start && v.start + v.count <= o.start + o.count
    decreases c.subtree
  {
    KidsProper(c);
    if d != c {
      var k := SlotExists(c, d);
      Inside(c.progeny[k], s, w, d);
      StartMonotone(c, s, w, 0, k);
      StartMonotone(c, s, w, k + 1, 8);
    }
  }

  /** Cells after the leaf have windows after its window, the others before it. */
  lemma {:induction false} LaterIsAfter(c: Cell, s: Species, w: Snapshot, leaf: Cell, d: Cell)
    requires c.WellFormed() && Known(c, w) && Tiled(c, s, w) && leaf in c.subtree && d in c.subtree
    requires !leaf.split && leaf !in d.subtree
    ensures var v, l := WindowOf(w[d], s), WindowOf(w[leaf], s);
      if Later(c, leaf, d) then l.start + l.count <= v.start else v.start + v.count <= l.start
    decreases c.subtree
  {
    hide Cell.WellFormed, Later;
    KidsProper(c);
    SubtreeNested(c, d);
    if leaf == c {
      if d != c { var k := SlotExists(c, d); assert false; }
    } else {
      var j := SlotExists(c, leaf);
      var k := SlotExists(c, d);
      LaterKids(c, leaf, d, j, k);
      if j == k {
        LaterIsAfter(c.progeny[j], s, w, leaf, d);
      } else {
        Inside(c.progeny[j], s, w, leaf);
        Inside(c.progeny[k], s, w, d);
        if j < k { StartMonotone(c, s, w, j + 1, k); } else { StartMonotone(c, s, w, k + 1, j); }
      }
    }
  }

  // ----- many insertions -----

  /** How many of the leaves move `d` in this way. */
  ghost function Moves(top: Cell, leaves: seq<Cell>, d: Cell, m: Move): nat
    requires top.WellFormed()
  {
    if leaves == [] then 0
    else Moves(top, leaves[..|leaves| - 1], d, m) + if MoveOf(top, true, leaves[|leaves| - 1], d) == m then 1 else 0
  }

  /** One insertion after the other: the windows before the first and after each of them. */
  ghost predicate Insertions(top: Cell, s: Species, leaves: seq<Cell>, snaps: seq<Snapshot>)
    requires top.WellFormed()
  {
    && |snaps| == |leaves| + 1
    && forall i :: 0 <= i < |leaves| ==>
      leaves[i] in top.subtree && Shifted(top, s, true, leaves[i], snaps[i], snaps[i + 1])
  }

  /** Since the beginning every cell has moved up by as many places as there were insertions into leaves before it,
      and grown by the insertions into its own leaves; the top-level cell has not moved. */
  lemma {:induction false} DeltasCount(top: Cell, s: Species, leaves: seq<Cell>, snaps: seq<Snapshot>, d: Cell)
    requires top.WellFormed() && Insertions(top, s, leaves, snaps) && d in top.subtree
    requires d in snaps[0] && d in snaps[|leaves|]
    ensures WindowOf(snaps[|leaves|][d], s).start == WindowOf(snaps[0][d], s).start + Moves(top, leaves, d, Up)
    ensures WindowOf(snaps[|leaves|][d], s).count == WindowOf(snaps[0][d], s).count + Moves(top, leaves, d, Grow)
    ensures Moves(top, leaves, top, Up) == 0
    decreases |leaves|
  {
    hide Cell.WellFormed, Later;
    var n := |leaves| - 1;
    if n >= 0 {
      assert Shifted(top, s, true, leaves[n], snaps[n], snaps[n + 1]);
      DeltasCount(top, s, leaves[..n], snaps[..n + 1], d);
      assert leaves[n] in top.subtree;
    }
  }

  // ----- what the cells hold -----

  ghost function Held<T>(a: seq<T>, v: Window): (r: seq<T>)
    requires 0 <= v.start && v.start + v.count <= |a|
    ensures |r| == v.count && forall i :: 0 <= i < |r| ==> r[i] == a[v.start + i]
  {
    a[v.start..v.start + v.count]
  }

  /** The array with `x` inserted at `p`, the element at `end` overwritten. */
  ghost function Inserted<T>(a: seq<T>, p: int, end: int, x: T): (r: seq<T>)
    requires 0 <= p <= end < |a|
    ensures |r| == |a|
    ensures forall i {:trigger r[i]} :: 0 <= i < |r| ==>
      r[i] == if i < p || end < i then a[i] else if i == p then x else a[i - 1]
  {
    a[..p] + [x] + a[p..end] + a[end + 1..]
  }

  /** What the window `v` held, with `x` inserted at place `p` of the array. */
  ghost function Spliced<T>(a: seq<T>, v: Window, p: int, x: T): (r: seq<T>)
    requires 0 <= v.start <= p <= v.start + v.count <= |a|
    ensures |r| == v.count + 1
    ensures forall i {:trigger r[i]} :: 0 <= i < |r| ==>
      r[i] == if v.start + i < p then a[v.start + i] else if v.start + i == p then x else a[v.start + i - 1]
  {
    a[v.start..p] + [x] + a[p..v.start + v.count]
  }

  lemma HeldApart<T>(a: seq<T>, p: int, end: int, x: T, v: Window)
    requires 0 <= p <= end < |a| && 0 <= v.start && v.start + v.count <= end
    ensures v.start + v.count <= p ==> Held(Inserted(a, p, end, x), v) == Held(a, v)
    ensures p <= v.start ==> Held(Inserted(a, p, end, x), v.(start := v.start + 1)) == Held(a, v)
  {
    hide Inserted, Held;
    var b := Inserted(a, p, end, x);
    if v.start + v.count <= p {
      var h := Held(b, v);
      forall i | 0 <= i < v.count ensures h[i] == Held(a, v)[i] {
        var j := v.start + i;
        assert h[i] == b[j] && b[j] == a[j];
      }
    }
    if p <= v.start {
      var h := Held(b, v.(start := v.start + 1));
      forall i | 0 <= i < v.count ensures h[i] == Held(a, v)[i] {
        var j := v.start + i;
        assert h[i] == b[j + 1] && b[j + 1] == a[j];
      }
    }
  }

  lemma HeldAcross<T>(a: seq<T>, p: int, end: int, x: T, v: Window)
    requires 0 <= v.start <= p <= v.start + v.count <= end < |a|
    ensures Held(Inserted(a, p, end, x), v.(count := v.count + 1)) == Spliced(a, v, p, x)
  {
    hide Inserted, Held, Spliced;
    var h, r := Held(Inserted(a, p, end, x), v.(count := v.count + 1)), Spliced(a, v, p, x);
    forall i | 0 <= i <= v.count ensures h[i] == r[i] {
      var j := v.start + i;
      assert h[i] == Inserted(a, p, end, x)[j];
      assert r[i] == if j < p then a[j] else if j == p then x else a[j - 1];
    }
  }

  lemma WindowAfter(top: Cell, s: Species, leaf: Cell, before: Snapshot, after: Snapshot, d: Cell)
    requires top.WellFormed() && Shifted(top, s, true, leaf, before, after) && d in top.subtree
    ensures d in before && d in after
    ensures var v := WindowOf(before[d], s);
      WindowOf(after[d], s) == if leaf in d.subtree then v.(count := v.count + 1) else if Later(top, leaf, d)
        then v.(start := v.start + 1) else v
  {
    hide Cell.WellFormed, Later;
    assert d in before && d in after;
    assert after[d] == Moved(before[d], s, MoveOf(top, true, leaf, d));
  }

  /** The leaf has `x` in front; a cell above it has `x` where the leaf begins; all others hold what they held. */
  lemma HeldAfter<T>(top: Cell, s: Species, leaf: Cell, before: Snapshot, after: Snapshot, a: seq<T>, p: int, end: int,
        x: T, d: Cell)
    requires top.WellFormed() && Shifted(top, s, true, leaf, before, after) && Tiled(top, s, before)
    requires leaf in top.subtree && !leaf.split && d in top.subtree
    requires 0 <= WindowOf(before[top], s).start
    requires end == WindowOf(before[top], s).start + WindowOf(before[top], s).count < |a|
    requires p == WindowOf(before[leaf], s).start
    ensures 0 <= p <= end && 0 <= WindowOf(before[d], s).start
    ensures WindowOf(before[d], s).start + WindowOf(before[d], s).count <= end
    ensures 0 <= WindowOf(after[d], s).start && WindowOf(after[d], s).start + WindowOf(after[d], s).count <= end + 1
    ensures leaf !in d.subtree ==>
      Held(Inserted(a, p, end, x), WindowOf(after[d], s)) == Held(a, WindowOf(before[d], s))
    ensures leaf in d.subtree ==>
      var v := WindowOf(before[d], s);
      v.start <= p <= v.start + v.count && Held(Inserted(a, p, end, x), WindowOf(after[d], s)) == Spliced(a, v, p, x)
  {
    hide Cell.WellFormed, Later, Tiled, Held, Inserted, Spliced, Moved, MoveOf, WindowOf;
    WindowAfter(top, s, leaf, before, after, d);
    assert Known(top, before);
    hide Shifted;
    Inside(top, s, before, d);
    Inside(top, s, before, leaf);
    SubtreeNested(top, d);
    var v := WindowOf(before[d], s);
    if leaf in d.subtree {
      TiledBelow(top, s, before, d);
      Inside(d, s, before, leaf);
      HeldAcross(a, p, end, x, v);
    } else {
      LaterIsAfter(top, s, before, leaf, d);
      HeldApart(a, p, end, x, v);
    }
  }

  lemma {:induction false} TiledBelow(c: Cell, s: Species, w: Snapshot, d: Cell)
    requires c.WellFormed() && Known(c, w) && Tiled(c, s, w) && d in c.subtree
    ensures d.WellFormed() && Known(d, w) && Tiled(d, s, w)
    decreases c.subtree
  {
    KidsProper(c);
    SubtreeNested(c, d);
    if d != c {
      var k := SlotExists(c, d);
      TiledBelow(c.progeny[k], s, w, d);
    }
  }

  // ----- the climb to the top-level cell, and the recursion down again -----

  /** Depths grow by one from a cell to its progeny. */
  ghost predicate Leveled(c: Cell)
    reads c.subtree`depth
  {
    forall a, k :: a in c.subtree && 0 <= k < |a.progeny| && a.progeny[k] != null && a.progeny[k] in c.subtree ==>
      a.progeny[k].depth == a.depth + 1
  }

  /** The list of progeny indices leads from `c` to `leaf`. */
  ghost predicate PathTo(c: Cell, leaf: Cell, path: map<int, int>)
    requires c.WellFormed()
    reads c.subtree`depth
    decreases c.subtree
  {
    c != leaf ==>
      && c.depth in path && 0 <= path[c.depth] < 8 && c.progeny[path[c.depth]] != null
      && leaf in c.progeny[path[c.depth]].subtree
      && PathTo(c.progeny[path[c.depth]], leaf, path)
  }

  lemma {:induction false} LeveledBelow(c: Cell, d: Cell)
    requires c.WellFormed() && Leveled(c) && d in c.subtree
    ensures Leveled(d) && d.depth >= c.depth
    decreases c.subtree
  {
    hide Cell.WellFormed;
    KidsProper(c);
    SubtreeNested(c, d);
    if d != c {
      var k := SlotExists(c, d);
      LeveledBelow(c.progeny[k], d);
    }
  }

  lemma {:induction false} PathStable(c: Cell, leaf: Cell, path: map<int, int>, depth: int, k: int)
    requires c.WellFormed() && Leveled(c) && PathTo(c, leaf, path) && depth < c.depth
    ensures PathTo(c, leaf, path[depth := k])
    decreases c.subtree
  {
    hide Cell.WellFormed;
    KidsProper(c);
    if c != leaf {
      var kid := c.progeny[path[c.depth]];
      LeveledBelow(c, kid) by { SubtreeNested(c, kid); }
      PathStable(kid, leaf, path, depth, k);
    }
  }

  /** The loop that climbs to the top-level cell and writes down which progeny it came from. */
  method Climb(c: Cell, ghost root: Cell) returns (top: Cell, progeny: map<int, int>)
    requires root.WellFormed() && root.Rooted() && Leveled(root) && root.parent == null && c in root.subtree
    ensures top == root && PathTo(root, c, progeny)
  {
    hide Cell.Rooted, Cell.WellFormed, Leveled;
    top, progeny := c, map[];
    SubtreeNested(root, c);
    LeveledBelow(root, c);
    assert PathTo(c, c, progeny);
    while top.parent != null
      invariant top in root.subtree && c in top.subtree && top.WellFormed() && PathTo(top, c, progeny)
      decreases root.subtree - top.subtree
    {
      if top == root { assert false; }
      ParentOf(root, top);
      ParentAbove(root, top);
      SubtreeNested(root, top.parent);
      ghost var before := progeny;
      var parent := top.parent;
      assert |parent.progeny| == 8 by { KidsProper(parent); }
      assert exists k :: 0 <= k < 8 && parent.progeny[k] == top;
      var found := -1;
      for k := 0 to 8
        invariant found == -1 ==> progeny == before
        invariant found != -1 ==>
          0 <= found < k && parent.progeny[found] == top && progeny == before[parent.depth := found]
        invariant forall j :: 0 <= j < k && parent.progeny[j] == top ==> found != -1
      {
        if parent.progeny[k] == top {
          progeny := progeny[parent.depth := k];
          found := k;
        }
      }
      PathUp(root, parent, found, top, c, before);
      assert c in parent.subtree by { SubtreeNested(parent, top); }
      assert c in parent.subtree && top.subtree < parent.subtree && parent.subtree <= root.subtree;
      top := parent;
    }
    if top != root { ParentOf(root, top); }
  }

  ghost function TimesOf(root: Cell): map<Cell, Times>
    reads root.subtree`tiOld
  {
    map d | d in root.subtree :: d.tiOld
  }

  /** The cells from the leaf up to `upTo` are as if drifted now, and no others. */
  ghost predicate TimesSet(root: Cell, c: Cell, s: Species, now: int, before: map<Cell, Times>, upTo: set<Cell>)
    reads root.subtree`tiOld
  {
    forall d :: d in root.subtree ==> d in before && d.tiOld == if c in d.subtree && d in upTo
      then before[d].With(s, now) else before[d]
  }

  /** The climb after the insertion: the leaf and all cells above it count as drifted to now. */
  method SetTimes(c: Cell, s: Species, now: int, ghost root: Cell)
    requires root.WellFormed() && root.Rooted() && root.parent == null && c in root.subtree
    modifies root.subtree`tiOld
    ensures TimesSet(root, c, s, now, old(TimesOf(root)), root.subtree)
  {
    hide Cell.Rooted, Cell.WellFormed;
    ghost var before := TimesOf(root);
    var top := c;
    SubtreeNested(root, c);
    assert forall d :: d in c.subtree && c in d.subtree ==> d == c by {
      forall d | d in c.subtree && c in d.subtree && d != c ensures false { NoCycle(c, d); }
    }
    while top.parent != null
      invariant top in root.subtree && c in top.subtree && top.WellFormed()
      invariant TimesSet(root, c, s, now, before, top.subtree - {top})
      decreases root.subtree - top.subtree
    {
      if top == root { assert false; }
      ParentOf(root, top);
      ParentAbove(root, top);
      SubtreeNested(root, top.parent);
      KidsProper(top);
      SetTime(top, s, now, root, c, before);
      NoneBetween(root, top, c);
      assert top.subtree < top.parent.subtree && top.parent.subtree <= root.subtree;
      top := top.parent;
    }
    if top != root { ParentOf(root, top); }
    KidsProper(top);
    SetTime(top, s, now, root, c, before);
  }

  method SetTime(d: Cell, s: Species, now: int, ghost root: Cell, ghost c: Cell, ghost before: map<Cell, Times>)
    requires d in root.subtree && d in d.subtree && c in d.subtree && TimesSet(root, c, s, now, before, d.subtree - {d})
    modifies d`tiOld
    ensures TimesSet(root, c, s, now, before, d.subtree)
  {
    hide Times.With;
    d.tiOld := d.tiOld.With(s, now);
  }

  lemma NoneBetween(root: Cell, last: Cell, c: Cell)
    requires root.WellFormed() && root.Rooted() && last in root.subtree && last != root && c in last.subtree
    ensures last.parent != null
    ensures forall d :: d in root.subtree && c in d.subtree ==>
      (d in last.parent.subtree - {last.parent} <==> d in last.subtree)
  {
    hide Cell.Rooted, Cell.WellFormed;
    ParentAbove(root, last);
    SubtreeNested(root, last);
    SubtreeNested(last.parent, last);
    forall d | d in root.subtree && c in d.subtree
      ensures d in last.parent.subtree - {last.parent} <==> d in last.subtree
    {
      LinkAbove(root, last, c, d);
    }
  }

  lemma PathUp(root: Cell, parent: Cell, k: int, kid: Cell, leaf: Cell, path: map<int, int>)
    requires root.WellFormed() && Leveled(root) && parent in root.subtree && parent.WellFormed()
    requires 0 <= k < 8 && |parent.progeny| == 8 && parent.progeny[k] == kid && kid.WellFormed()
    requires leaf in kid.subtree && PathTo(kid, leaf, path)
    ensures PathTo(parent, leaf, path[parent.depth := k])
  {
    hide Cell.WellFormed;
    KidsProper(parent);
    LeveledBelow(root, parent);
    LeveledBelow(parent, kid);
    assert kid.depth == parent.depth + 1;
    PathStable(kid, leaf, path, parent.depth, k);
  }

  ghost predicate ShiftedNow(d: Cell, s: Species, c: Cell, mainBranch: bool, leaf: Cell, before: Snapshot,
        sorted: map<Cell, bool>)
    requires c.WellFormed()
    reads d`windows, d`starsSorted
  {
    && d in before && d in sorted
    && d.windows == Moved(before[d], s, MoveOf(c, mainBranch, leaf, d))
    && d.starsSorted == (sorted[d] && !(s == Stars && mainBranch && leaf in d.subtree))
  }

  /** All of `part`, which lies below `c`, is as the recursion leaves it. */
  ghost predicate AllShifted(part: set<Cell>, s: Species, c: Cell, mainBranch: bool, leaf: Cell, before: Snapshot,
        sorted: map<Cell, bool>)
    requires c.WellFormed()
    reads part`windows, part`starsSorted
  {
    forall d :: d in part ==> ShiftedNow(d, s, c, mainBranch, leaf, before, sorted)
  }

  ghost predicate NotYet(part: set<Cell>, before: Snapshot, sorted: map<Cell, bool>)
    reads part`windows, part`starsSorted
  {
    forall d :: d in part ==> d in before && d in sorted && d.windows == before[d] && d.starsSorted == sorted[d]
  }

  ghost predicate KidsDone(c: Cell, k: int, s: Species, mainBranch: bool, leaf: Cell, before: Snapshot,
        sorted: map<Cell, bool>)
    requires c.WellFormed()
    reads c.subtree`windows, c.subtree`starsSorted
  {
    && (forall j :: 0 <= j < k && j < 8 && c.progeny[j] != null ==> AllShifted(c.progeny[j].subtree, s, c, mainBranch, leaf, before, sorted))
    && (forall j :: 0 <= k <= j < 8 && c.progeny[j] != null ==> NotYet(c.progeny[j].subtree, before, sorted))
    && NotYet({c}, before, sorted)
  }

  /** The progeny before the first one recursed into stay as they are, and are meant to. */
  lemma StartKids(c: Cell, s: Species, progeny: map<int, int>, mainBranch: bool, leaf: Cell, before: Snapshot,
        sorted: map<Cell, bool>) returns (first: int)
    requires c.WellFormed() && c.split && NotYet(c.subtree, before, sorted)
    requires mainBranch ==> leaf in c.subtree && !leaf.split && PathTo(c, leaf, progeny)
    ensures mainBranch ==> c.depth in progeny && first == progeny[c.depth]
    ensures !mainBranch ==> first == 0
    ensures 0 <= first < 8 && KidsDone(c, first, s, mainBranch, leaf, before, sorted)
    ensures mainBranch ==> c.progeny[first] != null && c.progeny[first].WellFormed() && leaf in c.progeny[first].subtree
    ensures mainBranch ==> PathTo(c.progeny[first], leaf, progeny)
  {
    first := if mainBranch then progeny[c.depth] else 0;
    KidsProper(c);
    KidsDisjoint(c);
    hide Cell.WellFormed;
    if mainBranch {
      forall j, d | 0 <= j < first && c.progeny[j] != null && d in c.progeny[j].subtree
        ensures ShiftedNow(d, s, c, mainBranch, leaf, before, sorted)
      {
        hide Later;
        LaterKids(c, leaf, d, first, j);
        SubtreeNested(c.progeny[j], d);
        assert MoveOf(c, true, leaf, d) == Stay;
      }
    }
  }

  lemma KidReady(c: Cell, k: int, s: Species, mainBranch: bool, leaf: Cell, before: Snapshot, sorted: map<Cell, bool>)
    requires c.WellFormed() && Leveled(c) && KidsDone(c, k, s, mainBranch, leaf, before, sorted) && 0 <= k < 8
    ensures |c.progeny| == 8
    ensures c.progeny[k] != null ==>
      && c.progeny[k].WellFormed() && Leveled(c.progeny[k]) && NotYet(c.progeny[k].subtree, before, sorted)
      && c.progeny[k].subtree < c.subtree && c !in c.progeny[k].subtree
    ensures forall j :: 0 <= j < 8 && j != k && c.progeny[j] != null && c.progeny[k] != null ==>
      c.progeny[j].subtree !! c.progeny[k].subtree
  {
    KidsProper(c);
    KidsDisjoint(c);
    hide Cell.WellFormed;
    if c.progeny[k] != null { LeveledBelow(c, c.progeny[k]); }
  }

  lemma KidShifted(c: Cell, k: int, first: int, s: Species, mainBranch: bool, leaf: Cell, before: Snapshot,
        sorted: map<Cell, bool>)
    requires c.WellFormed() && |c.progeny| == 8 && 0 <= first <= k < 8 && c.progeny[k] != null
    requires c.progeny[k].WellFormed()
    requires mainBranch ==> c.progeny[first] != null && leaf in c.progeny[first].subtree
    requires AllShifted(c.progeny[k].subtree, s, c.progeny[k], mainBranch && k == first, leaf, before, sorted)
    ensures AllShifted(c.progeny[k].subtree, s, c, mainBranch, leaf, before, sorted)
  {
    var kid := c.progeny[k];
    KidsProper(c);
    KidsDisjoint(c);
    hide Cell.WellFormed, Later;
    if mainBranch {
      forall d | d in kid.subtree ensures ShiftedNow(d, s, c, mainBranch, leaf, before, sorted) {
        LaterKids(c, leaf, d, first, k);
        SubtreeNested(kid, d);
        assert ShiftedNow(d, s, kid, mainBranch && k == first, leaf, before, sorted);
      }
    } else {
      forall d | d in kid.subtree ensures ShiftedNow(d, s, c, false, leaf, before, sorted) {
        assert ShiftedNow(d, s, kid, false, leaf, before, sorted);
      }
    }
  }

  lemma CellShifted(c: Cell, s: Species, mainBranch: bool, leaf: Cell, before: Snapshot, sorted: map<Cell, bool>)
    requires c.WellFormed() && ShiftedNow(c, s, c, mainBranch, leaf, before, sorted)
    requires forall j :: 0 <= j < 8 && c.progeny[j] != null ==>
      AllShifted(c.progeny[j].subtree, s, c, mainBranch, leaf, before, sorted)
    ensures AllShifted(c.subtree, s, c, mainBranch, leaf, before, sorted)
  {
    hide Cell.WellFormed, ShiftedNow;
    forall d | d in c.subtree ensures ShiftedNow(d, s, c, mainBranch, leaf, before, sorted) {
      if d != c { var j := SlotExists(c, d); }
    }
  }

  /** cell_recursively_shift_* */
  method Shift(c: Cell, s: Species, progeny: map<int, int>, mainBranch: bool, ghost leaf: Cell, ghost before: Snapshot,
        ghost sorted: map<Cell, bool>)
    requires c.WellFormed() && Leveled(c) && NotYet(c.subtree, before, sorted)
    requires mainBranch ==> leaf in c.subtree && !leaf.split && PathTo(c, leaf, progeny)
    modifies c.subtree`windows, c.subtree`starsSorted
    ensures AllShifted(c.subtree, s, c, mainBranch, leaf, before, sorted)
    decreases c.subtree
  {
    hide AllShifted, Cell.WellFormed, Leveled, NotYet, PathTo;
    if c.split {
      ghost var first0 := StartKids(c, s, progeny, mainBranch, leaf, before, sorted);
      var first := if mainBranch then progeny[c.depth] else 0;
      for k := first to 8
        invariant KidsDone(c, k, s, mainBranch, leaf, before, sorted)
      {
        KidReady(c, k, s, mainBranch, leaf, before, sorted);
        if c.progeny[k] != null {
          ShiftKid(c, k, s, progeny, mainBranch, first, leaf, before, sorted);
        } else {
          assert KidsDone(c, k + 1, s, mainBranch, leaf, before, sorted);
        }
      }
    } else {
      LeafDone(c, s, mainBranch, leaf, before, sorted);
    }
    KidsProper(c);
    ShiftOwn(c, s, mainBranch, leaf, before, sorted);
  }

  lemma LeafDone(c: Cell, s: Species, mainBranch: bool, leaf: Cell, before: Snapshot, sorted: map<Cell, bool>)
    requires c.WellFormed() && !c.split && NotYet(c.subtree, before, sorted)
    ensures KidsDone(c, 8, s, mainBranch, leaf, before, sorted)
  {
  }

  method ShiftKid(c: Cell, k: nat, s: Species, progeny: map<int, int>, mainBranch: bool, first: int, ghost leaf: Cell,
        ghost before: Snapshot, ghost sorted: map<Cell, bool>)
    requires c.WellFormed() && Leveled(c) && |c.progeny| == 8 && 0 <= first <= k < 8 && c.progeny[k] != null
    requires KidsDone(c, k, s, mainBranch, leaf, before, sorted)
    requires mainBranch ==>
      !leaf.split && c.progeny[first] != null && c.progeny[first].WellFormed() && leaf in c.progeny[first].subtree
    requires mainBranch && k == first ==> PathTo(c.progeny[k], leaf, progeny)
    modifies c.progeny[k].subtree`windows, c.progeny[k].subtree`starsSorted
    ensures KidsDone(c, k + 1, s, mainBranch, leaf, before, sorted)
    decreases c.subtree, 0
  {
    hide AllShifted, Cell.WellFormed, Leveled, NotYet, PathTo;
    KidReady(c, k, s, mainBranch, leaf, before, sorted);
    assert (forall j :: 0 <= j < k && c.progeny[j] != null ==> AllShifted(c.progeny[j].subtree, s, c, mainBranch, leaf, before, sorted))
      && (forall j :: k < j < 8 && c.progeny[j] != null ==> NotYet(c.progeny[j].subtree, before, sorted))
      && NotYet({c}, before, sorted);
    Shift(c.progeny[k], s, progeny, mainBranch && k == first, leaf, before, sorted);
    KidShifted(c, k, first, s, mainBranch, leaf, before, sorted);
    NextKid(c, k, s, mainBranch, leaf, before, sorted);
  }

  lemma NextKid(c: Cell, k: int, s: Species, mainBranch: bool, leaf: Cell, before: Snapshot, sorted: map<Cell, bool>)
    requires c.WellFormed() && 0 <= k < 8 == |c.progeny| && c.progeny[k] != null
    requires forall j :: 0 <= j < k && c.progeny[j] != null ==>
      AllShifted(c.progeny[j].subtree, s, c, mainBranch, leaf, before, sorted)
    requires AllShifted(c.progeny[k].subtree, s, c, mainBranch, leaf, before, sorted)
    requires forall j :: k < j < 8 && c.progeny[j] != null ==> NotYet(c.progeny[j].subtree, before, sorted)
    requires NotYet({c}, before, sorted)
    ensures KidsDone(c, k + 1, s, mainBranch, leaf, before, sorted)
  {
    hide AllShifted, NotYet, Cell.WellFormed;
  }

  method ShiftOwn(c: Cell, s: Species, mainBranch: bool, ghost leaf: Cell, ghost before: Snapshot,
        ghost sorted: map<Cell, bool>)
    requires c.WellFormed() && KidsDone(c, 8, s, mainBranch, leaf, before, sorted) && (mainBranch ==> leaf in c.subtree)
    modifies c`windows, c`starsSorted
    ensures AllShifted(c.subtree, s, c, mainBranch, leaf, before, sorted)
  {
    KidsProper(c);
    hide Cell.WellFormed, Later, AllShifted;
    var w := c.Win(s);
    if mainBranch {
      c.windows := WithWindow(c.windows, s, w.(count := w.count + 1));
      if s == Stars { c.starsSorted := false; }
    } else {
      c.windows := WithWindow(c.windows, s, w.(start := w.start + 1));
    }
    CellShifted(c, s, mainBranch, leaf, before, sorted);
  }
}
