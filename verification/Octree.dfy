/**
 Cells of the octree.  The shape of a tree is fixed while the code modelled here runs, so `progeny`
 and `split` are constants; everything the code writes is a mutable field.

 A pointer into one of the particle arrays is modelled as an index into that array, and the pair of
 fields (parts, count) of a cell as a window.
 */
module Octree {
  import opened Particles

  /** enum grid_completeness */
  datatype Completeness = Invalidated | Complete | Incomplete

  datatype Window = Window(start: int, count: nat, total: nat)

  datatype Species = Gas | Stars | Sinks | BlackHoles | Grav

  /** The five windows of a cell, one for each particle array. */
  datatype Windows = Windows(hydro: Window, stars: Window, sinks: Window, blackHoles: Window, grav: Window)

  function WindowOf(w: Windows, s: Species): Window {
    match s
    case Gas => w.hydro
    case Stars => w.stars
    case Sinks => w.sinks
    case BlackHoles => w.blackHoles
    case Grav => w.grav
  }

  function WithWindow(w: Windows, s: Species, v: Window): Windows {
    match s
    case Gas => w.(hydro := v)
    case Stars => w.(stars := v)
    case Sinks => w.(sinks := v)
    case BlackHoles => w.(blackHoles := v)
    case Grav => w.(grav := v)
  }

  /** When the stars, the sinks and the gparts of a cell were last drifted. */
  datatype Times = Times(stars: int, sinks: int, grav: int) {
    function Of(s: Species): (t: int)
      ensures (s == Stars ==> t == stars) && (s == Sinks ==> t == sinks) && (s == Grav ==> t == grav)
    {
      match s
      case Stars => stars
      case Sinks => sinks
      case _ => grav
    }

    function With(s: Species, t: int): (r: Times)
      ensures s == Stars ==> r.stars == t && r.sinks == sinks && r.grav == grav
      ensures s == Sinks ==> r.sinks == t && r.stars == stars && r.grav == grav
      ensures s == Grav ==> r.grav == t && r.stars == stars && r.sinks == sinks
    {
      match s
      case Stars => this.(stars := t)
      case Sinks => this.(sinks := t)
      case _ => this.(grav := t)
    }
  }

  class Cell {
    const progeny: seq<Cell?>
    const split: bool
    ghost const subtree: set<Cell>

    var parent: Cell?
    var depth: int
    var windows: Windows

    var loc: Vec
    var width: Vec

    /** Whether the cell belongs to another rank, and the times of the last drift but that of the gas. */
    var foreign: bool
    var tiOld: Times

    /** Whether the stars of the cell have valid sort arrays. */
    var starsSorted: bool

    /** The moving mesh: whether all of the 27 parts of the cell hold gas, and the cell whose mesh is built. */
    var selfCompleteness: Completeness
    var complete: bool
    var constructionLevel: Cell?

    /** Lazy drift of the gas: the super-cell, the time of the last drift, the two flags, and the
        upper limits on smoothing length and (squared) motion since the last rebuild. */
    var hydroSuper: Cell?
    var tiOldPart: int
    var doDrift: bool
    var doSubDrift: bool
    var hMax: real
    var dx2Max: real

    /** A cell built over already existing progeny, as space_split leaves it once empty progeny have
        been given back. */
    constructor (progeny: seq<Cell?>)
      requires |progeny| == 8
      requires forall k :: 0 <= k < 8 && progeny[k] != null ==> progeny[k].WellFormed()
      requires forall j, k :: 0 <= j < k < 8 && progeny[j] != null && progeny[k] != null ==>
        progeny[j].subtree !! progeny[k].subtree
      modifies set k | 0 <= k < 8 :: progeny[k]
      ensures WellFormed() && fresh(this) && this.progeny == progeny
      ensures split <==> exists k :: 0 <= k < 8 && progeny[k] != null
      ensures forall k :: 0 <= k < 8 && progeny[k] != null ==> progeny[k].parent == this
    {
      this.progeny := progeny;
      this.split := exists k :: 0 <= k < 8 && progeny[k] != null;
      this.subtree := {this} + (set k, d | 0 <= k < 8 && progeny[k] != null && d in progeny[k].subtree :: d);
      parent := null;
      var none := Window(0, 0, 0);
      windows := Windows(none, none, none, none, none);
      hydroSuper, depth, starsSorted := null, 0, false;
      foreign, tiOld := false, Times(0, 0, 0);
      loc, width := Vec(0.0, 0.0, 0.0), Vec(1.0, 1.0, 1.0);
      selfCompleteness, complete, constructionLevel := Invalidated, false, null;
      tiOldPart, doDrift, doSubDrift, hMax, dx2Max := 0, false, false, 0.0, 0.0;
      new;
      forall k | 0 <= k < 8 && progeny[k] != null {
        progeny[k].parent := this;
      }
      Assembled();
    }

    lemma Assembled()
      requires |progeny| == 8 && (split <==> exists k :: 0 <= k < 8 && progeny[k] != null)
      requires forall k :: 0 <= k < 8 && progeny[k] != null ==> progeny[k].WellFormed() && this !in progeny[k].subtree
      requires forall j, k :: 0 <= j < k < 8 && progeny[j] != null && progeny[k] != null ==>
        progeny[j].subtree !! progeny[k].subtree
      requires subtree == {this} + (set k, d | 0 <= k < 8 && progeny[k] != null && d in progeny[k].subtree :: d)
      ensures WellFormed()
    {
      forall k | 0 <= k < 8 && progeny[k] != null ensures progeny[k] in subtree && progeny[k].subtree < subtree {
        assert progeny[k] in progeny[k].subtree;
        assert forall d :: d in progeny[k].subtree ==> d in subtree;
        assert this in subtree && this !in progeny[k].subtree;
      }
    }

    /** Proper octrees: eight slots, disjoint subtrees, no cycles. */
    ghost predicate WellFormed()
      decreases subtree
    {
      && |progeny| == 8
      && this in subtree
      && (!split ==> forall k :: 0 <= k < 8 ==> progeny[k] == null)
      && (forall k :: 0 <= k < 8 && progeny[k] != null ==>
            && progeny[k] in subtree
            && this !in progeny[k].subtree
            && progeny[k].subtree < subtree
            && progeny[k].WellFormed())
      && (forall j, k :: 0 <= j < k < 8 && progeny[j] != null && progeny[k] != null ==>
            progeny[j].subtree !! progeny[k].subtree)
      && (forall d :: d in subtree && d != this ==>
            exists k :: 0 <= k < 8 && progeny[k] != null && d in progeny[k].subtree)
    }

    /** Every cell of the subtree is the parent of its progeny. */
    ghost predicate Rooted()
      reads subtree`parent
    {
      forall a, k :: a in subtree && 0 <= k < |a.progeny| && a.progeny[k] != null && a.progeny[k] in subtree ==>
        a.progeny[k].parent == a
    }

    function Win(s: Species): Window
      reads `windows
    {
      WindowOf(windows, s)
    }

    /** No particle can be added to a cell of another rank, to one that has not been drifted, or above the leaves. */
    predicate Refuses(s: Species, now: int)
      reads `foreign, `tiOld
    {
      foreign || tiOld.Of(s) != now || split
    }

    function End(s: Species): int
      reads `windows
    {
      Win(s).start + Win(s).count
    }

    ghost function Kids(): set<Cell> {
      set j | 0 <= j < |progeny| && progeny[j] != null :: progeny[j]
    }

    /** Where progeny `k` begins when the progeny lie one after the other from the cell's start. */
    ghost function KidStart(s: Species, k: nat): int
      requires k <= 8 == |progeny|
      reads `windows, Kids()`windows
    {
      if k == 0 then Win(s).start
      else KidStart(s, k - 1) + if progeny[k - 1] == null then 0 else progeny[k - 1].Win(s).count
    }

    /** The progeny windows of this cell tile the cell's own window. */
    ghost predicate KidsTile(s: Species)
      requires |progeny| == 8
      reads `windows, Kids()`windows
    {
      && (forall k :: 0 <= k < 8 && progeny[k] != null ==> progeny[k].Win(s).start == KidStart(s, k))
      && KidStart(s, 8) == End(s)
    }

    /** All windows of the subtree tile, level by level. */
    ghost predicate Tiled(s: Species)
      requires WellFormed()
      reads subtree`windows
      decreases subtree
    {
      split ==>
        && KidsTile(s)
        && forall k :: 0 <= k < 8 && progeny[k] != null ==> progeny[k].Tiled(s)
    }
  }

  // Only the first three lemmas look inside `WellFormed`.

  lemma KidsProper(c: Cell)
    requires c.WellFormed()
    ensures |c.progeny| == 8 && c in c.subtree
    ensures !c.split ==> forall k :: 0 <= k < 8 ==> c.progeny[k] == null
    ensures forall k :: 0 <= k < 8 && c.progeny[k] != null ==>
      && c.progeny[k].WellFormed()
      && c.progeny[k] in c.subtree && c.progeny[k].subtree < c.subtree && c !in c.progeny[k].subtree
  {
  }

  lemma KidsDisjoint(c: Cell)
    requires c.WellFormed()
    ensures |c.progeny| == 8
    ensures forall j, k :: 0 <= j < 8 && 0 <= k < 8 && j != k && c.progeny[j] != null && c.progeny[k] != null ==>
      c.progeny[j].subtree !! c.progeny[k].subtree
  {
  }

  lemma SlotExists(c: Cell, d: Cell) returns (k: nat)
    requires c.WellFormed() && d in c.subtree && d != c
    ensures k < 8 && |c.progeny| == 8 && c.progeny[k] != null && d in c.progeny[k].subtree
  {
    k :| 0 <= k < 8 && c.progeny[k] != null && d in c.progeny[k].subtree;
  }

  lemma {:induction false} SubtreeNested(c: Cell, a: Cell)
    requires c.WellFormed() && a in c.subtree
    ensures a.WellFormed() && a.subtree <= c.subtree
    ensures c in c.subtree && a in a.subtree
    decreases c.subtree
  {
    hide Cell.WellFormed;
    KidsProper(c);
    if a != c {
      var k := SlotExists(c, a);
      SubtreeNested(c.progeny[k], a);
    }
  }

  lemma {:induction false} KidStartMonotone(c: Cell, s: Species, j: nat, k: nat)
    requires j <= k <= 8 == |c.progeny|
    ensures c.KidStart(s, j) <= c.KidStart(s, k)
    decreases k
  {
    if j < k {
      KidStartMonotone(c, s, j, k - 1);
    }
  }

  /** What one slot adds to the running start. */
  lemma KidStep(c: Cell, s: Species, k: nat)
    requires c.WellFormed() && c.Tiled(s) && c.split && k < 8
    ensures c.progeny[k] == null ==> c.KidStart(s, k + 1) == c.KidStart(s, k)
    ensures c.progeny[k] != null ==>
      && c.progeny[k].WellFormed() && c.progeny[k].Tiled(s) && c.progeny[k] in c.subtree
        && c.progeny[k].subtree < c.subtree
      && c.progeny[k].Win(s).start == c.KidStart(s, k) && c.progeny[k].End(s) == c.KidStart(s, k + 1)
  {
  }

  /** Siblings have windows in order, inside their parent's window. */
  lemma KidWindow(c: Cell, s: Species, j: nat, k: nat)
    requires c.WellFormed() && c.KidsTile(s)
    requires j < k <= 8 && c.progeny[j] != null
    ensures c.Win(s).start <= c.progeny[j].Win(s).start
    ensures c.progeny[j].End(s) <= c.KidStart(s, k) <= c.End(s)
    ensures k < 8 && c.progeny[k] != null ==> c.progeny[j].End(s) <= c.progeny[k].Win(s).start
  {
    KidStartMonotone(c, s, 0, j);
    KidStartMonotone(c, s, j + 1, k);
    KidStartMonotone(c, s, k, 8);
  }

  /** Every cell below `c` has its window inside that of `c`. */
  lemma {:induction false} WindowInside(c: Cell, s: Species, a: Cell)
    requires c.WellFormed() && c.Tiled(s) && a in c.subtree
    ensures c.Win(s).start <= a.Win(s).start && a.End(s) <= c.End(s)
    ensures a.WellFormed() && a.Tiled(s)
    decreases c.subtree
  {
    if a != c {
      var k :| 0 <= k < 8 && c.progeny[k] != null && a in c.progeny[k].subtree;
      KidWindow(c, s, k, 8);
      WindowInside(c.progeny[k], s, a);
    }
  }

  /** Which slot of `c` a cell below it hangs from; every cell between the two hangs there too. */
  lemma SlotOf(c: Cell, d: Cell) returns (k: nat)
    requires c.WellFormed() && d in c.subtree && d != c
    ensures k < 8 == |c.progeny| && c.progeny[k] != null && d in c.progeny[k].subtree
    ensures c.progeny[k].WellFormed() && c.progeny[k].subtree < c.subtree && c !in c.progeny[k].subtree
    ensures forall a :: a in c.subtree && d in a.subtree && a != c ==> a in c.progeny[k].subtree
  {
    hide Cell.WellFormed;
    KidsProper(c);
    KidsDisjoint(c);
    k := SlotExists(c, d);
    forall a | a in c.subtree && d in a.subtree && a != c ensures a in c.progeny[k].subtree {
      var j := SlotExists(c, a);
      SubtreeNested(c.progeny[j], a);
    }
  }

  /** Two cells can only be below each other when they are the same. */
  lemma NoCycle(c: Cell, a: Cell)
    requires c.WellFormed() && a in c.subtree && a != c
    ensures c !in a.subtree
  {
    hide Cell.WellFormed;
    var k := SlotOf(c, a);
    SubtreeNested(c.progeny[k], a);
  }

  /** A cell below the root has its parent in the tree and hangs from one of the parent's slots. */
  lemma {:induction false} ParentOf(c: Cell, d: Cell)
    requires c.WellFormed() && c.Rooted() && d in c.subtree && d != c
    ensures d.parent != null && d.parent in c.subtree && d.parent != d && d in d.parent.subtree
    ensures exists k :: 0 <= k < 8 && |d.parent.progeny| == 8 && d.parent.progeny[k] == d
    ensures forall a :: a in c.subtree && d in a.subtree && a != d ==> d.parent in a.subtree
    decreases c.subtree
  {
    var k := SlotOf(c, d);
    if c.progeny[k] == d {
      forall a | a in c.subtree && d in a.subtree && a != d && a != c ensures false {
        NoCycle(d, a);
      }
    } else {
      SubtreeNested(c, c.progeny[k]);
      ParentOf(c.progeny[k], d);
    }
  }

  /** The cells above a given one form a chain. */
  lemma {:induction false} AboveIsChain(c: Cell, a: Cell, b: Cell, d: Cell)
    requires c.WellFormed() && a in c.subtree && b in c.subtree
    requires d in a.subtree && d in b.subtree && d in c.subtree
    ensures a in b.subtree || b in a.subtree
    decreases c.subtree
  {
    hide Cell.WellFormed;
    if a != c && b != c && d != c {
      var k := SlotOf(c, d);
      AboveIsChain(c.progeny[k], a, b, d);
    } else if d == c {
      if a != c { NoCycle(c, a); }
    }
  }

  lemma ParentAbove(top: Cell, d: Cell)
    requires top.WellFormed() && top.Rooted() && d in top.subtree && d != top
    ensures d.parent != null && d.parent in top.subtree && d.parent.WellFormed()
    ensures d in d.parent.subtree && d.parent !in d.subtree && d.subtree < d.parent.subtree
  {
    hide Cell.WellFormed, Cell.Rooted;
    ParentOf(top, d);
    SubtreeNested(top, d.parent);
    SubtreeNested(d.parent, d);
    NoCycle(d.parent, d);
  }

  /** Going up from `last` to its parent adds just the parent to the cells above `c`. */
  lemma LinkAbove(top: Cell, last: Cell, c: Cell, d: Cell)
    requires top.WellFormed() && top.Rooted() && last in top.subtree && last != top
    requires d in top.subtree && c in top.subtree && c in last.subtree && c in d.subtree
    ensures last.parent != null && last.parent in top.subtree
    ensures d in last.subtree || last.parent in d.subtree
    ensures d in last.parent.subtree ==> d == last.parent || d in last.subtree
  {
    hide Cell.WellFormed, Cell.Rooted;
    ParentOf(top, last);
    AboveIsChain(top, last, d, c);
    if d !in last.subtree {
      assert last in d.subtree;
      SubtreeNested(top, d);
      assert d != last;
      if d in last.parent.subtree && d != last.parent {
        SubtreeNested(top, last.parent);
        NoCycle(last.parent, d);
      }
    }
  }

  lemma {:induction false} KidAt(c: Cell, s: Species, i: int, n: nat) returns (k: nat)
    requires c.WellFormed() && c.Tiled(s) && c.split && n <= 8
    requires c.Win(s).start <= i < c.KidStart(s, n)
    ensures k < 8 && c.progeny[k] != null && c.progeny[k].Win(s).start <= i < c.progeny[k].End(s)
  {
    KidStep(c, s, n - 1);
    if c.progeny[n - 1] != null && c.KidStart(s, n - 1) <= i {
      k := n - 1;
    } else {
      k := KidAt(c, s, i, n - 1);
    }
  }

  /** Every particle of a cell is in one of its leaves. */
  lemma {:induction false} LeafAt(c: Cell, s: Species, i: int) returns (d: Cell)
    requires c.WellFormed() && c.Tiled(s) && c.Win(s).start <= i < c.End(s)
    ensures d in c.subtree && !d.split && d.Win(s).start <= i < d.End(s)
    decreases c.subtree
  {
    if !c.split {
      d := c;
    } else {
      var k := KidAt(c, s, i, 8);
      KidStep(c, s, k);
      d := LeafAt(c.progeny[k], s, i);
    }
  }
}
