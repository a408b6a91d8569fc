/**
 cell_pack and cell_unpack: a tree of cells as an array of packed cells, depth first, each with the
 offsets of its progeny; and all the other arrays that are packed in the same order.

 A tree is a value here; `D` stands for whatever a cell carries.
 */
module Packing {
  import opened Particles

  datatype Kid<D> = None | Some(cell: Tree<D>)

  datatype Tree<D> = Tree(data: D, progeny: seq<Kid<D>>)

  ghost predicate Octal<D>(t: Tree<D>)
    decreases t
  {
    |t.progeny| == 8 && forall k :: 0 <= k < 8 && t.progeny[k].Some? ==> Octal(t.progeny[k].cell)
  }

  /** cell_get_tree_size */
  function Size<D>(t: Tree<D>): (n: nat)
    requires Octal(t)
    ensures n >= 1
    decreases t, 9
  {
    1 + SizeUpTo(t, 8)
  }

  /** Cells in the first `k` progeny. */
  function SizeUpTo<D>(t: Tree<D>, k: nat): nat
    requires Octal(t) && k <= 8
    decreases t, k
  {
    if k == 0 then 0
    else SizeUpTo(t, k - 1) + if t.progeny[k - 1].Some? then Size(t.progeny[k - 1].cell) else 0
  }

  lemma {:induction false} SizesGrow<D>(t: Tree<D>, j: nat, k: nat)
    requires Octal(t) && j <= k <= 8
    ensures SizeUpTo(t, j) <= SizeUpTo(t, k)
    decreases k
  {
    if j < k { SizesGrow(t, j, k - 1); }
  }

  // ----- depth first -----

  /** What `f` says about the cells of the tree, with what is below them, depth first. */
  ghost function Preorder<D, F>(t: Tree<D>, f: Tree<D> -> F): (r: seq<F>)
    requires Octal(t)
    ensures |r| == Size(t)
    decreases t, 9
  {
    [f(t)] + PreorderUpTo(t, 8, f)
  }

  ghost function PreorderUpTo<D, F>(t: Tree<D>, k: nat, f: Tree<D> -> F): (r: seq<F>)
    requires Octal(t) && k <= 8
    ensures |r| == SizeUpTo(t, k)
    decreases t, k
  {
    if k == 0 then []
    else PreorderUpTo(t, k - 1, f) + if t.progeny[k - 1].Some? then Preorder(t.progeny[k - 1].cell, f) else []
  }

  /** The slots of progeny `k` start after those of the progeny before it. */
  lemma {:induction false} KidSlots<D, F>(t: Tree<D>, k: nat, n: nat, f: Tree<D> -> F)
    requires Octal(t) && k < n <= 8 && t.progeny[k].Some?
    ensures SizeUpTo(t, k) + Size(t.progeny[k].cell) == SizeUpTo(t, k + 1) <= SizeUpTo(t, n)
    ensures PreorderUpTo(t, n, f)[SizeUpTo(t, k)..SizeUpTo(t, k) + Size(t.progeny[k].cell)] ==
      Preorder(t.progeny[k].cell, f)
    decreases n
  {
    hide *;
    NextKid(t, k, f);
    NextKid(t, n - 1, f);
    SizesGrow(t, k + 1, n);
    var a, b := SizeUpTo(t, k), SizeUpTo(t, k + 1);
    if n == k + 1 {
      Suffix(PreorderUpTo(t, k, f), Preorder(t.progeny[k].cell, f));
    } else {
      KidSlots(t, k, n - 1, f);
      SizesGrow(t, k + 1, n - 1);
      var rest := if t.progeny[n - 1].Some? then Preorder(t.progeny[n - 1].cell, f) else [];
      Prefix(PreorderUpTo(t, n - 1, f), rest, a, b);
    }
  }

  lemma Suffix<F>(s: seq<F>, r: seq<F>)
    ensures (s + r)[|s|..|s| + |r|] == r
  {
  }

  lemma Prefix<F>(s: seq<F>, r: seq<F>, a: nat, b: nat)
    requires a <= b <= |s|
    ensures (s + r)[a..b] == s[a..b]
  {
  }

  lemma SliceOfSlice<F>(s: seq<F>, at: nat, n: nat, x: nat, y: nat)
    requires 1 <= n && at + n <= |s| && x <= y <= n - 1
    ensures s[at..at + n][1..][x..y] == s[at + 1 + x..at + 1 + y]
  {
    var l, r := s[at..at + n][1..][x..y], s[at + 1 + x..at + 1 + y];
    assert |l| == |r|;
    forall i | 0 <= i < |r| ensures l[i] == r[i] {
      assert l[i] == s[at..at + n][1..][x + i] == s[at..at + n][1 + x + i] == s[at + 1 + x + i];
    }
  }

  lemma NextKid<D, F>(t: Tree<D>, k: nat, f: Tree<D> -> F)
    requires Octal(t) && k < 8
    ensures |t.progeny| == 8
    ensures SizeUpTo(t, k + 1) == SizeUpTo(t, k) + (if t.progeny[k].Some? then Size(t.progeny[k].cell) else 0)
    ensures PreorderUpTo(t, k + 1, f) == PreorderUpTo(t, k, f)
      + (if t.progeny[k].Some? then Preorder(t.progeny[k].cell, f) else [])
    ensures SizeUpTo(t, k + 1) <= SizeUpTo(t, 8) == Size(t) - 1 && SizeUpTo(t, 0) == 0 && PreorderUpTo(t, 0, f) == []
    ensures Preorder(t, f) == [f(t)] + PreorderUpTo(t, 8, f)
    ensures t.progeny[k].Some? ==> Octal(t.progeny[k].cell)
  {
    SizesGrow(t, k + 1, 8);
  }

  // ----- packing any one thing -----

  /** The array with `s` written into it at `at`. */
  ghost function Overlay<F>(a: seq<F>, at: nat, s: seq<F>): (r: seq<F>)
    requires at + |s| <= |a|
    ensures |r| == |a|
  {
    a[..at] + s + a[at + |s|..]
  }

  lemma OverlayTwice<F>(a: seq<F>, at: nat, s: seq<F>, r: seq<F>)
    requires at + |s| + |r| <= |a|
    ensures Overlay(Overlay(a, at, s), at + |s|, r) == Overlay(a, at, s + r)
  {
  }

  lemma OverlayAt<F>(a: seq<F>, at: nat, s: seq<F>)
    requires at + |s| <= |a|
    ensures Overlay(a, at, s)[at..at + |s|] == s
    ensures Overlay(a, at, s)[..at] == a[..at] && Overlay(a, at, s)[at + |s|..] == a[at + |s|..]
  {
  }

  method Write<F>(a: array<F>, at: nat, x: F)
    requires at < a.Length
    modifies a
    ensures a[..] == Overlay(old(a[..]), at, [x])
  {
    a[at] := x;
  }

  /** A field of the cells themselves. */
  ghost function Field<D, F>(f: D -> F): Tree<D> -> F {
    (t: Tree<D>) => f(t.data)
  }

  /** cell_pack_tags, _end_step, _multipoles, _grid_extra, _sf_counts, _grav_counts: one entry for each
      cell, depth first. */
  method PackField<D, F>(t: Tree<D>, f: D -> F, a: array<F>, at: nat) returns (count: nat)
    requires Octal(t) && at + Size(t) <= a.Length
    modifies a
    ensures count == Size(t) && a[..] == Overlay(old(a[..]), at, Preorder(t, Field(f)))
    decreases t
  {
    hide Octal, Overlay, Preorder, PreorderUpTo, Size, SizeUpTo;
    ghost var before := a[..];
    NextKid(t, 0, Field(f));
    assert Field(f)(t) == f(t.data);
    Write(a, at, f(t.data));
    count := 1;
    assert [f(t.data)] + PreorderUpTo(t, 0, Field(f)) == [f(t.data)];
    for k := 0 to 8
      invariant count == 1 + SizeUpTo(t, k) <= Size(t)
      invariant a[..] == Overlay(before, at, [f(t.data)] + PreorderUpTo(t, k, Field(f)))
    {
      NextKid(t, k, Field(f));
      ghost var done := [f(t.data)] + PreorderUpTo(t, k, Field(f));
      if t.progeny[k].Some? {
        var n := PackField(t.progeny[k].cell, f, a, at + count);
        OverlayTwice(before, at, done, Preorder(t.progeny[k].cell, Field(f)));
        assert done + Preorder(t.progeny[k].cell, Field(f)) == [f(t.data)] + PreorderUpTo(t, k + 1, Field(f));
        count := count + n;
      } else {
        assert PreorderUpTo(t, k, Field(f)) + [] == PreorderUpTo(t, k, Field(f));
      }
    }
  }

  // ----- unpacking it again -----

  /** Two trees with cells in the same places. */
  ghost predicate SameShape<D, E>(t: Tree<D>, u: Tree<E>)
    requires Octal(t)
    decreases t
  {
    |u.progeny| == 8 && forall k :: 0 <= k < 8 ==>
      (t.progeny[k].Some? <==> u.progeny[k].Some?)
      && (t.progeny[k].Some? && u.progeny[k].Some? ==> SameShape(t.progeny[k].cell, u.progeny[k].cell))
  }

  lemma {:induction false} SameShapeSizes<D, E>(t: Tree<D>, u: Tree<E>, k: nat)
    requires Octal(t) && SameShape(t, u) && k <= 8
    ensures Octal(u) && SizeUpTo(u, k) == SizeUpTo(t, k)
    ensures k == 8 ==> Size(u) == Size(t)
    decreases t, k
  {
    forall j | 0 <= j < 8 && u.progeny[j].Some? ensures Octal(u.progeny[j].cell) {
      SameShapeSizes(t.progeny[j].cell, u.progeny[j].cell, 8);
    }
    if k > 0 {
      SameShapeSizes(t, u, k - 1);
      if t.progeny[k - 1].Some? { SameShapeSizes(t.progeny[k - 1].cell, u.progeny[k - 1].cell, 8); }
    }
  }

  /** The tree with g(data, entry) in every cell, the entries taken depth first. */
  ghost function Filled<D, F>(t: Tree<D>, s: seq<F>, g: (D, F) -> D): (u: Tree<D>)
    requires Octal(t) && |s| == Size(t)
    ensures SameShape(t, u)
    decreases t, 9
  {
    Tree(g(t.data, s[0]), FilledUpTo(t, 8, s[1..], g))
  }

  ghost function FilledUpTo<D, F>(t: Tree<D>, k: nat, s: seq<F>, g: (D, F) -> D): (u: seq<Kid<D>>)
    requires Octal(t) && k <= 8 && |s| >= SizeUpTo(t, k)
    ensures |u| == k && forall j :: 0 <= j < k ==>
      (u[j].Some? <==> t.progeny[j].Some?) && (u[j].Some? ==> SameShape(t.progeny[j].cell, u[j].cell))
    decreases t, k
  {
    if k == 0 then []
    else
      FilledUpTo(t, k - 1, s, g)
      + [if t.progeny[k - 1].Some? then Some(Filled(t.progeny[k - 1].cell, s[SizeUpTo(t, k - 1)..SizeUpTo(t, k)], g))
        else None]
  }

  /** What has been unpacked into a tree is what the tree now holds, cell by cell in the order of the array. */
  lemma {:induction false} Unpacked<D, F>(t: Tree<D>, s: seq<F>, g: (D, F) -> D, f: D -> F)
    requires Octal(t) && |s| == Size(t) && forall d, e :: f(g(d, e)) == e
    ensures Octal(Filled(t, s, g)) && Preorder(Filled(t, s, g), Field(f)) == s
    decreases t, 9
  {
    var u := Filled(t, s, g);
    SameShapeSizes(t, u, 8);
    UnpackedUpTo(t, 8, s, g, f);
    assert s == [s[0]] + s[1..];
    assert s[1..][..SizeUpTo(t, 8)] == s[1..];
  }

  lemma {:induction false} UnpackedUpTo<D, F>(t: Tree<D>, k: nat, s: seq<F>, g: (D, F) -> D, f: D -> F)
    requires Octal(t) && |s| == Size(t) && k <= 8 && forall d, e :: f(g(d, e)) == e
    ensures var u := Filled(t, s, g);
      Octal(u) && SizeUpTo(t, k) < |s| && PreorderUpTo(u, k, Field(f)) == s[1..][..SizeUpTo(t, k)]
    decreases t, k
  {
    hide Field, Filled, Octal, Preorder, SameShape;
    var u := Filled(t, s, g);
    SameShapeSizes(t, u, 8);
    SizesGrow(t, k, 8);
    assert Size(t) == 1 + SizeUpTo(t, 8);
    if k == 0 {
      assert SizeUpTo(t, 0) == 0 && PreorderUpTo(u, 0, Field(f)) == [];
    } else {
      UnpackedUpTo(t, k - 1, s, g, f);
      NextKid(t, k - 1, Field(f));
      NextKid(u, k - 1, Field(f));
      FilledKid(t, s, g, k - 1);
      var a, b := SizeUpTo(t, k - 1), SizeUpTo(t, k);
      if t.progeny[k - 1].Some? {
        Unpacked(t.progeny[k - 1].cell, s[1..][a..b], g, f);
        SplitPrefix(s[1..], a, b);
      } else {
        assert PreorderUpTo(u, k - 1, Field(f)) + [] == PreorderUpTo(u, k - 1, Field(f));
      }
    }
  }

  lemma SplitPrefix<F>(s: seq<F>, a: nat, b: nat)
    requires a <= b <= |s|
    ensures s[..a] + s[a..b] == s[..b]
  {
  }

  lemma {:induction false} FilledKid<D, F>(t: Tree<D>, s: seq<F>, g: (D, F) -> D, k: nat)
    requires Octal(t) && |s| == Size(t) && k < 8
    ensures |t.progeny| == 8 && |Filled(t, s, g).progeny| == 8 && SizeUpTo(t, k) <= SizeUpTo(t, k + 1) < |s|
    ensures t.progeny[k].None? ==> Filled(t, s, g).progeny[k].None?
    ensures t.progeny[k].Some? ==>
      Octal(t.progeny[k].cell) && SizeUpTo(t, k + 1) - SizeUpTo(t, k) == Size(t.progeny[k].cell)
    ensures t.progeny[k].Some? ==>
      Filled(t, s, g).progeny[k] == Some(Filled(t.progeny[k].cell, s[1..][SizeUpTo(t, k)..SizeUpTo(t, k + 1)], g))
  {
    SizesGrow(t, k + 1, 8);
    FilledUpToKid(t, 8, s[1..], g, k);
  }

  lemma {:induction false} FilledUpToKid<D, F>(t: Tree<D>, n: nat, s: seq<F>, g: (D, F) -> D, k: nat)
    requires Octal(t) && k < n <= 8 && |s| >= SizeUpTo(t, n)
    ensures SizeUpTo(t, k) <= SizeUpTo(t, k + 1) <= |s|
    ensures t.progeny[k].Some? ==> SizeUpTo(t, k + 1) - SizeUpTo(t, k) == Size(t.progeny[k].cell)
    ensures FilledUpTo(t, n, s, g)[k] == if t.progeny[k].Some?
      then Some(Filled(t.progeny[k].cell, s[SizeUpTo(t, k)..SizeUpTo(t, k + 1)], g)) else None
    decreases n
  {
    SizesGrow(t, k + 1, n);
    if k < n - 1 { SizesGrow(t, n - 1, n); FilledUpToKid(t, n - 1, s, g, k); }
  }

  /** cell_unpack_tags, _end_step, _multipoles, _sf_counts, _grav_counts. */
  method UnpackField<D, F>(t: Tree<D>, g: (D, F) -> D, a: array<F>, at: nat) returns (u: Tree<D>, count: nat)
    requires Octal(t) && at + Size(t) <= a.Length
    ensures count == Size(t) && u == Filled(t, a[at..at + count], g)
    decreases t
  {
    hide Filled, FilledUpTo, Octal, Preorder, PreorderUpTo, SameShape, Size, SizeUpTo;
    ghost var s := a[at..at + Size(t)];
    NextKid(t, 0, (x: Tree<D>) => x);
    FieldKid(t, g, a, at, 0);
    var data, progeny := g(t.data, a[at]), [];
    count := 1;
    for k := 0 to 8
      invariant count == 1 + SizeUpTo(t, k) <= Size(t)
      invariant |progeny| == k && |Filled(t, s, g).progeny| == 8
      invariant forall j :: 0 <= j < k ==> progeny[j] == Filled(t, s, g).progeny[j]
    {
      NextKid(t, k, (x: Tree<D>) => x);
      FieldKid(t, g, a, at, k);
      if t.progeny[k].Some? {
        var v, n := UnpackField(t.progeny[k].cell, g, a, at + count);
        progeny := progeny + [Some(v)];
        count := count + n;
      } else {
        progeny := progeny + [None];
      }
    }
    u := Tree(data, progeny);
    FieldHead(t, g, s);
    assert u.progeny == Filled(t, s, g).progeny;
  }

  lemma FieldHead<D, F>(t: Tree<D>, g: (D, F) -> D, s: seq<F>)
    requires Octal(t) && |s| == Size(t)
    ensures Filled(t, s, g).data == g(t.data, s[0])
  {
  }

  /** What the k-th progeny becomes, read off the array. */
  lemma FieldKid<D, F>(t: Tree<D>, g: (D, F) -> D, a: array<F>, at: nat, k: nat)
    requires Octal(t) && at + Size(t) <= a.Length && k < 8
    ensures |t.progeny| == 8 && |Filled(t, a[at..at + Size(t)], g).progeny| == 8
    ensures t.progeny[k].None? ==> Filled(t, a[at..at + Size(t)], g).progeny[k].None?
    ensures t.progeny[k].Some? ==> Octal(t.progeny[k].cell) && 1 + SizeUpTo(t, k) + Size(t.progeny[k].cell) <= Size(t)
    ensures t.progeny[k].Some? ==>
      var from := at + 1 + SizeUpTo(t, k);
      Filled(t, a[at..at + Size(t)], g).progeny[k] ==
        Some(Filled(t.progeny[k].cell, a[from..from + Size(t.progeny[k].cell)], g))
  {
    hide Filled, Octal, SameShape, Size, SizeUpTo;
    ghost var s := a[at..at + Size(t)];
    FilledKid(t, s, g, k);
    if t.progeny[k].Some? {
      var x, y := SizeUpTo(t, k), SizeUpTo(t, k + 1);
      SameSlices(a, at, Size(t));
      SliceOfSlice(a[..], at, Size(t), x, y);
      SameSlices(a, at + 1 + x, y - x);
    }
  }

  /** Whatever is packed on one side arrives in the corresponding cell on the other. */
  lemma SentIsReceived<D, F>(t: Tree<D>, u: Tree<D>, f: D -> F, g: (D, F) -> D)
    requires Octal(t) && SameShape(t, u) && forall d, e :: f(g(d, e)) == e
    ensures Octal(u) && Size(u) == Size(t) && SameShape(u, Filled(u, Preorder(t, Field(f)), g))
    ensures Octal(Filled(u, Preorder(t, Field(f)), g))
    ensures Preorder(Filled(u, Preorder(t, Field(f)), g), Field(f)) == Preorder(t, Field(f))
  {
    SameShapeSizes(t, u, 8);
    Unpacked(u, Preorder(t, Field(f)), g, f);
  }

  // ----- cell_pack and cell_unpack -----

  /** struct pcell: the packed fields and, for each progeny, its offset from here, or -1. */
  datatype PCell<P> = PCell(fields: P, progeny: seq<int>)

  /** What a cell carries: the fields that are sent, and the place that the receiver works out itself. */
  datatype Data<P> = Data(packed: P, loc: Vec, width: Vec, depth: int)

  ghost function Offsets<D>(t: Tree<D>, n: nat): (r: seq<int>)
    requires n <= 8
    ensures |r| == n
  {
    if n == 0 then []
    else Offsets(t, n - 1) + [if Octal(t) && t.progeny[n - 1].Some? then 1 + SizeUpTo(t, n - 1) else -1]
  }

  lemma {:induction false} OffsetAt<D>(t: Tree<D>, n: nat, k: nat)
    requires Octal(t) && k < n <= 8
    ensures Offsets(t, n)[k] == if t.progeny[k].Some? then 1 + SizeUpTo(t, k) else -1
    decreases n
  {
    if k < n - 1 { OffsetAt(t, n - 1, k); }
  }

  ghost function Header<P>(t: Tree<Data<P>>): PCell<P> {
    PCell(t.data.packed, Offsets(t, 8))
  }

  ghost function Headers<P>(): Tree<Data<P>> -> PCell<P> {
    (x: Tree<Data<P>>) => Header(x)
  }

  /** The packed tree. */
  ghost function Cells<P>(t: Tree<Data<P>>): (r: seq<PCell<P>>)
    requires Octal(t)
    ensures |r| == Size(t)
  {
    Preorder(t, Headers())
  }

  ghost function CellsUpTo<P>(t: Tree<Data<P>>, k: nat): (r: seq<PCell<P>>)
    requires Octal(t) && k <= 8
    ensures |r| == SizeUpTo(t, k)
  {
    PreorderUpTo(t, k, Headers())
  }

  lemma CellsKid<P>(t: Tree<Data<P>>, k: nat)
    requires Octal(t) && k < 8
    ensures |t.progeny| == 8 && SizeUpTo(t, k + 1) <= SizeUpTo(t, 8) == Size(t) - 1
    ensures SizeUpTo(t, k + 1) == SizeUpTo(t, k) + (if t.progeny[k].Some? then Size(t.progeny[k].cell) else 0)
    ensures t.progeny[k].Some? ==> Octal(t.progeny[k].cell)
    ensures CellsUpTo(t, k + 1) == CellsUpTo(t, k) + (if t.progeny[k].Some? then Cells(t.progeny[k].cell) else [])
    ensures CellsUpTo(t, 0) == [] && SizeUpTo(t, 0) == 0 && Cells(t) == [Header(t)] + CellsUpTo(t, 8)
    ensures t.progeny[k].Some? ==> Cells(t)[1 + SizeUpTo(t, k)..1 + SizeUpTo(t, k + 1)] == Cells(t.progeny[k].cell)
  {
    hide Header, Octal, Preorder, PreorderUpTo, Size, SizeUpTo;
    var h: Tree<Data<P>> -> PCell<P> := Headers();
    NextKid(t, k, h);
    assert h(t) == Header(t);
    assert Cells(t) == Preorder(t, h) && CellsUpTo(t, 8) == PreorderUpTo(t, 8, h)
      && CellsUpTo(t, 0) == PreorderUpTo(t, 0, h)
      && CellsUpTo(t, k) == PreorderUpTo(t, k, h) && CellsUpTo(t, k + 1) == PreorderUpTo(t, k + 1, h);
    if t.progeny[k].Some? {
      assert Cells(t.progeny[k].cell) == Preorder(t.progeny[k].cell, h);
      KidSlots(t, k, 8, h);
      AfterHead(Header(t), CellsUpTo(t, 8), SizeUpTo(t, k), SizeUpTo(t, k + 1));
    }
  }

  /** Where a progeny is found in an array that holds the entries of the tree. */
  lemma KidEntries<D, F>(t: Tree<D>, f: Tree<D> -> F, a: seq<F>, at: nat, k: nat)
    requires Octal(t) && at + Size(t) <= |a| && a[at..at + Size(t)] == Preorder(t, f) && k < 8 && |t.progeny| == 8
    requires t.progeny[k].Some?
    ensures Octal(t.progeny[k].cell) && at + 1 + SizeUpTo(t, k) + Size(t.progeny[k].cell) <= at + Size(t)
    ensures a[at + 1 + SizeUpTo(t, k)..at + 1 + SizeUpTo(t, k) + Size(t.progeny[k].cell)] ==
      Preorder(t.progeny[k].cell, f)
  {
    hide *;
    NextKid(t, k, f);
    KidSlots(t, k, 8, f);
    var x, y, rest := SizeUpTo(t, k), SizeUpTo(t, k + 1), PreorderUpTo(t, 8, f);
    AfterHead(f(t), rest, x, y);
    Nested(a, at, Size(t), 1 + x, 1 + y);
    assert ([f(t)] + rest)[1 + x..1 + y] == Preorder(t.progeny[k].cell, f);
  }

  lemma AfterHead<F>(x: F, s: seq<F>, a: nat, b: nat)
    requires a <= b <= |s|
    ensures ([x] + s)[1 + a..1 + b] == s[a..b]
  {
  }

  /** cell_pack */
  method Pack<P>(t: Tree<Data<P>>, pc: array<PCell<P>>, at: nat) returns (count: nat)
    requires Octal(t) && at + Size(t) <= pc.Length
    modifies pc
    ensures count == Size(t) && pc[..] == Overlay(old(pc[..]), at, Cells(t))
    decreases t, 1
  {
    hide Cells, CellsUpTo, Header, Octal, Overlay, Size, SizeUpTo;
    CellsKid(t, 0);
    ghost var before, fields := pc[..], pc[at];
    var offsets;
    count, offsets := PackProgeny(t, pc, at);
    PutHeader(pc, at, PCell(t.data.packed, offsets));
    HeaderIs(t, offsets);
    OverlayHead(before, at, fields, CellsUpTo(t, 8), Header(t));
  }

  lemma HeaderIs<P>(t: Tree<Data<P>>, offsets: seq<int>)
    requires offsets == Offsets(t, 8)
    ensures Header(t) == PCell(t.data.packed, offsets)
  {
  }

  method PutHeader<P>(pc: array<PCell<P>>, at: nat, x: PCell<P>)
    requires at < pc.Length
    modifies pc
    ensures pc[..] == old(pc[..])[at := x]
  {
    pc[at] := x;
  }

  /** The loop over the progeny. */
  method PackProgeny<P>(t: Tree<Data<P>>, pc: array<PCell<P>>, at: nat) returns (count: nat, offsets: seq<int>)
    requires Octal(t) && at + Size(t) <= pc.Length && at < pc.Length
    modifies pc
    ensures at + 1 + |CellsUpTo(t, 8)| <= pc.Length
    ensures count == Size(t) && offsets == Offsets(t, 8)
    ensures pc[..] == Overlay(old(pc[..]), at, [old(pc[at])] + CellsUpTo(t, 8))
    decreases t, 0
  {
    hide Cells, CellsUpTo, Octal, Overlay, Size, SizeUpTo;
    CellsKid(t, 0);
    ghost var before, fields := pc[..], pc[at];
    offsets := [];
    count := 1;
    OverlayNothing(before, at);
    assert Offsets(t, 0) == [];
    for k := 0 to 8
      invariant count == 1 + SizeUpTo(t, k) <= Size(t)
      invariant offsets == Offsets(t, k)
      invariant pc[..] == Overlay(before, at, [fields] + CellsUpTo(t, k))
    {
      CellsKid(t, k);
      NextOffset(t, k);
      ghost var done := [fields] + CellsUpTo(t, k);
      if t.progeny[k].Some? {
        offsets := offsets + [count];
        var n := Pack(t.progeny[k].cell, pc, at + count);
        OverlayTwice(before, at, done, Cells(t.progeny[k].cell));
        assert done + Cells(t.progeny[k].cell) == [fields] + CellsUpTo(t, k + 1);
        count := count + n;
      } else {
        offsets := offsets + [-1];
        assert CellsUpTo(t, k) + [] == CellsUpTo(t, k);
      }
    }
  }

  lemma NextOffset<D>(t: Tree<D>, k: nat)
    requires Octal(t) && k < 8
    ensures |t.progeny| == 8
    ensures Offsets(t, k + 1) == Offsets(t, k) + [if t.progeny[k].Some? then 1 + SizeUpTo(t, k) else -1]
  {
  }

  lemma OverlayNothing<F>(a: seq<F>, at: nat)
    requires at < |a|
    ensures Overlay(a, at, [a[at]] + []) == a && [a[at]] + [] == [a[at]]
  {
  }

  lemma OverlayHead<F>(a: seq<F>, at: nat, x: F, s: seq<F>, y: F)
    requires at + 1 + |s| <= |a|
    ensures Overlay(a, at, [x] + s)[at := y] == Overlay(a, at, [y] + s)
  {
  }

  function Eighth(k: int, loc: Vec, width: Vec): Vec {
    Vec(if 4 <= k then loc.x + width.x else loc.x,
        if k == 2 || k == 3 || k == 6 || k == 7 then loc.y + width.y else loc.y,
        if k == 1 || k == 3 || k == 5 || k == 7 then loc.z + width.z else loc.z)
  }

  function Half(width: Vec): Vec {
    Vec(width.x / 2.0, width.y / 2.0, width.z / 2.0)
  }

  /** The tree as the receiver rebuilds it: the same cells with the same packed fields, each in its octant. */
  ghost function Rebuilt<P>(t: Tree<Data<P>>, loc: Vec, width: Vec, depth: int): (u: Tree<Data<P>>)
    requires Octal(t)
    ensures SameShape(t, u)
    decreases t, 9
  {
    Tree(Data(t.data.packed, loc, width, depth), RebuiltUpTo(t, 8, loc, width, depth))
  }

  ghost function RebuiltUpTo<P>(t: Tree<Data<P>>, k: nat, loc: Vec, width: Vec, depth: int): (u: seq<Kid<Data<P>>>)
    requires Octal(t) && k <= 8
    ensures |u| == k && forall j :: 0 <= j < k ==>
      (u[j].Some? <==> t.progeny[j].Some?) && (u[j].Some? ==> SameShape(t.progeny[j].cell, u[j].cell))
    decreases t, k
  {
    if k == 0 then []
    else
      RebuiltUpTo(t, k - 1, loc, width, depth)
      + [if t.progeny[k - 1].Some?
        then Some(Rebuilt(t.progeny[k - 1].cell, Eighth(k - 1, loc, Half(width)), Half(width), depth + 1)) else None]
  }

  lemma {:induction false} RebuiltKid<P>(t: Tree<Data<P>>, n: nat, loc: Vec, width: Vec, depth: int, k: nat)
    requires Octal(t) && k < n <= 8
    ensures RebuiltUpTo(t, n, loc, width, depth)[k] ==
      if t.progeny[k].Some? then Some(Rebuilt(t.progeny[k].cell, Eighth(k, loc, Half(width)), Half(width), depth + 1))
        else None
    decreases n
  {
    if k < n - 1 { RebuiltKid(t, n - 1, loc, width, depth, k); }
  }

  /** cell_unpack.  `t` is the tree that has been packed. */
  method Unpack<P>(pc: array<PCell<P>>, at: nat, loc: Vec, width: Vec, depth: int, ghost t: Tree<Data<P>>)
      returns (u: Tree<Data<P>>, count: nat)
    requires Octal(t) && at + Size(t) <= pc.Length && pc[at..at + Size(t)] == Cells(t)
    ensures count == Size(t) && u == Rebuilt(t, loc, width, depth)
    decreases t
  {
    hide Cells, CellsUpTo, Eighth, Half, Octal, Offsets, RebuiltUpTo, SameShape, Size, SizeUpTo;
    CellsKid(t, 0);
    assert pc[at] == Header(t) by { assert pc[at..at + Size(t)][0] == Cells(t)[0]; }
    assert pc[at].fields == t.data.packed && pc[at].progeny == Offsets(t, 8);
    var progeny: seq<Kid<Data<P>>> := [];
    count := 1;
    for k := 0 to 8
      invariant count == 1 + SizeUpTo(t, k) <= Size(t)
      invariant |progeny| == k && forall j :: 0 <= j < k ==> progeny[j] == RebuiltUpTo(t, 8, loc, width, depth)[j]
    {
      KidAhead(pc, at, t, k, loc, width, depth);
      if pc[at].progeny[k] >= 0 {
        var from := at + pc[at].progeny[k];
        var v, n := Unpack(pc, from, Eighth(k, loc, Half(width)), Half(width), depth + 1, t.progeny[k].cell);
        progeny := progeny + [Some(v)];
        count := count + n;
      } else {
        progeny := progeny + [None];
      }
    }
    u := Tree(Data(pc[at].fields, loc, width, depth), progeny);
    assert progeny == RebuiltUpTo(t, 8, loc, width, depth);
    assert u == Rebuilt(t, loc, width, depth);
  }

  /** What the receiver finds when it comes to progeny `k`. */
  lemma KidAhead<P>(pc: array<PCell<P>>, at: nat, t: Tree<Data<P>>, k: nat, loc: Vec, width: Vec, depth: int)
    requires Octal(t) && at + Size(t) <= pc.Length && pc[at..at + Size(t)] == Cells(t) && k < 8
    requires pc[at].progeny == Offsets(t, 8)
    ensures |t.progeny| == 8 == |pc[at].progeny| && |RebuiltUpTo(t, 8, loc, width, depth)| == 8
    ensures pc[at].progeny[k] >= 0 <==> t.progeny[k].Some?
    ensures 1 + SizeUpTo(t, k + 1) <= Size(t)
    ensures t.progeny[k].None? ==> SizeUpTo(t, k + 1) == SizeUpTo(t, k) && RebuiltUpTo(t, 8, loc, width, depth)[k].None?
    ensures t.progeny[k].Some? ==>
      var from, kid := at + pc[at].progeny[k], t.progeny[k].cell;
      && Octal(kid) && from == at + 1 + SizeUpTo(t, k) && SizeUpTo(t, k + 1) == SizeUpTo(t, k) + Size(kid)
      && from + Size(kid) <= pc.Length && pc[from..from + Size(kid)] == Cells(kid)
      && RebuiltUpTo(t, 8, loc, width, depth)[k] == Some(Rebuilt(kid, Eighth(k, loc, Half(width)), Half(width), depth + 1))
  {
    hide Cells, CellsUpTo, Eighth, Half, Octal, Offsets, Rebuilt, RebuiltUpTo, SameShape, Size, SizeUpTo;
    CellsKid(t, k);
    OffsetAt(t, 8, k);
    RebuiltKid(t, 8, loc, width, depth, k);
    if t.progeny[k].Some? { KidPacked(pc, at, t, k); }
  }

  lemma KidPacked<P>(pc: array<PCell<P>>, at: nat, t: Tree<Data<P>>, k: nat)
    requires Octal(t) && at + Size(t) <= pc.Length && pc[at..at + Size(t)] == Cells(t) && k < 8 && |t.progeny| == 8
    requires t.progeny[k].Some?
    ensures Octal(t.progeny[k].cell) && at + 1 + SizeUpTo(t, k) + Size(t.progeny[k].cell) <= at + Size(t)
    ensures pc[at + 1 + SizeUpTo(t, k)..at + 1 + SizeUpTo(t, k) + Size(t.progeny[k].cell)] == Cells(t.progeny[k].cell)
  {
    hide Headers, Preorder, Size, SizeUpTo;
    SameSlices(pc, at, Size(t));
    var h: Tree<Data<P>> -> PCell<P> := Headers();
    assert Octal(t.progeny[k].cell);
    assert Cells(t) == Preorder(t, h) && Cells(t.progeny[k].cell) == Preorder(t.progeny[k].cell, h);
    KidEntries(t, h, pc[..], at, k);
    SameSlices(pc, at + 1 + SizeUpTo(t, k), Size(t.progeny[k].cell));
  }

  lemma Nested<F>(s: seq<F>, at: nat, n: nat, a: nat, b: nat)
    requires at + n <= |s| && a <= b <= n
    ensures s[at..at + n][a..b] == s[at + a..at + b]
  {
    var l, r := s[at..at + n][a..b], s[at + a..at + b];
    forall i | 0 <= i < b - a ensures l[i] == r[i] {
      assert l[i] == s[at..at + n][a + i];
    }
  }

  lemma SameSlices<F>(a: array<F>, at: nat, n: nat)
    requires at + n <= a.Length
    ensures a[at..at + n] == a[..][at..at + n]
  {
  }

  /** The cells of the sender are where their octants are. */
  ghost predicate Canonical<P>(t: Tree<Data<P>>)
    requires Octal(t)
    decreases t
  {
    forall k :: 0 <= k < 8 && t.progeny[k].Some? ==>
      var kid := t.progeny[k].cell;
      && kid.data.loc == Eighth(k, t.data.loc, Half(t.data.width)) && kid.data.width == Half(t.data.width)
      && kid.data.depth == t.data.depth + 1 && Canonical(kid)
  }

  /** A tree that is packed and unpacked is the tree it was exactly when its cells are where their octants are. */
  lemma {:induction false} RoundTrip<P>(t: Tree<Data<P>>)
    requires Octal(t)
    ensures Rebuilt(t, t.data.loc, t.data.width, t.data.depth) == t <==> Canonical(t)
    decreases t
  {
    var loc, width, depth := t.data.loc, t.data.width, t.data.depth;
    var u := RebuiltUpTo(t, 8, loc, width, depth);
    forall k | 0 <= k < 8 ensures u[k] == t.progeny[k] <==> t.progeny[k].Some? ==>
      t.progeny[k].cell.data.loc == Eighth(k, loc, Half(width)) && t.progeny[k].cell.data.width == Half(width)
      && t.progeny[k].cell.data.depth == depth + 1 && Canonical(t.progeny[k].cell)
    {
      RebuiltKid(t, 8, loc, width, depth, k);
      if t.progeny[k].Some? { RoundTrip(t.progeny[k].cell); }
    }
    assert u == t.progeny <==> forall k :: 0 <= k < 8 ==> u[k] == t.progeny[k];
  }

  /** One side packs, the other unpacks. */
  method Send<P>(t: Tree<Data<P>>, pc: array<PCell<P>>) returns (u: Tree<Data<P>>)
    requires Octal(t) && Size(t) <= pc.Length && Canonical(t)
    modifies pc
    ensures u == t
    ensures pc[Size(t)..] == old(pc[Size(t)..])
  {
    var n := Pack(t, pc, 0);
    OverlayAt(old(pc[..]), 0, Cells(t));
    assert pc[0..Size(t)] == pc[..][0..Size(t)];
    u, n := Unpack(pc, 0, t.data.loc, t.data.width, t.data.depth, t);
    RoundTrip(t);
    assert pc[Size(t)..] == pc[..][Size(t)..] && old(pc[Size(t)..]) == old(pc[..])[Size(t)..];
  }
}
