/**
 The recursion over neighbouring cells: a cell with itself, two touching cells by the table of sub-pairs.
 Wherever it stops, every two touching cells of the finest level are dealt with exactly once.
 */
module Neighbours {
  import opened SplitTable

  // ----- touching, one level further down -----

  /** One direction: `d` between two cells, `c` = -1, 0 or 1 from the places of the two children. */
  lemma WrapChild(b: Box, d: int, c: int, m: int)
    requires (b.periodic ==> m >= 3) && -m < d < m && -1 <= c <= 1
    ensures -1 <= Wrap(b, d, m) <= 1 ==> (-1 <= Wrap(b, 2 * d + c, 2 * m) <= 1 <==> -1 <= 2 * Wrap(b, d, m) + c <= 1)
    ensures -1 <= Wrap(b, 2 * d + c, 2 * m) <= 1 ==> -1 <= Wrap(b, d, m) <= 1
  {
  }

  lemma SizeGrows(n: int, d: nat)
    requires n >= 1
    ensures Size(n, d) >= n && Size(n, d + 1) == 2 * Size(n, d)
  {
    assert n * Pow2(d) >= n by { SizeAtLeast(n, Pow2(d)); }
  }

  lemma SizeAtLeast(n: int, p: int)
    requires n >= 0 && p >= 1
    ensures n * p >= n
  {
  }

  lemma ChildIn(b: Box, p: Node, k: int)
    requires Wide(b) && In(b, p) && 0 <= k < 8
    ensures In(b, Child(p, k))
  {
    SizeGrows(b.nx, p.depth);
    SizeGrows(b.ny, p.depth);
    SizeGrows(b.nz, p.depth);
    hide Size;
  }

  lemma ParentIn(b: Box, x: Node)
    requires Wide(b) && In(b, x) && x.depth > 0
    ensures In(b, Parent(x))
  {
    SizeGrows(b.nx, x.depth - 1);
    SizeGrows(b.ny, x.depth - 1);
    SizeGrows(b.nz, x.depth - 1);
    hide Size;
  }

  /** Children of touching cells touch when the two shifts, of the cells and inside them, add up to at most one. */
  lemma ChildrenNear(b: Box, p: Node, q: Node, i: int, j: int)
    requires Wide(b) && In(b, p) && In(b, q) && p.depth == q.depth && 0 <= i < 8 && 0 <= j < 8
    ensures Near(Between(b, p, q)) ==>
      (Near(Between(b, Child(p, i), Child(q, j))) <==> Near(ChildShift(Between(b, p, q), i, j)))
    ensures Near(Between(b, Child(p, i), Child(q, j))) ==> Near(Between(b, p, q))
  {
    hide BitX, BitY, BitZ, Size, Wrap;
    BitsInRange(i);
    BitsInRange(j);
    var mx, my, mz := Size(b.nx, p.depth), Size(b.ny, p.depth), Size(b.nz, p.depth);
    var dx, dy, dz := q.x - p.x, q.y - p.y, q.z - p.z;
    var cx, cy, cz := BitX(j) - BitX(i), BitY(j) - BitY(i), BitZ(j) - BitZ(i);
    assert -mx < dx < mx && -my < dy < my && -mz < dz < mz;
    SizeGrows(b.nx, p.depth);
    SizeGrows(b.ny, p.depth);
    SizeGrows(b.nz, p.depth);
    WrapChild(b, dx, cx, mx);
    WrapChild(b, dy, cy, my);
    WrapChild(b, dz, cz, mz);
    assert Between(b, p, q) == Shift(Wrap(b, dx, mx), Wrap(b, dy, my), Wrap(b, dz, mz));
    assert Between(b, Child(p, i), Child(q, j)) ==
      Shift(Wrap(b, 2 * dx + cx, 2 * mx), Wrap(b, 2 * dy + cy, 2 * my), Wrap(b, 2 * dz + cz, 2 * mz));
  }

  lemma ChildrenDiffer(p: Node, q: Node, i: int, j: int)
    requires 0 <= i < 8 && 0 <= j < 8
    ensures Child(p, i) == Child(q, j) <==> p == q && i == j
  {
    ChildParent(p, i);
    ChildParent(q, j);
    hide Child;
  }

  lemma TouchSymmetric(b: Box, p: Node, q: Node)
    requires Wide(b) && p.depth == q.depth
    ensures Between(b, q, p) == Negated(Between(b, p, q))
    ensures Touch(b, p, q) <==> Touch(b, q, p)
  {
    SizeGrows(b.nx, p.depth);
    SizeGrows(b.ny, p.depth);
    SizeGrows(b.nz, p.depth);
    WrapNegated(b, q.x - p.x, Size(b.nx, p.depth));
    WrapNegated(b, q.y - p.y, Size(b.ny, p.depth));
    WrapNegated(b, q.z - p.z, Size(b.nz, p.depth));
    hide Wrap, Size;
  }

  lemma WrapNegated(b: Box, d: int, m: int)
    ensures Wrap(b, -d, m) == -Wrap(b, d, m) || m < 0
  {
  }

  /** Along one direction, the difference of two coordinates or that of a periodic image is at most one. */
  predicate Meets(b: Box, d: int, m: int) {
    -1 <= d <= 1 || (b.periodic && (-1 <= d + m <= 1 || -1 <= d - m <= 1))
  }

  /** What touching means: some periodic image of the one cube has a point in common with the other. */
  lemma TouchIsMeeting(b: Box, p: Node, q: Node)
    requires Wide(b) && In(b, p) && In(b, q) && p.depth == q.depth
    ensures Touch(b, p, q) <==>
      && p != q
      && Meets(b, q.x - p.x, b.nx * Pow2(p.depth))
      && Meets(b, q.y - p.y, b.ny * Pow2(p.depth))
      && Meets(b, q.z - p.z, b.nz * Pow2(p.depth))
  {
    hide Wrap;
    SizeGrows(b.nx, p.depth);
    SizeGrows(b.ny, p.depth);
    SizeGrows(b.nz, p.depth);
    WrapMeets(b, q.x - p.x, Size(b.nx, p.depth));
    WrapMeets(b, q.y - p.y, Size(b.ny, p.depth));
    WrapMeets(b, q.z - p.z, Size(b.nz, p.depth));
  }

  /** The wrapped difference is the difference to the nearest image. */
  lemma WrapMeets(b: Box, d: int, m: int)
    requires m >= 1 && (b.periodic ==> m >= 3) && -m < d < m
    ensures -1 <= Wrap(b, d, m) <= 1 <==> Meets(b, d, m)
    ensures Wrap(b, d, m) == d || (b.periodic && (Wrap(b, d, m) == d + m || Wrap(b, d, m) == d - m))
    ensures b.periodic ==> -m <= 2 * Wrap(b, d, m) <= m
  {
  }

  // ----- ancestors -----

  /** The cell `n` levels up. */
  function Up(x: Node, n: nat): (r: Node)
    requires n <= x.depth
    ensures r.depth == x.depth - n
    decreases n
  {
    if n == 0 then x else Parent(Up(x, n - 1))
  }

  lemma {:induction false} UpIn(b: Box, x: Node, n: nat)
    requires Wide(b) && In(b, x) && n <= x.depth
    ensures Up(x, n).depth == x.depth - n && In(b, Up(x, n))
    decreases n
  {
    if n > 0 {
      UpIn(b, x, n - 1);
      ParentIn(b, Up(x, n - 1));
    }
  }

  /** The ancestors of touching cells are the same cell, or touch. */
  lemma {:induction false} AncestorsTouch(b: Box, x: Node, y: Node, n: nat)
    requires Wide(b) && In(b, x) && In(b, y) && x.depth == y.depth && n <= x.depth && Near(Between(b, x, y))
    ensures Up(x, n).depth == Up(y, n).depth && Near(Between(b, Up(x, n), Up(y, n)))
    decreases n
  {
    UpIn(b, x, n);
    UpIn(b, y, n);
    if n > 0 {
      AncestorsTouch(b, x, y, n - 1);
      UpIn(b, x, n - 1);
      UpIn(b, y, n - 1);
      var u, v := Up(x, n - 1), Up(y, n - 1);
      ParentChild(u);
      ParentChild(v);
      ChildrenNear(b, Parent(u), Parent(v), Slot(u), Slot(v));
      hide Between, Near, In;
    }
  }

  /** Two cells `n` levels below `p` and `q`, one below each. */
  predicate Across(p: Node, q: Node, n: nat, x: Node, y: Node)
    requires n <= x.depth && n <= y.depth
  {
    (Up(x, n) == p && Up(y, n) == q) || (Up(y, n) == p && Up(x, n) == q)
  }

  // ----- the recursion -----

  /** Whether a task goes down another level. */
  datatype Rule = Rule(pair: (Node, Node) -> bool, self_: Node -> bool)

  /** How many of the pair tasks in which the recursion over `p` and `q` ends deal with `x` and `y`,
      two cells `n` levels down. */
  ghost function PairTasks(b: Box, rule: Rule, p: Node, q: Node, n: nat, x: Node, y: Node): nat
    requires p.depth == q.depth && x.depth == y.depth == p.depth + n
    decreases n, 1, 0
  {
    var (ci, cj, sid) := GetSid(b, p, q);
    if n == 0 || !rule.pair(ci, cj) then if Across(p, q, n, x, y) then 1 else 0
    else ListTasks(b, rule, SplitPairs(sid), ci, cj, n, x, y)
  }

  /** The loop over the sub-pairs. */
  ghost function ListTasks(b: Box, rule: Rule, l: seq<Entry>, ci: Node, cj: Node, n: nat, x: Node, y: Node): nat
    requires ci.depth == cj.depth && x.depth == y.depth == ci.depth + n && n > 0
    requires forall i :: 0 <= i < |l| ==> 0 <= l[i].pid < 8 && 0 <= l[i].pjd < 8
    decreases n, 0, |l|
  {
    if l == [] then 0
    else PairTasks(b, rule, Child(ci, l[0].pid), Child(cj, l[0].pjd), n - 1, x, y) + ListTasks(b, rule, l[1..], ci, cj, n, x, y)
  }

  /** The same for the recursion that starts with one cell: the two loops over its progeny. */
  ghost function SelfTasks(b: Box, rule: Rule, c: Node, n: nat, x: Node, y: Node): nat
    requires x.depth == y.depth == c.depth + n
    decreases n, 2, 0
  {
    if n == 0 || !rule.self_(c) then if Up(x, n) == c && Up(y, n) == c then 1 else 0
    else ProgenyTasks(b, rule, c, 0, n, x, y)
  }

  ghost function ProgenyTasks(b: Box, rule: Rule, c: Node, j: nat, n: nat, x: Node, y: Node): nat
    requires x.depth == y.depth == c.depth + n && n > 0 && j <= 8
    decreases n, 1, 8 - j
  {
    if j == 8 then 0
    else SelfTasks(b, rule, Child(c, j), n - 1, x, y) + SiblingTasks(b, rule, c, j, j + 1, n, x, y) + ProgenyTasks(b, rule, c, j + 1, n, x, y)
  }

  ghost function SiblingTasks(b: Box, rule: Rule, c: Node, j: nat, k: nat, n: nat, x: Node, y: Node): nat
    requires x.depth == y.depth == c.depth + n && n > 0 && j < 8 && k <= 8
    decreases n, 0, 8 - k
  {
    if k == 8 then 0
    else PairTasks(b, rule, Child(c, j), Child(c, k), n - 1, x, y) + SiblingTasks(b, rule, c, j, k + 1, n, x, y)
  }

  /** Only one sub-pair can be the right one, so its task counts as often as it is listed. */
  lemma {:induction false} ListOnce(b: Box, rule: Rule, l: seq<Entry>, ci: Node, cj: Node, n: nat, x: Node, y: Node,
        pid: int, pjd: int)
    requires ci.depth == cj.depth && x.depth == y.depth == ci.depth + n && n > 0 && 0 <= pid < 8 && 0 <= pjd < 8
    requires forall i :: 0 <= i < |l| ==> 0 <= l[i].pid < 8 && 0 <= l[i].pjd < 8
    requires forall i :: 0 <= i < |l| && !(l[i].pid == pid && l[i].pjd == pjd) ==>
      PairTasks(b, rule, Child(ci, l[i].pid), Child(cj, l[i].pjd), n - 1, x, y) == 0
    ensures Listed(l, pid, pjd) == 0 ==> ListTasks(b, rule, l, ci, cj, n, x, y) == 0
    ensures Listed(l, pid, pjd) == 1 ==>
      ListTasks(b, rule, l, ci, cj, n, x, y) == PairTasks(b, rule, Child(ci, pid), Child(cj, pjd), n - 1, x, y)
    decreases |l|
  {
    hide PairTasks, Child;
    if l != [] {
      var rest := l[1..];
      assert forall i :: 0 <= i < |rest| ==> rest[i] == l[i + 1];
      ListOnce(b, rule, rest, ci, cj, n, x, y, pid, pjd);
      assert l[0].pid == pid && l[0].pjd == pjd ==> Listed(l, pid, pjd) == 1 + Listed(rest, pid, pjd);
    }
  }

  /** Every listed sub-pair touches. */
  lemma ListedTouch(b: Box, p: Node, q: Node, i: int)
    requires Wide(b) && In(b, p) && In(b, q) && p.depth == q.depth && Touch(b, p, q)
    requires 0 <= i < |SplitPairs(GetSid(b, p, q).2)|
    ensures var (ci, cj, sid) := GetSid(b, p, q); var e := SplitPairs(sid)[i];
      Touch(b, Child(ci, e.pid), Child(cj, e.pjd)) && In(b, Child(ci, e.pid)) && In(b, Child(cj, e.pjd))
  {
    hide Between, BitX, BitY, BitZ, ChildShift, Direction, GetSid, In, Listed, Near, SplitPairs, Wide;
    var (ci, cj, sid) := GetSid(b, p, q);
    var e := SplitPairs(sid)[i];
    SidIsDirection(b, p, q);
    ListedAt(SplitPairs(sid), i);
    TableComplete(sid, e.pid, e.pjd);
    ChildIn(b, ci, e.pid);
    ChildIn(b, cj, e.pjd);
    ChildrenNear(b, ci, cj, e.pid, e.pjd);
    ChildrenDiffer(ci, cj, e.pid, e.pjd);
    assert Child(ci, e.pid).depth == Child(cj, e.pjd).depth;
  }

  /** After the swap the second cell lies in the direction of the sid. */
  lemma SidIsDirection(b: Box, p: Node, q: Node)
    requires Wide(b) && p.depth == q.depth && Touch(b, p, q) && In(b, p) && In(b, q)
    ensures var (ci, cj, sid) := GetSid(b, p, q);
      ci.depth == cj.depth && Between(b, ci, cj) == Direction(sid) && Near(Between(b, ci, cj)) && ci != cj && In(b, ci)
        && In(b, cj)
  {
    hide Between, Direction, In, RawSid, RunnerFlip, SortlistId, Wide;
    TouchSymmetric(b, p, q);
    var s := Between(b, p, q);
    assert Near(s) && p != q;
    ApartShift(b, p, q);
    RawSidDirection(s);
    assert Near(Between(b, q, p));
  }

  lemma ApartShift(b: Box, p: Node, q: Node)
    requires Wide(b) && p.depth == q.depth && p != q && In(b, p) && In(b, q)
    ensures Between(b, p, q) != Shift(0, 0, 0)
  {
    SizeGrows(b.nx, p.depth);
    SizeGrows(b.ny, p.depth);
    SizeGrows(b.nz, p.depth);
    hide Size;
  }

  ghost predicate Always(rule: Rule) {
    (forall p, q :: rule.pair(p, q)) && forall p :: rule.self_(p)
  }

  /** As many as there should be: exactly one for touching cells, never more than one, and, if nothing
      stops the recursion early, none for cells that do not touch. */
  ghost predicate JustRight(rule: Rule, count: nat, inside: bool, touch: bool) {
    && count <= 1
    && (!inside ==> count == 0)
    && (inside && touch ==> count == 1)
    && (Always(rule) && !touch ==> count == 0)
  }

  lemma {:induction false} ListNone(b: Box, rule: Rule, l: seq<Entry>, ci: Node, cj: Node, n: nat, x: Node, y: Node)
    requires ci.depth == cj.depth && x.depth == y.depth == ci.depth + n && n > 0
    requires forall i :: 0 <= i < |l| ==> 0 <= l[i].pid < 8 && 0 <= l[i].pjd < 8
    requires forall i :: 0 <= i < |l| ==> PairTasks(b, rule, Child(ci, l[i].pid), Child(cj, l[i].pjd), n - 1, x, y) == 0
    ensures ListTasks(b, rule, l, ci, cj, n, x, y) == 0
    decreases |l|
  {
    hide PairTasks, Child;
    if l != [] {
      var rest := l[1..];
      assert forall i :: 0 <= i < |rest| ==> rest[i] == l[i + 1];
      ListNone(b, rule, rest, ci, cj, n, x, y);
    }
  }

  /** Going up one level from a child. */
  lemma UpChild(x: Node, n: nat, p: Node, k: int)
    requires 0 < n <= x.depth && 0 <= k < 8 && Up(x, n - 1) == Child(p, k)
    ensures Up(x, n) == p
  {
    ChildParent(p, k);
  }

  /** The recursion over two touching cells. */
  lemma {:induction false} PairOnce(b: Box, rule: Rule, p: Node, q: Node, n: nat, x: Node, y: Node)
    requires Wide(b) && In(b, p) && In(b, q) && In(b, x) && In(b, y)
    requires p.depth == q.depth && x.depth == y.depth == p.depth + n && Touch(b, p, q)
    ensures JustRight(rule, PairTasks(b, rule, p, q, n, x, y), Across(p, q, n, x, y), Touch(b, x, y))
    decreases n, 1
  {
    hide Between, Direction, GetSid, In, ListTasks, Near, Negated, Parent, SplitPairs, Touch, Wide;
    var (ci, cj, sid) := GetSid(b, p, q);
    SidIsDirection(b, p, q);
    if n == 0 || !rule.pair(ci, cj) {
      assert PairTasks(b, rule, p, q, n, x, y) == if Across(p, q, n, x, y) then 1 else 0;
      TouchSymmetric(b, p, q);
      assert n == 0 && Across(p, q, n, x, y) ==> Touch(b, x, y);
      assert n > 0 ==> !Always(rule);
    } else {
      assert PairTasks(b, rule, p, q, n, x, y) == ListTasks(b, rule, SplitPairs(sid), ci, cj, n, x, y);
      assert Across(p, q, n, x, y) <==> Across(ci, cj, n, x, y);
      if Up(x, n) == ci && Up(y, n) == cj {
        ListRight(b, rule, p, q, n, x, y, x, y);
        assert Across(ci, cj, n, x, y);
      } else if Up(y, n) == ci && Up(x, n) == cj {
        ListRight(b, rule, p, q, n, x, y, y, x);
        assert Across(ci, cj, n, x, y);
      } else {
        assert !Across(ci, cj, n, x, y);
        ListElsewhere(b, rule, p, q, n, x, y);
      }
    }
  }

  lemma NoneOutside(rule: Rule, count: nat, touch: bool)
    requires JustRight(rule, count, false, touch)
    ensures count == 0
  {
  }

  lemma AcrossUp(p: Node, q: Node, i: int, j: int, n: nat, x: Node, y: Node)
    requires 0 < n <= x.depth && n <= y.depth && 0 <= i < 8 && 0 <= j < 8
    requires Across(Child(p, i), Child(q, j), n - 1, x, y)
    ensures Across(p, q, n, x, y)
  {
    hide Child;
    if Up(x, n - 1) == Child(p, i) && Up(y, n - 1) == Child(q, j) {
      UpChild(x, n, p, i);
      UpChild(y, n, q, j);
    } else {
      UpChild(y, n, p, i);
      UpChild(x, n, q, j);
    }
  }

  /** The pair is not below these cells, so it is not below any of the sub-pairs. */
  lemma {:induction false} ListElsewhere(b: Box, rule: Rule, p: Node, q: Node, n: nat, x: Node, y: Node)
    requires Wide(b) && In(b, p) && In(b, q) && In(b, x) && In(b, y)
    requires p.depth == q.depth && x.depth == y.depth == p.depth + n && Touch(b, p, q) && n > 0
    requires var (ci, cj, sid) := GetSid(b, p, q); !Across(ci, cj, n, x, y)
    ensures var (ci, cj, sid) := GetSid(b, p, q); ListTasks(b, rule, SplitPairs(sid), ci, cj, n, x, y) == 0
    decreases n, 0
  {
    hide Across, Between, BitX, BitY, BitZ, Direction, GetSid, In, JustRight, ListTasks, Near, PairTasks, SplitPairs,
      Touch, Wide;
    var (ci, cj, sid) := GetSid(b, p, q);
    SidIsDirection(b, p, q);
    var l := SplitPairs(sid);
    forall i | 0 <= i < |l| ensures PairTasks(b, rule, Child(ci, l[i].pid), Child(cj, l[i].pjd), n - 1, x, y) == 0 {
      ListedTouch(b, p, q, i);
      var u, v := Child(ci, l[i].pid), Child(cj, l[i].pjd);
      assert u.depth == v.depth == p.depth + 1;
      PairOnce(b, rule, u, v, n - 1, x, y);
      if Across(u, v, n - 1, x, y) { AcrossUp(ci, cj, l[i].pid, l[i].pjd, n, x, y); }
      assert !Across(u, v, n - 1, x, y);
      NoneOutside(rule, PairTasks(b, rule, u, v, n - 1, x, y), Touch(b, x, y));
    }
    ListNone(b, rule, l, ci, cj, n, x, y);
  }

  /** `s` is below the first cell and `t` below the second: one sub-pair is the right one, and it is listed
      once if it touches, and not at all if it does not. */
  lemma {:induction false} ListRight(b: Box, rule: Rule, p: Node, q: Node, n: nat, x: Node, y: Node, s: Node, t: Node)
    requires Wide(b) && In(b, p) && In(b, q) && In(b, x) && In(b, y)
    requires p.depth == q.depth && x.depth == y.depth == p.depth + n && Touch(b, p, q) && n > 0
    requires (s == x && t == y) || (s == y && t == x)
    requires var (ci, cj, sid) := GetSid(b, p, q); Up(s, n) == ci && Up(t, n) == cj
    ensures var (ci, cj, sid) :=
      GetSid(b, p, q); JustRight(rule, ListTasks(b, rule, SplitPairs(sid), ci, cj, n, x, y), true, Touch(b, x, y))
    decreases n, 0
  {
    hide Always, Between, BitX, BitY, BitZ, ChildShift, Direction, GetSid, In, ListTasks, Listed, Near, Negated,
      PairTasks, Parent, Slot, SplitPairs, Wide;
    var (ci, cj, sid) := GetSid(b, p, q);
    SidIsDirection(b, p, q);
    var l, u, v := SplitPairs(sid), Up(s, n - 1), Up(t, n - 1);
    assert Parent(u) == ci && Parent(v) == cj;
    ParentChild(u);
    ParentChild(v);
    var pid, pjd := Slot(u), Slot(v);
    forall i | 0 <= i < |l| && !(l[i].pid == pid && l[i].pjd == pjd)
      ensures PairTasks(b, rule, Child(ci, l[i].pid), Child(cj, l[i].pjd), n - 1, x, y) == 0
    {
      ListedTouch(b, p, q, i);
      var u', v' := Child(ci, l[i].pid), Child(cj, l[i].pjd);
      assert u'.depth == v'.depth == p.depth + 1;
      PairOnce(b, rule, u', v', n - 1, x, y);
      ChildrenDiffer(ci, ci, l[i].pid, pid);
      ChildrenDiffer(cj, cj, l[i].pjd, pjd);
      ChildrenDiffer(ci, cj, l[i].pid, pjd);
      assert !Across(u', v', n - 1, x, y);
    }
    ListOnce(b, rule, l, ci, cj, n, x, y, pid, pjd);
    TableComplete(sid, pid, pjd);
    ChildrenNear(b, ci, cj, pid, pjd);
    ChildrenDiffer(ci, cj, pid, pjd);
    UpIn(b, s, n - 1);
    UpIn(b, t, n - 1);
    TouchSymmetric(b, x, y);
    if Near(Between(b, u, v)) {
      assert Touch(b, u, v);
      PairOnce(b, rule, u, v, n - 1, x, y);
      assert Across(u, v, n - 1, x, y);
    } else {
      if Touch(b, s, t) {
        assert Near(Between(b, s, t));
        AncestorsTouch(b, s, t, n - 1);
      }
    }
  }

  // ----- one cell with itself -----

  /** Progeny of one cell touch each other. */
  lemma SiblingsTouch(b: Box, c: Node, j: int, k: int)
    requires Wide(b) && In(b, c) && 0 <= j < 8 && 0 <= k < 8 && j != k
    ensures Touch(b, Child(c, j), Child(c, k)) && In(b, Child(c, j)) && In(b, Child(c, k))
  {
    hide Between, BitX, BitY, BitZ, In, Wide;
    ChildIn(b, c, j);
    ChildIn(b, c, k);
    ChildrenDiffer(c, c, j, k);
    ChildrenNear(b, c, c, j, k);
    BitsInRange(j);
    BitsInRange(k);
    var m := Between(b, c, c);
    assert m == Shift(0, 0, 0) by { NoShift(b, c); }
    assert Child(c, j).depth == Child(c, k).depth;
    assert Near(m) && Near(ChildShift(m, j, k));
  }

  lemma NoShift(b: Box, c: Node)
    requires Wide(b) && In(b, c)
    ensures Between(b, c, c) == Shift(0, 0, 0)
  {
    hide Size;
  }

  /** Where in the two loops the pair belongs: the progeny above x and above y, the smaller index first. */
  predicate Belongs(c: Node, j: int, k: int, n: nat, x: Node, y: Node)
    requires 0 < n <= x.depth && n <= y.depth && 0 <= j < 8 && 0 <= k < 8
  {
    Across(Child(c, j), Child(c, k), n - 1, x, y)
  }

  lemma {:induction false} SiblingsElsewhere(b: Box, rule: Rule, c: Node, j: nat, k: nat, n: nat, x: Node, y: Node)
    requires Wide(b) && In(b, c) && In(b, x) && In(b, y) && x.depth == y.depth == c.depth + n && n > 0 && j < k <= 8
    requires j < 8
    requires forall i :: k <= i < 8 ==> !Belongs(c, j, i, n, x, y)
    ensures SiblingTasks(b, rule, c, j, k, n, x, y) == 0
    decreases 8 - k
  {
    hide PairTasks, Belongs;
    if k < 8 {
      SiblingsElsewhere(b, rule, c, j, k + 1, n, x, y);
      NotHere(b, rule, c, j, k, n, x, y);
    }
  }

  lemma {:induction false} SiblingsOnce(b: Box, rule: Rule, c: Node, j: nat, k: nat, i: nat, n: nat, x: Node, y: Node)
    requires Wide(b) && In(b, c) && In(b, x) && In(b, y) && x.depth == y.depth == c.depth + n && n > 0 && j < k <= i < 8
    requires Belongs(c, j, i, n, x, y) && forall o :: j < o < 8 && o != i ==> !Belongs(c, j, o, n, x, y)
    ensures SiblingTasks(b, rule, c, j, k, n, x, y) == PairTasks(b, rule, Child(c, j), Child(c, i), n - 1, x, y)
    decreases i - k
  {
    hide Belongs, Child, In, PairTasks, Wide;
    assert SiblingTasks(b, rule, c, j, k, n, x, y) ==
      PairTasks(b, rule, Child(c, j), Child(c, k), n - 1, x, y) + SiblingTasks(b, rule, c, j, k + 1, n, x, y);
    if k == i {
      SiblingsElsewhere(b, rule, c, j, k + 1, n, x, y);
    } else {
      SiblingsOnce(b, rule, c, j, k + 1, i, n, x, y);
      NotHere(b, rule, c, j, k, n, x, y);
    }
  }

  lemma NotHere(b: Box, rule: Rule, c: Node, j: nat, k: nat, n: nat, x: Node, y: Node)
    requires Wide(b) && In(b, c) && In(b, x) && In(b, y) && x.depth == y.depth == c.depth + n && n > 0 && j < k < 8
    requires !Belongs(c, j, k, n, x, y)
    ensures PairTasks(b, rule, Child(c, j), Child(c, k), n - 1, x, y) == 0
  {
    hide Across, BitX, BitY, BitZ, In, JustRight, PairTasks, Touch, Wide;
    SiblingsTouch(b, c, j, k);
    assert Child(c, j).depth == Child(c, k).depth == c.depth + 1;
    PairOnce(b, rule, Child(c, j), Child(c, k), n - 1, x, y);
    assert !Across(Child(c, j), Child(c, k), n - 1, x, y);
    NoneOutside(rule, PairTasks(b, rule, Child(c, j), Child(c, k), n - 1, x, y), Touch(b, x, y));
  }

  /** One round of the outer loop. */
  ghost function Round(b: Box, rule: Rule, c: Node, j: nat, n: nat, x: Node, y: Node): nat
    requires x.depth == y.depth == c.depth + n && n > 0 && j < 8
  {
    SelfTasks(b, rule, Child(c, j), n - 1, x, y) + SiblingTasks(b, rule, c, j, j + 1, n, x, y)
  }

  lemma {:induction false} OneRound(b: Box, rule: Rule, c: Node, j: nat, i: int, n: nat, x: Node, y: Node)
    requires x.depth == y.depth == c.depth + n && n > 0 && j <= 8
    requires forall o :: 0 <= o < 8 && o != i ==> Round(b, rule, c, o, n, x, y) == 0
    ensures ProgenyTasks(b, rule, c, j, n, x, y) == if j <= i < 8 then Round(b, rule, c, i, n, x, y) else 0
    decreases 8 - j
  {
    if j < 8 {
      OneRound(b, rule, c, j + 1, i, n, x, y);
      assert ProgenyTasks(b, rule, c, j, n, x, y) == Round(b, rule, c, j, n, x, y)
        + ProgenyTasks(b, rule, c, j + 1, n, x, y);
    }
    hide SelfTasks, SiblingTasks;
  }

  /** The recursion that starts with one cell: every two touching cells below it are dealt with once. */
  lemma {:induction false} SelfOnce(b: Box, rule: Rule, c: Node, n: nat, x: Node, y: Node)
    requires Wide(b) && In(b, c) && In(b, x) && In(b, y) && x != y
    requires x.depth == y.depth == c.depth + n
    ensures JustRight(rule, SelfTasks(b, rule, c, n, x, y), Up(x, n) == c && Up(y, n) == c, Touch(b, x, y))
    decreases n
  {
    hide Child, In, Parent, ProgenyTasks, Round, Slot, Touch, Wide;
    if n == 0 || !rule.self_(c) {
      assert SelfTasks(b, rule, c, n, x, y) == if Up(x, n) == c && Up(y, n) == c then 1 else 0;
      assert n == 0 ==> !(Up(x, n) == c && Up(y, n) == c);
      assert n > 0 ==> !Always(rule);
    } else {
      assert SelfTasks(b, rule, c, n, x, y) == ProgenyTasks(b, rule, c, 0, n, x, y);
      var u, v := Up(x, n - 1), Up(y, n - 1);
      assert Up(x, n) == Parent(u) && Up(y, n) == Parent(v);
      ParentChild(u);
      ParentChild(v);
      var inside := Up(x, n) == c && Up(y, n) == c;
      var i := if !inside then -1 else if Slot(u) <= Slot(v) then Slot(u) else Slot(v);
      forall o | 0 <= o < 8 && o != i ensures Round(b, rule, c, o, n, x, y) == 0 {
        RoundElsewhere(b, rule, c, o, n, x, y);
      }
      OneRound(b, rule, c, 0, i, n, x, y);
      if inside {
        RoundRight(b, rule, c, i, n, x, y);
      } else {
      }
    }
  }

  lemma FirstSlot(c: Node, o: int, k: int, n: nat, x: Node, y: Node)
    requires 0 < n <= x.depth && n <= y.depth && 0 <= o < k < 8 && Belongs(c, o, k, n, x, y)
    ensures Up(x, n) == c && Up(y, n) == c
    ensures o == if Slot(Up(x, n - 1)) <= Slot(Up(y, n - 1)) then Slot(Up(x, n - 1)) else Slot(Up(y, n - 1))
  {
    ChildParent(c, o);
    ChildParent(c, k);
    hide Child, Slot, Parent;
  }

  /** A round in which nothing happens to the pair. */
  lemma {:induction false} RoundElsewhere(b: Box, rule: Rule, c: Node, o: nat, n: nat, x: Node, y: Node)
    requires Wide(b) && In(b, c) && In(b, x) && In(b, y) && x != y && o < 8 && n > 0
    requires x.depth == y.depth == c.depth + n
    requires var u, v := Up(x, n - 1), Up(y, n - 1);
      (Up(x, n) == c && Up(y, n) == c) ==> o != if Slot(u) <= Slot(v) then Slot(u) else Slot(v)
    ensures Round(b, rule, c, o, n, x, y) == 0
    decreases n, 0
  {
    hide Belongs, Child, In, JustRight, Parent, SelfTasks, SiblingTasks, Slot, Touch, Up, Wide;
    var u, v := Up(x, n - 1), Up(y, n - 1);
    ChildIn(b, c, o);
    SelfOnce(b, rule, Child(c, o), n - 1, x, y);
    if u == Child(c, o) && v == Child(c, o) {
      UpChild(x, n, c, o);
      UpChild(y, n, c, o);
      ChildParent(c, o);
    }
    NoneOutside(rule, SelfTasks(b, rule, Child(c, o), n - 1, x, y), Touch(b, x, y));
    forall k: int | o + 1 <= k < 8 ensures !Belongs(c, o, k, n, x, y) {
      if Belongs(c, o, k, n, x, y) { FirstSlot(c, o, k, n, x, y); }
    }
    SiblingsElsewhere(b, rule, c, o, o + 1, n, x, y);
  }

  /** The round in which the pair is dealt with. */
  lemma {:induction false} RoundRight(b: Box, rule: Rule, c: Node, i: nat, n: nat, x: Node, y: Node)
    requires Wide(b) && In(b, c) && In(b, x) && In(b, y) && x != y && i < 8 && n > 0
    requires x.depth == y.depth == c.depth + n && Up(x, n) == c && Up(y, n) == c
    requires var u, v := Up(x, n - 1), Up(y, n - 1); i == if Slot(u) <= Slot(v) then Slot(u) else Slot(v)
    ensures JustRight(rule, Round(b, rule, c, i, n, x, y), true, Touch(b, x, y))
    decreases n, 0
  {
    hide Child, In, JustRight, PairTasks, Parent, SelfTasks, SiblingTasks, Slot, Touch, Wide;
    var u, v := Up(x, n - 1), Up(y, n - 1);
    assert Parent(u) == c && Parent(v) == c;
    ParentChild(u);
    ParentChild(v);
    var a, d := Slot(u), Slot(v);
    ChildIn(b, c, i);
    SelfOnce(b, rule, Child(c, i), n - 1, x, y);
    if a == d {
      forall k: int | i + 1 <= k < 8 ensures !Belongs(c, i, k, n, x, y) {
        ChildrenDiffer(c, c, i, k);
      }
      SiblingsElsewhere(b, rule, c, i, i + 1, n, x, y);
    } else {
      var k := if a <= d then d else a;
      ChildrenDiffer(c, c, a, d);
      NoneOutside(rule, SelfTasks(b, rule, Child(c, i), n - 1, x, y), Touch(b, x, y));
      assert Across(Child(c, i), Child(c, k), n - 1, x, y) && Belongs(c, i, k, n, x, y);
      forall o: int | i < o < 8 && o != k ensures !Belongs(c, i, o, n, x, y) {
        ChildrenDiffer(c, c, o, k);
        ChildrenDiffer(c, c, o, i);
      }
      SiblingsOnce(b, rule, c, i, i + 1, k, n, x, y);
      SiblingsTouch(b, c, i, k);
      PairOnce(b, rule, Child(c, i), Child(c, k), n - 1, x, y);
    }
  }

  /** With nothing to stop it the recursion reaches each touching pair below a cell once, and no other. */
  lemma AllAndOnly(b: Box, c: Node, n: nat, x: Node, y: Node)
    requires Wide(b) && In(b, c) && In(b, x) && In(b, y) && x != y && x.depth == y.depth == c.depth + n
    requires Up(x, n) == c && Up(y, n) == c
    ensures SelfTasks(b, Rule((p, q) => true, p => true), c, n, x, y) == if Touch(b, x, y) then 1 else 0
  {
    var rule := Rule((p, q) => true, p => true);
    assert Always(rule);
    SelfOnce(b, rule, c, n, x, y);
    hide SelfTasks, Touch;
  }
}
