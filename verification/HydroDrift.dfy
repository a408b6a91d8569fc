/**
 Lazy drifting of the gas: cells are marked from below (cell_activate_drift_part), a top-down walk
 (cell_drift_part) then moves the particles of the marked parts of the tree only.
 */
module HydroDrift {
  import opened Octree
  import opened Particles

  /** What a drift depends on besides the tree.  Each clock turns an integer time into a time variable of the run, so
      that the drift from t0 to t1 lasts clock(t1) - clock(t0), with or without cosmology; the kicks of the predicted
      velocities have clocks of their own. */
  datatype Run = Run(clock: int -> real, kickHydro: int -> real, kickGrav: int -> real, hMin: real, hMax: real)

  function Clamp(run: Run, h: real): real {
    var low := if h < run.hMax then h else run.hMax;
    if low > run.hMin then low else run.hMin
  }

  /** The predicted velocity after the kicks `dh` and `dg`; without a gpart there is no gravity. */
  function Kicked(p: Particle, dh: real, dg: real): Vec {
    var v := p.predicted.Plus(p.aHydro.Times(dh));
    if p.gpart != NULL then v.Plus(p.aGrav.Times(dg)) else v
  }

  /** One particle moved from integer time t0 to t1. */
  function Advance(p: Particle, run: Run, t0: int, t1: int): Particle {
    if p.bin.Inhibited? || t1 <= t0 then p
    else
      var dt := run.clock(t1) - run.clock(t0);
      p.(x := p.x.Plus(p.v.Times(dt)), diff := p.diff.Plus(p.v.Times(-dt)), h := Clamp(run, p.h),
         predicted := Kicked(p, run.kickHydro(t1) - run.kickHydro(t0), run.kickGrav(t1) - run.kickGrav(t0)))
  }

  /** Drifting in two goes is drifting in one. */
  lemma AdvanceAdditive(p: Particle, run: Run, t0: int, t1: int, t2: int)
    requires t0 <= t1 <= t2
    ensures Advance(Advance(p, run, t0, t1), run, t1, t2) == Advance(p, run, t0, t2)
  {
    hide Kicked;
    var a, b := run.clock(t1) - run.clock(t0), run.clock(t2) - run.clock(t1);
    assert run.clock(t2) - run.clock(t0) == a + b;
    Distribute(p.v, a, b);
    Distribute(p.v, -a, -b);
    if !p.bin.Inhibited? && t0 < t1 < t2 {
      KickedTwice(p, Advance(p, run, t0, t1), run.kickHydro(t1) - run.kickHydro(t0),
        run.kickHydro(t2) - run.kickHydro(t1),
                  run.kickGrav(t1) - run.kickGrav(t0), run.kickGrav(t2) - run.kickGrav(t1));
    }
  }

  lemma KickedTwice(p: Particle, q: Particle, dh: real, dh': real, dg: real, dg': real)
    requires q.gpart == p.gpart && q.aHydro == p.aHydro && q.aGrav == p.aGrav && q.predicted == Kicked(p, dh, dg)
    ensures Kicked(q, dh', dg') == Kicked(p, dh + dh', dg + dg')
  {
    Distribute(p.aHydro, dh, dh');
    Distribute(p.aGrav, dg, dg');
  }

  lemma Distribute(v: Vec, a: real, b: real)
    ensures v.Times(a).x + v.Times(b).x == v.Times(a + b).x
    ensures v.Times(a).y + v.Times(b).y == v.Times(a + b).y
    ensures v.Times(a).z + v.Times(b).z == v.Times(a + b).z
  {
  }

  /** What a drift from t0 to t1 does to a particle: it goes where its velocity takes it and remembers how far it has
      come since the last rebuild, its predicted velocity takes up the two kicks (without a gpart there is no gravity),
      its size is brought into the allowed range, and all else stays.  Inhibited particles stay where they are. */
  ghost predicate Drifted(p: Particle, q: Particle, run: Run, t0: int, t1: int) {
    var dt, dh, dg := run.clock(t1) - run.clock(t0), run.kickHydro(t1) - run.kickHydro(t0),
      run.kickGrav(t1) - run.kickGrav(t0);
    if p.bin.Inhibited? || t1 <= t0 then q == p
    else
      && q.x == Vec(p.x.x + p.v.x * dt, p.x.y + p.v.y * dt, p.x.z + p.v.z * dt)
      && q.x.x + q.diff.x == p.x.x + p.diff.x && q.x.y + q.diff.y == p.x.y + p.diff.y
      && q.x.z + q.diff.z == p.x.z + p.diff.z
      && (p.gpart == NULL ==> q.predicted == Vec(p.predicted.x + p.aHydro.x * dh, p.predicted.y + p.aHydro.y * dh,
                                                 p.predicted.z + p.aHydro.z * dh))
      && (p.gpart != NULL ==> q.predicted == Vec(p.predicted.x + p.aHydro.x * dh + p.aGrav.x * dg,
                                                 p.predicted.y + p.aHydro.y * dh + p.aGrav.y * dg,
                                                 p.predicted.z + p.aHydro.z * dh + p.aGrav.z * dg))
      && run.hMin <= q.h && (run.hMin <= run.hMax ==> q.h <= run.hMax)
      && (run.hMin <= p.h <= run.hMax ==> q.h == p.h)
      && (run.hMin <= run.hMax < p.h ==> q.h == run.hMax) && (p.h < run.hMin <= run.hMax ==> q.h == run.hMin)
      && q.id == p.id && q.bin == p.bin && q.gpart == p.gpart && q.v == p.v && q.mass == p.mass
      && q.aHydro == p.aHydro && q.aGrav == p.aGrav
  }

  lemma AdvanceDrifts(p: Particle, run: Run, t0: int, t1: int)
    ensures Drifted(p, Advance(p, run, t0, t1), run, t0, t1)
  {
    var dt, dh, dg := run.clock(t1) - run.clock(t0), run.kickHydro(t1) - run.kickHydro(t0), run.kickGrav(t1) - run.kickGrav(t0);
    Added(p.x, p.v, dt);
    GivenBack(p.x, p.diff, p.v, dt);
    Added(p.predicted, p.aHydro, dh);
    Added(p.predicted.Plus(p.aHydro.Times(dh)), p.aGrav, dg);
    hide Vec.Plus, Vec.Times;
  }

  /** What the offset loses, the place gains. */
  lemma GivenBack(x: Vec, d: Vec, v: Vec, dt: real)
    ensures x.Plus(v.Times(dt)).x + d.Plus(v.Times(-dt)).x == x.x + d.x
    ensures x.Plus(v.Times(dt)).y + d.Plus(v.Times(-dt)).y == x.y + d.y
    ensures x.Plus(v.Times(dt)).z + d.Plus(v.Times(-dt)).z == x.z + d.z
  {
    Opposite(v, dt);
    Added(x, v, dt);
    Added(d, v, -dt);
    hide Vec.Plus, Vec.Times;
  }

  lemma Added(a: Vec, b: Vec, r: real)
    ensures a.Plus(b.Times(r)) == Vec(a.x + b.x * r, a.y + b.y * r, a.z + b.z * r)
  {
    var c := b.Times(r);
    assert c.x == b.x * r && c.y == b.y * r && c.z == b.z * r;
  }

  lemma Opposite(v: Vec, dt: real)
    ensures v.x * -dt == -(v.x * dt) && v.y * -dt == -(v.y * dt) && v.z * -dt == -(v.z * dt)
  {
  }

  class Scheduler {
    /** The super-cells whose drift task has been activated. */
    var active: set<Cell>
  }

  // ----- activation -----

  predicate Marked(c: Cell)
    reads c`doDrift, c`doSubDrift
  {
    c.doDrift || c.doSubDrift
  }

  /** A marked cell is announced to its parent: this is what makes the early exits harmless. */
  ghost predicate Announced(c: Cell)
    reads c.subtree`parent, c.subtree`doDrift, c.subtree`doSubDrift
  {
    forall d :: d in c.subtree && d != c && Marked(d) ==>
      d.parent != null && d.parent in c.subtree && d.parent.doSubDrift
  }

  /** `top` is a gas super-cell: it and everything below it point to it. */
  ghost predicate SuperTree(top: Cell)
    reads top.subtree`parent, top.subtree`hydroSuper
  {
    && top.WellFormed()
    && top.Rooted()
    && forall d :: d in top.subtree ==> d.hydroSuper == top
  }

  ghost predicate MarksConsistent(top: Cell, s: Scheduler)
    reads top`doDrift, top`doSubDrift, s
    reads top.subtree`parent, top.subtree`hydroSuper, top.subtree`doDrift, top.subtree`doSubDrift
  {
    && SuperTree(top)
    && Announced(top)
    && (Marked(top) ==> top in s.active)
  }

  lemma {:induction false} AncestorsKnow(top: Cell, a: Cell, c: Cell)
    requires top.WellFormed() && top.Rooted() && Announced(top)
    requires a in top.subtree && c in a.subtree && c != a && Marked(c)
    ensures a.doSubDrift
    decreases a.subtree
  {
    SubtreeNested(top, a);
    var k := SlotOf(a, c);
    var kid := a.progeny[k];
    assert kid in top.subtree;
    NoCycle(a, kid);
    if kid == top { SubtreeNested(top, a); assert false; }
    if kid != c {
      AncestorsKnow(top, kid, c);
    }
  }

  lemma AllAncestorsKnow(top: Cell)
    requires top.WellFormed() && top.Rooted() && Announced(top)
    ensures forall d, e :: d in top.subtree && e in d.subtree && e != d && Marked(e) ==> d.doSubDrift
  {
    forall d, e | d in top.subtree && e in d.subtree && e != d && Marked(e) ensures d.doSubDrift {
      AncestorsKnow(top, d, e);
    }
  }

  /** The cells strictly above `c` that lie in `region` know that something below them is marked. */
  ghost predicate ToldUpTo(top: Cell, c: Cell, region: set<Cell>, told: set<Cell>)
    reads top.subtree`doSubDrift
  {
    forall d :: d in top.subtree ==> (d.doSubDrift <==> d in told || (c in d.subtree && d != c && d in region))
  }

  lemma ToldStep(top: Cell, last: Cell, c: Cell, told: set<Cell>, known: set<Cell>)
    requires top.WellFormed() && top.Rooted() && last in top.subtree && last != top
    requires c in top.subtree && c in last.subtree
    requires last.parent != null && last.parent.doSubDrift
    requires forall d :: d in top.subtree ==>
      (d in known <==> d in told || (c in d.subtree && d != c && d in last.subtree))
    requires forall d :: d in top.subtree && d != last.parent ==> (d.doSubDrift <==> d in known)
    ensures last.parent in top.subtree && c in last.parent.subtree && last.subtree < last.parent.subtree
    ensures ToldUpTo(top, c, last.parent.subtree, told)
  {
    ParentAbove(top, last);
    SubtreeNested(last.parent, last);
    forall d | d in top.subtree && d != last.parent
      ensures d.doSubDrift <==> d in told || (c in d.subtree && d != c && d in last.parent.subtree)
    {
      if c in d.subtree { LinkAbove(top, last, c, d); }
    }
  }

  /** The climb stops at a parent that already knows: whoever told it has told everybody above too. */
  lemma ToldByOthers(top: Cell, last: Cell, c: Cell, told: set<Cell>)
    requires top.WellFormed() && top.Rooted() && last in top.subtree && last != top
    requires c in top.subtree && c in last.subtree
    requires ToldUpTo(top, c, last.subtree, told)
    requires last.parent != null && last.parent.doSubDrift
    requires forall d, e :: d in top.subtree && e in d.subtree && e != d && e in told ==> d in told
    ensures ToldUpTo(top, c, top.subtree, told)
  {
    ParentAbove(top, last);
    forall d | d in top.subtree && c in d.subtree && d != c ensures d.doSubDrift {
      LinkAbove(top, last, c, d);
    }
  }

  /** Whoever is told has told everybody above, and then the super-cell's task is active. */
  ghost predicate ToldAreClosed(top: Cell, told: set<Cell>, s: Scheduler)
    reads s
  {
    && told <= top.subtree
    && (forall d, e :: d in top.subtree && e in told && e in d.subtree && e != d ==> d in told)
    && (top in told ==> top in s.active)
  }

  /** The climb of cell_activate_drift_part. */
  method TellAncestors(c: Cell, s: Scheduler, ghost top: Cell, ghost told: set<Cell>)
    requires SuperTree(top) && c in top.subtree && c != top && c in c.subtree
    requires ToldUpTo(top, c, {}, told) && ToldAreClosed(top, told, s)
    modifies s, top.subtree`doSubDrift
    ensures ToldUpTo(top, c, top.subtree, told)
    ensures s.active == old(s.active) + {top}
  {
    hide Cell.WellFormed;
    ghost var last := c;
    var parent := c.parent;
    ParentOf(top, c);
    SubtreeNested(top, c);
    assert forall d :: d in c.subtree && c in d.subtree ==> d == c by {
      forall d | d in c.subtree && c in d.subtree && d != c ensures false { NoCycle(c, d); }
    }
    while parent != null && !parent.doSubDrift
      invariant last in top.subtree && c in last.subtree && last != top && parent == last.parent
      invariant parent in top.subtree
      invariant ToldUpTo(top, c, last.subtree, told)
      invariant s.active == old(s.active)
      decreases top.subtree - last.subtree
    {
      ghost var known := set d | d in top.subtree && d.doSubDrift;
      parent.doSubDrift := true;
      ToldStep(top, last, c, told, known);
      if parent == c.hydroSuper {
        s.active := s.active + {parent};
        return;
      }
      last := parent;
      parent := parent.parent;
      ParentOf(top, last);
    }
    ParentAbove(top, last);
    assert parent in told;
    assert top in told;
    ToldByOthers(top, last, c, told);
  }

  /** cell_activate_drift_part.  Whatever the shortcuts, the result is that `c` is marked for drifting,
      exactly its ancestors up to the super-cell have been told so, and the super-cell's task runs. */
  method ActivateDriftPart(c: Cell, s: Scheduler, ghost top: Cell)
    requires MarksConsistent(top, s) && c in top.subtree
    modifies s, top.subtree`doDrift, top.subtree`doSubDrift
    ensures MarksConsistent(top, s)
    ensures forall d :: d in top.subtree ==> (d.doDrift <==> old(d.doDrift) || d == c)
    ensures forall d :: d in top.subtree ==>
      (d.doSubDrift <==> old(d.doSubDrift) || (c in d.subtree && d != c))
    ensures s.active == old(s.active) + {top}
  {
    hide Cell.WellFormed, Cell.Rooted;
    ghost var told := set d | d in top.subtree && d.doSubDrift;
    MarksAreClosed(top, c, s, told);
    if c.doDrift {
      return;
    }
    c.doDrift := true;
    if c == c.hydroSuper {
      s.active := s.active + {c};
    } else {
      TellAncestors(c, s, top, told);
    }
    AnnouncedAfter(top, c, told);
  }

  lemma MarksAreClosed(top: Cell, c: Cell, s: Scheduler, told: set<Cell>)
    requires MarksConsistent(top, s) && c in top.subtree
    requires told == set d | d in top.subtree && d.doSubDrift
    ensures top in top.subtree && c in c.subtree
    ensures forall d :: d in top.subtree && top in d.subtree ==> d == top
    ensures ToldAreClosed(top, told, s)
    ensures forall d :: d in top.subtree && d != top && (d.doDrift || d in told) ==> d.parent in told
    ensures c.doDrift ==> top in s.active && forall d :: d in top.subtree && c in d.subtree && d != c ==> d in told
  {
    hide Cell.WellFormed;
    AllAncestorsKnow(top);
    SubtreeNested(top, c);
    forall d | d in top.subtree && top in d.subtree && d != top ensures false { NoCycle(top, d); }
    assert forall d :: d in top.subtree && (d.doDrift || d in told) ==> Marked(d);
  }

  lemma AnnouncedAfter(top: Cell, c: Cell, told: set<Cell>)
    requires top.WellFormed() && top.Rooted() && c in top.subtree
    requires told <= top.subtree && ToldUpTo(top, c, top.subtree, told)
    requires forall d :: d in top.subtree && d != top && d != c && (d.doDrift || d in told) ==> d.parent in told
    ensures Announced(top)
  {
    forall d | d in top.subtree && d != top && Marked(d)
      ensures d.parent != null && d.parent in top.subtree && d.parent.doSubDrift
    {
      ParentOf(top, d);
      SubtreeNested(top, d.parent);
      if c in d.subtree {
        SubtreeNested(d.parent, d);
        if d.parent == c { NoCycle(c, d); }
      }
    }
  }

  // ----- the top-down walk -----

  function Max(a: real, b: real): real { if a > b then a else b }

  /** The two upper limits a cell keeps are upper limits for the live particles in its window. */
  ghost predicate BoundedBy(ps: seq<Particle>, lo: int, hi: int, h: real, dx2: real)
    requires 0 <= lo && hi <= |ps|
  {
    forall i :: lo <= i < hi && !ps[i].bin.Inhibited? ==> ps[i].h <= h && ps[i].diff.Norm2() <= dx2
  }

  /** The limits are no larger than they must be: each is zero or that of a live particle. */
  ghost predicate Attains(ps: seq<Particle>, lo: int, hi: int, h: real, dx2: real) {
    (h == 0.0 || SomeH(ps, lo, hi, h)) && (dx2 == 0.0 || SomeOffset(ps, lo, hi, dx2))
  }

  ghost predicate SomeH(ps: seq<Particle>, lo: int, hi: int, h: real) {
    exists i :: 0 <= i < |ps| && lo <= i < hi && !ps[i].bin.Inhibited? && ps[i].h == h
  }

  ghost predicate SomeOffset(ps: seq<Particle>, lo: int, hi: int, dx2: real) {
    exists i :: 0 <= i < |ps| && lo <= i < hi && !ps[i].bin.Inhibited? && ps[i].diff.Norm2() == dx2
  }

  /** Each limit is the largest of those of the first n progeny, or zero. */
  ghost predicate KidsLimits(c: Cell, n: nat, h: real, dx2: real)
    reads c.Kids()`hMax, c.Kids()`dx2Max
  {
    |c.progeny| == 8 && Largest(c.progeny, LimitsOf(c), n, h, dx2)
  }

  ghost function LimitsOf(c: Cell): (r: seq<(real, real)>)
    requires |c.progeny| == 8
    reads c.Kids()`hMax, c.Kids()`dx2Max
    ensures |r| == 8 && forall k :: 0 <= k < 8 && c.progeny[k] != null ==>
      r[k] == (c.progeny[k].hMax, c.progeny[k].dx2Max)
  {
    var p := c.progeny;
    [LimitOf(p[0]), LimitOf(p[1]), LimitOf(p[2]), LimitOf(p[3]), LimitOf(p[4]), LimitOf(p[5]), LimitOf(p[6]),
     LimitOf(p[7])]
  }

  ghost function LimitOf(c: Cell?): (real, real)
    reads (if c == null then {} else {c})`hMax, (if c == null then {} else {c})`dx2Max
  {
    if c == null then (0.0, 0.0) else (c.hMax, c.dx2Max)
  }

  ghost predicate Largest(kids: seq<Cell?>, r: seq<(real, real)>, n: nat, h: real, dx2: real) {
    && n <= |kids| == |r| && h >= 0.0 && dx2 >= 0.0
    && (forall k :: 0 <= k < n && kids[k] != null ==> r[k].0 <= h && r[k].1 <= dx2)
    && (h == 0.0 || exists k :: 0 <= k < n && kids[k] != null && r[k].0 == h)
    && (dx2 == 0.0 || exists k :: 0 <= k < n && kids[k] != null && r[k].1 == dx2)
  }

  lemma NoneLargest(c: Cell)
    requires |c.progeny| == 8
    ensures KidsLimits(c, 0, 0.0, 0.0)
  {
  }

  lemma OneMoreKid(c: Cell, k: nat, limits: seq<(real, real)>, h: real, dx2: real)
    requires k < 8 == |c.progeny| && |limits| == 8 && Largest(c.progeny, limits, k, h, dx2)
    requires forall j :: 0 <= j < k && c.progeny[j] != null ==> LimitOf(c.progeny[j]) == limits[j]
    ensures if c.progeny[k] == null then KidsLimits(c, k + 1, h, dx2)
      else KidsLimits(c, k + 1, Max(h, c.progeny[k].hMax), Max(dx2, c.progeny[k].dx2Max))
  {
    hide Largest;
    LargestNext(c.progeny, limits, LimitsOf(c), k, h, dx2);
  }

  lemma NoKidLimit(c: Cell, k: nat, h: real, dx2: real)
    requires k < 8 && KidsLimits(c, k, h, dx2) && c.progeny[k] == null
    ensures KidsLimits(c, k + 1, h, dx2)
  {
    OneMoreKid(c, k, LimitsOf(c), h, dx2);
  }

  lemma OpenLimits(c: Cell, k: nat, h: real, dx2: real)
    requires KidsLimits(c, k, h, dx2)
    ensures |c.progeny| == 8 && Largest(c.progeny, LimitsOf(c), k, h, dx2)
    ensures forall j :: 0 <= j < 8 && c.progeny[j] != null ==> LimitOf(c.progeny[j]) == LimitsOf(c)[j]
  {
  }

  lemma LargestNext(kids: seq<Cell?>, r0: seq<(real, real)>, r: seq<(real, real)>, k: nat, h: real, dx2: real)
    requires k < |kids| == |r0| == |r| && Largest(kids, r0, k, h, dx2)
    requires forall j :: 0 <= j < k && kids[j] != null ==> r[j] == r0[j]
    ensures kids[k] != null ==> Largest(kids, r, k + 1, Max(h, r[k].0), Max(dx2, r[k].1))
    ensures kids[k] == null ==> Largest(kids, r, k + 1, h, dx2)
  {
    if h != 0.0 {
      var j :| 0 <= j < k && kids[j] != null && r0[j].0 == h;
      assert r[j].0 == h;
    }
    if dx2 != 0.0 {
      var j :| 0 <= j < k && kids[j] != null && r0[j].1 == dx2;
      assert r[j].1 == dx2;
    }
  }

  /** What the walk leaves as limits of `c`: those of its progeny if it went down, attained ones if it drifted the
      particles, the old ones otherwise. */
  ghost predicate LimitsDone(c: Cell, force: bool, was: Was, h: real, dx2: real, now: int, ps: seq<Particle>)
    reads c`windows, c`hMax, c`dx2Max, c.Kids()`hMax, c.Kids()`dx2Max
  {
    if c.windows.hydro.count != 0 && c.split && (force || was.doDrift || was.doSubDrift) then
      KidsLimits(c, 8, c.hMax, c.dx2Max)
    else if c.windows.hydro.count != 0 && !c.split && (force || was.doDrift) && was.tiOldPart < now then
      Attains(ps, c.windows.hydro.start, c.windows.hydro.start + c.windows.hydro.count, c.hMax, c.dx2Max)
    else c.hMax == h && c.dx2Max == dx2
  }

  /** Some cell strictly above `d`, within the subtree of `c`, is empty: the walk does not get past it. */
  ghost predicate Shadowed(c: Cell, d: Cell)
    reads c.subtree`windows
  {
    exists a :: a in c.subtree && d in a.subtree && a != d && a.windows.hydro.count == 0
  }

  /** cell_set_ti_old_part */
  method SetTiOldPart(c: Cell, ti: int)
    requires c.WellFormed()
    modifies c.subtree`tiOldPart
    ensures forall d :: d in c.subtree ==> d.tiOldPart == ti
    decreases c.subtree
  {
    hide Cell.WellFormed;
    KidsProper(c);
    KidsDisjoint(c);
    c.tiOldPart := ti;
    if c.split {
      for k := 0 to 8
        modifies c.subtree`tiOldPart
        invariant c.tiOldPart == ti
        invariant forall j, d :: 0 <= j < k && c.progeny[j] != null && d in c.progeny[j].subtree ==> d.tiOldPart == ti
      {
        if c.progeny[k] != null {
          SetTiOldPart(c.progeny[k], ti);
        }
      }
    }
    forall d | d in c.subtree && d != c ensures d.tiOldPart == ti {
      var k := SlotExists(c, d);
    }
  }

  /** The particle loop of cell_drift_part. */
  lemma StillAttains(before: seq<Particle>, after: seq<Particle>, lo: int, k: nat, h: real, dx2: real)
    requires Attains(before, lo, lo + k, h, dx2) && 0 <= lo && lo + k < |before| == |after|
    requires forall i :: lo <= i < lo + k ==> after[i] == before[i]
    ensures Attains(after, lo, lo + k, h, dx2) && Attains(after, lo, lo + k + 1, h, dx2)
  {
    hide Vec.Norm2;
    if SomeH(before, lo, lo + k, h) {
      var i :| 0 <= i < |before| && lo <= i < lo + k && !before[i].bin.Inhibited? && before[i].h == h;
      assert after[i].h == h;
    }
    if SomeOffset(before, lo, lo + k, dx2) {
      var i :| 0 <= i < |before| && lo <= i < lo + k && !before[i].bin.Inhibited? && before[i].diff.Norm2() == dx2;
      assert after[i].diff.Norm2() == dx2;
    }
  }

  lemma AttainsNext(ps: seq<Particle>, lo: int, k: nat, h: real, dx2: real)
    requires 0 <= lo && lo + k < |ps| && Attains(ps, lo, lo + k + 1, h, dx2) && !ps[lo + k].bin.Inhibited?
    ensures Attains(ps, lo, lo + k + 1, Max(h, ps[lo + k].h), Max(dx2, ps[lo + k].diff.Norm2()))
  {
    hide Vec.Norm2;
    assert SomeH(ps, lo, lo + k + 1, ps[lo + k].h);
    assert SomeOffset(ps, lo, lo + k + 1, ps[lo + k].diff.Norm2());
  }

  method DriftLeaf(c: Cell, parts: array<Particle>, run: Run, now: int)
    requires 0 <= c.windows.hydro.start && c.windows.hydro.start + c.windows.hydro.count <= parts.Length
    requires c.tiOldPart < now
    modifies parts, c`tiOldPart, c`hMax, c`dx2Max
    ensures forall i :: c.windows.hydro.start <= i < c.windows.hydro.start + c.windows.hydro.count ==>
      parts[i] == Advance(old(parts[i]), run, old(c.tiOldPart), now)
    ensures forall i :: 0 <= i < parts.Length && !(c.windows.hydro.start <= i < c.windows.hydro.start + c.windows.hydro.count) ==>
      parts[i] == old(parts[i])
    ensures forall i :: c.windows.hydro.start <= i < c.windows.hydro.start + c.windows.hydro.count ==>
      Drifted(old(parts[i]), parts[i], run, old(c.tiOldPart), now)
    ensures BoundedBy(parts[..], c.windows.hydro.start, c.windows.hydro.start + c.windows.hydro.count, c.hMax, c.dx2Max)
    ensures Attains(parts[..], c.windows.hydro.start, c.windows.hydro.start + c.windows.hydro.count, c.hMax, c.dx2Max)
    ensures c.tiOldPart == now
  {
    hide Clamp, Drifted, Kicked, Vec.Norm2, Vec.Plus, Vec.Times;
    var cellHMax, dx2Max := 0.0, 0.0;
    var lo, tiOld := c.windows.hydro.start, c.tiOldPart;
    for k := 0 to c.windows.hydro.count
      invariant forall i :: 0 <= i < parts.Length ==>
        parts[i] == if lo <= i < lo + k then Advance(old(parts[i]), run, tiOld, now) else old(parts[i])
      invariant forall i :: lo <= i < lo + k && !parts[i].bin.Inhibited? ==>
        parts[i].h <= cellHMax && parts[i].diff.Norm2() <= dx2Max
      invariant Attains(parts[..], lo, lo + k, cellHMax, dx2Max)
    {
      ghost var mid := parts[..];
      var p := parts[lo + k];
      if p.bin.Inhibited? {
        StillAttains(mid, parts[..], lo, k, cellHMax, dx2Max);
        continue;
      }
      parts[lo + k] := Advance(p, run, tiOld, now);
      StillAttains(mid, parts[..], lo, k, cellHMax, dx2Max);
      AttainsNext(parts[..], lo, k, cellHMax, dx2Max);
      dx2Max := Max(dx2Max, parts[lo + k].diff.Norm2());
      cellHMax := Max(cellHMax, parts[lo + k].h);
    }
    c.hMax := cellHMax;
    c.dx2Max := dx2Max;
    c.tiOldPart := now;
    forall i | lo <= i < lo + c.windows.hydro.count ensures Drifted(old(parts[i]), parts[i], run, tiOld, now) {
      AdvanceDrifts(old(parts[i]), run, tiOld, now);
    }
  }

  /** The state of a cell before the walk, to state what the walk leaves. */
  datatype Was = Was(tiOldPart: int, doDrift: bool, doSubDrift: bool)

  ghost function Snapshot(c: Cell): map<Cell, Was>
    reads c.subtree`tiOldPart, c.subtree`doDrift, c.subtree`doSubDrift
  {
    map d | d in c.subtree :: Was(d.tiOldPart, d.doDrift, d.doSubDrift)
  }

  ghost predicate Untouched(c: Cell, was: map<Cell, Was>)
    reads c.subtree`tiOldPart, c.subtree`doDrift, c.subtree`doSubDrift
  {
    forall d :: d in c.subtree ==> d in was && was[d] == Was(d.tiOldPart, d.doDrift, d.doSubDrift)
  }

  /** What the walk over the subtree of `c` does to marks and times. */
  ghost predicate Walked(c: Cell, force: bool, was: map<Cell, Was>, now: int)
    requires c.subtree <= was.Keys
    reads c.subtree`windows, c.subtree`tiOldPart, c.subtree`doDrift, c.subtree`doSubDrift
  {
    // a mark stays only where an empty cell above has hidden it from the walk
    && (forall d :: d in c.subtree ==> (d.doDrift <==> was[d].doDrift && Shadowed(c, d)))
    && (forall d :: d in c.subtree ==> (d.doSubDrift <==> was[d].doSubDrift && Shadowed(c, d)))
    // everything below a marked cell is brought to the current time
    && (forall d :: d in c.subtree ==> d.tiOldPart == now || d.tiOldPart == was[d].tiOldPart)
    && (forall a, d :: a in c.subtree && (was[a].doDrift || (force && a == c)) && d in a.subtree && d in c.subtree ==>
      d.tiOldPart == now)
    // and nothing else is
    && (forall d :: d in c.subtree && !d.split && !Wanted(c, force, was, d) ==> d.tiOldPart == was[d].tiOldPart)
  }

  /** A leaf is wanted if the walk is forced or some cell at or above it is marked, or is empty. */
  ghost predicate Wanted(c: Cell, force: bool, was: map<Cell, Was>, d: Cell)
    requires c.subtree <= was.Keys
    reads c.subtree`windows
  {
    force || exists a :: a in c.subtree && d in a.subtree && (was[a].doDrift || a.windows.hydro.count == 0)
  }

  /** The particles of every leaf have gone from the leaf's old time to its new time. */
  ghost predicate Moved(c: Cell, was: map<Cell, Was>, before: seq<Particle>, after: seq<Particle>, run: Run)
    requires c.subtree <= was.Keys && |before| == |after|
    reads c.subtree`windows, c.subtree`tiOldPart
  {
    forall d, i :: d in c.subtree && !d.split && 0 <= d.windows.hydro.start <= i < d.windows.hydro.start + d.windows.hydro.count && i < |after| ==>
      after[i] == Advance(before[i], run, was[d].tiOldPart, d.tiOldPart)
  }

  ghost predicate AllBounded(c: Cell, ps: seq<Particle>)
    reads c.subtree`windows, c.subtree`hMax, c.subtree`dx2Max
  {
    forall d :: d in c.subtree ==>
      && 0 <= d.windows.hydro.start && d.windows.hydro.start + d.windows.hydro.count <= |ps|
      && BoundedBy(ps, d.windows.hydro.start, d.windows.hydro.start + d.windows.hydro.count, d.hMax, d.dx2Max)
  }

  ghost predicate Walkable(c: Cell, parts: array<Particle>, now: int)
    reads c.subtree, parts
  {
    && c.WellFormed() && c.Rooted() && c.Tiled(Gas) && Announced(c)
    && AllBounded(c, parts[..])
    && (forall d :: d in c.subtree ==> d.tiOldPart <= now)
  }

  ghost predicate SameOutside(c: Cell, before: seq<Particle>, after: seq<Particle>)
    reads c`windows
  {
    && |before| == |after|
    && forall i :: 0 <= i < |before| && !(c.windows.hydro.start <= i < c.windows.hydro.start + c.windows.hydro.count) ==> after[i] == before[i]
  }

  /** The early abort of cell_drift_part, for a cell without particles. */
  method PassEmpty(c: Cell, ghost force: bool, now: int, ghost was: map<Cell, Was>, ghost ps: seq<Particle>,
                   ghost run: Run)
    requires c.WellFormed() && c.Tiled(Gas) && c.windows.hydro.count == 0 && c.subtree <= was.Keys && c in c.subtree
    requires forall d :: d in c.subtree ==> d.doDrift == was[d].doDrift && d.doSubDrift == was[d].doSubDrift
    modifies c.subtree`tiOldPart, c`doDrift, c`doSubDrift
    ensures Walked(c, force, was, now) && Moved(c, was, ps, ps, run)
    ensures LimitsDone(c, force, was[c], c.hMax, c.dx2Max, now, ps)
  {
    hide *;
    c.doDrift, c.doSubDrift := false, false;
    SetTiOldPart(c, now);
    EmptyWalked(c, force, was, now, ps, run);
  }

  /** cell_drift_part: drifts the leaves below every marked cell (all leaves when forced) from the time
      of their own last drift to `now`, leaves all other leaves alone, and clears the marks it meets. */
  method DriftPart(c: Cell, force: bool, parts: array<Particle>, run: Run, now: int)
    requires Walkable(c, parts, now)
    modifies parts, c.subtree`tiOldPart, c.subtree`doDrift, c.subtree`doSubDrift, c.subtree`hMax, c.subtree`dx2Max
    ensures Walked(c, force, old(Snapshot(c)), now)
    ensures Moved(c, old(Snapshot(c)), old(parts[..]), parts[..], run)
    ensures SameOutside(c, old(parts[..]), parts[..])
    ensures AllBounded(c, parts[..])
    ensures LimitsDone(c, force, old(Was(c.tiOldPart, c.doDrift, c.doSubDrift)), old(c.hMax), old(c.dx2Max), now,
                       parts[..])
    decreases c.subtree
  {
    hide *;
    var force' := force || c.doDrift;
    ghost var was, before := Snapshot(c), parts[..];
    ghost var h, dx2 := c.hMax, c.dx2Max;
    BeforeWalk(c, parts, now, was);
    if c.windows.hydro.count == 0 {
      PassEmpty(c, force, now, was, parts[..], run);
      return;
    }
    if c.split && (force' || c.doSubDrift) {
      DriftKids(c, force', parts, run, now);
      c.doDrift, c.doSubDrift := false, false;
      KidsWalked(c, force, was, now, parts[..], h, dx2);
    } else if !c.split && force' && now > c.tiOldPart {
      DriftLeaf(c, parts, run, now);
      c.doDrift, c.doSubDrift := false, false;
      LeafWalked(c, force, was, now, before, parts[..], run, h, dx2);
    } else {
      c.doDrift, c.doSubDrift := false, false;
      QuietWalked(c, force, was, now, parts[..], run);
    }
  }

  lemma BeforeWalk(c: Cell, parts: array<Particle>, now: int, was: map<Cell, Was>)
    requires Walkable(c, parts, now) && was == Snapshot(c)
    ensures c.WellFormed() && c.Tiled(Gas) && c in c.subtree && was.Keys == c.subtree
    ensures was[c] == Was(c.tiOldPart, c.doDrift, c.doSubDrift) && c.tiOldPart <= now
    ensures 0 <= c.windows.hydro.start && c.windows.hydro.start + c.windows.hydro.count <= parts.Length
    ensures forall d :: d in c.subtree ==>
      d.doDrift == was[d].doDrift && d.doSubDrift == was[d].doSubDrift && d.tiOldPart == was[d].tiOldPart
    ensures Untouched(c, was)
    ensures !c.split ==> c.subtree == {c}
    ensures c.split && !c.doSubDrift ==> QuietBelow(c, was)
    ensures AllBounded(c, parts[..])
    ensures SameOutside(c, parts[..], parts[..])
  {
    OnlySelf(c);
    if c.split && !c.doSubDrift {
      forall d | d in c.subtree && d != c ensures !Marked(d) {
        if Marked(d) { AncestorsKnow(c, c, d); }
      }
    }
  }

  /** Nothing below `c` was marked. */
  ghost predicate QuietBelow(c: Cell, was: map<Cell, Was>)
    requires c.subtree <= was.Keys
  {
    forall d :: d in c.subtree && d != c ==> !was[d].doDrift && !was[d].doSubDrift
  }

  lemma EmptyWalked(c: Cell, force: bool, was: map<Cell, Was>, now: int, ps: seq<Particle>, run: Run)
    requires c.WellFormed() && c.Tiled(Gas) && c.windows.hydro.count == 0 && c.subtree <= was.Keys
    requires !c.doDrift && !c.doSubDrift
    requires forall d :: d in c.subtree && d != c ==> d.doDrift == was[d].doDrift && d.doSubDrift == was[d].doSubDrift
    requires forall d :: d in c.subtree ==> d.tiOldPart == now
    ensures Walked(c, force, was, now)
    ensures Moved(c, was, ps, ps, run)
    ensures c in was && LimitsDone(c, force, was[c], c.hMax, c.dx2Max, now, ps)
  {
    OnlySelf(c);
    EmptyWalk(c);
    hide Cell.WellFormed, Cell.Tiled;
    forall d | d in c.subtree ensures Wanted(c, force, was, d) {
      assert c in c.subtree && d in c.subtree;
    }
  }

  /** Seen from a progeny of a non-empty cell, the same cells hide or want a leaf. */
  lemma KidView(c: Cell, force: bool, was: map<Cell, Was>, d: Cell) returns (k: nat)
    requires c.WellFormed() && c.windows.hydro.count > 0 && c.subtree <= was.Keys && d in c.subtree && d != c
    ensures k < 8 && c.progeny[k] != null && d in c.progeny[k].subtree && c.progeny[k].subtree <= c.subtree
    ensures Shadowed(c, d) <==> Shadowed(c.progeny[k], d)
    ensures Wanted(c, force, was, d) <==> Wanted(c.progeny[k], force || was[c].doDrift, was, d)
  {
    OnlySelf(c);
    k := SlotOf(c, d);
    var kid := c.progeny[k];
    assert kid.subtree <= c.subtree;
    hide Cell.WellFormed;
    if Shadowed(c, d) {
      var a :| a in c.subtree && d in a.subtree && a != d && a.windows.hydro.count == 0;
      assert a in kid.subtree;
    }
    if Wanted(c, force, was, d) && !force && !was[c].doDrift {
      var a :| a in c.subtree && d in a.subtree && (was[a].doDrift || a.windows.hydro.count == 0);
      assert a in kid.subtree;
    }
    if was[c].doDrift {
      assert c in c.subtree && d in c.subtree;
    }
  }

  lemma KidsWalked(c: Cell, force: bool, was: map<Cell, Was>, now: int, ps: seq<Particle>, h: real, dx2: real)
    requires c.WellFormed() && c.split && c.windows.hydro.count > 0 && c.subtree <= was.Keys
    requires !c.doDrift && !c.doSubDrift && c.tiOldPart == now
    requires forall k :: 0 <= k < 8 && c.progeny[k] != null ==>
      c.progeny[k].subtree <= c.subtree && Walked(c.progeny[k], force || was[c].doDrift, was, now)
    requires KidsLimits(c, 8, c.hMax, c.dx2Max) && c in was && (force || was[c].doDrift || was[c].doSubDrift)
    ensures Walked(c, force, was, now)
    ensures LimitsDone(c, force, was[c], h, dx2, now, ps)
  {
    hide KidsLimits, Attains;
    OnlySelf(c);
    var force' := force || was[c].doDrift;
    forall d | d in c.subtree && d != c
      ensures d.doDrift <==> was[d].doDrift && Shadowed(c, d)
      ensures d.doSubDrift <==> was[d].doSubDrift && Shadowed(c, d)
      ensures d.tiOldPart == now || d.tiOldPart == was[d].tiOldPart
      ensures !d.split && !Wanted(c, force, was, d) ==> d.tiOldPart == was[d].tiOldPart
      ensures force' ==> d.tiOldPart == now
    {
      var k := KidView(c, force, was, d);
      OnlySelf(c.progeny[k]);
      hide Cell.WellFormed, Shadowed, Wanted;
      assert Walked(c.progeny[k], force', was, now);
    }
    hide Cell.WellFormed, Shadowed, Wanted;
    forall a, d | a in c.subtree && a != c && was[a].doDrift && d in a.subtree && d in c.subtree
      ensures d.tiOldPart == now
    {
      var k := SlotOf(c, a);
      KidNested(c, k, a);
      assert Walked(c.progeny[k], force', was, now);
    }
  }

  lemma KidNested(c: Cell, k: nat, a: Cell)
    requires c.WellFormed() && k < 8 && c.progeny[k] != null && a in c.progeny[k].subtree
    ensures a.subtree <= c.progeny[k].subtree
  {
    SubtreeNested(c.progeny[k], a);
  }

  lemma LeafWalked(c: Cell, force: bool, was: map<Cell, Was>, now: int, before: seq<Particle>, after: seq<Particle>,
        run: Run, h: real, dx2: real)
    requires c.subtree == {c} && c in was && c.windows.hydro.count > 0 && |before| == |after|
    requires !c.doDrift && !c.doSubDrift && c.tiOldPart == now
    requires force || was[c].doDrift
    requires 0 <= c.windows.hydro.start && c.windows.hydro.start + c.windows.hydro.count <= |after|
    requires forall i :: c.windows.hydro.start <= i < c.windows.hydro.start + c.windows.hydro.count ==>
      after[i] == Advance(before[i], run, was[c].tiOldPart, now)
    requires forall i :: 0 <= i < |after| && !(c.windows.hydro.start <= i < c.windows.hydro.start + c.windows.hydro.count) ==> after[i] == before[i]
    requires BoundedBy(after, c.windows.hydro.start, c.windows.hydro.start + c.windows.hydro.count, c.hMax, c.dx2Max)
    ensures Walked(c, force, was, now)
    ensures Moved(c, was, before, after, run)
    ensures AllBounded(c, after)
    requires !c.split && was[c].tiOldPart < now
    requires Attains(after, c.windows.hydro.start, c.windows.hydro.start + c.windows.hydro.count, c.hMax, c.dx2Max)
    ensures SameOutside(c, before, after)
    ensures LimitsDone(c, force, was[c], h, dx2, now, after)
  {
    hide KidsLimits, Attains;
    assert c in c.subtree;
  }

  lemma QuietWalked(c: Cell, force: bool, was: map<Cell, Was>, now: int, ps: seq<Particle>, run: Run)
    requires c.WellFormed() && c.windows.hydro.count > 0 && c.subtree <= was.Keys
    requires !c.doDrift && !c.doSubDrift
    requires forall d :: d in c.subtree && d != c ==> d.doDrift == was[d].doDrift && d.doSubDrift == was[d].doSubDrift
    requires forall d :: d in c.subtree ==> d.tiOldPart == was[d].tiOldPart
    requires c.split ==> QuietBelow(c, was) && !force && !was[c].doDrift && !was[c].doSubDrift
    requires !c.split && (force || was[c].doDrift) ==> c.tiOldPart == now
    ensures Walked(c, force, was, now)
    ensures Moved(c, was, ps, ps, run)
    ensures c in was && LimitsDone(c, force, was[c], c.hMax, c.dx2Max, now, ps)
  {
    hide Attains, KidsLimits;
    OnlySelf(c);
    hide Cell.WellFormed;
  }

  /** What cell_drift_part does with the progeny: walk them, then keep the upper limits collected. */
  method DriftKids(c: Cell, force: bool, parts: array<Particle>, run: Run, now: int)
    requires Walkable(c, parts, now) && c.split
    modifies parts, c.subtree`tiOldPart, c.subtree`doDrift, c.subtree`doSubDrift, c.subtree`hMax, c.subtree`dx2Max
    ensures c.doDrift == old(c.doDrift) && c.doSubDrift == old(c.doSubDrift) && c.tiOldPart == now
    ensures forall k :: 0 <= k < |c.progeny| && c.progeny[k] != null ==>
      c.progeny[k].subtree <= c.subtree && Walked(c.progeny[k], force, old(Snapshot(c)), now)
    ensures Moved(c, old(Snapshot(c)), old(parts[..]), parts[..], run)
    ensures SameOutside(c, old(parts[..]), parts[..])
    ensures AllBounded(c, parts[..]) && KidsLimits(c, 8, c.hMax, c.dx2Max)
    decreases c.subtree, 2
  {
    hide *;
    ghost var was, before := Snapshot(c), parts[..];
    EightSlots(c, parts, now);
    ghost var starts := Starts(c);
    KidsReady(c, parts, now, was, starts, force, run);
    var h, dx2 := WalkKids(c, force, parts, run, now, starts, was, before);
    KeepLimits(c, h, dx2, now, starts, was, force, run, before, parts[..]);
  }

  /** The end of the progeny branch. */
  method KeepLimits(c: Cell, h: real, dx2: real, now: int, ghost starts: seq<int>, ghost was: map<Cell, Was>,
                    ghost force: bool, ghost run: Run, ghost before: seq<Particle>, ghost after: seq<Particle>)
    requires HalfWay(c, 8, starts, was, now, force, run, before, after, h, dx2) && c !in c.Kids()
    requires KidsLimits(c, 8, h, dx2)
    requires c.WellFormed() && c.split && c.windows.hydro.start + c.windows.hydro.count <= |after|
    modifies c`hMax, c`dx2Max, c`tiOldPart
    ensures c.tiOldPart == now && c.hMax == h && c.dx2Max == dx2
    ensures forall k :: 0 <= k < |c.progeny| && c.progeny[k] != null ==>
      c.progeny[k].subtree <= c.subtree && c.subtree <= was.Keys && Walked(c.progeny[k], force, was, now)
    ensures c.subtree <= was.Keys && |before| == |after| && Moved(c, was, before, after, run)
    ensures AllBounded(c, after) && KidsLimits(c, 8, h, dx2)
    ensures SameOutside(c, before, after)
  {
    hide KidsLimits, AllBounded, BoundedUpTo, Cell.WellFormed, Laid, Moved, Pending, SameOutside, Walked;
    c.hMax := h;
    c.dx2Max := dx2;
    c.tiOldPart := now;
    assert c.subtree <= was.Keys && |before| == |after|;
    AllFromKids(c, starts, was, now, force, run, before, after);
  }

  /** The loop over the progeny. */
  method WalkKids(c: Cell, force: bool, parts: array<Particle>, run: Run, now: int,
                  ghost starts: seq<int>, ghost was: map<Cell, Was>, ghost before: seq<Particle>)
    returns (cellHMax: real, dx2Max: real)
    requires HalfWay(c, 0, starts, was, now, force, run, before, parts[..], 0.0, 0.0)
    requires |c.progeny| == 8
    requires forall k :: 0 <= k < 8 && c.progeny[k] != null ==>
      c.progeny[k].subtree < c.subtree && c !in c.progeny[k].subtree
    modifies parts
    modifies (c.subtree - {c})`tiOldPart, (c.subtree - {c})`doDrift, (c.subtree - {c})`doSubDrift
    modifies (c.subtree - {c})`hMax, (c.subtree - {c})`dx2Max
    ensures HalfWay(c, 8, starts, was, now, force, run, before, parts[..], cellHMax, dx2Max)
    ensures KidsLimits(c, 8, cellHMax, dx2Max)
    decreases c.subtree, 1
  {
    hide *;
    cellHMax, dx2Max := 0.0, 0.0;
    NoneLargest(c);
    for k := 0 to 8
      invariant HalfWay(c, k, starts, was, now, force, run, before, parts[..], cellHMax, dx2Max)
      invariant KidsLimits(c, k, cellHMax, dx2Max)
    {
      var kid := c.progeny[k];
      if kid != null {
        DriftKid(c, k, force, parts, run, now, starts, was, before, cellHMax, dx2Max);
        cellHMax := Max(cellHMax, kid.hMax);
        dx2Max := Max(dx2Max, kid.dx2Max);
      } else {
        NoKid(c, k, starts, was, now, force, run, before, parts[..], cellHMax, dx2Max);
        NoKidLimit(c, k, cellHMax, dx2Max);
      }
    }
  }

  /** One round of that loop. */
  method DriftKid(c: Cell, k: nat, force: bool, parts: array<Particle>, run: Run, now: int,
                  ghost starts: seq<int>, ghost was: map<Cell, Was>, ghost before: seq<Particle>, h: real, dx2: real)
    requires k < 8 && HalfWay(c, k, starts, was, now, force, run, before, parts[..], h, dx2)
    requires KidsLimits(c, k, h, dx2)
    requires |c.progeny| == 8 && c.progeny[k] != null
      && c.progeny[k].subtree < c.subtree && c !in c.progeny[k].subtree
    modifies parts
    modifies c.progeny[k].subtree`tiOldPart, c.progeny[k].subtree`doDrift, c.progeny[k].subtree`doSubDrift
    modifies c.progeny[k].subtree`hMax, c.progeny[k].subtree`dx2Max
    ensures HalfWay(c, k + 1, starts, was, now, force, run, before, parts[..],
                    Max(h, c.progeny[k].hMax), Max(dx2, c.progeny[k].dx2Max))
    ensures KidsLimits(c, k + 1, Max(h, c.progeny[k].hMax), Max(dx2, c.progeny[k].dx2Max))
    decreases c.subtree, 0
  {
    hide Attains, KidsLimits, Largest, Walked, Wanted, Shadowed, Moved, Advance, AllBounded, BoundedUpTo, BoundedBy,
      SameFrom, SameOutside, Laid;
    hide Walkable, Pending, Untouched, Snapshot, Announced, Marked;
    hide Cell.WellFormed, Cell.Rooted, Cell.Tiled, Cell.KidsTile, Cell.KidStart, Cell.Win, Cell.End, Cell.Kids;
    var kid := c.progeny[k];
    ghost var mid, snap, limits := parts[..], Snapshot(kid), LimitsOf(c);
    OpenLimits(c, k, h, dx2);
    KidReady(c, k, parts, now, was);
    DriftPart(kid, force, parts, run, now);
    SnapAgrees(kid, force, snap, was, now);
    MovedStep(c, k, starts, snap, was, before, mid, parts[..], run);
    BoundedStep(c, k, starts, mid, parts[..], h, dx2);
    OneMoreKid(c, k, limits, h, dx2);
  }

  ghost predicate KidsBelow(c: Cell) {
    && |c.progeny| == 8
    && (forall j :: 0 <= j < 8 && c.progeny[j] != null ==>
          c.progeny[j].subtree <= c.subtree - {c} && c.progeny[j] in c.progeny[j].subtree)
    && forall i, j :: 0 <= i < j < 8 && c.progeny[i] != null && c.progeny[j] != null ==>
         c.progeny[i].subtree !! c.progeny[j].subtree
  }

  /** The situation before round `k` of the loop over the progeny. */
  ghost predicate HalfWay(c: Cell, k: nat, starts: seq<int>, was: map<Cell, Was>, now: int, force: bool, run: Run,
                          before: seq<Particle>, ps: seq<Particle>, h: real, dx2: real)
    reads c`windows, c.subtree`windows
    reads c.subtree`parent, (c.subtree - {c})`tiOldPart, (c.subtree - {c})`doDrift, (c.subtree - {c})`doSubDrift
    reads (c.subtree - {c})`hMax, (c.subtree - {c})`dx2Max
  {
    && k <= 8 && Laid(c, starts) && c.subtree <= was.Keys && KidsBelow(c)
    && (forall j :: 0 <= j < k && c.progeny[j] != null ==> Walked(c.progeny[j], force, was, now))
    && (forall j :: k <= j < 8 && c.progeny[j] != null ==> Pending(c.progeny[j], was, now))
    && SameFrom(starts[0], starts[k], before, ps)
    && (forall j :: 0 <= j < k && c.progeny[j] != null ==> Moved(c.progeny[j], was, before, ps, run))
    && (forall j :: 0 <= j < 8 && c.progeny[j] != null ==> AllBounded(c.progeny[j], ps))
    && BoundedUpTo(ps, starts[0], starts[k], h, dx2)
  }

  lemma EightSlots(c: Cell, parts: array<Particle>, now: int)
    requires Walkable(c, parts, now)
    ensures |c.progeny| == 8 && c.WellFormed() && c in c.subtree
    ensures 0 <= c.windows.hydro.start && c.windows.hydro.start + c.windows.hydro.count <= parts.Length
  {
  }

  /** Where each progeny's particles begin. */
  ghost function Starts(c: Cell): seq<int>
    requires |c.progeny| == 8
    reads c`windows, c.Kids()`windows
  {
    [c.KidStart(Gas, 0), c.KidStart(Gas, 1), c.KidStart(Gas, 2), c.KidStart(Gas, 3), c.KidStart(Gas, 4),
     c.KidStart(Gas, 5), c.KidStart(Gas, 6), c.KidStart(Gas, 7), c.KidStart(Gas, 8)]
  }

  /** The windows of the progeny follow one another and contain those of the cells below them. */
  ghost predicate Laid(c: Cell, starts: seq<int>)
    reads c.subtree`windows, c`windows
  {
    && |starts| == 9 && |c.progeny| == 8
    && 0 <= starts[0] == c.windows.hydro.start && starts[8] == c.windows.hydro.start + c.windows.hydro.count
    && (forall j, k :: 0 <= j <= k < 9 ==> starts[j] <= starts[k])
    && (forall k :: 0 <= k < 8 && c.progeny[k] == null ==> starts[k + 1] == starts[k])
    && (forall k :: 0 <= k < 8 && c.progeny[k] != null ==>
        && c.progeny[k] in c.subtree && c.progeny[k].subtree <= c.subtree
        && c.progeny[k].windows.hydro.start == starts[k]
        && starts[k] + c.progeny[k].windows.hydro.count == starts[k + 1])
    && (forall k, d :: 0 <= k < 8 && c.progeny[k] != null && d in c.progeny[k].subtree && d in c.subtree ==>
        starts[k] <= d.windows.hydro.start && d.windows.hydro.start + d.windows.hydro.count <= starts[k + 1])
  }

  /** A progeny the loop has not come to yet. */
  ghost predicate Pending(kid: Cell, was: map<Cell, Was>, now: int)
    reads kid.subtree`tiOldPart, kid.subtree`doDrift, kid.subtree`doSubDrift, kid.subtree`parent
    reads kid.subtree`windows
  {
    && kid.WellFormed() && kid.Rooted() && kid.Tiled(Gas)
    && Untouched(kid, was) && Announced(kid)
    && forall d :: d in kid.subtree ==> d.tiOldPart <= now
  }

  /** Only particles in [lo, hi) have moved. */
  ghost predicate SameFrom(lo: int, hi: int, before: seq<Particle>, after: seq<Particle>) {
    && |before| == |after|
    && (forall i :: 0 <= i < |after| && !(lo <= i < hi) ==> after[i] == before[i])
  }

  /** The maxima collected so far bound the particles of the progeny seen so far. */
  ghost predicate BoundedUpTo(ps: seq<Particle>, lo: int, hi: int, h: real, dx2: real) {
    forall i :: 0 <= i < |ps| && lo <= i < hi && !ps[i].bin.Inhibited? ==> ps[i].h <= h && ps[i].diff.Norm2() <= dx2
  }

  lemma KidsReady(c: Cell, parts: array<Particle>, now: int, was: map<Cell, Was>, starts: seq<int>, force: bool,
        run: Run)
    requires Walkable(c, parts, now) && c.split && was == Snapshot(c) && |c.progeny| == 8 && starts == Starts(c)
    ensures c in c.subtree && was.Keys == c.subtree && c !in c.Kids()
    ensures forall k :: 0 <= k < 8 && c.progeny[k] != null ==>
      c.progeny[k].subtree < c.subtree && c !in c.progeny[k].subtree
    ensures HalfWay(c, 0, starts, was, now, force, run, parts[..], parts[..], 0.0, 0.0)
  {
    KidsProper(c);
    KidsDisjoint(c);
    StartsLaid(c, starts);
    hide Cell.WellFormed, Cell.Tiled, Laid, Starts, Walkable, Pending, Walked, Moved, AllBounded, Snapshot;
    hide Cell.KidStart, Cell.KidsTile, Cell.Rooted, Announced;
    forall k | 0 <= k < 8 && c.progeny[k] != null
      ensures Pending(c.progeny[k], was, now) && AllBounded(c.progeny[k], parts[..])
    {
      KidPending(c, k, parts, now, was);
    }
    assert Laid(c, starts);
  }

  lemma KidPending(c: Cell, k: nat, parts: array<Particle>, now: int, was: map<Cell, Was>)
    requires Walkable(c, parts, now) && c.split && was == Snapshot(c) && k < 8 == |c.progeny| && c.progeny[k] != null
    ensures Pending(c.progeny[k], was, now) && AllBounded(c.progeny[k], parts[..])
  {
    hide Cell.WellFormed, Cell.Tiled, Cell.KidsTile, Cell.KidStart, Announced;
    KidsProper(c);
    KidAnnounced(c, k);
    KidStep(c, Gas, k);
  }

  lemma KidAnnounced(c: Cell, k: nat)
    requires c.WellFormed() && c.Rooted() && Announced(c) && k < 8 && c.progeny[k] != null
    ensures Announced(c.progeny[k])
  {
    var kid := c.progeny[k];
    forall d | d in kid.subtree && d != kid && Marked(d)
      ensures d.parent != null && d.parent in kid.subtree && d.parent.doSubDrift
    {
      ParentOf(kid, d);
    }
  }

  lemma StartsLaid(c: Cell, starts: seq<int>)
    requires c.WellFormed() && c.Tiled(Gas) && c.split && starts == Starts(c) && 0 <= c.windows.hydro.start
    ensures Laid(c, starts)
  {
    StartsAt(c, starts);
    StartsAscend(c, starts);
    hide Cell.WellFormed, Cell.Tiled, Starts;
    forall k, d | 0 <= k < 8 && c.progeny[k] != null && d in c.progeny[k].subtree
      ensures starts[k] <= d.windows.hydro.start && d.windows.hydro.start + d.windows.hydro.count <= starts[k + 1]
    {
      KidStep(c, Gas, k);
      WindowInside(c.progeny[k], Gas, d);
    }
  }

  lemma StartsAscend(c: Cell, starts: seq<int>)
    requires c.WellFormed() && c.Tiled(Gas) && c.split && starts == Starts(c)
    ensures forall j, k :: 0 <= j <= k < 9 ==> starts[j] <= starts[k]
  {
    assert forall k :: 0 <= k < 9 ==> starts[k] == c.KidStart(Gas, k);
    hide Cell.WellFormed, Cell.Tiled, Cell.KidStart, Cell.KidsTile;
    forall j, k | 0 <= j <= k < 9 ensures starts[j] <= starts[k] {
      KidStartMonotone(c, Gas, j, k);
    }
  }

  lemma StartsAt(c: Cell, starts: seq<int>)
    requires c.WellFormed() && c.Tiled(Gas) && c.split && starts == Starts(c)
    ensures |starts| == 9 && |c.progeny| == 8
    ensures starts[0] == c.windows.hydro.start && starts[8] == c.windows.hydro.start + c.windows.hydro.count
    ensures forall k :: 0 <= k < 8 && c.progeny[k] == null ==> starts[k + 1] == starts[k]
    ensures forall k :: 0 <= k < 8 && c.progeny[k] != null ==>
      && c.progeny[k] in c.subtree && c.progeny[k].subtree <= c.subtree
      && c.progeny[k].windows.hydro.start == starts[k] && starts[k] + c.progeny[k].windows.hydro.count == starts[k + 1]
  {
    assert |c.progeny| == 8 && c.KidStart(Gas, 8) == c.End(Gas) && c.KidStart(Gas, 0) == c.windows.hydro.start;
    hide Cell.WellFormed, Cell.Tiled, Cell.KidStart, Cell.KidsTile;
    assert forall k :: 0 <= k < 9 ==> starts[k] == c.KidStart(Gas, k);
    forall k | 0 <= k < 8 ensures
      && (c.progeny[k] == null ==> starts[k + 1] == starts[k])
      && (c.progeny[k] != null ==>
        && c.progeny[k] in c.subtree && c.progeny[k].subtree <= c.subtree
        && c.progeny[k].windows.hydro.start == starts[k]
        && starts[k] + c.progeny[k].windows.hydro.count == starts[k + 1])
    {
      KidStep(c, Gas, k);
    }
  }

  lemma KidReady(c: Cell, k: nat, parts: array<Particle>, now: int, was: map<Cell, Was>)
    requires k < 8 == |c.progeny| && c.progeny[k] != null
    requires Pending(c.progeny[k], was, now) && AllBounded(c.progeny[k], parts[..])
    ensures Walkable(c.progeny[k], parts, now)
    ensures forall d :: d in c.progeny[k].subtree ==>
      d in Snapshot(c.progeny[k]) && d in was && Snapshot(c.progeny[k])[d] == was[d]
    ensures Snapshot(c.progeny[k]).Keys == c.progeny[k].subtree
  {
  }

  lemma NoKid(c: Cell, k: nat, starts: seq<int>, was: map<Cell, Was>, now: int, force: bool, run: Run,
              before: seq<Particle>, ps: seq<Particle>, h: real, dx2: real)
    requires k < 8 && HalfWay(c, k, starts, was, now, force, run, before, ps, h, dx2) && c.progeny[k] == null
    ensures HalfWay(c, k + 1, starts, was, now, force, run, before, ps, h, dx2)
  {
    hide Walked, Moved, AllBounded, BoundedUpTo, SameFrom, Pending;
  }

  /** The walk of a progeny, told with its own snapshot, told with the snapshot of the whole. */
  lemma SnapAgrees(kid: Cell, force: bool, snap: map<Cell, Was>, was: map<Cell, Was>, now: int)
    requires kid.subtree <= snap.Keys && kid.subtree <= was.Keys
    requires forall d :: d in kid.subtree ==> snap[d] == was[d]
    requires Walked(kid, force, snap, now)
    ensures Walked(kid, force, was, now)
  {
    forall d | d in kid.subtree ensures Wanted(kid, force, snap, d) == Wanted(kid, force, was, d) {
    }
  }

  lemma MovedStep(c: Cell, k: nat, starts: seq<int>, snap: map<Cell, Was>, was: map<Cell, Was>,
                  before: seq<Particle>, mid: seq<Particle>, after: seq<Particle>, run: Run)
    requires Laid(c, starts) && c.subtree <= was.Keys
    requires k < 8 && c.progeny[k] != null && c.progeny[k].subtree <= snap.Keys
    requires forall d :: d in c.progeny[k].subtree ==> snap[d] == was[d]
    requires SameOutside(c.progeny[k], mid, after)
    requires Moved(c.progeny[k], snap, mid, after, run)
    requires SameFrom(starts[0], starts[k], before, mid)
    requires forall j :: 0 <= j < k && c.progeny[j] != null ==> Moved(c.progeny[j], was, before, mid, run)
    ensures SameFrom(starts[0], starts[k + 1], before, after)
    ensures forall j :: 0 <= j <= k && c.progeny[j] != null ==> Moved(c.progeny[j], was, before, after, run)
  {
    forall j | 0 <= j < k && c.progeny[j] != null ensures Moved(c.progeny[j], was, before, after, run) {
      assert starts[j + 1] <= starts[k];
    }
  }

  lemma BoundedStep(c: Cell, k: nat, starts: seq<int>, mid: seq<Particle>, after: seq<Particle>, h: real, dx2: real)
    requires Laid(c, starts)
    requires k < 8 && c.progeny[k] != null && c.progeny[k] in c.progeny[k].subtree
    requires SameOutside(c.progeny[k], mid, after)
    requires forall j :: 0 <= j < 8 && j != k && c.progeny[j] != null ==> AllBounded(c.progeny[j], mid)
    requires AllBounded(c.progeny[k], after)
    requires BoundedUpTo(mid, starts[0], starts[k], h, dx2)
    ensures forall j :: 0 <= j < 8 && c.progeny[j] != null ==> AllBounded(c.progeny[j], after)
    ensures BoundedUpTo(after, starts[0], starts[k + 1], Max(h, c.progeny[k].hMax), Max(dx2, c.progeny[k].dx2Max))
  {
    forall j | 0 <= j < 8 && j != k && c.progeny[j] != null ensures AllBounded(c.progeny[j], after) {
      assert j < k ==> starts[j + 1] <= starts[k];
      assert j > k ==> starts[k + 1] <= starts[j];
    }
  }

  lemma AllFromKids(c: Cell, starts: seq<int>, was: map<Cell, Was>, now: int, force: bool, run: Run,
                    before: seq<Particle>, after: seq<Particle>)
    requires HalfWay(c, 8, starts, was, now, force, run, before, after, c.hMax, c.dx2Max)
    requires c.WellFormed() && c.split && c.windows.hydro.start + c.windows.hydro.count <= |after|
    ensures forall k :: 0 <= k < |c.progeny| && c.progeny[k] != null ==>
      c.progeny[k].subtree <= c.subtree && Walked(c.progeny[k], force, was, now)
    ensures Moved(c, was, before, after, run)
    ensures AllBounded(c, after)
    ensures SameOutside(c, before, after)
  {
    hide Walked, Pending, Advance;
    forall d, i | d in c.subtree && !d.split && 0 <= d.windows.hydro.start <= i < d.windows.hydro.start
      + d.windows.hydro.count && i < |after|
      ensures after[i] == Advance(before[i], run, was[d].tiOldPart, d.tiOldPart)
    {
      var j := SlotOf(c, d);
      assert Moved(c.progeny[j], was, before, after, run);
    }
    forall d | d in c.subtree
      ensures 0 <= d.windows.hydro.start && d.windows.hydro.start + d.windows.hydro.count <= |after|
      ensures BoundedBy(after, d.windows.hydro.start, d.windows.hydro.start + d.windows.hydro.count, d.hMax, d.dx2Max)
    {
      if d != c {
        var j := SlotOf(c, d);
        assert AllBounded(c.progeny[j], after);
      }
    }
  }

  lemma OnlySelf(c: Cell)
    requires c.WellFormed()
    ensures c in c.subtree
    ensures forall d :: d in c.subtree && c in d.subtree ==> d == c
    ensures !c.split ==> c.subtree == {c}
    ensures !Shadowed(c, c)
  {
    forall d | d in c.subtree && c in d.subtree && d != c ensures false { NoCycle(c, d); }
  }

  /** Below an empty cell every window is empty. */
  lemma EmptyWalk(c: Cell)
    requires c.WellFormed() && c.Tiled(Gas) && c.windows.hydro.count == 0
    ensures forall d :: d in c.subtree ==> d.windows.hydro.count == 0
    ensures forall d :: d in c.subtree && d != c ==> Shadowed(c, d)
  {
    forall d | d in c.subtree ensures d.windows.hydro.count == 0 {
      WindowInside(c, Gas, d);
    }
  }

  // ----- whole steps and whole runs -----

  ghost predicate Clean(top: Cell)
    reads top.subtree`doDrift, top.subtree`doSubDrift
  {
    forall d :: d in top.subtree ==> !Marked(d)
  }

  /** Exactly when a walk leaves no mark behind: no marked cell may lie strictly below an empty one. */
  lemma MarksLeftBehind(c: Cell, force: bool, was: map<Cell, Was>, now: int)
    requires c.WellFormed() && c.subtree <= was.Keys && Walked(c, force, was, now)
    ensures Clean(c) <==>
      forall a, d :: a in c.subtree && d in a.subtree && d in c.subtree && a != d && a.windows.hydro.count == 0 ==>
        !was[d].doDrift && !was[d].doSubDrift
  {
    hide Cell.WellFormed;
    if Clean(c) {
      forall a, d | a in c.subtree && d in a.subtree && d in c.subtree && a != d && a.windows.hydro.count == 0
        ensures !was[d].doDrift && !was[d].doSubDrift
      {
        assert Shadowed(c, d);
        assert !Marked(d);
      }
    }
  }

  /** Every marked cell has particles. */
  ghost predicate MarksNonEmpty(top: Cell)
    reads top.subtree`doDrift, top.subtree`doSubDrift, top.subtree`windows
  {
    forall d :: d in top.subtree && Marked(d) ==> d.windows.hydro.count > 0
  }

  /** The cells above a cell with particles have particles. */
  lemma AboveNonEmpty(top: Cell, c: Cell)
    requires top.WellFormed() && top.Tiled(Gas) && c in top.subtree && c.windows.hydro.count > 0
    ensures forall a :: a in top.subtree && c in a.subtree ==> a.windows.hydro.count > 0
  {
    forall a | a in top.subtree && c in a.subtree ensures a.windows.hydro.count > 0 {
      WindowInside(top, Gas, a);
      WindowInside(a, Gas, c);
    }
  }

  lemma NonEmptyMarksGo(c: Cell, force: bool, was: map<Cell, Was>, now: int)
    requires c.WellFormed() && c.Tiled(Gas) && c.subtree <= was.Keys && Walked(c, force, was, now)
    requires forall d :: d in c.subtree && (was[d].doDrift || was[d].doSubDrift) ==> d.windows.hydro.count > 0
    ensures Clean(c)
  {
    forall d | d in c.subtree && Marked(d) ensures false {
      AboveNonEmpty(c, d);
    }
  }

  /** Every particle is where an eager code would have had it at the time its leaf was last drifted. */
  ghost predicate Faithful(top: Cell, born: seq<Particle>, t0: int, ps: seq<Particle>, run: Run)
    reads top.subtree`windows, top.subtree`tiOldPart
  {
    && |born| == |ps|
    && (forall d :: d in top.subtree && !d.split ==> t0 <= d.tiOldPart)
    && forall d, i :: d in top.subtree && !d.split && 0 <= d.windows.hydro.start <= i < d.windows.hydro.start + d.windows.hydro.count && i < |ps| ==>
      ps[i] == Advance(born[i], run, t0, d.tiOldPart)
  }

  /** Lazy drifting refines eager drifting. */
  lemma FaithfulKept(top: Cell, born: seq<Particle>, t0: int, was: map<Cell, Was>, before: seq<Particle>,
        after: seq<Particle>, run: Run)
    requires top.subtree <= was.Keys && |born| == |before| == |after|
    requires forall d :: d in top.subtree && !d.split ==> t0 <= was[d].tiOldPart <= d.tiOldPart
    requires forall d, i :: d in top.subtree && !d.split && 0 <= d.windows.hydro.start <= i < d.windows.hydro.start + d.windows.hydro.count && i < |before| ==>
      before[i] == Advance(born[i], run, t0, was[d].tiOldPart)
    requires Moved(top, was, before, after, run)
    ensures Faithful(top, born, t0, after, run)
  {
    forall d, i | d in top.subtree && !d.split && 0 <= d.windows.hydro.start <= i < d.windows.hydro.start
      + d.windows.hydro.count && i < |after|
      ensures after[i] == Advance(born[i], run, t0, d.tiOldPart)
    {
      AdvanceAdditive(born[i], run, t0, was[d].tiOldPart, d.tiOldPart);
    }
  }

  /** What holds of a super-cell's tree between two steps. */
  ghost predicate Settled(top: Cell, s: Scheduler, parts: array<Particle>, now: int, born: seq<Particle>, t0: int,
        run: Run)
    reads top, top.subtree, s, parts
  {
    && SuperTree(top) && Clean(top) && top !in s.active
    && Walkable(top, parts, now)
    && Faithful(top, born, t0, parts[..], run)
  }

  ghost predicate Unmarked(cells: seq<Cell>, d: Cell) {
    forall c :: c in cells ==> d !in c.subtree
  }

  /** One step of the run: some non-empty cells are activated, in any order and with repetitions, then
      the super-cell's drift task runs if it has been activated. */
  method TimeStep(top: Cell, cells: seq<Cell>, s: Scheduler, parts: array<Particle>, run: Run, now: int,
                  ghost born: seq<Particle>, ghost t0: int)
    requires Settled(top, s, parts, now, born, t0, run)
    requires forall c :: c in cells ==> c in top.subtree && c.windows.hydro.count > 0
    modifies s, parts, top.subtree`tiOldPart, top.subtree`doDrift, top.subtree`doSubDrift, top.subtree`hMax
    modifies top.subtree`dx2Max
    ensures Settled(top, s, parts, now, born, t0, run)
    ensures forall c, d :: c in cells && d in c.subtree && d in top.subtree ==> d.tiOldPart == now
    ensures forall d :: d in top.subtree && !d.split && d.windows.hydro.count > 0 && Unmarked(cells, d) ==>
      d.tiOldPart == old(d.tiOldPart)
    ensures SameOutside(top, old(parts[..]), parts[..])
    ensures s.active == old(s.active)
  {
    hide *;
    ghost var was, before := Snapshot(top), parts[..];
    StepBegins(top, s, parts, now, born, t0, run, was);
    for i := 0 to |cells|
      modifies s, top.subtree`doDrift, top.subtree`doSubDrift
      invariant Marking(top, s, cells[..i], was)
      invariant s.active - {top} == old(s.active)
    {
      ghost var drift := set d | d in top.subtree && d.doDrift;
      ghost var sub := set d | d in top.subtree && d.doSubDrift;
      MarkingBegins(top, s, cells, i, drift, sub, was);
      ActivateDriftPart(cells[i], s, top);
      MarkingEnds(top, s, cells, i, drift, sub, was);
    }
    assert cells[..|cells|] == cells && parts[..] == before;
    ghost var marked := Snapshot(top);
    ReadyToWalk(top, s, cells, parts, now, was, marked);
    if top in s.active {
      DriftPart(top, false, parts, run, now);
      s.active := s.active - {top};
      StepEnds(top, s, cells, parts, now, born, t0, run, was, marked, before);
    } else {
      NothingMarked(top, s, cells, parts, now, born, t0, run, was);
    }
  }

  /** During activation: exactly the given cells are marked, all of them have particles, and no time
      has been touched. */
  ghost predicate Marking(top: Cell, s: Scheduler, cells: seq<Cell>, was: map<Cell, Was>)
    reads top, top.subtree, s
  {
    && MarksConsistent(top, s) && top.Tiled(Gas)
    && MarksNonEmpty(top)
    && (forall d :: d in top.subtree ==> (d.doDrift <==> d in cells))
    && (top in s.active <==> cells != [])
    && (cells == [] ==> Clean(top))
    && top.subtree <= was.Keys
    && (forall d :: d in top.subtree ==> d.tiOldPart == was[d].tiOldPart)
  }

  lemma StepBegins(top: Cell, s: Scheduler, parts: array<Particle>, now: int, born: seq<Particle>, t0: int, run: Run,
        was: map<Cell, Was>)
    requires Settled(top, s, parts, now, born, t0, run) && was == Snapshot(top)
    ensures Marking(top, s, [], was)
    ensures forall d :: d in top.subtree ==> d in was && was[d].tiOldPart == d.tiOldPart <= now
    ensures AllBounded(top, parts[..])
    ensures FaithfulAt(top, born, t0, parts[..], run, was)
    ensures top in top.subtree && top.WellFormed() && top.Rooted()
    ensures s.active - {top} == s.active
  {
    hide Cell.WellFormed, Cell.Tiled, AllBounded, Advance;
    assert Marking(top, s, [], was) by { MarksConsistentWhenClean(top, s); }
    assert top in top.subtree by { OnlySelf(top); }
  }

  lemma MarksConsistentWhenClean(top: Cell, s: Scheduler)
    requires SuperTree(top) && Clean(top)
    ensures MarksConsistent(top, s)
  {
    OnlySelf(top);
  }

  /** `Faithful`, told with the times of a snapshot. */
  ghost predicate FaithfulAt(top: Cell, born: seq<Particle>, t0: int, ps: seq<Particle>, run: Run, was: map<Cell, Was>)
    requires top.subtree <= was.Keys
    reads top.subtree`windows
  {
    && |born| == |ps|
    && (forall d :: d in top.subtree && !d.split ==> t0 <= was[d].tiOldPart)
    && forall d, i :: d in top.subtree && !d.split && 0 <= d.windows.hydro.start <= i < d.windows.hydro.start + d.windows.hydro.count && i < |ps| ==>
      ps[i] == Advance(born[i], run, t0, was[d].tiOldPart)
  }

  lemma MarkingBegins(top: Cell, s: Scheduler, cells: seq<Cell>, i: nat, drift: set<Cell>, sub: set<Cell>,
        was: map<Cell, Was>)
    requires i < |cells| && Marking(top, s, cells[..i], was)
    requires drift == set d | d in top.subtree && d.doDrift
    requires sub == set d | d in top.subtree && d.doSubDrift
    ensures MarksConsistent(top, s) && top.Tiled(Gas)
    ensures top.subtree <= was.Keys && forall d :: d in top.subtree ==> d.tiOldPart == was[d].tiOldPart
    ensures forall d :: d in top.subtree ==> (d in drift <==> d in cells[..i])
    ensures forall d :: d in top.subtree && (d in drift || d in sub) ==> d.windows.hydro.count > 0
  {
    assert forall d :: d in top.subtree && (d in drift || d in sub) ==> Marked(d);
  }

  lemma MarkingEnds(top: Cell, s: Scheduler, cells: seq<Cell>, i: nat, drift: set<Cell>, sub: set<Cell>,
        was: map<Cell, Was>)
    requires i < |cells| && cells[i] in top.subtree && cells[i].windows.hydro.count > 0
    requires MarksConsistent(top, s) && top.Tiled(Gas) && top in s.active
    requires top.subtree <= was.Keys && forall d :: d in top.subtree ==> d.tiOldPart == was[d].tiOldPart
    requires forall d :: d in top.subtree ==> (d in drift <==> d in cells[..i])
    requires forall d :: d in top.subtree && (d in drift || d in sub) ==> d.windows.hydro.count > 0
    requires forall d :: d in top.subtree ==> (d.doDrift <==> d in drift || d == cells[i])
    requires forall d :: d in top.subtree ==> (d.doSubDrift <==> d in sub || (cells[i] in d.subtree && d != cells[i]))
    ensures Marking(top, s, cells[..i + 1], was)
  {
    AboveNonEmpty(top, cells[i]);
    hide Cell.WellFormed, Cell.Tiled;
    assert cells[..i + 1] == cells[..i] + [cells[i]];
  }

  /** The snapshot taken between marking and walking. */
  ghost predicate MarkedSnapshot(top: Cell, cells: seq<Cell>, was: map<Cell, Was>, marked: map<Cell, Was>)
    requires top.subtree <= was.Keys
    reads top.subtree`windows
  {
    && marked.Keys == top.subtree
    && (forall d :: d in top.subtree ==> (marked[d].doDrift <==> d in cells))
    && (forall d :: d in top.subtree ==> marked[d].tiOldPart == was[d].tiOldPart)
    && (forall d :: d in top.subtree && (marked[d].doDrift || marked[d].doSubDrift) ==> d.windows.hydro.count > 0)
  }

  lemma ReadyToWalk(top: Cell, s: Scheduler, cells: seq<Cell>, parts: array<Particle>, now: int, was: map<Cell, Was>,
        marked: map<Cell, Was>)
    requires Marking(top, s, cells, was) && AllBounded(top, parts[..]) && marked == Snapshot(top)
    requires forall d :: d in top.subtree ==> was[d].tiOldPart <= now
    ensures Walkable(top, parts, now)
    ensures MarkedSnapshot(top, cells, was, marked)
    ensures SuperTree(top) && top.Tiled(Gas)
  {
    hide Cell.WellFormed, Cell.Tiled, AllBounded;
    forall d | d in top.subtree && (marked[d].doDrift || marked[d].doSubDrift) ensures d.windows.hydro.count > 0 {
      assert Marked(d);
    }
  }

  lemma StepEnds(top: Cell, s: Scheduler, cells: seq<Cell>, parts: array<Particle>, now: int, born: seq<Particle>,
        t0: int, run: Run,
                 was: map<Cell, Was>, marked: map<Cell, Was>, before: seq<Particle>)
    requires SuperTree(top) && top.Tiled(Gas) && top !in s.active
    requires top.subtree <= was.Keys && MarkedSnapshot(top, cells, was, marked)
    requires forall d :: d in top.subtree ==> was[d].tiOldPart <= now
    requires forall c :: c in cells ==> c in top.subtree && c.windows.hydro.count > 0
    requires |before| == parts.Length && FaithfulAt(top, born, t0, before, run, was)
    requires Walked(top, false, marked, now) && Moved(top, marked, before, parts[..], run) && AllBounded(top, parts[..])
    ensures Settled(top, s, parts, now, born, t0, run)
    ensures forall c, d :: c in cells && d in c.subtree && d in top.subtree ==> d.tiOldPart == now
    ensures forall d :: d in top.subtree && !d.split && d.windows.hydro.count > 0 && Unmarked(cells, d) ==>
      d.tiOldPart == was[d].tiOldPart
  {
    NonEmptyMarksGo(top, false, marked, now);
    FaithfulKept(top, born, t0, marked, before, parts[..], run);
    forall d | d in top.subtree && !d.split && d.windows.hydro.count > 0 && Unmarked(cells, d)
      ensures !Wanted(top, false, marked, d)
    {
      AboveNonEmpty(top, d);
    }
    hide Cell.WellFormed, Cell.Tiled, AllBounded, Moved, Advance, Wanted, Shadowed;
    assert Announced(top);
  }

  lemma NothingMarked(top: Cell, s: Scheduler, cells: seq<Cell>, parts: array<Particle>, now: int, born: seq<Particle>,
        t0: int,
                      run: Run, was: map<Cell, Was>)
    requires Marking(top, s, cells, was) && top !in s.active && Walkable(top, parts, now)
    requires FaithfulAt(top, born, t0, parts[..], run, was)
    ensures cells == [] && Settled(top, s, parts, now, born, t0, run)
    ensures SameOutside(top, parts[..], parts[..])
    ensures forall d :: d in top.subtree ==> d.tiOldPart == was[d].tiOldPart
  {
    hide Cell.WellFormed, Cell.Tiled, AllBounded, Advance;
  }

  /** A forced drift brings everything to where drifting it at once would have brought it. */
  method ForceDrift(top: Cell, ghost s: Scheduler, parts: array<Particle>, run: Run, ghost now: int, end: int,
                    ghost born: seq<Particle>, ghost t0: int)
    requires Settled(top, s, parts, now, born, t0, run) && now <= end
    modifies parts, top.subtree`tiOldPart, top.subtree`doDrift, top.subtree`doSubDrift, top.subtree`hMax
    modifies top.subtree`dx2Max
    ensures Settled(top, s, parts, end, born, t0, run)
    ensures |born| == parts.Length
    ensures forall i :: 0 <= i < parts.Length && top.windows.hydro.start <= i < top.windows.hydro.start + top.windows.hydro.count ==>
      parts[i] == Advance(born[i], run, t0, end)
    ensures SameOutside(top, old(parts[..]), parts[..])
  {
    hide *;
    LaterIsFine(top, s, parts, now, end, born, t0, run);
    ghost var was, before := Snapshot(top), parts[..];
    ForceBegins(top, s, parts, end, born, t0, run, was);
    DriftPart(top, true, parts, run, end);
    ForceEnds(top, s, parts, end, born, t0, run, was, before);
  }

  datatype Step = Step(now: int, cells: seq<Cell>)

  /** A run: the time never goes back, and each step activates cells with particles. */
  ghost predicate RunOk(top: Cell, steps: seq<Step>, from: int)
    reads top.subtree`windows, set i, c | 0 <= i < |steps| && c in steps[i].cells :: c`windows
  {
    && (forall i :: 0 <= i < |steps| ==> from <= steps[i].now)
    && (forall i, j :: 0 <= i < j < |steps| ==> steps[i].now <= steps[j].now)
    && (forall i, c :: 0 <= i < |steps| && c in steps[i].cells ==> c in top.subtree && c.windows.hydro.count > 0)
  }

  /** Any run of lazy steps followed by one forced drift ends exactly where drifting everything at once
      would have ended. */
  method Simulate(top: Cell, steps: seq<Step>, end: int, s: Scheduler, parts: array<Particle>, run: Run, t0: int)
    requires Settled(top, s, parts, t0, parts[..], t0, run)
    requires RunOk(top, steps, t0) && t0 <= end && forall i :: 0 <= i < |steps| ==> steps[i].now <= end
    modifies s, parts, top.subtree`tiOldPart, top.subtree`doDrift, top.subtree`doSubDrift, top.subtree`hMax
    modifies top.subtree`dx2Max
    ensures forall i :: 0 <= i < parts.Length && top.windows.hydro.start <= i < top.windows.hydro.start + top.windows.hydro.count ==>
      parts[i] == Advance(old(parts[i]), run, t0, end)
    ensures forall i :: 0 <= i < parts.Length && top.windows.hydro.start <= i < top.windows.hydro.start + top.windows.hydro.count ==>
      Drifted(old(parts[i]), parts[i], run, t0, end)
    ensures SameOutside(top, old(parts[..]), parts[..])
    ensures Settled(top, s, parts, end, old(parts[..]), t0, run)
  {
    hide *;
    ghost var born := parts[..];
    var now := t0;
    RunBegins(top, steps, end, t0, born);
    for i := 0 to |steps|
      invariant Settled(top, s, parts, now, born, t0, run)
      invariant t0 <= now <= end && forall j :: i <= j < |steps| ==> now <= steps[j].now
      invariant RunOk(top, steps, t0)
      invariant SameOutside(top, born, parts[..])
    {
      NextStep(top, steps, i, t0, now);
      LaterIsFine(top, s, parts, now, steps[i].now, born, t0, run);
      ghost var mid := parts[..];
      now := steps[i].now;
      TimeStep(top, steps[i].cells, s, parts, run, now, born, t0);
      SameTwice(top, born, mid, parts[..]);
    }
    ghost var mid := parts[..];
    ForceDrift(top, s, parts, run, now, end, born, t0);
    SameTwice(top, born, mid, parts[..]);
    forall i | 0 <= i < parts.Length
      && top.windows.hydro.start <= i < top.windows.hydro.start + top.windows.hydro.count
      ensures Drifted(born[i], parts[i], run, t0, end)
    {
      AdvanceDrifts(born[i], run, t0, end);
    }
  }

  lemma LaterIsFine(top: Cell, s: Scheduler, parts: array<Particle>, now: int, later: int, born: seq<Particle>, t0: int,
        run: Run)
    requires Settled(top, s, parts, now, born, t0, run) && now <= later
    ensures Settled(top, s, parts, later, born, t0, run)
  {
  }

  lemma RunBegins(top: Cell, steps: seq<Step>, end: int, t0: int, born: seq<Particle>)
    requires RunOk(top, steps, t0)
    ensures SameOutside(top, born, born)
    ensures forall i :: 0 <= i < |steps| ==> t0 <= steps[i].now
  {
  }

  lemma NextStep(top: Cell, steps: seq<Step>, i: nat, t0: int, now: int)
    requires RunOk(top, steps, t0) && i < |steps|
    ensures forall c :: c in steps[i].cells ==> c in top.subtree && c.windows.hydro.count > 0
    ensures forall j :: i < j < |steps| ==> steps[i].now <= steps[j].now
  {
  }

  lemma SameTwice(top: Cell, a: seq<Particle>, b: seq<Particle>, c: seq<Particle>)
    requires SameOutside(top, a, b) && SameOutside(top, b, c)
    ensures SameOutside(top, a, c)
  {
  }

  lemma ForceBegins(top: Cell, s: Scheduler, parts: array<Particle>, now: int, born: seq<Particle>, t0: int, run: Run,
        was: map<Cell, Was>)
    requires Settled(top, s, parts, now, born, t0, run) && was == Snapshot(top)
    ensures Walkable(top, parts, now) && SuperTree(top) && top.Tiled(Gas) && top !in s.active
    ensures was.Keys == top.subtree && MarkedSnapshot(top, [], was, was)
    ensures forall d :: d in top.subtree ==> was[d].tiOldPart <= now
    ensures FaithfulAt(top, born, t0, parts[..], run, was) && |born| == parts.Length
  {
    hide Cell.WellFormed, Cell.Tiled, AllBounded, Advance;
  }

  lemma ForceEnds(top: Cell, s: Scheduler, parts: array<Particle>, end: int, born: seq<Particle>, t0: int, run: Run,
                  was: map<Cell, Was>, before: seq<Particle>)
    requires SuperTree(top) && top.Tiled(Gas) && top !in s.active
    requires was.Keys == top.subtree && MarkedSnapshot(top, [], was, was)
    requires forall d :: d in top.subtree ==> was[d].tiOldPart <= end
    requires |before| == parts.Length && FaithfulAt(top, born, t0, before, run, was)
    requires Walked(top, true, was, end) && Moved(top, was, before, parts[..], run) && AllBounded(top, parts[..])
    ensures Settled(top, s, parts, end, born, t0, run)
    ensures forall i :: 0 <= i < parts.Length && top.windows.hydro.start <= i < top.windows.hydro.start + top.windows.hydro.count ==>
      parts[i] == Advance(born[i], run, t0, end)
  {
    NonEmptyMarksGo(top, true, was, end);
    FaithfulKept(top, born, t0, was, before, parts[..], run);
    OnlySelf(top);
    hide Cell.WellFormed, AllBounded, Moved, Advance, Wanted, Shadowed;
    assert Announced(top);
    forall i | 0 <= i < parts.Length && top.windows.hydro.start <= i < top.windows.hydro.start + top.windows.hydro.count
      ensures parts[i] == Advance(born[i], run, t0, end)
    {
      var d := LeafAt(top, Gas, i);
    }
  }
}
