/**
 cell_make_multipoles and gravity_P2M: mass, centre of mass and the radius around it of every cell of a
 tree; gravity_drift, which moves them.  Reals, not floating point; `sqrt` stands for the square root.
 */
module Multipoles {
  import opened Particles
  import opened Packing

  ghost predicate Roots(sqrt: real -> real) {
    forall r :: r >= 0.0 ==> sqrt(r) >= 0.0 && sqrt(r) * sqrt(r) == r
  }

  function Max(a: real, b: real): real { if a > b then a else b }

  function Min(a: real, b: real): real { if a < b then a else b }

  function Minus(a: Vec, b: Vec): Vec { Vec(a.x - b.x, a.y - b.y, a.z - b.z) }

  /** The largest and smallest of each component. */
  function Above(a: Vec, b: Vec): Vec { Vec(Max(a.x, b.x), Max(a.y, b.y), Max(a.z, b.z)) }

  function Below(a: Vec, b: Vec): Vec { Vec(Min(a.x, b.x), Min(a.y, b.y), Min(a.z, b.z)) }

  predicate AtMost(a: Vec, b: Vec) { a.x <= b.x && a.y <= b.y && a.z <= b.z }

  // ----- distances -----

  /** Two points no further apart than r. */
  predicate Near(a: Vec, b: Vec, r: real) {
    r >= 0.0 && Minus(a, b).Norm2() <= r * r
  }

  lemma SquareUp(a: real, b: real)
    requires 0.0 <= a <= b
    ensures a * a <= b * b
  {
  }

  lemma Positive(a: real, b: real)
    requires a >= 0.0 && b >= 0.0
    ensures a * b >= 0.0
  {
  }

  lemma Products(a: real, b: real, c: real, d: real)
    requires 0.0 <= a <= c && 0.0 <= b <= d
    ensures a * b <= c * d
  {
    Positive(c - a, b);
    Positive(c, d - b);
  }

  lemma Lagrange(a: real, b: real, c: real, x: real, y: real, z: real)
    ensures (a * x + b * y + c * z) * (a * x + b * y + c * z) <= (a * a + b * b + c * c) * (x * x + y * y + z * z)
  {
    var p, q, r := a * y - b * x, a * z - c * x, b * z - c * y;
    assert p * p >= 0.0 && q * q >= 0.0 && r * r >= 0.0;
    assert (a * a + b * b + c * c) * (x * x + y * y + z * z) - (a * x + b * y + c * z) * (a * x + b * y + c * z) ==
      p * p + q * q + r * r;
  }

  /** A square no greater than that of a non-negative number. */
  lemma Rooted(a: real, b: real)
    requires a * a <= b * b && b >= 0.0
    ensures a <= b
  {
    if a > b { Strictly(a, b); }
  }

  lemma Strictly(a: real, b: real)
    requires a > b >= 0.0
    ensures a * a > b * b
  {
    var x, y := a - b, a + b;
    assert x > 0.0 && y > 0.0;
    assert x * y > 0.0;
    assert x * y == a * a - b * b;
  }

  lemma NormAtLeastZero(a: Vec)
    ensures a.Norm2() >= 0.0
  {
    assert a.x * a.x >= 0.0 && a.y * a.y >= 0.0 && a.z * a.z >= 0.0;
  }

  /** The triangle inequality. */
  lemma Triangle(a: Vec, b: Vec, c: Vec, r: real, s: real)
    requires Near(a, b, r) && Near(b, c, s)
    ensures Near(a, c, r + s)
  {
    var u, v := Minus(a, b), Minus(b, c);
    var dot := u.x * v.x + u.y * v.y + u.z * v.z;
    Lagrange(u.x, u.y, u.z, v.x, v.y, v.z);
    NormAtLeastZero(u);
    NormAtLeastZero(v);
    Products(u.Norm2(), v.Norm2(), r * r, s * s);
    assert (r * s) * (r * s) == (r * r) * (s * s);
    Positive(r, s);
    Rooted(dot, r * s);
    assert Minus(a, c).x == u.x + v.x && Minus(a, c).y == u.y + v.y && Minus(a, c).z == u.z + v.z;
    SumOfSquares(u, v);
    assert (r + s) * (r + s) == r * r + 2.0 * (r * s) + s * s;
  }

  lemma SumOfSquares(u: Vec, v: Vec)
    ensures u.Plus(v).Norm2() == u.Norm2() + 2.0 * (u.x * v.x + u.y * v.y + u.z * v.z) + v.Norm2()
  {
    Square(u.x, v.x);
    Square(u.y, v.y);
    Square(u.z, v.z);
  }

  lemma Square(a: real, b: real)
    ensures (a + b) * (a + b) == a * a + 2.0 * (a * b) + b * b
  {
  }

  /** Each component is smaller, so the whole is. */
  lemma Componentwise(d: Vec, e: Vec)
    requires -e.x <= d.x <= e.x && -e.y <= d.y <= e.y && -e.z <= d.z <= e.z
    ensures d.Norm2() <= e.Norm2()
  {
    AbsSquare(d.x, e.x);
    AbsSquare(d.y, e.y);
    AbsSquare(d.z, e.z);
  }

  lemma AbsSquare(d: real, e: real)
    requires -e <= d <= e
    ensures d * d <= e * e
  {
    Positive(e - d, e + d);
    assert (e - d) * (e + d) == e * e - d * d;
  }

  // ----- what a multipole says about some gparts -----

  datatype Pole = Pole(mass: real, com: Vec, vel: Vec, maxVel: Vec, minVel: Vec, rMax: real)

  ghost function Mass(gs: seq<Gpart>): real {
    if gs == [] then 0.0 else Mass(gs[..|gs| - 1]) + gs[|gs| - 1].mass
  }

  ghost function Moment(gs: seq<Gpart>): Vec {
    if gs == [] then ZERO else Moment(gs[..|gs| - 1]).Plus(gs[|gs| - 1].x.Times(gs[|gs| - 1].mass))
  }

  ghost function Momentum(gs: seq<Gpart>): Vec {
    if gs == [] then ZERO else Momentum(gs[..|gs| - 1]).Plus(gs[|gs| - 1].v.Times(gs[|gs| - 1].mass))
  }

  lemma {:induction false} Sums(a: seq<Gpart>, b: seq<Gpart>)
    ensures Mass(a + b) == Mass(a) + Mass(b)
    ensures Moment(a + b) == Moment(a).Plus(Moment(b))
    ensures Momentum(a + b) == Momentum(a).Plus(Momentum(b))
  {
    hide Mass, Moment, Momentum, Vec.Times;
    if b == [] {
      assert a + b == a;
      NoSums();
    } else {
      var c, g := b[..|b| - 1], b[|b| - 1];
      Sums(a, c);
      assert a + b == a + c + [g];
      LastSums(a + b, a + c, g);
      LastSums(b, c, g);
    }
  }

  lemma NoSums()
    ensures Mass([]) == 0.0 && Moment([]) == Vec(0.0, 0.0, 0.0) && Momentum([]) == Vec(0.0, 0.0, 0.0)
  {
  }

  lemma LastSums(s: seq<Gpart>, r: seq<Gpart>, g: Gpart)
    requires s == r + [g]
    ensures Mass(s) == Mass(r) + g.mass
    ensures Moment(s) == Moment(r).Plus(g.x.Times(g.mass))
    ensures Momentum(s) == Momentum(r).Plus(g.v.Times(g.mass))
  {
    assert s[..|s| - 1] == r;
  }

  /** Mass, centre of mass and mean velocity are those of the gparts. */
  ghost predicate Centred(gs: seq<Gpart>, p: Pole) {
    p.mass == Mass(gs) && p.com.Times(p.mass) == Moment(gs) && p.vel.Times(p.mass) == Momentum(gs)
  }

  /** None is further than the radius from the centre, none is faster than the largest velocities. */
  ghost predicate Reached(gs: seq<Gpart>, com: Vec, r: real) {
    r >= 0.0 && forall i :: 0 <= i < |gs| ==> Near(gs[i].x, com, r)
  }

  /** Each component of `hi` is the largest velocity or zero, whichever is larger; of `lo`, the smallest. */
  ghost predicate Ranged(gs: seq<Gpart>, lo: Vec, hi: Vec) {
    && Within(gs, lo, hi) && AtMost(lo, ZERO) && AtMost(ZERO, hi)
    && Attained(gs, lo) && Attained(gs, hi)
  }

  ghost predicate Within(gs: seq<Gpart>, lo: Vec, hi: Vec) {
    forall i :: 0 <= i < |gs| ==> AtMost(lo, gs[i].v) && AtMost(gs[i].v, hi)
  }

  ghost predicate Attained(gs: seq<Gpart>, v: Vec) {
    (v.x == 0.0 || SomeX(gs, v.x)) && (v.y == 0.0 || SomeY(gs, v.y)) && (v.z == 0.0 || SomeZ(gs, v.z))
  }

  ghost predicate SomeX(gs: seq<Gpart>, a: real) {
    exists i :: 0 <= i < |gs| && gs[i].v.x == a
  }

  ghost predicate SomeY(gs: seq<Gpart>, a: real) {
    exists i :: 0 <= i < |gs| && gs[i].v.y == a
  }

  ghost predicate SomeZ(gs: seq<Gpart>, a: real) {
    exists i :: 0 <= i < |gs| && gs[i].v.z == a
  }

  lemma RangedBoth(a: seq<Gpart>, b: seq<Gpart>, lo: Vec, hi: Vec, lo1: Vec, hi1: Vec)
    requires Ranged(a, lo, hi) && Ranged(b, lo1, hi1)
    ensures Ranged(a + b, Below(lo1, lo), Above(hi1, hi))
  {
    WithinBoth(a, b, lo, hi, lo1, hi1);
    Mixed(a, b, lo, lo1, Below(lo1, lo));
    Mixed(a, b, hi, hi1, Above(hi1, hi));
    hide Attained, Within;
  }

  lemma WithinBoth(a: seq<Gpart>, b: seq<Gpart>, lo: Vec, hi: Vec, lo1: Vec, hi1: Vec)
    requires Within(a, lo, hi) && Within(b, lo1, hi1)
    ensures Within(a + b, Below(lo1, lo), Above(hi1, hi))
  {
    var s, lo2, hi2 := a + b, Below(lo1, lo), Above(hi1, hi);
    assert AtMost(lo2, lo) && AtMost(lo2, lo1) && AtMost(hi, hi2) && AtMost(hi1, hi2);
    hide Above, AtMost, Below;
    forall i | 0 <= i < |s| ensures AtMost(lo2, s[i].v) && AtMost(s[i].v, hi2) {
      if i < |a| {
        assert s[i] == a[i];
        Between(lo2, lo, a[i].v, hi, hi2);
      } else {
        assert s[i] == b[i - |a|];
        Between(lo2, lo1, b[i - |a|].v, hi1, hi2);
      }
    }
  }

  lemma Between(a: Vec, b: Vec, c: Vec, d: Vec, e: Vec)
    requires AtMost(a, b) && AtMost(b, c) && AtMost(c, d) && AtMost(d, e)
    ensures AtMost(a, c) && AtMost(c, e)
  {
  }

  lemma Mixed(a: seq<Gpart>, b: seq<Gpart>, v: Vec, w: Vec, u: Vec)
    requires Attained(a, v) && Attained(b, w)
    requires u.x in [v.x, w.x] && u.y in [v.y, w.y] && u.z in [v.z, w.z]
    ensures Attained(a + b, u)
  {
    StillAttained(a, a + b, 0, v);
    StillAttained(b, a + b, |a|, w);
    hide SomeX, SomeY, SomeZ;
  }

  /** An element of `a` is one of `s`, `off` places further on. */
  lemma StillAttained(a: seq<Gpart>, s: seq<Gpart>, off: nat, v: Vec)
    requires Attained(a, v) && off + |a| <= |s| && forall i :: 0 <= i < |a| ==> s[off + i].v == a[i].v
    ensures Attained(s, v)
  {
    if v.x != 0.0 {
      var i :| 0 <= i < |a| && a[i].v.x == v.x;
      assert s[off + i].v.x == v.x;
    }
    if v.y != 0.0 {
      var i :| 0 <= i < |a| && a[i].v.y == v.y;
      assert s[off + i].v.y == v.y;
    }
    if v.z != 0.0 {
      var i :| 0 <= i < |a| && a[i].v.z == v.z;
      assert s[off + i].v.z == v.z;
    }
  }

  lemma RangedOne(g: Gpart)
    ensures Ranged([g], Below(g.v, ZERO), Above(g.v, ZERO))
  {
    assert [g][0] == g;
  }

  /** One of the gparts is as far from the centre as the radius says. */
  ghost predicate Tight(gs: seq<Gpart>, p: Pole) {
    exists i :: 0 <= i < |gs| && Minus(gs[i].x, p.com).Norm2() == p.rMax * p.rMax
  }

  ghost predicate Sound(gs: seq<Gpart>, p: Pole) {
    Centred(gs, p) && Reached(gs, p.com, p.rMax) && Ranged(gs, p.minVel, p.maxVel)
  }

  ghost predicate Heavy(gs: seq<Gpart>) {
    forall i :: 0 <= i < |gs| ==> gs[i].mass > 0.0
  }

  lemma {:induction false} HeavyMass(gs: seq<Gpart>)
    requires Heavy(gs)
    ensures Mass(gs) >= 0.0 && (gs != [] ==> Mass(gs) > 0.0)
  {
    if gs != [] { HeavyMass(gs[..|gs| - 1]); }
  }

  lemma Divided(s: Vec, m: real)
    requires m > 0.0
    ensures s.Times(1.0 / m).Times(m) == s
  {
    OneDivided(s.x, m);
    OneDivided(s.y, m);
    OneDivided(s.z, m);
  }

  lemma OneDivided(a: real, m: real)
    requires m > 0.0
    ensures a * (1.0 / m) * m == a
  {
    assert (1.0 / m) * m == 1.0;
    assert a * (1.0 / m) * m == a * ((1.0 / m) * m);
  }

  /** gravity_P2M */
  method P2M(gs: seq<Gpart>, sqrt: real -> real) returns (p: Pole)
    requires gs != [] && Heavy(gs) && Roots(sqrt)
    ensures Sound(gs, p) && Tight(gs, p)
  {
    hide AtMost, Attained, Minus, Near, Ranged, Touched, Vec.Norm2, Vec.Plus, Vec.Times;
    var mass, com, vel := 0.0, ZERO, ZERO;
    for k := 0 to |gs|
      invariant mass == Mass(gs[..k]) && com == Moment(gs[..k]) && vel == Momentum(gs[..k])
    {
      assert gs[..k + 1][..k] == gs[..k];
      mass := mass + gs[k].mass;
      com := com.Plus(gs[k].x.Times(gs[k].mass));
      vel := vel.Plus(gs[k].v.Times(gs[k].mass));
    }
    assert gs[..|gs|] == gs;
    HeavyMass(gs);
    Divided(com, mass);
    Divided(vel, mass);
    com, vel := com.Times(1.0 / mass), vel.Times(1.0 / mass);
    var rMax2, maxVel, minVel := Extremes(gs, com);
    p := Pole(mass, com, vel, maxVel, minVel, sqrt(rMax2));
    assert p.rMax >= 0.0 && p.rMax * p.rMax == rMax2;
    AllNear(gs, p, rMax2);
  }

  lemma AllNear(gs: seq<Gpart>, p: Pole, r2: real)
    requires p.rMax >= 0.0 && p.rMax * p.rMax == r2 && Touched(gs, p.com, r2)
    requires forall i :: 0 <= i < |gs| ==> Minus(gs[i].x, p.com).Norm2() <= r2
    ensures Reached(gs, p.com, p.rMax) && Tight(gs, p)
  {
    hide Minus, Vec.Norm2;
    var i :| 0 <= i < |gs| && Minus(gs[i].x, p.com).Norm2() == r2;
    assert Minus(gs[i].x, p.com).Norm2() == p.rMax * p.rMax;
  }

  /** r2 is the square of the distance of one of them. */
  ghost predicate Touched(gs: seq<Gpart>, com: Vec, r2: real) {
    exists i :: 0 <= i < |gs| && Minus(gs[i].x, com).Norm2() == r2
  }

  /** The second loop of gravity_P2M. */
  method Extremes(gs: seq<Gpart>, com: Vec) returns (rMax2: real, maxVel: Vec, minVel: Vec)
    requires gs != []
    ensures rMax2 >= 0.0 && forall i :: 0 <= i < |gs| ==> Minus(gs[i].x, com).Norm2() <= rMax2
    ensures Touched(gs, com, rMax2)
    ensures Ranged(gs, minVel, maxVel)
  {
    hide Above, AtMost, Attained, Below, Minus, Ranged, Touched, Vec.Norm2;
    rMax2, maxVel, minVel := 0.0, ZERO, ZERO;
    NothingRanged();
    for k := 0 to |gs|
      invariant rMax2 >= 0.0 && forall i :: 0 <= i < k ==> Minus(gs[i].x, com).Norm2() <= rMax2
      invariant k == 0 ==> rMax2 == 0.0
      invariant k > 0 ==> Touched(gs[..k], com, rMax2)
      invariant Ranged(gs[..k], minVel, maxVel)
    {
      NormAtLeastZero(Minus(gs[k].x, com));
      assert gs[..k + 1] == gs[..k] + [gs[k]];
      RangedOne(gs[k]);
      RangedBoth(gs[..k], [gs[k]], minVel, maxVel, Below(gs[k].v, ZERO), Above(gs[k].v, ZERO));
      WithZero(gs[..k], gs[k].v, minVel, maxVel);
      TouchedNext(gs[..k], gs[k], com, rMax2);
      rMax2 := Max(rMax2, Minus(gs[k].x, com).Norm2());
      maxVel := Above(gs[k].v, maxVel);
      minVel := Below(gs[k].v, minVel);
    }
    assert gs[..|gs|] == gs;
  }

  lemma TouchedNext(gs: seq<Gpart>, g: Gpart, com: Vec, r2: real)
    requires if gs == [] then r2 == 0.0 else Touched(gs, com, r2)
    requires Minus(g.x, com).Norm2() >= 0.0
    ensures Touched(gs + [g], com, Max(r2, Minus(g.x, com).Norm2()))
  {
    hide Vec.Norm2, Minus;
    var s := gs + [g];
    assert s[|gs|] == g;
    if r2 > Minus(g.x, com).Norm2() {
      var i :| 0 <= i < |gs| && Minus(gs[i].x, com).Norm2() == r2;
      assert s[i] == gs[i];
    }
  }

  lemma NothingRanged()
    ensures Ranged([], ZERO, ZERO)
  {
  }

  lemma WithZero(gs: seq<Gpart>, v: Vec, lo: Vec, hi: Vec)
    requires Ranged(gs, lo, hi)
    ensures Below(Below(v, ZERO), lo) == Below(v, lo) && Above(Above(v, ZERO), hi) == Above(v, hi)
  {
  }

  // ----- drifting -----

  function Moved(g: Gpart, dt: real): Gpart { g.(x := g.x.Plus(g.v.Times(dt))) }

  /** gravity_drift */
  function Drifted(p: Pole, dt: real, sqrt: real -> real): Pole {
    var dv := Spread(p);
    p.(com := p.com.Plus(p.vel.Times(dt)), rMax := p.rMax + sqrt(dv.Norm2()) * dt)
  }

  function Spread(p: Pole): Vec {
    Vec(Max(p.maxVel.x - p.vel.x, p.vel.x - p.minVel.x),
        Max(p.maxVel.y - p.vel.y, p.vel.y - p.minVel.y),
        Max(p.maxVel.z - p.vel.z, p.vel.z - p.minVel.z))
  }

  ghost function AllMoved(gs: seq<Gpart>, dt: real): (r: seq<Gpart>)
    ensures |r| == |gs| && forall i :: 0 <= i < |gs| ==> r[i] == Moved(gs[i], dt)
  {
    seq(|gs|, i requires 0 <= i < |gs| => Moved(gs[i], dt))
  }

  lemma RangedMoved(gs: seq<Gpart>, gs1: seq<Gpart>, dt: real, lo: Vec, hi: Vec)
    requires Ranged(gs, lo, hi) && |gs1| == |gs| && forall i :: 0 <= i < |gs| ==> gs1[i] == Moved(gs[i], dt)
    ensures Ranged(gs1, lo, hi)
  {
    hide AtMost, Attained, Vec.Plus, Vec.Times;
    StillAttained(gs, gs1, 0, lo);
    StillAttained(gs, gs1, 0, hi);
  }

  /** The drifted multipole is right for the drifted gparts, although it is not built from them. */
  lemma DriftKeepsSound(gs: seq<Gpart>, p: Pole, dt: real, sqrt: real -> real)
    requires Sound(gs, p) && dt >= 0.0 && Roots(sqrt)
    ensures Sound(AllMoved(gs, dt), Drifted(p, dt, sqrt))
  {
    hide AllMoved, Attained, AtMost, Centred, Mass, Moment, Momentum, Near, Spread, Vec.Norm2, Vec.Plus, Vec.Times;
    var gs1, p1 := AllMoved(gs, dt), Drifted(p, dt, sqrt);
    assert Centred(gs, p) && Reached(gs, p.com, p.rMax) && Ranged(gs, p.minVel, p.maxVel);
    assert Centred(gs1, p1) by { DriftedSums(gs, dt); DriftedCentre(gs, p, dt, sqrt); }
    assert p1.minVel == p.minVel && p1.maxVel == p.maxVel;
    RangedMoved(gs, gs1, dt, p.minVel, p.maxVel);
    assert p.rMax >= 0.0;
    var s := sqrt(Spread(p).Norm2());
    NormAtLeastZero(Spread(p));
    assert s >= 0.0 && s * s == Spread(p).Norm2();
    Positive(s, dt);
    forall i | 0 <= i < |gs1| ensures Near(gs1[i].x, p1.com, p1.rMax) {
      assert Near(gs[i].x, p.com, p.rMax);
      assert AtMost(p.minVel, gs[i].v) && AtMost(gs[i].v, p.maxVel);
      StillNear(gs[i], p, dt, s);
      assert gs1[i] == Moved(gs[i], dt);
      assert p1.com == p.com.Plus(p.vel.Times(dt)) && p1.rMax == p.rMax + s * dt;
    }
    assert Reached(gs1, p1.com, p1.rMax) by { assert p1.rMax == p.rMax + s * dt; }
  }

  /** The radius grows by no more than it must: some velocity in the range covers just that distance. */
  lemma DriftIsTight(gs: seq<Gpart>, p: Pole, dt: real, sqrt: real -> real)
    requires Sound(gs, p) && dt >= 0.0 && Roots(sqrt)
    ensures var q := Drifted(p, dt, sqrt);
      && q.rMax >= p.rMax && q.mass == p.mass && q.vel == p.vel && q.minVel == p.minVel && q.maxVel == p.maxVel
      && exists v :: AtMost(p.minVel, v) && AtMost(v, p.maxVel) && Covers(Minus(v, p.vel), dt, q.rMax - p.rMax)
  {
    hide AtMost, Attained, Centred, Fastest, Minus, Reached, Spread, Vec.Norm2, Vec.Plus, Vec.Times, Within;
    var s, v := sqrt(Spread(p).Norm2()), Fastest(p);
    NormAtLeastZero(Spread(p));
    Positive(s, dt);
    FastestSpread(p);
    FastestWithin(p);
    assert Drifted(p, dt, sqrt).rMax - p.rMax == s * dt;
    SquareOfProduct(s, dt);
  }

  /** Over `dt` this velocity covers the distance r. */
  ghost predicate Covers(v: Vec, dt: real, r: real) {
    v.Norm2() * (dt * dt) == r * r
  }

  lemma SquareOfProduct(s: real, d: real)
    ensures (s * s) * (d * d) == (s * d) * (s * d)
  {
  }

  ghost function Fastest(p: Pole): Vec {
    Vec(if p.maxVel.x - p.vel.x > p.vel.x - p.minVel.x then p.maxVel.x else p.minVel.x,
        if p.maxVel.y - p.vel.y > p.vel.y - p.minVel.y then p.maxVel.y else p.minVel.y,
        if p.maxVel.z - p.vel.z > p.vel.z - p.minVel.z then p.maxVel.z else p.minVel.z)
  }

  lemma FastestWithin(p: Pole)
    requires AtMost(p.minVel, ZERO) && AtMost(ZERO, p.maxVel)
    ensures AtMost(p.minVel, Fastest(p)) && AtMost(Fastest(p), p.maxVel)
  {
  }

  lemma FastestSpread(p: Pole)
    ensures Minus(Fastest(p), p.vel).Norm2() == Spread(p).Norm2()
  {
    SameSquare(Minus(Fastest(p), p.vel).x, Spread(p).x);
    SameSquare(Minus(Fastest(p), p.vel).y, Spread(p).y);
    SameSquare(Minus(Fastest(p), p.vel).z, Spread(p).z);
  }

  lemma SameSquare(a: real, b: real)
    requires a == b || a == -b
    ensures a * a == b * b
  {
  }

  ghost function AfterMoves(gs: seq<Gpart>, dts: seq<real>): seq<Gpart>
    decreases |dts|
  {
    if dts == [] then gs else AfterMoves(AllMoved(gs, dts[0]), dts[1..])
  }

  ghost function AfterDrifts(p: Pole, dts: seq<real>, sqrt: real -> real): Pole
    decreases |dts|
  {
    if dts == [] then p else AfterDrifts(Drifted(p, dts[0], sqrt), dts[1..], sqrt)
  }

  /** So it is after any number of drifts. */
  lemma {:induction false} DriftsKeepSound(gs: seq<Gpart>, p: Pole, dts: seq<real>, sqrt: real -> real)
    requires Sound(gs, p) && Roots(sqrt) && forall i :: 0 <= i < |dts| ==> dts[i] >= 0.0
    ensures Sound(AfterMoves(gs, dts), AfterDrifts(p, dts, sqrt))
    decreases |dts|
  {
    if dts == [] {
    } else {
      hide AllMoved, Drifted, Moved, Roots, Sound;
      DriftKeepsSound(gs, p, dts[0], sqrt);
      DriftsKeepSound(AllMoved(gs, dts[0]), Drifted(p, dts[0], sqrt), dts[1..], sqrt);
    }
  }

  lemma StillNear(g: Gpart, p: Pole, dt: real, s: real)
    requires dt >= 0.0 && s >= 0.0 && s * s == Spread(p).Norm2() && Near(g.x, p.com, p.rMax)
    requires AtMost(p.minVel, g.v) && AtMost(g.v, p.maxVel)
    ensures Near(Moved(g, dt).x, p.com.Plus(p.vel.Times(dt)), p.rMax + s * dt)
  {
    var d := Minus(g.v, p.vel);
    Componentwise(d, Spread(p));
    hide AtMost, Spread, Vec.Norm2, Vec.Plus, Vec.Times;
    NearScaled(d, dt, s);
    var a, from := d.Times(dt), Minus(ZERO, Minus(g.x, p.com));
    assert Near(ZERO, from, p.rMax) by { assert Minus(ZERO, from) == Minus(g.x, p.com); }
    Triangle(a, ZERO, from, s * dt, p.rMax);
    Offsets(g.x, p.com, g.v, p.vel, dt);
  }

  lemma Offsets(x: Vec, c: Vec, v: Vec, w: Vec, dt: real)
    ensures Minus(Minus(v, w).Times(dt), Minus(ZERO, Minus(x, c))) == Minus(x.Plus(v.Times(dt)), c.Plus(w.Times(dt)))
  {
    TimesMinus(v, w, dt);
    hide Vec.Times;
  }

  lemma NearScaled(d: Vec, dt: real, s: real)
    requires dt >= 0.0 && s >= 0.0 && d.Norm2() <= s * s
    ensures Near(d.Times(dt), ZERO, s * dt)
  {
    Positive(s, dt);
    Positive(dt, dt);
    NormAtLeastZero(d);
    Products(d.Norm2(), dt * dt, s * s, dt * dt);
    Scaled(d, dt);
    assert (s * dt) * (s * dt) == (s * s) * (dt * dt);
    assert Minus(d.Times(dt), ZERO) == d.Times(dt);
  }

  lemma TimesPlus(a: Vec, b: Vec, k: real)
    ensures a.Plus(b).Times(k) == a.Times(k).Plus(b.Times(k))
  {
  }

  lemma TimesMinus(a: Vec, b: Vec, k: real)
    ensures Minus(a, b).Times(k) == Minus(a.Times(k), b.Times(k))
  {
  }

  lemma TimesTimes(a: Vec, j: real, k: real)
    ensures a.Times(j).Times(k) == a.Times(k).Times(j)
  {
    OneTimes(a.x, j, k);
    OneTimes(a.y, j, k);
    OneTimes(a.z, j, k);
  }

  lemma OneTimes(a: real, j: real, k: real)
    ensures a * j * k == a * k * j
  {
  }

  lemma Scaled(d: Vec, k: real)
    ensures d.Times(k).Norm2() == d.Norm2() * (k * k)
  {
    assert (d.x * k) * (d.x * k) == (d.x * d.x) * (k * k);
    assert (d.y * k) * (d.y * k) == (d.y * d.y) * (k * k);
    assert (d.z * k) * (d.z * k) == (d.z * d.z) * (k * k);
  }

  lemma {:induction false} DriftedSums(gs: seq<Gpart>, dt: real)
    ensures Mass(AllMoved(gs, dt)) == Mass(gs) && Momentum(AllMoved(gs, dt)) == Momentum(gs)
    ensures Moment(AllMoved(gs, dt)) == Moment(gs).Plus(Momentum(gs).Times(dt))
  {
    hide AllMoved, Mass, Moment, Momentum, Vec.Plus, Vec.Times;
    if gs == [] {
      assert AllMoved(gs, dt) == [];
      NoSums();
      Still(ZERO, dt);
    } else {
      var n := |gs| - 1;
      var rest, g := gs[..n], gs[n];
      DriftedSums(rest, dt);
      assert AllMoved(gs, dt) == AllMoved(rest, dt) + [Moved(g, dt)];
      LastSums(gs, rest, g);
      LastSums(AllMoved(gs, dt), AllMoved(rest, dt), Moved(g, dt));
      MovedMoment(Moment(rest), Momentum(rest), g, dt);
    }
  }

  lemma Still(a: Vec, dt: real)
    ensures a.Plus(ZERO.Times(dt)) == a
  {
  }

  lemma MovedMoment(a: Vec, b: Vec, g: Gpart, dt: real)
    ensures a.Plus(b.Times(dt)).Plus(Moved(g, dt).x.Times(g.mass)) ==
      a.Plus(g.x.Times(g.mass)).Plus(b.Plus(g.v.Times(g.mass)).Times(dt))
  {
    TimesPlus(g.x, g.v.Times(dt), g.mass);
    TimesPlus(b, g.v.Times(g.mass), dt);
    TimesTimes(g.v, dt, g.mass);
    hide Vec.Times;
  }

  lemma DriftedCentre(gs: seq<Gpart>, p: Pole, dt: real, sqrt: real -> real)
    requires Centred(gs, p) && Mass(AllMoved(gs, dt)) == Mass(gs) && Momentum(AllMoved(gs, dt)) == Momentum(gs)
    requires Moment(AllMoved(gs, dt)) == Moment(gs).Plus(Momentum(gs).Times(dt))
    ensures Centred(AllMoved(gs, dt), Drifted(p, dt, sqrt))
  {
    hide Mass, Moment, Momentum, AllMoved;
    TimesPlus(p.com, p.vel.Times(dt), p.mass);
    TimesTimes(p.vel, dt, p.mass);
    hide Vec.Times;
  }

  // ----- trees -----

  datatype GravCell = GravCell(loc: Vec, width: Vec, split: bool, gparts: seq<Gpart>)

  /** All the gparts of a cell. */
  ghost function Held(t: Tree<GravCell>): seq<Gpart>
    requires Octal(t)
    decreases t, 9
  {
    if t.data.split then HeldUpTo(t, 8) else t.data.gparts
  }

  ghost function HeldUpTo(t: Tree<GravCell>, k: nat): seq<Gpart>
    requires Octal(t) && k <= 8
    decreases t, k
  {
    if k == 0 then [] else HeldUpTo(t, k - 1) + if t.progeny[k - 1].Some? then Held(t.progeny[k - 1].cell) else []
  }

  /** Every gpart has mass and lies in the box of every cell above it, and split cells have gparts. */
  ghost predicate Proper(t: Tree<GravCell>)
    requires Octal(t)
    decreases t
  {
    && Heavy(Held(t)) && InBox(Held(t), t.data.loc, t.data.width)
    && (t.data.split ==> Held(t) != [] && forall k :: 0 <= k < 8 && t.progeny[k].Some? ==> Proper(t.progeny[k].cell))
  }

  ghost predicate InBox(gs: seq<Gpart>, loc: Vec, width: Vec) {
    forall i :: 0 <= i < |gs| ==> AtMost(loc, gs[i].x) && AtMost(gs[i].x, loc.Plus(width))
  }

  /** Every multipole of the tree is right for the gparts of its cell, and its radius is as small as the code can
      tell: that of a leaf is attained, that of a split cell is the smaller of the two limits. */
  ghost predicate AllSound(t: Tree<GravCell>, m: Tree<Pole>, sqrt: real -> real)
    requires Octal(t)
    decreases t
  {
    && Sound(Held(t), m.data)
    && (t.data.split ==> KidsSound(t, m.progeny, 8, sqrt) && Limited(t.data, m.progeny, m.data.com, m.data.rMax, sqrt))
    && (!t.data.split ==> LeafPole(t.data, m.data))
  }

  ghost predicate KidsSound(t: Tree<GravCell>, kids: seq<Kid<Pole>>, n: nat, sqrt: real -> real)
    requires Octal(t) && n <= 8
    decreases t, 0
  {
    && |kids| == n
    && forall k :: 0 <= k < n ==>
      && (kids[k].Some? <==> t.progeny[k].Some?)
      && (t.progeny[k].Some? ==> AllSound(t.progeny[k].cell, kids[k].cell, sqrt))
  }

  ghost predicate LeafPole(c: GravCell, p: Pole) {
    && (c.gparts != [] ==> Tight(c.gparts, p))
    && (c.gparts == [] ==> p.rMax == 0.0 && IsMiddle(c, p.com))
  }

  /** As far from the low corner as from the high one. */
  ghost predicate IsMiddle(c: GravCell, x: Vec) {
    Minus(x, c.loc) == Minus(c.loc.Plus(c.width), x)
  }

  ghost predicate Limited(c: GravCell, kids: seq<Kid<Pole>>, com: Vec, r: real, sqrt: real -> real) {
    exists a, b :: KidLimit(kids, com, a, sqrt) && BoxLimit(c, com, b) && r <= a && r <= b && (r == a || r == b)
  }

  /** The largest of the progeny's radii, each with the distance between the centres. */
  ghost predicate KidLimit(kids: seq<Kid<Pole>>, com: Vec, a: real, sqrt: real -> real) {
    && (forall k :: 0 <= k < |kids| && kids[k].Some? ==> Reach(kids[k].cell.data, com, sqrt) <= a)
    && exists k :: 0 <= k < |kids| && kids[k].Some? && Reach(kids[k].cell.data, com, sqrt) == a
  }

  ghost function Reach(m: Pole, com: Vec, sqrt: real -> real): real {
    m.rMax + sqrt(Minus(m.com, com).Norm2())
  }

  /** The distance of the farthest corner: no point of the box is further away. */
  ghost predicate BoxLimit(c: GravCell, com: Vec, b: real) {
    && (forall x :: AtMost(c.loc, x) && AtMost(x, c.loc.Plus(c.width)) ==> Near(x, com, b))
    && b >= 0.0 && exists i, j, k :: b * b == Minus(CornerAt(c, i, j, k), com).Norm2()
  }

  ghost function CornerAt(c: GravCell, i: bool, j: bool, k: bool): Vec {
    Vec(if i then c.loc.x + c.width.x else c.loc.x, if j then c.loc.y + c.width.y else c.loc.y,
        if k then c.loc.z + c.width.z else c.loc.z)
  }

  /** cell_make_multipoles.  What holds for the leaves by construction holds at all levels: the mass is that of all
      gparts below, the centre is theirs, and the radius, the smaller of two estimates, reaches every one of them. */
  method MakeMultipoles(t: Tree<GravCell>, sqrt: real -> real) returns (m: Tree<Pole>)
    requires Octal(t) && Proper(t) && Roots(sqrt)
    ensures AllSound(t, m, sqrt)
    decreases t
  {
    hide Heavy, HeldUpTo, InBox, IsMiddle, Limited, Roots, Sound, Tight, Vec.Plus, Vec.Times;
    assert Heavy(Held(t)) && InBox(Held(t), t.data.loc, t.data.width) && |t.progeny| == 8;
    if t.data.split {
      var kids: seq<Kid<Pole>> := [];
      assert KidsSound(t, kids, 0, sqrt);
      for k := 0 to 8
        invariant KidsSound(t, kids, k, sqrt)
      {
        var kid := None;
        if t.progeny[k].Some? {
          assert Octal(t.progeny[k].cell) && Proper(t.progeny[k].cell);
          var s := MakeMultipoles(t.progeny[k].cell, sqrt);
          kid := Some(s);
        }
        OneMoreSound(t, kids, k, kid, sqrt);
        kids := kids + [kid];
      }
      assert Held(t) != [];
      var p := Combine(t, kids, sqrt);
      m := Tree(p, kids);
    } else {
      var none: seq<Kid<Pole>> := [None, None, None, None, None, None, None, None];
      assert Held(t) == t.data.gparts;
      if t.data.gparts != [] {
        var p := P2M(t.data.gparts, sqrt);
        m := Tree(p, none);
      } else {
        var p := Pole(0.0, t.data.loc.Plus(t.data.width.Times(0.5)), ZERO, ZERO, ZERO, 0.0);
        NothingSound(p);
        Middle(t.data);
        m := Tree(p, none);
        assert Sound(Held(t), p) && IsMiddle(t.data, p.com);
      }
    }
  }

  lemma Middle(c: GravCell)
    ensures IsMiddle(c, c.loc.Plus(c.width.Times(0.5)))
  {
  }

  lemma NothingSound(p: Pole)
    requires p.mass == 0.0 && p.rMax == 0.0 && p.maxVel == ZERO == p.minVel
    ensures Sound([], p)
  {
  }

  lemma OneMoreSound(t: Tree<GravCell>, kids: seq<Kid<Pole>>, k: nat, kid: Kid<Pole>, sqrt: real -> real)
    requires Octal(t) && k < 8 && KidsSound(t, kids, k, sqrt) && |t.progeny| == 8
    requires (kid.Some? <==> t.progeny[k].Some?)
    requires (kid.Some? ==> Octal(t.progeny[k].cell) && AllSound(t.progeny[k].cell, kid.cell, sqrt))
    ensures KidsSound(t, kids + [kid], k + 1, sqrt)
  {
    hide AllSound;
  }

  /** The multipole of the k-th progeny, and the gparts so far. */
  lemma KidPole(t: Tree<GravCell>, kids: seq<Kid<Pole>>, k: nat, sqrt: real -> real)
    requires Octal(t) && KidsSound(t, kids, 8, sqrt) && k < 8
    ensures |kids| == 8 == |t.progeny| && (kids[k].Some? <==> t.progeny[k].Some?)
    ensures kids[k].Some? ==> Octal(t.progeny[k].cell) && Sound(Held(t.progeny[k].cell), kids[k].cell.data)
    ensures kids[k].Some? ==> HeldUpTo(t, k + 1) == HeldUpTo(t, k) + Held(t.progeny[k].cell)
    ensures kids[k].None? ==> HeldUpTo(t, k + 1) == HeldUpTo(t, k)
  {
    hide Sound;
  }

  /** What the first loop has gathered. */
  ghost predicate Gathered(gs: seq<Gpart>, mass: real, com: Vec, vel: Vec, maxVel: Vec, minVel: Vec) {
    mass == Mass(gs) && com == Moment(gs) && vel == Momentum(gs) && Ranged(gs, minVel, maxVel)
  }

  lemma NothingGathered()
    ensures Gathered([], 0.0, ZERO, ZERO, ZERO, ZERO)
  {
  }

  lemma GatherOne(a: seq<Gpart>, b: seq<Gpart>, mass: real, com: Vec, vel: Vec, maxVel: Vec, minVel: Vec, p: Pole)
    requires Gathered(a, mass, com, vel, maxVel, minVel) && Sound(b, p)
    ensures Gathered(a + b, mass + p.mass, com.Plus(p.com.Times(p.mass)), vel.Plus(p.vel.Times(p.mass)),
                     Above(p.maxVel, maxVel), Below(p.minVel, minVel))
  {
    hide Above, AtMost, Attained, Below, Mass, Moment, Momentum, Near, Reached, Vec.Plus, Vec.Times, Within;
    Sums(a, b);
    RangedBoth(a, b, minVel, maxVel, p.minVel, p.maxVel);
  }

  /** The part of cell_make_multipoles for split cells, after the recursion. */
  method Combine(t: Tree<GravCell>, kids: seq<Kid<Pole>>, sqrt: real -> real) returns (p: Pole)
    requires Octal(t) && t.data.split && KidsSound(t, kids, 8, sqrt) && Roots(sqrt)
    requires Held(t) != [] && Heavy(Held(t)) && InBox(Held(t), t.data.loc, t.data.width)
    ensures Sound(Held(t), p) && Limited(t.data, kids, p.com, p.rMax, sqrt)
  {
    hide Above, AllSound, Below, Heavy, InBox, Limited, Mass, Moment, Momentum, Octal, Ranged, Reached, Roots, Vec.Plus,
      Vec.Times;
    var mass, com, vel, maxVel, minVel := 0.0, ZERO, ZERO, ZERO, ZERO;
    assert HeldUpTo(t, 0) == [] && HeldUpTo(t, 8) == Held(t);
    assert Gathered(HeldUpTo(t, 0), mass, com, vel, maxVel, minVel) by { NothingGathered(); }
    assert |kids| == 8;
    for k := 0 to 8
      invariant Gathered(HeldUpTo(t, k), mass, com, vel, maxVel, minVel)
    {
      KidPole(t, kids, k, sqrt);
      if kids[k].Some? {
        var m := kids[k].cell.data;
        GatherOne(HeldUpTo(t, k), Held(t.progeny[k].cell), mass, com, vel, maxVel, minVel, m);
        mass := mass + m.mass;
        com := com.Plus(m.com.Times(m.mass));
        vel := vel.Plus(m.vel.Times(m.mass));
        maxVel := Above(m.maxVel, maxVel);
        minVel := Below(m.minVel, minVel);
      }
    }
    HeavyMass(Held(t));
    assert mass == Mass(Held(t)) && com == Moment(Held(t)) && vel == Momentum(Held(t))
      && Ranged(Held(t), minVel, maxVel);
    Divided(com, mass);
    Divided(vel, mass);
    com, vel := com.Times(1.0 / mass), vel.Times(1.0 / mass);
    var rMax := Radius(t, kids, com, sqrt);
    p := Pole(mass, com, vel, maxVel, minVel, rMax);
  }

  /** Any point of the box is no further from `com` than the corner chosen here. */
  function Corner(com: Vec, loc: Vec, width: Vec): Vec {
    Vec(if com.x > loc.x + width.x * 0.5 then com.x - loc.x else loc.x + width.x - com.x,
        if com.y > loc.y + width.y * 0.5 then com.y - loc.y else loc.y + width.y - com.y,
        if com.z > loc.z + width.z * 0.5 then com.z - loc.z else loc.z + width.z - com.z)
  }

  lemma FarthestCorner(com: Vec, c: GravCell, r: real)
    requires r >= 0.0 && r * r == Corner(com, c.loc, c.width).Norm2()
    ensures BoxLimit(c, com, r)
  {
    var e := Corner(com, c.loc, c.width);
    forall x | AtMost(c.loc, x) && AtMost(x, c.loc.Plus(c.width)) ensures Near(x, com, r) {
      Componentwise(Minus(x, com), e);
    }
    var x := CornerAt(c, com.x <= c.loc.x + c.width.x * 0.5, com.y <= c.loc.y + c.width.y * 0.5,
      com.z <= c.loc.z + c.width.z * 0.5);
    SameSquare(Minus(x, com).x, e.x);
    SameSquare(Minus(x, com).y, e.y);
    SameSquare(Minus(x, com).z, e.z);
  }

  /** The second loop, and the smaller of the two limits. */
  method Radius(t: Tree<GravCell>, kids: seq<Kid<Pole>>, com: Vec, sqrt: real -> real) returns (rMax: real)
    requires Octal(t) && t.data.split && KidsSound(t, kids, 8, sqrt) && Roots(sqrt)
    requires Held(t) != [] && InBox(Held(t), t.data.loc, t.data.width)
    ensures Reached(Held(t), com, rMax)
    ensures Limited(t.data, kids, com, rMax, sqrt)
  {
    hide AllSound, Any, AtMost, BoxLimit, Centred, Corner, KidLimit, Minus, Near, Octal, Ranged, Vec.Norm2, Vec.Plus;
    rMax := 0.0;
    assert !Any(kids[..0]) by { NoKids(); }
    assert HeldUpTo(t, 0) == [] && HeldUpTo(t, 8) == Held(t);
    assert Reached(HeldUpTo(t, 0), com, rMax);
    assert |kids| == 8;
    for k := 0 to 8
      invariant Reached(HeldUpTo(t, k), com, rMax)
      invariant if Any(kids[..k]) then KidLimit(kids[..k], com, rMax, sqrt) else HeldUpTo(t, k) == [] && rMax == 0.0
    {
      KidPole(t, kids, k, sqrt);
      assert kids[..k + 1] == kids[..k] + [kids[k]];
      NoKidNext(kids[..k], kids[k], com, rMax, sqrt);
      if kids[k].Some? {
        var m := kids[k].cell.data;
        var r2 := Minus(com, m.com).Norm2();
        NormAtLeastZero(Minus(com, m.com));
        Opposite(com, m.com);
        assert sqrt(r2) >= 0.0 && sqrt(r2) * sqrt(r2) == r2;
        ReachOne(HeldUpTo(t, k), Held(t.progeny[k].cell), com, rMax, m, sqrt(r2));
        KidLimitNext(kids[..k], kids[k], com, rMax, sqrt);
        rMax := Max(rMax, m.rMax + sqrt(r2));
      }
    }
    var corner := Corner(com, t.data.loc, t.data.width).Norm2();
    NormAtLeastZero(Corner(com, t.data.loc, t.data.width));
    assert sqrt(corner) >= 0.0 && sqrt(corner) * sqrt(corner) == corner;
    FarthestCorner(com, t.data, sqrt(corner));
    BoxReached(Held(t), t.data, com, sqrt(corner));
    assert kids[..8] == kids;
    ghost var a := rMax;
    rMax := Min(rMax, sqrt(corner));
    assert KidLimit(kids, com, a, sqrt) && BoxLimit(t.data, com, sqrt(corner));
  }

  ghost predicate Any(kids: seq<Kid<Pole>>) {
    exists k :: 0 <= k < |kids| && kids[k].Some?
  }

  lemma NoKids()
    ensures !Any([])
  {
  }

  lemma NoKidNext(kids: seq<Kid<Pole>>, kid: Kid<Pole>, com: Vec, r: real, sqrt: real -> real)
    ensures Any(kids + [kid]) <==> Any(kids) || kid.Some?
    ensures kid.None? && KidLimit(kids, com, r, sqrt) ==> KidLimit(kids + [kid], com, r, sqrt)
  {
    hide Reach;
    var s := kids + [kid];
    assert s[|kids|] == kid && forall k :: 0 <= k < |kids| ==> s[k] == kids[k];
    if k :| 0 <= k < |kids| && kids[k].Some? { assert s[k].Some?; }
    if kid.None? && KidLimit(kids, com, r, sqrt) {
      var k :| 0 <= k < |kids| && kids[k].Some? && Reach(kids[k].cell.data, com, sqrt) == r;
      assert s[k] == kids[k];
    }
  }

  lemma KidLimitNext(kids: seq<Kid<Pole>>, kid: Kid<Pole>, com: Vec, r: real, sqrt: real -> real)
    requires kid.Some? && Reach(kid.cell.data, com, sqrt) >= 0.0
    requires if Any(kids) then KidLimit(kids, com, r, sqrt) else r == 0.0
    ensures KidLimit(kids + [kid], com, Max(r, Reach(kid.cell.data, com, sqrt)), sqrt)
  {
    hide Reach;
    var s := kids + [kid];
    assert s[|kids|] == kid && forall k :: 0 <= k < |kids| ==> s[k] == kids[k];
    if Any(kids) {
      var k :| 0 <= k < |kids| && kids[k].Some? && Reach(kids[k].cell.data, com, sqrt) == r;
      assert s[k] == kids[k];
    } else {
      assert forall k :: 0 <= k < |kids| ==> kids[k].None?;
    }
  }

  lemma BoxReached(gs: seq<Gpart>, c: GravCell, com: Vec, b: real)
    requires InBox(gs, c.loc, c.width) && BoxLimit(c, com, b)
    ensures Reached(gs, com, b)
  {
    hide AtMost, Near;
  }

  lemma ReachOne(a: seq<Gpart>, b: seq<Gpart>, com: Vec, r: real, m: Pole, d: real)
    requires Reached(a, com, r) && Sound(b, m) && d >= 0.0 && d * d == Minus(com, m.com).Norm2()
    ensures Reached(a + b, com, Max(r, m.rMax + d))
  {
    hide Centred, Ranged;
    assert Near(m.com, com, d) by { Opposite(com, m.com); }
    var top := Max(r, m.rMax + d);
    forall i | 0 <= i < |a + b| ensures Near((a + b)[i].x, com, top) {
      var x := (a + b)[i].x;
      if i < |a| {
        assert Near(x, com, r);
        Farther(x, com, r, top);
      } else {
        assert Near(x, m.com, m.rMax);
        Triangle(x, m.com, com, m.rMax, d);
        Farther(x, com, m.rMax + d, top);
      }
    }
  }

  lemma Opposite(a: Vec, b: Vec)
    ensures Minus(a, b).Norm2() == Minus(b, a).Norm2()
  {
  }

  lemma Farther(a: Vec, b: Vec, r: real, s: real)
    requires Near(a, b, r) && r <= s
    ensures Near(a, b, s)
  {
    SquareUp(r, s);
  }
}
