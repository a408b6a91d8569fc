/** The records the cells' windows refer to, and the two-way links between them. */
module Particles {
  datatype Vec = Vec(x: real, y: real, z: real) {
    function Plus(w: Vec): Vec { Vec(x + w.x, y + w.y, z + w.z) }
    function Times(r: real): Vec { Vec(x * r, y * r, z * r) }
    function Norm2(): real { x * x + y * y + z * z }
  }

  datatype TimeBin = Bin(n: int) | Inhibited | NotCreated

  /** A null pointer to a gpart; a pointer is otherwise an index into the array of all gparts. */
  const NULL := -1

  const ZERO := Vec(0.0, 0.0, 0.0)

  /** A part (with its xpart), spart, sink or bpart.  Of a gas particle `v` is the full velocity, and `predicted` the
      one that is drifted along with the accelerations; for other particles these stay zero. */
  datatype Particle = Particle(
    id: int, bin: TimeBin, gpart: int,
    x: Vec, v: Vec, diff: Vec, h: real, mass: real,
    predicted: Vec, aHydro: Vec, aGrav: Vec)

  /** swift_type_* */
  datatype Kind = GasKind | DarkMatter | Background | SinkKind | StarKind | BlackHoleKind | Neutrino

  predicate HasPartner(k: Kind) {
    k == GasKind || k == SinkKind || k == StarKind || k == BlackHoleKind
  }

  /** A gpart with a partner stores minus the partner's index, any other gpart stores its own ID. */
  datatype Gpart = Gpart(kind: Kind, idOrNegOffset: int, bin: TimeBin, x: Vec, v: Vec, mass: real)

  /** Each linked particle of kind `k` is known to its gpart ... */
  ghost predicate PointsToGpart(ps: seq<Particle>, gs: seq<Gpart>, k: Kind) {
    forall i :: 0 <= i < |ps| && ps[i].gpart != NULL ==>
      && 0 <= ps[i].gpart < |gs|
      && gs[ps[i].gpart].kind == k
      && gs[ps[i].gpart].idOrNegOffset == -i
  }

  /** ... and each gpart of kind `k` to its particle. */
  ghost predicate PointsToParticle(ps: seq<Particle>, gs: seq<Gpart>, k: Kind) {
    forall g :: 0 <= g < |gs| && gs[g].kind == k ==>
      && 0 <= -gs[g].idOrNegOffset < |ps|
      && ps[-gs[g].idOrNegOffset].gpart == g
  }

  /** One link, read from either end. */
  lemma LinkOf(ps: seq<Particle>, gs: seq<Gpart>, k: Kind, i: int)
    requires PointsToGpart(ps, gs, k) && 0 <= i < |ps| && ps[i].gpart != NULL
    ensures 0 <= ps[i].gpart < |gs| && gs[ps[i].gpart].kind == k && gs[ps[i].gpart].idOrNegOffset == -i
  {
  }

  lemma LinkBackOf(ps: seq<Particle>, gs: seq<Gpart>, k: Kind, g: int)
    requires PointsToParticle(ps, gs, k) && 0 <= g < |gs| && gs[g].kind == k
    ensures 0 <= -gs[g].idOrNegOffset < |ps| && ps[-gs[g].idOrNegOffset].gpart == g
  {
  }

  ghost predicate Linked(ps: seq<Particle>, gs: seq<Gpart>, k: Kind) {
    PointsToGpart(ps, gs, k) && PointsToParticle(ps, gs, k)
  }

  /** The arrays of particles a gpart can have its partner in. */
  datatype Partners = Partners(parts: seq<Particle>, sparts: seq<Particle>, sinks: seq<Particle>,
    bparts: seq<Particle>) {
    function Of(k: Kind): seq<Particle>
      requires HasPartner(k)
    {
      match k
      case GasKind => parts
      case StarKind => sparts
      case SinkKind => sinks
      case BlackHoleKind => bparts
    }

    function With(k: Kind, ps: seq<Particle>): (r: Partners)
      requires HasPartner(k)
      ensures forall o :: HasPartner(o) ==> r.Of(o) == if o == k then ps else Of(o)
    {
      match k
      case GasKind => this.(parts := ps)
      case StarKind => this.(sparts := ps)
      case SinkKind => this.(sinks := ps)
      case BlackHoleKind => this.(bparts := ps)
    }

    /** The partner of `g` is told that `g` is now at place `i`. */
    function Pointed(g: Gpart, i: int): Partners {
      if HasPartner(g.kind) && 0 <= -g.idOrNegOffset < |Of(g.kind)| then
        var ps := Of(g.kind);
        With(g.kind, ps[-g.idOrNegOffset := ps[-g.idOrNegOffset].(gpart := i)])
      else this
    }
  }

  ghost predicate AllLinked(all: Partners, gs: seq<Gpart>) {
    forall k :: HasPartner(k) ==> Linked(all.Of(k), gs, k)
  }

  ghost predicate Apart(parts: array<Particle>, sparts: array<Particle>, sinks: array<Particle>,
        bparts: array<Particle>) {
    parts != sparts && parts != sinks && parts != bparts && sparts != sinks && sparts != bparts && sinks != bparts
  }

  ghost function View(parts: array<Particle>, sparts: array<Particle>, sinks: array<Particle>,
        bparts: array<Particle>): Partners
    reads parts, sparts, sinks, bparts
  {
    Partners(parts[..], sparts[..], sinks[..], bparts[..])
  }

  // ----- what a particle is, wherever it is stored -----

  /** A particle with its gpart, both without the places they point to. */
  datatype Couple = Single(p: Particle) | Pair(p: Particle, g: Gpart)

  function BareGpart(g: Gpart): Gpart {
    if HasPartner(g.kind) then g.(idOrNegOffset := 0) else g
  }

  function CoupleOf(p: Particle, gs: seq<Gpart>): Couple {
    if 0 <= p.gpart < |gs| then Pair(p.(gpart := NULL), BareGpart(gs[p.gpart])) else Single(p.(gpart := NULL))
  }

  ghost function Couples(ps: seq<Particle>, gs: seq<Gpart>): (r: seq<Couple>)
    ensures |r| == |ps| && forall i :: 0 <= i < |ps| ==> r[i] == CoupleOf(ps[i], gs)
  {
    seq(|ps|, i requires 0 <= i < |ps| => CoupleOf(ps[i], gs))
  }

  ghost function BareGparts(gs: seq<Gpart>): (r: seq<Gpart>)
    ensures |r| == |gs| && forall i :: 0 <= i < |gs| ==> r[i] == BareGpart(gs[i])
  {
    seq(|gs|, i requires 0 <= i < |gs| => BareGpart(gs[i]))
  }
}
