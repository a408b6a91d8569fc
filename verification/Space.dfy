/** The arrays all cells share. */
module SpaceData {
  import opened Octree
  import opened Particles

  /** One counter for each particle array. */
  datatype Counts = Counts(hydro: int, stars: int, sinks: int, blackHoles: int, grav: int) {
    function Of(s: Species): int {
      match s
      case Gas => hydro
      case Stars => stars
      case Sinks => sinks
      case BlackHoles => blackHoles
      case Grav => grav
    }

    function Plus(s: Species, n: int): (r: Counts)
      ensures forall o :: r.Of(o) == if o == s then Of(o) + n else Of(o)
    {
      match s
      case Gas => this.(hydro := hydro + n)
      case Stars => this.(stars := stars + n)
      case Sinks => this.(sinks := sinks + n)
      case BlackHoles => this.(blackHoles := blackHoles + n)
      case Grav => this.(grav := grav + n)
    }
  }

  function SpeciesOf(k: Kind): Species
    requires HasPartner(k)
  {
    match k
    case GasKind => Gas
    case StarKind => Stars
    case SinkKind => Sinks
    case BlackHoleKind => BlackHoles
  }

  /** struct space, as far as its particle arrays and counters go. */
  class Space {
    const parts: array<Particle>
    const sparts: array<Particle>
    const sinks: array<Particle>
    const bparts: array<Particle>
    const gparts: array<Gpart>

    /** nr_extra_*, nr_inhibited_* and the request for a rebuild (e->forcerebuild). */
    var nrExtra: Counts
    var nrInhibited: Counts
    var forceRebuild: int

    constructor (parts: array<Particle>, sparts: array<Particle>, sinks: array<Particle>, bparts: array<Particle>,
          gparts: array<Gpart>)
      ensures this.parts == parts && this.sparts == sparts && this.sinks == sinks && this.bparts == bparts
      ensures this.gparts == gparts
    {
      this.parts, this.sparts, this.sinks, this.bparts, this.gparts := parts, sparts, sinks, bparts, gparts;
      nrExtra, nrInhibited, forceRebuild := Counts(0, 0, 0, 0, 0), Counts(0, 0, 0, 0, 0), 0;
    }

    ghost predicate Apart() {
      parts != sparts && parts != sinks && parts != bparts && sparts != sinks && sparts != bparts && sinks != bparts
    }

    function Array(k: Kind): array<Particle>
      requires HasPartner(k)
    {
      match k
      case GasKind => parts
      case StarKind => sparts
      case SinkKind => sinks
      case BlackHoleKind => bparts
    }

    ghost function All(): Partners
      reads parts, sparts, sinks, bparts
    {
      View(parts, sparts, sinks, bparts)
    }
  }
}
