/**
 The gas of a whole rank: many super-cells, each with its own tree and drift task, over one array of particles.
 */
module DriftForest {
  import opened Octree
  import opened Particles
  import opened HydroDrift

  /** `Settled`, for given active tasks and given particles. */
  ghost predicate Resting(top: Cell, active: set<Cell>, ps: seq<Particle>, now: int, born: seq<Particle>, t0: int,
        run: Run)
    reads top, top.subtree
  {
    && SuperTree(top) && Clean(top) && top !in active
    && top.Tiled(Gas) && Announced(top) && AllBounded(top, ps)
    && (forall d :: d in top.subtree ==> d.tiOldPart <= now)
    && Faithful(top, born, t0, ps, run)
  }

  lemma RestingIsSettled(top: Cell, s: Scheduler, parts: array<Particle>, now: int, born: seq<Particle>, t0: int,
        run: Run)
    ensures Settled(top, s, parts, now, born, t0, run) <==> Resting(top, s.active, parts[..], now, born, t0, run)
  {
    hide Cell.WellFormed, Cell.Rooted, Cell.Tiled, Announced, AllBounded, Faithful, Clean;
  }

  ghost predicate InWindow(c: Cell, i: int)
    reads c`windows
  {
    c.windows.hydro.start <= i < c.windows.hydro.start + c.windows.hydro.count
  }

  /** The super-cells have no cell and no particle in common. */
  ghost predicate Forest(tops: seq<Cell>)
    reads tops`windows
  {
    && (forall i :: 0 <= i < |tops| ==> tops[i] in tops[i].subtree)
    && forall i, j :: 0 <= i < |tops| && 0 <= j < |tops| && i != j ==>
         tops[i].subtree !! tops[j].subtree && forall n :: InWindow(tops[i], n) ==> !InWindow(tops[j], n)
  }

  ghost function Region(tops: seq<Cell>): set<Cell> {
    set i, d | 0 <= i < |tops| && d in tops[i].subtree :: d
  }

  /** A drift elsewhere does not disturb a super-cell at rest. */
  lemma Undisturbed(other: Cell, top: Cell, active: set<Cell>, before: seq<Particle>, after: seq<Particle>, now: int,
                    born: seq<Particle>, t0: int, run: Run)
    requires Resting(other, active, before, now, born, t0, run) && SameOutside(top, before, after)
    requires forall n :: InWindow(other, n) ==> !InWindow(top, n)
    ensures Resting(other, active, after, now, born, t0, run)
  {
    hide Cell.WellFormed, Cell.Rooted, Cell.Tiled, Announced, Clean, Advance, SuperTree;
    forall d, i | d in other.subtree && 0 <= d.windows.hydro.start <= i < d.windows.hydro.start + d.windows.hydro.count
      && i < |after|
      ensures after[i] == before[i]
    {
      assert other.WellFormed() by { TreeOf(other); }
      WindowInside(other, Gas, d);
      assert InWindow(other, i);
    }
  }

  lemma TreeOf(top: Cell)
    requires SuperTree(top)
    ensures top.WellFormed()
  {
  }

  ghost predicate AllResting(tops: seq<Cell>, active: set<Cell>, ps: seq<Particle>, now: int, born: seq<Particle>,
        t0: int, run: Run)
    reads tops, Region(tops)
  {
    forall i :: 0 <= i < |tops| ==> Resting(tops[i], active, ps, now, born, t0, run)
  }

  /** No particle outside the windows has changed. */
  ghost predicate SameElsewhere(tops: seq<Cell>, before: seq<Particle>, after: seq<Particle>)
    reads tops`windows
  {
    && |before| == |after|
    && forall n :: 0 <= n < |before| && (forall i :: 0 <= i < |tops| ==> !InWindow(tops[i], n)) ==> after[n] == before[n]
  }

  /** The cells given to one super-cell are non-empty cells of its tree. */
  ghost predicate WorkFor(top: Cell, cells: seq<Cell>)
    reads set c | c in cells :: c`windows
  {
    forall c :: c in cells ==> c in top.subtree && c.windows.hydro.count > 0
  }

  /** What a step has done to the super-cell `top`: the wanted cells are at the current time, leaves nobody
      asked for have not moved. */
  ghost predicate Served(top: Cell, cells: seq<Cell>, now: int, was: map<Cell, int>)
    reads top.subtree`tiOldPart, top.subtree`windows
  {
    && (forall c, d :: c in cells && d in c.subtree && d in top.subtree ==> d.tiOldPart == now)
    && top.subtree <= was.Keys
    && forall d :: d in top.subtree && !d.split && d.windows.hydro.count > 0 && Unmarked(cells, d) ==> d.tiOldPart == was[d]
  }

  ghost predicate NotServed(top: Cell, was: map<Cell, int>)
    reads top.subtree`tiOldPart
  {
    forall d :: d in top.subtree ==> d in was && d.tiOldPart == was[d]
  }

  ghost function Times(cells: set<Cell>): map<Cell, int>
    reads cells`tiOldPart
  {
    map d | d in cells :: d.tiOldPart
  }

  /** One super-cell's part of a step. */
  method StepOne(tops: seq<Cell>, k: nat, cells: seq<Cell>, s: Scheduler, parts: array<Particle>, run: Run, now: int,
                 ghost born: seq<Particle>, ghost t0: int, ghost was: map<Cell, int>)
    requires Forest(tops) && k < |tops| && WorkFor(tops[k], cells)
    requires AllResting(tops, s.active, parts[..], now, born, t0, run)
    requires NotServed(tops[k], was)
    modifies s, parts, tops[k].subtree`tiOldPart, tops[k].subtree`doDrift, tops[k].subtree`doSubDrift
    modifies tops[k].subtree`hMax, tops[k].subtree`dx2Max
    ensures AllResting(tops, s.active, parts[..], now, born, t0, run) && s.active == old(s.active)
    ensures Served(tops[k], cells, now, was)
    ensures SameElsewhere(tops, old(parts[..]), parts[..])
  {
    hide Resting, Settled, Announced, Clean, SuperTree;
    var top := tops[k];
    ghost var before := parts[..];
    RestingIsSettled(top, s, parts, now, born, t0, run);
    TimeStep(top, cells, s, parts, run, now, born, t0);
    RestingIsSettled(top, s, parts, now, born, t0, run);
    forall i | 0 <= i < |tops| ensures Resting(tops[i], s.active, parts[..], now, born, t0, run) {
      if i != k {
        assert Resting(tops[i], s.active, before, now, born, t0, run);
        Undisturbed(tops[i], top, s.active, before, parts[..], now, born, t0, run);
      }
    }
  }

  lemma AllLater(tops: seq<Cell>, active: set<Cell>, ps: seq<Particle>, now: int, later: int, born: seq<Particle>,
        t0: int, run: Run)
    requires AllResting(tops, active, ps, now, born, t0, run) && now <= later
    ensures AllResting(tops, active, ps, later, born, t0, run)
  {
    hide Announced, Clean, SuperTree, Cell.Tiled, AllBounded, Faithful;
  }

  lemma ElsewhereTwice(tops: seq<Cell>, a: seq<Particle>, b: seq<Particle>, c: seq<Particle>)
    requires SameElsewhere(tops, a, b) && SameElsewhere(tops, b, c)
    ensures SameElsewhere(tops, a, c)
  {
    hide InWindow;
  }

  lemma InRegion(tops: seq<Cell>, k: int)
    requires 0 <= k < |tops|
    ensures tops[k].subtree <= Region(tops)
  {
  }

  /** One step of the run of the whole rank: the super-cells with their cells, one after the other. */
  method StepAll(tops: seq<Cell>, work: seq<seq<Cell>>, s: Scheduler, parts: array<Particle>, run: Run, now: int,
                 ghost born: seq<Particle>, ghost t0: int)
    requires Forest(tops) && |work| == |tops| && forall i :: 0 <= i < |tops| ==> WorkFor(tops[i], work[i])
    requires AllResting(tops, s.active, parts[..], now, born, t0, run)
    modifies s, parts, Region(tops)`tiOldPart, Region(tops)`doDrift, Region(tops)`doSubDrift, Region(tops)`hMax
    modifies Region(tops)`dx2Max
    ensures AllResting(tops, s.active, parts[..], now, born, t0, run) && s.active == old(s.active)
    ensures forall i :: 0 <= i < |tops| ==> Served(tops[i], work[i], now, old(Times(Region(tops))))
    ensures SameElsewhere(tops, old(parts[..]), parts[..])
  {
    hide AllResting, Served, SameElsewhere, WorkFor, Region;
    ghost var was, before := Times(Region(tops)), parts[..];
    ElsewhereBegins(tops, parts[..]);
    NothingServed(tops, was);
    for k := 0 to |tops|
      invariant AllResting(tops, s.active, parts[..], now, born, t0, run) && s.active == old(s.active)
      invariant forall i :: 0 <= i < k ==> Served(tops[i], work[i], now, was)
      invariant forall i :: k <= i < |tops| ==> NotServed(tops[i], was)
      invariant SameElsewhere(tops, before, parts[..])
    {
      InRegion(tops, k);
      ghost var mid := parts[..];
      StepOne(tops, k, work[k], s, parts, run, now, born, t0, was);
      ElsewhereTwice(tops, before, mid, parts[..]);
    }
  }

  lemma ElsewhereBegins(tops: seq<Cell>, a: seq<Particle>)
    ensures SameElsewhere(tops, a, a)
  {
  }

  lemma NothingServed(tops: seq<Cell>, was: map<Cell, int>)
    requires was == Times(Region(tops))
    ensures forall i :: 0 <= i < |tops| ==> NotServed(tops[i], was)
  {
    forall i | 0 <= i < |tops| ensures NotServed(tops[i], was) { InRegion(tops, i); }
  }

  /** All particles of the super-cell are where drifting them at once would have brought them. */
  ghost predicate Arrived(top: Cell, ps: seq<Particle>, born: seq<Particle>, t0: int, end: int, run: Run)
    reads top`windows
  {
    |born| == |ps| && forall n :: 0 <= n < |ps| && InWindow(top, n) ==> ps[n] == Advance(born[n], run, t0, end)
  }

  lemma ArrivedDrifted(top: Cell, ps: seq<Particle>, born: seq<Particle>, t0: int, end: int, run: Run, n: int)
    requires Arrived(top, ps, born, t0, end, run) && 0 <= n < |ps| && InWindow(top, n)
    ensures n < |born| && Drifted(born[n], ps[n], run, t0, end)
  {
    hide Advance, Drifted;
    AdvanceDrifts(born[n], run, t0, end);
  }

  lemma StillArrived(other: Cell, top: Cell, before: seq<Particle>, after: seq<Particle>, born: seq<Particle>, t0: int,
        end: int, run: Run)
    requires Arrived(other, before, born, t0, end, run) && SameOutside(top, before, after)
    requires forall n :: InWindow(other, n) ==> !InWindow(top, n)
    ensures Arrived(other, after, born, t0, end, run)
  {
    hide Advance;
  }

  /** One super-cell's forced drift. */
  method ForceOne(tops: seq<Cell>, k: nat, s: Scheduler, parts: array<Particle>, run: Run, end: int,
                  ghost born: seq<Particle>, ghost t0: int)
    requires Forest(tops) && k < |tops| && AllResting(tops, s.active, parts[..], end, born, t0, run)
    modifies parts, tops[k].subtree`tiOldPart, tops[k].subtree`doDrift, tops[k].subtree`doSubDrift
    modifies tops[k].subtree`hMax, tops[k].subtree`dx2Max
    ensures AllResting(tops, s.active, parts[..], end, born, t0, run)
    ensures Arrived(tops[k], parts[..], born, t0, end, run)
    ensures SameOutside(tops[k], old(parts[..]), parts[..])
  {
    hide Resting, Settled, Announced, Clean, SuperTree, Advance;
    var top := tops[k];
    ghost var before := parts[..];
    RestingIsSettled(top, s, parts, end, born, t0, run);
    ForceDrift(top, s, parts, run, end, end, born, t0);
    RestingIsSettled(top, s, parts, end, born, t0, run);
    forall i | 0 <= i < |tops| ensures Resting(tops[i], s.active, parts[..], end, born, t0, run) {
      if i != k {
        assert Resting(tops[i], s.active, before, end, born, t0, run);
        Undisturbed(tops[i], top, s.active, before, parts[..], end, born, t0, run);
      }
    }
  }

  lemma ForestApart(tops: seq<Cell>, k: int)
    requires Forest(tops) && 0 <= k < |tops|
    ensures forall i :: 0 <= i < |tops| && i != k ==> forall n :: InWindow(tops[i], n) ==> !InWindow(tops[k], n)
  {
  }

  lemma OutsideIsElsewhere(tops: seq<Cell>, k: int, before: seq<Particle>, after: seq<Particle>)
    requires 0 <= k < |tops| && SameOutside(tops[k], before, after)
    ensures SameElsewhere(tops, before, after)
  {
  }

  method ForceAll(tops: seq<Cell>, s: Scheduler, parts: array<Particle>, run: Run, end: int,
                  ghost born: seq<Particle>, ghost t0: int)
    requires Forest(tops) && AllResting(tops, s.active, parts[..], end, born, t0, run)
    modifies parts, Region(tops)`tiOldPart, Region(tops)`doDrift, Region(tops)`doSubDrift, Region(tops)`hMax
    modifies Region(tops)`dx2Max
    ensures AllResting(tops, s.active, parts[..], end, born, t0, run)
    ensures forall i :: 0 <= i < |tops| ==> Arrived(tops[i], parts[..], born, t0, end, run)
    ensures SameElsewhere(tops, old(parts[..]), parts[..])
  {
    hide AllResting, Arrived, SameElsewhere, Region, Forest;
    ghost var before := parts[..];
    ElsewhereBegins(tops, before);
    for k := 0 to |tops|
      invariant Forest(tops) && AllResting(tops, s.active, parts[..], end, born, t0, run)
      invariant forall i :: 0 <= i < k ==> Arrived(tops[i], parts[..], born, t0, end, run)
      invariant SameElsewhere(tops, before, parts[..])
    {
      InRegion(tops, k);
      ghost var mid := parts[..];
      ForceOne(tops, k, s, parts, run, end, born, t0);
      ForestApart(tops, k);
      forall i | 0 <= i < k ensures Arrived(tops[i], parts[..], born, t0, end, run) {
        StillArrived(tops[i], tops[k], mid, parts[..], born, t0, end, run);
      }
      OutsideIsElsewhere(tops, k, mid, parts[..]);
      ElsewhereTwice(tops, before, mid, parts[..]);
    }
  }

  /** A step of the whole rank: which cells are activated, super-cell by super-cell. */
  datatype RankStep = RankStep(now: int, work: seq<seq<Cell>>)

  ghost predicate StepFits(tops: seq<Cell>, step: RankStep)
    reads set i, c | 0 <= i < |step.work| && c in step.work[i] :: c`windows
  {
    |step.work| == |tops| && forall i :: 0 <= i < |tops| ==> WorkFor(tops[i], step.work[i])
  }

  /** Any run of lazy steps of a whole rank, followed by one forced drift, ends exactly where drifting everything
      at once would have ended. */
  method SimulateRank(tops: seq<Cell>, steps: seq<RankStep>, end: int, s: Scheduler, parts: array<Particle>, run: Run,
        t0: int)
    requires Forest(tops) && AllResting(tops, s.active, parts[..], t0, parts[..], t0, run)
    requires forall i :: 0 <= i < |steps| ==> StepFits(tops, steps[i]) && t0 <= steps[i].now <= end
    requires t0 <= end && forall i, j :: 0 <= i < j < |steps| ==> steps[i].now <= steps[j].now
    modifies s, parts, Region(tops)`tiOldPart, Region(tops)`doDrift, Region(tops)`doSubDrift, Region(tops)`hMax
    modifies Region(tops)`dx2Max
    ensures forall i :: 0 <= i < |tops| ==> Arrived(tops[i], parts[..], old(parts[..]), t0, end, run)
    ensures forall i, n :: 0 <= i < |tops| && 0 <= n < parts.Length && InWindow(tops[i], n) ==>
      Drifted(old(parts[n]), parts[n], run, t0, end)
    ensures SameElsewhere(tops, old(parts[..]), parts[..])
    ensures AllResting(tops, s.active, parts[..], end, old(parts[..]), t0, run)
  {
    hide Drifted, AllResting, Arrived, SameElsewhere, Region, Forest, WorkFor, Served;
    ghost var born := parts[..];
    var now := t0;
    ElsewhereBegins(tops, born);
    for i := 0 to |steps|
      invariant Forest(tops) && AllResting(tops, s.active, parts[..], now, born, t0, run)
      invariant now <= end && forall j :: i <= j < |steps| ==> now <= steps[j].now
      invariant forall j :: 0 <= j < |steps| ==> StepFits(tops, steps[j])
      invariant SameElsewhere(tops, born, parts[..])
    {
      AllLater(tops, s.active, parts[..], now, steps[i].now, born, t0, run);
      ghost var mid := parts[..];
      now := steps[i].now;
      StepAll(tops, steps[i].work, s, parts, run, now, born, t0);
      ElsewhereTwice(tops, born, mid, parts[..]);
    }
    AllLater(tops, s.active, parts[..], now, end, born, t0, run);
    ghost var mid := parts[..];
    ForceAll(tops, s, parts, run, end, born, t0);
    ElsewhereTwice(tops, born, mid, parts[..]);
    forall i, n | 0 <= i < |tops| && 0 <= n < parts.Length && InWindow(tops[i], n)
      ensures Drifted(born[n], parts[n], run, t0, end)
    {
      ArrivedDrifted(tops[i], parts[..], born, t0, end, run, n);
    }
  }
}
