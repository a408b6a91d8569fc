/**
 Any sequence of removals, conversions and births keeps the links and the counters.  An inhibited star stays
 where it is, and once there is one no star can be added in front of it.
 */
module ConversionRuns {
  import opened Octree
  import opened Particles
  import opened SpaceData
  import opened WindowShift
  import opened Insertion
  import opened LiveTree
  import opened Conversions

  // ----- stars that have been taken out -----

  /** An inhibited star, without a gpart, within the top-level cell. */
  ghost predicate Stranded(st: State, j: int) {
    && st.top.stars.start <= j < st.top.stars.start + st.top.stars.count
    && 0 <= j < |Content(st, StarKind)| && Content(st, StarKind)[j].Single? && Content(st, StarKind)[j].p.bin.Inhibited?
  }

  /** Every star that is taken out is stranded (`src/cell_drift.c:718` does so for stars that leave the box), and so
      is the star of a birth that failed for want of a gpart. */
  lemma RemovedIsStranded(st: State, i: int)
    requires HasPartner(StarKind) && Good(st) && Exists(st, StarKind, i)
    requires st.top.stars.start <= i < st.top.stars.start + st.top.stars.count
    ensures Stranded(Removed(st, StarKind, i), i)
  {
    hide Counts.Of, Counts.Plus, FreeSlots, FreeGpartSlots, InhibitedIn, Linked, Partners.Of, Partners.With;
    LinkAt(st, StarKind, i);
    assert GoodArray(st.all.Of(StarKind), st.gs, StarKind, st.inhibited.Of(SpeciesOf(StarKind)));
    var st' := Removed(st, StarKind, i);
    assert st'.top == st.top && i < |st'.all.Of(StarKind)|;
    assert st'.all.Of(StarKind)[i].gpart == NULL && st'.all.Of(StarKind)[i].bin.Inhibited?;
  }

  /** cell_add_spart does not skip inhibited stars: a request for a star in front of a stranded one follows a null
      pointer, or finds the top-level cell full. */
  lemma StrandedBlocks(st: State, j: int, refused: bool, p: int)
    requires HasPartner(StarKind) && Good(st) && Stranded(st, j) && p <= j
    ensures Fate(st, StarKind, refused, p) == if !refused && Full(st, StarKind) then NoRoom else Aborted
  {
    hide Partners.Of, GoodGparts, FreeGpartSlots, InhibitedIn;
    assert GoodArray(st.all.Of(StarKind), st.gs, StarKind, st.inhibited.Of(SpeciesOf(StarKind)));
    if !refused && !Full(st, StarKind) && 0 <= p {
      assert st.all.Of(StarKind)[j].gpart == NULL;
      assert !Tellable(st, StarKind, p);
    }
  }

  /** Stranded stars stay where they are, and so does every cell that begins at or before one. */
  ghost predicate StillStranded(root: Cell, before: Snapshot, after: Snapshot, st: State, st': State) {
    && Known(root, before) && Known(root, after)
    && forall j :: Stranded(st, j) ==> Stranded(st', j) && StartsKept(root, before, after, j)
  }

  ghost predicate StartsKept(root: Cell, before: Snapshot, after: Snapshot, j: int)
    requires Known(root, before) && Known(root, after)
  {
    forall d :: d in root.subtree && before[d].stars.start <= j ==> after[d].stars.start == before[d].stars.start
  }

  lemma StillTrans(root: Cell, w0: Snapshot, w1: Snapshot, w2: Snapshot, st0: State, st1: State, st2: State)
    requires StillStranded(root, w0, w1, st0, st1) && StillStranded(root, w1, w2, st1, st2)
    ensures StillStranded(root, w0, w2, st0, st2)
  {
    hide Stranded;
  }

  lemma StillHere(root: Cell, w: Snapshot, st: State)
    requires Known(root, w)
    ensures StillStranded(root, w, w, st, st)
  {
  }

  /** Inhibited stars are stranded, and no others. */
  lemma StrandedStar(st: State, j: int)
    requires Good(st)
    ensures Stranded(st, j) <==>
      st.top.stars.start <= j < st.top.stars.start + st.top.stars.count && 0 <= j < |st.all.sparts|
        && st.all.sparts[j].bin.Inhibited?
  {
    hide GoodGparts, FreeGpartSlots, FreeSlots, InhibitedIn, PointsToParticle;
    assert HasPartner(StarKind) && st.all.Of(StarKind) == st.all.sparts;
    assert GoodArray(st.all.sparts, st.gs, StarKind, st.inhibited.Of(SpeciesOf(StarKind)));
  }

  /** Nothing moves, and no star comes back. */
  lemma StillInPlace(root: Cell, w: Snapshot, st: State, st': State)
    requires Good(st) && Good(st') && Known(root, w) && st'.top.stars == st.top.stars
    requires |st'.all.sparts| == |st.all.sparts|
    requires forall j :: 0 <= j < |st.all.sparts| && st.all.sparts[j].bin.Inhibited? ==>
      st'.all.sparts[j].bin.Inhibited?
    ensures StillStranded(root, w, w, st, st')
  {
    hide Good, Stranded;
    forall j | Stranded(st, j) ensures Stranded(st', j) {
      StrandedStar(st, j);
      StrandedStar(st', j);
    }
  }

  /** Nothing happens to the stars. */
  lemma StillElsewhere(root: Cell, before: Snapshot, after: Snapshot, st: State, st': State)
    requires Known(root, before) && Known(root, after) && root in root.subtree && before[root] == st.top
    requires after[root] == st'.top
    requires forall d :: d in root.subtree ==> after[d].stars == before[d].stars
    requires HasPartner(StarKind) && Content(st', StarKind) == Content(st, StarKind)
    ensures StillStranded(root, before, after, st, st')
  {
    hide Content, HasPartner;
  }

  /** A star was added, behind all stranded ones. */
  lemma StillBehind(root: Cell, c: Cell, before: Snapshot, after: Snapshot, st: State, st': State, p: int)
    requires root.WellFormed() && root in root.subtree && c in root.subtree && !c.split && HasPartner(StarKind)
    requires OneMoreIn(root, c, Stars, before, after, Content(st, StarKind), Content(st', StarKind), p)
    requires Tiled(root, Stars, before) && before[root] == st.top && after[root] == st'.top && c in before
    requires p == before[c].stars.start
    requires forall j :: Stranded(st, j) ==> j < p
    ensures StillStranded(root, before, after, st, st')
  {
    hide Cell.WellFormed, Content, HasPartner, Tiled, Later;
    assert Known(root, before) && Known(root, after);
    SubtreeNested(root, c);
    forall j | Stranded(st, j) ensures Stranded(st', j) && StartsKept(root, before, after, j) {
      FrontHeld(root, c, before[root], after[root], Content(st, StarKind), Content(st', StarKind), p, j);
      forall d | d in root.subtree && before[d].stars.start <= j ensures after[d].stars.start == before[d].stars.start {
        if c !in d.subtree { LaterIsAfter(root, Stars, before, c, d); }
      }
    }
  }

  lemma FrontHeld<T>(root: Cell, c: Cell, before: Windows, after: Windows, a: seq<T>, b: seq<T>, p: int, j: int)
    requires 0 <= p < |b| && HoldsAlike(root, c, Stars, before, after, a, b, p, b[p]) && c in root.subtree
    requires after.stars == before.stars.(count := before.stars.count + 1) && before.stars.start <= j < p
    ensures 0 <= j < |b| && j < |a| && b[j] == a[j]
  {
    var v, w := before.stars, after.stars;
    assert Held(b, w)[j - v.start] == b[j];
    assert Spliced(a, v, p, b[p])[j - v.start] == a[j];
  }

  // ----- one operation -----

  datatype Op =
    | RemoveOp(k: Kind, i: nat)
    | RemoveGpartOp(g: nat)
    | ToGpartOp(k: Kind, i: nat)
    | ConvertOp(c: Cell, middle: Vec, k: Kind, i: nat)
    | SpawnOp(c: Cell, middle: Vec, k: Kind, i: nat, newId: int)

  predicate InTree(op: Op, subtree: set<Cell>) {
    op.ConvertOp? || op.SpawnOp? ==> op.c in subtree
  }

  /** The arguments make sense: the particle exists and is of a kind the operation is for. */
  ghost predicate Sensible(st: State, op: Op) {
    match op
    case RemoveOp(k, i) => HasPartner(k) && Exists(st, k, i)
    case RemoveGpartOp(g) => g < |st.gs| && !st.gs[g].bin.NotCreated? && !HasPartner(st.gs[g].kind)
    case ToGpartOp(k, i) => (k == GasKind || k == StarKind) && HasPartner(k) && Exists(st, k, i)
    case ConvertOp(_, _, k, i) => (k == StarKind || k == SinkKind) && HasPartner(k) && HasPartner(GasKind)
      && Exists(st, GasKind, i)
    case SpawnOp(_, _, k, i, _) => (k == GasKind || k == SinkKind) && HasPartner(k) && Exists(st, k, i)
  }

  /** Where the new particle goes, and whether the leaf refuses it. */
  ghost function Place(op: Op, now: int): Site
    reads if op.ConvertOp? || op.SpawnOp? then {op.c} else {}
  {
    match op
    case ConvertOp(c, _, k, _) =>
      if HasPartner(k) then SiteOf(c, now).(star := c.Win(SpeciesOf(k)).start, noStar := c.Refuses(SpeciesOf(k), now))
        else SiteOf(c, now)
    case SpawnOp(c, _, _, _, _) => SiteOf(c, now)
    case _ => Site(0, 0, false, false)
  }

  /** The operation comes to a call of error() or the dereference of a null pointer. */
  ghost predicate Fails(st: State, op: Op, site: Site)
    requires Sensible(st, op)
  {
    match op
    case RemoveOp(_, _) => false
    case RemoveGpartOp(g) => !st.gs[g].bin.Inhibited? && st.gs[g].kind == Background
    case ToGpartOp(k, i) => st.all.Of(k)[i].gpart == NULL
    case ConvertOp(_, _, k, i) => st.all.Of(GasKind)[i].gpart == NULL || Fate(st, k, site.noStar, site.star).Aborted?
    case SpawnOp(_, _, k, i, _) => BirthFate(st, k, i, site).Abort?
  }

  /** A request for a star in front of a stranded one fails, unless there is no slot left for any star. */
  lemma StrandedFails(st: State, j: int, op: Op, site: Site)
    requires Good(st) && Stranded(st, j) && site.star <= j && HasPartner(StarKind)
    requires (op.ConvertOp? && op.k == StarKind) || op.SpawnOp?
    requires Sensible(st, op) && !Full(st, StarKind)
    ensures Fails(st, op, site)
  {
    hide Good, Stranded, Full, Tellable;
    StrandedBlocks(st, j, site.noStar, site.star);
  }

  predicate There(s: Space, k: Kind, i: nat)
    requires HasPartner(k)
    reads s.Array(k)
  {
    i < s.Array(k).Length && !s.Array(k)[i].bin.NotCreated?
  }

  lemma ThereIsLive(s: Space, root: Cell, k: Kind, i: nat)
    requires HasPartner(k)
    ensures There(s, k, i) <==> Live(s, root, k, i)
    ensures There(s, k, i) <==> Exists(StateOf(s, root), k, i)
  {
  }

  lemma RootOf(s: Space, root: Cell)
    requires Inv(s, root)
    ensures root.WellFormed() && root in root.subtree && Now(root)[root] == StateOf(s, root).top
    ensures Good(StateOf(s, root))
    ensures Known(root, Now(root)) && forall o :: Tiled(root, o, Now(root))
  {
    hide Cell.WellFormed, Cell.Tiled, Good, Space.All, Tiled;
    TiledNow(root);
  }

  lemma StaysInPlace(s: Space, root: Cell, st: State, w: Snapshot)
    requires Inv(s, root) && Good(st) && w == Now(root) && root.windows == st.top
    requires |StateOf(s, root).all.sparts| == |st.all.sparts|
    requires forall j :: 0 <= j < |st.all.sparts| && st.all.sparts[j].bin.Inhibited? ==>
      StateOf(s, root).all.sparts[j].bin.Inhibited?
    ensures StillStranded(root, w, Now(root), st, StateOf(s, root))
  {
    hide Good, Inv;
    RootOf(s, root);
    StillInPlace(root, w, st, StateOf(s, root));
  }

  method DoRemove(s: Space, k: Kind, i: nat, ghost root: Cell)
    requires Inv(s, root) && HasPartner(k) && Live(s, root, k, i)
    modifies s`nrInhibited, s.Array(k), s.gparts
    ensures Inv(s, root) && StillStranded(root, old(Now(root)), Now(root), old(StateOf(s, root)), StateOf(s, root))
  {
    hide Cell.WellFormed, Good, HasPartner, Inv, Partners.Of, Removed, StillStranded, Tiled;
    ghost var st, w := StateOf(s, root), Now(root);
    RootOf(s, root);
    Remove(s, k, i, root);
    RemovedStays(st, k, i);
    assert Now(root) == w;
    StaysInPlace(s, root, st, w);
  }

  lemma RemovedStays(st: State, k: Kind, i: int)
    requires HasPartner(k) && Good(st) && Exists(st, k, i)
    ensures var st' := Removed(st, k, i);
      && st'.top == st.top && |st'.all.sparts| == |st.all.sparts|
      && forall j :: 0 <= j < |st.all.sparts| && st.all.sparts[j].bin.Inhibited? ==> st'.all.sparts[j].bin.Inhibited?
  {
    hide Good, GoodArray;
  }

  method DoRemoveGpart(s: Space, g: nat, ghost root: Cell) returns (goesOn: bool)
    requires Inv(s, root) && Sensible(StateOf(s, root), RemoveGpartOp(g))
    modifies s`nrInhibited, s.gparts
    ensures goesOn <==> !Fails(old(StateOf(s, root)), RemoveGpartOp(g), Site(0, 0, false, false))
    ensures goesOn ==>
      Inv(s, root) && StillStranded(root, old(Now(root)), Now(root), old(StateOf(s, root)), StateOf(s, root))
  {
    hide Cell.WellFormed, Good, HasPartner, Inv, Partners.Of, StillStranded, Tiled;
    ghost var st, w := StateOf(s, root), Now(root);
    RootOf(s, root);
    assert st.gs[g] == s.gparts[g];
    var aborted := RemoveGpart(s, g, root);
    if aborted { return false; }
    assert Now(root) == w;
    StaysInPlace(s, root, st, w);
    return true;
  }

  method DoToGpart(s: Space, k: Kind, i: nat, ghost root: Cell) returns (goesOn: bool)
    requires Inv(s, root) && Sensible(StateOf(s, root), ToGpartOp(k, i))
    modifies s`nrInhibited, s.parts, s.sparts, s.gparts
    ensures goesOn <==> !Fails(old(StateOf(s, root)), ToGpartOp(k, i), Site(0, 0, false, false))
    ensures goesOn ==>
      Inv(s, root) && StillStranded(root, old(Now(root)), Now(root), old(StateOf(s, root)), StateOf(s, root))
  {
    hide AsGpart, Cell.WellFormed, Good, HasPartner, Inv, Partners.Of, StillStranded, Tiled;
    ghost var st, w := StateOf(s, root), Now(root);
    RootOf(s, root);
    assert HasPartner(k);
    assert Live(s, root, k, i);
    var r := ConvertToGpart(s, k, i, root);
    if r.Aborted? { return false; }
    AsGpartStays(st, k, i);
    assert Now(root) == w;
    StaysInPlace(s, root, st, w);
    return true;
  }

  lemma AsGpartStays(st: State, k: Kind, i: int)
    requires HasPartner(k) && Good(st) && Exists(st, k, i) && st.all.Of(k)[i].gpart != NULL
    ensures var st' := AsGpart(st, k, i);
      && st'.top == st.top && |st'.all.sparts| == |st.all.sparts|
      && forall j :: 0 <= j < |st.all.sparts| && st.all.sparts[j].bin.Inhibited? ==> st'.all.sparts[j].bin.Inhibited?
  {
    hide Good, GoodArray, AsGpart;
    AsGpartKeepsGood(st, k, i);
  }

  /** Where a star can be added, no stranded one is behind. */
  lemma NoneBehind(st: State, refused: bool, p: int)
    requires HasPartner(StarKind) && Good(st) && Fate(st, StarKind, refused, p).At?
    ensures forall j :: Stranded(st, j) ==> j < p
  {
    hide Good, Full, Tellable, Stranded;
    forall j | Stranded(st, j) ensures j < p {
      if p <= j { StrandedBlocks(st, j, refused, p); }
    }
  }

  lemma ConvertStays(root: Cell, c: Cell, before: Snapshot, after: Snapshot, st: State, st': State, k: Kind, p: int)
    requires (k == StarKind || k == SinkKind) && HasPartner(k) && HasPartner(StarKind) && Good(st)
    requires Fate(st, k, false, p).At?
    requires root.WellFormed() && root in root.subtree && c in root.subtree && !c.split
    requires OneMoreIn(root, c, SpeciesOf(k), before, after, Content(st, k), Content(st', k), p)
    requires c in before && Tiled(root, Stars, before) && before[root] == st.top && after[root] == st'.top
    requires p == WindowOf(before[c], SpeciesOf(k)).start
    requires forall o :: HasPartner(o) && o != k && o != GasKind ==> Content(st', o) == Content(st, o)
    requires OthersStay(root, SpeciesOf(k), before, after)
    ensures StillStranded(root, before, after, st, st')
  {
    hide AllAlike, Cell.WellFormed, Content, Fate, Good, HasPartner, MoveOf, StillStranded, Tiled;
    if k == StarKind {
      NoneBehind(st, false, p);
      hide OneMoreIn;
      StillBehind(root, c, before, after, st, st', p);
    } else {
      SinkElsewhere(root, c, before, after, Content(st, k), Content(st', k), p);
      StillElsewhere(root, before, after, st, st');
    }
  }

  lemma SinkElsewhere<T>(root: Cell, c: Cell, before: Snapshot, after: Snapshot, a: seq<T>, b: seq<T>, p: int)
    requires root.WellFormed() && OneMoreIn(root, c, Sinks, before, after, a, b, p)
    requires OthersStay(root, Sinks, before, after)
    ensures Known(root, before) && Known(root, after) && forall d :: d in root.subtree ==>
      after[d].stars == before[d].stars
  {
    hide HoldsAlike, Cell.WellFormed, MoveOf;
    forall d | d in root.subtree ensures after[d].stars == before[d].stars {
      assert WindowOf(after[d], Stars) == WindowOf(before[d], Stars);
    }
  }

  method DoConvert(s: Space, c: Cell, middle: Vec, k: Kind, i: nat, minActiveBin: int, now: int, ghost root: Cell)
    returns (goesOn: bool)
    requires Inv(s, root) && c in root.subtree && Sensible(StateOf(s, root), ConvertOp(c, middle, k, i))
    modifies s`nrExtra, s`nrInhibited, s`forceRebuild, s.parts, s.sparts, s.sinks, s.gparts, root.subtree`windows
    modifies root.subtree`starsSorted, root.subtree`tiOld
    ensures goesOn <==>
      !Fails(old(StateOf(s, root)), ConvertOp(c, middle, k, i), old(Place(ConvertOp(c, middle, k, i), now)))
    ensures goesOn ==>
      Inv(s, root) && StillStranded(root, old(Now(root)), Now(root), old(StateOf(s, root)), StateOf(s, root))
  {
    hide AllAlike, Cell.WellFormed, Content, Converted, Exists, FreeSlots, Full, Good, HasRoom, Inv, OneMoreIn,
      OthersStay, Partners.Of, Space.All, StateOf, StillStranded, Tellable, Tiled;
    ghost var st, w := StateOf(s, root), Now(root);
    RootOf(s, root);
    assert HasPartner(k) && HasPartner(GasKind) && Exists(st, GasKind, i) && (k == StarKind || k == SinkKind);
    assert Live(s, root, GasKind, i);
    var r := ConvertPart(s, c, k, i, middle, minActiveBin, now, root);
    if r.Aborted? { return false; }
    RootOf(s, root);
    if r.At? {
      ConvertStays(root, c, w, Now(root), st, StateOf(s, root), k, r.index);
    } else {
      StillHere(root, w, st);
    }
    return true;
  }

  lemma SpawnStays(root: Cell, c: Cell, before: Snapshot, after: Snapshot, st: State, st': State, p: int)
    requires HasPartner(StarKind) && Good(st) && Fate(st, StarKind, false, p).At?
    requires root.WellFormed() && root in root.subtree && c in root.subtree && !c.split
    requires OneMoreIn(root, c, Stars, before, after, Content(st, StarKind), Content(st', StarKind), p)
    requires c in before && Tiled(root, Stars, before) && before[root] == st.top && after[root] == st'.top
    requires p == before[c].stars.start
    ensures StillStranded(root, before, after, st, st')
  {
    hide Cell.WellFormed, Content, Fate, Good, HasPartner, OneMoreIn, StillStranded, Tiled;
    NoneBehind(st, false, p);
    StillBehind(root, c, before, after, st, st', p);
  }

  lemma StarPart(root: Cell, c: Cell, before: Snapshot, after: Snapshot, st: State, st': State, j: int, n: int)
    requires root.WellFormed()
    requires StarAdded(root, c, before, after, st, st', j) || StarAndGpartAdded(root, c, before, after, st, st', j, n)
    ensures HasPartner(StarKind)
    ensures OneMoreIn(root, c, Stars, before, after, Content(st, StarKind), Content(st', StarKind), j)
  {
    hide Cell.WellFormed, OneMoreIn;
  }

  method DoSpawn(s: Space, c: Cell, middle: Vec, k: Kind, i: nat, newId: int, minActiveBin: int, now: int,
        ghost root: Cell) returns (goesOn: bool)
    requires Inv(s, root) && c in root.subtree && Sensible(StateOf(s, root), SpawnOp(c, middle, k, i, newId))
    modifies s`nrExtra, s`nrInhibited, s`forceRebuild, s.parts, s.sparts, s.sinks, s.bparts, s.gparts
    modifies root.subtree`windows, root.subtree`starsSorted, root.subtree`tiOld
    ensures goesOn <==>
      !Fails(old(StateOf(s, root)), SpawnOp(c, middle, k, i, newId), old(Place(SpawnOp(c, middle, k, i, newId), now)))
    ensures goesOn ==>
      Inv(s, root) && StillStranded(root, old(Now(root)), Now(root), old(StateOf(s, root)), StateOf(s, root))
  {
    hide CanSpawn, Cell.WellFormed, Conceived, Content, Exists, FreeSlots, Full, Good, HasGpartRoom, HasRoom, Inv,
      OneMoreIn, Partners.Of, Removed, Space.All, Spawned, StarAdded, StarAndGpartAdded, StateOf, StillStranded,
      Tellable, Tiled;
    ghost var st, w := StateOf(s, root), Now(root);
    RootOf(s, root);
    assert HasPartner(k) && HasPartner(StarKind) && Exists(st, k, i) && (k == GasKind || k == SinkKind);
    assert Live(s, root, k, i);
    var r := Spawn(s, c, k, i, middle, minActiveBin, now, newId, root);
    if r.Abort? { return false; }
    RootOf(s, root);
    if r.NoStarSlot? {
      StillHere(root, w, st);
    } else {
      StarPart(root, c, w, Now(root), st, StateOf(s, root), r.star, if r.Alive? then r.gpart else 0);
      SpawnStays(root, c, w, Now(root), st, StateOf(s, root), r.star);
    }
    return true;
  }

  lemma NeverFails(st: State, op: Op)
    requires op.RemoveOp?
    ensures Sensible(st, op) ==> forall site :: !Fails(st, op, site)
  {
  }

  lemma GpartThere(s: Space, root: Cell, g: nat)
    ensures |StateOf(s, root).gs| == s.gparts.Length && (g < s.gparts.Length ==> StateOf(s, root).gs[g] == s.gparts[g])
  {
  }

  /** One operation, if its arguments make sense.  It ends the run exactly when it must. */
  method Do(s: Space, op: Op, minActiveBin: int, now: int, ghost root: Cell) returns (goesOn: bool)
    requires Inv(s, root) && InTree(op, root.subtree)
    modifies s`nrExtra, s`nrInhibited, s`forceRebuild, s.parts, s.sparts, s.sinks, s.bparts, s.gparts
    modifies root.subtree`windows, root.subtree`starsSorted, root.subtree`tiOld
    ensures goesOn <==> !(Sensible(old(StateOf(s, root)), op) && Fails(old(StateOf(s, root)), op, old(Place(op, now))))
    ensures goesOn ==>
      Inv(s, root) && StillStranded(root, old(Now(root)), Now(root), old(StateOf(s, root)), StateOf(s, root))
  {
    hide Cell.WellFormed, Exists, Fails, Good, Inv, Live, Now, StateOf, StillStranded, There, Tiled;
    ghost var st, w := StateOf(s, root), Now(root);
    RootOf(s, root);
    StillHere(root, w, st);
    match op {
      case RemoveOp(k, i) =>
        if HasPartner(k) {
          ThereIsLive(s, root, k, i);
          if There(s, k, i) { DoRemove(s, k, i, root); }
          NeverFails(st, op);
        }
      case RemoveGpartOp(g) =>
        GpartThere(s, root, g);
        if g < s.gparts.Length && !s.gparts[g].bin.NotCreated? && !HasPartner(s.gparts[g].kind) {
          goesOn := DoRemoveGpart(s, g, root);
          return;
        }
      case ToGpartOp(k, i) =>
        if k == GasKind || k == StarKind {
          ThereIsLive(s, root, k, i);
          if There(s, k, i) {
            goesOn := DoToGpart(s, k, i, root);
            return;
          }
        }
      case ConvertOp(c, middle, k, i) =>
        if k == StarKind || k == SinkKind {
          ThereIsLive(s, root, GasKind, i);
          if There(s, GasKind, i) {
            goesOn := DoConvert(s, c, middle, k, i, minActiveBin, now, root);
            return;
          }
        }
      case SpawnOp(c, middle, k, i, newId) =>
        if k == GasKind || k == SinkKind {
          ThereIsLive(s, root, k, i);
          if There(s, k, i) {
            goesOn := DoSpawn(s, c, middle, k, i, newId, minActiveBin, now, root);
            return;
          }
        }
    }
    return true;
  }

  /** Any run of removals, conversions and births, up to a call of error(), ends with everything in order, and with
      every stranded star where it was. */
  method DoAll(s: Space, ops: seq<Op>, minActiveBin: int, now: int, ghost root: Cell) returns (goesOn: bool)
    requires Inv(s, root) && forall op :: op in ops ==> InTree(op, root.subtree)
    modifies s`nrExtra, s`nrInhibited, s`forceRebuild, s.parts, s.sparts, s.sinks, s.bparts, s.gparts
    modifies root.subtree`windows, root.subtree`starsSorted, root.subtree`tiOld
    ensures goesOn ==>
      Inv(s, root) && StillStranded(root, old(Now(root)), Now(root), old(StateOf(s, root)), StateOf(s, root))
  {
    hide *;
    ghost var st, w := StateOf(s, root), Now(root);
    RootOf(s, root);
    StillHere(root, w, st);
    for n := 0 to |ops|
      invariant Inv(s, root) && StillStranded(root, w, Now(root), st, StateOf(s, root))
    {
      ghost var st1, w1 := StateOf(s, root), Now(root);
      goesOn := Do(s, ops[n], minActiveBin, now, root);
      if !goesOn { return false; }
      StillTrans(root, w, w1, Now(root), st, st1, StateOf(s, root));
    }
    return true;
  }

  /** A birth that failed for want of a gpart leaves a stranded star behind. */
  lemma FailedBirthStrands(st: State, from: Kind, i: int, j: int, middle: Vec, bin: int, d: Vec)
    requires CanSpawn(st, from, i, j)
    ensures var st2 := Conceived(st, j, middle, bin, d);
      HasPartner(StarKind) && Good(st2) && Exists(st2, StarKind, j) && Stranded(Removed(st2, StarKind, j), j)
  {
    hide AfterAdd, Counts.Of, Exists, FreeSlots, FreshParticle, Good, HasPartner, Partners.Of, Partners.With, Removed,
      Stranded;
    CanSpawnParts(st, from, i, j);
    ConceivedKeepsGood(st, j, middle, bin, d);
    ConceivedWindow(st, j, middle, bin, d);
    RemovedIsStranded(Conceived(st, j, middle, bin, d), j);
  }

  lemma ConceivedWindow(st: State, j: int, middle: Vec, bin: int, d: Vec)
    requires HasPartner(StarKind) && HasRoom(st, StarKind, j)
    requires FreeSlots(st.all.Of(StarKind), WindowOf(st.top, SpeciesOf(StarKind)))
    requires 0 <= j < |AfterAdd(st, StarKind, j, FreshParticle(middle, bin)).all.Of(StarKind)|
    ensures var v := Conceived(st, j, middle, bin, d).top.stars; v.start <= j < v.start + v.count
  {
  }

  /** From then on no star can be made in that leaf, or in one before it: whatever is removed, converted or born in
      the meantime, a request for a star fails unless the top-level cell is full. */
  lemma BlockedForGood(root: Cell, w0: Snapshot, w1: Snapshot, st0: State, st1: State, j: int, op: Op, site: Site)
    requires StillStranded(root, w0, w1, st0, st1) && Good(st1) && Stranded(st0, j)
    requires (op.ConvertOp? && op.k == StarKind) || op.SpawnOp?
    requires InTree(op, root.subtree) && op.c in w0 && w0[op.c].stars.start <= j && op.c in w1
    requires site.star == w1[op.c].stars.start
    requires HasPartner(StarKind) && Sensible(st1, op) && !Full(st1, StarKind)
    ensures Fails(st1, op, site)
  {
    hide Good, Stranded, Full, Sensible, Fails;
    assert StartsKept(root, w0, w1, j);
    StrandedFails(st1, j, op, site);
  }
}
