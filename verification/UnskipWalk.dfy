/**
 engine_do_unskip_*: the walk over the cells of a rank that comes to the links the exchanges hang from.  It passes
 over whole subtrees, and over top-level cells in which nothing is active; no exchange is lost by that.
 */
module UnskipWalk {
  import opened Traffic

  /** A cell as one of the walks sees it: whether it has tasks, whether the walk goes on below it (for gravity it
      stops a few levels above the leaves), and the pair tasks that hang from it. */
  datatype Node = Node(cell: End, hasTasks: bool, goesDown: bool, links: seq<PairTask>, kids: seq<Node>)

  predicate TurnsBack(p: Physics, n: Node, o: Options) {
    !n.hasTasks || PassedOver(p, n.cell, o)
  }

  /** The links the walk comes to. */
  ghost predicate Reached(p: Physics, n: Node, o: Options, t: PairTask)
    decreases n
  {
    && !TurnsBack(p, n, o)
    && (t in n.links || (n.goesDown && exists k :: 0 <= k < |n.kids| && Reached(p, n.kids[k], o, t)))
  }

  /** `t` hangs from the cell `e`, somewhere in the tree. */
  ghost predicate Hangs(n: Node, e: End, t: PairTask)
    decreases n
  {
    (n.cell == e && t in n.links) || exists k :: 0 <= k < |n.kids| && Hangs(n.kids[k], e, t)
  }

  /** Links hang from cells with tasks only, and from cells the walk can come to; the cells above a cell with tasks
      have tasks; counts add up, and a cell is active if one of its progeny is. */
  ghost predicate Sound(p: Physics, n: Node, o: Options)
    decreases n
  {
    && (n.links != [] ==> n.hasTasks)
    && (n.kids != [] && !n.goesDown ==> forall k :: 0 <= k < |n.kids| ==> Bare(n.kids[k]))
    && forall k :: 0 <= k < |n.kids| ==>
         Sound(p, n.kids[k], o) && (n.kids[k].hasTasks ==> n.hasTasks) && Covers(n.cell, n.kids[k].cell)
  }

  /** What is there in a progeny is there in its parent. */
  predicate Covers(c: End, kid: End) {
    && (kid.hydroCount > 0 ==> c.hydroCount > 0) && (kid.gravCount > 0 ==> c.gravCount > 0)
    && (kid.hydroActive ==> c.hydroActive) && (kid.gravActive ==> c.gravActive)
    && (kid.starsNeeded ==> c.starsNeeded) && (kid.rtActive ==> c.rtActive)
  }

  /** The cells above one that is not passed over are not passed over. */
  lemma CoveredNotPassed(p: Physics, c: End, kid: End, o: Options)
    requires Covers(c, kid) && PassedOver(p, c, o)
    ensures PassedOver(p, kid, o)
  {
  }

  /** A cell without particles is not active. */
  predicate Consistent(e: End) {
    && (e.hydroActive ==> e.hydroCount > 0) && (e.gravActive ==> e.gravCount > 0) && (e.rtActive ==> e.hydroCount > 0)
  }

  /** A cell with something to do is not passed over. */
  lemma LiveNotPassed(p: Physics, e: End, o: Options)
    requires Consistent(e) && Live(p, e)
    ensures !PassedOver(p, e, o)
  {
  }

  /** With symmetric interactions an inactive cell with gas is not passed over either: its neighbours may be active.
      Nor is any cell for the sake of black holes. */
  lemma NeighbourNotPassed(e: End, o: Options)
    ensures o.symmetric && e.hydroCount > 0 ==> !PassedOver(Hydro, e, o)
    ensures !PassedOver(BlackHoles, e, o)
  {
  }

  ghost predicate Bare(n: Node)
    decreases n
  {
    n.links == [] && forall k :: 0 <= k < |n.kids| ==> Bare(n.kids[k])
  }

  lemma {:induction false} BareHangs(n: Node, e: End, t: PairTask)
    requires Bare(n)
    ensures !Hangs(n, e, t)
    decreases n
  {
    forall k | 0 <= k < |n.kids| ensures !Hangs(n.kids[k], e, t) { BareHangs(n.kids[k], e, t); }
  }

  /** A link is come to from every cell that is not passed over itself. */
  lemma {:induction false} ComesTo(p: Physics, n: Node, o: Options, e: End, t: PairTask)
    requires Sound(p, n, o) && Hangs(n, e, t) && !PassedOver(p, e, o)
    ensures Reached(p, n, o, t) && !TurnsBack(p, n, o)
    decreases n
  {
    if !(n.cell == e && t in n.links) {
      var k :| 0 <= k < |n.kids| && Hangs(n.kids[k], e, t);
      ComesTo(p, n.kids[k], o, e, t);
      if PassedOver(p, n.cell, o) { CoveredNotPassed(p, n.cell, n.kids[k].cell, o); }
      if !n.goesDown { BareHangs(n.kids[k], e, t); }
    }
  }

  /** And only from such cells. */
  lemma {:induction false} ComesFrom(p: Physics, n: Node, o: Options, t: PairTask) returns (e: End)
    requires Reached(p, n, o, t)
    ensures Hangs(n, e, t) && !PassedOver(p, e, o)
    decreases n
  {
    if t in n.links {
      e := n.cell;
    } else {
      var k :| 0 <= k < |n.kids| && Reached(p, n.kids[k], o, t);
      e := ComesFrom(p, n.kids[k], o, t);
    }
  }

  ghost predicate OwnTree(n: Node, rank: int)
    decreases n
  {
    Own(n.links, rank) && forall k :: 0 <= k < |n.kids| ==> OwnTree(n.kids[k], rank)
  }

  /** engine_do_unskip_hydro and its siblings. */
  method Walk(p: Physics, n: Node, rank: int, o: Options) returns (acts: set<Exchange>)
    requires OwnTree(n, rank)
    ensures forall a :: a in acts <==> exists t :: Reached(p, n, o, t) && DueOn(p, t, rank, o, a)
    decreases n
  {
    hide DueOn, PassedOver;
    if !n.hasTasks { return {}; }
    if PassedOver(p, n.cell, o) { return {}; }
    acts := {};
    if n.goesDown {
      for k := 0 to |n.kids|
        invariant forall a :: a in acts <==>
          exists j, t :: 0 <= j < k && Reached(p, n.kids[j], o, t) && DueOn(p, t, rank, o, a)
      {
        var more := Walk(p, n.kids[k], rank, o);
        acts := acts + more;
      }
    }
    var own := UnskipCell(p, n.links, rank, o);
    acts := acts + own;
  }

  // ----- all top-level cells -----

  /** A top-level cell, and whether engine_unskip has put it on the list of active ones. */
  datatype Top = Top(node: Node, listed: bool)

  /** The cell has something to do in this step. */
  predicate Live(p: Physics, e: End) {
    match p
    case Hydro => e.hydroActive
    case Gravity => e.gravActive
    case Stars => e.starsNeeded
    case BlackHoles => BhActive(e)
    case Radiation => e.rtActive
  }

  ghost predicate SomeLive(p: Physics, n: Node)
    decreases n
  {
    Live(p, n.cell) || exists k :: 0 <= k < |n.kids| && SomeLive(p, n.kids[k])
  }

  lemma {:induction false} LiveHangs(p: Physics, n: Node, e: End, t: PairTask)
    requires Hangs(n, e, t) && Live(p, e)
    ensures SomeLive(p, n)
    decreases n
  {
    if !(n.cell == e && t in n.links) {
      var k :| 0 <= k < |n.kids| && Hangs(n.kids[k], e, t);
      LiveHangs(p, n.kids[k], e, t);
    }
  }

  /** Every exchange is for the sake of an end that has something to do. */
  lemma DueIsLive(p: Physics, t: PairTask, rank: int, o: Options, a: Exchange)
    requires DueOn(p, t, rank, o, a)
    ensures Live(p, t.ci) || Live(p, t.cj)
  {
  }

  /** The trees are sound, and a top-level cell with something to do below it is listed. */
  ghost predicate SoundForest(p: Physics, tops: seq<Top>, o: Options) {
    forall i :: 0 <= i < |tops| ==> Sound(p, tops[i].node, o) && (SomeLive(p, tops[i].node) ==> tops[i].listed)
  }

  /** The pair tasks hang from both of their ends, and nothing else hangs anywhere. */
  ghost predicate Hung(tops: seq<Top>, tasks: seq<PairTask>) {
    && (forall t :: t in tasks ==>
         && (exists i :: 0 <= i < |tops| && Hangs(tops[i].node, t.ci, t))
         && (exists i :: 0 <= i < |tops| && Hangs(tops[i].node, t.cj, t))
         && Consistent(t.ci) && Consistent(t.cj))
    && forall i, e, t :: 0 <= i < |tops| && Hangs(tops[i].node, e, t) ==> t in tasks && (e == t.ci || e == t.cj)
  }

  ghost predicate Visited(p: Physics, tops: seq<Top>, k: int, o: Options, t: PairTask) {
    exists i :: 0 <= i < k && i < |tops| && tops[i].listed && Reached(p, tops[i].node, o, t)
  }

  /** engine_unskip for one kind of physics: exactly the exchanges that are due for some pair task are switched on. */
  method Unskip(p: Physics, tops: seq<Top>, rank: int, o: Options, ghost tasks: seq<PairTask>)
    returns (acts: set<Exchange>)
    requires SoundForest(p, tops, o) && Hung(tops, tasks) && forall i :: 0 <= i < |tops| ==>
      OwnTree(tops[i].node, rank)
    ensures Summary(p, tasks, rank, o, acts)
    ensures forall t :: t in tasks ==> ServedWithin(p, t, rank, o, acts)
    ensures forall a :: a in acts ==> exists t :: t in tasks && PartOf(p, t, rank, o, acts, a)
  {
    hide ServedWithin, PartOf, DueOn, PassedOver, Reached, Hangs, Sound, SomeLive, OwnTree, Hung, SoundForest, Summary;
    acts := {};
    for k := 0 to |tops|
      invariant forall a :: a in acts <==> exists t :: Visited(p, tops, k, o, t) && DueOn(p, t, rank, o, a)
    {
      var more := {};
      if tops[k].listed {
        more := Walk(p, tops[k].node, rank, o);
      }
      NextTop(p, tops, k, rank, o, acts, more);
      acts := acts + more;
    }
    AllSwitchedOn(p, tops, rank, o, tasks, acts);
    AllServed(p, tops, rank, o, tasks, acts);
  }

  /** Among the exchanges switched on are those that serve both ends of this pair. */
  ghost predicate ServedWithin(p: Physics, t: PairTask, rank: int, o: Options, acts: set<Exchange>) {
    exists part: set<Exchange> :: part <= acts && PairServed(p, t, rank, o, part)
  }

  /** `a` is one of those that serve this pair. */
  ghost predicate PartOf(p: Physics, t: PairTask, rank: int, o: Options, acts: set<Exchange>, a: Exchange) {
    exists part: set<Exchange> :: a in part && part <= acts && PairServed(p, t, rank, o, part)
  }

  lemma AllServed(p: Physics, tops: seq<Top>, rank: int, o: Options, tasks: seq<PairTask>, acts: set<Exchange>)
    requires Hung(tops, tasks) && Summary(p, tasks, rank, o, acts)
    ensures forall t :: t in tasks ==> ServedWithin(p, t, rank, o, acts)
    ensures forall a :: a in acts ==> exists t :: t in tasks && PartOf(p, t, rank, o, acts, a)
  {
    hide DueOn, PassedOver, Live, Hangs, PairServed;
    forall t | t in tasks ensures ServedWithin(p, t, rank, o, acts) {
      var part := Part(p, tops, rank, o, tasks, acts, t);
      assert PairServed(p, t, rank, o, part);
    }
    forall a | a in acts ensures exists t :: t in tasks && PartOf(p, t, rank, o, acts, a) {
      var i :| 0 <= i < |tasks| && Asks(p, tasks[i], rank, o, a);
      var part := Part(p, tops, rank, o, tasks, acts, tasks[i]);
      assert a in part;
      assert PartOf(p, tasks[i], rank, o, acts, a);
    }
  }

  lemma Part(p: Physics, tops: seq<Top>, rank: int, o: Options, tasks: seq<PairTask>, acts: set<Exchange>, t: PairTask)
      returns (part: set<Exchange>)
    requires Hung(tops, tasks) && Summary(p, tasks, rank, o, acts) && t in tasks
    ensures part <= acts && PairServed(p, t, rank, o, part) && forall a :: a in part <==> DueOn(p, t, rank, o, a)
  {
    hide DueOn, PassedOver, Live, Hangs, PairServed;
    part := set a | a in acts && DueOn(p, t, rank, o, a);
    var i :| 0 <= i < |tasks| && tasks[i] == t;
    forall a | DueOn(p, t, rank, o, a) ensures a in acts {
      DueIsLive(p, t, rank, o, a);
      if Live(p, t.ci) { LiveNotPassed(p, t.ci, o); } else { LiveNotPassed(p, t.cj, o); }
      assert Asks(p, tasks[i], rank, o, a);
    }
    AgreedServes(p, t, rank, o, part);
  }

  lemma NextTop(p: Physics, tops: seq<Top>, k: nat, rank: int, o: Options, acts: set<Exchange>, more: set<Exchange>)
    requires k < |tops|
    requires forall a :: a in acts <==> exists t :: Visited(p, tops, k, o, t) && DueOn(p, t, rank, o, a)
    requires !tops[k].listed ==> more == {}
    requires tops[k].listed ==> forall a :: a in more <==>
      exists t :: Reached(p, tops[k].node, o, t) && DueOn(p, t, rank, o, a)
    ensures forall a :: a in acts + more <==> exists t :: Visited(p, tops, k + 1, o, t) && DueOn(p, t, rank, o, a)
  {
    hide DueOn, Reached;
    assert forall t :: Visited(p, tops, k + 1, o, t) <==>
      Visited(p, tops, k, o, t) || (tops[k].listed && Reached(p, tops[k].node, o, t));
  }

  lemma AllSwitchedOn(p: Physics, tops: seq<Top>, rank: int, o: Options, tasks: seq<PairTask>, acts: set<Exchange>)
    requires SoundForest(p, tops, o) && Hung(tops, tasks)
    requires forall a :: a in acts <==> exists t :: Visited(p, tops, |tops|, o, t) && DueOn(p, t, rank, o, a)
    ensures Summary(p, tasks, rank, o, acts)
  {
    hide DueOn, PassedOver, Live, Reached, Hangs, Sound, SomeLive;
    forall a ensures a in acts <==> exists i :: 0 <= i < |tasks| && Asks(p, tasks[i], rank, o, a) {
      if a in acts {
        var t :| Visited(p, tops, |tops|, o, t) && DueOn(p, t, rank, o, a);
        var i :| 0 <= i < |tops| && tops[i].listed && Reached(p, tops[i].node, o, t);
        var e := ComesFrom(p, tops[i].node, o, t);
        var j :| 0 <= j < |tasks| && tasks[j] == t;
        assert Asks(p, tasks[j], rank, o, a);
      }
      if j :| 0 <= j < |tasks| && Asks(p, tasks[j], rank, o, a) {
        var t := tasks[j];
        DueIsLive(p, t, rank, o, a);
        var e := if Live(p, t.ci) then t.ci else t.cj;
        var i :| 0 <= i < |tops| && Hangs(tops[i].node, e, t);
        LiveNotPassed(p, e, o);
        LiveHangs(p, tops[i].node, e, t);
        ComesTo(p, tops[i].node, o, e, t);
        assert Visited(p, tops, |tops|, o, t);
      }
    }
  }
}
