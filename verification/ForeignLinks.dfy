/**
 Handing out the slots of the foreign particle array: cell_link_foreign_parts goes down to the cells that
 receive particles and links each of them, with everything below it, to the next free slots;
 cell_count_parts_for_tasks has said beforehand how many slots that takes.
 */
module ForeignLinks {
  import opened Packing
  import opened Mirrors

  /** The highest cells with a receive task, depth first. */
  ghost function Receiving(t: Tree<StarCell>, recv: Tree<bool>): seq<Tree<StarCell>>
    requires Octal(t) && Octal(recv) && SameShape(t, recv)
    decreases t, 9
  {
    if recv.data then [t] else ReceivingUpTo(t, recv, 8)
  }

  ghost function ReceivingUpTo(t: Tree<StarCell>, recv: Tree<bool>, k: nat): seq<Tree<StarCell>>
    requires Octal(t) && Octal(recv) && SameShape(t, recv) && k <= 8
    decreases t, k
  {
    if k == 0 then []
    else if t.progeny[k - 1].None? then ReceivingUpTo(t, recv, k - 1)
    else ReceivingUpTo(t, recv, k - 1) + Receiving(t.progeny[k - 1].cell, recv.progeny[k - 1].cell)
  }

  ghost function Total(ts: seq<Tree<StarCell>>): nat {
    if ts == [] then 0 else Total(ts[..|ts| - 1]) + ts[|ts| - 1].data.count
  }

  lemma {:induction false} TotalSum(a: seq<Tree<StarCell>>, b: seq<Tree<StarCell>>)
    ensures Total(a + b) == Total(a) + Total(b)
  {
    if b == [] {
      assert a + b == a;
    } else {
      TotalSum(a, b[..|b| - 1]);
      assert (a + b)[..|a + b| - 1] == a + b[..|b| - 1];
    }
  }

  /** cell_count_parts_for_tasks */
  method CountForTasks(t: Tree<StarCell>, recv: Tree<bool>) returns (count: nat)
    requires Octal(t) && Octal(recv) && SameShape(t, recv)
    ensures count == Total(Receiving(t, recv))
    decreases t
  {
    if recv.data {
      assert [t][..0] == [];
      return t.data.count;
    }
    count := 0;
    for k := 0 to 8
      invariant count == Total(ReceivingUpTo(t, recv, k))
    {
      if t.progeny[k].Some? {
        var n := CountForTasks(t.progeny[k].cell, recv.progeny[k].cell);
        TotalSum(ReceivingUpTo(t, recv, k), Receiving(t.progeny[k].cell, recv.progeny[k].cell));
        count := count + n;
      }
    }
  }

  /** The receiving cells are linked one after the other, from `at` on, each with all that is below it. */
  ghost predicate Consecutive(ts: seq<Tree<StarCell>>, us: seq<Tree<StarCell>>, at: int) {
    |us| == |ts| && forall i :: 0 <= i < |ts| ==> InTurn(ts, us, at, i)
  }

  ghost predicate InTurn(ts: seq<Tree<StarCell>>, us: seq<Tree<StarCell>>, at: int, i: int)
    requires 0 <= i < |ts| == |us|
  {
    Octal(ts[i]) && LinkedTo(ts[i], us[i], at + Total(ts[..i]))
  }

  lemma ConsecutiveSum(a: seq<Tree<StarCell>>, a1: seq<Tree<StarCell>>, b: seq<Tree<StarCell>>, b1: seq<Tree<StarCell>>,
        at: int)
    requires Consecutive(a, a1, at) && Consecutive(b, b1, at + Total(a))
    ensures Consecutive(a + b, a1 + b1, at)
  {
    hide InTurn;
    forall i | 0 <= i < |a + b| ensures InTurn(a + b, a1 + b1, at, i) {
      if i < |a| {
        assert InTurn(a, a1, at, i);
        InTurnLeft(a, a1, b, b1, at, i);
      } else {
        assert InTurn(b, b1, at + Total(a), i - |a|);
        InTurnRight(a, a1, b, b1, at, i - |a|);
      }
    }
  }

  lemma InTurnLeft(a: seq<Tree<StarCell>>, a1: seq<Tree<StarCell>>, b: seq<Tree<StarCell>>, b1: seq<Tree<StarCell>>,
        at: int, i: int)
    requires |a| == |a1| && |b| == |b1| && 0 <= i < |a| && InTurn(a, a1, at, i)
    ensures InTurn(a + b, a1 + b1, at, i)
  {
    hide LinkedTo, Octal, Total;
    assert (a + b)[..i] == a[..i] && (a + b)[i] == a[i] && (a1 + b1)[i] == a1[i];
  }

  lemma InTurnRight(a: seq<Tree<StarCell>>, a1: seq<Tree<StarCell>>, b: seq<Tree<StarCell>>, b1: seq<Tree<StarCell>>,
        at: int, i: int)
    requires |a| == |a1| && |b| == |b1| && 0 <= i < |b| && InTurn(b, b1, at + Total(a), i)
    ensures InTurn(a + b, a1 + b1, at, |a| + i)
  {
    hide LinkedTo, Octal, Total;
    assert (a + b)[..|a| + i] == a + b[..i] && (a + b)[|a| + i] == b[i] && (a1 + b1)[|a| + i] == b1[i];
    TotalSum(a, b[..i]);
  }

  /** No slot is handed out twice, none is left over. */
  lemma Disjoint(ts: seq<Tree<StarCell>>, us: seq<Tree<StarCell>>, at: int, i: int, j: int)
    requires Consecutive(ts, us, at) && 0 <= i < j < |ts|
    ensures us[i].data.start + us[i].data.count <= us[j].data.start
    ensures at <= us[i].data.start && us[j].data.start + us[j].data.count <= at + Total(ts)
  {
    hide InTurn, Total;
    assert InTurn(ts, us, at, i) && InTurn(ts, us, at, j) && |us| == |ts|;
    Placed(ts, us, at, i);
    Placed(ts, us, at, j);
    Increasing(ts, 0, i);
    Increasing(ts, i + 1, j);
    Increasing(ts, j + 1, |ts|);
    assert ts[..|ts|] == ts;
  }

  lemma Placed(ts: seq<Tree<StarCell>>, us: seq<Tree<StarCell>>, at: int, i: int)
    requires 0 <= i < |ts| == |us| && InTurn(ts, us, at, i)
    ensures us[i].data.start == at + Total(ts[..i]) && us[i].data.count == ts[i].data.count
    ensures Total(ts[..i + 1]) == Total(ts[..i]) + ts[i].data.count
  {
    assert ts[..i + 1][..i] == ts[..i];
  }

  lemma {:induction false} Increasing(ts: seq<Tree<StarCell>>, i: int, j: int)
    requires 0 <= i <= j <= |ts|
    ensures Total(ts[..i]) <= Total(ts[..j])
    decreases j - i
  {
    if i < j {
      Increasing(ts, i, j - 1);
      assert ts[..j][..j - 1] == ts[..j - 1];
    }
  }

  /** The cells above the receiving ones are left as they are. */
  ghost predicate SameAbove(t: Tree<StarCell>, u: Tree<StarCell>, recv: Tree<bool>)
    requires Octal(t) && Octal(recv) && SameShape(t, recv) && SameShape(t, u)
    decreases t
  {
    recv.data || (u.data == t.data && forall k :: 0 <= k < 8 && t.progeny[k].Some? ==>
      SameAbove(t.progeny[k].cell, u.progeny[k].cell, recv.progeny[k].cell))
  }

  /** What cell_link_foreign_parts makes of a tree. */
  ghost predicate Linked(t: Tree<StarCell>, u: Tree<StarCell>, recv: Tree<bool>, at: int)
    requires Octal(t) && Octal(recv) && SameShape(t, recv)
  {
    && Octal(u) && SameShape(t, u) && SameShape(u, recv) && SameAbove(t, u, recv)
    && Consecutive(Receiving(t, recv), Receiving(u, recv), at)
  }

  /** cell_link_foreign_parts */
  method LinkForeign(t: Tree<StarCell>, recv: Tree<bool>, at: int) returns (u: Tree<StarCell>, count: nat)
    requires Octal(t) && Octal(recv) && SameShape(t, recv)
    ensures Linked(t, u, recv, at) && count == Total(Receiving(t, recv))
    decreases t
  {
    hide KidsLinked, Linked, LinkedTo, Receiving, ReceivingUpTo, SameShape, Total;
    if recv.data {
      u, count := LinkSparts(t, at);
      LinkedHere(t, u, recv, at);
      return;
    }
    assert |t.progeny| == 8;
    var progeny: seq<Kid<StarCell>> := [];
    count := 0;
    KidsStart(t, recv, at);
    for k := 0 to 8
      invariant KidsLinked(t, progeny, recv, at, k)
      invariant count == Total(ReceivingUpTo(t, recv, k))
    {
      RecvKid(t, recv, k);
      if t.progeny[k].Some? {
        var v, n := LinkForeign(t.progeny[k].cell, recv.progeny[k].cell, at + count);
        NextLinked(t, progeny, recv, at, k, Some(v));
        progeny := progeny + [Some(v)];
        count := count + n;
      } else {
        NextLinked(t, progeny, recv, at, k, None);
        progeny := progeny + [None];
      }
    }
    u := Tree(t.data, progeny);
    AllLinked(t, progeny, recv, at);
  }

  lemma LinkedHere(t: Tree<StarCell>, u: Tree<StarCell>, recv: Tree<bool>, at: int)
    requires Octal(t) && Octal(recv) && SameShape(t, recv) && recv.data && LinkedTo(t, u, at)
    ensures Linked(t, u, recv, at) && t.data.count == Total(Receiving(t, recv))
  {
    ShapesCompose(t, u, recv);
    assert [t][..0] == [];
  }

  /** The first `k` progeny. */
  ghost predicate KidsLinked(t: Tree<StarCell>, progeny: seq<Kid<StarCell>>, recv: Tree<bool>, at: int, k: nat)
    requires Octal(t) && Octal(recv) && SameShape(t, recv) && k <= 8
  {
    |progeny| == k && forall j :: 0 <= j < k ==>
      && (progeny[j].Some? <==> t.progeny[j].Some?)
      && (t.progeny[j].Some? ==>
        Linked(t.progeny[j].cell, progeny[j].cell, recv.progeny[j].cell, at + Total(ReceivingUpTo(t, recv, j))))
  }

  lemma KidsStart(t: Tree<StarCell>, recv: Tree<bool>, at: int)
    requires Octal(t) && Octal(recv) && SameShape(t, recv)
    ensures KidsLinked(t, [], recv, at, 0) && Total(ReceivingUpTo(t, recv, 0)) == 0
  {
  }

  lemma RecvKid(t: Tree<StarCell>, recv: Tree<bool>, k: nat)
    requires Octal(t) && Octal(recv) && SameShape(t, recv) && k < 8
    ensures |t.progeny| == |recv.progeny| == 8 && (t.progeny[k].Some? <==> recv.progeny[k].Some?)
    ensures t.progeny[k].Some? ==>
      Octal(t.progeny[k].cell) && Octal(recv.progeny[k].cell) && SameShape(t.progeny[k].cell, recv.progeny[k].cell)
  {
  }

  lemma NextLinked(t: Tree<StarCell>, progeny: seq<Kid<StarCell>>, recv: Tree<bool>, at: int, k: nat,
        kid: Kid<StarCell>)
    requires Octal(t) && Octal(recv) && SameShape(t, recv) && k < 8 && KidsLinked(t, progeny, recv, at, k)
    requires |t.progeny| == |recv.progeny| == 8 && (t.progeny[k].Some? <==> recv.progeny[k].Some?)
    requires t.progeny[k].Some? ==>
      Octal(t.progeny[k].cell) && Octal(recv.progeny[k].cell) && SameShape(t.progeny[k].cell, recv.progeny[k].cell)
    requires kid.Some? <==> t.progeny[k].Some?
    requires kid.Some? ==>
      Linked(t.progeny[k].cell, kid.cell, recv.progeny[k].cell, at + Total(ReceivingUpTo(t, recv, k)))
    ensures KidsLinked(t, progeny + [kid], recv, at, k + 1)
    ensures Total(ReceivingUpTo(t, recv, k + 1)) == Total(ReceivingUpTo(t, recv, k)) +
      (if kid.Some? then Total(Receiving(t.progeny[k].cell, recv.progeny[k].cell)) else 0)
  {
    hide Linked, Total, Octal, SameShape;
    if kid.Some? {
      TotalSum(ReceivingUpTo(t, recv, k), Receiving(t.progeny[k].cell, recv.progeny[k].cell));
    }
  }

  lemma AllLinked(t: Tree<StarCell>, progeny: seq<Kid<StarCell>>, recv: Tree<bool>, at: int)
    requires Octal(t) && Octal(recv) && SameShape(t, recv) && !recv.data && KidsLinked(t, progeny, recv, at, 8)
    ensures Linked(t, Tree(t.data, progeny), recv, at)
    ensures Receiving(t, recv) == ReceivingUpTo(t, recv, 8)
  {
    var u := Tree(t.data, progeny);
    assert Octal(u) && SameShape(t, u) && SameShape(u, recv) && SameAbove(t, u, recv) by {
      hide Consecutive, Receiving;
    }
    LinkedInTurn(t, u, recv, at, 8);
  }

  lemma OneMoreReceiving(t: Tree<StarCell>, recv: Tree<bool>, k: nat)
    requires Octal(t) && Octal(recv) && SameShape(t, recv) && 0 < k <= 8
    ensures |t.progeny| == 8 == |recv.progeny|
    ensures t.progeny[k - 1].None? ==> ReceivingUpTo(t, recv, k) == ReceivingUpTo(t, recv, k - 1)
    ensures t.progeny[k - 1].Some? ==>
      && recv.progeny[k - 1].Some? && Octal(t.progeny[k - 1].cell) && Octal(recv.progeny[k - 1].cell)
      && SameShape(t.progeny[k - 1].cell, recv.progeny[k - 1].cell)
      && ReceivingUpTo(t, recv, k) == ReceivingUpTo(t, recv, k - 1)
        + Receiving(t.progeny[k - 1].cell, recv.progeny[k - 1].cell)
  {
  }

  lemma KidInTurn(t: Tree<StarCell>, u: Tree<StarCell>, recv: Tree<bool>, at: int, k: nat)
    requires Octal(t) && Octal(recv) && SameShape(t, recv) && KidsLinked(t, u.progeny, recv, at, 8) && 0 < k <= 8
    requires Octal(u) && SameShape(u, recv) && t.progeny[k - 1].Some?
    ensures u.progeny[k - 1].Some? && recv.progeny[k - 1].Some?
    ensures Octal(t.progeny[k - 1].cell) && Octal(u.progeny[k - 1].cell) && Octal(recv.progeny[k - 1].cell)
    ensures SameShape(t.progeny[k - 1].cell, recv.progeny[k - 1].cell)
    ensures SameShape(u.progeny[k - 1].cell, recv.progeny[k - 1].cell)
    ensures Consecutive(Receiving(t.progeny[k - 1].cell, recv.progeny[k - 1].cell),
                        Receiving(u.progeny[k - 1].cell, recv.progeny[k - 1].cell),
                        at + Total(ReceivingUpTo(t, recv, k - 1)))
  {
    hide Consecutive, SameAbove, Total;
    assert Linked(t.progeny[k - 1].cell, u.progeny[k - 1].cell, recv.progeny[k - 1].cell,
                  at + Total(ReceivingUpTo(t, recv, k - 1)));
  }

  lemma {:induction false} LinkedInTurn(t: Tree<StarCell>, u: Tree<StarCell>, recv: Tree<bool>, at: int, k: nat)
    requires Octal(t) && Octal(recv) && SameShape(t, recv) && KidsLinked(t, u.progeny, recv, at, 8) && k <= 8
    requires Octal(u) && SameShape(u, recv)
    ensures Consecutive(ReceivingUpTo(t, recv, k), ReceivingUpTo(u, recv, k), at)
    decreases k
  {
    hide Consecutive, KidsLinked, Linked, Octal, Receiving, ReceivingUpTo, SameShape, Total;
    if k == 0 {
      NoneInTurn(t, u, recv, at);
    } else {
      LinkedInTurn(t, u, recv, at, k - 1);
      OneMoreReceiving(t, recv, k);
      OneMoreReceiving(u, recv, k);
      if t.progeny[k - 1].Some? {
        KidInTurn(t, u, recv, at, k);
        ConsecutiveSum(ReceivingUpTo(t, recv, k - 1), ReceivingUpTo(u, recv, k - 1),
                       Receiving(t.progeny[k - 1].cell, recv.progeny[k - 1].cell),
                       Receiving(u.progeny[k - 1].cell, recv.progeny[k - 1].cell), at);
      } else {
        SameKids(t, u, recv, at, k);
      }
    }
  }

  lemma NoneInTurn(t: Tree<StarCell>, u: Tree<StarCell>, recv: Tree<bool>, at: int)
    requires Octal(t) && Octal(recv) && SameShape(t, recv) && Octal(u) && SameShape(u, recv)
    ensures Consecutive(ReceivingUpTo(t, recv, 0), ReceivingUpTo(u, recv, 0), at)
  {
  }

  lemma SameKids(t: Tree<StarCell>, u: Tree<StarCell>, recv: Tree<bool>, at: int, k: nat)
    requires Octal(t) && Octal(recv) && SameShape(t, recv) && KidsLinked(t, u.progeny, recv, at, 8) && 0 < k <= 8
    ensures |t.progeny| == 8 == |u.progeny| && (u.progeny[k - 1].Some? <==> t.progeny[k - 1].Some?)
  {
    hide Linked;
  }
}
