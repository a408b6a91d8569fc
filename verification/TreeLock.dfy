/**
 The hierarchical cell lock: cell_locktree and cell_unlocktree, run by any number of threads on
 any forest of cells.  Every access to shared memory (reading a hold counter, an attempt to take a
 lock, an atomic increment or decrement, an unlock) is one atomic step, and a run interleaves the
 steps of all threads in any order.

 Cells are numbered so that a parent comes before its children; -1 stands for "no parent".
 */
module TreeLock {
  type Forest = p: seq<int> | forall i :: 0 <= i < |p| ==> -1 <= p[i] < i witness []

  /** Where a thread stands.  `c` is the cell the thread wants or owns, `f` the cell its climbing
      finger is on, `g` the next cell whose hold is to be dropped. */
  datatype Phase =
    | Idle
    | Peek(c: int)                  // about to read c's hold for the first time
    | TryOwn(c: int)                // about to try to lock c
    | Recheck(c: int)               // has c's lock, about to read c's hold again
    | Bail(c: int)                  // c was held in the meantime: about to unlock c
    | Climb(c: int, f: int)         // about to try to lock the finger (or done when f < 0)
    | Raise(c: int, f: int)         // has the finger's lock, about to increment its hold
    | Drop(c: int, f: int)          // has incremented, about to unlock the finger
    | Undo(c: int, g: int, f: int)  // finger f was locked by someone: about to drop the hold on g
    | GiveUp(c: int)                // all holds dropped again, about to unlock c
    | Owner(c: int)                 // cell_locktree returned 0
    | Release(g: int)               // has unlocked its cell, about to drop the hold on g

  /** `owner[c]` is the thread that has c's lock, or -1.  The C lock only stores taken or free. */
  datatype State = State(owner: seq<int>, hold: seq<int>, thread: seq<Phase>)

  function Init(p: Forest, threads: nat): State {
    State(seq(|p|, _ => -1), seq(|p|, _ => 0), seq(threads, _ => Idle))
  }

  ghost predicate Shaped(p: Forest, s: State) {
    && |s.owner| == |p|
    && |s.hold| == |p|
    && forall t :: 0 <= t < |s.thread| ==> PhaseOk(p, s.thread[t])
  }

  /** The cells from `x` upwards, `stop` excluded. */
  ghost function PathTo(p: Forest, x: int, stop: int): (r: set<int>)
    ensures forall y :: y in r ==> 0 <= y <= x && y < |p|
    decreases x + 1
  {
    if 0 <= x < |p| && x != stop then {x} + PathTo(p, p[x], stop) else {}
  }

  /** The strict ancestors of `c`. */
  ghost function Ancestors(p: Forest, c: int): set<int>
    requires 0 <= c < |p|
  {
    PathTo(p, p[c], -1)
  }

  ghost predicate OnPath(p: Forest, x: int, f: int) {
    f == -1 || f in PathTo(p, x, -1)
  }

  ghost predicate PhaseOk(p: Forest, h: Phase) {
    match h
    case Idle => true
    case Peek(c) => 0 <= c < |p|
    case TryOwn(c) => 0 <= c < |p|
    case Recheck(c) => 0 <= c < |p|
    case Bail(c) => 0 <= c < |p|
    case Climb(c, f) => 0 <= c < |p| && OnPath(p, p[c], f)
    case Raise(c, f) => 0 <= c < |p| && f in Ancestors(p, c)
    case Drop(c, f) => 0 <= c < |p| && f in Ancestors(p, c)
    case Undo(c, g, f) => 0 <= c < |p| && g != f && f in Ancestors(p, c) && f in PathTo(p, g, -1) && OnPath(p, p[c], g)
    case GiveUp(c) => 0 <= c < |p|
    case Owner(c) => 0 <= c < |p|
    case Release(g) => 0 <= g < |p|
  }

  /** The ancestors on which a thread currently has a hold: it climbs, undoes, owns or releases. */
  ghost function Held(p: Forest, h: Phase): set<int>
    requires PhaseOk(p, h)
  {
    match h
    case Climb(c, f) => PathTo(p, p[c], f)
    case Raise(c, f) => PathTo(p, p[c], f)
    case Drop(c, f) => PathTo(p, p[c], f) + {f}
    case Undo(c, g, f) => PathTo(p, g, f)
    case Owner(c) => Ancestors(p, c)
    case Release(g) => PathTo(p, g, -1)
    case _ => {}
  }

  /** The cells whose lock a thread has. */
  ghost function Locked(h: Phase): set<int> {
    match h
    case Recheck(c) => {c}
    case Bail(c) => {c}
    case Climb(c, f) => {c}
    case Raise(c, f) => {c, f}
    case Drop(c, f) => {c, f}
    case Undo(c, g, f) => {c}
    case GiveUp(c) => {c}
    case Owner(c) => {c}
    case _ => {}
  }

  /** Past the second look at the hold and still in possession of c's lock. */
  ghost predicate PastRecheck(h: Phase, c: int) {
    match h
    case Climb(d, _) => d == c
    case Raise(d, _) => d == c
    case Drop(d, _) => d == c
    case Undo(d, _, _) => d == c
    case GiveUp(d) => d == c
    case Owner(d) => d == c
    case _ => false
  }

  /** What one thread does next: its new phase and the effect on the two shared arrays.  `wish` is
      the cell an idle thread asks for. */
  function Step(p: Forest, s: State, t: nat, wish: int): State
    requires Shaped(p, s) && t < |s.thread|
  {
    match s.thread[t]
    case Idle =>
      if 0 <= wish < |p| then s.(thread := s.thread[t := Peek(wish)]) else s
    case Peek(c) =>
      s.(thread := s.thread[t := if s.hold[c] != 0 then Idle else TryOwn(c)])
    case TryOwn(c) =>
      if s.owner[c] != -1 then s.(thread := s.thread[t := Idle])
      else s.(owner := s.owner[c := t], thread := s.thread[t := Recheck(c)])
    case Recheck(c) =>
      s.(thread := s.thread[t := if s.hold[c] != 0 then Bail(c) else Climb(c, p[c])])
    case Bail(c) =>
      s.(owner := s.owner[c := -1], thread := s.thread[t := Idle])
    case Climb(c, f) =>
      if f < 0 then s.(thread := s.thread[t := Owner(c)])
      else if s.owner[f] != -1 then s.(thread := s.thread[t := UndoFrom(c, p[c], f)])
      else s.(owner := s.owner[f := t], thread := s.thread[t := Raise(c, f)])
    case Raise(c, f) =>
      s.(hold := s.hold[f := s.hold[f] + 1], thread := s.thread[t := Drop(c, f)])
    case Drop(c, f) =>
      s.(owner := s.owner[f := -1], thread := s.thread[t := Climb(c, p[f])])
    case Undo(c, g, f) =>
      s.(hold := s.hold[g := s.hold[g] - 1], thread := s.thread[t := UndoFrom(c, p[g], f)])
    case GiveUp(c) =>
      s.(owner := s.owner[c := -1], thread := s.thread[t := Idle])
    case Owner(c) =>
      s.(owner := s.owner[c := -1], thread := s.thread[t := ReleaseFrom(p[c])])
    case Release(g) =>
      s.(hold := s.hold[g := s.hold[g] - 1], thread := s.thread[t := ReleaseFrom(p[g])])
  }

  /** The undo loop stops when its finger reaches the cell that could not be locked. */
  function UndoFrom(c: int, g: int, f: int): Phase {
    if g == f then GiveUp(c) else Undo(c, g, f)
  }

  function ReleaseFrom(g: int): Phase {
    if g < 0 then Idle else Release(g)
  }

  /** lock_unlock reports an error when the lock it is given is not taken; a thread must moreover
      never open a lock that another thread has. */
  ghost predicate UnlocksForeignLock(p: Forest, s: State, t: nat)
    requires Shaped(p, s) && t < |s.thread|
  {
    match s.thread[t]
    case Bail(c) => s.owner[c] != t
    case Drop(c, f) => s.owner[f] != t
    case GiveUp(c) => s.owner[c] != t
    case Owner(c) => s.owner[c] != t
    case _ => false
  }

  /** The number of threads below `n` with a hold on `x`. */
  ghost function Holders(p: Forest, thread: seq<Phase>, x: int, n: nat): nat
    requires n <= |thread|
    requires forall t :: 0 <= t < |thread| ==> PhaseOk(p, thread[t])
  {
    if n == 0 then 0
    else Holders(p, thread, x, n - 1) + if x in Held(p, thread[n - 1]) then 1 else 0
  }

  ghost predicate Inv(p: Forest, s: State) {
    && Shaped(p, s)
    && LocksAgree(p, s)
    && HoldsAgree(p, s)
    && OwnersUnheld(p, s)
  }

  ghost predicate LocksAgree(p: Forest, s: State)
    requires Shaped(p, s)
  {
    && (forall x :: 0 <= x < |p| ==> -1 <= s.owner[x] < |s.thread|)
    && (forall t, x :: 0 <= t < |s.thread| && 0 <= x < |p| ==> (s.owner[x] == t <==> x in Locked(s.thread[t])))
  }

  ghost predicate HoldsAgree(p: Forest, s: State)
    requires Shaped(p, s)
  {
    forall x :: 0 <= x < |p| ==> s.hold[x] == Holders(p, s.thread, x, |s.thread|)
  }

  ghost predicate OwnersUnheld(p: Forest, s: State)
    requires Shaped(p, s)
  {
    forall t, x :: 0 <= t < |s.thread| && 0 <= x < |p| && PastRecheck(s.thread[t], x) ==> s.hold[x] == 0
  }

  // ----- paths -----

  lemma {:induction false} PathOfMember(p: Forest, x: int, f: int)
    requires f in PathTo(p, x, -1)
    ensures PathTo(p, x, p[f]) == PathTo(p, x, f) + {f}
    ensures f !in PathTo(p, x, f)
    ensures OnPath(p, x, p[f])
    decreases x + 1
  {
    if x == f {
      assert PathTo(p, p[x], p[f]) == {};
      if p[f] >= 0 { assert p[f] in PathTo(p, p[x], -1); }
    } else {
      PathOfMember(p, p[x], f);
      assert p[f] < f <= p[x] < x;
    }
  }

  lemma {:induction false} PathSplit(p: Forest, x: int, f: int)
    requires f in PathTo(p, x, -1)
    ensures PathTo(p, x, -1) == PathTo(p, x, f) + PathTo(p, f, -1)
    decreases x + 1
  {
    if x != f {
      PathSplit(p, p[x], f);
    }
  }

  // ----- counting holders -----

  lemma {:induction false} HoldersAfter(p: Forest, thread: seq<Phase>, t: nat, h: Phase, x: int, n: nat)
    requires n <= |thread| && t < |thread| && PhaseOk(p, h)
    requires forall u :: 0 <= u < |thread| ==> PhaseOk(p, thread[u])
    ensures Holders(p, thread[t := h], x, n) ==
            Holders(p, thread, x, n)
            + (if t < n && x in Held(p, h) then 1 else 0)
            - (if t < n && x in Held(p, thread[t]) then 1 else 0)
  {
    if n > 0 {
      HoldersAfter(p, thread, t, h, x, n - 1);
    }
  }

  lemma {:induction false} HolderExists(p: Forest, thread: seq<Phase>, x: int, n: nat) returns (t: nat)
    requires n <= |thread|
    requires forall u :: 0 <= u < |thread| ==> PhaseOk(p, thread[u])
    requires Holders(p, thread, x, n) > 0
    ensures t < n && x in Held(p, thread[t])
  {
    if x in Held(p, thread[n - 1]) {
      t := n - 1;
    } else {
      t := HolderExists(p, thread, x, n - 1);
    }
  }

  lemma {:induction false} HolderCounts(p: Forest, thread: seq<Phase>, x: int, n: nat, t: nat)
    requires t < n <= |thread|
    requires forall u :: 0 <= u < |thread| ==> PhaseOk(p, thread[u])
    requires x in Held(p, thread[t])
    ensures Holders(p, thread, x, n) > 0
  {
    if t < n - 1 {
      HolderCounts(p, thread, x, n - 1, t);
    }
  }

  lemma {:induction false} NoHolders(p: Forest, thread: seq<Phase>, x: int, n: nat)
    requires n <= |thread|
    requires forall u :: 0 <= u < |thread| ==> PhaseOk(p, thread[u])
    requires forall u :: 0 <= u < n ==> x !in Held(p, thread[u])
    ensures Holders(p, thread, x, n) == 0
  {
    if n > 0 {
      NoHolders(p, thread, x, n - 1);
    }
  }

  // ----- the invariant -----

  lemma InitInv(p: Forest, threads: nat)
    ensures Inv(p, Init(p, threads))
  {
    var s := Init(p, threads);
    forall x | 0 <= x < |p| ensures s.hold[x] == Holders(p, s.thread, x, threads) {
      NoHolders(p, s.thread, x, threads);
    }
  }

  /** How a step changes the set of cells a thread has a hold on: at most by the one cell whose
      counter it touches. */
  ghost predicate OneHoldMoves(p: Forest, s: State, s': State, t: nat)
    requires Shaped(p, s) && t < |s.thread|
  {
    && Shaped(p, s')
    && |s'.thread| == |s.thread|
    && s'.thread == s.thread[t := s'.thread[t]]
    && forall x :: 0 <= x < |p| ==>
      s'.hold[x] - s.hold[x] ==
      (if x in Held(p, s'.thread[t]) then 1 else 0) - (if x in Held(p, s.thread[t]) then 1 else 0)
  }

  lemma StepShape(p: Forest, s: State, t: nat, wish: int)
    requires Inv(p, s) && t < |s.thread|
    ensures OneHoldMoves(p, s, Step(p, s, t, wish), t)
  {
    hide Step, OneHoldMoves;
    match s.thread[t] {
      case Climb(_, _) => ClimbShape(p, s, t, wish);
      case Raise(_, _) => RaiseShape(p, s, t, wish);
      case Drop(_, _) => RaiseShape(p, s, t, wish);
      case Undo(_, _, _) => ReleaseShape(p, s, t, wish);
      case Owner(_) => ReleaseShape(p, s, t, wish);
      case Release(_) => ReleaseShape(p, s, t, wish);
      case _ => FirstShape(p, s, t, wish);
    }
  }

  lemma FirstShape(p: Forest, s: State, t: nat, wish: int)
    requires Inv(p, s) && t < |s.thread|
    requires var h := s.thread[t]; h.Idle? || h.Peek? || h.TryOwn? || h.Recheck? || h.Bail? || h.GiveUp?
    ensures OneHoldMoves(p, s, Step(p, s, t, wish), t)
  {
    hide Holders, HoldsAgree, LocksAgree, OwnersUnheld, PathTo;
    assert PhaseOk(p, s.thread[t]);
    if s.thread[t].Recheck? { StartOfPath(p, p[s.thread[t].c]); }
  }

  lemma ClimbShape(p: Forest, s: State, t: nat, wish: int)
    requires Inv(p, s) && t < |s.thread| && s.thread[t].Climb?
    ensures OneHoldMoves(p, s, Step(p, s, t, wish), t)
  {
    hide Holders, HoldsAgree, LocksAgree, OwnersUnheld, PathTo;
    assert PhaseOk(p, s.thread[t]);
    StartOfPath(p, p[s.thread[t].c]);
  }

  lemma RaiseShape(p: Forest, s: State, t: nat, wish: int)
    requires Inv(p, s) && t < |s.thread| && (s.thread[t].Raise? || s.thread[t].Drop?)
    ensures OneHoldMoves(p, s, Step(p, s, t, wish), t)
  {
    hide Holders, HoldsAgree, LocksAgree, OwnersUnheld, PathTo;
    var h := s.thread[t];
    assert PhaseOk(p, h);
    PathOfMember(p, p[h.c], h.f);
    StartOfPath(p, p[h.c]);
  }

  lemma ReleaseShape(p: Forest, s: State, t: nat, wish: int)
    requires Inv(p, s) && t < |s.thread| && (s.thread[t].Undo? || s.thread[t].Owner? || s.thread[t].Release?)
    ensures OneHoldMoves(p, s, Step(p, s, t, wish), t)
  {
    hide Holders, HoldsAgree, LocksAgree, OwnersUnheld, PathTo;
    assert PhaseOk(p, s.thread[t]);
    match s.thread[t] {
      case Undo(c, g, f) =>
        UndoShape(p, c, g, f);
        StartOfPath(p, p[g]);
      case Owner(c) =>
        StartOfPath(p, p[c]);
      case Release(g) =>
        StartOfPath(p, g);
        StartOfPath(p, p[g]);
    }
  }

  lemma StartOfPath(p: Forest, x: int)
    requires -1 <= x < |p|
    ensures OnPath(p, x, x) && PathTo(p, x, x) == {}
    ensures PathTo(p, -1, -1) == {}
    ensures x >= 0 ==> PathTo(p, x, -1) == {x} + PathTo(p, p[x], -1) && x !in PathTo(p, p[x], -1)
  {
  }

  lemma UndoShape(p: Forest, c: int, g: int, f: int)
    requires PhaseOk(p, Undo(c, g, f))
    ensures PathTo(p, g, f) == {g} + PathTo(p, p[g], f) && g !in PathTo(p, p[g], f)
    ensures f in PathTo(p, p[g], -1) && OnPath(p, p[c], p[g])
  {
    PathOfMember(p, p[c], g);
  }

  lemma StepHolds(p: Forest, s: State, t: nat, wish: int)
    requires Inv(p, s) && t < |s.thread|
    ensures var s' := Step(p, s, t, wish); Shaped(p, s') && HoldsAgree(p, s')
  {
    StepShape(p, s, t, wish);
    var s' := Step(p, s, t, wish);
    forall x | 0 <= x < |p| ensures s'.hold[x] == Holders(p, s'.thread, x, |s'.thread|) {
      HoldersAfter(p, s.thread, t, s'.thread[t], x, |s.thread|);
    }
  }

  /** A step takes at most locks that are free, and frees at most locks the thread has. */
  lemma StepLockShape(p: Forest, s: State, t: nat, wish: int)
    requires Inv(p, s) && t < |s.thread|
    ensures var s' := Step(p, s, t, wish);
      && |s'.thread| == |s.thread| && |s'.owner| == |p|
      && forall x :: 0 <= x < |p| ==>
        && (x in Locked(s'.thread[t]) && x !in Locked(s.thread[t]) ==> s.owner[x] == -1)
        && s'.owner[x] == if x in Locked(s'.thread[t]) then t else if x in Locked(s.thread[t]) then -1 else s.owner[x]
  {
    hide PathTo, Holders, HoldsAgree, OwnersUnheld;
    var h := s.thread[t];
    assert PhaseOk(p, h);
    assert forall x :: 0 <= x < |p| ==> (s.owner[x] == t <==> x in Locked(h));
    if h.Climb? || h.Raise? || h.Drop? {
      assert h.f < h.c;
    }
  }

  lemma StepLocks(p: Forest, s: State, t: nat, wish: int)
    requires Inv(p, s) && t < |s.thread|
    ensures var s' := Step(p, s, t, wish); Shaped(p, s') && LocksAgree(p, s')
  {
    StepShape(p, s, t, wish);
    StepLockShape(p, s, t, wish);
  }

  /** A hold on a cell can only grow while the climber has that cell's lock, and then nobody else is
      past the second look at it. */
  lemma StepUnheld(p: Forest, s: State, t: nat, wish: int)
    requires Inv(p, s) && t < |s.thread|
    ensures var s' := Step(p, s, t, wish); Shaped(p, s') && OwnersUnheld(p, s')
  {
    StepShape(p, s, t, wish);
    StepHolds(p, s, t, wish);
    var s' := Step(p, s, t, wish);
    forall u, x | 0 <= u < |s'.thread| && 0 <= x < |p| && PastRecheck(s'.thread[u], x) ensures s'.hold[x] == 0 {
      assert x in Locked(s'.thread[u]);
      if u != t {
        assert s.owner[x] == u <==> x in Locked(s.thread[u]);
        assert s.owner[x] == t <==> x in Locked(s.thread[t]);
        assert s.hold[x] == 0;
      }
    }
  }

  lemma StepInv(p: Forest, s: State, t: nat, wish: int)
    requires Inv(p, s) && t < |s.thread|
    ensures Inv(p, Step(p, s, t, wish))
  {
    StepHolds(p, s, t, wish);
    StepLocks(p, s, t, wish);
    StepUnheld(p, s, t, wish);
  }

  // ----- runs -----

  /** One entry of a schedule: which thread moves, and the cell it asks for if it is idle. */
  datatype Move = Move(thread: nat, wish: int)

  ghost predicate Schedulable(threads: nat, moves: seq<Move>) {
    forall i :: 0 <= i < |moves| ==> moves[i].thread < threads
  }

  /** The state after a whole schedule, from the state in which nobody has asked for anything. */
  ghost function After(p: Forest, threads: nat, moves: seq<Move>): (s: State)
    requires Schedulable(threads, moves)
    ensures Inv(p, s) && |s.thread| == threads
    decreases |moves|
  {
    if moves == [] then
      InitInv(p, threads);
      Init(p, threads)
    else
      var s := After(p, threads, moves[..|moves| - 1]);
      var m := moves[|moves| - 1];
      StepInv(p, s, m.thread, m.wish);
      StepShape(p, s, m.thread, m.wish);
      Step(p, s, m.thread, m.wish)
  }

  /** Owning a cell excludes every other thread from owning it, an ancestor or a descendant. */
  lemma Exclusion(p: Forest, threads: nat, moves: seq<Move>, t: nat, c: int, u: nat, d: int)
    requires Schedulable(threads, moves) && t < threads && u < threads && t != u
    requires After(p, threads, moves).thread[t] == Owner(c)
    requires After(p, threads, moves).thread[u] == Owner(d)
    ensures c != d && c !in Ancestors(p, d) && d !in Ancestors(p, c)
  {
    var s := After(p, threads, moves);
    assert PhaseOk(p, s.thread[t]) && PhaseOk(p, s.thread[u]);
    assert s.owner[c] == t <==> c in Locked(s.thread[t]);
    assert s.owner[d] == u <==> d in Locked(s.thread[u]);
    assert PastRecheck(s.thread[t], c) && PastRecheck(s.thread[u], d);
    if c in Ancestors(p, d) {
      HolderCounts(p, s.thread, c, threads, u);
    }
    if d in Ancestors(p, c) {
      HolderCounts(p, s.thread, d, threads, t);
    }
  }

  /** A cell's counter is exactly the number of threads with a hold on it, never negative. */
  lemma HoldAccounting(p: Forest, threads: nat, moves: seq<Move>, x: int)
    requires Schedulable(threads, moves) && 0 <= x < |p|
    ensures var s := After(p, threads, moves);
      && s.hold[x] == Holders(p, s.thread, x, threads)
      && 0 <= s.hold[x]
      && (forall t :: 0 <= t < threads && PastRecheck(s.thread[t], x) ==> s.hold[x] == 0)
  {
    assert Inv(p, After(p, threads, moves));
  }

  /** No unlock ever fails, and no thread ever opens a lock it does not have. */
  lemma UnlocksAreOwn(p: Forest, threads: nat, moves: seq<Move>, t: nat)
    requires Schedulable(threads, moves) && t < threads
    ensures !UnlocksForeignLock(p, After(p, threads, moves), t)
  {
    var s := After(p, threads, moves);
    assert LocksAgree(p, s) && PhaseOk(p, s.thread[t]);
    match s.thread[t] {
      case Bail(c) => assert s.owner[c] == t <==> c in Locked(s.thread[t]);
      case Drop(c, f) => assert s.owner[f] == t <==> f in Locked(s.thread[t]);
      case GiveUp(c) => assert s.owner[c] == t <==> c in Locked(s.thread[t]);
      case Owner(c) => assert s.owner[c] == t <==> c in Locked(s.thread[t]);
      case _ =>
    }
  }

  lemma OwnerHasLock(p: Forest, s: State, x: int)
    requires Shaped(p, s) && LocksAgree(p, s) && 0 <= x < |p| && s.owner[x] != -1
    ensures 0 <= s.owner[x] < |s.thread| && x in Locked(s.thread[s.owner[x]])
  {
    var u := s.owner[x];
    assert s.owner[x] == u <==> x in Locked(s.thread[u]);
  }

  lemma AllIdle(p: Forest, s: State)
    requires Inv(p, s) && forall u :: 0 <= u < |s.thread| ==> s.thread[u] == Idle
    ensures s == Init(p, |s.thread|)
  {
    forall x | 0 <= x < |p| ensures s.hold[x] == 0 && s.owner[x] == -1 {
      NoHolders(p, s.thread, x, |s.thread|);
      if s.owner[x] != -1 { OwnerHasLock(p, s, x); }
    }
    assert s.thread == Init(p, |s.thread|).thread;
  }

  /** When everybody is done nothing is left behind: the shared state is the initial one. */
  lemma Quiescence(p: Forest, threads: nat, moves: seq<Move>)
    requires Schedulable(threads, moves)
    requires forall t :: 0 <= t < threads ==> After(p, threads, moves).thread[t] == Idle
    ensures After(p, threads, moves) == Init(p, threads)
  {
    AllIdle(p, After(p, threads, moves));
  }

  // ----- attempts end, and fail only for a reason -----

  /** A bound on the steps a thread still needs to finish its attempt, undo or release. */
  ghost function Budget(p: Forest, h: Phase): nat
    requires PhaseOk(p, h)
  {
    match h
    case Idle => 0
    case Peek(c) => 4 * c + 5
    case TryOwn(c) => 4 * c + 4
    case Recheck(c) => 4 * c + 3
    case Bail(_) => 1
    case Climb(c, f) => 3 * (f + 1) + c + 2
    case Raise(c, f) => 3 * f + c + 4
    case Drop(c, f) => 3 * f + c + 3
    case Undo(_, g, _) => g + 2
    case GiveUp(_) => 1
    case Owner(_) => 0
    case Release(g) => g + 1
  }

  /** cell_locktree and cell_unlocktree never wait: every step a thread takes inside them brings it
      closer to returning, whatever the others do. */
  lemma NeverWaits(p: Forest, s: State, t: nat, wish: int)
    requires Inv(p, s) && t < |s.thread|
    requires !s.thread[t].Idle? && !s.thread[t].Owner?
    ensures var s' := Step(p, s, t, wish);
      Shaped(p, s') && |s'.thread| == |s.thread| && Budget(p, s'.thread[t]) < Budget(p, s.thread[t])
  {
    StepShape(p, s, t, wish);
    var h := s.thread[t];
    assert PhaseOk(p, h);
    hide Step, Budget, PathTo, Held, Holders, HoldsAgree, LocksAgree, OwnersUnheld, PhaseOk;
    if h.Climb? || h.Raise? || h.Drop? {
      ClimbBudget(p, s, t, wish);
    } else {
      OtherBudget(p, s, t, wish);
    }
  }

  lemma ClimbBudget(p: Forest, s: State, t: nat, wish: int)
    requires Shaped(p, s) && t < |s.thread| && Shaped(p, Step(p, s, t, wish))
    requires |Step(p, s, t, wish).thread| == |s.thread|
    requires var h := s.thread[t]; h.Climb? || h.Raise? || h.Drop?
    ensures Budget(p, Step(p, s, t, wish).thread[t]) < Budget(p, s.thread[t])
  {
    hide PathTo;
    assert PhaseOk(p, s.thread[t]);
  }

  lemma OtherBudget(p: Forest, s: State, t: nat, wish: int)
    requires Shaped(p, s) && t < |s.thread| && Shaped(p, Step(p, s, t, wish))
    requires |Step(p, s, t, wish).thread| == |s.thread|
    requires var h := s.thread[t]; !h.Idle? && !h.Owner? && !h.Climb? && !h.Raise? && !h.Drop?
    ensures Budget(p, Step(p, s, t, wish).thread[t]) < Budget(p, s.thread[t])
  {
    hide PathTo;
    assert PhaseOk(p, s.thread[t]);
  }

  /** The thread has just learnt that its attempt will not succeed. */
  ghost predicate Defeated(before: Phase, after: Phase) {
    || (before.Peek? && after.Idle?)
    || (before.TryOwn? && after.Idle?)
    || (before.Recheck? && after.Bail?)
    || (before.Climb? && (after.Undo? || after.GiveUp?))
  }

  /** No attempt fails without cause: another thread has a hold on the wanted cell, or has the lock
      of that cell or of one of its ancestors. */
  lemma NoSpuriousDefeat(p: Forest, s: State, t: nat, wish: int) returns (u: nat)
    requires Inv(p, s) && t < |s.thread|
    requires Defeated(s.thread[t], Step(p, s, t, wish).thread[t])
    ensures u < |s.thread| && u != t
    ensures var c := s.thread[t].c;
      || c in Held(p, s.thread[u])
      || c in Locked(s.thread[u])
      || exists f :: f in Ancestors(p, c) && f in Locked(s.thread[u])
  {
    var h := s.thread[t];
    assert PhaseOk(p, h);
    if h.Peek? || h.Recheck? {
      if Holders(p, s.thread, h.c, |s.thread|) == 0 {
        assert false;
      }
      u := HolderExists(p, s.thread, h.c, |s.thread|);
    } else if h.TryOwn? {
      u := s.owner[h.c];
      assert s.owner[h.c] == u <==> h.c in Locked(s.thread[u]);
      assert s.owner[h.c] == t <==> h.c in Locked(s.thread[t]);
    } else {
      u := s.owner[h.f];
      assert h.f in Ancestors(p, h.c);
      assert s.owner[h.f] == u <==> h.f in Locked(s.thread[u]);
      assert s.owner[h.f] == t <==> h.f in Locked(s.thread[t]);
    }
  }

  /** `n` steps of thread `t` with nobody else moving. */
  ghost function Alone(p: Forest, s: State, t: nat, n: nat): (s': State)
    requires Inv(p, s) && t < |s.thread|
    ensures Inv(p, s') && |s'.thread| == |s.thread|
    decreases n
  {
    if n == 0 then s
    else
      StepInv(p, s, t, -1);
      StepShape(p, s, t, -1);
      Alone(p, Step(p, s, t, -1), t, n - 1)
  }

  /** With every other thread idle, asking for a cell ends in owning it. */
  lemma {:induction false} Uncontended(p: Forest, s: State, t: nat) returns (n: nat)
    requires Inv(p, s) && t < |s.thread|
    requires forall u :: 0 <= u < |s.thread| && u != t ==> s.thread[u] == Idle
    requires s.thread[t].Peek? || s.thread[t].TryOwn? || s.thread[t].Recheck?
          || s.thread[t].Climb? || s.thread[t].Raise? || s.thread[t].Drop?
    ensures n <= Budget(p, s.thread[t])
    ensures Alone(p, s, t, n).thread[t] == Owner(s.thread[t].c)
    decreases Budget(p, s.thread[t])
  {
    StepInv(p, s, t, -1);
    StepShape(p, s, t, -1);
    NeverWaits(p, s, t, -1);
    var s' := Step(p, s, t, -1);
    if Defeated(s.thread[t], s'.thread[t]) {
      var u := NoSpuriousDefeat(p, s, t, -1);
      assert false;
    } else if s'.thread[t].Owner? {
      n := 1;
      assert Alone(p, s', t, 0) == s';
    } else {
      var m := Uncontended(p, s', t);
      n := m + 1;
    }
  }

  // ----- what is asked for is what one gets -----

  /** The cell an attempt is about. */
  predicate IsAbout(h: Phase, c: int) {
    match h
    case Peek(d) => d == c
    case TryOwn(d) => d == c
    case Recheck(d) => d == c
    case Bail(d) => d == c
    case Climb(d, _) => d == c
    case Raise(d, _) => d == c
    case Drop(d, _) => d == c
    case Undo(d, _, _) => d == c
    case GiveUp(d) => d == c
    case Owner(d) => d == c
    case _ => false
  }

  /** An attempt begins with the cell wished for, and is about that cell until it has failed or the cell has been
      unlocked again. */
  lemma SameCell(p: Forest, s: State, t: nat, wish: int, c: int)
    requires Inv(p, s) && t < |s.thread|
    requires if s.thread[t].Idle? then wish == c && 0 <= c < |p| else IsAbout(s.thread[t], c)
    ensures var h := Step(p, s, t, wish).thread[t];
      if s.thread[t].Owner? then h.Idle? || h.Release? else h.Idle? || IsAbout(h, c)
    ensures s.thread[t].Idle? ==> Step(p, s, t, wish).thread[t] == Peek(c)
  {
    hide PathTo, Held, Holders, HoldsAgree, LocksAgree, OwnersUnheld;
    assert PhaseOk(p, s.thread[t]);
  }

  /** With every other thread idle, a thread that wishes for a cell ends up owning that cell. */
  lemma WishGranted(p: Forest, s: State, t: nat, c: int) returns (n: nat)
    requires Inv(p, s) && t < |s.thread| && 0 <= c < |p|
    requires forall u :: 0 <= u < |s.thread| ==> s.thread[u] == Idle
    ensures n <= 4 * c + 5 && Inv(p, Step(p, s, t, c)) && |Step(p, s, t, c).thread| == |s.thread|
    ensures Alone(p, Step(p, s, t, c), t, n).thread[t] == Owner(c)
  {
    StepInv(p, s, t, c);
    StepShape(p, s, t, c);
    n := Uncontended(p, Step(p, s, t, c), t);
  }

  // ----- unlocking -----

  /** What is left to do while the holds are dropped. */
  lemma {:induction false} ReleaseAlone(p: Forest, s: State, t: nat, g: int) returns (n: nat)
    requires Inv(p, s) && t < |s.thread| && -1 <= g < |p| && s.thread[t] == ReleaseFrom(g)
    ensures n <= g + 1
    ensures var s' := Alone(p, s, t, n);
      && s'.thread == s.thread[t := Idle] && s'.owner == s.owner
      && |s'.hold| == |s.hold| == |p|
      && forall x :: 0 <= x < |p| ==> s'.hold[x] == s.hold[x] - if x in PathTo(p, g, -1) then 1 else 0
    decreases g + 1
  {
    StartOfPath(p, g);
    if g < 0 {
      n := 0;
      assert s.thread[t := Idle] == s.thread;
    } else {
      StepInv(p, s, t, -1);
      StepShape(p, s, t, -1);
      var s1 := Step(p, s, t, -1);
      assert s1.hold == s.hold[g := s.hold[g] - 1] && s1.thread == s.thread[t := ReleaseFrom(p[g])];
      var m := ReleaseAlone(p, s1, t, p[g]);
      n := m + 1;
      assert s1.thread[t := Idle] == s.thread[t := Idle];
    }
  }

  /** cell_unlocktree with nobody else moving: the cell is unlocked, each of its ancestors has one hold less, and
      nothing else has changed. */
  lemma UnlockAlone(p: Forest, s: State, t: nat, c: int) returns (n: nat)
    requires Inv(p, s) && t < |s.thread| && s.thread[t] == Owner(c)
    ensures n <= c + 1 && 0 <= c < |p|
    ensures var s' := Alone(p, s, t, n);
      && s'.thread == s.thread[t := Idle] && |s.owner| == |p| && s'.owner == s.owner[c := -1]
      && |s'.hold| == |s.hold| == |p|
      && forall x :: 0 <= x < |p| ==> s'.hold[x] == s.hold[x] - if x in Ancestors(p, c) then 1 else 0
  {
    assert PhaseOk(p, s.thread[t]);
    StepInv(p, s, t, -1);
    StepShape(p, s, t, -1);
    var s1 := Step(p, s, t, -1);
    assert s1.owner == s.owner[c := -1] && s1.hold == s.hold && s1.thread == s.thread[t := ReleaseFrom(p[c])];
    var m := ReleaseAlone(p, s1, t, p[c]);
    n := m + 1;
    assert s1.thread[t := Idle] == s.thread[t := Idle];
  }

  /** Locking and unlocking a cell with nobody else about leaves everything as it was. */
  lemma LockAndUnlock(p: Forest, s: State, t: nat, c: int) returns (n: nat, m: nat)
    requires Inv(p, s) && t < |s.thread| && 0 <= c < |p|
    requires forall u :: 0 <= u < |s.thread| ==> s.thread[u] == Idle
    ensures Inv(p, Step(p, s, t, c)) && |Step(p, s, t, c).thread| == |s.thread|
    ensures var s1 := Alone(p, Step(p, s, t, c), t, n); s1.thread[t] == Owner(c) && Alone(p, s1, t, m) == s
  {
    n := WishGranted(p, s, t, c);
    var s1 := Alone(p, Step(p, s, t, c), t, n);
    m := UnlockAlone(p, s1, t, c);
    var s2 := Alone(p, s1, t, m);
    AloneOthers(p, Step(p, s, t, c), t, n);
    StepShape(p, s, t, c);
    assert s2.thread == s.thread;
    AllIdle(p, s);
    AllIdle(p, s2);
  }

  lemma {:induction false} AloneOthers(p: Forest, s: State, t: nat, n: nat)
    requires Inv(p, s) && t < |s.thread|
    ensures forall u :: 0 <= u < |s.thread| && u != t ==> Alone(p, s, t, n).thread[u] == s.thread[u]
    decreases n
  {
    if n > 0 {
      StepInv(p, s, t, -1);
      StepShape(p, s, t, -1);
      AloneOthers(p, Step(p, s, t, -1), t, n - 1);
    }
  }

  /** A schedule, from any state. */
  ghost function Run(p: Forest, s: State, moves: seq<Move>): (r: State)
    requires Inv(p, s) && Schedulable(|s.thread|, moves)
    ensures Inv(p, r) && |r.thread| == |s.thread|
    decreases |moves|
  {
    if moves == [] then s
    else
      var m := moves[0];
      StepInv(p, s, m.thread, m.wish);
      StepShape(p, s, m.thread, m.wish);
      Run(p, Step(p, s, m.thread, m.wish), moves[1..])
  }

  /** How many of the moves are those of `t`. */
  function OwnMoves(moves: seq<Move>, t: nat): nat {
    if moves == [] then 0 else (if moves[0].thread == t then 1 else 0) + OwnMoves(moves[1..], t)
  }

  /** How many own moves an owner needs until cell_unlocktree has returned. */
  ghost function Unlocking(p: Forest, h: Phase): nat
    requires PhaseOk(p, h)
  {
    match h
    case Owner(c) => c + 1
    case Release(g) => g + 1
    case _ => 0
  }

  /** Whatever the others do in between, an unlock returns after at most as many own steps as there are cells up to
      the number of the cell, and its lock is open after the first of them. */
  lemma {:induction false} UnlockEnds(p: Forest, s: State, moves: seq<Move>, t: nat) returns (n: nat)
    requires Inv(p, s) && Schedulable(|s.thread|, moves) && t < |s.thread|
    requires s.thread[t].Owner? || s.thread[t].Release? || s.thread[t].Idle?
    requires OwnMoves(moves, t) >= Unlocking(p, s.thread[t])
    ensures n <= |moves| && Schedulable(|s.thread|, moves[..n]) && OwnMoves(moves[..n], t) <= Unlocking(p, s.thread[t])
    ensures Run(p, s, moves[..n]).thread[t] == Idle
    decreases |moves|
  {
    assert PhaseOk(p, s.thread[t]);
    if s.thread[t].Idle? {
      n := 0;
    } else {
      var m := moves[0];
      StepInv(p, s, m.thread, m.wish);
      StepShape(p, s, m.thread, m.wish);
      var s1 := Step(p, s, m.thread, m.wish);
      UnlockStep(p, s, m.thread, m.wish, t);
      var k := UnlockEnds(p, s1, moves[1..], t);
      n := k + 1;
      assert moves[..n][1..] == moves[1..][..k];
    }
  }

  lemma UnlockStep(p: Forest, s: State, u: nat, wish: int, t: nat)
    requires Inv(p, s) && u < |s.thread| && t < |s.thread| && (s.thread[t].Owner? || s.thread[t].Release?)
    ensures var s' := Step(p, s, u, wish);
      && |s'.thread| == |s.thread| && Shaped(p, s')
      && (u != t ==> s'.thread[t] == s.thread[t])
      && (u == t ==> s'.thread[t].Release? || s'.thread[t].Idle?)
      && (u == t ==> Unlocking(p, s'.thread[t]) < Unlocking(p, s.thread[t]))
    ensures u == t && s.thread[t].Owner? ==> 0 <= s.thread[t].c < |p| && Step(p, s, u, wish).owner[s.thread[t].c] == -1
  {
    StepShape(p, s, u, wish);
    hide PathTo, Held, Holders, HoldsAgree, LocksAgree, OwnersUnheld;
    assert PhaseOk(p, s.thread[t]);
  }
}
