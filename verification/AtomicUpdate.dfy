/**
 The compare-and-swap loops of atomic.h (atomic_min, atomic_max, atomic_add and their variants): any number of
 threads, each with one value to fold into a shared address, in any interleaving.
 */
module AtomicUpdate {
  /** Where a thread is: before the first read, about to compare and swap with what it has read, or through. */
  datatype Pc<T> = Start | Trying(seen: T) | Done

  /** `tries` counts the compare-and-swap attempts of each thread. */
  datatype State<T> = State(value: T, pcs: seq<Pc<T>>, tries: seq<nat>)

  /** The order of two folded values does not matter: true of min, max and addition. */
  ghost predicate Commutes<T(!new)>(op: (T, T) -> T) {
    forall a, x, y :: op(op(a, x), y) == op(op(a, y), x)
  }

  lemma MinMaxAndSumCommute()
    ensures Commutes((a: int, y: int) => if a < y then a else y)
    ensures Commutes((a: int, y: int) => if a > y then a else y)
    ensures Commutes((a: int, y: int) => a + y)
  {
  }

  ghost predicate Initial<T>(st: State<T>, init: T, n: nat) {
    && st.value == init && |st.pcs| == |st.tries| == n
    && forall i :: 0 <= i < n ==> st.pcs[i] == Start && st.tries[i] == 0
  }

  /** One atomic step of thread `i`: the read, or one attempt. */
  function Step<T(==)>(op: (T, T) -> T, ys: seq<T>, st: State<T>, i: nat): State<T>
    requires i < |ys| == |st.pcs| == |st.tries|
  {
    match st.pcs[i]
    case Start => st.(pcs := st.pcs[i := Trying(st.value)])
    case Trying(seen) =>
      var tried := st.(tries := st.tries[i := st.tries[i] + 1]);
      if st.value == seen then tried.(value := op(seen, ys[i]), pcs := st.pcs[i := Done])
      else tried.(pcs := st.pcs[i := Trying(st.value)])
    case Done => st
  }

  /** A run: who steps when. */
  function Run<T(==)>(op: (T, T) -> T, ys: seq<T>, st: State<T>, schedule: seq<nat>): (r: State<T>)
    requires |ys| == |st.pcs| == |st.tries| && forall j :: 0 <= j < |schedule| ==> schedule[j] < |ys|
    ensures |r.pcs| == |r.tries| == |ys|
    decreases |schedule|
  {
    if schedule == [] then st
    else Step(op, ys, Run(op, ys, st, schedule[..|schedule| - 1]), schedule[|schedule| - 1])
  }

  /** The values of the first `k` threads that are through, folded in the order of the threads. */
  ghost function FoldDone<T>(op: (T, T) -> T, ys: seq<T>, pcs: seq<Pc<T>>, init: T, k: nat): T
    requires k <= |ys| == |pcs|
  {
    if k == 0 then init
    else
      var r := FoldDone(op, ys, pcs, init, k - 1);
      if pcs[k - 1].Done? then op(r, ys[k - 1]) else r
  }

  ghost function Fold<T>(op: (T, T) -> T, ys: seq<T>, init: T): T {
    if ys == [] then init else op(Fold(op, ys[..|ys| - 1], init), ys[|ys| - 1])
  }

  ghost function NumDone<T>(pcs: seq<Pc<T>>): nat {
    if pcs == [] then 0 else NumDone(pcs[..|pcs| - 1]) + if pcs[|pcs| - 1].Done? then 1 else 0
  }

  /** Nothing is lost: the shared value is the fold of the values of those who are through.  And nobody fails for
      nothing: a thread has failed no more often than others have got through since it began. */
  ghost predicate Inv<T>(op: (T, T) -> T, ys: seq<T>, init: T, st: State<T>) {
    && |ys| == |st.pcs| == |st.tries|
    && st.value == FoldDone(op, ys, st.pcs, init, |ys|)
    && forall i :: 0 <= i < |ys| ==>
      && (st.pcs[i].Start? ==> st.tries[i] == 0)
      && (st.pcs[i].Trying? ==> st.tries[i] + (if st.pcs[i].seen == st.value then 0 else 1) <= NumDone(st.pcs))
      && (st.pcs[i].Done? ==> st.tries[i] <= NumDone(st.pcs))
  }

  lemma {:induction false} FoldOneMore<T(!new)>(op: (T, T) -> T, ys: seq<T>, pcs: seq<Pc<T>>, init: T, k: nat, i: nat)
    requires Commutes(op) && k <= |ys| == |pcs| && i < |ys| && !pcs[i].Done?
    ensures FoldDone(op, ys, pcs[i := Done], init, k) ==
      if i < k then op(FoldDone(op, ys, pcs, init, k), ys[i]) else FoldDone(op, ys, pcs, init, k)
    decreases k
  {
    if k > 0 { FoldOneMore(op, ys, pcs, init, k - 1, i); }
  }

  lemma {:induction false} FoldSame<T>(op: (T, T) -> T, ys: seq<T>, pcs: seq<Pc<T>>, qs: seq<Pc<T>>, init: T, k: nat)
    requires k <= |ys| == |pcs| == |qs| && forall i :: 0 <= i < k ==> (pcs[i].Done? <==> qs[i].Done?)
    ensures FoldDone(op, ys, pcs, init, k) == FoldDone(op, ys, qs, init, k)
    decreases k
  {
    if k > 0 { FoldSame(op, ys, pcs, qs, init, k - 1); }
  }

  lemma {:induction false} DoneOneMore<T>(pcs: seq<Pc<T>>, i: nat, pc: Pc<T>)
    requires i < |pcs| && !pcs[i].Done?
    ensures NumDone(pcs[i := pc]) == NumDone(pcs) + if pc.Done? then 1 else 0
    decreases |pcs|
  {
    var n := |pcs| - 1;
    if i < n {
      DoneOneMore(pcs[..n], i, pc);
      assert pcs[i := pc][..n] == pcs[..n][i := pc];
    } else {
      assert pcs[i := pc][..n] == pcs[..n];
    }
  }

  lemma StepKeepsInv<T(!new)>(op: (T, T) -> T, ys: seq<T>, init: T, st: State<T>, i: nat)
    requires Commutes(op) && Inv(op, ys, init, st) && i < |ys|
    ensures Inv(op, ys, init, Step(op, ys, st, i))
  {
    hide Commutes;
    match st.pcs[i]
    case Start =>
      DoneOneMore(st.pcs, i, Trying(st.value));
      FoldSame(op, ys, st.pcs, st.pcs[i := Trying(st.value)], init, |ys|);
    case Trying(seen) =>
      if st.value == seen {
        DoneOneMore(st.pcs, i, Done);
        FoldOneMore(op, ys, st.pcs, init, |ys|, i);
      } else {
        DoneOneMore(st.pcs, i, Trying(st.value));
        FoldSame(op, ys, st.pcs, st.pcs[i := Trying(st.value)], init, |ys|);
      }
    case Done =>
  }

  lemma {:induction false} InitialInv<T>(op: (T, T) -> T, ys: seq<T>, init: T, st: State<T>, k: nat)
    requires Initial(st, init, |ys|) && k <= |ys|
    ensures FoldDone(op, ys, st.pcs, init, k) == init
    ensures k == |ys| ==> Inv(op, ys, init, st)
    decreases k
  {
    if k > 0 { InitialInv(op, ys, init, st, k - 1); }
  }

  lemma {:induction false} RunKeepsInv<T(!new)>(op: (T, T) -> T, ys: seq<T>, init: T, st: State<T>, schedule: seq<nat>)
    requires Commutes(op) && Inv(op, ys, init, st) && forall j :: 0 <= j < |schedule| ==> schedule[j] < |ys|
    ensures Inv(op, ys, init, Run(op, ys, st, schedule))
    decreases |schedule|
  {
    if schedule != [] {
      var n := |schedule| - 1;
      RunKeepsInv(op, ys, init, st, schedule[..n]);
      StepKeepsInv(op, ys, init, Run(op, ys, st, schedule[..n]), schedule[n]);
    }
  }

  lemma {:induction false} AllFolded<T>(op: (T, T) -> T, ys: seq<T>, pcs: seq<Pc<T>>, init: T, k: nat)
    requires k <= |ys| == |pcs| && forall i :: 0 <= i < k ==> pcs[i].Done?
    ensures FoldDone(op, ys, pcs, init, k) == Fold(op, ys[..k], init)
    decreases k
  {
    if k > 0 {
      AllFolded(op, ys, pcs, init, k - 1);
      assert ys[..k][..k - 1] == ys[..k - 1];
    }
  }

  lemma {:induction false} AtMostAll<T>(pcs: seq<Pc<T>>)
    ensures NumDone(pcs) <= |pcs|
  {
    if pcs != [] { AtMostAll(pcs[..|pcs| - 1]); }
  }

  /** However the threads interleave: once all are through, all their values are in, each once. */
  lemma NothingLost<T(!new)>(op: (T, T) -> T, ys: seq<T>, init: T, st: State<T>, schedule: seq<nat>)
    requires Commutes(op) && Initial(st, init, |ys|) && forall j :: 0 <= j < |schedule| ==> schedule[j] < |ys|
    requires forall i :: 0 <= i < |ys| ==> Run(op, ys, st, schedule).pcs[i].Done?
    ensures Run(op, ys, st, schedule).value == Fold(op, ys, init)
  {
    InitialInv(op, ys, init, st, |ys|);
    RunKeepsInv(op, ys, init, st, schedule);
    AllFolded(op, ys, Run(op, ys, st, schedule).pcs, init, |ys|);
    assert ys[..|ys|] == ys;
  }

  /** No thread needs more attempts than there are threads. */
  lemma FewTries<T(!new)>(op: (T, T) -> T, ys: seq<T>, init: T, st: State<T>, schedule: seq<nat>, i: nat)
    requires Commutes(op) && Initial(st, init, |ys|) && forall j :: 0 <= j < |schedule| ==> schedule[j] < |ys|
    requires i < |ys|
    ensures Run(op, ys, st, schedule).tries[i] <= |ys|
  {
    InitialInv(op, ys, init, st, |ys|);
    RunKeepsInv(op, ys, init, st, schedule);
    AtMostAll(Run(op, ys, st, schedule).pcs);
  }

  // ----- every run ends -----

  /** Steps taken so far: one read for everybody who has begun, and the attempts. */
  ghost function Work<T>(st: State<T>): nat
    requires |st.pcs| == |st.tries|
    decreases |st.pcs|
  {
    if st.pcs == [] then 0
    else
      var n := |st.pcs| - 1;
      Work(State(st.value, st.pcs[..n], st.tries[..n])) + st.tries[n] + if st.pcs[n].Start? then 0 else 1
  }

  lemma {:induction false} OneMoreStep<T>(st: State<T>, next: State<T>, i: nat)
    requires |st.pcs| == |st.tries| && i < |st.pcs| && |next.pcs| == |next.tries| == |st.pcs|
    requires next.pcs == st.pcs[i := next.pcs[i]] && next.tries == st.tries[i := next.tries[i]]
    requires next.tries[i] + (if next.pcs[i].Start? then 0 else 1) == st.tries[i] + (if st.pcs[i].Start? then 0 else 1)
      + 1
    ensures Work(next) == Work(st) + 1
    decreases |st.pcs|
  {
    var n := |st.pcs| - 1;
    var s1, n1 := State(st.value, st.pcs[..n], st.tries[..n]), State(next.value, next.pcs[..n], next.tries[..n]);
    if i < n {
      OneMoreStep(s1, n1, i);
    } else {
      assert s1.pcs == n1.pcs && s1.tries == n1.tries;
      SameWork(s1, n1);
    }
  }

  lemma {:induction false} SameWork<T>(s: State<T>, t: State<T>)
    requires s.pcs == t.pcs && s.tries == t.tries && |s.pcs| == |s.tries|
    ensures Work(s) == Work(t)
    decreases |s.pcs|
  {
    if s.pcs != [] {
      var n := |s.pcs| - 1;
      SameWork(State(s.value, s.pcs[..n], s.tries[..n]), State(t.value, t.pcs[..n], t.tries[..n]));
    }
  }

  lemma {:induction false} WorkBounded<T>(st: State<T>, m: nat)
    requires |st.pcs| == |st.tries| && forall i :: 0 <= i < |st.pcs| ==> st.tries[i] <= m
    ensures Work(st) <= |st.pcs| * (m + 1)
    decreases |st.pcs|
  {
    if st.pcs != [] {
      var n := |st.pcs| - 1;
      WorkBounded(State(st.value, st.pcs[..n], st.tries[..n]), m);
      assert (n + 1) * (m + 1) == n * (m + 1) + (m + 1);
    }
  }

  /** A schedule that only ever wakes threads that are not through. */
  ghost predicate Busy<T(!new)>(op: (T, T) -> T, ys: seq<T>, st: State<T>, schedule: seq<nat>)
    requires |ys| == |st.pcs| == |st.tries| && forall j :: 0 <= j < |schedule| ==> schedule[j] < |ys|
  {
    forall j :: 0 <= j < |schedule| ==> !Run(op, ys, st, schedule[..j]).pcs[schedule[j]].Done?
  }

  lemma {:induction false} WorkDone<T(!new)>(op: (T, T) -> T, ys: seq<T>, st: State<T>, schedule: seq<nat>)
    requires |ys| == |st.pcs| == |st.tries| && forall j :: 0 <= j < |schedule| ==> schedule[j] < |ys|
    requires Busy(op, ys, st, schedule)
    ensures Work(Run(op, ys, st, schedule)) == Work(st) + |schedule|
    decreases |schedule|
  {
    if schedule != [] {
      var n := |schedule| - 1;
      BusyBefore(op, ys, st, schedule);
      WorkDone(op, ys, st, schedule[..n]);
      hide Work, Busy;
      StepWorks(op, ys, Run(op, ys, st, schedule[..n]), schedule[n]);
    }
  }

  lemma BusyBefore<T(!new)>(op: (T, T) -> T, ys: seq<T>, st: State<T>, schedule: seq<nat>)
    requires |ys| == |st.pcs| == |st.tries| && forall j :: 0 <= j < |schedule| ==> schedule[j] < |ys|
    requires Busy(op, ys, st, schedule) && schedule != []
    ensures var n := |schedule| - 1;
      Busy(op, ys, st, schedule[..n]) && !Run(op, ys, st, schedule[..n]).pcs[schedule[n]].Done?
  {
    hide Run;
    var before := schedule[..|schedule| - 1];
    forall j | 0 <= j < |before| ensures !Run(op, ys, st, before[..j]).pcs[before[j]].Done? {
      assert before[..j] == schedule[..j];
    }
  }

  lemma StepWorks<T(!new)>(op: (T, T) -> T, ys: seq<T>, st: State<T>, i: nat)
    requires i < |ys| == |st.pcs| == |st.tries| && !st.pcs[i].Done?
    ensures Work(Step(op, ys, st, i)) == Work(st) + 1
  {
    hide Work;
    OneMoreStep(st, Step(op, ys, st, i), i);
  }

  /** n threads are all through after at most n reads and n * n attempts, whoever is scheduled. */
  lemma EveryRunEnds<T(!new)>(op: (T, T) -> T, ys: seq<T>, init: T, st: State<T>, schedule: seq<nat>)
    requires Commutes(op) && Initial(st, init, |ys|) && forall j :: 0 <= j < |schedule| ==> schedule[j] < |ys|
    requires Busy(op, ys, st, schedule)
    ensures |schedule| <= |ys| * (|ys| + 1)
  {
    WorkDone(op, ys, st, schedule);
    NoWork(st);
    var end := Run(op, ys, st, schedule);
    forall i | 0 <= i < |ys| ensures end.tries[i] <= |ys| { FewTries(op, ys, init, st, schedule, i); }
    WorkBounded(end, |ys|);
  }

  lemma {:induction false} NoWork<T>(st: State<T>)
    requires |st.pcs| == |st.tries| && forall i :: 0 <= i < |st.pcs| ==> st.pcs[i] == Start && st.tries[i] == 0
    ensures Work(st) == 0
    decreases |st.pcs|
  {
    if st.pcs != [] {
      var n := |st.pcs| - 1;
      NoWork(State(st.value, st.pcs[..n], st.tries[..n]));
    }
  }
}
