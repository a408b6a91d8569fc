/**
 Where the particles of each top-level cell go in a snapshot file (io_write_cell_offsets): every rank fills in
 its own cells, all others stay zero, and the arrays are combined by a bitwise or.
 */
module FileOffsets {
  /** The rank of a top-level cell, and how many of its particles are written. */
  datatype TopCell = TopCell(rank: nat, count: nat)

  /** What rank `r` writes for the first `n` cells. */
  ghost function Written(cells: seq<TopCell>, r: nat, n: nat): nat
    requires n <= |cells|
  {
    if n == 0 then 0 else Written(cells, r, n - 1) + if cells[n - 1].rank == r then cells[n - 1].count else 0
  }

  /** The global offset of rank `r`: what the ranks before it write. */
  ghost function Before(cells: seq<TopCell>, r: nat): nat {
    if r == 0 then 0 else Before(cells, r - 1) + Written(cells, r - 1, |cells|)
  }

  /** The loop over the cells on one rank. */
  method LocalOffsets(cells: seq<TopCell>, rank: nat, globalOffset: nat) returns (counts: seq<nat>, offsets: seq<nat>)
    ensures |counts| == |offsets| == |cells|
    ensures forall i :: 0 <= i < |cells| ==> counts[i] == if cells[i].rank == rank then cells[i].count else 0
    ensures forall i :: 0 <= i < |cells| ==>
      offsets[i] == if cells[i].rank == rank then globalOffset + Written(cells, rank, i) else 0
  {
    counts, offsets := [], [];
    var localOffset := 0;
    for i := 0 to |cells|
      invariant |counts| == |offsets| == i && localOffset == Written(cells, rank, i)
      invariant forall j :: 0 <= j < i ==> counts[j] == if cells[j].rank == rank then cells[j].count else 0
      invariant forall j :: 0 <= j < i ==>
        offsets[j] == if cells[j].rank == rank then globalOffset + Written(cells, rank, j) else 0
    {
      if cells[i].rank == rank {
        counts := counts + [cells[i].count];
        offsets := offsets + [localOffset + globalOffset];
        localOffset := localOffset + cells[i].count;
      } else {
        counts := counts + [0];
        offsets := offsets + [0];
      }
    }
  }

  /** MPI_BOR, as far as it matters here. */
  ghost predicate KeepsZero(or: (nat, nat) -> nat) {
    forall x :: or(0, x) == x && or(x, 0) == x
  }

  /** The reduction over the first `n` ranks. */
  function Reduced(or: (nat, nat) -> nat, values: seq<nat>, n: nat): nat
    requires n <= |values|
  {
    if n == 0 then 0 else or(Reduced(or, values, n - 1), values[n - 1])
  }

  /** One contribution among zeros comes through. */
  lemma {:induction false} OnlyOne(or: (nat, nat) -> nat, values: seq<nat>, n: nat, r: nat)
    requires KeepsZero(or) && n <= |values| && r < |values| && forall q :: 0 <= q < n && q != r ==> values[q] == 0
    ensures Reduced(or, values, n) == if r < n then values[r] else 0
    decreases n
  {
    if n > 0 { OnlyOne(or, values, n - 1, r); }
  }

  function Column(arrays: seq<seq<nat>>, i: nat): (r: seq<nat>)
    requires forall q :: 0 <= q < |arrays| ==> i < |arrays[q]|
    ensures |r| == |arrays| && forall q :: 0 <= q < |r| ==> r[q] == arrays[q][i]
  {
    seq(|arrays|, q requires 0 <= q < |arrays| => arrays[q][i])
  }

  /** MPI_Allreduce, one entry of the arrays after the other. */
  method AllReduce(or: (nat, nat) -> nat, arrays: seq<seq<nat>>, n: nat) returns (r: seq<nat>)
    requires forall q :: 0 <= q < |arrays| ==> |arrays[q]| == n
    ensures |r| == n && forall i :: 0 <= i < n ==> r[i] == Reduced(or, Column(arrays, i), |arrays|)
  {
    r := [];
    for i := 0 to n
      invariant |r| == i && forall j :: 0 <= j < i ==> r[j] == Reduced(or, Column(arrays, j), |arrays|)
    {
      r := r + [Reduced(or, Column(arrays, i), |arrays|)];
    }
  }

  /** What the ranks have, one after the other. */
  ghost predicate Contributions(cells: seq<TopCell>, arrays: seq<seq<nat>>, all: seq<nat>) {
    && |all| == |cells|
    && (forall q :: 0 <= q < |arrays| ==> |arrays[q]| == |cells|)
    && (forall q, i :: 0 <= q < |arrays| && 0 <= i < |cells| ==>
          arrays[q][i] == if cells[i].rank == q then all[i] else 0)
  }

  lemma ReducedContributions(or: (nat, nat) -> nat, cells: seq<TopCell>, arrays: seq<seq<nat>>, all: seq<nat>, i: nat)
    requires KeepsZero(or) && Contributions(cells, arrays, all) && i < |cells| && cells[i].rank < |arrays|
    ensures Reduced(or, Column(arrays, i), |arrays|) == all[i]
  {
    var column, r := Column(arrays, i), cells[i].rank;
    forall q | 0 <= q < |arrays| ensures column[q] == if q == r then all[i] else 0 {
      assert column[q] == arrays[q][i];
    }
    hide KeepsZero, Contributions, Reduced;
    OnlyOne(or, column, |arrays|, r);
  }

  ghost function AllOffsets(cells: seq<TopCell>, globalOffsets: seq<nat>): (r: seq<nat>)
    requires forall i :: 0 <= i < |cells| ==> cells[i].rank < |globalOffsets|
    ensures |r| == |cells| && forall i :: 0 <= i < |r| ==>
      r[i] == globalOffsets[cells[i].rank] + Written(cells, cells[i].rank, i)
  {
    seq(|cells|, i requires 0 <= i < |cells| => globalOffsets[cells[i].rank] + Written(cells, cells[i].rank, i))
  }

  ghost function AllCounts(cells: seq<TopCell>): (r: seq<nat>)
    ensures |r| == |cells| && forall i :: 0 <= i < |r| ==> r[i] == cells[i].count
  {
    seq(|cells|, i requires 0 <= i < |cells| => cells[i].count)
  }

  /** All ranks together: what ends up in the file. */
  method CellOffsets(cells: seq<TopCell>, ranks: nat, or: (nat, nat) -> nat, globalOffsets: seq<nat>)
      returns (counts: seq<nat>, offsets: seq<nat>)
    requires KeepsZero(or) && |globalOffsets| == ranks && forall i :: 0 <= i < |cells| ==> cells[i].rank < ranks
    ensures |counts| == |offsets| == |cells|
    ensures forall i :: 0 <= i < |cells| ==> counts[i] == cells[i].count
    ensures forall i :: 0 <= i < |cells| ==>
      offsets[i] == globalOffsets[cells[i].rank] + Written(cells, cells[i].rank, i)
  {
    var allCounts: seq<seq<nat>>, allOffsets: seq<seq<nat>> := [], [];
    for r := 0 to ranks
      invariant |allCounts| == |allOffsets| == r
      invariant Contributions(cells, allCounts, AllCounts(cells))
      invariant Contributions(cells, allOffsets, AllOffsets(cells, globalOffsets))
    {
      var c, o := LocalOffsets(cells, r, globalOffsets[r]);
      hide Written, AllCounts, AllOffsets;
      allCounts, allOffsets := allCounts + [c], allOffsets + [o];
    }
    hide Reduced, Written;
    counts := AllReduce(or, allCounts, |cells|);
    offsets := AllReduce(or, allOffsets, |cells|);
    forall i | 0 <= i < |cells|
      ensures counts[i] == cells[i].count && offsets[i] == AllOffsets(cells, globalOffsets)[i]
    {
      ReducedContributions(or, cells, allCounts, AllCounts(cells), i);
      ReducedContributions(or, cells, allOffsets, AllOffsets(cells, globalOffsets), i);
    }
  }

  /** The stretch of the file for cell `i`. */
  ghost function Begin(cells: seq<TopCell>, i: nat): nat
    requires i < |cells|
  {
    Before(cells, cells[i].rank) + Written(cells, cells[i].rank, i)
  }

  ghost function End(cells: seq<TopCell>, i: nat): nat
    requires i < |cells|
  {
    Begin(cells, i) + cells[i].count
  }

  lemma {:induction false} WrittenUp(cells: seq<TopCell>, r: nat, m: nat, n: nat)
    requires m <= n <= |cells|
    ensures Written(cells, r, m) <= Written(cells, r, n)
    decreases n
  {
    if m < n { WrittenUp(cells, r, m, n - 1); }
  }

  lemma {:induction false} BeforeUp(cells: seq<TopCell>, q: nat, r: nat)
    requires q <= r
    ensures Before(cells, q) <= Before(cells, r)
    decreases r
  {
    if q < r { BeforeUp(cells, q, r - 1); }
  }

  /** The stretches of two cells do not overlap, and lie within the file. */
  lemma Apart(cells: seq<TopCell>, ranks: nat, i: nat, j: nat)
    requires i < |cells| && j < |cells| && i != j && forall k :: 0 <= k < |cells| ==> cells[k].rank < ranks
    ensures End(cells, i) <= Begin(cells, j) || End(cells, j) <= Begin(cells, i)
    ensures End(cells, i) <= Before(cells, ranks)
  {
    WrittenUp(cells, cells[i].rank, i + 1, |cells|);
    WrittenUp(cells, cells[j].rank, j + 1, |cells|);
    BeforeUp(cells, cells[i].rank + 1, ranks);
    if cells[i].rank == cells[j].rank {
      if i < j { WrittenUp(cells, cells[i].rank, i + 1, j); } else { WrittenUp(cells, cells[i].rank, j + 1, i); }
    } else if cells[i].rank < cells[j].rank {
      BeforeUp(cells, cells[i].rank + 1, cells[j].rank);
    } else {
      BeforeUp(cells, cells[j].rank + 1, cells[i].rank);
    }
  }

  /** Every place of the file belongs to some cell. */
  lemma {:induction false} Covered(cells: seq<TopCell>, ranks: nat, x: nat) returns (i: nat)
    requires x < Before(cells, ranks)
    ensures i < |cells| && cells[i].rank < ranks && Begin(cells, i) <= x < End(cells, i)
    decreases ranks
  {
    if x < Before(cells, ranks - 1) {
      i := Covered(cells, ranks - 1, x);
    } else {
      i := CoveredOn(cells, ranks - 1, |cells|, x - Before(cells, ranks - 1));
    }
  }

  lemma {:induction false} CoveredOn(cells: seq<TopCell>, r: nat, n: nat, x: nat) returns (i: nat)
    requires n <= |cells| && x < Written(cells, r, n)
    ensures i < n && cells[i].rank == r && Written(cells, r, i) <= x < Written(cells, r, i) + cells[i].count
    decreases n
  {
    if x < Written(cells, r, n - 1) {
      i := CoveredOn(cells, r, n - 1, x);
    } else {
      i := n - 1;
    }
  }
}
