/**
 The store for the sorted indices of a cell (cell_malloc_hydro_sorts, cell_get_hydro_sorts,
 cell_free_hydro_sorts, and the same for stars): one array for all directions, with room only for those in
 use.  Where a direction is in it is found by counting the bits set below its own.

 A mask is a sequence of 13 booleans here.
 */
module SortStore {
  /** struct sort_entry */
  datatype Entry = Entry(i: int, d: real)

  type Mask = m: seq<bool> | |m| == 13 witness seq(13, i => false)

  function Or(a: Mask, b: Mask): (r: Mask)
    ensures forall j :: 0 <= j < 13 ==> (r[j] <==> a[j] || b[j])
  {
    seq(13, j requires 0 <= j < 13 => a[j] || b[j])
  }

  /** intrinsics_popcount of the bits below `j`. */
  function Rank(m: Mask, j: int): (r: nat)
    requires 0 <= j <= 13
    ensures r <= j
    decreases j
  {
    if j == 0 then 0 else Rank(m, j - 1) + if m[j - 1] then 1 else 0
  }

  lemma {:induction false} RankUp(m: Mask, i: int, j: int)
    requires 0 <= i <= j <= 13
    ensures Rank(m, i) <= Rank(m, j)
    ensures Rank(m, i) == Rank(m, j) <==> forall k :: i <= k < j ==> !m[k]
    decreases j - i
  {
    if i < j {
      RankUp(m, i, j - 1);
      if m[j - 1] { assert Rank(m, i) < Rank(m, j); } else { assert Rank(m, j) == Rank(m, j - 1); }
    }
  }

  /** Counting the bits is enough to see whether there is anything new. */
  lemma {:induction false} SameCountSameMask(a: Mask, b: Mask, j: int)
    requires 0 <= j <= 13
    ensures Rank(a, j) <= Rank(Or(a, b), j)
    ensures Rank(a, j) == Rank(Or(a, b), j) <==> forall k :: 0 <= k < j ==> (b[k] ==> a[k])
    decreases j
  {
    if j > 0 {
      SameCountSameMask(a, b, j - 1);
      assert Or(a, b)[j - 1] == (a[j - 1] || b[j - 1]);
      if b[j - 1] && !a[j - 1] {
        assert Rank(Or(a, b), j) == Rank(Or(a, b), j - 1) + 1;
        assert Rank(a, j) == Rank(a, j - 1);
      } else {
        assert Or(a, b)[j - 1] == a[j - 1];
      }
    }
  }

  /** Where the array of the given rank begins. */
  function Start(rank: nat, n: nat): nat { rank * n }

  lemma StartNext(rank: nat, n: nat)
    ensures Start(rank + 1, n) == Start(rank, n) + n
  {
  }

  lemma {:induction false} StartUp(a: nat, b: nat, n: nat)
    requires a < b
    ensures Start(a, n) + n <= Start(b, n)
    decreases b
  {
    StartNext(b - 1, n);
    if a < b - 1 { StartUp(a, b - 1, n); }
  }

  /** What the store holds, as a map from directions to their arrays. */
  ghost function Arrays(m: Mask, s: seq<Entry>, n: nat): map<int, seq<Entry>>
    requires |s| == Start(Rank(m, 13), n)
  {
    map j | 0 <= j < 13 && m[j] :: Slice(m, s, n, j)
  }

  ghost function Slice(m: Mask, s: seq<Entry>, n: nat, j: int): seq<Entry>
    requires |s| == Start(Rank(m, 13), n) && 0 <= j < 13 && m[j]
  {
    InBounds(m, j, n);
    s[Start(Rank(m, j), n)..Start(Rank(m, j), n) + n]
  }

  lemma InBounds(m: Mask, j: int, n: nat)
    requires 0 <= j < 13 && m[j]
    ensures Start(Rank(m, j), n) + n <= Start(Rank(m, 13), n)
  {
    RankUp(m, j, 13);
    StartUp(Rank(m, j), Rank(m, 13), n);
  }

  /** Two directions in use have separate arrays. */
  lemma Separate(m: Mask, i: int, j: int, n: nat)
    requires 0 <= i < j < 13 && m[i] && m[j]
    ensures Start(Rank(m, i), n) + n <= Start(Rank(m, j), n)
  {
    RankUp(m, i, j);
    StartUp(Rank(m, i), Rank(m, j), n);
  }

  /** The place computed for a direction that is not in use is that of another one, or the end of the store: the
      getter is right for the directions in use and for no others. */
  lemma WrongDirection(m: Mask, j: int, n: nat)
    requires 0 <= j < 13 && !m[j]
    ensures Start(Rank(m, j), n) == Start(Rank(m, 13), n)
      || exists k :: j < k < 13 && m[k] && Start(Rank(m, j), n) == Start(Rank(m, k), n)
  {
    RankUp(m, j, 13);
    if Rank(m, j) != Rank(m, 13) {
      var k :| j <= k < 13 && m[k] && forall i :: j <= i < k ==> !m[i];
      RankUp(m, j, k);
    }
  }

  /** More directions, those already there with what they held. */
  ghost predicate Grown(before: map<int, seq<Entry>>, after: map<int, seq<Entry>>, flags: Mask) {
    && after.Keys == before.Keys + (set j | 0 <= j < 13 && flags[j])
    && forall j :: j in before ==> after[j] == before[j]
  }

  class Sorts {
    /** The number of particles of the cell. */
    var count: nat
    var inUse: Mask
    var sort: array?<Entry>

    ghost predicate Valid()
      reads this
    {
      && (sort == null <==> Rank(inUse, 13) == 0)
      && (sort != null ==> sort.Length == Start(Rank(inUse, 13), count + 1))
    }

    ghost function Content(): seq<Entry>
      reads this, sort
    {
      if sort == null then [] else sort[..]
    }

    ghost function View(): map<int, seq<Entry>>
      reads this, sort
      requires Valid()
    {
      Arrays(inUse, Content(), count + 1)
    }

    constructor (count: nat)
      ensures Valid() && this.count == count && View() == map[]
    {
      this.count, inUse, sort := count, seq(13, i => false), null;
      new;
      RankUp(inUse, 0, 13);
    }

    /** cell_get_hydro_sorts: the place in the store where the array of a direction begins. */
    method Get(sid: int) returns (place: nat)
      requires Valid() && 0 <= sid < 13 && inUse[sid]
      ensures place == Start(Rank(inUse, sid), count + 1)
      ensures sort != null && place + count + 1 <= sort.Length && sid in View()
      ensures sort[place..place + count + 1] == View()[sid]
    {
      RankUp(inUse, sid, 13);
      InBounds(inUse, sid, count + 1);
      place := Rank(inUse, sid) * (count + 1);
    }

    /** An entry written through the getter. */
    method Put(sid: int, i: nat, e: Entry)
      requires Valid() && 0 <= sid < 13 && inUse[sid] && i <= count
      modifies sort
      ensures Valid() && sid in old(View()) && i < |old(View()[sid])|
      ensures View() == old(View())[sid := old(View()[sid])[i := e]]
    {
      hide Arrays, Rank, Slice;
      ghost var n, s := count + 1, Content();
      assert |s| == Start(Rank(inUse, 13), n) && View() == Arrays(inUse, s, n);
      InView(inUse, s, n, sid);
      var place := Get(sid);
      assert s == sort[..];
      assert place == Start(Rank(inUse, sid), n);
      sort[place + i] := e;
      Written(inUse, s, n, sid, i, e);
      assert Content() == s[place + i := e];
      assert Valid();
    }

    /** cell_free_hydro_sorts */
    method Free()
      requires sort == null ==> Rank(inUse, 13) == 0
      modifies this`inUse, this`sort
      ensures Valid() && sort == null && View() == map[]
    {
      if sort != null {
        sort := null;
        inUse := seq(13, i => false);
      }
      RankUp(inUse, 0, 13);
    }

    /** What the insertion of a star does to the store of each cell above it: the new count has another
        stride, so nothing in the store can stay. */
    method CountUp()
      requires Valid()
      modifies this
      ensures Valid() && count == old(count) + 1 && View() == map[]
    {
      count := count + 1;
      Free();
    }

    /** cell_malloc_hydro_sorts */
    method Malloc(flags: Mask)
      requires Valid()
      modifies this`inUse, this`sort
      ensures Valid() && Grown(old(View()), View(), flags)
      ensures inUse == Or(old(inUse), flags) && (sort == old(sort) || fresh(sort))
    {
      hide Arrays, Copied, Grown, Or, Rank;
      ghost var m, s, n := inUse, Content(), count + 1;
      assert |s| == Start(Rank(m, 13), n) && View() == Arrays(m, s, n);
      assert (sort != null ==> sort[..] == s) && (sort == null ==> s == [] && Rank(m, 13) == 0);
      SameCountSameMask(inUse, flags, 13);
      if sort != null {
        var wanted, already := Rank(Or(inUse, flags), 13), Rank(inUse, 13);
        if wanted == already {
          assert Or(inUse, flags) == inUse;
          NothingNew(inUse, s, n, flags);
          return;
        }
        assert wanted * n == Start(wanted, n);
        var newArray := new Entry[wanted * (count + 1)];
        var now := CopyOver(sort, newArray, inUse, flags, count + 1);
        GrownAfter(m, flags, s, newArray[..], n);
        sort := newArray;
        inUse := now;
      } else {
        inUse := flags;
        NoneYet(m, flags);
        var wanted := Rank(flags, 13);
        assert wanted * n == Start(wanted, n);
        if wanted != 0 {
          sort := new Entry[wanted * (count + 1)];
        }
        FirstOnes(m, s, flags, Content(), n);
      }
      assert Valid();
      assert View() == Arrays(inUse, Content(), n);
    }
  }

  /** The loop of cell_malloc_hydro_sorts that copies the existing arrays. */
  method CopyOver(src: array<Entry>, dst: array<Entry>, a: Mask, flags: Mask, n: nat) returns (now: Mask)
    requires src != dst && src.Length == Start(Rank(a, 13), n) && dst.Length == Start(Rank(Or(a, flags), 13), n)
    modifies dst
    ensures now == Or(a, flags)
    ensures Copied(a, now, src[..], dst[..], n, 13)
  {
    hide Copied, Or, Rank, Start;
    var from, to := 0, 0;
    now := a;
    ghost var wanted, was := Or(a, flags), src[..];
    CopyStarts(a, flags, was, dst[..], n);
    for j := 0 to 13
      invariant from == Rank(a, j) && to == Rank(wanted, j)
      invariant Between(now, a, wanted, j)
      invariant src[..] == was
      invariant Copied(a, wanted, was, dst[..], n, j)
    {
      OneOn(now, a, flags, j);
      if now[j] {
        CopyArray(src, dst, from, to, n, a, wanted, j);
        from := from + 1;
        to := to + 1;
      } else {
        NothingCopied(a, wanted, was, dst[..], n, j);
        if flags[j] {
          to := to + 1;
          now := now[j := true];
        }
      }
    }
    assert now == wanted;
  }

  lemma CopyStarts(a: Mask, flags: Mask, from: seq<Entry>, to: seq<Entry>, n: nat)
    ensures Rank(a, 0) == 0 == Rank(Or(a, flags), 0) && Between(a, a, Or(a, flags), 0)
    ensures Copied(a, Or(a, flags), from, to, n, 0)
  {
  }

  /** One array of the old store, copied into the new one. */
  method CopyArray(src: array<Entry>, dst: array<Entry>, from: nat, to: nat, n: nat, ghost a: Mask, ghost b: Mask,
        ghost j: int)
    requires 0 <= j < 13 && a[j] && b[j] && from == Rank(a, j) && to == Rank(b, j)
    requires forall k :: 0 <= k < 13 && a[k] ==> b[k]
    requires src != dst && src.Length == Start(Rank(a, 13), n) && dst.Length == Start(Rank(b, 13), n)
    requires Copied(a, b, src[..], dst[..], n, j)
    modifies dst
    ensures src[..] == old(src[..])
    ensures Copied(a, b, src[..], dst[..], n, j + 1)
  {
    hide Copied, Rank;
    InBounds(a, j, n);
    InBounds(b, j, n);
    assert Start(from, n) == from * n && Start(to, n) == to * n;
    ghost var was, sofar := src[..], dst[..];
    CopySlice(dst, to * n, src, from * n, n);
    assert src[..] == was;
    CopiedOne(a, b, was, sofar, dst[..], n, j);
  }

  /** The arrays of the first directions, each of them moved to its new place. */
  ghost predicate Copied(a: Mask, b: Mask, from: seq<Entry>, to: seq<Entry>, n: nat, upto: int)
    requires 0 <= upto <= 13
  {
    forall j :: 0 <= j < upto && a[j] ==> CopiedAt(a, b, from, to, n, j)
  }

  ghost predicate CopiedAt(a: Mask, b: Mask, from: seq<Entry>, to: seq<Entry>, n: nat, j: int)
    requires 0 <= j < 13
  {
    var x, y := Start(Rank(a, j), n), Start(Rank(b, j), n);
    x + n <= |from| && y + n <= |to| && to[y..y + n] == from[x..x + n]
  }

  /** The mask in the course of the copying: new bits below `j`, old ones from there on. */
  ghost predicate Between(now: Mask, a: Mask, b: Mask, j: int) {
    forall k :: 0 <= k < 13 ==> now[k] == if k < j then b[k] else a[k]
  }

  lemma OneOn(now: Mask, a: Mask, flags: Mask, j: int)
    requires 0 <= j < 13 && Between(now, a, Or(a, flags), j)
    ensures now[j] == a[j] && Between(if now[j] || !flags[j] then now else now[j := true], a, Or(a, flags), j + 1)
    ensures Rank(a, j + 1) == Rank(a, j) + if a[j] then 1 else 0
    ensures Rank(Or(a, flags), j + 1) == Rank(Or(a, flags), j) + if now[j] || flags[j] then 1 else 0
    ensures forall k :: 0 <= k < 13 && a[k] ==> Or(a, flags)[k]
  {
  }

  lemma NothingCopied(a: Mask, b: Mask, from: seq<Entry>, to: seq<Entry>, n: nat, j: int)
    requires 0 <= j < 13 && !a[j] && Copied(a, b, from, to, n, j)
    ensures Copied(a, b, from, to, n, j + 1)
  {
  }

  lemma CopiedOne(a: Mask, b: Mask, from: seq<Entry>, before: seq<Entry>, after: seq<Entry>, n: nat, j: int)
    requires 0 <= j < 13 && a[j] && (forall k :: 0 <= k < 13 && a[k] ==> b[k]) && Copied(a, b, from, before, n, j)
    requires Start(Rank(a, j), n) + n <= |from| && Start(Rank(b, j), n) + n <= |before|
    requires var x, y := Start(Rank(a, j), n), Start(Rank(b, j), n);
      after == before[..y] + from[x..x + n] + before[y + n..]
    ensures Copied(a, b, from, after, n, j + 1)
  {
    hide Rank, Start;
    var x, y := Start(Rank(a, j), n), Start(Rank(b, j), n);
    Pasted(before, from[x..x + n], after, y, y);
    assert CopiedAt(a, b, from, after, n, j);
    forall k | 0 <= k < j && a[k] ensures CopiedAt(a, b, from, after, n, k) {
      assert CopiedAt(a, b, from, before, n, k);
      Separate(b, k, j, n);
      StillCopied(a, b, from, before, after, n, k, y, from[x..x + n]);
    }
  }

  lemma StillCopied(a: Mask, b: Mask, from: seq<Entry>, before: seq<Entry>, after: seq<Entry>, n: nat, k: int, y: nat,
        piece: seq<Entry>)
    requires 0 <= k < 13 && CopiedAt(a, b, from, before, n, k) && Start(Rank(b, k), n) + n <= y && |piece| == n
    requires y + n <= |before| && after == before[..y] + piece + before[y + n..]
    ensures CopiedAt(a, b, from, after, n, k)
  {
    hide Rank, Start;
    Pasted(before, piece, after, y, Start(Rank(b, k), n));
  }

  lemma Pasted(before: seq<Entry>, piece: seq<Entry>, after: seq<Entry>, y: nat, z: nat)
    requires y + |piece| <= |before| && after == before[..y] + piece + before[y + |piece|..]
    requires z + |piece| <= y || z == y
    ensures after[z..z + |piece|] == if z == y then piece else before[z..z + |piece|]
  {
  }

  /** memcpy */
  method CopySlice(dst: array<Entry>, at: nat, src: array<Entry>, from: nat, n: nat)
    requires dst != src && at + n <= dst.Length && from + n <= src.Length
    modifies dst
    ensures dst[..] == old(dst[..])[..at] + src[..][from..from + n] + old(dst[..])[at + n..]
  {
    forall i | 0 <= i < n { dst[at + i] := src[from + i]; }
  }

  lemma InView(m: Mask, s: seq<Entry>, n: nat, sid: int)
    requires |s| == Start(Rank(m, 13), n) && 0 <= sid < 13 && m[sid]
    ensures sid in Arrays(m, s, n) && Arrays(m, s, n)[sid] == Slice(m, s, n, sid) && |Slice(m, s, n, sid)| == n
  {
    InBounds(m, sid, n);
  }

  lemma Written(m: Mask, s: seq<Entry>, n: nat, sid: int, i: nat, e: Entry)
    requires |s| == Start(Rank(m, 13), n) && 0 <= sid < 13 && m[sid] && i < n
    ensures Start(Rank(m, sid), n) + i < |s| && |Slice(m, s, n, sid)| == n
    ensures Arrays(m, s[Start(Rank(m, sid), n) + i := e], n) == Arrays(m, s, n)[sid := Slice(m, s, n, sid)[i := e]]
  {
    hide Slice, Rank, Start;
    InBounds(m, sid, n);
    InView(m, s, n, sid);
    var t := s[Start(Rank(m, sid), n) + i := e];
    forall j | 0 <= j < 13 && m[j]
      ensures Slice(m, t, n, j) == if j == sid then Slice(m, s, n, j)[i := e] else Slice(m, s, n, j)
    {
      SliceAfter(m, s, n, sid, i, e, j);
    }
  }

  lemma SliceAfter(m: Mask, s: seq<Entry>, n: nat, sid: int, i: nat, e: Entry, j: int)
    requires |s| == Start(Rank(m, 13), n) && 0 <= sid < 13 && m[sid] && i < n && 0 <= j < 13 && m[j]
    ensures Start(Rank(m, sid), n) + i < |s| && |Slice(m, s, n, sid)| == n
    ensures var t := s[Start(Rank(m, sid), n) + i := e];
      Slice(m, t, n, j) == if j == sid then Slice(m, s, n, j)[i := e] else Slice(m, s, n, j)
  {
    hide Rank, Start;
    InBounds(m, sid, n);
    InBounds(m, j, n);
    if j < sid { Separate(m, j, sid, n); }
    if sid < j { Separate(m, sid, j, n); }
    WrittenSlice(s, Start(Rank(m, sid), n), Start(Rank(m, j), n), n, i, e);
    if n > 0 && j < sid { assert Start(Rank(m, j), n) != Start(Rank(m, sid), n); }
  }

  lemma WrittenSlice(s: seq<Entry>, x: nat, y: nat, n: nat, i: nat, e: Entry)
    requires x + n <= |s| && y + n <= |s| && i < n && (x == y || x + n <= y || y + n <= x)
    ensures s[x + i := e][y..y + n] == if x == y then s[y..y + n][i := e] else s[y..y + n]
  {
  }

  lemma NothingNew(m: Mask, s: seq<Entry>, n: nat, flags: Mask)
    requires |s| == Start(Rank(m, 13), n) && Or(m, flags) == m
    ensures Grown(Arrays(m, s, n), Arrays(m, s, n), flags)
  {
    assert forall j :: 0 <= j < 13 && flags[j] ==> m[j];
  }

  lemma NoneYet(m: Mask, flags: Mask)
    requires Rank(m, 13) == 0
    ensures flags == Or(m, flags)
  {
    RankUp(m, 0, 13);
  }

  lemma FirstOnes(m: Mask, s: seq<Entry>, flags: Mask, t: seq<Entry>, n: nat)
    requires |s| == Start(Rank(m, 13), n) && |t| == Start(Rank(flags, 13), n) && Rank(m, 13) == 0
    ensures Grown(Arrays(m, s, n), Arrays(flags, t, n), flags)
  {
    RankUp(m, 0, 13);
  }

  lemma GrownAfter(m: Mask, flags: Mask, from: seq<Entry>, to: seq<Entry>, n: nat)
    requires |from| == Start(Rank(m, 13), n) && |to| == Start(Rank(Or(m, flags), 13), n)
    requires Copied(m, Or(m, flags), from, to, n, 13)
    ensures Grown(Arrays(m, from, n), Arrays(Or(m, flags), to, n), flags)
  {
    var a, b := Arrays(m, from, n), Arrays(Or(m, flags), to, n);
    forall j | j in a ensures j in b && b[j] == a[j] {
      InBounds(m, j, n);
      InBounds(Or(m, flags), j, n);
    }
  }
}
