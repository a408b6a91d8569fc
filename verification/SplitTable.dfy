/**
 The table of sub-pairs for the recursion over neighbouring cells, and what it means for two cells to touch.

 Cells are given by integer coordinates in the octree: a cell of depth d is a cube of side 2^-d, and the
 top-level cells of a periodic box wrap around.
 */
module SplitTable {
  datatype Node = Node(depth: nat, x: int, y: int, z: int)

  /** The numbers of top-level cells in the three directions. */
  datatype Box = Box(periodic: bool, nx: int, ny: int, nz: int)

  datatype Entry = Entry(pid: int, pjd: int, sid: int)

  /** cell_split_pairs: the pairs of progeny of two cells that have to be looked at. */
  function SplitPairs(sid: int): (r: seq<Entry>)
    requires 0 <= sid < 13
    ensures forall i :: 0 <= i < |r| ==> 0 <= r[i].pid < 8 && 0 <= r[i].pjd < 8
  {
    match sid
    case 0 => /* ( 1,  1,  1) */
      [Entry(7, 0, 0)]
    case 1 => /* ( 1,  1,  0) */
      [Entry(6, 0, 1), Entry(7, 1, 1), Entry(6, 1, 0), Entry(7, 0, 2)]
    case 2 => /* ( 1,  1, -1) */
      [Entry(6, 1, 2)]
    case 3 => /* ( 1,  0,  1) */
      [Entry(5, 0, 3), Entry(7, 2, 3), Entry(5, 2, 0), Entry(7, 0, 6)]
    case 4 => /* ( 1,  0,  0) */
      [Entry(4, 0, 4), Entry(5, 0, 5), Entry(6, 0, 7), Entry(7, 0, 8),
        Entry(4, 1, 3), Entry(5, 1, 4), Entry(6, 1, 6), Entry(7, 1, 7),
        Entry(4, 2, 1), Entry(5, 2, 2), Entry(6, 2, 4), Entry(7, 2, 5),
        Entry(4, 3, 0), Entry(5, 3, 1), Entry(6, 3, 3), Entry(7, 3, 4)]
    case 5 => /* ( 1,  0, -1) */
      [Entry(4, 1, 5), Entry(6, 3, 5), Entry(4, 3, 2), Entry(6, 1, 8)]
    case 6 => /* ( 1, -1,  1) */
      [Entry(5, 2, 6)]
    case 7 => /* ( 1, -1,  0) */
      [Entry(4, 3, 6), Entry(5, 2, 8), Entry(4, 2, 7), Entry(5, 3, 7)]
    case 8 => /* ( 1, -1, -1) */
      [Entry(4, 3, 8)]
    case 9 => /* ( 0,  1,  1) */
      [Entry(3, 0, 9), Entry(7, 4, 9), Entry(3, 4, 0), Entry(7, 0, 8)]
    case 10 => /* ( 0,  1,  0) */
      [Entry(2, 0, 10), Entry(3, 0, 11), Entry(6, 0, 7), Entry(7, 0, 6),
        Entry(2, 1, 9), Entry(3, 1, 10), Entry(6, 1, 8), Entry(7, 1, 7),
        Entry(2, 4, 1), Entry(3, 4, 2), Entry(6, 4, 10), Entry(7, 4, 11),
        Entry(2, 5, 0), Entry(3, 5, 1), Entry(6, 5, 9), Entry(7, 5, 10)]
    case 11 => /* ( 0,  1, -1) */
      [Entry(2, 1, 11), Entry(6, 5, 11), Entry(2, 5, 2), Entry(6, 1, 6)]
    case _ => /* ( 0,  0,  1) */
      [Entry(1, 0, 12), Entry(3, 0, 11), Entry(5, 0, 5), Entry(7, 0, 2),
        Entry(1, 2, 9), Entry(3, 2, 12), Entry(5, 2, 8), Entry(7, 2, 5),
        Entry(1, 4, 3), Entry(3, 4, 6), Entry(5, 4, 12), Entry(7, 4, 11),
        Entry(1, 6, 0), Entry(3, 6, 3), Entry(5, 6, 9), Entry(7, 6, 12)]
  }

  /** sortlistID: opposite directions share a sid. */
  function SortlistId(raw: int): int
    requires 0 <= raw < 27
  {
    if raw < 13 then raw else if raw == 13 then 0 else 26 - raw
  }

  /** runner_flip */
  predicate RunnerFlip(raw: int) {
    raw < 13
  }

  // ----- positions -----

  /** The bits of a progeny index: which half of the parent in x, y and z. */
  function BitX(k: int): int { if 4 <= k then 1 else 0 }

  function BitY(k: int): int { if k == 2 || k == 3 || k == 6 || k == 7 then 1 else 0 }

  function BitZ(k: int): int { if k == 1 || k == 3 || k == 5 || k == 7 then 1 else 0 }

  function Child(p: Node, k: int): (c: Node)
    requires 0 <= k < 8
    ensures c.depth == p.depth + 1
  {
    Node(p.depth + 1, 2 * p.x + BitX(k), 2 * p.y + BitY(k), 2 * p.z + BitZ(k))
  }

  function Parent(p: Node): Node
    requires p.depth > 0
  {
    Node(p.depth - 1, p.x / 2, p.y / 2, p.z / 2)
  }

  /** Which progeny of its parent a cell is. */
  function Slot(p: Node): (k: int)
    ensures 0 <= k < 8
  {
    4 * (p.x % 2) + 2 * (p.y % 2) + p.z % 2
  }

  lemma ChildParent(p: Node, k: int)
    requires 0 <= k < 8
    ensures Parent(Child(p, k)) == p && Slot(Child(p, k)) == k
  {
  }

  lemma ParentChild(p: Node)
    requires p.depth > 0
    ensures Child(Parent(p), Slot(p)) == p
  {
  }

  function Pow2(n: nat): (r: int)
    ensures r >= 1
  {
    if n == 0 then 1 else 2 * Pow2(n - 1)
  }

  /** Number of cells of depth `d` in each direction. */
  function Size(n: int, d: nat): int {
    n * Pow2(d)
  }

  predicate In(b: Box, p: Node) {
    0 <= p.x < Size(b.nx, p.depth) && 0 <= p.y < Size(b.ny, p.depth) && 0 <= p.z < Size(b.nz, p.depth)
  }

  /** The difference of two coordinates, brought back into the box when that is shorter. */
  function Wrap(b: Box, d: int, m: int): int {
    if b.periodic && 2 * d < -m then d + m
    else if b.periodic && 2 * d > m then d - m
    else d
  }

  datatype Shift = Shift(x: int, y: int, z: int)

  function Between(b: Box, p: Node, q: Node): Shift
    requires p.depth == q.depth
  {
    Shift(Wrap(b, q.x - p.x, Size(b.nx, p.depth)), Wrap(b, q.y - p.y, Size(b.ny, p.depth)),
      Wrap(b, q.z - p.z, Size(b.nz, p.depth)))
  }

  /** Two cells share a face, an edge or a corner. */
  predicate Near(s: Shift) {
    -1 <= s.x <= 1 && -1 <= s.y <= 1 && -1 <= s.z <= 1
  }

  predicate Touch(b: Box, p: Node, q: Node)
    requires p.depth == q.depth
  {
    p != q && Near(Between(b, p, q))
  }

  /** A box has cells, and a periodic one at least three in each direction. */
  predicate Wide(b: Box) {
    && b.nx >= 1 && b.ny >= 1 && b.nz >= 1
    && (b.periodic ==> b.nx >= 3 && b.ny >= 3 && b.nz >= 3)
  }

  // ----- the table -----

  function Sign(d: int): int {
    if d < 0 then 0 else if d > 0 then 2 else 1
  }

  function RawSid(s: Shift): int {
    9 * Sign(s.x) + 3 * Sign(s.y) + Sign(s.z)
  }

  function Negated(s: Shift): Shift {
    Shift(-s.x, -s.y, -s.z)
  }

  /** The direction a sid stands for. */
  function Direction(sid: int): Shift
    requires 0 <= sid < 13
  {
    match sid
    case 0 => Shift(1, 1, 1)
    case 1 => Shift(1, 1, 0)
    case 2 => Shift(1, 1, -1)
    case 3 => Shift(1, 0, 1)
    case 4 => Shift(1, 0, 0)
    case 5 => Shift(1, 0, -1)
    case 6 => Shift(1, -1, 1)
    case 7 => Shift(1, -1, 0)
    case 8 => Shift(1, -1, -1)
    case 9 => Shift(0, 1, 1)
    case 10 => Shift(0, 1, 0)
    case 11 => Shift(0, 1, -1)
    case _ => Shift(0, 0, 1)
  }

  /** space_getsid_and_swap_cells: after the swap the second cell lies in the direction of the sid. */
  function GetSid(b: Box, p: Node, q: Node): (r: (Node, Node, int))
    requires p.depth == q.depth
    ensures 0 <= r.2 < 13 && ((r.0 == p && r.1 == q) || (r.0 == q && r.1 == p))
  {
    var raw := RawSid(Between(b, p, q));
    if RunnerFlip(raw) then (q, p, SortlistId(raw)) else (p, q, SortlistId(raw))
  }

  lemma RawSidDirection(s: Shift)
    requires Near(s) && s != Shift(0, 0, 0)
    ensures 0 <= RawSid(s) < 27 && 0 <= SortlistId(RawSid(s)) < 13
    ensures Direction(SortlistId(RawSid(s))) == if RunnerFlip(RawSid(s)) then Negated(s) else s
  {
    hide Direction;
    assert RawSid(Negated(s)) == 26 - RawSid(s);
    if RunnerFlip(RawSid(s)) { DirectionOf(Negated(s)); } else { DirectionOf(s); }
  }

  /** The directions that are kept as they are. */
  lemma DirectionOf(s: Shift)
    requires Near(s) && RawSid(s) > 13
    ensures RawSid(s) < 27 && Direction(26 - RawSid(s)) == s
  {
    if s.x == 1 {
      if s.y == 1 { assert Direction(0) == Shift(1, 1, 1) && Direction(1) == Shift(1, 1, 0)
        && Direction(2) == Shift(1, 1, -1); }
      else if s.y == 0 { assert Direction(3) == Shift(1, 0, 1) && Direction(4) == Shift(1, 0, 0)
        && Direction(5) == Shift(1, 0, -1); }
      else { assert Direction(6) == Shift(1, -1, 1) && Direction(7) == Shift(1, -1, 0)
        && Direction(8) == Shift(1, -1, -1); }
    } else if s.y == 1 {
      assert Direction(9) == Shift(0, 1, 1) && Direction(10) == Shift(0, 1, 0) && Direction(11) == Shift(0, 1, -1);
    } else {
      assert Direction(12) == Shift(0, 0, 1);
    }
  }

  /** Where child `pjd` of a cell lies, seen from child `pid` of another, `d` away. */
  function ChildShift(d: Shift, pid: int, pjd: int): Shift
    requires 0 <= pid < 8 && 0 <= pjd < 8
  {
    Shift(2 * d.x + BitX(pjd) - BitX(pid), 2 * d.y + BitY(pjd) - BitY(pid), 2 * d.z + BitZ(pjd) - BitZ(pid))
  }

  function One(a: int, b: int, pid: int, pjd: int): int {
    if a == pid && b == pjd then 1 else 0
  }

  /** How often a pair of children is listed. */
  function Listed(l: seq<Entry>, pid: int, pjd: int): nat {
    if l == [] then 0 else One(l[0].pid, l[0].pjd, pid, pjd) + Listed(l[1..], pid, pjd)
  }

  lemma ListedOf1(l: seq<Entry>, pid: int, pjd: int)
    requires |l| == 1
    ensures Listed(l, pid, pjd) == One(l[0].pid, l[0].pjd, pid, pjd)
  {
  }

  lemma ListedOf4(l: seq<Entry>, pid: int, pjd: int)
    requires |l| == 4
    ensures Listed(l, pid, pjd) == One(l[0].pid, l[0].pjd, pid, pjd) + One(l[1].pid, l[1].pjd, pid, pjd)
      + One(l[2].pid, l[2].pjd, pid, pjd) + One(l[3].pid, l[3].pjd, pid, pjd)
  {
    assert Listed(l[3..], pid, pjd) == One(l[3].pid, l[3].pjd, pid, pjd);
    assert Listed(l[2..], pid, pjd) == One(l[2].pid, l[2].pjd, pid, pjd) + Listed(l[3..], pid, pjd) by {
      assert l[2..][1..] == l[3..];
    }
    assert Listed(l[1..], pid, pjd) == One(l[1].pid, l[1].pjd, pid, pjd) + Listed(l[2..], pid, pjd) by {
      assert l[1..][1..] == l[2..];
    }
  }

  lemma ListedOf16(l: seq<Entry>, pid: int, pjd: int)
    requires |l| == 16
    ensures Listed(l, pid, pjd) ==
      One(l[0].pid, l[0].pjd, pid, pjd) + One(l[1].pid, l[1].pjd, pid, pjd) + One(l[2].pid, l[2].pjd, pid, pjd)
        + One(l[3].pid, l[3].pjd, pid, pjd)
      + One(l[4].pid, l[4].pjd, pid, pjd) + One(l[5].pid, l[5].pjd, pid, pjd) + One(l[6].pid, l[6].pjd, pid, pjd)
        + One(l[7].pid, l[7].pjd, pid, pjd)
      + One(l[8].pid, l[8].pjd, pid, pjd) + One(l[9].pid, l[9].pjd, pid, pjd) + One(l[10].pid, l[10].pjd, pid, pjd)
        + One(l[11].pid, l[11].pjd, pid, pjd)
      + One(l[12].pid, l[12].pjd, pid, pjd) + One(l[13].pid, l[13].pjd, pid, pjd) + One(l[14].pid, l[14].pjd, pid, pjd)
        + One(l[15].pid, l[15].pjd, pid, pjd)
  {
    ListedSplit(l, 4, pid, pjd);
    ListedSplit(l[4..], 4, pid, pjd);
    ListedSplit(l[4..][4..], 4, pid, pjd);
    ListedOf4(l[..4], pid, pjd);
    ListedOf4(l[4..][..4], pid, pjd);
    ListedOf4(l[4..][4..][..4], pid, pjd);
    ListedOf4(l[4..][4..][4..], pid, pjd);
  }

  lemma {:induction false} ListedSplit(l: seq<Entry>, n: nat, pid: int, pjd: int)
    requires n <= |l|
    ensures Listed(l, pid, pjd) == Listed(l[..n], pid, pjd) + Listed(l[n..], pid, pjd)
  {
    if n == 0 {
      assert l[0..] == l;
    } else {
      ListedSplit(l[1..], n - 1, pid, pjd);
      assert l[..n][1..] == l[1..][..n - 1] && l[n..] == l[1..][n - 1..];
    }
  }

  /** In each direction: the near half of both cells, or anything if the cells are level. */
  predicate AxisNear(d: int, a: int, b: int) {
    if d == 1 then a == 1 && b == 0 else if d == -1 then a == 0 && b == 1 else true
  }

  lemma NearBits(d: Shift, pid: int, pjd: int)
    requires Near(d) && 0 <= pid < 8 && 0 <= pjd < 8
    ensures Near(ChildShift(d, pid, pjd)) <==>
      AxisNear(d.x, BitX(pid), BitX(pjd)) && AxisNear(d.y, BitY(pid), BitY(pjd)) && AxisNear(d.z, BitZ(pid), BitZ(pjd))
  {
    BitsInRange(pid);
    BitsInRange(pjd);
    hide BitX, BitY, BitZ;
  }

  lemma BitsInRange(k: int)
    ensures 0 <= BitX(k) <= 1 && 0 <= BitY(k) <= 1 && 0 <= BitZ(k) <= 1
  {
  }

  /** The progeny at four of the corners. */
  lemma CornerBits(k: int)
    requires 0 <= k < 8
    ensures 4 * BitX(k) + 2 * BitY(k) + BitZ(k) == k
    ensures 0 <= BitX(k) <= 1 && 0 <= BitY(k) <= 1 && 0 <= BitZ(k) <= 1
  {
  }

  /** Rows of one entry: the cells share a corner ... */
  lemma CornerRow(sid: int, pid: int, pjd: int)
    requires 0 <= pid < 8 && 0 <= pjd < 8 && (sid == 0 || sid == 2 || sid == 6 || sid == 8)
    ensures Listed(SplitPairs(sid), pid, pjd) == if Near(ChildShift(Direction(sid), pid, pjd)) then 1 else 0
  {
    hide BitX, BitY, BitZ, ChildShift, Listed;
    NearBits(Direction(sid), pid, pjd);
    CornerBits(pid);
    CornerBits(pjd);
    match sid
    case 0 => ListedOf1(SplitPairs(0), pid, pjd);
    case 2 => ListedOf1(SplitPairs(2), pid, pjd);
    case 6 => ListedOf1(SplitPairs(6), pid, pjd);
    case 8 => ListedOf1(SplitPairs(8), pid, pjd);
  }

  /** ... of four: they share an edge ... */
  lemma EdgeRowFirst(sid: int, pid: int, pjd: int)
    requires 0 <= pid < 8 && 0 <= pjd < 8 && (sid == 1 || sid == 3 || sid == 5)
    ensures Listed(SplitPairs(sid), pid, pjd) == if Near(ChildShift(Direction(sid), pid, pjd)) then 1 else 0
  {
    hide BitX, BitY, BitZ, ChildShift, Listed;
    CornerBits(pid);
    CornerBits(pjd);
    NearBits(Direction(sid), pid, pjd);
    match sid
    case 1 => ListedOf4(SplitPairs(1), pid, pjd);
    case 3 => ListedOf4(SplitPairs(3), pid, pjd);
    case 5 => ListedOf4(SplitPairs(5), pid, pjd);
  }

  lemma EdgeRowSecond(sid: int, pid: int, pjd: int)
    requires 0 <= pid < 8 && 0 <= pjd < 8 && (sid == 7 || sid == 9 || sid == 11)
    ensures Listed(SplitPairs(sid), pid, pjd) == if Near(ChildShift(Direction(sid), pid, pjd)) then 1 else 0
  {
    hide BitX, BitY, BitZ, ChildShift, Listed;
    CornerBits(pid);
    CornerBits(pjd);
    NearBits(Direction(sid), pid, pjd);
    match sid
    case 7 => ListedOf4(SplitPairs(7), pid, pjd);
    case 9 => ListedOf4(SplitPairs(9), pid, pjd);
    case 11 => ListedOf4(SplitPairs(11), pid, pjd);
  }

  /** ... of sixteen: they share a face. */
  lemma FaceRowX(pid: int, pjd: int)
    requires 0 <= pid < 8 && 0 <= pjd < 8
    ensures Listed(SplitPairs(4), pid, pjd) == if Near(ChildShift(Direction(4), pid, pjd)) then 1 else 0
  {
    ListedOf16(SplitPairs(4), pid, pjd);
    NearBits(Direction(4), pid, pjd);
    hide Listed, Near, ChildShift;
  }

  lemma FaceRowY(pid: int, pjd: int)
    requires 0 <= pid < 8 && 0 <= pjd < 8
    ensures Listed(SplitPairs(10), pid, pjd) == if Near(ChildShift(Direction(10), pid, pjd)) then 1 else 0
  {
    ListedOf16(SplitPairs(10), pid, pjd);
    NearBits(Direction(10), pid, pjd);
    hide Listed, Near, ChildShift;
  }

  lemma FaceRowZ(pid: int, pjd: int)
    requires 0 <= pid < 8 && 0 <= pjd < 8
    ensures Listed(SplitPairs(12), pid, pjd) == if Near(ChildShift(Direction(12), pid, pjd)) then 1 else 0
  {
    ListedOf16(SplitPairs(12), pid, pjd);
    NearBits(Direction(12), pid, pjd);
    hide Listed, Near, ChildShift;
  }

  /** The table lists each pair of touching children once, and no others. */
  lemma TableComplete(sid: int, pid: int, pjd: int)
    requires 0 <= sid < 13 && 0 <= pid < 8 && 0 <= pjd < 8
    ensures Listed(SplitPairs(sid), pid, pjd) == if Near(ChildShift(Direction(sid), pid, pjd)) then 1 else 0
  {
    hide *;
    match sid
    case 4 => FaceRowX(pid, pjd);
    case 10 => FaceRowY(pid, pjd);
    case 12 => FaceRowZ(pid, pjd);
    case _ =>
      if sid == 0 || sid == 2 || sid == 6 || sid == 8 {
        CornerRow(sid, pid, pjd);
      } else if sid <= 5 {
        EdgeRowFirst(sid, pid, pjd);
      } else {
        EdgeRowSecond(sid, pid, pjd);
      }
  }

  // ----- the third column -----

  /** The rank of a direction among all: sids count down from 13 as it goes up. */
  function Weight(s: Shift): int { 9 * s.x + 3 * s.y + s.z }

  function ChildWeight(k: int): int {
    if k < 4 then (if k < 2 then k else k + 1) else (if k < 6 then k + 5 else k + 6)
  }

  function SidOfWeight(w: int): int { if w < 0 then 13 + w else 13 - w }

  predicate RightSid(sid: int, e: Entry) {
    e.sid == SidOfWeight(2 * (13 - sid) + ChildWeight(e.pjd) - ChildWeight(e.pid))
  }

  lemma SidColumnFirst(sid: int, i: int)
    requires 0 <= sid <= 3 && 0 <= i < |SplitPairs(sid)|
    ensures RightSid(sid, SplitPairs(sid)[i])
  {
    match sid
    case 0 => assert RightSid(0, SplitPairs(0)[i]);
    case 1 => assert RightSid(1, SplitPairs(1)[i]);
    case 2 => assert RightSid(2, SplitPairs(2)[i]);
    case _ => assert RightSid(3, SplitPairs(3)[i]);
  }

  lemma SidColumnSecond(sid: int, i: int)
    requires 4 <= sid <= 7 && 0 <= i < |SplitPairs(sid)|
    ensures RightSid(sid, SplitPairs(sid)[i])
  {
    match sid
    case 4 => assert RightSid(4, SplitPairs(4)[i]);
    case 5 => assert RightSid(5, SplitPairs(5)[i]);
    case 6 => assert RightSid(6, SplitPairs(6)[i]);
    case _ => assert RightSid(7, SplitPairs(7)[i]);
  }

  lemma SidColumnThird(sid: int, i: int)
    requires 8 <= sid <= 10 && 0 <= i < |SplitPairs(sid)|
    ensures RightSid(sid, SplitPairs(sid)[i])
  {
    match sid
    case 8 => assert RightSid(8, SplitPairs(8)[i]);
    case 9 => assert RightSid(9, SplitPairs(9)[i]);
    case _ => assert RightSid(10, SplitPairs(10)[i]);
  }

  lemma SidColumnLast(sid: int, i: int)
    requires 11 <= sid <= 12 && 0 <= i < |SplitPairs(sid)|
    ensures RightSid(sid, SplitPairs(sid)[i])
  {
    match sid
    case 11 => assert RightSid(11, SplitPairs(11)[i]);
    case _ => assert RightSid(12, SplitPairs(12)[i]);
  }

  lemma SidColumn(sid: int, i: int)
    requires 0 <= sid < 13 && 0 <= i < |SplitPairs(sid)|
    ensures RightSid(sid, SplitPairs(sid)[i])
  {
    hide *;
    if sid <= 3 {
      SidColumnFirst(sid, i);
    } else if sid <= 7 {
      SidColumnSecond(sid, i);
    } else if sid <= 10 {
      SidColumnThird(sid, i);
    } else {
      SidColumnLast(sid, i);
    }
  }

  lemma {:induction false} ListedAt(l: seq<Entry>, i: nat)
    requires i < |l|
    ensures Listed(l, l[i].pid, l[i].pjd) >= 1
  {
    if i > 0 {
      assert l[1..][i - 1] == l[i];
      ListedAt(l[1..], i - 1);
    }
  }

  lemma ChildWeights(k: int)
    requires 0 <= k < 8
    ensures ChildWeight(k) == 9 * BitX(k) + 3 * BitY(k) + BitZ(k)
  {
  }

  lemma DirectionWeight(sid: int)
    requires 0 <= sid < 13
    ensures Weight(Direction(sid)) == 13 - sid && Near(Direction(sid)) && Direction(sid) != Shift(0, 0, 0)
  {
  }

  lemma SidFromWeight(s: Shift)
    requires Near(s) && s != Shift(0, 0, 0)
    ensures 0 <= RawSid(s) < 27 && SortlistId(RawSid(s)) == SidOfWeight(Weight(s))
  {
  }

  /** The sid of every pair in the table is the one space_getsid_and_swap_cells would compute for the two children: it
      stands for the direction from the one to the other, or for the opposite one. */
  lemma TableSids(sid: int, i: nat)
    requires 0 <= sid < 13 && i < |SplitPairs(sid)|
    ensures var e := SplitPairs(sid)[i]; var s := ChildShift(Direction(sid), e.pid, e.pjd);
      && Near(s) && s != Shift(0, 0, 0)
      && 0 <= RawSid(s) < 27 && e.sid == SortlistId(RawSid(s)) && 0 <= e.sid < 13
      && (Direction(e.sid) == s || Direction(e.sid) == Negated(s))
  {
    hide ChildShift, ChildWeight, Direction, Listed, Near, Negated, RawSid, RunnerFlip, SidOfWeight, SortlistId,
      SplitPairs, Weight;
    var l := SplitPairs(sid);
    var e := l[i];
    var d := Direction(sid);
    var s := ChildShift(d, e.pid, e.pjd);
    ListedAt(l, i);
    TableComplete(sid, e.pid, e.pjd);
    DirectionWeight(sid);
    NotOnTop(d, e.pid, e.pjd);
    SidColumn(sid, i);
    SidFromWeight(s);
    RawSidDirection(s);
    ShiftWeight(d, e.pid, e.pjd);
  }

  lemma ShiftWeight(d: Shift, pid: int, pjd: int)
    requires 0 <= pid < 8 && 0 <= pjd < 8
    ensures Weight(ChildShift(d, pid, pjd)) == 2 * Weight(d) + ChildWeight(pjd) - ChildWeight(pid)
  {
    ChildWeights(pid);
    ChildWeights(pjd);
    hide ChildWeight, BitX, BitY, BitZ;
  }

  lemma NotOnTop(d: Shift, pid: int, pjd: int)
    requires 0 <= pid < 8 && 0 <= pjd < 8 && d != Shift(0, 0, 0)
    ensures ChildShift(d, pid, pjd) != Shift(0, 0, 0)
  {
    BitsInRange(pid);
    BitsInRange(pjd);
    hide BitX, BitY, BitZ;
  }
}
