/** Board geometry and the small board queries of the rules engine:
    inside / throne / edge tests, cell access, piece ownership, the rook
    path test, locating the king and counting pieces. */
module Geometry {
  import opened TablutTypes

  const BoardSize: int := 9
  const Throne: Pos := Pos(4, 4)

  /** Up, down, left, right: the order in which captures are scanned and
      moves are enumerated. */
  const Dirs: seq<Pos> := [Pos(-1, 0), Pos(1, 0), Pos(0, -1), Pos(0, 1)]

  predicate IsInside(p: Pos) {
    0 <= p.row < BoardSize && 0 <= p.col < BoardSize
  }

  predicate IsThrone(p: Pos) {
    p.row == Throne.row && p.col == Throne.col
  }

  predicate IsEdge(p: Pos) {
    p.row == 0 || p.row == BoardSize - 1 || p.col == 0 || p.col == BoardSize - 1
  }

  function Add(a: Pos, b: Pos): Pos {
    Pos(a.row + b.row, a.col + b.col)
  }

  /** Orthogonal adjacency: the two cells differ by one step in one coordinate. */
  predicate Adjacent(p: Pos, q: Pos) {
    (p.row == q.row && (p.col - q.col == 1 || q.col - p.col == 1)) ||
    (p.col == q.col && (p.row - q.row == 1 || q.row - p.row == 1))
  }

  /** Row-major index of a cell. */
  function Idx(p: Pos): (i: nat)
    requires IsInside(p)
    ensures i < 81
  {
    p.row * BoardSize + p.col
  }

  /** The cell with a given row-major index; inverse of Idx. */
  function PosOf(i: nat): (p: Pos)
    requires i < 81
    ensures IsInside(p) && Idx(p) == i
  {
    Pos(i / BoardSize, i % BoardSize)
  }

  lemma IdxInjective(p: Pos, q: Pos)
    requires IsInside(p) && IsInside(q) && Idx(p) == Idx(q)
    ensures p == q
  {
  }

  function GetPiece(b: Board, p: Pos): Option<Piece>
    requires IsInside(p)
  {
    b[Idx(p)]
  }

  /** The board with one cell overwritten; every other cell keeps its content. */
  function SetPiece(b: Board, p: Pos, x: Option<Piece>): (r: Board)
    requires IsInside(p)
    ensures GetPiece(r, p) == x
    ensures forall q :: IsInside(q) && q != p ==> GetPiece(r, q) == GetPiece(b, q)
  {
    forall q | IsInside(q) && q != p ensures Idx(q) != Idx(p) {
      if Idx(q) == Idx(p) { IdxInjective(p, q); }
    }
    b[Idx(p) := x]
  }

  /** The king plays for the defenders. */
  function SideOfPiece(piece: Piece): (s: Side)
    ensures s == Attacker <==> piece == A
  {
    if piece == A then Attacker else Defender
  }

  predicate IsFriendly(cell: Option<Piece>, side: Side) {
    cell.Some? && SideOfPiece(cell.value) == side
  }

  predicate IsEnemy(cell: Option<Piece>, side: Side) {
    cell.Some? && SideOfPiece(cell.value) != side
  }

  /** Keeps the cells of ps that lie on the board, in order. */
  function InsideOnly(ps: seq<Pos>): (r: seq<Pos>)
    ensures forall q :: q in r <==> q in ps && IsInside(q)
  {
    if ps == [] then []
    else if IsInside(ps[0]) then [ps[0]] + InsideOnly(ps[1..])
    else InsideOnly(ps[1..])
  }

  /** No cell occurs twice in ps. */
  predicate Distinct(ps: seq<Pos>) {
    forall i, j :: 0 <= i < j < |ps| ==> ps[i] != ps[j]
  }

  lemma {:induction false} InsideOnlyDistinct(ps: seq<Pos>)
    requires Distinct(ps)
    ensures Distinct(InsideOnly(ps))
  {
    if ps != [] {
      assert Distinct(ps[1..]) by {
        forall i, j | 0 <= i < j < |ps[1..]| ensures ps[1..][i] != ps[1..][j] {
          assert ps[1..][i] == ps[i + 1] && ps[1..][j] == ps[j + 1];
        }
      }
      InsideOnlyDistinct(ps[1..]);
      assert ps[0] !in ps[1..] by {
        forall k | 0 <= k < |ps[1..]| ensures ps[1..][k] != ps[0] {
          assert ps[1..][k] == ps[k + 1];
        }
      }
    }
  }

  /** The on-board orthogonal neighbours of p, in the order of Dirs, each
      listed once. */
  function OrthNeighbors(p: Pos): (ns: seq<Pos>)
    ensures forall q :: q in ns <==> IsInside(q) && Adjacent(p, q)
    ensures Distinct(ns)
  {
    var all := [Add(p, Dirs[0]), Add(p, Dirs[1]), Add(p, Dirs[2]), Add(p, Dirs[3])];
    assert forall q :: Adjacent(p, q) <==> q in all;
    InsideOnlyDistinct(all);
    InsideOnly(all)
  }

  /** The on-board cells orthogonally next to p that hold an attacker. */
  function AttackersAround(b: Board, p: Pos): (qs: set<Pos>)
    ensures forall q :: q in qs <==> IsInside(q) && Adjacent(p, q) && GetPiece(b, q) == Some(A)
  {
    set q | q in OrthNeighbors(p) && GetPiece(b, q) == Some(A)
  }

  lemma ThroneNeighbors()
    ensures OrthNeighbors(Throne) == [Pos(3, 4), Pos(5, 4), Pos(4, 3), Pos(4, 5)]
  {
    var all := [Pos(3, 4), Pos(5, 4), Pos(4, 3), Pos(4, 5)];
    assert InsideOnly(all[3..]) == [Pos(4, 5)];
    assert InsideOnly(all[2..]) == [Pos(4, 3)] + InsideOnly(all[3..]);
    assert InsideOnly(all[1..]) == [Pos(5, 4)] + InsideOnly(all[2..]);
  }

  /** How many of the cells in ps hold an attacker. */
  function CountAttackersAt(b: Board, ps: seq<Pos>): (n: nat)
    requires forall i :: 0 <= i < |ps| ==> IsInside(ps[i])
    ensures n <= |ps|
    ensures n == |ps| <==> forall i :: 0 <= i < |ps| ==> GetPiece(b, ps[i]) == Some(A)
    ensures n == 0 <==> forall i :: 0 <= i < |ps| ==> GetPiece(b, ps[i]) != Some(A)
  {
    if ps == [] then 0
    else
      var rest := CountAttackersAt(b, ps[1..]);
      assert forall i :: 1 <= i < |ps| ==> ps[i] == ps[1..][i - 1];
      (if GetPiece(b, ps[0]) == Some(A) then 1 else 0) + rest
  }

  /** Over distinct cells, the count is the number of cells holding an attacker. */
  lemma {:induction false} CountAttackersAtSet(b: Board, ps: seq<Pos>)
    requires forall i :: 0 <= i < |ps| ==> IsInside(ps[i])
    requires Distinct(ps)
    ensures CountAttackersAt(b, ps) == |set q | q in ps && GetPiece(b, q) == Some(A)|
  {
    if ps != [] {
      var tail := ps[1..];
      assert forall i :: 0 <= i < |tail| ==> tail[i] == ps[i + 1];
      CountAttackersAtSet(b, tail);
      var here := set q | q in ps && GetPiece(b, q) == Some(A);
      var rest := set q | q in tail && GetPiece(b, q) == Some(A);
      assert ps[0] !in tail;
      if GetPiece(b, ps[0]) == Some(A) {
        assert here == rest + {ps[0]};
      } else {
        assert here == rest;
      }
    }
  }

  // ---------------------------------------------------------------------
  // Rook paths

  function Sign(x: int): (s: int)
    ensures -1 <= s <= 1
    ensures s == 0 <==> x == 0
    ensures s > 0 <==> x > 0
  {
    if x > 0 then 1 else if x < 0 then -1 else 0
  }

  predicate SameLine(from: Pos, to: Pos) {
    from.row == to.row || from.col == to.col
  }

  /** Number of single steps from one cell to another along a line. */
  function Dist(from: Pos, to: Pos): nat {
    (if from.row <= to.row then to.row - from.row else from.row - to.row) +
    (if from.col <= to.col then to.col - from.col else from.col - to.col)
  }

  /** One coordinate after k steps from a towards b. */
  function Toward(a: int, b: int, k: int): int {
    if a < b then a + k else if a > b then a - k else a
  }

  /** The cell k steps from `from` in the direction of `to`. */
  function Along(from: Pos, to: Pos, k: int): Pos {
    Pos(Toward(from.row, to.row, k), Toward(from.col, to.col, k))
  }

  /** The cell is on the board, is not the throne and is empty. */
  predicate IsOpenCell(b: Board, p: Pos) {
    IsInside(p) && !IsThrone(p) && GetPiece(b, p) == None
  }

  /** Every cell strictly between `from` and `to` is open. */
  predicate PathClear(b: Board, from: Pos, to: Pos) {
    forall k | 1 <= k < Dist(from, to) :: IsOpenCell(b, Along(from, to, k))
  }

  /** The reference definition of a legal slide: same row or column, every
      intermediate cell on the board, not the throne and empty, and the
      destination empty and not the throne. */
  predicate RookPath(b: Board, from: Pos, to: Pos)
    requires IsInside(to)
  {
    SameLine(from, to) && PathClear(b, from, to) && !IsThrone(to) && GetPiece(b, to) == None
  }

  /** Walks from `from` towards `to` one cell at a time, as the engine does. */
  method HasRookPath(b: Board, from: Pos, to: Pos) returns (ok: bool)
    requires IsInside(to)
    ensures ok == RookPath(b, from, to)
  {
    if from.row != to.row && from.col != to.col {
      return false;
    }
    var dr := Sign(to.row - from.row);
    var dc := Sign(to.col - from.col);
    var cur := Pos(from.row + dr, from.col + dc);
    ghost var k := 1;
    while cur != to
      invariant 1 <= k && (k <= Dist(from, to) || from == to)
      invariant cur == Along(from, to, k)
      invariant forall j | 1 <= j < k :: IsOpenCell(b, Along(from, to, j))
      decreases Dist(from, to) - k
    {
      if !IsInside(cur) {
        return false;
      }
      if IsThrone(cur) {
        return false;
      }
      if GetPiece(b, cur) != None {
        return false;
      }
      cur := Pos(cur.row + dr, cur.col + dc);
      k := k + 1;
    }
    if IsThrone(to) {
      return false;
    }
    return GetPiece(b, to) == None;
  }

  /** No slide passes over or ends on the throne. */
  lemma {:induction false} RookPathAvoidsThrone(b: Board, from: Pos, to: Pos, k: int)
    requires IsInside(to) && RookPath(b, from, to)
    requires 1 <= k <= Dist(from, to)
    ensures !IsThrone(Along(from, to, k))
  {
    if k == Dist(from, to) {
      assert Along(from, to, k) == to;
    }
  }

  /** The example of tests/rules.test.ts: from (4,2) no slide reaches (4,6),
      on any board, because the throne lies in between. The general fact is
      RookPathAvoidsThrone. */
  lemma ThroneCannotBeCrossed(b: Board)
    ensures !RookPath(b, Pos(4, 2), Pos(4, 6))
  {
    assert Along(Pos(4, 2), Pos(4, 6), 2) == Throne;
  }

  // ---------------------------------------------------------------------
  // Locating the king and counting pieces

  /** Index of the first king at or after index i, if any. */
  function FirstKingFrom(b: Board, i: nat): (r: Option<nat>)
    requires i <= 81
    ensures r.Some? ==> i <= r.value < 81 && b[r.value] == Some(K)
    ensures r.Some? ==> forall j :: i <= j < r.value ==> b[j] != Some(K)
    ensures r.None? ==> forall j :: i <= j < 81 ==> b[j] != Some(K)
    decreases 81 - i
  {
    if i == 81 then None
    else if b[i] == Some(K) then Some(i)
    else FirstKingFrom(b, i + 1)
  }

  /** The cell of the king (the first 'K' in row-major order), if any. */
  function KingPos(b: Board): (r: Option<Pos>)
    ensures r.Some? ==> IsInside(r.value) && GetPiece(b, r.value) == Some(K)
    ensures r.None? <==> forall i :: 0 <= i < 81 ==> b[i] != Some(K)
  {
    match FirstKingFrom(b, 0)
    case None => None
    case Some(i) => Some(PosOf(i))
  }

  method FindKing(b: Board) returns (r: Option<Pos>)
    ensures r == KingPos(b)
  {
    for i := 0 to 81
      invariant FirstKingFrom(b, 0) == FirstKingFrom(b, i)
    {
      if b[i] == Some(K) {
        return Some(PosOf(i));
      }
    }
    return None;
  }

  /** Number of cells of s holding x, counted left to right. */
  function CountOf(s: seq<Option<Piece>>, x: Piece): (n: nat)
    ensures n == multiset(s)[Some(x)]
  {
    if s == [] then 0
    else
      assert s == s[..|s| - 1] + [s[|s| - 1]];
      CountOf(s[..|s| - 1], x) + (if s[|s| - 1] == Some(x) then 1 else 0)
  }

  datatype PieceCounts = PieceCounts(attackers: nat, defenders: nat, king: nat)

  method CountPieces(b: Board) returns (c: PieceCounts)
    ensures c.attackers == multiset(b)[Some(A)]
    ensures c.defenders == multiset(b)[Some(D)]
    ensures c.king == multiset(b)[Some(K)]
  {
    var attackers, defenders, king := 0, 0, 0;
    for i := 0 to |b|
      invariant attackers == CountOf(b[..i], A)
      invariant defenders == CountOf(b[..i], D)
      invariant king == CountOf(b[..i], K)
    {
      assert b[..i + 1][..i] == b[..i];
      if b[i] == Some(A) { attackers := attackers + 1; }
      if b[i] == Some(D) { defenders := defenders + 1; }
      if b[i] == Some(K) { king := king + 1; }
    }
    assert b[..|b|] == b;
    return PieceCounts(attackers, defenders, king);
  }

  /** The number of kings on a board. */
  function KingCount(b: Board): nat {
    multiset(b)[Some(K)]
  }

  /** Emptying a cell removes the king standing there, if any, and no other. */
  lemma ClearCellKings(b: Board, p: Pos)
    requires IsInside(p)
    ensures KingCount(SetPiece(b, p, None)) == KingCount(b) - (if GetPiece(b, p) == Some(K) then 1 else 0)
  {
  }

  /** Lifting a piece and putting it down on an empty cell keeps every piece
      count: the board holds the same multiset of cells. */
  lemma SlideKeepsPieces(b: Board, from: Pos, to: Pos, piece: Piece)
    requires IsInside(from) && IsInside(to) && from != to
    requires GetPiece(b, from) == Some(piece) && GetPiece(b, to) == None
    ensures multiset(SetPiece(SetPiece(b, from, None), to, Some(piece))) == multiset(b)
  {
    var lifted := SetPiece(b, from, None);
    assert GetPiece(lifted, to) == None;
  }

  /** On a board with at most one king, a king found at kp is the only one. */
  lemma SingleKingAt(b: Board, kp: Pos)
    requires IsInside(kp) && GetPiece(b, kp) == Some(K) && KingCount(b) <= 1
    ensures forall q :: IsInside(q) && GetPiece(b, q) == Some(K) ==> q == kp
  {
    forall q | IsInside(q) && GetPiece(b, q) == Some(K)
      ensures q == kp
    {
      if q != kp {
        ClearCellKings(b, q);
      }
    }
  }

  /** The king's distance to the nearest edge; 0 when there is no king. */
  function ShortestKingDistanceToEdge(b: Board): (r: nat)
    ensures r <= 4
    ensures r == 0 <==> KingPos(b).None? || IsEdge(KingPos(b).value)
    ensures KingPos(b).Some? ==>
      var k := KingPos(b).value;
      r <= k.row && r <= k.col && r <= 8 - k.row && r <= 8 - k.col &&
      (r == k.row || r == k.col || r == 8 - k.row || r == 8 - k.col)
  {
    match KingPos(b)
    case None => 0
    case Some(k) =>
      var m1 := if k.row < k.col then k.row else k.col;
      var m2 := if 8 - k.row < 8 - k.col then 8 - k.row else 8 - k.col;
      if m1 < m2 then m1 else m2
  }

  /** Attackers orthogonally next to the king; 0 when there is no king. */
  function KingAdjacentAttackers(b: Board): (r: nat)
    ensures r <= 4
    ensures KingPos(b).None? ==> r == 0
    ensures KingPos(b).Some? ==> r == |AttackersAround(b, KingPos(b).value)|
  {
    match KingPos(b)
    case None => 0
    case Some(k) =>
      var ns := OrthNeighbors(k);
      assert forall i :: 0 <= i < |ns| ==> ns[i] in ns;
      NeighborCountBound(k);
      CountAttackersAtSet(b, ns);
      CountAttackersAt(b, ns)
  }

  /** With a king on the board, the threat count is 0 exactly when no
      attacker stands orthogonally next to it. */
  lemma KingUnthreatened(b: Board, k: Pos)
    requires KingPos(b) == Some(k)
    ensures KingAdjacentAttackers(b) == 0 <==>
      forall q :: IsInside(q) && Adjacent(k, q) ==> GetPiece(b, q) != Some(A)
  {
    var ns := OrthNeighbors(k);
    assert forall q :: q in ns ==> exists i :: 0 <= i < |ns| && ns[i] == q;
  }

  lemma NeighborCountBound(p: Pos)
    ensures |OrthNeighbors(p)| <= 4
  {
    var all := [Add(p, Dirs[0]), Add(p, Dirs[1]), Add(p, Dirs[2]), Add(p, Dirs[3])];
    InsideOnlyShorter(all);
  }

  lemma {:induction false} InsideOnlyShorter(ps: seq<Pos>)
    ensures |InsideOnly(ps)| <= |ps|
  {
    if ps != [] {
      InsideOnlyShorter(ps[1..]);
    }
  }
}
