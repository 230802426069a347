/** The opening position and the construction of a new game's state. */
module InitialState {
  import opened TablutTypes
  import opened Geometry
  import opened CaptureRules
  import opened Rules

  const DefaultDifficulty: Difficulty := 4

  function EmptyBoard(): (b: Board)
    ensures forall i :: 0 <= i < 81 ==> b[i] == None
  {
    seq(81, _ => None)
  }

  /** The board with `x` written at a row and a column. */
  function Place(b: Board, row: int, col: int, x: Piece): Board
    requires 0 <= row < 9 && 0 <= col < 9
  {
    b[row * 9 + col := Some(x)]
  }

  /** The king on the throne and its eight defenders around it, in the
      engine's order. */
  function WithCross(b: Board): Board {
    var b := Place(b, 4, 4, K);
    var b := Place(b, 4, 3, D);
    var b := Place(b, 4, 5, D);
    var b := Place(b, 3, 4, D);
    var b := Place(b, 5, 4, D);
    var b := Place(b, 4, 2, D);
    var b := Place(b, 4, 6, D);
    var b := Place(b, 2, 4, D);
    Place(b, 6, 4, D)
  }

  /** The attacker blocks in the middle of the top and the bottom edge. */
  function WithTopBottom(b: Board): Board {
    var b := Place(b, 0, 3, A);
    var b := Place(b, 0, 4, A);
    var b := Place(b, 0, 5, A);
    var b := Place(b, 1, 4, A);
    var b := Place(b, 8, 3, A);
    var b := Place(b, 8, 4, A);
    var b := Place(b, 8, 5, A);
    Place(b, 7, 4, A)
  }

  /** The attacker blocks in the middle of the left and the right edge. */
  function WithLeftRight(b: Board): Board {
    var b := Place(b, 3, 0, A);
    var b := Place(b, 4, 0, A);
    var b := Place(b, 5, 0, A);
    var b := Place(b, 4, 1, A);
    var b := Place(b, 3, 8, A);
    var b := Place(b, 4, 8, A);
    var b := Place(b, 5, 8, A);
    Place(b, 4, 7, A)
  }

  /** The opening position, written cell by cell in the engine's order. */
  function InitialBoard(): Board {
    WithLeftRight(WithTopBottom(WithCross(EmptyBoard())))
  }

  /** The opening layout described by geometry rather than by writes: the
      king on the throne; defenders on the central cross within two steps of
      the throne; attackers on the rest of the cross and on the edge cells
      either side of each edge's middle. */
  function Layout(p: Pos): Option<Piece> {
    var onCross := p.row == 4 || p.col == 4;
    if p == Throne then Some(K)
    else if onCross && Dist(p, Throne) <= 2 then Some(D)
    else if onCross then Some(A)
    else if IsEdge(p) && (p.row == 3 || p.row == 5 || p.col == 3 || p.col == 5) then Some(A)
    else None
  }

  lemma InitialBoardLayout(p: Pos)
    requires IsInside(p)
    ensures GetPiece(InitialBoard(), p) == Layout(p)
  {
  }

  /** Row `r` of the opening position, drawn out cell by cell. */
  function Picture(r: int): (row: seq<Option<Piece>>)
    ensures |row| == 9
  {
    var N: Option<Piece> := None;
    var a := Some(A);
    var d := Some(D);
    if r == 0 || r == 8 then [N, N, N, a, a, a, N, N, N]
    else if r == 1 || r == 7 then [N, N, N, N, a, N, N, N, N]
    else if r == 2 || r == 6 then [N, N, N, N, d, N, N, N, N]
    else if r == 3 || r == 5 then [a, N, N, N, d, N, N, N, a]
    else [a, a, d, d, Some(K), d, d, a, a]
  }

  lemma PictureLayout(r: int, c: int)
    requires 0 <= r < 9 && 0 <= c < 9
    ensures Picture(r)[c] == Layout(Pos(r, c))
  {
  }

  lemma InitialRow(r: int)
    requires 0 <= r < 9
    ensures InitialBoard()[9 * r..9 * r + 9] == Picture(r)
  {
    forall c | 0 <= c < 9
      ensures InitialBoard()[9 * r..9 * r + 9][c] == Picture(r)[c]
    {
      InitialBoardLayout(Pos(r, c));
      PictureLayout(r, c);
    }
  }

  /** Cells of row `q` holding `x`. */
  function RowCount(b: Board, q: int, x: Piece): nat
    requires 0 <= q < 9
  {
    (if b[9 * q + 0] == Some(x) then 1 else 0) + (if b[9 * q + 1] == Some(x) then 1 else 0) + (if b[9 * q + 2] == Some(x) then 1 else 0) + (if b[9 * q + 3] == Some(x) then 1 else 0) + (if b[9 * q + 4] == Some(x) then 1 else 0) + (if b[9 * q + 5] == Some(x) then 1 else 0) + (if b[9 * q + 6] == Some(x) then 1 else 0) + (if b[9 * q + 7] == Some(x) then 1 else 0) + (if b[9 * q + 8] == Some(x) then 1 else 0)
  }

  /** Cells among the first `n` of `b` holding `x`. */
  function Census(b: seq<Option<Piece>>, x: Piece, n: nat): nat
    requires n <= |b|
  {
    if n == 0 then 0 else Census(b, x, n - 1) + (if b[n - 1] == Some(x) then 1 else 0)
  }

  lemma {:induction false} CensusPrefix(b: seq<Option<Piece>>, x: Piece, n: nat)
    requires n <= |b|
    ensures Census(b, x, n) == multiset(b[..n])[Some(x)]
    decreases n
  {
    if n > 0 {
      CensusPrefix(b, x, n - 1);
      assert b[..n] == b[..n - 1] + [b[n - 1]];
    }
  }

  lemma CensusStep(b: seq<Option<Piece>>, x: Piece, n: nat)
    requires n < |b|
    ensures Census(b, x, n + 1) == Census(b, x, n) + (if b[n] == Some(x) then 1 else 0)
  {
  }

  lemma CensusRow(b: Board, x: Piece, q: int)
    requires 0 <= q < 9
    ensures Census(b, x, 9 * q + 9) == Census(b, x, 9 * q) + RowCount(b, q, x)
  {
    CensusStep(b, x, 9 * q + 8);
    CensusStep(b, x, 9 * q + 7);
    CensusStep(b, x, 9 * q + 6);
    CensusStep(b, x, 9 * q + 5);
    CensusStep(b, x, 9 * q + 4);
    CensusStep(b, x, 9 * q + 3);
    CensusStep(b, x, 9 * q + 2);
    CensusStep(b, x, 9 * q + 1);
    CensusStep(b, x, 9 * q + 0);
  }

  /** A board's count of a piece is the sum of its rows' counts. */
  lemma CensusRows(b: Board, x: Piece)
    ensures multiset(b)[Some(x)] == RowCount(b, 0, x) + RowCount(b, 1, x) + RowCount(b, 2, x) + RowCount(b, 3, x) + RowCount(b, 4, x) + RowCount(b, 5, x) + RowCount(b, 6, x) + RowCount(b, 7, x) + RowCount(b, 8, x)
  {
    CensusPrefix(b, x, 81);
    assert b[..81] == b;
    CensusRow(b, x, 0);
    CensusRow(b, x, 1);
    CensusRow(b, x, 2);
    CensusRow(b, x, 3);
    CensusRow(b, x, 4);
    CensusRow(b, x, 5);
    CensusRow(b, x, 6);
    CensusRow(b, x, 7);
    CensusRow(b, x, 8);
  }

  /** Row by row, the opening position holds 3, 1, 0, 2, 4, 2, 0, 1, 3
      attackers, 0, 0, 1, 1, 4, 1, 1, 0, 0 defenders and the king in the
      middle row. */
  function Expected(q: int, x: Piece): nat
    requires 0 <= q < 9
  {
    match x
    case A => [3, 1, 0, 2, 4, 2, 0, 1, 3][q]
    case D => [0, 0, 1, 1, 4, 1, 1, 0, 0][q]
    case K => if q == 4 then 1 else 0
  }

  lemma PictureRowCount(b: Board, q: int, x: Piece)
    requires 0 <= q < 9
    requires forall c :: 0 <= c < 9 ==> b[9 * q + c] == Picture(q)[c]
    ensures RowCount(b, q, x) == Expected(q, x)
  {
    var row := Picture(q);
    assert RowCount(b, q, x) == (if row[0] == Some(x) then 1 else 0) + (if row[1] == Some(x) then 1 else 0) + (if row[2] == Some(x) then 1 else 0) + (if row[3] == Some(x) then 1 else 0) + (if row[4] == Some(x) then 1 else 0) + (if row[5] == Some(x) then 1 else 0) + (if row[6] == Some(x) then 1 else 0) + (if row[7] == Some(x) then 1 else 0) + (if row[8] == Some(x) then 1 else 0);
  }

  lemma InitialRowCount(q: int, x: Piece)
    requires 0 <= q < 9
    ensures RowCount(InitialBoard(), q, x) == Expected(q, x)
  {
    var b := InitialBoard();
    forall c | 0 <= c < 9
      ensures b[9 * q + c] == Picture(q)[c]
    {
      InitialRow(q);
      assert b[9 * q..9 * q + 9][c] == b[9 * q + c];
    }
    PictureRowCount(b, q, x);
  }

  lemma InitialRowsCounted()
    ensures forall q, x :: 0 <= q < 9 ==> RowCount(InitialBoard(), q, x) == Expected(q, x)
  {
    forall q, x | 0 <= q < 9
      ensures RowCount(InitialBoard(), q, x) == Expected(q, x)
    {
      InitialRowCount(q, x);
    }
  }

  /** A board whose rows hold the expected counts holds sixteen attackers,
      eight defenders and one king. */
  lemma TallyFromRows(b: Board)
    requires forall q, x :: 0 <= q < 9 ==> RowCount(b, q, x) == Expected(q, x)
    ensures multiset(b)[Some(A)] == 16
    ensures multiset(b)[Some(D)] == 8
    ensures multiset(b)[Some(K)] == 1
  {
    CensusRows(b, A);
    CensusRows(b, D);
    CensusRows(b, K);
  }

  /** Sixteen attackers, eight defenders and one king. */
  lemma InitialCounts()
    ensures multiset(InitialBoard())[Some(A)] == 16
    ensures multiset(InitialBoard())[Some(D)] == 8
    ensures multiset(InitialBoard())[Some(K)] == 1
  {
    InitialRowsCounted();
    TallyFromRows(InitialBoard());
  }

  lemma InitialKing()
    ensures KingPos(InitialBoard()) == Some(Throne)
  {
    var b := InitialBoard();
    forall q | IsInside(q) && GetPiece(b, q) == Some(K) ensures q == Throne {
      InitialBoardLayout(q);
    }
    KingPosUnique(b, Throne);
  }

  /** One indexed write into the board array. */
  method Put(cells: array<Option<Piece>>, row: int, col: int, x: Piece)
    requires cells.Length == 81 && 0 <= row < 9 && 0 <= col < 9
    modifies cells
    ensures cells[..] == old(cells[..])[row * 9 + col := Some(x)]
  {
    cells[row * 9 + col] := Some(x);
  }

  method PutCross(cells: array<Option<Piece>>)
    requires cells.Length == 81
    modifies cells
    ensures cells[..] == WithCross(old(cells[..]))
  {
    Put(cells, 4, 4, K);
    Put(cells, 4, 3, D);
    Put(cells, 4, 5, D);
    Put(cells, 3, 4, D);
    Put(cells, 5, 4, D);
    Put(cells, 4, 2, D);
    Put(cells, 4, 6, D);
    Put(cells, 2, 4, D);
    Put(cells, 6, 4, D);
  }

  method PutTopBottom(cells: array<Option<Piece>>)
    requires cells.Length == 81
    modifies cells
    ensures cells[..] == WithTopBottom(old(cells[..]))
  {
    Put(cells, 0, 3, A);
    Put(cells, 0, 4, A);
    Put(cells, 0, 5, A);
    Put(cells, 1, 4, A);
    Put(cells, 8, 3, A);
    Put(cells, 8, 4, A);
    Put(cells, 8, 5, A);
    Put(cells, 7, 4, A);
  }

  method PutLeftRight(cells: array<Option<Piece>>)
    requires cells.Length == 81
    modifies cells
    ensures cells[..] == WithLeftRight(old(cells[..]))
  {
    Put(cells, 3, 0, A);
    Put(cells, 4, 0, A);
    Put(cells, 5, 0, A);
    Put(cells, 4, 1, A);
    Put(cells, 3, 8, A);
    Put(cells, 4, 8, A);
    Put(cells, 5, 8, A);
    Put(cells, 4, 7, A);
  }

  /** The engine fills a fresh 81-cell array by indexed writes: the king and
      the defenders, then the attackers of the top and bottom edges, then
      those of the left and right edges. */
  method MakeInitialBoard() returns (b: Board)
    ensures b == InitialBoard()
  {
    var cells := new Option<Piece>[81](_ => None);
    assert cells[..] == EmptyBoard();
    PutCross(cells);
    PutTopBottom(cells);
    PutLeftRight(cells);
    b := cells[..];
  }

  /** A new game: attackers to move whatever side the human takes, the bot on
      the other side, the opening position recorded once and the attackers'
      legal moves listed. An absent difficulty means the default. */
  method CreateInitialState(gameId: string, difficulty: Option<Difficulty>, humanSide: Side)
    returns (s: TablutState)
    ensures s.id == gameId && s.version == 0
    ensures s.phase == InProgress && s.winnerSide == None
    ensures s.sideToMove == Attacker
    ensures s.humanSide == humanSide && s.botSide == Opposite(humanSide)
    ensures s.players.attacker == PlayerBinding(Attacker, humanSide == Attacker)
    ensures s.players.defender == PlayerBinding(Defender, humanSide == Defender)
    ensures s.difficulty == if difficulty.Some? then difficulty.value else DefaultDifficulty
    ensures s.board == InitialBoard() && !s.kingHasLeftThrone
    ensures s.moveHistory == []
    ensures s.positionCounts == map[ComputePositionHash(s) := 1]
    ensures s.legalMoves == LegalMoves(s, Attacker) && Fresh(s)
  {
    var botSide := if humanSide == Attacker then Defender else Attacker;
    var board := MakeInitialBoard();
    var level := if difficulty.Some? then difficulty.value else DefaultDifficulty;
    s := TablutState(
      gameId, 0, InProgress, Attacker, board, false, humanSide, botSide,
      Players(PlayerBinding(Attacker, humanSide == Attacker), PlayerBinding(Defender, humanSide == Defender)),
      None, level, [], [], map[]);
    var hash := ComputePositionHash(s);
    s := s.(positionCounts := s.positionCounts[hash := 1]);
    var moves := GenerateLegalMoves(s, s.sideToMove);
    ghost var before := s;
    s := s.(legalMoves := moves);
    LegalMovesCongruent(before, s, Attacker);
  }
}
