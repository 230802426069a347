/** Value types of the Tablut backend: sides, pieces, positions, moves,
    move records, the outcome of applying a move, the game state and the
    closed set of rule errors that the engine reports. */
module TablutTypes {

  datatype Option<+T> = None | Some(value: T)

  datatype Side = Attacker | Defender

  /** 'A' (attacker), 'D' (defender) and 'K' (the king, which plays for the defenders). */
  datatype Piece = A | D | K

  datatype Phase = InProgress | GameOver

  /** Search depth; the game only ever uses 2 or 4. */
  type Difficulty = d: int | d == 2 || d == 4 witness 2

  /** A cell coordinate. Coordinates are unbounded integers because stepping
      off the board (row -1 or 9) is part of how the rules probe neighbours. */
  datatype Pos = Pos(row: int, col: int)

  /** 81 cells, row-major, each empty or holding one piece. */
  type Board = b: seq<Option<Piece>> | |b| == 81 witness seq(81, _ => None)

  datatype PlayerBinding = PlayerBinding(side: Side, isHuman: bool)

  datatype Players = Players(attacker: PlayerBinding, defender: PlayerBinding)

  datatype TablutMove = TablutMove(from: Pos, to: Pos, capturesPreview: seq<Pos>)

  datatype MoveRecord = MoveRecord(
    turn: int,
    side: Side,
    from: Pos,
    to: Pos,
    captures: seq<Pos>,
    capturedPieces: seq<Piece>)

  /** One piece removed by a move, with the cell it stood on. */
  datatype Capture = Capture(pos: Pos, piece: Piece)

  datatype TablutState = TablutState(
    id: string,
    version: int,
    phase: Phase,
    sideToMove: Side,
    board: Board,
    kingHasLeftThrone: bool,
    humanSide: Side,
    botSide: Side,
    players: Players,
    winnerSide: Option<Side>,
    difficulty: Difficulty,
    legalMoves: seq<TablutMove>,
    moveHistory: seq<MoveRecord>,
    positionCounts: map<string, int>)

  datatype ApplyMoveOutcome = ApplyMoveOutcome(
    state: TablutState,
    captured: seq<Capture>,
    winner: Option<Side>,
    illegalByRepetition: bool)

  /** The reasons the engine and the bot throw with. */
  datatype Error =
    | EmptySource
    | PieceNotOwned
    | InvalidPath
    | GameOverError
    | InvalidTurn
    | IllegalMove
    | AttackerMustBreakRepetition
    | BotNotOnTurn
    | BotNoLegalMoves

  datatype Result<+T> = Ok(value: T) | Err(error: Error)

  function Opposite(side: Side): (r: Side)
    ensures r != side
  {
    if side == Attacker then Defender else Attacker
  }
}
