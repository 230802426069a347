/** The turn orchestrator: a human move, the bot's automatic reply, the
    "no legal move, pass the turn" fallback and the difficulty change. */
module Engine {
  import opened TablutTypes
  import opened Geometry
  import opened Rules
  import opened Bot

  /** What a client is told about one committed move. */
  datatype MoveEvent = MoveEvent(side: Side, from: Pos, to: Pos, captures: seq<Pos>)

  /** The side effects of a turn: the moves played and the notes shown. */
  datatype Effects = Effects(moveEvents: seq<MoveEvent>, notes: seq<string>)

  /** The state after a turn together with its effects. */
  datatype Turn = Turn(state: TablutState, effects: Effects)

  const NoEffects := Effects([], [])

  /** The version is the only thing a bump changes. */
  function BumpVersion(s: TablutState): (r: TablutState)
    ensures r.version == s.version + 1 && r.(version := s.version) == s
  {
    s.(version := s.version + 1)
  }

  function SideLabel(side: Side): string {
    if side == Attacker then "atacante" else "defensor"
  }

  /** The note shown when the bot has to pass. */
  function NoLegalMovesNote(side: Side): string {
    "El " + SideLabel(side) + " no tiene jugadas legales."
  }

  /** The captures of the latest history record, or none on an empty history. */
  function LastCaptures(s: TablutState): seq<Pos> {
    if |s.moveHistory| == 0 then [] else s.moveHistory[|s.moveHistory| - 1].captures
  }

  // ---------------------------------------------------------------------
  // Specification

  /** The pass fallback: the human side moves next on the same board, the
      new position is counted once more, the legal moves are regenerated
      for it and the version goes up. */
  function PassTurn(s: TablutState): TablutState {
    var passed := s.(sideToMove := s.humanSide, legalMoves := []);
    var h := ComputePositionHash(passed);
    var counted := passed.(positionCounts := passed.positionCounts[h := SeenCount(passed.positionCounts, h) + 1]);
    counted.(legalMoves := LegalMoves(counted, counted.sideToMove), version := counted.version + 1)
  }

  /** The bot's turn: nothing when the game is over or it is the human's
      turn, a pass when the state lists no legal move, and otherwise the
      picked move committed, with one move event. */
  function BotTurn(s: TablutState, difficulty: Difficulty, choice: nat): Result<Turn> {
    if s.phase == GameOver || s.sideToMove != s.botSide then Ok(Turn(s, NoEffects))
    else if |s.legalMoves| == 0 then Ok(Turn(PassTurn(s), Effects([], [NoLegalMovesNote(s.botSide)])))
    else
      match PickedMove(s, difficulty, s.botSide, choice)
      case Err(e) => Err(e)
      case Ok(m) =>
        match CommitMove(s, s.botSide, m.from, m.to)
        case Err(e) => Err(e)
        case Ok(o) =>
          var next := BumpVersion(o.state);
          Ok(Turn(next, Effects([MoveEvent(s.botSide, m.from, m.to, LastCaptures(next))], [])))
  }

  /** The human's move: refused on a finished game or out of turn, otherwise
      committed and followed by the bot's reply when the game goes on and
      the bot is to move. */
  function HumanMove(s: TablutState, from: Pos, to: Pos, choice: nat): Result<Turn>
    requires IsInside(from) && IsInside(to)
  {
    if s.phase == GameOver then Err(GameOverError)
    else if s.sideToMove != s.humanSide then Err(InvalidTurn)
    else
      match CommitMove(s, s.humanSide, from, to)
      case Err(e) => Err(e)
      case Ok(o) =>
        var next := BumpVersion(o.state);
        var event := MoveEvent(s.humanSide, from, to, LastCaptures(next));
        if next.phase != GameOver && next.sideToMove == next.botSide then
          match BotTurn(next, next.difficulty, choice)
          case Err(e) => Err(e)
          case Ok(reply) => Ok(Turn(reply.state, Effects([event] + reply.effects.moveEvents, reply.effects.notes)))
        else Ok(Turn(next, Effects([event], [])))
  }

  /** A difficulty change on a game in progress. */
  function ChangeDifficulty(s: TablutState, difficulty: Difficulty): Result<TablutState> {
    if s.phase == GameOver then Err(GameOverError)
    else Ok(BumpVersion(s.(difficulty := difficulty)))
  }

  // ---------------------------------------------------------------------
  // Properties

  /** The legal moves depend on the position only, so a version bump keeps
      them fresh. */
  lemma BumpKeepsFresh(s: TablutState)
    requires Fresh(s)
    ensures Fresh(BumpVersion(s))
  {
    LegalMovesCongruent(s, BumpVersion(s), s.sideToMove);
  }

  /** The pass keeps the board, hands the turn to the human, counts the
      position reached once more, leaves fresh legal moves and bumps the
      version; nothing else changes. */
  lemma PassTurnSpec(s: TablutState)
    ensures var p := PassTurn(s);
      var h := PositionHash(s.board, s.humanSide, s.kingHasLeftThrone);
      p.board == s.board && p.sideToMove == s.humanSide &&
      p.positionCounts == s.positionCounts[h := SeenCount(s.positionCounts, h) + 1] &&
      p.version == s.version + 1 && Fresh(p) &&
      p.(sideToMove := s.sideToMove, positionCounts := s.positionCounts,
         legalMoves := s.legalMoves, version := s.version) == s
  {
    var p := PassTurn(s);
    var passed := s.(sideToMove := s.humanSide, legalMoves := []);
    var h := ComputePositionHash(passed);
    var counted := passed.(positionCounts := passed.positionCounts[h := SeenCount(passed.positionCounts, h) + 1]);
    LegalMovesCongruent(counted, p, p.sideToMove);
  }

  /** The bot does nothing when the game is over or the human is to move. */
  lemma BotTurnIdle(s: TablutState, difficulty: Difficulty, choice: nat)
    requires s.phase == GameOver || s.sideToMove != s.botSide
    ensures BotTurn(s, difficulty, choice) == Ok(Turn(s, NoEffects))
  {
  }

  /** On its turn with no legal move listed, the bot passes with no move
      event and exactly one note. */
  lemma BotTurnPasses(s: TablutState, difficulty: Difficulty, choice: nat)
    requires s.phase != GameOver && s.sideToMove == s.botSide && s.legalMoves == []
    ensures BotTurn(s, difficulty, choice) == Ok(Turn(PassTurn(s), Effects([], [NoLegalMovesNote(s.botSide)])))
    ensures |BotTurn(s, difficulty, choice).value.effects.notes| == 1
  {
  }

  /** A listed move is always accepted by the checked application. */
  lemma ListedMoveCommits(s: TablutState, side: Side, m: TablutMove)
    requires Fresh(s) && s.phase != GameOver && s.sideToMove == side
    requires m in s.legalMoves
    ensures IsInside(m.from) && IsInside(m.to) && CommitMove(s, side, m.from, m.to).Ok?
  {
    LegalMovesSound(s, side, m);
    assert IsInside(m.from) && IsInside(m.to);
    assert SameEnds(m, m.from, m.to);
    assert FirstMatch(s.legalMoves, m.from, m.to).Some?;
    ListedMoveAccepted(s, side, m.from, m.to);
  }

  /** On a state whose legal moves are fresh, the bot's turn cannot fail: when
      it is the bot's turn with a move to play it commits the picked move,
      bumps the version and reports exactly that move; and the state it
      leaves has fresh legal moves. */
  lemma BotTurnMoves(s: TablutState, difficulty: Difficulty, choice: nat)
    requires Fresh(s)
    ensures BotTurn(s, difficulty, choice).Ok?
    ensures Fresh(BotTurn(s, difficulty, choice).value.state)
    ensures var t := BotTurn(s, difficulty, choice).value;
      |t.effects.moveEvents| <= 1 && |t.effects.notes| <= 1
    ensures s.phase != GameOver && s.sideToMove == s.botSide && s.legalMoves != [] ==>
      var m := PickedMove(s, difficulty, s.botSide, choice);
      var t := BotTurn(s, difficulty, choice).value;
      m.Ok? && m.value in s.legalMoves && IsInside(m.value.from) && IsInside(m.value.to) &&
      CommitMove(s, s.botSide, m.value.from, m.value.to).Ok? &&
      t.state == BumpVersion(CommitMove(s, s.botSide, m.value.from, m.value.to).value.state) &&
      t.effects == Effects([MoveEvent(s.botSide, m.value.from, m.value.to, LastCaptures(t.state))], [])
  {
    if s.phase == GameOver || s.sideToMove != s.botSide {
    } else if |s.legalMoves| == 0 {
      PassTurnSpec(s);
    } else {
      var moves := SelectCandidateMoves(s, s.sideToMove, difficulty);
      ShortlistShape(LegalMoves(s, s.sideToMove), difficulty);
      assert moves != [];
      PickedMoveErrors(s, difficulty, s.botSide, choice);
      var m := PickedMove(s, difficulty, s.botSide, choice).value;
      ListedMoveCommits(s, s.botSide, m);
      CommitKeepsFresh(s, s.botSide, m.from, m.to);
      BumpKeepsFresh(CommitMove(s, s.botSide, m.from, m.to).value.state);
    }
  }

  /** The human's move is refused on a finished game and out of turn. */
  lemma HumanMoveGuards(s: TablutState, from: Pos, to: Pos, choice: nat)
    requires IsInside(from) && IsInside(to)
    ensures s.phase == GameOver ==> HumanMove(s, from, to, choice) == Err(GameOverError)
    ensures s.phase != GameOver && s.sideToMove != s.humanSide ==> HumanMove(s, from, to, choice) == Err(InvalidTurn)
    ensures HumanMove(s, from, to, choice).Ok? <==>
      s.phase != GameOver && s.sideToMove == s.humanSide && CommitMove(s, s.humanSide, from, to).Ok? &&
      (var next := BumpVersion(CommitMove(s, s.humanSide, from, to).value.state);
       next.phase != GameOver && next.sideToMove == next.botSide ==> BotTurn(next, next.difficulty, choice).Ok?)
  {
  }

  /** The state right after the human's accepted move, before any reply. */
  function AfterHuman(s: TablutState, from: Pos, to: Pos): TablutState
    requires IsInside(from) && IsInside(to) && CommitMove(s, s.humanSide, from, to).Ok?
  {
    BumpVersion(CommitMove(s, s.humanSide, from, to).value.state)
  }

  /** Whether the bot replies to the human's accepted move. */
  predicate BotReplies(next: TablutState) {
    next.phase != GameOver && next.sideToMove == next.botSide
  }

  /** Starting from fresh legal moves, an accepted human move leaves fresh
      legal moves, and the turn cannot fail afterwards. */
  lemma HumanMoveFresh(s: TablutState, from: Pos, to: Pos, choice: nat)
    requires IsInside(from) && IsInside(to)
    requires s.phase != GameOver && s.sideToMove == s.humanSide && CommitMove(s, s.humanSide, from, to).Ok?
    requires Fresh(s)
    ensures Fresh(AfterHuman(s, from, to))
    ensures HumanMove(s, from, to, choice).Ok?
    ensures Fresh(HumanMove(s, from, to, choice).value.state)
  {
    CommitKeepsFresh(s, s.humanSide, from, to);
    BumpKeepsFresh(CommitMove(s, s.humanSide, from, to).value.state);
    var next := AfterHuman(s, from, to);
    BotTurnMoves(next, next.difficulty, choice);
  }

  /** An accepted human move reports itself first, with the captures of its
      own history record, and is followed by at most one bot move: the bot
      replies exactly when the game goes on with the bot to move. */
  lemma HumanMoveEffects(s: TablutState, from: Pos, to: Pos, choice: nat)
    requires IsInside(from) && IsInside(to)
    requires s.phase != GameOver && s.sideToMove == s.humanSide && CommitMove(s, s.humanSide, from, to).Ok?
    requires Fresh(s)
    ensures var o := CommitMove(s, s.humanSide, from, to).value;
      var next := AfterHuman(s, from, to);
      HumanMove(s, from, to, choice).Ok? &&
      var r := HumanMove(s, from, to, choice).value;
      1 <= |r.effects.moveEvents| <= 2 &&
      r.effects.moveEvents[0] == MoveEvent(s.humanSide, from, to, CapturePositions(o.captured)) &&
      (BotReplies(next) ==>
         BotTurn(next, next.difficulty, choice).Ok? &&
         r.state == BotTurn(next, next.difficulty, choice).value.state) &&
      (!BotReplies(next) ==> r.state == next && |r.effects.moveEvents| == 1 && r.effects.notes == [])
  {
    HumanMoveFresh(s, from, to, choice);
    var o := CommitMove(s, s.humanSide, from, to).value;
    var next := AfterHuman(s, from, to);
    CommitAccepted(s, s.humanSide, from, to);
    assert LastCaptures(next) == CapturePositions(o.captured);
    BotTurnMoves(next, next.difficulty, choice);
  }

  /** A difficulty change is refused on a finished game, and otherwise
      changes only the difficulty and the version. */
  lemma ChangeDifficultySpec(s: TablutState, difficulty: Difficulty)
    ensures s.phase == GameOver <==> ChangeDifficulty(s, difficulty) == Err(GameOverError)
    ensures ChangeDifficulty(s, difficulty).Ok? ==>
      var t := ChangeDifficulty(s, difficulty).value;
      t.difficulty == difficulty && t.version == s.version + 1 &&
      t.(difficulty := s.difficulty, version := s.version) == s
    ensures ChangeDifficulty(s, difficulty).Ok? && Fresh(s) ==> Fresh(ChangeDifficulty(s, difficulty).value)
  {
    if s.phase != GameOver {
      LegalMovesCongruent(s, ChangeDifficulty(s, difficulty).value, s.sideToMove);
    }
  }

  /** No turn of the game adds a king: the bot's turn either leaves the
      board alone, passes on it, or commits one move. */
  lemma BotTurnNoNewKing(s: TablutState, difficulty: Difficulty, choice: nat)
    ensures var r := BotTurn(s, difficulty, choice);
      r.Ok? ==> KingCount(r.value.state.board) <= KingCount(s.board)
  {
    if s.phase != GameOver && s.sideToMove == s.botSide && |s.legalMoves| != 0 {
      var m := PickedMove(s, difficulty, s.botSide, choice);
      if m.Ok? {
        CommitNoNewKing(s, s.botSide, m.value.from, m.value.to);
      }
    }
  }

  /** A human move, with the bot's reply, never adds a king. */
  lemma HumanMoveNoNewKing(s: TablutState, from: Pos, to: Pos, choice: nat)
    requires IsInside(from) && IsInside(to)
    ensures var r := HumanMove(s, from, to, choice);
      r.Ok? ==> KingCount(r.value.state.board) <= KingCount(s.board)
  {
    CommitNoNewKing(s, s.humanSide, from, to);
    if s.phase != GameOver && s.sideToMove == s.humanSide && CommitMove(s, s.humanSide, from, to).Ok? {
      var next := AfterHuman(s, from, to);
      BotTurnNoNewKing(next, next.difficulty, choice);
    }
  }

  // ---------------------------------------------------------------------
  // The orchestrator as the server runs it

  /** The pass fallback, regenerating the legal moves of the passed state. */
  method PassBy(s: TablutState) returns (passed: TablutState)
    ensures passed == PassTurn(s)
  {
    passed := s.(sideToMove := s.humanSide, legalMoves := []);
    var h := ComputePositionHash(passed);
    var counted := passed.(positionCounts := passed.positionCounts[h := SeenCount(passed.positionCounts, h) + 1]);
    var moves := GenerateLegalMoves(counted, counted.sideToMove);
    passed := counted.(legalMoves := moves);
    passed := passed.(version := passed.version + 1);
  }

  method RunBotTurn(s: TablutState, difficulty: Difficulty, choice: nat) returns (r: Result<Turn>)
    ensures r == BotTurn(s, difficulty, choice)
  {
    if s.phase == GameOver || s.sideToMove != s.botSide {
      return Ok(Turn(s, NoEffects));
    }
    if |s.legalMoves| == 0 {
      var passed := PassBy(s);
      return Ok(Turn(passed, Effects([], [NoLegalMovesNote(s.botSide)])));
    }
    var picked := PickBotMoveAlphaBeta(s, difficulty, s.botSide, choice);
    if picked.Err? {
      return Err(picked.error);
    }
    var m := picked.value;
    var outcome := ApplyMove(s, s.botSide, m.from, m.to);
    if outcome.Err? {
      return Err(outcome.error);
    }
    var next := BumpVersion(outcome.value.state);
    assert picked == PickedMove(s, difficulty, s.botSide, choice);
    return Ok(Turn(next, Effects([MoveEvent(s.botSide, m.from, m.to, LastCaptures(next))], [])));
  }

  method OnHumanMove(s: TablutState, from: Pos, to: Pos, choice: nat) returns (r: Result<Turn>)
    requires IsInside(from) && IsInside(to)
    ensures r == HumanMove(s, from, to, choice)
  {
    if s.phase == GameOver {
      return Err(GameOverError);
    }
    if s.sideToMove != s.humanSide {
      return Err(InvalidTurn);
    }
    var outcome := ApplyMove(s, s.humanSide, from, to);
    if outcome.Err? {
      return Err(outcome.error);
    }
    var next := BumpVersion(outcome.value.state);
    var events := [MoveEvent(s.humanSide, from, to, LastCaptures(next))];
    var notes: seq<string> := [];
    if next.phase != GameOver && next.sideToMove == next.botSide {
      var reply := RunBotTurn(next, next.difficulty, choice);
      if reply.Err? {
        return Err(reply.error);
      }
      next := reply.value.state;
      events := events + reply.value.effects.moveEvents;
      // the human's move brings no notes, so the reply's notes are all of them
      notes := reply.value.effects.notes;
    }
    return Ok(Turn(next, Effects(events, notes)));
  }

  method OnChangeDifficulty(s: TablutState, difficulty: Difficulty) returns (r: Result<TablutState>)
    ensures r == ChangeDifficulty(s, difficulty)
  {
    if s.phase == GameOver {
      return Err(GameOverError);
    }
    var t := s.(difficulty := difficulty);
    t := t.(version := t.version + 1);
    return Ok(t);
  }
}
