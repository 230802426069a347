/** The transition core of the rules engine: the canonical position hash,
    the unchecked move application (with its flag that says whether the
    legal moves of the resulting state are regenerated), legal-move
    enumeration and the checked, committing move application. */
module Rules {
  import opened TablutTypes
  import opened Geometry
  import opened CaptureRules
  import opened SeqUtil

  // ---------------------------------------------------------------------
  // Position hash

  function Glyph(c: Option<Piece>): char {
    match c
    case None => '.'
    case Some(A) => 'A'
    case Some(D) => 'D'
    case Some(K) => 'K'
  }

  function SideName(side: Side): string {
    if side == Attacker then "ATTACKER" else "DEFENDER"
  }

  /** One glyph per cell, row-major. */
  function BoardKey(b: Board): (key: string)
    ensures |key| == 81
  {
    seq(81, i requires 0 <= i < 81 => Glyph(b[i]))
  }

  /** `<81 glyphs>|<side>|<0 or 1>` */
  function PositionHash(b: Board, side: Side, kingHasLeftThrone: bool): string {
    BoardKey(b) + "|" + SideName(side) + "|" + (if kingHasLeftThrone then "1" else "0")
  }

  function ComputePositionHash(s: TablutState): string {
    PositionHash(s.board, s.sideToMove, s.kingHasLeftThrone)
  }

  /** The hash is collision-free: it determines board, side and throne flag. */
  lemma PositionHashInjective(b1: Board, side1: Side, f1: bool, b2: Board, side2: Side, f2: bool)
    requires PositionHash(b1, side1, f1) == PositionHash(b2, side2, f2)
    ensures b1 == b2 && side1 == side2 && f1 == f2
  {
    var h1, h2 := PositionHash(b1, side1, f1), PositionHash(b2, side2, f2);
    assert h1[..81] == BoardKey(b1) && h2[..81] == BoardKey(b2);
    forall i | 0 <= i < 81 ensures b1[i] == b2[i] {
      assert BoardKey(b1)[i] == BoardKey(b2)[i];
    }
    assert h1[82] == SideName(side1)[0] && h2[82] == SideName(side2)[0];
    assert h1[91] == (if f1 then '1' else '0');
    assert h2[91] == (if f2 then '1' else '0');
  }

  /** Occurrences recorded for a hash; absent keys count 0. */
  function SeenCount(counts: map<string, int>, h: string): int {
    if h in counts then counts[h] else 0
  }

  function CapturePositions(cs: seq<Capture>): (ps: seq<Pos>)
    ensures |ps| == |cs| && forall i :: 0 <= i < |cs| ==> ps[i] == cs[i].pos
  {
    seq(|cs|, i requires 0 <= i < |cs| => cs[i].pos)
  }

  function CapturePieces(cs: seq<Capture>): (ps: seq<Piece>)
    ensures |ps| == |cs| && forall i :: 0 <= i < |cs| ==> ps[i] == cs[i].piece
  {
    seq(|cs|, i requires 0 <= i < |cs| => cs[i].piece)
  }

  // ---------------------------------------------------------------------
  // Unchecked application and legal-move enumeration

  /** Applies a move of `side` without checking whose turn it is or whether
      the game is over. Fails with EmptySource, PieceNotOwned or InvalidPath,
      in that order. A non-winning attacker move that recreates a position
      already counted twice is reported as illegal by repetition together
      with the untouched input state. With `recompute` the legal moves of a
      resulting in-progress state are regenerated; without it they are left
      empty, which is what keeps enumeration from recursing into itself. */
  function ApplyUnchecked(s: TablutState, from: Pos, to: Pos, side: Side, recompute: bool): Result<ApplyMoveOutcome>
    requires IsInside(from) && IsInside(to)
  {
    var o := Settle(s, from, to, side);
    if recompute && o.Ok? && !o.value.illegalByRepetition && o.value.winner.None? then
      var t := o.value.state;
      Ok(o.value.(state := t.(legalMoves := LegalMoves(t, t.sideToMove))))
    else o
  }

  /** The unchecked application with the legal moves of the result left empty. */
  function Settle(s: TablutState, from: Pos, to: Pos, side: Side): Result<ApplyMoveOutcome>
    requires IsInside(from) && IsInside(to)
  {
    var piece := GetPiece(s.board, from);
    if piece.None? then Err(EmptySource)
    else if !IsFriendly(piece, side) then Err(PieceNotOwned)
    else if !RookPath(s.board, from, to) then Err(InvalidPath)
    else Conclude(s, side, Resolve(s.board, s.kingHasLeftThrone, from, to, side, piece.value))
  }

  /** The rest of an unchecked application once the board-level resolution
      is known: record winner and phase, and for a move that does not end the
      game pass the turn, apply the repetition rule and count the new
      position. */
  function Conclude(s: TablutState, side: Side, res: Resolution): Result<ApplyMoveOutcome> {
    var next := s.(board := res.board, kingHasLeftThrone := res.kingHasLeftThrone,
                   winnerSide := res.winner, phase := if res.winner.Some? then GameOver else InProgress,
                   legalMoves := []);
    if res.winner.None? then
      var turned := next.(sideToMove := Opposite(side));
      var hash := ComputePositionHash(turned);
      var count := SeenCount(turned.positionCounts, hash);
      if side == Attacker && count >= 2 then
        Ok(ApplyMoveOutcome(s, [], None, true))
      else
        Ok(ApplyMoveOutcome(turned.(positionCounts := turned.positionCounts[hash := count + 1]), res.captured, None, false))
    else
      Ok(ApplyMoveOutcome(next, res.captured, res.winner, false))
  }

  // ---------------------------------------------------------------------
  // What an unchecked application does

  /** The board-level resolution of a move whose source holds a piece. */
  function ResolutionOf(s: TablutState, from: Pos, to: Pos, side: Side): Resolution
    requires IsInside(from) && IsInside(to) && GetPiece(s.board, from).Some?
  {
    Resolve(s.board, s.kingHasLeftThrone, from, to, side, GetPiece(s.board, from).value)
  }

  /** The hash the resolved position would have with the other side to move. */
  function HashAfter(s: TablutState, from: Pos, to: Pos, side: Side): string
    requires IsInside(from) && IsInside(to) && GetPiece(s.board, from).Some?
  {
    var res := ResolutionOf(s, from, to, side);
    PositionHash(res.board, Opposite(side), res.kingHasLeftThrone)
  }

  /** What settling a resolved move does to the state, for any resolution:
      the repetition rule, and for an accepted move the new board, flag,
      winner, phase, turn and counters, with everything else untouched. */
  lemma ConcludeRepetition(s: TablutState, side: Side, res: Resolution)
    ensures Conclude(s, side, res).Ok?
    ensures var o := Conclude(s, side, res).value;
      && (o.illegalByRepetition <==>
           side == Attacker && res.winner.None? &&
           SeenCount(s.positionCounts, PositionHash(res.board, Opposite(side), res.kingHasLeftThrone)) >= 2)
      && (o.illegalByRepetition ==> o == ApplyMoveOutcome(s, [], None, true))
  {
  }

  lemma ConcludeAccepted(s: TablutState, side: Side, res: Resolution)
    requires !Conclude(s, side, res).value.illegalByRepetition
    ensures var o := Conclude(s, side, res).value;
      var t := o.state;
      && t.board == res.board && o.captured == res.captured && o.winner == res.winner
      && t.kingHasLeftThrone == res.kingHasLeftThrone && t.winnerSide == res.winner
      && (t.phase == GameOver <==> res.winner.Some?) && t.legalMoves == []
      && t.sideToMove == (if res.winner.None? then Opposite(side) else s.sideToMove)
      && (res.winner.Some? ==> t.positionCounts == s.positionCounts)
      && t.id == s.id && t.version == s.version && t.humanSide == s.humanSide && t.botSide == s.botSide
      && t.players == s.players && t.difficulty == s.difficulty && t.moveHistory == s.moveHistory
  {
  }

  lemma ConcludeCounts(s: TablutState, side: Side, res: Resolution, h: string)
    requires !Conclude(s, side, res).value.illegalByRepetition
    ensures var t := Conclude(s, side, res).value.state;
      SeenCount(t.positionCounts, h) ==
        SeenCount(s.positionCounts, h) + (if res.winner.None? && h == ComputePositionHash(t) then 1 else 0)
  {
  }

  /** Settling fails exactly as the source checks do, and otherwise concludes
      the resolution of the move. */
  lemma SettleUnfold(s: TablutState, from: Pos, to: Pos, side: Side)
    requires IsInside(from) && IsInside(to)
    ensures var r := Settle(s, from, to, side);
      && (r == Err(EmptySource) <==> GetPiece(s.board, from).None?)
      && (r == Err(PieceNotOwned) <==> GetPiece(s.board, from).Some? && SideOfPiece(GetPiece(s.board, from).value) != side)
      && (r == Err(InvalidPath) <==> IsFriendly(GetPiece(s.board, from), side) && !RookPath(s.board, from, to))
      && (r.Ok? <==> IsFriendly(GetPiece(s.board, from), side) && RookPath(s.board, from, to))
      && (r.Ok? ==> GetPiece(s.board, from).Some? && r == Conclude(s, side, ResolutionOf(s, from, to, side)))
  {
  }

  /** The recompute flag only decides the legal moves of an accepted,
      non-winning result. */
  lemma RecomputeOnlyLegalMoves(s: TablutState, from: Pos, to: Pos, side: Side, recompute: bool)
    requires IsInside(from) && IsInside(to)
    ensures var q := Settle(s, from, to, side);
      if recompute && q.Ok? && !q.value.illegalByRepetition && q.value.winner.None? then
        var t := q.value.state;
        ApplyUnchecked(s, from, to, side, recompute) == Ok(q.value.(state := t.(legalMoves := LegalMoves(t, t.sideToMove))))
      else
        ApplyUnchecked(s, from, to, side, recompute) == q
  {
  }

  /** An unchecked application never adds a king, whether the move is
      accepted or refused by the repetition rule. */
  lemma ApplyNoNewKing(s: TablutState, from: Pos, to: Pos, side: Side, recompute: bool)
    requires IsInside(from) && IsInside(to)
    ensures var r := ApplyUnchecked(s, from, to, side, recompute);
      r.Ok? ==> KingCount(r.value.state.board) <= KingCount(s.board)
  {
    SettleUnfold(s, from, to, side);
    RecomputeOnlyLegalMoves(s, from, to, side, recompute);
    if Settle(s, from, to, side).Ok? {
      var res := ResolutionOf(s, from, to, side);
      ResolveNoNewKing(s.board, s.kingHasLeftThrone, from, to, side, GetPiece(s.board, from).value);
      ConcludeRepetition(s, side, res);
      if !Conclude(s, side, res).value.illegalByRepetition {
        ConcludeAccepted(s, side, res);
      }
    }
  }

  /** Errors come in a fixed order: an empty source, then a piece of the
      other side (the king counts as a defender), then a bad path. */
  lemma ApplyUncheckedErrors(s: TablutState, from: Pos, to: Pos, side: Side, recompute: bool)
    requires IsInside(from) && IsInside(to)
    ensures var r := ApplyUnchecked(s, from, to, side, recompute);
      && (r == Err(EmptySource) <==> GetPiece(s.board, from).None?)
      && (r == Err(PieceNotOwned) <==> GetPiece(s.board, from).Some? && SideOfPiece(GetPiece(s.board, from).value) != side)
      && (r == Err(InvalidPath) <==> IsFriendly(GetPiece(s.board, from), side) && !RookPath(s.board, from, to))
      && (r.Ok? <==> IsFriendly(GetPiece(s.board, from), side) && RookPath(s.board, from, to))
  {
    SettleUnfold(s, from, to, side);
    RecomputeOnlyLegalMoves(s, from, to, side, recompute);
  }

  /** A move is illegal by repetition exactly when it is an attacker move that
      does not end the game and whose resulting hash was already counted at
      least twice; the outcome then carries the input state unchanged, no
      captures and no winner. */
  lemma RepetitionRule(s: TablutState, from: Pos, to: Pos, side: Side, recompute: bool)
    requires IsInside(from) && IsInside(to)
    requires ApplyUnchecked(s, from, to, side, recompute).Ok?
    ensures GetPiece(s.board, from).Some?
    ensures var o := ApplyUnchecked(s, from, to, side, recompute).value;
      && (o.illegalByRepetition <==>
           side == Attacker && ResolutionOf(s, from, to, side).winner.None? &&
           SeenCount(s.positionCounts, HashAfter(s, from, to, side)) >= 2)
      && (o.illegalByRepetition ==> o == ApplyMoveOutcome(s, [], None, true))
  {
    SettleUnfold(s, from, to, side);
    RecomputeOnlyLegalMoves(s, from, to, side, recompute);
    ConcludeRepetition(s, side, ResolutionOf(s, from, to, side));
  }

  /** An accepted move: the board and captures are those of the resolution,
      the throne flag only ever turns from false to true, and identity,
      players, difficulty, version and history are untouched. */
  lemma AcceptedMoveBoard(s: TablutState, from: Pos, to: Pos, side: Side, recompute: bool)
    requires IsInside(from) && IsInside(to)
    requires ApplyUnchecked(s, from, to, side, recompute).Ok?
    requires !ApplyUnchecked(s, from, to, side, recompute).value.illegalByRepetition
    ensures GetPiece(s.board, from).Some?
    ensures var o := ApplyUnchecked(s, from, to, side, recompute).value;
      var t := o.state;
      var res := ResolutionOf(s, from, to, side);
      && t.board == res.board && o.captured == res.captured
      && t.kingHasLeftThrone == (s.kingHasLeftThrone || (GetPiece(s.board, from) == Some(K) && IsThrone(from)))
      && (s.kingHasLeftThrone ==> t.kingHasLeftThrone)
      && t.id == s.id && t.version == s.version && t.humanSide == s.humanSide && t.botSide == s.botSide
      && t.players == s.players && t.difficulty == s.difficulty && t.moveHistory == s.moveHistory
  {
    SettleUnfold(s, from, to, side);
    RecomputeOnlyLegalMoves(s, from, to, side, recompute);
    ConcludeAccepted(s, side, ResolutionOf(s, from, to, side));
  }

  /** Win detection: the winner is read off the resulting board; a winner ends
      the game with no legal moves and leaves turn and counters alone;
      otherwise the turn passes to the other side and the legal moves are
      regenerated exactly when asked for. */
  lemma AcceptedMoveWinner(s: TablutState, from: Pos, to: Pos, side: Side, recompute: bool)
    requires IsInside(from) && IsInside(to)
    requires ApplyUnchecked(s, from, to, side, recompute).Ok?
    requires !ApplyUnchecked(s, from, to, side, recompute).value.illegalByRepetition
    ensures var o := ApplyUnchecked(s, from, to, side, recompute).value;
      var t := o.state;
      && o.winner == Winner(t.board) && t.winnerSide == o.winner
      && (t.phase == GameOver <==> o.winner.Some?)
      && (o.winner.Some? ==> t.legalMoves == [] && t.positionCounts == s.positionCounts && t.sideToMove == s.sideToMove)
      && (o.winner.None? ==> t.sideToMove == Opposite(side))
      && (o.winner.None? ==> t.legalMoves == if recompute then LegalMoves(t, t.sideToMove) else [])
  {
    SettleUnfold(s, from, to, side);
    RecomputeOnlyLegalMoves(s, from, to, side, recompute);
    var res := ResolutionOf(s, from, to, side);
    ConcludeAccepted(s, side, res);
    var q := Conclude(s, side, res).value;
    if recompute && res.winner.None? {
      var t := q.state;
      var t' := t.(legalMoves := LegalMoves(t, t.sideToMove));
      assert ApplyUnchecked(s, from, to, side, recompute).value == q.(state := t');
      LegalMovesCongruent(t, t', t.sideToMove);
    } else {
      assert ApplyUnchecked(s, from, to, side, recompute).value == q;
    }
  }

  /** Every accepted move that does not end the game adds one to the count of
      the resulting position's hash and to no other count. */
  lemma AcceptedMoveCounts(s: TablutState, from: Pos, to: Pos, side: Side, recompute: bool, h: string)
    requires IsInside(from) && IsInside(to)
    requires ApplyUnchecked(s, from, to, side, recompute).Ok?
    requires !ApplyUnchecked(s, from, to, side, recompute).value.illegalByRepetition
    requires ApplyUnchecked(s, from, to, side, recompute).value.winner.None?
    ensures var t := ApplyUnchecked(s, from, to, side, recompute).value.state;
      SeenCount(t.positionCounts, h) == SeenCount(s.positionCounts, h) + (if h == ComputePositionHash(t) then 1 else 0)
  {
    SettleUnfold(s, from, to, side);
    RecomputeOnlyLegalMoves(s, from, to, side, recompute);
    var res := ResolutionOf(s, from, to, side);
    ConcludeAccepted(s, side, res);
    ConcludeCounts(s, side, res, h);
  }

  // ---------------------------------------------------------------------
  // Legal-move enumeration

  /** A (from, to) pair visited by the enumeration. */
  datatype Target = Target(from: Pos, to: Pos)

  /** Every cell, row by row and column by column. */
  function Cells(): (cs: seq<Pos>)
    ensures |cs| == 81 && forall i :: 0 <= i < 81 ==> cs[i] == PosOf(i)
  {
    seq(81, i requires 0 <= i < 81 => PosOf(i))
  }

  /** Cells still to visit when sliding in direction d from cur, cur included. */
  function SlideRank(cur: Pos, d: Pos): int {
    if d.row < 0 then cur.row + 1
    else if d.row > 0 then BoardSize - cur.row
    else if d.col < 0 then cur.col + 1
    else BoardSize - cur.col
  }

  /** The slide from `from` in direction d, from `cur` on, up to the first
      cell that is off the board, the throne or occupied. */
  function SlideTargets(b: Board, from: Pos, d: Pos, cur: Pos): seq<Target>
    requires d in Dirs
    decreases SlideRank(cur, d)
  {
    if !IsInside(cur) || IsThrone(cur) || GetPiece(b, cur) != None then []
    else [Target(from, cur)] + SlideTargets(b, from, d, Add(cur, d))
  }

  /** The slide from `from` in each direction of Dirs. */
  function SlideTargetsOf(b: Board, from: Pos): Pos -> seq<Target> {
    d => if d in Dirs then SlideTargets(b, from, d, Add(from, d)) else []
  }

  /** The slides of the piece on `from`, if it is one of `side`'s. */
  function CellTargets(b: Board, side: Side, from: Pos): seq<Target> {
    if IsInside(from) && IsFriendly(GetPiece(b, from), side) then FlatMap(SlideTargetsOf(b, from), Dirs) else []
  }

  function CellTargetsOf(b: Board, side: Side): Pos -> seq<Target> {
    p => CellTargets(b, side, p)
  }

  /** Every slide of every piece of `side`, in enumeration order. */
  function Targets(b: Board, side: Side): seq<Target> {
    FlatMap(CellTargetsOf(b, side), Cells())
  }

  /** The move to a visited target, if its speculative application succeeds
      and is not illegal by repetition. */
  function Candidate(s: TablutState, side: Side, from: Pos, to: Pos): seq<TablutMove>
    requires IsInside(from) && IsInside(to)
  {
    var o := Settle(s, from, to, side);
    if o.Ok? && !o.value.illegalByRepetition then [TablutMove(from, to, CapturePositions(o.value.captured))]
    else []
  }

  /** Candidate as a map over targets; visited targets are always on the board. */
  function CandidateOf(s: TablutState, side: Side): Target -> seq<TablutMove> {
    (t: Target) => if IsInside(t.from) && IsInside(t.to) then Candidate(s, side, t.from, t.to) else []
  }

  /** The legal moves of `side`: the candidates of every target in
      enumeration order, or none once the game is over. */
  function LegalMoves(s: TablutState, side: Side): seq<TablutMove> {
    if s.phase == GameOver then [] else FlatMap(CandidateOf(s, side), Targets(s.board, side))
  }

  // ---------------------------------------------------------------------
  // The targets are exactly the rook moves of friendly pieces

  predicate ValidTarget(b: Board, side: Side, t: Target) {
    IsInside(t.from) && IsInside(t.to) &&
    IsFriendly(GetPiece(b, t.from), side) && RookPath(b, t.from, t.to)
  }

  /** Step direction between two cells on a line. */
  function StepOf(from: Pos, to: Pos): Pos {
    Pos(Sign(to.row - from.row), Sign(to.col - from.col))
  }

  /** Extending a clear path by one open cell keeps it clear. */
  lemma PathExtend(b: Board, from: Pos, cur: Pos, d: Pos)
    requires d in Dirs && SameLine(from, cur) && cur != from && StepOf(from, cur) == d
    requires PathClear(b, from, cur) && IsOpenCell(b, cur)
    ensures SameLine(from, Add(cur, d)) && StepOf(from, Add(cur, d)) == d
    ensures Dist(from, Add(cur, d)) == Dist(from, cur) + 1
    ensures PathClear(b, from, Add(cur, d))
  {
    var nxt := Add(cur, d);
    forall k | 1 <= k < Dist(from, nxt) ensures IsOpenCell(b, Along(from, nxt, k)) {
      if k < Dist(from, cur) {
        assert Along(from, nxt, k) == Along(from, cur, k);
      } else {
        assert Along(from, nxt, k) == cur;
      }
    }
  }

  lemma {:induction false} SlideValid(b: Board, side: Side, from: Pos, d: Pos, cur: Pos)
    requires IsInside(from) && d in Dirs && IsFriendly(GetPiece(b, from), side)
    requires SameLine(from, cur) && cur != from && StepOf(from, cur) == d && PathClear(b, from, cur)
    ensures forall t :: t in SlideTargets(b, from, d, cur) ==> ValidTarget(b, side, t)
    decreases SlideRank(cur, d)
  {
    if IsInside(cur) && !IsThrone(cur) && GetPiece(b, cur) == None {
      PathExtend(b, from, cur, d);
      SlideValid(b, side, from, d, Add(cur, d));
    }
  }

  lemma FirstSlideValid(b: Board, side: Side, from: Pos, d: Pos, t: Target)
    requires IsInside(from) && IsFriendly(GetPiece(b, from), side) && d in Dirs
    requires t in SlideTargets(b, from, d, Add(from, d))
    ensures ValidTarget(b, side, t)
  {
    assert PathClear(b, from, Add(from, d));
    SlideValid(b, side, from, d, Add(from, d));
  }

  lemma CellTargetsValid(b: Board, side: Side, from: Pos, t: Target)
    requires t in CellTargets(b, side, from)
    ensures ValidTarget(b, side, t)
  {
    FlatMapMemberInv(SlideTargetsOf(b, from), Dirs, t);
    var d :| d in Dirs && t in SlideTargetsOf(b, from)(d);
    FirstSlideValid(b, side, from, d, t);
  }

  /** Every visited target starts on a friendly piece and has a rook path. */
  lemma TargetsValid(b: Board, side: Side, t: Target)
    requires t in Targets(b, side)
    ensures ValidTarget(b, side, t)
  {
    FlatMapMemberInv(CellTargetsOf(b, side), Cells(), t);
    var from :| from in Cells() && t in CellTargetsOf(b, side)(from);
    CellTargetsValid(b, side, from, t);
  }

  lemma AlongStep(from: Pos, to: Pos, k: int)
    requires SameLine(from, to)
    ensures Add(Along(from, to, k), StepOf(from, to)) == Along(from, to, k + 1)
    ensures Along(from, to, Dist(from, to)) == to
  {
  }

  lemma StepInDirs(from: Pos, to: Pos)
    requires SameLine(from, to) && from != to
    ensures StepOf(from, to) in Dirs
  {
  }

  lemma {:induction false} SlideComplete(b: Board, from: Pos, to: Pos, k: nat)
    requires IsInside(to) && RookPath(b, from, to) && from != to && 1 <= k <= Dist(from, to)
    ensures StepOf(from, to) in Dirs
    ensures Target(from, to) in SlideTargets(b, from, StepOf(from, to), Along(from, to, k))
    decreases Dist(from, to) - k
  {
    StepInDirs(from, to);
    AlongStep(from, to, k);
    var d, cur := StepOf(from, to), Along(from, to, k);
    if k < Dist(from, to) {
      assert IsOpenCell(b, cur);
      SlideComplete(b, from, to, k + 1);
      assert SlideTargets(b, from, d, cur) == [Target(from, cur)] + SlideTargets(b, from, d, Along(from, to, k + 1));
    } else {
      assert cur == to;
      assert SlideTargets(b, from, d, cur) == [Target(from, cur)] + SlideTargets(b, from, d, Add(cur, d));
    }
  }

  lemma FirstSlideComplete(b: Board, t: Target)
    requires IsInside(t.to) && RookPath(b, t.from, t.to) && t.from != t.to
    ensures StepOf(t.from, t.to) in Dirs
    ensures t in SlideTargetsOf(b, t.from)(StepOf(t.from, t.to))
  {
    SlideComplete(b, t.from, t.to, 1);
    AlongStep(t.from, t.to, 0);
  }

  lemma CellComplete(b: Board, side: Side, t: Target)
    requires ValidTarget(b, side, t)
    ensures t in CellTargets(b, side, t.from)
  {
    FirstSlideComplete(b, t);
    FlatMapMember(SlideTargetsOf(b, t.from), Dirs, StepOf(t.from, t.to), t);
  }

  /** Every rook move of a friendly piece is visited. */
  lemma TargetsComplete(b: Board, side: Side, t: Target)
    requires ValidTarget(b, side, t)
    ensures t in Targets(b, side)
  {
    CellComplete(b, side, t);
    assert Cells()[Idx(t.from)] == t.from;
    FlatMapMember(CellTargetsOf(b, side), Cells(), t.from, t);
  }

  // ---------------------------------------------------------------------
  // Legal moves depend only on the board, the throne flag, the counters and the phase

  predicate SamePosition(s1: TablutState, s2: TablutState) {
    s1.board == s2.board && s1.kingHasLeftThrone == s2.kingHasLeftThrone &&
    s1.positionCounts == s2.positionCounts && s1.phase == s2.phase
  }

  lemma CandidateCongruent(s1: TablutState, s2: TablutState, side: Side, from: Pos, to: Pos)
    requires SamePosition(s1, s2) && IsInside(from) && IsInside(to)
    ensures Candidate(s1, side, from, to) == Candidate(s2, side, from, to)
  {
    SettleUnfold(s1, from, to, side);
    SettleUnfold(s2, from, to, side);
    if Settle(s1, from, to, side).Ok? {
      var res := ResolutionOf(s1, from, to, side);
      assert ResolutionOf(s2, from, to, side) == res;
      ConcludeRepetition(s1, side, res);
      ConcludeRepetition(s2, side, res);
      if !Conclude(s1, side, res).value.illegalByRepetition {
        ConcludeAccepted(s1, side, res);
        ConcludeAccepted(s2, side, res);
      }
    }
  }

  lemma CandidateOfCongruent(s1: TablutState, s2: TablutState, side: Side, t: Target)
    requires SamePosition(s1, s2)
    ensures CandidateOf(s1, side)(t) == CandidateOf(s2, side)(t)
  {
    if IsInside(t.from) && IsInside(t.to) {
      CandidateCongruent(s1, s2, side, t.from, t.to);
    }
  }

  lemma MovesAgree(s1: TablutState, s2: TablutState, side: Side, ts: seq<Target>)
    requires SamePosition(s1, s2)
    ensures FlatMap(CandidateOf(s1, side), ts) == FlatMap(CandidateOf(s2, side), ts)
  {
    forall t | t in ts ensures CandidateOf(s1, side)(t) == CandidateOf(s2, side)(t) {
      CandidateOfCongruent(s1, s2, side, t);
    }
    FlatMapPointwise(CandidateOf(s1, side), CandidateOf(s2, side), ts);
  }

  /** Legal moves ignore identity, version, players, cached moves and history. */
  lemma LegalMovesCongruent(s1: TablutState, s2: TablutState, side: Side)
    requires SamePosition(s1, s2)
    ensures LegalMoves(s1, side) == LegalMoves(s2, side)
  {
    if s1.phase != GameOver {
      MovesAgree(s1, s2, side, Targets(s1.board, side));
    }
  }

  // ---------------------------------------------------------------------
  // Every enumerated move is legal

  /** A move that starts on a friendly piece, slides along a clear path, and
      whose speculative application succeeds without being illegal by
      repetition; its preview lists exactly the cells that would be captured. */
  predicate SoundMove(s: TablutState, side: Side, m: TablutMove) {
    IsInside(m.from) && IsInside(m.to) &&
    IsFriendly(GetPiece(s.board, m.from), side) && RookPath(s.board, m.from, m.to) &&
    var o := Settle(s, m.from, m.to, side);
    o.Ok? && !o.value.illegalByRepetition && m.capturesPreview == CapturePositions(o.value.captured)
  }

  lemma CandidateSound(s: TablutState, side: Side, t: Target, m: TablutMove)
    requires ValidTarget(s.board, side, t) && m in CandidateOf(s, side)(t)
    ensures SoundMove(s, side, m)
  {
  }

  /** No legal moves once the game is over; otherwise every enumerated move
      starts on a friendly piece, has a rook path (so it neither crosses nor
      lands on the throne) and is not illegal by repetition. */
  lemma LegalMovesSound(s: TablutState, side: Side, m: TablutMove)
    ensures s.phase == GameOver ==> LegalMoves(s, side) == []
    ensures m in LegalMoves(s, side) ==> SoundMove(s, side, m)
  {
    if s.phase != GameOver && m in LegalMoves(s, side) {
      var ts := Targets(s.board, side);
      FlatMapMemberInv(CandidateOf(s, side), ts, m);
      var t :| t in ts && m in CandidateOf(s, side)(t);
      TargetsValid(s.board, side, t);
      CandidateSound(s, side, t, m);
    }
  }

  lemma CandidateComplete(s: TablutState, side: Side, m: TablutMove)
    requires SoundMove(s, side, m)
    ensures m in CandidateOf(s, side)(Target(m.from, m.to))
  {
  }

  /** Completeness: every sound move of a game in progress is generated,
      so together with LegalMovesSound the list is exactly the sound moves. */
  lemma LegalMovesComplete(s: TablutState, side: Side, m: TablutMove)
    requires s.phase != GameOver && SoundMove(s, side, m)
    ensures m in LegalMoves(s, side)
  {
    var t := Target(m.from, m.to);
    TargetsComplete(s.board, side, t);
    CandidateComplete(s, side, m);
    FlatMapMember(CandidateOf(s, side), Targets(s.board, side), t, m);
  }

  lemma LegalMovesExact(s: TablutState, side: Side, m: TablutMove)
    ensures m in LegalMoves(s, side) <==> s.phase != GameOver && SoundMove(s, side, m)
  {
    LegalMovesSound(s, side, m);
    if s.phase != GameOver && SoundMove(s, side, m) {
      LegalMovesComplete(s, side, m);
    }
  }

  // ---------------------------------------------------------------------
  // The imperative engine, proved against the definitions above

  /** The unchecked move application as the engine runs it: check, resolve
      the board, then conclude; with `recompute` the legal moves of an
      accepted in-progress result are generated afresh. */
  method ApplyMoveUnchecked(s: TablutState, from: Pos, to: Pos, side: Side, recompute: bool)
    returns (r: Result<ApplyMoveOutcome>)
    requires IsInside(from) && IsInside(to)
    ensures r == ApplyUnchecked(s, from, to, side, recompute)
    decreases if recompute then 4 else 0
  {
    SettleUnfold(s, from, to, side);
    RecomputeOnlyLegalMoves(s, from, to, side, recompute);
    var piece := GetPiece(s.board, from);
    if piece.None? {
      return Err(EmptySource);
    }
    if !IsFriendly(piece, side) {
      return Err(PieceNotOwned);
    }
    var path := HasRookPath(s.board, from, to);
    if !path {
      return Err(InvalidPath);
    }
    var res := ResolveMove(s.board, s.kingHasLeftThrone, from, to, side, piece.value);
    r := ConcludeMove(s, side, res);
    if recompute && r.Ok? && !r.value.illegalByRepetition && r.value.winner.None? {
      var next := r.value.state;
      var moves := GenerateLegalMoves(next, next.sideToMove);
      r := Ok(r.value.(state := next.(legalMoves := moves)));
    }
  }

  /** Records winner and phase on a copy of the state and, when nobody has
      won, passes the turn, applies the repetition rule and counts the new
      position. */
  method ConcludeMove(s: TablutState, side: Side, res: Resolution) returns (r: Result<ApplyMoveOutcome>)
    ensures r == Conclude(s, side, res)
  {
    var next := s.(board := res.board, kingHasLeftThrone := res.kingHasLeftThrone,
                   winnerSide := res.winner, phase := if res.winner.Some? then GameOver else InProgress,
                   legalMoves := []);
    if res.winner.None? {
      next := next.(sideToMove := Opposite(side));
      var hash := ComputePositionHash(next);
      var count := SeenCount(next.positionCounts, hash);
      if side == Attacker && count >= 2 {
        return Ok(ApplyMoveOutcome(s, [], None, true));
      }
      next := next.(positionCounts := next.positionCounts[hash := count + 1]);
    }
    r := Ok(ApplyMoveOutcome(next, res.captured, res.winner, false));
  }

  /** `out` holds the legal moves of the first i cells in row-major order. */
  predicate Generated(s: TablutState, side: Side, i: nat, out: seq<TablutMove>)
    requires i <= 81
  {
    out == FlatMap(CandidateOf(s, side), FlatMap(CellTargetsOf(s.board, side), Cells()[..i]))
  }

  lemma GeneratedCell(s: TablutState, side: Side, i: nat, out: seq<TablutMove>, moves: seq<TablutMove>)
    requires i < 81 && Generated(s, side, i, out)
    requires moves == FlatMap(CandidateOf(s, side), CellTargets(s.board, side, Cells()[i]))
    ensures Generated(s, side, i + 1, out + moves)
  {
    TakeSnoc(Cells(), i);
    FlatMap2Snoc(CandidateOf(s, side), CellTargetsOf(s.board, side), Cells()[..i], Cells()[i]);
  }

  lemma GeneratedSkip(s: TablutState, side: Side, i: nat, out: seq<TablutMove>)
    requires i < 81 && Generated(s, side, i, out)
    requires !IsFriendly(GetPiece(s.board, Cells()[i]), side)
    ensures Generated(s, side, i + 1, out)
  {
    assert CellTargets(s.board, side, Cells()[i]) == [];
    GeneratedCell(s, side, i, out, []);
    assert out + [] == out;
  }

  lemma GeneratedAll(s: TablutState, side: Side, out: seq<TablutMove>)
    requires s.phase != GameOver && Generated(s, side, 81, out)
    ensures out == LegalMoves(s, side)
  {
    TakeAll(Cells());
  }

  /** Collects the moves of every friendly piece, visiting the cells row by
      row and column by column (the engine's two nested loops, walked here as
      one pass over the row-major index). */
  method GenerateLegalMoves(s: TablutState, side: Side) returns (out: seq<TablutMove>)
    ensures out == LegalMoves(s, side)
    decreases 3
  {
    if s.phase == GameOver {
      return [];
    }
    out := [];
    for i := 0 to 81
      invariant Generated(s, side, i, out)
    {
      var from := PosOf(i);
      assert Cells()[i] == from;
      var piece := GetPiece(s.board, from);
      if IsFriendly(piece, side) {
        var moves := PieceMoves(s, side, from);
        GeneratedCell(s, side, i, out, moves);
        out := out + moves;
      } else {
        GeneratedSkip(s, side, i, out);
      }
    }
    GeneratedAll(s, side, out);
  }

  /** `out` holds the moves of the piece on `from` for the first k directions. */
  predicate DirsDone(s: TablutState, side: Side, from: Pos, k: nat, out: seq<TablutMove>)
    requires k <= 4
  {
    out == FlatMap(CandidateOf(s, side), FlatMap(SlideTargetsOf(s.board, from), Dirs[..k]))
  }

  /** `out`, followed by the moves of the slide still ahead from `cur`, is `total`. */
  predicate SlideLeft(s: TablutState, side: Side, from: Pos, d: Pos, cur: Pos, out: seq<TablutMove>, total: seq<TablutMove>)
    requires d in Dirs
  {
    out + FlatMap(CandidateOf(s, side), SlideTargets(s.board, from, d, cur)) == total
  }

  lemma SlideBegin(s: TablutState, side: Side, from: Pos, k: nat, out: seq<TablutMove>)
    requires k < 4 && DirsDone(s, side, from, k, out)
    ensures SlideLeft(s, side, from, Dirs[k], Add(from, Dirs[k]), out,
                      FlatMap(CandidateOf(s, side), FlatMap(SlideTargetsOf(s.board, from), Dirs[..k + 1])))
  {
    TakeSnoc(Dirs, k);
    FlatMap2Snoc(CandidateOf(s, side), SlideTargetsOf(s.board, from), Dirs[..k], Dirs[k]);
  }

  /** The slide reaches an open cell: its candidate joins the output. */
  lemma SlideStep(s: TablutState, side: Side, from: Pos, d: Pos, cur: Pos, out: seq<TablutMove>, total: seq<TablutMove>,
                  o: Result<ApplyMoveOutcome>)
    requires d in Dirs && IsInside(from) && IsOpenCell(s.board, cur)
    requires SlideLeft(s, side, from, d, cur, out, total)
    requires o == Settle(s, from, cur, side)
    ensures o.Ok? && !o.value.illegalByRepetition ==>
      SlideLeft(s, side, from, d, Add(cur, d), out + [TablutMove(from, cur, CapturePositions(o.value.captured))], total)
    ensures !(o.Ok? && !o.value.illegalByRepetition) ==> SlideLeft(s, side, from, d, Add(cur, d), out, total)
  {
    var rest := SlideTargets(s.board, from, d, Add(cur, d));
    assert SlideTargets(s.board, from, d, cur) == [Target(from, cur)] + rest;
    FlatMapShift(CandidateOf(s, side), out, Target(from, cur), rest, total);
    if !(o.Ok? && !o.value.illegalByRepetition) {
      AppendNil(out);
    }
  }

  /** The slide is blocked: nothing more to add. */
  lemma SlideStop(s: TablutState, side: Side, from: Pos, d: Pos, cur: Pos, out: seq<TablutMove>, total: seq<TablutMove>)
    requires d in Dirs && !IsOpenCell(s.board, cur)
    requires SlideLeft(s, side, from, d, cur, out, total)
    ensures out == total
  {
    FlatMapNil(CandidateOf(s, side), out, total);
  }

  lemma PieceDone(s: TablutState, side: Side, from: Pos, out: seq<TablutMove>)
    requires IsInside(from) && IsFriendly(GetPiece(s.board, from), side)
    requires DirsDone(s, side, from, 4, out)
    ensures out == FlatMap(CandidateOf(s, side), CellTargets(s.board, side, from))
  {
    TakeAll(Dirs);
  }

  /** The moves of the piece on `from`: each direction in turn, sliding until
      the board edge, the throne or another piece. */
  method PieceMoves(s: TablutState, side: Side, from: Pos) returns (out: seq<TablutMove>)
    requires IsInside(from) && IsFriendly(GetPiece(s.board, from), side)
    ensures out == FlatMap(CandidateOf(s, side), CellTargets(s.board, side, from))
    decreases 2
  {
    out := [];
    for k := 0 to 4
      invariant DirsDone(s, side, from, k, out)
    {
      out := SlideMoves(s, side, from, k, out);
    }
    PieceDone(s, side, from, out);
  }

  /** Appends the moves of the piece on `from` along direction `k`: one per
      open cell up to the first blocked one, kept when the settled move is
      not refused for repetition. */
  method SlideMoves(s: TablutState, side: Side, from: Pos, k: nat, before: seq<TablutMove>)
    returns (out: seq<TablutMove>)
    requires IsInside(from) && k < 4 && DirsDone(s, side, from, k, before)
    ensures DirsDone(s, side, from, k + 1, out)
    decreases 1
  {
    out := before;
    var d := Dirs[k];
    ghost var total := FlatMap(CandidateOf(s, side), FlatMap(SlideTargetsOf(s.board, from), Dirs[..k + 1]));
    SlideBegin(s, side, from, k, out);
    var cur := Add(from, d);
    while IsInside(cur)
      invariant SlideLeft(s, side, from, d, cur, out, total)
      decreases SlideRank(cur, d)
    {
      if IsThrone(cur) || GetPiece(s.board, cur) != None {
        break;
      }
      var outcome := ApplyMoveUnchecked(s, from, cur, side, false);
      RecomputeOnlyLegalMoves(s, from, cur, side, false);
      SlideStep(s, side, from, d, cur, out, total, outcome);
      if outcome.Ok? && !outcome.value.illegalByRepetition {
        out := out + [TablutMove(from, cur, CapturePositions(outcome.value.captured))];
      }
      cur := Add(cur, d);
    }
    SlideStop(s, side, from, d, cur, out, total);
  }

  // ---------------------------------------------------------------------
  // Checked, committing application

  predicate SameEnds(m: TablutMove, from: Pos, to: Pos) {
    m.from == from && m.to == to
  }

  /** The first listed move with these end points, if any. */
  function FirstMatch(moves: seq<TablutMove>, from: Pos, to: Pos): (r: Option<TablutMove>)
    ensures r.Some? ==> r.value in moves && SameEnds(r.value, from, to)
    ensures r.None? ==> forall m :: m in moves ==> !SameEnds(m, from, to)
  {
    if |moves| == 0 then None
    else if SameEnds(moves[0], from, to) then Some(moves[0])
    else FirstMatch(moves[1..], from, to)
  }

  method FindListed(moves: seq<TablutMove>, from: Pos, to: Pos) returns (r: Option<TablutMove>)
    ensures r == FirstMatch(moves, from, to)
  {
    for i := 0 to |moves|
      invariant FirstMatch(moves[i..], from, to) == FirstMatch(moves, from, to)
    {
      assert moves[i..][1..] == moves[i + 1..];
      if SameEnds(moves[i], from, to) {
        return Some(moves[i]);
      }
    }
    return None;
  }

  /** The history entry of an accepted move. */
  function RecordOf(turn: int, side: Side, from: Pos, to: Pos, captured: seq<Capture>): MoveRecord {
    MoveRecord(turn, side, from, to, CapturePositions(captured), CapturePieces(captured))
  }

  /** The checked move: refuses a finished game and a move out of turn, then
      accepts only a move listed in the state's legal moves (telling a
      repetition apart from any other refusal), applies it with the legal
      moves regenerated and appends one history record. */
  function CommitMove(s: TablutState, side: Side, from: Pos, to: Pos): Result<ApplyMoveOutcome>
    requires IsInside(from) && IsInside(to)
  {
    if s.phase == GameOver then Err(GameOverError)
    else if s.sideToMove != side then Err(InvalidTurn)
    else if FirstMatch(s.legalMoves, from, to).None? then
      var probe := ApplyUnchecked(s, from, to, side, false);
      if probe.Ok? && probe.value.illegalByRepetition then Err(AttackerMustBreakRepetition)
      else Err(IllegalMove)
    else
      var o := ApplyUnchecked(s, from, to, side, true);
      if o.Err? then Err(o.error)
      else if o.value.illegalByRepetition then Err(AttackerMustBreakRepetition)
      else
        var t := o.value.state;
        Ok(o.value.(state := t.(moveHistory := t.moveHistory + [RecordOf(|t.moveHistory| + 1, side, from, to, o.value.captured)])))
  }

  method ApplyMove(s: TablutState, side: Side, from: Pos, to: Pos) returns (r: Result<ApplyMoveOutcome>)
    requires IsInside(from) && IsInside(to)
    ensures r == CommitMove(s, side, from, to)
  {
    if s.phase == GameOver {
      return Err(GameOverError);
    }
    if s.sideToMove != side {
      return Err(InvalidTurn);
    }
    var legal := FindListed(s.legalMoves, from, to);
    if legal.None? {
      var probe := ApplyMoveUnchecked(s, from, to, side, false);
      if probe.Ok? && probe.value.illegalByRepetition {
        return Err(AttackerMustBreakRepetition);
      }
      return Err(IllegalMove);
    }
    var outcome := ApplyMoveUnchecked(s, from, to, side, true);
    if outcome.Err? {
      return Err(outcome.error);
    }
    if outcome.value.illegalByRepetition {
      return Err(AttackerMustBreakRepetition);
    }
    var next := outcome.value.state;
    var record := RecordOf(|next.moveHistory| + 1, side, from, to, outcome.value.captured);
    next := next.(moveHistory := next.moveHistory + [record]);
    r := Ok(outcome.value.(state := next));
  }

  /** A finished game and a move out of turn are refused before the legal
      moves are even looked at. */
  lemma CommitGuards(s: TablutState, side: Side, from: Pos, to: Pos)
    requires IsInside(from) && IsInside(to)
    ensures s.phase == GameOver ==> CommitMove(s, side, from, to) == Err(GameOverError)
    ensures s.phase != GameOver && s.sideToMove != side ==> CommitMove(s, side, from, to) == Err(InvalidTurn)
    ensures CommitMove(s, side, from, to).Ok? ==>
      s.phase != GameOver && s.sideToMove == side && FirstMatch(s.legalMoves, from, to).Some?
  {
  }

  /** An unlisted move is refused as a repetition exactly when its
      speculative application is one, and as an illegal move otherwise
      (including every move the unchecked application rejects). */
  lemma CommitUnlisted(s: TablutState, side: Side, from: Pos, to: Pos)
    requires IsInside(from) && IsInside(to)
    requires s.phase != GameOver && s.sideToMove == side
    requires forall m :: m in s.legalMoves ==> !SameEnds(m, from, to)
    ensures CommitMove(s, side, from, to) == Err(AttackerMustBreakRepetition) ||
            CommitMove(s, side, from, to) == Err(IllegalMove)
    ensures CommitMove(s, side, from, to) == Err(AttackerMustBreakRepetition) <==>
      IsFriendly(GetPiece(s.board, from), side) && RookPath(s.board, from, to) &&
      side == Attacker && ResolutionOf(s, from, to, side).winner.None? &&
      SeenCount(s.positionCounts, HashAfter(s, from, to, side)) >= 2
  {
    assert FirstMatch(s.legalMoves, from, to).None?;
    ApplyUncheckedErrors(s, from, to, side, false);
    if ApplyUnchecked(s, from, to, side, false).Ok? {
      RepetitionRule(s, from, to, side, false);
    }
  }

  /** An accepted move is the unchecked application with regenerated legal
      moves plus exactly one new history record, numbered one past the old
      history's length. */
  lemma CommitAccepted(s: TablutState, side: Side, from: Pos, to: Pos)
    requires IsInside(from) && IsInside(to)
    requires CommitMove(s, side, from, to).Ok?
    ensures ApplyUnchecked(s, from, to, side, true).Ok?
    ensures var o := ApplyUnchecked(s, from, to, side, true).value;
      var r := CommitMove(s, side, from, to).value;
      && !o.illegalByRepetition
      && r.captured == o.captured && r.winner == o.winner && !r.illegalByRepetition
      && r.state == o.state.(moveHistory := s.moveHistory + [RecordOf(|s.moveHistory| + 1, side, from, to, o.captured)])
      && |r.state.moveHistory| == |s.moveHistory| + 1
      && r.state.moveHistory[..|s.moveHistory|] == s.moveHistory
      && r.state.moveHistory[|s.moveHistory|].turn == |s.moveHistory| + 1
      && r.state.moveHistory[|s.moveHistory|].captures == CapturePositions(r.captured)
  {
    AcceptedMoveBoard(s, from, to, side, true);
  }

  /** The legal moves a state carries are the ones the rules generate. */
  predicate Fresh(s: TablutState) {
    s.legalMoves == LegalMoves(s, s.sideToMove)
  }

  /** A committed move leaves the state's legal moves fresh. */
  lemma CommitKeepsFresh(s: TablutState, side: Side, from: Pos, to: Pos)
    requires IsInside(from) && IsInside(to)
    requires CommitMove(s, side, from, to).Ok?
    ensures Fresh(CommitMove(s, side, from, to).value.state)
  {
    CommitAccepted(s, side, from, to);
    AcceptedMoveWinner(s, from, to, side, true);
    var o := ApplyUnchecked(s, from, to, side, true).value;
    var t := CommitMove(s, side, from, to).value.state;
    LegalMovesCongruent(o.state, t, t.sideToMove);
  }

  /** A committed move never adds a king. */
  lemma CommitNoNewKing(s: TablutState, side: Side, from: Pos, to: Pos)
    requires IsInside(from) && IsInside(to)
    ensures var r := CommitMove(s, side, from, to);
      r.Ok? ==> KingCount(r.value.state.board) <= KingCount(s.board)
  {
    ApplyNoNewKing(s, from, to, side, true);
  }

  /** With fresh legal moves, a listed move of the side to move is always
      accepted. */
  lemma ListedMoveAccepted(s: TablutState, side: Side, from: Pos, to: Pos)
    requires IsInside(from) && IsInside(to) && Fresh(s)
    requires s.phase != GameOver && s.sideToMove == side
    requires FirstMatch(s.legalMoves, from, to).Some?
    ensures CommitMove(s, side, from, to).Ok?
  {
    var m := FirstMatch(s.legalMoves, from, to).value;
    LegalMovesSound(s, side, m);
    SoundMoveApplies(s, side, from, to);
    ListedCommits(s, side, from, to);
  }

  /** The regenerating application of a settled, non-repeating move succeeds
      without a repetition refusal. */
  lemma SoundMoveApplies(s: TablutState, side: Side, from: Pos, to: Pos)
    requires IsInside(from) && IsInside(to)
    requires Settle(s, from, to, side).Ok? && !Settle(s, from, to, side).value.illegalByRepetition
    ensures ApplyUnchecked(s, from, to, side, true).Ok?
    ensures !ApplyUnchecked(s, from, to, side, true).value.illegalByRepetition
  {
    RecomputeOnlyLegalMoves(s, from, to, side, true);
  }

  /** A listed move whose regenerating application succeeds without a
      repetition refusal is committed. */
  lemma ListedCommits(s: TablutState, side: Side, from: Pos, to: Pos)
    requires IsInside(from) && IsInside(to)
    requires s.phase != GameOver && s.sideToMove == side
    requires FirstMatch(s.legalMoves, from, to).Some?
    requires ApplyUnchecked(s, from, to, side, true).Ok?
    requires !ApplyUnchecked(s, from, to, side, true).value.illegalByRepetition
    ensures CommitMove(s, side, from, to).Ok?
  {
  }
}
