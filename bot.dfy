/** The computer opponent: a static evaluation, a move-ordering heuristic
    that shortlists candidates, a depth-limited alpha-beta search and the
    root move choice. */
module Bot {
  import opened TablutTypes
  import opened Geometry
  import opened Rules

  // ---------------------------------------------------------------------
  // Static evaluation

  const Win := 1000000

  /** The search starts from minus and plus infinity; every evaluation lies
      strictly between these two sentinels, so they compare as the
      infinities do. */
  const NegInf := -Win - 1
  const PosInf := Win + 1

  function Max(a: int, b: int): int {
    if a < b then b else a
  }

  function Min(a: int, b: int): int {
    if a < b then a else b
  }

  /** `x` brought into the window [lo, hi]. */
  function Clamp(x: int, lo: int, hi: int): int {
    Max(lo, Min(x, hi))
  }

  /** Material, king mobility and king pressure, from the attackers' point of
      view: attackers weigh 40, each step the king is away from the edge 60,
      each attacker next to the king 45 and a missing king 8000, against 55
      per defender, 500 for the king, 85 per step the king is from the edge
      and 40 per attacker next to it. */
  function RawScore(b: Board): int {
    var attackers := CountOf(b, A);
    var defenders := CountOf(b, D);
    var king := CountOf(b, K);
    var kingDist := ShortestKingDistanceToEdge(b);
    var kingThreat := KingAdjacentAttackers(b);
    var attackerScore := attackers * 40 + (8 - kingDist) * -60 + kingThreat * 45 + (1 - king) * 8000;
    var defenderScore := defenders * 55 + king * 500 + (8 - kingDist) * 85 + kingThreat * -40;
    attackerScore - defenderScore
  }

  function EvaluateState(s: TablutState, botSide: Side): (r: int)
    ensures -Win <= r <= Win
    ensures s.phase == GameOver && s.winnerSide == Some(botSide) ==> r == Win
    ensures s.phase == GameOver && s.winnerSide == Some(Opposite(botSide)) ==> r == -Win
    ensures s.phase == InProgress || s.winnerSide.None? ==>
      r == if botSide == Attacker then RawScore(s.board) else -RawScore(s.board)
  {
    if s.phase == GameOver && s.winnerSide == Some(botSide) then Win
    else if s.phase == GameOver && s.winnerSide.Some? then -Win
    else
      RawScoreBound(s.board);
      var raw := RawScore(s.board);
      if botSide == Attacker then raw else -raw
  }

  /** Without a winner the evaluation is zero-sum: what one side gains the
      other loses. */
  lemma EvaluateZeroSum(s: TablutState)
    requires s.phase == InProgress || s.winnerSide.None?
    ensures EvaluateState(s, Attacker) == -EvaluateState(s, Defender)
  {
  }

  /** A won game scores more for the winner than any position without a
      winner can, and less for the loser than any such position. */
  lemma WinDominates(s: TablutState, t: TablutState, side: Side)
    requires s.phase == GameOver && s.winnerSide == Some(side)
    requires t.phase == InProgress || t.winnerSide.None?
    ensures EvaluateState(t, side) < EvaluateState(s, side)
    ensures EvaluateState(s, Opposite(side)) < EvaluateState(t, Opposite(side))
  {
  }

  lemma RawScoreBound(b: Board)
    ensures -Win < RawScore(b) < Win
  {
    CountBound(b, A);
    CountBound(b, D);
    CountBound(b, K);
  }

  lemma CountBound(b: Board, x: Piece)
    ensures CountOf(b, x) <= 81
  {
    assert multiset(b)[Some(x)] <= |b|;
  }

  // ---------------------------------------------------------------------
  // Move ordering

  function Abs(x: int): nat {
    if x < 0 then -x else x
  }

  /** Captures first, then how far the piece travels. */
  function Heuristic(m: TablutMove): (h: nat)
    ensures 100 * |m.capturesPreview| <= h
  {
    |m.capturesPreview| * 100 + Abs(m.to.row - m.from.row) + Abs(m.to.col - m.from.col)
  }

  /** Between two moves on the board, the one previewing more captures ranks
      strictly higher, however far either travels. */
  lemma CapturesRankFirst(m1: TablutMove, m2: TablutMove)
    requires IsInside(m1.from) && IsInside(m1.to) && IsInside(m2.from) && IsInside(m2.to)
    requires |m1.capturesPreview| > |m2.capturesPreview|
    ensures Heuristic(m1) > Heuristic(m2)
  {
  }

  predicate Descending(ms: seq<TablutMove>) {
    forall i, j :: 0 <= i < j < |ms| ==> Heuristic(ms[i]) >= Heuristic(ms[j])
  }

  /** `m` placed after every element that ranks at least as high. */
  function Insert(m: TablutMove, ms: seq<TablutMove>): (r: seq<TablutMove>)
    ensures multiset(r) == multiset(ms) + multiset{m}
  {
    if ms == [] then [m]
    else if Heuristic(ms[0]) >= Heuristic(m) then
      assert ms == [ms[0]] + ms[1..];
      [ms[0]] + Insert(m, ms[1..])
    else [m] + ms
  }

  predicate AtMost(ms: seq<TablutMove>, h: int) {
    forall i :: 0 <= i < |ms| ==> Heuristic(ms[i]) <= h
  }

  lemma {:induction false} InsertAtMost(m: TablutMove, ms: seq<TablutMove>, h: int)
    requires AtMost(ms, h) && Heuristic(m) <= h
    ensures AtMost(Insert(m, ms), h)
  {
    if ms != [] && Heuristic(ms[0]) >= Heuristic(m) {
      InsertAtMost(m, ms[1..], h);
    }
  }

  lemma ConsDescending(x: TablutMove, ms: seq<TablutMove>)
    requires Descending(ms) && AtMost(ms, Heuristic(x))
    ensures Descending([x] + ms)
  {
  }

  lemma {:induction false} InsertDescending(m: TablutMove, ms: seq<TablutMove>)
    requires Descending(ms)
    ensures Descending(Insert(m, ms))
  {
    if ms == [] {
    } else if Heuristic(ms[0]) >= Heuristic(m) {
      InsertDescending(m, ms[1..]);
      InsertAtMost(m, ms[1..], Heuristic(ms[0]));
      ConsDescending(ms[0], Insert(m, ms[1..]));
    } else {
      ConsDescending(m, ms);
    }
  }

  /** Stable sort by non-increasing heuristic: moves of equal rank keep their
      order, as with a stable library sort given a descending comparator. */
  function SortByHeuristic(ms: seq<TablutMove>): (r: seq<TablutMove>)
    ensures multiset(r) == multiset(ms) && |r| == |ms|
    ensures Descending(r)
  {
    if ms == [] then []
    else
      assert ms == ms[..|ms| - 1] + [ms[|ms| - 1]];
      InsertDescending(ms[|ms| - 1], SortByHeuristic(ms[..|ms| - 1]));
      Insert(ms[|ms| - 1], SortByHeuristic(ms[..|ms| - 1]))
  }

  function Cap(depth: int): nat {
    if depth >= 4 then 18 else 24
  }

  /** Up to twenty moves are all kept; beyond that the best-ranked 18 (deep
      searches) or 24 (shallow ones), in ranking order. */
  function Shortlist(moves: seq<TablutMove>, depth: int): seq<TablutMove> {
    if |moves| <= 20 then moves
    else
      var sorted := SortByHeuristic(moves);
      sorted[..if Cap(depth) < |sorted| then Cap(depth) else |sorted|]
  }

  lemma ShortlistShape(moves: seq<TablutMove>, depth: int)
    ensures var r := Shortlist(moves, depth);
      (|moves| <= 20 ==> r == moves) &&
      (|moves| > 20 ==>
        |r| == (if Cap(depth) < |moves| then Cap(depth) else |moves|) &&
        Descending(r)) &&
      multiset(r) <= multiset(moves)
  {
    if |moves| > 20 {
      var sorted := SortByHeuristic(moves);
      var r := Shortlist(moves, depth);
      assert sorted == r + sorted[|r|..];
      assert multiset(sorted) == multiset(r) + multiset(sorted[|r|..]);
    }
  }

  /** Every move left out ranks no higher than every move kept. */
  lemma ShortlistKeepsBest(moves: seq<TablutMove>, depth: int, m: TablutMove, k: int)
    requires |moves| > 20 && m in moves && m !in Shortlist(moves, depth)
    requires 0 <= k < |Shortlist(moves, depth)|
    ensures Heuristic(m) <= Heuristic(Shortlist(moves, depth)[k])
  {
    var sorted := SortByHeuristic(moves);
    var r := Shortlist(moves, depth);
    assert m in multiset(sorted);
    var j :| 0 <= j < |sorted| && sorted[j] == m;
    assert forall i :: 0 <= i < |r| ==> r[i] == sorted[i];
    assert j >= |r|;
    assert sorted[k] == r[k];
  }

  predicate OnBoard(moves: seq<TablutMove>) {
    forall m :: m in moves ==> IsInside(m.from) && IsInside(m.to)
  }

  lemma AllSound(s: TablutState, side: Side)
    ensures forall m :: m in LegalMoves(s, side) ==> SoundMove(s, side, m)
  {
    forall m | m in LegalMoves(s, side)
      ensures SoundMove(s, side, m)
    {
      LegalMovesSound(s, side, m);
    }
  }

  /** The moves a search node looks at: the legal moves, shortlisted. */
  function SelectCandidateMoves(s: TablutState, side: Side, depth: int): (r: seq<TablutMove>)
    ensures forall m :: m in r ==> m in LegalMoves(s, side)
    ensures OnBoard(r)
  {
    ShortlistShape(LegalMoves(s, side), depth);
    AllSound(s, side);
    var r := Shortlist(LegalMoves(s, side), depth);
    assert forall m :: m in r ==> m in multiset(LegalMoves(s, side));
    r
  }

  // ---------------------------------------------------------------------
  // Search

  /** The state a search reaches by a move, when the unchecked application
      accepts it; a repetition rejection is skipped by the search. */
  function Reached(s: TablutState, m: TablutMove): Option<TablutState>
    requires IsInside(m.from) && IsInside(m.to)
  {
    var o := ApplyUnchecked(s, m.from, m.to, s.sideToMove, true);
    if o.Err? || o.value.illegalByRepetition then None else Some(o.value.state)
  }

  /** A candidate is always accepted: the legal move list has already
      dropped every move the unchecked application would reject. */
  lemma CandidatesReached(s: TablutState, depth: int, m: TablutMove)
    requires m in SelectCandidateMoves(s, s.sideToMove, depth)
    ensures Reached(s, m).Some?
  {
    LegalMovesSound(s, s.sideToMove, m);
    RecomputeOnlyLegalMoves(s, m.from, m.to, s.sideToMove, true);
  }

  /** The states a node's candidates lead to, in candidate order. */
  function Children(s: TablutState, moves: seq<TablutMove>): (cs: seq<Option<TablutState>>)
    requires OnBoard(moves)
    ensures |cs| == |moves|
  {
    seq(|moves|, i requires 0 <= i < |moves| => Reached(s, moves[i]))
  }

  /** A game tree as the search sees it: the static evaluation of a state,
      whether the bot is the player to move there, and the states a node's
      candidates lead to when searched at a given depth (None for a move the
      rules reject). A node without children is a leaf. */
  datatype Game = Game(
    eval: TablutState -> int,
    botToMove: TablutState -> bool,
    children: (TablutState, nat) -> seq<Option<TablutState>>)

  /** The Tablut game tree searched for `bot`: its evaluation, its turn, and
      the shortlisted candidates of a game in progress; a finished game has
      no children. */
  function SearchTree(bot: Side): Game {
    Game(
      (s: TablutState) => EvaluateState(s, bot),
      (s: TablutState) => s.sideToMove == bot,
      (s: TablutState, depth: nat) =>
        if s.phase == GameOver then [] else Children(s, SelectCandidateMoves(s, s.sideToMove, depth)))
  }

  /** The search: the evaluation at the horizon or at a leaf; otherwise the
      children scanned in order with the window [alpha, beta], maximizing
      where the bot is to move. */
  function AlphaBeta(g: Game, s: TablutState, depth: nat, alpha: int, beta: int): int
    decreases depth, 1, 0
  {
    if depth == 0 then g.eval(s)
    else
      var cs := g.children(s, depth);
      if |cs| == 0 then g.eval(s)
      else if g.botToMove(s) then Scan(g, cs, depth, alpha, beta, NegInf, true)
      else Scan(g, cs, depth, alpha, beta, PosInf, false)
  }

  /** One node's loop over its children: the best score so far, the window
      narrowed by each child's score, and a cut-off once it closes. A
      rejected move (None) is skipped. */
  function Scan(g: Game, cs: seq<Option<TablutState>>, depth: nat, alpha: int, beta: int,
                best: int, maximizing: bool): int
    requires depth > 0
    decreases depth, 0, |cs|
  {
    if cs == [] then best
    else
      match cs[0]
      case None => Scan(g, cs[1..], depth, alpha, beta, best, maximizing)
      case Some(child) =>
        var score := AlphaBeta(g, child, depth - 1, alpha, beta);
        var best' := if maximizing then Max(best, score) else Min(best, score);
        var alpha' := if maximizing then Max(alpha, score) else alpha;
        var beta' := if maximizing then beta else Min(beta, score);
        if beta' <= alpha' then best'
        else Scan(g, cs[1..], depth, alpha', beta', best', maximizing)
  }

  /** Plain minimax over the same tree, without a window. */
  function FullMinimax(g: Game, s: TablutState, depth: nat): int
    decreases depth, 1, 0
  {
    if depth == 0 then g.eval(s)
    else
      var cs := g.children(s, depth);
      if |cs| == 0 then g.eval(s)
      else Best(g, cs, depth, g.botToMove(s))
  }

  /** The best minimax value among the children, for the player to move. */
  function Best(g: Game, cs: seq<Option<TablutState>>, depth: nat, maximizing: bool): int
    requires depth > 0
    decreases depth, 0, |cs|
  {
    if cs == [] then (if maximizing then NegInf else PosInf)
    else
      var rest := Best(g, cs[1..], depth, maximizing);
      match cs[0]
      case None => rest
      case Some(child) =>
        var score := FullMinimax(g, child, depth - 1);
        if maximizing then Max(score, rest) else Min(score, rest)
  }

  /** The Tablut search stops at the horizon, on a finished game and
      without candidates, with the static evaluation. */
  lemma SearchLeaves(s: TablutState, depth: nat, alpha: int, beta: int, bot: Side)
    requires depth == 0 || s.phase == GameOver || SelectCandidateMoves(s, s.sideToMove, depth) == []
    ensures AlphaBeta(SearchTree(bot), s, depth, alpha, beta) == EvaluateState(s, bot)
  {
  }

  /** Every evaluation lies between the sentinels. */
  ghost predicate EvalInRange(g: Game) {
    forall s :: NegInf <= g.eval(s) <= PosInf
  }

  lemma TablutEvalInRange(bot: Side)
    ensures EvalInRange(SearchTree(bot))
  {
    forall s ensures NegInf <= SearchTree(bot).eval(s) <= PosInf {
      assert SearchTree(bot).eval(s) == EvaluateState(s, bot);
    }
  }

  /** With evaluations between the sentinels, so is every search value. */
  lemma {:induction false} AlphaBetaInRange(g: Game, s: TablutState, depth: nat, alpha: int, beta: int)
    requires EvalInRange(g)
    ensures NegInf <= AlphaBeta(g, s, depth, alpha, beta) <= PosInf
    decreases depth, 1, 0
  {
    if depth > 0 {
      var cs := g.children(s, depth);
      if |cs| > 0 {
        ScanInRange(g, cs, depth, alpha, beta, if g.botToMove(s) then NegInf else PosInf, g.botToMove(s));
      }
    }
  }

  lemma {:induction false} ScanInRange(g: Game, cs: seq<Option<TablutState>>, depth: nat, alpha: int, beta: int,
                                       best: int, maximizing: bool)
    requires EvalInRange(g) && depth > 0 && NegInf <= best <= PosInf
    ensures NegInf <= Scan(g, cs, depth, alpha, beta, best, maximizing) <= PosInf
    decreases depth, 0, |cs|
  {
    if cs != [] {
      match cs[0]
      case None =>
        ScanInRange(g, cs[1..], depth, alpha, beta, best, maximizing);
      case Some(child) =>
        var score := AlphaBeta(g, child, depth - 1, alpha, beta);
        AlphaBetaInRange(g, child, depth - 1, alpha, beta);
        var best' := if maximizing then Max(best, score) else Min(best, score);
        var alpha' := if maximizing then Max(alpha, score) else alpha;
        var beta' := if maximizing then beta else Min(beta, score);
        if alpha' < beta' {
          ScanInRange(g, cs[1..], depth, alpha', beta', best', maximizing);
        }
    }
  }

  /** A scan's result only improves on the best score it starts from. */
  lemma {:induction false} ScanMonotone(g: Game, cs: seq<Option<TablutState>>, depth: nat, alpha: int, beta: int,
                                        best: int, maximizing: bool)
    requires depth > 0
    ensures maximizing ==> best <= Scan(g, cs, depth, alpha, beta, best, maximizing)
    ensures !maximizing ==> Scan(g, cs, depth, alpha, beta, best, maximizing) <= best
    decreases |cs|
  {
    if cs != [] {
      match cs[0]
      case None =>
        ScanMonotone(g, cs[1..], depth, alpha, beta, best, maximizing);
      case Some(child) =>
        var score := AlphaBeta(g, child, depth - 1, alpha, beta);
        var best' := if maximizing then Max(best, score) else Min(best, score);
        var alpha' := if maximizing then Max(alpha, score) else alpha;
        var beta' := if maximizing then beta else Min(beta, score);
        if alpha' < beta' {
          ScanMonotone(g, cs[1..], depth, alpha', beta', best', maximizing);
        }
    }
  }

  /** One step of a maximizing scan, on scores alone: if the child's pruned
      score agrees with its minimax value `v` up to the window, and the rest
      of the scan (`tail`) agrees with the rest's minimax value `rest` up to
      the narrowed window, the whole scan agrees with the whole minimax value. */
  lemma MaxStep(alpha: int, beta: int, best: int, score: int, v: int, rest: int, tail: int)
    requires alpha < beta && best <= alpha
    requires Clamp(score, alpha, beta) == Clamp(v, alpha, beta)
    requires Max(alpha, score) < beta ==>
      Clamp(tail, Max(alpha, score), beta) == Clamp(Max(Max(best, score), rest), Max(alpha, score), beta) &&
      Max(best, score) <= tail
    ensures Clamp(if beta <= Max(alpha, score) then Max(best, score) else tail, alpha, beta) ==
      Clamp(Max(best, Max(v, rest)), alpha, beta)
  {
  }

  lemma MinStep(alpha: int, beta: int, best: int, score: int, v: int, rest: int, tail: int)
    requires alpha < beta && beta <= best
    requires Clamp(score, alpha, beta) == Clamp(v, alpha, beta)
    requires alpha < Min(beta, score) ==>
      Clamp(tail, alpha, Min(beta, score)) == Clamp(Min(Min(best, score), rest), alpha, Min(beta, score)) &&
      tail <= Min(best, score)
    ensures Clamp(if Min(beta, score) <= alpha then Min(best, score) else tail, alpha, beta) ==
      Clamp(Min(best, Min(v, rest)), alpha, beta)
  {
  }

  /** Fail-soft alpha-beta on any game tree: within the window the pruned
      search agrees with plain minimax, and outside it both lie on the same
      side of it. */
  lemma {:induction false} AlphaBetaClamp(g: Game, s: TablutState, depth: nat, alpha: int, beta: int)
    requires NegInf <= alpha < beta <= PosInf
    ensures Clamp(AlphaBeta(g, s, depth, alpha, beta), alpha, beta) == Clamp(FullMinimax(g, s, depth), alpha, beta)
    decreases depth, 1, 0
  {
    if depth > 0 {
      var cs := g.children(s, depth);
      if |cs| > 0 {
        var maximizing := g.botToMove(s);
        ScanClamp(g, cs, depth, alpha, beta, if maximizing then NegInf else PosInf, maximizing);
      }
    }
  }

  lemma {:induction false} ScanClamp(g: Game, cs: seq<Option<TablutState>>, depth: nat, alpha: int, beta: int,
                                     best: int, maximizing: bool)
    requires depth > 0 && NegInf <= alpha < beta <= PosInf
    requires maximizing ==> best <= alpha
    requires !maximizing ==> beta <= best
    ensures Clamp(Scan(g, cs, depth, alpha, beta, best, maximizing), alpha, beta) ==
      Clamp(if maximizing then Max(best, Best(g, cs, depth, true))
            else Min(best, Best(g, cs, depth, false)), alpha, beta)
    decreases depth, 0, |cs|
  {
    if cs != [] {
      var rest := Best(g, cs[1..], depth, maximizing);
      match cs[0]
      case None =>
        ScanClamp(g, cs[1..], depth, alpha, beta, best, maximizing);
      case Some(child) =>
        var score := AlphaBeta(g, child, depth - 1, alpha, beta);
        var v := FullMinimax(g, child, depth - 1);
        AlphaBetaClamp(g, child, depth - 1, alpha, beta);
        var best' := if maximizing then Max(best, score) else Min(best, score);
        var alpha' := if maximizing then Max(alpha, score) else alpha;
        var beta' := if maximizing then beta else Min(beta, score);
        var tail := if alpha' < beta' then Scan(g, cs[1..], depth, alpha', beta', best', maximizing) else best';
        if alpha' < beta' {
          ScanClamp(g, cs[1..], depth, alpha', beta', best', maximizing);
          ScanMonotone(g, cs[1..], depth, alpha', beta', best', maximizing);
        }
        if maximizing {
          MaxStep(alpha, beta, best, score, v, rest, tail);
        } else {
          MinStep(alpha, beta, best, score, v, rest, tail);
        }
    }
  }

  /** Searching with the full window, as the bot does at the root, gives
      exactly the plain minimax value: pruning changes only the work done. */
  lemma AlphaBetaIsMinimax(g: Game, s: TablutState, depth: nat)
    requires EvalInRange(g)
    ensures AlphaBeta(g, s, depth, NegInf, PosInf) == FullMinimax(g, s, depth)
  {
    AlphaBetaClamp(g, s, depth, NegInf, PosInf);
    AlphaBetaInRange(g, s, depth, NegInf, PosInf);
    FullMinimaxInRange(g, s, depth);
  }

  lemma {:induction false} FullMinimaxInRange(g: Game, s: TablutState, depth: nat)
    requires EvalInRange(g)
    ensures NegInf <= FullMinimax(g, s, depth) <= PosInf
    decreases depth, 1, 0
  {
    if depth > 0 {
      var cs := g.children(s, depth);
      if |cs| > 0 {
        BestInRange(g, cs, depth, g.botToMove(s));
      }
    }
  }

  lemma {:induction false} BestInRange(g: Game, cs: seq<Option<TablutState>>, depth: nat, maximizing: bool)
    requires EvalInRange(g) && depth > 0
    ensures NegInf <= Best(g, cs, depth, maximizing) <= PosInf
    decreases depth, 0, |cs|
  {
    if cs != [] {
      BestInRange(g, cs[1..], depth, maximizing);
      match cs[0]
      case None =>
      case Some(child) =>
        FullMinimaxInRange(g, child, depth - 1);
    }
  }

  // ---------------------------------------------------------------------
  // Root move choice

  /** The best score met so far at the root and the moves that reach it. */
  datatype Ranking = Ranking(bestScore: int, bestMoves: seq<TablutMove>)

  /** The root searches each candidate's state one level less deep than
      the difficulty. */
  function RootDepth(difficulty: Difficulty): nat
  {
    difficulty - 1
  }

  /** A root child's score: a full-window search of the state it reaches,
      or None when the move is rejected. */
  function Scored(c: Option<TablutState>, depth: nat, bot: Side): (r: Option<int>)
    ensures r.Some? <==> c.Some?
    ensures r.Some? ==> NegInf <= r.value <= PosInf
  {
    match c
    case None => None
    case Some(child) =>
      TablutEvalInRange(bot);
      AlphaBetaInRange(SearchTree(bot), child, depth, NegInf, PosInf);
      Some(AlphaBeta(SearchTree(bot), child, depth, NegInf, PosInf))
  }

  /** The root candidates' scores, in candidate order. */
  function RootScores(s: TablutState, moves: seq<TablutMove>, depth: nat, bot: Side): (scores: seq<Option<int>>)
    requires OnBoard(moves)
    ensures |scores| == |moves|
  {
    seq(|moves|, i requires 0 <= i < |moves| => Scored(Reached(s, moves[i]), depth, bot))
  }

  /** One root step: a strictly better score restarts the list of best
      moves, an equal one joins it, a worse one is dropped. */
  function Absorb(acc: Ranking, m: TablutMove, score: int): (r: Ranking)
    ensures acc.bestScore <= r.bestScore
    ensures score <= r.bestScore
    ensures m in r.bestMoves <==> m in acc.bestMoves || score >= acc.bestScore
    ensures forall x :: x in r.bestMoves ==> x == m || x in acc.bestMoves
    ensures r.bestScore == acc.bestScore ==> forall x :: x in acc.bestMoves ==> x in r.bestMoves
    ensures r.bestScore > acc.bestScore ==> r.bestScore == score && r.bestMoves == [m]
    ensures |acc.bestMoves| > 0 || score >= acc.bestScore ==> |r.bestMoves| > 0
  {
    if score > acc.bestScore then Ranking(score, [m])
    else if score == acc.bestScore then Ranking(acc.bestScore, acc.bestMoves + [m])
    else acc
  }

  /** The root loop from candidate `k` on, skipping rejected moves. */
  function Rank(moves: seq<TablutMove>, scores: seq<Option<int>>, k: nat, acc: Ranking): Ranking
    requires |scores| == |moves| && k <= |moves|
    decreases |moves| - k
  {
    if k == |moves| then acc
    else
      match scores[k]
      case None => Rank(moves, scores, k + 1, acc)
      case Some(score) => Rank(moves, scores, k + 1, Absorb(acc, moves[k], score))
  }

  /** The ranking never lowers the best score, and every scored candidate
      from `k` on scores at most the final best score. */
  lemma {:induction false} RankBound(moves: seq<TablutMove>, scores: seq<Option<int>>, k: nat, acc: Ranking)
    requires |scores| == |moves| && k <= |moves|
    ensures acc.bestScore <= Rank(moves, scores, k, acc).bestScore
    ensures forall j :: k <= j < |moves| && scores[j].Some? ==>
      scores[j].value <= Rank(moves, scores, k, acc).bestScore
    decreases |moves| - k
  {
    if k < |moves| {
      match scores[k]
      case None =>
        RankBound(moves, scores, k + 1, acc);
      case Some(score) =>
        RankBound(moves, scores, k + 1, Absorb(acc, moves[k], score));
    }
  }

  /** The best moves all come from the candidates or the starting list. */
  lemma {:induction false} RankFrom(moves: seq<TablutMove>, scores: seq<Option<int>>, k: nat, acc: Ranking)
    requires |scores| == |moves| && k <= |moves|
    ensures forall m :: m in Rank(moves, scores, k, acc).bestMoves ==> m in acc.bestMoves || m in moves
    decreases |moves| - k
  {
    if k < |moves| {
      match scores[k]
      case None =>
        RankFrom(moves, scores, k + 1, acc);
      case Some(score) =>
        RankFrom(moves, scores, k + 1, Absorb(acc, moves[k], score));
    }
  }

  /** Every move of `ms` is a candidate whose score is `score`. */
  predicate Tied(moves: seq<TablutMove>, scores: seq<Option<int>>, ms: seq<TablutMove>, score: int)
    requires |scores| == |moves|
  {
    forall m :: m in ms ==> exists j :: 0 <= j < |moves| && moves[j] == m && scores[j] == Some(score)
  }

  /** The best moves all score the best score. */
  lemma {:induction false} RankTied(moves: seq<TablutMove>, scores: seq<Option<int>>, k: nat, acc: Ranking)
    requires |scores| == |moves| && k <= |moves|
    requires Tied(moves, scores, acc.bestMoves, acc.bestScore)
    ensures Tied(moves, scores, Rank(moves, scores, k, acc).bestMoves, Rank(moves, scores, k, acc).bestScore)
    decreases |moves| - k
  {
    if k < |moves| {
      match scores[k]
      case None =>
        RankTied(moves, scores, k + 1, acc);
      case Some(score) =>
        var next := Absorb(acc, moves[k], score);
        forall m | m in next.bestMoves
          ensures exists j :: 0 <= j < |moves| && moves[j] == m && scores[j] == Some(next.bestScore)
        {
          if m == moves[k] && next.bestScore == score {
            assert moves[k] == m && scores[k] == Some(next.bestScore);
          } else {
            assert m in acc.bestMoves && next.bestScore == acc.bestScore;
          }
        }
        RankTied(moves, scores, k + 1, next);
    }
  }

  /** Once some candidate `w` from `k` on has a score in range, the list of
      best moves is not empty. */
  lemma {:induction false} RankNonEmpty(moves: seq<TablutMove>, scores: seq<Option<int>>, k: nat, acc: Ranking, w: nat)
    requires |scores| == |moves| && k <= |moves|
    requires |acc.bestMoves| > 0 ||
      (acc.bestScore == NegInf && k <= w < |moves| && scores[w].Some? && NegInf <= scores[w].value)
    requires forall j :: 0 <= j < |moves| && scores[j].Some? ==> NegInf <= scores[j].value
    ensures |Rank(moves, scores, k, acc).bestMoves| > 0
    decreases |moves| - k
  {
    if k < |moves| {
      match scores[k]
      case None =>
        RankNonEmpty(moves, scores, k + 1, acc, w);
      case Some(score) =>
        RankNonEmpty(moves, scores, k + 1, Absorb(acc, moves[k], score), w);
    }
  }

  /** The bot's move: only on its turn, among the shortlisted candidates,
      one of those with the best full-window search score; `choice` stands
      for the random tie-break and selects among the tied moves. */
  function PickedMove(s: TablutState, difficulty: Difficulty, bot: Side, choice: nat): (r: Result<TablutMove>)
    ensures r.Ok? ==> r.value in SelectCandidateMoves(s, s.sideToMove, difficulty)
  {
    if s.sideToMove != bot then Err(BotNotOnTurn)
    else
      var moves := SelectCandidateMoves(s, s.sideToMove, difficulty);
      if |moves| == 0 then Err(BotNoLegalMoves)
      else
        var scores := RootScores(s, moves, RootDepth(difficulty), bot);
        var r := Rank(moves, scores, 0, Ranking(NegInf, []));
        if |r.bestMoves| == 0 then Err(BotNoLegalMoves)
        else
          RankFrom(moves, scores, 0, Ranking(NegInf, []));
          assert r.bestMoves[choice % |r.bestMoves|] in r.bestMoves;
          Ok(r.bestMoves[choice % |r.bestMoves|])
  }

  /** Every root candidate gets a score. */
  lemma RootScoresPresent(s: TablutState, difficulty: Difficulty, bot: Side, j: int)
    requires 0 <= j < |SelectCandidateMoves(s, s.sideToMove, difficulty)|
    ensures var moves := SelectCandidateMoves(s, s.sideToMove, difficulty);
      var scores := RootScores(s, moves, RootDepth(difficulty), bot);
      Reached(s, moves[j]).Some? && scores[j].Some? && NegInf <= scores[j].value &&
      scores[j] == Some(AlphaBeta(SearchTree(bot), Reached(s, moves[j]).value, RootDepth(difficulty), NegInf, PosInf))
  {
    var moves := SelectCandidateMoves(s, s.sideToMove, difficulty);
    CandidatesReached(s, difficulty, moves[j]);
  }

  /** The bot fails exactly when it is not on turn or has no candidate. */
  lemma PickedMoveErrors(s: TablutState, difficulty: Difficulty, bot: Side, choice: nat)
    ensures var r := PickedMove(s, difficulty, bot, choice);
      (r == Err(BotNotOnTurn) <==> s.sideToMove != bot) &&
      (r == Err(BotNoLegalMoves) <==> s.sideToMove == bot && SelectCandidateMoves(s, s.sideToMove, difficulty) == [])
  {
    var moves := SelectCandidateMoves(s, s.sideToMove, difficulty);
    if s.sideToMove == bot && moves != [] {
      var scores := RootScores(s, moves, RootDepth(difficulty), bot);
      forall j | 0 <= j < |moves| && scores[j].Some?
        ensures NegInf <= scores[j].value
      {
      }
      RootScoresPresent(s, difficulty, bot, 0);
      RankNonEmpty(moves, scores, 0, Ranking(NegInf, []), 0);
    }
  }

  /** The picked move is one of the best-ranked candidates. */
  lemma PickedAmongBest(s: TablutState, difficulty: Difficulty, bot: Side, choice: nat)
    requires PickedMove(s, difficulty, bot, choice).Ok?
    ensures var moves := SelectCandidateMoves(s, s.sideToMove, difficulty);
      var chosen := PickedMove(s, difficulty, bot, choice).value;
      var scores := RootScores(s, moves, RootDepth(difficulty), bot);
      chosen in moves &&
      Scored(Reached(s, chosen), RootDepth(difficulty), bot) == Some(Rank(moves, scores, 0, Ranking(NegInf, [])).bestScore)
  {
    var moves := SelectCandidateMoves(s, s.sideToMove, difficulty);
    var scores := RootScores(s, moves, RootDepth(difficulty), bot);
    var init := Ranking(NegInf, []);
    RankTied(moves, scores, 0, init);
    var ranked := Rank(moves, scores, 0, init);
    var chosen := ranked.bestMoves[choice % |ranked.bestMoves|];
    assert chosen in ranked.bestMoves;
    var j :| 0 <= j < |moves| && moves[j] == chosen && scores[j] == Some(ranked.bestScore);
    assert scores[j] == Scored(Reached(s, moves[j]), RootDepth(difficulty), bot);
  }

  /** The picked move is a candidate whose minimax value is at least that
      of every candidate. */
  lemma PickedMoveOptimal(s: TablutState, difficulty: Difficulty, bot: Side, choice: nat)
    requires PickedMove(s, difficulty, bot, choice).Ok?
    ensures var moves := SelectCandidateMoves(s, s.sideToMove, difficulty);
      var chosen := PickedMove(s, difficulty, bot, choice).value;
      chosen in moves && Reached(s, chosen).Some? &&
      forall j :: 0 <= j < |moves| ==> (Reached(s, moves[j]).Some? &&
        FullMinimax(SearchTree(bot), Reached(s, moves[j]).value, RootDepth(difficulty)) <=
        FullMinimax(SearchTree(bot), Reached(s, chosen).value, RootDepth(difficulty)))
  {
    var moves := SelectCandidateMoves(s, s.sideToMove, difficulty);
    var chosen := PickedMove(s, difficulty, bot, choice).value;
    var d := RootDepth(difficulty);
    PickedAmongBest(s, difficulty, bot, choice);
    forall j | 0 <= j < |moves|
      ensures Reached(s, moves[j]).Some? && Reached(s, chosen).Some? &&
        FullMinimax(SearchTree(bot), Reached(s, moves[j]).value, d) <=
        FullMinimax(SearchTree(bot), Reached(s, chosen).value, d)
    {
      CandidateNoBetter(s, difficulty, bot, choice, j);
    }
  }

  /** Candidate `j` has no higher minimax value than the picked move. */
  lemma CandidateNoBetter(s: TablutState, difficulty: Difficulty, bot: Side, choice: nat, j: int)
    requires PickedMove(s, difficulty, bot, choice).Ok?
    requires 0 <= j < |SelectCandidateMoves(s, s.sideToMove, difficulty)|
    ensures var moves := SelectCandidateMoves(s, s.sideToMove, difficulty);
      var chosen := PickedMove(s, difficulty, bot, choice).value;
      chosen in moves && Reached(s, chosen).Some? && Reached(s, moves[j]).Some? &&
      FullMinimax(SearchTree(bot), Reached(s, moves[j]).value, RootDepth(difficulty)) <=
      FullMinimax(SearchTree(bot), Reached(s, chosen).value, RootDepth(difficulty))
  {
    var moves := SelectCandidateMoves(s, s.sideToMove, difficulty);
    var d := RootDepth(difficulty);
    var g := SearchTree(bot);
    var scores := RootScores(s, moves, d, bot);
    var chosen := PickedMove(s, difficulty, bot, choice).value;
    var best := Rank(moves, scores, 0, Ranking(NegInf, [])).bestScore;
    PickedAmongBest(s, difficulty, bot, choice);
    RankBound(moves, scores, 0, Ranking(NegInf, []));
    RootScoresPresent(s, difficulty, bot, j);
    TablutEvalInRange(bot);
    var y := Reached(s, chosen).value;
    assert AlphaBeta(g, y, d, NegInf, PosInf) == best;
    MinimaxBelow(g, Reached(s, moves[j]).value, y, d, best);
  }

  /** A root candidate scored no higher than the best one has no higher
      minimax value. */
  lemma MinimaxBelow(g: Game, x: TablutState, y: TablutState, depth: nat, best: int)
    requires EvalInRange(g)
    requires AlphaBeta(g, x, depth, NegInf, PosInf) <= best == AlphaBeta(g, y, depth, NegInf, PosInf)
    ensures FullMinimax(g, x, depth) <= FullMinimax(g, y, depth)
  {
    AlphaBetaIsMinimax(g, x, depth);
    AlphaBetaIsMinimax(g, y, depth);
  }

  // ---------------------------------------------------------------------
  // The search as the engine runs it

  /** The candidates of a node, computed by the legal-move generator. */
  method CandidateMoves(s: TablutState, side: Side, depth: int) returns (moves: seq<TablutMove>)
    ensures moves == SelectCandidateMoves(s, side, depth)
  {
    var legal := GenerateLegalMoves(s, side);
    moves := Shortlist(legal, depth);
  }

  /** The state a move leads to in the search, by the unchecked
      application; a rejected move leads nowhere. */
  method ReachBy(s: TablutState, m: TablutMove) returns (child: Option<TablutState>)
    requires IsInside(m.from) && IsInside(m.to)
    ensures child == Reached(s, m)
  {
    var o := ApplyMoveUnchecked(s, m.from, m.to, s.sideToMove, true);
    if o.Err? || o.value.illegalByRepetition {
      return None;
    }
    return Some(o.value.state);
  }

  /** A node's bookkeeping after a child's score: the best score so far and
      the side's own bound of the window move towards the score. */
  method NarrowWindow(maximizing: bool, best: int, alpha: int, beta: int, score: int)
    returns (best': int, alpha': int, beta': int)
    ensures best' == if maximizing then Max(best, score) else Min(best, score)
    ensures alpha' == if maximizing then Max(alpha, score) else alpha
    ensures beta' == if maximizing then beta else Min(beta, score)
  {
    best', alpha', beta' := best, alpha, beta;
    if maximizing {
      if score > best' { best' := score; }
      if score > alpha' { alpha' := score; }
    } else {
      if score < best' { best' := score; }
      if score < beta' { beta' := score; }
    }
  }

  /** A node's loop skips a rejected move. */
  lemma ScanSkip(g: Game, cs: seq<Option<TablutState>>, i: nat, depth: nat, alpha: int, beta: int,
                 best: int, maximizing: bool, v: int)
    requires depth > 0 && i < |cs| && cs[i].None?
    requires Scan(g, cs[i..], depth, alpha, beta, best, maximizing) == v
    ensures Scan(g, cs[i + 1..], depth, alpha, beta, best, maximizing) == v
  {
    assert cs[i..][1..] == cs[i + 1..];
  }

  /** A node's loop takes an accepted move's score into its window and
      stops once the window closes. */
  lemma ScanTake(g: Game, cs: seq<Option<TablutState>>, i: nat, depth: nat, childDepth: nat,
                 alpha: int, beta: int,
                 best: int, maximizing: bool, child: TablutState, score: int,
                 best': int, alpha': int, beta': int, v: int)
    requires depth > 0 && childDepth == depth - 1 && i < |cs| && cs[i] == Some(child)
    requires score == AlphaBeta(g, child, childDepth, alpha, beta)
    requires best' == if maximizing then Max(best, score) else Min(best, score)
    requires alpha' == if maximizing then Max(alpha, score) else alpha
    requires beta' == if maximizing then beta else Min(beta, score)
    requires Scan(g, cs[i..], depth, alpha, beta, best, maximizing) == v
    ensures beta' <= alpha' ==> best' == v
    ensures alpha' < beta' ==> Scan(g, cs[i + 1..], depth, alpha', beta', best', maximizing) == v
  {
    assert cs[i..][1..] == cs[i + 1..];
  }

  /** An inner node of the Tablut search scans its candidates' states,
      maximizing where the bot is to move. */
  lemma SearchNode(s: TablutState, depth: nat, alpha: int, beta: int, bot: Side)
    requires depth > 0 && s.phase == InProgress
    requires SelectCandidateMoves(s, s.sideToMove, depth) != []
    ensures var moves := SelectCandidateMoves(s, s.sideToMove, depth);
      var maximizing := s.sideToMove == bot;
      AlphaBeta(SearchTree(bot), s, depth, alpha, beta) ==
        Scan(SearchTree(bot), Children(s, moves), depth, alpha, beta, if maximizing then NegInf else PosInf, maximizing)
  {
  }

  /** Depth-limited alpha-beta search of `s`, as seen by `bot`. */
  method Minimax(s: TablutState, depth: nat, alpha: int, beta: int, bot: Side) returns (r: int)
    ensures r == AlphaBeta(SearchTree(bot), s, depth, alpha, beta)
    decreases depth, 1
  {
    if depth == 0 || s.phase == GameOver {
      SearchLeaves(s, depth, alpha, beta, bot);
      return EvaluateState(s, bot);
    }
    var side := s.sideToMove;
    var moves := CandidateMoves(s, side, depth);
    if |moves| == 0 {
      SearchLeaves(s, depth, alpha, beta, bot);
      return EvaluateState(s, bot);
    }
    SearchNode(s, depth, alpha, beta, bot);
    r := ScanMoves(s, moves, depth, alpha, beta, side == bot, bot);
  }

  /** The loop of a search node over its candidates: each accepted move's
      state is searched with the current window, which narrows towards the
      scores found until it closes. */
  method ScanMoves(s: TablutState, moves: seq<TablutMove>, depth: nat, alpha: int, beta: int,
                   maximizing: bool, bot: Side) returns (best: int)
    requires depth > 0 && OnBoard(moves)
    ensures best == Scan(SearchTree(bot), Children(s, moves), depth, alpha, beta,
                         if maximizing then NegInf else PosInf, maximizing)
    decreases depth, 0
  {
    ghost var g := SearchTree(bot);
    ghost var cs := Children(s, moves);
    best := if maximizing then NegInf else PosInf;
    var a, b := alpha, beta;
    ghost var v := Scan(g, cs, depth, alpha, beta, best, maximizing);
    var childDepth: nat := depth - 1;
    var i := 0;
    assert cs[0..] == cs;
    while i < |moves|
      invariant 0 <= i <= |moves|
      invariant Scan(g, cs[i..], depth, a, b, best, maximizing) == v
    {
      var next := ReachBy(s, moves[i]);
      assert cs[i] == next;
      if next.Some? {
        var score := Minimax(next.value, childDepth, a, b, bot);
        var best', a', b' := NarrowWindow(maximizing, best, a, b, score);
        ScanTake(g, cs, i, depth, childDepth, a, b, best, maximizing, next.value, score, best', a', b', v);
        best, a, b := best', a', b';
        if b <= a {
          return;
        }
      } else {
        ScanSkip(g, cs, i, depth, a, b, best, maximizing, v);
      }
      i := i + 1;
    }
  }

  /** A root candidate's score is the full-window search of the state its
      move reaches, or None for a rejected move. */
  lemma RootScoreAt(s: TablutState, moves: seq<TablutMove>, depth: nat, bot: Side, i: nat,
                    next: Option<TablutState>)
    requires OnBoard(moves) && i < |moves| && next == Reached(s, moves[i])
    ensures next.None? ==> RootScores(s, moves, depth, bot)[i] == None
    ensures next.Some? ==>
      RootScores(s, moves, depth, bot)[i] == Some(AlphaBeta(SearchTree(bot), next.value, depth, NegInf, PosInf))
  {
  }

  /** The root loop skips a rejected move. */
  lemma RankSkip(moves: seq<TablutMove>, scores: seq<Option<int>>, i: nat, acc: Ranking, v: Ranking)
    requires |scores| == |moves| && i < |moves| && scores[i].None?
    requires Rank(moves, scores, i, acc) == v
    ensures Rank(moves, scores, i + 1, acc) == v
  {
  }

  /** The root loop absorbs a scored move. */
  lemma RankTake(moves: seq<TablutMove>, scores: seq<Option<int>>, i: nat, acc: Ranking, score: int, v: Ranking)
    requires |scores| == |moves| && i < |moves| && scores[i] == Some(score)
    requires Rank(moves, scores, i, acc) == v
    ensures Rank(moves, scores, i + 1, Absorb(acc, moves[i], score)) == v
  {
  }

  /** The root loop: every accepted candidate is searched with the full
      window, and the best score and the moves that reach it are kept. */
  method RankMoves(s: TablutState, moves: seq<TablutMove>, depth: nat, bot: Side)
    returns (bestScore: int, bestMoves: seq<TablutMove>)
    requires OnBoard(moves)
    ensures Ranking(bestScore, bestMoves) == Rank(moves, RootScores(s, moves, depth, bot), 0, Ranking(NegInf, []))
  {
    ghost var scores := RootScores(s, moves, depth, bot);
    ghost var v := Rank(moves, scores, 0, Ranking(NegInf, []));
    bestScore, bestMoves := NegInf, [];
    var i := 0;
    while i < |moves|
      invariant 0 <= i <= |moves|
      invariant Rank(moves, scores, i, Ranking(bestScore, bestMoves)) == v
    {
      var m := moves[i];
      var next := ReachBy(s, m);
      if next.Some? {
        var score := Minimax(next.value, depth, NegInf, PosInf, bot);
        RootScoreAt(s, moves, depth, bot, i, next);
        RankTake(moves, scores, i, Ranking(bestScore, bestMoves), score, v);
        if score > bestScore {
          bestScore := score;
          bestMoves := [m];
        } else if score == bestScore {
          bestMoves := bestMoves + [m];
        }
      } else {
        RootScoreAt(s, moves, depth, bot, i, next);
        RankSkip(moves, scores, i, Ranking(bestScore, bestMoves), v);
      }
      i := i + 1;
    }
  }

  /** The bot's move on its turn; `choice` is the random tie-break index. */
  method PickBotMoveAlphaBeta(s: TablutState, difficulty: Difficulty, bot: Side, choice: nat)
    returns (r: Result<TablutMove>)
    ensures r == PickedMove(s, difficulty, bot, choice)
  {
    var side := s.sideToMove;
    if side != bot {
      return Err(BotNotOnTurn);
    }
    var moves := CandidateMoves(s, side, difficulty);
    if |moves| == 0 {
      return Err(BotNoLegalMoves);
    }
    var depth := RootDepth(difficulty);
    var bestScore, bestMoves := RankMoves(s, moves, depth, bot);
    if |bestMoves| == 0 {
      return Err(BotNoLegalMoves);
    }
    return Ok(bestMoves[choice % |bestMoves|]);
  }
}
