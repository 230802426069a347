# Tablut rules engine and bot, modelled in Dafny

This project models the game core of a Tablut backend. Tablut is played on a 9×9 board. Sixteen attackers try to capture the king. Eight defenders try to get the king to an edge.

The model covers four parts of the backend:

- **Board primitives** (`Geometry`, `board.dfy`): cells, neighbours, rook paths, finding the king, counting pieces.
- **Capture rules** (`CaptureRules`, `capture.dfy`): the custodial sandwich, the hostile throne and the fortress capture of a king on or next to the throne.
- **Rules engine** (`Rules`, `rules.dfy`):
  - the canonical position hash;
  - the unchecked move application, with the attacker-only repetition rule;
  - legal-move enumeration;
  - the committing `applyMove`.
- **Initial state** (`InitialState`, `state.dfy`): the starting board and the new game.
- **Bot** (`Bot`, `bot.dfy`):
  - the static evaluation;
  - the candidate shortlist;
  - alpha-beta minimax;
  - the top-level move choice with its tie-break.
- **Engine** (`Engine`, `engine.dfy`): one human move with the bot's automatic reply, the bot's turn with its pass-turn fallback, and the difficulty change.

## How the model is built

A game state is a value. The source clones the state before every transition, so a datatype holding the state keeps the same meaning.

Each operation has two forms:

- A specification function gives its meaning, for example `Rules.ApplyUnchecked`, `Rules.LegalMoves`, `Bot.AlphaBeta` or `Engine.HumanMove`.
- A method follows the source step by step, with the same loops, early returns and `break`s. Its `ensures` proves that it computes the specification function.

The properties are then stated as lemmas about the specification functions.

### The search tree

The search is defined once, over a general `Bot.Game`. A game has an evaluation, a test for whether the bot is to move, and the states a node's candidates reach. `Bot.SearchTree` is the Tablut instance:

- the evaluation is `evaluateState` from the bot's side;
- the children are the shortlisted candidates, applied with the unchecked application;
- a finished game has no children.

That last point folds the source's `GAME_OVER` test into the leaf case, and `Bot.SearchLeaves` proves that the three leaf cases of the source give the static evaluation. `Bot.AlphaBetaIsMinimax` is proved for every game whose evaluation stays between the sentinels, and `Bot.TablutEvalInRange` shows that the Tablut evaluation does.

The root scores are a specification function too, `Bot.RootScores`: one optional score per candidate, searched one level less deep than the difficulty. `Bot.Rank` is the root loop over them.

### How the source's constructs are represented

- **Errors.** The source throws. The model returns `Result.Err` with the source's own error kinds.
- **Infinities.** JavaScript's `±Infinity` sentinels become the integers `NegInf` and `PosInf`. They lie strictly outside every score the evaluation can return, which is ±1 000 000.
- **The `recomputeLegalMoves` option.** `Rules.Settle` is the application without regenerated legal moves. `Rules.ApplyUnchecked` adds the regeneration on top of it. `Rules.RecomputeOnlyLegalMoves` proves that the flag changes nothing else.
- **Faithfulness of the enumeration.** The move list is built in the source's row-major, direction-by-direction order. `Rules.LegalMovesExact` proves that it holds exactly the sound moves.

## Model

| member | source | states |
|---|---|---|
| TablutTypes.Opposite | src/domain/rules.ts:59-61 | switching sides always yields the other side |
| Geometry.Idx | src/domain/rules.ts:13-15 | an on-board cell maps to an index below 81 |
| Geometry.PosOf | src/domain/rules.ts:13-15 | every index 0..80 is the row-major index of exactly the cell returned (inverse of Idx) |
| Geometry.IdxInjective | src/domain/rules.ts:13-15 | two on-board cells with the same index are the same cell |
| Geometry.SetPiece | src/domain/rules.ts:41-43 | the written cell holds the new value and every other cell is unchanged |
| Geometry.SideOfPiece | src/domain/rules.ts:45-47 | a piece belongs to the attackers exactly when it is 'A' (the king is a defender) |
| Geometry.InsideOnly | src/domain/rules.ts:63-65 | keeps exactly the on-board positions of the list |
| Geometry.OrthNeighbors | src/domain/rules.ts:63-65 | lists exactly the on-board cells orthogonally adjacent to p, each once |
| Geometry.AttackersAround | src/domain/rules.ts:347-351 | the set of on-board cells orthogonally adjacent to p that hold an attacker |
| Geometry.CountAttackersAtSet | src/domain/rules.ts:76-82 | counting attackers along a list of distinct on-board cells gives the size of the set of those cells holding an attacker |
| Geometry.ThroneNeighbors | src/domain/rules.ts:63-65 | the throne's neighbours are the four cells around (4,4), in direction order |
| Geometry.NeighborCountBound | src/domain/rules.ts:63-65 | a cell has at most four neighbours |
| Geometry.HasRookPath | src/domain/rules.ts:96-111 | the loop returns true exactly when the straight path is clear, off-throne and ends on an empty, non-throne cell (RookPath) |
| Geometry.RookPathAvoidsThrone | src/domain/rules.ts:102-110 | no cell of a valid rook path, destination included, is the throne |
| Geometry.ThroneCannotBeCrossed | tests/rules.test.ts:43-47 | the test's example: no slide from (4,2) reaches (4,6), on any board, because the throne lies between them |
| Geometry.KingPos | src/domain/rules.ts:67-74 | returns an on-board cell holding the king, and None exactly when no cell holds the king |
| Geometry.FindKing | src/domain/rules.ts:67-74 | the row-major scan returns KingPos |
| Geometry.CountOf | src/domain/rules.ts:326-338 | the count of a piece is its multiplicity on the board |
| Geometry.CountPieces | src/domain/rules.ts:326-338 | the loop counts attackers, defenders and kings as their multiplicities on the board |
| Geometry.ClearCellKings | src/domain/rules.ts:41-43 | emptying a cell removes the king standing there, if any, and no other |
| Geometry.SlideKeepsPieces | src/domain/rules.ts:177-178 | lifting a piece and setting it down on an empty cell keeps the board's multiset of pieces |
| Geometry.SingleKingAt | src/domain/rules.ts:67-74 | on a board with at most one king, a king found at a cell is the only king, so the scan finds that one |
| Geometry.ShortestKingDistanceToEdge | src/domain/rules.ts:340-345 | at most 4; equal to one of the four edge distances and no larger than any; 0 exactly when there is no king or it stands on an edge |
| Geometry.KingAdjacentAttackers | src/domain/rules.ts:347-351 | with a king, exactly the number of on-board orthogonal neighbours of the king that hold an attacker; 0 without a king; at most 4 |
| Geometry.KingUnthreatened | src/domain/rules.ts:347-351 | with a king on the board, the count is 0 exactly when no attacker is orthogonally next to it |
| CaptureRules.CountAttackersAdjacentToThrone | src/domain/rules.ts:76-82 | one for each of (3,4), (5,4), (4,3), (4,5) that holds an attacker, so at most 4 |
| CaptureRules.ThroneHostileIff | src/domain/rules.ts:84-89 | the throne is hostile exactly when the king has left it (the state's flag), or the king stands on it with at least three of its four neighbours holding attackers |
| CaptureRules.OnOrAdjacentThroneIff | src/domain/rules.ts:91-94 | "on or next to the throne" means Manhattan distance at most 1 from (4,4) |
| CaptureRules.WithoutThrone | src/domain/rules.ts:130 | keeps exactly the listed cells that are not the throne |
| CaptureRules.FortressOnThrone | src/domain/rules.ts:125-127 | a king on the throne is captured exactly when all four throne neighbours hold attackers |
| CaptureRules.FortressNextToThrone | src/domain/rules.ts:129-132 | a king next to the throne is captured exactly when its three other neighbours hold attackers |
| CaptureRules.FortressElsewhere | src/domain/rules.ts:134 | away from the throne the fortress rule never captures |
| CaptureRules.AllAttackersIff | src/domain/rules.ts:126-131 | the "every neighbour is an attacker" test means every listed cell is on the board and holds 'A' |
| CaptureRules.CaptureInDir | src/domain/rules.ts:188-209 | a capture in one direction is the enemy piece on the adjacent cell |
| CaptureRules.OrdinaryCaptureIff | src/domain/rules.ts:113-122 | a non-king enemy is taken exactly when the cell beyond is friendly, or is the throne while it is hostile |
| CaptureRules.KingSandwichIff | src/domain/rules.ts:196-203 | the king is sandwiched only by an attacker, only away from the throne, and only against a friendly or hostile cell beyond |
| CaptureRules.ScanCaptures | src/domain/rules.ts:188-209 | each capture lies on the board next to the destination and holds an enemy piece |
| CaptureRules.FortressCapture | src/domain/rules.ts:211-217 | adds at most the king, and only on an attacker move |
| CaptureRules.DefenderNeverCapturesKing | src/domain/rules.ts:196-197 | a defender move never captures the king |
| CaptureRules.KingNearThroneOnlyByFortress | src/domain/rules.ts:196-217 | on a board with at most one king, a king on or next to the throne is taken exactly by an attacker's fortress capture; every reachable board qualifies (InitialState.InitialCounts gives one king, and the NoNewKing lemmas show no move or turn adds one) |
| CaptureRules.ScanNeverTakesKingNearThrone | src/domain/rules.ts:198 | when the only king stands on or next to the throne, the sandwich scan never takes it |
| CaptureRules.RemoveCaptured | src/domain/rules.ts:219-221 | empties exactly the captured cells |
| CaptureRules.Winner | src/domain/rules.ts:223-229 | attackers win exactly when the king is gone; defenders exactly when the king is on an edge |
| CaptureRules.Resolve | src/domain/rules.ts:177-229 | the throne flag becomes set exactly when the king leaves the throne, the winner is read off the final board, and captures are on the board |
| CaptureRules.CaptureAt | src/domain/rules.ts:189-208 | one loop iteration computes CaptureInDir |
| CaptureRules.FindCaptures | src/domain/rules.ts:184-217 | the direction loop plus the fortress check compute AllCaptures |
| CaptureRules.RemoveAll | src/domain/rules.ts:219-221 | the removal loop computes RemoveCaptured |
| CaptureRules.ResolveMove | src/domain/rules.ts:177-229 | the board phase of a move computes Resolve |
| CaptureRules.DecideWinner | src/domain/rules.ts:223-229 | locating the king and testing it computes Winner: attackers without a king, defenders with the king on an edge |
| CaptureRules.RemoveCapturedNoNewKing | src/domain/rules.ts:219-221 | removing the captured pieces never adds a king |
| CaptureRules.ResolveNoNewKing | src/domain/rules.ts:177-229 | a legal slide and its captures never add a king |
| Rules.BoardKey | src/domain/rules.ts:138 | the board key has one glyph per cell (81 characters) |
| Rules.PositionHashInjective | src/domain/rules.ts:137-140 | equal hashes mean equal board, side to move and throne flag (collision-free) |
| Rules.CapturePositions | src/domain/rules.ts:319 | lists the captured cells, one per capture, in order |
| Rules.CapturePieces | src/domain/rules.ts:320 | lists the captured pieces, one per capture, in order |
| Rules.ApplyUncheckedErrors | src/domain/rules.ts:171-175 | fails with empty_source, piece_not_owned, invalid_path in that order, and succeeds exactly for a friendly piece with a rook path |
| Rules.SettleUnfold | src/domain/rules.ts:170-175 | the same error order for the application without regeneration, which otherwise concludes the move's board resolution |
| Rules.RepetitionRule | src/domain/rules.ts:234-242 | illegal by repetition exactly for a non-winning attacker move whose resulting hash was seen twice or more, returning the input state with no captures or winner |
| Rules.ConcludeRepetition | src/domain/rules.ts:234-242 | the repetition rule stated for any board resolution |
| Rules.ConcludeAccepted | src/domain/rules.ts:223-252 | an accepted move carries the resolution's board, captures and winner; phase is GAME_OVER iff there is a winner; the turn passes only without a winner; identity fields are kept |
| Rules.ConcludeCounts | src/domain/rules.ts:237-244 | a non-winning accepted move adds one to the new hash's count and changes no other count |
| Rules.AcceptedMoveBoard | src/domain/rules.ts:177-221 | an accepted move's board and captures are the resolution's; the throne flag is only ever set; id, version, players, difficulty and history are untouched |
| Rules.AcceptedMoveWinner | src/domain/rules.ts:223-252 | the winner is read off the new board; a win clears legal moves and keeps turn and counts; otherwise the turn passes and legal moves are regenerated exactly when asked |
| Rules.AcceptedMoveCounts | src/domain/rules.ts:237-244 | a non-winning accepted move increments exactly the resulting position's count |
| Rules.RecomputeOnlyLegalMoves | src/domain/rules.ts:245-249 | the recompute option affects only the legal moves of an accepted, non-winning result |
| Rules.ApplyUnchecked | src/domain/rules.ts:164-255 | reference definition, no contract of its own: Settle, with the legal moves of an accepted in-progress result regenerated when asked; ApplyUncheckedErrors, RecomputeOnlyLegalMoves, the AcceptedMove lemmas and ApplyNoNewKing are about it |
| Rules.Settle | src/domain/rules.ts:170-248 | reference definition, no contract of its own: the three checks in order, then Conclude of the board resolution, with the legal moves left empty; SettleUnfold is about it |
| Rules.Conclude | src/domain/rules.ts:231-252 | reference definition, no contract of its own: winner, phase, turn, repetition rule and position count for a resolved move; ConcludeRepetition, ConcludeAccepted and ConcludeCounts are about it |
| Rules.ApplyMoveUnchecked | src/domain/rules.ts:164-255 | the step-by-step application computes ApplyUnchecked |
| Rules.ApplyNoNewKing | src/domain/rules.ts:164-255 | an unchecked application, accepted or refused by repetition, never adds a king |
| Rules.ConcludeMove | src/domain/rules.ts:231-252 | the winner/turn/repetition/count phase computes Conclude |
| Rules.Cells | src/domain/rules.ts:262-264 | visits the 81 cells in row-major order |
| Rules.TargetsValid | src/domain/rules.ts:266-285 | every visited (from, to) starts on a friendly piece and has a rook path |
| Rules.TargetsComplete | src/domain/rules.ts:266-285 | every rook move of a friendly piece is visited |
| Rules.LegalMovesCongruent | src/domain/rules.ts:257-291 | legal moves depend only on board, throne flag, phase and counts, not on id, version, players, cached moves or history |
| Rules.LegalMovesSound | src/domain/rules.ts:257-291 | no moves once the game is over; every listed move is friendly, path-clear, applies without error, is not illegal by repetition, and previews exactly its captures |
| Rules.LegalMovesComplete | src/domain/rules.ts:257-291 | every sound move of a game in progress is listed |
| Rules.LegalMovesExact | src/domain/rules.ts:257-291 | a move is listed exactly when the game is in progress and the move is sound |
| Rules.LegalMoves | src/domain/rules.ts:257-291 | reference definition, no contract of its own: the candidates of every friendly cell in enumeration order, none once the game is over; LegalMovesSound, LegalMovesComplete, LegalMovesExact and LegalMovesCongruent are about it |
| Rules.GenerateLegalMoves | src/domain/rules.ts:257-291 | the nested cell/direction/slide loops compute LegalMoves |
| Rules.PieceMoves | src/domain/rules.ts:266-286 | the direction and slide loops for one cell compute that cell's candidates |
| Rules.SlideMoves | src/domain/rules.ts:269-285 | the slide along one direction appends exactly that direction's candidates: every open cell before the first blocked one, unless the move is refused for repetition |
| Rules.FirstMatch | src/domain/rules.ts:297 | finds a listed move with the requested ends, or reports that none has them |
| Rules.FindListed | src/domain/rules.ts:297 | the search loop computes FirstMatch |
| Rules.CommitGuards | src/domain/rules.ts:294-297 | game_over first, then invalid_turn; an accepted move was in progress, on turn and listed |
| Rules.CommitUnlisted | src/domain/rules.ts:298-309 | an unlisted move is refused as attacker_must_break_repetition exactly when its speculative application repeats, and as illegal_move otherwise |
| Rules.CommitAccepted | src/domain/rules.ts:311-323 | an accepted move is the regenerating application plus exactly one new history record, numbered one past the old length, holding the captured cells |
| Rules.CommitKeepsFresh | src/domain/rules.ts:311-321 | after a commit the cached legal moves equal the generated ones |
| Rules.CommitNoNewKing | src/domain/rules.ts:293-324 | a committed move never adds a king |
| Rules.ListedMoveAccepted | src/domain/rules.ts:297-312 | with fresh legal moves, a listed move of the side to move is always accepted |
| Rules.CommitMove | src/domain/rules.ts:293-324 | reference definition, no contract of its own: the guards, the lookup, the unchecked application and the new history record; CommitGuards, CommitUnlisted, CommitAccepted, CommitKeepsFresh and ListedMoveAccepted are about it |
| Rules.ApplyMove | src/domain/rules.ts:293-324 | the committing apply computes CommitMove |
| InitialState.EmptyBoard | src/domain/state.ts:11 | every cell is empty |
| InitialState.InitialBoardLayout | src/domain/state.ts:10-46 | every cell of the starting board holds what the layout prescribes: king on the throne, defenders in the cross, attackers in the four T-shapes |
| InitialState.CensusRows | src/domain/state.ts:10-46 | a piece's count on the board is the sum of its row counts |
| InitialState.InitialCounts | src/domain/state.ts:10-46 | the starting board has 16 attackers, 8 defenders and one king |
| InitialState.InitialKing | src/domain/state.ts:14 | the king starts on the throne |
| InitialState.PutCross | src/domain/state.ts:14-22 | the writes put the king and the eight defenders in place |
| InitialState.PutTopBottom | src/domain/state.ts:25-33 | the writes put the top and bottom attackers in place |
| InitialState.PutLeftRight | src/domain/state.ts:35-43 | the writes put the left and right attackers in place |
| InitialState.MakeInitialBoard | src/domain/state.ts:10-46 | the array-filling method builds the starting board |
| InitialState.CreateInitialState | src/domain/state.ts:48-77 | a new game: version 0, in progress, attackers to move, bot on the other side, default difficulty 4, starting board, empty history, the start position counted once, fresh legal moves |
| Bot.EvaluateState | src/game/bot.ts:4-28 | a win for the bot scores 1 000 000, a loss −1 000 000; otherwise the weighted material/king score from the bot's point of view, strictly between them |
| Bot.EvaluateZeroSum | src/game/bot.ts:26-27 | the attacker's and the defender's evaluations are opposite |
| Bot.WinDominates | src/game/bot.ts:5-8 | a won position scores above every undecided one, for the winner, and below it for the loser |
| Bot.RawScoreBound | src/game/bot.ts:10-26 | the material/king score of any board stays strictly inside ±1 000 000 |
| Bot.Heuristic | src/game/bot.ts:101-104 | a move is worth at least 100 per previewed capture |
| Bot.CapturesRankFirst | src/game/bot.ts:101-104 | a move previewing more captures always ranks above one previewing fewer |
| Bot.Insert | src/game/bot.ts:110 | insertion adds exactly the one move |
| Bot.InsertDescending | src/game/bot.ts:110 | inserting into a descending list keeps it descending |
| Bot.SortByHeuristic | src/game/bot.ts:110 | the result is a permutation of the moves in descending heuristic order |
| Bot.ShortlistShape | src/game/bot.ts:106-113 | up to 20 moves are kept as they are; beyond that the best 18 (depth 4 or more) or 24 are kept, descending, a sub-multiset of the moves |
| Bot.ShortlistKeepsBest | src/game/bot.ts:108-112 | every move dropped by the cut ranks no higher than any kept move |
| Bot.SelectCandidateMoves | src/game/bot.ts:106-113 | candidates are legal moves of that side |
| Bot.CandidatesReached | src/game/bot.ts:44-45 | every candidate applies without error and without a repetition refusal |
| Bot.SearchLeaves | src/game/bot.ts:31-39 | at the horizon, on a finished game and without candidates, the search returns the static evaluation |
| Bot.TablutEvalInRange | src/game/bot.ts:4-28 | the evaluation never leaves the range of the two sentinels |
| Bot.AlphaBetaInRange | src/game/bot.ts:30-64 | when every evaluation lies between the sentinels, so does every search value, whatever the window |
| Bot.ScanInRange | src/game/bot.ts:41-63 | the same bound for a node's loop that starts from a best score in range |
| Bot.FullMinimaxInRange | src/game/bot.ts:30-64 | the plain minimax value lies between the sentinels too |
| Bot.ScanMonotone | src/game/bot.ts:47-59 | the running best only improves in the player's direction |
| Bot.AlphaBetaClamp | src/game/bot.ts:30-64 | within the window [alpha, beta] alpha-beta agrees with plain minimax |
| Bot.ScanClamp | src/game/bot.ts:41-63 | the same window agreement for the sibling scan with cut-offs |
| Bot.AlphaBetaIsMinimax | src/game/bot.ts:30-64 | with the full window, alpha-beta returns the plain minimax value (FullMinimax) |
| Bot.AlphaBeta | src/game/bot.ts:30-64 | reference definition, no contract of its own: the fail-soft alpha-beta search over a game tree; SearchLeaves, AlphaBetaInRange, AlphaBetaClamp and AlphaBetaIsMinimax are about it |
| Bot.Scan | src/game/bot.ts:41-63 | reference definition, no contract of its own: one node's loop over its children with window narrowing and cut-off; ScanInRange, ScanMonotone and ScanClamp are about it |
| Bot.FullMinimax | src/game/bot.ts:30-64 | reference definition, no contract of its own: plain minimax over the same tree without a window, the independent value AlphaBetaIsMinimax and PickedMoveOptimal compare the search with |
| Bot.Minimax | src/game/bot.ts:30-64 | the looping search with break computes AlphaBeta on the Tablut tree |
| Bot.SearchNode | src/game/bot.ts:35-63 | a node in progress with candidates scans the states they reach, from −∞ maximizing when the bot is to move and from +∞ minimizing otherwise |
| Bot.ScanMoves | src/game/bot.ts:41-63 | the candidate loop with skip, window narrowing and break computes Scan |
| Bot.ReachBy | src/game/bot.ts:44-45 | the unchecked application yields the state reached, or nothing for a rejected move |
| Bot.NarrowWindow | src/game/bot.ts:47-60 | the maximizer raises the best score and alpha to the child's score; the minimizer lowers the best score and beta |
| Bot.ScanSkip | src/game/bot.ts:45 | a move refused for repetition leaves the node's value unchanged |
| Bot.ScanTake | src/game/bot.ts:46-49 | after a child's score, a closed window makes the running best the node's value; otherwise the loop goes on with the narrowed window |
| Bot.CandidateMoves | src/game/bot.ts:106-113 | generate-then-shortlist computes SelectCandidateMoves |
| Bot.Scored | src/game/bot.ts:79-82 | a candidate gets a score exactly when it can be played, and the score lies between the sentinels |
| Bot.Absorb | src/game/bot.ts:84-90 | a higher score restarts the best list with the move; an equal one appends it; a lower one changes nothing |
| Bot.RankBound | src/game/bot.ts:75-91 | the best score is at least every candidate's score |
| Bot.RankFrom | src/game/bot.ts:75-91 | every best move is one of the candidates |
| Bot.RankTied | src/game/bot.ts:75-91 | every best move scores exactly the best score |
| Bot.RankNonEmpty | src/game/bot.ts:78-95 | if some candidate can be played, the best list is not empty |
| Bot.PickedMove | src/game/bot.ts:66-99 | a chosen move is one of the candidates |
| Bot.PickedMoveErrors | src/game/bot.ts:67-95 | bot_not_on_turn exactly when the bot is not to move; bot_no_legal_moves exactly when it is but has no candidates |
| Bot.PickedAmongBest | src/game/bot.ts:84-98 | the chosen move is a candidate scoring the best score |
| Bot.RootScoresPresent | src/game/bot.ts:78-82 | every candidate is scored, between the sentinels, by a full-window search of the state it reaches |
| Bot.PickedMoveOptimal | src/game/bot.ts:66-99 | the chosen move's minimax value is at least every other candidate's |
| Bot.CandidateNoBetter | src/game/bot.ts:78-98 | no single candidate has a higher minimax value than the chosen move |
| Bot.Rank | src/game/bot.ts:75-91 | reference definition, no contract of its own: the root loop over scored candidates, with Absorb as its step; RankBound, RankFrom, RankTied and RankNonEmpty are about it |
| Bot.RankMoves | src/game/bot.ts:75-91 | the root loop computes Rank over the candidates' scores |
| Bot.PickBotMoveAlphaBeta | src/game/bot.ts:66-99 | the ranking loop with index tie-break computes PickedMove |
| Engine.BumpVersion | src/game/engine.ts:15-18 | the version goes up by one and nothing else changes |
| Engine.BumpKeepsFresh | src/game/engine.ts:15-18 | bumping the version keeps cached legal moves fresh |
| Engine.PassTurnSpec | src/game/engine.ts:66-82 | a pass keeps the board, gives the turn to the human, counts the new position once more, regenerates legal moves and bumps the version |
| Engine.BotTurnIdle | src/game/engine.ts:63-64 | over, or not the bot's turn: the state is returned unchanged with no effects |
| Engine.BotTurnPasses | src/game/engine.ts:66-82 | without legal moves the bot passes, with exactly one note |
| Engine.ListedMoveCommits | src/game/engine.ts:84-85 | a listed move of the side to move commits when legal moves are fresh |
| Engine.BotTurnMoves | src/game/engine.ts:62-101 | with fresh legal moves the bot turn never fails; it keeps moves fresh; it emits at most one event and one note; a real move is a listed move, committed and version-bumped |
| Engine.HumanMoveGuards | src/game/engine.ts:29-32 | game_over, then invalid_turn, and otherwise the result is exactly the commit's |
| Engine.HumanMoveFresh | src/game/engine.ts:32-50 | a legal human move, and the bot's reply after it, leave the legal moves fresh |
| Engine.HumanMoveEffects | src/game/engine.ts:32-52 | one or two move events, the first being the human's with the commit's captured cells; the final state is the bot's reply state when the bot is to move, else the committed one |
| Engine.ChangeDifficultySpec | src/game/engine.ts:55-60 | refused exactly when the game is over; otherwise only difficulty and version change, and fresh legal moves stay fresh |
| Engine.BotTurnNoNewKing | src/game/engine.ts:62-101 | the bot's turn never adds a king |
| Engine.HumanMoveNoNewKing | src/game/engine.ts:24-53 | a human move with the bot's reply never adds a king |
| Engine.PassTurn | src/game/engine.ts:68-77 | reference definition, no contract of its own: the pass fallback; PassTurnSpec is about it |
| Engine.PassBy | src/game/engine.ts:68-77 | the pass-turn steps compute PassTurn |
| Engine.BotTurn | src/game/engine.ts:62-101 | reference definition, no contract of its own: idle, pass or one committed bot move; BotTurnIdle, BotTurnPasses, BotTurnMoves and BotTurnNoNewKing are about it |
| Engine.RunBotTurn | src/game/engine.ts:62-101 | the bot turn computes BotTurn |
| Engine.HumanMove | src/game/engine.ts:24-53 | reference definition, no contract of its own: the guarded human move followed by the bot's reply; HumanMoveGuards, HumanMoveFresh, HumanMoveEffects and HumanMoveNoNewKing are about it |
| Engine.OnHumanMove | src/game/engine.ts:24-53 | the human move handler computes HumanMove |
| Engine.ChangeDifficulty | src/game/engine.ts:55-60 | reference definition, no contract of its own: refused on a finished game, otherwise the new difficulty and a version bump; ChangeDifficultySpec is about it |
| Engine.OnChangeDifficulty | src/game/engine.ts:55-60 | the difficulty handler computes ChangeDifficulty |

## Left out

- **Transport, persistence and wiring.** The Socket.IO transport, the store with its optimistic version checks, the schemas and the time-to-live are collaborators, not part of this model.
- **Bot.PickBotMoveAlphaBeta: the random tie-break.** `Math.floor(Math.random() * bestMoves.length)` becomes a caller-supplied `choice`, taken modulo the number of tied moves. The model does not state that the choice is uniform.
- **Rules.ApplyUnchecked: coordinates.** Coordinates are required to be on the board. The request schema only admits rows and columns 0..8, so off-board input never reaches the rules.
- **Bot.Minimax: candidates that cannot be played.** Such a candidate is skipped. In the source, an unplayable candidate would throw instead. `Bot.CandidatesReached` proves that every candidate is playable, so this branch is never taken.
- **Bot.SortByHeuristic: stability.** The sort is an insertion sort that keeps equal moves in their original order. This is also what `Array.prototype.sort` guarantees, but stability is not stated as a lemma. Only descending order and permutation are proved.
- **Mutation and aliasing.**
  - `bumpVersion` and `onChangeDifficulty` mutate the state passed to them.
  - `applyMove` pushes to the history of the state it has just cloned.
  - The model returns new values instead, so it does not capture aliasing of the caller's object.
- **Number width.** Scores, counts and versions are JavaScript doubles. Every value involved is a small integer, well below 2^53, so unbounded integers behave the same.
- **Engine.BotTurn: the note's wording.** The note text is modelled as a string built the same way. The model does not check its wording or localisation.
- **Search performance.** Time and node counts of the search are not modelled.
