# Othello position evaluator, modelled in Dafny

This project models `ML_player.py`, a static evaluator for 8x8 Othello (Reversi)
positions. A board is a list of eight rows of eight integers: `0` for an empty
square, `-1` for a black disc and `1` for a white disc. The evaluator combines:

- the disc difference between the two sides;
- the mobility difference, that is, the difference in the number of legal moves;
- the corner difference;
- weighted positional tables.

The second evaluator (`Evaluate_Cost_r1`) also chooses its weights by game phase.
It splits the positional term using a *stability map*. That map comes from a flood
fill that starts at each occupied corner and marks runs of discs of the corner's
colour.

The Dafny modules follow the structure of the program:

| file | module | what it models |
|---|---|---|
| `othello.dfy` | `Othello` | Cell values, 8x8 grids, directions, corners, `get_opponent` and `count_discs` (`list.count`). Also the colour exchange `Swap` used by the symmetry lemmas. |
| `moves.dfy` | `Moves` | `get_valid_moves`: the nested scan with its direction sweep, as a method proved equal to the specification `ValidMoves` |
| `stability.dfy` | `Stability` | `mark_stable_from_corner` and `calculate_stability`, as methods on an `array2<bool>` updated in place. `Walk`, `ScanDirs` and `Drain` are the functional reading of the three nested loops (walk, directions, FIFO queue), and the methods are proved to produce the grid these functions describe. |
| `scoring.dfy` | `Scoring` | `positional_score`, `positional_score_Stable`, `positional_score_Unstable` and `count_corners`, as accumulator loops proved equal to row-major sums |
| `phases.dfy` | `Phases` | `get_game_phase` |
| `evaluation.dfy` | `Evaluation` | `Evaluate_Cost` and `Evaluate_Cost_r1`, as functions of the specification values. Methods that call the imperative procedures, as the source does, are proved to return the same values. |

The mapping from turn to sides is reproduced exactly as the code writes it:

- the evaluated side is BLACK when `turn == -1` and WHITE otherwise;
- the opposing side is WHITE when `turn == 1` and BLACK otherwise.

So turn `-1` does not set BLACK against WHITE: for turn `-1` both sides are BLACK,
and for turn `1` both are WHITE. In both cases the disc, mobility and corner terms
vanish. Only other turn values pit WHITE against BLACK (`ML_player.py:171-172`,
`ML_player.py:212-213`).

The stability fill runs once per occupied corner, in the order (0,0), (0,7), (7,0),
(7,7). Each run has its own queue, uses the colour of its own corner and stops at
cells already marked (`ML_player.py:92-95`). Within one run, a cell popped from the
queue walks all eight directions, so the marked cells of a run form a chain of
8-neighbours from the corner, not straight lines from it.

Besides what each operation promises, the model proves two symmetries:

- exchanging the colours of all discs negates both evaluations for every turn;
- the evaluations for turn `1` and turn `-1` are opposite.

## Model

| member | source | states |
|---|---|---|
| Othello.Opponent | ML_player.py:14-15 | The result is BLACK or WHITE and differs from the argument. BLACK and WHITE map to each other; every other value maps to WHITE. |
| Othello.Directions | ML_player.py:7-9 | The eight directions, as a definition, in the order the scans visit them. DirectionsAreUnits states that they are exactly eight unit steps. |
| Othello.Corners | ML_player.py:17 | The four corners (0,0), (0,7), (7,0) and (7,7), in this order, as a definition. The stability loop at line 92 uses the same list. Corner states that each is a square on the board's edge rows and columns. |
| Othello.Occurrences | ML_player.py:49-50 | `list.count`: the count is at most the length, and zero exactly when the value is absent |
| Othello.CountDiscs | ML_player.py:49-50 | The number of cells holding a value is at most 64 |
| Othello.DiscsPartition | ML_player.py:49-50 | On a board of the three cell values, the black, white and empty counts add up to 64 |
| Othello.CountDiscsSwap | ML_player.py:49-50 | Exchanging the colours exchanges the black and white counts and keeps the empty count |
| Othello.GridOccurrencesUpdate | ML_player.py:108-111 | Setting one unmarked cell to True lowers the number of unmarked cells by exactly one: the termination measure of the fill |
| Moves.Flanks | ML_player.py:61-70 | The flank rule as a definition: along the direction, one or more opponent discs on the board, followed by a disc of the player. RunDecides proves that the sweep decides it. |
| Moves.IsValidMove | ML_player.py:58-72 | The legality rule as a definition: the cell is empty and some direction flanks. ValidMoveTouchesOpponent and ValidMovesCharacterised state its consequences. |
| Moves.FlankingNeighbour | ML_player.py:61-70 | A flanking direction starts with an opponent disc on the neighbouring cell |
| Moves.ValidMoveTouchesOpponent | ML_player.py:58-72 | A legal move is next to an opponent disc |
| Moves.ValidMoves | ML_player.py:52-74 | The legal moves in row-major order, as a definition. GetValidMoves computes it; ValidMovesCharacterised, ValidMovesDistinct and ValidMovesBounded state its properties. |
| Moves.GetValidMoves | ML_player.py:52-74 | The nested scan returns exactly `ValidMoves`, the legal moves in row-major order |
| Moves.RunDecides | ML_player.py:64-71 | Once the sweep over opponent discs stops, the direction flanks exactly when at least one disc was crossed and the sweep stopped on the player's own disc |
| Moves.RowMovesSpec | ML_player.py:57-72 | A row contributes exactly its legal moves, in column order, and no more of them than it has empty cells |
| Moves.MovesBeforeMembers | ML_player.py:56-72 | The first r rows contribute exactly their legal moves |
| Moves.MovesBeforeOrdered | ML_player.py:56-72 | The moves are listed in strictly increasing row-major order |
| Moves.MovesBeforeBound | ML_player.py:56-72 | The first r rows hold no more moves than empty cells |
| Moves.ValidMovesCharacterised | ML_player.py:56-72 | A cell is listed exactly when it is empty and some direction has a run of one or more opponent discs, in bounds, ending on a disc of the player; every listed cell is empty |
| Moves.ValidMovesDistinct | ML_player.py:70-72 | No cell is listed twice (the scan breaks after the first flanking direction) |
| Moves.ValidMovesBounded | ML_player.py:56-74 | A player has no more legal moves than there are empty squares |
| Moves.FullBoardHasNoMoves | ML_player.py:56-74 | On a board with no empty square the move list is empty |
| Moves.IsValidMoveSwap | ML_player.py:61-72 | A cell is legal for BLACK exactly when it is legal for WHITE on the board with the colours exchanged, and the other way round |
| Moves.ValidMovesSwap | ML_player.py:52-74 | Exchanging the colours exchanges the two players' move lists |
| Stability.Mark | ML_player.py:111 | Marking sets exactly the one cell and leaves all others unchanged; the same update marks the seed at line 102 |
| Stability.MarkShrinks | ML_player.py:107-111 | Marking an unmarked cell leaves one unmarked cell fewer |
| Stability.Walk | ML_player.py:106-114 | The walk along one direction, as a function terminating on the number of unmarked cells. It yields an 8x8 grid; WalkCount, WalkEnqueues and WalkKeepsMarks state what it does. |
| Stability.ScanDirs | ML_player.py:105-114 | The walks in the eight directions from one popped cell; yields an 8x8 grid |
| Stability.Drain | ML_player.py:103-114 | The FIFO loop (pop the first cell, scan, repeat), terminating on (unmarked cells, queue length); yields an 8x8 grid |
| Stability.WalkCount | ML_player.py:106-114 | The queue grows by exactly the drop in unmarked cells, so at most 64 cells plus the seed are ever enqueued |
| Stability.WalkEnqueues | ML_player.py:106-114 | A walk keeps the queue it was given as a prefix. Every cell it appends is on the board, was unmarked before, is marked after and holds the fill's colour. |
| Stability.ScanDirsCount | ML_player.py:105-114 | The same accounting for the eight walks from one cell |
| Stability.WalkKeepsMarks | ML_player.py:106-114 | A walk never unmarks a cell and marks only cells of the fill's colour |
| Stability.ScanDirsKeepsMarks | ML_player.py:105-114 | The same for the eight walks from one cell |
| Stability.DrainKeepsMarks | ML_player.py:103-114 | The same for the whole queue loop |
| Stability.MarkFromCorner | ML_player.py:99-114 | mark_stable_from_corner on a functional grid: mark the corner, then drain the queue seeded with it; yields an 8x8 grid |
| Stability.MarkFromCornerSpec | ML_player.py:99-114 | The fill marks its seed, keeps every earlier mark, and marks only cells with the seed's colour |
| Stability.StableAfter | ML_player.py:92-95 | The map after the first n corners, skipping empty ones |
| Stability.StableAfterMarksCorners | ML_player.py:92-95 | After n corners, every occupied one among them is marked |
| Stability.StableAfterColours | ML_player.py:92-95 | After n corners, a marked cell has the colour of an occupied one among them |
| Stability.StabilityMap | ML_player.py:87-97 | calculate_stability as a function: the map after all four corners, an 8x8 grid |
| Stability.StabilityMapSpec | ML_player.py:87-114 | Every occupied corner is marked, and no empty cell is marked. Every marked cell has the value of an occupied corner. With all four corners empty the map is all False. |
| Stability.JoinedStep | ML_player.py:106-112 | A chain of same-colour 8-neighbours from the seed extends to any neighbour of its end that holds the colour |
| Stability.FillJoinedMark | ML_player.py:111-112 | Marking and enqueueing a cell joined to the seed keeps every new mark and every queue entry joined to it |
| Stability.WalkJoined | ML_player.py:107-114 | A walk starting next to a joined cell marks and enqueues only cells joined to the seed: each is the neighbour of the cell before it |
| Stability.ScanDirsJoined | ML_player.py:105-114 | The same for the eight walks from a popped cell that is joined to the seed |
| Stability.DrainJoined | ML_player.py:104-114 | If every new mark and queued cell is joined to the seed, every cell the queue loop marks is joined to it |
| Stability.MarkFromCornerJoined | ML_player.py:99-114 | Every cell a fill marks is reached from its seed by a chain of 8-neighbours holding the seed's colour |
| Stability.StableAfterJoined | ML_player.py:92-95 | After n corners, a marked cell is reached from an occupied corner among them by a chain of 8-neighbours of that corner's colour |
| Stability.StabilityMapChains | ML_player.py:87-114 | Every marked cell of the stability map is reached from an occupied corner by a chain of 8-neighbours that all hold the corner's colour |
| Stability.WalkSwap | ML_player.py:106-114 | Exchanging the colours (and the fill colour) leaves a walk unchanged |
| Stability.ScanDirsSwap | ML_player.py:105-114 | The same for the eight walks from one cell |
| Stability.DrainSwap | ML_player.py:103-114 | The same for the queue loop |
| Stability.StableAfterSwap | ML_player.py:92-95 | The same for the corner loop |
| Stability.StabilityMapSwap | ML_player.py:87-97 | The stability map does not depend on which colour is which |
| Stability.MarkRun | ML_player.py:106-114 | The inner while loop, on the array in place, yields exactly the grid and queue of `Walk` |
| Stability.MarkAround | ML_player.py:105-114 | The loop over the eight directions, on the array, yields exactly the grid and queue of `ScanDirs` |
| Stability.MarkStableFromCorner | ML_player.py:99-114 | The array afterwards holds `MarkFromCorner` of the grid it held before. The ghost count of cells enqueued after the seed, plus the cells left unmarked, never exceeds the unmarked cells before. |
| Stability.CalculateStability | ML_player.py:87-97 | Allocates a fresh all-False 8x8 array and runs the fill from each occupied corner; the array holds `StabilityMap` |
| Scoring.Contribution | ML_player.py:42-45 | A cell adds the weight, its negation or 0; an empty cell adds 0 for a player that is not EMPTY |
| Scoring.PositionWeights | ML_player.py:28-37 | The positional table, entry for entry, as a definition. TablesAreGrids and PositionTableBound state its properties. |
| Scoring.StableWeights | ML_player.py:119-128 | The stable table, entry for entry, as a definition. TablesAreGrids and StableTableBound state its properties. |
| Scoring.UnstableWeights | ML_player.py:145-154 | The unstable scorer's own copy of the table, as a definition. UnstableTableIsPositional proves that it equals the positional table. |
| Scoring.PositionalValue | ML_player.py:26-47 | positional_score as a value: the row-major sum of contributions under the positional table, as a definition. PositionalScore computes it. ScoresAntisymmetric, ScoresBounded and ScoresColourSwap state its properties. |
| Scoring.StableValue | ML_player.py:117-141 | positional_score_Stable as a value: the sum over marked cells under the stable table, as a definition. PositionalScoreStable computes it. ScoresAntisymmetric, NothingMarkedScores, ScoresBounded and ScoresColourSwap state its properties. |
| Scoring.UnstableValue | ML_player.py:143-165 | positional_score_Unstable as a value: the sum over unmarked cells under the unstable table, as a definition. PositionalScoreUnstable computes it. UnstablePlusMarkedIsPositional, NothingMarkedScores, ScoresAntisymmetric, ScoresBounded and ScoresColourSwap state its properties. |
| Scoring.PositionalScore | ML_player.py:26-47 | The accumulator loop returns `PositionalValue`, the row-major sum of contributions under the positional table |
| Scoring.PositionalScoreStable | ML_player.py:117-141 | The loop that skips unmarked cells returns `StableValue`, the sum over marked cells under the stable table |
| Scoring.PositionalScoreUnstable | ML_player.py:143-165 | The loop that scores only unmarked cells returns `UnstableValue`, the sum over unmarked cells under the unstable table |
| Scoring.TablesAreGrids | ML_player.py:28-37 | The three tables are 8x8 |
| Scoring.UnstableTableIsPositional | ML_player.py:145-154 | The table of the unstable scorer is the positional table, entry for entry |
| Scoring.RowSumNegates | ML_player.py:39-47 | Scoring a row for WHITE gives the negation of scoring it for BLACK |
| Scoring.TableSumNegates | ML_player.py:39-47 | The same for the whole table |
| Scoring.ScoresAntisymmetric | ML_player.py:39-47 | positional_score(WHITE) is minus positional_score(BLACK). The stable and unstable scores are antisymmetric too, for any map. |
| Scoring.RowSumSplit | ML_player.py:132-139 | In a row, the marked cells and the unmarked cells together make up all cells |
| Scoring.TableSumSplit | ML_player.py:132-139 | The same for the whole table |
| Scoring.UnstablePlusMarkedIsPositional | ML_player.py:143-165 | The unstable score plus the marked cells weighted by the same table is the positional score |
| Scoring.NothingMarkedRow | ML_player.py:132-135 | With nothing marked, a row's stable-only sum is 0 |
| Scoring.NothingMarkedRows | ML_player.py:132-135 | With nothing marked, the stable-only sum of any table is 0 |
| Scoring.NothingMarkedScores | ML_player.py:117-165 | With an all-False map the unstable score equals the positional score and the stable score is 0 |
| Scoring.RowSumColourSwap | ML_player.py:39-47 | Exchanging the colours of the discs and of the player leaves a row sum unchanged |
| Scoring.TableSumColourSwap | ML_player.py:39-47 | The same for the whole table |
| Scoring.ScoresColourSwap | ML_player.py:26-165 | On the board with the colours exchanged, each score of a player is negated |
| Scoring.CornerValues | ML_player.py:17 | The four corner values in the order the loop visits them |
| Scoring.CornerCount | ML_player.py:16-24 | The number of corners holding p is at most 4, and 0 exactly when no corner holds p |
| Scoring.CountCorners | ML_player.py:16-24 | The loop over the four corners returns `CornerCount` |
| Scoring.CornersPartition | ML_player.py:16-24 | On a board of the three cell values, the black, white and empty corner counts add up to 4 |
| Scoring.CornerCountSwap | ML_player.py:16-24 | Exchanging the colours exchanges the corner counts |
| Scoring.CornerOwnersHaveStableDiscs | ML_player.py:92-95 | A player that holds a corner has a marked disc of their own in the stability map |
| Scoring.RowSumBounded | ML_player.py:39-47 | A row's score is at most the sum of the magnitudes of its weights |
| Scoring.TableSumBounded | ML_player.py:39-47 | The same for the whole table |
| Scoring.RowMagnitudeFull | ML_player.py:28-37 | A row's magnitude is the sum of its eight weights' magnitudes |
| Scoring.RowMagnitudeIs | ML_player.py:28-37 | A row whose eight weight magnitudes add up to v has magnitude v |
| Scoring.PositionTableBound | ML_player.py:28-37 | Any selection of the positional table's contributions, under any filter and map, lies in [-944, 944]. The proof adds up the row magnitudes. |
| Scoring.StableTableBound | ML_player.py:119-128 | Any selection of the stable table's contributions, under any filter and map, lies in [-3560, 3560]. The proof adds up the row magnitudes. |
| Scoring.PositionalBounded | ML_player.py:26-47 | The positional score lies in [-944, 944] |
| Scoring.UnstableBounded | ML_player.py:143-165 | The unstable score lies in [-944, 944] |
| Scoring.StableBounded | ML_player.py:117-141 | The stable score lies in [-3560, 3560] |
| Scoring.ScoresBounded | ML_player.py:238 | The positional and unstable scores lie in [-944, 944], inside the documented range of -1200 to +1200. The stable score lies in [-3560, 3560]. |
| Phases.PhaseOf | ML_player.py:80-85 | Each phase as an if-and-only-if on the number of empty squares: opening from 45, midgame from 21 to 44, endgame up to 20 |
| Phases.GamePhase | ML_player.py:76-85 | Opening when more than 44 squares are empty, midgame for 21 to 44, endgame for 20 or fewer (each as an if-and-only-if) |
| Phases.PhaseBoundaries | ML_player.py:80-85 | 45 empty squares is the opening, 44 and 21 the midgame, 20 the endgame |
| Phases.PhaseMonotone | ML_player.py:80-85 | Fewer empty squares never give an earlier phase |
| Phases.PhaseByDiscsPlayed | ML_player.py:76-85 | On a board of the three cell values: the opening lasts while fewer than 20 discs are down, the midgame while 20 to 43 are, and the endgame from 44 |
| Phases.GamePhaseSwap | ML_player.py:76-85 | Exchanging the colours keeps the phase |
| Evaluation.MyPlayer | ML_player.py:171 | The evaluated side is BLACK exactly when turn is -1, and WHITE otherwise |
| Evaluation.OpPlayer | ML_player.py:172 | The opposing side is WHITE exactly when turn is 1, and BLACK otherwise |
| Evaluation.TurnSides | ML_player.py:171-172 | The two sides coincide exactly when turn is -1 or 1. For any other turn they are WHITE and its opponent. |
| Evaluation.PhaseWeights | ML_player.py:244-261 | The stable weight is 100 in every phase |
| Evaluation.BasicWeights | ML_player.py:193-196 | The weights of Evaluate_Cost: 10 for discs, 78 for mobility, 800 for corners, 100 for position, and no stable term. CostValue states the score they give for turns -1 and 1. |
| Evaluation.Combine | ML_player.py:199-204 | The weighted sum of the five terms, as a definition; CombineNegated states its linearity |
| Evaluation.CombineNegated | ML_player.py:199-204 | The weighted sum is linear: negating every term negates the score |
| Evaluation.SideTerms | ML_player.py:175-187 | When both sides are the same player, the disc, mobility and corner differences are 0 |
| Evaluation.CountTerms | ML_player.py:171-187 | For turn -1 and 1, the disc, mobility and corner terms are 0 |
| Evaluation.CountTermsBounded | ML_player.py:222-234 | The disc difference lies in [-64, 64] and the corner difference in [-4, 4], as documented. The mobility difference is bounded by the number of empty squares. |
| Evaluation.LeadsSwap | ML_player.py:175-187 | Exchanging the colours negates WHITE's lead over BLACK in discs, legal moves and corners |
| Evaluation.OpposedTermsSwap | ML_player.py:175-187 | Exchanging the colours negates the terms of WHITE against BLACK |
| Evaluation.CountTermsSwap | ML_player.py:171-187 | Exchanging the colours negates the counting terms for every turn |
| Evaluation.BasicTerms | ML_player.py:170-196 | The terms of Evaluate_Cost, as a definition: the counting terms of the turn's sides and the evaluated side's positional score. BasicTermsSwap and CostValue state their properties. |
| Evaluation.R1Terms | ML_player.py:211-241 | The terms of Evaluate_Cost_r1, as a definition: the counting terms and the unstable and stable scores over the stability map. R1TermsSwap and CostR1Value state their properties. |
| Evaluation.CostValue | ML_player.py:170-206 | For turn -1 or 1, Evaluate_Cost is 100 times the positional score of the evaluated side |
| Evaluation.CostR1Value | ML_player.py:211-272 | For turn -1 or 1, Evaluate_Cost_r1 is the phase's position weight times the unstable score, plus 100 times the stable score, over the stability map |
| Evaluation.EvaluateCost | ML_player.py:170-206 | Running the move scan, the corner loop and the scorer returns `CostValue` |
| Evaluation.EvaluateCostR1 | ML_player.py:211-272 | Running the stability fill on an array and the scorers on it returns `CostR1Value` |
| Evaluation.CostOppositeTurns | ML_player.py:170-272 | Turn 1 and turn -1 give opposite scores, for both evaluators |
| Evaluation.BasicTermsSwap | ML_player.py:170-196 | Exchanging the colours negates every term of Evaluate_Cost |
| Evaluation.R1TermsSwap | ML_player.py:211-241 | Exchanging the colours negates every term of Evaluate_Cost_r1 |
| Evaluation.CostColourSwap | ML_player.py:170-272 | Exchanging the colours of all discs negates both evaluations, for every turn |
| Evaluation.CostR1WithoutCorners | ML_player.py:211-272 | With all corners empty, Evaluate_Cost_r1 is the phase-weighted disc, mobility and plain positional terms |

## Left out

- The `numpy` import only appears in type hints. Boards are modelled as lists of lists, as `count_discs` treats them.
- The board is required to be 8x8 (`IsGrid`), because the code indexes rows and columns 0..7. Cell values are not restricted: any integer is accepted, and values other than -1, 0 and 1 are handled as the code handles them.
- The model proves no claim that marked discs cannot be flipped. The fill is modelled as the same-colour, corner-anchored flood fill the code performs.
- The model does not claim that the stability map is independent of queue order. The FIFO order of `pop(0)` is modelled as written.
- Stability.StabilityMapSpec: states which corners are marked and which colours the marked cells hold. The chain property, that each marked cell is reached from an occupied corner through 8-neighbours of its colour, is stated by StabilityMapChains. The model does not claim that marked cells lie on straight lines from a corner; the code does not do that, since a popped cell walks all eight directions.
- Stability.MarkStableFromCorner: its loop body is split into MarkRun and MarkAround. The loop over directions and the inner walk run in those two methods; nothing else changes.
- Stability.MarkStableFromCorner: the number of cells enqueued is returned as a ghost value. The queue itself is a local sequence, as in the code.
- Stability.CalculateStability: returns an `array2<bool>` rather than a list of lists. The scorers read it through the same array.
- Evaluation.CostValue: its own contract states the result for turn -1 and 1 only. For other turns, the value is given by its definition (WHITE against BLACK); CostColourSwap is the only lemma that states a property of it for those turns. EvaluateCost proves that the procedures compute it for every turn.
- Evaluation.CostR1Value: its own contract states the result for turn -1 and 1 only. For other turns, CostColourSwap states a property of it, and so does CostR1WithoutCorners on boards whose four corners are empty. EvaluateCostR1 proves that the procedures compute it for every turn.
- There is no search driver, game loop or weight training to model. The evaluators are deterministic by construction, since they are functions.
