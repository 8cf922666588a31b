/** The two evaluators: linear combinations of the disc difference, the mobility
    difference, the corner difference and the positional scores, the second with
    weights chosen by game phase and with the stability map. */
module Evaluation {
  import opened Othello
  import opened Moves
  import opened Stability
  import opened Scoring
  import opened Phases

  /** The side being evaluated: BLACK for turn -1, WHITE for every other turn. */
  function MyPlayer(turn: int): (p: int)
    ensures p == BLACK || p == WHITE
    ensures p == BLACK <==> turn == -1
  {
    if turn == -1 then BLACK else WHITE
  }

  /** The side evaluated against: WHITE for turn 1, BLACK for every other turn. */
  function OpPlayer(turn: int): (p: int)
    ensures p == BLACK || p == WHITE
    ensures p == WHITE <==> turn == 1
  {
    if turn == 1 then WHITE else BLACK
  }

  /** For turn -1 and turn 1 both sides are the same player; only for other turn
      values are they opponents (WHITE against BLACK). */
  lemma TurnSides(turn: int)
    ensures MyPlayer(turn) == OpPlayer(turn) <==> turn == -1 || turn == 1
    ensures turn != -1 && turn != 1 ==> MyPlayer(turn) == WHITE && OpPlayer(turn) == Opponent(MyPlayer(turn))
  {
  }

  /** The five weights of an evaluator. */
  datatype Weights = Weights(disc: int, mobility: int, corner: int, position: int, stable: int)

  /** The five terms the weights multiply: differences between the two sides in
      discs, legal moves and corners, then the positional and the stable score. */
  datatype Terms = Terms(discDiff: int, mobility: int, corners: int, position: int, stable: int)

  /** The weights of Evaluate_Cost, which has no stable term. */
  const BasicWeights := Weights(10, 78, 800, 100, 0)

  /** The weights Evaluate_Cost_r1 uses in each phase. */
  function PhaseWeights(ph: Phase): (w: Weights)
    ensures w.stable == 100
  {
    match ph
    case Opening => Weights(10, 500, 801, 382, 100)
    case Midgame => Weights(10, 78, 801, 682, 100)
    case Endgame => Weights(800, 10, 1000, 10, 100)
  }

  /** The weighted sum of the terms. */
  function Combine(w: Weights, t: Terms): int {
    w.disc * t.discDiff + w.mobility * t.mobility + w.corner * t.corners +
    w.position * t.position + w.stable * t.stable
  }

  function Negated(t: Terms): Terms {
    Terms(-t.discDiff, -t.mobility, -t.corners, -t.position, -t.stable)
  }

  /** The weighted sum is linear: negating every term negates the evaluation. */
  lemma CombineNegated(w: Weights, t: Terms)
    ensures Combine(w, Negated(t)) == -Combine(w, t)
  {
  }

  /** The terms for side my against side op. */
  function SideTerms(b: Board, my: int, op: int, position: int, stable: int): (t: Terms)
    requires IsGrid(b)
    ensures t.position == position && t.stable == stable
    ensures my == op ==> t.discDiff == 0 && t.mobility == 0 && t.corners == 0
  {
    Terms(CountDiscs(b, my) - CountDiscs(b, op),
          |ValidMoves(b, my)| - |ValidMoves(b, op)|,
          CornerCount(b, my) - CornerCount(b, op),
          position, stable)
  }

  /** The first three terms, shared by both evaluators, for the sides the turn selects. */
  function CountTerms(b: Board, turn: int, position: int, stable: int): (t: Terms)
    requires IsGrid(b)
    ensures t.position == position && t.stable == stable
    ensures turn == -1 || turn == 1 ==> t.discDiff == 0 && t.mobility == 0 && t.corners == 0
  {
    SideTerms(b, MyPlayer(turn), OpPlayer(turn), position, stable)
  }

  /** The documented ranges of the counting terms: the disc difference lies in
      [-64, 64] and the corner difference in [-4, 4]. The mobility difference is
      bounded by the number of empty squares. */
  lemma CountTermsBounded(b: Board, turn: int, position: int, stable: int)
    requires IsGrid(b)
    ensures -64 <= CountTerms(b, turn, position, stable).discDiff <= 64
    ensures -4 <= CountTerms(b, turn, position, stable).corners <= 4
    ensures -(CountDiscs(b, EMPTY) as int) <= CountTerms(b, turn, position, stable).mobility <= CountDiscs(b, EMPTY)
  {
    ValidMovesBounded(b, MyPlayer(turn));
    ValidMovesBounded(b, OpPlayer(turn));
  }

  /** Exchanging the colours negates WHITE's lead over BLACK in discs, legal moves
      and corners. */
  lemma LeadsSwap(b: Board)
    requires IsGrid(b)
    ensures CountDiscs(Swap(b), WHITE) - CountDiscs(Swap(b), BLACK) == -(CountDiscs(b, WHITE) - CountDiscs(b, BLACK))
    ensures |ValidMoves(Swap(b), WHITE)| - |ValidMoves(Swap(b), BLACK)| == -(|ValidMoves(b, WHITE)| - |ValidMoves(b, BLACK)|)
    ensures CornerCount(Swap(b), WHITE) - CornerCount(Swap(b), BLACK) == -(CornerCount(b, WHITE) - CornerCount(b, BLACK))
  {
    CountDiscsSwap(b, BLACK);
    CountDiscsSwap(b, WHITE);
    ValidMovesSwap(b, BLACK);
    ValidMovesSwap(b, WHITE);
    CornerCountSwap(b, BLACK);
    CornerCountSwap(b, WHITE);
  }

  /** Exchanging the colours negates the terms of a side against itself ... */
  lemma SameSideTermsSwap(b: Board, my: int, position: int, stable: int)
    requires IsGrid(b)
    ensures SideTerms(Swap(b), my, my, -position, -stable) == Negated(SideTerms(b, my, my, position, stable))
  {
  }

  /** ... and of WHITE against BLACK ... */
  lemma OpposedTermsSwap(b: Board, position: int, stable: int)
    requires IsGrid(b)
    ensures SideTerms(Swap(b), WHITE, BLACK, -position, -stable) == Negated(SideTerms(b, WHITE, BLACK, position, stable))
  {
    LeadsSwap(b);
  }

  /** ... which are the only pairs of sides a turn selects. */
  lemma CountTermsSwap(b: Board, turn: int, position: int, stable: int)
    requires IsGrid(b)
    ensures CountTerms(Swap(b), turn, -position, -stable) == Negated(CountTerms(b, turn, position, stable))
  {
    if turn == -1 || turn == 1 {
      SameSideTermsSwap(b, MyPlayer(turn), position, stable);
    } else {
      OpposedTermsSwap(b, position, stable);
    }
  }

  /** The terms of Evaluate_Cost. */
  function BasicTerms(b: Board, turn: int): Terms
    requires IsGrid(b)
  {
    CountTerms(b, turn, PositionalValue(b, MyPlayer(turn)), 0)
  }

  /** The terms of Evaluate_Cost_r1: the unstable and the stable positional scores
      over the stability map. */
  function R1Terms(b: Board, turn: int): Terms
    requires IsGrid(b)
  {
    var stable := StabilityMap(b);
    CountTerms(b, turn, UnstableValue(b, MyPlayer(turn), stable), StableValue(b, MyPlayer(turn), stable))
  }

  /** Evaluate_Cost: disc, mobility, corner and positional terms with fixed weights. */
  function CostValue(b: Board, turn: int): (score: int)
    requires IsGrid(b)
    ensures turn == -1 || turn == 1 ==> score == 100 * PositionalValue(b, MyPlayer(turn))
  {
    Combine(BasicWeights, BasicTerms(b, turn))
  }

  /** Evaluate_Cost_r1: the weights follow the phase, the positional term only scores
      cells the stability map leaves unmarked, and the marked cells are scored by the
      stable table. */
  function CostR1Value(b: Board, turn: int): (score: int)
    requires IsGrid(b)
    ensures turn == -1 || turn == 1 ==>
      score == PhaseWeights(GamePhase(b)).position * UnstableValue(b, MyPlayer(turn), StabilityMap(b))
               + 100 * StableValue(b, MyPlayer(turn), StabilityMap(b))
  {
    Combine(PhaseWeights(GamePhase(b)), R1Terms(b, turn))
  }

  /** Evaluate_Cost, running the counting, move and scoring procedures. */
  method EvaluateCost(b: Board, turn: int) returns (score: int)
    requires IsGrid(b)
    ensures score == CostValue(b, turn)
  {
    var my := if turn == -1 then BLACK else WHITE;
    var op := if turn == 1 then WHITE else BLACK;
    var discDiff := CountDiscs(b, my) - CountDiscs(b, op);
    var myMoves := GetValidMoves(b, my);
    var oppMoves := GetValidMoves(b, op);
    var mobility := |myMoves| - |oppMoves|;
    var myCorners := CountCorners(b, my);
    var oppCorners := CountCorners(b, op);
    var cornerOccupancy := myCorners - oppCorners;
    var positionScore := PositionalScore(b, my);
    var w := BasicWeights;
    assert Terms(discDiff, mobility, cornerOccupancy, positionScore, 0) == BasicTerms(b, turn);
    score := w.disc * discDiff + w.mobility * mobility + w.corner * cornerOccupancy +
             w.position * positionScore;
  }

  /** Evaluate_Cost_r1, running the stability fill on an array and the scorers on it. */
  method EvaluateCostR1(b: Board, turn: int) returns (score: int)
    requires IsGrid(b)
    ensures score == CostR1Value(b, turn)
  {
    var my := if turn == -1 then BLACK else WHITE;
    var op := if turn == 1 then WHITE else BLACK;
    var phase := GamePhase(b);
    var stable := CalculateStability(b);
    ghost var marked := StabilityMap(b);
    var discDiff := CountDiscs(b, my) - CountDiscs(b, op);
    var myMoves := GetValidMoves(b, my);
    var oppMoves := GetValidMoves(b, op);
    var mobility := |myMoves| - |oppMoves|;
    var myCorners := CountCorners(b, my);
    var oppCorners := CountCorners(b, op);
    var cornerOccupancy := myCorners - oppCorners;
    var positionScore := PositionalScoreUnstable(b, my, stable, marked);
    var stableScore := PositionalScoreStable(b, my, stable, marked);
    var w := PhaseWeights(phase);
    assert Terms(discDiff, mobility, cornerOccupancy, positionScore, stableScore) == R1Terms(b, turn);
    score := w.disc * discDiff + w.mobility * mobility + w.corner * cornerOccupancy +
             w.position * positionScore + w.stable * stableScore;
  }

  /** Turn 1 evaluates the position for WHITE and turn -1 for BLACK, and the two
      evaluations are opposite. */
  lemma CostOppositeTurns(b: Board)
    requires IsGrid(b)
    ensures CostValue(b, 1) == -CostValue(b, -1)
    ensures CostR1Value(b, 1) == -CostR1Value(b, -1)
  {
    ScoresAntisymmetric(b, StabilityMap(b));
  }

  /** Exchanging the colours negates the terms of Evaluate_Cost ... */
  lemma BasicTermsSwap(b: Board, turn: int)
    requires IsGrid(b)
    ensures BasicTerms(Swap(b), turn) == Negated(BasicTerms(b, turn))
  {
    var my := MyPlayer(turn);
    ScoresColourSwap(b, my, Unmarked());
    CountTermsSwap(b, turn, PositionalValue(b, my), 0);
  }

  /** ... and those of Evaluate_Cost_r1. */
  lemma R1TermsSwap(b: Board, turn: int)
    requires IsGrid(b)
    ensures R1Terms(Swap(b), turn) == Negated(R1Terms(b, turn))
  {
    var my := MyPlayer(turn);
    var stable := StabilityMap(b);
    var unstableScore, stableScore := UnstableValue(b, my, stable), StableValue(b, my, stable);
    StabilityMapSwap(b);
    assert StabilityMap(Swap(b)) == stable;
    ScoresColourSwap(b, my, stable);
    assert UnstableValue(Swap(b), my, stable) == -unstableScore;
    assert StableValue(Swap(b), my, stable) == -stableScore;
    assert R1Terms(Swap(b), turn) == CountTerms(Swap(b), turn, -unstableScore, -stableScore);
    CountTermsSwap(b, turn, unstableScore, stableScore);
  }

  /** Exchanging the colours of all discs negates both evaluations, for every turn. */
  lemma CostColourSwap(b: Board, turn: int)
    requires IsGrid(b)
    ensures CostValue(Swap(b), turn) == -CostValue(b, turn)
    ensures CostR1Value(Swap(b), turn) == -CostR1Value(b, turn)
  {
    BasicTermsSwap(b, turn);
    R1TermsSwap(b, turn);
    GamePhaseSwap(b);
    CombineNegated(BasicWeights, BasicTerms(b, turn));
    CombineNegated(PhaseWeights(GamePhase(b)), R1Terms(b, turn));
  }

  /** With all four corners empty nothing is stable and no corner is held, so the
      phase-aware evaluation is the disc, mobility and plain positional terms under
      the phase's weights. */
  lemma CostR1WithoutCorners(b: Board, turn: int)
    requires IsGrid(b)
    requires forall k :: 0 <= k < 4 ==> CornerValue(b, k) == EMPTY
    ensures CostR1Value(b, turn) ==
      PhaseWeights(GamePhase(b)).disc * (CountDiscs(b, MyPlayer(turn)) - CountDiscs(b, OpPlayer(turn))) +
      PhaseWeights(GamePhase(b)).mobility * (|ValidMoves(b, MyPlayer(turn))| - |ValidMoves(b, OpPlayer(turn))|) +
      PhaseWeights(GamePhase(b)).position * PositionalValue(b, MyPlayer(turn))
  {
    StabilityMapSpec(b);
    NothingMarkedScores(b, MyPlayer(turn), StabilityMap(b));
  }
}
