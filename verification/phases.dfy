/** The game-phase classifier: the stage of the game is read off the number of
    empty squares. */
module Phases {
  import opened Othello

  datatype Phase = Opening | Midgame | Endgame

  /** The position of a phase in the course of a game. */
  function Rank(ph: Phase): nat {
    match ph
    case Opening => 0
    case Midgame => 1
    case Endgame => 2
  }

  /** The phase for a given number of empty squares. */
  function PhaseOf(emptyCount: int): (ph: Phase)
    ensures ph == Opening <==> emptyCount >= 45
    ensures ph == Midgame <==> 21 <= emptyCount <= 44
    ensures ph == Endgame <==> emptyCount <= 20
  {
    if emptyCount > 44 then Opening
    else if emptyCount > 20 then Midgame
    else Endgame
  }

  /** get_game_phase: opening above 44 empty squares, midgame from 21 to 44,
      endgame at 20 or fewer. */
  function GamePhase(b: Board): (ph: Phase)
    requires IsGrid(b)
    ensures ph == Opening <==> CountDiscs(b, EMPTY) >= 45
    ensures ph == Midgame <==> 21 <= CountDiscs(b, EMPTY) <= 44
    ensures ph == Endgame <==> CountDiscs(b, EMPTY) <= 20
  {
    PhaseOf(CountDiscs(b, EMPTY))
  }

  /** The boundaries: 45 empty squares is still the opening, 44 already the
      midgame, 21 still the midgame and 20 the endgame. */
  lemma PhaseBoundaries()
    ensures PhaseOf(45) == Opening && PhaseOf(44) == Midgame
    ensures PhaseOf(21) == Midgame && PhaseOf(20) == Endgame
  {
  }

  /** Fewer empty squares never mean an earlier phase. */
  lemma PhaseMonotone(e1: int, e2: int)
    requires e1 <= e2
    ensures Rank(PhaseOf(e2)) <= Rank(PhaseOf(e1))
  {
  }

  /** On a well-formed board the phase follows the number of discs played: the
      opening lasts while fewer than 20 discs are down, the midgame while 20 to 43
      are, and the endgame begins with the 44th disc. */
  lemma PhaseByDiscsPlayed(b: Board)
    requires IsWellFormed(b)
    ensures GamePhase(b) == Opening <==> CountDiscs(b, BLACK) + CountDiscs(b, WHITE) < 20
    ensures GamePhase(b) == Midgame <==> 20 <= CountDiscs(b, BLACK) + CountDiscs(b, WHITE) < 44
    ensures GamePhase(b) == Endgame <==> CountDiscs(b, BLACK) + CountDiscs(b, WHITE) >= 44
  {
    DiscsPartition(b);
  }

  /** Exchanging the colours of all discs keeps the phase. */
  lemma GamePhaseSwap(b: Board)
    requires IsGrid(b)
    ensures GamePhase(Swap(b)) == GamePhase(b)
  {
    CountDiscsSwap(b, EMPTY);
  }
}
