/** The move enumerator: a cell is a legal move for player p when it is empty and,
    in some direction, a run of one or more opponent discs ends on a disc of p. */
module Moves {
  import opened Othello

  /** The coordinate reached from s after k steps of d, for d in {-1, 0, 1}
      (that is, s + k * d, written without multiplication). */
  function Along(s: int, d: int, k: int): int {
    if d == 0 then s else if d > 0 then s + k else s - k
  }

  /** The n cells after (x, y) in direction d are on the board and belong to the opponent of p. */
  predicate OpponentRun(b: Board, x: int, y: int, d: Cell, n: int, p: int)
    requires IsGrid(b)
  {
    forall k :: 1 <= k <= n ==>
      InBounds(Along(x, d.0, k), Along(y, d.1, k)) && b[Along(x, d.0, k)][Along(y, d.1, k)] == Opponent(p)
  }

  /** Direction d from (x, y) crosses one or more opponent discs and then reaches a disc of p. */
  predicate Flanks(b: Board, x: int, y: int, d: Cell, p: int)
    requires IsGrid(b)
  {
    exists n :: 1 <= n < 8 && OpponentRun(b, x, y, d, n, p) &&
      InBounds(Along(x, d.0, n + 1), Along(y, d.1, n + 1)) &&
      b[Along(x, d.0, n + 1)][Along(y, d.1, n + 1)] == p
  }

  /** A flanking direction starts with an opponent disc next to (x, y). */
  lemma FlankingNeighbour(b: Board, x: int, y: int, p: int)
    requires IsGrid(b)
    ensures forall i :: 0 <= i < 8 && Flanks(b, x, y, Directions[i], p) ==>
      InBounds(x + Directions[i].0, y + Directions[i].1) &&
      b[x + Directions[i].0][y + Directions[i].1] == Opponent(p)
  {
    DirectionsAreUnits();
    forall i | 0 <= i < 8 && Flanks(b, x, y, Directions[i], p)
      ensures InBounds(x + Directions[i].0, y + Directions[i].1) &&
        b[x + Directions[i].0][y + Directions[i].1] == Opponent(p)
    {
      var d := Directions[i];
      var n :| 1 <= n < 8 && OpponentRun(b, x, y, d, n, p) &&
        InBounds(Along(x, d.0, n + 1), Along(y, d.1, n + 1)) &&
        b[Along(x, d.0, n + 1)][Along(y, d.1, n + 1)] == p;
      assert InBounds(Along(x, d.0, 1), Along(y, d.1, 1));
      assert Along(x, d.0, 1) == x + d.0 && Along(y, d.1, 1) == y + d.1;
    }
  }

  /** (x, y) is a legal move for p. */
  predicate IsValidMove(b: Board, x: int, y: int, p: int)
    requires IsGrid(b) && InBounds(x, y)
  {
    b[x][y] == EMPTY && exists i :: 0 <= i < 8 && Flanks(b, x, y, Directions[i], p)
  }

  /** A legal move is next to an opponent disc. */
  lemma ValidMoveTouchesOpponent(b: Board, x: int, y: int, p: int)
    requires IsGrid(b) && InBounds(x, y) && IsValidMove(b, x, y, p)
    ensures exists i :: 0 <= i < 8 && InBounds(x + Directions[i].0, y + Directions[i].1) &&
                        b[x + Directions[i].0][y + Directions[i].1] == Opponent(p)
  {
    FlankingNeighbour(b, x, y, p);
  }

  /** The legal moves among the first c cells of row x, left to right. */
  function RowMoves(b: Board, p: int, x: int, c: int): seq<Cell>
    requires IsGrid(b) && 0 <= x < 8 && 0 <= c <= 8
  {
    if c == 0 then []
    else RowMoves(b, p, x, c - 1) + (if IsValidMove(b, x, c - 1, p) then [(x, c - 1)] else [])
  }

  /** The legal moves among the first r rows, in row-major order. */
  function MovesBefore(b: Board, p: int, r: int): seq<Cell>
    requires IsGrid(b) && 0 <= r <= 8
  {
    if r == 0 then [] else MovesBefore(b, p, r - 1) + RowMoves(b, p, r - 1, 8)
  }

  /** All legal moves of p, in the order the board is scanned. */
  function ValidMoves(b: Board, p: int): seq<Cell>
    requires IsGrid(b)
  {
    MovesBefore(b, p, 8)
  }

  /** Row-major order of two cells. */
  predicate Precedes(a: Cell, c: Cell) {
    a.0 < c.0 || (a.0 == c.0 && a.1 < c.1)
  }

  /** Once the sweep from (x, y) along d has stopped after `steps` opponent discs,
      direction d flanks exactly when at least one disc was crossed and the sweep
      stopped on a disc of p. */
  lemma RunDecides(b: Board, x: int, y: int, d: Cell, p: int, steps: int)
    requires IsGrid(b) && InBounds(x, y) && IsUnit(d) && 0 <= steps
    requires OpponentRun(b, x, y, d, steps, p)
    requires !(InBounds(Along(x, d.0, steps + 1), Along(y, d.1, steps + 1)) &&
               b[Along(x, d.0, steps + 1)][Along(y, d.1, steps + 1)] == Opponent(p))
    ensures Flanks(b, x, y, d, p) <==>
      steps >= 1 && InBounds(Along(x, d.0, steps + 1), Along(y, d.1, steps + 1)) &&
      b[Along(x, d.0, steps + 1)][Along(y, d.1, steps + 1)] == p
  {
  }

  /** get_valid_moves: scan every empty cell and every direction, sweeping over
      opponent discs; record the cell on the first direction that flanks. */
  method GetValidMoves(b: Board, p: int) returns (moves: seq<Cell>)
    requires IsGrid(b)
    ensures moves == ValidMoves(b, p)
  {
    DirectionsAreUnits();
    var opponent := Opponent(p);
    moves := [];
    for x := 0 to 8
      invariant moves == MovesBefore(b, p, x)
    {
      for y := 0 to 8
        invariant moves == MovesBefore(b, p, x) + RowMoves(b, p, x, y)
      {
        if b[x][y] != EMPTY {
          continue;
        }
        for i := 0 to 8
          invariant moves == MovesBefore(b, p, x) + RowMoves(b, p, x, y)
          invariant forall j :: 0 <= j < i ==> !Flanks(b, x, y, Directions[j], p)
        {
          var (dx, dy) := Directions[i];
          var nx, ny := x + dx, y + dy;
          var hasOpponentBetween := false;
          ghost var steps := 0;
          while InBounds(nx, ny) && b[nx][ny] == opponent
            invariant 0 <= steps <= 7
            invariant nx == Along(x, dx, steps + 1) && ny == Along(y, dy, steps + 1)
            invariant hasOpponentBetween <==> steps > 0
            invariant OpponentRun(b, x, y, (dx, dy), steps, p)
            decreases 8 - steps
          {
            nx, ny := nx + dx, ny + dy;
            hasOpponentBetween := true;
            steps := steps + 1;
          }
          RunDecides(b, x, y, (dx, dy), p, steps);
          if hasOpponentBetween && InBounds(nx, ny) && b[nx][ny] == p {
            moves := moves + [(x, y)];
            break;
          }
        }
      }
    }
  }

  /** Row x contributes exactly its legal moves left of column c, in column order,
      and no more of them than it has empty cells there. */
  lemma {:induction false} RowMovesSpec(b: Board, p: int, x: int, c: int)
    requires IsGrid(b) && 0 <= x < 8 && 0 <= c <= 8
    ensures forall m :: m in RowMoves(b, p, x, c) <==>
      m.0 == x && 0 <= m.1 < c && IsValidMove(b, x, m.1, p)
    ensures forall k, l :: 0 <= k < l < |RowMoves(b, p, x, c)| ==>
      Precedes(RowMoves(b, p, x, c)[k], RowMoves(b, p, x, c)[l])
    ensures |RowMoves(b, p, x, c)| <= Occurrences(b[x][..c], EMPTY)
  {
    if c > 0 {
      RowMovesSpec(b, p, x, c - 1);
      assert b[x][..c][..c - 1] == b[x][..c - 1];
      var prev := RowMoves(b, p, x, c - 1);
      var all := RowMoves(b, p, x, c);
      forall k, l | 0 <= k < l < |all| ensures Precedes(all[k], all[l]) {
        if l >= |prev| {
          assert all[k] in prev;
        }
      }
      if IsValidMove(b, x, c - 1, p) {
        assert b[x][..c][c - 1] == EMPTY;
      }
    }
  }

  /** The first r rows contribute exactly their legal moves. */
  lemma {:induction false} MovesBeforeMembers(b: Board, p: int, r: int)
    requires IsGrid(b) && 0 <= r <= 8
    ensures forall m :: m in MovesBefore(b, p, r) <==>
      0 <= m.0 < r && 0 <= m.1 < 8 && IsValidMove(b, m.0, m.1, p)
  {
    if r > 0 {
      MovesBeforeMembers(b, p, r - 1);
      RowMovesSpec(b, p, r - 1, 8);
    }
  }

  /** The moves of the first r rows are listed in row-major order. */
  lemma {:induction false} MovesBeforeOrdered(b: Board, p: int, r: int)
    requires IsGrid(b) && 0 <= r <= 8
    ensures forall k, l :: 0 <= k < l < |MovesBefore(b, p, r)| ==>
      Precedes(MovesBefore(b, p, r)[k], MovesBefore(b, p, r)[l])
  {
    if r > 0 {
      MovesBeforeOrdered(b, p, r - 1);
      MovesBeforeMembers(b, p, r - 1);
      RowMovesSpec(b, p, r - 1, 8);
      var prev := MovesBefore(b, p, r - 1);
      var row := RowMoves(b, p, r - 1, 8);
      var all := MovesBefore(b, p, r);
      assert all == prev + row;
      forall k, l | 0 <= k < l < |all| ensures Precedes(all[k], all[l]) {
        if l < |prev| {
          assert all[k] == prev[k] && all[l] == prev[l];
        } else if k < |prev| {
          assert all[k] == prev[k] && prev[k] in prev;
          assert all[l] == row[l - |prev|] && row[l - |prev|] in row;
        } else {
          assert all[k] == row[k - |prev|] && all[l] == row[l - |prev|];
        }
      }
    }
  }

  /** The first r rows hold no more legal moves than empty cells. */
  lemma {:induction false} MovesBeforeBound(b: Board, p: int, r: int)
    requires IsGrid(b) && 0 <= r <= 8
    ensures |MovesBefore(b, p, r)| <= GridOccurrences(b[..r], EMPTY)
  {
    if r > 0 {
      MovesBeforeBound(b, p, r - 1);
      RowMovesSpec(b, p, r - 1, 8);
      assert b[..r][..r - 1] == b[..r - 1];
      assert b[..r][r - 1][..8] == b[r - 1];
    }
  }

  /** get_valid_moves lists exactly the empty cells where p has a legal move. */
  lemma ValidMovesCharacterised(b: Board, p: int)
    requires IsGrid(b)
    ensures forall m :: m in ValidMoves(b, p) <==> InBounds(m.0, m.1) && IsValidMove(b, m.0, m.1, p)
    ensures forall m :: m in ValidMoves(b, p) ==> InBounds(m.0, m.1) && b[m.0][m.1] == EMPTY
  {
    MovesBeforeMembers(b, p, 8);
  }

  /** No cell is listed twice (the scan moves on after the first flanking direction). */
  lemma ValidMovesDistinct(b: Board, p: int)
    requires IsGrid(b)
    ensures forall k, l :: 0 <= k < l < |ValidMoves(b, p)| ==> ValidMoves(b, p)[k] != ValidMoves(b, p)[l]
  {
    MovesBeforeOrdered(b, p, 8);
  }

  /** A player never has more legal moves than there are empty squares. */
  lemma ValidMovesBounded(b: Board, p: int)
    requires IsGrid(b)
    ensures |ValidMoves(b, p)| <= CountDiscs(b, EMPTY)
  {
    MovesBeforeBound(b, p, 8);
    assert b[..8] == b;
  }

  /** On a full board (no empty square) neither player can move. */
  lemma FullBoardHasNoMoves(b: Board, p: int)
    requires IsGrid(b) && CountDiscs(b, EMPTY) == 0
    ensures ValidMoves(b, p) == []
  {
    ValidMovesBounded(b, p);
  }

  /** A cell is a legal move for p exactly when it is one for the other colour on
      the board with the colours exchanged. */
  lemma IsValidMoveSwap(b: Board, x: int, y: int, p: int)
    requires IsGrid(b) && InBounds(x, y) && (p == BLACK || p == WHITE)
    ensures IsValidMove(Swap(b), x, y, -p) <==> IsValidMove(b, x, y, p)
  {
    var s := Swap(b);
    forall d: Cell, n | 0 <= n
      ensures OpponentRun(s, x, y, d, n, -p) <==> OpponentRun(b, x, y, d, n, p)
    {
    }
    forall i | 0 <= i < 8
      ensures Flanks(s, x, y, Directions[i], -p) <==> Flanks(b, x, y, Directions[i], p)
    {
      var d := Directions[i];
      if Flanks(s, x, y, d, -p) {
        var n :| 1 <= n < 8 && OpponentRun(s, x, y, d, n, -p) &&
          InBounds(Along(x, d.0, n + 1), Along(y, d.1, n + 1)) &&
          s[Along(x, d.0, n + 1)][Along(y, d.1, n + 1)] == -p;
        assert OpponentRun(b, x, y, d, n, p);
      }
      if Flanks(b, x, y, d, p) {
        var n :| 1 <= n < 8 && OpponentRun(b, x, y, d, n, p) &&
          InBounds(Along(x, d.0, n + 1), Along(y, d.1, n + 1)) &&
          b[Along(x, d.0, n + 1)][Along(y, d.1, n + 1)] == p;
        assert OpponentRun(s, x, y, d, n, -p);
      }
    }
  }

  lemma {:induction false} RowMovesSwap(b: Board, p: int, x: int, c: int)
    requires IsGrid(b) && 0 <= x < 8 && 0 <= c <= 8 && (p == BLACK || p == WHITE)
    ensures RowMoves(Swap(b), -p, x, c) == RowMoves(b, p, x, c)
  {
    if c > 0 {
      RowMovesSwap(b, p, x, c - 1);
      IsValidMoveSwap(b, x, c - 1, p);
    }
  }

  lemma {:induction false} MovesBeforeSwap(b: Board, p: int, r: int)
    requires IsGrid(b) && 0 <= r <= 8 && (p == BLACK || p == WHITE)
    ensures MovesBefore(Swap(b), -p, r) == MovesBefore(b, p, r)
  {
    if r > 0 {
      MovesBeforeSwap(b, p, r - 1);
      RowMovesSwap(b, p, r - 1, 8);
    }
  }

  /** Exchanging the colours of all discs exchanges the two players' move lists. */
  lemma ValidMovesSwap(b: Board, p: int)
    requires IsGrid(b) && (p == BLACK || p == WHITE)
    ensures ValidMoves(Swap(b), -p) == ValidMoves(b, p)
  {
    MovesBeforeSwap(b, p, 8);
  }
}
