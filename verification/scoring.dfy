/** The positional scorers: each adds a table's weight for every cell of the player
    and subtracts it for every cell of the opponent, over all cells or over the cells
    a stability map marks (or does not mark). */
module Scoring {
  import opened Othello
  import opened Stability

  /** The plain positional table of positional_score. */
  const PositionWeights: seq<seq<int>> :=
    [[ 100, -20, 10,  5,  5, 10, -20, 100],
     [ -20, -50, -2, -2, -2, -2, -50, -20],
     [  10,  -2,  3,  2,  2,  3,  -2,  10],
     [   5,  -2,  2,  1,  1,  2,  -2,   5],
     [   5,  -2,  2,  1,  1,  2,  -2,   5],
     [  10,  -2,  3,  2,  2,  3,  -2,  10],
     [ -20, -50, -2, -2, -2, -2, -50, -20],
     [ 100, -20, 10,  5,  5, 10, -20, 100]]

  /** The table of positional_score_Stable. */
  const StableWeights: seq<seq<int>> :=
    [[ 200, 100, 100, 100, 100, 100, 100, 200],
     [ 100,  10,  10,  10,  10,  10,  10, 100],
     [ 100,  10,  10,  10,  10,  10,  10, 100],
     [ 100,  10,  10,  10,  10,  10,  10, 100],
     [ 100,  10,  10,  10,  10,  10,  10, 100],
     [ 100,  10,  10,  10,  10,  10,  10, 100],
     [ 100,  10,  10,  10,  10,  10,  10, 100],
     [ 200, 100, 100, 100, 100, 100, 100, 200]]

  /** The table of positional_score_Unstable (written out separately in the source). */
  const UnstableWeights: seq<seq<int>> :=
    [[100, -20, 10, 5, 5, 10, -20, 100],
     [-20, -50, -2, -2, -2, -2, -50, -20],
     [10, -2, 3, 2, 2, 3, -2, 10],
     [5, -2, 2, 1, 1, 2, -2, 5],
     [5, -2, 2, 1, 1, 2, -2, 5],
     [10, -2, 3, 2, 2, 3, -2, 10],
     [-20, -50, -2, -2, -2, -2, -50, -20],
     [100, -20, 10, 5, 5, 10, -20, 100]]

  /** Which cells a scorer looks at. */
  datatype Filter = AllCells | StableOnly | UnstableOnly

  predicate Selects(f: Filter, isStable: bool) {
    match f
    case AllCells => true
    case StableOnly => isStable
    case UnstableOnly => !isStable
  }

  /** What one cell holding `cell` adds to p's score under weight w. */
  function Contribution(w: int, cell: int, p: int): (c: int)
    ensures c == w || c == -w || c == 0
    ensures p != EMPTY && cell == EMPTY ==> c == 0
  {
    if cell == p then w else if cell == Opponent(p) then -w else 0
  }

  /** The selected contributions of the first c cells of row x. */
  function RowSum(b: Board, p: int, w: seq<seq<int>>, f: Filter, s: BoolGrid, x: int, c: int): int
    requires IsGrid(b) && IsGrid(w) && IsGrid(s) && 0 <= x < 8 && 0 <= c <= 8
  {
    if c == 0 then 0
    else
      RowSum(b, p, w, f, s, x, c - 1) +
      (if Selects(f, s[x][c - 1]) then Contribution(w[x][c - 1], b[x][c - 1], p) else 0)
  }

  /** The selected contributions of the first r rows. */
  function TableSum(b: Board, p: int, w: seq<seq<int>>, f: Filter, s: BoolGrid, r: int): int
    requires IsGrid(b) && IsGrid(w) && IsGrid(s) && 0 <= r <= 8
  {
    if r == 0 then 0 else TableSum(b, p, w, f, s, r - 1) + RowSum(b, p, w, f, s, r - 1, 8)
  }

  lemma TablesAreGrids()
    ensures IsGrid(PositionWeights) && IsGrid(StableWeights) && IsGrid(UnstableWeights)
  {
  }

  /** The table of positional_score_Unstable is the table of positional_score. */
  lemma UnstableTableIsPositional()
    ensures UnstableWeights == PositionWeights
  {
  }

  /** positional_score as a value. */
  function PositionalValue(b: Board, p: int): int
    requires IsGrid(b)
  {
    TablesAreGrids();
    TableSum(b, p, PositionWeights, AllCells, Unmarked(), 8)
  }

  /** positional_score_Stable as a value. */
  function StableValue(b: Board, p: int, s: BoolGrid): int
    requires IsGrid(b) && IsGrid(s)
  {
    TablesAreGrids();
    TableSum(b, p, StableWeights, StableOnly, s, 8)
  }

  /** positional_score_Unstable as a value. */
  function UnstableValue(b: Board, p: int, s: BoolGrid): int
    requires IsGrid(b) && IsGrid(s)
  {
    TablesAreGrids();
    TableSum(b, p, UnstableWeights, UnstableOnly, s, 8)
  }

  /** positional_score. */
  method PositionalScore(b: Board, p: int) returns (score: int)
    requires IsGrid(b)
    ensures score == PositionalValue(b, p)
  {
    TablesAreGrids();
    var weights := PositionWeights;
    score := 0;
    for x := 0 to 8
      invariant score == TableSum(b, p, PositionWeights, AllCells, Unmarked(), x)
    {
      for y := 0 to 8
        invariant score == TableSum(b, p, PositionWeights, AllCells, Unmarked(), x) +
                           RowSum(b, p, PositionWeights, AllCells, Unmarked(), x, y)
      {
        if b[x][y] == p {
          score := score + weights[x][y];
        } else if b[x][y] == Opponent(p) {
          score := score - weights[x][y];
        }
      }
    }
  }

  /** positional_score_Stable: only cells the map marks are scored. */
  method PositionalScoreStable(b: Board, p: int, stable: array2<bool>, ghost s: BoolGrid) returns (score: int)
    requires IsGrid(b) && IsGrid(s) && Matches(stable, s)
    ensures score == StableValue(b, p, s)
  {
    TablesAreGrids();
    var weights := StableWeights;
    score := 0;
    for x := 0 to 8
      invariant score == TableSum(b, p, StableWeights, StableOnly, s, x)
    {
      for y := 0 to 8
        invariant score == TableSum(b, p, StableWeights, StableOnly, s, x) +
                           RowSum(b, p, StableWeights, StableOnly, s, x, y)
      {
        if !stable[x, y] {
          continue;
        }
        if b[x][y] == p {
          score := score + weights[x][y];
        } else if b[x][y] == Opponent(p) {
          score := score - weights[x][y];
        }
      }
    }
  }

  /** positional_score_Unstable: only cells the map does not mark are scored. */
  method PositionalScoreUnstable(b: Board, p: int, stable: array2<bool>, ghost s: BoolGrid) returns (score: int)
    requires IsGrid(b) && IsGrid(s) && Matches(stable, s)
    ensures score == UnstableValue(b, p, s)
  {
    TablesAreGrids();
    var weights := UnstableWeights;
    score := 0;
    for x := 0 to 8
      invariant score == TableSum(b, p, UnstableWeights, UnstableOnly, s, x)
    {
      for y := 0 to 8
        invariant score == TableSum(b, p, UnstableWeights, UnstableOnly, s, x) +
                           RowSum(b, p, UnstableWeights, UnstableOnly, s, x, y)
      {
        if b[x][y] == p && !stable[x, y] {
          score := score + weights[x][y];
        } else if b[x][y] == Opponent(p) && !stable[x, y] {
          score := score - weights[x][y];
        }
      }
    }
  }

  /** Swapping the two players negates a row sum. */
  lemma {:induction false} RowSumNegates(b: Board, w: seq<seq<int>>, f: Filter, s: BoolGrid, x: int, c: int)
    requires IsGrid(b) && IsGrid(w) && IsGrid(s) && 0 <= x < 8 && 0 <= c <= 8
    ensures RowSum(b, WHITE, w, f, s, x, c) == -RowSum(b, BLACK, w, f, s, x, c)
  {
    if c > 0 {
      RowSumNegates(b, w, f, s, x, c - 1);
    }
  }

  /** Swapping the two players negates a table sum. */
  lemma {:induction false} TableSumNegates(b: Board, w: seq<seq<int>>, f: Filter, s: BoolGrid, r: int)
    requires IsGrid(b) && IsGrid(w) && IsGrid(s) && 0 <= r <= 8
    ensures TableSum(b, WHITE, w, f, s, r) == -TableSum(b, BLACK, w, f, s, r)
  {
    if r > 0 {
      TableSumNegates(b, w, f, s, r - 1);
      RowSumNegates(b, w, f, s, r - 1, 8);
    }
  }

  /** The positional score is antisymmetric in the two players, and so are the
      stable and unstable scores for any stability map. */
  lemma ScoresAntisymmetric(b: Board, s: BoolGrid)
    requires IsGrid(b) && IsGrid(s)
    ensures PositionalValue(b, WHITE) == -PositionalValue(b, BLACK)
    ensures StableValue(b, WHITE, s) == -StableValue(b, BLACK, s)
    ensures UnstableValue(b, WHITE, s) == -UnstableValue(b, BLACK, s)
  {
    TablesAreGrids();
    TableSumNegates(b, PositionWeights, AllCells, Unmarked(), 8);
    TableSumNegates(b, StableWeights, StableOnly, s, 8);
    TableSumNegates(b, UnstableWeights, UnstableOnly, s, 8);
  }

  /** In the first c cells of row x, the cells selected as stable and those
      selected as unstable together make up all c cells. */
  lemma {:induction false} RowSumSplit(b: Board, p: int, w: seq<seq<int>>, s: BoolGrid, x: int, c: int)
    requires IsGrid(b) && IsGrid(w) && IsGrid(s) && 0 <= x < 8 && 0 <= c <= 8
    ensures RowSum(b, p, w, StableOnly, s, x, c) + RowSum(b, p, w, UnstableOnly, s, x, c)
            == RowSum(b, p, w, AllCells, Unmarked(), x, c)
  {
    if c > 0 {
      RowSumSplit(b, p, w, s, x, c - 1);
    }
  }

  /** On the rows before r, the cells selected as stable and those selected as
      unstable together make up all cells. */
  lemma {:induction false} TableSumSplit(b: Board, p: int, w: seq<seq<int>>, s: BoolGrid, r: int)
    requires IsGrid(b) && IsGrid(w) && IsGrid(s) && 0 <= r <= 8
    ensures TableSum(b, p, w, StableOnly, s, r) + TableSum(b, p, w, UnstableOnly, s, r)
            == TableSum(b, p, w, AllCells, Unmarked(), r)
  {
    if r > 0 {
      TableSumSplit(b, p, w, s, r - 1);
      RowSumSplit(b, p, w, s, r - 1, 8);
    }
  }

  /** The unstable score is the positional score with the marked cells taken out:
      adding back the marked cells, weighted by the same table, gives the positional score. */
  lemma UnstablePlusMarkedIsPositional(b: Board, p: int, s: BoolGrid)
    requires IsGrid(b) && IsGrid(s)
    ensures UnstableValue(b, p, s) + TableSum(b, p, PositionWeights, StableOnly, s, 8) == PositionalValue(b, p)
  {
    TablesAreGrids();
    UnstableTableIsPositional();
    TableSumSplit(b, p, PositionWeights, s, 8);
  }

  /** With nothing marked the stable-only sum of any table is 0. */
  lemma {:induction false} NothingMarkedRows(b: Board, p: int, w: seq<seq<int>>, s: BoolGrid, r: int)
    requires IsGrid(b) && IsGrid(w) && IsGrid(s) && 0 <= r <= 8
    requires forall i, j :: InBounds(i, j) ==> !s[i][j]
    ensures TableSum(b, p, w, StableOnly, s, r) == 0
  {
    if r > 0 {
      NothingMarkedRows(b, p, w, s, r - 1);
      NothingMarkedRow(b, p, w, s, r - 1, 8);
    }
  }

  lemma {:induction false} NothingMarkedRow(b: Board, p: int, w: seq<seq<int>>, s: BoolGrid, x: int, c: int)
    requires IsGrid(b) && IsGrid(w) && IsGrid(s) && 0 <= x < 8 && 0 <= c <= 8
    requires forall i, j :: InBounds(i, j) ==> !s[i][j]
    ensures RowSum(b, p, w, StableOnly, s, x, c) == 0
  {
    if c > 0 {
      NothingMarkedRow(b, p, w, s, x, c - 1);
    }
  }

  /** With an all-False map the unstable score equals the positional score (the two
      tables are identical) and the stable score is 0. */
  lemma NothingMarkedScores(b: Board, p: int, s: BoolGrid)
    requires IsGrid(b) && IsGrid(s)
    requires forall i, j :: InBounds(i, j) ==> !s[i][j]
    ensures UnstableValue(b, p, s) == PositionalValue(b, p)
    ensures StableValue(b, p, s) == 0
  {
    TablesAreGrids();
    UnstablePlusMarkedIsPositional(b, p, s);
    NothingMarkedRows(b, p, PositionWeights, s, 8);
    NothingMarkedRows(b, p, StableWeights, s, 8);
  }

  /** Exchanging the colours of all discs and the player leaves a row sum unchanged. */
  lemma {:induction false} RowSumColourSwap(b: Board, p: int, w: seq<seq<int>>, f: Filter, s: BoolGrid, x: int, c: int)
    requires IsGrid(b) && IsGrid(w) && IsGrid(s) && 0 <= x < 8 && 0 <= c <= 8 && (p == BLACK || p == WHITE)
    ensures RowSum(Swap(b), -p, w, f, s, x, c) == RowSum(b, p, w, f, s, x, c)
  {
    if c > 0 {
      RowSumColourSwap(b, p, w, f, s, x, c - 1);
    }
  }

  lemma {:induction false} TableSumColourSwap(b: Board, p: int, w: seq<seq<int>>, f: Filter, s: BoolGrid, r: int)
    requires IsGrid(b) && IsGrid(w) && IsGrid(s) && 0 <= r <= 8 && (p == BLACK || p == WHITE)
    ensures TableSum(Swap(b), -p, w, f, s, r) == TableSum(b, p, w, f, s, r)
  {
    if r > 0 {
      TableSumColourSwap(b, p, w, f, s, r - 1);
      RowSumColourSwap(b, p, w, f, s, r - 1, 8);
    }
  }

  /** On the board with the colours exchanged, each of the three scores of a player
      is the negation of its score on the original board (the map held fixed). */
  lemma ScoresColourSwap(b: Board, p: int, s: BoolGrid)
    requires IsGrid(b) && IsGrid(s) && (p == BLACK || p == WHITE)
    ensures PositionalValue(Swap(b), p) == -PositionalValue(b, p)
    ensures StableValue(Swap(b), p, s) == -StableValue(b, p, s)
    ensures UnstableValue(Swap(b), p, s) == -UnstableValue(b, p, s)
  {
    TablesAreGrids();
    ScoresAntisymmetric(b, s);
    TableSumColourSwap(b, -p, PositionWeights, AllCells, Unmarked(), 8);
    TableSumColourSwap(b, -p, StableWeights, StableOnly, s, 8);
    TableSumColourSwap(b, -p, UnstableWeights, UnstableOnly, s, 8);
  }

  /** The four corner values, in the order count_corners visits them. */
  function CornerValues(b: Board): (v: seq<int>)
    requires IsGrid(b)
    ensures |v| == 4 && forall k :: 0 <= k < 4 ==> v[k] == CornerValue(b, k)
  {
    [CornerValue(b, 0), CornerValue(b, 1), CornerValue(b, 2), CornerValue(b, 3)]
  }

  /** The number of corners holding p: at most four, and zero exactly when no corner holds p. */
  function CornerCount(b: Board, p: int): (n: nat)
    requires IsGrid(b)
    ensures n <= 4
    ensures n == 0 <==> forall k :: 0 <= k < 4 ==> CornerValue(b, k) != p
  {
    Occurrences(CornerValues(b), p)
  }

  /** count_corners. */
  method CountCorners(b: Board, p: int) returns (count: int)
    requires IsGrid(b)
    ensures count == CornerCount(b, p)
  {
    var corners := Corners;
    count := 0;
    for k := 0 to 4
      invariant count == Occurrences(CornerValues(b)[..k], p)
    {
      var (x, y) := corners[k];
      assert CornerValues(b)[..k + 1][..k] == CornerValues(b)[..k];
      if b[x][y] == p {
        count := count + 1;
      }
    }
    assert CornerValues(b)[..4] == CornerValues(b);
  }

  /** On a well-formed board every corner is counted exactly once among the three values. */
  lemma CornersPartition(b: Board)
    requires IsWellFormed(b)
    ensures CornerCount(b, BLACK) + CornerCount(b, WHITE) + CornerCount(b, EMPTY) == 4
  {
    OccurrencesPartition(CornerValues(b));
  }

  /** Exchanging the colours exchanges the corner counts. */
  lemma CornerCountSwap(b: Board, v: int)
    requires IsGrid(b)
    ensures CornerCount(Swap(b), -v) == CornerCount(b, v)
  {
    assert CornerValues(Swap(b)) == Negate(CornerValues(b));
    OccurrencesNegate(CornerValues(b), v);
  }

  /** A corner held by a disc of p is marked in the stability map, so a player with a
      corner always has a stable disc of their own. */
  lemma CornerOwnersHaveStableDiscs(b: Board, p: int)
    requires IsGrid(b) && p != EMPTY && CornerCount(b, p) > 0
    ensures exists i, j :: InBounds(i, j) && StabilityMap(b)[i][j] && b[i][j] == p
  {
    var k :| 0 <= k < 4 && CornerValue(b, k) == p;
    var c := Corner(k);
    StabilityMapSpec(b);
    assert StabilityMap(b)[c.0][c.1];
  }

  function Abs(v: int): nat {
    if v < 0 then -v else v
  }

  /** The sum of the magnitudes of the first c weights of row x. */
  function RowMagnitude(w: seq<seq<int>>, x: int, c: int): nat
    requires IsGrid(w) && 0 <= x < 8 && 0 <= c <= 8
  {
    if c == 0 then 0 else RowMagnitude(w, x, c - 1) + Abs(w[x][c - 1])
  }

  /** The sum of the magnitudes of the weights of the first r rows. */
  function TableMagnitude(w: seq<seq<int>>, r: int): nat
    requires IsGrid(w) && 0 <= r <= 8
  {
    if r == 0 then 0 else TableMagnitude(w, r - 1) + RowMagnitude(w, r - 1, 8)
  }

  lemma {:induction false} RowSumBounded(b: Board, p: int, w: seq<seq<int>>, f: Filter, s: BoolGrid, x: int, c: int)
    requires IsGrid(b) && IsGrid(w) && IsGrid(s) && 0 <= x < 8 && 0 <= c <= 8
    ensures Abs(RowSum(b, p, w, f, s, x, c)) <= RowMagnitude(w, x, c)
  {
    if c > 0 {
      RowSumBounded(b, p, w, f, s, x, c - 1);
    }
  }

  lemma {:induction false} TableSumBounded(b: Board, p: int, w: seq<seq<int>>, f: Filter, s: BoolGrid, r: int)
    requires IsGrid(b) && IsGrid(w) && IsGrid(s) && 0 <= r <= 8
    ensures Abs(TableSum(b, p, w, f, s, r)) <= TableMagnitude(w, r)
  {
    if r > 0 {
      TableSumBounded(b, p, w, f, s, r - 1);
      RowSumBounded(b, p, w, f, s, r - 1, 8);
    }
  }

  /** Each score lies within the sum of the magnitudes of its table: 944 for the
      positional and the unstable table, 3560 for the stable one. */
  lemma ScoresBounded(b: Board, p: int, s: BoolGrid)
    requires IsGrid(b) && IsGrid(s)
    ensures -944 <= PositionalValue(b, p) <= 944
    ensures -944 <= UnstableValue(b, p, s) <= 944
    ensures -3560 <= StableValue(b, p, s) <= 3560
  {
    PositionalBounded(b, p);
    UnstableBounded(b, p, s);
    StableBounded(b, p, s);
  }

  lemma PositionalBounded(b: Board, p: int)
    requires IsGrid(b)
    ensures -944 <= PositionalValue(b, p) <= 944
  {
    PositionTableBound(b, p, AllCells, Unmarked());
  }

  lemma UnstableBounded(b: Board, p: int, s: BoolGrid)
    requires IsGrid(b) && IsGrid(s)
    ensures -944 <= UnstableValue(b, p, s) <= 944
  {
    UnstableTableIsPositional();
    PositionTableBound(b, p, UnstableOnly, s);
  }

  lemma StableBounded(b: Board, p: int, s: BoolGrid)
    requires IsGrid(b) && IsGrid(s)
    ensures -3560 <= StableValue(b, p, s) <= 3560
  {
    StableTableBound(b, p, StableOnly, s);
  }

  /** A whole row's magnitude, written out. */
  lemma RowMagnitudeFull(w: seq<seq<int>>, x: int)
    requires IsGrid(w) && 0 <= x < 8
    ensures RowMagnitude(w, x, 8) == Abs(w[x][0]) + Abs(w[x][1]) + Abs(w[x][2]) + Abs(w[x][3]) +
                                     Abs(w[x][4]) + Abs(w[x][5]) + Abs(w[x][6]) + Abs(w[x][7])
  {
    assert RowMagnitude(w, x, 1) == Abs(w[x][0]);
    assert RowMagnitude(w, x, 2) == RowMagnitude(w, x, 1) + Abs(w[x][1]);
    assert RowMagnitude(w, x, 3) == RowMagnitude(w, x, 2) + Abs(w[x][2]);
    assert RowMagnitude(w, x, 4) == RowMagnitude(w, x, 3) + Abs(w[x][3]);
    assert RowMagnitude(w, x, 5) == RowMagnitude(w, x, 4) + Abs(w[x][4]);
    assert RowMagnitude(w, x, 6) == RowMagnitude(w, x, 5) + Abs(w[x][5]);
    assert RowMagnitude(w, x, 7) == RowMagnitude(w, x, 6) + Abs(w[x][6]);
  }

  /** Row x of w has magnitude v. */
  lemma RowMagnitudeIs(w: seq<seq<int>>, x: int, v: int)
    requires IsGrid(w) && 0 <= x < 8
    requires Abs(w[x][0]) + Abs(w[x][1]) + Abs(w[x][2]) + Abs(w[x][3]) +
             Abs(w[x][4]) + Abs(w[x][5]) + Abs(w[x][6]) + Abs(w[x][7]) == v
    ensures RowMagnitude(w, x, 8) == v
  {
    RowMagnitudeFull(w, x);
  }

  /** The magnitudes of the rows of the positional table add up to 944, which
      bounds any selection of its contributions. */
  lemma PositionTableBound(b: Board, p: int, f: Filter, s: BoolGrid)
    requires IsGrid(b) && IsGrid(s)
    ensures IsGrid(PositionWeights)
    ensures -944 <= TableSum(b, p, PositionWeights, f, s, 8) <= 944
  {
    TablesAreGrids();
    var w := PositionWeights;
    RowMagnitudeIs(w, 0, 270);
    RowMagnitudeIs(w, 1, 148);
    RowMagnitudeIs(w, 2, 34);
    RowMagnitudeIs(w, 3, 20);
    RowMagnitudeIs(w, 4, 20);
    RowMagnitudeIs(w, 5, 34);
    RowMagnitudeIs(w, 6, 148);
    RowMagnitudeIs(w, 7, 270);
    TableSumBounded(b, p, w, f, s, 8);
  }

  /** The magnitudes of the rows of the stable table add up to 3560, which
      bounds any selection of its contributions. */
  lemma StableTableBound(b: Board, p: int, f: Filter, s: BoolGrid)
    requires IsGrid(b) && IsGrid(s)
    ensures IsGrid(StableWeights)
    ensures -3560 <= TableSum(b, p, StableWeights, f, s, 8) <= 3560
  {
    TablesAreGrids();
    var w := StableWeights;
    RowMagnitudeIs(w, 0, 1000);
    RowMagnitudeIs(w, 1, 260);
    RowMagnitudeIs(w, 2, 260);
    RowMagnitudeIs(w, 3, 260);
    RowMagnitudeIs(w, 4, 260);
    RowMagnitudeIs(w, 5, 260);
    RowMagnitudeIs(w, 6, 260);
    RowMagnitudeIs(w, 7, 1000);
    TableSumBounded(b, p, w, f, s, 8);
  }
}
