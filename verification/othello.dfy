/** Board model of the Othello evaluator: cell values, 8x8 grids, the eight
    directions, the four corners and the counting every component relies on. */
module Othello {

  const EMPTY: int := 0
  const BLACK: int := -1
  const WHITE: int := 1

  /** A board is a list of rows of integers; `IsWellFormed` restricts the cells to
      EMPTY, BLACK and WHITE. */
  type Board = seq<seq<int>>
  /** A stability map, with the same shape as a board. */
  type BoolGrid = seq<seq<bool>>
  /** A (row, column) coordinate, or a (row, column) step. */
  type Cell = (int, int)

  predicate InBounds(x: int, y: int) {
    0 <= x < 8 && 0 <= y < 8
  }

  const Directions: seq<Cell> :=
    [(-1, -1), (-1, 0), (-1, 1),
     ( 0, -1),          ( 0, 1),
     ( 1, -1), ( 1, 0), ( 1, 1)]

  /** A direction: a non-zero step of at most one square along each axis. */
  predicate IsUnit(d: Cell) {
    -1 <= d.0 <= 1 && -1 <= d.1 <= 1 && d != (0, 0)
  }

  lemma DirectionsAreUnits()
    ensures |Directions| == 8
    ensures forall i :: 0 <= i < 8 ==> IsUnit(Directions[i])
  {
  }

  const Corners: seq<Cell> := [(0, 0), (0, 7), (7, 0), (7, 7)]

  /** Corner k of the list above, a square on the board. */
  function Corner(k: int): (c: Cell)
    requires 0 <= k < 4
    ensures InBounds(c.0, c.1) && (c.0 == 0 || c.0 == 7) && (c.1 == 0 || c.1 == 7)
  {
    Corners[k]
  }

  /** The all-False stability map every evaluation starts from. */
  function Unmarked(): (g: BoolGrid)
    ensures IsGrid(g) && forall i, j :: 0 <= i < 8 && 0 <= j < 8 ==> !g[i][j]
  {
    seq(8, i => seq(8, j => false))
  }

  predicate IsGrid<T>(g: seq<seq<T>>) {
    |g| == 8 && forall i :: 0 <= i < 8 ==> |g[i]| == 8
  }

  /** A board whose cells hold only the three cell values. */
  predicate IsWellFormed(b: Board) {
    IsGrid(b) &&
    forall i, j :: 0 <= i < 8 && 0 <= j < 8 ==> b[i][j] == EMPTY || b[i][j] == BLACK || b[i][j] == WHITE
  }


  /** The other player; any value that is not WHITE is treated as BLACK's opponent. */
  function Opponent(p: int): (q: int)
    ensures q == BLACK || q == WHITE
    ensures q != p
    ensures p == WHITE ==> q == BLACK
    ensures p != WHITE ==> q == WHITE
  {
    if p == WHITE then BLACK else WHITE
  }

  /** How often v occurs in s (Python's list.count). */
  function Occurrences<T(==)>(s: seq<T>, v: T): (n: nat)
    ensures n <= |s|
    ensures n == 0 <==> forall k :: 0 <= k < |s| ==> s[k] != v
  {
    if s == [] then 0
    else Occurrences(s[..|s| - 1], v) + (if s[|s| - 1] == v then 1 else 0)
  }

  /** The sum of the occurrences of v over the rows of g. */
  function GridOccurrences<T(==)>(g: seq<seq<T>>, v: T): (n: nat)
    ensures (forall i :: 0 <= i < |g| ==> |g[i]| <= 8) ==> n <= 8 * |g|
  {
    if g == [] then 0
    else GridOccurrences(g[..|g| - 1], v) + Occurrences(g[|g| - 1], v)
  }

  /** The number of cells of b holding v. */
  function CountDiscs(b: Board, v: int): (n: nat)
    requires IsGrid(b)
    ensures n <= 64
  {
    GridOccurrences(b, v)
  }

  /** Overwriting one occurrence of v with another value lowers the count by one. */
  lemma {:induction false} OccurrencesUpdate<T>(s: seq<T>, j: int, v: T, w: T)
    requires 0 <= j < |s| && s[j] == v && w != v
    ensures Occurrences(s[j := w], v) == Occurrences(s, v) - 1
  {
    var n := |s|;
    if j < n - 1 {
      assert s[j := w][..n - 1] == s[..n - 1][j := w];
      OccurrencesUpdate(s[..n - 1], j, v, w);
    } else {
      assert s[j := w][..n - 1] == s[..n - 1];
    }
  }

  /** The grid form of OccurrencesUpdate: overwrite cell (i, j) of row i. */
  lemma {:induction false} GridOccurrencesUpdate<T>(g: seq<seq<T>>, i: int, j: int, v: T, w: T)
    requires 0 <= i < |g| && 0 <= j < |g[i]| && g[i][j] == v && w != v
    ensures GridOccurrences(g[i := g[i][j := w]], v) == GridOccurrences(g, v) - 1
  {
    var n := |g|;
    var h := g[i := g[i][j := w]];
    if i < n - 1 {
      assert h[..n - 1] == g[..n - 1][i := g[i][j := w]];
      GridOccurrencesUpdate(g[..n - 1], i, j, v, w);
    } else {
      assert h[..n - 1] == g[..n - 1];
      OccurrencesUpdate(g[i], j, v, w);
    }
  }

  /** Every cell of a row holding only the three cell values is counted exactly once. */
  lemma {:induction false} OccurrencesPartition(s: seq<int>)
    requires forall k :: 0 <= k < |s| ==> s[k] == EMPTY || s[k] == BLACK || s[k] == WHITE
    ensures Occurrences(s, BLACK) + Occurrences(s, WHITE) + Occurrences(s, EMPTY) == |s|
  {
    if s != [] {
      OccurrencesPartition(s[..|s| - 1]);
    }
  }

  /** On rows of eight cells holding only the three cell values, the three
      counts together cover the grid. */
  lemma {:induction false} GridPartition(g: seq<seq<int>>)
    requires forall i :: 0 <= i < |g| ==> |g[i]| == 8
    requires forall i, j :: 0 <= i < |g| && 0 <= j < |g[i]| ==> g[i][j] == EMPTY || g[i][j] == BLACK || g[i][j] == WHITE
    ensures GridOccurrences(g, BLACK) + GridOccurrences(g, WHITE) + GridOccurrences(g, EMPTY) == 8 * |g|
  {
    if g != [] {
      GridPartition(g[..|g| - 1]);
      OccurrencesPartition(g[|g| - 1]);
    }
  }

  /** Every one of the 64 squares is empty, black or white. */
  lemma DiscsPartition(b: Board)
    requires IsWellFormed(b)
    ensures CountDiscs(b, BLACK) + CountDiscs(b, WHITE) + CountDiscs(b, EMPTY) == 64
  {
    GridPartition(b);
  }

  /** A row with every value negated: BLACK and WHITE trade places, EMPTY stays. */
  function Negate(s: seq<int>): (r: seq<int>)
    ensures |r| == |s| && forall k :: 0 <= k < |s| ==> r[k] == -s[k]
  {
    seq(|s|, k requires 0 <= k < |s| => -s[k])
  }

  /** The board with the colours of all discs exchanged. */
  function Swap(b: Board): (r: Board)
    requires IsGrid(b)
    ensures IsGrid(r) && forall i, j :: InBounds(i, j) ==> r[i][j] == -b[i][j]
  {
    seq(8, i requires 0 <= i < 8 => Negate(b[i]))
  }

  /** Negating a row turns the occurrences of v into occurrences of -v. */
  lemma {:induction false} OccurrencesNegate(s: seq<int>, v: int)
    ensures Occurrences(Negate(s), -v) == Occurrences(s, v)
  {
    if s != [] {
      assert Negate(s)[..|s| - 1] == Negate(s[..|s| - 1]);
      OccurrencesNegate(s[..|s| - 1], v);
    }
  }

  lemma {:induction false} GridOccurrencesNegate(g: seq<seq<int>>, h: seq<seq<int>>, v: int)
    requires |h| == |g| && forall i :: 0 <= i < |g| ==> h[i] == Negate(g[i])
    ensures GridOccurrences(h, -v) == GridOccurrences(g, v)
  {
    if g != [] {
      GridOccurrencesNegate(g[..|g| - 1], h[..|h| - 1], v);
      OccurrencesNegate(g[|g| - 1], v);
    }
  }

  /** Exchanging the colours exchanges the disc counts and keeps the empty count. */
  lemma CountDiscsSwap(b: Board, v: int)
    requires IsGrid(b)
    ensures CountDiscs(Swap(b), -v) == CountDiscs(b, v)
  {
    GridOccurrencesNegate(b, Swap(b), v);
  }
}
