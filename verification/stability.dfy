/** The stability analyser: a corner-anchored flood fill. From every occupied corner
    a FIFO work queue walks outward in the eight directions, marking each run of
    same-coloured, not yet marked cells and enqueueing every cell it marks.

    Walk, ScanDirs and Drain are the functional reading of the three nested loops
    of the fill (the walk along one direction, the eight directions of one popped
    cell, the queue); MarkStableFromCorner and CalculateStability run the same
    loops on an array and are proved to produce the grid these functions describe. */
module Stability {
  import opened Othello

  /** The number of cells not yet marked: the fill's termination measure. */
  function FalseCount(g: BoolGrid): nat {
    GridOccurrences(g, false)
  }

  /** g with cell (x, y) marked. */
  function Mark(g: BoolGrid, x: int, y: int): (r: BoolGrid)
    requires IsGrid(g) && InBounds(x, y)
    ensures IsGrid(r) && r[x][y]
    ensures forall i, j :: InBounds(i, j) && (i != x || j != y) ==> r[i][j] == g[i][j]
  {
    g[x := g[x][y := true]]
  }

  /** Marking an unmarked cell leaves one unmarked cell fewer. */
  lemma MarkShrinks(g: BoolGrid, x: int, y: int)
    requires IsGrid(g) && InBounds(x, y) && !g[x][y]
    ensures FalseCount(Mark(g, x, y)) == FalseCount(g) - 1
  {
    GridOccurrencesUpdate(g, x, y, false, true);
  }

  /** Marks are never removed on the way from g to h. */
  ghost predicate Grows(g: BoolGrid, h: BoolGrid)
    requires IsGrid(g) && IsGrid(h)
  {
    forall i, j :: InBounds(i, j) && g[i][j] ==> h[i][j]
  }

  /** Every cell marked on the way from g to h holds p. */
  ghost predicate NewMarksHold(b: Board, p: int, g: BoolGrid, h: BoolGrid)
    requires IsGrid(b) && IsGrid(g) && IsGrid(h)
  {
    forall i, j :: InBounds(i, j) && h[i][j] && !g[i][j] ==> b[i][j] == p
  }

  /** The inner walk from (nx, ny) along d: while the cell is on the board, holds p
      and is unmarked, mark it, enqueue it and step on. Returns the new grid and queue. */
  function Walk(b: Board, p: int, g: BoolGrid, q: seq<Cell>, nx: int, ny: int, d: Cell): (r: (BoolGrid, seq<Cell>))
    requires IsGrid(b) && IsGrid(g)
    ensures IsGrid(r.0)
    decreases FalseCount(g)
  {
    if InBounds(nx, ny) && b[nx][ny] == p && !g[nx][ny] then
      MarkShrinks(g, nx, ny);
      Walk(b, p, Mark(g, nx, ny), q + [(nx, ny)], nx + d.0, ny + d.1, d)
    else
      (g, q)
  }

  /** The walks in directions i..7 from the popped cell c. */
  function ScanDirs(b: Board, p: int, g: BoolGrid, q: seq<Cell>, c: Cell, i: int): (r: (BoolGrid, seq<Cell>))
    requires IsGrid(b) && IsGrid(g) && 0 <= i <= 8
    ensures IsGrid(r.0)
    decreases 8 - i
  {
    if i == 8 then (g, q)
    else
      var d := Directions[i];
      var w := Walk(b, p, g, q, c.0 + d.0, c.1 + d.1, d);
      ScanDirs(b, p, w.0, w.1, c, i + 1)
  }

  /** The queue loop: pop the first cell, scan its eight directions, repeat until empty. */
  function Drain(b: Board, p: int, g: BoolGrid, q: seq<Cell>): (r: BoolGrid)
    requires IsGrid(b) && IsGrid(g)
    ensures IsGrid(r)
    decreases FalseCount(g), |q|
  {
    if q == [] then g
    else
      var s := ScanDirs(b, p, g, q[1..], q[0], 0);
      ScanDirsCount(b, p, g, q[1..], q[0], 0);
      Drain(b, p, s.0, s.1)
  }

  /** The queue grows by exactly the drop in unmarked cells. */
  lemma {:induction false} WalkCount(b: Board, p: int, g: BoolGrid, q: seq<Cell>, nx: int, ny: int, d: Cell)
    requires IsGrid(b) && IsGrid(g)
    ensures |q| <= |Walk(b, p, g, q, nx, ny, d).1|
    ensures FalseCount(Walk(b, p, g, q, nx, ny, d).0) + |Walk(b, p, g, q, nx, ny, d).1| == FalseCount(g) + |q|
    decreases FalseCount(g)
  {
    if InBounds(nx, ny) && b[nx][ny] == p && !g[nx][ny] {
      MarkShrinks(g, nx, ny);
      WalkCount(b, p, Mark(g, nx, ny), q + [(nx, ny)], nx + d.0, ny + d.1, d);
    }
  }

  /** A walk keeps the queue it was given as a prefix, and every cell it appends
      is on the board, was unmarked, is now marked and holds p. */
  lemma {:induction false} WalkEnqueues(b: Board, p: int, g: BoolGrid, q: seq<Cell>, nx: int, ny: int, d: Cell)
    requires IsGrid(b) && IsGrid(g)
    ensures var w := Walk(b, p, g, q, nx, ny, d);
      |q| <= |w.1| && w.1[..|q|] == q &&
      forall k :: |q| <= k < |w.1| ==>
        InBounds(w.1[k].0, w.1[k].1) && !g[w.1[k].0][w.1[k].1] && w.0[w.1[k].0][w.1[k].1] && b[w.1[k].0][w.1[k].1] == p
    decreases FalseCount(g)
  {
    if InBounds(nx, ny) && b[nx][ny] == p && !g[nx][ny] {
      MarkShrinks(g, nx, ny);
      var m := Mark(g, nx, ny);
      var q' := q + [(nx, ny)];
      WalkEnqueues(b, p, m, q', nx + d.0, ny + d.1, d);
      WalkKeepsMarks(b, p, m, q', nx + d.0, ny + d.1, d);
      var w := Walk(b, p, m, q', nx + d.0, ny + d.1, d);
      assert w == Walk(b, p, g, q, nx, ny, d);
      assert w.1[..|q|] == w.1[..|q'|][..|q|];
    }
  }

  /** The same holds for the scan of the remaining directions from one cell. */
  lemma {:induction false} ScanDirsCount(b: Board, p: int, g: BoolGrid, q: seq<Cell>, c: Cell, i: int)
    requires IsGrid(b) && IsGrid(g) && 0 <= i <= 8
    ensures |q| <= |ScanDirs(b, p, g, q, c, i).1|
    ensures FalseCount(ScanDirs(b, p, g, q, c, i).0) + |ScanDirs(b, p, g, q, c, i).1| == FalseCount(g) + |q|
    decreases 8 - i
  {
    if i < 8 {
      var d := Directions[i];
      var w := Walk(b, p, g, q, c.0 + d.0, c.1 + d.1, d);
      WalkCount(b, p, g, q, c.0 + d.0, c.1 + d.1, d);
      ScanDirsCount(b, p, w.0, w.1, c, i + 1);
    }
  }

  /** mark_stable_from_corner on a functional grid: mark (x, y) and fill from it
      with the colour found there. */
  function MarkFromCorner(b: Board, g: BoolGrid, x: int, y: int): (r: BoolGrid)
    requires IsGrid(b) && IsGrid(g) && InBounds(x, y)
    ensures IsGrid(r)
  {
    Drain(b, b[x][y], Mark(g, x, y), [(x, y)])
  }

  /** Each walk keeps the marks it finds and marks only cells holding p. */
  lemma {:induction false} WalkKeepsMarks(b: Board, p: int, g: BoolGrid, q: seq<Cell>, nx: int, ny: int, d: Cell)
    requires IsGrid(b) && IsGrid(g)
    ensures Grows(g, Walk(b, p, g, q, nx, ny, d).0) && NewMarksHold(b, p, g, Walk(b, p, g, q, nx, ny, d).0)
    decreases FalseCount(g)
  {
    if InBounds(nx, ny) && b[nx][ny] == p && !g[nx][ny] {
      MarkShrinks(g, nx, ny);
      WalkKeepsMarks(b, p, Mark(g, nx, ny), q + [(nx, ny)], nx + d.0, ny + d.1, d);
    }
  }

  /** So does the scan of the eight directions from one popped cell. */
  lemma {:induction false} ScanDirsKeepsMarks(b: Board, p: int, g: BoolGrid, q: seq<Cell>, c: Cell, i: int)
    requires IsGrid(b) && IsGrid(g) && 0 <= i <= 8
    ensures Grows(g, ScanDirs(b, p, g, q, c, i).0) && NewMarksHold(b, p, g, ScanDirs(b, p, g, q, c, i).0)
    decreases 8 - i
  {
    if i < 8 {
      var d := Directions[i];
      var w := Walk(b, p, g, q, c.0 + d.0, c.1 + d.1, d);
      WalkKeepsMarks(b, p, g, q, c.0 + d.0, c.1 + d.1, d);
      ScanDirsKeepsMarks(b, p, w.0, w.1, c, i + 1);
    }
  }

  /** So does the whole queue loop. */
  lemma {:induction false} DrainKeepsMarks(b: Board, p: int, g: BoolGrid, q: seq<Cell>)
    requires IsGrid(b) && IsGrid(g)
    ensures Grows(g, Drain(b, p, g, q)) && NewMarksHold(b, p, g, Drain(b, p, g, q))
    decreases FalseCount(g), |q|
  {
    if q != [] {
      var s := ScanDirs(b, p, g, q[1..], q[0], 0);
      ScanDirsKeepsMarks(b, p, g, q[1..], q[0], 0);
      ScanDirsCount(b, p, g, q[1..], q[0], 0);
      DrainKeepsMarks(b, p, s.0, s.1);
    }
  }

  /** The fill from (x, y) marks (x, y), keeps every earlier mark and marks only
      cells of the colour found on (x, y). */
  lemma MarkFromCornerSpec(b: Board, g: BoolGrid, x: int, y: int)
    requires IsGrid(b) && IsGrid(g) && InBounds(x, y)
    ensures MarkFromCorner(b, g, x, y)[x][y]
    ensures Grows(g, MarkFromCorner(b, g, x, y))
    ensures NewMarksHold(b, b[x][y], g, MarkFromCorner(b, g, x, y))
  {
    var m := Mark(g, x, y);
    DrainKeepsMarks(b, b[x][y], m, [(x, y)]);
  }

  /** The value on corner k. */
  function CornerValue(b: Board, k: int): int
    requires IsGrid(b) && 0 <= k < 4
  {
    b[Corner(k).0][Corner(k).1]
  }

  /** The map after the first n corners have been considered; empty corners are skipped. */
  function StableAfter(b: Board, n: int): (g: BoolGrid)
    requires IsGrid(b) && 0 <= n <= 4
    ensures IsGrid(g)
  {
    if n == 0 then Unmarked()
    else
      var g := StableAfter(b, n - 1);
      var c := Corner(n - 1);
      if b[c.0][c.1] != EMPTY then MarkFromCorner(b, g, c.0, c.1) else g
  }

  /** After n corners, every occupied one among them is marked. */
  lemma {:induction false} StableAfterMarksCorners(b: Board, n: int)
    requires IsGrid(b) && 0 <= n <= 4
    ensures forall k :: 0 <= k < n && CornerValue(b, k) != EMPTY ==>
      StableAfter(b, n)[Corner(k).0][Corner(k).1]
  {
    if n > 0 {
      StableAfterMarksCorners(b, n - 1);
      var g := StableAfter(b, n - 1);
      var c := Corner(n - 1);
      if b[c.0][c.1] != EMPTY {
        MarkFromCornerSpec(b, g, c.0, c.1);
        assert StableAfter(b, n) == MarkFromCorner(b, g, c.0, c.1);
        forall k | 0 <= k < n - 1 && CornerValue(b, k) != EMPTY
          ensures StableAfter(b, n)[Corner(k).0][Corner(k).1]
        {
          assert g[Corner(k).0][Corner(k).1];
        }
      }
    }
  }

  /** After n corners, a marked cell holds the colour of an occupied one among them. */
  lemma {:induction false} StableAfterColours(b: Board, n: int, i: int, j: int)
    requires IsGrid(b) && 0 <= n <= 4 && InBounds(i, j) && StableAfter(b, n)[i][j]
    ensures exists k :: 0 <= k < n && CornerValue(b, k) != EMPTY && b[i][j] == CornerValue(b, k)
  {
    if n == 0 {
      assert false;
    } else {
      var g := StableAfter(b, n - 1);
      var c := Corner(n - 1);
      if b[c.0][c.1] != EMPTY && !g[i][j] {
        MarkFromCornerSpec(b, g, c.0, c.1);
        assert StableAfter(b, n) == MarkFromCorner(b, g, c.0, c.1);
        assert b[i][j] == CornerValue(b, n - 1);
      } else {
        assert g[i][j];
        StableAfterColours(b, n - 1, i, j);
        var k :| 0 <= k < n - 1 && CornerValue(b, k) != EMPTY && b[i][j] == CornerValue(b, k);
        assert 0 <= k < n;
      }
    }
  }

  /** calculate_stability as a function: the map after all four corners. */
  function StabilityMap(b: Board): (s: BoolGrid)
    requires IsGrid(b)
    ensures IsGrid(s)
  {
    StableAfter(b, 4)
  }

  /** Every occupied corner is marked, every marked cell is a disc whose colour is
      that of an occupied corner, and a board whose corners are all empty has no
      marked cell. */
  lemma StabilityMapSpec(b: Board)
    requires IsGrid(b)
    ensures forall k :: 0 <= k < 4 && CornerValue(b, k) != EMPTY ==> StabilityMap(b)[Corner(k).0][Corner(k).1]
    ensures forall i, j :: InBounds(i, j) && StabilityMap(b)[i][j] ==> b[i][j] != EMPTY
    ensures forall i, j :: InBounds(i, j) && StabilityMap(b)[i][j] ==>
      exists k :: 0 <= k < 4 && CornerValue(b, k) != EMPTY && b[i][j] == CornerValue(b, k)
    ensures (forall k :: 0 <= k < 4 ==> CornerValue(b, k) == EMPTY) ==>
      forall i, j :: InBounds(i, j) ==> !StabilityMap(b)[i][j]
  {
    StableAfterMarksCorners(b, 4);
    forall i, j | InBounds(i, j) && StabilityMap(b)[i][j]
      ensures exists k :: 0 <= k < 4 && CornerValue(b, k) != EMPTY && b[i][j] == CornerValue(b, k)
    {
      StableAfterColours(b, 4, i, j);
    }
  }

  /** a and c are distinct 8-neighbours. */
  predicate Adjacent(a: Cell, c: Cell) {
    IsUnit((c.0 - a.0, c.1 - a.1))
  }

  /** path is a chain of 8-neighbours from s to c, each cell on the board and
      holding p. */
  ghost predicate IsChain(b: Board, p: int, s: Cell, c: Cell, path: seq<Cell>)
    requires IsGrid(b)
    decreases |path|
  {
    |path| > 0 && path[|path| - 1] == c && InBounds(c.0, c.1) && b[c.0][c.1] == p &&
    if |path| == 1 then c == s
    else Adjacent(path[|path| - 2], c) && IsChain(b, p, s, path[|path| - 2], path[..|path| - 1])
  }

  /** c is reached from s by a chain of 8-neighbours that all hold p. */
  ghost predicate Joined(b: Board, p: int, s: Cell, c: Cell)
    requires IsGrid(b)
  {
    exists path :: IsChain(b, p, s, c, path)
  }

  /** A chain can be extended by a neighbour holding p. */
  lemma JoinedStep(b: Board, p: int, s: Cell, c: Cell, e: Cell)
    requires IsGrid(b) && Joined(b, p, s, c) && Adjacent(c, e)
    requires InBounds(e.0, e.1) && b[e.0][e.1] == p
    ensures Joined(b, p, s, e)
  {
    var path :| IsChain(b, p, s, c, path);
    var longer := path + [e];
    assert longer[..|longer| - 1] == path;
    assert IsChain(b, p, s, e, longer);
  }

  /** Every cell marked since g0, and every cell in the queue q, is joined to the
      seed s by a chain of cells holding p. */
  ghost predicate FillJoined(b: Board, p: int, s: Cell, g0: BoolGrid, g: BoolGrid, q: seq<Cell>)
    requires IsGrid(b) && IsGrid(g0) && IsGrid(g)
  {
    (forall i, j :: InBounds(i, j) && g[i][j] && !g0[i][j] ==> Joined(b, p, s, (i, j))) &&
    (forall k :: 0 <= k < |q| ==> Joined(b, p, s, q[k]))
  }

  /** Marking and enqueueing a joined cell keeps every mark and queue entry joined. */
  lemma FillJoinedMark(b: Board, p: int, s: Cell, g0: BoolGrid, g: BoolGrid, q: seq<Cell>, x: int, y: int)
    requires IsGrid(b) && IsGrid(g0) && IsGrid(g) && InBounds(x, y)
    requires FillJoined(b, p, s, g0, g, q) && Joined(b, p, s, (x, y))
    ensures FillJoined(b, p, s, g0, Mark(g, x, y), q + [(x, y)])
  {
    var m := Mark(g, x, y);
    forall i, j | InBounds(i, j) && m[i][j] && !g0[i][j]
      ensures Joined(b, p, s, (i, j))
    {
      if i != x || j != y {
        assert g[i][j];
      }
    }
  }

  /** A walk that starts next to a joined cell marks and enqueues only joined cells:
      each cell it marks is the neighbour of the cell before it. */
  lemma {:induction false} WalkJoined(b: Board, p: int, s: Cell, g0: BoolGrid, g: BoolGrid, q: seq<Cell>,
                                      prev: Cell, nx: int, ny: int, d: Cell)
    requires IsGrid(b) && IsGrid(g0) && IsGrid(g) && IsUnit(d) && nx == prev.0 + d.0 && ny == prev.1 + d.1
    requires FillJoined(b, p, s, g0, g, q) && Joined(b, p, s, prev)
    ensures FillJoined(b, p, s, g0, Walk(b, p, g, q, nx, ny, d).0, Walk(b, p, g, q, nx, ny, d).1)
    decreases FalseCount(g)
  {
    if InBounds(nx, ny) && b[nx][ny] == p && !g[nx][ny] {
      MarkShrinks(g, nx, ny);
      JoinedStep(b, p, s, prev, (nx, ny));
      FillJoinedMark(b, p, s, g0, g, q, nx, ny);
      WalkJoined(b, p, s, g0, Mark(g, nx, ny), q + [(nx, ny)], (nx, ny), nx + d.0, ny + d.1, d);
    }
  }

  /** So does the scan of the eight directions from a joined cell c. */
  lemma {:induction false} ScanDirsJoined(b: Board, p: int, s: Cell, g0: BoolGrid, g: BoolGrid, q: seq<Cell>,
                                          c: Cell, i: int)
    requires IsGrid(b) && IsGrid(g0) && IsGrid(g) && 0 <= i <= 8
    requires FillJoined(b, p, s, g0, g, q) && Joined(b, p, s, c)
    ensures var r := ScanDirs(b, p, g, q, c, i);
      FillJoined(b, p, s, g0, r.0, r.1)
    decreases 8 - i
  {
    if i < 8 {
      var d := Directions[i];
      DirectionsAreUnits();
      assert IsUnit(d);
      WalkJoined(b, p, s, g0, g, q, c, c.0 + d.0, c.1 + d.1, d);
      var w := Walk(b, p, g, q, c.0 + d.0, c.1 + d.1, d);
      ScanDirsJoined(b, p, s, g0, w.0, w.1, c, i + 1);
      assert ScanDirs(b, p, g, q, c, i) == ScanDirs(b, p, w.0, w.1, c, i + 1);
    }
  }

  /** So does the whole queue loop: every cell it marks is joined to the seed. */
  lemma {:induction false} DrainJoined(b: Board, p: int, s: Cell, g0: BoolGrid, g: BoolGrid, q: seq<Cell>)
    requires IsGrid(b) && IsGrid(g0) && IsGrid(g)
    requires FillJoined(b, p, s, g0, g, q)
    ensures FillJoined(b, p, s, g0, Drain(b, p, g, q), [])
    decreases FalseCount(g), |q|
  {
    if q != [] {
      assert Joined(b, p, s, q[0]);
      assert FillJoined(b, p, s, g0, g, q[1..]);
      ScanDirsJoined(b, p, s, g0, g, q[1..], q[0], 0);
      ScanDirsCount(b, p, g, q[1..], q[0], 0);
      var w := ScanDirs(b, p, g, q[1..], q[0], 0);
      DrainJoined(b, p, s, g0, w.0, w.1);
    }
  }

  /** Every cell the fill from (x, y) marks is joined to (x, y) by a chain of
      8-neighbours of the colour found on (x, y). */
  lemma MarkFromCornerJoined(b: Board, g: BoolGrid, x: int, y: int)
    requires IsGrid(b) && IsGrid(g) && InBounds(x, y)
    ensures forall i, j :: InBounds(i, j) && MarkFromCorner(b, g, x, y)[i][j] && !g[i][j] ==>
      Joined(b, b[x][y], (x, y), (i, j))
  {
    var p := b[x][y];
    assert IsChain(b, p, (x, y), (x, y), [(x, y)]);
    assert Joined(b, p, (x, y), (x, y));
    var m := Mark(g, x, y);
    assert FillJoined(b, p, (x, y), g, m, [(x, y)]);
    DrainJoined(b, p, (x, y), g, m, [(x, y)]);
  }

  /** After n corners, a marked cell is joined by a chain of 8-neighbours of one
      colour to an occupied corner among them holding that colour. */
  lemma {:induction false} StableAfterJoined(b: Board, n: int, i: int, j: int)
    requires IsGrid(b) && 0 <= n <= 4 && InBounds(i, j) && StableAfter(b, n)[i][j]
    ensures exists k :: 0 <= k < n && CornerValue(b, k) != EMPTY && Joined(b, CornerValue(b, k), Corner(k), (i, j))
  {
    if n == 0 {
      assert false;
    } else {
      var g := StableAfter(b, n - 1);
      var c := Corner(n - 1);
      if b[c.0][c.1] != EMPTY && !g[i][j] {
        MarkFromCornerJoined(b, g, c.0, c.1);
        assert StableAfter(b, n) == MarkFromCorner(b, g, c.0, c.1);
        assert Joined(b, CornerValue(b, n - 1), Corner(n - 1), (i, j));
      } else {
        assert g[i][j];
        StableAfterJoined(b, n - 1, i, j);
        var k :| 0 <= k < n - 1 && CornerValue(b, k) != EMPTY && Joined(b, CornerValue(b, k), Corner(k), (i, j));
        assert 0 <= k < n;
      }
    }
  }

  /** Every marked cell of the stability map is reached from an occupied corner by a
      chain of 8-neighbours that all hold that corner's colour. */
  lemma StabilityMapChains(b: Board)
    requires IsGrid(b)
    ensures forall i, j :: InBounds(i, j) && StabilityMap(b)[i][j] ==>
      exists k :: 0 <= k < 4 && CornerValue(b, k) != EMPTY && Joined(b, CornerValue(b, k), Corner(k), (i, j))
  {
    forall i, j | InBounds(i, j) && StabilityMap(b)[i][j]
      ensures exists k :: 0 <= k < 4 && CornerValue(b, k) != EMPTY && Joined(b, CornerValue(b, k), Corner(k), (i, j))
    {
      StableAfterJoined(b, 4, i, j);
    }
  }

  /** The fill compares cells only with each other, never with a fixed colour, so
      exchanging the colours of all discs leaves each walk unchanged ... */
  lemma {:induction false} WalkSwap(b: Board, p: int, g: BoolGrid, q: seq<Cell>, nx: int, ny: int, d: Cell)
    requires IsGrid(b) && IsGrid(g)
    ensures Walk(Swap(b), -p, g, q, nx, ny, d) == Walk(b, p, g, q, nx, ny, d)
    decreases FalseCount(g)
  {
    if InBounds(nx, ny) && b[nx][ny] == p && !g[nx][ny] {
      MarkShrinks(g, nx, ny);
      WalkSwap(b, p, Mark(g, nx, ny), q + [(nx, ny)], nx + d.0, ny + d.1, d);
    }
  }

  /** ... each scan of the eight directions ... */
  lemma {:induction false} ScanDirsSwap(b: Board, p: int, g: BoolGrid, q: seq<Cell>, c: Cell, i: int)
    requires IsGrid(b) && IsGrid(g) && 0 <= i <= 8
    ensures ScanDirs(Swap(b), -p, g, q, c, i) == ScanDirs(b, p, g, q, c, i)
    decreases 8 - i
  {
    if i < 8 {
      var d := Directions[i];
      var w := Walk(b, p, g, q, c.0 + d.0, c.1 + d.1, d);
      WalkSwap(b, p, g, q, c.0 + d.0, c.1 + d.1, d);
      ScanDirsSwap(b, p, w.0, w.1, c, i + 1);
    }
  }

  /** ... and the whole queue loop. */
  lemma {:induction false} DrainSwap(b: Board, p: int, g: BoolGrid, q: seq<Cell>)
    requires IsGrid(b) && IsGrid(g)
    ensures Drain(Swap(b), -p, g, q) == Drain(b, p, g, q)
    decreases FalseCount(g), |q|
  {
    if q != [] {
      var s := ScanDirs(b, p, g, q[1..], q[0], 0);
      ScanDirsSwap(b, p, g, q[1..], q[0], 0);
      ScanDirsCount(b, p, g, q[1..], q[0], 0);
      DrainSwap(b, p, s.0, s.1);
    }
  }

  lemma {:induction false} StableAfterSwap(b: Board, n: int)
    requires IsGrid(b) && 0 <= n <= 4
    ensures StableAfter(Swap(b), n) == StableAfter(b, n)
  {
    if n > 0 {
      StableAfterSwap(b, n - 1);
      var g := StableAfter(b, n - 1);
      var c := Corner(n - 1);
      var v := b[c.0][c.1];
      assert Swap(b)[c.0][c.1] == -v;
      if v != EMPTY {
        DrainSwap(b, v, Mark(g, c.0, c.1), [c]);
        assert MarkFromCorner(Swap(b), g, c.0, c.1) == MarkFromCorner(b, g, c.0, c.1);
      }
    }
  }

  /** The stability map does not depend on which colour is which. */
  lemma StabilityMapSwap(b: Board)
    requires IsGrid(b)
    ensures StabilityMap(Swap(b)) == StabilityMap(b)
  {
    StableAfterSwap(b, 4);
  }

  /** The array a holds the grid g. */
  ghost predicate Matches(a: array2<bool>, g: BoolGrid)
    reads a
    requires IsGrid(g)
  {
    a.Length0 == 8 && a.Length1 == 8 &&
    forall i, j :: 0 <= i < 8 && 0 <= j < 8 ==> a[i, j] == g[i][j]
  }

  /** Marking a cell never adds unmarked cells. */
  lemma MarkNeverGrowsFalseCount(g: BoolGrid, x: int, y: int)
    requires IsGrid(g) && InBounds(x, y)
    ensures FalseCount(Mark(g, x, y)) <= FalseCount(g)
  {
    if g[x][y] {
      assert g[x][y := true] == g[x];
      assert Mark(g, x, y) == g;
    } else {
      MarkShrinks(g, x, y);
    }
  }

  /** One step of the walk: the cell is marked and enqueued and the walk moves on. */
  lemma WalkStep(b: Board, p: int, g: BoolGrid, q: seq<Cell>, nx: int, ny: int, d: Cell)
    requires IsGrid(b) && IsGrid(g) && InBounds(nx, ny) && b[nx][ny] == p && !g[nx][ny]
    ensures Walk(b, p, g, q, nx, ny, d) == Walk(b, p, Mark(g, nx, ny), q + [(nx, ny)], nx + d.0, ny + d.1, d)
  {
  }

  /** The walk stops off the board, on another colour, or on a marked cell. */
  lemma WalkStop(b: Board, p: int, g: BoolGrid, q: seq<Cell>, nx: int, ny: int, d: Cell)
    requires IsGrid(b) && IsGrid(g) && !(InBounds(nx, ny) && b[nx][ny] == p && !g[nx][ny])
    ensures Walk(b, p, g, q, nx, ny, d) == (g, q)
  {
  }

  /** The scan of direction i is one walk followed by the scan of the rest. */
  lemma ScanStep(b: Board, p: int, g: BoolGrid, q: seq<Cell>, c: Cell, i: int)
    requires IsGrid(b) && IsGrid(g) && 0 <= i < 8
    ensures ScanDirs(b, p, g, q, c, i) ==
      var w := Walk(b, p, g, q, c.0 + Directions[i].0, c.1 + Directions[i].1, Directions[i]);
      ScanDirs(b, p, w.0, w.1, c, i + 1)
  {
  }

  /** The inner loop of mark_stable_from_corner: from the neighbour of c in
      direction d, mark and enqueue cells while they are on the board, hold
      `player` and are not yet marked. It runs on `stable` in place; the grid it
      produces and the queue it extends are those of Walk. */
  method MarkRun(b: Board, stable: array2<bool>, player: int, c: Cell, d: Cell, queue0: seq<Cell>, ghost g0: BoolGrid)
    returns (queue: seq<Cell>, ghost grid: BoolGrid)
    requires IsGrid(b) && IsGrid(g0) && Matches(stable, g0)
    modifies stable
    ensures IsGrid(grid) && Matches(stable, grid)
    ensures (grid, queue) == Walk(b, player, g0, queue0, c.0 + d.0, c.1 + d.1, d)
  {
    queue, grid := queue0, g0;
    var nx, ny := c.0 + d.0, c.1 + d.1;
    while InBounds(nx, ny)
      invariant IsGrid(grid) && Matches(stable, grid)
      invariant Walk(b, player, grid, queue, nx, ny, d) == Walk(b, player, g0, queue0, c.0 + d.0, c.1 + d.1, d)
      decreases FalseCount(grid)
    {
      if b[nx][ny] != player || stable[nx, ny] {
        break;
      }
      stable[nx, ny] := true;
      WalkStep(b, player, grid, queue, nx, ny, d);
      MarkShrinks(grid, nx, ny);
      grid := Mark(grid, nx, ny);
      queue := queue + [(nx, ny)];
      nx, ny := nx + d.0, ny + d.1;
    }
    WalkStop(b, player, grid, queue, nx, ny, d);
  }

  /** The body of the queue loop of mark_stable_from_corner: walk the eight
      directions from the popped cell c, in the order of Directions. */
  method MarkAround(b: Board, stable: array2<bool>, player: int, c: Cell, queue0: seq<Cell>, ghost g0: BoolGrid)
    returns (queue: seq<Cell>, ghost grid: BoolGrid)
    requires IsGrid(b) && IsGrid(g0) && Matches(stable, g0)
    modifies stable
    ensures IsGrid(grid) && Matches(stable, grid)
    ensures (grid, queue) == ScanDirs(b, player, g0, queue0, c, 0)
  {
    queue, grid := queue0, g0;
    ghost var target := ScanDirs(b, player, g0, queue0, c, 0);
    for i := 0 to 8
      invariant IsGrid(grid) && Matches(stable, grid)
      invariant ScanDirs(b, player, grid, queue, c, i) == target
    {
      ScanStep(b, player, grid, queue, c, i);
      queue, grid := MarkRun(b, stable, player, c, Directions[i], queue, grid);
    }
  }

  /** mark_stable_from_corner: mark (x, y) and run the FIFO fill on `stable` in place.
      `appended` counts the cells the loop enqueues after the seed; each was unmarked
      before, so there are no more of them than unmarked cells. */
  method MarkStableFromCorner(b: Board, stable: array2<bool>, x: int, y: int, ghost g: BoolGrid)
    returns (ghost appended: nat)
    requires IsGrid(b) && IsGrid(g) && InBounds(x, y) && Matches(stable, g)
    modifies stable
    ensures Matches(stable, MarkFromCorner(b, g, x, y))
    ensures appended + FalseCount(MarkFromCorner(b, g, x, y)) <= FalseCount(g) <= 64
  {
    var player := b[x][y];
    var queue: seq<Cell> := [(x, y)];
    stable[x, y] := true;
    ghost var grid := Mark(g, x, y);
    MarkNeverGrowsFalseCount(g, x, y);
    appended := 0;
    while queue != []
      invariant IsGrid(grid) && Matches(stable, grid)
      invariant Drain(b, player, grid, queue) == MarkFromCorner(b, g, x, y)
      invariant appended + FalseCount(grid) <= FalseCount(g)
      decreases FalseCount(grid), |queue|
    {
      var c := queue[0];
      queue := queue[1..];
      ghost var before := |queue|;
      ScanDirsCount(b, player, grid, queue, c, 0);
      queue, grid := MarkAround(b, stable, player, c, queue, grid);
      appended := appended + (|queue| - before);
    }
    assert FalseCount(g) <= 64 by {
      assert forall i :: 0 <= i < |g| ==> |g[i]| <= 8;
    }
  }

  /** calculate_stability: start from an all-False map and fill from every occupied corner. */
  method CalculateStability(b: Board) returns (stable: array2<bool>)
    requires IsGrid(b)
    ensures fresh(stable) && Matches(stable, StabilityMap(b))
  {
    stable := new bool[8, 8]((_, _) => false);
    assert Matches(stable, Unmarked());
    for k := 0 to 4
      invariant Matches(stable, StableAfter(b, k))
    {
      var c := Corners[k];
      assert c == Corner(k);
      if b[c.0][c.1] != EMPTY {
        ghost var _ := MarkStableFromCorner(b, stable, c.0, c.1, StableAfter(b, k));
        assert StableAfter(b, k + 1) == MarkFromCorner(b, StableAfter(b, k), c.0, c.1);
      } else {
        assert StableAfter(b, k + 1) == StableAfter(b, k);
      }
    }
  }
}
