// The older rule helpers of server.js, the Node.js WebSocket server: the
// move dispatch (processMove), a Go placement whose capture rule looks only
// at single neighbouring stones, a 2048 move that slides rows in place and
// keeps no score, the move-left test (canMove), the end-of-game check
// (checkGameEnd) and the mapping from a result to win, loss or draw inside
// handleGameEnd.
//
// A thrown exception in the move path is caught by the message handler and
// nothing is stored; the model reports it as None.

module LegacyServer {
  import opened Types
  import opened GoBoard
  import GoGame
  import GoCapture
  import Game2048
  import opened Sessions

  // ---------------------------------------------------------------------
  // 2048: slideRow on a row held in an array

  /** The merging scan has merged some pair exactly when it returned fewer
      tiles than it was given. */
  predicate Merges(line: Game2048.Line) {
    |Game2048.MergeLine(Game2048.NonZero(line))| < |Game2048.NonZero(line)|
  }

  /** A copy of a line in a new array: the fresh column array of the up and
      down moves, or a row of the board. */
  method NewRow(line: Game2048.Line) returns (a: array<nat>)
    ensures fresh(a) && a[..] == line
  {
    a := new nat[|line|](k requires 0 <= k < |line| => line[k]);
  }

  /** Array.prototype.reverse: the row turned around in place. */
  method ReverseRow(a: array<nat>)
    modifies a
    ensures a[..] == Game2048.Reverse(old(a[..]))
  {
    var i, j := 0, a.Length - 1;
    while i < j
      invariant 0 <= i <= a.Length && j == a.Length - 1 - i
      invariant forall k :: 0 <= k < i || j < k < a.Length ==> a[k] == old(a[a.Length - 1 - k])
      invariant forall k :: i <= k <= j ==> a[k] == old(a[k])
    {
      a[i], a[j] := a[j], a[i];
      i, j := i + 1, j - 1;
    }
  }

  /** slideRow: filter the zeros out, merge equal neighbours by doubling the
      first and splicing the second out, pad with zeros and write the result
      back over the row. It reports a move when a pair merged or a cell
      changed, which is exactly when the row changed. */
  method SlideRow(row: array<nat>) returns (moved: bool)
    requires row.Length == Game2048.Width
    modifies row
    ensures row[..] == Game2048.Slide(old(row[..]))
    ensures moved <==> row[..] != old(row[..])
  {
    ghost var line := row[..];
    var nonZero := Game2048.NonZero(row[..]);
    ghost var nz := nonZero;
    nonZero, moved := MergeScan(nonZero);
    ghost var merged := moved;
    ghost var m := nonZero;
    while |nonZero| < Game2048.Width
      invariant |m| <= |nonZero| <= Game2048.Width
      invariant forall k :: 0 <= k < |m| ==> nonZero[k] == m[k]
      invariant forall k :: |m| <= k < |nonZero| ==> nonZero[k] == 0
    {
      nonZero := nonZero + [0];
    }
    Game2048.Padded(m, nonZero);
    var changed := WriteBack(row, nonZero);
    moved := moved || changed;
    MergeMeansChange(line);
  }

  /** The merging loop of slideRow on the filtered tiles: a tile equal to
      the next one is doubled and the next one spliced out; the scan then
      moves past the doubled tile. */
  method MergeScan(tiles: Game2048.Line) returns (nonZero: Game2048.Line, merged: bool)
    ensures nonZero == Game2048.MergeLine(tiles)
    ensures merged <==> |nonZero| < |tiles|
  {
    nonZero := tiles;
    merged := false;
    var i := 0;
    while i < |nonZero| - 1
      invariant 0 <= i <= |nonZero| <= |tiles|
      invariant nonZero[..i] + Game2048.MergeLine(nonZero[i..]) == Game2048.MergeLine(tiles)
      invariant merged <==> |nonZero| < |tiles|
    {
      if nonZero[i] == nonZero[i + 1] {
        var spliced := nonZero[..i] + [nonZero[i] * 2] + nonZero[i + 2..];
        Splice(nonZero, i, spliced);
        nonZero := spliced;
        merged := true;
      } else {
        Keep(nonZero, i);
      }
      i := i + 1;
    }
    LastMerge(nonZero, i);
  }

  /** Doubling tile i and splicing tile i + 1 out keeps the merged prefix
      and leaves the rest of the scan to the tiles after the pair. */
  lemma Splice(nz: Game2048.Line, i: nat, spliced: Game2048.Line)
    requires i + 1 < |nz| && nz[i] == nz[i + 1]
    requires spliced == nz[..i] + [nz[i] * 2] + nz[i + 2..]
    ensures spliced[..i + 1] + Game2048.MergeLine(spliced[i + 1..]) == nz[..i] + Game2048.MergeLine(nz[i..])
  {
    Game2048.MergePair(nz, i);
    Game2048.Regroup(nz[..i], nz[i] * 2, Game2048.MergeLine(nz[i + 2..]));
    assert spliced[..i + 1] == nz[..i] + [nz[i] * 2];
    assert spliced[i + 1..] == nz[i + 2..];
  }

  /** A tile that does not merge with the next one joins the prefix. */
  lemma Keep(nz: Game2048.Line, i: nat)
    requires i + 1 < |nz| && nz[i] != nz[i + 1]
    ensures nz[..i + 1] + Game2048.MergeLine(nz[i + 1..]) == nz[..i] + Game2048.MergeLine(nz[i..])
  {
    Game2048.MergeSingle(nz, i);
    Game2048.Regroup(nz[..i], nz[i], Game2048.MergeLine(nz[i + 1..]));
    assert nz[..i + 1] == nz[..i] + [nz[i]];
  }

  /** The last loop of slideRow: every cell of the row takes the value of
      the padded line, noting whether any cell differed. */
  method WriteBack(row: array<nat>, values: Game2048.Line) returns (changed: bool)
    requires row.Length == |values|
    modifies row
    ensures row[..] == values
    ensures changed <==> old(row[..]) != values
  {
    changed := false;
    for k := 0 to row.Length
      invariant forall j :: 0 <= j < k ==> row[j] == values[j]
      invariant forall j :: k <= j < row.Length ==> row[j] == old(row[j])
      invariant changed <==> exists j :: 0 <= j < k && old(row[j]) != values[j]
    {
      if row[k] != values[k] {
        changed := true;
      }
      row[k] := values[k];
    }
    assert row[..] == values;
    if old(row[..]) != values {
      var j :| 0 <= j < row.Length && old(row[..])[j] != values[j];
      assert old(row[j]) != values[j];
    }
  }

  /** The scan stops with at most one tile left over, which it keeps. */
  lemma LastMerge(nz: Game2048.Line, i: int)
    requires 0 <= i <= |nz| && i >= |nz| - 1
    ensures nz[..i] + Game2048.MergeLine(nz[i..]) == nz
  {
    if i < |nz| {
      assert Game2048.MergeLine(nz[i..][1..]) == [];
      assert nz[..i] + [nz[i]] == nz;
    } else {
      assert nz[..i] == nz;
    }
  }

  lemma {:induction false} NonZeroOfZeros(n: nat)
    ensures Game2048.NonZero(Game2048.Zeros(n)) == []
  {
    if n > 0 {
      assert Game2048.Zeros(n)[1..] == Game2048.Zeros(n - 1);
      NonZeroOfZeros(n - 1);
    }
  }

  /** Filtering a line of tiles padded with zeros gives the tiles back. */
  lemma {:induction false} NonZeroOfPadded(m: Game2048.Line, n: nat)
    requires forall i :: 0 <= i < |m| ==> m[i] != 0
    ensures Game2048.NonZero(m + Game2048.Zeros(n)) == m
  {
    if m == [] {
      assert m + Game2048.Zeros(n) == Game2048.Zeros(n);
      NonZeroOfZeros(n);
    } else {
      assert (m + Game2048.Zeros(n))[1..] == m[1..] + Game2048.Zeros(n);
      NonZeroOfPadded(m[1..], n);
    }
  }

  /** A row that merged a pair does not come out of the slide as it went in,
      so slideRow's merge flag adds nothing to its cell comparison. */
  lemma MergeMeansChange(line: Game2048.Line)
    requires |line| == Game2048.Width
    ensures Merges(line) ==> Game2048.Slide(line) != line
  {
    var m := Game2048.MergeLine(Game2048.NonZero(line));
    if Game2048.Slide(line) == line {
      Game2048.MergeOfNonZero(Game2048.NonZero(line));
      NonZeroOfPadded(m, Game2048.Width - |m|);
    }
  }

  // ---------------------------------------------------------------------
  // 2048: process2048Move

  /** One line of a move: the line in an array, reversed first when the move
      runs against it, through slideRow, and reversed back. */
  method SlideLine(line: Game2048.Line, turned: bool) returns (result: Game2048.Line, moved: bool)
    requires |line| == Game2048.Width
    ensures var l := if turned then Game2048.Reverse(line) else line;
      result == (if turned then Game2048.Reverse(Game2048.Slide(l)) else Game2048.Slide(l))
      && (moved <==> Game2048.Slide(l) != l)
  {
    var row := NewRow(line);
    if turned {
      ReverseRow(row);
    }
    moved := SlideRow(row);
    if turned {
      ReverseRow(row);
    }
    result := row[..];
  }

  /** The left and right loops: each row goes through slideRow, the right
      move reversing the row before and after. */
  method TiltRows(b: Game2048.Grid, dir: Game2048.Direction) returns (nb: Game2048.Grid, moved: bool)
    requires Game2048.IsGrid(b) && (dir == Game2048.Left || dir == Game2048.Right)
    ensures nb == Game2048.Shift(b, dir)
    ensures moved <==> nb != b
  {
    ghost var t := Game2048.Shift(b, dir);
    nb := b;
    moved := false;
    for i := 0 to Game2048.Width
      invariant Game2048.RowsDone(b, nb, t, i)
      invariant moved <==> Game2048.LineChanges(b, dir, i)
    {
      Game2048.RowPending(b, nb, t, i);
      Game2048.ShiftRow(b, dir, i);
      var row, lineMoved := SlideLine(nb[i], dir == Game2048.Right);
      assert lineMoved <==> Game2048.LineChanged(b, dir, i);
      moved := lineMoved || moved;
      Game2048.RowStep(b, nb, t, i, row);
      nb := nb[i := row];
      Game2048.LineChangesStep(b, dir, i);
    }
    Game2048.GridsEqual(nb, t);
    Game2048.ChangedRows(b, dir);
  }

  /** The up and down loops: each column is copied into a new array, goes
      through slideRow (reversed before and after for down) and is written
      back cell by cell. */
  method TiltColumns(b: Game2048.Grid, dir: Game2048.Direction) returns (nb: Game2048.Grid, moved: bool)
    requires Game2048.IsGrid(b) && (dir == Game2048.Up || dir == Game2048.Down)
    ensures nb == Game2048.Shift(b, dir)
    ensures moved <==> nb != b
  {
    ghost var t := Game2048.Shift(b, dir);
    nb := b;
    moved := false;
    for j := 0 to Game2048.Width
      invariant Game2048.ColumnsDone(b, nb, t, j, 0)
      invariant moved <==> Game2048.LineChanges(b, dir, j)
    {
      Game2048.ColumnPending(b, nb, t, j);
      var column := [nb[0][j], nb[1][j], nb[2][j], nb[3][j]];
      ColumnLiteral(nb, j, column);
      var col, lineMoved := SlideLine(column, dir == Game2048.Down);
      ColumnSlid(b, t, dir, j, col, lineMoved);
      moved := lineMoved || moved;
      var stored := StoreColumn(nb, j, col);
      ColumnStored(b, nb, stored, t, j, col);
      nb := stored;
      Game2048.LineChangesStep(b, dir, j);
    }
    Game2048.GridsEqual(nb, t);
    Game2048.ChangedColumns(b, dir);
  }

  /** The write-back loop of the up and down moves: row by row, the cell of
      column j takes the slid column's value. */
  method StoreColumn(g: Game2048.Grid, j: int, col: Game2048.Line) returns (ng: Game2048.Grid)
    requires Game2048.IsGrid(g) && 0 <= j < Game2048.Width && |col| == Game2048.Width
    ensures Game2048.IsGrid(ng)
    ensures forall r, c :: Game2048.InGrid(r, c) ==> ng[r][c] == if c == j then col[r] else g[r][c]
  {
    ng := g;
    for i := 0 to Game2048.Width
      invariant Game2048.IsGrid(ng)
      invariant forall r, c :: Game2048.InGrid(r, c) ==>
        ng[r][c] == if c == j && r < i then col[r] else g[r][c]
    {
      ng := Game2048.SetCell(ng, i, j, col[i]);
    }
  }

  lemma ColumnLiteral(g: Game2048.Grid, j: int, column: Game2048.Line)
    requires Game2048.IsGrid(g) && 0 <= j < Game2048.Width
    requires column == [g[0][j], g[1][j], g[2][j], g[3][j]]
    ensures column == Game2048.Column(g, j)
  {
  }

  /** What SlideLine returns for column j of a vertical move. */
  lemma ColumnSlid(b: Game2048.Grid, t: Game2048.Grid, dir: Game2048.Direction, j: int,
                   col: Game2048.Line, lineMoved: bool)
    requires Game2048.IsGrid(b) && (dir == Game2048.Up || dir == Game2048.Down) && 0 <= j < Game2048.Width
    requires t == Game2048.Shift(b, dir)
    requires var l := if dir == Game2048.Down then Game2048.Reverse(Game2048.Column(b, j)) else Game2048.Column(b, j);
      col == (if dir == Game2048.Down then Game2048.Reverse(Game2048.Slide(l)) else Game2048.Slide(l))
      && (lineMoved <==> Game2048.Slide(l) != l)
    ensures col == Game2048.Column(t, j)
    ensures lineMoved <==> Game2048.LineChanged(b, dir, j)
  {
    Game2048.ShiftColumn(b, dir, j);
  }

  lemma ColumnStored(b: Game2048.Grid, nb: Game2048.Grid, ng: Game2048.Grid, t: Game2048.Grid, j: int, col: Game2048.Line)
    requires Game2048.IsGrid(b) && Game2048.IsGrid(t) && Game2048.IsGrid(ng) && 0 <= j < Game2048.Width
    requires Game2048.ColumnsDone(b, nb, t, j, 0) && col == Game2048.Column(t, j)
    requires forall r, c :: Game2048.InGrid(r, c) ==> ng[r][c] == if c == j then col[r] else nb[r][c]
    ensures Game2048.ColumnsDone(b, ng, t, j + 1, 0)
  {
  }

  /** The direction branches of process2048Move; a direction other than the
      four runs no loop and moves nothing. */
  method TiltBoard(b: Game2048.Grid, dir: Game2048.Direction) returns (nb: Game2048.Grid, moved: bool)
    requires Game2048.IsGrid(b)
    ensures nb == Game2048.Shift(b, dir)
    ensures moved <==> nb != b
  {
    if dir == Game2048.Left || dir == Game2048.Right {
      nb, moved := TiltRows(b, dir);
    } else if dir == Game2048.Up || dir == Game2048.Down {
      nb, moved := TiltColumns(b, dir);
    } else {
      nb, moved := b, false;
      Game2048.GridsEqual(b, Game2048.Shift(b, dir));
    }
  }

  /** A cell canMove accepts nothing from: a tile, different from its right
      neighbour and from the one below. */
  predicate Blocked(b: Game2048.Grid, r: int, c: int)
    requires Game2048.IsGrid(b) && Game2048.InGrid(r, c)
  {
    && b[r][c] != 0
    && (c < Game2048.Width - 1 ==> b[r][c] != b[r][c + 1])
    && (r < Game2048.Width - 1 ==> !Game2048.SameBelow(b, r, c))
  }

  /** canMove: one row-major pass that stops at an empty cell or at a tile
      equal to its right or lower neighbour. */
  method CanMove(b: Game2048.Grid) returns (can: bool)
    requires Game2048.IsGrid(b)
    ensures can <==> !Game2048.Stuck(b)
  {
    for i := 0 to Game2048.Width
      invariant forall r, c :: 0 <= r < i && 0 <= c < Game2048.Width ==> Blocked(b, r, c)
    {
      for j := 0 to Game2048.Width
        invariant forall r, c :: 0 <= r < i && 0 <= c < Game2048.Width ==> Blocked(b, r, c)
        invariant forall c :: 0 <= c < j ==> Blocked(b, i, c)
      {
        if b[i][j] == 0 {
          return true;
        }
        if j < 3 && b[i][j] == b[i][j + 1] {
          return true;
        }
        if i < 3 && b[i][j] == b[i + 1][j] {
          assert Game2048.SameBelow(b, i, j);
          return true;
        }
      }
    }
    forall r, c | Game2048.InGrid(r, c)
      ensures b[r][c] != 0
      ensures c < Game2048.Width - 1 ==> b[r][c] != b[r][c + 1]
      ensures r < Game2048.Width - 1 ==> !Game2048.SameBelow(b, r, c)
    {
      assert Blocked(b, r, c);
    }
    return false;
  }

  /** The state process2048Move returns: when no line moved, the state as it
      was; otherwise the moved board with one new tile and gameOver set to
      whether that board is stuck. The score is never touched, and a game
      already over is not refused. */
  function Tilted(st: GameState, dir: Game2048.Direction, sp: Game2048.Spawn): GameState
    requires st.Setup2048? && Game2048.IsGrid(st.grid)
  {
    var shifted := Game2048.Shift(st.grid, dir);
    if shifted == st.grid then st
    else
      var board := Game2048.Spawned(shifted, sp);
      st.(grid := board, gameOver := Game2048.Stuck(board))
  }

  /** process2048Move on the 2048 state of a session (a Setup2048 value:
      the board, the score and gameOver that initGameState builds). */
  method Process2048Move(st: GameState, dir: Game2048.Direction, sp: Game2048.Spawn) returns (r: GameState)
    requires st.Setup2048? && Game2048.IsGrid(st.grid)
    ensures r == Tilted(st, dir, sp)
  {
    var board, moved := TiltBoard(st.grid, dir);
    r := st.(grid := board);
    if moved {
      board := Game2048.AddRandomTile(board, sp);
      var can := CanMove(board);
      r := r.(grid := board, gameOver := !can);
    }
  }

  /** process2048Move never changes the score; a move that changes the board
      adds exactly one tile of 2 or 4 in a cell the move left empty and adds
      its value to the board; a game it marks over has no move left, so a
      further move on it changes nothing. */
  lemma TiltedEffects(st: GameState, dir: Game2048.Direction, sp: Game2048.Spawn)
    requires st.Setup2048? && Game2048.IsGrid(st.grid)
    ensures var r := Tilted(st, dir, sp);
      var t := Game2048.Shift(st.grid, dir);
      r.Setup2048? && Game2048.IsGrid(r.grid) && r.score == st.score
      && (t == st.grid ==> r == st)
      && (t != st.grid ==>
            |Game2048.EmptyCells(t)| > 0
            && Game2048.Occupied(r.grid) == Game2048.Occupied(t) + {Game2048.SpawnCell(t, sp)}
            && Game2048.SpawnCell(t, sp) !in Game2048.Occupied(t)
            && Game2048.GridSum(r.grid) == Game2048.GridSum(st.grid) + Game2048.SpawnTile(sp))
      && (r.gameOver && r != st ==> forall d :: Game2048.Shift(r.grid, d) == r.grid)
  {
    var t := Game2048.Shift(st.grid, dir);
    if t != st.grid {
      var r := Tilted(st, dir, sp);
      Game2048.ChangedLeavesRoom(st.grid, dir);
      Game2048.SpawnOne(t, sp);
      Game2048.ShiftKeepsSum(st.grid, dir);
      Game2048.SpawnSum(t, sp);
      if r.gameOver {
        forall d ensures Game2048.Shift(r.grid, d) == r.grid {
          Game2048.StuckMeansNoMove(r.grid, d);
        }
      }
    }
  }

  /** On a game still running, process2048Move leaves the same board and the
      same gameOver as the engine's processMove, and keeps every tile a power
      of two; only the engine adds the merged tiles to the score. */
  lemma TiltedMatchesEngine(st: GameState, dir: Game2048.Direction, sp: Game2048.Spawn, won: bool)
    requires st.Setup2048? && Game2048.IsGrid(st.grid) && !st.gameOver
    ensures var r := Tilted(st, dir, sp);
      var e := Game2048.Play(Game2048.State(st.grid, st.score, false, won, false), dir, sp);
      r.grid == e.board && r.gameOver == e.gameOver && r.score == st.score
      && e.score == st.score + (if r.grid == st.grid then 0 else Game2048.ShiftScore(st.grid, dir))
      && (Game2048.AllTiles(st.grid) ==> Game2048.AllTiles(r.grid))
  {
    var s := Game2048.State(st.grid, st.score, false, won, false);
    if Game2048.AllTiles(st.grid) {
      Game2048.PlayKeepsTiles(s, dir, sp);
    }
    if Game2048.Shift(st.grid, dir) != st.grid {
      Game2048.PlaySpawnsOne(s, dir, sp);
    }
  }

  // ---------------------------------------------------------------------
  // Go: processGoMove with its single-stone capture rule

  /** The directions checkCaptures and hasLiberties try, in their order. */
  const Directions: seq<(int, int)> := [(0, 1), (1, 0), (0, -1), (-1, 0)]

  function Step(p: Point, d: int): Point
    requires 0 <= d < 4
  {
    (p.0 + Directions[d].0, p.1 + Directions[d].1)
  }

  /** q is one of p's four orthogonal neighbours. */
  predicate Adjacent(p: Point, q: Point) {
    (p.0 == q.0 && (q.1 == p.1 + 1 || q.1 == p.1 - 1))
    || (p.1 == q.1 && (q.0 == p.0 + 1 || q.0 == p.0 - 1))
  }

  /** hasLiberties: some in-bounds neighbour of this one stone is empty; the
      rest of its group is not looked at. */
  function HasLiberties(b: Board, p: Point): bool
    requires WellFormed(b)
  {
    Holds(b, Step(p, 0), Empty) || Holds(b, Step(p, 1), Empty)
    || Holds(b, Step(p, 2), Empty) || Holds(b, Step(p, 3), Empty)
  }

  /** hasLiberties asks of one stone what the engine's liberty test asks of
      each stone of a group. */
  lemma LibertiesAgree(b: Board, p: Point)
    requires WellFormed(b)
    ensures HasLiberties(b, p) <==> HasLibertyAt(b, p)
  {
    assert Step(p, 0) == Neighbours(p)[3] && Step(p, 1) == Neighbours(p)[1];
    assert Step(p, 2) == Neighbours(p)[2] && Step(p, 3) == Neighbours(p)[0];
  }

  /** A stone with an empty neighbour lies in a group with a liberty, so a
      stone of a group without liberties fails hasLiberties. */
  lemma LonelyLibertyIsGroupLiberty(b: Board, q: Point, c: Color)
    requires WellFormed(b) && Holds(b, q, Stone(c)) && HasLiberties(b, q)
    ensures GroupHasLiberty(b, Component(b, Stone(c), q))
  {
    LibertiesAgree(b, q);
    ConnectedSelf(b, Stone(c), q);
    InAllPoints(q);
    assert q in Component(b, Stone(c), q);
  }

  /** removeGroup: only the stone at p comes off the board. */
  function RemoveGroup(b: Board, p: Point): (r: Board)
    requires WellFormed(b) && InBounds(p)
    ensures WellFormed(r)
  {
    Put(b, p, Empty)
  }

  /** Despite its name, removeGroup leaves every other stone of the group in
      place. */
  lemma RemoveGroupLeavesGroup(b: Board, p: Point, q: Point)
    requires WellFormed(b) && InBounds(p) && At(b, p).Stone?
    requires q in Component(b, At(b, p), p) && q != p
    ensures Holds(RemoveGroup(b, p), q, At(b, p))
  {
    ConnectedEnds(b, At(b, p), p, q);
  }

  /** checkCaptures takes the neighbour n of the stone at p when n holds an
      opposing stone that fails hasLiberties. */
  predicate Takes(b: Board, p: Point, n: Point)
    requires WellFormed(b) && InBounds(p) && At(b, p).Stone?
  {
    Holds(b, n, Stone(Opponent(At(b, p).color))) && !HasLiberties(b, n)
  }

  /** The stones taken in the first k directions, judged on the board as it
      was before any of them came off. */
  function TakenUpTo(b: Board, p: Point, k: nat): set<Point>
    requires WellFormed(b) && InBounds(p) && At(b, p).Stone? && k <= 4
  {
    if k == 0 then {}
    else TakenUpTo(b, p, k - 1) + if Takes(b, p, Step(p, k - 1)) then {Step(p, k - 1)} else {}
  }

  function Taken(b: Board, p: Point): set<Point>
    requires WellFormed(b) && InBounds(p) && At(b, p).Stone?
  {
    TakenUpTo(b, p, 4)
  }

  /** Each step moves to a neighbour, changing the coordinate sum by one. */
  lemma StepParity(p: Point, d: int)
    requires 0 <= d < 4
    ensures Adjacent(p, Step(p, d))
    ensures Step(p, d).0 + Step(p, d).1 == p.0 + p.1 + (if d < 2 then 1 else -1)
  {
  }

  lemma StepsDistinct(p: Point, e: int, d: int)
    requires 0 <= e < 4 && 0 <= d < 4 && e != d
    ensures Step(p, e) != Step(p, d)
  {
  }

  /** q is adjacent to p exactly when it is one of the four steps from p. */
  lemma AdjacentIsStep(p: Point, q: Point)
    ensures Adjacent(p, q) <==> q == Step(p, 0) || q == Step(p, 1) || q == Step(p, 2) || q == Step(p, 3)
  {
    assert Step(p, 0) == (p.0, p.1 + 1) && Step(p, 1) == (p.0 + 1, p.1);
    assert Step(p, 2) == (p.0, p.1 - 1) && Step(p, 3) == (p.0 - 1, p.1);
  }

  /** The stones taken in the first k directions are exactly the steps
      among those k that checkCaptures takes. */
  lemma {:induction false} TakenWithin(b: Board, p: Point, k: nat)
    requires WellFormed(b) && InBounds(p) && At(b, p).Stone? && k <= 4
    ensures forall q :: q in TakenUpTo(b, p, k) ==> Takes(b, p, q) && exists e :: 0 <= e < k && q == Step(p, e)
    ensures forall e :: 0 <= e < k && Takes(b, p, Step(p, e)) ==> Step(p, e) in TakenUpTo(b, p, k)
  {
    if k > 0 {
      TakenWithin(b, p, k - 1);
    }
  }

  /** The stones checkCaptures takes are exactly the neighbours of the move
      that hold an opposing stone without an empty neighbour of their own. */
  lemma TakenAreLonelyNeighbours(b: Board, p: Point)
    requires WellFormed(b) && InBounds(p) && At(b, p).Stone?
    ensures forall n :: n in Taken(b, p) <==> Adjacent(p, n) && Takes(b, p, n)
  {
    TakenWithin(b, p, 4);
    forall n ensures n in Taken(b, p) <==> Adjacent(p, n) && Takes(b, p, n) {
      if n in Taken(b, p) {
        var e :| 0 <= e < 4 && n == Step(p, e);
        StepParity(p, e);
      }
      AdjacentIsStep(p, n);
    }
  }

  /** Whatever the engine would capture next to the move, the legacy rule
      takes at least the neighbouring stone of it. */
  lemma DeadNeighbourTaken(b: Board, p: Point, q: Point)
    requires WellFormed(b) && InBounds(p) && At(b, p).Stone?
    requires Adjacent(p, q) && GoCapture.Dead(b, Opponent(At(b, p).color), q)
    ensures q in Taken(b, p)
  {
    if HasLiberties(b, q) {
      LonelyLibertyIsGroupLiberty(b, q, Opponent(At(b, p).color));
    }
    TakenAreLonelyNeighbours(b, p);
  }

  /** A stone taken before direction d is neither the move, nor the point
      looked at in direction d, nor any neighbour of that point. */
  lemma Untouched(b0: Board, p: Point, d: int, q: Point)
    requires WellFormed(b0) && InBounds(p) && At(b0, p).Stone? && 0 <= d < 4
    requires q in TakenUpTo(b0, p, d)
    ensures q != p && q != Step(p, d)
    ensures forall f :: 0 <= f < 4 ==> q != Step(Step(p, d), f)
  {
    TakenWithin(b0, p, d);
    var e :| 0 <= e < d && q == Step(p, e);
    StepParity(p, e);
    StepParity(p, d);
    StepsDistinct(p, e, d);
    forall f | 0 <= f < 4 ensures q != Step(Step(p, d), f) {
      StepParity(Step(p, d), f);
    }
  }

  /** Before direction d, the board differs from b0 only at stones taken in
      earlier directions, none of which is the point looked at now, its
      neighbours or the move itself. */
  lemma CaptureLook(b0: Board, p: Point, d: int, b: Board)
    requires WellFormed(b0) && InBounds(p) && At(b0, p).Stone? && 0 <= d < 4
    requires b == Clear(b0, TakenUpTo(b0, p, d))
    ensures Step(p, d) !in TakenUpTo(b0, p, d)
    ensures At(b, p) == At(b0, p)
    ensures InBounds(Step(p, d)) ==> At(b, Step(p, d)) == At(b0, Step(p, d))
    ensures HasLiberties(b, Step(p, d)) <==> HasLiberties(b0, Step(p, d))
  {
    var n := Step(p, d);
    forall q | q in TakenUpTo(b0, p, d)
      ensures q != p && q != n && q != Step(n, 0) && q != Step(n, 1) && q != Step(n, 2) && q != Step(n, 3)
    {
      Untouched(b0, p, d, q);
    }
  }

  /** Taking one more stone is emptying one more point. */
  lemma ClearOneMore(b0: Board, s: set<Point>, n: Point)
    requires WellFormed(b0) && InBounds(n)
    ensures Clear(b0, s + {n}) == RemoveGroup(Clear(b0, s), n)
  {
    BoardsEqual(Clear(b0, s + {n}), RemoveGroup(Clear(b0, s), n));
  }

  /** A direction in which checkCaptures takes the stone: removing it keeps
      the board equal to b0 with the stones taken so far cleared, the move's
      own stone stays, and the count goes up by one. */
  lemma CaptureTake(b0: Board, c0: GoGame.Captures, p: Point, d: int, b: Board, c: GoGame.Captures)
    requires WellFormed(b0) && InBounds(p) && At(b0, p).Stone? && 0 <= d < 4
    requires b == Clear(b0, TakenUpTo(b0, p, d))
    requires c == c0.Add(At(b0, p).color, |TakenUpTo(b0, p, d)|)
    requires InBounds(Step(p, d)) && At(b, Step(p, d)) == Stone(Opponent(At(b0, p).color))
    requires !HasLiberties(b, Step(p, d))
    ensures RemoveGroup(b, Step(p, d)) == Clear(b0, TakenUpTo(b0, p, d + 1))
    ensures At(RemoveGroup(b, Step(p, d)), p) == At(b0, p)
    ensures c.Add(At(b0, p).color, 1) == c0.Add(At(b0, p).color, |TakenUpTo(b0, p, d + 1)|)
  {
    var n := Step(p, d);
    var taken := TakenUpTo(b0, p, d);
    CaptureLook(b0, p, d, b);
    assert Takes(b0, p, n);
    TakenGrows(b0, p, d);
    StepParity(p, d);
    RemoveKeepsOther(b, n, p);
    ClearOneMore(b0, taken, n);
    AddOne(c0, At(b0, p).color, |taken|);
  }

  /** A direction whose stone is taken adds exactly that stone. */
  lemma TakenGrows(b0: Board, p: Point, d: nat)
    requires WellFormed(b0) && InBounds(p) && At(b0, p).Stone? && d < 4
    requires Takes(b0, p, Step(p, d)) && Step(p, d) !in TakenUpTo(b0, p, d)
    ensures TakenUpTo(b0, p, d + 1) == TakenUpTo(b0, p, d) + {Step(p, d)}
    ensures |TakenUpTo(b0, p, d + 1)| == |TakenUpTo(b0, p, d)| + 1
  {
  }

  /** Removing one stone leaves every other point as it was. */
  lemma RemoveKeepsOther(b: Board, n: Point, q: Point)
    requires WellFormed(b) && InBounds(n) && InBounds(q) && n != q
    ensures At(RemoveGroup(b, n), q) == At(b, q)
  {
  }

  /** A direction in which checkCaptures takes nothing. */
  lemma CaptureSkip(b0: Board, p: Point, d: int, b: Board)
    requires WellFormed(b0) && InBounds(p) && At(b0, p).Stone? && 0 <= d < 4
    requires b == Clear(b0, TakenUpTo(b0, p, d))
    requires !(InBounds(Step(p, d)) && At(b, Step(p, d)) == Stone(Opponent(At(b0, p).color))
               && !HasLiberties(b, Step(p, d)))
    ensures TakenUpTo(b0, p, d + 1) == TakenUpTo(b0, p, d)
  {
    CaptureLook(b0, p, d, b);
    assert !Takes(b0, p, Step(p, d));
  }

  lemma AddOne(c: GoGame.Captures, m: Color, k: nat)
    ensures c.Add(m, k).Add(m, 1) == c.Add(m, k + 1)
  {
  }

  /** checkCaptures: in each of the four directions, an opposing stone with
      no empty neighbour comes off and the mover's capture count goes up by
      one. */
  method CheckCaptures(b0: Board, captures0: GoGame.Captures, p: Point)
    returns (b: Board, captures: GoGame.Captures)
    requires WellFormed(b0) && InBounds(p) && At(b0, p).Stone?
    ensures b == Clear(b0, Taken(b0, p))
    ensures captures == captures0.Add(At(b0, p).color, |Taken(b0, p)|)
  {
    var opponent := if At(b0, p) == Stone(Black) then White else Black;
    assert opponent == Opponent(At(b0, p).color);
    b, captures := b0, captures0;
    ClearNothing(b0);
    for d := 0 to 4
      invariant b == Clear(b0, TakenUpTo(b0, p, d))
      invariant captures == captures0.Add(At(b0, p).color, |TakenUpTo(b0, p, d)|)
    {
      var n := Step(p, d);
      if InBounds(n) && At(b, n) == Stone(opponent) {
        if !HasLiberties(b, n) {
          CaptureTake(b0, captures0, p, d, b, captures);
          b := RemoveGroup(b, n);
          captures := captures.Add(At(b, p).color, 1);
        } else {
          CaptureSkip(b0, p, d, b);
        }
      } else {
        CaptureSkip(b0, p, d, b);
      }
    }
  }

  lemma ClearNothing(b: Board)
    requires WellFormed(b)
    ensures Clear(b, {}) == b
  {
    BoardsEqual(Clear(b, {}), b);
  }

  /** The result of processGoMove on the Go state of a session. A row off
      the board makes the source throw (board[row] is undefined); a column
      off the board or an occupied point leaves the state as it is;
      otherwise the mover's stone goes down, the turn passes, the move is
      recorded and checkCaptures runs on the new board. */
  function GoPlay(st: GameState, m: GoMove): Option<GameState>
    requires st.GoSetup? && WellFormed(st.board)
  {
    if !(0 <= m.row < Size) then None
    else if !(0 <= m.col < Size) || At(st.board, (m.row, m.col)) != Empty then Some(st)
    else
      var p := (m.row, m.col);
      var placed := Put(st.board, p, Stone(st.currentTurn));
      var taken := Taken(placed, p);
      Some(st.(board := Clear(placed, taken), currentTurn := Opponent(st.currentTurn),
               moveHistory := st.moveHistory + [m],
               captures := st.captures.Add(st.currentTurn, |taken|)))
  }

  /** processGoMove: the shallow copy of the state, updated in place. */
  method ProcessGoMove(st: GameState, m: GoMove) returns (r: Option<GameState>)
    requires st.GoSetup? && WellFormed(st.board)
    ensures r == GoPlay(st, m)
  {
    if !(0 <= m.row < Size) {
      return None;
    }
    if !(0 <= m.col < Size) || At(st.board, (m.row, m.col)) != Empty {
      return Some(st);
    }
    var p := (m.row, m.col);
    var board := Put(st.board, p, Stone(st.currentTurn));
    var turn := if st.currentTurn == Black then White else Black;
    var history := st.moveHistory + [m];
    var captures;
    board, captures := CheckCaptures(board, st.captures, p);
    r := Some(st.(board := board, currentTurn := turn, moveHistory := history, captures := captures));
  }

  /** What a legacy Go move does: on an empty point the mover's stone stays,
      each neighbouring opposing stone without an empty neighbour comes off
      (one stone each, not its group), every other point keeps its stone,
      the mover's captures grow by the number taken, the turn passes and the
      move is recorded. It never ends the game or names a winner. */
  lemma GoPlayEffects(st: GameState, m: GoMove)
    requires st.GoSetup? && WellFormed(st.board)
    requires 0 <= m.row < Size && 0 <= m.col < Size && At(st.board, (m.row, m.col)) == Empty
    ensures var p := (m.row, m.col);
      var placed := Put(st.board, p, Stone(st.currentTurn));
      var opp := Opponent(st.currentTurn);
      var r := GoPlay(st, m).value;
      && WellFormed(r.board)
      && At(r.board, p) == Stone(st.currentTurn)
      && (forall q :: InBounds(q) && q != p ==>
            At(r.board, q) == if Adjacent(p, q) && At(st.board, q) == Stone(opp) && !HasLiberties(placed, q)
                              then Empty else At(st.board, q))
      && r.captures.Of(st.currentTurn) == st.captures.Of(st.currentTurn) + |Taken(placed, p)|
      && r.captures.Of(opp) == st.captures.Of(opp)
      && |Taken(placed, p)| <= 4
      && r.currentTurn == opp && r.moveHistory == st.moveHistory + [m]
      && r.ended == st.ended && r.winner == st.winner
  {
    var p := (m.row, m.col);
    var placed := Put(st.board, p, Stone(st.currentTurn));
    TakenAreLonelyNeighbours(placed, p);
    TakenWithin(placed, p, 4);
    TakenAtMostFour(placed, p);
  }

  lemma TakenAtMostFour(b: Board, p: Point)
    requires WellFormed(b) && InBounds(p) && At(b, p).Stone?
    ensures |Taken(b, p)| <= 4
  {
    TakenWithin(b, p, 4);
    assert Taken(b, p) <= {Step(p, 0), Step(p, 1), Step(p, 2), Step(p, 3)};
    SubsetSize(Taken(b, p), {Step(p, 0), Step(p, 1), Step(p, 2), Step(p, 3)});
  }

  lemma SubsetSize(a: set<Point>, b: set<Point>)
    requires a <= b
    ensures |a| <= |b|
  {
    assert b == a + (b - a);
  }

  // ---------------------------------------------------------------------
  // checkGameEnd and the outcome mapping of handleGameEnd

  /** What checkGameEnd reports: the winner field (a colour name, 'draw', or
      missing) or the final 2048 score. */
  datatype GameResult = Decided(winner: Option<string>) | Scored(score: nat)

  function ColorName(c: Color): string {
    if c == Black then "black" else "white"
  }

  function OutcomeName(o: GoGame.Outcome): string {
    match o
    case Win(c) => ColorName(c)
    case Draw => "draw"
  }

  function OutcomeNames(o: Option<GoGame.Outcome>): Option<string> {
    if o.Some? then Some(OutcomeName(o.value)) else None
  }

  /** checkGameEnd: chess ends on checkmate with the engine's winner and on
      stalemate or a draw with 'draw'; Go ends when `ended` is set; 2048
      ends on gameOver with the score; any other game type never ends. A
      state without the field looked at (another game's state) reads it as
      unset. */
  function CheckGameEnd(gameType: GameType, state: GameState): (r: Option<GameResult>)
    ensures gameType.Unknown? ==> r == None
    ensures r.Some? && r.value.Scored? <==> gameType == Twenty48 && r.Some?
    ensures gameType == Chess && r.Some? ==> state.ChessState? && (state.checkmate || state.stalemate || state.draw)
    ensures gameType == Chess && state.ChessState? && state.checkmate ==> r == Some(Decided(state.chessWinner))
    ensures gameType == Chess && state.ChessState? && !state.checkmate && (state.stalemate || state.draw) ==>
      r == Some(Decided(Some("draw")))
    ensures gameType == Go && state.GoSetup? ==>
      (r.Some? <==> state.ended) && (state.ended ==> r == Some(Decided(OutcomeNames(state.winner))))
    ensures gameType == Go && state.GoPlaying? ==>
      (r.Some? <==> state.go.ended) && (state.go.ended ==> r == Some(Decided(OutcomeNames(state.go.winner))))
    ensures gameType == Twenty48 && state.Setup2048? ==>
      (r.Some? <==> state.gameOver) && (state.gameOver ==> r == Some(Scored(state.score)))
    ensures gameType == Twenty48 && state.Playing2048? ==>
      (r.Some? <==> state.game.gameOver) && (state.game.gameOver ==> r == Some(Scored(state.game.score)))
  {
    match gameType
    case Chess =>
      if state.ChessState? && state.checkmate then Some(Decided(state.chessWinner))
      else if state.ChessState? && (state.stalemate || state.draw) then Some(Decided(Some("draw")))
      else None
    case Go =>
      if state.GoSetup? && state.ended then Some(Decided(OutcomeNames(state.winner)))
      else if state.GoPlaying? && state.go.ended then Some(Decided(OutcomeNames(state.go.winner)))
      else None
    case Twenty48 =>
      if state.Setup2048? && state.gameOver then Some(Scored(state.score))
      else if state.Playing2048? && state.game.gameOver then Some(Scored(state.game.score))
      else None
    case Unknown(_) => None
  }

  /** A Go game played only through the legacy processGoMove never ends:
      the start state is not ended and no move sets `ended`. */
  lemma LegacyGoNeverEnds(st: GameState, m: GoMove)
    requires st.GoSetup? && WellFormed(st.board) && !st.ended
    ensures CheckGameEnd(Go, st) == None
    ensures GoPlay(st, m).Some? ==> GoPlay(st, m).value.GoSetup? && CheckGameEnd(Go, GoPlay(st, m).value) == None
  {
    if 0 <= m.row < Size && 0 <= m.col < Size && At(st.board, (m.row, m.col)) == Empty {
      GoPlayEffects(st, m);
    }
  }

  /** What handleGameEnd computes before updating the ratings. */
  datatype EloResult = AWins | BWins | Drawn

  /** The entry db.updateEloRating records for a player. */
  datatype Standing = Won | Lost | Tied

  /** The standing of player 1 (first) or player 2 under a result. */
  function StandingOf(e: EloResult, first: bool): Standing {
    if first then (if e == AWins then Won else if e == BWins then Lost else Tied)
    else (if e == BWins then Won else if e == AWins then Lost else Tied)
  }

  /** The two entries mirror each other: one player wins exactly when the
      other loses, and a draw is a draw for both. */
  lemma StandingsMirror(e: EloResult)
    ensures StandingOf(e, true) == Won <==> StandingOf(e, false) == Lost
    ensures StandingOf(e, true) == Lost <==> StandingOf(e, false) == Won
    ensures StandingOf(e, true) == Tied <==> StandingOf(e, false) == Tied
    ensures StandingOf(e, true) == Won <==> e == AWins
    ensures StandingOf(e, true) == Lost <==> e == BWins
  {
  }

  /** The comparison handleGameEnd makes: player 1 wins when the result's
      winner equals player 1's id, player 2 when it equals player 2's id. */
  function OutcomeAsWritten(winner: Option<string>, first: Player, second: Player): EloResult {
    if winner == Some(first.id) then AWins
    else if winner == Some(second.id) then BWins
    else Drawn
  }

  /** The colour the first player of a session plays: White at chess, Black
      at Go, as the chess and Go boards of the client assign them. */
  function FirstPlayerColor(gameType: GameType): Color {
    if gameType == Chess then White else Black
  }

  /** The mapping the comparison is meant to make: the winner is named by
      colour, and the colour says which player won. */
  function Outcome(gameType: GameType, winner: Option<string>): EloResult {
    if winner == Some(ColorName(FirstPlayerColor(gameType))) then AWins
    else if winner == Some(ColorName(Opponent(FirstPlayerColor(gameType)))) then BWins
    else Drawn
  }

  /** What handleGameEnd records: a high score for the first player of a
      2048 session, or rating entries for the two players of any other. */
  datatype Record = HighScore(holder: Player, score: nat)
                  | Ratings(first: Player, firstStanding: Standing, second: Player, secondStanding: Standing)

  function WinnerOf(result: GameResult): Option<string> {
    if result.Decided? then result.winner else None
  }

  /** handleGameEnd with a given result mapping. A 2048 session without a
      score, or a two-player game with fewer than two players (where the
      source reads the id of a missing player and throws), records
      nothing. */
  function RecordWith(session: Session, result: GameResult, e: EloResult): Option<Record> {
    if session.gameType == Twenty48 then
      if |session.players| > 0 && result.Scored? then Some(HighScore(session.players[0], result.score))
      else None
    else if |session.players| >= 2 then
      Some(Ratings(session.players[0], StandingOf(e, true), session.players[1], StandingOf(e, false)))
    else None
  }

  /** handleGameEnd as written: the winner compared with the player ids. */
  function RecordAsWritten(session: Session, result: GameResult): Option<Record> {
    var e := if |session.players| >= 2
             then OutcomeAsWritten(WinnerOf(result), session.players[0], session.players[1])
             else Drawn;
    RecordWith(session, result, e)
  }

  /** handleGameEnd with the winner read as a colour. */
  function EndRecord(session: Session, result: GameResult): Option<Record> {
    RecordWith(session, result, Outcome(session.gameType, WinnerOf(result)))
  }

  /** An id the server hands out on registration: 'player_' followed by the
      clock and a random suffix. */
  predicate IsPlayerId(id: string) {
    |id| >= 7 && id[..7] == "player_"
  }

  /** A winner field checkGameEnd can report: a colour, 'draw' or none. */
  predicate IsWinnerName(w: Option<string>) {
    w == None || w == Some("white") || w == Some("black") || w == Some("draw")
  }

  /** As written, no result checkGameEnd can produce ever names a player id,
      so every finished chess or Go game is recorded as a draw for both. */
  lemma AsWrittenAlwaysDraws(session: Session, result: GameResult)
    requires session.gameType != Twenty48 && |session.players| >= 2
    requires IsPlayerId(session.players[0].id) && IsPlayerId(session.players[1].id)
    requires IsWinnerName(WinnerOf(result))
    ensures RecordAsWritten(session, result)
      == Some(Ratings(session.players[0], Tied, session.players[1], Tied))
  {
    var w := WinnerOf(result);
    assert w != Some(session.players[0].id) by {
      if w.Some? {
        assert |w.value| < 7;
      }
    }
    assert w != Some(session.players[1].id) by {
      if w.Some? {
        assert |w.value| < 7;
      }
    }
  }

  /** A checkmate by White: recorded as a draw as written, as a win for the
      first player (who plays White) and a loss for the second as meant. */
  lemma CheckmateRecordedAsDraw()
    ensures var alice := Player("player_1_a", "Alice", Human);
      var bob := Player("player_2_b", "Bob", Human);
      var session := Session("s", Chess, Pvp, [alice, bob], NoState, 0);
      var result := Decided(Some("white"));
      RecordAsWritten(session, result) == Some(Ratings(alice, Tied, bob, Tied))
      && EndRecord(session, result) == Some(Ratings(alice, Won, bob, Lost))
  {
    var alice := Player("player_1_a", "Alice", Human);
    var bob := Player("player_2_b", "Bob", Human);
    var session := Session("s", Chess, Pvp, [alice, bob], NoState, 0);
    AsWrittenAlwaysDraws(session, Decided(Some("white")));
  }

  /** With the winner read as a colour, the player of the winning colour is
      recorded as the winner and the other as the loser; a drawn or
      undecided result is a draw for both. */
  lemma EndRecordNamesWinner(session: Session, result: GameResult)
    requires (session.gameType == Chess || session.gameType == Go) && |session.players| >= 2
    requires IsWinnerName(WinnerOf(result))
    ensures var rec := EndRecord(session, result);
      rec.Some? && rec.value.Ratings?
      && rec.value.first == session.players[0] && rec.value.second == session.players[1]
      && (forall c :: WinnerOf(result) == Some(ColorName(c)) ==>
            (rec.value.firstStanding == Won <==> c == FirstPlayerColor(session.gameType))
            && (rec.value.secondStanding == Won <==> c != FirstPlayerColor(session.gameType))
            && (rec.value.firstStanding == Lost <==> rec.value.secondStanding == Won))
      && (WinnerOf(result) == None || WinnerOf(result) == Some("draw") ==>
            rec.value.firstStanding == Tied && rec.value.secondStanding == Tied)
  {
    var e := Outcome(session.gameType, WinnerOf(result));
    StandingsMirror(e);
    forall c | WinnerOf(result) == Some(ColorName(c))
      ensures e == (if c == FirstPlayerColor(session.gameType) then AWins else BWins)
    {
      assert ColorName(Black) != ColorName(White);
    }
    assert "draw" != ColorName(Black) && "draw" != ColorName(White);
  }

  /** The move handler after processMove: checkGameEnd, then handleGameEnd
      on a finished game. */
  function Settle(session: Session, state: GameState): Option<Record> {
    var result := CheckGameEnd(session.gameType, state);
    if result.Some? then EndRecord(session, result.value) else None
  }

  /** A chess checkmate whose winner chess.js names by colour settles as a
      win for the player of that colour and a loss for the other. */
  lemma CheckmateSettles(session: Session, state: GameState, c: Color)
    requires session.gameType == Chess && |session.players| >= 2
    requires state.ChessState? && state.checkmate && state.chessWinner == Some(ColorName(c))
    ensures Settle(session, state)
      == Some(Ratings(session.players[0], if c == White then Won else Lost,
                      session.players[1], if c == White then Lost else Won))
  {
    EndRecordNamesWinner(session, Decided(Some(ColorName(c))));
  }

  // ---------------------------------------------------------------------
  // processMove

  /** A move as a client sends it: a point for Go, a direction for 2048, or
      a chess move for the chess engine. */
  datatype Move = GoPlace(place: GoMove)
                | Tilt(direction: Game2048.Direction)
                | ChessMove(from: string, to: string, promotion: Option<string>)

  /** processChessMove: chess.js's new state for a legal move and the state
      itself otherwise. Its rules are not part of this model. */
  type ChessEngine = (GameState, Move) -> GameState

  /** The state processMove returns (None where the source throws): the
      game type picks the helper; an unknown game type returns the state
      unchanged. A Go move with no point throws; a 2048 move with no known
      direction moves nothing. */
  function Moved(gameType: GameType, state: GameState, move: Move, chess: ChessEngine, sp: Game2048.Spawn)
    : (r: Option<GameState>)
    ensures gameType.Unknown? ==> r == Some(state)
    ensures gameType == Chess ==> r == Some(chess(state, move))
    ensures gameType == Twenty48 && r.Some? ==>
      state.Setup2048? && r.value.Setup2048? && r.value.score == state.score
  {
    match gameType
    case Chess => Some(chess(state, move))
    case Go =>
      if state.GoSetup? && WellFormed(state.board) && move.GoPlace? then GoPlay(state, move.place)
      else None
    case Twenty48 =>
      if state.Setup2048? && Game2048.IsGrid(state.grid) then
        Some(Tilted(state, if move.Tilt? then move.direction else Game2048.Unrecognised, sp))
      else None
    case Unknown(_) => Some(state)
  }

  /** processMove: dispatch on the game type. */
  method ProcessMove(gameType: GameType, state: GameState, move: Move, chess: ChessEngine, sp: Game2048.Spawn)
    returns (r: Option<GameState>)
    ensures r == Moved(gameType, state, move, chess, sp)
  {
    match gameType
    case Chess =>
      r := Some(chess(state, move));
    case Go =>
      if state.GoSetup? && WellFormed(state.board) && move.GoPlace? {
        r := ProcessGoMove(state, move.place);
      } else {
        r := None;
      }
    case Twenty48 =>
      if state.Setup2048? && Game2048.IsGrid(state.grid) {
        var next := Process2048Move(state, if move.Tilt? then move.direction else Game2048.Unrecognised, sp);
        r := Some(next);
      } else {
        r := None;
      }
    case Unknown(_) =>
      r := Some(state);
  }
}
