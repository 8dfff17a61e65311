// The 2048 engine of src/lib/games/2048.ts: the single-pass left slide with
// merging, the four board moves built from it, the tile spawn (its random
// choices passed in as a Spawn), and the won and game-over scans.

module Game2048 {

  import opened Types

  const Width: int := 4

  /** The tile value every game is after. */
  const Goal: nat := 2048

  type Line = seq<nat>

  /** A board: Width rows of Width tiles, 0 for an empty cell. */
  type Grid = seq<seq<nat>>

  predicate IsGrid(b: Grid) {
    |b| == Width && forall r :: 0 <= r < Width ==> |b[r]| == Width
  }

  /** The direction of a move; a client may send any other string. */
  datatype Direction = Left | Right | Up | Down | Unrecognised

  /** The two random choices of addRandomTile: an index into the list of empty
      cells (reduced modulo its length) and whether the new tile is a 4. */
  datatype Spawn = Spawn(pick: nat, four: bool)

  datatype State = State(board: Grid, score: nat, gameOver: bool, won: bool, moved: bool)

  /** What checkGameEnd reports for a finished game. */
  datatype GameEnd = GameEnd(score: nat, won: bool)

  // ---------------------------------------------------------------------
  // One line

  function Sum(line: Line): nat {
    if line == [] then 0 else line[0] + Sum(line[1..])
  }

  /** The line's tiles other than 0, in order. */
  function NonZero(line: Line): (r: Line)
    ensures |r| <= |line|
    ensures forall i :: 0 <= i < |r| ==> r[i] != 0
  {
    if line == [] then [] else (if line[0] != 0 then [line[0]] else []) + NonZero(line[1..])
  }

  /** The merging scan: from the front, two equal neighbours become one tile
      of twice the value, and a merged tile does not merge again. */
  function MergeLine(nz: Line): (r: Line)
    ensures |r| <= |nz|
  {
    if |nz| == 0 then []
    else if |nz| >= 2 && nz[0] == nz[1] then [nz[0] * 2] + MergeLine(nz[2..])
    else [nz[0]] + MergeLine(nz[1..])
  }

  /** The points a scan gains: the sum of the merged tiles. */
  function MergeScore(nz: Line): nat {
    if |nz| == 0 then 0
    else if |nz| >= 2 && nz[0] == nz[1] then nz[0] * 2 + MergeScore(nz[2..])
    else MergeScore(nz[1..])
  }

  function Zeros(n: nat): (r: Line)
    ensures |r| == n && forall i :: 0 <= i < n ==> r[i] == 0
  {
    seq(n, i => 0)
  }

  /** The line slideAndMerge returns. */
  function Slide(line: Line): (r: Line)
    requires |line| <= Width
    ensures |r| == Width
  {
    var m := MergeLine(NonZero(line));
    m + Zeros(Width - |m|)
  }

  function SlideScore(line: Line): nat {
    MergeScore(NonZero(line))
  }

  function Reverse(line: Line): (r: Line)
    ensures |r| == |line|
  {
    seq(|line|, i requires 0 <= i < |line| => line[|line| - 1 - i])
  }

  /** slideAndMerge: filter the zeros out, scan with merging, pad with zeros,
      and report whether the line changed. */
  method SlideAndMerge(line: Line) returns (result: Line, score: nat, moved: bool)
    requires |line| == Width
    ensures result == Slide(line) && score == SlideScore(line)
    ensures moved <==> result != line
    ensures moved <==> exists i :: 0 <= i < Width && result[i] != line[i]
  {
    var nonZero := NonZero(line);
    var merged: Line := [];
    score := 0;
    var i := 0;
    while i < |nonZero|
      invariant 0 <= i <= |nonZero|
      invariant merged + MergeLine(nonZero[i..]) == MergeLine(nonZero)
      invariant score + MergeScore(nonZero[i..]) == MergeScore(nonZero)
    {
      if i + 1 < |nonZero| && nonZero[i] == nonZero[i + 1] {
        MergePair(nonZero, i);
        Regroup(merged, nonZero[i] * 2, MergeLine(nonZero[i + 2..]));
        merged := merged + [nonZero[i] * 2];
        score := score + nonZero[i] * 2;
        i := i + 2;
      } else {
        MergeSingle(nonZero, i);
        Regroup(merged, nonZero[i], MergeLine(nonZero[i + 1..]));
        merged := merged + [nonZero[i]];
        i := i + 1;
      }
    }
    assert nonZero[i..] == [];
    ghost var m := merged;
    assert m == MergeLine(nonZero);
    while |merged| < Width
      invariant |m| <= |merged| <= Width
      invariant forall k :: 0 <= k < |m| ==> merged[k] == m[k]
      invariant forall k :: |m| <= k < |merged| ==> merged[k] == 0
    {
      merged := merged + [0];
    }
    result := merged;
    Padded(m, result);
    moved := result != line;
  }

  /** A line that starts with m and continues with zeros up to Width is m
      padded as slideAndMerge pads it. */
  lemma Padded(m: Line, padded: Line)
    requires |m| <= |padded| == Width
    requires forall k :: 0 <= k < |m| ==> padded[k] == m[k]
    requires forall k :: |m| <= k < |padded| ==> padded[k] == 0
    ensures padded == m + Zeros(Width - |m|)
  {
  }

  lemma Regroup(done: Line, x: nat, rest: Line)
    ensures (done + [x]) + rest == done + ([x] + rest)
  {
  }

  /** A step of the scan at position i that merges two tiles. */
  lemma MergePair(nz: Line, i: nat)
    requires i + 1 < |nz| && nz[i] == nz[i + 1]
    ensures MergeLine(nz[i..]) == [nz[i] * 2] + MergeLine(nz[i + 2..])
    ensures MergeScore(nz[i..]) == nz[i] * 2 + MergeScore(nz[i + 2..])
  {
    assert nz[i..][2..] == nz[i + 2..];
  }

  /** A step of the scan at position i that keeps one tile. */
  lemma MergeSingle(nz: Line, i: nat)
    requires i < |nz| && !(i + 1 < |nz| && nz[i] == nz[i + 1])
    ensures MergeLine(nz[i..]) == [nz[i]] + MergeLine(nz[i + 1..])
    ensures MergeScore(nz[i..]) == MergeScore(nz[i + 1..])
  {
    assert nz[i..][1..] == nz[i + 1..];
  }

  // ---------------------------------------------------------------------
  // Properties of one line

  lemma {:induction false} SumAppend(a: Line, b: Line)
    ensures Sum(a + b) == Sum(a) + Sum(b)
  {
    if a == [] {
      assert a + b == b;
    } else {
      assert (a + b)[1..] == a[1..] + b;
      SumAppend(a[1..], b);
    }
  }

  lemma {:induction false} SumZeros(n: nat)
    ensures Sum(Zeros(n)) == 0
  {
    if n > 0 {
      assert Zeros(n)[1..] == Zeros(n - 1);
      SumZeros(n - 1);
    }
  }

  lemma {:induction false} SumNonZero(line: Line)
    ensures Sum(NonZero(line)) == Sum(line)
  {
    if line != [] {
      SumNonZero(line[1..]);
      SumAppend(if line[0] != 0 then [line[0]] else [], NonZero(line[1..]));
    }
  }

  lemma {:induction false} SumMerge(nz: Line)
    ensures Sum(MergeLine(nz)) == Sum(nz)
    ensures MergeScore(nz) <= Sum(nz)
  {
    if |nz| >= 2 && nz[0] == nz[1] {
      SumMerge(nz[2..]);
      assert nz[1..][1..] == nz[2..];
    } else if |nz| > 0 {
      SumMerge(nz[1..]);
    }
  }

  /** A slide neither creates nor destroys value, and gains at most the value
      already on the line. */
  lemma {:induction false} SlideKeepsSum(line: Line)
    requires |line| <= Width
    ensures Sum(Slide(line)) == Sum(line)
    ensures SlideScore(line) <= Sum(line)
  {
    var nz := NonZero(line);
    var m := MergeLine(nz);
    assert Slide(line) == m + Zeros(Width - |m|);
    SumPadded(m, Width - |m|);
    SumMerge(nz);
    SumNonZero(line);
  }

  lemma SumPadded(m: Line, n: nat)
    ensures Sum(m + Zeros(n)) == Sum(m)
  {
    SumAppend(m, Zeros(n));
    SumZeros(n);
  }

  lemma {:induction false} MergeOfNonZero(nz: Line)
    requires forall i :: 0 <= i < |nz| ==> nz[i] != 0
    ensures forall i :: 0 <= i < |MergeLine(nz)| ==> MergeLine(nz)[i] != 0
  {
    if |nz| >= 2 && nz[0] == nz[1] {
      MergeOfNonZero(nz[2..]);
    } else if |nz| > 0 {
      MergeOfNonZero(nz[1..]);
    }
  }

  /** The slid line is packed: no tile follows an empty cell. */
  lemma SlidePacked(line: Line)
    requires |line| <= Width
    ensures forall i, j :: 0 <= i < j < Width && Slide(line)[i] == 0 ==> Slide(line)[j] == 0
  {
    var m := MergeLine(NonZero(line));
    MergeOfNonZero(NonZero(line));
    assert forall i :: 0 <= i < |m| ==> Slide(line)[i] == m[i] != 0;
  }

  /** Each tile merges at most once per scan: every output tile is made of
      at most two input tiles, so the scan keeps at least half of them. */
  lemma {:induction false} MergeAtMostOnce(nz: Line)
    ensures 2 * |MergeLine(nz)| >= |nz|
  {
    if |nz| >= 2 && nz[0] == nz[1] {
      MergeAtMostOnce(nz[2..]);
    } else if |nz| > 0 {
      MergeAtMostOnce(nz[1..]);
    }
  }

  /** Each tile merges at most once: four equal tiles make two, not one. */
  lemma FourTwos()
    ensures Slide([2, 2, 2, 2]) == [4, 4, 0, 0] && SlideScore([2, 2, 2, 2]) == 8
  {
    assert NonZero([2, 2, 2, 2]) == [2, 2, 2, 2];
    assert [2, 2, 2, 2][2..] == [2, 2];
    assert MergeLine([2, 2]) == [4];
    assert MergeLine([2, 2, 2, 2]) == [4, 4];
  }

  /** A scan that merges nothing returns its input. */
  lemma {:induction false} MergeKeepsLength(nz: Line)
    requires |MergeLine(nz)| == |nz|
    ensures MergeLine(nz) == nz
  {
    if |nz| > 0 && !(|nz| >= 2 && nz[0] == nz[1]) {
      MergeKeepsLength(nz[1..]);
      assert nz == [nz[0]] + nz[1..];
    }
  }

  /** A line without zeros keeps all its tiles. */
  lemma {:induction false} NonZeroOfFull(line: Line)
    requires forall i :: 0 <= i < |line| ==> line[i] != 0
    ensures NonZero(line) == line
  {
    if line != [] {
      NonZeroOfFull(line[1..]);
      assert line == [line[0]] + line[1..];
    }
  }

  /** A filter that keeps every tile saw no zero. */
  lemma {:induction false} FullHasNoZero(line: Line)
    requires |NonZero(line)| == |line|
    ensures forall i :: 0 <= i < |line| ==> line[i] != 0
  {
    if line != [] {
      FullHasNoZero(line[1..]);
      assert forall i :: 1 <= i < |line| ==> line[i] == line[1..][i - 1];
    }
  }

  /** When nothing is filtered out or merged, the slide is the identity. */
  lemma FullSlideIsIdentity(line: Line)
    requires |line| == Width && |MergeLine(NonZero(line))| == Width
    ensures Slide(line) == line
  {
    FullHasNoZero(line);
    NonZeroOfFull(line);
    MergeKeepsLength(line);
    assert Zeros(0) == [];
  }

  /** A line that changes under a slide ends in an empty cell, so the move
      leaves room for the new tile. */
  lemma MovedLineHasZero(line: Line)
    requires |line| == Width
    ensures Slide(line) != line ==> Slide(line)[Width - 1] == 0
  {
    if |MergeLine(NonZero(line))| == Width {
      FullSlideIsIdentity(line);
    }
  }

  /** A full line with no equal neighbours does not change. */
  lemma {:induction false} MergeOfDistinct(nz: Line)
    requires forall i :: 0 <= i < |nz| - 1 ==> nz[i] != nz[i + 1]
    ensures MergeLine(nz) == nz
  {
    if |nz| > 0 {
      MergeOfDistinct(nz[1..]);
      assert nz == [nz[0]] + nz[1..];
    }
  }

  lemma StuckLine(line: Line)
    requires |line| == Width
    requires forall i :: 0 <= i < Width ==> line[i] != 0
    requires forall i :: 0 <= i < Width - 1 ==> line[i] != line[i + 1]
    ensures Slide(line) == line
    ensures Slide(Reverse(line)) == Reverse(line)
  {
    NonZeroOfFull(line);
    MergeOfDistinct(line);
    var rev := Reverse(line);
    NonZeroOfFull(rev);
    forall i | 0 <= i < Width - 1 ensures rev[i] != rev[i + 1] {
      assert rev[i] == line[Width - 1 - i] && rev[i + 1] == line[Width - 2 - i];
    }
    MergeOfDistinct(rev);
  }

  // ---------------------------------------------------------------------
  // Powers of two

  predicate PowerOfTwo(n: nat) {
    n == 1 || (n >= 2 && n % 2 == 0 && PowerOfTwo(n / 2))
  }

  /** Every tile is empty or a power of two. */
  predicate Tiles(line: Line) {
    forall i :: 0 <= i < |line| ==> line[i] == 0 || PowerOfTwo(line[i])
  }

  lemma {:induction false} NonZeroTiles(line: Line)
    requires Tiles(line)
    ensures Tiles(NonZero(line))
  {
    if line != [] {
      NonZeroTiles(line[1..]);
    }
  }

  lemma PowerDouble(n: nat)
    requires PowerOfTwo(n)
    ensures PowerOfTwo(n * 2)
  {
    assert n * 2 / 2 == n;
  }

  lemma {:induction false} MergeTiles(nz: Line)
    requires Tiles(nz)
    ensures Tiles(MergeLine(nz))
  {
    if |nz| >= 2 && nz[0] == nz[1] {
      MergeTiles(nz[2..]);
      if nz[0] != 0 {
        PowerDouble(nz[0]);
      }
    } else if |nz| > 0 {
      MergeTiles(nz[1..]);
    }
  }

  lemma SlideTiles(line: Line)
    requires |line| <= Width && Tiles(line)
    ensures Tiles(Slide(line))
  {
    NonZeroTiles(line);
    MergeTiles(NonZero(line));
  }

  // ---------------------------------------------------------------------
  // Boards

  predicate InGrid(r: int, c: int) {
    0 <= r < Width && 0 <= c < Width
  }

  function EmptyGrid(): (g: Grid)
    ensures IsGrid(g) && forall r, c :: InGrid(r, c) ==> g[r][c] == 0
  {
    seq(Width, r => Zeros(Width))
  }

  /** The board with the tile at (r, c) set to v. */
  function SetCell(b: Grid, r: int, c: int, v: nat): (g: Grid)
    requires IsGrid(b) && InGrid(r, c)
    ensures IsGrid(g) && g[r][c] == v
    ensures forall i, j :: InGrid(i, j) && (i, j) != (r, c) ==> g[i][j] == b[i][j]
  {
    var line: Line := b[r][c := v];
    b[r := line]
  }

  function Column(b: Grid, c: int): (line: Line)
    requires IsGrid(b) && 0 <= c < Width
    ensures |line| == Width && forall k :: 0 <= k < Width ==> line[k] == b[k][c]
  {
    seq(Width, k requires 0 <= k < Width => b[k][c])
  }

  /** The line processMove hands to slideAndMerge as its k-th line: row k for
      left, row k reversed for right, column k for up, column k reversed for
      down. */
  function LineOf(b: Grid, dir: Direction, k: int): (line: Line)
    requires IsGrid(b) && 0 <= k < Width
    ensures |line| == Width
  {
    match dir
    case Left => b[k]
    case Right => Reverse(b[k])
    case Up => Column(b, k)
    case Down => Reverse(Column(b, k))
    case Unrecognised => b[k]
  }

  /** The tile at (r, c) after the move: the slid row or column, turned back
      for right and down. */
  function MovedTile(b: Grid, dir: Direction, r: int, c: int): nat
    requires IsGrid(b) && InGrid(r, c)
  {
    match dir
    case Left => Slide(b[r])[c]
    case Right => Reverse(Slide(Reverse(b[r])))[c]
    case Up => Slide(Column(b, c))[r]
    case Down => Reverse(Slide(Reverse(Column(b, c))))[r]
    case Unrecognised => b[r][c]
  }

  function Shift(b: Grid, dir: Direction): (g: Grid)
    requires IsGrid(b)
    ensures IsGrid(g) && forall r, c :: InGrid(r, c) ==> g[r][c] == MovedTile(b, dir, r, c)
  {
    seq(Width, r requires 0 <= r < Width =>
      seq(Width, c requires 0 <= c < Width => MovedTile(b, dir, r, c)))
  }

  /** The points gained by the first k lines of a move. */
  function LinesScore(b: Grid, dir: Direction, k: int): nat
    requires IsGrid(b) && 0 <= k <= Width
  {
    if k == 0 then 0 else LinesScore(b, dir, k - 1) + SlideScore(LineOf(b, dir, k - 1))
  }

  function ShiftScore(b: Grid, dir: Direction): nat
    requires IsGrid(b)
  {
    if dir == Unrecognised then 0 else LinesScore(b, dir, Width)
  }

  /** Line k of the move changes under its slide. */
  predicate LineChanged(b: Grid, dir: Direction, k: int)
    requires IsGrid(b) && 0 <= k < Width
  {
    Slide(LineOf(b, dir, k)) != LineOf(b, dir, k)
  }

  /** One of the first k lines of the move changes under its slide. */
  ghost predicate LineChanges(b: Grid, dir: Direction, k: int)
    requires IsGrid(b) && 0 <= k <= Width
  {
    exists j :: 0 <= j < k && LineChanged(b, dir, j)
  }

  lemma LineChangesStep(b: Grid, dir: Direction, k: int)
    requires IsGrid(b) && 0 <= k < Width
    ensures LineChanges(b, dir, k + 1) <==> LineChanges(b, dir, k) || LineChanged(b, dir, k)
  {
    if LineChanges(b, dir, k + 1) {
      var j :| 0 <= j < k + 1 && LineChanged(b, dir, j);
      assert j < k ==> LineChanges(b, dir, k);
    }
  }

  /** A row of a horizontal move is its line slid, turned back for right. */
  lemma ShiftRow(b: Grid, dir: Direction, row: int)
    requires IsGrid(b) && (dir == Left || dir == Right) && 0 <= row < Width
    ensures Shift(b, dir)[row] == if dir == Left then Slide(LineOf(b, dir, row))
                                  else Reverse(Slide(LineOf(b, dir, row)))
  {
  }

  /** A column of a vertical move is its line slid, turned back for down. */
  lemma ShiftColumn(b: Grid, dir: Direction, col: int)
    requires IsGrid(b) && (dir == Up || dir == Down) && 0 <= col < Width
    ensures Column(Shift(b, dir), col) == if dir == Up then Slide(LineOf(b, dir, col))
                                          else Reverse(Slide(LineOf(b, dir, col)))
  {
  }

  /** The rows before row hold the target t, the others are untouched. */
  ghost predicate RowsDone(b: Grid, nb: Grid, t: Grid, row: int)
    requires IsGrid(b) && IsGrid(t)
  {
    IsGrid(nb) && forall r, c :: InGrid(r, c) ==>
      nb[r][c] == if r < row then t[r][c] else b[r][c]
  }

  /** The columns before col hold the target t, and so do the first row
      cells of column col; the others are untouched. */
  ghost predicate ColumnsDone(b: Grid, nb: Grid, t: Grid, col: int, row: int)
    requires IsGrid(b) && IsGrid(t)
  {
    IsGrid(nb) && forall r, c :: InGrid(r, c) ==>
      nb[r][c] == if c < col || (c == col && r < row) then t[r][c] else b[r][c]
  }

  lemma RowPending(b: Grid, nb: Grid, t: Grid, row: int)
    requires IsGrid(b) && IsGrid(t) && 0 <= row < Width && RowsDone(b, nb, t, row)
    ensures nb[row] == b[row]
  {
    assert forall c :: 0 <= c < Width ==> nb[row][c] == b[row][c];
  }

  lemma RowStep(b: Grid, nb: Grid, t: Grid, row: int, line: Line)
    requires IsGrid(b) && IsGrid(t) && 0 <= row < Width && RowsDone(b, nb, t, row)
    requires line == t[row]
    ensures RowsDone(b, nb[row := line], t, row + 1)
  {
  }

  lemma ColumnPending(b: Grid, nb: Grid, t: Grid, col: int)
    requires IsGrid(b) && IsGrid(t) && 0 <= col < Width && ColumnsDone(b, nb, t, col, 0)
    ensures Column(nb, col) == Column(b, col)
  {
  }

  lemma CellStep(b: Grid, nb: Grid, t: Grid, col: int, row: int, v: nat)
    requires IsGrid(b) && IsGrid(t) && 0 <= col < Width && 0 <= row < Width
    requires ColumnsDone(b, nb, t, col, row) && v == t[row][col]
    ensures ColumnsDone(b, SetCell(nb, row, col, v), t, col, row + 1)
  {
  }

  lemma ColumnFinished(b: Grid, nb: Grid, t: Grid, col: int)
    requires IsGrid(b) && IsGrid(t) && 0 <= col < Width && ColumnsDone(b, nb, t, col, Width)
    ensures ColumnsDone(b, nb, t, col + 1, 0)
  {
  }

  lemma GridsEqual(a: Grid, b: Grid)
    requires IsGrid(a) && IsGrid(b)
    requires forall r, c :: InGrid(r, c) ==> a[r][c] == b[r][c]
    ensures a == b
  {
    forall r | 0 <= r < Width ensures a[r] == b[r] {
      assert forall c :: 0 <= c < Width ==> a[r][c] == b[r][c];
    }
  }

  lemma ReverseTwice(line: Line)
    ensures Reverse(Reverse(line)) == line
  {
  }

  /** The slide of a line, turned back or not, equals the untouched line
      exactly when the slide leaves the line alone. */
  lemma SlideBack(line: Line, back: Line, turned: bool)
    requires |line| == Width
    requires back == if turned then Reverse(line) else line
    ensures (if turned then Reverse(Slide(line)) else Slide(line)) == back <==> Slide(line) == line
  {
    if turned {
      ReverseTwice(line);
      ReverseTwice(Slide(line));
    }
  }

  /** A horizontal move changes the board exactly when one of its rows
      changes under its slide. */
  lemma ChangedRows(b: Grid, dir: Direction)
    requires IsGrid(b) && (dir == Left || dir == Right)
    ensures LineChanges(b, dir, Width) <==> Shift(b, dir) != b
  {
    var t := Shift(b, dir);
    forall r | 0 <= r < Width ensures t[r] == b[r] <==> !LineChanged(b, dir, r) {
      ShiftRow(b, dir, r);
      SlideBack(LineOf(b, dir, r), b[r], dir == Right);
    }
    if t != b {
      var r :| 0 <= r < Width && t[r] != b[r];
      assert LineChanged(b, dir, r);
    }
  }

  /** A vertical move changes the board exactly when one of its columns
      changes under its slide. */
  lemma ChangedColumns(b: Grid, dir: Direction)
    requires IsGrid(b) && (dir == Up || dir == Down)
    ensures LineChanges(b, dir, Width) <==> Shift(b, dir) != b
  {
    var t := Shift(b, dir);
    forall c | 0 <= c < Width ensures Column(t, c) == Column(b, c) <==> !LineChanged(b, dir, c) {
      ShiftColumn(b, dir, c);
      SlideBack(LineOf(b, dir, c), Column(b, c), dir == Down);
    }
    if t != b {
      if forall c :: 0 <= c < Width ==> Column(t, c) == Column(b, c) {
        forall r, c | InGrid(r, c) ensures t[r][c] == b[r][c] {
          assert Column(t, c)[r] == Column(b, c)[r];
        }
        GridsEqual(t, b);
      }
      var c :| 0 <= c < Width && Column(t, c) != Column(b, c);
      assert LineChanged(b, dir, c);
    } else {
      forall c | 0 <= c < Width ensures !LineChanged(b, dir, c) {
        assert Column(t, c) == Column(b, c);
      }
    }
  }

  /** The four direction loops of processMove, on the deep copy of the board:
      each line goes through slideAndMerge, its points are added up, and the
      board has moved if any line has. A direction other than the four
      leaves the board alone. */
  method ShiftBoard(b: Grid, dir: Direction) returns (nb: Grid, gained: nat, moved: bool)
    requires IsGrid(b)
    ensures nb == Shift(b, dir) && gained == ShiftScore(b, dir)
    ensures moved <==> nb != b
  {
    if dir == Left || dir == Right {
      nb, gained, moved := ShiftRows(b, dir);
    } else if dir == Up || dir == Down {
      nb, gained, moved := ShiftColumns(b, dir);
    } else {
      nb, gained, moved := b, 0, false;
      GridsEqual(b, Shift(b, dir));
    }
  }

  /** The left and right loops: row by row, the right move reversing the row
      before the slide and after it. */
  method ShiftRows(b: Grid, dir: Direction) returns (nb: Grid, gained: nat, moved: bool)
    requires IsGrid(b) && (dir == Left || dir == Right)
    ensures nb == Shift(b, dir) && gained == ShiftScore(b, dir)
    ensures moved <==> nb != b
  {
    ghost var t := Shift(b, dir);
    nb := b;
    gained := 0;
    moved := false;
    for row := 0 to Width
      invariant RowsDone(b, nb, t, row)
      invariant gained == LinesScore(b, dir, row)
      invariant moved <==> LineChanges(b, dir, row)
    {
      RowPending(b, nb, t, row);
      ShiftRow(b, dir, row);
      var line, score, lineMoved;
      if dir == Left {
        line, score, lineMoved := SlideAndMerge(nb[row]);
      } else {
        var reversed := Reverse(nb[row]);
        line, score, lineMoved := SlideAndMerge(reversed);
        line := Reverse(line);
      }
      assert score == SlideScore(LineOf(b, dir, row));
      assert LinesScore(b, dir, row + 1) == LinesScore(b, dir, row) + score;
      assert lineMoved <==> LineChanged(b, dir, row);
      RowStep(b, nb, t, row, line);
      nb := nb[row := line];
      gained := gained + score;
      LineChangesStep(b, dir, row);
      if lineMoved {
        moved := true;
      }
    }
    GridsEqual(nb, t);
    ChangedRows(b, dir);
  }

  /** The up and down loops: column by column, the down move reversing the
      column before the slide and after it, the result written back cell by
      cell. */
  method ShiftColumns(b: Grid, dir: Direction) returns (nb: Grid, gained: nat, moved: bool)
    requires IsGrid(b) && (dir == Up || dir == Down)
    ensures nb == Shift(b, dir) && gained == ShiftScore(b, dir)
    ensures moved <==> nb != b
  {
    ghost var t := Shift(b, dir);
    nb := b;
    gained := 0;
    moved := false;
    for col := 0 to Width
      invariant ColumnsDone(b, nb, t, col, 0)
      invariant gained == LinesScore(b, dir, col)
      invariant moved <==> LineChanges(b, dir, col)
    {
      ColumnPending(b, nb, t, col);
      ShiftColumn(b, dir, col);
      var column := Column(nb, col);
      var finalColumn, score, lineMoved;
      if dir == Up {
        assert column == LineOf(b, dir, col);
        finalColumn, score, lineMoved := SlideAndMerge(column);
      } else {
        var reversed := Reverse(column);
        assert reversed == LineOf(b, dir, col);
        finalColumn, score, lineMoved := SlideAndMerge(reversed);
        finalColumn := Reverse(finalColumn);
      }
      assert score == SlideScore(LineOf(b, dir, col));
      assert LinesScore(b, dir, col + 1) == LinesScore(b, dir, col) + score;
      assert lineMoved <==> LineChanged(b, dir, col);
      assert finalColumn == Column(t, col);
      for row := 0 to Width
        invariant ColumnsDone(b, nb, t, col, row)
      {
        CellStep(b, nb, t, col, row, finalColumn[row]);
        nb := SetCell(nb, row, col, finalColumn[row]);
      }
      ColumnFinished(b, nb, t, col);
      gained := gained + score;
      LineChangesStep(b, dir, col);
      if lineMoved {
        moved := true;
      }
    }
    GridsEqual(nb, t);
    ChangedColumns(b, dir);
  }

  // ---------------------------------------------------------------------
  // Spawning a tile

  /** The empty cells of row `row` before column `col`, left to right. */
  function RowEmpties(b: Grid, row: int, col: int): (cells: seq<(int, int)>)
    requires IsGrid(b) && 0 <= row < Width && 0 <= col <= Width
    ensures forall p :: p in cells <==> p.0 == row && 0 <= p.1 < col && b[row][p.1] == 0
  {
    if col == 0 then []
    else RowEmpties(b, row, col - 1) + (if b[row][col - 1] == 0 then [(row, col - 1)] else [])
  }

  /** The empty cells of the rows before `row`, in row-major order. */
  function EmptiesBefore(b: Grid, row: int): (cells: seq<(int, int)>)
    requires IsGrid(b) && 0 <= row <= Width
    ensures forall p :: p in cells <==> 0 <= p.0 < row && 0 <= p.1 < Width && b[p.0][p.1] == 0
  {
    if row == 0 then [] else EmptiesBefore(b, row - 1) + RowEmpties(b, row - 1, Width)
  }

  /** The list addRandomTile collects: every empty cell, in row-major order. */
  function EmptyCells(b: Grid): (cells: seq<(int, int)>)
    requires IsGrid(b)
    ensures forall p :: p in cells <==> InGrid(p.0, p.1) && b[p.0][p.1] == 0
  {
    EmptiesBefore(b, Width)
  }

  function SpawnTile(sp: Spawn): nat {
    if sp.four then 4 else 2
  }

  /** The cell addRandomTile picks: the pick-th empty cell, counting round. */
  function SpawnCell(b: Grid, sp: Spawn): (p: (int, int))
    requires IsGrid(b) && |EmptyCells(b)| > 0
    ensures InGrid(p.0, p.1) && b[p.0][p.1] == 0
  {
    var cells := EmptyCells(b);
    assert cells[sp.pick % |cells|] in cells;
    cells[sp.pick % |cells|]
  }

  /** The board after addRandomTile: the picked empty cell gets the new tile;
      a full board is left alone. */
  function Spawned(b: Grid, sp: Spawn): (g: Grid)
    requires IsGrid(b)
    ensures IsGrid(g)
  {
    if |EmptyCells(b)| == 0 then b
    else
      var p := SpawnCell(b, sp);
      SetCell(b, p.0, p.1, SpawnTile(sp))
  }

  /** addRandomTile: collect the empty cells row by row, then fill the picked
      one with a 2 or a 4. */
  method AddRandomTile(b: Grid, sp: Spawn) returns (nb: Grid)
    requires IsGrid(b)
    ensures nb == Spawned(b, sp)
  {
    var emptyCells: seq<(int, int)> := [];
    for row := 0 to Width
      invariant emptyCells == EmptiesBefore(b, row)
    {
      for col := 0 to Width
        invariant emptyCells == EmptiesBefore(b, row) + RowEmpties(b, row, col)
      {
        if b[row][col] == 0 {
          emptyCells := emptyCells + [(row, col)];
        }
      }
    }
    nb := b;
    if |emptyCells| > 0 {
      var cell := emptyCells[sp.pick % |emptyCells|];
      nb := SetCell(b, cell.0, cell.1, SpawnTile(sp));
    }
  }

  /** The occupied cells of a board. */
  function Occupied(b: Grid): set<(int, int)>
    requires IsGrid(b)
  {
    set r, c | 0 <= r < Width && 0 <= c < Width && b[r][c] != 0 :: (r, c)
  }

  /** A spawn on a board with room occupies exactly one more cell, with a 2
      or a 4, and changes no other cell; on a full board it does nothing. */
  lemma SpawnOne(b: Grid, sp: Spawn)
    requires IsGrid(b)
    ensures |EmptyCells(b)| == 0 ==> Spawned(b, sp) == b
    ensures |EmptyCells(b)| > 0 ==>
      var p := SpawnCell(b, sp);
      p !in Occupied(b) && Occupied(Spawned(b, sp)) == Occupied(b) + {p}
      && Spawned(b, sp)[p.0][p.1] == SpawnTile(sp)
      && forall r, c :: InGrid(r, c) && (r, c) != p ==> Spawned(b, sp)[r][c] == b[r][c]
  {
    if |EmptyCells(b)| > 0 {
      var p := SpawnCell(b, sp);
      var g := Spawned(b, sp);
      forall q | q in Occupied(g) ensures q in Occupied(b) + {p} {
        assert q != p ==> g[q.0][q.1] == b[q.0][q.1];
      }
      forall q | q in Occupied(b) + {p} ensures q in Occupied(g) {
        assert q != p ==> g[q.0][q.1] == b[q.0][q.1];
      }
    }
  }

  // ---------------------------------------------------------------------
  // Won and game over

  predicate HasTile(b: Grid, v: nat)
    requires IsGrid(b)
  {
    exists r, c :: 0 <= r < Width && 0 <= c < Width && b[r][c] == v
  }

  /** No cell is empty. */
  predicate Full(b: Grid)
    requires IsGrid(b)
  {
    forall r, c :: 0 <= r < Width && 0 <= c < Width ==> b[r][c] != 0
  }

  /** No two horizontal neighbours are equal. */
  predicate NoRowPair(b: Grid)
    requires IsGrid(b)
  {
    forall r, c :: 0 <= r < Width && 0 <= c < Width - 1 ==> b[r][c] != b[r][c + 1]
  }

  /** The tile at (r, c) equals the one below it. */
  predicate SameBelow(b: Grid, r: int, c: int)
    requires IsGrid(b) && 0 <= r < Width - 1 && 0 <= c < Width
  {
    b[r][c] == b[r + 1][c]
  }

  /** No two vertical neighbours are equal. */
  predicate NoColumnPair(b: Grid)
    requires IsGrid(b)
  {
    forall r, c :: 0 <= r < Width - 1 && 0 <= c < Width ==> !SameBelow(b, r, c)
  }

  predicate Stuck(b: Grid)
    requires IsGrid(b)
  {
    Full(b) && NoRowPair(b) && NoColumnPair(b)
  }

  /** hasWon: scan the board for the goal tile. */
  method HasWon(b: Grid) returns (won: bool)
    requires IsGrid(b)
    ensures won <==> HasTile(b, Goal)
  {
    for row := 0 to Width
      invariant forall r, c :: 0 <= r < row && 0 <= c < Width ==> b[r][c] != Goal
    {
      for col := 0 to Width
        invariant forall c :: 0 <= c < col ==> b[row][c] != Goal
      {
        if b[row][col] == Goal {
          return true;
        }
      }
    }
    return false;
  }

  /** isGameOver: no empty cell, then no equal horizontal neighbours, then no
      equal vertical neighbours. */
  method IsGameOver(b: Grid) returns (over: bool)
    requires IsGrid(b)
    ensures over <==> Stuck(b)
  {
    for row := 0 to Width
      invariant forall r, c :: 0 <= r < row && 0 <= c < Width ==> b[r][c] != 0
    {
      for col := 0 to Width
        invariant forall c :: 0 <= c < col ==> b[row][c] != 0
      {
        if b[row][col] == 0 {
          return false;
        }
      }
    }
    for row := 0 to Width
      invariant forall r, c :: 0 <= r < row && 0 <= c < Width - 1 ==> b[r][c] != b[r][c + 1]
    {
      for col := 0 to Width - 1
        invariant forall c :: 0 <= c < col ==> b[row][c] != b[row][c + 1]
      {
        if b[row][col] == b[row][col + 1] {
          return false;
        }
      }
    }
    for col := 0 to Width
      invariant forall r, c :: 0 <= r < Width - 1 && 0 <= c < col ==> !SameBelow(b, r, c)
    {
      for row := 0 to Width - 1
        invariant forall r :: 0 <= r < row ==> !SameBelow(b, r, col)
      {
        if b[row][col] == b[row + 1][col] {
          assert SameBelow(b, row, col);
          return false;
        }
      }
    }
    return true;
  }

  /** A board isGameOver reports is one no move changes. */
  lemma StuckMeansNoMove(b: Grid, dir: Direction)
    requires IsGrid(b) && Stuck(b)
    ensures Shift(b, dir) == b
  {
    if dir == Left || dir == Right {
      forall r | 0 <= r < Width ensures !LineChanged(b, dir, r) {
        StuckLine(b[r]);
      }
      ChangedRows(b, dir);
    } else if dir == Up || dir == Down {
      forall c | 0 <= c < Width ensures !LineChanged(b, dir, c) {
        var column := Column(b, c);
        forall i | 0 <= i < Width - 1 ensures column[i] != column[i + 1] {
          assert !SameBelow(b, i, c);
        }
        StuckLine(column);
      }
      ChangedColumns(b, dir);
    } else {
      GridsEqual(b, Shift(b, dir));
    }
  }

  // ---------------------------------------------------------------------
  // The game

  /** The state processMove returns: a finished game and a move that changes
      nothing return the state itself; otherwise the shifted board gets a new
      tile, the score grows by the merged tiles, `won` stays set once set,
      and the game is over when the new board is stuck. */
  function Play(s: State, dir: Direction, sp: Spawn): State
    requires IsGrid(s.board)
  {
    if s.gameOver then s
    else
      var shifted := Shift(s.board, dir);
      if shifted == s.board then s
      else
        var board := Spawned(shifted, sp);
        State(board, s.score + ShiftScore(s.board, dir), Stuck(board),
              s.won || HasTile(board, Goal), true)
  }

  method ProcessMove(s: State, dir: Direction, sp: Spawn) returns (r: State)
    requires IsGrid(s.board)
    ensures IsGrid(r.board)
    ensures r == Play(s, dir, sp)
  {
    if s.gameOver {
      return s;
    }
    var newBoard, scoreGained, moved := ShiftBoard(s.board, dir);
    if !moved {
      return s;
    }
    newBoard := AddRandomTile(newBoard, sp);
    var newScore := s.score + scoreGained;
    var hasWon := HasWon(newBoard);
    var won := s.won || hasWon;
    var gameOver := IsGameOver(newBoard);
    r := State(newBoard, newScore, gameOver, won, true);
  }

  /** checkGameEnd: the final score and whether the goal was reached, once
      the game is over. */
  function CheckGameEnd(s: State): (r: Option<GameEnd>)
    ensures r.Some? <==> s.gameOver
    ensures r.Some? ==> r.value.score == s.score && r.value.won == s.won
  {
    if s.gameOver then Some(GameEnd(s.score, s.won)) else None
  }

  /** The board a game starts from: two tiles spawned on an empty board,
      hence exactly two tiles, each a 2 or a 4. */
  function StartGrid(first: Spawn, second: Spawn): (g: Grid)
    ensures IsGrid(g)
  {
    Spawned(Spawned(EmptyGrid(), first), second)
  }

  /** createInitialState: an empty board with two tiles spawned on it. */
  method CreateInitialState(first: Spawn, second: Spawn) returns (s: State)
    ensures IsGrid(s.board)
    ensures s == State(StartGrid(first, second), 0, false, false, false)
  {
    var board := EmptyGrid();
    board := AddRandomTile(board, first);
    board := AddRandomTile(board, second);
    s := State(board, 0, false, false, false);
  }

  // ---------------------------------------------------------------------
  // What a move keeps

  /** The value on the board: the sum of its row sums. */
  function GridSum(b: Grid): nat
    requires IsGrid(b)
  {
    Sum(b[0]) + Sum(b[1]) + Sum(b[2]) + Sum(b[3])
  }

  lemma SumOfFour(line: Line)
    requires |line| == Width
    ensures Sum(line) == line[0] + line[1] + line[2] + line[3]
  {
    var l1 := line[1..];
    var l2 := l1[1..];
    var l3 := l2[1..];
    assert l3[1..] == [];
    assert Sum(l3) == line[3];
    assert Sum(l2) == line[2] + line[3];
    assert Sum(l1) == line[1] + line[2] + line[3];
  }

  lemma LinesScoreOfFour(b: Grid, dir: Direction)
    requires IsGrid(b)
    ensures LinesScore(b, dir, Width) == SlideScore(LineOf(b, dir, 0)) + SlideScore(LineOf(b, dir, 1))
      + SlideScore(LineOf(b, dir, 2)) + SlideScore(LineOf(b, dir, 3))
  {
    assert LinesScore(b, dir, 1) == SlideScore(LineOf(b, dir, 0));
    assert LinesScore(b, dir, 2) == LinesScore(b, dir, 1) + SlideScore(LineOf(b, dir, 1));
    assert LinesScore(b, dir, 3) == LinesScore(b, dir, 2) + SlideScore(LineOf(b, dir, 2));
  }

  lemma SumReverse(line: Line)
    requires |line| == Width
    ensures Sum(Reverse(line)) == Sum(line)
  {
    SumOfFour(line);
    SumOfFour(Reverse(line));
  }

  /** The board's value read column by column. */
  lemma GridSumByColumns(b: Grid)
    requires IsGrid(b)
    ensures GridSum(b) == Sum(Column(b, 0)) + Sum(Column(b, 1)) + Sum(Column(b, 2)) + Sum(Column(b, 3))
  {
    SumOfFour(b[0]); SumOfFour(b[1]); SumOfFour(b[2]); SumOfFour(b[3]);
    SumOfFour(Column(b, 0)); SumOfFour(Column(b, 1));
    SumOfFour(Column(b, 2)); SumOfFour(Column(b, 3));
  }

  /** Slid and turned back or not, a line keeps its value and gains at most
      that value in points. */
  lemma LineKeepsSum(line: Line, turned: bool)
    requires |line| == Width
    ensures Sum(if turned then Reverse(Slide(line)) else Slide(line)) == Sum(line)
    ensures SlideScore(line) <= Sum(line)
  {
    SlideKeepsSum(line);
    SumReverse(Slide(line));
  }

  /** A move conserves the total tile value (two merged tiles make one of
      their sum), and the points it gains are at most that value. */
  lemma ShiftKeepsSum(b: Grid, dir: Direction)
    requires IsGrid(b)
    ensures GridSum(Shift(b, dir)) == GridSum(b)
    ensures ShiftScore(b, dir) <= GridSum(b)
  {
    if dir == Left || dir == Right {
      RowsKeepSum(b, dir);
    } else if dir == Up || dir == Down {
      ColumnsKeepSum(b, dir);
    } else {
      GridsEqual(Shift(b, dir), b);
    }
  }

  lemma RowsKeepSum(b: Grid, dir: Direction)
    requires IsGrid(b) && (dir == Left || dir == Right)
    ensures GridSum(Shift(b, dir)) == GridSum(b)
    ensures LinesScore(b, dir, Width) <= GridSum(b)
  {
    var t := Shift(b, dir);
    LinesScoreOfFour(b, dir);
    forall k | 0 <= k < Width
      ensures Sum(t[k]) == Sum(b[k]) && SlideScore(LineOf(b, dir, k)) <= Sum(b[k])
    {
      ShiftRow(b, dir, k);
      LineKeepsSum(LineOf(b, dir, k), dir == Right);
      if dir == Right {
        SumReverse(b[k]);
      }
    }
  }

  lemma ColumnKeepsSum(b: Grid, dir: Direction, k: int)
    requires IsGrid(b) && (dir == Up || dir == Down) && 0 <= k < Width
    ensures Sum(Column(Shift(b, dir), k)) == Sum(Column(b, k))
    ensures SlideScore(LineOf(b, dir, k)) <= Sum(Column(b, k))
  {
    ShiftColumn(b, dir, k);
    LineKeepsSum(LineOf(b, dir, k), dir == Down);
    if dir == Down {
      SumReverse(Column(b, k));
    }
  }

  lemma ColumnsKeepSum(b: Grid, dir: Direction)
    requires IsGrid(b) && (dir == Up || dir == Down)
    ensures GridSum(Shift(b, dir)) == GridSum(b)
    ensures LinesScore(b, dir, Width) <= GridSum(b)
  {
    forall k | 0 <= k < Width
      ensures Sum(Column(Shift(b, dir), k)) == Sum(Column(b, k))
      ensures SlideScore(LineOf(b, dir, k)) <= Sum(Column(b, k))
    {
      ColumnKeepsSum(b, dir, k);
    }
    SameColumnSums(Shift(b, dir), b);
    LinesScoreOfFour(b, dir);
    GridSumByColumns(b);
  }

  /** Two boards with the same column sums have the same value. */
  lemma SameColumnSums(t: Grid, b: Grid)
    requires IsGrid(t) && IsGrid(b)
    requires forall k :: 0 <= k < Width ==> Sum(Column(t, k)) == Sum(Column(b, k))
    ensures GridSum(t) == GridSum(b)
  {
    GridSumByColumns(t);
    GridSumByColumns(b);
  }

  /** Every tile of the board is empty or a power of two. */
  predicate AllTiles(b: Grid)
    requires IsGrid(b)
  {
    forall r, c :: 0 <= r < Width && 0 <= c < Width ==> b[r][c] == 0 || PowerOfTwo(b[r][c])
  }

  lemma ReverseTiles(line: Line)
    requires Tiles(line)
    ensures Tiles(Reverse(line))
  {
  }

  /** A move only ever makes powers of two. */
  lemma ShiftKeepsTiles(b: Grid, dir: Direction)
    requires IsGrid(b) && AllTiles(b)
    ensures AllTiles(Shift(b, dir))
  {
    var t := Shift(b, dir);
    if dir == Left || dir == Right {
      forall k | 0 <= k < Width ensures Tiles(t[k]) {
        ShiftRow(b, dir, k);
        assert Tiles(b[k]);
        ReverseTiles(b[k]);
        SlideTiles(LineOf(b, dir, k));
        ReverseTiles(Slide(LineOf(b, dir, k)));
      }
    } else if dir == Up || dir == Down {
      forall k | 0 <= k < Width ensures Tiles(Column(t, k)) {
        ShiftColumn(b, dir, k);
        assert Tiles(Column(b, k));
        ReverseTiles(Column(b, k));
        SlideTiles(LineOf(b, dir, k));
        ReverseTiles(Slide(LineOf(b, dir, k)));
      }
      forall r, c | InGrid(r, c) ensures t[r][c] == 0 || PowerOfTwo(t[r][c]) {
        assert t[r][c] == Column(t, c)[r];
      }
    }
  }

  /** A move that changes the board leaves an empty cell: the last cell of a
      changed line, seen from the direction of the move. */
  lemma ChangedLeavesRoom(b: Grid, dir: Direction)
    requires IsGrid(b) && Shift(b, dir) != b
    ensures |EmptyCells(Shift(b, dir))| > 0
  {
    var t := Shift(b, dir);
    if dir == Unrecognised {
      GridsEqual(t, b);
    } else {
      if dir == Left || dir == Right {
        ChangedRows(b, dir);
      } else {
        ChangedColumns(b, dir);
      }
      var k :| 0 <= k < Width && LineChanged(b, dir, k);
      var line := LineOf(b, dir, k);
      MovedLineHasZero(line);
      var p := match dir
        case Left => (k, Width - 1)
        case Right => (k, 0)
        case Up => (Width - 1, k)
        case Down => (0, k);
      if dir == Left || dir == Right {
        ShiftRow(b, dir, k);
      } else {
        ShiftColumn(b, dir, k);
        assert t[p.0][k] == Column(t, k)[p.0];
      }
      assert t[p.0][p.1] == 0;
      assert p in EmptyCells(t);
    }
  }

  /** A spawn adds the new tile's value to the board. */
  lemma SpawnSum(b: Grid, sp: Spawn)
    requires IsGrid(b) && |EmptyCells(b)| > 0
    ensures GridSum(Spawned(b, sp)) == GridSum(b) + SpawnTile(sp)
  {
    var p := SpawnCell(b, sp);
    var g := Spawned(b, sp);
    forall r | 0 <= r < Width && r != p.0 ensures g[r] == b[r] {
      assert forall c :: 0 <= c < Width ==> g[r][c] == b[r][c];
    }
    SumOfFour(b[p.0]);
    SumOfFour(g[p.0]);
  }

  /** processMove on a game still running: a move that changes the board
      keeps the tile value and adds exactly one new tile of 2 or 4 in a cell
      the move left empty; the score grows by at most the board's value. */
  lemma PlaySpawnsOne(s: State, dir: Direction, sp: Spawn)
    requires IsGrid(s.board) && !s.gameOver && Shift(s.board, dir) != s.board
    ensures var t := Shift(s.board, dir);
      var r := Play(s, dir, sp);
      |EmptyCells(t)| > 0
      && SpawnCell(t, sp) !in Occupied(t)
      && Occupied(r.board) == Occupied(t) + {SpawnCell(t, sp)}
      && GridSum(r.board) == GridSum(s.board) + SpawnTile(sp)
      && s.score <= r.score <= s.score + GridSum(s.board)
  {
    var t := Shift(s.board, dir);
    ChangedLeavesRoom(s.board, dir);
    SpawnOne(t, sp);
    ShiftKeepsSum(s.board, dir);
    SpawnSum(t, sp);
  }

  /** processMove keeps every tile a power of two. */
  lemma PlayKeepsTiles(s: State, dir: Direction, sp: Spawn)
    requires IsGrid(s.board) && AllTiles(s.board)
    ensures AllTiles(Play(s, dir, sp).board)
  {
    var t := Shift(s.board, dir);
    if !s.gameOver && t != s.board {
      ShiftKeepsTiles(s.board, dir);
      SpawnOne(t, sp);
      if |EmptyCells(t)| > 0 {
        var p := SpawnCell(t, sp);
        assert PowerOfTwo(SpawnTile(sp) / 2);
      }
    }
  }

  /** Points and victory are never taken back, a finished game does not
      change, and a game processMove ends is one where no move would change
      the board. */
  lemma PlayProgress(s: State, dir: Direction, sp: Spawn)
    requires IsGrid(s.board)
    ensures var r := Play(s, dir, sp);
      s.score <= r.score && (s.won ==> r.won)
      && (s.gameOver ==> r == s)
      && (!s.gameOver && r.gameOver ==> forall d :: Shift(r.board, d) == r.board)
  {
    var r := Play(s, dir, sp);
    if !s.gameOver && r.gameOver {
      forall d ensures Shift(r.board, d) == r.board {
        StuckMeansNoMove(r.board, d);
      }
    }
  }

  /** Every tile on the board is a 2 or a 4. */
  predicate SmallTiles(b: Grid)
    requires IsGrid(b)
  {
    forall r, c :: 0 <= r < Width && 0 <= c < Width && b[r][c] != 0 ==> b[r][c] == 2 || b[r][c] == 4
  }

  /** A spawn on a board with a free cell occupies one more cell with a 2 or
      a 4, and changes no other cell. */
  lemma SpawnGrows(b: Grid, sp: Spawn, free: (int, int))
    requires IsGrid(b) && InGrid(free.0, free.1) && b[free.0][free.1] == 0
    ensures |Occupied(Spawned(b, sp))| == |Occupied(b)| + 1
    ensures SmallTiles(b) ==> SmallTiles(Spawned(b, sp))
    ensures forall r, c :: InGrid(r, c) && (r, c) != SpawnCell(b, sp) ==> Spawned(b, sp)[r][c] == b[r][c]
  {
    assert free in EmptyCells(b);
    SpawnOne(b, sp);
  }

  lemma EmptyGridUnoccupied()
    ensures |Occupied(EmptyGrid())| == 0 && SmallTiles(EmptyGrid())
  {
    var e := EmptyGrid();
    assert Occupied(e) == {} by {
      forall q | q in Occupied(e) ensures false {
      }
    }
  }

  /** Two spawns on an empty board make exactly two tiles, each a 2 or a 4. */
  lemma TwoSpawns(e: Grid, first: Spawn, second: Spawn)
    requires IsGrid(e) && |Occupied(e)| == 0 && SmallTiles(e)
    requires e[0][0] == 0 && e[0][1] == 0
    ensures var b := Spawned(Spawned(e, first), second);
      |Occupied(b)| == 2 && SmallTiles(b)
  {
    SpawnGrows(e, first, (0, 0));
    var b1 := Spawned(e, first);
    var p1 := SpawnCell(e, first);
    var free := if p1 == (0, 0) then (0, 1) else (0, 0);
    SpawnGrows(b1, second, free);
  }

  /** A new game starts with exactly two tiles, each a 2 or a 4. */
  lemma InitialTwoTiles(first: Spawn, second: Spawn)
    ensures |Occupied(StartGrid(first, second))| == 2 && SmallTiles(StartGrid(first, second))
  {
    EmptyGridUnoccupied();
    TwoSpawns(EmptyGrid(), first, second);
  }
}
