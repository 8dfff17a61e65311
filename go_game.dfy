// The Go rule engine of src/lib/games/go.ts: the game state, move legality,
// placement with captures and a single-point ko, passing, the automatic
// win checks and area scoring with a komi of 6.5 for White.

module GoGame {
  import opened Types
  import opened GoBoard
  import opened GoCapture

  /** A finished game's winner: 'black', 'white' or 'draw'. */
  datatype Outcome = Win(color: Color) | Draw

  /** Stones each colour has captured. */
  datatype Captures = Captures(black: nat, white: nat) {
    function Of(c: Color): nat {
      if c == Black then black else white
    }

    function Add(c: Color, n: nat): (r: Captures)
      ensures r.Of(c) == Of(c) + n && r.Of(Opponent(c)) == Of(Opponent(c))
    {
      if c == Black then Captures(black + n, white) else Captures(black, white + n)
    }
  }

  datatype GoState = GoState(
    board: Board,
    currentTurn: Color,
    captures: Captures,
    moveHistory: seq<GoMove>,
    passCount: nat,
    ended: bool,
    winner: Option<Outcome>,
    lastMove: Option<Point>,
    koPoint: Option<Point>)

  predicate Valid(s: GoState) {
    WellFormed(s.board)
  }

  function EmptyBoard(): (b: Board)
    ensures WellFormed(b) && forall q :: InBounds(q) ==> At(b, q) == Empty
  {
    seq(Size, i => seq(Size, j => Empty))
  }

  /** A fresh game: an empty 19x19 board, Black to move, nothing captured. */
  function CreateInitialState(): (s: GoState)
    ensures Valid(s) && forall q :: InBounds(q) ==> At(s.board, q) == Empty
    ensures s.currentTurn == Black && s.captures == Captures(0, 0)
    ensures s.moveHistory == [] && s.passCount == 0 && !s.ended && s.winner == None
    ensures s.lastMove == None && s.koPoint == None
  {
    GoState(EmptyBoard(), Black, Captures(0, 0), [], 0, false, None, None, None)
  }

  // ---------------------------------------------------------------------
  // Legality

  /** The mover's stone at p may be placed: p is an empty point of the board
      other than the ko point, and the stone either leaves some adjacent
      opponent group without liberties or its own group has a liberty. */
  ghost predicate IsLegal(s: GoState, p: Point)
    requires Valid(s)
  {
    && InBounds(p)
    && At(s.board, p) == Empty
    && s.koPoint != Some(p)
    && var t0 := Put(s.board, p, Stone(s.currentTurn));
       || (exists d :: 0 <= d < 4 && Dead(t0, Opponent(s.currentTurn), Neighbours(p)[d]))
       || GroupHasLiberty(t0, Component(t0, Stone(s.currentTurn), p))
  }

  method IsValidMove(s: GoState, row: int, col: int) returns (legal: bool)
    requires Valid(s)
    ensures legal <==> IsLegal(s, (row, col))
  {
    var p := (row, col);
    if !InBounds(p) {
      return false;
    }
    if s.board[row][col] != Empty {
      return false;
    }
    if s.koPoint.Some? && s.koPoint.value == p {
      return false;
    }
    var me := s.currentTurn;
    var t0 := Put(s.board, p, Stone(me));
    var o := Opponent(me);
    for d := 0 to 4
      invariant forall e :: 0 <= e < d ==> !Dead(t0, o, Neighbours(p)[e])
    {
      var n := Neighbours(p)[d];
      if InBounds(n) && At(t0, n) == Stone(o) {
        var group := GetGroup(t0, n, Stone(o));
        var free := HasLiberties(t0, group);
        if !free {
          assert Dead(t0, o, n);
          return true;
        }
      }
    }
    var placed := GetGroup(t0, p, Stone(me));
    legal := HasLiberties(t0, placed);
  }

  // ---------------------------------------------------------------------
  // Scoring

  /** The colours' scores compared with a komi of 6.5 for White, doubled so
      that everything stays integral. */
  function ScoreWinner(black: nat, white: nat): (r: Outcome)
    ensures r == Win(Black) <==> black >= white + 7
    ensures r == Win(White) <==> black <= white + 6
  {
    if 2 * black > 2 * white + 13 then Win(Black)
    else if 2 * white + 13 > 2 * black then Win(White)
    else Draw
  }

  /** The empty points whose region borders only colour c. */
  ghost function Owned(b: Board, c: Color): set<Point>
    requires WellFormed(b)
  {
    set q | q in AllPoints && Holds(b, q, Empty) && Owner(b, Component(b, Empty, q)) == Some(c)
  }

  /** Area score before captures: c's stones plus the empty points it owns. */
  ghost function AreaScore(b: Board, c: Color): nat
    requires WellFormed(b)
  {
    |Cells(b, Stone(c))| + |Owned(b, c)|
  }

  ghost function Winner(s: GoState): Outcome
    requires Valid(s)
  {
    ScoreWinner(AreaScore(s.board, Black) + s.captures.black, AreaScore(s.board, White) + s.captures.white)
  }

  /** With komi 6.5 and whole-number counts a scored game is never a draw. */
  lemma WinnerNeverDraw(s: GoState)
    requires Valid(s)
    ensures Winner(s).Win?
  {
  }

  /** The single loop of calculateTerritory and checkAutoWin that counts the
      stones of both colours. */
  method CountStones(b: Board) returns (black: nat, white: nat)
    requires WellFormed(b)
    ensures black == |Cells(b, Stone(Black))| && white == |Cells(b, Stone(White))|
  {
    black, white := 0, 0;
    for row := 0 to Size
      invariant black == |CellsBefore(b, Stone(Black), row, 0)|
      invariant white == |CellsBefore(b, Stone(White), row, 0)|
    {
      for col := 0 to Size
        invariant black == |CellsBefore(b, Stone(Black), row, col)|
        invariant white == |CellsBefore(b, Stone(White), row, col)|
      {
        CountStep(b, Stone(Black), row, col);
        CountStep(b, Stone(White), row, col);
        if b[row][col] == Stone(Black) {
          black := black + 1;
        } else if b[row][col] == Stone(White) {
          white := white + 1;
        }
      }
      CellsBeforeNextRow(b, Stone(Black), row);
      CellsBeforeNextRow(b, Stone(White), row);
    }
    CellsBeforeAll(b, Stone(Black));
    CellsBeforeAll(b, Stone(White));
  }

  /** The empty points of the board up to (row, col) in row-major order. */
  ghost predicate Scanned(b: Board, visited: set<Point>, row: int, col: int)
    requires WellFormed(b)
  {
    forall q :: InBounds(q) && Before(q, row, col) && At(b, q) == Empty ==> q in visited
  }

  /** What calculateTerritory's scan keeps at (row, col): the visited set is
      made of whole empty regions and holds every empty point scanned so far,
      and each colour's count is its stones plus what it owns among them. */
  ghost predicate TerritoryScan(b: Board, visited: set<Point>, row: int, col: int, black: nat, white: nat)
    requires WellFormed(b)
  {
    && RegionClosed(b, visited)
    && Scanned(b, visited, row, col)
    && black == |Cells(b, Stone(Black))| + |Owned(b, Black) * visited|
    && white == |Cells(b, Stone(White))| + |Owned(b, White) * visited|
  }

  /** Every point of an empty region has that region as its own. */
  lemma RegionOfMembers(b: Board, start: Point)
    requires WellFormed(b)
    ensures forall q :: q in Component(b, Empty, start) ==>
      q in AllPoints && Holds(b, q, Empty) && Component(b, Empty, q) == Component(b, Empty, start)
  {
    forall q | q in Component(b, Empty, start)
      ensures q in AllPoints && Holds(b, q, Empty) && Component(b, Empty, q) == Component(b, Empty, start)
    {
      ConnectedEnds(b, Empty, start, q);
      SameComponent(b, Empty, start, q);
    }
  }

  /** A region is owned by c as a whole or not at all. */
  lemma OwnedRegion(b: Board, start: Point, c: Color)
    requires WellFormed(b)
    ensures Owned(b, c) * Component(b, Empty, start) ==
      if Owner(b, Component(b, Empty, start)) == Some(c) then Component(b, Empty, start) else {}
  {
    RegionOfMembers(b, start);
  }

  /** Adding a region outside the visited set adds its size to its owner. */
  lemma TerritoryCount(b: Board, visited: set<Point>, start: Point, c: Color)
    requires WellFormed(b) && visited !! Component(b, Empty, start)
    ensures |Owned(b, c) * (visited + Component(b, Empty, start))| ==
      |Owned(b, c) * visited| + if Owner(b, Component(b, Empty, start)) == Some(c) then |Component(b, Empty, start)| else 0
  {
    var r := Component(b, Empty, start);
    OwnedRegion(b, start, c);
    var a, added := Owned(b, c) * visited, Owned(b, c) * r;
    assert Owned(b, c) * (visited + r) == a + added;
    assert a * added == {};
  }

  /** Adding a region keeps the visited set made of whole regions. */
  lemma ClosedGrows(b: Board, visited: set<Point>, start: Point)
    requires WellFormed(b) && RegionClosed(b, visited)
    ensures RegionClosed(b, visited + Component(b, Empty, start))
  {
    RegionOfMembers(b, start);
  }

  lemma TerritoryStart(b: Board, black: nat, white: nat)
    requires WellFormed(b)
    requires black == |Cells(b, Stone(Black))| && white == |Cells(b, Stone(White))|
    ensures TerritoryScan(b, {}, 0, 0, black, white)
  {
  }

  /** The scan finds a new region at (row, col). */
  lemma TerritoryFound(b: Board, visited: set<Point>, row: int, col: int, black: nat, white: nat,
                       region: seq<Point>, visited': set<Point>, owner: Option<Color>)
    requires WellFormed(b) && InBounds((row, col)) && TerritoryScan(b, visited, row, col, black, white)
    requires b[row][col] == Empty && (row, col) !in visited
    requires RegionFound(b, (row, col), visited, region, visited')
    requires owner == Owner(b, ElementsOf(region))
    ensures TerritoryScan(b, visited', row, col + 1,
      black + (if owner == Some(Black) then |region| else 0),
      white + (if owner == Some(White) then |region| else 0))
  {
    var start := (row, col);
    var comp := Component(b, Empty, start);
    assert ElementsOf(region) == comp;
    assert visited !! comp by {
      ClosedMissesRegion(b, visited, start);
    }
    assert RegionClosed(b, visited') by {
      ClosedGrows(b, visited, start);
    }
    assert Scanned(b, visited', row, col + 1) by {
      ConnectedSelf(b, Empty, start);
      InAllPoints(start);
      ScannedPast(b, visited, visited', row, col);
    }
    assert |Owned(b, Black) * visited'| ==
      |Owned(b, Black) * visited| + (if owner == Some(Black) then |region| else 0) by {
      TerritoryCount(b, visited, start, Black);
    }
    assert |Owned(b, White) * visited'| ==
      |Owned(b, White) * visited| + (if owner == Some(White) then |region| else 0) by {
      TerritoryCount(b, visited, start, White);
    }
  }

  /** Once (row, col) is visited, the scan may move past it. */
  lemma ScannedPast(b: Board, visited: set<Point>, visited': set<Point>, row: int, col: int)
    requires WellFormed(b) && Scanned(b, visited, row, col)
    requires visited <= visited' && (row, col) in visited'
    ensures Scanned(b, visited', row, col + 1)
  {
    forall q | InBounds(q) && Before(q, row, col + 1) && At(b, q) == Empty
      ensures q in visited'
    {
      if q != (row, col) {
        assert Before(q, row, col);
      }
    }
  }

  /** The scan passes a stone or an already visited point. */
  lemma TerritorySkip(b: Board, visited: set<Point>, row: int, col: int, black: nat, white: nat)
    requires WellFormed(b) && InBounds((row, col)) && TerritoryScan(b, visited, row, col, black, white)
    requires b[row][col] != Empty || (row, col) in visited
    ensures TerritoryScan(b, visited, row, col + 1, black, white)
  {
  }

  lemma TerritoryNextRow(b: Board, visited: set<Point>, row: int, black: nat, white: nat)
    requires WellFormed(b) && TerritoryScan(b, visited, row, Size, black, white)
    ensures TerritoryScan(b, visited, row + 1, 0, black, white)
  {
  }

  lemma TerritoryEnd(b: Board, visited: set<Point>, black: nat, white: nat)
    requires WellFormed(b) && TerritoryScan(b, visited, Size, 0, black, white)
    ensures black == AreaScore(b, Black) && white == AreaScore(b, White)
  {
    forall q | q in Owned(b, Black) + Owned(b, White) ensures q in visited {
      InAllPoints(q);
    }
    assert Owned(b, Black) * visited == Owned(b, Black);
    assert Owned(b, White) * visited == Owned(b, White);
  }

  /** calculateTerritory: each colour's stones plus every empty region that
      borders that colour only, found region by region with a shared visited
      set; a region bordering both colours or neither counts for nobody. */
  method CalculateTerritory(b: Board) returns (black: nat, white: nat)
    requires WellFormed(b)
    ensures black == AreaScore(b, Black) && white == AreaScore(b, White)
  {
    black, white := CountStones(b);
    var visited: set<Point> := {};
    TerritoryStart(b, black, white);
    for row := 0 to Size
      invariant TerritoryScan(b, visited, row, 0, black, white)
    {
      for col := 0 to Size
        invariant TerritoryScan(b, visited, row, col, black, white)
      {
        if b[row][col] == Empty && (row, col) !in visited {
          ClosedMissesRegion(b, visited, (row, col));
          var region, visited' := GetEmptyRegion(b, (row, col), visited);
          var owner := DetermineRegionOwner(b, region);
          TerritoryFound(b, visited, row, col, black, white, region, visited', owner);
          if owner == Some(Black) {
            black := black + |region|;
          } else if owner == Some(White) {
            white := white + |region|;
          }
          visited := visited';
        } else {
          TerritorySkip(b, visited, row, col, black, white);
        }
      }
      TerritoryNextRow(b, visited, row, black, white);
    }
    TerritoryEnd(b, visited, black, white);
  }

  method CalculateWinner(s: GoState) returns (w: Outcome)
    requires Valid(s)
    ensures w == Winner(s)
  {
    var black, white := CalculateTerritory(s.board);
    var blackScore := black + s.captures.black;
    var whiteScore := white + s.captures.white;
    if 2 * blackScore > 2 * whiteScore + 13 {
      w := Win(Black);
    } else if 2 * whiteScore + 13 > 2 * blackScore {
      w := Win(White);
    } else {
      w := Draw;
    }
  }

  // ---------------------------------------------------------------------
  // Automatic end

  /** checkAutoWin: nothing before ten moves; then a colour with no stone
      loses to one with stones, and a full board is scored. */
  ghost function AutoWin(s: GoState): Option<Outcome>
    requires Valid(s)
  {
    if |s.moveHistory| < 10 then None
    else
      var black, white := |Cells(s.board, Stone(Black))|, |Cells(s.board, Stone(White))|;
      if black == 0 && white > 0 then Some(Win(White))
      else if white == 0 && black > 0 then Some(Win(Black))
      else if |Cells(s.board, Empty)| == 0 then Some(Winner(s))
      else None
  }

  method CheckAutoWin(s: GoState) returns (r: Option<Outcome>)
    requires Valid(s)
    ensures r == AutoWin(s)
  {
    if |s.moveHistory| < 10 {
      return None;
    }
    var black, white := CountStones(s.board);
    if black == 0 && white > 0 {
      return Some(Win(White));
    }
    if white == 0 && black > 0 {
      return Some(Win(Black));
    }
    var empty := CountCells(s.board, Empty);
    if empty == 0 {
      var w := CalculateWinner(s);
      return Some(w);
    }
    return None;
  }

  /** An automatic end is always a win for one colour. */
  lemma AutoWinIsWin(s: GoState)
    requires Valid(s) && AutoWin(s).Some?
    ensures AutoWin(s).value.Win?
  {
    WinnerNeverDraw(s);
  }

  // ---------------------------------------------------------------------
  // Placing a stone

  /** The state after a legal placement at p, before the auto-win check, and
      before the suicide check has decided whether it is kept. */
  ghost function Placement(s: GoState, p: Point): GoState
    requires Valid(s) && InBounds(p)
  {
    var me := s.currentTurn;
    var t0 := Put(s.board, p, Stone(me));
    var gone := Captured(t0, Opponent(me), p);
    var board := Clear(t0, gone);
    GoState(board, Opponent(me), s.captures.Add(me, |gone|), s.moveHistory + [GoMove(p.0, p.1, me, false)],
            0, false, None, Some(p), KoAfter(gone, |Component(board, Stone(me), p)|))
  }

  /** The ko point a placement leaves: the captured point when exactly one
      stone was captured by a stone that forms a group on its own. */
  ghost function KoAfter(gone: set<Point>, groupSize: nat): Option<Point> {
    if |gone| == 1 && groupSize == 1 then Some(Only(gone)) else None
  }

  ghost function Only(s: set<Point>): Point
    requires |s| == 1
  {
    assert s != {};
    var k :| k in s; k
  }

  lemma OnlyIs(s: set<Point>, a: Point)
    requires |s| == 1 && a in s
    ensures Only(s) == a
  {
    SingletonElement(s, Only(s), a);
  }

  /** The placed stone's group on the board after captures has no liberty and
      nothing was captured. */
  ghost predicate Suicide(s: GoState, p: Point)
    requires Valid(s) && InBounds(p)
  {
    var b := Placement(s, p).board;
    !GroupHasLiberty(b, Component(b, Stone(s.currentTurn), p))
      && Captured(Put(s.board, p, Stone(s.currentTurn)), Opponent(s.currentTurn), p) == {}
  }

  /** What processMove returns for a legal placement. */
  ghost function Play(s: GoState, p: Point): GoState
    requires Valid(s) && InBounds(p)
  {
    if Suicide(s, p) then s
    else
      var next := Placement(s, p);
      match AutoWin(next)
      case None => next
      case Some(w) => next.(ended := true, winner := Some(w))
  }

  lemma SingletonElement(s: set<Point>, a: Point, b: Point)
    requires |s| == 1 && a in s && b in s
    ensures a == b
  {
    assert |s - {a}| == 0;
  }

  /** isValidMove already rules out suicide, so processMove's own suicide
      test never rejects a legal move. */
  lemma LegalIsNotSuicide(s: GoState, p: Point)
    requires Valid(s) && IsLegal(s, p)
    ensures !Suicide(s, p)
  {
    var me, o := s.currentTurn, Opponent(s.currentTurn);
    var t0 := Put(s.board, p, Stone(me));
    var gone := Captured(t0, o, p);
    if gone == {} {
      ClearNothing(t0);
      forall d | 0 <= d < 4 ensures !Dead(t0, o, Neighbours(p)[d]) {
        var n := Neighbours(p)[d];
        if Holds(t0, n, Stone(o)) {
          ConnectedSelf(t0, Stone(o), n);
          InAllPoints(n);
          CapturedMembers(t0, o, p, n);
        }
      }
    }
  }

  /** A legal placement keeps the stone and removes exactly the dead
      adjacent opponent groups (CapturedMembers), which were opponent stones. */
  lemma PlayBoard(s: GoState, p: Point)
    requires Valid(s) && IsLegal(s, p)
    ensures var r, me := Play(s, p), s.currentTurn;
      var t0 := Put(s.board, p, Stone(me));
      var gone := Captured(t0, Opponent(me), p);
      && Valid(r)
      && r.board == Clear(t0, gone)
      && At(r.board, p) == Stone(me)
      && forall q :: q in gone ==> Holds(s.board, q, Stone(Opponent(me)))
  {
    var me := s.currentTurn;
    var t0 := Put(s.board, p, Stone(me));
    var gone := Captured(t0, Opponent(me), p);
    LegalIsNotSuicide(s, p);
    assert Play(s, p).board == Placement(s, p).board == Clear(t0, gone);
    CapturedAreOpponentStones(t0, Opponent(me), p);
    assert p !in gone;
    forall q | q in gone ensures Holds(s.board, q, Stone(Opponent(me))) {
      assert Holds(t0, q, Stone(Opponent(me)));
    }
  }

  /** A legal placement hands the turn over, resets the pass count, records
      the move, and credits the mover, and only the mover, with the stones
      removed. */
  lemma PlayBookkeeping(s: GoState, p: Point)
    requires Valid(s) && IsLegal(s, p)
    ensures var r, me := Play(s, p), s.currentTurn;
      var gone := Captured(Put(s.board, p, Stone(me)), Opponent(me), p);
      && r.currentTurn == Opponent(me) && r.passCount == 0 && r.lastMove == Some(p)
      && r.moveHistory == s.moveHistory + [GoMove(p.0, p.1, me, false)]
      && r.captures.Of(me) == s.captures.Of(me) + |gone|
      && r.captures.Of(Opponent(me)) == s.captures.Of(Opponent(me))
  {
    LegalIsNotSuicide(s, p);
  }

  /** A ko point is set exactly when one stone was captured by a stone that
      forms a group on its own; it is then that captured stone, and playing
      there at once is illegal. */
  lemma PlayKo(s: GoState, p: Point)
    requires Valid(s) && IsLegal(s, p)
    ensures var r, me := Play(s, p), s.currentTurn;
      var gone := Captured(Put(s.board, p, Stone(me)), Opponent(me), p);
      && (r.koPoint.Some? <==> |gone| == 1 && |Component(r.board, Stone(me), p)| == 1)
      && (r.koPoint.Some? ==> gone == {r.koPoint.value} && !IsLegal(r, r.koPoint.value))
  {
    var me := s.currentTurn;
    var gone := Captured(Put(s.board, p, Stone(me)), Opponent(me), p);
    LegalIsNotSuicide(s, p);
    if Placement(s, p).koPoint.Some? {
      assert |gone| == 1 && Only(gone) in gone;
      SingletonSet(gone, Only(gone));
    }
  }

  /** A placement ends the game exactly when the automatic check fires, and
      then with a win for one colour. */
  lemma PlayEnd(s: GoState, p: Point)
    requires Valid(s) && IsLegal(s, p)
    ensures var r := Play(s, p);
      && (r.ended <==> AutoWin(Placement(s, p)).Some?)
      && (r.ended ==> r.winner.Some? && r.winner.value.Win?)
  {
    LegalIsNotSuicide(s, p);
    if AutoWin(Placement(s, p)).Some? {
      AutoWinIsWin(Placement(s, p));
    }
  }

  /** Every group of stones on the board has a liberty: the board a game
      reaches when suicide is refused and dead groups come off whole. */
  ghost predicate AllGroupsLive(b: Board)
    requires WellFormed(b)
  {
    forall q :: InBounds(q) && At(b, q).Stone? ==> GroupHasLiberty(b, Component(b, At(b, q), q))
  }

  /** processMove's suicide test, read on the board after captures. */
  lemma SuicideMeans(s: GoState, p: Point, t0: Board, gone: set<Point>, r: Board)
    requires Valid(s) && InBounds(p)
    requires t0 == Put(s.board, p, Stone(s.currentTurn))
    requires gone == Captured(t0, Opponent(s.currentTurn), p) && r == Clear(t0, gone)
    ensures Suicide(s, p) <==> !GroupHasLiberty(r, Component(r, Stone(s.currentTurn), p)) && gone == {}
  {
    assert Placement(s, p).board == r;
  }

  /** A capture next to the placed stone leaves it a liberty where the
      captured neighbour stood. */
  lemma CaptureFreesPlaced(t0: Board, me: Color, p: Point, gone: set<Point>, r: Board)
    requires WellFormed(t0) && Holds(t0, p, Stone(me))
    requires gone == Captured(t0, Opponent(me), p) && r == Clear(t0, gone) && gone != {}
    ensures GroupHasLiberty(r, Component(r, Stone(me), p))
  {
    var o := Opponent(me);
    var x :| x in gone;
    CapturedMembers(t0, o, p, x);
    var d :| 0 <= d < 4 && Dead(t0, o, Neighbours(p)[d]) && x in Component(t0, Stone(o), Neighbours(p)[d]);
    var n := Neighbours(p)[d];
    ConnectedSelf(t0, Stone(o), n);
    InAllPoints(n);
    CapturedMembers(t0, o, p, n);
    assert Holds(r, n, Empty) && HasLibertyAt(r, p);
    CapturedAreOpponentStones(t0, o, p);
    assert Holds(r, p, Stone(me));
    ConnectedSelf(r, Stone(me), p);
    InAllPoints(p);
  }

  /** After a legal placement the placed stone's group has a liberty: either
      its own, or the point of a neighbour whose group was just captured. */
  lemma PlacedGroupLive(s: GoState, p: Point)
    requires Valid(s) && IsLegal(s, p)
    ensures var me := s.currentTurn;
      var t0 := Put(s.board, p, Stone(me));
      var r := Clear(t0, Captured(t0, Opponent(me), p));
      GroupHasLiberty(r, Component(r, Stone(me), p))
  {
    var me := s.currentTurn;
    var t0 := Put(s.board, p, Stone(me));
    var gone := Captured(t0, Opponent(me), p);
    var r := Clear(t0, gone);
    LegalIsNotSuicide(s, p);
    SuicideMeans(s, p, t0, gone, r);
    if gone != {} {
      CaptureFreesPlaced(t0, me, p, gone, r);
    }
  }

  /** An opponent stone left on the board after a legal placement is in a
      group with a liberty: had its group lost its last liberty to the placed
      stone, the group would have been captured. */
  lemma OpponentGroupLive(s: GoState, p: Point, q: Point)
    requires Valid(s) && IsLegal(s, p) && AllGroupsLive(s.board)
    requires var me := s.currentTurn;
      var t0 := Put(s.board, p, Stone(me));
      Holds(Clear(t0, Captured(t0, Opponent(me), p)), q, Stone(Opponent(me)))
    ensures var me := s.currentTurn;
      var t0 := Put(s.board, p, Stone(me));
      var r := Clear(t0, Captured(t0, Opponent(me), p));
      GroupHasLiberty(r, Component(r, Stone(Opponent(me)), q))
  {
    var me, o := s.currentTurn, Opponent(s.currentTurn);
    var b, x := s.board, Stone(Opponent(s.currentTurn));
    var t0 := Put(b, p, Stone(me));
    var gone := Captured(t0, o, p);
    var r := Clear(t0, gone);
    assert q !in gone && q != p && Holds(t0, q, x) && Holds(b, q, x);
    DeadAroundWhole(t0, o, p, 4);
    ClearKeepsGroup(t0, o, gone, q);
    ClearKeepsLiberties(t0, o, gone, q);
    ComponentGrows(b, t0, x, q);
    assert GroupHasLiberty(b, Component(b, x, q));
    var m :| m in Component(b, x, q) && HasLibertyAt(b, m);
    var d :| 0 <= d < 4 && Holds(b, Neighbours(m)[d], Empty);
    var e := Neighbours(m)[d];
    if e == p {
      NeighbourSymmetric(m, p);
      var k :| 0 <= k < 4 && Neighbours(p)[k] == m;
      ConnectedSelf(t0, x, q);
      InAllPoints(q);
      SameComponent(t0, x, q, m);
      if Dead(t0, o, m) {
        CapturedMembers(t0, o, p, q);
        assert false;
      }
      ConnectedEnds(t0, x, q, m);
    } else {
      assert HasLibertyAt(t0, m);
    }
  }

  /** The mover's stones all stay on the board through a placement and its
      captures. */
  lemma MoverStonesStay(b: Board, me: Color, p: Point, t0: Board, r: Board)
    requires WellFormed(b) && Holds(b, p, Empty)
    requires t0 == Put(b, p, Stone(me)) && r == Clear(t0, Captured(t0, Opponent(me), p))
    ensures forall y :: Holds(b, y, Stone(me)) ==> Holds(r, y, Stone(me))
  {
    CapturedAreOpponentStones(t0, Opponent(me), p);
  }

  /** A stone of the mover's colour left on the board after a legal placement
      is in a group with a liberty: either it kept a liberty it had before,
      or it joined the placed stone's group. */
  lemma OwnGroupLive(s: GoState, p: Point, q: Point)
    requires Valid(s) && IsLegal(s, p) && AllGroupsLive(s.board)
    requires var me := s.currentTurn;
      var t0 := Put(s.board, p, Stone(me));
      Holds(Clear(t0, Captured(t0, Opponent(me), p)), q, Stone(me))
    ensures var me := s.currentTurn;
      var t0 := Put(s.board, p, Stone(me));
      var r := Clear(t0, Captured(t0, Opponent(me), p));
      GroupHasLiberty(r, Component(r, Stone(me), q))
  {
    var me := s.currentTurn;
    var b, x := s.board, Stone(s.currentTurn);
    var t0 := Put(b, p, x);
    var r := Clear(t0, Captured(t0, Opponent(me), p));
    PlacedGroupLive(s, p);
    if q != p {
      MoverStonesStay(b, me, p, t0, r);
      ComponentGrows(b, r, x, q);
      assert Holds(b, q, x);
      var m :| m in Component(b, x, q) && HasLibertyAt(b, m);
      var d :| 0 <= d < 4 && Holds(b, Neighbours(m)[d], Empty);
      KeptOrJoined(b, x, p, r, q, m, Neighbours(m)[d]);
    }
  }

  /** One liberty e of a group member m before the placement: either e is
      still empty, or e is the placed stone, and q's group is the placed
      stone's group. */
  lemma KeptOrJoined(b: Board, x: Cell, p: Point, r: Board, q: Point, m: Point, e: Point)
    requires WellFormed(b) && WellFormed(r) && Holds(r, p, x)
    requires forall y :: Holds(b, y, Empty) && y != p ==> Holds(r, y, Empty)
    requires m in Component(r, x, q) && e in Neighbours(m) && Holds(b, e, Empty)
    ensures HasLibertyAt(r, m) || Component(r, x, q) == Component(r, x, p)
  {
    if e == p {
      NeighbourSymmetric(m, p);
      ConnectedStep(r, x, q, m, p);
      InAllPoints(p);
      SameComponent(r, x, q, p);
    } else {
      var d :| 0 <= d < 4 && Neighbours(m)[d] == e;
      assert Holds(r, e, Empty);
    }
  }

  /** Any stone on the board after a legal placement and its captures is in
      a group with a liberty. */
  lemma PlacedPointLive(s: GoState, p: Point, r: Board, q: Point)
    requires Valid(s) && IsLegal(s, p) && AllGroupsLive(s.board)
    requires var me := s.currentTurn;
      var t0 := Put(s.board, p, Stone(me));
      r == Clear(t0, Captured(t0, Opponent(me), p))
    requires InBounds(q) && At(r, q).Stone?
    ensures GroupHasLiberty(r, Component(r, At(r, q), q))
  {
    var me := s.currentTurn;
    if At(r, q).color == me {
      OwnGroupLive(s, p, q);
    } else {
      assert At(r, q) == Stone(Opponent(me));
      OpponentGroupLive(s, p, q);
    }
  }

  /** The board after a legal placement and its captures has every group
      alive. */
  lemma PlacedBoardLive(s: GoState, p: Point)
    requires Valid(s) && IsLegal(s, p) && AllGroupsLive(s.board)
    ensures var me := s.currentTurn;
      var t0 := Put(s.board, p, Stone(me));
      AllGroupsLive(Clear(t0, Captured(t0, Opponent(me), p)))
  {
    var me := s.currentTurn;
    var t0 := Put(s.board, p, Stone(me));
    var r := Clear(t0, Captured(t0, Opponent(me), p));
    forall q | InBounds(q) && At(r, q).Stone?
      ensures GroupHasLiberty(r, Component(r, At(r, q), q))
    {
      PlacedPointLive(s, p, r, q);
    }
  }

  /** A legal placement keeps every group on the board alive: suicide is
      refused and dead groups come off whole. */
  lemma PlayKeepsGroupsLive(s: GoState, p: Point)
    requires Valid(s) && IsLegal(s, p) && AllGroupsLive(s.board)
    ensures Valid(Play(s, p)) && AllGroupsLive(Play(s, p).board)
  {
    PlayBoard(s, p);
    PlacedBoardLive(s, p);
  }

  /** A new game starts with every group alive (there are none). */
  lemma InitialGroupsLive()
    ensures AllGroupsLive(CreateInitialState().board)
  {
  }

  /** The first stone of a game, wherever it goes, leaves every group
      alive: the invariant's premises hold at the start. */
  lemma FirstMoveKeepsGroupsLive(p: Point)
    requires InBounds(p)
    ensures AllGroupsLive(Play(CreateInitialState(), p).board)
  {
    InitialAllLegal(p);
    InitialGroupsLive();
    PlayKeepsGroupsLive(CreateInitialState(), p);
  }

  lemma SingletonSet(s: set<Point>, a: Point)
    requires |s| == 1 && a in s
    ensures s == {a}
  {
    forall b | b in s ensures b == a {
      SingletonElement(s, a, b);
    }
  }

  /** On an empty board every point is a legal move. */
  lemma InitialAllLegal(p: Point)
    requires InBounds(p)
    ensures IsLegal(CreateInitialState(), p)
  {
    var s := CreateInitialState();
    var t0 := Put(s.board, p, Stone(Black));
    ConnectedSelf(t0, Stone(Black), p);
    InAllPoints(p);
    var d := if p.0 > 0 then 0 else 1;
    assert Holds(t0, Neighbours(p)[d], Empty);
    assert HasLibertyAt(t0, p);
  }

  // ---------------------------------------------------------------------
  // Passing

  ghost function Pass(s: GoState): GoState
    requires Valid(s)
  {
    var next := s.(passCount := s.passCount + 1, currentTurn := Opponent(s.currentTurn),
                   moveHistory := s.moveHistory + [GoMove(-1, -1, s.currentTurn, true)]);
    if next.passCount >= 2 then next.(ended := true, winner := Some(Winner(s))) else next
  }

  /** A pass hands the turn over, counts the pass and records it at
      (-1, -1); board, captures, last move and ko point stay; the second
      consecutive pass ends the game with the scored winner, never a draw. */
  lemma PassEffects(s: GoState)
    requires Valid(s)
    ensures var r := Pass(s);
      && r.board == s.board && r.captures == s.captures && r.koPoint == s.koPoint && r.lastMove == s.lastMove
      && r.passCount == s.passCount + 1 && r.currentTurn == Opponent(s.currentTurn)
      && r.moveHistory == s.moveHistory + [GoMove(-1, -1, s.currentTurn, true)]
      && (r.passCount >= 2 ==> r.ended && r.winner == Some(Winner(s)) && CheckGameEnd(r) == Some(Winner(s)))
      && (r.passCount >= 2 ==> Winner(s).Win?)
      && (r.passCount < 2 ==> r.ended == s.ended && r.winner == s.winner)
  {
    WinnerNeverDraw(s);
  }

  method ProcessPass(s: GoState) returns (r: GoState)
    requires Valid(s)
    ensures r == Pass(s)
  {
    var passes := s.passCount + 1;
    var next := Opponent(s.currentTurn);
    var record := GoMove(-1, -1, s.currentTurn, true);
    if passes >= 2 {
      var w := CalculateWinner(s);
      return s.(passCount := passes, ended := true, winner := Some(w), currentTurn := next,
                moveHistory := s.moveHistory + [record]);
    }
    return s.(passCount := passes, currentTurn := next, moveHistory := s.moveHistory + [record]);
  }

  // ---------------------------------------------------------------------
  // processMove

  method ProcessMove(s: GoState, m: GoInput) returns (r: GoState)
    requires Valid(s)
    ensures Valid(r)
    ensures m.pass ==> r == Pass(s)
    ensures !m.pass && (m.row.None? || m.col.None?) ==> r == s
    ensures !m.pass && m.row.Some? && m.col.Some? ==>
      var p := (m.row.value, m.col.value);
      r == if IsLegal(s, p) then Play(s, p) else s
  {
    if m.pass {
      r := ProcessPass(s);
      return;
    }
    if m.row.None? || m.col.None? {
      return s;
    }
    var row, col := m.row.value, m.col.value;
    var p := (row, col);
    var valid := IsValidMove(s, row, col);
    if !valid {
      return s;
    }
    r := PlaceStone(s, p);
  }

  /** The placement path of processMove once isValidMove has accepted p:
      the stone goes onto a copy of the board, dead adjacent opponent groups
      are removed, a suicide without capture is rejected, and the ko point
      and the automatic end are set. */
  method PlaceStone(s: GoState, p: Point) returns (r: GoState)
    requires Valid(s) && IsLegal(s, p)
    ensures Valid(r) && r == Play(s, p)
  {
    var me := s.currentTurn;
    var t0 := Put(s.board, p, Stone(me));
    var newBoard, captured, gained := RemoveDeadNeighbours(t0, p, Opponent(me));
    var placed := GetGroup(newBoard, p, Stone(me));
    var free := HasLiberties(newBoard, placed);
    SuicideTest(s, p, newBoard, captured, placed, free);
    if !free && |captured| == 0 {
      return s;
    }
    var ko: Option<Point> := None;
    if |captured| == 1 && |placed| == 1 {
      ko := Some(captured[0]);
    }
    var next := GoState(newBoard, Opponent(me), s.captures.Add(me, gained), s.moveHistory + [GoMove(p.0, p.1, me, false)],
                        0, false, None, Some(p), ko);
    PlacementState(s, p, newBoard, captured, gained, placed, ko);
    var auto := CheckAutoWin(next);
    if auto.Some? {
      r := next.(ended := true, winner := auto);
    } else {
      r := next;
    }
  }

  /** The suicide test of processMove, on the lists it computes. */
  lemma SuicideTest(s: GoState, p: Point, newBoard: Board, captured: seq<Point>, placed: seq<Point>, free: bool)
    requires Valid(s) && InBounds(p)
    requires var t0 := Put(s.board, p, Stone(s.currentTurn));
      && newBoard == Clear(t0, Captured(t0, Opponent(s.currentTurn), p))
      && ElementsOf(captured) == Captured(t0, Opponent(s.currentTurn), p)
    requires forall q :: q in placed <==> q in Component(newBoard, Stone(s.currentTurn), p)
    requires free <==> exists q :: q in placed && HasLibertyAt(newBoard, q)
    ensures (!free && |captured| == 0) <==> Suicide(s, p)
  {
    if |captured| != 0 {
      assert captured[0] in ElementsOf(captured);
    }
  }

  /** The state processMove builds after a placement is Placement's. */
  lemma PlacementState(s: GoState, p: Point, newBoard: Board, captured: seq<Point>, gained: nat,
                       placed: seq<Point>, ko: Option<Point>)
    requires Valid(s) && InBounds(p)
    requires var t0 := Put(s.board, p, Stone(s.currentTurn));
      var gone := Captured(t0, Opponent(s.currentTurn), p);
      && newBoard == Clear(t0, gone)
      && ElementsOf(captured) == gone && gained == |captured| == |gone|
    requires |placed| == |Component(newBoard, Stone(s.currentTurn), p)|
    requires ko == if |captured| == 1 && |placed| == 1 then Some(captured[0]) else None
    ensures Placement(s, p) == GoState(newBoard, Opponent(s.currentTurn), s.captures.Add(s.currentTurn, gained),
      s.moveHistory + [GoMove(p.0, p.1, s.currentTurn, false)], 0, false, None, Some(p), ko)
  {
    var gone := Captured(Put(s.board, p, Stone(s.currentTurn)), Opponent(s.currentTurn), p);
    if |captured| == 1 && |placed| == 1 {
      assert captured[0] in ElementsOf(captured);
      OnlyIs(gone, captured[0]);
    }
    assert ko == KoAfter(gone, |Component(newBoard, Stone(s.currentTurn), p)|);
  }

  // ---------------------------------------------------------------------
  // Game end and legal moves

  function CheckGameEnd(s: GoState): (r: Option<Outcome>)
    ensures r.Some? <==> s.ended && s.winner.Some?
    ensures r.Some? ==> r == s.winner
  {
    if s.ended && s.winner.Some? then s.winner else None
  }

  /** Whether some point of one row is a legal move. */
  method RowHasLegal(s: GoState, row: int) returns (r: bool)
    requires Valid(s)
    ensures r <==> exists j :: 0 <= j < Size && IsLegal(s, (row, j))
  {
    for col := 0 to Size
      invariant forall j :: 0 <= j < col ==> !IsLegal(s, (row, j))
    {
      var legal := IsValidMove(s, row, col);
      if legal {
        assert IsLegal(s, (row, col));
        return true;
      }
    }
    return false;
  }

  /** A legal move lies on the board, so a scan of every row finds it. */
  lemma NoRowLegal(s: GoState)
    requires Valid(s)
    requires forall i, j :: 0 <= i < Size && 0 <= j < Size ==> !IsLegal(s, (i, j))
    ensures !exists p :: IsLegal(s, p)
  {
    forall p
      ensures !IsLegal(s, p)
    {
      if InBounds(p) {
        assert p == (p.0, p.1);
      }
    }
  }

  /** hasLegalMoves: scan the board row by row for a point isValidMove
      accepts. */
  method HasLegalMoves(s: GoState) returns (r: bool)
    requires Valid(s)
    ensures r <==> exists p :: IsLegal(s, p)
  {
    for row := 0 to Size
      invariant forall i, j :: 0 <= i < row && 0 <= j < Size ==> !IsLegal(s, (i, j))
    {
      var found := RowHasLegal(s, row);
      if found {
        return true;
      }
    }
    NoRowLegal(s);
    return false;
  }
}
