// Captures of src/lib/games/go.ts: after a stone is placed, processMove looks
// at the four neighbours in turn and removes each adjacent opponent group that
// has no liberty. The groups are computed one after the other on a board from
// which earlier groups were already removed; the lemmas here show that this
// makes no difference, so the removed points are exactly the dead opponent
// groups next to the placed stone.

module GoCapture {
  import opened Types
  import opened GoBoard

  /** q holds a stone of colour o whose whole group has no liberty. */
  ghost predicate Dead(b: Board, o: Color, q: Point)
    requires WellFormed(b)
  {
    Holds(b, q, Stone(o)) && !GroupHasLiberty(b, Component(b, Stone(o), q))
  }

  /** The dead o-groups at the first k of p's four neighbours, gathered
      direction by direction as processMove visits them. */
  ghost function DeadAround(b: Board, o: Color, p: Point, k: nat): set<Point>
    requires WellFormed(b) && k <= 4
  {
    if k == 0 then {}
    else
      var n := Neighbours(p)[k - 1];
      DeadAround(b, o, p, k - 1) + if Dead(b, o, n) then Component(b, Stone(o), n) else {}
  }

  /** The points a placement at p removes: all of them at once. */
  ghost function Captured(b: Board, o: Color, p: Point): set<Point>
    requires WellFormed(b)
  {
    DeadAround(b, o, p, 4)
  }

  /** s is a union of whole o-groups of b. */
  ghost predicate WholeGroups(b: Board, o: Color, s: set<Point>)
    requires WellFormed(b)
  {
    forall q :: q in s ==> Holds(b, q, Stone(o)) && Component(b, Stone(o), q) <= s
  }

  lemma {:induction false} DeadAroundWhole(b: Board, o: Color, p: Point, k: nat)
    requires WellFormed(b) && k <= 4
    ensures WholeGroups(b, o, DeadAround(b, o, p, k))
  {
    if k > 0 {
      DeadAroundWhole(b, o, p, k - 1);
      var n := Neighbours(p)[k - 1];
      if Dead(b, o, n) {
        forall q | q in Component(b, Stone(o), n)
          ensures Holds(b, q, Stone(o)) && Component(b, Stone(o), q) <= DeadAround(b, o, p, k)
        {
          ConnectedEnds(b, Stone(o), n, q);
          SameComponent(b, Stone(o), n, q);
        }
      }
    }
  }

  /** A point is captured exactly when it lies in the dead group of one of the
      four neighbours, whatever the order the neighbours are visited in. */
  lemma {:induction false} DeadAroundMembers(b: Board, o: Color, p: Point, k: nat, q: Point)
    requires WellFormed(b) && k <= 4
    ensures q in DeadAround(b, o, p, k) <==>
      exists d :: 0 <= d < k && Dead(b, o, Neighbours(p)[d]) && q in Component(b, Stone(o), Neighbours(p)[d])
  {
    if k > 0 {
      DeadAroundMembers(b, o, p, k - 1, q);
    }
  }

  lemma CapturedMembers(b: Board, o: Color, p: Point, q: Point)
    requires WellFormed(b)
    ensures q in Captured(b, o, p) <==>
      exists d :: 0 <= d < 4 && Dead(b, o, Neighbours(p)[d]) && q in Component(b, Stone(o), Neighbours(p)[d])
  {
    DeadAroundMembers(b, o, p, 4, q);
  }

  /** Only opponent stones are removed, so the placed stone itself stays. */
  lemma CapturedAreOpponentStones(b: Board, o: Color, p: Point)
    requires WellFormed(b)
    ensures forall q :: q in Captured(b, o, p) ==> Holds(b, q, Stone(o))
  {
    DeadAroundWhole(b, o, p, 4);
  }

  // ---------------------------------------------------------------------
  // Boards with points cleared

  lemma ClearNothing(b: Board)
    requires WellFormed(b)
    ensures Clear(b, {}) == b
  {
    BoardsEqual(Clear(b, {}), b);
  }

  lemma ClearTwice(b: Board, s: set<Point>, t: set<Point>)
    requires WellFormed(b)
    ensures Clear(Clear(b, s), t) == Clear(b, s + t)
  {
    BoardsEqual(Clear(Clear(b, s), t), Clear(b, s + t));
  }

  lemma PutEmptyIsClear(b: Board, s: set<Point>, p: Point)
    requires WellFormed(b) && InBounds(p)
    ensures Put(Clear(b, s), p, Empty) == Clear(b, s + {p})
  {
    BoardsEqual(Put(Clear(b, s), p, Empty), Clear(b, s + {p}));
  }

  /** Connectivity depends on the board only through the cells on the path. */
  lemma PathOnOtherBoard(a: Board, c: Board, x: Cell, path: seq<Point>)
    requires WellFormed(a) && WellFormed(c) && IsPath(a, x, path)
    requires forall i :: 0 <= i < |path| ==> Holds(c, path[i], x)
    ensures IsPath(c, x, path)
  {
  }

  /** No point of n's group lies in a union of whole groups that misses n. */
  lemma GroupOutside(b: Board, o: Color, s: set<Point>, n: Point)
    requires WellFormed(b) && WholeGroups(b, o, s) && n !in s && InBounds(n)
    ensures Component(b, Stone(o), n) !! s
  {
    forall q | q in Component(b, Stone(o), n) ensures q !in s {
      InOwnGroup(b, Stone(o), n, q);
    }
  }

  lemma InOwnGroup(b: Board, x: Cell, p: Point, q: Point)
    requires WellFormed(b) && InBounds(p) && Connected(b, x, p, q)
    ensures p in Component(b, x, q)
  {
    ConnectedSymmetric(b, x, p, q);
    InAllPoints(p);
  }

  lemma NeighbourInGroup(b: Board, x: Cell, n: Point, q: Point, r: Point)
    requires WellFormed(b) && q in Component(b, x, n) && r in Neighbours(q) && Holds(b, r, x)
    ensures r in Component(b, x, n)
  {
    ConnectedStep(b, x, n, q, r);
    InAllPoints(r);
  }

  /** Clearing whole o-groups other than n's leaves n's group as it was. */
  lemma ClearKeepsGroup(b: Board, o: Color, s: set<Point>, n: Point)
    requires WellFormed(b) && WholeGroups(b, o, s) && Holds(b, n, Stone(o)) && n !in s
    ensures Component(Clear(b, s), Stone(o), n) == Component(b, Stone(o), n)
  {
    var x, c := Stone(o), Clear(b, s);
    GroupOutside(b, o, s, n);
    forall q | q in Component(c, x, n) ensures q in Component(b, x, n) {
      var path :| IsPath(c, x, path) && path[0] == n && path[|path| - 1] == q;
      PathOnOtherBoard(c, b, x, path);
    }
    forall q | q in Component(b, x, n) ensures q in Component(c, x, n) {
      var path :| IsPath(b, x, path) && path[0] == n && path[|path| - 1] == q;
      forall i | 0 <= i < |path| ensures Holds(c, path[i], x) {
        var prefix := path[..i + 1];
        assert IsPath(b, x, prefix);
        InAllPoints(path[i]);
        assert path[i] in Component(b, x, n);
      }
      PathOnOtherBoard(b, c, x, path);
    }
  }

  /** ... and leaves every liberty of that group as it was. */
  lemma ClearKeepsLiberties(b: Board, o: Color, s: set<Point>, n: Point)
    requires WellFormed(b) && WholeGroups(b, o, s) && Holds(b, n, Stone(o)) && n !in s
    ensures GroupHasLiberty(Clear(b, s), Component(b, Stone(o), n)) <==> GroupHasLiberty(b, Component(b, Stone(o), n))
  {
    var x, c := Stone(o), Clear(b, s);
    var g := Component(b, x, n);
    GroupOutside(b, o, s, n);
    forall q | q in g ensures HasLibertyAt(c, q) <==> HasLibertyAt(b, q) {
      forall d | 0 <= d < 4 ensures Holds(c, Neighbours(q)[d], Empty) <==> Holds(b, Neighbours(q)[d], Empty) {
        var r := Neighbours(q)[d];
        if Holds(b, r, x) {
          NeighbourInGroup(b, x, n, q, r);
        }
      }
    }
  }

  // ---------------------------------------------------------------------
  // The capture loop of processMove

  lemma ElementsOfAppend(a: seq<Point>, b: seq<Point>)
    ensures ElementsOf(a + b) == ElementsOf(a) + ElementsOf(b)
  {
  }

  /** The group the capture loop finds at the d-th neighbour, on the board
      from which the earlier dead groups are gone, is that neighbour's group
      on t0, and it is free exactly when it is not dead on t0. */
  lemma CaptureSees(t0: Board, o: Color, p: Point, d: nat, board: Board, group: seq<Point>, free: bool)
    requires WellFormed(t0) && d < 4
    requires board == Clear(t0, DeadAround(t0, o, p, d))
    requires Holds(board, Neighbours(p)[d], Stone(o))
    requires forall q :: q in group <==> q in Component(board, Stone(o), Neighbours(p)[d])
    requires |group| == |Component(board, Stone(o), Neighbours(p)[d])|
    requires free <==> exists q :: q in group && HasLibertyAt(board, q)
    ensures ElementsOf(group) == Component(t0, Stone(o), Neighbours(p)[d])
    ensures |group| == |Component(t0, Stone(o), Neighbours(p)[d])|
    ensures Component(t0, Stone(o), Neighbours(p)[d]) !! DeadAround(t0, o, p, d)
    ensures free <==> !Dead(t0, o, Neighbours(p)[d])
    ensures forall q :: q in group ==> InBounds(q)
  {
    var n, dead := Neighbours(p)[d], DeadAround(t0, o, p, d);
    DeadAroundWhole(t0, o, p, d);
    assert n !in dead && Holds(t0, n, Stone(o));
    ClearKeepsGroup(t0, o, dead, n);
    ClearKeepsLiberties(t0, o, dead, n);
    GroupOutside(t0, o, dead, n);
    forall q | q in group ensures InBounds(q) {
      InAllPoints(q);
    }
  }

  /** One direction of the capture loop: how the dead groups gathered so far
      and the captured list grow. */
  lemma CaptureStep(t0: Board, o: Color, p: Point, d: nat, board: Board, captured: seq<Point>,
                    group: seq<Point>, free: bool)
    requires WellFormed(t0) && d < 4
    requires board == Clear(t0, DeadAround(t0, o, p, d))
    requires ElementsOf(captured) == DeadAround(t0, o, p, d) && |captured| == |DeadAround(t0, o, p, d)|
    requires Holds(board, Neighbours(p)[d], Stone(o))
    requires forall q :: q in group <==> q in Component(board, Stone(o), Neighbours(p)[d])
    requires |group| == |Component(board, Stone(o), Neighbours(p)[d])|
    requires free <==> exists q :: q in group && HasLibertyAt(board, q)
    ensures free ==> DeadAround(t0, o, p, d + 1) == DeadAround(t0, o, p, d)
    ensures !free ==> DeadAround(t0, o, p, d + 1) == DeadAround(t0, o, p, d) + ElementsOf(group)
    ensures !free ==> |captured + group| == |DeadAround(t0, o, p, d + 1)|
    ensures forall q :: q in group ==> InBounds(q)
  {
    CaptureSees(t0, o, p, d, board, group, free);
    if !free {
      CaptureGrows(t0, o, p, d, captured, group);
    }
  }

  /** A dead group outside the ones gathered so far is added whole, and the
      captured list, extended by it, still counts the gathered points. */
  lemma CaptureGrows(t0: Board, o: Color, p: Point, d: nat, captured: seq<Point>, group: seq<Point>)
    requires WellFormed(t0) && d < 4 && Dead(t0, o, Neighbours(p)[d])
    requires ElementsOf(captured) == DeadAround(t0, o, p, d) && |captured| == |DeadAround(t0, o, p, d)|
    requires ElementsOf(group) == Component(t0, Stone(o), Neighbours(p)[d])
    requires |group| == |Component(t0, Stone(o), Neighbours(p)[d])|
    requires Component(t0, Stone(o), Neighbours(p)[d]) !! DeadAround(t0, o, p, d)
    ensures DeadAround(t0, o, p, d + 1) == DeadAround(t0, o, p, d) + ElementsOf(group)
    ensures |captured + group| == |DeadAround(t0, o, p, d + 1)|
  {
    var before, added := DeadAround(t0, o, p, d), Component(t0, Stone(o), Neighbours(p)[d]);
    assert before * added == {};
    assert |before + added| == |before| + |added|;
  }

  /** A direction whose neighbour holds no o-stone on the current board adds
      nothing: either no o-stone was ever there or its group is already gone. */
  lemma CaptureSkip(t0: Board, o: Color, p: Point, d: nat, board: Board)
    requires WellFormed(t0) && d < 4
    requires board == Clear(t0, DeadAround(t0, o, p, d))
    requires !Holds(board, Neighbours(p)[d], Stone(o))
    ensures DeadAround(t0, o, p, d + 1) == DeadAround(t0, o, p, d)
  {
    var n := Neighbours(p)[d];
    DeadAroundWhole(t0, o, p, d);
    if Dead(t0, o, n) {
      assert n in DeadAround(t0, o, p, d);
    }
  }

  /** The inner loop of the capture loop: every stone of a dead group is
      emptied and appended to the captured list. */
  method ClearStones(board0: Board, group: seq<Point>, captured0: seq<Point>) returns (board: Board, captured: seq<Point>)
    requires WellFormed(board0) && forall q :: q in group ==> InBounds(q)
    ensures WellFormed(board)
    ensures board == Clear(board0, ElementsOf(group))
    ensures captured == captured0 + group
  {
    board, captured := board0, captured0;
    ClearNothing(board0);
    assert ElementsOf(group[..0]) == {};
    for k := 0 to |group|
      invariant WellFormed(board)
      invariant board == Clear(board0, ElementsOf(group[..k]))
      invariant captured == captured0 + group[..k]
    {
      PutEmptyIsClear(board0, ElementsOf(group[..k]), group[k]);
      assert ElementsOf(group[..k + 1]) == ElementsOf(group[..k]) + {group[k]};
      board := Put(board, group[k], Empty);
      captured := captured + [group[k]];
    }
    assert group[..|group|] == group;
  }

  /** The capture loop of processMove on the board t0 that already holds the
      placed stone at p: it removes the dead o-groups next to p, lists the
      removed points in captured and counts them in gained. */
  method RemoveDeadNeighbours(t0: Board, p: Point, o: Color) returns (board: Board, captured: seq<Point>, gained: nat)
    requires WellFormed(t0)
    ensures WellFormed(board)
    ensures board == Clear(t0, Captured(t0, o, p))
    ensures ElementsOf(captured) == Captured(t0, o, p)
    ensures gained == |captured| == |Captured(t0, o, p)|
  {
    board, captured, gained := t0, [], 0;
    ClearNothing(t0);
    for d := 0 to 4
      invariant WellFormed(board)
      invariant board == Clear(t0, DeadAround(t0, o, p, d))
      invariant ElementsOf(captured) == DeadAround(t0, o, p, d)
      invariant gained == |captured| == |DeadAround(t0, o, p, d)|
    {
      var n := Neighbours(p)[d];
      if InBounds(n) && At(board, n) == Stone(o) {
        var group := GetGroup(board, n, Stone(o));
        var free := HasLiberties(board, group);
        CaptureStep(t0, o, p, d, board, captured, group, free);
        if !free {
          ghost var before, cap0 := board, captured;
          board, captured := ClearStones(board, group, captured);
          ClearTwice(t0, DeadAround(t0, o, p, d), ElementsOf(group));
          ElementsOfAppend(cap0, group);
          gained := gained + |group|;
        }
      } else {
        CaptureSkip(t0, o, p, d, board);
      }
    }
  }
}
