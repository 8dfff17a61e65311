// The 19x19 Go board of src/lib/games/go.ts: points, neighbours, connected
// groups defined by paths, and the stack-based flood fills (getGroup,
// getEmptyRegion), the liberty test (hasLiberties), the border colour test
// (determineRegionOwner) and the cell counts that scoring and auto-win use.

module GoBoard {
  import opened Types

  const Size: int := 19

  datatype Cell = Empty | Stone(color: Color)

  /** (row, col); the source keys its visited sets by the string "row,col". */
  type Point = (int, int)

  type Board = seq<seq<Cell>>

  predicate WellFormed(b: Board) {
    |b| == Size && forall r :: 0 <= r < Size ==> |b[r]| == Size
  }

  predicate InBounds(p: Point) {
    0 <= p.0 < Size && 0 <= p.1 < Size
  }

  function At(b: Board, p: Point): Cell
    requires WellFormed(b) && InBounds(p)
  {
    b[p.0][p.1]
  }

  /** p is on the board and holds x. */
  predicate Holds(b: Board, p: Point, x: Cell)
    requires WellFormed(b)
  {
    InBounds(p) && At(b, p) == x
  }

  /** The four orthogonal neighbours, in the order the source pushes them. */
  function Neighbours(p: Point): seq<Point> {
    [(p.0 - 1, p.1), (p.0 + 1, p.1), (p.0, p.1 - 1), (p.0, p.1 + 1)]
  }

  /** Every point of the board. */
  const AllPoints: set<Point> := set r, c | 0 <= r < Size && 0 <= c < Size :: (r, c)

  /** The board and a one-point margin around it: everything a flood fill
      started on the board can push. */
  const Frame: set<Point> := set r, c | -1 <= r <= Size && -1 <= c <= Size :: (r, c)

  lemma InAllPoints(p: Point)
    ensures p in AllPoints <==> InBounds(p)
  {
    if InBounds(p) {
      var (r, c) := p;
      assert (r, c) in AllPoints;
    }
  }

  lemma NeighboursInFrame(p: Point)
    requires InBounds(p)
    ensures forall q :: q in Neighbours(p) ==> q in Frame
  {
    var (r, c) := p;
    assert (r - 1, c) in Frame && (r + 1, c) in Frame;
    assert (r, c - 1) in Frame && (r, c + 1) in Frame;
  }

  function Put(b: Board, p: Point, x: Cell): (r: Board)
    requires WellFormed(b) && InBounds(p)
    ensures WellFormed(r)
    ensures forall q :: InBounds(q) ==> At(r, q) == if q == p then x else At(b, q)
  {
    b[p.0 := b[p.0][p.1 := x]]
  }

  /** The board with every point of s emptied. */
  function Clear(b: Board, s: set<Point>): (r: Board)
    requires WellFormed(b)
    ensures WellFormed(r)
    ensures forall q :: InBounds(q) ==> At(r, q) == if q in s then Empty else At(b, q)
  {
    seq(Size, i requires 0 <= i < Size => seq(Size, j requires 0 <= j < Size => if (i, j) in s then Empty else b[i][j]))
  }

  lemma BoardsEqual(a: Board, b: Board)
    requires WellFormed(a) && WellFormed(b)
    requires forall q :: InBounds(q) ==> At(a, q) == At(b, q)
    ensures a == b
  {
    forall i | 0 <= i < Size ensures a[i] == b[i] {
      forall j | 0 <= j < Size ensures a[i][j] == b[i][j] {
        assert At(a, (i, j)) == At(b, (i, j));
      }
    }
  }

  function ElementsOf(s: seq<Point>): set<Point> {
    set q | q in s
  }

  // ---------------------------------------------------------------------
  // Connectivity

  /** A walk through orthogonally adjacent points that all hold x. */
  ghost predicate IsPath(b: Board, x: Cell, path: seq<Point>)
    requires WellFormed(b)
  {
    && |path| > 0
    && (forall i :: 0 <= i < |path| ==> Holds(b, path[i], x))
    && (forall i, j :: 0 <= i && j == i + 1 && j < |path| ==> path[j] in Neighbours(path[i]))
  }

  ghost predicate Connected(b: Board, x: Cell, p: Point, q: Point)
    requires WellFormed(b)
  {
    exists path :: IsPath(b, x, path) && path[0] == p && path[|path| - 1] == q
  }

  /** The 4-connected component of x-cells containing p (empty when p does not
      hold x): a group of stones, or an empty region when x is Empty. */
  ghost function Component(b: Board, x: Cell, p: Point): set<Point>
    requires WellFormed(b)
  {
    set q | q in AllPoints && Connected(b, x, p, q)
  }

  lemma ConnectedSelf(b: Board, x: Cell, p: Point)
    requires WellFormed(b) && Holds(b, p, x)
    ensures Connected(b, x, p, p)
  {
    assert IsPath(b, x, [p]);
  }

  lemma ConnectedEnds(b: Board, x: Cell, p: Point, q: Point)
    requires WellFormed(b) && Connected(b, x, p, q)
    ensures Holds(b, p, x) && Holds(b, q, x)
  {
    var path :| IsPath(b, x, path) && path[0] == p && path[|path| - 1] == q;
  }

  lemma ConnectedStep(b: Board, x: Cell, p: Point, q: Point, r: Point)
    requires WellFormed(b) && Connected(b, x, p, q)
    requires r in Neighbours(q) && Holds(b, r, x)
    ensures Connected(b, x, p, r)
  {
    var path :| IsPath(b, x, path) && path[0] == p && path[|path| - 1] == q;
    var longer := path + [r];
    assert IsPath(b, x, longer);
  }

  lemma NeighbourSymmetric(p: Point, q: Point)
    requires q in Neighbours(p)
    ensures p in Neighbours(q)
  {
  }

  lemma ConnectedSymmetric(b: Board, x: Cell, p: Point, q: Point)
    requires WellFormed(b) && Connected(b, x, p, q)
    ensures Connected(b, x, q, p)
  {
    var path :| IsPath(b, x, path) && path[0] == p && path[|path| - 1] == q;
    var n := |path|;
    var back := seq(n, i requires 0 <= i < n => path[n - 1 - i]);
    forall i, j | 0 <= i && j == i + 1 && j < n ensures back[j] in Neighbours(back[i]) {
      var i', j' := n - 1 - j, n - 1 - i;
      assert path[j'] in Neighbours(path[i']);
      NeighbourSymmetric(path[i'], path[j']);
    }
    assert IsPath(b, x, back);
  }

  lemma ConnectedTransitive(b: Board, x: Cell, p: Point, q: Point, r: Point)
    requires WellFormed(b) && Connected(b, x, p, q) && Connected(b, x, q, r)
    ensures Connected(b, x, p, r)
  {
    var first :| IsPath(b, x, first) && first[0] == p && first[|first| - 1] == q;
    var second :| IsPath(b, x, second) && second[0] == q && second[|second| - 1] == r;
    var joined := first + second[1..];
    forall i | 0 <= i < |joined| - 1 ensures joined[i + 1] in Neighbours(joined[i]) {
      if i < |first| - 1 {
      } else {
        assert joined[i] == second[i - |first| + 1];
      }
    }
    assert IsPath(b, x, joined);
  }

  /** Points of one component have that same component. */
  lemma {:induction false} SameComponent(b: Board, x: Cell, p: Point, q: Point)
    requires WellFormed(b) && q in Component(b, x, p)
    ensures Component(b, x, q) == Component(b, x, p)
  {
    ConnectedSymmetric(b, x, p, q);
    forall r | r in Component(b, x, q) ensures r in Component(b, x, p) {
      ConnectedTransitive(b, x, p, q, r);
    }
    forall r | r in Component(b, x, p) ensures r in Component(b, x, q) {
      ConnectedTransitive(b, x, q, p, r);
    }
  }

  /** A board on which every x-cell of a is still an x-cell joins at least
      the points a joins. */
  lemma ComponentGrows(a: Board, c: Board, x: Cell, p: Point)
    requires WellFormed(a) && WellFormed(c)
    requires forall q :: Holds(a, q, x) ==> Holds(c, q, x)
    ensures Component(a, x, p) <= Component(c, x, p)
  {
    forall q | q in Component(a, x, p) ensures q in Component(c, x, p) {
      var path :| IsPath(a, x, path) && path[0] == p && path[|path| - 1] == q;
      assert forall i :: 0 <= i < |path| ==> Holds(c, path[i], x);
      assert IsPath(c, x, path);
    }
  }

  /** A set holding p and closed under x-coloured neighbours holds p's component. */
  lemma ClosedContainsComponent(b: Board, x: Cell, p: Point, s: set<Point>)
    requires WellFormed(b) && p in s
    requires forall q, r :: q in s && r in Neighbours(q) && Holds(b, r, x) ==> r in s
    ensures Component(b, x, p) <= s
  {
    forall q | q in Component(b, x, p) ensures q in s {
      var path :| IsPath(b, x, path) && path[0] == p && path[|path| - 1] == q;
      PathStaysInside(b, x, path, s, |path| - 1);
    }
  }

  lemma {:induction false} PathStaysInside(b: Board, x: Cell, path: seq<Point>, s: set<Point>, k: nat)
    requires WellFormed(b) && IsPath(b, x, path) && path[0] in s && k < |path|
    requires forall q, r :: q in s && r in Neighbours(q) && Holds(b, r, x) ==> r in s
    ensures path[k] in s
  {
    if k > 0 {
      PathStaysInside(b, x, path, s, k - 1);
      assert path[k] in Neighbours(path[k - 1]);
    }
  }

  // ---------------------------------------------------------------------
  // getGroup

  lemma PopMembership(stack: seq<Point>)
    requires |stack| > 0
    ensures forall r :: r in stack ==> r == stack[|stack| - 1] || r in stack[..|stack| - 1]
  {
    assert stack == stack[..|stack| - 1] + [stack[|stack| - 1]];
  }

  /** Pushing p's neighbours after popping p keeps every neighbour of a
      member either visited or on the stack. */
  lemma CoverAfterPush(members: set<Point>, visited: set<Point>, before: seq<Point>, p: Point)
    requires |before| > 0 && before[|before| - 1] == p && p in visited
    requires forall q, r :: q in members && r in Neighbours(q) ==> r in visited || r in before
    ensures forall q, r :: q in members + {p} && r in Neighbours(q) ==>
      r in visited || r in before[..|before| - 1] + Neighbours(p)
  {
    PopMembership(before);
  }

  /** What getGroup's loop keeps: group lists the members without repeats;
      members are the visited x-cells, all connected to start; every
      neighbour of a member is visited or still on the stack. */
  ghost predicate GroupFill(b: Board, x: Cell, start: Point, group: seq<Point>, members: set<Point>,
                            visited: set<Point>, stack: seq<Point>)
    requires WellFormed(b)
  {
    && (forall q :: q in group <==> q in members)
    && |members| == |group|
    && (forall i, j :: 0 <= i < j < |group| ==> group[i] != group[j])
    && (forall q :: q in members ==> q in visited && Holds(b, q, x) && Connected(b, x, start, q))
    && (forall q :: q in visited && Holds(b, q, x) ==> q in members)
    && (forall q, r :: q in members && r in Neighbours(q) ==> r in visited || r in stack)
    && (start in visited || start in stack)
    && (forall q :: q in stack && Holds(b, q, x) ==> Connected(b, x, start, q))
  }

  /** GroupFill from its parts, for the steps that establish each part on
      its own. */
  lemma FoldGroupFill(b: Board, x: Cell, start: Point, g: seq<Point>, m: set<Point>,
                      v: set<Point>, st: seq<Point>)
    requires WellFormed(b)
    requires (forall q :: q in g <==> q in m)
    requires |m| == |g|
    requires (forall i, j :: 0 <= i < j < |g| ==> g[i] != g[j])
    requires (forall q :: q in m ==> q in v && Holds(b, q, x) && Connected(b, x, start, q))
    requires (forall q :: q in v && Holds(b, q, x) ==> q in m)
    requires (forall q, r :: q in m && r in Neighbours(q) ==> r in v || r in st)
    requires (start in v || start in st)
    requires (forall q :: q in st && Holds(b, q, x) ==> Connected(b, x, start, q))
    ensures GroupFill(b, x, start, g, m, v, st)
  {
  }

  /** Popping a point that is already visited, off the board or of another
      colour only marks it visited. */
  lemma GroupSkip(b: Board, x: Cell, start: Point, group: seq<Point>, members: set<Point>,
                  visited: set<Point>, stack: seq<Point>)
    requires WellFormed(b) && GroupFill(b, x, start, group, members, visited, stack) && |stack| > 0
    requires stack[|stack| - 1] in visited || !Holds(b, stack[|stack| - 1], x)
    ensures GroupFill(b, x, start, group, members, visited + {stack[|stack| - 1]}, stack[..|stack| - 1])
  {
    var p, rest := stack[|stack| - 1], stack[..|stack| - 1];
    PopMembership(stack);
    forall q, r | q in members && r in Neighbours(q) ensures r in visited + {p} || r in rest {
      assert r in visited || r in stack;
    }
    forall q | q in rest && Holds(b, q, x) ensures Connected(b, x, start, q) {
      assert q in stack;
    }
  }

  /** Popping an unvisited x-cell adds it to the group and pushes its neighbours. */
  lemma GroupAdd(b: Board, x: Cell, start: Point, group: seq<Point>, members: set<Point>,
                 visited: set<Point>, stack: seq<Point>)
    requires WellFormed(b) && GroupFill(b, x, start, group, members, visited, stack) && |stack| > 0
    requires stack[|stack| - 1] !in visited && Holds(b, stack[|stack| - 1], x)
    ensures var p := stack[|stack| - 1];
      GroupFill(b, x, start, group + [p], members + {p}, visited + {p}, stack[..|stack| - 1] + Neighbours(p))
  {
    var p := stack[|stack| - 1];
    var g, m, v, st := group + [p], members + {p}, visited + {p}, stack[..|stack| - 1] + Neighbours(p);
    CoverAfterPush(members, v, stack, p);
    ReachAfterPush(b, x, start, stack);
    AppendFresh(group, members, p);
    AppendDistinct(group, p);
    assert Connected(b, x, start, p) by {
      assert p in stack;
    }
    FoldGroupFill(b, x, start, g, m, v, st);
  }

  /** Appending a point the list does not hold keeps it repeat-free. */
  lemma AppendDistinct(list: seq<Point>, p: Point)
    requires forall i, j :: 0 <= i < j < |list| ==> list[i] != list[j]
    requires p !in list
    ensures forall i, j :: 0 <= i < j < |list + [p]| ==> (list + [p])[i] != (list + [p])[j]
  {
  }

  /** Popping an x-cell connected to start and pushing its neighbours keeps
      every x-cell on the stack connected to start. */
  lemma ReachAfterPush(b: Board, x: Cell, start: Point, stack: seq<Point>)
    requires WellFormed(b) && |stack| > 0 && Holds(b, stack[|stack| - 1], x)
    requires forall q :: q in stack && Holds(b, q, x) ==> Connected(b, x, start, q)
    ensures forall q :: q in stack[..|stack| - 1] + Neighbours(stack[|stack| - 1]) && Holds(b, q, x) ==>
      Connected(b, x, start, q)
  {
    var p := stack[|stack| - 1];
    PopMembership(stack);
    forall r | r in Neighbours(p) && Holds(b, r, x) ensures Connected(b, x, start, r) {
      ConnectedStep(b, x, start, p, r);
    }
  }

  /** Appending a point that is not yet a member keeps the list in step
      with the member set. */
  lemma AppendFresh(list: seq<Point>, members: set<Point>, p: Point)
    requires forall q :: q in list <==> q in members
    requires |members| == |list| && p !in members
    ensures forall q :: q in list + [p] <==> q in members + {p}
    ensures |members + {p}| == |list + [p]|
  {
  }

  /** When the stack is empty the members are exactly start's component. */
  lemma GroupDone(b: Board, x: Cell, start: Point, group: seq<Point>, members: set<Point>, visited: set<Point>)
    requires WellFormed(b) && GroupFill(b, x, start, group, members, visited, [])
    ensures members == Component(b, x, start)
  {
    if Holds(b, start, x) {
      ClosedContainsComponent(b, x, start, members);
    } else {
      forall q | q in Component(b, x, start) ensures false {
        ConnectedEnds(b, x, start, q);
      }
    }
    forall q | q in members ensures q in Component(b, x, start) {
      InAllPoints(q);
    }
  }

  /** One turn of getGroup's loop: the top of the stack is dropped when it
      is visited, and marked visited and dropped when it is off the board or
      does not hold x; otherwise it joins the group and its four neighbours
      are pushed. */
  method GroupStep(b: Board, x: Cell, start: Point, ghost dom: set<Point>, group: seq<Point>,
                   ghost members: set<Point>, visited: set<Point>, stack: seq<Point>)
    returns (group': seq<Point>, ghost members': set<Point>, visited': set<Point>, stack': seq<Point>)
    requires WellFormed(b) && |stack| > 0 && Frame <= dom
    requires forall q :: q in stack ==> q in dom
    requires visited <= dom
    requires GroupFill(b, x, start, group, members, visited, stack)
    ensures forall q :: q in stack' ==> q in dom
    ensures visited' <= dom
    ensures GroupFill(b, x, start, group', members', visited', stack')
    ensures dom - visited' < dom - visited || (visited' == visited && |stack'| < |stack|)
  {
    var p := stack[|stack| - 1];
    if p in visited {
      GroupSkip(b, x, start, group, members, visited, stack);
      assert visited + {p} == visited;
      return group, members, visited, stack[..|stack| - 1];
    }
    if !InBounds(p) || At(b, p) != x {
      GroupSkip(b, x, start, group, members, visited, stack);
      assert p in dom - visited && p !in dom - (visited + {p});
      return group, members, visited + {p}, stack[..|stack| - 1];
    }
    GroupAdd(b, x, start, group, members, visited, stack);
    NeighboursInFrame(p);
    group', members', visited' := group + [p], members + {p}, visited + {p};
    stack' := stack[..|stack| - 1] + Neighbours(p);
    assert p in dom - visited && p !in dom - visited';
  }

  /** The stack-based flood fill of getGroup. A point is marked visited before
      its bounds and colour are looked at, as in the source. */
  method GetGroup(b: Board, start: Point, x: Cell) returns (group: seq<Point>)
    requires WellFormed(b)
    ensures forall q :: q in group <==> q in Component(b, x, start)
    ensures |group| == |Component(b, x, start)|
    ensures forall i, j :: 0 <= i < j < |group| ==> group[i] != group[j]
  {
    group := [];
    ghost var members: set<Point> := {};
    ghost var dom := Frame + {start};
    var visited: set<Point> := {};
    var stack: seq<Point> := [start];
    while |stack| > 0
      invariant forall q :: q in stack ==> q in dom
      invariant visited <= dom
      invariant GroupFill(b, x, start, group, members, visited, stack)
      decreases dom - visited, |stack|
    {
      group, members, visited, stack := GroupStep(b, x, start, dom, group, members, visited, stack);
    }
    GroupDone(b, x, start, group, members, visited);
  }

  // ---------------------------------------------------------------------
  // hasLiberties

  /** Some orthogonal neighbour of p is an empty point of the board. */
  predicate HasLibertyAt(b: Board, p: Point)
    requires WellFormed(b)
  {
    exists d :: 0 <= d < 4 && Holds(b, Neighbours(p)[d], Empty)
  }

  ghost predicate GroupHasLiberty(b: Board, s: set<Point>)
    requires WellFormed(b)
  {
    exists q :: q in s && HasLibertyAt(b, q)
  }

  method HasLiberties(b: Board, group: seq<Point>) returns (r: bool)
    requires WellFormed(b)
    ensures r <==> exists q :: q in group && HasLibertyAt(b, q)
  {
    var i := 0;
    while i < |group|
      invariant 0 <= i <= |group|
      invariant forall k :: 0 <= k < i ==> !HasLibertyAt(b, group[k])
    {
      var d := 0;
      while d < 4
        invariant 0 <= d <= 4
        invariant forall e :: 0 <= e < d ==> !Holds(b, Neighbours(group[i])[e], Empty)
      {
        var q := Neighbours(group[i])[d];
        if InBounds(q) && At(b, q) == Empty {
          assert Holds(b, Neighbours(group[i])[d], Empty);
          assert group[i] in group && HasLibertyAt(b, group[i]);
          return true;
        }
        d := d + 1;
      }
      i := i + 1;
    }
    return false;
  }

  // ---------------------------------------------------------------------
  // getEmptyRegion

  /** A visited set made of whole empty regions, as calculateTerritory keeps it. */
  ghost predicate RegionClosed(b: Board, visited: set<Point>)
    requires WellFormed(b)
  {
    forall q :: q in visited ==> Holds(b, q, Empty) && Component(b, Empty, q) <= visited
  }

  /** What getEmptyRegion's loop keeps: the shared visited set grows by the
      members, which region lists; members are empty points connected to
      start; every empty neighbour of a member is visited or on the stack. */
  ghost predicate RegionFill(b: Board, start: Point, visited0: set<Point>, region: seq<Point>,
                             members: set<Point>, visited: set<Point>, stack: seq<Point>)
    requires WellFormed(b)
  {
    && Holds(b, start, Empty) && start !in visited0
    && visited == visited0 + members
    && (forall q :: q in region <==> q in members)
    && |members| == |region|
    && (forall q :: q in members ==> Holds(b, q, Empty) && Connected(b, Empty, start, q))
    && (forall q, r :: q in members && r in Neighbours(q) ==> r in visited || r in stack || !Holds(b, r, Empty))
    && (start in members || start in stack)
    && (forall q :: q in stack && Holds(b, q, Empty) ==> Connected(b, Empty, start, q))
  }

  lemma RegionSkip(b: Board, start: Point, visited0: set<Point>, region: seq<Point>,
                   members: set<Point>, visited: set<Point>, stack: seq<Point>)
    requires WellFormed(b) && RegionFill(b, start, visited0, region, members, visited, stack) && |stack| > 0
    requires stack[|stack| - 1] in visited || !Holds(b, stack[|stack| - 1], Empty)
    ensures RegionFill(b, start, visited0, region, members, visited, stack[..|stack| - 1])
  {
    var p, rest := stack[|stack| - 1], stack[..|stack| - 1];
    PopMembership(stack);
    forall q, r | q in members && r in Neighbours(q) ensures r in visited || r in rest || !Holds(b, r, Empty) {
      assert r in visited || r in stack || !Holds(b, r, Empty);
    }
    forall q | q in rest && Holds(b, q, Empty) ensures Connected(b, Empty, start, q) {
      assert q in stack;
    }
    if start !in members {
      assert start in stack && start != p;
    }
  }

  lemma RegionAddCover(b: Board, members: set<Point>, visited: set<Point>, stack: seq<Point>)
    requires WellFormed(b) && |stack| > 0
    requires forall q, r :: q in members && r in Neighbours(q) ==> r in visited || r in stack || !Holds(b, r, Empty)
    ensures var p := stack[|stack| - 1];
      forall q, r :: q in members + {p} && r in Neighbours(q) ==>
        r in visited + {p} || r in stack[..|stack| - 1] + Neighbours(p) || !Holds(b, r, Empty)
  {
    var p, rest := stack[|stack| - 1], stack[..|stack| - 1];
    PopMembership(stack);
    forall q, r | q in members + {p} && r in Neighbours(q)
      ensures r in visited + {p} || r in rest + Neighbours(p) || !Holds(b, r, Empty)
    {
      if q in members {
        assert r in visited || r in stack || !Holds(b, r, Empty);
      }
    }
  }

  lemma InOwnRegion(b: Board, p: Point, q: Point)
    requires WellFormed(b) && InBounds(p) && Connected(b, Empty, p, q)
    ensures p in Component(b, Empty, q)
  {
    ConnectedSymmetric(b, Empty, p, q);
    InAllPoints(p);
  }

  /** calculateTerritory's visited set, made of whole regions, misses all of
      the region of any empty point outside it. */
  lemma ClosedMissesRegion(b: Board, visited0: set<Point>, start: Point)
    requires WellFormed(b) && RegionClosed(b, visited0)
    requires Holds(b, start, Empty) && start !in visited0
    ensures visited0 !! Component(b, Empty, start)
  {
    forall q | q in Component(b, Empty, start) ensures q !in visited0 {
      InOwnRegion(b, start, q);
    }
  }

  lemma RegionAdd(b: Board, start: Point, visited0: set<Point>, region: seq<Point>,
                  members: set<Point>, visited: set<Point>, stack: seq<Point>)
    requires WellFormed(b) && RegionFill(b, start, visited0, region, members, visited, stack) && |stack| > 0
    requires stack[|stack| - 1] !in visited && Holds(b, stack[|stack| - 1], Empty)
    ensures var p := stack[|stack| - 1];
      RegionFill(b, start, visited0, region + [p], members + {p}, visited + {p}, stack[..|stack| - 1] + Neighbours(p))
  {
    var p := stack[|stack| - 1];
    var r, m, v, st := region + [p], members + {p}, visited + {p}, stack[..|stack| - 1] + Neighbours(p);
    RegionAddCover(b, members, visited, stack);
    ReachAfterPush(b, Empty, start, stack);
    AppendFresh(region, members, p);
    assert Connected(b, Empty, start, p) by {
      assert p in stack;
    }
    FoldRegionFill(b, start, visited0, r, m, v, st);
  }

  /** RegionFill from its parts. */
  lemma FoldRegionFill(b: Board, start: Point, visited0: set<Point>, region: seq<Point>,
                       members: set<Point>, visited: set<Point>, stack: seq<Point>)
    requires WellFormed(b)
    requires Holds(b, start, Empty) && start !in visited0
    requires visited == visited0 + members
    requires forall q :: q in region <==> q in members
    requires |members| == |region|
    requires forall q :: q in members ==> Holds(b, q, Empty) && Connected(b, Empty, start, q)
    requires forall q, r :: q in members && r in Neighbours(q) ==> r in visited || r in stack || !Holds(b, r, Empty)
    requires start in members || start in stack
    requires forall q :: q in stack && Holds(b, q, Empty) ==> Connected(b, Empty, start, q)
    ensures RegionFill(b, start, visited0, region, members, visited, stack)
  {
  }

  /** region lists exactly start's empty region, once each point, and the
      visited set has grown by that region. */
  ghost predicate RegionFound(b: Board, start: Point, visited0: set<Point>, region: seq<Point>, visited: set<Point>)
    requires WellFormed(b)
  {
    && (forall q :: q in region <==> q in Component(b, Empty, start))
    && |region| == |Component(b, Empty, start)|
    && visited == visited0 + Component(b, Empty, start)
  }

  /** With the stack empty, the region found is start's whole region. */
  lemma RegionDone(b: Board, start: Point, visited0: set<Point>, region: seq<Point>,
                   members: set<Point>, visited: set<Point>)
    requires WellFormed(b) && RegionFill(b, start, visited0, region, members, visited, [])
    requires visited0 !! Component(b, Empty, start)
    ensures RegionFound(b, start, visited0, region, visited)
  {
    RegionIsComponent(b, start, visited0, region, members, visited);
  }

  lemma RegionIsComponent(b: Board, start: Point, visited0: set<Point>, region: seq<Point>,
                          members: set<Point>, visited: set<Point>)
    requires WellFormed(b) && RegionFill(b, start, visited0, region, members, visited, [])
    requires visited0 !! Component(b, Empty, start)
    ensures members == Component(b, Empty, start)
  {
    MembersClosed(b, start, visited0, region, members, visited);
    ClosedContainsComponent(b, Empty, start, members);
    forall q | q in members ensures q in Component(b, Empty, start) {
      InAllPoints(q);
    }
  }

  /** With the stack empty, every empty neighbour of a member is a member:
      it is visited, and the caller's visited set misses start's region. */
  lemma MembersClosed(b: Board, start: Point, visited0: set<Point>, region: seq<Point>,
                      members: set<Point>, visited: set<Point>)
    requires WellFormed(b) && RegionFill(b, start, visited0, region, members, visited, [])
    requires visited0 !! Component(b, Empty, start)
    ensures forall q, r :: q in members && r in Neighbours(q) && Holds(b, r, Empty) ==> r in members
  {
    forall q, r | q in members && r in Neighbours(q) && Holds(b, r, Empty) ensures r in members {
      ConnectedStep(b, Empty, start, q, r);
      InAllPoints(r);
    }
  }

  /** One turn of getEmptyRegion's loop: the top of the stack is dropped
      when it is visited, off the board or not empty; otherwise it joins the
      region and its four neighbours are pushed. */
  method RegionStep(b: Board, start: Point, ghost visited0: set<Point>, ghost dom: set<Point>,
                    region: seq<Point>, ghost members: set<Point>, visited: set<Point>, stack: seq<Point>)
    returns (region': seq<Point>, ghost members': set<Point>, visited': set<Point>, stack': seq<Point>)
    requires WellFormed(b) && |stack| > 0 && Frame <= dom
    requires forall q :: q in stack ==> q in dom
    requires visited <= dom
    requires RegionFill(b, start, visited0, region, members, visited, stack)
    ensures forall q :: q in stack' ==> q in dom
    ensures visited' <= dom
    ensures RegionFill(b, start, visited0, region', members', visited', stack')
    ensures dom - visited' < dom - visited || (visited' == visited && |stack'| < |stack|)
  {
    var p := stack[|stack| - 1];
    if p in visited || !InBounds(p) || At(b, p) != Empty {
      RegionSkip(b, start, visited0, region, members, visited, stack);
      return region, members, visited, stack[..|stack| - 1];
    }
    RegionAdd(b, start, visited0, region, members, visited, stack);
    NeighboursInFrame(p);
    region', members', visited' := region + [p], members + {p}, visited + {p};
    stack' := stack[..|stack| - 1] + Neighbours(p);
    assert p in dom - visited && p !in dom - visited';
  }

  /** The flood fill of getEmptyRegion. Unlike getGroup it checks bounds and
      emptiness before marking a point visited, so the shared visited set only
      ever holds empty points of the board. The caller's visited set holds no
      point of start's region (ClosedMissesRegion shows calculateTerritory's
      does not). */
  method GetEmptyRegion(b: Board, start: Point, visited0: set<Point>) returns (region: seq<Point>, visited: set<Point>)
    requires WellFormed(b)
    requires Holds(b, start, Empty) && start !in visited0
    requires visited0 !! Component(b, Empty, start)
    ensures RegionFound(b, start, visited0, region, visited)
  {
    region := [];
    ghost var members: set<Point> := {};
    visited := visited0;
    ghost var dom := visited0 + (Frame + {start});
    var stack: seq<Point> := [start];
    while |stack| > 0
      invariant forall q :: q in stack ==> q in dom
      invariant visited <= dom
      invariant RegionFill(b, start, visited0, region, members, visited, stack)
      decreases dom - visited, |stack|
    {
      region, members, visited, stack := RegionStep(b, start, visited0, dom, region, members, visited, stack);
    }
    RegionDone(b, start, visited0, region, members, visited);
  }

  // ---------------------------------------------------------------------
  // determineRegionOwner

  /** Some orthogonal neighbour of q holds a stone of colour c. */
  predicate Touches(b: Board, q: Point, c: Color)
    requires WellFormed(b)
  {
    exists d :: 0 <= d < 4 && Holds(b, Neighbours(q)[d], Stone(c))
  }

  ghost predicate Borders(b: Board, s: set<Point>, c: Color)
    requires WellFormed(b)
  {
    exists q :: q in s && Touches(b, q, c)
  }

  /** The colour owning a region: the only colour it borders, if exactly one. */
  ghost function Owner(b: Board, s: set<Point>): Option<Color>
    requires WellFormed(b)
  {
    if Borders(b, s, Black) && !Borders(b, s, White) then Some(Black)
    else if Borders(b, s, White) && !Borders(b, s, Black) then Some(White)
    else None
  }

  /** The colours seen next to every member of region are the colours the
      region borders. */
  lemma AdjacentBorders(b: Board, region: seq<Point>, adjacent: set<Color>)
    requires WellFormed(b)
    requires forall c :: c in adjacent <==> exists k :: 0 <= k < |region| && Touches(b, region[k], c)
    ensures Black in adjacent <==> Borders(b, ElementsOf(region), Black)
    ensures White in adjacent <==> Borders(b, ElementsOf(region), White)
  {
    forall c ensures c in adjacent <==> Borders(b, ElementsOf(region), c) {
      if c in adjacent {
        var k :| 0 <= k < |region| && Touches(b, region[k], c);
        assert region[k] in ElementsOf(region);
      }
      if Borders(b, ElementsOf(region), c) {
        var q :| q in ElementsOf(region) && Touches(b, q, c);
        var k :| 0 <= k < |region| && region[k] == q;
      }
    }
  }

  /** A set of colours has one element exactly when it holds one colour and
      not the other. */
  lemma OneColour(s: set<Color>)
    ensures |s| == 1 <==> (Black in s) != (White in s)
  {
    if Black in s && White in s {
      forall c ensures c in s <==> c in {Black, White} {
        if c == Black {} else {}
      }
      assert s == {Black, White};
    } else if Black in s {
      forall c ensures c in s <==> c in {Black} {
        if c == White {}
      }
      assert s == {Black};
    } else if White in s {
      forall c ensures c in s <==> c in {White} {
        if c == Black {}
      }
      assert s == {White};
    } else {
      forall c ensures c !in s {
        if c == Black {}
      }
      assert s == {};
    }
  }

  /** The one colour of a set holding exactly one is the owner of a region
      bordering just the colours in the set; otherwise there is no owner. */
  lemma OwnerOfColours(b: Board, e: set<Point>, adjacent: set<Color>)
    requires WellFormed(b)
    requires Black in adjacent <==> Borders(b, e, Black)
    requires White in adjacent <==> Borders(b, e, White)
    ensures |adjacent| == 1 ==> forall c :: c in adjacent ==> Owner(b, e) == Some(c)
    ensures |adjacent| != 1 ==> Owner(b, e) == None
  {
    OneColour(adjacent);
    forall c | c in adjacent && |adjacent| == 1 ensures Owner(b, e) == Some(c) {
      assert c == Black || c == White;
    }
  }

  /** The inner loop of determineRegionOwner: the colours of the stones
      next to p join the set. */
  method AddNeighbourColours(b: Board, p: Point, adjacent: set<Color>) returns (adjacent': set<Color>)
    requires WellFormed(b)
    ensures forall c :: c in adjacent' <==> c in adjacent || Touches(b, p, c)
  {
    adjacent' := adjacent;
    var d := 0;
    while d < 4
      invariant 0 <= d <= 4
      invariant forall c :: c in adjacent' <==>
        c in adjacent || exists e :: 0 <= e < d && Holds(b, Neighbours(p)[e], Stone(c))
    {
      var q := Neighbours(p)[d];
      if InBounds(q) && At(b, q) != Empty {
        adjacent' := adjacent' + {At(b, q).color};
      }
      d := d + 1;
    }
  }

  method DetermineRegionOwner(b: Board, region: seq<Point>) returns (owner: Option<Color>)
    requires WellFormed(b)
    ensures owner == Owner(b, ElementsOf(region))
  {
    var adjacent: set<Color> := {};
    var i := 0;
    while i < |region|
      invariant 0 <= i <= |region|
      invariant forall c :: c in adjacent <==> exists k :: 0 <= k < i && Touches(b, region[k], c)
    {
      adjacent := AddNeighbourColours(b, region[i], adjacent);
      i := i + 1;
    }
    AdjacentBorders(b, region, adjacent);
    OwnerOfColours(b, ElementsOf(region), adjacent);
    if |adjacent| == 1 {
      var c :| c in adjacent;
      owner := Some(c);
    } else {
      owner := None;
    }
  }

  // ---------------------------------------------------------------------
  // Counting cells

  /** (r, c) comes before (row, col) in row-major order. */
  predicate Before(q: Point, row: int, col: int) {
    q.0 < row || (q.0 == row && q.1 < col)
  }

  ghost function CellsBefore(b: Board, x: Cell, row: int, col: int): set<Point>
    requires WellFormed(b)
  {
    set q | q in AllPoints && Before(q, row, col) && Holds(b, q, x)
  }

  ghost function Cells(b: Board, x: Cell): set<Point>
    requires WellFormed(b)
  {
    set q | q in AllPoints && Holds(b, q, x)
  }

  lemma CellsBeforeStep(b: Board, x: Cell, row: int, col: int)
    requires WellFormed(b) && InBounds((row, col))
    ensures CellsBefore(b, x, row, col + 1) ==
      CellsBefore(b, x, row, col) + (if b[row][col] == x then {(row, col)} else {})
  {
    InAllPoints((row, col));
  }

  lemma CellsBeforeNextRow(b: Board, x: Cell, row: int)
    requires WellFormed(b)
    ensures CellsBefore(b, x, row + 1, 0) == CellsBefore(b, x, row, Size)
  {
    forall q | q in CellsBefore(b, x, row + 1, 0) ensures q in CellsBefore(b, x, row, Size) {
      InAllPoints(q);
    }
  }

  lemma CellsBeforeAll(b: Board, x: Cell)
    requires WellFormed(b)
    ensures Cells(b, x) == CellsBefore(b, x, Size, 0)
  {
    forall q | q in Cells(b, x) ensures q in CellsBefore(b, x, Size, 0) {
      InAllPoints(q);
    }
  }

  lemma CountStep(b: Board, x: Cell, row: int, col: int)
    requires WellFormed(b) && InBounds((row, col))
    ensures |CellsBefore(b, x, row, col + 1)| == |CellsBefore(b, x, row, col)| + if b[row][col] == x then 1 else 0
  {
    CellsBeforeStep(b, x, row, col);
  }

  /** The row-by-row counting loops of checkAutoWin and calculateTerritory. */
  method CountCells(b: Board, x: Cell) returns (n: nat)
    requires WellFormed(b)
    ensures n == |Cells(b, x)|
  {
    n := 0;
    for row := 0 to Size
      invariant n == |CellsBefore(b, x, row, 0)|
    {
      for col := 0 to Size
        invariant n == |CellsBefore(b, x, row, col)|
      {
        CountStep(b, x, row, col);
        if b[row][col] == x {
          n := n + 1;
        }
      }
      CellsBeforeNextRow(b, x, row);
    }
    CellsBeforeAll(b, x);
  }
}
