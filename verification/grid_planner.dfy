/**
 The planner's public operations: snapping a point to a free cell, rebuilding a route
 from the search buffers, single-target and multi-target planning.
 */
module GridPlanner {
  import opened GridModel
  import opened GridHeuristic
  import opened Points
  import opened GridSearch
  import opened GridSearchResults
  import opened GridScratch
  import opened GridRoute

  // --- Snapping a point to a free cell ------------------------------------------------

  function ClampIndex(value: int, low: int, high: int): int {
    if value < low then low else if high < value then high else value
  }

  function Ceiling(x: real): int { -((-x).Floor) }

  function HomeColumn(g: Grid, point: Point): int
    requires g.cellSize > 0.0
  {
    ClampIndex((point.x / g.cellSize).Floor, 0, g.columns - 1)
  }

  function HomeRow(g: Grid, point: Point): int
    requires g.cellSize > 0.0
  {
    ClampIndex((point.y / g.cellSize).Floor, 0, g.rows - 1)
  }

  function SearchRadius(g: Grid): int
    requires g.cellSize > 0.0
  {
    Ceiling(2.0 / g.cellSize)
  }

  predicate FreeAt(g: Grid, column: int, row: int) {
    InBounds(g, column, row) && g.IsFree(g.Index(column, row))
  }

  predicate Within(c0: int, r0: int, radius: int, column: int, row: int) {
    c0 - radius <= column <= c0 + radius && r0 - radius <= row <= r0 + radius
  }

  /** First free cell of one row of the square, scanning columns upwards. */
  function ScanRow(g: Grid, row: int, column: int, last: int): int
    decreases last - column
  {
    if column > last then -1
    else if FreeAt(g, column, row) then g.Index(column, row)
    else ScanRow(g, row, column + 1, last)
  }

  /** First free cell of the square, scanning rows upwards. */
  function ScanSquare(g: Grid, c0: int, radius: int, row: int, last: int): int
    decreases last - row
  {
    if row > last then -1
    else
      var found := ScanRow(g, row, c0 - radius, c0 + radius);
      if found >= 0 then found else ScanSquare(g, c0, radius, row + 1, last)
  }

  function ScanSquares(g: Grid, c0: int, r0: int, radius: int, limit: int): int
    decreases limit - radius
  {
    if radius > limit then -1
    else
      var found := ScanSquare(g, c0, radius, r0 - radius, r0 + radius);
      if found >= 0 then found else ScanSquares(g, c0, r0, radius + 1, limit)
  }

  function Nearest(g: Grid, point: Point): int
    requires g.cellSize > 0.0
  {
    var c0, r0 := HomeColumn(g, point), HomeRow(g, point);
    if g.IsFree(g.Index(c0, r0)) then g.Index(c0, r0)
    else ScanSquares(g, c0, r0, 1, SearchRadius(g))
  }

  method NearestFreeCell(g: Grid, point: Point) returns (cell: int)
    requires g.Valid()
    ensures cell == Nearest(g, point)
  {
    var firstColumn := ClampIndex((point.x / g.cellSize).Floor, 0, g.columns - 1);
    var firstRow := ClampIndex((point.y / g.cellSize).Floor, 0, g.rows - 1);
    if g.IsFree(g.Index(firstColumn, firstRow)) {
      return g.Index(firstColumn, firstRow);
    }
    var searchRadius := Ceiling(2.0 / g.cellSize);
    var radius := 1;
    while radius <= searchRadius
      invariant ScanSquares(g, firstColumn, firstRow, 1, searchRadius)
             == ScanSquares(g, firstColumn, firstRow, radius, searchRadius)
    {
      var row := firstRow - radius;
      while row <= firstRow + radius
        invariant ScanSquare(g, firstColumn, radius, firstRow - radius, firstRow + radius)
               == ScanSquare(g, firstColumn, radius, row, firstRow + radius)
      {
        var column := firstColumn - radius;
        while column <= firstColumn + radius
          invariant ScanRow(g, row, firstColumn - radius, firstColumn + radius)
                 == ScanRow(g, row, column, firstColumn + radius)
        {
          if !(row < 0 || row >= g.rows || column < 0 || column >= g.columns) {
            var index := g.Index(column, row);
            if g.IsFree(index) {
              return index;
            }
          }
          column := column + 1;
        }
        row := row + 1;
      }
      radius := radius + 1;
    }
    return -1;
  }

  lemma {:induction false} ScanRowFacts(g: Grid, row: int, column: int, last: int)
    requires g.Valid()
    ensures var f := ScanRow(g, row, column, last);
            && (f == -1 || (g.IsFree(f) && exists c :: column <= c <= last && FreeAt(g, c, row) && f == g.Index(c, row)))
            && (f == -1 ==> forall c :: column <= c <= last ==> !FreeAt(g, c, row))
    decreases last - column
  {
    if column <= last && !FreeAt(g, column, row) {
      ScanRowFacts(g, row, column + 1, last);
    }
  }

  lemma {:induction false} ScanSquareFacts(g: Grid, c0: int, radius: int, row: int, last: int)
    requires g.Valid()
    ensures var f := ScanSquare(g, c0, radius, row, last);
            && (f == -1 || (g.IsFree(f) && exists c, r :: c0 - radius <= c <= c0 + radius && row <= r <= last
                                                         && FreeAt(g, c, r) && f == g.Index(c, r)))
            && (f == -1 ==> forall c, r :: c0 - radius <= c <= c0 + radius && row <= r <= last ==> !FreeAt(g, c, r))
    decreases last - row
  {
    if row <= last {
      ScanRowFacts(g, row, c0 - radius, c0 + radius);
      if ScanRow(g, row, c0 - radius, c0 + radius) < 0 {
        ScanSquareFacts(g, c0, radius, row + 1, last);
      }
    }
  }

  ghost predicate NoneWithin(g: Grid, c0: int, r0: int, radius: int) {
    forall c, r :: Within(c0, r0, radius, c, r) ==> !FreeAt(g, c, r)
  }

  /** `cell` is free and lies in the smallest square around the home cell that holds a free cell. */
  ghost predicate ClosestFree(g: Grid, c0: int, r0: int, radius: int, cell: int) {
    && g.IsFree(cell) && NoneWithin(g, c0, r0, radius - 1)
    && exists c, r :: Within(c0, r0, radius, c, r) && FreeAt(g, c, r) && cell == g.Index(c, r)
  }

  lemma {:induction false} ScanSquaresFacts(g: Grid, c0: int, r0: int, radius: int, limit: int)
    requires g.Valid() && NoneWithin(g, c0, r0, radius - 1)
    ensures var f := ScanSquares(g, c0, r0, radius, limit);
            if f == -1 then radius <= limit ==> NoneWithin(g, c0, r0, limit)
            else exists k :: radius <= k <= limit && ClosestFree(g, c0, r0, k, f)
    decreases limit - radius
  {
    if radius <= limit {
      ScanSquareFacts(g, c0, radius, r0 - radius, r0 + radius);
      var found := ScanSquare(g, c0, radius, r0 - radius, r0 + radius);
      if found < 0 {
        assert NoneWithin(g, c0, r0, radius);
        ScanSquaresFacts(g, c0, r0, radius + 1, limit);
      } else {
        assert ClosestFree(g, c0, r0, radius, found);
      }
    }
  }

  /** Snapping finds a free cell in the nearest square ring that has one, and fails exactly when the
      whole search square has none. */
  lemma NearestIsClosest(g: Grid, point: Point)
    requires g.Valid()
    ensures var cell, c0, r0 := Nearest(g, point), HomeColumn(g, point), HomeRow(g, point);
            if cell == -1 then NoneWithin(g, c0, r0, SearchRadius(g))
            else exists k :: 0 <= k <= SearchRadius(g) && ClosestFree(g, c0, r0, k, cell)
  {
    var c0, r0 := HomeColumn(g, point), HomeRow(g, point);
    IndexInverse(g, c0, r0);
    assert Within(c0, r0, 0, c0, r0);
    RadiusPositive(g);
    if g.IsFree(g.Index(c0, r0)) {
      assert ClosestFree(g, c0, r0, 0, g.Index(c0, r0));
    } else {
      assert NoneWithin(g, c0, r0, 0);
      ScanSquaresFacts(g, c0, r0, 1, SearchRadius(g));
    }
  }

  lemma RadiusPositive(g: Grid)
    requires g.Valid()
    ensures SearchRadius(g) >= 1
  {
    assert 2.0 / g.cellSize > 0.0;
  }

  // --- Rebuilding a route ---------------------------------------------------------

  /** The states along the parent chain, goal first. */
  ghost function Chain(p: Problem, s: Search, x: int): seq<int>
    requires Chained(p, s) && x in s.best
    decreases |Cheaper(s, x)|
  {
    if x == p.grid.StartState() then [x]
    else
      ParentDescends(p, s, x);
      [x] + Chain(p, s, s.parent[x])
  }

  /** Read backwards, the chain is the walk's states. */
  lemma {:induction false} ChainFollowsPath(p: Problem, s: Search, x: int)
    requires Chained(p, s) && x in s.best
    ensures var c, w := Chain(p, s, x), PathTo(p, s, x);
            |c| == |w| + 1 && forall i :: 0 <= i <= |w| ==> c[|w| - i] == StateAfter(p.grid, p.start, w[..i])
    decreases |Cheaper(s, x)|
  {
    var c, w := Chain(p, s, x), PathTo(p, s, x);
    PathIsWalk(p, s, x);
    if x == p.grid.StartState() {
      assert w[..0] == [];
    } else {
      ParentDescends(p, s, x);
      var y := s.parent[x];
      ChainFollowsPath(p, s, y);
      var w' := PathTo(p, s, y);
      forall i | 0 <= i <= |w| ensures c[|w| - i] == StateAfter(p.grid, p.start, w[..i]) {
        if i == |w| {
          assert w[..i] == w;
        } else {
          assert w[..i] == w'[..i];
        }
      }
    }
  }

  /** Follow parents from the settled goal state back to the start state. */
  method CollectStates(b: Buffers, goalState: int, startState: int, ghost p: Problem, ghost s: Search)
      returns (states: seq<int>)
    requires Chained(p, s) && b.HoldsStates(p, s) && goalState in s.best && startState == p.grid.StartState()
    ensures states == Chain(p, s, goalState)
  {
    states := [];
    var state := goalState;
    while state >= 0
      invariant state in s.best && states + Chain(p, s, state) == Chain(p, s, goalState)
      decreases |Cheaper(s, state)|
    {
      states := states + [state];
      if state == startState {
        break;
      }
      ParentDescends(p, s, state);
      ParentCheaper(p, s, state);
      state := b.parent[state];
    }
  }

  function Reversed<T>(s: seq<T>): seq<T> {
    seq(|s|, i requires 0 <= i < |s| => s[|s| - 1 - i])
  }

  /** `states` are the states after each prefix of `walk`. */
  ghost predicate Along(g: Grid, start: int, walk: seq<int>, states: seq<int>)
    requires g.columns > 0
  {
    && IsWalk(g, start, walk) && |states| == |walk| + 1
    && forall i :: 0 <= i <= |walk| ==> states[i] == StateAfter(g, start, walk[..i])
  }

  lemma {:induction false} PrefixIsWalk(g: Grid, start: int, walk: seq<int>, k: nat)
    requires g.columns > 0 && IsWalk(g, start, walk) && k <= |walk|
    ensures IsWalk(g, start, walk[..k])
    ensures k < |walk| ==> Legal(g, CellAfter(g, start, walk[..k]), walk[k])
    decreases |walk|
  {
    if k == |walk| {
      assert walk[..k] == walk;
    } else {
      assert Init(walk)[..k] == walk[..k];
      PrefixIsWalk(g, start, Init(walk), k);
      if k == |walk| - 1 {
        assert walk[..k] == Init(walk);
      }
    }
  }

  lemma AlongParts(g: Grid, start: int, walk: seq<int>, states: seq<int>, i: nat)
    requires g.Valid() && g.IsFree(start) && Along(g, start, walk, states) && i < |states|
    ensures CellOf(g, start, states[i]) == CellAfter(g, start, walk[..i])
    ensures DirectionOf(g, states[i]) == Arrival(walk[..i]) == if i == 0 then -1 else walk[i - 1]
    ensures i > 0 ==> 0 <= walk[i - 1] < 8
  {
    PrefixIsWalk(g, start, walk, i);
    StateAfterParts(g, start, walk[..i]);
    if i > 0 {
      PrefixIsWalk(g, start, walk, i - 1);
    }
  }

  /** Decode states into cells and arrival directions. */
  method DecodeStates(g: Grid, startIndex: int, states: seq<int>) returns (cells: seq<int>, arrivals: seq<int>)
    ensures |cells| == |arrivals| == |states|
    ensures forall i :: 0 <= i < |states| ==>
              cells[i] == CellOf(g, startIndex, states[i]) && arrivals[i] == DirectionOf(g, states[i])
  {
    cells, arrivals := [], [];
    for i := 0 to |states|
      invariant |cells| == |arrivals| == i
      invariant forall j :: 0 <= j < i ==>
                  cells[j] == CellOf(g, startIndex, states[j]) && arrivals[j] == DirectionOf(g, states[j])
    {
      var state := states[i];
      if state == g.StartState() {
        cells, arrivals := cells + [startIndex], arrivals + [-1];
      } else {
        cells, arrivals := cells + [state / 8], arrivals + [state % 8];
      }
    }
  }

  /** The decoded chain speaks about the walk. */
  ghost predicate Decoded(g: Grid, start: int, walk: seq<int>, cells: seq<int>, arrivals: seq<int>)
    requires g.columns > 0
  {
    && g.IsFree(start) && IsWalk(g, start, walk)
    && |cells| == |arrivals| == |walk| + 1
    && (forall i :: 0 <= i <= |walk| ==> cells[i] == CellAfter(g, start, walk[..i]))
    && (forall i :: 0 <= i <= |walk| ==> arrivals[i] == if i == 0 then -1 else walk[i - 1])
    && (forall i :: 0 <= i < |walk| ==> 0 <= walk[i] < 8)
  }

  lemma BendsNext(g: Grid, start: int, walk: seq<int>, i: nat)
    requires g.columns > 0 && 1 <= i < |walk|
    ensures Heads(g, start, walk[..i + 1])
         == Heads(g, start, walk[..i]) + if walk[i - 1] != walk[i] then [CenterOf(g, CellAfter(g, start, walk[..i]))] else []
  {
    assert Init(walk[..i + 1]) == walk[..i];
    assert Last(walk[..i]) == walk[i - 1] && Last(walk[..i + 1]) == walk[i];
  }

  lemma HeadsStart(g: Grid, start: int, walk: seq<int>)
    requires g.columns > 0
    ensures walk[..0] == [] && CellAfter(g, start, []) == start && Heads(g, start, []) == [CenterOf(g, start)]
    ensures |walk| > 0 ==> Heads(g, start, walk[..1]) == [CenterOf(g, start)]
  {
    if |walk| > 0 {
      assert Init(walk[..1]) == [];
    }
  }

  /** The polyline keeps the start, every bend and the end. */
  method CollectPoints(g: Grid, cells: seq<int>, arrivals: seq<int>, ghost start: int, ghost walk: seq<int>)
      returns (points: seq<Point>)
    requires g.Valid() && Decoded(g, start, walk, cells, arrivals)
    ensures points == Corners(g, start, walk)
  {
    assert walk[..|walk|] == walk;
    HeadsStart(g, start, walk);
    points := [CenterOf(g, cells[0])];
    var index := 1;
    hide CenterOf, CellAfter, Bends;
    while index + 1 < |cells|
      invariant 1 <= index <= |cells| && (|walk| > 0 ==> index <= |walk|)
      invariant points == Heads(g, start, walk[..if |walk| == 0 then 0 else index])
    {
      BendsNext(g, start, walk, index);
      if arrivals[index] != arrivals[index + 1] {
        points := points + [CenterOf(g, cells[index])];
      }
      index := index + 1;
    }
    points := points + [CenterOf(g, cells[|cells| - 1])];
  }

  lemma StepSegment(g: Grid, start: int, walk: seq<int>, i: nat)
    requires g.Valid() && g.IsFree(start) && IsWalk(g, start, walk) && i < |walk|
    ensures SegmentLength(g, CenterOf(g, CellAfter(g, start, walk[..i])), CenterOf(g, CellAfter(g, start, walk[..i + 1])))
         == g.StepDistance(walk[i])
  {
    PrefixIsWalk(g, start, walk, i + 1);
    var w := walk[..i + 1];
    assert Init(w) == walk[..i] && Last(w) == walk[i];
    StepBack(g, start, w);
    var s := g.cellSize;
    TimesIsProduct(1, Shift(DX(walk[i]), s));
    TimesIsProduct(1, Shift(DY(walk[i]), s));
    TimesIsProduct(1, g.StepDistance(walk[i]));
    RunLength(g, CenterOf(g, CellAfter(g, start, walk[..i])), CenterOf(g, CellAfter(g, start, w)), walk[i], 1);
    hide *;
  }

  lemma LengthNext(g: Grid, walk: seq<int>, i: nat)
    requires i < |walk|
    ensures WalkLength(g, walk[..i + 1]) == WalkLength(g, walk[..i]) + g.StepDistance(walk[i])
    ensures Turns(walk[..i + 1]) == Turns(walk[..i]) + if i > 0 && walk[i - 1] != walk[i] then 1 else 0
  {
    assert Init(walk[..i + 1]) == walk[..i] && Last(walk[..i + 1]) == walk[i];
  }

  /** Sum the step lengths and count the turns. */
  method Measure(g: Grid, cells: seq<int>, arrivals: seq<int>, ghost start: int, ghost walk: seq<int>)
      returns (distance: real, turnCount: int)
    requires g.Valid() && Decoded(g, start, walk, cells, arrivals)
    ensures distance == WalkLength(g, walk) && turnCount == Turns(walk)
  {
    distance, turnCount := 0.0, 0;
    var index := 1;
    while index < |cells|
      invariant 1 <= index <= |cells|
      invariant distance == WalkLength(g, walk[..index - 1]) && turnCount == Turns(walk[..index - 1])
    {
      StepSegment(g, start, walk, index - 1);
      LengthNext(g, walk, index - 1);
      assert SegmentLength(g, CenterOf(g, cells[index - 1]), CenterOf(g, cells[index])) == g.StepDistance(walk[index - 1]);
      hide SegmentLength, WalkLength, Turns, CenterOf, CellAfter;
      distance := distance + SegmentLength(g, CenterOf(g, cells[index - 1]), CenterOf(g, cells[index]));
      if arrivals[index - 1] >= 0 && arrivals[index - 1] != arrivals[index] {
        turnCount := turnCount + 1;
      }
      index := index + 1;
    }
    assert walk[..|walk|] == walk;
  }

  /** Rebuild the route to a goal cell; nothing unless this search settled that cell. */
  ghost function SettledRoute(p: Problem, s: Search, goal: int): Route
    requires Chained(p, s) && (goal in s.settled ==> s.settled[goal] in s.best)
  {
    if goal in s.settled then
      RouteOf(p.grid, p.start, PathTo(p, s, s.settled[goal]), s.best[s.settled[goal]])
    else NO_ROUTE
  }

  lemma FinalFacts(p: Problem, s: Search, goal: int)
    requires p.Valid() && Finishes(p, s)
    ensures Chained(p, s)
    ensures goal in s.settled ==>
              0 <= s.settled[goal] <= p.grid.StartState() && s.settled[goal] in s.best && p.Cell(s.settled[goal]) == goal
  {
    var k: nat :| s == Iterate(p, Initial(p), k) && Done(s);
    EveryRunKeeps(p, k);
  }

  lemma ReversedAlong(g: Grid, start: int, walk: seq<int>, states: seq<int>)
    requires g.columns > 0 && IsWalk(g, start, walk) && |states| == |walk| + 1
    requires forall i :: 0 <= i <= |walk| ==> states[|walk| - i] == StateAfter(g, start, walk[..i])
    ensures Along(g, start, walk, Reversed(states))
  {
  }

  lemma DecodedAlong(g: Grid, start: int, walk: seq<int>, states: seq<int>, cells: seq<int>, arrivals: seq<int>)
    requires g.Valid() && g.IsFree(start) && Along(g, start, walk, states)
    requires |cells| == |arrivals| == |states|
    requires forall i :: 0 <= i < |states| ==>
               cells[i] == CellOf(g, start, states[i]) && arrivals[i] == DirectionOf(g, states[i])
    ensures Decoded(g, start, walk, cells, arrivals)
  {
    forall i | 0 <= i <= |walk|
      ensures cells[i] == CellAfter(g, start, walk[..i]) && arrivals[i] == if i == 0 then -1 else walk[i - 1]
    {
      AlongParts(g, start, walk, states, i);
    }
    forall i | 0 <= i < |walk| ensures 0 <= walk[i] < 8 {
      AlongParts(g, start, walk, states, i + 1);
    }
  }

  /** The route along a parent chain. */
  method RouteFromState(b: Buffers, goalState: int, startIndex: int, startState: int, g: Grid,
                        ghost p: Problem, ghost s: Search) returns (route: Route)
    requires g == p.grid && startIndex == p.start && startState == g.StartState()
    requires Chained(p, s) && b.HoldsStates(p, s) && goalState in s.best
    ensures route == RouteOf(g, startIndex, PathTo(p, s, goalState), s.best[goalState])
  {
    var states := CollectStates(b, goalState, startState, p, s);
    ChainFollowsPath(p, s, goalState);
    PathIsWalk(p, s, goalState);
    ghost var walk := PathTo(p, s, goalState);
    var forwards := Reversed(states);
    ReversedAlong(g, startIndex, walk, states);
    hide Decoded, Along, Corners, WalkLength, Turns, Chain, PathTo, Reversed, Chained;
    var cells, arrivals := DecodeStates(g, startIndex, forwards);
    DecodedAlong(g, startIndex, walk, forwards, cells, arrivals);
    var cost := b.bestCost[goalState];
    var points := CollectPoints(g, cells, arrivals, startIndex, walk);
    var distance, turnCount := Measure(g, cells, arrivals, startIndex, walk);
    route := Route(points, distance, cost, turnCount);
  }

  /** The view shows the result of a finished search for this problem. */
  ghost predicate Shows(g: Grid, search: SearchResult, p: Problem, s: Search)
    requires search.View?
    reads search.buffers.bestCost, search.buffers.bestCostStamp, search.buffers.parent, search.buffers.firstSettledState
    reads search.buffers.firstSettledStamp, search.buffers.goalStamp, search.buffers.heuristic
  {
    && search.startState == g.StartState() && search.cellCount == g.Cells()
    && HoldsResult(search.buffers, p, s) && p.grid == g && p.start == search.startIndex
  }

  method Reconstruct(g: Grid, search: SearchResult, to: Point, ghost p: Problem, ghost s: Search) returns (route: Route)
    requires g.Valid()
    requires search.View? ==>
               Shows(g, search, p, s) || (search.cellCount == g.Cells() && search.buffers.NothingSettled(g.Cells()))
    ensures search.View? && Shows(g, search, p, s) ==>
              Chained(p, s) && (forall c :: c in s.settled ==> s.settled[c] in s.best)
              && route == SettledRoute(p, s, Nearest(g, to))
    ensures search.NoSearch? || search.buffers.NothingSettled(g.Cells()) ==> route == NO_ROUTE
  {
    var goalIndex := NearestFreeCell(g, to);
    NearestIsClosest(g, to);
    if search.View? && Shows(g, search, p, s) {
      SettledFacts(p, s, goalIndex);
    }
    if search.NoSearch? || goalIndex < 0 || goalIndex >= search.cellCount {
      return NO_ROUTE;
    }
    var b := search.buffers;
    if b.firstSettledStamp[goalIndex] != b.generation {
      return NO_ROUTE;
    }
    var goalState := b.firstSettledState[goalIndex];
    route := RouteFromState(b, goalState, search.startIndex, search.startState, g, p, s);
  }

  lemma SettledFacts(p: Problem, s: Search, goal: int)
    requires p.Valid() && Finishes(p, s)
    ensures Chained(p, s) && -1 !in s.settled
    ensures forall c :: c in s.settled ==> s.settled[c] in s.best && 0 <= s.settled[c] <= p.grid.StartState()
    ensures goal in s.settled ==> p.Cell(s.settled[goal]) == goal
  {
    FinalFacts(p, s, goal);
    forall c | c in s.settled ensures s.settled[c] in s.best && 0 <= s.settled[c] <= p.grid.StartState() && c != -1 {
      FinalFacts(p, s, c);
    }
  }

  // --- Planning -------------------------------------------------------------------

  /** `r` is the route of a cheapest legal walk to `cell`, or empty when no walk gets there. */
  ghost predicate OptimalRoute(g: Grid, field: OccupancyField, start: int, cell: int, r: Route)
    requires g.columns > 0
  {
    if Reachable(g, start, cell) then
      && IsLeastCost(g, field, start, cell, r.cost)
      && exists walk :: WalkTo(g, start, walk, cell) && WalkCost(g, field, start, walk) == r.cost
                        && r == RouteOf(g, start, walk, r.cost)
    else r == NO_ROUTE
  }

  /** What planning between two points promises. */
  ghost predicate PlannedRoute(g: Grid, field: OccupancyField, from: Point, to: Point, r: Route)
    requires g.Valid()
  {
    if Nearest(g, from) == -1 || Nearest(g, to) == -1 then r == NO_ROUTE
    else OptimalRoute(g, field, Nearest(g, from), Nearest(g, to), r)
  }

  lemma SettledRouteIsOptimal(p: Problem, s: Search, t: int)
    requires p.Valid() && Finishes(p, s) && t in p.goals
    ensures Chained(p, s) && (t in s.settled ==> s.settled[t] in s.best)
    ensures OptimalRoute(p.grid, p.field, p.start, t, SettledRoute(p, s, t))
  {
    FinalFacts(p, s, t);
    SearchIsOptimal(p, s, t);
    if t in s.settled {
      var x := s.settled[t];
      PathIsWalk(p, s, x);
      var walk, r := PathTo(p, s, x), SettledRoute(p, s, t);
      hide *;
      RouteWitness(p.grid, p.field, p.start, t, r, walk);
    }
  }

  lemma RouteWitness(g: Grid, field: OccupancyField, start: int, t: int, r: Route, walk: seq<int>)
    requires g.columns > 0 && IsLeastCost(g, field, start, t, r.cost)
    requires WalkTo(g, start, walk, t) && WalkCost(g, field, start, walk) == r.cost && r == RouteOf(g, start, walk, r.cost)
    ensures OptimalRoute(g, field, start, t, r)
  {
  }

  lemma NearestFree(g: Grid, point: Point)
    requires g.Valid()
    ensures Nearest(g, point) == -1 || g.IsFree(Nearest(g, point))
  {
    NearestIsClosest(g, point);
  }

  /** Filtering keeps every goal cell, since snapped cells are free. */
  lemma GoalKept(g: Grid, cells: seq<int>, cell: int)
    requires cell in cells && g.IsFree(cell)
    ensures cell in Filtered(g, cells)
  {
    FilteredFacts(g, cells);
  }

  /** A route to one point: optimal, and empty exactly when there is no way. */
  method Plan(g: Grid, field: OccupancyField, heap: HeapAlgorithms, scratch: SearchScratch, from: Point, to: Point)
      returns (route: Route)
    requires g.Valid() && FieldOk(field) && heap.Valid() && scratch.Valid()
    modifies scratch, scratch.bestCost, scratch.bestCostStamp, scratch.parent, scratch.firstSettledState
    modifies scratch.firstSettledStamp, scratch.goalStamp, scratch.heuristic
    ensures scratch.Valid()
    ensures PlannedRoute(g, field, from, to, route)
  {
    NearestFree(g, to);
    NearestFree(g, from);
    var goalIndex := NearestFreeCell(g, to);
    if goalIndex < 0 {
      return NO_ROUTE;
    }
    var startIndex := NearestFreeCell(g, from);
    var search, final := scratch.SearchFromGoals(g, field, heap, startIndex, [goalIndex]);
    GoalKept(g, [goalIndex], goalIndex);
    ghost var p := Problem(g, field, heap, startIndex, Filtered(g, [goalIndex]));
    route := ReconstructOne(g, field, search, from, to, [goalIndex], p, final);
  }

  /** Routes to many points from one search: each is as good as planning to that point alone. */
  method PlanFromToTargets(g: Grid, field: OccupancyField, heap: HeapAlgorithms, scratch: SearchScratch,
                           from: Point, targets: seq<Point>) returns (routes: seq<Route>)
    requires g.Valid() && FieldOk(field) && heap.Valid() && scratch.Valid()
    modifies scratch, scratch.bestCost, scratch.bestCostStamp, scratch.parent, scratch.firstSettledState
    modifies scratch.firstSettledStamp, scratch.goalStamp, scratch.heuristic
    ensures scratch.Valid()
    ensures |routes| == |targets|
    ensures forall i :: 0 <= i < |targets| ==> PlannedRoute(g, field, from, targets[i], routes[i])
  {
    if targets == [] {
      return [];
    }
    var goalCells := SnapTargets(g, targets);
    if goalCells == [] {
      return seq(|targets|, i => NO_ROUTE);
    }
    NearestFree(g, from);
    var startIndex := NearestFreeCell(g, from);
    var search, final := scratch.SearchFromGoals(g, field, heap, startIndex, goalCells);
    GoalKept(g, goalCells, goalCells[0]);
    ghost var p := Problem(g, field, heap, startIndex, Filtered(g, goalCells));
    routes := ReconstructAll(g, field, search, from, targets, goalCells, p, final);
  }

  method ReconstructOne(g: Grid, ghost field: OccupancyField, search: SearchResult, ghost from: Point, to: Point,
                        ghost goalCells: seq<int>, ghost p: Problem, ghost s: Search) returns (route: Route)
    requires g.Valid() && p.grid == g && p.field == field && p.start == Nearest(g, from) && p.goals == Filtered(g, goalCells)
    requires Nearest(g, to) == -1 || Nearest(g, to) in goalCells
    requires search.View? <==> p.start != -1
    requires search.View? ==> Shows(g, search, p, s)
    ensures PlannedRoute(g, field, from, to, route)
  {
    route := Reconstruct(g, search, to, p, s);
    TargetPlanned(g, field, from, to, p, s, goalCells, route);
    hide PlannedRoute, Nearest;
  }

  method ReconstructAll(g: Grid, ghost field: OccupancyField, search: SearchResult, ghost from: Point, targets: seq<Point>,
                        ghost goalCells: seq<int>, ghost p: Problem, ghost s: Search) returns (routes: seq<Route>)
    requires g.Valid() && p.grid == g && p.field == field && p.start == Nearest(g, from) && p.goals == Filtered(g, goalCells)
    requires forall i :: 0 <= i < |targets| ==> Nearest(g, targets[i]) == -1 || Nearest(g, targets[i]) in goalCells
    requires search.View? <==> p.start != -1
    requires search.View? ==> Shows(g, search, p, s)
    ensures |routes| == |targets|
    ensures forall i :: 0 <= i < |targets| ==> PlannedRoute(g, field, from, targets[i], routes[i])
  {
    routes := [];
    for i := 0 to |targets|
      invariant |routes| == i
      invariant forall j :: 0 <= j < i ==> PlannedRoute(g, field, from, targets[j], routes[j])
    {
      var route := ReconstructOne(g, field, search, from, targets[i], goalCells, p, s);
      routes := routes + [route];
    }
  }

  /** Snap every target; targets without a free cell nearby drop out. */
  method SnapTargets(g: Grid, targets: seq<Point>) returns (goalCells: seq<int>)
    requires g.Valid()
    ensures forall c :: c in goalCells ==> g.IsFree(c)
    ensures forall i :: 0 <= i < |targets| ==> Nearest(g, targets[i]) == -1 || Nearest(g, targets[i]) in goalCells
  {
    goalCells := [];
    for i := 0 to |targets|
      invariant forall c :: c in goalCells ==> g.IsFree(c)
      invariant forall j :: 0 <= j < i ==> Nearest(g, targets[j]) == -1 || Nearest(g, targets[j]) in goalCells
    {
      var cell := NearestFreeCell(g, targets[i]);
      NearestFree(g, targets[i]);
      if cell >= 0 {
        goalCells := goalCells + [cell];
      }
    }
  }

  lemma TargetPlanned(g: Grid, field: OccupancyField, from: Point, to: Point, p: Problem, s: Search,
                      goalCells: seq<int>, route: Route)
    requires g.Valid() && p.grid == g && p.field == field && p.start == Nearest(g, from)
    requires p.goals == Filtered(g, goalCells)
    requires Nearest(g, to) == -1 || Nearest(g, to) in goalCells
    requires p.start == -1 ==> route == NO_ROUTE
    requires p.start != -1 ==>
               p.Valid() && Finishes(p, s) && Chained(p, s)
               && (forall c :: c in s.settled ==> s.settled[c] in s.best)
               && route == SettledRoute(p, s, Nearest(g, to))
    ensures PlannedRoute(g, field, from, to, route)
  {
    NearestFree(g, to);
    if p.start != -1 {
      SettledFacts(p, s, -1);
      if Nearest(g, to) != -1 {
        GoalKept(g, goalCells, Nearest(g, to));
        SettledRouteIsOptimal(p, s, Nearest(g, to));
      }
    }
  }

  /** One multi-target search and one search per target agree on cost and on reachability. */
  lemma PlansAgree(g: Grid, field: OccupancyField, from: Point, to: Point, a: Route, b: Route)
    requires g.Valid() && PlannedRoute(g, field, from, to, a) && PlannedRoute(g, field, from, to, b)
    ensures a.cost == b.cost && (a.points == [] <==> b.points == [])
  {
  }

  lemma CornersEnds(g: Grid, start: int, walk: seq<int>)
    requires g.columns > 0
    ensures var c := Corners(g, start, walk);
            |c| >= 2 && c[0] == CenterOf(g, start) && Last(c) == CenterOf(g, CellAfter(g, start, walk))
  {
  }

  /** Every planned route is empty, or is an exactly accounted polyline from start to target. */
  lemma PlannedRouteAccounting(g: Grid, field: OccupancyField, from: Point, to: Point, r: Route)
    requires g.Valid() && FieldOk(field) && PlannedRoute(g, field, from, to, r) && r.points != []
    ensures |r.points| == r.turnCount + 2
    ensures PolylineLength(g, r.points) == r.distance <= r.cost
    ensures field.NoField? ==> r.cost == r.distance + TurnCharge(g, r.turnCount)
    ensures r.points[0] == CenterOf(g, Nearest(g, from)) && Last(r.points) == CenterOf(g, Nearest(g, to))
  {
    var walk := PlannedWalk(g, field, from, to, r);
    hide *;
    WalkAccounting(g, field, Nearest(g, from), Nearest(g, to), walk, r);
  }

  lemma WalkAccounting(g: Grid, field: OccupancyField, start: int, cell: int, walk: seq<int>, r: Route)
    requires g.Valid() && FieldOk(field) && g.IsFree(start) && IsWalk(g, start, walk)
    requires CellAfter(g, start, walk) == cell && WalkCost(g, field, start, walk) == r.cost
    requires r == RouteOf(g, start, walk, r.cost)
    ensures |r.points| == r.turnCount + 2
    ensures PolylineLength(g, r.points) == r.distance <= r.cost
    ensures field.NoField? ==> r.cost == r.distance + TurnCharge(g, r.turnCount)
    ensures r.points[0] == CenterOf(g, start) && Last(r.points) == CenterOf(g, cell)
  {
    RouteAccounting(g, field, start, walk);
    CornersEnds(g, start, walk);
    RouteFields(g, start, walk, r.cost);
    hide *;
  }

  lemma PlannedWalk(g: Grid, field: OccupancyField, from: Point, to: Point, r: Route) returns (walk: seq<int>)
    requires g.Valid() && PlannedRoute(g, field, from, to, r) && r.points != []
    ensures g.IsFree(Nearest(g, from)) && WalkTo(g, Nearest(g, from), walk, Nearest(g, to))
    ensures IsWalk(g, Nearest(g, from), walk) && CellAfter(g, Nearest(g, from), walk) == Nearest(g, to)
    ensures WalkCost(g, field, Nearest(g, from), walk) == r.cost && r == RouteOf(g, Nearest(g, from), walk, r.cost)
  {
    NearestFree(g, from);
    var start, cell := Nearest(g, from), Nearest(g, to);
    walk :| WalkTo(g, start, walk, cell) && WalkCost(g, field, start, walk) == r.cost
            && r == RouteOf(g, start, walk, r.cost);
  }

  lemma RouteFields(g: Grid, start: int, walk: seq<int>, cost: real)
    requires g.columns > 0
    ensures RouteOf(g, start, walk, cost).points == Corners(g, start, walk)
    ensures RouteOf(g, start, walk, cost).cost == cost
  {
  }
}
