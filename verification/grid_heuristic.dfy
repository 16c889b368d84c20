/**
 The search estimate: distance to the nearest goal centre, octile with diagonal moves
 and Manhattan without.  The minimum over all goals is consistent along every legal
 step, which is what lets one search settle many goals optimally.
 */
module GridHeuristic {
  import opened GridModel
  import opened Points

  function CellCenter(g: Grid, column: int, row: int): Point {
    Point((column as real + 0.5) * g.cellSize, (row as real + 0.5) * g.cellSize)
  }

  function CenterOf(g: Grid, cell: int): Point
    requires g.columns > 0
  {
    CellCenter(g, g.Column(cell), g.Row(cell))
  }

  function AbsReal(x: real): real { if x < 0.0 then -x else x }
  function MaxReal(x: real, y: real): real { if x < y then y else x }
  function MinReal(x: real, y: real): real { if y < x then y else x }

  function Octile(p: real, dx: real, dy: real): real {
    MaxReal(dx, dy) + p * MinReal(dx, dy)
  }

  function OctileDistance(p: real, from: Point, to: Point): real {
    Octile(p, AbsReal(to.x - from.x), AbsReal(to.y - from.y))
  }

  function ManhattanDistance(from: Point, to: Point): real {
    AbsReal(to.x - from.x) + AbsReal(to.y - from.y)
  }

  function PointEstimate(g: Grid, from: Point, to: Point): real {
    if g.allowDiagonal then OctileDistance(g.diagonal - 1.0, from, to) else ManhattanDistance(from, to)
  }

  function Estimate(g: Grid, cell: int, goal: int): real
    requires g.columns > 0
  {
    PointEstimate(g, CenterOf(g, cell), CenterOf(g, goal))
  }

  /** Least estimate over the goals; zero when there is none (plain Dijkstra). */
  function Heuristic(g: Grid, goals: seq<int>, cell: int): real
    requires g.columns > 0
    decreases |goals|
  {
    if goals == [] then 0.0
    else if |goals| == 1 then Estimate(g, cell, goals[0])
    else MinReal(Heuristic(g, Init(goals), cell), Estimate(g, cell, Last(goals)))
  }

  // --- Octile distance moves by at most one step per step -----------------------------

  lemma ProductNonNegative(a: real, b: real)
    requires a >= 0.0 && b >= 0.0
    ensures a * b >= 0.0
  {
  }

  /** The octile distance is the larger of two linear forms. */
  lemma OctileAsMax(p: real, dx: real, dy: real)
    requires 0.0 <= p <= 1.0
    ensures Octile(p, dx, dy) == MaxReal(dx + p * dy, dy + p * dx)
  {
    if dx < dy {
      ProductNonNegative(1.0 - p, dy - dx);
      assert (1.0 - p) * (dy - dx) == (dy + p * dx) - (dx + p * dy);
    } else {
      ProductNonNegative(1.0 - p, dx - dy);
      assert (1.0 - p) * (dx - dy) == (dx + p * dy) - (dy + p * dx);
    }
  }

  /** Lengthening the legs by at most a and b lengthens the octile distance by at most a + p b or b + p a. */
  lemma OctileBound(p: real, dx: real, dx': real, dy: real, dy': real, a: real, b: real, step: real)
    requires 0.0 <= p <= 1.0 && dx' <= dx + a && dy' <= dy + b
    requires a + p * b <= step && b + p * a <= step
    ensures Octile(p, dx', dy') <= Octile(p, dx, dy) + step
  {
    OctileAsMax(p, dx, dy);
    OctileAsMax(p, dx', dy');
    ProductNonNegative(p, dx + a - dx');
    assert p * (dx + a - dx') == p * dx + p * a - p * dx';
    ProductNonNegative(p, dy + b - dy');
    assert p * (dy + b - dy') == p * dy + p * b - p * dy';
  }

  /** A coordinate step of one cell, or none. */
  function Shift(d: int, s: real): real {
    if d == 0 then 0.0 else if d < 0 then -s else s
  }

  /** The displacement of one legal step, in site units. */
  lemma StepShift(g: Grid, cell: int, direction: int)
    requires g.Valid() && 0 <= cell < g.Cells() && Legal(g, cell, direction)
    ensures CenterOf(g, Next(g, cell, direction)).x == CenterOf(g, cell).x + Shift(DX(direction), g.cellSize)
    ensures CenterOf(g, Next(g, cell, direction)).y == CenterOf(g, cell).y + Shift(DY(direction), g.cellSize)
  {
    NextParts(g, cell, direction);
    CenterShift(g, g.Column(cell), g.Row(cell), direction);
    CenterParts(g, cell);
    CenterParts(g, Next(g, cell, direction));
    hide *;
  }

  lemma CenterParts(g: Grid, cell: int)
    requires g.Valid()
    ensures CenterOf(g, cell) == CellCenter(g, g.Column(cell), g.Row(cell))
  {
  }

  lemma CenterShift(g: Grid, column: int, row: int, direction: int)
    ensures CellCenter(g, column + DX(direction), row + DY(direction)).x
         == CellCenter(g, column, row).x + Shift(DX(direction), g.cellSize)
    ensures CellCenter(g, column + DX(direction), row + DY(direction)).y
         == CellCenter(g, column, row).y + Shift(DY(direction), g.cellSize)
  {
    CoordinateShift(column, DX(direction), g.cellSize);
    CoordinateShift(row, DY(direction), g.cellSize);
    CenterIs(g, column, row);
    CenterIs(g, column + DX(direction), row + DY(direction));
    hide CellCenter, Middle, Shift, DX, DY;
  }

  /** The middle of a column or row. */
  function Middle(k: int, s: real): real { (k as real + 0.5) * s }

  lemma CenterIs(g: Grid, column: int, row: int)
    ensures CellCenter(g, column, row) == Point(Middle(column, g.cellSize), Middle(row, g.cellSize))
  {
  }

  lemma CoordinateShift(c: int, d: int, s: real)
    requires -1 <= d <= 1
    ensures Middle(c + d, s) == Middle(c, s) + Shift(d, s)
  {
    assert ((c + d) as real + 0.5) * s == (c as real + 0.5) * s + d as real * s;
  }

  lemma StepLength(p: real, s: real, direction: int)
    requires 0.0 <= p <= 1.0 && s > 0.0
    ensures var a, b := AbsReal(Shift(DX(direction), s)), AbsReal(Shift(DY(direction), s));
            var step := if direction < 4 then s else s * (p + 1.0);
            0 <= direction < 8 ==> a + p * b <= step && b + p * a <= step
  {
    ProductNonNegative(1.0 - p, s);
    assert (1.0 - p) * s == s - p * s;
    assert s * (p + 1.0) == s + p * s;
    assert p * 0.0 == 0.0;
  }

  lemma OctileStep(p: real, s: real, u: Point, v: Point, t: Point, direction: int)
    requires 0.0 <= p <= 1.0 && s > 0.0 && 0 <= direction < 8
    requires v.x == u.x + Shift(DX(direction), s) && v.y == u.y + Shift(DY(direction), s)
    ensures OctileDistance(p, u, t) <= OctileDistance(p, v, t) + if direction < 4 then s else s * (p + 1.0)
  {
    var a, b := AbsReal(Shift(DX(direction), s)), AbsReal(Shift(DY(direction), s));
    var step := if direction < 4 then s else s * (p + 1.0);
    StepLength(p, s, direction);
    Detour(t.x, u.x, v.x, Shift(DX(direction), s));
    Detour(t.y, u.y, v.y, Shift(DY(direction), s));
    hide Octile, AbsReal, Shift, DX, DY;
    OctileBound(p, AbsReal(t.x - v.x), AbsReal(t.x - u.x), AbsReal(t.y - v.y), AbsReal(t.y - u.y), a, b, step);
  }

  lemma Detour(to: real, from: real, over: real, shift: real)
    requires over == from + shift
    ensures AbsReal(to - from) <= AbsReal(to - over) + AbsReal(shift)
  {
  }

  lemma ManhattanStep(s: real, u: Point, v: Point, t: Point, direction: int)
    requires s > 0.0 && 0 <= direction < 4
    requires v.x == u.x + Shift(DX(direction), s) && v.y == u.y + Shift(DY(direction), s)
    ensures ManhattanDistance(u, t) <= ManhattanDistance(v, t) + s
  {
  }

  lemma PointStep(g: Grid, u: Point, v: Point, t: Point, direction: int)
    requires g.Valid() && 0 <= direction < g.DirectionLimit()
    requires v.x == u.x + Shift(DX(direction), g.cellSize) && v.y == u.y + Shift(DY(direction), g.cellSize)
    ensures PointEstimate(g, u, t) <= g.StepDistance(direction) + PointEstimate(g, v, t)
  {
    hide OctileDistance, ManhattanDistance, Shift, DX, DY;
    if g.allowDiagonal {
      OctileStep(g.diagonal - 1.0, g.cellSize, u, v, t, direction);
    } else {
      ManhattanStep(g.cellSize, u, v, t, direction);
    }
  }

  /** One legal step changes the estimate for a goal by at most the step's length. */
  lemma EstimateStep(g: Grid, cell: int, direction: int, goal: int)
    requires g.Valid() && 0 <= cell < g.Cells() && Legal(g, cell, direction)
    ensures Estimate(g, cell, goal) <= g.StepDistance(direction) + Estimate(g, Next(g, cell, direction), goal)
  {
    StepShift(g, cell, direction);
    hide PointEstimate, CenterOf, Next, Shift, DX, DY;
    PointStep(g, CenterOf(g, cell), CenterOf(g, Next(g, cell, direction)), CenterOf(g, goal), direction);
  }

  /** The minimum over goals is consistent: no legal step lowers it by more than the step costs. */
  lemma {:induction false} HeuristicConsistent(g: Grid, goals: seq<int>, cell: int, direction: int)
    requires g.Valid() && 0 <= cell < g.Cells() && Legal(g, cell, direction)
    ensures Heuristic(g, goals, cell) <= g.StepDistance(direction) + Heuristic(g, goals, Next(g, cell, direction))
    decreases |goals|
  {
    if goals != [] {
      EstimateStep(g, cell, direction, Last(goals));
      if |goals| > 1 {
        HeuristicConsistent(g, Init(goals), cell, direction);
      }
    } else {
      StepCostAtLeastDistance(g, NoField, -1, direction, 0);
    }
  }

  lemma {:induction false} HeuristicNonNegative(g: Grid, goals: seq<int>, cell: int)
    requires g.Valid()
    ensures Heuristic(g, goals, cell) >= 0.0
    decreases |goals|
  {
    if goals != [] {
      EstimateNonNegative(g, cell, Last(goals));
      if |goals| > 1 {
        HeuristicNonNegative(g, Init(goals), cell);
      }
    }
  }

  lemma EstimateNonNegative(g: Grid, cell: int, goal: int)
    requires g.Valid()
    ensures Estimate(g, cell, goal) >= 0.0
  {
    var u, t := CenterOf(g, cell), CenterOf(g, goal);
    ProductNonNegative(g.diagonal - 1.0, MinReal(AbsReal(t.x - u.x), AbsReal(t.y - u.y)));
  }

  /** A goal's own estimate is zero. */
  lemma {:induction false} HeuristicZeroAtGoal(g: Grid, goals: seq<int>, goal: int)
    requires g.Valid() && goal in goals
    ensures Heuristic(g, goals, goal) == 0.0
    decreases |goals|
  {
    HeuristicNonNegative(g, goals, goal);
    assert (g.diagonal - 1.0) * 0.0 == 0.0;
    if goal == Last(goals) {
      if |goals| > 1 {
        HeuristicNonNegative(g, Init(goals), goal);
      }
    } else {
      HeuristicZeroAtGoal(g, Init(goals), goal);
      EstimateNonNegative(g, goal, Last(goals));
    }
  }

  /** The estimate never exceeds what a walk between the two cells costs. */
  lemma {:induction false} HeuristicAlongWalk(g: Grid, field: OccupancyField, goals: seq<int>, start: int,
                                              walk: seq<int>, k: nat)
    requires g.Valid() && FieldOk(field) && g.IsFree(start)
    requires k <= |walk| && IsWalk(g, start, walk)
    ensures IsWalk(g, start, walk[..k])
    ensures Heuristic(g, goals, CellAfter(g, start, walk[..k])) + WalkCost(g, field, start, walk[..k])
            <= WalkCost(g, field, start, walk) + Heuristic(g, goals, CellAfter(g, start, walk))
    decreases |walk|
  {
    if k == |walk| {
      assert walk[..k] == walk;
    } else {
      var init := Init(walk);
      assert init[..k] == walk[..k];
      HeuristicAlongWalk(g, field, goals, start, init, k);
      var cell := CellAfter(g, start, init);
      assert 0 <= cell < g.Cells() by { WalkEndsFree(g, start, init); }
      HeuristicConsistent(g, goals, cell, Last(walk));
      StepCostAtLeastDistance(g, field, Arrival(init), Last(walk), CellAfter(g, start, walk));
    }
  }

  lemma WalkEndsFree(g: Grid, start: int, walk: seq<int>)
    requires g.Valid() && g.IsFree(start) && IsWalk(g, start, walk)
    ensures g.IsFree(CellAfter(g, start, walk))
  {
  }
}
