/**
 The parking grid the route planner searches: cells, the eight move directions, the
 corner rule, step costs, and walks with their costs.  A walk is a sequence of
 directions; every optimality statement about the planner quantifies over walks.
 */
module GridModel {

  /** Site raster.  `diagonal` stands for the square root of two: every argument here
      works for any factor between one and two. */
  datatype Grid = Grid(columns: nat, rows: nat, cellSize: real, diagonal: real,
                       allowDiagonal: bool, blocked: seq<bool>)
  {
    ghost predicate Valid() {
      && columns > 0 && rows > 0
      && cellSize > 0.0
      && 1.0 <= diagonal <= 2.0
      && |blocked| == rows * columns
    }

    function Cells(): nat { |blocked| }

    /** The one state without an arrival direction. */
    function StartState(): nat { |blocked| * 8 }

    predicate IsFree(index: int) {
      0 <= index < |blocked| && !blocked[index]
    }

    function Index(column: int, row: int): int { row * columns + column }

    function Column(cell: int): int
      requires columns > 0
    {
      cell % columns
    }

    function Row(cell: int): int
      requires columns > 0
    {
      cell / columns
    }

    function DirectionLimit(): nat { if allowDiagonal then 8 else 4 }

    function StepDistance(direction: int): real {
      if direction < 4 then cellSize else cellSize * diagonal
    }

    function TurnPenalty(): real { 2.0 * cellSize }
  }

  function DX(direction: int): int {
    if direction == 0 || direction == 4 || direction == 5 then 1
    else if direction == 1 || direction == 6 || direction == 7 then -1
    else 0
  }

  function DY(direction: int): int {
    if direction == 2 || direction == 4 || direction == 6 then 1
    else if direction == 3 || direction == 5 || direction == 7 then -1
    else 0
  }

  // --- Raster indices ------------------------------------------------------------

  lemma IndexInverse(g: Grid, column: int, row: int)
    requires g.Valid() && 0 <= column < g.columns && 0 <= row < g.rows
    ensures 0 <= g.Index(column, row) < g.Cells()
    ensures g.Column(g.Index(column, row)) == column && g.Row(g.Index(column, row)) == row
  {
    var n := g.columns;
    assert row * n + n <= g.rows * n by {
      MulMonotone(row + 1, g.rows, n);
      assert (row + 1) * n == row * n + n;
    }
    assert 0 <= row * n by { MulMonotone(0, row, n); }
    QuotientIs(g.Index(column, row), n, row, column);
  }

  lemma MulMonotone(a: int, b: int, n: nat)
    requires a <= b
    ensures a * n <= b * n
  {
    assert b * n - a * n == (b - a) * n;
  }

  lemma QuotientIs(value: int, n: int, q: int, r: int)
    requires n > 0 && 0 <= r < n && value == q * n + r
    ensures value / n == q && value % n == r
  {
    var q', r' := value / n, value % n;
    assert value == q' * n + r' && 0 <= r' < n;
    assert (q - q') * n == r' - r;
    if q > q' {
      MulMonotone(1, q - q', n);
    } else if q < q' {
      MulMonotone(q - q', -1, n);
    }
  }

  lemma IndexOfParts(g: Grid, cell: int)
    requires g.Valid() && 0 <= cell < g.Cells()
    ensures 0 <= g.Column(cell) < g.columns && 0 <= g.Row(cell) < g.rows
    ensures g.Index(g.Column(cell), g.Row(cell)) == cell
  {
    var n, row := g.columns, g.Row(cell);
    assert cell == row * n + g.Column(cell);
    if row >= g.rows {
      MulMonotone(g.rows, row, n);
    }
    if row < 0 {
      MulMonotone(row, -1, n);
    }
  }

  // --- Moves ---------------------------------------------------------------------

  function Next(g: Grid, cell: int, direction: int): int
    requires g.columns > 0
  {
    g.Index(g.Column(cell) + DX(direction), g.Row(cell) + DY(direction))
  }

  predicate InBounds(g: Grid, column: int, row: int) {
    0 <= column < g.columns && 0 <= row < g.rows
  }

  /** One step from a cell: inside the raster, onto a free cell, and a diagonal step
      needs both cells it squeezes between to be free. */
  predicate Legal(g: Grid, cell: int, direction: int)
    requires g.columns > 0
  {
    && 0 <= direction < g.DirectionLimit()
    && InBounds(g, g.Column(cell) + DX(direction), g.Row(cell) + DY(direction))
    && g.IsFree(Next(g, cell, direction))
    && (direction >= 4 ==>
          && g.IsFree(g.Index(g.Column(cell) + DX(direction), g.Row(cell)))
          && g.IsFree(g.Index(g.Column(cell), g.Row(cell) + DY(direction))))
  }

  lemma NextParts(g: Grid, cell: int, direction: int)
    requires g.Valid() && Legal(g, cell, direction)
    ensures g.Column(Next(g, cell, direction)) == g.Column(cell) + DX(direction)
    ensures g.Row(Next(g, cell, direction)) == g.Row(cell) + DY(direction)
  {
    IndexInverse(g, g.Column(cell) + DX(direction), g.Row(cell) + DY(direction));
  }

  // --- Costs ---------------------------------------------------------------------

  datatype OccupancyField = NoField | Field(occupancy: seq<int>, weight: real)

  ghost predicate FieldOk(field: OccupancyField) {
    field.Field? ==> field.weight >= 0.0 && forall i :: 0 <= i < |field.occupancy| ==> field.occupancy[i] >= 0
  }

  function Multiplier(g: Grid, field: OccupancyField, cell: int): (m: real)
    ensures FieldOk(field) ==> m >= 1.0
  {
    if field.NoField? || |field.occupancy| != |g.blocked| || cell < 0 || cell >= |field.occupancy| then 1.0
    else
      assert field.weight >= 0.0 && field.occupancy[cell] >= 0 ==> field.weight * field.occupancy[cell] as real >= 0.0;
      1.0 + field.weight * field.occupancy[cell] as real
  }

  /** Cost of entering `next` moving in `direction`, having arrived in direction `arrival`
      (-1 at the start, where no turn is charged). */
  function StepCost(g: Grid, field: OccupancyField, arrival: int, direction: int, next: int): real {
    (g.StepDistance(direction)
     + if arrival >= 0 && arrival != direction then g.TurnPenalty() else 0.0)
    * Multiplier(g, field, next)
  }

  lemma StepCostAtLeastDistance(g: Grid, field: OccupancyField, arrival: int, direction: int, next: int)
    requires g.Valid() && FieldOk(field)
    ensures StepCost(g, field, arrival, direction, next) >= g.StepDistance(direction) >= g.cellSize > 0.0
  {
    var m := Multiplier(g, field, next);
    var base := g.StepDistance(direction) + if arrival >= 0 && arrival != direction then g.TurnPenalty() else 0.0;
    assert g.cellSize * (g.diagonal - 1.0) >= 0.0;
    assert base * (m - 1.0) >= 0.0;
    assert base * m == base + base * (m - 1.0);
  }

  // --- Walks ---------------------------------------------------------------------

  function Init<T>(s: seq<T>): seq<T>
    requires s != []
  {
    s[..|s| - 1]
  }

  function Last<T>(s: seq<T>): T
    requires s != []
  {
    s[|s| - 1]
  }

  function CellAfter(g: Grid, start: int, walk: seq<int>): int
    requires g.columns > 0
    decreases |walk|
  {
    if walk == [] then start else Next(g, CellAfter(g, start, Init(walk)), Last(walk))
  }

  function Arrival(walk: seq<int>): int {
    if walk == [] then -1 else Last(walk)
  }

  predicate IsWalk(g: Grid, start: int, walk: seq<int>)
    requires g.columns > 0
    decreases |walk|
  {
    walk != [] ==> IsWalk(g, start, Init(walk)) && Legal(g, CellAfter(g, start, Init(walk)), Last(walk))
  }

  function WalkCost(g: Grid, field: OccupancyField, start: int, walk: seq<int>): real
    requires g.columns > 0
    decreases |walk|
  {
    if walk == [] then 0.0
    else WalkCost(g, field, start, Init(walk))
         + StepCost(g, field, Arrival(Init(walk)), Last(walk), CellAfter(g, start, walk))
  }

  /** `walk` is a legal walk from `start` that ends on `cell`. */
  predicate WalkTo(g: Grid, start: int, walk: seq<int>, cell: int)
    requires g.columns > 0
  {
    IsWalk(g, start, walk) && CellAfter(g, start, walk) == cell
  }

  ghost predicate Reachable(g: Grid, start: int, cell: int)
    requires g.columns > 0
  {
    exists walk :: WalkTo(g, start, walk, cell)
  }

  /** `cost` is the least cost of any legal walk from `start` to `cell`. */
  ghost predicate IsLeastCost(g: Grid, field: OccupancyField, start: int, cell: int, cost: real)
    requires g.columns > 0
  {
    && (exists walk :: WalkTo(g, start, walk, cell) && WalkCost(g, field, start, walk) == cost)
    && (forall walk :: WalkTo(g, start, walk, cell) ==> cost <= WalkCost(g, field, start, walk))
  }

  // --- Search states: (cell, arrival direction) plus the start state -------------------

  function CellOf(g: Grid, start: int, state: int): int {
    if state == g.StartState() then start else state / 8
  }

  function DirectionOf(g: Grid, state: int): int {
    if state == g.StartState() then -1 else state % 8
  }

  function StateAfter(g: Grid, start: int, walk: seq<int>): int
    requires g.columns > 0
  {
    if walk == [] then g.StartState() else CellAfter(g, start, walk) * 8 + Last(walk)
  }

  function Successor(g: Grid, start: int, state: int, direction: int): int
    requires g.columns > 0
  {
    Next(g, CellOf(g, start, state), direction) * 8 + direction
  }

  function EdgeCost(g: Grid, field: OccupancyField, start: int, state: int, direction: int): real
    requires g.columns > 0
  {
    StepCost(g, field, DirectionOf(g, state), direction, Next(g, CellOf(g, start, state), direction))
  }

  lemma SuccessorParts(g: Grid, start: int, state: int, direction: int)
    requires g.Valid() && Legal(g, CellOf(g, start, state), direction)
    ensures var t := Successor(g, start, state, direction);
            && 0 <= t < g.StartState()
            && CellOf(g, start, t) == Next(g, CellOf(g, start, state), direction)
            && DirectionOf(g, t) == direction
            && g.IsFree(CellOf(g, start, t))
  {
  }

  lemma StateAfterParts(g: Grid, start: int, walk: seq<int>)
    requires g.Valid() && g.IsFree(start) && IsWalk(g, start, walk)
    ensures CellOf(g, start, StateAfter(g, start, walk)) == CellAfter(g, start, walk)
    ensures DirectionOf(g, StateAfter(g, start, walk)) == Arrival(walk)
    ensures 0 <= StateAfter(g, start, walk) <= g.StartState()
  {
    if walk != [] {
      StateAfterParts(g, start, Init(walk));
      SuccessorParts(g, start, StateAfter(g, start, Init(walk)), Last(walk));
    }
  }

  /** Appending a legal direction to a walk is taking the corresponding edge between states. */
  lemma WalkExtends(g: Grid, field: OccupancyField, start: int, walk: seq<int>, d: int)
    requires g.Valid() && g.IsFree(start) && IsWalk(g, start, walk)
    requires Legal(g, CellOf(g, start, StateAfter(g, start, walk)), d)
    ensures var longer, state := walk + [d], StateAfter(g, start, walk);
            && IsWalk(g, start, longer)
            && StateAfter(g, start, longer) == Successor(g, start, state, d)
            && WalkCost(g, field, start, longer) == WalkCost(g, field, start, walk) + EdgeCost(g, field, start, state, d)
  {
    assert Init(walk + [d]) == walk;
    StateAfterParts(g, start, walk);
  }
}
