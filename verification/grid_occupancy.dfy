/**
 The congestion field: for every free cell the number of parked or reserved vehicles whose access point is
 within a radius.  Each vehicle is counted through a window of cells around it; the window misses no cell.
 */
module GridOccupancy {
  import opened GridModel
  import opened GridHeuristic
  import opened Points
  import opened RealProducts
  import opened GridPlanner

  /** `active` if the spot is occupied or reserved. */
  datatype Parked = Parked(access: Point, active: bool)

  /** Within the radius, compared by squares. */
  predicate Near(from: Point, to: Point, radius: real) {
    Times(to.x - from.x, to.x - from.x) + Times(to.y - from.y, to.y - from.y) <= Times(radius, radius)
  }

  predicate Counts(g: Grid, spot: Parked, radius: real, cell: int)
    requires g.columns > 0
  {
    spot.active && g.IsFree(cell) && Near(CenterOf(g, cell), spot.access, radius)
  }

  /** The plain definition: over all spots, with no window. */
  function CountNear(g: Grid, spots: seq<Parked>, radius: real, cell: int): int
    requires g.columns > 0
  {
    if spots == [] then 0
    else CountNear(g, spots[..|spots| - 1], radius, cell) + if Counts(g, spots[|spots| - 1], radius, cell) then 1 else 0
  }

  function WindowRadius(g: Grid, radius: real): int
    requires g.cellSize > 0.0
  {
    Ceiling(radius / g.cellSize)
  }

  predicate InWindow(g: Grid, spot: Parked, radius: real, cell: int)
    requires g.columns > 0 && g.cellSize > 0.0
  {
    var r := WindowRadius(g, radius);
    && Around(g.Column(cell), HomeColumn(g, spot.access), r)
    && Around(g.Row(cell), HomeRow(g, spot.access), r)
  }

  predicate Around(index: int, home: int, r: int) {
    home - r <= index <= home + r
  }

  // --- The window misses nothing -----------------------------------------------------------

  lemma LargerProduct(x: real, y: real)
    requires 0.0 <= y < x
    ensures Times(y, y) < Times(x, x)
  {
    assert Times(x, x) - Times(y, y) == Times(x - y, x + y);
    TimesPositive(x - y, x + y);
  }

  lemma SquareBound(d: real, e: real, radius: real)
    requires radius >= 0.0 && Times(d, d) + Times(e, e) <= Times(radius, radius)
    ensures -radius <= d <= radius
  {
    SquareIsNonNegative(e);
    if d > radius {
      LargerProduct(d, radius);
    } else if d < -radius {
      TimesNegated(d, d);
      LargerProduct(-d, radius);
    }
  }

  lemma ScaledBound(index: int, access: real, cellSize: real, radius: real)
    requires cellSize > 0.0 && -radius <= access - (index as real + 0.5) * cellSize <= radius
    ensures var u := access / cellSize;
            u - radius / cellSize <= index as real + 0.5 <= u + radius / cellSize
  {
    var u, v, w := access / cellSize, radius / cellSize, index as real + 0.5;
    assert access == u * cellSize && radius == v * cellSize;
    DivideBound(w - u - v, cellSize);
    DivideBound(u - v - w, cellSize);
    assert (w - u - v) * cellSize == w * cellSize - access - radius;
    assert (u - v - w) * cellSize == access - radius - w * cellSize;
  }

  lemma DivideBound(x: real, c: real)
    requires c > 0.0
    ensures x > 0.0 ==> x * c > 0.0
  {
  }

  /** One coordinate: clamping the origin to the raster keeps every near cell in the window. */
  lemma CoordinateInWindow(index: int, count: int, u: real, v: real)
    requires 0 <= index < count && u - v <= index as real + 0.5 <= u + v
    ensures var home, r := ClampIndex(u.Floor, 0, count - 1), Ceiling(v); home - r <= index <= home + r
  {
    var r := Ceiling(v);
    assert v <= r as real;
    assert u.Floor as real <= u < (u.Floor + 1) as real;
    assert index as real <= (u.Floor + 1 + r) as real - 0.5;
    assert index as real >= (u.Floor - r) as real - 0.5;
  }

  /** The centre of the index-th cell along an axis is within the radius. */
  predicate AxisNear(index: int, access: real, cellSize: real, radius: real) {
    -radius <= access - (index as real + 0.5) * cellSize <= radius
  }

  lemma AxisInWindow(index: int, count: int, access: real, cellSize: real, radius: real)
    requires cellSize > 0.0 && 0 <= index < count && AxisNear(index, access, cellSize, radius)
    ensures Around(index, ClampIndex((access / cellSize).Floor, 0, count - 1), Ceiling(radius / cellSize))
  {
    ScaledBound(index, access, cellSize, radius);
    CoordinateInWindow(index, count, access / cellSize, radius / cellSize);
    hide ClampIndex, Ceiling;
  }

  lemma NearBounds(g: Grid, cell: int, to: Point, radius: real)
    requires g.columns > 0 && radius >= 0.0 && Near(CenterOf(g, cell), to, radius)
    ensures AxisNear(g.Column(cell), to.x, g.cellSize, radius) && AxisNear(g.Row(cell), to.y, g.cellSize, radius)
  {
    var from := CenterOf(g, cell);
    SquareBound(to.x - from.x, to.y - from.y, radius);
    SquareBound(to.y - from.y, to.x - from.x, radius);
    hide Times;
  }

  lemma WindowMissesNothing(g: Grid, spot: Parked, radius: real, cell: int)
    requires g.Valid() && radius >= 0.0 && 0 <= cell < g.Cells() && Near(CenterOf(g, cell), spot.access, radius)
    ensures InWindow(g, spot, radius, cell)
  {
    IndexOfParts(g, cell);
    NearBounds(g, cell, spot.access, radius);
    assert g.cellSize > 0.0 && g.columns > 0;
    hide g.Valid, Near, ClampIndex, Ceiling, AxisNear, Around, CenterOf;
    AxisInWindow(g.Column(cell), g.columns, spot.access.x, g.cellSize, radius);
    AxisInWindow(g.Row(cell), g.rows, spot.access.y, g.cellSize, radius);
  }

  // --- The program's loops --------------------------------------------------------------

  /** Counted in the window, in a row before the given one. */
  predicate Above(g: Grid, spot: Parked, radius: real, cell: int, row: int)
    requires g.columns > 0 && g.cellSize > 0.0
  {
    Counts(g, spot, radius, cell) && InWindow(g, spot, radius, cell) && g.Row(cell) < row
  }

  /** Counted in the window, in the given row and a column before the given one. */
  predicate Left(g: Grid, spot: Parked, radius: real, cell: int, row: int, column: int)
    requires g.columns > 0 && g.cellSize > 0.0
  {
    && Counts(g, spot, radius, cell) && InWindow(g, spot, radius, cell)
    && g.Row(cell) == row && g.Column(cell) < column
  }

  function One(b: bool): int { if b then 1 else 0 }

  /** Add one vehicle to the counts. */
  method AddSpot(g: Grid, spot: Parked, radius: real, counts: array<int>)
    requires g.Valid() && radius > 0.0 && spot.active && counts.Length == g.Cells()
    modifies counts
    ensures forall cell :: 0 <= cell < counts.Length ==> counts[cell] == old(counts[cell]) + One(Counts(g, spot, radius, cell))
  {
    var originRow, r := HomeRow(g, spot.access), WindowRadius(g, radius);
    var row := originRow - r;
    NoneAbove(g, spot, radius);
    hide Above, Left, Counts, InWindow, HomeRow, WindowRadius;
    while row <= originRow + r
      invariant row >= originRow - r
      invariant forall cell :: 0 <= cell < counts.Length ==>
                  counts[cell] == old(counts[cell]) + One(Above(g, spot, radius, cell, row))
    {
      AddRow(g, spot, radius, counts, row);
      AboveNext(g, spot, radius, row);
      row := row + 1;
    }
    AllAbove(g, spot, radius, row);
  }

  lemma NoneAbove(g: Grid, spot: Parked, radius: real)
    requires g.Valid()
    ensures var first := HomeRow(g, spot.access) - WindowRadius(g, radius);
            forall cell :: 0 <= cell < g.Cells() ==> !Above(g, spot, radius, cell, first)
  {
  }

  lemma AboveNext(g: Grid, spot: Parked, radius: real, row: int)
    requires g.Valid()
    ensures forall cell :: 0 <= cell < g.Cells() ==>
              (One(Above(g, spot, radius, cell, row + 1)) - One(Above(g, spot, radius, cell, row))
               == One(Left(g, spot, radius, cell, row, LastColumn(g, spot, radius))))
  {
  }

  lemma AllAbove(g: Grid, spot: Parked, radius: real, row: int)
    requires g.Valid() && radius > 0.0 && row > HomeRow(g, spot.access) + WindowRadius(g, radius)
    ensures forall cell :: 0 <= cell < g.Cells() ==> Above(g, spot, radius, cell, row) == Counts(g, spot, radius, cell)
  {
    forall cell | 0 <= cell < g.Cells() && Counts(g, spot, radius, cell) ensures Above(g, spot, radius, cell, row) {
      WindowMissesNothing(g, spot, radius, cell);
    }
  }

  function LastColumn(g: Grid, spot: Parked, radius: real): int
    requires g.cellSize > 0.0
  {
    HomeColumn(g, spot.access) + WindowRadius(g, radius) + 1
  }

  method AddRow(g: Grid, spot: Parked, radius: real, counts: array<int>, row: int)
    requires g.Valid() && spot.active && counts.Length == g.Cells()
    requires HomeRow(g, spot.access) - WindowRadius(g, radius) <= row <= HomeRow(g, spot.access) + WindowRadius(g, radius)
    modifies counts
    ensures forall cell :: 0 <= cell < counts.Length ==>
              counts[cell] == old(counts[cell]) + One(Left(g, spot, radius, cell, row, LastColumn(g, spot, radius)))
  {
    var column, last := HomeColumn(g, spot.access) - WindowRadius(g, radius), LastColumn(g, spot, radius);
    NoneLeft(g, spot, radius, row);
    hide Left, Counts, InWindow, HomeRow, HomeColumn, WindowRadius, CellCenter;
    while column < last
      invariant HomeColumn(g, spot.access) - WindowRadius(g, radius) <= column <= last
      invariant forall cell :: 0 <= cell < counts.Length ==>
                  counts[cell] == old(counts[cell]) + One(Left(g, spot, radius, cell, row, column))
    {
      LeftNext(g, spot, radius, row, column);
      if !(row < 0 || row >= g.rows || column < 0 || column >= g.columns) {
        var index := g.Index(column, row);
        IndexInverse(g, column, row);
        if g.IsFree(index) {
          if Near(CellCenter(g, column, row), spot.access, radius) {
            counts[index] := counts[index] + 1;
          }
        }
      }
      column := column + 1;
    }
  }

  lemma NoneLeft(g: Grid, spot: Parked, radius: real, row: int)
    requires g.Valid()
    ensures var first := HomeColumn(g, spot.access) - WindowRadius(g, radius);
            forall cell :: 0 <= cell < g.Cells() ==> !Left(g, spot, radius, cell, row, first)
  {
  }

  predicate Here(g: Grid, spot: Parked, radius: real, cell: int, row: int, column: int) {
    && InBounds(g, column, row) && cell == g.Index(column, row) && g.IsFree(cell)
    && Near(CellCenter(g, column, row), spot.access, radius)
  }

  /** Passing one column of a row adds exactly the cell there, if it counts. */
  lemma LeftNext(g: Grid, spot: Parked, radius: real, row: int, column: int)
    requires g.Valid() && spot.active
    requires HomeRow(g, spot.access) - WindowRadius(g, radius) <= row <= HomeRow(g, spot.access) + WindowRadius(g, radius)
    requires HomeColumn(g, spot.access) - WindowRadius(g, radius) <= column < LastColumn(g, spot, radius)
    ensures forall cell :: 0 <= cell < g.Cells() ==>
              (One(Left(g, spot, radius, cell, row, column + 1)) - One(Left(g, spot, radius, cell, row, column))
               == One(Here(g, spot, radius, cell, row, column)))
  {
    forall cell | 0 <= cell < g.Cells()
      ensures One(Left(g, spot, radius, cell, row, column + 1)) - One(Left(g, spot, radius, cell, row, column))
           == One(Here(g, spot, radius, cell, row, column))
    {
      IndexOfParts(g, cell);
      if InBounds(g, column, row) {
        IndexInverse(g, column, row);
      }
      hide Near, CellCenter, HomeRow, HomeColumn, WindowRadius;
    }
  }

  lemma {:induction false} CountIsNonNegative(g: Grid, spots: seq<Parked>, radius: real, cell: int)
    requires g.columns > 0
    ensures 0 <= CountNear(g, spots, radius, cell) <= |spots|
  {
    if spots != [] {
      CountIsNonNegative(g, spots[..|spots| - 1], radius, cell);
    }
  }

  lemma NearMeans(from: Point, to: Point, radius: real)
    ensures Near(from, to, radius) <==>
            (to.x - from.x) * (to.x - from.x) + (to.y - from.y) * (to.y - from.y) <= radius * radius
  {
  }

  /** The spots that count for a cell: occupied or reserved, with the access point within the radius of the cell's centre;
      and none for a cell that is not free. */
  ghost function Counted(g: Grid, spots: seq<Parked>, radius: real, cell: int): set<nat>
    requires g.columns > 0
  {
    set k: nat | k < |spots| && Reaches(g, spots[k], radius, cell)
  }

  ghost predicate Reaches(g: Grid, spot: Parked, radius: real, cell: int)
    requires g.columns > 0
  {
    && spot.active && g.IsFree(cell)
    && Near(Point((g.Column(cell) as real + 0.5) * g.cellSize, (g.Row(cell) as real + 0.5) * g.cellSize), spot.access, radius)
  }

  lemma ReachesIs(g: Grid, spot: Parked, radius: real, cell: int)
    requires g.columns > 0
    ensures Reaches(g, spot, radius, cell) <==> Counts(g, spot, radius, cell)
  {
  }

  lemma {:induction false} CountIsCounted(g: Grid, spots: seq<Parked>, radius: real, cell: int)
    requires g.columns > 0
    ensures CountNear(g, spots, radius, cell) == |Counted(g, spots, radius, cell)|
    decreases |spots|
  {
    if spots == [] {
      assert Counted(g, spots, radius, cell) == {};
    } else {
      var last := |spots| - 1;
      CountIsCounted(g, spots[..last], radius, cell);
      OneMoreCounted(g, spots, radius, cell);
      assert last !in Counted(g, spots[..last], radius, cell);
      hide Counted, Counts;
    }
  }

  lemma OneMoreCounted(g: Grid, spots: seq<Parked>, radius: real, cell: int)
    requires g.columns > 0 && spots != []
    ensures Counted(g, spots, radius, cell)
         == Counted(g, spots[..|spots| - 1], radius, cell)
          + if Counts(g, spots[|spots| - 1], radius, cell) then {|spots| - 1} else {}
  {
    var last := |spots| - 1;
    ReachesIs(g, spots[last], radius, cell);
    hide Reaches, Counts;
    forall k: nat | k < last ensures spots[..last][k] == spots[k] {}
  }

  /** Every free cell gets the number of active spots within the radius; a radius of zero counts nothing.  With a
      weight that is not negative the search accepts the field. */
  method BuildOccupancy(g: Grid, spots: seq<Parked>, radius: real, weight: real) returns (field: OccupancyField)
    requires g.Valid()
    ensures field.Field? && field.weight == weight && |field.occupancy| == g.Cells()
    ensures forall cell :: 0 <= cell < g.Cells() ==>
              field.occupancy[cell] == if radius > 0.0 then CountNear(g, spots, radius, cell) else 0
    ensures weight >= 0.0 ==> FieldOk(field)
  {
    var counts := new int[g.Cells()](i => 0);
    if radius <= 0.0 {
      return Field(counts[..], weight);
    }
    for i := 0 to |spots|
      invariant forall cell :: 0 <= cell < counts.Length ==> counts[cell] == CountNear(g, spots[..i], radius, cell)
    {
      assert spots[..i + 1][..i] == spots[..i];
      if spots[i].active {
        AddSpot(g, spots[i], radius, counts);
      }
    }
    assert spots[..|spots|] == spots;
    forall cell | 0 <= cell < counts.Length ensures counts[cell] >= 0 {
      CountIsNonNegative(g, spots, radius, cell);
    }
    field := Field(counts[..], weight);
  }
}
