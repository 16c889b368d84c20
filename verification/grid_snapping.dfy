/** Which free cell a point is snapped to, in metres and in the order of the raster. */
module GridSnapping {
  import opened GridModel
  import opened GridHeuristic
  import opened Points
  import opened GridPlanner

  /** Where the k-th line of the raster is. */
  function Line(k: int, size: real): real { k as real * size }

  /** The home cell is the one the point lies in; points outside the site belong to the nearest column and row. */
  lemma HomeHoldsPoint(g: Grid, point: Point)
    requires g.Valid()
    ensures var c := HomeColumn(g, point);
            && 0 <= c < g.columns
            && (Line(c, g.cellSize) <= point.x || c == 0)
            && (point.x < Line(c + 1, g.cellSize) || c == g.columns - 1)
    ensures var r := HomeRow(g, point);
            && 0 <= r < g.rows
            && (Line(r, g.cellSize) <= point.y || r == 0)
            && (point.y < Line(r + 1, g.cellSize) || r == g.rows - 1)
  {
    ClampHolds(point.x, g.cellSize, g.columns);
    ClampHolds(point.y, g.cellSize, g.rows);
  }

  lemma ClampHolds(x: real, size: real, count: int)
    requires size > 0.0 && count > 0
    ensures var k := ClampIndex((x / size).Floor, 0, count - 1);
            0 <= k < count && (Line(k, size) <= x || k == 0) && (x < Line(k + 1, size) || k == count - 1)
  {
    var k, q := (x / size).Floor, x / size;
    Quotient(x, size);
    Beyond(k, q, size);
    Beyond(k + 1, q, size);
    Beyond(count - 1, q, size);
    Beyond(1, q, size);
    hide Line;
  }

  /** A line is beyond q cells if and only if its number is greater. */
  lemma Beyond(k: int, q: real, size: real)
    requires size > 0.0
    ensures k as real <= q <==> Line(k, size) <= q * size
  {
    var d := k as real - q;
    assert d * size == Line(k, size) - q * size;
    if d > 0.0 {
      assert d * size > 0.0;
    } else {
      assert -d * size >= 0.0;
    }
  }

  lemma Quotient(x: real, size: real)
    requires size > 0.0
    ensures x / size * size == x && (x / size + 1.0) * size == x + size
  {
    var q := x / size;
    assert q * size == x;
    assert (q + 1.0) * size == q * size + size;
  }

  /** The centre of a cell is in the middle between the lines around it. */
  lemma CentreInCell(g: Grid, column: int, row: int)
    ensures var p := CellCenter(g, column, row);
            && p.x - Line(column, g.cellSize) == Line(column + 1, g.cellSize) - p.x
            && p.y - Line(row, g.cellSize) == Line(row + 1, g.cellSize) - p.y
  {
    InTheMiddle(column, g.cellSize);
    InTheMiddle(row, g.cellSize);
    hide Line;
  }

  lemma InTheMiddle(k: int, size: real)
    ensures (k as real + 0.5) * size - Line(k, size) == Line(k + 1, size) - (k as real + 0.5) * size
  {
    assert (k as real + 0.5) * size == k as real * size + 0.5 * size;
    assert (k + 1) as real * size == k as real * size + size;
  }

  // --- The first free cell in the order of the raster -------------------------------------------

  lemma {:induction false} RowFirst(g: Grid, row: int, column: int, last: int)
    requires g.Valid()
    ensures var f := ScanRow(g, row, column, last);
            f != -1 ==> forall c :: column <= c <= last && FreeAt(g, c, row) ==> f <= g.Index(c, row)
    decreases last - column
  {
    if column <= last && !FreeAt(g, column, row) {
      RowFirst(g, row, column + 1, last);
    }
  }

  /** Cells of an earlier row come first. */
  lemma EarlierRow(g: Grid, column: int, row: int, otherColumn: int, otherRow: int)
    requires g.Valid() && FreeAt(g, column, row) && FreeAt(g, otherColumn, otherRow) && row < otherRow
    ensures g.Index(column, row) < g.Index(otherColumn, otherRow)
  {
    MulMonotone(row + 1, otherRow, g.columns);
    assert (row + 1) * g.columns == row * g.columns + g.columns;
  }

  lemma {:induction false} SquareFirst(g: Grid, c0: int, radius: int, row: int, last: int)
    requires g.Valid()
    ensures var f := ScanSquare(g, c0, radius, row, last);
            f != -1 ==> forall c, r :: c0 - radius <= c <= c0 + radius && row <= r <= last && FreeAt(g, c, r) ==> f <= g.Index(c, r)
    decreases last - row
  {
    if row <= last {
      var found := ScanRow(g, row, c0 - radius, c0 + radius);
      RowFirst(g, row, c0 - radius, c0 + radius);
      ScanRowFacts(g, row, c0 - radius, c0 + radius);
      if found < 0 {
        SquareFirst(g, c0, radius, row + 1, last);
      } else {
        var c1 :| c0 - radius <= c1 <= c0 + radius && FreeAt(g, c1, row) && found == g.Index(c1, row);
        forall c, r | c0 - radius <= c <= c0 + radius && row <= r <= last && FreeAt(g, c, r) ensures found <= g.Index(c, r) {
          if row < r {
            EarlierRow(g, c1, row, c, r);
          }
        }
      }
    }
  }

  /** Of the free cells in the square of `radius` around the home cell, the first in the order of the raster. */
  ghost predicate FirstOf(g: Grid, c0: int, r0: int, radius: int, cell: int) {
    forall c, r :: Within(c0, r0, radius, c, r) && FreeAt(g, c, r) ==> cell <= g.Index(c, r)
  }

  lemma {:induction false} SquaresFirst(g: Grid, c0: int, r0: int, radius: int, limit: int)
    requires g.Valid() && NoneWithin(g, c0, r0, radius - 1)
    ensures var f := ScanSquares(g, c0, r0, radius, limit);
            f != -1 ==> exists k :: radius <= k <= limit && ClosestFree(g, c0, r0, k, f) && FirstOf(g, c0, r0, k, f)
    decreases limit - radius
  {
    if radius <= limit {
      var found := ScanSquare(g, c0, radius, r0 - radius, r0 + radius);
      ScanSquareFacts(g, c0, radius, r0 - radius, r0 + radius);
      SquareFirst(g, c0, radius, r0 - radius, r0 + radius);
      if found < 0 {
        assert NoneWithin(g, c0, r0, radius);
        SquaresFirst(g, c0, r0, radius + 1, limit);
      } else {
        assert ClosestFree(g, c0, r0, radius, found) && FirstOf(g, c0, r0, radius, found);
      }
    }
  }

  /** Snapping takes the first free cell, in the order of the raster, of the smallest square that has one. */
  lemma NearestIsFirst(g: Grid, point: Point)
    requires g.Valid() && Nearest(g, point) != -1
    ensures var c0, r0 := HomeColumn(g, point), HomeRow(g, point);
            exists k :: 0 <= k && ClosestFree(g, c0, r0, k, Nearest(g, point)) && FirstOf(g, c0, r0, k, Nearest(g, point))
  {
    var c0, r0 := HomeColumn(g, point), HomeRow(g, point);
    IndexInverse(g, c0, r0);
    assert Within(c0, r0, 0, c0, r0);
    if g.IsFree(g.Index(c0, r0)) {
      assert ClosestFree(g, c0, r0, 0, g.Index(c0, r0)) && FirstOf(g, c0, r0, 0, g.Index(c0, r0));
    } else {
      assert NoneWithin(g, c0, r0, 0);
      SquaresFirst(g, c0, r0, 1, SearchRadius(g));
    }
  }

  // --- How far the search goes ------------------------------------------------------------------

  /** Columns or rows apart, in metres. */
  function Metres(g: Grid, a: int, b: int): real {
    Line(if a < b then b - a else a - b, g.cellSize)
  }

  lemma RadiusInMetres(g: Grid, steps: int)
    requires g.Valid() && steps >= 0
    ensures Line(steps, g.cellSize) <= 2.0 <==> steps as real <= 2.0 / g.cellSize
    ensures Line(steps, g.cellSize) <= 2.0 ==> steps <= SearchRadius(g)
    ensures steps <= SearchRadius(g) ==> Line(steps, g.cellSize) <= 2.0 + g.cellSize
  {
    var q, k := 2.0 / g.cellSize, SearchRadius(g);
    Quotient(2.0, g.cellSize);
    assert k as real >= q > (k - 1) as real;
    Beyond(steps, q, g.cellSize);
    Beyond(steps, q + 1.0, g.cellSize);
    hide Line;
  }

  /** No cell is found exactly when none is free within two metres, rounded up to whole cells, by columns and by rows. */
  lemma NoneWithinTwoMetres(g: Grid, point: Point, column: int, row: int)
    requires g.Valid() && FreeAt(g, column, row)
    ensures Nearest(g, point) == -1 ==>
              Metres(g, HomeColumn(g, point), column) > 2.0 || Metres(g, HomeRow(g, point), row) > 2.0
    ensures Nearest(g, point) == g.Index(column, row) ==>
              Metres(g, HomeColumn(g, point), column) <= 2.0 + g.cellSize && Metres(g, HomeRow(g, point), row) <= 2.0 + g.cellSize
  {
    var c0, r0, limit := HomeColumn(g, point), HomeRow(g, point), SearchRadius(g);
    NearestIsClosest(g, point);
    IndexInverse(g, column, row);
    hide Nearest, HomeColumn, HomeRow, SearchRadius, FreeAt, ClosestFree, NoneWithin;
    FarOrNear(g, c0, r0, column, row);
    if Nearest(g, point) == -1 {
      NotWithin(g, c0, r0, limit, column, row);
    } else if Nearest(g, point) == g.Index(column, row) {
      WithinReach(g, c0, r0, limit, column, row);
    }
  }

  lemma FarOrNear(g: Grid, c0: int, r0: int, column: int, row: int)
    requires g.Valid()
    ensures Metres(g, c0, column) <= 2.0 && Metres(g, r0, row) <= 2.0 ==> Within(c0, r0, SearchRadius(g), column, row)
    ensures Within(c0, r0, SearchRadius(g), column, row) ==>
              Metres(g, c0, column) <= 2.0 + g.cellSize && Metres(g, r0, row) <= 2.0 + g.cellSize
  {
    RadiusInMetres(g, if c0 < column then column - c0 else c0 - column);
    RadiusInMetres(g, if r0 < row then row - r0 else r0 - row);
    hide SearchRadius, Line;
  }

  lemma NotWithin(g: Grid, c0: int, r0: int, limit: int, column: int, row: int)
    requires NoneWithin(g, c0, r0, limit) && FreeAt(g, column, row)
    ensures !Within(c0, r0, limit, column, row)
  {
  }

  lemma WithinReach(g: Grid, c0: int, r0: int, limit: int, column: int, row: int)
    requires g.Valid() && FreeAt(g, column, row)
    requires exists k :: 0 <= k <= limit && ClosestFree(g, c0, r0, k, g.Index(column, row))
    ensures Within(c0, r0, limit, column, row)
  {
    var k :| 0 <= k <= limit && ClosestFree(g, c0, r0, k, g.Index(column, row));
    var c, r :| Within(c0, r0, k, c, r) && FreeAt(g, c, r) && g.Index(column, row) == g.Index(c, r);
    IndexInverse(g, c, r);
    IndexInverse(g, column, row);
  }
}
