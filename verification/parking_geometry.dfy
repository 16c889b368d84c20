/** Points and axis-parallel rectangles, and how a region of parking bays is cut into spots. */
module ParkingGeometry {
  import opened Points

  const TOLERANCE := 0.000000001
  const LANE_OFFSET := 0.25
  const MIN_AISLE := 2.5

  datatype Rectangle = Rectangle(x: real, y: real, width: real, height: real)

  function Min(a: real, b: real): real { if b < a then b else a }

  function Max(a: real, b: real): real { if a < b then b else a }

  predicate Contains(r: Rectangle, p: Point) {
    r.x <= p.x <= r.x + r.width && r.y <= p.y <= r.y + r.height
  }

  function OverlapX(a: Rectangle, b: Rectangle): real {
    Min(a.x + a.width, b.x + b.width) - Max(a.x, b.x)
  }

  function OverlapY(a: Rectangle, b: Rectangle): real {
    Min(a.y + a.height, b.y + b.height) - Max(a.y, b.y)
  }

  predicate Overlap(a: Rectangle, b: Rectangle) {
    OverlapX(a, b) > TOLERANCE && OverlapY(a, b) > TOLERANCE
  }

  predicate Within(inner: Rectangle, outer: Rectangle) {
    && outer.x <= inner.x && inner.x + inner.width <= outer.x + outer.width
    && outer.y <= inner.y && inner.y + inner.height <= outer.y + outer.height
  }

  lemma OverlapIsSymmetric(a: Rectangle, b: Rectangle)
    ensures Overlap(a, b) == Overlap(b, a)
  {
  }

  /** Rectangles inside rectangles that do not overlap do not overlap. */
  lemma InnerApart(a: Rectangle, b: Rectangle, outerA: Rectangle, outerB: Rectangle)
    requires Within(a, outerA) && Within(b, outerB) && !Overlap(outerA, outerB)
    ensures !Overlap(a, b)
  {
  }

  // --- Multiples of a length --------------------------------------------------------------

  function Span(k: int, w: real): real { k as real * w }

  lemma SpanNext(k: int, w: real)
    ensures Span(k + 1, w) == Span(k, w) + w && Span(0, w) == 0.0
  {
    assert (k + 1) as real * w == k as real * w + w;
  }

  lemma {:induction false} SpanGrows(k: int, n: int, w: real)
    requires k < n && w > 0.0
    ensures Span(k, w) + w <= Span(n, w)
    decreases n - k
  {
    SpanNext(n - 1, w);
    if k + 1 == n {
      SpanNext(k, w);
    } else {
      SpanGrows(k, n - 1, w);
      hide Span;
    }
  }

  // --- Regions ----------------------------------------------------------------------

  datatype AisleSide = Left | Right | Up | Down

  datatype Region = Region(name: string, x: real, y: real, rows: int, columns: int, spotWidth: real, spotLength: real,
                           aisleWidth: real, side: AisleSide, spotType: int)

  predicate Vertical(side: AisleSide) {
    side == Up || side == Down
  }

  function BayDepth(r: Region): real {
    r.spotLength + r.aisleWidth
  }

  function RegionBounds(r: Region): Rectangle {
    if Vertical(r.side) then Rectangle(r.x, r.y, Span(r.columns, r.spotWidth), Span(r.rows, BayDepth(r)))
    else Rectangle(r.x, r.y, Span(r.columns, BayDepth(r)), Span(r.rows, r.spotWidth))
  }

  function SpotBounds(r: Region, row: int, column: int): Rectangle {
    if Vertical(r.side) then
      Rectangle(r.x + Span(column, r.spotWidth),
                r.y + Span(row, BayDepth(r)) + (if r.side == Up then r.aisleWidth else 0.0),
                r.spotWidth, r.spotLength)
    else
      Rectangle(r.x + Span(column, BayDepth(r)) + (if r.side == Left then r.aisleWidth else 0.0),
                r.y + Span(row, r.spotWidth),
                r.spotLength, r.spotWidth)
  }

  function AccessPoint(r: Region, row: int, column: int): Point {
    var b := SpotBounds(r, row, column);
    match r.side
    case Up => Point(b.x + b.width / 2.0, b.y - LANE_OFFSET)
    case Down => Point(b.x + b.width / 2.0, b.y + b.height + LANE_OFFSET)
    case Left => Point(b.x - LANE_OFFSET, b.y + b.height / 2.0)
    case Right => Point(b.x + b.width + LANE_OFFSET, b.y + b.height / 2.0)
  }

  /** The strip of aisle in front of a spot, on the side where its bay has the aisle. */
  function AisleStrip(r: Region, row: int, column: int): Rectangle {
    var b := SpotBounds(r, row, column);
    match r.side
    case Up => Rectangle(b.x, b.y - r.aisleWidth, b.width, r.aisleWidth)
    case Down => Rectangle(b.x, b.y + b.height, b.width, r.aisleWidth)
    case Left => Rectangle(b.x - r.aisleWidth, b.y, r.aisleWidth, b.height)
    case Right => Rectangle(b.x + b.width, b.y, r.aisleWidth, b.height)
  }

  predicate Proper(r: Region) {
    r.rows > 0 && r.columns > 0 && r.spotWidth > 0.0 && r.spotLength > 0.0 && r.aisleWidth >= MIN_AISLE
  }

  predicate InGrid(r: Region, row: int, column: int) {
    0 <= row < r.rows && 0 <= column < r.columns
  }

  lemma SpanNonNegative(k: int, w: real)
    requires k >= 0 && w > 0.0
    ensures Span(k, w) >= 0.0
  {
    SpanNext(0, w);
    if k > 0 {
      SpanGrows(0, k, w);
    }
  }

  lemma CellWithin(k: int, n: int, w: real)
    requires 0 <= k < n && w > 0.0
    ensures 0.0 <= Span(k, w) && Span(k, w) + w <= Span(n, w)
  {
    SpanNonNegative(k, w);
    SpanGrows(k, n, w);
  }

  /** Spot and aisle strip lie in the region. */
  lemma SpotWithinRegion(r: Region, row: int, column: int)
    requires Proper(r) && InGrid(r, row, column)
    ensures Within(SpotBounds(r, row, column), RegionBounds(r)) && Within(AisleStrip(r, row, column), RegionBounds(r))
  {
    if Vertical(r.side) {
      CellWithin(column, r.columns, r.spotWidth);
      CellWithin(row, r.rows, BayDepth(r));
    } else {
      CellWithin(column, r.columns, BayDepth(r));
      CellWithin(row, r.rows, r.spotWidth);
    }
    hide Span;
  }

  /** Two cells of one row or column of the grid do not reach into each other. */
  lemma CellsApart(i: int, j: int, w: real)
    requires i != j && w > 0.0
    ensures Span(i, w) + w <= Span(j, w) || Span(j, w) + w <= Span(i, w)
  {
    if i < j {
      SpanGrows(i, j, w);
    } else {
      SpanGrows(j, i, w);
    }
  }

  lemma SpotsOfRegionApart(r: Region, row: int, column: int, otherRow: int, otherColumn: int)
    requires Proper(r) && (row, column) != (otherRow, otherColumn)
    ensures !Overlap(SpotBounds(r, row, column), SpotBounds(r, otherRow, otherColumn))
  {
    var along, across := if Vertical(r.side) then r.spotWidth else BayDepth(r), if Vertical(r.side) then BayDepth(r) else r.spotWidth;
    if column != otherColumn {
      CellsApart(column, otherColumn, along);
    } else {
      CellsApart(row, otherRow, across);
    }
    hide Span;
  }

  /** The access point lies in the spot's own aisle strip, and in no spot of the region. */
  lemma AccessIsInAisle(r: Region, row: int, column: int, otherRow: int, otherColumn: int)
    requires Proper(r)
    ensures Contains(AisleStrip(r, row, column), AccessPoint(r, row, column))
    ensures !Contains(SpotBounds(r, otherRow, otherColumn), AccessPoint(r, row, column))
  {
    var depth := BayDepth(r);
    if Vertical(r.side) && row != otherRow {
      CellsApart(row, otherRow, depth);
    }
    if !Vertical(r.side) && column != otherColumn {
      CellsApart(column, otherColumn, depth);
    }
    hide Span;
  }
}
