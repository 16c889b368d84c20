/**
 What a step and a walk of the grid mean in terms of cells: which cells a step leads to, and how much the
 congestion around them adds to its cost.
 */
module GridCongestion {
  import opened GridModel

  // --- Which cells a step leads to --------------------------------------------------------

  /** A cell is free if it is on the raster and not blocked. */
  lemma FreeMeans(g: Grid, cell: int)
    ensures g.IsFree(cell) <==> 0 <= cell < |g.blocked| && !g.blocked[cell]
  {
  }

  /** Two different cells whose columns and rows differ by at most one. */
  predicate Adjacent(g: Grid, a: int, b: int)
    requires g.columns > 0
  {
    a != b && -1 <= g.Column(b) - g.Column(a) <= 1 && -1 <= g.Row(b) - g.Row(a) <= 1
  }

  predicate Straight(g: Grid, a: int, b: int)
    requires g.columns > 0
  {
    g.Column(a) == g.Column(b) || g.Row(a) == g.Row(b)
  }

  /** A vehicle may go from a to an adjacent free cell b; diagonally only if that is allowed and both cells beside the
      two, the one in a's row and the one in a's column, are free. */
  predicate Passable(g: Grid, a: int, b: int)
    requires g.columns > 0
  {
    && g.IsFree(b) && Adjacent(g, a, b)
    && (Straight(g, a, b) || (
          && g.allowDiagonal
          && g.IsFree(g.Row(a) * g.columns + g.Column(b)) && g.IsFree(g.Row(b) * g.columns + g.Column(a))))
  }

  /** The direction from a to an adjacent cell. */
  function Heading(g: Grid, a: int, b: int): (d: int)
    requires g.columns > 0
  {
    var dx, dy := g.Column(b) - g.Column(a), g.Row(b) - g.Row(a);
    if dy == 0 then (if dx == 1 then 0 else 1)
    else if dx == 0 then (if dy == 1 then 2 else 3)
    else if dx == 1 then (if dy == 1 then 4 else 5)
    else (if dy == 1 then 6 else 7)
  }

  lemma StepIsPassable(g: Grid, a: int, d: int)
    requires g.Valid() && 0 <= a < g.Cells() && Legal(g, a, d)
    ensures Passable(g, a, Next(g, a, d)) && (Straight(g, a, Next(g, a, d)) <==> d < 4)
  {
    NextParts(g, a, d);
    IndexOfParts(g, a);
  }

  lemma PassableIsStep(g: Grid, a: int, b: int)
    requires g.Valid() && 0 <= a < g.Cells() && Passable(g, a, b)
    ensures Legal(g, a, Heading(g, a, b)) && Next(g, a, Heading(g, a, b)) == b
  {
    IndexOfParts(g, a);
    IndexOfParts(g, b);
  }

  /** The legal steps lead to exactly the cells a vehicle may go to. */
  lemma StepsAreMoves(g: Grid, a: int, b: int)
    requires g.Valid() && 0 <= a < g.Cells()
    ensures (exists d :: Legal(g, a, d) && Next(g, a, d) == b) <==> Passable(g, a, b)
  {
    if d :| Legal(g, a, d) && Next(g, a, d) == b {
      StepIsPassable(g, a, d);
    }
    if Passable(g, a, b) {
      PassableIsStep(g, a, b);
    }
  }

  // --- What congestion adds ---------------------------------------------------------------

  /** The weight times the vehicles counted around the cell entered times the cost of the step without congestion. */
  function Extra(g: Grid, occupancy: seq<int>, weight: real, arrival: int, direction: int, next: int): real
    requires 0 <= next < |occupancy|
  {
    weight * occupancy[next] as real * StepCost(g, NoField, arrival, direction, next)
  }

  /** That much a step costs more with congestion than without. */
  lemma StepSurcharge(g: Grid, occupancy: seq<int>, weight: real, arrival: int, direction: int, next: int)
    requires |occupancy| == |g.blocked| && 0 <= next < |occupancy|
    ensures StepCost(g, Field(occupancy, weight), arrival, direction, next)
         == StepCost(g, NoField, arrival, direction, next) + Extra(g, occupancy, weight, arrival, direction, next)
  {
    var plain, w := StepCost(g, NoField, arrival, direction, next), weight * occupancy[next] as real;
    assert plain * (1.0 + w) == plain + w * plain;
  }

  /** The extra costs of the cells a walk enters. */
  function Surcharge(g: Grid, occupancy: seq<int>, weight: real, start: int, walk: seq<int>): real
    requires g.Valid() && g.IsFree(start) && IsWalk(g, start, walk) && |occupancy| == |g.blocked|
    decreases |walk|
  {
    if walk == [] then 0.0
    else Surcharge(g, occupancy, weight, start, Init(walk))
         + Extra(g, occupancy, weight, Arrival(Init(walk)), Last(walk), CellAfter(g, start, walk))
  }

  /** The cost of a walk is its cost without congestion and the surcharge of the cells it enters. */
  lemma {:induction false} WalkSurcharge(g: Grid, occupancy: seq<int>, weight: real, start: int, walk: seq<int>)
    requires g.Valid() && g.IsFree(start) && IsWalk(g, start, walk) && |occupancy| == |g.blocked|
    ensures WalkCost(g, Field(occupancy, weight), start, walk)
         == WalkCost(g, NoField, start, walk) + Surcharge(g, occupancy, weight, start, walk)
    decreases |walk|
  {
    if walk != [] {
      WalkSurcharge(g, occupancy, weight, start, Init(walk));
      assert g.IsFree(CellAfter(g, start, walk));
      hide StepCost, Legal, Extra, CellAfter, IsWalk;
      StepSurcharge(g, occupancy, weight, Arrival(Init(walk)), Last(walk), CellAfter(g, start, walk));
    }
  }

  /** A field made for another raster is ignored. */
  lemma {:induction false} WrongSizeIsIgnored(g: Grid, occupancy: seq<int>, weight: real, start: int, walk: seq<int>)
    requires g.Valid() && |occupancy| != |g.blocked|
    ensures WalkCost(g, Field(occupancy, weight), start, walk) == WalkCost(g, NoField, start, walk)
    decreases |walk|
  {
    if walk != [] {
      WrongSizeIsIgnored(g, occupancy, weight, start, Init(walk));
    }
  }
}
