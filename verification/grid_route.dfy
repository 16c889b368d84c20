/**
 Routes: what a walk becomes when it is reported.  The polyline keeps the start, the
 bends and the end; length, turns and cost are accounted exactly.
 */
module GridRoute {
  import opened GridModel
  import opened GridHeuristic
  import opened Points

  datatype Route = Route(points: seq<Point>, distance: real, cost: real, turnCount: int)

  const NO_ROUTE := Route([], 0.0, 0.0, 0)

  /** Euclidean length of a segment between two cell centres on a common row, column or
      diagonal, the only segments a route has: there the octile distance is the length. */
  function SegmentLength(g: Grid, from: Point, to: Point): real {
    OctileDistance(g.diagonal - 1.0, from, to)
  }

  function PolylineLength(g: Grid, points: seq<Point>): real
    decreases |points|
  {
    if |points| < 2 then 0.0
    else PolylineLength(g, Init(points)) + SegmentLength(g, Last(Init(points)), Last(points))
  }

  function WalkLength(g: Grid, walk: seq<int>): real
    decreases |walk|
  {
    if walk == [] then 0.0 else WalkLength(g, Init(walk)) + g.StepDistance(Last(walk))
  }

  predicate TurnsAtEnd(walk: seq<int>) {
    |walk| >= 2 && Last(Init(walk)) != Last(walk)
  }

  function Turns(walk: seq<int>): nat
    decreases |walk|
  {
    if walk == [] then 0 else Turns(Init(walk)) + if TurnsAtEnd(walk) then 1 else 0
  }

  /** Centres of the cells where the direction of travel changes. */
  function Bends(g: Grid, start: int, walk: seq<int>): seq<Point>
    requires g.columns > 0
    decreases |walk|
  {
    if walk == [] then []
    else Bends(g, start, Init(walk)) + if TurnsAtEnd(walk) then [CenterOf(g, CellAfter(g, start, Init(walk)))] else []
  }

  function Corners(g: Grid, start: int, walk: seq<int>): seq<Point>
    requires g.columns > 0
  {
    [CenterOf(g, start)] + Bends(g, start, walk) + [CenterOf(g, CellAfter(g, start, walk))]
  }

  /** The route reported for a walk. */
  function RouteOf(g: Grid, start: int, walk: seq<int>, cost: real): Route
    requires g.columns > 0
  {
    Route(Corners(g, start, walk), WalkLength(g, walk), cost, Turns(walk))
  }

  /** Two cell sizes per turn. */
  function TurnCharge(g: Grid, turns: int): real {
    turns as real * (2.0 * g.cellSize)
  }

  // --- Accounting ------------------------------------------------------------------

  lemma {:induction false} BendsCountTurns(g: Grid, start: int, walk: seq<int>)
    requires g.columns > 0
    ensures |Bends(g, start, walk)| == Turns(walk)
    decreases |walk|
  {
    if walk != [] { BendsCountTurns(g, start, Init(walk)); }
  }

  /** Number of equal steps at the end of a walk. */
  function Run(walk: seq<int>): nat
    decreases |walk|
  {
    if walk == [] then 0 else if TurnsAtEnd(walk) || |walk| == 1 then 1 else Run(Init(walk)) + 1
  }

  function Heads(g: Grid, start: int, walk: seq<int>): seq<Point>
    requires g.columns > 0
  {
    [CenterOf(g, start)] + Bends(g, start, walk)
  }

  /** k times x, by repeated addition. */
  ghost function Multiple(k: nat, x: real): real {
    if k == 0 then 0.0 else Multiple(k - 1, x) + x
  }

  lemma {:induction false} TimesIsProduct(k: nat, x: real)
    ensures Multiple(k, x) == k as real * x
  {
    if k > 0 {
      TimesIsProduct(k - 1, x);
      assert k as real == (k - 1) as real + 1.0;
      assert ((k - 1) as real + 1.0) * x == (k - 1) as real * x + x;
    }
  }

  lemma {:induction false} TimesShift(k: nat, d: int, s: real)
    ensures Multiple(k, Shift(d, s)) == Shift(d, Multiple(k, s))
  {
    if k > 0 { TimesShift(k - 1, d, s); }
  }

  lemma {:induction false} TimesNonNegative(k: nat, s: real)
    requires s >= 0.0
    ensures Multiple(k, s) >= 0.0
  {
    if k > 0 { TimesNonNegative(k - 1, s); }
  }

  /** A straight run of r equal steps is a segment of r step lengths. */
  lemma RunLength(g: Grid, from: Point, to: Point, direction: int, r: nat)
    requires g.Valid() && 0 <= direction < 8
    requires to.x == from.x + Multiple(r, Shift(DX(direction), g.cellSize))
    requires to.y == from.y + Multiple(r, Shift(DY(direction), g.cellSize))
    ensures SegmentLength(g, from, to) == Multiple(r, g.StepDistance(direction))
  {
    TimesShift(r, DX(direction), g.cellSize);
    TimesShift(r, DY(direction), g.cellSize);
    TimesNonNegative(r, g.cellSize);
    var t, p := Multiple(r, g.cellSize), g.diagonal - 1.0;
    RunOctile(p, t, from, to, DX(direction), DY(direction));
    if direction >= 4 {
      TimesDiagonal(r, g.cellSize, g.StepDistance(direction), p);
    }
  }

  lemma TimesDiagonal(r: nat, s: real, step: real, p: real)
    requires step == s + p * s
    ensures Multiple(r, step) == Multiple(r, s) + p * Multiple(r, s)
  {
    TimesIsProduct(r, s);
    TimesIsProduct(r, step);
    var k := r as real;
    assert k * (s + p * s) == k * s + p * (k * s);
  }

  lemma RunOctile(p: real, t: real, from: Point, to: Point, dx: int, dy: int)
    requires t >= 0.0 && (dx != 0 || dy != 0)
    requires to.x == from.x + Shift(dx, t) && to.y == from.y + Shift(dy, t)
    ensures OctileDistance(p, from, to) == if dx != 0 && dy != 0 then t + p * t else t
  {
    assert p * 0.0 == 0.0;
  }

  lemma StepBack(g: Grid, start: int, walk: seq<int>)
    requires g.Valid() && g.IsFree(start) && IsWalk(g, start, walk) && walk != []
    ensures var a, b, d := CenterOf(g, CellAfter(g, start, Init(walk))), CenterOf(g, CellAfter(g, start, walk)), Last(walk);
            && 0 <= d < 8
            && b.x == a.x + Shift(DX(d), g.cellSize) && b.y == a.y + Shift(DY(d), g.cellSize)
  {
    WalkEndsFree(g, start, Init(walk));
    StepShift(g, CellAfter(g, start, Init(walk)), Last(walk));
  }

  /** The last reported corner lies exactly one straight run before the walk's end. */
  lemma {:induction false} LastRun(g: Grid, start: int, walk: seq<int>)
    requires g.Valid() && g.IsFree(start) && IsWalk(g, start, walk) && walk != []
    ensures var q, e, d := Last(Heads(g, start, walk)), CenterOf(g, CellAfter(g, start, walk)), Last(walk);
            && e.x == q.x + Multiple(Run(walk), Shift(DX(d), g.cellSize))
            && e.y == q.y + Multiple(Run(walk), Shift(DY(d), g.cellSize))
    decreases |walk|
  {
    StepBack(g, start, walk);
    hide CenterOf, CellAfter, Shift, Legal;
    var init := Init(walk);
    if |walk| == 1 || TurnsAtEnd(walk) {
      assert Last(Heads(g, start, walk)) == CenterOf(g, CellAfter(g, start, init)) by {
        if |walk| == 1 { NoSteps(g, start); }
      }
    } else {
      LastRun(g, start, init);
      assert Heads(g, start, walk) == Heads(g, start, init);
    }
  }

  lemma NoSteps(g: Grid, start: int)
    requires g.columns > 0
    ensures CellAfter(g, start, []) == start
  {
  }

  /** Dropping the collinear cells does not change the length. */
  lemma {:induction false} PolylineIsWalkLength(g: Grid, start: int, walk: seq<int>)
    requires g.Valid() && g.IsFree(start) && IsWalk(g, start, walk)
    ensures PolylineLength(g, Corners(g, start, walk)) == WalkLength(g, walk)
    ensures walk != [] ==>
              PolylineLength(g, Heads(g, start, walk)) + Multiple(Run(walk), g.StepDistance(Last(walk))) == WalkLength(g, walk)
    decreases |walk|
  {
    var heads, end := Heads(g, start, walk), CenterOf(g, CellAfter(g, start, walk));
    assert Init(Corners(g, start, walk)) == heads && Last(Corners(g, start, walk)) == end;
    if walk == [] {
      EmptyWalkPolyline(g, start);
    } else {
      PolylineIsWalkLength(g, start, Init(walk));
      HeadsStep(g, start, walk);
      StepBack(g, start, walk);
      LastRun(g, start, walk);
      RunLength(g, Last(heads), end, Last(walk), Run(walk));
      assert PolylineLength(g, Corners(g, start, walk)) == PolylineLength(g, heads) + SegmentLength(g, Last(heads), end);
      hide *;
    }
  }

  lemma HeadsStep(g: Grid, start: int, walk: seq<int>)
    requires g.Valid() && walk != []
    requires PolylineLength(g, Corners(g, start, Init(walk))) == WalkLength(g, Init(walk))
    requires Init(walk) != [] ==>
               PolylineLength(g, Heads(g, start, Init(walk)))
               + Multiple(Run(Init(walk)), g.StepDistance(Last(Init(walk)))) == WalkLength(g, Init(walk))
    ensures PolylineLength(g, Heads(g, start, walk)) + Multiple(Run(walk), g.StepDistance(Last(walk))) == WalkLength(g, walk)
  {
    hide Heads, Corners, CenterOf, CellAfter, SegmentLength, g.StepDistance;
    HeadsShape(g, start, walk);
    assert |walk| == 1 ==> PolylineLength(g, Heads(g, start, walk)) == 0.0;
    hide PolylineLength;
  }

  lemma HeadsShape(g: Grid, start: int, walk: seq<int>)
    requires g.Valid() && walk != []
    ensures |walk| == 1 ==> |Heads(g, start, walk)| == 1
    ensures TurnsAtEnd(walk) ==> Heads(g, start, walk) == Corners(g, start, Init(walk))
    ensures |walk| > 1 && !TurnsAtEnd(walk) ==> Heads(g, start, walk) == Heads(g, start, Init(walk))
  {
    hide CenterOf, CellAfter;
    if |walk| == 1 {
      assert Init(walk) == [] && Bends(g, start, walk) == [];
    }
  }

  lemma EmptyWalkPolyline(g: Grid, start: int)
    requires g.Valid()
    ensures PolylineLength(g, Corners(g, start, [])) == 0.0
  {
    var c := CenterOf(g, start);
    assert Corners(g, start, []) == [c, c];
    assert Init([c, c]) == [c];
    assert (g.diagonal - 1.0) * 0.0 == 0.0;
  }

  /** Cost against length: exact without congestion, never below the length with it. */
  lemma {:induction false} CostAgainstLength(g: Grid, field: OccupancyField, start: int, walk: seq<int>)
    requires g.Valid() && FieldOk(field) && IsWalk(g, start, walk)
    ensures WalkCost(g, field, start, walk) >= WalkLength(g, walk)
    ensures WalkCost(g, NoField, start, walk) == WalkLength(g, walk) + Multiple(Turns(walk), g.TurnPenalty())
    decreases |walk|
  {
    if walk != [] {
      var init, d := Init(walk), Last(walk);
      CostAgainstLength(g, field, start, init);
      StepCostAtLeastDistance(g, field, Arrival(init), d, CellAfter(g, start, walk));
      assert init != [] ==> Last(init) >= 0;
      hide CellAfter, StepCost, Legal;
      PlainStepCost(g, walk, CellAfter(g, start, walk));
    }
  }

  lemma PlainStepCost(g: Grid, walk: seq<int>, next: int)
    requires walk != [] && (Init(walk) != [] ==> Last(Init(walk)) >= 0)
    ensures StepCost(g, NoField, Arrival(Init(walk)), Last(walk), next)
         == g.StepDistance(Last(walk)) + if TurnsAtEnd(walk) then g.TurnPenalty() else 0.0
  {
  }

  /** Route accounting: two end points plus one per turn, polyline length equals the reported distance,
      and the cost is the distance plus two cells per turn when there is no congestion field. */
  lemma RouteAccounting(g: Grid, field: OccupancyField, start: int, walk: seq<int>)
    requires g.Valid() && FieldOk(field) && g.IsFree(start) && IsWalk(g, start, walk)
    ensures var r := RouteOf(g, start, walk, WalkCost(g, field, start, walk));
            && |r.points| == r.turnCount + 2
            && PolylineLength(g, r.points) == r.distance
            && r.cost >= r.distance
            && (field.NoField? ==> r.cost == r.distance + TurnCharge(g, r.turnCount))
  {
    hide PolylineLength, WalkCost, WalkLength, Bends, Turns, CellAfter, Multiple, CenterOf;
    BendsCountTurns(g, start, walk);
    PolylineIsWalkLength(g, start, walk);
    CostAgainstLength(g, field, start, walk);
    TimesIsProduct(Turns(walk), g.TurnPenalty());
    assert TurnCharge(g, Turns(walk)) == Multiple(Turns(walk), g.TurnPenalty());
    assert field.NoField? ==> field == NoField;
  }
}
