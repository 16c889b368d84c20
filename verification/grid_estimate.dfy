/** What the search estimate is in steps: the length of the way to the nearest goal with nothing in between. */
module GridEstimate {
  import opened GridModel
  import opened GridHeuristic

  /** How far apart two columns or rows are. */
  function Steps(a: int, b: int): nat { if a < b then b - a else a - b }

  function Length(g: Grid, steps: nat): real { steps as real * g.cellSize }

  lemma CentresApart(g: Grid, a: int, b: int)
    requires g.Valid()
    ensures AbsReal((b as real + 0.5) * g.cellSize - (a as real + 0.5) * g.cellSize) == Steps(a, b) as real * g.cellSize
  {
    var d := b - a;
    assert (b as real + 0.5) * g.cellSize - (a as real + 0.5) * g.cellSize == d as real * g.cellSize;
    if d >= 0 {
      ProductNonNegative(d as real, g.cellSize);
    } else {
      ProductNonNegative((-d) as real, g.cellSize);
      assert (-d) as real * g.cellSize == -(d as real * g.cellSize);
    }
  }

  /** The length of the way over so many columns and rows with nothing in between: as many diagonal steps as there are, if
      they are allowed, and straight steps for the rest. */
  function Way(g: Grid, dc: nat, dr: nat): real {
    if !g.allowDiagonal then (dc + dr) as real * g.cellSize
    else if dc < dr then (dr - dc) as real * g.cellSize + dc as real * (g.diagonal * g.cellSize)
    else (dc - dr) as real * g.cellSize + dr as real * (g.diagonal * g.cellSize)
  }

  /** The estimate between two cells is that length. */
  lemma EstimateCountsSteps(g: Grid, cell: int, goal: int)
    requires g.Valid()
    ensures Estimate(g, cell, goal) == Way(g, Steps(g.Column(cell), g.Column(goal)), Steps(g.Row(cell), g.Row(goal)))
  {
    var dc, dr := Steps(g.Column(cell), g.Column(goal)), Steps(g.Row(cell), g.Row(goal));
    CentresAre(g, cell, goal);
    WayIs(g, dc, dr);
    hide CenterOf, AbsReal, Steps, Way, Octile, Length;
  }

  lemma CentresAre(g: Grid, cell: int, goal: int)
    requires g.Valid()
    ensures AbsReal(CenterOf(g, goal).x - CenterOf(g, cell).x) == Length(g, Steps(g.Column(cell), g.Column(goal)))
    ensures AbsReal(CenterOf(g, goal).y - CenterOf(g, cell).y) == Length(g, Steps(g.Row(cell), g.Row(goal)))
  {
    CentresApart(g, g.Column(cell), g.Column(goal));
    CentresApart(g, g.Row(cell), g.Row(goal));
    hide AbsReal, Steps;
  }

  lemma WayIs(g: Grid, dc: nat, dr: nat)
    requires g.Valid()
    ensures var x, y := Length(g, dc), Length(g, dr);
            Way(g, dc, dr) == if g.allowDiagonal then Octile(g.diagonal - 1.0, x, y) else x + y
  {
    if !g.allowDiagonal {
      assert (dc + dr) as real * g.cellSize == dc as real * g.cellSize + dr as real * g.cellSize;
    } else if dc < dr {
      OctileCounts(g, dc, dr);
    } else {
      OctileCounts(g, dr, dc);
    }
  }

  lemma OctileCounts(g: Grid, least: nat, most: nat)
    requires g.Valid() && least <= most
    ensures var x, y := least as real * g.cellSize, most as real * g.cellSize;
            && x <= y
            && (most - least) as real * g.cellSize + least as real * (g.diagonal * g.cellSize) == y + (g.diagonal - 1.0) * x
  {
    var x, y, rest := least as real * g.cellSize, most as real * g.cellSize, (most - least) as real * g.cellSize;
    assert rest == y - x;
    ProductNonNegative((most - least) as real, g.cellSize);
    assert least as real * (g.diagonal * g.cellSize) == g.diagonal * x;
    assert (g.diagonal - 1.0) * x == g.diagonal * x - x;
  }

  /** The estimate of a search is that to the nearest goal, and zero without goals. */
  lemma {:induction false} HeuristicIsNearest(g: Grid, goals: seq<int>, cell: int)
    requires g.columns > 0
    ensures goals == [] ==> Heuristic(g, goals, cell) == 0.0
    ensures forall i :: 0 <= i < |goals| ==> Heuristic(g, goals, cell) <= Estimate(g, cell, goals[i])
    ensures goals != [] ==> exists i :: 0 <= i < |goals| && Heuristic(g, goals, cell) == Estimate(g, cell, goals[i])
    decreases |goals|
  {
    hide Estimate;
    if |goals| == 1 {
      assert Heuristic(g, goals, cell) == Estimate(g, cell, goals[0]);
    } else if |goals| > 1 {
      var last := |goals| - 1;
      HeuristicIsNearest(g, Init(goals), cell);
      var i :| 0 <= i < |Init(goals)| && Heuristic(g, Init(goals), cell) == Estimate(g, cell, Init(goals)[i]);
      assert goals[i] == Init(goals)[i];
      assert Heuristic(g, goals, cell) == MinReal(Estimate(g, cell, goals[i]), Estimate(g, cell, goals[last]));
      forall j | 0 <= j < |goals| ensures Heuristic(g, goals, cell) <= Estimate(g, cell, goals[j]) {
        if j < last {
          assert goals[j] == Init(goals)[j];
        }
      }
      var k := if Heuristic(g, goals, cell) == Estimate(g, cell, goals[i]) then i else last;
      assert Heuristic(g, goals, cell) == Estimate(g, cell, goals[k]);
    }
  }
}
