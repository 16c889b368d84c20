/**
 The occupancy forecast: a straight line fitted to the hourly occupancy rates and extended a few hours.
 The fitted line is the least-squares line.
 */
module OccupancyTrend {
  import opened RealProducts

  const HORIZON_HOURS := 6

  datatype LinearTrend = LinearTrend(slope: real, intercept: real, r2: real, samples: nat)

  // --- Sums over the samples; the sample at index i is taken at time i ------------------------

  function IndexSum(n: nat): real {
    if n == 0 then 0.0 else IndexSum(n - 1) + (n - 1) as real
  }

  function Sum(y: seq<real>): real {
    if y == [] then 0.0 else Sum(y[..|y| - 1]) + y[|y| - 1]
  }

  function Deviation(y: seq<real>, x: real, mean: real): real
    decreases |y|
  {
    if y == [] then 0.0
    else Deviation(y[..|y| - 1], x, mean) + Times((|y| - 1) as real - x, y[|y| - 1] - mean)
  }

  function IndexVariance(n: nat, x: real): real {
    if n == 0 then 0.0 else IndexVariance(n - 1, x) + Square((n - 1) as real - x)
  }

  function Square(x: real): real { Times(x, x) }

  function Line(a: real, b: real, x: real): real { a + b * x }

  /** How far the last sample lies above the line with intercept a and slope b. */
  function Residual(y: seq<real>, a: real, b: real): real
    requires y != []
  {
    y[|y| - 1] - Line(a, b, (|y| - 1) as real)
  }

  function ResidualSum(y: seq<real>, a: real, b: real): real
    decreases |y|
  {
    if y == [] then 0.0 else ResidualSum(y[..|y| - 1], a, b) + Residual(y, a, b)
  }

  function WeightedResidualSum(y: seq<real>, a: real, b: real): real
    decreases |y|
  {
    if y == [] then 0.0
    else WeightedResidualSum(y[..|y| - 1], a, b) + Times((|y| - 1) as real, Residual(y, a, b))
  }

  function SquaredError(y: seq<real>, a: real, b: real): real
    decreases |y|
  {
    if y == [] then 0.0 else SquaredError(y[..|y| - 1], a, b) + Square(Residual(y, a, b))
  }

  /** Sum of the squares of the line's own values at the first n indexes. */
  function LineSquares(n: nat, p: real, q: real): real {
    if n == 0 then 0.0 else LineSquares(n - 1, p, q) + Square(Line(p, q, (n - 1) as real))
  }

  // --- Algebra --------------------------------------------------------------------------

  lemma ShiftedSquare(e: real, p: real, q: real, i: real)
    ensures Square(e - Line(p, q, i)) == Square(e) - 2.0 * Times(p, e) - 2.0 * Times(q, Times(i, e)) + Square(Line(p, q, i))
  {
    var d := Line(p, q, i);
    assert e * d == p * e + q * (i * e);
    assert (e - d) * (e - d) == e * e - 2.0 * (e * d) + d * d;
  }

  lemma Distribute(c: real, a: real, b: real)
    ensures Times(c, a + b) == Times(c, a) + Times(c, b)
  {
  }

  lemma {:induction false} ErrorIsNonNegative(y: seq<real>, a: real, b: real)
    ensures SquaredError(y, a, b) >= 0.0
    decreases |y|
  {
    if y != [] {
      ErrorIsNonNegative(y[..|y| - 1], a, b);
      SquareIsNonNegative(Residual(y, a, b));
    }
  }

  lemma {:induction false} LineSquaresPositive(n: nat, p: real, q: real)
    ensures LineSquares(n, p, q) >= 0.0
    ensures n >= 2 && LineSquares(n, p, q) == 0.0 ==> p == 0.0 && q == 0.0
  {
    if n > 0 {
      LineSquaresPositive(n - 1, p, q);
      SquareIsNonNegative(Line(p, q, (n - 1) as real));
      if n == 2 {
        SquareIsNonNegative(Line(p, q, 0.0));
        assert LineSquares(2, p, q) == LineSquares(0, p, q) + Square(Line(p, q, 0.0)) + Square(Line(p, q, 1.0));
      }
    }
  }

  lemma ResidualOfOtherLine(y: seq<real>, a: real, b: real, p: real, q: real)
    requires y != []
    ensures Residual(y, a + p, b + q) == Residual(y, a, b) - Line(p, q, (|y| - 1) as real)
  {
    var i := (|y| - 1) as real;
    assert (b + q) * i == b * i + q * i;
  }

  /** Changing a line by p and q changes its squared error by terms in the two residual sums and a square. */
  lemma {:induction false} ErrorOfOtherLine(y: seq<real>, a: real, b: real, p: real, q: real)
    ensures SquaredError(y, a + p, b + q)
         == SquaredError(y, a, b) - 2.0 * Times(p, ResidualSum(y, a, b)) - 2.0 * Times(q, WeightedResidualSum(y, a, b))
          + LineSquares(|y|, p, q)
    decreases |y|
  {
    if y != [] {
      var rest, i := y[..|y| - 1], (|y| - 1) as real;
      ErrorOfOtherLine(rest, a, b, p, q);
      var e := Residual(y, a, b);
      ResidualOfOtherLine(y, a, b, p, q);
      ShiftedSquare(e, p, q, i);
      Distribute(p, ResidualSum(rest, a, b), e);
      Distribute(q, WeightedResidualSum(rest, a, b), Times(i, e));
      hide Square, Residual, Times, Line;
    }
  }

  lemma {:induction false} VarianceIsLineSquares(n: nat, x: real)
    ensures IndexVariance(n, x) == LineSquares(n, -x, 1.0)
  {
    if n > 0 {
      VarianceIsLineSquares(n - 1, x);
      assert Line(-x, 1.0, (n - 1) as real) == (n - 1) as real - x;
    }
  }

  /** The guard against a vanishing variance never triggers. */
  lemma VariancePositive(n: nat, x: real)
    requires n >= 2
    ensures IndexVariance(n, x) > 0.0
  {
    VarianceIsLineSquares(n, x);
    LineSquaresPositive(n, -x, 1.0);
  }

  lemma {:induction false} ResidualsOfLine(y: seq<real>, a: real, b: real)
    ensures ResidualSum(y, a, b) == Sum(y) - Times(a, |y| as real) - Times(b, IndexSum(|y|))
    decreases |y|
  {
    if y == [] {
      assert Times(a, 0.0) == 0.0 && Times(b, 0.0) == 0.0;
    } else {
      var rest, i := y[..|y| - 1], (|y| - 1) as real;
      ResidualsOfLine(rest, a, b);
      Distribute(a, i, 1.0);
      Distribute(b, IndexSum(|rest|), i);
      assert Line(a, b, i) == Times(a, 1.0) + Times(b, i);
      assert |y| as real == i + 1.0;
      hide Times, Line;
    }
  }

  lemma CentredTerm(v: real, my: real, mx: real, b: real, i: real)
    ensures var e := v - Line(my - Times(b, mx), b, i);
            Times(i, e) == Times(i - mx, v - my) - Times(b, Square(i - mx)) + Times(mx, e)
  {
    var e, d := v - Line(my - Times(b, mx), b, i), i - mx;
    assert e == (v - my) - b * d;
    assert i * e == d * e + mx * e;
    assert d * e == d * (v - my) - d * (b * d);
    assert d * (b * d) == b * (d * d);
  }

  lemma {:induction false} CentredResiduals(y: seq<real>, mx: real, my: real, b: real)
    ensures WeightedResidualSum(y, my - Times(b, mx), b)
         == Deviation(y, mx, my) - Times(b, IndexVariance(|y|, mx)) + Times(mx, ResidualSum(y, my - Times(b, mx), b))
    decreases |y|
  {
    var a := my - Times(b, mx);
    if y == [] {
      assert Times(b, 0.0) == 0.0 && Times(mx, 0.0) == 0.0;
    } else {
      var rest, i := y[..|y| - 1], (|y| - 1) as real;
      CentredResiduals(rest, mx, my, b);
      CentredTerm(y[|y| - 1], my, mx, b, i);
      Distribute(b, IndexVariance(|rest|, mx), Square(i - mx));
      Distribute(mx, ResidualSum(rest, a, b), Residual(y, a, b));
      hide Times, Line, Square;
    }
  }

  // --- The fitted line ----------------------------------------------------------------

  function MeanIndex(y: seq<real>): real
    requires y != []
  {
    IndexSum(|y|) / |y| as real
  }

  function Mean(y: seq<real>): real
    requires y != []
  {
    Sum(y) / |y| as real
  }

  function Slope(y: seq<real>): real
    requires |y| >= 2
  {
    VariancePositive(|y|, MeanIndex(y));
    Deviation(y, MeanIndex(y), Mean(y)) / IndexVariance(|y|, MeanIndex(y))
  }

  function Intercept(y: seq<real>): real
    requires |y| >= 2
  {
    Mean(y) - Times(Slope(y), MeanIndex(y))
  }

  function TotalError(y: seq<real>): real
    requires y != []
  {
    SquaredError(y, Mean(y), 0.0)
  }

  function Fit(y: seq<real>): LinearTrend {
    if |y| < 3 then LinearTrend(0.0, 0.0, 0.0, |y|)
    else
      var error, total := SquaredError(y, Intercept(y), Slope(y)), TotalError(y);
      LinearTrend(Slope(y), Intercept(y), if total > 0.0 then 1.0 - error / total else 0.0, |y|)
  }

  lemma Quotient(x: real, y: real)
    requires y != 0.0
    ensures Times(x / y, y) == x
  {
  }

  lemma TimesZero(x: real)
    ensures Times(x, 0.0) == 0.0 && Times(0.0, x) == 0.0
  {
  }

  lemma TimesDifference(x: real, y: real, z: real)
    ensures Times(x - y, z) == Times(x, z) - Times(y, z)
  {
  }

  lemma TimesAssociates(x: real, y: real, z: real)
    ensures Times(Times(x, y), z) == Times(x, Times(y, z))
  {
  }

  /** The residuals of the fitted line cancel out, and so do the residuals weighted by their time. */
  lemma ResidualsCancel(y: seq<real>)
    requires |y| >= 2
    ensures ResidualSum(y, Intercept(y), Slope(y)) == 0.0
    ensures WeightedResidualSum(y, Intercept(y), Slope(y)) == 0.0
  {
    var n, mx, my, b := |y| as real, MeanIndex(y), Mean(y), Slope(y);
    ResidualsOfLine(y, Intercept(y), b);
    Quotient(Sum(y), n);
    Quotient(IndexSum(|y|), n);
    TimesDifference(my, Times(b, mx), n);
    TimesAssociates(b, mx, n);
    CentredResiduals(y, mx, my, b);
    VariancePositive(|y|, mx);
    Quotient(Deviation(y, mx, my), IndexVariance(|y|, mx));
    TimesZero(mx);
    hide Times;
  }

  /** No line fits better, and any other line fits strictly worse. */
  lemma LeastSquares(y: seq<real>, a: real, b: real)
    requires |y| >= 2
    ensures SquaredError(y, Intercept(y), Slope(y)) <= SquaredError(y, a, b)
    ensures SquaredError(y, Intercept(y), Slope(y)) == SquaredError(y, a, b) <==> a == Intercept(y) && b == Slope(y)
  {
    var p, q := a - Intercept(y), b - Slope(y);
    ResidualsCancel(y);
    ErrorOfOtherLine(y, Intercept(y), Slope(y), p, q);
    TimesZero(p);
    TimesZero(q);
    LineSquaresPositive(|y|, p, q);
    assert Intercept(y) + p == a && Slope(y) + q == b;
    hide Times, SquaredError, Intercept, Slope;
  }

  lemma Ratio(x: real, y: real)
    requires 0.0 <= x <= y && y > 0.0
    ensures 0.0 <= x / y <= 1.0 && (x / y == 0.0 <==> x == 0.0)
  {
  }

  /** The coefficient of determination lies between 0 and 1; it is 1 exactly if the samples lie on a line
      that is not level. */
  lemma DeterminationInRange(y: seq<real>)
    ensures 0.0 <= Fit(y).r2 <= 1.0
    ensures |y| >= 3 ==>
              (Fit(y).r2 == 1.0 <==> SquaredError(y, Intercept(y), Slope(y)) == 0.0 && TotalError(y) > 0.0)
  {
    if |y| >= 3 {
      var error, total := SquaredError(y, Intercept(y), Slope(y)), TotalError(y);
      ErrorIsNonNegative(y, Intercept(y), Slope(y));
      LeastSquares(y, Mean(y), 0.0);
      if total > 0.0 {
        Ratio(error, total);
      }
    }
  }

  // --- The program's loops --------------------------------------------------------------

  method FitLinear(y: seq<real>) returns (trend: LinearTrend)
    ensures trend == Fit(y)
  {
    if |y| < 3 {
      return LinearTrend(0.0, 0.0, 0.0, |y|);
    }
    var n := |y| as real;
    var meanX, meanY := SumUp(y);
    meanX, meanY := meanX / n, meanY / n;
    var covariance, variance := Spread(y, meanX, meanY);
    VariancePositive(|y|, meanX);
    if variance <= 0.0 {
      assert false;
    }
    var slope := covariance / variance;
    var intercept := meanY - slope * meanX;
    assert intercept == Intercept(y);
    var residualSum, totalSum := Errors(y, intercept, slope, meanY);
    trend := LinearTrend(slope, intercept, if totalSum > 0.0 then 1.0 - residualSum / totalSum else 0.0, |y|);
  }

  method SumUp(y: seq<real>) returns (sumX: real, sumY: real)
    ensures sumX == IndexSum(|y|) && sumY == Sum(y)
  {
    sumX, sumY := 0.0, 0.0;
    for i := 0 to |y|
      invariant sumX == IndexSum(i) && sumY == Sum(y[..i])
    {
      assert y[..i + 1][..i] == y[..i];
      sumX, sumY := sumX + i as real, sumY + y[i];
    }
    assert y[..|y|] == y;
  }

  method Spread(y: seq<real>, meanX: real, meanY: real) returns (covariance: real, variance: real)
    ensures covariance == Deviation(y, meanX, meanY) && variance == IndexVariance(|y|, meanX)
  {
    covariance, variance := 0.0, 0.0;
    for i := 0 to |y|
      invariant covariance == Deviation(y[..i], meanX, meanY) && variance == IndexVariance(i, meanX)
    {
      assert y[..i + 1][..i] == y[..i];
      var dx := i as real - meanX;
      covariance := covariance + dx * (y[i] - meanY);
      variance := variance + dx * dx;
    }
    assert y[..|y|] == y;
  }

  method Errors(y: seq<real>, intercept: real, slope: real, meanY: real) returns (residualSum: real, totalSum: real)
    ensures residualSum == SquaredError(y, intercept, slope) && totalSum == SquaredError(y, meanY, 0.0)
  {
    residualSum, totalSum := 0.0, 0.0;
    for i := 0 to |y|
      invariant residualSum == SquaredError(y[..i], intercept, slope) && totalSum == SquaredError(y[..i], meanY, 0.0)
    {
      assert y[..i + 1][..i] == y[..i];
      var predicted := intercept + slope * i as real;
      TimesZero(i as real);
      assert Residual(y[..i + 1], intercept, slope) == y[i] - predicted;
      assert Residual(y[..i + 1], meanY, 0.0) == y[i] - meanY;
      residualSum := residualSum + Square(y[i] - predicted);
      totalSum := totalSum + Square(y[i] - meanY);
    }
    assert y[..|y|] == y;
  }

  function ClampRate(x: real, low: real, high: real): real {
    if x < low then low else if x > high then high else x
  }

  /** The fitted line, or without one the current rate, k + 1 hours after the last sample. */
  function Extended(y: seq<real>, current: real, k: nat): real {
    if |y| >= 3 then Line(Intercept(y), Slope(y), (|y| + k) as real) else current
  }

  lemma {:induction false} NoErrorOnLine(y: seq<real>, a: real, b: real)
    requires forall i :: 0 <= i < |y| ==> y[i] == a + b * i as real
    ensures SquaredError(y, a, b) == 0.0
    decreases |y|
  {
    if y != [] {
      NoErrorOnLine(y[..|y| - 1], a, b);
      assert Residual(y, a, b) == 0.0;
      SquareIsNonNegative(0.0);
    }
  }

  /** A straight line of at least three samples is continued, hour by hour; with fewer the current rate stays. */
  lemma StraightLineContinues(y: seq<real>, current: real, a: real, b: real, k: nat)
    requires forall i :: 0 <= i < |y| ==> y[i] == a + b * i as real
    ensures |y| >= 3 ==> Extended(y, current, k) == a + b * (|y| + k) as real
    ensures |y| < 3 ==> Extended(y, current, k) == current
  {
    if |y| >= 3 {
      NoErrorOnLine(y, a, b);
      LeastSquares(y, a, b);
      ErrorIsNonNegative(y, Intercept(y), Slope(y));
      hide SquaredError, Slope, Intercept;
    }
  }

  /** The reported trend: nothing for fewer than three samples, otherwise slope and intercept of the best line. */
  lemma TrendReported(y: seq<real>)
    ensures Fit(y).samples == |y|
    ensures |y| < 3 ==> Fit(y).slope == Fit(y).intercept == Fit(y).r2 == 0.0
    ensures |y| >= 3 ==> forall a, b :: SquaredError(y, a, b) >= SquaredError(y, Fit(y).intercept, Fit(y).slope)
  {
    if |y| >= 3 {
      forall a, b ensures SquaredError(y, a, b) >= SquaredError(y, Intercept(y), Slope(y)) {
        LeastSquares(y, a, b);
      }
    }
  }

  /** The percentage for a rate that may have left the possible range. */
  predicate InRange(rate: real, percent: real) {
    && (rate < 0.0 ==> percent == 0.0) && (rate > 1.0 ==> percent == 100.0)
    && (0.0 <= rate <= 1.0 ==> percent == rate * 100.0)
  }

  /** Occupancy in percent for each hour of the horizon; the current rate while there are too few samples. */
  method Forecast(y: seq<real>, current: real) returns (forecast: seq<(int, real)>)
    ensures |forecast| == HORIZON_HOURS == 6
    ensures forall k :: 0 <= k < HORIZON_HOURS ==>
              forecast[k].0 == k + 1 && 0.0 <= forecast[k].1 <= 100.0
    ensures forall k :: 0 <= k < HORIZON_HOURS ==> InRange(Extended(y, current, k), forecast[k].1)
  {
    var trend := FitLinear(y);
    var lastX := (|y| - 1) as real;
    forecast := [];
    for hour := 1 to HORIZON_HOURS + 1
      invariant |forecast| == hour - 1
      invariant forall k :: 0 <= k < |forecast| ==> forecast[k].0 == k + 1 && 0.0 <= forecast[k].1 <= 100.0
      invariant forall k :: 0 <= k < |forecast| ==> InRange(Extended(y, current, k), forecast[k].1)
    {
      var rate := if trend.samples >= 3 then Line(trend.intercept, trend.slope, lastX + hour as real) else current;
      assert lastX + hour as real == (|y| + (hour - 1)) as real;
      forecast := forecast + [(hour, ClampRate(rate, 0.0, 1.0) * 100.0)];
    }
  }
}
