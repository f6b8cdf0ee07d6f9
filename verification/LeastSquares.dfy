/** The regression of the correlation scanner: its closed form is the unique least-squares line. */
module LeastSquares {
  import opened Options
  import opened Reals

  /** One hour's return of the reference coin and of the symbol. */
  datatype Obs = Obs(x: real, y: real) {
    function Product(): real { x * y }
  }

  datatype Line = Line(alpha: real, beta: real) {
    function At(x: real): real { alpha + beta * x }
  }

  const MIN_DENOMINATOR := 0.0000000001

  function Square(r: real): (s: real)
    ensures s >= 0.0
  {
    r * r
  }

  function SumX(h: seq<Obs>): real { if h == [] then 0.0 else SumX(h[..|h| - 1]) + h[|h| - 1].x }

  function SumY(h: seq<Obs>): real { if h == [] then 0.0 else SumY(h[..|h| - 1]) + h[|h| - 1].y }

  function SumXY(h: seq<Obs>): real { if h == [] then 0.0 else SumXY(h[..|h| - 1]) + h[|h| - 1].Product() }

  function SumXX(h: seq<Obs>): real { if h == [] then 0.0 else SumXX(h[..|h| - 1]) + Square(h[|h| - 1].x) }

  function Denominator(n: real, sx: real, sxx: real): real { n * sxx - Square(sx) }

  function Spread(h: seq<Obs>): real { Denominator(|h| as real, SumX(h), SumXX(h)) }

  /** Slope and intercept from the five sums. */
  function Solve(n: real, sx: real, sy: real, sxy: real, d: real): Line
    requires n != 0.0 && d != 0.0
  {
    var beta := (n * sxy - sx * sy) / d;
    Line((sy - beta * sx) / n, beta)
  }

  /** The line the scanner computes; none when the denominator is too small. */
  function Fit(h: seq<Obs>): Option<Line>
    requires h != []
  {
    if -MIN_DENOMINATOR < Spread(h) < MIN_DENOMINATOR then None
    else Some(Solve(|h| as real, SumX(h), SumY(h), SumXY(h), Spread(h)))
  }

  // ---------- what a line leaves unexplained ----------

  function Residual(o: Obs, l: Line): real { o.y - l.At(o.x) }

  function Weighted(o: Obs, l: Line): real { o.x * Residual(o, l) }

  function Residuals(h: seq<Obs>, l: Line): real {
    if h == [] then 0.0 else Residuals(h[..|h| - 1], l) + Residual(h[|h| - 1], l)
  }

  function WeightedResiduals(h: seq<Obs>, l: Line): real {
    if h == [] then 0.0 else WeightedResiduals(h[..|h| - 1], l) + Weighted(h[|h| - 1], l)
  }

  function SquaredResiduals(h: seq<Obs>, l: Line): (s: real)
    ensures s >= 0.0
  {
    if h == [] then 0.0 else SquaredResiduals(h[..|h| - 1], l) + Square(Residual(h[|h| - 1], l))
  }

  /** The sum of the squared differences between two lines over the history. */
  function SquaredGap(h: seq<Obs>, a: real, b: real): (s: real)
    ensures s >= 0.0
  {
    if h == [] then 0.0 else SquaredGap(h[..|h| - 1], a, b) + Square(Line(a, b).At(h[|h| - 1].x))
  }

  /** The two sums of residuals, in terms of the five sums. */
  function Level(n: real, sx: real, sy: real, l: Line): real { sy - n * l.alpha - l.beta * sx }

  function Tilt(sx: real, sxy: real, sxx: real, l: Line): real { sxy - l.alpha * sx - l.beta * sxx }

  lemma {:induction false} ResidualsInSums(h: seq<Obs>, l: Line)
    ensures Residuals(h, l) == Level(|h| as real, SumX(h), SumY(h), l)
    ensures WeightedResiduals(h, l) == Tilt(SumX(h), SumXY(h), SumXX(h), l)
  {
    if h != [] {
      var init, o := h[..|h| - 1], h[|h| - 1];
      hide Level, Tilt, Residual, Weighted, Square, Obs.Product;
      ResidualsInSums(init, l);
      AddToLevel(|init| as real, |h| as real, SumX(init), SumX(h), SumY(init), SumY(h), o, l);
      AddToTilt(SumX(init), SumX(h), SumXY(init), SumXY(h), SumXX(init), SumXX(h), o, l);
    }
  }

  lemma AddToLevel(n: real, n1: real, sx: real, sx1: real, sy: real, sy1: real, o: Obs, l: Line)
    requires n1 == n + 1.0 && sx1 == sx + o.x && sy1 == sy + o.y
    ensures Level(n1, sx1, sy1, l) == Level(n, sx, sy, l) + Residual(o, l)
  {
  }

  lemma AddToTilt(sx: real, sx1: real, sxy: real, sxy1: real, sxx: real, sxx1: real, o: Obs, l: Line)
    requires sx1 == sx + o.x && sxy1 == sxy + o.Product() && sxx1 == sxx + Square(o.x)
    ensures Tilt(sx1, sxy1, sxx1, l) == Tilt(sx, sxy, sxx, l) + Weighted(o, l)
  {
  }

  /** Both normal equations hold for the computed line. */
  lemma NormalEquations(h: seq<Obs>)
    requires h != [] && Fit(h).Some?
    ensures Residuals(h, Fit(h).value) == 0.0 && WeightedResiduals(h, Fit(h).value) == 0.0
  {
    ResidualsInSums(h, Fit(h).value);
    Solved(|h| as real, SumX(h), SumY(h), SumXY(h), SumXX(h));
  }

  lemma Solved(n: real, sx: real, sy: real, sxy: real, sxx: real)
    requires n > 0.0 && Denominator(n, sx, sxx) != 0.0
    ensures Level(n, sx, sy, Solve(n, sx, sy, sxy, Denominator(n, sx, sxx))) == 0.0
    ensures Tilt(sx, sxy, sxx, Solve(n, sx, sy, sxy, Denominator(n, sx, sxx))) == 0.0
  {
    var d := Denominator(n, sx, sxx);
    var l := Solve(n, sx, sy, sxy, d);
    Undivide(sy - l.beta * sx, n, l.alpha);
    Undivide(n * sxy - sx * sy, d, l.beta);
    Eliminate(n, sx, sy, sxy, sxx, l.alpha, l.beta);
    ZeroFactor(n, Tilt(sx, sxy, sxx, l));
  }

  lemma Eliminate(n: real, sx: real, sy: real, sxy: real, sxx: real, a: real, b: real)
    requires n * a == sy - b * sx
    requires Denominator(n, sx, sxx) * b == n * sxy - sx * sy
    ensures n * (sxy - a * sx - b * sxx) == 0.0
  {
    calc {
      n * (sxy - a * sx - b * sxx);
      n * sxy - (n * a) * sx - n * (b * sxx);
      n * sxy - (sy - b * sx) * sx - n * (b * sxx);
      n * sxy - sx * sy - (n * sxx - sx * sx) * b;
      0.0;
    }
  }

  // ---------- the denominator ----------

  function Gap(n: real, sx: real, sxx: real, a: real, b: real): real {
    n * Square(a) + 2.0 * (a * b) * sx + Square(b) * sxx
  }

  lemma {:induction false} GapInSums(h: seq<Obs>, a: real, b: real)
    ensures SquaredGap(h, a, b) == Gap(|h| as real, SumX(h), SumXX(h), a, b)
  {
    if h != [] {
      var init, o := h[..|h| - 1], h[|h| - 1];
      hide Gap, Square, Line.At;
      GapInSums(init, a, b);
      AddToGap(|init| as real, |h| as real, SumX(init), SumX(h), SumXX(init), SumXX(h), o.x, a, b);
    }
  }

  lemma AddToGap(n: real, n1: real, sx: real, sx1: real, sxx: real, sxx1: real, x: real, a: real, b: real)
    requires n1 == n + 1.0 && sx1 == sx + x && sxx1 == sxx + Square(x)
    ensures Gap(n1, sx1, sxx1, a, b) == Gap(n, sx, sxx, a, b) + Square(Line(a, b).At(x))
  {
  }

  /** The squared differences of all pairs of the first coordinates. */
  function PairGaps(h: seq<Obs>): (s: real)
    ensures s >= 0.0
  {
    if h == [] then 0.0 else PairGaps(h[..|h| - 1]) + SquaredGap(h[..|h| - 1], -h[|h| - 1].x, 1.0)
  }

  /** The denominator is the sum of the squared differences of all pairs. */
  lemma {:induction false} SpreadIsPairGaps(h: seq<Obs>)
    ensures Spread(h) == PairGaps(h)
  {
    if h != [] {
      hide Denominator, Gap, Square, Line.At;
      var init, x := h[..|h| - 1], h[|h| - 1].x;
      SpreadIsPairGaps(init);
      GapInSums(init, -x, 1.0);
      AddToDenominator(|init| as real, |h| as real, SumX(init), SumX(h), SumXX(init), SumXX(h), x);
    }
  }

  /** The denominator is never negative. */
  lemma DenominatorNonNegative(h: seq<Obs>)
    ensures Spread(h) >= 0.0
  {
    SpreadIsPairGaps(h);
  }

  ghost predicate Constant(h: seq<Obs>) { forall i, j :: 0 <= i < j < |h| ==> h[i].x == h[j].x }

  lemma {:induction false} NoGapIff(h: seq<Obs>, x: real)
    ensures SquaredGap(h, -x, 1.0) == 0.0 <==> forall i :: 0 <= i < |h| ==> h[i].x == x
  {
    if h != [] {
      var init, d := h[..|h| - 1], Line(-x, 1.0).At(h[|h| - 1].x);
      NoGapIff(init, x);
      if d != 0.0 { PositiveSquare(d); }
      assert d == h[|h| - 1].x - x;
      hide Line.At;
      assert forall i :: 0 <= i < |init| ==> init[i] == h[i];
    }
  }

  lemma {:induction false} NoPairGapsIff(h: seq<Obs>)
    ensures PairGaps(h) == 0.0 <==> Constant(h)
  {
    if h != [] {
      var init := h[..|h| - 1];
      NoPairGapsIff(init);
      NoGapIff(init, h[|h| - 1].x);
      assert forall i :: 0 <= i < |init| ==> init[i] == h[i];
    }
  }

  /**
   The guard rejects exactly the nearly constant histories: those whose pairs differ by less than the bound in
   squares altogether, among them every constant one.
   */
  lemma GuardRejectsNearlyConstant(h: seq<Obs>)
    requires h != []
    ensures Fit(h).None? <==> PairGaps(h) < MIN_DENOMINATOR
    ensures PairGaps(h) == 0.0 <==> Constant(h)
  {
    SpreadIsPairGaps(h);
    NoPairGapsIff(h);
    hide PairGaps, Spread, Solve;
  }

  lemma AddToDenominator(n: real, n1: real, sx: real, sx1: real, sxx: real, sxx1: real, x: real)
    requires n1 == n + 1.0 && sx1 == sx + x && sxx1 == sxx + Square(x)
    ensures Denominator(n1, sx1, sxx1) == Denominator(n, sx, sxx) + Gap(n, sx, sxx, -x, 1.0)
  {
  }

  // ---------- optimality ----------

  /** Any line's error is the fitted error, a cross term, and the gap between the lines. */
  lemma {:induction false} ErrorSplits(h: seq<Obs>, l: Line, m: Line)
    ensures SquaredResiduals(h, m) == SquaredResiduals(h, l)
              + 2.0 * Cross(l.alpha - m.alpha, l.beta - m.beta, Residuals(h, l), WeightedResiduals(h, l))
              + SquaredGap(h, l.alpha - m.alpha, l.beta - m.beta)
  {
    var a, b := l.alpha - m.alpha, l.beta - m.beta;
    if h != [] {
      var init, o := h[..|h| - 1], h[|h| - 1];
      hide Cross, Square, Residual, Weighted, Line.At;
      ErrorSplits(init, l, m);
      SplitOne(o, l, m);
      AddToCross(a, b, Residuals(init, l), WeightedResiduals(init, l), Residual(o, l), Weighted(o, l));
    }
  }

  function Cross(a: real, b: real, r: real, w: real): real { a * r + b * w }

  lemma AddToCross(a: real, b: real, r: real, w: real, dr: real, dw: real)
    ensures Cross(a, b, r + dr, w + dw) == Cross(a, b, r, w) + Cross(a, b, dr, dw)
  {
  }

  lemma SplitOne(o: Obs, l: Line, m: Line)
    ensures Square(Residual(o, m)) == Square(Residual(o, l))
              + 2.0 * Cross(l.alpha - m.alpha, l.beta - m.beta, Residual(o, l), Weighted(o, l))
              + Square(Line(l.alpha - m.alpha, l.beta - m.beta).At(o.x))
  {
    var r, a, b := Residual(o, l), l.alpha - m.alpha, l.beta - m.beta;
    Collect(l.beta, m.beta, o.x);
    assert Residual(o, m) == r + (a + b * o.x);
    SquareOfTwo(r, a, b, o.x);
  }

  lemma Collect(p: real, q: real, x: real)
    ensures p * x - q * x == (p - q) * x
  {
  }

  lemma SquareOfTwo(r: real, a: real, b: real, x: real)
    ensures Square(r + (a + b * x)) == Square(r) + 2.0 * Cross(a, b, r, x * r) + Square(a + b * x)
  {
  }

  /** No other line has a smaller sum of squared residuals, and only the computed line attains the minimum. */
  lemma FitIsTheLeastSquaresLine(h: seq<Obs>, m: Line)
    requires h != [] && Fit(h).Some?
    ensures SquaredResiduals(h, Fit(h).value) <= SquaredResiduals(h, m)
    ensures SquaredResiduals(h, Fit(h).value) == SquaredResiduals(h, m) ==> m == Fit(h).value
  {
    var l := Fit(h).value;
    NormalEquations(h);
    ErrorSplits(h, l, m);
    DenominatorNonNegative(h);
    if SquaredResiduals(h, l) == SquaredResiduals(h, m) {
      GapInSums(h, l.alpha - m.alpha, l.beta - m.beta);
      NoGap(|h| as real, SumX(h), SumXX(h), l.alpha - m.alpha, l.beta - m.beta);
    }
  }

  lemma NoGap(n: real, sx: real, sxx: real, a: real, b: real)
    requires n > 0.0 && Denominator(n, sx, sxx) > 0.0 && Gap(n, sx, sxx, a, b) == 0.0
    ensures a == 0.0 && b == 0.0
  {
    CompleteSquare(n, sx, sxx, a, b);
    if b != 0.0 {
      SquareTimes(b, Denominator(n, sx, sxx));
    } else if a != 0.0 {
      SquareTimes(a, n);
    }
  }

  lemma CompleteSquare(n: real, sx: real, sxx: real, a: real, b: real)
    ensures n * Gap(n, sx, sxx, a, b) == Square(n * a + b * sx) + Square(b) * Denominator(n, sx, sxx)
  {
  }

  lemma SquareTimes(b: real, d: real)
    requires d > 0.0 && b != 0.0
    ensures Square(b) * d > 0.0
  {
    PositiveSquare(b);
    Positive(Square(b), d);
  }

  lemma PositiveSquare(b: real)
    requires b != 0.0
    ensures Square(b) > 0.0
  {
    if Square(b) == 0.0 {
      ZeroFactor(b, b);
    }
  }

  /** A history that lies on a line is fitted by that line. */
  lemma {:induction false} ExactOnALine(h: seq<Obs>, m: Line)
    requires h != [] && Fit(h).Some?
    requires forall i :: 0 <= i < |h| ==> h[i].y == m.At(h[i].x)
    ensures Fit(h).value == m
  {
    NoResiduals(h, m);
    FitIsTheLeastSquaresLine(h, m);
  }

  lemma NoResiduals(h: seq<Obs>, m: Line)
    requires forall i :: 0 <= i < |h| ==> h[i].y == m.At(h[i].x)
    ensures SquaredResiduals(h, m) == 0.0
  {
  }
}
