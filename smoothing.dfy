/** The single-pole smoothing filter applied to every angle channel, and the
    channels themselves (`smoothedAngles`, in degrees). */
module Smoothing {

  /** The two knobs of `applySmoothing`: the USE_SMOOTHING switch and the
      blend factor alpha. */
  datatype Filter = Filter(enabled: bool, alpha: real)

  const USE_SMOOTHING := true
  const ALPHA := 0.1

  /** The filter the program runs with. */
  const SourceFilter := Filter(USE_SMOOTHING, ALPHA)

  /** The four smoothed channels: Y angle of marker 0, Y angle of marker 1,
      X and Y angles of marker 2, all relative to the reference marker. */
  datatype Angles = Angles(r0y: real, r1y: real, r2x: real, r2y: real)

  const InitialAngles := Angles(0.0, 0.0, 0.0, 0.0)

  /** One filter step: the new smoothed value from a raw value and the
      previous smoothed value. */
  function ApplySmoothing(f: Filter, newValue: real, oldValue: real): real
  {
    if f.enabled then f.alpha * newValue + (1.0 - f.alpha) * oldValue else newValue
  }

  function Abs(r: real): real
  {
    if r < 0.0 then -r else r
  }

  /** v lies on the closed segment between a and b. */
  predicate Between(v: real, a: real, b: real)
  {
    (a <= v <= b) || (b <= v <= a)
  }

  /** The product of two non-negative reals is non-negative. */
  lemma MulNonnegative(a: real, b: real)
    requires 0.0 <= a && 0.0 <= b
    ensures 0.0 <= a * b
  {
  }

  /** Scaling by a factor in [0, 1] keeps a value between 0 and itself. */
  lemma ScaleBetween(a: real, d: real)
    requires 0.0 <= a <= 1.0
    ensures Between(a * d, 0.0, d)
  {
    if d >= 0.0 {
      MulNonnegative(a, d);
      MulNonnegative(1.0 - a, d);
      assert a * d + (1.0 - a) * d == d;
    } else {
      MulNonnegative(a, -d);
      MulNonnegative(1.0 - a, -d);
      assert a * (-d) + (1.0 - a) * (-d) == -d;
      assert a * (-d) == -(a * d);
    }
  }

  /** Scaling by a non-negative factor scales the absolute value. */
  lemma AbsScale(a: real, d: real)
    requires 0.0 <= a
    ensures Abs(a * d) == a * Abs(d)
  {
    if d >= 0.0 {
      MulNonnegative(a, d);
    } else {
      MulNonnegative(a, -d);
      assert a * (-d) == -(a * d);
    }
  }

  /** With smoothing on, a step moves the smoothed value the fraction alpha
      of the way from the old value to the raw value. */
  lemma SmoothingMovesFractionOfGap(alpha: real, newValue: real, oldValue: real)
    ensures ApplySmoothing(Filter(true, alpha), newValue, oldValue) - oldValue
            == alpha * (newValue - oldValue)
  {
    var r := ApplySmoothing(Filter(true, alpha), newValue, oldValue);
    assert r == alpha * newValue + (1.0 - alpha) * oldValue;
    assert r == oldValue + alpha * (newValue - oldValue);
  }

  /** With smoothing on and alpha in [0, 1], a step never leaves the segment
      between the old smoothed value and the raw value. */
  lemma SmoothingStaysBetween(alpha: real, newValue: real, oldValue: real)
    requires 0.0 <= alpha <= 1.0
    ensures Between(ApplySmoothing(Filter(true, alpha), newValue, oldValue), oldValue, newValue)
  {
    var r := ApplySmoothing(Filter(true, alpha), newValue, oldValue);
    var d := newValue - oldValue;
    var g := alpha * d;
    SmoothingMovesFractionOfGap(alpha, newValue, oldValue);
    assert r == oldValue + g;
    ScaleBetween(alpha, d);
    assert Between(g, 0.0, d);
  }

  /** With smoothing off, a step returns the raw value exactly. */
  lemma SmoothingOffPassesThrough(alpha: real, newValue: real, oldValue: real)
    ensures ApplySmoothing(Filter(false, alpha), newValue, oldValue) == newValue
  {
  }

  /** The program's own filter moves a tenth of the way to the raw value. */
  lemma SourceFilterMovesOneTenth(newValue: real, oldValue: real)
    ensures ApplySmoothing(SourceFilter, newValue, oldValue) - oldValue
            == (newValue - oldValue) / 10.0
    ensures Between(ApplySmoothing(SourceFilter, newValue, oldValue), oldValue, newValue)
  {
    SmoothingMovesFractionOfGap(ALPHA, newValue, oldValue);
    SmoothingStaysBetween(ALPHA, newValue, oldValue);
  }

  function Pow(q: real, n: nat): real
  {
    if n == 0 then 1.0 else q * Pow(q, n - 1)
  }

  /** The smoothed value after the same raw value x has been fed n times,
      starting from s0. */
  function Repeat(f: Filter, x: real, s0: real, n: nat): real
  {
    if n == 0 then s0 else ApplySmoothing(f, x, Repeat(f, x, s0, n - 1))
  }

  /** Multiplying by a non-negative factor keeps an inequality. */
  lemma MulMonotone(a: real, u: real, v: real)
    requires 0.0 <= a && u <= v
    ensures a * u <= a * v
  {
    assert a * v - a * u == a * (v - u);
    assert 0.0 <= a * (v - u);
  }

  /** The error left after n steps is (1 - alpha)^n times the initial error. */
  lemma {:induction false} RepeatError(alpha: real, x: real, s0: real, n: nat)
    ensures Repeat(Filter(true, alpha), x, s0, n) - x == Pow(1.0 - alpha, n) * (s0 - x)
  {
    if n > 0 {
      var q := 1.0 - alpha;
      var prev := Repeat(Filter(true, alpha), x, s0, n - 1);
      var p := Pow(q, n - 1);
      RepeatError(alpha, x, s0, n - 1);
      assert prev - x == p * (s0 - x);
      assert Repeat(Filter(true, alpha), x, s0, n) == alpha * x + q * prev;
      assert Pow(q, n) == q * p;
      calc {
        Repeat(Filter(true, alpha), x, s0, n) - x;
        alpha * x + q * prev - x;
        q * (prev - x);
        q * (p * (s0 - x));
        (q * p) * (s0 - x);
      }
    }
  }

  lemma {:induction false} PowUnitInterval(q: real, n: nat)
    requires 0.0 <= q <= 1.0
    ensures 0.0 <= Pow(q, n) <= 1.0
  {
    if n > 0 {
      var p := Pow(q, n - 1);
      PowUnitInterval(q, n - 1);
      ScaleBetween(q, p);
      assert Pow(q, n) == q * p;
    }
  }

  /** For alpha in [0, 1], feeding a constant raw value never moves the
      smoothed value further from it. */
  lemma RepeatDistanceNeverGrows(alpha: real, x: real, s0: real, n: nat)
    requires 0.0 <= alpha <= 1.0
    ensures Abs(Repeat(Filter(true, alpha), x, s0, n + 1) - x)
            <= Abs(Repeat(Filter(true, alpha), x, s0, n) - x)
  {
    var q := 1.0 - alpha;
    var e := Repeat(Filter(true, alpha), x, s0, n) - x;
    var e' := Repeat(Filter(true, alpha), x, s0, n + 1) - x;
    RepeatStep(alpha, x, s0, n + 1);
    assert e' == q * e;
    AbsScale(q, e);
    assert Abs(e') == q * Abs(e);
    ScaleBetween(q, Abs(e));
  }

  /** Every smoothed value fed by a constant raw value lies between the
      starting value and the raw value. */
  lemma RepeatStaysBetween(alpha: real, x: real, s0: real, n: nat)
    requires 0.0 <= alpha <= 1.0
    ensures Between(Repeat(Filter(true, alpha), x, s0, n), s0, x)
  {
    var q := 1.0 - alpha;
    var p := Pow(q, n);
    var d := s0 - x;
    var g := p * d;
    var r := Repeat(Filter(true, alpha), x, s0, n);
    RepeatError(alpha, x, s0, n);
    assert r == x + g;
    PowUnitInterval(q, n);
    ScaleBetween(p, d);
    BetweenShift(r, x, s0, g);
  }

  /** Shifting the segment from 0 to s0 - x by x: a value x + g with g
      between 0 and s0 - x lies between x and s0. */
  lemma BetweenShift(r: real, x: real, s0: real, g: real)
    requires r == x + g && Between(g, 0.0, s0 - x)
    ensures Between(r, s0, x)
  {
  }

  /** One step of the filter shrinks the error by the factor 1 - alpha. */
  lemma RepeatStep(alpha: real, x: real, s0: real, n: nat)
    requires n > 0
    ensures Repeat(Filter(true, alpha), x, s0, n) - x
            == (1.0 - alpha) * (Repeat(Filter(true, alpha), x, s0, n - 1) - x)
  {
    var prev := Repeat(Filter(true, alpha), x, s0, n - 1);
    assert Repeat(Filter(true, alpha), x, s0, n) == alpha * x + (1.0 - alpha) * prev;
  }

  /** For alpha in (0, 1], the error after n steps is at most the initial
      error divided by 1 + n * alpha, so the smoothed value converges to a
      constant raw value. */
  lemma {:induction false} RepeatConverges(alpha: real, x: real, s0: real, n: nat)
    requires 0.0 < alpha <= 1.0
    ensures Abs(Repeat(Filter(true, alpha), x, s0, n) - x) * (1.0 + (n as real) * alpha)
            <= Abs(s0 - x)
  {
    if n > 0 {
      RepeatConverges(alpha, x, s0, n - 1);
      RepeatStep(alpha, x, s0, n);
      ConvergenceStep(Repeat(Filter(true, alpha), x, s0, n - 1) - x,
                      Repeat(Filter(true, alpha), x, s0, n) - x,
                      alpha, (n - 1) as real, Abs(s0 - x));
      assert (n as real) == ((n - 1) as real) + 1.0;
    }
  }

  /** The induction step of RepeatConverges, on plain reals. */
  lemma ConvergenceStep(prev: real, next: real, alpha: real, k: real, bound: real)
    requires 0.0 < alpha <= 1.0 && 0.0 <= k
    requires next == (1.0 - alpha) * prev
    requires Abs(prev) * (1.0 + k * alpha) <= bound
    ensures Abs(next) * (1.0 + (k + 1.0) * alpha) <= bound
  {
    var q := 1.0 - alpha;
    var a := Abs(prev);
    var b := a * (1.0 + k * alpha);
    AbsScale(q, prev);
    assert Abs(next) == q * a;
    // a <= b <= bound
    MulNonnegative(k, alpha);
    MulNonnegative(a, k * alpha);
    assert b == a + a * (k * alpha);
    // q * a * (1 + (k + 1) alpha) == q * b + alpha * (q * a)
    ExpandStep(q, a, k, alpha);
    // each of the two terms is bounded by its share of the bound
    MulMonotone(q, b, bound);
    ScaleBetween(q, a);
    MulMonotone(alpha, q * a, a);
    MulMonotone(alpha, a, bound);
    assert q * bound + alpha * bound == bound;
  }

  /** The polynomial identity that splits the bound in ConvergenceStep. */
  lemma ExpandStep(q: real, a: real, k: real, alpha: real)
    ensures (q * a) * (1.0 + (k + 1.0) * alpha) == q * (a * (1.0 + k * alpha)) + alpha * (q * a)
  {
    assert (k + 1.0) * alpha == k * alpha + alpha;
    assert (q * a) * (1.0 + k * alpha + alpha) == (q * a) * (1.0 + k * alpha) + (q * a) * alpha;
    assert (q * a) * (1.0 + k * alpha) == q * (a * (1.0 + k * alpha));
  }

  /** With smoothing off, one raw value is enough: every later smoothed value
      equals it. */
  lemma RepeatWithoutSmoothing(alpha: real, x: real, s0: real, n: nat)
    requires n > 0
    ensures Repeat(Filter(false, alpha), x, s0, n) == x
  {
  }
}
