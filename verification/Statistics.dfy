/** Statistics of a window of samples: thresholds compared by squares instead of
    by a square root, and the tail bound that limits how often they fire. */
module Statistics {
  import opened Sequences
  import opened Signals

  datatype Sample = Sample(ts: int, value: real)

  const MIN_SAMPLES: nat := 10

  /** Adds up f over the values of a window. */
  function SumOver(w: seq<Sample>, f: real -> real): real {
    if w == [] then 0.0 else SumOver(w[..|w| - 1], f) + f(w[|w| - 1].value)
  }

  function Minus(v: real, mean: real): real { v - mean }

  function Value(): real -> real { v => v }

  function Distance(mean: real): real -> real { v => Minus(v, mean) }

  function SquaredDistance(mean: real): real -> real { v => Square(Minus(v, mean)) }

  function Mean(w: seq<Sample>): real
    requires w != []
  {
    SumOver(w, Value()) / |w| as real
  }

  function Variance(w: seq<Sample>): real
    requires w != []
  {
    SumOver(w, SquaredDistance(Mean(w))) / |w| as real
  }

  datatype Stats = Moments(mean: real, variance: real)

  /** Statistics are valid from MIN_SAMPLES samples on. */
  function StatsOf(w: seq<Sample>): Option<Stats> {
    if |w| < MIN_SAMPLES then None else Some(Moments(Mean(w), Variance(w)))
  }

  /** The square test for value > mean + c * stddev. */
  predicate Above(value: real, st: Stats, c: real) {
    value > st.mean && Square(value - st.mean) > Square(c) * st.variance
  }

  /** The square test for value < mean - c * stddev. */
  predicate Beneath(value: real, st: Stats, c: real) {
    value < st.mean && Square(value - st.mean) > Square(c) * st.variance
  }

  function Score(value: real, st: Stats): real {
    if st.variance == 0.0 then 0.0
    else SignedSquare(value - st.mean) / st.variance
  }

  // Squares are always written with this function: the solver rewrites
  // comparisons of x * x with 0 and then cannot combine them.
  function Square(x: real): real { x * x }

  lemma MulStrict(x: real, y: real, c: real)
    requires x < y && c > 0.0
    ensures x * c < y * c
  {
  }

  lemma MulWeak(x: real, y: real, c: real)
    requires x <= y && c >= 0.0
    ensures x * c <= y * c
  {
  }

  lemma SquareNonNegative(x: real)
    ensures Square(x) >= 0.0
  {
  }

  lemma SquarePositive(x: real)
    requires x > 0.0
    ensures Square(x) > 0.0
  {
    SquareStrict(0.0, x);
  }

  lemma SquareMonotone(x: real, y: real)
    requires 0.0 <= x <= y
    ensures Square(x) <= Square(y)
  {
  }

  lemma SquareStrict(x: real, y: real)
    requires 0.0 <= x < y
    ensures Square(x) < Square(y)
  {
    calc {
      Square(x);
    <= { MulWeak(x, y, x); }
      y * x;
    ==
      x * y;
    <  { MulStrict(x, y, y); }
      y * y;
    ==
      Square(y);
    }
  }

  lemma SquareOrder(a: real, b: real)
    requires a >= 0.0 && b >= 0.0
    ensures a > b <==> Square(a) > Square(b)
  {
    if a > b {
      SquareStrict(b, a);
    } else {
      SquareMonotone(a, b);
    }
  }

  /** The square tests are the source's tests, for the stddev `s`. */
  lemma ThresholdsBySquares(value: real, st: Stats, c: real, s: real)
    requires c > 0.0 && s >= 0.0 && Square(s) == st.variance
    ensures Above(value, st, c) <==> value > st.mean + c * s
    ensures Beneath(value, st, c) <==> value < st.mean - c * s
  {
    assert c * s >= 0.0 by { MulWeak(0.0, s, c); }
    assert Square(c * s) == Square(c) * Square(s);
    var d := value - st.mean;
    if d > 0.0 {
      SquareOrder(d, c * s);
    } else {
      SquareOrder(-d, c * s);
      assert Square(-d) == Square(d);
    }
  }

  /** The source's `deviation`, given the stddev. */
  function Deviation(value: real, mean: real, s: real): real {
    if s == 0.0 then 0.0 else (value - mean) / s
  }

  /** Multiplying by the magnitude squares a number but keeps its sign. */
  function SignedSquare(x: real): real { if x < 0.0 then -Square(x) else Square(x) }

  lemma ScoreIsSignedSquare(value: real, st: Stats, s: real)
    requires s >= 0.0 && Square(s) == st.variance
    ensures Score(value, st) == SignedSquare(Deviation(value, st.mean, s))
  {
    if s > 0.0 {
      SquarePositive(s);
      QuotientSquare(value - st.mean, s);
      QuotientSign(value - st.mean, s);
    }
  }

  lemma QuotientSign(x: real, s: real)
    requires s > 0.0
    ensures x / s < 0.0 <==> x < 0.0
  {
    if x >= 0.0 {
      assert x / s >= 0.0;
    } else {
      assert x / s < 0.0;
    }
  }

  lemma QuotientSquare(x: real, s: real)
    requires s > 0.0
    ensures Square(s) > 0.0
    ensures Square(x / s) == Square(x) / Square(s)
    ensures -Square(x / s) == -Square(x) / Square(s)
  {
    SquarePositive(s);
    QuotientTimes(x, s);
    assert Square(x / s) * Square(s) == Square(x / s * s);
    DivUnique(Square(x / s), Square(s), Square(x));
    DivUnique(-Square(x / s), Square(s), -Square(x));
  }

  lemma QuotientTimes(x: real, s: real)
    requires s != 0.0
    ensures x / s * s == x
  {
  }

  lemma DivUnique(q: real, d: real, n: real)
    requires d > 0.0 && q * d == n
    ensures n / d == q
  {
  }

  /** Comparing scores by magnitude is comparing deviations by magnitude, also
      across different baselines. */
  lemma ScoreOrdersLikeDeviation(v: real, st: Stats, s: real, v': real, st': Stats, s': real)
    requires s >= 0.0 && Square(s) == st.variance && s' >= 0.0 && Square(s') == st'.variance
    ensures Abs(Score(v, st)) > Abs(Score(v', st')) <==>
            Abs(Deviation(v, st.mean, s)) > Abs(Deviation(v', st'.mean, s'))
  {
    var d, d' := Deviation(v, st.mean, s), Deviation(v', st'.mean, s');
    ScoreIsSignedSquare(v, st, s);
    ScoreIsSignedSquare(v', st', s');
    SquareOrder(Abs(d), Abs(d'));
    AbsSquare(d);
    AbsSquare(d');
  }

  lemma AbsSquare(d: real)
    ensures Abs(SignedSquare(d)) == Square(Abs(d))
  {
    SquareNonNegative(d);
    assert Square(-d) == Square(d);
  }

  // ------------------------------------------------- Cantelli's inequality

  function CountAtLeast(w: seq<Sample>, bound: real): nat {
    if w == [] then 0 else CountAtLeast(w[..|w| - 1], bound) + if w[|w| - 1].value >= bound then 1 else 0
  }

  /** k copies of q, added up. */
  function Times(k: nat, q: real): real {
    if k == 0 then 0.0 else Times(k - 1, q) + q
  }

  lemma {:induction false} TimesIsProduct(k: nat, q: real)
    ensures Times(k, q) == k as real * q
  {
    if k > 0 {
      TimesIsProduct(k - 1, q);
    }
  }

  ghost predicate RisesTo(f: real -> real, bound: real, q: real) {
    forall v :: f(v) >= 0.0 && (v >= bound ==> f(v) >= q)
  }

  ghost predicate Combines(f: real -> real, g: real -> real, h: real -> real, u: real, v: real, c: real) {
    forall x :: f(x) == u * g(x) + v * h(x) + c
  }

  /** A non-negative f that reaches q on every value from `bound` on adds up to
      at least q per such value. */
  lemma {:induction false} SumOverLowerBound(w: seq<Sample>, f: real -> real, bound: real, q: real)
    requires RisesTo(f, bound, q)
    ensures SumOver(w, f) >= Times(CountAtLeast(w, bound), q)
  {
    if w == [] {
    } else {
      SumOverLowerBound(w[..|w| - 1], f, bound, q);
      assert f(w[|w| - 1].value) >= 0.0;
    }
  }

  lemma {:induction false} SumOverLinear(w: seq<Sample>, f: real -> real, g: real -> real, h: real -> real, u: real,
      v: real, c: real)
    requires Combines(f, g, h, u, v, c)
    ensures SumOver(w, f) == u * SumOver(w, g) + v * SumOver(w, h) + |w| as real * c
  {
    if w == [] {
    } else {
      var w0, x := w[..|w| - 1], w[|w| - 1].value;
      SumOverLinear(w0, f, g, h, u, v, c);
      ExpandStep(u, v, c, SumOver(w0, g), SumOver(w0, h), |w0|, g(x), h(x));
    }
  }

  /** Adds one term to an expanded sum. */
  lemma ExpandStep(u: real, v: real, c: real, e: real, o: real, n: nat, g: real, h: real)
    ensures u * (e + g) + v * (o + h) + (n + 1) as real * c
            == (u * e + v * o + n as real * c) + (u * g + v * h + c)
  {
  }

  function ShiftedSquare(v: real, mean: real, t: real, a: real): real { Square(t * (v - mean) + a) }

  /** The parabola whose sum over a window bounds the upper tail. */
  function Parabola(mean: real, t: real, a: real): real -> real {
    v => ShiftedSquare(v, mean, t, a)
  }

  lemma ParabolaExpands(mean: real, t: real, a: real)
    ensures Combines(Parabola(mean, t, a), SquaredDistance(mean), Distance(mean), Square(t), 2.0 * t * a, Square(a))
  {
    forall x
      ensures Parabola(mean, t, a)(x)
              == Square(t) * SquaredDistance(mean)(x) + 2.0 * t * a * Distance(mean)(x) + Square(a)
    {
      calc {
        Parabola(mean, t, a)(x);
      ==
        Square(t * (x - mean) + a);
      == { SquareOfSum(x - mean, t, a); }
        Square(t) * Square(x - mean) + 2.0 * t * a * (x - mean) + Square(a);
      ==
        Square(t) * SquaredDistance(mean)(x) + 2.0 * t * a * Distance(mean)(x) + Square(a);
      }
    }
  }

  lemma SquareOfSum(d: real, t: real, a: real)
    ensures Square(t * d + a) == Square(t) * Square(d) + 2.0 * t * a * d + Square(a)
  {
  }

  lemma ParabolaRises(mean: real, t: real, a: real)
    requires t > 0.0 && a >= 0.0
    ensures RisesTo(Parabola(mean, t, a), mean + t, Square(Square(t) + a))
  {
    forall x
      ensures Parabola(mean, t, a)(x) >= 0.0
      ensures x >= mean + t ==> Parabola(mean, t, a)(x) >= Square(Square(t) + a)
    {
      calc {
        Parabola(mean, t, a)(x);
      ==
        Square(t * (x - mean) + a);
      >= { SquareNonNegative(t * (x - mean) + a); }
        0.0;
      }
      if x >= mean + t {
        calc {
          Parabola(mean, t, a)(x);
        ==
          Square(t * (x - mean) + a);
        >= { SteepEnough(x - mean, t, a); }
          Square(Square(t) + a);
        }
      }
    }
  }

  lemma SteepEnough(d: real, t: real, a: real)
    requires 0.0 < t <= d && a >= 0.0
    ensures Square(Square(t) + a) <= Square(t * d + a)
  {
    SquareNonNegative(t);
    assert Square(t) <= t * d by { MulWeak(t, d, t); }
    SquareMonotone(Square(t) + a, t * d + a);
  }

  lemma {:induction false} SumOverNonNegative(w: seq<Sample>, f: real -> real)
    requires forall v :: f(v) >= 0.0
    ensures SumOver(w, f) >= 0.0
  {
    if w == [] {
    } else {
      SumOverNonNegative(w[..|w| - 1], f);
    }
  }

  lemma SquaredDistanceNonNegative(mean: real)
    ensures forall v :: SquaredDistance(mean)(v) >= 0.0
  {
    forall v ensures SquaredDistance(mean)(v) >= 0.0 { SquareNonNegative(v - mean); }
  }

  /** The mean balances the window, and the variance is its mean squared
      distance: both sums, not their quotients. */
  lemma {:induction false} MeanAndVariance(w: seq<Sample>)
    requires w != []
    ensures SumOver(w, Distance(Mean(w))) == 0.0
    ensures SumOver(w, SquaredDistance(Mean(w))) == |w| as real * Variance(w)
    ensures Variance(w) >= 0.0
  {
    var m := Mean(w);
    MeanBalances(w);
    VarianceTimes(SumOver(w, SquaredDistance(m)), |w| as real);
    SquaredDistanceNonNegative(m);
    SumOverNonNegative(w, SquaredDistance(m));
    NonNegativeQuotient(SumOver(w, SquaredDistance(m)), |w| as real);
  }

  lemma VarianceTimes(x: real, n: real)
    requires n != 0.0
    ensures x == n * (x / n)
  {
  }

  lemma {:induction false} MeanBalances(w: seq<Sample>)
    requires w != []
    ensures SumOver(w, Distance(Mean(w))) == 0.0
  {
    var m := Mean(w);
    DistanceSum(w, m);
    VarianceTimes(SumOver(w, Value()), |w| as real);
  }

  lemma {:induction false} DistanceSum(w: seq<Sample>, m: real)
    ensures SumOver(w, Distance(m)) == SumOver(w, Value()) - |w| as real * m
  {
    if w == [] {
    } else {
      DistanceSum(w[..|w| - 1], m);
    }
  }

  lemma NonNegativeQuotient(x: real, n: real)
    requires x >= 0.0 && n > 0.0
    ensures x / n >= 0.0
  {
  }

  /** Cantelli's inequality: of n samples, k at distance t or more above the
      mean satisfy k * (t^2 + variance) <= n * variance. */
  lemma {:induction false} Cantelli(w: seq<Sample>, t: real)
    requires w != [] && t > 0.0
    ensures CountAtLeast(w, Mean(w) + t) as real * (Square(t) + Variance(w)) <= |w| as real * Variance(w)
  {
    MeanAndVariance(w);
    UpperTail(w, Mean(w), Variance(w), t);
  }

  lemma {:induction false} UpperTail(w: seq<Sample>, m: real, a: real, t: real)
    requires t > 0.0 && a >= 0.0
    requires SumOver(w, SquaredDistance(m)) == |w| as real * a && SumOver(w, Distance(m)) == 0.0
    ensures CountAtLeast(w, m + t) as real * (Square(t) + a) <= |w| as real * a
  {
    TailAlgebra(CountAtLeast(w, m + t) as real, |w| as real, Square(t), a, SumOver(w, SquaredDistance(m)))
      by { SquarePositive(t); TailSums(w, m, a, t); }
  }

  lemma {:induction false} TailSums(w: seq<Sample>, m: real, a: real, t: real)
    requires t > 0.0 && a >= 0.0 && SumOver(w, Distance(m)) == 0.0
    ensures Square(t) * SumOver(w, SquaredDistance(m)) + |w| as real * Square(a)
            >= CountAtLeast(w, m + t) as real * Square(Square(t) + a)
  {
    hide *;
    ParabolaSum(w, m, a, t);
    ParabolaLower(w, m, a, t);
  }

  lemma {:induction false} ParabolaSum(w: seq<Sample>, m: real, a: real, t: real)
    requires SumOver(w, Distance(m)) == 0.0
    ensures SumOver(w, Parabola(m, t, a)) == Square(t) * SumOver(w, SquaredDistance(m)) + |w| as real * Square(a)
  {
    ParabolaExpands(m, t, a);
    SumOverLinear(w, Parabola(m, t, a), SquaredDistance(m), Distance(m), Square(t), 2.0 * t * a, Square(a));
  }

  lemma {:induction false} ParabolaLower(w: seq<Sample>, m: real, a: real, t: real)
    requires t > 0.0 && a >= 0.0
    ensures SumOver(w, Parabola(m, t, a)) >= CountAtLeast(w, m + t) as real * Square(Square(t) + a)
  {
    hide *;
    TimesIsProduct(CountAtLeast(w, m + t), Square(Square(t) + a));
    ParabolaLowerTimes(w, m, a, t);
  }

  lemma {:induction false} ParabolaLowerTimes(w: seq<Sample>, m: real, a: real, t: real)
    requires t > 0.0 && a >= 0.0
    ensures SumOver(w, Parabola(m, t, a)) >= Times(CountAtLeast(w, m + t), Square(Square(t) + a))
  {
    hide *;
    ParabolaRises(m, t, a);
    SumOverLowerBound(w, Parabola(m, t, a), m + t, Square(Square(t) + a));
  }

  lemma TailAlgebra(k: real, n: real, u: real, a: real, err: real)
    requires u > 0.0 && a >= 0.0 && err == n * a
    requires u * err + n * Square(a) >= k * Square(u + a)
    ensures k * (u + a) <= n * a
  {
    Distribute(u, a, n);
    CancelFactor(k, n * a, u + a);
  }

  lemma CancelFactor(k: real, r: real, p: real)
    requires p > 0.0 && k * Square(p) <= r * p
    ensures k * p <= r
  {
    assert k * Square(p) == (k * p) * p;
    if k * p > r {
      MulStrict(r, k * p, p);
    }
  }

  lemma Distribute(u: real, a: real, n: real)
    ensures u * (n * a) + n * Square(a) == (n * a) * (u + a)
  {
  }

  // --------------------------------------------------- threshold masking

  function AboveTest(st: Stats, c: real): Sample -> bool { (x: Sample) => Above(x.value, st, c) }

  function BeneathTest(st: Stats, c: real): Sample -> bool { (x: Sample) => Beneath(x.value, st, c) }

  /** The least distance from the mean among the samples above the threshold. */
  lemma {:induction false} LeastAbove(w: seq<Sample>, st: Stats, c: real) returns (t: real)
    requires Count(w, AboveTest(st, c)) > 0
    ensures Above(st.mean + t, st, c)
    ensures Count(w, AboveTest(st, c)) <= CountAtLeast(w, st.mean + t)
  {
    var w0, v := w[..|w| - 1], w[|w| - 1].value;
    var p := AboveTest(st, c);
    t := v - st.mean;
    if Count(w0, p) > 0 {
      var t0 := LeastAbove(w0, st, c);
      if Above(v, st, c) && v < st.mean + t0 {
        CountAtLeastMonotone(w0, st.mean + t, st.mean + t0);
      } else {
        t := t0;
      }
    }
    assert st.mean + (v - st.mean) == v;
  }

  lemma {:induction false} CountAtLeastMonotone(w: seq<Sample>, low: real, high: real)
    requires low <= high
    ensures CountAtLeast(w, high) <= CountAtLeast(w, low)
  {
    if w == [] {
    } else {
      CountAtLeastMonotone(w[..|w| - 1], low, high);
    }
  }

  lemma MaskingAlgebra(k: real, n: real, u: real, a: real, cc: real)
    requires k > 0.0 && a >= 0.0 && cc >= 0.0 && u > cc * a
    requires k * (u + a) <= n * a
    ensures a > 0.0 && k * (cc + 1.0) < n
  {
    assert cc * a >= 0.0 by { MulWeak(0.0, cc, a); }
    calc {
      (k * (cc + 1.0)) * a;
    ==
      (cc * a + a) * k;
    <  { MulStrict(cc * a + a, u + a, k); }
      (u + a) * k;
    ==
      k * (u + a);
    <=
      n * a;
    }
    if a <= 0.0 || n <= k * (cc + 1.0) {
      MulWeak(n, k * (cc + 1.0), a);
    }
  }

  /** Of n samples the k that lie beyond c standard deviations are few. */
  predicate Few(k: nat, n: nat, c: real) { k as real * (Square(c) + 1.0) < n as real }

  /** Threshold masking, upper side: a value in its own baseline can only stand
      out if few others do. If k of the n samples lie above mean + c * stddev,
      then (c^2 + 1) * k < n. */
  lemma {:induction false} MaskingAbove(w: seq<Sample>, c: real)
    requires w != []
    ensures var st := Moments(Mean(w), Variance(w));
      Few(Count(w, AboveTest(st, c)), |w|, c)
    ensures var st := Moments(Mean(w), Variance(w));
      Count(w, AboveTest(st, c)) > 0 ==> Variance(w) > 0.0
  {
    var st := Moments(Mean(w), Variance(w));
    var k := Count(w, AboveTest(st, c));
    if k > 0 {
      var t := LeastAbove(w, st, c);
      MaskingFrom(w, c, t, k);
    }
  }

  lemma {:induction false} MaskingFrom(w: seq<Sample>, c: real, t: real, k: nat)
    requires w != [] && 0 < k <= CountAtLeast(w, Mean(w) + t)
    requires Above(Mean(w) + t, Moments(Mean(w), Variance(w)), c)
    ensures k as real * (Square(c) + 1.0) < |w| as real && Variance(w) > 0.0
  {
    var a, n, m := Variance(w), |w| as real, CountAtLeast(w, Mean(w) + t) as real;
    assert Mean(w) + t - Mean(w) == t;
    assert m * (Square(t) + a) <= n * a by { Cantelli(w, t); }
    assert a >= 0.0 by { MeanAndVariance(w); }
    assert Square(c) >= 0.0 by { SquareNonNegative(c); }
    MaskingAlgebra(m, n, Square(t), a, Square(c));
    MulWeak(k as real, m, Square(c) + 1.0);
  }

  /** The window with every value negated: turns low tails into high ones. */
  function Mirror(w: seq<Sample>): (r: seq<Sample>)
    ensures |r| == |w|
  {
    if w == [] then [] else Mirror(w[..|w| - 1]) + [Sample(w[|w| - 1].ts, -w[|w| - 1].value)]
  }

  lemma {:induction false} MirrorSums(w: seq<Sample>, m: real)
    ensures SumOver(Mirror(w), Value()) == -SumOver(w, Value())
    ensures SumOver(Mirror(w), SquaredDistance(-m)) == SumOver(w, SquaredDistance(m))
  {
    if w == [] {
    } else {
      MirrorSums(w[..|w| - 1], m);
      var v := w[|w| - 1].value;
      assert Mirror(w)[..|w| - 1] == Mirror(w[..|w| - 1]);
      assert Square(Minus(-v, -m)) == Square(Minus(v, m));
    }
  }

  lemma {:induction false} MirrorStats(w: seq<Sample>)
    requires w != []
    ensures Mean(Mirror(w)) == -Mean(w) && Variance(Mirror(w)) == Variance(w)
  {
    MirrorSums(w, Mean(w));
    NegatedQuotient(SumOver(w, Value()), |w| as real);
  }

  lemma NegatedQuotient(x: real, n: real)
    requires n != 0.0
    ensures -x / n == -(x / n)
  {
  }

  lemma {:induction false} MirrorCount(w: seq<Sample>, st: Stats, c: real)
    ensures Count(Mirror(w), AboveTest(Moments(-st.mean, st.variance), c)) == Count(w, BeneathTest(st, c))
  {
    if w == [] {
    } else {
      MirrorCount(w[..|w| - 1], st, c);
      assert Mirror(w)[..|w| - 1] == Mirror(w[..|w| - 1]);
      MirrorTest(w[|w| - 1].value, st, c);
    }
  }

  lemma MirrorTest(v: real, st: Stats, c: real)
    ensures Above(-v, Moments(-st.mean, st.variance), c) <==> Beneath(v, st, c)
  {
    assert Square(-v - -st.mean) == Square(v - st.mean);
  }

  /** Threshold masking, lower side. */
  lemma {:induction false} MaskingBeneath(w: seq<Sample>, c: real)
    requires w != []
    ensures var st := Moments(Mean(w), Variance(w));
      Few(Count(w, BeneathTest(st, c)), |w|, c)
    ensures var st := Moments(Mean(w), Variance(w));
      Count(w, BeneathTest(st, c)) > 0 ==> Variance(w) > 0.0
  {
    var st := Moments(Mean(w), Variance(w));
    var mirrored := Moments(Mean(Mirror(w)), Variance(Mirror(w)));
    hide *;
    MirrorStats(w);
    assert mirrored == Moments(-st.mean, st.variance);
    MirrorCount(w, st, c);
    MaskingAbove(Mirror(w), c);
  }

  lemma {:induction false} MemberCounts(w: seq<Sample>, x: Sample, p: Sample -> bool)
    requires x in w && p(x)
    ensures Count(w, p) > 0
  {
    if x != w[|w| - 1] {
      MemberCounts(w[..|w| - 1], x, p);
    }
  }

  /** The masking bounds at the source's two multipliers, in whole numbers:
      above 3 sigma 10k < n, beyond 2 sigma on one side 5k < n. */
  lemma {:induction false} MaskingBounds(w: seq<Sample>)
    requires w != []
    ensures var st := Moments(Mean(w), Variance(w));
      && 10 * Count(w, AboveTest(st, 3.0)) < |w|
      && 5 * Count(w, AboveTest(st, 2.0)) < |w|
      && 5 * Count(w, BeneathTest(st, 2.0)) < |w|
  {
    MaskingAbove(w, 3.0);
    MaskingAbove(w, 2.0);
    MaskingBeneath(w, 2.0);
  }

  /** A sample tested against a window that contains it fires the 3 sigma test
      only if the window has at least 11 samples, one more than MIN_SAMPLES. */
  lemma {:induction false} OwnBaselineNeedsEleven(w: seq<Sample>, x: Sample)
    requires x in w && Above(x.value, Moments(Mean(w), Variance(w)), 3.0)
    ensures |w| > MIN_SAMPLES && Variance(w) > 0.0
  {
    var st := Moments(Mean(w), Variance(w));
    MemberCounts(w, x, AboveTest(st, 3.0));
    MaskingBounds(w);
    MaskingAbove(w, 3.0);
  }
}
