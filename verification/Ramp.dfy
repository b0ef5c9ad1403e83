/** The tempo fit while the tempo moves. */
module Ramps {
  import opened Numbers
  import opened Clock
  import opened Rings
  import opened LeastSquares
  import opened MidiClocks

  // ---- A ramp ----

  /** Pulse `i` is next to the one before it, in one run with it. */
  predicate Neighbours(points: seq<Point>, i: nat)
    requires 1 <= i < |points|
  {
    points[i].index == points[i - 1].index + 1 && points[i].run == points[i - 1].run
  }

  /** The period of pulse `i` is `d` longer than that of the one before. */
  predicate Longer(points: seq<Point>, i: nat, d: real)
    requires 2 <= i < |points|
  {
    points[i].sample - points[i - 1].sample == points[i - 1].sample - points[i - 2].sample + d
  }

  /** Neighbouring pulses of one run, every period `d` longer than the one before. */
  ghost predicate Ramped(points: seq<Point>, d: real)
  {
    && (forall i :: 1 <= i < |points| ==> Neighbours(points, i))
    && forall i :: 2 <= i < |points| ==> Longer(points, i, d)
  }

  /** The period of the newest pulse. */
  function LastPeriod(points: seq<Point>): real
    requires |points| >= 2
  {
    points[|points| - 1].sample - points[|points| - 2].sample
  }

  function Parabola(p: real, q: real, x: real): real { p * x + q * (x * x) }

  /** Going by its newest pulse a ramp is a parabola. */
  ghost predicate OnParabola(points: seq<Point>, p: real, q: real)
  {
    forall i :: 0 <= i < |points| ==>
      var newest, x := points[|points| - 1], (i + 1 - |points|) as real;
      && points[i].X(newest) == x && points[i].Y(newest) == Parabola(p, q, x)
      && points[i].run == newest.run
  }

  lemma NextDifference(p: real, q: real, x: real)
    ensures Parabola(p, q, x) - Parabola(p, q, x + 1.0)
            == Parabola(p, q, x + 1.0) - Parabola(p, q, x + 2.0) + 2.0 * q
  {
    var a, b, c := x * x, (x + 1.0) * (x + 1.0), (x + 2.0) * (x + 2.0);
    assert b == a + 2.0 * x + 1.0 && c == a + 4.0 * x + 4.0;
    assert q * a - q * b == q * b - q * c + 2.0 * q by {
      assert q * b == q * a + 2.0 * (q * x) + q;
      assert q * c == q * a + 4.0 * (q * x) + 4.0 * q;
    }
  }

  lemma {:induction false} RampAt(points: seq<Point>, d: real, i: nat)
    requires |points| >= 2 && Ramped(points, d) && i < |points|
    ensures var newest, x := points[|points| - 1], (i + 1 - |points|) as real;
            && points[i].X(newest) == x && points[i].run == newest.run
            && points[i].Y(newest) == Parabola(LastPeriod(points) + d / 2.0, d / 2.0, x)
    decreases |points| - i
  {
    var p, q := LastPeriod(points) + d / 2.0, d / 2.0;
    if i + 2 < |points| {
      RampAt(points, d, i + 1);
      RampAt(points, d, i + 2);
      var x := (i + 1 - |points|) as real;
      assert (i + 2 - |points|) as real == x + 1.0 && (i + 3 - |points|) as real == x + 2.0;
      NextDifference(p, q, x);
      assert Neighbours(points, i + 1) && Longer(points, i + 2, d);
    } else {
      assert Neighbours(points, |points| - 1);
      assert Parabola(p, q, 0.0) == 0.0 && Parabola(p, q, -1.0) == q - p;
    }
  }

  lemma RampIsParabola(points: seq<Point>, d: real)
    requires |points| >= 2 && Ramped(points, d)
    ensures OnParabola(points, LastPeriod(points) + d / 2.0, d / 2.0)
  {
    hide Ramped, Parabola;
    forall i | 0 <= i < |points|
      ensures var newest, x := points[|points| - 1], (i + 1 - |points|) as real;
              && points[i].X(newest) == x && points[i].run == newest.run
              && points[i].Y(newest) == Parabola(LastPeriod(points) + d / 2.0, d / 2.0, x)
    {
      RampAt(points, d, i);
    }
  }

  // ---- Its sums ----

  /** The sum of the `k`-th powers of the first `m` of `n` pulses, counted back from the newest. */
  function Powers(k: nat, n: int, m: nat): int
  {
    if m == 0 then 0 else Powers(k, n, m - 1) + Power(m - n, k)
  }

  function Power(x: int, k: nat): int { if k == 0 then 1 else x * Power(x, k - 1) }

  function PowerSum(k: nat, n: int, m: nat): real { Powers(k, n, m) as real }

  function ParabolaSums(p: real, q: real, n: int, m: nat): RunSums
  {
    var s1, s2, s3, s4 := PowerSum(1, n, m), PowerSum(2, n, m), PowerSum(3, n, m), PowerSum(4, n, m);
    RunSums(m as real, s1, p * s1 + q * s2, s2, p * s2 + q * s3, (p * p) * s2 + 2.0 * (p * q) * s3 + (q * q) * s4)
  }

  lemma PowersOf(x: int)
    ensures Power(x, 1) == x && Power(x, 2) == x * x && Power(x, 3) == x * (x * x)
            && Power(x, 4) == (x * x) * (x * x)
  {
    assert Power(x, 0) == 1;
    assert Power(x, 2) == x * Power(x, 1);
    assert Power(x, 3) == x * Power(x, 2) == x * (x * x);
    assert Power(x, 4) == x * Power(x, 3);
    assert x * (x * (x * x)) == (x * x) * (x * x);
  }

  lemma PowersAdd(n: int, m: nat)
    requires m >= 1
    ensures var x := (m - n) as real;
            && PowerSum(1, n, m) == PowerSum(1, n, m - 1) + x
            && PowerSum(2, n, m) == PowerSum(2, n, m - 1) + x * x
            && PowerSum(3, n, m) == PowerSum(3, n, m - 1) + x * (x * x)
            && PowerSum(4, n, m) == PowerSum(4, n, m - 1) + (x * x) * (x * x)
  {
    var i, x := m - n, (m - n) as real;
    PowersOf(i);
    RealProduct(i, i);
    RealProduct(i, i * i);
    RealProduct(i * i, i * i);
  }

  lemma RealProduct(a: int, b: int)
    ensures (a * b) as real == a as real * b as real
  {
  }

  lemma SumsAdd(p: real, q: real, n: int, m: nat)
    requires m >= 1
    ensures var x := (m - n) as real;
            ParabolaSums(p, q, n, m) == ParabolaSums(p, q, n, m - 1).Add(x, Parabola(p, q, x))
  {
    hide PowerSum;
    var x := (m - n) as real;
    PowersAdd(n, m);
    ParabolaTimes(p, q, x);
    var s1, s2, s3, s4 := PowerSum(1, n, m - 1), PowerSum(2, n, m - 1), PowerSum(3, n, m - 1), PowerSum(4, n, m - 1);
    var x2, x3, x4 := x * x, x * (x * x), (x * x) * (x * x);
    Distribute(p, s1, x);
    Distribute(q, s2, x2);
    Distribute(p, s2, x2);
    Distribute(q, s3, x3);
    Distribute(p * p, s2, x2);
    Distribute(p * q, s3, x3);
    Distribute(q * q, s4, x4);
  }

  lemma ParabolaTimes(p: real, q: real, x: real)
    ensures var y, x2, x3, x4 := Parabola(p, q, x), x * x, x * (x * x), (x * x) * (x * x);
            && x * y == p * x2 + q * x3
            && y * y == (p * p) * x2 + 2.0 * ((p * q) * x3) + (q * q) * x4
  {
    var a, b := p * x, q * (x * x);
    assert x * a == p * (x * x) && x * b == q * (x * (x * x));
    assert a * a == (p * p) * (x * x);
    assert a * b == (p * q) * (x * (x * x));
    assert b * b == (q * q) * ((x * x) * (x * x));
    assert (a + b) * (a + b) == a * a + 2.0 * (a * b) + b * b;
  }

  lemma Distribute(k: real, a: real, b: real)
    ensures k * (a + b) == k * a + k * b
  {
  }

  lemma {:induction false} SumsOfParabola(points: seq<Point>, p: real, q: real, m: nat)
    requires points != [] && OnParabola(points, p, q) && 1 <= m <= |points|
    ensures Sums(points[..m], points[|points| - 1]) == (NO_POOL, ParabolaSums(p, q, |points|, m))
  {
    hide ParabolaSums, Parabola, RunSums.Add, Sums;
    var newest, n := points[|points| - 1], |points|;
    var x := (m - n) as real;
    SumsNext(points[..m], newest);
    SumsAdd(p, q, n, m);
    assert points[..m][m - 1] == points[m - 1];
    assert points[..m][..m - 1] == points[..m - 1];
    if m == 1 {
      NoSums(p, q, n);
    } else {
      SumsOfParabola(points, p, q, m - 1);
      assert points[..m][m - 2] == points[m - 2];
    }
  }

  lemma NoSums(p: real, q: real, n: int)
    ensures ParabolaSums(p, q, n, 0) == NO_RUN
  {
  }

  // ---- The fits of the whole window and of its newer half ----

  // ---- Sums of powers ----

  /** Sixty times the sum of the `k`-th powers up to `z`, up to a constant. */
  function Total(k: nat, z: int): int
  {
    match k
    case 1 => 30 * (z * z + z)
    case 2 => 10 * (2 * (z * (z * z)) + 3 * (z * z) + z)
    case 3 => 15 * ((z * z) * (z * z) + 2 * (z * (z * z)) + z * z)
    case _ => 2 * (6 * (z * ((z * z) * (z * z))) + 15 * ((z * z) * (z * z)) + 10 * (z * (z * z)) - z)
  }
  lemma SquareBefore(z: int)
    ensures (z - 1) * (z - 1) == z * z - 2 * z + 1
  {
  }

  lemma CubeBefore(z: int)
    ensures (z - 1) * ((z - 1) * (z - 1)) == z * (z * z) - 3 * (z * z) + 3 * z - 1
  {
    var w, w2 := z - 1, (z - 1) * (z - 1);
    SquareBefore(z);
    Times(z, z * z, -2 * z + 1, w2);
    assert z * (-2 * z) == -2 * (z * z);
  }

  /** `w` times what is `a + b`, for the number `w` before `z`. */
  lemma Times(z: int, a: int, b: int, sum: int)
    requires sum == a + b
    ensures (z - 1) * sum == z * a + z * b - a - b
  {
  }

  lemma FourthBefore(z: int)
    ensures var w2, z2 := (z - 1) * (z - 1), z * z;
            w2 * w2 == z2 * z2 - 4 * (z * z2) + 6 * z2 - 4 * z + 1
  {
    var w, z2 := z - 1, z * z;
    var w2, z3 := w * w, z * z2;
    CubeBefore(z);
    assert w2 * w2 == w * (w * w2);
    Times(z, z3, -3 * z2 + 3 * z - 1, w * w2);
    assert z * z3 == z2 * z2;
    assert z * (-3 * z2 + 3 * z - 1) == -3 * z3 + 3 * z2 - z;
  }

  lemma FifthBefore(z: int)
    ensures var w2, z2 := (z - 1) * (z - 1), z * z;
            (z - 1) * (w2 * w2)
            == z * (z2 * z2) - 5 * (z2 * z2) + 10 * (z * z2) - 10 * z2 + 5 * z - 1
  {
    var w, z2 := z - 1, z * z;
    var w2, z3, z4 := w * w, z * z2, z2 * z2;
    FourthBefore(z);
    Times(z, z4, -4 * z3 + 6 * z2 - 4 * z + 1, w2 * w2);
    assert z * z3 == z4;
    FourTerms(z, z3, z2);
  }

  lemma FourTerms(z: int, z3: int, z2: int)
    ensures z * (-4 * z3 + 6 * z2 - 4 * z + 1) == -4 * (z * z3) + 6 * (z * z2) - 4 * (z * z) + z
  {
  }

  lemma TotalAdds(k: nat, z: int)
    requires 1 <= k <= 4
    ensures Total(k, z) == Total(k, z - 1) + 60 * Power(z, k)
  {
    PowersOf(z);
    SquareBefore(z);
    CubeBefore(z);
    FourthBefore(z);
    FifthBefore(z);
  }

  lemma {:induction false} PowersTotal(k: nat, n: int, m: nat)
    requires 1 <= k <= 4
    ensures 60 * Powers(k, n, m) == Total(k, m - n) - Total(k, -n)
  {
    hide Total, Power;
    if m > 0 {
      PowersTotal(k, n, m - 1);
      TotalAdds(k, m - n);
    }
  }

  // ---- The fits of the whole window and of its newer half ----

  lemma PowersOfWindow()
    ensures PowerSum(1, 96, 96) == -4560.0 && PowerSum(2, 96, 96) == 290320.0
    ensures PowerSum(3, 96, 96) == -20793600.0 && PowerSum(4, 96, 96) == 1588572976.0
  {
    hide Powers;
    PowersTotal(1, 96, 96);
    PowersTotal(2, 96, 96);
    PowersTotal(3, 96, 96);
    PowersTotal(4, 96, 96);
  }

  lemma PowersOfHalf()
    ensures PowerSum(1, 48, 48) == -1128.0 && PowerSum(2, 48, 48) == 35720.0
    ensures PowerSum(3, 48, 48) == -1272384.0
  {
    hide Powers;
    PowersTotal(1, 48, 48);
    PowersTotal(2, 48, 48);
    PowersTotal(3, 48, 48);
  }

  /** The mean squared miss of a line through the window, for a parabola of unit curvature. */
  const CURVATURE_COST := 135821728.0 / 3.0

  lemma WindowFit(points: seq<Point>, p: real, q: real)
    requires |points| == 96 && OnParabola(points, p, q)
    ensures FitOf(points).Some?
    ensures var fit := FitOf(points).value;
            fit.b == p - 95.0 * q && fit.n == 96 && fit.runs == 1 && fit.rss == CURVATURE_COST * (q * q)
  {
    hide PowerSum, Sums, OnParabola;
    assert points[..96] == points;
    SumsOfParabola(points, p, q, 96);
    SumsShape(points, points[95]);
    PowersOfWindow();
    var run := ParabolaSums(p, q, 96, 96);
    var pool := NO_POOL.Add(run);
    var b := p - 95.0 * q;
    assert pool.sxx == 73720.0;
    assert pool.sxy == 73720.0 * b;
    QuotientIs(pool.sxy, pool.sxx, b);
    WindowCost(p, q, pool);
  }

  lemma WindowCost(p: real, q: real, pool: Pooled)
    requires pool.sxy == 73720.0 * (p - 95.0 * q)
    requires pool.syy == (p * p) * 290320.0 + 2.0 * (p * q) * -20793600.0 + (q * q) * 1588572976.0
                         - (p * -4560.0 + q * 290320.0) * (p * -4560.0 + q * 290320.0) / 96.0
    ensures pool.syy - (p - 95.0 * q) * pool.sxy == CURVATURE_COST * (q * q)
    ensures CURVATURE_COST * (q * q) >= 0.0
  {
    var pp, pq, qq := p * p, p * q, q * q;
    assert (p - 95.0 * q) * (73720.0 * (p - 95.0 * q)) == 73720.0 * (pp - 190.0 * pq + 9025.0 * qq);
    assert (p * -4560.0 + q * 290320.0) * (p * -4560.0 + q * 290320.0)
        == 20793600.0 * pp - 2647718400.0 * pq + 84285702400.0 * qq;
  }

  lemma HalfFit(points: seq<Point>, p: real, q: real)
    requires |points| == 48 && OnParabola(points, p, q)
    ensures FitOf(points).Some?
    ensures FitOf(points).value.b == p - 47.0 * q && FitOf(points).value.n == 48
  {
    hide PowerSum, Sums, OnParabola;
    assert points[..48] == points;
    SumsOfParabola(points, p, q, 48);
    PowersOfHalf();
    var run := ParabolaSums(p, q, 48, 48);
    var pool := NO_POOL.Add(run);
    var b := p - 47.0 * q;
    assert pool.sxx == 9212.0;
    assert pool.sxy == 9212.0 * b;
    QuotientIs(pool.sxy, pool.sxx, b);
  }

  // ---- The period reported ----

  ghost predicate IsSquareRoot(sqrt: real -> real)
  {
    forall x :: x >= 0.0 ==> sqrt(x) >= 0.0 && sqrt(x) * sqrt(x) == x
  }

  /** The variance of the newer half's slope over the whole's. */
  const SLOPE_SPREAD := 1.0 / 9212.0 - 1.0 / 73720.0

  lemma VariancesOfSlopes()
    ensures SlopeVariance(48.0) == 1.0 / 9212.0 && SlopeVariance(96.0) == 1.0 / 73720.0
  {
  }

  /** Periods that change by at least about 0.0008 samples a pulse. */
  predicate Moves(d: real) { 144.0 * (d * d) > SLOPE_SPREAD }

  lemma LessSquared(x: real, y: real)
    requires x >= 0.0 && y >= 0.0
    ensures x < y <==> x * x < y * y
  {
    if x == y {
    } else if x < y {
      SquareAhead(x, y);
    } else {
      SquareAhead(y, x);
    }
  }

  lemma SquareAhead(x: real, y: real)
    requires 0.0 <= x < y
    ensures x * x < y * y
  {
    var more, sum := y - x, y + x;
    MulPositive(more, sum);
    DifferenceOfSquares(x, y, more, sum);
  }

  lemma DifferenceOfSquares(x: real, y: real, more: real, sum: real)
    requires more == y - x && sum == y + x
    ensures more * sum == y * y - x * x
  {
  }

  /** Four standard deviations of the slope's jitter, against what a ramp makes of it. */
  lemma FourSigmas(q: real, j: real, v: real)
    requires j >= 0.0 && v >= 0.0 && j * j == CURVATURE_COST * (q * q) / 94.0 && v * v == SLOPE_SPREAD
    ensures AbsR(48.0 * q) > 4.0 * (MaxR(j, 0.5) * v) <==> Moves(2.0 * q)
  {
    var m := MaxR(j, 0.5);
    LessSquared(4.0 * (m * v), AbsR(48.0 * q));
    LessSquared(j, 0.5);
    assert (4.0 * (m * v)) * (4.0 * (m * v)) == 16.0 * ((m * m) * SLOPE_SPREAD) by {
      assert (m * v) * (m * v) == (m * m) * (v * v);
    }
    assert AbsR(48.0 * q) * AbsR(48.0 * q) == 2304.0 * (q * q);
    assert (2.0 * q) * (2.0 * q) == 4.0 * (q * q);
    if j < 0.5 {
      assert m * m == 0.25;
    } else {
      assert m * m == j * j >= 0.25;
    }
  }

  lemma RampedTail(points: seq<Point>, d: real, k: nat)
    requires Ramped(points, d) && k + 2 <= |points|
    ensures Ramped(points[k..], d) && LastPeriod(points[k..]) == LastPeriod(points)
  {
    var tail := points[k..];
    forall i | 1 <= i < |tail| ensures Neighbours(tail, i) { assert Neighbours(points, i + k); }
    forall i | 2 <= i < |tail| ensures Longer(tail, i, d) { assert Longer(points, i + k, d); }
  }

  lemma NewerHalf(window: seq<Point>, d: real)
    requires |window| == 96 && Ramped(window, d)
    ensures Newest(window, WINDOW) == window
    ensures var half := Newest(window, WINDOW / 2);
            |half| == 48 && Ramped(half, d) && LastPeriod(half) == LastPeriod(window)
  {
    hide Ramped;
    assert Newest(window, WINDOW / 2) == window[48..];
    RampedTail(window, d, 48);
  }

  /** On a full window of one run, with every period longer than the one before by the same amount (shorter if that is
      negative), the period answered is that of the pulse to come, if the change is above the stated bound; else it
      is the mean of the window's. */
  lemma RampIsFollowed(window: seq<Point>, d: real, sqrt: real -> real)
    requires |window| == 96 && Ramped(window, d) && IsSquareRoot(sqrt)
    ensures var last := LastPeriod(window);
            var period := if Moves(d) then last + d else last - 47.0 * d;
            PeriodOf(window, sqrt) == if period > 0.0 then Some(period) else None
  {
    hide FitOf, Ramped, OnParabola, Newest, SlopeVariance, Moves, IsSquareRoot;
    var p, q := LastPeriod(window) + d / 2.0, d / 2.0;
    NewerHalf(window, d);
    var points := Newest(window, WINDOW / 2);
    RampIsParabola(window, d);
    RampIsParabola(points, d);
    WindowFit(window, p, q);
    HalfFit(points, p, q);
    VariancesOfSlopes();
    var full, half := FitOf(window).value, FitOf(points).value;
    var j, v := sqrt(full.rss / 94.0), sqrt(SLOPE_SPREAD);
    IsRootAt(sqrt, full.rss / 94.0);
    IsRootAt(sqrt, SLOPE_SPREAD);
    FourSigmas(q, j, v);
    assert half.b - full.b == 48.0 * q && 2.0 * q == d;
  }

  lemma IsRootAt(sqrt: real -> real, x: real)
    requires IsSquareRoot(sqrt) && x >= 0.0
    ensures sqrt(x) >= 0.0 && sqrt(x) * sqrt(x) == x
  {
  }
}
