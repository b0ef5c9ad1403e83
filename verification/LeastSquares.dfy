/** The tempo fit of the MIDI clock follower: one slope shared by all runs of pulses, one
    intercept for each. */
module LeastSquares {
  import opened Numbers

  /** One pulse: its index, its timestamp, and the run it belongs to. */
  datatype Point = Point(index: nat, sample: real, run: nat)
  {
    function X(origin: Point): real { index as real - origin.index as real }

    function Y(origin: Point): real { sample - origin.sample }
  }

  /** Sums over one run. */
  datatype RunSums = RunSums(n: real, sx: real, sy: real, sxx: real, sxy: real, syy: real)
  {
    function Add(x: real, y: real): RunSums
    {
      RunSums(n + 1.0, sx + x, sy + y, sxx + x * x, sxy + x * y, syy + y * y)
    }
  }

  const NO_RUN := RunSums(0.0, 0.0, 0.0, 0.0, 0.0, 0.0)

  /** Within-run variances and covariances, pooled over the runs closed so far. */
  datatype Pooled = Pooled(sxx: real, sxy: real, syy: real, runs: nat)
  {
    function Add(run: RunSums): Pooled
    {
      if run.n > 0.0 then
        Pooled(sxx + (run.sxx - run.sx * run.sx / run.n), sxy + (run.sxy - run.sx * run.sy / run.n),
               syy + (run.syy - run.sy * run.sy / run.n), runs + 1)
      else this
    }
  }

  const NO_POOL := Pooled(0.0, 0.0, 0.0, 0)

  datatype Fit = Fit(newest: nat, origin: real, run: nat, a: real, b: real, rss: real, n: nat, runs: nat)

  /** The last point begins a run. */
  predicate Begins(points: seq<Point>)
    requires points != []
  {
    |points| == 1 || points[|points| - 2].run != points[|points| - 1].run
  }

  /** One pass over the points: the pool of the runs closed, and the sums of the open one. */
  function Sums(points: seq<Point>, origin: Point): (Pooled, RunSums)
  {
    if points == [] then (NO_POOL, NO_RUN)
    else
      var (pool, run) := Sums(points[..|points| - 1], origin);
      var p := points[|points| - 1];
      if Begins(points) then (pool.Add(run), NO_RUN.Add(p.X(origin), p.Y(origin)))
      else (pool, run.Add(p.X(origin), p.Y(origin)))
  }

  function BestIntercept(r: RunSums, b: real): real
    requires r.n > 0.0
  {
    (r.sy - b * r.sx) / r.n
  }

  function BestSlope(p: Pooled): real
    requires p.sxx > 0.0
  {
    p.sxy / p.sxx
  }

  /** The pooled squared error of the best slope. */
  function PoolMinimum(p: Pooled): real
    requires p.sxx > 0.0
  {
    p.syy - BestSlope(p) * p.sxy
  }

  function FitOf(points: seq<Point>): (fit: Option<Fit>)
    requires points != []
    ensures fit.Some? ==> fit.value.n == |points|
  {
    var newest := points[|points| - 1];
    var (closed, run) := Sums(points, newest);
    var pool := closed.Add(run);
    SumsShape(points, newest);
    if pool.sxx <= 0.0 then None
    else
      var b := BestSlope(pool);
      Some(Fit(newest.index, newest.sample, newest.run, BestIntercept(run, b), b,
               MaxR(PoolMinimum(pool), 0.0), |points|, pool.runs))
  }

  // ---- The cost of a line ----

  /** How many runs the points form. */
  function Runs(points: seq<Point>): (n: nat)
    ensures n <= |points| && (points != [] ==> n >= 1)
  {
    if points == [] then 0 else Runs(points[..|points| - 1]) + if Begins(points) then 1 else 0
  }

  function Times(x: real, y: real): real { x * y }

  lemma SignOfTimes(x: real, y: real)
    ensures (x > 0.0 && y > 0.0) || (x < 0.0 && y < 0.0) ==> Times(x, y) > 0.0
    ensures x == 0.0 || y == 0.0 ==> Times(x, y) == 0.0
  {
  }

  function Square(x: real): (r: real)
    ensures r >= 0.0 && (r == 0.0 <==> x == 0.0)
  {
    SignOfTimes(x, x);
    Times(x, x)
  }

  /** The squared miss of a line at one pulse. */
  function Miss(x: real, y: real, b: real, a: real): (r: real)
    ensures r >= 0.0
  {
    Square(y - a - b * x)
  }

  /** The squared error of slope `b` with intercept `a[k]` for the `k`-th run. */
  function Cost(points: seq<Point>, origin: Point, b: real, a: seq<real>): (c: real)
    requires |a| >= Runs(points)
    ensures c >= 0.0
  {
    if points == [] then 0.0
    else
      var p := points[|points| - 1];
      Cost(points[..|points| - 1], origin, b, a) + Miss(p.X(origin), p.Y(origin), b, a[Runs(points) - 1])
  }

  function PoolCost(p: Pooled, b: real): real { p.syy - 2.0 * b * p.sxy + b * b * p.sxx }

  function RunCost(r: RunSums, b: real, a: real): real
  {
    r.syy + r.n * a * a + b * b * r.sxx - 2.0 * a * r.sy - 2.0 * b * r.sxy + 2.0 * a * b * r.sx
  }

  lemma RunCostAdds(r: RunSums, b: real, a: real, x: real, y: real)
    ensures RunCost(r.Add(x, y), b, a) == RunCost(r, b, a) + Miss(x, y, b, a)
  {
    var bx := b * x;
    assert Square(y - a - bx) == y * y + a * a + bx * bx - 2.0 * a * y - 2.0 * bx * y + 2.0 * a * bx;
    assert bx * bx == b * b * (x * x);
    assert bx * y == b * (x * y);
    assert a * bx == a * b * x;
    assert (r.n + 1.0) * a * a == r.n * a * a + a * a;
    assert b * b * (r.sxx + x * x) == b * b * r.sxx + b * b * (x * x);
    assert 2.0 * b * (r.sxy + x * y) == 2.0 * b * r.sxy + 2.0 * b * (x * y);
    assert 2.0 * a * b * (r.sx + x) == 2.0 * a * b * r.sx + 2.0 * a * b * x;
  }

  /** What an intercept costs a run over its best one. */
  function RunExcess(r: RunSums, b: real, a: real): (e: real)
    requires r.n > 0.0
    ensures e >= 0.0 && (a == BestIntercept(r, b) ==> e == 0.0)
  {
    MulNonNegative(r.n, Square(a - BestIntercept(r, b)));
    r.n * Square(a - BestIntercept(r, b))
  }

  /** What a slope costs over the best one. */
  function SlopeExcess(p: Pooled, b: real): (e: real)
    requires p.sxx > 0.0
    ensures e >= 0.0 && (e == 0.0 <==> b == BestSlope(p))
  {
    var d := b - BestSlope(p);
    if d != 0.0 then
      MulPositive(p.sxx, Square(d));
      p.sxx * Square(d)
    else 0.0
  }

  lemma MulNonNegative(x: real, y: real)
    requires x >= 0.0 && y >= 0.0
    ensures x * y >= 0.0
  {
  }

  lemma MulPositive(x: real, y: real)
    requires x > 0.0 && y > 0.0
    ensures x * y > 0.0
  {
  }

  /** Closing a run leaves the cost of its best intercept. */
  lemma RunCloses(p: Pooled, r: RunSums, b: real, a: real)
    requires r.n > 0.0
    ensures PoolCost(p, b) + RunCost(r, b, a)
            == PoolCost(p.Add(r), b) + RunExcess(r, b, a)
  {
    var mx, my := r.sx / r.n, r.sy / r.n;
    MeanForm(r, b, mx, my);
    var d := a - my + b * mx;
    assert a - BestIntercept(r, b) == d;
    SquareOfThree(a, my, b * mx);
    assert r.n * Square(d) == r.n * a * a + r.n * my * my + r.n * (b * mx) * (b * mx)
                              - 2.0 * r.n * a * my + 2.0 * r.n * a * (b * mx) - 2.0 * r.n * my * (b * mx);
    assert r.n * (b * mx) * (b * mx) == b * b * (r.n * mx * mx);
    assert r.n * my * (b * mx) == b * (r.n * mx * my);
    assert r.n * a * (b * mx) == a * b * (r.n * mx);
    assert r.n * a * my == a * (r.n * my);
    PoolAdds(p, r, b, mx, my);
  }

  lemma SquareOfThree(a: real, m: real, c: real)
    ensures Square(a - m + c) == a * a + m * m + c * c - 2.0 * a * m + 2.0 * a * c - 2.0 * m * c
  {
  }

  lemma MeanForm(r: RunSums, b: real, mx: real, my: real)
    requires r.n > 0.0 && mx == r.sx / r.n && my == r.sy / r.n
    ensures r.sx == r.n * mx && r.sy == r.n * my
    ensures r.sx * r.sx / r.n == r.n * mx * mx && r.sx * r.sy / r.n == r.n * mx * my
            && r.sy * r.sy / r.n == r.n * my * my
    ensures (r.sy - b * r.sx) / r.n == my - b * mx
  {
    Quotient(r.sx, r.n, mx);
    Quotient(r.sy, r.n, my);
    QuotientIs(r.sx * r.sx, r.n, r.n * mx * mx);
    QuotientIs(r.sx * r.sy, r.n, r.n * mx * my);
    QuotientIs(r.sy * r.sy, r.n, r.n * my * my);
    QuotientIs(r.sy - b * r.sx, r.n, my - b * mx);
  }

  lemma Quotient(x: real, d: real, q: real)
    requires d != 0.0 && q == x / d
    ensures x == d * q
  {
  }

  lemma QuotientIs(x: real, d: real, q: real)
    requires d != 0.0 && x == d * q
    ensures x / d == q
  {
  }

  lemma PoolAdds(p: Pooled, r: RunSums, b: real, mx: real, my: real)
    requires r.n > 0.0
    requires r.sx * r.sx / r.n == r.n * mx * mx && r.sx * r.sy / r.n == r.n * mx * my
             && r.sy * r.sy / r.n == r.n * my * my
    ensures PoolCost(p.Add(r), b)
            == PoolCost(p, b) + (r.syy - r.n * my * my) - 2.0 * b * (r.sxy - r.n * mx * my)
               + b * b * (r.sxx - r.n * mx * mx)
  {
  }

  lemma SumsNext(points: seq<Point>, origin: Point)
    requires |points| >= 1
    ensures var p := points[|points| - 1];
            var (x, y) := (p.X(origin), p.Y(origin));
            var (pool, run) := Sums(points[..|points| - 1], origin);
            Sums(points, origin)
            == if |points| == 1 then (NO_POOL, NO_RUN.Add(x, y))
               else if Begins(points) then (pool.Add(run), NO_RUN.Add(x, y)) else (pool, run.Add(x, y))
  {
    if |points| == 1 { assert points[..0] == []; }
  }

  lemma {:induction false} SumsShape(points: seq<Point>, origin: Point)
    requires points != []
    ensures var (pool, run) := Sums(points, origin);
            run.n >= 1.0 && pool.runs == Runs(points) - 1
  {
    if |points| > 1 { SumsShape(points[..|points| - 1], origin); }
  }

  lemma {:induction false} CostExtends(points: seq<Point>, origin: Point, b: real, a: seq<real>, v: real)
    requires |a| >= Runs(points)
    ensures Cost(points, origin, b, a + [v]) == Cost(points, origin, b, a)
  {
    hide Square;
    if points != [] {
      CostExtends(points[..|points| - 1], origin, b, a, v);
    }
  }

  /** No intercepts beat the pooled minimum of the closed runs. */
  lemma {:induction false} CostAtLeast(points: seq<Point>, origin: Point, b: real, a: seq<real>)
    requires points != [] && |a| >= Runs(points)
    ensures var (pool, run) := Sums(points, origin);
            Cost(points, origin, b, a) >= PoolCost(pool, b) + RunCost(run, b, a[Runs(points) - 1])
  {
    hide PoolCost, RunCost, Miss, RunExcess, BestIntercept;
    var front, p := points[..|points| - 1], points[|points| - 1];
    var x, y := p.X(origin), p.Y(origin);
    var a' := a[Runs(points) - 1];
    if |points| == 1 {
      assert front == [];
      RunCostAdds(NO_RUN, b, a', x, y);
      NothingCosts(b, a');
    } else {
      CostAtLeast(front, origin, b, a);
      SumsShape(front, origin);
      var (pool, run) := Sums(front, origin);
      if Begins(points) {
        RunCloses(pool, run, b, a[Runs(front) - 1]);
        RunCostAdds(NO_RUN, b, a', x, y);
        NothingCosts(b, a');
      } else {
        RunCostAdds(run, b, a', x, y);
      }
    }
  }

  lemma NothingCosts(b: real, a: real)
    ensures RunCost(NO_RUN, b, a) == 0.0 && PoolCost(NO_POOL, b) == 0.0 && NO_POOL.Add(NO_RUN) == NO_POOL
  {
  }

  /** Intercepts that reach it, with any intercept for the open run. */
  lemma {:induction false} CostReached(points: seq<Point>, origin: Point, b: real, v: real) returns (a: seq<real>)
    requires points != []
    ensures |a| == Runs(points) && a[|a| - 1] == v
    ensures var (pool, run) := Sums(points, origin);
            Cost(points, origin, b, a) == PoolCost(pool, b) + RunCost(run, b, v)
  {
    hide PoolCost, RunCost, Miss, RunExcess, BestIntercept;
    var front, p := points[..|points| - 1], points[|points| - 1];
    var x, y := p.X(origin), p.Y(origin);
    NothingCosts(b, v);
    RunCostAdds(NO_RUN, b, v, x, y);
    if |points| == 1 {
      assert front == [];
      a := [v];
    } else {
      SumsShape(front, origin);
      var (pool, run) := Sums(front, origin);
      if Begins(points) {
        var mean := BestIntercept(run, b);
        var a' := CostReached(front, origin, b, mean);
        a := a' + [v];
        CostExtends(front, origin, b, a', v);
        RunCloses(pool, run, b, mean);
      } else {
        a := CostReached(front, origin, b, v);
        RunCostAdds(run, b, v, x, y);
      }
    }
  }

  /** The pooled cost of slope `b` exceeds that of the best slope by a square. */
  lemma PoolCostAround(p: Pooled, b: real, best: real)
    requires p.sxx > 0.0 && best == BestSlope(p)
    ensures PoolCost(p, b) == PoolMinimum(p) + SlopeExcess(p, b)
  {
    Quotient(p.sxy, p.sxx, best);
    var d := b - best;
    assert p.sxx * Square(d) == p.sxx * b * b - 2.0 * p.sxx * b * best + p.sxx * best * best;
    assert p.sxx * b * best == b * (p.sxx * best);
    assert p.sxx * best * best == best * (p.sxx * best);
  }

  lemma FitShape(points: seq<Point>)
    requires points != [] && FitOf(points).Some?
    ensures var (closed, run) := Sums(points, points[|points| - 1]);
            var pool, fit := closed.Add(run), FitOf(points).value;
            && run.n > 0.0 && pool.sxx > 0.0 && fit.b == BestSlope(pool) && fit.a == BestIntercept(run, fit.b)
            && fit.rss == MaxR(PoolMinimum(pool), 0.0) && fit.n == |points| && fit.runs == Runs(points)
  {
    hide Runs, Sums, BestSlope, BestIntercept, PoolMinimum;
    SumsShape(points, points[|points| - 1]);
  }

  lemma FitReached(points: seq<Point>) returns (best: seq<real>)
    requires points != [] && FitOf(points).Some?
    ensures var fit, origin := FitOf(points).value, points[|points| - 1];
            |best| == Runs(points) && best[|best| - 1] == fit.a && Cost(points, origin, fit.b, best) == fit.rss
    ensures var (closed, run) := Sums(points, points[|points| - 1]);
            var pool := closed.Add(run); pool.sxx > 0.0 && PoolMinimum(pool) >= 0.0
  {
    hide PoolCost, RunCost, Cost, Runs, Sums, RunExcess, SlopeExcess, FitOf, Pooled.Add, BestIntercept, BestSlope,
         PoolMinimum;
    var origin, fit := points[|points| - 1], FitOf(points).value;
    var (closed, run) := Sums(points, origin);
    FitShape(points);
    best := CostReached(points, origin, fit.b, fit.a);
    RunCloses(closed, run, fit.b, fit.a);
    PoolCostAround(closed.Add(run), fit.b, fit.b);
  }

  lemma FitBeatsAll(points: seq<Point>, b: real, a: seq<real>)
    requires points != [] && FitOf(points).Some? && |a| == Runs(points)
    ensures var fit, origin := FitOf(points).value, points[|points| - 1];
            Cost(points, origin, b, a) >= fit.rss && (Cost(points, origin, b, a) == fit.rss ==> b == fit.b)
  {
    hide PoolCost, RunCost, Cost, Runs, Sums, RunExcess, SlopeExcess, FitOf, Pooled.Add, BestIntercept, BestSlope,
         PoolMinimum;
    var origin, fit := points[|points| - 1], FitOf(points).value;
    var (closed, run) := Sums(points, origin);
    FitShape(points);
    var best := FitReached(points);
    CostAtLeast(points, origin, b, a);
    RunCloses(closed, run, b, a[Runs(points) - 1]);
    PoolCostAround(closed.Add(run), b, fit.b);
  }

  /** What the one-pass sums give: the slope that minimises the squared error over all slopes
      and all intercepts of every run; no other slope reaches the minimum; `rss` is that
      minimum; and `a` is the newest run's intercept of a minimising line. */
  lemma FitIsLeastSquares(points: seq<Point>, b: real, a: seq<real>)
    requires points != [] && FitOf(points).Some? && |a| == Runs(points)
    ensures var fit, origin := FitOf(points).value, points[|points| - 1];
            && Cost(points, origin, b, a) >= fit.rss
            && (Cost(points, origin, b, a) == fit.rss ==> b == fit.b)
            && exists best: seq<real> ::
                 |best| == Runs(points) && best[|best| - 1] == fit.a && Cost(points, origin, fit.b, best) == fit.rss
  {
    hide Cost, Runs, FitOf;
    FitBeatsAll(points, b, a);
    var best := FitReached(points);
  }

  // ---- When there is a fit ----

  predicate Increasing(points: seq<Point>) { forall i :: 1 <= i < |points| ==> points[i - 1].index < points[i].index }

  /** One more pulse beyond the others widens a run. */
  lemma SpreadGrows(r: RunSums, x: real, y: real)
    requires r.n >= 1.0 && r.sxx - r.sx * r.sx / r.n >= 0.0 && r.sx < r.n * x
    ensures var r' := r.Add(x, y); r'.sxx - r'.sx * r'.sx / r'.n > 0.0
  {
    var n, n', mx := r.n, r.n + 1.0, r.sx / r.n;
    Quotient(r.sx, n, mx);
    QuotientIs(r.sx * r.sx, n, n * mx * mx);
    var e := (x - mx) / n';
    Quotient(x - mx, n', e);
    // The new mean lies `e` beyond the old one.
    var m' := mx + e;
    assert r.sx + x == n' * m';
    QuotientIs((r.sx + x) * (r.sx + x), n', n' * m' * m');
    SpreadIdentity(n, mx, e);
    assert n * (x - mx) > 0.0;
    assert x - mx > 0.0;
    DividePositive(x - mx, n');
    assert n * e > 0.0;
    assert n' * e > 0.0;
    assert n * e * (n' * e) > 0.0;
  }

  lemma DividePositive(x: real, d: real)
    requires x > 0.0 && d > 0.0
    ensures x / d > 0.0
  {
  }

  lemma SpreadIdentity(n: real, m: real, e: real)
    ensures var x, m' := m + (n + 1.0) * e, m + e;
            n * m * m + x * x - (n + 1.0) * m' * m' == n * e * ((n + 1.0) * e)
  {
    var k := n + 1.0;
    assert (m + k * e) * (m + k * e) == m * m + 2.0 * k * e * m + k * e * (k * e);
    assert (m + e) * (m + e) == m * m + 2.0 * e * m + e * e;
    assert k * (m + e) * (m + e) == k * (m * m + 2.0 * e * m + e * e);
    assert k * (m * m + 2.0 * e * m + e * e) == k * m * m + 2.0 * k * e * m + k * e * e;
    assert k * e * (k * e) - k * e * e == n * e * (k * e);
  }

  /** A run's deviations: none for a single pulse, positive for more; no pulse lies beyond `last`. */
  ghost predicate Spread(r: RunSums, last: real)
  {
    r.n >= 1.0 && r.sx <= r.n * last &&
    var spread := r.sxx - r.sx * r.sx / r.n;
    if r.n == 1.0 then spread == 0.0 else spread > 0.0
  }

  lemma SpreadOfOne(x: real, y: real)
    ensures Spread(NO_RUN.Add(x, y), x)
  {
  }

  lemma SpreadOfMore(r: RunSums, last: real, x: real, y: real)
    requires Spread(r, last) && last < x
    ensures Spread(r.Add(x, y), x)
  {
    assert r.n * last < r.n * x;
    SpreadGrows(r, x, y);
  }

  lemma PoolSpread(p: Pooled, r: RunSums, last: real)
    requires p.sxx >= 0.0 && Spread(r, last)
    ensures p.Add(r).sxx >= 0.0
    ensures p.Add(r).sxx > 0.0 <==> !(r.n == 1.0 && p.sxx == 0.0)
  {
  }

  lemma {:induction false} SpreadsPositive(points: seq<Point>, origin: Point)
    requires points != [] && Increasing(points)
    ensures var (pool, run) := Sums(points, origin);
            && Spread(run, points[|points| - 1].X(origin)) && pool.sxx >= 0.0
            && (|points| == Runs(points) <==> run.n == 1.0 && pool.sxx == 0.0)
            && (|points| > Runs(points) <==> pool.Add(run).sxx > 0.0)
  {
    hide Spread, RunSums.Add, Pooled.Add;
    var front, p := points[..|points| - 1], points[|points| - 1];
    var x, y := p.X(origin), p.Y(origin);
    SpreadOfOne(x, y);
    SumsCount(points, origin);
    if |points| == 1 {
      assert front == [];
      EmptyPool();
      PoolSpread(NO_POOL.Add(NO_RUN), NO_RUN.Add(x, y), x);
    } else {
      assert Increasing(front);
      SpreadsPositive(front, origin);
      SumsCount(front, origin);
      var (pool, run) := Sums(front, origin);
      var last := front[|front| - 1].X(origin);
      assert points[|points| - 2].index < p.index;
      PoolSpread(pool, run, last);
      if Begins(points) {
        PoolSpread(pool.Add(run), NO_RUN.Add(x, y), x);
      } else {
        SpreadOfMore(run, last, x, y);
        PoolSpread(pool, run.Add(x, y), x);
      }
    }
  }

  lemma EmptyPool()
    ensures NO_POOL.Add(NO_RUN).sxx == 0.0
  {
  }

  lemma {:induction false} SumsCount(points: seq<Point>, origin: Point)
    requires points != []
    ensures var run := Sums(points, origin).1;
            run.n >= 1.0 && (Begins(points) ==> run.n == 1.0) && (!Begins(points) ==> run.n >= 2.0)
  {
    if |points| > 1 { SumsCount(points[..|points| - 1], origin); }
  }

  /** There is a fit exactly if some run holds two pulses. */
  lemma FitExists(points: seq<Point>)
    requires points != [] && Increasing(points)
    ensures FitOf(points).Some? <==> |points| > Runs(points)
  {
    hide Sums, Runs, Spread;
    var origin := points[|points| - 1];
    SpreadsPositive(points, origin);
    SumsShape(points, origin);
  }
}
