/** The radix-2 Fourier transform of the analysis, in place. */
module Fourier {
  import opened Numbers
  import opened Bits
  import opened BitReversals

  // ---- Complex numbers ----

  datatype Complex = Complex(re: real, im: real)
  {
    function Plus(z: Complex): Complex { Complex(re + z.re, im + z.im) }

    function Minus(z: Complex): Complex { Complex(re - z.re, im - z.im) }

    function Times(z: Complex): Complex { Complex(re * z.re - im * z.im, re * z.im + im * z.re) }

    function Negated(): Complex { Complex(-re, -im) }
  }

  const ZERO := Complex(0.0, 0.0)
  const ONE := Complex(1.0, 0.0)
  const MINUS_ONE := Complex(-1.0, 0.0)

  function Power(z: Complex, k: nat): Complex
  {
    if k == 0 then ONE else Power(z, k - 1).Times(z)
  }

  lemma TimesCommutes(a: Complex, b: Complex)
    ensures a.Times(b) == b.Times(a)
  {
  }

  lemma TimesAssociates(a: Complex, b: Complex, c: Complex)
    ensures a.Times(b).Times(c) == a.Times(b.Times(c))
  {
    assert (a.re * b.re - a.im * b.im) * c.re == a.re * (b.re * c.re) - a.im * (b.im * c.re);
    assert (a.re * b.im + a.im * b.re) * c.im == a.re * (b.im * c.im) + a.im * (b.re * c.im);
    assert (a.re * b.re - a.im * b.im) * c.im == a.re * (b.re * c.im) - a.im * (b.im * c.im);
    assert (a.re * b.im + a.im * b.re) * c.re == a.re * (b.im * c.re) + a.im * (b.re * c.re);
    assert a.re * (b.re * c.re - b.im * c.im) == a.re * (b.re * c.re) - a.re * (b.im * c.im);
    assert a.im * (b.re * c.im + b.im * c.re) == a.im * (b.re * c.im) + a.im * (b.im * c.re);
    assert a.re * (b.re * c.im + b.im * c.re) == a.re * (b.re * c.im) + a.re * (b.im * c.re);
    assert a.im * (b.re * c.re - b.im * c.im) == a.im * (b.re * c.re) - a.im * (b.im * c.im);
  }

  lemma TimesDistributes(a: Complex, b: Complex, c: Complex)
    ensures a.Times(b.Plus(c)) == a.Times(b).Plus(a.Times(c))
  {
    assert a.re * (b.re + c.re) == a.re * b.re + a.re * c.re;
    assert a.im * (b.im + c.im) == a.im * b.im + a.im * c.im;
    assert a.re * (b.im + c.im) == a.re * b.im + a.re * c.im;
    assert a.im * (b.re + c.re) == a.im * b.re + a.im * c.re;
  }

  lemma TimesOne(a: Complex)
    ensures a.Times(ONE) == a && ONE.Times(a) == a && ZERO.Times(a) == ZERO
    ensures MINUS_ONE.Times(a) == a.Negated() && a.Times(MINUS_ONE) == a.Negated()
  {
  }

  lemma {:induction false} PowerAdds(z: Complex, a: nat, b: nat)
    ensures Power(z, a + b) == Power(z, a).Times(Power(z, b))
    decreases b
  {
    hide Complex.Times;
    if b == 0 {
      TimesOne(Power(z, a));
    } else {
      PowerAdds(z, a, b - 1);
      TimesAssociates(Power(z, a), Power(z, b - 1), z);
    }
  }

  lemma {:induction false} PowerOfPower(z: Complex, a: nat, b: nat)
    ensures Power(z, a * b) == Power(Power(z, a), b)
    decreases b
  {
    hide Complex.Times;
    if b == 0 {
      assert a * b == 0;
    } else {
      PowerOfPower(z, a, b - 1);
      PowerAdds(z, a * (b - 1), a);
      assert a * b == a * (b - 1) + a;
    }
  }

  lemma PowerTwo(z: Complex)
    ensures Power(z, 2) == z.Times(z)
  {
    hide Complex.Times;
    TimesOne(z);
    assert Power(z, 1) == ONE.Times(z);
  }

  // ---- The discrete Fourier transform ----

  /** The sum of `x[j] * w^(j * k)` over the first `n` entries. */
  function DftSum(x: seq<Complex>, w: Complex, k: nat, n: nat): Complex
    requires n <= |x|
  {
    if n == 0 then ZERO else DftSum(x, w, k, n - 1).Plus(x[n - 1].Times(Power(w, (n - 1) * k)))
  }

  function Dft(x: seq<Complex>, w: Complex): seq<Complex>
  {
    seq(|x|, k requires 0 <= k => DftSum(x, w, k, |x|))
  }

  /** A polynomial at a point. */
  function Eval(x: seq<Complex>, z: Complex): Complex
  {
    if x == [] then ZERO else x[0].Plus(z.Times(Eval(x[1..], z)))
  }

  lemma {:induction false} EvalLast(x: seq<Complex>, z: Complex)
    requires x != []
    ensures Eval(x, z) == Eval(x[..|x| - 1], z).Plus(x[|x| - 1].Times(Power(z, |x| - 1)))
  {
    hide Complex.Times;
    var last := x[|x| - 1];
    if |x| == 1 {
      assert x[1..] == [] && x[..0] == [];
      TimesOne(last);
      TimesOne(z);
      TimesCommutes(z, ZERO);
    } else {
      var y := x[1..];
      EvalLast(y, z);
      assert y[..|y| - 1] == x[..|x| - 1][1..];
      var p := Power(z, |y| - 1);
      TimesDistributes(z, Eval(y[..|y| - 1], z), last.Times(p));
      TimesCommutes(last, p);
      TimesAssociates(z, p, last);
      TimesCommutes(z, p);
      TimesCommutes(p.Times(z), last);
    }
  }

  lemma {:induction false} DftSumIsEval(x: seq<Complex>, w: Complex, k: nat, n: nat)
    requires n <= |x|
    ensures DftSum(x, w, k, n) == Eval(x[..n], Power(w, k))
    decreases n
  {
    hide Complex.Times;
    if n > 0 {
      DftSumIsEval(x, w, k, n - 1);
      EvalLast(x[..n], Power(w, k));
      assert x[..n][..n - 1] == x[..n - 1];
      PowerOfPower(w, k, n - 1);
      assert k * (n - 1) == (n - 1) * k;
    }
  }

  /** The transform evaluates the signal's polynomial at the powers of `w`. */
  lemma DftIsEval(x: seq<Complex>, w: Complex, k: nat)
    requires k < |x|
    ensures Dft(x, w)[k] == Eval(x, Power(w, k))
  {
    DftSumIsEval(x, w, k, |x|);
    assert x[..|x|] == x;
  }

  // ---- Even and odd halves ----

  function Evens(x: seq<Complex>): (e: seq<Complex>)
    ensures |e| == (|x| + 1) / 2
    ensures forall i :: 0 <= i < |e| ==> e[i] == x[2 * i]
  {
    seq((|x| + 1) / 2, i requires 0 <= i < (|x| + 1) / 2 => x[2 * i])
  }

  function Odds(x: seq<Complex>): (o: seq<Complex>)
    ensures |o| == |x| / 2
    ensures forall i :: 0 <= i < |o| ==> o[i] == x[2 * i + 1]
  {
    seq(|x| / 2, i requires 0 <= i < |x| / 2 => x[2 * i + 1])
  }

  /** A polynomial splits into its even and odd parts at the square. */
  lemma {:induction false} EvalSplits(x: seq<Complex>, z: Complex)
    requires |x| % 2 == 0
    ensures Eval(x, z) == Eval(Evens(x), z.Times(z)).Plus(z.Times(Eval(Odds(x), z.Times(z))))
    decreases |x|
  {
    hide Complex.Times;
    if |x| == 0 {
      assert Evens(x) == [] && Odds(x) == [];
      TimesCommutes(z, ZERO);
      TimesOne(z);
    } else {
      var y, zz := x[2..], z.Times(z);
      EvalSplits(y, z);
      assert Evens(x)[1..] == Evens(y) && Odds(x)[1..] == Odds(y);
      assert x[1..][1..] == y;
      SplitStep(x[0], x[1], z, Eval(Evens(y), zz), Eval(Odds(y), zz));
    }
  }

  lemma SplitStep(a: Complex, b: Complex, z: Complex, e: Complex, o: Complex)
    ensures a.Plus(z.Times(b.Plus(z.Times(e.Plus(z.Times(o))))))
            == a.Plus(z.Times(z).Times(e)).Plus(z.Times(b.Plus(z.Times(z).Times(o))))
  {
    hide Complex.Times;
    var zz := z.Times(z);
    TimesDistributes(z, b, z.Times(e.Plus(z.Times(o))));
    TimesAssociates(z, z, e.Plus(z.Times(o)));
    TimesDistributes(zz, e, z.Times(o));
    TimesDistributes(z, b, zz.Times(o));
    TimesAssociates(zz, z, o);
    TimesAssociates(z, zz, o);
    TimesCommutes(zz, z);
  }

  // ---- Decimation in time ----

  /** Joins the transforms of the even and the odd half. */
  function Merge(e: seq<Complex>, o: seq<Complex>, w: Complex): (r: seq<Complex>)
    requires |e| == |o|
    ensures |r| == 2 * |e|
  {
    seq(2 * |e|, i requires 0 <= i < 2 * |e| =>
      if i < |e| then e[i].Plus(o[i].Times(Power(w, i)))
      else e[i - |e|].Minus(o[i - |e|].Times(Power(w, i - |e|))))
  }

  /** What the butterflies make of one block of `2^s` entries. */
  function Transform(s: nat, b: seq<Complex>, w: nat -> Complex): (r: seq<Complex>)
    requires |b| == Pow2(s)
    ensures |r| == |b|
    decreases s
  {
    if s == 0 then b
    else
      var half := Pow2(s - 1);
      Merge(Transform(s - 1, b[..half], w), Transform(s - 1, b[half..], w), w(2 * half))
  }

  function Reversed(k: nat, x: seq<Complex>): (r: seq<Complex>)
    requires |x| == Pow2(k)
    ensures |r| == |x|
  {
    seq(|x|, i requires 0 <= i < |x| => x[Rev(k, i)])
  }

  predicate Squares(w: nat -> Complex, m: nat) { w(2 * m).Times(w(2 * m)) == w(m) }

  /** `w(n)` is the first `n`-th root of unity, as far as the transform needs to know. */
  ghost predicate Twiddles(w: nat -> Complex)
  {
    w(2) == MINUS_ONE && forall m: nat :: m >= 2 ==> Squares(w, m)
  }

  lemma {:induction false} HalfTurn(w: nat -> Complex, k: nat)
    requires Twiddles(w) && k >= 1
    ensures Power(w(Pow2(k)), Pow2(k - 1)) == MINUS_ONE
    decreases k
  {
    hide Complex.Times;
    if k == 1 {
      assert Pow2(0) == 1 && Pow2(1) == 2;
      assert Power(w(2), 1) == ONE.Times(w(2));
      TimesOne(w(2));
    } else {
      var z, m := w(Pow2(k)), Pow2(k - 1);
      assert m == 2 * Pow2(k - 2);
      assert Squares(w, m);
      HalfTurn(w, k - 1);
      PowerOfPower(z, 2, Pow2(k - 2));
      PowerTwo(z);
    }
  }

  lemma ReversedHalves(k: nat, x: seq<Complex>)
    requires k >= 1 && |x| == Pow2(k)
    ensures var half := Pow2(k - 1);
            && Reversed(k, x)[..half] == Reversed(k - 1, Evens(x))
            && Reversed(k, x)[half..] == Reversed(k - 1, Odds(x))
  {
    hide Reversed;
    var half := Pow2(k - 1);
    forall i | 0 <= i < half
      ensures Reversed(k, x)[i] == Reversed(k - 1, Evens(x))[i]
    {
      ReversedAt(k, x, i);
    }
    forall i | 0 <= i < half
      ensures Reversed(k, x)[half..][i] == Reversed(k - 1, Odds(x))[i]
    {
      ReversedAt(k, x, half + i);
    }
  }

  lemma ReversedAt(k: nat, x: seq<Complex>, i: nat)
    requires k >= 1 && i < |x| == Pow2(k)
    ensures var half := Pow2(k - 1);
            Reversed(k, x)[i] == if i < half then Reversed(k - 1, Evens(x))[i] else Reversed(k - 1, Odds(x))[i - half]
  {
    hide Rev;
    RevFromTop(k, i);
  }

  lemma DftOfOne(a: Complex, w: Complex)
    ensures Dft([a], w) == [a]
  {
    hide Complex.Times;
    DftIsEval([a], w, 0);
    var z := Power(w, 0);
    assert Eval([a], z) == a.Plus(z.Times(ZERO));
    TimesCommutes(z, ZERO);
    TimesOne(z);
  }

  /** One entry of the transform from those of the halves. */
  lemma DftEntry(x: seq<Complex>, w: Complex, i: nat)
    requires |x| % 2 == 0 && i < |x| / 2 && Power(w, |x| / 2) == MINUS_ONE
    ensures var e, o, half := Dft(Evens(x), w.Times(w)), Dft(Odds(x), w.Times(w)), |x| / 2;
            && Dft(x, w)[i] == e[i].Plus(o[i].Times(Power(w, i)))
            && Dft(x, w)[half + i] == e[i].Minus(o[i].Times(Power(w, i)))
  {
    hide Complex.Times, Evens, Odds, Eval, Dft, Power;
    var half, p, ww := |x| / 2, Power(w, i), w.Times(w);
    DftIsEval(x, w, i);
    DftIsEval(x, w, half + i);
    DftIsEval(Evens(x), ww, i);
    DftIsEval(Odds(x), ww, i);
    PowerSquares(w, i);
    PowerAdds(w, half, i);
    TimesOne(p);
    NegatedSquare(p);
    EvalSplits(x, p);
    EvalSplits(x, p.Negated());
    NegatedTimes(p, Eval(Odds(x), p.Times(p)));
    TimesCommutes(p, Eval(Odds(x), p.Times(p)));
  }

  lemma PowerSquares(w: Complex, i: nat)
    ensures Power(w, i).Times(Power(w, i)) == Power(w.Times(w), i)
  {
    hide Complex.Times, Power;
    PowerTwo(w);
    PowerOfPower(w, 2, i);
    PowerAdds(w, i, i);
    assert i + i == 2 * i;
  }

  lemma NegatedSquare(p: Complex)
    ensures p.Negated().Times(p.Negated()) == p.Times(p)
  {
  }

  lemma NegatedTimes(p: Complex, o: Complex)
    ensures p.Negated().Times(o) == p.Times(o).Negated()
  {
  }

  lemma MergeIsDft(x: seq<Complex>, w: Complex)
    requires |x| % 2 == 0 && Power(w, |x| / 2) == MINUS_ONE
    ensures Merge(Dft(Evens(x), w.Times(w)), Dft(Odds(x), w.Times(w)), w) == Dft(x, w)
  {
    hide Complex.Times, Power, DftSum;
    var merged, half := Merge(Dft(Evens(x), w.Times(w)), Dft(Odds(x), w.Times(w)), w), |x| / 2;
    forall i | 0 <= i < |x|
      ensures merged[i] == Dft(x, w)[i]
    {
      DftEntry(x, w, if i < half then i else i - half);
    }
  }

  /** The butterflies on the bit-reversed signal compute the discrete Fourier transform. */
  lemma {:induction false} CooleyTukey(k: nat, x: seq<Complex>, w: nat -> Complex)
    requires |x| == Pow2(k) && Twiddles(w)
    ensures Transform(k, Reversed(k, x), w) == Dft(x, w(Pow2(k)))
    decreases k
  {
    hide Complex.Times, Rev, Twiddles, Dft, Power, Merge, Reversed;
    if k == 0 {
      ReverseOne(x);
      DftOfOne(x[0], w(Pow2(0)));
    } else {
      ReversedHalves(k, x);
      CooleyTukey(k - 1, Evens(x), w);
      CooleyTukey(k - 1, Odds(x), w);
      HalvesAgree(k, x, w);
      HalfTurn(w, k);
      MergeIsDft(x, w(Pow2(k)));
    }
  }

  lemma ReverseOne(x: seq<Complex>)
    requires |x| == Pow2(0)
    ensures Reversed(0, x) == x == [x[0]]
  {
  }

  lemma HalvesAgree(k: nat, x: seq<Complex>, w: nat -> Complex)
    requires k >= 1 && |x| == Pow2(k) && Twiddles(w)
    ensures var root, half := w(Pow2(k)), Pow2(k - 1);
            && Dft(Evens(x), w(half)) == Dft(Evens(x), root.Times(root))
            && Dft(Odds(x), w(half)) == Dft(Odds(x), root.Times(root))
  {
    hide Complex.Times, Dft;
    var root, half := w(Pow2(k)), Pow2(k - 1);
    if k == 1 {
      assert Pow2(0) == 1;
      assert Evens(x) == [x[0]] && Odds(x) == [x[1]];
      DftOfOne(x[0], w(half));
      DftOfOne(x[0], root.Times(root));
      DftOfOne(x[1], w(half));
      DftOfOne(x[1], root.Times(root));
    } else {
      assert Squares(w, half);
    }
  }
}
