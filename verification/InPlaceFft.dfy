/** `fft_in_place`: the bit-reversal swaps and the butterfly passes over the two arrays. */
module InPlaceFourier {
  import opened Numbers
  import opened Bits
  import opened BitReversals
  import opened Fourier

  /** The signal held by the arrays of real and imaginary parts. */
  function Zip(re: seq<real>, im: seq<real>): (z: seq<Complex>)
    requires |re| == |im|
    ensures |z| == |re|
    ensures forall i :: 0 <= i < |z| ==> z[i] == Complex(re[i], im[i])
  {
    seq(|re|, i requires 0 <= i < |re| => Complex(re[i], im[i]))
  }

  lemma {:induction false} RevOfZero(k: nat)
    requires 0 < Pow2(k)
    ensures Rev(k, 0) == 0
  {
    if k > 0 { RevOfZero(k - 1); }
  }

  /** A signal whose entries with an index, or reversed index, below `i` are in place. */
  ghost predicate SwappedBelow(k: nat, x: seq<Complex>, z: seq<Complex>, i: nat)
    requires |x| == Pow2(k)
  {
    |z| == |x| && forall m :: 0 <= m < |x| ==> z[m] == if m < i || Rev(k, m) < i then x[Rev(k, m)] else x[m]
  }

  lemma SwapStep(k: nat, x: seq<Complex>, z: seq<Complex>, z': seq<Complex>, i: nat)
    requires |x| == Pow2(k) && i < |x| && SwappedBelow(k, x, z, i)
    requires var j := Rev(k, i);
             z' == if i < j then z[i := z[j]][j := z[i]] else z
    ensures SwappedBelow(k, x, z', i + 1)
  {
    hide Rev;
    var j := Rev(k, i);
    RevInvolution(k, i);
    forall m | 0 <= m < |x|
      ensures z'[m] == if m < i + 1 || Rev(k, m) < i + 1 then x[Rev(k, m)] else x[m]
    {
      if Rev(k, m) == i { RevInvolution(k, m); }
      RevInvolution(k, m);
    }
  }

  lemma SwappedAtStart(k: nat, x: seq<Complex>)
    requires |x| == Pow2(k)
    ensures SwappedBelow(k, x, x, 1)
  {
    hide Rev;
    RevOfZero(k);
    forall m | 0 <= m < |x| && Rev(k, m) < 1
      ensures m == 0
    {
      RevInvolution(k, m);
    }
  }

  lemma SwappedAtEnd(k: nat, x: seq<Complex>, z: seq<Complex>)
    requires |x| == Pow2(k) && SwappedBelow(k, x, z, |x|)
    ensures z == Reversed(k, x)
  {
    hide Rev;
  }

  /** Swaps every entry with the one at its reversed index. */
  method ReverseInPlace(re: array<real>, im: array<real>, ghost k: nat)
    requires re != im && re.Length == im.Length == Pow2(k)
    modifies re, im
    ensures Zip(re[..], im[..]) == Reversed(k, old(Zip(re[..], im[..])))
  {
    hide SwappedBelow, Rev, RevNext;
    var n := re.Length;
    ghost var x := Zip(re[..], im[..]);
    SwappedAtStart(k, x);
    RevOfZero(k);
    var j := 0;
    for i := 1 to n
      invariant j == Rev(k, i - 1)
      invariant SwappedBelow(k, x, Zip(re[..], im[..]), i)
    {
      ghost var z := Zip(re[..], im[..]);
      RevCounts(k, i - 1);
      LastIsLargest(k, i - 1);
      j := CountReversed(j, n, k);
      if i < j {
        re[i], re[j] := re[j], re[i];
        im[i], im[j] := im[j], im[i];
        assert Zip(re[..], im[..]) == z[i := z[j]][j := z[i]];
      }
      SwapStep(k, x, z, Zip(re[..], im[..]), i);
    }
    SwappedAtEnd(k, x, Zip(re[..], im[..]));
  }

  /** Only the last index reverses to all ones. */
  lemma {:induction false} LastIsLargest(k: nat, i: nat)
    requires i + 1 < Pow2(k)
    ensures Rev(k, i) + 1 < Pow2(k)
    decreases k
  {
    if k > 0 && i % 2 == 1 { LastIsLargest(k - 1, i / 2); }
  }

  /** One butterfly: `z[a] + z[b] * c` and `z[a] - z[b] * c`. */
  method Butterfly(re: array<real>, im: array<real>, a: nat, b: nat, cr: real, ci: real)
    requires re != im && re.Length == im.Length && a < b < re.Length
    modifies re, im
    ensures var z, c := old(Zip(re[..], im[..])), Complex(cr, ci);
            Zip(re[..], im[..]) == z[a := z[a].Plus(z[b].Times(c))][b := z[a].Minus(z[b].Times(c))]
  {
    hide Complex.Times, Complex.Plus, Complex.Minus;
    ghost var z, x, y := Zip(re[..], im[..]), Complex(re[a], im[a]), Complex(re[b], im[b]);
    var tr := re[b] * cr - im[b] * ci;
    var ti := re[b] * ci + im[b] * cr;
    ButterflyIs(x, y, Complex(cr, ci));
    re[b] := re[a] - tr;
    im[b] := im[a] - ti;
    re[a] := re[a] + tr;
    im[a] := im[a] + ti;
    assert z[a] == x && z[b] == y;
    assert Complex(re[a], im[a]) == x.Plus(y.Times(Complex(cr, ci)));
    assert Complex(re[b], im[b]) == x.Minus(y.Times(Complex(cr, ci)));
  }

  lemma ButterflyIs(x: Complex, y: Complex, c: Complex)
    ensures var tr, ti := y.re * c.re - y.im * c.im, y.re * c.im + y.im * c.re;
            && x.Plus(y.Times(c)) == Complex(x.re + tr, x.im + ti)
            && x.Minus(y.Times(c)) == Complex(x.re - tr, x.im - ti)
  {
  }

  /** One block: the butterflies of its two halves. */
  method MergeBlock(re: array<real>, im: array<real>, start: nat, half: nat, w: Complex)
    requires re != im && re.Length == im.Length && start + 2 * half <= re.Length
    modifies re, im
    ensures var z, z' := old(Zip(re[..], im[..])), Zip(re[..], im[..]);
            z' == z[..start] + Merge(z[start..start + half], z[start + half..start + 2 * half], w)
                  + z[start + 2 * half..]
  {
    hide Zip, Power, Butterflied, Merge;
    ghost var z := Zip(re[..], im[..]);
    var cr, ci := 1.0, 0.0;
    PowerZero(w);
    NoButterflies(z, start, half, w);
    for k := 0 to half
      invariant Complex(cr, ci) == Power(w, k)
      invariant Zip(re[..], im[..]) == Butterflied(z, start, half, w, k)
    {
      ButterflyStep(z, start, half, w, k);
      Butterfly(re, im, start + k, start + k + half, cr, ci);
      PowerNext(w, k);
      var ncr := cr * w.re - ci * w.im;
      ci := cr * w.im + ci * w.re;
      cr := ncr;
    }
    MergedBlock(z, start, half, w);
  }

  lemma PowerZero(w: Complex)
    ensures Power(w, 0) == ONE
  {
  }

  lemma PowerNext(w: Complex, k: nat)
    ensures var c := Power(w, k);
            Power(w, k + 1) == Complex(c.re * w.re - c.im * w.im, c.re * w.im + c.im * w.re)
  {
  }

  /** The signal after the first `k` butterflies of a block. */
  function Butterflied(z: seq<Complex>, start: nat, half: nat, w: Complex, k: nat): (r: seq<Complex>)
    requires start + 2 * half <= |z| && k <= half
    ensures |r| == |z|
  {
    seq(|z|, p requires 0 <= p < |z| =>
      if start <= p < start + k then z[p].Plus(z[p + half].Times(Power(w, p - start)))
      else if start + half <= p < start + half + k then
        z[p - half].Minus(z[p].Times(Power(w, p - half - start)))
      else z[p])
  }

  lemma NoButterflies(z: seq<Complex>, start: nat, half: nat, w: Complex)
    requires start + 2 * half <= |z|
    ensures Butterflied(z, start, half, w, 0) == z
  {
  }

  lemma ButterflyStep(z: seq<Complex>, start: nat, half: nat, w: Complex, k: nat)
    requires start + 2 * half <= |z| && k < half
    ensures var y, a, b, c := Butterflied(z, start, half, w, k), start + k, start + k + half, Power(w, k);
            Butterflied(z, start, half, w, k + 1)
            == y[a := y[a].Plus(y[b].Times(c))][b := y[a].Minus(y[b].Times(c))]
  {
    hide Power, Complex.Times, Complex.Plus, Complex.Minus;
  }

  lemma MergedBlock(z: seq<Complex>, start: nat, half: nat, w: Complex)
    requires start + 2 * half <= |z|
    ensures Butterflied(z, start, half, w, half)
            == z[..start] + Merge(z[start..start + half], z[start + half..start + 2 * half], w) + z[start + 2 * half..]
  {
    hide Complex.Times, Power;
  }

  // ---- Passes ----

  /** `q` blocks of `2^s` entries, each transformed. */
  function Blocks(s: nat, x: seq<Complex>, q: nat, w: nat -> Complex): (r: seq<Complex>)
    requires |x| == q * Pow2(s)
    ensures |r| == |x|
    decreases q
  {
    if q == 0 then []
    else
      MulNext(q - 1, Pow2(s));
      var front := (q - 1) * Pow2(s);
      Blocks(s, x[..front], q - 1, w) + Transform(s, x[front..], w)
  }

  /** Every block of the result is the transform of the block it came from. */
  lemma {:induction false} BlockAt(s: nat, x: seq<Complex>, q: nat, w: nat -> Complex, i: nat, at: nat)
    requires |x| == q * Pow2(s) && i < q && at == i * Pow2(s)
    ensures at + Pow2(s) <= |x|
    ensures Blocks(s, x, q, w)[at..at + Pow2(s)] == Transform(s, x[at..at + Pow2(s)], w)
    decreases q
  {
    hide Transform, Pow2;
    var len, front := Pow2(s), (q - 1) * Pow2(s);
    MulNext(q - 1, len);
    if i == q - 1 {
      assert x[front..] == x[at..at + len];
    } else {
      MulGrows(i + 1, q - 1, len);
      MulNext(i, len);
      BlockAt(s, x[..front], q - 1, w, i, at);
      assert x[..front][at..at + len] == x[at..at + len];
      assert Blocks(s, x, q, w)[at..at + len] == Blocks(s, x[..front], q - 1, w)[at..at + len];
    }
  }

  /** Blocks of one entry are their own transforms. */
  lemma {:induction false} BlocksOfOne(x: seq<Complex>, q: nat, w: nat -> Complex)
    requires |x| == q * Pow2(0)
    ensures Blocks(0, x, q, w) == x
    decreases q
  {
    if q > 0 {
      BlocksOfOne(x[..q - 1], q - 1, w);
      assert x == x[..q - 1] + x[q - 1..];
    }
  }

  lemma OneBlock(k: nat, x: seq<Complex>, w: nat -> Complex)
    requires |x| == 1 * Pow2(k)
    ensures Blocks(k, x, 1, w) == Transform(k, x, w)
  {
    hide Transform;
    assert x[0..] == x;
    assert Blocks(k, x[..0], 0, w) == [];
  }

  /** `q` blocks of the coming pass, twice as many of the last one, fill the signal. */
  predicate Sized(s: nat, q: nat, n: nat) { n == q * Pow2(s + 1) == (2 * q) * Pow2(s) && Pow2(s + 1) == 2 * Pow2(s) }

  /** A pass at `start`: `i` blocks are merged into `done`. */
  predicate PassAt(s: nat, x: seq<Complex>, q: nat, w: nat -> Complex, i: nat, start: nat, done: seq<Complex>)
  {
    Sized(s, q, |x|) && i <= q && start == i * Pow2(s + 1) && start <= |x| && done == Blocks(s + 1, x[..start], i, w)
  }

  /** Merging the block at `start` turns two blocks of the last pass into one of this pass. */
  lemma PassStep(s: nat, x: seq<Complex>, q: nat, w: nat -> Complex, i: nat, start: nat, done: seq<Complex>)
    requires PassAt(s, x, q, w, i, start, done) && start < |x|
    ensures |x| == (2 * q) * Pow2(s)
    ensures var half, before := Pow2(s), Blocks(s, x, 2 * q, w);
            && start + 2 * half <= |x|
            && PassAt(s, x, q, w, i + 1, start + 2 * half,
                      done + Merge(before[start..start + half], before[start + half..start + 2 * half], w(2 * half)))
  {
    hide Blocks, Merge, Transform, Pow2;
    var half := Pow2(s);
    var end := start + 2 * half;
    BlockFits(i, q, Pow2(s + 1));
    EvenBlock(i, half, start);
    BlockAt(s, x, 2 * q, w, 2 * i, start);
    BlockAt(s, x, 2 * q, w, 2 * i + 1, start + half);
    var block := x[start..end];
    TransformMerges(s, block, w);
    assert block[..half] == x[start..start + half] && block[half..] == x[start + half..end];
    MulNext(i, Pow2(s + 1));
    BlocksNext(s + 1, x[..end], i + 1, w, start);
    assert x[..end][..start] == x[..start] && x[..end][start..] == block;
  }

  lemma PassEnds(s: nat, x: seq<Complex>, q: nat, w: nat -> Complex, i: nat, start: nat, done: seq<Complex>)
    requires PassAt(s, x, q, w, i, start, done) && start == |x|
    ensures |x| == q * Pow2(s + 1) && done == Blocks(s + 1, x, q, w)
  {
    hide Blocks;
    AllBlocks(i, q, Pow2(s + 1));
    assert x[..start] == x;
  }

  lemma PassBegins(s: nat, x: seq<Complex>, q: nat, w: nat -> Complex)
    requires Sized(s, q, |x|)
    ensures PassAt(s, x, q, w, 0, 0, [])
    ensures |x| == (2 * q) * Pow2(s) == q * Pow2(s + 1)
  {
    hide Pow2;
    assert 0 * Pow2(s + 1) == 0;
  }

  lemma EvenBlock(i: nat, half: nat, start: nat)
    requires start == i * (2 * half)
    ensures start == (2 * i) * half && start + half == (2 * i + 1) * half
  {
  }

  lemma TransformMerges(s: nat, b: seq<Complex>, w: nat -> Complex)
    requires |b| == Pow2(s + 1)
    ensures var half := Pow2(s);
            Transform(s + 1, b, w) == Merge(Transform(s, b[..half], w), Transform(s, b[half..], w), w(2 * half))
  {
  }

  lemma BlocksNext(s: nat, x: seq<Complex>, q: nat, w: nat -> Complex, front: nat)
    requires q >= 1 && |x| == q * Pow2(s) && front == (q - 1) * Pow2(s)
    ensures front <= |x|
    ensures Blocks(s, x, q, w) == Blocks(s, x[..front], q - 1, w) + Transform(s, x[front..], w)
  {
    MulNext(q - 1, Pow2(s));
  }

  /** One pass: merges every pair of neighbouring blocks of `len / 2` entries. */
  method Pass(re: array<real>, im: array<real>, len: nat, w: nat -> Complex, ghost s: nat, ghost q: nat,
              ghost x: seq<Complex>)
    requires re != im && re.Length == im.Length == |x|
    requires len == 2 * Pow2(s) && Sized(s, q, |x|)
    requires |x| == (2 * q) * Pow2(s) && Zip(re[..], im[..]) == Blocks(s, x, 2 * q, w)
    modifies re, im
    ensures |x| == q * Pow2(s + 1) && Zip(re[..], im[..]) == Blocks(s + 1, x, q, w)
  {
    hide Zip, Blocks, Merge, Pow2, Sized, PassAt;
    ghost var before := Zip(re[..], im[..]);
    ghost var i, done := 0, [];
    PassBegins(s, x, q, w);
    var start, half := 0, len / 2;
    assert half == Pow2(s) && len == 2 * half;
    ghost var root := w(2 * half);
    while start < re.Length
      invariant PassAt(s, x, q, w, i, start, done) && |done| == start <= re.Length
      invariant Zip(re[..], im[..]) == done + before[start..]
    {
      ghost var z := Zip(re[..], im[..]);
      PassStep(s, x, q, w, i, start, done);
      MergeBlock(re, im, start, half, w(len));
      MergedTail(done, before, z, Zip(re[..], im[..]), start, half, root);
      done := done + Merge(before[start..start + half], before[start + half..start + 2 * half], root);
      start := start + len;
      i := i + 1;
    }
    PassEnds(s, x, q, w, i, start, done);
  }

  lemma MergedTail(done: seq<Complex>, before: seq<Complex>, z: seq<Complex>, z': seq<Complex>,
                   start: nat, half: nat, w: Complex)
    requires |done| == start && start + 2 * half <= |before| && z == done + before[start..]
    requires z' == z[..start] + Merge(z[start..start + half], z[start + half..start + 2 * half], w)
                   + z[start + 2 * half..]
    ensures z' == (done + Merge(before[start..start + half], before[start + half..start + 2 * half], w))
                  + before[start + 2 * half..]
  {
    hide Merge;
    assert z[start..start + half] == before[start..start + half];
    assert z[start + half..start + 2 * half] == before[start + half..start + 2 * half];
    assert z[..start] == done && z[start + 2 * half..] == before[start + 2 * half..];
  }

  lemma BlockFits(i: nat, q: nat, len: nat)
    requires i * len < q * len
    ensures i < q && i * len + len <= q * len
  {
    if i >= q { MulGrows(q, i, len); } else { MulGrows(i + 1, q, len); }
    MulNext(i, len);
  }

  lemma AllBlocks(i: nat, q: nat, len: nat)
    requires i <= q && len >= 1 && i * len == q * len
    ensures i == q
  {
    if i < q { MulGrows(i + 1, q, len); MulNext(i, len); }
  }

  /** The in-place transform computes the discrete Fourier transform, for every power of two. */
  method FftInPlace(re: array<real>, im: array<real>, w: nat -> Complex)
    requires re != im && re.Length == im.Length && (exists k: nat :: re.Length == Pow2(k)) && Twiddles(w)
    modifies re, im
    ensures Zip(re[..], im[..]) == Dft(old(Zip(re[..], im[..])), w(re.Length))
  {
    hide Zip, Blocks, Twiddles, Transform, Pow2, Dft, Reversed;
    var n := re.Length;
    ghost var k: nat :| n == Pow2(k);
    ghost var signal := Zip(re[..], im[..]);
    ReverseInPlace(re, im, k);
    ghost var x := Zip(re[..], im[..]);
    var len := 2;
    ghost var s := 0;
    FirstPass(k, x, w);
    while len <= n
      invariant s <= k && len == 2 * Pow2(s) && Pow2(k - s) * Pow2(s) == n
      invariant Zip(re[..], im[..]) == Blocks(s, x, Pow2(k - s), w)
      decreases k - s
    {
      HalfAsMany(k, s);
      assert Sized(s, Pow2(k - s - 1), n);
      Pass(re, im, len, w, s, Pow2(k - s - 1), x);
      len := 2 * len;
      s := s + 1;
    }
    LastPass(k, s);
    OneBlock(k, x, w);
    CooleyTukey(k, signal, w);
  }

  lemma FirstPass(k: nat, x: seq<Complex>, w: nat -> Complex)
    requires |x| == Pow2(k)
    ensures Pow2(0) == 1 && |x| * Pow2(0) == |x| == Pow2(k - 0)
    ensures Blocks(0, x, |x|, w) == x
  {
    BlocksOfOne(x, |x|, w);
  }

  lemma HalfAsMany(k: nat, s: nat)
    requires s <= k && 2 * Pow2(s) <= Pow2(k)
    ensures s + 1 <= k
    ensures Pow2(k - s) == 2 * Pow2(k - s - 1) && Pow2(s + 1) == 2 * Pow2(s)
    ensures Pow2(k) == Pow2(k - s - 1) * Pow2(s + 1) == (2 * Pow2(k - s - 1)) * Pow2(s)
  {
    Pow2Add(k - s, s);
    if s < k { Pow2Add(k - s - 1, s + 1); }
  }

  lemma LastPass(k: nat, s: nat)
    requires s <= k && 2 * Pow2(s) > Pow2(k)
    ensures s == k && Pow2(k - s) == 1
  {
    if s < k { PowersGrow(s + 1, k); }
  }
}
