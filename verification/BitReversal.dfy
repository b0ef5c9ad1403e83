/** Reversing the bits of an index, and counting in reversed order. */
module BitReversals {
  import opened Numbers
  import opened Bits

  /** The low `k` bits of `i`, in reverse order. */
  function Rev(k: nat, i: nat): (r: nat)
    requires i < Pow2(k)
    ensures r < Pow2(k)
    decreases k
  {
    if k == 0 then 0 else (if i % 2 == 1 then Pow2(k - 1) else 0) + Rev(k - 1, i / 2)
  }

  /** The same from the other end: the top bit of the index becomes the lowest. */
  lemma {:induction false} RevFromTop(k: nat, i: nat)
    requires k >= 1 && i < Pow2(k)
    ensures var half := Pow2(k - 1);
            Rev(k, i) == if i < half then 2 * Rev(k - 1, i) else 2 * Rev(k - 1, i - half) + 1
    decreases k
  {
    var half := Pow2(k - 1);
    if k == 1 {
      assert Pow2(0) == 1 && Pow2(1) == 2;
    } else {
      var quarter := Pow2(k - 2);
      assert half == 2 * quarter;
      RevFromTop(k - 1, i / 2);
      var m := if i < half then i else i - half;
      assert m % 2 == i % 2 && m / 2 == if i < half then i / 2 else i / 2 - quarter;
    }
  }

  lemma {:induction false} RevInvolution(k: nat, i: nat)
    requires i < Pow2(k)
    ensures Rev(k, Rev(k, i)) == i
    decreases k
  {
    if k == 0 {
      assert Pow2(0) == 1;
    } else {
      var half := Pow2(k - 1);
      RevFromTop(k, i);
      var m := if i < half then i else i - half;
      RevInvolution(k - 1, m);
      var r := Rev(k, i);
      assert r / 2 == Rev(k - 1, m) && r % 2 == if i < half then 0 else 1;
    }
  }

  /** Counting up by one in reversed order: clear the set bits from the top, set the next. */
  function RevNext(k: nat, j: nat): nat
    requires j < Pow2(k)
  {
    if k == 0 then 0
    else if j >= Pow2(k - 1) then RevNext(k - 1, j - Pow2(k - 1))
    else j + Pow2(k - 1)
  }

  lemma {:induction false} RevCounts(k: nat, i: nat)
    requires i + 1 < Pow2(k)
    ensures RevNext(k, Rev(k, i)) == Rev(k, i + 1)
    decreases k
  {
    if i % 2 == 0 {
      assert (i + 1) / 2 == i / 2 && (i + 1) % 2 == 1;
    } else {
      assert (i + 1) / 2 == i / 2 + 1 && (i + 1) % 2 == 0;
      RevCounts(k - 1, i / 2);
    }
  }

  /** The carry of the bit-reversed counter. */
  method CountReversed(j0: nat, n: nat, ghost k: nat) returns (j: nat)
    requires n == Pow2(k) && j0 < n - 1
    ensures j == RevNext(k, j0)
  {
    hide And, Xor, Or;
    j := j0;
    var bit := n / 2;
    ghost var t := k;
    while And(j, bit) != 0
      invariant t >= 1 && bit == Pow2(t - 1) && j < Pow2(t) - 1
      invariant RevNext(t, j) == RevNext(k, j0)
      decreases t
    {
      TopBit(j, t - 1);
      j := Xor(j, bit);
      bit := bit / 2;
      t := t - 1;
    }
    TopBit(j, t - 1);
    j := Or(j, bit);
  }
}
