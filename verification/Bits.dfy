/** Machine words, bitwise operations, and remainders by powers of two. */
module Bits {
  import opened Numbers

  const WORD_BITS := 64
  const WORD: nat := 0x1_0000_0000_0000_0000

  function WrappingAdd(a: nat, b: nat): nat { (a + b) % WORD }

  function WrappingSub(a: nat, b: nat): nat { (a - b) % WORD }

  /** Bitwise and. */
  function And(a: nat, b: nat): nat
  {
    if a == 0 || b == 0 then 0 else (a % 2) * (b % 2) + 2 * And(a / 2, b / 2)
  }

  lemma WordIsPower()
    ensures Pow2(WORD_BITS) == WORD
  {
    hide Pow2;
    assert Pow2(8) == 256 by { SmallPower(); }
    Pow2Add(8, 8);
    Pow2Add(16, 16);
    Pow2Add(32, 32);
  }

  lemma SmallPower()
    ensures Pow2(8) == 256
  {
  }

  lemma {:induction false} PowersGrow(a: nat, b: nat)
    requires a <= b
    ensures Pow2(a) <= Pow2(b)
    decreases b
  {
    if a < b { PowersGrow(a, b - 1); }
  }

  /** Masking with `2^k - 1` is taking the remainder. */
  lemma {:induction false} MaskIsRemainder(a: nat, k: nat)
    ensures And(a, Pow2(k) - 1) == a % Pow2(k)
    decreases k
  {
    if k == 0 {
    } else if a == 0 {
    } else {
      var half := Pow2(k - 1);
      MaskIsRemainder(a / 2, k - 1);
      assert (2 * half - 1) % 2 == 1 && (2 * half - 1) / 2 == half - 1;
      RemainderByHalves(a, half);
    }
  }

  lemma RemainderByHalves(a: nat, half: nat)
    requires half >= 1
    ensures a % 2 + 2 * ((a / 2) % half) == a % (2 * half)
  {
    var q, r := (a / 2) / half, (a / 2) % half;
    assert a == 2 * (q * half + r) + a % 2;
    assert 2 * (q * half) == q * (2 * half);
    RemainderIs(a, 2 * half, q, 2 * r + a % 2);
  }

  lemma RemainderIs(a: nat, d: nat, q: nat, r: nat)
    requires a == q * d + r && r < d
    ensures a % d == r
  {
    var q', r' := a / d, a % d;
    assert a == q' * d + r';
    if q' > q { QuotientsApart(q, q', d); } else if q' < q { QuotientsApart(q', q, d); }
  }

  lemma QuotientsApart(q: nat, q': nat, d: nat)
    requires q < q'
    ensures q' * d >= q * d + d
  {
    MulGrows(q + 1, q', d);
    MulNext(q, d);
  }

  lemma RemainderOfRemainder(n: nat, d: nat, m: nat)
    requires d >= 1 && m >= 1
    ensures d * m >= 1 && (n % (d * m)) % d == n % d
  {
    var dm := d * m;
    MulGrows(1, d, m);
    var q, r := n / dm, n % dm;
    var q', r' := r / d, r % d;
    DivisionParts(n, dm);
    DivisionParts(r, d);
    RegroupFactors(q, d, m, q', r');
    RemainderIs(n, d, q * m + q', r');
  }

  lemma DivisionParts(a: nat, d: nat)
    requires d >= 1
    ensures a == (a / d) * d + a % d && a % d < d && a / d >= 0
  {
  }

  lemma RegroupFactors(q: nat, d: nat, m: nat, q': nat, r': nat)
    ensures q * (d * m) + (q' * d + r') == (q * m + q') * d + r'
    ensures q * m + q' >= 0
  {
    assert q * (d * m) == (q * m) * d;
  }

  function Or(a: nat, b: nat): nat
  {
    if a == 0 then b else if b == 0 then a
    else (if a % 2 == 1 || b % 2 == 1 then 1 else 0) + 2 * Or(a / 2, b / 2)
  }

  function Xor(a: nat, b: nat): nat
  {
    if a == 0 then b else if b == 0 then a
    else (if a % 2 != b % 2 then 1 else 0) + 2 * Xor(a / 2, b / 2)
  }

  lemma {:induction false} AndZero(a: nat)
    ensures And(a, 0) == 0 && And(0, a) == 0 && Or(a, 0) == a && Xor(a, 0) == a
  {
  }

  /** The top bit of a number of `k + 1` bits: testing, clearing and setting it. */
  lemma {:induction false} TopBit(a: nat, k: nat)
    requires a < 2 * Pow2(k)
    ensures And(a, Pow2(k)) != 0 <==> a >= Pow2(k)
    ensures a >= Pow2(k) ==> Xor(a, Pow2(k)) == a - Pow2(k)
    ensures a < Pow2(k) ==> Or(a, Pow2(k)) == a + Pow2(k)
    decreases k
  {
    if k == 0 {
      assert Pow2(0) == 1;
      AndZero(a / 2);
    } else if a > 0 {
      var half := Pow2(k - 1);
      TopBit(a / 2, k - 1);
      assert Pow2(k) / 2 == half && Pow2(k) % 2 == 0;
    }
  }
}
