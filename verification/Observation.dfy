/** Timing reports, as sources hand them to the follower. */
module Observing {
  import opened Numbers
  import opened Clock

  /** A 64-bit float that may not be finite. */
  datatype Float = Finite(value: real) | NotFinite


  /** The source's position, in its bar or in its beat. */
  datatype Phase = Bar(position: Float) | Beat(position: Float) | TempoOnly

  datatype Observation = Observation(sample: Float, phase: Phase, bpm: Option<Float>)

  /** `rem_euclid`: the remainder in `[0, modulus)`. */
  function RemEuclid(x: real, modulus: real): (r: real)
    requires modulus > 0.0
    ensures 0.0 <= r < modulus
  {
    RemainderBounds(x, modulus);
    x - modulus * (x / modulus).Floor as real
  }

  lemma RemainderBounds(x: real, m: real)
    requires m > 0.0
    ensures 0.0 <= x - m * (x / m).Floor as real < m
  {
    var q, f := x / m, (x / m).Floor as real;
    var r := ScaledFraction(m, q - f);
    RemainderIsFraction(x, m, q, f, r);
  }

  lemma ScaledFraction(m: real, t: real) returns (r: real)
    requires m > 0.0 && 0.0 <= t < 1.0
    ensures r == m * t && 0.0 <= r < m
  {
    r := m * t;
    MulLess(t, 1.0, m);
    MulAtLeast(m, t, 0.0);
  }

  lemma RemainderIsFraction(x: real, m: real, q: real, f: real, r: real)
    requires m > 0.0 && q == x / m && r == m * (q - f)
    ensures x - m * f == r
  {
    assert x == m * q;
  }
}
