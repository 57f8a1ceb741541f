/** `round2`: the rounding to cents applied to every reported figure: the
    amount in cents rounded to the nearest whole cent. */
module Rounding {

  /** JavaScript's `Math.round`: the nearest integer, halves rounded up
      (toward positive infinity). */
  function MathRound(x: real): (k: int)
    ensures x - 0.5 < k as real <= x + 0.5
  {
    (x + 0.5).Floor
  }

  /** `round2`: a whole number of cents, within half a cent of `n`. */
  function Round2(n: real): (r: real)
    ensures (r * 100.0).Floor as real == r * 100.0
    ensures n - 0.005 < r <= n + 0.005
  {
    var k := MathRound(n * 100.0);
    assert (k as real / 100.0) * 100.0 == k as real;
    k as real / 100.0
  }

  /** A whole number of cents is left as it is. */
  lemma Round2OfCents(k: int)
    ensures Round2(k as real / 100.0) == k as real / 100.0
  {
    assert (k as real / 100.0) * 100.0 == k as real;
    assert MathRound(k as real) == k;
  }

  lemma Round2Idempotent(n: real)
    ensures Round2(Round2(n)) == Round2(n)
  {
    Round2OfCents(MathRound(n * 100.0));
  }

  lemma MathRoundMonotone(x: real, y: real)
    requires x <= y
    ensures MathRound(x) <= MathRound(y)
  {
  }

  lemma Round2Monotone(n: real, m: real)
    requires n <= m
    ensures Round2(n) <= Round2(m)
  {
    MathRoundMonotone(n * 100.0, m * 100.0);
  }

  lemma Round2Zero()
    ensures Round2(0.0) == 0.0
  {
    assert MathRound(0.0) == 0;
  }

  lemma Round2NonNegative(n: real)
    requires n >= 0.0
    ensures Round2(n) >= 0.0
  {
    Round2Zero();
    Round2Monotone(0.0, n);
  }
}
