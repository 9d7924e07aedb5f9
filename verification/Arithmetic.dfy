/** Small facts about products of reals and integers that more than one module needs. */
module Arithmetic {
  lemma QuotientTimes(x: real, n: int)
    requires n != 0
    ensures x / n as real * n as real == x
  {
  }

  lemma PositiveTimes(x: real, n: int)
    ensures n > 0 ==> (x > 0.0 <==> x * n as real > 0.0)
  {
  }

  lemma TimesNothing(x: real, n: int)
    requires n == 0
    ensures x * n as real == 0.0
  {
  }

  lemma Scaled(x: real, y: real, f: real)
    requires f > 0.0
    ensures x <= y ==> x * f <= y * f
    ensures x * f <= y * f ==> x <= y
  {
  }

  lemma ScaledAtLeastZero(x: real, y: real, f: real)
    requires x <= y && f >= 0.0
    ensures x * f <= y * f
  {
  }

  lemma Shrinks(x: real, f: real)
    requires f <= 1.0
    ensures x >= 0.0 ==> x * f <= x
  {
  }

  lemma NaturalProduct(x: real, y: real)
    requires 0.0 <= x && 0.0 <= y
    ensures 0.0 <= x * y
  {
  }

  lemma OneMoreShare(spent: real, notional: real, shares: int, taken: nat, remaining: real)
    requires spent * shares as real <= taken as real * remaining && notional * shares as real <= remaining
    ensures (spent + notional) * shares as real <= (taken + 1) as real * remaining
  {
    var s, k := shares as real, taken as real;
    assert (spent + notional) * s == spent * s + notional * s;
    assert (taken + 1) as real == k + 1.0;
    assert (k + 1.0) * remaining == k * remaining + remaining;
  }
}
