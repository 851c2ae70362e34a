/** Decimal rounding at a fixed scale, half away from zero, over exact rationals. */
module Rounding {

  /** The nearest integer; a tie goes away from zero. */
  function RoundHalfAway(x: real): int {
    if x >= 0.0 then (x + 0.5).Floor else -((-x + 0.5).Floor)
  }

  /** Two decimals: `stock_value` and every GL amount. */
  function Money(v: real): real { RoundHalfAway(v * 100.0) as real / 100.0 }

  /** Six decimals: `valuation_rate`. */
  function Rate6(v: real): real { RoundHalfAway(v * 1000000.0) as real / 1000000.0 }

  /** A whole number of cents. */
  predicate IsCents(v: real) { (v * 100.0).Floor as real == v * 100.0 }

  function Abs(v: real): real { if v >= 0.0 then v else -v }

  lemma RoundNear(x: real)
    ensures -0.5 <= RoundHalfAway(x) as real - x <= 0.5
  {
  }

  lemma RoundMonotone(x: real, y: real)
    requires x <= y
    ensures RoundHalfAway(x) <= RoundHalfAway(y)
  {
  }

  /** Rounding moves a value by at most half a cent, keeps cents, and is odd and monotone. */
  lemma MoneyFacts(v: real)
    ensures Abs(Money(v) - v) <= 0.005
    ensures IsCents(Money(v))
    ensures IsCents(v) ==> Money(v) == v
    ensures Money(-v) == -Money(v)
  {
    var n := RoundHalfAway(v * 100.0);
    RoundNear(v * 100.0);
    assert Money(v) * 100.0 == n as real;
    if IsCents(v) {
      var c := (v * 100.0).Floor;
      assert v * 100.0 == c as real;
      assert n == c;
    }
    assert (-v) * 100.0 == -(v * 100.0);
  }

  /** On cent-valued bounds, rounding never leaves the bounds. */
  lemma MoneyWithin(v: real, bound: real)
    requires IsCents(bound) && Abs(v) <= bound
    ensures Abs(Money(v)) <= bound
  {
    MoneyFacts(bound);
    MoneyFacts(-bound);
    RoundMonotone(v * 100.0, bound * 100.0);
    RoundMonotone(-bound * 100.0, v * 100.0);
    assert -bound <= Money(v) <= bound;
  }

  lemma CentsClosed(a: real, b: real)
    requires IsCents(a) && IsCents(b)
    ensures IsCents(a + b) && IsCents(a - b)
  {
    FromWhole(a + b, (a * 100.0).Floor + (b * 100.0).Floor);
    FromWhole(a - b, (a * 100.0).Floor - (b * 100.0).Floor);
  }

  lemma FromWhole(v: real, n: int)
    requires v * 100.0 == n as real
    ensures IsCents(v)
  {
    assert (n as real).Floor == n;
  }

  lemma Rate6Near(v: real)
    ensures Abs(Rate6(v) - v) <= 0.0000005
  {
    RoundNear(v * 1000000.0);
  }

  /** A tie goes away from zero, whichever side it is on: with the bound on the error, this fixes both
      roundings. */
  lemma TiesGoAway(n: nat)
    ensures Money((n as real + 0.5) / 100.0) == (n as real + 1.0) / 100.0
    ensures Money(-((n as real + 0.5) / 100.0)) == -((n as real + 1.0) / 100.0)
    ensures Rate6((n as real + 0.5) / 1000000.0) == (n as real + 1.0) / 1000000.0
    ensures Rate6(-((n as real + 0.5) / 1000000.0)) == -((n as real + 1.0) / 1000000.0)
  {
    TieRounds(n);
    var x := n as real + 0.5;
    assert x / 100.0 * 100.0 == x && -(x / 100.0) * 100.0 == -x;
    assert x / 1000000.0 * 1000000.0 == x && -(x / 1000000.0) * 1000000.0 == -x;
  }

  lemma TieRounds(n: nat)
    ensures RoundHalfAway(n as real + 0.5) == n + 1 && RoundHalfAway(-(n as real + 0.5)) == -(n + 1)
  {
    assert n as real + 0.5 + 0.5 == (n + 1) as real;
    assert ((n + 1) as real).Floor == n + 1;
  }
}
