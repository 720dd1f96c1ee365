/**
 * Decimal rounding as Python's round(x, places) performs it, taken on exact
 * reals: x is rounded to the nearest multiple of 10^-places, and a value
 * exactly halfway between two multiples goes to the one whose last digit is
 * even. The scorer stores round(gap * impact_mean, 2) as the priority and
 * round(gap, 3), round(impact_mean, 3) as the stored gap and mean.
 */
module Rounding {

  /** The nearest integer to v; a tie goes to the even neighbour. */
  function RoundHalfEven(v: real): (n: int)
    ensures v - 0.5 <= n as real <= v + 0.5
    ensures (n as real - v == 0.5 || v - n as real == 0.5) ==> n % 2 == 0
  {
    var f := v.Floor;
    var frac := v - f as real;
    if frac < 0.5 then f
    else if frac > 0.5 then f + 1
    else if f % 2 == 0 then f
    else f + 1
  }

  /** round(x, 2): a multiple of 0.01 within 0.005 of x. */
  function Round2(x: real): (r: real)
    ensures x - 0.005 <= r <= x + 0.005
    ensures (r * 100.0).Floor as real == r * 100.0
  {
    RoundHalfEven(x * 100.0) as real / 100.0
  }

  /** round(x, 3): a multiple of 0.001 within 0.0005 of x. */
  function Round3(x: real): (r: real)
    ensures x - 0.0005 <= r <= x + 0.0005
    ensures (r * 1000.0).Floor as real == r * 1000.0
  {
    RoundHalfEven(x * 1000.0) as real / 1000.0
  }

  lemma RoundHalfEvenMonotone(v: real, w: real)
    requires v <= w
    ensures RoundHalfEven(v) <= RoundHalfEven(w)
  {
    var f, g := v.Floor, w.Floor;
    assert f <= g;
    if f == g {
      assert v - f as real <= w - g as real;
    }
  }

  /** Rounding to two places never reverses the order of two values. */
  lemma Round2Monotone(x: real, y: real)
    requires x <= y
    ensures Round2(x) <= Round2(y)
  {
    RoundHalfEvenMonotone(x * 100.0, y * 100.0);
  }

  /** Rounding to three places never reverses the order of two values. */
  lemma Round3Monotone(x: real, y: real)
    requires x <= y
    ensures Round3(x) <= Round3(y)
  {
    RoundHalfEvenMonotone(x * 1000.0, y * 1000.0);
  }

  /** A whole number is left as it is. */
  lemma RoundWholeNumber(k: int)
    ensures Round2(k as real) == k as real && Round3(k as real) == k as real
  {
    assert (k as real * 100.0).Floor == k * 100;
    assert (k as real * 1000.0).Floor == k * 1000;
  }

  /** A value between two whole numbers rounds, to two or three places, to a value between them. */
  lemma RoundBetween(x: real, lo: int, hi: int)
    requires lo as real <= x <= hi as real
    ensures lo as real <= Round2(x) <= hi as real
    ensures lo as real <= Round3(x) <= hi as real
  {
    Round2Monotone(lo as real, x);
    Round2Monotone(x, hi as real);
    Round3Monotone(lo as real, x);
    Round3Monotone(x, hi as real);
    RoundWholeNumber(lo);
    RoundWholeNumber(hi);
  }
}
