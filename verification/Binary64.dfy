/** Rounding to 53-bit binary floating point, to nearest and ties to even, over all exponents. */
module Binary64 {

  const TWO52: real := 4503599627370496.0
  const TWO53: real := 9007199254740992.0

  /** Half the distance between neighbours, relative to the smallest number of its size: 2^-53. */
  const UNIT: real := 1.0 / TWO53

  /** The nearest whole number, ties to even. */
  function RoundEven(x: real): int {
    var n := x.Floor;
    var rest := x - n as real;
    if rest < 0.5 || (rest == 0.5 && n % 2 == 0) then n else n + 1
  }

  /** Numbers from 2^52 on: whole numbers up to 2^53, then twice as coarse at each doubling. */
  function RoundLarge(x: real): real
    requires x >= TWO52
    decreases x.Floor
  {
    if x <= TWO53 then RoundEven(x) as real else 2.0 * RoundLarge(x / 2.0)
  }

  /** How far a positive number is below 2^52. */
  function Gap(x: real): nat {
    if 0.0 < x < TWO52 then (TWO52 / x).Floor else 0
  }

  lemma GapShrinks(x: real)
    requires 0.0 < x < TWO52
    ensures Gap(2.0 * x) < Gap(x)
  {
    var a := TWO52 / x;
    assert a * x == TWO52;
    assert (a - 1.0) * x > 0.0;
    if 2.0 * x < TWO52 {
      var b := TWO52 / (2.0 * x);
      assert b * (2.0 * x) == TWO52;
      assert (2.0 * b - a) * x == 0.0;
      assert 2.0 * b == a;
      assert b.Floor as real <= b;
      assert a < a.Floor as real + 1.0;
    }
  }

  /** The floating-point number nearest to x. */
  function Double(x: real): real
    decreases x < 0.0, Gap(x)
  {
    if x == 0.0 then 0.0
    else if x < 0.0 then -Double(-x)
    else if x < TWO52 then GapShrinks(x); Double(2.0 * x) / 2.0
    else RoundLarge(x)
  }

  /** y is within one part in 2^53 of x. */
  predicate Near(x: real, y: real) {
    x - x * UNIT <= y <= x + x * UNIT
  }

  lemma NearHalf(x: real, y: real)
    ensures Near(2.0 * x, y) <==> Near(x, y / 2.0)
  {
  }

  lemma RoundEvenNear(x: real, low: int, high: int)
    requires low as real <= x <= high as real
    ensures x - 0.5 <= RoundEven(x) as real <= x + 0.5 && low <= RoundEven(x) <= high
  {
  }

  lemma RoundEvenMono(x: real, y: real)
    requires x <= y
    ensures RoundEven(x) <= RoundEven(y)
  {
    if x.Floor < y.Floor {
      RoundEvenNear(x, x.Floor, x.Floor + 1);
      RoundEvenNear(y, y.Floor, y.Floor + 1);
    }
  }

  lemma RoundOnce(x: real)
    requires TWO52 <= x <= TWO53
    ensures TWO52 <= RoundLarge(x) <= TWO53 && Near(x, RoundLarge(x))
  {
    RoundEvenNear(x, 4503599627370496, 9007199254740992);
    assert x * UNIT >= 0.5;
    hide RoundEven;
  }

  lemma {:induction false} RoundLargeNear(x: real)
    requires x >= TWO52
    ensures RoundLarge(x) >= TWO52 && Near(x, RoundLarge(x))
    ensures x <= TWO53 ==> RoundLarge(x) <= TWO53
    decreases x.Floor
  {
    hide RoundEven, Near;
    if x > TWO53 {
      RoundLargeNear(x / 2.0);
      NearHalf(x / 2.0, RoundLarge(x));
    } else {
      RoundOnce(x);
    }
  }

  lemma SmallNear(x: real)
    requires 0.0 <= x
    ensures Near(0.0, 0.0) && forall y :: Near(x, y) ==> y >= 0.0
  {
  }

  /** Rounding moves a number by at most one part in 2^53. */
  lemma {:induction false} DoubleNear(x: real)
    requires x >= 0.0
    ensures Near(x, Double(x)) && Double(x) >= 0.0
    ensures x <= TWO52 ==> Double(x) <= TWO52
    decreases Gap(x)
  {
    hide Near, RoundEven;
    SmallNear(x);
    if 0.0 < x < TWO52 {
      GapShrinks(x);
      DoubleNear(2.0 * x);
      if 2.0 * x > TWO52 { RoundLargeNear(2.0 * x); }
      NearHalf(x, Double(2.0 * x));
      hide Gap;
    } else if x >= TWO52 {
      RoundLargeNear(x);
      if x == TWO52 { RoundEvenNear(x, 4503599627370496, 4503599627370496); }
    }
  }

  lemma {:induction false} RoundLargeMono(x: real, y: real)
    requires TWO52 <= x <= y
    ensures RoundLarge(x) <= RoundLarge(y)
    decreases y.Floor
  {
    if y <= TWO53 {
      RoundEvenMono(x, y);
    } else if x > TWO53 {
      RoundLargeMono(x / 2.0, y / 2.0);
    } else {
      RoundLargeNear(x);
      RoundLargeNear(y / 2.0);
    }
    hide RoundEven;
  }

  /** Rounding keeps order. */
  lemma {:induction false} DoubleMono(x: real, y: real)
    requires 0.0 <= x <= y
    ensures 0.0 <= Double(x) <= Double(y)
    decreases Gap(x)
  {
    DoubleNear(x);
    DoubleNear(y);
    if x >= TWO52 {
      RoundLargeMono(x, y);
    } else if x > 0.0 {
      if y >= TWO52 {
        RoundLargeNear(y);
      } else {
        GapShrinks(x);
        DoubleMono(2.0 * x, 2.0 * y);
      }
    }
  }

  lemma DoubleSign(x: real)
    ensures x <= 0.0 ==> Double(x) <= 0.0
    ensures x >= 0.0 ==> Double(x) >= 0.0
  {
    if x < 0.0 { DoubleNear(-x); } else { DoubleNear(x); }
  }

  /** Whole numbers up to 2^53 are not moved at all. */
  lemma {:induction false} DoubleExact(n: int)
    requires 0 <= n <= 9007199254740992
    ensures Double(n as real) == n as real
    decreases Gap(n as real)
  {
    if 0 < n < 4503599627370496 {
      GapShrinks(n as real);
      DoubleExact(2 * n);
    }
  }
}
