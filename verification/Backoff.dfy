// Dispatcher.backoffFor of internal/queryjob/dispatcher.go, with the float64
// arithmetic it goes through made explicit.
module Backoff {
  const MAX_INT64 := 0x7FFF_FFFF_FFFF_FFFF
  const MIN_INT64 := -0x8000_0000_0000_0000
  const MANTISSA := 0x20_0000_0000_0000  // 2^53

  function Pow2(n: nat): (p: nat)
    ensures p >= 1
  {
    if n == 0 then 1 else 2 * Pow2(n - 1)
  }

  function Min(a: int, b: int): int {
    if a <= b then a else b
  }

  // Distance between the float64 values around b.
  function Ulp(b: nat): (u: nat)
    ensures u >= 1
  {
    if b < MANTISSA then 1 else 2 * Ulp(b / 2)
  }

  // float64(b): to the nearest representable value, ties to the even one.
  function Rounded(b: nat): nat {
    ToMultiple(b, Ulp(b))
  }

  function ToMultiple(b: nat, u: nat): nat
    requires u >= 1
  {
    var q, r := b / u, b % u;
    if 2 * r < u || (2 * r == u && q % 2 == 0) then q * u else (q + 1) * u
  }

  // time.Duration(x) for a float64 x. Outside int64 the language leaves the
  // result to the platform: the most negative or the most positive value.
  function ToDuration(x: int, outOfRange: int): int {
    if x <= MAX_INT64 then x else outOfRange
  }

  predicate PlatformValue(v: int) {
    v == MIN_INT64 || v == MAX_INT64
  }

  // The product of Rounded(base) and a power of two is a float64 or an infinity,
  // so it needs no further rounding.
  function BackoffFor(base: int, max: int, attempt: int, outOfRange: int): (wait: int)
    ensures attempt >= 1 && max >= 0 ==> 0 <= wait <= max
  {
    if attempt <= 0 then base
    else
      var dur := if base <= 0 then base else ToDuration(Rounded(base) * Pow2(attempt - 1), outOfRange);
      if dur <= 0 || dur > max then max else dur
  }

  // The exact schedule the code stands for.
  function CappedDoubling(base: nat, max: nat, attempt: nat): nat
    requires attempt >= 1
  {
    Min(base * Pow2(attempt - 1), max)
  }

  lemma {:induction false} UlpDivides(b: nat)
    ensures b >= MANTISSA ==> Ulp(b) * (MANTISSA / 2) <= b < Ulp(b) * MANTISSA
  {
    if b >= MANTISSA {
      var u := Ulp(b / 2);
      if b / 2 >= MANTISSA {
        UlpDivides(b / 2);
        assert u * (MANTISSA / 2) <= b / 2 < u * MANTISSA;
      } else {
        assert u == 1;
      }
    }
  }

  lemma NearestMultiple(b: nat, u: nat)
    requires u >= 1
    ensures 2 * b - u <= 2 * ToMultiple(b, u) <= 2 * b + u
  {
    var q := b / u;
    var low := q * u;
    assert b == low + b % u;
    assert (q + 1) * u == low + u;
  }

  // Rounding moves a value by at most half a unit, and keeps it positive.
  lemma RoundedNear(b: nat)
    ensures 2 * b - Ulp(b) <= 2 * Rounded(b) <= 2 * b + Ulp(b)
    ensures b >= 1 ==> Rounded(b) >= 1
    ensures b < MANTISSA ==> Rounded(b) == b
  {
    NearestMultiple(b, Ulp(b));
    if b >= MANTISSA {
      UlpDivides(b);
      hide ToMultiple;
      assert Ulp(b) <= b by { AtLeast(Ulp(b), MANTISSA / 2); }
    }
  }

  lemma AtLeast(u: nat, k: nat)
    requires k >= 1
    ensures u <= u * k
  {
  }

  lemma {:induction false} Pow2Doubles(m: nat, n: nat)
    requires m <= n
    ensures Pow2(m) <= Pow2(n)
  {
    if m < n {
      Pow2Doubles(m, n - 1);
    }
  }

  lemma Scaled(b: nat, m: nat, n: nat)
    requires m <= n
    ensures b * Pow2(m) <= b * Pow2(n)
  {
    Pow2Doubles(m, n);
    MulMonotone(b, Pow2(m), Pow2(n));
  }

  lemma MulMonotone(b: nat, x: nat, y: nat)
    requires x <= y
    ensures b * x <= b * y
  {
  }

  // The overflow guard never changes the intended value: whatever the platform
  // yields out of range, the result is the capped doubling of the rounded base.
  lemma BackoffIsCappedDoubling(base: int, max: int, attempt: int, outOfRange: int)
    requires base >= 1 && 1 <= max <= MAX_INT64 && attempt >= 1 && PlatformValue(outOfRange)
    ensures BackoffFor(base, max, attempt, outOfRange) == CappedDoubling(Rounded(base), max, attempt)
    ensures 1 <= BackoffFor(base, max, attempt, outOfRange) <= max
  {
    RoundedNear(base);
    Scaled(Rounded(base), 0, attempt - 1);
    hide Rounded;
  }

  // It equals the exact schedule for every attempt exactly when the base survives
  // the conversion, or both it and its float64 image already reach the cap.
  lemma ExactIffBaseSurvives(base: int, max: int, outOfRange: int)
    requires base >= 1 && 1 <= max <= MAX_INT64 && PlatformValue(outOfRange)
    ensures (forall n: nat :: n >= 1 ==> BackoffFor(base, max, n, outOfRange) == CappedDoubling(base, max, n))
       <==> Rounded(base) == base || (base >= max && Rounded(base) >= max)
  {
    hide BackoffFor, Rounded;
    BackoffIsCappedDoubling(base, max, 1, outOfRange);
    assert Pow2(0) == 1;
    if Rounded(base) == base || (base >= max && Rounded(base) >= max) {
      forall n: nat | n >= 1 ensures BackoffFor(base, max, n, outOfRange) == CappedDoubling(base, max, n) {
        BackoffIsCappedDoubling(base, max, n, outOfRange);
        Scaled(base, 0, n - 1);
        Scaled(Rounded(base), 0, n - 1);
      }
    } else {
      assert BackoffFor(base, max, 1, outOfRange) != CappedDoubling(base, max, 1);
    }
  }

  lemma DoubledOnce(b: nat, n: nat)
    ensures b * Pow2(n + 1) == 2 * (b * Pow2(n))
  {
    Reassociate(b, Pow2(n));
  }

  lemma Reassociate(b: nat, x: nat)
    ensures b * (2 * x) == 2 * (b * x)
  {
  }

  // The schedule without powers: it starts at the rounded base and doubles up to the cap.
  lemma BackoffDoubles(base: int, max: int, attempt: int, outOfRange: int)
    requires base >= 1 && 1 <= max <= MAX_INT64 && attempt >= 1 && PlatformValue(outOfRange)
    ensures BackoffFor(base, max, 1, outOfRange) == Min(Rounded(base), max)
    ensures BackoffFor(base, max, attempt + 1, outOfRange) == Min(2 * BackoffFor(base, max, attempt, outOfRange), max)
  {
    hide BackoffFor, Rounded;
    BackoffIsCappedDoubling(base, max, 1, outOfRange);
    BackoffIsCappedDoubling(base, max, attempt, outOfRange);
    BackoffIsCappedDoubling(base, max, attempt + 1, outOfRange);
    DoubledOnce(Rounded(base), attempt - 1);
    Scaled(Rounded(base), 0, attempt - 1);
    assert Pow2(0) == 1;
  }

  // Non-decreasing, and constant from the first attempt that reaches the cap.
  lemma BackoffGrowsToTheCap(base: int, max: int, m: int, n: int, outOfRange: int)
    requires base >= 1 && 1 <= max <= MAX_INT64 && 1 <= m <= n && PlatformValue(outOfRange)
    ensures BackoffFor(base, max, m, outOfRange) <= BackoffFor(base, max, n, outOfRange)
    ensures BackoffFor(base, max, m, outOfRange) == max ==> BackoffFor(base, max, n, outOfRange) == max
  {
    hide BackoffFor, Rounded;
    BackoffIsCappedDoubling(base, max, m, outOfRange);
    BackoffIsCappedDoubling(base, max, n, outOfRange);
    Scaled(Rounded(base), m - 1, n - 1);
  }
}
