/** Shared vocabulary: optional values, fallible results, and exact-real helpers. */
module Common {
  datatype Option<+T> = None | Some(value: T)

  /** A return value, or the error the program raises instead. */
  datatype Result<+T> = Ok(value: T) | Err(error: string)

  function Max(a: real, b: real): real { if a >= b then a else b }

  function Min(a: real, b: real): real { if a <= b then a else b }

  function Abs(a: real): real { if a >= 0.0 then a else -a }

  function MaxInt(a: int, b: int): int { if a >= b then a else b }

  function MinInt(a: int, b: int): int { if a <= b then a else b }

  // ---- Three facts about exact division, used wherever averages are taken apart.

  lemma DivideCancels(a: real, b: real)
    requires b != 0.0
    ensures a / b * b == a
  {
  }

  lemma SelfRatio(a: real)
    requires a != 0.0
    ensures a / a == 1.0
  {
  }

  lemma PartOf(whole: real, ratio: real)
    ensures whole > 0.0 && 0.0 < ratio <= 1.0 ==> 0.0 < whole * ratio <= whole
  {
    var rest := 1.0 - ratio;
    assert whole * rest == whole - whole * ratio;
    if whole > 0.0 && 0.0 < ratio <= 1.0 {
      assert whole * rest >= 0.0;
    }
  }

  lemma ScaleMonotone(a: real, b: real, k: real)
    requires a <= b && 0.0 <= k
    ensures a * k <= b * k
  {
  }

  lemma StrictScale(a: real, b: real, k: real)
    requires a < b && 0.0 < k
    ensures a * k < b * k
  {
    var gap := b - a;
    PositiveProduct(gap, k);
    assert gap * k == b * k - a * k;
  }

  lemma PositiveProduct(a: real, b: real)
    requires a > 0.0 && b > 0.0
    ensures a * b > 0.0
  {
  }

  lemma ScaledAtMost(a: real, b: real, k: real, ak: real, bk: real)
    requires a <= b && 0.0 <= k && ak == a * k && bk == b * k
    ensures ak <= bk
  {
    ScaleMonotone(a, b, k);
  }

  lemma ScaledBelow(a: real, b: real, k: real, ak: real, bk: real)
    requires a < b && 0.0 < k && ak == a * k && bk == b * k
    ensures ak < bk
  {
    StrictScale(a, b, k);
  }

  lemma NextStep(n: real, next: real, step: real, low: real, high: real)
    requires next == n + 1.0 && low == n * step && high == next * step
    ensures high == low + step
  {
  }

  /** A value whose ratio lies between two whole numbers lies between as many steps. */
  lemma BetweenSteps(n: real, ratio: real, step: real, low: real, value: real)
    requires step > 0.0 && n <= ratio < n + 1.0 && low == n * step && value == ratio * step
    ensures low <= value < low + step
  {
    ScaledAtMost(n, ratio, step, low, value);
    BelowNextStep(n, n + 1.0, ratio, step, low, value);
  }

  lemma BelowNextStep(n: real, next: real, ratio: real, step: real, low: real, value: real)
    requires step > 0.0 && ratio < next && next == n + 1.0 && low == n * step && value == ratio * step
    ensures value < low + step
  {
    var high := next * step;
    NextStep(n, next, step, low, high);
    ScaledBelow(ratio, next, step, value, high);
  }

  lemma DivideScaled(a: real, q: real, unit: real)
    requires unit > 0.0 && a <= q * unit
    ensures a / unit <= q
  {
    assert q * unit / unit == q;
    assert (q * unit - a) / unit >= 0.0;
    assert (q * unit - a) / unit == q * unit / unit - a / unit;
  }

  function Ceil(x: real): int { -(-x).Floor }

  lemma CeilAtMost(x: real, k: int)
    ensures Ceil(x) <= k <==> x <= k as real
  {
  }
}
