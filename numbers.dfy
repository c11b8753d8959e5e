/** The rounding steps the rules apply to exact amounts: `Math.round`,
    `toFixed(1)` read back with `parseFloat`, and the savings rate shared by
    the chat and the dashboard. */
module Numbers {

  /** `Math.round(x)`: the nearest integer, halves rounded up. */
  function Round(x: real): (r: int)
    ensures x - 0.5 < r as real <= x + 0.5
  {
    (x + 0.5).Floor
  }

  /** `parseFloat(x.toFixed(1))`: `x` rounded to tenths, halves away from zero
      (toFixed rounds the magnitude and then puts the sign back). */
  function ToFixed1(x: real): (r: real)
    ensures -0.05 <= r - x <= 0.05
    ensures x >= 0.0 ==> r >= 0.0
    ensures x <= 0.0 ==> r <= 0.0
  {
    if x >= 0.0 then Round(x * 10.0) as real / 10.0
    else -(Round(-x * 10.0) as real / 10.0)
  }

  /** `totalIncome > 0 ? (balance / totalIncome) * 100 : 0`, before the
      `toFixed(1)` formatting. */
  function SavingsRate(totalIncome: real, balance: real): (r: real)
    ensures totalIncome <= 0.0 ==> r == 0.0
    ensures totalIncome > 0.0 ==> r * totalIncome == balance * 100.0
    ensures totalIncome > 0.0 && balance >= 0.0 ==> r >= 0.0
    ensures totalIncome > 0.0 && balance < 0.0 ==> r < 0.0
  {
    if totalIncome > 0.0 then balance / totalIncome * 100.0 else 0.0
  }

  /** `parseFloat(savingsRate)` where `savingsRate` is the rate formatted
      with `toFixed(1)`, or `'0'` without income. */
  function ShownRate(totalIncome: real, balance: real): (r: real)
    ensures totalIncome <= 0.0 ==> r == 0.0
    ensures totalIncome > 0.0 ==> -0.05 <= r - balance / totalIncome * 100.0 <= 0.05
    ensures totalIncome > 0.0 && balance >= 0.0 ==> r >= 0.0
  {
    ToFixed1(SavingsRate(totalIncome, balance))
  }

  /** Comparing a percentage `part / whole * 100` with a threshold is
      comparing `part * 100` with the threshold's share of `whole`. */
  lemma PercentAtLeast(part: real, whole: real, t: real)
    requires whole > 0.0
    ensures part / whole * 100.0 >= t <==> part * 100.0 >= t * whole
  {
    var q := part / whole * 100.0;
    assert q * whole == part * 100.0;
    if q >= t {
      assert q * whole >= t * whole;
    } else {
      assert q * whole < t * whole;
    }
  }

  /** Multiplying by a positive factor keeps the order. */
  lemma ScaleOrder(k: real, a: real, b: real)
    requires k > 0.0
    ensures a < b <==> k * a < k * b
  {
    if a < b {
      assert k * b - k * a == k * (b - a);
    } else {
      assert k * a - k * b == k * (a - b);
    }
  }

  /** A part of a positive whole, no larger than it, is between 0 and 100
      percent of it. */
  lemma PercentWithin(part: real, whole: real)
    requires 0.0 <= part <= whole && whole > 0.0
    ensures 0.0 <= part / whole * 100.0 <= 100.0
    ensures 0 <= Round(part / whole * 100.0) <= 100
  {
    var q := part / whole;
    assert q * whole == part;
    ScaleOrder(whole, 1.0, q);
    ScaleOrder(whole, q, 0.0);
  }

  /** `Math.round(y)` reaches an integer `k` exactly when `y` is within a
      half of it or above. */
  lemma RoundAtLeast(y: real, k: int)
    ensures Round(y) >= k <==> y + 0.5 >= k as real
  {
  }

  /** `toFixed(1)` of a number reaches `k` tenths exactly when the number is
      at least half a hundredth below `k` tenths. */
  lemma ToFixed1AtLeast(x: real, k: nat)
    requires k > 0
    ensures ToFixed1(x) >= k as real / 10.0 <==> x * 10.0 + 0.5 >= k as real
  {
    if x >= 0.0 {
      RoundAtLeast(x * 10.0, k);
    }
  }
}
