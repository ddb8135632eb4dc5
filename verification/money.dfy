/** Money in integer cents, the amount bounds every validator shares, and the
    two derived budget quantities (remaining and percentage). */
module Money {

  /** The smallest and largest accepted amount, in currency units ... */
  const MinAmount: real := 0.01
  const MaxAmount: real := 999999.99
  /** ... and in cents. */
  const MinAmountCents: int := 1
  const MaxAmountCents: int := 99999999

  predicate InAmountRange(x: real) {
    MinAmount <= x <= MaxAmount
  }

  predicate InCentsRange(c: int) {
    MinAmountCents <= c <= MaxAmountCents
  }

  /** Rounding to two decimals, as `Number(x.toFixed(2))` and
      `Math.round(x * 100) / 100` do, with the result counted in cents:
      the nearest cent, halves rounded up. */
  function RoundCents(x: real): (c: int)
    ensures c as real <= x * 100.0 + 0.5 < c as real + 1.0
  {
    (x * 100.0 + 0.5).Floor
  }

  /** A number of cents as a currency amount. */
  function ToReal(c: int): real {
    c as real / 100.0
  }

  /** An amount that already has two decimals survives rounding unchanged. */
  lemma RoundCentsOfCents(c: int)
    ensures RoundCents(ToReal(c)) == c
  {
    var x := ToReal(c);
    assert x * 100.0 == c as real;
    var r := RoundCents(x);
    assert r as real <= c as real + 0.5 < r as real + 1.0;
  }

  /** Rounding an amount that lies in [0.01, 999999.99] gives a cent count in
      [1, 99999999]. */
  lemma RoundedInRange(x: real)
    requires InAmountRange(x)
    ensures InCentsRange(RoundCents(x))
  {
    var r := RoundCents(x);
    assert 1.5 <= x * 100.0 + 0.5 <= 99999999.5;
    assert r as real <= 99999999.5;
    assert 1.5 < r as real + 1.0;
  }

  /** `Math.max(0, amount - spent)`. */
  function Remaining(amount: int, spent: int): (r: int)
    ensures r >= 0 && r >= amount - spent
    ensures r == 0 || r == amount - spent
  {
    if amount - spent > 0 then amount - spent else 0
  }

  /** `Math.min(100, Math.max(0, x))`. */
  function Clamp(x: real): (r: real)
    ensures 0.0 <= r <= 100.0
    ensures 0.0 <= x <= 100.0 ==> r == x
    ensures x < 0.0 ==> r == 0.0
    ensures x > 100.0 ==> r == 100.0
  {
    if x > 100.0 then 100.0 else if x < 0.0 then 0.0 else x
  }

  /** `amount > 0 ? clamp(0, 100, spent / amount * 100) : 0`. */
  function Percentage(amount: int, spent: int): (p: real)
    ensures 0.0 <= p <= 100.0
    ensures amount <= 0 ==> p == 0.0
    ensures amount > 0 && spent <= 0 ==> p == 0.0
    ensures amount > 0 && spent >= amount ==> p == 100.0
    ensures amount > 0 && 0 <= spent <= amount ==> p * (amount as real) == 100.0 * (spent as real)
  {
    if amount > 0 then
      var a := amount as real;
      var s := spent as real;
      var q := s / a * 100.0;
      RatioFacts(s, a);
      Clamp(q)
    else 0.0
  }

  /** The facts about `s / a * 100` that `Percentage` relies on. */
  lemma RatioFacts(s: real, a: real)
    requires a > 0.0
    ensures (s / a * 100.0) * a == 100.0 * s
    ensures s <= 0.0 ==> s / a * 100.0 <= 0.0
    ensures s >= a ==> s / a * 100.0 >= 100.0
    ensures 0.0 <= s <= a ==> 0.0 <= s / a * 100.0 <= 100.0
  {
    var d := s / a;
    assert d * a == s;
  }

  /** Whenever nothing is overspent, remaining plus spent is the budget;
      otherwise remaining is zero. */
  lemma RemainingAccounts(amount: int, spent: int)
    ensures 0 <= spent <= amount ==> Remaining(amount, spent) + spent == amount
    ensures spent > amount ==> Remaining(amount, spent) == 0
  {
  }

  /** A percentage `p` of `s` against a positive `a` lies below `k` exactly
      when `100 * s` lies below `k * a`. */
  lemma ScaledBelow(p: real, s: int, a: int, k: int)
    requires a > 0 && p * (a as real) == 100.0 * (s as real)
    ensures p < k as real <==> 100 * s < k * a
  {
    ScaleCompare(p, a as real, k as real);
    assert (k as real) * (a as real) == (k * a) as real;
    assert 100.0 * (s as real) == (100 * s) as real;
  }

  /** The same, for lying above `k`. */
  lemma ScaledAbove(p: real, s: int, a: int, k: int)
    requires a > 0 && p * (a as real) == 100.0 * (s as real)
    ensures p > k as real <==> 100 * s > k * a
  {
    ScaleCompare(p, a as real, k as real);
    assert (k as real) * (a as real) == (k * a) as real;
    assert 100.0 * (s as real) == (100 * s) as real;
  }

  /** Multiplying by a positive factor keeps `lo <= x < hi`: `y`, which is
      `x * l`, lies between `lo * l` and `hi * l`. */
  lemma ScaleBracket(x: real, l: real, lo: real, hi: real, y: real)
    requires l > 0.0 && lo <= x < hi && y == x * l
    ensures lo * l <= y < hi * l
  {
    ScaleCompare(x, l, hi);
    if lo < x {
      ScaleCompare(x, l, lo);
    }
  }

  /** Multiplying both sides by a positive factor keeps a strict
      comparison. */
  lemma ScaleCompare(x: real, l: real, k: real)
    requires l > 0.0
    ensures x > k <==> x * l > k * l
    ensures x < k <==> x * l < k * l
  {
    if x > k {
      assert (x - k) * l > 0.0;
    }
    if x < k {
      assert (k - x) * l > 0.0;
    }
  }
}
