/**
 * Instalment arithmetic of the merchant adapter: the price, in cents, is split over the
 * configured number of payments and every payment is rounded UP to a whole cent, so the
 * merchant never collects less than the price and over-collects by less than one cent per
 * instalment.
 */
module Instalments {

  /**
   * The mathematical ceiling of `cents / n` for a non-zero `n` (PHP's `ceil($price * 100 / $n)`
   * on exact values). For a positive `n` the result is the least number of cents that, paid
   * `n` times, covers `cents`; for a negative `n` the inequalities flip.
   */
  function CeilDiv(cents: int, n: int): (r: int)
    requires n != 0
    ensures n > 0 ==> r * n >= cents && r * n - cents < n
    ensures n < 0 ==> r * n <= cents && cents - r * n < -n
  {
    if n > 0 then
      var q := (-cents) / n;
      assert -cents == q * n + (-cents) % n;
      -q
    else
      var q := cents / (-n);
      assert cents == q * (-n) + cents % (-n);
      -q
  }

  /** The bounds of `CeilDiv` pin its result down: it is the only integer meeting them. */
  lemma CeilDivUnique(cents: int, n: int, r: int)
    requires n > 0
    requires r * n >= cents && r * n - cents < n
    ensures r == CeilDiv(cents, n)
  {
    var c := CeilDiv(cents, n);
    assert (r - c) * n == r * n - c * n;
    WholeMultiples(r - c, n);
  }

  /** A non-zero whole multiple of a positive `n` is at least `n` away from zero. */
  lemma WholeMultiples(d: int, n: int)
    requires n > 0
    ensures d >= 1 ==> d * n >= n
    ensures d <= -1 ==> d * n <= -n
  {
  }

  /** When the price splits evenly there is no rounding: the instalments add up exactly. */
  lemma CeilDivExact(cents: int, n: int)
    requires n > 0 && cents % n == 0
    ensures CeilDiv(cents, n) * n == cents
  {
    var q := cents / n;
    assert q * n == cents;
    CeilDivUnique(cents, n, q);
  }

  /** Two worked examples: 100.00 over 4 payments is 25.00 each, over 3 payments 33.34 each. */
  lemma WorkedExamples()
    ensures CeilDiv(10000, 4) == 2500
    ensures CeilDiv(10000, 3) == 3334 && 3334 * 3 == 10002
  {
  }
}
