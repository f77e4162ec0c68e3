/**
 * BigDecimal amounts as exact reals. "At scale 2" means the amount has at most
 * two decimal places; `Round2` is `setScale(2, RoundingMode.HALF_UP)`.
 */
module Money {

  /** The amount has at most two decimal places. */
  predicate IsCents(x: real)
  {
    (x * 100.0).Floor as real == x * 100.0
  }

  /** Whole cents: n / 100 is at scale 2. */
  lemma CentsOfInt(n: int)
    ensures IsCents(n as real / 100.0)
  {
    assert (n as real / 100.0) * 100.0 == n as real;
  }

  /**
   * setScale(2, HALF_UP): the nearest amount in cents, a tie rounded away
   * from zero; the sign of the input is kept.
   */
  function Round2(x: real): (r: real)
    ensures IsCents(r)
    ensures x >= 0.0 ==> 0.0 <= r && x - 0.005 < r <= x + 0.005
    ensures x < 0.0 ==> r <= 0.0 && x - 0.005 <= r < x + 0.005
  {
    var n := if x >= 0.0 then (x * 100.0 + 0.5).Floor else -((-x) * 100.0 + 0.5).Floor;
    CentsOfInt(n);
    n as real / 100.0
  }

  /** `if (total.signum() < 0) total = BigDecimal.ZERO`. */
  function ClampZero(x: real): (r: real)
    ensures r >= 0.0 && r >= x
    ensures x >= 0.0 ==> r == x
  {
    if x < 0.0 then 0.0 else x
  }

  /** Two amounts in cents that lie within less than one cent of each other are equal. */
  lemma CentsCloseAreEqual(a: real, b: real)
    requires IsCents(a) && IsCents(b)
    requires -0.01 < a - b < 0.01
    ensures a == b
  {
    var m, n := (a * 100.0).Floor, (b * 100.0).Floor;
    assert -1 < m - n < 1;
  }

  /** Round2 leaves an amount that is already at scale 2 as it is. */
  lemma Round2OfCents(x: real)
    requires IsCents(x)
    ensures Round2(x) == x
  {
    CentsCloseAreEqual(Round2(x), x);
  }

  /** Rounding to scale 2 twice is rounding once. */
  lemma Round2Idempotent(x: real)
    ensures Round2(Round2(x)) == Round2(x)
  {
    Round2OfCents(Round2(x));
  }

  /**
   * Round2 is HALF_UP rounding and nothing else: the only amount in cents
   * in the half-open interval (x - 0.005, x + 0.005] for x >= 0, and in
   * [x - 0.005, x + 0.005) for x < 0.
   */
  lemma Round2Unique(x: real, c: real)
    requires IsCents(c)
    requires x >= 0.0 ==> x - 0.005 < c <= x + 0.005
    requires x < 0.0 ==> x - 0.005 <= c < x + 0.005
    ensures c == Round2(x)
  {
    CentsCloseAreEqual(c, Round2(x));
  }

  /** Sums and differences of amounts in cents are in cents. */
  lemma CentsAdd(a: real, b: real)
    requires IsCents(a) && IsCents(b)
    ensures IsCents(a + b) && IsCents(a - b)
  {
    var m, n := (a * 100.0).Floor, (b * 100.0).Floor;
    assert a * 100.0 == m as real && b * 100.0 == n as real;
    assert (a + b) * 100.0 == a * 100.0 + b * 100.0;
    assert (a - b) * 100.0 == a * 100.0 - b * 100.0;
    assert ((a + b) * 100.0).Floor == m + n;
    assert ((a - b) * 100.0).Floor == m - n;
  }

  lemma CentsZero()
    ensures IsCents(0.0)
  {
  }

  lemma CentsClampZero(x: real)
    requires IsCents(x)
    ensures IsCents(ClampZero(x))
  {
  }

  /** `a.multiply(BigDecimal.valueOf(q))`: an amount times a whole quantity, exactly. */
  function Times(a: real, q: int): real
  {
    a * q as real
  }

  /** The product of non-negative factors is non-negative. */
  lemma TimesNonNegative(a: real, q: int)
    requires a >= 0.0 && q >= 0
    ensures Times(a, q) >= 0.0
  {
  }

  /** An amount in cents times a whole quantity is still in cents. */
  lemma CentsTimes(a: real, q: int)
    requires IsCents(a)
    ensures IsCents(Times(a, q))
  {
    var m := (a * 100.0).Floor;
    assert a * 100.0 == m as real;
    calc {
      (a * q as real) * 100.0;
      (a * 100.0) * q as real;
      m as real * q as real;
      (m * q) as real;
    }
  }
}
