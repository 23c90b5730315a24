/**
 * Money as exact reals: the two-decimal rounding `Math.round(x * 100) / 100`
 * and the 9% goods-and-services tax both checkout pages add to a subtotal.
 */
module Money {

  /** A whole number of cents. */
  predicate IsWholeCents(x: real) {
    (x * 100.0).Floor as real == x * 100.0
  }

  /** `Math.round(x * 100) / 100`: `Math.round` rounds halves up, towards +infinity. */
  function RoundCents(x: real): (r: real)
    ensures IsWholeCents(r)
    ensures r - 0.005 <= x < r + 0.005
    ensures x >= 0.0 ==> r >= 0.0
  {
    var k := (x * 100.0 + 0.5).Floor;
    assert (k as real / 100.0) * 100.0 == k as real;
    k as real / 100.0
  }

  /** Rounding leaves an amount that is already in whole cents unchanged. */
  lemma RoundCentsOfCents(x: real)
    requires IsWholeCents(x)
    ensures RoundCents(x) == x
  {
    var k := (x * 100.0).Floor;
    assert (x * 100.0 + 0.5).Floor == k;
  }

  /** Rounding never reverses the order of two amounts. */
  lemma RoundCentsMonotone(x: real, y: real)
    requires x <= y
    ensures RoundCents(x) <= RoundCents(y)
  {
    assert (x * 100.0 + 0.5).Floor <= (y * 100.0 + 0.5).Floor;
  }

  /** Every integer amount is a whole number of cents. */
  lemma IntegerIsWholeCents(n: int)
    ensures IsWholeCents(n as real)
  {
    assert (n as real) * 100.0 == (n * 100) as real;
  }

  /** Whole-cent amounts are closed under subtraction. */
  lemma WholeCentsSub(x: real, y: real)
    requires IsWholeCents(x) && IsWholeCents(y)
    ensures IsWholeCents(x - y)
  {
    var a := (x * 100.0).Floor;
    var b := (y * 100.0).Floor;
    assert (x - y) * 100.0 == (a - b) as real;
  }

  const GstPercent: int := 9

  /** The displayed charge: subtotal, 9% tax on it, and their sum. */
  datatype Charge = Charge(subtotal: real, tax: real, total: real)

  /** `tax = subtotal * 0.09; total = subtotal + tax`, with no rounding. */
  function ChargeFor(subtotal: real): (c: Charge)
    ensures c.subtotal == subtotal
    ensures c.total == c.subtotal + c.tax
    ensures c.total * 100.0 == subtotal * 109.0
    ensures subtotal >= 0.0 ==> 0.0 <= c.tax <= c.subtotal <= c.total
  {
    var tax := subtotal * (GstPercent as real / 100.0);
    Charge(subtotal, tax, subtotal + tax)
  }
}
