/** The discount settings both scripts read at start-up, and the clearance price
    `round(price * (1 - discount_percent), 2)` restated over whole cents. */
module Pricing {

  /** `tagPrefix` is `TAG_PREFIX`, `discountDays` is `DISCOUNT_DAYS` and
      `discountBasisPoints` is `DISCOUNT_PERCENT` in hundredths of a percent
      (0.20 is 2000). */
  datatype Config = Config(tagPrefix: string, discountDays: int, discountBasisPoints: int)

  const BasisPointsPerUnit: int := 10000

  /** The settings when the environment sets none: prefix `new release-`,
      14 days, 20 percent. */
  const DefaultConfig: Config := Config("new release-", 14, 2000)

  /** `n / d` rounded to the nearest integer, halves away from zero. */
  function RoundDiv(n: int, d: int): (r: int)
    requires d > 0
    ensures n >= 0 ==> r >= 0 && -d <= 2 * (n - r * d) < d
    ensures n < 0 ==> r <= 0 && -d < 2 * (n - r * d) <= d
  {
    if n >= 0 then (2 * n + d) / (2 * d) else -((2 * -n + d) / (2 * d))
  }

  /** A price in cents after taking off `bp` basis points, rounded to the cent. */
  function Clearance(priceCents: int, bp: int): int {
    RoundDiv(priceCents * (BasisPointsPerUnit - bp), BasisPointsPerUnit)
  }

  /** A discount between 0 and 100 percent never makes a price negative or larger. */
  lemma ClearanceBounds(priceCents: int, bp: int)
    requires priceCents >= 0 && 0 <= bp <= BasisPointsPerUnit
    ensures 0 <= Clearance(priceCents, bp) <= priceCents
  {
    var n := priceCents * (10000 - bp);
    MulSign(priceCents, 10000 - bp);
    MulSign(priceCents, bp);
    Distrib(priceCents, 10000, -bp);
    assert n <= priceCents * 10000;
    var r := RoundDiv(n, 10000);
    assert -10000 <= 2 * (n - r * 10000);
    assert r * 10000 <= priceCents * 10000 + 5000;
  }

  lemma MulSign(a: int, b: int)
    ensures a >= 0 && b >= 0 ==> a * b >= 0
    ensures a <= 0 && b <= 0 ==> a * b >= 0
  {
  }

  lemma Distrib(a: int, b: int, c: int)
    ensures a * (b + c) == a * b + a * c
  {
  }

  /** With a remainder `e` of at most half of `d` either way, moving the
      quotient by `t` never brings the remainder closer to 0. */
  lemma NearestCore(e: int, t: int, d: int)
    requires d > 0 && -d <= 2 * e <= d
    ensures t * (2 * e + t * d) >= 0
  {
    if t >= 1 {
      MulSign(t - 1, d);
      Distrib(d, t, -1);
      MulSign(t, 2 * e + t * d);
    } else if t <= -1 {
      MulSign(-t - 1, d);
      Distrib(d, -t, -1);
      MulSign(t, 2 * e + t * d);
    }
  }

  /** The rounding picks the nearest whole number: no integer `other` is closer
      to `n / d` than the result, i.e. `|n - r*d| <= |n - other*d|`, written
      without absolute values. */
  lemma RoundDivIsNearest(n: int, d: int, other: int)
    requires d > 0
    ensures var r := RoundDiv(n, d);
            (r - other) * (2 * n - (r + other) * d) >= 0
  {
    var r := RoundDiv(n, d);
    var e := n - r * d;
    assert -d <= 2 * e <= d;
    Distrib(d, r, other);
    Distrib(d, r, -other);
    assert 2 * n - (r + other) * d == 2 * e + (r - other) * d;
    NearestCore(e, r - other, d);
  }

  /** 19.99 at 20% off is 15.99 (the exact amount is 15.992). */
  lemma ClearanceOfNineteenNinetyNine()
    ensures Clearance(1999, 2000) == 1599
  {
  }
}
