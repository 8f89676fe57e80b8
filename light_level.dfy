/**
 * The light-level mapping of index.js: a light ratio in [0, 1] becomes
 * Math.round(1 + ratio * 999999999) / 10000 lux.
 *
 * The ratio is kept as an exact rational num/den, and the rounded value is
 * kept as an integer count of 0.0001-lux units, so no floating point appears.
 */
module LightLevel {

  /** A strictly positive divisor: a ratio with this denominator never divides by zero. */
  type Pos = d: int | d > 0 witness 1

  /** The exact value num/den of the source's floating-point lightRatio. */
  datatype Ratio = Ratio(num: int, den: Pos)

  /** 0 <= num/den <= 1. */
  predicate InUnitInterval(q: Ratio)
  {
    0 <= q.num <= q.den
  }

  /** p <= q as rationals. */
  predicate AtMost(p: Ratio, q: Ratio)
  {
    p.num * q.den <= q.num * p.den
  }

  /** The factor the ratio is scaled by before rounding. */
  const SCALE: int := 999999999
  /** Number of level units in one lux (the final division). */
  const UNITS_PER_LUX: int := 10000
  /** The level at ratio 0: 0.0001 lux. */
  const MIN_UNITS: int := 1
  /** The level at ratio 1: 100000 lux. */
  const MAX_UNITS: int := 1000000000

  /**
   * Math.round of the rational a/b: the nearest integer, halves rounded up
   * (Math.round(x) is floor(x + 1/2)).
   */
  function RoundHalfUp(a: int, b: Pos): (r: int)
    ensures 2 * b * r <= 2 * a + b < 2 * b * (r + 1)
  {
    var n, d := 2 * a + b, 2 * b;
    var r := n / d;
    assert n == d * r + n % d && 0 <= n % d < d;
    assert d * (r + 1) == d * r + d;
    r
  }

  /** round(1 + ratio * 999999999), in units of 0.0001 lux. */
  function Units(q: Ratio): (u: int)
  {
    RoundHalfUp(q.den + q.num * SCALE, q.den)
  }

  /** The published illuminance in lux: the level divided by 10000. */
  function Lux(q: Ratio): (lux: real)
  {
    Units(q) as real / UNITS_PER_LUX as real
  }

  // ---------------------------------------------------------------------
  // Arithmetic helpers

  /** A common positive factor can be cancelled from a strict inequality. */
  lemma CancelLess(x: int, y: int, b: Pos)
    requires b * x < b * y
    ensures x < y
  {
    assert b * (y - x) > 0;
  }

  /** A common positive factor can be cancelled from a non-strict inequality. */
  lemma CancelAtMost(x: int, y: int, b: Pos)
    requires b * x <= b * y
    ensures x <= y
  {
    assert b * (y - x) >= 0;
  }

  /** Multiplying both sides by a non-negative factor keeps an inequality. */
  lemma ScaleAtMost(x: int, y: int, c: int)
    requires x <= y && 0 <= c
    ensures c * x <= c * y
  {
    assert c * y - c * x == c * (y - x) >= 0;
  }

  // ---------------------------------------------------------------------
  // Properties of the mapping

  /** For every ratio in [0, 1] the level lies in [1, 1000000000] units. */
  lemma {:induction false} UnitsRange(q: Ratio)
    requires InUnitInterval(q)
    ensures MIN_UNITS <= Units(q) <= MAX_UNITS
  {
    var b := q.den;
    var a := b + q.num * SCALE;
    var r := Units(q);
    assert 2 * b * r <= 2 * a + b < 2 * b * (r + 1);
    ScaleAtMost(q.num, b, SCALE);
    assert q.num * SCALE <= b * SCALE;
    // lower bound: 3b <= 2a + b < 2b(r + 1), so 3 < 2(r + 1)
    assert b * 3 < b * (2 * (r + 1));
    CancelLess(3, 2 * (r + 1), b);
    // upper bound: 2br <= 2a + b <= b(2 SCALE + 3)
    assert b * (2 * r) <= b * (2 * SCALE + 3);
    CancelAtMost(2 * r, 2 * SCALE + 3, b);
  }

  /** Ratio 0 gives the minimum level and ratio 1 the maximum, whatever the denominator. */
  lemma {:induction false} UnitsAtEnds(d: Pos)
    ensures Units(Ratio(0, d)) == MIN_UNITS
    ensures Units(Ratio(d, d)) == MAX_UNITS
  {
    var r0 := Units(Ratio(0, d));
    assert d * (2 * r0) <= d * 3 < d * (2 * (r0 + 1));
    CancelAtMost(2 * r0, 3, d);
    CancelLess(3, 2 * (r0 + 1), d);
    var r1 := Units(Ratio(d, d));
    assert 2 * (d + d * SCALE) + d == d * (2 * SCALE + 3);
    assert d * (2 * r1) <= d * (2 * SCALE + 3) < d * (2 * (r1 + 1));
    CancelAtMost(2 * r1, 2 * SCALE + 3, d);
    CancelLess(2 * SCALE + 3, 2 * (r1 + 1), d);
  }

  /** The level never decreases as the ratio grows. */
  lemma {:induction false} UnitsMonotone(p: Ratio, q: Ratio)
    requires AtMost(p, q)
    ensures Units(p) <= Units(q)
  {
    var bp, bq := p.den, q.den;
    var ap, aq := bp + p.num * SCALE, bq + q.num * SCALE;
    var rp, rq := Units(p), Units(q);
    assert 2 * bp * rp <= 2 * ap + bp;
    assert 2 * aq + bq < 2 * bq * (rq + 1);
    // ap/bp <= aq/bq
    ScaleAtMost(p.num * bq, q.num * bp, SCALE);
    assert ap * bq == bp * bq + SCALE * (p.num * bq);
    assert aq * bp == bp * bq + SCALE * (q.num * bp);
    assert ap * bq <= aq * bp;
    // chain the two rounding bounds through the cross-multiplied comparison
    ScaleAtMost(2 * bp * rp, 2 * ap + bp, bq);
    ScaleAtMost(2 * aq + bq, 2 * bq * (rq + 1) - 1, bp);
    assert bq * (2 * ap + bp) <= bp * (2 * aq + bq);
    assert (bp * bq) * (2 * rp) < (bp * bq) * (2 * (rq + 1));
    CancelLess(2 * rp, 2 * (rq + 1), bp * bq);
  }

  /**
   * In lux: the published value lies between 0.0001 and 100000, reaching
   * 0.0001 at ratio 0 and 100000 at ratio 1.
   */
  lemma LuxRange(q: Ratio)
    requires InUnitInterval(q)
    ensures 0.0001 <= Lux(q) <= 100000.0
    ensures q.num == 0 ==> Lux(q) == 0.0001
    ensures q.num == q.den ==> Lux(q) == 100000.0
  {
    UnitsRange(q);
    UnitsAtEnds(q.den);
  }

  /** A ratio of exactly one half rounds up: 500000000.5 becomes 500000001 units. */
  lemma HalfRoundsUp()
    ensures Units(Ratio(1, 2)) == 500000001
  {
  }
}
