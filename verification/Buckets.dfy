/** Bars and the period-aligned buckets they fall into. Times are Unix nanoseconds. */
module Buckets {

  datatype Bar = Bar(
    symbol: string,
    timestamp: int,
    open: real,
    high: real,
    low: real,
    close: real,
    volume: real)

  /** Go's %: the remainder takes the sign of the dividend. */
  function TruncMod(a: int, b: int): int
    requires b > 0
  {
    if a >= 0 then a % b else -((-a) % b)
  }

  /** Start of the bucket of an instant; the resampler and the live worker both compute it this way. */
  function BucketStart(ns: int, period: int): int
    requires period > 0
  {
    var start := ns - TruncMod(ns, period);
    if ns < 0 && TruncMod(ns, period) != 0 then start - period else start
  }

  lemma {:induction false} SmallMultiple(k: int, p: int)
    requires p > 0 && 0 <= k * p < p
    ensures k == 0
  {
    assert k >= 1 ==> k * p >= p;
    assert k <= -1 ==> k * p <= -p;
  }

  lemma {:induction false} MultipleMod(q: int, p: int)
    requires p > 0
    ensures (q * p) % p == 0
  {
    var d := (q * p) / p;
    assert q * p == d * p + (q * p) % p;
    assert (q - d) * p == (q * p) % p;
    SmallMultiple(q - d, p);
  }

  /** The bucket start is the greatest multiple of the period at or before the instant, negative times included. */
  lemma {:induction false} BucketBounds(ns: int, period: int)
    requires period > 0
    ensures var s := BucketStart(ns, period);
            s <= ns < s + period && s % period == 0
  {
    if ns >= 0 {
      var q := ns / period;
      assert ns - ns % period == q * period;
      MultipleMod(q, period);
    } else {
      var q := (-ns) / period;
      assert -ns - (-ns) % period == q * period;
      MultipleMod(-q, period);
      MultipleMod(-q - 1, period);
      assert (-q - 1) * period == -(q * period) - period && (-q) * period == -(q * period);
    }
  }

  lemma {:induction false} MultiplesApart(a: int, b: int, p: int)
    requires p > 0 && a % p == 0 && b % p == 0 && a < b
    ensures a + p <= b
  {
    var k := b / p - a / p;
    assert a == (a / p) * p && b == (b / p) * p;
    assert b - a == k * p;
    assert k <= 0 ==> k * p <= 0;
    assert k >= 1 ==> k * p >= p;
  }

  /** Later instants never fall into earlier buckets. */
  lemma {:induction false} BucketMonotone(a: int, b: int, period: int)
    requires period > 0 && a <= b
    ensures BucketStart(a, period) <= BucketStart(b, period)
  {
    BucketBounds(a, period);
    BucketBounds(b, period);
    if BucketStart(a, period) > BucketStart(b, period) {
      MultiplesApart(BucketStart(b, period), BucketStart(a, period), period);
    }
  }

  lemma {:induction false} MultipleOfMultiple(a: int, q: int, p: int)
    requires p > 0 && q > 0 && a % q == 0 && q % p == 0
    ensures a % p == 0
  {
    var x, y := a / q, q / p;
    assert a == x * q && q == y * p;
    assert x * (y * p) == (x * y) * p;
    MultipleMod(x * y, p);
  }

  /** Coarser buckets are unions of finer ones: they can be computed from the finer bucket start. */
  lemma {:induction false} BucketOfBucket(ns: int, fine: int, coarse: int)
    requires fine > 0 && coarse > 0 && coarse % fine == 0
    ensures BucketStart(BucketStart(ns, fine), coarse) == BucketStart(ns, coarse)
  {
    var s, b := BucketStart(ns, fine), BucketStart(ns, coarse);
    BucketBounds(ns, fine);
    BucketBounds(ns, coarse);
    BucketBounds(s, coarse);
    MultipleOfMultiple(b, coarse, fine);
    if s < b {
      MultiplesApart(s, b, fine);
    }
    var c := BucketStart(s, coarse);
    if c < b {
      MultiplesApart(c, b, coarse);
    } else if b < c {
      MultiplesApart(b, c, coarse);
    }
  }
}
