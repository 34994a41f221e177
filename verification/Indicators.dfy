/** The moving average and the relative strength index of the scalping strategies. */
module Indicators {
  import opened Reals

  function Sum(xs: seq<real>, n: nat): real
    requires n <= |xs|
  {
    if n == 0 then 0.0 else Sum(xs, n - 1) + xs[n-1]
  }

  function Weight(period: nat): real {
    2.0 / (period + 1) as real
  }

  function Blend(x: real, ema: real, k: real): real {
    (x - ema) * k + ema
  }

  /** The average after the first n prices: the mean of the first period prices, then exponential smoothing. */
  function EmaAt(prices: seq<real>, period: nat, n: nat): real
    requires 0 < period <= n <= |prices|
  {
    if n == period then Sum(prices, period) / period as real
    else Blend(prices[n-1], EmaAt(prices, period, n - 1), Weight(period))
  }

  function Ema(prices: seq<real>, period: nat): real
    requires period > 0
  {
    if |prices| < period then 0.0 else EmaAt(prices, period, |prices|)
  }

  method CalcEma(prices: seq<real>, period: nat) returns (ema: real)
    requires period > 0
    ensures ema == Ema(prices, period)
  {
    if |prices| < period {
      return 0.0;
    }
    var sum := 0.0;
    for i := 0 to period
      invariant sum == Sum(prices, i)
    {
      sum := sum + prices[i];
    }
    ema := sum / period as real;
    var k := Weight(period);
    for i := period to |prices|
      invariant ema == EmaAt(prices, period, i)
    {
      ema := Blend(prices[i], ema, k);
    }
  }

  // ---------------------------------------------------------------- the average stays in range

  predicate Within(xs: seq<real>, lo: real, hi: real) {
    forall i :: 0 <= i < |xs| ==> lo <= xs[i] <= hi
  }

  lemma {:induction false} SumWithin(xs: seq<real>, lo: real, hi: real, n: nat)
    requires n <= |xs| && Within(xs, lo, hi)
    ensures lo * n as real <= Sum(xs, n) <= hi * n as real
  {
    if n == 0 {
    } else {
      SumWithin(xs, lo, hi, n - 1);
      assert lo * n as real == lo * (n - 1) as real + lo;
      assert hi * n as real == hi * (n - 1) as real + hi;
    }
  }

  lemma {:induction false} QuotientWithin(s: real, n: real, lo: real, hi: real)
    requires n > 0.0 && lo * n <= s <= hi * n
    ensures lo <= s / n <= hi
  {
    var q := s / n;
    assert q * n == s;
    assert (q - lo) * n >= 0.0 && (hi - q) * n >= 0.0;
    NonNegativeFactor(q - lo, n);
    NonNegativeFactor(hi - q, n);
  }

  lemma {:induction false} BlendWithin(x: real, ema: real, k: real, lo: real, hi: real)
    requires 0.0 <= k <= 1.0 && lo <= x <= hi && lo <= ema <= hi
    ensures lo <= Blend(x, ema, k) <= hi
  {
    var b := Blend(x, ema, k);
    assert b - lo == (x - lo) * k + (ema - lo) * (1.0 - k);
    ProductNonNegative(x - lo, k);
    ProductNonNegative(ema - lo, 1.0 - k);
    assert hi - b == (hi - x) * k + (hi - ema) * (1.0 - k);
    ProductNonNegative(hi - x, k);
    ProductNonNegative(hi - ema, 1.0 - k);
  }

  lemma {:induction false} WeightRange(period: nat)
    requires period > 0
    ensures 0.0 < Weight(period) <= 1.0
  {
    var n := (period + 1) as real;
    var k := 2.0 / n;
    assert k * n == 2.0 && n >= 2.0;
    QuotientWithin(2.0, n, 0.0, 1.0);
  }

  /** Once there are enough prices, their average lies between any bounds of all of them. */
  lemma {:induction false} EmaWithin(prices: seq<real>, period: nat, n: nat, lo: real, hi: real)
    requires 0 < period <= n <= |prices| && Within(prices, lo, hi)
    ensures lo <= EmaAt(prices, period, n) <= hi
  {
    if n == period {
      SumWithin(prices, lo, hi, period);
      QuotientWithin(Sum(prices, period), period as real, lo, hi);
    } else {
      EmaWithin(prices, period, n - 1, lo, hi);
      WeightRange(period);
      BlendWithin(prices[n-1], EmaAt(prices, period, n - 1), Weight(period), lo, hi);
    }
  }

  // ---------------------------------------------------------------- scaling all prices

  /** ys are the prices xs in another currency unit. */
  predicate Rescaled(ys: seq<real>, xs: seq<real>, c: real) {
    |ys| == |xs| && forall i :: 0 <= i < |xs| ==> PriceScaled(ys, xs, c, i)
  }

  predicate PriceScaled(ys: seq<real>, xs: seq<real>, c: real, i: nat)
    requires i < |ys| && i < |xs|
  {
    ys[i] == c * xs[i]
  }

  lemma {:induction false} SumScales(ys: seq<real>, xs: seq<real>, c: real, n: nat)
    requires Rescaled(ys, xs, c) && n <= |xs|
    ensures Sum(ys, n) == c * Sum(xs, n)
  {
    if n == 0 {
    } else {
      SumScales(ys, xs, c, n - 1);
      assert PriceScaled(ys, xs, c, n - 1);
      Distribute(c, Sum(xs, n - 1), xs[n-1]);
    }
  }

  lemma {:induction false} QuotientScales(c: real, s: real, n: real, s': real)
    requires n > 0.0 && s' == c * s
    ensures s' / n == c * (s / n)
  {
    var q := s / n;
    var r := s' / n;
    assert q * n == s && r * n == s';
    assert (r - c * q) * n == r * n - c * (q * n);
    ZeroFactor(r - c * q, n);
  }

  lemma {:induction false} BlendScales(c: real, x: real, ema: real, k: real, x': real, ema': real)
    requires x' == c * x && ema' == c * ema
    ensures Blend(x', ema', k) == c * Blend(x, ema, k)
  {
    assert (c * x - c * ema) * k == c * ((x - ema) * k);
    Distribute(c, (x - ema) * k, ema);
  }

  /** The average of rescaled prices is the rescaled average. */
  lemma {:induction false} EmaScales(ys: seq<real>, xs: seq<real>, c: real, period: nat, n: nat)
    requires Rescaled(ys, xs, c) && 0 < period <= n <= |xs|
    ensures EmaAt(ys, period, n) == c * EmaAt(xs, period, n)
  {
    if n == period {
      SumScales(ys, xs, c, period);
      QuotientScales(c, Sum(xs, period), period as real, Sum(ys, period));
    } else {
      EmaScales(ys, xs, c, period, n - 1);
      assert PriceScaled(ys, xs, c, n - 1);
      BlendScales(c, xs[n-1], EmaAt(xs, period, n - 1), Weight(period), ys[n-1], EmaAt(ys, period, n - 1));
    }
  }

  function Times(c: real, x: real): real {
    c * x
  }

  lemma {:induction false} EmaScaled(ys: seq<real>, xs: seq<real>, c: real, period: nat)
    requires Rescaled(ys, xs, c) && 0 < period <= |xs|
    ensures Ema(ys, period) == Times(c, Ema(xs, period))
  {
    EmaScales(ys, xs, c, period, |xs|);
  }

  lemma {:induction false} OrderScales(c: real, x: real, y: real)
    requires c > 0.0
    ensures c * x < c * y <==> x < y
    ensures c * x > c * y <==> x > y
    ensures c * x == 0.0 <==> x == 0.0
  {
    var d := y - x;
    assert c * y - c * x == c * d;
    assert d > 0.0 ==> c * d > 0.0;
    assert d < 0.0 ==> c * d < 0.0;
    assert x > 0.0 ==> c * x > 0.0;
    assert x < 0.0 ==> c * x < 0.0;
  }

  // ---------------------------------------------------------------- relative strength

  function Rise(delta: real): real {
    if delta > 0.0 then delta else 0.0
  }

  function Fall(delta: real): real {
    if delta > 0.0 then 0.0 else -delta
  }

  /** The n-th move of a price history. */
  function Move(xs: seq<real>, n: nat): real
    requires 1 < n <= |xs|
  {
    xs[n-1] - xs[n-2]
  }

  /** Sum of the rises among the first n prices. */
  function Gains(xs: seq<real>, n: nat): real
    requires n <= |xs|
  {
    if n <= 1 then 0.0 else Gains(xs, n - 1) + Rise(Move(xs, n))
  }

  /** Sum of the falls among the first n prices. */
  function Losses(xs: seq<real>, n: nat): real
    requires n <= |xs|
  {
    if n <= 1 then 0.0 else Losses(xs, n - 1) + Fall(Move(xs, n))
  }

  function RsiOf(gains: real, losses: real, period: real): real
    requires period > 0.0 && gains >= 0.0 && losses >= 0.0
  {
    var avgGain, avgLoss := gains / period, losses / period;
    if avgLoss == 0.0 then 100.0
    else
      RatioPositive(gains, losses, period);
      100.0 - 100.0 / (1.0 + avgGain / avgLoss)
  }

  lemma {:induction false} RatioPositive(gains: real, losses: real, period: real)
    requires period > 0.0 && gains >= 0.0 && losses >= 0.0
    ensures gains / period >= 0.0 && losses / period >= 0.0
    ensures losses / period == 0.0 <==> losses == 0.0
    ensures losses / period != 0.0 ==> (gains / period) / (losses / period) >= 0.0
  {
    var a, b := gains / period, losses / period;
    assert a * period == gains && b * period == losses;
    NonNegativeFactor(a, period);
    NonNegativeFactor(b, period);
    if b != 0.0 {
      var q := a / b;
      assert q * b == a;
      NonNegativeFactor(q, b);
    }
  }

  lemma {:induction false} MovesNonNegative(xs: seq<real>, n: nat)
    requires n <= |xs|
    ensures Gains(xs, n) >= 0.0 && Losses(xs, n) >= 0.0
  {
    if n <= 1 {
    } else {
      MovesNonNegative(xs, n - 1);
    }
  }

  function Rsi(prices: seq<real>, period: nat): real
    requires period > 0
  {
    if |prices| < period + 1 then 50.0 else SliceRsi(prices[|prices|-(period+1)..], period)
  }

  /** The index over exactly one period of moves. */
  function SliceRsi(slice: seq<real>, period: nat): real
    requires |slice| == period + 1 > 1
  {
    MovesNonNegative(slice, period + 1);
    RsiOf(Gains(slice, period + 1), Losses(slice, period + 1), period as real)
  }

  method CalcRsi(prices: seq<real>, period: nat) returns (rsi: real)
    requires period > 0
    ensures rsi == Rsi(prices, period)
  {
    if |prices| < period + 1 {
      return 50.0;
    }
    var slice := prices[|prices|-(period+1)..];
    var gains, losses := 0.0, 0.0;
    for i := 1 to |slice|
      invariant gains == Gains(slice, i) && losses == Losses(slice, i)
    {
      var delta := slice[i] - slice[i-1];
      if delta > 0.0 {
        gains := gains + delta;
      } else {
        losses := losses - delta;
      }
    }
    MovesNonNegative(slice, period + 1);
    rsi := RsiOf(gains, losses, period as real);
  }

  lemma {:induction false} RsiOfRange(gains: real, losses: real, period: real)
    requires period > 0.0 && gains >= 0.0 && losses >= 0.0
    ensures 0.0 <= RsiOf(gains, losses, period) <= 100.0
  {
    RatioPositive(gains, losses, period);
    if losses / period != 0.0 {
      var d := 1.0 + (gains / period) / (losses / period);
      QuotientWithin(100.0, d, 0.0, 100.0);
    }
  }

  /** The index lies between 0 and 100 for every price history. */
  lemma {:induction false} RsiRange(prices: seq<real>, period: nat)
    requires period > 0
    ensures 0.0 <= Rsi(prices, period) <= 100.0
  {
    if |prices| >= period + 1 {
      var slice := prices[|prices|-(period+1)..];
      MovesNonNegative(slice, period + 1);
      RsiOfRange(Gains(slice, period + 1), Losses(slice, period + 1), period as real);
    }
  }

  lemma {:induction false} GainsScale(ys: seq<real>, xs: seq<real>, c: real, n: nat)
    requires c > 0.0 && Rescaled(ys, xs, c) && n <= |xs|
    ensures Gains(ys, n) == c * Gains(xs, n)
  {
    if n <= 1 {
    } else {
      GainsScale(ys, xs, c, n - 1);
      MoveScales(ys, xs, c, n);
      SumOfScaled(c, Gains(xs, n - 1), Rise(Move(xs, n)), Gains(ys, n - 1), Rise(Move(ys, n)));
    }
  }

  lemma {:induction false} LossesScale(ys: seq<real>, xs: seq<real>, c: real, n: nat)
    requires c > 0.0 && Rescaled(ys, xs, c) && n <= |xs|
    ensures Losses(ys, n) == c * Losses(xs, n)
  {
    if n <= 1 {
    } else {
      LossesScale(ys, xs, c, n - 1);
      MoveScales(ys, xs, c, n);
      SumOfScaled(c, Losses(xs, n - 1), Fall(Move(xs, n)), Losses(ys, n - 1), Fall(Move(ys, n)));
    }
  }

  lemma {:induction false} SumOfScaled(c: real, x: real, y: real, x': real, y': real)
    requires x' == c * x && y' == c * y
    ensures x' + y' == c * (x + y)
  {}

  lemma {:induction false} MoveScales(ys: seq<real>, xs: seq<real>, c: real, n: nat)
    requires c > 0.0 && Rescaled(ys, xs, c) && 1 < n <= |xs|
    ensures Rise(Move(ys, n)) == c * Rise(Move(xs, n)) && Fall(Move(ys, n)) == c * Fall(Move(xs, n))
  {
    assert PriceScaled(ys, xs, c, n - 1) && PriceScaled(ys, xs, c, n - 2);
    DifferenceScales(c, xs[n-1], xs[n-2], ys[n-1], ys[n-2]);
  }

  lemma {:induction false} DifferenceScales(c: real, x: real, y: real, x': real, y': real)
    requires c > 0.0 && x' == c * x && y' == c * y
    ensures Rise(x' - y') == c * Rise(x - y) && Fall(x' - y') == c * Fall(x - y)
  {
    var d := x - y;
    assert x' - y' == c * d;
    OrderScales(c, 0.0, d);
  }

  lemma {:induction false} RatioScales(c: real, a: real, b: real, a': real, b': real)
    requires c > 0.0 && b != 0.0 && a' == c * a && b' == c * b && b' != 0.0
    ensures a' / b' == a / b
  {
    var q, r := a / b, a' / b';
    assert q * b == a && r * b' == a';
    assert (r - q) * b' == a' - c * (q * b);
    ZeroFactor(r - q, b');
  }

  lemma {:induction false} RsiOfScales(c: real, gains: real, losses: real, period: real, gains': real, losses': real)
    requires c > 0.0 && period > 0.0 && gains >= 0.0 && losses >= 0.0
    requires gains' == c * gains && gains' >= 0.0 && losses' == c * losses && losses' >= 0.0
    ensures RsiOf(gains', losses', period) == RsiOf(gains, losses, period)
  {
    QuotientScales(c, gains, period, gains');
    QuotientScales(c, losses, period, losses');
    OrderScales(c, losses / period, 0.0);
    if losses / period != 0.0 {
      RatioScales(c, gains / period, losses / period, gains' / period, losses' / period);
    }
  }

  lemma {:induction false} SliceRescaled(ys: seq<real>, xs: seq<real>, c: real, k: nat)
    requires Rescaled(ys, xs, c) && k <= |xs|
    ensures Rescaled(ys[k..], xs[k..], c)
  {
    forall i | 0 <= i < |xs[k..]| ensures PriceScaled(ys[k..], xs[k..], c, i) {
      assert PriceScaled(ys, xs, c, k + i);
    }
  }

  /** The index does not depend on the currency unit. */
  lemma {:induction false} RsiScales(ys: seq<real>, xs: seq<real>, c: real, period: nat)
    requires c > 0.0 && Rescaled(ys, xs, c) && period > 0
    ensures Rsi(ys, period) == Rsi(xs, period)
  {
    if |xs| >= period + 1 {
      var k := |xs| - (period + 1);
      SliceRescaled(ys, xs, c, k);
      SliceRsiScales(ys[k..], xs[k..], c, period);
    }
  }

  lemma {:induction false} SliceRsiScales(ys: seq<real>, xs: seq<real>, c: real, period: nat)
    requires c > 0.0 && Rescaled(ys, xs, c) && |xs| == period + 1 > 1
    ensures SliceRsi(ys, period) == SliceRsi(xs, period)
  {
    var n := period + 1;
    GainsScale(ys, xs, c, n);
    LossesScale(ys, xs, c, n);
    MovesNonNegative(xs, n);
    MovesNonNegative(ys, n);
    RsiOfScales(c, Gains(xs, n), Losses(xs, n), period as real, Gains(ys, n), Losses(ys, n));
  }

  // ---------------------------------------------------------------- which way they point

  /** The average starts as the mean of the first period prices, and each further price pulls it by 2 / (period + 1) of
      the distance. */
  lemma {:induction false} EmaMoves(prices: seq<real>, x: real, period: nat)
    requires 0 < period <= |prices|
    ensures |prices| == period ==> Ema(prices, period) * period as real == Sum(prices, period)
    ensures Ema(prices + [x], period) == Ema(prices, period) + (x - Ema(prices, period)) * (2.0 / (period + 1) as real)
  {
    var n := |prices|;
    EmaOfPrefix(prices + [x], prices, period, n);
    if n == period {
      var q := Sum(prices, period) / period as real;
      assert q * period as real == Sum(prices, period);
    }
  }

  lemma {:induction false} EmaOfPrefix(xs: seq<real>, ys: seq<real>, period: nat, n: nat)
    requires 0 < period <= n <= |ys| && ys <= xs
    ensures EmaAt(xs, period, n) == EmaAt(ys, period, n)
  {
    if n == period {
      SumOfPrefix(xs, ys, n);
    } else {
      EmaOfPrefix(xs, ys, period, n - 1);
    }
  }

  lemma {:induction false} SumOfPrefix(xs: seq<real>, ys: seq<real>, n: nat)
    requires n <= |ys| && ys <= xs
    ensures Sum(xs, n) == Sum(ys, n)
  {
    if n == 0 {
    } else {
      SumOfPrefix(xs, ys, n - 1);
    }
  }

  /** Too few prices give no average and a neutral index. */
  lemma {:induction false} TooFewPrices(prices: seq<real>, period: nat)
    requires period > 0
    ensures |prices| < period ==> Ema(prices, period) == 0.0
    ensures |prices| <= period ==> Rsi(prices, period) == 50.0
  {}

  /** Rises less falls are the move from the first price to the last. */
  lemma {:induction false} MovesTelescope(xs: seq<real>, n: nat)
    requires 0 < n <= |xs|
    ensures Gains(xs, n) - Losses(xs, n) == xs[n-1] - xs[0]
  {
    if n == 1 {
    } else {
      MovesTelescope(xs, n - 1);
    }
  }

  /** The index is the share of the rises in all moves, in percent; 100 when there are no falls. */
  lemma {:induction false} RsiIsShareOfRises(gains: real, losses: real, all: real, period: real)
    requires period > 0.0 && gains >= 0.0 && losses >= 0.0 && all == gains + losses
    ensures losses == 0.0 ==> RsiOf(gains, losses, period) == 100.0
    ensures losses > 0.0 ==> RsiOf(gains, losses, period) * all == 100.0 * gains
  {
    RatioPositive(gains, losses, period);
    if losses > 0.0 {
      var a, b := gains / period, losses / period;
      var q := a / b;
      assert a * period == gains && b * period == losses && q * b == a;
      TimesThrough(q, b, period, a, losses, gains);
      ShareOfRises(gains, losses, all, q);
    }
  }

  lemma {:induction false} TimesThrough(q: real, b: real, period: real, a: real, losses: real, gains: real)
    requires a * period == gains && b * period == losses && q * b == a
    ensures q * losses == gains
  {
    assert q * (b * period) == (q * b) * period;
  }

  lemma {:induction false} ShareOfRises(gains: real, losses: real, all: real, q: real)
    requires losses > 0.0 && q >= 0.0 && q * losses == gains && all == gains + losses
    ensures (100.0 - 100.0 / (1.0 + q)) * all == 100.0 * gains
  {
    var r, d := 100.0 / (1.0 + q), 1.0 + q;
    assert r * d == 100.0;
    assert all == d * losses;
    assert r * (d * losses) == (r * d) * losses;
    RestOfShare(r, all, losses);
  }

  lemma {:induction false} RestOfShare(r: real, all: real, losses: real)
    requires r * all == 100.0 * losses
    ensures (100.0 - r) * all == 100.0 * (all - losses)
  {}

  /** The index is below 50 exactly when the price has fallen over the period, and above 50 exactly when it has risen
      or never fallen. */
  lemma {:induction false} RsiTellsDirection(prices: seq<real>, period: nat)
    requires 0 < period < |prices|
    ensures var last := |prices| - 1;
            var neverFell := forall i :: last - period < i <= last ==> prices[i-1] <= prices[i];
            && (Rsi(prices, period) < 50.0 <==> prices[last] < prices[last-period])
            && (Rsi(prices, period) > 50.0 <==> neverFell || prices[last] > prices[last-period])
  {
    var slice := prices[|prices|-(period+1)..];
    var gains, losses := Gains(slice, period + 1), Losses(slice, period + 1);
    MovesNonNegative(slice, period + 1);
    MovesTelescope(slice, period + 1);
    RsiIsShareOfRises(gains, losses, gains + losses, period as real);
    ShareAboveHalf(gains, losses, gains + losses, Rsi(prices, period));
    NoFalls(slice, period + 1);
    if losses == 0.0 {
      forall i | |prices| - 1 - period < i <= |prices| - 1 ensures prices[i-1] <= prices[i] {
        var j := i - (|prices| - 1 - period);
        assert slice[j-1] <= slice[j];
      }
    } else if forall i :: |prices| - 1 - period < i <= |prices| - 1 ==> prices[i-1] <= prices[i] {
      forall j | 0 < j < period + 1 ensures slice[j-1] <= slice[j] {
        assert prices[|prices|-(period+1)+j-1] <= prices[|prices|-(period+1)+j];
      }
      assert false;
    }
  }

  lemma {:induction false} ShareAboveHalf(gains: real, losses: real, all: real, rsi: real)
    requires gains >= 0.0 && losses >= 0.0 && all == gains + losses
    requires losses == 0.0 ==> rsi == 100.0
    requires losses > 0.0 ==> rsi * all == 100.0 * gains
    ensures rsi < 50.0 <==> gains < losses
    ensures rsi > 50.0 <==> gains > losses || losses == 0.0
  {
    if losses > 0.0 {
      Scaled(rsi, 50.0, all);
      Scaled(50.0, rsi, all);
    }
  }

  lemma {:induction false} NoFalls(xs: seq<real>, n: nat)
    requires n <= |xs|
    ensures Losses(xs, n) == 0.0 <==> forall j :: 0 < j < n ==> xs[j-1] <= xs[j]
  {
    if n <= 1 {
    } else {
      NoFalls(xs, n - 1);
      MovesNonNegative(xs, n - 1);
    }
  }
}
