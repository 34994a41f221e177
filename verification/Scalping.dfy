/** The example strategy: EMA crossover with trend and RSI filters, a cooldown and a daily limit. */
module Scalping {
  import opened Options
  import opened Reals
  import opened Signals
  import opened Lots
  import opened Indicators
  import opened Engines

  const NANOS_PER_SECOND := 1_000_000_000

  datatype Params = Params(
    fastPeriod: int,
    slowPeriod: int,
    trendPeriod: int,
    rsiPeriod: int,
    rsiOverbought: real,
    rsiOversold: real,
    takeProfitPct: real,
    stopLossPct: real,
    cooldownSec: int,
    maxDailyTrades: int,
    orderNotional: real)

  /** What Initialize accepts. */
  predicate Validated(p: Params) {
    0 < p.fastPeriod < p.slowPeriod && p.takeProfitPct > 0.0 && p.stopLossPct > 0.0 && p.cooldownSec >= 0
    && p.maxDailyTrades > 0 && p.orderNotional > 0.0
  }

  /** Runtime state; None stands for a zero time or an empty date. */
  datatype State = State(lastTrade: Option<int>, dailyCount: int, lastDay: Option<int>, lastSeen: Option<int>)

  const FRESH := State(None, 0, None, None)

  function Seen(st: State, timestamp: int): State {
    if timestamp == ZERO_TIME then st else st.(lastSeen := Some(timestamp))
  }

  /** Simulated time; the wall clock only before any timestamp has been seen. */
  function Now(st: State, wall: int): int {
    if st.lastSeen.Some? then st.lastSeen.value else wall
  }

  predicate InCooldown(p: Params, st: State, wall: int) {
    st.lastTrade.Some? && p.cooldownSec != 0
    && Now(st, wall) - st.lastTrade.value < p.cooldownSec * NANOS_PER_SECOND
  }

  predicate DailyLimitReached(p: Params, st: State, wall: int) {
    st.lastDay == Some(JstDay(Now(st, wall))) && st.dailyCount >= p.maxDailyTrades
  }

  function Recorded(st: State, wall: int): State {
    var now := Now(st, wall);
    var today := JstDay(now);
    State(Some(now), if st.lastDay == Some(today) then st.dailyCount + 1 else 1, Some(today), st.lastSeen)
  }

  /** Fast average against slow average. */
  function Crossover(prices: seq<real>, fast: nat, slow: nat): Action
    requires fast > 0 && slow > 0
  {
    SideOf(Ema(prices, fast), Ema(prices, slow))
  }

  function SideOf(fast: real, slow: real): Action {
    if fast > slow then Buy else if fast < slow then Sell else Hold
  }

  /** The crossover once the trend filter and the RSI filter have had their say. */
  function Filtered(p: Params, price: real, prices: seq<real>): Action
    requires Validated(p)
  {
    var a := Crossover(prices, p.fastPeriod, p.slowPeriod);
    if a == Buy && p.trendPeriod > 0 && (|prices| < p.trendPeriod || price < Ema(prices, p.trendPeriod)) then Hold
    else if a != Hold && p.rsiPeriod > 0
            && ((a == Buy && Rsi(prices, p.rsiPeriod) > p.rsiOverbought)
                || (a == Sell && Rsi(prices, p.rsiPeriod) < p.rsiOversold)) then Hold
    else a
  }

  function Decide(p: Params, st: State, wall: int, price: real, prices: seq<real>): Action
    requires Validated(p)
  {
    if |prices| < p.slowPeriod || InCooldown(p, st, wall) || DailyLimitReached(p, st, wall) then Hold
    else Filtered(p, price, prices)
  }

  class ScalpingStrategy {
    const p: Params
    var lastTrade: Option<int>
    var dailyCount: int
    var lastDay: Option<int>
    var lastSeen: Option<int>

    constructor (p: Params)
      ensures this.p == p && View() == FRESH
    {
      this.p := p;
      lastTrade, dailyCount, lastDay, lastSeen := None, 0, None, None;
    }

    ghost function View(): State
      reads this
    {
      State(lastTrade, dailyCount, lastDay, lastSeen)
    }

    /** wall is the reading of the wall clock. */
    method GenerateSignal(timestamp: int, price: real, prices: seq<real>, wall: int)
      returns (action: Action, quantity: real)
      requires Validated(p)
      modifies this
      ensures View() == Seen(old(View()), timestamp)
      ensures action == Decide(p, View(), wall, price, prices)
      ensures action != Hold ==> quantity == if price > 0.0 then p.orderNotional / price else 0.0
    {
      if timestamp != ZERO_TIME {
        lastSeen := Some(timestamp);
      }
      if |prices| < p.slowPeriod {
        return Hold, 0.0;
      }
      var fast := CalcEma(prices, p.fastPeriod);
      var slow := CalcEma(prices, p.slowPeriod);
      var cooling := IsInCooldown(wall);
      if cooling {
        return Hold, 0.0;
      }
      var limited := IsDailyLimitReached(wall);
      if limited {
        return Hold, 0.0;
      }
      action := if fast > slow then Buy else if fast < slow then Sell else Hold;
      if action == Buy && p.trendPeriod > 0 {
        if |prices| < p.trendPeriod {
          return Hold, 0.0;
        }
        var trend := CalcEma(prices, p.trendPeriod);
        if price < trend {
          return Hold, 0.0;
        }
      }
      if action != Hold && p.rsiPeriod > 0 {
        var rsi := CalcRsi(prices, p.rsiPeriod);
        if action == Buy && rsi > p.rsiOverbought {
          return Hold, 0.0;
        }
        if action == Sell && rsi < p.rsiOversold {
          return Hold, 0.0;
        }
      }
      quantity := 0.0;
      if price > 0.0 {
        quantity := p.orderNotional / price;
      }
    }

    method IsInCooldown(wall: int) returns (r: bool)
      ensures r <==> InCooldown(p, View(), wall)
    {
      if lastTrade.None? || p.cooldownSec == 0 {
        return false;
      }
      var now := if lastSeen.Some? then lastSeen.value else wall;
      return now - lastTrade.value < p.cooldownSec * NANOS_PER_SECOND;
    }

    method IsDailyLimitReached(wall: int) returns (r: bool)
      ensures r <==> DailyLimitReached(p, View(), wall)
    {
      var now := if lastSeen.Some? then lastSeen.value else wall;
      if lastDay != Some(JstDay(now)) {
        return false;
      }
      return dailyCount >= p.maxDailyTrades;
    }

    method RecordTrade(wall: int)
      modifies this
      ensures View() == Recorded(old(View()), wall)
    {
      var now := if lastSeen.Some? then lastSeen.value else wall;
      lastTrade := Some(now);
      var today := JstDay(now);
      if lastDay != Some(today) {
        dailyCount, lastDay := 1, Some(today);
      } else {
        dailyCount := dailyCount + 1;
      }
    }
  }

  // ---------------------------------------------------------------- currency units

  lemma {:induction false} CrossoverScales(ys: seq<real>, xs: seq<real>, c: real, fast: nat, slow: nat)
    requires c > 0.0 && Rescaled(ys, xs, c) && 0 < fast <= |xs| && 0 < slow <= |xs|
    ensures Crossover(ys, fast, slow) == Crossover(xs, fast, slow)
  {
    EmaScaled(ys, xs, c, fast);
    EmaScaled(ys, xs, c, slow);
    SidesScale(c, Ema(xs, fast), Ema(xs, slow));
  }

  lemma {:induction false} SidesScale(c: real, f: real, s: real)
    requires c > 0.0
    ensures SideOf(Times(c, f), Times(c, s)) == SideOf(f, s)
  {
    OrderScales(c, f, s);
  }

  lemma {:induction false} TrendScales(price: real, ys: seq<real>, xs: seq<real>, c: real, period: nat)
    requires c > 0.0 && Rescaled(ys, xs, c) && 0 < period <= |xs|
    ensures c * price < Ema(ys, period) <==> price < Ema(xs, period)
  {
    EmaScaled(ys, xs, c, period);
    OrderScales(c, price, Ema(xs, period));
  }

  /** The decision does not depend on the unit that all prices are quoted in. */
  lemma {:induction false} DecisionScales(p: Params, st: State, wall: int, price: real, ys: seq<real>, xs: seq<real>,
                                          c: real)
    requires Validated(p) && c > 0.0 && Rescaled(ys, xs, c)
    ensures Decide(p, st, wall, c * price, ys) == Decide(p, st, wall, price, xs)
  {
    if |xs| >= p.slowPeriod {
      CrossoverScales(ys, xs, c, p.fastPeriod, p.slowPeriod);
      if 0 < p.trendPeriod <= |xs| {
        TrendScales(price, ys, xs, c, p.trendPeriod);
      }
      if p.rsiPeriod > 0 {
        RsiScales(ys, xs, c, p.rsiPeriod);
      }
    }
  }

  // ---------------------------------------------------------------- when it trades

  /** Neither cooling down nor out of trades for the day, in simulated time once a timestamp has been seen. */
  predicate Free(p: Params, st: State, wall: int) {
    var now := if st.lastSeen == None then wall else st.lastSeen.value;
    && (st.lastTrade == None || p.cooldownSec == 0 || now - st.lastTrade.value >= p.cooldownSec * 1_000_000_000)
    && (st.lastDay != Some(JstDay(now)) || st.dailyCount < p.maxDailyTrades)
  }

  /** It buys exactly when there are enough prices, nothing holds it back, the fast average is above the slow one, the
      price is not below its trend, and the index is not overbought; a filter without a period is off. */
  lemma {:induction false} BuysIff(p: Params, st: State, wall: int, price: real, prices: seq<real>)
    requires Validated(p)
    ensures Decide(p, st, wall, price, prices) == Buy <==>
              && |prices| >= p.slowPeriod && Free(p, st, wall)
              && Ema(prices, p.fastPeriod) > Ema(prices, p.slowPeriod)
              && (p.trendPeriod > 0 ==> |prices| >= p.trendPeriod && price >= Ema(prices, p.trendPeriod))
              && (p.rsiPeriod > 0 ==> Rsi(prices, p.rsiPeriod) <= p.rsiOverbought)
  {}

  /** It sells exactly when there are enough prices, nothing holds it back, the fast average is below the slow one, and
      the index is not oversold; the trend has no say. */
  lemma {:induction false} SellsIff(p: Params, st: State, wall: int, price: real, prices: seq<real>)
    requires Validated(p)
    ensures Decide(p, st, wall, price, prices) == Sell <==>
              && |prices| >= p.slowPeriod && Free(p, st, wall)
              && Ema(prices, p.fastPeriod) < Ema(prices, p.slowPeriod)
              && (p.rsiPeriod > 0 ==> Rsi(prices, p.rsiPeriod) >= p.rsiOversold)
  {}

  /** After a quiet stretch the crossover follows the first move: up is BUY, down is SELL. */
  lemma {:induction false} CrossoverFollowsBreakout(prices: seq<real>, c: real, x: real, fast: nat, slow: nat)
    requires 0 < fast < slow <= |prices| && forall i :: 0 <= i < |prices| ==> prices[i] == c
    ensures Crossover(prices + [x], fast, slow) == if x > c then Buy else if x < c then Sell else Hold
  {
    PulledFrom(prices, c, x, fast);
    PulledFrom(prices, c, x, slow);
    ShorterIsFaster(fast, slow);
    FollowsPull(c, x, 2.0 / (fast + 1) as real, 2.0 / (slow + 1) as real, Ema(prices + [x], fast),
                Ema(prices + [x], slow));
  }

  lemma {:induction false} PulledFrom(prices: seq<real>, c: real, x: real, period: nat)
    requires 0 < period <= |prices| && forall i :: 0 <= i < |prices| ==> prices[i] == c
    ensures Ema(prices + [x], period) == c + (x - c) * (2.0 / (period + 1) as real)
  {
    EmaWithin(prices, period, |prices|, c, c);
    EmaMoves(prices, x, period);
    assert Ema(prices, period) == c;
  }

  lemma {:induction false} FollowsPull(c: real, x: real, f: real, s: real, fast: real, slow: real)
    requires f > s && fast == c + (x - c) * f && slow == c + (x - c) * s
    ensures SideOf(fast, slow) == if x > c then Buy else if x < c then Sell else Hold
  {
    PullOrder(x - c, f, s);
  }

  lemma {:induction false} ShorterIsFaster(fast: nat, slow: nat)
    requires fast < slow
    ensures 2.0 / (fast + 1) as real > 2.0 / (slow + 1) as real
  {
    var m, n := (fast + 1) as real, (slow + 1) as real;
    var f, s := 2.0 / m, 2.0 / n;
    assert f * m == 2.0 && s * n == 2.0;
    LargerQuotient(m, n, f, s);
  }

  lemma {:induction false} LargerQuotient(m: real, n: real, f: real, s: real)
    requires 0.0 < m < n && f * m == 2.0 && s * n == 2.0
    ensures f > s
  {
    Scaled(0.0, s, n);
    PositiveProduct(n - m, s);
    DifferenceTimes(n, m, s);
    DifferenceTimes(f, s, m);
    Scaled(0.0, f - s, m);
  }

  lemma {:induction false} PullOrder(d: real, f: real, s: real)
    requires f > s
    ensures d > 0.0 ==> d * f > d * s
    ensures d < 0.0 ==> d * f < d * s
    ensures d == 0.0 ==> d * f == d * s
  {
    assert d * f - d * s == d * (f - s);
    if d > 0.0 {
      PositiveProduct(d, f - s);
    } else if d < 0.0 {
      PositiveProduct(-d, f - s);
    }
  }
}
