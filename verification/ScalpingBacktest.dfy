/** The example strategy inside the backtest engine: its limits hold in simulated time. */
module ScalpingBacktest {
  import opened Options
  import opened Buckets
  import opened Signals
  import opened Lots
  import opened Simulators
  import opened Engines
  import opened Scalping
  import opened Portfolios
  import opened EquityLaws
  import opened TradeCosts

  /** The strategy's state together with the times at which trades were recorded. */
  datatype Logged = Logged(state: State, log: seq<int>)

  function PricesOf(history: seq<Point>): (r: seq<real>)
    ensures |r| == |history|
  {
    if history == [] then [] else PricesOf(history[..|history|-1]) + [history[|history|-1].price]
  }

  /** What GenerateSignal does to the state, and its answer. */
  function Respond(p: Params, wall: int, l: Logged, point: Point, history: seq<Point>): (Answer, Logged)
    requires Validated(p)
  {
    var seen := Seen(l.state, point.timestamp);
    (Signal(Decide(p, seen, wall, point.price, PricesOf(history))), l.(state := seen))
  }

  function Record(wall: int, l: Logged): Logged {
    Logged(Recorded(l.state, wall), l.log + [Now(l.state, wall)])
  }

  /** The example strategy as the engine sees it; wall is what the wall clock would read. */
  function AsStrategy(p: Params, wall: int): Strategy<Logged>
    requires Validated(p)
  {
    Strategy((l, point, history) => Respond(p, wall, l, point, history),
             l => Record(wall, l),
             (l, symbol) => p.orderNotional,
             (l, entry) => entry * (1.0 + p.takeProfitPct / 100.0),
             (l, entry) => entry * (1.0 - p.stopLossPct / 100.0))
  }

  function CountOn(log: seq<int>, day: int): nat {
    if log == [] then 0
    else CountOn(log[..|log|-1], day) + if JstDay(log[|log|-1]) == day then 1 else 0
  }

  predicate Apart(p: Params, log: seq<int>) {
    forall i :: 0 < i < |log| ==> log[i] - log[i-1] >= p.cooldownSec * NANOS_PER_SECOND
  }

  predicate WithinDailyLimit(p: Params, log: seq<int>) {
    forall i :: 0 <= i < |log| ==> CountOn(log, JstDay(log[i])) <= p.maxDailyTrades
  }

  /** The state agrees with the log, no day is over its limit, and recorded times keep their distance. */
  predicate LogOk(p: Params, l: Logged) {
    var n := |l.log| - 1;
    && (l.log == [] ==> l.state.lastTrade == None && l.state.lastDay == None)
    && (l.log != [] ==>
          && l.state.lastTrade == Some(l.log[n]) && l.state.lastDay == Some(JstDay(l.log[n]))
          && l.state.dailyCount == CountOn(l.log, JstDay(l.log[n]))
          && l.state.lastSeen.Some? && l.log[n] <= l.state.lastSeen.value)
    && (forall i :: 0 <= i < |l.log| ==> JstDay(l.log[i]) <= JstDay(l.log[n]))
    && Apart(p, l.log) && WithinDailyLimit(p, l.log)
  }

  lemma {:induction false} LaterDay(a: int, b: int)
    requires a <= b
    ensures JstDay(a) <= JstDay(b)
  {}

  lemma {:induction false} NoneOn(log: seq<int>, day: int)
    requires forall i :: 0 <= i < |log| ==> JstDay(log[i]) != day
    ensures CountOn(log, day) == 0
    decreases |log|
  {
    if log == [] {
    } else {
      NoneOn(log[..|log|-1], day);
    }
  }

  /** Recording right after an answer that was neither in cooldown nor over the limit keeps the log in order. */
  lemma {:induction false} RecordKeepsOk(p: Params, wall: int, l: Logged)
    requires Validated(p) && LogOk(p, l) && l.state.lastSeen.Some?
    requires !InCooldown(p, l.state, wall) && !DailyLimitReached(p, l.state, wall)
    ensures LogOk(p, Record(wall, l))
  {
    var now := l.state.lastSeen.value;
    var log := l.log + [now];
    var n := |l.log|;
    assert log[..n] == l.log;
    if n > 0 {
      LaterDay(l.log[n-1], now);
      if JstDay(l.log[n-1]) != JstDay(now) {
        NoneOn(l.log, JstDay(now));
      }
    }
    forall i | 0 <= i < |log| ensures CountOn(log, JstDay(log[i])) <= p.maxDailyTrades {
      if i < n && JstDay(log[i]) != JstDay(now) {
        assert log[i] == l.log[i];
      }
    }
  }

  predicate InTimeOrder(bars: seq<Bar>) {
    && (forall i :: 0 <= i < |bars| ==> bars[i].timestamp != ZERO_TIME)
    && (forall i, j :: 0 <= i < j < |bars| ==> bars[i].timestamp <= bars[j].timestamp)
  }

  /** The log is in order and no later than the last bar evaluated. */
  predicate RunOk(p: Params, bars: seq<Bar>, k: nat, l: Logged)
    requires k <= |bars|
  {
    LogOk(p, l) && (l.state.lastSeen.Some? ==> k >= 3 && l.state.lastSeen.value <= bars[k-3].timestamp)
  }

  lemma {:induction false} RespondKeepsOk(p: Params, wall: int, l: Logged, point: Point, history: seq<Point>)
    requires Validated(p) && LogOk(p, l)
    requires l.state.lastSeen.Some? && point.timestamp != ZERO_TIME ==> l.state.lastSeen.value <= point.timestamp
    requires point.timestamp == ZERO_TIME ==> |history| < p.slowPeriod
    ensures var (answer, l') := Respond(p, wall, l, point, history);
            && LogOk(p, l')
            && (answer != Signal(Hold) ==> l'.state.lastSeen.Some? && LogOk(p, Record(wall, l')))
  {
    var (answer, l') := Respond(p, wall, l, point, history);
    if answer != Signal(Hold) {
      RecordKeepsOk(p, wall, l');
    }
  }

  lemma {:induction false} ArrivalKeepsOk(cfg: EngineConfig, p: Params, wall: int, bars: seq<Bar>, i: nat,
                                          st: RunState<Logged>)
    requires Validated(p) && 1 <= i < |bars| && Tradable(cfg, bars) && InTimeOrder(bars)
    requires RunOk(p, bars, i, st.strategy)
    ensures var next := Arrival(cfg, AsStrategy(p, wall), bars, i, st);
            next.Some? && RunOk(p, bars, i + 1, next.value.strategy)
  {
    StrategyAfterArrival(cfg, AsStrategy(p, wall), bars, i, st);
    if i + 1 > cfg.warmupBars {
      EvaluationTime(cfg, p, bars, i);
      RespondKeepsOk(p, wall, st.strategy, PointOf(Evaluated(bars, i)), HistoryAt(cfg, bars, i));
    }
  }

  /** Only the first evaluation has a zero time, and then the history is too short for a decision. */
  lemma {:induction false} EvaluationTime(cfg: EngineConfig, p: Params, bars: seq<Bar>, i: nat)
    requires Validated(p) && 1 <= i < |bars| && InTimeOrder(bars)
    ensures var t := PointOf(Evaluated(bars, i)).timestamp;
            && (i == 1 ==> t == ZERO_TIME && |HistoryAt(cfg, bars, i)| < p.slowPeriod)
            && (i > 1 ==> t == bars[i-2].timestamp != ZERO_TIME)
  {
    assert |EvaluatedUpTo(bars, i)| == i;
  }

  /** What the arrival of a bar means for the strategy alone. */
  lemma {:induction false} StrategyAfterArrival<S>(cfg: EngineConfig, strat: Strategy<S>, bars: seq<Bar>, i: nat,
                                                   st: RunState<S>)
    requires 1 <= i < |bars| && Tradable(cfg, bars)
    ensures var next := Arrival(cfg, strat, bars, i, st);
            var (answer, s) := strat.generate(st.strategy, PointOf(Evaluated(bars, i)), HistoryAt(cfg, bars, i));
            if i + 1 <= cfg.warmupBars then next.Some? && next.value.strategy == st.strategy
            else
              && (next.Some? <==> answer != Failure)
              && (next.Some? ==> next.value.strategy == s
                                 || (answer != Signal(Hold) && next.value.strategy == strat.recordTrade(s)))
  {}

  /** In every backtest over bars in time order, recorded trades are at least the cooldown apart in simulated time,
      and no day in Japan has more of them than allowed. */
  lemma {:induction false} LimitsHoldInBacktest(cfg: EngineConfig, p: Params, wall: int, bars: seq<Bar>, k: nat)
    requires Validated(p) && k <= |bars| && Tradable(cfg, bars) && InTimeOrder(bars)
    ensures var st := Replay(cfg, AsStrategy(p, wall), Logged(FRESH, []), bars, k);
            && st.Some?
            && RunOk(p, bars, k, st.value.strategy)
            && Apart(p, st.value.strategy.log)
            && forall day :: CountOn(st.value.strategy.log, day) <= p.maxDailyTrades
  {
    ReplayIsOk(cfg, p, wall, bars, k);
    EveryDayWithinLimit(p, Replay(cfg, AsStrategy(p, wall), Logged(FRESH, []), bars, k).value.strategy.log);
  }

  lemma {:induction false} ReplayIsOk(cfg: EngineConfig, p: Params, wall: int, bars: seq<Bar>, k: nat)
    requires Validated(p) && k <= |bars| && Tradable(cfg, bars) && InTimeOrder(bars)
    ensures var st := Replay(cfg, AsStrategy(p, wall), Logged(FRESH, []), bars, k);
            st.Some? && RunOk(p, bars, k, st.value.strategy)
  {
    if k <= 1 {
    } else {
      var strat, l0 := AsStrategy(p, wall), Logged(FRESH, []);
      ReplayIsOk(cfg, p, wall, bars, k - 1);
      ReplayStep(cfg, strat, l0, bars, k);
      ArrivalKeepsOk(cfg, p, wall, bars, k - 1, Replay(cfg, strat, l0, bars, k - 1).value);
    }
  }

  lemma {:induction false} EveryDayWithinLimit(p: Params, log: seq<int>)
    requires WithinDailyLimit(p, log) && p.maxDailyTrades >= 0
    ensures forall day :: CountOn(log, day) <= p.maxDailyTrades
  {
    forall day ensures CountOn(log, day) <= p.maxDailyTrades {
      if forall i :: 0 <= i < |log| ==> JstDay(log[i]) != day {
        NoneOn(log, day);
      }
    }
  }

  // ---------------------------------------------------------------- prices in, prices out

  lemma {:induction false} PricesAt(history: seq<Point>, j: nat)
    requires j < |history|
    ensures PricesOf(history)[j] == history[j].price
    decreases |history|
  {
    if j < |history| - 1 {
      PricesAt(history[..|history|-1], j);
    }
  }

  /** The prices that averages and index are computed from when bars[i] arrives are the closes of the bars evaluated,
      up to two bars back; the first of all is the zero of the first evaluation. */
  lemma {:induction false} ClosesSeen(cfg: EngineConfig, bars: seq<Bar>, i: nat, j: nat)
    requires 1 <= i < |bars| && j < |HistoryAt(cfg, bars, i)|
    ensures var prices := PricesOf(HistoryAt(cfg, bars, i));
            var at := i - |prices| + j;
            0 <= at < i && prices[j] == if at == 0 then 0.0 else bars[at-1].close
  {
    PricesAt(HistoryAt(cfg, bars, i), j);
    HistoryShown(cfg, bars, i, j);
  }

  /** In a backtest the example strategy decides on the close of the bar under evaluation, at the bar's own time. */
  lemma {:induction false} DecidesOnClose(p: Params, wall: int, l: Logged, bar: Bar, history: seq<Point>)
    requires Validated(p) && bar.timestamp != ZERO_TIME
    ensures AsStrategy(p, wall).generate(l, PointOf(bar), history).0
         == Signal(Decide(p, l.state.(lastSeen := Some(bar.timestamp)), wall, bar.close, PricesOf(history)))
  {}

  /** Notional, target and stop of the example strategy. */
  function TermsOf(p: Params): Terms {
    Terms(p.orderNotional, entry => entry * (1.0 + p.takeProfitPct / 100.0),
          entry => entry * (1.0 - p.stopLossPct / 100.0))
  }

  /** Every trade of every backtest of the example strategy is of the configured notional; a target earns and a stop
      loses exactly its percentage of that, before costs. */
  lemma {:induction false} ExitsEarnTheirPercentage(cfg: EngineConfig, p: Params, wall: int, bars: seq<Bar>, i: nat)
    requires Validated(p) && Tradable(cfg, bars)
    requires Replay(cfg, AsStrategy(p, wall), Logged(FRESH, []), bars, |bars|).Some?
    requires i < |Drained(cfg, Replay(cfg, AsStrategy(p, wall), Logged(FRESH, []), bars, |bars|).value.account,
                          bars).trades|
    ensures var t := Drained(cfg, Replay(cfg, AsStrategy(p, wall), Logged(FRESH, []), bars, |bars|).value.account,
                             bars).trades[i];
            EarnsPercentage(t, p)
  {
    var strat, l0 := AsStrategy(p, wall), Logged(FRESH, []);
    TermsKept(p, wall);
    TradesAtCost(cfg, strat, l0, Some(TermsOf(p)), bars);
    ExitEarns(Drained(cfg, Replay(cfg, strat, l0, bars, |bars|).value.account, bars).trades[i], cfg.simulator, p);
  }

  predicate EarnsPercentage(t: Trade, p: Params) {
    && t.notional == p.orderNotional
    && (t.reason == TakeProfit ==> t.grossPnl == p.orderNotional * (p.takeProfitPct / 100.0))
    && (t.reason == StopLoss ==> t.grossPnl == -(p.orderNotional * (p.stopLossPct / 100.0)))
  }

  lemma {:induction false} TermsKept(p: Params, wall: int)
    requires Validated(p)
    ensures KeepsTerms(AsStrategy(p, wall), TermsOf(p))
  {}

  lemma {:induction false} ExitEarns(t: Trade, cfg: SimulatorConfig, p: Params)
    requires TradeAtCost(t, cfg, Some(TermsOf(p)))
    ensures EarnsPercentage(t, p)
  {
    MoveByShare(t.entryPrice, t.quantity, p.takeProfitPct / 100.0);
    MoveByShare(t.entryPrice, t.quantity, -(p.stopLossPct / 100.0));
  }

  lemma {:induction false} MoveByShare(entry: real, quantity: real, share: real)
    ensures (entry * (1.0 + share) - entry) * quantity == entry * quantity * share
  {}
}
