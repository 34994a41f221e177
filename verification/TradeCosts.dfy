/** What every trade of a backtest costs and earns, at what prices targets and stops close it, and when orders fill. */
module TradeCosts {
  import opened Options
  import opened Reals
  import opened Buckets
  import opened Portfolios
  import opened Signals
  import opened Simulators
  import opened Engines
  import opened Reports

  // ---------------------------------------------------------------- orders and exits

  /** A BUY fills exactly when no position is open, the notional is positive, the bar trades minVolumeRatio times the
      quantity bought (if it tells its volume), and the cash pays for the position with its fee and slippage. */
  lemma {:induction false} BuyFillsIff<S>(a: Account, cfg: SimulatorConfig, bar: Bar, next: Bar, strat: Strategy<S>,
                                          s: S)
    requires Fillable(cfg, next)
    ensures var pos, n := Entry(cfg, bar, next, strat, s), strat.baseNotional(s, bar.symbol);
            BuyFills(a, cfg, next, n) <==>
              && a.position.None? && pos.notional > 0.0
              && (cfg.minVolumeRatio > 0.0 && next.volume > 0.0 ==> next.volume >= cfg.minVolumeRatio * pos.quantity)
              && a.cash >= pos.notional + pos.entryFee + pos.entrySlip
  {
    var n, price := strat.baseNotional(s, bar.symbol), EntryPrice(cfg, next);
    WholeNotional(n, price);
    RatioOfQuantity(cfg.minVolumeRatio, n, price);
    CheckedIsSpent(n, cfg.feeRate, SlipPct(cfg));
  }

  lemma {:induction false} WholeNotional(n: real, price: real)
    requires price != 0.0
    ensures Proceeds(price, n / price) == n
  {
    var qty := n / price;
    assert price * qty == n;
  }

  lemma {:induction false} RatioOfQuantity(ratio: real, n: real, price: real)
    requires price != 0.0
    ensures ratio * n / price == ratio * (n / price)
  {
    var q, r := n / price, ratio * n / price;
    assert q * price == n && r * price == ratio * n;
    assert (r - ratio * q) * price == r * price - ratio * (q * price);
    ZeroFactor(r - ratio * q, price);
  }

  /** Which exit a bar triggers: a stop or target that it reaches; of both, the one the rule prefers, if any. */
  lemma {:induction false} ExitRule(pos: Position, bar: Bar, rule: SameBarRule)
    ensures var stop := pos.slPrice > 0.0 && bar.low <= pos.slPrice;
            var target := pos.tpPrice > 0.0 && bar.high >= pos.tpPrice;
            var exit := ExitOf(pos, bar, rule);
            && (exit == Some((pos.slPrice, StopLoss)) <==> stop && (!target || rule == SlPriority))
            && (exit == Some((pos.tpPrice, TakeProfit)) <==> target && (!stop || rule == TpPriority))
            && (exit == None <==> if stop && target then rule == SkipBar else !stop && !target)
  {}

  /** Taking the stop first never leaves more cash than taking the target first. */
  lemma {:induction false} StopFirstIsPessimistic(a: Account, cfg: SimulatorConfig, bar: Bar)
    requires SaneRates(cfg) && a.position.Some? && a.position.value.quantity >= 0.0
    requires a.position.value.slPrice <= a.position.value.tpPrice
    ensures AfterExit(a, cfg.(sameBarRule := SlPriority), bar).cash
         <= AfterExit(a, cfg.(sameBarRule := TpPriority), bar).cash
  {
    var pos := a.position.value;
    ProceedsGrow(cfg, pos.quantity, pos.slPrice, pos.tpPrice);
  }

  lemma {:induction false} ProceedsGrow(cfg: SimulatorConfig, quantity: real, lo: real, hi: real)
    requires SaneRates(cfg) && quantity >= 0.0 && lo <= hi
    ensures Proceeds(lo, quantity) - FeeOn(cfg, Proceeds(lo, quantity)) - SlipOn(cfg, Proceeds(lo, quantity))
         <= Proceeds(hi, quantity) - FeeOn(cfg, Proceeds(hi, quantity)) - SlipOn(cfg, Proceeds(hi, quantity))
  {
    var x, y := Proceeds(lo, quantity), Proceeds(hi, quantity);
    ProductNonNegative(hi - lo, quantity);
    assert y - x == (hi - lo) * quantity;
    ProceedsStay(cfg, y - x);
    FeeOnDifference(cfg.feeRate, x, y);
    FeeOnDifference(SlipPct(cfg), x, y);
  }

  lemma {:induction false} FeeOnDifference(rate: real, x: real, y: real)
    ensures (y - x) * rate == y * rate - x * rate
  {}

  // ---------------------------------------------------------------- every trade of every run

  /** What a strategy that does not look at its state fixes for all its positions. */
  datatype Terms = Terms(notional: real, target: real -> real, stop: real -> real)

  ghost predicate KeepsTerms<S(!new)>(strat: Strategy<S>, terms: Terms) {
    forall s, symbol, price ::
      && strat.baseNotional(s, symbol) == terms.notional
      && strat.takeProfitPrice(s, price) == terms.target(price) && strat.stopLossPrice(s, price) == terms.stop(price)
  }

  /** The position was paid for with its fee and slippage, and closes at its terms. */
  predicate PositionAtCost(p: Position, cfg: SimulatorConfig, terms: Option<Terms>) {
    && p.notional == p.entryPrice * p.quantity
    && p.entryFee == p.notional * cfg.feeRate && p.entrySlip == p.notional * (cfg.slippageBps / 10000.0)
    && (terms.Some? ==>
          && p.notional == terms.value.notional
          && p.tpPrice == terms.value.target(p.entryPrice) && p.slPrice == terms.value.stop(p.entryPrice))
  }

  /** The trade pays the fee on what was bought and on what was sold, and slippage likewise, except on a liquidation;
      its gross result is the move of the price over its quantity, and its net result what the costs leave. */
  predicate TradeAtCost(t: Trade, cfg: SimulatorConfig, terms: Option<Terms>) {
    var sold := t.exitPrice * t.quantity;
    var slipped := if t.reason == EndOfData then t.notional else t.notional + sold;
    && t.notional == t.entryPrice * t.quantity && t.grossPnl == (t.exitPrice - t.entryPrice) * t.quantity
    && t.fee == (t.notional + sold) * cfg.feeRate && t.slippage == slipped * (cfg.slippageBps / 10000.0)
    && t.netPnl == t.grossPnl - t.fee - t.slippage
    && (terms.Some? ==>
          && t.notional == terms.value.notional
          && (t.reason == TakeProfit ==> t.exitPrice == terms.value.target(t.entryPrice))
          && (t.reason == StopLoss ==> t.exitPrice == terms.value.stop(t.entryPrice)))
  }

  predicate AllAtCost(ts: seq<Trade>, cfg: SimulatorConfig, terms: Option<Terms>) {
    forall i :: 0 <= i < |ts| ==> TradeAtCost(ts[i], cfg, terms)
  }

  predicate AtCost(a: Account, cfg: SimulatorConfig, terms: Option<Terms>) {
    && (a.position.Some? ==> PositionAtCost(a.position.value, cfg, terms))
    && AllAtCost(a.trades, cfg, terms)
  }

  lemma {:induction false} SaleAtCost(a: Account, cfg: SimulatorConfig, terms: Option<Terms>, t: int, price: real,
                                      reason: ExitReason)
    requires AtCost(a, cfg, terms) && a.position.Some?
    requires reason == TakeProfit ==> price == a.position.value.tpPrice
    requires reason == StopLoss ==> price == a.position.value.slPrice
    ensures AtCost(Sold(a, cfg, t, price, reason), cfg, terms)
  {
    var pos, b, n := a.position.value, Sold(a, cfg, t, price, reason), |a.trades|;
    SaleCosts(pos, cfg, Proceeds(price, pos.quantity));
    assert TradeAtCost(b.trades[n], cfg, terms);
    forall i | 0 <= i < |b.trades| ensures TradeAtCost(b.trades[i], cfg, terms) {
      assert i < n ==> b.trades[i] == a.trades[i];
    }
  }

  lemma {:induction false} SaleCosts(pos: Position, cfg: SimulatorConfig, sold: real)
    requires PositionAtCost(pos, cfg, None)
    ensures pos.entryFee + FeeOn(cfg, sold) == (pos.notional + sold) * cfg.feeRate
    ensures pos.entrySlip + SlipOn(cfg, sold) == (pos.notional + sold) * (cfg.slippageBps / 10000.0)
  {}

  lemma {:induction false} ExitAtCost(a: Account, cfg: SimulatorConfig, terms: Option<Terms>, bar: Bar)
    requires AtCost(a, cfg, terms)
    ensures AtCost(AfterExit(a, cfg, bar), cfg, terms)
  {
    if a.position.Some? {
      var pos := a.position.value.(barsHeld := a.position.value.barsHeld + 1);
      var held, exit := a.(position := Some(pos)), ExitOf(pos, bar, cfg.sameBarRule);
      if exit.Some? {
        SaleAtCost(held, cfg, terms, bar.timestamp, exit.value.0, exit.value.1);
      }
    }
  }

  lemma {:induction false} SignalAtCost<S(!new)>(a: Account, cfg: SimulatorConfig, terms: Option<Terms>, bar: Bar,
                                                next: Bar, action: Action, strat: Strategy<S>, s: S)
    requires AtCost(a, cfg, terms) && (action == Buy ==> Fillable(cfg, next))
    requires terms.Some? ==> KeepsTerms(strat, terms.value)
    ensures AtCost(AfterSignal(a, cfg, bar, next, action, strat, s).0, cfg, terms)
  {
    match action
    case Buy =>
      WholeNotional(strat.baseNotional(s, bar.symbol), EntryPrice(cfg, next));
    case Sell =>
      if a.position.Some? {
        SaleAtCost(a, cfg, terms, next.timestamp, SellPrice(cfg, next), BySignal);
      }
    case _ =>
  }

  lemma {:induction false} ArrivalAtCost<S(!new)>(cfg: EngineConfig, strat: Strategy<S>, terms: Option<Terms>,
                                                 bars: seq<Bar>, i: nat, st: RunState<S>)
    requires 1 <= i < |bars| && Tradable(cfg, bars) && Arrival(cfg, strat, bars, i, st).Some?
    requires AtCost(st.account, cfg.simulator, terms) && (terms.Some? ==> KeepsTerms(strat, terms.value))
    ensures AtCost(Arrival(cfg, strat, bars, i, st).value.account, cfg.simulator, terms)
  {
    var bar, exited := Evaluated(bars, i), Exited(cfg, bars, i, st.account);
    ExitAtCost(MarkedAt(cfg, bars, i, st.account), cfg.simulator, terms, bar);
    if i + 1 > cfg.warmupBars {
      var (answer, s) := strat.generate(st.strategy, PointOf(bar), HistoryAt(cfg, bars, i));
      if answer.Signal? {
        SignalAtCost(exited, cfg.simulator, terms, bar, bars[i], answer.action, strat, s);
      }
    }
  }

  lemma {:induction false} ReplayAtCost<S(!new)>(cfg: EngineConfig, strat: Strategy<S>, s0: S, terms: Option<Terms>,
                                                bars: seq<Bar>, k: nat)
    requires k <= |bars| && Tradable(cfg, bars) && Replay(cfg, strat, s0, bars, k).Some?
    requires terms.Some? ==> KeepsTerms(strat, terms.value)
    ensures AtCost(Replay(cfg, strat, s0, bars, k).value.account, cfg.simulator, terms)
  {
    if k <= 1 {
    } else {
      ReplayStep(cfg, strat, s0, bars, k);
      ReplayAtCost(cfg, strat, s0, terms, bars, k - 1);
      ArrivalAtCost(cfg, strat, terms, bars, k - 1, Replay(cfg, strat, s0, bars, k - 1).value);
    }
  }

  /** Every trade of every finished run, in closed form from its prices, its quantity and the configured rates; and
      when the strategy keeps fixed terms, at exactly their notional, target and stop. */
  lemma {:induction false} TradesAtCost<S(!new)>(cfg: EngineConfig, strat: Strategy<S>, s0: S, terms: Option<Terms>,
                                                bars: seq<Bar>)
    requires Tradable(cfg, bars) && Replay(cfg, strat, s0, bars, |bars|).Some?
    requires terms.Some? ==> KeepsTerms(strat, terms.value)
    ensures var ts := Drained(cfg, Replay(cfg, strat, s0, bars, |bars|).value.account, bars).trades;
            AllAtCost(ts, cfg.simulator, terms)
  {
    ReplayAtCost(cfg, strat, s0, terms, bars, |bars|);
    DrainAtCost(cfg, Replay(cfg, strat, s0, bars, |bars|).value.account, terms, bars);
  }

  lemma {:induction false} DrainAtCost(cfg: EngineConfig, a: Account, terms: Option<Terms>, bars: seq<Bar>)
    requires AtCost(a, cfg.simulator, terms)
    ensures AtCost(Drained(cfg, a, bars), cfg.simulator, terms)
  {
    if bars != [] {
      var last := bars[|bars|-1];
      ExitAtCost(a, cfg.simulator, terms, last);
      var marked := Marked(AfterExit(a, cfg.simulator, last), last.timestamp, last.close);
      if marked.position.Some? {
        SaleAtCost(marked, cfg.simulator, terms, last.timestamp, last.close, EndOfData);
      }
    }
  }

  // ---------------------------------------------------------------- what the strategy is told

  /** told counts the trades that a strategy has been told of, and questions do not change it. */
  ghost predicate CountsTold<S(!new)>(strat: Strategy<S>, told: S -> nat) {
    && (forall s, point, history :: told(strat.generate(s, point, history).1) == told(s))
    && (forall s :: told(strat.recordTrade(s)) == told(s) + 1)
  }

  /** Fills of orders: every entry, and every exit by a signal. */
  function Fills(a: Account): nat {
    |a.trades| + (if a.position.Some? then 1 else 0) + CountOf(a.trades, BySignal)
  }

  lemma {:induction false} SaleFills(a: Account, cfg: SimulatorConfig, t: int, price: real, reason: ExitReason)
    requires a.position.Some?
    ensures Fills(Sold(a, cfg, t, price, reason)) == Fills(a) + if reason == BySignal then 1 else 0
  {
    var b := Sold(a, cfg, t, price, reason).trades;
    assert b[..|b|-1] == a.trades;
  }

  lemma {:induction false} ExitFills(a: Account, cfg: SimulatorConfig, bar: Bar)
    ensures Fills(AfterExit(a, cfg, bar)) == Fills(a)
  {
    if a.position.Some? {
      var pos := a.position.value.(barsHeld := a.position.value.barsHeld + 1);
      var held, exit := a.(position := Some(pos)), ExitOf(pos, bar, cfg.sameBarRule);
      if exit.Some? {
        SaleFills(held, cfg, bar.timestamp, exit.value.0, exit.value.1);
      }
    }
  }

  lemma {:induction false} SignalFills<S>(a: Account, cfg: SimulatorConfig, bar: Bar, next: Bar, action: Action,
                                          strat: Strategy<S>, s: S)
    requires action == Buy ==> Fillable(cfg, next)
    ensures var (b, told) := AfterSignal(a, cfg, bar, next, action, strat, s);
            Fills(b) == Fills(a) + if told then 1 else 0
  {
    if action == Sell && a.position.Some? {
      SaleFills(a, cfg, next.timestamp, SellPrice(cfg, next), BySignal);
    }
  }

  /** At every point of every run the strategy has been told of exactly the fills of its orders: every entry and every
      exit by a signal, but not of targets and stops. */
  lemma {:induction false} ToldOncePerFill<S(!new)>(cfg: EngineConfig, strat: Strategy<S>, s0: S, bars: seq<Bar>,
                                                   k: nat, told: S -> nat)
    requires k <= |bars| && Tradable(cfg, bars) && CountsTold(strat, told)
    requires Replay(cfg, strat, s0, bars, k).Some?
    ensures var st := Replay(cfg, strat, s0, bars, k).value;
            told(st.strategy) == told(s0) + Fills(st.account)
  {
    if k <= 1 {
    } else {
      ReplayStep(cfg, strat, s0, bars, k);
      ToldOncePerFill(cfg, strat, s0, bars, k - 1, told);
      ToldNext(cfg, strat, bars, k - 1, Replay(cfg, strat, s0, bars, k - 1).value, told);
    }
  }

  lemma {:induction false} ToldNext<S(!new)>(cfg: EngineConfig, strat: Strategy<S>, bars: seq<Bar>, i: nat,
                                            st: RunState<S>, told: S -> nat)
    requires 1 <= i < |bars| && Tradable(cfg, bars) && CountsTold(strat, told) && Arrival(cfg, strat, bars, i, st).Some?
    ensures var next := Arrival(cfg, strat, bars, i, st).value;
            told(next.strategy) + Fills(st.account) == told(st.strategy) + Fills(next.account)
  {
    var bar, exited := Evaluated(bars, i), Exited(cfg, bars, i, st.account);
    ExitFills(MarkedAt(cfg, bars, i, st.account), cfg.simulator, bar);
    assert Fills(MarkedAt(cfg, bars, i, st.account)) == Fills(st.account);
    if i + 1 > cfg.warmupBars {
      var (answer, s) := strat.generate(st.strategy, PointOf(bar), HistoryAt(cfg, bars, i));
      assert told(s) == told(st.strategy);
      if answer.Signal? {
        SignalFills(exited, cfg.simulator, bar, bars[i], answer.action, strat, s);
        assert told(strat.recordTrade(s)) == told(s) + 1;
      }
    }
  }

  // ---------------------------------------------------------------- totals

  /** What one trade has bought and sold. */
  function TurnoverOf(t: Trade): real {
    (t.entryPrice + t.exitPrice) * t.quantity
  }

  /** Everything bought and sold. */
  function Turnover(ts: seq<Trade>): real {
    if ts == [] then 0.0 else Turnover(ts[..|ts|-1]) + TurnoverOf(ts[|ts|-1])
  }

  /** What the moves of the price have earned. */
  function Moves(ts: seq<Trade>): real {
    if ts == [] then 0.0
    else
      var t := ts[|ts|-1];
      Moves(ts[..|ts|-1]) + (t.exitPrice - t.entryPrice) * t.quantity
  }

  /** What the trades have paid in fees. */
  function SumFees(ts: seq<Trade>): real {
    if ts == [] then 0.0 else SumFees(ts[..|ts|-1]) + ts[|ts|-1].fee
  }

  lemma {:induction false} FeesOnTurnover(ts: seq<Trade>, cfg: SimulatorConfig, terms: Option<Terms>)
    requires AllAtCost(ts, cfg, terms)
    ensures SumFees(ts) == FeeOn(cfg, Turnover(ts))
    decreases |ts|
  {
    if ts == [] {
    } else {
      var pre, t := ts[..|ts|-1], ts[|ts|-1];
      LastAtCost(ts, cfg, terms);
      FeesOnTurnover(pre, cfg, terms);
      FeeOnBoth(t, cfg, terms);
      FeesAdd(cfg, Turnover(pre), TurnoverOf(t), Turnover(ts));
    }
  }

  lemma {:induction false} FeeOnBoth(t: Trade, cfg: SimulatorConfig, terms: Option<Terms>)
    requires TradeAtCost(t, cfg, terms)
    ensures t.fee == FeeOn(cfg, TurnoverOf(t))
  {
    assert (t.entryPrice + t.exitPrice) * t.quantity == t.notional + t.exitPrice * t.quantity;
  }

  lemma {:induction false} FeesAdd(cfg: SimulatorConfig, x: real, y: real, all: real)
    requires all == x + y
    ensures FeeOn(cfg, all) == FeeOn(cfg, x) + FeeOn(cfg, y)
  {}

  lemma {:induction false} TallyAtCost(ts: seq<Trade>, cfg: SimulatorConfig, terms: Option<Terms>)
    requires AllAtCost(ts, cfg, terms)
    ensures Tally(ts).totalFees == SumFees(ts)
    ensures Tally(ts).netPnl == Moves(ts) - Tally(ts).totalFees - Tally(ts).totalSlippage
    decreases |ts|
  {
    if ts == [] {
    } else {
      LastAtCost(ts, cfg, terms);
      TallyAtCost(ts[..|ts|-1], cfg, terms);
    }
  }

  /** The reported fees are the fee rate on the whole turnover, and the net result is what fees and slippage leave of
      the moves. */
  lemma {:induction false} TotalsAtCost(ts: seq<Trade>, cfg: SimulatorConfig, terms: Option<Terms>)
    requires AllAtCost(ts, cfg, terms)
    ensures Tally(ts).totalFees == FeeOn(cfg, Turnover(ts))
    ensures Tally(ts).netPnl == Moves(ts) - Tally(ts).totalFees - Tally(ts).totalSlippage
  {
    TallyAtCost(ts, cfg, terms);
    FeesOnTurnover(ts, cfg, terms);
  }

  lemma {:induction false} LastAtCost(ts: seq<Trade>, cfg: SimulatorConfig, terms: Option<Terms>)
    requires AllAtCost(ts, cfg, terms) && ts != []
    ensures AllAtCost(ts[..|ts|-1], cfg, terms) && TradeAtCost(ts[|ts|-1], cfg, terms)
  {}
}
