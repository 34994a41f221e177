/** The fill model: take-profit and stop-loss exits, entries and exits at the next open, liquidation at the end. */
module Simulators {
  import opened Options
  import opened Reals
  import opened Buckets
  import opened Portfolios
  import opened Signals

  datatype SameBarRule = SlPriority | TpPriority | SkipBar

  datatype SimulatorConfig = SimulatorConfig(
    initialBalance: real,
    feeRate: real,
    slippageBps: real,
    sameBarRule: SameBarRule,
    minVolumeRatio: real)

  /** What a strategy sees of one bar. */
  datatype Point = Point(
    symbol: string,
    timestamp: int,
    price: real,
    volume: real,
    open: real,
    high: real,
    low: real,
    close: real)

  datatype Answer =
    | NoSignal
    | Signal(action: Action)
    | Failure

  /** Any deterministic strategy: a state of any type and what each call does with it. */
  datatype Strategy<!S> = Strategy(
    generate: (S, Point, seq<Point>) -> (Answer, S),
    recordTrade: S -> S,
    baseNotional: (S, string) -> real,
    takeProfitPrice: (S, real) -> real,
    stopLossPrice: (S, real) -> real)

  function SlipPct(cfg: SimulatorConfig): real {
    cfg.slippageBps / 10000.0
  }

  function Proceeds(price: real, quantity: real): real {
    price * quantity
  }

  function FeeOn(cfg: SimulatorConfig, amount: real): real {
    amount * cfg.feeRate
  }

  function SlipOn(cfg: SimulatorConfig, amount: real): real {
    amount * SlipPct(cfg)
  }

  /** A sale at the given price, paying the fee and, unless it is a liquidation, the slippage. */
  function Sold(a: Account, cfg: SimulatorConfig, t: int, price: real, reason: ExitReason): Account
    requires a.position.Some?
  {
    var proceeds := Proceeds(price, a.position.value.quantity);
    Closed(a, t, price, FeeOn(cfg, proceeds), if reason == EndOfData then 0.0 else SlipOn(cfg, proceeds), reason)
  }

  /** Which exit a bar triggers, and at what price. */
  function ExitOf(pos: Position, bar: Bar, rule: SameBarRule): Option<(real, ExitReason)> {
    var tpHit := pos.tpPrice > 0.0 && bar.high >= pos.tpPrice;
    var slHit := pos.slPrice > 0.0 && bar.low <= pos.slPrice;
    if tpHit && slHit then
      match rule
      case TpPriority => Some((pos.tpPrice, TakeProfit))
      case SkipBar => None
      case SlPriority => Some((pos.slPrice, StopLoss))
    else if tpHit then Some((pos.tpPrice, TakeProfit))
    else if slHit then Some((pos.slPrice, StopLoss))
    else None
  }

  /** The position is held one bar longer and then perhaps exited. */
  function AfterExit(a: Account, cfg: SimulatorConfig, bar: Bar): Account {
    if a.position.None? then a
    else
      var pos := a.position.value.(barsHeld := a.position.value.barsHeld + 1);
      var held := a.(position := Some(pos));
      match ExitOf(pos, bar, cfg.sameBarRule)
      case None => held
      case Some((price, reason)) => Sold(held, cfg, bar.timestamp, price, reason)
  }

  function EntryPrice(cfg: SimulatorConfig, next: Bar): real {
    next.open * (1.0 + SlipPct(cfg))
  }

  /** The entry price is something a notional can be divided by. */
  predicate Fillable(cfg: SimulatorConfig, next: Bar) {
    EntryPrice(cfg, next) != 0.0
  }

  function SellPrice(cfg: SimulatorConfig, next: Bar): real {
    next.open * (1.0 - SlipPct(cfg))
  }

  /** Whether a BUY of the given notional is filled at the next open. */
  predicate BuyFills(a: Account, cfg: SimulatorConfig, next: Bar, notional: real)
    requires Fillable(cfg, next)
  {
    && a.position.None? && notional > 0.0
    && (cfg.minVolumeRatio > 0.0 && next.volume > 0.0 ==>
          next.volume >= cfg.minVolumeRatio * notional / EntryPrice(cfg, next))
    && a.cash >= notional * (1.0 + cfg.feeRate + SlipPct(cfg))
  }

  function Entry<S>(cfg: SimulatorConfig, bar: Bar, next: Bar, strat: Strategy<S>, s: S): Position
    requires Fillable(cfg, next)
  {
    var price := EntryPrice(cfg, next);
    var qty := strat.baseNotional(s, bar.symbol) / price;
    var notional := Proceeds(price, qty);
    Position(bar.symbol, next.timestamp, price, qty, notional, FeeOn(cfg, notional), SlipOn(cfg, notional),
             strat.takeProfitPrice(s, price), strat.stopLossPrice(s, price), 0)
  }

  /** The account after a signal, and whether the strategy is told about a trade. */
  function AfterSignal<S>(a: Account, cfg: SimulatorConfig, bar: Bar, next: Bar, action: Action, strat: Strategy<S>,
                          s: S): (Account, bool)
    requires action == Buy ==> Fillable(cfg, next)
  {
    match action
    case Buy =>
      if BuyFills(a, cfg, next, strat.baseNotional(s, bar.symbol))
      then (Opened(a, Entry(cfg, bar, next, strat, s)), true)
      else (a, false)
    case Sell =>
      if a.position.None? then (a, false)
      else (Sold(a, cfg, next.timestamp, SellPrice(cfg, next), BySignal), true)
    case _ => (a, false)
  }

  function ForceClosed(a: Account, cfg: SimulatorConfig, t: int, price: real): Account {
    if a.position.None? then a else Sold(a, cfg, t, price, EndOfData)
  }

  class Simulator {
    const cfg: SimulatorConfig
    const portfolio: Portfolio

    constructor (cfg: SimulatorConfig, portfolio: Portfolio)
      ensures this.cfg == cfg && this.portfolio == portfolio
    {
      this.cfg, this.portfolio := cfg, portfolio;
    }

    method HandleExit(bar: Bar) returns (closed: bool)
      modifies portfolio
      ensures portfolio.View() == AfterExit(old(portfolio.View()), cfg, bar)
      ensures closed <==> old(portfolio.position).Some? && portfolio.position.None?
    {
      if portfolio.position.None? {
        return false;
      }
      portfolio.Hold();
      var pos := portfolio.position.value;
      var exit := ExitOf(pos, bar, cfg.sameBarRule);
      if exit.None? {
        return false;
      }
      var (price, reason) := exit.value;
      var proceeds := Proceeds(price, pos.quantity);
      var _ := portfolio.CloseLong(bar.timestamp, price, FeeOn(cfg, proceeds), SlipOn(cfg, proceeds), reason);
      return true;
    }

    method HandleSignal<S>(bar: Bar, next: Bar, action: Action, strat: Strategy<S>, s: S) returns (s': S)
      requires action == Buy ==> Fillable(cfg, next)
      modifies portfolio
      ensures var (a, told) := AfterSignal(old(portfolio.View()), cfg, bar, next, action, strat, s);
              portfolio.View() == a && s' == if told then strat.recordTrade(s) else s
    {
      s' := s;
      match action
      case Buy =>
        if portfolio.position.Some? {
          return;
        }
        var entryPrice := EntryPrice(cfg, next);
        var requested := strat.baseNotional(s, bar.symbol);
        if requested <= 0.0 {
          return;
        }
        if cfg.minVolumeRatio > 0.0 && next.volume > 0.0 {
          if next.volume < cfg.minVolumeRatio * requested / entryPrice {
            return;
          }
        }
        if portfolio.cash < requested * (1.0 + cfg.feeRate + SlipPct(cfg)) {
          return;
        }
        var qty := requested / entryPrice;
        var notional := Proceeds(entryPrice, qty);
        var pos := Position(bar.symbol, next.timestamp, entryPrice, qty, notional, FeeOn(cfg, notional),
                            SlipOn(cfg, notional), strat.takeProfitPrice(s, entryPrice),
                            strat.stopLossPrice(s, entryPrice), 0);
        portfolio.OpenLong(pos);
        s' := strat.recordTrade(s);
      case Sell =>
        if portfolio.position.None? {
          return;
        }
        var price := SellPrice(cfg, next);
        var proceeds := Proceeds(price, portfolio.position.value.quantity);
        var _ := portfolio.CloseLong(next.timestamp, price, FeeOn(cfg, proceeds), SlipOn(cfg, proceeds), BySignal);
        s' := strat.recordTrade(s);
      case _ =>
    }

    method ForceClose(t: int, price: real)
      modifies portfolio
      ensures portfolio.View() == ForceClosed(old(portfolio.View()), cfg, t, price)
    {
      if portfolio.position.Some? {
        var proceeds := Proceeds(price, portfolio.position.value.quantity);
        var _ := portfolio.CloseLong(t, price, FeeOn(cfg, proceeds), 0.0, EndOfData);
      }
    }
  }

  // ---------------------------------------------------------------- what each step keeps

  /** Rates that leave something of the proceeds and keep prices positive. */
  predicate SaneRates(cfg: SimulatorConfig) {
    -1.0 < SlipPct(cfg) <= 1.0 && cfg.feeRate <= 1.0 && cfg.feeRate + SlipPct(cfg) <= 1.0
  }

  /** The books balance; and, when rates and prices are sane, cash never runs out. */
  predicate AccountOk(a: Account, cfg: SimulatorConfig, sane: bool) {
    && Balanced(a, cfg.initialBalance)
    && (sane ==> a.cash >= 0.0 && (a.position.Some? ==> a.position.value.quantity > 0.0))
  }

  lemma {:induction false} ProceedsStay(cfg: SimulatorConfig, p: real)
    requires p >= 0.0 && SaneRates(cfg)
    ensures p - FeeOn(cfg, p) - SlipOn(cfg, p) >= 0.0
    ensures p - FeeOn(cfg, p) >= 0.0
  {
    assert p * (1.0 - cfg.feeRate - SlipPct(cfg)) >= 0.0;
    assert p * (1.0 - cfg.feeRate) >= 0.0;
  }

  /** A sale keeps the books, whatever the rates and the price; at a price that is not negative it pays in. */
  lemma {:induction false} SaleKeepsOk(a: Account, cfg: SimulatorConfig, t: int, price: real, reason: ExitReason,
                                       sane: bool)
    requires AccountOk(a, cfg, sane) && a.position.Some?
    requires sane ==> SaneRates(cfg) && price >= 0.0
    ensures AccountOk(Sold(a, cfg, t, price, reason), cfg, sane)
  {
    var proceeds := Proceeds(price, a.position.value.quantity);
    var slip := if reason == EndOfData then 0.0 else SlipOn(cfg, proceeds);
    CloseBalances(a, cfg.initialBalance, t, price, FeeOn(cfg, proceeds), slip, reason);
    if sane {
      SalePaysIn(a, cfg, t, price, reason);
    }
  }

  lemma {:induction false} SalePaysIn(a: Account, cfg: SimulatorConfig, t: int, price: real, reason: ExitReason)
    requires SaneRates(cfg) && price >= 0.0 && a.position.Some? && a.position.value.quantity >= 0.0
    ensures Sold(a, cfg, t, price, reason).cash >= a.cash
  {
    var proceeds := Proceeds(price, a.position.value.quantity);
    assert proceeds >= 0.0;
    ProceedsStay(cfg, proceeds);
    assert Sold(a, cfg, t, price, reason).cash
        == a.cash + (proceeds - FeeOn(cfg, proceeds) - if reason == EndOfData then 0.0 else SlipOn(cfg, proceeds));
  }

  lemma {:induction false} HoldKeepsOk(a: Account, cfg: SimulatorConfig, sane: bool)
    requires AccountOk(a, cfg, sane) && a.position.Some?
    ensures var pos := a.position.value;
            AccountOk(a.(position := Some(pos.(barsHeld := pos.barsHeld + 1))), cfg, sane)
  {}

  lemma {:induction false} ExitKeepsOk(a: Account, cfg: SimulatorConfig, bar: Bar, sane: bool)
    requires AccountOk(a, cfg, sane) && (sane ==> SaneRates(cfg))
    ensures AccountOk(AfterExit(a, cfg, bar), cfg, sane)
  {
    if a.position.Some? {
      var pos := a.position.value.(barsHeld := a.position.value.barsHeld + 1);
      var held := a.(position := Some(pos));
      HoldKeepsOk(a, cfg, sane);
      match ExitOf(pos, bar, cfg.sameBarRule)
      case None =>
        assert AfterExit(a, cfg, bar) == held;
      case Some((price, reason)) =>
        ExitPricePositive(pos, bar, cfg.sameBarRule);
        SaleKeepsOk(held, cfg, bar.timestamp, price, reason, sane);
        assert AfterExit(a, cfg, bar) == Sold(held, cfg, bar.timestamp, price, reason);
    }
  }

  lemma {:induction false} ExitPricePositive(pos: Position, bar: Bar, rule: SameBarRule)
    ensures ExitOf(pos, bar, rule).Some? ==> ExitOf(pos, bar, rule).value.0 > 0.0
  {}

  /** A filled BUY spends exactly the amount that was checked against the cash. */
  lemma {:induction false} BuyKeepsOk<S>(a: Account, cfg: SimulatorConfig, bar: Bar, next: Bar, strat: Strategy<S>,
                                         s: S, sane: bool)
    requires AccountOk(a, cfg, sane) && Fillable(cfg, next)
    requires BuyFills(a, cfg, next, strat.baseNotional(s, bar.symbol))
    requires sane ==> SaneRates(cfg) && next.open > 0.0
    ensures AccountOk(Opened(a, Entry(cfg, bar, next, strat, s)), cfg, sane)
    ensures Entry(cfg, bar, next, strat, s).notional == strat.baseNotional(s, bar.symbol)
  {
    var price, n := EntryPrice(cfg, next), strat.baseNotional(s, bar.symbol);
    WholeNotional(n, price);
    CheckedIsSpent(n, cfg.feeRate, SlipPct(cfg));
    var pos := Entry(cfg, bar, next, strat, s);
    assert pos.notional == n && pos.entryFee == n * cfg.feeRate && pos.entrySlip == n * SlipPct(cfg);
    if sane {
      PositiveProduct(next.open, 1.0 + SlipPct(cfg));
    }
  }

  lemma {:induction false} WholeNotional(n: real, price: real)
    requires n > 0.0 && price != 0.0
    ensures price * (n / price) == n
    ensures price > 0.0 ==> n / price > 0.0
  {
    var qty := n / price;
    assert price * qty == n;
  }

  lemma {:induction false} CheckedIsSpent(n: real, feeRate: real, slip: real)
    ensures n * (1.0 + feeRate + slip) == n + n * feeRate + n * slip
  {}

  lemma {:induction false} SignalKeepsOk<S>(a: Account, cfg: SimulatorConfig, bar: Bar, next: Bar, action: Action,
                                            strat: Strategy<S>, s: S, sane: bool)
    requires AccountOk(a, cfg, sane) && (action == Buy ==> Fillable(cfg, next))
    requires sane ==> SaneRates(cfg) && next.open > 0.0
    ensures AccountOk(AfterSignal(a, cfg, bar, next, action, strat, s).0, cfg, sane)
  {
    if action == Buy && BuyFills(a, cfg, next, strat.baseNotional(s, bar.symbol)) {
      BuyKeepsOk(a, cfg, bar, next, strat, s, sane);
    } else if action == Sell && a.position.Some? {
      if sane {
        SellPriceSign(cfg, next);
      }
      SaleKeepsOk(a, cfg, next.timestamp, SellPrice(cfg, next), BySignal, sane);
    }
  }

  lemma {:induction false} SellPriceSign(cfg: SimulatorConfig, next: Bar)
    requires next.open > 0.0
    ensures SlipPct(cfg) <= 1.0 <==> SellPrice(cfg, next) >= 0.0
  {
    var f := 1.0 - SlipPct(cfg);
    if f >= 0.0 {
      assert next.open * f >= 0.0;
    } else {
      assert next.open * f < 0.0;
    }
  }
}
