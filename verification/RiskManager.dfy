/** Portfolio protection in front of every order. */
module RiskManager {
  import opened Options
  import opened Reals
  import opened Lots
  import opened Signals
  import Ledger

  datatype RiskConfig = RiskConfig(
    maxTotalLossPercent: real,
    maxTradeAmountPercent: real,
    maxDailyTrades: int,
    minTradeInterval: int,
    maxOpenPositionsPerSymbol: int,
    pnlEpoch: Option<int>,
    feeRate: real,
    initialBalance: real)

  datatype Stamp = Stamp(createdAt: int, executedAt: int, pnl: real)

  /** What the manager reads while it checks one signal; None is a failed read. */
  datatype RiskReads = RiskReads(
    now: int,
    balances: Option<seq<Balance>>,
    positionsWired: bool,
    positions: Option<seq<Ledger.Position>>,
    recent: Option<seq<Stamp>>,
    latest: Option<seq<Stamp>>,
    metrics: Option<seq<real>>,
    sinceEpoch: Option<seq<Stamp>>,
    balancesForLoss: Option<seq<Balance>>)

  predicate IsForcedExitSell(action: Action, reason: string) {
    action == Sell && (reason == "stop_loss" || reason == "take_profit")
  }

  /** First balance entry of a currency. */
  function Available(bs: seq<Balance>, currency: string): Option<real> {
    if bs == [] then None
    else if bs[0].currency == currency then Some(bs[0].available)
    else Available(bs[1..], currency)
  }

  method FindBalance(bs: seq<Balance>, currency: string) returns (r: Option<real>)
    ensures r == Available(bs, currency)
  {
    var i := 0;
    while i < |bs|
      invariant 0 <= i <= |bs|
      invariant Available(bs[i..], currency) == Available(bs, currency)
    {
      if bs[i].currency == currency {
        return Some(bs[i].available);
      }
      assert bs[i..][1..] == bs[i+1..];
      i := i + 1;
    }
    return None;
  }

  function CountOn(ts: seq<Stamp>, day: int): nat {
    if ts == [] then 0 else (if JstDay(ts[0].createdAt) == day then 1 else 0) + CountOn(ts[1..], day)
  }

  function SumOf(ts: seq<Stamp>): real {
    if ts == [] then 0.0 else ts[0].pnl + SumOf(ts[1..])
  }

  predicate DailyLimitOk(cfg: RiskConfig, rd: RiskReads) {
    rd.recent.Some? && CountOn(rd.recent.value, JstDay(rd.now)) < cfg.maxDailyTrades
  }

  const FIVE_MINUTES := 300_000_000_000

  /** The interval in force: five minutes when none is configured. */
  function Gap(cfg: RiskConfig): int {
    if cfg.minTradeInterval == 0 then FIVE_MINUTES else cfg.minTradeInterval
  }

  predicate IntervalOk(cfg: RiskConfig, rd: RiskReads) {
    rd.latest.Some? && (rd.latest.value == [] || rd.now - rd.latest.value[0].executedAt >= Gap(cfg))
  }

  /** Realised profit the loss limit looks at: Some(None) when there is no data, None when it cannot be read. */
  function CumulativePnl(cfg: RiskConfig, rd: RiskReads): Option<Option<real>> {
    if cfg.pnlEpoch.None? then
      match rd.metrics
      case None => None
      case Some(ms) => Some(if ms == [] then None else Some(ms[0]))
    else
      match rd.sinceEpoch
      case None => None
      case Some(ts) => Some(if ts == [] then None else Some(SumOf(ts)))
  }

  /** Losses stay within the configured share of the capital they are measured against. */
  predicate LossOk(cfg: RiskConfig, rd: RiskReads) {
    match CumulativePnl(cfg, rd)
    case None => false
    case Some(None) => true
    case Some(Some(pnl)) =>
      pnl >= 0.0
      || (rd.balancesForLoss.Some?
          && var jpy := Available(rd.balancesForLoss.value, "JPY");
             var capital := if jpy.Some? && jpy.value > 0.0 then jpy.value else cfg.initialBalance;
             capital <= 0.0 || -pnl * 100.0 <= cfg.maxTotalLossPercent * capital)
  }

  /** A BUY fits into its share of the JPY balance, fee included, and the symbol has room for a position. */
  predicate BuyOk(cfg: RiskConfig, rd: RiskReads, price: real, quantity: real)
    requires rd.balances.Some?
  {
    && Available(rd.balances.value, "JPY").Some?
    && var jpy := Available(rd.balances.value, "JPY").value;
       && jpy > 0.0
       && price * quantity * (1.0 + cfg.feeRate) <= jpy * cfg.maxTradeAmountPercent / 100.0
       && (cfg.maxOpenPositionsPerSymbol > 0 && rd.positionsWired && rd.positions.Some? ==>
             |rd.positions.value| < cfg.maxOpenPositionsPerSymbol)
  }

  /** A signal passes exactly when the JPY balance can be read, a BUY fits, and an ordinary signal passes the
      daily, interval and loss limits. Forced exits are exempt from those three. */
  predicate RiskOk(cfg: RiskConfig, action: Action, reason: string, price: real, quantity: real, rd: RiskReads) {
    && rd.balances.Some?
    && (action == Buy ==> BuyOk(cfg, rd, price, quantity))
    && (IsForcedExitSell(action, reason) || (DailyLimitOk(cfg, rd) && IntervalOk(cfg, rd) && LossOk(cfg, rd)))
  }

  class Manager {
    const cfg: RiskConfig

    constructor (cfg: RiskConfig)
      ensures this.cfg == cfg
    {
      this.cfg := cfg;
    }

    method CheckRiskManagement(action: Action, reason: string, price: real, quantity: real, rd: RiskReads)
      returns (ok: bool)
      ensures ok <==> RiskOk(cfg, action, reason, price, quantity, rd)
    {
      if rd.balances.None? {
        return false;
      }
      var jpy := FindBalance(rd.balances.value, "JPY");
      var total := if jpy.Some? then jpy.value else 0.0;
      if action == Buy {
        if total <= 0.0 {
          return false;
        }
        var amount := price * quantity * (1.0 + cfg.feeRate);
        if amount > total * cfg.maxTradeAmountPercent / 100.0 {
          return false;
        }
        if cfg.maxOpenPositionsPerSymbol > 0 && rd.positionsWired && rd.positions.Some?
           && |rd.positions.value| >= cfg.maxOpenPositionsPerSymbol {
          return false;
        }
      }
      if IsForcedExitSell(action, reason) {
        return true;
      }
      var daily := CheckDailyTradeLimit(rd);
      if !daily || !IntervalOk(cfg, rd) {
        return false;
      }
      ok := CheckTotalLossLimit(rd);
    }

    method CheckDailyTradeLimit(rd: RiskReads) returns (ok: bool)
      ensures ok <==> DailyLimitOk(cfg, rd)
    {
      if rd.recent.None? {
        return false;
      }
      var ts, today, n, i := rd.recent.value, JstDay(rd.now), 0, 0;
      while i < |ts|
        invariant 0 <= i <= |ts|
        invariant n + CountOn(ts[i..], today) == CountOn(ts, today)
      {
        assert ts[i..][1..] == ts[i+1..];
        if JstDay(ts[i].createdAt) == today {
          n := n + 1;
        }
        i := i + 1;
      }
      return n < cfg.maxDailyTrades;
    }

    method CheckTotalLossLimit(rd: RiskReads) returns (ok: bool)
      ensures ok <==> LossOk(cfg, rd)
    {
      var pnl := ReadCumulativePnl(rd);
      if pnl.None? {
        return false;
      }
      if pnl.value.None? || -pnl.value.value <= 0.0 {
        return true;
      }
      if rd.balancesForLoss.None? {
        return false;
      }
      var assets := cfg.initialBalance;
      var jpy := FindBalance(rd.balancesForLoss.value, "JPY");
      if jpy.Some? {
        assets := jpy.value;
      }
      if assets <= 0.0 {
        assets := cfg.initialBalance;
      }
      if assets <= 0.0 {
        return true;
      }
      var loss := -pnl.value.value;
      LossPercent(loss, assets, cfg.maxTotalLossPercent);
      return loss / assets * 100.0 <= cfg.maxTotalLossPercent;
    }

    method ReadCumulativePnl(rd: RiskReads) returns (r: Option<Option<real>>)
      ensures r == CumulativePnl(cfg, rd)
    {
      if cfg.pnlEpoch.None? {
        return CumulativePnl(cfg, rd);
      }
      if rd.sinceEpoch.None? {
        return None;
      }
      var ts, total, i := rd.sinceEpoch.value, 0.0, 0;
      while i < |ts|
        invariant 0 <= i <= |ts|
        invariant total + SumOf(ts[i..]) == SumOf(ts)
      {
        assert ts[i..][1..] == ts[i+1..];
        total := total + ts[i].pnl;
        i := i + 1;
      }
      return Some(if ts == [] then None else Some(total));
    }
  }

  lemma {:induction false} LossPercent(loss: real, assets: real, cap: real)
    requires assets > 0.0
    ensures loss / assets * 100.0 <= cap <==> loss * 100.0 <= cap * assets
  {
    var q := loss / assets;
    assert q * assets == loss;
    Scaled(q * 100.0, cap, assets);
    assert q * 100.0 * assets == loss * 100.0;
  }
}
