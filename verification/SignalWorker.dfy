/** Turning accepted signals into orders: BUY scaling and lot rounding, SELL sizing, ghost clean-up. */
module SignalWorkers {
  import opened Options
  import opened Reals
  import opened Lots
  import opened Signals
  import opened RiskManager
  import L = Ledger
  import LS = LedgerSell
  import LR = LedgerRuns

  datatype AutoScaleConfig = AutoScaleConfig(enabled: bool, balancePct: real, maxNotional: real, feeRate: real)

  datatype OrderRequest = OrderRequest(symbol: string, side: L.Side, size: real, price: real)

  /** What the position repository answers. */
  datatype PositionRead =
    | NoReader
    | Unreadable
    | Table(rows: seq<L.Position>)

  function ComputeScaledNotional(base: real, availableJpy: real, cfg: AutoScaleConfig): real {
    if base <= 0.0 || availableJpy <= 0.0 then 0.0
    else
      var target := availableJpy * cfg.balancePct / 100.0;
      var e1 := if cfg.enabled && target > base then target else base;
      var e2 := if cfg.maxNotional > 0.0 && e1 > cfg.maxNotional then cfg.maxNotional else e1;
      var fee := if cfg.feeRate < 0.0 then 0.0 else cfg.feeRate;
      var affordable := availableJpy / (1.0 + fee);
      var e3 := if e2 > affordable then affordable else e2;
      if e3 < 0.0 then 0.0 else e3
  }

  /** The scaled notional never exceeds what the account can pay with its fee, nor the configured cap. */
  lemma {:induction false} ScaledNotionalBounds(base: real, availableJpy: real, cfg: AutoScaleConfig)
    ensures var e := ComputeScaledNotional(base, availableJpy, cfg);
            && e >= 0.0
            && (availableJpy >= 0.0 ==> e * (1.0 + cfg.feeRate) <= availableJpy)
            && (cfg.maxNotional > 0.0 ==> e <= cfg.maxNotional)
            && (base > 0.0 && availableJpy > 0.0 && e < base ==>
                  (cfg.maxNotional > 0.0 && e == cfg.maxNotional)
                  || e * (1.0 + if cfg.feeRate < 0.0 then 0.0 else cfg.feeRate) == availableJpy)
  {
    var e := ComputeScaledNotional(base, availableJpy, cfg);
    if base > 0.0 && availableJpy > 0.0 {
      var k := 1.0 + if cfg.feeRate < 0.0 then 0.0 else cfg.feeRate;
      var affordable := availableJpy / k;
      assert affordable * k == availableJpy;
      Scaled(0.0, affordable, k);
      Scaled(e, affordable, k);
      FeeDominates(e, cfg.feeRate);
    }
  }

  lemma {:induction false} FeeDominates(e: real, feeRate: real)
    requires e >= 0.0
    ensures e * (1.0 + feeRate) <= e * (1.0 + if feeRate < 0.0 then 0.0 else feeRate)
  {}

  function FallbackLotSize(symbol: string): (lot: real)
    ensures lot > 0.0
  {
    if symbol == "BTC_JPY" then 0.001
    else if symbol == "ETH_JPY" then 0.01
    else if symbol == "XRP_JPY" then 1.0
    else if symbol == "XLM_JPY" then 10.0
    else if symbol == "MONA_JPY" then 1.0
    else if symbol == "BCH_JPY" then 0.01
    else 0.001
  }

  /** The exchange's lot size when the service gives a positive one, else the documented minimum. */
  function LotSize(symbol: string, service: Option<real>): (lot: real)
    ensures lot > 0.0
  {
    if service.Some? && service.value > 0.0 then service.value else FallbackLotSize(symbol)
  }

  /** A signal is rewritten in place on its way to an order. */
  class Signal {
    const symbol: string
    const action: Action
    const price: real
    const reason: string
    var quantity: real

    constructor (symbol: string, action: Action, price: real, reason: string, quantity: real)
      ensures this.symbol == symbol && this.action == action && this.price == price && this.reason == reason
      ensures this.quantity == quantity
    {
      this.symbol, this.action, this.price, this.reason := symbol, action, price, reason;
      this.quantity := quantity;
    }
  }

  /** Quantity asked for before lot rounding. */
  function ScaledQuantity(quantity: real, price: real, cfg: AutoScaleConfig, jpy: real): real
    requires price > 0.0
  {
    if cfg.enabled then ComputeScaledNotional(price * quantity, jpy, cfg) / price else quantity
  }

  /** The quantity a BUY may carry to the exchange. */
  ghost predicate WellSizedBuy(q: real, scaled: real, lot: real) {
    q > 0.0 && WholeLots(q, lot) && scaled - lot < q <= scaled
  }

  /** Whether a BUY leaves something to order after scaling and rounding. */
  predicate BuyPossible(quantity: real, price: real, cfg: AutoScaleConfig, balances: Option<seq<Balance>>, lot: real) {
    && price > 0.0 && quantity > 0.0
    && if cfg.enabled then
         && balances.Some? && Available(balances.value, "JPY").Some?
         && ScaleFits(quantity, price, cfg, Available(balances.value, "JPY").value, lot)
       else quantity >= lot
  }

  /** The balance covers the base notional, and the scaled quantity at least one lot. */
  predicate ScaleFits(quantity: real, price: real, cfg: AutoScaleConfig, jpy: real, lot: real)
    requires price > 0.0
  {
    ComputeScaledNotional(price * quantity, jpy, cfg) >= price * quantity
    && ScaledQuantity(quantity, price, cfg, jpy) >= lot
  }

  /** Quantity that lot rounding starts from. */
  function RawQuantity(quantity: real, price: real, cfg: AutoScaleConfig, balances: Option<seq<Balance>>, lot: real)
    : real
    requires BuyPossible(quantity, price, cfg, balances, lot)
  {
    if cfg.enabled then ScaledQuantity(quantity, price, cfg, Available(balances.value, "JPY").value) else quantity
  }

  // ---------------------------------------------------------------- SELL sizing

  /** Part of a wallet balance this bot may sell, or None when it cannot tell. */
  function Sellable(available: real, symbol: string, read: PositionRead, shared: bool): Option<real> {
    match read
    case Table(rows) =>
      var open := L.TotalRemaining(L.GetOpenPositions(rows, symbol));
      Some(if open < available then open else available)
    case _ => if shared then None else Some(available)
  }

  /** Size of a SELL over a known sellable amount: the request if it is a proper part of it, else whole lots of
      the configured share, one lot if the share is less than a lot, and nothing below one lot. */
  function SellSize(requested: real, sellable: real, pct: real, lot: real): real
    requires lot > 0.0
  {
    SizeFor(requested, sellable, sellable * pct, lot)
  }

  function SizeFor(requested: real, sellable: real, share: real, lot: real): real
    requires lot > 0.0
  {
    if 0.0 < requested < sellable then requested
    else if share >= lot then FloorToLots(share, lot)
    else if sellable >= lot then lot
    else 0.0
  }

  /** A SELL never exceeds what is sellable; it is skipped only below one lot; unless it is the request itself
      it is a whole number of lots. */
  lemma {:induction false} SellSizeWithin(requested: real, sellable: real, pct: real, lot: real)
    requires lot > 0.0 && 0.0 < pct <= 1.0
    ensures var size := SellSize(requested, sellable, pct, lot);
            && size >= 0.0 && (size > 0.0 ==> size <= sellable)
            && (size == 0.0 <==> sellable < lot && !(0.0 < requested < sellable))
            && (size == requested || WholeLots(size, lot))
  {
    var share := sellable * pct;
    ShareWithin(sellable, pct, share);
    SizeForWithin(requested, sellable, share, lot);
  }

  lemma {:induction false} SizeForWithin(requested: real, sellable: real, share: real, lot: real)
    requires lot > 0.0 && (share > 0.0 ==> share <= sellable)
    ensures var size := SizeFor(requested, sellable, share, lot);
            && size >= 0.0 && (size > 0.0 ==> size <= sellable)
            && (size == 0.0 <==> sellable < lot && !(0.0 < requested < sellable))
            && (size == requested || WholeLots(size, lot))
  {
    if !(0.0 < requested < sellable) {
      if share >= lot {
        FloorBounds(share, lot);
        FloorIsWhole(share, lot);
      } else {
        assert LotsOf(1, lot) == lot && LotsOf(0, lot) == 0.0;
      }
    }
  }

  /** Size of the SELL order for a symbol, zero when there is nothing to sell or nothing known to be ours. */
  function SellOrderSize(symbol: string, requested: real, balances: Option<seq<Balance>>, read: PositionRead,
                         shared: bool, pct: real, lot: real): real
    requires lot > 0.0
  {
    if balances.None? then 0.0
    else
      var found := Available(balances.value, CurrencyOf(symbol));
      var available := if found.Some? then found.value else 0.0;
      var sellable := Sellable(available, symbol, read, shared);
      if available == 0.0 || sellable.None? then 0.0
      else SellSize(requested, sellable.value, pct, lot)
  }

  /** A SELL order never exceeds the wallet, nor the bot's own open positions when they can be read; when they
      cannot, a shared wallet sells nothing. */
  lemma {:induction false} SellOrderWithinHoldings(symbol: string, requested: real, balances: Option<seq<Balance>>,
                                                   read: PositionRead, shared: bool, pct: real, lot: real)
    requires lot > 0.0 && 0.0 < pct <= 1.0
    ensures var size := SellOrderSize(symbol, requested, balances, read, shared, pct, lot);
            && size >= 0.0
            && (size > 0.0 ==>
                  && balances.Some? && Available(balances.value, CurrencyOf(symbol)).Some?
                  && size <= Available(balances.value, CurrencyOf(symbol)).value
                  && (read.Table? ==> size <= L.TotalRemaining(L.GetOpenPositions(read.rows, symbol)))
                  && (!read.Table? ==> !shared))
  {
    if balances.Some? {
      var found := Available(balances.value, CurrencyOf(symbol));
      var available := if found.Some? then found.value else 0.0;
      var sellable := Sellable(available, symbol, read, shared);
      if sellable.Some? {
        SellSizeWithin(requested, sellable.value, pct, lot);
      }
    }
  }

  lemma {:induction false} ShareWithin(x: real, pct: real, share: real)
    requires 0.0 < pct <= 1.0 && share == x * pct
    ensures share > 0.0 ==> share <= x
  {
    if share > 0.0 {
      Scaled(0.0, x, pct);
      assert x > 0.0;
      ProductNonNegative(x, 1.0 - pct);
      assert x - share == x * (1.0 - pct);
    }
  }

  class SignalWorker {
    const riskManager: Manager
    const autoScale: AutoScaleConfig
    const sellSizePercentage: real
    const sharedWallet: bool
    const closesGhosts: bool

    constructor (riskManager: Manager, autoScale: AutoScaleConfig, sellSizePercentage: real, sharedWallet: bool,
                 closesGhosts: bool)
      ensures this.riskManager == riskManager && this.autoScale == autoScale
      ensures this.sellSizePercentage == sellSizePercentage
      ensures this.sharedWallet == sharedWallet && this.closesGhosts == closesGhosts
    {
      this.riskManager, this.autoScale := riskManager, autoScale;
      this.sellSizePercentage, this.sharedWallet, this.closesGhosts := sellSizePercentage, sharedWallet, closesGhosts;
    }

    method RoundBuyQuantityToLotSize(signal: Signal, lotService: Option<real>) returns (ok: bool)
      modifies signal
      ensures ok <==> old(signal.quantity) >= LotSize(signal.symbol, lotService)
      ensures ok ==> WellSizedBuy(signal.quantity, old(signal.quantity), LotSize(signal.symbol, lotService))
    {
      var lot := LotSize(signal.symbol, lotService);
      FloorBounds(signal.quantity, lot);
      FloorIsWhole(signal.quantity, lot);
      signal.quantity := FloorToLots(signal.quantity, lot);
      ok := signal.quantity > 0.0;
    }

    method ApplyAutoScaleToBuySignal(signal: Signal, balances: Option<seq<Balance>>, lotService: Option<real>)
      returns (ok: bool)
      modifies signal
      ensures ok <==> BuyPossible(old(signal.quantity), signal.price, autoScale, balances,
                                  LotSize(signal.symbol, lotService))
      ensures ok ==>
        var lot := LotSize(signal.symbol, lotService);
        WellSizedBuy(signal.quantity, RawQuantity(old(signal.quantity), signal.price, autoScale, balances, lot), lot)
    {
      if signal.price <= 0.0 || signal.quantity <= 0.0 {
        return false;
      }
      if !autoScale.enabled {
        ok := RoundBuyQuantityToLotSize(signal, lotService);
        return;
      }
      if balances.None? {
        return false;
      }
      var jpy := FindBalance(balances.value, "JPY");
      if jpy.None? {
        return false;
      }
      ok := ScaleToBalance(signal, jpy.value, lotService);
    }

    /** The tail of ApplyAutoScaleToBuySignal, once the JPY balance is known. */
    method ScaleToBalance(signal: Signal, jpy: real, lotService: Option<real>) returns (ok: bool)
      requires signal.price > 0.0 && autoScale.enabled
      modifies signal
      ensures ok <==> ScaleFits(old(signal.quantity), signal.price, autoScale, jpy, LotSize(signal.symbol, lotService))
      ensures ok ==> WellSizedBuy(signal.quantity, ScaledQuantity(old(signal.quantity), signal.price, autoScale, jpy),
                                  LotSize(signal.symbol, lotService))
    {
      var base := signal.price * signal.quantity;
      var effective := ComputeScaledNotional(base, jpy, autoScale);
      if effective < base {
        return false;
      }
      signal.quantity := effective / signal.price;
      ok := RoundBuyQuantityToLotSize(signal, lotService);
    }

    /** The bot's own unmatched size of a symbol. */
    method OpenPositionSize(symbol: string, read: PositionRead) returns (total: real, ok: bool)
      ensures ok <==> read.Table?
      ensures ok ==> total == L.TotalRemaining(L.GetOpenPositions(read.rows, symbol))
    {
      total, ok := 0.0, read.Table?;
      if ok {
        var open, i := L.GetOpenPositions(read.rows, symbol), 0;
        while i < |open|
          invariant 0 <= i <= |open|
          invariant total + L.TotalRemaining(open[i..]) == L.TotalRemaining(open)
        {
          assert open[i..][1..] == open[i+1..];
          total := total + open[i].remaining;
          i := i + 1;
        }
      }
    }

    method GetAvailableSellSize(symbol: string, requested: real, balances: Option<seq<Balance>>,
                                read: PositionRead, lotService: Option<real>)
      returns (size: real)
      ensures size == SellOrderSize(symbol, requested, balances, read, sharedWallet, sellSizePercentage,
                                    LotSize(symbol, lotService))
    {
      var currency := ExtractCurrency(symbol);
      if balances.None? {
        return 0.0;
      }
      var found := FindBalance(balances.value, currency);
      var available := if found.Some? then found.value else 0.0;
      if available == 0.0 {
        return 0.0;
      }
      var sellable := available;
      var openSize, ok := OpenPositionSize(symbol, read);
      if ok {
        if openSize < sellable {
          sellable := openSize;
        }
      } else if sharedWallet {
        return 0.0;
      }
      assert Sellable(available, symbol, read, sharedWallet) == Some(sellable);
      size := SizeWithin(requested, sellable, LotSize(symbol, lotService));
    }

    /** The tail of GetAvailableSellSize: lot rounding of a sellable amount. */
    method SizeWithin(requested: real, sellable: real, lot: real) returns (size: real)
      requires lot > 0.0
      ensures size == SellSize(requested, sellable, sellSizePercentage, lot)
    {
      if requested > 0.0 && requested < sellable {
        return requested;
      }
      size := FloorToLots(sellable * sellSizePercentage, lot);
      FloorBounds(sellable * sellSizePercentage, lot);
      if size <= 0.0 {
        size := if sellable >= lot then lot else 0.0;
      }
    }

    /** Currency in front of the last underscore. */
    method ExtractCurrency(symbol: string) returns (currency: string)
      ensures currency == CurrencyOf(symbol)
    {
      currency := symbol;
      if |symbol| > 1 {
        var i := |symbol|;
        while i > 0
          invariant 0 <= i <= |symbol|
          invariant LastUnderscore(symbol, i) == LastUnderscore(symbol, |symbol|)
        {
          if symbol[i-1] == '_' {
            return symbol[..i-1];
          }
          i := i - 1;
        }
      }
    }

    /** One signal, from the trading switch to the order; ghosts says that stale positions are to be closed. */
    method ProcessSignal(signal: Signal, tradingEnabled: bool, scaleBalances: Option<seq<Balance>>,
                         risk: RiskReads, sellBalances: Option<seq<Balance>>, read: PositionRead,
                         lotService: Option<real>)
      returns (order: Option<OrderRequest>, ghosts: bool)
      modifies signal
      ensures signal.action == Buy ==>
        var q, lot := old(signal.quantity), LotSize(signal.symbol, lotService);
        && !ghosts
        && (order.Some? <==> tradingEnabled && BuyPossible(q, signal.price, autoScale, scaleBalances, lot)
                             && RiskOk(riskManager.cfg, Buy, signal.reason, signal.price, signal.quantity, risk))
        && (order.Some? ==>
              && order == Some(OrderRequest(signal.symbol, L.Buy, signal.quantity, signal.price))
              && BuyWithinLimits(signal.quantity, q, signal.price, autoScale, riskManager.cfg, scaleBalances, risk,
                                 lot))
      ensures signal.action == Sell ==>
        var size := SellOrderSize(signal.symbol, signal.quantity, sellBalances, read, sharedWallet,
                                  sellSizePercentage, LotSize(signal.symbol, lotService));
        var passed := tradingEnabled
                      && RiskOk(riskManager.cfg, Sell, signal.reason, signal.price, signal.quantity, risk);
        && order == (if passed && size != 0.0
                     then Some(OrderRequest(signal.symbol, L.Sell, size, signal.price)) else None)
        && ghosts == (passed && size == 0.0 && closesGhosts)
        && signal.quantity == old(signal.quantity)
      ensures signal.action !in {Buy, Sell} ==> order.None? && !ghosts
    {
      order, ghosts := None, false;
      if signal.action == Hold || !tradingEnabled {
        return;
      }
      if signal.action == Buy {
        var ok := ApplyAutoScaleToBuySignal(signal, scaleBalances, lotService);
        if !ok {
          return;
        }
      }
      var accepted :=
        riskManager.CheckRiskManagement(signal.action, signal.reason, signal.price, signal.quantity, risk);
      if !accepted {
        return;
      }
      match signal.action
      case Buy =>
        order := Some(OrderRequest(signal.symbol, L.Buy, signal.quantity, signal.price));
        AcceptedBuyWithinLimits(signal.quantity, old(signal.quantity), signal.price, autoScale, riskManager.cfg,
                                signal.reason, scaleBalances, risk, LotSize(signal.symbol, lotService));
      case Sell =>
        var size := GetAvailableSellSize(signal.symbol, signal.quantity, sellBalances, read, lotService);
        if size == 0.0 {
          ghosts := closesGhosts;
        } else {
          order := Some(OrderRequest(signal.symbol, L.Sell, size, signal.price));
        }
      case _ =>
    }
  }

  /** Position of the last underscore among the first n characters, or -1. */
  function LastUnderscore(s: string, n: nat): int
    requires n <= |s|
  {
    if n == 0 then -1 else if s[n-1] == '_' then n - 1 else LastUnderscore(s, n - 1)
  }

  function CurrencyOf(symbol: string): string {
    var k := LastUnderscore(symbol, |symbol|);
    if |symbol| > 1 && 0 <= k < |symbol| then symbol[..k] else symbol
  }

  /** With auto-scale on, a well-sized BUY is paid, fee included, by the balance that scaled it, and respects
      the cap on its notional. */
  lemma {:induction false} ScaledBuyAffordable(q: real, quantity: real, price: real, cfg: AutoScaleConfig, jpy: real,
                                               lot: real)
    requires price > 0.0 && cfg.enabled && WellSizedBuy(q, ScaledQuantity(quantity, price, cfg, jpy), lot)
    ensures Affordable(q, price, cfg, jpy)
  {
    ScaledNotionalBounds(price * quantity, jpy, cfg);
    NotionalAffordable(q, ComputeScaledNotional(price * quantity, jpy, cfg), price, cfg, jpy);
  }

  lemma {:induction false} NotionalAffordable(q: real, effective: real, price: real, cfg: AutoScaleConfig, jpy: real)
    requires price > 0.0 && 0.0 < q <= effective / price
    requires effective > 0.0 ==> jpy >= 0.0
    requires jpy >= 0.0 ==> effective * (1.0 + cfg.feeRate) <= jpy
    requires cfg.maxNotional > 0.0 ==> effective <= cfg.maxNotional
    ensures price * q * (1.0 + cfg.feeRate) <= jpy
    ensures cfg.maxNotional > 0.0 ==> price * q <= cfg.maxNotional
  {
    PartCosts(q, effective, price);
    LessCostsLess(price * q, effective, cfg.feeRate, jpy);
  }

  lemma {:induction false} PartCosts(q: real, effective: real, price: real)
    requires price > 0.0 && 0.0 < q <= effective / price
    ensures 0.0 < price * q <= effective
  {
    var raw := effective / price;
    assert raw * price == effective;
    Scaled(q, raw, price);
    Scaled(0.0, q, price);
  }

  lemma {:induction false} LessCostsLess(cost: real, effective: real, feeRate: real, jpy: real)
    requires 0.0 < cost <= effective && effective * (1.0 + feeRate) <= jpy && jpy >= 0.0
    ensures cost * (1.0 + feeRate) <= jpy
  {
    if 1.0 + feeRate > 0.0 {
      Scaled(cost, effective, 1.0 + feeRate);
    } else {
      assert cost * (1.0 + feeRate) <= 0.0;
    }
  }

  /** What a BUY order guarantees: whole lots, less than one lot below the scaled quantity, within the risk cap fee
      included, and with auto-scale on within the JPY balance fee included and within the cap on its notional. */
  ghost predicate BuyWithinLimits(q: real, quantity: real, price: real, cfg: AutoScaleConfig, riskCfg: RiskConfig,
                                  scaleBalances: Option<seq<Balance>>, risk: RiskReads, lot: real)
    requires BuyPossible(quantity, price, cfg, scaleBalances, lot)
  {
    && WellSizedBuy(q, RawQuantity(quantity, price, cfg, scaleBalances, lot), lot)
    && WithinRiskCap(q, price, riskCfg, risk)
    && (cfg.enabled ==> Affordable(q, price, cfg, Available(scaleBalances.value, "JPY").value))
  }

  predicate WithinRiskCap(q: real, price: real, riskCfg: RiskConfig, risk: RiskReads) {
    && risk.balances.Some? && Available(risk.balances.value, "JPY").Some?
    && price * q * (1.0 + riskCfg.feeRate)
       <= Available(risk.balances.value, "JPY").value * riskCfg.maxTradeAmountPercent / 100.0
  }

  predicate Affordable(q: real, price: real, cfg: AutoScaleConfig, jpy: real) {
    && price * q * (1.0 + cfg.feeRate) <= jpy
    && (cfg.maxNotional > 0.0 ==> price * q <= cfg.maxNotional)
  }

  lemma {:induction false} AcceptedWithinRiskCap(q: real, price: real, riskCfg: RiskConfig, reason: string,
                                                 risk: RiskReads)
    requires RiskOk(riskCfg, Buy, reason, price, q, risk)
    ensures WithinRiskCap(q, price, riskCfg, risk)
  {}

  /** Scaling, rounding and the risk check together. */
  lemma {:induction false} AcceptedBuyWithinLimits(q: real, quantity: real, price: real, cfg: AutoScaleConfig,
                                                   riskCfg: RiskConfig, reason: string,
                                                   scaleBalances: Option<seq<Balance>>, risk: RiskReads, lot: real)
    requires BuyPossible(quantity, price, cfg, scaleBalances, lot)
    requires WellSizedBuy(q, RawQuantity(quantity, price, cfg, scaleBalances, lot), lot)
    requires RiskOk(riskCfg, Buy, reason, price, q, risk)
    ensures BuyWithinLimits(q, quantity, price, cfg, riskCfg, scaleBalances, risk, lot)
  {
    AcceptedWithinRiskCap(q, price, riskCfg, reason, risk);
    if cfg.enabled {
      ScaledBuyAffordable(q, quantity, price, cfg, Available(scaleBalances.value, "JPY").value, lot);
    }
  }

  // ---------------------------------------------------------------- no sale without a cost basis

  /** A fill is matched to the last unit exactly when it does not exceed the open positions. */
  lemma {:induction false} FullyMatched(t: seq<L.Position>, symbol: string, fill: real)
    ensures var open := L.GetOpenPositions(t, symbol);
            L.Unmatched(open, fill) == 0.0 <==> 0.0 <= fill <= L.TotalRemaining(open)
  {
    var open := L.GetOpenPositions(t, symbol);
    LR.OpenArePositive(t, symbol);
    L.RemainingNonNegative(open);
    L.UnmatchedIsExcess(open, fill);
  }

  lemma {:induction false} RemainingAfterMatch(open: seq<L.Position>, symbol: string, want: real, price: real)
    requires LS.AllOpen(open, symbol)
    ensures L.TotalRemaining(L.OpenRows(L.Matched(open, want, price), symbol))
         == L.TotalRemaining(open) - (if want > 0.0 then want - L.Unmatched(open, want) else 0.0)
  {
    if open == [] {
    } else {
      assert LS.AllOpen(open[1..], symbol) && L.IsOpen(open[0], symbol);
      if want > 0.0 {
        var m := L.MatchAmount(open[0], want);
        RemainingAfterMatch(open[1..], symbol, want - m, price);
        var h, rest := L.Fill(open[0], m, price), L.Matched(open[1..], want - m, price);
        assert ([h] + rest)[1..] == rest;
        assert [h] + L.OpenRows(rest, symbol) == L.OpenRows([h] + rest, symbol) || !L.IsOpen(h, symbol);
        if L.IsOpen(h, symbol) {
          assert ([h] + L.OpenRows(rest, symbol))[1..] == L.OpenRows(rest, symbol);
        }
      } else {
        LS.FilterAllOpen(open, symbol);
      }
    }
  }

  /** Any fill of an order sized by the signal worker against a readable table has a cost basis for every unit,
      and lowers the bot's own holdings by exactly that fill. */
  lemma {:induction false} NoSaleWithoutCostBasis(t: seq<L.Position>, r: L.OrderResult, requested: real,
                                                  balances: Option<seq<Balance>>, shared: bool, pct: real, lot: real)
    requires LS.DistinctIds(t) && r.side == L.Sell && lot > 0.0 && 0.0 < pct <= 1.0
    requires 0.0 <= r.filledSize <= SellOrderSize(r.symbol, requested, balances, Table(t), shared, pct, lot)
    ensures L.Unmatched(L.GetOpenPositions(t, r.symbol), r.filledSize) == 0.0
    ensures LR.Pnl(t, r) == r.EffectivePrice() * r.filledSize
                            - L.MatchCost(L.GetOpenPositions(t, r.symbol), r.filledSize) - r.fee
    ensures L.TotalRemaining(L.GetOpenPositions(LR.RecordRows(t, r), r.symbol))
         == L.TotalRemaining(L.GetOpenPositions(t, r.symbol)) - r.filledSize
  {
    LR.OpenArePositive(t, r.symbol);
    L.RemainingNonNegative(L.GetOpenPositions(t, r.symbol));
    SellOrderWithinHoldings(r.symbol, requested, balances, Table(t), shared, pct, lot);
    FullyMatched(t, r.symbol, r.filledSize);
    LR.SellPnl(t, r);
    HoldingsAfterSell(t, r.symbol, r.filledSize, r.EffectivePrice());
  }

  lemma {:induction false} HoldingsAfterSell(t: seq<L.Position>, symbol: string, want: real, price: real)
    requires LS.DistinctIds(t) && 0.0 <= want <= L.TotalRemaining(L.GetOpenPositions(t, symbol))
    ensures L.TotalRemaining(L.GetOpenPositions(LS.SellRows(t, symbol, want, price), symbol))
         == L.TotalRemaining(L.GetOpenPositions(t, symbol)) - want
  {
    var open := L.GetOpenPositions(t, symbol);
    LS.AfterSell(t, symbol, want, price);
    L.GetOpenPositionsMeaning(t, symbol);
    RemainingAfterMatch(open, symbol, want, price);
    LR.OpenArePositive(t, symbol);
    L.UnmatchedIsExcess(open, want);
  }
}
