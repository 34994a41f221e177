/** Exactly what the sizing of orders asks for and what the risk check lets through. */
module OrderLaws {
  import opened Options
  import opened Reals
  import opened Lots
  import opened Signals
  import opened RiskManager
  import opened SignalWorkers
  import L = Ledger

  // ---------------------------------------------------------------- SELL sizes

  /** A SELL is its request when that is a proper part of what is sellable; else the largest number of whole lots
      within the configured share; else one lot, if there is one; else nothing. */
  lemma {:induction false} SellSizeExact(requested: real, sellable: real, pct: real, lot: real)
    requires lot > 0.0
    ensures var size, share := SellSize(requested, sellable, pct, lot), sellable * pct;
            && (0.0 < requested < sellable ==> size == requested)
            && (!(0.0 < requested < sellable) ==>
                  && (share >= lot ==> WholeLots(size, lot) && share - lot < size <= share)
                  && (share < lot <= sellable ==> size == lot)
                  && (share < lot && sellable < lot ==> size == 0.0))
  {
    FloorBounds(sellable * pct, lot);
    FloorIsWhole(sellable * pct, lot);
  }

  /** What may be sold of a wallet: no more than the open positions when they can be read, all of it when they cannot
      and the wallet is not shared. */
  predicate MaySell(sellable: real, symbol: string, wallet: real, read: PositionRead, shared: bool) {
    if read.Table? then
      var open := L.TotalRemaining(L.GetOpenPositions(read.rows, symbol));
      sellable <= open && sellable <= wallet && (sellable == open || sellable == wallet)
    else !shared && sellable == wallet
  }

  /** The same over the wallet and the open positions of the symbol. */
  lemma {:induction false} SellOrderExact(symbol: string, requested: real, wallet: real, balances: seq<Balance>,
                                          read: PositionRead, shared: bool, pct: real, lot: real, sellable: real)
    requires lot > 0.0 && wallet != 0.0 && Available(balances, CurrencyOf(symbol)) == Some(wallet)
    requires MaySell(sellable, symbol, wallet, read, shared)
    ensures var size := SellOrderSize(symbol, requested, Some(balances), read, shared, pct, lot);
            var share := sellable * pct;
            && (0.0 < requested < sellable ==> size == requested)
            && (!(0.0 < requested < sellable) ==>
                  && (share >= lot ==> WholeLots(size, lot) && share - lot < size <= share)
                  && (share < lot <= sellable ==> size == lot)
                  && (share < lot && sellable < lot ==> size == 0.0))
  {
    assert Sellable(wallet, symbol, read, shared) == Some(sellable);
    SellSizeExact(requested, sellable, pct, lot);
  }

  /** Nothing is sold without a readable wallet that holds the currency, nor from a shared wallet whose positions
      cannot be read. */
  lemma {:induction false} SellsNothing(symbol: string, requested: real, balances: Option<seq<Balance>>,
                                        read: PositionRead, shared: bool, pct: real, lot: real)
    requires lot > 0.0
    requires balances.None? || Available(balances.value, CurrencyOf(symbol)) in {None, Some(0.0)}
             || (shared && !read.Table?)
    ensures SellOrderSize(symbol, requested, balances, read, shared, pct, lot) == 0.0
  {}

  /** The currency of a pair is what stands in front of its last underscore. */
  lemma {:induction false} CurrencyOfPair(base: string, quote: string)
    requires '_' !in quote && (base != "" || quote != "")
    ensures CurrencyOf(base + "_" + quote) == base
    ensures CurrencyOf(quote) == quote
  {
    var symbol := base + "_" + quote;
    assert symbol[|base|] == '_';
    forall i | |base| < i < |symbol| ensures symbol[i] != '_' {
      assert symbol[i] == quote[i-|base|-1];
    }
    LastUnderscoreAt(symbol, |symbol|, |base|);
    NoUnderscore(quote, |quote|);
  }

  lemma {:induction false} LastUnderscoreAt(s: string, n: nat, k: nat)
    requires k < n <= |s| && s[k] == '_' && forall i :: k < i < n ==> s[i] != '_'
    ensures LastUnderscore(s, n) == k
  {
    if n - 1 > k {
      LastUnderscoreAt(s, n - 1, k);
    }
  }

  lemma {:induction false} NoUnderscore(s: string, n: nat)
    requires n <= |s| && '_' !in s
    ensures LastUnderscore(s, n) == -1
  {
    if n > 0 {
      assert s[n-1] in s;
      NoUnderscore(s, n - 1);
    }
  }

  /** A positive lot size of the exchange is used as it is; any other answer is as good as none, and then the minimum
      of the pair counts. */
  lemma {:induction false} ExchangeLotFirst(symbol: string, lot: real)
    ensures lot > 0.0 ==> LotSize(symbol, Some(lot)) == lot
    ensures lot <= 0.0 ==> LotSize(symbol, Some(lot)) == LotSize(symbol, None)
    ensures LotSize("BTC_JPY", None) == 0.001 && LotSize("ETH_JPY", None) == LotSize("BCH_JPY", None) == 0.01
    ensures LotSize("XRP_JPY", None) == LotSize("MONA_JPY", None) == 1.0 && LotSize("XLM_JPY", None) == 10.0
  {}

  /** What is available of a currency is what its first entry says, and nothing exactly when there is no entry. */
  lemma {:induction false} FirstEntryCounts(bs: seq<Balance>, currency: string, i: nat)
    ensures Available(bs, currency).None? <==> forall j :: 0 <= j < |bs| ==> bs[j].currency != currency
    ensures i < |bs| && bs[i].currency == currency && (forall j :: 0 <= j < i ==> bs[j].currency != currency) ==>
      Available(bs, currency) == Some(bs[i].available)
  {
    if bs == [] {
    } else if bs[0].currency != currency {
      FirstEntryCounts(bs[1..], currency, if i > 0 then i - 1 else 0);
      assert forall j :: 0 < j < |bs| ==> bs[j] == bs[1..][j-1];
    }
  }

  // ---------------------------------------------------------------- BUY sizes

  /** A notional that a BUY may have: up to the base, or with auto-scale up to a share of the balance; within the cap;
      and payable with its fee. */
  predicate Admissible(x: real, base: real, jpy: real, cfg: AutoScaleConfig) {
    && (x <= base || (cfg.enabled && x <= jpy * cfg.balancePct / 100.0))
    && (cfg.maxNotional > 0.0 ==> x <= cfg.maxNotional)
    && (x > 0.0 ==> x + FeeOf(x, cfg) <= jpy)
  }

  /** The fee on a notional; a rebate does not count. */
  function FeeOf(x: real, cfg: AutoScaleConfig): real {
    if cfg.feeRate < 0.0 then 0.0 else x * cfg.feeRate
  }

  /** The scaled notional is the greatest admissible one. */
  lemma {:induction false} ScaledIsGreatest(base: real, jpy: real, cfg: AutoScaleConfig, x: real)
    requires base > 0.0 && jpy > 0.0
    ensures var e := ComputeScaledNotional(base, jpy, cfg);
            e > 0.0 && Admissible(e, base, jpy, cfg) && (Admissible(x, base, jpy, cfg) ==> x <= e)
  {
    ScaledIsAdmissible(base, jpy, cfg);
    if Admissible(x, base, jpy, cfg) && x > 0.0 {
      var affordable := jpy / (1.0 + if cfg.feeRate < 0.0 then 0.0 else cfg.feeRate);
      PayableIff(x, jpy, cfg, affordable);
      GreatestOfAll(x, base, jpy * cfg.balancePct / 100.0, affordable, jpy, cfg);
    }
  }

  lemma {:induction false} ScaledIsAdmissible(base: real, jpy: real, cfg: AutoScaleConfig)
    requires base > 0.0 && jpy > 0.0
    ensures var e := ComputeScaledNotional(base, jpy, cfg);
            e > 0.0 && Admissible(e, base, jpy, cfg)
  {
    var affordable := jpy / (1.0 + if cfg.feeRate < 0.0 then 0.0 else cfg.feeRate);
    PayableIff(ComputeScaledNotional(base, jpy, cfg), jpy, cfg, affordable);
  }

  lemma {:induction false} PayableIff(x: real, jpy: real, cfg: AutoScaleConfig, affordable: real)
    requires jpy > 0.0 && affordable == jpy / (1.0 + if cfg.feeRate < 0.0 then 0.0 else cfg.feeRate)
    ensures affordable > 0.0
    ensures x + FeeOf(x, cfg) <= jpy <==> x <= affordable
  {
    var k := 1.0 + if cfg.feeRate < 0.0 then 0.0 else cfg.feeRate;
    assert affordable * k == jpy;
    Scaled(0.0, affordable, k);
    WithFee(x, cfg, k);
    Scaled(x, affordable, k);
  }

  lemma {:induction false} GreatestOfAll(x: real, base: real, target: real, affordable: real, jpy: real,
                                         cfg: AutoScaleConfig)
    requires base > 0.0 && jpy > 0.0 && target == jpy * cfg.balancePct / 100.0
    requires affordable == jpy / (1.0 + if cfg.feeRate < 0.0 then 0.0 else cfg.feeRate)
    requires 0.0 < x <= affordable && (x <= base || (cfg.enabled && x <= target))
    requires cfg.maxNotional > 0.0 ==> x <= cfg.maxNotional
    ensures x <= ComputeScaledNotional(base, jpy, cfg)
  {
    var e1 := if cfg.enabled && target > base then target else base;
    assert x <= e1;
  }

  lemma {:induction false} WithFee(x: real, cfg: AutoScaleConfig, k: real)
    requires k == 1.0 + if cfg.feeRate < 0.0 then 0.0 else cfg.feeRate
    ensures x + FeeOf(x, cfg) == x * k
  {}

  /** Scaling up: with auto-scale the notional is the whole share of the balance, when that is above the base, below
      the cap and payable. */
  lemma {:induction false} ScalesUpToShare(base: real, jpy: real, cfg: AutoScaleConfig, share: real)
    requires base > 0.0 && jpy > 0.0 && cfg.enabled && share == jpy * cfg.balancePct / 100.0 && share >= base
    requires (cfg.maxNotional > 0.0 ==> share <= cfg.maxNotional) && share + FeeOf(share, cfg) <= jpy
    ensures ComputeScaledNotional(base, jpy, cfg) == share
  {
    ScaledIsGreatest(base, jpy, cfg, share);
  }

  /** With auto-scale on, a well-sized BUY is the greatest number of whole lots whose notional is admissible. */
  lemma {:induction false} ScaledBuyIsGreatest(q: real, quantity: real, price: real, cfg: AutoScaleConfig, jpy: real,
                                               lot: real, x: real)
    requires price > 0.0 && lot > 0.0 && cfg.enabled && quantity > 0.0 && jpy > 0.0
    requires WellSizedBuy(q, ScaledQuantity(quantity, price, cfg, jpy), lot) && WholeLots(x, lot)
    ensures Admissible(price * q, price * quantity, jpy, cfg)
    ensures x > q ==> !Admissible(price * x, price * quantity, jpy, cfg)
  {
    PositiveProduct(price, quantity);
    GreatestLots(q, price * quantity, price, cfg, jpy, lot, x, ComputeScaledNotional(price * quantity, jpy, cfg));
  }

  lemma {:induction false} GreatestLots(q: real, base: real, price: real, cfg: AutoScaleConfig, jpy: real, lot: real,
                                        x: real, e: real)
    requires price > 0.0 && lot > 0.0 && base > 0.0 && jpy > 0.0 && e == ComputeScaledNotional(base, jpy, cfg)
    requires WellSizedBuy(q, e / price, lot) && WholeLots(x, lot)
    ensures Admissible(price * q, base, jpy, cfg)
    ensures x > q ==> !Admissible(price * x, base, jpy, cfg)
  {
    PartCosts(q, e, price);
    AtMostScaled(price * q, e, base, jpy, cfg);
    if x > q {
      NextLots(q, lot, x);
      MoreIsInadmissible(x, e, base, price, jpy, cfg);
    }
  }

  lemma {:induction false} MoreIsInadmissible(x: real, e: real, base: real, price: real, jpy: real,
                                              cfg: AutoScaleConfig)
    requires price > 0.0 && base > 0.0 && jpy > 0.0 && e == ComputeScaledNotional(base, jpy, cfg) && x > e / price
    ensures !Admissible(price * x, base, jpy, cfg)
  {
    BeyondCosts(x, e, price);
    ScaledIsGreatest(base, jpy, cfg, price * x);
  }

  lemma {:induction false} AtMostScaled(y: real, e: real, base: real, jpy: real, cfg: AutoScaleConfig)
    requires base > 0.0 && jpy > 0.0 && e == ComputeScaledNotional(base, jpy, cfg) && y > 0.0
    ensures Admissible(y, base, jpy, cfg) <==> y <= e
  {
    ScaledIsGreatest(base, jpy, cfg, y);
    if y <= e {
      LessIsAdmissible(y, e, base, jpy, cfg);
    }
  }

  lemma {:induction false} LessIsAdmissible(x: real, e: real, base: real, jpy: real, cfg: AutoScaleConfig)
    requires 0.0 < x <= e && Admissible(e, base, jpy, cfg)
    ensures Admissible(x, base, jpy, cfg)
  {
    if cfg.feeRate > 0.0 {
      Scaled(x, e, cfg.feeRate);
    }
  }

  /** Two different whole numbers of lots are at least one lot apart. */
  lemma {:induction false} NextLots(q: real, lot: real, x: real)
    requires lot > 0.0 && WholeLots(q, lot) && WholeLots(x, lot) && x > q
    ensures x >= q + lot
  {
    var m: int :| q == LotsOf(m, lot);
    var n: int :| x == LotsOf(n, lot);
    Scaled(m as real, n as real, lot);
    var d := (n - m - 1) as real;
    assert d >= 0.0;
    ProductNonNegative(d, lot);
    LotsDiffer(n as real, m as real, d, lot);
  }

  lemma {:induction false} LotsDiffer(n: real, m: real, d: real, lot: real)
    requires d == n - m - 1.0
    ensures n * lot == m * lot + lot + d * lot
  {}

  lemma {:induction false} BeyondCosts(x: real, e: real, price: real)
    requires price > 0.0 && x > e / price
    ensures price * x > e
  {
    var raw := e / price;
    assert raw * price == e;
    Scaled(raw, x, price);
  }

  /** With auto-scale on, a BUY is possible exactly when both its base and a single lot are admissible. */
  lemma {:induction false} ScaledBuyPossibleIff(quantity: real, price: real, cfg: AutoScaleConfig,
                                                balances: seq<Balance>, jpy: real, lot: real)
    requires price > 0.0 && quantity > 0.0 && jpy > 0.0 && lot > 0.0 && cfg.enabled
    requires Available(balances, "JPY") == Some(jpy)
    ensures BuyPossible(quantity, price, cfg, Some(balances), lot)
       <==> Admissible(price * quantity, price * quantity, jpy, cfg)
            && Admissible(price * lot, price * quantity, jpy, cfg)
  {
    PositiveProduct(price, quantity);
    PositiveProduct(price, lot);
    BaseAndLot(price * quantity, price, lot, jpy, cfg, ComputeScaledNotional(price * quantity, jpy, cfg));
  }

  lemma {:induction false} BaseAndLot(base: real, price: real, lot: real, jpy: real, cfg: AutoScaleConfig, e: real)
    requires price > 0.0 && lot > 0.0 && base > 0.0 && jpy > 0.0 && e == ComputeScaledNotional(base, jpy, cfg)
    ensures e >= base <==> Admissible(base, base, jpy, cfg)
    ensures e / price >= lot <==> Admissible(price * lot, base, jpy, cfg)
  {
    PositiveProduct(price, lot);
    AtMostScaled(base, e, base, jpy, cfg);
    AtMostScaled(price * lot, e, base, jpy, cfg);
    QuotientAtLeast(e, price, lot);
  }

  lemma {:induction false} QuotientAtLeast(e: real, price: real, lot: real)
    requires price > 0.0
    ensures e / price >= lot <==> price * lot <= e
  {
    var raw := e / price;
    assert raw * price == e;
    Scaled(raw, lot, price);
  }

  /** Without auto-scale a BUY is its request, rounded down to whole lots. */
  lemma {:induction false} UnscaledBuyIsRounded(q: real, quantity: real, price: real, cfg: AutoScaleConfig,
                                                balances: Option<seq<Balance>>, lot: real)
    requires !cfg.enabled && BuyPossible(quantity, price, cfg, balances, lot)
    requires WellSizedBuy(q, RawQuantity(quantity, price, cfg, balances, lot), lot)
    ensures quantity - lot < q <= quantity && WholeLots(q, lot) && quantity >= lot
  {}

  /** A scaled BUY always fits the risk manager's share, when the auto-scale share with its fee does. */
  lemma {:induction false} ScaledBuyFitsRiskShare(q: real, quantity: real, price: real, cfg: AutoScaleConfig, lot: real,
                                                  riskCfg: RiskConfig, rd: RiskReads, jpy: real)
    requires price > 0.0 && cfg.enabled && quantity > 0.0 && jpy > 0.0
    requires WellSizedBuy(q, ScaledQuantity(quantity, price, cfg, jpy), lot)
    requires price * quantity <= jpy * cfg.balancePct / 100.0
    requires riskCfg.feeRate >= 0.0 && cfg.balancePct * (1.0 + riskCfg.feeRate) <= riskCfg.maxTradeAmountPercent
    requires rd.balances.Some? && Available(rd.balances.value, "JPY") == Some(jpy)
    requires HasRoom(riskCfg, rd)
    ensures BuyOk(riskCfg, rd, price, q)
  {
    PositiveProduct(price, quantity);
    ScaledWithinShare(price * quantity, jpy, cfg);
    ShareCovers(q, price, cfg, lot, riskCfg, jpy, ComputeScaledNotional(price * quantity, jpy, cfg));
    FitsCheck(riskCfg, rd, price, q, jpy);
  }

  lemma {:induction false} ShareCovers(q: real, price: real, cfg: AutoScaleConfig, lot: real, riskCfg: RiskConfig,
                                       jpy: real, e: real)
    requires price > 0.0 && jpy > 0.0 && WellSizedBuy(q, e / price, lot) && e <= jpy * cfg.balancePct / 100.0
    requires riskCfg.feeRate >= 0.0 && cfg.balancePct * (1.0 + riskCfg.feeRate) <= riskCfg.maxTradeAmountPercent
    ensures price * q * (1.0 + riskCfg.feeRate) <= jpy * riskCfg.maxTradeAmountPercent / 100.0
  {
    PartCosts(q, e, price);
    ShareFits(price * q, jpy * cfg.balancePct / 100.0, jpy, cfg.balancePct, riskCfg.feeRate,
              riskCfg.maxTradeAmountPercent);
  }

  /** The limit on open positions is off, cannot be checked, or leaves room for one more. */
  predicate HasRoom(cfg: RiskConfig, rd: RiskReads) {
    cfg.maxOpenPositionsPerSymbol > 0 && rd.positionsWired && rd.positions.Some? ==>
      |rd.positions.value| < cfg.maxOpenPositionsPerSymbol
  }

  lemma {:induction false} ScaledWithinShare(base: real, jpy: real, cfg: AutoScaleConfig)
    requires 0.0 < base <= jpy * cfg.balancePct / 100.0 && jpy > 0.0
    ensures ComputeScaledNotional(base, jpy, cfg) <= jpy * cfg.balancePct / 100.0
  {
    ScaledIsGreatest(base, jpy, cfg, 0.0);
  }

  lemma {:induction false} FitsCheck(cfg: RiskConfig, rd: RiskReads, price: real, q: real, jpy: real)
    requires rd.balances.Some? && Available(rd.balances.value, "JPY") == Some(jpy) && jpy > 0.0
    requires price * q * (1.0 + cfg.feeRate) <= jpy * cfg.maxTradeAmountPercent / 100.0
    requires HasRoom(cfg, rd)
    ensures BuyOk(cfg, rd, price, q)
  {}

  lemma {:induction false} ShareFits(cost: real, share: real, jpy: real, pct: real, fee: real, cap: real)
    requires cost <= share == jpy * pct / 100.0 && jpy > 0.0 && fee >= 0.0 && pct * (1.0 + fee) <= cap
    ensures cost * (1.0 + fee) <= jpy * cap / 100.0
  {
    Scaled(cost, share, 1.0 + fee);
    Scaled(pct * (1.0 + fee), cap, jpy);
    assert share * (1.0 + fee) == pct * (1.0 + fee) * jpy / 100.0;
  }

  // ---------------------------------------------------------------- the risk check

  /** A stop-loss or take-profit SELL passes whatever the limits say, as long as balances can be read; any other SELL
      has to keep all three. */
  lemma {:induction false} ForcedExitsAreExempt(cfg: RiskConfig, reason: string, price: real, quantity: real,
                                                rd: RiskReads)
    ensures RiskOk(cfg, Sell, "stop_loss", price, quantity, rd) <==> rd.balances.Some?
    ensures RiskOk(cfg, Sell, "take_profit", price, quantity, rd) <==> rd.balances.Some?
    ensures reason != "stop_loss" && reason != "take_profit" ==>
      (RiskOk(cfg, Sell, reason, price, quantity, rd)
       <==> rd.balances.Some? && DailyLimitOk(cfg, rd) && IntervalOk(cfg, rd) && LossOk(cfg, rd))
  {}

  /** A BUY that passes leaves no more open positions of its symbol than allowed. */
  lemma {:induction false} PassedBuyFindsRoom(cfg: RiskConfig, reason: string, price: real, quantity: real,
                                              rd: RiskReads)
    requires RiskOk(cfg, Buy, reason, price, quantity, rd)
    requires cfg.maxOpenPositionsPerSymbol > 0 && rd.positionsWired && rd.positions.Some?
    ensures |rd.positions.value| + 1 <= cfg.maxOpenPositionsPerSymbol
  {}

  /** What the loss is measured against: a positive JPY balance, and otherwise the initial balance. */
  predicate Capital(capital: real, cfg: RiskConfig, balances: seq<Balance>) {
    var jpy := Available(balances, "JPY");
    && (jpy.Some? && jpy.value > 0.0 ==> capital == jpy.value)
    && (jpy.None? || jpy.value <= 0.0 ==> capital == cfg.initialBalance)
  }

  /** The cumulated result that the limit looks at: the newest metric, or with an epoch what was booked since. */
  predicate Result(pnl: real, cfg: RiskConfig, rd: RiskReads) {
    if cfg.pnlEpoch.None? then rd.metrics.Some? && rd.metrics.value != [] && rd.metrics.value[0] == pnl
    else rd.sinceEpoch.Some? && rd.sinceEpoch.value != [] && Booked(rd.sinceEpoch.value, |rd.sinceEpoch.value|) == pnl
  }

  /** What the first n trades have booked. */
  function Booked(ts: seq<Stamp>, n: nat): real
    requires n <= |ts|
  {
    if n == 0 then 0.0 else Booked(ts, n - 1) + ts[n-1].pnl
  }

  lemma {:induction false} BookedIsSum(ts: seq<Stamp>, n: nat)
    requires n <= |ts|
    ensures Booked(ts, n) + SumOf(ts[n..]) == SumOf(ts)
  {
    if n == 0 {
      assert ts[0..] == ts;
    } else {
      BookedIsSum(ts, n - 1);
      assert ts[n-1..][1..] == ts[n..];
    }
  }

  /** A loss stops ordinary signals exactly when it is above its share of the capital, or there is no telling. */
  lemma {:induction false} LossStopsIff(cfg: RiskConfig, rd: RiskReads, pnl: real, capital: real)
    requires Result(pnl, cfg, rd) && (rd.balancesForLoss.Some? ==> Capital(capital, cfg, rd.balancesForLoss.value))
    ensures !LossOk(cfg, rd)
       <==> pnl < 0.0 && (rd.balancesForLoss.None?
                          || (capital > 0.0 && -pnl / capital * 100.0 > cfg.maxTotalLossPercent))
  {
    if cfg.pnlEpoch.Some? {
      BookedIsSum(rd.sinceEpoch.value, |rd.sinceEpoch.value|);
    }
    assert CumulativePnl(cfg, rd) == Some(Some(pnl));
    if capital > 0.0 {
      LossPercent(-pnl, capital, cfg.maxTotalLossPercent);
    }
  }

  /** Without a result nothing is held against a signal, but a result that cannot be read stops it. */
  lemma {:induction false} NoResult(cfg: RiskConfig, rd: RiskReads)
    ensures cfg.pnlEpoch.None? && rd.metrics == Some([]) ==> LossOk(cfg, rd)
    ensures cfg.pnlEpoch.None? && rd.metrics == None ==> !LossOk(cfg, rd)
    ensures cfg.pnlEpoch.Some? && rd.sinceEpoch == Some([]) ==> LossOk(cfg, rd)
    ensures cfg.pnlEpoch.Some? && rd.sinceEpoch == None ==> !LossOk(cfg, rd)
  {}
}
