/** When the trades of a backtest open and close, and which of them close before they open. */
module TradeSchedule {
  import opened Options
  import opened Buckets
  import opened Portfolios
  import opened Signals
  import opened Simulators
  import opened Engines

  // ---------------------------------------------------------------- when trades open and close

  /** Bought when bars[e] arrived, once the warm-up was over: at its open plus slippage, on the answer about the bar
      two before it. */
  predicate BoughtAt(symbol: string, time: int, price: real, cfg: EngineConfig, bars: seq<Bar>, e: nat)
    requires 1 <= e < |bars|
  {
    && e + 1 > cfg.warmupBars && time == bars[e].timestamp && symbol == (if e == 1 then "" else bars[e-2].symbol)
    && price == EntryPrice(cfg.simulator, bars[e])
  }

  /** Slippage costs its basis points of the open on the way in and on the way out. */
  lemma {:induction false} SlippageBothWays(cfg: SimulatorConfig, bar: Bar)
    ensures EntryPrice(cfg, bar) - bar.open == bar.open * (cfg.slippageBps / 10000.0)
    ensures bar.open - SellPrice(cfg, bar) == bar.open * (cfg.slippageBps / 10000.0)
  {
    AroundOpen(bar.open, cfg.slippageBps / 10000.0);
  }

  lemma {:induction false} AroundOpen(open: real, slip: real)
    ensures open * (1.0 + slip) - open == open * slip
    ensures open - open * (1.0 - slip) == open * slip
  {}

  /** The open position was bought at the open of bars[e], where e is told by how long it has been held. */
  predicate PositionScheduled(p: Position, cfg: EngineConfig, bars: seq<Bar>, k: nat)
    requires k <= |bars| && Tradable(cfg, bars)
  {
    var e := k - 1 - p.barsHeld;
    1 <= e < k && BoughtAt(p.symbol, p.entryTime, p.entryPrice, cfg, bars, e)
  }

  /** The bar reaches the price of a target or a stop. */
  predicate Reaches(bar: Bar, reason: ExitReason, price: real) {
    (reason == StopLoss ==> bar.low <= price) && (reason == TakeProfit ==> bar.high >= price)
  }

  /** A trade opened at the open of bars[e] and closed when bars[e + holdBars] arrived. */
  predicate TradeScheduledAt(t: Trade, cfg: EngineConfig, bars: seq<Bar>, e: nat)
    requires Tradable(cfg, bars)
  {
    var x := e + t.holdBars;
    && 1 <= e < x < |bars|
    && BoughtAt(t.symbol, t.entryTime, t.entryPrice, cfg, bars, e)
    && match t.reason
       case BySignal => t.exitTime == bars[x].timestamp && t.exitPrice == SellPrice(cfg.simulator, bars[x])
       case EndOfData => false
       case _ => t.exitTime == bars[x-2].timestamp && Reaches(bars[x-2], t.reason, t.exitPrice)
  }

  predicate TradeScheduled(t: Trade, cfg: EngineConfig, bars: seq<Bar>, k: nat)
    requires k <= |bars| && Tradable(cfg, bars)
  {
    exists e :: 0 <= e < k && TradeScheduledAt(t, cfg, bars, e)
  }

  predicate Scheduled(a: Account, cfg: EngineConfig, bars: seq<Bar>, k: nat)
    requires k <= |bars| && Tradable(cfg, bars)
  {
    && (a.position.Some? ==> PositionScheduled(a.position.value, cfg, bars, k))
    && forall j :: 0 <= j < |a.trades| ==> TradeScheduled(a.trades[j], cfg, bars, k)
  }

  lemma {:induction false} SaleScheduled(a: Account, cfg: EngineConfig, bars: seq<Bar>, k: nat, t: int, price: real,
                                         reason: ExitReason)
    requires 2 <= k <= |bars| && Tradable(cfg, bars) && Scheduled(a, cfg, bars, k) && a.position.Some?
    requires a.position.value.barsHeld >= 1
    requires match reason
             case BySignal => t == bars[k-1].timestamp && price == SellPrice(cfg.simulator, bars[k-1])
             case EndOfData => false
             case _ => k >= 3 && t == bars[k-3].timestamp && Reaches(bars[k-3], reason, price)
    ensures Scheduled(Sold(a, cfg.simulator, t, price, reason), cfg, bars, k)
  {
    var b := Sold(a, cfg.simulator, t, price, reason);
    var n := |a.trades|;
    assert TradeScheduledAt(b.trades[n], cfg, bars, k - 1 - a.position.value.barsHeld);
    forall j | 0 <= j < |b.trades| ensures TradeScheduled(b.trades[j], cfg, bars, k) {
      assert j < n ==> b.trades[j] == a.trades[j];
    }
  }

  lemma {:induction false} ArrivalScheduled<S>(cfg: EngineConfig, strat: Strategy<S>, bars: seq<Bar>, i: nat,
                                               st: RunState<S>, k: nat)
    requires 1 <= i < |bars| && k == i + 1 && Tradable(cfg, bars) && Scheduled(st.account, cfg, bars, i)
    ensures var next := Arrival(cfg, strat, bars, i, st);
            next.Some? ==> Scheduled(next.value.account, cfg, bars, k)
  {
    var bar := Evaluated(bars, i);
    var marked, exited := MarkedAt(cfg, bars, i, st.account), Exited(cfg, bars, i, st.account);
    assert Scheduled(marked, cfg, bars, i);
    ExitScheduled(marked, cfg, bars, i);
    if i + 1 > cfg.warmupBars {
      var (answer, s) := strat.generate(st.strategy, PointOf(bar), HistoryAt(cfg, bars, i));
      if answer == Signal(Sell) && exited.position.Some? {
        SaleScheduled(exited, cfg, bars, i + 1, bars[i].timestamp, SellPrice(cfg.simulator, bars[i]), BySignal);
      }
    }
  }

  lemma {:induction false} ExitScheduled(a: Account, cfg: EngineConfig, bars: seq<Bar>, i: nat)
    requires 1 <= i < |bars| && Tradable(cfg, bars) && Scheduled(a, cfg, bars, i)
    ensures var b := AfterExit(a, cfg.simulator, Evaluated(bars, i));
            Scheduled(b, cfg, bars, i + 1) && (b.position.Some? ==> b.position.value.barsHeld >= 1)
  {
    forall j | 0 <= j < |a.trades| ensures TradeScheduled(a.trades[j], cfg, bars, i + 1) {
      assert TradeScheduled(a.trades[j], cfg, bars, i);
    }
    if a.position.Some? {
      var pos := a.position.value.(barsHeld := a.position.value.barsHeld + 1);
      var held := a.(position := Some(pos));
      assert Scheduled(held, cfg, bars, i + 1);
      var exit := ExitOf(pos, Evaluated(bars, i), cfg.simulator.sameBarRule);
      if exit.Some? {
        SaleScheduled(held, cfg, bars, i + 1, Evaluated(bars, i).timestamp, exit.value.0, exit.value.1);
      }
    }
  }

  lemma {:induction false} ReplayScheduled<S>(cfg: EngineConfig, strat: Strategy<S>, s0: S, bars: seq<Bar>, k: nat)
    requires k <= |bars| && Tradable(cfg, bars)
    ensures var st := Replay(cfg, strat, s0, bars, k);
            st.Some? ==> Scheduled(st.value.account, cfg, bars, k)
  {
    if k <= 1 {
    } else {
      ReplayScheduled(cfg, strat, s0, bars, k - 1);
      var prev := Replay(cfg, strat, s0, bars, k - 1);
      ReplayStep(cfg, strat, s0, bars, k);
      if prev.Some? {
        ArrivalScheduled(cfg, strat, bars, k - 1, prev.value, k);
      }
    }
  }

  /** A trade opened at the open of bars[e] and closed by the final drain. */
  predicate TradeDrainedAt(t: Trade, cfg: EngineConfig, bars: seq<Bar>, e: nat) {
    && 1 <= e < |bars| && e + t.holdBars == |bars| && t.reason != BySignal
    && BoughtAt(t.symbol, t.entryTime, t.entryPrice, cfg, bars, e)
    && t.exitTime == bars[|bars|-1].timestamp && Reaches(bars[|bars|-1], t.reason, t.exitPrice)
    && (t.reason == EndOfData ==> t.exitPrice == bars[|bars|-1].close)
  }

  /** A trade of a finished run: closed when bars[e + holdBars] arrived, or by the drain if that is past the end. */
  predicate OnSchedule(t: Trade, cfg: EngineConfig, bars: seq<Bar>)
    requires Tradable(cfg, bars)
  {
    TradeScheduled(t, cfg, bars, |bars|) || exists e :: 0 <= e < |bars| && TradeDrainedAt(t, cfg, bars, e)
  }

  /** The schedule of every trade of every run in closed form: bought at the open of bars[e]; sold by a signal at
      the open of bars[e + holdBars], by a target or stop tested on the bar two before that, or, when e + holdBars is
      past the end, by a target, a stop or the liquidation on the last bar. */
  lemma {:induction false} TradesFollowSchedule<S>(cfg: EngineConfig, strat: Strategy<S>, s0: S, bars: seq<Bar>)
    requires Tradable(cfg, bars) && Replay(cfg, strat, s0, bars, |bars|).Some?
    ensures var ts := Drained(cfg, Replay(cfg, strat, s0, bars, |bars|).value.account, bars).trades;
            forall j :: 0 <= j < |ts| ==> OnSchedule(ts[j], cfg, bars)
  {
    ReplayScheduled(cfg, strat, s0, bars, |bars|);
    var a := Replay(cfg, strat, s0, bars, |bars|).value.account;
    var ts := Drained(cfg, a, bars).trades;
    DrainAddsOne(cfg, a, bars);
    forall j | 0 <= j < |ts| ensures OnSchedule(ts[j], cfg, bars) {
      if j < |a.trades| {
        assert ts[j] == a.trades[j];
        assert TradeScheduled(a.trades[j], cfg, bars, |bars|);
      } else {
        assert TradeDrainedAt(ts[j], cfg, bars, |bars| - 1 - a.position.value.barsHeld);
      }
    }
  }

  /** The drain closes the position that is left, and nothing else. */
  lemma {:induction false} DrainAddsOne(cfg: EngineConfig, a: Account, bars: seq<Bar>)
    requires Tradable(cfg, bars) && Scheduled(a, cfg, bars, |bars|)
    ensures var ts := Drained(cfg, a, bars).trades;
            if a.position.None? then ts == a.trades
            else
              && ts != [] && ts[..|ts|-1] == a.trades
              && TradeDrainedAt(ts[|ts|-1], cfg, bars, |bars| - 1 - a.position.value.barsHeld)
  {}

  /** Over bars in time order every trade of a finished run opens and closes between the reported start and end; the
      report counts all bars and carries the symbol of the first. */
  lemma {:induction false} TradesWithinRun<S>(cfg: EngineConfig, strat: Strategy<S>, s0: S, bars: seq<Bar>, j: nat)
    requires Tradable(cfg, bars) && Increasing(bars) && Replay(cfg, strat, s0, bars, |bars|).Some?
    requires j < |ReportOf(cfg, bars, Replay(cfg, strat, s0, bars, |bars|).value.account).account.trades|
    ensures var r := ReportOf(cfg, bars, Replay(cfg, strat, s0, bars, |bars|).value.account);
            var t := r.account.trades[j];
            && r.startTime <= t.entryTime <= r.endTime && r.startTime <= t.exitTime <= r.endTime
            && bars != [] && r.symbol == bars[0].symbol && r.bars == |bars|
  {
    TradesFollowSchedule(cfg, strat, s0, bars);
    WithinRun(cfg, bars, Drained(cfg, Replay(cfg, strat, s0, bars, |bars|).value.account, bars).trades[j]);
  }

  lemma {:induction false} WithinRun(cfg: EngineConfig, bars: seq<Bar>, t: Trade)
    requires Tradable(cfg, bars) && Increasing(bars) && OnSchedule(t, cfg, bars)
    ensures var (symbol, start, end) := Header(bars, |bars|);
            start <= t.entryTime <= end && start <= t.exitTime <= end
  {
    if TradeScheduled(t, cfg, bars, |bars|) {
      var e :| 0 <= e < |bars| && TradeScheduledAt(t, cfg, bars, e);
      FromTo(bars, e);
      FromTo(bars, e + t.holdBars);
      FromTo(bars, if t.reason == BySignal then 0 else e + t.holdBars - 2);
    } else {
      var e :| 0 <= e < |bars| && TradeDrainedAt(t, cfg, bars, e);
      FromTo(bars, e);
      FromTo(bars, |bars| - 1);
    }
  }

  lemma {:induction false} FromTo(bars: seq<Bar>, i: nat)
    requires Increasing(bars) && i < |bars|
    ensures bars[0].timestamp <= bars[i].timestamp <= bars[|bars|-1].timestamp
  {}

  // ---------------------------------------------------------------- trades closed before they were opened

  predicate Increasing(bars: seq<Bar>) {
    forall i, j :: 0 <= i < j < |bars| ==> bars[i].timestamp < bars[j].timestamp
  }

  predicate Backwards(t: Trade) {
    t.exitTime < t.entryTime
  }

  predicate HasBackwards(ts: seq<Trade>) {
    exists j :: 0 <= j < |ts| && Backwards(ts[j])
  }

  /** The arrival of bars[e] buys, and the bar before bars[e] already reaches the target or stop of that position. */
  predicate ReachedBeforeEntry<S>(cfg: EngineConfig, strat: Strategy<S>, s0: S, bars: seq<Bar>, e: nat)
    requires 1 <= e < |bars| && Tradable(cfg, bars)
  {
    var st := Replay(cfg, strat, s0, bars, e + 1);
    && st.Some? && st.value.account.position.Some?
    && var pos := st.value.account.position.value;
       pos.barsHeld == 0 && ExitOf(pos, bars[e-1], cfg.simulator.sameBarRule).Some?
  }

  /** The trades after one more arrival: at most one is closed, by the exit that the evaluated bar triggers or else by
      a signal. */
  predicate AddsOne(a: Account, b: seq<Trade>, exits: bool, exitTime: int, signalTime: int) {
    && (exits ==> a.position.Some? && |b| > |a.trades|)
    && |a.trades| <= |b| <= |a.trades| + 1 && b[..|a.trades|] == a.trades
    && (|b| > |a.trades| ==>
          && a.position.Some? && b[|a.trades|].entryTime == a.position.value.entryTime
          && b[|a.trades|].exitTime == if exits then exitTime else signalTime)
  }

  predicate Exits(a: Account, cfg: SimulatorConfig, bar: Bar) {
    a.position.Some? && ExitOf(a.position.value, bar, cfg.sameBarRule).Some?
  }

  lemma {:induction false} ArrivalAddsOne<S>(cfg: EngineConfig, strat: Strategy<S>, bars: seq<Bar>, i: nat,
                                             st: RunState<S>)
    requires 1 <= i < |bars| && Tradable(cfg, bars) && Arrival(cfg, strat, bars, i, st).Some?
    ensures var b, bar := Arrival(cfg, strat, bars, i, st).value.account, Evaluated(bars, i);
            AddsOne(st.account, b.trades, Exits(st.account, cfg.simulator, bar), bar.timestamp, bars[i].timestamp)
  {
    var a := st.account;
    var marked, exited := MarkedAt(cfg, bars, i, a), Exited(cfg, bars, i, a);
    assert marked.trades == a.trades && marked.position == a.position;
    ExitAddsOne(marked, cfg.simulator, Evaluated(bars, i));
    if i + 1 > cfg.warmupBars {
      var (answer, s) := strat.generate(st.strategy, PointOf(Evaluated(bars, i)), HistoryAt(cfg, bars, i));
      if answer.Signal? {
        SignalAddsOne(exited, cfg.simulator, Evaluated(bars, i), bars[i], answer.action, strat, s);
      }
    }
  }

  lemma {:induction false} ExitAddsOne(a: Account, cfg: SimulatorConfig, bar: Bar)
    ensures var b := AfterExit(a, cfg, bar);
            if Exits(a, cfg, bar) then
              && |b.trades| == |a.trades| + 1 && b.trades[..|a.trades|] == a.trades && b.position.None?
              && b.trades[|a.trades|].entryTime == a.position.value.entryTime
              && b.trades[|a.trades|].exitTime == bar.timestamp
            else
              && b.trades == a.trades && (b.position.Some? <==> a.position.Some?)
              && (b.position.Some? ==> b.position.value.entryTime == a.position.value.entryTime)
  {}

  lemma {:induction false} SignalAddsOne<S>(a: Account, cfg: SimulatorConfig, bar: Bar, next: Bar, action: Action,
                                            strat: Strategy<S>, s: S)
    requires Fillable(cfg, next)
    ensures var b := AfterSignal(a, cfg, bar, next, action, strat, s).0;
            if action == Sell && a.position.Some? then
              && |b.trades| == |a.trades| + 1 && b.trades[..|a.trades|] == a.trades
              && b.trades[|a.trades|].entryTime == a.position.value.entryTime
              && b.trades[|a.trades|].exitTime == next.timestamp
            else b.trades == a.trades
  {}

  /** The arrival of bars[k-1] closes a trade at a time before its entry exactly when the position was bought at the
      open of bars[k-2] and bars[k-3], the bar before its entry bar, reaches its target or stop. */
  lemma {:induction false} ClosedByNextArrival<S>(cfg: EngineConfig, strat: Strategy<S>, s0: S, bars: seq<Bar>, k: nat)
    requires Tradable(cfg, bars) && Increasing(bars) && 3 <= k <= |bars|
    requires Replay(cfg, strat, s0, bars, k).Some?
    ensures Replay(cfg, strat, s0, bars, k - 1).Some?
    ensures var a := Replay(cfg, strat, s0, bars, k - 1).value.account.trades;
            var b := Replay(cfg, strat, s0, bars, k).value.account.trades;
            && |a| <= |b| <= |a| + 1 && b[..|a|] == a
            && (ReachedBeforeEntry(cfg, strat, s0, bars, k - 2) <==> |b| > |a| && Backwards(b[|a|]))
            && (ReachedBeforeEntry(cfg, strat, s0, bars, k - 2) ==>
                  b[|a|].exitTime == bars[k-3].timestamp && b[|a|].entryTime == bars[k-2].timestamp)
  {
    ReplayStep(cfg, strat, s0, bars, k);
    var st, next := Replay(cfg, strat, s0, bars, k - 1).value, Replay(cfg, strat, s0, bars, k).value;
    ArrivalAddsOne(cfg, strat, bars, k - 1, st);
    ReplayScheduled(cfg, strat, s0, bars, k - 1);
    BackwardsAfter(st.account, next.account.trades, cfg, bars, k - 2);
  }

  lemma {:induction false} BackwardsAfter(a: Account, b: seq<Trade>, cfg: EngineConfig, bars: seq<Bar>, e: nat)
    requires 1 <= e < |bars| - 1 && Tradable(cfg, bars) && Increasing(bars) && Scheduled(a, cfg, bars, e + 1)
    requires AddsOne(a, b, Exits(a, cfg.simulator, bars[e-1]), bars[e-1].timestamp, bars[e+1].timestamp)
    ensures Exits(a, cfg.simulator, bars[e-1]) && a.position.value.barsHeld == 0
       <==> |b| > |a.trades| && Backwards(b[|a.trades|])
    ensures |b| > |a.trades| && Backwards(b[|a.trades|]) ==>
      b[|a.trades|].exitTime == bars[e-1].timestamp && b[|a.trades|].entryTime == bars[e].timestamp
  {
    if |b| > |a.trades| {
      assert PositionScheduled(a.position.value, cfg, bars, e + 1);
      var n := e - a.position.value.barsHeld;
      assert b[|a.trades|].entryTime == bars[n].timestamp;
    }
  }

  /** Some position bought by one of the first n arrivals but the last had its exit reached before its entry. */
  predicate ReachedBefore<S>(cfg: EngineConfig, strat: Strategy<S>, s0: S, bars: seq<Bar>, n: nat)
    requires n <= |bars| && Tradable(cfg, bars)
  {
    exists e :: 1 <= e < n - 1 && ReachedBeforeEntry(cfg, strat, s0, bars, e)
  }

  lemma {:induction false} ReplayBackwards<S>(cfg: EngineConfig, strat: Strategy<S>, s0: S, bars: seq<Bar>, k: nat)
    requires Tradable(cfg, bars) && Increasing(bars) && k <= |bars|
    requires Replay(cfg, strat, s0, bars, k).Some?
    ensures HasBackwards(Replay(cfg, strat, s0, bars, k).value.account.trades)
       <==> ReachedBefore(cfg, strat, s0, bars, k)
    decreases k
  {
    if k <= 2 {
      FirstArrival(cfg, strat, s0, bars, k);
    } else {
      BackwardsStep(cfg, strat, s0, bars, k);
      ReplayBackwards(cfg, strat, s0, bars, k - 1);
      ReachedStep(cfg, strat, s0, bars, k);
    }
  }

  lemma {:induction false} BackwardsStep<S>(cfg: EngineConfig, strat: Strategy<S>, s0: S, bars: seq<Bar>, k: nat)
    requires Tradable(cfg, bars) && Increasing(bars) && 3 <= k <= |bars|
    requires Replay(cfg, strat, s0, bars, k).Some?
    ensures Replay(cfg, strat, s0, bars, k - 1).Some?
    ensures HasBackwards(Replay(cfg, strat, s0, bars, k).value.account.trades)
       <==> HasBackwards(Replay(cfg, strat, s0, bars, k - 1).value.account.trades)
            || ReachedBeforeEntry(cfg, strat, s0, bars, k - 2)
  {
    ClosedByNextArrival(cfg, strat, s0, bars, k);
    OneMore(Replay(cfg, strat, s0, bars, k - 1).value.account.trades,
            Replay(cfg, strat, s0, bars, k).value.account.trades);
  }

  lemma {:induction false} ReachedStep<S>(cfg: EngineConfig, strat: Strategy<S>, s0: S, bars: seq<Bar>, k: nat)
    requires Tradable(cfg, bars) && 3 <= k <= |bars|
    ensures ReachedBefore(cfg, strat, s0, bars, k)
       <==> ReachedBefore(cfg, strat, s0, bars, k - 1) || ReachedBeforeEntry(cfg, strat, s0, bars, k - 2)
  {}

  lemma {:induction false} OneMore(a: seq<Trade>, b: seq<Trade>)
    requires |a| <= |b| <= |a| + 1 && b[..|a|] == a
    ensures HasBackwards(b) <==> HasBackwards(a) || (|b| > |a| && Backwards(b[|a|]))
  {
    if HasBackwards(a) {
      var j :| 0 <= j < |a| && Backwards(a[j]);
      assert Backwards(b[j]);
    }
    if HasBackwards(b) {
      var j :| 0 <= j < |b| && Backwards(b[j]);
      assert j < |a| ==> a[j] == b[j];
    }
  }

  /** The first arrival finds no position to close. */
  lemma {:induction false} FirstArrival<S>(cfg: EngineConfig, strat: Strategy<S>, s0: S, bars: seq<Bar>, k: nat)
    requires Tradable(cfg, bars) && k <= 2 && k <= |bars| && Replay(cfg, strat, s0, bars, k).Some?
    ensures Replay(cfg, strat, s0, bars, k).value.account.trades == []
  {
    if k == 2 {
      ReplayStep(cfg, strat, s0, bars, 2);
      ArrivalAddsOne(cfg, strat, bars, 1, Replay(cfg, strat, s0, bars, 1).value);
    }
  }

  /** A finished run over strictly increasing timestamps has a trade that closes before it opens exactly when, for
      some position, the bar before its entry bar reaches its target or stop. */
  lemma {:induction false} ClosedBeforeOpened<S>(cfg: EngineConfig, strat: Strategy<S>, s0: S, bars: seq<Bar>)
    requires Tradable(cfg, bars) && Increasing(bars) && Replay(cfg, strat, s0, bars, |bars|).Some?
    ensures HasBackwards(Drained(cfg, Replay(cfg, strat, s0, bars, |bars|).value.account, bars).trades)
       <==> ReachedBefore(cfg, strat, s0, bars, |bars|)
  {
    ReplayBackwards(cfg, strat, s0, bars, |bars|);
    ReplayScheduled(cfg, strat, s0, bars, |bars|);
    DrainBackwards(cfg, Replay(cfg, strat, s0, bars, |bars|).value.account, bars);
  }

  /** What the drain closes was opened no later than the last bar. */
  lemma {:induction false} DrainBackwards(cfg: EngineConfig, a: Account, bars: seq<Bar>)
    requires Tradable(cfg, bars) && Increasing(bars) && Scheduled(a, cfg, bars, |bars|)
    ensures HasBackwards(Drained(cfg, a, bars).trades) <==> HasBackwards(a.trades)
  {
    DrainAddsOne(cfg, a, bars);
    if a.position.Some? {
      OneMore(a.trades, Drained(cfg, a, bars).trades);
    }
  }

  // ---------------------------------------------------------------- such a trade exists

  /** Always buys, with a fixed stop and no target. */
  function AlwaysBuy(notional: real, stop: real): Strategy<int> {
    Strategy((s, point, history) => (Signal(Buy), s), s => s, (s, symbol) => notional, (s, entry) => 0.0,
             (s, entry) => stop)
  }

  /** A low at or below the stop in the bar before the first entry closes the position before it was opened. */
  lemma {:induction false} DipBeforeEntry(cfg: EngineConfig, bars: seq<Bar>, notional: real, stop: real)
    requires Tradable(cfg, bars) && Increasing(bars) && |bars| >= 3 && cfg.warmupBars <= 1
    requires BuyFills(NewAccount(cfg.simulator.initialBalance), cfg.simulator, bars[1], notional)
    requires stop > 0.0 && bars[0].low <= stop
    ensures var end := Replay(cfg, AlwaysBuy(notional, stop), 0, bars, |bars|);
            end.Some? && HasBackwards(Drained(cfg, end.value.account, bars).trades)
  {
    NeverFails(cfg, bars, notional, stop, |bars|);
    FirstEntry(cfg, bars, notional, stop);
    assert ReachedBeforeEntry(cfg, AlwaysBuy(notional, stop), 0, bars, 1);
    ClosedBeforeOpened(cfg, AlwaysBuy(notional, stop), 0, bars);
  }

  lemma {:induction false} NeverFails(cfg: EngineConfig, bars: seq<Bar>, notional: real, stop: real, k: nat)
    requires Tradable(cfg, bars) && k <= |bars|
    ensures Replay(cfg, AlwaysBuy(notional, stop), 0, bars, k).Some?
  {
    if k <= 1 {
    } else {
      NeverFails(cfg, bars, notional, stop, k - 1);
    }
  }

  /** The first order fills at the open of the second bar. */
  lemma {:induction false} FirstEntry(cfg: EngineConfig, bars: seq<Bar>, notional: real, stop: real)
    requires Tradable(cfg, bars) && |bars| >= 2 && cfg.warmupBars <= 1
    requires BuyFills(NewAccount(cfg.simulator.initialBalance), cfg.simulator, bars[1], notional)
    ensures var st := Replay(cfg, AlwaysBuy(notional, stop), 0, bars, 2);
            && st.Some? && st.value.account.position.Some?
            && var pos := st.value.account.position.value;
               pos.barsHeld == 0 && pos.tpPrice == 0.0 && pos.slPrice == stop
  {
    var strat := AlwaysBuy(notional, stop);
    var st := RunState(NewAccount(cfg.simulator.initialBalance), 0);
    assert Replay(cfg, strat, 0, bars, 1) == Some(st);
    ReplayStep(cfg, strat, 0, bars, 2);
    var exited := Exited(cfg, bars, 1, st.account);
    assert exited.position == None && exited.cash == st.account.cash;
    assert BuyFills(exited, cfg.simulator, bars[1], notional);
  }

  const PLAIN := EngineConfig(SimulatorConfig(1000.0, 0.0, 0.0, SlPriority, 0.0), 0, 0, 0)

  /** The low of 90 comes before the entry at the open of the second bar. */
  const EARLY_DIP := [Bar("X", 0, 100.0, 100.0, 90.0, 100.0, 1.0), Bar("X", 60, 100.0, 100.0, 100.0, 100.0, 1.0),
                      Bar("X", 120, 100.0, 100.0, 100.0, 100.0, 1.0)]

  lemma {:induction false} EarlyDipClosesBeforeOpened()
    ensures Tradable(PLAIN, EARLY_DIP) && Increasing(EARLY_DIP)
    ensures var end := Replay(PLAIN, AlwaysBuy(100.0, 95.0), 0, EARLY_DIP, |EARLY_DIP|);
            end.Some? && HasBackwards(Drained(PLAIN, end.value.account, EARLY_DIP).trades)
  {
    DipBeforeEntry(PLAIN, EARLY_DIP, 100.0, 95.0);
  }
}
