/** What the equity curve of a backtest measures, and when the engine samples it and asks the strategy. */
module EquityLaws {
  import opened Options
  import opened Buckets
  import opened Portfolios
  import opened Simulators
  import opened Engines
  import opened EngineLaws

  // ---------------------------------------------------------------- one sample

  /** A sample shows the cash that selling the position at the price, without fee and slippage, would leave; and it
      changes nothing else. */
  lemma {:induction false} MarkIsLiquidation(a: Account, t: int, price: real, reason: ExitReason)
    ensures var b, n := Marked(a, t, price), |a.equity|;
            && |b.equity| == n + 1 && b.equity[..n] == a.equity
            && b.equity[n].timestamp == t && b.equity[n].cash == a.cash
            && (a.position.Some? ==> b.equity[n].equity == Closed(a, t, price, 0.0, 0.0, reason).cash)
            && (a.position.None? ==> b.equity[n].equity == a.cash)
            && b.cash == a.cash && b.position == a.position && b.trades == a.trades
  {
    if a.position.Some? {
      assert price * a.position.value.quantity == a.position.value.quantity * price;
    }
  }

  /** What an account is worth at a price: the starting balance, the net result of its closed trades, and the value of
      the open position less what it has cost. */
  function Worth(a: Account, initialCash: real, price: real): real {
    initialCash + NetPnl(a.trades) + match a.position
                                     case None => 0.0
                                     case Some(p) => p.quantity * price - p.notional - p.entryFee - p.entrySlip
  }

  /** The sample was taken of the account at the close of the bar. */
  predicate SampleOf(s: EquityPoint, a: Account, initialCash: real, bar: Bar) {
    s.timestamp == bar.timestamp && s.cash == a.cash && s.equity == Worth(a, initialCash, bar.close)
  }

  lemma {:induction false} MarkTellsWorth(a: Account, initialCash: real, bar: Bar)
    requires Balanced(a, initialCash)
    ensures var eq := Marked(a, bar.timestamp, bar.close).equity;
            |eq| == |a.equity| + 1 && eq[..|a.equity|] == a.equity && SampleOf(eq[|a.equity|], a, initialCash, bar)
  {}

  // ---------------------------------------------------------------- the samples of a run

  /** The arrival that takes sample j: every arrival with equityEvery 1, and otherwise those that complete a multiple
      of it. The first bar is only buffered. */
  function ArrivalOf(every: nat, j: nat): int {
    every * (if every == 1 then j + 2 else j + 1) - 1
  }

  /** Number of samples once k bars have arrived. */
  function SamplesAfter(every: nat, k: nat): int
    requires every > 0
  {
    k / every - if every == 1 && k > 0 then 1 else 0
  }

  lemma {:induction false} NextMultiple(every: nat, k: nat)
    requires every > 0 && k > 0
    ensures k / every == (k - 1) / every + if k % every == 0 then 1 else 0
    ensures k % every == 0 ==> k == every * (k / every)
  {
    var q, r := (k - 1) / every, (k - 1) % every;
    assert k - 1 == every * q + r;
    if r + 1 == every {
      assert k == every * (q + 1);
      QuotientIs(k, every, q + 1, 0);
    } else {
      QuotientIs(k, every, q, r + 1);
    }
  }

  lemma {:induction false} QuotientIs(x: int, d: int, q: int, r: int)
    requires d > 0 && x == d * q + r && 0 <= r < d
    ensures x / d == q && x % d == r
  {
    var e := x / d - q;
    assert x == d * (x / d) + x % d;
    assert d * e == r - x % d;
    assert e >= 1 ==> d * e >= d;
    assert e <= -1 ==> d * e <= -d;
  }

  /** Sample j of the curve was taken when bars[ArrivalOf(every, j)] arrived. */
  predicate SampleInPlace<S>(cfg: EngineConfig, strat: Strategy<S>, s0: S, bars: seq<Bar>, k: nat,
                             eq: seq<EquityPoint>, j: nat)
    requires k <= |bars| && Tradable(cfg, bars) && j < |eq|
  {
    var i := ArrivalOf(EquityEvery(cfg), j);
    && 1 <= i < k && Replay(cfg, strat, s0, bars, i).Some?
    && SampleOf(eq[j], Replay(cfg, strat, s0, bars, i).value.account, cfg.simulator.initialBalance, Evaluated(bars, i))
  }

  /** At every point of every run the curve has exactly the samples that equityEvery asks for, and each shows what the
      account was worth, before any exit, at the close of the bar under evaluation. */
  lemma {:induction false} CurveTellsWorth<S>(cfg: EngineConfig, strat: Strategy<S>, s0: S, bars: seq<Bar>, k: nat)
    requires k <= |bars| && Tradable(cfg, bars) && cfg.simulator.initialBalance > 0.0
    requires Replay(cfg, strat, s0, bars, k).Some?
    ensures var eq := Replay(cfg, strat, s0, bars, k).value.account.equity;
            && |eq| == SamplesAfter(EquityEvery(cfg), k)
            && forall j :: 0 <= j < |eq| ==> SampleInPlace(cfg, strat, s0, bars, k, eq, j)
  {
    if k <= 1 {
      FewSamples(EquityEvery(cfg), k);
    } else {
      ReplayStep(cfg, strat, s0, bars, k);
      CurveTellsWorth(cfg, strat, s0, bars, k - 1);
      ReplayKeepsOk(cfg, strat, s0, bars, k - 1);
      NextMultiple(EquityEvery(cfg), k);
      var st, next := Replay(cfg, strat, s0, bars, k - 1).value, Replay(cfg, strat, s0, bars, k).value;
      ArrivalSamples(cfg, strat, bars, k - 1, st);
      NextSample(cfg, strat, s0, bars, k - 1, k, st.account.equity, next.account.equity);
    }
  }

  /** With equityEvery 1 or unset, every bar but the first is sampled once. */
  lemma {:induction false} SampledEveryBar<S>(cfg: EngineConfig, strat: Strategy<S>, s0: S, bars: seq<Bar>, k: nat)
    requires 1 <= k <= |bars| && Tradable(cfg, bars) && cfg.simulator.initialBalance > 0.0 && cfg.equityEvery <= 1
    requires Replay(cfg, strat, s0, bars, k).Some?
    ensures |Replay(cfg, strat, s0, bars, k).value.account.equity| == k - 1
  {
    SampleCount(cfg, strat, s0, bars, k);
    assert EquityEvery(cfg) == 1;
  }

  lemma {:induction false} SampleCount<S>(cfg: EngineConfig, strat: Strategy<S>, s0: S, bars: seq<Bar>, k: nat)
    requires k <= |bars| && Tradable(cfg, bars) && cfg.simulator.initialBalance > 0.0
    requires Replay(cfg, strat, s0, bars, k).Some?
    ensures |Replay(cfg, strat, s0, bars, k).value.account.equity| == SamplesAfter(EquityEvery(cfg), k)
  {
    CurveTellsWorth(cfg, strat, s0, bars, k);
  }

  lemma {:induction false} FewSamples(every: nat, k: nat)
    requires every > 0 && k <= 1
    ensures SamplesAfter(every, k) == 0
  {
    if k == 1 && every > 1 {
      QuotientIs(1, every, 0, 1);
    } else if k == 0 {
      QuotientIs(0, every, 0, 0);
    }
  }

  lemma {:induction false} ArrivalSamples<S>(cfg: EngineConfig, strat: Strategy<S>, bars: seq<Bar>, i: nat,
                                             st: RunState<S>)
    requires 1 <= i < |bars| && Tradable(cfg, bars) && Arrival(cfg, strat, bars, i, st).Some?
    requires Balanced(st.account, cfg.simulator.initialBalance)
    ensures var a, eq := st.account, Arrival(cfg, strat, bars, i, st).value.account.equity;
            if (i + 1) % EquityEvery(cfg) == 0 then
              && |eq| == |a.equity| + 1 && eq[..|a.equity|] == a.equity
              && SampleOf(eq[|a.equity|], a, cfg.simulator.initialBalance, Evaluated(bars, i))
            else eq == a.equity
  {
    MarkTellsWorth(st.account, cfg.simulator.initialBalance, Evaluated(bars, i));
    var marked, exited := MarkedAt(cfg, bars, i, st.account), Exited(cfg, bars, i, st.account);
    assert exited.equity == marked.equity;
    if i + 1 > cfg.warmupBars {
      var (answer, s) := strat.generate(st.strategy, PointOf(Evaluated(bars, i)), HistoryAt(cfg, bars, i));
      if answer.Signal? {
        SignalKeepsCurve(exited, cfg.simulator, Evaluated(bars, i), bars[i], answer.action, strat, s);
      }
    }
  }

  lemma {:induction false} NextSample<S>(cfg: EngineConfig, strat: Strategy<S>, s0: S, bars: seq<Bar>, i: nat,
                                         k: nat, eq: seq<EquityPoint>, eq': seq<EquityPoint>)
    requires 1 <= i < k == i + 1 <= |bars| && Tradable(cfg, bars)
    requires Replay(cfg, strat, s0, bars, i).Some?
    requires |eq| == SamplesAfter(EquityEvery(cfg), i)
    requires forall j :: 0 <= j < |eq| ==> SampleInPlace(cfg, strat, s0, bars, i, eq, j)
    requires k / EquityEvery(cfg) == i / EquityEvery(cfg) + if k % EquityEvery(cfg) == 0 then 1 else 0
    requires k % EquityEvery(cfg) == 0 ==> k == EquityEvery(cfg) * (k / EquityEvery(cfg))
    requires if k % EquityEvery(cfg) == 0 then
               && |eq'| == |eq| + 1 && eq'[..|eq|] == eq
               && SampleOf(eq'[|eq|], Replay(cfg, strat, s0, bars, i).value.account,
                           cfg.simulator.initialBalance, Evaluated(bars, i))
             else eq' == eq
    ensures |eq'| == SamplesAfter(EquityEvery(cfg), k)
    ensures forall j :: 0 <= j < |eq'| ==> SampleInPlace(cfg, strat, s0, bars, k, eq', j)
  {
    var every := EquityEvery(cfg);
    forall j | 0 <= j < |eq'| ensures SampleInPlace(cfg, strat, s0, bars, k, eq', j) {
      if j < |eq| {
        assert SampleInPlace(cfg, strat, s0, bars, i, eq, j);
        assert eq'[j] == eq[j];
      } else {
        assert (if every == 1 then j + 2 else j + 1) == k / every;
        assert ArrivalOf(every, j) == i;
      }
    }
  }

  /** The end of every run: the last bar is sampled after its exits and again once the rest has been liquidated, and
      the last sample is the final cash. */
  lemma {:induction false} DrainSamples<S>(cfg: EngineConfig, strat: Strategy<S>, s0: S, bars: seq<Bar>)
    requires bars != [] && Tradable(cfg, bars) && cfg.simulator.initialBalance > 0.0
    requires Replay(cfg, strat, s0, bars, |bars|).Some?
    ensures var a, last := Replay(cfg, strat, s0, bars, |bars|).value.account, bars[|bars|-1];
            var exited, eq := AfterExit(a, cfg.simulator, last), Drained(cfg, a, bars).equity;
            var n := |a.equity|;
            && |eq| == n + (if exited.position.Some? then 2 else 1) && eq[..n] == a.equity
            && SampleOf(eq[n], exited, cfg.simulator.initialBalance, last)
            && eq[|eq|-1].equity == Drained(cfg, a, bars).cash && eq[|eq|-1].timestamp == last.timestamp
  {
    var a, last := Replay(cfg, strat, s0, bars, |bars|).value.account, bars[|bars|-1];
    ReplayKeepsOk(cfg, strat, s0, bars, |bars|);
    ExitKeepsOk(a, cfg.simulator, last, SaneRun(cfg, bars));
    MarkTellsWorth(AfterExit(a, cfg.simulator, last), cfg.simulator.initialBalance, last);
  }

  // ---------------------------------------------------------------- what the strategy is asked, and how often

  /** The history shown when bars[i] arrives: the latest bars evaluated, oldest first, up to the one under evaluation,
      each with its close as price. */
  lemma {:induction false} HistoryShown(cfg: EngineConfig, bars: seq<Bar>, i: nat, j: nat)
    requires 1 <= i < |bars| && j < |HistoryAt(cfg, bars, i)|
    ensures var h := HistoryAt(cfg, bars, i);
            var at := i - |h| + j;
            var limit := if cfg.historyLimit > 0 then cfg.historyLimit else 1000;
            && |h| == (if i < limit then i else limit)
            && 0 <= at < i
            && var bar := if at == 0 then ZERO_BAR else bars[at-1];
               h[j] == Point(bar.symbol, bar.timestamp, bar.close, bar.volume, bar.open, bar.high, bar.low, bar.close)
  {
    var seen := EvaluatedUpTo(bars, i);
    assert |seen| == i;
    PointsAt(seen, i - |HistoryAt(cfg, bars, i)| + j);
  }

  lemma {:induction false} PointsAt(bars: seq<Bar>, i: nat)
    requires i < |bars|
    ensures Points(bars)[i] == PointOf(bars[i])
    decreases |bars|
  {
    if i < |bars| - 1 {
      PointsAt(bars[..|bars|-1], i);
    }
  }

  /** calls counts the questions a strategy has been asked, and recording a trade is none. */
  ghost predicate Counts<S(!new)>(strat: Strategy<S>, calls: S -> nat) {
    && (forall s, point, history :: calls(strat.generate(s, point, history).1) == calls(s) + 1)
    && (forall s :: calls(strat.recordTrade(s)) == calls(s))
  }

  /** The strategy is asked once per arrival from the warm-up on, and never about the first bar alone. */
  lemma {:induction false} AskedOncePerArrival<S(!new)>(cfg: EngineConfig, strat: Strategy<S>, s0: S, bars: seq<Bar>,
                                                       k: nat, calls: S -> nat)
    requires k <= |bars| && Tradable(cfg, bars) && Counts(strat, calls)
    requires Replay(cfg, strat, s0, bars, k).Some?
    ensures var silent := if cfg.warmupBars > 1 then cfg.warmupBars else 1;
            calls(Replay(cfg, strat, s0, bars, k).value.strategy) == calls(s0) + if k > silent then k - silent else 0
  {
    if k <= 1 {
    } else {
      ReplayStep(cfg, strat, s0, bars, k);
      AskedOncePerArrival(cfg, strat, s0, bars, k - 1, calls);
      AskedNext(cfg, strat, bars, k - 1, Replay(cfg, strat, s0, bars, k - 1).value, calls);
    }
  }

  lemma {:induction false} AskedNext<S(!new)>(cfg: EngineConfig, strat: Strategy<S>, bars: seq<Bar>, i: nat,
                                             st: RunState<S>, calls: S -> nat)
    requires 1 <= i < |bars| && Tradable(cfg, bars) && Counts(strat, calls) && Arrival(cfg, strat, bars, i, st).Some?
    ensures calls(Arrival(cfg, strat, bars, i, st).value.strategy)
         == calls(st.strategy) + if i + 1 > cfg.warmupBars then 1 else 0
  {
    if i + 1 > cfg.warmupBars {
      var (answer, s) := strat.generate(st.strategy, PointOf(Evaluated(bars, i)), HistoryAt(cfg, bars, i));
      assert calls(s) == calls(st.strategy) + 1;
      assert calls(strat.recordTrade(s)) == calls(s);
    }
  }
}
