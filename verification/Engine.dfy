/** The backtest run: which bar is evaluated when, and what every run keeps. */
module Engines {
  import opened Options
  import opened History
  import opened Buckets
  import opened Resampler
  import opened Portfolios
  import opened Simulators

  /** time.Time{} in Unix nanoseconds. */
  const ZERO_TIME := -62_135_596_800_000_000_000

  const ZERO_BAR := Bar("", ZERO_TIME, 0.0, 0.0, 0.0, 0.0, 0.0)

  const HISTORY_LIMIT := 1000

  datatype EngineConfig = EngineConfig(
    simulator: SimulatorConfig,
    historyLimit: int,
    warmupBars: int,
    equityEvery: int)

  function HistLimit(cfg: EngineConfig): (n: nat)
    ensures n > 0
  {
    if cfg.historyLimit <= 0 then HISTORY_LIMIT else cfg.historyLimit
  }

  function EquityEvery(cfg: EngineConfig): (n: nat)
    ensures n > 0
  {
    if cfg.equityEvery <= 0 then 1 else cfg.equityEvery
  }

  function PointOf(b: Bar): Point {
    Point(b.symbol, b.timestamp, b.close, b.volume, b.open, b.high, b.low, b.close)
  }

  function Points(bars: seq<Bar>): (r: seq<Point>)
    ensures |r| == |bars|
  {
    if bars == [] then [] else Points(bars[..|bars|-1]) + [PointOf(bars[|bars|-1])]
  }

  /** The bar evaluated when bars[i] arrives, for i >= 1: two bars back, and a zero bar the first time. */
  function Evaluated(bars: seq<Bar>, i: nat): Bar
    requires 1 <= i < |bars|
  {
    if i == 1 then ZERO_BAR else bars[i-2]
  }

  /** Every bar evaluated up to and including the arrival of bars[i]. */
  function EvaluatedUpTo(bars: seq<Bar>, i: nat): seq<Bar>
    requires 1 <= i < |bars|
  {
    [ZERO_BAR] + bars[..i-1]
  }

  /** The history a strategy is shown when bars[i] arrives. */
  function HistoryAt(cfg: EngineConfig, bars: seq<Bar>, i: nat): seq<Point>
    requires 1 <= i < |bars|
  {
    LastN(Points(EvaluatedUpTo(bars, i)), HistLimit(cfg))
  }

  datatype RunState<S> = RunState(account: Account, strategy: S)

  /** Every bar that an order can fill at gives an entry price to divide by. */
  predicate Tradable(cfg: EngineConfig, bars: seq<Bar>) {
    forall i {:trigger Fillable(cfg.simulator, bars[i])} :: 1 <= i < |bars| ==> Fillable(cfg.simulator, bars[i])
  }

  /** The arrival of bars[i]: mark, exit, evaluate, trade. */
  function Arrival<S>(cfg: EngineConfig, strat: Strategy<S>, bars: seq<Bar>, i: nat, st: RunState<S>)
    : Option<RunState<S>>
    requires 1 <= i < |bars| && Tradable(cfg, bars)
  {
    var exited := Exited(cfg, bars, i, st.account);
    if i + 1 <= cfg.warmupBars then Some(RunState(exited, st.strategy))
    else Asked(cfg, strat, Evaluated(bars, i), bars[i], HistoryAt(cfg, bars, i), RunState(exited, st.strategy))
  }

  function MarkedAt(cfg: EngineConfig, bars: seq<Bar>, i: nat, a: Account): Account
    requires 1 <= i < |bars|
  {
    var bar := Evaluated(bars, i);
    if (i + 1) % EquityEvery(cfg) == 0 then Marked(a, bar.timestamp, bar.close) else a
  }

  /** The account once the arrival of bars[i] has been marked and its exits have been taken. */
  function Exited(cfg: EngineConfig, bars: seq<Bar>, i: nat, a: Account): Account
    requires 1 <= i < |bars|
  {
    AfterExit(MarkedAt(cfg, bars, i, a), cfg.simulator, Evaluated(bars, i))
  }

  /** The strategy is asked about bar, and its order fills at the open of next. */
  function Asked<S>(cfg: EngineConfig, strat: Strategy<S>, bar: Bar, next: Bar, history: seq<Point>, st: RunState<S>)
    : Option<RunState<S>>
    requires Fillable(cfg.simulator, next)
  {
    var (answer, s) := strat.generate(st.strategy, PointOf(bar), history);
    match answer
    case Failure => None
    case NoSignal => Some(RunState(st.account, s))
    case Signal(action) =>
      var (a, told) := AfterSignal(st.account, cfg.simulator, bar, next, action, strat, s);
      Some(RunState(a, if told then strat.recordTrade(s) else s))
  }

  /** The state once bars[..k] have arrived; None when the strategy failed on the way. */
  function Replay<S>(cfg: EngineConfig, strat: Strategy<S>, s0: S, bars: seq<Bar>, k: nat): Option<RunState<S>>
    requires k <= |bars| && Tradable(cfg, bars)
  {
    if k <= 1 then Some(RunState(NewAccount(cfg.simulator.initialBalance), s0))
    else
      var prev := Replay(cfg, strat, s0, bars, k - 1);
      if prev.None? then None else Arrival(cfg, strat, bars, k - 1, prev.value)
  }

  /** The last bar: exit, mark, and liquidate what is left. */
  function Drained(cfg: EngineConfig, a: Account, bars: seq<Bar>): Account {
    if bars == [] then a
    else
      var last := bars[|bars|-1];
      var marked := Marked(AfterExit(a, cfg.simulator, last), last.timestamp, last.close);
      if marked.position.None? then marked
      else Marked(ForceClosed(marked, cfg.simulator, last.timestamp, last.close), last.timestamp, last.close)
  }

  datatype Report = Report(
    symbol: string,
    startTime: int,
    endTime: int,
    bars: nat,
    account: Account,
    initialCash: real,
    finalCash: real,
    finalEquity: real)

  datatype Outcome =
    | BadBalance
    | SourceFailed
    | StrategyFailed
    | Finished(report: Report)

  /** Cash, plus an open position at the latest price the strategy was shown. */
  function FinalEquity(a: Account, history: seq<Point>): real {
    a.cash + if a.position.Some? && history != [] && history[|history|-1].price > 0.0
             then a.position.value.quantity * history[|history|-1].price else 0.0
  }

  /** Input delivered before the source first fails. */
  function Delivered(items: seq<Item>): seq<Bar> {
    if items == [] || items[0].Broken? then [] else [items[0].bar] + Delivered(items[1..])
  }

  /** The history once bars[..n] have arrived. */
  function HistoryAfter(cfg: EngineConfig, bars: seq<Bar>, n: nat): seq<Point>
    requires n <= |bars|
  {
    if n < 2 then [] else HistoryAt(cfg, bars, n - 1)
  }

  /** The bar that the next arrival evaluates. */
  function CurrAfter(bars: seq<Bar>, n: nat): Bar
    requires n <= |bars|
  {
    if n < 2 then ZERO_BAR else bars[n-2]
  }

  /** The bar that is buffered once bars[..n] have arrived. */
  function NextAfter(bars: seq<Bar>, n: nat): Option<Bar>
    requires n <= |bars|
  {
    if n == 0 then None else Some(bars[n-1])
  }

  /** Symbol, first and last time of bars[..n]. */
  function Header(bars: seq<Bar>, n: nat): (string, int, int)
    requires n <= |bars|
  {
    if n == 0 then ("", ZERO_TIME, ZERO_TIME) else (bars[0].symbol, bars[0].timestamp, bars[n-1].timestamp)
  }

  /** The report of a run whose bars left the given account behind. */
  function ReportOf(cfg: EngineConfig, bars: seq<Bar>, arrived: Account): Report {
    var a := Drained(cfg, arrived, bars);
    var (symbol, startTime, endTime) := Header(bars, |bars|);
    Report(symbol, startTime, endTime, |bars|, a, cfg.simulator.initialBalance, a.cash,
           FinalEquity(a, HistoryAfter(cfg, bars, |bars|)))
  }

  class Engine<S> {
    const cfg: EngineConfig
    const strat: Strategy<S>

    constructor (cfg: EngineConfig, strat: Strategy<S>)
      ensures this.cfg == cfg && this.strat == strat
    {
      this.cfg, this.strat := cfg, strat;
    }

    /** The body of the bar loop once two bars are buffered: curr is evaluated, orders fill at bar's open. */
    method ProcessBar(sim: Simulator, s: S, curr: Bar, bar: Bar, barCount: nat, history: seq<Point>,
                      ghost bars: seq<Bar>)
      returns (s': S, history': seq<Point>, failed: bool)
      requires Tradable(cfg, bars) && sim.cfg == cfg.simulator
      requires 2 <= barCount <= |bars| && bar == bars[barCount-1] && curr == Evaluated(bars, barCount - 1)
      requires history == HistoryAfter(cfg, bars, barCount - 1)
      modifies sim.portfolio
      ensures history' == HistoryAfter(cfg, bars, barCount)
      ensures var next := Arrival(cfg, strat, bars, barCount - 1, RunState(old(sim.portfolio.View()), s));
              if failed then next.None? else next == Some(RunState(sim.portfolio.View(), s'))
    {
      s', failed := s, false;
      MarkAndExit(sim, curr, barCount, bars);
      history' := history + [PointOf(curr)];
      if |history'| > HistLimit(cfg) {
        history' := history'[|history'|-HistLimit(cfg)..];
      }
      HistorySnoc(cfg, bars, barCount - 1, history);
      if barCount > cfg.warmupBars {
        s', failed := AskStrategy(sim, s, curr, bar, history');
      }
    }

    /** The first two steps of the bar loop: mark to market, then target and stop. */
    method MarkAndExit(sim: Simulator, curr: Bar, barCount: nat, ghost bars: seq<Bar>)
      requires sim.cfg == cfg.simulator && 2 <= barCount <= |bars| && curr == Evaluated(bars, barCount - 1)
      modifies sim.portfolio
      ensures sim.portfolio.View() == Exited(cfg, bars, barCount - 1, old(sim.portfolio.View()))
    {
      if barCount % EquityEvery(cfg) == 0 {
        sim.portfolio.MarkToMarket(curr.timestamp, curr.close);
      }
      var _ := sim.HandleExit(curr);
    }

    /** The bar loop's body: the first bar is only buffered; later the buffered bar moves up and bar takes its place. */
    method TakeBar(sim: Simulator, s: S, curr: Bar, nxt: Option<Bar>, bar: Bar, barCount: nat, history: seq<Point>,
                   ghost bars: seq<Bar>, ghost s0: S)
      returns (s': S, curr': Bar, history': seq<Point>, failed: bool)
      requires Tradable(cfg, bars) && sim.cfg == cfg.simulator
      requires 1 <= barCount <= |bars| && bar == bars[barCount-1]
      requires curr == CurrAfter(bars, barCount - 1) && nxt == NextAfter(bars, barCount - 1)
      requires history == HistoryAfter(cfg, bars, barCount - 1)
      requires Replay(cfg, strat, s0, bars, barCount - 1) == Some(RunState(sim.portfolio.View(), s))
      modifies sim.portfolio
      ensures failed ==> Replay(cfg, strat, s0, bars, |bars|).None?
      ensures !failed ==>
        && Replay(cfg, strat, s0, bars, barCount) == Some(RunState(sim.portfolio.View(), s'))
        && curr' == CurrAfter(bars, barCount) && history' == HistoryAfter(cfg, bars, barCount)
    {
      s', curr', history', failed := s, curr, history, false;
      if nxt.Some? {
        ReplayGoesOn(cfg, strat, s0, bars, barCount);
        s', history', failed := ProcessBar(sim, s, curr, bar, barCount, history, bars);
        curr' := nxt.value;
      }
    }

    /** The strategy's part of the bar loop. */
    method AskStrategy(sim: Simulator, s: S, curr: Bar, bar: Bar, history: seq<Point>) returns (s': S, failed: bool)
      requires sim.cfg == cfg.simulator && Fillable(cfg.simulator, bar)
      modifies sim.portfolio
      ensures var next := Asked(cfg, strat, curr, bar, history, RunState(old(sim.portfolio.View()), s));
              if failed then next.None? else next == Some(RunState(sim.portfolio.View(), s'))
    {
      failed := false;
      var reply := strat.generate(s, PointOf(curr), history);
      var answer := reply.0;
      s' := reply.1;
      if answer.Failure? {
        failed := true;
      } else if answer.Signal? {
        s' := sim.HandleSignal(curr, bar, answer.action, strat, s');
      }
    }

    /** The final buffered bar has no next bar: mark, exit, liquidate. */
    method DrainLastBar(sim: Simulator, final: Bar, ghost bars: seq<Bar>)
      requires sim.cfg == cfg.simulator && bars != [] && final == bars[|bars|-1]
      modifies sim.portfolio
      ensures sim.portfolio.View() == Drained(cfg, old(sim.portfolio.View()), bars)
    {
      var _ := sim.HandleExit(final);
      sim.portfolio.MarkToMarket(final.timestamp, final.close);
      if sim.portfolio.position.Some? {
        sim.ForceClose(final.timestamp, final.close);
        sim.portfolio.MarkToMarket(final.timestamp, final.close);
      }
    }

    method Run(source: Source, s0: S) returns (r: Outcome)
      requires Tradable(cfg, Delivered(source.items))
      modifies source
      ensures var bars := Delivered(old(source.items));
              var end := Replay(cfg, strat, s0, bars, |bars|);
              r == if cfg.simulator.initialBalance <= 0.0 then BadBalance
                   else if end.None? then StrategyFailed
                   else if Failures(old(source.items)) > 0 then SourceFailed
                   else Finished(ReportOf(cfg, bars, end.value.account))
    {
      if cfg.simulator.initialBalance <= 0.0 {
        return BadBalance;
      }
      var portfolio := new Portfolio(cfg.simulator.initialBalance);
      var sim := new Simulator(cfg.simulator, portfolio);
      ghost var bars := Delivered(source.items);
      var failure, header, final, barCount, history := ReadBars(sim, source, s0);
      if failure.Some? {
        return failure.value;
      }
      assert Replay(cfg, strat, s0, bars, |bars|).value.account == portfolio.View();
      var report := Finish(sim, header, final, barCount, history, bars);
      r := Finished(report);
    }

    /** The bar loop of Run. */
    method ReadBars(sim: Simulator, source: Source, s0: S)
      returns (failure: Option<Outcome>, header: (string, int, int), final: Option<Bar>, barCount: nat,
               history: seq<Point>)
      requires Tradable(cfg, Delivered(source.items)) && sim.cfg == cfg.simulator
      requires sim.portfolio.View() == NewAccount(cfg.simulator.initialBalance)
      modifies source, sim.portfolio
      ensures var bars := Delivered(old(source.items));
              var end := Replay(cfg, strat, s0, bars, |bars|);
              && failure == (if end.None? then Some(StrategyFailed)
                             else if Failures(old(source.items)) > 0 then Some(SourceFailed) else None)
              && (failure.None? ==>
                    && end.value.account == sim.portfolio.View()
                    && header == Header(bars, |bars|) && barCount == |bars|
                    && final == NextAfter(bars, |bars|)
                    && history == HistoryAfter(cfg, bars, |bars|))
    {
      var s, curr := s0, ZERO_BAR;
      failure, header, final, barCount, history := None, ("", ZERO_TIME, ZERO_TIME), None, 0, [];
      ghost var bars := Delivered(source.items);
      while true
        invariant 0 <= barCount <= |bars| && bars[barCount..] == Delivered(source.items)
        invariant failure == None && Failures(source.items) == Failures(old(source.items))
        invariant header == Header(bars, barCount) && final == NextAfter(bars, barCount)
        invariant curr == CurrAfter(bars, barCount) && history == HistoryAfter(cfg, bars, barCount)
        invariant Replay(cfg, strat, s0, bars, barCount) == Some(RunState(sim.portfolio.View(), s))
        decreases |source.items|
      {
        DeliveredNext(source.items);
        var p := source.Next();
        if p.Eof? {
          assert barCount == |bars|;
          return;
        }
        if p.Failed? {
          assert barCount == |bars|;
          failure := Some(SourceFailed);
          return;
        }
        var bar, failed := p.bar, false;
        NextOf(bars, barCount);
        header := if barCount == 0 then (bar.symbol, bar.timestamp, bar.timestamp)
                  else (header.0, header.1, bar.timestamp);
        barCount := barCount + 1;
        s, curr, history, failed := TakeBar(sim, s, curr, final, bar, barCount, history, bars, s0);
        if failed {
          failure := Some(StrategyFailed);
          return;
        }
        final := Some(bar);
      }
    }

    /** The tail of Run, once the source is exhausted. */
    method Finish(sim: Simulator, header: (string, int, int), final: Option<Bar>, barCount: nat,
                  history: seq<Point>, ghost bars: seq<Bar>)
      returns (report: Report)
      requires sim.cfg == cfg.simulator && header == Header(bars, |bars|)
      requires final == NextAfter(bars, |bars|)
      requires barCount == |bars| && history == HistoryAfter(cfg, bars, |bars|)
      modifies sim.portfolio
      ensures report == ReportOf(cfg, bars, old(sim.portfolio.View()))
    {
      if final.Some? {
        DrainLastBar(sim, final.value, bars);
      }
      var p := sim.portfolio;
      var account := Account(p.cash, p.peak, p.position, p.trades, p.equity);
      report := Report(header.0, header.1, header.2, barCount, account, cfg.simulator.initialBalance, p.cash,
                       FinalEquity(account, history));
    }
  }

  /** Appending to the trimmed history keeps it the trimmed history. */
  lemma {:induction false} HistorySnoc(cfg: EngineConfig, bars: seq<Bar>, i: nat, before: seq<Point>)
    requires 1 <= i < |bars|
    requires before == HistoryAfter(cfg, bars, i)
    ensures LastN(before + [PointOf(Evaluated(bars, i))], HistLimit(cfg)) == HistoryAt(cfg, bars, i)
  {
    var all, x := EvaluatedUpTo(bars, i), PointOf(Evaluated(bars, i));
    var earlier := all[..i-1];
    assert |all| == i && all[i-1] == Evaluated(bars, i);
    assert Points(all) == Points(earlier) + [x];
    if i == 1 {
      assert Points(earlier) == [];
    } else {
      assert earlier == EvaluatedUpTo(bars, i - 1);
    }
    LastNAppend(Points(earlier), [x], HistLimit(cfg));
  }

  lemma {:induction false} DeliveredNext(items: seq<Item>)
    ensures items == [] ==> Delivered(items) == [] && Failures(items) == 0
    ensures items != [] && items[0].BarItem? ==>
      Delivered(items) == [items[0].bar] + Delivered(items[1..]) && Failures(items) == Failures(items[1..])
    ensures items != [] && items[0].Broken? ==> Delivered(items) == [] && Failures(items) > 0
  {}

  lemma {:induction false} NextOf(bars: seq<Bar>, n: nat)
    requires n < |bars|
    ensures bars[n..] == [bars[n]] + bars[n+1..]
  {}

  lemma {:induction false} ReplayGoesOn<S>(cfg: EngineConfig, strat: Strategy<S>, s0: S, bars: seq<Bar>, k: nat)
    requires 2 <= k <= |bars| && Tradable(cfg, bars) && Replay(cfg, strat, s0, bars, k - 1).Some?
    ensures Replay(cfg, strat, s0, bars, k)
         == Arrival(cfg, strat, bars, k - 1, Replay(cfg, strat, s0, bars, k - 1).value)
    ensures Replay(cfg, strat, s0, bars, k).None? ==> Replay(cfg, strat, s0, bars, |bars|).None?
  {
    if Replay(cfg, strat, s0, bars, k).None? {
      FailurePersists(cfg, strat, s0, bars, k, |bars|);
    }
  }

  /** Replay by one arrival. */
  lemma {:induction false} ReplayStep<S>(cfg: EngineConfig, strat: Strategy<S>, s0: S, bars: seq<Bar>, k: nat)
    requires 2 <= k <= |bars| && Tradable(cfg, bars)
    ensures var prev := Replay(cfg, strat, s0, bars, k - 1);
            Replay(cfg, strat, s0, bars, k) == if prev.None? then None else Arrival(cfg, strat, bars, k - 1, prev.value)
  {}

  lemma {:induction false} FailurePersists<S>(cfg: EngineConfig, strat: Strategy<S>, s0: S, bars: seq<Bar>, k: nat,
                                              n: nat)
    requires k <= n <= |bars| && Tradable(cfg, bars) && Replay(cfg, strat, s0, bars, k).None?
    ensures Replay(cfg, strat, s0, bars, n).None?
  {
    if k == n {
    } else {
      FailurePersists(cfg, strat, s0, bars, k, n - 1);
    }
  }
}
