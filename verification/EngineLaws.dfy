/** What holds of every backtest, for any strategy and any stream of bars. */
module EngineLaws {
  import opened Options
  import opened Reals
  import opened Buckets
  import opened Portfolios
  import opened Signals
  import opened Simulators
  import opened Engines

  // ---------------------------------------------------------------- books and equity curve

  /** Sane rates over bars with positive opens and closes that are not negative. */
  predicate SaneRun(cfg: EngineConfig, bars: seq<Bar>) {
    SaneRates(cfg.simulator) && forall i :: 0 <= i < |bars| ==> bars[i].open > 0.0 && bars[i].close >= 0.0
  }

  /** Books balanced, curve measured from its peak, and in a sane run neither cash nor equity below zero. */
  predicate RunOk(a: Account, cfg: EngineConfig, sane: bool) {
    && AccountOk(a, cfg.simulator, sane)
    && CurveOk(a, cfg.simulator.initialBalance)
    && (sane ==> forall i :: 0 <= i < |a.equity| ==> a.equity[i].equity >= 0.0)
  }

  lemma {:induction false} MarkKeepsOk(a: Account, cfg: EngineConfig, t: int, price: real, sane: bool)
    requires RunOk(a, cfg, sane) && cfg.simulator.initialBalance > 0.0 && (sane ==> price >= 0.0)
    ensures RunOk(Marked(a, t, price), cfg, sane)
  {
    MarkKeepsCurve(a, cfg.simulator.initialBalance, t, price);
    if sane && a.position.Some? {
      ProductNonNegative(a.position.value.quantity, price);
    }
  }

  lemma {:induction false} ArrivalKeepsOk<S>(cfg: EngineConfig, strat: Strategy<S>, bars: seq<Bar>, i: nat,
                                             st: RunState<S>)
    requires 1 <= i < |bars| && Tradable(cfg, bars) && cfg.simulator.initialBalance > 0.0
    requires RunOk(st.account, cfg, SaneRun(cfg, bars))
    ensures var next := Arrival(cfg, strat, bars, i, st);
            next.Some? ==> RunOk(next.value.account, cfg, SaneRun(cfg, bars))
  {
    var bar, sane := Evaluated(bars, i), SaneRun(cfg, bars);
    MarkKeepsOk(st.account, cfg, bar.timestamp, bar.close, sane);
    var marked, exited := MarkedAt(cfg, bars, i, st.account), Exited(cfg, bars, i, st.account);
    ExitKeepsOk(marked, cfg.simulator, bar, sane);
    assert exited.equity == marked.equity && exited.peak == marked.peak;
    if i + 1 > cfg.warmupBars {
      AnswerKeepsOk(cfg, strat, bar, bars[i], HistoryAt(cfg, bars, i), RunState(exited, st.strategy), sane);
    }
  }

  lemma {:induction false} AnswerKeepsOk<S>(cfg: EngineConfig, strat: Strategy<S>, bar: Bar, next: Bar,
                                            history: seq<Point>, st: RunState<S>, sane: bool)
    requires Fillable(cfg.simulator, next) && (sane ==> SaneRates(cfg.simulator) && next.open > 0.0)
    requires RunOk(st.account, cfg, sane)
    ensures var asked := Asked(cfg, strat, bar, next, history, st);
            asked.Some? ==> RunOk(asked.value.account, cfg, sane)
  {
    var (answer, s) := strat.generate(st.strategy, PointOf(bar), history);
    if answer.Signal? {
      SignalKeepsOk(st.account, cfg.simulator, bar, next, answer.action, strat, s, sane);
      SignalKeepsCurve(st.account, cfg.simulator, bar, next, answer.action, strat, s);
    }
  }

  lemma {:induction false} SignalKeepsCurve<S>(a: Account, cfg: SimulatorConfig, bar: Bar, next: Bar, action: Action,
                                               strat: Strategy<S>, s: S)
    requires Fillable(cfg, next)
    ensures var b := AfterSignal(a, cfg, bar, next, action, strat, s).0;
            b.equity == a.equity && b.peak == a.peak
  {}

  /** At every point of every run: cash is the starting balance plus the net result of closed trades less what the
      open position cost; in a sane run it is never negative; the equity curve measures from its running peak. */
  lemma {:induction false} ReplayKeepsOk<S>(cfg: EngineConfig, strat: Strategy<S>, s0: S, bars: seq<Bar>, k: nat)
    requires k <= |bars| && Tradable(cfg, bars) && cfg.simulator.initialBalance > 0.0
    ensures var st := Replay(cfg, strat, s0, bars, k);
            st.Some? ==> RunOk(st.value.account, cfg, SaneRun(cfg, bars))
  {
    if k <= 1 {
      FreshIsOk(cfg, SaneRun(cfg, bars));
    } else {
      ReplayKeepsOk(cfg, strat, s0, bars, k - 1);
      ReplayStep(cfg, strat, s0, bars, k);
      NextKeepsOk(cfg, strat, bars, k - 1, Replay(cfg, strat, s0, bars, k - 1), Replay(cfg, strat, s0, bars, k));
    }
  }

  lemma {:induction false} NextKeepsOk<S>(cfg: EngineConfig, strat: Strategy<S>, bars: seq<Bar>, i: nat,
                                          prev: Option<RunState<S>>, next: Option<RunState<S>>)
    requires 1 <= i < |bars| && Tradable(cfg, bars) && cfg.simulator.initialBalance > 0.0
    requires next == if prev.None? then None else Arrival(cfg, strat, bars, i, prev.value)
    requires prev.Some? ==> RunOk(prev.value.account, cfg, SaneRun(cfg, bars))
    ensures next.Some? ==> RunOk(next.value.account, cfg, SaneRun(cfg, bars))
  {
    if prev.Some? {
      ArrivalKeepsOk(cfg, strat, bars, i, prev.value);
    }
  }

  lemma {:induction false} FreshIsOk(cfg: EngineConfig, sane: bool)
    requires cfg.simulator.initialBalance > 0.0
    ensures RunOk(NewAccount(cfg.simulator.initialBalance), cfg, sane)
  {}

  /** Every run that reaches its end is flat, its cash is the starting balance plus the net result of its trades,
      and its books and equity curve are in order. */
  lemma {:induction false} EndsFlat<S>(cfg: EngineConfig, strat: Strategy<S>, s0: S, bars: seq<Bar>)
    requires Tradable(cfg, bars) && cfg.simulator.initialBalance > 0.0
    requires Replay(cfg, strat, s0, bars, |bars|).Some?
    ensures var a := Drained(cfg, Replay(cfg, strat, s0, bars, |bars|).value.account, bars);
            && a.position == None
            && a.cash == cfg.simulator.initialBalance + NetPnl(a.trades)
            && RunOk(a, cfg, SaneRun(cfg, bars))
  {
    ReplayKeepsOk(cfg, strat, s0, bars, |bars|);
    DrainKeepsOk(cfg, bars, Replay(cfg, strat, s0, bars, |bars|).value.account);
  }

  lemma {:induction false} DrainKeepsOk(cfg: EngineConfig, bars: seq<Bar>, a: Account)
    requires cfg.simulator.initialBalance > 0.0 && RunOk(a, cfg, SaneRun(cfg, bars))
    requires bars == [] ==> a.position == None
    ensures Drained(cfg, a, bars).position == None && RunOk(Drained(cfg, a, bars), cfg, SaneRun(cfg, bars))
  {
    if bars != [] {
      var last, sane := bars[|bars|-1], SaneRun(cfg, bars);
      ExitKeepsOk(a, cfg.simulator, last, sane);
      var exited := AfterExit(a, cfg.simulator, last);
      assert exited.equity == a.equity && exited.peak == a.peak;
      MarkKeepsOk(exited, cfg, last.timestamp, last.close, sane);
      var marked := Marked(exited, last.timestamp, last.close);
      if marked.position.Some? {
        SaleKeepsOk(marked, cfg.simulator, last.timestamp, last.close, EndOfData, sane);
        MarkKeepsOk(ForceClosed(marked, cfg.simulator, last.timestamp, last.close), cfg, last.timestamp, last.close,
                    sane);
      }
    }
  }

  // ---------------------------------------------------------------- no lookahead

  /** What the strategy answers when bars[i] arrives; None before its warm-up ends or after it failed. */
  function AnswerAt<S>(cfg: EngineConfig, strat: Strategy<S>, s0: S, bars: seq<Bar>, i: nat): Option<Answer>
    requires 1 <= i < |bars| && Tradable(cfg, bars)
  {
    var st := Replay(cfg, strat, s0, bars, i);
    if st.None? || i + 1 <= cfg.warmupBars then None
    else Some(strat.generate(st.value.strategy, PointOf(Evaluated(bars, i)), HistoryAt(cfg, bars, i)).0)
  }

  lemma {:induction false} ReplayLocal<S>(cfg: EngineConfig, strat: Strategy<S>, s0: S, xs: seq<Bar>, ys: seq<Bar>,
                                          k: nat)
    requires k <= |xs| && k <= |ys| && xs[..k] == ys[..k] && Tradable(cfg, xs) && Tradable(cfg, ys)
    ensures Replay(cfg, strat, s0, xs, k) == Replay(cfg, strat, s0, ys, k)
  {
    if k <= 1 {
    } else {
      assert xs[..k-1] == xs[..k][..k-1] && ys[..k-1] == ys[..k][..k-1];
      ReplayLocal(cfg, strat, s0, xs, ys, k - 1);
      assert xs[k-1] == xs[..k][k-1] && ys[k-1] == ys[..k][k-1];
      assert xs[..k-2] == xs[..k][..k-2] && ys[..k-2] == ys[..k][..k-2];
      ArrivalAlike(cfg, strat, s0, xs, ys, k - 1);
    }
  }

  /** An order that fills at the open of bars[i] was decided without looking at bars[i] or anything after it. */
  lemma {:induction false} NoLookahead<S>(cfg: EngineConfig, strat: Strategy<S>, s0: S, xs: seq<Bar>, ys: seq<Bar>,
                                          i: nat)
    requires 1 <= i < |xs| && i < |ys| && xs[..i] == ys[..i] && Tradable(cfg, xs) && Tradable(cfg, ys)
    ensures AnswerAt(cfg, strat, s0, xs, i) == AnswerAt(cfg, strat, s0, ys, i)
  {
    ReplayLocal(cfg, strat, s0, xs, ys, i);
    assert xs[..i-1] == xs[..i][..i-1] && ys[..i-1] == ys[..i][..i-1];
    assert i > 1 ==> xs[i-2] == xs[..i][i-2] && ys[i-2] == ys[..i][i-2];
    assert EvaluatedUpTo(xs, i) == EvaluatedUpTo(ys, i);
  }

  /** Two bars at which every order fills alike. */
  predicate FillsAlike(x: Bar, y: Bar) {
    x.open == y.open && x.volume == y.volume && x.timestamp == y.timestamp
  }

  lemma {:induction false} SignalFillsAlike<S>(a: Account, cfg: SimulatorConfig, bar: Bar, x: Bar, y: Bar,
                                               action: Action, strat: Strategy<S>, s: S)
    requires Fillable(cfg, x) && FillsAlike(x, y)
    ensures AfterSignal(a, cfg, bar, x, action, strat, s) == AfterSignal(a, cfg, bar, y, action, strat, s)
  {
    assert EntryPrice(cfg, x) == EntryPrice(cfg, y);
    assert SellPrice(cfg, x) == SellPrice(cfg, y);
  }

  /** The bar before the last is never evaluated: its high, low and close cannot influence any result, so a
      stop or target crossed only there is missed. */
  lemma {:induction false} PenultimateBarUnseen<S>(cfg: EngineConfig, strat: Strategy<S>, s0: S, xs: seq<Bar>,
                                                   ys: seq<Bar>)
    requires |xs| == |ys| >= 2 && Tradable(cfg, xs) && Tradable(cfg, ys)
    requires xs[..|xs|-2] == ys[..|xs|-2] && xs[|xs|-1] == ys[|xs|-1] && FillsAlike(xs[|xs|-2], ys[|xs|-2])
    ensures var x, y := Replay(cfg, strat, s0, xs, |xs|), Replay(cfg, strat, s0, ys, |xs|);
            x == y && (x.Some? ==> Drained(cfg, x.value.account, xs) == Drained(cfg, y.value.account, ys))
  {
    ReplayAlike(cfg, strat, s0, xs, ys);
    var x := Replay(cfg, strat, s0, xs, |xs|);
    if x.Some? {
      DrainedAlike(cfg, x.value.account, xs, ys);
    }
  }

  lemma {:induction false} DrainedAlike(cfg: EngineConfig, a: Account, xs: seq<Bar>, ys: seq<Bar>)
    requires xs != [] && ys != [] && xs[|xs|-1] == ys[|ys|-1]
    ensures Drained(cfg, a, xs) == Drained(cfg, a, ys)
  {}

  lemma {:induction false} ReplayAlike<S>(cfg: EngineConfig, strat: Strategy<S>, s0: S, xs: seq<Bar>, ys: seq<Bar>)
    requires |xs| == |ys| >= 2 && Tradable(cfg, xs) && Tradable(cfg, ys)
    requires xs[..|xs|-2] == ys[..|xs|-2] && xs[|xs|-1] == ys[|xs|-1] && FillsAlike(xs[|xs|-2], ys[|xs|-2])
    ensures Replay(cfg, strat, s0, xs, |xs|) == Replay(cfg, strat, s0, ys, |ys|)
  {
    var n := |xs|;
    ReplayLocal(cfg, strat, s0, xs, ys, n - 2);
    if n > 2 {
      assert xs[..n-3] == xs[..n-2][..n-3] && ys[..n-3] == ys[..n-2][..n-3];
      ArrivalAlike(cfg, strat, s0, xs, ys, n - 2);
    } else {
      assert Replay(cfg, strat, s0, xs, 1) == Replay(cfg, strat, s0, ys, 1);
    }
    ArrivalAlike(cfg, strat, s0, xs, ys, n - 1);
  }

  lemma {:induction false} ArrivalAlike<S>(cfg: EngineConfig, strat: Strategy<S>, s0: S, xs: seq<Bar>, ys: seq<Bar>,
                                           i: nat)
    requires 1 <= i < |xs| && i < |ys| && Tradable(cfg, xs) && Tradable(cfg, ys)
    requires xs[..i-1] == ys[..i-1] && FillsAlike(xs[i], ys[i])
    requires Replay(cfg, strat, s0, xs, i) == Replay(cfg, strat, s0, ys, i)
    ensures Replay(cfg, strat, s0, xs, i + 1) == Replay(cfg, strat, s0, ys, i + 1)
  {
    ReplayStep(cfg, strat, s0, xs, i + 1);
    ReplayStep(cfg, strat, s0, ys, i + 1);
    var st := Replay(cfg, strat, s0, xs, i);
    if st.Some? {
      SameArrival(cfg, strat, xs, ys, i, st.value);
    }
  }

  lemma {:induction false} SameArrival<S>(cfg: EngineConfig, strat: Strategy<S>, xs: seq<Bar>, ys: seq<Bar>, i: nat,
                                          st: RunState<S>)
    requires 1 <= i < |xs| && i < |ys| && Tradable(cfg, xs) && Tradable(cfg, ys)
    requires xs[..i-1] == ys[..i-1] && FillsAlike(xs[i], ys[i])
    ensures Arrival(cfg, strat, xs, i, st) == Arrival(cfg, strat, ys, i, st)
  {
    assert i > 1 ==> xs[i-2] == xs[..i-1][i-2] && ys[i-2] == ys[..i-1][i-2];
    assert EvaluatedUpTo(xs, i) == EvaluatedUpTo(ys, i);
    var bar := Evaluated(xs, i);
    assert bar == Evaluated(ys, i);
    var exited := RunState(Exited(cfg, xs, i, st.account), st.strategy);
    SameAnswer(cfg, strat, bar, xs[i], ys[i], HistoryAt(cfg, xs, i), exited);
  }

  lemma {:induction false} SameAnswer<S>(cfg: EngineConfig, strat: Strategy<S>, bar: Bar, x: Bar, y: Bar,
                                         history: seq<Point>, st: RunState<S>)
    requires Fillable(cfg.simulator, x) && Fillable(cfg.simulator, y) && FillsAlike(x, y)
    ensures Asked(cfg, strat, bar, x, history, st) == Asked(cfg, strat, bar, y, history, st)
  {
    var (answer, s) := strat.generate(st.strategy, PointOf(bar), history);
    if answer.Signal? {
      SignalFillsAlike(st.account, cfg.simulator, bar, x, y, answer.action, strat, s);
    }
  }
}
