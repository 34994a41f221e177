/** Performance metrics over the recorded trades. */
module Analytics {
  import opened Reals
  import opened Ledger
  import opened LedgerRuns

  /** Booked profit; a BUY row without one counts its fee. */
  function EffectivePnl(t: Trade): real {
    if t.pnl == 0.0 && t.side == Buy && t.fee > 0.0 then -t.fee else t.pnl
  }

  /** Cumulated profit of the first k trades. */
  function Cumulated(ts: seq<Trade>, k: nat): real
    requires k <= |ts|
  {
    if k == 0 then 0.0 else Cumulated(ts, k - 1) + EffectivePnl(ts[k-1])
  }

  /** An amount as a percentage of the initial balance. */
  function PercentOf(x: real, initialBalance: real): real
    requires initialBalance != 0.0
  {
    x / initialBalance * 100.0
  }

  lemma {:induction false} PercentGrows(x: real, y: real, initialBalance: real)
    requires initialBalance != 0.0
    ensures initialBalance > 0.0 ==> (x < y <==> PercentOf(x, initialBalance) < PercentOf(y, initialBalance))
    ensures initialBalance < 0.0 && y >= 0.0 ==> PercentOf(y, initialBalance) <= 0.0
    ensures PercentOf(0.0, initialBalance) == 0.0
  {
    var a, b := x / initialBalance, y / initialBalance;
    assert a * initialBalance == x && b * initialBalance == y;
    if initialBalance > 0.0 {
      assert (b - a) * initialBalance == y - x;
      assert b - a > 0.0 ==> (b - a) * initialBalance > 0.0;
      assert b - a <= 0.0 ==> (b - a) * initialBalance <= 0.0;
    } else {
      assert b > 0.0 ==> b * initialBalance < 0.0;
    }
  }

  /** drop is the largest fall of the cumulated profit from any point to any later one among the first n trades. */
  predicate LargestDrop(drop: real, ts: seq<Trade>, n: nat)
    requires n <= |ts|
  {
    && (forall i, j :: 0 <= i <= j <= n ==> Cumulated(ts, i) - Cumulated(ts, j) <= drop)
    && (exists i, j :: 0 <= i <= j <= n && Cumulated(ts, i) - Cumulated(ts, j) == drop)
  }

  /** Highest cumulated profit among the first n points and the start. */
  function Peak(ts: seq<Trade>, n: nat): real
    requires n <= |ts|
  {
    if n == 0 then 0.0
    else if Cumulated(ts, n) > Peak(ts, n - 1) then Cumulated(ts, n) else Peak(ts, n - 1)
  }

  /** Deepest fall below the running peak. */
  function MaxDrop(ts: seq<Trade>, n: nat): real
    requires n <= |ts|
  {
    if n == 0 then 0.0
    else
      var last := Peak(ts, n) - Cumulated(ts, n);
      if last > MaxDrop(ts, n - 1) then last else MaxDrop(ts, n - 1)
  }

  lemma {:induction false} PeakMeaning(ts: seq<Trade>, n: nat) returns (top: nat)
    requires n <= |ts|
    ensures top <= n && Peak(ts, n) == Cumulated(ts, top)
    ensures forall k :: 0 <= k <= n ==> Cumulated(ts, k) <= Peak(ts, n)
  {
    if n == 0 {
      top := 0;
    } else {
      top := PeakMeaning(ts, n - 1);
      if Cumulated(ts, n) > Peak(ts, n - 1) {
        top := n;
      }
    }
  }

  lemma {:induction false} DropStep(drop: real, last: real, ts: seq<Trade>, n: nat, top: nat)
    requires 0 < n <= |ts| && LargestDrop(drop, ts, n - 1) && top <= n
    requires forall k :: 0 <= k <= n ==> Cumulated(ts, k) <= Cumulated(ts, top)
    requires last == Cumulated(ts, top) - Cumulated(ts, n)
    ensures LargestDrop(if last > drop then last else drop, ts, n)
  {
    var best := if last > drop then last else drop;
    var i, j :| 0 <= i <= j <= n - 1 && Cumulated(ts, i) - Cumulated(ts, j) == drop;
    assert Cumulated(ts, i) - Cumulated(ts, j) == best || Cumulated(ts, top) - Cumulated(ts, n) == best;
    forall a, b | 0 <= a <= b <= n ensures Cumulated(ts, a) - Cumulated(ts, b) <= best {
      if b == n {
        assert Cumulated(ts, a) <= Cumulated(ts, top);
      }
    }
  }

  /** One pass against the running peak finds the largest drop over all pairs of points, the start included. */
  lemma {:induction false} MaxDropMeaning(ts: seq<Trade>, n: nat)
    requires n <= |ts|
    ensures LargestDrop(MaxDrop(ts, n), ts, n)
  {
    if n == 0 {
      assert Cumulated(ts, 0) - Cumulated(ts, 0) == MaxDrop(ts, 0);
    } else {
      MaxDropMeaning(ts, n - 1);
      var top := PeakMeaning(ts, n);
      DropStep(MaxDrop(ts, n - 1), Peak(ts, n) - Cumulated(ts, n), ts, n, top);
    }
  }

  /** A float64 quotient whose divisor may be zero. */
  datatype Percentage =
    | Percent(value: real)
    | PlusInfinity
    | MinusInfinity
    | NotANumber

  function PercentFor(x: real, initialBalance: real): Percentage {
    if initialBalance != 0.0 then Percent(PercentOf(x, initialBalance))
    else if x > 0.0 then PlusInfinity
    else if x < 0.0 then MinusInfinity
    else NotANumber
  }

  /** Comparison with NaN is false. */
  predicate Exceeds(a: Percentage, b: Percentage) {
    match (a, b)
    case (Percent(x), Percent(y)) => x > y
    case (PlusInfinity, Percent(_)) => true
    case _ => false
  }

  /** What a drop amounts to: a share of a positive balance, nothing of a negative one, and everything of none. */
  function DrawdownFor(drop: real, initialBalance: real): Percentage {
    if initialBalance > 0.0 then Percent(PercentOf(drop, initialBalance))
    else if initialBalance == 0.0 && drop > 0.0 then PlusInfinity
    else Percent(0.0)
  }

  method CalculateMaxDrawdown(ts: seq<Trade>, initialBalance: real) returns (maxDrawdown: Percentage)
    ensures maxDrawdown == DrawdownFor(MaxDrop(ts, |ts|), initialBalance)
  {
    maxDrawdown := Percent(0.0);
    var peak, running := 0.0, 0.0;
    DrawdownGrows(0.0, 0.0, initialBalance);
    for i := 0 to |ts|
      invariant running == Cumulated(ts, i) && peak == Peak(ts, i) && running <= peak && MaxDrop(ts, i) >= 0.0
      invariant maxDrawdown == DrawdownFor(MaxDrop(ts, i), initialBalance)
    {
      var pnl := ts[i].pnl;
      if pnl == 0.0 && ts[i].side == Buy && ts[i].fee > 0.0 {
        pnl := -ts[i].fee;
      }
      running := running + pnl;
      if running > peak {
        peak := running;
      }
      var drawdown := PercentFor(peak - running, initialBalance);
      DrawdownGrows(MaxDrop(ts, i), peak - running, initialBalance);
      if Exceeds(drawdown, maxDrawdown) {
        maxDrawdown := drawdown;
      }
    }
  }

  /** Taking the larger percentage takes the larger drop. */
  lemma {:induction false} DrawdownGrows(x: real, y: real, initialBalance: real)
    requires x >= 0.0 && y >= 0.0
    ensures DrawdownFor(0.0, initialBalance) == Percent(0.0)
    ensures var a, b := DrawdownFor(x, initialBalance), PercentFor(y, initialBalance);
            (if Exceeds(b, a) then b else a) == DrawdownFor(if y > x then y else x, initialBalance)
  {
    if initialBalance != 0.0 {
      PercentGrows(x, y, initialBalance);
    }
  }

  datatype Metrics = Metrics(
    totalPnl: real,
    winningTrades: nat,
    losingTrades: nat,
    totalWin: real,
    totalLoss: real,
    largestWin: real,
    largestLoss: real)

  /** Results within one sen of zero are neither wins nor losses. */
  const THRESHOLD := 0.01

  predicate Wins(t: Trade) {
    EffectivePnl(t) > THRESHOLD
  }

  predicate Loses(t: Trade) {
    EffectivePnl(t) < -THRESHOLD
  }

  function CountWins(ts: seq<Trade>, k: nat): nat
    requires k <= |ts|
  {
    if k == 0 then 0 else CountWins(ts, k - 1) + if Wins(ts[k-1]) then 1 else 0
  }

  function CountLosses(ts: seq<Trade>, k: nat): nat
    requires k <= |ts|
  {
    if k == 0 then 0 else CountLosses(ts, k - 1) + if Loses(ts[k-1]) then 1 else 0
  }

  /** What the wins add up to. */
  function Won(ts: seq<Trade>, k: nat): real
    requires k <= |ts|
  {
    if k == 0 then 0.0 else Won(ts, k - 1) + if Wins(ts[k-1]) then EffectivePnl(ts[k-1]) else 0.0
  }

  /** What the draws add up to. */
  function Draws(ts: seq<Trade>, k: nat): real
    requires k <= |ts|
  {
    if k == 0 then 0.0
    else Draws(ts, k - 1) + if Wins(ts[k-1]) || Loses(ts[k-1]) then 0.0 else EffectivePnl(ts[k-1])
  }

  /** Totals of the first k trades: wins, losses and draws make up the cumulated profit. */
  predicate MetricsOk(m: Metrics, ts: seq<Trade>, k: nat)
    requires k <= |ts|
  {
    && m.totalPnl == Cumulated(ts, k) == m.totalWin - m.totalLoss + Draws(ts, k)
    && m.totalWin == Won(ts, k)
    && m.winningTrades == CountWins(ts, k) && m.losingTrades == CountLosses(ts, k)
    && m.winningTrades + m.losingTrades <= k
    && m.totalWin >= THRESHOLD * m.winningTrades as real && m.totalLoss >= THRESHOLD * m.losingTrades as real
    && (forall i :: 0 <= i < k ==> -m.largestLoss - THRESHOLD <= EffectivePnl(ts[i]) <= m.largestWin + THRESHOLD)
    && m.largestWin >= 0.0 && m.largestLoss >= 0.0
    && (m.winningTrades == 0 ==> m.largestWin == 0.0) && (m.losingTrades == 0 ==> m.largestLoss == 0.0)
    && (m.winningTrades > 0 ==> exists i :: 0 <= i < k && EffectivePnl(ts[i]) == m.largestWin)
    && (m.losingTrades > 0 ==> exists i :: 0 <= i < k && EffectivePnl(ts[i]) == -m.largestLoss)
  }

  /** What is reported about all trades. */
  datatype Performance = Performance(
    totals: Metrics,
    totalTrades: nat,
    totalReturn: Percentage,
    winRate: real,
    averageWin: real,
    averageLoss: real,
    profitFactor: real,
    maxDrawdown: Percentage)

  /** x over y, or zero when there is nothing to divide by. */
  function Share(x: real, y: real): real {
    if y > 0.0 then x / y else 0.0
  }

  method CalculateFromTrades(ts: seq<Trade>, initialBalance: real) returns (p: Performance)
    ensures MetricsOk(p.totals, ts, |ts|) && p.totalTrades == |ts|
    ensures p.totalReturn == if ts == [] then Percent(0.0) else PercentFor(Cumulated(ts, |ts|), initialBalance)
    ensures p.maxDrawdown == DrawdownFor(MaxDrop(ts, |ts|), initialBalance)
    ensures var m := p.totals;
            && p.winRate == Share(m.winningTrades as real, (m.winningTrades + m.losingTrades) as real) * 100.0
            && p.averageWin == Share(m.totalWin, m.winningTrades as real)
            && p.averageLoss == Share(m.totalLoss, m.losingTrades as real)
            && p.profitFactor == Share(m.totalWin, m.totalLoss)
  {
    var m := Metrics(0.0, 0, 0, 0.0, 0.0, 0.0, 0.0);
    if ts == [] {
      return Performance(m, 0, Percent(0.0), 0.0, 0.0, 0.0, 0.0, Percent(0.0));
    }
    for i := 0 to |ts|
      invariant MetricsOk(m, ts, i)
    {
      m := CountTrade(m, ts, i);
    }
    var totalReturn := PercentFor(m.totalPnl, initialBalance);
    var winRate, averageWin, averageLoss, profitFactor := 0.0, 0.0, 0.0, 0.0;
    var decided := m.winningTrades + m.losingTrades;
    if decided > 0 {
      winRate := m.winningTrades as real / decided as real * 100.0;
    }
    if m.winningTrades > 0 {
      averageWin := m.totalWin / m.winningTrades as real;
    }
    if m.losingTrades > 0 {
      averageLoss := m.totalLoss / m.losingTrades as real;
    }
    if m.totalLoss > 0.0 {
      profitFactor := m.totalWin / m.totalLoss;
    }
    var maxDrawdown := CalculateMaxDrawdown(ts, initialBalance);
    p := Performance(m, |ts|, totalReturn, winRate, averageWin, averageLoss, profitFactor, maxDrawdown);
  }

  /** The derived figures stay in range: the win rate is a percentage, and average win and loss are at least one
      sen. */
  lemma {:induction false} RatesInRange(m: Metrics, ts: seq<Trade>, k: nat)
    requires k <= |ts| && MetricsOk(m, ts, k)
    ensures 0.0 <= Share(m.winningTrades as real, (m.winningTrades + m.losingTrades) as real) <= 1.0
    ensures m.winningTrades > 0 ==> Share(m.totalWin, m.winningTrades as real) >= 0.01
    ensures m.losingTrades > 0 ==> Share(m.totalLoss, m.losingTrades as real) >= 0.01
  {
    var w, n := m.winningTrades as real, (m.winningTrades + m.losingTrades) as real;
    if n > 0.0 {
      ShareWithin(w, n, 0.0, 1.0);
    }
    if w > 0.0 {
      ShareWithin(m.totalWin, w, THRESHOLD, Share(m.totalWin, w));
    }
    if m.losingTrades > 0 {
      ShareWithin(m.totalLoss, m.losingTrades as real, THRESHOLD, Share(m.totalLoss, m.losingTrades as real));
    }
  }

  /** A draw is at most one sen either way, so wins less losses miss the total by at most one sen per draw. */
  lemma {:induction false} DrawsAreSmall(ts: seq<Trade>, k: nat)
    requires k <= |ts|
    ensures CountWins(ts, k) + CountLosses(ts, k) <= k
    ensures var draws := (k - CountWins(ts, k) - CountLosses(ts, k)) as real;
            -0.01 * draws <= Draws(ts, k) <= 0.01 * draws
  {
    if k == 0 {
    } else {
      DrawsAreSmall(ts, k - 1);
    }
  }

  /** Shares and percentages recover what they were computed from. */
  lemma {:induction false} SharesRecover(x: real, y: real)
    ensures y > 0.0 ==> Share(x, y) * y == x
    ensures y <= 0.0 ==> Share(x, y) == 0.0
    ensures y != 0.0 ==> PercentOf(x, y) * y == x * 100.0
    ensures y > 0.0 ==> DrawdownFor(x, y) == Percent(PercentOf(x, y))
  {
    if y != 0.0 {
      var q := x / y;
      assert q * y == x;
      assert q * 100.0 * y == q * y * 100.0;
    }
  }

  lemma {:induction false} ShareWithin(x: real, y: real, lo: real, hi: real)
    requires y > 0.0 && lo * y <= x
    ensures lo <= Share(x, y)
    ensures x <= hi * y ==> Share(x, y) <= hi
  {
    var q := x / y;
    assert q * y == x;
    Scaled(q, lo, y);
    Scaled(hi, q, y);
  }

  /** The body of the accumulator loop. */
  method CountTrade(m0: Metrics, ts: seq<Trade>, i: nat) returns (m: Metrics)
    requires i < |ts| && MetricsOk(m0, ts, i)
    ensures MetricsOk(m, ts, i + 1)
  {
    var pnl := ts[i].pnl;
    if pnl == 0.0 && ts[i].side == Buy && ts[i].fee > 0.0 {
      pnl := -ts[i].fee;
    }
    m := m0.(totalPnl := m0.totalPnl + pnl);
    if pnl > THRESHOLD {
      m := m.(winningTrades := m.winningTrades + 1, totalWin := m.totalWin + pnl,
              largestWin := if pnl > m.largestWin then pnl else m.largestWin);
    } else if pnl < -THRESHOLD {
      m := m.(losingTrades := m.losingTrades + 1, totalLoss := m.totalLoss - pnl,
              largestLoss := if -pnl > m.largestLoss then -pnl else m.largestLoss);
    }
  }

  // ---------------------------------------------------------------- agreement with the ledger

  /** In a table recorded from distinct orders every BUY books exactly its fee. */
  lemma {:induction false} BuysBookTheirFee(ops: seq<Op>, strategyName: string, k: nat)
    requires DistinctOrders(ops) && k < |Run(ops, strategyName).trades|
    ensures var t := Run(ops, strategyName).trades[k];
            t.side == Buy ==> t.pnl == -t.fee
    decreases |ops|
  {
    var n := |ops| - 1;
    var pre, op, tb := ops[..n], ops[n], Run(ops[..n], strategyName);
    if op.Record? {
      forall i | 0 <= i < |tb.trades| ensures tb.trades[i].orderId != op.result.orderId {
        TradeOrigin(pre, strategyName, i);
      }
      SumPnlSaved(tb.trades, NewTrade(op.result, Pnl(tb.positions, op.result), strategyName));
    }
    if k < |tb.trades| {
      BuysBookTheirFee(pre, strategyName, k);
    }
  }

  /** The rows of a table whose BUYs have lost their booked profit. */
  function Stripped(ts: seq<Trade>): (r: seq<Trade>)
    ensures |r| == |ts|
    ensures forall i :: 0 <= i < |ts| ==> r[i] == if ts[i].side == Buy then ts[i].(pnl := 0.0) else ts[i]
  {
    if ts == [] then []
    else [if ts[0].side == Buy then ts[0].(pnl := 0.0) else ts[0]] + Stripped(ts[1..])
  }

  /** The fee fallback makes up for lost profits of BUY rows: in every recorded ledger without rebates the cumulated
      profit is the same with and without them. */
  lemma {:induction false} FeeFallbackRestores(ops: seq<Op>, strategyName: string, k: nat)
    requires DistinctOrders(ops) && k <= |Run(ops, strategyName).trades|
    requires forall i :: 0 <= i < |Run(ops, strategyName).trades| ==> Run(ops, strategyName).trades[i].fee >= 0.0
    ensures Cumulated(Stripped(Run(ops, strategyName).trades), k) == Cumulated(Run(ops, strategyName).trades, k)
  {
    var ts := Run(ops, strategyName).trades;
    forall i | 0 <= i < |ts| ensures BooksFee(ts[i]) {
      BuysBookTheirFee(ops, strategyName, i);
    }
    forall i | 0 <= i < |ts| ensures EffectivePnl(Stripped(ts)[i]) == EffectivePnl(ts[i]) {
      StrippedCounts(ts[i]);
    }
    CumulatesAlike(Stripped(ts), ts, k);
  }

  predicate BooksFee(t: Trade) {
    t.fee >= 0.0 && (t.side == Buy ==> t.pnl == -t.fee)
  }

  lemma {:induction false} StrippedCounts(t: Trade)
    requires BooksFee(t)
    ensures t.side == Buy ==> EffectivePnl(t.(pnl := 0.0)) == EffectivePnl(t)
  {}

  lemma {:induction false} CumulatesAlike(xs: seq<Trade>, ys: seq<Trade>, k: nat)
    requires k <= |xs| == |ys| && forall i :: 0 <= i < |xs| ==> EffectivePnl(xs[i]) == EffectivePnl(ys[i])
    ensures Cumulated(xs, k) == Cumulated(ys, k)
  {
    if k == 0 {
    } else {
      CumulatesAlike(xs, ys, k - 1);
    }
  }

  lemma {:induction false} CumulatedIsSum(ts: seq<Trade>, k: nat)
    requires k <= |ts| && forall i :: 0 <= i < |ts| ==> EffectivePnl(ts[i]) == ts[i].pnl
    ensures Cumulated(ts, k) == SumPnl(ts[..k])
  {
    if k == 0 {
    } else {
      CumulatedIsSum(ts, k - 1);
      assert ts[..k] == ts[..k-1] + [ts[k-1]];
      SumPnlSnoc(ts[..k-1], ts[k-1]);
    }
  }

  lemma {:induction false} SumPnlSnoc(ts: seq<Trade>, t: Trade)
    ensures SumPnl(ts + [t]) == SumPnl(ts) + t.pnl
  {
    if ts == [] {
      assert ts + [t] == [t] && [t][1..] == [];
    } else {
      assert (ts + [t])[1..] == ts[1..] + [t];
      SumPnlSnoc(ts[1..], t);
    }
  }

  /** The total the dashboard shows for any recorded run is the conserved quantity of the books: revenue of what was
      matched, less everything spent, plus the entry cost of what is left, less all fees. */
  lemma {:induction false} DashboardTotalIsConserved(ops: seq<Op>, strategyName: string)
    requires DistinctOrders(ops)
    ensures var tb := Run(ops, strategyName);
            Cumulated(tb.trades, |tb.trades|) == Revenue(ops, strategyName) - Spent(ops)
                                                 + Cost(tb.positions, RemainingPart) - Fees(ops)
  {
    var ts := Run(ops, strategyName).trades;
    forall i | 0 <= i < |ts| ensures EffectivePnl(ts[i]) == ts[i].pnl {
      BuysBookTheirFee(ops, strategyName, i);
    }
    CumulatedIsSum(ts, |ts|);
    assert ts[..|ts|] == ts;
    CostBasisConserved(ops, strategyName);
  }
}
