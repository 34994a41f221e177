/** The summary of a backtest: one pass over trades and equity samples. */
module Reports {
  import opened Options
  import opened Reals
  import opened Lots
  import opened Buckets
  import opened Resampler
  import opened Portfolios
  import opened Simulators
  import opened Engines
  import opened EngineLaws

  datatype MonthlyPnl = MonthlyPnl(year: int, month: int, pnl: real)

  /** A quotient that the original lets run to infinity. */
  datatype Ratio =
    | Finite(value: real)
    | Infinite

  datatype Summary = Summary(
    totalTrades: nat,
    wins: nat,
    losses: nat,
    winRate: real,
    grossProfit: real,
    grossLoss: real,
    netPnl: real,
    avgPnl: real,
    bestTrade: real,
    worstTrade: real,
    totalFees: real,
    totalSlippage: real,
    maxDrawdown: real,
    maxDrawdownAbs: real,
    maxDrawdownAt: Option<int>,
    tpHits: nat,
    slHits: nat,
    signalExits: nat,
    eodExits: nat,
    returnPct: real,
    profitFactor: Ratio,
    days: real,
    monthly: seq<MonthlyPnl>)

  /** Calendar month of an instant; the calendar itself is a parameter. */
  type Calendar = int -> (int, int)

  function CountOf(ts: seq<Trade>, reason: ExitReason): nat {
    if ts == [] then 0
    else CountOf(ts[..|ts|-1], reason) + if ts[|ts|-1].reason == reason then 1 else 0
  }

  function Winners(ts: seq<Trade>): nat {
    if ts == [] then 0 else Winners(ts[..|ts|-1]) + if ts[|ts|-1].netPnl > 0.0 then 1 else 0
  }

  function MonthNet(ts: seq<Trade>, cal: Calendar, key: (int, int)): real {
    if ts == [] then 0.0
    else MonthNet(ts[..|ts|-1], cal, key) + if cal(ts[|ts|-1].exitTime) == key then ts[|ts|-1].netPnl else 0.0
  }

  function SumMonths(ms: seq<MonthlyPnl>): real {
    if ms == [] then 0.0 else SumMonths(ms[..|ms|-1]) + ms[|ms|-1].pnl
  }

  function KeyOf(m: MonthlyPnl): (int, int) {
    (m.year, m.month)
  }

  predicate Before(a: (int, int), b: (int, int)) {
    a.0 < b.0 || (a.0 == b.0 && a.1 < b.1)
  }

  predicate HasMonth(ms: seq<MonthlyPnl>, k: (int, int)) {
    exists m :: m in ms && KeyOf(m) == k
  }

  predicate InCalendarOrder(ms: seq<MonthlyPnl>) {
    forall i, j :: 0 <= i < j < |ms| ==> Before(KeyOf(ms[i]), KeyOf(ms[j]))
  }

  /** Months in calendar order, each once, each with the sum of its trades, and no month missing or invented. */
  predicate MonthsOk(ms: seq<MonthlyPnl>, ts: seq<Trade>, cal: Calendar) {
    && InCalendarOrder(ms)
    && (forall m :: m in ms ==> m.pnl == MonthNet(ts, cal, KeyOf(m)))
    && (forall t :: t in ts ==> HasMonth(ms, cal(t.exitTime)))
    && (forall m :: m in ms ==> exists t :: t in ts && cal(t.exitTime) == KeyOf(m))
  }

  /** Distance from the peak in money, recovered from a sample. */
  function AbsOf(p: EquityPoint): real
    requires 1.0 + p.drawdown > 0.0
  {
    p.equity * p.drawdown / (1.0 + p.drawdown)
  }

  /** Sample p is the deepest one that s reports. */
  predicate Deepest(s: Summary, p: EquityPoint) {
    && p.drawdown == s.maxDrawdown && s.maxDrawdownAt == Some(p.timestamp)
    && (1.0 + p.drawdown > 0.0 ==> s.maxDrawdownAbs == AbsOf(p))
  }

  predicate DrawdownOk(s: Summary, eq: seq<EquityPoint>) {
    && s.maxDrawdown <= 0.0
    && (forall i :: 0 <= i < |eq| ==> s.maxDrawdown <= eq[i].drawdown)
    && (s.maxDrawdown < 0.0 ==> exists i :: 0 <= i < |eq| && Deepest(s, eq[i]))
  }

  /** Profits and losses partition the trades, and so do the exit reasons. */
  predicate CountsOk(s: Summary, ts: seq<Trade>) {
    && s.totalTrades == |ts| == s.wins + s.losses && s.wins == Winners(ts)
    && s.netPnl == NetPnl(ts) == s.grossProfit - s.grossLoss
    && s.grossProfit >= 0.0 && s.grossLoss >= 0.0
    && s.tpHits == CountOf(ts, TakeProfit) && s.slHits == CountOf(ts, StopLoss)
    && s.signalExits == CountOf(ts, BySignal) && s.eodExits == CountOf(ts, EndOfData)
    && s.tpHits + s.slHits + s.signalExits + s.eodExits == s.totalTrades
    && (s.wins > 0 <==> s.grossProfit > 0.0)
  }

  /** Best and worst are attained, or zero when no trade is better or worse than nothing. */
  predicate ExtremesOk(s: Summary, ts: seq<Trade>) {
    && s.worstTrade <= 0.0 <= s.bestTrade
    && (forall i :: 0 <= i < |ts| ==> s.worstTrade <= ts[i].netPnl <= s.bestTrade)
    && (s.bestTrade == 0.0 || exists i :: 0 <= i < |ts| && ts[i].netPnl == s.bestTrade)
    && (s.worstTrade == 0.0 || exists i :: 0 <= i < |ts| && ts[i].netPnl == s.worstTrade)
  }

  const EMPTY := Summary(0, 0, 0, 0.0, 0.0, 0.0, 0.0, 0.0, 0.0, 0.0, 0.0, 0.0, 0.0, 0.0, None, 0, 0, 0, 0, 0.0,
                         Finite(0.0), 0.0, [])

  /** Share x of n in percent. */
  function Percent(x: real, n: real): (p: real)
    requires n > 0.0
    ensures p * n == x * 100.0
  {
    var q := x / n;
    assert q * n == x;
    assert q * 100.0 * n == q * n * 100.0;
    q * 100.0
  }

  /** s carries the totals of tally; averages, drawdown and months are its own. */
  predicate TotalsFrom(s: Summary, tally: Summary) {
    s == tally.(winRate := s.winRate, avgPnl := s.avgPnl, returnPct := s.returnPct, profitFactor := s.profitFactor,
                days := s.days, maxDrawdown := s.maxDrawdown, maxDrawdownAbs := s.maxDrawdownAbs,
                maxDrawdownAt := s.maxDrawdownAt, monthly := s.monthly)
  }

  /** Gross profit over gross loss. */
  function ProfitFactor(grossProfit: real, grossLoss: real): Ratio {
    if grossLoss > 0.0 then Finite(grossProfit / grossLoss)
    else if grossProfit > 0.0 then Infinite
    else Finite(0.0)
  }

  /** A run made money exactly when its profit factor is above one. */
  lemma {:induction false} ProfitFactorMeaning(s: Summary, ts: seq<Trade>)
    requires CountsOk(s, ts)
    ensures var f := ProfitFactor(s.grossProfit, s.grossLoss);
            && (s.netPnl > 0.0 <==> f == Infinite || f.value > 1.0)
            && (s.grossLoss > 0.0 ==> f.Finite? && f.value * s.grossLoss == s.grossProfit)
            && (s.grossLoss == 0.0 ==> f == if s.grossProfit > 0.0 then Infinite else Finite(0.0))
  {
    if s.grossLoss > 0.0 {
      AboveOne(s.grossProfit, s.grossLoss);
    }
  }

  lemma {:induction false} AboveOne(x: real, y: real)
    requires y > 0.0
    ensures x / y > 1.0 <==> x > y
    ensures x / y * y == x
  {
    var q := x / y;
    assert q * y == x;
    Scaled(1.0, q, y);
  }

  /** Days of 86400 seconds between the first and the last bar, zero when a time is missing. */
  predicate DaysOk(days: real, r: Report) {
    if r.startTime == ZERO_TIME || r.endTime == ZERO_TIME then days == 0.0
    else days * 86_400_000_000_000.0 == (r.endTime - r.startTime) as real
  }

  function DaysBetween(start: int, end: int): (d: real)
    ensures d * 86_400_000_000_000.0 == (end - start) as real
  {
    (end - start) as real / NANOS_PER_DAY as real
  }

  method ComputeSummary(r: Report, cal: Calendar) returns (s: Summary)
    ensures TotalsFrom(s, Tally(r.account.trades))
    ensures DrawdownOk(s, r.account.equity)
    ensures MonthsOk(s.monthly, r.account.trades, cal)
    ensures s.winRate == if s.totalTrades > 0 then Percent(s.wins as real, s.totalTrades as real) else 0.0
    ensures s.avgPnl == if s.totalTrades > 0 then s.netPnl / s.totalTrades as real else 0.0
    ensures s.profitFactor == ProfitFactor(s.grossProfit, s.grossLoss) && DaysOk(s.days, r)
    ensures s.returnPct == if r.initialCash > 0.0 then Percent(r.finalEquity - r.initialCash, r.initialCash) else 0.0
  {
    s := TotalTrades(r.account.trades);
    TallyHasNoDrawdown(r.account.trades);
    if s.totalTrades > 0 {
      var winRate, avgPnl := Percent(s.wins as real, s.totalTrades as real), s.netPnl / s.totalTrades as real;
      s := s.(winRate := winRate, avgPnl := avgPnl);
    }
    if s.grossLoss > 0.0 {
      s := s.(profitFactor := Finite(s.grossProfit / s.grossLoss));
    } else if s.grossProfit > 0.0 {
      s := s.(profitFactor := Infinite);
    }
    if r.initialCash > 0.0 {
      s := s.(returnPct := Percent(r.finalEquity - r.initialCash, r.initialCash));
    }
    if r.startTime != ZERO_TIME && r.endTime != ZERO_TIME {
      s := s.(days := DaysBetween(r.startTime, r.endTime));
    }
    s := AddDrawdown(s, r.account.equity);
    var monthly := MonthlyTotals(r.account.trades, cal);
    s := s.(monthly := monthly);
  }

  /** One more trade in the running totals. */
  function AddTrade(s: Summary, t: Trade): Summary {
    var win := t.netPnl > 0.0;
    s.(totalTrades := s.totalTrades + 1,
       wins := s.wins + (if win then 1 else 0),
       losses := s.losses + (if win then 0 else 1),
       grossProfit := s.grossProfit + (if win then t.netPnl else 0.0),
       grossLoss := s.grossLoss - (if win then 0.0 else t.netPnl),
       netPnl := s.netPnl + t.netPnl,
       bestTrade := if t.netPnl > s.bestTrade then t.netPnl else s.bestTrade,
       worstTrade := if t.netPnl < s.worstTrade then t.netPnl else s.worstTrade,
       totalFees := s.totalFees + t.fee,
       totalSlippage := s.totalSlippage + t.slippage,
       tpHits := s.tpHits + (if t.reason == TakeProfit then 1 else 0),
       slHits := s.slHits + (if t.reason == StopLoss then 1 else 0),
       signalExits := s.signalExits + (if t.reason == BySignal then 1 else 0),
       eodExits := s.eodExits + (if t.reason == EndOfData then 1 else 0))
  }

  function Tally(ts: seq<Trade>): Summary {
    if ts == [] then EMPTY else AddTrade(Tally(ts[..|ts|-1]), ts[|ts|-1])
  }

  method TotalTrades(ts: seq<Trade>) returns (s: Summary)
    ensures s == Tally(ts)
  {
    s := EMPTY;
    var i := 0;
    while i < |ts|
      invariant 0 <= i <= |ts|
      invariant s == Tally(ts[..i])
    {
      assert ts[..i+1][..i] == ts[..i];
      s := CountTrade(s, ts[i]);
      i := i + 1;
    }
    assert ts[..i] == ts;
  }

  /** The body of the trade loop. */
  method CountTrade(s0: Summary, t: Trade) returns (s: Summary)
    ensures s == AddTrade(s0, t)
  {
    s := s0.(totalTrades := s0.totalTrades + 1, netPnl := s0.netPnl + t.netPnl, totalFees := s0.totalFees + t.fee,
             totalSlippage := s0.totalSlippage + t.slippage);
    match t.reason {
      case TakeProfit => s := s.(tpHits := s.tpHits + 1);
      case StopLoss => s := s.(slHits := s.slHits + 1);
      case BySignal => s := s.(signalExits := s.signalExits + 1);
      case EndOfData => s := s.(eodExits := s.eodExits + 1);
    }
    if t.netPnl > 0.0 {
      s := s.(wins := s.wins + 1, grossProfit := s.grossProfit + t.netPnl);
    } else {
      s := s.(losses := s.losses + 1, grossLoss := s.grossLoss - t.netPnl);
    }
    if t.netPnl > s.bestTrade {
      s := s.(bestTrade := t.netPnl);
    }
    if t.netPnl < s.worstTrade {
      s := s.(worstTrade := t.netPnl);
    }
  }

  /** The one-pass totals mean what they should: profits and losses partition the trades, so do the reasons. */
  lemma {:induction false} TotalsMeaning(s: Summary, ts: seq<Trade>)
    requires TotalsFrom(s, Tally(ts))
    ensures CountsOk(s, ts) && ExtremesOk(s, ts)
  {
    TallyIsOk(ts);
  }

  lemma {:induction false} TallyIsOk(ts: seq<Trade>)
    ensures CountsOk(Tally(ts), ts) && ExtremesOk(Tally(ts), ts)
    decreases |ts|
  {
    if ts == [] {
    } else {
      TallyIsOk(ts[..|ts|-1]);
      AddKeepsCounts(ts);
      AddKeepsExtremes(ts);
    }
  }

  lemma {:induction false} TallyHasNoDrawdown(ts: seq<Trade>)
    ensures Tally(ts).maxDrawdown == 0.0 && Tally(ts).winRate == Tally(ts).avgPnl == Tally(ts).returnPct == 0.0
    ensures Tally(ts).profitFactor == Finite(0.0) && Tally(ts).days == 0.0
    decreases |ts|
  {
    if ts == [] {
    } else {
      TallyHasNoDrawdown(ts[..|ts|-1]);
    }
  }

  lemma {:induction false} AddKeepsCounts(ts: seq<Trade>)
    requires ts != [] && CountsOk(Tally(ts[..|ts|-1]), ts[..|ts|-1])
    ensures CountsOk(Tally(ts), ts)
  {
    var pre, t := ts[..|ts|-1], ts[|ts|-1];
    var a, b := Tally(pre), Tally(ts);
    assert b == AddTrade(a, t);
    assert b.netPnl == NetPnl(ts) && b.netPnl == b.grossProfit - b.grossLoss;
    assert b.tpHits == CountOf(ts, TakeProfit) && b.slHits == CountOf(ts, StopLoss);
    assert b.signalExits == CountOf(ts, BySignal) && b.eodExits == CountOf(ts, EndOfData);
  }

  lemma {:induction false} AddKeepsExtremes(ts: seq<Trade>)
    requires ts != [] && ExtremesOk(Tally(ts[..|ts|-1]), ts[..|ts|-1])
    ensures ExtremesOk(Tally(ts), ts)
  {
    var n := |ts| - 1;
    var pre, a, b := ts[..n], Tally(ts[..n]), Tally(ts);
    forall k | 0 <= k < |ts| ensures b.worstTrade <= ts[k].netPnl <= b.bestTrade {
      assert k < n ==> pre[k] == ts[k];
    }
    if b.bestTrade != 0.0 && b.bestTrade == a.bestTrade {
      var k :| 0 <= k < n && pre[k].netPnl == a.bestTrade;
      assert ts[k].netPnl == b.bestTrade;
    }
    if b.worstTrade != 0.0 && b.worstTrade == a.worstTrade {
      var k :| 0 <= k < n && pre[k].netPnl == a.worstTrade;
      assert ts[k].netPnl == b.worstTrade;
    }
  }

  method AddDrawdown(s0: Summary, eq: seq<EquityPoint>) returns (s: Summary)
    requires s0.maxDrawdown == 0.0
    ensures DrawdownOk(s, eq)
    ensures s == s0.(maxDrawdown := s.maxDrawdown, maxDrawdownAbs := s.maxDrawdownAbs, maxDrawdownAt := s.maxDrawdownAt)
  {
    s := s0;
    var i := 0;
    while i < |eq|
      invariant 0 <= i <= |eq|
      invariant s.maxDrawdown <= 0.0
      invariant forall k :: 0 <= k < i ==> s.maxDrawdown <= eq[k].drawdown
      invariant s.maxDrawdown < 0.0 ==> exists k :: 0 <= k < i && Deepest(s, eq[k])
      invariant s == s0.(maxDrawdown := s.maxDrawdown, maxDrawdownAbs := s.maxDrawdownAbs,
                         maxDrawdownAt := s.maxDrawdownAt)
    {
      var p := eq[i];
      if p.drawdown < s.maxDrawdown {
        s := s.(maxDrawdown := p.drawdown, maxDrawdownAt := Some(p.timestamp));
        if 1.0 + p.drawdown > 0.0 {
          s := s.(maxDrawdownAbs := AbsOf(p));
        }
        assert Deepest(s, eq[i]);
      }
      i := i + 1;
    }
  }

  // ---------------------------------------------------------------- monthly totals

  method MonthlyTotals(ts: seq<Trade>, cal: Calendar) returns (ms: seq<MonthlyPnl>)
    ensures MonthsOk(ms, ts, cal)
  {
    var totals := SumByMonth(ts, cal);
    ms := [];
    var keys := totals.Keys;
    while keys != {}
      invariant keys <= totals.Keys
      invariant forall m :: m in ms ==> KeyOf(m) in totals.Keys - keys && m.pnl == totals[KeyOf(m)]
      invariant forall k :: k in totals.Keys - keys ==> HasMonth(ms, k)
      invariant InCalendarOrder(ms)
      decreases keys
    {
      var k :| k in keys;
      var month := MonthlyPnl(k.0, k.1, totals[k]);
      InsertMonthKeeps(month, ms);
      ghost var before := ms;
      ms := InsertMonth(month, ms);
      forall q | q in totals.Keys - (keys - {k}) ensures HasMonth(ms, q) {
        if q == k {
          assert month in ms && KeyOf(month) == k;
        } else {
          assert HasMonth(before, q);
          var m :| m in before && KeyOf(m) == q;
          assert m in ms;
        }
      }
      keys := keys - {k};
    }
  }

  method SumByMonth(ts: seq<Trade>, cal: Calendar) returns (m: map<(int, int), real>)
    ensures forall k :: k in m <==> exists t :: t in ts && cal(t.exitTime) == k
    ensures forall k :: k in m ==> m[k] == MonthNet(ts, cal, k)
  {
    m := map[];
    var i := 0;
    assert ts[..|ts|] == ts;
    while i < |ts|
      invariant 0 <= i <= |ts|
      invariant forall k :: k in m <==> exists j :: 0 <= j < i && cal(ts[j].exitTime) == k
      invariant forall k :: k in m ==> m[k] == MonthNet(ts[..i], cal, k)
      invariant forall k :: k !in m ==> MonthNet(ts[..i], cal, k) == 0.0
    {
      var k := cal(ts[i].exitTime);
      assert ts[..i+1][..i] == ts[..i] && ts[..i+1][i] == ts[i];
      m := m[k := (if k in m then m[k] else 0.0) + ts[i].netPnl];
      i := i + 1;
    }
  }

  /** Calendar order is by year, and within a year by month. */
  lemma {:induction false} ByYearThenMonth(ms: seq<MonthlyPnl>, i: nat, j: nat)
    requires InCalendarOrder(ms) && i < j < |ms|
    ensures ms[i].year <= ms[j].year && (ms[i].year == ms[j].year ==> ms[i].month < ms[j].month)
  {
    assert Before(KeyOf(ms[i]), KeyOf(ms[j]));
  }

  /** Calendar order is kept as each month is put in its place. */
  function InsertMonth(m: MonthlyPnl, ms: seq<MonthlyPnl>): seq<MonthlyPnl> {
    if ms == [] || Before(KeyOf(m), KeyOf(ms[0])) then [m] + ms else [ms[0]] + InsertMonth(m, ms[1..])
  }

  lemma {:induction false} InsertMonthKeeps(m: MonthlyPnl, ms: seq<MonthlyPnl>)
    requires InCalendarOrder(ms) && !HasMonth(ms, KeyOf(m))
    ensures InCalendarOrder(InsertMonth(m, ms))
    ensures forall x :: x in InsertMonth(m, ms) <==> x == m || x in ms
  {
    if ms == [] {
    } else {
      assert ms[0] in ms && KeyOf(ms[0]) != KeyOf(m);
      if !Before(KeyOf(m), KeyOf(ms[0])) {
        assert forall x :: x in ms[1..] ==> x in ms;
        InsertMonthKeeps(m, ms[1..]);
        var r := InsertMonth(m, ms[1..]);
        forall j | 0 <= j < |r| ensures Before(KeyOf(ms[0]), KeyOf(r[j])) {
          assert r[j] in r;
          if r[j] != m {
            var k :| 0 <= k < |ms[1..]| && ms[1..][k] == r[j];
          }
        }
      }
    }
  }

  /** The months re-totalled over one trade fewer. */
  function Without(ms: seq<MonthlyPnl>, key: (int, int), amount: real): (r: seq<MonthlyPnl>)
    ensures |r| == |ms|
    ensures forall i :: 0 <= i < |ms| ==>
      r[i] == ms[i].(pnl := ms[i].pnl - if KeyOf(ms[i]) == key then amount else 0.0)
  {
    if ms == [] then []
    else
      var n := |ms| - 1;
      Without(ms[..n], key, amount) + [ms[n].(pnl := ms[n].pnl - if KeyOf(ms[n]) == key then amount else 0.0)]
  }

  lemma {:induction false} SumWithout(ms: seq<MonthlyPnl>, key: (int, int), amount: real)
    requires InCalendarOrder(ms)
    ensures SumMonths(Without(ms, key, amount)) == SumMonths(ms) - if HasMonth(ms, key) then amount else 0.0
    decreases |ms|
  {
    if ms == [] {
    } else {
      var n := |ms| - 1;
      var w := Without(ms, key, amount);
      SumWithout(ms[..n], key, amount);
      assert w[..n] == Without(ms[..n], key, amount);
      assert HasMonth(ms, key) <==> HasMonth(ms[..n], key) || KeyOf(ms[n]) == key by {
        assert ms == ms[..n] + [ms[n]];
        assert ms[n] in ms;
      }
      if HasMonth(ms[..n], key) {
        var m :| m in ms[..n] && KeyOf(m) == key;
      }
    }
  }

  predicate Retotalled(ms: seq<MonthlyPnl>, ts: seq<Trade>, cal: Calendar) {
    forall i :: 0 <= i < |ms| ==> ms[i].pnl == MonthNet(ts, cal, KeyOf(ms[i]))
  }

  predicate NoMonthMissing(ms: seq<MonthlyPnl>, ts: seq<Trade>, cal: Calendar) {
    forall i :: 0 <= i < |ts| ==> HasMonth(ms, cal(ts[i].exitTime))
  }

  /** Monthly results add up to the net result. */
  lemma {:induction false} MonthsAddUp(ms: seq<MonthlyPnl>, ts: seq<Trade>, cal: Calendar)
    requires InCalendarOrder(ms) && Retotalled(ms, ts, cal) && NoMonthMissing(ms, ts, cal)
    ensures SumMonths(ms) == NetPnl(ts)
    decreases |ts|
  {
    if ts == [] {
      AllZero(ms);
    } else {
      var n := |ts| - 1;
      var key, amount := cal(ts[n].exitTime), ts[n].netPnl;
      var w := Without(ms, key, amount);
      SumWithout(ms, key, amount);
      OneTradeLess(ms, ts, cal);
      MonthsAddUp(w, ts[..n], cal);
    }
  }

  lemma {:induction false} OneTradeLess(ms: seq<MonthlyPnl>, ts: seq<Trade>, cal: Calendar)
    requires ts != [] && Retotalled(ms, ts, cal) && NoMonthMissing(ms, ts, cal) && InCalendarOrder(ms)
    ensures var last := ts[|ts|-1];
            var w := Without(ms, cal(last.exitTime), last.netPnl);
            && Retotalled(w, ts[..|ts|-1], cal) && NoMonthMissing(w, ts[..|ts|-1], cal) && InCalendarOrder(w)
            && HasMonth(ms, cal(last.exitTime))
  {
    var n := |ts| - 1;
    var key, amount := cal(ts[n].exitTime), ts[n].netPnl;
    forall i | 0 <= i < n ensures HasMonth(Without(ms, key, amount), cal(ts[..n][i].exitTime)) {
      assert HasMonth(ms, cal(ts[i].exitTime));
      StillHasMonth(ms, key, amount, cal(ts[i].exitTime));
    }
    assert HasMonth(ms, cal(ts[n].exitTime));
  }

  lemma {:induction false} StillHasMonth(ms: seq<MonthlyPnl>, key: (int, int), amount: real, k: (int, int))
    requires HasMonth(ms, k)
    ensures HasMonth(Without(ms, key, amount), k)
  {
    var w := Without(ms, key, amount);
    var m :| m in ms && KeyOf(m) == k;
    var i :| 0 <= i < |ms| && ms[i] == m;
    assert w[i] in w && KeyOf(w[i]) == k;
  }

  lemma {:induction false} AllZero(ms: seq<MonthlyPnl>)
    requires forall i :: 0 <= i < |ms| ==> ms[i].pnl == 0.0
    ensures SumMonths(ms) == 0.0
    decreases |ms|
  {
    if ms == [] {
    } else {
      AllZero(ms[..|ms|-1]);
    }
  }

  lemma {:induction false} MonthsByIndex(ms: seq<MonthlyPnl>, ts: seq<Trade>, cal: Calendar)
    requires MonthsOk(ms, ts, cal)
    ensures Retotalled(ms, ts, cal) && NoMonthMissing(ms, ts, cal)
  {
    forall i | 0 <= i < |ms| ensures ms[i].pnl == MonthNet(ts, cal, KeyOf(ms[i])) {
      assert ms[i] in ms;
    }
    forall i | 0 <= i < |ts| ensures HasMonth(ms, cal(ts[i].exitTime)) {
      assert ts[i] in ts;
    }
  }

  // ---------------------------------------------------------------- one pass against all pairs

  lemma {:induction false} AbsIsDrop(p: EquityPoint, peak: real)
    requires peak > 0.0 && p.equity > 0.0 && p.drawdown == DropFrom(p.equity, peak)
    ensures 1.0 + p.drawdown > 0.0 && AbsOf(p) == p.equity - peak
  {
    var e, d := p.equity, p.drawdown;
    assert d * peak == e - peak;
    var f := 1.0 + d;
    assert f * peak == e;
    assert f > 0.0;
    assert e * d == (f * peak) * d == f * (d * peak) == f * (e - peak);
    QuotientIs(e * d, f, e - peak);
  }

  lemma {:induction false} QuotientIs(x: real, f: real, q: real)
    requires f > 0.0 && x == f * q
    ensures x / f == q
  {
    var r := x / f;
    assert r * f == x;
    assert (r - q) * f == 0.0;
  }

  lemma {:induction false} DeeperFromHigher(e: real, q: real, peak: real)
    requires e >= 0.0 && 0.0 < q <= peak
    ensures DropFrom(e, peak) <= DropFrom(e, q)
  {
    var a, b := DropFrom(e, peak) + 1.0, DropFrom(e, q) + 1.0;
    assert a * peak == e;
    assert b * q == e;
    NonNegativeFactor(b, q);
    assert b * peak - b * q == b * (peak - q);
    assert (b - a) * peak == b * (peak - q);
    NonNegativeFactor(b - a, peak);
  }

  /** No pair of samples shows a deeper relative drop than the reported one, nor does the starting cash. */
  lemma {:induction false} NoDeeperPair(a: Account, initialCash: real, s: Summary, i: nat, level: real)
    requires initialCash > 0.0 && CurveOk(a, initialCash) && DrawdownOk(s, a.equity)
    requires i < |a.equity| && a.equity[i].equity >= 0.0 && level > 0.0
    requires level == initialCash || exists j :: 0 <= j <= i && a.equity[j].equity == level
    ensures s.maxDrawdown <= DropFrom(a.equity[i].equity, level)
  {
    var eq := a.equity;
    var peak := PeakOf(initialCash, eq[..i+1]);
    assert SampleOk(initialCash, eq, i);
    PeakBounds(initialCash, eq[..i+1]);
    if level != initialCash {
      var j :| 0 <= j <= i && eq[j].equity == level;
      assert eq[..i+1][j] == eq[j];
    }
    DeeperFromHigher(eq[i].equity, level, peak);
  }

  /** The reported drawdown is attained against the running peak, and its amount is the distance from it. */
  lemma {:induction false} DrawdownAttained(a: Account, initialCash: real, s: Summary) returns (i: nat, peak: real)
    requires initialCash > 0.0 && CurveOk(a, initialCash) && DrawdownOk(s, a.equity) && s.maxDrawdown < 0.0
    ensures i < |a.equity| && peak > 0.0 && s.maxDrawdown == DropFrom(a.equity[i].equity, peak)
    ensures peak == initialCash || exists j :: 0 <= j <= i && a.equity[j].equity == peak
    ensures a.equity[i].equity > 0.0 ==> s.maxDrawdownAbs == a.equity[i].equity - peak
  {
    var eq := a.equity;
    i :| 0 <= i < |eq| && Deepest(s, eq[i]);
    peak := PeakOf(initialCash, eq[..i+1]);
    assert SampleOk(initialCash, eq, i);
    PeakBounds(initialCash, eq[..i+1]);
    if peak != initialCash {
      var j :| 0 <= j < |eq[..i+1]| && eq[..i+1][j].equity == peak;
      assert eq[j].equity == peak;
    }
    if eq[i].equity > 0.0 {
      AbsIsDrop(eq[i], peak);
    }
  }

  /** Everything that a finished backtest adds up to: it ends flat, its equity is its cash, and that is the starting
      balance plus the net result, which is gross profit less gross loss and also the sum of the months. */
  predicate AddsUp(r: Report, s: Summary) {
    && r.account.position == None
    && r.finalEquity == r.finalCash == r.initialCash + s.netPnl
    && s.netPnl == s.grossProfit - s.grossLoss == SumMonths(s.monthly)
    && s.wins + s.losses == s.totalTrades == s.tpHits + s.slHits + s.signalExits + s.eodExits
  }

  /** The end of the engine's run: the report together with its summary. Every finished backtest adds up. */
  method RunBacktest<S>(engine: Engine<S>, source: Source, s0: S, cal: Calendar)
    returns (r: Outcome, s: Option<Summary>)
    requires Tradable(engine.cfg, Delivered(source.items))
    modifies source
    ensures r.Finished? <==> s.Some?
    ensures r.Finished? <==>
      && engine.cfg.simulator.initialBalance > 0.0 && Failures(old(source.items)) == 0
      && Replay(engine.cfg, engine.strat, s0, Delivered(old(source.items)), |Delivered(old(source.items))|).Some?
    ensures r.Finished? ==>
      && AddsUp(r.report, s.value)
      && TotalsFrom(s.value, Tally(r.report.account.trades)) && DrawdownOk(s.value, r.report.account.equity)
      && MonthsOk(s.value.monthly, r.report.account.trades, cal)
  {
    ghost var bars := Delivered(source.items);
    r := engine.Run(source, s0);
    s := None;
    if r.Finished? {
      var summary := ComputeSummary(r.report, cal);
      s := Some(summary);
      BacktestAddsUp(engine.cfg, engine.strat, s0, bars, summary, cal);
    }
  }

  lemma {:induction false} BacktestAddsUp<S>(cfg: EngineConfig, strat: Strategy<S>, s0: S, bars: seq<Bar>, s: Summary,
                                             cal: Calendar)
    requires Tradable(cfg, bars) && cfg.simulator.initialBalance > 0.0
    requires Replay(cfg, strat, s0, bars, |bars|).Some?
    requires var ts := ReportOf(cfg, bars, Replay(cfg, strat, s0, bars, |bars|).value.account).account.trades;
             TotalsFrom(s, Tally(ts)) && MonthsOk(s.monthly, ts, cal)
    ensures AddsUp(ReportOf(cfg, bars, Replay(cfg, strat, s0, bars, |bars|).value.account), s)
  {
    var arrived := Replay(cfg, strat, s0, bars, |bars|).value.account;
    EndsFlat(cfg, strat, s0, bars);
    SummaryAddsUp(s, Drained(cfg, arrived, bars).trades, cal);
    FlatReport(cfg, bars, arrived);
  }

  lemma {:induction false} SummaryAddsUp(s: Summary, ts: seq<Trade>, cal: Calendar)
    requires TotalsFrom(s, Tally(ts)) && MonthsOk(s.monthly, ts, cal)
    ensures NetPnl(ts) == s.netPnl == s.grossProfit - s.grossLoss == SumMonths(s.monthly)
    ensures s.wins + s.losses == s.totalTrades == s.tpHits + s.slHits + s.signalExits + s.eodExits
  {
    TotalsMeaning(s, ts);
    MonthsByIndex(s.monthly, ts, cal);
    MonthsAddUp(s.monthly, ts, cal);
  }

  lemma {:induction false} FlatReport(cfg: EngineConfig, bars: seq<Bar>, arrived: Account)
    requires Drained(cfg, arrived, bars).position == None
    ensures var r := ReportOf(cfg, bars, arrived);
            && r.account == Drained(cfg, arrived, bars)
            && r.finalEquity == r.finalCash == r.account.cash
            && r.initialCash == cfg.simulator.initialBalance
  {}
}
