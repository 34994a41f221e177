/** What the daily limit and the trade interval guarantee over whole runs of signals when no order is in flight: each
    accepted signal is on record as a trade before the next one is checked. */
module RiskLaws {
  import opened Options
  import opened History
  import opened Lots
  import opened Signals
  import opened RiskManager

  /** A trade on record; a forced exit is exempt from the limits but counts for later signals. */
  datatype Entry = Entry(at: int, forced: bool)

  /** One signal and what can be read while it is checked; the trades themselves come from the record. */
  datatype Attempt = Attempt(action: Action, reason: string, price: real, quantity: real, facts: RiskReads)

  /** Number of trades the daily check reads. */
  const RECENT: nat := 100

  function StampOf(e: Entry): Stamp {
    Stamp(e.at, e.at, 0.0)
  }

  /** Latest first. */
  function Reversed(log: seq<Entry>): (r: seq<Stamp>)
    ensures |r| == |log|
  {
    if log == [] then [] else [StampOf(log[|log|-1])] + Reversed(log[..|log|-1])
  }

  /** The n most recent trades of a record that is kept in order of execution. */
  function RecentTrades(log: seq<Entry>, n: nat): seq<Stamp> {
    Reversed(LastN(log, n))
  }

  /** What the check of an attempt reads: the record, unless the read fails. */
  function ReadsFor(log: seq<Entry>, a: Attempt): RiskReads {
    WithTrades(a.facts, RecentTrades(log, RECENT), RecentTrades(log, 1))
  }

  /** The facts with what the two reads of trades yield, unless they fail. */
  function WithTrades(facts: RiskReads, recent: seq<Stamp>, latest: seq<Stamp>): RiskReads {
    facts.(recent := if facts.recent.Some? then Some(recent) else None,
           latest := if facts.latest.Some? then Some(latest) else None)
  }

  predicate Accepted(cfg: RiskConfig, log: seq<Entry>, a: Attempt) {
    RiskOk(cfg, a.action, a.reason, a.price, a.quantity, ReadsFor(log, a))
  }

  /** The record after a run of attempts; every accepted one is recorded before the next is checked. */
  function RecordOf(cfg: RiskConfig, attempts: seq<Attempt>): seq<Entry> {
    if attempts == [] then []
    else
      var log, a := RecordOf(cfg, attempts[..|attempts|-1]), attempts[|attempts|-1];
      if Accepted(cfg, log, a) then log + [Entry(a.facts.now, IsForcedExitSell(a.action, a.reason))] else log
  }

  predicate ClockRuns(attempts: seq<Attempt>) {
    forall i, j :: 0 <= i < j < |attempts| ==> attempts[i].facts.now <= attempts[j].facts.now
  }

  predicate InOrder(log: seq<Entry>, now: int) {
    && (forall i, j :: 0 <= i < j < |log| ==> log[i].at <= log[j].at)
    && (forall i :: 0 <= i < |log| ==> log[i].at <= now)
  }

  function OrdinaryOn(log: seq<Entry>, day: int): nat {
    if log == [] then 0
    else
      var e := log[|log|-1];
      OrdinaryOn(log[..|log|-1], day) + if !e.forced && JstDay(e.at) == day then 1 else 0
  }

  function AllOn(log: seq<Entry>, day: int): nat {
    if log == [] then 0
    else AllOn(log[..|log|-1], day) + if JstDay(log[|log|-1].at) == day then 1 else 0
  }

  lemma {:induction false} OrdinaryWithinAll(log: seq<Entry>, day: int)
    ensures OrdinaryOn(log, day) <= AllOn(log, day) <= |log|
    decreases |log|
  {
    if log == [] {
    } else {
      OrdinaryWithinAll(log[..|log|-1], day);
    }
  }

  lemma {:induction false} CountReversed(log: seq<Entry>, day: int)
    ensures CountOn(Reversed(log), day) == AllOn(log, day)
    decreases |log|
  {
    if log == [] {
    } else {
      CountReversed(log[..|log|-1], day);
      assert Reversed(log)[1..] == Reversed(log[..|log|-1]);
    }
  }

  lemma {:induction false} LaterDay(a: int, b: int)
    requires a <= b
    ensures JstDay(a) <= JstDay(b)
  {}

  lemma {:induction false} AllOnAppend(x: seq<Entry>, y: seq<Entry>, day: int)
    ensures AllOn(x + y, day) == AllOn(x, day) + AllOn(y, day)
    decreases |y|
  {
    if y == [] {
      assert x + y == x;
    } else {
      assert (x + y)[..|x + y|-1] == x + y[..|y|-1];
      AllOnAppend(x, y[..|y|-1], day);
    }
  }

  lemma {:induction false} NoneOn(log: seq<Entry>, day: int)
    requires forall i :: 0 <= i < |log| ==> JstDay(log[i].at) != day
    ensures AllOn(log, day) == 0
    decreases |log|
  {
    if log == [] {
    } else {
      NoneOn(log[..|log|-1], day);
    }
  }

  lemma {:induction false} FullDay(log: seq<Entry>, day: int)
    requires forall i :: 0 <= i < |log| ==> JstDay(log[i].at) == day
    ensures AllOn(log, day) == |log|
    decreases |log|
  {
    if log == [] {
    } else {
      FullDay(log[..|log|-1], day);
    }
  }

  /** If fewer than RECENT of the trades that are read fall on today, then none of the unread ones does. */
  lemma {:induction false} RecentCountsAll(log: seq<Entry>, now: int)
    requires InOrder(log, now) && AllOn(LastN(log, RECENT), JstDay(now)) < RECENT
    ensures AllOn(LastN(log, RECENT), JstDay(now)) == AllOn(log, JstDay(now))
  {
    var today := JstDay(now);
    if |log| > RECENT {
      var k := |log| - RECENT;
      var unread, recent := log[..k], log[k..];
      assert log == unread + recent;
      if JstDay(recent[0].at) == today {
        forall i | 0 <= i < |recent| ensures JstDay(recent[i].at) == today {
          assert recent[i] == log[k + i] && recent[0] == log[k];
          LaterDay(recent[0].at, recent[i].at);
          LaterDay(recent[i].at, now);
        }
        FullDay(recent, today);
        assert false;
      }
      forall i | 0 <= i < |unread| ensures JstDay(unread[i].at) != today {
        LaterDay(unread[i].at, recent[0].at);
        LaterDay(recent[0].at, now);
      }
      NoneOn(unread, today);
      AllOnAppend(unread, recent, today);
    }
  }

  lemma {:induction false} RecordInOrder(cfg: RiskConfig, attempts: seq<Attempt>, now: int)
    requires ClockRuns(attempts) && (attempts != [] ==> attempts[|attempts|-1].facts.now <= now)
    ensures InOrder(RecordOf(cfg, attempts), now)
    decreases |attempts|
  {
    if attempts == [] {
    } else {
      var n := |attempts| - 1;
      RecordInOrder(cfg, attempts[..n], attempts[n].facts.now);
    }
  }

  function Bound(cfg: RiskConfig): nat {
    if cfg.maxDailyTrades < 0 then 0 else cfg.maxDailyTrades
  }

  /** Over any run with a clock that does not go back, a limit of at most RECENT trades a day is kept on every day in
      Japan by all signals that are not forced exits. */
  lemma {:induction false} DailyLimitHolds(cfg: RiskConfig, attempts: seq<Attempt>, day: int)
    requires ClockRuns(attempts) && cfg.maxDailyTrades <= RECENT
    ensures OrdinaryOn(RecordOf(cfg, attempts), day) <= Bound(cfg)
    decreases |attempts|
  {
    if attempts == [] {
    } else {
      var n := |attempts| - 1;
      var log, a := RecordOf(cfg, attempts[..n]), attempts[n];
      DailyLimitHolds(cfg, attempts[..n], day);
      RecordInOrder(cfg, attempts[..n], a.facts.now);
      if Accepted(cfg, log, a) {
        var e := Entry(a.facts.now, IsForcedExitSell(a.action, a.reason));
        assert (log + [e])[..|log|] == log;
        if !e.forced && JstDay(e.at) == day {
          CountReversed(LastN(log, RECENT), day);
          RecentCountsAll(log, a.facts.now);
          OrdinaryWithinAll(log, day);
        }
      }
    }
  }

  /** Over any such run, a signal that is not a forced exit is recorded no sooner than the minimum interval after the
      trade before it, forced exits included. */
  lemma {:induction false} IntervalHolds(cfg: RiskConfig, attempts: seq<Attempt>, i: nat)
    requires 0 < i < |RecordOf(cfg, attempts)| && !RecordOf(cfg, attempts)[i].forced
    ensures RecordOf(cfg, attempts)[i].at - RecordOf(cfg, attempts)[i-1].at
         >= Gap(cfg)
    decreases |attempts|
  {
    var n := |attempts| - 1;
    var log := RecordOf(cfg, attempts[..n]);
    if i < |log| {
      IntervalHolds(cfg, attempts[..n], i);
    } else {
      assert LastN(log, 1) == [log[i-1]];
    }
  }

  // ---------------------------------------------------------------- what a day has room for

  /** Midnight in Japan. */
  function DayStart(day: int): int {
    day * NANOS_PER_DAY - 9 * NANOS_PER_HOUR
  }

  lemma {:induction false} WithinDay(t: int)
    ensures DayStart(JstDay(t)) <= t < DayStart(JstDay(t)) + NANOS_PER_DAY
  {}

  /** The instant n gaps after another. */
  function TimeAt(from: int, gap: int, n: nat): int {
    if n == 0 then from else TimeAt(from, gap, n - 1) + gap
  }

  lemma {:induction false} TimeAtIs(from: int, gap: int, n: nat)
    ensures TimeAt(from, gap, n) == from + n * gap
  {
    if n == 0 {
    } else {
      TimeAtIs(from, gap, n - 1);
      assert n * gap == (n - 1) * gap + gap;
    }
  }

  /** How many trades a gap apart fit into one day. */
  function PerDay(gap: int): int
    requires gap > 0
  {
    1 + (NANOS_PER_DAY - 1) / gap
  }

  /** n gaps fit into a day exactly when n is below PerDay. */
  lemma {:induction false} FitsIntoDay(from: int, gap: int, n: nat)
    requires gap > 0
    ensures TimeAt(from, gap, n) < from + NANOS_PER_DAY <==> n < PerDay(gap)
  {
    TimeAtIs(from, gap, n);
    QuotientBound(NANOS_PER_DAY - 1, gap, n);
  }

  lemma {:induction false} QuotientBound(x: int, gap: int, n: nat)
    requires gap > 0
    ensures n * gap <= x <==> n <= x / gap
  {
    var q := x / gap;
    assert x == q * gap + x % gap;
    if n <= q {
      TimesMonotone(n, q, gap);
    } else {
      TimesMonotone(q + 1, n, gap);
      assert (q + 1) * gap == q * gap + gap;
    }
  }

  lemma {:induction false} TimesMonotone(a: int, b: int, k: int)
    requires a <= b && k > 0
    ensures a * k <= b * k
  {
    var d := b - a;
    assert d * k >= 0;
    assert b * k == a * k + d * k;
  }

  /** The ordinary trades of a day spread out from midnight. */
  predicate Spread(log: seq<Entry>, gap: int, day: int)
    requires gap > 0
  {
    var n := OrdinaryOn(log, day);
    n <= PerDay(gap) && (n > 0 ==> log != [] && TimeAt(DayStart(day), gap, n - 1) <= log[|log|-1].at)
  }

  lemma {:induction false} SpreadAppend(log: seq<Entry>, e: Entry, gap: int, day: int)
    requires gap > 0 && Spread(log, gap, day)
    requires log != [] ==> log[|log|-1].at <= e.at && (e.forced || log[|log|-1].at + gap <= e.at)
    ensures Spread(log + [e], gap, day)
  {
    assert (log + [e])[..|log|] == log;
    if !e.forced && JstDay(e.at) == day {
      SpreadStep(gap, OrdinaryOn(log, day), e.at);
    }
  }

  /** One more trade of the day, a gap after n others. */
  lemma {:induction false} SpreadStep(gap: int, n: nat, at: int)
    requires gap > 0 && (n > 0 ==> TimeAt(DayStart(JstDay(at)), gap, n - 1) + gap <= at)
    ensures TimeAt(DayStart(JstDay(at)), gap, n) <= at && n + 1 <= PerDay(gap)
  {
    WithinDay(at);
    FitsIntoDay(DayStart(JstDay(at)), gap, n);
  }

  /** In order of time, and every trade but a forced exit a gap after the one before it. */
  predicate GapsKept(log: seq<Entry>, gap: int) {
    forall i :: 0 < i < |log| ==> log[i-1].at <= log[i].at && (log[i].forced || log[i-1].at + gap <= log[i].at)
  }

  lemma {:induction false} GapsSpread(log: seq<Entry>, gap: int, day: int)
    requires gap > 0 && GapsKept(log, gap)
    ensures Spread(log, gap, day)
    decreases |log|
  {
    if log == [] {
    } else {
      var n := |log| - 1;
      GapsSpread(log[..n], gap, day);
      SpreadAppend(log[..n], log[n], gap, day);
      assert log == log[..n] + [log[n]];
    }
  }

  /** So a day has room for no more than PerDay of them, whatever the daily limit is. */
  lemma {:induction false} OrdinarySpread(cfg: RiskConfig, attempts: seq<Attempt>, day: int)
    requires ClockRuns(attempts) && Gap(cfg) > 0
    ensures Spread(RecordOf(cfg, attempts), Gap(cfg), day)
  {
    var log := RecordOf(cfg, attempts);
    RecordInOrder(cfg, attempts, if attempts == [] then 0 else attempts[|attempts|-1].facts.now);
    forall i | 0 < i < |log| ensures log[i].forced || log[i-1].at + Gap(cfg) <= log[i].at {
      if !log[i].forced {
        IntervalHolds(cfg, attempts, i);
      }
    }
    GapsSpread(log, Gap(cfg), day);
  }

  lemma {:induction false} RecordSnoc(cfg: RiskConfig, attempts: seq<Attempt>, a: Attempt)
    ensures var log, e := RecordOf(cfg, attempts), Entry(a.facts.now, IsForcedExitSell(a.action, a.reason));
            RecordOf(cfg, attempts + [a]) == (if Accepted(cfg, log, a) then log + [e] else log)
  {
    assert (attempts + [a])[..|attempts|] == attempts;
  }

  // ---------------------------------------------------------------- a limit above what is read

  /** An ordinary SELL at the given instant, with readable balances and no loss on record. */
  function SellAt(now: int): Attempt {
    Attempt(Sell, "", 1.0, 1.0, RiskReads(now, Some([]), false, None, Some([]), Some([]), Some([]), Some([]), None))
  }

  /** n SELLs, a gap apart. */
  function Paced(from: int, gap: int, n: nat): (r: seq<Attempt>)
    ensures |r| == n
  {
    if n == 0 then [] else Paced(from, gap, n - 1) + [SellAt(TimeAt(from, gap, n - 1))]
  }

  function PacedEntries(from: int, gap: int, n: nat): (r: seq<Entry>)
    ensures |r| == n
  {
    if n == 0 then [] else PacedEntries(from, gap, n - 1) + [Entry(TimeAt(from, gap, n - 1), false)]
  }

  lemma {:induction false} AcceptsNext(cfg: RiskConfig, log: seq<Entry>, now: int)
    requires cfg.maxDailyTrades > RECENT && (log != [] ==> log[|log|-1].at + Gap(cfg) <= now)
    ensures Accepted(cfg, log, SellAt(now))
  {
    CountReversed(LastN(log, RECENT), JstDay(now));
    OrdinaryWithinAll(LastN(log, RECENT), JstDay(now));
    if log != [] {
      assert LastN(log, 1) == [log[|log|-1]];
      assert RecentTrades(log, 1)[0].executedAt == log[|log|-1].at;
    }
  }

  lemma {:induction false} PacedAdvance(from: int, gap: int, n: nat)
    requires gap >= 0
    ensures ClockRuns(Paced(from, gap, n))
    ensures forall i :: 0 <= i < n ==> Paced(from, gap, n)[i].facts.now <= TimeAt(from, gap, n)
  {
    if n == 0 {
    } else {
      PacedAdvance(from, gap, n - 1);
    }
  }

  lemma {:induction false} LastPaced(from: int, gap: int, n: nat)
    ensures n > 0 ==> PacedEntries(from, gap, n)[n-1].at + gap == TimeAt(from, gap, n)
  {}

  lemma {:induction false} AllPacedAccepted(cfg: RiskConfig, from: int, gap: int, n: nat)
    requires cfg.maxDailyTrades > RECENT && gap >= Gap(cfg)
    ensures RecordOf(cfg, Paced(from, gap, n)) == PacedEntries(from, gap, n)
  {
    if n == 0 {
    } else {
      AllPacedAccepted(cfg, from, gap, n - 1);
      var now := TimeAt(from, gap, n - 1);
      LastPaced(from, gap, n - 1);
      AcceptsNext(cfg, PacedEntries(from, gap, n - 1), now);
      RecordSnoc(cfg, Paced(from, gap, n - 1), SellAt(now));
      assert !IsForcedExitSell(Sell, "");
    }
  }

  lemma {:induction false} PacedInOneDay(day: int, gap: int, n: nat)
    requires gap >= 0 && (n > 0 ==> TimeAt(DayStart(day), gap, n - 1) < DayStart(day) + NANOS_PER_DAY)
    ensures OrdinaryOn(PacedEntries(DayStart(day), gap, n), day) == n
  {
    if n == 0 {
    } else {
      PacedInOneDay(day, gap, n - 1);
      var es, t := PacedEntries(DayStart(day), gap, n), TimeAt(DayStart(day), gap, n - 1);
      assert es[..n-1] == PacedEntries(DayStart(day), gap, n - 1);
      NotBefore(DayStart(day), gap, n - 1);
      DayOf(day, t);
    }
  }

  lemma {:induction false} NotBefore(from: int, gap: int, n: nat)
    requires gap >= 0
    ensures TimeAt(from, gap, n) >= from
  {
    if n == 0 {
    } else {
      NotBefore(from, gap, n - 1);
    }
  }

  lemma {:induction false} DayOf(day: int, t: int)
    requires DayStart(day) <= t < DayStart(day) + NANOS_PER_DAY
    ensures JstDay(t) == day
  {}

  /** A daily limit above RECENT limits nothing: any number of signals that the interval lets into one day is accepted,
      because only RECENT trades are ever counted. */
  lemma {:induction false} HighLimitIsNone(cfg: RiskConfig, day: int, n: nat)
    requires cfg.maxDailyTrades > RECENT && (Gap(cfg) > 0 ==> n <= PerDay(Gap(cfg)))
    ensures exists attempts :: ClockRuns(attempts) && OrdinaryOn(RecordOf(cfg, attempts), day) == n
  {
    var gap := if Gap(cfg) > 0 then Gap(cfg) else 0;
    if n > 0 {
      if gap > 0 {
        FitsIntoDay(DayStart(day), gap, n - 1);
      } else {
        TimeAtIs(DayStart(day), 0, n - 1);
      }
    }
    PacedAdvance(DayStart(day), gap, n);
    AllPacedAccepted(cfg, DayStart(day), gap, n);
    PacedInOneDay(day, gap, n);
    assert ClockRuns(Paced(DayStart(day), gap, n));
  }

  /** The daily limit is kept by every run, on every day. */
  ghost predicate LimitKept(cfg: RiskConfig) {
    forall attempts, day :: ClockRuns(attempts) ==> OrdinaryOn(RecordOf(cfg, attempts), day) <= Bound(cfg)
  }

  /** For every configuration: the daily limit is kept exactly when it is at most RECENT, or when the interval leaves
      the day no room to exceed it. */
  lemma {:induction false} DailyLimitIffRead(cfg: RiskConfig)
    ensures LimitKept(cfg)
       <==> cfg.maxDailyTrades <= RECENT || (Gap(cfg) > 0 && PerDay(Gap(cfg)) <= cfg.maxDailyTrades)
  {
    if cfg.maxDailyTrades <= RECENT {
      forall attempts, day | ClockRuns(attempts) ensures OrdinaryOn(RecordOf(cfg, attempts), day) <= Bound(cfg) {
        DailyLimitHolds(cfg, attempts, day);
      }
    } else if Gap(cfg) > 0 && PerDay(Gap(cfg)) <= cfg.maxDailyTrades {
      forall attempts, day | ClockRuns(attempts) ensures OrdinaryOn(RecordOf(cfg, attempts), day) <= Bound(cfg) {
        OrdinarySpread(cfg, attempts, day);
      }
    } else {
      HighLimitIsNone(cfg, 0, cfg.maxDailyTrades + 1);
    }
  }

  /** With the default interval that means: at most RECENT, or at least 288. */
  lemma {:induction false} DefaultInterval(cfg: RiskConfig)
    requires cfg.minTradeInterval == 0
    ensures LimitKept(cfg) <==> cfg.maxDailyTrades <= 100 || cfg.maxDailyTrades >= 288
  {
    DailyLimitIffRead(cfg);
  }
}
