/** The daily limit and the trade interval when orders are in flight: an order is placed when its signal is accepted,
    but its trade is on record only once the order monitor has finished, and signals are checked in between. */
module OrdersInFlight {
  import opened Options
  import opened History
  import opened Lots
  import opened Signals
  import opened RiskManager
  import opened RiskLaws

  /** A placed order; executedAt is known once its trade is on record. */
  datatype Order = Order(createdAt: int, forced: bool, executedAt: Option<int>)

  /** What happens to the orders, numbered in the order of placement: a signal is checked and, if accepted, placed or
      not; or the trade of an order goes on record, in any order. recent and latest number the trades that the two
      checks read. */
  datatype Event =
    | Checked(a: Attempt, passes: bool, placed: bool, recent: seq<nat>, latest: seq<nat>)
    | Recorded(order: nat, executedAt: int, now: int)
  {
    function Time(): int {
      if Checked? then a.facts.now else now
    }
  }

  predicate OnRecord(os: seq<Order>, k: nat) {
    k < |os| && os[k].executedAt.Some?
  }

  /** ks are n trades on record with the latest executions, or all of them if there are fewer, latest first; which of
      several trades executed at the same instant are among them is left open. */
  predicate Latest(os: seq<Order>, ks: seq<nat>, n: nat) {
    && |ks| <= n && AllOnRecord(os, ks) && Distinct(ks) && LatestFirst(os, ks)
    && (forall k {:trigger Unread(os, ks, k)} :: 0 <= k < |os| && Unread(os, ks, k) ==>
          |ks| == n && NotLater(os, ks, k))
  }

  predicate AllOnRecord(os: seq<Order>, ks: seq<nat>) {
    forall i :: 0 <= i < |ks| ==> OnRecord(os, ks[i])
  }

  predicate Distinct(ks: seq<nat>) {
    forall i, j :: 0 <= i < j < |ks| ==> ks[i] != ks[j]
  }

  predicate LatestFirst(os: seq<Order>, ks: seq<nat>)
    requires AllOnRecord(os, ks)
  {
    forall i, j :: 0 <= i < j < |ks| ==> os[ks[i]].executedAt.value >= os[ks[j]].executedAt.value
  }

  /** Order k was executed no later than any of ks. */
  predicate NotLater(os: seq<Order>, ks: seq<nat>, k: nat)
    requires AllOnRecord(os, ks) && OnRecord(os, k)
  {
    forall i :: 0 <= i < |ks| ==> os[k].executedAt.value <= os[ks[i]].executedAt.value
  }

  /** A trade on record that is not among ks. */
  predicate Unread(os: seq<Order>, ks: seq<nat>, k: nat) {
    OnRecord(os, k) && k !in ks
  }

  function StampFor(o: Order): Stamp {
    Stamp(o.createdAt, if o.executedAt.Some? then o.executedAt.value else o.createdAt, 0.0)
  }

  function StampsOf(os: seq<Order>, ks: seq<nat>): (r: seq<Stamp>)
    requires forall i :: 0 <= i < |ks| ==> ks[i] < |os|
    ensures |r| == |ks|
  {
    if ks == [] then [] else [StampFor(os[ks[0]])] + StampsOf(os, ks[1..])
  }

  /** What the check of an attempt reads: the trades on record, unless the read fails. */
  function FactsFor(os: seq<Order>, a: Attempt, recent: seq<nat>, latest: seq<nat>): RiskReads
    requires Latest(os, recent, RECENT) && Latest(os, latest, 1)
  {
    WithTrades(a.facts, StampsOf(os, recent), StampsOf(os, latest))
  }

  predicate Forced(a: Attempt) {
    IsForcedExitSell(a.action, a.reason)
  }

  function After(os: seq<Order>, e: Event): seq<Order> {
    match e
    case Checked(a, passes, placed, _, _) =>
      if passes && placed then os + [Order(a.facts.now, Forced(a), None)] else os
    case Recorded(k, executedAt, _) =>
      if k < |os| then os[k := os[k].(executedAt := Some(executedAt))] else os
  }

  function Run(events: seq<Event>): seq<Order> {
    if events == [] then [] else After(Run(events[..|events|-1]), events[|events|-1])
  }

  /** Checks read the latest trades and decide as the risk manager does; a trade goes on record once, executed between
      its placement and now. */
  predicate LegalEvent(cfg: RiskConfig, os: seq<Order>, e: Event) {
    match e
    case Checked(a, passes, _, recent, latest) =>
      && Latest(os, recent, RECENT) && Latest(os, latest, 1)
      && (passes <==> RiskOk(cfg, a.action, a.reason, a.price, a.quantity, FactsFor(os, a, recent, latest)))
    case Recorded(k, executedAt, now) =>
      k < |os| && os[k].executedAt.None? && os[k].createdAt <= executedAt <= now
  }

  predicate EndsBy(events: seq<Event>, at: int) {
    events != [] ==> events[|events|-1].Time() <= at
  }

  predicate LegalAt(cfg: RiskConfig, events: seq<Event>, n: nat)
    requires n < |events|
  {
    LegalEvent(cfg, Run(events[..n]), events[n]) && (n > 0 ==> events[n-1].Time() <= events[n].Time())
  }

  /** Every event is legal after those before it, and the clock does not go back. */
  predicate Legal(cfg: RiskConfig, events: seq<Event>) {
    forall n {:trigger LegalAt(cfg, events, n)} :: 0 <= n < |events| ==> LegalAt(cfg, events, n)
  }

  lemma {:induction false} LegalLast(cfg: RiskConfig, events: seq<Event>)
    requires Legal(cfg, events) && events != []
    ensures var pre, e := events[..|events|-1], events[|events|-1];
            Legal(cfg, pre) && LegalEvent(cfg, Run(pre), e) && EndsBy(pre, e.Time())
  {
    var pre := events[..|events|-1];
    assert LegalAt(cfg, events, |events| - 1);
    forall n | 0 <= n < |pre| ensures LegalAt(cfg, pre, n) {
      assert LegalAt(cfg, events, n);
      assert pre[..n] == events[..n];
    }
  }

  // ---------------------------------------------------------------- orders in flight

  function InFlight(os: seq<Order>): set<nat> {
    set k | 0 <= k < |os| && os[k].executedAt.None?
  }

  function CreatedOn(os: seq<Order>, day: int): set<nat> {
    set k | 0 <= k < |os| && JstDay(os[k].createdAt) == day
  }

  function OrdinaryOrders(os: seq<Order>, day: int): set<nat> {
    set k | 0 <= k < |os| && JstDay(os[k].createdAt) == day && !os[k].forced
  }

  /** Orders that were in flight at midnight and executed on the new day. */
  function CarriedInto(os: seq<Order>, day: int): set<nat> {
    set k | 0 <= k < |os| && OnRecord(os, k) && JstDay(os[k].createdAt) < day == JstDay(os[k].executedAt.value)
  }

  /** Nothing is created or executed in the future, or executed before it is created. */
  predicate InTime(os: seq<Order>, now: int) {
    forall k :: 0 <= k < |os| ==>
      os[k].createdAt <= now && (os[k].executedAt.Some? ==> os[k].createdAt <= os[k].executedAt.value <= now)
  }

  lemma {:induction false} RunInTime(cfg: RiskConfig, events: seq<Event>, now: int)
    requires Legal(cfg, events) && EndsBy(events, now)
    ensures InTime(Run(events), now)
    decreases |events|
  {
    if events == [] {
    } else {
      var pre, e := events[..|events|-1], events[|events|-1];
      LegalLast(cfg, events);
      RunInTime(cfg, pre, e.Time());
      AfterInTime(cfg, Run(pre), e);
    }
  }

  lemma {:induction false} AfterInTime(cfg: RiskConfig, os: seq<Order>, e: Event)
    requires InTime(os, e.Time()) && LegalEvent(cfg, os, e)
    ensures InTime(After(os, e), e.Time())
  {
    if e.Checked? {
      PlacedOrNot(os, e);
    }
  }

  /** A checked signal adds one order, or none. */
  lemma {:induction false} PlacedOrNot(os: seq<Order>, e: Event)
    requires e.Checked?
    ensures After(os, e) == os || After(os, e) == os + [Order(e.Time(), Forced(e.a), None)]
  {}

  // ---------------------------------------------------------------- the daily limit

  function Members(ks: seq<nat>): set<nat> {
    set k | k in ks
  }

  lemma {:induction false} MembersHead(ks: seq<nat>)
    requires ks != [] && Distinct(ks)
    ensures Members(ks) == {ks[0]} + Members(ks[1..]) && ks[0] !in Members(ks[1..]) && Distinct(ks[1..])
  {
    assert ks == [ks[0]] + ks[1..];
  }

  lemma {:induction false} MembersCard(ks: seq<nat>)
    requires Distinct(ks)
    ensures |Members(ks)| == |ks|
  {
    if ks == [] {
      assert Members(ks) == {};
    } else {
      MembersHead(ks);
      MembersCard(ks[1..]);
    }
  }

  lemma {:induction false} CardWithHead(k: nat, x: set<nat>, y: set<nat>)
    requires k !in x
    ensures |({k} + x) * y| == |x * y| + if k in y then 1 else 0
  {
    if k in y {
      assert ({k} + x) * y == {k} + x * y;
    } else {
      assert ({k} + x) * y == x * y;
    }
  }

  lemma {:induction false} CountIsCard(os: seq<Order>, ks: seq<nat>, day: int)
    requires Distinct(ks) && forall i :: 0 <= i < |ks| ==> ks[i] < |os|
    ensures CountOn(StampsOf(os, ks), day) == |Members(ks) * CreatedOn(os, day)|
    decreases |ks|
  {
    if ks == [] {
      assert Members(ks) * CreatedOn(os, day) == {};
    } else {
      MembersHead(ks);
      CountIsCard(os, ks[1..], day);
      CardWithHead(ks[0], Members(ks[1..]), CreatedOn(os, day));
      assert StampsOf(os, ks)[1..] == StampsOf(os, ks[1..]);
      assert ks[0] in CreatedOn(os, day) <==> JstDay(os[ks[0]].createdAt) == day;
    }
  }

  lemma {:induction false} SubsetCard(x: set<nat>, y: set<nat>)
    requires x <= y
    ensures |x| <= |y|
    decreases y
  {
    if y == {} {
    } else {
      var k :| k in y;
      if k in x {
        SubsetCard(x - {k}, y - {k});
      } else {
        SubsetCard(x, y - {k});
      }
    }
  }

  lemma {:induction false} UnionCard(x: set<nat>, y: set<nat>)
    ensures |x + y| <= |x| + |y|
  {
    assert x + y == x + (y - x);
    SubsetCard(y - x, y);
  }

  /** If so few of the trades read fall on today that carried-over ones cannot have crowded out others, then every
      trade of today that is on record has been read. */
  lemma {:induction false} TodayIsRead(os: seq<Order>, recent: seq<nat>, now: int, limit: int, k: nat)
    requires InTime(os, now) && Latest(os, recent, RECENT) && OnRecord(os, k) && k in CreatedOn(os, JstDay(now))
    requires CountOn(StampsOf(os, recent), JstDay(now)) < limit
    requires limit + |CarriedInto(os, JstDay(now))| <= RECENT
    ensures k in recent
  {
    var today := JstDay(now);
    if k !in recent {
      assert Unread(os, recent, k);
      CountIsCard(os, recent, today);
      MembersCard(recent);
      forall p | p in Members(recent) ensures p in Members(recent) * CreatedOn(os, today) + CarriedInto(os, today) {
        var i :| 0 <= i < |recent| && recent[i] == p;
        assert OnRecord(os, recent[i]);
        LaterDay(os[k].createdAt, os[p].executedAt.value);
        LaterDay(os[p].executedAt.value, now);
        LaterDay(os[p].createdAt, os[p].executedAt.value);
      }
      UnionCard(Members(recent) * CreatedOn(os, today), CarriedInto(os, today));
      SubsetCard(Members(recent), Members(recent) * CreatedOn(os, today) + CarriedInto(os, today));
      assert false;
    }
  }

  /** A signal that passes the daily check finds fewer orders of today than the limit plus those in flight. */
  lemma {:induction false} LimitPlusInFlight(os: seq<Order>, recent: seq<nat>, now: int, limit: int)
    requires InTime(os, now) && Latest(os, recent, RECENT)
    requires CountOn(StampsOf(os, recent), JstDay(now)) < limit
    requires limit + |CarriedInto(os, JstDay(now))| <= RECENT
    ensures |CreatedOn(os, JstDay(now))| < limit + |InFlight(os) * CreatedOn(os, JstDay(now))|
  {
    var today := JstDay(now);
    var all, read, flying := CreatedOn(os, today), Members(recent) * CreatedOn(os, today),
                             InFlight(os) * CreatedOn(os, today);
    CountIsCard(os, recent, today);
    forall k | k in all ensures k in read + flying {
      if os[k].executedAt.Some? {
        TodayIsRead(os, recent, now, limit, k);
      }
    }
    SubsetCard(all, read + flying);
    UnionCard(read, flying);
  }

  /** At every check at most flight orders are in flight, and carried-over trades leave room to read the limit. */
  predicate ChecksSee(cfg: RiskConfig, events: seq<Event>, flight: nat) {
    if events == [] then true
    else
      var pre, e := events[..|events|-1], events[|events|-1];
      ChecksSee(cfg, pre, flight) && (e.Checked? ==> CheckSees(cfg, Run(pre), e.Time(), flight))
  }

  predicate CheckSees(cfg: RiskConfig, os: seq<Order>, now: int, flight: nat) {
    |InFlight(os)| <= flight && cfg.maxDailyTrades + |CarriedInto(os, JstDay(now))| <= RECENT
  }

  /** Over every run, with any orders in flight and trades recorded in any order: on no day in Japan are more ordinary
      orders placed than the limit plus the orders that are in flight when signals are checked. */
  lemma {:induction false} DailyLimitInFlight(cfg: RiskConfig, events: seq<Event>, flight: nat, day: int)
    requires Legal(cfg, events) && ChecksSee(cfg, events, flight)
    ensures |OrdinaryOrders(Run(events), day)| <= Bound(cfg) + flight
    decreases |events|
  {
    if events == [] {
      assert OrdinaryOrders(Run(events), day) == {};
    } else {
      var pre, e := events[..|events|-1], events[|events|-1];
      LegalLast(cfg, events);
      DailyLimitInFlight(cfg, pre, flight, day);
      RunInTime(cfg, pre, e.Time());
      OrdinaryStep(cfg, Run(pre), e, flight, day);
    }
  }

  lemma {:induction false} OrdinaryStep(cfg: RiskConfig, os: seq<Order>, e: Event, flight: nat, day: int)
    requires InTime(os, e.Time()) && LegalEvent(cfg, os, e)
    requires |OrdinaryOrders(os, day)| <= Bound(cfg) + flight
    requires e.Checked? ==> CheckSees(cfg, os, e.Time(), flight)
    ensures |OrdinaryOrders(After(os, e), day)| <= Bound(cfg) + flight
  {
    match e
    case Recorded(k, executedAt, _) =>
      assert OrdinaryOrders(After(os, e), day) == OrdinaryOrders(os, day);
    case Checked(a, passes, placed, recent, latest) =>
      if passes && placed {
        OrdinaryAppend(os, Order(e.Time(), Forced(a), None), day);
        if !Forced(a) && JstDay(e.Time()) == day {
          OrdinaryPasses(cfg, os, e);
          LimitPlusInFlight(os, recent, e.Time(), cfg.maxDailyTrades);
          SubsetCard(OrdinaryOrders(os, day), CreatedOn(os, day));
          SubsetCard(InFlight(os) * CreatedOn(os, day), InFlight(os));
        }
      }
  }

  lemma {:induction false} OrdinaryAppend(os: seq<Order>, o: Order, day: int)
    ensures |OrdinaryOrders(os + [o], day)|
         == |OrdinaryOrders(os, day)| + if !o.forced && JstDay(o.createdAt) == day then 1 else 0
  {
    if !o.forced && JstDay(o.createdAt) == day {
      assert OrdinaryOrders(os + [o], day) == OrdinaryOrders(os, day) + {|os|};
    } else {
      assert OrdinaryOrders(os + [o], day) == OrdinaryOrders(os, day);
    }
  }

  /** What the two checks of an ordinary signal that passes have found. */
  lemma {:induction false} OrdinaryPasses(cfg: RiskConfig, os: seq<Order>, e: Event)
    requires e.Checked? && LegalEvent(cfg, os, e) && e.passes && !Forced(e.a)
    ensures CountOn(StampsOf(os, e.recent), JstDay(e.Time())) < cfg.maxDailyTrades
    ensures IntervalOk(cfg, FactsFor(os, e.a, e.recent, e.latest))
  {}

  // ---------------------------------------------------------------- orders carried over midnight

  /** At no point of the run are more than flight orders in flight. */
  predicate NeverMoreThan(events: seq<Event>, flight: nat) {
    |InFlight(Run(events))| <= flight
    && (events == [] || NeverMoreThan(events[..|events|-1], flight))
  }

  /** The orders when the day starts: after the last event before it. */
  function AtMidnight(events: seq<Event>, day: int): seq<Order> {
    if events == [] then []
    else if JstDay(events[|events|-1].Time()) < day then Run(events)
    else AtMidnight(events[..|events|-1], day)
  }

  /** b continues a from midnight: trades on record stay, orders keep their times, new ones are of the day or later. */
  predicate Continues(a: seq<Order>, b: seq<Order>, day: int) {
    && |a| <= |b|
    && (forall o :: 0 <= o < |a| ==> b[o].createdAt == a[o].createdAt && (a[o].executedAt.Some? ==> b[o] == a[o]))
    && (forall o :: |a| <= o < |b| ==> JstDay(b[o].createdAt) >= day)
  }

  lemma {:induction false} ContinuesStep(cfg: RiskConfig, a: seq<Order>, b: seq<Order>, e: Event, day: int)
    requires Continues(a, b, day) && LegalEvent(cfg, b, e) && JstDay(e.Time()) >= day
    ensures Continues(a, After(b, e), day)
  {
    if e.Checked? {
      PlacedOrNot(b, e);
    }
  }

  lemma {:induction false} RunContinues(cfg: RiskConfig, events: seq<Event>, day: int)
    requires Legal(cfg, events)
    ensures Continues(AtMidnight(events, day), Run(events), day)
    decreases |events|
  {
    if events == [] || JstDay(events[|events|-1].Time()) < day {
    } else {
      var pre, e := events[..|events|-1], events[|events|-1];
      LegalLast(cfg, events);
      RunContinues(cfg, pre, day);
      ContinuesStep(cfg, AtMidnight(pre, day), Run(pre), e, day);
    }
  }

  /** Before the day starts nothing has been executed on it. */
  lemma {:induction false} MidnightBefore(cfg: RiskConfig, events: seq<Event>, day: int, o: nat)
    requires Legal(cfg, events) && OnRecord(AtMidnight(events, day), o)
    ensures JstDay(AtMidnight(events, day)[o].executedAt.value) < day
    decreases |events|
  {
    var now := events[|events|-1].Time();
    if JstDay(now) < day {
      RunInTime(cfg, events, now);
      LaterDay(Run(events)[o].executedAt.value, now);
    } else {
      LegalLast(cfg, events);
      MidnightBefore(cfg, events[..|events|-1], day, o);
    }
  }

  lemma {:induction false} MidnightInFlight(cfg: RiskConfig, events: seq<Event>, day: int, flight: nat)
    requires NeverMoreThan(events, flight)
    ensures |InFlight(AtMidnight(events, day))| <= flight
    decreases |events|
  {
    if events == [] {
    } else if JstDay(events[|events|-1].Time()) >= day {
      MidnightInFlight(cfg, events[..|events|-1], day, flight);
    }
  }

  /** The orders carried into a day are among those in flight at its midnight. */
  lemma {:induction false} CarriedWithinFlight(cfg: RiskConfig, events: seq<Event>, day: int)
    requires Legal(cfg, events)
    ensures CarriedInto(Run(events), day) <= InFlight(AtMidnight(events, day))
  {
    RunContinues(cfg, events, day);
    var a, b := AtMidnight(events, day), Run(events);
    forall o | o in CarriedInto(b, day) ensures o in InFlight(a) {
      assert o < |a| && b[o].createdAt == a[o].createdAt;
      if OnRecord(a, o) {
        MidnightBefore(cfg, events, day, o);
      }
    }
  }

  lemma {:induction false} FlightSeen(cfg: RiskConfig, events: seq<Event>, flight: nat)
    requires Legal(cfg, events) && NeverMoreThan(events, flight) && cfg.maxDailyTrades + flight <= RECENT
    ensures ChecksSee(cfg, events, flight)
    decreases |events|
  {
    if events == [] {
    } else {
      var pre, day := events[..|events|-1], JstDay(events[|events|-1].Time());
      LegalLast(cfg, events);
      FlightSeen(cfg, pre, flight);
      CarriedWithinFlight(cfg, pre, day);
      MidnightInFlight(cfg, pre, day, flight);
      SubsetCard(CarriedInto(Run(pre), day), InFlight(AtMidnight(pre, day)));
    }
  }

  /** So when there are never more than flight orders in flight and the limit leaves room for them among the trades
      that are read, no day exceeds the limit by more than that. */
  lemma {:induction false} LimitPlusFlight(cfg: RiskConfig, events: seq<Event>, flight: nat, day: int)
    requires Legal(cfg, events) && NeverMoreThan(events, flight) && cfg.maxDailyTrades + flight <= RECENT
    ensures |OrdinaryOrders(Run(events), day)| <= Bound(cfg) + flight
  {
    FlightSeen(cfg, events, flight);
    DailyLimitInFlight(cfg, events, flight, day);
  }

  // ---------------------------------------------------------------- the interval

  /** The interval check passes exactly when the record can be read and every trade on it was executed at least the
      interval ago. Orders in flight have no say. */
  lemma {:induction false} IntervalSeesRecord(cfg: RiskConfig, os: seq<Order>, a: Attempt, recent: seq<nat>,
                                              latest: seq<nat>)
    requires Latest(os, recent, RECENT) && Latest(os, latest, 1)
    ensures IntervalOk(cfg, FactsFor(os, a, recent, latest))
       <==> a.facts.latest.Some?
            && forall k :: 0 <= k < |os| && OnRecord(os, k) ==> a.facts.now - os[k].executedAt.value >= Gap(cfg)
  {
    if latest != [] {
      assert OnRecord(os, latest[0]) && latest == [latest[0]];
      assert StampsOf(os, latest)[0].executedAt == os[latest[0]].executedAt.value;
      forall k | 0 <= k < |os| && OnRecord(os, k) ensures os[k].executedAt.value <= os[latest[0]].executedAt.value {
        assert k == latest[0] || Unread(os, latest, k);
      }
    } else {
      forall k | 0 <= k < |os| ensures !OnRecord(os, k) {
        assert !Unread(os, latest, k);
      }
    }
  }

  /** An accepted ordinary signal keeps the interval to every earlier order exactly when it keeps it to those that are
      in flight; so it does whenever nothing is. */
  lemma {:induction false} IntervalKeptIff(cfg: RiskConfig, os: seq<Order>, e: Event)
    requires e.Checked? && LegalEvent(cfg, os, e) && InTime(os, e.Time()) && e.passes && !Forced(e.a)
    ensures (forall k :: 0 <= k < |os| ==> e.Time() - os[k].createdAt >= Gap(cfg))
       <==> (forall k :: k in InFlight(os) ==> e.Time() - os[k].createdAt >= Gap(cfg))
    ensures forall k :: 0 <= k < |os| && OnRecord(os, k) ==> e.Time() - os[k].executedAt.value >= Gap(cfg)
  {
    OrdinaryPasses(cfg, os, e);
    IntervalSeesRecord(cfg, os, e.a, e.recent, e.latest);
  }

  // ---------------------------------------------------------------- signals in quick succession

  /** Ordinary SELLs at the given times, none of which is recorded meanwhile. */
  function Burst(times: seq<int>): (r: seq<Event>)
    ensures |r| == |times|
  {
    if times == [] then []
    else Burst(times[..|times|-1]) + [Checked(SellAt(times[|times|-1]), true, true, [], [])]
  }

  function Unrecorded(times: seq<int>): (r: seq<Order>)
    ensures |r| == |times|
  {
    if times == [] then [] else Unrecorded(times[..|times|-1]) + [Order(times[|times|-1], false, None)]
  }

  lemma {:induction false} NoneRecorded(times: seq<int>)
    ensures forall i :: 0 <= i < |times| ==> Unrecorded(times)[i] == Order(times[i], false, None)
    decreases |times|
  {
    if times == [] {
    } else {
      NoneRecorded(times[..|times|-1]);
    }
  }

  predicate Advances(times: seq<int>) {
    forall i, j :: 0 <= i < j < |times| ==> times[i] <= times[j]
  }

  lemma {:induction false} BurstPlaced(times: seq<int>)
    ensures Run(Burst(times)) == Unrecorded(times)
    decreases |times|
  {
    if times == [] {
    } else {
      var n := |times| - 1;
      BurstPlaced(times[..n]);
      assert Burst(times)[..n] == Burst(times[..n]);
      assert !Forced(SellAt(times[n]));
    }
  }

  /** Whatever the limit and the interval, any number of signals at any times passes and is placed as long as no trade
      is on record yet. */
  lemma {:induction false} BurstIsAccepted(cfg: RiskConfig, times: seq<int>)
    requires cfg.maxDailyTrades > 0 && Advances(times)
    ensures Legal(cfg, Burst(times)) && Run(Burst(times)) == Unrecorded(times)
    decreases |times|
  {
    BurstPlaced(times);
    if times == [] {
    } else {
      var n := |times| - 1;
      assert times == times[..n] + [times[n]];
      BurstIsAccepted(cfg, times[..n]);
      BurstSnoc(cfg, times[..n], times[n]);
    }
  }

  lemma {:induction false} BurstSnoc(cfg: RiskConfig, times: seq<int>, t: int)
    requires cfg.maxDailyTrades > 0 && Legal(cfg, Burst(times)) && Run(Burst(times)) == Unrecorded(times)
    requires times != [] ==> times[|times|-1] <= t
    ensures Legal(cfg, Burst(times + [t]))
  {
    var pre, e := Burst(times), Checked(SellAt(t), true, true, [], []);
    assert (times + [t])[..|times|] == times;
    if times != [] {
      assert pre[|pre|-1].Time() == times[|times|-1];
    }
    NoneRecorded(times);
    PassedSnoc(cfg, pre, Unrecorded(times), t, e);
  }

  lemma {:induction false} PassedSnoc(cfg: RiskConfig, pre: seq<Event>, os: seq<Order>, t: int, e: Event)
    requires Legal(cfg, pre) && Run(pre) == os && EndsBy(pre, t)
    requires cfg.maxDailyTrades > 0 && forall k :: 0 <= k < |os| ==> os[k].executedAt.None?
    requires e == Checked(SellAt(t), true, true, [], [])
    ensures Legal(cfg, pre + [e])
  {
    PassesWithoutRecord(cfg, os, t, e);
    LegalSnoc(cfg, pre, e);
  }

  lemma {:induction false} PassesWithoutRecord(cfg: RiskConfig, os: seq<Order>, now: int, e: Event)
    requires cfg.maxDailyTrades > 0 && forall k :: 0 <= k < |os| ==> os[k].executedAt.None?
    requires e == Checked(SellAt(now), true, true, [], [])
    ensures LegalEvent(cfg, os, e)
  {}

  lemma {:induction false} LegalSnoc(cfg: RiskConfig, events: seq<Event>, e: Event)
    requires Legal(cfg, events) && LegalEvent(cfg, Run(events), e)
    requires EndsBy(events, e.Time())
    ensures Legal(cfg, events + [e]) && Run(events + [e]) == After(Run(events), e)
  {
    var all := events + [e];
    assert all[..|events|] == events;
    forall n | 0 <= n < |all| ensures LegalAt(cfg, all, n) {
      if n < |events| {
        assert LegalAt(cfg, events, n);
        assert all[..n] == events[..n];
      }
    }
  }

  lemma {:induction false} AllOnOneDay(times: seq<int>, day: int)
    requires forall i :: 0 <= i < |times| ==> JstDay(times[i]) == day
    ensures |OrdinaryOrders(Unrecorded(times), day)| == |times|
    decreases |times|
  {
    if times == [] {
      assert OrdinaryOrders(Unrecorded(times), day) == {};
    } else {
      var n := |times| - 1;
      AllOnOneDay(times[..n], day);
      OrdinaryAppend(Unrecorded(times[..n]), Order(times[n], false, None), day);
    }
  }

  /** So a day's orders can exceed any limit by any number, and a limit of one by exactly the orders in flight. */
  lemma {:induction false} BurstExceedsLimit(cfg: RiskConfig, times: seq<int>, day: int)
    requires cfg.maxDailyTrades > 0 && Advances(times) && forall i :: 0 <= i < |times| ==> JstDay(times[i]) == day
    ensures Legal(cfg, Burst(times)) && |OrdinaryOrders(Run(Burst(times)), day)| == |times|
  {
    BurstIsAccepted(cfg, times);
    AllOnOneDay(times, day);
  }

  /** Two signals within one interval and one day are enough to exceed a limit of one trade and break the interval. */
  lemma {:induction false} TwoSignalsBreakBoth(cfg: RiskConfig, first: int, second: int)
    requires cfg.maxDailyTrades == 1 && first <= second < first + Gap(cfg) && JstDay(first) == JstDay(second)
    ensures Legal(cfg, Burst([first, second]))
    ensures var os := Run(Burst([first, second]));
            && |OrdinaryOrders(os, JstDay(first))| > cfg.maxDailyTrades
            && |os| == 2 && os[1].createdAt - os[0].createdAt < Gap(cfg)
  {
    TwoSignals(cfg, [first, second], JstDay(first));
  }

  lemma {:induction false} TwoSignals(cfg: RiskConfig, times: seq<int>, day: int)
    requires cfg.maxDailyTrades == 1 && |times| == 2 && times[0] <= times[1]
    requires JstDay(times[0]) == JstDay(times[1]) == day
    ensures Legal(cfg, Burst(times)) && |OrdinaryOrders(Run(Burst(times)), day)| == 2
    ensures Run(Burst(times)) == [Order(times[0], false, None), Order(times[1], false, None)]
  {
    BurstExceedsLimit(cfg, times, day);
    BurstPlaced(times);
    NoneRecorded(times);
  }

  // ---------------------------------------------------------------- the room for carried-over orders

  /** The numbers from a up to b. */
  function Interval(a: nat, b: nat): set<nat> {
    set k | 0 <= k < b && AtLeast(k, a)
  }

  predicate AtLeast(k: nat, a: nat) {
    k >= a
  }

  lemma {:induction false} IntervalCard(a: nat, b: nat)
    requires a <= b
    ensures |Interval(a, b)| == b - a
    decreases b
  {
    if a == b {
      assert Interval(a, b) == {};
    } else {
      IntervalCard(a, b - 1);
      assert Interval(a, b) == Interval(a, b - 1) + {b - 1};
    }
  }

  /** c orders carried over midnight and executed a moment later than the l orders of the new day. */
  function Crowd(day: int, c: nat, l: nat): (r: seq<Order>)
    ensures |r| == c + l
    ensures forall i :: 0 <= i < c ==> r[i] == Order(DayStart(day) - 1, false, Some(DayStart(day) + 1))
    ensures forall i :: c <= i < c + l ==> r[i] == Order(DayStart(day), false, Some(DayStart(day)))
  {
    seq(c, i => Order(DayStart(day) - 1, false, Some(DayStart(day) + 1)))
    + seq(l, i => Order(DayStart(day), false, Some(DayStart(day))))
  }

  /** All of them but the first of the new day. */
  function AllBut(c: nat, l: nat): (r: seq<nat>)
    requires l > 0
    ensures |r| == c + l - 1
    ensures forall i :: 0 <= i < c ==> r[i] == i
    ensures forall i :: c <= i < c + l - 1 ==> r[i] == i + 1
  {
    seq(c, i requires 0 <= i => i) + seq(l - 1, i requires 0 <= i => c + i + 1)
  }

  lemma {:induction false} CrowdDays(day: int, c: nat, l: nat, os: seq<Order>)
    requires os == Crowd(day, c, l)
    ensures CarriedInto(os, day) == Interval(0, c) && CreatedOn(os, day) == Interval(c, c + l) && InFlight(os) == {}
    ensures InTime(os, DayStart(day) + 1)
  {
    assert JstDay(DayStart(day) - 1) == day - 1 && JstDay(DayStart(day)) == JstDay(DayStart(day) + 1) == day;
  }

  lemma {:induction false} CrowdRead(day: int, c: nat, l: nat, os: seq<Order>, ks: seq<nat>)
    requires os == Crowd(day, c, l) && l > 0 && ks == AllBut(c, l)
    ensures Latest(os, ks, c + l - 1)
    ensures Members(ks) * Interval(c, c + l) == Interval(c + 1, c + l)
  {
    forall k | 0 <= k < |os| && k != c ensures k in ks {
      assert ks[if k < c then k else k - 1] == k;
    }
  }

  /** The orders from lo up to hi go on record, all executed at the same instant. */
  function Filled(os: seq<Order>, lo: nat, hi: nat, at: int): (r: seq<Order>)
    requires lo <= hi <= |os|
    ensures |r| == |os|
    decreases hi - lo
  {
    if lo == hi then os else Filled(os[lo := os[lo].(executedAt := Some(at))], lo + 1, hi, at)
  }

  lemma {:induction false} FilledAt(os: seq<Order>, lo: nat, hi: nat, at: int)
    requires lo <= hi <= |os|
    ensures forall i :: 0 <= i < |os| ==>
              Filled(os, lo, hi, at)[i] == if lo <= i < hi then os[i].(executedAt := Some(at)) else os[i]
    decreases hi - lo
  {
    if lo == hi {
    } else {
      FilledAt(os[lo := os[lo].(executedAt := Some(at))], lo + 1, hi, at);
    }
  }

  lemma {:induction false} RecordMany(cfg: RiskConfig, events: seq<Event>, os: seq<Order>, lo: nat, hi: nat, at: int)
    returns (more: seq<Event>)
    requires Legal(cfg, events) && Run(events) == os && EndsBy(events, at) && lo <= hi <= |os|
    requires forall i :: lo <= i < hi ==> os[i].executedAt.None? && os[i].createdAt <= at
    ensures Legal(cfg, more) && Run(more) == Filled(os, lo, hi, at) && EndsBy(more, at)
    decreases hi - lo
  {
    if lo == hi {
      more := events;
    } else {
      more := RecordOne(cfg, events, os, lo, at);
      more := RecordMany(cfg, more, os[lo := os[lo].(executedAt := Some(at))], lo + 1, hi, at);
    }
  }

  lemma {:induction false} RecordOne(cfg: RiskConfig, pre: seq<Event>, os: seq<Order>, k: nat, at: int)
    returns (more: seq<Event>)
    requires Legal(cfg, pre) && Run(pre) == os && EndsBy(pre, at)
    requires k < |os| && os[k].executedAt.None? && os[k].createdAt <= at
    ensures Legal(cfg, more) && Run(more) == os[k := os[k].(executedAt := Some(at))] && EndsBy(more, at)
  {
    LegalSnoc(cfg, pre, Recorded(k, at, at));
    more := pre + [Recorded(k, at, at)];
  }

  /** Signals just before midnight and just after it are accepted while nothing is on record; then the orders of the
      new day go on record first. */
  lemma {:induction false} CrowdReached(cfg: RiskConfig, day: int, c: nat, l: nat) returns (events: seq<Event>)
    requires cfg.maxDailyTrades > 0
    ensures Legal(cfg, events) && Run(events) == Crowd(day, c, l)
    ensures EndsBy(events, DayStart(day) + 1)
  {
    var times := AroundMidnight(day, c, l);
    events := BurstThenRecords(cfg, times, c, DayStart(day));
    CrowdFills(day, c, l, times);
  }

  /** A burst up to time t, its orders from the c-th on recorded at t, and the others a moment later. */
  lemma {:induction false} BurstThenRecords(cfg: RiskConfig, times: seq<int>, c: nat, t: int)
    returns (events: seq<Event>)
    requires cfg.maxDailyTrades > 0 && Advances(times) && c <= |times|
    requires forall i :: 0 <= i < |times| ==> times[i] <= t
    ensures Legal(cfg, events) && Run(events) == Filled(Filled(Unrecorded(times), c, |times|, t), 0, c, t + 1)
    ensures EndsBy(events, t + 1)
  {
    BurstIsAccepted(cfg, times);
    BurstEnds(times, t);
    NoneRecorded(times);
    events := RecordTwice(cfg, Burst(times), Unrecorded(times), c, t);
  }

  lemma {:induction false} RecordTwice(cfg: RiskConfig, pre: seq<Event>, os: seq<Order>, c: nat, t: int)
    returns (events: seq<Event>)
    requires Legal(cfg, pre) && Run(pre) == os && EndsBy(pre, t) && c <= |os|
    requires forall i :: 0 <= i < |os| ==> os[i].executedAt.None? && os[i].createdAt <= t
    ensures Legal(cfg, events) && Run(events) == Filled(Filled(os, c, |os|, t), 0, c, t + 1) && EndsBy(events, t + 1)
  {
    events := RecordMany(cfg, pre, os, c, |os|, t);
    var rest := Filled(os, c, |os|, t);
    FilledAt(os, c, |os|, t);
    events := RecordMany(cfg, events, rest, 0, c, t + 1);
  }

  function AroundMidnight(day: int, c: nat, l: nat): (r: seq<int>)
    ensures |r| == c + l
    ensures forall i :: 0 <= i < |r| ==> r[i] == if i < c then DayStart(day) - 1 else DayStart(day)
  {
    seq(c, i => DayStart(day) - 1) + seq(l, i => DayStart(day))
  }

  lemma {:induction false} BurstEnds(times: seq<int>, t: int)
    requires forall i :: 0 <= i < |times| ==> times[i] <= t
    ensures EndsBy(Burst(times), t)
  {}

  lemma {:induction false} CrowdFills(day: int, c: nat, l: nat, times: seq<int>)
    requires times == AroundMidnight(day, c, l)
    ensures Filled(Filled(Unrecorded(times), c, c + l, DayStart(day)), 0, c, DayStart(day) + 1) == Crowd(day, c, l)
  {
    NoneRecorded(times);
    FilledAt(Unrecorded(times), c, c + l, DayStart(day));
    FilledAt(Filled(Unrecorded(times), c, c + l, DayStart(day)), 0, c, DayStart(day) + 1);
  }

  lemma {:induction false} CrowdCounts(day: int, c: nat, l: nat, os: seq<Order>, recent: seq<nat>)
    requires l > 0 && os == Crowd(day, c, l) && recent == AllBut(c, l)
    ensures |CarriedInto(os, day)| == c && |OrdinaryOrders(os, day)| == l
    ensures Latest(os, recent, c + l - 1) && CountOn(StampsOf(os, recent), day) == l - 1
  {
    CrowdDays(day, c, l, os);
    CrowdRead(day, c, l, os, recent);
    CountOfRead(os, recent, day, c, l);
    CrowdOrdinary(day, c, l, os);
    IntervalCard(0, c);
    IntervalCard(c, c + l);
  }

  lemma {:induction false} CrowdOrdinary(day: int, c: nat, l: nat, os: seq<Order>)
    requires os == Crowd(day, c, l)
    ensures OrdinaryOrders(os, day) == CreatedOn(os, day)
  {}

  lemma {:induction false} CountOfRead(os: seq<Order>, recent: seq<nat>, day: int, c: nat, l: nat)
    requires l > 0 && AllOnRecord(os, recent) && Distinct(recent) && CreatedOn(os, day) == Interval(c, c + l)
    requires Members(recent) * Interval(c, c + l) == Interval(c + 1, c + l)
    ensures CountOn(StampsOf(os, recent), day) == l - 1
  {
    CountIsCard(os, recent, day);
    IntervalCard(c + 1, c + l);
  }

  /** The check after a crowd passes: it reads all trades but one of today's. */
  lemma {:induction false} CrowdPasses(cfg: RiskConfig, day: int, c: nat, os: seq<Order>, now: int, e: Event)
    requires cfg.maxDailyTrades > 0 && c + cfg.maxDailyTrades == RECENT + 1 && os == Crowd(day, c, cfg.maxDailyTrades)
    requires JstDay(now) == day && now >= DayStart(day) + 1 && now - (DayStart(day) + 1) >= Gap(cfg)
    requires e == Checked(SellAt(now), true, true, AllBut(c, cfg.maxDailyTrades), [0])
    ensures LegalEvent(cfg, os, e)
  {
    CrowdCounts(day, c, cfg.maxDailyTrades, os, e.recent);
    assert Latest(os, e.latest, 1);
    IntervalSeesRecord(cfg, os, e.a, e.recent, e.latest);
  }

  /** The room for carried-over orders is needed: with one trade too many between them and the limit, there is a run in
      which nothing is in flight at the last check, and yet a signal beyond the limit passes. */
  lemma {:induction false} CrowdedOut(cfg: RiskConfig, day: int, c: nat) returns (events: seq<Event>, e: Event)
    requires cfg.maxDailyTrades > 0 && c + cfg.maxDailyTrades == RECENT + 1 && Gap(cfg) < NANOS_PER_DAY - 1
    ensures Legal(cfg, events + [e]) && e.Checked? && JstDay(e.Time()) == day
    ensures InFlight(Run(events)) == {} && |CarriedInto(Run(events), day)| == c
    ensures |OrdinaryOrders(Run(events), day)| == cfg.maxDailyTrades
    ensures |OrdinaryOrders(Run(events + [e]), day)| == cfg.maxDailyTrades + 1
  {
    var limit := cfg.maxDailyTrades;
    var now := DayStart(day) + 1 + if Gap(cfg) > 0 then Gap(cfg) else 0;
    DayOf(day, now);
    events := CrowdReached(cfg, day, c, limit);
    e := Checked(SellAt(now), true, true, AllBut(c, limit), [0]);
    CrowdPasses(cfg, day, c, Run(events), now, e);
    CrowdDays(day, c, limit, Run(events));
    CrowdCounts(day, c, limit, Run(events), AllBut(c, limit));
    LegalSnoc(cfg, events, e);
    assert !Forced(SellAt(now));
    OrdinaryAppend(Run(events), Order(now, false, None), day);
  }

  // ---------------------------------------------------------------- nothing in flight

  function OnRecordAtOnce(log: seq<Entry>): (r: seq<Order>)
    ensures |r| == |log|
    ensures forall i :: 0 <= i < |log| ==> r[i] == Order(log[i].at, log[i].forced, Some(log[i].at))
  {
    if log == [] then []
    else
      var e := log[|log|-1];
      OnRecordAtOnce(log[..|log|-1]) + [Order(e.at, e.forced, Some(e.at))]
  }

  /** n - 1, n - 2, ..., at most m numbers. */
  function DownFrom(n: nat, m: nat): (r: seq<nat>)
    ensures |r| == if n < m then n else m
    ensures forall i :: 0 <= i < |r| ==> r[i] == n - 1 - i
  {
    seq(if n < m then n else m, i requires 0 <= i < n => n - 1 - i)
  }

  lemma {:induction false} DownFromHas(n: nat, m: nat, k: nat)
    requires n - |DownFrom(n, m)| <= k < n
    ensures k in DownFrom(n, m)
  {
    assert DownFrom(n, m)[n - 1 - k] == k;
  }

  lemma {:induction false} DownFromIsLatest(log: seq<Entry>, now: int, m: nat)
    requires InOrder(log, now)
    ensures Latest(OnRecordAtOnce(log), DownFrom(|log|, m), m)
  {
    var os, ks := OnRecordAtOnce(log), DownFrom(|log|, m);
    forall k | 0 <= k < |os| && k !in ks ensures |ks| == m && k < |log| - |ks| {
      if k >= |log| - |ks| {
        DownFromHas(|log|, m, k);
      }
    }
  }

  lemma {:induction false} StampAt(os: seq<Order>, ks: seq<nat>, i: nat)
    requires (forall j :: 0 <= j < |ks| ==> ks[j] < |os|) && i < |ks|
    ensures StampsOf(os, ks)[i] == StampFor(os[ks[i]])
  {
    if i == 0 {
    } else {
      StampAt(os, ks[1..], i - 1);
    }
  }

  lemma {:induction false} ReversedAt(log: seq<Entry>, i: nat)
    requires i < |log|
    ensures Reversed(log)[i] == StampOf(log[|log|-1-i])
    decreases |log|
  {
    if i == 0 {
    } else {
      ReversedAt(log[..|log|-1], i - 1);
    }
  }

  lemma {:induction false} ReadsAgree(log: seq<Entry>, m: nat)
    ensures StampsOf(OnRecordAtOnce(log), DownFrom(|log|, m)) == RecentTrades(log, m)
  {
    var os, ks := OnRecordAtOnce(log), DownFrom(|log|, m);
    forall i | 0 <= i < |ks| ensures StampsOf(os, ks)[i] == RecentTrades(log, m)[i] {
      ReadAt(log, m, os, ks, i);
    }
  }

  lemma {:induction false} ReadAt(log: seq<Entry>, m: nat, os: seq<Order>, ks: seq<nat>, i: nat)
    requires os == OnRecordAtOnce(log) && ks == DownFrom(|log|, m) && i < |ks|
    ensures StampsOf(os, ks)[i] == RecentTrades(log, m)[i]
  {
    StampAt(os, ks, i);
    ReversedAt(LastN(log, m), i);
    assert LastN(log, m)[|LastN(log, m)| - 1 - i] == log[|log| - 1 - i];
  }

  /** No check finds an order in flight. */
  predicate Quiet(events: seq<Event>) {
    if events == [] then true
    else
      var pre, e := events[..|events|-1], events[|events|-1];
      Quiet(pre) && (e.Checked? ==> InFlight(Run(pre)) == {})
  }

  /** Recording every accepted signal before the next one is checked is a legal run in which no check ever finds an
      order in flight. */
  lemma {:induction false} AtOnce(cfg: RiskConfig, attempts: seq<Attempt>) returns (events: seq<Event>)
    requires ClockRuns(attempts)
    ensures Legal(cfg, events) && Quiet(events)
    ensures Run(events) == OnRecordAtOnce(RecordOf(cfg, attempts))
    ensures events != [] ==> attempts != [] && events[|events|-1].Time() <= attempts[|attempts|-1].facts.now
    decreases |attempts|
  {
    if attempts == [] {
      events := [];
    } else {
      var pre, a := attempts[..|attempts|-1], attempts[|attempts|-1];
      events := AtOnce(cfg, pre);
      events := AtOnceSnoc(cfg, attempts, pre, a, events);
    }
  }

  lemma {:induction false} AtOnceSnoc(cfg: RiskConfig, attempts: seq<Attempt>, earlier: seq<Attempt>, a: Attempt,
                                      pre: seq<Event>)
    returns (events: seq<Event>)
    requires ClockRuns(attempts) && attempts != []
    requires earlier == attempts[..|attempts|-1] && a == attempts[|attempts|-1]
    requires Legal(cfg, pre) && Quiet(pre) && Run(pre) == OnRecordAtOnce(RecordOf(cfg, earlier))
    requires pre != [] ==> earlier != [] && pre[|pre|-1].Time() <= earlier[|earlier|-1].facts.now
    ensures Legal(cfg, events) && Quiet(events) && events != [] && events[|events|-1].Time() == a.facts.now
    ensures Run(events) == OnRecordAtOnce(RecordOf(cfg, attempts))
  {
    var log := RecordOf(cfg, earlier);
    assert RecordOf(cfg, attempts) == if Accepted(cfg, log, a) then log + [Entry(a.facts.now, Forced(a))] else log;
    RecordInOrder(cfg, earlier, a.facts.now);
    events := OneMoreAttempt(cfg, pre, log, a);
  }

  /** A check and, if it passes, the record of its trade. */
  lemma {:induction false} OneMoreAttempt(cfg: RiskConfig, pre: seq<Event>, log: seq<Entry>, a: Attempt)
    returns (events: seq<Event>)
    requires Legal(cfg, pre) && Quiet(pre) && Run(pre) == OnRecordAtOnce(log) && InOrder(log, a.facts.now)
    requires EndsBy(pre, a.facts.now)
    ensures Legal(cfg, events) && Quiet(events) && events != [] && events[|events|-1].Time() == a.facts.now
    ensures Run(events) == OnRecordAtOnce(if Accepted(cfg, log, a) then log + [Entry(a.facts.now, Forced(a))] else log)
  {
    var check := CheckOf(cfg, log, a, Run(pre));
    NoneInFlight(log);
    LegalSnoc(cfg, pre, check);
    QuietSnoc(pre, check);
    events := pre + [check];
    if check.passes {
      events := OneMoreRecord(cfg, events, log, Entry(a.facts.now, Forced(a)), Run(pre));
    }
  }

  /** The check of an attempt with nothing in flight reads what RiskLaws says it reads. */
  lemma {:induction false} CheckOf(cfg: RiskConfig, log: seq<Entry>, a: Attempt, os: seq<Order>) returns (e: Event)
    requires InOrder(log, a.facts.now) && os == OnRecordAtOnce(log)
    ensures e.Checked? && e.placed && e.a == a && LegalEvent(cfg, os, e) && e.passes == Accepted(cfg, log, a)
  {
    e := CheckWith(cfg, log, a, os, DownFrom(|log|, RECENT), DownFrom(|log|, 1));
  }

  lemma {:induction false} CheckWith(cfg: RiskConfig, log: seq<Entry>, a: Attempt, os: seq<Order>, recent: seq<nat>,
                                     latest: seq<nat>)
    returns (e: Event)
    requires InOrder(log, a.facts.now) && os == OnRecordAtOnce(log)
    requires recent == DownFrom(|log|, RECENT) && latest == DownFrom(|log|, 1)
    ensures e.Checked? && e.placed && e.a == a && LegalEvent(cfg, os, e) && e.passes == Accepted(cfg, log, a)
  {
    DownFromIsLatest(log, a.facts.now, RECENT);
    DownFromIsLatest(log, a.facts.now, 1);
    ReadsAgree(log, RECENT);
    ReadsAgree(log, 1);
    e := Checked(a, Accepted(cfg, log, a), true, recent, latest);
    SameAnswer(cfg, os, log, e);
  }

  lemma {:induction false} SameAnswer(cfg: RiskConfig, os: seq<Order>, log: seq<Entry>, e: Event)
    requires e.Checked? && Latest(os, e.recent, RECENT) && Latest(os, e.latest, 1)
    requires StampsOf(os, e.recent) == RecentTrades(log, RECENT) && StampsOf(os, e.latest) == RecentTrades(log, 1)
    requires e.passes == Accepted(cfg, log, e.a)
    ensures LegalEvent(cfg, os, e)
  {
    SameFacts(os, log, e.a, e.recent, e.latest);
  }

  lemma {:induction false} NoneInFlight(log: seq<Entry>)
    ensures InFlight(OnRecordAtOnce(log)) == {}
  {}

  lemma {:induction false} OneMoreRecord(cfg: RiskConfig, pre: seq<Event>, log: seq<Entry>, e: Entry, os: seq<Order>)
    returns (events: seq<Event>)
    requires Legal(cfg, pre) && Quiet(pre) && pre != [] && pre[|pre|-1].Time() == e.at
    requires os == OnRecordAtOnce(log) && Run(pre) == os + [Order(e.at, e.forced, None)]
    ensures Legal(cfg, events) && Quiet(events) && events != [] && events[|events|-1].Time() == e.at
    ensures Run(events) == OnRecordAtOnce(log + [e])
  {
    var written := Recorded(|log|, e.at, e.at);
    LegalSnoc(cfg, pre, written);
    QuietSnoc(pre, written);
    events := pre + [written];
    assert (log + [e])[..|log|] == log;
  }

  lemma {:induction false} SameFacts(os: seq<Order>, log: seq<Entry>, a: Attempt, recent: seq<nat>, latest: seq<nat>)
    requires Latest(os, recent, RECENT) && Latest(os, latest, 1)
    requires StampsOf(os, recent) == RecentTrades(log, RECENT) && StampsOf(os, latest) == RecentTrades(log, 1)
    ensures FactsFor(os, a, recent, latest) == ReadsFor(log, a)
  {}

  lemma {:induction false} QuietSnoc(events: seq<Event>, e: Event)
    requires Quiet(events) && (e.Checked? ==> InFlight(Run(events)) == {})
    ensures Quiet(events + [e])
  {
    assert (events + [e])[..|events|] == events;
  }
}
