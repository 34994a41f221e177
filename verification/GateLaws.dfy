/** What the signal gate guarantees over every run of ticks. */
module GateLaws {
  import opened Options
  import opened Signals
  import opened Buckets
  import opened LiveAggregator
  import opened StrategyWorkers

  // ---------------------------------------------------------------- what one tick may send

  /** Positions could be read, and none is at or past its enabled stop or take price. */
  predicate AllQuiet(cfg: Config, stopRead: PositionRead, takeRead: PositionRead, price: real) {
    && stopRead.Entries? && takeRead.Entries?
    && !BelowStop(cfg, stopRead.prices, price) && !AboveTarget(cfg, takeRead.prices, price)
  }

  /** The price is at or below the positive stop of some position with a positive entry. */
  predicate BelowStop(cfg: Config, entries: seq<real>, price: real) {
    exists e :: e in entries && e > 0.0 && cfg.stopPrice(e) > 0.0 && price <= cfg.stopPrice(e)
  }

  /** The price is at or above the positive target of some position with a positive entry. */
  predicate AboveTarget(cfg: Config, entries: seq<real>, price: real) {
    exists e :: e in entries && e > 0.0 && cfg.takePrice(e) > 0.0 && price >= cfg.takePrice(e)
  }

  lemma {:induction false} HitMeaning(cfg: Config, entries: seq<real>, price: real)
    ensures AnyStopHit(cfg, entries, price) <==> BelowStop(cfg, entries, price)
    ensures AnyTakeHit(cfg, entries, price) <==> AboveTarget(cfg, entries, price)
  {
    if BelowStop(cfg, entries, price) {
      var e :| e in entries && e > 0.0 && cfg.stopPrice(e) > 0.0 && price <= cfg.stopPrice(e);
      var i :| 0 <= i < |entries| && entries[i] == e;
      assert StopHit(cfg, entries[i], price);
    }
    if AboveTarget(cfg, entries, price) {
      var e :| e in entries && e > 0.0 && cfg.takePrice(e) > 0.0 && price >= cfg.takePrice(e);
      var i :| 0 <= i < |entries| && entries[i] == e;
      assert TakeHit(cfg, entries[i], price);
    }
  }

  /** A forced exit is a stop-loss exactly when the positions are readable and some stop is breached, and a
      take-profit exactly when no stop is and some target is reached; otherwise all is quiet or unreadable. Without a
      reader there is none. */
  lemma {:induction false} ForcedExitMeaning(cfg: Config, stopRead: PositionRead, takeRead: PositionRead, price: real)
    ensures !cfg.hasReader ==> ForcedExit(cfg, stopRead, takeRead, price) == NoExit
    ensures cfg.hasReader ==>
      var r := ForcedExit(cfg, stopRead, takeRead, price);
      && (r == Exit(StopLoss) <==> stopRead.Entries? && BelowStop(cfg, stopRead.prices, price))
      && (r == Exit(TakeProfit) <==> stopRead.Entries? && !BelowStop(cfg, stopRead.prices, price)
                                     && takeRead.Entries? && AboveTarget(cfg, takeRead.prices, price))
      && (r == NoExit <==> AllQuiet(cfg, stopRead, takeRead, price))
  {
    if stopRead.Entries? {
      HitMeaning(cfg, stopRead.prices, price);
    }
    if takeRead.Entries? {
      HitMeaning(cfg, takeRead.prices, price);
    }
  }

  /** A breached stop stays breached: it fires at every lower price and for every larger set of positions, whatever
      the targets say. */
  lemma {:induction false} StopHoldsBelow(cfg: Config, read: PositionRead, larger: PositionRead, take: PositionRead,
                                          otherTake: PositionRead, price: real, lower: real)
    requires ForcedExit(cfg, read, take, price) == Exit(StopLoss) && lower <= price
    requires larger.Entries? && forall e :: e in read.prices ==> e in larger.prices
    ensures ForcedExit(cfg, larger, otherTake, lower) == Exit(StopLoss)
  {
    var i :| 0 <= i < |read.prices| && StopHit(cfg, read.prices[i], price);
    assert read.prices[i] in larger.prices;
    var j :| 0 <= j < |larger.prices| && larger.prices[j] == read.prices[i];
    assert StopHit(cfg, larger.prices[j], lower);
  }

  predicate SendsBuy(events: seq<Event>, symbol: string) {
    exists i :: 0 <= i < |events| && events[i] == Sent(symbol, Buy)
  }

  /** A BUY is sent on a tick exactly when the tick completes a bar, the strategy says BUY, the positions read for
      the bar are all quiet at the bar's close, the last action sent for its symbol is not BUY, and the queue
      takes it. */
  lemma {:induction false} BuyGate(cfg: Config, st: State, t: Tick, symbol: string)
    requires cfg.period > 0 && cfg.hasReader
    ensures var bar := Completed(cfg, st, t);
            var mid := Dispatched(cfg, st, t).0;
            SendsBuy(Step(cfg, st, t).1, symbol) <==>
              && bar.Some? && t.analysis == Says(symbol, Buy)
              && AllQuiet(cfg, t.barStopRead, t.barTakeRead, bar.value.price)
              && !(symbol in mid.lastSent && mid.lastSent[symbol] == Buy)
              && Send(cfg, mid.queue, StrategySignal(symbol, Buy), t.barChannel).accepted
  {
    var bar := Completed(cfg, st, t);
    var (mid, first) := Dispatched(cfg, st, t);
    assert !SendsBuy(first, symbol);
    if bar.Some? {
      var (end, second) := Execute(cfg, mid, t, bar.value);
      ForcedExitMeaning(cfg, t.barStopRead, t.barTakeRead, bar.value.price);
      assert |second| <= 1;
      if |second| == 1 {
        assert (first + second)[|first|] == second[0];
      }
    }
  }

  /** A forced exit of the symbol was accepted less than the cooldown ago. */
  predicate Cooling(st: State, symbol: string, clock: int) {
    symbol in st.lastForced && clock - st.lastForced[symbol] < COOLDOWN
  }

  /** The queue once the stop-loss SELL of the tick has been tried. */
  function QueueAfterStop(cfg: Config, st: State, t: Tick): seq<Queued> {
    if Cooling(st, t.data.symbol, t.clock) then st.queue
    else Send(cfg, st.queue, ExitSignal(t.data.symbol, StopLoss), t.channel).queue
  }

  /** A tick that breaches the stop of an open position still sends a BUY exactly when it completes a bar with a quiet
      close, the strategy says BUY, and the queue takes it after the SELL; only while the exit is cooling does a BUY
      sent before count as a repetition. */
  lemma {:induction false} BuyPastStop(cfg: Config, st: State, t: Tick)
    requires cfg.period > 0 && cfg.hasReader
    requires t.stopRead.Entries? && AnyStopHit(cfg, t.stopRead.prices, t.data.price)
    ensures var bar, symbol := Completed(cfg, st, t), t.data.symbol;
            SendsBuy(Step(cfg, st, t).1, symbol) <==>
              && bar.Some? && t.analysis == Says(symbol, Buy)
              && AllQuiet(cfg, t.barStopRead, t.barTakeRead, bar.value.price)
              && (Cooling(st, symbol, t.clock) ==> symbol !in st.lastSent || st.lastSent[symbol] != Buy)
              && Send(cfg, QueueAfterStop(cfg, st, t), StrategySignal(symbol, Buy), t.barChannel).accepted
  {
    BuyGate(cfg, st, t, t.data.symbol);
    var fed := Fed(cfg, st, t.data);
    assert ForcedExit(cfg, t.stopRead, t.takeRead, t.data.price) == Exit(StopLoss);
    assert Dispatched(cfg, st, t) == TryForced(cfg, fed, t.data.symbol, StopLoss, t.clock, t.channel);
  }

  /** A tick that breaches the stop of an open position and completes a bar whose close is quiet sends the stop-loss
      SELL and then a BUY, whenever the queue has room for both: the gate of the BUY looks at the bar, not at the
      tick, and the SELL that was just sent makes the BUY no repetition. */
  lemma {:induction false} BuyRightAfterStop(cfg: Config, st: State, t: Tick)
    requires cfg.period > 0 && cfg.hasReader && |st.queue| + 2 <= cfg.capacity
    requires !t.channel.canceled && !t.barChannel.canceled
    requires t.stopRead.Entries? && AnyStopHit(cfg, t.stopRead.prices, t.data.price)
    requires t.data.symbol in st.lastForced ==> t.clock - st.lastForced[t.data.symbol] >= COOLDOWN
    requires Completed(cfg, st, t).Some? && t.analysis == Says(t.data.symbol, Buy)
    requires AllQuiet(cfg, t.barStopRead, t.barTakeRead, Completed(cfg, st, t).value.price)
    ensures Step(cfg, st, t).1
         == [Forced(t.data.symbol, StopLoss, true, t.channel.acceptedAt), Sent(t.data.symbol, Buy)]
    ensures Step(cfg, st, t).0.queue
         == Drop(Drop(st.queue, t.channel.taken) + [ExitSignal(t.data.symbol, StopLoss)], t.barChannel.taken)
            + [StrategySignal(t.data.symbol, Buy)]
  {
    var symbol, fed := t.data.symbol, Fed(cfg, st, t.data);
    var (mid, first) := Dispatch(cfg, fed, t);
    assert ForcedExit(cfg, t.stopRead, t.takeRead, t.data.price) == Exit(StopLoss);
    assert (mid, first) == TryForced(cfg, fed, symbol, StopLoss, t.clock, t.channel);
    assert first == [Forced(symbol, StopLoss, true, t.channel.acceptedAt)];
    assert mid.lastSent[symbol] == Sell;
    var (end, second) := Execute(cfg, mid, t, Completed(cfg, st, t).value);
    ForcedExitMeaning(cfg, t.barStopRead, t.barTakeRead, Completed(cfg, st, t).value.price);
    assert (end, second) == TryOrdinary(cfg, mid, symbol, Buy, t.barChannel);
    assert second == [Sent(symbol, Buy)];
  }

  /** Two ticks from the start are enough: one that opens a bar while no position is open, and one of a later bucket
      that breaches the stop of a position opened meanwhile. */
  predicate BreachingPair(cfg: Config, t0: Tick, t1: Tick) {
    && cfg.period > 0 && cfg.hasReader && cfg.capacity >= 2
    && t0.stopRead == t0.takeRead == Entries([]) && t0.data.symbol == t1.data.symbol
    && BucketStart(t0.data.timestamp, cfg.period) < BucketStart(t1.data.timestamp, cfg.period)
    && !t1.channel.canceled && !t1.barChannel.canceled
    && t1.stopRead.Entries? && AnyStopHit(cfg, t1.stopRead.prices, t1.data.price)
    && t1.analysis == Says(t1.data.symbol, Buy) && AllQuiet(cfg, t1.barStopRead, t1.barTakeRead, t0.data.price)
  }

  lemma {:induction false} BuyDespiteBreachedTick(cfg: Config, t0: Tick, t1: Tick)
    requires BreachingPair(cfg, t0, t1)
    ensures Run(cfg, [t0, t1]).1
         == [Forced(t1.data.symbol, StopLoss, true, t1.channel.acceptedAt), Sent(t1.data.symbol, Buy)]
  {
    var st := START.(bars := map[t0.data.symbol := OpenFrom(t0.data, cfg.period)]);
    OpensBar(cfg, t0);
    RunSnoc(cfg, [], t0);
    RunSnoc(cfg, [t0], t1);
    assert [] + [t0] == [t0] && [t0] + [t1] == [t0, t1];
    assert Completed(cfg, st, t1).value.price == t0.data.price;
    BuyRightAfterStop(cfg, st, t1);
  }

  lemma {:induction false} RunSnoc(cfg: Config, ts: seq<Tick>, t: Tick)
    requires cfg.period > 0
    ensures Run(cfg, ts + [t]) == Then(Run(cfg, ts), Step(cfg, Run(cfg, ts).0, t))
    ensures ts == [] ==> Run(cfg, ts) == (START, [])
    ensures Run(cfg, ts).1 == [] ==> Run(cfg, ts + [t]) == Step(cfg, Run(cfg, ts).0, t)
  {
    assert (ts + [t])[..|ts|] == ts;
    var events := Step(cfg, Run(cfg, ts).0, t).1;
    assert [] + events == events;
  }

  /** A first tick without open positions opens a bar and sends nothing. */
  lemma {:induction false} OpensBar(cfg: Config, t: Tick)
    requires cfg.period > 0 && t.stopRead == t.takeRead == Entries([])
    ensures Step(cfg, START, t) == (START.(bars := map[t.data.symbol := OpenFrom(t.data, cfg.period)]), [])
  {
    var fed := START.(bars := map[t.data.symbol := OpenFrom(t.data, cfg.period)]);
    assert Fed(cfg, START, t.data) == fed;
    assert Dispatch(cfg, fed, t) == (fed, []);
    assert Completed(cfg, START, t) == None;
    var none: seq<Event> := [];
    assert none + none == none;
  }

  const FREE := Channel(0, false, false, 0, TimedOut, 0, 0)

  const STOP_AT_99 := Config(60, 2, true, (entry: real) => 99.0, (entry: real) => 200.0)

  const AT_100 := Tick(MarketData("X", 100.0, 1.0, 100.0, 100.0, 0.0, 0), Entries([]), Entries([]), 0, FREE,
                       AnalysisFailed, Entries([]), Entries([]), 0, FREE)

  const AT_90 := AT_100.(data := MarketData("X", 90.0, 1.0, 90.0, 90.0, 0.0, 60), stopRead := Entries([100.0]),
                         analysis := Says("X", Buy), barStopRead := Entries([100.0]), barTakeRead := Entries([100.0]))

  lemma {:induction false} BreachingPairExists()
    ensures BreachingPair(STOP_AT_99, AT_100, AT_90) && ClockRuns([AT_100, AT_90])
  {
    assert StopHit(STOP_AT_99, AT_90.stopRead.prices[0], 90.0);
  }

  // ---------------------------------------------------------------- the run-wide invariant

  /** Clock readings do not go back, within a tick or between ticks. */
  predicate ClockRuns(ts: seq<Tick>) {
    && (forall i :: 0 <= i < |ts| ==>
          ts[i].clock <= ts[i].channel.acceptedAt <= ts[i].channel.storedAt <= ts[i].barClock
          <= ts[i].barChannel.acceptedAt <= ts[i].barChannel.storedAt)
    && (forall i, j :: 0 <= i < j < |ts| ==> ts[i].barChannel.storedAt <= ts[j].clock)
  }

  /** Last actions sent, once one more event has been seen. */
  function Remember(memory: map<string, Action>, e: Event): map<string, Action> {
    match e
    case Sent(symbol, action) => memory[symbol := action]
    case Forced(symbol, _, accepted, _) => if accepted then (memory - {symbol})[symbol := Sell] else memory - {symbol}
    case HoldSeen(symbol) => memory - {symbol}
  }

  /** Last actions the gate remembers, as the trace tells them. */
  function Remembered(trace: seq<Event>): map<string, Action> {
    if trace == [] then map[] else Remember(Remembered(trace[..|trace|-1]), trace[|trace|-1])
  }

  /** Whether an ordinary signal would repeat the action remembered for its symbol. */
  predicate Repeats(memory: map<string, Action>, symbol: string, action: Action) {
    symbol in memory && memory[symbol] == action
  }

  predicate AcceptedExit(e: Event, symbol: string) {
    e.Forced? && e.accepted && e.symbol == symbol
  }

  /** Accepted forced exits of one symbol keep their distance. */
  predicate Spaced(trace: seq<Event>) {
    forall i, j | 0 <= i < j < |trace| && AcceptedExit(trace[j], trace[j].symbol) ::
      AcceptedExit(trace[i], trace[j].symbol) ==> trace[j].at - trace[i].at >= COOLDOWN
  }

  /** No ordinary signal repeats what was remembered when it was sent. */
  predicate Deduplicated(trace: seq<Event>) {
    forall j :: 0 <= j < |trace| && trace[j].Sent? ==>
      !Repeats(Remembered(trace[..j]), trace[j].symbol, trace[j].action)
  }

  /** Every accepted exit is on record, no later than the record says, and no record lies ahead of the clock. */
  predicate OnRecord(trace: seq<Event>, lastForced: map<string, int>, now: int) {
    && (forall i :: 0 <= i < |trace| && AcceptedExit(trace[i], trace[i].symbol) ==>
          trace[i].symbol in lastForced && trace[i].at <= lastForced[trace[i].symbol])
    && (forall symbol :: symbol in lastForced ==> lastForced[symbol] <= now)
  }

  predicate GateOk(cfg: Config, st: State, trace: seq<Event>, now: int) {
    && Remembered(trace) == st.lastSent
    && OnRecord(trace, st.lastForced, now)
    && Spaced(trace) && Deduplicated(trace)
    && |st.queue| <= cfg.capacity
  }

  lemma {:induction false} RememberedSnoc(trace: seq<Event>, e: Event)
    ensures Remembered(trace + [e]) == Remember(Remembered(trace), e)
  {
    assert (trace + [e])[..|trace|] == trace;
  }

  lemma {:induction false} DedupSnoc(trace: seq<Event>, e: Event)
    requires Deduplicated(trace)
    requires e.Sent? ==> !Repeats(Remembered(trace), e.symbol, e.action)
    ensures Deduplicated(trace + [e])
  {
    var next := trace + [e];
    forall j | 0 <= j < |next| && next[j].Sent?
      ensures !Repeats(Remembered(next[..j]), next[j].symbol, next[j].action)
    {
      if j < |trace| {
        assert next[..j] == trace[..j] && next[j] == trace[j];
      } else {
        assert next[..j] == trace;
      }
    }
  }

  lemma {:induction false} SpacedSnoc(trace: seq<Event>, e: Event, lastForced: map<string, int>, now: int)
    requires Spaced(trace) && OnRecord(trace, lastForced, now)
    requires AcceptedExit(e, e.symbol) ==> e.symbol !in lastForced || e.at - lastForced[e.symbol] >= COOLDOWN
    ensures Spaced(trace + [e])
  {}

  /** One more event in the trace, with what it does to the gate's memory. */
  lemma {:induction false} EventKeepsOk(cfg: Config, st: State, st': State, trace: seq<Event>, e: Event, now: int,
                                        later: int)
    requires GateOk(cfg, st, trace, now) && now <= later
    requires st'.lastSent == Remember(st.lastSent, e) && |st'.queue| <= cfg.capacity
    requires e.Sent? ==> !Repeats(st.lastSent, e.symbol, e.action)
    requires if AcceptedExit(e, e.symbol) then
               && (e.symbol !in st.lastForced || e.at - st.lastForced[e.symbol] >= COOLDOWN)
               && e.at <= later && st'.lastForced == st.lastForced[e.symbol := later]
             else st'.lastForced == st.lastForced
    ensures GateOk(cfg, st', trace + [e], later)
  {
    SpacedSnoc(trace, e, st.lastForced, now);
    DedupSnoc(trace, e);
    RememberedSnoc(trace, e);
    assert OnRecord(trace + [e], st'.lastForced, later);
  }

  lemma {:induction false} SendBounded(cfg: Config, queue: seq<Queued>, sig: Queued, ch: Channel)
    requires |queue| <= cfg.capacity
    ensures |Send(cfg, queue, sig, ch).queue| <= cfg.capacity
  {}

  lemma {:induction false} ForcedKeepsOk(cfg: Config, st: State, trace: seq<Event>, symbol: string, kind: ExitKind,
                                         clock: int, ch: Channel, now: int)
    requires GateOk(cfg, st, trace, now) && now <= clock <= ch.acceptedAt <= ch.storedAt
    ensures var r := TryForced(cfg, st, symbol, kind, clock, ch);
            GateOk(cfg, r.0, trace + r.1, ch.storedAt)
  {
    var (st', events) := TryForced(cfg, st, symbol, kind, clock, ch);
    if events == [] {
      LaterKeepsOk(cfg, st, trace, now, ch.storedAt);
    } else {
      SendBounded(cfg, st.queue, ExitSignal(symbol, kind), ch);
      EventKeepsOk(cfg, st, st', trace, events[0], now, ch.storedAt);
    }
  }

  lemma {:induction false} FollowKeepsOk(cfg: Config, st: State, trace: seq<Event>, symbol: string, action: Action,
                                         ch: Channel, now: int)
    requires GateOk(cfg, st, trace, now)
    ensures var r := Follow(cfg, st, symbol, action, ch);
            GateOk(cfg, r.0, trace + r.1, now)
  {
    var (st', events) := Follow(cfg, st, symbol, action, ch);
    SendBounded(cfg, st.queue, StrategySignal(symbol, action), ch);
    if events == [] {
      SameMemory(cfg, st, st', trace, now);
    } else {
      EventKeepsOk(cfg, st, st', trace, events[0], now, now);
    }
  }

  /** Counters and bars are of no concern to the gate. */
  lemma {:induction false} SameMemory(cfg: Config, st: State, st': State, trace: seq<Event>, now: int)
    requires GateOk(cfg, st, trace, now)
    requires st'.lastSent == st.lastSent && st'.lastForced == st.lastForced && |st'.queue| <= cfg.capacity
    ensures GateOk(cfg, st', trace, now)
    ensures trace + [] == trace
  {}

  lemma {:induction false} LaterKeepsOk(cfg: Config, st: State, trace: seq<Event>, now: int, later: int)
    requires GateOk(cfg, st, trace, now) && now <= later
    ensures GateOk(cfg, st, trace, later)
    ensures trace + [] == trace
  {}

  lemma {:induction false} StepKeepsOk(cfg: Config, st: State, trace: seq<Event>, t: Tick, now: int)
    requires cfg.period > 0 && GateOk(cfg, st, trace, now) && ClockRuns([t]) && now <= t.clock
    ensures GateOk(cfg, Step(cfg, st, t).0, trace + Step(cfg, st, t).1, t.barChannel.storedAt)
  {
    assert [t][0] == t;
    var fed := Fed(cfg, st, t.data);
    SameMemory(cfg, st, fed, trace, now);
    DispatchKeepsOk(cfg, fed, trace, t, now);
    var d, bar := Dispatch(cfg, fed, t), Completed(cfg, st, t);
    BarKeepsOk(cfg, d.0, trace + d.1, t, bar, t.channel.storedAt);
    ThenAppends(trace, d, BarClosed(cfg, d.0, t, bar));
  }

  lemma {:induction false} BarKeepsOk(cfg: Config, st: State, trace: seq<Event>, t: Tick, bar: Option<MarketData>,
                                      now: int)
    requires GateOk(cfg, st, trace, now)
    requires now <= t.barClock <= t.barChannel.acceptedAt <= t.barChannel.storedAt
    ensures GateOk(cfg, BarClosed(cfg, st, t, bar).0, trace + BarClosed(cfg, st, t, bar).1, t.barChannel.storedAt)
  {
    if bar.None? {
      LaterKeepsOk(cfg, st, trace, now, t.barChannel.storedAt);
    } else {
      ExecuteKeepsOk(cfg, st, trace, t, bar.value, now);
    }
  }

  lemma {:induction false} DispatchKeepsOk(cfg: Config, st: State, trace: seq<Event>, t: Tick, now: int)
    requires GateOk(cfg, st, trace, now) && now <= t.clock <= t.channel.acceptedAt <= t.channel.storedAt
    ensures GateOk(cfg, Dispatch(cfg, st, t).0, trace + Dispatch(cfg, st, t).1, t.channel.storedAt)
  {
    match ForcedExit(cfg, t.stopRead, t.takeRead, t.data.price)
    case Exit(kind) => ForcedKeepsOk(cfg, st, trace, t.data.symbol, kind, t.clock, t.channel, now);
    case _ =>
      var (st', events) := Dispatch(cfg, st, t);
      SameMemory(cfg, st, st', trace, now);
      LaterKeepsOk(cfg, st', trace, now, t.channel.storedAt);
  }

  lemma {:induction false} ExecuteKeepsOk(cfg: Config, st: State, trace: seq<Event>, t: Tick, bar: MarketData, now: int)
    requires GateOk(cfg, st, trace, now)
    requires now <= t.barClock <= t.barChannel.acceptedAt <= t.barChannel.storedAt
    ensures GateOk(cfg, Execute(cfg, st, t, bar).0, trace + Execute(cfg, st, t, bar).1, t.barChannel.storedAt)
  {
    var later := t.barChannel.storedAt;
    LaterKeepsOk(cfg, st, trace, now, later);
    if t.analysis.Says? {
      if t.analysis.action == Sell {
        FollowKeepsOk(cfg, st, trace, t.analysis.symbol, Sell, t.barChannel, later);
      } else {
        ResolveKeepsOk(cfg, st, trace, ForcedExit(cfg, t.barStopRead, t.barTakeRead, bar.price), bar.symbol,
                       t.barClock, t.analysis.symbol, t.analysis.action, t.barChannel, now);
      }
    }
  }

  lemma {:induction false} ResolveKeepsOk(cfg: Config, st: State, trace: seq<Event>, exit: ExitCheck, barSymbol: string,
                                          clock: int, symbol: string, action: Action, ch: Channel, now: int)
    requires GateOk(cfg, st, trace, now) && now <= clock <= ch.acceptedAt <= ch.storedAt
    ensures var r := Resolve(cfg, st, exit, barSymbol, clock, symbol, action, ch);
            GateOk(cfg, r.0, trace + r.1, ch.storedAt)
  {
    match exit
    case NoExit =>
      LaterKeepsOk(cfg, st, trace, now, ch.storedAt);
      FollowKeepsOk(cfg, st, trace, symbol, action, ch, ch.storedAt);
    case Exit(kind) =>
      ForcedKeepsOk(cfg, st, trace, barSymbol, kind, clock, ch, now);
    case ReadFailed =>
      UnreadableKeepsOk(cfg, st, trace, symbol, action, ch, now);
  }

  lemma {:induction false} UnreadableKeepsOk(cfg: Config, st: State, trace: seq<Event>, symbol: string, action: Action,
                                             ch: Channel, now: int)
    requires GateOk(cfg, st, trace, now) && now <= ch.storedAt
    ensures var r := Resolve(cfg, st, ReadFailed, "", 0, symbol, action, ch);
            GateOk(cfg, r.0, trace + r.1, ch.storedAt)
  {
    var counted := st.(readFailures := st.readFailures + 1);
    SameMemory(cfg, st, counted, trace, now);
    LaterKeepsOk(cfg, counted, trace, now, ch.storedAt);
    if action == Buy {
      assert Resolve(cfg, st, ReadFailed, "", 0, symbol, action, ch) == (counted, []);
    } else {
      FollowKeepsOk(cfg, counted, trace, symbol, action, ch, ch.storedAt);
      assert Resolve(cfg, st, ReadFailed, "", 0, symbol, action, ch) == Follow(cfg, counted, symbol, action, ch);
    }
  }

  /** The gate's memory, distances, dedup and queue bound hold after every run with a clock that does not go back. */
  lemma {:induction false} RunKeepsOk(cfg: Config, ts: seq<Tick>, start: int)
    requires cfg.period > 0 && ClockRuns(ts) && (ts != [] ==> start <= ts[0].clock)
    ensures var (st, trace) := Run(cfg, ts);
            GateOk(cfg, st, trace, if ts == [] then start else ts[|ts|-1].barChannel.storedAt)
    decreases |ts|
  {
    if ts == [] {
    } else {
      var n := |ts| - 1;
      var pre, t := ts[..n], ts[n];
      RunKeepsOk(cfg, pre, start);
      var (st, trace) := Run(cfg, pre);
      assert [t][0] == t;
      StepKeepsOk(cfg, st, trace, t, if n == 0 then start else ts[n-1].barChannel.storedAt);
    }
  }

  // ---------------------------------------------------------------- the two promises

  /** Over any run, two accepted forced exits of one symbol are at least 30 seconds apart, whichever of the two
      dispatch paths sent them. */
  lemma {:induction false} ForcedExitsKeepTheirDistance(cfg: Config, ts: seq<Tick>, i: nat, j: nat)
    requires cfg.period > 0 && ClockRuns(ts)
    requires var trace := Run(cfg, ts).1;
             i < j < |trace| && AcceptedExit(trace[i], trace[j].symbol) && AcceptedExit(trace[j], trace[j].symbol)
    ensures Run(cfg, ts).1[j].at - Run(cfg, ts).1[i].at >= 30_000_000_000
  {
    RunKeepsOk(cfg, ts, if ts == [] then 0 else ts[0].clock);
  }

  lemma {:induction false} RememberedSince(trace: seq<Event>, i: nat, j: nat)
    requires i < j <= |trace| && trace[i].Sent?
    requires forall k :: i < k < j ==> trace[k].symbol != trace[i].symbol
    ensures Repeats(Remembered(trace[..j]), trace[i].symbol, trace[i].action)
    decreases j
  {
    assert trace[..j] == trace[..j-1] + [trace[j-1]];
    RememberedSnoc(trace[..j-1], trace[j-1]);
    if j == i + 1 {
    } else {
      RememberedSince(trace, i, j - 1);
    }
  }

  /** Over any run, two ordinary signals of one symbol that ask for the same action have another event of that
      symbol between them; if no ordinary signal lies between, it is a HOLD or an attempt at a forced exit. */
  lemma {:induction false} NoRepeatWithoutReset(cfg: Config, ts: seq<Tick>, i: nat, j: nat)
    requires cfg.period > 0 && ClockRuns(ts)
    requires var trace := Run(cfg, ts).1;
             && i < j < |trace| && trace[i].Sent? && trace[i] == trace[j]
             && forall k :: i < k < j && trace[k].symbol == trace[i].symbol ==> !trace[k].Sent?
    ensures var trace := Run(cfg, ts).1;
            exists k :: i < k < j && trace[k].symbol == trace[i].symbol && (trace[k].HoldSeen? || trace[k].Forced?)
  {
    var trace := Run(cfg, ts).1;
    RunKeepsOk(cfg, ts, if ts == [] then 0 else ts[0].clock);
    if forall k :: i < k < j ==> trace[k].symbol != trace[i].symbol {
      RememberedSince(trace, i, j);
      assert false;
    }
    var k :| i < k < j && trace[k].symbol == trace[i].symbol;
    assert !trace[k].Sent?;
  }
}
