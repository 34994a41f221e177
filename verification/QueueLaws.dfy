/** When the signal queue takes a signal, what it holds over a run, and which signals one tick sends. */
module QueueLaws {
  import opened Options
  import opened Signals
  import opened LiveAggregator
  import opened StrategyWorkers
  import opened GateLaws

  // ---------------------------------------------------------------- one send

  /** There is room once the consumer has taken that many signals. */
  predicate RoomAfter(cfg: Config, queue: seq<Queued>, taken: int) {
    0 < cfg.capacity && |queue| - taken < cfg.capacity
  }

  /** rest is the queue without the first taken signals, or empty if it held fewer. */
  predicate LeftAfter(rest: seq<Queued>, queue: seq<Queued>, taken: nat) {
    if taken < |queue| then rest == queue[taken..] else rest == []
  }

  /** The outcome is the signal behind what the consumer has left, if accepted, and otherwise just that. */
  predicate Outcome(r: SendResult, queue: seq<Queued>, sig: Queued, taken: nat, accepted: bool, dropped: bool) {
    && r.accepted == accepted && r.dropped == dropped
    && if accepted then r.queue != [] && r.queue[|r.queue|-1] == sig && LeftAfter(r.queue[..|r.queue|-1], queue, taken)
       else LeftAfter(r.queue, queue, taken)
  }

  /** On a live context an ordinary signal is accepted exactly when there is room at once, and dropped otherwise. */
  lemma {:induction false} OrdinaryAccepted(cfg: Config, queue: seq<Queued>, sig: Queued, ch: Channel)
    requires sig.StrategySignal? && !ch.canceled
    ensures var room := RoomAfter(cfg, queue, ch.taken);
            Outcome(Send(cfg, queue, sig, ch), queue, sig, ch.taken, room, !room)
  {}

  /** On a live context a forced exit is accepted exactly when there is room at once or the wait gives room; otherwise
      it is dropped, unless the context ends the wait. */
  lemma {:induction false} ForcedExitAccepted(cfg: Config, queue: seq<Queued>, sig: Queued, ch: Channel)
    requires sig.ExitSignal? && !ch.canceled
    ensures var room := RoomAfter(cfg, queue, ch.taken);
            var later := ch.wait == GaveRoom && RoomAfter(cfg, queue, ch.taken + ch.takenLater);
            Outcome(Send(cfg, queue, sig, ch), queue, sig, if room then ch.taken else ch.taken + ch.takenLater,
                    room || later, !room && !later && ch.wait != Canceled)
  {}

  /** On a done context any signal is accepted exactly when there is room and the select picks the queue; none is
      counted as dropped. */
  lemma {:induction false} SendOnDoneContext(cfg: Config, queue: seq<Queued>, sig: Queued, ch: Channel)
    requires ch.canceled
    ensures var room := RoomAfter(cfg, queue, ch.taken);
            Outcome(Send(cfg, queue, sig, ch), queue, sig, ch.taken, room && !ch.prefersCancel, false)
  {}

  // ---------------------------------------------------------------- forced exits on a tick

  /** The queue takes a forced exit on a live context, at once or after the wait. */
  predicate TakesExit(cfg: Config, queue: seq<Queued>, ch: Channel) {
    || RoomAfter(cfg, queue, ch.taken)
    || (ch.wait == GaveRoom && RoomAfter(cfg, queue, ch.taken + ch.takenLater))
  }

  /** A tick whose price calls for a forced exit outside the cooldown sends it first of all, and it is accepted exactly
      when the queue takes it. */
  lemma {:induction false} TickExitSent(cfg: Config, st: State, t: Tick, kind: ExitKind)
    requires cfg.period > 0 && ForcedExit(cfg, t.stopRead, t.takeRead, t.data.price) == Exit(kind)
    requires !Cooling(st, t.data.symbol, t.clock) && !t.channel.canceled
    ensures var events := Step(cfg, st, t).1;
            events != [] && events[0] == Forced(t.data.symbol, kind, TakesExit(cfg, st.queue, t.channel),
                                                t.channel.acceptedAt)
  {
    ForcedExitAccepted(cfg, st.queue, ExitSignal(t.data.symbol, kind), t.channel);
    TickExitFirst(cfg, st, t, kind);
  }

  lemma {:induction false} TickExitFirst(cfg: Config, st: State, t: Tick, kind: ExitKind)
    requires cfg.period > 0 && ForcedExit(cfg, t.stopRead, t.takeRead, t.data.price) == Exit(kind)
    requires !Cooling(st, t.data.symbol, t.clock)
    ensures var events := Step(cfg, st, t).1;
            events != []
            && events[0] == Forced(t.data.symbol, kind,
                                   Send(cfg, st.queue, ExitSignal(t.data.symbol, kind), t.channel).accepted,
                                   t.channel.acceptedAt)
  {
    var fed := Fed(cfg, st, t.data);
    assert Dispatched(cfg, st, t) == TryForced(cfg, fed, t.data.symbol, kind, t.clock, t.channel);
  }

  /** So a readable tick at or below the stop of an open position gets its SELL into the queue: outside the cooldown, on
      a live context, even when the queue is full, if the consumer makes room in time. */
  lemma {:induction false} StopLossGetsThrough(cfg: Config, st: State, t: Tick, entry: real)
    requires cfg.period > 0 && cfg.hasReader && t.stopRead.Entries? && entry in t.stopRead.prices
    requires entry > 0.0 && cfg.stopPrice(entry) > 0.0 && t.data.price <= cfg.stopPrice(entry)
    requires t.data.symbol in st.lastForced ==> t.clock - st.lastForced[t.data.symbol] >= 30_000_000_000
    requires !t.channel.canceled && TakesExit(cfg, st.queue, t.channel)
    ensures var events := Step(cfg, st, t).1;
            events != [] && events[0] == Forced(t.data.symbol, StopLoss, true, t.channel.acceptedAt)
  {
    var i :| 0 <= i < |t.stopRead.prices| && t.stopRead.prices[i] == entry;
    assert StopHit(cfg, t.stopRead.prices[i], t.data.price);
    TickExitSent(cfg, st, t, StopLoss);
  }

  // ---------------------------------------------------------------- signals on a completed bar

  /** A completed bar on which the strategy says anything but SELL, and whose close calls for a forced exit outside the
      cooldown, sends that exit instead. */
  lemma {:induction false} BarExitSent(cfg: Config, st: State, t: Tick, symbol: string, action: Action, kind: ExitKind)
    requires cfg.period > 0 && Completed(cfg, st, t).Some? && t.analysis == Says(symbol, action) && action != Sell
    requires ForcedExit(cfg, t.barStopRead, t.barTakeRead, Completed(cfg, st, t).value.price) == Exit(kind)
    requires !Cooling(Dispatched(cfg, st, t).0, t.data.symbol, t.barClock) && !t.barChannel.canceled
    ensures var (mid, first) := Dispatched(cfg, st, t);
            Step(cfg, st, t).1 == first + [Forced(t.data.symbol, kind, TakesExit(cfg, mid.queue, t.barChannel),
                                                  t.barChannel.acceptedAt)]
  {
    var (mid, first) := Dispatched(cfg, st, t);
    ForcedExitAccepted(cfg, mid.queue, ExitSignal(t.data.symbol, kind), t.barChannel);
    assert Completed(cfg, st, t).value.symbol == t.data.symbol;
  }

  /** A strategy's SELL is sent exactly when a bar is completed, the last action sent for its symbol is not SELL and the
      queue takes it; positions are not looked at. */
  lemma {:induction false} SellGate(cfg: Config, st: State, t: Tick, symbol: string)
    requires cfg.period > 0
    ensures var mid := Dispatched(cfg, st, t).0;
            Sent(symbol, Sell) in Step(cfg, st, t).1 <==>
              && Completed(cfg, st, t).Some? && t.analysis == Says(symbol, Sell)
              && !(symbol in mid.lastSent && mid.lastSent[symbol] == Sell)
              && Send(cfg, mid.queue, StrategySignal(symbol, Sell), t.barChannel).accepted
  {
    var bar := Completed(cfg, st, t);
    var (mid, first) := Dispatched(cfg, st, t);
    assert Sent(symbol, Sell) !in first;
    if bar.Some? {
      var second := Execute(cfg, mid, t, bar.value).1;
      assert |second| <= 1;
    }
  }

  /** A HOLD is noted exactly when a bar is completed and its close calls for no forced exit, readable or not; then
      the last action of its symbol is forgotten. */
  lemma {:induction false} HoldGate(cfg: Config, st: State, t: Tick, symbol: string)
    requires cfg.period > 0
    ensures HoldSeen(symbol) in Step(cfg, st, t).1 <==>
              && Completed(cfg, st, t).Some? && t.analysis == Says(symbol, Hold)
              && !ForcedExit(cfg, t.barStopRead, t.barTakeRead, Completed(cfg, st, t).value.price).Exit?
    ensures HoldSeen(symbol) in Step(cfg, st, t).1 ==> symbol !in Step(cfg, st, t).0.lastSent
  {
    var (mid, first) := Dispatched(cfg, st, t);
    assert HoldSeen(symbol) !in first;
    if Completed(cfg, st, t).Some? {
      HoldOnBar(cfg, mid, t, Completed(cfg, st, t).value, symbol);
    }
  }

  lemma {:induction false} HoldOnBar(cfg: Config, st: State, t: Tick, bar: MarketData, symbol: string)
    ensures HoldSeen(symbol) in Execute(cfg, st, t, bar).1 <==>
              t.analysis == Says(symbol, Hold) && !ForcedExit(cfg, t.barStopRead, t.barTakeRead, bar.price).Exit?
    ensures HoldSeen(symbol) in Execute(cfg, st, t, bar).1 ==> symbol !in Execute(cfg, st, t, bar).0.lastSent
  {
    assert |Execute(cfg, st, t, bar).1| <= 1;
  }

  /** The positions could not be read as far as the check needed them. */
  predicate Unknown(cfg: Config, stopRead: PositionRead, takeRead: PositionRead, price: real) {
    && cfg.hasReader
    && (stopRead.Unreadable? || (takeRead.Unreadable? && !AnyStopHit(cfg, stopRead.prices, price)))
  }

  /** Failed reads are counted once per check: for the tick, and for a completed bar on which the strategy says anything
      but SELL. */
  lemma {:induction false} FailedReadsCounted(cfg: Config, st: State, t: Tick)
    requires cfg.period > 0
    ensures var bar := Completed(cfg, st, t);
            var onTick := Unknown(cfg, t.stopRead, t.takeRead, t.data.price);
            var onBar := bar.Some? && t.analysis.Says? && t.analysis.action != Sell
                         && Unknown(cfg, t.barStopRead, t.barTakeRead, bar.value.price);
            var failures := (if onTick then 1 else 0) + (if onBar then 1 else 0);
            Step(cfg, st, t).0.readFailures == st.readFailures + failures
  {
    var mid, bar := Dispatched(cfg, st, t).0, Completed(cfg, st, t);
    UnknownFails(cfg, t.stopRead, t.takeRead, t.data.price);
    assert mid.readFailures == st.readFailures + if Unknown(cfg, t.stopRead, t.takeRead, t.data.price) then 1 else 0;
    if bar.Some? {
      UnknownFails(cfg, t.barStopRead, t.barTakeRead, bar.value.price);
      BarFailuresCounted(cfg, mid, t, bar.value);
    }
  }

  lemma {:induction false} UnknownFails(cfg: Config, stopRead: PositionRead, takeRead: PositionRead, price: real)
    ensures Unknown(cfg, stopRead, takeRead, price) <==> ForcedExit(cfg, stopRead, takeRead, price) == ReadFailed
  {}

  lemma {:induction false} BarFailuresCounted(cfg: Config, st: State, t: Tick, bar: MarketData)
    ensures var failed := t.analysis.Says? && t.analysis.action != Sell
                          && ForcedExit(cfg, t.barStopRead, t.barTakeRead, bar.price) == ReadFailed;
            Execute(cfg, st, t, bar).0.readFailures == st.readFailures + if failed then 1 else 0
  {}

  /** Drops are counted: of a forced exit outside the cooldown that a live context lets time out, and of an ordinary
      signal that is no repetition and finds no room on a live context. */
  lemma {:induction false} DropsCounted(cfg: Config, st: State, symbol: string, kind: ExitKind, action: Action,
                                        clock: int, ch: Channel)
    ensures var timedOut := !Cooling(st, symbol, clock) && !ch.canceled && ch.wait != Canceled
                            && !TakesExit(cfg, st.queue, ch);
            TryForced(cfg, st, symbol, kind, clock, ch).0.dropped == st.dropped + if timedOut then 1 else 0
    ensures var noRoom := !Repeats(st.lastSent, symbol, action) && !ch.canceled && !RoomAfter(cfg, st.queue, ch.taken);
            TryOrdinary(cfg, st, symbol, action, ch).0.dropped == st.dropped + if noRoom then 1 else 0
  {
    if !ch.canceled {
      ForcedExitAccepted(cfg, st.queue, ExitSignal(symbol, kind), ch);
      OrdinaryAccepted(cfg, st.queue, StrategySignal(symbol, action), ch);
    } else {
      SendOnDoneContext(cfg, st.queue, ExitSignal(symbol, kind), ch);
      SendOnDoneContext(cfg, st.queue, StrategySignal(symbol, action), ch);
    }
  }

  // ---------------------------------------------------------------- the queue over a run

  /** The signal that an event has put into the queue, if any. */
  function SignalOf(e: Event): seq<Queued> {
    match e
    case Sent(symbol, action) => [StrategySignal(symbol, action)]
    case Forced(symbol, kind, accepted, _) => if accepted then [ExitSignal(symbol, kind)] else []
    case HoldSeen(_) => []
  }

  /** Every signal accepted so far, oldest first. */
  function AllAccepted(trace: seq<Event>): seq<Queued> {
    if trace == [] then [] else AllAccepted(trace[..|trace|-1]) + SignalOf(trace[|trace|-1])
  }

  /** The queue holds the latest of the accepted signals, in the order of their acceptance. */
  predicate HoldsLatest(queue: seq<Queued>, trace: seq<Event>) {
    |queue| <= |AllAccepted(trace)| && queue == AllAccepted(trace)[|AllAccepted(trace)|-|queue|..]
  }

  lemma {:induction false} DropKeepsLatest(queue: seq<Queued>, trace: seq<Event>, n: nat)
    requires HoldsLatest(queue, trace)
    ensures HoldsLatest(Drop(queue, n), trace)
  {}

  lemma {:induction false} AddKeepsLatest(queue: seq<Queued>, trace: seq<Event>, e: Event)
    requires HoldsLatest(queue, trace)
    ensures HoldsLatest(queue + SignalOf(e), trace + [e])
  {
    assert (trace + [e])[..|trace|] == trace;
    var all := AllAccepted(trace);
    assert (all + SignalOf(e))[|all|-|queue|..] == queue + SignalOf(e);
  }

  lemma {:induction false} SendKeepsLatest(cfg: Config, queue: seq<Queued>, sig: Queued, ch: Channel,
                                           trace: seq<Event>, e: Event)
    requires HoldsLatest(queue, trace)
    requires SignalOf(e) == if Send(cfg, queue, sig, ch).accepted then [sig] else []
    ensures HoldsLatest(Send(cfg, queue, sig, ch).queue, trace + [e])
    ensures !Send(cfg, queue, sig, ch).accepted ==> HoldsLatest(Send(cfg, queue, sig, ch).queue, trace)
  {
    var q := Drop(queue, ch.taken);
    var waits := sig.ExitSignal? && !ch.canceled && |q| >= cfg.capacity;
    var left := if waits then Drop(q, ch.takenLater) else q;
    DropKeepsLatest(queue, trace, ch.taken);
    DropKeepsLatest(q, trace, ch.takenLater);
    AddKeepsLatest(left, trace, e);
    assert left + [] == left;
  }

  lemma {:induction false} ForcedKeepsLatest(cfg: Config, st: State, symbol: string, kind: ExitKind, clock: int,
                                             ch: Channel, trace: seq<Event>)
    requires HoldsLatest(st.queue, trace)
    ensures var r := TryForced(cfg, st, symbol, kind, clock, ch);
            HoldsLatest(r.0.queue, trace + r.1)
  {
    var accepted := Send(cfg, st.queue, ExitSignal(symbol, kind), ch).accepted;
    SendKeepsLatest(cfg, st.queue, ExitSignal(symbol, kind), ch, trace, Forced(symbol, kind, accepted, ch.acceptedAt));
    assert trace + [] == trace;
  }

  lemma {:induction false} OrdinaryKeepsLatest(cfg: Config, st: State, symbol: string, action: Action, ch: Channel,
                                               trace: seq<Event>)
    requires HoldsLatest(st.queue, trace)
    ensures var r := TryOrdinary(cfg, st, symbol, action, ch);
            HoldsLatest(r.0.queue, trace + r.1)
  {
    assert trace + [] == trace;
    if !(symbol in st.lastSent && st.lastSent[symbol] == action) {
      var accepted := Send(cfg, st.queue, StrategySignal(symbol, action), ch).accepted;
      SendKeepsLatest(cfg, st.queue, StrategySignal(symbol, action), ch, trace,
                      if accepted then Sent(symbol, action) else HoldSeen(symbol));
    }
  }

  lemma {:induction false} FollowKeepsLatest(cfg: Config, st: State, symbol: string, action: Action, ch: Channel,
                                             trace: seq<Event>)
    requires HoldsLatest(st.queue, trace)
    ensures var r := Follow(cfg, st, symbol, action, ch);
            HoldsLatest(r.0.queue, trace + r.1)
  {
    if action == Hold {
      AddKeepsLatest(st.queue, trace, HoldSeen(symbol));
      assert st.queue + [] == st.queue;
    } else {
      OrdinaryKeepsLatest(cfg, st, symbol, action, ch, trace);
    }
  }

  lemma {:induction false} StepKeepsLatest(cfg: Config, st: State, t: Tick, trace: seq<Event>)
    requires cfg.period > 0 && HoldsLatest(st.queue, trace)
    ensures HoldsLatest(Step(cfg, st, t).0.queue, trace + Step(cfg, st, t).1)
  {
    var d, bar := Dispatched(cfg, st, t), Completed(cfg, st, t);
    TickKeepsLatest(cfg, Fed(cfg, st, t.data), t, trace);
    BarKeepsLatest(cfg, d.0, t, bar, trace + d.1);
    ThenAppends(trace, d, BarClosed(cfg, d.0, t, bar));
  }

  lemma {:induction false} TickKeepsLatest(cfg: Config, st: State, t: Tick, trace: seq<Event>)
    requires HoldsLatest(st.queue, trace)
    ensures HoldsLatest(Dispatch(cfg, st, t).0.queue, trace + Dispatch(cfg, st, t).1)
  {
    match ForcedExit(cfg, t.stopRead, t.takeRead, t.data.price)
    case Exit(kind) => ForcedKeepsLatest(cfg, st, t.data.symbol, kind, t.clock, t.channel, trace);
    case _ => assert trace + [] == trace;
  }

  lemma {:induction false} BarKeepsLatest(cfg: Config, st: State, t: Tick, bar: Option<MarketData>, trace: seq<Event>)
    requires HoldsLatest(st.queue, trace)
    ensures HoldsLatest(BarClosed(cfg, st, t, bar).0.queue, trace + BarClosed(cfg, st, t, bar).1)
  {
    assert trace + [] == trace;
    if bar.Some? && t.analysis.Says? {
      var symbol, action := t.analysis.symbol, t.analysis.action;
      if action == Sell {
        FollowKeepsLatest(cfg, st, symbol, action, t.barChannel, trace);
      } else {
        ResolveKeepsLatest(cfg, st, ForcedExit(cfg, t.barStopRead, t.barTakeRead, bar.value.price), bar.value.symbol,
                           t.barClock, symbol, action, t.barChannel, trace);
      }
    }
  }

  lemma {:induction false} ResolveKeepsLatest(cfg: Config, st: State, exit: ExitCheck, barSymbol: string, clock: int,
                                              symbol: string, action: Action, ch: Channel, trace: seq<Event>)
    requires HoldsLatest(st.queue, trace)
    ensures var r := Resolve(cfg, st, exit, barSymbol, clock, symbol, action, ch);
            HoldsLatest(r.0.queue, trace + r.1)
  {
    assert trace + [] == trace;
    match exit
    case Exit(kind) => ForcedKeepsLatest(cfg, st, barSymbol, kind, clock, ch, trace);
    case NoExit => FollowKeepsLatest(cfg, st, symbol, action, ch, trace);
    case ReadFailed => FollowKeepsLatest(cfg, st.(readFailures := st.readFailures + 1), symbol, action, ch, trace);
  }

  /** After every run the queue holds the latest accepted signals in the order of their acceptance: none is lost,
      reordered or invented, and the consumer has taken exactly those before them. */
  lemma {:induction false} QueueHoldsLatest(cfg: Config, ts: seq<Tick>)
    requires cfg.period > 0
    ensures HoldsLatest(Run(cfg, ts).0.queue, Run(cfg, ts).1)
    decreases |ts|
  {
    if ts == [] {
    } else {
      var n := |ts| - 1;
      QueueHoldsLatest(cfg, ts[..n]);
      var (st, trace) := Run(cfg, ts[..n]);
      StepKeepsLatest(cfg, st, ts[n], trace);
    }
  }
}
