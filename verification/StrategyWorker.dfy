/** The signal gate of the strategy worker in bar mode: forced exits, cooldown, dedup, bounded queue. */
module StrategyWorkers {
  import opened Options
  import opened Signals
  import opened LiveAggregator

  /** ForcedExitCooldown, 30 seconds in nanoseconds. */
  const COOLDOWN := 30_000_000_000

  datatype ExitKind = StopLoss | TakeProfit

  datatype Queued =
    | StrategySignal(symbol: string, action: Action)
    | ExitSignal(symbol: string, kind: ExitKind)

  /** Entry prices of the open BUY positions, or a failed read. */
  datatype PositionRead =
    | Unreadable
    | Entries(prices: seq<real>)

  datatype Wait = GaveRoom | Canceled | TimedOut

  /** How the channel behaves during one send: what the consumer takes before and while waiting, whether the
      context is done, which ready case the select picks, and when the send and the bookkeeping happen. */
  datatype Channel = Channel(taken: nat, canceled: bool, prefersCancel: bool, takenLater: nat, wait: Wait,
                             acceptedAt: int, storedAt: int)

  datatype Analysis =
    | AnalysisFailed
    | Says(symbol: string, action: Action)

  /** Everything that can happen while one tick is processed. */
  datatype Tick = Tick(
    data: MarketData,
    stopRead: PositionRead,
    takeRead: PositionRead,
    clock: int,
    channel: Channel,
    analysis: Analysis,
    barStopRead: PositionRead,
    barTakeRead: PositionRead,
    barClock: int,
    barChannel: Channel)

  /** Settings: bar period, queue capacity, whether positions can be read at all, and the strategy's exit prices. */
  datatype Config = Config(
    period: int,
    capacity: nat,
    hasReader: bool,
    stopPrice: real -> real,
    takePrice: real -> real)

  datatype State = State(
    bars: map<string, OpenBar>,
    lastSent: map<string, Action>,
    lastForced: map<string, int>,
    queue: seq<Queued>,
    dropped: nat,
    readFailures: nat)

  const START := State(map[], map[], map[], [], 0, 0)

  /** What an observer sees of a run. */
  datatype Event =
    | Sent(symbol: string, action: Action)
    | Forced(symbol: string, kind: ExitKind, accepted: bool, at: int)
    | HoldSeen(symbol: string)

  // ---------------------------------------------------------------- exits

  predicate StopHit(cfg: Config, entry: real, price: real) {
    entry > 0.0 && cfg.stopPrice(entry) > 0.0 && price <= cfg.stopPrice(entry)
  }

  predicate TakeHit(cfg: Config, entry: real, price: real) {
    entry > 0.0 && cfg.takePrice(entry) > 0.0 && price >= cfg.takePrice(entry)
  }

  predicate AnyStopHit(cfg: Config, entries: seq<real>, price: real) {
    exists i :: 0 <= i < |entries| && StopHit(cfg, entries[i], price)
  }

  predicate AnyTakeHit(cfg: Config, entries: seq<real>, price: real) {
    exists i :: 0 <= i < |entries| && TakeHit(cfg, entries[i], price)
  }

  datatype ExitCheck =
    | ReadFailed
    | NoExit
    | Exit(kind: ExitKind)

  /** Stop-loss first; take-profit is looked at only when no stop is breached. */
  function ForcedExit(cfg: Config, stopRead: PositionRead, takeRead: PositionRead, price: real): ExitCheck {
    if !cfg.hasReader then NoExit
    else if stopRead.Unreadable? then ReadFailed
    else if AnyStopHit(cfg, stopRead.prices, price) then Exit(StopLoss)
    else if takeRead.Unreadable? then ReadFailed
    else if AnyTakeHit(cfg, takeRead.prices, price) then Exit(TakeProfit)
    else NoExit
  }

  // ---------------------------------------------------------------- the queue

  function Drop<T>(s: seq<T>, n: nat): seq<T> {
    if n >= |s| then [] else s[n..]
  }

  datatype SendResult = SendResult(queue: seq<Queued>, accepted: bool, dropped: bool)

  /** An ordinary signal that finds the queue full is dropped; a forced exit waits for room. */
  function Send(cfg: Config, queue: seq<Queued>, sig: Queued, ch: Channel): SendResult {
    var q := Drop(queue, ch.taken);
    var room := |q| < cfg.capacity;
    if ch.canceled && (ch.prefersCancel || !room) then SendResult(q, false, false)
    else if room then SendResult(q + [sig], true, false)
    else if sig.StrategySignal? then SendResult(q, false, true)
    else
      var later := Drop(q, ch.takenLater);
      if ch.wait == GaveRoom && |later| < cfg.capacity then SendResult(later + [sig], true, false)
      else SendResult(later, false, ch.wait != Canceled)
  }

  /** A forced exit, unless one was accepted for the symbol less than the cooldown ago. */
  function TryForced(cfg: Config, st: State, symbol: string, kind: ExitKind, clock: int, ch: Channel)
    : (State, seq<Event>)
  {
    if symbol in st.lastForced && clock - st.lastForced[symbol] < COOLDOWN then (st, [])
    else
      var r := Send(cfg, st.queue, ExitSignal(symbol, kind), ch);
      var cleared := st.lastSent - {symbol};
      (st.(queue := r.queue, dropped := st.dropped + (if r.dropped then 1 else 0),
           lastSent := if r.accepted then cleared[symbol := Sell] else cleared,
           lastForced := if r.accepted then st.lastForced[symbol := ch.storedAt] else st.lastForced),
       [Forced(symbol, kind, r.accepted, ch.acceptedAt)])
  }

  /** An ordinary signal, unless it repeats the last action sent for its symbol. */
  function TryOrdinary(cfg: Config, st: State, symbol: string, action: Action, ch: Channel): (State, seq<Event>) {
    if symbol in st.lastSent && st.lastSent[symbol] == action then (st, [])
    else
      var r := Send(cfg, st.queue, StrategySignal(symbol, action), ch);
      (st.(queue := r.queue, dropped := st.dropped + (if r.dropped then 1 else 0),
           lastSent := if r.accepted then st.lastSent[symbol := action] else st.lastSent),
       if r.accepted then [Sent(symbol, action)] else [])
  }

  function Dispatch(cfg: Config, st: State, t: Tick): (State, seq<Event>) {
    match ForcedExit(cfg, t.stopRead, t.takeRead, t.data.price)
    case ReadFailed => (st.(readFailures := st.readFailures + 1), [])
    case NoExit => (st, [])
    case Exit(kind) => TryForced(cfg, st, t.data.symbol, kind, t.clock, t.channel)
  }

  /** What remains of a strategy's answer once forced exits have been ruled out. */
  function Follow(cfg: Config, st: State, symbol: string, action: Action, ch: Channel): (State, seq<Event>) {
    if action == Hold then (st.(lastSent := st.lastSent - {symbol}), [HoldSeen(symbol)])
    else TryOrdinary(cfg, st, symbol, action, ch)
  }

  function Execute(cfg: Config, st: State, t: Tick, bar: MarketData): (State, seq<Event>) {
    match t.analysis
    case AnalysisFailed => (st, [])
    case Says(symbol, action) =>
      if action == Sell then Follow(cfg, st, symbol, action, t.barChannel)
      else
        var exit := ForcedExit(cfg, t.barStopRead, t.barTakeRead, bar.price);
        Resolve(cfg, st, exit, bar.symbol, t.barClock, symbol, action, t.barChannel)
  }

  /** A strategy's answer against what the check for forced exits found. */
  function Resolve(cfg: Config, st: State, exit: ExitCheck, barSymbol: string, clock: int, symbol: string,
                   action: Action, ch: Channel): (State, seq<Event>)
  {
    match exit
    case NoExit => Follow(cfg, st, symbol, action, ch)
    case Exit(kind) => TryForced(cfg, st, barSymbol, kind, clock, ch)
    case ReadFailed =>
      var counted := st.(readFailures := st.readFailures + 1);
      if action == Buy then (counted, []) else Follow(cfg, counted, symbol, action, ch)
  }

  function BarOf(st: State, symbol: string): Option<OpenBar> {
    if symbol in st.bars then Some(st.bars[symbol]) else None
  }

  function Completed(cfg: Config, st: State, t: Tick): Option<MarketData>
    requires cfg.period > 0
  {
    Completes(BarOf(st, t.data.symbol), t.data, cfg.period)
  }

  /** The state once the tick has been aggregated. */
  function Fed(cfg: Config, st: State, data: MarketData): State
    requires cfg.period > 0
  {
    st.(bars := st.bars[data.symbol := Feed(BarOf(st, data.symbol), data, cfg.period)])
  }

  /** State and events once the tick's own price has been checked. */
  function Dispatched(cfg: Config, st: State, t: Tick): (State, seq<Event>)
    requires cfg.period > 0
  {
    Dispatch(cfg, Fed(cfg, st, t.data), t)
  }

  /** What a completed bar, if there is one, adds. */
  function BarClosed(cfg: Config, st: State, t: Tick, bar: Option<MarketData>): (State, seq<Event>) {
    if bar.None? then (st, []) else Execute(cfg, st, t, bar.value)
  }

  /** One tick in bar mode. */
  function Step(cfg: Config, st: State, t: Tick): (State, seq<Event>)
    requires cfg.period > 0
  {
    var d := Dispatched(cfg, st, t);
    Then(d, BarClosed(cfg, d.0, t, Completed(cfg, st, t)))
  }

  /** The second outcome after the first: its state, and the events of both. */
  function Then(first: (State, seq<Event>), second: (State, seq<Event>)): (State, seq<Event>) {
    (second.0, first.1 + second.1)
  }

  lemma {:induction false} ThenAppends(log: seq<Event>, first: (State, seq<Event>), second: (State, seq<Event>))
    ensures log + Then(first, second).1 == (log + first.1) + second.1
  {}

  function Run(cfg: Config, ts: seq<Tick>): (State, seq<Event>)
    requires cfg.period > 0
  {
    if ts == [] then (START, [])
    else
      var (st, trace) := Run(cfg, ts[..|ts|-1]);
      var (st', events) := Step(cfg, st, ts[|ts|-1]);
      (st', trace + events)
  }

  class StrategyWorker {
    const cfg: Config
    var bars: map<string, OpenBar>
    var lastSent: map<string, Action>
    var lastForced: map<string, int>
    var queue: seq<Queued>
    var dropped: nat
    var readFailures: nat
    ghost var trace: seq<Event>

    constructor (cfg: Config)
      ensures this.cfg == cfg && View() == START && trace == []
    {
      this.cfg := cfg;
      bars, lastSent, lastForced, queue, dropped, readFailures := map[], map[], map[], [], 0, 0;
      trace := [];
    }

    ghost function View(): State
      reads this
    {
      State(bars, lastSent, lastForced, queue, dropped, readFailures)
    }

    method CheckStopLoss(entries: seq<real>, price: real) returns (hit: bool)
      ensures hit <==> AnyStopHit(cfg, entries, price)
    {
      for i := 0 to |entries|
        invariant !AnyStopHit(cfg, entries[..i], price)
      {
        assert entries[..i+1] == entries[..i] + [entries[i]];
        if entries[i] > 0.0 {
          var stop := cfg.stopPrice(entries[i]);
          if stop > 0.0 && price <= stop {
            assert StopHit(cfg, entries[i], price);
            return true;
          }
        }
      }
      assert entries[..|entries|] == entries;
      return false;
    }

    method CheckTakeProfit(entries: seq<real>, price: real) returns (hit: bool)
      ensures hit <==> AnyTakeHit(cfg, entries, price)
    {
      for i := 0 to |entries|
        invariant !AnyTakeHit(cfg, entries[..i], price)
      {
        assert entries[..i+1] == entries[..i] + [entries[i]];
        if entries[i] > 0.0 {
          var take := cfg.takePrice(entries[i]);
          if take > 0.0 && price >= take {
            assert TakeHit(cfg, entries[i], price);
            return true;
          }
        }
      }
      assert entries[..|entries|] == entries;
      return false;
    }

    method ForcedExitSignal(stopRead: PositionRead, takeRead: PositionRead, price: real) returns (r: ExitCheck)
      ensures r == ForcedExit(cfg, stopRead, takeRead, price)
    {
      if !cfg.hasReader {
        return NoExit;
      }
      if stopRead.Unreadable? {
        return ReadFailed;
      }
      var stop := CheckStopLoss(stopRead.prices, price);
      if stop {
        return Exit(StopLoss);
      }
      if takeRead.Unreadable? {
        return ReadFailed;
      }
      var take := CheckTakeProfit(takeRead.prices, price);
      return if take then Exit(TakeProfit) else NoExit;
    }

    method SendSignal(sig: Queued, ch: Channel) returns (accepted: bool)
      modifies this`queue, this`lastSent, this`dropped
      ensures var r := Send(cfg, old(queue), sig, ch);
              && queue == r.queue && accepted == r.accepted && dropped == old(dropped) + (if r.dropped then 1 else 0)
      ensures lastSent == if accepted
                          then old(lastSent)[sig.symbol := if sig.StrategySignal? then sig.action else Sell]
                          else old(lastSent)
    {
      queue := Drop(queue, ch.taken);
      var action := if sig.StrategySignal? then sig.action else Sell;
      if ch.canceled && (ch.prefersCancel || |queue| >= cfg.capacity) {
        return false;
      }
      if |queue| < cfg.capacity {
        queue := queue + [sig];
        lastSent := lastSent[sig.symbol := action];
        return true;
      }
      if sig.StrategySignal? {
        dropped := dropped + 1;
        return false;
      }
      queue := Drop(queue, ch.takenLater);
      if ch.wait == GaveRoom && |queue| < cfg.capacity {
        queue := queue + [sig];
        lastSent := lastSent[sig.symbol := action];
        return true;
      }
      if ch.wait != Canceled {
        dropped := dropped + 1;
      }
      return false;
    }

    /** Common to both dispatch paths of a forced exit. */
    method SendForcedExit(symbol: string, kind: ExitKind, clock: int, ch: Channel)
      modifies this
      ensures View() == TryForced(cfg, old(View()), symbol, kind, clock, ch).0
      ensures trace == old(trace) + TryForced(cfg, old(View()), symbol, kind, clock, ch).1
    {
      if symbol in lastForced && clock - lastForced[symbol] < COOLDOWN {
        return;
      }
      lastSent := lastSent - {symbol};
      var accepted := SendSignal(ExitSignal(symbol, kind), ch);
      if accepted {
        lastForced := lastForced[symbol := ch.storedAt];
      }
      trace := trace + [Forced(symbol, kind, accepted, ch.acceptedAt)];
    }

    method DispatchForcedExitIfAny(t: Tick)
      modifies this
      ensures View() == Dispatch(cfg, old(View()), t).0
      ensures trace == old(trace) + Dispatch(cfg, old(View()), t).1
    {
      var exit := ForcedExitSignal(t.stopRead, t.takeRead, t.data.price);
      match exit
      case ReadFailed => readFailures := readFailures + 1;
      case NoExit =>
      case Exit(kind) => SendForcedExit(t.data.symbol, kind, t.clock, t.channel);
    }

    method ExecuteStrategy(t: Tick, bar: MarketData)
      modifies this
      ensures View() == Execute(cfg, old(View()), t, bar).0
      ensures trace == old(trace) + Execute(cfg, old(View()), t, bar).1
    {
      if t.analysis.AnalysisFailed? {
        return;
      }
      var symbol, action := t.analysis.symbol, t.analysis.action;
      if action != Sell {
        var exit := ForcedExitSignal(t.barStopRead, t.barTakeRead, bar.price);
        match exit {
          case ReadFailed =>
            readFailures := readFailures + 1;
            if action == Buy {
              return;
            }
          case NoExit =>
          case Exit(kind) =>
            SendForcedExit(bar.symbol, kind, t.barClock, t.barChannel);
            return;
        }
      }
      if action != Hold {
        if symbol in lastSent && lastSent[symbol] == action {
          return;
        }
        var accepted := SendSignal(StrategySignal(symbol, action), t.barChannel);
        trace := trace + if accepted then [Sent(symbol, action)] else [];
      } else {
        lastSent := lastSent - {symbol};
        trace := trace + [HoldSeen(symbol)];
      }
    }

    method ProcessTickBarMode(t: Tick)
      requires cfg.period > 0
      modifies this
      ensures View() == Step(cfg, old(View()), t).0
      ensures trace == old(trace) + Step(cfg, old(View()), t).1
    {
      ghost var was, log := View(), trace;
      var bar := if t.data.symbol in bars then Some(bars[t.data.symbol]) else None;
      var completed := Completes(bar, t.data, cfg.period);
      bars := bars[t.data.symbol := Feed(bar, t.data, cfg.period)];
      assert View() == Fed(cfg, was, t.data) && completed == Completed(cfg, was, t);
      DispatchForcedExitIfAny(t);
      ghost var mid := View();
      if completed.Some? {
        ExecuteStrategy(t, completed.value);
      }
      ThenAppends(log, Dispatched(cfg, was, t), BarClosed(cfg, mid, t, completed));
    }
  }
}
