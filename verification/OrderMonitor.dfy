/** Watching one order until it is finished, and what that means for the ledger. */
module OrderMonitors {
  import opened Options
  import opened Ledger
  import opened LedgerSell
  import opened LedgerRuns

  /** Answer of the exchange to one status request. */
  datatype Poll =
    | AuthFailure
    | OtherFailure
    | Orders(list: seq<OrderResult>)

  datatype Tick = Tick(poll: Poll, now: int)

  function Refresh(r: OrderResult, o: OrderResult, now: int): OrderResult {
    r.(status := o.status, filledSize := o.filledSize, remainingSize := o.remainingSize,
       averagePrice := o.averagePrice, totalCommission := o.totalCommission, fee := o.fee, updatedAt := now)
  }

  predicate Terminal(status: string) {
    status in {"COMPLETED", "CANCELED", "EXPIRED", "REJECTED"}
  }

  /** First entry for the order from position i on that ends the watch, or the length of the list. */
  function Deciding(list: seq<OrderResult>, id: string): (k: nat)
    ensures k <= |list|
    ensures k < |list| ==> list[k].orderId == id && Terminal(list[k].status)
    ensures forall j :: 0 <= j < k && list[j].orderId == id ==> !Terminal(list[j].status)
  {
    if list == [] then 0
    else if list[0].orderId == id && Terminal(list[0].status) then 0
    else 1 + Deciding(list[1..], id)
  }

  /** The order once the entries of list have been applied in turn. */
  function Applied(r: OrderResult, list: seq<OrderResult>, now: int): OrderResult
    decreases list
  {
    if list == [] then r
    else Applied(if list[0].orderId == r.orderId then Refresh(r, list[0], now) else r, list[1..], now)
  }

  function Listed(list: seq<OrderResult>, id: string): Option<OrderResult> {
    if list == [] then None else if list[0].orderId == id then Some(list[0]) else Listed(list[1..], id)
  }

  predicate Decides(t: Tick, id: string) {
    match t.poll
    case AuthFailure => true
    case OtherFailure => false
    case Orders(list) => Deciding(list, id) < |list|
  }

  function AfterTick(r: OrderResult, t: Tick): OrderResult {
    match t.poll
    case AuthFailure => r.(status := "UNKNOWN_AUTH_ERROR", updatedAt := t.now)
    case OtherFailure => r
    case Orders(list) =>
      var k := Deciding(list, r.orderId);
      Applied(r, if k < |list| then list[..k+1] else list, t.now)
  }

  function AfterTicks(r: OrderResult, ticks: seq<Tick>): OrderResult
    decreases ticks
  {
    if ticks == [] then r else AfterTicks(AfterTick(r, ticks[0]), ticks[1..])
  }

  /** The tick that ends the watch, or the number of ticks. */
  function FirstDecision(ticks: seq<Tick>, id: string): (k: nat)
    ensures k <= |ticks|
    ensures k < |ticks| ==> Decides(ticks[k], id)
    ensures forall j :: 0 <= j < k ==> !Decides(ticks[j], id)
  {
    if ticks == [] || Decides(ticks[0], id) then 0 else 1 + FirstDecision(ticks[1..], id)
  }

  /** The last look at the order, after a timeout or a cancellation. */
  function AfterFinal(r: OrderResult, last: Tick): OrderResult {
    match last.poll
    case Orders(list) =>
      (match Listed(list, r.orderId)
       case None => r
       case Some(o) => Refresh(r, o, last.now))
    case _ => r
  }

  /** State of the order when the watch ends. */
  function FinalOrder(r: OrderResult, ticks: seq<Tick>, last: Tick): OrderResult {
    var k := FirstDecision(ticks, r.orderId);
    if k < |ticks| then AfterTicks(r, ticks[..k+1]) else AfterFinal(AfterTicks(r, ticks), last)
  }

  /** Whether the watch ends with an attempt to record the order. */
  predicate Records(r: OrderResult, ticks: seq<Tick>, last: Tick) {
    FirstDecision(ticks, r.orderId) < |ticks| || !last.poll.Orders? || Listed(last.poll.list, r.orderId).Some?
  }

  /** Whether the completion callback fires. */
  predicate Completes(r: OrderResult, ticks: seq<Tick>) {
    var k := FirstDecision(ticks, r.orderId);
    k < |ticks| && ticks[k].poll.Orders?
    && ticks[k].poll.list[Deciding(ticks[k].poll.list, r.orderId)].status == "COMPLETED"
  }

  class OrderMonitor {
    /** Orders handed to the profit calculator, callbacks fired, and balance refreshes, oldest first. */
    var recorded: seq<OrderResult>
    var callbacks: seq<OrderResult>
    var balanceUpdates: nat

    constructor ()
      ensures recorded == [] && callbacks == [] && balanceUpdates == 0
    {
      recorded, callbacks, balanceUpdates := [], [], 0;
    }

    /** Watches one order through any number of ticks and, if none decides, one last look. */
    method MonitorExecution(result: OrderResult, ticks: seq<Tick>, last: Tick) returns (final: OrderResult)
      modifies this
      ensures final == FinalOrder(result, ticks, last)
      ensures recorded == old(recorded) + if Records(result, ticks, last) then [final] else []
      ensures callbacks == old(callbacks) + if Completes(result, ticks) then [final] else []
      ensures balanceUpdates == old(balanceUpdates) + if Completes(result, ticks) then 1 else 0
    {
      var local := result;
      var i := 0;
      while i < |ticks|
        invariant 0 <= i <= FirstDecision(ticks, result.orderId)
        invariant local == AfterTicks(result, ticks[..i]) && local.orderId == result.orderId
        invariant recorded == old(recorded) && callbacks == old(callbacks) && balanceUpdates == old(balanceUpdates)
      {
        assert ticks[..i+1] == ticks[..i] + [ticks[i]];
        AfterTicksSnoc(result, ticks[..i], ticks[i]);
        var done;
        local, done := CheckOrderStatus(local, ticks[i]);
        if done {
          return local;
        }
        i := i + 1;
      }
      assert ticks[..i] == ticks;
      final := SaveFinalOrderState(local, last);
    }

    method CheckOrderStatus(result: OrderResult, t: Tick) returns (r: OrderResult, done: bool)
      modifies this
      ensures r == AfterTick(result, t) && r.orderId == result.orderId
      ensures done <==> Decides(t, result.orderId)
      ensures recorded == old(recorded) + if done then [r] else []
      ensures var completed := done && t.poll.Orders?
                && t.poll.list[Deciding(t.poll.list, result.orderId)].status == "COMPLETED";
              && callbacks == old(callbacks) + (if completed then [r] else [])
              && balanceUpdates == old(balanceUpdates) + (if completed then 1 else 0)
    {
      r, done := result, false;
      match t.poll
      case AuthFailure =>
        r := r.(status := "UNKNOWN_AUTH_ERROR", updatedAt := t.now);
        recorded := recorded + [r];
        done := true;
      case OtherFailure =>
      case Orders(list) =>
        var i := 0;
        while i < |list|
          invariant 0 <= i <= Deciding(list, result.orderId)
          invariant r == Applied(result, list[..i], t.now) && r.orderId == result.orderId
          invariant recorded == old(recorded) && callbacks == old(callbacks) && balanceUpdates == old(balanceUpdates)
        {
          assert list[..i+1] == list[..i] + [list[i]];
          AppliedSnoc(result, list[..i], list[i], t.now);
          if list[i].orderId == r.orderId {
            r := Refresh(r, list[i], t.now);
            if list[i].status == "COMPLETED" {
              recorded := recorded + [r];
              balanceUpdates := balanceUpdates + 1;
              callbacks := callbacks + [r];
              return r, true;
            }
            if list[i].status in {"CANCELED", "EXPIRED", "REJECTED"} {
              recorded := recorded + [r];
              return r, true;
            }
          }
          i := i + 1;
        }
        assert list[..i] == list;
    }

    /** An order missing from the last answer is not recorded; a failed answer records what is known. */
    method SaveFinalOrderState(result: OrderResult, last: Tick) returns (r: OrderResult)
      modifies this
      ensures r == AfterFinal(result, last)
      ensures recorded == old(recorded)
              + if !last.poll.Orders? || Listed(last.poll.list, result.orderId).Some? then [r] else []
      ensures callbacks == old(callbacks) && balanceUpdates == old(balanceUpdates)
    {
      r := result;
      if last.poll.Orders? {
        var list, i := last.poll.list, 0;
        while i < |list| && list[i].orderId != r.orderId
          invariant 0 <= i <= |list|
          invariant Listed(list[i..], result.orderId) == Listed(list, result.orderId)
        {
          assert list[i..][1..] == list[i+1..];
          i := i + 1;
        }
        if i == |list| {
          return;
        }
        r := Refresh(r, list[i], last.now);
      }
      recorded := recorded + [r];
    }
  }

  lemma {:induction false} AppliedSnoc(r: OrderResult, list: seq<OrderResult>, o: OrderResult, now: int)
    ensures var a := Applied(r, list, now);
            && a.orderId == r.orderId
            && Applied(r, list + [o], now) == if o.orderId == r.orderId then Refresh(a, o, now) else a
    decreases list
  {
    if list == [] {
      assert ([o])[1..] == [] && list + [o] == [o];
    } else {
      assert (list + [o])[1..] == list[1..] + [o];
      AppliedSnoc(if list[0].orderId == r.orderId then Refresh(r, list[0], now) else r, list[1..], o, now);
    }
  }

  lemma {:induction false} AfterTicksSnoc(r: OrderResult, ticks: seq<Tick>, t: Tick)
    ensures AfterTicks(r, ticks + [t]) == AfterTick(AfterTicks(r, ticks), t)
    decreases ticks
  {
    if ticks == [] {
      assert ([t])[1..] == [] && ticks + [t] == [t];
    } else {
      assert (ticks + [t])[1..] == ticks[1..] + [t];
      AfterTicksSnoc(AfterTick(r, ticks[0]), ticks[1..], t);
    }
  }

  // ---------------------------------------------------------------- what a watch can and cannot do

  /** Identity of an order: what polling never touches. */
  predicate SameOrder(a: OrderResult, b: OrderResult) {
    a.orderId == b.orderId && a.symbol == b.symbol && a.side == b.side && a.size == b.size && a.price == b.price
    && a.createdAt == b.createdAt
  }

  lemma {:induction false} AppliedSame(r: OrderResult, list: seq<OrderResult>, now: int)
    ensures SameOrder(Applied(r, list, now), r)
    decreases list
  {
    if list == [] {
    } else {
      AppliedSame(if list[0].orderId == r.orderId then Refresh(r, list[0], now) else r, list[1..], now);
    }
  }

  lemma {:induction false} AfterTicksSame(r: OrderResult, ticks: seq<Tick>)
    ensures SameOrder(AfterTicks(r, ticks), r)
    decreases ticks
  {
    if ticks == [] {
    } else {
      if ticks[0].poll.Orders? {
        AppliedSame(r, ticks[0].poll.list, ticks[0].now);
        var k := Deciding(ticks[0].poll.list, r.orderId);
        if k < |ticks[0].poll.list| {
          AppliedSame(r, ticks[0].poll.list[..k+1], ticks[0].now);
        }
      }
      AfterTicksSame(AfterTick(r, ticks[0]), ticks[1..]);
    }
  }

  /** The watch ends with the same order, whatever the exchange answered. */
  lemma {:induction false} WatchKeepsIdentity(r: OrderResult, ticks: seq<Tick>, last: Tick)
    ensures SameOrder(FinalOrder(r, ticks, last), r)
  {
    var k := FirstDecision(ticks, r.orderId);
    AfterTicksSame(r, ticks);
    if k < |ticks| {
      AfterTicksSame(r, ticks[..k+1]);
    }
  }

  /** The callback fires only for an order that is COMPLETED and has been recorded, and never when the watch
      ended with an authentication failure. */
  lemma {:induction false} CallbackOnlyWhenCompleted(r: OrderResult, ticks: seq<Tick>, last: Tick)
    requires Completes(r, ticks)
    ensures FinalOrder(r, ticks, last).status == "COMPLETED" && Records(r, ticks, last)
    ensures forall j :: 0 <= j <= FirstDecision(ticks, r.orderId) ==> !ticks[j].poll.AuthFailure?
  {
    var k := FirstDecision(ticks, r.orderId);
    var t := ticks[k];
    var list, d := t.poll.list, Deciding(t.poll.list, r.orderId);
    var before := AfterTicks(r, ticks[..k]);
    assert ticks[..k+1] == ticks[..k] + [t];
    AfterTicksSnoc(r, ticks[..k], t);
    AfterTicksSame(r, ticks[..k]);
    DecidingStatus(before, t);
  }

  lemma {:induction false} DecidingStatus(r: OrderResult, t: Tick)
    requires t.poll.Orders? && Decides(t, r.orderId)
    ensures AfterTick(r, t).status == t.poll.list[Deciding(t.poll.list, r.orderId)].status
  {
    var list, d := t.poll.list, Deciding(t.poll.list, r.orderId);
    assert list[..d+1] == list[..d] + [list[d]];
    AppliedSnoc(r, list[..d], list[d], t.now);
  }

  /** An order seen as COMPLETED only by the last look is recorded, but its callback never fires. */
  lemma {:induction false} LateCompletionIsSilent(r: OrderResult, ticks: seq<Tick>, last: Tick)
    requires FirstDecision(ticks, r.orderId) == |ticks| && last.poll.Orders?
    requires Listed(last.poll.list, r.orderId).Some? && Listed(last.poll.list, r.orderId).value.status == "COMPLETED"
    ensures FinalOrder(r, ticks, last).status == "COMPLETED" && Records(r, ticks, last) && !Completes(r, ticks)
  {
    AfterTicksSame(r, ticks);
  }

  /** When a watch ends with the order COMPLETED, the callback fires exactly when a poll decided, and not the last
      look. */
  lemma {:induction false} CompletionSeenIffDecided(r: OrderResult, ticks: seq<Tick>, last: Tick)
    requires FinalOrder(r, ticks, last).status == "COMPLETED"
    ensures Completes(r, ticks) <==> FirstDecision(ticks, r.orderId) < |ticks|
  {
    var k := FirstDecision(ticks, r.orderId);
    if k < |ticks| {
      assert ticks[..k+1] == ticks[..k] + [ticks[k]];
      AfterTicksSnoc(r, ticks[..k], ticks[k]);
      AfterTicksSame(r, ticks[..k]);
      if ticks[k].poll.Orders? {
        DecidingStatus(AfterTicks(r, ticks[..k]), ticks[k]);
      }
    }
  }

  // ---------------------------------------------------------------- many watches, one ledger

  datatype Watch = Watch(order: OrderResult, ticks: seq<Tick>, last: Tick)

  /** What reaches the ledger: watches in the order they finish, and ghost closes in between. */
  datatype LedgerEvent =
    | Finished(watch: nat)
    | Ghosts(symbol: string)

  function OpsOf(watches: seq<Watch>, events: seq<LedgerEvent>): seq<Op>
    requires forall e :: e in events && e.Finished? ==> e.watch < |watches|
  {
    if events == [] then []
    else
      var e := events[|events|-1];
      OpsOf(watches, events[..|events|-1])
      + match e
        case Ghosts(symbol) => [CloseGhosts(symbol)]
        case Finished(k) =>
          var w := watches[k];
          if Records(w.order, w.ticks, w.last) then [Record(FinalOrder(w.order, w.ticks, w.last))] else []
  }

  predicate DistinctWatches(watches: seq<Watch>) {
    forall i, j :: 0 <= i < j < |watches| ==> watches[i].order.orderId != watches[j].order.orderId
  }

  predicate FinishedOnce(events: seq<LedgerEvent>) {
    forall i, j :: 0 <= i < j < |events| && events[i].Finished? ==> events[i] != events[j]
  }

  lemma {:induction false} OpOrigin(watches: seq<Watch>, events: seq<LedgerEvent>, i: nat)
    requires forall e :: e in events && e.Finished? ==> e.watch < |watches|
    requires i < |OpsOf(watches, events)| && OpsOf(watches, events)[i].Record?
    ensures exists k :: 0 <= k < |events| && events[k].Finished?
              && watches[events[k].watch].order.orderId == OpsOf(watches, events)[i].result.orderId
    decreases |events|
  {
    var n := |events| - 1;
    var pre := OpsOf(watches, events[..n]);
    if i < |pre| {
      OpOrigin(watches, events[..n], i);
      var k :| 0 <= k < n && events[..n][k].Finished?
               && watches[events[..n][k].watch].order.orderId == pre[i].result.orderId;
      assert events[k] == events[..n][k];
    } else {
      var w := watches[events[n].watch];
      WatchKeepsIdentity(w.order, w.ticks, w.last);
    }
  }

  /** Orders with distinct ids, each watched once, are recorded at most once each, however they finish. */
  lemma {:induction false} WatchesRecordDistinctOrders(watches: seq<Watch>, events: seq<LedgerEvent>)
    requires forall e :: e in events && e.Finished? ==> e.watch < |watches|
    requires DistinctWatches(watches) && FinishedOnce(events)
    ensures DistinctOrders(OpsOf(watches, events))
    decreases |events|
  {
    if events == [] {
    } else {
      var n := |events| - 1;
      var pre, ops := OpsOf(watches, events[..n]), OpsOf(watches, events);
      WatchesRecordDistinctOrders(watches, events[..n]);
      forall i, j | 0 <= i < j < |ops| && ops[i].Record? && ops[j].Record?
        ensures ops[i].result.orderId != ops[j].result.orderId
      {
        if j >= |pre| {
          var w := watches[events[n].watch];
          WatchKeepsIdentity(w.order, w.ticks, w.last);
          OpOrigin(watches, events[..n], i);
          var k :| 0 <= k < n && events[..n][k].Finished?
                   && watches[events[..n][k].watch].order.orderId == pre[i].result.orderId;
          assert events[k] != events[n];
        }
      }
    }
  }

  /** From the exchange's answers to the books: any watches of distinct orders, finishing in any order and
      interleaved with ghost closes, leave unique order ids and a conserved cost basis. */
  lemma {:induction false} WatchedLedgerConserved(watches: seq<Watch>, events: seq<LedgerEvent>, strategyName: string)
    requires forall e :: e in events && e.Finished? ==> e.watch < |watches|
    requires DistinctWatches(watches) && FinishedOnce(events)
    ensures var ops := OpsOf(watches, events);
            var tb := Run(ops, strategyName);
            && DistinctIds(tb.positions)
            && SumPnl(tb.trades) == Revenue(ops, strategyName) - Spent(ops)
                                    + Cost(tb.positions, RemainingPart) - Fees(ops)
  {
    WatchesRecordDistinctOrders(watches, events);
    RunDistinct(OpsOf(watches, events), strategyName);
    CostBasisConserved(OpsOf(watches, events), strategyName);
  }

  /** However a watch of a BUY ends, the position it books is as large as its fill exactly when that fill is not
      zero or nothing was asked for. */
  lemma {:induction false} BookedSizeIsFill(r: OrderResult, ticks: seq<Tick>, last: Tick)
    ensures var final := FinalOrder(r, ticks, last);
            NewPosition(final).remaining == final.filledSize <==> final.filledSize != 0.0 || r.size == 0.0
  {
    WatchKeepsIdentity(r, ticks, last);
  }

  /** So a BUY that is canceled without a fill leaves an open position of its whole requested size. */
  lemma {:induction false} CanceledBuyLeavesPhantom(r: OrderResult, now: int, last: Tick, strategyName: string)
    requires r.side == Buy && r.size > 0.0
    ensures var answer := r.(status := "CANCELED", filledSize := 0.0);
            var w := Watch(r, [Tick(Orders([answer]), now)], last);
            var t := Run(OpsOf([w], [Finished(0)]), strategyName).positions;
            |t| == 1 && IsOpen(t[0], r.symbol) && t[0].remaining == r.size
  {
    var answer := r.(status := "CANCELED", filledSize := 0.0);
    var tick := Tick(Orders([answer]), now);
    var w := Watch(r, [tick], last);
    assert Deciding([answer], r.orderId) == 0;
    assert FirstDecision([tick], r.orderId) == 0;
    assert [tick][..1] == [tick] && [answer][..1] == [answer] && [tick][1..] == [] && [answer][1..] == [];
    var final := FinalOrder(r, [tick], last);
    assert Applied(r, [answer], now) == Refresh(r, answer, now);
    assert AfterTicks(r, [tick]) == AfterTick(r, tick);
    assert final == Refresh(r, answer, now);
    var events := [Finished(0)];
    assert events[..0] == [];
    assert OpsOf([w], events) == [Record(final)];
    assert [Record(final)][..0] == [];
  }
}
