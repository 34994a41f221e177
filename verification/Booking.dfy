/** What recording one order writes, field by field, and what it leaves alone. */
module Booking {
  import opened Ledger
  import opened LedgerSell
  import opened LedgerRuns
  import opened LedgerShape
  import opened PnlCalculator

  /** price and size are what the exchange reports of the fill, and what was asked for only where it reports none. */
  predicate Reported(r: OrderResult, price: real, size: real) {
    && (r.averagePrice != 0.0 ==> price == r.averagePrice) && (r.averagePrice == 0.0 ==> price == r.price)
    && (r.filledSize != 0.0 ==> size == r.filledSize) && (r.filledSize == 0.0 ==> size == r.size)
  }

  predicate Unknown(ts: seq<Trade>, orderId: string) {
    forall i :: 0 <= i < |ts| ==> ts[i].orderId != orderId
  }

  /** A BUY appends one untouched row and one trade, both at the fill's price and size, and books its fee. */
  lemma {:induction false} BuyBooked(tb: Tables, r: OrderResult, name: string, price: real, size: real)
    requires r.side == Buy && Reported(r, price, size) && Unknown(tb.trades, r.orderId)
    ensures RecordOrder(tb, r, name)
         == Tables(tb.positions + [Position(r.symbol, Buy, size, 0.0, size, price, price, Open, r.orderId,
                                            r.createdAt)],
                   tb.trades + [Trade(r.symbol, Buy, size, price, r.fee, r.status, r.orderId, r.updatedAt, r.createdAt,
                                      name, -r.fee)])
  {
    SumPnlSaved(tb.trades, NewTrade(r, Pnl(tb.positions, r), name));
  }

  /** A SELL whose fill the open positions can supply appends one trade that books the fill at its price, less entry
      cost and fee. */
  lemma {:induction false} SellBooked(tb: Tables, r: OrderResult, name: string, price: real, size: real)
    requires r.side == Sell && Reported(r, price, size) && Unknown(tb.trades, r.orderId)
    requires 0.0 <= r.filledSize <= TotalRemaining(GetOpenPositions(tb.positions, r.symbol))
    ensures var pnl := price * r.filledSize - MatchCost(GetOpenPositions(tb.positions, r.symbol), r.filledSize) - r.fee;
            var tr := Trade(r.symbol, Sell, size, price, r.fee, r.status, r.orderId, r.updatedAt, r.createdAt, name,
                            pnl);
            RecordOrder(tb, r, name).trades == tb.trades + [tr]
  {
    SumPnlSaved(tb.trades, NewTrade(r, Pnl(tb.positions, r), name));
    SellPnl(tb.positions, r);
  }

  /** The row of an order that the query lists at position k, after a SELL: it has given what the k older rows could
      not supply, carries the price of the sale, and is CLOSED exactly when nothing is left of it. */
  lemma {:induction false} SoldRowBooked(t: seq<Position>, r: OrderResult, price: real, i: nat, k: nat)
    requires DistinctIds(t) && r.side == Sell && Reported(r, price, r.EffectiveSize())
    requires i < |t| && k < |GetOpenPositions(t, r.symbol)| && GetOpenPositions(t, r.symbol)[k] == t[i]
    ensures var m := Clamp(r.filledSize - TotalRemaining(GetOpenPositions(t, r.symbol)[..k]), t[i].remaining);
            var used, left := t[i].used + m, t[i].remaining - m;
            var status := if left <= 0.0 then Closed else if used > 0.0 then Partial else Open;
            var sold := t[i].(used := used, remaining := left, currentPrice := price, status := status);
            RecordRows(t, r)[i] == if m > 0.0 then sold else t[i]
  {
    var open := GetOpenPositions(t, r.symbol);
    GetOpenPositionsMeaning(t, r.symbol);
    assert t[i] in open;
    RowInQuery(t, r.symbol, r.filledSize, r.EffectivePrice(), i, k);
  }

  /** What was asked for has no say once the exchange has reported a fill. */
  lemma {:induction false} RequestIgnored(tb: Tables, r: OrderResult, name: string, price: real, size: real)
    ensures r.averagePrice != 0.0 ==> RecordOrder(tb, r.(price := price), name) == RecordOrder(tb, r, name)
    ensures r.filledSize != 0.0 ==> RecordOrder(tb, r.(size := size), name) == RecordOrder(tb, r, name)
  {
    if r.averagePrice != 0.0 {
      var s := r.(price := price);
      assert RecordRows(tb.positions, s) == RecordRows(tb.positions, r);
      assert NewTrade(s, Pnl(tb.positions, s), name) == NewTrade(r, Pnl(tb.positions, r), name);
    }
    if r.filledSize != 0.0 {
      var s := r.(size := size);
      assert RecordRows(tb.positions, s) == RecordRows(tb.positions, r);
      assert NewTrade(s, Pnl(tb.positions, s), name) == NewTrade(r, Pnl(tb.positions, r), name);
    }
  }

  /** Trades carry the configured strategy name, and "unknown" where there is none. */
  lemma {:induction false} NamelessIsUnknown(configured: string)
    ensures Name("") == "unknown" && (configured != "" ==> Name(configured) == configured)
  {}

  // ---------------------------------------------------------------- every trade of a run

  /** The trade tells everything about the order that it books. */
  predicate Tells(t: Trade, r: OrderResult, name: string) {
    && Reported(r, t.price, t.size)
    && t.symbol == r.symbol && t.side == r.side && t.fee == r.fee && t.status == r.status && t.orderId == r.orderId
    && t.executedAt == r.updatedAt && t.createdAt == r.createdAt && t.strategyName == name
  }

  predicate HasOrder(t: Trade, ops: seq<Op>, name: string) {
    exists i :: 0 <= i < |ops| && ops[i].Record? && Tells(t, ops[i].result, name)
  }

  /** Over every run of distinct orders, each trade tells the order that it books. */
  lemma {:induction false} TradesTellTheirOrders(ops: seq<Op>, name: string, k: nat)
    requires DistinctOrders(ops) && k < |Run(ops, name).trades|
    ensures HasOrder(Run(ops, name).trades[k], ops, name)
    decreases |ops|
  {
    var n := |ops| - 1;
    var pre, op, tb := ops[..n], ops[n], Run(ops[..n], name);
    if op.Record? {
      forall i | 0 <= i < |tb.trades| ensures tb.trades[i].orderId != op.result.orderId {
        TradeOrigin(pre, name, i);
      }
      SumPnlSaved(tb.trades, NewTrade(op.result, Pnl(tb.positions, op.result), name));
    }
    if k < |tb.trades| {
      TradesTellTheirOrders(pre, name, k);
      var i :| 0 <= i < |pre| && pre[i].Record? && Tells(tb.trades[k], pre[i].result, name);
      assert ops[i] == pre[i];
    } else {
      assert Tells(Run(ops, name).trades[k], ops[n].result, name);
    }
  }

  /** Saving a trade whose order id is known replaces that trade, but keeps its symbol, side and creation time. */
  lemma {:induction false} SaveReplaces(ts: seq<Trade>, tr: Trade, k: nat)
    requires k < |ts| && ts[k].orderId == tr.orderId && forall i :: 0 <= i < k ==> ts[i].orderId != tr.orderId
    ensures SaveTrade(ts, tr)
         == ts[k := tr.(symbol := ts[k].symbol, side := ts[k].side, createdAt := ts[k].createdAt)]
  {
    if k == 0 {
    } else {
      SaveReplaces(ts[1..], tr, k - 1);
    }
  }

  // ---------------------------------------------------------------- what is left alone

  lemma {:induction false} SameOpenRows(t: seq<Position>, u: seq<Position>, symbol: string)
    requires |t| == |u|
    requires forall i :: 0 <= i < |t| ==> t[i] == u[i] || (!IsOpen(t[i], symbol) && !IsOpen(u[i], symbol))
    ensures OpenRows(t, symbol) == OpenRows(u, symbol)
  {
    if t == [] {
    } else {
      SameOpenRows(t[1..], u[1..], symbol);
    }
  }

  lemma {:induction false} NoneOpen(t: seq<Position>, symbol: string)
    requires forall i :: 0 <= i < |t| ==> !IsOpen(t[i], symbol)
    ensures OpenRows(t, symbol) == []
  {
    if t == [] {
    } else {
      NoneOpen(t[1..], symbol);
    }
  }

  /** After a ghost close nothing of the symbol is open any more, and all other symbols are as before. */
  lemma {:induction false} GhostsGone(t: seq<Position>, symbol: string, other: string)
    requires other != symbol
    ensures GetOpenPositions(CloseOpenPositions(t, symbol), symbol) == []
    ensures GetOpenPositions(CloseOpenPositions(t, symbol), other) == GetOpenPositions(t, other)
  {
    NoneOpen(CloseOpenPositions(t, symbol), symbol);
    SameOpenRows(CloseOpenPositions(t, symbol), t, other);
  }

  /** Recording an order leaves the open positions of all other symbols as they are. */
  lemma {:induction false} OtherSymbolsUntouched(t: seq<Position>, r: OrderResult, other: string)
    requires DistinctIds(t) && other != r.symbol
    ensures GetOpenPositions(RecordRows(t, r), other) == GetOpenPositions(t, other)
  {
    if r.side == Buy {
      OpenRowsAppend(t, [NewPosition(r)], other);
      NoneOpen([NewPosition(r)], other);
      assert OpenRows(t, other) + [] == OpenRows(t, other);
    } else {
      var u := RecordRows(t, r);
      forall i | 0 <= i < |t| ensures t[i] == u[i] || (!IsOpen(t[i], other) && !IsOpen(u[i], other)) {
        if !IsOpen(t[i], r.symbol) {
          RowOutsideQuery(t, r.symbol, r.filledSize, r.EffectivePrice(), i);
        } else {
          RowStable(t, Record(r), i);
        }
      }
      SameOpenRows(t, u, other);
    }
  }

  // ---------------------------------------------------------------- failing writes

  /** The transaction fails exactly when its start, one of its writes or its commit does. */
  lemma {:induction false} FailsIffACallFails(t: seq<Position>, r: OrderResult, f: Faults)
    ensures r.side == Buy ==> (!Commits(t, r, f) <==> f.begin || f.position || f.trade || f.commit)
    ensures r.side == Sell ==>
      (!Commits(t, r, f)
       <==> f.begin || f.trade || f.commit
            || exists k :: k in f.updates && 0 <= k < |Touched(GetOpenPositions(t, r.symbol), r.filledSize,
                                                               r.EffectivePrice())|)
  {}

  /** A row's updates, numbered from k, of which some are lost. */
  function UpdateRowExcept(r: Position, ups: seq<Position>, k: nat, lost: set<nat>): Position
    decreases ups
  {
    if ups == [] then r else UpdateRowExcept(if k in lost then r else UpdateRow(r, ups[0]), ups[1..], k + 1, lost)
  }

  lemma {:induction false} UpdateExceptRowwise(t: seq<Position>, ups: seq<Position>, k: nat, lost: set<nat>, i: nat)
    requires i < |t|
    ensures |UpdateExcept(t, ups, k, lost)| == |t|
    ensures UpdateExcept(t, ups, k, lost)[i] == UpdateRowExcept(t[i], ups, k, lost)
    decreases ups
  {
    if ups == [] {
    } else {
      UpdateExceptRowwise(if k in lost then t else UpdatePosition(t, ups[0]), ups[1..], k + 1, lost, i);
    }
  }

  /** Update number k or later is for row r and is lost. */
  predicate LostFrom(r: Position, ups: seq<Position>, k: nat, lost: set<nat>) {
    exists j :: 0 <= j < |ups| && k + j in lost && ups[j].orderId == r.orderId
  }

  lemma {:induction false} LostTail(r: Position, ups: seq<Position>, k: nat, lost: set<nat>)
    requires ups != []
    ensures LostFrom(r, ups, k, lost)
       <==> (k in lost && ups[0].orderId == r.orderId) || LostFrom(r, ups[1..], k + 1, lost)
  {
    if LostFrom(r, ups, k, lost) {
      var j :| 0 <= j < |ups| && k + j in lost && ups[j].orderId == r.orderId;
      if j > 0 {
        assert ups[1..][j-1] == ups[j] && (k + 1) + (j - 1) in lost;
      }
    }
    if LostFrom(r, ups[1..], k + 1, lost) {
      var j :| 0 <= j < |ups[1..]| && k + 1 + j in lost && ups[1..][j].orderId == r.orderId;
      assert ups[j+1] == ups[1..][j] && k + (j + 1) in lost;
    }
  }

  lemma {:induction false} NotAmong(r: Position, ups: seq<Position>, k: nat, lost: set<nat>)
    requires forall p :: p in ups ==> p.orderId != r.orderId
    ensures UpdateRowExcept(r, ups, k, lost) == UpdateRowBy(r, ups) == r && !LostFrom(r, ups, k, lost)
    decreases ups
  {
    if ups == [] {
    } else {
      NotAmong(r, ups[1..], k + 1, lost);
      LostTail(r, ups, k, lost);
      assert ups[0] in ups;
    }
  }

  lemma {:induction false} AllOrNothing(r: Position, ups: seq<Position>, k: nat, lost: set<nat>)
    requires DistinctIds(ups)
    ensures UpdateRowExcept(r, ups, k, lost) == if LostFrom(r, ups, k, lost) then r else UpdateRowBy(r, ups)
    decreases ups
  {
    if ups == [] {
    } else {
      LostTail(r, ups, k, lost);
      if ups[0].orderId == r.orderId {
        var h := if k in lost then r else UpdateRow(r, ups[0]);
        NotAmong(h, ups[1..], k + 1, lost);
        NotAmong(r, ups[1..], k + 1, lost);
        NotAmong(UpdateRow(r, ups[0]), ups[1..], k + 1, lost);
      } else {
        AllOrNothing(r, ups[1..], k + 1, lost);
      }
    }
  }

  /** The updates follow the open rows, one by one. */
  lemma {:induction false} TouchedInOrder(open: seq<Position>, want: real, price: real, k: nat)
    ensures |Touched(open, want, price)| <= |open|
    ensures k < |Touched(open, want, price)| ==> Touched(open, want, price)[k].orderId == open[k].orderId
  {
    if open == [] || want <= 0.0 {
    } else {
      TouchedInOrder(open[1..], want - MatchAmount(open[0], want), price, if k > 0 then k - 1 else 0);
    }
  }

  lemma {:induction false} TouchedDistinct(open: seq<Position>, want: real, price: real)
    requires DistinctIds(open)
    ensures DistinctIds(Touched(open, want, price))
  {
    var touched := Touched(open, want, price);
    forall i, j | 0 <= i < j < |touched| ensures touched[i].orderId != touched[j].orderId {
      TouchedInOrder(open, want, price, i);
      TouchedInOrder(open, want, price, j);
      IndexDistinct(open, i, j);
    }
    DistinctByIndex(touched);
  }

  /** After a fallback that loses writes every row is either as the transaction would have left it or as it was, and
      it is as it was exactly when the positions cannot be read again or its own update is lost. */
  lemma {:induction false} FallbackRowwise(t: seq<Position>, r: OrderResult, f: Faults, i: nat)
    requires DistinctIds(t) && r.side == Sell && i < |t|
    ensures |FallbackRows(t, r, f)| == |RecordRows(t, r)| == |t|
    ensures FallbackRows(t, r, f)[i]
         == if f.reread || LostFrom(t[i], TouchedBy(t, r), 0, f.fallbackUpdates) then t[i] else RecordRows(t, r)[i]
  {
    var touched := TouchedBy(t, r);
    OpenDistinct(t, r.symbol);
    TouchedDistinct(GetOpenPositions(t, r.symbol), r.filledSize, r.EffectivePrice());
    UpdateExceptRowwise(t, touched, 0, f.fallbackUpdates, i);
    UpdateRowwise(t, touched, i);
    AllOrNothing(t[i], touched, 0, f.fallbackUpdates);
  }

  /** ... and a BUY that loses its position leaves all rows as they were. */
  lemma {:induction false} FallbackOfBuy(t: seq<Position>, r: OrderResult, f: Faults)
    requires r.side == Buy
    ensures FallbackRows(t, r, f) == if f.fallbackPosition then t else RecordRows(t, r)
  {}

  /** What a fallback books for an order that is new to the trades table: nothing if its trade is lost, only the fee
      if the positions of a SELL cannot be read, and the whole profit otherwise. */
  lemma {:induction false} FallbackBooks(tb: Tables, r: OrderResult, name: string, f: Faults)
    requires Unknown(tb.trades, r.orderId)
    ensures var booked := SumPnl(FallbackTables(tb, r, name, f).trades) - SumPnl(tb.trades);
            booked == if f.fallbackTrade then 0.0
                      else if r.side == Sell && f.reread then -r.fee else Pnl(tb.positions, r)
  {
    SumPnlSaved(tb.trades, NewTrade(r, FallbackPnl(tb.positions, r, f), name));
  }
}
