/** Whole runs of recorded orders and ghost closes, starting from empty tables. */
module LedgerRuns {
  import opened Ledger
  import opened LedgerSell

  datatype Tables = Tables(positions: seq<Position>, trades: seq<Trade>)

  datatype Op =
    | Record(result: OrderResult)
    | CloseGhosts(symbol: string)

  function NewPosition(r: OrderResult): Position {
    Position(r.symbol, Buy, r.EffectiveSize(), 0.0, r.EffectiveSize(), r.EffectivePrice(), r.EffectivePrice(),
             Open, r.orderId, r.createdAt)
  }

  function NewTrade(r: OrderResult, pnl: real, strategyName: string): Trade {
    Trade(r.symbol, r.side, r.EffectiveSize(), r.EffectivePrice(), r.fee, r.status, r.orderId, r.updatedAt,
          r.createdAt, strategyName, pnl)
  }

  /** Profit booked for an order; a SELL is matched with its reported fill only, never with its requested size. */
  function Pnl(positions: seq<Position>, r: OrderResult): real {
    if r.side == Buy then -r.fee
    else SellGain(positions, r.symbol, r.filledSize, r.EffectivePrice()) - r.fee
  }

  /** The positions table once an order has been recorded. */
  function RecordRows(positions: seq<Position>, r: OrderResult): seq<Position> {
    if r.side == Buy then positions + [NewPosition(r)]
    else SellRows(positions, r.symbol, r.filledSize, r.EffectivePrice())
  }

  /** Recording one order writes both tables. */
  function RecordOrder(tb: Tables, r: OrderResult, strategyName: string): Tables {
    Tables(RecordRows(tb.positions, r),
           SaveTrade(tb.trades, NewTrade(r, Pnl(tb.positions, r), strategyName)))
  }

  function StepRows(t: seq<Position>, op: Op): seq<Position> {
    match op
    case Record(r) => RecordRows(t, r)
    case CloseGhosts(symbol) => CloseOpenPositions(t, symbol)
  }

  function Step(tb: Tables, op: Op, strategyName: string): Tables {
    match op
    case Record(r) => RecordOrder(tb, r, strategyName)
    case CloseGhosts(_) => tb.(positions := StepRows(tb.positions, op))
  }

  function Run(ops: seq<Op>, strategyName: string): Tables {
    if ops == [] then Tables([], [])
    else Step(Run(ops[..|ops|-1], strategyName), ops[|ops|-1], strategyName)
  }

  /** No order is recorded twice. */
  predicate DistinctOrders(ops: seq<Op>) {
    forall i, j :: 0 <= i < j < |ops| && ops[i].Record? && ops[j].Record? ==>
      ops[i].result.orderId != ops[j].result.orderId
  }

  // ---------------------------------------------------------------- where rows come from

  predicate OpenedBy(p: Position, op: Op) {
    op.Record? && op.result.side == Buy && op.result.orderId == p.orderId && op.result.symbol == p.symbol
    && op.result.createdAt == p.createdAt && p.side == Buy && p.size == op.result.EffectiveSize()
    && p.entryPrice == op.result.EffectivePrice()
  }

  predicate HasOrigin(p: Position, ops: seq<Op>) {
    exists i :: 0 <= i < |ops| && OpenedBy(p, ops[i])
  }

  lemma {:induction false} RowOrigin(ops: seq<Op>, strategyName: string, k: nat)
    requires DistinctOrders(ops) && k < |Run(ops, strategyName).positions|
    ensures HasOrigin(Run(ops, strategyName).positions[k], ops)
    ensures DistinctIds(Run(ops, strategyName).positions)
    decreases |ops|
  {
    var n := |ops| - 1;
    var pre, op := ops[..n], ops[n];
    var t, p := Run(pre, strategyName).positions, Run(ops, strategyName).positions[k];
    RunDistinct(pre, strategyName);
    RunDistinct(ops, strategyName);
    if op.Record? && op.result.side == Buy && k == |t| {
      assert OpenedBy(p, ops[n]);
    } else {
      RowStable(t, op, k);
      RowOrigin(pre, strategyName, k);
      var i :| 0 <= i < |pre| && OpenedBy(t[k], pre[i]);
      assert OpenedBy(p, ops[i]);
    }
  }

  /** A step never changes the identity of an existing row. */
  lemma {:induction false} RowStable(t: seq<Position>, op: Op, k: nat)
    requires DistinctIds(t) && k < |t|
    ensures var t' := StepRows(t, op);
            && k < |t'| && t'[k].orderId == t[k].orderId && t'[k].symbol == t[k].symbol
            && t'[k].createdAt == t[k].createdAt && t'[k].side == t[k].side && t'[k].size == t[k].size
            && t'[k].entryPrice == t[k].entryPrice
  {
    if op.Record? && op.result.side == Sell {
      var r := op.result;
      var touched := Touched(GetOpenPositions(t, r.symbol), r.filledSize, r.EffectivePrice());
      UpdateRowwise(t, touched, k);
      UpdateKeepsIdentity(t[k], touched);
    }
  }

  lemma {:induction false} UpdateKeepsIdentity(r: Position, ups: seq<Position>)
    ensures var r' := UpdateRowBy(r, ups);
            r' == r.(used := r'.used, remaining := r'.remaining, currentPrice := r'.currentPrice, status := r'.status)
    decreases ups
  {
    if ups == [] {
    } else {
      UpdateKeepsIdentity(UpdateRow(r, ups[0]), ups[1..]);
    }
  }

  lemma {:induction false} DistinctByIndex(s: seq<Position>)
    requires forall i, j :: 0 <= i < j < |s| ==> s[i].orderId != s[j].orderId
    ensures DistinctIds(s)
  {
    if s == [] {
    } else {
      DistinctByIndex(s[1..]);
    }
  }

  lemma {:induction false} IndexDistinct(s: seq<Position>, i: nat, j: nat)
    requires DistinctIds(s) && i < j < |s|
    ensures s[i].orderId != s[j].orderId
  {
    if i > 0 {
      IndexDistinct(s[1..], i - 1, j - 1);
    } else {
      assert s[j] in s[1..];
    }
  }

  /** Recording distinct orders keeps the order ids of the positions table unique. */
  lemma {:induction false} RunDistinct(ops: seq<Op>, strategyName: string)
    requires DistinctOrders(ops)
    ensures DistinctIds(Run(ops, strategyName).positions)
    decreases |ops|, 0
  {
    if ops == [] {
    } else {
      var n := |ops| - 1;
      var pre, op := ops[..n], ops[n];
      var t := Run(pre, strategyName).positions;
      RunDistinct(pre, strategyName);
      if op.Record? {
        forall i | 0 <= i < |t| ensures t[i].orderId != op.result.orderId {
          RowOrigin(pre, strategyName, i);
          var k :| 0 <= k < |pre| && OpenedBy(t[i], pre[k]);
          assert pre[k] == ops[k];
        }
      }
      StepDistinct(t, op);
    }
  }

  lemma {:induction false} StepDistinct(t: seq<Position>, op: Op)
    requires DistinctIds(t)
    requires op.Record? ==> forall i :: 0 <= i < |t| ==> t[i].orderId != op.result.orderId
    ensures DistinctIds(StepRows(t, op))
  {
    var t' := StepRows(t, op);
    forall i, j | 0 <= i < j < |t'| ensures t'[i].orderId != t'[j].orderId {
      RowStable(t, op, i);
      if j < |t| {
        RowStable(t, op, j);
        IndexDistinct(t, i, j);
      }
    }
    DistinctByIndex(t');
  }

  // ---------------------------------------------------------------- conservation of cost basis

  datatype Part = UsedPart | RemainingPart | SizePart

  function Amount(p: Position, part: Part): real {
    match part
    case UsedPart => p.used
    case RemainingPart => p.remaining
    case SizePart => p.size
  }

  /** Entry cost of one part of all rows. */
  function Cost(s: seq<Position>, part: Part): real {
    if s == [] then 0.0 else s[0].entryPrice * Amount(s[0], part) + Cost(s[1..], part)
  }

  lemma {:induction false} CostAppend(x: seq<Position>, y: seq<Position>, part: Part)
    ensures Cost(x + y, part) == Cost(x, part) + Cost(y, part)
  {
    if x == [] {
      assert x + y == y;
    } else {
      assert (x + y)[1..] == x[1..] + y;
      CostAppend(x[1..], y, part);
    }
  }

  lemma {:induction false} CostHead(p: Position, s: seq<Position>, part: Part)
    ensures Cost([p] + s, part) == p.entryPrice * Amount(p, part) + Cost(s, part)
  {
    assert ([p] + s)[1..] == s;
  }

  lemma {:induction false} CostSorted(s: seq<Position>, part: Part)
    ensures Cost(SortByCreation(s), part) == Cost(s, part)
  {
    if s == [] {
    } else {
      CostSorted(s[1..], part);
      CostInserted(s[0], SortByCreation(s[1..]), part);
    }
  }

  lemma {:induction false} CostInserted(p: Position, s: seq<Position>, part: Part)
    ensures Cost(InsertByCreation(p, s), part) == p.entryPrice * Amount(p, part) + Cost(s, part)
  {
    if s != [] && p.createdAt > s[0].createdAt {
      CostInserted(p, s[1..], part);
      CostHead(s[0], InsertByCreation(p, s[1..]), part);
    } else {
      CostHead(p, s, part);
    }
  }

  /** Rows outside the query contribute nothing to a change of cost. */
  lemma {:induction false} CostOfQueryOnly(t: seq<Position>, m: seq<Position>, symbol: string, part: Part)
    requires RespectsQuery(t, m, symbol)
    ensures Cost(Overlay(t, m), part) - Cost(t, part)
         == Cost(Overlay(OpenRows(t, symbol), m), part) - Cost(OpenRows(t, symbol), part)
  {
    if t == [] {
    } else {
      var h, rest := [t[0]], t[1..];
      assert t == h + rest;
      CostOfQueryOnly(rest, m, symbol, part);
      CostOverlayAppend(h, rest, m, part);
      if IsOpen(t[0], symbol) {
        CostOverlayAppend(h, OpenRows(rest, symbol), m, part);
      } else {
        assert Overlay(h, m) == h;
      }
    }
  }

  lemma {:induction false} CostOverlayAppend(x: seq<Position>, y: seq<Position>, m: seq<Position>, part: Part)
    ensures Cost(Overlay(x + y, m), part) - Cost(x + y, part)
         == Cost(Overlay(x, m), part) - Cost(x, part) + Cost(Overlay(y, m), part) - Cost(y, part)
  {
    OverlayAppend(x, y, m);
    CostAppend(x, y, part);
    CostAppend(Overlay(x, m), Overlay(y, m), part);
  }

  lemma {:induction false} CostOverlay(t: seq<Position>, m: seq<Position>, symbol: string, part: Part)
    requires DistinctIds(t) && Revises(GetOpenPositions(t, symbol), m)
    ensures Cost(Overlay(t, m), part) - Cost(t, part) == Cost(m, part) - Cost(GetOpenPositions(t, symbol), part)
  {
    var rows := OpenRows(t, symbol);
    OpenReplaced(t, symbol, m);
    CostOfQueryOnly(t, m, symbol, part);
    CostSorted(rows, part);
    CostSorted(Overlay(rows, m), part);
    SortOverlay(rows, m);
    OpenDistinct(t, symbol);
    OverlayAligned(SortByCreation(rows), m);
  }

  function CostShift(cost: real, part: Part): real {
    match part
    case UsedPart => cost
    case RemainingPart => -cost
    case SizePart => 0.0
  }

  lemma {:induction false} CostMatched(open: seq<Position>, want: real, price: real, part: Part)
    ensures Cost(Matched(open, want, price), part) == Cost(open, part) + CostShift(MatchCost(open, want), part)
  {
    if open == [] || want <= 0.0 {
    } else {
      var rest, m := open[1..], MatchAmount(open[0], want);
      CostMatched(rest, want - m, price, part);
      CostFilledHead(open, m, price, Matched(rest, want - m, price), MatchCost(rest, want - m), MatchCost(open, want),
                     part);
    }
  }

  lemma {:induction false} CostFilledHead(open: seq<Position>, m: real, price: real, after: seq<Position>, cost: real,
                                          total: real, part: Part)
    requires open != [] && total == EntryCost(open[0], m) + cost
    requires Cost(after, part) == Cost(open[1..], part) + CostShift(cost, part)
    ensures Cost([Fill(open[0], m, price)] + after, part) == Cost(open, part) + CostShift(total, part)
  {
    CostHead(Fill(open[0], m, price), after, part);
    CostFilled(open[0], m, price, part);
  }

  lemma {:induction false} CostFilled(p: Position, m: real, price: real, part: Part)
    ensures p.entryPrice * Amount(Fill(p, m, price), part)
         == p.entryPrice * Amount(p, part) + CostShift(p.entryPrice * m, part)
  {
    match part
    case UsedPart => assert p.entryPrice * (p.used + m) == p.entryPrice * p.used + p.entryPrice * m;
    case RemainingPart => assert p.entryPrice * (p.remaining - m) == p.entryPrice * p.remaining - p.entryPrice * m;
    case SizePart =>
  }

  /** A SELL moves exactly its entry cost from the remaining part to the used part of the table. */
  lemma {:induction false} CostAfterSell(t: seq<Position>, symbol: string, want: real, price: real, part: Part)
    requires DistinctIds(t)
    ensures Cost(SellRows(t, symbol, want, price), part)
         == Cost(t, part) + CostShift(MatchCost(GetOpenPositions(t, symbol), want), part)
  {
    var open := GetOpenPositions(t, symbol);
    MatchedRevises(open, want, price);
    SellIsOverlay(t, symbol, want, price);
    CostOverlay(t, Matched(open, want, price), symbol, part);
    CostMatched(open, want, price, part);
  }

  lemma {:induction false} CostAfterGhosts(t: seq<Position>, symbol: string, part: Part)
    ensures Cost(CloseOpenPositions(t, symbol), part) == Cost(t, part)
  {
    if t == [] {
    } else {
      CostAfterGhosts(t[1..], symbol, part);
      assert CloseOpenPositions(t, symbol)[1..] == CloseOpenPositions(t[1..], symbol);
    }
  }

  function SumPnl(ts: seq<Trade>): real {
    if ts == [] then 0.0 else ts[0].pnl + SumPnl(ts[1..])
  }

  lemma {:induction false} SumPnlSaved(ts: seq<Trade>, tr: Trade)
    requires forall i :: 0 <= i < |ts| ==> ts[i].orderId != tr.orderId
    ensures SumPnl(SaveTrade(ts, tr)) == SumPnl(ts) + tr.pnl
    ensures SaveTrade(ts, tr) == ts + [tr]
  {
    if ts == [] {
    } else {
      SumPnlSaved(ts[1..], tr);
      assert SaveTrade(ts, tr)[1..] == SaveTrade(ts[1..], tr);
    }
  }

  /** Size a SELL really has to sell: its fill, capped by the open positions of the symbol. */
  function SoldSize(positions: seq<Position>, r: OrderResult): real {
    Clamp(r.filledSize, TotalRemaining(GetOpenPositions(positions, r.symbol)))
  }

  function OpRevenue(t: seq<Position>, op: Op): real {
    if op.Record? && op.result.side == Sell then op.result.EffectivePrice() * SoldSize(t, op.result) else 0.0
  }

  function OpSpent(op: Op): real {
    if op.Record? && op.result.side == Buy
    then op.result.EffectivePrice() * op.result.EffectiveSize() else 0.0
  }

  function OpFee(op: Op): real {
    if op.Record? then op.result.fee else 0.0
  }

  /** Revenue of the matched part of every SELL of the run. */
  function Revenue(ops: seq<Op>, strategyName: string): real {
    if ops == [] then 0.0
    else
      var n := |ops| - 1;
      Revenue(ops[..n], strategyName) + OpRevenue(Run(ops[..n], strategyName).positions, ops[n])
  }

  function Fees(ops: seq<Op>): real {
    if ops == [] then 0.0 else Fees(ops[..|ops|-1]) + OpFee(ops[|ops|-1])
  }

  /** Entry cost of every BUY of the run. */
  function Spent(ops: seq<Op>): real {
    if ops == [] then 0.0 else Spent(ops[..|ops|-1]) + OpSpent(ops[|ops|-1])
  }

  lemma {:induction false} TradeOrigin(ops: seq<Op>, strategyName: string, k: nat)
    requires DistinctOrders(ops) && k < |Run(ops, strategyName).trades|
    ensures exists i :: 0 <= i < |ops| && ops[i].Record?
                        && ops[i].result.orderId == Run(ops, strategyName).trades[k].orderId
    decreases |ops|
  {
    var n := |ops| - 1;
    var pre, op, tb := ops[..n], ops[n], Run(ops[..n], strategyName);
    if op.Record? {
      forall i | 0 <= i < |tb.trades| ensures tb.trades[i].orderId != op.result.orderId {
        TradeOrigin(pre, strategyName, i);
      }
      SumPnlSaved(tb.trades, NewTrade(op.result, Pnl(tb.positions, op.result), strategyName));
    }
    if k < |tb.trades| {
      TradeOrigin(pre, strategyName, k);
      var i :| 0 <= i < |pre| && pre[i].Record? && pre[i].result.orderId == tb.trades[k].orderId;
      assert ops[i].result.orderId == tb.trades[k].orderId;
    } else {
      assert ops[n].Record?;
    }
  }

  lemma {:induction false} OpenArePositive(t: seq<Position>, symbol: string)
    ensures AllPositive(GetOpenPositions(t, symbol))
  {
    GetOpenPositionsMeaning(t, symbol);
    var open := GetOpenPositions(t, symbol);
    forall i | 0 <= i < |open| ensures open[i].remaining > 0.0 {
      assert open[i] in open;
    }
  }

  /** One SELL: profit is the revenue of what was matched, less its entry cost, less the fee. */
  lemma {:induction false} SellPnl(t: seq<Position>, r: OrderResult)
    requires r.side == Sell
    ensures Pnl(t, r) == r.EffectivePrice() * SoldSize(t, r)
                         - MatchCost(GetOpenPositions(t, r.symbol), r.filledSize) - r.fee
  {
    OpenArePositive(t, r.symbol);
    UnmatchedIsExcess(GetOpenPositions(t, r.symbol), r.filledSize);
  }

  /** Recording an order that the trades table does not know yet adds exactly its profit. */
  lemma {:induction false} PnlRecorded(ops: seq<Op>, strategyName: string)
    requires ops != [] && DistinctOrders(ops) && ops[|ops|-1].Record?
    ensures var tb := Run(ops[..|ops|-1], strategyName);
            SumPnl(Run(ops, strategyName).trades) == SumPnl(tb.trades) + Pnl(tb.positions, ops[|ops|-1].result)
  {
    var n := |ops| - 1;
    var r, tb := ops[n].result, Run(ops[..n], strategyName);
    forall i | 0 <= i < |tb.trades| ensures tb.trades[i].orderId != r.orderId {
      TradeOrigin(ops[..n], strategyName, i);
    }
    SumPnlSaved(tb.trades, NewTrade(r, Pnl(tb.positions, r), strategyName));
  }

  /** Entry cost moves between the parts of the table as the operation says. */
  predicate CostMoves(t: seq<Position>, t': seq<Position>, op: Op) {
    var sold := Cost(t', UsedPart) - Cost(t, UsedPart);
    && Cost(t', SizePart) == Cost(t, SizePart) + OpSpent(op)
    && Cost(t', RemainingPart) == Cost(t, RemainingPart) + OpSpent(op) - sold
    && (op.Record? ==> Pnl(t, op.result) == OpRevenue(t, op) - sold - OpFee(op))
    && (op.CloseGhosts? ==> sold == 0.0)
  }

  /** How one step moves entry cost between the parts of the table. */
  lemma {:induction false} CostStep(t: seq<Position>, op: Op)
    requires DistinctIds(t)
    ensures CostMoves(t, StepRows(t, op), op)
  {
    match op
    case CloseGhosts(symbol) =>
      CostAfterGhosts(t, symbol, UsedPart);
      CostAfterGhosts(t, symbol, RemainingPart);
      CostAfterGhosts(t, symbol, SizePart);
    case Record(r) =>
      if r.side == Buy {
        BuyCostStep(t, r);
      } else {
        SellCostStep(t, r);
      }
  }

  lemma {:induction false} SellCostStep(t: seq<Position>, r: OrderResult)
    requires DistinctIds(t) && r.side == Sell
    ensures CostMoves(t, RecordRows(t, r), Record(r))
  {
    SellPnl(t, r);
    CostAfterSell(t, r.symbol, r.filledSize, r.EffectivePrice(), UsedPart);
    CostAfterSell(t, r.symbol, r.filledSize, r.EffectivePrice(), RemainingPart);
    CostAfterSell(t, r.symbol, r.filledSize, r.EffectivePrice(), SizePart);
  }

  lemma {:induction false} BuyCostStep(t: seq<Position>, r: OrderResult)
    requires r.side == Buy
    ensures CostMoves(t, RecordRows(t, r), Record(r))
  {
    var p := NewPosition(r);
    CostAppend(t, [p], UsedPart);
    CostAppend(t, [p], RemainingPart);
    CostAppend(t, [p], SizePart);
    CostHead(p, [], UsedPart);
    CostHead(p, [], RemainingPart);
    CostHead(p, [], SizePart);
    assert [p] + [] == [p];
  }

  /** Over every run of distinct orders, the profit booked in the trades table is the revenue of what was
      matched, less everything spent on entries, plus the entry cost of what is still unmatched, less all fees;
      and every unit ever bought is either matched or still on the books. */
  lemma {:induction false} CostBasisConserved(ops: seq<Op>, strategyName: string)
    requires DistinctOrders(ops)
    ensures var tb := Run(ops, strategyName);
            && SumPnl(tb.trades) == Revenue(ops, strategyName) - Spent(ops)
                                    + Cost(tb.positions, RemainingPart) - Fees(ops)
            && Cost(tb.positions, SizePart) == Spent(ops)
            && Cost(tb.positions, UsedPart) + Cost(tb.positions, RemainingPart) == Spent(ops)
    decreases |ops|
  {
    if ops == [] {
    } else {
      var n := |ops| - 1;
      CostBasisConserved(ops[..n], strategyName);
      RunDistinct(ops[..n], strategyName);
      CostStep(Run(ops[..n], strategyName).positions, ops[n]);
      if ops[n].Record? {
        PnlRecorded(ops, strategyName);
      }
    }
  }
}
