/** The positions and trades tables, and the FIFO matching of a SELL fill against them. */
module Ledger {

  datatype Side = Buy | Sell

  datatype Status = Open | Partial | Closed

  /** A row of the positions table. */
  datatype Position = Position(
    symbol: string,
    side: Side,
    size: real,
    used: real,
    remaining: real,
    entryPrice: real,
    currentPrice: real,
    status: Status,
    orderId: string,
    createdAt: int)

  /** A row of the trades table. */
  datatype Trade = Trade(
    symbol: string,
    side: Side,
    size: real,
    price: real,
    fee: real,
    status: string,
    orderId: string,
    executedAt: int,
    createdAt: int,
    strategyName: string,
    pnl: real)

  /** What the exchange reports about one order. */
  datatype OrderResult = OrderResult(
    orderId: string,
    symbol: string,
    side: Side,
    size: real,
    price: real,
    status: string,
    filledSize: real,
    remainingSize: real,
    averagePrice: real,
    totalCommission: real,
    fee: real,
    createdAt: int,
    updatedAt: int)
  {
    function EffectiveSize(): real {
      if filledSize == 0.0 then size else filledSize
    }

    function EffectivePrice(): real {
      if averagePrice == 0.0 then price else averagePrice
    }
  }

  function StatusOf(used: real, remaining: real): Status {
    if remaining <= 0.0 then Closed else if used > 0.0 then Partial else Open
  }

  // ---------------------------------------------------------------- table operations

  predicate IsOpen(p: Position, symbol: string) {
    p.symbol == symbol && p.side == Buy && p.status != Closed && p.remaining > 0.0
  }

  function OpenRows(t: seq<Position>, symbol: string): seq<Position> {
    if t == [] then []
    else if IsOpen(t[0], symbol) then [t[0]] + OpenRows(t[1..], symbol)
    else OpenRows(t[1..], symbol)
  }

  function InsertByCreation(p: Position, s: seq<Position>): seq<Position> {
    if s == [] || p.createdAt <= s[0].createdAt then [p] + s
    else [s[0]] + InsertByCreation(p, s[1..])
  }

  function SortByCreation(s: seq<Position>): seq<Position> {
    if s == [] then [] else InsertByCreation(s[0], SortByCreation(s[1..]))
  }

  /** The open BUY rows of a symbol, oldest first. Rows created at the same instant keep table order. */
  function GetOpenPositions(t: seq<Position>, symbol: string): seq<Position> {
    SortByCreation(OpenRows(t, symbol))
  }

  predicate CreationOrdered(s: seq<Position>) {
    forall i, j :: 0 <= i < j < |s| ==> s[i].createdAt <= s[j].createdAt
  }

  lemma {:induction false} InsertMembers(p: Position, s: seq<Position>, q: Position)
    ensures q in InsertByCreation(p, s) <==> q == p || q in s
  {
    if s == [] || p.createdAt <= s[0].createdAt {
    } else {
      InsertMembers(p, s[1..], q);
    }
  }

  lemma {:induction false} InsertOrdered(p: Position, s: seq<Position>)
    requires CreationOrdered(s)
    ensures CreationOrdered(InsertByCreation(p, s))
  {
    if s == [] || p.createdAt <= s[0].createdAt {
    } else {
      InsertOrdered(p, s[1..]);
      var r := InsertByCreation(p, s[1..]);
      forall k | 0 <= k < |r| ensures s[0].createdAt <= r[k].createdAt {
        InsertMembers(p, s[1..], r[k]);
      }
    }
  }

  lemma {:induction false} SortMembers(s: seq<Position>, q: Position)
    ensures q in SortByCreation(s) <==> q in s
  {
    if s == [] {
    } else {
      SortMembers(s[1..], q);
      InsertMembers(s[0], SortByCreation(s[1..]), q);
    }
  }

  lemma {:induction false} SortOrdered(s: seq<Position>)
    ensures CreationOrdered(SortByCreation(s))
  {
    if s == [] {
    } else {
      SortOrdered(s[1..]);
      InsertOrdered(s[0], SortByCreation(s[1..]));
    }
  }

  lemma {:induction false} OpenRowsMembers(t: seq<Position>, symbol: string, q: Position)
    ensures q in OpenRows(t, symbol) <==> q in t && IsOpen(q, symbol)
  {
    if t == [] {
    } else {
      OpenRowsMembers(t[1..], symbol, q);
    }
  }

  lemma {:induction false} OpenRowsMeaning(t: seq<Position>, symbol: string)
    ensures forall q :: q in OpenRows(t, symbol) <==> q in t && IsOpen(q, symbol)
  {
    forall q ensures q in OpenRows(t, symbol) <==> q in t && IsOpen(q, symbol) {
      OpenRowsMembers(t, symbol, q);
    }
  }

  lemma {:induction false} SortMeaning(s: seq<Position>)
    ensures CreationOrdered(SortByCreation(s))
    ensures forall q :: q in SortByCreation(s) <==> q in s
  {
    SortOrdered(s);
    forall q ensures q in SortByCreation(s) <==> q in s {
      SortMembers(s, q);
    }
  }

  /** The query returns exactly the open rows of the symbol, oldest first. */
  lemma {:induction false} GetOpenPositionsMeaning(t: seq<Position>, symbol: string)
    ensures CreationOrdered(GetOpenPositions(t, symbol))
    ensures forall q :: q in GetOpenPositions(t, symbol) <==> q in t && IsOpen(q, symbol)
    ensures forall q :: q in GetOpenPositions(t, symbol) <==>
              q in t && q.symbol == symbol && q.side == Buy && q.status in {Open, Partial} && q.remaining > 0.0
  {
    OpenRowsMeaning(t, symbol);
    SortMeaning(OpenRows(t, symbol));
  }

  lemma {:induction false} InsertPermutes(p: Position, s: seq<Position>)
    ensures multiset(InsertByCreation(p, s)) == multiset{p} + multiset(s)
  {
    if s == [] || p.createdAt <= s[0].createdAt {
    } else {
      InsertPermutes(p, s[1..]);
      assert s == [s[0]] + s[1..];
    }
  }

  lemma {:induction false} SortPermutes(s: seq<Position>)
    ensures multiset(SortByCreation(s)) == multiset(s)
  {
    if s == [] {
    } else {
      SortPermutes(s[1..]);
      InsertPermutes(s[0], SortByCreation(s[1..]));
      assert s == [s[0]] + s[1..];
    }
  }

  lemma {:induction false} OpenRowsMultiplicity(t: seq<Position>, symbol: string, q: Position)
    ensures multiset(OpenRows(t, symbol))[q] == if IsOpen(q, symbol) then multiset(t)[q] else 0
  {
    if t == [] {
    } else {
      OpenRowsMultiplicity(t[1..], symbol, q);
      assert t == [t[0]] + t[1..];
    }
  }

  /** ... and each as often as it stands in the table. */
  lemma {:induction false} GetOpenPositionsMultiplicity(t: seq<Position>, symbol: string, q: Position)
    ensures multiset(GetOpenPositions(t, symbol))[q] == if IsOpen(q, symbol) then multiset(t)[q] else 0
  {
    SortPermutes(OpenRows(t, symbol));
    OpenRowsMultiplicity(t, symbol, q);
  }

  /** Row r after `UPDATE positions SET ... WHERE order_id = p.orderId`. */
  function UpdateRow(r: Position, p: Position): Position {
    if r.orderId == p.orderId
    then r.(used := p.used, remaining := p.remaining, currentPrice := p.currentPrice, status := p.status)
    else r
  }

  function UpdatePosition(t: seq<Position>, p: Position): (r: seq<Position>)
    ensures |r| == |t|
    ensures forall i :: 0 <= i < |t| ==> r[i] == UpdateRow(t[i], p)
  {
    if t == [] then [] else [UpdateRow(t[0], p)] + UpdatePosition(t[1..], p)
  }

  function UpdatePositions(t: seq<Position>, ups: seq<Position>): (r: seq<Position>)
    ensures |r| == |t|
    decreases ups
  {
    if ups == [] then t else UpdatePositions(UpdatePosition(t, ups[0]), ups[1..])
  }

  /** Every OPEN or PARTIAL row of the symbol becomes CLOSED; its sizes are left alone. */
  function CloseOpenPositions(t: seq<Position>, symbol: string): (r: seq<Position>)
    ensures |r| == |t|
    ensures forall i :: 0 <= i < |t| ==>
      r[i] == if t[i].symbol == symbol && t[i].side == Buy then t[i].(status := Closed) else t[i]
  {
    if t == [] then []
    else
      [if t[0].symbol == symbol && t[0].side == Buy then t[0].(status := Closed) else t[0]]
      + CloseOpenPositions(t[1..], symbol)
  }

  /** INSERT ... ON CONFLICT(order_id) DO UPDATE: symbol, side and created_at of an existing row survive. */
  function SaveTrade(ts: seq<Trade>, tr: Trade): seq<Trade> {
    if ts == [] then [tr]
    else if ts[0].orderId == tr.orderId then
      [tr.(symbol := ts[0].symbol, side := ts[0].side, createdAt := ts[0].createdAt)] + ts[1..]
    else [ts[0]] + SaveTrade(ts[1..], tr)
  }

  // ---------------------------------------------------------------- FIFO matching

  function MatchAmount(p: Position, want: real): real {
    if p.remaining < want then p.remaining else want
  }

  /** Position p after m of it has been sold at the given price. */
  function Fill(p: Position, m: real, price: real): Position {
    p.(used := p.used + m, remaining := p.remaining - m, currentPrice := price,
       status := StatusOf(p.used + m, p.remaining - m))
  }

  /** The rows that the matching loop changes, in loop order. */
  function Touched(open: seq<Position>, want: real, price: real): seq<Position> {
    if open == [] || want <= 0.0 then []
    else
      var m := MatchAmount(open[0], want);
      [Fill(open[0], m, price)] + Touched(open[1..], want - m, price)
  }

  /** All open rows once the fill has been matched. */
  function Matched(open: seq<Position>, want: real, price: real): (r: seq<Position>)
    ensures |r| == |open|
  {
    if open == [] || want <= 0.0 then open
    else
      var m := MatchAmount(open[0], want);
      [Fill(open[0], m, price)] + Matched(open[1..], want - m, price)
  }

  /** Part of the fill that finds no open position. */
  function Unmatched(open: seq<Position>, want: real): real {
    if open == [] || want <= 0.0 then want
    else Unmatched(open[1..], want - MatchAmount(open[0], want))
  }

  function EntryCost(p: Position, m: real): real {
    p.entryPrice * m
  }

  /** Entry cost of the matched part. */
  function MatchCost(open: seq<Position>, want: real): real {
    if open == [] || want <= 0.0 then 0.0
    else
      var m := MatchAmount(open[0], want);
      EntryCost(open[0], m) + MatchCost(open[1..], want - m)
  }

  function TotalRemaining(s: seq<Position>): real {
    if s == [] then 0.0 else s[0].remaining + TotalRemaining(s[1..])
  }

  predicate AllPositive(s: seq<Position>) {
    forall i :: 0 <= i < |s| ==> s[i].remaining > 0.0
  }

  function Clamp(x: real, hi: real): real {
    if x < 0.0 then 0.0 else if x > hi then hi else x
  }

  /** First in, first out: row k is sold only with what the k older rows could not supply. */
  lemma {:induction false} FifoClosedForm(open: seq<Position>, want: real, price: real, k: nat)
    requires AllPositive(open) && k < |open|
    ensures var m := Clamp(want - TotalRemaining(open[..k]), open[k].remaining);
            Matched(open, want, price)[k] == if m > 0.0 then Fill(open[k], m, price) else open[k]
  {
    RemainingNonNegative(open[..k]);
    if want <= 0.0 || k == 0 {
    } else {
      assert open[..k][1..] == open[1..][..k-1];
      var m := MatchAmount(open[0], want);
      RemainingNonNegative(open[1..][..k-1]);
      FifoClosedForm(open[1..], want - m, price, k - 1);
    }
  }

  lemma {:induction false} RemainingNonNegative(s: seq<Position>)
    requires AllPositive(s)
    ensures TotalRemaining(s) >= 0.0
    ensures s != [] ==> TotalRemaining(s) > 0.0
  {
    if s == [] {
    } else {
      RemainingNonNegative(s[1..]);
    }
  }

  /** The matched quantity is exactly what can be supplied: nothing is sold twice, nothing is missed. */
  lemma {:induction false} UnmatchedIsExcess(open: seq<Position>, want: real)
    requires AllPositive(open)
    ensures want - Unmatched(open, want) == Clamp(want, TotalRemaining(open))
  {
    RemainingNonNegative(open);
    if open == [] || want <= 0.0 {
    } else {
      UnmatchedIsExcess(open[1..], want - MatchAmount(open[0], want));
      RemainingNonNegative(open[1..]);
    }
  }
}
