/** The status pattern that FIFO matching leaves behind: by age, CLOSED rows, at most one PARTIAL, then OPEN rows;
    and exactly when a run keeps it. */
module LedgerShape {
  import opened Ledger
  import opened LedgerSell
  import opened LedgerRuns

  predicate RowOk(p: Position) {
    && p.side == Buy && p.used >= 0.0 && p.remaining >= 0.0 && p.used + p.remaining == p.size
    && (p.status == Open ==> p.used == 0.0 && p.remaining > 0.0)
    && (p.status == Partial ==> p.used > 0.0 && p.remaining > 0.0)
  }

  predicate RowsOk(t: seq<Position>) {
    forall i :: 0 <= i < |t| ==> RowOk(t[i])
  }

  predicate Older(t: seq<Position>, i: nat, j: nat)
    requires i < |t| && j < |t|
  {
    t[i].createdAt < t[j].createdAt || (t[i].createdAt == t[j].createdAt && i < j)
  }

  /** Every row younger than a row that is not CLOSED is untouched. */
  predicate FifoShape(t: seq<Position>) {
    forall i, j | 0 <= i < |t| && 0 <= j < |t| && t[i].symbol == t[j].symbol && Older(t, i, j) ::
      t[i].status != Closed ==> t[j].status == Open
  }

  // ---------------------------------------------------------------- the query lists older rows first

  /** Where a row is inserted: behind everything older, before everything as old or younger. */
  lemma {:induction false} InsertedAt(p: Position, s: seq<Position>) returns (k: nat)
    ensures k <= |s| && InsertByCreation(p, s) == s[..k] + [p] + s[k..]
    ensures forall i :: 0 <= i < k ==> s[i].createdAt < p.createdAt
  {
    if s == [] || p.createdAt <= s[0].createdAt {
      k := 0;
    } else {
      k := InsertedAt(p, s[1..]);
      k := k + 1;
    }
  }

  /** Sorting is stable: of two rows created at the same instant the first stays first. */
  lemma {:induction false} SortStable(s: seq<Position>, i: nat, j: nat) returns (a: nat, b: nat)
    requires i < j < |s| && s[i].createdAt == s[j].createdAt
    ensures a < b < |SortByCreation(s)| && SortByCreation(s)[a] == s[i] && SortByCreation(s)[b] == s[j]
  {
    var rest := SortByCreation(s[1..]);
    var k := InsertedAt(s[0], rest);
    if i == 0 {
      SortMembers(s[1..], s[j]);
      assert s[1..][j-1] == s[j];
      b :| 0 <= b < |rest| && rest[b] == s[j];
      a, b := k, Shifted(rest, s[0], k, b);
    } else {
      a, b := SortStable(s[1..], i - 1, j - 1);
      a, b := Shifted(rest, s[0], k, a), Shifted(rest, s[0], k, b);
    }
  }

  /** Where element a of s stands once p has been put in at k. */
  function Shifted(s: seq<Position>, p: Position, k: nat, a: nat): (r: nat)
    requires k <= |s| && a < |s|
    ensures r == (if a < k then a else a + 1) && (s[..k] + [p] + s[k..])[r] == s[a]
  {
    if a < k then a else a + 1
  }

  lemma {:induction false} OpenRowAt(t: seq<Position>, symbol: string, i: nat) returns (a: nat)
    requires i < |t| && IsOpen(t[i], symbol)
    ensures a < |OpenRows(t, symbol)| && OpenRows(t, symbol)[a] == t[i]
  {
    OpenRowsMembers(t, symbol, t[i]);
    a :| 0 <= a < |OpenRows(t, symbol)| && OpenRows(t, symbol)[a] == t[i];
  }

  lemma {:induction false} OpenRowsInOrder(t: seq<Position>, symbol: string, i: nat, j: nat) returns (a: nat, b: nat)
    requires i < j < |t| && IsOpen(t[i], symbol) && IsOpen(t[j], symbol)
    ensures a < b < |OpenRows(t, symbol)| && OpenRows(t, symbol)[a] == t[i] && OpenRows(t, symbol)[b] == t[j]
  {
    if i == 0 {
      b := OpenRowAt(t[1..], symbol, j - 1);
      a, b := 0, b + 1;
    } else {
      a, b := OpenRowsInOrder(t[1..], symbol, i - 1, j - 1);
      if IsOpen(t[0], symbol) {
        a, b := a + 1, b + 1;
      }
    }
  }

  /** Of two open rows the query lists the older one first, whatever the order they were recorded in. */
  lemma {:induction false} OlderFirst(t: seq<Position>, symbol: string, i: nat, j: nat) returns (a: nat, b: nat)
    requires i < |t| && j < |t| && IsOpen(t[i], symbol) && IsOpen(t[j], symbol) && Older(t, i, j)
    ensures a < b < |GetOpenPositions(t, symbol)|
    ensures GetOpenPositions(t, symbol)[a] == t[i] && GetOpenPositions(t, symbol)[b] == t[j]
  {
    var open := GetOpenPositions(t, symbol);
    if t[i].createdAt == t[j].createdAt {
      a, b := OpenRowsInOrder(t, symbol, i, j);
      a, b := SortStable(OpenRows(t, symbol), a, b);
    } else {
      GetOpenPositionsMeaning(t, symbol);
      assert t[i] in open && t[j] in open;
      a :| 0 <= a < |open| && open[a] == t[i];
      b :| 0 <= b < |open| && open[b] == t[j];
    }
  }

  // ---------------------------------------------------------------- what a SELL does to one row

  lemma {:induction false} RowOutsideQuery(t: seq<Position>, symbol: string, want: real, price: real, i: nat)
    requires DistinctIds(t) && i < |t| && !IsOpen(t[i], symbol)
    ensures SellRows(t, symbol, want, price)[i] == t[i]
  {
    var open := GetOpenPositions(t, symbol);
    var m := Matched(open, want, price);
    MatchedRevises(open, want, price);
    OpenReplaced(t, symbol, m);
    SellIsOverlay(t, symbol, want, price);
    assert t[i] in t;
  }

  /** First in, first out by row: the k-th open row loses what the older ones could not supply. */
  lemma {:induction false} RowInQuery(t: seq<Position>, symbol: string, want: real, price: real, i: nat, k: nat)
    requires DistinctIds(t) && i < |t| && k < |GetOpenPositions(t, symbol)|
    requires GetOpenPositions(t, symbol)[k] == t[i]
    ensures var open := GetOpenPositions(t, symbol);
            var m := Clamp(want - TotalRemaining(open[..k]), t[i].remaining);
            SellRows(t, symbol, want, price)[i] == if m > 0.0 then Fill(t[i], m, price) else t[i]
  {
    var open := GetOpenPositions(t, symbol);
    SellIsOverlay(t, symbol, want, price);
    MatchedRevises(open, want, price);
    OpenDistinct(t, symbol);
    OverlayAligned(open, Matched(open, want, price));
    OpenArePositive(t, symbol);
    FifoClosedForm(open, want, price, k);
  }

  lemma {:induction false} TotalUpTo(s: seq<Position>, a: nat, b: nat)
    requires a < b < |s| && AllPositive(s)
    ensures TotalRemaining(s[..b]) >= TotalRemaining(s[..a]) + s[a].remaining
    decreases a
  {
    if a == 0 {
      assert s[..b][0] == s[0] && s[..0] == [];
      RemainingNonNegative(s[..b][1..]);
    } else {
      assert s[..b][1..] == s[1..][..b-1] && s[..a][1..] == s[1..][..a-1];
      TotalUpTo(s[1..], a - 1, b - 1);
    }
  }

  /** A row is either untouched, or filled by at most what it had left. */
  lemma {:induction false} SoldRow(t: seq<Position>, symbol: string, want: real, price: real, i: nat)
    requires DistinctIds(t) && i < |t| && RowOk(t[i])
    ensures var r := SellRows(t, symbol, want, price)[i];
            && RowOk(r) && r.symbol == t[i].symbol && r.createdAt == t[i].createdAt
            && (t[i].symbol != symbol || t[i].status == Closed ==> r == t[i])
            && (r.status != Closed ==> t[i].status != Closed)
  {
    if IsOpen(t[i], symbol) {
      GetOpenPositionsMeaning(t, symbol);
      var open := GetOpenPositions(t, symbol);
      assert t[i] in open;
      var k :| 0 <= k < |open| && open[k] == t[i];
      RowInQuery(t, symbol, want, price, i, k);
    } else {
      RowOutsideQuery(t, symbol, want, price, i);
    }
  }

  /** As long as the older of two open rows is not sold out, the younger is not touched. */
  lemma {:induction false} YoungerUntouched(t: seq<Position>, symbol: string, want: real, price: real, i: nat, j: nat)
    requires DistinctIds(t) && i < |t| && j < |t| && IsOpen(t[i], symbol) && IsOpen(t[j], symbol) && Older(t, i, j)
    requires SellRows(t, symbol, want, price)[i].status != Closed
    ensures SellRows(t, symbol, want, price)[j] == t[j]
  {
    var a, b := OlderFirst(t, symbol, i, j);
    RowInQuery(t, symbol, want, price, i, a);
    RowInQuery(t, symbol, want, price, j, b);
    OpenArePositive(t, symbol);
    TotalUpTo(GetOpenPositions(t, symbol), a, b);
  }

  // ---------------------------------------------------------------- what each step does to the pattern

  /** A SELL keeps the pattern in any table with unique order ids, whatever the order its rows were recorded in. */
  lemma {:induction false} SellKeepsShape(t: seq<Position>, symbol: string, want: real, price: real)
    requires DistinctIds(t) && RowsOk(t) && FifoShape(t)
    ensures RowsOk(SellRows(t, symbol, want, price)) && FifoShape(SellRows(t, symbol, want, price))
  {
    var r := SellRows(t, symbol, want, price);
    SellKeepsRows(t, symbol, want, price);
    forall i, j | 0 <= i < |r| && 0 <= j < |r| && r[i].symbol == r[j].symbol && Older(r, i, j) && r[i].status != Closed
      ensures r[j].status == Open
    {
      SoldRow(t, symbol, want, price, i);
      SoldRow(t, symbol, want, price, j);
      assert Older(t, i, j);
      if t[i].symbol == symbol {
        YoungerUntouched(t, symbol, want, price, i, j);
      }
    }
  }

  lemma {:induction false} SellKeepsRows(t: seq<Position>, symbol: string, want: real, price: real)
    requires DistinctIds(t) && RowsOk(t)
    ensures RowsOk(SellRows(t, symbol, want, price))
  {
    forall i | 0 <= i < |t| ensures RowOk(SellRows(t, symbol, want, price)[i]) {
      SoldRow(t, symbol, want, price, i);
    }
  }

  /** No row of the symbol that is younger than the given instant has been touched. */
  predicate YoungerOpen(t: seq<Position>, symbol: string, createdAt: int) {
    forall i :: 0 <= i < |t| && t[i].symbol == symbol && t[i].createdAt > createdAt ==> t[i].status == Open
  }

  /** A new row keeps the pattern exactly when every younger row of its symbol is untouched. */
  lemma {:induction false} AppendShape(t: seq<Position>, p: Position)
    requires FifoShape(t) && p.status == Open
    ensures FifoShape(t + [p]) <==> YoungerOpen(t, p.symbol, p.createdAt)
  {
    var r := t + [p];
    if FifoShape(r) {
      forall i | 0 <= i < |t| && t[i].symbol == p.symbol && t[i].createdAt > p.createdAt ensures t[i].status == Open {
        assert Older(r, |t|, i) && r[i] == t[i];
      }
    }
    if YoungerOpen(t, p.symbol, p.createdAt) {
      forall i, j | 0 <= i < |r| && 0 <= j < |r| && r[i].symbol == r[j].symbol && Older(r, i, j)
        ensures r[i].status != Closed ==> r[j].status == Open
      {
        assert i < |t| && j < |t| ==> Older(t, i, j);
      }
    }
  }

  lemma {:induction false} GhostsKeepShape(t: seq<Position>, symbol: string)
    requires RowsOk(t) && FifoShape(t)
    ensures RowsOk(CloseOpenPositions(t, symbol)) && FifoShape(CloseOpenPositions(t, symbol))
  {
    var r := CloseOpenPositions(t, symbol);
    forall i, j | 0 <= i < |r| && 0 <= j < |r| && r[i].symbol == r[j].symbol && Older(r, i, j) && r[i].status != Closed
      ensures r[j].status == Open
    {
      assert RowOk(t[i]) && Older(t, i, j);
    }
  }

  // ---------------------------------------------------------------- whole runs

  predicate IsBuy(op: Op) {
    op.Record? && op.result.side == Buy
  }

  predicate BuysPositive(ops: seq<Op>) {
    forall i :: 0 <= i < |ops| && IsBuy(ops[i]) ==> ops[i].result.EffectiveSize() > 0.0
  }

  /** The positions once the first k operations of a run have been recorded. */
  function Rows(ops: seq<Op>, k: nat): seq<Position>
    requires k <= |ops|
  {
    Run(ops[..k], "").positions
  }

  /** The BUYs of the run arrive in time: each is recorded while no younger row of its symbol has been touched. */
  predicate BuysTimely(ops: seq<Op>) {
    forall k :: 0 <= k < |ops| && IsBuy(ops[k]) ==>
      YoungerOpen(Rows(ops, k), ops[k].result.symbol, ops[k].result.createdAt)
  }

  /** The strategy's name labels trades and leaves the positions alone. */
  lemma {:induction false} NameIsLabel(ops: seq<Op>, strategyName: string)
    ensures Run(ops, strategyName).positions == Run(ops, "").positions
    decreases |ops|
  {
    if ops == [] {
    } else {
      NameIsLabel(ops[..|ops|-1], strategyName);
    }
  }

  lemma {:induction false} NextRows(ops: seq<Op>, k: nat)
    requires k < |ops| && DistinctOrders(ops)
    ensures Rows(ops, k + 1) == StepRows(Rows(ops, k), ops[k])
    ensures DistinctIds(Rows(ops, k))
  {
    assert ops[..k+1][..k] == ops[..k];
    RunDistinct(ops[..k], "");
  }

  /** In every run of distinct orders, in any recording order, the sizes of every row add up. */
  lemma {:induction false} ReachableRows(ops: seq<Op>, k: nat)
    requires DistinctOrders(ops) && BuysPositive(ops) && k <= |ops|
    ensures RowsOk(Rows(ops, k))
  {
    if k == 0 {
      assert ops[..0] == [];
    } else {
      var t, op := Rows(ops, k - 1), ops[k-1];
      NextRows(ops, k - 1);
      ReachableRows(ops, k - 1);
      if op.Record? && op.result.side == Sell {
        SellKeepsRows(t, op.result.symbol, op.result.filledSize, op.result.EffectivePrice());
      }
    }
  }

  /** One step keeps the pattern exactly when it is not a BUY that comes too late. */
  lemma {:induction false} StepShape(t: seq<Position>, op: Op)
    requires DistinctIds(t) && RowsOk(t) && FifoShape(t) && BuysPositive([op])
    ensures FifoShape(StepRows(t, op)) <==> IsBuy(op) ==> YoungerOpen(t, op.result.symbol, op.result.createdAt)
  {
    match op
    case CloseGhosts(symbol) => GhostsKeepShape(t, symbol);
    case Record(r) =>
      if r.side == Buy {
        AppendShape(t, NewPosition(r));
      } else {
        SellKeepsShape(t, r.symbol, r.filledSize, r.EffectivePrice());
      }
  }

  /** The pattern holds after every step of a run exactly when every BUY arrives in time. */
  lemma {:induction false} ShapeIffBuysTimely(ops: seq<Op>)
    requires DistinctOrders(ops) && BuysPositive(ops)
    ensures (forall k :: 0 <= k <= |ops| ==> FifoShape(Rows(ops, k))) <==> BuysTimely(ops)
  {
    if forall k :: 0 <= k <= |ops| ==> FifoShape(Rows(ops, k)) {
      forall k | 0 <= k < |ops| && IsBuy(ops[k])
        ensures YoungerOpen(Rows(ops, k), ops[k].result.symbol, ops[k].result.createdAt)
      {
        NextRows(ops, k);
        ReachableRows(ops, k);
        assert FifoShape(Rows(ops, k)) && FifoShape(Rows(ops, k + 1));
        StepShape(Rows(ops, k), ops[k]);
      }
    }
    if BuysTimely(ops) {
      forall k | 0 <= k <= |ops| ensures FifoShape(Rows(ops, k)) {
        TimelyKeepsShape(ops, k);
      }
    }
  }

  lemma {:induction false} TimelyKeepsShape(ops: seq<Op>, k: nat)
    requires DistinctOrders(ops) && BuysPositive(ops) && BuysTimely(ops) && k <= |ops|
    ensures FifoShape(Rows(ops, k))
  {
    if k == 0 {
      assert ops[..0] == [];
    } else {
      TimelyKeepsShape(ops, k - 1);
      NextRows(ops, k - 1);
      ReachableRows(ops, k - 1);
      StepShape(Rows(ops, k - 1), ops[k-1]);
    }
  }

  /** BUYs reach the ledger in the order they were created. */
  predicate BuysInOrder(ops: seq<Op>) {
    forall i, j | 0 <= i < j < |ops| && IsBuy(ops[i]) && IsBuy(ops[j]) ::
      ops[i].result.symbol == ops[j].result.symbol ==> ops[i].result.createdAt <= ops[j].result.createdAt
  }

  /** Every reachable ledger whose BUYs are recorded in creation order: sizes add up row by row, and each symbol has
      the FIFO status pattern. */
  lemma {:induction false} ReachableLedger(ops: seq<Op>, strategyName: string)
    requires DistinctOrders(ops) && BuysPositive(ops) && BuysInOrder(ops)
    ensures var t := Run(ops, strategyName).positions;
            RowsOk(t) && FifoShape(t) && Aged(t)
  {
    forall k | 0 <= k < |ops| && IsBuy(ops[k])
      ensures YoungerOpen(Rows(ops, k), ops[k].result.symbol, ops[k].result.createdAt)
    {
      NoneYounger(ops, k);
    }
    ShapeIffBuysTimely(ops);
    ReachableRows(ops, |ops|);
    AgedRun(ops, |ops|);
    NameIsLabel(ops, strategyName);
    assert ops[..|ops|] == ops;
    assert FifoShape(Rows(ops, |ops|));
  }

  lemma {:induction false} NoneYounger(ops: seq<Op>, k: nat)
    requires DistinctOrders(ops) && BuysInOrder(ops) && k < |ops| && IsBuy(ops[k])
    ensures forall i :: 0 <= i < |Rows(ops, k)| && Rows(ops, k)[i].symbol == ops[k].result.symbol ==>
      Rows(ops, k)[i].createdAt <= ops[k].result.createdAt
  {
    forall i | 0 <= i < |Rows(ops, k)| && Rows(ops, k)[i].symbol == ops[k].result.symbol
      ensures Rows(ops, k)[i].createdAt <= ops[k].result.createdAt
    {
      RowOrigin(ops[..k], "", i);
      var n :| 0 <= n < k && OpenedBy(Rows(ops, k)[i], ops[..k][n]);
      assert ops[..k][n] == ops[n];
    }
  }

  // ---------------------------------------------------------------- tables in creation order

  /** The rows of each symbol stand in creation order. */
  predicate Aged(t: seq<Position>) {
    forall i, j :: 0 <= i < j < |t| && t[i].symbol == t[j].symbol ==> t[i].createdAt <= t[j].createdAt
  }

  lemma {:induction false} AgedRun(ops: seq<Op>, k: nat)
    requires DistinctOrders(ops) && BuysInOrder(ops) && k <= |ops|
    ensures Aged(Rows(ops, k))
  {
    if k == 0 {
      assert ops[..0] == [];
    } else {
      var t, op, t' := Rows(ops, k - 1), ops[k-1], Rows(ops, k);
      AgedRun(ops, k - 1);
      NextRows(ops, k - 1);
      if IsBuy(op) {
        NoneYounger(ops, k - 1);
      } else {
        forall i | 0 <= i < |t| ensures t'[i].symbol == t[i].symbol && t'[i].createdAt == t[i].createdAt {
          RowStable(t, op, i);
        }
      }
    }
  }

  lemma {:induction false} SortedOpenRows(t: seq<Position>, symbol: string)
    requires Aged(t)
    ensures GetOpenPositions(t, symbol) == OpenRows(t, symbol)
  {
    if t == [] {
    } else {
      assert Aged(t[1..]);
      SortedOpenRows(t[1..], symbol);
      var r := OpenRows(t[1..], symbol);
      if IsOpen(t[0], symbol) && r != [] {
        OpenRowsMembers(t[1..], symbol, r[0]);
        var k :| 0 <= k < |t[1..]| && t[1..][k] == r[0];
        assert t[k+1] == r[0];
        assert ([t[0]] + r)[1..] == r;
      }
    }
  }

  /** A SELL over a table in creation order: one pass from the oldest row. */
  function Scan(t: seq<Position>, symbol: string, want: real, price: real): (r: seq<Position>)
    ensures |r| == |t|
  {
    if t == [] then []
    else if IsOpen(t[0], symbol) && want > 0.0 then
      var m := MatchAmount(t[0], want);
      [Fill(t[0], m, price)] + Scan(t[1..], symbol, want - m, price)
    else [t[0]] + Scan(t[1..], symbol, want, price)
  }

  lemma {:induction false} OverlaySkip(t: seq<Position>, x: Position, m: seq<Position>)
    requires forall p :: p in t ==> p.orderId != x.orderId
    ensures Overlay(t, [x] + m) == Overlay(t, m)
  {
    assert ([x] + m)[1..] == m;
    forall i | 0 <= i < |t| ensures Replace(t[i], [x] + m) == Replace(t[i], m) {
      assert t[i] in t;
    }
  }

  lemma {:induction false} OverlayHead(t: seq<Position>, x: Position, m: seq<Position>)
    requires t != [] && DistinctIds(t) && x.orderId == t[0].orderId
    ensures Overlay(t, [x] + m) == [x] + Overlay(t[1..], m)
  {
    OverlaySkip(t[1..], x, m);
  }

  lemma {:induction false} ScanNothing(t: seq<Position>, symbol: string, want: real, price: real)
    requires want <= 0.0
    ensures Scan(t, symbol, want, price) == t
  {
    if t == [] {
    } else {
      ScanNothing(t[1..], symbol, want, price);
    }
  }

  lemma {:induction false} OverlayNothing(t: seq<Position>, symbol: string)
    requires DistinctIds(t)
    ensures Overlay(t, OpenRows(t, symbol)) == t
  {
    if t == [] {
    } else {
      var open := OpenRows(t[1..], symbol);
      OverlayNothing(t[1..], symbol);
      if IsOpen(t[0], symbol) {
        OverlayHead(t, t[0], open);
      } else {
        OpenRowsMeaning(t[1..], symbol);
        UntouchedRow(t[0], open, 0.0, 0.0);
      }
    }
  }

  lemma {:induction false} OverlayIsScan(t: seq<Position>, symbol: string, want: real, price: real)
    requires DistinctIds(t)
    ensures Overlay(t, Matched(OpenRows(t, symbol), want, price)) == Scan(t, symbol, want, price)
    decreases t, 1
  {
    if want <= 0.0 {
      ScanNothing(t, symbol, want, price);
      OverlayNothing(t, symbol);
    } else if t == [] {
    } else if IsOpen(t[0], symbol) {
      OverlayIsScanHead(t, symbol, want, price);
    } else {
      OverlayIsScan(t[1..], symbol, want, price);
      OpenRowsMeaning(t[1..], symbol);
      UntouchedRow(t[0], OpenRows(t[1..], symbol), want, price);
    }
  }

  lemma {:induction false} OverlayIsScanHead(t: seq<Position>, symbol: string, want: real, price: real)
    requires t != [] && DistinctIds(t) && IsOpen(t[0], symbol) && want > 0.0
    ensures Overlay(t, Matched(OpenRows(t, symbol), want, price)) == Scan(t, symbol, want, price)
    decreases t, 0
  {
    var open := OpenRows(t[1..], symbol);
    var left := want - MatchAmount(t[0], want);
    var h := Fill(t[0], MatchAmount(t[0], want), price);
    OverlayIsScan(t[1..], symbol, left, price);
    OverlayHead(t, h, Matched(open, left, price));
    calc {
      Overlay(t, Matched(OpenRows(t, symbol), want, price));
      { MatchedHead(t[0], open, want, price); }
      Overlay(t, [h] + Matched(open, left, price));
      [h] + Scan(t[1..], symbol, left, price);
    }
  }

  lemma {:induction false} MatchedHead(h: Position, open: seq<Position>, want: real, price: real)
    requires want > 0.0
    ensures var m := MatchAmount(h, want);
            Matched([h] + open, want, price) == [Fill(h, m, price)] + Matched(open, want - m, price)
  {
    assert ([h] + open)[1..] == open;
  }

  lemma {:induction false} SellIsScan(t: seq<Position>, symbol: string, want: real, price: real)
    requires DistinctIds(t) && Aged(t)
    ensures SellRows(t, symbol, want, price) == Scan(t, symbol, want, price)
  {
    SortedOpenRows(t, symbol);
    SellIsOverlay(t, symbol, want, price);
    OverlayIsScan(t, symbol, want, price);
  }

  // ---------------------------------------------------------------- a run that loses the pattern

  function Order(id: string, symbol: string, side: Side, size: real, createdAt: int): Op {
    Record(OrderResult(id, symbol, side, size, 100.0, "COMPLETED", size, 0.0, 100.0, 0.0, 0.0, createdAt, createdAt))
  }

  /** Recording order matters: an older BUY that is recorded after a younger one has been part-sold breaks the
      pattern, whatever the orders are called. */
  lemma {:induction false} LateBuyBreaksShape(strategyName: string, symbol: string, x: string, y: string, z: string)
    requires x != y && y != z && x != z
    ensures var ops := [Order(x, symbol, Buy, 2.0, 2), Order(y, symbol, Sell, 1.0, 3), Order(z, symbol, Buy, 2.0, 1)];
            DistinctOrders(ops) && BuysPositive(ops) && !FifoShape(Run(ops, strategyName).positions)
  {
    var b2, sell := Order(x, symbol, Buy, 2.0, 2), Order(y, symbol, Sell, 1.0, 3);
    var b1 := Order(z, symbol, Buy, 2.0, 1);
    RunSnoc([], b2, strategyName);
    RunSnoc([b2], sell, strategyName);
    RunSnoc([b2, sell], b1, strategyName);
    assert [] + [b2] == [b2] && [b2] + [sell] == [b2, sell] && [b2, sell] + [b1] == [b2, sell, b1];
    var p2, p1 := NewPosition(b2.result), NewPosition(b1.result);
    assert Run([b2], strategyName).positions == [p2];
    HalfSold(p2);
    assert Run([b2, sell, b1], strategyName).positions == [Fill(p2, 1.0, 100.0), p1];
    PartialThenOlderOpen(p2, p1);
  }

  lemma {:induction false} PartialThenOlderOpen(p2: Position, p1: Position)
    requires p1.symbol == p2.symbol && p1.createdAt < p2.createdAt && p1.status == Open
    requires p2.used == 0.0 && p2.remaining > 1.0
    ensures !FifoShape([Fill(p2, 1.0, 100.0), p1])
  {
    var t := [Fill(p2, 1.0, 100.0), p1];
    assert Older(t, 1, 0) && t[1].status == Open && t[0].status == Partial;
  }

  lemma {:induction false} HalfSold(p: Position)
    requires IsOpen(p, p.symbol) && p.remaining > 1.0
    ensures SellRows([p], p.symbol, 1.0, 100.0) == [Fill(p, 1.0, 100.0)]
  {
    SellIsScan([p], p.symbol, 1.0, 100.0);
    assert [p][1..] == [];
    assert Scan([], p.symbol, 0.0, 100.0) == [];
  }

  lemma {:induction false} RunSnoc(ops: seq<Op>, op: Op, strategyName: string)
    ensures Run(ops + [op], strategyName).positions == StepRows(Run(ops, strategyName).positions, op)
  {
    assert (ops + [op])[..|ops|] == ops;
  }
}
