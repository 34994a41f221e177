/** What recording a SELL does to the whole positions table. */
module LedgerSell {
  import opened Reals
  import opened Ledger

  /** No two rows carry the same order id. */
  predicate DistinctIds(s: seq<Position>) {
    s == [] || ((forall p :: p in s[1..] ==> p.orderId != s[0].orderId) && DistinctIds(s[1..]))
  }

  /** The table after the rows computed by the matching loop are written back by order id. */
  function SellRows(t: seq<Position>, symbol: string, want: real, price: real): seq<Position> {
    UpdatePositions(t, Touched(GetOpenPositions(t, symbol), want, price))
  }

  function Replace(r: Position, m: seq<Position>): (x: Position)
    ensures x.orderId == r.orderId
  {
    if m == [] then r else if m[0].orderId == r.orderId then m[0] else Replace(r, m[1..])
  }

  /** Table t with every row that also occurs in m (same order id) taken from m. */
  function Overlay(t: seq<Position>, m: seq<Position>): (r: seq<Position>)
    ensures |r| == |t|
    ensures forall i :: 0 <= i < |t| ==> r[i] == Replace(t[i], m)
  {
    if t == [] then [] else [Replace(t[0], m)] + Overlay(t[1..], m)
  }

  // ---------------------------------------------------------------- distinctness and order

  lemma {:induction false} InsertDistinct(p: Position, s: seq<Position>)
    requires DistinctIds(s) && forall q :: q in s ==> q.orderId != p.orderId
    ensures DistinctIds(InsertByCreation(p, s))
  {
    if s == [] || p.createdAt <= s[0].createdAt {
      assert ([p] + s)[1..] == s;
    } else {
      InsertDistinct(p, s[1..]);
      forall q | q in InsertByCreation(p, s[1..]) ensures q.orderId != s[0].orderId {
        InsertMembers(p, s[1..], q);
      }
    }
  }

  lemma {:induction false} OpenDistinct(t: seq<Position>, symbol: string)
    requires DistinctIds(t)
    ensures DistinctIds(OpenRows(t, symbol))
    ensures DistinctIds(GetOpenPositions(t, symbol))
  {
    FilterDistinct(t, symbol);
    SortDistinct(OpenRows(t, symbol));
  }

  lemma {:induction false} FilterDistinct(t: seq<Position>, symbol: string)
    requires DistinctIds(t)
    ensures DistinctIds(OpenRows(t, symbol))
  {
    if t == [] {
    } else {
      FilterDistinct(t[1..], symbol);
      OpenRowsMeaning(t[1..], symbol);
      assert ([t[0]] + OpenRows(t[1..], symbol))[1..] == OpenRows(t[1..], symbol);
    }
  }

  lemma {:induction false} SortDistinct(s: seq<Position>)
    requires DistinctIds(s)
    ensures DistinctIds(SortByCreation(s))
  {
    if s == [] {
    } else {
      SortDistinct(s[1..]);
      SortMeaning(s[1..]);
      InsertDistinct(s[0], SortByCreation(s[1..]));
    }
  }

  // ---------------------------------------------------------------- write-back equals overlay

  function UpdateRowBy(r: Position, ups: seq<Position>): Position
    decreases ups
  {
    if ups == [] then r else UpdateRowBy(UpdateRow(r, ups[0]), ups[1..])
  }

  lemma {:induction false} UpdateRowwise(t: seq<Position>, ups: seq<Position>, i: nat)
    requires i < |t|
    ensures UpdatePositions(t, ups)[i] == UpdateRowBy(t[i], ups)
    decreases ups
  {
    if ups == [] {
    } else {
      UpdateRowwise(UpdatePosition(t, ups[0]), ups[1..], i);
    }
  }

  lemma {:induction false} UntouchedRow(r: Position, open: seq<Position>, want: real, price: real)
    requires forall q :: q in open ==> q.orderId != r.orderId
    ensures UpdateRowBy(r, Touched(open, want, price)) == r
    ensures Replace(r, Matched(open, want, price)) == r
  {
    if open == [] {
    } else {
      if want > 0.0 {
        UntouchedRow(r, open[1..], want - MatchAmount(open[0], want), price);
      } else {
        UntouchedRow(r, open[1..], want, price);
      }
    }
  }

  lemma {:induction false} ReplaceSelf(r: Position, m: seq<Position>)
    requires DistinctIds(m) && r in m
    ensures Replace(r, m) == r
  {
    assert r == m[0] || r in m[1..];
    if m[0].orderId == r.orderId {
    } else {
      ReplaceSelf(r, m[1..]);
    }
  }

  lemma {:induction false} WriteBackRow(r: Position, open: seq<Position>, want: real, price: real)
    requires DistinctIds(open)
    requires r in open || forall q :: q in open ==> q.orderId != r.orderId
    ensures UpdateRowBy(r, Touched(open, want, price)) == Replace(r, Matched(open, want, price))
    decreases open
  {
    if r !in open {
      UntouchedRow(r, open, want, price);
    } else if want <= 0.0 {
      ReplaceSelf(r, open);
    } else {
      var m := MatchAmount(open[0], want);
      if r == open[0] {
        UntouchedRow(Fill(r, m, price), open[1..], want - m, price);
      } else {
        WriteBackRow(r, open[1..], want - m, price);
      }
    }
  }

  lemma {:induction false} SameIdSameRow(t: seq<Position>, p: Position, q: Position)
    requires DistinctIds(t) && p in t && q in t && p.orderId == q.orderId
    ensures p == q
  {
    if p !in t[1..] || q !in t[1..] {
    } else {
      SameIdSameRow(t[1..], p, q);
    }
  }

  /** With distinct order ids the write-back touches exactly the matched rows. */
  lemma {:induction false} SellIsOverlay(t: seq<Position>, symbol: string, want: real, price: real)
    requires DistinctIds(t)
    ensures SellRows(t, symbol, want, price)
         == Overlay(t, Matched(GetOpenPositions(t, symbol), want, price))
  {
    var open := GetOpenPositions(t, symbol);
    OpenDistinct(t, symbol);
    GetOpenPositionsMeaning(t, symbol);
    forall i | 0 <= i < |t|
      ensures SellRows(t, symbol, want, price)[i] == Overlay(t, Matched(open, want, price))[i]
    {
      UpdateRowwise(t, Touched(open, want, price), i);
      forall q | q in open && q.orderId == t[i].orderId ensures q == t[i] {
        SameIdSameRow(t, q, t[i]);
      }
      WriteBackRow(t[i], open, want, price);
    }
  }

  // ---------------------------------------------------------------- the query after the write-back

  /** m changes only amounts, price and status of rows of open. */
  predicate Revises(open: seq<Position>, m: seq<Position>) {
    |m| == |open| && forall k :: 0 <= k < |m| ==>
      m[k].orderId == open[k].orderId && m[k].createdAt == open[k].createdAt
      && m[k].symbol == open[k].symbol && m[k].side == open[k].side && m[k].entryPrice == open[k].entryPrice
      && m[k].size == open[k].size
  }

  lemma {:induction false} MatchedRevises(open: seq<Position>, want: real, price: real)
    ensures Revises(open, Matched(open, want, price))
  {
    if open == [] || want <= 0.0 {
    } else {
      MatchedRevises(open[1..], want - MatchAmount(open[0], want), price);
    }
  }

  lemma {:induction false} OverlayAligned(open: seq<Position>, m: seq<Position>)
    requires DistinctIds(open) && Revises(open, m)
    ensures Overlay(open, m) == m
  {
    if open == [] {
    } else {
      OverlayAligned(open[1..], m[1..]);
      forall i | 1 <= i < |open| ensures Overlay(open, m)[i] == m[i] {
        assert open[i] in open[1..];
        assert Overlay(open[1..], m[1..])[i-1] == Replace(open[i], m[1..]);
      }
    }
  }

  /** Rows outside the query keep their contents; rows inside keep their age. */
  predicate RespectsQuery(t: seq<Position>, m: seq<Position>, symbol: string) {
    forall r :: r in t ==>
      Replace(r, m).createdAt == r.createdAt && (!IsOpen(r, symbol) ==> Replace(r, m) == r)
  }

  lemma {:induction false} OpenRowsAppend(x: seq<Position>, y: seq<Position>, symbol: string)
    ensures OpenRows(x + y, symbol) == OpenRows(x, symbol) + OpenRows(y, symbol)
  {
    if x == [] {
      assert x + y == y;
    } else {
      assert (x + y)[1..] == x[1..] + y;
      OpenRowsAppend(x[1..], y, symbol);
    }
  }

  lemma {:induction false} OverlayAppend(x: seq<Position>, y: seq<Position>, m: seq<Position>)
    ensures Overlay(x + y, m) == Overlay(x, m) + Overlay(y, m)
  {}

  lemma {:induction false} FilterOverlay(t: seq<Position>, m: seq<Position>, symbol: string)
    requires RespectsQuery(t, m, symbol)
    ensures OpenRows(Overlay(t, m), symbol) == OpenRows(Overlay(OpenRows(t, symbol), m), symbol)
  {
    if t == [] {
    } else {
      FilterOverlay(t[1..], m, symbol);
      var rest := OpenRows(t[1..], symbol);
      OpenRowsAppend([Replace(t[0], m)], Overlay(t[1..], m), symbol);
      if IsOpen(t[0], symbol) {
        OverlayAppend([t[0]], rest, m);
        OpenRowsAppend([Replace(t[0], m)], Overlay(rest, m), symbol);
      } else {
        assert OpenRows(t, symbol) == rest;
      }
    }
  }

  lemma {:induction false} InsertOverlay(p: Position, s: seq<Position>, m: seq<Position>)
    requires forall r :: r in [p] + s ==> Replace(r, m).createdAt == r.createdAt
    ensures InsertByCreation(Replace(p, m), Overlay(s, m)) == Overlay(InsertByCreation(p, s), m)
  {
    assert p in [p] + s;
    if s == [] {
    } else if p.createdAt <= s[0].createdAt {
      assert s[0] in [p] + s;
      OverlayAppend([p], s, m);
    } else {
      assert s[0] in [p] + s;
      InsertOverlay(p, s[1..], m);
      OverlayAppend([s[0]], InsertByCreation(p, s[1..]), m);
    }
  }

  lemma {:induction false} SortOverlay(s: seq<Position>, m: seq<Position>)
    requires forall r :: r in s ==> Replace(r, m).createdAt == r.createdAt
    ensures SortByCreation(Overlay(s, m)) == Overlay(SortByCreation(s), m)
  {
    if s == [] {
    } else {
      SortOverlay(s[1..], m);
      SortMeaning(s[1..]);
      InsertOverlay(s[0], SortByCreation(s[1..]), m);
    }
  }

  lemma {:induction false} InsertFilter(p: Position, s: seq<Position>, symbol: string)
    requires CreationOrdered(s)
    ensures OpenRows(InsertByCreation(p, s), symbol)
         == if IsOpen(p, symbol) then InsertByCreation(p, OpenRows(s, symbol)) else OpenRows(s, symbol)
  {
    if s == [] || p.createdAt <= s[0].createdAt {
      InsertFront(p, s, symbol);
    } else {
      var h, rest := s[0], s[1..];
      InsertFilter(p, rest, symbol);
      OpenRowsAppend([h], InsertByCreation(p, rest), symbol);
      OpenRowsAppend([h], rest, symbol);
      assert s == [h] + rest;
      InsertBehind(p, h, rest);
      InsertBehind(p, h, OpenRows(rest, symbol));
      assert OpenRows([h], symbol) == if IsOpen(h, symbol) then [h] else [];
    }
  }

  lemma {:induction false} InsertFront(p: Position, s: seq<Position>, symbol: string)
    requires CreationOrdered(s) && (s == [] || p.createdAt <= s[0].createdAt)
    ensures OpenRows(InsertByCreation(p, s), symbol)
         == if IsOpen(p, symbol) then InsertByCreation(p, OpenRows(s, symbol)) else OpenRows(s, symbol)
  {
    assert ([p] + s)[1..] == s;
    var r := OpenRows(s, symbol);
    if r != [] {
      OpenRowsMembers(s, symbol, r[0]);
      var k :| 0 <= k < |s| && s[k] == r[0];
    }
  }

  lemma {:induction false} InsertBehind(p: Position, h: Position, rest: seq<Position>)
    requires p.createdAt > h.createdAt
    ensures InsertByCreation(p, [h] + rest) == [h] + InsertByCreation(p, rest)
  {
    assert ([h] + rest)[1..] == rest;
  }

  lemma {:induction false} SortFilter(s: seq<Position>, symbol: string)
    ensures SortByCreation(OpenRows(s, symbol)) == OpenRows(SortByCreation(s), symbol)
  {
    if s == [] {
    } else {
      SortFilter(s[1..], symbol);
      SortMeaning(s[1..]);
      InsertFilter(s[0], SortByCreation(s[1..]), symbol);
      var rest := OpenRows(s[1..], symbol);
      if IsOpen(s[0], symbol) {
        assert OpenRows(s, symbol)[1..] == rest;
      } else {
        assert OpenRows(s, symbol) == rest;
      }
    }
  }

  lemma {:induction false} FilterAllOpen(s: seq<Position>, symbol: string)
    requires forall p :: p in s ==> IsOpen(p, symbol)
    ensures OpenRows(s, symbol) == s
  {
    if s == [] {
    } else {
      FilterAllOpen(s[1..], symbol);
    }
  }

  lemma {:induction false} OpenReplaced(t: seq<Position>, symbol: string, m: seq<Position>)
    requires DistinctIds(t) && Revises(GetOpenPositions(t, symbol), m)
    ensures RespectsQuery(t, m, symbol) && RespectsQuery(OpenRows(t, symbol), m, symbol)
  {
    var open := GetOpenPositions(t, symbol);
    GetOpenPositionsMeaning(t, symbol);
    OpenRowsMeaning(t, symbol);
    forall r | r in t
      ensures Replace(r, m).createdAt == r.createdAt && (!IsOpen(r, symbol) ==> Replace(r, m) == r)
    {
      forall q | q in open && q.orderId == r.orderId ensures q == r {
        SameIdSameRow(t, q, r);
      }
      ReplaceIn(r, open, m);
    }
  }

  lemma {:induction false} ReplaceIn(r: Position, open: seq<Position>, m: seq<Position>)
    requires Revises(open, m)
    requires forall q :: q in open && q.orderId == r.orderId ==> q == r
    ensures Replace(r, m).createdAt == r.createdAt
    ensures Replace(r, m).entryPrice == r.entryPrice
    ensures r !in open ==> Replace(r, m) == r
  {
    if m == [] || m[0].orderId == r.orderId {
    } else {
      ReplaceIn(r, open[1..], m[1..]);
    }
  }

  /** Querying after a SELL yields the matched rows that have something left, in the same order. */
  lemma {:induction false} QueryAfterSell(t: seq<Position>, symbol: string, m: seq<Position>)
    requires DistinctIds(t) && Revises(GetOpenPositions(t, symbol), m)
    ensures GetOpenPositions(Overlay(t, m), symbol) == OpenRows(m, symbol)
    ensures DistinctIds(Overlay(t, m))
  {
    var rows := OpenRows(t, symbol);
    OpenReplaced(t, symbol, m);
    OpenDistinct(t, symbol);
    calc {
      GetOpenPositions(Overlay(t, m), symbol);
      { FilterOverlay(t, m, symbol); }
      SortByCreation(OpenRows(Overlay(rows, m), symbol));
      { SortFilter(Overlay(rows, m), symbol); }
      OpenRows(SortByCreation(Overlay(rows, m)), symbol);
      { SortOverlay(rows, m); }
      OpenRows(Overlay(SortByCreation(rows), m), symbol);
      { OverlayAligned(SortByCreation(rows), m); }
      OpenRows(m, symbol);
    }
    OverlayDistinct(t, m);
  }

  lemma {:induction false} OverlayDistinct(t: seq<Position>, m: seq<Position>)
    requires DistinctIds(t)
    ensures DistinctIds(Overlay(t, m))
  {
    if t == [] {
    } else {
      OverlayDistinct(t[1..], m);
      var o := Overlay(t, m);
      forall p | p in o[1..] ensures p.orderId != o[0].orderId {
        var i :| 0 <= i < |o[1..]| && o[1..][i] == p;
        assert p == Replace(t[i+1], m) && t[i+1] in t[1..];
      }
    }
  }

  // ---------------------------------------------------------------- composition

  predicate AllOpen(s: seq<Position>, symbol: string) {
    forall p :: p in s ==> IsOpen(p, symbol)
  }

  /** Matching a + b at once equals matching a, re-querying, and matching b. */
  lemma {:induction false} MatchInTwoSteps(open: seq<Position>, symbol: string, a: real, b: real, price: real)
    requires AllOpen(open, symbol) && DistinctIds(open) && a >= 0.0 && b >= 0.0
    ensures var left := OpenRows(Matched(open, a, price), symbol);
            && Overlay(Matched(open, a, price), Matched(left, b, price)) == Matched(open, a + b, price)
            && MatchCost(open, a) + MatchCost(left, b) == MatchCost(open, a + b)
            && Unmatched(open, a) + Unmatched(left, b) == Unmatched(open, a + b)
    decreases open, 1
  {
    if open == [] {
    } else if a == 0.0 {
      FilterAllOpen(open, symbol);
      MatchedRevises(open, b, price);
      OverlayAligned(open, Matched(open, b, price));
    } else if open[0].remaining <= a {
      assert IsOpen(open[0], symbol);
      TwoStepsHeadClosed(open, symbol, a, b, price);
    } else {
      TwoStepsHeadPartial(open, symbol, a, b, price);
    }
  }

  /** The oldest row closes in the first step and is never seen by the second. */
  lemma {:induction false} TwoStepsHeadClosed(open: seq<Position>, symbol: string, a: real, b: real, price: real)
    requires open != [] && AllOpen(open, symbol) && DistinctIds(open) && b >= 0.0
    requires 0.0 < open[0].remaining <= a
    ensures var left := OpenRows(Matched(open, a, price), symbol);
            && Overlay(Matched(open, a, price), Matched(left, b, price)) == Matched(open, a + b, price)
            && MatchCost(open, a) + MatchCost(left, b) == MatchCost(open, a + b)
            && Unmatched(open, a) + Unmatched(left, b) == Unmatched(open, a + b)
    decreases open, 0
  {
    var m, rest := open[0].remaining, open[1..];
    var ma, h := Matched(rest, a - m, price), Fill(open[0], m, price);
    var left := OpenRows(ma, symbol);
    var mb := Matched(left, b, price);
    HeadCloses(open, a, price);
    HeadCloses(open, a + b, price);
    MatchInTwoSteps(rest, symbol, a - m, b, price);
    assert (a - m) + b == a + b - m;
    OpenRowsAppend([h], ma, symbol);
    assert Replace(h, mb) == h by {
      HeadIdGone(open, symbol, a - m, price);
      UntouchedRow(h, left, b, price);
    }
    OverlayAppend([h], ma, mb);
  }

  lemma {:induction false} HeadCloses(open: seq<Position>, want: real, price: real)
    requires open != [] && 0.0 < open[0].remaining <= want
    ensures var m := open[0].remaining;
            && Matched(open, want, price) == [Fill(open[0], m, price)] + Matched(open[1..], want - m, price)
            && MatchCost(open, want) == open[0].entryPrice * m + MatchCost(open[1..], want - m)
            && Unmatched(open, want) == Unmatched(open[1..], want - m)
            && !IsOpen(Fill(open[0], m, price), open[0].symbol)
  {}

  lemma {:induction false} HeadIdGone(open: seq<Position>, symbol: string, want: real, price: real)
    requires open != [] && DistinctIds(open)
    ensures forall q :: q in OpenRows(Matched(open[1..], want, price), symbol) ==> q.orderId != open[0].orderId
  {
    var rest := open[1..];
    var ma := Matched(rest, want, price);
    MatchedRevises(rest, want, price);
    OpenRowsMeaning(ma, symbol);
    forall q | q in OpenRows(ma, symbol) ensures q.orderId != open[0].orderId {
      var k :| 0 <= k < |ma| && ma[k] == q;
      assert rest[k] in rest;
    }
  }

  /** The oldest row alone covers the first step. */
  lemma {:induction false} TwoStepsHeadPartial(open: seq<Position>, symbol: string, a: real, b: real, price: real)
    requires open != [] && AllOpen(open, symbol) && DistinctIds(open) && b >= 0.0
    requires 0.0 < a < open[0].remaining
    ensures var left := OpenRows(Matched(open, a, price), symbol);
            && Overlay(Matched(open, a, price), Matched(left, b, price)) == Matched(open, a + b, price)
            && MatchCost(open, a) + MatchCost(left, b) == MatchCost(open, a + b)
            && Unmatched(open, a) + Unmatched(left, b) == Unmatched(open, a + b)
  {
    var h, rest := open[0], open[1..];
    var left := [Fill(h, a, price)] + rest;
    assert IsOpen(h, symbol) && open == [h] + rest && left[1..] == rest;
    HeadOnce(h, rest, a, price);
    FilterAllOpen(left, symbol);
    MatchedRevises(left, b, price);
    OverlayAligned(left, Matched(left, b, price));
    HeadTwice(h, rest, a, b, price);
  }

  lemma {:induction false} HeadOnce(h: Position, rest: seq<Position>, a: real, price: real)
    requires 0.0 < a < h.remaining
    ensures Matched([h] + rest, a, price) == [Fill(h, a, price)] + rest
    ensures MatchCost([h] + rest, a) == h.entryPrice * a && Unmatched([h] + rest, a) == 0.0
  {
    assert ([h] + rest)[1..] == rest;
  }

  lemma {:induction false} HeadTwice(h: Position, rest: seq<Position>, a: real, b: real, price: real)
    requires 0.0 < a < h.remaining && b >= 0.0
    ensures var left := [Fill(h, a, price)] + rest;
            && Matched(left, b, price) == Matched([h] + rest, a + b, price)
            && h.entryPrice * a + MatchCost(left, b) == MatchCost([h] + rest, a + b)
            && Unmatched(left, b) == Unmatched([h] + rest, a + b)
  {
    var h1 := Fill(h, a, price);
    assert ([h1] + rest)[1..] == rest && ([h] + rest)[1..] == rest;
    if b == 0.0 {
      HeadOnce(h, rest, a, price);
    } else {
      var m2 := MatchAmount(h1, b);
      assert MatchAmount(h, a + b) == a + m2;
      assert Fill(h1, m2, price) == Fill(h, a + m2, price);
      Distribute(h.entryPrice, a, m2);
    }
  }

  /** Revenue on the matched quantity minus its entry cost. */
  function Gain(open: seq<Position>, want: real, price: real): real {
    price * (want - Unmatched(open, want)) - MatchCost(open, want)
  }

  /** What a SELL adds to realised profit before its fee. */
  function SellGain(t: seq<Position>, symbol: string, want: real, price: real): real {
    Gain(GetOpenPositions(t, symbol), want, price)
  }

  /** The table and the open positions after a SELL, in terms of the matched list. */
  lemma {:induction false} AfterSell(t: seq<Position>, symbol: string, want: real, price: real)
    requires DistinctIds(t)
    ensures var m := Matched(GetOpenPositions(t, symbol), want, price);
            var t' := SellRows(t, symbol, want, price);
            && t' == Overlay(t, m)
            && DistinctIds(t')
            && GetOpenPositions(t', symbol) == OpenRows(m, symbol)
  {
    MatchedRevises(GetOpenPositions(t, symbol), want, price);
    SellIsOverlay(t, symbol, want, price);
    QueryAfterSell(t, symbol, Matched(GetOpenPositions(t, symbol), want, price));
  }

  /** MatchInTwoSteps for the rows of a table. */
  lemma {:induction false} QueryInTwoSteps(t: seq<Position>, symbol: string, a: real, b: real, price: real)
    requires DistinctIds(t) && a >= 0.0 && b >= 0.0
    ensures var open := GetOpenPositions(t, symbol);
            var left := GetOpenPositions(SellRows(t, symbol, a, price), symbol);
            && left == OpenRows(Matched(open, a, price), symbol)
            && Overlay(Matched(open, a, price), Matched(left, b, price)) == Matched(open, a + b, price)
            && MatchCost(open, a) + MatchCost(left, b) == MatchCost(open, a + b)
            && Unmatched(open, a) + Unmatched(left, b) == Unmatched(open, a + b)
  {
    AfterSell(t, symbol, a, price);
    OpenDistinct(t, symbol);
    GetOpenPositionsMeaning(t, symbol);
    MatchInTwoSteps(GetOpenPositions(t, symbol), symbol, a, b, price);
  }

  /** Selling a + b leaves the same table as selling a and then b at that price. */
  lemma {:induction false} SellRowsCompose(t: seq<Position>, symbol: string, a: real, b: real, price: real)
    requires DistinctIds(t) && a >= 0.0 && b >= 0.0
    ensures SellRows(SellRows(t, symbol, a, price), symbol, b, price) == SellRows(t, symbol, a + b, price)
  {
    AfterSell(t, symbol, a, price);
    QueryInTwoSteps(t, symbol, a, b, price);
    SellIsOverlay(SellRows(t, symbol, a, price), symbol, b, price);
    SellIsOverlay(t, symbol, a + b, price);
    OverlayOfLeft(t, Matched(GetOpenPositions(t, symbol), a, price), symbol, b, price);
  }

  /** Writing back twice, the second time what was matched among the rows left over, is writing back once. */
  lemma {:induction false} OverlayOfLeft(t: seq<Position>, m: seq<Position>, symbol: string, b: real, price: real)
    ensures var n := Matched(OpenRows(m, symbol), b, price);
            Overlay(Overlay(t, m), n) == Overlay(t, Overlay(m, n))
  {
    var left := OpenRows(m, symbol);
    MatchedRevises(left, b, price);
    OpenRowsMeaning(m, symbol);
    OverlayTwice(t, m, Matched(left, b, price), left);
  }

  /** ... and earns the same, before fees. */
  lemma {:induction false} SellGainCompose(t: seq<Position>, symbol: string, a: real, b: real, price: real)
    requires DistinctIds(t) && a >= 0.0 && b >= 0.0
    ensures SellGain(t, symbol, a, price) + SellGain(SellRows(t, symbol, a, price), symbol, b, price)
         == SellGain(t, symbol, a + b, price)
  {
    QueryInTwoSteps(t, symbol, a, b, price);
    GainAdds(GetOpenPositions(t, symbol), GetOpenPositions(SellRows(t, symbol, a, price), symbol), a, b, price);
  }

  lemma {:induction false} GainAdds(open: seq<Position>, left: seq<Position>, a: real, b: real, price: real)
    requires MatchCost(open, a) + MatchCost(left, b) == MatchCost(open, a + b)
    requires Unmatched(open, a) + Unmatched(left, b) == Unmatched(open, a + b)
    ensures Gain(open, a, price) + Gain(left, b, price) == Gain(open, a + b, price)
  {
    var x, y := a - Unmatched(open, a), b - Unmatched(left, b);
    assert price * (x + y) == price * x + price * y;
  }

  lemma {:induction false} OverlayTwice(t: seq<Position>, m: seq<Position>, n: seq<Position>, left: seq<Position>)
    requires Revises(left, n) && forall q :: q in left ==> q in m
    ensures Overlay(Overlay(t, m), n) == Overlay(t, Overlay(m, n))
  {
    forall i | 0 <= i < |t| ensures Replace(Replace(t[i], m), n) == Replace(t[i], Overlay(m, n)) {
      if exists q :: q in m && q.orderId == t[i].orderId {
        ReplaceFound(t[i], m, n);
      } else {
        forall q | q in n ensures q.orderId != t[i].orderId {
          var k :| 0 <= k < |n| && n[k] == q;
          assert left[k] in m;
        }
        ReplaceMissing(t[i], m);
        ReplaceMissing(t[i], n);
        forall q | q in Overlay(m, n) ensures q.orderId != t[i].orderId {
          var k :| 0 <= k < |m| && Overlay(m, n)[k] == q;
          assert m[k] in m;
        }
        ReplaceMissing(t[i], Overlay(m, n));
      }
    }
  }

  lemma {:induction false} ReplaceMissing(r: Position, m: seq<Position>)
    requires forall q :: q in m ==> q.orderId != r.orderId
    ensures Replace(r, m) == r
  {
    if m == [] {
    } else {
      ReplaceMissing(r, m[1..]);
    }
  }

  lemma {:induction false} ReplaceFound(r: Position, m: seq<Position>, n: seq<Position>)
    requires exists q :: q in m && q.orderId == r.orderId
    ensures Replace(Replace(r, m), n) == Replace(r, Overlay(m, n))
  {
    if m[0].orderId == r.orderId {
    } else {
      ReplaceFound(r, m[1..], n);
      assert Overlay(m, n)[1..] == Overlay(m[1..], n);
    }
  }
}
