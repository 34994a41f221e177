/** The profit calculator: FIFO matching loop, transaction, and the fallback that writes without one. */
module PnlCalculator {
  import opened Ledger
  import opened LedgerSell
  import opened LedgerRuns

  /** Which database calls fail while one order is being recorded. Updates are numbered in loop order. */
  datatype Faults = Faults(
    read: bool,
    begin: bool,
    position: bool,
    updates: set<nat>,
    trade: bool,
    commit: bool,
    reread: bool,
    fallbackPosition: bool,
    fallbackUpdates: set<nat>,
    fallbackTrade: bool)

  datatype Outcome =
    | Saved(pnl: real)
    | ReadFailed
    | TradeNotSaved(pnl: real)

  function TouchedBy(t: seq<Position>, r: OrderResult): seq<Position> {
    if r.side == Sell then Touched(GetOpenPositions(t, r.symbol), r.filledSize, r.EffectivePrice()) else []
  }

  /** No call of the transaction fails. */
  predicate Commits(t: seq<Position>, r: OrderResult, f: Faults) {
    && !f.begin && !(r.side == Buy && f.position)
    && (forall k :: 0 <= k < |TouchedBy(t, r)| ==> k !in f.updates)
    && !f.trade && !f.commit
  }

  /** No call of the fallback fails. */
  predicate FallsBackCleanly(t: seq<Position>, r: OrderResult, f: Faults) {
    && !(r.side == Sell && f.reread) && !(r.side == Buy && f.fallbackPosition)
    && (forall k :: 0 <= k < |TouchedBy(t, r)| ==> k !in f.fallbackUpdates)
    && !f.fallbackTrade
  }

  /** Row updates of which some, numbered from k, are lost. */
  function UpdateExcept(t: seq<Position>, ups: seq<Position>, k: nat, lost: set<nat>): seq<Position>
    decreases ups
  {
    if ups == [] then t
    else UpdateExcept(if k in lost then t else UpdatePosition(t, ups[0]), ups[1..], k + 1, lost)
  }

  function FallbackRows(t: seq<Position>, r: OrderResult, f: Faults): seq<Position> {
    if r.side == Buy then (if f.fallbackPosition then t else t + [NewPosition(r)])
    else if f.reread then t
    else UpdateExcept(t, TouchedBy(t, r), 0, f.fallbackUpdates)
  }

  function FallbackPnl(t: seq<Position>, r: OrderResult, f: Faults): real {
    if r.side == Sell && f.reread then -r.fee else Pnl(t, r)
  }

  function FallbackTables(tb: Tables, r: OrderResult, strategyName: string, f: Faults): Tables {
    Tables(FallbackRows(tb.positions, r, f),
           if f.fallbackTrade then tb.trades
           else SaveTrade(tb.trades, NewTrade(r, FallbackPnl(tb.positions, r, f), strategyName)))
  }

  lemma {:induction false} NothingLost(t: seq<Position>, ups: seq<Position>, k: nat, lost: set<nat>)
    requires forall i :: k <= i < k + |ups| ==> i !in lost
    ensures UpdateExcept(t, ups, k, lost) == UpdatePositions(t, ups)
    decreases ups
  {
    if ups == [] {
    } else {
      NothingLost(UpdatePosition(t, ups[0]), ups[1..], k + 1, lost);
    }
  }

  /** A failed transaction leaves no trace: the fallback starts from the old tables, so if its own writes
      succeed the tables end up exactly as the transaction would have left them. */
  lemma {:induction false} CleanFallbackEqualsCommit(tb: Tables, r: OrderResult, strategyName: string, f: Faults)
    requires FallsBackCleanly(tb.positions, r, f)
    ensures FallbackTables(tb, r, strategyName, f) == RecordOrder(tb, r, strategyName)
  {
    if r.side == Sell {
      NothingLost(tb.positions, TouchedBy(tb.positions, r), 0, f.fallbackUpdates);
    }
  }

  /** The two tables. */
  class Database {
    var positions: seq<Position>
    var trades: seq<Trade>

    constructor ()
      ensures positions == [] && trades == []
    {
      positions, trades := [], [];
    }

    ghost function View(): Tables
      reads this
    {
      Tables(positions, trades)
    }
  }

  /** A transaction works on its own copy of the tables until it commits. */
  class Transaction {
    const db: Database
    var positions: seq<Position>
    var trades: seq<Trade>

    constructor (db: Database)
      ensures this.db == db && positions == db.positions && trades == db.trades
    {
      this.db := db;
      positions, trades := db.positions, db.trades;
    }

    method Commit(fails: bool) returns (ok: bool)
      modifies db
      ensures ok == !fails
      ensures db.View() == if ok then Tables(positions, trades) else old(db.View())
    {
      ok := !fails;
      if ok {
        db.positions, db.trades := positions, trades;
      }
    }
  }

  class Calculator {
    const db: Database
    var strategyName: string

    constructor (db: Database, strategyName: string)
      ensures this.db == db && this.strategyName == strategyName
    {
      this.db := db;
      this.strategyName := strategyName;
    }

    /** FIFO matching over in-memory copies of the open rows; nothing is written. */
    method PrepareSellData(r: OrderResult) returns (pnl: real, touched: seq<Position>)
      requires r.side == Sell
      ensures touched == TouchedBy(db.positions, r)
      ensures pnl == Pnl(db.positions, r)
    {
      var open := GetOpenPositions(db.positions, r.symbol);
      var remaining, cost;
      touched, remaining, cost := MatchOldestFirst(open, r.filledSize, r.EffectivePrice());
      GainOfMatch(db.positions, r.symbol, r.filledSize, r.EffectivePrice());
      var matched := r.filledSize - remaining;
      if matched > 0.0 {
        pnl := r.EffectivePrice() * matched - cost - r.fee;
      } else {
        pnl := -r.fee;
      }
    }

    /** The matching loop of PrepareSellData. */
    method MatchOldestFirst(open: seq<Position>, want: real, price: real)
      returns (touched: seq<Position>, remaining: real, cost: real)
      ensures touched == Touched(open, want, price)
      ensures remaining == Unmatched(open, want) && cost == MatchCost(open, want)
    {
      touched, remaining, cost := [], want, 0.0;
      var i := 0;
      while i < |open| && remaining > 0.0
        invariant 0 <= i <= |open|
        invariant MatchedSoFar(open, want, price, i, touched, remaining, cost)
      {
        var p := open[i];
        var m := remaining;
        if p.remaining < m {
          m := p.remaining;
        }
        var spent := p.entryPrice * m;
        p := p.(used := p.used + m, remaining := p.remaining - m, currentPrice := price);
        p := p.(status := StatusOf(p.used, p.remaining));
        assert p == Fill(open[i], m, price);
        MatchNext(open, want, price, i, touched, remaining, cost, m, spent);
        cost, touched, remaining, i := cost + spent, touched + [p], remaining - m, i + 1;
      }
      MatchDone(open, want, price, i, touched, remaining, cost);
    }

    /** Records one order; the database calls named in f fail. */
    method CalculateAndSave(r: OrderResult, f: Faults) returns (res: Outcome)
      modifies db
      ensures r.side == Sell && f.read ==> res == ReadFailed && db.View() == old(db.View())
      ensures !(r.side == Sell && f.read) ==>
        var t := old(db.positions);
        if Commits(t, r, f) then
          res == Saved(Pnl(t, r)) && db.View() == RecordOrder(old(db.View()), r, Name(strategyName))
        else
          && db.View() == FallbackTables(old(db.View()), r, Name(strategyName), f)
          && res == if f.fallbackTrade then TradeNotSaved(FallbackPnl(t, r, f)) else Saved(FallbackPnl(t, r, f))
    {
      var name := Name(strategyName);
      var pnl, touched := 0.0, [];
      if r.side == Buy {
        pnl := -r.fee;
      } else {
        if f.read {
          return ReadFailed;
        }
        pnl, touched := PrepareSellData(r);
      }
      var ok := RunTransaction(r, name, pnl, touched, f);
      if ok {
        return Saved(pnl);
      }
      res := SaveWithoutTransaction(r, name, f);
    }

    /** All writes of one order, or none. */
    method RunTransaction(r: OrderResult, name: string, pnl: real, touched: seq<Position>, f: Faults)
      returns (ok: bool)
      requires touched == TouchedBy(db.positions, r)
      modifies db
      ensures ok == Commits(old(db.positions), r, f)
      ensures db.View() == if ok then
          Tables(UpdatePositions(if r.side == Buy then old(db.positions) + [NewPosition(r)] else old(db.positions),
                                 touched),
                 SaveTrade(old(db.trades), NewTrade(r, pnl, name)))
        else old(db.View())
    {
      if f.begin {
        return false;
      }
      var tx := new Transaction(db);
      if r.side == Buy {
        if f.position {
          return false;
        }
        tx.positions := tx.positions + [NewPosition(r)];
      }
      ghost var base := tx.positions;
      var i := 0;
      while i < |touched|
        invariant 0 <= i <= |touched|
        invariant forall k :: 0 <= k < i ==> k !in f.updates
        invariant UpdatePositions(tx.positions, touched[i..]) == UpdatePositions(base, touched)
        invariant tx.trades == old(db.trades) && db.View() == old(db.View())
      {
        if i in f.updates {
          return false;
        }
        assert touched[i..][1..] == touched[i+1..];
        tx.positions := UpdatePosition(tx.positions, touched[i]);
        i := i + 1;
      }
      if f.trade {
        return false;
      }
      tx.trades := SaveTrade(tx.trades, NewTrade(r, pnl, name));
      ok := tx.Commit(f.commit);
    }

    /** Every write on its own; a failed one is logged and skipped. */
    method SaveWithoutTransaction(r: OrderResult, name: string, f: Faults) returns (res: Outcome)
      modifies db
      ensures db.View() == FallbackTables(old(db.View()), r, name, f)
      ensures var pnl := FallbackPnl(old(db.positions), r, f);
              res == if f.fallbackTrade then TradeNotSaved(pnl) else Saved(pnl)
    {
      var pnl := -r.fee;
      if r.side == Buy {
        if !f.fallbackPosition {
          db.positions := db.positions + [NewPosition(r)];
        }
      } else if !f.reread {
        var touched;
        pnl, touched := PrepareSellData(r);
        ghost var before := db.positions;
        var i: nat := 0;
        while i < |touched|
          invariant 0 <= i <= |touched|
          invariant UpdateExcept(db.positions, touched[i..], i, f.fallbackUpdates)
                 == UpdateExcept(before, touched, 0, f.fallbackUpdates)
          invariant db.trades == old(db.trades)
        {
          assert touched[i..][1..] == touched[i+1..];
          if i !in f.fallbackUpdates {
            db.positions := UpdatePosition(db.positions, touched[i]);
          }
          i := i + 1;
        }
      }
      if f.fallbackTrade {
        return TradeNotSaved(pnl);
      }
      db.trades := SaveTrade(db.trades, NewTrade(r, pnl, name));
      res := Saved(pnl);
    }
  }

  function Name(configured: string): string {
    if configured == "" then "unknown" else configured
  }

  /** What the loop has gathered, together with what the rows from i on will add, is the whole match. */
  predicate MatchedSoFar(open: seq<Position>, want: real, price: real, i: nat, touched: seq<Position>,
                         remaining: real, cost: real)
    requires i <= |open|
  {
    && touched + Touched(open[i..], remaining, price) == Touched(open, want, price)
    && cost + MatchCost(open[i..], remaining) == MatchCost(open, want)
    && Unmatched(open[i..], remaining) == Unmatched(open, want)
  }

  lemma {:induction false} MatchNext(open: seq<Position>, want: real, price: real, i: nat, touched: seq<Position>,
                                     remaining: real, cost: real, m: real, spent: real)
    requires i < |open| && remaining > 0.0 && MatchedSoFar(open, want, price, i, touched, remaining, cost)
    requires m == MatchAmount(open[i], remaining) && spent == open[i].entryPrice * m
    ensures MatchedSoFar(open, want, price, i + 1, touched + [Fill(open[i], m, price)], remaining - m, cost + spent)
  {
    assert open[i..][1..] == open[i+1..];
  }

  lemma {:induction false} MatchDone(open: seq<Position>, want: real, price: real, i: nat, touched: seq<Position>,
                                     remaining: real, cost: real)
    requires i <= |open| && MatchedSoFar(open, want, price, i, touched, remaining, cost)
    requires i == |open| || remaining <= 0.0
    ensures touched == Touched(open, want, price)
    ensures remaining == Unmatched(open, want) && cost == MatchCost(open, want)
  {}

  /** The profit of a SELL by what the loop has found, and zero when nothing was matched. */
  lemma {:induction false} GainOfMatch(t: seq<Position>, symbol: string, want: real, price: real)
    ensures var open := GetOpenPositions(t, symbol);
            var matched := want - Unmatched(open, want);
            SellGain(t, symbol, want, price) == (if matched > 0.0 then price * matched - MatchCost(open, want) else 0.0)
  {
    var open := GetOpenPositions(t, symbol);
    OpenArePositive(t, symbol);
    UnmatchedIsExcess(open, want);
    RemainingNonNegative(open);
  }
}
