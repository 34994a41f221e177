/** Cash, the open long position, closed trades and the equity curve of a backtest. */
module Portfolios {
  import opened Options

  datatype ExitReason = BySignal | TakeProfit | StopLoss | EndOfData

  datatype Position = Position(
    symbol: string,
    entryTime: int,
    entryPrice: real,
    quantity: real,
    notional: real,
    entryFee: real,
    entrySlip: real,
    tpPrice: real,
    slPrice: real,
    barsHeld: nat)

  datatype Trade = Trade(
    symbol: string,
    entryTime: int,
    entryPrice: real,
    exitTime: int,
    exitPrice: real,
    quantity: real,
    notional: real,
    grossPnl: real,
    fee: real,
    slippage: real,
    netPnl: real,
    reason: ExitReason,
    holdBars: nat)

  datatype EquityPoint = EquityPoint(timestamp: int, cash: real, equity: real, drawdown: real)

  /** Everything a portfolio holds. */
  datatype Account = Account(
    cash: real,
    peak: real,
    position: Option<Position>,
    trades: seq<Trade>,
    equity: seq<EquityPoint>)

  function NewAccount(initialCash: real): Account {
    Account(initialCash, initialCash, None, [], [])
  }

  function EquityAt(a: Account, price: real): real {
    a.cash + if a.position.Some? then a.position.value.quantity * price else 0.0
  }

  /** Relative distance of e from a level above or below it. */
  function DropFrom(e: real, level: real): real
    requires level > 0.0
  {
    (e - level) / level
  }

  function Marked(a: Account, t: int, price: real): Account {
    var eq := EquityAt(a, price);
    var peak := if eq > a.peak then eq else a.peak;
    var dd := if peak > 0.0 then DropFrom(eq, peak) else 0.0;
    a.(peak := peak, equity := a.equity + [EquityPoint(t, a.cash, eq, dd)])
  }

  function Opened(a: Account, pos: Position): Account {
    a.(position := Some(pos), cash := a.cash - (pos.notional + pos.entryFee + pos.entrySlip))
  }

  function TradeOf(pos: Position, t: int, exitPrice: real, exitFee: real, exitSlip: real, reason: ExitReason): Trade {
    var gross := (exitPrice - pos.entryPrice) * pos.quantity;
    var fee := pos.entryFee + exitFee;
    var slip := pos.entrySlip + exitSlip;
    Trade(pos.symbol, pos.entryTime, pos.entryPrice, t, exitPrice, pos.quantity, pos.notional, gross, fee, slip,
          gross - fee - slip, reason, pos.barsHeld)
  }

  function Closed(a: Account, t: int, exitPrice: real, exitFee: real, exitSlip: real, reason: ExitReason): Account
    requires a.position.Some?
  {
    var pos := a.position.value;
    a.(cash := a.cash + (exitPrice * pos.quantity - exitFee - exitSlip),
       trades := a.trades + [TradeOf(pos, t, exitPrice, exitFee, exitSlip, reason)],
       position := None)
  }

  class Portfolio {
    var cash: real
    var peak: real
    var position: Option<Position>
    var trades: seq<Trade>
    var equity: seq<EquityPoint>

    constructor (initialCash: real)
      ensures View() == NewAccount(initialCash)
    {
      cash, peak, position, trades, equity := initialCash, initialCash, None, [], [];
    }

    ghost function View(): Account
      reads this
    {
      Account(cash, peak, position, trades, equity)
    }

    method MarkToMarket(t: int, price: real)
      modifies this
      ensures View() == Marked(old(View()), t, price)
    {
      var eq := cash;
      if position.Some? {
        eq := eq + position.value.quantity * price;
      }
      if eq > peak {
        peak := eq;
      }
      var dd := 0.0;
      if peak > 0.0 {
        dd := DropFrom(eq, peak);
      }
      equity := equity + [EquityPoint(t, cash, eq, dd)];
    }

    method OpenLong(pos: Position)
      modifies this
      ensures View() == Opened(old(View()), pos)
    {
      position := Some(pos);
      cash := cash - (pos.notional + pos.entryFee + pos.entrySlip);
    }

    /** One more bar of holding. */
    method Hold()
      requires position.Some?
      modifies this
      ensures var pos := old(position).value;
              View() == old(View()).(position := Some(pos.(barsHeld := pos.barsHeld + 1)))
    {
      position := Some(position.value.(barsHeld := position.value.barsHeld + 1));
    }

    method CloseLong(t: int, exitPrice: real, exitFee: real, exitSlip: real, reason: ExitReason) returns (tr: Trade)
      requires position.Some?
      modifies this
      ensures View() == Closed(old(View()), t, exitPrice, exitFee, exitSlip, reason)
      ensures tr == TradeOf(old(position).value, t, exitPrice, exitFee, exitSlip, reason)
    {
      var pos := position.value;
      var gross := (exitPrice - pos.entryPrice) * pos.quantity;
      var fee := pos.entryFee + exitFee;
      var slip := pos.entrySlip + exitSlip;
      cash := cash + (exitPrice * pos.quantity - exitFee - exitSlip);
      tr := Trade(pos.symbol, pos.entryTime, pos.entryPrice, t, exitPrice, pos.quantity, pos.notional, gross, fee,
                  slip, gross - fee - slip, reason, pos.barsHeld);
      assert tr == TradeOf(pos, t, exitPrice, exitFee, exitSlip, reason);
      trades := trades + [tr];
      position := None;
    }
  }

  // ---------------------------------------------------------------- the books

  function NetPnl(ts: seq<Trade>): real {
    if ts == [] then 0.0 else NetPnl(ts[..|ts|-1]) + ts[|ts|-1].netPnl
  }

  function Invested(a: Account): real {
    if a.position.None? then 0.0
    else
      var p := a.position.value;
      p.notional + p.entryFee + p.entrySlip
  }

  predicate PositionOk(p: Position) {
    p.notional == p.entryPrice * p.quantity
  }

  /** Cash is what we started with, plus the net result of closed trades, less what the open position cost. */
  predicate Balanced(a: Account, initialCash: real) {
    a.cash == initialCash + NetPnl(a.trades) - Invested(a) && (a.position.Some? ==> PositionOk(a.position.value))
  }

  lemma {:induction false} NetPnlSnoc(ts: seq<Trade>, t: Trade)
    ensures NetPnl(ts + [t]) == NetPnl(ts) + t.netPnl
  {
    assert (ts + [t])[..|ts|] == ts;
  }

  /** Closing turns the position's cost into a trade whose net result accounts for every yen. */
  lemma {:induction false} CloseBalances(a: Account, initialCash: real, t: int, exitPrice: real, exitFee: real,
                                         exitSlip: real, reason: ExitReason)
    requires a.position.Some? && Balanced(a, initialCash)
    ensures Balanced(Closed(a, t, exitPrice, exitFee, exitSlip, reason), initialCash)
  {
    var pos := a.position.value;
    var tr, proceeds := TradeOf(pos, t, exitPrice, exitFee, exitSlip, reason), exitPrice * pos.quantity;
    NetPnlSnoc(a.trades, tr);
    NetIsProceedsLessCost(pos, t, exitPrice, exitFee, exitSlip, reason);
    var b := Closed(a, t, exitPrice, exitFee, exitSlip, reason);
    assert b.trades == a.trades + [tr] && b.position == None;
    assert b.cash == a.cash + (proceeds - exitFee - exitSlip);
    assert tr.netPnl == (proceeds - exitFee - exitSlip) - Invested(a);
  }

  lemma {:induction false} NetIsProceedsLessCost(pos: Position, t: int, exitPrice: real, exitFee: real, exitSlip: real,
                                                 reason: ExitReason)
    requires pos.notional == pos.entryPrice * pos.quantity
    ensures TradeOf(pos, t, exitPrice, exitFee, exitSlip, reason).netPnl
         == (exitPrice * pos.quantity - exitFee - exitSlip) - (pos.notional + pos.entryFee + pos.entrySlip)
  {
    assert (exitPrice - pos.entryPrice) * pos.quantity == exitPrice * pos.quantity - pos.entryPrice * pos.quantity;
  }

  // ---------------------------------------------------------------- the equity curve

  /** Highest of the starting cash and the samples. */
  function PeakOf(initialCash: real, eq: seq<EquityPoint>): real {
    if eq == [] then initialCash
    else
      var p := PeakOf(initialCash, eq[..|eq|-1]);
      var e := eq[|eq|-1].equity;
      if e > p then e else p
  }

  /** Every sample records its distance from the running peak. */
  predicate CurveOk(a: Account, initialCash: real) {
    && a.peak == PeakOf(initialCash, a.equity)
    && forall i :: 0 <= i < |a.equity| ==> SampleOk(initialCash, a.equity, i)
  }

  lemma {:induction false} PeakBounds(initialCash: real, eq: seq<EquityPoint>)
    ensures PeakOf(initialCash, eq) >= initialCash
    ensures forall i :: 0 <= i < |eq| ==> eq[i].equity <= PeakOf(initialCash, eq)
    ensures PeakOf(initialCash, eq) == initialCash
            || exists i :: 0 <= i < |eq| && eq[i].equity == PeakOf(initialCash, eq)
    decreases |eq|
  {
    if eq == [] {
    } else {
      var n := |eq| - 1;
      PeakBounds(initialCash, eq[..n]);
      assert forall i :: 0 <= i < n ==> eq[..n][i] == eq[i];
      if PeakOf(initialCash, eq) != initialCash && PeakOf(initialCash, eq) != eq[n].equity {
        var i :| 0 <= i < n && eq[..n][i].equity == PeakOf(initialCash, eq[..n]);
        assert eq[i].equity == PeakOf(initialCash, eq);
      }
    }
  }

  predicate SampleOk(initialCash: real, eq: seq<EquityPoint>, i: nat)
    requires i < |eq|
  {
    var p := PeakOf(initialCash, eq[..i+1]);
    p > 0.0 && eq[i].drawdown == DropFrom(eq[i].equity, p)
  }

  lemma {:induction false} MarkKeepsCurve(a: Account, initialCash: real, t: int, price: real)
    requires CurveOk(a, initialCash) && initialCash > 0.0
    ensures CurveOk(Marked(a, t, price), initialCash)
  {
    var b := Marked(a, t, price).equity;
    var n := |a.equity|;
    assert b[..n] == a.equity && b[..n+1] == b;
    PeakBounds(initialCash, a.equity);
    assert Marked(a, t, price).peak == PeakOf(initialCash, b);
    assert SampleOk(initialCash, b, n);
    forall i | 0 <= i < n ensures SampleOk(initialCash, b, i) {
      assert SampleOk(initialCash, a.equity, i);
      assert b[..i+1] == a.equity[..i+1];
    }
  }
}
