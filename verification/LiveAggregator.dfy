/** The push-style bar aggregation of the strategy worker, and how it relates to the resampler. */
module LiveAggregator {
  import opened Options
  import opened History
  import opened Buckets
  import opened Resampler

  datatype MarketData = MarketData(
    symbol: string,
    price: real,
    volume: real,
    bestBid: real,
    bestAsk: real,
    spread: real,
    timestamp: int)

  /** The bar under construction. */
  datatype OpenBar = OpenBar(
    start: int,
    high: real,
    low: real,
    close: real,
    volume: real,
    bestBid: real,
    bestAsk: real)

  function OpenFrom(t: MarketData, period: int): OpenBar
    requires period > 0
  {
    OpenBar(BucketStart(t.timestamp, period), t.price, t.price, t.price, t.volume, t.bestBid, t.bestAsk)
  }

  /** The open bar after one tick; ticks of earlier buckets are ignored. */
  function Feed(bar: Option<OpenBar>, t: MarketData, period: int): OpenBar
    requires period > 0
  {
    match bar
    case None => OpenFrom(t, period)
    case Some(b) =>
      var s := BucketStart(t.timestamp, period);
      if s == b.start then
        OpenBar(b.start, if t.price > b.high then t.price else b.high, if t.price < b.low then t.price else b.low,
                t.price, b.volume + t.volume, t.bestBid, t.bestAsk)
      else if s > b.start then OpenFrom(t, period)
      else b
  }

  /** The bar that a tick completes. */
  function Completes(bar: Option<OpenBar>, t: MarketData, period: int): Option<MarketData>
    requires period > 0
  {
    if bar.Some? && BucketStart(t.timestamp, period) > bar.value.start then
      var b := bar.value;
      Some(MarketData(t.symbol, b.close, b.volume, b.bestBid, b.bestAsk, b.bestAsk - b.bestBid, b.start))
    else None
  }

  /** Per-symbol state of the strategy worker in bar mode. */
  class SymbolHistory {
    const period: int
    const limit: nat
    var data: seq<MarketData>
    var barOpen: bool
    var barStart: int
    var barHigh: real
    var barLow: real
    var barClose: real
    var barVolume: real
    var barBestBid: real
    var barBestAsk: real

    constructor (period: int, limit: nat)
      ensures this.period == period && this.limit == limit && data == [] && Bar() == None
    {
      this.period, this.limit := period, limit;
      data, barOpen, barStart := [], false, 0;
      barHigh, barLow, barClose, barVolume, barBestBid, barBestAsk := 0.0, 0.0, 0.0, 0.0, 0.0, 0.0;
    }

    ghost function Bar(): Option<OpenBar>
      reads this
    {
      if barOpen then Some(OpenBar(barStart, barHigh, barLow, barClose, barVolume, barBestBid, barBestAsk)) else None
    }

    method Aggregate(t: MarketData) returns (completed: Option<MarketData>)
      requires period > 0
      modifies this
      ensures Bar() == Some(Feed(old(Bar()), t, period))
      ensures completed == Completes(old(Bar()), t, period)
      ensures data == if completed.Some? then LastN(old(data) + [completed.value], limit) else old(data)
    {
      completed := None;
      var bucket := BucketStart(t.timestamp, period);
      if !barOpen {
        barOpen, barStart := true, bucket;
        barHigh, barLow, barClose, barVolume := t.price, t.price, t.price, t.volume;
        barBestBid, barBestAsk := t.bestBid, t.bestAsk;
      } else if bucket == barStart {
        if t.price > barHigh {
          barHigh := t.price;
        }
        if t.price < barLow {
          barLow := t.price;
        }
        barClose, barVolume := t.price, barVolume + t.volume;
        barBestBid, barBestAsk := t.bestBid, t.bestAsk;
      } else if bucket > barStart {
        var bar := MarketData(t.symbol, barClose, barVolume, barBestBid, barBestAsk, barBestAsk - barBestBid, barStart);
        completed := Some(bar);
        data := data + [bar];
        if |data| > limit {
          data := data[|data|-limit..];
        }
        barStart := bucket;
        barHigh, barLow, barClose, barVolume := t.price, t.price, t.price, t.volume;
        barBestBid, barBestAsk := t.bestBid, t.bestAsk;
      }
    }
  }

  // ---------------------------------------------------------------- runs of ticks

  function OpenAfter(ticks: seq<MarketData>, period: int): Option<OpenBar>
    requires period > 0
  {
    if ticks == [] then None
    else Some(Feed(OpenAfter(ticks[..|ticks|-1], period), ticks[|ticks|-1], period))
  }

  /** Every bar completed by a run of ticks, oldest first. */
  function CompletedBy(ticks: seq<MarketData>, period: int): seq<MarketData>
    requires period > 0
  {
    if ticks == [] then []
    else
      var pre, t := ticks[..|ticks|-1], ticks[|ticks|-1];
      var c := Completes(OpenAfter(pre, period), t, period);
      CompletedBy(pre, period) + if c.Some? then [c.value] else []
  }

  /** Feeding a whole run keeps exactly the latest completed bars. */
  method FeedAll(h: SymbolHistory, ticks: seq<MarketData>)
    requires h.period > 0 && h.data == [] && h.Bar() == None
    modifies h
    ensures h.Bar() == OpenAfter(ticks, h.period)
    ensures h.data == LastN(CompletedBy(ticks, h.period), h.limit)
  {
    var i := 0;
    while i < |ticks|
      invariant 0 <= i <= |ticks|
      invariant h.Bar() == OpenAfter(ticks[..i], h.period)
      invariant h.data == LastN(CompletedBy(ticks[..i], h.period), h.limit)
    {
      assert ticks[..i+1] == ticks[..i] + [ticks[i]];
      LiveSnoc(ticks[..i], ticks[i], h.period);
      var c := h.Aggregate(ticks[i]);
      LastNAppend(CompletedBy(ticks[..i], h.period), if c.Some? then [c.value] else [], h.limit);
      i := i + 1;
    }
    assert ticks[..i] == ticks;
  }

  // ---------------------------------------------------------------- refinement of the resampler

  function TickBar(t: MarketData): Bar {
    Bar(t.symbol, t.timestamp, t.price, t.price, t.price, t.price, t.volume)
  }

  function TickBars(ticks: seq<MarketData>): (r: seq<Bar>)
    ensures |r| == |ticks|
    ensures forall i :: 0 <= i < |ticks| ==> r[i] == TickBar(ticks[i])
  {
    if ticks == [] then [] else TickBars(ticks[..|ticks|-1]) + [TickBar(ticks[|ticks|-1])]
  }

  /** No earlier tick lies in a later bucket. */
  predicate Timely(earlier: seq<MarketData>, t: MarketData, period: int)
    requires period > 0
  {
    forall i :: 0 <= i < |earlier| ==> BucketStart(earlier[i].timestamp, period) <= BucketStart(t.timestamp, period)
  }

  /** The ticks whose bucket is not before any earlier tick's bucket. */
  function TimelyTicks(ticks: seq<MarketData>, period: int): seq<MarketData>
    requires period > 0
  {
    if ticks == [] then []
    else
      var pre, t := ticks[..|ticks|-1], ticks[|ticks|-1];
      TimelyTicks(pre, period) + if Timely(pre, t, period) then [t] else []
  }

  /** What the live bar and the backtest bar have in common. */
  datatype Brief = Brief(symbol: string, start: int, close: real, volume: real)

  function LiveBriefs(ms: seq<MarketData>): (r: seq<Brief>)
    ensures |r| == |ms|
    ensures forall i :: 0 <= i < |ms| ==> r[i] == Brief(ms[i].symbol, ms[i].timestamp, ms[i].price, ms[i].volume)
  {
    if ms == [] then []
    else
      var m := ms[|ms|-1];
      LiveBriefs(ms[..|ms|-1]) + [Brief(m.symbol, m.timestamp, m.price, m.volume)]
  }

  function BarBriefs(bs: seq<Bar>): (r: seq<Brief>)
    ensures |r| == |bs|
    ensures forall i :: 0 <= i < |bs| ==> r[i] == Brief(bs[i].symbol, bs[i].timestamp, bs[i].close, bs[i].volume)
  {
    if bs == [] then []
    else
      var b := bs[|bs|-1];
      BarBriefs(bs[..|bs|-1]) + [Brief(b.symbol, b.timestamp, b.close, b.volume)]
  }

  /** All bars but the last, which is still open. */
  function Finished(bs: seq<Bar>): seq<Bar> {
    if bs == [] then [] else bs[..|bs|-1]
  }

  /** Output bars after one more input bar: it folds into the last one or starts the next. */
  function Extended(c: seq<Bar>, b: Bar, period: int): seq<Bar>
    requires period > 0
  {
    var n := |c| - 1;
    if c != [] && BucketStart(b.timestamp, period) == c[n].timestamp then c[..n] + [FoldIn(c[n], b)]
    else c + [StartBar(b, period)]
  }

  lemma {:induction false} CollectSnoc(cur: Bar, rest: seq<Bar>, b: Bar, period: int)
    requires period > 0
    ensures Collect(cur, rest, period) != []
    ensures Collect(cur, rest + [b], period) == Extended(Collect(cur, rest, period), b, period)
    decreases rest
  {
    if rest == [] {
      assert rest + [b] == [b] && [b][1..] == [];
    } else {
      assert (rest + [b])[1..] == rest[1..] + [b];
      if BucketStart(rest[0].timestamp, period) == cur.timestamp {
        CollectSnoc(FoldIn(cur, rest[0]), rest[1..], b, period);
      } else {
        CollectSnoc(StartBar(rest[0], period), rest[1..], b, period);
      }
    }
  }

  lemma {:induction false} ResampleSnoc(bars: seq<Bar>, b: Bar, period: int)
    requires period > 0
    ensures bars == [] <==> Resample(bars, period) == []
    ensures Resample(bars + [b], period) == Extended(Resample(bars, period), b, period)
  {
    if bars == [] {
      assert bars + [b] == [b] && [b][1..] == [];
    } else {
      assert (bars + [b])[1..] == bars[1..] + [b];
      CollectSnoc(StartBar(bars[0], period), bars[1..], b, period);
    }
  }

  /** The backtest bars of a raw stream of ticks. */
  function RawBars(ticks: seq<MarketData>, period: int): seq<Bar>
    requires period > 0
  {
    Resample(TickBars(ticks), period)
  }

  /** The backtest bars of the timely ticks only. */
  function TimelyBars(ticks: seq<MarketData>, period: int): seq<Bar>
    requires period > 0
  {
    Resample(TickBars(TimelyTicks(ticks, period)), period)
  }

  lemma {:induction false} BarsSnoc(pre: seq<MarketData>, t: MarketData, period: int)
    requires period > 0
    ensures RawBars(pre + [t], period) == Extended(RawBars(pre, period), TickBar(t), period)
    ensures TimelyBars(pre + [t], period)
         == if Timely(pre, t, period) then Extended(TimelyBars(pre, period), TickBar(t), period)
            else TimelyBars(pre, period)
  {
    var before := TimelyTicks(pre, period);
    assert (pre + [t])[..|pre|] == pre;
    ResampleSnoc(TickBars(pre), TickBar(t), period);
    if Timely(pre, t, period) {
      assert (before + [t])[..|before|] == before;
      ResampleSnoc(TickBars(before), TickBar(t), period);
    } else {
      assert before + [] == before;
    }
  }

  lemma {:induction false} LiveSnoc(pre: seq<MarketData>, t: MarketData, period: int)
    requires period > 0
    ensures OpenAfter(pre + [t], period) == Some(Feed(OpenAfter(pre, period), t, period))
    ensures var c := Completes(OpenAfter(pre, period), t, period);
            CompletedBy(pre + [t], period) == CompletedBy(pre, period) + (if c.Some? then [c.value] else [])
  {
    assert (pre + [t])[..|pre|] == pre;
  }

  predicate OneSymbol(ticks: seq<MarketData>, symbol: string) {
    forall i :: 0 <= i < |ticks| ==> ticks[i].symbol == symbol
  }

  /** The open live bar is the resampler's last bar over the timely ticks, field for field. */
  predicate OpenMatches(bar: OpenBar, last: Bar, symbol: string) {
    bar.start == last.timestamp && bar.high == last.high && bar.low == last.low && bar.close == last.close
    && bar.volume == last.volume && last.symbol == symbol
  }

  /** The start of the open bar only moves forward, to the bucket of the tick. */
  lemma {:induction false} FeedStart(b: OpenBar, t: MarketData, period: int)
    requires period > 0
    ensures var s, r := BucketStart(t.timestamp, period), Feed(Some(b), t, period).start;
            r == if s > b.start then s else b.start
  {}

  /** A tick is timely exactly when its bucket is not before the open bar. */
  lemma {:induction false} TimelyByStart(pre: seq<MarketData>, t: MarketData, period: int)
    requires period > 0 && pre != []
    ensures OpenAfter(pre, period).Some?
    ensures Timely(pre, t, period) <==> OpenAfter(pre, period).value.start <= BucketStart(t.timestamp, period)
    decreases |pre|
  {
    var n := |pre| - 1;
    var before, last := pre[..n], pre[n];
    assert pre == before + [last];
    LiveSnoc(before, last, period);
    TimelySnoc(before, last, t, period);
    if n == 0 {
    } else {
      TimelyByStart(before, t, period);
      FeedStart(OpenAfter(before, period).value, last, period);
    }
  }

  lemma {:induction false} TimelySnoc(before: seq<MarketData>, last: MarketData, t: MarketData, period: int)
    requires period > 0
    ensures Timely(before + [last], t, period)
       <==> Timely(before, t, period) && BucketStart(last.timestamp, period) <= BucketStart(t.timestamp, period)
  {
    var all := before + [last];
    assert all[|before|] == last;
    if Timely(all, t, period) {
      forall i | 0 <= i < |before|
        ensures BucketStart(before[i].timestamp, period) <= BucketStart(t.timestamp, period)
      {
        assert all[i] == before[i];
      }
    }
  }

  /** How the live worker and the resampler stand to each other. */
  predicate InStep(completed: seq<MarketData>, bar: Option<OpenBar>, bars: seq<Bar>, symbol: string) {
    && LiveBriefs(completed) == BarBriefs(Finished(bars))
    && (bar.None? <==> bars == [])
    && (bar.Some? && bars != [] ==> OpenMatches(bar.value, bars[|bars|-1], symbol))
  }

  lemma {:induction false} StepTogether(completed: seq<MarketData>, bar: Option<OpenBar>, bars: seq<Bar>, t: MarketData,
                                        period: int)
    requires period > 0 && InStep(completed, bar, bars, t.symbol)
    requires bar.Some? ==> bar.value.start <= BucketStart(t.timestamp, period)
    ensures var c := Completes(bar, t, period);
            InStep(completed + (if c.Some? then [c.value] else []), Some(Feed(bar, t, period)),
                   Extended(bars, TickBar(t), period), t.symbol)
  {
    var next := Extended(bars, TickBar(t), period);
    var c := Completes(bar, t, period);
    if c.Some? {
      assert Finished(next) == bars;
      assert bars == Finished(bars) + [bars[|bars|-1]];
    } else {
      assert completed + [] == completed;
      assert Finished(next) == Finished(bars);
    }
  }

  /** For every run of ticks of one symbol, in any order, the live worker has completed exactly the bars that the
      resampler delivers for the timely ticks, except the last, and its open bar is that last one. */
  lemma {:induction false} LiveRefinesResampler(ticks: seq<MarketData>, symbol: string, period: int)
    requires period > 0 && OneSymbol(ticks, symbol)
    ensures InStep(CompletedBy(ticks, period), OpenAfter(ticks, period), TimelyBars(ticks, period), symbol)
    decreases |ticks|
  {
    if ticks == [] {
    } else {
      var n := |ticks| - 1;
      var pre, t := ticks[..n], ticks[n];
      assert ticks == pre + [t];
      LiveRefinesResampler(pre, symbol, period);
      BarsSnoc(pre, t, period);
      LiveSnoc(pre, t, period);
      if pre != [] {
        TimelyByStart(pre, t, period);
      }
      if Timely(pre, t, period) {
        StepTogether(CompletedBy(pre, period), OpenAfter(pre, period), TimelyBars(pre, period), t, period);
      } else {
        assert CompletedBy(pre, period) + [] == CompletedBy(pre, period);
      }
    }
  }

  // ---------------------------------------------------------------- when the boundaries match exactly

  /** No tick falls into an earlier bucket than a tick before it. */
  predicate InOrder(ticks: seq<MarketData>, period: int)
    requires period > 0
  {
    forall i, j :: 0 <= i < j < |ticks| ==>
      BucketStart(ticks[i].timestamp, period) <= BucketStart(ticks[j].timestamp, period)
  }

  lemma {:induction false} InOrderAllTimely(ticks: seq<MarketData>, period: int)
    requires period > 0 && InOrder(ticks, period)
    ensures TimelyTicks(ticks, period) == ticks
    decreases |ticks|
  {
    if ticks == [] {
    } else {
      var n := |ticks| - 1;
      InOrderAllTimely(ticks[..n], period);
      assert Timely(ticks[..n], ticks[n], period);
      assert ticks[..n] + [ticks[n]] == ticks;
    }
  }

  lemma {:induction false} ExtendedEnd(c: seq<Bar>, b: Bar, period: int)
    requires period > 0
    ensures var r, s := Extended(c, b, period), BucketStart(b.timestamp, period);
            && r != [] && r[|r|-1].timestamp == s
            && |r| == |c| + (if c != [] && c[|c|-1].timestamp == s then 0 else 1)
  {}

  /** The last bar of a raw stream is labelled with the bucket of its last tick. */
  lemma {:induction false} LastRawLabel(pre: seq<MarketData>, t: MarketData, period: int)
    requires period > 0
    ensures var raw := RawBars(pre + [t], period);
            raw != [] && raw[|raw|-1].timestamp == BucketStart(t.timestamp, period)
  {
    BarsSnoc(pre, t, period);
    ExtendedEnd(RawBars(pre, period), TickBar(t), period);
  }

  /** The last timely bar is labelled with the latest bucket of any tick. */
  lemma {:induction false} LastTimelyLabel(ticks: seq<MarketData>, period: int)
    requires period > 0 && ticks != []
    ensures OpenAfter(ticks, period).Some?
    ensures var timely := TimelyBars(ticks, period);
            timely != [] && timely[|timely|-1].timestamp == OpenAfter(ticks, period).value.start
    decreases |ticks|
  {
    var n := |ticks| - 1;
    var pre, t := ticks[..n], ticks[n];
    assert ticks == pre + [t];
    BarsSnoc(pre, t, period);
    LiveSnoc(pre, t, period);
    ExtendedEnd(TimelyBars(pre, period), TickBar(t), period);
    if pre == [] {
    } else {
      LastTimelyLabel(pre, period);
      TimelyByStart(pre, t, period);
      FeedStart(OpenAfter(pre, period).value, t, period);
    }
  }

  /** A tick that goes back to an earlier bucket costs the resampler an extra bar, which the live worker never has. */
  lemma {:induction false} StaleTickCostsBar(ticks: seq<MarketData>, period: int)
    requires period > 0
    ensures |RawBars(ticks, period)| >= |TimelyBars(ticks, period)|
    ensures !InOrder(ticks, period) ==> |RawBars(ticks, period)| > |TimelyBars(ticks, period)|
    decreases |ticks|
  {
    if ticks == [] {
    } else {
      var n := |ticks| - 1;
      var pre, t := ticks[..n], ticks[n];
      assert ticks == pre + [t];
      StaleTickCostsBar(pre, period);
      if InOrder(pre, period) {
        InOrderAllTimely(pre, period);
        assert Timely(pre, t, period) ==> InOrder(ticks, period);
      }
      OneMoreTick(pre, t, period);
    }
  }

  /** One more tick: a stale one adds a bar to the raw stream if the raw stream was in order so far; a timely one
      adds a bar to the timely stream only when it also adds one to the raw stream, unless that is ahead already. */
  lemma {:induction false} OneMoreTick(pre: seq<MarketData>, t: MarketData, period: int)
    requires period > 0
    ensures var raw, raw' := |RawBars(pre, period)|, |RawBars(pre + [t], period)|;
            var timely, timely' := |TimelyBars(pre, period)|, |TimelyBars(pre + [t], period)|;
            && raw <= raw' && timely <= timely'
            && (!Timely(pre, t, period) ==>
                  timely' == timely && (TimelyTicks(pre, period) == pre ==> raw' == raw + 1))
            && (Timely(pre, t, period) ==> raw' - raw >= timely' - timely)
  {
    if Timely(pre, t, period) {
      TimelyTickAddsNoMore(pre, t, period);
    } else {
      StaleTickAddsBar(pre, t, period);
    }
  }

  /** A timely tick starts a timely bar only where it starts a raw one. */
  lemma {:induction false} TimelyTickAddsNoMore(pre: seq<MarketData>, t: MarketData, period: int)
    requires period > 0 && Timely(pre, t, period)
    ensures var raw, raw' := |RawBars(pre, period)|, |RawBars(pre + [t], period)|;
            var timely, timely' := |TimelyBars(pre, period)|, |TimelyBars(pre + [t], period)|;
            raw <= raw' && timely <= timely' && raw' - raw >= timely' - timely
  {
    BarsSnoc(pre, t, period);
    ExtendedEnd(RawBars(pre, period), TickBar(t), period);
    ExtendedEnd(TimelyBars(pre, period), TickBar(t), period);
    if pre != [] {
      LastTimelyLabel(pre, period);
      RawBehindTimely(pre, period);
      TimelyByStart(pre, t, period);
    }
  }

  /** The last raw bar is not ahead of the last timely one. */
  lemma {:induction false} RawBehindTimely(ticks: seq<MarketData>, period: int)
    requires period > 0 && ticks != []
    ensures OpenAfter(ticks, period).Some?
    ensures var raw := RawBars(ticks, period);
            raw != [] && raw[|raw|-1].timestamp <= OpenAfter(ticks, period).value.start
  {
    var pre, t := ticks[..|ticks|-1], ticks[|ticks|-1];
    assert ticks == pre + [t];
    LastRawLabel(pre, t, period);
    LiveSnoc(pre, t, period);
    if pre != [] {
      TimelyByStart(pre, t, period);
      FeedStart(OpenAfter(pre, period).value, t, period);
    }
  }

  /** A stale tick adds nothing to the timely bars, and one bar to raw bars that were all timely so far. */
  lemma {:induction false} StaleTickAddsBar(pre: seq<MarketData>, t: MarketData, period: int)
    requires period > 0 && !Timely(pre, t, period)
    ensures var raw, raw' := |RawBars(pre, period)|, |RawBars(pre + [t], period)|;
            && raw <= raw' && TimelyBars(pre + [t], period) == TimelyBars(pre, period)
            && (TimelyTicks(pre, period) == pre ==> raw' == raw + 1)
  {
    BarsSnoc(pre, t, period);
    ExtendedEnd(RawBars(pre, period), TickBar(t), period);
    assert pre != [];
    LastTimelyLabel(pre, period);
    TimelyByStart(pre, t, period);
  }

  /** The live bars match the backtest bars of the same raw stream exactly when no tick goes back in time. */
  lemma {:induction false} BoundariesMatchIffInOrder(ticks: seq<MarketData>, symbol: string, period: int)
    requires period > 0 && OneSymbol(ticks, symbol)
    ensures LiveBriefs(CompletedBy(ticks, period)) == BarBriefs(Finished(RawBars(ticks, period)))
       <==> InOrder(ticks, period)
  {
    LiveRefinesResampler(ticks, symbol, period);
    StaleTickCostsBar(ticks, period);
    if InOrder(ticks, period) {
      InOrderAllTimely(ticks, period);
    } else {
      assert |BarBriefs(Finished(RawBars(ticks, period)))| > |LiveBriefs(CompletedBy(ticks, period))|;
    }
  }

  // ---------------------------------------------------------------- quotes

  /** The bar closes with the price and the quotes of the tick, in the tick's bucket. */
  predicate ClosedBy(m: MarketData, t: MarketData, period: int)
    requires period > 0
  {
    m.timestamp == BucketStart(t.timestamp, period) && m.price == t.price
    && m.bestBid == t.bestBid && m.bestAsk == t.bestAsk && m.spread == t.bestAsk - t.bestBid
  }

  /** Among the timely ticks there is one that closes the bar, and the next one lies in a later bucket. */
  predicate HasLastTick(m: MarketData, tt: seq<MarketData>, period: int)
    requires period > 0
  {
    exists j :: 0 <= j < |tt| - 1 && ClosedBy(m, tt[j], period)
                && m.timestamp < BucketStart(tt[j+1].timestamp, period)
  }

  lemma {:induction false} MoreTicks(m: MarketData, tt: seq<MarketData>, t: MarketData, period: int)
    requires period > 0 && HasLastTick(m, tt, period)
    ensures HasLastTick(m, tt + [t], period)
  {
    var j :| 0 <= j < |tt| - 1 && ClosedBy(m, tt[j], period) && m.timestamp < BucketStart(tt[j+1].timestamp, period);
    assert (tt + [t])[j] == tt[j] && (tt + [t])[j+1] == tt[j+1];
  }

  predicate AllClosed(done: seq<MarketData>, tt: seq<MarketData>, period: int)
    requires period > 0
  {
    forall i :: 0 <= i < |done| ==> HasLastTick(done[i], tt, period)
  }

  /** The open bar carries the bucket, the price and the quotes of the last tick. */
  predicate OpenCarries(bar: Option<OpenBar>, tt: seq<MarketData>, period: int)
    requires period > 0
  {
    if tt == [] then bar.None?
    else
      var t := tt[|tt|-1];
      bar.Some? && bar.value.start == BucketStart(t.timestamp, period)
      && bar.value.close == t.price && bar.value.bestBid == t.bestBid && bar.value.bestAsk == t.bestAsk
  }

  lemma {:induction false} QuotesStep(done: seq<MarketData>, bar: Option<OpenBar>, tt: seq<MarketData>, t: MarketData,
                                      period: int)
    requires period > 0 && AllClosed(done, tt, period) && OpenCarries(bar, tt, period)
    requires bar.Some? ==> bar.value.start <= BucketStart(t.timestamp, period)
    ensures var c := Completes(bar, t, period);
            AllClosed(done + (if c.Some? then [c.value] else []), tt + [t], period)
    ensures OpenCarries(Some(Feed(bar, t, period)), tt + [t], period)
  {
    var c := Completes(bar, t, period);
    var all := done + if c.Some? then [c.value] else [];
    forall i | 0 <= i < |all| ensures HasLastTick(all[i], tt + [t], period) {
      if i < |done| {
        MoreTicks(done[i], tt, t, period);
      } else {
        LastTickCloses(c.value, tt, t, period);
      }
    }
  }

  lemma {:induction false} LastTickCloses(m: MarketData, tt: seq<MarketData>, t: MarketData, period: int)
    requires period > 0 && tt != [] && ClosedBy(m, tt[|tt|-1], period) && m.timestamp < BucketStart(t.timestamp, period)
    ensures HasLastTick(m, tt + [t], period)
  {
    assert (tt + [t])[|tt|-1] == tt[|tt|-1] && (tt + [t])[|tt|] == t;
  }

  /** Over every run of ticks, each completed bar carries the price and the quotes of the last timely tick of its
      bucket, and the open bar those of the last timely tick of all. */
  lemma {:induction false} QuotesOfLastTick(ticks: seq<MarketData>, period: int)
    requires period > 0
    ensures AllClosed(CompletedBy(ticks, period), TimelyTicks(ticks, period), period)
    ensures OpenCarries(OpenAfter(ticks, period), TimelyTicks(ticks, period), period)
    decreases |ticks|
  {
    if ticks == [] {
    } else {
      var pre, t := ticks[..|ticks|-1], ticks[|ticks|-1];
      QuotesOfLastTick(pre, period);
      if pre != [] {
        TimelyByStart(pre, t, period);
      }
      if Timely(pre, t, period) {
        QuotesStep(CompletedBy(pre, period), OpenAfter(pre, period), TimelyTicks(pre, period), t, period);
      } else {
        assert CompletedBy(pre, period) + [] == CompletedBy(pre, period);
        assert TimelyTicks(pre, period) + [] == TimelyTicks(pre, period);
      }
    }
  }
}
