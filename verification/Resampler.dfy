/** The pull-style resampler of the backtest and what draining it yields. */
module Resampler {
  import opened Options
  import opened Buckets

  // ---------------------------------------------------------------- the bars a stream resamples to

  function StartBar(b: Bar, period: int): Bar
    requires period > 0
  {
    b.(timestamp := BucketStart(b.timestamp, period))
  }

  function FoldIn(cur: Bar, b: Bar): Bar {
    cur.(high := if b.high > cur.high then b.high else cur.high,
         low := if b.low < cur.low then b.low else cur.low,
         close := b.close,
         volume := cur.volume + b.volume)
  }

  /** Bars emitted from the open bucket cur and the input still to come. */
  function Collect(cur: Bar, rest: seq<Bar>, period: int): seq<Bar>
    requires period > 0
    decreases rest
  {
    if rest == [] then [cur]
    else if BucketStart(rest[0].timestamp, period) == cur.timestamp then
      Collect(FoldIn(cur, rest[0]), rest[1..], period)
    else [cur] + Collect(StartBar(rest[0], period), rest[1..], period)
  }

  function Resample(bars: seq<Bar>, period: int): seq<Bar>
    requires period > 0
  {
    if bars == [] then [] else Collect(StartBar(bars[0], period), bars[1..], period)
  }

  // ---------------------------------------------------------------- the state machine

  /** One answer of the wrapped source before it is exhausted. */
  datatype Item =
    | BarItem(bar: Bar)
    | Broken

  datatype Pull =
    | Got(bar: Bar)
    | Failed
    | Eof

  function BarsOf(items: seq<Item>): seq<Bar> {
    if items == [] then []
    else if items[0].BarItem? then [items[0].bar] + BarsOf(items[1..])
    else BarsOf(items[1..])
  }

  function Failures(items: seq<Item>): nat {
    if items == [] then 0 else (if items[0].Broken? then 1 else 0) + Failures(items[1..])
  }

  /** A source that may fail now and then and ends with end-of-file for good. */
  class Source {
    var items: seq<Item>
    var closes: nat

    constructor (items: seq<Item>)
      ensures this.items == items && closes == 0
    {
      this.items := items;
      closes := 0;
    }

    /** Releases whatever the source reads from, which may fail. */
    method Close(fails: bool) returns (ok: bool)
      modifies this`closes
      ensures closes == old(closes) + 1 && ok == !fails
    {
      closes := closes + 1;
      ok := !fails;
    }

    method Next() returns (r: Pull)
      modifies this`items
      ensures old(items) == [] ==> r == Eof && items == []
      ensures old(items) != [] ==>
        items == old(items)[1..] && r == if old(items)[0].BarItem? then Got(old(items)[0].bar) else Failed
    {
      if items == [] {
        return Eof;
      }
      r := if items[0].BarItem? then Got(items[0].bar) else Failed;
      items := items[1..];
    }
  }

  class ResamplingDatasource {
    const inner: Source
    const period: int
    var have: bool
    var bucket: int
    var cur: Bar
    var pending: Option<Bar>
    var closed: bool
    var done: bool

    ghost predicate Valid()
      reads this, inner
    {
      && period > 0
      && (have ==> bucket == cur.timestamp)
      && (pending.Some? ==> !have)
      && (done ==> inner.items == [] && pending.None?)
    }

    constructor (inner: Source, period: int)
      requires period > 0
      ensures Valid() && this.inner == inner && this.period == period && !closed
      ensures Outstanding() == Resample(BarsOf(inner.items), period)
    {
      this.inner, this.period := inner, period;
      have, bucket, pending, closed, done := false, 0, None, false, false;
      cur := Bar("", 0, 0.0, 0.0, 0.0, 0.0, 0.0);
    }

    /** Input that no emitted or open bar contains yet. */
    ghost function InputLeft(): seq<Bar>
      reads this, inner
    {
      if pending.Some? then [pending.value] + BarsOf(inner.items) else BarsOf(inner.items)
    }

    /** Every bar this source has still to deliver. */
    ghost function Outstanding(): seq<Bar>
      requires period > 0
      reads this, inner
    {
      if closed then []
      else if have then Collect(cur, InputLeft(), period)
      else Resample(InputLeft(), period)
    }

    /** Every outstanding bar if b is the next bar of the input. */
    ghost function OutstandingFrom(b: Bar): seq<Bar>
      requires period > 0
      reads this, inner
    {
      var rest := [b] + BarsOf(inner.items);
      if have then Collect(cur, rest, period) else Resample(rest, period)
    }

    /** Delivers the next outstanding bar. The context is cancelled once it has been checked budget times.
        A cancelled context or a failing source costs nothing: no bar is lost, and the next call goes on. */
    method Next(budget: nat) returns (r: Pull)
      requires Valid()
      modifies this, inner
      ensures Valid() && closed == old(closed)
      ensures r.Got? ==> old(Outstanding()) == [r.bar] + Outstanding()
      ensures r.Eof? ==> old(Outstanding()) == [] && Outstanding() == [] && (closed || inner.items == [])
      ensures r.Failed? ==> Outstanding() == old(Outstanding())
      ensures r.Failed? && budget > |old(inner.items)| + 1 ==> Failures(inner.items) < Failures(old(inner.items))
      ensures Failures(inner.items) <= Failures(old(inner.items)) && |inner.items| <= |old(inner.items)|
    {
      if closed {
        return Eof;
      }
      var left := budget;
      while true
        invariant Valid() && !closed
        invariant Outstanding() == old(Outstanding())
        invariant |inner.items| + (if pending.Some? then 1 else 0) <= |old(inner.items)|
                  + (if old(pending).Some? then 1 else 0)
        invariant |inner.items| <= |old(inner.items)|
        invariant Failures(inner.items) == Failures(old(inner.items))
        invariant left + |old(inner.items)| + (if old(pending).Some? then 1 else 0)
               >= budget + |inner.items| + (if pending.Some? then 1 else 0)
        decreases |inner.items| + if pending.Some? then 1 else 0
      {
        if left == 0 {
          return Failed;
        }
        left := left - 1;
        var b;
        if pending.Some? {
          b := pending.value;
          pending := None;
        } else if done {
          if have {
            have := false;
            return Got(cur);
          }
          return Eof;
        } else {
          var p := inner.Next();
          if p.Eof? {
            done := true;
            if have {
              have := false;
              return Got(cur);
            }
            return Eof;
          }
          if p.Failed? {
            return Failed;
          }
          b := p.bar;
        }
        var emits := Take(b);
        if emits {
          return Got(cur);
        }
      }
    }

    /** One bar of input: it starts a bucket, folds into the open one, or ends it and is held back. */
    method Take(b: Bar) returns (emits: bool)
      requires Valid() && !closed && !done && pending.None?
      modifies this
      ensures Valid() && !closed && !done
      ensures pending == (if emits then Some(b) else None) && emits == (old(have) && !have)
      ensures old(OutstandingFrom(b)) == (if emits then [cur] else []) + Outstanding()
    {
      ghost var rest := BarsOf(inner.items);
      var start := BucketStart(b.timestamp, period);
      emits := false;
      if !have {
        bucket := start;
        cur := Bar(b.symbol, start, b.open, b.high, b.low, b.close, b.volume);
        have := true;
      } else if start == bucket {
        if b.high > cur.high {
          cur := cur.(high := b.high);
        }
        if b.low < cur.low {
          cur := cur.(low := b.low);
        }
        cur := cur.(close := b.close, volume := cur.volume + b.volume);
      } else {
        have := false;
        pending := Some(b);
        emits := true;
      }
      assert ([b] + rest)[1..] == rest;
    }

    /** Closes the inner source, once; afterwards nothing is delivered. An error of the inner source is passed on. */
    method Close(fails: bool) returns (ok: bool)
      requires Valid()
      modifies this, inner`closes
      ensures Valid() && closed && Outstanding() == []
      ensures inner.closes == old(inner.closes) + if old(closed) then 0 else 1
      ensures ok == (old(closed) || !fails)
    {
      if closed {
        return true;
      }
      closed := true;
      ok := inner.Close(fails);
    }
  }

  /** The pull loop of a consumer: stops at end-of-file or at the first error. Without errors it yields every
      outstanding bar, and end-of-file is final. */
  method Drain(r: ResamplingDatasource, budget: nat) returns (out: seq<Bar>, complete: bool)
    requires r.Valid()
    modifies r, r.inner
    ensures r.Valid()
    ensures old(r.Outstanding()) == out + r.Outstanding()
    ensures complete ==> out == old(r.Outstanding()) && r.Outstanding() == []
    ensures budget > |old(r.inner.items)| + 1 && Failures(old(r.inner.items)) == 0 ==> complete
  {
    out, complete := [], false;
    ghost var total := r.Outstanding();
    while true
      invariant r.Valid() && r.closed == old(r.closed)
      invariant total == out + r.Outstanding()
      invariant |r.inner.items| <= |old(r.inner.items)|
      invariant Failures(r.inner.items) <= Failures(old(r.inner.items))
      decreases |r.Outstanding()|
    {
      var p := r.Next(budget);
      match p
      case Got(b) =>
        Delivers(out, b, r.Outstanding());
        out := out + [b];
      case Failed => return;
      case Eof =>
        complete := true;
        return;
    }
  }

  lemma {:induction false} Delivers(out: seq<Bar>, b: Bar, rest: seq<Bar>)
    ensures out + ([b] + rest) == (out + [b]) + rest && |[b] + rest| > |rest|
  {}

  // ---------------------------------------------------------------- what a grouping is

  /** Nonempty, and all in one bucket. */
  predicate OneBucket(run: seq<Bar>, period: int)
    requires period > 0
  {
    run != [] && forall i :: 0 <= i < |run| ==>
      BucketStart(run[i].timestamp, period) == BucketStart(run[0].timestamp, period)
  }

  function Concat(parts: seq<seq<Bar>>): seq<Bar> {
    if parts == [] then [] else parts[0] + Concat(parts[1..])
  }

  /** parts cuts bars into maximal runs of consecutive bars that share a bucket. */
  predicate IsGrouping(parts: seq<seq<Bar>>, bars: seq<Bar>, period: int)
    requires period > 0
  {
    && Concat(parts) == bars
    && (forall i :: 0 <= i < |parts| ==> OneBucket(parts[i], period))
    && (forall i :: 0 < i < |parts| ==>
          BucketStart(parts[i][0].timestamp, period) != BucketStart(parts[i-1][0].timestamp, period))
  }

  function MaxHigh(run: seq<Bar>): real
    requires run != []
  {
    var n := |run| - 1;
    if n == 0 then run[0].high
    else if run[n].high > MaxHigh(run[..n]) then run[n].high else MaxHigh(run[..n])
  }

  function MinLow(run: seq<Bar>): real
    requires run != []
  {
    var n := |run| - 1;
    if n == 0 then run[0].low
    else if run[n].low < MinLow(run[..n]) then run[n].low else MinLow(run[..n])
  }

  function SumVolume(run: seq<Bar>): real {
    if run == [] then 0.0 else SumVolume(run[..|run|-1]) + run[|run|-1].volume
  }

  /** First open, highest high, lowest low, last close, summed volume, labelled with the bucket start. */
  function Aggregate(run: seq<Bar>, period: int): Bar
    requires period > 0 && run != []
  {
    Bar(run[0].symbol, BucketStart(run[0].timestamp, period), run[0].open, MaxHigh(run), MinLow(run),
        run[|run|-1].close, SumVolume(run))
  }

  lemma {:induction false} ExtremesAttained(run: seq<Bar>)
    requires run != []
    ensures forall i :: 0 <= i < |run| ==> MinLow(run) <= run[i].low && run[i].high <= MaxHigh(run)
    ensures exists i :: 0 <= i < |run| && run[i].high == MaxHigh(run)
    ensures exists i :: 0 <= i < |run| && run[i].low == MinLow(run)
    decreases |run|
  {
    var n := |run| - 1;
    if n == 0 {
      assert run[0].high == MaxHigh(run) && run[0].low == MinLow(run);
    } else {
      ExtremesAttained(run[..n]);
      var i :| 0 <= i < n && run[..n][i].high == MaxHigh(run[..n]);
      var j :| 0 <= j < n && run[..n][j].low == MinLow(run[..n]);
      assert run[i].high == MaxHigh(run) || run[n].high == MaxHigh(run);
      assert run[j].low == MinLow(run) || run[n].low == MinLow(run);
      forall k | 0 <= k < |run| ensures MinLow(run) <= run[k].low && run[k].high <= MaxHigh(run) {
        assert k < n ==> run[..n][k] == run[k];
      }
    }
  }

  lemma {:induction false} AggregateSnoc(run: seq<Bar>, b: Bar, period: int)
    requires period > 0 && run != []
    ensures Aggregate(run + [b], period) == FoldIn(Aggregate(run, period), b)
  {
    assert (run + [b])[..|run|] == run;
  }

  /** The open bucket swallows exactly the bars that share its start. */
  lemma {:induction false} CollectRun(run: seq<Bar>, more: seq<Bar>, rest: seq<Bar>, period: int)
    requires period > 0 && OneBucket(run + more, period) && run != []
    requires rest != [] ==> BucketStart(rest[0].timestamp, period) != BucketStart(run[0].timestamp, period)
    ensures Collect(Aggregate(run, period), more + rest, period)
         == [Aggregate(run + more, period)] + Resample(rest, period)
    decreases more
  {
    if more == [] {
      assert run + more == run && more + rest == rest;
    } else {
      assert (run + more)[|run|] == more[0] && (run + more)[0] == run[0];
      assert (more + rest)[1..] == more[1..] + rest;
      assert run + more == (run + [more[0]]) + more[1..];
      AggregateSnoc(run, more[0], period);
      CollectRun(run + [more[0]], more[1..], rest, period);
    }
  }

  /** Resampling aggregates the maximal runs one by one: for any grouping of the input, bar i is run i. */
  lemma {:induction false} ResampleAggregatesGroups(parts: seq<seq<Bar>>, bars: seq<Bar>, period: int)
    requires period > 0 && IsGrouping(parts, bars, period)
    ensures |Resample(bars, period)| == |parts|
    ensures forall i :: 0 <= i < |parts| ==> Resample(bars, period)[i] == Aggregate(parts[i], period)
    decreases parts
  {
    if parts == [] {
    } else {
      var run, rest := parts[0], Concat(parts[1..]);
      FirstGroup(parts, bars, period);
      ResampleAggregatesGroups(parts[1..], rest, period);
    }
  }

  lemma {:induction false} FirstGroup(parts: seq<seq<Bar>>, bars: seq<Bar>, period: int)
    requires period > 0 && IsGrouping(parts, bars, period) && parts != []
    ensures IsGrouping(parts[1..], Concat(parts[1..]), period)
    ensures Resample(bars, period) == [Aggregate(parts[0], period)] + Resample(Concat(parts[1..]), period)
  {
    var run, rest := parts[0], Concat(parts[1..]);
    assert OneBucket(run, period);
    if parts[1..] != [] {
      assert OneBucket(parts[1], period);
      assert rest[0] == parts[1][0];
    }
    assert [run[0]] + run[1..] == run && bars[1..] == run[1..] + rest;
    assert [run[0]][..0] == [] && SumVolume([run[0]]) == run[0].volume;
    assert Aggregate([run[0]], period) == StartBar(run[0], period);
    CollectRun([run[0]], run[1..], rest, period);
  }

  lemma {:induction false} GroupingExists(bars: seq<Bar>, period: int) returns (parts: seq<seq<Bar>>)
    requires period > 0
    ensures IsGrouping(parts, bars, period)
    decreases bars
  {
    if bars == [] {
      parts := [];
    } else {
      var rest: seq<seq<Bar>> := GroupingExists(bars[1..], period);
      var b := bars[0];
      if rest != [] && BucketStart(rest[0][0].timestamp, period) == BucketStart(b.timestamp, period) {
        parts := [[b] + rest[0]] + rest[1..];
        assert Concat(parts) == [b] + (rest[0] + Concat(rest[1..]));
      } else {
        parts := [[b]] + rest;
      }
    }
  }

  // ---------------------------------------------------------------- volume, boundaries, order

  lemma {:induction false} SumVolumeCons(b: Bar, bars: seq<Bar>)
    ensures SumVolume([b] + bars) == b.volume + SumVolume(bars)
    decreases |bars|
  {
    if bars == [] {
      assert [b] + bars == [b] && [b][..0] == [];
    } else {
      var n := |bars| - 1;
      assert ([b] + bars)[..|bars|] == [b] + bars[..n];
      SumVolumeCons(b, bars[..n]);
    }
  }

  lemma {:induction false} CollectVolume(cur: Bar, rest: seq<Bar>, period: int)
    requires period > 0
    ensures SumVolume(Collect(cur, rest, period)) == cur.volume + SumVolume(rest)
    decreases rest
  {
    if rest == [] {
      assert [cur][..0] == [];
    } else {
      assert [rest[0]] + rest[1..] == rest;
      SumVolumeCons(rest[0], rest[1..]);
      if BucketStart(rest[0].timestamp, period) == cur.timestamp {
        CollectVolume(FoldIn(cur, rest[0]), rest[1..], period);
      } else {
        CollectVolume(StartBar(rest[0], period), rest[1..], period);
        SumVolumeCons(cur, Collect(StartBar(rest[0], period), rest[1..], period));
      }
    }
  }

  /** No volume is lost or invented. */
  lemma {:induction false} VolumeConserved(bars: seq<Bar>, period: int)
    requires period > 0
    ensures SumVolume(Resample(bars, period)) == SumVolume(bars)
  {
    if bars != [] {
      CollectVolume(StartBar(bars[0], period), bars[1..], period);
      assert [bars[0]] + bars[1..] == bars;
      SumVolumeCons(bars[0], bars[1..]);
    }
  }

  predicate Sorted(bars: seq<Bar>) {
    forall i, j :: 0 <= i < j < |bars| ==> bars[i].timestamp <= bars[j].timestamp
  }

  predicate StrictlySorted(bars: seq<Bar>) {
    forall i, j :: 0 <= i < j < |bars| ==> bars[i].timestamp < bars[j].timestamp
  }

  lemma {:induction false} CollectOrder(cur: Bar, rest: seq<Bar>, period: int)
    requires period > 0 && cur.timestamp % period == 0 && Sorted(rest)
    requires rest != [] ==> cur.timestamp <= BucketStart(rest[0].timestamp, period)
    ensures var out := Collect(cur, rest, period);
            && out != [] && out[0].timestamp == cur.timestamp && StrictlySorted(out)
            && forall i :: 0 <= i < |out| ==> out[i].timestamp % period == 0
    decreases rest
  {
    if rest == [] {
    } else {
      BucketBounds(rest[0].timestamp, period);
      if |rest| > 1 {
        BucketMonotone(rest[0].timestamp, rest[1].timestamp, period);
      }
      if BucketStart(rest[0].timestamp, period) == cur.timestamp {
        CollectOrder(FoldIn(cur, rest[0]), rest[1..], period);
      } else {
        CollectOrder(StartBar(rest[0], period), rest[1..], period);
      }
    }
  }

  /** A stream in time order resamples to strictly increasing multiples of the period. */
  lemma {:induction false} ResampledInOrder(bars: seq<Bar>, period: int)
    requires period > 0 && Sorted(bars)
    ensures StrictlySorted(Resample(bars, period))
    ensures forall i :: 0 <= i < |Resample(bars, period)| ==> Resample(bars, period)[i].timestamp % period == 0
  {
    if bars != [] {
      BucketBounds(bars[0].timestamp, period);
      if |bars| > 1 {
        BucketMonotone(bars[0].timestamp, bars[1].timestamp, period);
      }
      CollectOrder(StartBar(bars[0], period), bars[1..], period);
    }
  }

  // ---------------------------------------------------------------- resampling in two stages

  lemma {:induction false} FoldAssociates(x: Bar, y: Bar, z: Bar)
    ensures FoldIn(FoldIn(x, y), z) == FoldIn(x, FoldIn(y, z))
  {}

  /** An open coarse bucket swallows a fine bucket and then its successors as if it had seen the raw bars. */
  lemma {:induction false} CoarseAbsorbs(open: Bar, cur: Bar, rest: seq<Bar>, fine: int, coarse: int)
    requires fine > 0 && coarse > 0 && coarse % fine == 0
    requires BucketStart(cur.timestamp, coarse) == open.timestamp && BucketStart(cur.timestamp, fine) == cur.timestamp
    ensures Collect(open, Collect(cur, rest, fine), coarse) == Collect(FoldIn(open, cur), rest, coarse)
    decreases rest, 0
  {
    if rest == [] {
      assert [cur][1..] == [];
    } else {
      var h, more := rest[0], rest[1..];
      BucketOfBucket(h.timestamp, fine, coarse);
      if BucketStart(h.timestamp, fine) == cur.timestamp {
        CoarseAbsorbs(open, FoldIn(cur, h), more, fine, coarse);
        FoldAssociates(open, cur, h);
      } else {
        BucketOfBucket(h.timestamp, fine, fine);
        var next := Collect(StartBar(h, fine), more, fine);
        assert ([cur] + next)[1..] == next;
        if BucketStart(h.timestamp, coarse) == open.timestamp {
          CoarseAbsorbs(FoldIn(open, cur), StartBar(h, fine), more, fine, coarse);
        } else {
          CollectHead(StartBar(h, fine), more, fine);
          CoarseOfFine(StartBar(h, fine), more, fine, coarse);
        }
      }
    }
  }

  lemma {:induction false} CollectHead(cur: Bar, rest: seq<Bar>, period: int)
    requires period > 0
    ensures Collect(cur, rest, period) != [] && Collect(cur, rest, period)[0].timestamp == cur.timestamp
    decreases rest
  {
    if rest == [] || BucketStart(rest[0].timestamp, period) != cur.timestamp {
    } else {
      CollectHead(FoldIn(cur, rest[0]), rest[1..], period);
    }
  }

  lemma {:induction false} CoarseOfFine(cur: Bar, rest: seq<Bar>, fine: int, coarse: int)
    requires fine > 0 && coarse > 0 && coarse % fine == 0
    requires BucketStart(cur.timestamp, fine) == cur.timestamp
    ensures Resample(Collect(cur, rest, fine), coarse) == Collect(StartBar(cur, coarse), rest, coarse)
    decreases rest, 1
  {
    if rest == [] {
      assert [cur][1..] == [];
    } else {
      var h, more := rest[0], rest[1..];
      BucketOfBucket(h.timestamp, fine, coarse);
      if BucketStart(h.timestamp, fine) == cur.timestamp {
        CoarseOfFine(FoldIn(cur, h), more, fine, coarse);
      } else {
        BucketOfBucket(h.timestamp, fine, fine);
        var next := Collect(StartBar(h, fine), more, fine);
        assert ([cur] + next)[1..] == next;
        if BucketStart(h.timestamp, coarse) == BucketStart(cur.timestamp, coarse) {
          CoarseAbsorbs(StartBar(cur, coarse), StartBar(h, fine), more, fine, coarse);
        } else {
          CollectHead(StartBar(h, fine), more, fine);
          CoarseOfFine(StartBar(h, fine), more, fine, coarse);
        }
      }
    }
  }

  /** Resampling to a fine period and then to a multiple of it equals resampling to the multiple at once, for any
      stream of bars in any order. */
  lemma {:induction false} ResampleInTwoStages(bars: seq<Bar>, fine: int, coarse: int)
    requires fine > 0 && coarse > 0 && coarse % fine == 0
    ensures Resample(Resample(bars, fine), coarse) == Resample(bars, coarse)
  {
    if bars != [] {
      BucketOfBucket(bars[0].timestamp, fine, fine);
      BucketOfBucket(bars[0].timestamp, fine, coarse);
      CoarseOfFine(StartBar(bars[0], fine), bars[1..], fine, coarse);
    }
  }
}
