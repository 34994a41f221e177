/** What a watch of an order learns from the exchange and what it records. */
module WatchLaws {
  import opened Options
  import opened Ledger
  import opened OrderMonitors

  predicate SameAmounts(a: OrderResult, b: OrderResult) {
    a.filledSize == b.filledSize && a.remainingSize == b.remainingSize && a.averagePrice == b.averagePrice
    && a.totalCommission == b.totalCommission && a.fee == b.fee
  }

  /** Everything that a listed entry tells about the order, as of now. */
  predicate Carries(a: OrderResult, o: OrderResult, now: int) {
    SameAmounts(a, o) && a.status == o.status && a.updatedAt == now
  }

  /** The entries of an order in an answer, up to the first that ends its watch. */
  function Looked(list: seq<OrderResult>, id: string): seq<OrderResult> {
    if list == [] then []
    else if list[0].orderId != id then Looked(list[1..], id)
    else if list[0].status in {"COMPLETED", "CANCELED", "EXPIRED", "REJECTED"} then [list[0]]
    else [list[0]] + Looked(list[1..], id)
  }

  function News(t: Tick, id: string): seq<OrderResult> {
    if t.poll.Orders? then Looked(t.poll.list, id) else []
  }

  /** The latest entry of an order among the answers to ticks. */
  function LatestNews(ticks: seq<Tick>, id: string): Option<OrderResult> {
    if ticks == [] then None
    else
      var news := News(ticks[|ticks|-1], id);
      if news != [] then Some(news[|news|-1]) else LatestNews(ticks[..|ticks|-1], id)
  }

  // ---------------------------------------------------------------- when a watch ends

  /** The answer ends the watch: authentication failed, or the order is listed in one of its four final states. */
  predicate Ends(t: Tick, id: string) {
    match t.poll
    case AuthFailure => true
    case OtherFailure => false
    case Orders(list) =>
      exists i :: 0 <= i < |list| && list[i].orderId == id
                  && list[i].status in {"COMPLETED", "CANCELED", "EXPIRED", "REJECTED"}
  }

  lemma {:induction false} EndsIffDecides(t: Tick, id: string)
    ensures Ends(t, id) <==> Decides(t, id)
  {}

  /** The watch is decided by the first answer that ends it, and by no other. */
  lemma {:induction false} DecidedByFirstEnd(ticks: seq<Tick>, id: string, k: nat)
    requires k <= |ticks|
    ensures FirstDecision(ticks, id) == k
       <==> (k < |ticks| ==> Ends(ticks[k], id)) && forall j :: 0 <= j < k ==> !Ends(ticks[j], id)
  {
    forall j | 0 <= j < |ticks| ensures Ends(ticks[j], id) <==> Decides(ticks[j], id) {
      EndsIffDecides(ticks[j], id);
    }
  }

  /** An order goes unrecorded exactly when no answer ends its watch and the last look succeeds without listing it. */
  lemma {:induction false} UnrecordedIffMissing(r: OrderResult, ticks: seq<Tick>, last: Tick)
    ensures !Records(r, ticks, last)
       <==> && (forall j :: 0 <= j < |ticks| ==> !Ends(ticks[j], r.orderId))
            && last.poll.Orders?
            && forall i :: 0 <= i < |last.poll.list| ==> last.poll.list[i].orderId != r.orderId
  {
    DecidedByFirstEnd(ticks, r.orderId, FirstDecision(ticks, r.orderId));
    if last.poll.Orders? {
      ListedMeaning(last.poll.list, r.orderId);
    }
  }

  lemma {:induction false} ListedMeaning(list: seq<OrderResult>, id: string)
    ensures Listed(list, id).None? <==> forall i :: 0 <= i < |list| ==> list[i].orderId != id
    ensures Listed(list, id).Some? ==>
      exists i :: 0 <= i < |list| && list[i] == Listed(list, id).value && list[i].orderId == id
                  && forall j :: 0 <= j < i ==> list[j].orderId != id
  {
    if list == [] {
    } else if list[0].orderId != id {
      ListedMeaning(list[1..], id);
      if Listed(list[1..], id).Some? {
        var i :| 0 <= i < |list[1..]| && list[1..][i] == Listed(list, id).value && list[1..][i].orderId == id
                 && forall j :: 0 <= j < i ==> list[1..][j].orderId != id;
        assert list[i+1] == Listed(list, id).value;
        forall j | 0 <= j < i + 1 ensures list[j].orderId != id {
          assert j > 0 ==> list[j] == list[1..][j-1];
        }
      }
    }
  }

  // ---------------------------------------------------------------- what it learns

  /** Entries applied in turn leave the last one behind. */
  lemma {:induction false} LastEntryStays(r: OrderResult, list: seq<OrderResult>, now: int)
    ensures var k := Deciding(list, r.orderId);
            var a := Applied(r, if k < |list| then list[..k+1] else list, now);
            var news := Looked(list, r.orderId);
            if news == [] then a == r else Carries(a, news[|news|-1], now)
    decreases list
  {
    if list == [] {
    } else {
      var k := Deciding(list, r.orderId);
      var h := if list[0].orderId == r.orderId then Refresh(r, list[0], now) else r;
      if k == 0 {
        assert list[..1] == [list[0]] && [list[0]][1..] == [];
        assert Applied(r, [list[0]], now) == Refresh(r, list[0], now);
      } else {
        LastEntryStays(h, list[1..], now);
        if k < |list| {
          assert list[..k+1][1..] == list[1..][..k];
        }
      }
    }
  }

  /** One poll: the order carries the latest entry looked at, or is as it was. */
  lemma {:induction false} PollTells(r: OrderResult, t: Tick)
    requires t.poll.Orders?
    ensures var news := News(t, r.orderId);
            if news == [] then AfterTick(r, t) == r else Carries(AfterTick(r, t), news[|news|-1], t.now)
  {
    LastEntryStays(r, t.poll.list, t.now);
  }

  /** The amounts of the order after any polls are those of the latest entry, or those it started with. */
  lemma {:induction false} PollsTell(r: OrderResult, ticks: seq<Tick>)
    ensures var known := LatestNews(ticks, r.orderId);
            SameAmounts(AfterTicks(r, ticks), if known.Some? then known.value else r)
    decreases |ticks|
  {
    if ticks == [] {
    } else {
      var n := |ticks| - 1;
      PollsTell(r, ticks[..n]);
      assert ticks == ticks[..n] + [ticks[n]];
      AfterTicksSnoc(r, ticks[..n], ticks[n]);
      AfterTicksSame(r, ticks[..n]);
      if ticks[n].poll.Orders? {
        PollTells(AfterTicks(r, ticks[..n]), ticks[n]);
      }
    }
  }

  /** A watch that a listed final state decides ends with everything that this entry tells. */
  lemma {:induction false} DecidedCarriesEntry(r: OrderResult, ticks: seq<Tick>, last: Tick)
    requires FirstDecision(ticks, r.orderId) < |ticks| && ticks[FirstDecision(ticks, r.orderId)].poll.Orders?
    ensures var t := ticks[FirstDecision(ticks, r.orderId)];
            Carries(FinalOrder(r, ticks, last), t.poll.list[Deciding(t.poll.list, r.orderId)], t.now)
  {
    var k := FirstDecision(ticks, r.orderId);
    var before, t := AfterTicks(r, ticks[..k]), ticks[k];
    assert ticks[..k+1] == ticks[..k] + [t];
    AfterTicksSnoc(r, ticks[..k], t);
    AfterTicksSame(r, ticks[..k]);
    var list, d := t.poll.list, Deciding(t.poll.list, r.orderId);
    assert list[..d+1] == list[..d] + [list[d]];
    AppliedSnoc(before, list[..d], list[d], t.now);
  }

  /** A watch that an authentication failure decides ends marked as such, with the amounts that were known. */
  lemma {:induction false} AuthFailureKeepsKnown(r: OrderResult, ticks: seq<Tick>, last: Tick)
    requires FirstDecision(ticks, r.orderId) < |ticks| && ticks[FirstDecision(ticks, r.orderId)].poll.AuthFailure?
    ensures var k, final := FirstDecision(ticks, r.orderId), FinalOrder(r, ticks, last);
            var known := LatestNews(ticks[..k], r.orderId);
            && final.status == "UNKNOWN_AUTH_ERROR" && final.updatedAt == ticks[k].now
            && SameAmounts(final, if known.Some? then known.value else r)
  {
    var k := FirstDecision(ticks, r.orderId);
    assert ticks[..k+1] == ticks[..k] + [ticks[k]];
    AfterTicksSnoc(r, ticks[..k], ticks[k]);
    PollsTell(r, ticks[..k]);
  }

  /** A watch that no poll decides ends with everything that the last look lists, or else with what was known. */
  lemma {:induction false} LastLookCarriesEntry(r: OrderResult, ticks: seq<Tick>, last: Tick)
    requires FirstDecision(ticks, r.orderId) == |ticks|
    ensures var listed := if last.poll.Orders? then Listed(last.poll.list, r.orderId) else None;
            var final, known := FinalOrder(r, ticks, last), LatestNews(ticks, r.orderId);
            if listed.Some? then Carries(final, listed.value, last.now)
            else SameAmounts(final, if known.Some? then known.value else r) && final == AfterTicks(r, ticks)
  {
    PollsTell(r, ticks);
    AfterTicksSame(r, ticks);
  }

  // ---------------------------------------------------------------- what it does not depend on

  /** Some answer that the watch looks at lists the order. */
  predicate EverListed(ticks: seq<Tick>, last: Tick, id: string) {
    var k := FirstDecision(ticks, id);
    || LatestNews(if k < |ticks| then ticks[..k+1] else ticks, id).Some?
    || (k == |ticks| && last.poll.Orders? && Listed(last.poll.list, id).Some?)
  }

  /** As soon as some answer lists the order, the recorded amounts do not depend on those the watch started with. */
  lemma {:induction false} StartForgotten(r: OrderResult, q: OrderResult, ticks: seq<Tick>, last: Tick)
    requires r.orderId == q.orderId && EverListed(ticks, last, r.orderId)
    ensures SameAmounts(FinalOrder(r, ticks, last), FinalOrder(q, ticks, last))
  {
    var k := FirstDecision(ticks, r.orderId);
    if k < |ticks| {
      PollsTell(r, ticks[..k+1]);
      PollsTell(q, ticks[..k+1]);
    } else {
      LastLookCarriesEntry(r, ticks, last);
      LastLookCarriesEntry(q, ticks, last);
    }
  }
}
