/** With shared channels the send cache loses what it holds: every record names a channel, and
    the flush goes to the talk's exchange, on which no process listens. */
module CacheLoss {
  import opened Defs
  import opened Mq
  import opened SendCache
  import opened SendCacheFacts
  import opened SendCourses
  import SB = SharedBus

  /** The record of a call about a real talk, with shared channels. */
  predicate SentShared(d: MqData) {
    WellFormedId(d.talkId) && SB.Decode(d).Some? && d == SB.Encode(SB.Decode(d).value, true)
  }

  predicate Listened(exchange: string) {
    SB.ListensTo(UserModeCustomer, exchange) || SB.ListensTo(UserModeServicer, exchange)
  }

  /** A direct send is listened to, a flushed one is not. */
  lemma OnlyDirectIsListened(d: MqData)
    requires SentShared(d)
    ensures Listened(Direct(d).exchange) && !Listened(Flushed(d).exchange)
  {
    ExchangeNamesDiffer(d.talkId, SPECIAL_ALL);
    ExchangeNamesDiffer(d.talkId, SPECIAL_CUSTOMER);
    ExchangeNamesDiffer(d.talkId, SPECIAL_SERVICER);
    assert |SPECIAL_ALL| == 1 && |SPECIAL_CUSTOMER| == 9 && |SPECIAL_SERVICER| == 9;
  }

  /** So a flushed record leaves every process as it was. */
  lemma FlushedReachesNobody(p: SB.Process, mode: UserMode, d: MqData)
    requires SentShared(d)
    ensures SB.ReceiveOn(p, mode, Flushed(d).exchange, d) == p
  {
    OnlyDirectIsListened(d);
  }

  /** Whether channels are shared or not: a call about a real talk that was cached is published
      where it would have gone directly exactly if it is a message on its talk's own channel. */
  lemma CachedCallGoesAstrayIff(call: BusCall, shared: bool)
    requires WellFormedId(call.talkId)
    ensures Flushed(SB.Encode(call, shared)) == Direct(SB.Encode(call, shared)) <==> call.SendMessage? && !shared
  {
    FlushGoesElsewhereIff(SB.Encode(call, shared));
    assert |SPECIAL_ALL| == 1 && |SPECIAL_SERVICER| == 9;
  }

  lemma {:induction false} FlushHolds(cache: seq<MqData>, p: Publication)
    requires p in Flush(cache, {})
    ensures p.data in cache && p == Flushed(p.data)
  {
    var last := |cache| - 1;
    if p in Flush(cache[..last], {}) {
      FlushHolds(cache[..last], p);
    }
  }

  /** Cached data are published by flushes only, all others directly and at least once. */
  ghost predicate Apart(s: Sending) {
    && (forall p | p in s.log ::
          p.data in s.dequeued && p == if p.data in s.cache then Flushed(p.data) else Direct(p.data))
    && (forall d | d in s.dequeued && d !in s.cache :: Direct(d) in s.log)
    && (forall d | d in s.cache :: d in s.dequeued)
  }

  lemma TakeApart(s: Sending, d: MqData)
    requires Apart(s) && d !in s.dequeued
    ensures Apart(Take(s, d, false))
  {
  }

  lemma OpenApart(s: Sending)
    requires Apart(s)
    ensures Apart(OpenChannel(s, {}))
  {
    forall p | p in Flush(s.cache, {})
      ensures p.data in s.cache && p == Flushed(p.data)
    {
      FlushHolds(s.cache, p);
    }
  }

  lemma {:induction false} StaysApart(steps: seq<SendStep>)
    requires forall a | a in steps :: Succeeds(a)
    requires Distinct(Progress(IDLE, steps).dequeued)
    ensures Apart(Progress(IDLE, steps))
  {
    if steps != [] {
      var before, a := steps[..|steps| - 1], steps[|steps| - 1];
      var s := Progress(IDLE, before);
      TakenGrows(s, a);
      StaysApart(before);
      assert a in steps;
      match a
      case TakesData(d, fails) =>
        assert Proceed(s, a).dequeued[|s.dequeued|] == d;
        TakeApart(s, d);
      case Opens(failing) => OpenApart(s);
      case Breaks =>
    }
  }

  /** What was taken before stays cached or uncached as it was. */
  lemma {:induction false} CachedForGood(before: seq<SendStep>, after: seq<SendStep>, d: MqData)
    requires d in Progress(IDLE, before).dequeued && Distinct(Progress(IDLE, before + after).dequeued)
    ensures d in Progress(IDLE, before + after).dequeued
    ensures d in Progress(IDLE, before + after).cache <==> d in Progress(IDLE, before).cache
  {
    if after == [] {
      assert before + after == before;
    } else {
      var front, a := after[..|after| - 1], after[|after| - 1];
      assert before + after == (before + front) + [a];
      assert (before + after)[..|before + front|] == before + front;
      TakenGrows(Progress(IDLE, before + front), a);
      CachedForGood(before, front, d);
      var s := Progress(IDLE, before + front);
      if a.TakesData? {
        assert Proceed(s, a).dequeued[|s.dequeued|] == a.d;
      }
    }
  }

  /** Some publication of the datum was listened to. */
  ghost predicate GotThrough(s: Sending, d: MqData) {
    exists p :: p in s.log && p.data == d && Listened(p.exchange)
  }

  lemma NotCachedBefore(before: seq<SendStep>, d: MqData)
    requires forall a | a in before + [TakesData(d, false)] :: Succeeds(a)
    requires Distinct(Progress(IDLE, before + [TakesData(d, false)]).dequeued)
    ensures d !in Progress(IDLE, before).cache
  {
    var taking := before + [TakesData(d, false)];
    assert taking[..|before|] == before;
    var s := Progress(IDLE, before);
    assert Progress(IDLE, taking) == Take(s, d, false);
    forall a | a in before
      ensures Succeeds(a)
    {
      assert a in taking;
    }
    assert Take(s, d, false).dequeued[..|s.dequeued|] == s.dequeued;
    StaysApart(before);
    assert Take(s, d, false).dequeued[|s.dequeued|] == d;
  }

  lemma {:induction false} DistinctBefore(before: seq<SendStep>, after: seq<SendStep>)
    requires Distinct(Progress(IDLE, before + after).dequeued)
    ensures Progress(IDLE, before).dequeued <= Progress(IDLE, before + after).dequeued
    ensures Distinct(Progress(IDLE, before).dequeued)
  {
    if after == [] {
      assert before + after == before;
    } else {
      var front, a := after[..|after| - 1], after[|after| - 1];
      assert (before + after)[..|before + front|] == before + front;
      TakenGrows(Progress(IDLE, before + front), a);
      DistinctBefore(before, front);
    }
  }

  /** With shared channels and successful publications a record gets through to a process
      exactly when, of the steps before it was taken from the send queue, the last one that
      opened or broke the channel opened it; what was cached is published again and again
      and heard by nobody. */
  lemma {:induction false} HeardIffTakenWhileOpen(before: seq<SendStep>, d: MqData, after: seq<SendStep>)
    requires forall a | a in before + [TakesData(d, false)] + after :: Succeeds(a)
    requires Distinct(Progress(IDLE, before + [TakesData(d, false)] + after).dequeued)
    requires SentShared(d)
    ensures GotThrough(Progress(IDLE, before + [TakesData(d, false)] + after), d) <==> LeftOpen(before)
  {
    StepsTellAll(before);
    var taking := before + [TakesData(d, false)];
    var s, s' := Progress(IDLE, before), Progress(IDLE, taking);
    assert taking[..|before|] == before && s' == Take(s, d, false);
    DistinctBefore(taking, after);
    assert s'.dequeued[|s.dequeued|] == d;
    CachedForGood(taking, after, d);
    StaysApart(taking + after);
    StaysApart(taking);
    NotCachedBefore(before, d);
    OnlyDirectIsListened(d);
    var x := Progress(IDLE, taking + after);
    if s.open {
      assert Direct(d) in x.log;
    }
  }
}
