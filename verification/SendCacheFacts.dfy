/** Over every sequence of connects, breaks and sends, nothing is lost and the order is kept;
    a datum sent directly is published once, a cached one once at every later opening. */
module SendCacheFacts {
  import opened Defs
  import opened Mq
  import opened SendCache

  lemma {:induction false} FirstMembers(s: seq<MqData>, d: MqData)
    ensures d in FirstOccurrences(s) <==> d in s
  {
    if s != [] {
      FirstMembers(s[..|s| - 1], d);
      assert s == s[..|s| - 1] + [s[|s| - 1]];
    }
  }

  lemma FirstOneMore(s: seq<MqData>, d: MqData)
    ensures FirstOccurrences(s + [d]) == FirstOccurrences(s) + (if d in s then [] else [d])
  {
    assert (s + [d])[..|s|] == s;
  }

  /** Items not seen before are added; items seen before are not. */
  lemma {:induction false} FirstOfMore(s: seq<MqData>, more: seq<MqData>, seen: nat)
    requires seen <= |more| && Distinct(more)
    requires forall i | 0 <= i < seen :: more[i] in s
    requires forall i | seen <= i < |more| :: more[i] !in s
    ensures FirstOccurrences(s + more) == FirstOccurrences(s) + more[seen..]
  {
    if more == [] {
      assert s + more == s;
    } else {
      var front, d := more[..|more| - 1], more[|more| - 1];
      assert s + more == (s + front) + [d];
      FirstOneMore(s + front, d);
      if seen == |more| {
        FirstOfMore(s, front, seen - 1);
        assert d in s + front;
        assert front[seen - 1..] == more[seen..] == [];
      } else {
        FirstOfMore(s, front, seen);
        assert d !in s + front;
        assert more[seen..] == front[seen..] + [d];
      }
    }
  }

  lemma {:induction false} FlushPublishes(cache: seq<MqData>)
    ensures Published(Flush(cache, {})) == cache
  {
    if cache != [] {
      FlushPublishes(cache[..|cache| - 1]);
      assert cache == cache[..|cache| - 1] + [cache[|cache| - 1]];
    }
  }

  lemma PublishedConcat(a: seq<Publication>, b: seq<Publication>)
    ensures Published(a + b) == Published(a) + Published(b)
  {
  }

  /** What is kept: the published items and the part of the cache still to be published give
      the items taken, in order; the cache up to the last opening has been published. */
  ghost predicate NothingLost(s: Sending) {
    && s.flushed <= |s.cache| && (s.open ==> s.flushed == |s.cache|)
    && FirstOccurrences(Published(s.log)) + s.cache[s.flushed..] == s.dequeued
    && (forall i | 0 <= i < s.flushed :: s.cache[i] in Published(s.log))
    && (forall d | d in s.cache :: d in s.dequeued)
    && Distinct(s.cache) && Distinct(s.dequeued)
  }

  /** Published and unpublished items are apart, as no item was taken twice. */
  lemma UnpublishedAreNew(s: Sending)
    requires NothingLost(s)
    ensures forall i | s.flushed <= i < |s.cache| :: s.cache[i] !in Published(s.log)
  {
    var first := FirstOccurrences(Published(s.log));
    forall i | s.flushed <= i < |s.cache|
      ensures s.cache[i] !in Published(s.log)
    {
      FirstMembers(Published(s.log), s.cache[i]);
      assert s.dequeued[|first| + i - s.flushed] == s.cache[i];
      forall k | 0 <= k < |first|
        ensures first[k] != s.cache[i]
      {
        assert s.dequeued[k] == first[k];
      }
    }
  }

  lemma TakeKeeps(s: Sending, d: MqData)
    requires NothingLost(s) && d !in s.dequeued
    ensures NothingLost(Take(s, d, false))
  {
    var s' := Take(s, d, false);
    if s.open {
      PublishedConcat(s.log, [Direct(d)]);
      assert Published([Direct(d)]) == [d];
      FirstMembers(Published(s.log), d);
      assert forall x | x in FirstOccurrences(Published(s.log)) :: x in s.dequeued;
      FirstOfMore(Published(s.log), [d], 0);
      assert s'.cache[s'.flushed..] == [];
    } else {
      assert s'.cache[s'.flushed..] == s.cache[s.flushed..] + [d];
    }
  }

  lemma OpenKeeps(s: Sending)
    requires NothingLost(s)
    ensures NothingLost(OpenChannel(s, {}))
  {
    if !s.open {
      var s' := OpenChannel(s, {});
      PublishedConcat(s.log, Flush(s.cache, {}));
      FlushPublishes(s.cache);
      UnpublishedAreNew(s);
      FirstOfMore(Published(s.log), s.cache, s.flushed);
      assert s'.cache[s'.flushed..] == [];
    }
  }

  lemma TakenGrows(s: Sending, a: SendStep)
    ensures s.dequeued <= Proceed(s, a).dequeued
  {
  }

  /** The send cache loses nothing and keeps the order: the first occurrences in the publish
      log, followed by the part of the cache not published yet, are what was taken. */
  lemma {:induction false} NothingIsLost(steps: seq<SendStep>)
    requires forall a | a in steps :: Succeeds(a)
    requires Distinct(Progress(IDLE, steps).dequeued)
    ensures var s := Progress(IDLE, steps);
            s.flushed <= |s.cache|
            && FirstOccurrences(Published(s.log)) + s.cache[s.flushed..] == s.dequeued
    ensures NothingLost(Progress(IDLE, steps))
  {
    if steps != [] {
      var before, a := steps[..|steps| - 1], steps[|steps| - 1];
      var s := Progress(IDLE, before);
      TakenGrows(s, a);
      NothingIsLost(before);
      assert a in steps;
      match a
      case TakesData(d, fails) =>
        assert Proceed(s, a).dequeued[|s.dequeued|] == d;
        TakeKeeps(s, d);
      case Opens(failing) => OpenKeeps(s);
      case Breaks =>
    }
  }

  // ---- how often ----

  lemma CountConcat(a: seq<MqData>, b: seq<MqData>, d: MqData)
    ensures CountOf(a + b, d) == CountOf(a, d) + CountOf(b, d)
  {
    assert multiset(a + b) == multiset(a) + multiset(b);
  }

  lemma {:induction false} CountDistinct(s: seq<MqData>, d: MqData)
    requires Distinct(s)
    ensures CountOf(s, d) == if d in s then 1 else 0
  {
    if s != [] {
      var front := s[..|s| - 1];
      CountDistinct(front, d);
      assert s == front + [s[|s| - 1]];
      CountConcat(front, [s[|s| - 1]], d);
    }
  }

  /** Every cached item was published at each opening since, every other one once. */
  ghost predicate Counted(s: Sending) {
    && |s.cachedAt| == |s.cache|
    && (forall i | 0 <= i < |s.cache| ::
          s.cachedAt[i] <= s.openings && CountOf(Published(s.log), s.cache[i]) == s.openings - s.cachedAt[i])
    && (forall d | d in s.dequeued && d !in s.cache :: CountOf(Published(s.log), d) == 1)
    && (forall d | d in Published(s.log) :: d in s.dequeued)
    && (forall d | d in s.cache :: d in s.dequeued) && Distinct(s.cache)
  }

  lemma TakeCounts(s: Sending, d: MqData)
    requires Counted(s) && d !in s.dequeued
    ensures Counted(Take(s, d, false))
  {
    assert CountOf(Published(s.log), d) == 0;
    if s.open {
      PublishedConcat(s.log, [Direct(d)]);
      assert Published([Direct(d)]) == [d];
      forall x ensures CountOf(Published(s.log) + [d], x) == CountOf(Published(s.log), x) + (if x == d then 1 else 0) {
        CountConcat(Published(s.log), [d], x);
      }
    }
  }

  lemma OpenCounts(s: Sending)
    requires Counted(s)
    ensures Counted(OpenChannel(s, {}))
  {
    if !s.open {
      PublishedConcat(s.log, Flush(s.cache, {}));
      FlushPublishes(s.cache);
      forall x ensures CountOf(Published(s.log) + s.cache, x)
        == CountOf(Published(s.log), x) + (if x in s.cache then 1 else 0) {
        CountConcat(Published(s.log), s.cache, x);
        CountDistinct(s.cache, x);
      }
    }
  }

  /** A datum that was not cached is published once; the i-th cached one as often as the
      channel was opened after it was cached. */
  lemma {:induction false} HowOftenPublished(steps: seq<SendStep>)
    requires forall a | a in steps :: Succeeds(a)
    requires Distinct(Progress(IDLE, steps).dequeued)
    ensures Counted(Progress(IDLE, steps))
  {
    if steps != [] {
      var before, a := steps[..|steps| - 1], steps[|steps| - 1];
      var s := Progress(IDLE, before);
      TakenGrows(s, a);
      HowOftenPublished(before);
      assert a in steps;
      match a
      case TakesData(d, fails) =>
        assert Proceed(s, a).dequeued[|s.dequeued|] == d;
        TakeCounts(s, d);
      case Opens(failing) => OpenCounts(s);
      case Breaks =>
    }
  }

  /** The flush sends a datum where it would have gone directly exactly when it names no
      other channel than its talk. */
  lemma FlushGoesElsewhereIff(d: MqData)
    ensures Flushed(d) == Direct(d) <==> d.channelId == "" || d.channelId == d.talkId
  {
    ExchangeNamesDiffer(d.talkId, ChannelOf(d));
  }
}
