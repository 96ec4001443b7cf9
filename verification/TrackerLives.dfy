/** The life of a routine that tracks a talk, from the request to the stopped event, and what
    becomes of the talk when that event is lost. */
module TrackerLives {
  import opened Defs
  import opened Mq
  import opened Trackers
  import opened TrackerShapes
  import opened TrackerFacts

  lemma {:induction false} CourseMore(h: Handshake, before: seq<TrackStep>, after: seq<TrackStep>)
    ensures Course(h, before + after) == Course(Course(h, before), after)
  {
    if after == [] {
      assert before + after == before;
    } else {
      var front := after[..|after| - 1];
      CourseMore(h, before, front);
      assert (before + after)[..|before + front|] == before + front;
    }
  }

  lemma CourseFirst(h: Handshake, a: TrackStep, after: seq<TrackStep>)
    ensures Course(h, [a] + after) == Course(Advance(h, a), after)
  {
    CourseMore(h, [a], after);
    assert [a][..0] == [];
  }

  // ---- the stopped event ----

  /** A routine that ends reports it exactly when the stopped queue has room. */
  lemma RetiredIsReportedIff(h: Handshake, t: TalkId, g: nat)
    requires TrackOk(h, t) && g in h.live && h.live[g].talkId == t && h.live[g].phase.Leaving?
    ensures var h' := Advance(h, Retires(g));
            && LiveOf(h', t) == {} && t in h'.tracked
            && (t in h'.stopped <==> |h.stopped| < TRACK_CAPACITY)
  {
    var h' := Retire(h, g);
    forall x | x in h.live && h.live[x].talkId == t
      ensures x == g
    {
      assert LastOf(h, t, x) && LastOf(h, t, g);
    }
    if |h.stopped| < TRACK_CAPACITY {
      assert h'.stopped[|h.stopped|] == t;
    }
  }

  function Takes(n: nat): seq<TrackStep> {
    seq(n, _ => TakesStopped)
  }

  lemma TakesOneMore(h: Handshake, n: nat)
    requires n > 0
    ensures Course(h, Takes(n)) == TakeStopped(Course(h, Takes(n - 1)))
  {
    assert Takes(n)[..n - 1] == Takes(n - 1);
  }

  lemma OneMoreForgotten(h: Handshake, h': Handshake, n: nat)
    requires n < |h.stopped| && Forgotten(h, h', n)
    ensures Forgotten(h, TakeStopped(h'), n + 1)
  {
    assert h.stopped[..n + 1] == h.stopped[..n] + [h.stopped[n]];
    assert h.stopped[n..][1..] == h.stopped[n + 1..];
  }

  /** When the queued stopped events are taken, their talks are out of the map and no other. */
  lemma {:induction false} StoppedTalksAreForgotten(h: Handshake, n: nat)
    requires n <= |h.stopped|
    ensures Forgotten(h, Course(h, Takes(n)), n)
  {
    if n == 0 {
      assert Course(h, Takes(0)) == h;
    } else {
      StoppedTalksAreForgotten(h, n - 1);
      TakesOneMore(h, n);
      OneMoreForgotten(h, Course(h, Takes(n - 1)), n - 1);
    }
  }

  /** A request that is taken starts a routine exactly if its talk is not in the map. */
  lemma AskedStartsIff(h: Handshake, t: TalkId)
    requires t != "" && h.starts == []
    ensures var h' := Course(h, [RequestsStart(t), TakesStart]);
            && t in h'.tracked && h'.starts == []
            && (t !in h.tracked ==> h'.gens == h.gens + [t])
            && (t !in h.tracked ==> h'.live == h.live[|h.gens| := Tracker(t, Spawned, false)])
            && (t in h.tracked ==> h' == h)
  {
    CourseTwo(h, [], RequestsStart(t), TakesStart);
    assert [] + [RequestsStart(t), TakesStart] == [RequestsStart(t), TakesStart];
    assert AddTrackTalk(h, t) == h.(starts := [t]);
  }

  /** If its stopped event is queued, then once the queued events are taken the talk is out of
      the map, and the next request for it starts a new routine, its only one. */
  lemma StoppedTalkIsTrackedAgain(mode: UserMode, before: seq<TrackStep>, t: TalkId, g: nat)
    requires AboutToEnd(mode, before, t, g) && t != ""
    requires |Course(Begin(mode), before).stopped| < TRACK_CAPACITY && Course(Begin(mode), before).starts == []
    ensures var h := Advance(Course(Begin(mode), before), Retires(g));
            var taken := Course(h, Takes(|h.stopped|));
            && t !in taken.tracked
            && LiveOf(Course(taken, [RequestsStart(t), TakesStart]), t) == {|taken.gens|}
  {
    CourseOk(mode, before, t);
    RetiredIsReportedIff(Course(Begin(mode), before), t, g);
    var h := Advance(Course(Begin(mode), before), Retires(g));
    var taken := Course(h, Takes(|h.stopped|));
    StoppedTalksAreForgotten(h, |h.stopped|);
    assert h.stopped[..|h.stopped|] == h.stopped;
    AskedStartsIff(taken, t);
    var again := Course(taken, [RequestsStart(t), TakesStart]);
    forall x
      ensures x in LiveOf(again, t) <==> x == |taken.gens|
    {
      if x in again.live && x != |taken.gens| {
        assert x !in LiveOf(h, t);
      }
    }
  }

  // ---- a lost stopped event ----

  lemma AdvanceStuck(h: Handshake, t: TalkId, a: TrackStep)
    requires Stuck(h, t)
    ensures Stuck(Advance(h, a), t)
  {
    if a.TakesStopped? && h.stopped != [] {
      assert h.stopped[0] != t;
    }
  }

  lemma {:induction false} StaysStuck(h: Handshake, t: TalkId, after: seq<TrackStep>)
    requires Stuck(h, t)
    ensures Stuck(Course(h, after), t)
  {
    if after != [] {
      StaysStuck(h, t, after[..|after| - 1]);
      AdvanceStuck(Course(h, after[..|after| - 1]), t, after[|after| - 1]);
    }
  }

  lemma RetiredIsStuck(h: Handshake, t: TalkId, g: nat)
    requires TrackOk(h, t) && g in h.live && h.live[g].talkId == t && h.live[g].phase.Leaving?
    requires |h.stopped| >= TRACK_CAPACITY
    ensures Stuck(Advance(h, Retires(g)), t)
  {
    var h' := Advance(h, Retires(g));
    RetiredIsReportedIff(h, t, g);
    forall x | x in h'.live
      ensures h'.live[x].talkId != t
    {
      assert x in LiveOf(h', t) <==> h'.live[x].talkId == t;
    }
    forall d | d in h'.started
      ensures d.talkId != t
    {
      assert h.tracked[t] == Some(g);
    }
  }

  /** A routine whose stopped event finds the queue full leaves its talk in the map for ever,
      with no routine, whatever is asked and done after that; and only then. */
  lemma LostStopIsForeverIff(mode: UserMode, before: seq<TrackStep>, t: TalkId, g: nat)
    requires AboutToEnd(mode, before, t, g)
    ensures var h := Course(Begin(mode), before);
            (forall after :: t in Course(Advance(h, Retires(g)), after).tracked) <==> |h.stopped| >= TRACK_CAPACITY
    ensures var h := Course(Begin(mode), before);
            |h.stopped| >= TRACK_CAPACITY
            ==> forall after :: LiveOf(Course(Advance(h, Retires(g)), after), t) == {}
  {
    CourseOk(mode, before, t);
    var h := Course(Begin(mode), before);
    var h' := Advance(h, Retires(g));
    RetiredIsReportedIff(h, t, g);
    if |h.stopped| < TRACK_CAPACITY {
      StoppedTalksAreForgotten(h', |h'.stopped|);
      assert h'.stopped[..|h'.stopped|] == h'.stopped;
      assert t !in Course(h', Takes(|h'.stopped|)).tracked;
    } else {
      RetiredIsStuck(h, t, g);
      forall after
        ensures t in Course(h', after).tracked && LiveOf(Course(h', after), t) == {}
      {
        StaysStuck(h', t, after);
      }
    }
  }

  // ---- a whole life ----

  /** Asked for, started, announced, taken note of, stopped, cancelled, left and ended. */
  function Life(t: TalkId, g: nat): seq<TrackStep> {
    [RequestsStart(t), TakesStart, Announces(g), TakesStarted]
    + [RequestsStop(t), TakesStop, Leaves(g), Retires(g)]
  }

  lemma CourseFour(h: Handshake, a: TrackStep, b: TrackStep, c: TrackStep, d: TrackStep)
    ensures Course(h, [a, b, c, d]) == Advance(Advance(Advance(Advance(h, a), b), c), d)
  {
    CourseTwo(h, [], a, b);
    CourseTwo(h, [a, b], c, d);
    assert [] + [a, b] == [a, b] && [a, b] + [c, d] == [a, b, c, d];
  }

  lemma StartedOnce(h: Handshake, t: TalkId)
    requires Calm(h) && t != "" && t !in h.tracked
    ensures TakeStart(AddTrackTalk(h, t))
         == h.(tracked := h.tracked[t := None], gens := h.gens + [t],
               live := h.live[|h.gens| := Tracker(t, Spawned, false)])
  {
  }

  lemma HeardOnce(h: Handshake, t: TalkId, g: nat)
    requires h.started == [] && t in h.tracked && g in h.live && h.live[g] == Tracker(t, Spawned, false)
    ensures TakeStarted(Announce(h, g))
         == h.(tracked := h.tracked[t := Some(g)], live := h.live[g := Tracker(t, Tracking, false)])
  {
  }

  lemma FirstHalf(h: Handshake, t: TalkId)
    requires Calm(h) && t != "" && t !in h.tracked
    ensures var g := |h.gens|;
            Course(h, [RequestsStart(t), TakesStart, Announces(g), TakesStarted])
            == h.(tracked := h.tracked[t := Some(g)], gens := h.gens + [t],
                  live := h.live[g := Tracker(t, Tracking, false)])
  {
    var g := |h.gens|;
    CourseFour(h, RequestsStart(t), TakesStart, Announces(g), TakesStarted);
    StartedOnce(h, t);
    var h1 := TakeStart(AddTrackTalk(h, t));
    HeardOnce(h1, t, g);
    assert h1.tracked[t := Some(g)] == h.tracked[t := Some(g)];
  }

  lemma SecondHalf(h: Handshake, t: TalkId, g: nat)
    requires Calm(h) && t != "" && t in h.tracked && h.tracked[t] == Some(g)
    requires g in h.live && h.live[g] == Tracker(t, Tracking, false)
    ensures Course(h, [RequestsStop(t), TakesStop, Leaves(g), Retires(g)])
         == h.(live := h.live - {g}, stopped := Push(h.stopped, TRACK_CAPACITY, t))
  {
    CourseFour(h, RequestsStop(t), TakesStop, Leaves(g), Retires(g));
    var h1 := TakeStop(RemoveTrackTalk(h, t));
    assert h1 == h.(live := h.live[g := Tracker(t, Tracking, true)]);
    var h2 := Leave(h1, g);
    assert h2 == h.(live := h.live[g := Tracker(t, Leaving, true)]);
  }

  /** A whole life leaves nothing but the talk's entry in the map and, if there is room, the
      stopped event that will take it out. */
  lemma WholeLife(h: Handshake, t: TalkId)
    requires Calm(h) && t != "" && t !in h.tracked
    ensures Course(h, Life(t, |h.gens|))
         == h.(tracked := h.tracked[t := Some(|h.gens|)], gens := h.gens + [t],
               stopped := Push(h.stopped, TRACK_CAPACITY, t))
  {
    var g := |h.gens|;
    var h1 := h.(tracked := h.tracked[t := Some(g)], gens := h.gens + [t],
                 live := h.live[g := Tracker(t, Tracking, false)]);
    FirstHalf(h, t);
    SecondHalf(h1, t, g);
    assert h1.live - {g} == h.live;
    CourseMore(h, [RequestsStart(t), TakesStart, Announces(g), TakesStarted],
               [RequestsStop(t), TakesStop, Leaves(g), Retires(g)]);
  }

  /** With the event taken, everything is as it was but for the number that was used. */
  lemma LifeAndAfterlife(h: Handshake, t: TalkId)
    requires Calm(h) && t != "" && t !in h.tracked && h.stopped == []
    ensures Course(h, Life(t, |h.gens|) + [TakesStopped]) == h.(gens := h.gens + [t])
  {
    WholeLife(h, t);
    CourseMore(h, Life(t, |h.gens|), [TakesStopped]);
    var h1 := Course(h, Life(t, |h.gens|));
    CourseFirst(h1, TakesStopped, []);
    assert [TakesStopped] + [] == [TakesStopped];
    assert h1.tracked - {t} == h.tracked;
  }

  // ---- a course that loses a stopped event ----

  function Lives(n: nat): seq<TrackStep> {
    if n == 0 then [] else Lives(n - 1) + Life(Name(n - 1), n + 1)
  }

  ghost predicate Lived(h: Handshake, n: nat) {
    && Calm(h) && |h.gens| == n + 2 && |h.stopped| == (if n < TRACK_CAPACITY then n else TRACK_CAPACITY)
    && (forall k: nat :: Name(k) in h.tracked <==> k < n)
  }

  lemma OneMoreLived(h: Handshake, n: nat)
    requires Lived(h, n)
    ensures Lived(Course(h, Life(Name(n), n + 2)), n + 1)
  {
    NamesDiffer(n);
    WholeLife(h, Name(n));
  }

  lemma {:induction false} AllLived(mode: UserMode, n: nat)
    ensures Lived(Course(Begin(mode), Lives(n)), n)
  {
    if n == 0 {
      assert Course(Begin(mode), Lives(0)) == Begin(mode);
    } else {
      AllLived(mode, n - 1);
      OneMoreLived(Course(Begin(mode), Lives(n - 1)), n - 1);
      CourseMore(Begin(mode), Lives(n - 1), Life(Name(n - 1), n + 1));
    }
  }

  /** Eleven routines live and end before the main routine takes a stopped event: the last
      one's is lost, and its talk can never be tracked again. */
  lemma StopsCanBeLost(mode: UserMode, after: seq<TrackStep>)
    ensures var h := Course(Course(Begin(mode), Lives(TRACK_CAPACITY + 1)), after);
            Name(TRACK_CAPACITY) in h.tracked && LiveOf(h, Name(TRACK_CAPACITY)) == {}
  {
    var n := TRACK_CAPACITY;
    var t := Name(n);
    var before, last := Course(Begin(mode), Lives(n)), Course(Begin(mode), Lives(n + 1));
    AllLived(mode, n);
    NamesDiffer(n);
    CourseMore(Begin(mode), Lives(n), Life(t, n + 2));
    WholeLife(before, t);
    CourseOk(mode, Lives(n), t);
    CourseOk(mode, Lives(n + 1), t);
    assert last.stopped == before.stopped && last.live == before.live && last.started == [];
    assert t !in before.tracked;
    forall g | g in last.live
      ensures last.live[g].talkId != t
    {
    }
    StaysStuck(last, t, after);
  }
}
