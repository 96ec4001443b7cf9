/** At most one live tracker per talk, and no cancel function of an earlier one, over every
    course of the handshake. */
module TrackerFacts {
  import opened Defs
  import opened Mq
  import opened Trackers
  import opened TrackerShapes

  lemma StartGens(h: Handshake, t: TalkId)
    requires TrackOk(h, t)
    ensures GensOk(TakeStart(h))
  {
  }

  lemma StartOne(h: Handshake, t: TalkId)
    requires TrackOk(h, t)
    ensures OneAtMost(TakeStart(h), t)
  {
  }

  lemma StartCancels(h: Handshake, t: TalkId)
    requires TrackOk(h, t)
    ensures CancelsOk(TakeStart(h), t)
  {
  }

  lemma StopGens(h: Handshake, t: TalkId)
    requires TrackOk(h, t)
    ensures GensOk(TakeStop(h))
  {
  }

  lemma StopOne(h: Handshake, t: TalkId)
    requires TrackOk(h, t)
    ensures OneAtMost(TakeStop(h), t)
  {
  }

  lemma StopCancels(h: Handshake, t: TalkId)
    requires TrackOk(h, t)
    ensures CancelsOk(TakeStop(h), t)
  {
  }

  lemma StartedGens(h: Handshake, t: TalkId)
    requires TrackOk(h, t)
    ensures GensOk(TakeStarted(h))
  {
  }

  lemma StartedOne(h: Handshake, t: TalkId)
    requires TrackOk(h, t)
    ensures OneAtMost(TakeStarted(h), t)
  {
  }

  lemma StartedCancels(h: Handshake, t: TalkId)
    requires TrackOk(h, t)
    ensures CancelsOk(TakeStarted(h), t)
  {
  }

  lemma StoppedGens(h: Handshake, t: TalkId)
    requires TrackOk(h, t)
    ensures GensOk(TakeStopped(h))
  {
  }

  lemma StoppedOne(h: Handshake, t: TalkId)
    requires TrackOk(h, t)
    ensures OneAtMost(TakeStopped(h), t)
  {
  }

  lemma StoppedCancels(h: Handshake, t: TalkId)
    requires TrackOk(h, t)
    ensures CancelsOk(TakeStopped(h), t)
  {
  }

  lemma AnnounceGens(h: Handshake, g: nat)
    requires GensOk(h)
    ensures GensOk(Announce(h, g))
  {
  }

  lemma AnnounceOne(h: Handshake, t: TalkId, g: nat)
    requires OneAtMost(h, t)
    ensures OneAtMost(Announce(h, g), t)
  {
  }

  lemma AnnounceCancels(h: Handshake, t: TalkId, g: nat)
    requires TrackOk(h, t)
    ensures CancelsOk(Announce(h, g), t)
  {
  }

  lemma LeaveOk(h: Handshake, t: TalkId, g: nat)
    requires TrackOk(h, t)
    ensures TrackOk(Leave(h, g), t)
  {
  }

  lemma RetireOk(h: Handshake, t: TalkId, g: nat)
    requires TrackOk(h, t)
    ensures TrackOk(Retire(h, g), t)
  {
  }

  lemma AdvanceOk(h: Handshake, t: TalkId, a: TrackStep)
    requires TrackOk(h, t)
    ensures TrackOk(Advance(h, a), t)
  {
    match a
    case TakesStart => StartGens(h, t); StartOne(h, t); StartCancels(h, t);
    case TakesStop => StopGens(h, t); StopOne(h, t); StopCancels(h, t);
    case TakesStarted => StartedGens(h, t); StartedOne(h, t); StartedCancels(h, t);
    case TakesStopped => StoppedGens(h, t); StoppedOne(h, t); StoppedCancels(h, t);
    case Announces(g) => AnnounceGens(h, g); AnnounceOne(h, t, g); AnnounceCancels(h, t, g);
    case Leaves(g) => LeaveOk(h, t, g);
    case Retires(g) => RetireOk(h, t, g);
    case _ =>
  }

  lemma {:induction false} CourseOk(mode: UserMode, steps: seq<TrackStep>, t: TalkId)
    requires !Special(mode, t)
    ensures TrackOk(Course(Begin(mode), steps), t)
  {
    if steps != [] {
      CourseOk(mode, steps[..|steps| - 1], t);
      AdvanceOk(Course(Begin(mode), steps[..|steps| - 1]), t, steps[|steps| - 1]);
    }
  }

  lemma {:induction false} CountedOnce(s: seq<TalkId>, t: TalkId)
    requires forall i, j | 0 <= i < j < |s| :: !(s[i] == t && s[j] == t)
    ensures multiset(s)[t] == if t in s then 1 else 0
  {
    if s != [] {
      var front := s[..|s| - 1];
      CountedOnce(front, t);
      assert s == front + [s[|s| - 1]];
    }
  }

  lemma OneOrNone(h: Handshake, t: TalkId)
    requires TrackOk(h, t)
    ensures |LiveOf(h, t)| <= 1 && (t in h.stopped ==> LiveOf(h, t) == {})
    ensures LiveOf(h, t) != {} ==> t in h.tracked
  {
    var live := LiveOf(h, t);
    if live != {} {
      var g :| g in live;
      forall x | x in live
        ensures x == g
      {
        assert LastOf(h, t, x) && LastOf(h, t, g);
      }
      assert live == {g};
    }
  }

  /** At most one live tracker per talk: over every course, for every talk but the special
      ones, routines that have not ended and stopped events still queued never exceed one
      together, and as long as there is one the talk is in the tracker map. */
  lemma OneTrackerPerTalk(mode: UserMode, steps: seq<TrackStep>, t: TalkId)
    requires !Special(mode, t)
    ensures var h := Course(Begin(mode), steps);
            && |LiveOf(h, t)| + StoppedOf(h, t) <= 1
            && (|LiveOf(h, t)| + StoppedOf(h, t) > 0 ==> t in h.tracked)
  {
    CourseOk(mode, steps, t);
    var h := Course(Begin(mode), steps);
    CountedOnce(h.stopped, t);
    OneOrNone(h, t);
  }

  /** A stored cancel function is that of the last routine started for the talk, so no
      earlier one can be cancelled through it, nor one of another talk; and every routine of
      the talk that was cancelled is that one. */
  lemma CancelIsTheCurrentOne(mode: UserMode, steps: seq<TrackStep>, t: TalkId)
    requires !Special(mode, t)
    ensures var h := Course(Begin(mode), steps);
            && (t in h.tracked && h.tracked[t].Some? ==>
                  var g := h.tracked[t].value;
                  g < |h.gens| && h.gens[g] == t && (forall i | g < i < |h.gens| :: h.gens[i] != t)
                  && LiveOf(h, t) <= {g})
            && (forall g | g in LiveOf(h, t) && h.live[g].cancelled :: t in h.tracked && h.tracked[t] == Some(g))
  {
    CourseOk(mode, steps, t);
    var h := Course(Begin(mode), steps);
    if t in h.tracked && h.tracked[t].Some? {
      forall x | x in LiveOf(h, t)
        ensures x == h.tracked[t].value
      {
        assert LastOf(h, t, x) && LastOf(h, t, h.tracked[t].value);
      }
    }
  }

  lemma SpecialGetsASecondTracker(mode: UserMode, id: string)
    requires Special(mode, id)
    ensures |LiveOf(Course(Begin(mode), [RequestsStart(id), TakesStart]), id)| == 2
  {
    var steps := [RequestsStart(id), TakesStart];
    var h0 := Begin(mode);
    assert steps[..1] == [RequestsStart(id)] && steps[..1][..0] == [];
    var h1 := AddTrackTalk(h0, id);
    assert Course(h0, []) == h0 && Course(h0, steps[..1]) == h1;
    assert Course(h0, steps) == TakeStart(h1);
    var first := if id == SPECIAL_ALL then 0 else 1;
    assert forall g :: g in LiveOf(TakeStart(h1), id) <==> g == first || g == 2;
    assert LiveOf(TakeStart(h1), id) == {first, 2};
  }

  /** The special channels are the only exception: asking to track one of them leaves two
      routines on it. */
  lemma OneTrackerIffNotSpecial(mode: UserMode, id: string)
    ensures (forall steps :: |LiveOf(Course(Begin(mode), steps), id)| + StoppedOf(Course(Begin(mode), steps), id) <= 1)
            <==> !Special(mode, id)
  {
    if Special(mode, id) {
      SpecialGetsASecondTracker(mode, id);
    } else {
      forall steps
        ensures |LiveOf(Course(Begin(mode), steps), id)| + StoppedOf(Course(Begin(mode), steps), id) <= 1
      {
        OneTrackerPerTalk(mode, steps, id);
      }
    }
  }

  /** A routine that announces itself goes unheard exactly when it finds the queue full. */
  lemma AnnouncedUnheardIff(h: Handshake, t: TalkId, g: nat)
    requires TrackOk(h, t) && g in h.live && h.live[g].talkId == t && h.live[g].phase.Spawned?
    ensures Unheard(Announce(h, g), t, g) <==> |h.started| >= TRACK_CAPACITY
  {
    var h' := Announce(h, g);
    if |h.started| < TRACK_CAPACITY {
      assert h'.started[|h.started|] == Started(t, g);
      assert Started(t, g) in h'.started;
    }
  }

  lemma AdvanceUnheard(h: Handshake, t: TalkId, g: nat, a: TrackStep)
    requires TrackOk(h, t) && Unheard(h, t, g)
    ensures Unheard(Advance(h, a), t, g)
  {
    if a.TakesStopped? && h.stopped != [] {
      assert h.stopped[0] != t;
    }
  }

  lemma {:induction false} StaysUnheard(mode: UserMode, before: seq<TrackStep>, after: seq<TrackStep>, t: TalkId,
                                        g: nat)
    requires !Special(mode, t) && Unheard(Course(Begin(mode), before), t, g)
    ensures Unheard(Course(Course(Begin(mode), before), after), t, g)
    ensures TrackOk(Course(Course(Begin(mode), before), after), t)
  {
    if after == [] {
      CourseOk(mode, before, t);
    } else {
      var h := Course(Course(Begin(mode), before), after[..|after| - 1]);
      StaysUnheard(mode, before, after[..|after| - 1], t, g);
      AdvanceUnheard(h, t, g, after[|after| - 1]);
      AdvanceOk(h, t, after[|after| - 1]);
    }
  }

  /** A routine that finds the started queue full when it announces itself can never be
      stopped: whatever is asked and done after that, it goes on for ever. */
  lemma {:induction false} UnheardIsNeverStopped(mode: UserMode, before: seq<TrackStep>, after: seq<TrackStep>,
                                                 t: TalkId, g: nat)
    requires var h := Course(Begin(mode), before);
             !Special(mode, t) && g in LiveOf(h, t) && h.live[g].phase.Spawned? && |h.started| >= TRACK_CAPACITY
    ensures var h := Course(Announce(Course(Begin(mode), before), g), after);
            g in h.live && h.live[g] == Tracker(t, Tracking, false) && t in h.tracked && h.tracked[t] == None
  {
    CourseOk(mode, before, t);
    AnnouncedUnheardIff(Course(Begin(mode), before), t, g);
    var announced := before + [Announces(g)];
    assert announced[..|before|] == before;
    StaysUnheard(mode, announced, after, t, g);
  }

  // ---- a course that gets there ----

  lemma CourseThree(h: Handshake, before: seq<TrackStep>, a: TrackStep, b: TrackStep, c: TrackStep)
    ensures Course(h, before + [a, b]) == Advance(Advance(Course(h, before), a), b)
    ensures Course(h, before + [a, b, c]) == Advance(Advance(Advance(Course(h, before), a), b), c)
  {
    assert (before + [a])[..|before|] == before;
    assert (before + [a, b])[..|before| + 1] == before + [a];
    assert (before + [a, b, c])[..|before| + 2] == before + [a, b];
  }

  lemma StartsAndAnnounces(h: Handshake, t: TalkId, g: nat)
    ensures Advance(Advance(Advance(h, RequestsStart(t)), TakesStart), Announces(g))
         == Announce(TakeStart(AddTrackTalk(h, t)), g)
  {
  }

  lemma CourseRound(h: Handshake, before: seq<TrackStep>, n: nat)
    ensures Course(h, before + Round(n)) == Announce(TakeStart(AddTrackTalk(Course(h, before), Name(n))), n + 2)
  {
    StartsAndAnnounces(Course(h, before), Name(n), n + 2);
    CourseThree(h, before, RequestsStart(Name(n)), TakesStart, Announces(n + 2));
  }

  lemma NamesDiffer(n: nat)
    ensures Name(n) != "" && (forall mode :: !Special(mode, Name(n)))
    ensures forall k: nat :: Name(k) == Name(n) ==> k == n
  {
    assert Name(n)[0] == 'a';
    forall k: nat | Name(k) == Name(n) ensures k == n {
      assert |Name(k)| == k + 1;
    }
  }

  /** The routine of one more name has started and has not announced itself yet. */
  lemma NextStarts(h: Handshake, n: nat)
    requires Filling(h, n)
    ensures var h' := TakeStart(AddTrackTalk(h, Name(n)));
            && n + 2 in h'.live && h'.live[n + 2] == Tracker(Name(n), Spawned, false)
            && h'.starts == [] && h'.started == h.started && |h'.gens| == n + 3
            && (forall k: nat :: Name(k) in h'.tracked ==> k < n + 1)
  {
    NamesDiffer(n);
  }

  lemma RoundFills(h: Handshake, n: nat)
    requires Filling(h, n) && n < TRACK_CAPACITY
    ensures Filling(Announce(TakeStart(AddTrackTalk(h, Name(n))), n + 2), n + 1)
  {
    NextStarts(h, n);
  }

  lemma {:induction false} Fills(mode: UserMode, n: nat)
    requires n <= TRACK_CAPACITY
    ensures Filling(Course(Begin(mode), Rounds(n)), n)
  {
    if n == 0 {
      assert Course(Begin(mode), Rounds(0)) == Begin(mode);
    } else {
      Fills(mode, n - 1);
      RoundFills(Course(Begin(mode), Rounds(n - 1)), n - 1);
      CourseRound(Begin(mode), Rounds(n - 1), n - 1);
    }
  }

  /** Ten routines announce themselves before the main routine takes any event; the eleventh
      goes unheard, and so can never be stopped. */
  lemma AnnouncementsCanGoUnheard(mode: UserMode, after: seq<TrackStep>)
    ensures var before := Rounds(TRACK_CAPACITY) + [RequestsStart(Name(TRACK_CAPACITY)), TakesStart];
            var g := TRACK_CAPACITY + 2;
            && g in Course(Begin(mode), before).live
            && g in LiveOf(Course(Announce(Course(Begin(mode), before), g), after), Name(TRACK_CAPACITY))
  {
    var n := TRACK_CAPACITY;
    Fills(mode, n);
    NextStarts(Course(Begin(mode), Rounds(n)), n);
    CourseThree(Begin(mode), Rounds(n), RequestsStart(Name(n)), TakesStart, TakesStart);
    NamesDiffer(n);
    UnheardIsNeverStopped(mode, Rounds(n) + [RequestsStart(Name(n)), TakesStart], after, Name(n), n + 2);
  }

  // ---- requests are not counted ----

  /** So many requests for a talk, each taken by the main routine. */
  function Asks(t: TalkId, n: nat): seq<TrackStep> {
    if n == 0 then [] else Asks(t, n - 1) + [RequestsStart(t), TakesStart]
  }

  lemma CourseTwo(h: Handshake, before: seq<TrackStep>, a: TrackStep, b: TrackStep)
    ensures Course(h, before + [a, b]) == Advance(Advance(Course(h, before), a), b)
  {
    assert (before + [a])[..|before|] == before;
    assert (before + [a, b])[..|before| + 1] == before + [a];
  }

  lemma {:induction false} AsksChangeNothing(h: Handshake, t: TalkId, n: nat)
    requires t in h.tracked && h.starts == []
    ensures Course(h, Asks(t, n)) == h
  {
    if n > 0 {
      AsksChangeNothing(h, t, n - 1);
      CourseTwo(h, Asks(t, n - 1), RequestsStart(t), TakesStart);
    }
  }

  /** However often a tracked talk was asked for since, one request to stop it cancels its
      routine. */
  lemma {:induction false} TrackingIsNotCounted(h: Handshake, t: TalkId, g: nat, n: nat)
    requires t != "" && t in h.tracked && h.tracked[t] == Some(g) && g in h.live && h.starts == [] && h.stops == []
    ensures Course(h, Asks(t, n) + [RequestsStop(t), TakesStop])
         == h.(live := h.live[g := h.live[g].(cancelled := true)])
  {
    AsksChangeNothing(h, t, n);
    CourseTwo(h, Asks(t, n), RequestsStop(t), TakesStop);
  }
}
