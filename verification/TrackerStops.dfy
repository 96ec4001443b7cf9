/** Which routines can be stopped: those whose announcement found room. */
module TrackerStops {
  import opened Defs
  import opened Mq
  import opened Trackers
  import opened TrackerShapes
  import opened TrackerFacts
  import opened TrackerLives

  function Times(a: TrackStep, n: nat): seq<TrackStep> {
    seq(n, _ => a)
  }

  lemma TimesMore(h: Handshake, a: TrackStep, n: nat)
    requires n > 0
    ensures Course(h, Times(a, n)) == Course(Advance(h, a), Times(a, n - 1))
  {
    assert Times(a, n) == [a] + Times(a, n - 1);
    CourseFirst(h, a, Times(a, n - 1));
  }

  lemma AnnouncedIsHeard(h: Handshake, t: TalkId, g: nat)
    requires TrackOk(h, t) && g in h.live && h.live[g].talkId == t && h.live[g].phase.Spawned?
    requires |h.started| < TRACK_CAPACITY
    ensures Heard(Announce(h, g), t, g)
  {
    assert Announce(h, g).started[|h.started|] == Started(t, g);
  }

  lemma TakenIsHeard(h: Handshake, t: TalkId, g: nat)
    requires TrackOk(h, t) && Heard(h, t, g) && h.started != []
    ensures Heard(TakeStarted(h), t, g) && TakeStarted(h).started == h.started[1..]
  {
    assert h.started[0] in h.started;
    assert h.started == [h.started[0]] + h.started[1..];
  }

  /** Once the queued events are taken, the map holds the cancel function of a routine that was
      heard of. */
  lemma {:induction false} AllTaken(h: Handshake, t: TalkId, g: nat)
    requires TrackOk(h, t) && Heard(h, t, g)
    ensures Known(Course(h, Times(TakesStarted, |h.started|)), t, g)
    decreases |h.started|
  {
    if h.started != [] {
      TakenIsHeard(h, t, g);
      AdvanceOk(h, t, TakesStarted);
      TimesMore(h, TakesStarted, |h.started|);
      AllTaken(TakeStarted(h), t, g);
    }
  }

  /** The requests to stop that wait may be taken in the meantime. */
  lemma {:induction false} AllStopsTaken(h: Handshake, t: TalkId, g: nat)
    requires Heard(h, t, g) && h.started == []
    ensures var h' := Course(h, Times(TakesStop, |h.stops|));
            Heard(h', t, g) && h'.started == [] && h'.stops == []
    decreases |h.stops|
  {
    if h.stops != [] {
      TimesMore(h, TakesStop, |h.stops|);
      AllStopsTaken(TakeStop(h), t, g);
    }
  }

  lemma AskedIsStopped(h: Handshake, t: TalkId, g: nat)
    requires t != "" && Heard(h, t, g) && h.started == [] && h.stops == []
    ensures Stops(h, [RequestsStop(t), TakesStop], g)
  {
    CourseTwo(h, [], RequestsStop(t), TakesStop);
    assert [] + [RequestsStop(t), TakesStop] == [RequestsStop(t), TakesStop];
  }

  /** The events are taken, then the requests that wait, then one for the talk. */
  function ToStop(h: Handshake, t: TalkId): seq<TrackStep> {
    Times(TakesStarted, |h.started|)
    + (Times(TakesStop, |Course(h, Times(TakesStarted, |h.started|)).stops|) + [RequestsStop(t), TakesStop])
  }

  lemma HeardIsStopped(h: Handshake, t: TalkId, g: nat)
    requires t != "" && TrackOk(h, t) && Heard(h, t, g)
    ensures Stops(h, ToStop(h, t), g)
  {
    AllTaken(h, t, g);
    var h1 := Course(h, Times(TakesStarted, |h.started|));
    AllStopsTaken(h1, t, g);
    var stops := Times(TakesStop, |h1.stops|);
    AskedIsStopped(Course(h1, stops), t, g);
    CourseMore(h1, stops, [RequestsStop(t), TakesStop]);
    CourseMore(h, Times(TakesStarted, |h.started|), stops + [RequestsStop(t), TakesStop]);
  }

  /** In every course a routine about to announce itself can still be stopped in some later
      course exactly if it finds room in the started queue. */
  lemma CanBeStoppedIff(mode: UserMode, before: seq<TrackStep>, t: TalkId, g: nat)
    requires !Special(mode, t) && t != ""
    requires var h := Course(Begin(mode), before); g in LiveOf(h, t) && h.live[g].phase.Spawned?
    ensures var h := Course(Begin(mode), before);
            (exists after :: Stops(Advance(h, Announces(g)), after, g)) <==> |h.started| < TRACK_CAPACITY
  {
    var h := Course(Begin(mode), before);
    var h' := Advance(h, Announces(g));
    CourseOk(mode, before, t);
    if |h.started| < TRACK_CAPACITY {
      AnnouncedIsHeard(h, t, g);
      AdvanceOk(h, t, Announces(g));
      HeardIsStopped(h', t, g);
    } else if after :| Stops(h', after, g) {
      UnheardIsNeverStopped(mode, before, after, t, g);
    }
  }

  /** What is cancelled when a stopped event is taken has ended already: in every course, that
      cancels nothing. */
  lemma StoppedEventCancelsNothing(mode: UserMode, before: seq<TrackStep>)
    requires var h := Course(Begin(mode), before); h.stopped != [] && !Special(mode, h.stopped[0])
    ensures var h := Course(Begin(mode), before); Advance(h, TakesStopped).live == h.live
  {
    var h := Course(Begin(mode), before);
    CourseOk(mode, before, h.stopped[0]);
    assert h.stopped[0] in h.stopped;
  }

  /** In every course a talk is in the map, waits to be started or has ever had a routine of its
      own only if it was asked for by name; and so it is with the requests to stop. */
  lemma {:induction false} OnlyAskedAreTracked(mode: UserMode, steps: seq<TrackStep>, t: TalkId)
    ensures var h := Course(Begin(mode), steps);
            && |h.gens| >= 2
            && (t in h.tracked || t in h.starts || t in h.gens[2..] ==> t != "" && RequestsStart(t) in steps)
            && (t in h.stops ==> t != "" && RequestsStop(t) in steps)
  {
    if steps != [] {
      var before, a := steps[..|steps| - 1], steps[|steps| - 1];
      var h := Course(Begin(mode), before);
      OnlyAskedAreTracked(mode, before, t);
      assert steps == before + [a];
      match a
      case TakesStart =>
        if h.starts != [] {
          assert h.starts[0] in h.starts;
          assert (h.gens + [h.starts[0]])[2..] == h.gens[2..] + [h.starts[0]];
        }
      case _ =>
    }
  }
}
