/** What every course of the tracker handshake keeps, talk by talk. */
module TrackerShapes {
  import opened Defs
  import opened Mq
  import opened Trackers

  /** Every routine has a number and the talk it was started for. */
  ghost predicate GensOk(h: Handshake) {
    && (forall g | g in h.live :: g < |h.gens| && h.gens[g] == h.live[g].talkId)
    && (forall d | d in h.started :: d.gen < |h.gens| && h.gens[d.gen] == d.talkId)
    && (forall t | t in h.tracked && h.tracked[t].Some? ::
          h.tracked[t].value < |h.gens| && h.gens[h.tracked[t].value] == t)
  }

  ghost predicate LastOf(h: Handshake, t: TalkId, g: nat) {
    forall i | g < i < |h.gens| :: h.gens[i] != t
  }

  /** One routine at most, the last one started, or one stopped event, and then the talk is
      in the map. */
  ghost predicate OneAtMost(h: Handshake, t: TalkId) {
    && (forall g | g in h.live && h.live[g].talkId == t :: t in h.tracked && t !in h.stopped && LastOf(h, t, g))
    && (t in h.stopped ==> t in h.tracked)
    && (forall i, j | 0 <= i < j < |h.stopped| :: !(h.stopped[i] == t && h.stopped[j] == t))
  }

  /** A routine whose cancel function the map does not hold has not been cancelled, and one
      that is still to be heard of is alive. */
  ghost predicate CancelsOk(h: Handshake, t: TalkId) {
    && (t in h.tracked && h.tracked[t].Some? ==> LastOf(h, t, h.tracked[t].value))
    && (forall g | g in h.live && h.live[g].talkId == t && (h.live[g].cancelled || h.live[g].phase.Leaving?) ::
          t in h.tracked && h.tracked[t] == Some(g) && !h.live[g].phase.Spawned?)
    && (forall g | g in h.live && h.live[g].talkId == t && h.live[g].phase.Spawned? ::
          (t in h.tracked ==> h.tracked[t] == None) && forall d | d in h.started :: d.talkId != t)
    && (forall d | d in h.started && d.talkId == t ::
          d.gen in h.live && !h.live[d.gen].phase.Spawned? && (t in h.tracked ==> h.tracked[t] == None))
    && (forall i, j | 0 <= i < j < |h.started| :: !(h.started[i].talkId == t && h.started[j].talkId == t))
  }

  ghost predicate TrackOk(h: Handshake, t: TalkId) {
    GensOk(h) && OneAtMost(h, t) && CancelsOk(h, t)
  }

  /** Routine g is in its loop and the main routine will not hear of it any more: its
      announcement found the queue full. */
  ghost predicate Unheard(h: Handshake, t: TalkId, g: nat) {
    && g in h.live && h.live[g] == Tracker(t, Tracking, false)
    && t in h.tracked && h.tracked[t] == None
    && forall d | d in h.started :: d.talkId != t
  }

  /** The main routine has heard of routine g, or will when it takes the queued events. */
  ghost predicate Heard(h: Handshake, t: TalkId, g: nat) {
    && g in h.live && h.live[g].talkId == t && t in h.tracked
    && (h.tracked[t] == Some(g) || Started(t, g) in h.started)
  }

  /** And now it has. */
  ghost predicate Known(h: Handshake, t: TalkId, g: nat) {
    TrackOk(h, t) && Heard(h, t, g) && h.started == []
  }

  /** These steps get routine g cancelled. */
  ghost predicate Stops(h: Handshake, after: seq<TrackStep>, g: nat) {
    var h' := Course(h, after);
    g in h'.live && h'.live[g].cancelled
  }

  /** The first n stopped events were taken: their talks are out of the map and no other. */
  ghost predicate Forgotten(h: Handshake, h': Handshake, n: nat)
    requires n <= |h.stopped|
  {
    && h'.stopped == h.stopped[n..] && h'.starts == h.starts && h'.gens == h.gens
    && (forall t :: t in h'.tracked <==> t in h.tracked && t !in h.stopped[..n])
    && h'.live.Keys == h.live.Keys && (forall g | g in h.live :: h'.live[g].talkId == h.live[g].talkId)
  }

  /** Routine g of talk t is about to end, in some course. */
  ghost predicate AboutToEnd(mode: UserMode, before: seq<TrackStep>, t: TalkId, g: nat) {
    var h := Course(Begin(mode), before);
    !Special(mode, t) && g in LiveOf(h, t) && h.live[g].phase.Leaving?
  }

  /** The talk is in the map, nothing tracks it, and no event of it is to come. */
  ghost predicate Stuck(h: Handshake, t: TalkId) {
    && t in h.tracked && t !in h.stopped
    && (forall g | g in h.live :: h.live[g].talkId != t) && (forall d | d in h.started :: d.talkId != t)
  }

  /** Nothing is under way but stopped events, and no routine has a number to come. */
  ghost predicate Calm(h: Handshake) {
    h.starts == [] && h.stops == [] && h.started == [] && forall g | g in h.live :: g < |h.gens|
  }

  // ---- a course that fills the started queue ----

  function Name(n: nat): TalkId {
    seq(n + 1, _ => 'a')
  }

  /** Start a routine for the next name and let it announce itself; nobody takes the events. */
  function Round(n: nat): seq<TrackStep> {
    [RequestsStart(Name(n)), TakesStart, Announces(n + 2)]
  }

  function Rounds(n: nat): seq<TrackStep> {
    if n == 0 then [] else Rounds(n - 1) + Round(n - 1)
  }

  ghost predicate Filling(h: Handshake, n: nat) {
    && h.starts == [] && |h.started| == n && |h.gens| == n + 2
    && (forall k: nat :: Name(k) in h.tracked ==> k < n)
  }
}
