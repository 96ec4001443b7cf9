/** The tracker map of the message-queue main routine and the routines it starts: the
    start, started, stop and stopped handshake, one step at a time. */
module Trackers {
  import opened Defs
  import opened Mq

  /** A routine that has not announced itself yet, one in its loop, and one that has left it. */
  datatype Phase = Spawned | Tracking | Leaving

  /** A routine that has not ended. `gen` numbers the routines in the order they start. */
  datatype Tracker = Tracker(talkId: TalkId, phase: Phase, cancelled: bool)

  datatype Started = Started(talkId: TalkId, gen: nat)

  /** `tracked` is the tracker map; an entry holds the cancel function it was told of, if
      any, as the number of the routine that function cancels. `live` are the routines. */
  datatype Handshake = Handshake(
    tracked: map<TalkId, Option<nat>>,
    starts: seq<TalkId>,
    stops: seq<TalkId>,
    started: seq<Started>,
    stopped: seq<TalkId>,
    live: map<nat, Tracker>,
    gens: seq<TalkId>)

  /** Two routines for the special channels run from the beginning and are not in the map. */
  function Begin(mode: UserMode): Handshake {
    Handshake(map[], [], [], [], [],
              map[0 := Tracker(SPECIAL_ALL, Spawned, false), 1 := Tracker(SpecialTalk(mode), Spawned, false)],
              [SPECIAL_ALL, SpecialTalk(mode)])
  }

  function AddTrackTalk(h: Handshake, t: TalkId): Handshake {
    if t == "" then h else h.(starts := Push(h.starts, TRACK_CAPACITY, t))
  }

  function RemoveTrackTalk(h: Handshake, t: TalkId): Handshake {
    if t == "" then h else h.(stops := Push(h.stops, TRACK_CAPACITY, t))
  }

  /** Starts a routine unless the talk is in the map. */
  function TakeStart(h: Handshake): Handshake {
    if h.starts == [] then h
    else
      var t, h' := h.starts[0], h.(starts := h.starts[1..]);
      if t in h.tracked then h'
      else
        h'.(tracked := h.tracked[t := None],
            live := h.live[|h.gens| := Tracker(t, Spawned, false)],
            gens := h.gens + [t])
  }

  function Cancel(live: map<nat, Tracker>, cancel: Option<nat>): map<nat, Tracker> {
    if cancel.Some? && cancel.value in live then live[cancel.value := live[cancel.value].(cancelled := true)] else live
  }

  function TakeStop(h: Handshake): Handshake {
    if h.stops == [] then h
    else
      var t, h' := h.stops[0], h.(stops := h.stops[1..]);
      if t in h.tracked then h'.(live := Cancel(h.live, h.tracked[t])) else h'
  }

  function TakeStarted(h: Handshake): Handshake {
    if h.started == [] then h
    else
      var d, h' := h.started[0], h.(started := h.started[1..]);
      if d.talkId in h.tracked then h'.(tracked := h.tracked[d.talkId := Some(d.gen)]) else h'
  }

  function TakeStopped(h: Handshake): Handshake {
    if h.stopped == [] then h
    else
      var t, h' := h.stopped[0], h.(stopped := h.stopped[1..]);
      if t in h.tracked then h'.(live := Cancel(h.live, h.tracked[t]), tracked := h.tracked - {t}) else h'
  }

  /** Routine g tells the main routine its cancel function, if there is room. */
  function Announce(h: Handshake, g: nat): Handshake {
    if g !in h.live || !h.live[g].phase.Spawned? then h
    else
      h.(live := h.live[g := h.live[g].(phase := Tracking)],
         started := Push(h.started, TRACK_CAPACITY, Started(h.live[g].talkId, g)))
  }

  /** A cancelled routine leaves its loop. */
  function Leave(h: Handshake, g: nat): Handshake {
    if g !in h.live || !h.live[g].phase.Tracking? || !h.live[g].cancelled then h
    else h.(live := h.live[g := h.live[g].(phase := Leaving)])
  }

  /** It reports that it stopped, if there is room, and ends. */
  function Retire(h: Handshake, g: nat): Handshake {
    if g !in h.live || !h.live[g].phase.Leaving? then h
    else h.(live := h.live - {g}, stopped := Push(h.stopped, TRACK_CAPACITY, h.live[g].talkId))
  }

  datatype TrackStep =
    | RequestsStart(t: TalkId)
    | RequestsStop(t: TalkId)
    | TakesStart
    | TakesStop
    | TakesStarted
    | TakesStopped
    | Announces(g: nat)
    | Leaves(g: nat)
    | Retires(g: nat)

  function Advance(h: Handshake, a: TrackStep): Handshake {
    match a
    case RequestsStart(t) => AddTrackTalk(h, t)
    case RequestsStop(t) => RemoveTrackTalk(h, t)
    case TakesStart => TakeStart(h)
    case TakesStop => TakeStop(h)
    case TakesStarted => TakeStarted(h)
    case TakesStopped => TakeStopped(h)
    case Announces(g) => Announce(h, g)
    case Leaves(g) => Leave(h, g)
    case Retires(g) => Retire(h, g)
  }

  function Course(h: Handshake, steps: seq<TrackStep>): Handshake {
    if steps == [] then h else Advance(Course(h, steps[..|steps| - 1]), steps[|steps| - 1])
  }

  /** The routines that track talk t and have not ended. */
  function LiveOf(h: Handshake, t: TalkId): set<nat> {
    set g | g in h.live && h.live[g].talkId == t
  }

  /** How many stopped events of talk t are queued. */
  function StoppedOf(h: Handshake, t: TalkId): nat {
    multiset(h.stopped)[t]
  }
}
