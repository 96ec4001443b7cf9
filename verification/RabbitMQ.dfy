/** The message-queue bus object, updated in place: its request and event channels, the main
    routine's select loop, and the routines that track talks. */
module RabbitMQ {
  import opened Defs
  import opened Mq
  import opened Trackers
  import opened SendCache
  import opened RabbitLogic

  class RabbitMQ {
    const userMode: UserMode
    var trackTalkMap: map<TalkId, Option<nat>>
    var startRequests: seq<TalkId>
    var stopRequests: seq<TalkId>
    var startedEvents: seq<Started>
    var stoppedEvents: seq<TalkId>
    var routines: map<nat, Tracker>
    var sendQueue: seq<MqData>
    var channelOpen: bool
    var cachedSendData: seq<MqData>
    var published: seq<Publication>
    var gens: seq<TalkId>
    ghost var dequeued: seq<MqData>
    ghost var flushed: nat
    ghost var openings: nat
    ghost var cachedAt: seq<nat>

    ghost function Tracks(): Handshake
      reads this
    {
      Handshake(trackTalkMap, startRequests, stopRequests, startedEvents, stoppedEvents, routines, gens)
    }

    ghost function Sending(): SendCache.Sending
      reads this
    {
      SendCache.Sending(channelOpen, cachedSendData, published, dequeued, flushed, openings, cachedAt)
    }

    ghost function Value(): Rabbit
      reads this
    {
      Rabbit(Tracks(), Sending(), sendQueue)
    }

    constructor (mode: UserMode)
      ensures userMode == mode && Value() == Fresh(mode)
    {
      userMode := mode;
      trackTalkMap, startRequests, stopRequests, startedEvents, stoppedEvents := map[], [], [], [], [];
      routines := map[0 := Tracker(SPECIAL_ALL, Spawned, false), 1 := Tracker(SpecialTalk(mode), Spawned, false)];
      gens := [SPECIAL_ALL, SpecialTalk(mode)];
      sendQueue, channelOpen, cachedSendData, published := [], false, [], [];
      dequeued, flushed, openings, cachedAt := [], 0, 0, [];
    }

    method SendData(data: Option<MqData>) returns (ok: bool)
      modifies this`sendQueue
      ensures ok == (data.Some? && |old(sendQueue)| < SEND_CAPACITY)
      ensures Value() == if data.Some? then Offer(old(Value()), data.value) else old(Value())
    {
      ok := data.Some? && |sendQueue| < SEND_CAPACITY;
      if ok {
        sendQueue := sendQueue + [data.value];
      }
    }

    method AddTrackTalk(t: TalkId) returns (ok: bool)
      modifies this`startRequests
      ensures ok == (t != "" && |old(startRequests)| < TRACK_CAPACITY)
      ensures Value() == old(Value()).(tracks := Trackers.AddTrackTalk(old(Tracks()), t))
    {
      ok := t != "" && |startRequests| < TRACK_CAPACITY;
      if ok {
        startRequests := startRequests + [t];
      }
    }

    method RemoveTrackTalk(t: TalkId)
      modifies this`stopRequests
      ensures Value() == old(Value()).(tracks := Trackers.RemoveTrackTalk(old(Tracks()), t))
    {
      if t != "" && |stopRequests| < TRACK_CAPACITY {
        stopRequests := stopRequests + [t];
      }
    }

    method CancelRoutine(cancel: Option<nat>)
      modifies this`routines
      ensures routines == Cancel(old(routines), cancel)
    {
      if cancel.Some? && cancel.value in routines {
        routines := routines[cancel.value := routines[cancel.value].(cancelled := true)];
      }
    }

    method OnStartRequest()
      modifies this
      ensures Value() == MainStep(old(Value()), PickStart)
    {
      if startRequests == [] {
        return;
      }
      var t := startRequests[0];
      startRequests := startRequests[1..];
      if t in trackTalkMap {
        return;
      }
      trackTalkMap := trackTalkMap[t := None];
      routines := routines[|gens| := Tracker(t, Spawned, false)];
      gens := gens + [t];
    }

    method OnStopRequest()
      modifies this
      ensures Value() == MainStep(old(Value()), PickStop)
    {
      if stopRequests == [] {
        return;
      }
      var t := stopRequests[0];
      stopRequests := stopRequests[1..];
      if t in trackTalkMap {
        CancelRoutine(trackTalkMap[t]);
      }
    }

    method OnStartedEvent()
      modifies this
      ensures Value() == MainStep(old(Value()), PickStarted)
    {
      if startedEvents == [] {
        return;
      }
      var d := startedEvents[0];
      startedEvents := startedEvents[1..];
      if d.talkId in trackTalkMap {
        trackTalkMap := trackTalkMap[d.talkId := Some(d.gen)];
      }
    }

    method OnStoppedEvent()
      modifies this
      ensures Value() == MainStep(old(Value()), PickStopped)
    {
      if stoppedEvents == [] {
        return;
      }
      var t := stoppedEvents[0];
      stoppedEvents := stoppedEvents[1..];
      if t in trackTalkMap {
        CancelRoutine(trackTalkMap[t]);
        trackTalkMap := trackTalkMap - {t};
      }
    }

    method OnSend(fails: bool)
      modifies this
      ensures Value() == MainStep(old(Value()), PickSend(fails))
    {
      if sendQueue == [] {
        return;
      }
      var d := sendQueue[0];
      sendQueue := sendQueue[1..];
      dequeued := dequeued + [d];
      if !channelOpen {
        cachedSendData := cachedSendData + [d];
        cachedAt := cachedAt + [openings];
        return;
      }
      var channelId := d.channelId;
      if channelId == "" {
        channelId := d.talkId;
      }
      if !fails {
        published := published + [Publication(ExchangeName(channelId), d)];
      }
    }

    /** Publishes the cache in order; what it holds stays in it. */
    method PublishCache(failing: set<nat>)
      modifies this`published
      ensures published == old(published) + Flush(cachedSendData, failing)
    {
      assert cachedSendData[..0] == [];
      for i := 0 to |cachedSendData|
        invariant published == old(published) + Flush(cachedSendData[..i], failing)
      {
        assert cachedSendData[..i + 1][..i] == cachedSendData[..i];
        if i !in failing {
          published := published + [Publication(ExchangeName(cachedSendData[i].talkId), cachedSendData[i])];
        }
      }
      assert cachedSendData[..|cachedSendData|] == cachedSendData;
    }

    method OnTicker(connected: bool, opens: bool, failing: set<nat>)
      modifies this
      ensures Value() == MainStep(old(Value()), PickTicker(connected, opens, failing))
    {
      if channelOpen || !connected || !opens {
        return;
      }
      channelOpen := true;
      PublishCache(failing);
      flushed, openings := |cachedSendData|, openings + 1;
    }

    /** The channel broke, or a new connection was dialled. */
    method CloseChannel()
      modifies this`channelOpen
      ensures Value() == old(Value()).(sending := Break(old(Sending())))
    {
      channelOpen := false;
    }

    method OnPick(p: MainPick)
      modifies this
      ensures Value() == MainStep(old(Value()), p)
    {
      match p
      case PickDialled => CloseChannel();
      case PickBroken => CloseChannel();
      case PickTicker(connected, opens, failing) => OnTicker(connected, opens, failing);
      case PickStart => OnStartRequest();
      case PickStop => OnStopRequest();
      case PickStarted => OnStartedEvent();
      case PickStopped => OnStoppedEvent();
      case PickSend(fails) => OnSend(fails);
    }

    /** The select loop, for the given picks. */
    method MainRoutine(picks: seq<MainPick>)
      modifies this
      ensures Value() == MainRun(old(Value()), picks)
    {
      assert picks[..0] == [];
      for i := 0 to |picks|
        invariant Value() == MainRun(old(Value()), picks[..i])
      {
        assert picks[..i + 1][..i] == picks[..i];
        OnPick(picks[i]);
      }
      assert picks[..|picks|] == picks;
    }

    // ---- the routine that tracks one talk ----

    method AnnounceRoutine(g: nat)
      modifies this`routines, this`startedEvents
      ensures Tracks() == Announce(old(Tracks()), g)
    {
      if g !in routines || !routines[g].phase.Spawned? {
        return;
      }
      if |startedEvents| < TRACK_CAPACITY {
        startedEvents := startedEvents + [Started(routines[g].talkId, g)];
      }
      routines := routines[g := routines[g].(phase := Tracking)];
    }

    method LeaveLoop(g: nat)
      modifies this`routines
      ensures Tracks() == Leave(old(Tracks()), g)
    {
      if g in routines && routines[g].phase.Tracking? && routines[g].cancelled {
        routines := routines[g := routines[g].(phase := Leaving)];
      }
    }

    method RetireRoutine(g: nat)
      modifies this`routines, this`stoppedEvents
      ensures Tracks() == Retire(old(Tracks()), g)
    {
      if g !in routines || !routines[g].phase.Leaving? {
        return;
      }
      if |stoppedEvents| < TRACK_CAPACITY {
        stoppedEvents := stoppedEvents + [routines[g].talkId];
      }
      routines := routines - {g};
    }
  }
}
