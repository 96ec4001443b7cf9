/** The customer message domain, updating its registry and its store in place; each handler is
    proved to do what its function in CustomerLogic says. */
module CustomerMD {
  import opened Defs
  import opened TalkStore
  import opened Hubs
  import opened Sessions
  import opened Registries
  import opened TalkModel
  import opened CustomerLogic

  class Domain {
    const registry: Registry<TalkId, TalkResponse>
    const m: Model
    var calls: seq<BusCall>     // what the bus has been asked to send
    var histories: seq<nat>     // the sessions whose history routine was started
    var tracks: seq<TrackCall>  // what the bus has been asked to track

    constructor (registry: Registry<TalkId, TalkResponse>, m: Model)
      ensures this.registry == registry && this.m == m && calls == [] && histories == []
      ensures tracks == []
    {
      this.registry, this.m, calls, histories, tracks := registry, m, [], [], [];
    }

    ghost predicate Valid()
      reads this, m, registry, registry.all
    {
      registry.Valid() && m.Valid()
    }

    ghost predicate Knows(s: Session<TalkId, TalkResponse>)
      reads this, registry
    {
      s.uniqueID in registry.pool && registry.pool[s.uniqueID] == s
    }

    /** The registry, the store and the calls made since the given point. */
    ghost predicate Did(o: Outcome, before: seq<BusCall>)
      requires Valid()
      reads this, m, registry, registry.all
    {
      && registry.Value() == o.hub && m.Value() == o.store
      && calls == before + (if o.call.Some? then [o.call.value] else [])
    }

    /** The part of an install after the checks. */
    method Admit(s: Session<TalkId, TalkResponse>, maker: bool)
      requires Valid() && Knows(s)
      modifies this`calls, this`histories, registry`members
      ensures Valid()
      ensures registry.Value() == Hubs.Enter(old(registry.Value()), s.uniqueID)
      ensures calls == old(calls) + (if maker then [SendTalkCreate(s.key)] else [])
      ensures histories == old(histories) + [s.uniqueID]
    {
      registry.Enter(s);
      if maker {
        calls := calls + [SendTalkCreate(s.key)];
      }
      histories := histories + [s.uniqueID];
    }

    /** The part of an install after the talk is found. */
    method Track(s: Session<TalkId, TalkResponse>, maker: bool, f: Faults)
      requires Valid() && Knows(s) && Found(m.Value(), s.key, f)
      modifies this, registry`members, s
      ensures Valid()
      ensures Did(CustomerLogic.InstallCustomer(old(registry.Value()), old(m.Value()), s.uniqueID, maker, f),
                  old(calls))
      ensures histories == old(histories) + (if f.track then [] else [s.uniqueID])
      ensures tracks == old(tracks) + [AddTrack(s.key)]
    {
      tracks := tracks + [AddTrack(s.key)];
      if f.track {
        var _ := registry.SendTo(s, TalkResponse.KickOut("AddTrackTalkFailed:"));
        return;
      }
      Admit(s, maker);
    }

    method InstallCustomer(s: Session<TalkId, TalkResponse>, maker: bool, f: Faults)
      requires Valid() && Knows(s)
      modifies this, registry`members, s
      ensures Valid()
      ensures Did(CustomerLogic.InstallCustomer(old(registry.Value()), old(m.Value()), s.uniqueID, maker, f),
                  old(calls))
      ensures histories == old(histories) + (if Installable(old(m.Value()), s.key, f) then [s.uniqueID] else [])
      ensures tracks == old(tracks) + (if Found(old(m.Value()), s.key, f) then [AddTrack(s.key)] else [])
    {
      var found := m.TalkExists(s.key, f.read);
      if found.None? {
        var _ := registry.SendTo(s, TalkResponse.KickOut("TalkNotExists:"));
        return;
      }
      if !found.value {
        var _ := registry.SendTo(s, TalkResponse.KickOut("TalkNotExists"));
        return;
      }
      Track(s, maker, f);
    }

    /** The routine an install starts: reads the talk's messages and offers them. */
    method SendHistory(s: Session<TalkId, TalkResponse>, down: bool)
      requires Valid() && Knows(s)
      modifies s
      ensures Valid()
      ensures registry.Value() ==
              if down then old(registry.Value())
              else SendTo(old(registry.Value()), s.uniqueID, HistoryResponse(s.key, MessagesOf(m.Value(), s.key)))
    {
      var messages := m.GetTalkMessages(s.key, 0, 0, down);
      if messages.None? {
        return;
      }
      var _ := registry.SendTo(s, HistoryResponse(s.key, messages.value));
    }

    method UninstallCustomer(s: Session<TalkId, TalkResponse>)
      requires Valid() && Knows(s)
      modifies this`tracks, registry`members
      ensures Valid()
      ensures registry.Value() == Hubs.Leave(old(registry.Value()), s.uniqueID)
      ensures tracks == old(tracks) + [RemoveTrack(s.key)]
    {
      tracks := tracks + [RemoveTrack(s.key)];
      registry.Leave(s);
    }

    method CustomerMessageIncoming(s: Session<TalkId, TalkResponse>, seqId: nat, message: Msg, drained: bool)
      requires Valid() && Knows(s)
      modifies this`calls, registry`members, s
      ensures Valid()
      ensures Did(CustomerLogic.CustomerMessageIncoming(
                    old(registry.Value()), old(m.Value()), s.uniqueID, seqId, message, drained), old(calls))
    {
      registry.ConfirmOrDrop(s, TalkResponse.MessageConfirmed(seqId, message.at), SEND_FAILED, drained);
      registry.PruneKey(s.key);
      calls := calls + [SendMessage(s.key, message)];
    }

    method CustomerClose(s: Session<TalkId, TalkResponse>, f: Faults)
      requires Valid() && Knows(s)
      modifies this`calls, m`talks
      ensures Valid()
      ensures Did(CustomerLogic.CustomerClose(old(registry.Value()), old(m.Value()), s.uniqueID, f), old(calls))
    {
      var ok := m.CloseTalk(s.key, f.write);
      if ok {
        calls := calls + [SendTalkClose(s.key)];
      }
    }

    method RunTask(task: CustomerTask, late: set<nat>)
      requires Valid()
      modifies registry`members, registry.all
      ensures Valid()
      ensures registry.Value() == CustomerLogic.RunTask(old(registry.Value()), task, late)
    {
      registry.CastKey(task.talkId, {0}, TaskResponse(task), SEND_FAILED, late);
    }
  }
}
