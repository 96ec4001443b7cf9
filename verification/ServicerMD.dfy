/** The servicer message domain, updating its registry and its store in place; each handler is
    proved to do what its function in ServicerLogic says. */
module ServicerMD {
  import opened Defs
  import opened TalkStore
  import opened Hubs
  import opened Sessions
  import opened Registries
  import opened TalkModel
  import opened ServicerLogic

  class Domain {
    const registry: Registry<nat, ServiceResponse>
    const m: Model
    var calls: seq<BusCall>     // what the bus has been asked to send
    var tracks: seq<TrackCall>  // what the bus has been asked to track

    constructor (registry: Registry<nat, ServiceResponse>, m: Model)
      ensures this.registry == registry && this.m == m && calls == [] && tracks == []
    {
      this.registry, this.m, calls, tracks := registry, m, [], [];
    }

    ghost predicate Valid()
      reads this, m, registry, registry.all
    {
      registry.Valid() && m.Valid()
    }

    ghost predicate Knows(s: Session<nat, ServiceResponse>)
      reads this, registry
    {
      s.uniqueID in registry.pool && registry.pool[s.uniqueID] == s
    }

    /** The registry, the store and the calls made since the given point. */
    ghost predicate Did(o: Outcome, before: seq<BusCall>)
      requires Valid()
      reads this, m, registry, registry.all
    {
      && registry.Value() == o.hub && m.Value() == o.store
      && calls == before + (if o.call.Some? then [o.call.value] else [])
    }

    /** Collects the messages of each listed talk. */
    method CollectMessages(talks: seq<Talk>, failing: set<TalkId>) returns (r: seq<TalkAndMessages>)
      requires Valid()
      ensures r == ServicerLogic.WithMessages(m.Value(), talks, failing)
    {
      r := [];
      for i := 0 to |talks|
        invariant r == ServicerLogic.WithMessages(m.Value(), talks, failing)[..i]
      {
        var messages := m.GetTalkMessages(talks[i].id, 0, 0, talks[i].id in failing);
        r := r + [TalkAndMessages(Card(talks[i]), if messages.Some? then messages.value else [])];
      }
    }

    method SendAttachedTalks(s: Session<nat, ServiceResponse>, f: Faults) returns (talkIds: seq<TalkId>)
      requires Valid() && Knows(s)
      modifies s
      ensures Valid()
      ensures registry.Value() == ServicerLogic.AttachedTalks(old(registry.Value()), m.Value(), s.uniqueID, f)
      ensures talkIds == ListedIds(m.Value(), s.key, f)
    {
      var talks := m.GetServicerTalkInfos(s.key, f.read);
      if talks.None? {
        return [];
      }
      var list := CollectMessages(talks.value, f.messages);
      var _ := registry.SendTo(s, Talks(list));
      return IdsOf(talks.value);
    }

    method SendPendingTalks(s: Session<nat, ServiceResponse>, failed: bool)
      requires Valid() && Knows(s)
      modifies s
      ensures Valid()
      ensures registry.Value() == ServicerLogic.PendingList(old(registry.Value()), m.Value(), s.uniqueID, failed)
    {
      var talks := m.GetPendingTalkInfos(failed);
      if talks.None? {
        return;
      }
      var _ := registry.SendTo(s, PendingTalks(Cards(talks.value)));
    }

    /** Asks for each listed talk; a refusal is ignored. */
    method TrackAll(talkIds: seq<TalkId>)
      modifies this`tracks
      ensures tracks == old(tracks) + AddTracks(talkIds)
    {
      for i := 0 to |talkIds|
        invariant tracks == old(tracks) + AddTracks(talkIds)[..i]
      {
        tracks := tracks + [AddTrack(talkIds[i])];
      }
    }

    method UntrackAll(talks: seq<Talk>)
      modifies this`tracks
      ensures tracks == old(tracks) + RemoveTracks(IdsOf(talks))
    {
      for i := 0 to |talks|
        invariant tracks == old(tracks) + RemoveTracks(IdsOf(talks))[..i]
      {
        tracks := tracks + [RemoveTrack(talks[i].id)];
      }
    }

    method SendAndTrackTalks(s: Session<nat, ServiceResponse>, f: Faults)
      requires Valid() && Knows(s)
      modifies this`tracks, s
      ensures Valid()
      ensures registry.Value() == ServicerLogic.AttachedTalks(old(registry.Value()), m.Value(), s.uniqueID, f)
      ensures tracks == old(tracks) + AddTracks(ListedIds(m.Value(), s.key, f))
    {
      var talkIds := SendAttachedTalks(s, f);
      TrackAll(talkIds);
    }

    method InstallServicer(s: Session<nat, ServiceResponse>, f: Faults)
      requires Valid() && Knows(s)
      modifies this`tracks, registry`members, s
      ensures Valid()
      ensures registry.Value() == ServicerLogic.InstallServicer(old(registry.Value()), m.Value(), s.uniqueID, f)
      ensures tracks == old(tracks) + AddTracks(ListedIds(m.Value(), s.key, f))
    {
      SendAndTrackTalks(s, f);
      SendPendingTalks(s, f.second);
      registry.Enter(s);
    }

    method UninstallServicer(s: Session<nat, ServiceResponse>, failed: bool)
      requires Valid() && Knows(s)
      modifies this`tracks, registry`members
      ensures Valid()
      ensures registry.Value() == Hubs.Leave(old(registry.Value()), s.uniqueID)
      ensures tracks == old(tracks) + UninstallTracks(old(registry.Value()), m.Value(), s.uniqueID, failed)
    {
      if s.key !in registry.members {
        return;
      }
      registry.Leave(s);
      if s.key !in registry.members {
        var talks := m.GetServicerTalkInfos(s.key, failed);
        if talks.Some? {
          UntrackAll(talks.value);
        }
      }
    }

    method ServicerAttachTalk(t: TalkId, s: Session<nat, ServiceResponse>, f: Faults)
      requires Valid() && Knows(s)
      modifies this`calls, m`talks
      ensures Valid()
      ensures Did(AttachTalk(old(registry.Value()), old(m.Value()), s.uniqueID, t, f), old(calls))
    {
      if t == "" {
        return;
      }
      var owner := m.GetTalkServicerID(t, f.read);
      if owner.None? {
        return;
      }
      if owner.value > 0 && owner.value == s.key {
        return;
      }
      var _ := m.UpdateTalkServiceID(t, s.key, f.write);
      calls := calls + [SendServicerAttach(t, s.key)];
    }

    method ServicerDetachTalk(t: TalkId, s: Session<nat, ServiceResponse>, f: Faults)
      requires Valid() && Knows(s)
      modifies this`calls, m`talks, s
      ensures Valid()
      ensures Did(DetachTalk(old(registry.Value()), old(m.Value()), s.uniqueID, t, f), old(calls))
    {
      if t == "" {
        return;
      }
      var owner := m.GetTalkServicerID(t, f.read);
      if owner.None? {
        return;
      }
      if owner.value != s.key {
        var _ := registry.SendTo(s, Notify("talkNotAttached"));
        return;
      }
      var _ := m.UpdateTalkServiceID(t, 0, f.write);
      calls := calls + [SendServicerDetach(t, s.key)];
    }

    method GetTalkInfoWithMessages(t: TalkId, infoFailed: bool, f: Faults) returns (r: Option<TalkAndMessages>)
      requires Valid()
      ensures r == TalkWithMessages(m.Value(), t, infoFailed, f)
    {
      var info := m.GetTalkInfo(t, infoFailed);
      if info.None? {
        return None;
      }
      var messages := m.GetTalkMessages(t, 0, 0, t in f.messages);
      if messages.None? {
        return None;
      }
      return Some(TalkAndMessages(Card(info.value), messages.value));
    }

    method ServicerReloadTalk(s: Session<nat, ServiceResponse>, t: TalkId, f: Faults)
      requires Valid() && Knows(s)
      modifies s
      ensures Valid()
      ensures registry.Value() == ReloadTalk(old(registry.Value()), m.Value(), s.uniqueID, t, f)
    {
      var talk := GetTalkInfoWithMessages(t, f.read, f);
      if talk.Some? {
        var _ := registry.SendTo(s, Reload(talk.value));
      }
    }

    method ServiceMessage(s: Session<nat, ServiceResponse>, t: TalkId, seqId: nat, message: Msg, f: Faults,
                          drained: bool)
      requires Valid() && Knows(s)
      modifies this`calls, registry`members, s
      ensures Valid()
      ensures Did(ServicerLogic.ServiceMessage(
                    old(registry.Value()), old(m.Value()), s.uniqueID, t, seqId, message, f, drained), old(calls))
    {
      if t == "" {
        return;
      }
      var owner := m.GetTalkServicerID(t, f.read);
      if owner.None? || owner.value != s.key {
        return;
      }
      registry.ConfirmOrDrop(s, ServiceConfirmed(seqId, message.at), MESSAGE_FAILED, drained);
      calls := calls + [SendMessage(t, message)];
    }

    /** A posted closure: broadcasts to the owner's sessions or to every session. */
    method RunTask(task: ServicerTask, f: Faults, late: set<nat>)
      requires Valid()
      modifies registry`members, registry.all
      ensures Valid()
      ensures registry.Value() == ServicerLogic.RunTask(old(registry.Value()), m.Value(), task, f, late)
    {
      match task
      case TellMessage(t, message) =>
        var owner := m.GetTalkServicerID(t, f.read);
        if owner.Some? && owner.value != 0 {
          registry.CastKey(owner.value, {0}, ServiceResponse.ServiceMessage(t, message), MESSAGE_FAILED, late);
        }
      case TellCreate(t) =>
        var info := m.GetTalkInfo(t, f.read);
        if info.Some? {
          registry.CastAll(ServiceResponse.Detach(Card(info.value), 0), SEND_FAILED, late);
        }
      case TellClose(t) =>
        registry.CastAll(ServiceClose(t), SEND_FAILED, late);
      case TellAttach(t, u) =>
        var info := m.GetTalkInfo(t, f.read);
        if info.Some? {
          registry.CastAll(ServiceResponse.Attach(Card(info.value), u), SEND_FAILED, late);
          var talk := GetTalkInfoWithMessages(t, f.second, f);
          if talk.Some? {
            registry.CastKey(u, {}, Reload(talk.value), SEND_FAILED, late);
          }
        }
      case TellDetach(talk, u) =>
        registry.CastAll(ServiceResponse.Detach(Card(talk), u), SEND_FAILED, late);
    }
  }
}
