/** What each handler of the servicer message domain does to the registry and the store, and
    what it asks of the bus, as functions. */
module ServicerLogic {
  import opened Defs
  import opened TalkStore
  import opened Hubs

  type ServicerHub = Hub<nat, ServiceResponse>

  datatype Outcome = Outcome(hub: ServicerHub, store: Store, call: Option<BusCall>)

  const MESSAGE_FAILED := ServiceResponse.ServiceKickOut("SendMessageFailed")
  const SEND_FAILED := ServiceResponse.ServiceKickOut("SendFailed")

  function Cards(talks: seq<Talk>): (cards: seq<TalkCard>)
    ensures |cards| == |talks|
    ensures forall i | 0 <= i < |talks| :: cards[i] == Card(talks[i])
  {
    seq(|talks|, i requires 0 <= i < |talks| => Card(talks[i]))
  }

  /** The attached talks with their messages; a failing message read leaves them out. */
  function WithMessages(st: Store, talks: seq<Talk>, failing: set<TalkId>): (r: seq<TalkAndMessages>)
    ensures |r| == |talks|
    ensures forall i | 0 <= i < |talks| ::
              r[i] == TalkAndMessages(Card(talks[i]), if talks[i].id in failing then []
                                      else MessagesOf(st, talks[i].id))
  {
    seq(|talks|, i requires 0 <= i < |talks| =>
      TalkAndMessages(Card(talks[i]), if talks[i].id in failing then [] else MessagesOf(st, talks[i].id)))
  }

  function AttachedTalks(h: ServicerHub, st: Store, q: nat, f: Faults): ServicerHub
    requires q in h.sess
  {
    if f.read then h
    else SendTo(h, q, Talks(WithMessages(st, Attached(st, h.sess[q].key), f.messages)))
  }

  function IdsOf(talks: seq<Talk>): seq<TalkId> {
    seq(|talks|, i requires 0 <= i < |talks| => talks[i].id)
  }

  /** The talks a list names, whether or not the list could be sent. */
  function ListedIds(st: Store, user: nat, f: Faults): seq<TalkId> {
    if f.read then [] else IdsOf(Attached(st, user))
  }

  function AddTracks(ids: seq<TalkId>): seq<TrackCall> {
    seq(|ids|, i requires 0 <= i < |ids| => AddTrack(ids[i]))
  }

  function RemoveTracks(ids: seq<TalkId>): seq<TrackCall> {
    seq(|ids|, i requires 0 <= i < |ids| => RemoveTrack(ids[i]))
  }

  /** The last session of a user to leave stops the tracking of the user's talks. */
  function UninstallTracks(h: ServicerHub, st: Store, q: nat, failed: bool): seq<TrackCall>
    requires q in h.sess
  {
    var user := h.sess[q].key;
    if user in h.reg && user !in Leave(h, q).reg && !failed then RemoveTracks(IdsOf(Attached(st, user))) else []
  }

  function PendingList(h: ServicerHub, st: Store, q: nat, failed: bool): ServicerHub {
    if failed then h else SendTo(h, q, PendingTalks(Cards(Pending(st))))
  }

  /** Snapshots the attached and the pending talks, then registers the session. */
  function InstallServicer(h: ServicerHub, st: Store, q: nat, f: Faults): ServicerHub
    requires q in h.sess
  {
    Enter(PendingList(AttachedTalks(h, st, q, f), st, q, f.second), q)
  }

  /** Takes a talk over, whoever owned it, unless the session's user already does. */
  function AttachTalk(h: ServicerHub, st: Store, q: nat, t: TalkId, f: Faults): Outcome
    requires q in h.sess
  {
    var user := h.sess[q].key;
    if t == "" || f.read || Lookup(st, t).None? then Outcome(h, st, None)
    else
      var owner := Lookup(st, t).value.info.serviceID;
      if owner > 0 && owner == user then Outcome(h, st, None)
      else
        Outcome(h, if f.write then st else UpdateTalk(st, t, SetService(user)), Some(SendServicerAttach(t, user)))
  }

  /** Gives a talk up; anybody but its owner is told so and nothing changes. */
  function DetachTalk(h: ServicerHub, st: Store, q: nat, t: TalkId, f: Faults): Outcome
    requires q in h.sess
  {
    var user := h.sess[q].key;
    if t == "" || f.read || Lookup(st, t).None? then Outcome(h, st, None)
    else if Lookup(st, t).value.info.serviceID != user then
      Outcome(SendTo(h, q, Notify("talkNotAttached")), st, None)
    else
      Outcome(h, if f.write then st else UpdateTalk(st, t, SetService(0)), Some(SendServicerDetach(t, user)))
  }

  /** A talk with all its messages, if both reads succeed. */
  function TalkWithMessages(st: Store, t: TalkId, infoFailed: bool, f: Faults): Option<TalkAndMessages> {
    if infoFailed || Lookup(st, t).None? || t in f.messages then None
    else Some(TalkAndMessages(Card(Lookup(st, t).value), MessagesOf(st, t)))
  }

  function ReloadTalk(h: ServicerHub, st: Store, q: nat, t: TalkId, f: Faults): ServicerHub {
    var talk := TalkWithMessages(st, t, f.read, f);
    if talk.None? then h else SendTo(h, q, Reload(talk.value))
  }

  /** Releases a persisted message to the bus if its author owns the talk. */
  function ServiceMessage(h: ServicerHub, st: Store, q: nat, t: TalkId, seqId: nat, m: Msg, f: Faults, drained: bool)
    : Outcome
    requires q in h.sess
  {
    if t == "" || f.read || Lookup(st, t).None? || Lookup(st, t).value.info.serviceID != h.sess[q].key then
      Outcome(h, st, None)
    else
      Outcome(ConfirmOrDrop(h, q, ServiceConfirmed(seqId, m.at), MESSAGE_FAILED, drained), st, Some(SendMessage(t, m)))
  }

  /** A posted closure. */
  function RunTask(h: ServicerHub, st: Store, task: ServicerTask, f: Faults, late: set<nat>): ServicerHub {
    match task
    case TellMessage(t, m) =>
      if f.read || Lookup(st, t).None? || Lookup(st, t).value.info.serviceID == 0 then h
      else
        CastKey(h, Lookup(st, t).value.info.serviceID, {0}, ServiceResponse.ServiceMessage(t, m), MESSAGE_FAILED, late)
    case TellCreate(t) =>
      if f.read || Lookup(st, t).None? then h
      else CastAll(h, ServiceResponse.Detach(Card(Lookup(st, t).value), 0), SEND_FAILED, late)
    case TellClose(t) => CastAll(h, ServiceClose(t), SEND_FAILED, late)
    case TellAttach(t, u) =>
      if f.read || Lookup(st, t).None? then h
      else
        var told := CastAll(h, ServiceResponse.Attach(Card(Lookup(st, t).value), u), SEND_FAILED, late);
        var talk := TalkWithMessages(st, t, f.second, f);
        if talk.None? then told else CastKey(told, u, {}, Reload(talk.value), SEND_FAILED, late)
    case TellDetach(talk, u) => CastAll(h, ServiceResponse.Detach(Card(talk), u), SEND_FAILED, late)
  }
}
