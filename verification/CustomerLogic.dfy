/** What each handler of the customer message domain does to the registry and the store, and
    what it asks of the bus, as functions. */
module CustomerLogic {
  import opened Defs
  import opened TalkStore
  import opened Hubs

  type CustomerHub = Hub<TalkId, TalkResponse>

  datatype Outcome = Outcome(hub: CustomerHub, store: Store, call: Option<BusCall>)

  const SEND_FAILED := TalkResponse.KickOut("sendMessageFailed")

  /** The install's lookup finds the talk. */
  predicate Found(st: Store, t: TalkId, f: Faults) {
    !f.read && (t == "" || WellFormedId(t)) && Lookup(st, t).Some?
  }

  /** The talk is found and tracked, so a session may be registered for it. */
  predicate Installable(st: Store, t: TalkId, f: Faults) {
    Found(st, t, f) && !f.track
  }

  function Refusal(st: Store, t: TalkId, f: Faults): (kick: TalkResponse)
    ensures kick.KickOut?
  {
    if Found(st, t, f) then TalkResponse.KickOut("AddTrackTalkFailed:")
    else if f.read || (t != "" && !WellFormedId(t)) then TalkResponse.KickOut("TalkNotExists:")
    else TalkResponse.KickOut("TalkNotExists")
  }

  /** Registers the session unless its talk cannot be found or tracked, and announces a new
      talk. */
  function InstallCustomer(h: CustomerHub, st: Store, q: nat, maker: bool, f: Faults): Outcome
    requires q in h.sess
  {
    var t := h.sess[q].key;
    if Installable(st, t, f) then Outcome(Enter(h, q), st, if maker then Some(SendTalkCreate(t)) else None)
    else Outcome(SendTo(h, q, Refusal(st, t, f)), st, None)
  }

  /** Every uninstall stops the tracking of its talk, so those who stay lose it; somebody stays
      exactly when the talk has another session. */
  lemma OthersLoseTrackingIff(h: CustomerHub, q: nat)
    requires q in h.sess && h.sess[q].key in h.reg
    ensures h.sess[q].key in Leave(h, q).reg <==> exists o :: o in h.reg[h.sess[q].key] && o != q
  {
    var inner := h.reg[h.sess[q].key];
    if o :| o in inner && o != q {
      assert o in inner - {q};
    }
  }

  /** Confirms a persisted message to its sender and puts it on the bus. */
  function CustomerMessageIncoming(h: CustomerHub, st: Store, q: nat, seqId: nat, m: Msg, drained: bool): Outcome
    requires q in h.sess
  {
    var t := h.sess[q].key;
    var confirmed := ConfirmOrDrop(h, q, TalkResponse.MessageConfirmed(seqId, m.at), SEND_FAILED, drained);
    Outcome(Prune(confirmed, t), st, Some(SendMessage(t, m)))
  }

  function CustomerClose(h: CustomerHub, st: Store, q: nat, f: Faults): Outcome
    requires q in h.sess
  {
    var t := h.sess[q].key;
    if f.write || t !in st.talks then Outcome(h, st, None)
    else Outcome(h, UpdateTalk(st, t, SetStatus(Closed)), Some(SendTalkClose(t)))
  }

  function TaskResponse(task: CustomerTask): TalkResponse {
    match task
    case CastMessage(t, m) => TalkResponse.Message(m)
    case CastClose(t) => TalkResponse.Close
  }

  /** A posted closure: one broadcast to the sessions of its talk. */
  function RunTask(h: CustomerHub, task: CustomerTask, late: set<nat>): CustomerHub {
    CastKey(h, task.talkId, {0}, TaskResponse(task), SEND_FAILED, late)
  }

  function HistoryResponse(t: TalkId, read: seq<Msg>): TalkResponse {
    TalkResponse.Messages(t, read)
  }
}
