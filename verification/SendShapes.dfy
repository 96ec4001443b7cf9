/** What each step of the servicer loop sends to one session, as a list of responses. */
module SendShapes {
  import opened Defs
  import opened TalkStore
  import opened Hubs
  import opened Sides
  import opened Engine
  import SL = ServicerLogic

  type ServicerSess = Sess<nat, ServiceResponse>

  /** What evicts a session that has no room for the responses. */
  function KickFor(rs: seq<ServiceResponse>): (kick: ServiceResponse)
    ensures kick.ServiceKickOut?
  {
    if rs != [] && (rs[0].ServiceConfirmed? || rs[0].ServiceMessage?) then SL.MESSAGE_FAILED else SL.SEND_FAILED
  }

  /** The session was offered the responses rs: nothing arrived but those and kick-outs in
      their place, and unless something was missed, now if the queue had no room for all of
      rs, exactly rs arrived. */
  ghost predicate Given(s: ServicerSess, s': ServicerSess, rs: seq<ServiceResponse>) {
    && s'.key == s.key && s.sent <= s'.sent && (s'.missed <==> s.missed || Overflows(s, |rs|))
    && (forall i | |s.sent| <= i < |s'.sent| :: s'.sent[i] in rs || s'.sent[i] == KickFor(rs))
    && (!s'.missed ==> s'.sent == s.sent + rs)
    && |s'.sent| <= |s.sent| + |rs|
  }

  function AttachedSends(st: Store, u: nat, f: Faults): seq<ServiceResponse> {
    if f.read then [] else [Talks(SL.WithMessages(st, Attached(st, u), f.messages))]
  }

  function PendingSends(st: Store, failed: bool): seq<ServiceResponse> {
    if failed then [] else [PendingTalks(SL.Cards(Pending(st)))]
  }

  function ReloadSends(st: Store, t: TalkId, infoFailed: bool, f: Faults): seq<ServiceResponse> {
    if infoFailed || Lookup(st, t).None? || t in f.messages then []
    else [Reload(TalkAndMessages(Card(Lookup(st, t).value), MessagesOf(st, t)))]
  }

  function DetachSends(st: Store, u: nat, t: TalkId, f: Faults): seq<ServiceResponse> {
    if t == "" || f.read || Lookup(st, t).None? || Lookup(st, t).value.info.serviceID == u then []
    else [Notify("talkNotAttached")]
  }

  function MessageSends(st: Store, u: nat, d: Incoming, f: Faults): seq<ServiceResponse> {
    if d.talkId == "" || f.read || Lookup(st, d.talkId).None? || Lookup(st, d.talkId).value.info.serviceID != u then []
    else [ServiceConfirmed(d.seqId, d.message.at)]
  }

  /** What a posted closure sends to a registered session of user u. */
  function TaskSends(st: Store, task: ServicerTask, f: Faults, u: nat): seq<ServiceResponse> {
    match task
    case TellMessage(t, m) =>
      if f.read || Lookup(st, t).None? || Lookup(st, t).value.info.serviceID == 0
         || Lookup(st, t).value.info.serviceID != u then []
      else [ServiceResponse.ServiceMessage(t, m)]
    case TellCreate(t) =>
      if f.read || Lookup(st, t).None? then [] else [ServiceResponse.Detach(Card(Lookup(st, t).value), 0)]
    case TellClose(t) => [ServiceClose(t)]
    case TellAttach(t, v) =>
      if f.read || Lookup(st, t).None? then []
      else
        [ServiceResponse.Attach(Card(Lookup(st, t).value), v)]
        + (if u == v then ReloadSends(st, t, f.second, f) else [])
    case TellDetach(talk, v) => [ServiceResponse.Detach(Card(talk), v)]
  }

  /** What a pick of the servicer loop sends to session q. */
  function Sends(e: State, p: ServicerPick, q: nat): seq<ServiceResponse>
    requires q in e.s.hub.sess
  {
    var u := e.s.hub.sess[q].key;
    if e.sMid != [] then []
    else
      match p
      case ServeInstall(f) =>
        if e.s.install == [] || e.s.install[0] != q then []
        else AttachedSends(e.store, u, f) + PendingSends(e.store, f.second)
      case ServeDetach(f) =>
        if e.detaches == [] || e.detaches[0].conn != q then [] else DetachSends(e.store, u, e.detaches[0].talkId, f)
      case ServeReload(f) =>
        if e.reloads == [] || e.reloads[0].conn != q then []
        else ReloadSends(e.store, e.reloads[0].talkId, f.read, f)
      case ServeQueryAttached(x, f) => if !Reading(e.s, x) || x != q then [] else AttachedSends(e.store, u, f)
      case ServeQueryPending(x, f) => if !Reading(e.s, x) || x != q then [] else PendingSends(e.store, f.read)
      case ServeMessage(f, _) =>
        if e.s.inbox == [] || e.s.inbox[0].conn != q then [] else MessageSends(e.store, u, e.s.inbox[0], f)
      case ServeRunner(f, _) =>
        if e.sPosted == [] || !Registered(e.s.hub, q) || q == 0 then [] else TaskSends(e.store, e.sPosted[0], f, u)
      case _ => []
  }

  /** The pick handles the install of session q. */
  predicate Installs(e: State, p: ServicerPick, q: nat) {
    p.ServeInstall? && e.sMid == [] && e.s.install != [] && e.s.install[0] == q && q in e.s.hub.sess
  }
}
