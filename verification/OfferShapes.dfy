/** What every step offers to a customer's session, and what the steps of a run offered to a
    session of either side, one after the other. */
module OfferShapes {
  import opened Defs
  import opened TalkStore
  import opened Hubs
  import opened Sides
  import opened Engine
  import opened SendShapes
  import opened QueueShapes
  import CL = CustomerLogic
  import SL = ServicerLogic

  type CustomerSess = Sess<TalkId, TalkResponse>

  /** Sessions are of stored talks. */
  ghost predicate KeysStored(e: State) {
    forall q | q in e.c.hub.sess :: e.c.hub.sess[q].key in e.store.talks && WellFormedId(e.c.hub.sess[q].key)
  }

  /** The session was offered the responses rs: nothing arrived but those and kick-outs in
      their place, and unless something was missed, now if the queue had no room for all of
      rs, exactly rs arrived. */
  ghost predicate Offered(s: CustomerSess, s': CustomerSess, rs: seq<TalkResponse>) {
    && s'.key == s.key && s.sent <= s'.sent && (s'.missed <==> s.missed || Overflows(s, |rs|))
    && (forall i | |s.sent| <= i < |s'.sent| :: s'.sent[i] in rs || s'.sent[i] == CL.SEND_FAILED)
    && (!s'.missed ==> s'.sent == s.sent + rs)
    && |s'.sent| <= |s.sent| + |rs|
  }

  /** An install that cannot be granted tells why. */
  function RefusalSends(st: Store, t: TalkId, f: Faults): seq<TalkResponse> {
    if f.read then [TalkResponse.KickOut("TalkNotExists:")]
    else if t !in st.talks then [TalkResponse.KickOut("TalkNotExists")]
    else if f.track then [TalkResponse.KickOut("AddTrackTalkFailed:")]
    else []
  }

  function ClosureSends(task: CustomerTask): TalkResponse {
    match task
    case CastMessage(_, m) => TalkResponse.Message(m)
    case CastClose(_) => TalkResponse.Close
  }

  /** What a pick of the customer loop offers to session q. */
  function PickOffers(e: State, p: CustomerPick, q: nat): seq<TalkResponse>
    requires q in e.c.hub.sess
  {
    var t := e.c.hub.sess[q].key;
    if e.cMid != [] then []
    else
      match p
      case PickInstall(f) => if e.c.install == [] || e.c.install[0] != q then [] else RefusalSends(e.store, t, f)
      case PickMessage(_) =>
        if e.c.inbox == [] || e.c.inbox[0].conn != q then []
        else [TalkResponse.MessageConfirmed(e.c.inbox[0].seqId, e.c.inbox[0].message.at)]
      case PickRunner(_) =>
        if e.cPosted == [] || !Registered(e.c.hub, q) || e.cPosted[0].talkId != t then []
        else [ClosureSends(e.cPosted[0])]
      case _ => []
  }

  /** What a step offers to customer session q. */
  function CustomerOffers(e: State, a: Step, q: nat): seq<TalkResponse>
    requires q in e.c.hub.sess
  {
    match a
    case CustomerStep(x, act) =>
      if act.SendsHistory? && x == q && q in e.history && e.history[q].ToSend? then
        [TalkResponse.Messages(e.c.hub.sess[q].key, e.history[q].messages)]
      else []
    case CustomerLoopStep(p) => PickOffers(e, p, q)
    case _ => []
  }

  /** What a step offers to servicer session q. */
  function ServicerOffers(e: State, a: Step, q: nat): seq<ServiceResponse>
    requires q in e.s.hub.sess
  {
    if a.ServicerLoopStep? then Sends(e, a.servicerPick, q) else []
  }

  /** What the steps of a run offered to session q, in order. */
  function AllCustomerOffers(e: State, steps: seq<Step>, q: nat): seq<TalkResponse> {
    if steps == [] then []
    else
      var before := steps[..|steps| - 1];
      var x := Run(e, before);
      AllCustomerOffers(e, before, q)
      + (if q in x.c.hub.sess then CustomerOffers(x, steps[|steps| - 1], q) else [])
  }

  function AllServicerOffers(e: State, steps: seq<Step>, q: nat): seq<ServiceResponse> {
    if steps == [] then []
    else
      var before := steps[..|steps| - 1];
      var x := Run(e, before);
      AllServicerOffers(e, before, q)
      + (if q in x.s.hub.sess then ServicerOffers(x, steps[|steps| - 1], q) else [])
  }

  /** Some step of the run offered session q more than its queue had room for. */
  predicate CustomerOverrun(e: State, steps: seq<Step>, q: nat) {
    steps != []
    && var before := steps[..|steps| - 1];
       var x := Run(e, before);
       || CustomerOverrun(e, before, q)
       || (q in x.c.hub.sess && Overflows(x.c.hub.sess[q], |CustomerOffers(x, steps[|steps| - 1], q)|))
  }

  predicate ServicerOverrun(e: State, steps: seq<Step>, q: nat) {
    steps != []
    && var before := steps[..|steps| - 1];
       var x := Run(e, before);
       || ServicerOverrun(e, before, q)
       || (q in x.s.hub.sess && Overflows(x.s.hub.sess[q], |ServicerOffers(x, steps[|steps| - 1], q)|))
  }

  /** The stream holds what was offered: nothing else but kick-outs, and unless something was
      missed just that, in that order. */
  ghost predicate CustomerStreamIs(s: CustomerSess, offers: seq<TalkResponse>) {
    && (forall r | r in s.sent :: r in offers || r == CL.SEND_FAILED)
    && (!s.missed ==> s.sent == offers) && |s.sent| <= |offers|
  }

  /** The customer loop handles the install of session q and has no reason to refuse it. */
  predicate CustomerGranted(e: State, a: Step, q: nat) {
    && InstallTaken(e, a) == Some(q) && q in e.c.hub.sess
    && RefusalSends(e.store, e.c.hub.sess[q].key, a.customerPick.f) == []
  }

  /** Session q was granted its install in the course of a run. */
  predicate CustomerEverGranted(e: State, steps: seq<Step>, q: nat) {
    steps != []
    && var before := steps[..|steps| - 1];
       CustomerEverGranted(e, before, q) || CustomerGranted(Run(e, before), steps[|steps| - 1], q)
  }

  function HistoryOf(e: State, q: nat): Option<History> {
    if q in e.history then Some(e.history[q]) else None
  }

  /** A session's history goes one way: started by its install, read, sent, or given up when
      the read fails. */
  ghost predicate HistoryMoves(e: State, e': State, a: Step, q: nat) {
    var h, h' := HistoryOf(e, q), HistoryOf(e', q);
    if h == Some(ToRead) && a == CustomerStep(q, ReadsHistory(false)) then
      q in e.c.hub.sess && h' == Some(ToSend(MessagesOf(e.store, e.c.hub.sess[q].key)))
    else if h == Some(ToRead) && a == CustomerStep(q, ReadsHistory(true)) then h' == Some(Ended)
    else if h.Some? && h.value.ToSend? && a == CustomerStep(q, SendsHistory) then h' == Some(Ended)
    else if CustomerGranted(e, a, q) then h == None && h' == Some(ToRead)
    else h' == h
  }

  /** The histories in a stream. */
  function Histories(rs: seq<TalkResponse>): seq<TalkResponse> {
    if rs == [] then []
    else Histories(rs[..|rs| - 1]) + (if rs[|rs| - 1].Messages? then [rs[|rs| - 1]] else [])
  }

  /** One history was offered if the session's has been sent, and none before; `given` says
      that its read did not fail. What was or will be sent is the beginning of the talk's list. */
  ghost predicate ToldOnce(t: TalkId, list: seq<Msg>, h: Option<History>, told: seq<TalkResponse>, given: bool) {
    && |told| <= 1
    && (h != Some(Ended) ==> told == [])
    && (given && h == Some(Ended) ==> |told| == 1)
    && (forall r | r in told :: r.Messages? && r.talkId == t && r.messages <= list)
    && (h.Some? && h.value.ToSend? ==> h.value.messages <= list)
  }

  /** The histories told so far to session q, after these offers. */
  ghost predicate ToldTo(e: State, q: nat, offers: seq<TalkResponse>, given: bool)
    requires q in e.c.hub.sess
  {
    var t := e.c.hub.sess[q].key;
    ToldOnce(t, MessagesOf(e.store, t), HistoryOf(e, q), Histories(offers), given)
  }

  ghost predicate ServicerStreamIs(s: ServicerSess, offers: seq<ServiceResponse>) {
    && (forall r | r in s.sent :: r in offers || r == SL.MESSAGE_FAILED || r == SL.SEND_FAILED)
    && (!s.missed ==> s.sent == offers) && |s.sent| <= |offers|
  }
}
