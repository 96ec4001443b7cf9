/** What the receive routine of one connection does with each request: a message is stored
    first and only then offered to the controller. */
module ReceiveLogic {
  import opened Defs
  import opened TalkStore
  import opened Hubs
  import opened Sides
  import opened Engine
  import opened LoopLogic

  /** A customer's request; `down` says whether storing the message fails. */
  datatype TalkRequest =
    | PostMessage(at: int, text: string, seqId: nat, down: bool)
    | CloseTalk
    | UnknownRequest

  /** The first request of a customer's stream; `down` says whether its store call fails. */
  datatype TalkStart =
    | StartCreate(id: TalkId, info: TalkInfo, down: bool)
    | StartOpen(t: TalkId, down: bool)
    | StartOther

  /** A servicer's request. A query goes through an unbuffered channel: it is refused unless
      the loop is `ready` for it. */
  datatype ServiceRequest =
    | PostServiceMessage(t: TalkId, at: int, text: string, seqId: nat, down: bool)
    | AttachTalk(t: TalkId)
    | DetachTalk(t: TalkId)
    | ReloadTalk(t: TalkId)
    | QueryAttached(ready: bool, f: Faults)
    | QueryPending(ready: bool, f: Faults)
    | UnknownServiceRequest

  /** What a routine has done: `next` numbers its messages, `on` says whether it goes on. */
  datatype Received<V> = Received(view: V, next: nat, on: bool)

  /** The talk the stream is for, if its first request is carried out. */
  function StartOf(st: Store, start: TalkStart): Option<TalkId> {
    match start
    case StartCreate(id, info, down) => if info.title == "" || down then None else Some(id)
    case StartOpen(t, down) => if down || t !in st.talks then None else Some(t)
    case StartOther => None
  }

  function NewTalk(info: TalkInfo): TalkInfo {
    info.(status := Opened, serviceID := 0)
  }

  function StartedStore(st: Store, start: TalkStart): Store {
    if StartOf(st, start).None? then st
    else
      match start
      case StartCreate(id, info, _) => InsertTalk(st, id, NewTalk(info))
      case StartOpen(t, _) => UpdateTalk(st, t, SetStatus(Opened))
      case StartOther => st
  }

  /** A customer's stream begins: its talk is made or opened, its session made, its install
      offered. */
  function CustomerStarts(v: CustomerView, q: nat, start: TalkStart): CustomerView {
    var t := StartOf(v.store, start);
    if t.None? then v
    else
      v.(store := StartedStore(v.store, start),
         hub := Join(v.hub, q, t.value),
         install := Push(v.install, REQUEST_CAPACITY, q))
  }

  function ServicerStarts(v: ServicerView, q: nat, userID: nat): ServicerView {
    v.(hub := Join(v.hub, q, userID), install := Push(v.install, REQUEST_CAPACITY, q))
  }

  function CustomerGets(r: Received<CustomerView>, q: nat, t: TalkId, request: TalkRequest): Received<CustomerView> {
    var v := r.view;
    if !r.on then r
    else
      match request
      case PostMessage(at, text, seqId, down) =>
        if down then r
        else
          var m := Msg(at, text, Sender(true, q), r.next);
          var stored := v.(store := InsertMessage(v.store, t, m));
          if |v.inbox| < MESSAGE_CAPACITY then
            Received(stored.(inbox := v.inbox + [Incoming(q, t, seqId, m)]), r.next + 1, true)
          else Received(stored, r.next + 1, false)
      case CloseTalk =>
        if |v.closes| < REQUEST_CAPACITY then r.(view := v.(closes := v.closes + [q])) else r.(on := false)
      case UnknownRequest => r
  }

  function ServicerGets(r: Received<ServicerView>, q: nat, request: ServiceRequest): Received<ServicerView> {
    var v := r.view;
    if !r.on then r
    else
      match request
      case PostServiceMessage(t, at, text, seqId, down) =>
        if down then r.(on := false)
        else
          var m := Msg(at, text, Sender(false, q), r.next);
          var stored := v.(store := InsertMessage(v.store, t, m));
          if t != "" && |v.inbox| < MESSAGE_CAPACITY then
            Received(stored.(inbox := v.inbox + [Incoming(q, t, seqId, m)]), r.next + 1, true)
          else Received(stored, r.next + 1, true)
      case AttachTalk(t) =>
        if t == "" then r else r.(view := v.(attaches := Push(v.attaches, REQUEST_CAPACITY, Request(q, t))))
      case DetachTalk(t) =>
        if t == "" then r else r.(view := v.(detaches := Push(v.detaches, REQUEST_CAPACITY, Request(q, t))))
      case ReloadTalk(t) => r.(view := v.(reloads := Push(v.reloads, REQUEST_CAPACITY, Request(q, t))))
      case QueryAttached(ready, f) => if ready then r.(view := ServicerServes(v, ServeQueryAttached(q, f)).view) else r
      case QueryPending(ready, f) => if ready then r.(view := ServicerServes(v, ServeQueryPending(q, f)).view) else r
      case UnknownServiceRequest => r
  }

  function CustomerGetsAll(r: Received<CustomerView>, q: nat, t: TalkId,
                           requests: seq<TalkRequest>): Received<CustomerView> {
    if requests == [] then r
    else CustomerGets(CustomerGetsAll(r, q, t, requests[..|requests| - 1]), q, t, requests[|requests| - 1])
  }

  function ServicerGetsAll(r: Received<ServicerView>, q: nat, requests: seq<ServiceRequest>): Received<ServicerView> {
    if requests == [] then r
    else ServicerGets(ServicerGetsAll(r, q, requests[..|requests| - 1]), q, requests[|requests| - 1])
  }

  lemma {:induction false} CustomerStopped(r: Received<CustomerView>, q: nat, t: TalkId, requests: seq<TalkRequest>,
                                           i: nat)
    requires i <= |requests| && !CustomerGetsAll(r, q, t, requests[..i]).on
    ensures CustomerGetsAll(r, q, t, requests) == CustomerGetsAll(r, q, t, requests[..i])
  {
    if i == |requests| {
      assert requests[..i] == requests;
    } else {
      var front := requests[..|requests| - 1];
      assert front[..i] == requests[..i];
      CustomerStopped(r, q, t, front, i);
    }
  }

  lemma {:induction false} ServicerStopped(r: Received<ServicerView>, q: nat, requests: seq<ServiceRequest>, i: nat)
    requires i <= |requests| && !ServicerGetsAll(r, q, requests[..i]).on
    ensures ServicerGetsAll(r, q, requests) == ServicerGetsAll(r, q, requests[..i])
  {
    if i == |requests| {
      assert requests[..i] == requests;
    } else {
      var front := requests[..|requests| - 1];
      assert front[..i] == requests[..i];
      ServicerStopped(r, q, front, i);
    }
  }

  // ---- the routines inside the engine ----

  function CustomerReceivedOf(e: State, q: nat): Received<CustomerView>
    requires q in e.c.conns
  {
    Received(CustomerViewOf(e), e.c.conns[q].next, e.c.conns[q].receiving)
  }

  function ServicerReceivedOf(e: State, q: nat): Received<ServicerView>
    requires q in e.s.conns
  {
    Received(ServicerViewOf(e), e.s.conns[q].next, e.s.conns[q].receiving)
  }

  lemma EngineStartsCustomers(e: State, q: nat, start: TalkStart)
    requires q != 0 && q !in e.c.conns
    requires start.StartCreate? ==> WellFormedId(start.id) && start.id !in e.store.talks
    ensures start.StartCreate? ==>
              var e' := CustomerQueuesInstall(CreateTalk(e, q, start.id, start.info, start.down), q);
              && CustomerViewOf(e') == CustomerStarts(CustomerViewOf(e), q, start)
              && e'.makers == e.makers + (if StartOf(e.store, start).Some? then {q} else {})
    ensures start.StartOpen? ==>
              var e' := CustomerQueuesInstall(OpenTalk(e, q, start.t, start.down), q);
              CustomerViewOf(e') == CustomerStarts(CustomerViewOf(e), q, start) && e'.makers == e.makers
  {
  }

  lemma EngineStartsServicers(e: State, q: nat, userID: nat)
    requires q != 0 && userID != 0 && q !in e.s.conns
    ensures var e' := ServicerQueuesInstall(ServicerConnects(e, q, userID), q);
            ServicerViewOf(e') == ServicerStarts(ServicerViewOf(e), q, userID)
  {
  }

  /** The engine stores and offers a customer's message in two steps, between which anything
      else may happen; one right after the other they are the routine's turn. */
  lemma EngineReceivesFromCustomer(e: State, q: nat, at: int, text: string, seqId: nat, down: bool)
    requires Reading(e.c, q) && e.c.hub.sess[q].key != ""
    ensures var e' := CustomerEnqueues(CustomerReceives(e, q, at, text, seqId, down), q);
            q in e'.c.conns
            && CustomerReceivedOf(e', q)
               == CustomerGets(CustomerReceivedOf(e, q), q, e.c.hub.sess[q].key, PostMessage(at, text, seqId, down))
  {
  }

  lemma EngineReceivesFromServicer(e: State, q: nat, t: TalkId, at: int, text: string, seqId: nat, down: bool)
    requires Reading(e.s, q)
    ensures var e' := ServicerEnqueues(ServicerReceives(e, q, t, at, text, seqId, down), q);
            q in e'.s.conns
            && ServicerReceivedOf(e', q)
               == ServicerGets(ServicerReceivedOf(e, q), q, PostServiceMessage(t, at, text, seqId, down))
  {
  }

  lemma EngineTakesRequests(e: State, q: nat, t: TalkId)
    requires Reading(e.s, q)
    ensures var a := ServicerRequests(e, q, t, AttachRequest);
            q in a.s.conns && ServicerReceivedOf(a, q) == ServicerGets(ServicerReceivedOf(e, q), q, AttachTalk(t))
    ensures var d := ServicerRequests(e, q, t, DetachRequest);
            q in d.s.conns && ServicerReceivedOf(d, q) == ServicerGets(ServicerReceivedOf(e, q), q, DetachTalk(t))
    ensures var l := ServicerRequests(e, q, t, ReloadRequest);
            q in l.s.conns && ServicerReceivedOf(l, q) == ServicerGets(ServicerReceivedOf(e, q), q, ReloadTalk(t))
  {
  }

  /** The engine's loop takes a query between two calls on the bus. */
  lemma EngineTakesQueries(e: State, q: nat, f: Faults)
    requires Reading(e.s, q)
    ensures var a := HandleQueryAttached(e, q, f);
            && q in a.s.conns
            && ServicerReceivedOf(a, q) == ServicerGets(ServicerReceivedOf(e, q), q, QueryAttached(e.sMid == [], f))
    ensures var p := HandleQueryPending(e, q, f);
            && q in p.s.conns
            && ServicerReceivedOf(p, q) == ServicerGets(ServicerReceivedOf(e, q), q, QueryPending(e.sMid == [], f))
  {
  }

  lemma EngineTakesCloses(e: State, q: nat)
    requires Reading(e.c, q)
    ensures var e' := CustomerRequestsClose(e, q);
            q in e'.c.conns
            && CustomerReceivedOf(e', q) == CustomerGets(CustomerReceivedOf(e, q), q, e.c.hub.sess[q].key, CloseTalk)
  {
  }
}
