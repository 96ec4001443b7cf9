/** The whole engine with the in-process bus, one step at a time: the two controller loops,
    the goroutines of every connection, and the posts the bus makes from loop to loop. Any
    sequence of steps is a run; a step whose guard fails leaves the state as it is. */
module Engine {
  import opened Defs
  import opened TalkStore
  import opened Hubs
  import opened Sides
  import opened AllInOne
  import CL = CustomerLogic
  import SL = ServicerLogic

  /** The routine an install starts has yet to read the messages, has read them, or ended. */
  datatype History = ToRead | ToSend(messages: seq<Msg>) | Ended

  datatype Ownership = Took(talkId: TalkId, servicerID: nat) | Gave(talkId: TalkId, servicerID: nat)

  /** What the properties look back at: the messages put on the bus, the ownership events
      sent, the talks whose creation was notified, and those that were ever not opened. */
  datatype Log = Log(bus: set<(TalkId, Msg)>, trace: seq<Ownership>, announced: set<TalkId>, closed: set<TalkId>)

  /** `cMid` and `sMid` are the callbacks a loop still has to make for the call its handler
      made on the bus; until they are made it handles nothing else. `cLost` and `sLost`
      record that a post was dropped because the queue was full. */
  datatype State = State(
    store: Store,
    c: Side<TalkId, TalkResponse>,
    cPosted: seq<CustomerTask>,
    cMid: seq<Callback>,
    cLost: bool,
    closes: seq<nat>,
    makers: set<nat>,
    history: map<nat, History>,
    s: Side<nat, ServiceResponse>,
    sPosted: seq<ServicerTask>,
    sMid: seq<Callback>,
    sLost: bool,
    attaches: seq<Request>,
    detaches: seq<Request>,
    reloads: seq<Request>,
    log: Log)

  ghost predicate Init(e: State) {
    && StoreOk(e.store)
    && e.c == Side(Hub(map[], map[]), map[], [], [], [], map[])
    && e.s == Side(Hub(map[], map[]), map[], [], [], [], map[])
    && e.cPosted == [] && e.cMid == [] && !e.cLost && e.closes == [] && e.makers == {} && e.history == map[]
    && e.sPosted == [] && e.sMid == [] && !e.sLost && e.attaches == [] && e.detaches == [] && e.reloads == []
    && e.log.bus == {} && e.log.trace == []
    && e.log.announced == e.store.talks.Keys
    && (forall t | t in e.store.talks :: t in e.log.closed || e.store.talks[t].status == Opened)
  }

  // ---- the bus ----

  function Note(log: Log, call: Option<BusCall>): Log {
    match call
    case Some(SendMessage(t, m)) => log.(bus := log.bus + {(t, m)})
    case Some(SendServicerAttach(t, u)) => log.(trace := log.trace + [Took(t, u)])
    case Some(SendServicerDetach(t, u)) => log.(trace := log.trace + [Gave(t, u)])
    case _ => log
  }

  function CallbacksOf(call: Option<BusCall>): seq<Callback> {
    if call.Some? then Callbacks(call.value) else []
  }

  function CustomerTaskOf(b: Callback): CustomerTask
    requires ForCustomers(b)
  {
    match b
    case CustomerOnMessage(t, m) => CastMessage(t, m)
    case CustomerOnClose(t) => CastClose(t)
  }

  /** The closure a servicer callback posts; a detach reads the talk first and may fail. */
  function ServicerTaskOf(b: Callback, st: Store, down: bool): Option<ServicerTask>
    requires !ForCustomers(b)
  {
    match b
    case ServicerOnMessage(t, m) => Some(TellMessage(t, m))
    case ServicerOnCreate(t) => Some(TellCreate(t))
    case ServicerOnClose(t) => Some(TellClose(t))
    case ServicerOnAttach(t, u) => Some(TellAttach(t, u))
    case ServicerOnDetach(t, u) =>
      if down || Lookup(st, t).None? then None else Some(TellDetach(Lookup(st, t).value, u))
  }

  /** One callback: a post into the queue of the loop it is for, dropped when that is full. */
  function Deliver(e: State, b: Callback, down: bool): State {
    if ForCustomers(b) then
      e.(cPosted := Push(e.cPosted, MESSAGE_CAPACITY, CustomerTaskOf(b)),
         cLost := e.cLost || |e.cPosted| >= MESSAGE_CAPACITY)
    else
      var task := ServicerTaskOf(b, e.store, down);
      if task.None? then e
      else
        e.(sPosted := Push(e.sPosted, MESSAGE_CAPACITY, task.value),
           sLost := e.sLost || |e.sPosted| >= MESSAGE_CAPACITY,
           log := if b.ServicerOnCreate? then e.log.(announced := e.log.announced + {b.talkId}) else e.log)
  }

  // ---- steps of customer connections ----

  function CreateTalk(e: State, q: nat, t: TalkId, info: TalkInfo, down: bool): State {
    if q == 0 || q in e.c.conns || down || !WellFormedId(t) || t in e.store.talks || info.title == "" then e
    else
      e.(store := InsertTalk(e.store, t, info.(status := Opened, serviceID := 0)),
         c := Connect(e.c, q, t),
         makers := e.makers + {q})
  }

  function OpenTalk(e: State, q: nat, t: TalkId, down: bool): State {
    if q == 0 || q in e.c.conns || down || t !in e.store.talks then e
    else
      e.(store := UpdateTalk(e.store, t, SetStatus(Opened)),
         c := Connect(e.c, q, t))
  }

  function CustomerReceives(e: State, q: nat, at: int, text: string, seqId: nat, down: bool): State {
    if !Reading(e.c, q) || down then e
    else
      var t := e.c.hub.sess[q].key;
      var m := Msg(at, text, Sender(true, q), e.c.conns[q].next);
      e.(store := InsertMessage(e.store, t, m), c := Hold(e.c, q, Incoming(q, t, seqId, m)))
  }

  function CustomerRequestsClose(e: State, q: nat): State {
    if !Reading(e.c, q) then e
    else if |e.closes| < REQUEST_CAPACITY then e.(closes := e.closes + [q])
    else e.(c := StopReceiving(e.c, q))
  }

  function HistoryRead(e: State, q: nat, down: bool): State {
    if q !in e.history || !e.history[q].ToRead? || q !in e.c.hub.sess then e
    else if down then e.(history := e.history[q := Ended])
    else e.(history := e.history[q := ToSend(MessagesOf(e.store, e.c.hub.sess[q].key))])
  }

  function HistorySent(e: State, q: nat): State {
    if q !in e.history || !e.history[q].ToSend? || q !in e.c.hub.sess then e
    else
      e.(history := e.history[q := Ended],
         c := e.c.(hub := SendTo(e.c.hub, q, CL.HistoryResponse(e.c.hub.sess[q].key, e.history[q].messages))))
  }

  function CustomerQueuesInstall(e: State, q: nat): State {
    if q in e.c.conns then e.(c := QueueInstall(e.c, q)) else e
  }

  function CustomerEnqueues(e: State, q: nat): State {
    if q in e.c.conns && e.c.conns[q].held.Some? then e.(c := Enqueue(e.c, q, true)) else e
  }

  function CustomerDrains(e: State, q: nat): State {
    if Known(e.c, q) then e.(c := Drain(e.c, q)) else e
  }

  function CustomerDeparts(e: State, q: nat): State {
    if q in e.c.conns then e.(c := Depart(e.c, q)) else e
  }

  // ---- steps of the customer loop ----

  function WithCall(e: State, o: CL.Outcome): State {
    e.(store := o.store, c := e.c.(hub := o.hub), cMid := CallbacksOf(o.call), log := Note(e.log, o.call))
  }

  function HandleCustomerInstall(e: State, f: Faults): State {
    if e.cMid != [] || e.c.install == [] || e.c.install[0] !in e.c.hub.sess then e
    else
      var q := e.c.install[0];
      var o := CL.InstallCustomer(e.c.hub, e.store, q, q in e.makers, f);
      var e' := WithCall(e.(c := TakeInstall(e.c)), o);
      if CL.Installable(e.store, e.c.hub.sess[q].key, f) then e'.(history := e.history[q := ToRead]) else e'
  }

  function HandleCustomerUninstall(e: State): State {
    if e.cMid != [] || e.c.uninstall == [] then e else e.(c := HandleUninstall(e.c))
  }

  function HandleCustomerMessage(e: State, drained: bool): State {
    if e.cMid != [] || e.c.inbox == [] || e.c.inbox[0].conn !in e.c.hub.sess then e
    else
      var d := e.c.inbox[0];
      WithCall(e.(c := e.c.(inbox := e.c.inbox[1..])),
               CL.CustomerMessageIncoming(e.c.hub, e.store, d.conn, d.seqId, d.message, drained))
  }

  function HandleCustomerClose(e: State, f: Faults): State {
    if e.cMid != [] || e.closes == [] || e.closes[0] !in e.c.hub.sess then e
    else
      var o := CL.CustomerClose(e.c.hub, e.store, e.closes[0], f);
      var e' := WithCall(e.(closes := e.closes[1..]), o);
      if o.call.Some? then e'.(log := e'.log.(closed := e'.log.closed + {e.c.hub.sess[e.closes[0]].key})) else e'
  }

  function RunCustomerTask(e: State, late: set<nat>): State {
    if e.cMid != [] || e.cPosted == [] then e
    else e.(cPosted := e.cPosted[1..], c := e.c.(hub := CL.RunTask(e.c.hub, e.cPosted[0], late)))
  }

  function CustomerLoopCalls(e: State, down: bool): State {
    if e.cMid == [] then e else Deliver(e.(cMid := e.cMid[1..]), e.cMid[0], down)
  }

  // ---- steps of servicer connections ----

  function ServicerConnects(e: State, q: nat, userID: nat): State {
    if q == 0 || userID == 0 || q in e.s.conns then e else e.(s := Connect(e.s, q, userID))
  }

  function ServicerReceives(e: State, q: nat, t: TalkId, at: int, text: string, seqId: nat, down: bool): State {
    if !Reading(e.s, q) then e
    else if down then e.(s := StopReceiving(e.s, q))
    else
      var m := Msg(at, text, Sender(false, q), e.s.conns[q].next);
      e.(store := InsertMessage(e.store, t, m), s := Hold(e.s, q, Incoming(q, t, seqId, m)))
  }

  datatype RequestKind = AttachRequest | DetachRequest | ReloadRequest

  /** A refused request is only logged. */
  function ServicerRequests(e: State, q: nat, t: TalkId, kind: RequestKind): State {
    if !Reading(e.s, q) || (t == "" && kind != ReloadRequest) then e
    else
      match kind
      case AttachRequest => e.(attaches := Push(e.attaches, REQUEST_CAPACITY, Request(q, t)))
      case DetachRequest => e.(detaches := Push(e.detaches, REQUEST_CAPACITY, Request(q, t)))
      case ReloadRequest => e.(reloads := Push(e.reloads, REQUEST_CAPACITY, Request(q, t)))
  }

  function ServicerQueuesInstall(e: State, q: nat): State {
    if q in e.s.conns then e.(s := QueueInstall(e.s, q)) else e
  }

  function ServicerEnqueues(e: State, q: nat): State {
    if q in e.s.conns && e.s.conns[q].held.Some? then e.(s := Enqueue(e.s, q, false)) else e
  }

  function ServicerDrains(e: State, q: nat): State {
    if Known(e.s, q) then e.(s := Drain(e.s, q)) else e
  }

  function ServicerDeparts(e: State, q: nat): State {
    if q in e.s.conns then e.(s := Depart(e.s, q)) else e
  }

  // ---- steps of the servicer loop ----

  function WithServicerHub(e: State, h: Hub<nat, ServiceResponse>): State {
    e.(s := e.s.(hub := h))
  }

  function WithServicerCall(e: State, o: SL.Outcome): State {
    WithServicerHub(e, o.hub).(store := o.store, sMid := CallbacksOf(o.call), log := Note(e.log, o.call))
  }

  function HandleServicerInstall(e: State, f: Faults): State {
    if e.sMid != [] || e.s.install == [] || e.s.install[0] !in e.s.hub.sess then e
    else
      WithServicerHub(e.(s := TakeInstall(e.s)), SL.InstallServicer(e.s.hub, e.store, e.s.install[0], f))
  }

  function HandleServicerUninstall(e: State): State {
    if e.sMid != [] || e.s.uninstall == [] then e else e.(s := HandleUninstall(e.s))
  }

  function HandleAttach(e: State, f: Faults): State {
    if e.sMid != [] || e.attaches == [] || e.attaches[0].conn !in e.s.hub.sess then e
    else
      WithServicerCall(e.(attaches := e.attaches[1..]),
                       SL.AttachTalk(e.s.hub, e.store, e.attaches[0].conn, e.attaches[0].talkId, f))
  }

  function HandleDetach(e: State, f: Faults): State {
    if e.sMid != [] || e.detaches == [] || e.detaches[0].conn !in e.s.hub.sess then e
    else
      WithServicerCall(e.(detaches := e.detaches[1..]),
                       SL.DetachTalk(e.s.hub, e.store, e.detaches[0].conn, e.detaches[0].talkId, f))
  }

  function HandleReload(e: State, f: Faults): State {
    if e.sMid != [] || e.reloads == [] || e.reloads[0].conn !in e.s.hub.sess then e
    else
      WithServicerHub(e.(reloads := e.reloads[1..]),
                      SL.ReloadTalk(e.s.hub, e.store, e.reloads[0].conn, e.reloads[0].talkId, f))
  }

  /** The two query channels are unbuffered: a query is handled at once or refused. */
  function HandleQueryAttached(e: State, q: nat, f: Faults): State {
    if e.sMid != [] || !Reading(e.s, q) then e
    else WithServicerHub(e, SL.AttachedTalks(e.s.hub, e.store, q, f))
  }

  function HandleQueryPending(e: State, q: nat, f: Faults): State {
    if e.sMid != [] || !Reading(e.s, q) then e
    else WithServicerHub(e, SL.PendingList(e.s.hub, e.store, q, f.read))
  }

  function HandleServicerMessage(e: State, f: Faults, drained: bool): State {
    if e.sMid != [] || e.s.inbox == [] || e.s.inbox[0].conn !in e.s.hub.sess then e
    else
      var d := e.s.inbox[0];
      WithServicerCall(e.(s := e.s.(inbox := e.s.inbox[1..])),
                       SL.ServiceMessage(e.s.hub, e.store, d.conn, d.talkId, d.seqId, d.message, f, drained))
  }

  function RunServicerTask(e: State, f: Faults, late: set<nat>): State {
    if e.sMid != [] || e.sPosted == [] then e
    else
      WithServicerHub(e.(sPosted := e.sPosted[1..]), SL.RunTask(e.s.hub, e.store, e.sPosted[0], f, late))
  }

  function ServicerLoopCalls(e: State, down: bool): State {
    if e.sMid == [] then e else Deliver(e.(sMid := e.sMid[1..]), e.sMid[0], down)
  }

  // ---- runs ----

  /** What the goroutines of a customer's connection do. */
  datatype CustomerAct =
    | Creates(t: TalkId, info: TalkInfo, down: bool)
    | Opens(t: TalkId, down: bool)
    | QueuesInstall
    | Receives(at: int, text: string, seqId: nat, down: bool)
    | Enqueues
    | RequestsClose
    | ReadsHistory(down: bool)
    | SendsHistory
    | Drains
    | Departs

  function CustomerActs(e: State, q: nat, a: CustomerAct): State {
    match a
    case Creates(t, info, down) => CreateTalk(e, q, t, info, down)
    case Opens(t, down) => OpenTalk(e, q, t, down)
    case QueuesInstall => CustomerQueuesInstall(e, q)
    case Receives(at, text, seqId, down) => CustomerReceives(e, q, at, text, seqId, down)
    case Enqueues => CustomerEnqueues(e, q)
    case RequestsClose => CustomerRequestsClose(e, q)
    case ReadsHistory(down) => HistoryRead(e, q, down)
    case SendsHistory => HistorySent(e, q)
    case Drains => CustomerDrains(e, q)
    case Departs => CustomerDeparts(e, q)
  }

  /** What the customer loop selects: a channel to handle the head of, or the next callback
      of the bus call it is making. */
  datatype CustomerPick =
    | PickInstall(f: Faults)
    | PickUninstall
    | PickMessage(drained: bool)
    | PickClose(f: Faults)
    | PickRunner(late: set<nat>)
    | PickCall(down: bool)

  function CustomerLoop(e: State, p: CustomerPick): State {
    match p
    case PickInstall(f) => HandleCustomerInstall(e, f)
    case PickUninstall => HandleCustomerUninstall(e)
    case PickMessage(drained) => HandleCustomerMessage(e, drained)
    case PickClose(f) => HandleCustomerClose(e, f)
    case PickRunner(late) => RunCustomerTask(e, late)
    case PickCall(down) => CustomerLoopCalls(e, down)
  }

  /** What the goroutines of a servicer's connection do. */
  datatype ServicerAct =
    | ServicerConnect(userID: nat)
    | ServicerQueue
    | ServicerReceive(t: TalkId, at: int, text: string, seqId: nat, down: bool)
    | ServicerEnqueue
    | ServicerRequest(t: TalkId, kind: RequestKind)
    | ServicerDrain
    | ServicerDepart

  function ServicerActs(e: State, q: nat, a: ServicerAct): State {
    match a
    case ServicerConnect(u) => ServicerConnects(e, q, u)
    case ServicerQueue => ServicerQueuesInstall(e, q)
    case ServicerReceive(t, at, text, seqId, down) => ServicerReceives(e, q, t, at, text, seqId, down)
    case ServicerEnqueue => ServicerEnqueues(e, q)
    case ServicerRequest(t, kind) => ServicerRequests(e, q, t, kind)
    case ServicerDrain => ServicerDrains(e, q)
    case ServicerDepart => ServicerDeparts(e, q)
  }

  /** What the servicer loop selects. */
  datatype ServicerPick =
    | ServeInstall(f: Faults)
    | ServeUninstall
    | ServeAttach(f: Faults)
    | ServeDetach(f: Faults)
    | ServeReload(f: Faults)
    | ServeQueryAttached(q: nat, f: Faults)
    | ServeQueryPending(q: nat, f: Faults)
    | ServeMessage(f: Faults, drained: bool)
    | ServeRunner(f: Faults, late: set<nat>)
    | ServeCall(down: bool)

  function ServicerLoop(e: State, p: ServicerPick): State {
    match p
    case ServeInstall(f) => HandleServicerInstall(e, f)
    case ServeUninstall => HandleServicerUninstall(e)
    case ServeAttach(f) => HandleAttach(e, f)
    case ServeDetach(f) => HandleDetach(e, f)
    case ServeReload(f) => HandleReload(e, f)
    case ServeQueryAttached(q, f) => HandleQueryAttached(e, q, f)
    case ServeQueryPending(q, f) => HandleQueryPending(e, q, f)
    case ServeMessage(f, drained) => HandleServicerMessage(e, f, drained)
    case ServeRunner(f, late) => RunServicerTask(e, f, late)
    case ServeCall(down) => ServicerLoopCalls(e, down)
  }

  datatype Step =
    | CustomerStep(q: nat, customerAct: CustomerAct)
    | CustomerLoopStep(customerPick: CustomerPick)
    | ServicerStep(q: nat, servicerAct: ServicerAct)
    | ServicerLoopStep(servicerPick: ServicerPick)

  function Next(e: State, a: Step): State {
    match a
    case CustomerStep(q, act) => CustomerActs(e, q, act)
    case CustomerLoopStep(pick) => CustomerLoop(e, pick)
    case ServicerStep(q, act) => ServicerActs(e, q, act)
    case ServicerLoopStep(pick) => ServicerLoop(e, pick)
  }

  /** The state after a run. */
  function Run(e: State, steps: seq<Step>): State {
    if steps == [] then e else Next(Run(e, steps[..|steps| - 1]), steps[|steps| - 1])
  }
}
