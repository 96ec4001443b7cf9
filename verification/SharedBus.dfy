/** The message-queue bus with shared channels: one process of each mode, a broker that copies
    every publication to the queues bound to its exchange, in order and without loss, and
    the routines that turn deliveries into callbacks. */
module SharedBus {
  import opened Defs
  import opened AllInOne
  import opened Mq

  /** Which calls a side's message domain makes on the bus. */
  predicate MayCall(mode: UserMode, call: BusCall) {
    match call
    case SendMessage(_, _) => true
    case SendTalkClose(_) => mode.UserModeCustomer?
    case SendTalkCreate(_) => mode.UserModeCustomer?
    case SendServicerAttach(_, _) => mode.UserModeServicer?
    case SendServicerDetach(_, _) => mode.UserModeServicer?
  }

  /** The record a call is sent as. Messages go to the common channel only when channels are
      shared, otherwise to their talk's own. */
  function Encode(call: BusCall, shared: bool): MqData {
    match call
    case SendMessage(t, m) => MqData(t, if shared then SPECIAL_ALL else "", MessagePart(m))
    case SendTalkClose(t) => MqData(t, SPECIAL_ALL, ClosePart)
    case SendTalkCreate(t) => MqData(t, SPECIAL_SERVICER, CreatePart(t))
    case SendServicerAttach(t, u) => MqData(t, SPECIAL_SERVICER, AttachPart(u))
    case SendServicerDetach(t, u) => MqData(t, SPECIAL_SERVICER, DetachPart(u))
  }

  /** The callbacks a process makes for a delivery; only its own observer is set. */
  function Dispatch(mode: UserMode, d: MqData): seq<Callback> {
    match d.payload
    case MessagePart(m) =>
      if mode.UserModeCustomer? then [CustomerOnMessage(d.talkId, m)] else [ServicerOnMessage(d.talkId, m)]
    case ClosePart => if mode.UserModeCustomer? then [CustomerOnClose(d.talkId)] else [ServicerOnClose(d.talkId)]
    case CreatePart(_) => if mode.UserModeServicer? then [ServicerOnCreate(d.talkId)] else []
    case AttachPart(u) => if mode.UserModeServicer? then [ServicerOnAttach(d.talkId, u)] else []
    case DetachPart(u) => if mode.UserModeServicer? then [ServicerOnDetach(d.talkId, u)] else []
    case NoPart => []
  }

  /** A process: the calls its send queue accepted, that queue, and for the common exchange and
      its own one the deliveries still queued and the callbacks made. */
  datatype Process = Process(
    calls: seq<BusCall>,
    out: seq<MqData>,
    all: seq<MqData>,
    own: seq<MqData>,
    heardAll: seq<Callback>,
    heardOwn: seq<Callback>)

  const QUIET := Process([], [], [], [], [], [])

  /** A publication and the process it came from. */
  datatype Published = Published(from: UserMode, data: MqData)

  datatype Bus = Bus(customers: Process, servicers: Process, log: seq<Published>)

  const SILENT := Bus(QUIET, QUIET, [])

  function ProcessOf(b: Bus, mode: UserMode): Process {
    if mode.UserModeCustomer? then b.customers else b.servicers
  }

  function WithProcess(b: Bus, mode: UserMode, p: Process): Bus {
    if mode.UserModeCustomer? then b.(customers := p) else b.(servicers := p)
  }

  /** A call on a side's bus object; a full send queue refuses it. */
  function Send(b: Bus, mode: UserMode, call: BusCall): Bus {
    var p := ProcessOf(b, mode);
    if !MayCall(mode, call) || |p.out| >= SEND_CAPACITY then b
    else WithProcess(b, mode, p.(calls := p.calls + [call], out := p.out + [Encode(call, true)]))
  }

  /** A process of this mode has a queue bound to the exchange. */
  predicate ListensTo(mode: UserMode, exchange: string) {
    exchange == ExchangeName(SPECIAL_ALL) || exchange == ExchangeName(SpecialTalk(mode))
  }

  /** The queue of a process that is bound to the exchange, if there is one, gets the datum. */
  function ReceiveOn(p: Process, mode: UserMode, exchange: string, d: MqData): Process {
    if exchange == ExchangeName(SPECIAL_ALL) then p.(all := p.all + [d])
    else if exchange == ExchangeName(SpecialTalk(mode)) then p.(own := p.own + [d])
    else p
  }

  /** A direct send goes to the exchange of its channel. */
  function Receive(p: Process, mode: UserMode, d: MqData): Process {
    ReceiveOn(p, mode, ExchangeName(ChannelOf(d)), d)
  }

  function Publish(b: Bus, mode: UserMode): Bus {
    var p := ProcessOf(b, mode);
    if p.out == [] then b
    else
      var d, b' := p.out[0], WithProcess(b, mode, p.(out := p.out[1..]));
      Bus(Receive(b'.customers, UserModeCustomer, d), Receive(b'.servicers, UserModeServicer, d),
          b.log + [Published(mode, d)])
  }

  function Deliver(b: Bus, mode: UserMode, own: bool): Bus {
    var p := ProcessOf(b, mode);
    if own then
      if p.own == [] then b
      else WithProcess(b, mode, p.(own := p.own[1..], heardOwn := p.heardOwn + Dispatch(mode, p.own[0])))
    else
      if p.all == [] then b
      else WithProcess(b, mode, p.(all := p.all[1..], heardAll := p.heardAll + Dispatch(mode, p.all[0])))
  }

  datatype BusStep =
    | Sends(from: UserMode, call: BusCall)
    | Publishes(from: UserMode)
    | Delivers(to: UserMode, own: bool)

  function BusNext(b: Bus, a: BusStep): Bus {
    match a
    case Sends(from, call) => Send(b, from, call)
    case Publishes(from) => Publish(b, from)
    case Delivers(to, own) => Deliver(b, to, own)
  }

  function BusRun(b: Bus, steps: seq<BusStep>): Bus {
    if steps == [] then b else BusNext(BusRun(b, steps[..|steps| - 1]), steps[|steps| - 1])
  }

  // ---- the reference: the in-process bus ----

  function Observed(callbacks: seq<Callback>, side: UserMode): seq<Callback> {
    if callbacks == [] then []
    else
      Observed(callbacks[..|callbacks| - 1], side)
      + (if ForCustomers(callbacks[|callbacks| - 1]) == side.UserModeCustomer? then [callbacks[|callbacks| - 1]]
         else [])
  }

  /** The callbacks of the in-process bus for the calls, at the observer of one side. */
  function Reference(calls: seq<BusCall>, side: UserMode): seq<Callback> {
    if calls == [] then []
    else Reference(calls[..|calls| - 1], side) + Observed(Callbacks(calls[|calls| - 1]), side)
  }

  /** The call a record stands for. */
  function Decode(d: MqData): Option<BusCall> {
    match d.payload
    case MessagePart(m) => Some(SendMessage(d.talkId, m))
    case ClosePart => Some(SendTalkClose(d.talkId))
    case CreatePart(_) => Some(SendTalkCreate(d.talkId))
    case AttachPart(u) => Some(SendServicerAttach(d.talkId, u))
    case DetachPart(u) => Some(SendServicerDetach(d.talkId, u))
    case NoPart => None
  }

  /** The calls published on the exchange of a channel, in that order. */
  function CallsOn(log: seq<Published>, channel: string): seq<BusCall> {
    if log == [] then []
    else
      var d := log[|log| - 1].data;
      CallsOn(log[..|log| - 1], channel)
      + (if ChannelOf(d) == channel && Decode(d).Some? then [Decode(d).value] else [])
  }

  /** The calls one process published, in that order. */
  function CallsBy(log: seq<Published>, from: UserMode): seq<BusCall> {
    if log == [] then []
    else
      var x := log[|log| - 1];
      CallsBy(log[..|log| - 1], from) + (if x.from == from && Decode(x.data).Some? then [Decode(x.data).value] else [])
  }

  /** The callbacks that queued deliveries will make. */
  function Pending(mode: UserMode, queue: seq<MqData>): seq<Callback> {
    if queue == [] then [] else Pending(mode, queue[..|queue| - 1]) + Dispatch(mode, queue[|queue| - 1])
  }

  function Decoded(out: seq<MqData>): seq<BusCall> {
    if out == [] then []
    else
      Decoded(out[..|out| - 1])
      + (if Decode(out[|out| - 1]).Some? then [Decode(out[|out| - 1]).value] else [])
  }

  /** One exchange at one process: what it has called and still will is the reference. */
  ghost predicate Faithful(mode: UserMode, heard: seq<Callback>, queue: seq<MqData>, calls: seq<BusCall>) {
    heard + Pending(mode, queue) == Reference(calls, mode)
  }

  ghost predicate ProcessOk(b: Bus, mode: UserMode) {
    var p := ProcessOf(b, mode);
    && Faithful(mode, p.heardAll, p.all, CallsOn(b.log, SPECIAL_ALL))
    && Faithful(mode, p.heardOwn, p.own, CallsOn(b.log, SpecialTalk(mode)))
    && CallsBy(b.log, mode) + Decoded(p.out) == p.calls
  }
}
