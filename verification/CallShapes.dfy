/** The calls on the bus and what comes of them, told by the steps of a run: which step makes
    which call, which callbacks and closures follow, and which closures have been run. */
module CallShapes {
  import opened Defs
  import opened TalkStore
  import opened Hubs
  import opened Sides
  import opened AllInOne
  import opened Engine

  /** The call a pick of the customer loop makes: a created talk's install announces it, every
      message of a known session goes on the bus, and so does a closing the store carried out. */
  function CustomerCall(e: State, p: CustomerPick): Option<BusCall> {
    if e.cMid != [] then None
    else
      match p
      case PickInstall(f) =>
        if e.c.install == [] || e.c.install[0] !in e.c.hub.sess then None
        else
          var q, t := e.c.install[0], e.c.hub.sess[e.c.install[0]].key;
          if !f.read && !f.track && t in e.store.talks && q in e.makers then Some(SendTalkCreate(t)) else None
      case PickMessage(_) =>
        if e.c.inbox == [] || e.c.inbox[0].conn !in e.c.hub.sess then None
        else Some(SendMessage(e.c.hub.sess[e.c.inbox[0].conn].key, e.c.inbox[0].message))
      case PickClose(f) =>
        if e.closes == [] || e.closes[0] !in e.c.hub.sess || f.write then None
        else
          var t := e.c.hub.sess[e.closes[0]].key;
          if t in e.store.talks then Some(SendTalkClose(t)) else None
      case _ => None
  }

  /** The talk a request names is found. */
  predicate Finds(st: Store, t: TalkId, f: Faults) {
    !f.read && t in st.talks
  }

  /** The call a pick of the servicer loop makes: the owner's message, a take-over from somebody
      else, a release by the owner. */
  function ServicerCall(e: State, p: ServicerPick): Option<BusCall> {
    if e.sMid != [] then None
    else
      match p
      case ServeAttach(f) =>
        if e.attaches == [] || e.attaches[0].conn !in e.s.hub.sess then None
        else
          var u, t := e.s.hub.sess[e.attaches[0].conn].key, e.attaches[0].talkId;
          if Finds(e.store, t, f) && OwnerOf(e.store, t) != u then Some(SendServicerAttach(t, u)) else None
      case ServeDetach(f) =>
        if e.detaches == [] || e.detaches[0].conn !in e.s.hub.sess then None
        else
          var u, t := e.s.hub.sess[e.detaches[0].conn].key, e.detaches[0].talkId;
          if Finds(e.store, t, f) && OwnerOf(e.store, t) == u then Some(SendServicerDetach(t, u)) else None
      case ServeMessage(f, _) =>
        if e.s.inbox == [] || e.s.inbox[0].conn !in e.s.hub.sess then None
        else
          var u, d := e.s.hub.sess[e.s.inbox[0].conn].key, e.s.inbox[0];
          if Finds(e.store, d.talkId, f) && OwnerOf(e.store, d.talkId) == u then Some(SendMessage(d.talkId, d.message))
          else None
      case _ => None
  }

  /** The calls of one loop. */
  function CallOfCustomers(e: State, a: Step): Option<BusCall> {
    if a.CustomerLoopStep? then CustomerCall(e, a.customerPick) else None
  }

  function CallOfServicers(e: State, a: Step): Option<BusCall> {
    if a.ServicerLoopStep? then ServicerCall(e, a.servicerPick) else None
  }

  function CallOf(e: State, a: Step): Option<BusCall> {
    if a.CustomerLoopStep? then CallOfCustomers(e, a) else CallOfServicers(e, a)
  }

  /** What the steps of a run come to, one after the other. */
  function Along<T>(e: State, steps: seq<Step>, f: (State, Step) -> Option<T>): seq<T> {
    if steps == [] then []
    else
      var before := steps[..|steps| - 1];
      Along(e, before, f) + Listed(f(Run(e, before), steps[|steps| - 1]))
  }

  /** The callback a step makes. */
  function MadeByCustomers(e: State, a: Step): Option<Callback> {
    if a.CustomerLoopStep? && a.customerPick.PickCall? && e.cMid != [] then Some(e.cMid[0]) else None
  }

  function MadeByServicers(e: State, a: Step): Option<Callback> {
    if a.ServicerLoopStep? && a.servicerPick.ServeCall? && e.sMid != [] then Some(e.sMid[0]) else None
  }

  function CallbackMade(e: State, a: Step): Option<Callback> {
    if a.CustomerLoopStep? then MadeByCustomers(e, a) else MadeByServicers(e, a)
  }

  // ---- closures ----

  /** The closure a step is to post for the customers. */
  function CustomerPost(e: State, a: Step): Option<CustomerTask> {
    match CallbackMade(e, a)
    case Some(CustomerOnMessage(t, m)) => Some(CastMessage(t, m))
    case Some(CustomerOnClose(t)) => Some(CastClose(t))
    case _ => None
  }

  predicate DownOf(a: Step) {
    match a
    case CustomerLoopStep(p) => p.PickCall? && p.down
    case ServicerLoopStep(p) => p.ServeCall? && p.down
    case _ => false
  }

  /** And for the servicers; a release is not posted when its talk cannot be read. */
  function ServicerPost(e: State, a: Step): Option<ServicerTask> {
    match CallbackMade(e, a)
    case Some(ServicerOnMessage(t, m)) => Some(TellMessage(t, m))
    case Some(ServicerOnCreate(t)) => Some(TellCreate(t))
    case Some(ServicerOnClose(t)) => Some(TellClose(t))
    case Some(ServicerOnAttach(t, u)) => Some(TellAttach(t, u))
    case Some(ServicerOnDetach(t, u)) =>
      if DownOf(a) || Lookup(e.store, t).None? then None else Some(TellDetach(Lookup(e.store, t).value, u))
    case _ => None
  }

  /** The closure a step runs. */
  function CustomerRan(e: State, a: Step): Option<CustomerTask> {
    if a.CustomerLoopStep? && a.customerPick.PickRunner? && e.cMid == [] && e.cPosted != [] then Some(e.cPosted[0])
    else None
  }

  function ServicerRan(e: State, a: Step): Option<ServicerTask> {
    if a.ServicerLoopStep? && a.servicerPick.ServeRunner? && e.sMid == [] && e.sPosted != [] then Some(e.sPosted[0])
    else None
  }

  /** A queue after a step that takes from its front and adds to its end. */
  predicate Moves<T(==)>(q: seq<T>, q': seq<T>, taken: Option<T>, added: seq<T>) {
    Listed(taken) + q' == q + added
  }

  /** The same, one item in and one out at most. */
  predicate Turns<T(==)>(q: seq<T>, q': seq<T>, taken: Option<T>, added: Option<T>) {
    (taken.Some? ==> q != [] && q[0] == taken.value)
    && var rest := if taken.Some? then q[1..] else q;
       if added.Some? then q' == rest + [added.value] else q' == rest
  }

  /** The closure a step gets into the queue. */
  function CustomerQueued(e: State, a: Step): Option<CustomerTask> {
    if |e.cPosted| < MESSAGE_CAPACITY then CustomerPost(e, a) else None
  }

  function ServicerQueued(e: State, a: Step): Option<ServicerTask> {
    if |e.sPosted| < MESSAGE_CAPACITY then ServicerPost(e, a) else None
  }

  /** What is put on the bus and sent of ownership when a call is made. */
  ghost predicate Noted(log: Log, log': Log, call: Option<BusCall>) {
    && log'.bus == log.bus + (match call case Some(SendMessage(t, m)) => {(t, m)} case _ => {})
    && log'.trace == log.trace + (match call
                                  case Some(SendServicerAttach(t, u)) => [Took(t, u)]
                                  case Some(SendServicerDetach(t, u)) => [Gave(t, u)]
                                  case _ => [])
  }

  /** What a step does to the two loops' pending callbacks and to the log. */
  ghost predicate CallsCarried(e: State, e': State, a: Step) {
    && Moves(e.cMid, e'.cMid, MadeByCustomers(e, a), CallbacksOf(CallOfCustomers(e, a)))
    && Moves(e.sMid, e'.sMid, MadeByServicers(e, a), CallbacksOf(CallOfServicers(e, a)))
    && Noted(e.log, e'.log, CallOf(e, a))
  }

  /** And to the two queues of closures. */
  ghost predicate PostsCarried(e: State, e': State, a: Step) {
    && Turns(e.cPosted, e'.cPosted, CustomerRan(e, a), CustomerQueued(e, a))
    && Turns(e.sPosted, e'.sPosted, ServicerRan(e, a), ServicerQueued(e, a))
    && (e'.cLost <==> e.cLost || CustomerQueued(e, a) != CustomerPost(e, a))
    && (e'.sLost <==> e.sLost || ServicerQueued(e, a) != ServicerPost(e, a))
  }

  /** The ownership events of a list of calls. */
  function Events(calls: seq<BusCall>): seq<Ownership> {
    if calls == [] then []
    else
      Events(calls[..|calls| - 1])
      + match calls[|calls| - 1]
        case SendServicerAttach(t, u) => [Took(t, u)]
        case SendServicerDetach(t, u) => [Gave(t, u)]
        case _ => []
  }

  /** The closure of the callback has been run, is queued, or the callback is still to be
      made. */
  predicate CustomersHear(e: State, steps: seq<Step>, b: Callback, k: CustomerTask) {
    var x := Run(e, steps);
    k in Along(e, steps, CustomerRan) || k in x.cPosted || b in x.cMid || b in x.sMid
  }

  predicate ServicersHear(e: State, steps: seq<Step>, b: Callback, k: ServicerTask) {
    var x := Run(e, steps);
    k in Along(e, steps, ServicerRan) || k in x.sPosted || b in x.cMid || b in x.sMid
  }

  // ---- confirmations ----

  /** The message of session q a step puts on the bus. */
  function CustomerReleases(q: nat): (State, Step) -> Option<Incoming> {
    (e: State, a: Step) =>
      if a.CustomerLoopStep? && a.customerPick.PickMessage? && CustomerCall(e, a.customerPick).Some?
         && e.c.inbox[0].conn == q then Some(e.c.inbox[0])
      else None
  }

  function ServicerReleases(q: nat): (State, Step) -> Option<Incoming> {
    (e: State, a: Step) =>
      if a.ServicerLoopStep? && a.servicerPick.ServeMessage? && ServicerCall(e, a.servicerPick).Some?
         && e.s.inbox[0].conn == q then Some(e.s.inbox[0])
      else None
  }

  /** What confirms a message to its sender: the number the sender gave it and its time. */
  datatype Receipt = Receipt(seqId: nat, at: int)

  function Receipts(ds: seq<Incoming>): seq<Receipt> {
    seq(|ds|, i requires 0 <= i < |ds| => Receipt(ds[i].seqId, ds[i].message.at))
  }

  /** The confirmations in a stream, in order. */
  function CustomerReceipts(rs: seq<TalkResponse>): seq<Receipt> {
    if rs == [] then []
    else
      var r := rs[|rs| - 1];
      CustomerReceipts(rs[..|rs| - 1]) + (if r.MessageConfirmed? then [Receipt(r.seqId, r.at)] else [])
  }

  function ServicerReceipts(rs: seq<ServiceResponse>): seq<Receipt> {
    if rs == [] then []
    else
      var r := rs[|rs| - 1];
      ServicerReceipts(rs[..|rs| - 1]) + (if r.ServiceConfirmed? then [Receipt(r.seqId, r.at)] else [])
  }
}
