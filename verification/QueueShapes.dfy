/** The controllers' channels, told by the steps of a run: what each step gets into a channel
    and what it takes from it. */
module QueueShapes {
  import opened Defs
  import opened TalkStore
  import opened Hubs
  import opened Sides
  import opened Engine
  import opened CallShapes

  // ---- the customers' channels ----

  /** The install of a session that is opening, if it fits. */
  function InstallQueued(e: State, a: Step): Option<nat> {
    if a.CustomerStep? && a.customerAct.QueuesInstall? && a.q in e.c.conns && e.c.conns[a.q].phase == Opening
       && |e.c.install| < REQUEST_CAPACITY then Some(a.q)
    else None
  }

  function InstallTaken(e: State, a: Step): Option<nat> {
    if a.CustomerLoopStep? && a.customerPick.PickInstall? && e.cMid == [] && e.c.install != [] then Some(e.c.install[0])
    else None
  }

  /** The uninstall of a session whose stream ends, if it fits. */
  function UninstallQueued(e: State, a: Step): Option<nat> {
    if a.CustomerStep? && a.customerAct.Departs? && a.q in e.c.conns && e.c.conns[a.q].phase == Live
       && |e.c.uninstall| < REQUEST_CAPACITY then Some(a.q)
    else None
  }

  function UninstallTaken(e: State, a: Step): Option<nat> {
    if a.CustomerLoopStep? && a.customerPick.PickUninstall? && e.cMid == [] && e.c.uninstall != [] then
      Some(e.c.uninstall[0])
    else None
  }

  /** The message a receive loop holds, stored already, if it fits. */
  function MessageQueued(e: State, a: Step): Option<Incoming> {
    if a.CustomerStep? && a.customerAct.Enqueues? && a.q in e.c.conns && e.c.conns[a.q].held.Some?
       && |e.c.inbox| < MESSAGE_CAPACITY then e.c.conns[a.q].held
    else None
  }

  function MessageTaken(e: State, a: Step): Option<Incoming> {
    if a.CustomerLoopStep? && a.customerPick.PickMessage? && e.cMid == [] && e.c.inbox != [] then Some(e.c.inbox[0])
    else None
  }

  function CloseQueued(e: State, a: Step): Option<nat> {
    if a.CustomerStep? && a.customerAct.RequestsClose? && Reading(e.c, a.q) && |e.closes| < REQUEST_CAPACITY then
      Some(a.q)
    else None
  }

  function CloseTaken(e: State, a: Step): Option<nat> {
    if a.CustomerLoopStep? && a.customerPick.PickClose? && e.cMid == [] && e.closes != [] then Some(e.closes[0])
    else None
  }

  // ---- the servicers' channels ----

  function ServicerInstallQueued(e: State, a: Step): Option<nat> {
    if a.ServicerStep? && a.servicerAct.ServicerQueue? && a.q in e.s.conns && e.s.conns[a.q].phase == Opening
       && |e.s.install| < REQUEST_CAPACITY then Some(a.q)
    else None
  }

  function ServicerInstallTaken(e: State, a: Step): Option<nat> {
    if a.ServicerLoopStep? && a.servicerPick.ServeInstall? && e.sMid == [] && e.s.install != [] then
      Some(e.s.install[0])
    else None
  }

  function ServicerUninstallQueued(e: State, a: Step): Option<nat> {
    if a.ServicerStep? && a.servicerAct.ServicerDepart? && a.q in e.s.conns && e.s.conns[a.q].phase == Live
       && |e.s.uninstall| < REQUEST_CAPACITY then Some(a.q)
    else None
  }

  function ServicerUninstallTaken(e: State, a: Step): Option<nat> {
    if a.ServicerLoopStep? && a.servicerPick.ServeUninstall? && e.sMid == [] && e.s.uninstall != [] then
      Some(e.s.uninstall[0])
    else None
  }

  /** A message without a talk id is not offered. */
  function ServicerMessageQueued(e: State, a: Step): Option<Incoming> {
    if a.ServicerStep? && a.servicerAct.ServicerEnqueue? && a.q in e.s.conns && e.s.conns[a.q].held.Some?
       && e.s.conns[a.q].held.value.talkId != "" && |e.s.inbox| < MESSAGE_CAPACITY then e.s.conns[a.q].held
    else None
  }

  function ServicerMessageTaken(e: State, a: Step): Option<Incoming> {
    if a.ServicerLoopStep? && a.servicerPick.ServeMessage? && e.sMid == [] && e.s.inbox != [] then Some(e.s.inbox[0])
    else None
  }

  /** A request about a talk, if it fits; only a reload may come without a talk id. */
  predicate Asks(e: State, a: Step, kind: RequestKind) {
    && a.ServicerStep? && a.servicerAct.ServicerRequest? && a.servicerAct.kind == kind && Reading(e.s, a.q)
    && (a.servicerAct.t != "" || kind == ReloadRequest)
  }

  function AttachQueued(e: State, a: Step): Option<Request> {
    if Asks(e, a, AttachRequest) && |e.attaches| < REQUEST_CAPACITY then Some(Request(a.q, a.servicerAct.t)) else None
  }

  function AttachTaken(e: State, a: Step): Option<Request> {
    if a.ServicerLoopStep? && a.servicerPick.ServeAttach? && e.sMid == [] && e.attaches != [] then Some(e.attaches[0])
    else None
  }

  function DetachQueued(e: State, a: Step): Option<Request> {
    if Asks(e, a, DetachRequest) && |e.detaches| < REQUEST_CAPACITY then Some(Request(a.q, a.servicerAct.t)) else None
  }

  function DetachTaken(e: State, a: Step): Option<Request> {
    if a.ServicerLoopStep? && a.servicerPick.ServeDetach? && e.sMid == [] && e.detaches != [] then Some(e.detaches[0])
    else None
  }

  function ReloadQueued(e: State, a: Step): Option<Request> {
    if Asks(e, a, ReloadRequest) && |e.reloads| < REQUEST_CAPACITY then Some(Request(a.q, a.servicerAct.t)) else None
  }

  function ReloadTaken(e: State, a: Step): Option<Request> {
    if a.ServicerLoopStep? && a.servicerPick.ServeReload? && e.sMid == [] && e.reloads != [] then Some(e.reloads[0])
    else None
  }

  // ---- all of them ----

  ghost predicate CustomerQueuesMove(e: State, e': State, a: Step) {
    && Turns(e.c.install, e'.c.install, InstallTaken(e, a), InstallQueued(e, a))
    && Turns(e.c.uninstall, e'.c.uninstall, UninstallTaken(e, a), UninstallQueued(e, a))
    && Turns(e.c.inbox, e'.c.inbox, MessageTaken(e, a), MessageQueued(e, a))
    && Turns(e.closes, e'.closes, CloseTaken(e, a), CloseQueued(e, a))
  }

  ghost predicate ServicerQueuesMove(e: State, e': State, a: Step) {
    && Turns(e.s.install, e'.s.install, ServicerInstallTaken(e, a), ServicerInstallQueued(e, a))
    && Turns(e.s.uninstall, e'.s.uninstall, ServicerUninstallTaken(e, a), ServicerUninstallQueued(e, a))
    && Turns(e.s.inbox, e'.s.inbox, ServicerMessageTaken(e, a), ServicerMessageQueued(e, a))
  }

  ghost predicate RequestQueuesMove(e: State, e': State, a: Step) {
    && Turns(e.attaches, e'.attaches, AttachTaken(e, a), AttachQueued(e, a))
    && Turns(e.detaches, e'.detaches, DetachTaken(e, a), DetachQueued(e, a))
    && Turns(e.reloads, e'.reloads, ReloadTaken(e, a), ReloadQueued(e, a))
  }

  /** Every head of a channel is from a known session. */
  ghost predicate HeadsKnown(e: State) {
    && (e.c.install != [] ==> e.c.install[0] in e.c.hub.sess) && (e.closes != [] ==> e.closes[0] in e.c.hub.sess)
    && (e.c.inbox != [] ==> e.c.inbox[0].conn in e.c.hub.sess)
    && (forall q | q in e.c.conns && e.c.conns[q].held.Some? :: e.c.conns[q].held.value.talkId != "")
    && (e.s.install != [] ==> e.s.install[0] in e.s.hub.sess)
    && (e.s.inbox != [] ==> e.s.inbox[0].conn in e.s.hub.sess)
    && (e.attaches != [] ==> e.attaches[0].conn in e.s.hub.sess)
    && (e.detaches != [] ==> e.detaches[0].conn in e.s.hub.sess)
    && (e.reloads != [] ==> e.reloads[0].conn in e.s.hub.sess)
  }

  // ---- a run's channels ----

  /** What was taken from a channel so far and what waits in it are what got into it, in order. */
  ghost predicate AllServed<T>(taken: seq<T>, waiting: seq<T>, queued: seq<T>) {
    taken + waiting == queued
  }

  ghost predicate CustomersServed(e: State, steps: seq<Step>, x: State) {
    && AllServed(Along(e, steps, InstallTaken), x.c.install, Along(e, steps, InstallQueued))
    && AllServed(Along(e, steps, UninstallTaken), x.c.uninstall, Along(e, steps, UninstallQueued))
    && AllServed(Along(e, steps, MessageTaken), x.c.inbox, Along(e, steps, MessageQueued))
    && AllServed(Along(e, steps, CloseTaken), x.closes, Along(e, steps, CloseQueued))
  }

  ghost predicate ServicersServed(e: State, steps: seq<Step>, x: State) {
    && AllServed(Along(e, steps, ServicerInstallTaken), x.s.install, Along(e, steps, ServicerInstallQueued))
    && AllServed(Along(e, steps, ServicerUninstallTaken), x.s.uninstall, Along(e, steps, ServicerUninstallQueued))
    && AllServed(Along(e, steps, ServicerMessageTaken), x.s.inbox, Along(e, steps, ServicerMessageQueued))
  }

  ghost predicate RequestsServed(e: State, steps: seq<Step>, x: State) {
    && AllServed(Along(e, steps, AttachTaken), x.attaches, Along(e, steps, AttachQueued))
    && AllServed(Along(e, steps, DetachTaken), x.detaches, Along(e, steps, DetachQueued))
    && AllServed(Along(e, steps, ReloadTaken), x.reloads, Along(e, steps, ReloadQueued))
  }
}
