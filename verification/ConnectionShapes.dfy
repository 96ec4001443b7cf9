/** How a connection goes on: when its stream begins and ends, when its receive loop runs, and
    what message it holds. */
module ConnectionShapes {
  import opened Defs
  import opened TalkStore
  import opened Hubs
  import opened Sides
  import opened Engine
  import opened CallShapes
  import opened QueueShapes
  import opened StoreShapes

  /** A customer's message is stored and held until it is offered. */
  function CustomerHolds(e: State, a: Step): Option<Incoming> {
    match a
    case CustomerStep(q, Receives(at, text, seqId, down)) =>
      if Reading(e.c, q) && !down then
        var t := e.c.hub.sess[q].key;
        Some(Incoming(q, t, seqId, Msg(at, text, Sender(true, q), e.c.conns[q].next)))
      else None
    case _ => None
  }

  function ServicerHolds(e: State, a: Step): Option<Incoming> {
    match a
    case ServicerStep(q, ServicerReceive(t, at, text, seqId, down)) =>
      if Reading(e.s, q) && !down then
        Some(Incoming(q, t, seqId, Msg(at, text, Sender(false, q), e.s.conns[q].next)))
      else None
    case _ => None
  }

  /** Something a customer asked for is refused, which ends its receive loop. */
  predicate CustomerRefused(e: State, a: Step, q: nat) {
    || (a == CustomerStep(q, Enqueues) && q in e.c.conns && e.c.conns[q].held.Some? && MessageQueued(e, a) == None)
    || (a == CustomerStep(q, RequestsClose) && Reading(e.c, q) && CloseQueued(e, a) == None)
  }

  /** A servicer's receive loop ends when a message cannot be stored. */
  predicate ServicerRefused(e: State, a: Step, q: nat) {
    && a.ServicerStep? && a.q == q && a.servicerAct.ServicerReceive? && a.servicerAct.down && Reading(e.s, q)
  }

  /** A customer's connection over a step of the run. */
  ghost predicate CustomerGoesOn(e: State, e': State, a: Step, q: nat)
    requires q in e.c.conns
  {
    var c := e.c.conns[q];
    && q in e'.c.conns
    && var c' := e'.c.conns[q];
       && c'.phase == (if InstallQueued(e, a) == Some(q) then Live
                       else if a == CustomerStep(q, QueuesInstall) && c.phase == Opening then Left
                       else if a == CustomerStep(q, Departs) && c.phase == Live then Left
                       else c.phase)
       && c'.receiving == (InstallQueued(e, a) == Some(q) || (c.receiving && !CustomerRefused(e, a, q)))
       && c'.held == (if CustomerHolds(e, a).Some? && a.q == q then CustomerHolds(e, a)
                      else if a == CustomerStep(q, Enqueues) then None else c.held)
       && c'.next == c.next + (if CustomerHolds(e, a).Some? && a.q == q then 1 else 0)
  }

  /** And a servicer's. */
  ghost predicate ServicerGoesOn(e: State, e': State, a: Step, q: nat)
    requires q in e.s.conns
  {
    var c := e.s.conns[q];
    && q in e'.s.conns
    && var c' := e'.s.conns[q];
       && c'.phase == (if ServicerInstallQueued(e, a) == Some(q) then Live
                       else if a == ServicerStep(q, ServicerQueue) && c.phase == Opening then Left
                       else if a == ServicerStep(q, ServicerDepart) && c.phase == Live then Left
                       else c.phase)
       && c'.receiving == (ServicerInstallQueued(e, a) == Some(q) || (c.receiving && !ServicerRefused(e, a, q)))
       && c'.held == (if ServicerHolds(e, a).Some? && a.q == q then ServicerHolds(e, a)
                      else if a == ServicerStep(q, ServicerEnqueue) then None else c.held)
       && c'.next == c.next + (if ServicerHolds(e, a).Some? && a.q == q then 1 else 0)
  }

  // ---- customers' connections over a run ----

  /** What the steps make of the stream of connection q: it begins with an install that is
      queued, and ends when that is refused or the client is gone. */
  function CustomerPhase(e: State, steps: seq<Step>, q: nat): Phase {
    if steps == [] then Opening
    else
      var before, a := steps[..|steps| - 1], steps[|steps| - 1];
      var x, so := Run(e, before), CustomerPhase(e, before, q);
      if q !in x.c.conns then Opening
      else if InstallQueued(x, a) == Some(q) then Live
      else if a == CustomerStep(q, QueuesInstall) && so == Opening then Left
      else if a == CustomerStep(q, Departs) && so == Live then Left
      else so
  }

  /** Its receive loop runs from then until something is refused. */
  predicate CustomerListens(e: State, steps: seq<Step>, q: nat) {
    steps != []
    && var before, a := steps[..|steps| - 1], steps[|steps| - 1];
       var x := Run(e, before);
       q in x.c.conns
       && (InstallQueued(x, a) == Some(q) || (CustomerListens(e, before, q) && !CustomerRefused(x, a, q)))
  }

  /** The message of connection q a step stores, and the one it offers to the controller. */
  function CustomerHoldsOf(q: nat): (State, Step) -> Option<Incoming> {
    (e: State, a: Step) => if a.CustomerStep? && a.q == q then CustomerHolds(e, a) else None
  }

  function CustomerOffersOf(q: nat): (State, Step) -> Option<Incoming> {
    (e: State, a: Step) =>
      if a == CustomerStep(q, Enqueues) && q in e.c.conns then e.c.conns[q].held else None
  }

  // ---- servicers' connections over a run ----

  /** What the steps make of the stream of connection q: it begins with an install that is
      queued, and ends when that is refused or the client is gone. */
  function ServicerPhase(e: State, steps: seq<Step>, q: nat): Phase {
    if steps == [] then Opening
    else
      var before, a := steps[..|steps| - 1], steps[|steps| - 1];
      var x, so := Run(e, before), ServicerPhase(e, before, q);
      if q !in x.s.conns then Opening
      else if ServicerInstallQueued(x, a) == Some(q) then Live
      else if a == ServicerStep(q, ServicerQueue) && so == Opening then Left
      else if a == ServicerStep(q, ServicerDepart) && so == Live then Left
      else so
  }

  /** Its receive loop runs from then until something is refused. */
  predicate ServicerListens(e: State, steps: seq<Step>, q: nat) {
    steps != []
    && var before, a := steps[..|steps| - 1], steps[|steps| - 1];
       var x := Run(e, before);
       q in x.s.conns
       && (ServicerInstallQueued(x, a) == Some(q) || (ServicerListens(e, before, q) && !ServicerRefused(x, a, q)))
  }

  /** The message of connection q a step stores, and the one it offers to the controller. */
  function ServicerHoldsOf(q: nat): (State, Step) -> Option<Incoming> {
    (e: State, a: Step) => if a.ServicerStep? && a.q == q then ServicerHolds(e, a) else None
  }

  function ServicerOffersOf(q: nat): (State, Step) -> Option<Incoming> {
    (e: State, a: Step) =>
      if a == ServicerStep(q, ServicerEnqueue) && q in e.s.conns then e.s.conns[q].held else None
  }

  function HeldCustomer(e: State, q: nat): seq<Incoming> {
    if q in e.c.conns then Listed(e.c.conns[q].held) else []
  }

  /** What connection q stored so far is what it offered and what it holds, in state x. */
  ghost predicate CustomerOfferedAll(e: State, steps: seq<Step>, x: State, q: nat) {
    Along(e, steps, CustomerOffersOf(q)) + HeldCustomer(x, q) == Along(e, steps, CustomerHoldsOf(q))
  }

  function HeldServicer(e: State, q: nat): seq<Incoming> {
    if q in e.s.conns then Listed(e.s.conns[q].held) else []
  }

  /** What connection q stored so far is what it offered and what it holds, in state x. */
  ghost predicate ServicerOfferedAll(e: State, steps: seq<Step>, x: State, q: nat) {
    Along(e, steps, ServicerOffersOf(q)) + HeldServicer(x, q) == Along(e, steps, ServicerHoldsOf(q))
  }

  // ---- who has a connection ----

  /** The talk that connection q joins with a step: one created or opened for it. */
  function CustomerJoins(q: nat): (State, Step) -> Option<TalkId> {
    (e: State, a: Step) =>
      if !a.CustomerStep? || a.q != q then None
      else
        match a.customerAct
        case Creates(_, _, _) => TalkCreated(e, a)
        case Opens(t, down) => if q != 0 && q !in e.c.conns && !down && t in e.store.talks then Some(t) else None
        case _ => None
  }

  /** The user that connection q is of. */
  function ServicerJoins(q: nat): (State, Step) -> Option<nat> {
    (e: State, a: Step) =>
      match a
      case ServicerStep(x, ServicerConnect(u)) =>
        if x == q && q != 0 && u != 0 && q !in e.s.conns then Some(u) else None
      case _ => None
  }

  function KeyOf<K, R>(s: Side<K, R>, q: nat): Option<K> {
    if q in s.hub.sess then Some(s.hub.sess[q].key) else None
  }

  ghost predicate CustomerJoined(e: State, steps: seq<Step>, x: State, q: nat) {
    Along(e, steps, CustomerJoins(q)) == Listed(KeyOf(x.c, q))
  }

  ghost predicate ServicerJoined(e: State, steps: seq<Step>, x: State, q: nat) {
    Along(e, steps, ServicerJoins(q)) == Listed(KeyOf(x.s, q))
  }
}
