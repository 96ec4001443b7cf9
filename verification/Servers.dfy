/** The receive routines of the two servers: loops over a connection's requests that store
    messages and offer requests to the controllers. */
module Servers {
  import opened Defs
  import opened TalkStore
  import opened Hubs
  import opened Sessions
  import opened Registries
  import opened TalkModel
  import opened LoopLogic
  import opened Channels
  import opened Controllers
  import opened ReceiveLogic
  import CMD = CustomerMD
  import SMD = ServicerMD

  /** The first request of a stream makes or opens its talk. */
  method HandleTalkStart(c: CustomerController, start: TalkStart) returns (t: Option<TalkId>, maker: bool)
    requires c.Valid()
    requires start.StartCreate? ==> WellFormedId(start.id) && start.id !in c.md.m.talks
    modifies c.md.m
    ensures c.Valid() && t == StartOf(old(c.View()).store, start) && maker == (start.StartCreate? && t.Some?)
    ensures c.View() == old(c.View()).(store := StartedStore(old(c.View()).store, start))
  {
    t, maker := None, false;
    match start
    case StartCreate(id, info, down) =>
      if info.title != "" {
        maker := c.md.m.CreateTalk(id, NewTalk(info), down);
        t := if maker then Some(id) else None;
      }
    case StartOpen(id, down) =>
      var ok := c.md.m.OpenTalk(id, down);
      t := if ok then Some(id) else None;
    case StartOther =>
  }

  /** A customer's stream begins: a session for its talk, with a unique id that is new, is
      made and offered for install. */
  method Talk(c: CustomerController, start: TalkStart, uniqueID: nat)
    returns (customer: Session?<TalkId, TalkResponse>, ok: bool)
    requires c.Valid() && uniqueID !in c.md.registry.pool
    requires start.StartCreate? ==> WellFormedId(start.id) && start.id !in c.md.m.talks
    modifies c`chInstall, c`makers, c.md.registry`pool, c.md.registry`all, c.md.m
    ensures c.Valid() && ok == (customer != null && |old(c.chInstall)| < REQUEST_CAPACITY)
    ensures customer == null <==> StartOf(old(c.View()).store, start).None?
    ensures customer != null ==> c.md.Knows(customer) && customer.uniqueID == uniqueID
    ensures c.View() == CustomerStarts(old(c.View()), uniqueID, start)
    ensures c.makers == old(c.makers) + (if customer != null && start.StartCreate? then {uniqueID} else {})
  {
    var t, maker := HandleTalkStart(c, start);
    if t.None? {
      return null, false;
    }
    customer := c.NewCustomer(t.value, maker, uniqueID);
    ok := c.InstallCustomer(customer, maker);
  }

  /** A servicer's stream begins. */
  method Service(c: ServicerController, userID: nat, uniqueID: nat) returns (servicer: Servicer, ok: bool)
    requires c.Valid() && uniqueID !in c.md.registry.pool
    modifies c`chInstall, c.md.registry`pool, c.md.registry`all
    ensures c.Valid() && c.md.Knows(servicer) && servicer.uniqueID == uniqueID
    ensures ok == (|old(c.chInstall)| < REQUEST_CAPACITY)
    ensures c.View() == ServicerStarts(old(c.View()), uniqueID, userID)
  {
    servicer := c.NewServicer(userID, uniqueID);
    ok := c.InstallServicer(servicer);
  }

  method CustomerTurn(c: CustomerController, customer: Customer, request: TalkRequest, next: nat)
    returns (next': nat, on: bool)
    requires c.Valid() && c.md.Knows(customer)
    modifies c`chMessage, c`chClose, c.md.m`messages
    ensures c.Valid() && c.md.Knows(customer)
    ensures Received(c.View(), next', on)
         == CustomerGets(Received(old(c.View()), next, true), customer.uniqueID, customer.key, request)
  {
    next', on := next, true;
    match request
    case PostMessage(at, text, seqId, down) =>
      var message := Msg(at, text, Sender(true, customer.uniqueID), next);
      var ok := c.md.m.AddTalkMessage(customer.key, message, down);
      if ok {
        next' := next + 1;
        on := c.CustomerMessageIncoming(customer, seqId, message);
      }
    case CloseTalk => on := c.CustomerClose(customer);
    case UnknownRequest =>
  }

  /** Goes on until the controller refuses something. */
  method CustomerReceiveRoutine(c: CustomerController, customer: Customer, requests: seq<TalkRequest>)
    returns (next: nat, on: bool)
    requires c.Valid() && c.md.Knows(customer)
    modifies c`chMessage, c`chClose, c.md.m`messages
    ensures c.Valid()
    ensures Received(c.View(), next, on)
         == CustomerGetsAll(Received(old(c.View()), 0, true), customer.uniqueID, customer.key, requests)
  {
    ghost var first := Received(c.View(), 0, true);
    next, on := 0, true;
    var i := 0;
    while on && i < |requests|
      invariant 0 <= i <= |requests| && c.Valid() && c.md.Knows(customer)
      invariant Received(c.View(), next, on) == CustomerGetsAll(first, customer.uniqueID, customer.key, requests[..i])
    {
      assert requests[..i + 1][..i] == requests[..i];
      next, on := CustomerTurn(c, customer, requests[i], next);
      i := i + 1;
    }
    if on {
      assert requests[..i] == requests;
    } else {
      CustomerStopped(first, customer.uniqueID, customer.key, requests, i);
    }
  }

  /** The requests that store nothing. */
  method ServicerAsks(c: ServicerController, servicer: Servicer, request: ServiceRequest, ghost next: nat)
    requires c.Valid() && c.md.Knows(servicer) && !request.PostServiceMessage?
    modifies c`chAttach, c`chDetach, c`chReload, c.md.registry.all
    ensures c.Valid() && c.md.Knows(servicer) && c.md.registry.all == old(c.md.registry.all)
    ensures Received(c.View(), next, true)
         == ServicerGets(Received(old(c.View()), next, true), servicer.uniqueID, request)
  {
    match request
    case AttachTalk(t) => var _ := c.ServicerAttachTalk(servicer, t);
    case DetachTalk(t) => var _ := c.ServicerDetachTalk(servicer, t);
    case ReloadTalk(t) => var _ := c.ServicerReloadTalk(servicer, t);
    case QueryAttached(ready, f) => var _ := c.ServicerQueryAttachedTalks(servicer, ready, f);
    case QueryPending(ready, f) => var _ := c.ServicerQueryPendingTalks(servicer, ready, f);
    case UnknownServiceRequest =>
  }

  method ServicerTurn(c: ServicerController, servicer: Servicer, request: ServiceRequest, next: nat)
    returns (next': nat, on: bool)
    requires c.Valid() && c.md.Knows(servicer)
    modifies c`chAttach, c`chDetach, c`chReload, c`chMessage, c.md.m`messages, c.md.registry.all
    ensures c.Valid() && c.md.Knows(servicer) && c.md.registry.all == old(c.md.registry.all)
    ensures Received(c.View(), next', on)
         == ServicerGets(Received(old(c.View()), next, true), servicer.uniqueID, request)
  {
    next', on := next, true;
    match request
    case PostServiceMessage(t, at, text, seqId, down) =>
      var message := Msg(at, text, Sender(false, servicer.uniqueID), next);
      on := c.md.m.AddTalkMessage(t, message, down);
      if on {
        next' := next + 1;
        var _ := c.ServicerMessageIncoming(servicer, seqId, t, message);
      }
    case _ => ServicerAsks(c, servicer, request, next);
  }

  /** Goes on, whatever the controller refuses, until a message cannot be stored. */
  method ServicerReceiveRoutine(c: ServicerController, servicer: Servicer, requests: seq<ServiceRequest>)
    returns (next: nat, on: bool)
    requires c.Valid() && c.md.Knows(servicer)
    modifies c`chAttach, c`chDetach, c`chReload, c`chMessage, c.md.m`messages, c.md.registry.all
    ensures c.Valid()
    ensures Received(c.View(), next, on)
            == ServicerGetsAll(Received(old(c.View()), 0, true), servicer.uniqueID, requests)
  {
    ghost var first := Received(c.View(), 0, true);
    next, on := 0, true;
    var i := 0;
    while on && i < |requests|
      invariant 0 <= i <= |requests| && c.Valid() && c.md.Knows(servicer)
      invariant c.md.registry.all == old(c.md.registry.all)
      invariant Received(c.View(), next, on) == ServicerGetsAll(first, servicer.uniqueID, requests[..i])
    {
      assert requests[..i + 1][..i] == requests[..i];
      next, on := ServicerTurn(c, servicer, requests[i], next);
      i := i + 1;
    }
    if on {
      assert requests[..i] == requests;
    } else {
      ServicerStopped(first, servicer.uniqueID, requests, i);
    }
  }
}
