/** What a session learns of its own eviction: the kick-out goes through the queue that has no
    room, so it arrives only if the stream takes an item in between. */
module Evictions {
  import opened Defs
  import opened TalkStore
  import opened Hubs
  import opened HubFacts
  import opened Sides
  import opened Engine
  import opened Shapes
  import opened EngineFacts
  import opened Lifetimes
  import opened SendShapes
  import CL = CustomerLogic
  import SL = ServicerLogic

  /** The stream takes an item between the failed send and the kick-out. */
  predicate CustomerTakes(p: CustomerPick, q: nat) {
    match p
    case PickMessage(drained) => drained
    case PickRunner(late) => q in late
    case _ => false
  }

  predicate ServicerTakes(p: ServicerPick, q: nat) {
    match p
    case ServeMessage(_, drained) => drained
    case ServeRunner(_, late) => q in late
    case _ => false
  }

  /** A full session after its eviction. */
  function Evicted<K, R>(s: Sess<K, R>, kick: R, taken: bool): Sess<K, R> {
    if taken then Sess(s.key, s.sent + [kick], s.taken + 1, true) else Sess(s.key, s.sent, s.taken, true)
  }

  lemma CastKeySends<K, R>(h: Hub<K, R>, k: K, excluded: set<nat>, r: R, kick: R, late: set<nat>, q: nat)
    requires HubOk(h) && q in h.sess
    ensures q in CastKey(h, k, excluded, r, kick, late).sess
    ensures CastKey(h, k, excluded, r, kick, late).sess[q]
         == if Registered(h, q) && h.sess[q].key == k && q !in excluded then OfferOrKick(h.sess[q], r, kick, q in late)
            else h.sess[q]
  {
  }

  lemma CastAllSends<K, R>(h: Hub<K, R>, r: R, kick: R, late: set<nat>, q: nat)
    requires HubOk(h) && q in h.sess
    ensures q in CastAll(h, r, kick, late).sess
    ensures CastAll(h, r, kick, late).sess[q]
         == if Registered(h, q) then OfferOrKick(h.sess[q], r, kick, q in late) else h.sess[q]
  {
    EveryRegisteredIsUnder(h, q);
  }

  lemma ConfirmSends<K, R>(h: Hub<K, R>, q: nat, r: R, kick: R, drained: bool)
    requires q in h.sess
    ensures q in ConfirmOrDrop(h, q, r, kick, drained).sess
    ensures ConfirmOrDrop(h, q, r, kick, drained).sess[q] == OfferOrKick(h.sess[q], r, kick, drained)
  {
  }

  lemma MessageEvicts(e: State, drained: bool, q: nat)
    requires EngineOk(e) && SendsToCustomer(e, CustomerLoopStep(PickMessage(drained)), q) && Full(e.c.hub.sess[q])
    ensures q in HandleCustomerMessage(e, drained).c.hub.sess
    ensures HandleCustomerMessage(e, drained).c.hub.sess[q] == Evicted(e.c.hub.sess[q], CL.SEND_FAILED, drained)
  {
    var d := e.c.inbox[0];
    ConfirmSends(e.c.hub, q, TalkResponse.MessageConfirmed(d.seqId, d.message.at), CL.SEND_FAILED, drained);
  }

  lemma CustomerTaskEvicts(h: CL.CustomerHub, task: CustomerTask, late: set<nat>, q: nat)
    requires HubOk(h) && Registered(h, q) && Full(h.sess[q]) && h.sess[q].key == task.talkId && q != 0
    ensures q in CL.RunTask(h, task, late).sess
    ensures CL.RunTask(h, task, late).sess[q] == Evicted(h.sess[q], CL.SEND_FAILED, q in late)
  {
    CastKeySends(h, task.talkId, {0}, CL.TaskResponse(task), CL.SEND_FAILED, late, q);
  }

  lemma RunnerEvicts(e: State, late: set<nat>, q: nat)
    requires EngineOk(e) && SendsToCustomer(e, CustomerLoopStep(PickRunner(late)), q)
    requires Registered(e.c.hub, q) && Full(e.c.hub.sess[q])
    ensures q in RunCustomerTask(e, late).c.hub.sess
    ensures RunCustomerTask(e, late).c.hub.sess[q] == Evicted(e.c.hub.sess[q], CL.SEND_FAILED, q in late)
  {
    CustomerTaskEvicts(e.c.hub, e.cPosted[0], late, q);
  }

  /** A customer that is evicted is told so exactly if its stream takes an item in between, and
      then the kick-out is the last thing in it. */
  lemma CustomerEvictionIsToldIff(e: State, p: CustomerPick, q: nat)
    requires EngineOk(e) && SendsToCustomer(e, CustomerLoopStep(p), q)
    requires Registered(e.c.hub, q) && Full(e.c.hub.sess[q])
    ensures q in CustomerLoop(e, p).c.hub.sess
    ensures CustomerLoop(e, p).c.hub.sess[q] == Evicted(e.c.hub.sess[q], CL.SEND_FAILED, CustomerTakes(p, q))
  {
    match p
    case PickRunner(late) => RunnerEvicts(e, late, q);
    case PickMessage(drained) => MessageEvicts(e, drained, q);
  }

  lemma AttachEvicts(h: SL.ServicerHub, r: ServiceResponse, u: nat, more: ServiceResponse, late: set<nat>, q: nat)
    requires HubOk(h) && Registered(h, q) && Full(h.sess[q])
    ensures var told := CastAll(h, r, SL.SEND_FAILED, late);
            var last := CastKey(told, u, {}, more, SL.SEND_FAILED, late);
            && q in told.sess && told.sess[q] == Evicted(h.sess[q], SL.SEND_FAILED, q in late)
            && q in last.sess && last.sess[q] == told.sess[q]
  {
    CastAllSends(h, r, SL.SEND_FAILED, late, q);
    SteadyCastAll(h, r, SL.SEND_FAILED, late);
    AllReached(h, r, SL.SEND_FAILED, late, q);
    CastKeySends(CastAll(h, r, SL.SEND_FAILED, late), u, {}, more, SL.SEND_FAILED, late, q);
  }

  lemma TaskEvicts(e: State, f: Faults, late: set<nat>, q: nat)
    requires EngineOk(e) && SendsToServicer(e, ServicerLoopStep(ServeRunner(f, late)), q)
    requires Registered(e.s.hub, q) && Full(e.s.hub.sess[q])
    ensures var h', kick := SL.RunTask(e.s.hub, e.store, e.sPosted[0], f, late),
                            if e.sPosted[0].TellMessage? then SL.MESSAGE_FAILED else SL.SEND_FAILED;
            q in h'.sess && h'.sess[q] == Evicted(e.s.hub.sess[q], kick, q in late)
  {
    var h, st := e.s.hub, e.store;
    match e.sPosted[0]
    case TellMessage(t, m) =>
      CastKeySends(h, Lookup(st, t).value.info.serviceID, {0}, ServiceResponse.ServiceMessage(t, m),
                   SL.MESSAGE_FAILED, late, q);
    case TellCreate(t) =>
      CastAllSends(h, ServiceResponse.Detach(Card(Lookup(st, t).value), 0), SL.SEND_FAILED, late, q);
    case TellClose(t) => CastAllSends(h, ServiceClose(t), SL.SEND_FAILED, late, q);
    case TellAttach(t, u) =>
      var talk := SL.TalkWithMessages(st, t, f.second, f);
      AttachEvicts(h, ServiceResponse.Attach(Card(Lookup(st, t).value), u), u,
                   if talk.Some? then Reload(talk.value) else Notify(""), late, q);
    case TellDetach(talk, u) => CastAllSends(h, ServiceResponse.Detach(Card(talk), u), SL.SEND_FAILED, late, q);
  }

  /** And so is a servicer. */
  lemma ServicerEvictionIsToldIff(e: State, p: ServicerPick, q: nat)
    requires EngineOk(e) && SendsToServicer(e, ServicerLoopStep(p), q)
    requires Registered(e.s.hub, q) && Full(e.s.hub.sess[q])
    ensures q in ServicerLoop(e, p).s.hub.sess
    ensures var told := p.ServeMessage? || e.sPosted[0].TellMessage?;
            ServicerLoop(e, p).s.hub.sess[q]
            == Evicted(e.s.hub.sess[q], if told then SL.MESSAGE_FAILED else SL.SEND_FAILED, ServicerTakes(p, q))
  {
    match p
    case ServeRunner(f, late) => TaskEvicts(e, f, late, q);
    case ServeMessage(f, drained) =>
  }
}
