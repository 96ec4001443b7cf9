/** Who is registered: exactly when a step lets a session into the registry and exactly when
    it takes one out. */
module Registrations {
  import opened Defs
  import opened TalkStore
  import opened Hubs
  import opened HubFacts
  import opened Sides
  import opened Engine
  import opened Shapes
  import opened EngineFacts
  import opened Frames
  import opened SendShapes
  import opened SendFacts
  import opened OfferShapes
  import opened OfferFacts
  import opened Streams
  import opened QueueShapes
  import CL = CustomerLogic
  import SL = ServicerLogic

  /** It handles its uninstall, or has something for it that its full queue cannot take. */
  predicate CustomerDropped(e: State, a: Step, q: nat) {
    || UninstallTaken(e, a) == Some(q)
    || (q in e.c.hub.sess && Full(e.c.hub.sess[q]) && a.CustomerLoopStep?
        && (a.customerPick.PickMessage? || a.customerPick.PickRunner?) && PickOffers(e, a.customerPick, q) != [])
  }

  predicate ServicerGranted(e: State, a: Step, q: nat) {
    ServicerInstallTaken(e, a) == Some(q) && q in e.s.hub.sess
  }

  predicate ServicerDropped(e: State, a: Step, q: nat) {
    || ServicerUninstallTaken(e, a) == Some(q)
    || (q in e.s.hub.sess && a.ServicerLoopStep? && (a.servicerPick.ServeMessage? || a.servicerPick.ServeRunner?)
        && Overflows(e.s.hub.sess[q], |Sends(e, a.servicerPick, q)|))
  }

  // ---- customers ----

  lemma CustomerInstallRegisters(e: State, f: Faults, q: nat)
    requires KeysStored(e) && HubOk(e.c.hub)
    ensures Registered(HandleCustomerInstall(e, f).c.hub, q)
            <==> Registered(e.c.hub, q) || CustomerGranted(e, CustomerLoopStep(PickInstall(f)), q)
  {
    if e.cMid == [] && e.c.install != [] && e.c.install[0] in e.c.hub.sess {
      EnterAdds(e.c.hub, e.c.install[0]);
    }
  }

  lemma UninstallRegisters(e: State, q: nat)
    requires HubOk(e.c.hub)
    ensures Registered(HandleCustomerUninstall(e).c.hub, q)
            <==> Registered(e.c.hub, q) && UninstallTaken(e, CustomerLoopStep(PickUninstall)) != Some(q)
  {
    if e.c.uninstall != [] {
      LeaveRegisters(e.c.hub, e.c.uninstall[0], q);
    }
  }

  lemma ConfirmRegisters<K, R>(h: Hub<K, R>, x: nat, r: R, kick: R, drained: bool, q: nat)
    requires HubOk(h) && x in h.sess
    ensures Registered(ConfirmOrDrop(h, x, r, kick, drained), q) <==> Registered(h, q) && !(x == q && Full(h.sess[x]))
  {
  }

  lemma PruneRegisters<K, R>(h: Hub<K, R>, k: K, q: nat)
    requires Filed(h)
    ensures Registered(Prune(h, k), q) <==> Registered(h, q)
  {
  }

  lemma MessageHubRegisters(h: CL.CustomerHub, st: Store, d: Incoming, drained: bool, q: nat)
    requires HubOk(h) && d.conn in h.sess
    ensures Registered(CL.CustomerMessageIncoming(h, st, d.conn, d.seqId, d.message, drained).hub, q)
            <==> Registered(h, q) && !(d.conn == q && Full(h.sess[q]))
  {
    var r := TalkResponse.MessageConfirmed(d.seqId, d.message.at);
    ConfirmRegisters(h, d.conn, r, CL.SEND_FAILED, drained, q);
    SteadyConfirmOrDrop(h, d.conn, r, CL.SEND_FAILED, drained);
    PruneRegisters(ConfirmOrDrop(h, d.conn, r, CL.SEND_FAILED, drained), h.sess[d.conn].key, q);
  }

  lemma MessageRegisters(e: State, drained: bool, q: nat)
    requires HubOk(e.c.hub) && q in e.c.hub.sess
    ensures Registered(HandleCustomerMessage(e, drained).c.hub, q)
            <==> Registered(e.c.hub, q)
                 && !(Full(e.c.hub.sess[q]) && PickOffers(e, PickMessage(drained), q) != [])
  {
    if e.c.inbox != [] && e.c.inbox[0].conn in e.c.hub.sess {
      MessageHubRegisters(e.c.hub, e.store, e.c.inbox[0], drained, q);
    }
  }

  lemma CustomerRunnerRegisters(e: State, late: set<nat>, q: nat)
    requires HubOk(e.c.hub) && q in e.c.hub.sess && q != 0
    ensures Registered(RunCustomerTask(e, late).c.hub, q)
            <==> Registered(e.c.hub, q) && !(Full(e.c.hub.sess[q]) && PickOffers(e, PickRunner(late), q) != [])
  {
    if e.cMid == [] && e.cPosted != [] {
      var task := e.cPosted[0];
      RegisteredAfterCastKey(e.c.hub, task.talkId, {0}, CL.TaskResponse(task), CL.SEND_FAILED, late, q);
    }
  }

  lemma OtherPicksRegister(e: State, p: CustomerPick)
    requires p.PickClose? || p.PickCall?
    ensures CustomerLoop(e, p).c.hub.reg == e.c.hub.reg
  {
    match p
    case PickCall(down) => if e.cMid != [] { DeliverWaits(e.(cMid := e.cMid[1..]), e.cMid[0], down); }
    case _ =>
  }

  lemma CustomerPicksRegister(e: State, p: CustomerPick, q: nat)
    requires KeysStored(e) && HubOk(e.c.hub) && q in e.c.hub.sess && q != 0
    ensures var a := CustomerLoopStep(p);
            Registered(CustomerLoop(e, p).c.hub, q)
            <==> CustomerGranted(e, a, q) || (Registered(e.c.hub, q) && !CustomerDropped(e, a, q))
  {
    match p
    case PickInstall(f) => CustomerInstallRegisters(e, f, q);
    case PickUninstall => UninstallRegisters(e, q);
    case PickMessage(drained) => MessageRegisters(e, drained, q);
    case PickRunner(late) => CustomerRunnerRegisters(e, late, q);
    case _ => OtherPicksRegister(e, p); OtherPicksOffer(e, p);
  }

  lemma CustomerActsRegister(e: State, x: nat, a: CustomerAct, q: nat)
    requires e.c.conns.Keys == e.c.hub.sess.Keys && q in e.c.hub.sess
    ensures Registered(CustomerActs(e, x, a).c.hub, q) <==> Registered(e.c.hub, q)
  {
    match a
    case SendsHistory =>
    case Drains =>
    case Creates(_, _, _) => ConnectOffersNothing(e, x, a, q);
    case Opens(_, _) => ConnectOffersNothing(e, x, a, q);
    case _ => OtherActsOfferNothing(e, x, a);
  }

  lemma CustomerStepRegisters(e: State, a: Step, q: nat)
    requires KeysStored(e) && HubOk(e.c.hub) && e.c.conns.Keys == e.c.hub.sess.Keys && q in e.c.hub.sess && q != 0
    ensures Registered(Next(e, a).c.hub, q)
            <==> CustomerGranted(e, a, q) || (Registered(e.c.hub, q) && !CustomerDropped(e, a, q))
  {
    match a
    case CustomerStep(x, act) => CustomerActsRegister(e, x, act, q);
    case CustomerLoopStep(p) => CustomerPicksRegister(e, p, q);
    case ServicerStep(x, act) => ServicerActsElsewhere(e, x, act);
    case ServicerLoopStep(p) => ServicerLoopTakes(e, p);
  }

  /** In every step a known customer session is registered afterwards exactly if its install
      was granted, or it was registered and was neither uninstalled nor sent something that
      its full queue could not take. */
  lemma CustomerRegisteredIff(e: State, a: Step, q: nat)
    requires EngineOk(e) && q in e.c.hub.sess
    ensures Registered(Next(e, a).c.hub, q)
            <==> CustomerGranted(e, a, q) || (Registered(e.c.hub, q) && !CustomerDropped(e, a, q))
  {
    SessionsOfEngine(e);
    CustomerStepRegisters(e, a, q);
  }

  // ---- servicers ----

  /** What is still to be sent to session q fits into its queue. */
  predicate Fits(s: ServicerSess, n: nat) {
    |s.sent| + n <= s.taken + SESSION_CAPACITY
  }

  lemma TellAllRegisters(h: SL.ServicerHub, r: ServiceResponse, late: set<nat>, q: nat)
    requires HubOk(h) && q in h.sess
    ensures Registered(CastAll(h, r, SL.SEND_FAILED, late), q) <==> Registered(h, q) && Fits(h.sess[q], 1)
  {
    RegisteredAfterCastAll(h, r, SL.SEND_FAILED, late, q);
  }

  lemma TakeOverRegisters(h: SL.ServicerHub, r: ServiceResponse, v: nat, x: ServiceResponse, late: set<nat>, q: nat)
    requires HubOk(h) && q in h.sess
    ensures var told := CastAll(h, r, SL.SEND_FAILED, late);
            Registered(CastKey(told, v, {}, x, SL.SEND_FAILED, late), q)
            <==> Registered(h, q) && Fits(h.sess[q], if h.sess[q].key == v then 2 else 1)
  {
    var told := CastAll(h, r, SL.SEND_FAILED, late);
    TellAllRegisters(h, r, late, q);
    SteadyCastAll(h, r, SL.SEND_FAILED, late);
    RegisteredAfterCastKey(told, v, {}, x, SL.SEND_FAILED, late, q);
    CastAllBroadcasts(h, r, SL.SEND_FAILED, late);
    EveryRegisteredIsUnder(h, q);
    assert Got(h, told, q, Under(h, h.reg.Keys), r, SL.SEND_FAILED);
  }

  lemma TaskRegisters(h: SL.ServicerHub, st: Store, task: ServicerTask, f: Faults, late: set<nat>, q: nat)
    requires HubOk(h) && q in h.sess && q != 0
    ensures Registered(SL.RunTask(h, st, task, f, late), q)
            <==> Registered(h, q) && Fits(h.sess[q], |TaskSends(st, task, f, h.sess[q].key)|)
  {
    match task
    case TellMessage(t, m) =>
      if Lookup(st, t).Some? {
        RegisteredAfterCastKey(h, Lookup(st, t).value.info.serviceID, {0}, ServiceResponse.ServiceMessage(t, m),
                               SL.MESSAGE_FAILED, late, q);
      }
    case TellCreate(t) =>
      if Lookup(st, t).Some? { TellAllRegisters(h, ServiceResponse.Detach(Card(Lookup(st, t).value), 0), late, q); }
    case TellClose(t) => TellAllRegisters(h, ServiceClose(t), late, q);
    case TellAttach(t, v) =>
      if Lookup(st, t).Some? {
        var r := ServiceResponse.Attach(Card(Lookup(st, t).value), v);
        var talk := SL.TalkWithMessages(st, t, f.second, f);
        if talk.Some? {
          TakeOverRegisters(h, r, v, Reload(talk.value), late, q);
        } else {
          TellAllRegisters(h, r, late, q);
        }
      }
    case TellDetach(talk, v) => TellAllRegisters(h, ServiceResponse.Detach(Card(talk), v), late, q);
  }

  lemma ServicerRunnerRegisters(e: State, f: Faults, late: set<nat>, q: nat)
    requires HubOk(e.s.hub) && q in e.s.hub.sess && q != 0
    ensures Registered(RunServicerTask(e, f, late).s.hub, q)
            <==> Registered(e.s.hub, q) && !Overflows(e.s.hub.sess[q], |Sends(e, ServeRunner(f, late), q)|)
  {
    if e.sMid == [] && e.sPosted != [] {
      TaskRegisters(e.s.hub, e.store, e.sPosted[0], f, late, q);
    }
  }

  lemma ServiceMessageRegisters(h: SL.ServicerHub, st: Store, d: Incoming, f: Faults, drained: bool, q: nat)
    requires HubOk(h) && d.conn in h.sess && q in h.sess
    ensures Registered(SL.ServiceMessage(h, st, d.conn, d.talkId, d.seqId, d.message, f, drained).hub, q)
            <==> Registered(h, q)
                 && Fits(h.sess[q], if d.conn == q then |MessageSends(st, h.sess[q].key, d, f)| else 0)
  {
    ConfirmRegisters(h, d.conn, ServiceConfirmed(d.seqId, d.message.at), SL.MESSAGE_FAILED, drained, q);
  }

  lemma ServicerMessageRegisters(e: State, f: Faults, drained: bool, q: nat)
    requires HubOk(e.s.hub) && q in e.s.hub.sess
    ensures Registered(HandleServicerMessage(e, f, drained).s.hub, q)
            <==> Registered(e.s.hub, q) && !Overflows(e.s.hub.sess[q], |Sends(e, ServeMessage(f, drained), q)|)
  {
    if e.sMid == [] && e.s.inbox != [] && e.s.inbox[0].conn in e.s.hub.sess {
      ServiceMessageRegisters(e.s.hub, e.store, e.s.inbox[0], f, drained, q);
    }
  }

  lemma ServicerInstallRegisters(e: State, f: Faults, q: nat)
    requires HubOk(e.s.hub)
    ensures Registered(HandleServicerInstall(e, f).s.hub, q)
            <==> Registered(e.s.hub, q) || ServicerGranted(e, ServicerLoopStep(ServeInstall(f)), q)
  {
    if e.sMid == [] && e.s.install != [] && e.s.install[0] in e.s.hub.sess {
      var x := e.s.install[0];
      InstallServicerSteady(e.s.hub, e.store, x, f);
      EnterAdds(SL.PendingList(SL.AttachedTalks(e.s.hub, e.store, x, f), e.store, x, f.second), x);
    }
  }

  lemma ServicerUninstallRegisters(e: State, q: nat)
    requires HubOk(e.s.hub)
    ensures Registered(HandleServicerUninstall(e).s.hub, q)
            <==> Registered(e.s.hub, q) && ServicerUninstallTaken(e, ServicerLoopStep(ServeUninstall)) != Some(q)
  {
    if e.s.uninstall != [] {
      LeaveRegisters(e.s.hub, e.s.uninstall[0], q);
    }
  }

  lemma CallsRegister(e: State, down: bool, q: nat)
    ensures Registered(ServicerLoopCalls(e, down).s.hub, q) <==> Registered(e.s.hub, q)
  {
    if e.sMid != [] {
      DeliverWaits(e.(sMid := e.sMid[1..]), e.sMid[0], down);
    }
  }

  lemma QuietPicksRegister(e: State, p: ServicerPick, q: nat)
    requires !p.ServeInstall? && !p.ServeUninstall? && !p.ServeMessage? && !p.ServeRunner?
    requires q in e.s.hub.sess
    ensures Registered(ServicerLoop(e, p).s.hub, q) <==> Registered(e.s.hub, q)
  {
    if p.ServeCall? {
      CallsRegister(e, p.down, q);
    }
  }

  lemma ServicerPicksRegister(e: State, p: ServicerPick, q: nat)
    requires HubOk(e.s.hub) && q in e.s.hub.sess && q != 0
    ensures var a := ServicerLoopStep(p);
            Registered(ServicerLoop(e, p).s.hub, q)
            <==> ServicerGranted(e, a, q) || (Registered(e.s.hub, q) && !ServicerDropped(e, a, q))
  {
    match p
    case ServeInstall(f) => ServicerInstallRegisters(e, f, q);
    case ServeUninstall => ServicerUninstallRegisters(e, q);
    case ServeMessage(f, drained) => ServicerMessageRegisters(e, f, drained, q);
    case ServeRunner(f, late) => ServicerRunnerRegisters(e, f, late, q);
    case _ => QuietPicksRegister(e, p, q);
  }

  lemma ServicerStepRegisters(e: State, a: Step, q: nat)
    requires HubOk(e.s.hub) && e.s.conns.Keys == e.s.hub.sess.Keys && q in e.s.hub.sess && q != 0
    ensures Registered(Next(e, a).s.hub, q)
            <==> ServicerGranted(e, a, q) || (Registered(e.s.hub, q) && !ServicerDropped(e, a, q))
  {
    match a
    case CustomerStep(x, act) => CustomerActsElsewhere(e, x, act);
    case CustomerLoopStep(p) => CustomerLoopTakes(e, p);
    case ServicerStep(x, act) => ServicerActsStay(e, x, act, q); ServicerActsSendNothing(e, x, act, q);
    case ServicerLoopStep(p) => ServicerPicksRegister(e, p, q);
  }

  lemma ServicersOfEngine(e: State)
    requires EngineOk(e)
    ensures HubOk(e.s.hub) && e.s.conns.Keys == e.s.hub.sess.Keys && 0 !in e.s.hub.sess
  {
  }

  /** The same for a servicer's session, whose install is always granted. */
  lemma ServicerRegisteredIff(e: State, a: Step, q: nat)
    requires EngineOk(e) && q in e.s.hub.sess
    ensures Registered(Next(e, a).s.hub, q)
            <==> ServicerGranted(e, a, q) || (Registered(e.s.hub, q) && !ServicerDropped(e, a, q))
  {
    ServicersOfEngine(e);
    ServicerStepRegisters(e, a, q);
  }
}
