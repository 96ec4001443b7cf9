/** Every step offers a customer's session just what OfferShapes lists for it. */
module OfferFacts {
  import opened Defs
  import opened TalkStore
  import opened Hubs
  import opened HubFacts
  import opened Sides
  import opened Engine
  import opened Shapes
  import opened EngineFacts
  import opened Frames
  import opened OfferShapes
  import CL = CustomerLogic

  lemma NothingOffered(s: CustomerSess)
    ensures Offered(s, s, [])
  {
  }

  lemma SendToOffers(h: CL.CustomerHub, x: nat, r: TalkResponse, q: nat)
    requires q in h.sess
    ensures Offered(h.sess[q], SendTo(h, x, r).sess[q], if x == q then [r] else [])
  {
  }

  lemma ConfirmOffers(h: CL.CustomerHub, x: nat, r: TalkResponse, drained: bool, q: nat)
    requires q in h.sess
    ensures q in ConfirmOrDrop(h, x, r, CL.SEND_FAILED, drained).sess
    ensures Offered(h.sess[q], ConfirmOrDrop(h, x, r, CL.SEND_FAILED, drained).sess[q], if x == q then [r] else [])
  {
  }

  lemma InstallHubOffers(h: CL.CustomerHub, st: Store, x: nat, maker: bool, f: Faults, q: nat)
    requires q in h.sess && x in h.sess && h.sess[x].key in st.talks && WellFormedId(h.sess[x].key)
    ensures q in CL.InstallCustomer(h, st, x, maker, f).hub.sess
    ensures Offered(h.sess[q], CL.InstallCustomer(h, st, x, maker, f).hub.sess[q],
                    if x == q then RefusalSends(st, h.sess[q].key, f) else [])
  {
    NothingOffered(h.sess[q]);
    if !CL.Installable(st, h.sess[x].key, f) {
      SendToOffers(h, x, CL.Refusal(st, h.sess[x].key, f), q);
    }
  }

  lemma InstallOffers(e: State, f: Faults, q: nat)
    requires KeysStored(e) && q in e.c.hub.sess
    ensures q in HandleCustomerInstall(e, f).c.hub.sess
    ensures Offered(e.c.hub.sess[q], HandleCustomerInstall(e, f).c.hub.sess[q], PickOffers(e, PickInstall(f), q))
  {
    NothingOffered(e.c.hub.sess[q]);
    if e.cMid == [] && e.c.install != [] && e.c.install[0] in e.c.hub.sess {
      var x := e.c.install[0];
      InstallHubOffers(e.c.hub, e.store, x, x in e.makers, f, q);
    }
  }

  lemma MessageOffers(e: State, drained: bool, q: nat)
    requires q in e.c.hub.sess
    ensures q in HandleCustomerMessage(e, drained).c.hub.sess
    ensures Offered(e.c.hub.sess[q], HandleCustomerMessage(e, drained).c.hub.sess[q],
                    PickOffers(e, PickMessage(drained), q))
  {
    NothingOffered(e.c.hub.sess[q]);
    if e.c.inbox != [] && e.c.inbox[0].conn in e.c.hub.sess {
      var d := e.c.inbox[0];
      ConfirmOffers(e.c.hub, d.conn, TalkResponse.MessageConfirmed(d.seqId, d.message.at), drained, q);
    }
  }

  lemma TaskOffers(h: CL.CustomerHub, task: CustomerTask, late: set<nat>, q: nat)
    requires HubOk(h) && q in h.sess && q != 0
    ensures q in CL.RunTask(h, task, late).sess
    ensures Offered(h.sess[q], CL.RunTask(h, task, late).sess[q],
                    if Registered(h, q) && h.sess[q].key == task.talkId then [ClosureSends(task)] else [])
  {
    var r := CL.TaskResponse(task);
    CastKeyBroadcasts(h, task.talkId, {0}, r, CL.SEND_FAILED, late);
    assert Got(h, CL.RunTask(h, task, late), q, AddressedByKey(h, task.talkId, {0}), r, CL.SEND_FAILED);
  }

  lemma RunnerOffers(e: State, late: set<nat>, q: nat)
    requires HubOk(e.c.hub) && q in e.c.hub.sess && q != 0
    ensures q in RunCustomerTask(e, late).c.hub.sess
    ensures Offered(e.c.hub.sess[q], RunCustomerTask(e, late).c.hub.sess[q], PickOffers(e, PickRunner(late), q))
  {
    NothingOffered(e.c.hub.sess[q]);
    if e.cPosted != [] {
      TaskOffers(e.c.hub, e.cPosted[0], late, q);
    }
  }

  lemma OtherPicksOffer(e: State, p: CustomerPick)
    requires p.PickUninstall? || p.PickClose? || p.PickCall?
    ensures CustomerLoop(e, p).c.hub.sess == e.c.hub.sess
  {
    match p
    case PickCall(down) => if e.cMid != [] { DeliverWaits(e.(cMid := e.cMid[1..]), e.cMid[0], down); }
    case _ =>
  }

  lemma LoopOffers(e: State, p: CustomerPick, q: nat)
    requires KeysStored(e) && HubOk(e.c.hub) && q in e.c.hub.sess && q != 0
    ensures q in CustomerLoop(e, p).c.hub.sess
    ensures Offered(e.c.hub.sess[q], CustomerLoop(e, p).c.hub.sess[q], PickOffers(e, p, q))
  {
    match p
    case PickInstall(f) => InstallOffers(e, f, q);
    case PickMessage(drained) => MessageOffers(e, drained, q);
    case PickRunner(late) => RunnerOffers(e, late, q);
    case _ => NothingOffered(e.c.hub.sess[q]); OtherPicksOffer(e, p);
  }

  lemma HistoryOffers(e: State, x: nat, q: nat)
    requires q in e.c.hub.sess
    ensures q in HistorySent(e, x).c.hub.sess
    ensures Offered(e.c.hub.sess[q], HistorySent(e, x).c.hub.sess[q],
                    CustomerOffers(e, CustomerStep(x, SendsHistory), q))
  {
    NothingOffered(e.c.hub.sess[q]);
    if x in e.history && e.history[x].ToSend? && x in e.c.hub.sess {
      SendToOffers(e.c.hub, x, CL.HistoryResponse(e.c.hub.sess[x].key, e.history[x].messages), q);
    }
  }

  lemma DrainOffersNothing(e: State, x: nat, q: nat)
    requires q in e.c.hub.sess
    ensures q in CustomerDrains(e, x).c.hub.sess && Offered(e.c.hub.sess[q], CustomerDrains(e, x).c.hub.sess[q], [])
  {
  }

  lemma ConnectOffersNothing(e: State, x: nat, a: CustomerAct, q: nat)
    requires q in e.c.hub.sess && e.c.conns.Keys == e.c.hub.sess.Keys && (a.Creates? || a.Opens?)
    ensures q in CustomerActs(e, x, a).c.hub.sess && CustomerActs(e, x, a).c.hub.sess[q] == e.c.hub.sess[q]
  {
  }

  lemma OtherActsOfferNothing(e: State, x: nat, a: CustomerAct)
    requires !a.SendsHistory? && !a.Drains? && !a.Creates? && !a.Opens?
    ensures CustomerActs(e, x, a).c.hub == e.c.hub
  {
  }

  lemma ActsOffer(e: State, x: nat, a: CustomerAct, q: nat)
    requires q in e.c.hub.sess && e.c.conns.Keys == e.c.hub.sess.Keys
    ensures q in CustomerActs(e, x, a).c.hub.sess
    ensures Offered(e.c.hub.sess[q], CustomerActs(e, x, a).c.hub.sess[q], CustomerOffers(e, CustomerStep(x, a), q))
  {
    match a
    case SendsHistory => HistoryOffers(e, x, q);
    case Drains => DrainOffersNothing(e, x, q);
    case Creates(_, _, _) => NothingOffered(e.c.hub.sess[q]); ConnectOffersNothing(e, x, a, q);
    case Opens(_, _) => NothingOffered(e.c.hub.sess[q]); ConnectOffersNothing(e, x, a, q);
    case _ => NothingOffered(e.c.hub.sess[q]); OtherActsOfferNothing(e, x, a);
  }

  lemma SessionsOfEngine(e: State)
    requires EngineOk(e)
    ensures KeysStored(e) && HubOk(e.c.hub) && e.c.conns.Keys == e.c.hub.sess.Keys && 0 !in e.c.hub.sess
  {
  }

  /** Each step offers each customer session what OfferShapes lists. */
  lemma CustomerStepOffers(e: State, a: Step, q: nat)
    requires EngineOk(e) && q in e.c.hub.sess
    ensures q in Next(e, a).c.hub.sess
    ensures Offered(e.c.hub.sess[q], Next(e, a).c.hub.sess[q], CustomerOffers(e, a, q))
  {
    SessionsOfEngine(e);
    match a
    case CustomerStep(x, act) => ActsOffer(e, x, act, q);
    case CustomerLoopStep(p) => LoopOffers(e, p, q);
    case ServicerStep(x, act) => NothingOffered(e.c.hub.sess[q]); ServicerActsElsewhere(e, x, act);
    case ServicerLoopStep(p) => NothingOffered(e.c.hub.sess[q]); ServicerLoopTakes(e, p);
  }
}
