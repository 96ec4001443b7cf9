/** No gap for customers: a session registers before its history is read, and messages are
    stored before they are broadcast, so every message of its talk is in its history, in its
    live deliveries, or still underway to it. */
module NoGapCustomers {
  import opened Defs
  import opened TalkStore
  import opened Hubs
  import opened HubFacts
  import opened Sides
  import opened AllInOne
  import opened Engine
  import opened Shapes
  import opened EngineFacts
  import opened LiveShapes
  import opened Persistence
  import opened Frames
  import opened GapShapes
  import CL = CustomerLogic
  import SL = ServicerLogic

  lemma CarryCovered(e: State, e': State)
    requires NoGap(e) && SameHistories(e, e') && UnderwayKept(e, e')
    ensures NoGap(e')
  {
    if !e'.cLost {
      forall q | Registered(e'.c.hub, q)
        ensures SessionCovered(e', q)
      {
        assert SessionCovered(e, q);
        var t := e'.c.hub.sess[q].key;
        forall m, read: seq<Msg> | (t, m) in e.log.bus && Covered(e, q, m, read)
          ensures Covered(e', q, m, read)
        {
          if LiveFor(e.c.hub, q, m) {
            assert LiveFor(e'.c.hub, q, m);
          }
        }
        forall m | (t, m) in e'.log.bus
          ensures Underway(e', t, m) || (t, m) in e.log.bus
        {
        }
      }
    }
  }

  // ---- the posted closures and the callbacks ----

  lemma DeliverKeeps(e: State, e0: State, b: Callback, down: bool)
    requires e0.cPosted == e.cPosted && e0.cLost == e.cLost && e0.log == e.log && e0.c.hub == e.c.hub
    requires (e0.cMid == e.cMid && e.sMid == [b] + e0.sMid) || (e0.sMid == e.sMid && e.cMid == [b] + e0.cMid)
    ensures UnderwayKept(e, Deliver(e0, b, down))
    ensures Deliver(e0, b, down).c == e0.c && Deliver(e0, b, down).history == e0.history
  {
    var e' := Deliver(e0, b, down);
    forall t, m | Underway(e, t, m) && !e'.cLost
      ensures Underway(e', t, m)
    {
      if b == CustomerOnMessage(t, m) {
        assert CastMessage(t, m) in e'.cPosted;
      } else if CastMessage(t, m) in e.cPosted {
        assert CastMessage(t, m) in e'.cPosted;
      } else {
        assert CustomerOnMessage(t, m) in e'.cMid || CustomerOnMessage(t, m) in e'.sMid;
      }
    }
  }

  lemma TaskTells(h: CL.CustomerHub, task: CustomerTask, late: set<nat>, q: nat)
    requires HubOk(h) && q in h.sess && q != 0
    ensures var h' := CL.RunTask(h, task, late);
            && q in h'.sess && h'.sess[q].key == h.sess[q].key
            && (Registered(h', q) ==>
                  Registered(h, q) && h'.sess[q].sent
                    == h.sess[q].sent + (if h.sess[q].key == task.talkId then [CL.TaskResponse(task)] else []))
  {
    CastKeyBroadcasts(h, task.talkId, {0}, CL.TaskResponse(task), CL.SEND_FAILED, late);
    assert Got(h, CL.RunTask(h, task, late), q, AddressedByKey(h, task.talkId, {0}), CL.TaskResponse(task),
               CL.SEND_FAILED);
  }

  lemma TaskUnderway(e: State, e': State)
    requires e.cPosted != [] && e'.cPosted == e.cPosted[1..] && e'.cMid == e.cMid && e'.sMid == e.sMid
    ensures forall t, m | Underway(e, t, m) :: Underway(e', t, m) || e.cPosted[0] == CastMessage(t, m)
  {
    forall t, m | CastMessage(t, m) in e.cPosted && e.cPosted[0] != CastMessage(t, m)
      ensures CastMessage(t, m) in e'.cPosted
    {
    }
  }

  lemma TaskTellsAll(h: CL.CustomerHub, task: CustomerTask, late: set<nat>)
    requires HubOk(h) && 0 !in h.sess
    ensures Told(h, CL.RunTask(h, task, late), task.talkId, CL.TaskResponse(task))
  {
    CustomerTaskSteady(h, task, late);
    forall q | Registered(CL.RunTask(h, task, late), q)
      ensures q in h.sess && q != 0
    {
    }
    forall q | q in h.sess {
      TaskTells(h, task, late, q);
    }
  }

  lemma ToldKeeps(e: State, e': State)
    requires e.cPosted != [] && e'.cPosted == e.cPosted[1..] && e'.cMid == e.cMid && e'.sMid == e.sMid
    requires e'.log == e.log && e'.cLost == e.cLost && e'.history == e.history
    requires Told(e.c.hub, e'.c.hub, e.cPosted[0].talkId, CL.TaskResponse(e.cPosted[0]))
    ensures SameHistories(e, e') && UnderwayKept(e, e')
  {
    TaskUnderway(e, e');
    var task := e.cPosted[0];
    forall q | Registered(e'.c.hub, q)
      ensures task.CastMessage? && e'.c.hub.sess[q].key == task.talkId ==> LiveFor(e'.c.hub, q, task.message)
    {
    }
  }

  lemma TaskCovered(e: State, late: set<nat>)
    requires HubOk(e.c.hub) && 0 !in e.c.hub.sess && NoGap(e)
    ensures NoGap(RunCustomerTask(e, late))
  {
    if e.cMid == [] && e.cPosted != [] {
      TaskTellsAll(e.c.hub, e.cPosted[0], late);
      ToldKeeps(e, RunCustomerTask(e, late));
      CarryCovered(e, RunCustomerTask(e, late));
    }
  }

  // ---- the steps ----

  lemma HistoryReadCovered(e: State, q: nat, down: bool)
    requires NoGap(e) && BusStored(e.log.bus, e.store)
    ensures NoGap(HistoryRead(e, q, down))
  {
    var e' := HistoryRead(e, q, down);
    if !e'.cLost {
      forall p | Registered(e'.c.hub, p)
        ensures SessionCovered(e', p)
      {
        assert SessionCovered(e, p);
      }
    }
  }

  lemma HistorySentCovered(e: State, q: nat)
    requires NoGap(e)
    ensures NoGap(HistorySent(e, q))
  {
    var e' := HistorySent(e, q);
    if !e'.cLost && q in e.history && e.history[q].ToSend? && q in e.c.hub.sess {
      forall p | Registered(e'.c.hub, p)
        ensures SessionCovered(e', p)
      {
        assert Registered(e.c.hub, p) && SessionCovered(e, p);
        assert forall r | r in e.c.hub.sess[p].sent :: r in e'.c.hub.sess[p].sent;
        forall m, read: seq<Msg> | Covered(e, p, m, read)
          ensures Covered(e', p, m, read)
        {
        }
      }
    }
  }

  /** A hub step of the customer loop that sends no history and no message. */
  ghost predicate Quiet(e: State, e': State) {
    && SameHistories(e, e') && e'.cPosted == e.cPosted && e'.sMid == e.sMid && e'.cLost == e.cLost
    && e.cMid == []
  }

  lemma QuietCovered(e: State, e': State)
    requires NoGap(e) && Quiet(e, e')
    requires forall t, m | (t, m) in e'.log.bus :: (t, m) in e.log.bus || CustomerOnMessage(t, m) in e'.cMid
    ensures NoGap(e')
  {
    CarryCovered(e, e');
  }

  lemma RefusalQuiet(e: State, f: Faults)
    requires HubOk(e.c.hub)
    requires e.cMid == [] && e.c.install != [] && e.c.install[0] in e.c.hub.sess
    requires !CL.Installable(e.store, e.c.hub.sess[e.c.install[0]].key, f)
    ensures Quiet(e, HandleCustomerInstall(e, f))
  {
    var q := e.c.install[0];
    SteadySendTo(e.c.hub, q, CL.Refusal(e.store, e.c.hub.sess[q].key, f));
  }

  /** The session that enters has been sent no history yet and is about to have one read. */
  lemma EntryCovered(e: State, e': State, q: nat)
    requires NoGap(e) && NoEarlyHistory(e) && q in e.c.hub.sess && q !in e.history
    requires e'.c.hub.sess == e.c.hub.sess && e'.history == e.history[q := ToRead]
    requires forall p | Registered(e'.c.hub, p) :: Registered(e.c.hub, p) || p == q
    requires e.cMid == [] && e'.cPosted == e.cPosted && e'.sMid == e.sMid && e'.cLost == e.cLost
             && e'.log.bus == e.log.bus
    ensures NoGap(e')
  {
    if !e'.cLost {
      forall p | Registered(e'.c.hub, p)
        ensures SessionCovered(e', p)
      {
        if p != q {
          assert SessionCovered(e, p);
          forall m, read: seq<Msg> | Covered(e, p, m, read)
            ensures Covered(e', p, m, read)
          {
          }
        }
      }
    }
  }

  lemma InstallCovered(e: State, f: Faults)
    requires HubOk(e.c.hub) && NoGap(e) && NoEarlyHistory(e)
    requires forall q | q in e.c.install :: q !in e.history
    ensures NoGap(HandleCustomerInstall(e, f))
  {
    if e.cMid == [] && e.c.install != [] && e.c.install[0] in e.c.hub.sess {
      var q := e.c.install[0];
      if CL.Installable(e.store, e.c.hub.sess[q].key, f) {
        EnterAdds(e.c.hub, q);
        EntryCovered(e, HandleCustomerInstall(e, f), q);
      } else {
        RefusalQuiet(e, f);
        QuietCovered(e, HandleCustomerInstall(e, f));
      }
    }
  }

  // ---- no history before the install ----

  /** Every history a session has been sent was there before. */
  ghost predicate NoNewHistory(h: CL.CustomerHub, h': CL.CustomerHub) {
    forall q, r | q in h'.sess && r in h'.sess[q].sent && r.Messages? :: q in h.sess && r in h.sess[q].sent
  }

  lemma HandlersSendNoHistory(h: CL.CustomerHub, st: Store, q: nat, maker: bool, seqId: nat, m: Msg, drained: bool,
                              f: Faults)
    requires q in h.sess
    ensures NoNewHistory(h, CL.InstallCustomer(h, st, q, maker, f).hub)
    ensures NoNewHistory(h, CL.CustomerMessageIncoming(h, st, q, seqId, m, drained).hub)
  {
  }

  lemma TaskSendsNoHistory(h: CL.CustomerHub, task: CustomerTask, late: set<nat>)
    requires Filed(h)
    ensures NoNewHistory(h, CL.RunTask(h, task, late))
  {
    var h' := CL.RunTask(h, task, late);
    CastKeyBroadcasts(h, task.talkId, {0}, CL.TaskResponse(task), CL.SEND_FAILED, late);
    forall q, r | q in h'.sess && r in h'.sess[q].sent && r.Messages?
      ensures q in h.sess && r in h.sess[q].sent
    {
      assert Got(h, h', q, AddressedByKey(h, task.talkId, {0}), CL.TaskResponse(task), CL.SEND_FAILED);
    }
  }

  lemma InstallSendsNoHistory(e: State, f: Faults)
    ensures NoNewHistory(e.c.hub, HandleCustomerInstall(e, f).c.hub)
  {
    if e.c.install != [] && e.c.install[0] in e.c.hub.sess {
      HandlersSendNoHistory(e.c.hub, e.store, e.c.install[0], e.c.install[0] in e.makers, 0,
                            Msg(0, "", Sender(true, 0), 0), false, f);
    }
  }

  lemma MessageSendsNoHistory(e: State, drained: bool)
    ensures NoNewHistory(e.c.hub, HandleCustomerMessage(e, drained).c.hub)
  {
    if e.c.inbox != [] && e.c.inbox[0].conn in e.c.hub.sess {
      var d := e.c.inbox[0];
      HandlersSendNoHistory(e.c.hub, e.store, d.conn, false, d.seqId, d.message, drained, NO_FAULTS);
    }
  }

  lemma CustomerLoopSendsNoHistory(e: State, p: CustomerPick)
    requires Filed(e.c.hub)
    ensures NoNewHistory(e.c.hub, CustomerLoop(e, p).c.hub)
  {
    match p
    case PickInstall(f) => InstallSendsNoHistory(e, f);
    case PickMessage(drained) => MessageSendsNoHistory(e, drained);
    case PickRunner(late) => if e.cPosted != [] { TaskSendsNoHistory(e.c.hub, e.cPosted[0], late); }
    case PickCall(down) => if e.cMid != [] { DeliverWaits(e.(cMid := e.cMid[1..]), e.cMid[0], down); }
    case _ =>
  }

  lemma DeliverHistory(e: State, b: Callback, down: bool)
    ensures Deliver(e, b, down).history == e.history
  {
  }

  lemma CustomerLoopKeepsHistories(e: State, p: CustomerPick)
    ensures e.history.Keys <= CustomerLoop(e, p).history.Keys
  {
    if p.PickCall? && e.cMid != [] {
      DeliverHistory(e.(cMid := e.cMid[1..]), e.cMid[0], p.down);
    }
  }

  lemma CustomerActsNoEarlyHistory(e: State, q: nat, a: CustomerAct)
    requires NoEarlyHistory(e)
    ensures NoEarlyHistory(CustomerActs(e, q, a))
  {
  }

  lemma ServicerActsLeaveCustomers(e: State, q: nat, a: ServicerAct)
    ensures ServicerActs(e, q, a).c == e.c && ServicerActs(e, q, a).history == e.history
  {
  }

  lemma ServicerActsLeaveUnderway(e: State, q: nat, a: ServicerAct)
    ensures UnderwayKept(e, ServicerActs(e, q, a))
  {
  }

  lemma ServicerLoopLeavesCustomers(e: State, p: ServicerPick)
    ensures ServicerLoop(e, p).c == e.c && ServicerLoop(e, p).history == e.history
  {
  }

  lemma StepNoEarlyHistory(e: State, a: Step)
    requires NoEarlyHistory(e) && Filed(e.c.hub)
    ensures NoEarlyHistory(Next(e, a))
  {
    match a
    case CustomerStep(q, act) => CustomerActsNoEarlyHistory(e, q, act);
    case CustomerLoopStep(pick) => CustomerLoopSendsNoHistory(e, pick); CustomerLoopKeepsHistories(e, pick);
    case ServicerStep(q, act) => ServicerActsLeaveCustomers(e, q, act);
    case ServicerLoopStep(pick) => ServicerLoopLeavesCustomers(e, pick);
  }

  // ---- every step ----

  lemma ConnectQuiet(h: CL.CustomerHub, q: nat, t: TalkId, p: nat)
    requires q !in h.sess && (forall k, x | k in h.reg && x in h.reg[k] :: x in h.sess)
    ensures Registered(h.(sess := h.sess[q := Sess(t, [], 0, false)]), p) ==> p != q && Registered(h, p)
  {
  }

  lemma CustomerActsQuietHub(e: State, q: nat, a: CustomerAct)
    requires SideShape(e.c) && !a.SendsHistory?
    ensures var h' := CustomerActs(e, q, a).c.hub;
            forall p | Registered(h', p) ::
              Registered(e.c.hub, p) && h'.sess[p].key == e.c.hub.sess[p].key && h'.sess[p].sent == e.c.hub.sess[p].sent
  {
    var h' := CustomerActs(e, q, a).c.hub;
    forall p | Registered(h', p)
      ensures Registered(e.c.hub, p) && h'.sess[p].key == e.c.hub.sess[p].key && h'.sess[p].sent == e.c.hub.sess[p].sent
    {
      if a.Creates? && q !in e.c.hub.sess {
        ConnectQuiet(e.c.hub, q, a.t, p);
      }
      if a.Opens? && q !in e.c.hub.sess {
        ConnectQuiet(e.c.hub, q, a.t, p);
      }
    }
  }

  lemma CustomerActsQuiet(e: State, q: nat, a: CustomerAct)
    requires !a.ReadsHistory? && !a.SendsHistory?
    ensures UnderwayKept(e, CustomerActs(e, q, a)) && CustomerActs(e, q, a).history == e.history
  {
  }

  lemma CustomerMessageCovered(e: State, drained: bool)
    requires HubOk(e.c.hub) && NoGap(e)
    ensures NoGap(HandleCustomerMessage(e, drained))
  {
    if e.cMid == [] && e.c.inbox != [] && e.c.inbox[0].conn in e.c.hub.sess {
      var d := e.c.inbox[0];
      CustomerMessageSteady(e.c.hub, e.store, d.conn, d.seqId, d.message, drained);
      HandlersSendNoHistory(e.c.hub, e.store, d.conn, false, d.seqId, d.message, drained, NO_FAULTS);
      QuietCovered(e, HandleCustomerMessage(e, drained));
    }
  }

  lemma CustomerUninstallCovered(e: State)
    requires HubOk(e.c.hub) && NoGap(e)
    ensures NoGap(HandleCustomerUninstall(e))
  {
    if e.cMid == [] && e.c.uninstall != [] {
      SteadyLeave(e.c.hub, e.c.uninstall[0]);
      QuietCovered(e, HandleCustomerUninstall(e));
    }
  }

  lemma CustomerCloseCovered(e: State, f: Faults)
    requires NoGap(e)
    ensures NoGap(HandleCustomerClose(e, f))
  {
    if e.cMid == [] && e.closes != [] && e.closes[0] in e.c.hub.sess {
      QuietCovered(e, HandleCustomerClose(e, f));
    }
  }

  lemma CustomerCallCovered(e: State, down: bool)
    requires NoGap(e)
    ensures NoGap(CustomerLoopCalls(e, down))
  {
    if e.cMid != [] {
      DeliverKeeps(e, e.(cMid := e.cMid[1..]), e.cMid[0], down);
      CarryCovered(e, CustomerLoopCalls(e, down));
    }
  }

  lemma CustomerLoopCovered(e: State, p: CustomerPick)
    requires HubOk(e.c.hub) && 0 !in e.c.hub.sess && NoGap(e) && NoEarlyHistory(e)
    requires forall q | q in e.c.install :: q !in e.history
    ensures NoGap(CustomerLoop(e, p))
  {
    match p
    case PickInstall(f) => InstallCovered(e, f);
    case PickUninstall => CustomerUninstallCovered(e);
    case PickMessage(drained) => CustomerMessageCovered(e, drained);
    case PickClose(f) => CustomerCloseCovered(e, f);
    case PickRunner(late) => TaskCovered(e, late);
    case PickCall(down) => CustomerCallCovered(e, down);
  }

  /** Between two calls on the bus the servicer loop may start one, or make its callbacks. */
  lemma ServicerLoopUnderway(e: State, p: ServicerPick)
    ensures UnderwayKept(e, ServicerLoop(e, p))
  {
    match p
    case ServeCall(down) => if e.sMid != [] { DeliverKeeps(e, e.(sMid := e.sMid[1..]), e.sMid[0], down); }
    case _ =>
  }

  lemma CustomerActsCovered(e: State, q: nat, a: CustomerAct)
    requires SideShape(e.c) && NoGap(e) && BusStored(e.log.bus, e.store)
    ensures NoGap(CustomerActs(e, q, a))
  {
    match a
    case ReadsHistory(down) => HistoryReadCovered(e, q, down);
    case SendsHistory => HistorySentCovered(e, q);
    case _ =>
      CustomerActsQuiet(e, q, a);
      CustomerActsQuietHub(e, q, a);
      CarryCovered(e, CustomerActs(e, q, a));
  }

  lemma ServicerStepsCovered(e: State, q: nat, a: ServicerAct, p: ServicerPick)
    requires NoGap(e)
    ensures NoGap(ServicerActs(e, q, a)) && NoGap(ServicerLoop(e, p))
  {
    ServicerActsLeaveCustomers(e, q, a);
    ServicerActsLeaveUnderway(e, q, a);
    CarryCovered(e, ServicerActs(e, q, a));
    ServicerLoopLeavesCustomers(e, p);
    ServicerLoopUnderway(e, p);
    CarryCovered(e, ServicerLoop(e, p));
  }

  lemma StepCovered(e: State, a: Step)
    requires SideShape(e.c) && HubOk(e.c.hub) && NoGap(e) && NoEarlyHistory(e) && BusStored(e.log.bus, e.store)
    requires forall q | q in e.c.install :: q !in e.history
    ensures NoGap(Next(e, a))
  {
    match a
    case CustomerStep(q, act) => CustomerActsCovered(e, q, act);
    case CustomerLoopStep(pick) => CustomerLoopCovered(e, pick);
    case ServicerStep(q, act) => ServicerStepsCovered(e, q, act, ServeUninstall);
    case ServicerLoopStep(pick) => ServicerStepsCovered(e, 0, ServicerDrain, pick);
  }

  lemma ShapeOfSide(c: Side<TalkId, TalkResponse>, history: map<nat, History>)
    requires SideOk(c) && forall q | q in history :: q in c.installed
    ensures SideShape(c) && HubOk(c.hub) && forall q | q in c.install :: q !in history
  {
  }

  lemma ShapeOfEngine(e: State)
    requires EngineOk(e)
    ensures SideShape(e.c) && HubOk(e.c.hub) && forall q | q in e.c.install :: q !in e.history
  {
    ShapeOfSide(e.c, e.history);
  }

  lemma {:induction false} RunCovered(e: State, steps: seq<Step>)
    requires Init(e)
    ensures NoGap(Run(e, steps)) && NoEarlyHistory(Run(e, steps))
  {
    if steps != [] {
      var before, a := Run(e, steps[..|steps| - 1]), steps[|steps| - 1];
      RunCovered(e, steps[..|steps| - 1]);
      RunPersists(e, steps[..|steps| - 1]);
      ShapeOfEngine(before);
      StepNoEarlyHistory(before, a);
      StepCovered(before, a);
    }
  }

  /** In every reachable state with no dropped post, a registered session that has been sent
      a history has each message its talk had put on the bus in that history, among its live
      messages, or still underway to it. */
  lemma {:induction false} NoGapForCustomers(e: State, steps: seq<Step>, q: nat, history: seq<Msg>, m: Msg)
    requires Init(e)
    ensures var x := Run(e, steps);
            !x.cLost && Registered(x.c.hub, q)
            && TalkResponse.Messages(x.c.hub.sess[q].key, history) in x.c.hub.sess[q].sent
            && (x.c.hub.sess[q].key, m) in x.log.bus
            ==> m in history || LiveFor(x.c.hub, q, m) || Underway(x, x.c.hub.sess[q].key, m)
  {
    RunCovered(e, steps);
    var x := Run(e, steps);
    if !x.cLost && Registered(x.c.hub, q) {
      assert SessionCovered(x, q);
    }
  }
}
