/** Persist before broadcast: whatever is queued, posted or sent live is already stored. */
module Persistence {
  import opened Defs
  import opened TalkStore
  import opened Hubs
  import opened HubFacts
  import opened Sides
  import opened AllInOne
  import opened Engine
  import opened Shapes
  import opened EngineFacts
  import opened Frames
  import opened Lifetimes
  import opened LiveShapes
  import CL = CustomerLogic
  import SL = ServicerLogic

  // ---- what the handlers send live ----

  lemma CustomersHearNothing(h: CL.CustomerHub, q: nat, r: TalkResponse, kick: TalkResponse, drained: bool, bus: BusLog)
    requires CustomersHeard(h, bus) && !r.Message? && !kick.Message?
    ensures CustomersHeard(SendTo(h, q, r), bus) && CustomersHeard(ConfirmOrDrop(h, q, r, kick, drained), bus)
  {
  }

  lemma CustomersHearTask(h: CL.CustomerHub, task: CustomerTask, late: set<nat>, bus: BusLog)
    requires Filed(h) && CustomersHeard(h, bus) && (task.CastMessage? ==> (task.talkId, task.message) in bus)
    ensures CustomersHeard(CL.RunTask(h, task, late), bus)
  {
    var h' := CL.RunTask(h, task, late);
    CastKeyBroadcasts(h, task.talkId, {0}, CL.TaskResponse(task), CL.SEND_FAILED, late);
    forall q, r | q in h'.sess && r in h'.sess[q].sent && r.Message?
      ensures (h'.sess[q].key, r.message) in bus
    {
      assert Got(h, h', q, AddressedByKey(h, task.talkId, {0}), CL.TaskResponse(task), CL.SEND_FAILED);
    }
  }

  lemma ServicersHearNothing(h: SL.ServicerHub, q: nat, r: ServiceResponse, kick: ServiceResponse, drained: bool,
                             bus: BusLog)
    requires ServicersHeard(h, bus) && !r.ServiceMessage? && !kick.ServiceMessage?
    ensures ServicersHeard(SendTo(h, q, r), bus) && ServicersHeard(ConfirmOrDrop(h, q, r, kick, drained), bus)
  {
  }

  lemma ServicersHearBroadcast(h: SL.ServicerHub, h': SL.ServicerHub, to: set<nat>, r: ServiceResponse,
                               kick: ServiceResponse, bus: BusLog)
    requires ServicersHeard(h, bus) && Broadcast(h, h', to, r, kick) && !kick.ServiceMessage?
    requires r.ServiceMessage? ==> (r.talkId, r.message) in bus
    ensures ServicersHeard(h', bus)
  {
    forall q, x | q in h'.sess && x in h'.sess[q].sent && x.ServiceMessage?
      ensures (x.talkId, x.message) in bus
    {
      assert Got(h, h', q, to, r, kick);
    }
  }

  lemma ServicersHearAll(h: SL.ServicerHub, r: ServiceResponse, late: set<nat>, bus: BusLog)
    requires Filed(h) && ServicersHeard(h, bus) && !r.ServiceMessage?
    ensures ServicersHeard(CastAll(h, r, SL.SEND_FAILED, late), bus) && Filed(CastAll(h, r, SL.SEND_FAILED, late))
  {
    CastAllBroadcasts(h, r, SL.SEND_FAILED, late);
    ServicersHearBroadcast(h, CastAll(h, r, SL.SEND_FAILED, late), Under(h, h.reg.Keys), r, SL.SEND_FAILED, bus);
  }

  lemma ServicersHearKey(h: SL.ServicerHub, u: nat, excluded: set<nat>, r: ServiceResponse, kick: ServiceResponse,
                         late: set<nat>, bus: BusLog)
    requires Filed(h) && ServicersHeard(h, bus) && !kick.ServiceMessage?
    requires r.ServiceMessage? ==> (r.talkId, r.message) in bus
    ensures ServicersHeard(CastKey(h, u, excluded, r, kick, late), bus)
  {
    CastKeyBroadcasts(h, u, excluded, r, kick, late);
    ServicersHearBroadcast(h, CastKey(h, u, excluded, r, kick, late), AddressedByKey(h, u, excluded), r, kick, bus);
  }

  lemma ServicersHearTask(h: SL.ServicerHub, st: Store, task: ServicerTask, f: Faults, late: set<nat>, bus: BusLog)
    requires Filed(h) && ServicersHeard(h, bus) && (task.TellMessage? ==> (task.talkId, task.message) in bus)
    ensures ServicersHeard(SL.RunTask(h, st, task, f, late), bus)
  {
    match task
    case TellMessage(t, m) =>
      if Lookup(st, t).Some? {
        ServicersHearKey(h, Lookup(st, t).value.info.serviceID, {0}, ServiceResponse.ServiceMessage(t, m),
                         SL.MESSAGE_FAILED, late, bus);
      }
    case TellCreate(t) =>
      if Lookup(st, t).Some? {
        ServicersHearAll(h, ServiceResponse.Detach(Card(Lookup(st, t).value), 0), late, bus);
      }
    case TellClose(t) => ServicersHearAll(h, ServiceClose(t), late, bus);
    case TellAttach(t, u) =>
      if Lookup(st, t).Some? {
        var r := ServiceResponse.Attach(Card(Lookup(st, t).value), u);
        ServicersHearAll(h, r, late, bus);
        var talk := SL.TalkWithMessages(st, t, f.second, f);
        if talk.Some? {
          ServicersHearKey(CastAll(h, r, SL.SEND_FAILED, late), u, {}, Reload(talk.value), SL.SEND_FAILED, late, bus);
        }
      }
    case TellDetach(talk, u) => ServicersHearAll(h, ServiceResponse.Detach(Card(talk), u), late, bus);
  }

  lemma ServicersHearSnapshots(h: SL.ServicerHub, st: Store, q: nat, f: Faults, bus: BusLog)
    requires q in h.sess && ServicersHeard(h, bus)
    ensures ServicersHeard(SL.AttachedTalks(h, st, q, f), bus)
    ensures ServicersHeard(SL.PendingList(h, st, q, f.read), bus)
    ensures ServicersHeard(SL.InstallServicer(h, st, q, f), bus)
  {
    var r := Talks(SL.WithMessages(st, Attached(st, h.sess[q].key), f.messages));
    var p := PendingTalks(SL.Cards(Pending(st)));
    ServicersHearNothing(h, q, r, SL.SEND_FAILED, false, bus);
    ServicersHearNothing(h, q, p, SL.SEND_FAILED, false, bus);
    ServicersHearNothing(SL.AttachedTalks(h, st, q, f), q, p, SL.SEND_FAILED, false, bus);
  }

  // ---- the steps ----

  lemma CallOnBus(call: Option<BusCall>, log: Log)
    ensures CallbacksOnBus(CallbacksOf(call), Note(log, call).bus) && log.bus <= Note(log, call).bus
  {
  }

  lemma DeliverFromBus(e: State, b: Callback, down: bool)
    requires FromBus(e) && CallbacksOnBus([b], e.log.bus)
    ensures FromBus(Deliver(e, b, down))
  {
    assert b in [b];
  }

  lemma HistorySentFromBus(e: State, q: nat)
    requires FromBus(e)
    ensures FromBus(HistorySent(e, q))
  {
    if q in e.history && e.history[q].ToSend? && q in e.c.hub.sess {
      CustomersHearNothing(e.c.hub, q, CL.HistoryResponse(e.c.hub.sess[q].key, e.history[q].messages),
                           CL.SEND_FAILED, false, e.log.bus);
    }
  }

  lemma CustomerActsFromBus(e: State, q: nat, a: CustomerAct)
    requires FromBus(e)
    ensures FromBus(CustomerActs(e, q, a))
  {
    match a
    case SendsHistory => HistorySentFromBus(e, q);
    case _ =>
  }

  /** The customer loop changed its registry and made a call. */
  lemma CustomerCallFromBus(e: State, e': State, call: Option<BusCall>)
    requires FromBus(e) && CustomersHeard(e'.c.hub, e.log.bus)
    requires e'.cMid == CallbacksOf(call) && e'.log.bus == Note(e.log, call).bus
    requires e'.s.hub == e.s.hub && e'.sMid == e.sMid && e'.cPosted == e.cPosted && e'.sPosted == e.sPosted
    ensures FromBus(e')
  {
    CallOnBus(call, e.log);
  }

  lemma CustomerInstallFromBus(e: State, f: Faults)
    requires FromBus(e)
    ensures FromBus(HandleCustomerInstall(e, f))
  {
    if e.cMid == [] && e.c.install != [] && e.c.install[0] in e.c.hub.sess {
      var q := e.c.install[0];
      var kick := CL.Refusal(e.store, e.c.hub.sess[q].key, f);
      CustomersHearNothing(e.c.hub, q, kick, CL.SEND_FAILED, false, e.log.bus);
      CustomerCallFromBus(e, HandleCustomerInstall(e, f),
                          CL.InstallCustomer(e.c.hub, e.store, q, q in e.makers, f).call);
    }
  }

  lemma CustomerMessageFromBus(e: State, drained: bool)
    requires FromBus(e)
    ensures FromBus(HandleCustomerMessage(e, drained))
  {
    if e.cMid == [] && e.c.inbox != [] && e.c.inbox[0].conn in e.c.hub.sess {
      var d := e.c.inbox[0];
      CustomersHearNothing(e.c.hub, d.conn, TalkResponse.MessageConfirmed(d.seqId, d.message.at), CL.SEND_FAILED,
                           drained, e.log.bus);
      CustomerCallFromBus(e, HandleCustomerMessage(e, drained),
                          CL.CustomerMessageIncoming(e.c.hub, e.store, d.conn, d.seqId, d.message, drained).call);
    }
  }

  lemma CustomerCloseFromBus(e: State, f: Faults)
    requires FromBus(e)
    ensures FromBus(HandleCustomerClose(e, f))
  {
    if e.cMid == [] && e.closes != [] && e.closes[0] in e.c.hub.sess {
      CustomerCallFromBus(e, HandleCustomerClose(e, f), CL.CustomerClose(e.c.hub, e.store, e.closes[0], f).call);
    }
  }

  lemma CustomerTaskFromBus(e: State, late: set<nat>)
    requires FromBus(e) && Filed(e.c.hub)
    ensures FromBus(RunCustomerTask(e, late))
  {
    if e.cMid == [] && e.cPosted != [] {
      CustomersHearTask(e.c.hub, e.cPosted[0], late, e.log.bus);
    }
  }

  lemma CustomerLoopFromBus(e: State, p: CustomerPick)
    requires FromBus(e) && Filed(e.c.hub)
    ensures FromBus(CustomerLoop(e, p))
  {
    match p
    case PickInstall(f) => CustomerInstallFromBus(e, f);
    case PickUninstall =>
    case PickMessage(drained) => CustomerMessageFromBus(e, drained);
    case PickClose(f) => CustomerCloseFromBus(e, f);
    case PickRunner(late) => CustomerTaskFromBus(e, late);
    case PickCall(down) =>
      if e.cMid != [] {
        DeliverFromBus(e.(cMid := e.cMid[1..]), e.cMid[0], down);
      }
  }

  lemma ServicerActsHear(e: State, q: nat, a: ServicerAct)
    requires ServicersHeard(e.s.hub, e.log.bus)
    ensures ServicersHeard(ServicerActs(e, q, a).s.hub, e.log.bus)
  {
  }

  lemma ServicerActsFromBus(e: State, q: nat, a: ServicerAct)
    requires FromBus(e)
    ensures FromBus(ServicerActs(e, q, a))
  {
    ServicerActsHear(e, q, a);
    ServicerActsElsewhere(e, q, a);
    ServicerActsLeaveQueue(e, q, a);
    ServicerActsLeaveCalls(e, q, a);
    ServicerActsLeavePosted(e, q, a);
  }

  lemma ServicerCallFromBus(e: State, e': State, call: Option<BusCall>)
    requires FromBus(e) && ServicersHeard(e'.s.hub, e.log.bus)
    requires e'.sMid == CallbacksOf(call) && e'.log.bus == Note(e.log, call).bus
    requires e'.c.hub == e.c.hub && e'.cMid == e.cMid && e'.cPosted == e.cPosted && e'.sPosted == e.sPosted
    ensures FromBus(e')
  {
    CallOnBus(call, e.log);
  }

  /** The servicer loop changed its registry and ran at most one posted closure. */
  lemma ServicerHubFromBus(e: State, e': State)
    requires FromBus(e) && ServicersHeard(e'.s.hub, e.log.bus)
    requires e'.c.hub == e.c.hub && e'.cMid == e.cMid && e'.cPosted == e.cPosted && e'.log == e.log && e'.sMid == e.sMid
    requires e'.sPosted == e.sPosted || (e.sPosted != [] && e'.sPosted == e.sPosted[1..])
    ensures FromBus(e')
  {
  }

  lemma AttachFromBus(e: State, f: Faults)
    requires FromBus(e)
    ensures FromBus(HandleAttach(e, f))
  {
    if e.sMid == [] && e.attaches != [] && e.attaches[0].conn in e.s.hub.sess {
      ServicerCallFromBus(e, HandleAttach(e, f),
                          SL.AttachTalk(e.s.hub, e.store, e.attaches[0].conn, e.attaches[0].talkId, f).call);
    }
  }

  lemma DetachFromBus(e: State, f: Faults)
    requires FromBus(e)
    ensures FromBus(HandleDetach(e, f))
  {
    if e.sMid == [] && e.detaches != [] && e.detaches[0].conn in e.s.hub.sess {
      ServicersHearNothing(e.s.hub, e.detaches[0].conn, Notify("talkNotAttached"), SL.SEND_FAILED, false, e.log.bus);
      ServicerCallFromBus(e, HandleDetach(e, f),
                          SL.DetachTalk(e.s.hub, e.store, e.detaches[0].conn, e.detaches[0].talkId, f).call);
    }
  }

  lemma ReloadFromBus(e: State, f: Faults)
    requires FromBus(e)
    ensures FromBus(HandleReload(e, f))
  {
    if e.sMid == [] && e.reloads != [] && e.reloads[0].conn in e.s.hub.sess {
      var talk := SL.TalkWithMessages(e.store, e.reloads[0].talkId, f.read, f);
      if talk.Some? {
        ServicersHearNothing(e.s.hub, e.reloads[0].conn, Reload(talk.value), SL.SEND_FAILED, false, e.log.bus);
      }
      ServicerHubFromBus(e, HandleReload(e, f));
    }
  }

  lemma SnapshotsFromBus(e: State, q: nat, f: Faults)
    requires FromBus(e)
    ensures FromBus(HandleServicerInstall(e, f))
    ensures FromBus(HandleQueryAttached(e, q, f)) && FromBus(HandleQueryPending(e, q, f))
  {
    if e.sMid == [] && e.s.install != [] && e.s.install[0] in e.s.hub.sess {
      ServicersHearSnapshots(e.s.hub, e.store, e.s.install[0], f, e.log.bus);
      ServicerHubFromBus(e, HandleServicerInstall(e, f));
    }
    if e.sMid == [] && Reading(e.s, q) {
      ServicersHearSnapshots(e.s.hub, e.store, q, f, e.log.bus);
      ServicerHubFromBus(e, HandleQueryAttached(e, q, f));
      ServicerHubFromBus(e, HandleQueryPending(e, q, f));
    }
  }

  lemma ServicerMessageFromBus(e: State, f: Faults, drained: bool)
    requires FromBus(e)
    ensures FromBus(HandleServicerMessage(e, f, drained))
  {
    if e.sMid == [] && e.s.inbox != [] && e.s.inbox[0].conn in e.s.hub.sess {
      var d := e.s.inbox[0];
      ServicersHearNothing(e.s.hub, d.conn, ServiceConfirmed(d.seqId, d.message.at), SL.MESSAGE_FAILED, drained,
                           e.log.bus);
      ServicerCallFromBus(e, HandleServicerMessage(e, f, drained),
                          SL.ServiceMessage(e.s.hub, e.store, d.conn, d.talkId, d.seqId, d.message, f, drained).call);
    }
  }

  lemma ServicerLoopFromBus(e: State, p: ServicerPick)
    requires FromBus(e) && Filed(e.s.hub)
    ensures FromBus(ServicerLoop(e, p))
  {
    match p
    case ServeInstall(f) => SnapshotsFromBus(e, 0, f);
    case ServeUninstall =>
    case ServeAttach(f) => AttachFromBus(e, f);
    case ServeDetach(f) => DetachFromBus(e, f);
    case ServeReload(f) => ReloadFromBus(e, f);
    case ServeQueryAttached(q, f) => SnapshotsFromBus(e, q, f);
    case ServeQueryPending(q, f) => SnapshotsFromBus(e, q, f);
    case ServeMessage(f, drained) => ServicerMessageFromBus(e, f, drained);
    case ServeRunner(f, late) =>
      if e.sMid == [] && e.sPosted != [] {
        ServicersHearTask(e.s.hub, e.store, e.sPosted[0], f, late, e.log.bus);
        ServicerHubFromBus(e, RunServicerTask(e, f, late));
      }
    case ServeCall(down) =>
      if e.sMid != [] {
        DeliverFromBus(e.(sMid := e.sMid[1..]), e.sMid[0], down);
      }
  }

  // ---- what is stored ----

  lemma CarryStored(e: State, e': State)
    requires ToBusStored(e) && StoreGrows(e.store, e'.store)
    requires NothingNewWaits(e.c, e'.c) && NothingNewWaits(e.s, e'.s)
    requires forall t, m | (t, m) in e'.log.bus :: (t, m) in e.log.bus || Stored(e.store, t, m)
    ensures ToBusStored(e')
  {
  }

  lemma HeldIsStored<K, R>(s: Side<K, R>, st: Store, q: nat, d: Incoming)
    requires WaitingStored(s, st) && q in s.conns
    ensures WaitingStored(Hold(s, q, d), InsertMessage(st, d.talkId, d.message))
  {
    MessagesKept(st, d.talkId, d.message);
  }

  lemma OtherSideStored<K, R>(s: Side<K, R>, st: Store, st': Store)
    requires WaitingStored(s, st) && StoreGrows(st, st')
    ensures WaitingStored(s, st')
  {
  }

  lemma CustomerReceivesStored(e: State, q: nat, at: int, text: string, seqId: nat, down: bool)
    requires ToBusStored(e)
    ensures ToBusStored(CustomerReceives(e, q, at, text, seqId, down))
  {
    if Reading(e.c, q) && !down {
      var t := e.c.hub.sess[q].key;
      var m := Msg(at, text, Sender(true, q), e.c.conns[q].next);
      MessagesKept(e.store, t, m);
      HeldIsStored(e.c, e.store, q, Incoming(q, t, seqId, m));
      OtherSideStored(e.s, e.store, InsertMessage(e.store, t, m));
    }
  }

  lemma ServicerReceivesStored(e: State, q: nat, t: TalkId, at: int, text: string, seqId: nat, down: bool)
    requires ToBusStored(e)
    ensures ToBusStored(ServicerReceives(e, q, t, at, text, seqId, down))
  {
    if Reading(e.s, q) && !down {
      var m := Msg(at, text, Sender(false, q), e.s.conns[q].next);
      MessagesKept(e.store, t, m);
      HeldIsStored(e.s, e.store, q, Incoming(q, t, seqId, m));
      OtherSideStored(e.c, e.store, InsertMessage(e.store, t, m));
    }
  }

  lemma CustomerActsWait(e: State, q: nat, a: CustomerAct)
    requires !a.Receives?
    ensures NothingNewWaits(e.c, CustomerActs(e, q, a).c)
  {
  }

  lemma ServicerEnqueuesWait(e: State, q: nat)
    ensures NothingNewWaits(e.s, ServicerEnqueues(e, q).s)
  {
  }

  lemma ServicerConnectsWait(e: State, q: nat, userID: nat)
    ensures NothingNewWaits(e.s, ServicerConnects(e, q, userID).s)
  {
  }

  lemma ServicerActsWait(e: State, q: nat, a: ServicerAct)
    requires !a.ServicerReceive?
    ensures NothingNewWaits(e.s, ServicerActs(e, q, a).s) && ServicerActs(e, q, a).c == e.c
    ensures ServicerActs(e, q, a).log == e.log
  {
    match a
    case ServicerEnqueue => ServicerEnqueuesWait(e, q);
    case ServicerConnect(u) => ServicerConnectsWait(e, q, u);
    case _ =>
  }

  lemma TakenIsNotNew<K, R>(s: Side<K, R>, s': Side<K, R>)
    requires s'.conns == s.conns && (s'.inbox == s.inbox || (s.inbox != [] && s'.inbox == s.inbox[1..]))
    ensures NothingNewWaits(s, s')
  {
  }

  /** Only messages stored under their talk are put on the bus by the customer loop. */
  lemma CustomerLoopPutsStored(e: State, p: CustomerPick)
    requires WaitingStored(e.c, e.store)
    requires forall d | d in e.c.inbox && d.conn in e.c.hub.sess :: d.talkId == e.c.hub.sess[d.conn].key
    ensures forall t, m | (t, m) in CustomerLoop(e, p).log.bus :: (t, m) in e.log.bus || Stored(e.store, t, m)
  {
    match p
    case PickCall(down) => if e.cMid != [] { DeliverWaits(e.(cMid := e.cMid[1..]), e.cMid[0], down); }
    case PickMessage(drained) => if e.c.inbox != [] { assert e.c.inbox[0] in e.c.inbox; }
    case _ =>
  }

  lemma ServicerLoopPutsStored(e: State, p: ServicerPick)
    requires WaitingStored(e.s, e.store)
    ensures forall t, m | (t, m) in ServicerLoop(e, p).log.bus :: (t, m) in e.log.bus || Stored(e.store, t, m)
  {
    match p
    case ServeCall(down) => if e.sMid != [] { DeliverWaits(e.(sMid := e.sMid[1..]), e.sMid[0], down); }
    case ServeMessage(f, drained) => if e.s.inbox != [] { assert e.s.inbox[0] in e.s.inbox; }
    case _ =>
  }

  lemma StepToBusStored(e: State, a: Step)
    requires EngineOk(e) && ToBusStored(e) && StoreGrows(e.store, Next(e, a).store)
    ensures ToBusStored(Next(e, a))
  {
    match a
    case CustomerStep(q, act) =>
      if act.Receives? {
        CustomerReceivesStored(e, q, act.at, act.text, act.seqId, act.down);
      } else {
        CustomerActsWait(e, q, act);
        CustomerActsElsewhere(e, q, act);
        CarryStored(e, CustomerActs(e, q, act));
      }
    case CustomerLoopStep(pick) =>
      CustomerLoopTakes(e, pick);
      TakenIsNotNew(e.c, CustomerLoop(e, pick).c);
      CustomerLoopPutsStored(e, pick);
      CarryStored(e, CustomerLoop(e, pick));
    case ServicerStep(q, act) =>
      if act.ServicerReceive? {
        ServicerReceivesStored(e, q, act.t, act.at, act.text, act.seqId, act.down);
      } else {
        ServicerActsWait(e, q, act);
        CarryStored(e, ServicerActs(e, q, act));
      }
    case ServicerLoopStep(pick) =>
      ServicerLoopTakes(e, pick);
      TakenIsNotNew(e.s, ServicerLoop(e, pick).s);
      ServicerLoopPutsStored(e, pick);
      CarryStored(e, ServicerLoop(e, pick));
  }

  lemma StepFromBus(e: State, a: Step)
    requires FromBus(e) && Filed(e.c.hub) && Filed(e.s.hub)
    ensures FromBus(Next(e, a))
  {
    match a
    case CustomerStep(q, act) => CustomerActsFromBus(e, q, act);
    case CustomerLoopStep(pick) => CustomerLoopFromBus(e, pick);
    case ServicerStep(q, act) => ServicerActsFromBus(e, q, act);
    case ServicerLoopStep(pick) => ServicerLoopFromBus(e, pick);
  }

  lemma {:induction false} RunPersists(e: State, steps: seq<Step>)
    requires Init(e)
    ensures EngineOk(Run(e, steps)) && PersistOk(Run(e, steps))
  {
    InitOk(e);
    if steps != [] {
      var before, a := Run(e, steps[..|steps| - 1]), steps[|steps| - 1];
      RunPersists(e, steps[..|steps| - 1]);
      StepOk(before, a);
      StepFromBus(before, a);
      StepToBusStored(before, a);
    }
  }

  /** Persist before broadcast: in every reachable state each message waiting in a controller
      queue, in a posted closure or live in a session's stream is stored under its talk. */
  lemma PersistedBeforeBroadcast(e: State, steps: seq<Step>)
    requires Init(e)
    ensures var x := Run(e, steps);
            && (forall d | d in x.c.inbox || d in x.s.inbox :: Stored(x.store, d.talkId, d.message))
            && (forall k | k in x.cPosted && k.CastMessage? :: Stored(x.store, k.talkId, k.message))
            && (forall k | k in x.sPosted && k.TellMessage? :: Stored(x.store, k.talkId, k.message))
            && (forall q, r | q in x.c.hub.sess && r in x.c.hub.sess[q].sent && r.Message? ::
                  Stored(x.store, x.c.hub.sess[q].key, r.message))
            && (forall q, r | q in x.s.hub.sess && r in x.s.hub.sess[q].sent && r.ServiceMessage? ::
                  Stored(x.store, r.talkId, r.message))
  {
    RunPersists(e, steps);
  }
}
