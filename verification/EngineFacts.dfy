/** The shape every reachable state of the engine has, and what no step takes back. */
module EngineFacts {
  import opened Defs
  import opened TalkStore
  import opened Hubs
  import opened HubFacts
  import opened Sides
  import opened SideFacts
  import opened Engine
  import opened Shapes
  import CL = CustomerLogic
  import SL = ServicerLogic

  lemma InitOk(e: State)
    requires Init(e)
    ensures EngineOk(e)
  {
  }

  lemma SameIsOnward<K, R>(s: Side<K, R>)
    ensures Onward(s, s)
  {
  }

  lemma MessagesKept(st: Store, t: TalkId, m: Msg)
    ensures StoreGrows(st, InsertMessage(st, t, m))
    ensures StoreOk(st) ==> StoreOk(InsertMessage(st, t, m))
  {
  }

  // ---- the handlers are steady ----

  lemma InstallServicerSteady(h: SL.ServicerHub, st: Store, q: nat, f: Faults)
    requires HubOk(h) && q in h.sess
    ensures Steady(h, SL.PendingList(SL.AttachedTalks(h, st, q, f), st, q, f.second))
    ensures Steady(h, SL.AttachedTalks(h, st, q, f))
    ensures Steady(h, SL.PendingList(h, st, q, f.read))
  {
    var told := SL.AttachedTalks(h, st, q, f);
    SteadySendTo(h, q, Talks(SL.WithMessages(st, Attached(st, h.sess[q].key), f.messages)));
    SteadySendTo(told, q, PendingTalks(SL.Cards(Pending(st))));
    SteadySendTo(h, q, PendingTalks(SL.Cards(Pending(st))));
    SteadyTrans(h, told, SL.PendingList(told, st, q, f.second));
  }

  lemma ServicerTaskSteady(h: SL.ServicerHub, st: Store, task: ServicerTask, f: Faults, late: set<nat>)
    requires HubOk(h)
    ensures Steady(h, SL.RunTask(h, st, task, f, late))
  {
    match task
    case TellMessage(t, m) =>
      if Lookup(st, t).Some? {
        SteadyCastKey(h, Lookup(st, t).value.info.serviceID, {0}, ServiceResponse.ServiceMessage(t, m),
                      SL.MESSAGE_FAILED, late);
      }
    case TellCreate(t) =>
      if Lookup(st, t).Some? {
        SteadyCastAll(h, ServiceResponse.Detach(Card(Lookup(st, t).value), 0), SL.SEND_FAILED, late);
      }
    case TellClose(t) => SteadyCastAll(h, ServiceClose(t), SL.SEND_FAILED, late);
    case TellAttach(t, u) =>
      if Lookup(st, t).Some? {
        var r := ServiceResponse.Attach(Card(Lookup(st, t).value), u);
        var told := CastAll(h, r, SL.SEND_FAILED, late);
        SteadyCastAll(h, r, SL.SEND_FAILED, late);
        var talk := SL.TalkWithMessages(st, t, f.second, f);
        if talk.Some? {
          SteadyCastKey(told, u, {}, Reload(talk.value), SL.SEND_FAILED, late);
          SteadyTrans(h, told, CastKey(told, u, {}, Reload(talk.value), SL.SEND_FAILED, late));
        }
      }
    case TellDetach(talk, u) => SteadyCastAll(h, ServiceResponse.Detach(Card(talk), u), SL.SEND_FAILED, late);
  }

  lemma ReloadSteady(h: SL.ServicerHub, st: Store, q: nat, t: TalkId, f: Faults)
    requires HubOk(h) && q in h.sess
    ensures Steady(h, SL.ReloadTalk(h, st, q, t, f))
  {
    SteadyRefl(h);
    var talk := SL.TalkWithMessages(st, t, f.read, f);
    if talk.Some? {
      SteadySendTo(h, q, Reload(talk.value));
    }
  }

  lemma CustomerMessageSteady(h: CL.CustomerHub, st: Store, q: nat, seqId: nat, m: Msg, drained: bool)
    requires HubOk(h) && q in h.sess
    ensures Steady(h, CL.CustomerMessageIncoming(h, st, q, seqId, m, drained).hub)
    ensures NoEmptyEntry(h) ==> NoEmptyEntry(CL.CustomerMessageIncoming(h, st, q, seqId, m, drained).hub)
  {
    var r := TalkResponse.MessageConfirmed(seqId, m.at);
    var confirmed := ConfirmOrDrop(h, q, r, CL.SEND_FAILED, drained);
    SteadyConfirmOrDrop(h, q, r, CL.SEND_FAILED, drained);
    SteadyPrune(confirmed, h.sess[q].key);
    SteadyTrans(h, confirmed, Prune(confirmed, h.sess[q].key));
  }

  lemma CustomerTaskSteady(h: CL.CustomerHub, task: CustomerTask, late: set<nat>)
    requires HubOk(h)
    ensures Steady(h, CL.RunTask(h, task, late))
    ensures NoEmptyEntry(h) ==> NoEmptyEntry(CL.RunTask(h, task, late))
  {
    SteadyCastKey(h, task.talkId, {0}, CL.TaskResponse(task), CL.SEND_FAILED, late);
    CastKeyFiled(h, task.talkId, {0}, CL.TaskResponse(task), CL.SEND_FAILED, late);
  }

  // ---- the steps ----

  /** A step changes one side, leaving the other and the requests alone. */
  lemma CustomerFrame(e: State, e': State)
    requires EngineOk(e)
    requires e'.s == e.s && e'.attaches == e.attaches && e'.detaches == e.detaches && e'.reloads == e.reloads
    requires StoreOk(e'.store) && StoreGrows(e.store, e'.store)
    requires CustomersOk(e'.c, e'.store, e'.history, e'.closes) && Onward(e.c, e'.c)
    ensures EngineOk(e') && Later(e, e')
  {
    SameIsOnward(e.s);
  }

  lemma ServicerFrame(e: State, e': State)
    requires EngineOk(e)
    requires e'.c == e.c && e'.history == e.history && e'.closes == e.closes
    requires StoreOk(e'.store) && StoreGrows(e.store, e'.store)
    requires ServicersOk(e'.s) && Onward(e.s, e'.s)
    requires RequestsOk(e'.attaches, e'.s) && RequestsOk(e'.detaches, e'.s) && RequestsOk(e'.reloads, e'.s)
    ensures EngineOk(e') && Later(e, e')
  {
    SameIsOnward(e.c);
  }

  ghost predicate SameParts(e: State, e': State) {
    && e'.store == e.store && e'.c == e.c && e'.s == e.s && e'.history == e.history && e'.closes == e.closes
    && e'.attaches == e.attaches && e'.detaches == e.detaches && e'.reloads == e.reloads
  }

  lemma SameFrame(e: State, e': State)
    requires EngineOk(e) && SameParts(e, e')
    ensures EngineOk(e') && Later(e, e')
  {
    SameIsOnward(e.c);
    SameIsOnward(e.s);
  }

  /** The customer side does not mind more talks or fewer waiting closes. */
  lemma CustomersCarry(c: Side<TalkId, TalkResponse>, st: Store, st': Store, history: map<nat, History>,
                       closes: seq<nat>, closes': seq<nat>)
    requires CustomersOk(c, st, history, closes) && st.talks.Keys <= st'.talks.Keys
    requires forall q | q in closes' :: q in closes || q in c.conns
    ensures CustomersOk(c, st', history, closes')
  {
  }

  lemma StatusUpdateOk(st: Store, t: TalkId, u: Update)
    requires StoreOk(st)
    ensures StoreOk(UpdateTalk(st, t, u)) && StoreGrows(st, UpdateTalk(st, t, u))
  {
  }

  lemma InsertTalkOk(st: Store, t: TalkId, info: TalkInfo)
    requires StoreOk(st)
    ensures StoreOk(InsertTalk(st, t, info)) && StoreGrows(st, InsertTalk(st, t, info))
  {
  }

  lemma ConnectedWaits(c: Side<TalkId, TalkResponse>, st: Store, st': Store, history: map<nat, History>,
                       closes: seq<nat>, q: nat, t: TalkId)
    requires CustomersOk(c, st, history, closes) && SideOk(Connect(c, q, t))
    requires q !in c.conns && t in st'.talks && st.talks.Keys <= st'.talks.Keys
    ensures CustomersOk(Connect(c, q, t), st', history, closes)
  {
    var c' := Connect(c, q, t);
    assert NoEmptyEntry(c'.hub);
    forall p | Registered(c'.hub, p) ensures p in history {
      assert Registered(c.hub, p);
    }
  }

  lemma ConnectedCustomerOk(e: State, st: Store, q: nat, t: TalkId)
    requires EngineOk(e) && q != 0 && q !in e.c.conns && t in st.talks && e.store.talks.Keys <= st.talks.Keys
    ensures CustomersOk(Connect(e.c, q, t), st, e.history, e.closes) && Onward(e.c, Connect(e.c, q, t))
  {
    ConnectOk(e.c, q, t);
    ConnectedWaits(e.c, e.store, st, e.history, e.closes, q, t);
  }

  lemma CustomerHubOk(e: State, h: CL.CustomerHub)
    requires EngineOk(e) && Steady(e.c.hub, h) && NoEmptyEntry(h)
    ensures CustomersOk(e.c.(hub := h), e.store, e.history, e.closes) && Onward(e.c, e.c.(hub := h))
  {
    HubSteps(e.c, h);
  }

  lemma HeldTalksOk(c: Side<TalkId, TalkResponse>, q: nat, d: Incoming)
    requires Known(c, q) && d.talkId == c.hub.sess[q].key
    requires forall q | q in c.conns && c.conns[q].held.Some? ::
               q in c.hub.sess && c.conns[q].held.value.talkId == c.hub.sess[q].key
    ensures var conns := Hold(c, q, d).conns;
            forall q | q in conns && conns[q].held.Some? ::
              q in c.hub.sess && conns[q].held.value.talkId == c.hub.sess[q].key
  {
  }

  lemma HoldingCustomerOk(e: State, q: nat, d: Incoming, st: Store)
    requires EngineOk(e) && Known(e.c, q) && d.conn == q && d.talkId == e.c.hub.sess[q].key
    requires e.store.talks.Keys <= st.talks.Keys
    ensures CustomersOk(Hold(e.c, q, d), st, e.history, e.closes) && Onward(e.c, Hold(e.c, q, d))
  {
    HoldOk(e.c, q, d);
    HeldTalksOk(e.c, q, d);
  }

  lemma CustomerReceivesOk(e: State, q: nat, at: int, text: string, seqId: nat, down: bool)
    requires EngineOk(e)
    ensures var e' := CustomerReceives(e, q, at, text, seqId, down); EngineOk(e') && Later(e, e')
  {
    if Reading(e.c, q) && !down {
      var t := e.c.hub.sess[q].key;
      var m := Msg(at, text, Sender(true, q), e.c.conns[q].next);
      MessagesKept(e.store, t, m);
      HoldingCustomerOk(e, q, Incoming(q, t, seqId, m), InsertMessage(e.store, t, m));
      CustomerFrame(e, CustomerReceives(e, q, at, text, seqId, down));
    } else {
      SameFrame(e, e);
    }
  }

  lemma CustomerInstallOk(e: State, f: Faults)
    requires EngineOk(e)
    ensures var e' := HandleCustomerInstall(e, f); EngineOk(e') && Later(e, e')
  {
    SameIsOnward(e.c);
    SameIsOnward(e.s);
    if e.cMid == [] && e.c.install != [] && e.c.install[0] in e.c.hub.sess {
      var q := e.c.install[0];
      if CL.Installable(e.store, e.c.hub.sess[q].key, f) {
        SteadyRefl(e.c.hub);
        InstallOk(e.c, e.c.hub);
        EnterAdds(e.c.hub, q);
      } else {
        var kick := CL.Refusal(e.store, e.c.hub.sess[q].key, f);
        SteadySendTo(e.c.hub, q, kick);
        InstallOk(e.c, SendTo(e.c.hub, q, kick));
      }
    }
  }

  lemma CustomerMessageOk(e: State, drained: bool)
    requires EngineOk(e)
    ensures var e' := HandleCustomerMessage(e, drained); EngineOk(e') && Later(e, e')
  {
    SameIsOnward(e.c);
    SameIsOnward(e.s);
    if e.cMid == [] && e.c.inbox != [] && e.c.inbox[0].conn in e.c.hub.sess {
      var d := e.c.inbox[0];
      var taken := e.c.(inbox := e.c.inbox[1..]);
      TakeMessageOk(e.c);
      CustomerMessageSteady(e.c.hub, e.store, d.conn, d.seqId, d.message, drained);
      CustomerHubOk(e.(c := taken),
                    CL.CustomerMessageIncoming(e.c.hub, e.store, d.conn, d.seqId, d.message, drained).hub);
    }
  }

  lemma CustomerCloseOk(e: State, f: Faults)
    requires EngineOk(e)
    ensures var e' := HandleCustomerClose(e, f); EngineOk(e') && Later(e, e')
  {
    if e.cMid == [] && e.closes != [] && e.closes[0] in e.c.hub.sess {
      var t := e.c.hub.sess[e.closes[0]].key;
      StatusUpdateOk(e.store, t, SetStatus(Closed));
      CustomersCarry(e.c, e.store, e.store, e.history, e.closes, e.closes[1..]);
      CustomersCarry(e.c, e.store, UpdateTalk(e.store, t, SetStatus(Closed)), e.history, e.closes, e.closes[1..]);
      SameIsOnward(e.c);
      CustomerFrame(e, HandleCustomerClose(e, f));
    } else {
      SameFrame(e, e);
    }
  }

  lemma CustomerUninstallOk(e: State)
    requires EngineOk(e)
    ensures var e' := HandleCustomerUninstall(e); EngineOk(e') && Later(e, e')
  {
    SameIsOnward(e.c);
    SameIsOnward(e.s);
    if e.cMid == [] && e.c.uninstall != [] {
      UninstallOk(e.c);
      SteadyLeave(e.c.hub, e.c.uninstall[0]);
    }
  }

  lemma CustomerTaskOk(e: State, late: set<nat>)
    requires EngineOk(e)
    ensures var e' := RunCustomerTask(e, late); EngineOk(e') && Later(e, e')
  {
    SameIsOnward(e.c);
    SameIsOnward(e.s);
    if e.cMid == [] && e.cPosted != [] {
      CustomerTaskSteady(e.c.hub, e.cPosted[0], late);
      CustomerHubOk(e, CL.RunTask(e.c.hub, e.cPosted[0], late));
    }
  }

  lemma HistoryReadOk(e: State, q: nat, down: bool)
    requires EngineOk(e)
    ensures EngineOk(HistoryRead(e, q, down)) && Later(e, HistoryRead(e, q, down))
  {
    SameIsOnward(e.c);
    CustomerFrame(e, HistoryRead(e, q, down));
  }

  lemma HistorySentOk(e: State, q: nat)
    requires EngineOk(e)
    ensures EngineOk(HistorySent(e, q)) && Later(e, HistorySent(e, q))
  {
    if q in e.history && e.history[q].ToSend? && q in e.c.hub.sess {
      var r := CL.HistoryResponse(e.c.hub.sess[q].key, e.history[q].messages);
      SteadySendTo(e.c.hub, q, r);
      CustomerHubOk(e, SendTo(e.c.hub, q, r));
      CustomerFrame(e, HistorySent(e, q));
    } else {
      SameFrame(e, e);
    }
  }

  lemma CreateTalkOk(e: State, q: nat, t: TalkId, info: TalkInfo, down: bool)
    requires EngineOk(e)
    ensures EngineOk(CreateTalk(e, q, t, info, down)) && Later(e, CreateTalk(e, q, t, info, down))
  {
    if q == 0 || q in e.c.conns || down || !WellFormedId(t) || t in e.store.talks || info.title == "" {
      SameFrame(e, e);
    } else {
      InsertTalkOk(e.store, t, info.(status := Opened, serviceID := 0));
      ConnectedCustomerOk(e, InsertTalk(e.store, t, info.(status := Opened, serviceID := 0)), q, t);
      CustomerFrame(e, CreateTalk(e, q, t, info, down));
    }
  }

  lemma OpenTalkOk(e: State, q: nat, t: TalkId, down: bool)
    requires EngineOk(e)
    ensures EngineOk(OpenTalk(e, q, t, down)) && Later(e, OpenTalk(e, q, t, down))
  {
    if q == 0 || q in e.c.conns || down || t !in e.store.talks {
      SameFrame(e, e);
    } else {
      StatusUpdateOk(e.store, t, SetStatus(Opened));
      ConnectedCustomerOk(e, UpdateTalk(e.store, t, SetStatus(Opened)), q, t);
      CustomerFrame(e, OpenTalk(e, q, t, down));
    }
  }

  /** Changes to the connections and the message channel that keep the talks they name. */
  lemma CustomersSameHub(c: Side<TalkId, TalkResponse>, c': Side<TalkId, TalkResponse>, st: Store,
                         history: map<nat, History>, closes: seq<nat>)
    requires CustomersOk(c, st, history, closes) && SideOk(c')
    requires SameHub(c, c')
    ensures CustomersOk(c', st, history, closes)
  {
  }

  lemma CustomerRequestsCloseOk(e: State, q: nat)
    requires EngineOk(e)
    ensures EngineOk(CustomerRequestsClose(e, q)) && Later(e, CustomerRequestsClose(e, q))
  {
    if !Reading(e.c, q) {
      SameFrame(e, e);
    } else if |e.closes| < REQUEST_CAPACITY {
      SameIsOnward(e.c);
      CustomersCarry(e.c, e.store, e.store, e.history, e.closes, e.closes + [q]);
      CustomerFrame(e, e.(closes := e.closes + [q]));
    } else {
      StopReceivingOk(e.c, q);
      CustomersSameHub(e.c, StopReceiving(e.c, q), e.store, e.history, e.closes);
      CustomerFrame(e, e.(c := StopReceiving(e.c, q)));
    }
  }

  lemma DeliverSame(e: State, b: Callback, down: bool)
    ensures SameParts(e, Deliver(e, b, down))
  {
  }

  lemma DeliverOk(e: State, b: Callback, down: bool)
    requires EngineOk(e)
    ensures EngineOk(Deliver(e, b, down)) && Later(e, Deliver(e, b, down))
  {
    DeliverSame(e, b, down);
    SameFrame(e, Deliver(e, b, down));
  }

  lemma ServicerConnectsOk(e: State, q: nat, u: nat)
    requires EngineOk(e)
    ensures EngineOk(ServicerConnects(e, q, u)) && Later(e, ServicerConnects(e, q, u))
  {
    SameIsOnward(e.c);
    SameIsOnward(e.s);
    if q != 0 && u != 0 && q !in e.s.conns {
      ConnectOk(e.s, q, u);
    }
  }

  lemma ServicerReceivesOk(e: State, q: nat, t: TalkId, at: int, text: string, seqId: nat, down: bool)
    requires EngineOk(e)
    ensures var e' := ServicerReceives(e, q, t, at, text, seqId, down); EngineOk(e') && Later(e, e')
  {
    SameIsOnward(e.c);
    SameIsOnward(e.s);
    if Reading(e.s, q) {
      var m := Msg(at, text, Sender(false, q), e.s.conns[q].next);
      MessagesKept(e.store, t, m);
      HoldOk(e.s, q, Incoming(q, t, seqId, m));
      StopReceivingOk(e.s, q);
    }
  }

  lemma PushOk(requests: seq<Request>, s: Side<nat, ServiceResponse>, r: Request)
    requires RequestsOk(requests, s) && r.conn in s.conns
    ensures RequestsOk(Push(requests, REQUEST_CAPACITY, r), s)
  {
  }

  lemma ServicerRequestsOk(e: State, q: nat, t: TalkId, kind: RequestKind)
    requires EngineOk(e)
    ensures EngineOk(ServicerRequests(e, q, t, kind)) && Later(e, ServicerRequests(e, q, t, kind))
  {
    if !Reading(e.s, q) || (t == "" && kind != ReloadRequest) {
      SameFrame(e, e);
    } else {
      SameIsOnward(e.s);
      PushOk(e.attaches, e.s, Request(q, t));
      PushOk(e.detaches, e.s, Request(q, t));
      PushOk(e.reloads, e.s, Request(q, t));
      ServicerFrame(e, e.(attaches := Push(e.attaches, REQUEST_CAPACITY, Request(q, t))));
      ServicerFrame(e, e.(detaches := Push(e.detaches, REQUEST_CAPACITY, Request(q, t))));
      ServicerFrame(e, e.(reloads := Push(e.reloads, REQUEST_CAPACITY, Request(q, t))));
    }
  }

  /** The servicer loop's steps, by what they do to the registry. */
  lemma ServicerHubOk(e: State, e': State, h: SL.ServicerHub)
    requires EngineOk(e) && Steady(e.s.hub, h)
    requires e'.s == e.s.(hub := h) && StoreOk(e'.store) && StoreGrows(e.store, e'.store)
    requires e'.c == e.c && e'.history == e.history && e'.closes == e.closes
    requires e'.attaches in {e.attaches, if e.attaches == [] then [] else e.attaches[1..]}
    requires e'.detaches in {e.detaches, if e.detaches == [] then [] else e.detaches[1..]}
    requires e'.reloads in {e.reloads, if e.reloads == [] then [] else e.reloads[1..]}
    ensures EngineOk(e') && Later(e, e')
  {
    SameIsOnward(e.c);
    HubSteps(e.s, h);
  }

  lemma ServicerInstallOk(e: State, f: Faults)
    requires EngineOk(e)
    ensures var e' := HandleServicerInstall(e, f); EngineOk(e') && Later(e, e')
  {
    SameIsOnward(e.c);
    SameIsOnward(e.s);
    if e.sMid == [] && e.s.install != [] && e.s.install[0] in e.s.hub.sess {
      var q := e.s.install[0];
      InstallServicerSteady(e.s.hub, e.store, q, f);
      InstallOk(e.s, SL.PendingList(SL.AttachedTalks(e.s.hub, e.store, q, f), e.store, q, f.second));
    }
  }

  lemma ServicerUninstallOk(e: State)
    requires EngineOk(e)
    ensures var e' := HandleServicerUninstall(e); EngineOk(e') && Later(e, e')
  {
    SameIsOnward(e.c);
    SameIsOnward(e.s);
    if e.sMid == [] && e.s.uninstall != [] {
      UninstallOk(e.s);
    }
  }

  lemma AttachOk(e: State, f: Faults)
    requires EngineOk(e)
    ensures EngineOk(HandleAttach(e, f)) && Later(e, HandleAttach(e, f))
  {
    if e.sMid == [] && e.attaches != [] && e.attaches[0].conn in e.s.hub.sess {
      var o := SL.AttachTalk(e.s.hub, e.store, e.attaches[0].conn, e.attaches[0].talkId, f);
      StatusUpdateOk(e.store, e.attaches[0].talkId, SetService(e.s.hub.sess[e.attaches[0].conn].key));
      SteadyRefl(e.s.hub);
      ServicerHubOk(e, HandleAttach(e, f), o.hub);
    } else {
      SameFrame(e, e);
    }
  }

  lemma DetachSteady(h: SL.ServicerHub, st: Store, q: nat, t: TalkId, f: Faults)
    requires HubOk(h) && q in h.sess
    ensures Steady(h, SL.DetachTalk(h, st, q, t, f).hub)
  {
    SteadyRefl(h);
    SteadySendTo(h, q, Notify("talkNotAttached"));
  }

  lemma DetachStores(h: SL.ServicerHub, st: Store, q: nat, t: TalkId, f: Faults)
    requires q in h.sess && StoreOk(st)
    ensures var o := SL.DetachTalk(h, st, q, t, f); StoreOk(o.store) && StoreGrows(st, o.store)
  {
    StatusUpdateOk(st, t, SetService(0));
  }

  lemma DetachOk(e: State, f: Faults)
    requires EngineOk(e)
    ensures EngineOk(HandleDetach(e, f)) && Later(e, HandleDetach(e, f))
  {
    if e.sMid == [] && e.detaches != [] && e.detaches[0].conn in e.s.hub.sess {
      DetachSteady(e.s.hub, e.store, e.detaches[0].conn, e.detaches[0].talkId, f);
      DetachStores(e.s.hub, e.store, e.detaches[0].conn, e.detaches[0].talkId, f);
      var o := SL.DetachTalk(e.s.hub, e.store, e.detaches[0].conn, e.detaches[0].talkId, f);
      ServicerHubOk(e, HandleDetach(e, f), o.hub);
    } else {
      SameFrame(e, e);
    }
  }

  lemma ReloadOk(e: State, f: Faults)
    requires EngineOk(e)
    ensures EngineOk(HandleReload(e, f)) && Later(e, HandleReload(e, f))
  {
    if e.sMid == [] && e.reloads != [] && e.reloads[0].conn in e.s.hub.sess {
      ReloadSteady(e.s.hub, e.store, e.reloads[0].conn, e.reloads[0].talkId, f);
      ServicerHubOk(e, HandleReload(e, f), SL.ReloadTalk(e.s.hub, e.store, e.reloads[0].conn, e.reloads[0].talkId, f));
    } else {
      SameFrame(e, e);
    }
  }

  lemma QueriesOk(e: State, q: nat, f: Faults)
    requires EngineOk(e)
    ensures EngineOk(HandleQueryAttached(e, q, f)) && Later(e, HandleQueryAttached(e, q, f))
    ensures EngineOk(HandleQueryPending(e, q, f)) && Later(e, HandleQueryPending(e, q, f))
  {
    SameIsOnward(e.c);
    SameIsOnward(e.s);
    if e.sMid == [] && Reading(e.s, q) {
      InstallServicerSteady(e.s.hub, e.store, q, f);
      ServicerHubOk(e, HandleQueryAttached(e, q, f), SL.AttachedTalks(e.s.hub, e.store, q, f));
      ServicerHubOk(e, HandleQueryPending(e, q, f), SL.PendingList(e.s.hub, e.store, q, f.read));
    }
  }

  lemma ServiceMessageSteady(h: SL.ServicerHub, st: Store, d: Incoming, f: Faults, drained: bool)
    requires HubOk(h) && d.conn in h.sess
    ensures var o := SL.ServiceMessage(h, st, d.conn, d.talkId, d.seqId, d.message, f, drained);
            Steady(h, o.hub) && o.store == st
  {
    SteadyRefl(h);
    SteadyConfirmOrDrop(h, d.conn, ServiceConfirmed(d.seqId, d.message.at), SL.MESSAGE_FAILED, drained);
  }

  lemma ServicerMessageOk(e: State, f: Faults, drained: bool)
    requires EngineOk(e)
    ensures var e' := HandleServicerMessage(e, f, drained); EngineOk(e') && Later(e, e')
  {
    if e.sMid == [] && e.s.inbox != [] && e.s.inbox[0].conn in e.s.hub.sess {
      var d := e.s.inbox[0];
      var o := SL.ServiceMessage(e.s.hub, e.store, d.conn, d.talkId, d.seqId, d.message, f, drained);
      ServiceMessageSteady(e.s.hub, e.store, d, f, drained);
      TakeMessageOk(e.s);
      var taken := e.s.(inbox := e.s.inbox[1..]);
      HubSteps(taken, o.hub);
      OnwardTrans(e.s, taken, taken.(hub := o.hub));
      ServicerFrame(e, HandleServicerMessage(e, f, drained));
    } else {
      SameFrame(e, e);
    }
  }

  lemma ServicerTaskOk(e: State, f: Faults, late: set<nat>)
    requires EngineOk(e)
    ensures var e' := RunServicerTask(e, f, late); EngineOk(e') && Later(e, e')
  {
    SameIsOnward(e.c);
    SameIsOnward(e.s);
    if e.sMid == [] && e.sPosted != [] {
      ServicerTaskSteady(e.s.hub, e.store, e.sPosted[0], f, late);
      ServicerHubOk(e, RunServicerTask(e, f, late), SL.RunTask(e.s.hub, e.store, e.sPosted[0], f, late));
    }
  }

  lemma ServicerSideOk(e: State, s: Side<nat, ServiceResponse>)
    requires EngineOk(e) && SideOk(s) && Onward(e.s, s) && s.conns.Keys == e.s.conns.Keys
    ensures EngineOk(e.(s := s)) && Later(e, e.(s := s))
  {
    SameIsOnward(e.c);
  }

  lemma CustomerQueuesInstallOk(e: State, q: nat)
    requires EngineOk(e)
    ensures EngineOk(CustomerQueuesInstall(e, q)) && Later(e, CustomerQueuesInstall(e, q))
  {
    if q in e.c.conns {
      QueueInstallOk(e.c, q);
      CustomersSameHub(e.c, QueueInstall(e.c, q), e.store, e.history, e.closes);
      CustomerFrame(e, e.(c := QueueInstall(e.c, q)));
    } else {
      SameFrame(e, e);
    }
  }

  lemma CustomerEnqueuesOk(e: State, q: nat)
    requires EngineOk(e)
    ensures EngineOk(CustomerEnqueues(e, q)) && Later(e, CustomerEnqueues(e, q))
  {
    if q in e.c.conns && e.c.conns[q].held.Some? {
      EnqueueOk(e.c, q, true);
      CustomersSameHub(e.c, Enqueue(e.c, q, true), e.store, e.history, e.closes);
      CustomerFrame(e, e.(c := Enqueue(e.c, q, true)));
    } else {
      SameFrame(e, e);
    }
  }

  lemma CustomerDrainsOk(e: State, q: nat)
    requires EngineOk(e)
    ensures EngineOk(CustomerDrains(e, q)) && Later(e, CustomerDrains(e, q))
  {
    if Known(e.c, q) {
      SteadyRefl(e.c.hub);
      SteadyTakeOne(e.c.hub, q);
      CustomerHubOk(e, e.c.hub);
      CustomerHubOk(e, TakeOne(e.c.hub, q));
      CustomerFrame(e, e.(c := Drain(e.c, q)));
    } else {
      SameFrame(e, e);
    }
  }

  lemma CustomerDepartsOk(e: State, q: nat)
    requires EngineOk(e)
    ensures EngineOk(CustomerDeparts(e, q)) && Later(e, CustomerDeparts(e, q))
  {
    if q in e.c.conns {
      DepartOk(e.c, q);
      CustomersSameHub(e.c, Depart(e.c, q), e.store, e.history, e.closes);
      CustomerFrame(e, e.(c := Depart(e.c, q)));
    } else {
      SameFrame(e, e);
    }
  }

  lemma ServicerQueuesInstallOk(e: State, q: nat)
    requires EngineOk(e)
    ensures EngineOk(ServicerQueuesInstall(e, q)) && Later(e, ServicerQueuesInstall(e, q))
  {
    if q in e.s.conns {
      QueueInstallOk(e.s, q);
      ServicerSideOk(e, QueueInstall(e.s, q));
    } else {
      SameFrame(e, e);
    }
  }

  lemma ServicerEnqueuesOk(e: State, q: nat)
    requires EngineOk(e)
    ensures EngineOk(ServicerEnqueues(e, q)) && Later(e, ServicerEnqueues(e, q))
  {
    if q in e.s.conns && e.s.conns[q].held.Some? {
      EnqueueOk(e.s, q, false);
      ServicerSideOk(e, Enqueue(e.s, q, false));
    } else {
      SameFrame(e, e);
    }
  }

  lemma ServicerDrainsOk(e: State, q: nat)
    requires EngineOk(e)
    ensures EngineOk(ServicerDrains(e, q)) && Later(e, ServicerDrains(e, q))
  {
    if Known(e.s, q) {
      DrainOk(e.s, q);
      ServicerSideOk(e, Drain(e.s, q));
    } else {
      SameFrame(e, e);
    }
  }

  lemma ServicerDepartsOk(e: State, q: nat)
    requires EngineOk(e)
    ensures EngineOk(ServicerDeparts(e, q)) && Later(e, ServicerDeparts(e, q))
  {
    if q in e.s.conns {
      DepartOk(e.s, q);
      ServicerSideOk(e, Depart(e.s, q));
    } else {
      SameFrame(e, e);
    }
  }

  lemma CustomerActsOk(e: State, q: nat, a: CustomerAct)
    requires EngineOk(e)
    ensures EngineOk(CustomerActs(e, q, a)) && Later(e, CustomerActs(e, q, a))
  {
    match a
    case Creates(t, info, down) => CreateTalkOk(e, q, t, info, down);
    case Opens(t, down) => OpenTalkOk(e, q, t, down);
    case QueuesInstall => CustomerQueuesInstallOk(e, q);
    case Receives(at, text, seqId, down) => CustomerReceivesOk(e, q, at, text, seqId, down);
    case Enqueues => CustomerEnqueuesOk(e, q);
    case RequestsClose => CustomerRequestsCloseOk(e, q);
    case ReadsHistory(down) => HistoryReadOk(e, q, down);
    case SendsHistory => HistorySentOk(e, q);
    case Drains => CustomerDrainsOk(e, q);
    case Departs => CustomerDepartsOk(e, q);
  }

  lemma CustomerLoopOk(e: State, p: CustomerPick)
    requires EngineOk(e)
    ensures EngineOk(CustomerLoop(e, p)) && Later(e, CustomerLoop(e, p))
  {
    SameIsOnward(e.c);
    SameIsOnward(e.s);
    match p
    case PickInstall(f) => CustomerInstallOk(e, f);
    case PickUninstall => CustomerUninstallOk(e);
    case PickMessage(drained) => CustomerMessageOk(e, drained);
    case PickClose(f) => CustomerCloseOk(e, f);
    case PickRunner(late) => CustomerTaskOk(e, late);
    case PickCall(down) => if e.cMid != [] { DeliverOk(e.(cMid := e.cMid[1..]), e.cMid[0], down); }
  }

  lemma ServicerActsOk(e: State, q: nat, a: ServicerAct)
    requires EngineOk(e)
    ensures EngineOk(ServicerActs(e, q, a)) && Later(e, ServicerActs(e, q, a))
  {
    match a
    case ServicerConnect(u) => ServicerConnectsOk(e, q, u);
    case ServicerQueue => ServicerQueuesInstallOk(e, q);
    case ServicerReceive(t, at, text, seqId, down) => ServicerReceivesOk(e, q, t, at, text, seqId, down);
    case ServicerEnqueue => ServicerEnqueuesOk(e, q);
    case ServicerRequest(t, kind) => ServicerRequestsOk(e, q, t, kind);
    case ServicerDrain => ServicerDrainsOk(e, q);
    case ServicerDepart => ServicerDepartsOk(e, q);
  }

  lemma ServicerCallsOk(e: State, down: bool)
    requires EngineOk(e)
    ensures EngineOk(ServicerLoopCalls(e, down)) && Later(e, ServicerLoopCalls(e, down))
  {
    SameFrame(e, e);
    if e.sMid != [] {
      DeliverSame(e.(sMid := e.sMid[1..]), e.sMid[0], down);
      SameFrame(e, ServicerLoopCalls(e, down));
    }
  }

  lemma ListPicksOk(e: State, p: ServicerPick)
    requires EngineOk(e)
    requires p.ServeInstall? || p.ServeReload? || p.ServeQueryAttached? || p.ServeQueryPending?
    ensures EngineOk(ServicerLoop(e, p)) && Later(e, ServicerLoop(e, p))
  {
    if p.ServeInstall? {
      ServicerInstallOk(e, p.f);
    } else if p.ServeReload? {
      ReloadOk(e, p.f);
    } else {
      QueriesOk(e, p.q, p.f);
    }
  }

  lemma ServicerLoopOk(e: State, p: ServicerPick)
    requires EngineOk(e)
    ensures EngineOk(ServicerLoop(e, p)) && Later(e, ServicerLoop(e, p))
  {
    match p
    case ServeUninstall => ServicerUninstallOk(e);
    case ServeAttach(f) => AttachOk(e, f);
    case ServeDetach(f) => DetachOk(e, f);
    case ServeMessage(f, drained) => ServicerMessageOk(e, f, drained);
    case ServeRunner(f, late) => ServicerTaskOk(e, f, late);
    case ServeCall(down) => ServicerCallsOk(e, down);
    case _ => ListPicksOk(e, p);
  }

  /** Every step keeps the shape, loses no message and no talk, and lets nobody back in. */
  lemma StepOk(e: State, a: Step)
    requires EngineOk(e)
    ensures EngineOk(Next(e, a)) && Later(e, Next(e, a))
  {
    match a
    case CustomerStep(q, act) => CustomerActsOk(e, q, act);
    case CustomerLoopStep(pick) => CustomerLoopOk(e, pick);
    case ServicerStep(q, act) => ServicerActsOk(e, q, act);
    case ServicerLoopStep(pick) => ServicerLoopOk(e, pick);
  }
}
