/** Every call on the bus is carried out: over whole runs, the steps make just the calls their
    requests ask for, each call leads to its callbacks and each callback to its closure, in
    order and once, and a closure is lost only where a full queue refuses it. */
module BusCalls {
  import opened Defs
  import opened TalkStore
  import opened Hubs
  import opened Sides
  import opened AllInOne
  import opened Engine
  import opened Shapes
  import opened EngineFacts
  import opened Frames
  import opened Lifetimes
  import opened OfferShapes
  import opened OfferFacts
  import opened CallShapes
  import CL = CustomerLogic
  import SL = ServicerLogic

  // ---- what a step calls ----

  lemma InstallCalls(e: State, f: Faults)
    requires KeysStored(e) && e.cMid == []
    ensures HandleCustomerInstall(e, f).cMid == CallbacksOf(CustomerCall(e, PickInstall(f)))
    ensures HandleCustomerInstall(e, f).log == Note(e.log, CustomerCall(e, PickInstall(f)))
  {
  }

  lemma MessageCalls(e: State, drained: bool)
    requires e.cMid == []
    ensures HandleCustomerMessage(e, drained).cMid == CallbacksOf(CustomerCall(e, PickMessage(drained)))
    ensures HandleCustomerMessage(e, drained).log == Note(e.log, CustomerCall(e, PickMessage(drained)))
  {
  }

  lemma CloseCalls(e: State, f: Faults)
    requires e.cMid == []
    ensures HandleCustomerClose(e, f).cMid == CallbacksOf(CustomerCall(e, PickClose(f)))
    ensures HandleCustomerClose(e, f).log.bus == e.log.bus && HandleCustomerClose(e, f).log.trace == e.log.trace
  {
  }

  lemma DeliverNotes(e: State, b: Callback, down: bool)
    ensures Deliver(e, b, down).cMid == e.cMid && Deliver(e, b, down).sMid == e.sMid
    ensures Noted(e.log, Deliver(e, b, down).log, None)
  {
  }

  lemma CustomerPickCalls(e: State, p: CustomerPick)
    requires KeysStored(e)
    ensures var e' := CustomerLoop(e, p);
            && e'.cMid == (if e.cMid == [] then CallbacksOf(CustomerCall(e, p)) else if p.PickCall? then e.cMid[1..]
                           else e.cMid)
            && e'.sMid == e.sMid && Noted(e.log, e'.log, CustomerCall(e, p))
  {
    match p
    case PickInstall(f) => if e.cMid == [] { InstallCalls(e, f); }
    case PickMessage(drained) => if e.cMid == [] { MessageCalls(e, drained); }
    case PickClose(f) => if e.cMid == [] { CloseCalls(e, f); }
    case PickCall(down) => if e.cMid != [] { DeliverNotes(e.(cMid := e.cMid[1..]), e.cMid[0], down); }
    case _ =>
  }

  lemma AttachCall(h: SL.ServicerHub, st: Store, q: nat, t: TalkId, f: Faults)
    requires q in h.sess && h.sess[q].key > 0 && "" !in st.talks
    ensures SL.AttachTalk(h, st, q, t, f).call
         == if Finds(st, t, f) && OwnerOf(st, t) != h.sess[q].key then Some(SendServicerAttach(t, h.sess[q].key))
            else None
  {
  }

  lemma AttachCalls(e: State, f: Faults)
    requires ServicersOk(e.s) && "" !in e.store.talks && e.sMid == []
    ensures HandleAttach(e, f).sMid == CallbacksOf(ServicerCall(e, ServeAttach(f)))
    ensures HandleAttach(e, f).log == Note(e.log, ServicerCall(e, ServeAttach(f)))
  {
    if e.attaches != [] && e.attaches[0].conn in e.s.hub.sess {
      AttachCall(e.s.hub, e.store, e.attaches[0].conn, e.attaches[0].talkId, f);
    }
  }

  lemma DetachCall(h: SL.ServicerHub, st: Store, q: nat, t: TalkId, f: Faults)
    requires q in h.sess && "" !in st.talks
    ensures SL.DetachTalk(h, st, q, t, f).call
         == if Finds(st, t, f) && OwnerOf(st, t) == h.sess[q].key then Some(SendServicerDetach(t, h.sess[q].key))
            else None
  {
  }

  lemma DetachCalls(e: State, f: Faults)
    requires "" !in e.store.talks && e.sMid == []
    ensures HandleDetach(e, f).sMid == CallbacksOf(ServicerCall(e, ServeDetach(f)))
    ensures HandleDetach(e, f).log == Note(e.log, ServicerCall(e, ServeDetach(f)))
  {
    if e.detaches != [] && e.detaches[0].conn in e.s.hub.sess {
      DetachCall(e.s.hub, e.store, e.detaches[0].conn, e.detaches[0].talkId, f);
    }
  }

  lemma ServiceMessageCalls(e: State, f: Faults, drained: bool)
    requires "" !in e.store.talks && e.sMid == []
    ensures HandleServicerMessage(e, f, drained).sMid == CallbacksOf(ServicerCall(e, ServeMessage(f, drained)))
    ensures HandleServicerMessage(e, f, drained).log == Note(e.log, ServicerCall(e, ServeMessage(f, drained)))
  {
  }

  /** The picks that make no call and no callback. */
  predicate Silent(p: ServicerPick) {
    !p.ServeAttach? && !p.ServeDetach? && !p.ServeMessage? && !p.ServeCall?
  }

  lemma SilentPicks(e: State, p: ServicerPick)
    requires Silent(p)
    ensures var e' := ServicerLoop(e, p); e'.sMid == e.sMid && e'.cMid == e.cMid && e'.log == e.log
  {
  }

  lemma CallingPicks(e: State, p: ServicerPick)
    requires ServicersOk(e.s) && StoreOk(e.store) && e.sMid == [] && !Silent(p) && !p.ServeCall?
    ensures var e' := ServicerLoop(e, p);
            && e'.sMid == CallbacksOf(ServicerCall(e, p)) && e'.cMid == e.cMid
            && Noted(e.log, e'.log, ServicerCall(e, p))
  {
    assert "" !in e.store.talks;
    if p.ServeAttach? {
      AttachCalls(e, p.f);
    } else if p.ServeDetach? {
      DetachCalls(e, p.f);
    } else {
      ServiceMessageCalls(e, p.f, p.drained);
    }
  }

  lemma ServicerPickCalls(e: State, p: ServicerPick)
    requires ServicersOk(e.s) && StoreOk(e.store)
    ensures var e' := ServicerLoop(e, p);
            && e'.sMid == (if e.sMid == [] then CallbacksOf(ServicerCall(e, p)) else if p.ServeCall? then e.sMid[1..]
                           else e.sMid)
            && e'.cMid == e.cMid && Noted(e.log, e'.log, ServicerCall(e, p))
  {
    if Silent(p) {
      SilentPicks(e, p);
    } else if p.ServeCall? {
      if e.sMid != [] { DeliverNotes(e.(sMid := e.sMid[1..]), e.sMid[0], p.down); }
    } else if e.sMid == [] {
      CallingPicks(e, p);
    }
  }

  lemma ActsCall(e: State, q: nat, a: CustomerAct)
    ensures CallsCarried(e, CustomerActs(e, q, a), CustomerStep(q, a))
  {
    CustomerActsElsewhere(e, q, a);
    CustomerActsLeaveQueue(e, q, a);
  }

  lemma ServicerActsCall(e: State, q: nat, a: ServicerAct)
    ensures CallsCarried(e, ServicerActs(e, q, a), ServicerStep(q, a))
  {
    ServicerActsElsewhere(e, q, a);
    ServicerActsLeaveQueue(e, q, a);
    ServicerActsLeaveCalls(e, q, a);
  }

  lemma CustomersMakeCalls(e: State, p: CustomerPick)
    requires KeysStored(e)
    ensures CallsCarried(e, CustomerLoop(e, p), CustomerLoopStep(p))
  {
    CustomerPickCalls(e, p);
  }

  lemma ServicersMakeCalls(e: State, p: ServicerPick)
    requires ServicersOk(e.s) && StoreOk(e.store)
    ensures CallsCarried(e, ServicerLoop(e, p), ServicerLoopStep(p))
  {
    ServicerPickCalls(e, p);
  }

  lemma StepCalls(e: State, a: Step)
    requires EngineOk(e)
    ensures CallsCarried(e, Next(e, a), a)
  {
    SessionsOfEngine(e);
    match a
    case CustomerStep(q, act) => ActsCall(e, q, act);
    case CustomerLoopStep(p) => CustomersMakeCalls(e, p);
    case ServicerStep(q, act) => ServicerActsCall(e, q, act);
    case ServicerLoopStep(p) => ServicersMakeCalls(e, p);
  }

  /** The servicer loop takes the message at the head of its channel, whose talk is found: the
      owner's message is put on the bus for both sides, and nobody else's is. */
  lemma OwnersMessageIsReleased(e: State, f: Faults, drained: bool)
    requires EngineOk(e) && e.sMid == [] && e.s.inbox != [] && e.s.inbox[0].conn in e.s.hub.sess
    requires Finds(e.store, e.s.inbox[0].talkId, f)
    ensures var d, e' := e.s.inbox[0], HandleServicerMessage(e, f, drained);
            var released := OwnerOf(e.store, d.talkId) == e.s.hub.sess[d.conn].key;
            && (released <==> (d.talkId, d.message) in e'.log.bus
                              && e'.sMid == [CustomerOnMessage(d.talkId, d.message),
                                             ServicerOnMessage(d.talkId, d.message)])
            && e'.log.bus == e.log.bus + (if released then {(d.talkId, d.message)} else {})
  {
    ServicerPickCalls(e, ServeMessage(f, drained));
  }

  /** And a customer's always is. */
  lemma CustomersMessageIsReleased(e: State, drained: bool)
    requires EngineOk(e) && e.cMid == [] && e.c.inbox != [] && e.c.inbox[0].conn in e.c.hub.sess
    ensures var d, e' := e.c.inbox[0], HandleCustomerMessage(e, drained);
            var t := e.c.hub.sess[d.conn].key;
            && e'.log.bus == e.log.bus + {(t, d.message)}
            && e'.cMid == [CustomerOnMessage(t, d.message), ServicerOnMessage(t, d.message)]
  {
    SessionsOfEngine(e);
    CustomerPickCalls(e, PickMessage(drained));
  }

  /** A closing that the store carries out is told to both sides. */
  lemma ClosingIsAnnounced(e: State, f: Faults)
    requires EngineOk(e) && e.cMid == [] && e.closes != [] && e.closes[0] in e.c.hub.sess
    ensures var e', t := HandleCustomerClose(e, f), e.c.hub.sess[e.closes[0]].key;
            if f.write then e'.cMid == [] && e'.store == e.store
            else
              && e'.cMid == [CustomerOnClose(t), ServicerOnClose(t)]
              && t in e'.store.talks && e'.store.talks[t] == e.store.talks[t].(status := Closed)
  {
    SessionsOfEngine(e);
    CustomerPickCalls(e, PickClose(f));
  }

  // ---- what a step posts and runs ----

  lemma DeliverPosts(e: State, b: Callback, down: bool)
    ensures var e' := Deliver(e, b, down);
            if ForCustomers(b) then
              && e'.sPosted == e.sPosted && e'.sLost == e.sLost
              && e'.cPosted == Push(e.cPosted, MESSAGE_CAPACITY, CustomerTaskOf(b))
              && (e'.cLost <==> e.cLost || |e.cPosted| >= MESSAGE_CAPACITY)
            else
              var k := ServicerTaskOf(b, e.store, down);
              && e'.cPosted == e.cPosted && e'.cLost == e.cLost
              && e'.sPosted == (if k.Some? then Push(e.sPosted, MESSAGE_CAPACITY, k.value) else e.sPosted)
              && (e'.sLost <==> e.sLost || (k.Some? && |e.sPosted| >= MESSAGE_CAPACITY))
  {
  }

  lemma CustomerPickPosts(e: State, p: CustomerPick)
    ensures PostsCarried(e, CustomerLoop(e, p), CustomerLoopStep(p))
  {
    match p
    case PickCall(down) => if e.cMid != [] { DeliverPosts(e.(cMid := e.cMid[1..]), e.cMid[0], down); }
    case _ => CustomerPicksLeaveQueue(e, p);
  }

  lemma RunnerPosts(e: State, f: Faults, late: set<nat>)
    ensures PostsCarried(e, RunServicerTask(e, f, late), ServicerLoopStep(ServeRunner(f, late)))
  {
  }

  lemma OtherPicksLeavePosted(e: State, p: ServicerPick)
    requires !p.ServeRunner? && !p.ServeCall?
    ensures var e' := ServicerLoop(e, p);
            e'.cPosted == e.cPosted && e'.cLost == e.cLost && e'.sPosted == e.sPosted && e'.sLost == e.sLost
  {
  }

  lemma ServicerPickPosts(e: State, p: ServicerPick)
    ensures PostsCarried(e, ServicerLoop(e, p), ServicerLoopStep(p))
  {
    match p
    case ServeCall(down) => if e.sMid != [] { DeliverPosts(e.(sMid := e.sMid[1..]), e.sMid[0], down); }
    case ServeRunner(f, late) => RunnerPosts(e, f, late);
    case _ => OtherPicksLeavePosted(e, p);
  }

  lemma StepPosts(e: State, a: Step)
    ensures PostsCarried(e, Next(e, a), a)
  {
    match a
    case CustomerStep(q, act) => CustomerActsLeavePosted(e, q, act);
    case CustomerLoopStep(p) => CustomerPickPosts(e, p);
    case ServicerStep(q, act) => ServicerActsLeaveQueue(e, q, act); ServicerActsLeavePosted(e, q, act);
    case ServicerLoopStep(p) => ServicerPickPosts(e, p);
  }

  // ---- runs ----

  lemma AllCallbacksMore(calls: seq<BusCall>, call: Option<BusCall>)
    ensures AllCallbacks(calls + Listed(call)) == AllCallbacks(calls) + CallbacksOf(call)
  {
    if call.Some? {
      assert (calls + [call.value])[..|calls|] == calls;
    } else {
      assert calls + [] == calls;
    }
  }

  /** One loop's pending callbacks over a step: what was made and what is pending together are
      still the callbacks of the calls. */
  lemma CarriesOver<T>(made: seq<T>, q: seq<T>, q': seq<T>, taken: Option<T>, added: seq<T>, all: seq<T>)
    requires Moves(q, q', taken, added) && made + q == all
    ensures (made + Listed(taken)) + q' == all + added
  {
    assert (made + Listed(taken)) + q' == made + (Listed(taken) + q');
    assert made + (q + added) == (made + q) + added;
  }

  lemma TurnsMove<T>(q: seq<T>, q': seq<T>, taken: Option<T>, added: Option<T>)
    requires Turns(q, q', taken, added)
    ensures Moves(q, q', taken, Listed(added))
  {
    if taken.Some? {
      assert q == [q[0]] + q[1..];
    }
  }

  /** Each loop makes the callbacks of its calls, call after call, all of them and no others. */
  lemma {:induction false} CallsLeadToCallbacks(e: State, steps: seq<Step>)
    requires Init(e)
    ensures var x := Run(e, steps);
            && Along(e, steps, MadeByCustomers) + x.cMid == AllCallbacks(Along(e, steps, CallOfCustomers))
            && Along(e, steps, MadeByServicers) + x.sMid == AllCallbacks(Along(e, steps, CallOfServicers))
  {
    if steps != [] {
      var before, a := steps[..|steps| - 1], steps[|steps| - 1];
      var x, x' := Run(e, before), Run(e, steps);
      InitOk(e);
      RunOk(e, before);
      CallsLeadToCallbacks(e, before);
      StepCalls(x, a);
      AllCallbacksMore(Along(e, before, CallOfCustomers), CallOfCustomers(x, a));
      AllCallbacksMore(Along(e, before, CallOfServicers), CallOfServicers(x, a));
      CarriesOver(Along(e, before, MadeByCustomers), x.cMid, x'.cMid, MadeByCustomers(x, a),
                  CallbacksOf(CallOfCustomers(x, a)), AllCallbacks(Along(e, before, CallOfCustomers)));
      CarriesOver(Along(e, before, MadeByServicers), x.sMid, x'.sMid, MadeByServicers(x, a),
                  CallbacksOf(CallOfServicers(x, a)), AllCallbacks(Along(e, before, CallOfServicers)));
    }
  }

  /** The closures run and those still queued are those queued, in order; and as long as no
      post was refused, those are all that the callbacks made were to post. */
  lemma {:induction false} CallbacksLeadToClosures(e: State, steps: seq<Step>)
    requires Init(e)
    ensures var x := Run(e, steps);
            && Along(e, steps, CustomerRan) + x.cPosted == Along(e, steps, CustomerQueued)
            && Along(e, steps, ServicerRan) + x.sPosted == Along(e, steps, ServicerQueued)
            && (!x.cLost ==> Along(e, steps, CustomerQueued) == Along(e, steps, CustomerPost))
            && (!x.sLost ==> Along(e, steps, ServicerQueued) == Along(e, steps, ServicerPost))
  {
    if steps != [] {
      var before, a := steps[..|steps| - 1], steps[|steps| - 1];
      var x, x' := Run(e, before), Run(e, steps);
      CallbacksLeadToClosures(e, before);
      StepPosts(x, a);
      TurnsMove(x.cPosted, x'.cPosted, CustomerRan(x, a), CustomerQueued(x, a));
      TurnsMove(x.sPosted, x'.sPosted, ServicerRan(x, a), ServicerQueued(x, a));
      CarriesOver(Along(e, before, CustomerRan), x.cPosted, x'.cPosted, CustomerRan(x, a),
                  Listed(CustomerQueued(x, a)), Along(e, before, CustomerQueued));
      CarriesOver(Along(e, before, ServicerRan), x.sPosted, x'.sPosted, ServicerRan(x, a),
                  Listed(ServicerQueued(x, a)), Along(e, before, ServicerQueued));
    }
  }

  lemma EventsMore(calls: seq<BusCall>, call: Option<BusCall>, log: Log, log': Log)
    requires Noted(log, log', call) && log.trace == Events(calls)
    ensures log'.trace == Events(calls + Listed(call))
  {
    if call.Some? {
      assert (calls + [call.value])[..|calls|] == calls;
    } else {
      assert calls + [] == calls;
    }
  }

  lemma BusMore(calls: seq<BusCall>, call: Option<BusCall>, log: Log, log': Log, t: TalkId, m: Msg)
    requires Noted(log, log', call) && ((t, m) in log.bus <==> SendMessage(t, m) in calls)
    ensures (t, m) in log'.bus <==> SendMessage(t, m) in calls + Listed(call)
  {
  }

  /** The messages on the bus are those of the calls made, and the ownership events likewise. */
  lemma {:induction false} BusIsWhatWasCalled(e: State, steps: seq<Step>)
    requires Init(e)
    ensures var x, calls := Run(e, steps), Along(e, steps, CallOf);
            && (forall t, m :: (t, m) in x.log.bus <==> SendMessage(t, m) in calls)
            && x.log.trace == Events(calls)
  {
    if steps != [] {
      var before, a := steps[..|steps| - 1], steps[|steps| - 1];
      var x := Run(e, before);
      InitOk(e);
      RunOk(e, before);
      BusIsWhatWasCalled(e, before);
      StepCalls(x, a);
      var calls, call := Along(e, before, CallOf), CallOf(x, a);
      EventsMore(calls, call, x.log, Next(x, a).log);
      forall t, m
        ensures (t, m) in Next(x, a).log.bus <==> SendMessage(t, m) in calls + Listed(call)
      {
        BusMore(calls, call, x.log, Next(x, a).log, t, m);
      }
    }
  }

  // ---- from call to closure ----

  lemma {:induction false} CallbackOfCall(calls: seq<BusCall>, call: BusCall, b: Callback)
    requires call in calls && b in Callbacks(call)
    ensures b in AllCallbacks(calls)
  {
    var front := calls[..|calls| - 1];
    if call in front {
      CallbackOfCall(front, call, b);
    }
  }

  lemma {:induction false} CallOfOneLoop(e: State, steps: seq<Step>, call: BusCall)
    requires call in Along(e, steps, CallOf)
    ensures call in Along(e, steps, CallOfCustomers) || call in Along(e, steps, CallOfServicers)
  {
    var before := steps[..|steps| - 1];
    if call in Along(e, before, CallOf) {
      CallOfOneLoop(e, before, call);
    }
  }

  lemma MadeIsPosted(e: State, a: Step)
    ensures MadeByCustomers(e, a).Some? || MadeByServicers(e, a).Some? ==> CallbackMade(e, a).Some?
    ensures MadeByCustomers(e, a).Some? ==> CallbackMade(e, a) == MadeByCustomers(e, a)
    ensures MadeByServicers(e, a).Some? ==> CallbackMade(e, a) == MadeByServicers(e, a)
  {
  }

  lemma {:induction false} MadeReachesCustomers(e: State, steps: seq<Step>, b: Callback)
    requires b in Along(e, steps, MadeByCustomers) || b in Along(e, steps, MadeByServicers)
    ensures b.CustomerOnMessage? ==> CastMessage(b.talkId, b.message) in Along(e, steps, CustomerPost)
    ensures b.CustomerOnClose? ==> CastClose(b.talkId) in Along(e, steps, CustomerPost)
  {
    var before, a := steps[..|steps| - 1], steps[|steps| - 1];
    MadeIsPosted(Run(e, before), a);
    if b in Along(e, before, MadeByCustomers) || b in Along(e, before, MadeByServicers) {
      MadeReachesCustomers(e, before, b);
    }
  }

  lemma {:induction false} MadeReachesServicers(e: State, steps: seq<Step>, b: Callback)
    requires b in Along(e, steps, MadeByCustomers) || b in Along(e, steps, MadeByServicers)
    ensures b.ServicerOnMessage? ==> TellMessage(b.talkId, b.message) in Along(e, steps, ServicerPost)
    ensures b.ServicerOnCreate? ==> TellCreate(b.talkId) in Along(e, steps, ServicerPost)
    ensures b.ServicerOnClose? ==> TellClose(b.talkId) in Along(e, steps, ServicerPost)
    ensures b.ServicerOnAttach? ==> TellAttach(b.talkId, b.servicerID) in Along(e, steps, ServicerPost)
  {
    var before, a := steps[..|steps| - 1], steps[|steps| - 1];
    MadeIsPosted(Run(e, before), a);
    if b in Along(e, before, MadeByCustomers) || b in Along(e, before, MadeByServicers) {
      MadeReachesServicers(e, before, b);
    }
  }

  lemma CallbackIsCarried(e: State, steps: seq<Step>, call: BusCall, b: Callback)
    requires Init(e) && call in Along(e, steps, CallOf) && b in Callbacks(call)
    ensures || b in Along(e, steps, MadeByCustomers) || b in Along(e, steps, MadeByServicers)
            || b in Run(e, steps).cMid || b in Run(e, steps).sMid
  {
    CallOfOneLoop(e, steps, call);
    CallsLeadToCallbacks(e, steps);
    if call in Along(e, steps, CallOfCustomers) {
      CallbackOfCall(Along(e, steps, CallOfCustomers), call, b);
    } else {
      CallbackOfCall(Along(e, steps, CallOfServicers), call, b);
    }
  }

  lemma CustomersHearIt(e: State, steps: seq<Step>, call: BusCall, b: Callback)
    requires Init(e) && call in Along(e, steps, CallOf) && b in Callbacks(call) && !Run(e, steps).cLost
    ensures b.CustomerOnMessage? ==> CustomersHear(e, steps, b, CastMessage(b.talkId, b.message))
    ensures b.CustomerOnClose? ==> CustomersHear(e, steps, b, CastClose(b.talkId))
  {
    CallbackIsCarried(e, steps, call, b);
    CallbacksLeadToClosures(e, steps);
    if b in Along(e, steps, MadeByCustomers) || b in Along(e, steps, MadeByServicers) {
      MadeReachesCustomers(e, steps, b);
    }
  }

  lemma ServicersHearIt(e: State, steps: seq<Step>, call: BusCall, b: Callback)
    requires Init(e) && call in Along(e, steps, CallOf) && b in Callbacks(call) && !Run(e, steps).sLost
    ensures b.ServicerOnMessage? ==> ServicersHear(e, steps, b, TellMessage(b.talkId, b.message))
    ensures b.ServicerOnCreate? ==> ServicersHear(e, steps, b, TellCreate(b.talkId))
    ensures b.ServicerOnClose? ==> ServicersHear(e, steps, b, TellClose(b.talkId))
    ensures b.ServicerOnAttach? ==> ServicersHear(e, steps, b, TellAttach(b.talkId, b.servicerID))
  {
    CallbackIsCarried(e, steps, call, b);
    CallbacksLeadToClosures(e, steps);
    if b in Along(e, steps, MadeByCustomers) || b in Along(e, steps, MadeByServicers) {
      MadeReachesServicers(e, steps, b);
    }
  }

  /** Whoever is to hear of a call hears of it: while no post was lost, the closure it leads to
      on each side has been run, is queued, or its callback is still to be made. A message and
      a closing are for both sides, a creation and a take-over for the servicers. */
  lemma EveryCallIsCarriedOut(e: State, steps: seq<Step>, call: BusCall)
    requires Init(e) && call in Along(e, steps, CallOf)
    ensures !Run(e, steps).cLost ==>
              && (call.SendMessage? ==>
                    CustomersHear(e, steps, CustomerOnMessage(call.talkId, call.message),
                                  CastMessage(call.talkId, call.message)))
              && (call.SendTalkClose? ==> CustomersHear(e, steps, CustomerOnClose(call.talkId), CastClose(call.talkId)))
    ensures !Run(e, steps).sLost ==>
              && (call.SendMessage? ==>
                    ServicersHear(e, steps, ServicerOnMessage(call.talkId, call.message),
                                  TellMessage(call.talkId, call.message)))
              && (call.SendTalkClose? ==> ServicersHear(e, steps, ServicerOnClose(call.talkId), TellClose(call.talkId)))
              && (call.SendTalkCreate? ==>
                    ServicersHear(e, steps, ServicerOnCreate(call.talkId), TellCreate(call.talkId)))
              && (call.SendServicerAttach? ==>
                    ServicersHear(e, steps, ServicerOnAttach(call.talkId, call.servicerID),
                                  TellAttach(call.talkId, call.servicerID)))
  {
    var x := Run(e, steps);
    match call
    case SendMessage(t, m) =>
      if !x.cLost { CustomersHearIt(e, steps, call, CustomerOnMessage(t, m)); }
      if !x.sLost { ServicersHearIt(e, steps, call, ServicerOnMessage(t, m)); }
    case SendTalkClose(t) =>
      if !x.cLost { CustomersHearIt(e, steps, call, CustomerOnClose(t)); }
      if !x.sLost { ServicersHearIt(e, steps, call, ServicerOnClose(t)); }
    case SendTalkCreate(t) => if !x.sLost { ServicersHearIt(e, steps, call, ServicerOnCreate(t)); }
    case SendServicerAttach(t, u) => if !x.sLost { ServicersHearIt(e, steps, call, ServicerOnAttach(t, u)); }
    case SendServicerDetach(t, u) =>
  }
}
