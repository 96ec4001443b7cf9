/** Sessions over whole runs: every session has one contiguous stay in the registry, the
    registries stay well formed, and a session nobody drains is soon gone for good. */
module Lifetimes {
  import opened Defs
  import opened TalkStore
  import opened Hubs
  import opened HubFacts
  import opened Sides
  import opened Engine
  import opened Shapes
  import opened EngineFacts
  import CL = CustomerLogic
  import SL = ServicerLogic

  lemma LaterRefl(e: State)
    ensures Later(e, e)
  {
  }

  lemma LaterTrans(e: State, e': State, e'': State)
    requires Later(e, e') && Later(e', e'') && EngineOk(e) && EngineOk(e')
    ensures Later(e, e'')
  {
  }

  lemma {:induction false} RunOk(e: State, steps: seq<Step>)
    requires EngineOk(e)
    ensures EngineOk(Run(e, steps)) && Later(e, Run(e, steps))
  {
    if steps == [] {
      LaterRefl(e);
    } else {
      var before := Run(e, steps[..|steps| - 1]);
      RunOk(e, steps[..|steps| - 1]);
      StepOk(before, steps[|steps| - 1]);
      LaterTrans(e, before, Run(e, steps));
    }
  }

  lemma {:induction false} NeverBack(e: State, more: seq<Step>, q: nat)
    requires EngineOk(e)
    ensures q in e.c.installed && !Registered(e.c.hub, q) ==> !Registered(Run(e, more).c.hub, q)
    ensures q in e.s.installed && !Registered(e.s.hub, q) ==> !Registered(Run(e, more).s.hub, q)
  {
    RunOk(e, more);
  }

  lemma {:induction false} StaysInstalled(e: State, more: seq<Step>, q: nat)
    requires EngineOk(e)
    ensures Registered(e.c.hub, q) ==> q in Run(e, more).c.installed
    ensures Registered(e.s.hub, q) ==> q in Run(e, more).s.installed
  {
    RunOk(e, more);
  }

  /** A session that has been in the registry and is not any more never comes back, whether
      it was uninstalled or evicted and in whatever order its requests were handled: over a
      run in three stretches, in after the first and out after the second means out at the end. */
  lemma {:induction false} OneRegistryLifetime(e: State, first: seq<Step>, second: seq<Step>, third: seq<Step>, q: nat)
    requires Init(e)
    ensures OneStay(Run(e, first), Run(Run(e, first), second), Run(Run(Run(e, first), second), third), q)
  {
    InitOk(e);
    RunOk(e, first);
    var e1 := Run(e, first);
    RunOk(e1, second);
    StaysInstalled(e1, second, q);
    NeverBack(Run(e1, second), third, q);
  }

  lemma EngineOkRegistries(e: State)
    requires EngineOk(e)
    ensures Filed(e.c.hub) && Filed(e.s.hub) && NoEmptyEntry(e.c.hub)
    ensures forall t | t in e.c.hub.reg :: t in e.store.talks
  {
    forall t | t in e.c.hub.reg
      ensures t in e.store.talks
    {
      var q :| q in e.c.hub.reg[t];
      assert e.c.hub.sess[q].key == t;
    }
  }

  /** In every reachable state the entries are filed under their sessions' own keys, no
      customer entry is empty, and every talk with customers is stored. */
  lemma {:induction false} RegistriesWellFormed(e: State, steps: seq<Step>)
    requires Init(e)
    ensures Filed(Run(e, steps).c.hub) && Filed(Run(e, steps).s.hub)
    ensures NoEmptyEntry(Run(e, steps).c.hub)
    ensures forall t | t in Run(e, steps).c.hub.reg :: t in Run(e, steps).store.talks
  {
    InitOk(e);
    RunOk(e, steps);
    EngineOkRegistries(Run(e, steps));
  }

  /** The closures that broadcast to all servicers when their talk is found. */
  predicate TellsEveryone(task: ServicerTask) {
    !task.TellMessage?
  }

  /** Right after a broadcast to all servicers, no servicer entry is empty. */
  lemma NoEmptyEntryAfterTellingAll(h: SL.ServicerHub, st: Store, task: ServicerTask, f: Faults, late: set<nat>)
    requires HubOk(h) && TellsEveryone(task) && !f.read
    requires task.TellCreate? || task.TellAttach? ==> Lookup(st, task.talkId).Some?
    ensures NoEmptyEntry(SL.RunTask(h, st, task, f, late))
  {
    match task
    case TellCreate(t) =>
      CastAllFiled(h, ServiceResponse.Detach(Card(Lookup(st, t).value), 0), SL.SEND_FAILED, late);
    case TellClose(t) =>
      CastAllFiled(h, ServiceClose(t), SL.SEND_FAILED, late);
    case TellAttach(t, u) =>
      var r := ServiceResponse.Attach(Card(Lookup(st, t).value), u);
      CastAllFiled(h, r, SL.SEND_FAILED, late);
      var talk := SL.TalkWithMessages(st, t, f.second, f);
      if talk.Some? {
        CastKeyFiled(CastAll(h, r, SL.SEND_FAILED, late), u, {}, Reload(talk.value), SL.SEND_FAILED, late);
      }
    case TellDetach(talk, u) =>
      CastAllFiled(h, ServiceResponse.Detach(Card(talk), u), SL.SEND_FAILED, late);
  }

  /** A confirmation leaves an empty servicer entry exactly when it evicts the only session
      of its user, or one was there before. */
  lemma ConfirmationLeavesEmptyEntryIff(h: SL.ServicerHub, q: nat, r: ServiceResponse, kick: ServiceResponse,
                                        drained: bool)
    requires q in h.sess && h.sess[q].key in h.reg
    ensures var k := h.sess[q].key;
            var h' := ConfirmOrDrop(h, q, r, kick, drained);
            k in h'.reg && (h'.reg[k] == {} <==> h.reg[k] == {} || (h.reg[k] == {q} && Full(h.sess[q])))
  {
    var k := h.sess[q].key;
    if Full(h.sess[q]) {
      assert h.reg[k] - {q} == {} <==> h.reg[k] <= {q};
      assert h.reg[k] <= {q} <==> h.reg[k] == {} || h.reg[k] == {q};
    }
  }

  // ---- a session that nobody drains ----

  /** The step sends session q of the customers something whose failure evicts it. */
  predicate SendsToCustomer(e: State, a: Step, q: nat) {
    && q in e.c.hub.sess && a.CustomerLoopStep? && e.cMid == []
    && match a.customerPick
       case PickRunner(_) => e.cPosted != [] && e.cPosted[0].talkId == e.c.hub.sess[q].key && q != 0
       case PickMessage(_) => e.c.inbox != [] && e.c.inbox[0].conn == q
       case _ => false
  }

  /** The lookup a servicer closure makes of the talk's owner. */
  function OwnerFound(e: State, t: TalkId, f: Faults): nat {
    if f.read || Lookup(e.store, t).None? then 0 else Lookup(e.store, t).value.info.serviceID
  }

  /** The step sends session q of the servicers something whose failure evicts it. */
  predicate SendsToServicer(e: State, a: Step, q: nat) {
    && q in e.s.hub.sess && a.ServicerLoopStep? && e.sMid == []
    && match a.servicerPick
       case ServeRunner(f, _) =>
         && e.sPosted != []
         && (match e.sPosted[0]
             case TellMessage(t, m) => OwnerFound(e, t, f) == e.s.hub.sess[q].key && q != 0
             case TellCreate(t) => !f.read && Lookup(e.store, t).Some?
             case TellClose(t) => true
             case TellAttach(t, u) => !f.read && Lookup(e.store, t).Some?
             case TellDetach(talk, u) => true)
       case ServeMessage(f, _) =>
         && e.s.inbox != [] && e.s.inbox[0].conn == q && e.s.inbox[0].talkId != ""
         && OwnerFound(e, e.s.inbox[0].talkId, f) == e.s.hub.sess[q].key
       case _ => false
  }

  /** A broadcast to a registered session either makes its queue longer or, if that is full,
      removes it. */
  lemma BroadcastReaches<K, R>(h: Hub<K, R>, h': Hub<K, R>, to: set<nat>, r: R, kick: R, q: nat)
    requires HubOk(h) && Broadcast(h, h', to, r, kick) && q in to && Registered(h, q)
    ensures if Full(h.sess[q]) then !Registered(h', q)
            else Registered(h', q) && h'.sess[q] == h.sess[q].(sent := h.sess[q].sent + [r])
  {
    assert Got(h, h', q, to, r, kick);
  }

  lemma ConfirmReaches<K, R>(h: Hub<K, R>, q: nat, r: R, kick: R, drained: bool)
    requires HubOk(h) && Registered(h, q)
    ensures var h' := Prune(ConfirmOrDrop(h, q, r, kick, drained), h.sess[q].key);
            if Full(h.sess[q]) then !Registered(h', q)
            else Registered(h', q) && h'.sess[q] == h.sess[q].(sent := h.sess[q].sent + [r])
  {
  }

  lemma CustomerTaskReaches(h: CL.CustomerHub, task: CustomerTask, late: set<nat>, q: nat)
    requires HubOk(h) && Registered(h, q) && task.talkId == h.sess[q].key && q != 0
    ensures var h' := CL.RunTask(h, task, late);
            if Full(h.sess[q]) then !Registered(h', q)
            else Registered(h', q) && h'.sess[q] == h.sess[q].(sent := h.sess[q].sent + [CL.TaskResponse(task)])
  {
    CastKeyBroadcasts(h, task.talkId, {0}, CL.TaskResponse(task), CL.SEND_FAILED, late);
    BroadcastReaches(h, CL.RunTask(h, task, late), AddressedByKey(h, task.talkId, {0}),
                     CL.TaskResponse(task), CL.SEND_FAILED, q);
  }

  lemma CustomerSendReaches(e: State, a: Step, q: nat)
    requires EngineOk(e) && SendsToCustomer(e, a, q) && Registered(e.c.hub, q)
    ensures Reaches(e.c.hub, CustomerLoop(e, a.customerPick).c.hub, q)
  {
    match a.customerPick
    case PickRunner(late) => CustomerTaskReaches(e.c.hub, e.cPosted[0], late, q);
    case PickMessage(drained) =>
      var d := e.c.inbox[0];
      ConfirmReaches(e.c.hub, q, TalkResponse.MessageConfirmed(d.seqId, d.message.at), CL.SEND_FAILED, drained);
  }

  lemma AllReached<K, R>(h: Hub<K, R>, r: R, kick: R, late: set<nat>, q: nat)
    requires HubOk(h) && Registered(h, q)
    ensures var h' := CastAll(h, r, kick, late);
            if Full(h.sess[q]) then !Registered(h', q)
            else Registered(h', q) && h'.sess[q] == h.sess[q].(sent := h.sess[q].sent + [r])
  {
    CastAllBroadcasts(h, r, kick, late);
    EveryRegisteredIsUnder(h, q);
    BroadcastReaches(h, CastAll(h, r, kick, late), Under(h, h.reg.Keys), r, kick, q);
  }

  lemma ServicerTaskReaches(h: SL.ServicerHub, st: Store, task: ServicerTask, f: Faults, late: set<nat>, q: nat)
    requires HubOk(h) && Registered(h, q)
    requires task.TellMessage? ==>
               !f.read && Lookup(st, task.talkId).Some? && h.sess[q].key > 0 && q != 0
               && Lookup(st, task.talkId).value.info.serviceID == h.sess[q].key
    requires task.TellCreate? || task.TellAttach? ==> !f.read && Lookup(st, task.talkId).Some?
    ensures Reaches(h, SL.RunTask(h, st, task, f, late), q)
  {
    EveryRegisteredIsUnder(h, q);
    match task
    case TellMessage(t, m) =>
      var r := ServiceResponse.ServiceMessage(t, m);
      CastKeyBroadcasts(h, h.sess[q].key, {0}, r, SL.MESSAGE_FAILED, late);
      BroadcastReaches(h, SL.RunTask(h, st, task, f, late), AddressedByKey(h, h.sess[q].key, {0}), r, SL.MESSAGE_FAILED,
                       q);
    case TellCreate(t) =>
      AllReached(h, ServiceResponse.Detach(Card(Lookup(st, t).value), 0), SL.SEND_FAILED, late, q);
    case TellClose(t) =>
      AllReached(h, ServiceClose(t), SL.SEND_FAILED, late, q);
    case TellAttach(t, u) =>
      var r := ServiceResponse.Attach(Card(Lookup(st, t).value), u);
      var told := CastAll(h, r, SL.SEND_FAILED, late);
      AllReached(h, r, SL.SEND_FAILED, late, q);
      SteadyCastAll(h, r, SL.SEND_FAILED, late);
      var talk := SL.TalkWithMessages(st, t, f.second, f);
      if talk.Some? {
        SteadyCastKey(told, u, {}, Reload(talk.value), SL.SEND_FAILED, late);
      }
    case TellDetach(talk, u) =>
      AllReached(h, ServiceResponse.Detach(Card(talk), u), SL.SEND_FAILED, late, q);
  }

  lemma ConfirmationReaches<K, R>(h: Hub<K, R>, q: nat, r: R, kick: R, drained: bool)
    requires HubOk(h)
    ensures Reaches(h, ConfirmOrDrop(h, q, r, kick, drained), q)
  {
  }

  lemma ServicerMessageReaches(e: State, f: Faults, drained: bool, q: nat)
    requires EngineOk(e) && SendsToServicer(e, ServicerLoopStep(ServeMessage(f, drained)), q) && Registered(e.s.hub, q)
    ensures Reaches(e.s.hub, HandleServicerMessage(e, f, drained).s.hub, q)
  {
    var d := e.s.inbox[0];
    ConfirmationReaches(e.s.hub, q, ServiceConfirmed(d.seqId, d.message.at), SL.MESSAGE_FAILED, drained);
  }

  lemma ServicerSendReaches(e: State, a: Step, q: nat)
    requires EngineOk(e) && SendsToServicer(e, a, q) && Registered(e.s.hub, q)
    ensures Reaches(e.s.hub, ServicerLoop(e, a.servicerPick).s.hub, q)
  {
    match a.servicerPick
    case ServeRunner(f, late) => ServicerTaskReaches(e.s.hub, e.store, e.sPosted[0], f, late, q);
    case ServeMessage(f, drained) => ServicerMessageReaches(e, f, drained, q);
  }

  /** How many steps of a run sent the customer session something that could evict it. */
  function CustomerSends(e: State, steps: seq<Step>, q: nat): nat {
    if steps == [] then 0
    else
      var before := steps[..|steps| - 1];
      CustomerSends(e, before, q) + (if SendsToCustomer(Run(e, before), steps[|steps| - 1], q) then 1 else 0)
  }

  function ServicerSends(e: State, steps: seq<Step>, q: nat): nat {
    if steps == [] then 0
    else
      var before := steps[..|steps| - 1];
      ServicerSends(e, before, q) + (if SendsToServicer(Run(e, before), steps[|steps| - 1], q) then 1 else 0)
  }

  function QueueLength<K, R>(h: Hub<K, R>, q: nat): int
    requires q in h.sess
  {
    |h.sess[q].sent| - h.sess[q].taken
  }

  lemma CustomerQueueStep(e: State, a: Step, q: nat)
    requires EngineOk(e) && q in e.c.installed && Registered(Next(e, a).c.hub, q)
    ensures Registered(e.c.hub, q)
    ensures |Next(e, a).c.hub.sess[q].sent| >= |e.c.hub.sess[q].sent| + (if SendsToCustomer(e, a, q) then 1 else 0)
  {
    StepOk(e, a);
    if SendsToCustomer(e, a, q) {
      CustomerSendReaches(e, a, q);
    }
  }

  lemma {:induction false} CustomerQueueGrows(e: State, steps: seq<Step>, q: nat)
    requires EngineOk(e) && q in e.c.installed && q in e.c.hub.sess && Registered(Run(e, steps).c.hub, q)
    ensures |Run(e, steps).c.hub.sess[q].sent| >= |e.c.hub.sess[q].sent| + CustomerSends(e, steps, q)
  {
    if steps != [] {
      var before, a := steps[..|steps| - 1], steps[|steps| - 1];
      RunOk(e, before);
      CustomerQueueStep(Run(e, before), a, q);
      CustomerQueueGrows(e, before, q);
    }
  }

  lemma ServicerStepGrows(e: State, a: Step, q: nat)
    requires EngineOk(e) && q in e.s.installed && Registered(Next(e, a).s.hub, q)
    ensures Registered(e.s.hub, q) && |Next(e, a).s.hub.sess[q].sent| >= |e.s.hub.sess[q].sent|
  {
    StepOk(e, a);
  }

  lemma ServicerQueueStep(e: State, a: Step, q: nat)
    requires EngineOk(e) && q in e.s.installed && Registered(Next(e, a).s.hub, q)
    ensures Registered(e.s.hub, q)
    ensures |Next(e, a).s.hub.sess[q].sent| >= |e.s.hub.sess[q].sent| + (if SendsToServicer(e, a, q) then 1 else 0)
  {
    ServicerStepGrows(e, a, q);
    if SendsToServicer(e, a, q) {
      ServicerSendReaches(e, a, q);
    }
  }

  lemma {:induction false} ServicerQueueGrows(e: State, steps: seq<Step>, q: nat)
    requires EngineOk(e) && q in e.s.installed && q in e.s.hub.sess && Registered(Run(e, steps).s.hub, q)
    ensures |Run(e, steps).s.hub.sess[q].sent| >= |e.s.hub.sess[q].sent| + ServicerSends(e, steps, q)
  {
    if steps != [] {
      var before, a := steps[..|steps| - 1], steps[|steps| - 1];
      RunOk(e, before);
      ServicerQueueStep(Run(e, before), a, q);
      ServicerQueueGrows(e, before, q);
    }
  }

  /** A session that stays in the registry while nothing takes from its queue has had no
      more sends than its queue had room for; whatever happened to its uninstall. */
  lemma {:induction false} UndrainedSessionHasBoundedLife(e: State, before: seq<Step>, steps: seq<Step>, q: nat)
    requires Init(e)
    ensures var e0, e1 := Run(e, before), Run(Run(e, before), steps);
            Registered(e0.c.hub, q) && Registered(e1.c.hub, q) && e1.c.hub.sess[q].taken == e0.c.hub.sess[q].taken
            ==> CustomerSends(e0, steps, q) <= SESSION_CAPACITY - QueueLength(e0.c.hub, q)
    ensures var e0, e1 := Run(e, before), Run(Run(e, before), steps);
            Registered(e0.s.hub, q) && Registered(e1.s.hub, q) && e1.s.hub.sess[q].taken == e0.s.hub.sess[q].taken
            ==> ServicerSends(e0, steps, q) <= SESSION_CAPACITY - QueueLength(e0.s.hub, q)
  {
    InitOk(e);
    RunOk(e, before);
    var e0 := Run(e, before);
    RunOk(e0, steps);
    var e1 := Run(e0, steps);
    if Registered(e0.c.hub, q) && Registered(e1.c.hub, q) {
      CustomerQueueGrows(e0, steps, q);
    }
    if Registered(e0.s.hub, q) && Registered(e1.s.hub, q) {
      ServicerQueueGrows(e0, steps, q);
    }
  }

  lemma CustomerEvictedForGood(e: State, a: Step, after: seq<Step>, q: nat)
    requires EngineOk(e) && Registered(e.c.hub, q) && Full(e.c.hub.sess[q]) && SendsToCustomer(e, a, q)
    ensures !Registered(Run(Next(e, a), after).c.hub, q)
  {
    StepOk(e, a);
    RunOk(Next(e, a), after);
    CustomerSendReaches(e, a, q);
  }

  lemma ServicerStaysOut(e: State, after: seq<Step>, q: nat)
    requires EngineOk(e) && q in e.s.installed && !Registered(e.s.hub, q)
    ensures !Registered(Run(e, after).s.hub, q)
  {
    RunOk(e, after);
  }

  lemma ServicerEvicted(e: State, a: Step, q: nat)
    requires EngineOk(e) && Registered(e.s.hub, q) && Full(e.s.hub.sess[q]) && SendsToServicer(e, a, q)
    ensures !Registered(Next(e, a).s.hub, q)
  {
    ServicerSendReaches(e, a, q);
  }

  lemma StepKeepsInstalled(e: State, a: Step, q: nat)
    requires EngineOk(e) && Registered(e.s.hub, q)
    ensures EngineOk(Next(e, a)) && q in Next(e, a).s.installed
  {
    StepOk(e, a);
    assert q in e.s.installed;
  }

  lemma ServicerEvictedForGood(e: State, a: Step, after: seq<Step>, q: nat)
    requires EngineOk(e) && Registered(e.s.hub, q) && Full(e.s.hub.sess[q]) && SendsToServicer(e, a, q)
    ensures !Registered(Run(Next(e, a), after).s.hub, q)
  {
    ServicerEvicted(e, a, q);
    StepKeepsInstalled(e, a, q);
    ServicerStaysOut(Next(e, a), after, q);
  }

  /** And the send that finds the queue full removes it for good. */
  lemma {:induction false} FullSessionIsGoneForGood(e: State, before: seq<Step>, a: Step, after: seq<Step>, q: nat)
    requires Init(e)
    ensures var e0 := Run(e, before);
            Registered(e0.c.hub, q) && Full(e0.c.hub.sess[q]) && SendsToCustomer(e0, a, q)
            ==> !Registered(Run(Next(e0, a), after).c.hub, q)
    ensures var e0 := Run(e, before);
            Registered(e0.s.hub, q) && Full(e0.s.hub.sess[q]) && SendsToServicer(e0, a, q)
            ==> !Registered(Run(Next(e0, a), after).s.hub, q)
  {
    InitOk(e);
    RunOk(e, before);
    var e0 := Run(e, before);
    if Registered(e0.c.hub, q) && Full(e0.c.hub.sess[q]) && SendsToCustomer(e0, a, q) {
      CustomerEvictedForGood(e0, a, after, q);
    }
    if Registered(e0.s.hub, q) && Full(e0.s.hub.sess[q]) && SendsToServicer(e0, a, q) {
      ServicerEvictedForGood(e0, a, after, q);
    }
  }
}
