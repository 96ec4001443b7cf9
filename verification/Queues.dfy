/** The controllers' channels are served: over every run, what was taken from a channel and
    what still waits in it are what got into it, in order. */
module Queues {
  import opened Defs
  import opened TalkStore
  import opened Hubs
  import opened Sides
  import opened Engine
  import opened Shapes
  import opened EngineFacts
  import opened Frames
  import opened Lifetimes
  import opened CallShapes
  import opened BusCalls
  import opened QueueShapes
  import opened Runs

  lemma HeadsAreKnown(e: State)
    requires EngineOk(e)
    ensures HeadsKnown(e)
  {
    assert "" !in e.store.talks;
    if e.c.install != [] { assert e.c.install[0] in e.c.install; }
    if e.closes != [] { assert e.closes[0] in e.closes; }
    if e.c.inbox != [] { assert e.c.inbox[0] in e.c.inbox; }
    if e.s.install != [] { assert e.s.install[0] in e.s.install; }
    if e.s.inbox != [] { assert e.s.inbox[0] in e.s.inbox; }
    if e.attaches != [] { assert e.attaches[0] in e.attaches; }
    if e.detaches != [] { assert e.detaches[0] in e.detaches; }
    if e.reloads != [] { assert e.reloads[0] in e.reloads; }
  }

  // ---- the customers' channels ----

  /** The four channels are as they were. */
  ghost predicate SameCustomerQueues(e: State, e': State) {
    && e'.c.install == e.c.install && e'.c.uninstall == e.c.uninstall && e'.c.inbox == e.c.inbox
    && e'.closes == e.closes
  }

  lemma QuietActs(e: State, q: nat, a: CustomerAct)
    requires !a.QueuesInstall? && !a.Departs? && !a.Enqueues? && !a.RequestsClose?
    ensures SameCustomerQueues(e, CustomerActs(e, q, a))
  {
  }

  lemma InstallQueues(e: State, q: nat)
    ensures CustomerQueuesMove(e, CustomerQueuesInstall(e, q), CustomerStep(q, QueuesInstall))
  {
  }

  lemma DepartQueues(e: State, q: nat)
    ensures CustomerQueuesMove(e, CustomerDeparts(e, q), CustomerStep(q, Departs))
  {
  }

  lemma EnqueueQueues(e: State, q: nat)
    requires q in e.c.conns && e.c.conns[q].held.Some? ==> e.c.conns[q].held.value.talkId != ""
    ensures CustomerQueuesMove(e, CustomerEnqueues(e, q), CustomerStep(q, Enqueues))
  {
  }

  lemma CloseQueues(e: State, q: nat)
    ensures CustomerQueuesMove(e, CustomerActs(e, q, RequestsClose), CustomerStep(q, RequestsClose))
  {
  }

  lemma CustomerActsQueue(e: State, q: nat, a: CustomerAct)
    requires HeadsKnown(e)
    ensures CustomerQueuesMove(e, CustomerActs(e, q, a), CustomerStep(q, a))
  {
    match a
    case QueuesInstall => InstallQueues(e, q);
    case Departs => DepartQueues(e, q);
    case Enqueues => EnqueueQueues(e, q);
    case RequestsClose => CloseQueues(e, q);
    case _ => QuietActs(e, q, a);
  }

  lemma InstallTakes(e: State, f: Faults)
    requires e.c.install != [] ==> e.c.install[0] in e.c.hub.sess
    ensures CustomerQueuesMove(e, HandleCustomerInstall(e, f), CustomerLoopStep(PickInstall(f)))
  {
    var e' := HandleCustomerInstall(e, f);
    assert e'.c.uninstall == e.c.uninstall && e'.c.inbox == e.c.inbox && e'.closes == e.closes;
    assert e'.c.install == if e.cMid == [] && e.c.install != [] then e.c.install[1..] else e.c.install;
  }

  lemma UninstallTakes(e: State)
    ensures CustomerQueuesMove(e, HandleCustomerUninstall(e), CustomerLoopStep(PickUninstall))
  {
  }

  lemma MessageTakes(e: State, drained: bool)
    requires e.c.inbox != [] ==> e.c.inbox[0].conn in e.c.hub.sess
    ensures CustomerQueuesMove(e, HandleCustomerMessage(e, drained), CustomerLoopStep(PickMessage(drained)))
  {
    var e' := HandleCustomerMessage(e, drained);
    if e.cMid != [] || e.c.inbox == [] {
      assert e' == e;
    } else {
      assert e'.c.install == e.c.install && e'.c.uninstall == e.c.uninstall && e'.closes == e.closes;
      assert e'.c.inbox == e.c.inbox[1..];
    }
  }

  lemma CloseTakes(e: State, f: Faults)
    requires e.closes != [] ==> e.closes[0] in e.c.hub.sess
    ensures CustomerQueuesMove(e, HandleCustomerClose(e, f), CustomerLoopStep(PickClose(f)))
  {
    var e' := HandleCustomerClose(e, f);
    assert e'.c.install == e.c.install && e'.c.uninstall == e.c.uninstall && e'.c.inbox == e.c.inbox;
    assert e'.closes == if e.cMid == [] && e.closes != [] then e.closes[1..] else e.closes;
  }

  lemma DeliverLeavesQueues(e: State, b: Callback, down: bool)
    ensures Deliver(e, b, down).c == e.c && Deliver(e, b, down).s == e.s && Deliver(e, b, down).closes == e.closes
    ensures Deliver(e, b, down).attaches == e.attaches && Deliver(e, b, down).detaches == e.detaches
    ensures Deliver(e, b, down).reloads == e.reloads
  {
  }

  lemma QuietPicks(e: State, p: CustomerPick)
    requires p.PickRunner? || p.PickCall?
    ensures SameCustomerQueues(e, CustomerLoop(e, p))
  {
    match p
    case PickCall(down) => if e.cMid != [] { DeliverLeavesQueues(e.(cMid := e.cMid[1..]), e.cMid[0], down); }
    case _ =>
  }

  lemma CustomerPicksTake(e: State, p: CustomerPick)
    requires HeadsKnown(e)
    ensures CustomerQueuesMove(e, CustomerLoop(e, p), CustomerLoopStep(p))
  {
    match p
    case PickInstall(f) => InstallTakes(e, f);
    case PickUninstall => UninstallTakes(e);
    case PickMessage(drained) => MessageTakes(e, drained);
    case PickClose(f) => CloseTakes(e, f);
    case _ => QuietPicks(e, p);
  }

  lemma ServicerActsLeaveCloses(e: State, q: nat, a: ServicerAct)
    ensures ServicerActs(e, q, a).closes == e.closes
  {
  }

  lemma ServicerPicksLeaveCloses(e: State, p: ServicerPick)
    ensures ServicerLoop(e, p).closes == e.closes
  {
    match p
    case ServeCall(down) => if e.sMid != [] { DeliverLeavesQueues(e.(sMid := e.sMid[1..]), e.sMid[0], down); }
    case _ =>
  }

  lemma CustomerQueueStep(e: State, a: Step)
    requires HeadsKnown(e)
    ensures CustomerQueuesMove(e, Next(e, a), a)
  {
    match a
    case CustomerStep(q, act) => CustomerActsQueue(e, q, act);
    case CustomerLoopStep(p) => CustomerPicksTake(e, p);
    case ServicerStep(q, act) =>
      ServicerActsElsewhere(e, q, act);
      ServicerActsLeaveCloses(e, q, act);
    case ServicerLoopStep(p) =>
      ServicerLoopTakes(e, p);
      ServicerPicksLeaveCloses(e, p);
  }

  // ---- the servicers' channels ----

  ghost predicate SameRequests(e: State, e': State) {
    e'.attaches == e.attaches && e'.detaches == e.detaches && e'.reloads == e.reloads
  }

  ghost predicate SameServicerQueues(e: State, e': State) {
    e'.s.install == e.s.install && e'.s.uninstall == e.s.uninstall && e'.s.inbox == e.s.inbox
  }

  lemma RequestQueues(e: State, q: nat, t: TalkId, kind: RequestKind)
    ensures RequestQueuesMove(e, ServicerRequests(e, q, t, kind), ServicerStep(q, ServicerRequest(t, kind)))
    ensures SameServicerQueues(e, ServicerRequests(e, q, t, kind))
  {
  }

  lemma OtherActsLeaveRequests(e: State, q: nat, a: ServicerAct)
    requires !a.ServicerRequest?
    ensures SameRequests(e, ServicerActs(e, q, a))
  {
  }

  lemma ServicerInstallQueues(e: State, q: nat)
    ensures ServicerQueuesMove(e, ServicerQueuesInstall(e, q), ServicerStep(q, ServicerQueue))
  {
  }

  lemma ServicerDepartQueues(e: State, q: nat)
    ensures ServicerQueuesMove(e, ServicerDeparts(e, q), ServicerStep(q, ServicerDepart))
  {
  }

  lemma ServicerEnqueueQueues(e: State, q: nat)
    ensures ServicerQueuesMove(e, ServicerEnqueues(e, q), ServicerStep(q, ServicerEnqueue))
  {
  }

  lemma QuietServicerActs(e: State, q: nat, a: ServicerAct)
    requires !a.ServicerQueue? && !a.ServicerDepart? && !a.ServicerEnqueue? && !a.ServicerRequest?
    ensures SameServicerQueues(e, ServicerActs(e, q, a))
  {
  }

  lemma ServicerActsQueue(e: State, q: nat, a: ServicerAct)
    ensures ServicerQueuesMove(e, ServicerActs(e, q, a), ServicerStep(q, a))
    ensures RequestQueuesMove(e, ServicerActs(e, q, a), ServicerStep(q, a))
  {
    if !a.ServicerRequest? {
      OtherActsLeaveRequests(e, q, a);
    }
    match a
    case ServicerQueue => ServicerInstallQueues(e, q);
    case ServicerDepart => ServicerDepartQueues(e, q);
    case ServicerEnqueue => ServicerEnqueueQueues(e, q);
    case ServicerRequest(t, kind) => RequestQueues(e, q, t, kind);
    case _ => QuietServicerActs(e, q, a);
  }

  lemma ServicerInstallTakes(e: State, f: Faults)
    requires e.s.install != [] ==> e.s.install[0] in e.s.hub.sess
    ensures ServicerQueuesMove(e, HandleServicerInstall(e, f), ServicerLoopStep(ServeInstall(f)))
  {
  }

  lemma ServicerUninstallTakes(e: State)
    ensures ServicerQueuesMove(e, HandleServicerUninstall(e), ServicerLoopStep(ServeUninstall))
  {
  }

  lemma ServicerMessageTakes(e: State, f: Faults, drained: bool)
    requires e.s.inbox != [] ==> e.s.inbox[0].conn in e.s.hub.sess
    ensures ServicerQueuesMove(e, HandleServicerMessage(e, f, drained), ServicerLoopStep(ServeMessage(f, drained)))
  {
    var e' := HandleServicerMessage(e, f, drained);
    assert e'.s.install == e.s.install && e'.s.uninstall == e.s.uninstall;
    assert e'.s.inbox == if e.sMid == [] && e.s.inbox != [] then e.s.inbox[1..] else e.s.inbox;
  }

  lemma OtherPicksLeaveQueues(e: State, p: ServicerPick)
    requires !p.ServeInstall? && !p.ServeUninstall? && !p.ServeMessage?
    ensures SameServicerQueues(e, ServicerLoop(e, p))
  {
    match p
    case ServeCall(down) => if e.sMid != [] { DeliverLeavesQueues(e.(sMid := e.sMid[1..]), e.sMid[0], down); }
    case _ =>
  }

  lemma ServicerPicksTake(e: State, p: ServicerPick)
    requires HeadsKnown(e)
    ensures ServicerQueuesMove(e, ServicerLoop(e, p), ServicerLoopStep(p))
  {
    match p
    case ServeInstall(f) => ServicerInstallTakes(e, f);
    case ServeUninstall => ServicerUninstallTakes(e);
    case ServeMessage(f, drained) => ServicerMessageTakes(e, f, drained);
    case _ => OtherPicksLeaveQueues(e, p);
  }

  lemma AttachTakes(e: State, f: Faults)
    requires e.attaches != [] ==> e.attaches[0].conn in e.s.hub.sess
    ensures RequestQueuesMove(e, HandleAttach(e, f), ServicerLoopStep(ServeAttach(f)))
  {
  }

  lemma DetachTakes(e: State, f: Faults)
    requires e.detaches != [] ==> e.detaches[0].conn in e.s.hub.sess
    ensures RequestQueuesMove(e, HandleDetach(e, f), ServicerLoopStep(ServeDetach(f)))
  {
  }

  lemma ReloadTakes(e: State, f: Faults)
    requires e.reloads != [] ==> e.reloads[0].conn in e.s.hub.sess
    ensures RequestQueuesMove(e, HandleReload(e, f), ServicerLoopStep(ServeReload(f)))
  {
  }

  lemma OtherPicksLeaveRequests(e: State, p: ServicerPick)
    requires !p.ServeAttach? && !p.ServeDetach? && !p.ServeReload?
    ensures SameRequests(e, ServicerLoop(e, p))
  {
    match p
    case ServeCall(down) => if e.sMid != [] { DeliverLeavesQueues(e.(sMid := e.sMid[1..]), e.sMid[0], down); }
    case _ =>
  }

  lemma RequestsTaken(e: State, p: ServicerPick)
    requires HeadsKnown(e)
    ensures RequestQueuesMove(e, ServicerLoop(e, p), ServicerLoopStep(p))
  {
    match p
    case ServeAttach(f) => AttachTakes(e, f);
    case ServeDetach(f) => DetachTakes(e, f);
    case ServeReload(f) => ReloadTakes(e, f);
    case _ => OtherPicksLeaveRequests(e, p);
  }

  lemma CustomerActsLeaveRequests(e: State, q: nat, a: CustomerAct)
    ensures SameRequests(e, CustomerActs(e, q, a))
  {
  }

  lemma CustomerPicksLeaveRequests(e: State, p: CustomerPick)
    ensures SameRequests(e, CustomerLoop(e, p))
  {
    match p
    case PickCall(down) => if e.cMid != [] { DeliverLeavesQueues(e.(cMid := e.cMid[1..]), e.cMid[0], down); }
    case _ =>
  }

  lemma ServicerQueueStep(e: State, a: Step)
    requires HeadsKnown(e)
    ensures ServicerQueuesMove(e, Next(e, a), a) && RequestQueuesMove(e, Next(e, a), a)
  {
    match a
    case CustomerStep(q, act) =>
      CustomerActsElsewhere(e, q, act);
      CustomerActsLeaveRequests(e, q, act);
    case CustomerLoopStep(p) =>
      CustomerLoopTakes(e, p);
      CustomerPicksLeaveRequests(e, p);
    case ServicerStep(q, act) => ServicerActsQueue(e, q, act);
    case ServicerLoopStep(p) =>
      ServicerPicksTake(e, p);
      RequestsTaken(e, p);
  }

  // ---- runs ----

  lemma QueueOn<T>(q: seq<T>, q': seq<T>, taken: Option<T>, added: Option<T>, all: seq<T>, so: seq<T>)
    requires Turns(q, q', taken, added) && so + q == all
    ensures (so + Listed(taken)) + q' == all + Listed(added)
  {
    TurnsMove(q, q', taken, added);
    CarriesOver(so, q, q', taken, Listed(added), all);
  }

  lemma CustomerQueuesOn(e: State, before: seq<Step>, a: Step)
    requires var x := Run(e, before); CustomerQueuesMove(x, Next(x, a), a) && CustomersServed(e, before, x)
    ensures CustomersServed(e, before + [a], Next(Run(e, before), a))
  {
    var x := Run(e, before);
    var x' := Next(x, a);
    assert (before + [a])[..|before|] == before;
    QueueOn(x.c.install, x'.c.install, InstallTaken(x, a), InstallQueued(x, a), Along(e, before, InstallQueued),
            Along(e, before, InstallTaken));
    QueueOn(x.c.uninstall, x'.c.uninstall, UninstallTaken(x, a), UninstallQueued(x, a),
            Along(e, before, UninstallQueued), Along(e, before, UninstallTaken));
    QueueOn(x.c.inbox, x'.c.inbox, MessageTaken(x, a), MessageQueued(x, a), Along(e, before, MessageQueued),
            Along(e, before, MessageTaken));
    QueueOn(x.closes, x'.closes, CloseTaken(x, a), CloseQueued(x, a), Along(e, before, CloseQueued),
            Along(e, before, CloseTaken));
  }

  lemma QueuesStepOn(e: State, before: seq<Step>, a: Step)
    requires Init(e)
    ensures var x := Run(e, before);
            && CustomerQueuesMove(x, Next(x, a), a) && ServicerQueuesMove(x, Next(x, a), a)
            && RequestQueuesMove(x, Next(x, a), a)
  {
    var x := Run(e, before);
    InitOk(e);
    RunOk(e, before);
    HeadsAreKnown(x);
    CustomerQueueStep(x, a);
    ServicerQueueStep(x, a);
  }

  lemma NothingServed(e: State)
    requires Init(e)
    ensures CustomersServed(e, [], e) && ServicersServed(e, [], e) && RequestsServed(e, [], e)
  {
  }

  lemma CustomersServedOn(e: State, before: seq<Step>, a: Step)
    requires Init(e) && CustomersServed(e, before, Run(e, before))
    ensures CustomersServed(e, before + [a], Run(e, before + [a]))
  {
    QueuesStepOn(e, before, a);
    CustomerQueuesOn(e, before, a);
    RunOn(e, before, a);
  }

  /** No request of a customer is lost on the way or served twice: what was taken from each
      channel and what waits in it are what got into it, in order. */
  lemma {:induction false} CustomersAreServed(e: State, steps: seq<Step>)
    requires Init(e)
    ensures CustomersServed(e, steps, Run(e, steps))
  {
    if steps == [] {
      NothingServed(e);
    } else {
      var before, a := steps[..|steps| - 1], steps[|steps| - 1];
      CustomersAreServed(e, before);
      CustomersServedOn(e, before, a);
      assert steps == before + [a];
    }
  }

  lemma ServicerQueuesOn(e: State, before: seq<Step>, a: Step)
    requires var x := Run(e, before); ServicerQueuesMove(x, Next(x, a), a) && ServicersServed(e, before, x)
    ensures ServicersServed(e, before + [a], Next(Run(e, before), a))
  {
    var x := Run(e, before);
    var x' := Next(x, a);
    assert (before + [a])[..|before|] == before;
    QueueOn(x.s.install, x'.s.install, ServicerInstallTaken(x, a), ServicerInstallQueued(x, a),
            Along(e, before, ServicerInstallQueued), Along(e, before, ServicerInstallTaken));
    QueueOn(x.s.uninstall, x'.s.uninstall, ServicerUninstallTaken(x, a), ServicerUninstallQueued(x, a),
            Along(e, before, ServicerUninstallQueued), Along(e, before, ServicerUninstallTaken));
    QueueOn(x.s.inbox, x'.s.inbox, ServicerMessageTaken(x, a), ServicerMessageQueued(x, a),
            Along(e, before, ServicerMessageQueued), Along(e, before, ServicerMessageTaken));
  }

  lemma RequestQueuesOn(e: State, before: seq<Step>, a: Step)
    requires var x := Run(e, before); RequestQueuesMove(x, Next(x, a), a) && RequestsServed(e, before, x)
    ensures RequestsServed(e, before + [a], Next(Run(e, before), a))
  {
    var x := Run(e, before);
    var x' := Next(x, a);
    assert (before + [a])[..|before|] == before;
    QueueOn(x.attaches, x'.attaches, AttachTaken(x, a), AttachQueued(x, a), Along(e, before, AttachQueued),
            Along(e, before, AttachTaken));
    QueueOn(x.detaches, x'.detaches, DetachTaken(x, a), DetachQueued(x, a), Along(e, before, DetachQueued),
            Along(e, before, DetachTaken));
    QueueOn(x.reloads, x'.reloads, ReloadTaken(x, a), ReloadQueued(x, a), Along(e, before, ReloadQueued),
            Along(e, before, ReloadTaken));
  }

  lemma ServicersServedOn(e: State, before: seq<Step>, a: Step)
    requires Init(e) && ServicersServed(e, before, Run(e, before))
    ensures ServicersServed(e, before + [a], Run(e, before + [a]))
  {
    QueuesStepOn(e, before, a);
    ServicerQueuesOn(e, before, a);
    RunOn(e, before, a);
  }

  /** Nor is any of a servicer. */
  lemma {:induction false} ServicersAreServed(e: State, steps: seq<Step>)
    requires Init(e)
    ensures ServicersServed(e, steps, Run(e, steps))
  {
    if steps == [] {
      NothingServed(e);
    } else {
      var before, a := steps[..|steps| - 1], steps[|steps| - 1];
      ServicersAreServed(e, before);
      ServicersServedOn(e, before, a);
      assert steps == before + [a];
    }
  }

  lemma RequestsServedOn(e: State, before: seq<Step>, a: Step)
    requires Init(e) && RequestsServed(e, before, Run(e, before))
    ensures RequestsServed(e, before + [a], Run(e, before + [a]))
  {
    QueuesStepOn(e, before, a);
    RequestQueuesOn(e, before, a);
    RunOn(e, before, a);
  }

  lemma {:induction false} RequestsAreServed(e: State, steps: seq<Step>)
    requires Init(e)
    ensures RequestsServed(e, steps, Run(e, steps))
  {
    if steps == [] {
      NothingServed(e);
    } else {
      var before, a := steps[..|steps| - 1], steps[|steps| - 1];
      RequestsAreServed(e, before);
      RequestsServedOn(e, before, a);
      assert steps == before + [a];
    }
  }
}
