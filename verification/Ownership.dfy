/** Ownership of talks over whole runs: the events sent on the bus are exactly the real
    changes of the stored owners, and talk messages follow ownership. */
module Ownership {
  import opened Defs
  import opened TalkStore
  import opened Hubs
  import opened HubFacts
  import opened Sides
  import opened AllInOne
  import opened Engine
  import opened Shapes
  import opened EngineFacts
  import opened LiveShapes
  import opened Persistence
  import opened Frames
  import opened SendShapes
  import opened SendFacts
  import opened OwnershipShapes
  import CL = CustomerLogic
  import SL = ServicerLogic

  // ---- the requests ----

  /** A take-over with no store error is announced exactly when it changes the owner, and
      when it is not, it has done nothing at all. */
  lemma AttachAnnouncesChanges(h: SL.ServicerHub, st: Store, q: nat, t: TalkId, f: Faults)
    requires q in h.sess && h.sess[q].key > 0 && !f.write
    ensures var o := SL.AttachTalk(h, st, q, t, f);
            && (o.call == Some(SendServicerAttach(t, h.sess[q].key)) || (o.call == None && o.store == st))
            && (o.call.Some? <==> t != "" && !f.read && t in st.talks && OwnerOf(st, t) != h.sess[q].key)
            && (o.call.Some? <==> OwnerOf(o.store, t) != OwnerOf(st, t))
            && (forall x | x != t :: OwnerOf(o.store, x) == OwnerOf(st, x))
            && o.hub == h
  {
  }

  /** A release likewise; refused, it at most tells the session that asked. */
  lemma DetachAnnouncesChanges(h: SL.ServicerHub, st: Store, q: nat, t: TalkId, f: Faults)
    requires q in h.sess && h.sess[q].key > 0 && !f.write
    ensures var o := SL.DetachTalk(h, st, q, t, f);
            && (o.call == Some(SendServicerDetach(t, h.sess[q].key)) || (o.call == None && o.store == st))
            && (o.call.Some? <==> t != "" && !f.read && t in st.talks && OwnerOf(st, t) == h.sess[q].key)
            && (o.call.Some? <==> OwnerOf(o.store, t) != OwnerOf(st, t))
            && (o.call.Some? ==> OwnerOf(o.store, t) == 0 && o.hub == h)
            && (forall x | x != t :: OwnerOf(o.store, x) == OwnerOf(st, x))
            && (o.hub == h || o.hub == SendTo(h, q, Notify("talkNotAttached")))
  {
  }

  // ---- the steps ----

  lemma {:induction false} OneMoreEvent(st: Store, trace: seq<Ownership>, o: Ownership)
    requires OnlyRealChanges(st, trace)
    requires RealChange(OwnerAfter(st, trace, o.talkId), o)
    ensures OnlyRealChanges(st, trace + [o])
    ensures forall t :: OwnerAfter(st, trace + [o], t) ==
              if t == o.talkId then (if o.Took? then o.servicerID else 0) else OwnerAfter(st, trace, t)
  {
    var more := trace + [o];
    assert more[..|trace|] == trace;
    forall i | 0 <= i < |more|
      ensures RealChange(OwnerAfter(st, more[..i], more[i].talkId), more[i])
    {
      if i < |trace| {
        assert more[..i] == trace[..i];
      }
    }
  }

  /** One more event, announced as a real change: the trace stays faithful exactly when the
      store has the owner the event names. */
  lemma EventFaithfulIff(first: Store, e: State, e': State, o: Ownership, owner: nat)
    requires TraceIsFaithful(first, e) && e'.log.trace == e.log.trace + [o]
    requires RealChange(OwnerOf(e.store, o.talkId), o) && owner == (if o.Took? then o.servicerID else 0)
    requires forall t | t != o.talkId :: OwnerOf(e'.store, t) == OwnerOf(e.store, t)
    ensures TraceIsFaithful(first, e') <==> OwnerOf(e'.store, o.talkId) == owner
  {
    OneMoreEvent(first, e.log.trace, o);
    assert OwnerAfter(first, e'.log.trace, o.talkId) == owner;
  }

  lemma KeptIsFaithful(first: Store, e: State, e': State)
    requires TraceIsFaithful(first, e) && OwnersKept(e, e')
    ensures TraceIsFaithful(first, e')
  {
  }

  /** An announced take-over keeps the trace faithful exactly when its write succeeded. */
  lemma AttachFaithfulIff(first: Store, e: State, f: Faults)
    requires ServicersOk(e.s) && TraceIsFaithful(first, e)
    ensures TraceIsFaithful(first, HandleAttach(e, f)) <==>
            HandleAttach(e, f).log.trace == e.log.trace || !f.write
  {
    var e' := HandleAttach(e, f);
    if e.sMid == [] && e.attaches != [] && e.attaches[0].conn in e.s.hub.sess {
      var q, t := e.attaches[0].conn, e.attaches[0].talkId;
      var u := e.s.hub.sess[q].key;
      if SL.AttachTalk(e.s.hub, e.store, q, t, f).call.Some? {
        EventFaithfulIff(first, e, e', Took(t, u), u);
        assert |e'.log.trace| == |e.log.trace| + 1;
      } else {
        KeptIsFaithful(first, e, e');
      }
    }
  }

  lemma DetachFaithfulIff(first: Store, e: State, f: Faults)
    requires ServicersOk(e.s) && TraceIsFaithful(first, e)
    ensures TraceIsFaithful(first, HandleDetach(e, f)) <==>
            HandleDetach(e, f).log.trace == e.log.trace || !f.write
  {
    var e' := HandleDetach(e, f);
    if e.sMid == [] && e.detaches != [] && e.detaches[0].conn in e.s.hub.sess {
      var q, t := e.detaches[0].conn, e.detaches[0].talkId;
      var u := e.s.hub.sess[q].key;
      if SL.DetachTalk(e.s.hub, e.store, q, t, f).call.Some? {
        EventFaithfulIff(first, e, e', Gave(t, u), 0);
        assert |e'.log.trace| == |e.log.trace| + 1;
      } else {
        KeptIsFaithful(first, e, e');
      }
    }
  }

  lemma CustomerActsKeepOwners(e: State, q: nat, a: CustomerAct)
    ensures OwnersKept(e, CustomerActs(e, q, a))
  {
  }

  lemma DeliverKeepsOwners(e: State, b: Callback, down: bool)
    ensures OwnersKept(e, Deliver(e, b, down))
  {
  }

  lemma CustomerLoopKeepsOwners(e: State, p: CustomerPick)
    ensures OwnersKept(e, CustomerLoop(e, p))
  {
    match p
    case PickCall(down) => if e.cMid != [] { DeliverKeepsOwners(e.(cMid := e.cMid[1..]), e.cMid[0], down); }
    case _ =>
  }

  lemma ServicerActsKeepOwners(e: State, q: nat, a: ServicerAct)
    ensures OwnersKept(e, ServicerActs(e, q, a))
  {
  }

  lemma ServicerLoopKeepsOwners(e: State, p: ServicerPick)
    requires !p.ServeAttach? && !p.ServeDetach?
    ensures OwnersKept(e, ServicerLoop(e, p)) && ServicerLoop(e, p).store == e.store
  {
    match p
    case ServeCall(down) => if e.sMid != [] { DeliverKeepsOwners(e.(sMid := e.sMid[1..]), e.sMid[0], down); }
    case _ =>
  }

  lemma ServicerLoopFaithfulIff(first: Store, e: State, p: ServicerPick)
    requires ServicersOk(e.s) && TraceIsFaithful(first, e)
    ensures TraceIsFaithful(first, ServicerLoop(e, p)) <==>
            ServicerLoop(e, p).log.trace == e.log.trace || !WriteFails(p)
  {
    match p
    case ServeAttach(f) => AttachFaithfulIff(first, e, f);
    case ServeDetach(f) => DetachFaithfulIff(first, e, f);
    case _ =>
      ServicerLoopKeepsOwners(e, p);
      KeptIsFaithful(first, e, ServicerLoop(e, p));
  }

  /** One step from a state whose trace is faithful: it stays so exactly when the step sends
      no ownership event, or its write did not fail. */
  lemma StepFaithfulIff(first: Store, e: State, a: Step)
    requires ServicersOk(e.s) && TraceIsFaithful(first, e)
    ensures TraceIsFaithful(first, Next(e, a)) <==> Next(e, a).log.trace == e.log.trace || !StepWriteFails(a)
  {
    match a
    case CustomerStep(q, act) => CustomerActsKeepOwners(e, q, act); KeptIsFaithful(first, e, CustomerActs(e, q, act));
    case CustomerLoopStep(pick) => CustomerLoopKeepsOwners(e, pick); KeptIsFaithful(first, e, CustomerLoop(e, pick));
    case ServicerStep(q, act) => ServicerActsKeepOwners(e, q, act); KeptIsFaithful(first, e, ServicerActs(e, q, act));
    case ServicerLoopStep(pick) => ServicerLoopFaithfulIff(first, e, pick);
  }

  /** After any run in which no owner write fails, the events sent on the bus are exactly the
      real changes of the owners, and folding them over the first store gives the present
      owner of every talk. */
  lemma {:induction false} OwnershipTraceIsFaithful(e: State, steps: seq<Step>)
    requires Init(e)
    requires forall a | a in steps :: !StepWriteFails(a)
    ensures TraceIsFaithful(e.store, Run(e, steps))
  {
    if steps != [] {
      var before, a := steps[..|steps| - 1], steps[|steps| - 1];
      OwnershipTraceIsFaithful(e, before);
      RunPersists(e, before);
      assert a in steps;
      StepFaithfulIff(e.store, Run(e, before), a);
    }
  }

  // ---- messages follow ownership ----

  lemma StillAuthored<K, R>(s: Side<K, R>, s': Side<K, R>, customer: bool)
    requires Authored(s, customer) && NothingNewWaits(s, s')
    ensures Authored(s', customer)
  {
  }

  lemma HoldAuthored<K, R>(s: Side<K, R>, customer: bool, q: nat, d: Incoming)
    requires Authored(s, customer) && q in s.conns && d.conn == q && d.message.sender == Sender(customer, q)
    ensures Authored(Hold(s, q, d), customer)
  {
  }

  lemma CustomerActsAuthored(e: State, q: nat, a: CustomerAct)
    requires Authored(e.c, true)
    ensures Authored(CustomerActs(e, q, a).c, true)
  {
    if a.Receives? {
      if Reading(e.c, q) && !a.down {
        var m := Msg(a.at, a.text, Sender(true, q), e.c.conns[q].next);
        HoldAuthored(e.c, true, q, Incoming(q, e.c.hub.sess[q].key, a.seqId, m));
      }
    } else {
      CustomerActsWait(e, q, a);
      StillAuthored(e.c, CustomerActs(e, q, a).c, true);
    }
  }

  lemma ServicerActsAuthored(e: State, q: nat, a: ServicerAct)
    requires Authored(e.s, false)
    ensures Authored(ServicerActs(e, q, a).s, false)
  {
    if a.ServicerReceive? {
      if Reading(e.s, q) && !a.down {
        var m := Msg(a.at, a.text, Sender(false, q), e.s.conns[q].next);
        HoldAuthored(e.s, false, q, Incoming(q, a.t, a.seqId, m));
      }
    } else {
      ServicerActsWait(e, q, a);
      StillAuthored(e.s, ServicerActs(e, q, a).s, false);
    }
  }

  lemma CarryAuthored<K, R>(s: Side<K, R>, s': Side<K, R>, customer: bool)
    requires Authored(s, customer) && s'.conns == s.conns
    requires forall d | d in s'.inbox :: d in s.inbox
    ensures Authored(s', customer)
  {
  }

  lemma StepAuthored(e: State, a: Step)
    requires Authored(e.c, true) && Authored(e.s, false)
    ensures Authored(Next(e, a).c, true) && Authored(Next(e, a).s, false)
  {
    match a
    case CustomerStep(q, act) =>
      CustomerActsAuthored(e, q, act);
      CustomerActsElsewhere(e, q, act);
    case CustomerLoopStep(pick) =>
      CustomerLoopTakes(e, pick);
      CarryAuthored(e.c, CustomerLoop(e, pick).c, true);
    case ServicerStep(q, act) =>
      ServicerActsAuthored(e, q, act);
      ServicerActsElsewhere(e, q, act);
    case ServicerLoopStep(pick) =>
      ServicerLoopTakes(e, pick);
      CarryAuthored(e.s, ServicerLoop(e, pick).s, false);
  }

  lemma ConnectsNamed(e: State, q: nat, a: CustomerAct)
    requires BusNamed(e) && StoreOk(e.store) && (a.Creates? || a.Opens?)
    ensures BusNamed(CustomerActs(e, q, a))
  {
    assert a.Opens? && a.t in e.store.talks ==> WellFormedId(a.t);
  }

  lemma CustomerActsNamed(e: State, q: nat, a: CustomerAct)
    requires BusNamed(e) && StoreOk(e.store)
    ensures BusNamed(CustomerActs(e, q, a))
  {
    CustomerActsElsewhere(e, q, a);
    if a.Creates? || a.Opens? {
      ConnectsNamed(e, q, a);
    }
  }

  lemma RunnerNamed(e: State, late: set<nat>)
    requires BusNamed(e) && HubOk(e.c.hub)
    ensures BusNamed(RunCustomerTask(e, late))
  {
    if e.cPosted != [] {
      CustomerTaskSteady(e.c.hub, e.cPosted[0], late);
    }
  }

  lemma CustomerMessageNamed(e: State, drained: bool)
    requires BusNamed(e)
    ensures BusNamed(HandleCustomerMessage(e, drained))
  {
  }

  lemma CustomerInstallNamed(e: State, f: Faults)
    requires BusNamed(e)
    ensures BusNamed(HandleCustomerInstall(e, f))
  {
  }

  lemma CustomerLoopNamed(e: State, p: CustomerPick)
    requires BusNamed(e) && HubOk(e.c.hub)
    ensures BusNamed(CustomerLoop(e, p))
  {
    match p
    case PickInstall(f) => CustomerInstallNamed(e, f);
    case PickMessage(drained) => CustomerMessageNamed(e, drained);
    case PickCall(down) => if e.cMid != [] { DeliverWaits(e.(cMid := e.cMid[1..]), e.cMid[0], down); }
    case PickRunner(late) => RunnerNamed(e, late);
    case _ =>
  }

  lemma ServicerLoopNamed(e: State, p: ServicerPick)
    requires BusNamed(e)
    ensures BusNamed(ServicerLoop(e, p))
  {
    match p
    case ServeCall(down) => if e.sMid != [] { DeliverWaits(e.(sMid := e.sMid[1..]), e.sMid[0], down); }
    case _ =>
  }

  lemma StepNamed(e: State, a: Step)
    requires BusNamed(e) && EngineOk(e)
    ensures BusNamed(Next(e, a))
  {
    match a
    case CustomerStep(q, act) => CustomerActsNamed(e, q, act);
    case CustomerLoopStep(pick) => CustomerLoopNamed(e, pick);
    case ServicerStep(q, act) => ServicerActsElsewhere(e, q, act);
    case ServicerLoopStep(pick) => ServicerLoopNamed(e, pick);
  }

  lemma {:induction false} RunAuthored(e: State, steps: seq<Step>)
    requires Init(e)
    ensures Authored(Run(e, steps).c, true) && Authored(Run(e, steps).s, false) && BusNamed(Run(e, steps))
  {
    if steps != [] {
      var before, a := Run(e, steps[..|steps| - 1]), steps[|steps| - 1];
      RunAuthored(e, steps[..|steps| - 1]);
      RunPersists(e, steps[..|steps| - 1]);
      StepAuthored(before, a);
      StepNamed(before, a);
    }
  }

  /** The only list of sends with a talk message is a message closure's, to the owner. */
  lemma SendsMessagesToOwner(e: State, p: ServicerPick, q: nat, r: ServiceResponse)
    requires q in e.s.hub.sess && r in Sends(e, p, q) && r.ServiceMessage?
    requires forall k | k in e.sPosted && k.TellMessage? :: k.talkId != ""
    ensures OwnerOf(e.store, r.talkId) == e.s.hub.sess[q].key
  {
    assert p.ServeRunner?;
    var task := e.sPosted[0];
    assert r in TaskSends(e.store, task, p.f, e.s.hub.sess[q].key);
    assert task in e.sPosted;
  }

  lemma ServicerLoopSessions(e: State, p: ServicerPick)
    requires ServicersOk(e.s)
    ensures ServicerLoop(e, p).s.hub.sess.Keys <= e.s.hub.sess.Keys && 0 !in e.s.hub.sess
  {
    match p
    case ServeRunner(f, late) => if e.sPosted != [] { ServicerTaskSteady(e.s.hub, e.store, e.sPosted[0], f, late); }
    case _ =>
  }

  lemma ServicerLoopAppends(e: State, p: ServicerPick, q: nat)
    requires ServicersOk(e.s) && q in ServicerLoop(e, p).s.hub.sess
    requires forall k | k in e.sPosted && k.TellMessage? :: k.talkId != ""
    ensures AppendedToOwner(e, ServicerLoop(e, p), q)
  {
    ServicerLoopSessions(e, p);
    LoopGives(e, p, q);
    var s, s' := e.s.hub.sess[q], ServicerLoop(e, p).s.hub.sess[q];
    forall i | |s.sent| <= i < |s'.sent| && s'.sent[i].ServiceMessage?
      ensures OwnerOf(e.store, s'.sent[i].talkId) == s.key
    {
      SendsMessagesToOwner(e, p, q, s'.sent[i]);
    }
  }

  lemma ServicerActsAppend(e: State, q: nat, a: ServicerAct, x: nat)
    requires x in ServicerActs(e, q, a).s.hub.sess && e.s.conns.Keys == e.s.hub.sess.Keys
    ensures AppendedToOwner(e, ServicerActs(e, q, a), x)
  {
    ServicerActsSendNothing(e, q, a, x);
  }

  lemma ServicerLoopReleases(e: State, p: ServicerPick, t: TalkId, m: Msg)
    requires Authored(e.s, false)
    ensures ReleasedByOwner(e, ServicerLoop(e, p), t, m)
  {
    match p
    case ServeCall(down) => if e.sMid != [] { DeliverWaits(e.(sMid := e.sMid[1..]), e.sMid[0], down); }
    case _ =>
  }

  lemma CustomerLoopReleases(e: State, p: CustomerPick, t: TalkId, m: Msg)
    requires Authored(e.c, true)
    ensures ReleasedByOwner(e, CustomerLoop(e, p), t, m)
  {
    match p
    case PickCall(down) => if e.cMid != [] { DeliverWaits(e.(cMid := e.cMid[1..]), e.cMid[0], down); }
    case _ =>
  }

  /** In every step of every run: a talk message is appended to a servicer's session only
      while that session's user is the stored owner of the talk, and a servicer's message is
      put on the bus only while its author is. */
  lemma {:induction false} MessagesFollowOwnership(e: State, steps: seq<Step>, a: Step, q: nat, t: TalkId, m: Msg)
    requires Init(e)
    ensures var x, y := Run(e, steps), Next(Run(e, steps), a);
            && (q in y.s.hub.sess ==> AppendedToOwner(x, y, q))
            && ReleasedByOwner(x, y, t, m)
  {
    var x := Run(e, steps);
    RunPersists(e, steps);
    RunAuthored(e, steps);
    match a
    case CustomerStep(p, act) => CustomerActsElsewhere(x, p, act);
    case CustomerLoopStep(pick) => CustomerLoopReleases(x, pick, t, m); CustomerLoopTakes(x, pick);
    case ServicerStep(p, act) =>
      ServicerActsElsewhere(x, p, act);
      if q in ServicerActs(x, p, act).s.hub.sess { ServicerActsAppend(x, p, act, q); }
    case ServicerLoopStep(pick) =>
      ServicerLoopReleases(x, pick, t, m);
      if q in ServicerLoop(x, pick).s.hub.sess { ServicerLoopAppends(x, pick, q); }
  }
}
