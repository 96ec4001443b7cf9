/** Views over whole runs: they stay sound, and so does their replay. */
module Replay {
  import opened Defs
  import opened TalkStore
  import opened Hubs
  import opened Sides
  import opened AllInOne
  import opened Engine
  import opened Shapes
  import opened EngineFacts
  import opened Persistence
  import opened Frames
  import opened Ownership
  import opened ViewShapes
  import opened Views
  import opened LateShapes
  import CL = CustomerLogic
  import SL = ServicerLogic

  // ---- the talks that notices name are stored ----

  lemma CustomerActsStatuses(e: State, q: nat, a: CustomerAct)
    ensures e.store.talks.Keys <= CustomerActs(e, q, a).store.talks.Keys
    ensures forall t | t in CustomerActs(e, q, a).store.talks ::
              (t in e.store.talks && CustomerActs(e, q, a).store.talks[t].status == e.store.talks[t].status)
              || CustomerActs(e, q, a).store.talks[t].status == Opened
  {
  }

  lemma CustomerActsNamed(e: State, q: nat, a: CustomerAct)
    requires TalksNamed(e)
    ensures TalksNamed(CustomerActs(e, q, a))
  {
    CustomerActsLeaveQueue(e, q, a);
    CustomerActsElsewhere(e, q, a);
    CustomerActsStatuses(e, q, a);
  }

  lemma DeliverNamed(e: State, b: Callback, down: bool)
    requires TalksNamed(e) && (WordOfCallback(b).Owned? ==> b.talkId in e.store.talks)
    ensures TalksNamed(Deliver(e, b, down))
  {
  }

  lemma CustomerInstallNamed(e: State, f: Faults)
    requires TalksNamed(e) && (forall q | q in e.c.hub.sess :: e.c.hub.sess[q].key in e.store.talks)
    ensures TalksNamed(HandleCustomerInstall(e, f))
  {
  }

  lemma CustomerCloseNamed(e: State, f: Faults)
    requires TalksNamed(e)
    ensures TalksNamed(HandleCustomerClose(e, f))
  {
  }

  lemma CustomerLoopNamed(e: State, p: CustomerPick)
    requires TalksNamed(e) && (forall q | q in e.c.hub.sess :: e.c.hub.sess[q].key in e.store.talks)
    ensures TalksNamed(CustomerLoop(e, p))
  {
    match p
    case PickInstall(f) => CustomerInstallNamed(e, f);
    case PickClose(f) => CustomerCloseNamed(e, f);
    case PickCall(down) =>
      if e.cMid != [] {
        assert e.cMid[0] in e.cMid;
        DeliverNamed(e.(cMid := e.cMid[1..]), e.cMid[0], down);
      }
    case _ =>
  }

  lemma ServicerActsStatuses(e: State, q: nat, a: ServicerAct)
    ensures ServicerActs(e, q, a).store.talks == e.store.talks
  {
  }

  lemma ServicerActsNamed(e: State, q: nat, a: ServicerAct)
    requires TalksNamed(e)
    ensures TalksNamed(ServicerActs(e, q, a))
  {
    ServicerActsLeaveQueue(e, q, a);
    ServicerActsElsewhere(e, q, a);
    ServicerActsStatuses(e, q, a);
    ServicerActsLeaveCalls(e, q, a);
  }

  lemma AttachNamed(e: State, f: Faults)
    requires TalksNamed(e)
    ensures TalksNamed(HandleAttach(e, f))
  {
  }

  lemma DetachNamed(e: State, f: Faults)
    requires TalksNamed(e)
    ensures TalksNamed(HandleDetach(e, f))
  {
  }

  lemma OtherPicksNamed(e: State, p: ServicerPick)
    requires TalksNamed(e) && !p.ServeAttach? && !p.ServeDetach? && !p.ServeCall?
    ensures TalksNamed(ServicerLoop(e, p))
  {
  }

  lemma ServicerLoopNamed(e: State, p: ServicerPick)
    requires TalksNamed(e)
    ensures TalksNamed(ServicerLoop(e, p))
  {
    if p.ServeAttach? {
      AttachNamed(e, p.f);
    } else if p.ServeDetach? {
      DetachNamed(e, p.f);
    } else if !p.ServeCall? {
      OtherPicksNamed(e, p);
    } else if e.sMid != [] {
      assert e.sMid[0] in e.sMid;
      DeliverNamed(e.(sMid := e.sMid[1..]), e.sMid[0], p.down);
    }
  }

  lemma StepNamed(e: State, a: Step)
    requires TalksNamed(e) && (forall q | q in e.c.hub.sess :: e.c.hub.sess[q].key in e.store.talks)
    ensures TalksNamed(Next(e, a))
  {
    match a
    case CustomerStep(q, act) => CustomerActsNamed(e, q, act);
    case CustomerLoopStep(pick) => CustomerLoopNamed(e, pick);
    case ServicerStep(q, act) => ServicerActsNamed(e, q, act);
    case ServicerLoopStep(pick) => ServicerLoopNamed(e, pick);
  }

  // ---- runs ----

  lemma InitSound(e: State)
    requires Init(e)
    ensures TalksNamed(e) && ViewsSound(e)
  {
    assert Queue(e) == [];
  }

  lemma {:induction false} RunSound(e: State, steps: seq<Step>)
    requires Init(e)
    requires forall a | a in steps :: FaultlessStep(a)
    ensures TalksNamed(Run(e, steps)) && ViewsSound(Run(e, steps))
  {
    if steps == [] {
      InitSound(e);
    } else {
      var before, a := steps[..|steps| - 1], steps[|steps| - 1];
      RunSound(e, before);
      RunPersists(e, before);
      assert a in steps;
      StepNamed(Run(e, before), a);
      StepSound(Run(e, before), a);
    }
  }

  lemma QueueWords(e: State)
    ensures forall w | w in Queue(e) :: w.Silent? || w.Owned?
    ensures forall w | w in Queue(e) && w.Owned? && w.created :: w.owner == 0
  {
  }

  /** Replaying the queue on what a session was sent. */
  lemma ReplaySound(e: State, q: nat, t: TalkId)
    requires ViewsSound(e) && Claimed(e, q, t) && e.s.hub.sess[q].key > 0
    ensures Sound(ViewOf(Replayed(e, q), e.s.hub.sess[q].key, t),
                  OwnerOf(e.store, t), e.s.hub.sess[q].key)
  {
    var s := e.s.hub.sess[q];
    assert SessionSound(e, q);
    ReadMore(KNOWS_NOTHING, Words(s.sent), Queue(e), s.key, t);
    QueueWords(e);
    LastWordDecides(ViewOf(Words(s.sent), s.key, t), Queue(e), s.key, t);
  }
}
