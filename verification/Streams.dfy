/** Streams over whole runs: a session's stream is the list of what the steps offered it. */
module Streams {
  import opened Defs
  import opened TalkStore
  import opened Hubs
  import opened HubFacts
  import opened Sides
  import opened Engine
  import opened Shapes
  import opened EngineFacts
  import opened Frames
  import opened Lifetimes
  import opened Ownership
  import opened SendShapes
  import opened SendFacts
  import opened OfferShapes
  import opened OfferFacts
  import CL = CustomerLogic
  import SL = ServicerLogic

  // ---- customers ----

  lemma CustomerActsMake(e: State, x: nat, a: CustomerAct, q: nat)
    requires q !in e.c.hub.sess && q in CustomerActs(e, x, a).c.hub.sess
    ensures CustomerActs(e, x, a).c.hub.sess[q].sent == [] && !CustomerActs(e, x, a).c.hub.sess[q].missed
  {
    if !a.SendsHistory? && !a.Drains? && !a.Creates? && !a.Opens? {
      OtherActsOfferNothing(e, x, a);
    }
  }

  lemma CustomerLoopSessions(e: State, p: CustomerPick)
    requires EngineOk(e)
    ensures CustomerLoop(e, p).c.hub.sess.Keys <= e.c.hub.sess.Keys
  {
    match p
    case PickRunner(late) =>
      if e.cPosted != [] {
        var task := e.cPosted[0];
        SteadyCastKey(e.c.hub, task.talkId, {0}, CL.TaskResponse(task), CL.SEND_FAILED, late);
      }
    case PickUninstall => OtherPicksOffer(e, p);
    case PickClose(_) => OtherPicksOffer(e, p);
    case PickCall(_) => OtherPicksOffer(e, p);
    case _ =>
  }

  /** Only a connection makes a session, and it makes it with nothing in its stream. */
  lemma CustomersMade(e: State, a: Step, q: nat)
    requires EngineOk(e) && q !in e.c.hub.sess && q in Next(e, a).c.hub.sess
    ensures Next(e, a).c.hub.sess[q].sent == [] && !Next(e, a).c.hub.sess[q].missed
  {
    match a
    case CustomerStep(x, act) => CustomerActsMake(e, x, act, q);
    case CustomerLoopStep(p) => CustomerLoopSessions(e, p);
    case ServicerStep(x, act) => ServicerActsElsewhere(e, x, act);
    case ServicerLoopStep(p) => ServicerLoopTakes(e, p);
  }

  lemma CustomerStreamGrows(s: CustomerSess, s': CustomerSess, offers: seq<TalkResponse>, rs: seq<TalkResponse>)
    requires CustomerStreamIs(s, offers) && Offered(s, s', rs)
    ensures CustomerStreamIs(s', offers + rs)
  {
    forall r | r in s'.sent
      ensures r in offers + rs || r.KickOut?
    {
      var i :| 0 <= i < |s'.sent| && s'.sent[i] == r;
      if i < |s.sent| {
        assert s.sent[i] == r;
      }
    }
  }

  /** In every run, a customer session's stream holds what the steps offered it: nothing else
      but kick-outs, and unless something was missed just that, in that order. */
  lemma {:induction false} CustomerStream(e: State, steps: seq<Step>, q: nat)
    requires Init(e)
    ensures var x := Run(e, steps);
            if q in x.c.hub.sess then CustomerStreamIs(x.c.hub.sess[q], AllCustomerOffers(e, steps, q))
            else AllCustomerOffers(e, steps, q) == []
  {
    if steps != [] {
      var before, a := steps[..|steps| - 1], steps[|steps| - 1];
      var x := Run(e, before);
      InitOk(e);
      RunOk(e, before);
      CustomerStream(e, before, q);
      if q in x.c.hub.sess {
        CustomerStepOffers(x, a, q);
        CustomerStreamGrows(x.c.hub.sess[q], Next(x, a).c.hub.sess[q], AllCustomerOffers(e, before, q),
                            CustomerOffers(x, a, q));
      } else if q in Next(x, a).c.hub.sess {
        CustomersMade(x, a, q);
      }
    }
  }

  /** And it has missed something exactly if some step offered it more than its queue had room
      for. */
  lemma {:induction false} CustomerMissesIff(e: State, steps: seq<Step>, q: nat)
    requires Init(e)
    ensures CustomerOverrun(e, steps, q) <==> q in Run(e, steps).c.hub.sess && Run(e, steps).c.hub.sess[q].missed
  {
    if steps != [] {
      var before, a := steps[..|steps| - 1], steps[|steps| - 1];
      var x := Run(e, before);
      InitOk(e);
      RunOk(e, before);
      CustomerMissesIff(e, before, q);
      if q in x.c.hub.sess {
        CustomerStepOffers(x, a, q);
      } else if q in Next(x, a).c.hub.sess {
        CustomersMade(x, a, q);
      }
    }
  }

  // ---- servicers ----

  lemma ServicerActsStay(e: State, x: nat, a: ServicerAct, q: nat)
    requires q in e.s.hub.sess
    ensures q in ServicerActs(e, x, a).s.hub.sess
  {
    match a
    case ServicerConnect(_) =>
    case ServicerDrain =>
    case _ => ServicerActsSameHub(e, x, a);
  }

  lemma ServicerStepOffers(e: State, a: Step, q: nat)
    requires EngineOk(e) && q in e.s.hub.sess
    ensures q in Next(e, a).s.hub.sess
    ensures Given(e.s.hub.sess[q], Next(e, a).s.hub.sess[q], ServicerOffers(e, a, q))
  {
    GivenNothing(e.s.hub.sess[q]);
    match a
    case CustomerStep(x, act) => CustomerActsElsewhere(e, x, act);
    case CustomerLoopStep(p) => CustomerLoopTakes(e, p);
    case ServicerStep(x, act) => ServicerActsStay(e, x, act, q); ServicerActsSendNothing(e, x, act, q);
    case ServicerLoopStep(p) => LoopGives(e, p, q);
  }

  lemma ServicerActsMake(e: State, x: nat, a: ServicerAct, q: nat)
    requires q !in e.s.hub.sess && q in ServicerActs(e, x, a).s.hub.sess
    ensures ServicerActs(e, x, a).s.hub.sess[q].sent == [] && !ServicerActs(e, x, a).s.hub.sess[q].missed
  {
    match a
    case ServicerConnect(_) =>
    case ServicerDrain =>
    case _ => ServicerActsSameHub(e, x, a);
  }

  lemma ServicersMade(e: State, a: Step, q: nat)
    requires EngineOk(e) && q !in e.s.hub.sess && q in Next(e, a).s.hub.sess
    ensures Next(e, a).s.hub.sess[q].sent == [] && !Next(e, a).s.hub.sess[q].missed
  {
    match a
    case CustomerStep(x, act) => CustomerActsElsewhere(e, x, act);
    case CustomerLoopStep(p) => CustomerLoopTakes(e, p);
    case ServicerStep(x, act) => ServicerActsMake(e, x, act, q);
    case ServicerLoopStep(p) => ServicerLoopSessions(e, p);
  }

  lemma ServicerStreamGrows(s: ServicerSess, s': ServicerSess, offers: seq<ServiceResponse>,
                            rs: seq<ServiceResponse>)
    requires ServicerStreamIs(s, offers) && Given(s, s', rs)
    ensures ServicerStreamIs(s', offers + rs)
  {
    forall r | r in s'.sent
      ensures r in offers + rs || r.ServiceKickOut?
    {
      var i :| 0 <= i < |s'.sent| && s'.sent[i] == r;
      if i < |s.sent| {
        assert s.sent[i] == r;
      }
    }
  }

  /** The same for a servicer's session. */
  lemma {:induction false} ServicerStream(e: State, steps: seq<Step>, q: nat)
    requires Init(e)
    ensures var x := Run(e, steps);
            if q in x.s.hub.sess then ServicerStreamIs(x.s.hub.sess[q], AllServicerOffers(e, steps, q))
            else AllServicerOffers(e, steps, q) == []
  {
    if steps != [] {
      var before, a := steps[..|steps| - 1], steps[|steps| - 1];
      var x := Run(e, before);
      InitOk(e);
      RunOk(e, before);
      ServicerStream(e, before, q);
      if q in x.s.hub.sess {
        ServicerStepOffers(x, a, q);
        ServicerStreamGrows(x.s.hub.sess[q], Next(x, a).s.hub.sess[q], AllServicerOffers(e, before, q),
                            ServicerOffers(x, a, q));
      } else if q in Next(x, a).s.hub.sess {
        ServicersMade(x, a, q);
      }
    }
  }

  /** And it has missed something exactly if it was offered too much at once. */
  lemma {:induction false} ServicerMissesIff(e: State, steps: seq<Step>, q: nat)
    requires Init(e)
    ensures ServicerOverrun(e, steps, q) <==> q in Run(e, steps).s.hub.sess && Run(e, steps).s.hub.sess[q].missed
  {
    if steps != [] {
      var before, a := steps[..|steps| - 1], steps[|steps| - 1];
      var x := Run(e, before);
      InitOk(e);
      RunOk(e, before);
      ServicerMissesIff(e, before, q);
      if q in x.s.hub.sess {
        ServicerStepOffers(x, a, q);
      } else if q in Next(x, a).s.hub.sess {
        ServicersMade(x, a, q);
      }
    }
  }
}
