/** Created talks are announced: the install of the session that created a talk, and of no other,
    tells the servicers of it. */
module Announcements {
  import opened Defs
  import opened TalkStore
  import opened Hubs
  import opened Sides
  import opened Engine
  import opened Shapes
  import opened EngineFacts
  import opened Lifetimes
  import opened Runs
  import opened CallShapes
  import opened BusCalls
  import opened OfferShapes
  import opened OfferFacts
  import opened StoreShapes

  lemma ActsMake(e: State, q: nat, a: CustomerAct)
    requires !a.Creates?
    ensures CustomerActs(e, q, a).makers == e.makers
  {
  }

  lemma PicksMake(e: State, p: CustomerPick)
    ensures CustomerLoop(e, p).makers == e.makers
  {
  }

  lemma ServicerActsMake(e: State, q: nat, a: ServicerAct)
    ensures ServicerActs(e, q, a).makers == e.makers
  {
  }

  lemma ServicerPicksMake(e: State, p: ServicerPick)
    ensures ServicerLoop(e, p).makers == e.makers
  {
  }

  lemma StepMakes(e: State, a: Step, q: nat)
    ensures q in Next(e, a).makers <==> q in e.makers || Creator(e, a) == Some(q)
  {
    match a
    case CustomerStep(_, act) =>
      if !act.Creates? {
        ActsMake(e, a.q, act);
      }
    case CustomerLoopStep(p) => PicksMake(e, p);
    case ServicerStep(_, act) => ServicerActsMake(e, a.q, act);
    case ServicerLoopStep(p) => ServicerPicksMake(e, p);
  }

  /** In every run the sessions taken for creators are those that created a talk. */
  lemma {:induction false} MakersAreTheCreators(e: State, steps: seq<Step>, q: nat)
    requires Init(e)
    ensures q in Run(e, steps).makers <==> q in Along(e, steps, Creator)
  {
    if steps != [] {
      var before, a := steps[..|steps| - 1], steps[|steps| - 1];
      MakersAreTheCreators(e, before, q);
      StepMakes(Run(e, before), a, q);
    }
  }

  lemma InstallAnnounces(e: State, f: Faults)
    requires EngineOk(e) && e.cMid == [] && e.c.install != []
    ensures var q, e' := e.c.install[0], HandleCustomerInstall(e, f);
            && q in e.c.hub.sess
            && e'.cMid == (if q in e.makers && !f.read && !f.track then [ServicerOnCreate(e.c.hub.sess[q].key)] else [])
  {
    assert e.c.install[0] in e.c.install;
    SessionsOfEngine(e);
    CustomerPickCalls(e, PickInstall(f));
  }

  /** So, over every run, the install at the head of the channel tells the servicers of the
      talk exactly if its session created it, and neither the lookup nor the tracking fails. */
  lemma CreationIsAnnounced(e: State, steps: seq<Step>, f: Faults)
    requires Init(e)
    ensures var x := Run(e, steps);
            x.cMid == [] && x.c.install != []
            ==> var q, e' := x.c.install[0], HandleCustomerInstall(x, f);
                && q in x.c.hub.sess
                && e'.cMid == (if q in Along(e, steps, Creator) && !f.read && !f.track then
                                 [ServicerOnCreate(x.c.hub.sess[q].key)]
                               else [])
  {
    var x := Run(e, steps);
    InitOk(e);
    RunOk(e, steps);
    if x.cMid == [] && x.c.install != [] {
      InstallAnnounces(x, f);
      MakersAreTheCreators(e, steps, x.c.install[0]);
    }
  }

  // ---- the talks that were announced, and those that were closed ----

  ghost predicate LogsKept(e: State, e': State) {
    e'.log.announced == e.log.announced && e'.log.closed == e.log.closed
  }

  lemma DeliverLogs(e: State, b: Callback, down: bool, t: TalkId)
    ensures t in Deliver(e, b, down).log.announced <==> t in e.log.announced || b == ServicerOnCreate(t)
    ensures Deliver(e, b, down).log.closed == e.log.closed
  {
  }

  lemma ActsLog(e: State, q: nat, a: CustomerAct)
    ensures CustomerActs(e, q, a).log == e.log
  {
  }

  lemma ServicerActsLog(e: State, q: nat, a: ServicerAct)
    ensures ServicerActs(e, q, a).log == e.log
  {
  }

  lemma CloseLogs(e: State, f: Faults, t: TalkId)
    requires KeysStored(e)
    ensures var e', called := HandleCustomerClose(e, f), CustomerCall(e, PickClose(f)) == Some(SendTalkClose(t));
            e'.log.announced == e.log.announced && (t in e'.log.closed <==> t in e.log.closed || called)
  {
  }

  lemma OtherPicksLog(e: State, p: CustomerPick)
    requires !p.PickClose? && !p.PickCall?
    ensures LogsKept(e, CustomerLoop(e, p))
  {
  }

  lemma ServicerPicksLog(e: State, p: ServicerPick)
    requires !p.ServeCall?
    ensures LogsKept(e, ServicerLoop(e, p))
  {
  }

  lemma NoClosing(e: State, a: Step, t: TalkId)
    requires !a.CustomerLoopStep? || !a.customerPick.PickClose?
    ensures CallOf(e, a) != Some(SendTalkClose(t))
  {
  }

  lemma StepLogs(e: State, a: Step, t: TalkId)
    requires KeysStored(e)
    ensures LogsMove(e, Next(e, a), a, t)
  {
    if !a.CustomerLoopStep? || !a.customerPick.PickClose? {
      NoClosing(e, a, t);
    }
    match a
    case CustomerStep(q, act) => ActsLog(e, q, act);
    case CustomerLoopStep(p) =>
      if p.PickClose? {
        CloseLogs(e, p.f, t);
      } else if !p.PickCall? {
        OtherPicksLog(e, p);
      } else if e.cMid != [] {
        DeliverLogs(e.(cMid := e.cMid[1..]), e.cMid[0], p.down, t);
      }
    case ServicerStep(q, act) => ServicerActsLog(e, q, act);
    case ServicerLoopStep(p) =>
      if !p.ServeCall? {
        ServicerPicksLog(e, p);
      } else if e.sMid != [] {
        DeliverLogs(e.(sMid := e.sMid[1..]), e.sMid[0], p.down, t);
      }
  }

  lemma LogsTellMore(e: State, before: seq<Step>, a: Step, x': State, t: TalkId)
    requires LogsTold(e, before, Run(e, before), t) && LogsMove(Run(e, before), x', a, t)
    ensures LogsTold(e, before + [a], x', t)
  {
    assert (before + [a])[..|before|] == before;
  }

  lemma LogsTellOn(e: State, before: seq<Step>, a: Step, t: TalkId)
    requires Init(e) && LogsTold(e, before, Run(e, before), t)
    ensures LogsTold(e, before + [a], Run(e, before + [a]), t)
  {
    InitOk(e);
    RunOk(e, before);
    SessionsOfEngine(Run(e, before));
    StepLogs(Run(e, before), a, t);
    RunOn(e, before, a);
    LogsTellMore(e, before, a, Run(e, before + [a]), t);
  }

  /** The talks the view theorems speak of are those announced by a callback, and not those a
      call said were closed. */
  lemma {:induction false} AnnouncedAndClosedIff(e: State, steps: seq<Step>, t: TalkId)
    requires Init(e)
    ensures LogsTold(e, steps, Run(e, steps), t)
  {
    if steps != [] {
      var before, a := steps[..|steps| - 1], steps[|steps| - 1];
      AnnouncedAndClosedIff(e, before, t);
      LogsTellOn(e, before, a, t);
      assert steps == before + [a];
    }
  }
}
