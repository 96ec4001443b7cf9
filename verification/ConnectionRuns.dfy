/** Connections over whole runs: when their routines run, and that nothing they stored is
    forgotten before the controller is offered it. */
module ConnectionRuns {
  import opened Defs
  import opened Hubs
  import opened Sides
  import opened Engine
  import opened Shapes
  import opened EngineFacts
  import opened Frames
  import opened Lifetimes
  import opened Runs
  import opened CallShapes
  import opened QueueShapes
  import opened ConnectionShapes
  import opened BusCalls
  import opened Connections
  import opened SendFacts
  import opened OfferFacts
  import opened Streams
  import opened Ownership

  lemma CustomerActsConnect(e: State, x: nat, a: CustomerAct, q: nat)
    requires q !in e.c.conns && q in CustomerActs(e, x, a).c.conns
    ensures CustomerActs(e, x, a).c.conns[q] == Conn(Opening, false, None, 0)
  {
  }

  lemma ServicerActsConnect(e: State, x: nat, a: ServicerAct, q: nat)
    requires q !in e.s.conns && q in ServicerActs(e, x, a).s.conns
    ensures ServicerActs(e, x, a).s.conns[q] == Conn(Opening, false, None, 0)
  {
  }

  lemma NewCustomerConnection(e: State, a: Step, q: nat)
    requires EngineOk(e) && q !in e.c.conns && q in Next(e, a).c.conns
    ensures Next(e, a).c.conns[q] == Conn(Opening, false, None, 0)
  {
    match a
    case CustomerStep(x, act) => CustomerActsConnect(e, x, act, q);
    case CustomerLoopStep(p) => CustomerLoopTakes(e, p);
    case ServicerStep(x, act) => ServicerActsElsewhere(e, x, act);
    case ServicerLoopStep(p) => ServicerLoopTakes(e, p);
  }

  /** In every run the steps alone tell whether a customer's stream has begun or ended, and
      whether its receive loop runs. */
  lemma {:induction false} CustomerRoutinesAre(e: State, steps: seq<Step>, q: nat)
    requires Init(e)
    ensures var x := Run(e, steps);
            q in x.c.conns
            ==> && x.c.conns[q].phase == CustomerPhase(e, steps, q)
                && (x.c.conns[q].receiving <==> CustomerListens(e, steps, q))
  {
    if steps != [] {
      var before, a := steps[..|steps| - 1], steps[|steps| - 1];
      var x := Run(e, before);
      InitOk(e);
      RunOk(e, before);
      CustomerRoutinesAre(e, before, q);
      if q in x.c.conns {
        CustomerConnectionStep(x, a, q);
      } else if q in Next(x, a).c.conns {
        NewCustomerConnection(x, a, q);
      }
    }
  }

  lemma CustomerHeldMoves(e: State, a: Step, q: nat)
    requires EngineOk(e)
    ensures Moves(HeldCustomer(e, q), HeldCustomer(Next(e, a), q), CustomerOffersOf(q)(e, a),
                  Listed(CustomerHoldsOf(q)(e, a)))
  {
    if q in e.c.conns {
      CustomerConnectionStep(e, a, q);
    } else if q in Next(e, a).c.conns {
      NewCustomerConnection(e, a, q);
    }
  }

  lemma CustomerOffersOn(e: State, before: seq<Step>, a: Step, q: nat)
    requires Init(e) && CustomerOfferedAll(e, before, Run(e, before), q)
    ensures CustomerOfferedAll(e, before + [a], Run(e, before + [a]), q)
  {
    var x := Run(e, before);
    InitOk(e);
    RunOk(e, before);
    RunOn(e, before, a);
    assert (before + [a])[..|before|] == before;
    CustomerHeldMoves(x, a, q);
    CarriesOver(Along(e, before, CustomerOffersOf(q)), HeldCustomer(x, q), HeldCustomer(Next(x, a), q),
                CustomerOffersOf(q)(x, a),
                Listed(CustomerHoldsOf(q)(x, a)), Along(e, before, CustomerHoldsOf(q)));
  }

  /** In every run the messages a connection stored are those it offered to the controller, one
      for one and in order, and the one it holds. */
  lemma {:induction false} CustomerOffersWhatItStores(e: State, steps: seq<Step>, q: nat)
    requires Init(e)
    ensures CustomerOfferedAll(e, steps, Run(e, steps), q)
  {
    if steps != [] {
      var before, a := steps[..|steps| - 1], steps[|steps| - 1];
      CustomerOffersWhatItStores(e, before, q);
      CustomerOffersOn(e, before, a, q);
      assert steps == before + [a];
    }
  }

  lemma NewServicerConnection(e: State, a: Step, q: nat)
    requires EngineOk(e) && q !in e.s.conns && q in Next(e, a).s.conns
    ensures Next(e, a).s.conns[q] == Conn(Opening, false, None, 0)
  {
    match a
    case CustomerStep(x, act) => CustomerActsElsewhere(e, x, act);
    case CustomerLoopStep(p) => CustomerLoopTakes(e, p);
    case ServicerStep(x, act) => ServicerActsConnect(e, x, act, q);
    case ServicerLoopStep(p) => ServicerLoopTakes(e, p);
  }

  /** In every run the steps alone tell whether a servicer's stream has begun or ended, and
      whether its receive loop runs. */
  lemma {:induction false} ServicerRoutinesAre(e: State, steps: seq<Step>, q: nat)
    requires Init(e)
    ensures var x := Run(e, steps);
            q in x.s.conns
            ==> && x.s.conns[q].phase == ServicerPhase(e, steps, q)
                && (x.s.conns[q].receiving <==> ServicerListens(e, steps, q))
  {
    if steps != [] {
      var before, a := steps[..|steps| - 1], steps[|steps| - 1];
      var x := Run(e, before);
      InitOk(e);
      RunOk(e, before);
      ServicerRoutinesAre(e, before, q);
      if q in x.s.conns {
        ServicerConnectionStep(x, a, q);
      } else if q in Next(x, a).s.conns {
        NewServicerConnection(x, a, q);
      }
    }
  }

  lemma ServicerHeldMoves(e: State, a: Step, q: nat)
    requires EngineOk(e)
    ensures Moves(HeldServicer(e, q), HeldServicer(Next(e, a), q), ServicerOffersOf(q)(e, a),
                  Listed(ServicerHoldsOf(q)(e, a)))
  {
    if q in e.s.conns {
      ServicerConnectionStep(e, a, q);
    } else if q in Next(e, a).s.conns {
      NewServicerConnection(e, a, q);
    }
  }

  lemma ServicerOffersOn(e: State, before: seq<Step>, a: Step, q: nat)
    requires Init(e) && ServicerOfferedAll(e, before, Run(e, before), q)
    ensures ServicerOfferedAll(e, before + [a], Run(e, before + [a]), q)
  {
    var x := Run(e, before);
    InitOk(e);
    RunOk(e, before);
    RunOn(e, before, a);
    assert (before + [a])[..|before|] == before;
    ServicerHeldMoves(x, a, q);
    CarriesOver(Along(e, before, ServicerOffersOf(q)), HeldServicer(x, q), HeldServicer(Next(x, a), q),
                ServicerOffersOf(q)(x, a),
                Listed(ServicerHoldsOf(q)(x, a)), Along(e, before, ServicerHoldsOf(q)));
  }

  /** In every run the messages a connection stored are those it offered to the controller, one
      for one and in order, and the one it holds. */
  lemma {:induction false} ServicerOffersWhatItStores(e: State, steps: seq<Step>, q: nat)
    requires Init(e)
    ensures ServicerOfferedAll(e, steps, Run(e, steps), q)
  {
    if steps != [] {
      var before, a := steps[..|steps| - 1], steps[|steps| - 1];
      ServicerOffersWhatItStores(e, before, q);
      ServicerOffersOn(e, before, a, q);
      assert steps == before + [a];
    }
  }

  // ---- who has a connection ----

  lemma CustomerActsJoin(e: State, x: nat, a: CustomerAct, q: nat)
    requires e.c.conns.Keys == e.c.hub.sess.Keys
    ensures KeyOf(CustomerActs(e, x, a).c, q)
         == if CustomerJoins(q)(e, CustomerStep(x, a)).Some? then CustomerJoins(q)(e, CustomerStep(x, a))
            else KeyOf(e.c, q)
    ensures CustomerJoins(q)(e, CustomerStep(x, a)).Some? ==> KeyOf(e.c, q) == None
  {
  }

  lemma ServicerActsJoin(e: State, x: nat, a: ServicerAct, q: nat)
    requires e.s.conns.Keys == e.s.hub.sess.Keys
    ensures KeyOf(ServicerActs(e, x, a).s, q)
         == if ServicerJoins(q)(e, ServicerStep(x, a)).Some? then ServicerJoins(q)(e, ServicerStep(x, a))
            else KeyOf(e.s, q)
    ensures ServicerJoins(q)(e, ServicerStep(x, a)).Some? ==> KeyOf(e.s, q) == None
  {
  }

  lemma CustomerLoopKeys(e: State, p: CustomerPick, q: nat)
    requires EngineOk(e)
    ensures KeyOf(CustomerLoop(e, p).c, q) == KeyOf(e.c, q)
  {
    CustomerLoopSessions(e, p);
    if q in e.c.hub.sess {
      CustomerStepOffers(e, CustomerLoopStep(p), q);
    }
  }

  lemma ServicerLoopKeys(e: State, p: ServicerPick, q: nat)
    requires EngineOk(e)
    ensures KeyOf(ServicerLoop(e, p).s, q) == KeyOf(e.s, q)
  {
    ServicerLoopSessions(e, p);
    if q in e.s.hub.sess {
      LoopGives(e, p, q);
    }
  }

  lemma CustomerStepJoins(e: State, a: Step, q: nat)
    requires EngineOk(e)
    ensures Listed(KeyOf(Next(e, a).c, q)) == Listed(KeyOf(e.c, q)) + Listed(CustomerJoins(q)(e, a))
  {
    match a
    case CustomerStep(x, act) => CustomerActsJoin(e, x, act, q);
    case CustomerLoopStep(p) => CustomerLoopKeys(e, p, q);
    case ServicerStep(x, act) => ServicerActsElsewhere(e, x, act);
    case ServicerLoopStep(p) => ServicerLoopTakes(e, p);
  }

  lemma CustomerJoinsOn(e: State, before: seq<Step>, a: Step, q: nat)
    requires Init(e) && CustomerJoined(e, before, Run(e, before), q)
    ensures CustomerJoined(e, before + [a], Run(e, before + [a]), q)
  {
    InitOk(e);
    RunOk(e, before);
    RunOn(e, before, a);
    assert (before + [a])[..|before|] == before;
    CustomerStepJoins(Run(e, before), a, q);
  }

  /** In every run a customer's connection has a session exactly if a step created or opened a
      talk for it, one step at most, and the session is of that talk. */
  lemma {:induction false} CustomerJoinsOnce(e: State, steps: seq<Step>, q: nat)
    requires Init(e)
    ensures CustomerJoined(e, steps, Run(e, steps), q)
  {
    if steps != [] {
      var before, a := steps[..|steps| - 1], steps[|steps| - 1];
      CustomerJoinsOnce(e, before, q);
      CustomerJoinsOn(e, before, a, q);
      assert steps == before + [a];
    }
  }

  lemma ServicerStepJoins(e: State, a: Step, q: nat)
    requires EngineOk(e)
    ensures Listed(KeyOf(Next(e, a).s, q)) == Listed(KeyOf(e.s, q)) + Listed(ServicerJoins(q)(e, a))
  {
    match a
    case CustomerStep(x, act) => CustomerActsElsewhere(e, x, act);
    case CustomerLoopStep(p) => CustomerLoopTakes(e, p);
    case ServicerStep(x, act) => ServicerActsJoin(e, x, act, q);
    case ServicerLoopStep(p) => ServicerLoopKeys(e, p, q);
  }

  lemma ServicerJoinsOn(e: State, before: seq<Step>, a: Step, q: nat)
    requires Init(e) && ServicerJoined(e, before, Run(e, before), q)
    ensures ServicerJoined(e, before + [a], Run(e, before + [a]), q)
  {
    InitOk(e);
    RunOk(e, before);
    RunOn(e, before, a);
    assert (before + [a])[..|before|] == before;
    ServicerStepJoins(Run(e, before), a, q);
  }

  /** And a servicer's exactly if it came with a user. */
  lemma {:induction false} ServicerJoinsOnce(e: State, steps: seq<Step>, q: nat)
    requires Init(e)
    ensures ServicerJoined(e, steps, Run(e, steps), q)
  {
    if steps != [] {
      var before, a := steps[..|steps| - 1], steps[|steps| - 1];
      ServicerJoinsOnce(e, before, q);
      ServicerJoinsOn(e, before, a, q);
      assert steps == before + [a];
    }
  }
}
