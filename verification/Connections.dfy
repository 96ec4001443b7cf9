/** Every step moves every connection just as ConnectionShapes says. */
module Connections {
  import opened Defs
  import opened TalkStore
  import opened Hubs
  import opened Sides
  import opened Engine
  import opened Shapes
  import opened EngineFacts
  import opened Frames
  import opened QueueShapes
  import opened Queues
  import opened ConnectionShapes

  lemma OpeningGoesOn(e: State, x: nat, q: nat)
    requires q in e.c.conns
    ensures CustomerGoesOn(e, CustomerQueuesInstall(e, x), CustomerStep(x, QueuesInstall), q)
  {
  }

  lemma EnqueuingGoesOn(e: State, x: nat, q: nat)
    requires q in e.c.conns && (x in e.c.conns && e.c.conns[x].held.Some? ==> e.c.conns[x].held.value.talkId != "")
    ensures CustomerGoesOn(e, CustomerEnqueues(e, x), CustomerStep(x, Enqueues), q)
  {
  }

  lemma ReceivingGoesOn(e: State, x: nat, at: int, text: string, seqId: nat, down: bool, q: nat)
    requires q in e.c.conns
    ensures CustomerGoesOn(e, CustomerReceives(e, x, at, text, seqId, down),
                           CustomerStep(x, Receives(at, text, seqId, down)), q)
  {
  }

  lemma ClosingGoesOn(e: State, x: nat, q: nat)
    requires q in e.c.conns
    ensures CustomerGoesOn(e, CustomerRequestsClose(e, x), CustomerStep(x, RequestsClose), q)
  {
  }

  lemma DepartingGoesOn(e: State, x: nat, q: nat)
    requires q in e.c.conns
    ensures CustomerGoesOn(e, CustomerDeparts(e, x), CustomerStep(x, Departs), q)
  {
  }

  lemma OtherActsGoOn(e: State, x: nat, a: CustomerAct, q: nat)
    requires q in e.c.conns
    requires !a.QueuesInstall? && !a.Enqueues? && !a.Receives? && !a.RequestsClose? && !a.Departs?
    ensures q in CustomerActs(e, x, a).c.conns && CustomerActs(e, x, a).c.conns[q] == e.c.conns[q]
  {
  }

  lemma CustomerActsGoOn(e: State, x: nat, a: CustomerAct, q: nat)
    requires HeadsKnown(e) && q in e.c.conns
    ensures CustomerGoesOn(e, CustomerActs(e, x, a), CustomerStep(x, a), q)
  {
    match a
    case QueuesInstall => OpeningGoesOn(e, x, q);
    case Enqueues => EnqueuingGoesOn(e, x, q);
    case Receives(at, text, seqId, down) => ReceivingGoesOn(e, x, at, text, seqId, down, q);
    case RequestsClose => ClosingGoesOn(e, x, q);
    case Departs => DepartingGoesOn(e, x, q);
    case _ => OtherActsGoOn(e, x, a, q);
  }

  /** In every step a customer's connection begins, reads, holds, offers and ends just as its
      own requests and the room in the channels have it; nobody else touches it. */
  lemma CustomerConnectionStep(e: State, a: Step, q: nat)
    requires EngineOk(e) && q in e.c.conns
    ensures CustomerGoesOn(e, Next(e, a), a, q)
  {
    HeadsAreKnown(e);
    match a
    case CustomerStep(x, act) => CustomerActsGoOn(e, x, act, q);
    case CustomerLoopStep(p) => CustomerLoopTakes(e, p);
    case ServicerStep(x, act) => ServicerActsElsewhere(e, x, act);
    case ServicerLoopStep(p) => ServicerLoopTakes(e, p);
  }

  lemma ServicerOpeningGoesOn(e: State, x: nat, q: nat)
    requires q in e.s.conns
    ensures ServicerGoesOn(e, ServicerQueuesInstall(e, x), ServicerStep(x, ServicerQueue), q)
  {
  }

  lemma ServicerEnqueuingGoesOn(e: State, x: nat, q: nat)
    requires q in e.s.conns
    ensures ServicerGoesOn(e, ServicerEnqueues(e, x), ServicerStep(x, ServicerEnqueue), q)
  {
  }

  lemma ServicerReceivingGoesOn(e: State, x: nat, t: TalkId, at: int, text: string, seqId: nat, down: bool, q: nat)
    requires q in e.s.conns
    ensures ServicerGoesOn(e, ServicerReceives(e, x, t, at, text, seqId, down),
                           ServicerStep(x, ServicerReceive(t, at, text, seqId, down)), q)
  {
  }

  lemma ServicerDepartingGoesOn(e: State, x: nat, q: nat)
    requires q in e.s.conns
    ensures ServicerGoesOn(e, ServicerDeparts(e, x), ServicerStep(x, ServicerDepart), q)
  {
  }

  lemma OtherServicerActsGoOn(e: State, x: nat, a: ServicerAct, q: nat)
    requires q in e.s.conns && !a.ServicerQueue? && !a.ServicerEnqueue? && !a.ServicerReceive? && !a.ServicerDepart?
    ensures q in ServicerActs(e, x, a).s.conns && ServicerActs(e, x, a).s.conns[q] == e.s.conns[q]
  {
  }

  lemma ServicerActsGoOn(e: State, x: nat, a: ServicerAct, q: nat)
    requires q in e.s.conns
    ensures ServicerGoesOn(e, ServicerActs(e, x, a), ServicerStep(x, a), q)
  {
    match a
    case ServicerQueue => ServicerOpeningGoesOn(e, x, q);
    case ServicerEnqueue => ServicerEnqueuingGoesOn(e, x, q);
    case ServicerReceive(t, at, text, seqId, down) => ServicerReceivingGoesOn(e, x, t, at, text, seqId, down, q);
    case ServicerDepart => ServicerDepartingGoesOn(e, x, q);
    case _ => OtherServicerActsGoOn(e, x, a, q);
  }

  /** The same for a servicer's connection, whose receive loop outlasts every refusal but a
      message that cannot be stored. */
  lemma ServicerConnectionStep(e: State, a: Step, q: nat)
    requires q in e.s.conns
    ensures ServicerGoesOn(e, Next(e, a), a, q)
  {
    match a
    case CustomerStep(x, act) => CustomerActsElsewhere(e, x, act);
    case CustomerLoopStep(p) => CustomerLoopTakes(e, p);
    case ServicerStep(x, act) => ServicerActsGoOn(e, x, act, q);
    case ServicerLoopStep(p) => ServicerLoopTakes(e, p);
  }
}
