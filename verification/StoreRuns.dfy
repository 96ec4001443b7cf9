/** The stored talks over whole runs: the collection, each talk's status and each message list
    are what the requests carried out so far made of them. */
module StoreRuns {
  import opened Defs
  import opened TalkStore
  import opened Hubs
  import opened Sides
  import opened Engine
  import opened Shapes
  import opened EngineFacts
  import opened Frames
  import opened Lifetimes
  import opened CallShapes
  import opened StoreShapes

  lemma SameStore(e: State, e': State, a: Step, t: TalkId)
    requires e'.store == e.store && TalkCreated(e, a) == None && StatusGiven(e, a, t) == None
    requires MessageStored(t)(e, a) == None
    ensures StoreStep(e, e', a, t)
  {
  }

  lemma CreateStores(e: State, q: nat, t: TalkId, info: TalkInfo, down: bool, x: TalkId)
    requires forall k :: k in e.store.order <==> k in e.store.talks
    ensures StoreStep(e, CreateTalk(e, q, t, info, down), CustomerStep(q, Creates(t, info, down)), x)
  {
  }

  lemma OpenStores(e: State, q: nat, t: TalkId, down: bool, x: TalkId)
    ensures StoreStep(e, OpenTalk(e, q, t, down), CustomerStep(q, Opens(t, down)), x)
  {
  }

  lemma ReceiveStores(e: State, q: nat, at: int, text: string, seqId: nat, down: bool, x: TalkId)
    ensures StoreStep(e, CustomerReceives(e, q, at, text, seqId, down),
                      CustomerStep(q, Receives(at, text, seqId, down)), x)
  {
  }

  lemma ServicerReceiveStores(e: State, q: nat, t: TalkId, at: int, text: string, seqId: nat, down: bool, x: TalkId)
    ensures StoreStep(e, ServicerReceives(e, q, t, at, text, seqId, down),
                      ServicerStep(q, ServicerReceive(t, at, text, seqId, down)), x)
  {
  }

  lemma CloseStores(e: State, f: Faults, x: TalkId)
    ensures StoreStep(e, HandleCustomerClose(e, f), CustomerLoopStep(PickClose(f)), x)
  {
  }

  lemma OwnershipStores(e: State, p: ServicerPick, x: TalkId)
    requires p.ServeAttach? || p.ServeDetach?
    ensures StoreStep(e, ServicerLoop(e, p), ServicerLoopStep(p), x)
  {
  }

  /** The acts of a customer that touch no talk. */
  lemma OtherActsStore(e: State, q: nat, a: CustomerAct)
    requires !a.Creates? && !a.Opens? && !a.Receives?
    ensures CustomerActs(e, q, a).store == e.store
  {
  }

  lemma OtherPicksStore(e: State, p: CustomerPick)
    requires !p.PickClose?
    ensures CustomerLoop(e, p).store == e.store
    ensures forall t :: CustomerCall(e, p) != Some(SendTalkClose(t))
  {
  }

  lemma OtherServicerActsStore(e: State, q: nat, a: ServicerAct)
    requires !a.ServicerReceive?
    ensures ServicerActs(e, q, a).store == e.store
  {
  }

  lemma OtherServicerPicksStore(e: State, p: ServicerPick)
    requires !p.ServeAttach? && !p.ServeDetach?
    ensures ServicerLoop(e, p).store == e.store
  {
  }

  lemma StepStores(e: State, a: Step, t: TalkId)
    requires forall k :: k in e.store.order <==> k in e.store.talks
    ensures StoreStep(e, Next(e, a), a, t)
  {
    match a
    case CustomerStep(q, act) =>
      match act {
        case Creates(x, info, down) => CreateStores(e, q, x, info, down, t);
        case Opens(x, down) => OpenStores(e, q, x, down, t);
        case Receives(at, text, seqId, down) => ReceiveStores(e, q, at, text, seqId, down, t);
        case _ => OtherActsStore(e, q, act); SameStore(e, Next(e, a), a, t);
      }
    case CustomerLoopStep(p) =>
      if p.PickClose? {
        CloseStores(e, p.f, t);
      } else {
        OtherPicksStore(e, p);
        SameStore(e, Next(e, a), a, t);
      }
    case ServicerStep(q, act) =>
      if act.ServicerReceive? {
        ServicerReceiveStores(e, q, act.t, act.at, act.text, act.seqId, act.down, t);
      } else {
        OtherServicerActsStore(e, q, act);
        SameStore(e, Next(e, a), a, t);
      }
    case ServicerLoopStep(p) =>
      if p.ServeAttach? || p.ServeDetach? {
        OwnershipStores(e, p, t);
      } else {
        OtherServicerPicksStore(e, p);
        SameStore(e, Next(e, a), a, t);
      }
  }

  lemma CollectionOk(e: State, steps: seq<Step>)
    requires Init(e)
    ensures forall k :: k in Run(e, steps).store.order <==> k in Run(e, steps).store.talks
  {
    InitOk(e);
    RunOk(e, steps);
  }

  /** In every run the collection is the first one followed by the talks created. */
  lemma {:induction false} CollectionIsWhatWasCreated(e: State, steps: seq<Step>)
    requires Init(e)
    ensures Run(e, steps).store.order == e.store.order + Along(e, steps, TalkCreated)
  {
    if steps != [] {
      var before, a := steps[..|steps| - 1], steps[|steps| - 1];
      CollectionIsWhatWasCreated(e, before);
      CollectionOk(e, before);
      StepStores(Run(e, before), a, "");
    }
  }

  /** Each talk's message list is its first one followed by the messages stored under it, in
      order. */
  lemma {:induction false} MessagesAreWhatWasStored(e: State, steps: seq<Step>, t: TalkId)
    requires Init(e)
    ensures MessagesOf(Run(e, steps).store, t) == MessagesOf(e.store, t) + Along(e, steps, MessageStored(t))
  {
    if steps != [] {
      var before, a := steps[..|steps| - 1], steps[|steps| - 1];
      MessagesAreWhatWasStored(e, before, t);
      CollectionOk(e, before);
      StepStores(Run(e, before), a, t);
    }
  }

  lemma GivenToKnown(e: State, a: Step, t: TalkId)
    ensures TalkCreated(e, a) == Some(t) ==> StatusGiven(e, a, t) == Some(Opened)
    ensures StatusGiven(e, a, t).Some? ==> t in e.store.talks || TalkCreated(e, a) == Some(t)
  {
  }

  /** And its status is the last one that creating, opening or closing gave it. */
  lemma {:induction false} StatusIsTheLastGiven(e: State, steps: seq<Step>, t: TalkId)
    requires Init(e)
    ensures var st := Run(e, steps).store;
            StatusAfter(e, steps, t) == if t in st.talks then Some(st.talks[t].status) else None
  {
    if steps != [] {
      var before, a := steps[..|steps| - 1], steps[|steps| - 1];
      StatusIsTheLastGiven(e, before, t);
      CollectionOk(e, before);
      StepStores(Run(e, before), a, t);
      GivenToKnown(Run(e, before), a, t);
    }
  }
}
