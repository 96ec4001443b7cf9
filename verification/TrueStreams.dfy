/** Everything a servicer is ever sent is true of the stored talks: lists without repetition,
    each talk's own card, and the beginning of its own message list. */
module TrueStreams {
  import opened Defs
  import opened TalkStore
  import opened TalkLists
  import opened Hubs
  import opened Sides
  import opened Engine
  import opened Shapes
  import opened EngineFacts
  import opened Frames
  import opened Lifetimes
  import opened LiveShapes
  import opened Persistence
  import opened SendShapes
  import opened OfferShapes
  import opened Streams
  import opened CallShapes
  import opened BusCalls
  import opened TrueShapes
  import CL = CustomerLogic
  import SL = ServicerLogic

  // ---- what the store keeps ----

  lemma PreservesTrans(st: Store, st': Store, st'': Store)
    requires Preserves(st, st') && Preserves(st', st'')
    ensures Preserves(st, st'')
  {
  }

  lemma UpdatePreserves(st: Store, t: TalkId, u: Update)
    ensures Preserves(st, UpdateTalk(st, t, u))
  {
  }

  lemma InsertPreserves(st: Store, t: TalkId, info: TalkInfo)
    ensures Preserves(st, InsertTalk(st, t, info))
  {
  }

  lemma MessagePreserves(st: Store, t: TalkId, m: Msg)
    ensures Preserves(st, InsertMessage(st, t, m))
  {
    forall x
      ensures MessagesOf(st, x) <= MessagesOf(InsertMessage(st, t, m), x)
    {
    }
  }

  lemma CustomerActsPreserve(e: State, q: nat, a: CustomerAct)
    ensures Preserves(e.store, CustomerActs(e, q, a).store)
  {
    match a
    case Creates(t, info, down) => InsertPreserves(e.store, t, info.(status := Opened, serviceID := 0));
    case Opens(t, down) => UpdatePreserves(e.store, t, SetStatus(Opened));
    case Receives(at, text, seqId, down) =>
      if Reading(e.c, q) {
        MessagePreserves(e.store, e.c.hub.sess[q].key, Msg(at, text, Sender(true, q), e.c.conns[q].next));
      }
    case _ =>
  }

  lemma ServicerActsPreserve(e: State, q: nat, a: ServicerAct)
    ensures Preserves(e.store, ServicerActs(e, q, a).store)
  {
    match a
    case ServicerReceive(t, at, text, seqId, down) =>
      if Reading(e.s, q) {
        MessagePreserves(e.store, t, Msg(at, text, Sender(false, q), e.s.conns[q].next));
      }
    case _ =>
  }

  lemma CustomerPicksPreserve(e: State, p: CustomerPick)
    ensures Preserves(e.store, CustomerLoop(e, p).store)
  {
    if p.PickClose? {
      if e.closes != [] && e.closes[0] in e.c.hub.sess {
        UpdatePreserves(e.store, e.c.hub.sess[e.closes[0]].key, SetStatus(Closed));
      }
    } else {
      assert CustomerLoop(e, p).store == e.store;
    }
  }

  lemma OtherPicksPreserve(e: State, p: ServicerPick)
    requires !p.ServeAttach? && !p.ServeDetach?
    ensures ServicerLoop(e, p).store == e.store
  {
  }

  lemma ServicerPicksPreserve(e: State, p: ServicerPick)
    ensures Preserves(e.store, ServicerLoop(e, p).store)
  {
    match p
    case ServeAttach(f) =>
      if e.attaches != [] && e.attaches[0].conn in e.s.hub.sess {
        UpdatePreserves(e.store, e.attaches[0].talkId, SetService(e.s.hub.sess[e.attaches[0].conn].key));
      }
    case ServeDetach(f) =>
      if e.detaches != [] { UpdatePreserves(e.store, e.detaches[0].talkId, SetService(0)); }
    case _ => OtherPicksPreserve(e, p);
  }

  lemma StepPreserves(e: State, a: Step)
    ensures Preserves(e.store, Next(e, a).store)
  {
    match a
    case CustomerStep(q, act) => CustomerActsPreserve(e, q, act);
    case CustomerLoopStep(p) => CustomerPicksPreserve(e, p);
    case ServicerStep(q, act) => ServicerActsPreserve(e, q, act);
    case ServicerLoopStep(p) => ServicerPicksPreserve(e, p);
  }

  /** Over every run the collection grows at its end only, a talk's title, times and creator
      never change, and neither does the beginning of its message list. */
  lemma {:induction false} RunPreserves(e: State, steps: seq<Step>)
    ensures Preserves(e.store, Run(e, steps).store)
  {
    if steps != [] {
      var before := steps[..|steps| - 1];
      RunPreserves(e, before);
      StepPreserves(Run(e, before), steps[|steps| - 1]);
      PreservesTrans(e.store, Run(e, before).store, Run(e, steps).store);
    }
  }

  // ---- what stays true ----

  lemma StaysTrue(st: Store, st': Store, r: ServiceResponse)
    requires Preserves(st, st') && True(st, r)
    ensures True(st', r)
  {
    match r
    case Talks(list) =>
      forall i | 0 <= i < |list|
        ensures TrueItem(st', list[i])
      {
        assert TrueItem(st, list[i]);
      }
    case PendingTalks(cards) =>
      forall i | 0 <= i < |cards|
        ensures TrueCard(st', cards[i])
      {
        assert TrueCard(st, cards[i]);
      }
    case _ =>
  }

  lemma AllStayTrue(st: Store, st': Store, rs: seq<ServiceResponse>)
    requires Preserves(st, st') && AllTrue(st, rs)
    ensures AllTrue(st', rs)
  {
    forall r | r in rs
      ensures True(st', r)
    {
      StaysTrue(st, st', r);
    }
  }

  lemma ClosuresStayTrue(st: Store, st': Store, posted: seq<ServicerTask>)
    requires Preserves(st, st') && ClosuresTrue(st, posted)
    ensures ClosuresTrue(st', posted)
  {
  }

  // ---- what is sent is true ----

  lemma AttachedTrue(st: Store, u: nat, f: Faults)
    requires StoreOk(st)
    ensures AllTrue(st, AttachedSends(st, u, f))
  {
    var talks := Attached(st, u);
    var list := SL.WithMessages(st, talks, f.messages);
    ListsListOnce(st, u);
    forall i | 0 <= i < |list|
      ensures TrueItem(st, list[i])
    {
      assert talks[i] in talks;
      InAttached(st, u, talks[i]);
    }
    assert TrueList(st, list);
  }

  lemma PendingTrue(st: Store, failed: bool)
    requires StoreOk(st)
    ensures AllTrue(st, PendingSends(st, failed))
  {
    var talks := Pending(st);
    var cards := SL.Cards(talks);
    ListsListOnce(st, 0);
    forall i | 0 <= i < |cards|
      ensures TrueCard(st, cards[i])
    {
      assert talks[i] in talks;
      InPending(st, talks[i]);
    }
    assert TrueCards(st, cards);
  }

  lemma FoundTrue(st: Store, t: TalkId)
    requires StoreOk(st) && Lookup(st, t).Some?
    ensures TrueCard(st, Card(Lookup(st, t).value)) && (t != "" ==> Lookup(st, t).value.id == t)
  {
  }

  lemma ReloadTrue(st: Store, t: TalkId, infoFailed: bool, f: Faults)
    requires StoreOk(st)
    ensures AllTrue(st, ReloadSends(st, t, infoFailed, f))
  {
    if Lookup(st, t).Some? {
      FoundTrue(st, t);
    }
  }

  lemma TaskTrue(st: Store, task: ServicerTask, f: Faults, u: nat)
    requires StoreOk(st) && ClosuresTrue(st, [task])
    ensures AllTrue(st, TaskSends(st, task, f, u))
  {
    assert task in [task];
    match task
    case TellCreate(t) => if Lookup(st, t).Some? { FoundTrue(st, t); }
    case TellAttach(t, v) => if Lookup(st, t).Some? { FoundTrue(st, t); ReloadTrue(st, t, f.second, f); }
    case _ =>
  }

  lemma SendsTrue(e: State, p: ServicerPick, q: nat)
    requires StoreOk(e.store) && ClosuresTrue(e.store, e.sPosted) && q in e.s.hub.sess
    ensures AllTrue(e.store, Sends(e, p, q))
  {
    var u := e.s.hub.sess[q].key;
    match p
    case ServeInstall(f) => AttachedTrue(e.store, u, f); PendingTrue(e.store, f.second);
    case ServeQueryAttached(x, f) => AttachedTrue(e.store, u, f);
    case ServeQueryPending(x, f) => PendingTrue(e.store, f.read);
    case ServeReload(f) => if e.reloads != [] { ReloadTrue(e.store, e.reloads[0].talkId, f.read, f); }
    case ServeRunner(f, late) =>
      if e.sPosted != [] {
        assert e.sPosted[0] in e.sPosted;
        TaskTrue(e.store, e.sPosted[0], f, u);
      }
    case _ =>
  }

  lemma QueuedBefore<T>(q: seq<T>, q': seq<T>, taken: Option<T>, added: Option<T>, k: T)
    requires Turns(q, q', taken, added) && k in q'
    ensures k in q || k in Listed(added)
  {
  }

  lemma ReleasedTalkTrue(e: State, a: Step, k: ServicerTask)
    requires StoreOk(e.store) && k in Listed(ServicerPost(e, a)) && k.TellDetach?
             && Preserves(e.store, Next(e, a).store)
    ensures TrueCard(Next(e, a).store, Card(k.talk))
  {
    var b := CallbackMade(e, a).value;
    FoundTrue(e.store, b.talkId);
  }

  /** The closures queued after a step hold stored talks and messages. */
  lemma ClosuresStep(e: State, a: Step)
    requires EngineOk(e) && EngineOk(Next(e, a)) && ClosuresTrue(e.store, e.sPosted) && PersistOk(Next(e, a))
    ensures ClosuresTrue(Next(e, a).store, Next(e, a).sPosted)
  {
    var e' := Next(e, a);
    StepPreserves(e, a);
    StepPosts(e, a);
    ClosuresStayTrue(e.store, e'.store, e.sPosted);
    forall k | k in e'.sPosted && k.TellDetach?
      ensures TrueCard(e'.store, Card(k.talk))
    {
      QueuedBefore(e.sPosted, e'.sPosted, ServicerRan(e, a), ServicerQueued(e, a), k);
      if k !in e.sPosted {
        ReleasedTalkTrue(e, a, k);
      }
    }
  }

  lemma OffersStep(e: State, a: Step, q: nat, offers: seq<ServiceResponse>)
    requires StoreOk(e.store) && ClosuresTrue(e.store, e.sPosted) && AllTrue(e.store, offers)
    requires Preserves(e.store, Next(e, a).store)
    ensures AllTrue(Next(e, a).store, offers + (if q in e.s.hub.sess then ServicerOffers(e, a, q) else []))
  {
    AllStayTrue(e.store, Next(e, a).store, offers);
    if q in e.s.hub.sess && a.ServicerLoopStep? {
      SendsTrue(e, a.servicerPick, q);
      AllStayTrue(e.store, Next(e, a).store, Sends(e, a.servicerPick, q));
    }
  }

  lemma {:induction false} OffersTrue(e: State, steps: seq<Step>, q: nat)
    requires Init(e)
    ensures ClosuresTrue(Run(e, steps).store, Run(e, steps).sPosted)
    ensures AllTrue(Run(e, steps).store, AllServicerOffers(e, steps, q))
  {
    if steps != [] {
      var before, a := steps[..|steps| - 1], steps[|steps| - 1];
      var x := Run(e, before);
      OffersTrue(e, before, q);
      RunPersists(e, before);
      RunPersists(e, steps);
      StepPreserves(x, a);
      ClosuresStep(x, a);
      OffersStep(x, a, q, AllServicerOffers(e, before, q));
    }
  }

  /** In every run, everything a servicer's session was ever sent is true of the stored talks:
      a list has no talk twice, a card is its talk's, messages shown with a talk are the
      beginning of its list, and a live one is in it. */
  lemma EverythingSentIsTrue(e: State, steps: seq<Step>, q: nat)
    requires Init(e)
    ensures q in Run(e, steps).s.hub.sess ==> AllTrue(Run(e, steps).store, Run(e, steps).s.hub.sess[q].sent)
  {
    OffersTrue(e, steps, q);
    ServicerStream(e, steps, q);
    var x := Run(e, steps);
    if q in x.s.hub.sess {
      forall r | r in x.s.hub.sess[q].sent
        ensures True(x.store, r)
      {
        assert r in AllServicerOffers(e, steps, q) || r.ServiceKickOut?;
      }
    }
  }
}
