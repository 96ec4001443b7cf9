/** No gap for servicers: messages are stored before they are broadcast and a take-over is
    told together with the stored messages, so every session of a talk's owner is shown each
    message the talk had on the bus, has it live, or is still to get it. */
module NoGapServicers {
  import opened Defs
  import opened TalkStore
  import opened Hubs
  import opened HubFacts
  import opened Sides
  import opened AllInOne
  import opened Engine
  import opened Shapes
  import opened EngineFacts
  import opened LiveShapes
  import opened Persistence
  import opened Frames
  import opened SendShapes
  import opened SendFacts
  import opened OwnershipShapes
  import opened Ownership
  import opened ViewShapes
  import opened Views
  import opened Replay
  import opened OwnerGapShapes
  import CL = CustomerLogic
  import SL = ServicerLogic

  // ---- one session and one talk ----

  lemma MoreShown(a: seq<ServiceResponse>, b: seq<ServiceResponse>, from: nat, t: TalkId, u: nat)
    ensures Begun(a, from, t, u) ==> Begun(a + b, from, t, u)
    ensures from <= |a| ==> (Begun(a + b, from, t, u) ==> Begun(a, from, t, u) || Begun(b, 0, t, u))
    ensures from <= |a| && Begun(b, 0, t, u) ==> Begun(a + b, from, t, u)
    ensures forall m | Shown(a, t, m) || Shown(b, t, m) :: Shown(a + b, t, m)
  {
    if Begun(a, from, t, u) {
      var i :| from <= i < |a| && Begins(a[i], t, u);
      assert Begins((a + b)[i], t, u);
    }
    if from <= |a| && Begun(b, 0, t, u) {
      var i :| 0 <= i < |b| && Begins(b[i], t, u);
      assert Begins((a + b)[|a| + i], t, u);
    }
    if from <= |a| && Begun(a + b, from, t, u) && !Begun(a, from, t, u) {
      var i :| from <= i < |a + b| && Begins((a + b)[i], t, u);
      assert i >= |a| && Begins(b[i - |a|], t, u);
    }
    forall m | Shown(a, t, m) || Shown(b, t, m)
      ensures Shown(a + b, t, m)
    {
      var r :| (r in a || r in b) && Shows(r, t, m);
      assert r in a + b;
    }
  }

  /** The responses sent in one step show every message the bus has on a talk they begin. */
  ghost predicate Complete(rs: seq<ServiceResponse>, t: TalkId, u: nat, bus: BusLog) {
    Begun(rs, 0, t, u) ==> forall m | (t, m) in bus :: Shown(rs, t, m)
  }

  /** A registered session is sent rs in a step that moves the queues along. */
  lemma SessionCarries(e: State, e': State, q: nat, t: TalkId, rs: seq<ServiceResponse>, done: Option<ServicerTask>,
                       unlisted: bool, unlisted': bool)
    requires q in e.s.hub.sess && q in e'.s.hub.sess && q in e.s.installed && q in e'.s.installed
    requires e'.s.installed[q] == e.s.installed[q] <= |e.s.hub.sess[q].sent|
             && e'.s.hub.sess[q].key == e.s.hub.sess[q].key
    requires e'.s.hub.sess[q].sent == e.s.hub.sess[q].sent + rs
    requires TalkCovered(e, q, t, unlisted) && QueuesMove(e, e', done)
             && Complete(rs, t, e.s.hub.sess[q].key, e.log.bus)
    requires var u := e.s.hub.sess[q].key;
             && (OwnerOf(e'.store, t) == u ==> OwnerOf(e.store, t) == u || AttachQueued(e', t, u))
             && (done == Some(TellAttach(t, u)) ==> Begun(rs, 0, t, u))
             && (forall m | done == Some(TellMessage(t, m)) && OwnerOf(e.store, t) == u ::
                 ServiceResponse.ServiceMessage(t, m) in rs)
             && (unlisted' ==> unlisted && !Begun(rs, 0, t, u) && !AttachQueued(e', t, u))
             && (unlisted && !unlisted' ==> Begun(rs, 0, t, u) || AttachQueued(e', t, u))
    ensures TalkCovered(e', q, t, unlisted')
  {
    var u, sent := e.s.hub.sess[q].key, e.s.hub.sess[q].sent;
    MoreShown(sent, rs, e.s.installed[q], t, u);
  }

  /** A session that enters has been sent the lists of its install since. */
  lemma EntryCarries(e: State, e': State, q: nat, t: TalkId, rs: seq<ServiceResponse>, unlisted: bool)
    requires q in e.s.hub.sess && q in e'.s.hub.sess && q in e'.s.installed
    requires e'.s.installed[q] == |e.s.hub.sess[q].sent| && e'.s.hub.sess[q].key == e.s.hub.sess[q].key
    requires e'.s.hub.sess[q].sent == e.s.hub.sess[q].sent + rs
    requires Complete(rs, t, e.s.hub.sess[q].key, e.log.bus) && e'.log == e.log && e'.store == e.store
    requires var u := e.s.hub.sess[q].key;
             && (unlisted ==> !Begun(rs, 0, t, u) && !AttachQueued(e', t, u))
             && (OwnerOf(e.store, t) == u && !AttachQueued(e', t, u) && !unlisted ==> Begun(rs, 0, t, u))
    ensures TalkCovered(e', q, t, unlisted)
  {
    var u, sent := e.s.hub.sess[q].key, e.s.hub.sess[q].sent;
    MoreShown(sent, rs, |sent|, t, u);
  }

  // ---- what the picks send ----

  /** The list of attached talks shows all stored messages of each. */
  lemma AttachedComplete(st: Store, u: nat, t: TalkId, bus: BusLog)
    requires StoreOk(st) && BusStored(bus, st)
    ensures Complete(AttachedSends(st, u, NO_FAULTS), t, u, bus)
    ensures u > 0 ==> (IsOpened(st, t) && OwnerOf(st, t) == u <==> Begun(AttachedSends(st, u, NO_FAULTS), 0, t, u))
  {
    var talks := Attached(st, u);
    var list := SL.WithMessages(st, talks, {});
    var rs := AttachedSends(st, u, NO_FAULTS);
    assert rs == [Talks(list)] && rs[0] in rs;
    if Begun(rs, 0, t, u) {
      var c :| c in list && c.talk.id == t;
      var i :| 0 <= i < |list| && list[i] == c;
      assert talks[i] in talks && Lists(talks, t);
      AttachedLists(st, u, t);
      forall m | (t, m) in bus
        ensures Shown(rs, t, m)
      {
        assert Stored(st, t, m) && m in c.messages;
        assert Shows(rs[0], t, m);
      }
    }
    if u > 0 && IsOpened(st, t) && OwnerOf(st, t) == u {
      AttachedLists(st, u, t);
      var x :| x in talks && x.id == t;
      var i :| 0 <= i < |talks| && talks[i] == x;
      assert list[i] in list;
      assert Begins(rs[0], t, u);
    }
  }

  /** A take-over's closure sends the new owner all stored messages. */
  lemma AttachTaskComplete(st: Store, t: TalkId, v: nat, u: nat, x: TalkId, bus: BusLog)
    requires StoreOk(st) && BusStored(bus, st) && t in st.talks
    ensures Complete(TaskSends(st, TellAttach(t, v), NO_FAULTS, u), x, u, bus)
    ensures u == v ==> Begun(TaskSends(st, TellAttach(t, v), NO_FAULTS, u), 0, t, u)
  {
    assert WellFormedId(t);
    var rs := TaskSends(st, TellAttach(t, v), NO_FAULTS, u);
    var card := Card(Talk(t, st.talks[t]));
    assert rs[0] == ServiceResponse.Attach(card, v);
    if u == v {
      assert Begins(rs[0], t, u);
      assert rs[1] == Reload(TalkAndMessages(card, MessagesOf(st, t))) && rs[1] in rs;
      forall m | (t, m) in bus
        ensures Shown(rs, t, m)
      {
        assert Stored(st, t, m);
        assert Shows(rs[1], t, m);
      }
    }
  }

  predicate BeginsNothing(r: ServiceResponse) {
    !r.Talks? && !r.Attach?
  }

  lemma NothingBegunComplete(rs: seq<ServiceResponse>, t: TalkId, u: nat, bus: BusLog)
    requires forall r | r in rs :: BeginsNothing(r)
    ensures Complete(rs, t, u, bus) && !Begun(rs, 0, t, u)
  {
    forall i | 0 <= i < |rs|
      ensures !Begins(rs[i], t, u)
    {
      assert rs[i] in rs;
    }
  }

  lemma RequestsBeginNothing(st: Store, u: nat, t: TalkId)
    ensures forall r | r in DetachSends(st, u, t, NO_FAULTS) :: BeginsNothing(r)
    ensures forall r | r in ReloadSends(st, t, false, NO_FAULTS) :: BeginsNothing(r)
    ensures forall r | r in PendingSends(st, false) :: BeginsNothing(r)
  {
  }

  lemma ConfirmationsBeginNothing(st: Store, u: nat, d: Incoming)
    ensures forall r | r in MessageSends(st, u, d, NO_FAULTS) :: BeginsNothing(r)
  {
  }

  lemma OtherTasksBeginNothing(st: Store, k: ServicerTask, u: nat)
    requires !k.TellAttach?
    ensures forall r | r in TaskSends(st, k, NO_FAULTS, u) :: BeginsNothing(r)
  {
  }

  lemma InstallComplete(st: Store, u: nat, t: TalkId, bus: BusLog)
    requires StoreOk(st) && BusStored(bus, st)
    ensures var rs := AttachedSends(st, u, NO_FAULTS) + PendingSends(st, false);
            Complete(rs, t, u, bus)
            && (u > 0 ==> (IsOpened(st, t) && OwnerOf(st, t) == u <==> Begun(rs, 0, t, u)))
  {
    var a, b := AttachedSends(st, u, NO_FAULTS), PendingSends(st, false);
    AttachedComplete(st, u, t, bus);
    MoreShown(a, b, 0, t, u);
    RequestsBeginNothing(st, u, t);
    NothingBegunComplete(b, t, u, bus);
  }

  lemma TaskComplete(e: State, q: nat, t: TalkId)
    requires q in e.s.hub.sess && StoreOk(e.store) && BusStored(e.log.bus, e.store) && e.sPosted != []
    requires forall k | k in e.sPosted && k.TellAttach? :: k.talkId in e.store.talks
    ensures Complete(TaskSends(e.store, e.sPosted[0], NO_FAULTS, e.s.hub.sess[q].key), t, e.s.hub.sess[q].key,
                     e.log.bus)
  {
    var k, u := e.sPosted[0], e.s.hub.sess[q].key;
    assert k in e.sPosted;
    if k.TellAttach? {
      AttachTaskComplete(e.store, k.talkId, k.servicerID, u, t, e.log.bus);
    } else {
      OtherTasksBeginNothing(e.store, k, u);
      NothingBegunComplete(TaskSends(e.store, k, NO_FAULTS, u), t, u, e.log.bus);
    }
  }

  /** Whatever a pick sends a session shows every message of the talks it begins. */
  lemma SendsComplete(e: State, p: ServicerPick, q: nat, t: TalkId)
    requires q in e.s.hub.sess && StoreOk(e.store) && BusStored(e.log.bus, e.store) && Faultless(p)
    requires forall k | k in e.sPosted && k.TellAttach? :: k.talkId in e.store.talks
    ensures Complete(Sends(e, p, q), t, e.s.hub.sess[q].key, e.log.bus)
  {
    var u := e.s.hub.sess[q].key;
    if Sends(e, p, q) == [] {
      NothingBegunComplete(Sends(e, p, q), t, u, e.log.bus);
    } else if p.ServeInstall? {
      InstallComplete(e.store, u, t, e.log.bus);
    } else if p.ServeQueryAttached? {
      AttachedComplete(e.store, u, t, e.log.bus);
    } else if p.ServeRunner? {
      TaskComplete(e, q, t);
    } else {
      RequestsBeginNothing(e.store, u, if p.ServeDetach? then e.detaches[0].talkId
                           else if p.ServeReload? then e.reloads[0].talkId else t);
      if p.ServeMessage? {
        ConfirmationsBeginNothing(e.store, u, e.s.inbox[0]);
      }
      NothingBegunComplete(Sends(e, p, q), t, u, e.log.bus);
    }
  }

  // ---- how the queues move ----

  lemma CustomerActsMove(e: State, q: nat, a: CustomerAct)
    ensures QueuesMove(e, CustomerActs(e, q, a), None)
  {
    CustomerActsLeaveQueue(e, q, a);
    CustomerActsElsewhere(e, q, a);
  }

  lemma ServicerActsMove(e: State, q: nat, a: ServicerAct)
    ensures QueuesMove(e, ServicerActs(e, q, a), None)
  {
    ServicerActsLeaveQueue(e, q, a);
    ServicerActsLeaveCalls(e, q, a);
    ServicerActsElsewhere(e, q, a);
  }

  /** A callback is made: what it stands for moves into the servicers' queue. */
  lemma DeliverMoves(e: State, e0: State, b: Callback, down: bool)
    requires e0.sPosted == e.sPosted && e0.log == e.log
    requires (e0.cMid == e.cMid && e.sMid == [b] + e0.sMid) || (e0.sMid == e.sMid && e.cMid == [b] + e0.cMid)
    requires !Deliver(e0, b, down).sLost
    ensures QueuesMove(e, Deliver(e0, b, down), None)
  {
    var e' := Deliver(e0, b, down);
    forall k | k in e.sPosted
      ensures k in e'.sPosted
    {
    }
    if b.ServicerOnMessage? {
      assert TellMessage(b.talkId, b.message) in e'.sPosted;
    }
    if b.ServicerOnAttach? {
      assert TellAttach(b.talkId, b.servicerID) in e'.sPosted;
    }
  }

  lemma CustomerCallMoves(e: State, down: bool)
    requires !CustomerLoopCalls(e, down).sLost
    ensures QueuesMove(e, CustomerLoopCalls(e, down), None)
  {
    if e.cMid != [] {
      DeliverMoves(e, e.(cMid := e.cMid[1..]), e.cMid[0], down);
    }
  }

  lemma CustomerPicksCall(e: State, p: CustomerPick)
    requires !p.PickCall?
    ensures e.cMid == [] || CustomerLoop(e, p).cMid == e.cMid
    ensures forall t, m | (t, m) in CustomerLoop(e, p).log.bus ::
              (t, m) in e.log.bus || ServicerOnMessage(t, m) in CustomerLoop(e, p).cMid
  {
  }

  lemma CustomerPicksMove(e: State, p: CustomerPick)
    requires !p.PickCall?
    ensures QueuesMove(e, CustomerLoop(e, p), None)
  {
    CustomerPicksLeaveQueue(e, p);
    CustomerPicksLeaveNotices(e, p);
    CustomerPicksCall(e, p);
  }

  lemma TaskMoves(e: State, f: Faults, late: set<nat>)
    requires e.sMid == [] && e.sPosted != []
    ensures QueuesMove(e, RunServicerTask(e, f, late), Some(e.sPosted[0]))
  {
    var e' := RunServicerTask(e, f, late);
    forall k | k in e.sPosted
      ensures k in e'.sPosted || k == e.sPosted[0]
    {
    }
  }

  lemma OwnCallQueues(e: State, down: bool)
    requires !ServicerLoopCalls(e, down).sLost
    ensures QueuesMove(e, ServicerLoopCalls(e, down), None)
  {
    if e.sMid != [] {
      DeliverMoves(e, e.(sMid := e.sMid[1..]), e.sMid[0], down);
    }
  }

  lemma SnapshotPicksMove(e: State, p: ServicerPick)
    requires p.ServeInstall? || p.ServeQueryAttached? || p.ServeQueryPending?
    ensures QueuesMove(e, ServicerLoop(e, p), None)
  {
    SnapshotPicksQueue(e, p);
    ServicerLoopLeavesCalls(e, p);
  }

  lemma RequestPicksMove(e: State, p: ServicerPick)
    requires p.ServeAttach? || p.ServeDetach? || p.ServeReload? || p.ServeUninstall?
    ensures QueuesMove(e, ServicerLoop(e, p), None)
  {
  }

  lemma MessagePickMoves(e: State, f: Faults, drained: bool)
    ensures QueuesMove(e, HandleServicerMessage(e, f, drained), None)
  {
  }

  /** The closure a pick runs. */
  function TaskRun(e: State, p: ServicerPick): Option<ServicerTask> {
    if p.ServeRunner? && e.sMid == [] && e.sPosted != [] then Some(e.sPosted[0]) else None
  }

  lemma ServicerLoopMoves(e: State, p: ServicerPick)
    requires !ServicerLoop(e, p).sLost
    ensures QueuesMove(e, ServicerLoop(e, p), TaskRun(e, p))
  {
    match p
    case ServeRunner(f, late) => if e.sMid == [] && e.sPosted != [] { TaskMoves(e, f, late); }
    case ServeCall(down) => OwnCallQueues(e, down);
    case ServeMessage(f, drained) => MessagePickMoves(e, f, drained);
    case ServeInstall(_) => SnapshotPicksMove(e, p);
    case ServeQueryAttached(_, _) => SnapshotPicksMove(e, p);
    case ServeQueryPending(_, _) => SnapshotPicksMove(e, p);
    case _ => RequestPicksMove(e, p);
  }

  // ---- the sessions after a pick ----

  /** A user comes to own a talk only by a take-over that is then queued. */
  lemma OwnerBecomes(e: State, p: ServicerPick, t: TalkId, u: nat)
    requires ServicersOk(e.s) && Faultless(p) && u > 0 && OwnerOf(ServicerLoop(e, p).store, t) == u
    ensures OwnerOf(e.store, t) == u || AttachQueued(ServicerLoop(e, p), t, u)
  {
    match p
    case ServeAttach(f) =>
      if e.attaches != [] && e.attaches[0].conn in e.s.hub.sess {
        AttachAnnouncesChanges(e.s.hub, e.store, e.attaches[0].conn, e.attaches[0].talkId, f);
      }
    case ServeDetach(f) =>
      if e.detaches != [] && e.detaches[0].conn in e.s.hub.sess {
        DetachAnnouncesChanges(e.s.hub, e.store, e.detaches[0].conn, e.detaches[0].talkId, f);
      }
    case _ => ServicerLoopKeepsOwners(e, p);
  }

  lemma ClosureTells(e: State, p: ServicerPick, q: nat, t: TalkId)
    requires Registered(e.s.hub, q) && q != 0 && e.s.hub.sess[q].key > 0 && StoreOk(e.store) && Faultless(p)
    requires BusStored(e.log.bus, e.store)
    requires forall k | k in e.sPosted && k.TellAttach? :: k.talkId in e.store.talks
    ensures var u, rs := e.s.hub.sess[q].key, Sends(e, p, q);
            && (TaskRun(e, p) == Some(TellAttach(t, u)) ==> Begun(rs, 0, t, u))
            && (forall m | TaskRun(e, p) == Some(TellMessage(t, m)) && OwnerOf(e.store, t) == u ::
                  ServiceResponse.ServiceMessage(t, m) in rs)
  {
    var u := e.s.hub.sess[q].key;
    if TaskRun(e, p) == Some(TellAttach(t, u)) {
      assert e.sPosted[0] in e.sPosted;
      AttachTaskComplete(e.store, t, u, u, t, e.log.bus);
    }
    assert t in e.store.talks ==> WellFormedId(t);
  }

  ghost predicate GapContext(e: State) {
    && ServicersOk(e.s) && StoreOk(e.store) && BusStored(e.log.bus, e.store) && TalksNamed(e) && InstallsBounded(e.s)
  }

  lemma OtherPicksInstallNobody(e: State, p: ServicerPick)
    requires !p.ServeInstall?
    ensures ServicerLoop(e, p).s.installed == e.s.installed
  {
  }

  lemma PickKeepsInstalled(e: State, p: ServicerPick, q: nat)
    requires ServicersOk(e.s)
    ensures Installs(e, p, q) ==>
              q !in e.s.installed && q in ServicerLoop(e, p).s.installed
              && ServicerLoop(e, p).s.installed[q] == |e.s.hub.sess[q].sent|
    ensures !Installs(e, p, q) && q in e.s.installed ==>
              q in ServicerLoop(e, p).s.installed && ServicerLoop(e, p).s.installed[q] == e.s.installed[q]
  {
    if !p.ServeInstall? {
      OtherPicksInstallNobody(e, p);
    }
  }

  lemma EntersCovered(e: State, p: ServicerPick, q: nat, t: TalkId)
    requires GapContext(e) && Faultless(p) && Installs(e, p, q) && !ServicerLoop(e, p).s.hub.sess[q].missed
    ensures q in ServicerLoop(e, p).s.installed
    ensures TalkCovered(ServicerLoop(e, p), q, t, UnlistedNext(e, ServicerLoopStep(p), q, t, false))
  {
    var e', u := ServicerLoop(e, p), e.s.hub.sess[q].key;
    PickKeepsInstalled(e, p, q);
    LoopGives(e, p, q);
    SnapshotPicksQueue(e, p);
    InstallComplete(e.store, u, t, e.log.bus);
    EntryCarries(e, e', q, t, Sends(e, p, q), UnlistedNext(e, ServicerLoopStep(p), q, t, false));
  }

  lemma DeliverAddsNoTakeOver(e: State, e0: State, b: Callback, down: bool)
    requires e0.sPosted == e.sPosted && (forall c | c in e0.sMid :: c in e.sMid)
             && (b in e.sMid || !b.ServicerOnAttach?)
    ensures NoNewTakeOver(e, Deliver(e0, b, down))
  {
  }

  lemma OwnCallAddsNoTakeOver(e: State, down: bool)
    ensures NoNewTakeOver(e, ServicerLoopCalls(e, down))
  {
    if e.sMid != [] {
      DeliverAddsNoTakeOver(e, e.(sMid := e.sMid[1..]), e.sMid[0], down);
    }
  }

  lemma OtherPicksAddNoTakeOver(e: State, p: ServicerPick, t: TalkId, u: nat)
    requires !p.ServeCall? && !p.ServeRunner? && !p.ServeAttach?
    requires AttachQueued(ServicerLoop(e, p), t, u)
    ensures AttachQueued(e, t, u)
  {
  }

  /** A take-over is in the queue only because it was there or has just been announced. */
  lemma NewTakeOverIsAnnounced(e: State, p: ServicerPick, t: TalkId, u: nat)
    requires AttachQueued(ServicerLoop(e, p), t, u)
    ensures AttachQueued(e, t, u) || TakesOver(e, p, t, u)
  {
    match p
    case ServeCall(down) => OwnCallAddsNoTakeOver(e, down);
    case ServeRunner(f, late) =>
    case ServeAttach(f) =>
    case _ => OtherPicksAddNoTakeOver(e, p, t, u);
  }

  lemma ListsSendSomething(e: State, p: ServicerPick, q: nat)
    requires q in e.s.hub.sess && Faultless(p)
    ensures ListsTo(e, p, q) ==> Sends(e, p, q) != []
  {
  }

  lemma ClosureBeginsNothing(e: State, q: nat, t: TalkId)
    requires q in e.s.hub.sess && e.sPosted != [] && StoreOk(e.store) && TalksNamed(e)
    requires !AttachQueued(e, t, e.s.hub.sess[q].key)
    ensures !Begun(TaskSends(e.store, e.sPosted[0], NO_FAULTS, e.s.hub.sess[q].key), 0, t, e.s.hub.sess[q].key)
  {
    var k, u := e.sPosted[0], e.s.hub.sess[q].key;
    assert k in e.sPosted;
    if k.TellAttach? {
      assert WellFormedId(k.talkId);
    } else {
      OtherTasksBeginNothing(e.store, k, u);
      NothingBegunComplete(TaskSends(e.store, k, NO_FAULTS, u), t, u, {});
    }
  }

  /** What the pick sends session q begins the talk exactly when it lists the talk, or runs a
      take-over of q's user that was queued. */
  lemma OnlyListsBegin(e: State, p: ServicerPick, q: nat, t: TalkId)
    requires q in e.s.hub.sess && q != 0 && e.s.hub.sess[q].key > 0 && StoreOk(e.store) && Faultless(p)
             && !Installs(e, p, q)
    requires BusStored(e.log.bus, e.store) && !AttachQueued(e, t, e.s.hub.sess[q].key) && TalksNamed(e)
    ensures var u := e.s.hub.sess[q].key;
            Begun(Sends(e, p, q), 0, t, u) <==> ListsTo(e, p, q) && OwnerOf(e.store, t) == u && IsOpened(e.store, t)
  {
    var u := e.s.hub.sess[q].key;
    if Sends(e, p, q) == [] {
      ListsSendSomething(e, p, q);
    } else if p.ServeQueryAttached? {
      AttachedComplete(e.store, u, t, e.log.bus);
    } else if p.ServeRunner? {
      ClosureBeginsNothing(e, q, t);
    } else {
      RequestsBeginNothing(e.store, u, if p.ServeDetach? then e.detaches[0].talkId
                           else if p.ServeReload? then e.reloads[0].talkId else t);
      if p.ServeMessage? {
        ConfirmationsBeginNothing(e.store, u, e.s.inbox[0]);
      }
      NothingBegunComplete(Sends(e, p, q), t, u, e.log.bus);
    }
  }

  lemma AttachIsQueued(e: State, f: Faults, t: TalkId, u: nat)
    requires TakesOver(e, ServeAttach(f), t, u)
    ensures ServicerOnAttach(t, u) in HandleAttach(e, f).sMid
  {
  }

  lemma DetachIsNoTakeOver(e: State, f: Faults, t: TalkId, u: nat)
    ensures !TakesOver(e, ServeDetach(f), t, u)
  {
  }

  lemma AnnouncedIsQueued(e: State, p: ServicerPick, t: TalkId, u: nat)
    requires TakesOver(e, p, t, u)
    ensures AttachQueued(ServicerLoop(e, p), t, u)
  {
    if p.ServeAttach? {
      AttachIsQueued(e, p.f, t, u);
    } else if p.ServeDetach? {
      DetachIsNoTakeOver(e, p.f, t, u);
    } else {
      ServicerLoopKeepsOwners(e, p);
    }
  }

  /** The record of having been left out changes with what the pick sends and queues. */
  lemma UnlistedFollows(e: State, p: ServicerPick, q: nat, t: TalkId, unlisted: bool)
    requires GapContext(e) && Faultless(p) && !Installs(e, p, q) && Registered(e.s.hub, q)
    requires unlisted ==> !AttachQueued(e, t, e.s.hub.sess[q].key)
    ensures var u, rs := e.s.hub.sess[q].key, Sends(e, p, q);
            var unlisted' := UnlistedNext(e, ServicerLoopStep(p), q, t, unlisted);
            && (unlisted' ==> unlisted && !Begun(rs, 0, t, u) && !AttachQueued(ServicerLoop(e, p), t, u))
            && (unlisted && !unlisted' ==> Begun(rs, 0, t, u) || AttachQueued(ServicerLoop(e, p), t, u))
  {
    var u := e.s.hub.sess[q].key;
    if unlisted {
      OnlyListsBegin(e, p, q, t);
      if AttachQueued(ServicerLoop(e, p), t, u) {
        NewTakeOverIsAnnounced(e, p, t, u);
      }
      if TakesOver(e, p, t, u) {
        AnnouncedIsQueued(e, p, t, u);
      }
    }
  }

  lemma StaysCovered(e: State, p: ServicerPick, q: nat, t: TalkId, unlisted: bool)
    requires GapContext(e) && Faultless(p) && !e.sLost && !ServicerLoop(e, p).sLost && !Installs(e, p, q)
    requires Registered(e.s.hub, q) && q in ServicerLoop(e, p).s.hub.sess && !ServicerLoop(e, p).s.hub.sess[q].missed
    requires q in e.s.installed && TalkCovered(e, q, t, unlisted)
    ensures q in ServicerLoop(e, p).s.installed
    ensures TalkCovered(ServicerLoop(e, p), q, t, UnlistedNext(e, ServicerLoopStep(p), q, t, unlisted))
  {
    var e', u := ServicerLoop(e, p), e.s.hub.sess[q].key;
    PickKeepsInstalled(e, p, q);
    LoopGives(e, p, q);
    ServicerLoopMoves(e, p);
    SendsComplete(e, p, q, t);
    ClosureTells(e, p, q, t);
    if OwnerOf(e'.store, t) == u {
      OwnerBecomes(e, p, t, u);
    }
    UnlistedFollows(e, p, q, t, unlisted);
    SessionCarries(e, e', q, t, Sends(e, p, q), TaskRun(e, p), unlisted,
                   UnlistedNext(e, ServicerLoopStep(p), q, t, unlisted));
  }

  lemma ServicerLoopCovered(e: State, p: ServicerPick, q: nat, t: TalkId, unlisted: bool)
    requires GapContext(e) && Faultless(p) && NoOwnerGap(e, q, t, unlisted) && (e.sLost ==> ServicerLoop(e, p).sLost)
    ensures NoOwnerGap(ServicerLoop(e, p), q, t, UnlistedNext(e, ServicerLoopStep(p), q, t, unlisted))
  {
    var e' := ServicerLoop(e, p);
    if !e'.sLost && Registered(e'.s.hub, q) && !e'.s.hub.sess[q].missed {
      LoopRegisters(e, p, q);
      if Installs(e, p, q) {
        EntersCovered(e, p, q, t);
      } else {
        LoopGives(e, p, q);
        StaysCovered(e, p, q, t, unlisted);
      }
    }
  }

  /** A step that leaves the servicers' sessions and the owners alone. */
  lemma OthersCovered(e: State, e': State, q: nat, t: TalkId, unlisted: bool)
    requires NoOwnerGap(e, q, t, unlisted) && (e.sLost ==> e'.sLost) && InstallsBounded(e.s)
    requires forall t :: OwnerOf(e'.store, t) == OwnerOf(e.store, t)
    requires !e'.sLost ==> QueuesMove(e, e', None) && NoNewTakeOver(e, e')
    requires e'.s.installed == e.s.installed
    requires Registered(e'.s.hub, q) ==>
               Registered(e.s.hub, q) && e'.s.hub.sess[q] == e.s.hub.sess[q].(taken := e'.s.hub.sess[q].taken)
    ensures NoOwnerGap(e', q, t, unlisted)
  {
    if !e'.sLost && Registered(e'.s.hub, q) && q in e'.s.installed && !e'.s.hub.sess[q].missed {
      NothingBegunComplete([], t, e.s.hub.sess[q].key, e.log.bus);
      assert e'.s.hub.sess[q].sent == e.s.hub.sess[q].sent + [];
      SessionCarries(e, e', q, t, [], None, unlisted, unlisted);
    }
  }

  lemma CustomerActsCovered(e: State, x: nat, a: CustomerAct, q: nat, t: TalkId, unlisted: bool)
    requires NoOwnerGap(e, q, t, unlisted) && InstallsBounded(e.s)
    ensures NoOwnerGap(CustomerActs(e, x, a), q, t, unlisted)
  {
    CustomerActsElsewhere(e, x, a);
    CustomerActsMove(e, x, a);
    CustomerActsKeepOwners(e, x, a);
    CustomerActsLeaveQueue(e, x, a);
    OthersCovered(e, CustomerActs(e, x, a), q, t, unlisted);
  }

  lemma CustomerLoopAddsNoTakeOver(e: State, p: CustomerPick)
    requires TalksNamed(e)
    ensures NoNewTakeOver(e, CustomerLoop(e, p))
  {
    if p.PickCall? {
      if e.cMid != [] {
        assert e.cMid[0] in e.cMid;
        DeliverAddsNoTakeOver(e, e.(cMid := e.cMid[1..]), e.cMid[0], p.down);
      }
    } else {
      CustomerPicksLeaveQueue(e, p);
    }
  }

  lemma CustomerLoopMoves(e: State, p: CustomerPick)
    ensures e.sLost ==> CustomerLoop(e, p).sLost
    ensures !CustomerLoop(e, p).sLost ==> QueuesMove(e, CustomerLoop(e, p), None)
  {
    if p.PickCall? {
      if !CustomerLoopCalls(e, p.down).sLost {
        CustomerCallMoves(e, p.down);
      }
    } else {
      CustomerPicksLeaveQueue(e, p);
      CustomerPicksMove(e, p);
    }
  }

  lemma CustomerLoopCovered(e: State, p: CustomerPick, q: nat, t: TalkId, unlisted: bool)
    requires NoOwnerGap(e, q, t, unlisted) && InstallsBounded(e.s) && TalksNamed(e)
    ensures NoOwnerGap(CustomerLoop(e, p), q, t, unlisted)
  {
    CustomerLoopTakes(e, p);
    CustomerLoopKeepsOwners(e, p);
    CustomerLoopMoves(e, p);
    CustomerLoopAddsNoTakeOver(e, p);
    OthersCovered(e, CustomerLoop(e, p), q, t, unlisted);
  }

  lemma ServicerActsInstalled(e: State, q: nat, a: ServicerAct)
    ensures ServicerActs(e, q, a).s.installed == e.s.installed
  {
  }

  lemma ServicerActsCovered(e: State, x: nat, a: ServicerAct, q: nat, t: TalkId, unlisted: bool)
    requires NoOwnerGap(e, q, t, unlisted) && InstallsBounded(e.s) && ServicersOk(e.s)
    ensures NoOwnerGap(ServicerActs(e, x, a), q, t, unlisted)
  {
    var e' := ServicerActs(e, x, a);
    ServicerActsElsewhere(e, x, a);
    ServicerActsMove(e, x, a);
    ServicerActsKeepOwners(e, x, a);
    ServicerActsLeaveQueue(e, x, a);
    ServicerActsInstalled(e, x, a);
    if Registered(e'.s.hub, q) {
      ServicerActsSendNothing(e, x, a, q);
    }
    OthersCovered(e, e', q, t, unlisted);
  }

  lemma ServicerLoopLoses(e: State, p: ServicerPick)
    ensures e.sLost ==> ServicerLoop(e, p).sLost
  {
  }

  lemma StepCovered(e: State, a: Step, q: nat, t: TalkId, unlisted: bool)
    requires GapContext(e) && NoOwnerGap(e, q, t, unlisted) && FaultlessStep(a)
    ensures NoOwnerGap(Next(e, a), q, t, UnlistedNext(e, a, q, t, unlisted))
  {
    match a
    case CustomerStep(x, act) => CustomerActsCovered(e, x, act, q, t, unlisted);
    case CustomerLoopStep(pick) => CustomerLoopCovered(e, pick, q, t, unlisted);
    case ServicerStep(x, act) => ServicerActsCovered(e, x, act, q, t, unlisted);
    case ServicerLoopStep(pick) => ServicerLoopLoses(e, pick); ServicerLoopCovered(e, pick, q, t, unlisted);
  }

  lemma PickInstalls(e: State, p: ServicerPick, q: nat)
    requires q in ServicerLoop(e, p).s.installed && q !in e.s.installed
    ensures q in e.s.hub.sess && ServicerLoop(e, p).s.installed[q] == |e.s.hub.sess[q].sent|
  {
  }

  lemma NewlyInstalled(e: State, a: Step, q: nat)
    requires q in Next(e, a).s.installed && q !in e.s.installed
    ensures q in e.s.hub.sess && Next(e, a).s.installed[q] == |e.s.hub.sess[q].sent|
  {
    match a
    case CustomerStep(x, act) => CustomerActsElsewhere(e, x, act);
    case CustomerLoopStep(pick) => CustomerLoopTakes(e, pick);
    case ServicerStep(x, act) => ServicerActsInstalled(e, x, act);
    case ServicerLoopStep(pick) => PickInstalls(e, pick, q);
  }

  lemma StepBounds(e: State, a: Step)
    requires InstallsBounded(e.s) && EngineOk(e)
    ensures InstallsBounded(Next(e, a).s)
  {
    StepOk(e, a);
    var e' := Next(e, a);
    forall q | q in e'.s.installed
      ensures q in e'.s.hub.sess && e'.s.installed[q] <= |e'.s.hub.sess[q].sent|
    {
      if q !in e.s.installed {
        NewlyInstalled(e, a, q);
      }
    }
  }

  lemma {:induction false} RunInContext(e: State, steps: seq<Step>)
    requires Init(e)
    requires forall a | a in steps :: FaultlessStep(a)
    ensures GapContext(Run(e, steps))
  {
    RunSound(e, steps);
    RunPersists(e, steps);
    if steps != [] {
      var before, a := steps[..|steps| - 1], steps[|steps| - 1];
      RunInContext(e, before);
      RunPersists(e, before);
      StepBounds(Run(e, before), a);
    }
  }

  lemma {:induction false} RunCovered(e: State, steps: seq<Step>, q: nat, t: TalkId)
    requires Init(e)
    requires forall a | a in steps :: FaultlessStep(a)
    ensures NoOwnerGap(Run(e, steps), q, t, Unlisted(e, steps, q, t))
  {
    if steps != [] {
      var before, a := steps[..|steps| - 1], steps[|steps| - 1];
      RunCovered(e, before, q, t);
      RunInContext(e, before);
      assert a in steps;
      StepCovered(Run(e, before), a, q, t, Unlisted(e, before, q, t));
    }
  }

  lemma CustomerCallKeepsClosed(e: State, down: bool)
    ensures CustomerLoopCalls(e, down).log.closed == e.log.closed
  {
  }

  lemma ServicerLoopKeepsClosed(e: State, p: ServicerPick)
    ensures ServicerLoop(e, p).log.closed == e.log.closed
  {
  }

  lemma StepKeepsClosed(e: State, a: Step)
    ensures e.log.closed <= Next(e, a).log.closed
  {
    match a
    case CustomerStep(x, act) => CustomerActsElsewhere(e, x, act);
    case CustomerLoopStep(pick) =>
      if pick.PickCall? {
        CustomerCallKeepsClosed(e, pick.down);
      } else {
        CustomerPicksLeaveNotices(e, pick);
      }
    case ServicerStep(x, act) => ServicerActsElsewhere(e, x, act);
    case ServicerLoopStep(pick) => ServicerLoopKeepsClosed(e, pick);
  }

  lemma OpenIsListed(e: State, a: Step, q: nat, t: TalkId)
    requires GapContext(e) && t !in e.log.closed
    ensures !UnlistedNext(e, a, q, t, false)
  {
    if q in e.s.hub.sess {
      assert OwnerOf(e.store, t) == e.s.hub.sess[q].key ==> IsOpened(e.store, t);
    }
  }

  /** A talk that was never closed was left out of nobody's list. */
  lemma {:induction false} NeverClosedIsListed(e: State, steps: seq<Step>, q: nat, t: TalkId)
    requires Init(e)
    requires forall a | a in steps :: FaultlessStep(a)
    ensures t !in Run(e, steps).log.closed ==> !Unlisted(e, steps, q, t)
  {
    if steps != [] {
      var before, a := steps[..|steps| - 1], steps[|steps| - 1];
      NeverClosedIsListed(e, before, q, t);
      RunInContext(e, before);
      StepKeepsClosed(Run(e, before), a);
      if t !in Run(e, steps).log.closed {
        OpenIsListed(Run(e, before), a, q, t);
      }
    }
  }

  /** No gap for servicers. In every run with no failed store call of the servicer loop and no
      dropped post, take a registered session that missed nothing, of a user that owns the talk
      and has no take-over of it still queued. It has been told that the talk is its own since
      it was installed exactly unless the talk was closed when it was installed and left out
      of its list, and neither listed to it nor taken over again since; so always, if the talk
      was never closed. And once it has been told, every message the talk had on the bus was
      shown to it with the stored ones, is live in its stream, or is underway to it. */
  lemma {:induction false} NoGapForServicers(e: State, steps: seq<Step>, q: nat, t: TalkId, m: Msg)
    requires Init(e)
    requires forall a | a in steps :: FaultlessStep(a)
    ensures var x := Run(e, steps);
            !x.sLost && Registered(x.s.hub, q) && !x.s.hub.sess[q].missed && OwnerOf(x.store, t) == x.s.hub.sess[q].key
            && !AttachQueued(x, t, x.s.hub.sess[q].key)
            ==> && q in x.s.installed
                && (Following(x, q, t) <==> !Unlisted(e, steps, q, t))
                && (t !in x.log.closed ==> Following(x, q, t))
                && (Following(x, q, t) && (t, m) in x.log.bus ==> ReachedBy(x, q, t, m))
  {
    RunCovered(e, steps, q, t);
    RunInContext(e, steps);
    NeverClosedIsListed(e, steps, q, t);
  }
}
