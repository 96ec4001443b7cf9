/** A creation notice is wrong only when it is posted too late: over every run without a
    failed store call, unless it is posted while the talk has an owner, it is never the last
    word on an owned talk. */
module Creations {
  import opened Defs
  import opened TalkStore
  import opened Hubs
  import opened Sides
  import opened AllInOne
  import opened Engine
  import opened Shapes
  import opened EngineFacts
  import opened Persistence
  import opened Frames
  import opened SendShapes
  import opened SendFacts
  import opened OwnershipShapes
  import opened Ownership
  import opened ViewShapes
  import opened Views
  import opened Replay
  import opened LateShapes
  import CL = CustomerLogic
  import SL = ServicerLogic

  // ---- last words ----

  lemma {:induction false} LastWordConcat(a: seq<Word>, b: seq<Word>, t: TalkId)
    ensures LastWord(a + b, t) == if LastWord(b, t).Some? then LastWord(b, t) else LastWord(a, t)
  {
    if b == [] {
      assert a + b == a;
    } else {
      LastWordConcat(a, b[..|b| - 1], t);
      assert (a + b)[..|a + b| - 1] == a + b[..|b| - 1];
    }
  }

  lemma LastWordAlone(w: Word, t: TalkId)
    ensures LastWord([w], t) == if w.Owned? && w.talkId == t then Some(w) else None
  {
    assert [w][..0] == [];
  }

  lemma FirstWord(w: Word, rest: seq<Word>, t: TalkId)
    ensures LastWord([w] + rest, t) == if LastWord(rest, t).Some? then LastWord(rest, t)
                                       else if w.Owned? && w.talkId == t then Some(w) else None
  {
    LastWordConcat([w], rest, t);
    LastWordAlone(w, t);
  }

  lemma {:induction false} MentionedHasLastWord(ws: seq<Word>, t: TalkId)
    ensures Mentions(ws, t) <==> LastWord(ws, t).Some?
  {
    if ws != [] {
      var front, w := ws[..|ws| - 1], ws[|ws| - 1];
      assert ws == front + [w];
      MentionsOneMore(front, w, t);
      MentionedHasLastWord(front, t);
    }
  }

  lemma {:induction false} SilentHasNoLastWord(ws: seq<Word>, t: TalkId)
    requires forall w | w in ws :: w.Silent?
    ensures LastWord(ws, t) == None
  {
    if ws != [] {
      assert ws[|ws| - 1] in ws;
      SilentHasNoLastWord(ws[..|ws| - 1], t);
    }
  }

  /** The view after a queue is what its last word on the talk says, if it has one. */
  lemma {:induction false} LastWordView(v: View, ws: seq<Word>, u: nat, t: TalkId)
    requires forall w | w in ws :: w.Silent? || w.Owned?
    ensures ReadAll(v, ws, u, t) == match LastWord(ws, t)
                                    case None => v
                                    case Some(w) => View(w.owner == u, w.owner == 0, w.created, w.created)
  {
    if ws != [] {
      assert ws[|ws| - 1] in ws;
      LastWordView(v, ws[..|ws| - 1], u, t);
    }
  }

  lemma CreationLastOneMore(ws: seq<Word>, w: Word, t: TalkId, ofMine: bool)
    ensures CreationLast(ws + [w], t, ofMine) <==>
            IsCreation(w, t) || (CreationLast(ws, t, ofMine) && !Speaks(w, t, ofMine))
  {
    var more := ws + [w];
    if IsCreation(w, t) {
      assert IsCreation(more[|ws|], t) && NoneSpeaks(more, |ws|, t, ofMine);
    } else if CreationLast(ws, t, ofMine) && !Speaks(w, t, ofMine) {
      var i :| 0 <= i < |ws| && IsCreation(ws[i], t) && NoneSpeaks(ws, i, t, ofMine);
      assert IsCreation(more[i], t) && NoneSpeaks(more, i, t, ofMine);
    }
    if CreationLast(more, t, ofMine) && !IsCreation(w, t) {
      var i :| 0 <= i < |more| && IsCreation(more[i], t) && NoneSpeaks(more, i, t, ofMine);
      assert more[|ws|] == w && i < |ws|;
      forall j | i < j < |ws|
        ensures !Speaks(ws[j], t, ofMine)
      {
        assert more[j] == ws[j];
      }
      assert IsCreation(ws[i], t) && NoneSpeaks(ws, i, t, ofMine);
    }
  }

  /** A view marks what was last learnt from the creation notice. */
  lemma {:induction false} MarkedIffCreationLast(ws: seq<Word>, u: nat, t: TalkId)
    ensures ViewOf(ws, u, t).mineCreated <==> CreationLast(ws, t, true)
    ensures ViewOf(ws, u, t).waitsCreated <==> CreationLast(ws, t, false)
  {
    if ws != [] {
      var front, w := ws[..|ws| - 1], ws[|ws| - 1];
      MarkedIffCreationLast(front, u, t);
      assert ws == front + [w];
      CreationLastOneMore(front, w, t, true);
      CreationLastOneMore(front, w, t, false);
    }
  }

  // ---- steps that leave the last word alone ----

  lemma CarryLate(e: State, e': State, late: Option<nat>, t: TalkId)
    requires LateOk(e, late, t) && (e.sLost ==> e'.sLost)
    requires OwnerOf(e'.store, t) == OwnerOf(e.store, t)
    requires !e'.sLost ==> LastWord(Queue(e'), t) == LastWord(Queue(e), t)
    requires NoCreationTold(e.s.hub, e'.s.hub, t)
    ensures LateOk(e', late, t)
  {
  }

  lemma KeptViewsLate(e: State, e': State, late: Option<nat>, t: TalkId)
    requires LateOk(e, late, t) && ViewsKept(e, e')
    requires !e'.sLost ==> LastWord(Queue(e'), t) == LastWord(Queue(e), t)
    ensures LateOk(e', late, t)
  {
    forall q | Registered(e'.s.hub, q) && !e'.s.hub.sess[q].missed
      ensures Registered(e.s.hub, q) && SameView(e.s.hub.sess[q], e'.s.hub.sess[q])
    {
    }
    CarryLate(e, e', late, t);
  }

  lemma CustomerActsLate(e: State, q: nat, a: CustomerAct, late: Option<nat>, t: TalkId)
    requires LateOk(e, late, t)
    ensures LateOk(CustomerActs(e, q, a), late, t)
  {
    CustomerActsKeepViews(e, q, a);
    CustomerActsLeaveQueue(e, q, a);
    KeptViewsLate(e, CustomerActs(e, q, a), late, t);
  }

  lemma ServicerActsLate(e: State, q: nat, a: ServicerAct, late: Option<nat>, t: TalkId)
    requires LateOk(e, late, t) && ServicersOk(e.s)
    ensures LateOk(ServicerActs(e, q, a), late, t)
  {
    ServicerActsKeepViews(e, q, a);
    ServicerActsLeaveQueue(e, q, a);
    KeptViewsLate(e, ServicerActs(e, q, a), late, t);
  }

  lemma CustomerPicksLate(e: State, p: CustomerPick, late: Option<nat>, t: TalkId)
    requires LateOk(e, late, t) && TalksNamed(e) && !p.PickCall?
    ensures LateOk(CustomerLoop(e, p), late, t)
  {
    CustomerLoopKeepsViews(e, p);
    CustomerPicksLeaveQueue(e, p);
    KeptViewsLate(e, CustomerLoop(e, p), late, t);
  }

  /** A word that does not speak of the talk may enter the queue anywhere. */
  lemma OtherSlipsIn(a: seq<Word>, w: Word, b: seq<Word>, t: TalkId)
    ensures LastWord(a + [w] + b, t) == if LastWord(b, t).Some? then LastWord(b, t)
                                        else if w.Owned? && w.talkId == t then Some(w)
                                        else LastWord(a + b, t)
  {
    LastWordConcat(a + [w], b, t);
    LastWordConcat(a, [w], t);
    LastWordConcat(a, b, t);
    LastWordAlone(w, t);
  }

  /** The customer loop makes a callback: if it is the creation notice of an owned talk, that
      is noted, unless the word of an event on the talk is still to follow it. */
  /** What posting a callback from a customer handler does to the last word on a talk. */
  lemma PostedLastWord(e: State, down: bool, t: TalkId)
    requires TalksNamed(e) && e.cMid != [] && !CustomerLoopCalls(e, down).sLost
    ensures LastWord(Queue(CustomerLoopCalls(e, down)), t)
         == if e.cMid[0] == ServicerOnCreate(t) && !Mentions(MidWords(e.sMid), t) then Some(Owned(t, 0, true))
            else LastWord(Queue(e), t)
  {
    var b := e.cMid[0];
    assert b in e.cMid;
    MentionedHasLastWord(MidWords(e.sMid), t);
    if !ForCustomers(b) {
      var k := ServicerTaskOf(b, e.store, down).value;
      PostedOneMore(e.sPosted, k);
      OtherSlipsIn(PostedWords(e.sPosted), WordOfTask(k), MidWords(e.sMid), t);
      LastWordConcat(PostedWords(e.sPosted), MidWords(e.sMid), t);
    }
  }

  lemma PostedCreationLate(e: State, e': State, late: Option<nat>, t: TalkId)
    requires OwnerOf(e'.store, t) == OwnerOf(e.store, t)
    requires late == if OwnerOf(e.store, t) == 0 then None else Some(OwnerOf(e.store, t))
    ensures LateOk(e', late, t)
  {
  }

  lemma CustomerCallLate(e: State, down: bool, late: Option<nat>, t: TalkId)
    requires LateOk(e, late, t) && TalksNamed(e)
    ensures LateOk(CustomerLoopCalls(e, down), LateNext(e, CustomerLoopStep(PickCall(down)), late, t), t)
  {
    var e', a := CustomerLoopCalls(e, down), CustomerLoopStep(PickCall(down));
    CustomerCallKeeps(e, down);
    if e.cMid != [] && !e'.sLost {
      PostedLastWord(e, down, t);
    }
    if PostsCreation(e, a, t) && !Mentions(MidWords(e.sMid), t) {
      PostedCreationLate(e, e', LateNext(e, a, late, t), t);
    } else {
      KeptViewsLate(e, e', late, t);
    }
  }

  // ---- the servicer loop ----

  lemma SilentDrops(a: seq<Word>, b: seq<Word>, t: TalkId)
    ensures LastWord(a + ([Silent] + b), t) == LastWord(a + b, t)
  {
    LastWordConcat(a, [Silent] + b, t);
    FirstWord(Silent, b, t);
    LastWordConcat(a, b, t);
  }

  lemma OwnCallQueue(e: State, t: TalkId)
    requires TalksNamed(e) && StoreOk(e.store) && e.sMid != [] && !ServicerLoopCalls(e, false).sLost
    ensures LastWord(Queue(ServicerLoopCalls(e, false)), t) == LastWord(Queue(e), t)
  {
    var b, e' := e.sMid[0], ServicerLoopCalls(e, false);
    assert b in e.sMid;
    MidFirst(e.sMid);
    if ForCustomers(b) {
      SilentDrops(PostedWords(e.sPosted), MidWords(e.sMid[1..]), t);
    } else {
      assert b.ServicerOnDetach? ==> WellFormedId(b.talkId);
      var k := ServicerTaskOf(b, e.store, false).value;
      PostedOneMore(e.sPosted, k);
      assert WordOfTask(k) == WordOfCallback(b);
      assert Queue(e') == Queue(e);
    }
  }

  lemma OwnCallLate(e: State, late: Option<nat>, t: TalkId)
    requires LateOk(e, late, t) && TalksNamed(e) && StoreOk(e.store)
    ensures LateOk(ServicerLoopCalls(e, false), late, t)
  {
    OwnCallKeeps(e);
    if e.sMid != [] && !ServicerLoopCalls(e, false).sLost {
      OwnCallQueue(e, t);
    }
    KeptViewsLate(e, ServicerLoopCalls(e, false), late, t);
  }

  lemma QuietPickLate(e: State, p: ServicerPick, late: Option<nat>, t: TalkId)
    requires LateOk(e, late, t) && ServicersOk(e.s) && (p.ServeUninstall? || p.ServeReload? || p.ServeMessage?)
    ensures LateOk(ServicerLoop(e, p), late, t)
  {
    var e' := ServicerLoop(e, p);
    QuietPickKeeps(e, p);
    ServicerPicksQueue(e, p);
    if e'.sMid != e.sMid {
      SilentMid(e'.sMid);
      LastWordConcat(PostedWords(e.sPosted), MidWords(e'.sMid), t);
      SilentHasNoLastWord(MidWords(e'.sMid), t);
      assert Queue(e) == PostedWords(e.sPosted);
    }
    KeptViewsLate(e, e', late, t);
  }

  lemma RefusedLate(e: State, p: ServicerPick, late: Option<nat>, t: TalkId)
    requires LateOk(e, late, t) && ServicersOk(e.s) && (p.ServeAttach? || p.ServeDetach?)
    requires ServicerLoop(e, p).store == e.store && ServicerLoop(e, p).sMid == e.sMid
    ensures LateOk(ServicerLoop(e, p), late, t)
  {
    RefusedKeeps(e, p);
    OwnershipPicksQueue(e, p);
    KeptViewsLate(e, ServicerLoop(e, p), late, t);
  }

  /** An ownership event is queued behind everything and is no creation notice. */
  lemma EventLate(e: State, e': State, w: Word, late: Option<nat>, t: TalkId)
    requires LateOk(e, late, t) && w.Owned? && !w.created
    requires w.talkId != t ==> OwnerOf(e'.store, t) == OwnerOf(e.store, t)
    requires Queue(e') == Queue(e) + [w] && e'.s.hub == e.s.hub && e'.sLost == e.sLost
    ensures LateOk(e', if w.talkId == t then None else late, t)
  {
    LastWordConcat(Queue(e), [w], t);
    LastWordAlone(w, t);
    if w.talkId != t {
      CarryLate(e, e', late, t);
    }
  }

  /** An accepted request: the owner, the event and its callback. */
  lemma AttachSends(e: State, t: TalkId)
    requires ServicersOk(e.s) && HandleAttach(e, NO_FAULTS).log.trace != e.log.trace
    ensures var e' := HandleAttach(e, NO_FAULTS);
            e.sMid == [] && e.attaches != [] && e.attaches[0].conn in e.s.hub.sess
            && var x, u := e.attaches[0].talkId, e.s.hub.sess[e.attaches[0].conn].key;
               && e'.log.trace == e.log.trace + [Took(x, u)] && e'.sMid == [ServicerOnAttach(x, u)]
               && e'.sPosted == e.sPosted && e'.s.hub == e.s.hub && e'.sLost == e.sLost
               && (x != t ==> OwnerOf(e'.store, t) == OwnerOf(e.store, t))
  {
  }

  lemma DetachSends(e: State, t: TalkId)
    requires ServicersOk(e.s) && HandleDetach(e, NO_FAULTS).log.trace != e.log.trace
    ensures var e' := HandleDetach(e, NO_FAULTS);
            e.sMid == [] && e.detaches != [] && e.detaches[0].conn in e.s.hub.sess
            && var x, u := e.detaches[0].talkId, e.s.hub.sess[e.detaches[0].conn].key;
               && u > 0
               && e'.log.trace == e.log.trace + [Gave(x, u)] && e'.sMid == [ServicerOnDetach(x, u)]
               && e'.sPosted == e.sPosted && e'.s.hub == e.s.hub && e'.sLost == e.sLost
               && (x != t ==> OwnerOf(e'.store, t) == OwnerOf(e.store, t))
  {
  }

  lemma RefusalsChangeNothing(e: State, p: ServicerPick)
    requires p.ServeAttach? || p.ServeDetach?
    requires ServicerLoop(e, p).log.trace == e.log.trace
    ensures ServicerLoop(e, p).store == e.store && ServicerLoop(e, p).sMid == e.sMid
  {
  }

  lemma AttachLate(e: State, late: Option<nat>, t: TalkId)
    requires LateOk(e, late, t) && ServicersOk(e.s)
    ensures LateOk(HandleAttach(e, NO_FAULTS), LateNext(e, ServicerLoopStep(ServeAttach(NO_FAULTS)), late, t), t)
  {
    var e' := HandleAttach(e, NO_FAULTS);
    if e'.log.trace == e.log.trace {
      RefusalsChangeNothing(e, ServeAttach(NO_FAULTS));
      RefusedLate(e, ServeAttach(NO_FAULTS), late, t);
    } else {
      AttachSends(e, t);
      var w := WordOfCallback(e'.sMid[0]);
      assert MidWords(e'.sMid) == [w] && MidWords(e.sMid) == [];
      EventLate(e, e', w, late, t);
    }
  }

  lemma DetachLate(e: State, late: Option<nat>, t: TalkId)
    requires LateOk(e, late, t) && ServicersOk(e.s)
    ensures LateOk(HandleDetach(e, NO_FAULTS), LateNext(e, ServicerLoopStep(ServeDetach(NO_FAULTS)), late, t), t)
  {
    var e' := HandleDetach(e, NO_FAULTS);
    if e'.log.trace == e.log.trace {
      RefusalsChangeNothing(e, ServeDetach(NO_FAULTS));
      RefusedLate(e, ServeDetach(NO_FAULTS), late, t);
    } else {
      DetachSends(e, t);
      var w := WordOfCallback(e'.sMid[0]);
      assert MidWords(e'.sMid) == [w] && MidWords(e.sMid) == [];
      EventLate(e, e', w, late, t);
    }
  }

  /** A list is no creation notice. */
  lemma SnapshotLearnsNoCreation(e: State, p: ServicerPick, q: nat, v: View, t: TalkId)
    requires q in e.s.hub.sess && Faultless(p) && (p.ServeInstall? || p.ServeQueryAttached? || p.ServeQueryPending?)
    ensures var v' := ReadAll(v, Words(Sends(e, p, q)), e.s.hub.sess[q].key, t);
            (SaysCreated(v') ==> SaysCreated(v)) && (Installs(e, p, q) ==> !SaysCreated(v'))
  {
    var u := e.s.hub.sess[q].key;
    var mine := Talks(SL.WithMessages(e.store, Attached(e.store, u), {}));
    var waiting := PendingTalks(SL.Cards(Pending(e.store)));
    ReadOne(v, mine, u, t);
    ReadOne(v, waiting, u, t);
    WordsConcat([mine], [waiting]);
    ReadMore(v, Words([mine]), Words([waiting]), u, t);
    ReadOne(Read(v, WordOf(mine), u, t), waiting, u, t);
    assert Words([]) == [];
    assert Sends(e, p, q) in {[], [mine], [waiting], [mine] + [waiting]};
    assert Installs(e, p, q) ==> Sends(e, p, q) == [mine] + [waiting];
  }

  lemma SnapshotLate(e: State, p: ServicerPick, late: Option<nat>, t: TalkId)
    requires LateOk(e, late, t) && ServicersOk(e.s) && Faultless(p)
    requires p.ServeInstall? || p.ServeQueryAttached? || p.ServeQueryPending?
    ensures LateOk(ServicerLoop(e, p), late, t)
  {
    var e' := ServicerLoop(e, p);
    SnapshotPicksQueue(e, p);
    forall q | Registered(e'.s.hub, q) && !e'.s.hub.sess[q].missed
               && SaysCreated(ViewOf(Words(e'.s.hub.sess[q].sent), e'.s.hub.sess[q].key, t))
      ensures Registered(e.s.hub, q) && !e.s.hub.sess[q].missed
              && SaysCreated(ViewOf(Words(e.s.hub.sess[q].sent), e.s.hub.sess[q].key, t))
    {
      LoopRegisters(e, p, q);
      LoopGives(e, p, q);
      var s, s' := e.s.hub.sess[q], e'.s.hub.sess[q];
      GivenView(s, s', Sends(e, p, q), t);
      SnapshotLearnsNoCreation(e, p, q, ViewOf(Words(s.sent), s.key, t), t);
    }
    CarryLate(e, e', late, t);
  }

  lemma TaskToldLate(e: State, h: SL.ServicerHub, q: nat, t: TalkId)
    requires StoreOk(e.store) && TalksNamed(e) && e.sMid == [] && e.sPosted != []
    requires q in e.s.hub.sess && q in h.sess && !h.sess[q].missed
    requires Given(e.s.hub.sess[q], h.sess[q], TaskSends(e.store, e.sPosted[0], NO_FAULTS, e.s.hub.sess[q].key))
    ensures var s := e.s.hub.sess[q];
            ViewOf(Words(h.sess[q].sent), s.key, t)
              == Read(ViewOf(Words(s.sent), s.key, t), WordOfTask(e.sPosted[0]), s.key, t)
  {
    var s, k := e.s.hub.sess[q], e.sPosted[0];
    assert k in e.sPosted;
    GivenView(s, h.sess[q], TaskSends(e.store, k, NO_FAULTS, s.key), t);
    TaskReads(e.store, k, s.key, ViewOf(Words(s.sent), s.key, t), t);
  }

  lemma TaskTells(e: State, h: SL.ServicerHub, t: TalkId, q: nat)
    requires StoreOk(e.store) && TalksNamed(e) && e.sMid == [] && e.sPosted != [] && TaskOffered(e, h)
    ensures Told(e.s.hub, h, WordOfTask(e.sPosted[0]), t, q)
  {
    if Registered(h, q) && !h.sess[q].missed {
      TaskToldLate(e, h, q, t);
    }
  }

  lemma TaskOffersOne(e: State, late: set<nat>, q: nat)
    requires ServicersOk(e.s) && e.sMid == [] && e.sPosted != []
             && Registered(RunServicerTask(e, NO_FAULTS, late).s.hub, q)
    ensures Registered(e.s.hub, q)
    ensures Given(e.s.hub.sess[q], RunServicerTask(e, NO_FAULTS, late).s.hub.sess[q],
                  TaskSends(e.store, e.sPosted[0], NO_FAULTS, e.s.hub.sess[q].key))
  {
    RunnerRegisters(e.s.hub, e.store, e.sPosted[0], NO_FAULTS, late, q);
    TaskGives(e.s.hub, e.store, e.sPosted[0], NO_FAULTS, late, q);
  }

  lemma TaskOffers(e: State, late: set<nat>)
    requires ServicersOk(e.s) && e.sMid == [] && e.sPosted != []
    ensures TaskOffered(e, RunServicerTask(e, NO_FAULTS, late).s.hub)
  {
    forall q | Registered(RunServicerTask(e, NO_FAULTS, late).s.hub, q) {
      TaskOffersOne(e, late, q);
    }
  }

  /** The first word of the queue moves into the streams. */
  lemma ToldLate(e: State, h: SL.ServicerHub, late: Option<nat>, t: TalkId)
    requires LateOk(e, late, t) && e.sPosted != []
    requires forall q :: Told(e.s.hub, h, WordOfTask(e.sPosted[0]), t, q)
    ensures LateOk(TaskTaken(e, h), late, t)
  {
    var e', w := TaskTaken(e, h), WordOfTask(e.sPosted[0]);
    QueueFirst(e);
    FirstWord(w, Queue(e'), t);
    if !e.sLost && late.None? && OwnerOf(e.store, t) != 0 && LastWord(Queue(e'), t).None? {
      forall q | Registered(h, q) && !h.sess[q].missed
        ensures !SaysCreated(ViewOf(Words(h.sess[q].sent), h.sess[q].key, t))
      {
        assert Told(e.s.hub, h, w, t, q);
      }
    }
  }

  lemma TaskTellsAll(e: State, h: SL.ServicerHub, t: TalkId)
    requires StoreOk(e.store) && TalksNamed(e) && e.sMid == [] && e.sPosted != [] && TaskOffered(e, h)
    ensures forall q :: Told(e.s.hub, h, WordOfTask(e.sPosted[0]), t, q)
  {
    forall q
      ensures Told(e.s.hub, h, WordOfTask(e.sPosted[0]), t, q)
    {
      TaskTells(e, h, t, q);
    }
  }

  lemma TaskLate(e: State, lates: set<nat>, late: Option<nat>, t: TalkId)
    requires LateOk(e, late, t) && ServicersOk(e.s) && StoreOk(e.store) && TalksNamed(e)
    ensures LateOk(RunServicerTask(e, NO_FAULTS, lates), late, t)
  {
    if e.sMid == [] && e.sPosted != [] {
      var h := RunServicerTask(e, NO_FAULTS, lates).s.hub;
      TaskOffers(e, lates);
      TaskTellsAll(e, h, t);
      ToldLate(e, h, late, t);
      assert RunServicerTask(e, NO_FAULTS, lates) == TaskTaken(e, h);
    }
  }

  // ---- every step ----

  lemma OthersSendNoOwnership(e: State, p: ServicerPick, t: TalkId)
    requires !p.ServeAttach? && !p.ServeDetach?
    ensures !SendsOwnership(e, ServicerLoopStep(p), t)
  {
    ServicerLoopKeepsOwners(e, p);
  }

  lemma ServicerLoopLate(e: State, p: ServicerPick, late: Option<nat>, t: TalkId)
    requires LateOk(e, late, t) && ServicersOk(e.s) && StoreOk(e.store) && TalksNamed(e) && Faultless(p)
    ensures LateOk(ServicerLoop(e, p), LateNext(e, ServicerLoopStep(p), late, t), t)
  {
    if !p.ServeAttach? && !p.ServeDetach? {
      OthersSendNoOwnership(e, p, t);
    }
    match p
    case ServeAttach(f) => AttachLate(e, late, t);
    case ServeDetach(f) => DetachLate(e, late, t);
    case ServeRunner(f, lates) => TaskLate(e, lates, late, t);
    case ServeCall(down) => OwnCallLate(e, late, t);
    case ServeInstall(f) => SnapshotLate(e, p, late, t);
    case ServeQueryAttached(q, f) => SnapshotLate(e, p, late, t);
    case ServeQueryPending(q, f) => SnapshotLate(e, p, late, t);
    case _ => QuietPickLate(e, p, late, t);
  }

  lemma StepLate(e: State, a: Step, late: Option<nat>, t: TalkId)
    requires LateOk(e, late, t) && ServicersOk(e.s) && StoreOk(e.store) && TalksNamed(e) && FaultlessStep(a)
    ensures LateOk(Next(e, a), LateNext(e, a, late, t), t)
  {
    match a
    case CustomerStep(q, act) => CustomerActsLate(e, q, act, late, t);
    case CustomerLoopStep(pick) =>
      if pick.PickCall? {
        CustomerCallLate(e, pick.down, late, t);
      } else {
        CustomerPicksLate(e, pick, late, t);
      }
    case ServicerStep(q, act) => ServicerActsLate(e, q, act, late, t);
    case ServicerLoopStep(pick) => ServicerLoopLate(e, pick, late, t);
  }

  // ---- runs ----

  lemma {:induction false} RunLate(e: State, steps: seq<Step>, t: TalkId)
    requires Init(e)
    requires forall a | a in steps :: FaultlessStep(a)
    ensures LateOk(Run(e, steps), LateOwner(e, steps, t), t)
  {
    if steps == [] {
      assert Queue(e) == [];
    } else {
      var before, a := steps[..|steps| - 1], steps[|steps| - 1];
      RunLate(e, before, t);
      RunSound(e, before);
      RunPersists(e, before);
      assert a in steps;
      StepLate(Run(e, before), a, LateOwner(e, before, t), t);
    }
  }

  /** Replaying the queue: the creation notice is the last word on an owned talk only if it
      was posted too late. */
  lemma ReplayLate(e: State, q: nat, late: Option<nat>, t: TalkId)
    requires LateOk(e, late, t) && !e.sLost && Registered(e.s.hub, q) && !e.s.hub.sess[q].missed
    ensures SaysCreated(ViewOf(Replayed(e, q), e.s.hub.sess[q].key, t)) && late.None? ==> OwnerOf(e.store, t) == 0
    ensures late.Some? ==> late.value == OwnerOf(e.store, t) > 0
  {
    var s := e.s.hub.sess[q];
    ReadMore(KNOWS_NOTHING, Words(s.sent), Queue(e), s.key, t);
    QueueWords(e);
    LastWordView(ViewOf(Words(s.sent), s.key, t), Queue(e), s.key, t);
  }

  /** In every run with no failed store call of the servicer loop, take a registered session
      that missed nothing, while no post was lost, and a talk that was announced and never
      closed. Read what the session was sent and then the notices still queued. Its user
      knows rightly whether the talk is its own exactly unless the talk was this user's when
      its creation notice was posted too late, with no event on the talk since, and that
      notice is the last word on it; and rightly whether the talk waits for an owner exactly
      unless it was anybody's then, and the notice is the last word on that. */
  lemma {:induction false} EachHalfOfTheTruth(e: State, steps: seq<Step>, q: nat, t: TalkId)
    requires Init(e)
    requires forall a | a in steps :: FaultlessStep(a)
    ensures var x, late := Run(e, steps), LateOwner(e, steps, t);
            Claimed(x, q, t)
            ==> var u, ws, owner := x.s.hub.sess[q].key, Replayed(x, q), OwnerOf(x.store, t);
                && ((ViewOf(ws, u, t).mine <==> owner == u) <==> !(late == Some(u) && CreationLast(ws, t, true)))
                && ((ViewOf(ws, u, t).waits <==> owner == 0) <==> !(late.Some? && CreationLast(ws, t, false)))
  {
    RunSound(e, steps);
    RunPersists(e, steps);
    RunLate(e, steps, t);
    var x := Run(e, steps);
    if Claimed(x, q, t) {
      ReplaySound(x, q, t);
      ReplayLate(x, q, LateOwner(e, steps, t), t);
      MarkedIffCreationLast(Replayed(x, q), x.s.hub.sess[q].key, t);
    }
  }

  /** Snapshot plus replay is the truth: such a session has the whole truth about the talk
      exactly unless its creation notice was posted too late, with no event on the talk
      since, and is the last word it has on a half of the view that it gets wrong. */
  lemma {:induction false} SnapshotPlusReplayIsTruth(e: State, steps: seq<Step>, q: nat, t: TalkId)
    requires Init(e)
    requires forall a | a in steps :: FaultlessStep(a)
    ensures var x, late := Run(e, steps), LateOwner(e, steps, t);
            Claimed(x, q, t)
            ==> var u, ws := x.s.hub.sess[q].key, Replayed(x, q);
                Right(ViewOf(ws, u, t), OwnerOf(x.store, t), u)
                <==> !(late == Some(u) && CreationLast(ws, t, true)) && !(late.Some? && CreationLast(ws, t, false))
  {
    EachHalfOfTheTruth(e, steps, q, t);
  }

  lemma {:induction false} TimelyIsNotLate(e: State, steps: seq<Step>, t: TalkId)
    requires forall i | 0 <= i < |steps| :: Timely(Run(e, steps[..i]), steps[i], t)
    ensures LateOwner(e, steps, t) == None
  {
    if steps != [] {
      var before := steps[..|steps| - 1];
      forall i | 0 <= i < |before|
        ensures Timely(Run(e, before[..i]), before[i], t)
      {
        assert before[..i] == steps[..i] && before[i] == steps[i];
      }
      TimelyIsNotLate(e, before, t);
      assert Timely(Run(e, steps[..|steps| - 1]), steps[|steps| - 1], t);
    }
  }

  /** So in every run in which the creation notice is posted in time, every such session has
      the truth. */
  lemma {:induction false} TimelyNoticeLeavesTheTruth(e: State, steps: seq<Step>, q: nat, t: TalkId)
    requires Init(e)
    requires forall a | a in steps :: FaultlessStep(a)
    requires forall i | 0 <= i < |steps| :: Timely(Run(e, steps[..i]), steps[i], t)
    ensures var x := Run(e, steps);
            Claimed(x, q, t) ==> Right(ViewOf(Replayed(x, q), x.s.hub.sess[q].key, t), OwnerOf(x.store, t),
                                       x.s.hub.sess[q].key)
  {
    TimelyIsNotLate(e, steps, t);
    SnapshotPlusReplayIsTruth(e, steps, q, t);
  }

  lemma NotMentionedNotLast(ws: seq<Word>, t: TalkId, ofMine: bool)
    requires !MentionsCreation(ws, t)
    ensures !CreationLast(ws, t, ofMine)
  {
    forall i | 0 <= i < |ws|
      ensures !IsCreation(ws[i], t)
    {
      assert ws[i] in ws;
    }
  }

  /** And a session whose snapshot was taken after the notice ran, and which is therefore
      never sent it, has the truth in any case. */
  lemma {:induction false} LaterSessionsKnowTheTruth(e: State, steps: seq<Step>, q: nat, t: TalkId)
    requires Init(e)
    requires forall a | a in steps :: FaultlessStep(a)
    ensures var x := Run(e, steps);
            Claimed(x, q, t) && !MentionsCreation(Replayed(x, q), t)
            ==> Right(ViewOf(Replayed(x, q), x.s.hub.sess[q].key, t), OwnerOf(x.store, t), x.s.hub.sess[q].key)
  {
    SnapshotPlusReplayIsTruth(e, steps, q, t);
    var x := Run(e, steps);
    if Registered(x.s.hub, q) && !MentionsCreation(Replayed(x, q), t) {
      NotMentionedNotLast(Replayed(x, q), t, true);
      NotMentionedNotLast(Replayed(x, q), t, false);
    }
  }
}
