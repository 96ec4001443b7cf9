/** Snapshot plus replay is the truth: what a servicer's session was sent, followed by the
    ownership notifications still queued, gives back the stored owner of every talk that
    stays open, unless the talk's creation notice is the last word on it. */
module Views {
  import opened Defs
  import opened TalkStore
  import opened Hubs
  import opened HubFacts
  import opened Sides
  import opened AllInOne
  import opened Engine
  import opened Shapes
  import opened EngineFacts
  import opened LiveShapes
  import opened Persistence
  import opened Frames
  import opened SendShapes
  import opened SendFacts
  import opened OwnershipShapes
  import opened Ownership
  import opened ViewShapes
  import CL = CustomerLogic
  import SL = ServicerLogic

  // ---- reading words ----

  lemma ReadOneMore(v: View, ws: seq<Word>, w: Word, u: nat, t: TalkId)
    ensures ReadAll(v, ws + [w], u, t) == Read(ReadAll(v, ws, u, t), w, u, t)
  {
    assert (ws + [w])[..|ws|] == ws;
  }

  lemma {:induction false} ReadMore(v: View, ws: seq<Word>, more: seq<Word>, u: nat, t: TalkId)
    ensures ReadAll(v, ws + more, u, t) == ReadAll(ReadAll(v, ws, u, t), more, u, t)
  {
    if more == [] {
      assert ws + more == ws;
    } else {
      var front, w := more[..|more| - 1], more[|more| - 1];
      ReadMore(v, ws, front, u, t);
      ReadOneMore(v, ws + front, w, u, t);
      assert ws + more == (ws + front) + [w];
    }
  }

  lemma WordsConcat(a: seq<ServiceResponse>, b: seq<ServiceResponse>)
    ensures Words(a + b) == Words(a) + Words(b)
  {
  }

  lemma GivenView(s: ServicerSess, s': ServicerSess, rs: seq<ServiceResponse>, t: TalkId)
    requires Given(s, s', rs) && !s'.missed
    ensures ViewOf(Words(s'.sent), s.key, t) == ReadAll(ViewOf(Words(s.sent), s.key, t), Words(rs), s.key, t)
  {
    WordsConcat(s.sent, rs);
    ReadMore(KNOWS_NOTHING, Words(s.sent), Words(rs), s.key, t);
  }

  lemma {:induction false} SilentReads(v: View, ws: seq<Word>, u: nat, t: TalkId)
    requires forall w | w in ws :: w.Silent?
    ensures ReadAll(v, ws, u, t) == v
  {
    if ws != [] {
      SilentReads(v, ws[..|ws| - 1], u, t);
      assert ws[|ws| - 1] in ws;
    }
  }

  lemma MentionsOneMore(ws: seq<Word>, w: Word, t: TalkId)
    ensures Mentions(ws + [w], t) <==> Mentions(ws, t) || (w.Owned? && w.talkId == t)
  {
    if Mentions(ws, t) {
      var x :| x in ws && x.Owned? && x.talkId == t;
      assert x in ws + [w];
    }
    assert w in ws + [w];
  }

  /** Words that do not mention the talk and are no lists leave its view alone; otherwise the
      last one decides. */
  lemma {:induction false} LastWordDecides(v: View, ws: seq<Word>, u: nat, t: TalkId)
    requires u > 0
    requires forall w | w in ws :: w.Silent? || w.Owned?
    requires forall w | w in ws && w.Owned? && w.created :: w.owner == 0
    ensures var r := ReadAll(v, ws, u, t);
            if !Mentions(ws, t) then r == v
            else (r.mineCreated <==> r.waitsCreated)
                 && (if r.mineCreated then !r.mine && r.waits
                     else LastOwner(ws, t).Some? && Right(r, LastOwner(ws, t).value, u))
  {
    if ws != [] {
      var front, w := ws[..|ws| - 1], ws[|ws| - 1];
      assert ws == front + [w] && w in ws;
      LastWordDecides(v, front, u, t);
      MentionsOneMore(front, w, t);
    }
  }

  lemma {:induction false} LastOwnerConcat(a: seq<Word>, b: seq<Word>, t: TalkId)
    ensures LastOwner(a + b, t) == if LastOwner(b, t).Some? then LastOwner(b, t) else LastOwner(a, t)
  {
    if b == [] {
      assert a + b == a;
    } else {
      LastOwnerConcat(a, b[..|b| - 1], t);
      assert (a + b)[..|a + b| - 1] == a + b[..|b| - 1];
    }
  }

  lemma MentionsConcat(a: seq<Word>, b: seq<Word>, t: TalkId)
    ensures Mentions(a + b, t) <==> Mentions(a, t) || Mentions(b, t)
  {
    if Mentions(a, t) {
      var x :| x in a && x.Owned? && x.talkId == t;
      assert x in a + b;
    }
    if Mentions(b, t) {
      var x :| x in b && x.Owned? && x.talkId == t;
      assert x in a + b;
    }
  }

  lemma Alone(w: Word, t: TalkId)
    ensures Mentions([w], t) <==> w.Owned? && w.talkId == t
    ensures LastOwner([w], t) == if w.Owned? && w.talkId == t && !w.created then Some(w.owner) else None
  {
    assert w in [w];
    assert [w][..0] == [];
  }

  // ---- steps that keep the views ----

  lemma CarryViews(e: State, e': State)
    requires ViewsSound(e) && ViewsKept(e, e')
    ensures ViewsSound(e')
  {
    if !e'.sLost {
      forall q | Registered(e'.s.hub, q)
        ensures SessionSound(e', q)
      {
        assert SessionSound(e, q);
        forall t | Settled(e', t)
          ensures Settled(e, t)
        {
        }
      }
    }
  }

  lemma QueueKeptRefl(ws: seq<Word>)
    ensures QueueKept(ws, ws)
  {
  }

  /** A creation notice may come into the queue anywhere. */
  lemma CreationSlipsIn(a: seq<Word>, w: Word, b: seq<Word>)
    requires w.Silent? || (w.Owned? && w.created)
    ensures QueueKept(a + b, a + [w] + b)
  {
    forall t
      ensures LastOwner(a + [w] + b, t) == LastOwner(a + b, t)
      ensures Mentions(a + b, t) ==> Mentions(a + [w] + b, t)
    {
      LastOwnerConcat(a + [w], b, t);
      LastOwnerConcat(a, [w], t);
      LastOwnerConcat(a, b, t);
      Alone(w, t);
      MentionsConcat(a, b, t);
      MentionsConcat(a + [w], b, t);
      MentionsConcat(a, [w], t);
    }
  }

  lemma PostedOneMore(posted: seq<ServicerTask>, k: ServicerTask)
    ensures PostedWords(posted + [k]) == PostedWords(posted) + [WordOfTask(k)]
  {
  }

  lemma MidFirst(mid: seq<Callback>)
    requires mid != []
    ensures MidWords(mid) == [WordOfCallback(mid[0])] + MidWords(mid[1..])
  {
  }

  lemma PostedFirst(posted: seq<ServicerTask>)
    requires posted != []
    ensures PostedWords(posted) == [WordOfTask(posted[0])] + PostedWords(posted[1..])
  {
  }

  lemma {:induction false} SilentMid(mid: seq<Callback>)
    requires forall b | b in mid :: WordOfCallback(b).Silent?
    ensures forall w | w in MidWords(mid) :: w.Silent?
  {
    forall w | w in MidWords(mid)
      ensures w.Silent?
    {
      var i :| 0 <= i < |mid| && MidWords(mid)[i] == w;
      assert mid[i] in mid;
    }
  }

  lemma DroppingSilent(a: seq<Word>, b: seq<Word>)
    ensures QueueKept(a + ([Silent] + b), a + b)
  {
    forall t
      ensures LastOwner(a + b, t) == LastOwner(a + ([Silent] + b), t)
      ensures Mentions(a + ([Silent] + b), t) ==> Mentions(a + b, t)
    {
      LastOwnerConcat(a, b, t);
      LastOwnerConcat(a, [Silent] + b, t);
      LastOwnerConcat([Silent], b, t);
      Alone(Silent, t);
      MentionsConcat(a, b, t);
      MentionsConcat(a, [Silent] + b, t);
      MentionsConcat([Silent], b, t);
    }
  }

  /** The servicer loop makes the next callback of its own call: the notification moves from
      the call to the queue. */
  lemma OwnCallMoves(e: State)
    requires e.sMid != [] && CallbacksNamed(e.sMid, e.store) && StoreOk(e.store)
    ensures var e' := ServicerLoopCalls(e, false); !e'.sLost ==> QueueKept(Queue(e), Queue(e'))
  {
    var b, e' := e.sMid[0], ServicerLoopCalls(e, false);
    assert b in e.sMid;
    MidFirst(e.sMid);
    if !e'.sLost {
      if ForCustomers(b) {
        CreationSlipsIn(PostedWords(e.sPosted), Silent, MidWords(e.sMid[1..]));
        DroppingSilent(PostedWords(e.sPosted), MidWords(e.sMid[1..]));
      } else {
        assert b.ServicerOnDetach? ==> WellFormedId(b.talkId);
        var k := ServicerTaskOf(b, e.store, false).value;
        PostedOneMore(e.sPosted, k);
        assert WordOfTask(k) == WordOfCallback(b);
        assert Queue(e') == Queue(e);
        QueueKeptRefl(Queue(e));
      }
    }
  }

  lemma OwnCallKeeps(e: State)
    requires CallbacksNamed(e.sMid, e.store) && StoreOk(e.store)
    requires forall b | b in e.sMid :: !b.ServicerOnCreate?
    ensures ViewsKept(e, ServicerLoopCalls(e, false))
  {
    if e.sMid == [] {
      QueueKeptRefl(Queue(e));
    } else {
      assert e.sMid[0] in e.sMid;
      OwnCallMoves(e);
    }
  }

  /** The customer loop makes a callback: it may put a creation notice into the queue. */
  lemma CustomerCallKeeps(e: State, down: bool)
    requires forall b | b in e.cMid :: !b.ServicerOnAttach? && !b.ServicerOnDetach?
    ensures ViewsKept(e, CustomerLoopCalls(e, down))
  {
    if e.cMid == [] {
      QueueKeptRefl(Queue(e));
    } else {
      var b, e' := e.cMid[0], CustomerLoopCalls(e, down);
      assert b in e.cMid;
      QueueKeptRefl(Queue(e));
      if !ForCustomers(b) && !e'.sLost {
        var k := ServicerTaskOf(b, e.store, down).value;
        PostedOneMore(e.sPosted, k);
        CreationSlipsIn(PostedWords(e.sPosted), WordOfTask(k), MidWords(e.sMid));
        if b.ServicerOnCreate? {
          assert WordOfTask(k) in Queue(e');
          assert Mentions(Queue(e'), b.talkId);
        }
      }
    }
  }

  lemma CustomerActsKeepViews(e: State, q: nat, a: CustomerAct)
    ensures ViewsKept(e, CustomerActs(e, q, a))
  {
    CustomerActsElsewhere(e, q, a);
    CustomerActsKeepOwners(e, q, a);
    CustomerActsLeaveQueue(e, q, a);
    QueueKeptRefl(Queue(e));
  }

  lemma CustomerLoopKeepsViews(e: State, p: CustomerPick)
    requires forall b | b in e.cMid :: !b.ServicerOnAttach? && !b.ServicerOnDetach?
    ensures ViewsKept(e, CustomerLoop(e, p))
  {
    if p.PickCall? {
      CustomerCallKeeps(e, p.down);
    } else {
      CustomerLoopTakes(e, p);
      CustomerLoopKeepsOwners(e, p);
      CustomerPicksLeaveQueue(e, p);
      CustomerPicksLeaveNotices(e, p);
      QueueKeptRefl(Queue(e));
    }
  }

  lemma SameStreamSameView(s: ServicerSess, s': ServicerSess)
    requires s'.sent == s.sent && s'.key == s.key && s'.missed == s.missed
    ensures SameView(s, s')
  {
  }

  lemma SameStreamsSameViews(h: SL.ServicerHub, h': SL.ServicerHub, x: nat)
    requires Filed(h) && h'.reg == h.reg && Registered(h', x)
    requires x in h.sess ==> h'.sess[x] == h.sess[x].(taken := h'.sess[x].taken)
    requires x !in h.sess ==> h'.sess[x].sent == []
    ensures Registered(h, x) && SameView(h.sess[x], h'.sess[x])
  {
    assert x in h.sess;
    SameStreamSameView(h.sess[x], h'.sess[x]);
  }

  lemma ServicerActsSessions(e: State, q: nat, a: ServicerAct, x: nat)
    requires ServicersOk(e.s) && Registered(ServicerActs(e, q, a).s.hub, x)
    ensures Registered(e.s.hub, x) && SameView(e.s.hub.sess[x], ServicerActs(e, q, a).s.hub.sess[x])
  {
    ServicerActsSendNothing(e, q, a, x);
    SameStreamsSameViews(e.s.hub, ServicerActs(e, q, a).s.hub, x);
  }

  lemma ServicerActsKeepViews(e: State, q: nat, a: ServicerAct)
    requires ServicersOk(e.s)
    ensures ViewsKept(e, ServicerActs(e, q, a))
  {
    var e' := ServicerActs(e, q, a);
    ServicerActsElsewhere(e, q, a);
    ServicerActsKeepOwners(e, q, a);
    ServicerActsLeaveQueue(e, q, a);
    QueueKeptRefl(Queue(e));
    forall x | Registered(e'.s.hub, x)
      ensures Registered(e.s.hub, x) && SameView(e.s.hub.sess[x], e'.s.hub.sess[x])
    {
      ServicerActsSessions(e, q, a, x);
    }
  }

  // ---- picks that tell the sessions nothing about owners ----

  lemma SilentPick(e: State, p: ServicerPick, q: nat)
    requires q in e.s.hub.sess
             && (p.ServeUninstall? || p.ServeAttach? || p.ServeDetach? || p.ServeReload? || p.ServeMessage?)
    ensures forall w | w in Words(Sends(e, p, q)) :: w.Silent?
  {
  }

  lemma SilentPickSessions(e: State, p: ServicerPick, q: nat)
    requires ServicersOk(e.s) && Registered(ServicerLoop(e, p).s.hub, q)
    requires p.ServeUninstall? || p.ServeAttach? || p.ServeDetach? || p.ServeReload? || p.ServeMessage?
    ensures Registered(e.s.hub, q) && SameView(e.s.hub.sess[q], ServicerLoop(e, p).s.hub.sess[q])
  {
    LoopRegisters(e, p, q);
    LoopGives(e, p, q);
    SilentPick(e, p, q);
    var s, s' := e.s.hub.sess[q], ServicerLoop(e, p).s.hub.sess[q];
    if !s'.missed {
      forall t
        ensures ViewOf(Words(s'.sent), s.key, t) == ViewOf(Words(s.sent), s.key, t)
      {
        GivenView(s, s', Sends(e, p, q), t);
        SilentReads(ViewOf(Words(s.sent), s.key, t), Words(Sends(e, p, q)), s.key, t);
      }
    }
  }

  lemma ServicerPicksQueue(e: State, p: ServicerPick)
    requires p.ServeUninstall? || p.ServeReload? || p.ServeMessage?
    ensures var e' := ServicerLoop(e, p);
            && e'.sPosted == e.sPosted && e'.sLost == e.sLost
            && e'.log.announced == e.log.announced && e'.log.closed == e.log.closed
            && (e'.sMid == e.sMid || (e.sMid == [] && forall b | b in e'.sMid :: WordOfCallback(b).Silent?))
  {
  }

  lemma {:induction false} SilentHasNoOwner(ws: seq<Word>, t: TalkId)
    requires forall w | w in ws :: w.Silent?
    ensures LastOwner(ws, t) == None
  {
    if ws != [] {
      assert ws[|ws| - 1] in ws;
      SilentHasNoOwner(ws[..|ws| - 1], t);
    }
  }

  lemma SilentAtTheEnd(a: seq<Word>, b: seq<Word>)
    requires forall w | w in b :: w.Silent?
    ensures QueueKept(a, a + b)
  {
    forall t
      ensures LastOwner(a + b, t) == LastOwner(a, t)
      ensures Mentions(a, t) ==> Mentions(a + b, t)
    {
      LastOwnerConcat(a, b, t);
      SilentHasNoOwner(b, t);
      MentionsConcat(a, b, t);
    }
  }

  lemma QuietPickKeeps(e: State, p: ServicerPick)
    requires ServicersOk(e.s) && (p.ServeUninstall? || p.ServeReload? || p.ServeMessage?)
    ensures ViewsKept(e, ServicerLoop(e, p))
  {
    var e' := ServicerLoop(e, p);
    ServicerLoopKeepsOwners(e, p);
    ServicerPicksQueue(e, p);
    QueueKeptRefl(Queue(e));
    if e'.sMid != e.sMid {
      SilentMid(e'.sMid);
      SilentAtTheEnd(PostedWords(e.sPosted), MidWords(e'.sMid));
      assert Queue(e) == PostedWords(e.sPosted);
    }
    forall q | Registered(e'.s.hub, q)
      ensures Registered(e.s.hub, q) && SameView(e.s.hub.sess[q], e'.s.hub.sess[q])
    {
      SilentPickSessions(e, p, q);
    }
  }

  // ---- the owner of a talk changes ----

  /** An owner is written and the change is queued behind everything else. */
  lemma OwnerChanges(e: State, e': State, w: Word)
    requires ViewsSound(e) && w.Owned? && !w.created
    requires OwnerOf(e'.store, w.talkId) == w.owner && forall x | x != w.talkId ::
             OwnerOf(e'.store, x) == OwnerOf(e.store, x)
    requires Queue(e') == Queue(e) + [w]
    requires e'.s.hub == e.s.hub && e'.sLost == e.sLost && e'.log.announced == e.log.announced
             && e'.log.closed == e.log.closed
    ensures ViewsSound(e')
  {
    if !e'.sLost {
      forall x
        ensures LastOwner(Queue(e'), x) == if x == w.talkId then Some(w.owner) else LastOwner(Queue(e), x)
      {
        LastOwnerConcat(Queue(e), [w], x);
        Alone(w, x);
      }
      forall q | Registered(e'.s.hub, q)
        ensures SessionSound(e', q)
      {
        assert SessionSound(e, q);
        forall x | Settled(e', x)
          ensures Settled(e, x) && x != w.talkId
        {
          MentionsOneMore(Queue(e), w, x);
        }
      }
    }
  }

  lemma OwnershipPicksQueue(e: State, p: ServicerPick)
    requires p.ServeAttach? || p.ServeDetach?
    ensures var e' := ServicerLoop(e, p);
            e'.sPosted == e.sPosted && e'.sLost == e.sLost
            && e'.log.announced == e.log.announced && e'.log.closed == e.log.closed
  {
  }

  lemma RefusedKeeps(e: State, p: ServicerPick)
    requires ServicersOk(e.s) && (p.ServeAttach? || p.ServeDetach?)
    requires ServicerLoop(e, p).store == e.store && ServicerLoop(e, p).sMid == e.sMid
    ensures ViewsKept(e, ServicerLoop(e, p))
  {
    var e' := ServicerLoop(e, p);
    OwnershipPicksQueue(e, p);
    QueueKeptRefl(Queue(e));
    forall q | Registered(e'.s.hub, q)
      ensures Registered(e.s.hub, q) && SameView(e.s.hub.sess[q], e'.s.hub.sess[q])
    {
      SilentPickSessions(e, p, q);
    }
  }

  lemma AttachSound(e: State)
    requires ViewsSound(e) && ServicersOk(e.s)
    ensures ViewsSound(HandleAttach(e, NO_FAULTS))
  {
    var e' := HandleAttach(e, NO_FAULTS);
    if e.sMid == [] && e.attaches != [] && e.attaches[0].conn in e.s.hub.sess {
      var q, t := e.attaches[0].conn, e.attaches[0].talkId;
      AttachAnnouncesChanges(e.s.hub, e.store, q, t, NO_FAULTS);
      if SL.AttachTalk(e.s.hub, e.store, q, t, NO_FAULTS).call.Some? {
        var w := Owned(t, e.s.hub.sess[q].key, false);
        assert MidWords(e'.sMid) == [w] && MidWords(e.sMid) == [];
        OwnerChanges(e, e', w);
      } else {
        RefusedKeeps(e, ServeAttach(NO_FAULTS));
        CarryViews(e, e');
      }
    }
  }

  lemma DetachSound(e: State)
    requires ViewsSound(e) && ServicersOk(e.s)
    ensures ViewsSound(HandleDetach(e, NO_FAULTS))
  {
    var e' := HandleDetach(e, NO_FAULTS);
    if e.sMid == [] && e.detaches != [] && e.detaches[0].conn in e.s.hub.sess {
      var q, t := e.detaches[0].conn, e.detaches[0].talkId;
      DetachAnnouncesChanges(e.s.hub, e.store, q, t, NO_FAULTS);
      if SL.DetachTalk(e.s.hub, e.store, q, t, NO_FAULTS).call.Some? {
        var w := Owned(t, 0, false);
        assert MidWords(e'.sMid) == [w] && MidWords(e.sMid) == [];
        OwnerChanges(e, e', w);
      } else {
        RefusedKeeps(e, ServeDetach(NO_FAULTS));
        CarryViews(e, e');
      }
    }
  }

  // ---- a snapshot is taken ----

  lemma AttachedSnapshot(st: Store, u: nat, t: TalkId)
    requires StoreOk(st) && u > 0 && IsOpened(st, t)
    ensures var w := WordOf(Talks(SL.WithMessages(st, Attached(st, u), {})));
            t in w.ids <==> OwnerOf(st, t) == u
  {
    var talks := Attached(st, u);
    var list := SL.WithMessages(st, talks, {});
    AttachedLists(st, u, t);
    if Lists(talks, t) {
      var x :| x in talks && x.id == t;
      var i :| 0 <= i < |talks| && talks[i] == x;
      assert list[i] in list && list[i].talk.id == t;
    }
    forall c | c in list ensures Lists(talks, c.talk.id) {
      var i :| 0 <= i < |list| && list[i] == c;
      assert talks[i] in talks;
    }
  }

  lemma PendingSnapshot(st: Store, t: TalkId)
    requires StoreOk(st) && IsOpened(st, t)
    ensures var w := WordOf(PendingTalks(SL.Cards(Pending(st))));
            t in w.ids <==> OwnerOf(st, t) == 0
  {
    var talks := Pending(st);
    var list := SL.Cards(talks);
    PendingLists(st, t);
    if Lists(talks, t) {
      var x :| x in talks && x.id == t;
      var i :| 0 <= i < |talks| && talks[i] == x;
      assert list[i] in list && list[i].id == t;
    }
    forall c | c in list ensures Lists(talks, c.id) {
      var i :| 0 <= i < |list| && list[i] == c;
      assert talks[i] in talks;
    }
  }

  /** What a snapshot pick sends to session q, as words; reading them keeps a sound view
      sound, and the two lists of an install make any view sound. */
  lemma SnapshotReads(e: State, p: ServicerPick, q: nat, v: View, t: TalkId)
    requires q in e.s.hub.sess && e.s.hub.sess[q].key > 0 && StoreOk(e.store) && IsOpened(e.store, t) && Faultless(p)
    requires p.ServeInstall? || p.ServeQueryAttached? || p.ServeQueryPending?
    requires Sound(v, OwnerOf(e.store, t), e.s.hub.sess[q].key) || Installs(e, p, q)
    ensures Sound(ReadAll(v, Words(Sends(e, p, q)), e.s.hub.sess[q].key, t), OwnerOf(e.store, t), e.s.hub.sess[q].key)
  {
    var u := e.s.hub.sess[q].key;
    var mine := Talks(SL.WithMessages(e.store, Attached(e.store, u), {}));
    var waiting := PendingTalks(SL.Cards(Pending(e.store)));
    AttachedSnapshot(e.store, u, t);
    PendingSnapshot(e.store, t);
    ReadOneMore(v, [], WordOf(mine), u, t);
    ReadOneMore(v, [], WordOf(waiting), u, t);
    ReadOneMore(v, [WordOf(mine)], WordOf(waiting), u, t);
    assert [] + [WordOf(mine)] == [WordOf(mine)] == Words([mine]);
    assert [] + [WordOf(waiting)] == [WordOf(waiting)] == Words([waiting]);
    assert [WordOf(mine)] + [WordOf(waiting)] == Words([mine] + [waiting]);
    assert Words([]) == [];
    assert Sends(e, p, q) in {[], [mine], [waiting], [mine] + [waiting]};
    assert Installs(e, p, q) ==> Sends(e, p, q) == [mine] + [waiting];
  }

  lemma SnapshotSession(e: State, p: ServicerPick, q: nat)
    requires ServicersOk(e.s) && StoreOk(e.store) && TalksNamed(e) && ViewsSound(e) && !e.sLost && Faultless(p)
    requires p.ServeInstall? || p.ServeQueryAttached? || p.ServeQueryPending?
    requires Registered(ServicerLoop(e, p).s.hub, q)
    ensures q in e.s.hub.sess
    ensures var s' := ServicerLoop(e, p).s.hub.sess[q];
            s'.key == e.s.hub.sess[q].key
            && (!s'.missed ==> forall t | Settled(e, t) ::
                  Sound(ViewOf(Words(s'.sent), s'.key, t), OwnerOf(e.store, t), s'.key))
  {
    LoopRegisters(e, p, q);
    LoopGives(e, p, q);
    var s, s' := e.s.hub.sess[q], ServicerLoop(e, p).s.hub.sess[q];
    if !s'.missed {
      forall t | Settled(e, t)
        ensures Sound(ViewOf(Words(s'.sent), s'.key, t), OwnerOf(e.store, t), s'.key)
      {
        GivenView(s, s', Sends(e, p, q), t);
        if Registered(e.s.hub, q) {
          assert SessionSound(e, q);
        }
        SnapshotReads(e, p, q, ViewOf(Words(s.sent), s.key, t), t);
      }
    }
  }

  lemma SnapshotPicksQueue(e: State, p: ServicerPick)
    requires p.ServeInstall? || p.ServeQueryAttached? || p.ServeQueryPending?
    ensures var e' := ServicerLoop(e, p);
            e'.sPosted == e.sPosted && e'.sMid == e.sMid && e'.sLost == e.sLost && e'.log == e.log
              && e'.store == e.store
  {
  }

  lemma SnapshotSound(e: State, p: ServicerPick)
    requires ServicersOk(e.s) && StoreOk(e.store) && TalksNamed(e) && ViewsSound(e) && Faultless(p)
    requires p.ServeInstall? || p.ServeQueryAttached? || p.ServeQueryPending?
    ensures ViewsSound(ServicerLoop(e, p))
  {
    var e' := ServicerLoop(e, p);
    SnapshotPicksQueue(e, p);
    assert forall t :: Settled(e', t) == Settled(e, t);
    if !e'.sLost {
      forall q | Registered(e'.s.hub, q)
        ensures SessionSound(e', q)
      {
        SnapshotSession(e, p, q);
      }
    }
  }

  // ---- a closure runs ----

  lemma ReadOne(v: View, r: ServiceResponse, u: nat, t: TalkId)
    ensures ReadAll(v, Words([r]), u, t) == Read(v, WordOf(r), u, t)
  {
    assert Words([r]) == [] + [WordOf(r)];
    ReadOneMore(v, [], WordOf(r), u, t);
  }

  /** The second of two responses says nothing about owners. */
  lemma ReadTwo(v: View, r: ServiceResponse, silent: ServiceResponse, u: nat, t: TalkId)
    requires WordOf(silent).Silent?
    ensures ReadAll(v, Words([r] + [silent]), u, t) == Read(v, WordOf(r), u, t)
  {
    WordsConcat([r], [silent]);
    ReadMore(v, Words([r]), Words([silent]), u, t);
    ReadOne(v, r, u, t);
    ReadOne(Read(v, WordOf(r), u, t), silent, u, t);
  }

  lemma OtherTaskReads(st: Store, k: ServicerTask, u: nat, v: View, t: TalkId)
    requires k.TellCreate? || k.TellAttach? ==> WellFormedId(k.talkId) && k.talkId in st.talks
    requires !(k.TellAttach? && u == k.servicerID)
    ensures ReadAll(v, Words(TaskSends(st, k, NO_FAULTS, u)), u, t) == Read(v, WordOfTask(k), u, t)
  {
    var rs := TaskSends(st, k, NO_FAULTS, u);
    if rs == [] {
      assert Words(rs) == [];
    } else {
      assert rs == [rs[0]];
      ReadOne(v, rs[0], u, t);
    }
  }

  /** A closure tells every session the word it stood for in the queue. */
  lemma TaskReads(st: Store, k: ServicerTask, u: nat, v: View, t: TalkId)
    requires StoreOk(st) && (k.TellCreate? || k.TellAttach? ==> k.talkId in st.talks)
    ensures ReadAll(v, Words(TaskSends(st, k, NO_FAULTS, u)), u, t) == Read(v, WordOfTask(k), u, t)
  {
    assert k.TellCreate? || k.TellAttach? ==> WellFormedId(k.talkId);
    if k.TellAttach? && u == k.servicerID {
      var card := Card(Talk(k.talkId, st.talks[k.talkId]));
      ReadTwo(v, ServiceResponse.Attach(card, u), Reload(TalkAndMessages(card, MessagesOf(st, k.talkId))), u, t);
    } else {
      OtherTaskReads(st, k, u, v, t);
    }
  }

  lemma {:induction false} NotMentionedHasNoOwner(ws: seq<Word>, t: TalkId)
    requires !Mentions(ws, t)
    ensures LastOwner(ws, t) == None
  {
    if ws != [] {
      var front, w := ws[..|ws| - 1], ws[|ws| - 1];
      assert ws == front + [w];
      MentionsOneMore(front, w, t);
      NotMentionedHasNoOwner(front, t);
    }
  }

  /** Taking the first notification off the queue and reading it keeps a view sound. */
  lemma FirstNotificationReads(w: Word, rest: seq<Word>, st: Store, u: nat, v: View, t: TalkId)
    requires QueueAgrees([w] + rest, st) && u > 0 && !Mentions(rest, t)
    requires w.Owned? && w.created ==> w.owner == 0
    requires w.Owned? || w.Silent?
    requires !Mentions([w] + rest, t) ==> Sound(v, OwnerOf(st, t), u)
    ensures Sound(Read(v, w, u, t), OwnerOf(st, t), u)
  {
    MentionsConcat([w], rest, t);
    LastOwnerConcat([w], rest, t);
    Alone(w, t);
    NotMentionedHasNoOwner(rest, t);
  }

  lemma RestAgrees(w: Word, rest: seq<Word>, st: Store)
    requires QueueAgrees([w] + rest, st)
    ensures QueueAgrees(rest, st)
  {
    forall t | LastOwner(rest, t).Some?
      ensures LastOwner(rest, t).value == OwnerOf(st, t)
    {
      LastOwnerConcat([w], rest, t);
    }
  }

  lemma QueueFirst(e: State)
    requires e.sPosted != []
    ensures Queue(e) == [WordOfTask(e.sPosted[0])] + (PostedWords(e.sPosted[1..]) + MidWords(e.sMid))
  {
    PostedFirst(e.sPosted);
  }

  /** One session's view after a closure was run for it. */
  lemma TaskView(e: State, s: ServicerSess, s': ServicerSess, t: TalkId)
    requires StoreOk(e.store) && TalksNamed(e) && QueueAgrees(Queue(e), e.store)
    requires e.sMid == [] && e.sPosted != [] && s.key > 0 && !s'.missed
    requires Given(s, s', TaskSends(e.store, e.sPosted[0], NO_FAULTS, s.key))
    requires Settled(e, t) ==> Sound(ViewOf(Words(s.sent), s.key, t), OwnerOf(e.store, t), s.key)
    requires t in e.log.announced && t !in e.log.closed && !Mentions(PostedWords(e.sPosted[1..]) + MidWords(e.sMid), t)
    ensures Sound(ViewOf(Words(s'.sent), s'.key, t), OwnerOf(e.store, t), s'.key)
  {
    var k, v := e.sPosted[0], ViewOf(Words(s.sent), s.key, t);
    GivenView(s, s', TaskSends(e.store, k, NO_FAULTS, s.key), t);
    assert k in e.sPosted;
    TaskReads(e.store, k, s.key, v, t);
    QueueFirst(e);
    FirstNotificationReads(WordOfTask(k), PostedWords(e.sPosted[1..]) + MidWords(e.sMid), e.store, s.key, v, t);
  }

  /** The state after the first closure, whatever it made of the registry. */
  function TaskTaken(e: State, h: SL.ServicerHub): State
    requires e.sPosted != []
  {
    WithServicerHub(e.(sPosted := e.sPosted[1..]), h)
  }

  lemma TaskSession(e: State, h: SL.ServicerHub, q: nat)
    requires StoreOk(e.store) && TalksNamed(e) && ViewsSound(e) && !e.sLost && e.sMid == [] && e.sPosted != []
    requires Registered(e.s.hub, q) && e.s.hub.sess[q].key > 0 && q in h.sess
    requires Given(e.s.hub.sess[q], h.sess[q], TaskSends(e.store, e.sPosted[0], NO_FAULTS, e.s.hub.sess[q].key))
    ensures SessionSound(TaskTaken(e, h), q)
  {
    var s, s' := e.s.hub.sess[q], h.sess[q];
    assert SessionSound(e, q);
    if !s'.missed {
      forall t | Settled(TaskTaken(e, h), t)
        ensures Sound(ViewOf(Words(s'.sent), s'.key, t), OwnerOf(e.store, t), s'.key)
      {
        TaskView(e, s, s', t);
      }
    }
  }

  lemma TaskSound(e: State, late: set<nat>)
    requires ServicersOk(e.s) && StoreOk(e.store) && TalksNamed(e) && ViewsSound(e)
    ensures ViewsSound(RunServicerTask(e, NO_FAULTS, late))
  {
    var e' := RunServicerTask(e, NO_FAULTS, late);
    if !e.sLost && e.sMid == [] && e.sPosted != [] {
      QueueFirst(e);
      RestAgrees(WordOfTask(e.sPosted[0]), Queue(e'), e.store);
      assert e' == TaskTaken(e, e'.s.hub);
      forall q | Registered(e'.s.hub, q)
        ensures SessionSound(e', q)
      {
        LoopRegisters(e, ServeRunner(NO_FAULTS, late), q);
        RunnerPickGives(e, NO_FAULTS, late, q);
        TaskSession(e, e'.s.hub, q);
      }
    }
  }

  // ---- every step ----

  lemma ServicerLoopSound(e: State, p: ServicerPick)
    requires ServicersOk(e.s) && StoreOk(e.store) && TalksNamed(e) && ViewsSound(e) && Faultless(p)
    ensures ViewsSound(ServicerLoop(e, p))
  {
    match p
    case ServeAttach(f) => AttachSound(e);
    case ServeDetach(f) => DetachSound(e);
    case ServeRunner(f, late) => TaskSound(e, late);
    case ServeCall(down) => OwnCallKeeps(e); CarryViews(e, ServicerLoopCalls(e, false));
    case ServeInstall(f) => SnapshotSound(e, p);
    case ServeQueryAttached(q, f) => SnapshotSound(e, p);
    case ServeQueryPending(q, f) => SnapshotSound(e, p);
    case _ => QuietPickKeeps(e, p); CarryViews(e, ServicerLoop(e, p));
  }

  lemma StepSound(e: State, a: Step)
    requires ServicersOk(e.s) && StoreOk(e.store) && TalksNamed(e) && ViewsSound(e) && FaultlessStep(a)
    ensures ViewsSound(Next(e, a))
  {
    match a
    case CustomerStep(q, act) => CustomerActsKeepViews(e, q, act); CarryViews(e, CustomerActs(e, q, act));
    case CustomerLoopStep(pick) => CustomerLoopKeepsViews(e, pick); CarryViews(e, CustomerLoop(e, pick));
    case ServicerStep(q, act) => ServicerActsKeepViews(e, q, act); CarryViews(e, ServicerActs(e, q, act));
    case ServicerLoopStep(pick) => ServicerLoopSound(e, pick);
  }
}
