/** The history a joining customer is sent: once, under its talk, and it is the talk's stored
    list as it stood at one moment. */
module CustomerHistories {
  import opened Defs
  import opened TalkStore
  import opened Hubs
  import opened Sides
  import opened Engine
  import opened Shapes
  import opened EngineFacts
  import opened Frames
  import opened Lifetimes
  import opened OfferShapes
  import opened OfferFacts
  import opened Streams

  lemma ActsMoveHistory(e: State, x: nat, a: CustomerAct, q: nat)
    requires forall p | p in e.history :: p in e.c.hub.sess
    ensures HistoryMoves(e, CustomerActs(e, x, a), CustomerStep(x, a), q)
  {
  }

  lemma InstallMovesHistory(e: State, f: Faults, q: nat)
    requires KeysStored(e) && forall p | p in e.c.install :: p !in e.history
    ensures HistoryMoves(e, HandleCustomerInstall(e, f), CustomerLoopStep(PickInstall(f)), q)
  {
  }

  lemma PicksKeepHistory(e: State, p: CustomerPick, q: nat)
    requires !p.PickInstall?
    ensures HistoryMoves(e, CustomerLoop(e, p), CustomerLoopStep(p), q)
  {
  }

  lemma ServicersKeepHistory(e: State, a: Step, q: nat)
    requires a.ServicerStep? || a.ServicerLoopStep?
    ensures HistoryMoves(e, Next(e, a), a, q)
  {
  }

  lemma HistoryStep(e: State, a: Step, q: nat)
    requires EngineOk(e)
    ensures HistoryMoves(e, Next(e, a), a, q)
  {
    match a
    case CustomerStep(x, act) => ActsMoveHistory(e, x, act, q);
    case CustomerLoopStep(p) =>
      if p.PickInstall? {
        SessionsOfEngine(e);
        InstallMovesHistory(e, p.f, q);
      } else {
        PicksKeepHistory(e, p, q);
      }
    case _ => ServicersKeepHistory(e, a, q);
  }

  /** In every run the routine that sends a session its history is started when its install is
      granted, and else never. */
  lemma {:induction false} HistoryStartedIff(e: State, steps: seq<Step>, q: nat)
    requires Init(e)
    ensures HistoryOf(Run(e, steps), q).Some? <==> CustomerEverGranted(e, steps, q)
  {
    if steps != [] {
      var before, a := steps[..|steps| - 1], steps[|steps| - 1];
      InitOk(e);
      RunOk(e, before);
      HistoryStartedIff(e, before, q);
      HistoryStep(Run(e, before), a, q);
    }
  }

  lemma {:induction false} HistoriesConcat(a: seq<TalkResponse>, b: seq<TalkResponse>)
    ensures Histories(a + b) == Histories(a) + Histories(b)
  {
    if b == [] {
      assert a + b == a;
    } else {
      var front := b[..|b| - 1];
      HistoriesConcat(a, front);
      assert (a + b)[..|a + b| - 1] == a + front;
    }
  }

  lemma {:induction false} HistoriesHold(rs: seq<TalkResponse>, r: TalkResponse)
    ensures r in Histories(rs) <==> r in rs && r.Messages?
  {
    if rs != [] {
      HistoriesHold(rs[..|rs| - 1], r);
      assert rs == rs[..|rs| - 1] + [rs[|rs| - 1]];
    }
  }

  /** The only histories offered are those the step that sends one offers. */
  lemma OfferedHistories(e: State, a: Step, q: nat)
    requires q in e.c.hub.sess
    ensures Histories(CustomerOffers(e, a, q))
         == if a == CustomerStep(q, SendsHistory) && HistoryOf(e, q).Some? && HistoryOf(e, q).value.ToSend? then
              [TalkResponse.Messages(e.c.hub.sess[q].key, HistoryOf(e, q).value.messages)]
            else []
  {
    var rs := CustomerOffers(e, a, q);
    if rs != [] {
      assert rs == [rs[0]] && rs[..0] == [];
    }
  }

  lemma ToldOnceMoves(t: TalkId, list: seq<Msg>, list': seq<Msg>, h: Option<History>, h': Option<History>,
                      told: seq<TalkResponse>, more: seq<TalkResponse>, given: bool)
    requires ToldOnce(t, list, h, told, given) && list <= list'
    requires if h.Some? && h.value.ToSend? && more != [] then
               h' == Some(Ended) && more == [TalkResponse.Messages(t, h.value.messages)]
             else
               && more == []
               && (|| h' == h || (h == None && h' == Some(ToRead)) || (h == Some(ToRead) && h' == Some(ToSend(list)))
                   || (h == Some(ToRead) && h' == Some(Ended) && !given))
    ensures ToldOnce(t, list', h', told + more, given)
  {
  }

  lemma SameTalk(e: State, a: Step, q: nat)
    requires EngineOk(e) && q in e.c.hub.sess
    ensures q in Next(e, a).c.hub.sess && Next(e, a).c.hub.sess[q].key == e.c.hub.sess[q].key
    ensures forall t :: MessagesOf(e.store, t) <= MessagesOf(Next(e, a).store, t)
  {
    StepOk(e, a);
  }

  lemma ToldOnceStep(e: State, a: Step, q: nat, offers: seq<TalkResponse>, given: bool)
    requires EngineOk(e) && q in e.c.hub.sess && ToldTo(e, q, offers, given)
    requires given ==> a != CustomerStep(q, ReadsHistory(true))
    ensures q in Next(e, a).c.hub.sess && ToldTo(Next(e, a), q, offers + CustomerOffers(e, a, q), given)
  {
    var e', t := Next(e, a), e.c.hub.sess[q].key;
    SameTalk(e, a, q);
    HistoryStep(e, a, q);
    OfferedHistories(e, a, q);
    HistoriesConcat(offers, CustomerOffers(e, a, q));
    ToldOnceMoves(t, MessagesOf(e.store, t), MessagesOf(e'.store, t), HistoryOf(e, q), HistoryOf(e', q),
                  Histories(offers), Histories(CustomerOffers(e, a, q)), given);
  }

  lemma NobodyUnknown(e: State, q: nat)
    requires EngineOk(e) && q !in e.c.hub.sess
    ensures q !in e.history
  {
  }

  lemma NewcomersAreNew(e: State, a: Step, q: nat)
    requires EngineOk(e) && q !in e.c.hub.sess
    ensures HistoryOf(Next(e, a), q) == None || HistoryOf(Next(e, a), q) == Some(ToRead)
  {
    HistoryStep(e, a, q);
    NobodyUnknown(e, q);
  }

  /** Over a run: `given` is promised if no read of the session's history fails. */
  lemma {:induction false} RunToldOnce(e: State, steps: seq<Step>, q: nat, given: bool)
    requires Init(e) && (given ==> CustomerStep(q, ReadsHistory(true)) !in steps)
    ensures q in Run(e, steps).c.hub.sess
            ==> ToldTo(Run(e, steps), q, AllCustomerOffers(e, steps, q), given)
  {
    if steps != [] {
      var before, a := steps[..|steps| - 1], steps[|steps| - 1];
      var x := Run(e, before);
      InitOk(e);
      RunOk(e, before);
      RunToldOnce(e, before, q, given);
      if q in x.c.hub.sess {
        ToldOnceStep(x, a, q, AllCustomerOffers(e, before, q), given);
      } else if q in Next(x, a).c.hub.sess {
        NewcomersAreNew(x, a, q);
        CustomerStream(e, before, q);
        assert AllCustomerOffers(e, steps, q) == [];
      }
    }
  }

  // ---- as often as offered ----

  lemma OneOffer(e: State, a: Step, q: nat)
    requires q in e.c.hub.sess
    ensures |CustomerOffers(e, a, q)| <= 1
  {
  }

  lemma OneHistory(r: TalkResponse)
    ensures Histories([r]) == if r.Messages? then [r] else []
  {
    assert [r][..0] == [];
  }

  lemma MoreHistories(sent: seq<TalkResponse>, more: seq<TalkResponse>, rs: seq<TalkResponse>)
    requires more == [] || (|more| == 1 && |rs| == 1 && (more[0] == rs[0] || more[0].KickOut?))
    ensures |Histories(sent + more)| <= |Histories(sent)| + |Histories(rs)|
  {
    HistoriesConcat(sent, more);
    if more == [] {
      assert |Histories(sent + more)| == |Histories(sent)|;
    } else {
      assert more == [more[0]] && rs == [rs[0]];
      OneHistory(more[0]);
      OneHistory(rs[0]);
      assert |Histories(more)| <= |Histories(rs)|;
    }
  }

  lemma HistoriesArrive(s: CustomerSess, s': CustomerSess, offers: seq<TalkResponse>, rs: seq<TalkResponse>)
    requires Offered(s, s', rs) && |rs| <= 1 && |Histories(s.sent)| <= |Histories(offers)|
    ensures |Histories(s'.sent)| <= |Histories(offers + rs)|
  {
    var more := s'.sent[|s.sent|..];
    assert s'.sent == s.sent + more;
    HistoriesConcat(offers, rs);
    if more != [] {
      assert more[0] == s'.sent[|s.sent|];
    }
    MoreHistories(s.sent, more, rs);
  }

  lemma StepHistories(e: State, a: Step, q: nat, offers: seq<TalkResponse>)
    requires EngineOk(e) && q in e.c.hub.sess && |Histories(e.c.hub.sess[q].sent)| <= |Histories(offers)|
    ensures q in Next(e, a).c.hub.sess
    ensures |Histories(Next(e, a).c.hub.sess[q].sent)| <= |Histories(offers + CustomerOffers(e, a, q))|
  {
    CustomerStepOffers(e, a, q);
    OneOffer(e, a, q);
    HistoriesArrive(e.c.hub.sess[q], Next(e, a).c.hub.sess[q], offers, CustomerOffers(e, a, q));
  }

  lemma {:induction false} NotMoreHistories(e: State, steps: seq<Step>, q: nat)
    requires Init(e)
    ensures q in Run(e, steps).c.hub.sess
            ==> |Histories(Run(e, steps).c.hub.sess[q].sent)| <= |Histories(AllCustomerOffers(e, steps, q))|
  {
    if steps != [] {
      var before, a := steps[..|steps| - 1], steps[|steps| - 1];
      var x := Run(e, before);
      InitOk(e);
      RunOk(e, before);
      NotMoreHistories(e, before, q);
      if q in x.c.hub.sess {
        StepHistories(x, a, q, AllCustomerOffers(e, before, q));
      } else if q in Next(x, a).c.hub.sess {
        CustomersMade(x, a, q);
      }
    }
  }

  /** The history is the persisted list. In every run, a customer's stream has at most one
      history; it names the session's talk, and it is the beginning of the talk's stored
      list, in order and without repetition: the list as it stood when it was read. If the
      read did not fail and the session missed nothing, there is one as soon as the routine
      that sends it has ended. */
  lemma HistoryIsThePersistedList(e: State, steps: seq<Step>, q: nat)
    requires Init(e)
    ensures var x := Run(e, steps);
            q in x.c.hub.sess
            ==> var s, t, hs := x.c.hub.sess[q], x.c.hub.sess[q].key, Histories(x.c.hub.sess[q].sent);
                && |hs| <= 1
                && (forall r | r in hs :: r.Messages? && r.talkId == t && r.messages <= MessagesOf(x.store, t))
                && (!s.missed && HistoryOf(x, q) == Some(Ended) && CustomerStep(q, ReadsHistory(true)) !in steps
                    ==> |hs| == 1)
  {
    var x, offers := Run(e, steps), AllCustomerOffers(e, steps, q);
    CustomerStream(e, steps, q);
    RunToldOnce(e, steps, q, CustomerStep(q, ReadsHistory(true)) !in steps);
    NotMoreHistories(e, steps, q);
    if q in x.c.hub.sess {
      forall r | r in Histories(x.c.hub.sess[q].sent)
        ensures r in Histories(offers)
      {
        HistoriesHold(x.c.hub.sess[q].sent, r);
        HistoriesHold(offers, r);
      }
    }
  }
}
