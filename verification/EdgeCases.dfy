/** Two corners of the servicer side: an empty registry entry is reached by a run, and a reload
    request without a talk id is answered with two different talks' parts. */
module EdgeCases {
  import opened Defs
  import opened TalkStore
  import opened Hubs
  import opened Sides
  import opened Engine
  import opened SendShapes
  import opened Runs
  import SL = ServicerLogic

  // ---- an empty entry ----

  const SHUT := Store(map[TALK := INFO.(serviceID := 7, status := Closed)], [TALK], map[])

  /** Servicer 7 owns a closed talk and connects as session 1. */
  const START := State(SHUT, NO_CUSTOMERS, [], [], false, [], {}, map[],
                       NOBODY, [], [], false, [], [], [], Log({}, [], {TALK}, {TALK}))

  /** The session after n more pending lists, none of them taken from its queue. */
  function Flooded(n: nat): Sess<nat, ServiceResponse> {
    Sess(7, [Talks([])] + seq(n + 1, _ => PendingTalks([])), 0, false)
  }

  function FloodedSide(n: nat): Side<nat, ServiceResponse> {
    WITH_SERVICER.(hub := Hub(map[7 := {1}], map[1 := Flooded(n)]))
  }

  function Queries(n: nat): seq<Step> {
    seq(n, _ => ServicerLoopStep(ServeQueryPending(1, NO_FAULTS)))
  }

  lemma OneMoreList(e: State, n: nat)
    requires e == START.(s := FloodedSide(n)) && n < 98
    ensures HandleQueryPending(e, 1, NO_FAULTS) == START.(s := FloodedSide(n + 1))
  {
    ClosedIsListedNowhere(SHUT);
    var none: seq<Talk> := [];
    assert SL.Cards(none) == [];
    assert Flooded(n).sent + [PendingTalks([])] == Flooded(n + 1).sent;
    assert SL.PendingList(e.s.hub, SHUT, 1, false).sess[1] == Flooded(n + 1);
    assert SL.PendingList(e.s.hub, SHUT, 1, false) == FloodedSide(n + 1).hub;
  }

  lemma {:induction false} Floods(n: nat)
    requires n <= 98
    ensures Run(START.(s := FloodedSide(0)), Queries(n)) == START.(s := FloodedSide(n))
  {
    if n > 0 {
      Floods(n - 1);
      RunOn(START.(s := FloodedSide(0)), Queries(n - 1), ServicerLoopStep(ServeQueryPending(1, NO_FAULTS)));
      assert Queries(n) == Queries(n - 1) + [ServicerLoopStep(ServeQueryPending(1, NO_FAULTS))];
      OneMoreList(START.(s := FloodedSide(n - 1)), n - 1);
    } else {
      assert Queries(0) == [];
    }
  }

  /** It then sends a message of its talk, which cannot be confirmed to it. */
  const SPEAKING := [ServicerStep(1, ServicerReceive(TALK, 0, "hello", 0, false)), ServicerStep(1, ServicerEnqueue),
                     ServicerLoopStep(ServeMessage(NO_FAULTS, false))]

  const SPOKEN := Msg(0, "hello", Sender(false, 1), 0)

  lemma IsStored(e: State)
    requires e == START.(s := FloodedSide(98))
    ensures ServicerEnqueues(ServicerReceives(e, 1, TALK, 0, "hello", 0, false), 1)
         == e.(store := SHUT.(messages := map[TALK := [SPOKEN]]),
               s := FloodedSide(98).(inbox := [Incoming(1, TALK, 0, SPOKEN)],
                                     conns := map[1 := Conn(Live, true, None, 1)]))
  {
    TalkIsWellFormed();
    assert [] + [SPOKEN] == [SPOKEN];
    var held := Conn(Live, true, Some(Incoming(1, TALK, 0, SPOKEN)), 1);
    assert ServicerReceives(e, 1, TALK, 0, "hello", 0, false)
        == e.(store := SHUT.(messages := map[TALK := [SPOKEN]]), s := FloodedSide(98).(conns := map[1 := held]));
  }

  lemma IsEvicted(e: State)
    requires e.sMid == [] && e.s.hub == FloodedSide(98).hub && e.s.inbox == [Incoming(1, TALK, 0, SPOKEN)]
    requires e.store == SHUT.(messages := map[TALK := [SPOKEN]])
    ensures var h := HandleServicerMessage(e, NO_FAULTS, false).s.hub; 7 in h.reg && h.reg[7] == {}
  {
    TalkIsWellFormed();
    assert Full(Flooded(98));
    assert {1} - {1} == {};
  }

  lemma SpeakingEvicts()
    ensures var x := Run(START.(s := FloodedSide(98)), SPEAKING);
            7 in x.s.hub.reg && x.s.hub.reg[7] == {}
  {
    var e := START.(s := FloodedSide(98));
    RunThree(e, SPEAKING[0], SPEAKING[1], SPEAKING[2]);
    IsStored(e);
    IsEvicted(ServicerEnqueues(ServicerReceives(e, 1, TALK, 0, "hello", 0, false), 1));
  }

  const RUN := CONNECTING + Queries(98) + SPEAKING

  /** A confirmation leaves an empty inner map behind: after this run the servicer's entry is
      there and holds nobody. */
  lemma EmptyEntryIsReached()
    ensures Init(START)
    ensures var x := Run(START, RUN); 7 in x.s.hub.reg && x.s.hub.reg[7] == {}
  {
    ClosedIsListedNowhere(SHUT);
    ServicerComesIn(START);
    assert Flooded(0).sent == SERVED.sent;
    assert START.(s := WITH_SERVICER) == START.(s := FloodedSide(0));
    Floods(98);
    SpeakingEvicts();
    RunMore(START, CONNECTING, Queries(98));
    RunMore(START, CONNECTING + Queries(98), SPEAKING);
    TalkIsWellFormed();
  }

  // ---- a reload without a talk id ----

  /** Every reply has its talk's own messages exactly when the request names a talk, or the
      messages stored under no talk id happen to be those of the first talk. */
  lemma ReloadMatchesIff(st: Store, t: TalkId)
    requires StoreOk(st) && Lookup(st, t).Some?
    ensures ReloadSends(st, t, false, NO_FAULTS)
            == [Reload(TalkAndMessages(Card(Lookup(st, t).value), MessagesOf(st, t)))]
    ensures t == "" ==> Lookup(st, t).value.id == st.order[0] && st.order[0] != t
    ensures MessagesOf(st, t) == MessagesOf(st, Lookup(st, t).value.id)
            <==> t != "" || MessagesOf(st, "") == MessagesOf(st, st.order[0])
  {
    assert t == "" ==> WellFormedId(st.order[0]);
  }
}
