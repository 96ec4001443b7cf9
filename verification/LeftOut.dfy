/** A run with no failure and no loss after which a session of a talk's owner has a gap: the
    session was installed while the talk was closed, and reopening the talk tells nobody. */
module LeftOut {
  import opened Defs
  import opened TalkStore
  import opened Hubs
  import opened Sides
  import opened AllInOne
  import opened Engine
  import opened Shapes
  import opened Runs
  import opened SendShapes
  import opened ViewShapes
  import opened OwnerGapShapes
  import opened NoGapServicers
  import CL = CustomerLogic
  import SL = ServicerLogic

  const OWNED := Store(map[TALK := INFO.(serviceID := 7)], [TALK], map[])

  /** Servicer 7 owns the talk and is not connected. */
  const START := State(OWNED, NO_CUSTOMERS, [], [], false, [], {}, map[],
                       NOBODY, [], [], false, [], [], [], Log({}, [], {TALK}, {}))

  const SPOKEN := Msg(0, "hello", Sender(true, 2), 0)

  function Customer(sent: seq<TalkResponse>, next: nat, inbox: seq<Incoming>): Side<TalkId, TalkResponse> {
    Side(Hub(map[TALK := {2}], map[2 := Sess(TALK, sent, 0, false)]), map[2 := Conn(Live, true, None, next)], [], [],
         inbox, map[2 := 0])
  }

  /** A customer opens the talk as session 2. */
  const OPENING := [CustomerStep(2, Opens(TALK, false)), CustomerStep(2, QueuesInstall),
                    CustomerLoopStep(PickInstall(NO_FAULTS))]

  const OPEN := START.(c := Customer([], 0, []), history := map[2 := ToRead])

  const WAITING: Sess<TalkId, TalkResponse> := Sess(TALK, [], 0, false)
  const WITH_CUSTOMER: Side<TalkId, TalkResponse> :=
    Side(Hub(map[], map[2 := WAITING]), map[2 := Conn(Live, true, None, 0)], [2], [], [], map[])
  const ENTERING := START.(c := WITH_CUSTOMER)

  lemma OpensConnection()
    ensures CustomerQueuesInstall(OpenTalk(START, 2, TALK, false), 2) == ENTERING
  {
    assert UpdateTalk(OWNED, TALK, SetStatus(Opened)) == OWNED;
  }

  lemma OpensInstall()
    ensures HandleCustomerInstall(ENTERING, NO_FAULTS) == OPEN
  {
    TalkIsWellFormed();
    assert CL.Installable(OWNED, TALK, NO_FAULTS);
    assert {} + {2} == {2};
    assert Enter(WITH_CUSTOMER.hub, 2) == OPEN.c.hub;
    assert TakeInstall(WITH_CUSTOMER).installed == map[2 := 0];
  }

  lemma OpensTalk()
    ensures Run(START, OPENING) == OPEN
  {
    RunThree(START, OPENING[0], OPENING[1], OPENING[2]);
    OpensConnection();
    OpensInstall();
  }

  /** It says something, which goes on the bus. */
  const SPEAKING := [CustomerStep(2, Receives(0, "hello", 0, false)), CustomerStep(2, Enqueues),
                     CustomerLoopStep(PickMessage(false))]

  const SAID := OPEN.(store := OWNED.(messages := map[TALK := [SPOKEN]]),
                      c := Customer([TalkResponse.MessageConfirmed(0, 0)], 1, []),
                      cMid := [CustomerOnMessage(TALK, SPOKEN), ServicerOnMessage(TALK, SPOKEN)],
                      log := Log({(TALK, SPOKEN)}, [], {TALK}, {}))

  const HOLDING := OPEN.(store := SAID.store,
                         c := OPEN.c.(conns := map[2 := Conn(Live, true, Some(Incoming(2, TALK, 0, SPOKEN)), 1)]))

  lemma IsStored()
    ensures CustomerReceives(OPEN, 2, 0, "hello", 0, false) == HOLDING
  {
    assert Reading(OPEN.c, 2);
    assert [] + [SPOKEN] == [SPOKEN];
    assert InsertMessage(OWNED, TALK, SPOKEN) == SAID.store;
  }

  lemma IsEnqueued()
    ensures CustomerEnqueues(HOLDING, 2)
            == OPEN.(store := SAID.store, c := Customer([], 1, [Incoming(2, TALK, 0, SPOKEN)]))
  {
    TalkIsWellFormed();
    assert Enqueue(HOLDING.c, 2, true) == Customer([], 1, [Incoming(2, TALK, 0, SPOKEN)]);
  }

  lemma IsPutOnTheBus(e: State)
    requires e == OPEN.(store := SAID.store, c := Customer([], 1, [Incoming(2, TALK, 0, SPOKEN)]))
    ensures HandleCustomerMessage(e, false) == SAID
  {
    assert e.log.bus + {(TALK, SPOKEN)} == {(TALK, SPOKEN)};
    var r := TalkResponse.MessageConfirmed(0, 0);
    assert Offer(e.c.hub.sess[2], r).sent == [r];
    assert CL.CustomerMessageIncoming(e.c.hub, e.store, 2, 0, SPOKEN, false).hub == SAID.c.hub;
  }

  lemma Speaks()
    ensures Run(OPEN, SPEAKING) == SAID
  {
    RunThree(OPEN, SPEAKING[0], SPEAKING[1], SPEAKING[2]);
    IsStored();
    IsEnqueued();
    IsPutOnTheBus(OPEN.(store := SAID.store, c := Customer([], 1, [Incoming(2, TALK, 0, SPOKEN)])));
  }

  /** The closure for the servicers runs while no session of the owner is there. */
  const PASSING := [CustomerLoopStep(PickCall(false)), CustomerLoopStep(PickCall(false)),
                    ServicerLoopStep(ServeRunner(NO_FAULTS, {}))]

  const PASSED := SAID.(cMid := [], cPosted := [CastMessage(TALK, SPOKEN)])

  lemma IsPosted()
    ensures CustomerLoopCalls(CustomerLoopCalls(SAID, false), false) == PASSED.(sPosted := [TellMessage(TALK, SPOKEN)])
  {
    assert CustomerLoopCalls(SAID, false)
        == SAID.(cMid := [ServicerOnMessage(TALK, SPOKEN)], cPosted := [CastMessage(TALK, SPOKEN)]);
  }

  lemma IsMissed()
    ensures RunServicerTask(PASSED.(sPosted := [TellMessage(TALK, SPOKEN)]), NO_FAULTS, {}) == PASSED
  {
    TalkIsWellFormed();
    assert SL.RunTask(NOBODY.hub, PASSED.store, TellMessage(TALK, SPOKEN), NO_FAULTS, {}) == NOBODY.hub;
  }

  lemma Passes()
    ensures Run(SAID, PASSING) == PASSED
  {
    RunThree(SAID, PASSING[0], PASSING[1], PASSING[2]);
    IsPosted();
    IsMissed();
  }

  /** The customer closes the talk. */
  const CLOSING := [CustomerStep(2, RequestsClose), CustomerLoopStep(PickClose(NO_FAULTS))]

  const SHUT := Store(map[TALK := INFO.(serviceID := 7, status := Closed)], [TALK], map[TALK := [SPOKEN]])
  const CLOSED := PASSED.(store := SHUT,
                          cMid := [CustomerOnClose(TALK), ServicerOnClose(TALK)],
                          log := Log({(TALK, SPOKEN)}, [], {TALK}, {TALK}))

  lemma IsClosed()
    ensures HandleCustomerClose(PASSED.(closes := [2]), NO_FAULTS) == CLOSED
  {
    assert UpdateTalk(PASSED.store, TALK, SetStatus(Closed)) == SHUT;
    assert {} + {TALK} == {TALK};
  }

  lemma Closes()
    ensures Run(PASSED, CLOSING) == CLOSED
  {
    RunTwo(PASSED, CLOSING[0], CLOSING[1]);
    assert CustomerRequestsClose(PASSED, 2) == PASSED.(closes := [2]);
    IsClosed();
  }

  /** Now the servicer connects, and then another customer reopens the talk. */
  const REOPENING := [CustomerStep(3, Opens(TALK, false))]

  lemma ConnectsWhileClosed()
    ensures Run(CLOSED, CONNECTING) == CLOSED.(s := WITH_SERVICER)
  {
    ClosedIsListedNowhere(CLOSED.store);
    ServicerComesIn(CLOSED);
  }

  lemma Reopens()
    ensures var x := Run(CLOSED.(s := WITH_SERVICER), REOPENING);
            && x.s == WITH_SERVICER && x.sPosted == [] && x.sMid == [] && !x.sLost && x.log == CLOSED.log
            && x.cMid == CLOSED.cMid && OwnerOf(x.store, TALK) == 7 && IsOpened(x.store, TALK)
  {
    RunOn(CLOSED.(s := WITH_SERVICER), [], REOPENING[0]);
    assert [] + [REOPENING[0]] == REOPENING;
  }

  const RUN := OPENING + SPEAKING + PASSING + CLOSING + CONNECTING + REOPENING

  lemma RunEnds()
    ensures Run(START, RUN) == Run(CLOSED.(s := WITH_SERVICER), REOPENING)
  {
    OpensTalk();
    Speaks();
    Passes();
    Closes();
    ConnectsWhileClosed();
    RunMore(START, OPENING, SPEAKING);
    RunMore(START, OPENING + SPEAKING, PASSING);
    RunMore(START, OPENING + SPEAKING + PASSING, CLOSING);
    RunMore(START, OPENING + SPEAKING + PASSING + CLOSING, CONNECTING);
    RunMore(START, OPENING + SPEAKING + PASSING + CLOSING + CONNECTING, REOPENING);
  }

  lemma NothingFails()
    ensures forall a | a in RUN :: FaultlessStep(a)
  {
    forall a | a in RUN
      ensures FaultlessStep(a)
    {
      assert a in OPENING || a in SPEAKING || a in PASSING || a in CLOSING || a in CONNECTING || a in REOPENING;
    }
  }

  lemma NeverShown(x: State)
    requires x.s == WITH_SERVICER && x.sPosted == [] && x.sMid == [] && x.cMid == CLOSED.cMid
    ensures Registered(x.s.hub, 1) && !x.s.hub.sess[1].missed && x.s.hub.sess[1].key == 7
    ensures !ReachedBy(x, 1, TALK, SPOKEN) && !AttachQueued(x, TALK, 7)
  {
    assert x.s.hub.sess[1].sent == [Talks([]), PendingTalks([])];
  }

  /** The gap theorem's exception is real: the talk is open and owned by the session's user,
      nothing was lost or missed and nothing is queued, but the session was never shown the
      message the talk had on the bus and will not get it; it was left out, as the theorem
      says it must have been. */
  lemma ReopenedTalkCanLeaveAGap()
    ensures Init(START) && forall a | a in RUN :: FaultlessStep(a)
    ensures var x := Run(START, RUN);
            && !x.sLost && Registered(x.s.hub, 1) && !x.s.hub.sess[1].missed && x.s.hub.sess[1].key == 7
            && OwnerOf(x.store, TALK) == 7 && IsOpened(x.store, TALK) && !AttachQueued(x, TALK, 7)
            && (TALK, SPOKEN) in x.log.bus && !ReachedBy(x, 1, TALK, SPOKEN)
    ensures Unlisted(START, RUN, 1, TALK)
  {
    TalkIsWellFormed();
    NothingFails();
    RunEnds();
    Reopens();
    NeverShown(Run(START, RUN));
    NoGapForServicers(START, RUN, 1, TALK, SPOKEN);
  }
}
