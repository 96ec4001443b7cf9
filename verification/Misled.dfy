/** A run with no failure and no loss in which a servicer is left believing that a talk of
    its own waits for an owner: it takes the talk over before the creation notice is posted. */
module Misled {
  import opened Defs
  import opened TalkStore
  import opened Hubs
  import opened Sides
  import opened AllInOne
  import opened Engine
  import opened Runs
  import opened ViewShapes
  import opened LateShapes
  import opened Creations
  import CL = CustomerLogic

  const START := State(Store(map[], [], map[]), NO_CUSTOMERS, [], [], false, [], {}, map[],
                       NOBODY, [], [], false, [], [], [], Log({}, [], {}, {}))

  const CONNECTED := START.(s := WITH_SERVICER)

  /** A customer creates the talk and queues its install as session 2. */
  const CREATING := [CustomerStep(2, Creates(TALK, INFO, false)), CustomerStep(2, QueuesInstall)]

  const WAITING: Sess<TalkId, TalkResponse> := Sess(TALK, [], 0, false)
  const WITH_CUSTOMER: Side<TalkId, TalkResponse> := Side(Hub(map[], map[2 := WAITING]),
                              map[2 := Conn(Live, true, None, 0)], [2], [], [], map[])
  const CREATED := CONNECTED.(store := Store(map[TALK := INFO], [TALK], map[]), c := WITH_CUSTOMER, makers := {2})

  /** The servicer takes the talk over; its attach closure is posted. */
  const TAKING := [ServicerStep(1, ServicerRequest(TALK, AttachRequest)), ServicerLoopStep(ServeAttach(NO_FAULTS)),
                   ServicerLoopStep(ServeCall(false))]

  const TAKEN := CREATED.(store := Store(map[TALK := INFO.(serviceID := 7)], [TALK], map[]),
                          sPosted := [TellAttach(TALK, 7)], log := Log({}, [Took(TALK, 7)], {}, {}))

  /** Only now is the customer's install handled and the creation announced. */
  const ANNOUNCING := [CustomerLoopStep(PickInstall(NO_FAULTS)), CustomerLoopStep(PickCall(false))]

  lemma Connects()
    ensures Run(START, CONNECTING) == CONNECTED
  {
    var none: seq<Talk> := [];
    assert Attached(START.store, 7) == none && Pending(START.store) == none;
    ServicerComesIn(START);
  }

  lemma CreatesTalk()
    ensures Run(CONNECTED, CREATING) == CREATED
  {
    RunTwo(CONNECTED, CREATING[0], CREATING[1]);
    TalkIsWellFormed();
    assert InsertTalk(CONNECTED.store, TALK, INFO) == CREATED.store;
    assert INFO.(status := Opened, serviceID := 0) == INFO;
    assert CustomerQueuesInstall(CreateTalk(CONNECTED, 2, TALK, INFO, false), 2) == CREATED;
  }

  const ASKED := CREATED.(attaches := [Request(1, TALK)])

  lemma IsAsked()
    ensures ServicerRequests(CREATED, 1, TALK, AttachRequest) == ASKED
  {
    TalkIsWellFormed();
  }

  const HANDLED := TAKEN.(sPosted := [], sMid := [ServicerOnAttach(TALK, 7)])

  lemma IsHandled()
    ensures HandleAttach(ASKED, NO_FAULTS) == HANDLED
  {
    TalkIsWellFormed();
    assert UpdateTalk(ASKED.store, TALK, SetService(7)) == TAKEN.store;
    assert [] + [Took(TALK, 7)] == [Took(TALK, 7)];
  }

  lemma TakesTalk()
    ensures Run(CREATED, TAKING) == TAKEN
  {
    RunThree(CREATED, TAKING[0], TAKING[1], TAKING[2]);
    IsAsked();
    IsHandled();
    assert ServicerLoopCalls(HANDLED, false) == TAKEN;
  }

  lemma Announces()
    ensures var x := Run(TAKEN, ANNOUNCING);
            && x.sPosted == [TellAttach(TALK, 7), TellCreate(TALK)] && x.sMid == [] && !x.sLost
            && x.s == WITH_SERVICER && x.store == TAKEN.store && TALK in x.log.announced && x.log.closed == {}
  {
    RunTwo(TAKEN, ANNOUNCING[0], ANNOUNCING[1]);
    TalkIsWellFormed();
    var e1 := HandleCustomerInstall(TAKEN, NO_FAULTS);
    assert CL.Installable(TAKEN.store, TALK, NO_FAULTS);
    assert e1.cMid == [ServicerOnCreate(TALK)];
  }

  const RUN := CONNECTING + CREATING + TAKING + ANNOUNCING

  lemma RunEnds()
    ensures Run(START, RUN) == Run(TAKEN, ANNOUNCING)
  {
    Connects();
    CreatesTalk();
    TakesTalk();
    RunMore(START, CONNECTING, CREATING);
    RunMore(START, CONNECTING + CREATING, TAKING);
    RunMore(START, CONNECTING + CREATING + TAKING, ANNOUNCING);
  }

  lemma NothingFails()
    ensures forall a | a in RUN :: FaultlessStep(a)
  {
    forall a | a in RUN
      ensures FaultlessStep(a)
    {
      assert a in CONNECTING || a in CREATING || a in TAKING || a in ANNOUNCING;
    }
  }

  /** The view theorem's exception is real: here everything its claim asks for holds, the
      servicer owns the talk, and its replayed view says the talk waits for an owner; the
      notice came too late, as the theorem says it must have. */
  lemma CreationNoticeCanMislead()
    ensures Init(START) && forall a | a in RUN :: FaultlessStep(a)
    ensures var x := Run(START, RUN);
            && !x.sLost && Registered(x.s.hub, 1) && !x.s.hub.sess[1].missed && x.s.hub.sess[1].key == 7
            && TALK in x.log.announced && TALK !in x.log.closed && OwnerOf(x.store, TALK) == 7
            && ViewOf(Words(x.s.hub.sess[1].sent) + Queue(x), 7, TALK) == View(false, true, true, true)
            && !Right(ViewOf(Words(x.s.hub.sess[1].sent) + Queue(x), 7, TALK), 7, 7)
    ensures LateOwner(START, RUN, TALK) == Some(7)
  {
    NothingFails();
    RunEnds();
    Announces();
    var x := Run(START, RUN);
    var ws := Words(x.s.hub.sess[1].sent) + Queue(x);
    var created := Owned(TALK, 0, true);
    assert Queue(x) == [Owned(TALK, 7, false), created];
    assert ws == ws[..|ws| - 1] + [created];
    EachHalfOfTheTruth(START, RUN, 1, TALK);
  }
}
