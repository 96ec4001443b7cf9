/** Running step by step, and the people and the talk of the example runs. */
module Runs {
  import opened Defs
  import opened TalkStore
  import opened Hubs
  import opened Sides
  import opened Engine
  import SL = ServicerLogic

  lemma RunOn(e: State, steps: seq<Step>, a: Step)
    ensures Run(e, steps + [a]) == Next(Run(e, steps), a)
  {
    assert (steps + [a])[..|steps|] == steps;
  }

  lemma {:induction false} RunMore(e: State, steps: seq<Step>, more: seq<Step>)
    ensures Run(e, steps + more) == Run(Run(e, steps), more)
  {
    if more == [] {
      assert steps + more == steps;
    } else {
      var front, a := more[..|more| - 1], more[|more| - 1];
      RunMore(e, steps, front);
      RunOn(e, steps + front, a);
      assert steps + more == (steps + front) + [a];
    }
  }

  lemma RunTwo(e: State, a: Step, b: Step)
    ensures Run(e, [a, b]) == Next(Next(e, a), b)
  {
    RunOn(e, [], a);
    RunOn(e, [a], b);
    assert [] + [a] == [a] && [a] + [b] == [a, b];
  }

  lemma RunThree(e: State, a: Step, b: Step, c: Step)
    ensures Run(e, [a, b, c]) == Next(Next(Next(e, a), b), c)
  {
    RunTwo(e, a, b);
    RunOn(e, [a, b], c);
    assert [a, b] + [c] == [a, b, c];
  }

  const TALK: TalkId := "000000000000000000000000"
  const INFO := TalkInfo(Opened, "title", 0, 0, 1, 0, "customer")
  const NOBODY: Side<nat, ServiceResponse> := Side(Hub(map[], map[]), map[], [], [], [], map[])
  const NO_CUSTOMERS: Side<TalkId, TalkResponse> := Side(Hub(map[], map[]), map[], [], [], [], map[])

  const ARRIVED: Sess<nat, ServiceResponse> := Sess(7, [], 0, false)
  const SERVED: Sess<nat, ServiceResponse> := Sess(7, [Talks([]), PendingTalks([])], 0, false)
  const WITH_SERVICER: Side<nat, ServiceResponse> :=
    Side(Hub(map[7 := {1}], map[1 := SERVED]), map[1 := Conn(Live, true, None, 0)], [], [], [], map[1 := 0])

  /** Servicer 7 connects as session 1. */
  const CONNECTING := [ServicerStep(1, ServicerConnect(7)), ServicerStep(1, ServicerQueue),
                       ServicerLoopStep(ServeInstall(NO_FAULTS))]

  const QUEUED_SERVICER: Side<nat, ServiceResponse> :=
    Side(Hub(map[], map[1 := ARRIVED]), map[1 := Conn(Live, true, None, 0)], [1], [], [], map[])

  /** When no talk is open, both lists of the install are empty. */
  lemma EmptySnapshots(st: Store)
    requires Attached(st, 7) == [] && Pending(st) == []
    ensures SL.InstallServicer(QUEUED_SERVICER.hub, st, 1, NO_FAULTS) == WITH_SERVICER.hub
  {
    var none: seq<Talk> := [];
    assert SL.WithMessages(st, none, {}) == [] && SL.Cards(none) == [];
    var told := SL.AttachedTalks(QUEUED_SERVICER.hub, st, 1, NO_FAULTS);
    assert told.sess[1] == Sess(7, [Talks([])], 0, false);
    var both := SL.PendingList(told, st, 1, false);
    assert both.sess[1] == SERVED;
    assert both == Hub(map[], map[1 := SERVED]);
    var entered: map<nat, set<nat>> := map[7 := {} + {1}];
    assert Enter(both, 1).reg == entered;
    assert {} + {1} == {1};
  }

  lemma Installed(e: State)
    requires e.sMid == [] && e.s == QUEUED_SERVICER && Attached(e.store, 7) == [] && Pending(e.store) == []
    ensures HandleServicerInstall(e, NO_FAULTS) == e.(s := WITH_SERVICER)
  {
    EmptySnapshots(e.store);
    assert TakeInstall(QUEUED_SERVICER).installed == map[1 := 0];
  }

  lemma ServicerComesIn(e: State)
    requires e.sMid == [] && e.s == NOBODY && Attached(e.store, 7) == [] && Pending(e.store) == []
    ensures Run(e, CONNECTING) == e.(s := WITH_SERVICER)
  {
    RunThree(e, CONNECTING[0], CONNECTING[1], CONNECTING[2]);
    var e2 := e.(s := QUEUED_SERVICER);
    assert ServicerQueuesInstall(ServicerConnects(e, 1, 7), 1) == e2;
    Installed(e2);
  }

  /** A closed talk is on no list. */
  lemma ClosedIsListedNowhere(st: Store)
    requires st.order == [TALK] && TALK in st.talks && st.talks[TALK].status == Closed
    ensures Attached(st, 7) == [] && Pending(st) == []
  {
    var filter := map[ServiceField := EqualNumber(7)] + map[StatusField := OneOf([Opened])];
    var pending := map[StatusField := OneOf([Opened]), ServiceField := EqualNumber(0)];
    var talk := Talk(TALK, st.talks[TALK]);
    assert StatusField in filter && !Matches(talk, filter);
    assert StatusField in pending && !Matches(talk, pending);
    assert st.order[..0] == [];
    assert Select(st, [], filter) == [] && Select(st, [], pending) == [];
  }

  lemma TalkIsWellFormed()
    ensures WellFormedId(TALK) && TALK != ""
  {
  }
}
