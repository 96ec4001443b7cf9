/** What each step does to the stored talks, told by the step's request. */
module StoreShapes {
  import opened Defs
  import opened TalkStore
  import opened Hubs
  import opened Sides
  import opened Engine
  import opened CallShapes

  /** The talk a step creates: a titled one, under the id the database makes for it. */
  function TalkCreated(e: State, a: Step): Option<TalkId> {
    if a.CustomerStep? && a.customerAct.Creates? && a.q != 0 && a.q !in e.c.conns && !a.customerAct.down
       && a.customerAct.info.title != "" && WellFormedId(a.customerAct.t) && a.customerAct.t !in e.store.talks then
      Some(a.customerAct.t)
    else None
  }

  /** And the session that created it. */
  function Creator(e: State, a: Step): Option<nat> {
    if TalkCreated(e, a).Some? then Some(a.q) else None
  }

  /** The status a step gives talk t: opened by creating or opening it, closed by a closing. */
  function StatusGiven(e: State, a: Step, t: TalkId): Option<Status> {
    match a
    case CustomerStep(q, Creates(_, _, _)) => if TalkCreated(e, a) == Some(t) then Some(Opened) else None
    case CustomerStep(q, Opens(x, down)) =>
      if q != 0 && q !in e.c.conns && !down && x == t && t in e.store.talks then Some(Opened) else None
    case CustomerLoopStep(p) => if CustomerCall(e, p) == Some(SendTalkClose(t)) then Some(Closed) else None
    case _ => None
  }

  /** The message a step stores under t. */
  function MessageStored(t: TalkId): (State, Step) -> Option<Msg> {
    (e: State, a: Step) =>
      match a
      case CustomerStep(q, Receives(at, text, _, down)) =>
        if Reading(e.c, q) && !down && e.c.hub.sess[q].key == t then
          Some(Msg(at, text, Sender(true, q), e.c.conns[q].next))
        else None
      case ServicerStep(q, ServicerReceive(x, at, text, _, down)) =>
        if Reading(e.s, q) && !down && x == t then Some(Msg(at, text, Sender(false, q), e.s.conns[q].next)) else None
      case _ => None
  }

  /** What a step does to the store, as seen from talk t. */
  ghost predicate StoreStep(e: State, e': State, a: Step, t: TalkId) {
    && e'.store.order == e.store.order + Listed(TalkCreated(e, a))
    && MessagesOf(e'.store, t) == MessagesOf(e.store, t) + Listed(MessageStored(t)(e, a))
    && (t in e'.store.talks <==> t in e.store.talks || TalkCreated(e, a) == Some(t))
    && (t in e'.store.talks ==>
          e'.store.talks[t].status == match StatusGiven(e, a, t)
                                      case Some(s) => s
                                      case None => if t in e.store.talks then e.store.talks[t].status else Opened)
  }

  /** What a step does to the record of announced and closed talks, as seen from talk t. */
  ghost predicate LogsMove(e: State, e': State, a: Step, t: TalkId) {
    && (t in e'.log.announced <==> t in e.log.announced || CallbackMade(e, a) == Some(ServicerOnCreate(t)))
    && (t in e'.log.closed <==> t in e.log.closed || CallOf(e, a) == Some(SendTalkClose(t)))
  }

  /** And what the steps of a run did, x being the state after it. */
  ghost predicate LogsTold(e: State, steps: seq<Step>, x: State, t: TalkId) {
    && (t in x.log.announced <==> t in e.log.announced || ServicerOnCreate(t) in Along(e, steps, CallbackMade))
    && (t in x.log.closed <==> t in e.log.closed || SendTalkClose(t) in Along(e, steps, CallOf))
  }

  /** The last status the steps of a run gave talk t, or else the one it had. */
  function StatusAfter(e: State, steps: seq<Step>, t: TalkId): Option<Status> {
    if steps == [] then if t in e.store.talks then Some(e.store.talks[t].status) else None
    else
      var before := steps[..|steps| - 1];
      var given := StatusGiven(Run(e, before), steps[|steps| - 1], t);
      if given.Some? then given else StatusAfter(e, before, t)
  }
}
