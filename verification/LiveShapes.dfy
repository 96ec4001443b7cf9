/** Where a message may be: stored, on the bus, in a queue, or live in a session's stream. */
module LiveShapes {
  import opened Defs
  import opened TalkStore
  import opened Hubs
  import opened Sides
  import opened Engine

  type BusLog = set<(TalkId, Msg)>

  predicate Stored(st: Store, t: TalkId, m: Msg) {
    m in MessagesOf(st, t)
  }

  /** A broadcast delivered a message live to session q only if it was put on the bus. */
  ghost predicate CustomersHeard(h: Hub<TalkId, TalkResponse>, bus: BusLog) {
    forall q, r | q in h.sess && r in h.sess[q].sent :: r.Message? ==> (h.sess[q].key, r.message) in bus
  }

  ghost predicate ServicersHeard(h: Hub<nat, ServiceResponse>, bus: BusLog) {
    forall q, r | q in h.sess && r in h.sess[q].sent :: r.ServiceMessage? ==> (r.talkId, r.message) in bus
  }

  ghost predicate CallbacksOnBus(mid: seq<Callback>, bus: BusLog) {
    forall b | b in mid :: b.CustomerOnMessage? || b.ServicerOnMessage? ==> (b.talkId, b.message) in bus
  }

  ghost predicate CustomerTasksOnBus(posted: seq<CustomerTask>, bus: BusLog) {
    forall k | k in posted :: k.CastMessage? ==> (k.talkId, k.message) in bus
  }

  ghost predicate ServicerTasksOnBus(posted: seq<ServicerTask>, bus: BusLog) {
    forall k | k in posted :: k.TellMessage? ==> (k.talkId, k.message) in bus
  }

  /** Everything on its way from the bus to a session was put on the bus. */
  ghost predicate FromBus(e: State) {
    && CustomersHeard(e.c.hub, e.log.bus) && ServicersHeard(e.s.hub, e.log.bus)
    && CallbacksOnBus(e.cMid, e.log.bus) && CallbacksOnBus(e.sMid, e.log.bus)
    && CustomerTasksOnBus(e.cPosted, e.log.bus) && ServicerTasksOnBus(e.sPosted, e.log.bus)
  }

  ghost predicate WaitingStored<K, R>(s: Side<K, R>, st: Store) {
    && (forall d | d in s.inbox :: Stored(st, d.talkId, d.message))
    && (forall q | q in s.conns && s.conns[q].held.Some? ::
          Stored(st, s.conns[q].held.value.talkId, s.conns[q].held.value.message))
  }

  /** Every message waiting now was held or waiting before. */
  ghost predicate NothingNewWaits<K, R>(s: Side<K, R>, s': Side<K, R>) {
    && (forall q | q in s'.conns && s'.conns[q].held.Some? :: q in s.conns && s.conns[q].held == s'.conns[q].held)
    && (forall d | d in s'.inbox :: d in s.inbox || (exists q :: q in s.conns && s.conns[q].held == Some(d)))
  }

  ghost predicate BusStored(bus: BusLog, st: Store) {
    forall t, m | (t, m) in bus :: Stored(st, t, m)
  }

  /** Everything put on the bus, or on its way to it, is stored under its talk. */
  ghost predicate ToBusStored(e: State) {
    WaitingStored(e.c, e.store) && WaitingStored(e.s, e.store) && BusStored(e.log.bus, e.store)
  }

  ghost predicate PersistOk(e: State) {
    FromBus(e) && ToBusStored(e)
  }
}
