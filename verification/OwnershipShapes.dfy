/** The ownership events sent on the bus, read as a history of the stored owners. */
module OwnershipShapes {
  import opened Defs
  import opened TalkStore
  import opened Hubs
  import opened Sides
  import opened Engine

  /** The owner of talk t after the events, if before them it was what the store says. */
  function OwnerAfter(st: Store, trace: seq<Ownership>, t: TalkId): nat {
    if trace == [] then OwnerOf(st, t)
    else
      match trace[|trace| - 1]
      case Took(x, u) => if x == t then u else OwnerAfter(st, trace[..|trace| - 1], t)
      case Gave(x, u) => if x == t then 0 else OwnerAfter(st, trace[..|trace| - 1], t)
  }

  /** The event is one real change of this owner: a take-over by somebody else, or a release
      by the owner. */
  predicate RealChange(owner: nat, o: Ownership) {
    match o
    case Took(_, u) => u > 0 && owner != u
    case Gave(_, u) => u > 0 && owner == u
  }

  ghost predicate OnlyRealChanges(st: Store, trace: seq<Ownership>) {
    forall i | 0 <= i < |trace| :: RealChange(OwnerAfter(st, trace[..i], trace[i].talkId), trace[i])
  }

  /** Folding the events over the first store gives the owners of the present one. */
  ghost predicate TraceIsFaithful(st: Store, e: State) {
    && (forall t :: OwnerAfter(st, e.log.trace, t) == OwnerOf(e.store, t))
    && OnlyRealChanges(st, e.log.trace)
  }

  /** The pick writes an owner to the store and that write fails. */
  predicate WriteFails(p: ServicerPick) {
    (p.ServeAttach? || p.ServeDetach?) && p.f.write
  }

  predicate StepWriteFails(a: Step) {
    a.ServicerLoopStep? && WriteFails(a.servicerPick)
  }

  ghost predicate OwnersKept(e: State, e': State) {
    e'.log.trace == e.log.trace && forall t :: OwnerOf(e'.store, t) == OwnerOf(e.store, t)
  }

  // ---- who wrote what is waiting ----

  /** Messages waiting on a side were written by that side's connections. */
  ghost predicate Authored<K, R>(s: Side<K, R>, customer: bool) {
    && (forall d | d in s.inbox :: d.message.sender == Sender(customer, d.conn))
    && (forall q | q in s.conns && s.conns[q].held.Some? ::
          s.conns[q].held.value.conn == q && s.conns[q].held.value.message.sender == Sender(customer, q))
  }

  /** Nothing on the bus is about the empty talk id. */
  ghost predicate BusNamed(e: State) {
    && (forall t, m | (t, m) in e.log.bus :: t != "")
    && (forall q | q in e.c.hub.sess :: e.c.hub.sess[q].key != "")
  }

  /** Session q was appended no talk message but of talks its user owns. */
  ghost predicate AppendedToOwner(e: State, e': State, q: nat)
    requires q in e'.s.hub.sess
  {
    forall i | (if q in e.s.hub.sess then |e.s.hub.sess[q].sent| else 0) <= i < |e'.s.hub.sess[q].sent| ::
      e'.s.hub.sess[q].sent[i].ServiceMessage?
      ==> q in e.s.hub.sess && OwnerOf(e.store, e'.s.hub.sess[q].sent[i].talkId) == e.s.hub.sess[q].key
  }

  /** A servicer's message put on the bus in this step was written by the talk's owner. */
  ghost predicate ReleasedByOwner(e: State, e': State, t: TalkId, m: Msg) {
    (t, m) in e'.log.bus && (t, m) !in e.log.bus && !m.sender.customer
    ==> m.sender.conn in e.s.hub.sess && OwnerOf(e.store, t) == e.s.hub.sess[m.sender.conn].key
  }
}
