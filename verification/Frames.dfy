/** What the steps of one group leave alone. */
module Frames {
  import opened Defs
  import opened TalkStore
  import opened Hubs
  import opened Sides
  import opened Engine

  lemma CustomerActsElsewhere(e: State, q: nat, a: CustomerAct)
    ensures CustomerActs(e, q, a).s == e.s && CustomerActs(e, q, a).log == e.log
  {
  }

  lemma DeliverWaits(e: State, b: Callback, down: bool)
    ensures Deliver(e, b, down).c == e.c && Deliver(e, b, down).s == e.s && Deliver(e, b, down).log.bus == e.log.bus
  {
  }

  lemma CustomerActsLeaveQueue(e: State, q: nat, a: CustomerAct)
    ensures CustomerActs(e, q, a).sPosted == e.sPosted && CustomerActs(e, q, a).sMid == e.sMid
    ensures CustomerActs(e, q, a).sLost == e.sLost && CustomerActs(e, q, a).cMid == e.cMid
  {
  }

  lemma CustomerPicksLeaveQueue(e: State, p: CustomerPick)
    requires !p.PickCall?
    ensures CustomerLoop(e, p).sPosted == e.sPosted && CustomerLoop(e, p).sMid == e.sMid
    ensures CustomerLoop(e, p).sLost == e.sLost
  {
  }

  lemma CustomerPicksLeaveNotices(e: State, p: CustomerPick)
    requires !p.PickCall?
    ensures CustomerLoop(e, p).log.announced == e.log.announced
    ensures e.log.closed <= CustomerLoop(e, p).log.closed
  {
  }

  lemma ServicerActsLeaveQueue(e: State, q: nat, a: ServicerAct)
    ensures ServicerActs(e, q, a).sPosted == e.sPosted && ServicerActs(e, q, a).sMid == e.sMid
    ensures ServicerActs(e, q, a).sLost == e.sLost
  {
  }

  lemma ServicerActsLeaveCalls(e: State, q: nat, a: ServicerAct)
    ensures ServicerActs(e, q, a).cMid == e.cMid
  {
  }

  lemma CustomerLoopTakes(e: State, p: CustomerPick)
    ensures CustomerLoop(e, p).c.conns == e.c.conns && CustomerLoop(e, p).s == e.s
    ensures CustomerLoop(e, p).c.inbox == e.c.inbox
         || (e.c.inbox != [] && CustomerLoop(e, p).c.inbox == e.c.inbox[1..])
  {
    match p
    case PickCall(down) => if e.cMid != [] { DeliverWaits(e.(cMid := e.cMid[1..]), e.cMid[0], down); }
    case _ =>
  }

  lemma ServicerLoopTakes(e: State, p: ServicerPick)
    ensures ServicerLoop(e, p).s.conns == e.s.conns && ServicerLoop(e, p).c == e.c
    ensures ServicerLoop(e, p).s.inbox == e.s.inbox
         || (e.s.inbox != [] && ServicerLoop(e, p).s.inbox == e.s.inbox[1..])
  {
    match p
    case ServeCall(down) => if e.sMid != [] { DeliverWaits(e.(sMid := e.sMid[1..]), e.sMid[0], down); }
    case _ =>
  }

  lemma ServicerActsElsewhere(e: State, q: nat, a: ServicerAct)
    ensures ServicerActs(e, q, a).c == e.c && ServicerActs(e, q, a).log == e.log
  {
  }

  lemma ServicerActsSameHub(e: State, q: nat, a: ServicerAct)
    requires !a.ServicerConnect? && !a.ServicerDrain?
    ensures ServicerActs(e, q, a).s.hub == e.s.hub
  {
  }

  /** A servicer's own routines make its session or take from it, and send it nothing. */
  lemma ServicerActsSendNothing(e: State, q: nat, a: ServicerAct, x: nat)
    requires x in ServicerActs(e, q, a).s.hub.sess && e.s.conns.Keys == e.s.hub.sess.Keys
    ensures var s' := ServicerActs(e, q, a).s.hub.sess[x];
            if x in e.s.hub.sess then s' == e.s.hub.sess[x].(taken := s'.taken) else s'.sent == []
    ensures ServicerActs(e, q, a).s.hub.reg == e.s.hub.reg
  {
    match a
    case ServicerConnect(u) =>
    case ServicerDrain =>
    case _ => ServicerActsSameHub(e, q, a);
  }

  lemma ServicerLoopLeavesCalls(e: State, p: ServicerPick)
    ensures ServicerLoop(e, p).cMid == e.cMid
  {
  }

  lemma ServicerActsLeavePosted(e: State, q: nat, a: ServicerAct)
    ensures ServicerActs(e, q, a).cPosted == e.cPosted && ServicerActs(e, q, a).cLost == e.cLost
  {
  }

  lemma CustomerActsLeavePosted(e: State, q: nat, a: CustomerAct)
    ensures CustomerActs(e, q, a).cPosted == e.cPosted && CustomerActs(e, q, a).cLost == e.cLost
  {
  }
}
