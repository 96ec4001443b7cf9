/** What it means that a customer's session has no gap in its talk's messages. */
module GapShapes {
  import opened Defs
  import opened Hubs
  import opened Sides
  import opened Engine

  /** The message is in a closure for the customers, or about to be posted as one. */
  predicate Underway(e: State, t: TalkId, m: Msg) {
    CastMessage(t, m) in e.cPosted || CustomerOnMessage(t, m) in e.cMid || CustomerOnMessage(t, m) in e.sMid
  }

  predicate LiveFor(h: Hub<TalkId, TalkResponse>, q: nat, m: Msg)
    requires q in h.sess
  {
    TalkResponse.Message(m) in h.sess[q].sent
  }

  /** Session q has the message in what it read, has it live, or is still to get it live. */
  predicate Covered(e: State, q: nat, m: Msg, read: seq<Msg>)
    requires q in e.c.hub.sess
  {
    m in read || LiveFor(e.c.hub, q, m) || Underway(e, e.c.hub.sess[q].key, m)
  }

  /** Nothing its talk has on the bus is missing from any history session q was sent, nor
      from the one it is about to be sent. */
  ghost predicate SessionCovered(e: State, q: nat)
    requires q in e.c.hub.sess
  {
    forall m | (e.c.hub.sess[q].key, m) in e.log.bus ::
      && (forall r | r in e.c.hub.sess[q].sent && r.Messages? :: Covered(e, q, m, r.messages))
      && (q in e.history && e.history[q].ToSend? ==> Covered(e, q, m, e.history[q].messages))
  }

  ghost predicate NoGap(e: State) {
    !e.cLost ==> forall q | Registered(e.c.hub, q) :: SessionCovered(e, q)
  }

  /** A session whose install has not been handled has not been sent any history. */
  ghost predicate NoEarlyHistory(e: State) {
    forall q, r | q in e.c.hub.sess && r in e.c.hub.sess[q].sent :: r.Messages? ==> q in e.history
  }

  /** What the steps that send no history keep. */
  ghost predicate SameHistories(e: State, e': State) {
    && (forall q | Registered(e'.c.hub, q) ::
          && Registered(e.c.hub, q)
          && e'.c.hub.sess[q].key == e.c.hub.sess[q].key
          && (forall r | r in e'.c.hub.sess[q].sent && r.Messages? :: r in e.c.hub.sess[q].sent)
          && (forall r | r in e.c.hub.sess[q].sent :: r in e'.c.hub.sess[q].sent))
    && e'.history == e.history
  }

  /** No message underway is lost: it stays underway, reaches every session it is for, or
      the loss is recorded. */
  ghost predicate UnderwayKept(e: State, e': State) {
    && (e.cLost ==> e'.cLost)
    && (forall t, m | Underway(e, t, m) && !e'.cLost ::
          || Underway(e', t, m)
          || (forall q | Registered(e'.c.hub, q) && e'.c.hub.sess[q].key == t :: LiveFor(e'.c.hub, q, m)))
    && (forall t, m | (t, m) in e'.log.bus && !e'.cLost :: (t, m) in e.log.bus || Underway(e', t, m))
  }

  /** The part of a side's shape the steps of its connections rely on. */
  ghost predicate SideShape(c: Side<TalkId, TalkResponse>) {
    c.conns.Keys == c.hub.sess.Keys && 0 !in c.hub.sess && (forall q | q !in c.hub.sess :: !Registered(c.hub, q))
    && (forall k, q | k in c.hub.reg && q in c.hub.reg[k] :: q in c.hub.sess)
  }

  /** A posted closure gave its response to every session of its talk that stays registered. */
  ghost predicate Told(h: Hub<TalkId, TalkResponse>, h': Hub<TalkId, TalkResponse>, t: TalkId, r: TalkResponse) {
    forall q | Registered(h', q) ::
      && Registered(h, q)
      && h'.sess[q].key == h.sess[q].key
      && h'.sess[q].sent == h.sess[q].sent + (if h.sess[q].key == t then [r] else [])
  }
}
