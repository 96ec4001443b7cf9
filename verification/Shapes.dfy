/** The invariants of the registry, of one side and of the whole engine, and what a step
    may do to them. */
module Shapes {
  import opened Defs
  import opened TalkStore
  import opened Hubs
  import opened Sides
  import opened Engine

  /** Every outgoing queue is within its capacity. */
  ghost predicate Bounded<K, R>(h: Hub<K, R>) {
    forall q | q in h.sess :: h.sess[q].taken <= |h.sess[q].sent| <= h.sess[q].taken + SESSION_CAPACITY
  }

  ghost predicate HubOk<K, R>(h: Hub<K, R>) {
    Filed(h) && Bounded(h)
  }

  /** The same sessions under the same keys, nothing taken back from any queue, nobody
      entering the registry. Every operation but an entry is steady. */
  ghost predicate Steady<K, R>(h: Hub<K, R>, h': Hub<K, R>) {
    && HubOk(h')
    && h'.sess.Keys == h.sess.Keys
    && (forall q | q in h.sess ::
          h'.sess[q].key == h.sess[q].key && h.sess[q].sent <= h'.sess[q].sent
            && (h.sess[q].missed ==> h'.sess[q].missed))
    && (forall q :: Registered(h', q) ==> Registered(h, q))
  }

  /** What a broadcast to the sessions `to` did to session q: if it was addressed it got
      exactly r and stayed, or it was full, left, and got at most the kick-out. */
  ghost predicate Got<K, R>(h: Hub<K, R>, h': Hub<K, R>, q: nat, to: set<nat>, r: R, kick: R)
    requires q in h.sess && q in h'.sess
  {
    if q !in to then h'.sess[q] == h.sess[q] && (Registered(h', q) <==> Registered(h, q))
    else if !Full(h.sess[q]) then
      h'.sess[q] == h.sess[q].(sent := h.sess[q].sent + [r]) && (Registered(h', q) <==> Registered(h, q))
    else
      && !Registered(h', q) && h'.sess[q].key == h.sess[q].key && h'.sess[q].missed
      && (|| (h'.sess[q].sent == h.sess[q].sent && h'.sess[q].taken == h.sess[q].taken)
          || (h'.sess[q].sent == h.sess[q].sent + [kick] && h'.sess[q].taken == h.sess[q].taken + 1))
  }

  ghost predicate Broadcast<K, R>(h: Hub<K, R>, h': Hub<K, R>, to: set<nat>, r: R, kick: R) {
    && h'.sess.Keys == h.sess.Keys
    && Filed(h')
    && (forall q | q in h.sess :: Got(h, h', q, to, r, kick))
  }

  ghost predicate Distinct(q: seq<nat>) {
    forall i, j | 0 <= i < j < |q| :: q[i] != q[j]
  }

  /** A session is in the install channel at most once and never after it was installed. */
  ghost predicate DoorOk(conns: map<nat, Conn>, install: seq<nat>, installed: map<nat, nat>) {
    && Distinct(install)
    && (forall q | q in install :: q in conns && conns[q].phase != Opening && q !in installed)
    && (forall q | q in installed :: q in conns && conns[q].phase != Opening)
  }

  ghost predicate SideOk<K, R>(s: Side<K, R>) {
    && HubOk(s.hub)
    && s.conns.Keys == s.hub.sess.Keys
    && 0 !in s.conns
    && DoorOk(s.conns, s.install, s.installed)
    && (forall q | q in s.uninstall :: q in s.conns)
    && (forall q | q in s.conns && s.conns[q].held.Some? :: s.conns[q].held.value.conn == q)
    && (forall d | d in s.inbox :: d.conn in s.conns)
    && (forall q :: Registered(s.hub, q) ==> q in s.installed)
  }

  /** The side after a step that does not make connections and lets nobody in: the sessions
      are the same, the installed set only grows, and the registry only shrinks. */
  ghost predicate Onward<K, R>(s: Side<K, R>, s': Side<K, R>) {
    && (forall q | q in s.installed :: q in s'.installed && s'.installed[q] == s.installed[q])
    && s.hub.sess.Keys <= s'.hub.sess.Keys
    && (forall q | q in s.hub.sess ::
          s'.hub.sess[q].key == s.hub.sess[q].key && s.hub.sess[q].sent <= s'.hub.sess[q].sent
          && (s.hub.sess[q].missed ==> s'.hub.sess[q].missed))
    && (forall q :: q in s.installed && !Registered(s.hub, q) ==> !Registered(s'.hub, q))
  }

  /** The registry is as it was, and every message waiting was held or waiting before. */
  ghost predicate SameHub<K, R>(s: Side<K, R>, s': Side<K, R>) {
    && s'.hub == s.hub && s'.conns.Keys == s.conns.Keys && s'.installed == s.installed
    && (forall q | q in s.conns :: s'.conns[q].held.None? || s'.conns[q].held == s.conns[q].held)
    && (forall d | d in s'.inbox :: d in s.inbox || (exists q :: q in s.conns && s.conns[q].held == Some(d)))
  }

  ghost predicate StoreGrows(st: Store, st': Store) {
    && st.talks.Keys <= st'.talks.Keys
    && (forall t :: MessagesOf(st, t) <= MessagesOf(st', t))
  }

  /** Customer sessions belong to stored talks and every filed one had its history started. */
  ghost predicate CustomersOk(c: Side<TalkId, TalkResponse>, st: Store, history: map<nat, History>, closes: seq<nat>) {
    && SideOk(c) && NoEmptyEntry(c.hub)
    && (forall q | q in c.hub.sess :: c.hub.sess[q].key in st.talks)
    && (forall q :: Registered(c.hub, q) ==> q in history)
    && (forall q | q in history :: q in c.installed)
    && (forall q | q in closes :: q in c.conns)
    && (forall d | d in c.inbox :: d.conn in c.hub.sess && d.talkId == c.hub.sess[d.conn].key)
    && (forall q | q in c.conns && c.conns[q].held.Some? ::
          q in c.hub.sess && c.conns[q].held.value.talkId == c.hub.sess[q].key)
  }

  ghost predicate ServicersOk(s: Side<nat, ServiceResponse>) {
    SideOk(s) && (forall q | q in s.hub.sess :: s.hub.sess[q].key > 0)
  }

  ghost predicate RequestsOk(requests: seq<Request>, s: Side<nat, ServiceResponse>) {
    forall r | r in requests :: r.conn in s.conns
  }

  ghost predicate EngineOk(e: State) {
    && StoreOk(e.store)
    && CustomersOk(e.c, e.store, e.history, e.closes)
    && ServicersOk(e.s)
    && RequestsOk(e.attaches, e.s) && RequestsOk(e.detaches, e.s) && RequestsOk(e.reloads, e.s)
  }

  /** A send to registered session q: a full one is out, and one that stays was given more. */
  ghost predicate Reaches<K, R>(h: Hub<K, R>, h': Hub<K, R>, q: nat) {
    Registered(h, q) ==>
      if Full(h.sess[q]) then !Registered(h', q)
      else Registered(h', q) ==> |h'.sess[q].sent| > |h.sess[q].sent|
  }

  /** What a step keeps of the state before it. */
  ghost predicate Later(e: State, e': State) {
    StoreGrows(e.store, e'.store) && Onward(e.c, e'.c) && Onward(e.s, e'.s)
  }

  /** A session seen in a registry first and out of it later is still out of it at the end. */
  ghost predicate OneStay(first: State, later: State, end: State, q: nat) {
    && (Registered(first.c.hub, q) && !Registered(later.c.hub, q) ==> !Registered(end.c.hub, q))
    && (Registered(first.s.hub, q) && !Registered(later.s.hub, q) ==> !Registered(end.s.hub, q))
  }
}
