/** One side of the engine, customers or servicers: its registry, the connections of its
    server, and the install, uninstall and message channels of its controller. */
module Sides {
  import opened Defs
  import opened Hubs

  /** Opening: not queued for install yet; Live: its stream loop runs; Left: it has ended. */
  datatype Phase = Opening | Live | Left

  /** A connection's two routines. `held` is a message persisted but not enqueued yet,
      `next` the number of its next message, `receiving` whether its receive loop runs. */
  datatype Conn = Conn(phase: Phase, receiving: bool, held: Option<Incoming>, next: nat)

  /** `installed` maps the sessions whose install has been handled to how much their streams
      had been sent when it was. */
  datatype Side<K(==), R> = Side(
    hub: Hub<K, R>,
    conns: map<nat, Conn>,
    install: seq<nat>,
    uninstall: seq<nat>,
    inbox: seq<Incoming>,
    installed: map<nat, nat>)

  predicate Known<K, R>(s: Side<K, R>, q: nat) {
    q in s.conns && q in s.hub.sess
  }

  function Connect<K, R>(s: Side<K, R>, q: nat, key: K): Side<K, R> {
    s.(hub := Join(s.hub, q, key),
       conns := s.conns[q := Conn(Opening, false, None, 0)])
  }

  /** Queues the install; when that is refused the connection is given up. */
  function QueueInstall<K, R>(s: Side<K, R>, q: nat): Side<K, R>
    requires q in s.conns
  {
    if s.conns[q].phase != Opening then s
    else if |s.install| < REQUEST_CAPACITY then
      s.(conns := s.conns[q := s.conns[q].(phase := Live, receiving := true)], install := s.install + [q])
    else
      s.(conns := s.conns[q := s.conns[q].(phase := Left)])
  }

  /** The install at the head of the channel has been handled. */
  function TakeInstall<K, R>(s: Side<K, R>): Side<K, R>
    requires s.install != []
  {
    var q := s.install[0];
    s.(install := s.install[1..],
       installed := s.installed[q := if q in s.hub.sess then |s.hub.sess[q].sent| else 0])
  }

  /** The stream loop ends and queues its uninstall, which may be refused. */
  function Depart<K, R>(s: Side<K, R>, q: nat): Side<K, R>
    requires q in s.conns
  {
    if s.conns[q].phase != Live then s
    else
      s.(conns := s.conns[q := s.conns[q].(phase := Left)],
         uninstall := Push(s.uninstall, REQUEST_CAPACITY, q))
  }

  function HandleUninstall<K, R>(s: Side<K, R>): Side<K, R>
    requires s.uninstall != []
  {
    s.(hub := Leave(s.hub, s.uninstall[0]), uninstall := s.uninstall[1..])
  }

  /** The stream loop takes one item of its outgoing queue. */
  function Drain<K, R>(s: Side<K, R>, q: nat): Side<K, R>
    requires Known(s, q)
  {
    if s.conns[q].phase == Live then s.(hub := TakeOne(s.hub, q)) else s
  }

  /** The receive loop is free to read its next request. */
  predicate Reading<K, R>(s: Side<K, R>, q: nat) {
    Known(s, q) && s.conns[q].receiving && s.conns[q].held.None?
  }

  function Hold<K, R>(s: Side<K, R>, q: nat, d: Incoming): Side<K, R>
    requires q in s.conns
  {
    s.(conns := s.conns[q := s.conns[q].(held := Some(d), next := s.conns[q].next + 1)])
  }

  function StopReceiving<K, R>(s: Side<K, R>, q: nat): Side<K, R>
    requires q in s.conns
  {
    s.(conns := s.conns[q := s.conns[q].(receiving := false)])
  }

  /** Offers the held message to the controller; `stops` says whether a refusal ends the loop. */
  function Enqueue<K, R>(s: Side<K, R>, q: nat, stops: bool): Side<K, R>
    requires q in s.conns && s.conns[q].held.Some?
  {
    var d := s.conns[q].held.value;
    var accepted := d.talkId != "" && |s.inbox| < MESSAGE_CAPACITY;
    s.(inbox := if accepted then s.inbox + [d] else s.inbox,
       conns := s.conns[q := s.conns[q].(held := None, receiving := s.conns[q].receiving && (accepted || !stops))])
  }
}
