/** What keeps one side of the engine well formed: who may be in the install channel, who
    has been installed, and who may be in the registry. */
module SideFacts {
  import opened Defs
  import opened Hubs
  import opened HubFacts
  import opened Sides
  import opened Shapes

  lemma HubSteps<K, R>(s: Side<K, R>, h': Hub<K, R>)
    requires SideOk(s) && Steady(s.hub, h')
    ensures SideOk(s.(hub := h')) && Onward(s, s.(hub := h'))
  {
  }

  lemma ConnectOk<K, R>(s: Side<K, R>, q: nat, key: K)
    requires SideOk(s) && q != 0 && q !in s.conns
    ensures SideOk(Connect(s, q, key)) && Onward(s, Connect(s, q, key))
    ensures Connect(s, q, key).hub.reg == s.hub.reg
  {
    var s' := Connect(s, q, key);
    assert Bounded(s'.hub);
    forall p | Registered(s'.hub, p) ensures p != q && Registered(s.hub, p) {
    }
  }

  lemma SameHubOk<K, R>(s: Side<K, R>, s': Side<K, R>)
    requires SideOk(s) && s'.hub == s.hub && s'.conns.Keys == s.conns.Keys && s'.installed == s.installed
    requires DoorOk(s'.conns, s'.install, s'.installed)
    requires s'.uninstall == s.uninstall && s'.inbox == s.inbox
    requires forall q | q in s'.conns && s'.conns[q].held.Some? :: s'.conns[q].held.value.conn == q
    ensures SideOk(s') && Onward(s, s')
  {
  }

  lemma DoorQueues(conns: map<nat, Conn>, install: seq<nat>, installed: map<nat, nat>, q: nat, c: Conn)
    requires DoorOk(conns, install, installed) && q in conns
    requires conns[q].phase == Opening && c.phase != Opening
    ensures DoorOk(conns[q := c], install + [q], installed) && DoorOk(conns[q := c], install, installed)
  {
  }

  lemma QueueInstallKeeps<K, R>(s: Side<K, R>, q: nat)
    requires q in s.conns
    ensures SameHub(s, QueueInstall(s, q))
  {
  }

  lemma QueueInstallOk<K, R>(s: Side<K, R>, q: nat)
    requires SideOk(s) && q in s.conns
    ensures SideOk(QueueInstall(s, q)) && Onward(s, QueueInstall(s, q)) && SameHub(s, QueueInstall(s, q))
  {
    QueueInstallKeeps(s, q);
    if s.conns[q].phase == Opening {
      DoorQueues(s.conns, s.install, s.installed, q, QueueInstall(s, q).conns[q]);
      SameHubOk(s, QueueInstall(s, q));
    }
  }

  /** Handling an install lets in at most the session at the head, and only the first time. */
  lemma InstallOk<K, R>(s: Side<K, R>, h: Hub<K, R>)
    requires SideOk(s) && s.install != [] && Steady(s.hub, h)
    ensures SideOk(TakeInstall(s).(hub := Enter(h, s.install[0])))
    ensures Onward(s, TakeInstall(s).(hub := Enter(h, s.install[0])))
    ensures SideOk(TakeInstall(s).(hub := h))
    ensures Onward(s, TakeInstall(s).(hub := h))
  {
    EnterAdds(h, s.install[0]);
  }

  lemma DepartOk<K, R>(s: Side<K, R>, q: nat)
    requires SideOk(s) && q in s.conns
    ensures SideOk(Depart(s, q)) && Onward(s, Depart(s, q)) && SameHub(s, Depart(s, q))
  {
  }

  lemma UninstallOk<K, R>(s: Side<K, R>)
    requires SideOk(s) && s.uninstall != []
    ensures SideOk(HandleUninstall(s)) && Onward(s, HandleUninstall(s))
    ensures !Registered(HandleUninstall(s).hub, s.uninstall[0])
  {
    SteadyLeave(s.hub, s.uninstall[0]);
  }

  lemma DrainOk<K, R>(s: Side<K, R>, q: nat)
    requires SideOk(s) && Known(s, q)
    ensures SideOk(Drain(s, q)) && Onward(s, Drain(s, q))
  {
    SteadyTakeOne(s.hub, q);
    HubSteps(s, TakeOne(s.hub, q));
  }

  lemma HoldOk<K, R>(s: Side<K, R>, q: nat, d: Incoming)
    requires SideOk(s) && q in s.conns && d.conn == q
    ensures SideOk(Hold(s, q, d)) && Onward(s, Hold(s, q, d))
  {
  }

  lemma StopReceivingOk<K, R>(s: Side<K, R>, q: nat)
    requires SideOk(s) && q in s.conns
    ensures SideOk(StopReceiving(s, q)) && Onward(s, StopReceiving(s, q)) && SameHub(s, StopReceiving(s, q))
  {
  }

  lemma EnqueueOk<K, R>(s: Side<K, R>, q: nat, stops: bool)
    requires SideOk(s) && q in s.conns && s.conns[q].held.Some?
    ensures SideOk(Enqueue(s, q, stops)) && Onward(s, Enqueue(s, q, stops)) && SameHub(s, Enqueue(s, q, stops))
  {
  }

  lemma TakeMessageOk<K, R>(s: Side<K, R>)
    requires SideOk(s) && s.inbox != []
    ensures SideOk(s.(inbox := s.inbox[1..])) && Onward(s, s.(inbox := s.inbox[1..]))
  {
  }

  lemma OnwardTrans<K, R>(s: Side<K, R>, s': Side<K, R>, s'': Side<K, R>)
    requires SideOk(s) && SideOk(s') && Onward(s, s') && Onward(s', s'')
    ensures Onward(s, s'')
  {
  }
}
