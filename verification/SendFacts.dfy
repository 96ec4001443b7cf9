/** Every step of the servicer loop sends each session just what SendShapes lists for it. */
module SendFacts {
  import opened Defs
  import opened TalkStore
  import opened Hubs
  import opened HubFacts
  import opened Sides
  import opened Engine
  import opened Shapes
  import opened EngineFacts
  import opened SendShapes
  import SL = ServicerLogic

  lemma GivenNothing(s: ServicerSess)
    ensures Given(s, s, [])
  {
  }

  lemma GivenTrans(s: ServicerSess, s': ServicerSess, s'': ServicerSess, rs: seq<ServiceResponse>,
                   rs': seq<ServiceResponse>)
    requires Given(s, s', rs) && Given(s', s'', rs') && (s'.missed || s'.taken == s.taken)
    requires rs == [] || rs' == [] || KickFor(rs) == KickFor(rs')
    ensures Given(s, s'', rs + rs')
  {
    forall i | |s.sent| <= i < |s''.sent|
      ensures s''.sent[i] in rs + rs' || s''.sent[i].ServiceKickOut?
    {
      if i < |s'.sent| {
        assert s''.sent[i] == s'.sent[i];
      }
    }
  }

  lemma SendToGives(h: SL.ServicerHub, x: nat, r: ServiceResponse, q: nat)
    requires q in h.sess
    ensures Given(h.sess[q], SendTo(h, x, r).sess[q], if x == q then [r] else [])
  {
  }

  lemma ConfirmGives(h: SL.ServicerHub, x: nat, r: ServiceResponse, kick: ServiceResponse, drained: bool, q: nat)
    requires q in h.sess && kick == KickFor([r])
    ensures Given(h.sess[q], ConfirmOrDrop(h, x, r, kick, drained).sess[q], if x == q then [r] else [])
  {
  }

  lemma BroadcastGives(h: SL.ServicerHub, h': SL.ServicerHub, to: set<nat>, r: ServiceResponse, kick: ServiceResponse,
                       q: nat)
    requires q in h.sess && Broadcast(h, h', to, r, kick) && kick == KickFor([r])
    ensures Given(h.sess[q], h'.sess[q], if q in to then [r] else [])
  {
    assert Got(h, h', q, to, r, kick);
  }

  lemma CastAllGives(h: SL.ServicerHub, r: ServiceResponse, late: set<nat>, q: nat)
    requires HubOk(h) && q in h.sess && KickFor([r]) == SL.SEND_FAILED
    ensures Given(h.sess[q], CastAll(h, r, SL.SEND_FAILED, late).sess[q], if Registered(h, q) then [r] else [])
  {
    CastAllBroadcasts(h, r, SL.SEND_FAILED, late);
    EveryRegisteredIsUnder(h, q);
    BroadcastGives(h, CastAll(h, r, SL.SEND_FAILED, late), Under(h, h.reg.Keys), r, SL.SEND_FAILED, q);
  }

  lemma CastKeyGives(h: SL.ServicerHub, k: nat, excluded: set<nat>, r: ServiceResponse, kick: ServiceResponse,
                     late: set<nat>, q: nat)
    requires HubOk(h) && q in h.sess && kick == KickFor([r])
    ensures Given(h.sess[q], CastKey(h, k, excluded, r, kick, late).sess[q],
                  if Registered(h, q) && h.sess[q].key == k && q !in excluded then [r] else [])
  {
    CastKeyBroadcasts(h, k, excluded, r, kick, late);
    BroadcastGives(h, CastKey(h, k, excluded, r, kick, late), AddressedByKey(h, k, excluded), r, kick, q);
  }

  lemma EvictedMissed(h: SL.ServicerHub, r: ServiceResponse, late: set<nat>, q: nat)
    requires HubOk(h) && Registered(h, q) && !Registered(CastAll(h, r, SL.SEND_FAILED, late), q)
    ensures CastAll(h, r, SL.SEND_FAILED, late).sess[q].missed
  {
    CastAllBroadcasts(h, r, SL.SEND_FAILED, late);
    EveryRegisteredIsUnder(h, q);
    assert Got(h, CastAll(h, r, SL.SEND_FAILED, late), q, Under(h, h.reg.Keys), r, SL.SEND_FAILED);
  }

  /** An attach closure: everybody is told, then the owner's sessions are sent the talk. A
      session evicted in between has missed something. */
  lemma AttachTaskGives(h: SL.ServicerHub, r: ServiceResponse, v: nat, talk: TalkAndMessages, late: set<nat>, q: nat)
    requires HubOk(h) && q in h.sess && KickFor([r]) == SL.SEND_FAILED
    ensures var told := CastAll(h, r, SL.SEND_FAILED, late);
            Given(h.sess[q], CastKey(told, v, {}, Reload(talk), SL.SEND_FAILED, late).sess[q],
                  if !Registered(h, q) then [] else [r] + (if h.sess[q].key == v then [Reload(talk)] else []))
  {
    var told := CastAll(h, r, SL.SEND_FAILED, late);
    SteadyCastAll(h, r, SL.SEND_FAILED, late);
    CastAllGives(h, r, late, q);
    CastKeyGives(told, v, {}, Reload(talk), SL.SEND_FAILED, late, q);
    var s, s', s'' := h.sess[q], told.sess[q], CastKey(told, v, {}, Reload(talk), SL.SEND_FAILED, late).sess[q];
    RegisteredAfterCastAll(h, r, SL.SEND_FAILED, late, q);
    if Registered(h, q) && !Registered(told, q) {
      EvictedMissed(h, r, late, q);
    } else if Registered(h, q) && h.sess[q].key == v {
      GivenTrans(s, s', s'', [r], [Reload(talk)]);
    } else {
      GivenTrans(s, s', s'', if Registered(h, q) then [r] else [], []);
    }
  }

  lemma TaskGives(h: SL.ServicerHub, st: Store, task: ServicerTask, f: Faults, late: set<nat>, q: nat)
    requires HubOk(h) && q in h.sess && q != 0
    ensures q in SL.RunTask(h, st, task, f, late).sess
    ensures Given(h.sess[q], SL.RunTask(h, st, task, f, late).sess[q],
                  if Registered(h, q) then TaskSends(st, task, f, h.sess[q].key) else [])
  {
    GivenNothing(h.sess[q]);
    match task
    case TellMessage(t, m) =>
      if Lookup(st, t).Some? {
        CastKeyGives(h, Lookup(st, t).value.info.serviceID, {0}, ServiceResponse.ServiceMessage(t, m),
                     SL.MESSAGE_FAILED, late, q);
      }
    case TellCreate(t) =>
      if Lookup(st, t).Some? {
        CastAllGives(h, ServiceResponse.Detach(Card(Lookup(st, t).value), 0), late, q);
      }
    case TellClose(t) => CastAllGives(h, ServiceClose(t), late, q);
    case TellAttach(t, v) =>
      if Lookup(st, t).Some? {
        var r := ServiceResponse.Attach(Card(Lookup(st, t).value), v);
        var talk := SL.TalkWithMessages(st, t, f.second, f);
        if talk.Some? {
          AttachTaskGives(h, r, v, talk.value, late, q);
        } else {
          CastAllGives(h, r, late, q);
          assert [r] + [] == [r];
        }
      }
    case TellDetach(talk, v) => CastAllGives(h, ServiceResponse.Detach(Card(talk), v), late, q);
  }

  lemma SnapshotGives(h: SL.ServicerHub, st: Store, x: nat, f: Faults, failed: bool, q: nat)
    requires q in h.sess && x in h.sess
    ensures q in SL.AttachedTalks(h, st, x, f).sess && q in SL.PendingList(h, st, x, failed).sess
    ensures Given(h.sess[q], SL.AttachedTalks(h, st, x, f).sess[q],
                  if x == q then AttachedSends(st, h.sess[q].key, f) else [])
    ensures Given(h.sess[q], SL.PendingList(h, st, x, failed).sess[q],
                  if x == q then PendingSends(st, failed) else [])
  {
    GivenNothing(h.sess[q]);
    SendToGives(h, x, Talks(SL.WithMessages(st, Attached(st, h.sess[x].key), f.messages)), q);
    SendToGives(h, x, PendingTalks(SL.Cards(Pending(st))), q);
  }

  lemma InstallGives(h: SL.ServicerHub, st: Store, x: nat, f: Faults, q: nat)
    requires q in h.sess && x in h.sess
    ensures q in SL.InstallServicer(h, st, x, f).sess
    ensures Given(h.sess[q], SL.InstallServicer(h, st, x, f).sess[q],
                  if x == q then AttachedSends(st, h.sess[q].key, f) + PendingSends(st, f.second) else [])
  {
    var told := SL.AttachedTalks(h, st, x, f);
    SnapshotGives(h, st, x, f, f.second, q);
    SnapshotGives(told, st, x, f, f.second, q);
    GivenTrans(h.sess[q], told.sess[q], SL.PendingList(told, st, x, f.second).sess[q],
               if x == q then AttachedSends(st, h.sess[q].key, f) else [],
               if x == q then PendingSends(st, f.second) else []);
    assert SL.InstallServicer(h, st, x, f).sess == SL.PendingList(told, st, x, f.second).sess;
    var none: seq<ServiceResponse> := [];
    assert none + none == none;
  }

  lemma RequestsGive(h: SL.ServicerHub, st: Store, x: nat, t: TalkId, f: Faults, q: nat)
    requires q in h.sess && x in h.sess
    ensures SL.AttachTalk(h, st, x, t, f).hub == h
    ensures q in SL.DetachTalk(h, st, x, t, f).hub.sess && q in SL.ReloadTalk(h, st, x, t, f).sess
    ensures Given(h.sess[q], SL.DetachTalk(h, st, x, t, f).hub.sess[q],
                  if x == q then DetachSends(st, h.sess[q].key, t, f) else [])
    ensures Given(h.sess[q], SL.ReloadTalk(h, st, x, t, f).sess[q],
                  if x == q then ReloadSends(st, t, f.read, f) else [])
  {
    GivenNothing(h.sess[q]);
    SendToGives(h, x, Notify("talkNotAttached"), q);
    var talk := SL.TalkWithMessages(st, t, f.read, f);
    if talk.Some? {
      SendToGives(h, x, Reload(talk.value), q);
    }
  }

  lemma MessageGives(h: SL.ServicerHub, st: Store, d: Incoming, f: Faults, drained: bool, q: nat)
    requires q in h.sess && d.conn in h.sess
    ensures var o := SL.ServiceMessage(h, st, d.conn, d.talkId, d.seqId, d.message, f, drained);
            q in o.hub.sess
            && Given(h.sess[q], o.hub.sess[q], if d.conn == q then MessageSends(st, h.sess[q].key, d, f) else [])
  {
    GivenNothing(h.sess[q]);
    ConfirmGives(h, d.conn, ServiceConfirmed(d.seqId, d.message.at), SL.MESSAGE_FAILED, drained, q);
  }

  lemma SnapshotPicksGive(e: State, p: ServicerPick, q: nat)
    requires q in e.s.hub.sess && (p.ServeInstall? || p.ServeQueryAttached? || p.ServeQueryPending?)
    ensures q in ServicerLoop(e, p).s.hub.sess
    ensures Given(e.s.hub.sess[q], ServicerLoop(e, p).s.hub.sess[q], Sends(e, p, q))
  {
    GivenNothing(e.s.hub.sess[q]);
    match p
    case ServeInstall(f) =>
      if e.s.install != [] && e.s.install[0] in e.s.hub.sess { InstallGives(e.s.hub, e.store, e.s.install[0], f, q); }
    case ServeQueryAttached(x, f) => if Reading(e.s, x) { SnapshotGives(e.s.hub, e.store, x, f, f.read, q); }
    case ServeQueryPending(x, f) => if Reading(e.s, x) { SnapshotGives(e.s.hub, e.store, x, f, f.read, q); }
  }

  lemma AttachGives(e: State, f: Faults, q: nat)
    requires q in e.s.hub.sess
    ensures HandleAttach(e, f).s == e.s
    ensures Given(e.s.hub.sess[q], e.s.hub.sess[q], Sends(e, ServeAttach(f), q))
  {
    GivenNothing(e.s.hub.sess[q]);
  }

  lemma DetachGives(e: State, f: Faults, q: nat)
    requires q in e.s.hub.sess
    ensures q in HandleDetach(e, f).s.hub.sess
    ensures Given(e.s.hub.sess[q], HandleDetach(e, f).s.hub.sess[q], Sends(e, ServeDetach(f), q))
  {
    GivenNothing(e.s.hub.sess[q]);
    if e.detaches != [] && e.detaches[0].conn in e.s.hub.sess {
      RequestsGive(e.s.hub, e.store, e.detaches[0].conn, e.detaches[0].talkId, f, q);
    }
  }

  lemma ReloadPickGives(e: State, f: Faults, q: nat)
    requires q in e.s.hub.sess
    ensures q in HandleReload(e, f).s.hub.sess
    ensures Given(e.s.hub.sess[q], HandleReload(e, f).s.hub.sess[q], Sends(e, ServeReload(f), q))
  {
    GivenNothing(e.s.hub.sess[q]);
    if e.reloads != [] && e.reloads[0].conn in e.s.hub.sess {
      RequestsGive(e.s.hub, e.store, e.reloads[0].conn, e.reloads[0].talkId, f, q);
    }
  }

  lemma RunnerPickGives(e: State, f: Faults, late: set<nat>, q: nat)
    requires HubOk(e.s.hub) && q in e.s.hub.sess && q != 0
    ensures q in RunServicerTask(e, f, late).s.hub.sess
    ensures Given(e.s.hub.sess[q], RunServicerTask(e, f, late).s.hub.sess[q], Sends(e, ServeRunner(f, late), q))
  {
    GivenNothing(e.s.hub.sess[q]);
    if e.sPosted != [] {
      TaskGives(e.s.hub, e.store, e.sPosted[0], f, late, q);
    }
  }

  lemma MessagePickGives(e: State, f: Faults, drained: bool, q: nat)
    requires q in e.s.hub.sess
    ensures q in HandleServicerMessage(e, f, drained).s.hub.sess
    ensures Given(e.s.hub.sess[q], HandleServicerMessage(e, f, drained).s.hub.sess[q],
                  Sends(e, ServeMessage(f, drained), q))
  {
    GivenNothing(e.s.hub.sess[q]);
    if e.s.inbox != [] && e.s.inbox[0].conn in e.s.hub.sess {
      MessageGives(e.s.hub, e.store, e.s.inbox[0], f, drained, q);
    }
  }

  lemma OtherPicksGive(e: State, p: ServicerPick, q: nat)
    requires q in e.s.hub.sess && (p.ServeUninstall? || p.ServeCall?)
    ensures q in ServicerLoop(e, p).s.hub.sess
    ensures Given(e.s.hub.sess[q], ServicerLoop(e, p).s.hub.sess[q], Sends(e, p, q))
  {
    GivenNothing(e.s.hub.sess[q]);
  }

  /** Each pick sends each session what SendShapes lists. */
  lemma LoopGives(e: State, p: ServicerPick, q: nat)
    requires HubOk(e.s.hub) && q in e.s.hub.sess && q != 0
    ensures q in ServicerLoop(e, p).s.hub.sess
    ensures Given(e.s.hub.sess[q], ServicerLoop(e, p).s.hub.sess[q], Sends(e, p, q))
  {
    match p
    case ServeInstall(_) => SnapshotPicksGive(e, p, q);
    case ServeQueryAttached(_, _) => SnapshotPicksGive(e, p, q);
    case ServeQueryPending(_, _) => SnapshotPicksGive(e, p, q);
    case ServeAttach(f) => AttachGives(e, f, q);
    case ServeDetach(f) => DetachGives(e, f, q);
    case ServeReload(f) => ReloadPickGives(e, f, q);
    case ServeMessage(f, drained) => MessagePickGives(e, f, drained, q);
    case ServeRunner(f, late) => RunnerPickGives(e, f, late, q);
    case _ => OtherPicksGive(e, p, q);
  }

  lemma RunnerRegisters(h: SL.ServicerHub, st: Store, task: ServicerTask, f: Faults, late: set<nat>, q: nat)
    requires HubOk(h) && Registered(SL.RunTask(h, st, task, f, late), q)
    ensures Registered(h, q)
  {
    ServicerTaskSteady(h, st, task, f, late);
  }

  /** Nobody but the session whose install is handled enters the registry. */
  lemma InstallRegisters(e: State, f: Faults, q: nat)
    requires HubOk(e.s.hub) && Registered(HandleServicerInstall(e, f).s.hub, q)
    ensures Registered(e.s.hub, q) || Installs(e, ServeInstall(f), q)
  {
    if e.sMid == [] && e.s.install != [] && e.s.install[0] in e.s.hub.sess {
      var x := e.s.install[0];
      InstallServicerSteady(e.s.hub, e.store, x, f);
      EnterAdds(SL.PendingList(SL.AttachedTalks(e.s.hub, e.store, x, f), e.store, x, f.second), x);
    }
  }

  lemma LoopRegisters(e: State, p: ServicerPick, q: nat)
    requires HubOk(e.s.hub) && Registered(ServicerLoop(e, p).s.hub, q)
    ensures Registered(e.s.hub, q) || Installs(e, p, q)
  {
    match p
    case ServeInstall(f) => InstallRegisters(e, f, q);
    case ServeUninstall => if e.s.uninstall != [] { SteadyLeave(e.s.hub, e.s.uninstall[0]); }
    case ServeRunner(f, late) => if e.sPosted != [] { ServicerTaskSteady(e.s.hub, e.store, e.sPosted[0], f, late); }
    case ServeMessage(f, drained) =>
      if e.s.inbox != [] && e.s.inbox[0].conn in e.s.hub.sess {
        ServiceMessageSteady(e.s.hub, e.store, e.s.inbox[0], f, drained);
      }
    case _ =>
  }
}
