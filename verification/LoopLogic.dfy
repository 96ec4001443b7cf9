/** The two controller loops on their own: what one pick of the select statement does to the
    loop's channels, its registry and the store, and which call on the bus it makes. The
    engine's loop steps are these. */
module LoopLogic {
  import opened Defs
  import opened TalkStore
  import opened Hubs
  import opened Sides
  import opened AllInOne
  import opened Engine
  import CL = CustomerLogic
  import SL = ServicerLogic

  datatype CustomerView = CustomerView(
    hub: CL.CustomerHub,
    store: Store,
    install: seq<nat>,
    uninstall: seq<nat>,
    inbox: seq<Incoming>,
    closes: seq<nat>,
    posted: seq<CustomerTask>)

  datatype ServicerView = ServicerView(
    hub: SL.ServicerHub,
    store: Store,
    install: seq<nat>,
    uninstall: seq<nat>,
    attaches: seq<Request>,
    detaches: seq<Request>,
    reloads: seq<Request>,
    inbox: seq<Incoming>,
    posted: seq<ServicerTask>)

  datatype Served<V> = Served(view: V, calls: seq<BusCall>)

  /** `makers` are the sessions that created their talk. */
  function CustomerServes(v: CustomerView, p: CustomerPick, makers: set<nat>): Served<CustomerView> {
    match p
    case PickInstall(f) =>
      if v.install == [] || v.install[0] !in v.hub.sess then Served(v, [])
      else
        var o := CL.InstallCustomer(v.hub, v.store, v.install[0], v.install[0] in makers, f);
        Served(v.(install := v.install[1..], hub := o.hub, store := o.store), Listed(o.call))
    case PickUninstall =>
      if v.uninstall == [] then Served(v, [])
      else Served(v.(uninstall := v.uninstall[1..], hub := Leave(v.hub, v.uninstall[0])), [])
    case PickMessage(drained) =>
      if v.inbox == [] || v.inbox[0].conn !in v.hub.sess then Served(v, [])
      else
        var d := v.inbox[0];
        var o := CL.CustomerMessageIncoming(v.hub, v.store, d.conn, d.seqId, d.message, drained);
        Served(v.(inbox := v.inbox[1..], hub := o.hub, store := o.store), Listed(o.call))
    case PickClose(f) =>
      if v.closes == [] || v.closes[0] !in v.hub.sess then Served(v, [])
      else
        var o := CL.CustomerClose(v.hub, v.store, v.closes[0], f);
        Served(v.(closes := v.closes[1..], hub := o.hub, store := o.store), Listed(o.call))
    case PickRunner(late) =>
      if v.posted == [] then Served(v, [])
      else Served(v.(posted := v.posted[1..], hub := CL.RunTask(v.hub, v.posted[0], late)), [])
    case PickCall(_) => Served(v, [])
  }

  function ServicerServes(v: ServicerView, p: ServicerPick): Served<ServicerView> {
    match p
    case ServeInstall(f) =>
      if v.install == [] || v.install[0] !in v.hub.sess then Served(v, [])
      else Served(v.(install := v.install[1..], hub := SL.InstallServicer(v.hub, v.store, v.install[0], f)), [])
    case ServeUninstall =>
      if v.uninstall == [] then Served(v, [])
      else Served(v.(uninstall := v.uninstall[1..], hub := Leave(v.hub, v.uninstall[0])), [])
    case ServeAttach(f) =>
      if v.attaches == [] || v.attaches[0].conn !in v.hub.sess then Served(v, [])
      else
        var o := SL.AttachTalk(v.hub, v.store, v.attaches[0].conn, v.attaches[0].talkId, f);
        Served(v.(attaches := v.attaches[1..], hub := o.hub, store := o.store), Listed(o.call))
    case ServeDetach(f) =>
      if v.detaches == [] || v.detaches[0].conn !in v.hub.sess then Served(v, [])
      else
        var o := SL.DetachTalk(v.hub, v.store, v.detaches[0].conn, v.detaches[0].talkId, f);
        Served(v.(detaches := v.detaches[1..], hub := o.hub, store := o.store), Listed(o.call))
    case ServeReload(f) =>
      if v.reloads == [] || v.reloads[0].conn !in v.hub.sess then Served(v, [])
      else
        Served(v.(reloads := v.reloads[1..],
                  hub := SL.ReloadTalk(v.hub, v.store, v.reloads[0].conn, v.reloads[0].talkId, f)), [])
    case ServeQueryAttached(q, f) =>
      if q !in v.hub.sess then Served(v, []) else Served(v.(hub := SL.AttachedTalks(v.hub, v.store, q, f)), [])
    case ServeQueryPending(q, f) =>
      if q !in v.hub.sess then Served(v, []) else Served(v.(hub := SL.PendingList(v.hub, v.store, q, f.read)), [])
    case ServeMessage(f, drained) =>
      if v.inbox == [] || v.inbox[0].conn !in v.hub.sess then Served(v, [])
      else
        var d := v.inbox[0];
        var o := SL.ServiceMessage(v.hub, v.store, d.conn, d.talkId, d.seqId, d.message, f, drained);
        Served(v.(inbox := v.inbox[1..], hub := o.hub, store := o.store), Listed(o.call))
    case ServeRunner(f, late) =>
      if v.posted == [] then Served(v, [])
      else Served(v.(posted := v.posted[1..], hub := SL.RunTask(v.hub, v.store, v.posted[0], f, late)), [])
    case ServeCall(_) => Served(v, [])
  }

  /** One more pick after those already served. */
  function CustomerAfter(so: Served<CustomerView>, p: CustomerPick, makers: set<nat>): Served<CustomerView> {
    var last := CustomerServes(so.view, p, makers);
    Served(last.view, so.calls + last.calls)
  }

  function ServicerAfter(so: Served<ServicerView>, p: ServicerPick): Served<ServicerView> {
    var last := ServicerServes(so.view, p);
    Served(last.view, so.calls + last.calls)
  }

  /** A run of picks, with the calls they make one after the other. */
  function CustomerServesAll(so: Served<CustomerView>, picks: seq<CustomerPick>,
                             makers: set<nat>): Served<CustomerView> {
    if picks == [] then so
    else CustomerAfter(CustomerServesAll(so, picks[..|picks| - 1], makers), picks[|picks| - 1], makers)
  }

  function ServicerServesAll(so: Served<ServicerView>, picks: seq<ServicerPick>): Served<ServicerView> {
    if picks == [] then so else ServicerAfter(ServicerServesAll(so, picks[..|picks| - 1]), picks[|picks| - 1])
  }

  lemma CustomerServesOneMore(so: Served<CustomerView>, picks: seq<CustomerPick>, i: nat, makers: set<nat>)
    requires i < |picks|
    ensures CustomerServesAll(so, picks[..i + 1], makers)
            == CustomerAfter(CustomerServesAll(so, picks[..i], makers), picks[i], makers)
  {
    assert picks[..i + 1][..i] == picks[..i];
  }

  lemma ServicerServesOneMore(so: Served<ServicerView>, picks: seq<ServicerPick>, i: nat)
    requires i < |picks|
    ensures ServicerServesAll(so, picks[..i + 1]) == ServicerAfter(ServicerServesAll(so, picks[..i]), picks[i])
  {
    assert picks[..i + 1][..i] == picks[..i];
  }

  // ---- the loops inside the engine ----

  function CustomerViewOf(e: State): CustomerView {
    CustomerView(e.c.hub, e.store, e.c.install, e.c.uninstall, e.c.inbox, e.closes, e.cPosted)
  }

  function ServicerViewOf(e: State): ServicerView {
    ServicerView(e.s.hub, e.store, e.s.install, e.s.uninstall, e.attaches, e.detaches, e.reloads, e.s.inbox, e.sPosted)
  }

  lemma OneCall(call: Option<BusCall>)
    ensures AllCallbacks(Listed(call)) == CallbacksOf(call)
  {
    if call.Some? {
      assert Listed(call)[..0] == [];
    }
  }

  lemma InstallServed(e: State, f: Faults)
    requires e.cMid == []
    ensures CustomerViewOf(HandleCustomerInstall(e, f))
            == CustomerServes(CustomerViewOf(e), PickInstall(f), e.makers).view
    ensures HandleCustomerInstall(e, f).cMid
            == AllCallbacks(CustomerServes(CustomerViewOf(e), PickInstall(f), e.makers).calls)
  {
    if e.c.install != [] && e.c.install[0] in e.c.hub.sess {
      OneCall(CL.InstallCustomer(e.c.hub, e.store, e.c.install[0], e.c.install[0] in e.makers, f).call);
    }
  }

  /** Between two calls on the bus, the engine's customer loop does just this. */
  lemma EngineServesCustomers(e: State, p: CustomerPick)
    requires e.cMid == []
    ensures var served := CustomerServes(CustomerViewOf(e), p, e.makers);
            CustomerViewOf(CustomerLoop(e, p)) == served.view && CustomerLoop(e, p).cMid == AllCallbacks(served.calls)
  {
    match p
    case PickInstall(f) => InstallServed(e, f);
    case PickMessage(drained) =>
      if e.c.inbox != [] && e.c.inbox[0].conn in e.c.hub.sess {
        var d := e.c.inbox[0];
        OneCall(CL.CustomerMessageIncoming(e.c.hub, e.store, d.conn, d.seqId, d.message, drained).call);
      }
    case PickClose(f) =>
      if e.closes != [] && e.closes[0] in e.c.hub.sess {
        OneCall(CL.CustomerClose(e.c.hub, e.store, e.closes[0], f).call);
      }
    case _ =>
  }

  lemma OwnershipServed(e: State, f: Faults)
    requires e.sMid == []
    ensures var a, d := ServicerServes(ServicerViewOf(e), ServeAttach(f)),
            ServicerServes(ServicerViewOf(e), ServeDetach(f));
            && ServicerViewOf(HandleAttach(e, f)) == a.view && HandleAttach(e, f).sMid == AllCallbacks(a.calls)
            && ServicerViewOf(HandleDetach(e, f)) == d.view && HandleDetach(e, f).sMid == AllCallbacks(d.calls)
  {
    if e.attaches != [] && e.attaches[0].conn in e.s.hub.sess {
      OneCall(SL.AttachTalk(e.s.hub, e.store, e.attaches[0].conn, e.attaches[0].talkId, f).call);
    }
    if e.detaches != [] && e.detaches[0].conn in e.s.hub.sess {
      OneCall(SL.DetachTalk(e.s.hub, e.store, e.detaches[0].conn, e.detaches[0].talkId, f).call);
    }
  }

  lemma MessageServed(e: State, f: Faults, drained: bool)
    requires e.sMid == []
    ensures var served := ServicerServes(ServicerViewOf(e), ServeMessage(f, drained));
            && ServicerViewOf(HandleServicerMessage(e, f, drained)) == served.view
            && HandleServicerMessage(e, f, drained).sMid == AllCallbacks(served.calls)
  {
    if e.s.inbox != [] && e.s.inbox[0].conn in e.s.hub.sess {
      var d := e.s.inbox[0];
      OneCall(SL.ServiceMessage(e.s.hub, e.store, d.conn, d.talkId, d.seqId, d.message, f, drained).call);
    }
  }

  /** Between two calls on the bus, the engine's servicer loop does just this; a query comes
      from a session that is reading. */
  lemma EngineServesServicers(e: State, p: ServicerPick)
    requires e.sMid == []
    requires p.ServeQueryAttached? || p.ServeQueryPending? ==> Reading(e.s, p.q)
    ensures var served := ServicerServes(ServicerViewOf(e), p);
            ServicerViewOf(ServicerLoop(e, p)) == served.view && ServicerLoop(e, p).sMid == AllCallbacks(served.calls)
  {
    match p
    case ServeAttach(f) => OwnershipServed(e, f);
    case ServeDetach(f) => OwnershipServed(e, f);
    case ServeMessage(f, drained) => MessageServed(e, f, drained);
    case _ =>
  }
}
