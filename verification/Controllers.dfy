/** The two controllers: bounded channels with non-blocking sends, and the single-threaded
    loop that takes from them and calls the message domain. */
module Controllers {
  import opened Defs
  import opened TalkStore
  import opened Hubs
  import opened Sides
  import opened Sessions
  import opened Registries
  import opened TalkModel
  import opened Engine
  import opened LoopLogic
  import opened Channels
  import CL = CustomerLogic
  import SL = ServicerLogic
  import CMD = CustomerMD
  import SMD = ServicerMD

  class CustomerController {
    const md: CMD.Domain
    var chInstall: seq<Arrival>
    var chUninstall: seq<Customer>
    var chMessage: seq<CustomerMessage>
    var chClose: seq<Customer>
    var chRunner: seq<CustomerTask>
    ghost var makers: set<nat>

    constructor (md: CMD.Domain)
      requires md.Valid()
      ensures this.md == md && Valid() && makers == {}
      ensures View() == CustomerView(md.registry.Value(), md.m.Value(), [], [], [], [], [])
    {
      this.md := md;
      chInstall, chUninstall, chMessage, chClose, chRunner, makers := [], [], [], [], [], {};
    }

    ghost predicate Valid()
      reads this, md, md.m, md.registry, md.registry.all
    {
      && md.Valid() && makers <= md.registry.pool.Keys
      && CustomerChannels(chInstall, chUninstall, chMessage, chClose, md.registry.pool, makers)
    }

    ghost function View(): CustomerView
      requires md.Valid()
      reads this, md, md.m, md.registry, md.registry.all
    {
      CustomerView(md.registry.Value(), md.m.Value(), ArrivalIds(chInstall), Ids(chUninstall), Inbox(chMessage),
                   Ids(chClose), chRunner)
    }

    /** Makes the session of a new connection. */
    method NewCustomer(talkId: TalkId, maker: bool, uniqueID: nat) returns (customer: Customer)
      requires Valid() && uniqueID !in md.registry.pool
      modifies this`makers, md.registry`pool, md.registry`all
      ensures fresh(customer) && customer.uniqueID == uniqueID && customer.key == talkId
      ensures Valid() && md.Knows(customer) && makers == old(makers) + (if maker then {uniqueID} else {})
      ensures View() == old(View()).(hub := Join(old(View()).hub, uniqueID, talkId))
    {
      customer := md.registry.NewSession(talkId, uniqueID);
      ChannelsOfOneMore(chInstall, chUninstall, chMessage, chClose, old(md.registry.pool), makers, customer);
      if maker {
        makers := makers + {uniqueID};
      }
    }

    method Post(task: CustomerTask)
      requires Valid()
      modifies this`chRunner
      ensures Valid() && View() == old(View()).(posted := Push(old(chRunner), MESSAGE_CAPACITY, task))
    {
      if |chRunner| < MESSAGE_CAPACITY {
        chRunner := chRunner + [task];
      }
    }

    method InstallCustomer(customer: Session?<TalkId, TalkResponse>, maker: bool) returns (ok: bool)
      requires Valid()
      requires customer != null ==> md.Knows(customer) && (maker <==> customer.uniqueID in makers)
      modifies this`chInstall
      ensures Valid() && ok == (customer != null && |old(chInstall)| < REQUEST_CAPACITY)
      ensures View() == old(View()).(install := if ok then old(View()).install + [customer.uniqueID]
                                     else old(View()).install)
    {
      ok := customer != null && |chInstall| < REQUEST_CAPACITY;
      if ok {
        chInstall := chInstall + [Arrival(customer, maker)];
      }
    }

    method UninstallCustomer(customer: Session?<TalkId, TalkResponse>) returns (ok: bool)
      requires Valid() && (customer != null ==> md.Knows(customer))
      modifies this`chUninstall
      ensures Valid() && ok == (customer != null && |old(chUninstall)| < REQUEST_CAPACITY)
      ensures View() == old(View()).(uninstall := if ok then old(View()).uninstall + [customer.uniqueID]
                                     else old(View()).uninstall)
    {
      ok := customer != null && |chUninstall| < REQUEST_CAPACITY;
      if ok {
        chUninstall := chUninstall + [customer];
      }
    }

    method CustomerClose(customer: Session?<TalkId, TalkResponse>) returns (ok: bool)
      requires Valid() && (customer != null ==> md.Knows(customer))
      modifies this`chClose
      ensures Valid() && ok == (customer != null && |old(chClose)| < REQUEST_CAPACITY)
      ensures View() == old(View()).(closes := if ok then old(View()).closes + [customer.uniqueID]
                                     else old(View()).closes)
    {
      ok := customer != null && |chClose| < REQUEST_CAPACITY;
      if ok {
        chClose := chClose + [customer];
      }
    }

    method CustomerMessageIncoming(customer: Session?<TalkId, TalkResponse>, seqId: nat, message: Msg)
      returns (ok: bool)
      requires Valid() && (customer != null ==> md.Knows(customer))
      modifies this`chMessage
      ensures Valid() && ok == (customer != null && |old(chMessage)| < MESSAGE_CAPACITY)
      ensures View() == old(View()).(
                inbox := if ok then old(View()).inbox + [Incoming(customer.uniqueID, customer.key, seqId, message)]
                         else old(View()).inbox)
    {
      ok := customer != null && |chMessage| < MESSAGE_CAPACITY;
      if ok {
        chMessage := chMessage + [CustomerMessage(customer, seqId, message)];
      }
    }

    /** Takes the head of the install channel. */
    method NextInstall() returns (a: Arrival)
      requires Valid() && chInstall != []
      modifies this`chInstall
      ensures Valid() && md.Knows(a.customer) && (a.maker <==> a.customer.uniqueID in makers)
      ensures a.customer.uniqueID == old(View()).install[0]
      ensures View() == old(View()).(install := old(View()).install[1..])
    {
      a := chInstall[0];
      chInstall := chInstall[1..];
      assert ArrivalIds(chInstall) == old(View()).install[1..];
    }

    twostate predicate Served(p: CustomerPick)
      requires md.Valid() && old(md.Valid())
      reads this, md, md.m, md.registry, md.registry.all
    {
      var served := CustomerServes(old(View()), p, old(makers));
      View() == served.view && md.calls == old(md.calls) + served.calls && makers == old(makers)
    }

    method OnInstall(f: Faults)
      requires Valid()
      modifies this`chInstall, md, md.registry`members, md.registry.all
      ensures Valid() && Served(PickInstall(f))
    {
      if chInstall == [] {
        return;
      }
      var a := NextInstall();
      md.InstallCustomer(a.customer, a.maker, f);
    }

    method NextUninstall() returns (s: Customer)
      requires Valid() && chUninstall != []
      modifies this`chUninstall
      ensures Valid() && md.Knows(s) && s.uniqueID == old(View()).uninstall[0]
      ensures View() == old(View()).(uninstall := old(View()).uninstall[1..])
    {
      s := chUninstall[0];
      chUninstall := chUninstall[1..];
      assert Ids(chUninstall) == old(View()).uninstall[1..];
    }

    method OnUninstall()
      requires Valid()
      modifies this`chUninstall, md`tracks, md.registry`members
      ensures Valid() && Served(PickUninstall)
    {
      if chUninstall == [] {
        return;
      }
      var s := NextUninstall();
      md.UninstallCustomer(s);
    }

    method NextMessage() returns (d: CustomerMessage)
      requires Valid() && chMessage != []
      modifies this`chMessage
      ensures Valid() && md.Knows(d.customer)
      ensures Incoming(d.customer.uniqueID, d.customer.key, d.seqId, d.message) == old(View()).inbox[0]
      ensures View() == old(View()).(inbox := old(View()).inbox[1..])
    {
      d := chMessage[0];
      chMessage := chMessage[1..];
      assert Inbox(chMessage) == old(View()).inbox[1..];
    }

    method OnMessage(drained: bool)
      requires Valid()
      modifies this`chMessage, md`calls, md.registry`members, md.registry.all
      ensures Valid() && Served(PickMessage(drained))
    {
      if chMessage == [] {
        return;
      }
      var d := NextMessage();
      md.CustomerMessageIncoming(d.customer, d.seqId, d.message, drained);
    }

    method NextClose() returns (s: Customer)
      requires Valid() && chClose != []
      modifies this`chClose
      ensures Valid() && md.Knows(s) && s.uniqueID == old(View()).closes[0]
      ensures View() == old(View()).(closes := old(View()).closes[1..])
    {
      s := chClose[0];
      chClose := chClose[1..];
      assert Ids(chClose) == old(View()).closes[1..];
    }

    method OnClose(f: Faults)
      requires Valid()
      modifies this`chClose, md`calls, md.m`talks
      ensures Valid() && Served(PickClose(f))
    {
      if chClose == [] {
        return;
      }
      var s := NextClose();
      md.CustomerClose(s, f);
    }

    method OnRunner(late: set<nat>)
      requires Valid()
      modifies this`chRunner, md.registry`members, md.registry.all
      ensures Valid() && Served(PickRunner(late))
    {
      if chRunner == [] {
        return;
      }
      var task := chRunner[0];
      chRunner := chRunner[1..];
      md.RunTask(task, late);
    }

    method OnPick(p: CustomerPick)
      requires Valid()
      modifies this`chInstall, this`chUninstall, this`chMessage, this`chClose, this`chRunner
      modifies md, md.registry`members, md.registry.all, md.m`talks
      ensures Valid() && Served(p)
    {
      match p
      case PickInstall(f) => OnInstall(f);
      case PickUninstall => OnUninstall();
      case PickMessage(drained) => OnMessage(drained);
      case PickClose(f) => OnClose(f);
      case PickRunner(late) => OnRunner(late);
      case PickCall(_) =>
    }

    /** A callback of the bus for the customers: posts its closure, dropped when there is no room. */
    method OnCallback(b: Callback)
      requires Valid() && ForCustomers(b)
      modifies this`chRunner
      ensures Valid()
      ensures View() == old(View()).(posted := Push(old(chRunner), MESSAGE_CAPACITY, CustomerTaskOf(b)))
    {
      if b.CustomerOnMessage? {
        Post(CastMessage(b.talkId, b.message));
      } else {
        Post(CastClose(b.talkId));
      }
    }
  }

  class ServicerController {
    const md: SMD.Domain
    var chInstall: seq<Servicer>
    var chUninstall: seq<Servicer>
    var chAttach: seq<ServicerWithTalk>
    var chDetach: seq<ServicerWithTalk>
    var chReload: seq<ServicerWithTalk>
    var chMessage: seq<ServicerMessage>
    var chRunner: seq<ServicerTask>

    constructor (md: SMD.Domain)
      requires md.Valid()
      ensures this.md == md && Valid()
      ensures View() == ServicerView(md.registry.Value(), md.m.Value(), [], [], [], [], [], [], [])
    {
      this.md := md;
      chInstall, chUninstall, chAttach, chDetach, chReload, chMessage, chRunner := [], [], [], [], [], [], [];
    }

    ghost predicate Valid()
      reads this, md, md.m, md.registry, md.registry.all
    {
      md.Valid() && ServicerChannels(chInstall, chUninstall, chAttach, chDetach, chReload, chMessage, md.registry.pool)
    }

    ghost function View(): ServicerView
      requires md.Valid()
      reads this, md, md.m, md.registry, md.registry.all
    {
      ServicerView(md.registry.Value(), md.m.Value(), Ids(chInstall), Ids(chUninstall), Requests(chAttach),
                   Requests(chDetach), Requests(chReload), ServicerInbox(chMessage), chRunner)
    }

    twostate predicate Served(p: ServicerPick)
      requires md.Valid() && old(md.Valid())
      reads this, md, md.m, md.registry, md.registry.all
    {
      var served := ServicerServes(old(View()), p);
      View() == served.view && md.calls == old(md.calls) + served.calls
    }

    /** Makes the session of a new connection. */
    method NewServicer(userID: nat, uniqueID: nat) returns (servicer: Servicer)
      requires Valid() && uniqueID !in md.registry.pool
      modifies md.registry`pool, md.registry`all
      ensures fresh(servicer) && servicer.uniqueID == uniqueID && servicer.key == userID
      ensures Valid() && md.Knows(servicer)
      ensures View() == old(View()).(hub := Join(old(View()).hub, uniqueID, userID))
    {
      servicer := md.registry.NewSession(userID, uniqueID);
    }

    method Post(task: ServicerTask)
      requires Valid()
      modifies this`chRunner
      ensures Valid() && View() == old(View()).(posted := Push(old(chRunner), MESSAGE_CAPACITY, task))
    {
      if |chRunner| < MESSAGE_CAPACITY {
        chRunner := chRunner + [task];
      }
    }

    method InstallServicer(servicer: Session?<nat, ServiceResponse>) returns (ok: bool)
      requires Valid() && (servicer != null ==> md.Knows(servicer))
      modifies this`chInstall
      ensures Valid() && ok == (servicer != null && |old(chInstall)| < REQUEST_CAPACITY)
      ensures View() == old(View()).(install := if ok then old(View()).install + [servicer.uniqueID]
                                     else old(View()).install)
    {
      ok := servicer != null && |chInstall| < REQUEST_CAPACITY;
      if ok {
        chInstall := chInstall + [servicer];
      }
    }

    method UninstallServicer(servicer: Session?<nat, ServiceResponse>) returns (ok: bool)
      requires Valid() && (servicer != null ==> md.Knows(servicer))
      modifies this`chUninstall
      ensures Valid() && ok == (servicer != null && |old(chUninstall)| < REQUEST_CAPACITY)
      ensures View() == old(View()).(uninstall := if ok then old(View()).uninstall + [servicer.uniqueID]
                                     else old(View()).uninstall)
    {
      ok := servicer != null && |chUninstall| < REQUEST_CAPACITY;
      if ok {
        chUninstall := chUninstall + [servicer];
      }
    }

    /** An empty talk id is refused. */
    method ServicerAttachTalk(servicer: Session?<nat, ServiceResponse>, t: TalkId) returns (ok: bool)
      requires Valid() && (servicer != null ==> md.Knows(servicer))
      modifies this`chAttach
      ensures Valid() && ok == (servicer != null && t != "" && |old(chAttach)| < REQUEST_CAPACITY)
      ensures View() == old(View()).(attaches := if ok then old(View()).attaches + [Request(servicer.uniqueID, t)]
                                     else old(View()).attaches)
    {
      ok := servicer != null && t != "" && |chAttach| < REQUEST_CAPACITY;
      if ok {
        chAttach := chAttach + [ServicerWithTalk(servicer, t)];
      }
    }

    method ServicerDetachTalk(servicer: Session?<nat, ServiceResponse>, t: TalkId) returns (ok: bool)
      requires Valid() && (servicer != null ==> md.Knows(servicer))
      modifies this`chDetach
      ensures Valid() && ok == (servicer != null && t != "" && |old(chDetach)| < REQUEST_CAPACITY)
      ensures View() == old(View()).(detaches := if ok then old(View()).detaches + [Request(servicer.uniqueID, t)]
                                     else old(View()).detaches)
    {
      ok := servicer != null && t != "" && |chDetach| < REQUEST_CAPACITY;
      if ok {
        chDetach := chDetach + [ServicerWithTalk(servicer, t)];
      }
    }

    /** Here an empty talk id is not. */
    method ServicerReloadTalk(servicer: Session?<nat, ServiceResponse>, t: TalkId) returns (ok: bool)
      requires Valid() && (servicer != null ==> md.Knows(servicer))
      modifies this`chReload
      ensures Valid() && ok == (servicer != null && |old(chReload)| < REQUEST_CAPACITY)
      ensures View() == old(View()).(reloads := if ok then old(View()).reloads + [Request(servicer.uniqueID, t)]
                                     else old(View()).reloads)
    {
      ok := servicer != null && |chReload| < REQUEST_CAPACITY;
      if ok {
        chReload := chReload + [ServicerWithTalk(servicer, t)];
      }
    }

    method ServicerMessageIncoming(servicer: Session?<nat, ServiceResponse>, seqId: nat, t: TalkId, message: Msg)
      returns (ok: bool)
      requires Valid() && (servicer != null ==> md.Knows(servicer))
      modifies this`chMessage
      ensures Valid() && ok == (servicer != null && t != "" && |old(chMessage)| < MESSAGE_CAPACITY)
      ensures View() == old(View()).(
                inbox := if ok then old(View()).inbox + [Incoming(servicer.uniqueID, t, seqId, message)]
                         else old(View()).inbox)
    {
      ok := servicer != null && t != "" && |chMessage| < MESSAGE_CAPACITY;
      if ok {
        chMessage := chMessage + [ServicerMessage(servicer, seqId, t, message)];
      }
    }

    /** Takes the head of the install channel. */
    method NextInstall() returns (s: Servicer)
      requires Valid() && chInstall != []
      modifies this`chInstall
      ensures Valid() && md.Knows(s) && s.uniqueID == old(View()).install[0]
      ensures View() == old(View()).(install := old(View()).install[1..])
    {
      s := chInstall[0];
      chInstall := chInstall[1..];
      assert Ids(chInstall) == old(View()).install[1..];
    }

    method OnInstall(f: Faults)
      requires Valid()
      modifies this`chInstall, md`tracks, md.registry`members, md.registry.all
      ensures Valid() && Served(ServeInstall(f))
    {
      if chInstall == [] {
        return;
      }
      var s := NextInstall();
      md.InstallServicer(s, f);
    }

    method NextUninstall() returns (s: Servicer)
      requires Valid() && chUninstall != []
      modifies this`chUninstall
      ensures Valid() && md.Knows(s) && s.uniqueID == old(View()).uninstall[0]
      ensures View() == old(View()).(uninstall := old(View()).uninstall[1..])
    {
      s := chUninstall[0];
      chUninstall := chUninstall[1..];
      assert Ids(chUninstall) == old(View()).uninstall[1..];
    }

    /** `failed` says whether reading the talks of a user who is gone fails. */
    method OnUninstall(failed: bool)
      requires Valid()
      modifies this`chUninstall, md`tracks, md.registry`members
      ensures Valid() && Served(ServeUninstall)
    {
      if chUninstall == [] {
        return;
      }
      var s := NextUninstall();
      md.UninstallServicer(s, failed);
    }

    method NextAttach() returns (at: ServicerWithTalk)
      requires Valid() && chAttach != []
      modifies this`chAttach
      ensures Valid() && md.Knows(at.servicer)
      ensures Request(at.servicer.uniqueID, at.talkId) == old(View()).attaches[0]
      ensures View() == old(View()).(attaches := old(View()).attaches[1..])
    {
      at := chAttach[0];
      chAttach := chAttach[1..];
      assert Requests(chAttach) == old(View()).attaches[1..];
    }

    method OnAttach(f: Faults)
      requires Valid()
      modifies this`chAttach, md`calls, md.m`talks
      ensures Valid() && Served(ServeAttach(f))
    {
      if chAttach == [] {
        return;
      }
      var at := NextAttach();
      md.ServicerAttachTalk(at.talkId, at.servicer, f);
    }

    method NextDetach() returns (at: ServicerWithTalk)
      requires Valid() && chDetach != []
      modifies this`chDetach
      ensures Valid() && md.Knows(at.servicer)
      ensures Request(at.servicer.uniqueID, at.talkId) == old(View()).detaches[0]
      ensures View() == old(View()).(detaches := old(View()).detaches[1..])
    {
      at := chDetach[0];
      chDetach := chDetach[1..];
      assert Requests(chDetach) == old(View()).detaches[1..];
    }

    method OnDetach(f: Faults)
      requires Valid()
      modifies this`chDetach, md`calls, md.m`talks, md.registry.all
      ensures Valid() && Served(ServeDetach(f))
    {
      if chDetach == [] {
        return;
      }
      var at := NextDetach();
      md.ServicerDetachTalk(at.talkId, at.servicer, f);
    }

    method NextReload() returns (at: ServicerWithTalk)
      requires Valid() && chReload != []
      modifies this`chReload
      ensures Valid() && md.Knows(at.servicer)
      ensures Request(at.servicer.uniqueID, at.talkId) == old(View()).reloads[0]
      ensures View() == old(View()).(reloads := old(View()).reloads[1..])
    {
      at := chReload[0];
      chReload := chReload[1..];
      assert Requests(chReload) == old(View()).reloads[1..];
    }

    method OnReload(f: Faults)
      requires Valid()
      modifies this`chReload, md.registry.all
      ensures Valid() && Served(ServeReload(f))
    {
      if chReload == [] {
        return;
      }
      var at := NextReload();
      md.ServicerReloadTalk(at.servicer, at.talkId, f);
    }

    /** The two query channels hold nothing: the loop takes a query from the session itself. */
    method OnQueryAttached(s: Servicer, f: Faults)
      requires Valid() && md.Knows(s)
      modifies md.registry.all
      ensures Valid() && Served(ServeQueryAttached(s.uniqueID, f))
    {
      var _ := md.SendAttachedTalks(s, f);
    }

    method OnQueryPending(s: Servicer, f: Faults)
      requires Valid() && md.Knows(s)
      modifies md.registry.all
      ensures Valid() && Served(ServeQueryPending(s.uniqueID, f))
    {
      md.SendPendingTalks(s, f.read);
    }

    /** The two query channels are unbuffered: a query is handed to the loop if that is
        `ready`, which then answers it, and refused otherwise. */
    method ServicerQueryAttachedTalks(servicer: Session?<nat, ServiceResponse>, ready: bool, f: Faults)
      returns (ok: bool)
      requires Valid() && (servicer != null ==> md.Knows(servicer))
      modifies md.registry.all
      ensures Valid() && ok == (servicer != null && ready)
      ensures if ok then Served(ServeQueryAttached(servicer.uniqueID, f)) else View() == old(View())
    {
      ok := servicer != null && ready;
      if ok {
        OnQueryAttached(servicer, f);
      }
    }

    method ServicerQueryPendingTalks(servicer: Session?<nat, ServiceResponse>, ready: bool, f: Faults)
      returns (ok: bool)
      requires Valid() && (servicer != null ==> md.Knows(servicer))
      modifies md.registry.all
      ensures Valid() && ok == (servicer != null && ready)
      ensures if ok then Served(ServeQueryPending(servicer.uniqueID, f)) else View() == old(View())
    {
      ok := servicer != null && ready;
      if ok {
        OnQueryPending(servicer, f);
      }
    }

    method NextMessage() returns (d: ServicerMessage)
      requires Valid() && chMessage != []
      modifies this`chMessage
      ensures Valid() && md.Knows(d.servicer)
      ensures Incoming(d.servicer.uniqueID, d.talkId, d.seqId, d.message) == old(View()).inbox[0]
      ensures View() == old(View()).(inbox := old(View()).inbox[1..])
    {
      d := chMessage[0];
      chMessage := chMessage[1..];
      assert ServicerInbox(chMessage) == old(View()).inbox[1..];
    }

    method OnMessage(f: Faults, drained: bool)
      requires Valid()
      modifies this`chMessage, md`calls, md.registry`members, md.registry.all
      ensures Valid() && Served(ServeMessage(f, drained))
    {
      if chMessage == [] {
        return;
      }
      var d := NextMessage();
      md.ServiceMessage(d.servicer, d.talkId, d.seqId, d.message, f, drained);
    }

    method OnRunner(f: Faults, late: set<nat>)
      requires Valid()
      modifies this`chRunner, md.registry`members, md.registry.all
      ensures Valid() && Served(ServeRunner(f, late))
    {
      if chRunner == [] {
        return;
      }
      var task := chRunner[0];
      chRunner := chRunner[1..];
      md.RunTask(task, f, late);
    }

    /** A callback of the bus for the servicers: posts its closure, dropped when there is no
        room; a detach looks the talk up first and posts nothing when that fails. */
    method OnCallback(b: Callback, down: bool)
      requires Valid() && !ForCustomers(b)
      modifies this`chRunner
      ensures Valid()
      ensures var task := ServicerTaskOf(b, old(View()).store, down);
              View() == if task.None? then old(View())
                        else old(View()).(posted := Push(old(chRunner), MESSAGE_CAPACITY, task.value))
    {
      match b
      case ServicerOnMessage(t, m) => Post(TellMessage(t, m));
      case ServicerOnCreate(t) => Post(TellCreate(t));
      case ServicerOnClose(t) => Post(TellClose(t));
      case ServicerOnAttach(t, u) => Post(TellAttach(t, u));
      case ServicerOnDetach(t, u) =>
        var talk := md.m.GetTalkInfo(t, down);
        if talk.Some? {
          Post(TellDetach(talk.value, u));
        }
    }
  }
}
