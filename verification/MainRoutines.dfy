/** The controllers' main routines: select loops over whatever the scheduler picks. */
module MainRoutines {
  import opened Defs
  import opened TalkStore
  import opened Hubs
  import opened Sessions
  import opened Registries
  import opened Engine
  import opened LoopLogic
  import opened Channels
  import opened Controllers
  import CMD = CustomerMD
  import SMD = ServicerMD

  /** What the servicer loop may pick; a query comes with the session that asks. */
  datatype Choice =
    | Installs(f: Faults)
    | Uninstalls(failed: bool)
    | Attaches(f: Faults)
    | Detaches(f: Faults)
    | Reloads(f: Faults)
    | QueriesAttached(servicer: Servicer, f: Faults)
    | QueriesPending(servicer: Servicer, f: Faults)
    | Messages(f: Faults, drained: bool)
    | Runs(f: Faults, late: set<nat>)

  function PickOf(c: Choice): ServicerPick {
    match c
    case Installs(f) => ServeInstall(f)
    case Uninstalls(_) => ServeUninstall
    case Attaches(f) => ServeAttach(f)
    case Detaches(f) => ServeDetach(f)
    case Reloads(f) => ServeReload(f)
    case QueriesAttached(s, f) => ServeQueryAttached(s.uniqueID, f)
    case QueriesPending(s, f) => ServeQueryPending(s.uniqueID, f)
    case Messages(f, drained) => ServeMessage(f, drained)
    case Runs(f, late) => ServeRunner(f, late)
  }

  function PicksOf(choices: seq<Choice>): seq<ServicerPick> {
    seq(|choices|, i requires 0 <= i < |choices| => PickOf(choices[i]))
  }

  predicate AsksForLists(p: Choice) {
    p.Reloads? || p.QueriesAttached? || p.QueriesPending?
  }

  method ServicerListPicks(c: ServicerController, p: Choice)
    requires c.Valid() && AsksForLists(p)
    requires p.QueriesAttached? || p.QueriesPending? ==> c.md.Knows(p.servicer)
    modifies c`chReload, c.md.registry.all
    ensures c.Valid() && c.Served(PickOf(p))
  {
    match p
    case Reloads(f) => c.OnReload(f);
    case QueriesAttached(s, f) => c.OnQueryAttached(s, f);
    case QueriesPending(s, f) => c.OnQueryPending(s, f);
  }

  method ServicerPicks(c: ServicerController, p: Choice)
    requires c.Valid()
    requires p.QueriesAttached? || p.QueriesPending? ==> c.md.Knows(p.servicer)
    modifies c`chInstall, c`chUninstall, c`chAttach, c`chDetach, c`chReload, c`chMessage, c`chRunner
    modifies c.md, c.md.registry`members, c.md.registry.all, c.md.m`talks
    ensures c.Valid() && c.Served(PickOf(p))
  {
    match p
    case Installs(f) => c.OnInstall(f);
    case Uninstalls(failed) => c.OnUninstall(failed);
    case Attaches(f) => c.OnAttach(f);
    case Detaches(f) => c.OnDetach(f);
    case Messages(f, drained) => c.OnMessage(f, drained);
    case Runs(f, late) => c.OnRunner(f, late);
    case _ => ServicerListPicks(c, p);
  }

  /** One turn of the loop, on top of what was served before. */
  method CustomerTurn(c: CustomerController, p: CustomerPick, ghost so: Served<CustomerView>)
    requires c.Valid() && c.View() == so.view && c.md.calls == so.calls
    modifies c`chInstall, c`chUninstall, c`chMessage, c`chClose, c`chRunner
    modifies c.md, c.md.registry`members, c.md.registry.all, c.md.m`talks
    ensures c.Valid() && c.makers == old(c.makers)
    ensures Served(c.View(), c.md.calls) == CustomerAfter(so, p, c.makers)
  {
    c.OnPick(p);
  }

  method ServicerTurn(c: ServicerController, p: Choice, ghost so: Served<ServicerView>)
    requires c.Valid() && c.View() == so.view && c.md.calls == so.calls
    requires p.QueriesAttached? || p.QueriesPending? ==> IsKnown(p.servicer, c.md.registry.pool)
    modifies c`chInstall, c`chUninstall, c`chAttach, c`chDetach, c`chReload, c`chMessage, c`chRunner
    modifies c.md, c.md.registry`members, c.md.registry.all, c.md.m`talks
    ensures c.Valid() && c.md.registry.pool == old(c.md.registry.pool)
    ensures Served(c.View(), c.md.calls) == ServicerAfter(so, PickOf(p))
  {
    ServicerPicks(c, p);
  }

  /** The customer controller's loop, for the given picks. */
  method CustomerMainRoutine(c: CustomerController, picks: seq<CustomerPick>)
    requires c.Valid()
    modifies c`chInstall, c`chUninstall, c`chMessage, c`chClose, c`chRunner
    modifies c.md, c.md.registry`members, c.md.registry.all, c.md.m`talks
    ensures c.Valid()
    ensures Served(c.View(), c.md.calls)
            == CustomerServesAll(Served(old(c.View()), old(c.md.calls)), picks, old(c.makers))
  {
    ghost var first, makers := Served(c.View(), c.md.calls), c.makers;
    ghost var so := first;
    for i := 0 to |picks|
      invariant c.Valid() && c.makers == makers
      invariant so == CustomerServesAll(first, picks[..i], makers)
      invariant Served(c.View(), c.md.calls) == so
    {
      CustomerServesOneMore(first, picks, i, makers);
      CustomerTurn(c, picks[i], so);
      so := Served(c.View(), c.md.calls);
    }
    assert picks[..|picks|] == picks;
  }

  /** The servicer controller's loop. */
  method ServicerMainRoutine(c: ServicerController, choices: seq<Choice>)
    requires c.Valid()
    requires forall p | p in choices && (p.QueriesAttached? || p.QueriesPending?) ::
             IsKnown(p.servicer, c.md.registry.pool)
    modifies c`chInstall, c`chUninstall, c`chAttach, c`chDetach, c`chReload, c`chMessage, c`chRunner
    modifies c.md, c.md.registry`members, c.md.registry.all, c.md.m`talks
    ensures c.Valid()
    ensures Served(c.View(), c.md.calls) == ServicerServesAll(Served(old(c.View()), old(c.md.calls)), PicksOf(choices))
  {
    ghost var first, picks, pool := Served(c.View(), c.md.calls), PicksOf(choices), c.md.registry.pool;
    ghost var so := first;
    for i := 0 to |choices|
      invariant c.Valid() && c.md.registry.pool == pool
      invariant so == ServicerServesAll(first, picks[..i])
      invariant Served(c.View(), c.md.calls) == so
    {
      ServicerServesOneMore(first, picks, i);
      assert choices[i] in choices;
      ServicerTurn(c, choices[i], so);
      so := Served(c.View(), c.md.calls);
    }
    assert picks[..|picks|] == picks;
  }
}
