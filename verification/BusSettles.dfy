/** The shared-channel bus gets everything through: from every state of every run, publishing
    and delivering what is queued ends, and then each observer has heard exactly what the
    in-process bus would have made it hear. */
module BusSettles {
  import opened Defs
  import opened AllInOne
  import opened Mq
  import opened SharedBus
  import opened BusFacts

  /** What is still to be moved; a publication may become a delivery at each process. */
  function Unsettled(b: Bus): nat {
    3 * (|b.customers.out| + |b.servicers.out|)
    + |b.customers.all| + |b.customers.own| + |b.servicers.all| + |b.servicers.own|
  }

  /** The next thing to be moved. */
  function Move(b: Bus): Option<BusStep> {
    if b.customers.out != [] then Some(Publishes(UserModeCustomer))
    else if b.servicers.out != [] then Some(Publishes(UserModeServicer))
    else if b.customers.all != [] then Some(Delivers(UserModeCustomer, false))
    else if b.customers.own != [] then Some(Delivers(UserModeCustomer, true))
    else if b.servicers.all != [] then Some(Delivers(UserModeServicer, false))
    else if b.servicers.own != [] then Some(Delivers(UserModeServicer, true))
    else None
  }

  /** Every move brings the bus closer to rest, and no call is added or forgotten by it. */
  lemma MovesSettle(b: Bus)
    requires Move(b).Some?
    ensures var b' := BusNext(b, Move(b).value);
            && Unsettled(b') < Unsettled(b)
            && b'.customers.calls == b.customers.calls && b'.servicers.calls == b.servicers.calls
  {
  }

  /** The moves that are left. */
  function Moves(b: Bus): seq<BusStep>
    decreases Unsettled(b)
  {
    if Move(b).None? then []
    else
      MovesSettle(b);
      [Move(b).value] + Moves(BusNext(b, Move(b).value))
  }

  lemma {:induction false} BusRunMore(b: Bus, before: seq<BusStep>, after: seq<BusStep>)
    ensures BusRun(b, before + after) == BusRun(BusRun(b, before), after)
  {
    if after == [] {
      assert before + after == before;
    } else {
      var front := after[..|after| - 1];
      BusRunMore(b, before, front);
      assert (before + after)[..|before + front|] == before + front;
    }
  }

  lemma {:induction false} MovesEmptyTheQueues(b: Bus)
    ensures var b' := BusRun(b, Moves(b));
            && Move(b') == None
            && b'.customers.calls == b.customers.calls && b'.servicers.calls == b.servicers.calls
    decreases Unsettled(b)
  {
    if Move(b).Some? {
      MovesSettle(b);
      MovesEmptyTheQueues(BusNext(b, Move(b).value));
      BusRunMore(b, [Move(b).value], Moves(BusNext(b, Move(b).value)));
      assert [Move(b).value][..0] == [];
    }
  }

  lemma NothingDecoded()
    ensures Decoded([]) == [] && forall mode :: Pending(mode, []) == []
  {
  }

  /** After any run of the bus, make the moves that are left. Then every call a process made
      has been published, and for each exchange it has made the callbacks of the in-process bus
      for the calls published there: no more, no fewer, in that order. */
  lemma EverythingArrives(steps: seq<BusStep>, mode: UserMode)
    ensures var before := BusRun(SILENT, steps);
            var b := BusRun(before, Moves(before));
            var p := ProcessOf(b, mode);
            && CallsBy(b.log, mode) == ProcessOf(before, mode).calls
            && p.heardAll == Reference(CallsOn(b.log, SPECIAL_ALL), mode)
            && p.heardOwn == Reference(CallsOn(b.log, SpecialTalk(mode)), mode)
  {
    var before := BusRun(SILENT, steps);
    MovesEmptyTheQueues(before);
    BusRunMore(SILENT, steps, Moves(before));
    SharedBusRefinesAllInOne(steps + Moves(before), mode);
    NothingDecoded();
  }

  // ---- the calls ----

  /** The calls made on a side's bus object that it may make and that its send queue takes. */
  function AcceptedCalls(steps: seq<BusStep>, mode: UserMode): seq<BusCall> {
    if steps == [] then []
    else
      var before, a := steps[..|steps| - 1], steps[|steps| - 1];
      AcceptedCalls(before, mode)
      + (if a.Sends? && a.from == mode && MayCall(mode, a.call)
            && |ProcessOf(BusRun(SILENT, before), mode).out| < SEND_CAPACITY then [a.call]
         else [])
  }

  /** The calls the refinement speaks of are those: none is left out unless the queue is full. */
  lemma {:induction false} CallsAreThoseAccepted(steps: seq<BusStep>, mode: UserMode)
    ensures ProcessOf(BusRun(SILENT, steps), mode).calls == AcceptedCalls(steps, mode)
  {
    if steps != [] {
      CallsAreThoseAccepted(steps[..|steps| - 1], mode);
    }
  }
}
