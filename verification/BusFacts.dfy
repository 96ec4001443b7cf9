/** The shared-channel bus refines the in-process one: per exchange, each observer gets the
    same callbacks in the same order. */
module BusFacts {
  import opened Defs
  import opened AllInOne
  import opened Mq
  import opened SharedBus

  /** Encoding loses nothing, and what a delivery calls is what the in-process bus would. */
  lemma DecodeEncode(call: BusCall, shared: bool)
    ensures Decode(Encode(call, shared)) == Some(call)
    ensures call.SendTalkCreate? ==> Encode(call, shared).payload == CreatePart(call.talkId)
  {
  }

  lemma ObservedOne(b: Callback, side: UserMode)
    ensures Observed([b], side) == if ForCustomers(b) == side.UserModeCustomer? then [b] else []
  {
    assert [b][..0] == [];
  }

  lemma ObservedTwo(a: Callback, b: Callback, side: UserMode)
    ensures Observed([a, b], side) == Observed([a], side) + Observed([b], side)
  {
    assert [a, b][..1] == [a];
    ObservedOne(b, side);
  }

  lemma DispatchIsObserved(mode: UserMode, d: MqData)
    ensures Dispatch(mode, d) == if Decode(d).Some? then Observed(Callbacks(Decode(d).value), mode) else []
  {
    match d.payload
    case MessagePart(m) =>
      ObservedTwo(CustomerOnMessage(d.talkId, m), ServicerOnMessage(d.talkId, m), mode);
      ObservedOne(CustomerOnMessage(d.talkId, m), mode);
      ObservedOne(ServicerOnMessage(d.talkId, m), mode);
    case ClosePart =>
      ObservedTwo(CustomerOnClose(d.talkId), ServicerOnClose(d.talkId), mode);
      ObservedOne(CustomerOnClose(d.talkId), mode);
      ObservedOne(ServicerOnClose(d.talkId), mode);
    case CreatePart(_) => ObservedOne(ServicerOnCreate(d.talkId), mode);
    case AttachPart(u) => ObservedOne(ServicerOnAttach(d.talkId, u), mode);
    case DetachPart(u) => ObservedOne(ServicerOnDetach(d.talkId, u), mode);
    case NoPart =>
  }

  lemma RegroupCallbacks(a: seq<Callback>, b: seq<Callback>, c: seq<Callback>)
    ensures a + (b + c) == (a + b) + c
  {
  }

  lemma PendingLast(mode: UserMode, queue: seq<MqData>, d: MqData)
    ensures Pending(mode, queue + [d]) == Pending(mode, queue) + Dispatch(mode, d)
  {
    assert (queue + [d])[..|queue|] == queue;
  }

  lemma {:induction false} PendingConcat(mode: UserMode, a: seq<MqData>, b: seq<MqData>)
    ensures Pending(mode, a + b) == Pending(mode, a) + Pending(mode, b)
  {
    if b == [] {
      assert a + b == a;
    } else {
      var front, d := b[..|b| - 1], b[|b| - 1];
      assert a + b == (a + front) + [d];
      calc {
        Pending(mode, a + b);
      ==  { PendingLast(mode, a + front, d); }
        Pending(mode, a + front) + Dispatch(mode, d);
      ==  { PendingConcat(mode, a, front); }
        Pending(mode, a) + Pending(mode, front) + Dispatch(mode, d);
      ==  { RegroupCallbacks(Pending(mode, a), Pending(mode, front), Dispatch(mode, d)); }
        Pending(mode, a) + Pending(mode, b);
      }
    }
  }

  lemma PendingFirst(mode: UserMode, queue: seq<MqData>)
    requires queue != []
    ensures Pending(mode, queue) == Dispatch(mode, queue[0]) + Pending(mode, queue[1..])
  {
    assert queue == [queue[0]] + queue[1..];
    assert [queue[0]][..0] == [];
    PendingConcat(mode, [queue[0]], queue[1..]);
  }

  lemma {:induction false} DecodedConcat(a: seq<MqData>, b: seq<MqData>)
    ensures Decoded(a + b) == Decoded(a) + Decoded(b)
  {
    if b == [] {
      assert a + b == a;
    } else {
      DecodedConcat(a, b[..|b| - 1]);
      assert (a + b)[..|a + b| - 1] == a + b[..|b| - 1];
    }
  }

  lemma DecodedOne(d: MqData)
    ensures Decoded([d]) == if Decode(d).Some? then [Decode(d).value] else []
  {
    assert [d][..0] == [];
  }

  lemma HeardMore(mode: UserMode, heard: seq<Callback>, queue: seq<MqData>, calls: seq<BusCall>)
    requires Faithful(mode, heard, queue, calls) && queue != []
    ensures Faithful(mode, heard + Dispatch(mode, queue[0]), queue[1..], calls)
  {
    PendingFirst(mode, queue);
    assert heard + Dispatch(mode, queue[0]) + Pending(mode, queue[1..])
        == heard + (Dispatch(mode, queue[0]) + Pending(mode, queue[1..]));
  }

  lemma QueuedMore(mode: UserMode, heard: seq<Callback>, queue: seq<MqData>, calls: seq<BusCall>, d: MqData)
    requires Faithful(mode, heard, queue, calls)
    ensures Faithful(mode, heard, queue + [d], if Decode(d).Some? then calls + [Decode(d).value] else calls)
  {
    PendingLast(mode, queue, d);
    DispatchIsObserved(mode, d);
    RegroupCallbacks(heard, Pending(mode, queue), Dispatch(mode, d));
    if Decode(d).Some? {
      assert (calls + [Decode(d).value])[..|calls|] == calls;
    } else {
      assert Pending(mode, queue) + [] == Pending(mode, queue);
    }
  }

  lemma LogMore(log: seq<Published>, x: Published, channel: string, from: UserMode)
    ensures CallsOn(log + [x], channel) ==
            CallsOn(log, channel)
            + (if ChannelOf(x.data) == channel && Decode(x.data).Some? then [Decode(x.data).value] else [])
    ensures CallsBy(log + [x], from) ==
            CallsBy(log, from) + (if x.from == from && Decode(x.data).Some? then [Decode(x.data).value] else [])
  {
    assert (log + [x])[..|log|] == log;
  }

  lemma SpecialsDiffer(mode: UserMode)
    ensures SPECIAL_ALL != SpecialTalk(mode)
  {
    assert |SPECIAL_ALL| == 1;
  }

  /** One queue bound to a channel, in step with the log. */
  lemma QueueInStep(mode: UserMode, heard: seq<Callback>, queue: seq<MqData>, log: seq<Published>, x: Published,
                    channel: string)
    requires Faithful(mode, heard, queue, CallsOn(log, channel))
    ensures Faithful(mode, heard, if ChannelOf(x.data) == channel then queue + [x.data] else queue,
                     CallsOn(log + [x], channel))
  {
    LogMore(log, x, channel, mode);
    assert CallsOn(log, channel) + [] == CallsOn(log, channel);
    if ChannelOf(x.data) == channel {
      QueuedMore(mode, heard, queue, CallsOn(log, channel), x.data);
    }
  }

  /** A publication reaches the queues of one process in step with the log. */
  lemma ReceiveOk(p: Process, mode: UserMode, log: seq<Published>, x: Published)
    requires Faithful(mode, p.heardAll, p.all, CallsOn(log, SPECIAL_ALL))
    requires Faithful(mode, p.heardOwn, p.own, CallsOn(log, SpecialTalk(mode)))
    ensures var p' := Receive(p, mode, x.data);
            && Faithful(mode, p'.heardAll, p'.all, CallsOn(log + [x], SPECIAL_ALL))
            && Faithful(mode, p'.heardOwn, p'.own, CallsOn(log + [x], SpecialTalk(mode)))
            && p'.out == p.out && p'.calls == p.calls
  {
    SpecialsDiffer(mode);
    ExchangeNamesDiffer(ChannelOf(x.data), SPECIAL_ALL);
    ExchangeNamesDiffer(ChannelOf(x.data), SpecialTalk(mode));
    QueueInStep(mode, p.heardAll, p.all, log, x, SPECIAL_ALL);
    QueueInStep(mode, p.heardOwn, p.own, log, x, SpecialTalk(mode));
  }

  lemma DecodedFirst(out: seq<MqData>)
    requires out != []
    ensures Decoded(out) == (if Decode(out[0]).Some? then [Decode(out[0]).value] else []) + Decoded(out[1..])
  {
    var first, rest := [out[0]], out[1..];
    DecodedConcat(first, rest);
    DecodedOne(out[0]);
    assert out == first + rest;
  }

  lemma Regroup(a: seq<BusCall>, b: seq<BusCall>, c: seq<BusCall>)
    ensures a + (b + c) == (a + b) + c
  {
  }

  /** What a process published and what it still has to publish are what it was asked. */
  lemma CallsInStep(log: seq<Published>, out: seq<MqData>, calls: seq<BusCall>, from: UserMode)
    requires CallsBy(log, from) + Decoded(out) == calls && out != []
    ensures CallsBy(log + [Published(from, out[0])], from) + Decoded(out[1..]) == calls
  {
    LogMore(log, Published(from, out[0]), SPECIAL_ALL, from);
    DecodedFirst(out);
    Regroup(CallsBy(log, from), if Decode(out[0]).Some? then [Decode(out[0]).value] else [], Decoded(out[1..]));
  }

  lemma OthersCallsInStep(log: seq<Published>, x: Published, mode: UserMode)
    requires x.from != mode
    ensures CallsBy(log + [x], mode) == CallsBy(log, mode)
  {
    LogMore(log, x, SPECIAL_ALL, mode);
  }

  lemma PublishOk(b: Bus, from: UserMode, mode: UserMode)
    requires ProcessOk(b, mode)
    ensures ProcessOk(Publish(b, from), mode)
  {
    var p := ProcessOf(b, from);
    if p.out != [] {
      var x, q := Published(from, p.out[0]), ProcessOf(b, mode);
      var waiting := if mode == from then q.(out := q.out[1..]) else q;
      ReceiveOk(waiting, mode, b.log, x);
      assert ProcessOf(Publish(b, from), mode) == Receive(waiting, mode, x.data);
      if mode == from {
        CallsInStep(b.log, q.out, q.calls, mode);
      } else {
        OthersCallsInStep(b.log, x, mode);
      }
    }
  }

  lemma SendOk(b: Bus, from: UserMode, call: BusCall, mode: UserMode)
    requires ProcessOk(b, mode)
    ensures ProcessOk(Send(b, from, call), mode)
  {
    var p := ProcessOf(b, mode);
    if from != mode || !MayCall(mode, call) || |p.out| >= SEND_CAPACITY {
      assert ProcessOf(Send(b, from, call), mode) == p;
    } else {
      DecodeEncode(call, true);
      DecodedConcat(p.out, [Encode(call, true)]);
      DecodedOne(Encode(call, true));
      assert CallsBy(b.log, mode) + (Decoded(p.out) + [call]) == CallsBy(b.log, mode) + Decoded(p.out) + [call];
    }
  }

  lemma DeliverOk(b: Bus, to: UserMode, own: bool, mode: UserMode)
    requires ProcessOk(b, mode)
    ensures ProcessOk(Deliver(b, to, own), mode)
  {
    var p := ProcessOf(b, mode);
    if p.all != [] {
      HeardMore(mode, p.heardAll, p.all, CallsOn(b.log, SPECIAL_ALL));
    }
    if p.own != [] {
      HeardMore(mode, p.heardOwn, p.own, CallsOn(b.log, SpecialTalk(mode)));
    }
  }

  lemma {:induction false} BusRunOk(steps: seq<BusStep>, mode: UserMode)
    ensures ProcessOk(BusRun(SILENT, steps), mode)
  {
    if steps != [] {
      var b, a := BusRun(SILENT, steps[..|steps| - 1]), steps[|steps| - 1];
      BusRunOk(steps[..|steps| - 1], mode);
      match a
      case Sends(from, call) => SendOk(b, from, call, mode);
      case Publishes(from) => PublishOk(b, from, mode);
      case Delivers(to, own) => DeliverOk(b, to, own, mode);
    }
  }

  /** The shared-channel bus refines the in-process one. After any run: what each process
      published, followed by what waits in its send queue, are the calls made on it, in
      order; and for each exchange the callbacks a process has made, followed by those of the
      deliveries it still has, are those the in-process bus makes at that observer for the
      calls published on the exchange, in that order. */
  lemma SharedBusRefinesAllInOne(steps: seq<BusStep>, mode: UserMode)
    ensures var b := BusRun(SILENT, steps);
            var p := ProcessOf(b, mode);
            && CallsBy(b.log, mode) + Decoded(p.out) == p.calls
            && p.heardAll + Pending(mode, p.all) == Reference(CallsOn(b.log, SPECIAL_ALL), mode)
            && p.heardOwn + Pending(mode, p.own) == Reference(CallsOn(b.log, SpecialTalk(mode)), mode)
  {
    BusRunOk(steps, mode);
  }

  // ---- which exchange carries what ----

  predicate SentBySomeCall(from: UserMode, d: MqData) {
    Decode(d).Some? && MayCall(from, Decode(d).value) && d == Encode(Decode(d).value, true)
  }

  ghost predicate WellSent(b: Bus) {
    && (forall x | x in b.log :: SentBySomeCall(x.from, x.data))
    && (forall d | d in b.customers.out :: SentBySomeCall(UserModeCustomer, d))
    && (forall d | d in b.servicers.out :: SentBySomeCall(UserModeServicer, d))
  }

  lemma StepWellSent(b: Bus, a: BusStep)
    requires WellSent(b)
    ensures WellSent(BusNext(b, a))
  {
    if a.Sends? {
      DecodeEncode(a.call, true);
    }
    if a.Publishes? && ProcessOf(b, a.from).out != [] {
      assert ProcessOf(b, a.from).out[0] in ProcessOf(b, a.from).out;
    }
  }

  lemma {:induction false} RunWellSent(steps: seq<BusStep>)
    ensures WellSent(BusRun(SILENT, steps))
  {
    if steps != [] {
      RunWellSent(steps[..|steps| - 1]);
      StepWellSent(BusRun(SILENT, steps[..|steps| - 1]), steps[|steps| - 1]);
    }
  }

  /** Messages and closings come on the common exchange, creations and ownership changes on
      the servicers' one, and nothing on the customers' one; so an observer hears each kind
      from one exchange, in the order it was published. */
  lemma EachKindOnOneExchange(steps: seq<BusStep>, x: Published)
    ensures var b := BusRun(SILENT, steps);
            x in b.log ==>
              && ChannelOf(x.data) == (if x.data.payload.MessagePart? || x.data.payload.ClosePart? then SPECIAL_ALL
                                       else SPECIAL_SERVICER)
              && ChannelOf(x.data) != SpecialTalk(UserModeCustomer)
  {
    RunWellSent(steps);
  }
}
