/** The bus objects the message domains call: the in-process one, which holds the two
    observers and calls them at once, and the two that put records into a message queue. */
module MDIs {
  import opened Defs
  import opened AllInOne
  import opened Mq
  import opened SharedBus
  import opened RabbitLogic
  import opened RabbitMQ
  import opened BusFacts

  /** Hears the callbacks made to one side. */
  class Observer {
    var heard: seq<Callback>

    constructor ()
      ensures heard == []
    {
      heard := [];
    }

    method Hear(b: Callback)
      modifies this
      ensures heard == old(heard) + [b]
    {
      heard := heard + [b];
    }
  }

  class AllInOneMDI {
    var customerOb: Observer?
    var servicerOb: Observer?

    constructor ()
      ensures customerOb == null && servicerOb == null
    {
      customerOb, servicerOb := null, null;
    }

    method SetCustomerObserver(ob: Observer)
      modifies this`customerOb
      ensures customerOb == ob
    {
      customerOb := ob;
    }

    method SetServicerObserver(ob: Observer)
      modifies this`servicerOb
      ensures servicerOb == ob
    {
      servicerOb := ob;
    }

    /** Both observers are set, to different objects. */
    predicate Ready()
      reads this
    {
      customerOb != null && servicerOb != null && customerOb != servicerOb
    }

    /** What the observers have heard is what they had, then what the call causes. */
    twostate predicate Heard(call: BusCall)
      requires Ready() && old(Ready()) && customerOb == old(customerOb) && servicerOb == old(servicerOb)
      reads this, customerOb, servicerOb
    {
      && customerOb.heard == old(customerOb.heard) + Observed(Callbacks(call), UserModeCustomer)
      && servicerOb.heard == old(servicerOb.heard) + Observed(Callbacks(call), UserModeServicer)
    }

    method SendMessage(t: TalkId, m: Msg)
      requires Ready()
      modifies customerOb, servicerOb
      ensures Heard(BusCall.SendMessage(t, m))
    {
      customerOb.Hear(CustomerOnMessage(t, m));
      servicerOb.Hear(ServicerOnMessage(t, m));
      ObservedTwo(CustomerOnMessage(t, m), ServicerOnMessage(t, m), UserModeCustomer);
      ObservedTwo(CustomerOnMessage(t, m), ServicerOnMessage(t, m), UserModeServicer);
    }

    method SendTalkCloseMessage(t: TalkId)
      requires Ready()
      modifies customerOb, servicerOb
      ensures Heard(SendTalkClose(t))
    {
      customerOb.Hear(CustomerOnClose(t));
      servicerOb.Hear(ServicerOnClose(t));
      ObservedTwo(CustomerOnClose(t), ServicerOnClose(t), UserModeCustomer);
      ObservedTwo(CustomerOnClose(t), ServicerOnClose(t), UserModeServicer);
    }

    method SendTalkCreateMessage(t: TalkId)
      requires Ready()
      modifies servicerOb
      ensures Heard(SendTalkCreate(t))
    {
      servicerOb.Hear(ServicerOnCreate(t));
    }

    method SendServicerAttachMessage(t: TalkId, u: nat)
      requires Ready()
      modifies servicerOb
      ensures Heard(SendServicerAttach(t, u))
    {
      servicerOb.Hear(ServicerOnAttach(t, u));
    }

    method SendServiceDetachMessage(t: TalkId, u: nat)
      requires Ready()
      modifies servicerOb
      ensures Heard(SendServicerDetach(t, u))
    {
      servicerOb.Hear(ServicerOnDetach(t, u));
    }
  }

  /** The customer process's bus object. `shared` says whether channels are shared. */
  class CustomerRabbitMDI {
    const rabbit: RabbitMQ
    const shared: bool

    constructor (rabbit: RabbitMQ, shared: bool)
      ensures this.rabbit == rabbit && this.shared == shared
    {
      this.rabbit, this.shared := rabbit, shared;
    }

    method SendMessage(t: TalkId, m: Msg)
      modifies rabbit`sendQueue
      ensures rabbit.Value() == Offer(old(rabbit.Value()), Encode(BusCall.SendMessage(t, m), shared))
    {
      var d := MqData(t, "", MessagePart(m));
      if shared {
        d := d.(channelId := SPECIAL_ALL);
      }
      var _ := rabbit.SendData(Some(d));
    }

    method SendTalkCloseMessage(t: TalkId)
      modifies rabbit`sendQueue
      ensures rabbit.Value() == Offer(old(rabbit.Value()), Encode(SendTalkClose(t), shared))
    {
      var _ := rabbit.SendData(Some(MqData(t, SPECIAL_ALL, ClosePart)));
    }

    method SendTalkCreateMessage(t: TalkId)
      modifies rabbit`sendQueue
      ensures rabbit.Value() == Offer(old(rabbit.Value()), Encode(SendTalkCreate(t), shared))
    {
      var _ := rabbit.SendData(Some(MqData(t, SPECIAL_SERVICER, CreatePart(t))));
    }

    /** With shared channels, talks are not tracked one by one. */
    method AddTrackTalk(t: TalkId) returns (ok: bool)
      modifies rabbit`startRequests
      ensures shared ==> ok && rabbit.Value() == old(rabbit.Value())
      ensures !shared ==> ok == (t != "" && |old(rabbit.startRequests)| < TRACK_CAPACITY)
      ensures !shared ==>
                rabbit.Value() == old(rabbit.Value()).(tracks := Trackers.AddTrackTalk(old(rabbit.Tracks()), t))
    {
      if shared {
        return true;
      }
      ok := rabbit.AddTrackTalk(t);
    }

    method RemoveTrackTalk(t: TalkId)
      modifies rabbit`stopRequests
      ensures rabbit.Value() == if shared then old(rabbit.Value())
                                else old(rabbit.Value()).(tracks := Trackers.RemoveTrackTalk(old(rabbit.Tracks()), t))
    {
      if !shared {
        rabbit.RemoveTrackTalk(t);
      }
    }
  }

  /** The servicer process's bus object. */
  class ServicerRabbitMDI {
    const rabbit: RabbitMQ
    const shared: bool

    constructor (rabbit: RabbitMQ, shared: bool)
      ensures this.rabbit == rabbit && this.shared == shared
    {
      this.rabbit, this.shared := rabbit, shared;
    }

    method SendMessage(t: TalkId, m: Msg)
      modifies rabbit`sendQueue
      ensures rabbit.Value() == Offer(old(rabbit.Value()), Encode(BusCall.SendMessage(t, m), shared))
    {
      var d := MqData(t, "", MessagePart(m));
      if shared {
        d := d.(channelId := SPECIAL_ALL);
      }
      var _ := rabbit.SendData(Some(d));
    }

    method SendServicerAttachMessage(t: TalkId, u: nat)
      modifies rabbit`sendQueue
      ensures rabbit.Value() == Offer(old(rabbit.Value()), Encode(SendServicerAttach(t, u), shared))
    {
      var _ := rabbit.SendData(Some(MqData(t, SPECIAL_SERVICER, AttachPart(u))));
    }

    method SendServiceDetachMessage(t: TalkId, u: nat)
      modifies rabbit`sendQueue
      ensures rabbit.Value() == Offer(old(rabbit.Value()), Encode(SendServicerDetach(t, u), shared))
    {
      var _ := rabbit.SendData(Some(MqData(t, SPECIAL_SERVICER, DetachPart(u))));
    }

    /** With shared channels, talks are not tracked one by one. */
    method AddTrackTalk(t: TalkId) returns (ok: bool)
      modifies rabbit`startRequests
      ensures shared ==> ok && rabbit.Value() == old(rabbit.Value())
      ensures !shared ==> ok == (t != "" && |old(rabbit.startRequests)| < TRACK_CAPACITY)
      ensures !shared ==>
                rabbit.Value() == old(rabbit.Value()).(tracks := Trackers.AddTrackTalk(old(rabbit.Tracks()), t))
    {
      if shared {
        return true;
      }
      ok := rabbit.AddTrackTalk(t);
    }

    method RemoveTrackTalk(t: TalkId)
      modifies rabbit`stopRequests
      ensures rabbit.Value() == if shared then old(rabbit.Value())
                                else old(rabbit.Value()).(tracks := Trackers.RemoveTrackTalk(old(rabbit.Tracks()), t))
    {
      if !shared {
        rabbit.RemoveTrackTalk(t);
      }
    }
  }

  /** The end of a tracker routine that makes callbacks to whichever observers are set. */
  class Consumer {
    var customerOb: Observer?
    var servicerOb: Observer?

    constructor (customerOb: Observer?, servicerOb: Observer?)
      ensures this.customerOb == customerOb && this.servicerOb == servicerOb
    {
      this.customerOb, this.servicerOb := customerOb, servicerOb;
    }

    method OnDelivery(d: MqData)
      requires customerOb != null ==> customerOb != servicerOb
      modifies customerOb, servicerOb
      ensures customerOb != null ==> customerOb.heard == old(customerOb.heard) + Dispatch(UserModeCustomer, d)
      ensures servicerOb != null ==> servicerOb.heard == old(servicerOb.heard) + Dispatch(UserModeServicer, d)
    {
      if d.payload.MessagePart? {
        if customerOb != null {
          customerOb.Hear(CustomerOnMessage(d.talkId, d.payload.message));
        }
        if servicerOb != null {
          servicerOb.Hear(ServicerOnMessage(d.talkId, d.payload.message));
        }
      } else if d.payload.ClosePart? {
        if customerOb != null {
          customerOb.Hear(CustomerOnClose(d.talkId));
        }
        if servicerOb != null {
          servicerOb.Hear(ServicerOnClose(d.talkId));
        }
      } else if servicerOb != null {
        if d.payload.CreatePart? {
          servicerOb.Hear(ServicerOnCreate(d.talkId));
        } else if d.payload.AttachPart? {
          servicerOb.Hear(ServicerOnAttach(d.talkId, d.payload.attachedBy));
        } else if d.payload.DetachPart? {
          servicerOb.Hear(ServicerOnDetach(d.talkId, d.payload.detachedBy));
        }
      }
    }
  }
}
