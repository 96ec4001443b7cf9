/** What a confirmation is worth: over whole runs, the confirmations in a session's stream are
    those of its messages that were put on the bus, one for one and in order. */
module Confirmations {
  import opened Defs
  import opened TalkStore
  import opened Hubs
  import opened Sides
  import opened AllInOne
  import opened Engine
  import opened Shapes
  import opened EngineFacts
  import opened Lifetimes
  import opened SendShapes
  import opened OfferShapes
  import opened Streams
  import opened CallShapes
  import opened BusCalls

  lemma {:induction false} CustomerReceiptsConcat(a: seq<TalkResponse>, b: seq<TalkResponse>)
    ensures CustomerReceipts(a + b) == CustomerReceipts(a) + CustomerReceipts(b)
  {
    if b == [] {
      assert a + b == a;
    } else {
      var front := b[..|b| - 1];
      CustomerReceiptsConcat(a, front);
      assert (a + b)[..|a + b| - 1] == a + front;
    }
  }

  lemma {:induction false} ServicerReceiptsConcat(a: seq<ServiceResponse>, b: seq<ServiceResponse>)
    ensures ServicerReceipts(a + b) == ServicerReceipts(a) + ServicerReceipts(b)
  {
    if b == [] {
      assert a + b == a;
    } else {
      var front := b[..|b| - 1];
      ServicerReceiptsConcat(a, front);
      assert (a + b)[..|a + b| - 1] == a + front;
    }
  }

  lemma {:induction false} CustomerReceiptFound(rs: seq<TalkResponse>, r: TalkResponse)
    requires r in rs && r.MessageConfirmed?
    ensures Receipt(r.seqId, r.at) in CustomerReceipts(rs)
  {
    var front := rs[..|rs| - 1];
    assert rs == front + [rs[|rs| - 1]];
    if r in front {
      CustomerReceiptFound(front, r);
    }
  }

  lemma {:induction false} ServicerReceiptFound(rs: seq<ServiceResponse>, r: ServiceResponse)
    requires r in rs && r.ServiceConfirmed?
    ensures Receipt(r.seqId, r.at) in ServicerReceipts(rs)
  {
    var front := rs[..|rs| - 1];
    assert rs == front + [rs[|rs| - 1]];
    if r in front {
      ServicerReceiptFound(front, r);
    }
  }

  /** A step offers session q a confirmation exactly if it puts a message of it on the bus. */
  lemma CustomerStepReceipts(e: State, a: Step, q: nat)
    requires q in e.c.hub.sess
    ensures CustomerReceipts(CustomerOffers(e, a, q)) == Receipts(Listed(CustomerReleases(q)(e, a)))
  {
    var rs := CustomerOffers(e, a, q);
    if rs != [] {
      assert rs == [rs[0]] && rs[..0] == [];
    }
  }

  lemma {:induction false} NoReceipts(rs: seq<ServiceResponse>)
    requires forall r | r in rs :: !r.ServiceConfirmed?
    ensures ServicerReceipts(rs) == []
  {
    if rs != [] {
      NoReceipts(rs[..|rs| - 1]);
    }
  }

  lemma SentReceipts(e: State, p: ServicerPick, q: nat)
    requires q in e.s.hub.sess && !p.ServeMessage?
    ensures ServicerReceipts(Sends(e, p, q)) == []
  {
    NoReceipts(Sends(e, p, q));
  }

  lemma ServicerStepReceipts(e: State, a: Step, q: nat)
    requires q in e.s.hub.sess && "" !in e.store.talks
    ensures ServicerReceipts(ServicerOffers(e, a, q)) == Receipts(Listed(ServicerReleases(q)(e, a)))
  {
    if a.ServicerLoopStep? {
      if a.servicerPick.ServeMessage? {
        var rs := ServicerOffers(e, a, q);
        if rs != [] {
          assert rs == [rs[0]] && rs[..0] == [];
        }
      } else {
        SentReceipts(e, a.servicerPick, q);
      }
    }
  }

  lemma ReceiptsMore(ds: seq<Incoming>, d: Option<Incoming>)
    ensures Receipts(ds + Listed(d)) == Receipts(ds) + Receipts(Listed(d))
    ensures d == None ==> Receipts(ds + Listed(d)) == Receipts(ds)
  {
  }

  lemma {:induction false} AllCustomerReceipts(e: State, steps: seq<Step>, q: nat)
    requires Init(e)
    ensures CustomerReceipts(AllCustomerOffers(e, steps, q)) == Receipts(Along(e, steps, CustomerReleases(q)))
  {
    if steps != [] {
      var before, a := steps[..|steps| - 1], steps[|steps| - 1];
      var x, offers := Run(e, before), AllCustomerOffers(e, before, q);
      AllCustomerReceipts(e, before, q);
      ReceiptsMore(Along(e, before, CustomerReleases(q)), CustomerReleases(q)(x, a));
      if q in x.c.hub.sess {
        CustomerStepReceipts(x, a, q);
        CustomerReceiptsConcat(offers, CustomerOffers(x, a, q));
      } else {
        assert CustomerReleases(q)(x, a) == None;
        assert offers + [] == offers;
      }
    }
  }

  lemma NoTalkWithoutId(e: State, steps: seq<Step>)
    requires Init(e)
    ensures "" !in Run(e, steps).store.talks
  {
    InitOk(e);
    RunOk(e, steps);
    assert !WellFormedId("");
  }

  lemma {:induction false} AllServicerReceipts(e: State, steps: seq<Step>, q: nat)
    requires Init(e)
    ensures ServicerReceipts(AllServicerOffers(e, steps, q)) == Receipts(Along(e, steps, ServicerReleases(q)))
  {
    if steps != [] {
      var before, a := steps[..|steps| - 1], steps[|steps| - 1];
      var x, offers := Run(e, before), AllServicerOffers(e, before, q);
      AllServicerReceipts(e, before, q);
      ReceiptsMore(Along(e, before, ServicerReleases(q)), ServicerReleases(q)(x, a));
      if q in x.s.hub.sess {
        NoTalkWithoutId(e, before);
        ServicerStepReceipts(x, a, q);
        ServicerReceiptsConcat(offers, ServicerOffers(x, a, q));
      } else {
        assert ServicerReleases(q)(x, a) == None;
        assert offers + [] == offers;
      }
    }
  }

  lemma ReleaseCalls(e: State, a: Step, q: nat)
    ensures CustomerReleases(q)(e, a).Some?
            ==> q in e.c.hub.sess
                && CallOf(e, a) == Some(SendMessage(e.c.hub.sess[q].key, CustomerReleases(q)(e, a).value.message))
    ensures ServicerReleases(q)(e, a).Some?
            ==> var d := ServicerReleases(q)(e, a).value; CallOf(e, a) == Some(SendMessage(d.talkId, d.message))
  {
  }

  lemma {:induction false} CustomerReleaseIsCalled(e: State, steps: seq<Step>, q: nat, d: Incoming)
    requires Init(e) && d in Along(e, steps, CustomerReleases(q))
    ensures q in Run(e, steps).c.hub.sess
    ensures SendMessage(Run(e, steps).c.hub.sess[q].key, d.message) in Along(e, steps, CallOf)
  {
    var before, a := steps[..|steps| - 1], steps[|steps| - 1];
    InitOk(e);
    RunOk(e, before);
    StepOk(Run(e, before), a);
    ReleaseCalls(Run(e, before), a, q);
    if d in Along(e, before, CustomerReleases(q)) {
      CustomerReleaseIsCalled(e, before, q, d);
    }
  }

  lemma {:induction false} ServicerReleaseIsCalled(e: State, steps: seq<Step>, q: nat, d: Incoming)
    requires d in Along(e, steps, ServicerReleases(q))
    ensures SendMessage(d.talkId, d.message) in Along(e, steps, CallOf)
  {
    var before, a := steps[..|steps| - 1], steps[|steps| - 1];
    ReleaseCalls(Run(e, before), a, q);
    if d in Along(e, before, ServicerReleases(q)) {
      ServicerReleaseIsCalled(e, before, q, d);
    }
  }

  /** A customer's confirmations: unless its session missed something, they are those of its
      messages that were put on the bus, in that order; and in any case each of them confirms
      one that was. */
  lemma CustomersConfirmedInOrder(e: State, steps: seq<Step>, q: nat)
    requires Init(e)
    ensures var x, released := Run(e, steps), Along(e, steps, CustomerReleases(q));
            q in x.c.hub.sess
            ==> && (!x.c.hub.sess[q].missed ==> CustomerReceipts(x.c.hub.sess[q].sent) == Receipts(released))
                && (forall r | r in x.c.hub.sess[q].sent && r.MessageConfirmed? ::
                      exists d :: d in released && r == TalkResponse.MessageConfirmed(d.seqId, d.message.at)
                                  && (x.c.hub.sess[q].key, d.message) in x.log.bus)
  {
    var x, released := Run(e, steps), Along(e, steps, CustomerReleases(q));
    CustomerStream(e, steps, q);
    AllCustomerReceipts(e, steps, q);
    BusIsWhatWasCalled(e, steps);
    if q in x.c.hub.sess {
      forall r | r in x.c.hub.sess[q].sent && r.MessageConfirmed?
        ensures exists d :: d in released && r == TalkResponse.MessageConfirmed(d.seqId, d.message.at)
                            && (x.c.hub.sess[q].key, d.message) in x.log.bus
      {
        CustomerReceiptFound(AllCustomerOffers(e, steps, q), r);
        var i :| 0 <= i < |released| && Receipts(released)[i] == Receipt(r.seqId, r.at);
        CustomerReleaseIsCalled(e, steps, q, released[i]);
      }
    }
  }

  /** The same for a servicer's. */
  lemma ServicersConfirmedInOrder(e: State, steps: seq<Step>, q: nat)
    requires Init(e)
    ensures var x, released := Run(e, steps), Along(e, steps, ServicerReleases(q));
            q in x.s.hub.sess
            ==> && (!x.s.hub.sess[q].missed ==> ServicerReceipts(x.s.hub.sess[q].sent) == Receipts(released))
                && (forall r | r in x.s.hub.sess[q].sent && r.ServiceConfirmed? ::
                      exists d :: d in released && r == ServiceConfirmed(d.seqId, d.message.at)
                                  && (d.talkId, d.message) in x.log.bus)
  {
    var x, released := Run(e, steps), Along(e, steps, ServicerReleases(q));
    ServicerStream(e, steps, q);
    AllServicerReceipts(e, steps, q);
    BusIsWhatWasCalled(e, steps);
    if q in x.s.hub.sess {
      forall r | r in x.s.hub.sess[q].sent && r.ServiceConfirmed?
        ensures exists d :: d in released && r == ServiceConfirmed(d.seqId, d.message.at)
                            && (d.talkId, d.message) in x.log.bus
      {
        ServicerReceiptFound(AllServicerOffers(e, steps, q), r);
        var i :| 0 <= i < |released| && Receipts(released)[i] == Receipt(r.seqId, r.at);
        ServicerReleaseIsCalled(e, steps, q, released[i]);
      }
    }
  }
}
