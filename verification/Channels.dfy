/** What waits in the controllers' channels, and its reading as plain values. */
module Channels {
  import opened Defs
  import opened Sides
  import opened Engine
  import opened Sessions
  import opened Registries

  type Customer = Session<TalkId, TalkResponse>
  type Servicer = Session<nat, ServiceResponse>

  /** A customer session with the flag that it created its talk. */
  datatype Arrival = Arrival(customer: Customer, maker: bool)

  datatype CustomerMessage = CustomerMessage(customer: Customer, seqId: nat, message: Msg)

  datatype ServicerWithTalk = ServicerWithTalk(servicer: Servicer, talkId: TalkId)

  datatype ServicerMessage = ServicerMessage(servicer: Servicer, seqId: nat, talkId: TalkId, message: Msg)

  function Ids<K, R>(s: seq<Session<K, R>>): seq<nat> {
    seq(|s|, i requires 0 <= i < |s| => s[i].uniqueID)
  }

  function ArrivalIds(s: seq<Arrival>): seq<nat> {
    seq(|s|, i requires 0 <= i < |s| => s[i].customer.uniqueID)
  }

  function Inbox(s: seq<CustomerMessage>): seq<Incoming> {
    seq(|s|, i requires 0 <= i < |s| =>
      Incoming(s[i].customer.uniqueID, s[i].customer.key, s[i].seqId, s[i].message))
  }

  function ServicerInbox(s: seq<ServicerMessage>): seq<Incoming> {
    seq(|s|, i requires 0 <= i < |s| => Incoming(s[i].servicer.uniqueID, s[i].talkId, s[i].seqId, s[i].message))
  }

  function Requests(s: seq<ServicerWithTalk>): seq<Request> {
    seq(|s|, i requires 0 <= i < |s| => Request(s[i].servicer.uniqueID, s[i].talkId))
  }

  ghost predicate IsKnown<K, R>(s: Session<K, R>, pool: Pool<K, R>) {
    s.uniqueID in pool && pool[s.uniqueID] == s
  }

  ghost predicate AllKnown<K, R>(s: seq<Session<K, R>>, pool: Pool<K, R>) {
    forall i | 0 <= i < |s| :: IsKnown(s[i], pool)
  }

  ghost predicate ArrivalsKnown(s: seq<Arrival>, pool: Pool<TalkId, TalkResponse>, makers: set<nat>) {
    forall i | 0 <= i < |s| :: IsKnown(s[i].customer, pool) && (s[i].maker <==> s[i].customer.uniqueID in makers)
  }

  ghost predicate SendersKnown(s: seq<CustomerMessage>, pool: Pool<TalkId, TalkResponse>) {
    forall i | 0 <= i < |s| :: IsKnown(s[i].customer, pool)
  }

  ghost predicate RequestersKnown(s: seq<ServicerWithTalk>, pool: Pool<nat, ServiceResponse>) {
    forall i | 0 <= i < |s| :: IsKnown(s[i].servicer, pool)
  }

  ghost predicate AuthorsKnown(s: seq<ServicerMessage>, pool: Pool<nat, ServiceResponse>) {
    forall i | 0 <= i < |s| :: IsKnown(s[i].servicer, pool)
  }

  /** Everything in the customer controller's channels comes from sessions that were made. */
  ghost predicate CustomerChannels(install: seq<Arrival>, uninstall: seq<Customer>, messages: seq<CustomerMessage>,
                                   closes: seq<Customer>, pool: Pool<TalkId, TalkResponse>, makers: set<nat>)
  {
    ArrivalsKnown(install, pool, makers) && AllKnown(uninstall, pool) && SendersKnown(messages, pool)
      && AllKnown(closes, pool)
  }

  /** A session that has just been made waits nowhere, whether or not it created its talk. */
  lemma ChannelsOfOneMore(install: seq<Arrival>, uninstall: seq<Customer>, messages: seq<CustomerMessage>,
                          closes: seq<Customer>, pool: Pool<TalkId, TalkResponse>, makers: set<nat>, s: Customer)
    requires CustomerChannels(install, uninstall, messages, closes, pool, makers) && s.uniqueID !in pool
    ensures CustomerChannels(install, uninstall, messages, closes, pool[s.uniqueID := s], makers)
    ensures CustomerChannels(install, uninstall, messages, closes, pool[s.uniqueID := s], makers + {s.uniqueID})
  {
  }

  ghost predicate ServicerChannels(install: seq<Servicer>, uninstall: seq<Servicer>, attach: seq<ServicerWithTalk>,
                                   detach: seq<ServicerWithTalk>, reload: seq<ServicerWithTalk>,
                                   messages: seq<ServicerMessage>, pool: Pool<nat, ServiceResponse>)
  {
    && AllKnown(install, pool) && AllKnown(uninstall, pool) && RequestersKnown(attach, pool)
    && RequestersKnown(detach, pool) && RequestersKnown(reload, pool) && AuthorsKnown(messages, pool)
  }
}
