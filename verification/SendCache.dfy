/** The send side of the message-queue main routine: data are published while the channel is
    open and cached while it is not; every opening publishes the whole cache again. */
module SendCache {
  import opened Defs
  import opened Mq

  /** One publication: the exchange it went to and what was published. */
  datatype Publication = Publication(exchange: string, data: MqData)

  /** `cache` is never shortened. The rest looks back: what was taken from the send queue,
      how much of the cache was published at the last opening, how many openings there were,
      and how many there had been when each cached item was cached. */
  datatype Sending = Sending(
    open: bool,
    cache: seq<MqData>,
    log: seq<Publication>,
    dequeued: seq<MqData>,
    flushed: nat,
    openings: nat,
    cachedAt: seq<nat>)

  const IDLE := Sending(false, [], [], [], 0, 0, [])

  function Direct(d: MqData): Publication {
    Publication(ExchangeName(ChannelOf(d)), d)
  }

  /** A cached datum goes to its talk's exchange. */
  function Flushed(d: MqData): Publication {
    Publication(ExchangeName(d.talkId), d)
  }

  /** What publishing the cache in order puts on the wire, leaving out the failing places. */
  function Flush(cache: seq<MqData>, failing: set<nat>): seq<Publication> {
    if cache == [] then []
    else
      var last := |cache| - 1;
      Flush(cache[..last], failing) + (if last in failing then [] else [Flushed(cache[last])])
  }

  /** A datum is taken from the send queue. */
  function Take(s: Sending, d: MqData, fails: bool): Sending {
    var taken := s.(dequeued := s.dequeued + [d]);
    if !s.open then taken.(cache := s.cache + [d], cachedAt := s.cachedAt + [s.openings])
    else if fails then taken
    else taken.(log := s.log + [Direct(d)])
  }

  /** The ticker finds the connection up and opens the channel, if it is not open. */
  function OpenChannel(s: Sending, failing: set<nat>): Sending {
    if s.open then s
    else
      s.(open := true, log := s.log + Flush(s.cache, failing), flushed := |s.cache|, openings := s.openings + 1)
  }

  /** The channel breaks, or a new connection replaces it. */
  function Break(s: Sending): Sending {
    s.(open := false)
  }

  datatype SendStep =
    | TakesData(d: MqData, fails: bool)
    | Opens(failing: set<nat>)
    | Breaks

  function Proceed(s: Sending, a: SendStep): Sending {
    match a
    case TakesData(d, fails) => Take(s, d, fails)
    case Opens(failing) => OpenChannel(s, failing)
    case Breaks => Break(s)
  }

  function Progress(s: Sending, steps: seq<SendStep>): Sending {
    if steps == [] then s else Proceed(Progress(s, steps[..|steps| - 1]), steps[|steps| - 1])
  }

  /** Every publication of the step succeeds. */
  predicate Succeeds(a: SendStep) {
    match a
    case TakesData(_, fails) => !fails
    case Opens(failing) => failing == {}
    case Breaks => true
  }

  predicate Distinct(s: seq<MqData>) {
    forall i, j | 0 <= i < j < |s| :: s[i] != s[j]
  }

  function Published(log: seq<Publication>): seq<MqData> {
    seq(|log|, i requires 0 <= i < |log| => log[i].data)
  }

  /** The items in the order in which each is first seen. */
  function FirstOccurrences(s: seq<MqData>): seq<MqData> {
    if s == [] then []
    else
      var front, d := s[..|s| - 1], s[|s| - 1];
      if d in front then FirstOccurrences(front) else FirstOccurrences(front) + [d]
  }

  function CountOf(s: seq<MqData>, d: MqData): nat {
    multiset(s)[d]
  }
}
