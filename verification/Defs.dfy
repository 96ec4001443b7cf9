/** The values the talk engine passes around: talks, messages, the responses sent to
    clients, the calls made on the bus and the callbacks the bus makes. */
module Defs {

  datatype Option<+T> = None | Some(value: T)

  function Listed<T>(x: Option<T>): seq<T> {
    if x.Some? then [x.value] else []
  }

  /** A talk's identifier: the hexadecimal text of the database's object id. */
  type TalkId = string

  predicate HexDigit(c: char) {
    '0' <= c <= '9' || 'a' <= c <= 'f'
  }

  /** Identifiers the database can parse; any other text makes the call fail. */
  predicate WellFormedId(t: TalkId) {
    |t| == 24 && forall i | 0 <= i < |t| :: HexDigit(t[i])
  }

  datatype Status = StatusNone | Opened | Closed

  datatype TalkInfo = TalkInfo(
    status: Status,
    title: string,
    startAt: int,
    finishedAt: int,
    creatorID: nat,
    serviceID: nat,
    creatorName: string)

  /** A stored talk together with its identifier. */
  datatype Talk = Talk(id: TalkId, info: TalkInfo)

  /** The connection a message came in on, and the side it belongs to. */
  datatype Sender = Sender(customer: bool, conn: nat)

  /** A message body. `no` counts the messages its connection has persisted, so two
      posts with the same text are different messages. */
  datatype Msg = Msg(at: int, text: string, sender: Sender, no: nat)

  /** What a client is told about a talk: everything but its owner. */
  datatype TalkCard = TalkCard(
    id: TalkId,
    status: Status,
    title: string,
    startAt: int,
    finishedAt: int,
    customerName: string)

  function Card(t: Talk): TalkCard {
    TalkCard(t.id, t.info.status, t.info.title, t.info.startAt, t.info.finishedAt, t.info.creatorName)
  }

  datatype TalkAndMessages = TalkAndMessages(talk: TalkCard, messages: seq<Msg>)

  /** Responses on a customer's stream. */
  datatype TalkResponse =
    | Message(message: Msg)
    | Messages(talkId: TalkId, messages: seq<Msg>)
    | MessageConfirmed(seqId: nat, at: int)
    | Close
    | KickOut(reason: string)

  /** Responses on a servicer's stream. */
  datatype ServiceResponse =
    | Talks(talks: seq<TalkAndMessages>)
    | PendingTalks(pending: seq<TalkCard>)
    | Attach(talk: TalkCard, attachedID: nat)
    | Detach(talk: TalkCard, detachedID: nat)
    | Reload(reloaded: TalkAndMessages)
    | ServiceMessage(talkId: TalkId, message: Msg)
    | ServiceClose(talkId: TalkId)
    | ServiceConfirmed(seqId: nat, at: int)
    | Notify(text: string)
    | ServiceKickOut(reason: string)

  /** What a message domain asks of the bus. */
  datatype BusCall =
    | SendMessage(talkId: TalkId, message: Msg)
    | SendTalkClose(talkId: TalkId)
    | SendTalkCreate(talkId: TalkId)
    | SendServicerAttach(talkId: TalkId, servicerID: nat)
    | SendServicerDetach(talkId: TalkId, servicerID: nat)

  /** What the bus calls on the observers of the two sides. */
  datatype Callback =
    | CustomerOnMessage(talkId: TalkId, message: Msg)
    | CustomerOnClose(talkId: TalkId)
    | ServicerOnMessage(talkId: TalkId, message: Msg)
    | ServicerOnCreate(talkId: TalkId)
    | ServicerOnClose(talkId: TalkId)
    | ServicerOnAttach(talkId: TalkId, servicerID: nat)
    | ServicerOnDetach(talkId: TalkId, servicerID: nat)

  predicate ForCustomers(b: Callback) {
    b.CustomerOnMessage? || b.CustomerOnClose?
  }

  /** Closures posted to the customer loop. */
  datatype CustomerTask =
    | CastMessage(talkId: TalkId, message: Msg)
    | CastClose(talkId: TalkId)

  /** Closures posted to the servicer loop. A detach closure has captured the talk. */
  datatype ServicerTask =
    | TellMessage(talkId: TalkId, message: Msg)
    | TellCreate(talkId: TalkId)
    | TellClose(talkId: TalkId)
    | TellAttach(talkId: TalkId, servicerID: nat)
    | TellDetach(talk: Talk, servicerID: nat)

  /** A message waiting in a controller's message channel. */
  datatype Incoming = Incoming(conn: nat, talkId: TalkId, seqId: nat, message: Msg)

  /** A request of a servicer session about one talk. */
  datatype Request = Request(conn: nat, talkId: TalkId)

  /** What a message domain asks the bus to track: the talks whose channels it listens on. */
  datatype TrackCall = AddTrack(talkId: TalkId) | RemoveTrack(talkId: TalkId)

  /** Which store calls of one handler fail: its first read, its second read, its write, and
      the message reads of the listed talks; `track` says whether the bus refuses to track. */
  datatype Faults = Faults(read: bool, second: bool, write: bool, messages: set<TalkId>, track: bool)

  const NO_FAULTS := Faults(false, false, false, {}, false)

  /** A non-blocking send into a bounded queue: refused when it is full. */
  function Push<T>(q: seq<T>, capacity: nat, x: T): seq<T> {
    if |q| < capacity then q + [x] else q
  }

  const SESSION_CAPACITY: nat := 100
  const REQUEST_CAPACITY: nat := 10
  const MESSAGE_CAPACITY: nat := 100
}
