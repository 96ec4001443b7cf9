/** The order in which one connection's messages travel: from its receive loop through the
    message channel, the bus and the posted closures into a session's stream. */
module OrderShapes {
  import opened Defs
  import opened Hubs
  import opened Sides
  import opened Engine

  /** The number of a message of the followed sender; nothing for anything else. */
  type Mark = Option<nat>

  function MarkOf(m: Msg, x: Sender): Mark {
    if m.sender == x then Some(m.no) else None
  }

  function CustomerMark(r: TalkResponse, x: Sender): Mark {
    if r.Message? then MarkOf(r.message, x) else None
  }

  function ServicerMark(r: ServiceResponse, x: Sender): Mark {
    if r.ServiceMessage? then MarkOf(r.message, x) else None
  }

  function CustomerTaskMark(k: CustomerTask, x: Sender): Mark {
    if k.CastMessage? then MarkOf(k.message, x) else None
  }

  function ServicerTaskMark(k: ServicerTask, x: Sender): Mark {
    if k.TellMessage? then MarkOf(k.message, x) else None
  }

  function CallbackMark(b: Callback, x: Sender, forCustomers: bool): Mark {
    if forCustomers then if b.CustomerOnMessage? then MarkOf(b.message, x) else None
    else if b.ServicerOnMessage? then MarkOf(b.message, x) else None
  }

  function LiveC(sent: seq<TalkResponse>, x: Sender): seq<Mark> {
    seq(|sent|, i requires 0 <= i < |sent| => CustomerMark(sent[i], x))
  }

  function LiveS(sent: seq<ServiceResponse>, x: Sender): seq<Mark> {
    seq(|sent|, i requires 0 <= i < |sent| => ServicerMark(sent[i], x))
  }

  function PostC(posted: seq<CustomerTask>, x: Sender): seq<Mark> {
    seq(|posted|, i requires 0 <= i < |posted| => CustomerTaskMark(posted[i], x))
  }

  function PostS(posted: seq<ServicerTask>, x: Sender): seq<Mark> {
    seq(|posted|, i requires 0 <= i < |posted| => ServicerTaskMark(posted[i], x))
  }

  function Mid(mid: seq<Callback>, x: Sender, forCustomers: bool): seq<Mark> {
    seq(|mid|, i requires 0 <= i < |mid| => CallbackMark(mid[i], x, forCustomers))
  }

  function Wait(inbox: seq<Incoming>, x: Sender): seq<Mark> {
    seq(|inbox|, i requires 0 <= i < |inbox| => MarkOf(inbox[i].message, x))
  }

  /** The numbers among the marks. */
  function Strip(marks: seq<Mark>): seq<nat> {
    if marks == [] then []
    else
      var w := marks[|marks| - 1];
      Strip(marks[..|marks| - 1]) + (if w.Some? then [w.value] else [])
  }

  ghost predicate Sorted(s: seq<nat>) {
    forall i, j | 0 <= i < j < |s| :: s[i] < s[j]
  }

  ghost predicate Below(s: seq<nat>, n: nat) {
    forall i | 0 <= i < |s| :: s[i] < n
  }

  /** The same numbers, or all but one of them. */
  ghost predicate Thinner(s: seq<nat>, s': seq<nat>) {
    s' == s || exists k :: 0 <= k < |s| && s' == s[..k] + s[k + 1..]
  }

  function SentC(e: State, r: nat): seq<TalkResponse> {
    if r in e.c.hub.sess then e.c.hub.sess[r].sent else []
  }

  function SentS(e: State, r: nat): seq<ServiceResponse> {
    if r in e.s.hub.sess then e.s.hub.sess[r].sent else []
  }

  /** The callbacks and the message channel of the sender's own side. */
  function OwnMid(e: State, x: Sender): seq<Callback> {
    if x.customer then e.cMid else e.sMid
  }

  function OwnInbox(e: State, x: Sender): seq<Incoming> {
    if x.customer then e.c.inbox else e.s.inbox
  }

  function OwnConns(e: State, x: Sender): map<nat, Conn> {
    if x.customer then e.c.conns else e.s.conns
  }

  /** All of the sender's messages on their way to customer session r, or there already. */
  function CustomerLine(e: State, r: nat, x: Sender): seq<Mark> {
    LiveC(SentC(e, r), x) + PostC(e.cPosted, x) + Mid(OwnMid(e, x), x, true) + Wait(OwnInbox(e, x), x)
  }

  function ServicerLine(e: State, r: nat, x: Sender): seq<Mark> {
    LiveS(SentS(e, r), x) + PostS(e.sPosted, x) + Mid(OwnMid(e, x), x, false) + Wait(OwnInbox(e, x), x)
  }

  /** The number of the sender's message that is next to enter the message channel. */
  function Floor(conns: map<nat, Conn>, q: nat): nat {
    if q !in conns then 0
    else if conns[q].held.Some? then conns[q].held.value.message.no
    else conns[q].next
  }

  ghost predicate LineOk(line: seq<Mark>, floor: nat) {
    Sorted(Strip(line)) && Below(Strip(line), floor)
  }

  ghost predicate InOrder(e: State, r: nat, x: Sender) {
    && LineOk(CustomerLine(e, r, x), Floor(OwnConns(e, x), x.conn))
    && LineOk(ServicerLine(e, r, x), Floor(OwnConns(e, x), x.conn))
  }

  ghost predicate CarriesOnly(mid: seq<Callback>, customer: bool) {
    forall b | b in mid :: b.CustomerOnMessage? || b.ServicerOnMessage? ==> b.message.sender.customer == customer
  }

  /** A held message has the last number given out, and each loop's callbacks carry only
      messages of its own side. */
  ghost predicate NumbersOk(e: State) {
    && (forall q | q in e.c.conns && e.c.conns[q].held.Some? :: e.c.conns[q].held.value.message.no < e.c.conns[q].next)
    && (forall q | q in e.s.conns && e.s.conns[q].held.Some? :: e.s.conns[q].held.value.message.no < e.s.conns[q].next)
    && CarriesOnly(e.cMid, true) && CarriesOnly(e.sMid, false)
  }

  /** The message a step persists. */
  function Persisted(e: State, a: Step): Option<Msg> {
    match a
    case CustomerStep(q, Receives(at, text, _, down)) =>
      if Reading(e.c, q) && !down then Some(Msg(at, text, Sender(true, q), e.c.conns[q].next)) else None
    case ServicerStep(q, ServicerReceive(_, at, text, _, down)) =>
      if Reading(e.s, q) && !down then Some(Msg(at, text, Sender(false, q), e.s.conns[q].next)) else None
    case _ => None
  }

  /** What one connection persisted in a run, in that order. */
  function PersistedBy(e: State, steps: seq<Step>, x: Sender): seq<Msg> {
    if steps == [] then []
    else
      var before := steps[..|steps| - 1];
      var m := Persisted(Run(e, before), steps[|steps| - 1]);
      PersistedBy(e, before, x) + (if m.Some? && m.value.sender == x then [m.value] else [])
  }

  predicate Recorded(persisted: seq<Msg>, m: Msg) {
    m.no < |persisted| && persisted[m.no] == m
  }

  ghost predicate NoMarks(marks: seq<Mark>) {
    forall i | 0 <= i < |marks| :: marks[i].None?
  }

  /** The stream got nothing of the sender's. */
  ghost predicate LiveGrew(a: seq<Mark>, a': seq<Mark>) {
    a <= a' && NoMarks(a'[|a|..])
  }

  /** A loop handled something: nothing of the sender's, or the first message waiting, which
      went into the callbacks or was refused. */
  ghost predicate MidTurn(m: seq<Mark>, w: seq<Mark>, m': seq<Mark>, w': seq<Mark>) {
    || (m' == m && w' == w)
    || (m == [] && w' == w && NoMarks(m'))
    || (m == [] && w != [] && w' == w[1..] && (Strip(m') == [] || Strip(m') == Strip([w[0]])))
  }

  /** The sender's messages keep their order on the way to session r of either side; some may
      be dropped. */
  ghost predicate LinesThin(e: State, e': State, r: nat, x: Sender) {
    && Thinner(Strip(CustomerLine(e, r, x)), Strip(CustomerLine(e', r, x)))
    && Thinner(Strip(ServicerLine(e, r, x)), Strip(ServicerLine(e', r, x)))
    && Floor(OwnConns(e, x), x.conn) <= Floor(OwnConns(e', x), x.conn)
  }

  ghost predicate WaitingRecorded<K, R>(s: Side<K, R>, x: Sender, persisted: seq<Msg>) {
    && (forall d | d in s.inbox :: d.message.sender == x ==> Recorded(persisted, d.message))
    && (forall q | q in s.conns && s.conns[q].held.Some? ::
          s.conns[q].held.value.message.sender == x ==> Recorded(persisted, s.conns[q].held.value.message))
  }

  function NextNumber(conns: map<nat, Conn>, q: nat): nat {
    if q in conns then conns[q].next else 0
  }

  /** The sender's messages anywhere in the engine are those it persisted, under their own
      numbers, and the next number is how many those are. */
  ghost predicate AllRecorded(e: State, x: Sender, persisted: seq<Msg>) {
    && (forall t, m | (t, m) in e.log.bus :: m.sender == x ==> Recorded(persisted, m))
    && WaitingRecorded(e.c, x, persisted) && WaitingRecorded(e.s, x, persisted)
    && |persisted| == NextNumber(OwnConns(e, x), x.conn)
  }

  /** The live messages of the sender in a stream were persisted by it, in that order, and
      none comes twice. */
  ghost predicate LiveInOrderC(sent: seq<TalkResponse>, x: Sender, persisted: seq<Msg>) {
    && (forall i | 0 <= i < |sent| && sent[i].Message? && sent[i].message.sender == x ::
        Recorded(persisted, sent[i].message))
    && (forall i, j | 0 <= i < j < |sent| && sent[i].Message? && sent[i].message.sender == x
                      && sent[j].Message? && sent[j].message.sender == x ::
          sent[i].message.no < sent[j].message.no)
  }

  ghost predicate LiveInOrderS(sent: seq<ServiceResponse>, x: Sender, persisted: seq<Msg>) {
    && (forall i | 0 <= i < |sent| && sent[i].ServiceMessage? && sent[i].message.sender == x ::
          Recorded(persisted, sent[i].message))
    && (forall i, j | 0 <= i < j < |sent| && sent[i].ServiceMessage? && sent[i].message.sender == x
                      && sent[j].ServiceMessage? && sent[j].message.sender == x ::
          sent[i].message.no < sent[j].message.no)
  }
}
