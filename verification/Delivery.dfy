/** In-order, at-most-once live delivery: the live messages of one connection in any session's
    stream are a duplicate-free subsequence of what the connection persisted, through the
    message queue, the bus, the posted closures and the broadcasts, whatever was dropped. */
module Delivery {
  import opened Defs
  import opened TalkStore
  import opened Hubs
  import opened HubFacts
  import opened Sides
  import opened AllInOne
  import opened Engine
  import opened Shapes
  import opened EngineFacts
  import opened LiveShapes
  import opened Persistence
  import opened Frames
  import opened SendShapes
  import opened SendFacts
  import opened OwnershipShapes
  import opened Ownership
  import opened OrderShapes
  import CL = CustomerLogic
  import SL = ServicerLogic

  // ---- marks ----

  lemma {:induction false} StripConcat(a: seq<Mark>, b: seq<Mark>)
    ensures Strip(a + b) == Strip(a) + Strip(b)
  {
    if b == [] {
      assert a + b == a;
    } else {
      StripConcat(a, b[..|b| - 1]);
      assert (a + b)[..|a + b| - 1] == a + b[..|b| - 1];
    }
  }

  lemma {:induction false} StripNone(a: seq<Mark>)
    requires NoMarks(a)
    ensures Strip(a) == []
  {
    if a != [] {
      StripNone(a[..|a| - 1]);
    }
  }

  lemma StripOne(w: Mark)
    ensures Strip([w]) == if w.Some? then [w.value] else []
  {
    assert [w][..0] == [];
  }

  lemma StripLine(a: seq<Mark>, p: seq<Mark>, m: seq<Mark>, w: seq<Mark>)
    ensures Strip(a + p + m + w) == Strip(a) + Strip(p) + Strip(m) + Strip(w)
  {
    StripConcat(a + p + m, w);
    StripConcat(a + p, m);
    StripConcat(a, p);
  }

  lemma ThinnerOk(line: seq<Mark>, line': seq<Mark>, floor: nat, floor': nat)
    requires LineOk(line, floor) && Thinner(Strip(line), Strip(line')) && floor <= floor'
    ensures LineOk(line', floor')
  {
  }

  lemma ThinnerMiddle(a: seq<nat>, v: seq<nat>, v': seq<nat>, b: seq<nat>)
    requires |v| <= 1 && (v' == v || v' == [])
    ensures Thinner(a + v + b, a + v' + b)
  {
    if v' != v {
      var s := a + v + b;
      assert a + v' + b == s[..|a|] + s[|a| + 1..];
    }
  }

  lemma LiveGrewStrip(a: seq<Mark>, a': seq<Mark>)
    requires LiveGrew(a, a')
    ensures Strip(a') == Strip(a)
  {
    assert a' == a + a'[|a|..];
    StripConcat(a, a'[|a|..]);
    StripNone(a'[|a|..]);
  }

  lemma AtFirst(p: seq<Mark>)
    requires p != []
    ensures Strip(p) == Strip([p[0]]) + Strip(p[1..]) && |Strip([p[0]])| <= 1
  {
    assert p == [p[0]] + p[1..];
    StripConcat([p[0]], p[1..]);
    StripOne(p[0]);
  }

  /** A line, split at its first waiting message, callback or closure. */
  lemma AtWait(a: seq<Mark>, p: seq<Mark>, m: seq<Mark>, w: seq<Mark>)
    requires w != []
    ensures Strip(a + p + m + w) == (Strip(a) + Strip(p) + Strip(m)) + Strip([w[0]]) + Strip(w[1..])
  {
    StripLine(a, p, m, w);
    AtFirst(w);
  }

  lemma AtMid(a: seq<Mark>, p: seq<Mark>, m: seq<Mark>, w: seq<Mark>)
    requires m != []
    ensures Strip(a + p + m + w) == (Strip(a) + Strip(p)) + Strip([m[0]]) + (Strip(m[1..]) + Strip(w))
  {
    StripLine(a, p, m, w);
    AtFirst(m);
  }

  lemma Regroup(a: seq<nat>, p: seq<nat>, m: seq<nat>, w: seq<nat>)
    ensures a + p + m + w == a + (p + m + w) && a + p + m + w == (a + p) + (m + w)
  {
  }

  lemma AtPosted(a: seq<Mark>, p: seq<Mark>, m: seq<Mark>, w: seq<Mark>)
    requires p != []
    ensures Strip(a + p + m + w) == Strip(a) + Strip([p[0]]) + (Strip(p[1..]) + Strip(m) + Strip(w))
  {
    StripLine(a, p, m, w);
    AtFirst(p);
    var x, r := Strip([p[0]]), Strip(p[1..]);
    assert Strip(a) + (x + r) == (Strip(a) + x) + r;
    Regroup(Strip(a) + x, r, Strip(m), Strip(w));
  }

  lemma Handled(a: seq<nat>, p: seq<nat>, m: seq<nat>, w: seq<nat>)
    ensures a + p + m + w == (a + p + []) + m + w
  {
  }

  /** A loop handled something other than a closure. */
  lemma HandlingThins(a: seq<Mark>, p: seq<Mark>, m: seq<Mark>, w: seq<Mark>,
                      a': seq<Mark>, m': seq<Mark>, w': seq<Mark>)
    requires LiveGrew(a, a') && MidTurn(m, w, m', w')
    ensures Thinner(Strip(a + p + m + w), Strip(a' + p + m' + w'))
  {
    LiveGrewStrip(a, a');
    StripLine(a', p, m', w');
    if m' == m && w' == w {
      StripLine(a, p, m, w);
    } else if NoMarks(m') && w' == w {
      StripLine(a, p, m, w);
      StripNone(m');
    } else {
      AtWait(a, p, m, w);
      AtFirst(w);
      assert Strip(m) == [];
      Handled(Strip(a), Strip(p), Strip(m'), Strip(w'));
      ThinnerMiddle(Strip(a) + Strip(p) + [], Strip([w[0]]), Strip(m'), Strip(w'));
    }
  }

  /** The first closure ran: the stream got its message, or nothing of the sender's. */
  lemma ClosureThins(a: seq<Mark>, p: seq<Mark>, m: seq<Mark>, w: seq<Mark>, a': seq<Mark>)
    requires p != [] && (LiveGrew(a, a') || a' == a + [p[0]])
    ensures Thinner(Strip(a + p + m + w), Strip(a' + p[1..] + m + w))
  {
    var rest := Strip(p[1..]) + Strip(m) + Strip(w);
    AtPosted(a, p, m, w);
    AtFirst(p);
    StripLine(a', p[1..], m, w);
    Regroup(Strip(a'), Strip(p[1..]), Strip(m), Strip(w));
    if a' == a + [p[0]] {
      StripConcat(a, [p[0]]);
      ThinnerMiddle(Strip(a), Strip([p[0]]), Strip([p[0]]), rest);
    } else {
      LiveGrewStrip(a, a');
      ThinnerMiddle(Strip(a), Strip([p[0]]), [], rest);
      assert Strip(a) + [] == Strip(a);
    }
  }

  /** The first callback was made: its message went into the queue, or was dropped or not for
      this side. */
  lemma CallThins(a: seq<Mark>, p: seq<Mark>, m: seq<Mark>, w: seq<Mark>, p': seq<Mark>)
    requires m != [] && (LiveGrew(p, p') || p' == p + [m[0]])
    ensures Thinner(Strip(a + p + m + w), Strip(a + p' + m[1..] + w))
  {
    var front, rest := Strip(a) + Strip(p), Strip(m[1..]) + Strip(w);
    AtMid(a, p, m, w);
    AtFirst(m);
    StripLine(a, p', m[1..], w);
    Regroup(Strip(a), Strip(p'), Strip(m[1..]), Strip(w));
    if p' == p + [m[0]] {
      StripConcat(p, [m[0]]);
      ThinnerMiddle(front, Strip([m[0]]), Strip([m[0]]), rest);
      assert Strip(a) + (Strip(p) + Strip([m[0]])) == front + Strip([m[0]]);
    } else {
      LiveGrewStrip(p, p');
      ThinnerMiddle(front, Strip([m[0]]), [], rest);
      assert front + [] == front;
    }
  }

  lemma OtherCallKeeps(a: seq<Mark>, p: seq<Mark>, m: seq<Mark>, w: seq<Mark>, p': seq<Mark>)
    requires LiveGrew(p, p')
    ensures Strip(a + p' + m + w) == Strip(a + p + m + w)
  {
    LiveGrewStrip(p, p');
    StripLine(a, p, m, w);
    StripLine(a, p', m, w);
  }

  lemma OneMoreAbove(s: seq<nat>, floor: nat, floor': nat)
    requires Sorted(s) && Below(s, floor) && floor < floor'
    ensures Sorted(s + [floor]) && Below(s + [floor], floor') && Below(s, floor')
  {
  }

  /** A message enters the channel with the number that was next. */
  lemma EnqueuedOk(a: seq<Mark>, p: seq<Mark>, m: seq<Mark>, w: seq<Mark>, w': seq<Mark>, floor: nat, floor': nat)
    requires LineOk(a + p + m + w, floor) && floor < floor' && (w' == w || w' == w + [Some(floor)])
    ensures LineOk(a + p + m + w', floor')
  {
    OneMoreAbove(Strip(a + p + m + w), floor, floor');
    if w' != w {
      StripConcat(a + p + m + w, [Some(floor)]);
      StripOne(Some(floor));
      assert a + p + m + w' == (a + p + m + w) + [Some(floor)];
    }
  }

  lemma NothingOfOthers(a: seq<Mark>, p: seq<Mark>, m: seq<Mark>, w: seq<Mark>, w': seq<Mark>)
    requires LiveGrew(w, w')
    ensures Strip(a + p + m + w') == Strip(a + p + m + w)
  {
    LiveGrewStrip(w, w');
    StripLine(a, p, m, w);
    StripLine(a, p, m, w');
  }

  // ---- queues as marks ----

  lemma Firsts(posted: seq<CustomerTask>, tasks: seq<ServicerTask>, mid: seq<Callback>, inbox: seq<Incoming>, x: Sender,
               c: bool)
    ensures posted != [] ==> PostC(posted[1..], x) == PostC(posted, x)[1..]
    ensures tasks != [] ==> PostS(tasks[1..], x) == PostS(tasks, x)[1..]
    ensures mid != [] ==> Mid(mid[1..], x, c) == Mid(mid, x, c)[1..]
    ensures inbox != [] ==> Wait(inbox[1..], x) == Wait(inbox, x)[1..]
  {
  }

  lemma CarryOrder(e: State, e': State, r: nat, x: Sender)
    requires InOrder(e, r, x) && LinesThin(e, e', r, x)
    ensures InOrder(e', r, x)
  {
    var floor, floor' := Floor(OwnConns(e, x), x.conn), Floor(OwnConns(e', x), x.conn);
    ThinnerOk(CustomerLine(e, r, x), CustomerLine(e', r, x), floor, floor');
    ThinnerOk(ServicerLine(e, r, x), ServicerLine(e', r, x), floor, floor');
  }

  lemma MoreOfNothing(a: seq<Mark>, n: seq<Mark>)
    requires NoMarks(n)
    ensures LiveGrew(a, a + n)
  {
    assert (a + n)[|a|..] == n;
  }

  lemma SameIsNothing(a: seq<Mark>)
    ensures LiveGrew(a, a)
  {
  }

  lemma LiveCGrew(a: seq<TalkResponse>, b: seq<TalkResponse>, x: Sender)
    requires a <= b && forall i | |a| <= i < |b| :: !b[i].Message?
    ensures LiveGrew(LiveC(a, x), LiveC(b, x))
  {
  }

  lemma LiveSGrew(a: seq<ServiceResponse>, b: seq<ServiceResponse>, x: Sender)
    requires a <= b && forall i | |a| <= i < |b| :: !b[i].ServiceMessage?
    ensures LiveGrew(LiveS(a, x), LiveS(b, x))
  {
  }

  // ---- the connections ----

  lemma CustomerActsSent(e: State, q: nat, a: CustomerAct, r: nat)
    requires e.c.conns.Keys == e.c.hub.sess.Keys
    ensures SentC(e, r) <= SentC(CustomerActs(e, q, a), r)
    ensures forall i | |SentC(e, r)| <= i < |SentC(CustomerActs(e, q, a), r)| ::
            !SentC(CustomerActs(e, q, a), r)[i].Message?
  {
  }

  lemma CustomerActsPosted(e: State, q: nat, a: CustomerAct)
    ensures CustomerActs(e, q, a).cPosted == e.cPosted
    ensures !a.Enqueues? ==> CustomerActs(e, q, a).c.inbox == e.c.inbox
  {
  }

  lemma CustomerActsFloor(e: State, q: nat, a: CustomerAct, x: nat)
    requires !a.Enqueues?
    ensures Floor(e.c.conns, x) <= Floor(CustomerActs(e, q, a).c.conns, x)
  {
  }

  /** What changes neither queue, lets a stream grow by other things and floors rise. */
  lemma StreamsOnly(e: State, e': State, r: nat, x: Sender)
    requires LiveGrew(LiveC(SentC(e, r), x), LiveC(SentC(e', r), x))
             && LiveGrew(LiveS(SentS(e, r), x), LiveS(SentS(e', r), x))
    requires e'.cPosted == e.cPosted && e'.sPosted == e.sPosted && OwnMid(e', x) == OwnMid(e, x)
             && OwnInbox(e', x) == OwnInbox(e, x)
    requires Floor(OwnConns(e, x), x.conn) <= Floor(OwnConns(e', x), x.conn)
    ensures LinesThin(e, e', r, x)
  {
    var w := Wait(OwnInbox(e, x), x);
    HandlingThins(LiveC(SentC(e, r), x), PostC(e.cPosted, x), Mid(OwnMid(e, x), x, true), w,
                  LiveC(SentC(e', r), x), Mid(OwnMid(e, x), x, true), w);
    HandlingThins(LiveS(SentS(e, r), x), PostS(e.sPosted, x), Mid(OwnMid(e, x), x, false), w,
                  LiveS(SentS(e', r), x), Mid(OwnMid(e, x), x, false), w);
  }

  lemma CustomerActsThin(e: State, q: nat, a: CustomerAct, r: nat, x: Sender)
    requires e.c.conns.Keys == e.c.hub.sess.Keys && !a.Enqueues?
    ensures LinesThin(e, CustomerActs(e, q, a), r, x)
  {
    var e' := CustomerActs(e, q, a);
    CustomerActsElsewhere(e, q, a);
    CustomerActsLeaveQueue(e, q, a);
    CustomerActsPosted(e, q, a);
    CustomerActsSent(e, q, a, r);
    CustomerActsFloor(e, q, a, x.conn);
    LiveCGrew(SentC(e, r), SentC(e', r), x);
    SameIsNothing(LiveS(SentS(e, r), x));
    StreamsOnly(e, e', r, x);
  }

  lemma ServicerActsPosted(e: State, q: nat, a: ServicerAct)
    ensures ServicerActs(e, q, a).cPosted == e.cPosted
    ensures !a.ServicerEnqueue? ==> ServicerActs(e, q, a).s.inbox == e.s.inbox
  {
  }

  lemma QuietActsKeepConns(e: State, q: nat, a: ServicerAct)
    requires a.ServicerRequest? || a.ServicerDrain?
    ensures ServicerActs(e, q, a).s.conns == e.s.conns
  {
  }

  lemma ServicerActsFloor(e: State, q: nat, a: ServicerAct, x: nat)
    requires !a.ServicerEnqueue?
    ensures Floor(e.s.conns, x) <= Floor(ServicerActs(e, q, a).s.conns, x)
  {
    if a.ServicerRequest? || a.ServicerDrain? {
      QuietActsKeepConns(e, q, a);
    }
  }

  lemma ServicerActsKeepSessions(e: State, q: nat, a: ServicerAct)
    ensures e.s.hub.sess.Keys <= ServicerActs(e, q, a).s.hub.sess.Keys
  {
  }

  lemma ServicerActsSent(e: State, q: nat, a: ServicerAct, r: nat)
    requires e.s.conns.Keys == e.s.hub.sess.Keys
    ensures SentS(ServicerActs(e, q, a), r) == SentS(e, r)
  {
    if r in ServicerActs(e, q, a).s.hub.sess {
      ServicerActsSendNothing(e, q, a, r);
    } else {
      ServicerActsKeepSessions(e, q, a);
    }
  }

  lemma ServicerActsThin(e: State, q: nat, a: ServicerAct, r: nat, x: Sender)
    requires e.s.conns.Keys == e.s.hub.sess.Keys && !a.ServicerEnqueue?
    ensures LinesThin(e, ServicerActs(e, q, a), r, x)
  {
    var e' := ServicerActs(e, q, a);
    ServicerActsElsewhere(e, q, a);
    ServicerActsLeaveQueue(e, q, a);
    ServicerActsLeaveCalls(e, q, a);
    ServicerActsPosted(e, q, a);
    ServicerActsSent(e, q, a, r);
    ServicerActsFloor(e, q, a, x.conn);
    SameIsNothing(LiveC(SentC(e, r), x));
    SameIsNothing(LiveS(SentS(e, r), x));
    StreamsOnly(e, e', r, x);
  }

  /** The held message enters the channel, or is refused. */
  lemma EnqueueMarks<K, R>(s: Side<K, R>, q: nat, stops: bool, x: Sender, customer: bool)
    requires Authored(s, customer) && q in s.conns && s.conns[q].held.Some?
    requires s.conns[q].held.value.message.no < s.conns[q].next
    ensures var s' := Enqueue(s, q, stops);
            if x == Sender(customer, q) then
              Floor(s.conns, q) < Floor(s'.conns, q)
              && (Wait(s'.inbox, x) == Wait(s.inbox, x)
                  || Wait(s'.inbox, x) == Wait(s.inbox, x) + [Some(Floor(s.conns, q))])
            else
              LiveGrew(Wait(s.inbox, x), Wait(s'.inbox, x))
              && (x.customer == customer ==> Floor(s'.conns, x.conn) == Floor(s.conns, x.conn))
  {
    var s' := Enqueue(s, q, stops);
    var d := s.conns[q].held.value;
    if s'.inbox != s.inbox {
      assert Wait(s'.inbox, x) == Wait(s.inbox, x) + [MarkOf(d.message, x)];
      if x != Sender(customer, q) {
        MoreOfNothing(Wait(s.inbox, x), [MarkOf(d.message, x)]);
      }
    } else {
      SameIsNothing(Wait(s.inbox, x));
    }
  }

  lemma EnqueueKeepsOrder(e: State, e': State, r: nat, x: Sender)
    requires InOrder(e, r, x)
    requires SentC(e', r) == SentC(e, r) && SentS(e', r) == SentS(e, r)
    requires e'.cPosted == e.cPosted && e'.sPosted == e.sPosted && OwnMid(e', x) == OwnMid(e, x)
    requires var w, w' := Wait(OwnInbox(e, x), x), Wait(OwnInbox(e', x), x);
             var f, f' := Floor(OwnConns(e, x), x.conn), Floor(OwnConns(e', x), x.conn);
             (f < f' && (w' == w || w' == w + [Some(f)])) || (LiveGrew(w, w') && f' == f)
    ensures InOrder(e', r, x)
  {
    var w, w' := Wait(OwnInbox(e, x), x), Wait(OwnInbox(e', x), x);
    var f, f' := Floor(OwnConns(e, x), x.conn), Floor(OwnConns(e', x), x.conn);
    var a, p, m := LiveC(SentC(e, r), x), PostC(e.cPosted, x), Mid(OwnMid(e, x), x, true);
    var b, o, n := LiveS(SentS(e, r), x), PostS(e.sPosted, x), Mid(OwnMid(e, x), x, false);
    if f < f' && (w' == w || w' == w + [Some(f)]) {
      EnqueuedOk(a, p, m, w, w', f, f');
      EnqueuedOk(b, o, n, w, w', f, f');
    } else {
      NothingOfOthers(a, p, m, w, w');
      NothingOfOthers(b, o, n, w, w');
    }
  }

  lemma CustomerEnqueuesOrder(e: State, q: nat, r: nat, x: Sender)
    requires InOrder(e, r, x) && Authored(e.c, true) && NumbersOk(e)
    ensures InOrder(CustomerEnqueues(e, q), r, x)
  {
    if q in e.c.conns && e.c.conns[q].held.Some? {
      EnqueueMarks(e.c, q, true, x, true);
      SameIsNothing(Wait(OwnInbox(e, x), x));
      EnqueueKeepsOrder(e, CustomerEnqueues(e, q), r, x);
    }
  }

  lemma ServicerEnqueuesOrder(e: State, q: nat, r: nat, x: Sender)
    requires InOrder(e, r, x) && Authored(e.s, false) && NumbersOk(e)
    ensures InOrder(ServicerEnqueues(e, q), r, x)
  {
    if q in e.s.conns && e.s.conns[q].held.Some? {
      EnqueueMarks(e.s, q, false, x, false);
      SameIsNothing(Wait(OwnInbox(e, x), x));
      EnqueueKeepsOrder(e, ServicerEnqueues(e, q), r, x);
    }
  }

  // ---- the callbacks ----

  lemma DeliverMarks(e: State, b: Callback, down: bool, x: Sender)
    ensures var e' := Deliver(e, b, down);
            && (PostC(e'.cPosted, x) == PostC(e.cPosted, x)
                || PostC(e'.cPosted, x) == PostC(e.cPosted, x) + [CallbackMark(b, x, true)])
            && (PostS(e'.sPosted, x) == PostS(e.sPosted, x)
                || PostS(e'.sPosted, x) == PostS(e.sPosted, x) + [CallbackMark(b, x, false)])
            && e'.c == e.c && e'.s == e.s && e'.cMid == e.cMid && e'.sMid == e.sMid
  {
  }

  /** A loop of the sender's own side makes a callback. */
  lemma OwnCallThins(e: State, e0: State, b: Callback, down: bool, r: nat, x: Sender)
    requires OwnMid(e, x) != [] && b == OwnMid(e, x)[0] && OwnMid(e0, x) == OwnMid(e, x)[1..]
    requires e0.c == e.c && e0.s == e.s && e0.cPosted == e.cPosted && e0.sPosted == e.sPosted
    ensures LinesThin(e, Deliver(e0, b, down), r, x)
  {
    var e', mid, w := Deliver(e0, b, down), OwnMid(e, x), Wait(OwnInbox(e, x), x);
    DeliverMarks(e0, b, down, x);
    SameIsNothing(PostC(e.cPosted, x));
    SameIsNothing(PostS(e.sPosted, x));
    Firsts([], [], mid, [], x, true);
    Firsts([], [], mid, [], x, false);
    CallThins(LiveC(SentC(e, r), x), PostC(e.cPosted, x), Mid(mid, x, true), w, PostC(e'.cPosted, x));
    CallThins(LiveS(SentS(e, r), x), PostS(e.sPosted, x), Mid(mid, x, false), w, PostS(e'.sPosted, x));
  }

  /** A loop of the other side makes a callback, which carries nothing of the sender's. */
  lemma OtherCallThins(e: State, e0: State, b: Callback, down: bool, r: nat, x: Sender)
    requires OwnMid(e0, x) == OwnMid(e, x) && CarriesOnly([b], !x.customer)
    requires e0.c == e.c && e0.s == e.s && e0.cPosted == e.cPosted && e0.sPosted == e.sPosted
    ensures LinesThin(e, Deliver(e0, b, down), r, x)
  {
    var e', mid, w := Deliver(e0, b, down), OwnMid(e, x), Wait(OwnInbox(e, x), x);
    DeliverMarks(e0, b, down, x);
    assert b in [b];
    SameIsNothing(PostC(e.cPosted, x));
    SameIsNothing(PostS(e.sPosted, x));
    MoreOfNothing(PostC(e.cPosted, x), [None]);
    MoreOfNothing(PostS(e.sPosted, x), [None]);
    OtherCallKeeps(LiveC(SentC(e, r), x), PostC(e.cPosted, x), Mid(mid, x, true), w, PostC(e'.cPosted, x));
    OtherCallKeeps(LiveS(SentS(e, r), x), PostS(e.sPosted, x), Mid(mid, x, false), w, PostS(e'.sPosted, x));
  }

  lemma NothingThins(e: State, r: nat, x: Sender)
    ensures LinesThin(e, e, r, x)
  {
  }

  lemma CustomerCallThins(e: State, down: bool, r: nat, x: Sender)
    requires NumbersOk(e)
    ensures LinesThin(e, CustomerLoopCalls(e, down), r, x)
  {
    if e.cMid == [] {
      NothingThins(e, r, x);
    } else {
      var e0, b := e.(cMid := e.cMid[1..]), e.cMid[0];
      if x.customer {
        OwnCallThins(e, e0, b, down, r, x);
      } else {
        assert b in e.cMid;
        OtherCallThins(e, e0, b, down, r, x);
      }
    }
  }

  lemma ServicerCallThins(e: State, down: bool, r: nat, x: Sender)
    requires NumbersOk(e)
    ensures LinesThin(e, ServicerLoopCalls(e, down), r, x)
  {
    if e.sMid == [] {
      NothingThins(e, r, x);
    } else {
      var e0, b := e.(sMid := e.sMid[1..]), e.sMid[0];
      if !x.customer {
        OwnCallThins(e, e0, b, down, r, x);
      } else {
        assert b in e.sMid;
        OtherCallThins(e, e0, b, down, r, x);
      }
    }
  }

  // ---- the closures ----

  lemma CustomerTaskSent(h: CL.CustomerHub, task: CustomerTask, late: set<nat>, r: nat, x: Sender)
    requires HubOk(h) && r in h.sess
    ensures r in CL.RunTask(h, task, late).sess
    ensures var a, a' := LiveC(h.sess[r].sent, x), LiveC(CL.RunTask(h, task, late).sess[r].sent, x);
            LiveGrew(a, a') || a' == a + [CustomerTaskMark(task, x)]
  {
    var h' := CL.RunTask(h, task, late);
    CastKeyBroadcasts(h, task.talkId, {0}, CL.TaskResponse(task), CL.SEND_FAILED, late);
    assert Got(h, h', r, AddressedByKey(h, task.talkId, {0}), CL.TaskResponse(task), CL.SEND_FAILED);
    var s, s' := h.sess[r].sent, h'.sess[r].sent;
    if s' == s + [CL.TaskResponse(task)] {
      assert LiveC(s', x) == LiveC(s, x) + [CustomerTaskMark(task, x)];
    } else {
      LiveCGrew(s, s', x);
    }
  }

  lemma GivenMarks(s: ServicerSess, s': ServicerSess, rs: seq<ServiceResponse>, task: ServicerTask, x: Sender)
    requires Given(s, s', rs)
    requires (forall r | r in rs :: !r.ServiceMessage?)
          || (|rs| == 1 && task.TellMessage? && rs[0] == ServiceResponse.ServiceMessage(task.talkId, task.message))
    ensures var a, a' := LiveS(s.sent, x), LiveS(s'.sent, x);
            LiveGrew(a, a') || a' == a + [ServicerTaskMark(task, x)]
  {
    if forall i | |s.sent| <= i < |s'.sent| :: !s'.sent[i].ServiceMessage? {
      LiveSGrew(s.sent, s'.sent, x);
    } else {
      assert s'.sent == s.sent + [rs[0]];
      assert LiveS(s'.sent, x) == LiveS(s.sent, x) + [ServicerTaskMark(task, x)];
    }
  }

  lemma ServicerTaskSent(h: SL.ServicerHub, st: Store, task: ServicerTask, f: Faults, late: set<nat>, r: nat, x: Sender)
    requires HubOk(h) && r in h.sess && r != 0
    ensures r in SL.RunTask(h, st, task, f, late).sess
    ensures var a, a' := LiveS(h.sess[r].sent, x), LiveS(SL.RunTask(h, st, task, f, late).sess[r].sent, x);
            LiveGrew(a, a') || a' == a + [ServicerTaskMark(task, x)]
  {
    TaskGives(h, st, task, f, late, r);
    var rs := if Registered(h, r) then TaskSends(st, task, f, h.sess[r].key) else [];
    var s, s' := h.sess[r], SL.RunTask(h, st, task, f, late).sess[r];
    GivenMarks(s, s', rs, task, x);
  }

  lemma CustomerClosureThins(e: State, late: set<nat>, r: nat, x: Sender)
    requires HubOk(e.c.hub)
    ensures LinesThin(e, RunCustomerTask(e, late), r, x)
  {
    if e.cMid != [] || e.cPosted == [] {
      NothingThins(e, r, x);
    } else {
      var e', w := RunCustomerTask(e, late), Wait(OwnInbox(e, x), x);
      CustomerTaskSteady(e.c.hub, e.cPosted[0], late);
      if r in e.c.hub.sess {
        CustomerTaskSent(e.c.hub, e.cPosted[0], late, r, x);
      } else {
        SameIsNothing(LiveC(SentC(e, r), x));
      }
      Firsts(e.cPosted, [], [], [], x, true);
      ClosureThins(LiveC(SentC(e, r), x), PostC(e.cPosted, x), Mid(OwnMid(e, x), x, true), w, LiveC(SentC(e', r), x));
    }
  }

  lemma ServicerClosureThins(e: State, f: Faults, late: set<nat>, r: nat, x: Sender)
    requires HubOk(e.s.hub) && 0 !in e.s.hub.sess
    ensures LinesThin(e, RunServicerTask(e, f, late), r, x)
  {
    if e.sMid != [] || e.sPosted == [] {
      NothingThins(e, r, x);
    } else {
      var e', w := RunServicerTask(e, f, late), Wait(OwnInbox(e, x), x);
      ServicerTaskSteady(e.s.hub, e.store, e.sPosted[0], f, late);
      if r in e.s.hub.sess {
        ServicerTaskSent(e.s.hub, e.store, e.sPosted[0], f, late, r, x);
      } else {
        SameIsNothing(LiveS(SentS(e, r), x));
      }
      Firsts([], e.sPosted, [], [], x, true);
      ClosureThins(LiveS(SentS(e, r), x), PostS(e.sPosted, x), Mid(OwnMid(e, x), x, false), w, LiveS(SentS(e', r), x));
    }
  }

  // ---- the other handlers ----

  lemma InstallSent(e: State, f: Faults, r: nat)
    ensures SentC(e, r) <= SentC(HandleCustomerInstall(e, f), r)
    ensures forall i | |SentC(e, r)| <= i < |SentC(HandleCustomerInstall(e, f), r)| ::
              !SentC(HandleCustomerInstall(e, f), r)[i].Message?
  {
  }

  lemma MessageSent(e: State, drained: bool, r: nat)
    ensures SentC(e, r) <= SentC(HandleCustomerMessage(e, drained), r)
    ensures forall i | |SentC(e, r)| <= i < |SentC(HandleCustomerMessage(e, drained), r)| ::
              !SentC(HandleCustomerMessage(e, drained), r)[i].Message?
  {
  }

  lemma CustomerPickSent(e: State, p: CustomerPick, r: nat)
    requires !p.PickRunner? && !p.PickCall?
    ensures SentC(e, r) <= SentC(CustomerLoop(e, p), r)
    ensures forall i | |SentC(e, r)| <= i < |SentC(CustomerLoop(e, p), r)| :: !SentC(CustomerLoop(e, p), r)[i].Message?
  {
    match p
    case PickInstall(f) => InstallSent(e, f, r);
    case PickMessage(drained) => MessageSent(e, drained, r);
    case _ =>
  }

  lemma NoMessagesSent(e: State, p: ServicerPick, r: nat, y: ServiceResponse)
    requires r in e.s.hub.sess && !p.ServeRunner? && y in Sends(e, p, r)
    ensures !y.ServiceMessage?
  {
  }

  lemma ServicerPickSent(e: State, p: ServicerPick, r: nat)
    requires HubOk(e.s.hub) && 0 !in e.s.hub.sess && ServicersOk(e.s) && !p.ServeRunner? && !p.ServeCall?
    ensures SentS(e, r) <= SentS(ServicerLoop(e, p), r)
    ensures forall i | |SentS(e, r)| <= i < |SentS(ServicerLoop(e, p), r)| ::
            !SentS(ServicerLoop(e, p), r)[i].ServiceMessage?
  {
    ServicerLoopSessions(e, p);
    if r in e.s.hub.sess {
      LoopGives(e, p, r);
      var s' := SentS(ServicerLoop(e, p), r);
      forall i | |SentS(e, r)| <= i < |s'|
        ensures !s'[i].ServiceMessage?
      {
        if s'[i] in Sends(e, p, r) {
          NoMessagesSent(e, p, r, s'[i]);
        }
      }
    }
  }

  lemma MessageCallMarks(t: TalkId, m: Msg, x: Sender, c: bool)
    ensures Strip(Mid(Callbacks(SendMessage(t, m)), x, c)) == Strip([MarkOf(m, x)])
  {
    var w := MarkOf(m, x);
    var mid := Mid(Callbacks(SendMessage(t, m)), x, c);
    assert mid == if c then [w] + [None] else [None] + [w];
    StripConcat([w], [None]);
    StripConcat([None], [w]);
    StripOne(None);
  }

  lemma OtherCallMarks(call: Option<BusCall>, x: Sender, c: bool)
    requires call.None? || !call.value.SendMessage?
    ensures NoMarks(Mid(CallbacksOf(call), x, c))
  {
  }

  lemma CustomerPickCalls(e: State, p: CustomerPick, x: Sender, c: bool)
    requires !p.PickRunner? && !p.PickCall?
    ensures var e' := CustomerLoop(e, p);
            MidTurn(Mid(e.cMid, x, c), Wait(e.c.inbox, x), Mid(e'.cMid, x, c), Wait(e'.c.inbox, x))
  {
    if p.PickMessage? && e.cMid == [] && e.c.inbox != [] && e.c.inbox[0].conn in e.c.hub.sess {
      var d := e.c.inbox[0];
      MessageCallMarks(e.c.hub.sess[d.conn].key, d.message, x, c);
      Firsts([], [], [], e.c.inbox, x, c);
      assert Mid([], x, c) == [];
    }
    if p.PickInstall? && e.cMid == [] && e.c.install != [] && e.c.install[0] in e.c.hub.sess {
      OtherCallMarks(CL.InstallCustomer(e.c.hub, e.store, e.c.install[0], e.c.install[0] in e.makers, p.f).call, x, c);
    }
    if p.PickClose? && e.cMid == [] && e.closes != [] && e.closes[0] in e.c.hub.sess {
      OtherCallMarks(CL.CustomerClose(e.c.hub, e.store, e.closes[0], p.f).call, x, c);
    }
  }

  lemma CustomerPicksPosted(e: State, p: CustomerPick)
    requires !p.PickRunner? && !p.PickCall?
    ensures CustomerLoop(e, p).cPosted == e.cPosted
  {
  }

  lemma CustomerPickThins(e: State, p: CustomerPick, r: nat, x: Sender)
    requires !p.PickRunner? && !p.PickCall?
    ensures LinesThin(e, CustomerLoop(e, p), r, x)
  {
    var e' := CustomerLoop(e, p);
    CustomerPickSent(e, p, r);
    LiveCGrew(SentC(e, r), SentC(e', r), x);
    SameIsNothing(LiveS(SentS(e, r), x));
    CustomerLoopTakes(e, p);
    CustomerPicksLeaveQueue(e, p);
    CustomerPicksPosted(e, p);
    if x.customer {
      CustomerPickCalls(e, p, x, true);
      CustomerPickCalls(e, p, x, false);
      HandlingThins(LiveC(SentC(e, r), x), PostC(e.cPosted, x), Mid(e.cMid, x, true), Wait(e.c.inbox, x),
                    LiveC(SentC(e', r), x), Mid(e'.cMid, x, true), Wait(e'.c.inbox, x));
      HandlingThins(LiveS(SentS(e, r), x), PostS(e.sPosted, x), Mid(e.cMid, x, false), Wait(e.c.inbox, x),
                    LiveS(SentS(e', r), x), Mid(e'.cMid, x, false), Wait(e'.c.inbox, x));
    } else {
      StreamsOnly(e, e', r, x);
    }
  }

  lemma MessagePickCalls(e: State, f: Faults, drained: bool, x: Sender, c: bool)
    ensures var e' := HandleServicerMessage(e, f, drained);
            MidTurn(Mid(e.sMid, x, c), Wait(e.s.inbox, x), Mid(e'.sMid, x, c), Wait(e'.s.inbox, x))
  {
    if e.sMid == [] && e.s.inbox != [] && e.s.inbox[0].conn in e.s.hub.sess {
      var d := e.s.inbox[0];
      MessageCallMarks(d.talkId, d.message, x, c);
      Firsts([], [], [], e.s.inbox, x, c);
      assert Mid([], x, c) == [] && Strip([]) == [];
    }
  }

  lemma ServicerPickCalls(e: State, p: ServicerPick, x: Sender, c: bool)
    requires !p.ServeRunner? && !p.ServeCall?
    ensures var e' := ServicerLoop(e, p);
            MidTurn(Mid(e.sMid, x, c), Wait(e.s.inbox, x), Mid(e'.sMid, x, c), Wait(e'.s.inbox, x))
  {
    match p
    case ServeMessage(f, drained) => MessagePickCalls(e, f, drained, x, c);
    case ServeAttach(f) =>
      if e.sMid == [] && e.attaches != [] && e.attaches[0].conn in e.s.hub.sess {
        OtherCallMarks(SL.AttachTalk(e.s.hub, e.store, e.attaches[0].conn, e.attaches[0].talkId, f).call, x, c);
      }
    case ServeDetach(f) =>
      if e.sMid == [] && e.detaches != [] && e.detaches[0].conn in e.s.hub.sess {
        OtherCallMarks(SL.DetachTalk(e.s.hub, e.store, e.detaches[0].conn, e.detaches[0].talkId, f).call, x, c);
      }
    case _ =>
  }

  lemma ServicerPicksPosted(e: State, p: ServicerPick)
    requires !p.ServeRunner? && !p.ServeCall?
    ensures ServicerLoop(e, p).sPosted == e.sPosted && ServicerLoop(e, p).cPosted == e.cPosted
  {
  }

  lemma ServicerPickThins(e: State, p: ServicerPick, r: nat, x: Sender)
    requires ServicersOk(e.s) && !p.ServeRunner? && !p.ServeCall?
    ensures LinesThin(e, ServicerLoop(e, p), r, x)
  {
    var e' := ServicerLoop(e, p);
    ServicerPickSent(e, p, r);
    LiveSGrew(SentS(e, r), SentS(e', r), x);
    SameIsNothing(LiveC(SentC(e, r), x));
    ServicerLoopTakes(e, p);
    ServicerLoopLeavesCalls(e, p);
    ServicerPicksPosted(e, p);
    if !x.customer {
      ServicerPickCalls(e, p, x, true);
      ServicerPickCalls(e, p, x, false);
      HandlingThins(LiveC(SentC(e, r), x), PostC(e.cPosted, x), Mid(e.sMid, x, true), Wait(e.s.inbox, x),
                    LiveC(SentC(e', r), x), Mid(e'.sMid, x, true), Wait(e'.s.inbox, x));
      HandlingThins(LiveS(SentS(e, r), x), PostS(e.sPosted, x), Mid(e.sMid, x, false), Wait(e.s.inbox, x),
                    LiveS(SentS(e', r), x), Mid(e'.sMid, x, false), Wait(e'.s.inbox, x));
    } else {
      StreamsOnly(e, e', r, x);
    }
  }

  // ---- every step ----

  lemma CustomerActsInOrder(e: State, q: nat, a: CustomerAct, r: nat, x: Sender)
    requires e.c.conns.Keys == e.c.hub.sess.Keys && Authored(e.c, true) && NumbersOk(e) && InOrder(e, r, x)
    ensures InOrder(CustomerActs(e, q, a), r, x)
  {
    if a.Enqueues? {
      CustomerEnqueuesOrder(e, q, r, x);
    } else {
      CustomerActsThin(e, q, a, r, x);
      CarryOrder(e, CustomerActs(e, q, a), r, x);
    }
  }

  lemma CustomerLoopInOrder(e: State, p: CustomerPick, r: nat, x: Sender)
    requires HubOk(e.c.hub) && NumbersOk(e) && InOrder(e, r, x)
    ensures InOrder(CustomerLoop(e, p), r, x)
  {
    match p
    case PickRunner(late) => CustomerClosureThins(e, late, r, x); CarryOrder(e, RunCustomerTask(e, late), r, x);
    case PickCall(down) => CustomerCallThins(e, down, r, x); CarryOrder(e, CustomerLoopCalls(e, down), r, x);
    case _ => CustomerPickThins(e, p, r, x); CarryOrder(e, CustomerLoop(e, p), r, x);
  }

  lemma ServicerActsInOrder(e: State, q: nat, a: ServicerAct, r: nat, x: Sender)
    requires e.s.conns.Keys == e.s.hub.sess.Keys && Authored(e.s, false) && NumbersOk(e) && InOrder(e, r, x)
    ensures InOrder(ServicerActs(e, q, a), r, x)
  {
    if a.ServicerEnqueue? {
      ServicerEnqueuesOrder(e, q, r, x);
    } else {
      ServicerActsThin(e, q, a, r, x);
      CarryOrder(e, ServicerActs(e, q, a), r, x);
    }
  }

  lemma ServicerLoopInOrder(e: State, p: ServicerPick, r: nat, x: Sender)
    requires ServicersOk(e.s) && NumbersOk(e) && InOrder(e, r, x)
    ensures InOrder(ServicerLoop(e, p), r, x)
  {
    if p.ServeRunner? {
      ServicerClosureThins(e, p.f, p.late, r, x);
    } else if p.ServeCall? {
      ServicerCallThins(e, p.down, r, x);
    } else {
      ServicerPickThins(e, p, r, x);
    }
    CarryOrder(e, ServicerLoop(e, p), r, x);
  }

  lemma StepInOrder(e: State, a: Step, r: nat, x: Sender)
    requires EngineOk(e) && Authored(e.c, true) && Authored(e.s, false) && NumbersOk(e) && InOrder(e, r, x)
    ensures InOrder(Next(e, a), r, x)
  {
    match a
    case CustomerStep(q, act) => CustomerActsInOrder(e, q, act, r, x);
    case CustomerLoopStep(pick) => CustomerLoopInOrder(e, pick, r, x);
    case ServicerStep(q, act) => ServicerActsInOrder(e, q, act, r, x);
    case ServicerLoopStep(pick) => ServicerLoopInOrder(e, pick, r, x);
  }

  lemma CustomerActsHeld(e: State, q: nat, a: CustomerAct)
    requires forall q | q in e.c.conns && e.c.conns[q].held.Some? ::
             e.c.conns[q].held.value.message.no < e.c.conns[q].next
    ensures var conns := CustomerActs(e, q, a).c.conns;
            forall q | q in conns && conns[q].held.Some? :: conns[q].held.value.message.no < conns[q].next
  {
  }

  lemma CustomerActsNumbers(e: State, q: nat, a: CustomerAct)
    requires NumbersOk(e)
    ensures NumbersOk(CustomerActs(e, q, a))
  {
    CustomerActsElsewhere(e, q, a);
    CustomerActsLeaveQueue(e, q, a);
    CustomerActsHeld(e, q, a);
  }

  lemma ReceiveHolds(e: State, q: nat, a: ServicerAct)
    requires a.ServicerReceive?
    ensures forall x | x in ServicerActs(e, q, a).s.conns ::
              x in e.s.conns &&
              var c, c' := e.s.conns[x], ServicerActs(e, q, a).s.conns[x];
              (c'.held == c.held && c'.next == c.next) || (c'.held.Some? && c'.held.value.message.no < c'.next)
  {
  }

  lemma ServicerActsHeld(e: State, q: nat, a: ServicerAct)
    requires forall q | q in e.s.conns && e.s.conns[q].held.Some? ::
             e.s.conns[q].held.value.message.no < e.s.conns[q].next
    ensures var conns := ServicerActs(e, q, a).s.conns;
            forall q | q in conns && conns[q].held.Some? :: conns[q].held.value.message.no < conns[q].next
  {
    if a.ServicerRequest? || a.ServicerDrain? {
      QuietActsKeepConns(e, q, a);
    } else if a.ServicerReceive? {
      ReceiveHolds(e, q, a);
    }
  }

  lemma ServicerActsNumbers(e: State, q: nat, a: ServicerAct)
    requires NumbersOk(e)
    ensures NumbersOk(ServicerActs(e, q, a))
  {
    ServicerActsElsewhere(e, q, a);
    ServicerActsLeaveQueue(e, q, a);
    ServicerActsLeaveCalls(e, q, a);
    ServicerActsHeld(e, q, a);
  }

  lemma CustomerLoopCarries(e: State, p: CustomerPick)
    requires CarriesOnly(e.cMid, true) && Authored(e.c, true)
    ensures CarriesOnly(CustomerLoop(e, p).cMid, true) && CustomerLoop(e, p).sMid == e.sMid
  {
    match p
    case PickCall(down) => if e.cMid != [] { DeliverMarks(e.(cMid := e.cMid[1..]), e.cMid[0], down, Sender(true, 0)); }
    case PickMessage(drained) => if e.c.inbox != [] { assert e.c.inbox[0] in e.c.inbox; }
    case _ =>
  }

  lemma ServicerLoopCarries(e: State, p: ServicerPick)
    requires CarriesOnly(e.sMid, false) && Authored(e.s, false)
    ensures CarriesOnly(ServicerLoop(e, p).sMid, false)
  {
    match p
    case ServeCall(down) => if e.sMid != [] { DeliverMarks(e.(sMid := e.sMid[1..]), e.sMid[0], down, Sender(true, 0)); }
    case ServeMessage(f, drained) => if e.s.inbox != [] { assert e.s.inbox[0] in e.s.inbox; }
    case _ =>
  }

  lemma StepNumbers(e: State, a: Step)
    requires NumbersOk(e) && Authored(e.c, true) && Authored(e.s, false)
    ensures NumbersOk(Next(e, a))
  {
    match a
    case CustomerStep(q, act) => CustomerActsNumbers(e, q, act);
    case CustomerLoopStep(pick) => CustomerLoopTakes(e, pick); CustomerLoopCarries(e, pick);
    case ServicerStep(q, act) => ServicerActsNumbers(e, q, act);
    case ServicerLoopStep(pick) =>
      ServicerLoopTakes(e, pick);
      ServicerLoopCarries(e, pick);
      ServicerLoopLeavesCalls(e, pick);
  }

  // ---- what was persisted ----

  lemma StillRecorded<K, R>(s: Side<K, R>, s': Side<K, R>, x: Sender, persisted: seq<Msg>)
    requires WaitingRecorded(s, x, persisted) && NothingNewWaits(s, s')
    ensures WaitingRecorded(s', x, persisted)
  {
  }

  lemma TakenRecorded<K, R>(s: Side<K, R>, s': Side<K, R>, x: Sender, persisted: seq<Msg>)
    requires WaitingRecorded(s, x, persisted) && s'.conns == s.conns && (forall d | d in s'.inbox :: d in s.inbox)
    ensures WaitingRecorded(s', x, persisted)
  {
  }

  /** One more message was persisted, by x or somebody else. */
  lemma MoreRecorded(e: State, e': State, m: Msg, x: Sender, persisted: seq<Msg>)
    requires AllRecorded(e, x, persisted) && e'.log.bus == e.log.bus
    requires m.sender == x ==> m.no == |persisted|
    requires e'.c.inbox == e.c.inbox && e'.s.inbox == e.s.inbox
    requires forall q | q in e'.c.conns && e'.c.conns[q].held.Some? ::
               e'.c.conns[q].held.value.message == m || (q in e.c.conns && e.c.conns[q].held == e'.c.conns[q].held)
    requires forall q | q in e'.s.conns && e'.s.conns[q].held.Some? ::
               e'.s.conns[q].held.value.message == m || (q in e.s.conns && e.s.conns[q].held == e'.s.conns[q].held)
    requires NextNumber(OwnConns(e', x), x.conn)
             == NextNumber(OwnConns(e, x), x.conn) + (if m.sender == x then 1 else 0)
    ensures AllRecorded(e', x, persisted + (if m.sender == x then [m] else []))
  {
  }

  lemma CustomerActsNext(e: State, q: nat, a: CustomerAct, x: nat)
    requires !a.Receives?
    ensures NextNumber(CustomerActs(e, q, a).c.conns, x) == NextNumber(e.c.conns, x)
  {
  }

  lemma ServicerActsNext(e: State, q: nat, a: ServicerAct, x: nat)
    requires !a.ServicerReceive?
    ensures NextNumber(ServicerActs(e, q, a).s.conns, x) == NextNumber(e.s.conns, x)
  {
  }

  ghost predicate StillAllRecorded(e: State, a: Step, x: Sender, persisted: seq<Msg>) {
    var m := Persisted(e, a);
    AllRecorded(Next(e, a), x, persisted + (if m.Some? && m.value.sender == x then [m.value] else []))
  }

  lemma CustomerReceivesRecorded(e: State, q: nat, at: int, text: string, seqId: nat, down: bool, x: Sender,
                                 persisted: seq<Msg>)
    requires AllRecorded(e, x, persisted)
    ensures StillAllRecorded(e, CustomerStep(q, Receives(at, text, seqId, down)), x, persisted)
  {
    if Reading(e.c, q) && !down {
      MoreRecorded(e, CustomerReceives(e, q, at, text, seqId, down), Msg(at, text, Sender(true, q), e.c.conns[q].next),
                   x, persisted);
    } else {
      assert persisted + [] == persisted;
    }
  }

  lemma ServicerReceivesRecorded(e: State, q: nat, t: TalkId, at: int, text: string, seqId: nat, down: bool, x: Sender,
                                 persisted: seq<Msg>)
    requires AllRecorded(e, x, persisted)
    ensures StillAllRecorded(e, ServicerStep(q, ServicerReceive(t, at, text, seqId, down)), x, persisted)
  {
    assert persisted + [] == persisted;
    if Reading(e.s, q) && !down {
      MoreRecorded(e, ServicerReceives(e, q, t, at, text, seqId, down),
                   Msg(at, text, Sender(false, q), e.s.conns[q].next), x, persisted);
    }
  }

  lemma CustomerActsRecorded(e: State, q: nat, a: CustomerAct, x: Sender, persisted: seq<Msg>)
    requires AllRecorded(e, x, persisted) && !a.Receives?
    ensures AllRecorded(CustomerActs(e, q, a), x, persisted)
  {
    CustomerActsWait(e, q, a);
    CustomerActsElsewhere(e, q, a);
    CustomerActsNext(e, q, a, x.conn);
    StillRecorded(e.c, CustomerActs(e, q, a).c, x, persisted);
  }

  lemma ServicerActsRecorded(e: State, q: nat, a: ServicerAct, x: Sender, persisted: seq<Msg>)
    requires AllRecorded(e, x, persisted) && !a.ServicerReceive?
    ensures AllRecorded(ServicerActs(e, q, a), x, persisted)
  {
    ServicerActsWait(e, q, a);
    ServicerActsNext(e, q, a, x.conn);
    StillRecorded(e.s, ServicerActs(e, q, a).s, x, persisted);
  }

  /** What comes onto the bus was waiting first. */
  lemma CustomerLoopPuts(e: State, p: CustomerPick, t: TalkId, m: Msg)
    requires (t, m) in CustomerLoop(e, p).log.bus
    ensures (t, m) in e.log.bus || exists d :: d in e.c.inbox && d.message == m
  {
    if p.PickCall? && e.cMid != [] {
      DeliverWaits(e.(cMid := e.cMid[1..]), e.cMid[0], p.down);
    }
    if p.PickMessage? && e.c.inbox != [] {
      assert e.c.inbox[0] in e.c.inbox;
    }
  }

  lemma ServicerLoopPuts(e: State, p: ServicerPick, t: TalkId, m: Msg)
    requires (t, m) in ServicerLoop(e, p).log.bus
    ensures (t, m) in e.log.bus || exists d :: d in e.s.inbox && d.message == m
  {
    if p.ServeCall? && e.sMid != [] {
      DeliverWaits(e.(sMid := e.sMid[1..]), e.sMid[0], p.down);
    }
    if p.ServeMessage? && e.s.inbox != [] {
      assert e.s.inbox[0] in e.s.inbox;
    }
  }

  lemma CustomerLoopRecorded(e: State, p: CustomerPick, x: Sender, persisted: seq<Msg>)
    requires AllRecorded(e, x, persisted)
    ensures AllRecorded(CustomerLoop(e, p), x, persisted)
  {
    CustomerLoopTakes(e, p);
    TakenRecorded(e.c, CustomerLoop(e, p).c, x, persisted);
    forall t, m | (t, m) in CustomerLoop(e, p).log.bus && m.sender == x
      ensures Recorded(persisted, m)
    {
      CustomerLoopPuts(e, p, t, m);
    }
  }

  lemma ServicerLoopRecorded(e: State, p: ServicerPick, x: Sender, persisted: seq<Msg>)
    requires AllRecorded(e, x, persisted)
    ensures AllRecorded(ServicerLoop(e, p), x, persisted)
  {
    ServicerLoopTakes(e, p);
    TakenRecorded(e.s, ServicerLoop(e, p).s, x, persisted);
    forall t, m | (t, m) in ServicerLoop(e, p).log.bus && m.sender == x
      ensures Recorded(persisted, m)
    {
      ServicerLoopPuts(e, p, t, m);
    }
  }

  lemma StepRecorded(e: State, a: Step, x: Sender, persisted: seq<Msg>)
    requires AllRecorded(e, x, persisted)
    ensures StillAllRecorded(e, a, x, persisted)
  {
    assert persisted + [] == persisted;
    match a
    case CustomerStep(q, act) =>
      if act.Receives? {
        CustomerReceivesRecorded(e, q, act.at, act.text, act.seqId, act.down, x, persisted);
      } else {
        CustomerActsRecorded(e, q, act, x, persisted);
      }
    case CustomerLoopStep(pick) => CustomerLoopRecorded(e, pick, x, persisted);
    case ServicerStep(q, act) =>
      if act.ServicerReceive? {
        ServicerReceivesRecorded(e, q, act.t, act.at, act.text, act.seqId, act.down, x, persisted);
      } else {
        ServicerActsRecorded(e, q, act, x, persisted);
      }
    case ServicerLoopStep(pick) => ServicerLoopRecorded(e, pick, x, persisted);
  }

  // ---- runs ----

  lemma InitInOrder(e: State, r: nat, x: Sender)
    requires Init(e)
    ensures NumbersOk(e) && InOrder(e, r, x) && AllRecorded(e, x, [])
  {
    assert CustomerLine(e, r, x) == [] && ServicerLine(e, r, x) == [];
  }

  lemma {:induction false} RunInOrder(e: State, steps: seq<Step>, r: nat, x: Sender)
    requires Init(e)
    ensures NumbersOk(Run(e, steps)) && InOrder(Run(e, steps), r, x)
    ensures AllRecorded(Run(e, steps), x, PersistedBy(e, steps, x))
  {
    if steps == [] {
      InitInOrder(e, r, x);
    } else {
      var before, a := Run(e, steps[..|steps| - 1]), steps[|steps| - 1];
      RunInOrder(e, steps[..|steps| - 1], r, x);
      RunPersists(e, steps[..|steps| - 1]);
      RunAuthored(e, steps[..|steps| - 1]);
      StepInOrder(before, a, r, x);
      StepNumbers(before, a);
      StepRecorded(before, a, x, PersistedBy(e, steps[..|steps| - 1], x));
    }
  }

  lemma {:induction false} MarkInStrip(marks: seq<Mark>, i: nat)
    requires i < |marks| && marks[i].Some?
    ensures marks[i].value in Strip(marks)
  {
    if i < |marks| - 1 {
      MarkInStrip(marks[..|marks| - 1], i);
    }
  }

  lemma {:induction false} SortedMarks(marks: seq<Mark>, i: nat, j: nat)
    requires Sorted(Strip(marks)) && i < j < |marks| && marks[i].Some? && marks[j].Some?
    ensures marks[i].value < marks[j].value
  {
    var front := marks[..|marks| - 1];
    assert Strip(front) <= Strip(marks);
    if j == |marks| - 1 {
      MarkInStrip(front, i);
      var k :| 0 <= k < |Strip(front)| && Strip(front)[k] == marks[i].value;
      assert Strip(marks)[|Strip(front)|] == marks[j].value;
    } else {
      SortedMarks(front, i, j);
    }
  }

  lemma CustomerStreamInOrder(e: State, r: nat, x: Sender, persisted: seq<Msg>)
    requires InOrder(e, r, x) && AllRecorded(e, x, persisted) && CustomersHeard(e.c.hub, e.log.bus)
    ensures LiveInOrderC(SentC(e, r), x, persisted)
  {
    var sent := SentC(e, r);
    var line := CustomerLine(e, r, x);
    forall i | 0 <= i < |sent| && sent[i].Message? && sent[i].message.sender == x
      ensures Recorded(persisted, sent[i].message)
    {
      assert sent[i] in e.c.hub.sess[r].sent;
    }
    forall i, j | 0 <= i < j < |sent| && sent[i].Message? && sent[i].message.sender == x
                  && sent[j].Message? && sent[j].message.sender == x
      ensures sent[i].message.no < sent[j].message.no
    {
      assert line[i] == Some(sent[i].message.no) && line[j] == Some(sent[j].message.no);
      SortedMarks(line, i, j);
    }
  }

  lemma ServicerStreamInOrder(e: State, r: nat, x: Sender, persisted: seq<Msg>)
    requires InOrder(e, r, x) && AllRecorded(e, x, persisted) && ServicersHeard(e.s.hub, e.log.bus)
    ensures LiveInOrderS(SentS(e, r), x, persisted)
  {
    var sent := SentS(e, r);
    var line := ServicerLine(e, r, x);
    forall i | 0 <= i < |sent| && sent[i].ServiceMessage? && sent[i].message.sender == x
      ensures Recorded(persisted, sent[i].message)
    {
      assert sent[i] in e.s.hub.sess[r].sent;
    }
    forall i, j | 0 <= i < j < |sent| && sent[i].ServiceMessage? && sent[i].message.sender == x
                  && sent[j].ServiceMessage? && sent[j].message.sender == x
      ensures sent[i].message.no < sent[j].message.no
    {
      assert line[i] == Some(sent[i].message.no) && line[j] == Some(sent[j].message.no);
      SortedMarks(line, i, j);
    }
  }

  /** After any run, whatever was dropped or failed: the live messages of connection x in any
      session's stream stand, without repetition and in order, in what x persisted. */
  lemma {:induction false} InOrderAtMostOnce(e: State, steps: seq<Step>, r: nat, x: Sender)
    requires Init(e)
    ensures LiveInOrderC(SentC(Run(e, steps), r), x, PersistedBy(e, steps, x))
    ensures LiveInOrderS(SentS(Run(e, steps), r), x, PersistedBy(e, steps, x))
  {
    RunInOrder(e, steps, r, x);
    RunPersists(e, steps);
    CustomerStreamInOrder(Run(e, steps), r, x, PersistedBy(e, steps, x));
    ServicerStreamInOrder(Run(e, steps), r, x, PersistedBy(e, steps, x));
  }
}
