/** What the stream loops get done: drained often enough, a live session has been handed its
    whole stream. */
module Drains {
  import opened Defs
  import opened Hubs
  import opened Sides
  import opened Engine
  import opened Shapes
  import opened EngineFacts
  import opened Lifetimes

  /** How much of a stream is still to be taken. */
  function Waiting<K, R>(s: Side<K, R>, q: nat): int
    requires q in s.hub.sess
  {
    |s.hub.sess[q].sent| - s.hub.sess[q].taken
  }

  /** Taking from a stream leaves everything as it was but for the one item taken, and a full
      session has room afterwards. */
  lemma DrainTakesOne<K, R>(s: Side<K, R>, q: nat)
    requires Known(s, q) && s.conns[q].phase == Live && Waiting(s, q) > 0
    ensures var s' := Drain(s, q);
            && s' == s.(hub := s.hub.(sess := s.hub.sess[q := s.hub.sess[q].(taken := s.hub.sess[q].taken + 1)]))
            && Waiting(s', q) == Waiting(s, q) - 1
            && (Waiting(s, q) <= SESSION_CAPACITY ==> !Full(s'.hub.sess[q]))
  {
  }

  /** The side once session q was given n chances to take from its stream: a stream that has not
      begun or has ended takes nothing. */
  function Handed<K, R>(s: Side<K, R>, q: nat, n: nat): Side<K, R>
    requires Known(s, q)
  {
    if s.conns[q].phase != Live || Waiting(s, q) <= 0 then s
    else
      var more := if n <= Waiting(s, q) then n else Waiting(s, q);
      s.(hub := s.hub.(sess := s.hub.sess[q := s.hub.sess[q].(taken := s.hub.sess[q].taken + more)]))
  }

  lemma HandedNothing<K, R>(s: Side<K, R>, q: nat)
    requires Known(s, q)
    ensures Handed(s, q, 0) == s
  {
    assert s.hub.sess[q := s.hub.sess[q]] == s.hub.sess;
  }

  lemma HandedOneMore<K, R>(s: Side<K, R>, q: nat, n: nat)
    requires Known(s, q)
    ensures Known(Handed(s, q, n), q) && Drain(Handed(s, q, n), q) == Handed(s, q, n + 1)
  {
  }

  function CustomerDrain(q: nat, n: nat): seq<Step> {
    seq(n, _ => CustomerStep(q, Drains))
  }

  function ServicerDrain(q: nat, n: nat): seq<Step> {
    seq(n, _ => ServicerStep(q, ServicerAct.ServicerDrain))
  }

  lemma {:induction false} CustomerDrainsOn(e: State, q: nat, n: nat)
    requires Known(e.c, q)
    ensures Run(e, CustomerDrain(q, n)) == e.(c := Handed(e.c, q, n))
  {
    if n == 0 {
      assert CustomerDrain(q, 0) == [];
      HandedNothing(e.c, q);
    } else {
      CustomerDrainsOn(e, q, n - 1);
      assert CustomerDrain(q, n)[..n - 1] == CustomerDrain(q, n - 1);
      HandedOneMore(e.c, q, n - 1);
    }
  }

  lemma {:induction false} ServicerDrainsOn(e: State, q: nat, n: nat)
    requires Known(e.s, q)
    ensures Run(e, ServicerDrain(q, n)) == e.(s := Handed(e.s, q, n))
  {
    if n == 0 {
      assert ServicerDrain(q, 0) == [];
      HandedNothing(e.s, q);
    } else {
      ServicerDrainsOn(e, q, n - 1);
      assert ServicerDrain(q, n)[..n - 1] == ServicerDrain(q, n - 1);
      HandedOneMore(e.s, q, n - 1);
    }
  }

  lemma BoundedSides(e: State, steps: seq<Step>)
    requires Init(e)
    ensures Bounded(Run(e, steps).c.hub) && Bounded(Run(e, steps).s.hub)
  {
    InitOk(e);
    RunOk(e, steps);
  }

  /** In every reachable state n drains hand a live session the next n responses that wait in its
      stream, or as many as there are, and change nothing else; a session whose stream has not
      begun or has ended is handed nothing. */
  lemma CustomersAreHandedTheirStreams(e: State, steps: seq<Step>, q: nat, n: nat)
    requires Init(e)
    ensures var x := Run(e, steps);
            Known(x.c, q) ==> Waiting(x.c, q) >= 0 && Run(x, CustomerDrain(q, n)) == x.(c := Handed(x.c, q, n))
  {
    BoundedSides(e, steps);
    if Known(Run(e, steps).c, q) {
      CustomerDrainsOn(Run(e, steps), q, n);
    }
  }

  lemma ServicersAreHandedTheirStreams(e: State, steps: seq<Step>, q: nat, n: nat)
    requires Init(e)
    ensures var x := Run(e, steps);
            Known(x.s, q) ==> Waiting(x.s, q) >= 0 && Run(x, ServicerDrain(q, n)) == x.(s := Handed(x.s, q, n))
  {
    BoundedSides(e, steps);
    if Known(Run(e, steps).s, q) {
      ServicerDrainsOn(Run(e, steps), q, n);
    }
  }
}
