/** What it means that the sessions of a talk's owner have no gap in its messages. */
module OwnerGapShapes {
  import opened Defs
  import opened TalkStore
  import opened Hubs
  import opened Sides
  import opened Engine
  import opened SendShapes

  /** The response begins user u's following of the talk: a list of its talks with this one
      in it, or the notice that u took the talk over. */
  predicate Begins(r: ServiceResponse, t: TalkId, u: nat) {
    || (r.Talks? && exists c :: c in r.talks && c.talk.id == t)
    || (r.Attach? && r.talk.id == t && r.attachedID == u)
  }

  /** The response holds a stored message list of the talk with m in it. */
  predicate Shows(r: ServiceResponse, t: TalkId, m: Msg) {
    || (r.Talks? && exists c :: c in r.talks && c.talk.id == t && m in c.messages)
    || (r.Reload? && r.reloaded.talk.id == t && m in r.reloaded.messages)
  }

  predicate Begun(rs: seq<ServiceResponse>, from: nat, t: TalkId, u: nat) {
    exists i :: from <= i < |rs| && Begins(rs[i], t, u)
  }

  predicate Shown(rs: seq<ServiceResponse>, t: TalkId, m: Msg) {
    exists r :: r in rs && Shows(r, t, m)
  }

  predicate Underway(e: State, t: TalkId, m: Msg) {
    TellMessage(t, m) in e.sPosted || ServicerOnMessage(t, m) in e.cMid || ServicerOnMessage(t, m) in e.sMid
  }

  predicate AttachQueued(e: State, t: TalkId, u: nat) {
    TellAttach(t, u) in e.sPosted || ServicerOnAttach(t, u) in e.sMid
  }

  /** Session q was shown the message, has it live, or is still to get it live. */
  predicate ReachedBy(e: State, q: nat, t: TalkId, m: Msg)
    requires q in e.s.hub.sess
  {
    Shown(e.s.hub.sess[q].sent, t, m) || ServiceResponse.ServiceMessage(t, m) in e.s.hub.sess[q].sent
      || Underway(e, t, m)
  }

  predicate Following(e: State, q: nat, t: TalkId)
    requires q in e.s.hub.sess && q in e.s.installed
  {
    Begun(e.s.hub.sess[q].sent, e.s.installed[q], t, e.s.hub.sess[q].key)
  }

  /** The pick answers session q's query for its talks. */
  predicate ListsTo(e: State, p: ServicerPick, q: nat) {
    p.ServeQueryAttached? && p.q == q && e.sMid == [] && Reading(e.s, q)
  }

  /** The pick announces that u took the talk over. */
  predicate TakesOver(e: State, p: ServicerPick, t: TalkId, u: nat) {
    var trace := ServicerLoop(e, p).log.trace;
    |trace| > |e.log.trace| && trace[|trace| - 1] == Took(t, u)
  }

  function UnlistedNext(e: State, a: Step, q: nat, t: TalkId, before: bool): bool {
    if !a.ServicerLoopStep? || q !in e.s.hub.sess then before
    else
      var p, u := a.servicerPick, e.s.hub.sess[q].key;
      if Installs(e, p, q) then OwnerOf(e.store, t) == u && !IsOpened(e.store, t) && !AttachQueued(e, t, u)
      else if ListsTo(e, p, q) && OwnerOf(e.store, t) == u && IsOpened(e.store, t) then false
      else if TakesOver(e, p, t, u) then false
      else before
  }

  /** Session q was installed while its user's talk t was closed, so that its list left the
      talk out, and since then its user has not taken the talk over again, nor has q asked for
      its list while it would have shown the talk. */
  function Unlisted(e: State, steps: seq<Step>, q: nat, t: TalkId): bool {
    if steps == [] then false
    else
      var before := steps[..|steps| - 1];
      UnlistedNext(Run(e, before), steps[|steps| - 1], q, t, Unlisted(e, before, q, t))
  }

  /** If session q's user owns the talk and no take-over by that user is still queued, then
      the session follows the talk unless it was left out of its list, and if it follows the
      talk it is reached by every message the talk had on the bus. */
  ghost predicate TalkCovered(e: State, q: nat, t: TalkId, unlisted: bool)
    requires q in e.s.hub.sess && q in e.s.installed
  {
    var u := e.s.hub.sess[q].key;
    && (unlisted ==> !Following(e, q, t) && !AttachQueued(e, t, u))
    && (OwnerOf(e.store, t) == u && !AttachQueued(e, t, u) ==>
          && (!unlisted ==> Following(e, q, t))
          && (Following(e, q, t) ==> forall m | (t, m) in e.log.bus :: ReachedBy(e, q, t, m)))
  }

  ghost predicate NoOwnerGap(e: State, q: nat, t: TalkId, unlisted: bool) {
    !e.sLost && Registered(e.s.hub, q) && q in e.s.installed && !e.s.hub.sess[q].missed ==>
      TalkCovered(e, q, t, unlisted)
  }

  ghost predicate NoNewTakeOver(e: State, e': State) {
    forall t, u | AttachQueued(e', t, u) :: AttachQueued(e, t, u)
  }

  /** No message on its way to the servicers and no queued take-over is lost, except that the
      closure `done` is run; what comes onto the bus is on its way. */
  ghost predicate QueuesMove(e: State, e': State, done: Option<ServicerTask>) {
    && (forall t, m | Underway(e, t, m) :: Underway(e', t, m) || done == Some(TellMessage(t, m)))
    && (forall t, u | AttachQueued(e, t, u) :: AttachQueued(e', t, u) || done == Some(TellAttach(t, u)))
    && (forall t, m | (t, m) in e'.log.bus :: (t, m) in e.log.bus || Underway(e', t, m))
  }

  /** A session's lists were sent after its install was begun. */
  ghost predicate InstallsBounded<K, R>(s: Side<K, R>) {
    forall q | q in s.installed :: q in s.hub.sess && s.installed[q] <= |s.hub.sess[q].sent|
  }
}
