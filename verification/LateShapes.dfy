/** When the creation notice of a talk comes too late, as an event of the run, and what being
    the last word on a talk means in a stream. */
module LateShapes {
  import opened Defs
  import opened TalkStore
  import opened Hubs
  import opened Sides
  import opened Engine
  import opened SendShapes
  import opened ViewShapes

  predicate IsCreation(w: Word, t: TalkId) {
    w.Owned? && w.talkId == t && w.created
  }

  /** The word says whether talk t is the reader's own, or whether it waits for an owner. */
  predicate Speaks(w: Word, t: TalkId, ofMine: bool) {
    (w.Owned? && w.talkId == t) || (if ofMine then w.AllMine? else w.AllWaiting?)
  }

  predicate NoneSpeaks(ws: seq<Word>, after: nat, t: TalkId, ofMine: bool) {
    forall j | after < j < |ws| :: !Speaks(ws[j], t, ofMine)
  }

  /** Of the words that speak of it, the last one is the creation notice. */
  predicate CreationLast(ws: seq<Word>, t: TalkId, ofMine: bool) {
    exists i :: 0 <= i < |ws| && IsCreation(ws[i], t) && NoneSpeaks(ws, i, t, ofMine)
  }

  /** The last word on one talk's owner. */
  function LastWord(ws: seq<Word>, t: TalkId): (last: Option<Word>)
    ensures last.Some? ==> last.value.Owned? && last.value.talkId == t
  {
    if ws == [] then None
    else
      var w := ws[|ws| - 1];
      if w.Owned? && w.talkId == t then Some(w) else LastWord(ws[..|ws| - 1], t)
  }

  /** The step posts the creation notice of talk t. */
  predicate PostsCreation(e: State, a: Step, t: TalkId) {
    a.CustomerLoopStep? && a.customerPick.PickCall? && e.cMid != [] && e.cMid[0] == ServicerOnCreate(t)
  }

  /** The step sends an ownership event on talk t. */
  predicate SendsOwnership(e: State, a: Step, t: TalkId) {
    a.ServicerLoopStep?
    && var trace := ServicerLoop(e, a.servicerPick).log.trace;
       |trace| > |e.log.trace| && trace[|trace| - 1].talkId == t
  }

  /** The notice is posted in time: while nobody owns the talk, or while the callback of its
      take-over is still to be made and will be queued behind it. */
  predicate Timely(e: State, a: Step, t: TalkId) {
    PostsCreation(e, a, t) ==> OwnerOf(e.store, t) == 0 || Mentions(MidWords(e.sMid), t)
  }

  function LateNext(e: State, a: Step, late: Option<nat>, t: TalkId): Option<nat> {
    if PostsCreation(e, a, t) && !Timely(e, a, t) then Some(OwnerOf(e.store, t))
    else if SendsOwnership(e, a, t) then None
    else late
  }

  /** The owner talk t had when its creation notice was posted too late, if that happened in
      the run and no ownership event on the talk was sent since. */
  function LateOwner(e: State, steps: seq<Step>, t: TalkId): Option<nat> {
    if steps == [] then None
    else
      var before := steps[..|steps| - 1];
      LateNext(Run(e, before), steps[|steps| - 1], LateOwner(e, before, t), t)
  }

  predicate SaysCreated(v: View) {
    v.mineCreated || v.waitsCreated
  }

  ghost predicate NobodyToldCreated(h: Hub<nat, ServiceResponse>, t: TalkId) {
    forall q | Registered(h, q) && !h.sess[q].missed :: !SaysCreated(ViewOf(Words(h.sess[q].sent), h.sess[q].key, t))
  }

  /** A creation notice is the last word on an owned talk only if it came too late. */
  ghost predicate LateOk(e: State, late: Option<nat>, t: TalkId) {
    && (late.Some? ==> late.value == OwnerOf(e.store, t) && late.value > 0)
    && (!e.sLost && late.None? && OwnerOf(e.store, t) != 0 ==>
          match LastWord(Queue(e), t)
          case Some(w) => !w.created
          case None => NobodyToldCreated(e.s.hub, t))
  }

  /** What session q was sent, followed by what the queue will still tell it. */
  function Replayed(e: State, q: nat): seq<Word>
    requires q in e.s.hub.sess
  {
    Words(e.s.hub.sess[q].sent) + Queue(e)
  }

  /** The view theorem speaks of this session and talk: nothing was lost or missed, the talk
      was announced and never closed. */
  predicate Claimed(e: State, q: nat, t: TalkId) {
    !e.sLost && Registered(e.s.hub, q) && !e.s.hub.sess[q].missed && t in e.log.announced && t !in e.log.closed
  }

  /** The sessions that stay registered learn of no creation. */
  ghost predicate NoCreationTold(h: Hub<nat, ServiceResponse>, h': Hub<nat, ServiceResponse>, t: TalkId) {
    forall q | Registered(h', q) && !h'.sess[q].missed ::
      SaysCreated(ViewOf(Words(h'.sess[q].sent), h'.sess[q].key, t))
      ==> Registered(h, q) && !h.sess[q].missed && SaysCreated(ViewOf(Words(h.sess[q].sent), h.sess[q].key, t))
  }

  /** If session q stays and missed nothing, it was told the word. */
  ghost predicate Told(h: Hub<nat, ServiceResponse>, h': Hub<nat, ServiceResponse>, w: Word, t: TalkId, q: nat) {
    Registered(h', q) && !h'.sess[q].missed ==>
      && Registered(h, q) && !h.sess[q].missed && h'.sess[q].key == h.sess[q].key
      && ViewOf(Words(h'.sess[q].sent), h.sess[q].key, t)
         == Read(ViewOf(Words(h.sess[q].sent), h.sess[q].key, t), w, h.sess[q].key, t)
  }

  /** Every session that stays was offered what the first closure sends it. */
  ghost predicate TaskOffered(e: State, h: Hub<nat, ServiceResponse>)
    requires e.sPosted != []
  {
    forall q | Registered(h, q) ::
      Registered(e.s.hub, q)
      && Given(e.s.hub.sess[q], h.sess[q], TaskSends(e.store, e.sPosted[0], NO_FAULTS, e.s.hub.sess[q].key))
  }
}
