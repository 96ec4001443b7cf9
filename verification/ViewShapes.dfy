/** What a servicer's client knows about the owners of talks from what its session was sent,
    and what the ownership notifications still queued would add to it. */
module ViewShapes {
  import opened Defs
  import opened TalkStore
  import opened Hubs
  import opened Sides
  import opened Engine

  /** A response read as an assignment: the talks that are the reader's own, the talks that
      nobody owns, or one talk's owner. `created` marks a creation notice, which is sent as
      a detach by nobody. */
  datatype Word =
    | AllMine(ids: set<TalkId>)
    | AllWaiting(ids: set<TalkId>)
    | Owned(talkId: TalkId, owner: nat, created: bool)
    | Silent

  function WordOf(r: ServiceResponse): Word {
    match r
    case Talks(talks) => AllMine(set c | c in talks :: c.talk.id)
    case PendingTalks(cards) => AllWaiting(set c | c in cards :: c.id)
    case Attach(talk, u) => Owned(talk.id, u, false)
    case Detach(talk, u) => Owned(talk.id, 0, u == 0)
    case _ => Silent
  }

  function Words(rs: seq<ServiceResponse>): (ws: seq<Word>) {
    seq(|rs|, i requires 0 <= i < |rs| => WordOf(rs[i]))
  }

  /** What a waiting closure will tell every session. */
  function WordOfTask(k: ServicerTask): Word {
    match k
    case TellCreate(t) => Owned(t, 0, true)
    case TellAttach(t, u) => Owned(t, u, false)
    case TellDetach(talk, u) => Owned(talk.id, 0, u == 0)
    case _ => Silent
  }

  function WordOfCallback(b: Callback): Word {
    match b
    case ServicerOnCreate(t) => Owned(t, 0, true)
    case ServicerOnAttach(t, u) => Owned(t, u, false)
    case ServicerOnDetach(t, u) => Owned(t, 0, u == 0)
    case _ => Silent
  }

  function PostedWords(posted: seq<ServicerTask>): seq<Word> {
    seq(|posted|, i requires 0 <= i < |posted| => WordOfTask(posted[i]))
  }

  function MidWords(mid: seq<Callback>): seq<Word> {
    seq(|mid|, i requires 0 <= i < |mid| => WordOfCallback(mid[i]))
  }

  /** The notifications queued for the servicer loop, oldest first. */
  function Queue(e: State): seq<Word> {
    PostedWords(e.sPosted) + MidWords(e.sMid)
  }

  /** What user u knows of one talk: whether it is its own, whether nobody owns it, and
      whether each was last learnt from the creation notice. */
  datatype View = View(mine: bool, waits: bool, mineCreated: bool, waitsCreated: bool)

  const KNOWS_NOTHING := View(false, false, false, false)

  function Read(v: View, w: Word, u: nat, t: TalkId): View {
    match w
    case AllMine(ids) => v.(mine := t in ids, mineCreated := false)
    case AllWaiting(ids) => v.(waits := t in ids, waitsCreated := false)
    case Owned(x, owner, created) => if x == t then View(owner == u, owner == 0, created, created) else v
    case Silent => v
  }

  function ReadAll(v: View, ws: seq<Word>, u: nat, t: TalkId): View {
    if ws == [] then v else Read(ReadAll(v, ws[..|ws| - 1], u, t), ws[|ws| - 1], u, t)
  }

  /** The view of talk t at the end of a stream of words. */
  function ViewOf(ws: seq<Word>, u: nat, t: TalkId): View {
    ReadAll(KNOWS_NOTHING, ws, u, t)
  }

  /** The view is the truth about the stored owner. */
  predicate Right(v: View, owner: nat, u: nat) {
    (v.mine <==> owner == u) && (v.waits <==> owner == 0)
  }

  /** Right except for what the creation notice said last. */
  predicate Sound(v: View, owner: nat, u: nat) {
    && (if v.mineCreated then !v.mine else v.mine == (owner == u))
    && (if v.waitsCreated then v.waits else v.waits == (owner == 0))
  }

  predicate Mentions(ws: seq<Word>, t: TalkId) {
    exists w :: w in ws && w.Owned? && w.talkId == t
  }

  predicate MentionsCreation(ws: seq<Word>, t: TalkId) {
    exists w :: w in ws && w.Owned? && w.talkId == t && w.created
  }

  /** The last word on the talk that is not a creation notice. */
  function LastOwner(ws: seq<Word>, t: TalkId): Option<nat> {
    if ws == [] then None
    else
      var w := ws[|ws| - 1];
      if w.Owned? && w.talkId == t && !w.created then Some(w.owner) else LastOwner(ws[..|ws| - 1], t)
  }

  /** The last queued notification of a change agrees with the store. */
  ghost predicate QueueAgrees(ws: seq<Word>, st: Store) {
    forall t :: LastOwner(ws, t).Some? ==> LastOwner(ws, t).value == OwnerOf(st, t)
  }

  ghost predicate CallbacksNamed(mid: seq<Callback>, st: Store) {
    forall b | b in mid :: WordOfCallback(b).Owned? ==> b.talkId in st.talks
  }

  /** Talks in the queue are stored, announced talks are, and those never closed are open. */
  ghost predicate TalksNamed(e: State) {
    && (forall k | k in e.sPosted :: k.TellCreate? || k.TellAttach? ==> k.talkId in e.store.talks)
    && CallbacksNamed(e.sMid, e.store) && CallbacksNamed(e.cMid, e.store)
    && (forall b | b in e.sMid :: !b.ServicerOnCreate?)
    && (forall b | b in e.cMid :: !b.ServicerOnAttach? && !b.ServicerOnDetach?)
    && e.log.announced <= e.store.talks.Keys
    && (forall t | t in e.store.talks :: t in e.log.closed || e.store.talks[t].status == Opened)
  }

  /** The talks the claim covers: created and announced, open all along, nothing queued. */
  predicate Settled(e: State, t: TalkId) {
    t in e.log.announced && t !in e.log.closed && !Mentions(Queue(e), t)
  }

  ghost predicate SessionSound(e: State, q: nat)
    requires q in e.s.hub.sess
  {
    !e.s.hub.sess[q].missed ==>
      forall t | Settled(e, t) ::
        Sound(ViewOf(Words(e.s.hub.sess[q].sent), e.s.hub.sess[q].key, t), OwnerOf(e.store, t), e.s.hub.sess[q].key)
  }

  ghost predicate ViewsSound(e: State) {
    !e.sLost ==>
      && QueueAgrees(Queue(e), e.store)
      && (forall q | Registered(e.s.hub, q) :: SessionSound(e, q))
  }

  /** No store call of the servicer loop fails in this pick. */
  predicate Faultless(p: ServicerPick) {
    match p
    case ServeInstall(f) => f == NO_FAULTS
    case ServeAttach(f) => f == NO_FAULTS
    case ServeDetach(f) => f == NO_FAULTS
    case ServeReload(f) => f == NO_FAULTS
    case ServeQueryAttached(_, f) => f == NO_FAULTS
    case ServeQueryPending(_, f) => f == NO_FAULTS
    case ServeMessage(f, _) => f == NO_FAULTS
    case ServeRunner(f, _) => f == NO_FAULTS
    case ServeCall(down) => !down
    case ServeUninstall => true
  }

  predicate FaultlessStep(a: Step) {
    a.ServicerLoopStep? ==> Faultless(a.servicerPick)
  }

  ghost predicate QueueKept(ws: seq<Word>, ws': seq<Word>) {
    && (forall t :: LastOwner(ws', t) == LastOwner(ws, t))
    && (forall t :: Mentions(ws, t) ==> Mentions(ws', t))
  }

  ghost predicate SameView(s: Sess<nat, ServiceResponse>, s': Sess<nat, ServiceResponse>) {
    && s'.key == s.key && (s.missed ==> s'.missed)
    && (!s'.missed ==> forall t :: ViewOf(Words(s'.sent), s.key, t) == ViewOf(Words(s.sent), s.key, t))
  }

  /** A step that changes no owner and no view, and at most moves notifications along the
      queue or puts a creation notice into it. */
  ghost predicate ViewsKept(e: State, e': State) {
    && (e.sLost ==> e'.sLost)
    && (forall t :: OwnerOf(e'.store, t) == OwnerOf(e.store, t))
    && (!e'.sLost ==> QueueKept(Queue(e), Queue(e')))
    && (forall t | t in e'.log.announced && !e'.sLost :: t in e.log.announced || Mentions(Queue(e'), t))
    && e.log.closed <= e'.log.closed
    && (forall q | Registered(e'.s.hub, q) :: Registered(e.s.hub, q) && SameView(e.s.hub.sess[q], e'.s.hub.sess[q]))
  }
}
