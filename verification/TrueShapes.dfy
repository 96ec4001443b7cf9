/** What it means that a response to a servicer is true of the stored talks. */
module TrueShapes {
  import opened Defs
  import opened TalkStore
  import opened Hubs
  import opened Sides
  import opened Engine

  /** The collection after any of the store's operations: talks keep their place and all but
      their status and owner, and messages are only added at the end. */
  ghost predicate Preserves(st: Store, st': Store) {
    && st.order <= st'.order
    && (forall t | t in st.talks ::
          t in st'.talks
          && st'.talks[t] == st.talks[t].(status := st'.talks[t].status, serviceID := st'.talks[t].serviceID))
    && (forall t :: MessagesOf(st, t) <= MessagesOf(st', t))
  }

  /** The card is that of its talk; the status is the one it had then. */
  predicate TrueCard(st: Store, c: TalkCard) {
    c.id in st.talks
    && var info := st.talks[c.id];
       && c.title == info.title && c.startAt == info.startAt && c.finishedAt == info.finishedAt
       && c.customerName == info.creatorName
  }

  /** The card, and the beginning of the talk's message list. */
  predicate TrueItem(st: Store, x: TalkAndMessages) {
    TrueCard(st, x.talk) && x.messages <= MessagesOf(st, x.talk.id)
  }

  ghost predicate TrueList(st: Store, list: seq<TalkAndMessages>) {
    && (forall i | 0 <= i < |list| :: TrueItem(st, list[i]))
    && (forall i, j | 0 <= i < j < |list| :: list[i].talk.id != list[j].talk.id)
  }

  ghost predicate TrueCards(st: Store, cards: seq<TalkCard>) {
    && (forall i | 0 <= i < |cards| :: TrueCard(st, cards[i]))
    && (forall i, j | 0 <= i < j < |cards| :: cards[i].id != cards[j].id)
  }

  /** A reload shows its talk's messages or, asked for without a talk id, those stored under
      none. */
  predicate TrueReload(st: Store, x: TalkAndMessages) {
    TrueCard(st, x.talk) && (x.messages <= MessagesOf(st, x.talk.id) || x.messages <= MessagesOf(st, ""))
  }

  ghost predicate True(st: Store, r: ServiceResponse) {
    match r
    case Talks(list) => TrueList(st, list)
    case PendingTalks(cards) => TrueCards(st, cards)
    case Attach(card, _) => TrueCard(st, card)
    case Detach(card, _) => TrueCard(st, card)
    case Reload(x) => TrueReload(st, x)
    case ServiceMessage(t, m) => m in MessagesOf(st, t)
    case _ => true
  }

  ghost predicate AllTrue(st: Store, rs: seq<ServiceResponse>) {
    forall r | r in rs :: True(st, r)
  }

  /** The closures that hold a talk or a message hold a stored one. */
  ghost predicate ClosuresTrue(st: Store, posted: seq<ServicerTask>) {
    && (forall k | k in posted && k.TellDetach? :: TrueCard(st, Card(k.talk)))
    && (forall k | k in posted && k.TellMessage? :: k.message in MessagesOf(st, k.talkId))
  }

  // ---- the status shown ----

  /** The card shows the status the talk has now. */
  predicate CurrentCard(st: Store, c: TalkCard) {
    c.id in st.talks && c.status == st.talks[c.id].status
  }

  ghost predicate Current(st: Store, r: ServiceResponse) {
    match r
    case Talks(list) => forall i | 0 <= i < |list| :: CurrentCard(st, list[i].talk)
    case PendingTalks(cards) => forall i | 0 <= i < |cards| :: CurrentCard(st, cards[i])
    case Attach(card, _) => CurrentCard(st, card)
    case Detach(card, _) => CurrentCard(st, card)
    case Reload(x) => CurrentCard(st, x.talk)
    case _ => true
  }

  ghost predicate AllCurrent(st: Store, rs: seq<ServiceResponse>) {
    forall r | r in rs :: Current(st, r)
  }

  /** The release notice shows the talk as it was read when the notice was posted. */
  predicate ShowsReleased(r: ServiceResponse, t: Talk) {
    r.Detach? && r.talk.id == t.id && r.talk.status == t.info.status
  }
}
