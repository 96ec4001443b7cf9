/** The talk collection and its message lists, as values: the filters the queries build,
    what they select, and what each update changes. */
module TalkStore {
  import opened Defs

  /** The documents by id, their order in the collection, and the messages by talk. */
  datatype Store = Store(talks: map<TalkId, TalkInfo>, order: seq<TalkId>, messages: map<TalkId, seq<Msg>>)

  ghost predicate StoreOk(st: Store) {
    && (forall t | t in st.talks :: WellFormedId(t))
    && (forall t :: t in st.order <==> t in st.talks)
    && (forall i, j | 0 <= i < j < |st.order| :: st.order[i] != st.order[j])
  }

  datatype Field = CreatorField | ServiceField | StatusField | IdField

  datatype Condition = EqualNumber(n: nat) | OneOf(statuses: seq<Status>) | EqualId(id: TalkId)

  type Filter = map<Field, Condition>

  predicate Holds(t: Talk, f: Field, c: Condition) {
    match f
    case CreatorField => c == EqualNumber(t.info.creatorID)
    case ServiceField => c == EqualNumber(t.info.serviceID)
    case StatusField => c.OneOf? && t.info.status in c.statuses
    case IdField => c == EqualId(t.id)
  }

  /** A document matches when it meets every condition of the filter. */
  predicate Matches(t: Talk, filter: Filter) {
    forall f | f in filter :: Holds(t, f, filter[f])
  }

  /** The matching documents in collection order. */
  function Select(st: Store, order: seq<TalkId>, filter: Filter): seq<Talk> {
    if order == [] then []
    else
      var rest := Select(st, order[..|order| - 1], filter);
      var id := order[|order| - 1];
      if id in st.talks && Matches(Talk(id, st.talks[id]), filter) then rest + [Talk(id, st.talks[id])] else rest
  }

  /** Zero, the empty text and the empty list leave their field unconstrained. */
  function QueryFilter(creatorID: nat, serviceID: nat, talkID: TalkId, statuses: seq<Status>): Option<Filter> {
    if talkID != "" && !WellFormedId(talkID) then None
    else
      Some((if creatorID > 0 then map[CreatorField := EqualNumber(creatorID)] else map[])
           + (if serviceID > 0 then map[ServiceField := EqualNumber(serviceID)] else map[])
           + (if |statuses| > 0 then map[StatusField := OneOf(statuses)] else map[])
           + (if talkID != "" then map[IdField := EqualId(talkID)] else map[]))
  }

  /** A query with extra conditions, which override those built from the arguments. */
  function Query(st: Store, creatorID: nat, serviceID: nat, talkID: TalkId, statuses: seq<Status>, extra: Filter)
    : Option<seq<Talk>>
  {
    match QueryFilter(creatorID, serviceID, talkID, statuses)
    case None => None
    case Some(filter) => Some(Select(st, st.order, filter + extra))
  }

  /** The pending list: opened talks nobody owns. */
  function Pending(st: Store): seq<Talk> {
    Select(st, st.order, map[StatusField := OneOf([Opened]), ServiceField := EqualNumber(0)])
  }

  /** The attached list of a servicer; for id 0, every opened talk. */
  function Attached(st: Store, servicerID: nat): seq<Talk> {
    Select(st, st.order,
           (if servicerID > 0 then map[ServiceField := EqualNumber(servicerID)] else map[])
           + map[StatusField := OneOf([Opened])])
  }

  /** What a lookup by id finds; an empty id finds the first talk of all. */
  function Lookup(st: Store, talkID: TalkId): Option<Talk> {
    if talkID == "" then
      if st.order != [] && st.order[0] in st.talks then Some(Talk(st.order[0], st.talks[st.order[0]])) else None
    else if talkID in st.talks then Some(Talk(talkID, st.talks[talkID]))
    else None
  }

  function OwnerOf(st: Store, talkID: TalkId): nat {
    if talkID in st.talks then st.talks[talkID].serviceID else 0
  }

  function MessagesOf(st: Store, talkID: TalkId): seq<Msg> {
    if talkID in st.messages then st.messages[talkID] else []
  }

  /** A page of a list: with a zero count, the offset is ignored and all of it is returned. */
  function Page<T>(all: seq<T>, offset: nat, count: nat): seq<T> {
    if count == 0 then all
    else
      var rest := all[if offset <= |all| then offset else |all|..];
      if count <= |rest| then rest[..count] else rest
  }

  predicate IsOpened(st: Store, talkID: TalkId) {
    talkID in st.talks && st.talks[talkID].status == Opened
  }

  /** An update of one document's fields. */
  datatype Update = SetStatus(status: Status) | SetService(serviceID: nat)

  function Updated(info: TalkInfo, u: Update): TalkInfo {
    match u
    case SetStatus(s) => info.(status := s)
    case SetService(n) => info.(serviceID := n)
  }

  /** Find-and-update by id; an id that is malformed or absent is an error. */
  function UpdateTalk(st: Store, talkID: TalkId, u: Update): Store {
    if talkID in st.talks then st.(talks := st.talks[talkID := Updated(st.talks[talkID], u)]) else st
  }

  /** Insertion of a document under the id the database generated for it. */
  function InsertTalk(st: Store, id: TalkId, info: TalkInfo): Store {
    if WellFormedId(id) && id !in st.talks then
      st.(talks := st.talks[id := info], order := st.order + [id])
    else st
  }

  function InsertMessage(st: Store, talkID: TalkId, m: Msg): Store {
    st.(messages := st.messages[talkID := MessagesOf(st, talkID) + [m]])
  }

  // ---- what the queries select ----

  lemma {:induction false} SelectMembers(st: Store, order: seq<TalkId>, filter: Filter, t: Talk)
    ensures t in Select(st, order, filter) <==>
            t.id in order && t.id in st.talks && t.info == st.talks[t.id] && Matches(t, filter)
  {
    if order != [] {
      SelectMembers(st, order[..|order| - 1], filter, t);
      assert order == order[..|order| - 1] + [order[|order| - 1]];
    }
  }

  lemma {:induction false} SelectById(st: Store, order: seq<TalkId>, id: TalkId)
    requires forall i, j | 0 <= i < j < |order| :: order[i] != order[j]
    ensures Select(st, order, map[IdField := EqualId(id)])
         == if id in order && id in st.talks then [Talk(id, st.talks[id])] else []
  {
    var filter := map[IdField := EqualId(id)];
    if order != [] {
      var last := order[|order| - 1];
      SelectById(st, order[..|order| - 1], id);
      assert order == order[..|order| - 1] + [last];
      if last in st.talks {
        assert IdField in filter;
        assert Matches(Talk(last, st.talks[last]), filter) <==> last == id;
      }
    }
  }

  lemma {:induction false} SelectAllFirst(st: Store, order: seq<TalkId>)
    requires forall t | t in order :: t in st.talks
    ensures |Select(st, order, map[])| == |order|
    ensures order != [] ==> Select(st, order, map[])[0] == Talk(order[0], st.talks[order[0]])
  {
    if order != [] {
      SelectAllFirst(st, order[..|order| - 1]);
    }
  }

  /** A query by id alone is the lookup: the talk if it is stored, nothing if not. */
  lemma QueryByIdIsLookup(st: Store, talkID: TalkId)
    requires StoreOk(st)
    ensures Query(st, 0, 0, talkID, [], map[]).None? <==> talkID != "" && !WellFormedId(talkID)
    ensures match Query(st, 0, 0, talkID, [], map[])
            case None => Lookup(st, talkID) == None
            case Some(found) => Lookup(st, talkID) == if |found| == 0 then None else Some(found[0])
  {
    if talkID == "" {
      assert QueryFilter(0, 0, talkID, []) == Some(map[]);
      SelectAllFirst(st, st.order);
    } else if WellFormedId(talkID) {
      assert QueryFilter(0, 0, talkID, []).value + map[] == map[IdField := EqualId(talkID)];
      SelectById(st, st.order, talkID);
    }
  }

  lemma InPending(st: Store, t: Talk)
    requires StoreOk(st)
    ensures t in Pending(st) <==>
            IsOpened(st, t.id) && t.info == st.talks[t.id] && t.info.serviceID == 0
  {
    var filter := map[StatusField := OneOf([Opened]), ServiceField := EqualNumber(0)];
    SelectMembers(st, st.order, filter, t);
    assert StatusField in filter && ServiceField in filter;
    assert Matches(t, filter) <==> t.info.status in [Opened] && t.info.serviceID == 0;
  }

  lemma InAttached(st: Store, servicerID: nat, t: Talk)
    requires StoreOk(st)
    ensures t in Attached(st, servicerID) <==>
            IsOpened(st, t.id) && t.info == st.talks[t.id] && (servicerID > 0 ==> t.info.serviceID == servicerID)
  {
    var filter := (if servicerID > 0 then map[ServiceField := EqualNumber(servicerID)] else map[])
                  + map[StatusField := OneOf([Opened])];
    SelectMembers(st, st.order, filter, t);
    assert StatusField in filter && (servicerID > 0 ==> ServiceField in filter);
    assert Matches(t, filter) <==> t.info.status in [Opened] && (servicerID > 0 ==> t.info.serviceID == servicerID);
  }

  /** Some talk of the list has this id. */
  ghost predicate Lists(talks: seq<Talk>, id: TalkId) {
    exists t :: t in talks && t.id == id
  }

  lemma PendingLists(st: Store, id: TalkId)
    requires StoreOk(st)
    ensures Lists(Pending(st), id) <==> IsOpened(st, id) && OwnerOf(st, id) == 0
  {
    if IsOpened(st, id) {
      InPending(st, Talk(id, st.talks[id]));
    }
    forall t | t in Pending(st) ensures IsOpened(st, t.id) && OwnerOf(st, t.id) == 0 {
      InPending(st, t);
    }
  }

  lemma AttachedLists(st: Store, servicerID: nat, id: TalkId)
    requires StoreOk(st)
    ensures Lists(Attached(st, servicerID), id) <==>
            IsOpened(st, id) && (servicerID > 0 ==> OwnerOf(st, id) == servicerID)
  {
    if IsOpened(st, id) {
      InAttached(st, servicerID, Talk(id, st.talks[id]));
    }
    forall t | t in Attached(st, servicerID)
      ensures IsOpened(st, t.id) && (servicerID > 0 ==> OwnerOf(st, t.id) == servicerID)
    {
      InAttached(st, servicerID, t);
    }
  }

  // ---- the partition of the opened talks ----

  /** The opened talks are the disjoint union of the pending list and the attached lists. */
  lemma OpenedTalksArePartitioned(st: Store, id: TalkId)
    requires StoreOk(st)
    ensures IsOpened(st, id) <==> Lists(Pending(st), id) || exists u: nat :: u > 0 && Lists(Attached(st, u), id)
    ensures forall u: nat :: u > 0 ==> !(Lists(Pending(st), id) && Lists(Attached(st, u), id))
    ensures forall u: nat, v: nat ::
              u > 0 && v > 0 && Lists(Attached(st, u), id) && Lists(Attached(st, v), id) ==> u == v
  {
    PendingLists(st, id);
    forall u: nat | u > 0
      ensures Lists(Attached(st, u), id) <==> IsOpened(st, id) && OwnerOf(st, id) == u
    {
      AttachedLists(st, u, id);
    }
    if IsOpened(st, id) && OwnerOf(st, id) > 0 {
      assert Lists(Attached(st, OwnerOf(st, id)), id);
    }
  }

  /** The operations that can move a talk between the lists. */
  datatype Move =
    | Create(id: TalkId, info: TalkInfo)
    | Open(id: TalkId)
    | CloseMove(id: TalkId)
    | Own(id: TalkId, servicerID: nat)

  function Moved(st: Store, m: Move): Store {
    match m
    case Create(id, info) => InsertTalk(st, id, info)
    case Open(id) => UpdateTalk(st, id, SetStatus(Opened))
    case CloseMove(id) => UpdateTalk(st, id, SetStatus(Closed))
    case Own(id, u) => UpdateTalk(st, id, SetService(u))
  }

  /** Where the named talk ends up: nowhere, or on its owner's list (0 is the pending one). */
  function Destination(st: Store, m: Move): Option<nat> {
    match m
    case Create(id, info) =>
      if WellFormedId(id) && id !in st.talks then
        if info.status == Opened then Some(info.serviceID) else None
      else if IsOpened(st, id) then Some(OwnerOf(st, id)) else None
    case Open(id) => if id in st.talks then Some(OwnerOf(st, id)) else None
    case CloseMove(id) => None
    case Own(id, u) => if IsOpened(st, id) then Some(u) else None
  }

  lemma MovedStoreOk(st: Store, m: Move)
    requires StoreOk(st)
    ensures StoreOk(Moved(st, m))
  {
  }

  lemma MovedPart(st: Store, m: Move, id: TalkId)
    ensures id != m.id ==> (IsOpened(Moved(st, m), id) <==> IsOpened(st, id))
    ensures id != m.id ==> OwnerOf(Moved(st, m), id) == OwnerOf(st, id)
    ensures id == m.id ==> (IsOpened(Moved(st, m), id) <==> Destination(st, m).Some?)
    ensures id == m.id && Destination(st, m).Some? ==> OwnerOf(Moved(st, m), id) == Destination(st, m).value
  {
  }

  /** Every operation puts the one talk it names on the list it should be on, and leaves
      every other talk on exactly the lists it was on. */
  lemma OnlyTheNamedTalkMoves(st: Store, m: Move, id: TalkId, servicerID: nat)
    requires StoreOk(st) && servicerID > 0
    ensures id != m.id ==>
              (Lists(Pending(Moved(st, m)), id) <==> Lists(Pending(st), id)) &&
              (Lists(Attached(Moved(st, m), servicerID), id) <==> Lists(Attached(st, servicerID), id))
    ensures id == m.id ==>
              (Lists(Pending(Moved(st, m)), id) <==> Destination(st, m) == Some(0)) &&
              (Lists(Attached(Moved(st, m), servicerID), id) <==> Destination(st, m) == Some(servicerID))
  {
    MovedStoreOk(st, m);
    MovedPart(st, m, id);
    PendingLists(st, id);
    PendingLists(Moved(st, m), id);
    AttachedLists(st, servicerID, id);
    AttachedLists(Moved(st, m), servicerID, id);
  }
}
