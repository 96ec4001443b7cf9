/** The queries answer with lists: every matching talk stands in them once, in collection
    order, and the pending list and the attached lists share the opened talks out. */
module TalkLists {
  import opened Defs
  import opened TalkStore

  /** x stands before y in the collection. */
  ghost predicate Before(order: seq<TalkId>, x: TalkId, y: TalkId) {
    exists a, b :: 0 <= a < b < |order| && order[a] == x && order[b] == y
  }

  /** The list has the talks in collection order, so none of them twice. */
  ghost predicate InOrder(order: seq<TalkId>, talks: seq<Talk>) {
    forall i, j | 0 <= i < j < |talks| :: Before(order, talks[i].id, talks[j].id)
  }

  ghost predicate DistinctIds(talks: seq<Talk>) {
    forall i, j | 0 <= i < j < |talks| :: talks[i].id != talks[j].id
  }

  lemma BeforeInFront(order: seq<TalkId>, x: TalkId, y: TalkId)
    requires order != [] && Before(order[..|order| - 1], x, y)
    ensures Before(order, x, y)
  {
    var front := order[..|order| - 1];
    var a, b :| 0 <= a < b < |front| && front[a] == x && front[b] == y;
    assert order[a] == x && order[b] == y;
  }

  lemma BeforeLast(order: seq<TalkId>, x: TalkId)
    requires order != [] && x in order[..|order| - 1]
    ensures Before(order, x, order[|order| - 1])
  {
    var front := order[..|order| - 1];
    var a :| 0 <= a < |front| && front[a] == x;
    assert order[a] == x;
  }

  lemma {:induction false} SelectInOrder(st: Store, order: seq<TalkId>, filter: Filter)
    ensures InOrder(order, Select(st, order, filter))
  {
    if order != [] {
      var front := order[..|order| - 1];
      var rest, found := Select(st, front, filter), Select(st, order, filter);
      SelectInOrder(st, front, filter);
      forall i, j | 0 <= i < j < |found|
        ensures Before(order, found[i].id, found[j].id)
      {
        SelectMembers(st, front, filter, rest[i]);
        if j < |rest| {
          BeforeInFront(order, rest[i].id, rest[j].id);
        } else {
          BeforeLast(order, rest[i].id);
        }
      }
    }
  }

  lemma OrderedIsDistinct(st: Store, talks: seq<Talk>)
    requires StoreOk(st) && InOrder(st.order, talks)
    ensures DistinctIds(talks)
  {
    forall i, j | 0 <= i < j < |talks|
      ensures talks[i].id != talks[j].id
    {
      assert Before(st.order, talks[i].id, talks[j].id);
    }
  }

  /** Whatever is asked for, a query answers with each talk once, in collection order. */
  lemma QueriesListOnce(st: Store, creatorID: nat, serviceID: nat, talkID: TalkId, statuses: seq<Status>,
                        extra: Filter)
    requires StoreOk(st)
    ensures match Query(st, creatorID, serviceID, talkID, statuses, extra)
            case None => talkID != "" && !WellFormedId(talkID)
            case Some(found) => InOrder(st.order, found) && DistinctIds(found)
  {
    match QueryFilter(creatorID, serviceID, talkID, statuses)
    case None =>
    case Some(filter) =>
      SelectInOrder(st, st.order, filter + extra);
      OrderedIsDistinct(st, Select(st, st.order, filter + extra));
  }

  /** The pending list and every attached list have each of their talks once, in collection
      order. */
  lemma ListsListOnce(st: Store, servicerID: nat)
    requires StoreOk(st)
    ensures InOrder(st.order, Pending(st)) && DistinctIds(Pending(st))
    ensures InOrder(st.order, Attached(st, servicerID)) && DistinctIds(Attached(st, servicerID))
  {
    SelectInOrder(st, st.order, map[StatusField := OneOf([Opened]), ServiceField := EqualNumber(0)]);
    SelectInOrder(st, st.order, (if servicerID > 0 then map[ServiceField := EqualNumber(servicerID)] else map[])
                                + map[StatusField := OneOf([Opened])]);
    OrderedIsDistinct(st, Pending(st));
    OrderedIsDistinct(st, Attached(st, servicerID));
  }

  /** The talk is one a query asks for. */
  predicate AskedFor(st: Store, t: TalkId, creatorID: nat, serviceID: nat, talkID: TalkId, statuses: seq<Status>) {
    && t in st.talks
    && (creatorID > 0 ==> st.talks[t].creatorID == creatorID)
    && (serviceID > 0 ==> st.talks[t].serviceID == serviceID)
    && (talkID != "" ==> t == talkID)
    && (statuses != [] ==> st.talks[t].status in statuses)
  }

  /** A query answers with exactly the talks that are asked for; nothing is asked of a field
      whose argument is zero or empty. */
  lemma QueryAnswers(st: Store, creatorID: nat, serviceID: nat, talkID: TalkId, statuses: seq<Status>, t: Talk)
    requires StoreOk(st) && (talkID == "" || WellFormedId(talkID))
    ensures var found := Query(st, creatorID, serviceID, talkID, statuses, map[]);
            && found.Some?
            && (t in found.value <==>
                  AskedFor(st, t.id, creatorID, serviceID, talkID, statuses) && t.info == st.talks[t.id])
  {
    var filter := QueryFilter(creatorID, serviceID, talkID, statuses).value + map[];
    SelectMembers(st, st.order, filter, t);
    assert creatorID > 0 <==> CreatorField in filter;
    assert serviceID > 0 <==> ServiceField in filter;
    assert statuses != [] <==> StatusField in filter;
    assert talkID != "" <==> IdField in filter;
    assert Matches(t, filter)
      <==> && (CreatorField in filter ==> Holds(t, CreatorField, filter[CreatorField]))
           && (ServiceField in filter ==> Holds(t, ServiceField, filter[ServiceField]))
           && (StatusField in filter ==> Holds(t, StatusField, filter[StatusField]))
           && (IdField in filter ==> Holds(t, IdField, filter[IdField]));
  }

  // ---- pages ----

  /** Read page after page of this length, from this offset on, until one is short. */
  function ReadOn<T>(all: seq<T>, offset: nat, count: nat): seq<T>
    requires offset <= |all| && count > 0
    decreases |all| - offset
  {
    var page := Page(all, offset, count);
    if |page| < count || offset + count > |all| then page else page + ReadOn(all, offset + count, count)
  }

  /** Reading a list page by page gives the list, whatever the length of the pages; asked for
      with no length, a page is the whole list at once, whatever the offset. */
  lemma {:induction false} PagesCoverTheList<T>(all: seq<T>, offset: nat, count: nat)
    requires offset <= |all|
    ensures count > 0 ==> ReadOn(all, offset, count) == all[offset..]
    ensures Page(all, offset, 0) == all
    decreases |all| - offset
  {
    if count > 0 && offset + count <= |all| {
      PagesCoverTheList(all, offset + count, count);
      assert all[offset..] == all[offset..offset + count] + all[offset + count..];
      assert Page(all, offset, count) == all[offset..offset + count];
    }
  }

  // ---- how many ----

  function IdSet(talks: seq<Talk>): set<TalkId> {
    set t | t in talks :: t.id
  }

  lemma {:induction false} DistinctCount(talks: seq<Talk>)
    requires DistinctIds(talks)
    ensures |IdSet(talks)| == |talks|
  {
    if talks != [] {
      var front, last := talks[..|talks| - 1], talks[|talks| - 1];
      DistinctCount(front);
      assert talks == front + [last];
      assert IdSet(talks) == IdSet(front) + {last.id};
      assert last.id !in IdSet(front);
    }
  }

  /** The opened talks of the given owners; owner 0 stands for nobody. */
  function OpenedOf(st: Store, owners: set<nat>): set<TalkId> {
    set t | t in st.talks && IsOpened(st, t) && OwnerOf(st, t) in owners
  }

  lemma PendingCount(st: Store)
    requires StoreOk(st)
    ensures |OpenedOf(st, {0})| == |Pending(st)|
  {
    ListsListOnce(st, 0);
    DistinctCount(Pending(st));
    forall id
      ensures id in IdSet(Pending(st)) <==> id in OpenedOf(st, {0})
    {
      PendingLists(st, id);
    }
    assert IdSet(Pending(st)) == OpenedOf(st, {0});
  }

  lemma AttachedCount(st: Store, u: nat)
    requires StoreOk(st) && u > 0
    ensures |OpenedOf(st, {u})| == |Attached(st, u)|
  {
    ListsListOnce(st, u);
    DistinctCount(Attached(st, u));
    forall id
      ensures id in IdSet(Attached(st, u)) <==> id in OpenedOf(st, {u})
    {
      AttachedLists(st, u, id);
    }
    assert IdSet(Attached(st, u)) == OpenedOf(st, {u});
  }

  lemma OneMoreOwner(st: Store, owners: set<nat>, u: nat)
    requires u !in owners
    ensures |OpenedOf(st, owners + {u})| == |OpenedOf(st, owners)| + |OpenedOf(st, {u})|
  {
    assert OpenedOf(st, owners + {u}) == OpenedOf(st, owners) + OpenedOf(st, {u});
    assert OpenedOf(st, owners) !! OpenedOf(st, {u});
  }

  /** The lengths of the attached lists of these users together. */
  function AttachedTotal(st: Store, users: seq<nat>): nat {
    if users == [] then 0 else AttachedTotal(st, users[..|users| - 1]) + |Attached(st, users[|users| - 1])|
  }

  /** These users, and 0 for nobody. */
  function Owners(users: seq<nat>): set<nat> {
    if users == [] then {0} else Owners(users[..|users| - 1]) + {users[|users| - 1]}
  }

  lemma {:induction false} OwnersMembers(users: seq<nat>, u: nat)
    ensures u in Owners(users) <==> u == 0 || u in users
  {
    if users != [] {
      OwnersMembers(users[..|users| - 1], u);
      assert users == users[..|users| - 1] + [users[|users| - 1]];
    }
  }

  lemma {:induction false} ListsCount(st: Store, users: seq<nat>)
    requires StoreOk(st) && (forall i | 0 <= i < |users| :: users[i] > 0)
    requires forall i, j | 0 <= i < j < |users| :: users[i] != users[j]
    ensures |OpenedOf(st, Owners(users))| == |Pending(st)| + AttachedTotal(st, users)
  {
    if users == [] {
      PendingCount(st);
    } else {
      var front, last := users[..|users| - 1], users[|users| - 1];
      ListsCount(st, front);
      OwnersMembers(front, last);
      OneMoreOwner(st, Owners(front), last);
      AttachedCount(st, last);
    }
  }

  /** The opened talks number as many as the pending list and the attached lists together:
      no list has a talk twice, no two lists share one, and none is on no list. */
  lemma OpenedTalksAreCounted(st: Store, users: seq<nat>)
    requires StoreOk(st) && (forall i | 0 <= i < |users| :: users[i] > 0)
    requires forall i, j | 0 <= i < j < |users| :: users[i] != users[j]
    requires forall t | t in st.talks && IsOpened(st, t) && OwnerOf(st, t) > 0 :: OwnerOf(st, t) in users
    ensures |set t | t in st.talks && IsOpened(st, t)| == |Pending(st)| + AttachedTotal(st, users)
  {
    ListsCount(st, users);
    forall t | t in st.talks && IsOpened(st, t)
      ensures OwnerOf(st, t) in Owners(users)
    {
      OwnersMembers(users, OwnerOf(st, t));
    }
    assert (set t | t in st.talks && IsOpened(st, t)) == OpenedOf(st, Owners(users));
  }
}
