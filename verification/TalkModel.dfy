/** The talk model: the store updated in place, and the queries over it. Each call takes
    `down`, whether the database call behind it fails; failure is reported as None or false. */
module TalkModel {
  import opened Defs
  import opened TalkStore

  class Model {
    var talks: map<TalkId, TalkInfo>
    var order: seq<TalkId>
    var messages: map<TalkId, seq<Msg>>

    ghost function Value(): Store
      reads this
    {
      Store(talks, order, messages)
    }

    ghost predicate Valid()
      reads this
    {
      StoreOk(Value())
    }

    constructor ()
      ensures Valid() && Value() == Store(map[], [], map[])
    {
      talks, order, messages := map[], [], map[];
    }

    /** `id` is the object id the database generates. */
    method CreateTalk(id: TalkId, info: TalkInfo, down: bool) returns (ok: bool)
      requires Valid() && WellFormedId(id) && id !in talks
      modifies this
      ensures Valid() && ok == !down
      ensures Value() == if down then old(Value()) else InsertTalk(old(Value()), id, info)
    {
      ok := !down;
      if ok {
        talks := talks[id := info];
        order := order + [id];
      }
    }

    method UpdateTalkInfo(talkID: TalkId, u: Update, down: bool) returns (ok: bool)
      requires Valid()
      modifies this`talks
      ensures Valid() && ok == (!down && talkID in old(talks))
      ensures Value() == if down then old(Value()) else UpdateTalk(old(Value()), talkID, u)
    {
      if !WellFormedId(talkID) || down || talkID !in talks {
        return false;
      }
      talks := talks[talkID := Updated(talks[talkID], u)];
      ok := true;
    }

    method OpenTalk(talkID: TalkId, down: bool) returns (ok: bool)
      requires Valid()
      modifies this`talks
      ensures Valid() && ok == (!down && talkID in old(talks))
      ensures Value() == if down then old(Value()) else UpdateTalk(old(Value()), talkID, SetStatus(Opened))
    {
      ok := UpdateTalkInfo(talkID, SetStatus(Opened), down);
    }

    method CloseTalk(talkID: TalkId, down: bool) returns (ok: bool)
      requires Valid()
      modifies this`talks
      ensures Valid() && ok == (!down && talkID in old(talks))
      ensures Value() == if down then old(Value()) else UpdateTalk(old(Value()), talkID, SetStatus(Closed))
    {
      ok := UpdateTalkInfo(talkID, SetStatus(Closed), down);
    }

    method UpdateTalkServiceID(talkID: TalkId, serviceID: nat, down: bool) returns (ok: bool)
      requires Valid()
      modifies this`talks
      ensures Valid() && ok == (!down && talkID in old(talks))
      ensures Value() == if down then old(Value()) else UpdateTalk(old(Value()), talkID, SetService(serviceID))
    {
      ok := UpdateTalkInfo(talkID, SetService(serviceID), down);
    }

    /** Messages go into the talk's own collection, whether or not the talk exists. */
    method AddTalkMessage(talkID: TalkId, m: Msg, down: bool) returns (ok: bool)
      requires Valid()
      modifies this`messages
      ensures Valid() && ok == !down
      ensures Value() == if down then old(Value()) else InsertMessage(old(Value()), talkID, m)
    {
      ok := !down;
      if ok {
        messages := messages[talkID := (if talkID in messages then messages[talkID] else []) + [m]];
      }
    }

    /** A positive count takes a page; otherwise the offset is ignored and all are returned. */
    method GetTalkMessages(talkID: TalkId, offset: nat, count: nat, down: bool) returns (r: Option<seq<Msg>>)
      ensures r.None? <==> down
      ensures !down ==> r == Some(Page(MessagesOf(Value(), talkID), offset, count))
    {
      if down {
        return None;
      }
      var all := if talkID in messages then messages[talkID] else [];
      if count == 0 {
        return Some(all);
      }
      var skip := if offset <= |all| then offset else |all|;
      var rest := all[skip..];
      if count < |rest| {
        rest := rest[..count];
      }
      assert rest == Page(all, offset, count);
      return Some(rest);
    }

    /** Builds the filter field by field. */
    method QueryTalkFilter(creatorID: nat, serviceID: nat, talkID: TalkId, statuses: seq<Status>)
      returns (filter: Option<Filter>)
      ensures filter == QueryFilter(creatorID, serviceID, talkID, statuses)
    {
      var m: Filter := map[];
      if creatorID > 0 {
        m := m[CreatorField := EqualNumber(creatorID)];
      }
      if serviceID > 0 {
        m := m[ServiceField := EqualNumber(serviceID)];
      }
      if |statuses| > 0 {
        m := m[StatusField := OneOf(statuses)];
      }
      if talkID != "" {
        if !WellFormedId(talkID) {
          return None;
        }
        m := m[IdField := EqualId(talkID)];
      }
      assert m == QueryFilter(creatorID, serviceID, talkID, statuses).value;
      return Some(m);
    }

    /** Adds the extra conditions one by one, overriding those already there. */
    method AddConditions(base: Filter, extra: Filter) returns (filter: Filter)
      ensures filter == base + extra
    {
      filter := base;
      var keys := extra.Keys;
      while keys != {}
        invariant keys <= extra.Keys
        invariant filter.Keys == base.Keys + (extra.Keys - keys)
        invariant forall f | f in filter :: filter[f] == if f in extra && f !in keys then extra[f] else base[f]
      {
        var f :| f in keys;
        filter := filter[f := extra[f]];
        keys := keys - {f};
      }
    }

    /** Runs the cursor over the collection. */
    method Fetch(filter: Filter) returns (found: seq<Talk>)
      requires Valid()
      ensures found == Select(Value(), order, filter)
    {
      found := [];
      for i := 0 to |order|
        invariant found == Select(Value(), order[..i], filter)
      {
        assert order[..i + 1][..i] == order[..i] && order[i] in order;
        var t := Talk(order[i], talks[order[i]]);
        if Matches(t, filter) {
          found := found + [t];
        }
      }
      assert order[..|order|] == order;
    }

    method QueryTalksEx(creatorID: nat, serviceID: nat, talkID: TalkId, statuses: seq<Status>, extra: Filter,
                        down: bool)
      returns (r: Option<seq<Talk>>)
      requires Valid()
      ensures r == if down then None else Query(Value(), creatorID, serviceID, talkID, statuses, extra)
    {
      var built := QueryTalkFilter(creatorID, serviceID, talkID, statuses);
      if built.None? || down {
        return None;
      }
      var filter := AddConditions(built.value, extra);
      var found := Fetch(filter);
      return Some(found);
    }

    method QueryTalks(creatorID: nat, serviceID: nat, talkID: TalkId, statuses: seq<Status>, down: bool)
      returns (r: Option<seq<Talk>>)
      requires Valid()
      ensures r == if down then None else Query(Value(), creatorID, serviceID, talkID, statuses, map[])
    {
      r := QueryTalksEx(creatorID, serviceID, talkID, statuses, map[], down);
    }

    method GetPendingTalkInfos(down: bool) returns (r: Option<seq<Talk>>)
      requires Valid()
      ensures r == if down then None else Some(Pending(Value()))
    {
      r := QueryTalksEx(0, 0, "", [Opened], map[ServiceField := EqualNumber(0)], down);
      assert QueryFilter(0, 0, "", [Opened]).value + map[ServiceField := EqualNumber(0)]
          == map[StatusField := OneOf([Opened]), ServiceField := EqualNumber(0)];
    }

    method GetServicerTalkInfos(servicerID: nat, down: bool) returns (r: Option<seq<Talk>>)
      requires Valid()
      ensures r == if down then None else Some(Attached(Value(), servicerID))
    {
      r := QueryTalks(0, servicerID, "", [Opened], down);
      assert QueryFilter(0, servicerID, "", [Opened]).value + map[]
          == (if servicerID > 0 then map[ServiceField := EqualNumber(servicerID)] else map[])
             + map[StatusField := OneOf([Opened])];
    }

    /** An error for a malformed id, false for one that is not stored. */
    method TalkExists(talkID: TalkId, down: bool) returns (r: Option<bool>)
      requires Valid()
      ensures r == if down || (talkID != "" && !WellFormedId(talkID)) then None
                   else Some(Lookup(Value(), talkID).Some?)
    {
      var found := QueryTalks(0, 0, talkID, [], down);
      QueryByIdIsLookup(Value(), talkID);
      if found.None? {
        return None;
      }
      return Some(|found.value| != 0);
    }

    method GetTalkInfo(talkID: TalkId, down: bool) returns (r: Option<Talk>)
      requires Valid()
      ensures r == if down then None else Lookup(Value(), talkID)
    {
      var found := QueryTalks(0, 0, talkID, [], down);
      QueryByIdIsLookup(Value(), talkID);
      if found.None? || |found.value| == 0 {
        return None;
      }
      return Some(found.value[0]);
    }

    method GetTalkServicerID(talkID: TalkId, down: bool) returns (r: Option<nat>)
      requires Valid()
      ensures r == if down || Lookup(Value(), talkID).None? then None
                   else Some(Lookup(Value(), talkID).value.info.serviceID)
    {
      var talk := GetTalkInfo(talkID, down);
      if talk.None? {
        return None;
      }
      return Some(talk.value.info.serviceID);
    }
  }
}
