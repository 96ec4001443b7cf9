/** Which talks the servicers' message domain asks the bus to track and to let go. */
module TrackRequests {
  import opened Defs
  import opened TalkStore
  import opened TalkLists
  import opened Hubs
  import opened HubFacts
  import opened ServicerLogic

  /** The talk is open and on the user's list. */
  predicate OnList(st: Store, user: nat, t: TalkId) {
    IsOpened(st, t) && (user > 0 ==> OwnerOf(st, t) == user)
  }

  lemma {:induction false} IdsOnce(talks: seq<Talk>, t: TalkId)
    requires DistinctIds(talks)
    ensures multiset(IdsOf(talks))[t] == if Lists(talks, t) then 1 else 0
  {
    if talks != [] {
      var front, last := talks[..|talks| - 1], talks[|talks| - 1];
      IdsOnce(front, t);
      assert talks == front + [last];
      assert IdsOf(talks) == IdsOf(front) + [last.id];
      if x :| x in front && x.id == t {
        assert x in talks;
      }
    }
  }

  lemma {:induction false} AddedAsOften(ids: seq<TalkId>, t: TalkId)
    ensures multiset(AddTracks(ids))[AddTrack(t)] == multiset(ids)[t]
    ensures multiset(RemoveTracks(ids))[RemoveTrack(t)] == multiset(ids)[t]
  {
    if ids != [] {
      var front, last := ids[..|ids| - 1], ids[|ids| - 1];
      AddedAsOften(front, t);
      assert ids == front + [last];
      assert AddTracks(ids) == AddTracks(front) + [AddTrack(last)];
      assert RemoveTracks(ids) == RemoveTracks(front) + [RemoveTrack(last)];
    }
  }

  /** An install asks to track each open talk of its user once, and no other. */
  lemma InstallTracksOwned(st: Store, user: nat, f: Faults, t: TalkId)
    requires StoreOk(st)
    ensures multiset(AddTracks(ListedIds(st, user, f)))[AddTrack(t)] == if !f.read && OnList(st, user, t) then 1 else 0
  {
    AddedAsOften(ListedIds(st, user, f), t);
    if !f.read {
      AttachedLists(st, user, t);
      ListsListOnce(st, user);
      IdsOnce(Attached(st, user), t);
    }
  }

  /** An uninstall asks to let each open talk of its user go, once, exactly if it takes the
      user's last session out of the registry and the talks can be read. */
  lemma LastUninstallUntracksOwned(h: ServicerHub, st: Store, q: nat, failed: bool, t: TalkId)
    requires StoreOk(st) && q in h.sess && h.sess[q].key in h.reg
    ensures var user := h.sess[q].key;
            multiset(UninstallTracks(h, st, q, failed))[RemoveTrack(t)]
            == if !failed && h.reg[user] <= {q} && OnList(st, user, t) then 1 else 0
  {
    var user := h.sess[q].key;
    AddedAsOften(IdsOf(Attached(st, user)), t);
    AttachedLists(st, user, t);
    ListsListOnce(st, user);
    IdsOnce(Attached(st, user), t);
    assert user !in Leave(h, q).reg <==> h.reg[user] - {q} == {};
  }
}
