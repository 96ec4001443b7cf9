/** What every registry operation keeps, and what it adds to the sessions' queues. */
module HubFacts {
  import opened Defs
  import opened Hubs
  import opened Shapes

  lemma CastKeyFiled<K, R>(h: Hub<K, R>, k: K, excluded: set<nat>, r: R, kick: R, late: set<nat>)
    requires Filed(h)
    ensures Filed(CastKey(h, k, excluded, r, kick, late))
    ensures NoEmptyEntry(h) ==> NoEmptyEntry(CastKey(h, k, excluded, r, kick, late))
  {
  }

  lemma RegisteredAfterCastKey<K, R>(h: Hub<K, R>, k: K, excluded: set<nat>, r: R, kick: R, late: set<nat>, q: nat)
    requires Filed(h) && q in h.sess
    ensures Registered(CastKey(h, k, excluded, r, kick, late), q) <==>
            Registered(h, q) && (h.sess[q].key == k && q !in excluded ==> !Full(h.sess[q]))
  {
    if k in h.reg {
      var keep := Survivors(h, k, excluded);
      assert q in h.reg[k] && (q in excluded || !Full(h.sess[q])) <==> q in keep;
    }
  }

  function AddressedByKey<K, R>(h: Hub<K, R>, k: K, excluded: set<nat>): set<nat> {
    if k in h.reg then h.reg[k] - excluded else {}
  }

  lemma CastKeyBroadcasts<K, R>(h: Hub<K, R>, k: K, excluded: set<nat>, r: R, kick: R, late: set<nat>)
    requires Filed(h)
    ensures Broadcast(h, CastKey(h, k, excluded, r, kick, late), AddressedByKey(h, k, excluded), r, kick)
    ensures NoEmptyEntry(h) ==> NoEmptyEntry(CastKey(h, k, excluded, r, kick, late))
  {
    var h' := CastKey(h, k, excluded, r, kick, late);
    CastKeyFiled(h, k, excluded, r, kick, late);
    forall q | q in h.sess
      ensures Got(h, h', q, AddressedByKey(h, k, excluded), r, kick)
    {
      RegisteredAfterCastKey(h, k, excluded, r, kick, late, q);
    }
  }

  lemma EveryRegisteredIsUnder<K, R>(h: Hub<K, R>, q: nat)
    requires Filed(h)
    ensures q in Under(h, h.reg.Keys) <==> Registered(h, q)
  {
  }

  lemma CastAllFiled<K, R>(h: Hub<K, R>, r: R, kick: R, late: set<nat>)
    requires Filed(h)
    ensures Filed(CastAll(h, r, kick, late)) && NoEmptyEntry(CastAll(h, r, kick, late))
  {
    var h' := CastAll(h, r, kick, late);
    forall k, q | k in h'.reg && q in h'.reg[k]
      ensures q in h'.sess && h'.sess[q].key == k
    {
      assert q in h.reg[k];
    }
  }

  lemma RegisteredAfterCastAll<K, R>(h: Hub<K, R>, r: R, kick: R, late: set<nat>, q: nat)
    requires Filed(h) && q in h.sess
    ensures Registered(CastAll(h, r, kick, late), q) <==> Registered(h, q) && !Full(h.sess[q])
  {
    if Registered(h, q) && !Full(h.sess[q]) {
      assert q in Survivors(h, h.sess[q].key, {});
    }
  }

  lemma CastAllBroadcasts<K, R>(h: Hub<K, R>, r: R, kick: R, late: set<nat>)
    requires Filed(h)
    ensures Broadcast(h, CastAll(h, r, kick, late), Under(h, h.reg.Keys), r, kick)
    ensures NoEmptyEntry(CastAll(h, r, kick, late))
  {
    var h' := CastAll(h, r, kick, late);
    CastAllFiled(h, r, kick, late);
    forall q | q in h.sess
      ensures Got(h, h', q, Under(h, h.reg.Keys), r, kick)
    {
      RegisteredAfterCastAll(h, r, kick, late, q);
      EveryRegisteredIsUnder(h, q);
    }
  }

  lemma BroadcastSteady<K, R>(h: Hub<K, R>, h': Hub<K, R>, to: set<nat>, r: R, kick: R)
    requires HubOk(h) && Broadcast(h, h', to, r, kick)
    ensures Steady(h, h')
  {
    forall q | q in h.sess
      ensures h'.sess[q].key == h.sess[q].key && h.sess[q].sent <= h'.sess[q].sent
              && (h.sess[q].missed ==> h'.sess[q].missed)
      ensures h'.sess[q].taken <= |h'.sess[q].sent| <= h'.sess[q].taken + SESSION_CAPACITY
      ensures Registered(h', q) ==> Registered(h, q)
    {
      assert Got(h, h', q, to, r, kick);
    }
  }

  lemma SteadyRefl<K, R>(h: Hub<K, R>)
    requires HubOk(h)
    ensures Steady(h, h)
  {
  }

  lemma SteadySendTo<K, R>(h: Hub<K, R>, q: nat, r: R)
    requires HubOk(h)
    ensures Steady(h, SendTo(h, q, r))
  {
  }

  lemma SteadyTakeOne<K, R>(h: Hub<K, R>, q: nat)
    requires HubOk(h)
    ensures Steady(h, TakeOne(h, q))
  {
  }

  lemma SteadyPrune<K, R>(h: Hub<K, R>, k: K)
    requires HubOk(h)
    ensures Steady(h, Prune(h, k))
  {
  }

  /** Uninstalling takes out exactly the session that leaves. */
  lemma LeaveRegisters<K, R>(h: Hub<K, R>, q: nat, p: nat)
    requires Filed(h)
    ensures Registered(Leave(h, q), p) <==> Registered(h, p) && p != q
  {
    if q in h.sess && h.sess[q].key in h.reg {
      var k := h.sess[q].key;
      var left := h.reg[k] - {q};
      forall x | x in h.reg[k] && x != q
        ensures x in left
      {
      }
    }
  }

  lemma LeaveFiled<K, R>(h: Hub<K, R>, q: nat)
    requires Filed(h)
    ensures Filed(Leave(h, q)) && Leave(h, q).sess == h.sess
    ensures NoEmptyEntry(h) ==> NoEmptyEntry(Leave(h, q))
  {
  }

  lemma SteadyLeave<K, R>(h: Hub<K, R>, q: nat)
    requires HubOk(h)
    ensures Steady(h, Leave(h, q))
    ensures NoEmptyEntry(h) ==> NoEmptyEntry(Leave(h, q))
    ensures !Registered(Leave(h, q), q)
    ensures forall p :: p != q && Registered(h, p) ==> Registered(Leave(h, q), p)
    ensures Leave(h, q).sess == h.sess
  {
    LeaveFiled(h, q);
    forall p
      ensures Registered(Leave(h, q), p) <==> Registered(h, p) && p != q
    {
      LeaveRegisters(h, q, p);
    }
  }

  lemma SteadyConfirmOrDrop<K, R>(h: Hub<K, R>, q: nat, r: R, kick: R, drained: bool)
    requires HubOk(h)
    ensures Steady(h, ConfirmOrDrop(h, q, r, kick, drained))
  {
  }

  lemma SteadyCastKey<K, R>(h: Hub<K, R>, k: K, excluded: set<nat>, r: R, kick: R, late: set<nat>)
    requires HubOk(h)
    ensures Steady(h, CastKey(h, k, excluded, r, kick, late))
  {
    CastKeyBroadcasts(h, k, excluded, r, kick, late);
    BroadcastSteady(h, CastKey(h, k, excluded, r, kick, late), AddressedByKey(h, k, excluded), r, kick);
  }

  lemma SteadyCastAll<K, R>(h: Hub<K, R>, r: R, kick: R, late: set<nat>)
    requires HubOk(h)
    ensures Steady(h, CastAll(h, r, kick, late))
  {
    CastAllBroadcasts(h, r, kick, late);
    BroadcastSteady(h, CastAll(h, r, kick, late), Under(h, h.reg.Keys), r, kick);
  }

  lemma SteadyTrans<K, R>(h: Hub<K, R>, h': Hub<K, R>, h'': Hub<K, R>)
    requires Steady(h, h') && Steady(h', h'')
    ensures Steady(h, h'')
  {
  }

  /** An entry adds exactly the session that enters. */
  lemma EnterAdds<K, R>(h: Hub<K, R>, q: nat)
    requires HubOk(h)
    ensures HubOk(Enter(h, q)) && Enter(h, q).sess == h.sess
    ensures NoEmptyEntry(h) ==> NoEmptyEntry(Enter(h, q))
    ensures forall p :: Registered(Enter(h, q), p) <==> Registered(h, p) || (p == q && q in h.sess)
  {
  }
}
