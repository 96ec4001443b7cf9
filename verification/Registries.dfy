/** The registry a message domain owns, and its broadcast loops, which delete from the
    maps they walk. Each method is proved to do what the filter of module Hubs says. */
module Registries {
  import opened Defs
  import opened Hubs
  import opened Sessions

  type Members<K(==), R> = map<K, map<nat, Session<K, R>>>
  type Pool<K(==), R> = map<nat, Session<K, R>>

  /** The entries of one inner map are the pool's sessions of those ids, with that key. */
  ghost predicate LinkedInner<K, R>(k: K, inner: map<nat, Session<K, R>>, pool: Pool<K, R>) {
    forall q | q in inner :: q in pool && inner[q] == pool[q] && pool[q].key == k
  }

  ghost predicate Linked<K, R>(members: Members<K, R>, pool: Pool<K, R>) {
    && (forall q | q in pool :: pool[q].uniqueID == q)
    && (forall k | k in members :: LinkedInner(k, members[k], pool))
  }

  ghost function Keys<K, R>(members: Members<K, R>): map<K, set<nat>> {
    map k | k in members :: members[k].Keys
  }

  lemma KeysOfUpdate<K, R>(members: Members<K, R>, k: K, inner: map<nat, Session<K, R>>)
    ensures Keys(members[k := inner]) == Keys(members)[k := inner.Keys]
  {
  }

  function Pruned<K, R>(members: Members<K, R>, k: K): Members<K, R> {
    if k in members && members[k].Keys == {} then members - {k} else members
  }

  lemma KeysOfPruned<K, R>(h: Hub<K, R>, members: Members<K, R>, k: K)
    requires h.reg == Keys(members)
    ensures Keys(Pruned(members, k)) == Prune(h, k).reg
  {
  }

  lemma LinkedPruned<K, R>(members: Members<K, R>, pool: Pool<K, R>, k: K)
    requires Linked(members, pool)
    ensures Linked(Pruned(members, k), pool)
  {
  }

  lemma Remaining<T>(whole: set<T>, todo: set<T>, x: T)
    requires x in todo && todo <= whole
    ensures whole - (todo - {x}) == whole - todo + {x}
    ensures todo - {x} <= whole && x !in whole - todo
  {
  }

  lemma RemainingExcept<T>(whole: set<T>, excluded: set<T>, todo: set<T>, x: T)
    requires x in todo && todo <= whole
    ensures whole - excluded - (todo - {x})
         == if x in excluded then whole - excluded - todo else whole - excluded - todo + {x}
    ensures todo - {x} <= whole && x !in whole - excluded - todo
  {
  }

  lemma NothingLeft<T>(whole: set<T>)
    ensures whole - {} == whole
  {
  }

  /** The entries a walk keeps: those still to do, the excluded ones and those with room. */
  ghost function Kept<K, R>(inner: map<nat, Session<K, R>>, todo: set<nat>, excluded: set<nat>, h: Hub<K, R>)
    : map<nat, Session<K, R>>
    requires inner.Keys <= h.sess.Keys
  {
    map q | q in inner && (q in todo || q in excluded || !Full(h.sess[q])) :: inner[q]
  }

  lemma KeptAfter<K, R>(inner: map<nat, Session<K, R>>, todo: set<nat>, excluded: set<nat>, h: Hub<K, R>, q: nat)
    requires q in todo && todo <= inner.Keys <= h.sess.Keys
    ensures Kept(inner, todo - {q}, excluded, h)
         == if q !in excluded && Full(h.sess[q]) then Kept(inner, todo, excluded, h) - {q}
            else Kept(inner, todo, excluded, h)
  {
  }

  class Registry<K(==), R> {
    var members: Members<K, R>
    ghost var pool: Pool<K, R>  // every session ever made, registered or not
    ghost var all: set<Session<K, R>>

    ghost predicate Valid()
      reads this, all
    {
      && Linked(members, pool)
      && (forall q | q in pool :: pool[q] in all)
      && (forall s | s in all :: s.taken <= |s.sent| <= s.taken + SESSION_CAPACITY)
    }

    ghost function Sess(): map<nat, Sess<K, R>>
      requires forall q | q in pool :: pool[q] in all
      reads `pool, `all, all
    {
      map q | q in pool :: pool[q].Value()
    }

    ghost function Value(): Hub<K, R>
      requires Valid()
      reads this, all
    {
      Hub(Keys(members), Sess())
    }

    constructor ()
      ensures Valid() && Value() == Hub(map[], map[]) && pool == map[] && all == {}
    {
      members := map[];
      pool := map[];
      all := {};
    }

    /** A session has been made; it is not registered yet. */
    ghost method Join(s: Session<K, R>)
      requires Valid() && s.uniqueID !in pool && s.Value() == Hubs.Sess.Sess(s.key, [], 0, false)
      modifies this`pool, this`all
      ensures Valid() && members == old(members)
      ensures pool == old(pool)[s.uniqueID := s] && all == old(all) + {s}
      ensures Value() == Hubs.Join(old(Value()), s.uniqueID, s.key)
    {
      pool := pool[s.uniqueID := s];
      all := all + {s};
    }

    /** Makes a session; unique ids are never used twice. */
    method NewSession(key: K, uniqueID: nat) returns (s: Session<K, R>)
      requires Valid() && uniqueID !in pool
      modifies this`pool, this`all
      ensures fresh(s) && s.uniqueID == uniqueID && s.key == key
      ensures Valid() && members == old(members) && pool == old(pool)[uniqueID := s]
      ensures Value() == Hubs.Join(old(Value()), uniqueID, key)
    {
      s := new Session(key, uniqueID);
      Join(s);
    }

    method Enter(s: Session<K, R>)
      requires Valid() && s.uniqueID in pool && pool[s.uniqueID] == s
      modifies this`members
      ensures Valid()
      ensures Value() == Hubs.Enter(old(Value()), s.uniqueID)
    {
      var before: map<nat, Session<K, R>> := if s.key in members then members[s.key] else map[];
      var inner: map<nat, Session<K, R>> := before[s.uniqueID := s];
      KeysOfUpdate(members, s.key, inner);
      assert inner.Keys == before.Keys + {s.uniqueID};
      assert before.Keys == if s.key in Keys(members) then Keys(members)[s.key] else {};
      members := members[s.key := inner];
    }

    method PruneKey(k: K)
      requires Valid()
      modifies this`members
      ensures Valid()
      ensures Value() == Prune(old(Value()), k)
    {
      KeysOfPruned(Value(), members, k);
      LinkedPruned(members, pool, k);
      members := Pruned(members, k);
    }

    method Drop(k: K, q: nat)
      requires Valid() && k in members
      modifies this`members
      ensures Valid() && k in members
      ensures members == old(members)[k := old(members)[k] - {q}]
      ensures Value() == old(Value()).(reg := old(Value()).reg[k := old(Value()).reg[k] - {q}])
    {
      var inner := members[k] - {q};
      KeysOfUpdate(members, k, inner);
      assert inner.Keys == members[k].Keys - {q};
      members := members[k := inner];
    }

    method Leave(s: Session<K, R>)
      requires Valid() && s.uniqueID in pool && pool[s.uniqueID] == s
      modifies this`members
      ensures Valid()
      ensures Value() == Hubs.Leave(old(Value()), s.uniqueID)
    {
      if s.key in members {
        Drop(s.key, s.uniqueID);
        PruneKey(s.key);
      }
    }

    method SendTo(s: Session<K, R>, r: R) returns (ok: bool)
      requires Valid() && s.uniqueID in pool && pool[s.uniqueID] == s
      modifies s
      ensures Valid()
      ensures ok == !Full(old(s.Value()))
      ensures Value() == Hubs.SendTo(old(Value()), s.uniqueID, r)
    {
      ok := s.SendMessage(r);
      assert Sess() == old(Sess())[s.uniqueID := Offer(old(s.Value()), r)];
    }

    method ConfirmOrDrop(s: Session<K, R>, r: R, kick: R, drained: bool)
      requires Valid() && s.uniqueID in pool && pool[s.uniqueID] == s
      modifies this`members, s
      ensures Valid()
      ensures Value() == Hubs.ConfirmOrDrop(old(Value()), s.uniqueID, r, kick, drained)
    {
      var ok := s.SendOrRemove(r, kick, drained);
      assert Sess() == old(Sess())[s.uniqueID := OfferOrKick(old(s.Value()), r, kick, drained)];
      if !ok && s.key in members {
        Drop(s.key, s.uniqueID);
      }
    }

    /** One send of a broadcast; a full session goes from the given map. */
    method Visit(left: map<nat, Session<K, R>>, s: Session<K, R>, r: R, kick: R, drained: bool)
      returns (left': map<nat, Session<K, R>>)
      requires Valid() && s.uniqueID in pool && pool[s.uniqueID] == s
      modifies s
      ensures Valid()
      ensures left' == if Full(old(Sess())[s.uniqueID]) then left - {s.uniqueID} else left
      ensures Sess() == old(Sess())[s.uniqueID := OfferOrKick(old(Sess())[s.uniqueID], r, kick, drained)]
    {
      var ok := s.SendOrRemove(r, kick, drained);
      left' := if ok then left else left - {s.uniqueID};
    }

    /** The walk over one inner map: whatever order it takes, those with room get the
        response and stay, the full ones go, and no other session is touched. */
    method Walk(inner: map<nat, Session<K, R>>, excluded: set<nat>, r: R, kick: R, late: set<nat>)
      returns (left: map<nat, Session<K, R>>)
      requires Valid()
      requires forall q | q in inner :: q in pool && inner[q] == pool[q]
      modifies all
      ensures Valid()
      ensures forall q :: q in left <==> q in inner && (q in excluded || !Full(old(Sess())[q]))
      ensures forall q | q in left :: left[q] == inner[q]
      ensures Sess() == Reached(old(Value()), inner.Keys - excluded, r, kick, late)
    {
      ghost var h, aim := Value(), inner.Keys - excluded;
      var todo := inner.Keys;
      left := inner;
      while todo != {}
        invariant todo <= inner.Keys && Valid()
        invariant left == Kept(inner, todo, excluded, h)
        invariant Sess() == Reached(h, aim - todo, r, kick, late)
      {
        var q :| q in todo;
        RemainingExcept(inner.Keys, excluded, todo, q);
        KeptAfter(inner, todo, excluded, h, q);
        if q !in excluded {
          ReachedOneMore(h, aim - todo, q, r, kick, late);
          left := Visit(left, inner[q], r, kick, q in late);
        }
        todo := todo - {q};
      }
      NothingLeft(aim);
    }

    method WalkKey(k: K, excluded: set<nat>, r: R, kick: R, late: set<nat>)
      requires Valid() && k in members
      modifies this`members, all
      ensures Valid()
      ensures Value() == Hubs.WalkKey(old(Value()), k, excluded, r, kick, late)
    {
      var left := Walk(members[k], excluded, r, kick, late);
      assert left.Keys == Survivors(old(Value()), k, excluded);
      KeysOfUpdate(members, k, left);
      members := members[k := left];
    }

    method CastKey(k: K, excluded: set<nat>, r: R, kick: R, late: set<nat>)
      requires Valid()
      modifies this`members, all
      ensures Valid()
      ensures Value() == Hubs.CastKey(old(Value()), k, excluded, r, kick, late)
    {
      if k in members {
        WalkKey(k, excluded, r, kick, late);
        PruneKey(k);
      }
    }

    /** The walk over the whole registry, pruning each inner map it has emptied. */
    method CastAll(r: R, kick: R, late: set<nat>)
      requires Valid()
      modifies this`members, all
      ensures Valid()
      ensures Value() == Hubs.CastAll(old(Value()), r, kick, late)
    {
      ghost var h := Value();
      var todo := members.Keys;
      assert CastUnder(h, h.reg.Keys - todo, r, kick, late) == h by {
        assert h.reg.Keys - todo == {};
        CastUnderNone(h, r, kick, late);
      }
      while todo != {}
        invariant Valid()
        invariant todo <= h.reg.Keys
        invariant Value() == CastUnder(h, h.reg.Keys - todo, r, kick, late)
      {
        var k :| k in todo;
        Remaining(h.reg.Keys, todo, k);
        CastUnderOneMore(h, h.reg.Keys - todo, k, r, kick, late);
        WalkKey(k, {}, r, kick, late);
        PruneKey(k);
        todo := todo - {k};
      }
      NothingLeft(h.reg.Keys);
    }
  }
}
