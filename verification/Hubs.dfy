/** The in-memory registry both message domains keep, as values: a two-level map from a
    key (a talk for customers, a user for servicers) and a session's unique id to the
    session, plus the outgoing queue of every session ever made. */
module Hubs {
  import opened Defs

  /** A session. `sent` is everything its outgoing channel ever accepted, `taken` how much
      of that its stream has drained; `missed` records that some send was refused. */
  datatype Sess<K, R> = Sess(key: K, sent: seq<R>, taken: nat, missed: bool)

  predicate Full<K, R>(s: Sess<K, R>) {
    |s.sent| >= s.taken + SESSION_CAPACITY
  }

  /** The non-blocking send into the outgoing channel. */
  function Offer<K, R>(s: Sess<K, R>, r: R): Sess<K, R> {
    if Full(s) then s.(missed := true) else s.(sent := s.sent + [r])
  }

  /** The queue has no room for n more responses. */
  predicate Overflows<K, R>(s: Sess<K, R>, n: nat) {
    n > 0 && |s.sent| + n > s.taken + SESSION_CAPACITY
  }

  /** A send whose failure kicks the session out. The kick-out goes through the same full
      channel, so it arrives only if the stream drains one item (`drained`) in between. */
  function OfferOrKick<K, R>(s: Sess<K, R>, r: R, kick: R, drained: bool): Sess<K, R> {
    if !Full(s) then Offer(s, r)
    else if drained then s.(sent := s.sent + [kick], taken := s.taken + 1, missed := true)
    else s.(missed := true)
  }

  datatype Hub<K(==), R> = Hub(reg: map<K, set<nat>>, sess: map<nat, Sess<K, R>>)

  /** Session q is in the registry, filed under its own key. */
  predicate Registered<K, R>(h: Hub<K, R>, q: nat) {
    q in h.sess && h.sess[q].key in h.reg && q in h.reg[h.sess[q].key]
  }

  /** Every registry entry is a known session filed under its own key. */
  ghost predicate Filed<K, R>(h: Hub<K, R>) {
    forall k, q :: k in h.reg && q in h.reg[k] ==> q in h.sess && h.sess[q].key == k
  }

  ghost predicate NoEmptyEntry<K, R>(h: Hub<K, R>) {
    forall k :: k in h.reg ==> h.reg[k] != {}
  }

  /** Drops the inner map of k when nothing is left in it. */
  function Prune<K, R>(h: Hub<K, R>, k: K): Hub<K, R> {
    if k in h.reg && h.reg[k] == {} then h.(reg := h.reg - {k}) else h
  }

  /** A plain send to one session, registered or not. */
  function SendTo<K, R>(h: Hub<K, R>, q: nat, r: R): Hub<K, R> {
    if q in h.sess then h.(sess := h.sess[q := Offer(h.sess[q], r)]) else h
  }

  /** The stream takes one item of the session's outgoing queue, if there is one. */
  function TakeOne<K, R>(h: Hub<K, R>, q: nat): Hub<K, R> {
    if q in h.sess && h.sess[q].taken < |h.sess[q].sent| then
      h.(sess := h.sess[q := h.sess[q].(taken := h.sess[q].taken + 1)])
    else h
  }

  /** A new session, not in the registry yet. */
  function Join<K, R>(h: Hub<K, R>, q: nat, key: K): Hub<K, R> {
    h.(sess := h.sess[q := Sess(key, [], 0, false)])
  }

  /** Files a known session under its key. */
  function Enter<K, R>(h: Hub<K, R>, q: nat): Hub<K, R> {
    if q !in h.sess then h
    else
      var k := h.sess[q].key;
      h.(reg := h.reg[k := (if k in h.reg then h.reg[k] else {}) + {q}])
  }

  /** Removes a session and its key's entry when that becomes empty. */
  function Leave<K, R>(h: Hub<K, R>, q: nat): Hub<K, R> {
    if q !in h.sess || h.sess[q].key !in h.reg then h
    else
      var k := h.sess[q].key;
      Prune(h.(reg := h.reg[k := h.reg[k] - {q}]), k)
  }

  /** A send to one session that drops it from the registry when its queue is full. */
  function ConfirmOrDrop<K, R>(h: Hub<K, R>, q: nat, r: R, kick: R, drained: bool): Hub<K, R> {
    if q !in h.sess then h
    else
      var s := h.sess[q];
      Hub(
        if Full(s) && s.key in h.reg then h.reg[s.key := h.reg[s.key] - {q}] else h.reg,
        h.sess[q := OfferOrKick(s, r, kick, drained)])
  }

  /** The entries of k that outlast a broadcast: the excluded one and those with room. */
  function Survivors<K, R>(h: Hub<K, R>, k: K, excluded: set<nat>): set<nat>
    requires k in h.reg
  {
    set q | q in h.reg[k] && (q in excluded || !(q in h.sess && Full(h.sess[q])))
  }

  /** The outgoing queues after a broadcast to the given sessions. */
  function Reached<K, R>(h: Hub<K, R>, to: set<nat>, r: R, kick: R, late: set<nat>): map<nat, Sess<K, R>> {
    map q | q in h.sess :: if q in to then OfferOrKick(h.sess[q], r, kick, q in late) else h.sess[q]
  }

  lemma ReachedOneMore<K, R>(h: Hub<K, R>, done: set<nat>, q: nat, r: R, kick: R, late: set<nat>)
    requires q in h.sess && q !in done
    ensures Reached(h, done, r, kick, late)[q := OfferOrKick(Reached(h, done, r, kick, late)[q], r, kick, q in late)]
         == Reached(h, done + {q}, r, kick, late)
  {
  }

  /** One key's share of a broadcast, before its inner map is pruned. */
  function WalkKey<K, R>(h: Hub<K, R>, k: K, excluded: set<nat>, r: R, kick: R, late: set<nat>): Hub<K, R>
    requires k in h.reg
  {
    Hub(h.reg[k := Survivors(h, k, excluded)], Reached(h, h.reg[k] - excluded, r, kick, late))
  }

  /** Broadcast to the sessions of one key, seen as a filter over the registry. */
  function CastKey<K, R>(h: Hub<K, R>, k: K, excluded: set<nat>, r: R, kick: R, late: set<nat>): Hub<K, R> {
    if k in h.reg then Prune(WalkKey(h, k, excluded, r, kick, late), k) else h
  }

  /** The sessions filed under the given keys. */
  function Under<K, R>(h: Hub<K, R>, ks: set<K>): set<nat> {
    set k, q | k in h.reg && k in ks && q in h.reg[k] :: q
  }

  /** Broadcast to every session under the given keys, seen as a filter over the registry. */
  function CastUnder<K, R>(h: Hub<K, R>, ks: set<K>, r: R, kick: R, late: set<nat>): Hub<K, R> {
    Hub(
      map k | k in h.reg && (k in ks ==> Survivors(h, k, {}) != {}) ::
        if k in ks then Survivors(h, k, {}) else h.reg[k],
      Reached(h, Under(h, ks), r, kick, late))
  }

  function CastAll<K, R>(h: Hub<K, R>, r: R, kick: R, late: set<nat>): Hub<K, R> {
    CastUnder(h, h.reg.Keys, r, kick, late)
  }

  lemma CastUnderNone<K, R>(h: Hub<K, R>, r: R, kick: R, late: set<nat>)
    ensures CastUnder(h, {}, r, kick, late) == h
  {
    assert CastUnder(h, {}, r, kick, late).reg == h.reg;
  }

  /** Walking one more key, in any order, extends the filter by that key. */
  lemma CastUnderOneMore<K, R>(h: Hub<K, R>, done: set<K>, k: K, r: R, kick: R, late: set<nat>)
    requires Filed(h) && k in h.reg && k !in done
    ensures var part := CastUnder(h, done, r, kick, late);
            k in part.reg && part.reg[k] == h.reg[k] &&
            Prune(WalkKey(part, k, {}, r, kick, late), k) == CastUnder(h, done + {k}, r, kick, late)
  {
    var part := CastUnder(h, done, r, kick, late);
    forall q | q in h.reg[k]
      ensures part.sess[q] == h.sess[q]
    {
      assert q !in Under(h, done);
    }
    assert Survivors(part, k, {}) == Survivors(h, k, {});
    assert Under(h, done + {k}) == Under(h, done) + (h.reg[k] - {});
    var next := CastUnder(h, done + {k}, r, kick, late);
    assert WalkKey(part, k, {}, r, kick, late).sess == next.sess;
    assert Prune(WalkKey(part, k, {}, r, kick, late), k).reg == next.reg;
  }
}
