/** Session objects and the registry that broadcasts to them, updated in place. The
    customer and the servicer side run the same code over different keys and responses. */
module Sessions {
  import opened Defs
  import opened Hubs

  class Session<K(==), R> {
    const key: K
    const uniqueID: nat
    var sent: seq<R>
    var taken: nat
    var missed: bool

    constructor (key: K, uniqueID: nat)
      ensures this.key == key && this.uniqueID == uniqueID
      ensures Value() == Sess(key, [], 0, false)
    {
      this.key, this.uniqueID := key, uniqueID;
      sent, taken, missed := [], 0, false;
    }

    ghost function Value(): Sess<K, R>
      reads this
    {
      Sess(key, sent, taken, missed)
    }

    method SendMessage(r: R) returns (ok: bool)
      modifies this
      ensures ok == !Full(old(Value()))
      ensures Value() == Offer(old(Value()), r)
    {
      ok := |sent| < taken + SESSION_CAPACITY;
      if ok {
        sent := sent + [r];
      } else {
        missed := true;
      }
    }

    /** Offers the kick-out; `drained` says whether the stream took an item just before. */
    method Remove(kick: R, drained: bool)
      modifies this
      ensures Value() == if drained && Full(old(Value()))
                         then Offer(old(Value()).(taken := old(taken) + 1, missed := old(missed)), kick)
                         else Offer(old(Value()), kick)
    {
      if drained && |sent| >= taken + SESSION_CAPACITY {
        taken := taken + 1;
      }
      var _ := SendMessage(kick);
    }

    /** One send of a broadcast: reports whether the session stays. */
    method SendOrRemove(r: R, kick: R, drained: bool) returns (ok: bool)
      requires |sent| <= taken + SESSION_CAPACITY
      modifies this
      ensures ok == !Full(old(Value()))
      ensures Value() == OfferOrKick(old(Value()), r, kick, drained)
    {
      ok := SendMessage(r);
      if !ok {
        Remove(kick, drained);
      }
    }
  }
}
