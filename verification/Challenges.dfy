/** internal/auth/challenge.go: the in-memory challenge store and its lazy expiry. */
module Challenges {
  import opened Domain
  import opened Machine

  /** MemoryChallengeStore. Each operation is given the clock reading it takes. */
  class MemoryChallengeStore {
    var items: map<string, Challenge>

    constructor ()
      ensures items == map[]
    {
      items := map[];
    }

    method Save(challenge: Challenge, now: Time)
      modifies this
      ensures items == Evict(old(items), now)[challenge.id := challenge]
    {
      EvictExpired(now);
      items := items[challenge.id := challenge];
    }

    method Find(id: string, now: Time) returns (found: Option<Challenge>)
      modifies this
      ensures found == if id in old(items) && old(items)[id].expiresAt > now then Some(old(items)[id]) else None
      ensures items == if id in old(items) && old(items)[id].expiresAt <= now then old(items) - {id} else old(items)
    {
      if id !in items {
        return None;
      }
      if items[id].expiresAt <= now {
        items := items - {id};
        return None;
      }
      return Some(items[id]);
    }

    method Delete(id: string)
      modifies this
      ensures items == old(items) - {id}
    {
      items := items - {id};
    }

    method EvictExpired(now: Time)
      modifies this
      ensures items == Evict(old(items), now)
    {
      var todo := items.Keys;
      while todo != {}
        invariant todo <= old(items).Keys
        invariant items == map id | id in old(items) && (id in todo || old(items)[id].expiresAt > now) :: old(items)[id]
        decreases todo
      {
        var id :| id in todo;
        todo := todo - {id};
        if items[id].expiresAt <= now {
          items := items - {id};
        }
      }
    }
  }

  // ----- Lazy expiry is transparent -----

  datatype Op = Save(challenge: Challenge, at: Time) | Find(id: string, at: Time) | Delete(id: string, at: Time)

  /** The store with eviction in Save and deletion in Find. */
  function Lazy(items: map<string, Challenge>, op: Op): map<string, Challenge> {
    match op
    case Save(c, at) => Evict(items, at)[c.id := c]
    case Find(id, at) => if id in items && items[id].expiresAt <= at then items - {id} else items
    case Delete(id, _) => items - {id}
  }

  /** The store that never evicts anything. */
  function Plain(items: map<string, Challenge>, op: Op): map<string, Challenge> {
    match op
    case Save(c, _) => items[c.id := c]
    case Find(_, _) => items
    case Delete(id, _) => items - {id}
  }

  function Answer(items: map<string, Challenge>, id: string, at: Time): Option<Challenge> {
    if id in items && items[id].expiresAt > at then Some(items[id]) else None
  }

  function RunLazy(ops: seq<Op>): map<string, Challenge> {
    if ops == [] then map[] else Lazy(RunLazy(ops[..|ops| - 1]), ops[|ops| - 1])
  }

  function RunPlain(ops: seq<Op>): map<string, Challenge> {
    if ops == [] then map[] else Plain(RunPlain(ops[..|ops| - 1]), ops[|ops| - 1])
  }

  predicate ClockMonotone(ops: seq<Op>) {
    forall i, j | 0 <= i <= j < |ops| :: ops[i].at <= ops[j].at
  }

  /** After any operations, a Find at any later instant gets the answer of the store that never evicts. */
  lemma {:induction false} LazyExpiryIsTransparent(ops: seq<Op>, id: string, now: Time)
    requires ClockMonotone(ops) && (ops != [] ==> ops[|ops| - 1].at <= now)
    ensures Answer(RunLazy(ops), id, now) == Answer(RunPlain(ops), id, now)
  {
    if ops != [] {
      LazyExpiryIsTransparent(ops[..|ops| - 1], id, now);
    }
  }
}
