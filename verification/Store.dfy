/** internal/storage/memory/store.go: the three repositories, with the transactions of internal/storage/postgres/tx.go. */
module Store {
  import opened Domain
  import opened Database
  import opened Activity

  ghost predicate UniqueNames(users: map<int, User>) {
    forall i, j | i in users && j in users && users[i].username == users[j].username :: i == j
  }

  ghost predicate UniqueHashes(sessions: map<int, Session>) {
    forall i, j | i in sessions && j in sessions && sessions[i].tokenHash == sessions[j].tokenHash :: i == j
  }

  /** The next key of an iteration, in whatever order. */
  method Pick<K(==)>(keys: set<K>) returns (key: K)
    requires keys != {}
    ensures key in keys
  {
    key :| key in keys;
  }

  // ----- A mass revocation, with the rows in todo not visited yet -----

  function Chosen(rows: map<int, Session>, todo: set<int>, userID: int, except: int): set<int> {
    set id | id in rows && id !in todo && Revokes(id, rows[id], userID, except)
  }

  function Swept(rows: map<int, Session>, todo: set<int>, userID: int, except: int, at: Time): map<int, Session> {
    map id | id in rows :: if id in Chosen(rows, todo, userID, except) then rows[id].(revokedAt := Some(at)) else rows[id]
  }

  lemma Visit(rows: map<int, Session>, todo: set<int>, id: int, userID: int, except: int, at: Time)
    requires id in todo && todo <= rows.Keys
    ensures id !in Chosen(rows, todo, userID, except) && Swept(rows, todo, userID, except, at)[id] == rows[id]
    ensures Chosen(rows, todo - {id}, userID, except) ==
      Chosen(rows, todo, userID, except) + if Revokes(id, rows[id], userID, except) then {id} else {}
    ensures Swept(rows, todo - {id}, userID, except, at) ==
      var before := Swept(rows, todo, userID, except, at);
      if Revokes(id, rows[id], userID, except) then before[id := rows[id].(revokedAt := Some(at))] else before
  {
  }

  lemma SweepBounds(rows: map<int, Session>, userID: int, except: int, at: Time)
    ensures Chosen(rows, rows.Keys, userID, except) == {} && Swept(rows, rows.Keys, userID, except, at) == rows
    ensures forall db: DB | db.sessions == rows ::
      db.RevokeMatching(userID, except, at) == db.(sessions := Swept(rows, {}, userID, except, at))
  {
    forall db: DB | db.sessions == rows
      ensures db.RevokeMatching(userID, except, at) == db.(sessions := Swept(rows, {}, userID, except, at))
    {
      assert db.RevokeMatching(userID, except, at).sessions == Swept(rows, {}, userID, except, at);
    }
  }

  class Store {
    var users: map<int, User>
    var sessions: map<int, Session>
    var events: seq<Event>
    var nextUserID: int
    var nextSessionID: int
    var nextEventID: int

    // The open transaction, and what a rollback restores.
    var inTx: bool
    var undo: DB

    function Contents(): DB
      reads this
    {
      DB(users, sessions, events, nextUserID, nextSessionID, nextEventID)
    }

    constructor ()
      ensures Contents() == EMPTY && !inTx
    {
      users, sessions, events := map[], map[], [];
      nextUserID, nextSessionID, nextEventID := 1, 1, 1;
      inTx, undo := false, EMPTY;
    }

    // ----- Transactions -----

    /** The opening of WithinTx: begins a transaction, or joins the one that is open. */
    method Enter() returns (owner: bool)
      modifies `inTx, `undo
      ensures inTx && owner == !old(inTx)
      ensures undo == if owner then Contents() else old(undo)
    {
      owner := !inTx;
      if owner {
        inTx, undo := true, DB(users, sessions, events, nextUserID, nextSessionID, nextEventID);
      }
    }

    /** The end of WithinTx: only the call that began the transaction commits it, or rolls it back. */
    method Leave(owner: bool, committed: bool)
      requires inTx
      modifies this
      ensures inTx == !owner && undo == old(undo)
      ensures Contents() == if owner && !committed then old(undo) else old(Contents())
    {
      if owner {
        inTx := false;
        if !committed {
          users, sessions, events := undo.users, undo.sessions, undo.events;
          nextUserID, nextSessionID, nextEventID := undo.nextUserID, undo.nextSessionID, undo.nextEventID;
        }
      }
    }

    // ----- Users -----

    method FindByUsername(name: string) returns (found: Option<User>)
      requires UniqueNames(users)
      ensures
        var id := Contents().UserNamed(name);
        found == if id.Some? then Some(users[id.value]) else None
    {
      var todo := users.Keys;
      while todo != {}
        invariant todo <= users.Keys
        invariant forall id | id in users && id !in todo :: users[id].username != name
        decreases todo
      {
        var id := Pick(todo);
        todo := todo - {id};
        if users[id].username == name {
          return Some(users[id]);
        }
      }
      return None;
    }

    method FindByID(id: int) returns (found: Option<User>)
      ensures found == if id in users then Some(users[id]) else None
    {
      return if id in users then Some(users[id]) else None;
    }

    /** Refuses a name that is taken. */
    method CreateUser(name: string, hash: string, now: Time) returns (created: Option<User>)
      requires UniqueNames(users)
      modifies `users, `nextUserID
      ensures
        if old(Contents()).UserNamed(name).Some? then created.None? && Contents() == old(Contents())
        else
          && Contents() == old(Contents()).CreateUser(name, hash, now)
          && created == Some(User(old(nextUserID), name, hash, "", false, None, 0, None, None, now))
    {
      var taken := FindByUsername(name);
      if taken.Some? {
        return None;
      }
      var stored := User(nextUserID, name, hash, "", false, None, 0, None, None, now);
      users, nextUserID := users[nextUserID := stored], nextUserID + 1;
      return Some(stored);
    }

    method UpdateUser(u: User) returns (ok: bool)
      modifies `users
      ensures ok == (u.id in old(users))
      ensures Contents() == if ok then old(Contents()).PutUser(u) else old(Contents())
    {
      ok := u.id in users;
      if ok {
        users := users[u.id := u];
      }
    }

    // ----- Sessions -----

    method CreateSession(s: Session) returns (stored: Session)
      modifies `sessions, `nextSessionID
      ensures stored == s.(id := old(nextSessionID))
      ensures Contents() == old(Contents()).CreateSession(s)
    {
      stored := s.(id := nextSessionID);
      sessions, nextSessionID := sessions[nextSessionID := stored], nextSessionID + 1;
    }

    method FindByTokenHash(hash: string) returns (found: Option<Session>)
      requires UniqueHashes(sessions)
      ensures
        var id := Contents().SessionByHash(hash);
        found == if id.Some? then Some(sessions[id.value]) else None
    {
      var todo := sessions.Keys;
      while todo != {}
        invariant todo <= sessions.Keys
        invariant forall id | id in sessions && id !in todo :: sessions[id].tokenHash != hash
        decreases todo
      {
        var id := Pick(todo);
        todo := todo - {id};
        if sessions[id].tokenHash == hash {
          return Some(sessions[id]);
        }
      }
      return None;
    }

    /** Fails on a missing or revoked row. */
    method Touch(id: int, seenAt: Time, idleExpiresAt: Time) returns (ok: bool)
      modifies `sessions
      ensures ok == (id in old(sessions) && old(sessions)[id].revokedAt.None?)
      ensures Contents() == old(Contents()).Touch(id, seenAt, idleExpiresAt)
    {
      if id !in sessions || sessions[id].revokedAt.Some? {
        return false;
      }
      sessions := sessions[id := sessions[id].(lastSeenAt := seenAt, idleExpiresAt := idleExpiresAt)];
      return true;
    }

    /** Leaves the first revocation time alone; fails on a missing row. */
    method Revoke(id: int, at: Time) returns (ok: bool)
      modifies `sessions
      ensures ok == (id in old(sessions))
      ensures Contents() == old(Contents()).Revoke(id, at)
    {
      if id !in sessions {
        return false;
      }
      if sessions[id].revokedAt.None? {
        sessions := sessions[id := sessions[id].(revokedAt := Some(at))];
      }
      return true;
    }

    /** Revokes the user's unrevoked sessions but the excepted one, and counts them. */
    method RevokeMatching(userID: int, except: int, at: Time) returns (revoked: nat)
      modifies `sessions
      ensures Contents() == old(Contents()).RevokeMatching(userID, except, at)
      ensures revoked == |Chosen(old(sessions), {}, userID, except)|
    {
      hide Chosen, Swept;
      ghost var rows := sessions;
      var todo := sessions.Keys;
      revoked := 0;
      SweepBounds(rows, userID, except, at);
      while todo != {}
        invariant todo <= rows.Keys && sessions == Swept(rows, todo, userID, except, at)
        invariant sessions.Keys == rows.Keys
        invariant revoked == |Chosen(rows, todo, userID, except)|
        decreases todo
      {
        var id := Pick(todo);
        Visit(rows, todo, id, userID, except, at);
        todo := todo - {id};
        if sessions[id].userID == userID && sessions[id].revokedAt.None? && (except == 0 || id != except) {
          sessions := sessions[id := sessions[id].(revokedAt := Some(at))];
          revoked := revoked + 1;
        }
      }
    }

    method DeleteExpired(now: Time) returns (removed: nat)
      modifies `sessions
      ensures Contents() == old(Contents()).DeleteExpired(now)
      ensures removed == |set id | id in old(sessions) && !old(sessions)[id].IsActive(now)|
    {
      ghost var before := Contents();
      var todo := sessions.Keys;
      ghost var hit: set<int> := {};
      removed := 0;
      while todo != {}
        invariant todo <= before.sessions.Keys && Contents() == before.(sessions := sessions)
        invariant sessions ==
          map id | id in before.sessions && (id in todo || before.sessions[id].IsActive(now)) :: before.sessions[id]
        invariant hit == set id | id in before.sessions && id !in todo && !before.sessions[id].IsActive(now)
        invariant removed == |hit|
        decreases todo
      {
        var id := Pick(todo);
        todo := todo - {id};
        if !sessions[id].IsActive(now) {
          sessions := sessions - {id};
          removed, hit := removed + 1, hit + {id};
        }
      }
      assert hit == set id | id in before.sessions && !before.sessions[id].IsActive(now);
    }

    // ----- Events -----

    method Append(userID: Option<int>, username: string, kind: EventKind, detail: Detail, at: Time)
      modifies `events, `nextEventID
      ensures Contents() == old(Contents()).Append(userID, username, kind, detail, at)
    {
      events := events + [Event(nextEventID, userID, username, kind, detail, at)];
      nextEventID := nextEventID + 1;
    }

    /** The newest events of the user; on a log in append order, its last ones in reverse. */
    method RecentForUser(userID: int, limit: nat) returns (listing: seq<Event>)
      requires DistinctIDs(events)
      ensures LatestOf(listing, events, userID, limit)
      ensures Ordered(events) ==> listing == Reverse(Suffix(OfUser(events, userID), limit))
    {
      var matches: seq<Event> := [];
      for i := 0 to |events|
        invariant matches == OfUser(events[..i], userID)
      {
        assert events[..i + 1][..i] == events[..i];
        if events[i].userID == Some(userID) {
          matches := matches + [events[i]];
        }
      }
      assert events[..|events|] == events;
      OfUserKeepsIDs(events, userID);
      listing := SortNewestFirst(matches);
      if Ordered(events) {
        ListingIsLatestReversed(events, userID, listing, limit);
      }
      ghost var sorted := listing;
      if |listing| > limit {
        listing := listing[..limit];
      }
      assert listing == Prefix(sorted, limit);
    }
  }
}
