/** The three repositories as one value; each function is what one repository operation does to it. */
module Database {
  import opened Domain

  /** The rows that a mass revocation changes; except 0 spares none. */
  predicate Revokes(id: int, s: Session, userID: int, except: int) {
    s.userID == userID && s.revokedAt.None? && (except == 0 || id != except)
  }

  datatype DB = DB(
    users: map<int, User>,
    sessions: map<int, Session>,
    events: seq<Event>,
    nextUserID: int,
    nextSessionID: int,
    nextEventID: int)
  {
    function CreateUser(name: string, hash: string, now: Time): DB {
      var u := User(nextUserID, name, hash, "", false, None, 0, None, None, now);
      this.(users := users[nextUserID := u], nextUserID := nextUserID + 1)
    }

    function PutUser(u: User): DB {
      this.(users := users[u.id := u])
    }

    function CreateSession(s: Session): DB {
      this.(sessions := sessions[nextSessionID := s.(id := nextSessionID)], nextSessionID := nextSessionID + 1)
    }

    function RevokeMatching(userID: int, except: int, at: Time): DB {
      this.(sessions := map id | id in sessions ::
        if Revokes(id, sessions[id], userID, except) then sessions[id].(revokedAt := Some(at)) else sessions[id])
    }

    function Touch(id: int, seenAt: Time, idleExpiresAt: Time): DB {
      if id in sessions && sessions[id].revokedAt.None?
      then this.(sessions := sessions[id := sessions[id].(lastSeenAt := seenAt, idleExpiresAt := idleExpiresAt)])
      else this
    }

    function Revoke(id: int, at: Time): DB {
      if id in sessions && sessions[id].revokedAt.None?
      then this.(sessions := sessions[id := sessions[id].(revokedAt := Some(at))])
      else this
    }

    function DeleteExpired(now: Time): DB {
      this.(sessions := map id | id in sessions && sessions[id].IsActive(now) :: sessions[id])
    }

    function Append(userID: Option<int>, username: string, kind: EventKind, detail: Detail, at: Time): DB {
      this.(events := events + [Event(nextEventID, userID, username, kind, detail, at)], nextEventID := nextEventID + 1)
    }

    ghost function UserNamed(name: string): (r: Option<int>)
      ensures r.Some? ==> r.value in users && users[r.value].username == name
      ensures r.None? ==> forall id | id in users :: users[id].username != name
    {
      if exists id :: id in users && users[id].username == name
      then var id :| id in users && users[id].username == name; Some(id)
      else None
    }

    ghost function SessionByHash(hash: string): (r: Option<int>)
      ensures r.Some? ==> r.value in sessions && sessions[r.value].tokenHash == hash
      ensures r.None? ==> forall id | id in sessions :: sessions[id].tokenHash != hash
    {
      if exists id :: id in sessions && sessions[id].tokenHash == hash
      then var id :| id in sessions && sessions[id].tokenHash == hash; Some(id)
      else None
    }
  }

  const EMPTY := DB(map[], map[], [], 1, 1, 1)
}
