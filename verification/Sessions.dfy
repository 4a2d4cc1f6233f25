/** internal/auth/session.go: the session manager over the session repository. */
module Sessions {
  import opened Domain
  import opened Machine
  import opened Calls
  import opened Store

  datatype Lookup = Fresh(session: Session) | Stale(found: Option<Session>) | Errored

  class SessionManager {
    const cfg: Config
    const repo: Store

    constructor (cfg: Config, repo: Store)
      ensures this.cfg == cfg && this.repo == repo
    {
      this.cfg, this.repo := cfg, repo;
    }

    method Issue(userID: int, info: string, env: Env) returns (issued: Option<Session>)
      modifies repo`sessions, repo`nextSessionID
      ensures issued.None? <==> env.fault == OnRandom || env.fault == OnTx(2)
      ensures
        var s := NewSession(cfg, userID, cfg.hashToken(env.token), env.at.inner, info);
        if issued.None? then repo.Contents() == old(repo.Contents())
        else issued.value == s.(id := old(repo.nextSessionID)) && repo.Contents() == old(repo.Contents()).CreateSession(s)
    {
      if env.fault == OnRandom {
        return None;
      }
      var now := env.at.inner;
      if env.fault == OnTx(2) {
        return None;
      }
      var stored := repo.CreateSession(
        Session(0, userID, cfg.hashToken(env.token), now, now, now + cfg.idleTimeout, now + cfg.maxLifetime, None, info));
      return Some(stored);
    }

    /** Looks the token up, then touches the row that it found. */
    method Resolve(token: string, env: Env) returns (answer: Lookup)
      requires UniqueHashes(repo.sessions)
      requires forall id | id in repo.sessions :: repo.sessions[id].id == id
      modifies repo`sessions
      ensures
        var before, hash, now := old(repo.Contents()), cfg.hashToken(token), env.at.start;
        var found := before.SessionByHash(hash);
        && repo.Contents() == (if answer.Fresh? then ResolveDB(cfg, before, hash, now) else before)
        && if env.fault == OnLoad then answer == Errored
           else if found.None? then answer == Stale(None)
           else
             var s := before.sessions[found.value];
             answer == if !s.IsActive(now) then Stale(Some(s))
                       else if env.fault == OnTouch then Errored
                       else Fresh(s.(lastSeenAt := now, idleExpiresAt := SlideTo(cfg, s, now)))
    {
      if env.fault == OnLoad {
        return Errored;
      }
      var found := repo.FindByTokenHash(cfg.hashToken(token));
      if found.None? {
        return Stale(None);
      }
      var session, now := found.value, env.at.start;
      if !session.IsActive(now) {
        return Stale(Some(session));
      }
      var idleExpiry := now + cfg.idleTimeout;
      if idleExpiry > session.absoluteExpiresAt {
        idleExpiry := session.absoluteExpiresAt;
      }
      if env.fault == OnTouch {
        return Errored;
      }
      var touched := repo.Touch(session.id, now, idleExpiry);
      if !touched {
        return Stale(Some(session));
      }
      return Fresh(session.(lastSeenAt := now, idleExpiresAt := idleExpiry));
    }

    /** Ends the session behind the token, and returns it if there is one. */
    method Revoke(token: string, env: Env) returns (failed: bool, ended: Option<Session>)
      requires UniqueHashes(repo.sessions)
      requires forall id | id in repo.sessions :: repo.sessions[id].id == id
      modifies repo`sessions
      ensures
        var before, now := old(repo.Contents()), env.at.start;
        var found := before.SessionByHash(cfg.hashToken(token));
        if env.fault == OnLoad then failed && repo.Contents() == before
        else if found.None? then !failed && ended.None? && repo.Contents() == before
        else
          var s := before.sessions[found.value];
          if s.revokedAt.Some? then !failed && ended == Some(s) && repo.Contents() == before
          else if env.fault == OnRevoke then failed && repo.Contents() == before
          else !failed && ended == Some(s.(revokedAt := Some(now))) && repo.Contents() == before.Revoke(s.id, now)
    {
      if env.fault == OnLoad {
        return true, None;
      }
      var found := repo.FindByTokenHash(cfg.hashToken(token));
      if found.None? {
        return false, None;
      }
      var session := found.value;
      if session.revokedAt.Some? {
        return false, Some(session);
      }
      var now := env.at.start;
      if env.fault == OnRevoke {
        return true, None;
      }
      var ok := repo.Revoke(session.id, now);
      return !ok, Some(session.(revokedAt := Some(now)));
    }

    /** Leaves keepID alone; keepID 0 revokes all. */
    method RevokeOthers(userID: int, keepID: int, now: Time) returns (revoked: nat)
      modifies repo`sessions
      ensures repo.Contents() == old(repo.Contents()).RevokeMatching(userID, keepID, now)
    {
      if keepID == 0 {
        revoked := repo.RevokeMatching(userID, 0, now);
      } else {
        revoked := repo.RevokeMatching(userID, keepID, now);
      }
    }
  }
}
