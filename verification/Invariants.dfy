/** What holds in every state that a legal run can reach. */
module Invariants {
  import opened Domain
  import opened Lockout
  import opened Database
  import opened Machine

  ghost predicate UserRow(cfg: Config, db: DB, id: int)
    requires id in db.users
  {
    var u := db.users[id];
      && u.id == id && 1 <= id < db.nextUserID
      && 0 <= u.failedLoginAttempts < cfg.maxAttempts
      && (u.totpConfirmedAt.Some? <==> u.totpEnabled)
      && (u.totpEnabled ==> u.totpSecret != "")
  }

  ghost predicate UsersOK(cfg: Config, db: DB) {
    && 1 <= db.nextUserID
    && (forall id | id in db.users :: UserRow(cfg, db, id))
    && (forall i, j | i in db.users && j in db.users && db.users[i].username == db.users[j].username :: i == j)
  }

  ghost predicate SessionRow(cfg: Config, w: World, id: int)
    requires id in w.db.sessions
  {
    var s := w.db.sessions[id];
      && s.id == id && 1 <= id < w.db.nextSessionID
      && s.userID in w.db.users
      && s.tokenHash in w.spent
      && s.issuedAt <= s.lastSeenAt <= w.clock
      && s.absoluteExpiresAt == s.issuedAt + cfg.maxLifetime
      && s.idleExpiresAt == SlideTo(cfg, s, s.lastSeenAt)
  }

  ghost predicate SessionsOK(cfg: Config, w: World) {
    && 1 <= w.db.nextSessionID
    && (forall id | id in w.db.sessions :: SessionRow(cfg, w, id))
    && (forall i, j | i in w.db.sessions && j in w.db.sessions
          && w.db.sessions[i].tokenHash == w.db.sessions[j].tokenHash :: i == j)
  }

  ghost predicate ChallengesOK(cfg: Config, w: World) {
    forall cid | cid in w.challenges ::
      var c := w.challenges[cid];
      c.id == cid && cid in w.spent && c.userID in w.db.users && c.expiresAt <= w.clock + cfg.challengeTTL
  }

  /** A user whose LockedUntil is set has no unrevoked session. */
  ghost predicate LockExcludesSessions(db: DB) {
    forall id | id in db.sessions && db.sessions[id].userID in db.users
                && db.users[db.sessions[id].userID].lockedUntil.Some? :: db.sessions[id].revokedAt.Some?
  }

  /** Audit ids strictly increase, timestamps never decrease and never pass the clock. */
  ghost predicate LogOK(w: World) {
    && (forall i, j | 0 <= i < j < |w.db.events| ::
          w.db.events[i].id < w.db.events[j].id && w.db.events[i].createdAt <= w.db.events[j].createdAt)
    && (forall i | 0 <= i < |w.db.events| :: w.db.events[i].id < w.db.nextEventID && w.db.events[i].createdAt <= w.clock)
  }

  ghost predicate Sound(cfg: Config, w: World) {
    && UsersOK(cfg, w.db)
    && SessionsOK(cfg, w)
    && ChallengesOK(cfg, w)
    && LockExcludesSessions(w.db)
    && LogOK(w)
  }

  lemma ClockAdvances(cfg: Config, w: World, e: Effect)
    requires Enabled(cfg, w, e)
    ensures w.clock <= Apply(cfg, w, e).clock
    ensures w.spent <= Apply(cfg, w, e).spent
    ensures Apply(cfg, w, e).db.nextSessionID == w.db.nextSessionID + if e.Login? then 1 else 0
    ensures e.Login? ==> e.userID in w.db.users && Apply(cfg, w, e).clock == e.issuedAt
    ensures e.Login? ==> e.tokenHash !in w.spent && e.tokenHash in Apply(cfg, w, e).spent
    ensures w.db.users.Keys <= Apply(cfg, w, e).db.users.Keys
  {
  }

  // ----- One user's row across a label -----

  /** The row of a known user after a label. */
  ghost function UserAfter(cfg: Config, w: World, e: Effect, id: int): User
    requires Enabled(cfg, w, e) && id in w.db.users
  {
    var u := w.db.users[id];
    match e
    case ClearLock(i) => if i == id then Unlocked(u) else u
    case Rehash(i, hash, _) => if i == id then u.(passwordHash := hash) else u
    case BeginEnrollment(i, secret) =>
      if i == id then u.(totpSecret := secret, totpEnabled := false, totpConfirmedAt := None) else u
    case CancelEnrollment(i) => if i == id then u.(totpSecret := "") else u
    case CountFailure(i, _, _) => if i == id then AfterFailure(cfg, u, w.clock) else u
    case Login(i, _, _, _, _) => if i == id then LoggedIn(u, w.clock) else u
    case EnableTOTP(i, _, _, _) => if i == id then Enabled2FA(u, w.clock) else u
    case DisableTOTP(i, _, _, _) => if i == id then Disabled2FA(u) else u
    case _ => u
  }

  ghost predicate UserIs(cfg: Config, w: World, e: Effect, id: int)
    requires Enabled(cfg, w, e)
  {
    var users' := Apply(cfg, w, e).db.users;
    if id in w.db.users then id in users' && users'[id] == UserAfter(cfg, w, e, id)
    else if e.Register? && id == w.db.nextUserID then
      id in users' && users'[id] == User(id, e.name, e.hash, "", false, None, 0, None, None, w.clock)
    else id !in users'
  }

  lemma UserFollowsTransaction(cfg: Config, w: World, e: Effect, id: int)
    requires UsersOK(cfg, w.db) && Enabled(cfg, w, e)
    requires e.Register? || e.CountFailure? || e.Login? || e.EnableTOTP? || e.DisableTOTP?
    ensures UserIs(cfg, w, e, id)
  {
    hide Run, Legal;
  }

  lemma UserFollowsUpdate(cfg: Config, w: World, e: Effect, id: int)
    requires UsersOK(cfg, w.db) && Enabled(cfg, w, e)
    requires !e.Register? && !e.CountFailure? && !e.Login? && !e.EnableTOTP? && !e.DisableTOTP?
    ensures UserIs(cfg, w, e, id)
  {
    hide Run, Legal;
  }

  lemma UserFollows(cfg: Config, w: World, e: Effect, id: int)
    requires UsersOK(cfg, w.db) && Enabled(cfg, w, e)
    ensures UserIs(cfg, w, e, id)
  {
    hide Apply, Enabled, UsersOK, UserIs;
    if e.Register? || e.CountFailure? || e.Login? || e.EnableTOTP? || e.DisableTOTP? {
      UserFollowsTransaction(cfg, w, e, id);
    } else {
      UserFollowsUpdate(cfg, w, e, id);
    }
  }

  lemma NextUserFollows(cfg: Config, w: World, e: Effect)
    requires Enabled(cfg, w, e)
    ensures Apply(cfg, w, e).db.nextUserID == w.db.nextUserID + if e.Register? then 1 else 0
  {
    hide Run, Legal;
  }

  // ----- One session's row across a label -----

  /** The label revokes the session, were it still unrevoked: logout, lockout, or a change of the second factor. */
  predicate RevokedBy(cfg: Config, w: World, e: Effect, s: Session)
    requires Enabled(cfg, w, e)
  {
    match e
    case Revoke(sid) => s.id == sid
    case CountFailure(id, _, _) => s.userID == id && Trips(cfg, w.db.users[id])
    case EnableTOTP(id, _, keep, _) => s.userID == id && (keep == 0 || s.id != keep)
    case DisableTOTP(id, _, keep, _) => s.userID == id && (keep == 0 || s.id != keep)
    case _ => false
  }

  function RevocationTime(w: World, e: Effect): Time {
    match e
    case CountFailure(_, _, at) => at
    case EnableTOTP(_, _, _, at) => at
    case DisableTOTP(_, _, _, at) => at
    case _ => w.clock
  }

  /** The row of a stored session after a label that does not delete it. */
  function Moved(cfg: Config, w: World, e: Effect, s: Session): (s': Session)
    requires Enabled(cfg, w, e)
    ensures s'.id == s.id && s'.userID == s.userID && s'.tokenHash == s.tokenHash
    ensures s'.issuedAt == s.issuedAt && s'.absoluteExpiresAt == s.absoluteExpiresAt
  {
    if s.revokedAt.None? && RevokedBy(cfg, w, e, s) then s.(revokedAt := Some(RevocationTime(w, e)))
    else if e == Resolve(s.tokenHash) && s.IsActive(w.clock) then
      s.(lastSeenAt := w.clock, idleExpiresAt := SlideTo(cfg, s, w.clock))
    else s
  }

  ghost predicate Follows(cfg: Config, w: World, e: Effect, id: int)
    requires Enabled(cfg, w, e)
  {
    var rows, rows' := w.db.sessions, Apply(cfg, w, e).db.sessions;
    if id in rows then
      if e.Purge? && !rows[id].IsActive(w.clock) then id !in rows'
      else id in rows' && rows'[id] == Moved(cfg, w, e, rows[id])
    else if e.Login? && id == w.db.nextSessionID then
      id in rows' && rows'[id] == NewSession(cfg, e.userID, e.tokenHash, e.issuedAt, e.info).(id := id)
    else id !in rows'
  }

  lemma FollowsResolve(cfg: Config, w: World, hash: string, id: int)
    requires SessionsOK(cfg, w)
    ensures Follows(cfg, w, Resolve(hash), id)
  {
    match w.db.SessionByHash(hash) {
      case Some(sid) =>
      case None =>
    }
  }

  lemma FollowsRevocation(cfg: Config, w: World, e: Effect, id: int)
    requires UsersOK(cfg, w.db) && SessionsOK(cfg, w) && Enabled(cfg, w, e)
    requires e.CountFailure? || e.EnableTOTP? || e.DisableTOTP?
    ensures Follows(cfg, w, e, id)
  {
    hide Enabled, UsersOK;
    assert id in w.db.sessions ==> SessionRow(cfg, w, id);
    assert UserRow(cfg, w.db, e.userID) by {
      RevocationsKnowTheirUser(cfg, w, e);
    }
  }

  lemma RevocationsKnowTheirUser(cfg: Config, w: World, e: Effect)
    requires UsersOK(cfg, w.db) && Enabled(cfg, w, e)
    requires e.CountFailure? || e.EnableTOTP? || e.DisableTOTP?
    ensures e.userID in w.db.users && UserRow(cfg, w.db, e.userID)
  {
  }

  lemma FollowsOtherwise(cfg: Config, w: World, e: Effect, id: int)
    requires UsersOK(cfg, w.db) && SessionsOK(cfg, w) && Enabled(cfg, w, e)
    requires !e.Resolve? && !e.CountFailure? && !e.EnableTOTP? && !e.DisableTOTP?
    ensures Follows(cfg, w, e, id)
  {
  }

  lemma RowFollows(cfg: Config, w: World, e: Effect, id: int)
    requires UsersOK(cfg, w.db) && SessionsOK(cfg, w) && Enabled(cfg, w, e)
    ensures Follows(cfg, w, e, id)
  {
    hide Apply;
    if e.Resolve? {
      FollowsResolve(cfg, w, e.tokenHash, id);
    } else if e.CountFailure? || e.EnableTOTP? || e.DisableTOTP? {
      FollowsRevocation(cfg, w, e, id);
    } else {
      FollowsOtherwise(cfg, w, e, id);
    }
  }

  // ----- One challenge across a label -----

  /** A challenge stored after a label was issued by it, or was stored before and survived. */
  lemma ChallengeFollows(cfg: Config, w: World, e: Effect, cid: string)
    requires Enabled(cfg, w, e)
    ensures w.spent <= Apply(cfg, w, e).spent
    ensures cid in Apply(cfg, w, e).challenges ==>
      var c := Apply(cfg, w, e).challenges[cid];
      if e.IssueChallenge? && e.id == cid then
        cid !in w.spent && c.userID == e.userID && c.expiresAt == e.startedAt + cfg.challengeTTL
      else
        && cid in w.challenges && c.userID == w.challenges[cid].userID && c.expiresAt == w.challenges[cid].expiresAt
        && !Redeems(e, cid) && e != DropChallenge(cid)
  {
  }

  predicate Redeems(e: Effect, cid: string) {
    e.Login? && e.proof.ByCode? && e.proof.id == cid
  }

  // ----- Every label keeps every invariant -----

  lemma KeepsUsers(cfg: Config, w: World, e: Effect)
    requires cfg.Valid() && Sound(cfg, w) && Enabled(cfg, w, e)
    ensures UsersOK(cfg, Apply(cfg, w, e).db)
  {
    hide Apply, Run, Legal, SessionsOK, ChallengesOK, LockExcludesSessions, LogOK;
    var db' := Apply(cfg, w, e).db;
    NextUserFollows(cfg, w, e);
    forall id | id in db'.users ensures UserRow(cfg, db', id) {
      UserFollows(cfg, w, e, id);
    }
    forall i, j | i in db'.users && j in db'.users && db'.users[i].username == db'.users[j].username
      ensures i == j
    {
      UserFollows(cfg, w, e, i);
      UserFollows(cfg, w, e, j);
    }
  }

  lemma KeepsSessions(cfg: Config, w: World, e: Effect)
    requires cfg.Valid() && Sound(cfg, w) && Enabled(cfg, w, e)
    ensures SessionsOK(cfg, Apply(cfg, w, e))
  {
    hide Apply, Run, Legal, UserRow, ChallengesOK, LockExcludesSessions, LogOK;
    var w' := Apply(cfg, w, e);
    ClockAdvances(cfg, w, e);
    forall id | id in w'.db.sessions
      ensures (id in w.db.sessions && w'.db.sessions[id] == Moved(cfg, w, e, w.db.sessions[id]))
              || (e.Login? && id == w.db.nextSessionID
                  && w'.db.sessions[id] == NewSession(cfg, e.userID, e.tokenHash, e.issuedAt, e.info).(id := id))
    {
      RowFollows(cfg, w, e, id);
    }
    RowFollows(cfg, w, e, 0);
  }

  lemma KeepsChallenges(cfg: Config, w: World, e: Effect)
    requires cfg.Valid() && Sound(cfg, w) && Enabled(cfg, w, e)
    ensures ChallengesOK(cfg, Apply(cfg, w, e))
  {
    ClockAdvances(cfg, w, e);
  }

  lemma KeepsLockExclusion(cfg: Config, w: World, e: Effect)
    requires cfg.Valid() && Sound(cfg, w) && Enabled(cfg, w, e)
    ensures LockExcludesSessions(Apply(cfg, w, e).db)
  {
    hide Apply;
    var db' := Apply(cfg, w, e).db;
    forall id | id in db'.sessions && db'.sessions[id].userID in db'.users
                && db'.users[db'.sessions[id].userID].lockedUntil.Some?
      ensures db'.sessions[id].revokedAt.Some?
    {
      RowFollows(cfg, w, e, id);
      UserFollows(cfg, w, e, db'.sessions[id].userID);
    }
  }

  lemma KeepsLog(cfg: Config, w: World, e: Effect)
    requires cfg.Valid() && Sound(cfg, w) && Enabled(cfg, w, e)
    ensures LogOK(Apply(cfg, w, e))
  {
    hide Apply;
    ClockAdvances(cfg, w, e);
    AppendsEmitted(cfg, w, e);
  }

  lemma Keeps(cfg: Config, w: World, e: Effect)
    requires cfg.Valid() && Sound(cfg, w) && Enabled(cfg, w, e)
    ensures Sound(cfg, Apply(cfg, w, e))
  {
    KeepsUsers(cfg, w, e);
    KeepsSessions(cfg, w, e);
    KeepsChallenges(cfg, w, e);
    KeepsLockExclusion(cfg, w, e);
    KeepsLog(cfg, w, e);
  }

  /** Every reachable state is sound, whatever the interleaving of calls, faults and lost audit writes. */
  lemma {:induction false} Reachable(cfg: Config, t0: Time, tr: seq<Effect>)
    requires cfg.Valid() && Legal(cfg, Start(t0), tr)
    ensures Sound(cfg, Run(cfg, Start(t0), tr))
  {
    if tr != [] {
      Reachable(cfg, t0, tr[..|tr| - 1]);
      Keeps(cfg, Run(cfg, Start(t0), tr[..|tr| - 1]), tr[|tr| - 1]);
    }
  }
}
