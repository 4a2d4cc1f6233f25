/**
 * What each service call answers, and what it leaves in the store, case by case: told by the stored rows and the
 * circumstances of the call alone.
 */
module Verdicts {
  import opened Domain
  import opened Lockout
  import opened Machine
  import opened Invariants
  import opened Tokens
  import opened Calls
  import opened Refinement
  import opened CallRuns
  import Service

  // ----- What stays -----

  /** No other user's row changed, and no row came or went. */
  ghost predicate OthersKept(w: World, w': World, id: int) {
    && w'.db.users.Keys == w.db.users.Keys && w'.db.nextUserID == w.db.nextUserID
    && forall i | i in w.db.users && i != id :: w'.db.users[i] == w.db.users[i]
  }

  ghost predicate UsersKept(w: World, w': World) {
    w'.db.users == w.db.users && w'.db.nextUserID == w.db.nextUserID
  }

  ghost predicate SessionsKept(w: World, w': World) {
    w'.db.sessions == w.db.sessions && w'.db.nextSessionID == w.db.nextSessionID
  }

  ghost predicate ChallengesKept(w: World, w': World) {
    w'.challenges == w.challenges
  }

  /** Of the other challenges exactly the expired ones are gone. */
  ghost predicate OthersSwept(w: World, w': World, cid: string, now: Time) {
    forall id | id != cid ::
      && (id in w'.challenges <==> id in w.challenges && w.challenges[id].expiresAt > now)
      && (id in w'.challenges ==> w'.challenges[id] == w.challenges[id])
  }

  /** The audit log grew by exactly these events. */
  ghost predicate Wrote(w: World, w': World, evs: seq<Event>) {
    w'.db.events == w.db.events + evs && w'.db.nextEventID == w.db.nextEventID + |evs|
  }

  /** The next event of the log. */
  function Entry(w: World, owner: Option<int>, username: string, kind: EventKind, detail: Detail, at: Time): Event {
    Event(w.db.nextEventID, owner, username, kind, detail, at)
  }

  /** A best-effort entry, unless its write was lost. */
  function BestEffortEntry(w: World, env: Env, owner: Option<int>, username: string, kind: EventKind, detail: Detail,
                           at: Time): seq<Event> {
    if env.auditLost then [] else [Entry(w, owner, username, kind, detail, at)]
  }

  /** Nothing but the clock moved, apart from these audit entries. */
  ghost predicate AllKept(w: World, w': World, evs: seq<Event>) {
    UsersKept(w, w') && SessionsKept(w, w') && ChallengesKept(w, w') && w'.spent == w.spent && Wrote(w, w', evs)
  }

  /** Of the user's sessions none but the kept one is unrevoked, and nobody else's changed. */
  ghost predicate OthersRevoked(w: World, w': World, userID: int, keep: int) {
    && w'.db.sessions.Keys == w.db.sessions.Keys && w'.db.nextSessionID == w.db.nextSessionID
    && (forall sid | sid in w'.db.sessions && w'.db.sessions[sid].userID == userID
          && w'.db.sessions[sid].revokedAt.None? :: sid == keep && keep != 0)
    && (forall sid | sid in w.db.sessions && (w.db.sessions[sid].userID != userID || (keep != 0 && sid == keep)) ::
          w'.db.sessions[sid] == w.db.sessions[sid])
  }

  /** What the call answers. */
  ghost function Answer(cfg: Config, w: World, c: Call, env: Env): Response {
    Serve(cfg, w, c, env).response
  }

  // ----- Register -----

  ghost predicate Taken(w: World, name: string) {
    exists id :: id in w.db.users && w.db.users[id].username == name
  }

  /** The answer carries the one new row: that name, a hash that verifies the password, nothing else set. */
  ghost predicate NewAccount(cfg: Config, w: World, w': World, u: User, name: string, password: string, now: Time) {
    && u.id !in w.db.users && w'.db.users == w.db.users[u.id := u]
    && u.username == name && cfg.verify(u.passwordHash, password) == Match
    && u == User(u.id, name, u.passwordHash, "", false, None, 0, None, None, now)
  }

  /** Without a fault, an account is created exactly if name and password are acceptable and the name is free. */
  lemma RegisterVerdict(cfg: Config, w: World, username: string, password: string, env: Env)
    requires cfg.Valid() && Sound(cfg, w) && EnvOK(cfg, w, CRegister(username, password), env)
    ensures
      var c, name := CRegister(username, password), cfg.normalize(username);
      var r, w' := Answer(cfg, w, c, env), After(cfg, w, c, env);
      && SessionsKept(w, w') && ChallengesKept(w, w')
      && (r.Created? || AllKept(w, w', []))
      && (r.Created? ==>
            && cfg.acceptable(name, password) && !Taken(w, name)
            && NewAccount(cfg, w, w', r.user, name, password, env.at.start)
            && Wrote(w, w', [Entry(w, Some(r.user.id), name, EvRegistered, NoDetail, env.at.start)]))
      && (r.InvalidInput? <==> !cfg.acceptable(name, password))
      && (r.UsernameTaken? ==> Taken(w, name))
      && (r.Failed? ==> env.fault != NoFault)
      && (r.Created? || r.InvalidInput? || r.UsernameTaken? || r.Failed?)
  {
    hide Run, Legal, Apply, Enabled, SessionsOK, ChallengesOK, LogOK, LockExcludesSessions;
    var name, now := cfg.normalize(username), env.at.start;
    Service.Nothing(cfg, w);
    Service.Reading(cfg, w, now);
    if w.db.UserNamed(name).None? {
      Service.Registered(cfg, w, now, name, env.newHash);
      assert w.db.nextUserID in w.db.users ==> UserRow(cfg, w.db, w.db.nextUserID);
    }
  }

  // ----- Authenticate -----

  /** The row that the password is checked against: a lock that has run out is cleared first. */
  function Cleared(u: User): User {
    if u.lockedUntil.Some? then Unlocked(u) else u
  }

  /** The call gets as far as the password, checked in this state against the cleared row. */
  ghost predicate ChecksPassword(cfg: Config, w: World, username: string, env: Env) {
    var found := w.db.UserNamed(cfg.normalize(username));
    && found.Some? && env.fault != OnLoad && !w.db.users[found.value].IsLocked(env.at.start)
    && (w.db.users[found.value].lockedUntil.Some? ==> env.fault != OnClearLock)
  }

  ghost function AtPassword(w: World, id: int, env: Env): World
    requires id in w.db.users
  {
    w.(clock := env.at.start, db := w.db.(users := w.db.users[id := Cleared(w.db.users[id])]))
  }

  lemma ReachesPassword(cfg: Config, w: World, username: string, password: string, info: string, env: Env)
    requires cfg.Valid() && Sound(cfg, w) && EnvOK(cfg, w, CAuthenticate(username, password, info), env)
    requires ChecksPassword(cfg, w, username, env)
    ensures
      var c, id := CAuthenticate(username, password, info), w.db.UserNamed(cfg.normalize(username)).value;
      var u, w1 := Cleared(w.db.users[id]), AtPassword(w, id, env);
      var o := PasswordStep(cfg, w, u, password, info, env);
      && u.id == id && LogBefore(w1, env.at.start) && u.lockedUntil.None?
      && Legal(cfg, w1, o.effects)
      && Answer(cfg, w, c, env) == o.response && After(cfg, w, c, env) == Run(cfg, w1, o.effects)
  {
    hide Run, Legal, Apply, Enabled, PasswordStep;
    var id := w.db.UserNamed(cfg.normalize(username)).value;
    assert UserRow(cfg, w.db, id);
    var row, w1 := w.db.users[id], AtPassword(w, id, env);
    var o := PasswordStep(cfg, w, Cleared(row), password, info, env);
    Service.LastEvent(cfg, w);
    PasswordStepLegal(cfg, w, w1, Cleared(row), password, info, env);
    if row.lockedUntil.Some? {
      Service.ReadingThenClear(cfg, w, env.at.start, id);
      Append(cfg, w, [Tick(env.at.start), ClearLock(id)], o.effects);
    } else {
      Service.Reading(cfg, w, env.at.start);
      assert w1.db == w.db by {
        assert w.db.users[id := row] == w.db.users;
      }
      Append(cfg, w, [Tick(env.at.start)], o.effects);
    }
  }

  /**
   * A failure was counted on this row: one more on the counter and the answer says what is left; or, on the last
   * attempt, the row is locked with its counter back at 0, every session of the user is revoked, and the answer says
   * until when.
   */
  ghost predicate FailureCounted(cfg: Config, w: World, w': World, u: User, kind: EventKind, detail: Detail, now: Time,
                                 r: Response)
  {
    && OthersKept(w, w', u.id) && u.id in w'.db.users
    && var row, counted := w'.db.users[u.id], Entry(w, Some(u.id), u.username, kind, detail, now);
       if u.failedLoginAttempts + 1 < cfg.maxAttempts then
         && row == u.(failedLoginAttempts := u.failedLoginAttempts + 1) && SessionsKept(w, w') && Wrote(w, w', [counted])
         && (r.BadCredentials? || r.BadCode?) && r.remaining == cfg.maxAttempts - row.failedLoginAttempts
       else
         var until := now + cfg.lockDuration;
         && row == u.(failedLoginAttempts := 0, lockedUntil := Some(until))
         && r == AccountLocked(until) && OthersRevoked(w, w', u.id, 0)
         && Wrote(w, w', [counted, counted.(id := counted.id + 1, kind := EvAccountLocked,
                                            detail := LockedUntilDetail(until))])
  }

  /** The row is as given, everything else but the clock and the challenges as before. */
  ghost predicate RowOnly(w: World, w': World, u: User) {
    && OthersKept(w, w', u.id) && u.id in w'.db.users && w'.db.users[u.id] == u
    && SessionsKept(w, w') && Wrote(w, w', [])
  }

  lemma CountedIsTold(cfg: Config, w: World, w1: World, u: User, cause: Cause, env: Env)
    requires cfg.Valid() && w1.clock <= env.at.finish <= env.at.inner && RowOnly(w, w1, u) && Caused(cfg, w1, u.id, cause)
    requires !env.fault.OnTx? && 0 <= u.failedLoginAttempts < cfg.maxAttempts
    ensures
      var o := CountedFailure(cfg, u, cause, env);
      && Legal(cfg, w1, o.effects)
      && FailureCounted(cfg, w, Run(cfg, w1, o.effects), u, CauseKind(cause), CauseDetail(w1, cause), env.at.finish,
                        o.response)
      && Run(cfg, w1, o.effects).challenges == w1.challenges
      && (o.response.AccountLocked? || (if cause.WrongPassword? then o.response.BadCredentials? else o.response.BadCode?))
  {
    hide Run, Legal, Apply, Enabled, Caused;
    CountedFailureLegal(cfg, w1, u, cause, env);
  }

  /** A wrong password is always counted, unless a fault stops the transaction. */
  lemma WrongPasswordVerdict(cfg: Config, w: World, username: string, password: string, info: string, env: Env)
    requires cfg.Valid() && Sound(cfg, w) && EnvOK(cfg, w, CAuthenticate(username, password, info), env)
    requires ChecksPassword(cfg, w, username, env)
    requires cfg.verify(w.db.users[w.db.UserNamed(cfg.normalize(username)).value].passwordHash, password) == Mismatch
    ensures
      var c, u := CAuthenticate(username, password, info), w.db.users[w.db.UserNamed(cfg.normalize(username)).value];
      var r, w' := Answer(cfg, w, c, env), After(cfg, w, c, env);
      && ChallengesKept(w, w')
      && (if env.fault.OnTx? then r.Failed? && RowOnly(w, w', Cleared(u))
          else
            && FailureCounted(cfg, w, w', Cleared(u), EvLoginFailed, WrongPasswordDetail, env.at.finish, r)
            && (r.BadCredentials? || r.AccountLocked?))
  {
    hide Run, Legal, Apply, Enabled, Serve, After, LogBefore, FailureCounted;
    ReachesPassword(cfg, w, username, password, info, env);
    var id := w.db.UserNamed(cfg.normalize(username)).value;
    assert UserRow(cfg, w.db, id);
    var u, w1, cause := Cleared(w.db.users[id]), AtPassword(w, id, env), WrongPassword(password);
    assert RowOnly(w, w1, u);
    CountedFailureLegal(cfg, w1, u, cause, env);
    if !env.fault.OnTx? {
      CountedIsTold(cfg, w, w1, u, cause, env);
    }
  }

  /** The login took this row to a new session of its own, the only thing added. */
  ghost predicate LoggedInBy(cfg: Config, w: World, w': World, u: User, info: string, env: Env, r: Response) {
    && r.SignedIn? && r.token == env.token && r.previous == u.lastLoginAt
    && r.user == u.(failedLoginAttempts := 0, lockedUntil := None, lastLoginAt := Some(env.at.finish))
    && OthersKept(w, w', u.id) && u.id in w'.db.users && w'.db.users[u.id] == r.user
    && r.session.id !in w.db.sessions && w'.db.sessions == w.db.sessions[r.session.id := r.session]
    && r.session.userID == u.id && r.session.tokenHash == cfg.hashToken(env.token) && r.session.clientInfo == info
    && r.session.issuedAt == r.session.lastSeenAt == env.at.inner && r.session.revokedAt.None?
    && r.session.idleExpiresAt == env.at.inner + cfg.idleTimeout
    && r.session.absoluteExpiresAt == env.at.inner + cfg.maxLifetime
    && Wrote(w, w', [Entry(w, Some(u.id), u.username, EvLoginSucceeded, Client(info), env.at.finish)])
  }

  lemma NextSessionIsFree(cfg: Config, w: World)
    requires Sound(cfg, w)
    ensures w.db.nextSessionID !in w.db.sessions
  {
    assert w.db.nextSessionID in w.db.sessions ==> SessionRow(cfg, w, w.db.nextSessionID);
  }

  lemma LoginTxIsTold(cfg: Config, w: World, w1: World, u: User, info: string, env: Env,
                      left: map<string, Challenge>, spent: set<string>)
    requires w.db.nextSessionID !in w.db.sessions && RowOnly(w, w1, u)
    ensures
      var hash, at := cfg.hashToken(env.token), env.at;
      var w' := World(LoginTx(cfg, w1.db, u, hash, at.inner, info, at.finish), left, at.inner, spent);
      LoggedInBy(cfg, w, w', u, info, env,
                 SignedIn(env.token, NewSession(cfg, u.id, hash, at.inner, info).(id := w.db.nextSessionID),
                          LoggedIn(u, at.finish), u.lastLoginAt))
  {
  }

  lemma LoginIsTold(cfg: Config, w: World, w1: World, u: User, proof: Proof, info: string, env: Env)
    requires w.db.nextSessionID !in w.db.sessions && w1.clock <= env.at.finish <= env.at.inner
    requires RowOnly(w, w1, u) && cfg.hashToken(env.token) !in w1.spent && Earned(cfg, w1, u.id, proof)
    ensures
      var o := FinishLogin(cfg, w, u, proof, info, env);
      && Legal(cfg, w1, o.effects)
      && var w' := Run(cfg, w1, o.effects);
         && w'.challenges == (if proof.ByCode? then w1.challenges - {proof.id} else w1.challenges)
         && if env.fault.OnTx? || env.fault == OnRandom then o.response.Failed? && RowOnly(w, w', u)
            else LoggedInBy(cfg, w, w', u, info, env, o.response)
  {
    hide Run, Legal, Apply, Enabled, Earned, LoggedInBy, LoginTx;
    FinishLoginLegal(cfg, w, w1, u, proof, info, env);
    var left := if proof.ByCode? then w1.challenges - {proof.id} else w1.challenges;
    LoginTxIsTold(cfg, w, w1, u, info, env, left, w1.spent + {cfg.hashToken(env.token)});
  }

  /** The hash that a right password leaves stored; it verifies the password too. */
  function HashAfter(cfg: Config, u: User, env: Env): string {
    if cfg.needsRehash(u.passwordHash) && env.fault != OnHash then env.newHash else u.passwordHash
  }

  /** The challenge that is handed out is stored for the user, and nothing else was added. */
  ghost predicate ChallengeIssued(cfg: Config, w: World, w': World, u: User, env: Env, r: Response) {
    && r == CodeRequired(env.challengeID, u)
    && OthersKept(w, w', u.id) && u.id in w'.db.users && w'.db.users[u.id] == u && SessionsKept(w, w')
    && Wrote(w, w', BestEffortEntry(w, env, Some(u.id), u.username, EvTOTPChallenged, NoDetail, env.at.start))
    && env.challengeID !in w.challenges && env.challengeID in w'.challenges
    && w'.challenges[env.challengeID] ==
         Challenge(env.challengeID, u.id, u.username, 0, env.at.start + cfg.challengeTTL)
    && OthersSwept(w, w', env.challengeID, env.at.save)
  }

  lemma IssueIsTold(cfg: Config, w: World, w1: World, u: User, password: string, env: Env)
    requires Sound(cfg, w) && w1.clock == env.at.start <= env.at.save
    requires RowOnly(w, w1, u) && w1.challenges == w.challenges && w1.spent == w.spent && LogBefore(w1, env.at.start)
    requires env.challengeID !in w.spent && PasswordChecked(cfg, w1, u.id, password, Match) && u.totpEnabled
    ensures
      var issue := [Tick(env.at.save), IssueChallenge(u.id, env.challengeID, password, env.at.start)];
      var tr := issue + Audit(env, Some(u.id), u.username, EvTOTPChallenged, NoDetail, env.at.start);
      && Legal(cfg, w1, tr)
      && ChallengeIssued(cfg, w, Run(cfg, w1, tr), u, env, CodeRequired(env.challengeID, u))
  {
    hide Run, Legal, Apply, Enabled, UsersOK, SessionsOK, LogOK, LockExcludesSessions;
    var issue := [Tick(env.at.save), IssueChallenge(u.id, env.challengeID, password, env.at.start)];
    Service.ReadingThenIssue(cfg, w1, env.at.save, u.id, env.challengeID, password, env.at.start);
    AuditLegal(cfg, w1, issue, env, Some(u.id), u.username, EvTOTPChallenged, NoDetail, env.at.start);
    assert env.challengeID in w.challenges ==> env.challengeID in w.spent;
  }

  lemma FactorIsTold(cfg: Config, w: World, w1: World, u: User, password: string, info: string, env: Env)
    requires cfg.Valid() && Sound(cfg, w)
    requires w1.clock == env.at.start <= env.at.save <= env.at.finish <= env.at.inner
    requires RowOnly(w, w1, u) && w1.challenges == w.challenges && w1.spent == w.spent && LogBefore(w1, env.at.start)
    requires cfg.hashToken(env.token) !in w.spent && env.challengeID !in w.spent
    requires PasswordChecked(cfg, w1, u.id, password, Match)
    ensures
      var o := FactorStep(cfg, w, u, password, info, env);
      && Legal(cfg, w1, o.effects)
      && var w' := Run(cfg, w1, o.effects);
         if env.fault == OnRandom || (env.fault.OnTx? && !u.totpEnabled) then
           o.response.Failed? && RowOnly(w, w', u) && ChallengesKept(w, w')
         else if u.totpEnabled then ChallengeIssued(cfg, w, w', u, env, o.response)
         else LoggedInBy(cfg, w, w', u, info, env, o.response) && ChallengesKept(w, w')
  {
    hide Run, Legal, Apply, Enabled, FinishLogin, LoggedInBy, ChallengeIssued, Sound, LogBefore;
    if !u.totpEnabled {
      NextSessionIsFree(cfg, w);
      LoginIsTold(cfg, w, w1, u, ByPassword(password), info, env);
    } else if env.fault != OnRandom {
      IssueIsTold(cfg, w, w1, u, password, env);
    } else {
      Service.Nothing(cfg, w1);
    }
  }

  /** What a right password leads to: a failure that changes no more than the hash, a challenge, or a login. */
  ghost predicate PasswordPassed(cfg: Config, w: World, w': World, u: User, info: string, env: Env, r: Response) {
    var u' := u.(passwordHash := HashAfter(cfg, u, env));
    if cfg.needsRehash(u.passwordHash) && env.fault == OnRehash then
      r.Failed? && RowOnly(w, w', u) && ChallengesKept(w, w')
    else if env.fault == OnRandom || (env.fault.OnTx? && !u.totpEnabled) then
      r.Failed? && RowOnly(w, w', u') && ChallengesKept(w, w')
    else if u.totpEnabled then ChallengeIssued(cfg, w, w', u', env, r)
    else LoggedInBy(cfg, w, w', u', info, env, r) && ChallengesKept(w, w')
  }

  lemma MatchIsTold(cfg: Config, w: World, w1: World, u: User, password: string, info: string, env: Env)
    requires cfg.Valid() && Sound(cfg, w)
    requires w1.clock == env.at.start <= env.at.save <= env.at.finish <= env.at.inner
    requires RowOnly(w, w1, u) && w1.challenges == w.challenges && w1.spent == w.spent && LogBefore(w1, env.at.start)
    requires cfg.hashToken(env.token) !in w.spent && env.challengeID !in w.spent
    requires cfg.verify(env.newHash, password) == Match && PasswordChecked(cfg, w1, u.id, password, Match)
    ensures
      var o := PasswordStep(cfg, w, u, password, info, env);
      Legal(cfg, w1, o.effects) && PasswordPassed(cfg, w, Run(cfg, w1, o.effects), u, info, env, o.response)
  {
    hide Run, Legal, Apply, Enabled, Sound, FactorStep, LoggedInBy, ChallengeIssued;
    if !cfg.needsRehash(u.passwordHash) || env.fault == OnHash {
      FactorIsTold(cfg, w, w1, u, password, info, env);
    } else if env.fault == OnRehash {
      Service.Nothing(cfg, w1);
    } else {
      var u' := u.(passwordHash := env.newHash);
      var w2 := w1.(db := w1.db.PutUser(u'));
      Rehashed(cfg, w1, u.id, env.newHash, password);
      FactorIsTold(cfg, w, w2, u', password, info, env);
      Append(cfg, w1, [Rehash(u.id, env.newHash, password)], FactorStep(cfg, w, u', password, info, env).effects);
    }
  }

  lemma Rehashed(cfg: Config, w: World, id: int, hash: string, password: string)
    requires PasswordChecked(cfg, w, id, password, Match) && cfg.verify(hash, password) == Match
    ensures
      Legal(cfg, w, [Rehash(id, hash, password)]) && Run(cfg, w, [Rehash(id, hash, password)]) ==
        w.(db := w.db.PutUser(w.db.users[id].(passwordHash := hash)))
  {
    hide Run, Legal;
    One(cfg, w, Rehash(id, hash, password));
  }

  /** A right password is never refused, but for a fault: it signs in, or asks for a code if the account wants one. */
  lemma RightPasswordVerdict(cfg: Config, w: World, username: string, password: string, info: string, env: Env)
    requires cfg.Valid() && Sound(cfg, w) && EnvOK(cfg, w, CAuthenticate(username, password, info), env)
    requires ChecksPassword(cfg, w, username, env)
    requires cfg.verify(w.db.users[w.db.UserNamed(cfg.normalize(username)).value].passwordHash, password) == Match
    ensures
      var c, u := CAuthenticate(username, password, info), w.db.users[w.db.UserNamed(cfg.normalize(username)).value];
      PasswordPassed(cfg, w, After(cfg, w, c, env), Cleared(u), info, env, Answer(cfg, w, c, env))
  {
    hide Run, Legal, Apply, Enabled, Serve, After, LogBefore, Sound, PasswordPassed, PasswordStep;
    ReachesPassword(cfg, w, username, password, info, env);
    var id := w.db.UserNamed(cfg.normalize(username)).value;
    var u, w1 := Cleared(w.db.users[id]), AtPassword(w, id, env);
    assert RowOnly(w, w1, u);
    MatchIsTold(cfg, w, w1, u, password, info, env);
  }

  /** A name nobody has, a locked account, and a fault before the password. */
  lemma RefusedVerdict(cfg: Config, w: World, username: string, password: string, info: string, env: Env)
    requires cfg.Valid() && Sound(cfg, w) && EnvOK(cfg, w, CAuthenticate(username, password, info), env)
    requires !ChecksPassword(cfg, w, username, env)
    ensures
      var c, found := CAuthenticate(username, password, info), w.db.UserNamed(cfg.normalize(username));
      var r, w' := Answer(cfg, w, c, env), After(cfg, w, c, env);
      var name, now := cfg.normalize(username), env.at.start;
      if env.fault == OnLoad then r.Failed? && AllKept(w, w', [])
      else if found.None? then
        r == BadCredentials(-1) && AllKept(w, w', BestEffortEntry(w, env, None, name, EvLoginFailed, UnknownUsername, now))
      else
        var u := w.db.users[found.value];
        if u.IsLocked(now) then
          && r == AccountLocked(u.lockedUntil.value)
          && AllKept(w, w', BestEffortEntry(w, env, Some(u.id), name, EvLoginFailed, WhileLockedOut, now))
        else r.Failed? && AllKept(w, w', [])
  {
    hide Run, Legal, Apply, Enabled, PasswordStep, Sound, BestEffort;
    Service.Reading(cfg, w, env.at.start);
    Service.LastEvent(cfg, w);
    RefusalsAreBestEffort();
    var name, now := cfg.normalize(username), env.at.start;
    match w.db.UserNamed(name) {
      case None => AuditLegal(cfg, w, [Tick(now)], env, None, name, EvLoginFailed, UnknownUsername, now);
      case Some(id) =>
        AuditLegal(cfg, w, [Tick(now)], env, Some(w.db.users[id].id), name, EvLoginFailed, WhileLockedOut, now);
    }
  }

  /** A stored hash that cannot be read: nothing but a lock that has run out is cleared. */
  lemma BrokenHashVerdict(cfg: Config, w: World, username: string, password: string, info: string, env: Env)
    requires cfg.Valid() && Sound(cfg, w) && EnvOK(cfg, w, CAuthenticate(username, password, info), env)
    requires ChecksPassword(cfg, w, username, env)
    requires cfg.verify(w.db.users[w.db.UserNamed(cfg.normalize(username)).value].passwordHash, password) == Broken
    ensures
      var c, u := CAuthenticate(username, password, info), w.db.users[w.db.UserNamed(cfg.normalize(username)).value];
      var w' := After(cfg, w, c, env);
      Answer(cfg, w, c, env).Failed? && RowOnly(w, w', Cleared(u)) && ChallengesKept(w, w')
  {
    hide Run, Legal, Apply, Enabled, Serve, After, PasswordStep, Sound, EnvOK, LogBefore;
    ReachesPassword(cfg, w, username, password, info, env);
    var id := w.db.UserNamed(cfg.normalize(username)).value;
    BrokenIsTold(cfg, w, AtPassword(w, id, env), Cleared(w.db.users[id]), password, info, env);
  }

  lemma RefusalsAreBestEffort()
    ensures BestEffort(EvLoginFailed, UnknownUsername) && BestEffort(EvLoginFailed, WhileLockedOut)
  {
  }

  lemma BrokenIsTold(cfg: Config, w: World, w1: World, u: User, password: string, info: string, env: Env)
    requires cfg.verify(u.passwordHash, password).Broken?
    ensures PasswordStep(cfg, w, u, password, info, env) == Outcome([], Failed)
    ensures Legal(cfg, w1, []) && Run(cfg, w1, []) == w1
  {
  }

  /** The account that a username names, if its password is about to be checked. */
  ghost predicate Open(cfg: Config, w: World, username: string, now: Time) {
    var found := w.db.UserNamed(cfg.normalize(username));
    found.Some? && !w.db.users[found.value].IsLocked(now)
  }

  /** Without a fault: which accounts and passwords get which answer. */
  lemma AuthenticateVerdict(cfg: Config, w: World, username: string, password: string, info: string, env: Env)
    requires cfg.Valid() && Sound(cfg, w) && EnvOK(cfg, w, CAuthenticate(username, password, info), env)
    requires env.fault == NoFault
    ensures
      var found, r := w.db.UserNamed(cfg.normalize(username)), Answer(cfg, w, CAuthenticate(username, password, info), env);
      if !Open(cfg, w, username, env.at.start) then !r.SignedIn? && !r.CodeRequired? && !r.Failed?
      else
        var u := w.db.users[found.value];
        var verdict := cfg.verify(u.passwordHash, password);
        && (r.SignedIn? <==> verdict == Match && !u.totpEnabled)
        && (r.CodeRequired? <==> verdict == Match && u.totpEnabled)
        && (r.BadCredentials? || r.AccountLocked? <==> verdict == Mismatch)
        && (r.Failed? <==> verdict == Broken)
  {
    hide Run, Legal, Apply, Enabled, Serve, After, Sound, EnvOK, OthersKept, SessionsKept, OthersRevoked;
    if !Open(cfg, w, username, env.at.start) {
      RefusedVerdict(cfg, w, username, password, info, env);
    } else {
      match cfg.verify(w.db.users[w.db.UserNamed(cfg.normalize(username)).value].passwordHash, password) {
        case Match => RightPasswordVerdict(cfg, w, username, password, info, env);
        case Mismatch => WrongPasswordVerdict(cfg, w, username, password, info, env);
        case Broken => BrokenHashVerdict(cfg, w, username, password, info, env);
      }
    }
  }

  // ----- CompleteTOTPChallenge, AbandonChallenge -----

  /** Of the challenges exactly this one is gone, if it was stored at all. */
  ghost predicate Gone(w: World, w': World, cid: string) {
    w'.challenges == w.challenges - {cid}
  }

  ghost predicate OnlyGone(w: World, w': World, cid: string) {
    UsersKept(w, w') && SessionsKept(w, w') && Gone(w, w', cid) && Wrote(w, w', [])
  }

  /** The challenge waits for another code, until the same deadline. */
  ghost predicate Waits(w: World, w': World, cid: string, now: Time)
    requires cid in w.challenges
  {
    && cid in w'.challenges && w'.challenges[cid] == w.challenges[cid].(attempts := w.challenges[cid].attempts + 1)
    && OthersSwept(w, w', cid, now)
  }

  /** The call finds its challenge unexpired, and its user. */
  predicate FindsChallenge(w: World, cid: string, env: Env) {
    && cid in w.challenges && w.challenges[cid].expiresAt > env.at.find
    && w.challenges[cid].userID in w.db.users
  }

  /** What a code leads to, for the user u of a challenge that was found. */
  ghost predicate CodeJudged(cfg: Config, w: World, w': World, cid: string, u: User, code: string, info: string, env: Env,
                             r: Response)
    requires cid in w.challenges
  {
    if u.IsLocked(env.at.start) then
      r == AccountLocked(u.lockedUntil.value) && OnlyGone(w, w', cid)
    else if !u.totpEnabled then r == ChallengeExpired && OnlyGone(w, w', cid)
    else if cfg.decrypt(u.totpSecret).None? then r.Failed? && AllKept(w, w', [])
    else if cfg.codeOk(cfg.decrypt(u.totpSecret).value, code, env.at.start) then
      && Gone(w, w', cid)
      && if env.fault.OnTx? || env.fault == OnRandom then r.Failed? && RowOnly(w, w', u)
         else LoggedInBy(cfg, w, w', u, info, env, r)
    else if env.fault.OnTx? then r.Failed? && RowOnly(w, w', u) && Waits(w, w', cid, env.at.save)
    else
      && FailureCounted(cfg, w, w', u, EvTOTPFailed, InvalidCode(w.challenges[cid].attempts + 1), env.at.finish, r)
      && (r.BadCode? || r.AccountLocked?)
      && (r.BadCode? ==> Waits(w, w', cid, env.at.save))
      && (r.AccountLocked? ==> cid !in w'.challenges && OthersSwept(w, w', cid, env.at.save))
  }

  lemma WrongCodeIsTold(cfg: Config, w: World, cid: string, u: User, code: string, env: Env)
    requires cfg.Valid() && cid in w.challenges && w.challenges[cid].userID == u.id
    requires w.clock <= env.at.find <= env.at.start <= env.at.save <= env.at.finish <= env.at.inner
    requires env.at.find < w.challenges[cid].expiresAt <= env.at.find + cfg.challengeTTL
    requires u.id in w.db.users && w.db.users[u.id] == u && 0 <= u.failedLoginAttempts < cfg.maxAttempts
    requires !u.IsLocked(env.at.start) && u.totpEnabled && cfg.CodeFails(u, code, env.at.start)
    ensures
      var o, w1 := WrongCodeStep(cfg, cid, u, code, env), w.(clock := env.at.start);
      Legal(cfg, w1, o.effects) && var w' := Run(cfg, w1, o.effects);
      if env.fault.OnTx? then o.response.Failed? && RowOnly(w, w', u) && Waits(w, w', cid, env.at.save)
      else
        && FailureCounted(cfg, w, w', u, EvTOTPFailed, InvalidCode(w.challenges[cid].attempts + 1), env.at.finish,
                          o.response)
        && (o.response.BadCode? || o.response.AccountLocked?)
        && (o.response.BadCode? ==> Waits(w, w', cid, env.at.save))
        && (o.response.AccountLocked? ==> cid !in w'.challenges && OthersSwept(w, w', cid, env.at.save))
  {
    hide Run, Legal, Apply, Enabled, CountedFailure, FailureCounted;
    var w1, c := w.(clock := env.at.start), w.challenges[cid];
    var cause, tr := WrongCode(cid, code, env.at.find, env.at.start), [Tick(env.at.save), RetryChallenge(cid)];
    Service.ReadingThenRetry(cfg, w1, env.at.save, cid);
    var w2 := Run(cfg, w1, tr);
    assert w2.challenges[cid] == c.(attempts := c.attempts + 1);
    CountedFailureLegal(cfg, w2, u, cause, env);
    var o := CountedFailure(cfg, u, cause, env);
    Append(cfg, w1, tr, o.effects);
    if env.fault.OnTx? {
      FaultyCount(cfg, u, cause, env);
    } else {
      CountedIsTold(cfg, w, w2, u, cause, env);
      if o.response.AccountLocked? {
        Service.DroppedAfter(cfg, w1, tr + o.effects, cid);
        DroppingKeeps(cfg, w, Run(cfg, w1, tr + o.effects), u, InvalidCode(c.attempts + 1), env.at.finish, o.response,
                      cid);
      }
    }
  }

  lemma FaultyCount(cfg: Config, u: User, cause: Cause, env: Env)
    requires env.fault.OnTx?
    ensures CountedFailure(cfg, u, cause, env).response.Failed?
  {
  }

  lemma DroppingKeeps(cfg: Config, w: World, w1: World, u: User, detail: Detail, now: Time, r: Response, cid: string)
    requires FailureCounted(cfg, w, w1, u, EvTOTPFailed, detail, now, r)
    ensures FailureCounted(cfg, w, w1.(challenges := w1.challenges - {cid}), u, EvTOTPFailed, detail, now, r)
  {
  }

  lemma CodeIsTold(cfg: Config, w: World, cid: string, u: User, code: string, info: string, env: Env)
    requires cfg.Valid() && Sound(cfg, w) && EnvOK(cfg, w, CComplete(cid, code, info), env)
    requires FindsChallenge(w, cid, env) && u == w.db.users[w.challenges[cid].userID]
    ensures
      var o, w1 := CodeStep(cfg, w, cid, u, code, info, env), w.(clock := env.at.start);
      Legal(cfg, w1, o.effects) && CodeJudged(cfg, w, Run(cfg, w1, o.effects), cid, u, code, info, env, o.response)
  {
    hide Run, Legal, Apply, Enabled, WrongCodeStep, FinishLogin, FailureCounted, LoggedInBy, Waits, SessionsOK, LogOK,
         LockExcludesSessions;
    assert UserRow(cfg, w.db, w.challenges[cid].userID);
    var w1, r := w.(clock := env.at.start), env.at;
    Service.Nothing(cfg, w1);
    Service.Dropped(cfg, w1, cid);
    if !u.IsLocked(r.start) && u.totpEnabled && cfg.decrypt(u.totpSecret).Some? {
      if cfg.CodeMatches(u, code, r.start) {
        NextSessionIsFree(cfg, w);
        LoginIsTold(cfg, w, w1, u, ByCode(cid, code, r.find, r.start), info, env);
      } else {
        WrongCodeIsTold(cfg, w, cid, u, code, env);
      }
    }
  }

  /** Every code, by the rows: only a right code for a live challenge of an unlocked account signs in, and it does. */
  lemma CodeVerdict(cfg: Config, w: World, cid: string, code: string, info: string, env: Env)
    requires cfg.Valid() && Sound(cfg, w) && EnvOK(cfg, w, CComplete(cid, code, info), env)
    ensures
      var c := CComplete(cid, code, info);
      var r, w' := Answer(cfg, w, c, env), After(cfg, w, c, env);
      if !FindsChallenge(w, cid, env) then
        r == ChallengeExpired && OnlyGone(w, w', cid)
      else if env.fault == OnLoad then r.Failed? && OnlyGone(w, w', cid)
      else CodeJudged(cfg, w, w', cid, w.db.users[w.challenges[cid].userID], code, info, env, r)
  {
    hide Run, Legal, Apply, Enabled, CodeStep, CodeJudged, UserRow, SessionRow, LogOK, LockExcludesSessions;
    Service.Reading(cfg, w, env.at.find);
    Service.ReadingThenDrop(cfg, w, env.at.find, cid);
    if FindsChallenge(w, cid, env) && env.fault != OnLoad {
      var u := w.db.users[w.challenges[cid].userID];
      CodeIsTold(cfg, w, cid, u, code, info, env);
      Service.TwoReadings(cfg, w, env.at.find, env.at.start);
      Append(cfg, w, [Tick(env.at.find), Tick(env.at.start)], CodeStep(cfg, w, cid, u, code, info, env).effects);
    }
  }

  lemma AbandonVerdict(cfg: Config, w: World, cid: string, env: Env)
    requires cfg.Valid() && Sound(cfg, w) && EnvOK(cfg, w, CAbandon(cid), env)
    ensures
      var r, w' := Answer(cfg, w, CAbandon(cid), env), After(cfg, w, CAbandon(cid), env);
      r == Done && if cid == "" then AllKept(w, w', []) else OnlyGone(w, w', cid)
  {
    hide Run, Legal, Apply, Enabled, Sound;
    Service.Nothing(cfg, w);
    Service.Dropped(cfg, w, cid);
  }

  // ----- ResolveSession, Logout, PurgeExpiredSessions -----

  /** The session after a visit: seen now, its idle deadline moved, but not past the absolute one. */
  function Visited(cfg: Config, s: Session, now: Time): Session {
    var idle := if now + cfg.idleTimeout < s.absoluteExpiresAt then now + cfg.idleTimeout else s.absoluteExpiresAt;
    s.(lastSeenAt := now, idleExpiresAt := idle)
  }

  /** A token resolves to its user exactly if its session is active, but for a fault, and then the session slides. */
  lemma ResolveVerdict(cfg: Config, w: World, token: string, env: Env)
    requires cfg.Valid() && Sound(cfg, w) && EnvOK(cfg, w, CResolve(token), env)
    ensures
      var hash, now := cfg.hashToken(token), env.at.start;
      var r, w' := Answer(cfg, w, CResolve(token), env), After(cfg, w, CResolve(token), env);
      if env.fault == OnLoad then r.Failed? && AllKept(w, w', [])
      else if Answers(w, hash, now) then
        var s := SessionOf(w, hash).value;
        if env.fault == OnTouch then r.Failed? && AllKept(w, w', [])
        else
          && UsersKept(w, w') && ChallengesKept(w, w') && Wrote(w, w', [])
          && w'.db.sessions == w.db.sessions[s.id := Visited(cfg, s, now)] && s.userID in w.db.users
          && r == if env.fault == OnOwner then Failed else SessionLive(Visited(cfg, s, now), w.db.users[s.userID])
      else
        && r == SessionExpired
        && AllKept(w, w', if SessionOf(w, hash).None? then []
                          else BestEffortEntry(w, env, Some(SessionOf(w, hash).value.userID), "", EvSessionExpired,
                                               NoDetail, env.at.finish))
  {
    hide Run, Legal, Apply, Enabled, ChallengesOK, LogOK, LockExcludesSessions;
    ResolveLegal(cfg, w, token, env);
    match w.db.SessionByHash(cfg.hashToken(token)) {
      case Some(id) =>
        assert SessionRow(cfg, w, id);
        assert UserRow(cfg, w.db, w.db.sessions[id].userID);
      case None =>
    }
  }

  /** A logout revokes the session of the token, if there is one that is not revoked, and no other. */
  lemma LogoutVerdict(cfg: Config, w: World, token: string, env: Env)
    requires cfg.Valid() && Sound(cfg, w) && EnvOK(cfg, w, CLogout(token), env)
    ensures
      var found := SessionOf(w, cfg.hashToken(token));
      var r, w' := Answer(cfg, w, CLogout(token), env), After(cfg, w, CLogout(token), env);
      var ends := found.Some? && found.value.revokedAt.None?;
      if env.fault == OnLoad || (ends && env.fault == OnRevoke) then r.Failed? && AllKept(w, w', [])
      else
        && r == Done && UsersKept(w, w') && ChallengesKept(w, w')
        && Wrote(w, w', if found.None? then []
                        else BestEffortEntry(w, env, Some(found.value.userID), "", EvLogout, NoDetail, env.at.finish))
        && w'.db.sessions ==
             if ends then w.db.sessions[found.value.id := found.value.(revokedAt := Some(env.at.start))] else w.db.sessions
  {
    hide Run, Legal, Apply, Enabled, UsersOK, ChallengesOK, LogOK, LockExcludesSessions;
    LogoutLegal(cfg, w, token, env);
    match w.db.SessionByHash(cfg.hashToken(token)) {
      case Some(id) => assert SessionRow(cfg, w, id);
      case None =>
    }
  }

  /** A purge deletes exactly the sessions that are not active at its reading of the clock. */
  lemma PurgeVerdict(cfg: Config, w: World, env: Env)
    requires cfg.Valid() && Sound(cfg, w) && EnvOK(cfg, w, CPurge, env)
    ensures
      var r, w' := Answer(cfg, w, CPurge, env), After(cfg, w, CPurge, env);
      && UsersKept(w, w') && ChallengesKept(w, w') && Wrote(w, w', [])
      && if env.fault == OnPurge then r.Failed? && SessionsKept(w, w')
         else
           && r == Done
           && forall sid ::
                && (sid in w'.db.sessions <==> sid in w.db.sessions && w.db.sessions[sid].IsActive(env.at.start))
                && (sid in w'.db.sessions ==> w'.db.sessions[sid] == w.db.sessions[sid])
  {
    hide Run, Legal, Apply, Enabled, Sound;
    Service.Reading(cfg, w, env.at.start);
    Service.Purged(cfg, w, env.at.start);
  }

  // ----- Second factor enrollment -----

  /** The user is known to the call. */
  predicate Loads(w: World, userID: int, env: Env) {
    userID in w.db.users && env.fault != OnLoad
  }

  /** An enrollment starts exactly if the second factor is off; what is handed out is what is stored, unsealed. */
  lemma BeginVerdict(cfg: Config, w: World, userID: int, env: Env)
    requires cfg.Valid() && Sound(cfg, w) && EnvOK(cfg, w, CBegin(userID), env)
    ensures
      var r, w' := Answer(cfg, w, CBegin(userID), env), After(cfg, w, CBegin(userID), env);
      if !Loads(w, userID, env) then r.Failed? && AllKept(w, w', [])
      else if w.db.users[userID].totpEnabled then r == AlreadyEnabled && AllKept(w, w', [])
      else if env.fault in {OnRandom, OnEncrypt, OnPersist} then r.Failed? && AllKept(w, w', [])
      else
        && r.Enrolled? && OthersKept(w, w', userID) && SessionsKept(w, w') && ChallengesKept(w, w') && Wrote(w, w', [])
        && var row, row' := w.db.users[userID], w'.db.users[userID];
           && row' == row.(totpSecret := row'.totpSecret, totpConfirmedAt := None)
           && cfg.decrypt(row'.totpSecret) == Some(r.secret) && (row'.HasPendingEnrollment() <==> r.secret != "")
  {
    hide Run, Legal, Apply, Enabled, SessionsOK, ChallengesOK, LogOK, LockExcludesSessions;
    Service.Nothing(cfg, w);
    if userID in w.db.users {
      assert UserRow(cfg, w.db, userID);
      Service.Began(cfg, w, userID, env);
    }
  }

  /** Afterwards nothing is pending; a second factor that is on stays on. */
  lemma CancelVerdict(cfg: Config, w: World, userID: int, env: Env)
    requires cfg.Valid() && Sound(cfg, w) && EnvOK(cfg, w, CCancel(userID), env)
    ensures
      var r, w' := Answer(cfg, w, CCancel(userID), env), After(cfg, w, CCancel(userID), env);
      if !Loads(w, userID, env) then r.Failed? && AllKept(w, w', [])
      else if !w.db.users[userID].HasPendingEnrollment() then r == Done && AllKept(w, w', [])
      else if env.fault == OnPersist then r.Failed? && AllKept(w, w', [])
      else
        && r == Done && OthersKept(w, w', userID) && SessionsKept(w, w') && ChallengesKept(w, w') && Wrote(w, w', [])
        && w'.db.users[userID] == w.db.users[userID].(totpSecret := "")
  {
    hide Run, Legal, Apply, Enabled, SessionsOK, ChallengesOK, LogOK, LockExcludesSessions;
    Service.Nothing(cfg, w);
    if userID in w.db.users {
      assert UserRow(cfg, w.db, userID);
      Service.Cancelled(cfg, w, userID, env);
    }
  }

  /** A change of the second factor: the row as given, and no other session of the user but the kept one. */
  ghost predicate FactorChanged(w: World, w': World, u: User, kind: EventKind, keep: int, at: Time) {
    && OthersKept(w, w', u.id) && u.id in w'.db.users && w'.db.users[u.id] == u
    && OthersRevoked(w, w', u.id, keep) && ChallengesKept(w, w')
    && Wrote(w, w', [Entry(w, Some(u.id), u.username, kind, NoDetail, at)])
  }

  lemma FactorTxIsTold(w: World, u: User, kind: EventKind, keep: int, now: Time, at: Time)
    requires u.id in w.db.users && u.username == w.db.users[u.id].username
    ensures FactorChanged(w, w.(db := SecondFactorTx(w.db, u, kind, keep, now, at), clock := at), u, kind, keep, now)
  {
  }

  /** A pending enrollment is confirmed exactly by a right code. */
  lemma ConfirmVerdict(cfg: Config, w: World, userID: int, code: string, keep: int, env: Env)
    requires cfg.Valid() && Sound(cfg, w) && EnvOK(cfg, w, CConfirm(userID, code, keep), env)
    ensures
      var c := CConfirm(userID, code, keep);
      var r, w' := Answer(cfg, w, c, env), After(cfg, w, c, env);
      if !Loads(w, userID, env) then r.Failed? && AllKept(w, w', [])
      else
        var u := w.db.users[userID];
        if u.totpEnabled then r == AlreadyEnabled && AllKept(w, w', [])
        else if !u.HasPendingEnrollment() then r == NoPending && AllKept(w, w', [])
        else if cfg.decrypt(u.totpSecret).None? then r.Failed? && AllKept(w, w', [])
        else if !cfg.codeOk(cfg.decrypt(u.totpSecret).value, code, env.at.start) then
          && r == InvalidTOTPCode
          && AllKept(w, w', BestEffortEntry(w, env, Some(u.id), u.username, EvTOTPFailed, EnrollmentFailed, env.at.start))
        else if env.fault.OnTx? then r.Failed? && AllKept(w, w', [])
        else
          var on := u.(totpEnabled := true, totpConfirmedAt := Some(env.at.start));
          r == Done && FactorChanged(w, w', on, EvTOTPEnabled, keep, env.at.start)
  {
    hide Run, Legal, Apply, Enabled, SessionsOK, ChallengesOK, LogOK, LockExcludesSessions, FactorChanged, SecondFactorTx;
    ConfirmLegal(cfg, w, userID, code, keep, env);
    if userID in w.db.users {
      assert UserRow(cfg, w.db, userID);
      FactorTxIsTold(w, Enabled2FA(w.db.users[userID], env.at.start), EvTOTPEnabled, keep, env.at.start, env.at.inner);
    }
  }

  /** The second factor is turned off exactly by a right code. */
  lemma DisableVerdict(cfg: Config, w: World, userID: int, code: string, keep: int, env: Env)
    requires cfg.Valid() && Sound(cfg, w) && EnvOK(cfg, w, CDisable(userID, code, keep), env)
    ensures
      var c := CDisable(userID, code, keep);
      var r, w' := Answer(cfg, w, c, env), After(cfg, w, c, env);
      if !Loads(w, userID, env) then r.Failed? && AllKept(w, w', [])
      else
        var u := w.db.users[userID];
        if !u.totpEnabled then r == NotEnabled && AllKept(w, w', [])
        else if cfg.decrypt(u.totpSecret).None? then r.Failed? && AllKept(w, w', [])
        else if !cfg.codeOk(cfg.decrypt(u.totpSecret).value, code, env.at.start) then
          && r == InvalidTOTPCode
          && AllKept(w, w', BestEffortEntry(w, env, Some(u.id), u.username, EvTOTPFailed, DisableFailed, env.at.start))
        else if env.fault.OnTx? then r.Failed? && AllKept(w, w', [])
        else
          var off := u.(totpEnabled := false, totpSecret := "", totpConfirmedAt := None);
          r == Done && FactorChanged(w, w', off, EvTOTPDisabled, keep, env.at.start)
  {
    hide Run, Legal, Apply, Enabled, SessionsOK, ChallengesOK, LogOK, LockExcludesSessions, FactorChanged, SecondFactorTx;
    DisableLegal(cfg, w, userID, code, keep, env);
    if userID in w.db.users {
      assert UserRow(cfg, w.db, userID);
      FactorTxIsTold(w, Disabled2FA(w.db.users[userID]), EvTOTPDisabled, keep, env.at.start, env.at.inner);
    }
  }
}
