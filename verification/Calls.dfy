/**
 * internal/auth/service.go, internal/auth/session.go: what every service call does, as the labels of
 * the machine it goes through, and what it answers. Clock readings, random draws, storage faults and
 * the loss of best-effort audit writes come from outside, in Env.
 */
module Calls {
  import opened Domain
  import opened Lockout
  import opened Machine

  /** The clock readings of one call, in the order in which the code takes them. */
  datatype Readings = Readings(find: Time, start: Time, save: Time, finish: Time, inner: Time)

  /** The first operation of the call that fails, if any. OnTx(op) is operation number op of the transaction. */
  datatype Fault =
    | NoFault | OnLoad | OnHash | OnClearLock | OnRehash | OnRandom | OnTx(op: nat)
    | OnTouch | OnOwner | OnRevoke | OnEncrypt | OnPersist | OnPurge

  datatype Env = Env(
    at: Readings,
    fault: Fault,
    auditLost: bool,
    token: string,
    challengeID: string,
    newHash: string,
    secret: string,
    sealedSecret: string)

  datatype Call =
    | CRegister(username: string, password: string)
    | CAuthenticate(username: string, password: string, info: string)
    | CComplete(challengeID: string, code: string, info: string)
    | CAbandon(challengeID: string)
    | CResolve(token: string)
    | CLogout(token: string)
    | CBegin(userID: int)
    | CConfirm(userID: int, code: string, keep: int)
    | CCancel(userID: int)
    | CDisable(userID: int, code: string, keep: int)
    | CPurge

  datatype Response =
    | Created(user: User)
    | SignedIn(token: string, session: Session, user: User, previous: Option<Time>)
    | CodeRequired(challengeID: string, user: User)
    | BadCredentials(remaining: int)
    | BadCode(remaining: int)
    | AccountLocked(until: Time)
    | ChallengeExpired
    | SessionLive(session: Session, user: User)
    | SessionExpired
    | Enrolled(secret: string)
    | InvalidTOTPCode
    | AlreadyEnabled
    | NotEnabled
    | NoPending
    | UsernameTaken
    | InvalidInput
    | Done
    | Failed

  datatype Outcome = Outcome(effects: seq<Effect>, response: Response)

  /**
   * What a call may rely on: ordered clock readings, fresh draws, and a hasher and a cipher that round-trip. Only an
   * empty secret is sealed as an empty text.
   */
  predicate EnvOK(cfg: Config, w: World, c: Call, env: Env) {
    var r := env.at;
    && w.clock <= r.find <= r.start <= r.save <= r.finish <= r.inner
    && cfg.hashToken(env.token) !in w.spent && env.challengeID !in w.spent
    && (c.CRegister? || c.CAuthenticate? ==> cfg.verify(env.newHash, c.password) == Match)
    && cfg.decrypt(env.sealedSecret) == Some(env.secret) && (env.sealedSecret == "" <==> env.secret == "")
  }

  function Audit(env: Env, owner: Option<int>, username: string, kind: EventKind, detail: Detail, at: Time): seq<Effect> {
    if env.auditLost then [] else [Log(owner, username, kind, detail, at)]
  }

  // ----- Register -----

  ghost function RegisterCall(cfg: Config, w: World, username: string, password: string, env: Env): Outcome {
    var name, now := cfg.normalize(username), env.at.start;
    if !cfg.acceptable(name, password) then Outcome([], InvalidInput)
    else if env.fault == OnHash then Outcome([], Failed)
    else if env.fault == OnTx(0) then Outcome([Tick(now)], Failed)
    else if w.db.UserNamed(name).Some? then Outcome([Tick(now)], UsernameTaken)
    else if env.fault.OnTx? then Outcome([Tick(now)], Failed)
    else Outcome([Tick(now), Register(name, env.newHash)],
                 Created(User(w.db.nextUserID, name, env.newHash, "", false, None, 0, None, None, now)))
  }

  // ----- The two endings of a login attempt -----

  /** recordFailure. */
  function CountedFailure(cfg: Config, u: User, cause: Cause, env: Env): Outcome {
    var now := env.at.finish;
    if env.fault.OnTx? then Outcome([Tick(now)], Failed)
    else
      Outcome([Tick(now), CountFailure(u.id, cause, env.at.inner)],
              if Trips(cfg, u) then AccountLocked(now + cfg.lockDuration)
              else if cause.WrongPassword? then BadCredentials(Remaining(cfg, AfterFailure(cfg, u, now)))
              else BadCode(Remaining(cfg, AfterFailure(cfg, u, now))))
  }

  /** completeLogin; a code login has already deleted its challenge when the transaction starts. */
  function FinishLogin(cfg: Config, w: World, u: User, proof: Proof, info: string, env: Env): Outcome {
    var now, r := env.at.finish, env.at;
    if env.fault.OnTx? || env.fault == OnRandom then
      Outcome((if proof.ByCode? then [DropChallenge(proof.id)] else []) + [Tick(now)], Failed)
    else
      var hash := cfg.hashToken(env.token);
      Outcome([Tick(now), Login(u.id, proof, hash, r.inner, info)],
              SignedIn(env.token, NewSession(cfg, u.id, hash, r.inner, info).(id := w.db.nextSessionID),
                       LoggedIn(u, now), u.lastLoginAt))
  }

  function Then(done: seq<Effect>, o: Outcome): Outcome {
    Outcome(done + o.effects, o.response)
  }

  // ----- Authenticate -----

  ghost function AuthenticateCall(cfg: Config, w: World, username: string, password: string, info: string, env: Env)
    : Outcome
  {
    var name, now := cfg.normalize(username), env.at.start;
    if env.fault == OnLoad then Outcome([Tick(now)], Failed)
    else match w.db.UserNamed(name)
      case None =>
        Then([Tick(now)], Outcome(Audit(env, None, name, EvLoginFailed, UnknownUsername, now), BadCredentials(-1)))
      case Some(id) => UserStep(cfg, w, w.db.users[id], name, password, info, env)
  }

  function UserStep(cfg: Config, w: World, u: User, name: string, password: string, info: string, env: Env): Outcome {
    var now := env.at.start;
    if u.IsLocked(now) then
      Then([Tick(now)], Outcome(Audit(env, Some(u.id), name, EvLoginFailed, WhileLockedOut, now),
                                AccountLocked(u.lockedUntil.value)))
    else if u.lockedUntil.None? then Then([Tick(now)], PasswordStep(cfg, w, u, password, info, env))
    else if env.fault == OnClearLock then Outcome([Tick(now)], Failed)
    else Then([Tick(now), ClearLock(u.id)], PasswordStep(cfg, w, Unlocked(u), password, info, env))
  }

  function PasswordStep(cfg: Config, w: World, u: User, password: string, info: string, env: Env): Outcome {
    match cfg.verify(u.passwordHash, password)
    case Broken => Outcome([], Failed)
    case Mismatch => CountedFailure(cfg, u, WrongPassword(password), env)
    case Match =>
      if !cfg.needsRehash(u.passwordHash) || env.fault == OnHash then FactorStep(cfg, w, u, password, info, env)
      else if env.fault == OnRehash then Outcome([], Failed)
      else Then([Rehash(u.id, env.newHash, password)],
                FactorStep(cfg, w, u.(passwordHash := env.newHash), password, info, env))
  }

  function FactorStep(cfg: Config, w: World, u: User, password: string, info: string, env: Env): Outcome {
    if !u.totpEnabled then FinishLogin(cfg, w, u, ByPassword(password), info, env)
    else if env.fault == OnRandom then Outcome([], Failed)
    else
      Outcome([Tick(env.at.save), IssueChallenge(u.id, env.challengeID, password, env.at.start)]
              + Audit(env, Some(u.id), u.username, EvTOTPChallenged, NoDetail, env.at.start),
              CodeRequired(env.challengeID, u))
  }

  // ----- CompleteTOTPChallenge, AbandonChallenge -----

  function CompleteCall(cfg: Config, w: World, cid: string, code: string, info: string, env: Env): Outcome {
    var r := env.at;
    if cid !in w.challenges then Outcome([Tick(r.find)], ChallengeExpired)
    else
      var c := w.challenges[cid];
      if c.expiresAt <= r.find then Outcome([Tick(r.find), DropChallenge(cid)], ChallengeExpired)
      else if env.fault == OnLoad then Outcome([Tick(r.find), DropChallenge(cid)], Failed)
      else if c.userID !in w.db.users then Outcome([Tick(r.find), DropChallenge(cid)], ChallengeExpired)
      else Then([Tick(r.find), Tick(r.start)], CodeStep(cfg, w, cid, w.db.users[c.userID], code, info, env))
  }

  function CodeStep(cfg: Config, w: World, cid: string, u: User, code: string, info: string, env: Env): Outcome {
    var r := env.at;
    if u.IsLocked(r.start) then Outcome([DropChallenge(cid)], AccountLocked(u.lockedUntil.value))
    else if !u.totpEnabled then Outcome([DropChallenge(cid)], ChallengeExpired)
    else if cfg.decrypt(u.totpSecret).None? then Outcome([], Failed)
    else if cfg.CodeMatches(u, code, r.start) then
      FinishLogin(cfg, w, u, ByCode(cid, code, r.find, r.start), info, env)
    else WrongCodeStep(cfg, cid, u, code, env)
  }

  function WrongCodeStep(cfg: Config, cid: string, u: User, code: string, env: Env): Outcome {
    var r := env.at;
    var o := Then([Tick(r.save), RetryChallenge(cid)], CountedFailure(cfg, u, WrongCode(cid, code, r.find, r.start), env));
    if o.response.AccountLocked? then o.(effects := o.effects + [DropChallenge(cid)]) else o
  }

  function AbandonCall(cid: string): Outcome {
    Outcome(if cid == "" then [] else [DropChallenge(cid)], Done)
  }

  // ----- ResolveSession, Logout, PurgeExpiredSessions -----

  ghost function ResolveCall(cfg: Config, w: World, token: string, env: Env): Outcome {
    var hash, now, later := cfg.hashToken(token), env.at.start, env.at.finish;
    if env.fault == OnLoad then Outcome([], Failed)
    else match w.db.SessionByHash(hash)
      case None => Outcome([Tick(now), Resolve(hash)], SessionExpired)
      case Some(id) =>
        var s := w.db.sessions[id];
        if !s.IsActive(now) then
          Outcome([Tick(now), Resolve(hash), Tick(later)]
                  + Audit(env, Some(s.userID), "", EvSessionExpired, NoDetail, later), SessionExpired)
        else if env.fault == OnTouch then Outcome([Tick(now)], Failed)
        else
          Outcome([Tick(now), Resolve(hash)],
                  if env.fault == OnOwner then Failed
                  else if s.userID !in w.db.users then SessionExpired
                  else SessionLive(s.(lastSeenAt := now, idleExpiresAt := SlideTo(cfg, s, now)), w.db.users[s.userID]))
  }

  ghost function LogoutCall(cfg: Config, w: World, token: string, env: Env): Outcome {
    var now, later := env.at.start, env.at.finish;
    if env.fault == OnLoad then Outcome([], Failed)
    else match w.db.SessionByHash(cfg.hashToken(token))
      case None => Outcome([], Done)
      case Some(id) =>
        var s := w.db.sessions[id];
        var audit := Audit(env, Some(s.userID), "", EvLogout, NoDetail, later);
        if s.revokedAt.Some? then Outcome([Tick(later)] + audit, Done)
        else if env.fault == OnRevoke then Outcome([Tick(now)], Failed)
        else Outcome([Tick(now), Revoke(s.id), Tick(later)] + audit, Done)
  }

  function PurgeCall(env: Env): Outcome {
    if env.fault == OnPurge then Outcome([Tick(env.at.start)], Failed)
    else Outcome([Tick(env.at.start), Purge], Done)
  }

  // ----- Second factor enrollment -----

  function BeginCall(w: World, userID: int, env: Env): Outcome {
    if env.fault == OnLoad || userID !in w.db.users then Outcome([], Failed)
    else if w.db.users[userID].totpEnabled then Outcome([], AlreadyEnabled)
    else if env.fault == OnRandom || env.fault == OnEncrypt || env.fault == OnPersist then Outcome([], Failed)
    else Outcome([BeginEnrollment(userID, env.sealedSecret)], Enrolled(env.secret))
  }

  function ConfirmCall(cfg: Config, w: World, userID: int, code: string, keep: int, env: Env): Outcome {
    var now := env.at.start;
    if env.fault == OnLoad || userID !in w.db.users then Outcome([], Failed)
    else
      var u := w.db.users[userID];
      if u.totpEnabled then Outcome([], AlreadyEnabled)
      else if !u.HasPendingEnrollment() then Outcome([], NoPending)
      else if cfg.decrypt(u.totpSecret).None? then Outcome([], Failed)
      else if !cfg.CodeMatches(u, code, now) then
        Outcome([Tick(now)] + Audit(env, Some(u.id), u.username, EvTOTPFailed, EnrollmentFailed, now), InvalidTOTPCode)
      else if env.fault.OnTx? then Outcome([Tick(now)], Failed)
      else Outcome([Tick(now), EnableTOTP(userID, code, keep, env.at.inner)], Done)
  }

  function CancelCall(w: World, userID: int, env: Env): Outcome {
    if env.fault == OnLoad || userID !in w.db.users then Outcome([], Failed)
    else if !w.db.users[userID].HasPendingEnrollment() then Outcome([], Done)
    else if env.fault == OnPersist then Outcome([], Failed)
    else Outcome([CancelEnrollment(userID)], Done)
  }

  function DisableCall(cfg: Config, w: World, userID: int, code: string, keep: int, env: Env): Outcome {
    var now := env.at.start;
    if env.fault == OnLoad || userID !in w.db.users then Outcome([], Failed)
    else
      var u := w.db.users[userID];
      if !u.totpEnabled then Outcome([], NotEnabled)
      else if cfg.decrypt(u.totpSecret).None? then Outcome([], Failed)
      else if !cfg.CodeMatches(u, code, now) then
        Outcome([Tick(now)] + Audit(env, Some(u.id), u.username, EvTOTPFailed, DisableFailed, now), InvalidTOTPCode)
      else if env.fault.OnTx? then Outcome([Tick(now)], Failed)
      else Outcome([Tick(now), DisableTOTP(userID, code, keep, env.at.inner)], Done)
  }

  ghost function Serve(cfg: Config, w: World, c: Call, env: Env): Outcome {
    match c
    case CRegister(username, password) => RegisterCall(cfg, w, username, password, env)
    case CAuthenticate(username, password, info) => AuthenticateCall(cfg, w, username, password, info, env)
    case CComplete(cid, code, info) => CompleteCall(cfg, w, cid, code, info, env)
    case CAbandon(cid) => AbandonCall(cid)
    case CResolve(token) => ResolveCall(cfg, w, token, env)
    case CLogout(token) => LogoutCall(cfg, w, token, env)
    case CBegin(userID) => BeginCall(w, userID, env)
    case CConfirm(userID, code, keep) => ConfirmCall(cfg, w, userID, code, keep, env)
    case CCancel(userID) => CancelCall(w, userID, env)
    case CDisable(userID, code, keep) => DisableCall(cfg, w, userID, code, keep, env)
    case CPurge => PurgeCall(env)
  }
}
