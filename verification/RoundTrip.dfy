/** What one call hands out a later one accepts: accounts, tokens, and, whatever others do meanwhile, challenges and secrets. */
module RoundTrip {
  import opened Domain
  import opened Machine
  import opened Invariants
  import opened GuessRate
  import opened Tokens
  import opened Calls
  import opened Refinement
  import opened CallRuns
  import opened ShellLaw
  import opened Verdicts
  import Lockout
  import Service

  lemma RegisteredRow(cfg: Config, w: World, username: string, password: string, env: Env)
    requires cfg.Valid() && Sound(cfg, w) && EnvOK(cfg, w, CRegister(username, password), env)
    requires Serve(cfg, w, CRegister(username, password), env).response.Created?
    ensures
      var c := CRegister(username, password);
      var u, w' := Serve(cfg, w, c, env).response.user, After(cfg, w, c, env);
      && u == User(w.db.nextUserID, cfg.normalize(username), env.newHash, "", false, None, 0, None, None, env.at.start)
      && u.id in w'.db.users && w'.db.users[u.id] == u && w'.db.UserNamed(u.username) == Some(u.id)
  {
    hide Apply, Enabled, Run, Legal;
    Service.Registered(cfg, w, env.at.start, cfg.normalize(username), env.newHash);
  }

  /** A new account signs in with the password it was registered with. */
  lemma RegisterThenSignIn(cfg: Config, w: World, username: string, password: string, info: string, e1: Env, e2: Env)
    requires cfg.Valid() && Sound(cfg, w) && EnvOK(cfg, w, CRegister(username, password), e1)
    requires Serve(cfg, w, CRegister(username, password), e1).response.Created?
    requires EnvOK(cfg, After(cfg, w, CRegister(username, password), e1), CAuthenticate(username, password, info), e2)
    requires e2.fault == NoFault
    ensures
      var u := Serve(cfg, w, CRegister(username, password), e1).response.user;
      var registered := After(cfg, w, CRegister(username, password), e1);
      var r := Serve(cfg, registered, CAuthenticate(username, password, info), e2).response;
      r.SignedIn? && r.user.id == u.id && r.session.userID == u.id && r.token == e2.token && r.previous == None
  {
    hide Sound, Run, Legal, After;
    RegisteredRow(cfg, w, username, password, e1);
  }

  /** Without a storage fault, the token of a login resolves to its user exactly within the idle timeout. */
  lemma SignInThenResolve(cfg: Config, w: World, c: Call, e1: Env, e2: Env)
    requires cfg.Valid() && Sound(cfg, w) && EnvOK(cfg, w, c, e1) && Serve(cfg, w, c, e1).response.SignedIn?
    requires EnvOK(cfg, After(cfg, w, c, e1), CResolve(e1.token), e2) && e2.fault == NoFault
    ensures
      var first := Serve(cfg, w, c, e1).response;
      var second := Serve(cfg, After(cfg, w, c, e1), CResolve(first.token), e2).response;
      && (second.SessionLive? <==> e2.at.start < e1.at.inner + cfg.idleTimeout)
      && (second.SessionLive? ==> second.user.id == first.user.id && second.session.userID == first.user.id)
  {
    hide Serve, Run, Legal, Apply, Enabled, Moved, EnvOK;
    var tr, hash := Serve(cfg, w, c, e1).effects, cfg.hashToken(e1.token);
    SignedInByLogin(cfg, w, c, e1);
    var init, last := tr[..|tr| - 1], tr[|tr| - 1];
    CallLegal(cfg, w, c, e1);
    LastLabel(cfg, w, tr);
    SoundAlong(cfg, w, init);
    SessionFollows(cfg, Run(cfg, w, init), last, hash);
    ResolveNewSession(cfg, After(cfg, w, c, e1), last, Run(cfg, w, init).db.nextSessionID, e1.token, e2);
  }

  lemma LastLabel(cfg: Config, w: World, tr: seq<Effect>)
    requires Legal(cfg, w, tr) && tr != []
    ensures
      var init := tr[..|tr| - 1];
      && Legal(cfg, w, init) && Enabled(cfg, Run(cfg, w, init), tr[|tr| - 1])
      && Run(cfg, w, tr) == Apply(cfg, Run(cfg, w, init), tr[|tr| - 1])
  {
    hide Apply, Enabled;
  }

  lemma ResolveNewSession(cfg: Config, w: World, login: Effect, id: int, token: string, env: Env)
    requires cfg.Valid() && Sound(cfg, w) && EnvOK(cfg, w, CResolve(token), env) && env.fault == NoFault && login.Login?
    requires SessionOf(w, cfg.hashToken(token)) ==
      Some(NewSession(cfg, login.userID, cfg.hashToken(token), login.issuedAt, login.info).(id := id))
    ensures
      var r := Serve(cfg, w, CResolve(token), env).response;
      && (r.SessionLive? <==> env.at.start < login.issuedAt + cfg.idleTimeout)
      && (r.SessionLive? ==> r.user.id == login.userID && r.session.userID == login.userID)
  {
    var sid := w.db.SessionByHash(cfg.hashToken(token)).value;
    assert SessionRow(cfg, w, sid);
    assert UserRow(cfg, w.db, login.userID);
  }

  // ----- A challenge, and then its code -----

  /** The challenge is stored for the user until the deadline. */
  ghost predicate Held(w: World, id: string, userID: int, expiresAt: Time) {
    id in w.spent && id in w.challenges && w.challenges[id].userID == userID && w.challenges[id].expiresAt == expiresAt
  }

  /** The call does not use the challenge up: it is about another one, or its code was rejected with attempts left. */
  ghost predicate SparesChallenge(cfg: Config, w: World, step: Step, id: string) {
    match step.call
    case CComplete(cid, _, _) => cid == id ==> Serve(cfg, w, step.call, step.env).response.BadCode?
    case CAbandon(cid) => cid != id
    case _ => true
  }

  ghost predicate AllSpareChallenge(cfg: Config, w: World, steps: seq<Step>, id: string)
    requires cfg.Valid() && Sound(cfg, w) && StepsOK(cfg, w, steps)
    decreases |steps|
  {
    steps == [] ||
    var init := steps[..|steps| - 1];
    AllSpareChallenge(cfg, w, init, id) && SparesChallenge(cfg, AfterSteps(cfg, w, init), steps[|steps| - 1], id)
  }

  predicate Drops(e: Effect, id: string) {
    e == DropChallenge(id) || Redeems(e, id)
  }

  lemma StaysHeld(cfg: Config, w: World, e: Effect, id: string, userID: int, expiresAt: Time)
    requires Enabled(cfg, w, e) && Held(w, id, userID, expiresAt) && !Drops(e, id) && w.clock < expiresAt
    ensures Held(Apply(cfg, w, e), id, userID, expiresAt)
  {
  }

  lemma {:induction false} HeldAlong(cfg: Config, w: World, tr: seq<Effect>, id: string, userID: int, expiresAt: Time)
    requires cfg.Valid() && Sound(cfg, w) && Legal(cfg, w, tr) && Held(w, id, userID, expiresAt)
    requires (forall i | 0 <= i < |tr| :: !Drops(tr[i], id)) && Run(cfg, w, tr).clock < expiresAt
    ensures Held(Run(cfg, w, tr), id, userID, expiresAt)
    decreases |tr|
  {
    hide Apply, Enabled, Sound, Held, Drops;
    if tr != [] {
      var init, e := tr[..|tr| - 1], tr[|tr| - 1];
      ClockAdvances(cfg, Run(cfg, w, init), e);
      HeldAlong(cfg, w, init, id, userID, expiresAt);
      StaysHeld(cfg, Run(cfg, w, init), e, id, userID, expiresAt);
    }
  }

  lemma LoginDropsNothing(cfg: Config, w: World, u: User, password: string, info: string, env: Env, id: string)
    ensures
      var es := PasswordStep(cfg, w, u, password, info, env).effects;
      forall i | 0 <= i < |es| :: !Drops(es[i], id)
  {
  }

  lemma AuthenticateDropsNothing(cfg: Config, w: World, username: string, password: string, info: string, env: Env,
                                 id: string)
    ensures
      var es := AuthenticateCall(cfg, w, username, password, info, env).effects;
      forall i | 0 <= i < |es| :: !Drops(es[i], id)
  {
    hide PasswordStep, Run, Legal, Apply, Enabled;
    match w.db.UserNamed(cfg.normalize(username)) {
      case Some(uid) =>
        LoginDropsNothing(cfg, w, w.db.users[uid], password, info, env, id);
        LoginDropsNothing(cfg, w, Lockout.Unlocked(w.db.users[uid]), password, info, env, id);
      case None =>
    }
  }

  lemma CodeDropsNothing(cfg: Config, w: World, cid: string, code: string, info: string, env: Env, id: string)
    requires cid == id ==> CompleteCall(cfg, w, cid, code, info, env).response.BadCode?
    ensures
      var es := CompleteCall(cfg, w, cid, code, info, env).effects;
      forall i | 0 <= i < |es| :: !Drops(es[i], id)
  {
    hide Run, Legal, Apply, Enabled;
  }

  lemma SparingDropsNothing(cfg: Config, w: World, step: Step, id: string)
    requires SparesChallenge(cfg, w, step, id)
    ensures
      var es := Serve(cfg, w, step.call, step.env).effects;
      forall i | 0 <= i < |es| :: !Drops(es[i], id)
  {
    hide AuthenticateCall, CompleteCall, Run, Legal, Apply, Enabled;
    match step.call {
      case CAuthenticate(username, password, info) =>
        AuthenticateDropsNothing(cfg, w, username, password, info, step.env, id);
      case CComplete(cid, code, info) => CodeDropsNothing(cfg, w, cid, code, info, step.env, id);
      case _ =>
    }
  }

  lemma {:induction false} HeldThroughCalls(cfg: Config, w: World, steps: seq<Step>, id: string, userID: int,
                                            expiresAt: Time)
    requires cfg.Valid() && Sound(cfg, w) && StepsOK(cfg, w, steps) && AllSpareChallenge(cfg, w, steps, id)
    requires Held(w, id, userID, expiresAt) && AfterSteps(cfg, w, steps).clock < expiresAt
    ensures Held(AfterSteps(cfg, w, steps), id, userID, expiresAt)
    decreases |steps|
  {
    hide Apply, Enabled, Sound, EnvOK, Serve, Held, Drops, Legal, Run;
    if steps != [] {
      var init, last := steps[..|steps| - 1], steps[|steps| - 1];
      var before := AfterSteps(cfg, w, init);
      HeldThroughCalls(cfg, w, init, id, userID, expiresAt);
      CallLegal(cfg, before, last.call, last.env);
      SparingDropsNothing(cfg, before, last, id);
      HeldAlong(cfg, before, Serve(cfg, before, last.call, last.env).effects, id, userID, expiresAt);
    }
  }

  /** The account can finish a login with this code at this instant. */
  predicate Accepts(cfg: Config, u: User, code: string, now: Time) {
    !u.IsLocked(now) && u.totpEnabled && cfg.CodeMatches(u, code, now)
  }

  lemma IssuedIsHeld(cfg: Config, w: World, username: string, password: string, info: string, env: Env)
    requires cfg.Valid() && Sound(cfg, w) && EnvOK(cfg, w, CAuthenticate(username, password, info), env)
    requires Serve(cfg, w, CAuthenticate(username, password, info), env).response.CodeRequired?
    ensures
      var c := CAuthenticate(username, password, info);
      var r := Serve(cfg, w, c, env).response;
      Held(After(cfg, w, c, env), r.challengeID, r.user.id, env.at.start + cfg.challengeTTL)
  {
    hide Run, Legal, Apply, Enabled, Serve, After, UsersOK, SessionsOK, LogOK, LockExcludesSessions, EnvOK, FailureCounted,
         OthersKept, OthersSwept, RowOnly, AllKept, Wrote;
    if !ChecksPassword(cfg, w, username, env) {
      RefusedVerdict(cfg, w, username, password, info, env);
    } else {
      match cfg.verify(w.db.users[w.db.UserNamed(cfg.normalize(username)).value].passwordHash, password) {
        case Match => RightPasswordVerdict(cfg, w, username, password, info, env);
        case Mismatch => WrongPasswordVerdict(cfg, w, username, password, info, env);
        case Broken => BrokenHashVerdict(cfg, w, username, password, info, env);
      }
    }
  }

  /** The session is stored under the hash, and answers exactly within the idle timeout. */
  ghost predicate Serves(cfg: Config, w: World, hash: string, s: Session) {
    && SessionOf(w, hash) == Some(s)
    && forall t :: Answers(w, hash, t) <==> t < s.issuedAt + cfg.idleTimeout
  }

  lemma LoggedInServes(cfg: Config, w: World, w': World, u: User, info: string, env: Env, r: Response)
    requires cfg.Valid() && Sound(cfg, w') && LoggedInBy(cfg, w, w', u, info, env, r)
    ensures Serves(cfg, w', cfg.hashToken(env.token), r.session)
  {
    hide UsersOK, ChallengesOK, LogOK, LockExcludesSessions, OthersKept, Wrote, SessionRow;
    assert r.session.id in w'.db.sessions;
  }

  /**
   * A password step that asks for a code, then any calls by anybody that do not use the challenge up, then a code that
   * the account accepts, before the challenge expires: it signs the user in.
   */
  lemma PasswordThenCode(cfg: Config, w: World, username: string, password: string, info: string, e1: Env,
                         steps: seq<Step>, code: string, info2: string, e2: Env)
    requires cfg.Valid() && Sound(cfg, w) && EnvOK(cfg, w, CAuthenticate(username, password, info), e1)
    requires Serve(cfg, w, CAuthenticate(username, password, info), e1).response.CodeRequired?
    requires
      var w1 := After(cfg, w, CAuthenticate(username, password, info), e1);
      var r := Serve(cfg, w, CAuthenticate(username, password, info), e1).response;
      && StepsOK(cfg, w1, steps) && AllSpareChallenge(cfg, w1, steps, r.challengeID)
      && var w2 := AfterSteps(cfg, w1, steps);
         && EnvOK(cfg, w2, CComplete(r.challengeID, code, info2), e2) && e2.fault == NoFault
         && e2.at.find < e1.at.start + cfg.challengeTTL
         && (r.user.id in w2.db.users ==> Accepts(cfg, w2.db.users[r.user.id], code, e2.at.start))
    ensures
      var r := Serve(cfg, w, CAuthenticate(username, password, info), e1).response;
      var w2 := AfterSteps(cfg, After(cfg, w, CAuthenticate(username, password, info), e1), steps);
      var c := CComplete(r.challengeID, code, info2);
      var last, w3 := Serve(cfg, w2, c, e2).response, After(cfg, w2, c, e2);
      && r.user.id in w2.db.users && LoggedInBy(cfg, w2, w3, w2.db.users[r.user.id], info2, e2, last)
      && r.challengeID !in w3.challenges
      && Serves(cfg, w3, cfg.hashToken(e2.token), last.session)
  {
    hide Run, Legal, Apply, Enabled, Serve, After, UsersOK, SessionsOK, LogOK, LockExcludesSessions, StepsOK,
         AllSpareChallenge, FailureCounted, OthersKept, Wrote, OthersSwept, RowOnly, AllKept, UsersKept, SessionsKept;
    var r := Serve(cfg, w, CAuthenticate(username, password, info), e1).response;
    var w1 := After(cfg, w, CAuthenticate(username, password, info), e1);
    var w2 := AfterSteps(cfg, w1, steps);
    IssuedIsHeld(cfg, w, username, password, info, e1);
    HeldThroughCalls(cfg, w1, steps, r.challengeID, r.user.id, e1.at.start + cfg.challengeTTL);
    CodeVerdict(cfg, w2, r.challengeID, code, info2, e2);
    var c := CComplete(r.challengeID, code, info2);
    LoggedInServes(cfg, w2, After(cfg, w2, c, e2), w2.db.users[r.user.id], info2, e2, Serve(cfg, w2, c, e2).response);
  }

  // ----- An enrollment, and then its code -----

  /** An enrollment of the user waits for a code of this secret. */
  ghost predicate Enrolling(cfg: Config, w: World, userID: int, secret: string) {
    && userID in w.db.users && w.db.users[userID].HasPendingEnrollment()
    && cfg.decrypt(w.db.users[userID].totpSecret) == Some(secret)
  }

  /** The call does not end or replace the user's pending enrollment. */
  ghost predicate SparesEnrollment(cfg: Config, w: World, step: Step, userID: int) {
    var r := Serve(cfg, w, step.call, step.env).response;
    match step.call
    case CBegin(id) => id == userID ==> !r.Enrolled?
    case CCancel(id) => id == userID ==> !r.Done?
    case CConfirm(id, _, _) => id == userID ==> !r.Done?
    case _ => true
  }

  ghost predicate AllSpareEnrollment(cfg: Config, w: World, steps: seq<Step>, userID: int)
    requires cfg.Valid() && Sound(cfg, w) && StepsOK(cfg, w, steps)
    decreases |steps|
  {
    steps == [] ||
    var init := steps[..|steps| - 1];
    AllSpareEnrollment(cfg, w, init, userID) && SparesEnrollment(cfg, AfterSteps(cfg, w, init), steps[|steps| - 1], userID)
  }

  predicate Enrolls(e: Effect, userID: int) {
    (e.BeginEnrollment? || e.CancelEnrollment? || e.EnableTOTP?) && e.userID == userID
  }

  lemma StaysEnrolling(cfg: Config, w: World, e: Effect, userID: int, secret: string)
    requires cfg.Valid() && Sound(cfg, w) && Enabled(cfg, w, e) && Enrolling(cfg, w, userID, secret) && !Enrolls(e, userID)
    ensures Enrolling(cfg, Apply(cfg, w, e), userID, secret)
  {
    hide Apply, Run, Legal;
    UserFollows(cfg, w, e, userID);
  }

  lemma {:induction false} EnrollingAlong(cfg: Config, w: World, tr: seq<Effect>, userID: int, secret: string)
    requires cfg.Valid() && Sound(cfg, w) && Legal(cfg, w, tr) && Enrolling(cfg, w, userID, secret)
    requires forall i | 0 <= i < |tr| :: !Enrolls(tr[i], userID)
    ensures Enrolling(cfg, Run(cfg, w, tr), userID, secret)
    decreases |tr|
  {
    hide Apply, Enabled, Sound, Enrolling, Enrolls;
    if tr != [] {
      var init, e := tr[..|tr| - 1], tr[|tr| - 1];
      EnrollingAlong(cfg, w, init, userID, secret);
      SoundAlong(cfg, w, init);
      StaysEnrolling(cfg, Run(cfg, w, init), e, userID, secret);
    }
  }

  /** The labels of the calls that are not about enrollments enroll nobody. */
  lemma LoginEnrollsNobody(cfg: Config, w: World, u: User, password: string, info: string, env: Env, userID: int)
    ensures
      var es := PasswordStep(cfg, w, u, password, info, env).effects;
      forall i | 0 <= i < |es| :: !Enrolls(es[i], userID)
  {
  }

  lemma AuthenticateEnrollsNobody(cfg: Config, w: World, username: string, password: string, info: string, env: Env,
                                  userID: int)
    ensures
      var es := AuthenticateCall(cfg, w, username, password, info, env).effects;
      forall i | 0 <= i < |es| :: !Enrolls(es[i], userID)
  {
    hide PasswordStep, Run, Legal, Apply, Enabled;
    match w.db.UserNamed(cfg.normalize(username)) {
      case Some(uid) =>
        LoginEnrollsNobody(cfg, w, w.db.users[uid], password, info, env, userID);
        LoginEnrollsNobody(cfg, w, Lockout.Unlocked(w.db.users[uid]), password, info, env, userID);
      case None =>
    }
  }

  lemma CodeEnrollsNobody(cfg: Config, w: World, cid: string, code: string, info: string, env: Env, userID: int)
    ensures
      var es := CompleteCall(cfg, w, cid, code, info, env).effects;
      forall i | 0 <= i < |es| :: !Enrolls(es[i], userID)
  {
    hide Run, Legal, Apply, Enabled;
  }

  lemma SparingEnrollsNothing(cfg: Config, w: World, step: Step, userID: int)
    requires SparesEnrollment(cfg, w, step, userID)
    requires userID in w.db.users ==> w.db.users[userID].HasPendingEnrollment()
    ensures
      var es := Serve(cfg, w, step.call, step.env).effects;
      forall i | 0 <= i < |es| :: !Enrolls(es[i], userID)
  {
    hide AuthenticateCall, CompleteCall, Run, Legal, Apply, Enabled;
    match step.call {
      case CAuthenticate(username, password, info) =>
        AuthenticateEnrollsNobody(cfg, w, username, password, info, step.env, userID);
      case CComplete(cid, code, info) => CodeEnrollsNobody(cfg, w, cid, code, info, step.env, userID);
      case _ =>
    }
  }

  lemma {:induction false} EnrollingThroughCalls(cfg: Config, w: World, steps: seq<Step>, userID: int, secret: string)
    requires cfg.Valid() && Sound(cfg, w) && StepsOK(cfg, w, steps) && AllSpareEnrollment(cfg, w, steps, userID)
    requires Enrolling(cfg, w, userID, secret)
    ensures Enrolling(cfg, AfterSteps(cfg, w, steps), userID, secret)
    decreases |steps|
  {
    hide Apply, Enabled, Sound, EnvOK, Serve, Enrolls, Legal, Run;
    if steps != [] {
      var init, last := steps[..|steps| - 1], steps[|steps| - 1];
      var before := AfterSteps(cfg, w, init);
      EnrollingThroughCalls(cfg, w, init, userID, secret);
      CallLegal(cfg, before, last.call, last.env);
      SparingEnrollsNothing(cfg, before, last, userID);
      EnrollingAlong(cfg, before, Serve(cfg, before, last.call, last.env).effects, userID, secret);
    }
  }

  /** Exactly a code that the secret yields turns the second factor on, with that secret; another one changes nothing. */
  ghost predicate Confirms(cfg: Config, w: World, w': World, userID: int, secret: string, code: string, keep: int,
                           now: Time, r: Response) {
    if cfg.codeOk(secret, code, now) then
      && r == Done && userID in w.db.users && userID in w'.db.users && OthersRevoked(w, w', userID, keep)
      && w'.db.users[userID] == w.db.users[userID].(totpEnabled := true, totpConfirmedAt := Some(now))
      && cfg.decrypt(w'.db.users[userID].totpSecret) == Some(secret)
    else r == InvalidTOTPCode && Enrolling(cfg, w', userID, secret)
  }

  lemma ConfirmEnrolling(cfg: Config, w: World, userID: int, secret: string, code: string, keep: int, env: Env)
    requires cfg.Valid() && Sound(cfg, w) && EnvOK(cfg, w, CConfirm(userID, code, keep), env) && env.fault == NoFault
    requires Enrolling(cfg, w, userID, secret)
    ensures
      var c := CConfirm(userID, code, keep);
      Confirms(cfg, w, After(cfg, w, c, env), userID, secret, code, keep, env.at.start, Serve(cfg, w, c, env).response)
  {
    hide Run, Legal, Apply, Enabled, Serve, After, SessionsOK, ChallengesOK, LogOK, LockExcludesSessions, OthersRevoked,
         Wrote;
    assert UserRow(cfg, w.db, userID);
    ConfirmVerdict(cfg, w, userID, code, keep, env);
  }

  /**
   * An enrollment that hands out a secret, then any calls by anybody that do not end or replace it, mistyped codes
   * included, then a code: the second factor is turned on exactly if the secret yields that code.
   */
  lemma EnrollThenConfirm(cfg: Config, w: World, userID: int, e1: Env, steps: seq<Step>, w2: World, code: string, keep: int,
                          e2: Env)
    requires cfg.Valid() && Sound(cfg, w) && EnvOK(cfg, w, CBegin(userID), e1)
    requires
      var r := Serve(cfg, w, CBegin(userID), e1).response;
      r.Enrolled? && r.secret != ""
    requires
      var w1 := After(cfg, w, CBegin(userID), e1);
      StepsOK(cfg, w1, steps) && AllSpareEnrollment(cfg, w1, steps, userID) && w2 == AfterSteps(cfg, w1, steps)
    requires Sound(cfg, w2) && EnvOK(cfg, w2, CConfirm(userID, code, keep), e2) && e2.fault == NoFault
    ensures
      var secret, c := Serve(cfg, w, CBegin(userID), e1).response.secret, CConfirm(userID, code, keep);
      Confirms(cfg, w2, After(cfg, w2, c, e2), userID, secret, code, keep, e2.at.start, Serve(cfg, w2, c, e2).response)
  {
    hide Run, Legal, Apply, Enabled, Serve, After, SessionsOK, ChallengesOK, LogOK, LockExcludesSessions, StepsOK,
         AllSpareEnrollment, OthersRevoked, Wrote, Confirms;
    var secret := Serve(cfg, w, CBegin(userID), e1).response.secret;
    BeginVerdict(cfg, w, userID, e1);
    EnrollingThroughCalls(cfg, After(cfg, w, CBegin(userID), e1), steps, userID, secret);
    ConfirmEnrolling(cfg, w2, userID, secret, code, keep, e2);
  }
}
