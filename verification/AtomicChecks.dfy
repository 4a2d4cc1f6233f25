/**
 * The plain laws under one clock reading per code check: when challenges are short and the challenge lookup and the
 * lock test see the same instant, no failure is counted late.
 */
module AtomicChecks {
  import opened Domain
  import opened Lockout
  import opened Machine
  import opened Invariants
  import opened FailureLaw
  import opened StaleLock
  import opened GuessRate
  import opened AuditReplay
  import opened Calls
  import opened CallRuns

  /** The code checks of the run read the clock once: the challenge lookup and the lock test see the same instant. */
  predicate OneReading(tr: seq<Effect>) {
    forall i | 0 <= i < |tr| && tr[i].CountFailure? && tr[i].cause.WrongCode? :: tr[i].cause.foundAt == tr[i].cause.checkedAt
  }

  /** With short challenges too, nothing is ever counted late. */
  lemma {:induction false} NeverLate(cfg: Config, w: World, tr: seq<Effect>, userID: int)
    requires cfg.Valid() && cfg.ShortChallenges() && Sound(cfg, w) && LockCoversChallenges(w)
    requires Legal(cfg, w, tr) && OneReading(tr)
    ensures LockCoversChallenges(Run(cfg, w, tr))
    ensures NoLateCount(cfg, w, tr, userID) && !CountedLate(cfg, w, tr, userID)
    ensures forall onLock :: !LateCleared(cfg, w, tr, userID, onLock)
  {
    hide Apply, Enabled;
    if tr != [] {
      var init, e := tr[..|tr| - 1], tr[|tr| - 1];
      NeverLate(cfg, w, init, userID);
      SoundAlong(cfg, w, init);
      CoverKept(cfg, Run(cfg, w, init), e);
      LateCountStraddles(cfg, Run(cfg, w, init), e, userID);
    }
  }

  /** Then conservation and replay hold outright, in every reachable state. */
  lemma LawsWithOneReading(cfg: Config, t0: Time, tr: seq<Effect>, userID: int)
    requires cfg.Valid() && cfg.ShortChallenges() && Legal(cfg, Start(t0), tr) && OneReading(tr)
    requires userID in Run(cfg, Start(t0), tr).db.users
    ensures
      var w := Run(cfg, Start(t0), tr);
      var t := Since(w.db.events, userID);
      && t.failures == cfg.maxAttempts * t.locks + w.db.users[userID].failedLoginAttempts
      && Rebuilds(w, Replay(cfg, w.db.events, userID), userID)
  {
    hide Apply, Enabled, Since, Replay, Rebuilds, Sound;
    Reachable(cfg, t0, []);
    CoverReachable(cfg, t0, []);
    NeverLate(cfg, Start(t0), tr, userID);
    PlainConservation(cfg, t0, tr, userID);
    PlainReplay(cfg, t0, tr, userID);
  }

  /** And so does the rate. */
  lemma RateWithOneReading(cfg: Config, t0: Time, past: seq<Effect>, tr: seq<Effect>, userID: int)
    requires cfg.Valid() && cfg.ShortChallenges() && Legal(cfg, Start(t0), past)
    requires FreshTarget(cfg, Run(cfg, Start(t0), past), userID)
    requires Legal(cfg, Run(cfg, Start(t0), past), tr) && NoLogin(tr, userID) && OneReading(tr)
    ensures
      var w := Run(cfg, Start(t0), past);
      Guesses(tr, userID) <= cfg.maxAttempts * ((Run(cfg, w, tr).clock - w.clock) / cfg.lockDuration + 1)
  {
    hide Apply, Enabled;
    CoverReachable(cfg, t0, past);
    NeverLate(cfg, Run(cfg, Start(t0), past), tr, userID);
    PlainRate(cfg, Run(cfg, Start(t0), past), tr, userID);
  }

  lemma JoinedReadings(a: seq<Effect>, b: seq<Effect>)
    requires OneReading(a) && OneReading(b)
    ensures OneReading(a + b)
  {
  }

  lemma PasswordReadings(cfg: Config, w: World, u: User, password: string, info: string, env: Env)
    ensures OneReading(PasswordStep(cfg, w, u, password, info, env).effects)
  {
  }

  lemma AuthenticateReadings(cfg: Config, w: World, username: string, password: string, info: string, env: Env)
    ensures OneReading(AuthenticateCall(cfg, w, username, password, info, env).effects)
  {
    hide PasswordStep, OneReading;
    var name, now := cfg.normalize(username), env.at.start;
    ShortReadings();
    match w.db.UserNamed(name) {
      case Some(id) =>
        var u := w.db.users[id];
        PasswordReadings(cfg, w, u, password, info, env);
        PasswordReadings(cfg, w, Unlocked(u), password, info, env);
        JoinedReadings([Tick(now)], PasswordStep(cfg, w, u, password, info, env).effects);
        JoinedReadings([Tick(now), ClearLock(u.id)], PasswordStep(cfg, w, Unlocked(u), password, info, env).effects);
        JoinedReadings([Tick(now)], Audit(env, Some(u.id), name, EvLoginFailed, WhileLockedOut, now));
      case None => JoinedReadings([Tick(now)], Audit(env, None, name, EvLoginFailed, UnknownUsername, now));
    }
  }

  lemma ShortReadings()
    ensures forall e: Effect | !e.CountFailure? :: OneReading([e])
    ensures forall e: Effect, f: Effect | !e.CountFailure? && !f.CountFailure? :: OneReading([e, f])
    ensures OneReading([])
  {
  }

  lemma CodeReadings(cfg: Config, w: World, cid: string, code: string, info: string, env: Env)
    requires env.at.find == env.at.start
    ensures OneReading(CompleteCall(cfg, w, cid, code, info, env).effects)
  {
  }

  lemma OneCallOneReading(cfg: Config, w: World, c: Call, env: Env)
    requires env.at.find == env.at.start
    ensures OneReading(Serve(cfg, w, c, env).effects)
  {
    hide AuthenticateCall, CompleteCall;
    match c {
      case CAuthenticate(username, password, info) => AuthenticateReadings(cfg, w, username, password, info, env);
      case CComplete(cid, code, info) => CodeReadings(cfg, w, cid, code, info, env);
      case _ =>
    }
  }

  /** Calls that read the clock at one instant each go through runs of that kind. */
  lemma {:induction false} CallsWithOneReading(cfg: Config, w: World, steps: seq<Step>)
    requires cfg.Valid() && Sound(cfg, w) && StepsOK(cfg, w, steps)
    requires forall i | 0 <= i < |steps| :: steps[i].env.at.find == steps[i].env.at.start
    ensures OneReading(TraceOf(cfg, w, steps))
  {
    hide Serve, Sound, EnvOK, After;
    if steps != [] {
      var init, last := steps[..|steps| - 1], steps[|steps| - 1];
      CallsWithOneReading(cfg, w, init);
      OneCallOneReading(cfg, AfterSteps(cfg, w, init), last.call, last.env);
    }
  }
}
