/** The guessing rate in terms of answers: every rejected password or code is a counted guess, and nothing else is. */
module Rejections {
  import opened Domain
  import opened Lockout
  import opened Machine
  import opened Invariants
  import opened GuessRate
  import opened AtomicChecks
  import opened Calls
  import opened CallRuns

  /** The call was told that its password or its code for this account is wrong, or that it was the last wrong one. */
  ghost predicate Rejects(cfg: Config, w: World, step: Step, userID: int) {
    var r := Serve(cfg, w, step.call, step.env).response;
    && Target(cfg, w, step.call) == Some(userID) && userID in w.db.users
    && (r.BadCredentials? || r.BadCode? || (r.AccountLocked? && !w.db.users[userID].IsLocked(step.env.at.start)))
  }

  /** The rejected answers about an account in a sequence of calls. */
  ghost function Rejected(cfg: Config, w: World, steps: seq<Step>, userID: int): nat
    requires cfg.Valid() && Sound(cfg, w) && StepsOK(cfg, w, steps)
    decreases |steps|
  {
    if steps == [] then 0
    else
      var init, last := steps[..|steps| - 1], steps[|steps| - 1];
      Rejected(cfg, w, init, userID) + if Rejects(cfg, AfterSteps(cfg, w, init), last, userID) then 1 else 0
  }

  /** Nobody was given a session of the account. */
  ghost predicate NoSignIn(cfg: Config, w: World, steps: seq<Step>, userID: int)
    requires cfg.Valid() && Sound(cfg, w) && StepsOK(cfg, w, steps)
    decreases |steps|
  {
    steps == [] ||
    var init, last := steps[..|steps| - 1], steps[|steps| - 1];
    var r := Serve(cfg, AfterSteps(cfg, w, init), last.call, last.env).response;
    NoSignIn(cfg, w, init, userID) && (r.SignedIn? ==> r.user.id != userID)
  }

  // ----- One call -----

  /** The labels of an outcome: one guess if it is a rejection, none otherwise; a login only if it signs in. */
  predicate Tallies(o: Outcome, userID: int, rejected: bool) {
    && Guesses(o.effects, userID) == (if rejected then 1 else 0)
    && ((o.response.SignedIn? ==> o.response.user.id != userID) ==> NoLogin(o.effects, userID))
  }

  lemma CountedTallies(cfg: Config, u: User, cause: Cause, env: Env, userID: int)
    ensures
      var o := CountedFailure(cfg, u, cause, env);
      Tallies(o, userID, u.id == userID && !o.response.Failed?) && !o.response.SignedIn?
  {
    var tick := Tick(env.at.finish);
    assert [tick] + [CountFailure(u.id, cause, env.at.inner)] == [tick, CountFailure(u.id, cause, env.at.inner)];
    GuessesOver([tick], [CountFailure(u.id, cause, env.at.inner)], userID);
    NoGuess([tick], userID);
    assert [CountFailure(u.id, cause, env.at.inner)][..0] == [];
  }

  lemma LoginTallies(cfg: Config, w: World, u: User, proof: Proof, info: string, env: Env, userID: int)
    ensures Tallies(FinishLogin(cfg, w, u, proof, info, env), userID, false)
  {
    hide Guesses, Run, Legal, Apply, Enabled;
    NoGuess(FinishLogin(cfg, w, u, proof, info, env).effects, userID);
  }

  /** Labels before and after that neither count nor log in. */
  predicate Quiet(tr: seq<Effect>) {
    forall i | 0 <= i < |tr| :: !tr[i].CountFailure? && !tr[i].Login?
  }

  lemma QuietTallies(o: Outcome, userID: int)
    requires Quiet(o.effects)
    ensures Tallies(o, userID, false)
  {
    NoGuess(o.effects, userID);
  }

  lemma TalliesAround(before: seq<Effect>, o: Outcome, after: seq<Effect>, userID: int, rejected: bool)
    requires Quiet(before) && Quiet(after) && Tallies(o, userID, rejected)
    ensures Tallies(Outcome(before + o.effects + after, o.response), userID, rejected)
    ensures Tallies(Outcome(before + o.effects, o.response), userID, rejected)
  {
    hide Guesses;
    GuessesOver(before, o.effects, userID);
    GuessesOver(before + o.effects, after, userID);
    NoGuess(before, userID);
    NoGuess(after, userID);
  }

  lemma PasswordTallies(cfg: Config, w: World, u: User, password: string, info: string, env: Env, userID: int)
    ensures
      var o := PasswordStep(cfg, w, u, password, info, env);
      Tallies(o, userID, u.id == userID && (o.response.BadCredentials? || o.response.AccountLocked?))
  {
    hide Guesses, NoLogin, CountedFailure, FinishLogin;
    CountedAnswers(cfg, u, WrongPassword(password), env);
    CountedTallies(cfg, u, WrongPassword(password), env, userID);
    LoginAnswers(cfg, w, u, ByPassword(password), info, env);
    LoginTallies(cfg, w, u, ByPassword(password), info, env, userID);
    var rehashed := u.(passwordHash := env.newHash);
    LoginAnswers(cfg, w, rehashed, ByPassword(password), info, env);
    LoginTallies(cfg, w, rehashed, ByPassword(password), info, env, userID);
    var rehash := [Rehash(u.id, env.newHash, password)];
    TalliesAround(rehash, FinishLogin(cfg, w, rehashed, ByPassword(password), info, env), [], userID, false);
    var o := PasswordStep(cfg, w, u, password, info, env);
    if Quiet(o.effects) {
      QuietTallies(o, userID);
    }
  }

  lemma CountedAnswers(cfg: Config, u: User, cause: Cause, env: Env)
    ensures
      var r := CountedFailure(cfg, u, cause, env).response;
      if cause.WrongPassword? then r.BadCredentials? || r.AccountLocked? || r.Failed?
      else r.BadCode? || r.AccountLocked? || r.Failed?
  {
  }

  lemma LoginAnswers(cfg: Config, w: World, u: User, proof: Proof, info: string, env: Env)
    ensures
      var r := FinishLogin(cfg, w, u, proof, info, env).response;
      r.SignedIn? || r.Failed?
  {
  }

  lemma AuthenticateTallies(cfg: Config, w: World, username: string, password: string, info: string, env: Env, userID: int)
    requires Sound(cfg, w)
    ensures
      var c := CAuthenticate(username, password, info);
      Tallies(Serve(cfg, w, c, env), userID, Rejects(cfg, w, Step(c, env), userID))
  {
    hide Guesses, NoLogin, PasswordStep, SessionsOK, ChallengesOK, LogOK, LockExcludesSessions;
    var o := AuthenticateCall(cfg, w, username, password, info, env);
    if Quiet(o.effects) {
      QuietTallies(o, userID);
    }
    match w.db.UserNamed(cfg.normalize(username)) {
      case Some(id) =>
        var u := w.db.users[id];
        assert UserRow(cfg, w.db, id);
        PasswordTallies(cfg, w, u, password, info, env, userID);
        PasswordTallies(cfg, w, Unlocked(u), password, info, env, userID);
        var tick, clear := [Tick(env.at.start)], [Tick(env.at.start), ClearLock(u.id)];
        var now := PasswordStep(cfg, w, u, password, info, env);
        var cleared := PasswordStep(cfg, w, Unlocked(u), password, info, env);
        TalliesAround(tick, now, [], userID,
                      u.id == userID && (now.response.BadCredentials? || now.response.AccountLocked?));
        TalliesAround(clear, cleared, [], userID,
                      u.id == userID && (cleared.response.BadCredentials? || cleared.response.AccountLocked?));
        PasswordAnswers(cfg, w, u, password, info, env);
        PasswordAnswers(cfg, w, Unlocked(u), password, info, env);
      case None =>
    }
  }

  lemma PasswordAnswers(cfg: Config, w: World, u: User, password: string, info: string, env: Env)
    ensures !PasswordStep(cfg, w, u, password, info, env).response.BadCode?
  {
  }

  lemma CompleteTallies(cfg: Config, w: World, cid: string, code: string, info: string, env: Env, userID: int)
    requires Sound(cfg, w)
    ensures
      var c := CComplete(cid, code, info);
      Tallies(Serve(cfg, w, c, env), userID, Rejects(cfg, w, Step(c, env), userID))
  {
    hide Guesses, NoLogin, CountedFailure, FinishLogin, SessionsOK, LogOK, LockExcludesSessions;
    var o, r := CompleteCall(cfg, w, cid, code, info, env), env.at;
    if Quiet(o.effects) {
      QuietTallies(o, userID);
    }
    if cid in w.challenges {
      var u := w.db.users[w.challenges[cid].userID];
      assert UserRow(cfg, w.db, w.challenges[cid].userID);
      var cause, proof := WrongCode(cid, code, r.find, r.start), ByCode(cid, code, r.find, r.start);
      var counted, login := CountedFailure(cfg, u, cause, env), FinishLogin(cfg, w, u, proof, info, env);
      var ticks, retry, drop := [Tick(r.find), Tick(r.start)], [Tick(r.save), RetryChallenge(cid)], [DropChallenge(cid)];
      var rejected := u.id == userID && !counted.response.Failed?;
      CountedAnswers(cfg, u, cause, env);
      CountedTallies(cfg, u, cause, env, userID);
      LoginAnswers(cfg, w, u, proof, info, env);
      LoginTallies(cfg, w, u, proof, info, env, userID);
      TalliesAround(ticks, login, [], userID, false);
      TalliesAround(retry, counted, drop, userID, rejected);
      TalliesAround(ticks, Outcome(retry + counted.effects + drop, counted.response), [], userID, rejected);
      TalliesAround(ticks, Outcome(retry + counted.effects, counted.response), [], userID, rejected);
    }
  }

  /** Every call: one guess at the account if it is rejected about it, none otherwise. */
  lemma CallTallies(cfg: Config, w: World, c: Call, env: Env, userID: int)
    requires Sound(cfg, w)
    ensures Tallies(Serve(cfg, w, c, env), userID, Rejects(cfg, w, Step(c, env), userID))
  {
    hide Guesses, NoLogin, AuthenticateCall, CompleteCall, Sound;
    match c {
      case CAuthenticate(username, password, info) => AuthenticateTallies(cfg, w, username, password, info, env, userID);
      case CComplete(cid, code, info) => CompleteTallies(cfg, w, cid, code, info, env, userID);
      case _ => QuietTallies(Serve(cfg, w, c, env), userID);
    }
  }

  // ----- Sequences of calls -----

  /** Along any calls the guesses at an account are exactly its rejected answers. */
  lemma {:induction false} GuessesAreRejections(cfg: Config, w: World, steps: seq<Step>, userID: int)
    requires cfg.Valid() && Sound(cfg, w) && StepsOK(cfg, w, steps)
    ensures Guesses(TraceOf(cfg, w, steps), userID) == Rejected(cfg, w, steps, userID)
    ensures NoSignIn(cfg, w, steps, userID) ==> NoLogin(TraceOf(cfg, w, steps), userID)
    decreases |steps|
  {
    hide Serve, Sound, EnvOK, After, Guesses, Rejects;
    if steps == [] {
      NoGuess([], userID);
    } else {
      var init, last := steps[..|steps| - 1], steps[|steps| - 1];
      GuessesAreRejections(cfg, w, init, userID);
      var before := AfterSteps(cfg, w, init);
      CallTallies(cfg, before, last.call, last.env, userID);
      GuessesOver(TraceOf(cfg, w, init), Serve(cfg, before, last.call, last.env).effects, userID);
    }
  }

  /**
   * Whatever calls are made, in any order and by anybody: until somebody signs in to the account, the wrong passwords
   * and codes that are answered as such are bounded by the time that passes.
   */
  lemma RejectionsPerWindow(cfg: Config, w: World, steps: seq<Step>, userID: int)
    requires cfg.Valid() && FreshTarget(cfg, w, userID) && StepsOK(cfg, w, steps) && NoSignIn(cfg, w, steps, userID)
    ensures w.clock <= AfterSteps(cfg, w, steps).clock
    ensures
      var windows := (AfterSteps(cfg, w, steps).clock - w.clock) / cfg.lockDuration + 1;
      Rejected(cfg, w, steps, userID) <= (2 * cfg.maxAttempts - 1) * windows
  {
    hide Guesses, Rejected, NoLogin, NoSignIn, Sound, StepsOK, Legal, Run, TraceOf;
    CallsRefineMachine(cfg, w, steps);
    GuessesAreRejections(cfg, w, steps, userID);
    GuessesPerWindow(cfg, w, TraceOf(cfg, w, steps), userID);
  }

  /** With short challenges and one clock reading a check: MaxAttempts rejected answers a window, from the start on. */
  lemma PlainRejectionRate(cfg: Config, t0: Time, past: seq<Step>, steps: seq<Step>, userID: int)
    requires cfg.Valid() && cfg.ShortChallenges() && Sound(cfg, Start(t0)) && StepsOK(cfg, Start(t0), past)
    requires
      var w := AfterSteps(cfg, Start(t0), past);
      FreshTarget(cfg, w, userID) && StepsOK(cfg, w, steps) && NoSignIn(cfg, w, steps, userID)
    requires forall i | 0 <= i < |steps| :: steps[i].env.at.find == steps[i].env.at.start
    ensures
      var w := AfterSteps(cfg, Start(t0), past);
      Rejected(cfg, w, steps, userID)
        <= cfg.maxAttempts * ((AfterSteps(cfg, w, steps).clock - w.clock) / cfg.lockDuration + 1)
  {
    hide Guesses, Rejected, NoLogin, NoSignIn, Sound, StepsOK, Legal, Run, TraceOf, OneReading;
    var w := AfterSteps(cfg, Start(t0), past);
    CallsRefineMachine(cfg, Start(t0), past);
    CallsRefineMachine(cfg, w, steps);
    GuessesAreRejections(cfg, w, steps, userID);
    CallsWithOneReading(cfg, w, steps);
    RateWithOneReading(cfg, t0, TraceOf(cfg, Start(t0), past), TraceOf(cfg, w, steps), userID);
  }
}
