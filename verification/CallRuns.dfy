/** Sequences of service calls, and what their answers promise. */
module CallRuns {
  import opened Domain
  import opened Lockout
  import opened Machine
  import opened Invariants
  import opened Calls
  import opened Refinement
  import opened GuessRate

  datatype Step = Step(call: Call, env: Env)

  ghost function After(cfg: Config, w: World, c: Call, env: Env): (w': World)
    requires cfg.Valid() && Sound(cfg, w) && EnvOK(cfg, w, c, env)
    ensures Sound(cfg, w') && w.clock <= w'.clock
  {
    CallLegal(cfg, w, c, env);
    SoundAlong(cfg, w, Serve(cfg, w, c, env).effects);
    Run(cfg, w, Serve(cfg, w, c, env).effects)
  }

  ghost predicate StepsOK(cfg: Config, w: World, steps: seq<Step>)
    requires cfg.Valid() && Sound(cfg, w)
    decreases |steps|, 0
  {
    steps == [] ||
    var init, last := steps[..|steps| - 1], steps[|steps| - 1];
    StepsOK(cfg, w, init) && EnvOK(cfg, AfterSteps(cfg, w, init), last.call, last.env)
  }

  ghost function AfterSteps(cfg: Config, w: World, steps: seq<Step>): (w': World)
    requires cfg.Valid() && Sound(cfg, w) && StepsOK(cfg, w, steps)
    ensures Sound(cfg, w')
    decreases |steps|, 1
  {
    if steps == [] then w
    else After(cfg, AfterSteps(cfg, w, steps[..|steps| - 1]), steps[|steps| - 1].call, steps[|steps| - 1].env)
  }

  lemma OneMoreStep(cfg: Config, w: World, steps: seq<Step>, step: Step)
    requires cfg.Valid() && Sound(cfg, w) && StepsOK(cfg, w, steps)
    requires EnvOK(cfg, AfterSteps(cfg, w, steps), step.call, step.env)
    ensures StepsOK(cfg, w, steps + [step])
    ensures AfterSteps(cfg, w, steps + [step]) == After(cfg, AfterSteps(cfg, w, steps), step.call, step.env)
  {
    hide Sound, EnvOK, After;
    assert (steps + [step])[..|steps|] == steps;
  }

  /** The labels that a sequence of calls goes through. */
  ghost function TraceOf(cfg: Config, w: World, steps: seq<Step>): seq<Effect>
    requires cfg.Valid() && Sound(cfg, w) && StepsOK(cfg, w, steps)
    decreases |steps|
  {
    if steps == [] then []
    else
      var init, last := steps[..|steps| - 1], steps[|steps| - 1];
      TraceOf(cfg, w, init) + Serve(cfg, AfterSteps(cfg, w, init), last.call, last.env).effects
  }

  /** Every sequence of calls is a legal run, so everything proved of runs holds of the service. */
  lemma {:induction false} CallsRefineMachine(cfg: Config, w: World, steps: seq<Step>)
    requires cfg.Valid() && Sound(cfg, w) && StepsOK(cfg, w, steps)
    ensures Legal(cfg, w, TraceOf(cfg, w, steps))
    ensures Run(cfg, w, TraceOf(cfg, w, steps)) == AfterSteps(cfg, w, steps)
  {
    hide Apply, Enabled, Serve, Sound, EnvOK;
    if steps != [] {
      var init, last := steps[..|steps| - 1], steps[|steps| - 1];
      CallsRefineMachine(cfg, w, init);
      var before := AfterSteps(cfg, w, init);
      CallLegal(cfg, before, last.call, last.env);
      Append(cfg, w, TraceOf(cfg, w, init), Serve(cfg, before, last.call, last.env).effects);
    }
  }

  // ----- What a rejection reports -----

  /** The account that a login attempt is about. */
  ghost function Target(cfg: Config, w: World, c: Call): Option<int> {
    match c
    case CAuthenticate(username, _, _) => w.db.UserNamed(cfg.normalize(username))
    case CComplete(cid, _, _) => if cid in w.challenges then Some(w.challenges[cid].userID) else None
    case _ => None
  }

  predicate InRange(cfg: Config, r: Response) {
    r.BadCode? || r.BadCredentials? ==> 1 <= r.remaining < cfg.maxAttempts
  }

  lemma CountReports(cfg: Config, u: User, cause: Cause, env: Env)
    requires 0 <= u.failedLoginAttempts < cfg.maxAttempts
    ensures InRange(cfg, CountedFailure(cfg, u, cause, env).response)
  {
  }

  lemma PasswordReports(cfg: Config, w: World, u: User, password: string, info: string, env: Env)
    requires 0 <= u.failedLoginAttempts < cfg.maxAttempts
    ensures InRange(cfg, PasswordStep(cfg, w, u, password, info, env).response)
  {
    hide CountedFailure, InRange;
    CountReports(cfg, u, WrongPassword(password), env);
    OthersAreInRange(cfg);
  }

  lemma CodeReports(cfg: Config, w: World, cid: string, u: User, code: string, info: string, env: Env)
    requires 0 <= u.failedLoginAttempts < cfg.maxAttempts
    ensures InRange(cfg, CodeStep(cfg, w, cid, u, code, info, env).response)
    ensures !CodeStep(cfg, w, cid, u, code, info, env).response.BadCredentials?
  {
    CountReports(cfg, u, WrongCode(cid, code, env.at.find, env.at.start), env);
  }

  lemma OthersAreInRange(cfg: Config)
    ensures forall r: Response | !r.BadCode? && !r.BadCredentials? :: InRange(cfg, r)
  {
  }

  /**
   * A rejected password of a known account, and a rejected code, report at least one attempt and fewer than
   * MaxAttempts; an unknown account reports -1.
   */
  lemma RejectionsReport(cfg: Config, w: World, c: Call, env: Env)
    requires cfg.Valid() && Sound(cfg, w) && EnvOK(cfg, w, c, env)
    ensures
      var r := Serve(cfg, w, c, env).response;
      && (r.BadCode? ==> 1 <= r.remaining < cfg.maxAttempts)
      && (r.BadCredentials? ==>
            if Target(cfg, w, c).Some? then 1 <= r.remaining < cfg.maxAttempts else r.remaining == -1)
  {
    hide PasswordStep, CodeStep, Run, Legal, Apply, Enabled, SessionsOK, LogOK, LockExcludesSessions, EnvOK;
    match c {
      case CAuthenticate(username, password, info) =>
        match w.db.UserNamed(cfg.normalize(username)) {
          case Some(id) =>
            var u := w.db.users[id];
            assert UserRow(cfg, w.db, id);
            PasswordReports(cfg, w, u, password, info, env);
            PasswordReports(cfg, w, Unlocked(u), password, info, env);
          case None =>
        }
      case CComplete(cid, code, info) =>
        if cid in w.challenges {
          assert UserRow(cfg, w.db, w.challenges[cid].userID);
          CodeReports(cfg, w, cid, w.db.users[w.challenges[cid].userID], code, info, env);
        }
      case _ =>
    }
  }
}
