/** What one shell relies on: its own calls and everyone else's leave at most its current session active. */
module ShellLaw {
  import opened Domain
  import opened Lockout
  import opened Machine
  import opened Invariants
  import opened Tokens
  import opened SessionHistory
  import opened Calls
  import opened Refinement
  import opened CallRuns

  /** Of the sessions issued to one shell, by token hash, at most the current one is active. */
  ghost predicate OneLive(w: World, issued: set<string>, current: Option<string>) {
    && issued <= w.spent
    && (forall h | h in issued && Answers(w, h, w.clock) :: current == Some(h))
    && (current.Some? ==> current.value in issued)
  }

  lemma {:induction false} DrawsStaySpent(cfg: Config, w: World, tr: seq<Effect>)
    requires Legal(cfg, w, tr)
    ensures w.spent <= Run(cfg, w, tr).spent
    ensures tr != [] && tr[|tr| - 1].Login? ==> tr[|tr| - 1].tokenHash in Run(cfg, w, tr).spent
  {
    hide Apply, Enabled;
    if tr != [] {
      DrawsStaySpent(cfg, w, tr[..|tr| - 1]);
      ClockAdvances(cfg, Run(cfg, w, tr[..|tr| - 1]), tr[|tr| - 1]);
    }
  }

  /** Whoever makes the call, a dead session stays dead and nobody else's login revives it. */
  lemma CallKeepsOneLive(cfg: Config, w: World, c: Call, env: Env, issued: set<string>, current: Option<string>)
    requires cfg.Valid() && Sound(cfg, w) && EnvOK(cfg, w, c, env) && OneLive(w, issued, current)
    ensures OneLive(After(cfg, w, c, env), issued, current)
  {
    hide Apply, Enabled, Serve, Sound, Run, Legal, Answers;
    var tr, w' := Serve(cfg, w, c, env).effects, After(cfg, w, c, env);
    CallLegal(cfg, w, c, env);
    DrawsStaySpent(cfg, w, tr);
    forall h | h in issued && Answers(w', h, w'.clock) ensures current == Some(h) {
      if !Answers(w, h, w.clock) {
        FailsForever(cfg, w, tr, h, w'.clock);
      }
    }
  }

  lemma {:induction false} CallsKeepOneLive(cfg: Config, w: World, steps: seq<Step>, issued: set<string>,
                                            current: Option<string>)
    requires cfg.Valid() && Sound(cfg, w) && StepsOK(cfg, w, steps) && OneLive(w, issued, current)
    ensures OneLive(AfterSteps(cfg, w, steps), issued, current)
  {
    hide Sound, EnvOK, After, OneLive;
    if steps != [] {
      var init, last := steps[..|steps| - 1], steps[|steps| - 1];
      CallsKeepOneLive(cfg, w, init, issued, current);
      CallKeepsOneLive(cfg, AfterSteps(cfg, w, init), last.call, last.env, issued, current);
    }
  }

  /** Once a shell has no current session, none of its sessions ever resolves again, whatever anybody calls. */
  lemma ClosedForGood(cfg: Config, w: World, steps: seq<Step>, issued: set<string>, hash: string, t: Time)
    requires cfg.Valid() && Sound(cfg, w) && StepsOK(cfg, w, steps) && OneLive(w, issued, None)
    requires hash in issued && AfterSteps(cfg, w, steps).clock <= t
    ensures !Answers(AfterSteps(cfg, w, steps), hash, t)
  {
    hide Apply, Enabled, Run, Legal, Sound, Answers;
    CallsRefineMachine(cfg, w, steps);
    FailsForever(cfg, w, TraceOf(cfg, w, steps), hash, t);
  }

  /** The outcome ends with a login whose token is the one drawn for the call, if it carries a token at all. */
  predicate EndsWithLogin(cfg: Config, o: Outcome, env: Env) {
    o.response.SignedIn? ==>
      && o.response.token == env.token && o.effects != []
      && var last := o.effects[|o.effects| - 1];
         last.Login? && last.tokenHash == cfg.hashToken(env.token)
         && last.issuedAt == env.at.inner && last.userID == o.response.user.id
  }

  lemma PasswordEndsWithLogin(cfg: Config, w: World, u: User, password: string, info: string, env: Env)
    ensures EndsWithLogin(cfg, PasswordStep(cfg, w, u, password, info, env), env)
  {
  }

  lemma CodeEndsWithLogin(cfg: Config, w: World, id: string, u: User, code: string, info: string, env: Env)
    ensures EndsWithLogin(cfg, CodeStep(cfg, w, id, u, code, info, env), env)
  {
  }

  /** Only a login ends with an answer that carries a token, and its token is new. */
  lemma SignedInByLogin(cfg: Config, w: World, c: Call, env: Env)
    ensures EndsWithLogin(cfg, Serve(cfg, w, c, env), env)
  {
    hide PasswordStep, CodeStep;
    match c {
      case CAuthenticate(username, password, info) =>
        match w.db.UserNamed(cfg.normalize(username)) {
          case Some(id) =>
            PasswordEndsWithLogin(cfg, w, w.db.users[id], password, info, env);
            PasswordEndsWithLogin(cfg, w, Unlocked(w.db.users[id]), password, info, env);
          case None =>
        }
      case CComplete(id, code, info) =>
        if id in w.challenges && w.challenges[id].userID in w.db.users {
          CodeEndsWithLogin(cfg, w, id, w.db.users[w.challenges[id].userID], code, info, env);
        }
      case _ =>
    }
  }

  /** A login of a shell that has no active session leaves it exactly the new one. */
  lemma LoginBecomesCurrent(cfg: Config, w: World, c: Call, env: Env, issued: set<string>)
    requires cfg.Valid() && Sound(cfg, w) && EnvOK(cfg, w, c, env) && OneLive(w, issued, None)
    requires Serve(cfg, w, c, env).response.SignedIn?
    ensures
      var hash := cfg.hashToken(env.token);
      hash !in issued && OneLive(After(cfg, w, c, env), issued + {hash}, Some(hash))
  {
    hide Apply, Enabled, Serve, Sound, Run, Legal, Answers;
    CallKeepsOneLive(cfg, w, c, env, issued, None);
    CallLegal(cfg, w, c, env);
    SignedInByLogin(cfg, w, c, env);
    DrawsStaySpent(cfg, w, Serve(cfg, w, c, env).effects);
  }

  /** A session that the service calls expired is over; anything else but a live session takes a storage fault. */
  lemma ExpiredIsOver(cfg: Config, w: World, token: string, env: Env)
    requires cfg.Valid() && Sound(cfg, w) && EnvOK(cfg, w, CResolve(token), env)
    ensures
      var r, w' := Serve(cfg, w, CResolve(token), env).response, After(cfg, w, CResolve(token), env);
      && (r.SessionLive? || r.SessionExpired? || (r.Failed? && env.fault != NoFault))
      && (r.SessionExpired? ==> !Answers(w', cfg.hashToken(token), w'.clock))
  {
    hide Apply, Enabled, Run, Legal;
    ResolveLegal(cfg, w, token, env);
    match w.db.SessionByHash(cfg.hashToken(token)) {
      case Some(id) => assert SessionRow(cfg, w, id);
      case None =>
    }
  }

  /** A logout that the service reports done has ended the session; anything else takes a storage fault. */
  lemma LogoutEndsSession(cfg: Config, w: World, token: string, env: Env)
    requires cfg.Valid() && Sound(cfg, w) && EnvOK(cfg, w, CLogout(token), env)
    ensures
      var r, w' := Serve(cfg, w, CLogout(token), env).response, After(cfg, w, CLogout(token), env);
      && (r.Done? || (r.Failed? && env.fault != NoFault))
      && (r.Done? ==> !Answers(w', cfg.hashToken(token), w'.clock))
  {
    hide Apply, Enabled, Run, Legal;
    LogoutLegal(cfg, w, token, env);
    match w.db.SessionByHash(cfg.hashToken(token)) {
      case Some(id) => assert SessionRow(cfg, w, id);
      case None =>
    }
  }

  /** A shell that forgets its session holds no active one any more, apart from the forgotten one. */
  lemma ForgottenLeavesNone(w: World, issued: set<string>, hash: string)
    requires OneLive(w, issued, Some(hash))
    ensures OneLive(w, issued - {hash}, None)
    ensures !Answers(w, hash, w.clock) ==> OneLive(w, issued, None)
  {
  }
}
