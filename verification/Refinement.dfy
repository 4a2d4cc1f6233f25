/** Every service call, under every fault, is a legal run of the machine; so is every sequence of calls. */
module Refinement {
  import opened Domain
  import opened Lockout
  import opened Machine
  import opened Invariants
  import opened Calls

  lemma Extend(cfg: Config, w: World, tr: seq<Effect>, e: Effect)
    requires Legal(cfg, w, tr) && Enabled(cfg, Run(cfg, w, tr), e)
    ensures Legal(cfg, w, tr + [e]) && Run(cfg, w, tr + [e]) == Apply(cfg, Run(cfg, w, tr), e)
  {
    hide Apply, Enabled;
    assert (tr + [e])[..|tr|] == tr;
  }

  lemma {:induction false} Append(cfg: Config, w: World, tr: seq<Effect>, more: seq<Effect>)
    requires Legal(cfg, w, tr) && Legal(cfg, Run(cfg, w, tr), more)
    ensures Legal(cfg, w, tr + more) && Run(cfg, w, tr + more) == Run(cfg, Run(cfg, w, tr), more)
  {
    hide Apply, Enabled;
    if more == [] {
      assert tr + more == tr;
    } else {
      var last := |more| - 1;
      Append(cfg, w, tr, more[..last]);
      assert (tr + more)[..|tr + more| - 1] == tr + more[..last];
    }
  }

  lemma {:induction false} Split(cfg: Config, w: World, tr: seq<Effect>, more: seq<Effect>)
    requires Legal(cfg, w, tr + more)
    ensures Legal(cfg, w, tr) && Legal(cfg, Run(cfg, w, tr), more)
    ensures Run(cfg, w, tr + more) == Run(cfg, Run(cfg, w, tr), more)
    decreases |more|
  {
    hide Apply, Enabled;
    if more == [] {
      assert tr + more == tr;
    } else {
      var last := |more| - 1;
      assert (tr + more)[..|tr + more| - 1] == tr + more[..last];
      Split(cfg, w, tr, more[..last]);
    }
  }

  lemma One(cfg: Config, w: World, e: Effect)
    requires Enabled(cfg, w, e)
    ensures Legal(cfg, w, [e]) && Run(cfg, w, [e]) == Apply(cfg, w, e)
  {
    hide Apply, Enabled;
    Extend(cfg, w, [], e);
    assert [] + [e] == [e];
  }

  lemma Two(cfg: Config, w: World, e: Effect, f: Effect)
    requires Enabled(cfg, w, e) && Enabled(cfg, Apply(cfg, w, e), f)
    ensures Legal(cfg, w, [e, f]) && Run(cfg, w, [e, f]) == Apply(cfg, Apply(cfg, w, e), f)
  {
    hide Apply, Enabled;
    One(cfg, w, e);
    Extend(cfg, w, [e], f);
    assert [e] + [f] == [e, f];
  }

  lemma Three(cfg: Config, w: World, e: Effect, f: Effect, g: Effect)
    requires Enabled(cfg, w, e) && Enabled(cfg, Apply(cfg, w, e), f)
    requires Enabled(cfg, Apply(cfg, Apply(cfg, w, e), f), g)
    ensures Legal(cfg, w, [e, f, g]) && Run(cfg, w, [e, f, g]) == Apply(cfg, Apply(cfg, Apply(cfg, w, e), f), g)
  {
    hide Apply, Enabled;
    Two(cfg, w, e, f);
    Extend(cfg, w, [e, f], g);
    assert [e, f] + [g] == [e, f, g];
  }

  predicate LogBefore(w: World, at: Time) {
    at <= w.clock && (w.db.events != [] ==> w.db.events[|w.db.events| - 1].createdAt <= at)
  }

  /** recordEvent: an append, or nothing. */
  function Audited(w: World, env: Env, owner: Option<int>, username: string, kind: EventKind, detail: Detail, at: Time)
    : World
  {
    if env.auditLost then w else w.(db := w.db.Append(owner, username, kind, detail, at))
  }

  lemma AuditLegal(cfg: Config, w: World, tr: seq<Effect>, env: Env, owner: Option<int>, username: string,
                   kind: EventKind, detail: Detail, at: Time)
    requires Legal(cfg, w, tr) && BestEffort(kind, detail) && LogBefore(Run(cfg, w, tr), at)
    ensures Legal(cfg, w, tr + Audit(env, owner, username, kind, detail, at))
    ensures
      Run(cfg, w, tr + Audit(env, owner, username, kind, detail, at)) ==
        Audited(Run(cfg, w, tr), env, owner, username, kind, detail, at)
  {
    if env.auditLost {
      assert tr + [] == tr;
    } else {
      Extend(cfg, w, tr, Log(owner, username, kind, detail, at));
    }
  }

  // ----- The pieces of a login attempt -----

  lemma CountedFailureLegal(cfg: Config, w: World, u: User, cause: Cause, env: Env)
    requires w.clock <= env.at.finish <= env.at.inner && u.id in w.db.users && w.db.users[u.id] == u
    requires Caused(cfg, w, u.id, cause)
    ensures Legal(cfg, w, CountedFailure(cfg, u, cause, env).effects)
    ensures Run(cfg, w, CountedFailure(cfg, u, cause, env).effects) ==
      if env.fault.OnTx? then w.(clock := env.at.finish)
      else w.(db := FailureTx(cfg, w.db, u, CauseKind(cause), CauseDetail(w, cause), env.at.finish, env.at.inner),
              clock := if Trips(cfg, u) then env.at.inner else env.at.finish)
  {
    var tick, count := Tick(env.at.finish), CountFailure(u.id, cause, env.at.inner);
    if env.fault.OnTx? {
      One(cfg, w, tick);
    } else {
      Two(cfg, w, tick, count);
    }
  }

  lemma FinishLoginLegal(cfg: Config, w0: World, w: World, u: User, proof: Proof, info: string, env: Env)
    requires w.clock <= env.at.finish <= env.at.inner && u.id in w.db.users && w.db.users[u.id] == u
    requires cfg.hashToken(env.token) !in w.spent
    requires Earned(cfg, w, u.id, proof)
    ensures Legal(cfg, w, FinishLogin(cfg, w0, u, proof, info, env).effects)
    ensures
      var left := if proof.ByCode? then w.challenges - {proof.id} else w.challenges;
      var hash := cfg.hashToken(env.token);
      Run(cfg, w, FinishLogin(cfg, w0, u, proof, info, env).effects) ==
        if env.fault.OnTx? || env.fault == OnRandom then w.(challenges := left, clock := env.at.finish)
        else World(LoginTx(cfg, w.db, u, hash, env.at.inner, info, env.at.finish), left, env.at.inner, w.spent + {hash})
  {
    var tick := Tick(env.at.finish);
    if env.fault.OnTx? || env.fault == OnRandom {
      if proof.ByCode? {
        Two(cfg, w, DropChallenge(proof.id), tick);
        assert [DropChallenge(proof.id)] + [tick] == [DropChallenge(proof.id), tick];
      } else {
        One(cfg, w, tick);
        assert [] + [tick] == [tick];
      }
    } else {
      Two(cfg, w, tick, Login(u.id, proof, cfg.hashToken(env.token), env.at.inner, info));
    }
  }

  lemma FactorStepLegal(cfg: Config, w0: World, w: World, u: User, password: string, info: string, env: Env)
    requires env.at.start <= w.clock <= env.at.save <= env.at.finish <= env.at.inner
    requires u.id in w.db.users && w.db.users[u.id] == u && PasswordChecked(cfg, w, u.id, password, Match)
    requires cfg.hashToken(env.token) !in w.spent && env.challengeID !in w.spent && LogBefore(w, env.at.start)
    ensures Legal(cfg, w, FactorStep(cfg, w0, u, password, info, env).effects)
  {
    if !u.totpEnabled {
      FinishLoginLegal(cfg, w0, w, u, ByPassword(password), info, env);
    } else if env.fault != OnRandom {
      var tick, issue := Tick(env.at.save), IssueChallenge(u.id, env.challengeID, password, env.at.start);
      Two(cfg, w, tick, issue);
      AuditLegal(cfg, w, [tick, issue], env, Some(u.id), u.username, EvTOTPChallenged, NoDetail, env.at.start);
    }
  }

  lemma PasswordStepLegal(cfg: Config, w0: World, w: World, u: User, password: string, info: string, env: Env)
    requires env.at.start <= w.clock <= env.at.save <= env.at.finish <= env.at.inner
    requires u.id in w.db.users && w.db.users[u.id] == u && u.lockedUntil.None?
    requires cfg.hashToken(env.token) !in w.spent && env.challengeID !in w.spent && LogBefore(w, env.at.start)
    requires cfg.verify(env.newHash, password) == Match
    ensures Legal(cfg, w, PasswordStep(cfg, w0, u, password, info, env).effects)
  {
    match cfg.verify(u.passwordHash, password) {
      case Broken =>
      case Mismatch => CountedFailureLegal(cfg, w, u, WrongPassword(password), env);
      case Match =>
        if !cfg.needsRehash(u.passwordHash) || env.fault == OnHash {
          FactorStepLegal(cfg, w0, w, u, password, info, env);
        } else if env.fault != OnRehash {
          var rehash := Rehash(u.id, env.newHash, password);
          One(cfg, w, rehash);
          FactorStepLegal(cfg, w0, Apply(cfg, w, rehash), u.(passwordHash := env.newHash), password, info, env);
          Append(cfg, w, [rehash], FactorStep(cfg, w0, u.(passwordHash := env.newHash), password, info, env).effects);
        }
    }
  }

  lemma AuthenticateLegal(cfg: Config, w: World, username: string, password: string, info: string, env: Env)
    requires Sound(cfg, w) && EnvOK(cfg, w, CAuthenticate(username, password, info), env)
    ensures Legal(cfg, w, AuthenticateCall(cfg, w, username, password, info, env).effects)
  {
    var tick := Tick(env.at.start);
    One(cfg, w, tick);
    if env.fault != OnLoad {
      var name := cfg.normalize(username);
      match w.db.UserNamed(name) {
        case None => AuditLegal(cfg, w, [tick], env, None, name, EvLoginFailed, UnknownUsername, env.at.start);
        case Some(id) =>
          var u := w.db.users[id];
          assert UserRow(cfg, w.db, id);
          if u.IsLocked(env.at.start) {
            AuditLegal(cfg, w, [tick], env, Some(u.id), name, EvLoginFailed, WhileLockedOut, env.at.start);
          } else if u.lockedUntil.None? {
            PasswordStepLegal(cfg, w, Apply(cfg, w, tick), u, password, info, env);
            Append(cfg, w, [tick], PasswordStep(cfg, w, u, password, info, env).effects);
          } else if env.fault != OnClearLock {
            var clear := ClearLock(u.id);
            Two(cfg, w, tick, clear);
            PasswordStepLegal(cfg, w, Apply(cfg, Apply(cfg, w, tick), clear), Unlocked(u), password, info, env);
            Append(cfg, w, [tick, clear], PasswordStep(cfg, w, Unlocked(u), password, info, env).effects);
          }
      }
    }
  }

  /** The rejected code counted one more failure, and the answer says how many are left. */
  predicate CountedOnce(cfg: Config, u: User, w': World, r: Response) {
    && u.id in w'.db.users
    && w'.db.users[u.id].failedLoginAttempts == u.failedLoginAttempts + 1
    && r.BadCode? && r.remaining == cfg.maxAttempts - w'.db.users[u.id].failedLoginAttempts
  }

  lemma CodeStepLegal(cfg: Config, w0: World, w: World, cid: string, u: User, code: string, info: string, env: Env)
    requires cfg.Valid() && Sound(cfg, w) && w.clock == env.at.start
    requires env.at.find <= env.at.start <= env.at.save <= env.at.finish <= env.at.inner
    requires Live(w, cid, env.at.find) && w.challenges[cid].expiresAt <= env.at.find + cfg.challengeTTL
    requires u.id in w.db.users && w.db.users[u.id] == u && w.challenges[cid].userID == u.id
    requires cfg.hashToken(env.token) !in w.spent
    ensures Legal(cfg, w, CodeStep(cfg, w0, cid, u, code, info, env).effects)
    ensures
      var o := CodeStep(cfg, w0, cid, u, code, info, env);
      o.response.BadCode? ==> CountedOnce(cfg, u, Run(cfg, w, o.effects), o.response)
  {
    var r := env.at;
    if u.IsLocked(r.start) || !u.totpEnabled {
      One(cfg, w, DropChallenge(cid));
    } else if cfg.decrypt(u.totpSecret).None? {
    } else if cfg.CodeMatches(u, code, r.start) {
      FinishLoginLegal(cfg, w0, w, u, ByCode(cid, code, r.find, r.start), info, env);
    } else {
      var tick, retry := Tick(r.save), RetryChallenge(cid);
      Two(cfg, w, tick, retry);
      var w' := Apply(cfg, Apply(cfg, w, tick), retry);
      var o := CountedFailure(cfg, u, WrongCode(cid, code, r.find, r.start), env);
      CountedFailureLegal(cfg, w', u, WrongCode(cid, code, r.find, r.start), env);
      Append(cfg, w, [tick, retry], o.effects);
      if o.response.AccountLocked? {
        Extend(cfg, w, [tick, retry] + o.effects, DropChallenge(cid));
      }
    }
  }

  lemma CompleteLegal(cfg: Config, w: World, cid: string, code: string, info: string, env: Env)
    requires cfg.Valid() && Sound(cfg, w) && EnvOK(cfg, w, CComplete(cid, code, info), env)
    ensures Legal(cfg, w, CompleteCall(cfg, w, cid, code, info, env).effects)
    ensures
      var o := CompleteCall(cfg, w, cid, code, info, env);
      o.response.BadCode? ==>
        && cid in w.challenges && w.challenges[cid].userID in w.db.users
        && CountedOnce(cfg, w.db.users[w.challenges[cid].userID], Run(cfg, w, o.effects), o.response)
  {
    var find, start, drop := Tick(env.at.find), Tick(env.at.start), DropChallenge(cid);
    One(cfg, w, find);
    if cid in w.challenges {
      var c := w.challenges[cid];
      Two(cfg, w, find, drop);
      if c.expiresAt > env.at.find && env.fault != OnLoad && c.userID in w.db.users {
        var u := w.db.users[c.userID];
        assert UserRow(cfg, w.db, c.userID);
        Two(cfg, w, find, start);
        var w' := Apply(cfg, Apply(cfg, w, find), start);
        Keeps(cfg, w, find);
        Keeps(cfg, Apply(cfg, w, find), start);
        CodeStepLegal(cfg, w, w', cid, u, code, info, env);
        Append(cfg, w, [find, start], CodeStep(cfg, w, cid, u, code, info, env).effects);
      }
    }
  }

  lemma ResolveLegal(cfg: Config, w: World, token: string, env: Env)
    requires Sound(cfg, w) && EnvOK(cfg, w, CResolve(token), env)
    ensures Legal(cfg, w, ResolveCall(cfg, w, token, env).effects)
    ensures
      var found, now, later := w.db.SessionByHash(cfg.hashToken(token)), env.at.start, env.at.finish;
      Run(cfg, w, ResolveCall(cfg, w, token, env).effects) ==
        if env.fault == OnLoad then w
        else if found.None? then w.(clock := now)
        else if !w.db.sessions[found.value].IsActive(now) then
          Audited(w.(clock := later), env, Some(w.db.sessions[found.value].userID), "", EvSessionExpired, NoDetail, later)
        else if env.fault == OnTouch then w.(clock := now)
        else w.(clock := now, db := ResolveDB(cfg, w.db, cfg.hashToken(token), now))
  {
    var now, later, resolve := Tick(env.at.start), Tick(env.at.finish), Resolve(cfg.hashToken(token));
    One(cfg, w, now);
    Two(cfg, w, now, resolve);
    Three(cfg, w, now, resolve, later);
    match w.db.SessionByHash(cfg.hashToken(token)) {
      case Some(id) =>
        var owner := Some(w.db.sessions[id].userID);
        AuditLegal(cfg, w, [now, resolve, later], env, owner, "", EvSessionExpired, NoDetail, env.at.finish);
      case None =>
    }
  }

  lemma LogoutLegal(cfg: Config, w: World, token: string, env: Env)
    requires Sound(cfg, w) && EnvOK(cfg, w, CLogout(token), env)
    ensures Legal(cfg, w, LogoutCall(cfg, w, token, env).effects)
    ensures
      var found, now, later := w.db.SessionByHash(cfg.hashToken(token)), env.at.start, env.at.finish;
      Run(cfg, w, LogoutCall(cfg, w, token, env).effects) ==
        if env.fault == OnLoad || found.None? then w
        else
          var s := w.db.sessions[found.value];
          if s.revokedAt.None? && env.fault == OnRevoke then w.(clock := now)
          else
            var ended := w.(clock := later, db := if s.revokedAt.Some? then w.db else w.db.Revoke(s.id, now));
            Audited(ended, env, Some(s.userID), "", EvLogout, NoDetail, later)
  {
    var now, later := Tick(env.at.start), Tick(env.at.finish);
    match w.db.SessionByHash(cfg.hashToken(token)) {
      case Some(id) =>
        var s := w.db.sessions[id];
        if s.revokedAt.Some? {
          One(cfg, w, later);
          AuditLegal(cfg, w, [later], env, Some(s.userID), "", EvLogout, NoDetail, env.at.finish);
        } else {
          One(cfg, w, now);
          Three(cfg, w, now, Revoke(s.id), later);
          AuditLegal(cfg, w, [now, Revoke(s.id), later], env, Some(s.userID), "", EvLogout, NoDetail, env.at.finish);
        }
      case None =>
    }
  }

  lemma ConfirmLegal(cfg: Config, w: World, userID: int, code: string, keep: int, env: Env)
    requires Sound(cfg, w) && EnvOK(cfg, w, CConfirm(userID, code, keep), env)
    ensures Legal(cfg, w, ConfirmCall(cfg, w, userID, code, keep, env).effects)
    ensures
      var o, now := ConfirmCall(cfg, w, userID, code, keep, env), env.at.start;
      Run(cfg, w, o.effects) ==
        if o.response == InvalidTOTPCode then
          Audited(w.(clock := now), env, Some(w.db.users[userID].id), w.db.users[userID].username,
                  EvTOTPFailed, EnrollmentFailed, now)
        else if o.response == Done then
          w.(db := SecondFactorTx(w.db, Enabled2FA(w.db.users[userID], now), EvTOTPEnabled, keep, now, env.at.inner),
             clock := env.at.inner)
        else if o.effects == [] then w
        else w.(clock := now)
  {
    var now := Tick(env.at.start);
    One(cfg, w, now);
    if userID in w.db.users && w.db.users[userID].HasPendingEnrollment() {
      var u := w.db.users[userID];
      if cfg.CodeMatches(u, code, env.at.start) {
        Two(cfg, w, now, EnableTOTP(userID, code, keep, env.at.inner));
      } else {
        AuditLegal(cfg, w, [now], env, Some(u.id), u.username, EvTOTPFailed, EnrollmentFailed, env.at.start);
      }
    }
  }

  lemma DisableLegal(cfg: Config, w: World, userID: int, code: string, keep: int, env: Env)
    requires Sound(cfg, w) && EnvOK(cfg, w, CDisable(userID, code, keep), env)
    ensures Legal(cfg, w, DisableCall(cfg, w, userID, code, keep, env).effects)
    ensures
      var o, now := DisableCall(cfg, w, userID, code, keep, env), env.at.start;
      Run(cfg, w, o.effects) ==
        if o.response == InvalidTOTPCode then
          Audited(w.(clock := now), env, Some(w.db.users[userID].id), w.db.users[userID].username,
                  EvTOTPFailed, DisableFailed, now)
        else if o.response == Done then
          w.(db := SecondFactorTx(w.db, Disabled2FA(w.db.users[userID]), EvTOTPDisabled, keep, now, env.at.inner),
             clock := env.at.inner)
        else if o.effects == [] then w
        else w.(clock := now)
  {
    var now := Tick(env.at.start);
    One(cfg, w, now);
    if userID in w.db.users && w.db.users[userID].totpEnabled {
      var u := w.db.users[userID];
      if cfg.CodeMatches(u, code, env.at.start) {
        Two(cfg, w, now, DisableTOTP(userID, code, keep, env.at.inner));
      } else {
        AuditLegal(cfg, w, [now], env, Some(u.id), u.username, EvTOTPFailed, DisableFailed, env.at.start);
      }
    }
  }

  lemma ShortCallsLegal(cfg: Config, w: World, c: Call, env: Env)
    requires Sound(cfg, w) && EnvOK(cfg, w, c, env)
    requires c.CRegister? || c.CAbandon? || c.CBegin? || c.CCancel? || c.CPurge?
    ensures Legal(cfg, w, Serve(cfg, w, c, env).effects)
  {
    var now, es := Tick(env.at.start), Serve(cfg, w, c, env).effects;
    if |es| == 1 {
      One(cfg, w, es[0]);
      assert es == [es[0]];
    } else if |es| == 2 {
      Two(cfg, w, es[0], es[1]);
      assert es == [es[0], es[1]];
    }
  }

  /** One call is a legal run from any sound state. */
  lemma CallLegal(cfg: Config, w: World, c: Call, env: Env)
    requires cfg.Valid() && Sound(cfg, w) && EnvOK(cfg, w, c, env)
    ensures Legal(cfg, w, Serve(cfg, w, c, env).effects)
  {
    hide Apply, Enabled;
    match c {
      case CAuthenticate(username, password, info) => AuthenticateLegal(cfg, w, username, password, info, env);
      case CComplete(cid, code, info) => CompleteLegal(cfg, w, cid, code, info, env);
      case CResolve(token) => ResolveLegal(cfg, w, token, env);
      case CLogout(token) => LogoutLegal(cfg, w, token, env);
      case CConfirm(userID, code, keep) => ConfirmLegal(cfg, w, userID, code, keep, env);
      case CDisable(userID, code, keep) => DisableLegal(cfg, w, userID, code, keep, env);
      case _ => ShortCallsLegal(cfg, w, c, env);
    }
  }
}
