/** Purging expired sessions, at any points of a run, changes no later answer. */
module PurgeInvisible {
  import opened Domain
  import opened Machine
  import opened Invariants
  import opened Calls
  import opened Refinement
  import opened GuessRate
  import opened CallRuns

  /** The WHERE clause of the SQL delete is exactly the negation of IsActive. */
  lemma DeleteConditionIsInactive(s: Session, now: Time)
    ensures (s.revokedAt.Some? || s.idleExpiresAt <= now || s.absoluteExpiresAt <= now) <==> !s.IsActive(now)
  {
  }

  function Later(a: Time, b: Time): Time {
    if a < b then b else a
  }

  predicate AlikeApartFromSessions(w1: World, w2: World) {
    && w1.db.users == w2.db.users && w1.challenges == w2.challenges && w1.spent == w2.spent
    && w1.db.nextUserID == w2.db.nextUserID && w1.db.nextSessionID == w2.db.nextSessionID
  }

  /** Equal but for the audit log and for sessions that can never be resolved again. */
  ghost predicate Alike(w1: World, w2: World) {
    && AlikeApartFromSessions(w1, w2)
    && (forall id | id in w1.db.sessions && id in w2.db.sessions :: w1.db.sessions[id] == w2.db.sessions[id])
    && (forall id | id in w1.db.sessions && id !in w2.db.sessions :: !w1.db.sessions[id].IsActive(Later(w1.clock, w2.clock)))
    && (forall id | id in w2.db.sessions && id !in w1.db.sessions :: !w2.db.sessions[id].IsActive(Later(w1.clock, w2.clock)))
  }

  /** Labels whose effect does not look at the clock. */
  predicate ClockFree(e: Effect) {
    e.Tick? || e.DropChallenge? || e.BeginEnrollment? || e.CancelEnrollment?
  }

  lemma MovedAlike(cfg: Config, w1: World, w2: World, e: Effect, s: Session)
    requires Alike(w1, w2) && Enabled(cfg, w1, e) && Enabled(cfg, w2, e) && (ClockFree(e) || w1.clock == w2.clock)
    ensures Moved(cfg, w1, e, s) == Moved(cfg, w2, e, s)
  {
  }

  lemma InactiveStays(cfg: Config, w: World, e: Effect, s: Session, t: Time, t': Time)
    requires Enabled(cfg, w, e) && !s.IsActive(t) && t <= t' && (ClockFree(e) || w.clock == t)
    ensures !Moved(cfg, w, e, s).IsActive(t')
  {
  }

  lemma AlikeRows(cfg: Config, w1: World, w2: World, e: Effect, id: int)
    requires cfg.Valid() && Sound(cfg, w1) && Sound(cfg, w2) && Alike(w1, w2)
    requires Enabled(cfg, w1, e) && Enabled(cfg, w2, e) && (ClockFree(e) || w1.clock == w2.clock)
    ensures
      var w1', w2' := Apply(cfg, w1, e), Apply(cfg, w2, e);
      var rows1, rows2 := w1'.db.sessions, w2'.db.sessions;
      && (id in rows1 && id in rows2 ==> rows1[id] == rows2[id])
      && (id in rows1 && id !in rows2 ==> !rows1[id].IsActive(Later(w1'.clock, w2'.clock)))
      && (id in rows2 && id !in rows1 ==> !rows2[id].IsActive(Later(w1'.clock, w2'.clock)))
  {
    hide Apply, Enabled, Moved;
    RowFollows(cfg, w1, e, id);
    RowFollows(cfg, w2, e, id);
    ClockAdvances(cfg, w1, e);
    ClockAdvances(cfg, w2, e);
    var t, t' := Later(w1.clock, w2.clock), Later(Apply(cfg, w1, e).clock, Apply(cfg, w2, e).clock);
    if id in w1.db.sessions {
      var s := w1.db.sessions[id];
      if id in w2.db.sessions {
        MovedAlike(cfg, w1, w2, e, s);
      } else {
        InactiveStays(cfg, w1, e, s, t, t');
      }
    } else if id in w2.db.sessions {
      InactiveStays(cfg, w2, e, w2.db.sessions[id], t, t');
    }
  }

  ghost predicate AlikeAfter(cfg: Config, w1: World, w2: World, e: Effect)
    requires Enabled(cfg, w1, e) && Enabled(cfg, w2, e)
  {
    var w1', w2' := Apply(cfg, w1, e), Apply(cfg, w2, e);
    AlikeApartFromSessions(w1', w2') && (e.Tick? || w1.clock == w2.clock ==> w1'.clock == w2'.clock)
  }

  lemma AlikeAfterTransaction(cfg: Config, w1: World, w2: World, e: Effect)
    requires AlikeApartFromSessions(w1, w2) && w1.clock == w2.clock
    requires Enabled(cfg, w1, e) && Enabled(cfg, w2, e)
    requires e.Register? || e.CountFailure? || e.Login? || e.EnableTOTP? || e.DisableTOTP?
    ensures AlikeAfter(cfg, w1, w2, e)
  {
  }

  lemma AlikeAfterUpdate(cfg: Config, w1: World, w2: World, e: Effect)
    requires AlikeApartFromSessions(w1, w2)
    requires Enabled(cfg, w1, e) && Enabled(cfg, w2, e) && (ClockFree(e) || w1.clock == w2.clock)
    requires !e.Register? && !e.CountFailure? && !e.Login? && !e.EnableTOTP? && !e.DisableTOTP?
    ensures AlikeAfter(cfg, w1, w2, e)
  {
  }

  lemma AlikeElsewhere(cfg: Config, w1: World, w2: World, e: Effect)
    requires AlikeApartFromSessions(w1, w2)
    requires Enabled(cfg, w1, e) && Enabled(cfg, w2, e) && (ClockFree(e) || w1.clock == w2.clock)
    ensures AlikeAfter(cfg, w1, w2, e)
  {
    hide Apply, Enabled, AlikeApartFromSessions;
    if e.Register? || e.CountFailure? || e.Login? || e.EnableTOTP? || e.DisableTOTP? {
      AlikeAfterTransaction(cfg, w1, w2, e);
    } else {
      AlikeAfterUpdate(cfg, w1, w2, e);
    }
  }

  lemma AlikeStep(cfg: Config, w1: World, w2: World, e: Effect)
    requires cfg.Valid() && Sound(cfg, w1) && Sound(cfg, w2) && Alike(w1, w2)
    requires Enabled(cfg, w1, e) && Enabled(cfg, w2, e) && (ClockFree(e) || w1.clock == w2.clock)
    ensures Alike(Apply(cfg, w1, e), Apply(cfg, w2, e))
    ensures e.Tick? || w1.clock == w2.clock ==> Apply(cfg, w1, e).clock == Apply(cfg, w2, e).clock
  {
    hide Apply, Enabled, Sound;
    AlikeElsewhere(cfg, w1, w2, e);
    var rows1, rows2 := Apply(cfg, w1, e).db.sessions, Apply(cfg, w2, e).db.sessions;
    forall id | id in rows1 || id in rows2
      ensures
        && (id in rows1 && id in rows2 ==> rows1[id] == rows2[id])
        && (id in rows1 && id !in rows2 ==> !rows1[id].IsActive(Later(Apply(cfg, w1, e).clock, Apply(cfg, w2, e).clock)))
        && (id in rows2 && id !in rows1 ==> !rows2[id].IsActive(Later(Apply(cfg, w1, e).clock, Apply(cfg, w2, e).clock)))
    {
      AlikeRows(cfg, w1, w2, e, id);
    }
  }

  /** A label list that starts by reading the clock, or never looks at it. */
  predicate Synchronised(es: seq<Effect>) {
    es == [] || es[0].Tick? || forall i | 0 <= i < |es| :: ClockFree(es[i])
  }

  lemma {:induction false} AlikeRun(cfg: Config, w1: World, w2: World, es: seq<Effect>)
    requires cfg.Valid() && Sound(cfg, w1) && Sound(cfg, w2) && Alike(w1, w2) && Synchronised(es)
    requires Legal(cfg, w1, es) && Legal(cfg, w2, es)
    ensures Alike(Run(cfg, w1, es), Run(cfg, w2, es))
    ensures es != [] && es[0].Tick? ==> Run(cfg, w1, es).clock == Run(cfg, w2, es).clock
    decreases |es|
  {
    hide Apply, Enabled, Alike, Sound;
    if es != [] {
      var init, e := es[..|es| - 1], es[|es| - 1];
      AlikeRun(cfg, w1, w2, init);
      SoundAlong(cfg, w1, init);
      SoundAlong(cfg, w2, init);
      AlikeStep(cfg, Run(cfg, w1, init), Run(cfg, w2, init), e);
    }
  }

  /** Changes of one world alone that the other cannot notice. */
  predicate Unnoticed(w2: World, e: Effect) {
    e.Tick? || e.Log? || (e.Revoke? && e.sessionID !in w2.db.sessions) || e.Purge?
  }

  lemma UnnoticedStep(cfg: Config, w1: World, w2: World, e: Effect)
    requires cfg.Valid() && Sound(cfg, w1) && Alike(w1, w2) && Enabled(cfg, w1, e) && Unnoticed(w2, e)
    ensures Alike(Apply(cfg, w1, e), w2)
  {
  }

  lemma {:induction false} UnnoticedRun(cfg: Config, w1: World, w2: World, es: seq<Effect>)
    requires cfg.Valid() && Sound(cfg, w1) && Alike(w1, w2) && Legal(cfg, w1, es)
    requires forall i | 0 <= i < |es| :: Unnoticed(w2, es[i])
    ensures Alike(Run(cfg, w1, es), w2)
    decreases |es|
  {
    hide Apply, Enabled, Alike, Sound;
    if es != [] {
      var init := es[..|es| - 1];
      UnnoticedRun(cfg, w1, w2, init);
      SoundAlong(cfg, w1, init);
      UnnoticedStep(cfg, Run(cfg, w1, init), w2, es[|es| - 1]);
    }
  }

  // ----- One call in both worlds -----

  lemma SameUser(cfg: Config, w1: World, w2: World, name: string)
    requires Sound(cfg, w1) && Alike(w1, w2)
    ensures w1.db.UserNamed(name) == w2.db.UserNamed(name)
  {
  }

  /** Calls that do not look a session up do the same and answer the same. */
  lemma SameOutcome(cfg: Config, w1: World, w2: World, c: Call, env: Env)
    requires Sound(cfg, w1) && Alike(w1, w2) && !c.CResolve? && !c.CLogout?
    ensures Serve(cfg, w1, c, env) == Serve(cfg, w2, c, env)
    ensures Synchronised(Serve(cfg, w1, c, env).effects)
  {
    hide Run, Legal, Apply, Enabled, Sound;
    match c {
      case CRegister(username, _) => SameUser(cfg, w1, w2, cfg.normalize(username));
      case CAuthenticate(username, _, _) => SameUser(cfg, w1, w2, cfg.normalize(username));
      case _ =>
    }
  }

  /** The answers agree; only a failing revocation can show, in the world that still has a row to revoke. */
  predicate SameAnswer(step: Step, r1: Response, r2: Response) {
    r1 == r2 || (step.call.CLogout? && step.env.fault == OnRevoke)
  }

  /** The token resolves to the same row in both worlds, or to nothing usable in either. */
  ghost predicate SameRow(w1: World, w2: World, hash: string) {
    var id1, id2 := w1.db.SessionByHash(hash), w2.db.SessionByHash(hash);
    (id1.Some? && id2 == id1 && w1.db.sessions[id1.value] == w2.db.sessions[id1.value])
    || ((id1.Some? ==> id1.value !in w2.db.sessions && !w1.db.sessions[id1.value].IsActive(Later(w1.clock, w2.clock)))
        && (id2.Some? ==> id2.value !in w1.db.sessions && !w2.db.sessions[id2.value].IsActive(Later(w1.clock, w2.clock))))
  }

  lemma SameRowFound(cfg: Config, w1: World, w2: World, hash: string)
    requires Sound(cfg, w1) && Sound(cfg, w2) && Alike(w1, w2)
    ensures SameRow(w1, w2, hash)
  {
  }

  lemma LogoutShapes(cfg: Config, w1: World, w2: World, token: string, env: Env)
    requires cfg.Valid() && Sound(cfg, w1) && Sound(cfg, w2) && SameRow(w1, w2, cfg.hashToken(token))
    ensures
      var o1, o2 := LogoutCall(cfg, w1, token, env), LogoutCall(cfg, w2, token, env);
      && SameAnswer(Step(CLogout(token), env), o1.response, o2.response)
      && Synchronised(o1.effects)
      && (o1.effects == o2.effects
          || (&& (forall i | 0 <= i < |o1.effects| :: Unnoticed(w2, o1.effects[i]))
              && (forall i | 0 <= i < |o2.effects| :: Unnoticed(w1, o2.effects[i]))))
  {
    hide Run, Legal, Apply, Enabled, UsersOK, ChallengesOK, LogOK, LockExcludesSessions;
  }

  lemma LogoutAlike(cfg: Config, w1: World, w2: World, token: string, env: Env)
    requires cfg.Valid() && Sound(cfg, w1) && Sound(cfg, w2) && Alike(w1, w2)
    requires EnvOK(cfg, w1, CLogout(token), env) && EnvOK(cfg, w2, CLogout(token), env)
    ensures Alike(After(cfg, w1, CLogout(token), env), After(cfg, w2, CLogout(token), env))
    ensures SameAnswer(Step(CLogout(token), env), LogoutCall(cfg, w1, token, env).response,
                       LogoutCall(cfg, w2, token, env).response)
  {
    hide Apply, Enabled, Alike, LogoutCall, SameRow, Sound;
    SameRowFound(cfg, w1, w2, cfg.hashToken(token));
    LogoutShapes(cfg, w1, w2, token, env);
    CallLegal(cfg, w1, CLogout(token), env);
    CallLegal(cfg, w2, CLogout(token), env);
    var es1, es2 := LogoutCall(cfg, w1, token, env).effects, LogoutCall(cfg, w2, token, env).effects;
    if es1 == es2 {
      AlikeRun(cfg, w1, w2, es1);
    } else {
      UnnoticedBoth(cfg, w1, w2, es1, es2);
    }
  }

  lemma Symmetric(w1: World, w2: World)
    requires Alike(w1, w2)
    ensures Alike(w2, w1)
  {
  }

  /** Nothing but a login adds a session row. */
  lemma {:induction false} KeepsAbsence(cfg: Config, w: World, es: seq<Effect>)
    requires cfg.Valid() && Sound(cfg, w) && Legal(cfg, w, es) && forall i | 0 <= i < |es| :: !es[i].Login?
    ensures Run(cfg, w, es).db.sessions.Keys <= w.db.sessions.Keys
    decreases |es|
  {
    hide Apply, Enabled, Sound;
    if es != [] {
      var init := es[..|es| - 1];
      KeepsAbsence(cfg, w, init);
      SoundAlong(cfg, w, init);
      var before := Run(cfg, w, init);
      forall id | id in Run(cfg, w, es).db.sessions ensures id in before.db.sessions {
        NoNewRow(cfg, before, es[|es| - 1], id);
      }
    }
  }

  lemma NoNewRow(cfg: Config, w: World, e: Effect, id: int)
    requires Sound(cfg, w) && Enabled(cfg, w, e) && !e.Login?
    ensures id in Apply(cfg, w, e).db.sessions ==> id in w.db.sessions
  {
    hide Apply;
    RowFollows(cfg, w, e, id);
  }

  /** One world after the other goes on with changes that its counterpart cannot notice. */
  lemma UnnoticedBoth(cfg: Config, w1: World, w2: World, es1: seq<Effect>, es2: seq<Effect>)
    requires cfg.Valid() && Sound(cfg, w1) && Sound(cfg, w2) && Alike(w1, w2)
    requires Legal(cfg, w1, es1) && Legal(cfg, w2, es2)
    requires forall i | 0 <= i < |es1| :: Unnoticed(w2, es1[i])
    requires forall i | 0 <= i < |es2| :: Unnoticed(w1, es2[i])
    ensures Alike(Run(cfg, w1, es1), Run(cfg, w2, es2))
  {
    hide Apply, Enabled, Alike, Sound;
    UnnoticedRun(cfg, w1, w2, es1);
    Symmetric(Run(cfg, w1, es1), w2);
    KeepsAbsence(cfg, w1, es1);
    UnnoticedRun(cfg, w2, Run(cfg, w1, es1), es2);
    Symmetric(Run(cfg, w2, es2), Run(cfg, w1, es1));
  }

  /** Both worlds resolve alike; they may differ in the audit write about a session that only one still stores. */
  lemma ResolveShapes(cfg: Config, w1: World, w2: World, token: string, env: Env)
    requires SameRow(w1, w2, cfg.hashToken(token)) && w1.db.users == w2.db.users
    requires w1.clock <= env.at.start && w2.clock <= env.at.start
    ensures
      var o1, o2 := ResolveCall(cfg, w1, token, env), ResolveCall(cfg, w2, token, env);
      && o1.response == o2.response
      && Synchronised(o1.effects)
      && (o1.effects == o2.effects
          || (&& |o1.effects| >= 2 && |o2.effects| >= 2
              && o1.effects[..2] == o2.effects[..2] && Synchronised(o1.effects[..2])
              && (forall i | 2 <= i < |o1.effects| :: o1.effects[i].Tick? || o1.effects[i].Log?)
              && (forall i | 2 <= i < |o2.effects| :: o2.effects[i].Tick? || o2.effects[i].Log?)))
  {
  }

  lemma ResolveAlike(cfg: Config, w1: World, w2: World, token: string, env: Env)
    requires cfg.Valid() && Sound(cfg, w1) && Sound(cfg, w2) && Alike(w1, w2)
    requires EnvOK(cfg, w1, CResolve(token), env) && EnvOK(cfg, w2, CResolve(token), env)
    ensures Alike(After(cfg, w1, CResolve(token), env), After(cfg, w2, CResolve(token), env))
    ensures ResolveCall(cfg, w1, token, env).response == ResolveCall(cfg, w2, token, env).response
  {
    hide Apply, Enabled, ResolveCall, SameRow, Sound;
    SameRowFound(cfg, w1, w2, cfg.hashToken(token));
    ResolveShapes(cfg, w1, w2, token, env);
    CallLegal(cfg, w1, CResolve(token), env);
    CallLegal(cfg, w2, CResolve(token), env);
    var es1, es2 := ResolveCall(cfg, w1, token, env).effects, ResolveCall(cfg, w2, token, env).effects;
    if es1 == es2 {
      AlikeRun(cfg, w1, w2, es1);
    } else {
      var start, rest1, rest2 := es1[..2], es1[2..], es2[2..];
      assert es1 == start + rest1 && es2 == start + rest2;
      Split(cfg, w1, start, rest1);
      Split(cfg, w2, start, rest2);
      AlikeRun(cfg, w1, w2, start);
      SoundAlong(cfg, w1, start);
      SoundAlong(cfg, w2, start);
      UnnoticedBoth(cfg, Run(cfg, w1, start), Run(cfg, w2, start), rest1, rest2);
    }
  }

  /** One call, made in two worlds that differ by purges: the answers agree and the worlds stay alike. */
  lemma CallAlike(cfg: Config, w1: World, w2: World, c: Call, env: Env)
    requires cfg.Valid() && Sound(cfg, w1) && Sound(cfg, w2) && Alike(w1, w2) && !c.CPurge?
    requires EnvOK(cfg, w1, c, env) && EnvOK(cfg, w2, c, env)
    ensures Alike(After(cfg, w1, c, env), After(cfg, w2, c, env))
    ensures SameAnswer(Step(c, env), Serve(cfg, w1, c, env).response, Serve(cfg, w2, c, env).response)
  {
    hide Apply, Enabled, Alike, Sound, EnvOK, RegisterCall, AuthenticateCall, CompleteCall, ResolveCall, LogoutCall;
    match c {
      case CResolve(token) => ResolveAlike(cfg, w1, w2, token, env);
      case CLogout(token) => LogoutAlike(cfg, w1, w2, token, env);
      case _ =>
        SameOutcome(cfg, w1, w2, c, env);
        CallLegal(cfg, w1, c, env);
        CallLegal(cfg, w2, c, env);
        AlikeRun(cfg, w1, w2, Serve(cfg, w1, c, env).effects);
    }
  }

  lemma PurgeUnnoticed(cfg: Config, w1: World, w2: World, env: Env)
    requires cfg.Valid() && Sound(cfg, w1) && Sound(cfg, w2) && Alike(w1, w2) && EnvOK(cfg, w1, CPurge, env)
    ensures Alike(After(cfg, w1, CPurge, env), w2)
  {
    hide Apply, Enabled, Alike, Sound;
    CallLegal(cfg, w1, CPurge, env);
    UnnoticedRun(cfg, w1, w2, Serve(cfg, w1, CPurge, env).effects);
  }

  // ----- Whole runs -----

  /** The calls of a run other than purges. */
  function Others(steps: seq<Step>): seq<Step> {
    if steps == [] then []
    else Others(steps[..|steps| - 1]) + if steps[|steps| - 1].call.CPurge? then [] else [steps[|steps| - 1]]
  }

  /** Their answers. */
  ghost function Answers(cfg: Config, w: World, steps: seq<Step>): (rs: seq<Response>)
    requires cfg.Valid() && Sound(cfg, w) && StepsOK(cfg, w, steps)
    ensures |rs| == |Others(steps)|
    decreases |steps|
  {
    if steps == [] then []
    else
      var init, last := steps[..|steps| - 1], steps[|steps| - 1];
      Answers(cfg, w, init)
      + if last.call.CPurge? then [] else [Serve(cfg, AfterSteps(cfg, w, init), last.call, last.env).response]
  }

  /** Two runs that differ only in the purges inserted give the same answers to everything else. */
  lemma {:induction false} PurgesChangeNoAnswer(cfg: Config, w: World, steps1: seq<Step>, steps2: seq<Step>)
    requires cfg.Valid() && Sound(cfg, w) && StepsOK(cfg, w, steps1) && StepsOK(cfg, w, steps2)
    requires Others(steps1) == Others(steps2)
    ensures Alike(AfterSteps(cfg, w, steps1), AfterSteps(cfg, w, steps2))
    ensures forall i | 0 <= i < |Others(steps1)| ::
      SameAnswer(Others(steps1)[i], Answers(cfg, w, steps1)[i], Answers(cfg, w, steps2)[i])
    decreases |steps1| + |steps2|
  {
    hide Apply, Enabled, Sound, EnvOK, Serve;
    if steps1 != [] && steps1[|steps1| - 1].call.CPurge? {
      PurgesChangeNoAnswer(cfg, w, steps1[..|steps1| - 1], steps2);
      PurgeUnnoticed(cfg, AfterSteps(cfg, w, steps1[..|steps1| - 1]), AfterSteps(cfg, w, steps2), steps1[|steps1| - 1].env);
    } else if steps2 != [] && steps2[|steps2| - 1].call.CPurge? {
      PurgesChangeNoAnswer(cfg, w, steps1, steps2[..|steps2| - 1]);
      var w1, w2 := AfterSteps(cfg, w, steps1), AfterSteps(cfg, w, steps2[..|steps2| - 1]);
      Symmetric(w1, w2);
      PurgeUnnoticed(cfg, w2, w1, steps2[|steps2| - 1].env);
      Symmetric(After(cfg, w2, CPurge, steps2[|steps2| - 1].env), w1);
    } else if steps1 != [] && steps2 != [] {
      var init1, init2, last := steps1[..|steps1| - 1], steps2[..|steps2| - 1], steps1[|steps1| - 1];
      assert Others(init1) == Others(steps1)[..|Others(steps1)| - 1];
      assert Others(init2) == Others(steps2)[..|Others(steps2)| - 1];
      PurgesChangeNoAnswer(cfg, w, init1, init2);
      CallAlike(cfg, AfterSteps(cfg, w, init1), AfterSteps(cfg, w, init2), last.call, last.env);
    }
  }
}
