/** The audit log determines the user row: folding a user's events rebuilds it in every reachable state. */
module AuditReplay {
  import opened Domain
  import opened Machine
  import opened Invariants
  import opened FailureLaw
  import opened StaleLock

  /** What the log says about an account. */
  datatype Row = Row(
    registered: bool,
    failures: int,
    lockedUntil: Option<Time>,
    enabled: bool,
    confirmedAt: Option<Time>,
    lastLogin: Option<Time>)

  const UNKNOWN := Row(false, 0, None, false, None, None)

  function Absorb(cfg: Config, row: Row, ev: Event, userID: int): Row {
    if ev.userID != Some(userID) then row
    else if Counted(ev, userID) then row.(failures := row.failures + 1)
    else match ev.kind
      case EvRegistered => UNKNOWN.(registered := true)
      case EvAccountLocked => row.(failures := 0, lockedUntil := Some(ev.createdAt + cfg.lockDuration))
      case EvLoginSucceeded => row.(failures := 0, lockedUntil := None, lastLogin := Some(ev.createdAt))
      case EvTOTPEnabled => row.(enabled := true, confirmedAt := Some(ev.createdAt))
      case EvTOTPDisabled => row.(enabled := false, confirmedAt := None)
      case _ => row
  }

  function Replay(cfg: Config, log: seq<Event>, userID: int): Row {
    if log == [] then UNKNOWN else Absorb(cfg, Replay(cfg, log[..|log| - 1], userID), log[|log| - 1], userID)
  }

  lemma IgnoredByRow(cfg: Config, row: Row, ev: Event, userID: int)
    requires BestEffort(ev.kind, ev.detail)
    ensures Absorb(cfg, row, ev, userID) == row
  {
  }

  /** Losing a best-effort append, or gaining one, changes nothing. */
  lemma {:induction false} IgnoresBestEffort(cfg: Config, log: seq<Event>, i: nat, userID: int)
    requires i < |log| && BestEffort(log[i].kind, log[i].detail)
    ensures Replay(cfg, log[..i] + log[i + 1..], userID) == Replay(cfg, log, userID)
  {
    hide Absorb, BestEffort;
    var last, rest := |log| - 1, log[..i] + log[i + 1..];
    IgnoredByRow(cfg, Replay(cfg, log[..last], userID), log[i], userID);
    if i < last {
      IgnoresBestEffort(cfg, log[..last], i, userID);
      assert rest[..|rest| - 1] == log[..last][..i] + log[..last][i + 1..];
    } else {
      assert rest == log[..last];
    }
  }

  function Continue(cfg: Config, row: Row, evs: seq<Event>, userID: int): Row
    requires |evs| <= 2
  {
    if |evs| == 0 then row
    else if |evs| == 1 then Absorb(cfg, row, evs[0], userID)
    else Absorb(cfg, Absorb(cfg, row, evs[0], userID), evs[1], userID)
  }

  lemma ReplayOver(cfg: Config, log: seq<Event>, evs: seq<Event>, userID: int)
    requires |evs| <= 2
    ensures Replay(cfg, log + evs, userID) == Continue(cfg, Replay(cfg, log, userID), evs, userID)
  {
    if |evs| == 0 {
      assert log + evs == log;
    } else {
      assert (log + [evs[0]])[..|log|] == log;
      if |evs| == 1 {
        assert log + evs == log + [evs[0]];
      } else {
        assert (log + evs)[..|log| + 1] == log + [evs[0]];
      }
    }
  }

  /** The stored row agrees with the replayed one, up to the failures that a cleared lock made the row forget. */
  ghost predicate Agrees(w: World, row: Row, userID: int, forgotten: int) {
    if userID !in w.db.users then row == UNKNOWN && forgotten == 0
    else
      var u := w.db.users[userID];
      && row.registered
      && row.failures == u.failedLoginAttempts + forgotten
      && row.enabled == u.totpEnabled
      && row.confirmedAt == u.totpConfirmedAt
      && row.lastLogin == u.lastLoginAt
      && (row.lockedUntil == u.lockedUntil
          || (u.lockedUntil.None? && row.lockedUntil.Some? && row.lockedUntil.value <= w.clock))
  }

  ghost function Forgets(cfg: Config, w: World, e: Effect, userID: int, forgotten: int): int
    requires Enabled(cfg, w, e)
  {
    if Resets(cfg, w, e, userID, true) then 0
    else forgotten + if e.ClearLock? && e.userID == userID then w.db.users[userID].failedLoginAttempts else 0
  }

  ghost predicate StaysInStep(cfg: Config, w: World, e: Effect, row: Row, userID: int, forgotten: int)
    requires Enabled(cfg, w, e)
  {
    && |Emitted(cfg, w, e)| <= 2
    && Agrees(Apply(cfg, w, e), Continue(cfg, row, Emitted(cfg, w, e), userID), userID,
              Forgets(cfg, w, e, userID, forgotten))
  }

  lemma InStepOnFailure(cfg: Config, w: World, e: Effect, row: Row, userID: int, forgotten: int)
    requires UsersOK(cfg, w.db) && Enabled(cfg, w, e) && Agrees(w, row, userID, forgotten)
    requires e.CountFailure?
    ensures StaysInStep(cfg, w, e, row, userID, forgotten)
  {
    hide Apply, Run, Legal, Replay, Since, ErasedSince;
    UserFollows(cfg, w, e, userID);
    ClockAdvances(cfg, w, e);
    if e.userID == userID {
    } else {
    }
  }

  lemma InStepOnEvent(cfg: Config, w: World, e: Effect, row: Row, userID: int, forgotten: int)
    requires UsersOK(cfg, w.db) && Enabled(cfg, w, e) && Agrees(w, row, userID, forgotten)
    requires e.Register? || e.Login? || e.EnableTOTP? || e.DisableTOTP?
    ensures StaysInStep(cfg, w, e, row, userID, forgotten)
  {
    hide Apply, Run, Legal, Replay, Since, ErasedSince;
    UserFollows(cfg, w, e, userID);
    ClockAdvances(cfg, w, e);
  }

  lemma InStepOtherwise(cfg: Config, w: World, e: Effect, row: Row, userID: int, forgotten: int)
    requires UsersOK(cfg, w.db) && Enabled(cfg, w, e) && Agrees(w, row, userID, forgotten)
    requires !e.CountFailure? && !e.Register? && !e.Login? && !e.EnableTOTP? && !e.DisableTOTP?
    ensures StaysInStep(cfg, w, e, row, userID, forgotten)
  {
    hide Apply, Run, Legal, Replay, Since, ErasedSince;
    UserFollows(cfg, w, e, userID);
    ClockAdvances(cfg, w, e);
  }

  /** Replay in every reachable state, with no assumption on challenge lifetimes. */
  lemma {:induction false} ReplayAgrees(cfg: Config, t0: Time, tr: seq<Effect>, userID: int)
    requires cfg.Valid() && Legal(cfg, Start(t0), tr)
    ensures
      var w := Run(cfg, Start(t0), tr);
      Agrees(w, Replay(cfg, w.db.events, userID), userID, ErasedSince(cfg, Start(t0), tr, userID, true))
  {
    if tr != [] {
      hide Apply, Enabled, Agrees, Absorb;
      var init, e := tr[..|tr| - 1], tr[|tr| - 1];
      var w := Run(cfg, Start(t0), init);
      ReplayAgrees(cfg, t0, init, userID);
      Reachable(cfg, t0, init);
      AppendsEmitted(cfg, w, e);
      ReplayOver(cfg, w.db.events, Emitted(cfg, w, e), userID);
      var row, forgotten := Replay(cfg, w.db.events, userID), ErasedSince(cfg, Start(t0), init, userID, true);
      if e.CountFailure? {
        InStepOnFailure(cfg, w, e, row, userID, forgotten);
      } else if e.Register? || e.Login? || e.EnableTOTP? || e.DisableTOTP? {
        InStepOnEvent(cfg, w, e, row, userID, forgotten);
      } else {
        InStepOtherwise(cfg, w, e, row, userID, forgotten);
      }
    }
  }

  /** The five columns that the log is meant to explain, IsLocked at every instant from now on. */
  ghost predicate Rebuilds(w: World, row: Row, userID: int) {
    && userID in w.db.users
    && var u := w.db.users[userID];
       && row.failures == u.failedLoginAttempts
       && row.enabled == u.totpEnabled
       && row.confirmedAt == u.totpConfirmedAt
       && row.lastLogin == u.lastLoginAt
       && forall now | w.clock <= now :: u.IsLocked(now) <==> (row.lockedUntil.Some? && row.lockedUntil.value > now)
  }

  /**
   * The log rebuilds the row exactly unless a lock with a late count was cleared since the last login or lock. All
   * columns but the counter are rebuilt even then.
   */
  lemma PlainReplay(cfg: Config, t0: Time, tr: seq<Effect>, userID: int)
    requires cfg.Valid() && Legal(cfg, Start(t0), tr)
    requires userID in Run(cfg, Start(t0), tr).db.users
    ensures
      var w := Run(cfg, Start(t0), tr);
      var row := Replay(cfg, w.db.events, userID);
      && (Rebuilds(w, row, userID) <==> !LateCleared(cfg, Start(t0), tr, userID, true))
      && Rebuilds(w, row.(failures := w.db.users[userID].failedLoginAttempts), userID)
  {
    hide Apply, Enabled, Replay;
    ReplayAgrees(cfg, t0, tr, userID);
    ErasedIffLateCleared(cfg, t0, tr, userID, true);
  }
}
