/**
 * Conservation of counted failures over whole runs. A wrong code can be counted on a row whose lock has run out but
 * has not been cleared yet. The next password attempt clears that lock and zeroes the counter, so those failures are
 * forgotten; ErasedSince measures exactly how many.
 */
module FailureLaw {
  import opened Domain
  import opened Lockout
  import opened Machine
  import opened Invariants

  // ----- Reading the audit log -----

  predicate Counted(ev: Event, userID: int) {
    ev.userID == Some(userID)
    && ((ev.kind == EvLoginFailed && ev.detail == WrongPasswordDetail)
        || (ev.kind == EvTOTPFailed && ev.detail.InvalidCode?))
  }

  predicate Happened(ev: Event, userID: int, kind: EventKind) {
    ev.userID == Some(userID) && ev.kind == kind
  }

  /** Counted failures and account_locked events since the user's last completed login, or since registration. */
  datatype Tally = Tally(failures: nat, locks: nat)

  function Next(t: Tally, ev: Event, userID: int): Tally {
    if Happened(ev, userID, EvLoginSucceeded) then Tally(0, 0)
    else if Counted(ev, userID) then t.(failures := t.failures + 1)
    else if Happened(ev, userID, EvAccountLocked) then t.(locks := t.locks + 1)
    else t
  }

  function Since(log: seq<Event>, userID: int): Tally {
    if log == [] then Tally(0, 0) else Next(Since(log[..|log| - 1], userID), log[|log| - 1], userID)
  }

  /** The points at which forgotten failures stop mattering: a completed login, and on request a new lock. */
  ghost predicate Resets(cfg: Config, w: World, e: Effect, userID: int, onLock: bool)
    requires Enabled(cfg, w, e)
  {
    || (e.Login? && e.userID == userID)
    || (onLock && Hits(e, userID) && Trips(cfg, w.db.users[userID]))
  }

  /** Failures forgotten by clearing an expired lock, since the user's last completed login (or last lock). */
  ghost function ErasedSince(cfg: Config, w: World, tr: seq<Effect>, userID: int, onLock: bool): int
    requires Legal(cfg, w, tr)
    decreases |tr|
  {
    if tr == [] then 0 else
    var init, e := tr[..|tr| - 1], tr[|tr| - 1];
    var before := Run(cfg, w, init);
    if Resets(cfg, before, e, userID, onLock) then 0
    else ErasedSince(cfg, w, init, userID, onLock)
         + if e.ClearLock? && e.userID == userID then before.db.users[userID].failedLoginAttempts else 0
  }

  predicate Hits(e: Effect, userID: int) {
    e.CountFailure? && e.userID == userID
  }

  /** The failure that reaches MaxAttempts. */
  predicate Locking(cfg: Config, w: World, e: Effect, userID: int) {
    Hits(e, userID) && userID in w.db.users && Trips(cfg, w.db.users[userID])
  }

  lemma LogGrows(log: seq<Event>, ev: Event, userID: int)
    ensures Since(log + [ev], userID) == Next(Since(log, userID), ev, userID)
  {
    assert (log + [ev])[..|log|] == log;
  }

  /** The events of one label, seen from one user: a counted failure, a lock, or the login that ends the count. */
  lemma EmittedFor(cfg: Config, w: World, e: Effect, userID: int)
    requires Sound(cfg, w) && Enabled(cfg, w, e)
    ensures
      var evs := Emitted(cfg, w, e);
      && |evs| <= 2
      && (forall i | 0 <= i < |evs| ::
            && (Happened(evs[i], userID, EvLoginSucceeded) <==> e.Login? && e.userID == userID)
            && (Counted(evs[i], userID) <==> Hits(e, userID) && i == 0)
            && (Happened(evs[i], userID, EvAccountLocked) <==> Hits(e, userID) && i == 1))
      && (e.Login? ==> |evs| == 1)
      && (Hits(e, userID) ==> |evs| == if Locking(cfg, w, e, userID) then 2 else 1)
  {
  }

  /** What one label adds to the two counts read from the log. */
  lemma LogStep(cfg: Config, w: World, e: Effect, userID: int)
    requires Sound(cfg, w) && Enabled(cfg, w, e)
    ensures
      var t, t' := Since(w.db.events, userID), Since(Apply(cfg, w, e).db.events, userID);
      if e.Login? && e.userID == userID then t' == Tally(0, 0)
      else if !Hits(e, userID) then t' == t
      else t' == Tally(t.failures + 1, t.locks + if Locking(cfg, w, e, userID) then 1 else 0)
  {
    hide Apply, Enabled, Emitted, Happened, Counted, Sound;
    EmittedFor(cfg, w, e, userID);
    var log, evs := w.db.events, Emitted(cfg, w, e);
    assert Apply(cfg, w, e).db.events == log + evs by {
      AppendsEmitted(cfg, w, e);
    }
    if |evs| == 0 {
      assert log + evs == log;
    } else {
      LogGrows(log, evs[0], userID);
      if |evs| == 1 {
        assert log + evs == log + [evs[0]];
      } else {
        LogGrows(log + [evs[0]], evs[1], userID);
        assert log + evs == log + [evs[0]] + [evs[1]];
      }
    }
  }

  ghost predicate Balanced(cfg: Config, w: World, userID: int, erased: int) {
    var t := Since(w.db.events, userID);
    && t.failures == cfg.maxAttempts * t.locks
         + (if userID in w.db.users then w.db.users[userID].failedLoginAttempts else 0) + erased
    && (userID !in w.db.users ==> t.failures == 0)
  }

  lemma StaysBalanced(cfg: Config, w: World, e: Effect, userID: int, erased: int)
    requires cfg.Valid() && Sound(cfg, w) && Enabled(cfg, w, e) && Balanced(cfg, w, userID, erased)
    ensures
      var lost := if e == ClearLock(userID) then w.db.users[userID].failedLoginAttempts else 0;
      Balanced(cfg, Apply(cfg, w, e), userID, if e.Login? && e.userID == userID then 0 else erased + lost)
  {
    hide Apply, Since, Sound;
    LogStep(cfg, w, e, userID);
    OneMoreLock(cfg.maxAttempts, Since(w.db.events, userID).locks);
    CounterStep(cfg, w, e, userID);
  }

  /**
   * Failure conservation with nothing assumed: since the last completed login, the counted
   * failures are MaxAttempts times the locks, plus the stored counter, plus what was erased.
   */
  lemma {:induction false} Conservation(cfg: Config, t0: Time, tr: seq<Effect>, userID: int)
    requires cfg.Valid() && Legal(cfg, Start(t0), tr)
    ensures
      var w := Run(cfg, Start(t0), tr);
      Since(w.db.events, userID).failures
        == cfg.maxAttempts * Since(w.db.events, userID).locks
           + (if userID in w.db.users then w.db.users[userID].failedLoginAttempts else 0)
           + ErasedSince(cfg, Start(t0), tr, userID, false)
    ensures userID !in Run(cfg, Start(t0), tr).db.users ==>
      Since(Run(cfg, Start(t0), tr).db.events, userID).failures == 0
  {
    hide Apply, Enabled;
    if tr != [] {
      var init, e := tr[..|tr| - 1], tr[|tr| - 1];
      Conservation(cfg, t0, init, userID);
      Reachable(cfg, t0, init);
      StaysBalanced(cfg, Run(cfg, Start(t0), init), e, userID, ErasedSince(cfg, Start(t0), init, userID, false));
    }
  }

  lemma OneMoreLock(m: int, n: int)
    ensures m * (n + 1) == m * n + m
  {
  }

  /** The stored counter changes only when a failure is counted, a login completes or an expired lock is cleared. */
  lemma CounterStep(cfg: Config, w: World, e: Effect, userID: int)
    requires cfg.Valid() && Sound(cfg, w) && Enabled(cfg, w, e)
    ensures userID in w.db.users ==> userID in Apply(cfg, w, e).db.users
    ensures
      var db' := Apply(cfg, w, e).db;
      if userID !in w.db.users then userID in db'.users ==> db'.users[userID].failedLoginAttempts == 0
      else
        var u, u' := w.db.users[userID], db'.users[userID];
        match e
        case CountFailure(id, _, _) =>
          if id != userID then u' == u
          else u'.failedLoginAttempts == u.failedLoginAttempts + 1 - if Trips(cfg, u) then cfg.maxAttempts else 0
        case Login(id, _, _, _, _) => u'.failedLoginAttempts == if id == userID then 0 else u.failedLoginAttempts
        case ClearLock(id) => u'.failedLoginAttempts == if id == userID then 0 else u.failedLoginAttempts
        case _ => u'.failedLoginAttempts == u.failedLoginAttempts
  {
    hide Apply, Run, Legal, Since;
    UserFollows(cfg, w, e, userID);
  }
}
