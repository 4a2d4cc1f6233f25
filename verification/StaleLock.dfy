/**
 * When a failure is counted on a lock that has run out but is still stored. Clearing that lock throws the failure
 * away, and this is the only way in which the plain laws fail. With challengeTTL <= lockDuration it takes one
 * particular race: the code check finds its challenge before the lock's deadline and tests the lock at or after it.
 */
module StaleLock {
  import opened Domain
  import opened Lockout
  import opened Machine
  import opened Invariants
  import opened FailureLaw

  /** Every stored challenge of a locked user expires no later than the lock. */
  ghost predicate LockCoversChallenges(w: World) {
    forall cid | cid in w.challenges && w.challenges[cid].userID in w.db.users
                 && w.db.users[w.challenges[cid].userID].lockedUntil.Some? ::
      w.challenges[cid].expiresAt <= w.db.users[w.challenges[cid].userID].lockedUntil.value
  }

  lemma CoverKept(cfg: Config, w: World, e: Effect)
    requires cfg.Valid() && cfg.ShortChallenges() && Sound(cfg, w) && LockCoversChallenges(w) && Enabled(cfg, w, e)
    ensures LockCoversChallenges(Apply(cfg, w, e))
  {
    hide Apply;
    forall cid | cid in Apply(cfg, w, e).challenges
      ensures
        var w' := Apply(cfg, w, e);
        var id := w'.challenges[cid].userID;
        id in w'.db.users && w'.db.users[id].lockedUntil.Some? ==>
          w'.challenges[cid].expiresAt <= w'.db.users[id].lockedUntil.value
    {
      ChallengeFollows(cfg, w, e, cid);
      UserFollows(cfg, w, e, Apply(cfg, w, e).challenges[cid].userID);
    }
  }

  lemma {:induction false} CoverReachable(cfg: Config, t0: Time, tr: seq<Effect>)
    requires cfg.Valid() && cfg.ShortChallenges() && Legal(cfg, Start(t0), tr)
    ensures LockCoversChallenges(Run(cfg, Start(t0), tr))
  {
    hide Apply;
    if tr != [] {
      CoverReachable(cfg, t0, tr[..|tr| - 1]);
      Reachable(cfg, t0, tr[..|tr| - 1]);
      CoverKept(cfg, Run(cfg, Start(t0), tr[..|tr| - 1]), tr[|tr| - 1]);
    }
  }

  /** A wrong code is counted although the row still holds a lock, which had run out when the check tested it. */
  predicate LateCount(w: World, e: Effect, userID: int) {
    && Hits(e, userID) && e.cause.WrongCode?
    && userID in w.db.users && w.db.users[userID].lockedUntil.Some?
    && w.db.users[userID].lockedUntil.value <= e.cause.checkedAt
  }

  /** The code check's two clock readings fall on both sides of the lock's deadline. */
  predicate Straddles(w: World, e: Effect, userID: int) {
    LateCount(w, e, userID) && e.cause.foundAt < w.db.users[userID].lockedUntil.value
  }

  /** With short challenges, a late count is always that race. */
  lemma LateCountStraddles(cfg: Config, w: World, e: Effect, userID: int)
    requires LockCoversChallenges(w) && Enabled(cfg, w, e)
    ensures LateCount(w, e, userID) <==> Straddles(w, e, userID)
  {
  }

  /** Since the lock was last set, some failure was counted late. */
  ghost predicate CountedLate(cfg: Config, w: World, tr: seq<Effect>, userID: int)
    requires Legal(cfg, w, tr)
    decreases |tr|
  {
    tr != [] &&
    var before, e := Run(cfg, w, tr[..|tr| - 1]), tr[|tr| - 1];
    if Hits(e, userID) then
      !Trips(cfg, before.db.users[userID]) && (CountedLate(cfg, w, tr[..|tr| - 1], userID) || LateCount(before, e, userID))
    else if (e.ClearLock? || e.Login?) && e.userID == userID then false
    else CountedLate(cfg, w, tr[..|tr| - 1], userID)
  }

  /** A set lock together with a counter that the next clearing would throw away. */
  ghost predicate Stale(w: World, userID: int) {
    userID in w.db.users && w.db.users[userID].lockedUntil.Some? && w.db.users[userID].failedLoginAttempts > 0
  }

  lemma StaleStep(cfg: Config, w: World, e: Effect, userID: int)
    requires cfg.Valid() && Sound(cfg, w) && Enabled(cfg, w, e)
    ensures Stale(Apply(cfg, w, e), userID) <==>
      if Hits(e, userID) then !Trips(cfg, w.db.users[userID]) && (Stale(w, userID) || LateCount(w, e, userID))
      else Stale(w, userID) && !((e.ClearLock? || e.Login?) && e.userID == userID)
  {
    hide Apply;
    UserFollows(cfg, w, e, userID);
  }

  /** Clearing an expired lock would change the counter exactly when a failure was counted late. */
  lemma {:induction false} StaleIffCountedLate(cfg: Config, t0: Time, tr: seq<Effect>, userID: int)
    requires cfg.Valid() && Legal(cfg, Start(t0), tr)
    ensures Stale(Run(cfg, Start(t0), tr), userID) <==> CountedLate(cfg, Start(t0), tr, userID)
  {
    hide Apply;
    if tr != [] {
      var init := tr[..|tr| - 1];
      StaleIffCountedLate(cfg, t0, init, userID);
      Reachable(cfg, t0, init);
      StaleStep(cfg, Run(cfg, Start(t0), init), tr[|tr| - 1], userID);
    }
  }

  /** Since the user's last completed login (or last lock), a lock on which a failure was counted late was cleared. */
  ghost predicate LateCleared(cfg: Config, w: World, tr: seq<Effect>, userID: int, onLock: bool)
    requires Legal(cfg, w, tr)
    decreases |tr|
  {
    tr != [] &&
    var init, e := tr[..|tr| - 1], tr[|tr| - 1];
    && !Resets(cfg, Run(cfg, w, init), e, userID, onLock)
    && (LateCleared(cfg, w, init, userID, onLock)
        || (e.ClearLock? && e.userID == userID && CountedLate(cfg, w, init, userID)))
  }

  lemma {:induction false} ErasedIffLateCleared(cfg: Config, t0: Time, tr: seq<Effect>, userID: int, onLock: bool)
    requires cfg.Valid() && Legal(cfg, Start(t0), tr)
    ensures ErasedSince(cfg, Start(t0), tr, userID, onLock) >= 0
    ensures ErasedSince(cfg, Start(t0), tr, userID, onLock) > 0 <==> LateCleared(cfg, Start(t0), tr, userID, onLock)
  {
    hide Apply;
    if tr != [] {
      var init := tr[..|tr| - 1];
      ErasedIffLateCleared(cfg, t0, init, userID, onLock);
      Reachable(cfg, t0, init);
      StaleIffCountedLate(cfg, t0, init, userID);
    }
  }

  /**
   * The plain conservation law, exactly: counted failures since the last completed login are MaxAttempts times the
   * locks plus the stored counter, if and only if no lock with a late count was cleared since.
   */
  lemma PlainConservation(cfg: Config, t0: Time, tr: seq<Effect>, userID: int)
    requires cfg.Valid() && Legal(cfg, Start(t0), tr)
    requires userID in Run(cfg, Start(t0), tr).db.users
    ensures
      var w := Run(cfg, Start(t0), tr);
      var t := Since(w.db.events, userID);
      (t.failures == cfg.maxAttempts * t.locks + w.db.users[userID].failedLoginAttempts)
      <==> !LateCleared(cfg, Start(t0), tr, userID, false)
  {
    hide Apply;
    Conservation(cfg, t0, tr, userID);
    ErasedIffLateCleared(cfg, t0, tr, userID, false);
  }
}
