/** How many guesses a run can make against one account in a given time. */
module GuessRate {
  import opened Domain
  import opened Lockout
  import opened Machine
  import opened Invariants
  import opened FailureLaw
  import opened StaleLock

  /** Login failures counted for the user along the run: wrong passwords and wrong codes alike. */
  function Guesses(tr: seq<Effect>, userID: int): nat {
    if tr == [] then 0 else Guesses(tr[..|tr| - 1], userID) + if Hits(tr[|tr| - 1], userID) then 1 else 0
  }

  lemma {:induction false} GuessesOver(a: seq<Effect>, b: seq<Effect>, userID: int)
    ensures Guesses(a + b, userID) == Guesses(a, userID) + Guesses(b, userID)
  {
    if b == [] {
      assert a + b == a;
    } else {
      GuessesOver(a, b[..|b| - 1], userID);
      assert (a + b)[..|a + b| - 1] == a + b[..|b| - 1];
    }
  }

  lemma {:induction false} NoGuess(tr: seq<Effect>, userID: int)
    requires forall i | 0 <= i < |tr| :: !Hits(tr[i], userID)
    ensures Guesses(tr, userID) == 0
  {
    if tr != [] {
      NoGuess(tr[..|tr| - 1], userID);
    }
  }

  predicate NoLogin(tr: seq<Effect>, userID: int) {
    forall i | 0 <= i < |tr| && tr[i].Login? :: tr[i].userID != userID
  }

  /** How often an expired lock of the user was cleared along the run. */
  function Clearings(tr: seq<Effect>, userID: int): nat {
    if tr == [] then 0 else
    var e := tr[|tr| - 1];
    Clearings(tr[..|tr| - 1], userID) + if e.ClearLock? && e.userID == userID then 1 else 0
  }

  lemma {:induction false} SoundAlong(cfg: Config, w: World, tr: seq<Effect>)
    requires cfg.Valid() && Sound(cfg, w) && Legal(cfg, w, tr)
    ensures Sound(cfg, Run(cfg, w, tr)) && w.clock <= Run(cfg, w, tr).clock
    ensures w.db.users.Keys <= Run(cfg, w, tr).db.users.Keys
  {
    hide Apply, Enabled;
    if tr != [] {
      var before := Run(cfg, w, tr[..|tr| - 1]);
      SoundAlong(cfg, w, tr[..|tr| - 1]);
      Keeps(cfg, before, tr[|tr| - 1]);
      ClockAdvances(cfg, before, tr[|tr| - 1]);
    }
  }

  /** How one label moves one user's lock, counter and the clock. */
  lemma LockStep(cfg: Config, w: World, e: Effect, userID: int)
    requires cfg.Valid() && Sound(cfg, w) && Enabled(cfg, w, e)
    requires userID in w.db.users && !(e.Login? && e.userID == userID)
    ensures
      var w' := Apply(cfg, w, e);
      && w.clock <= w'.clock && userID in w'.db.users
      && var u, u' := w.db.users[userID], w'.db.users[userID];
         if Hits(e, userID) then
           && !u.IsLocked(w.clock)
           && if Trips(cfg, u) then u'.lockedUntil == Some(w.clock + cfg.lockDuration) && u'.failedLoginAttempts == 0
              else u'.lockedUntil == u.lockedUntil && u'.failedLoginAttempts == u.failedLoginAttempts + 1
         else if e.ClearLock? && e.userID == userID then
           LockExpired(u, w.clock) && u'.lockedUntil.None? && u'.failedLoginAttempts == 0
         else u'.lockedUntil == u.lockedUntil && u'.failedLoginAttempts == u.failedLoginAttempts
  {
    hide Apply;
    UserFollows(cfg, w, e, userID);
    ClockAdvances(cfg, w, e);
  }

  /** The user may be guessed at: not locked out, nothing counted yet. */
  ghost predicate FreshTarget(cfg: Config, w: World, userID: int) {
    && Sound(cfg, w) && userID in w.db.users
    && !w.db.users[userID].IsLocked(w.clock) && w.db.users[userID].failedLoginAttempts == 0
  }

  /** What the rate depends on: the lock and the counter of one user, and the clock. */
  datatype Gauge = Gauge(lock: Option<Time>, counter: int, clock: Time)

  ghost function GaugeOf(w: World, userID: int): Gauge
    requires userID in w.db.users
  {
    Gauge(w.db.users[userID].lockedUntil, w.db.users[userID].failedLoginAttempts, w.clock)
  }

  /**
   * n locks since start, the latest at the given instant, and k clearings; consecutive locks are at least
   * lockDuration apart.
   */
  ghost predicate Paced(cfg: Config, start: Time, g: Gauge, guesses: int, k: int, erased: int, n: nat, at: Time) {
    && guesses == cfg.maxAttempts * n + g.counter + erased
    && 0 <= erased <= (cfg.maxAttempts - 1) * k
    && (n == 0 ==> !(g.lock.Some? && g.lock.value > g.clock) && start <= g.clock)
    && k <= n + (if g.lock.Some? then 0 else 1)
    && (n >= 1 ==>
          && start + (n - 1) * cfg.lockDuration <= at <= g.clock
          && (g.lock.Some? ==> g.lock.value == at + cfg.lockDuration)
          && (g.lock.None? || g.counter > 0 ==> at + cfg.lockDuration <= g.clock))
  }

  lemma PacedStart(cfg: Config, g: Gauge)
    requires cfg.Valid() && g.counter == 0 && !(g.lock.Some? && g.lock.value > g.clock)
    ensures Paced(cfg, g.clock, g, 0, 0, 0, 0, g.clock)
  {
  }

  /** A failure is counted while the user is not locked out. */
  lemma PacedFailure(cfg: Config, start: Time, g: Gauge, guesses: int, k: int, erased: int, n: nat, at: Time, clock: Time)
    requires cfg.Valid() && Paced(cfg, start, g, guesses, k, erased, n, at) && g.clock <= clock
    requires !(g.lock.Some? && g.lock.value > g.clock) && 0 <= g.counter < cfg.maxAttempts
    ensures
      if g.counter + 1 < cfg.maxAttempts
      then Paced(cfg, start, Gauge(g.lock, g.counter + 1, clock), guesses + 1, k, erased, n, at)
      else Paced(cfg, start, Gauge(Some(g.clock + cfg.lockDuration), 0, clock), guesses + 1, k, erased, n + 1, g.clock)
  {
    OneMoreLock(cfg.maxAttempts, n);
    if n >= 1 {
      OneMoreLock(cfg.lockDuration, n - 1);
    }
  }

  lemma PacedClearing(cfg: Config, start: Time, g: Gauge, guesses: int, k: int, erased: int, n: nat, at: Time, clock: Time)
    requires cfg.Valid() && Paced(cfg, start, g, guesses, k, erased, n, at) && g.clock <= clock
    requires g.lock.Some? && g.lock.value <= g.clock && 0 <= g.counter < cfg.maxAttempts
    ensures Paced(cfg, start, Gauge(None, 0, clock), guesses, k + 1, erased + g.counter, n, at)
  {
    OneMoreLock(cfg.maxAttempts - 1, k);
  }

  lemma PacedWaiting(cfg: Config, start: Time, g: Gauge, guesses: int, k: int, erased: int, n: nat, at: Time, clock: Time)
    requires Paced(cfg, start, g, guesses, k, erased, n, at) && g.clock <= clock
    ensures Paced(cfg, start, g.(clock := clock), guesses, k, erased, n, at)
  {
  }

  lemma {:induction false} Pace(cfg: Config, w: World, tr: seq<Effect>, userID: int) returns (n: nat, at: Time)
    requires cfg.Valid() && FreshTarget(cfg, w, userID) && Legal(cfg, w, tr) && NoLogin(tr, userID)
    ensures userID in Run(cfg, w, tr).db.users
    ensures Paced(cfg, w.clock, GaugeOf(Run(cfg, w, tr), userID), Guesses(tr, userID), Clearings(tr, userID),
                  ErasedSince(cfg, w, tr, userID, false), n, at)
  {
    hide Apply, Enabled, Paced;
    if tr == [] {
      n, at := 0, w.clock;
      PacedStart(cfg, GaugeOf(w, userID));
    } else {
      var init, e := tr[..|tr| - 1], tr[|tr| - 1];
      var before, after := Run(cfg, w, init), Run(cfg, w, tr);
      n, at := Pace(cfg, w, init, userID);
      SoundAlong(cfg, w, init);
      assert UserRow(cfg, before.db, userID);
      LockStep(cfg, before, e, userID);
      var g, guesses, k, erased :=
        GaugeOf(before, userID), Guesses(init, userID), Clearings(init, userID), ErasedSince(cfg, w, init, userID, false);
      if Hits(e, userID) {
        PacedFailure(cfg, w.clock, g, guesses, k, erased, n, at, after.clock);
        if Trips(cfg, before.db.users[userID]) {
          n, at := n + 1, before.clock;
        }
      } else if e.ClearLock? && e.userID == userID {
        PacedClearing(cfg, w.clock, g, guesses, k, erased, n, at, after.clock);
      } else {
        PacedWaiting(cfg, w.clock, g, guesses, k, erased, n, at, after.clock);
      }
    }
  }

  /**
   * The guessing rate with nothing assumed about challenge lifetimes: over a run without a completed login,
   * at most MaxAttempts guesses for each started lockout window, plus the failures that were erased; and never
   * more than 2 * MaxAttempts - 1 a window.
   */
  lemma GuessesPerWindow(cfg: Config, w: World, tr: seq<Effect>, userID: int)
    requires cfg.Valid() && FreshTarget(cfg, w, userID) && Legal(cfg, w, tr) && NoLogin(tr, userID)
    ensures w.clock <= Run(cfg, w, tr).clock
    ensures
      var windows := (Run(cfg, w, tr).clock - w.clock) / cfg.lockDuration + 1;
      && Guesses(tr, userID) <= cfg.maxAttempts * windows + ErasedSince(cfg, w, tr, userID, false)
      && Guesses(tr, userID) <= (2 * cfg.maxAttempts - 1) * windows
  {
    hide Apply, Enabled, Legal, Run, Guesses, Clearings, ErasedSince, NoLogin;
    var n, at := Pace(cfg, w, tr, userID);
    SoundAlong(cfg, w, tr);
    var w' := Run(cfg, w, tr);
    assert UserRow(cfg, w'.db, userID);
    var counter := w'.db.users[userID].failedLoginAttempts;
    var open: int := if w'.db.users[userID].lockedUntil.Some? && counter == 0 then 1 else 0;
    if n >= 1 {
      OneMoreLock(cfg.lockDuration, n - 1);
    }
    RateArithmetic(cfg.maxAttempts, cfg.lockDuration, w'.clock - w.clock, (n as int) - open, n, counter,
                   Clearings(tr, userID), ErasedSince(cfg, w, tr, userID, false));
  }

  /** periods is the number of lockout windows known to have passed. */
  lemma RateArithmetic(m: int, d: int, elapsed: int, periods: int, n: int, counter: int, k: int, erased: int)
    requires 1 <= m && 0 < d && 0 <= elapsed && d * periods <= elapsed
    requires 0 <= counter < m && (periods == n || (periods == n - 1 && counter == 0)) && 0 <= n
    requires 0 <= k <= periods + 1 && erased <= (m - 1) * k
    ensures
      var windows := elapsed / d + 1;
      && m * n + counter + erased <= m * windows + erased
      && m * n + counter + erased <= (2 * m - 1) * windows
  {
    var windows := elapsed / d + 1;
    if periods >= 0 {
      Divides(elapsed, d, periods);
    }
    Scale(m, periods + 1, windows);
    Scale(m - 1, k, windows);
    OneMoreLock(m, n);
    assert (2 * m - 1) * windows == m * windows + (m - 1) * windows;
  }

  lemma Divides(x: int, d: int, n: int)
    requires 0 <= x && 0 < d && d * n <= x
    ensures n <= x / d
  {
    ScaleIf(d, x / d + 1, n);
    OneMoreLock(d, x / d);
  }

  lemma ScaleIf(m: int, a: int, b: int)
    requires 0 <= m
    ensures a <= b ==> m * a <= m * b
  {
  }

  lemma Scale(m: int, a: int, b: int)
    requires 0 <= m && a <= b
    ensures m * a <= m * b
  {
  }

  /** No failure of the run is counted late. */
  ghost predicate NoLateCount(cfg: Config, w: World, tr: seq<Effect>, userID: int)
    requires Legal(cfg, w, tr)
    decreases |tr|
  {
    tr != [] ==>
      && NoLateCount(cfg, w, tr[..|tr| - 1], userID)
      && !LateCount(Run(cfg, w, tr[..|tr| - 1]), tr[|tr| - 1], userID)
  }

  lemma {:induction false} NothingErased(cfg: Config, w: World, tr: seq<Effect>, userID: int)
    requires cfg.Valid() && Sound(cfg, w) && !Stale(w, userID)
    requires Legal(cfg, w, tr) && NoLateCount(cfg, w, tr, userID)
    ensures !Stale(Run(cfg, w, tr), userID)
    ensures forall onLock :: ErasedSince(cfg, w, tr, userID, onLock) == 0
  {
    hide Apply;
    if tr != [] {
      var init := tr[..|tr| - 1];
      NothingErased(cfg, w, init, userID);
      SoundAlong(cfg, w, init);
      StaleStep(cfg, Run(cfg, w, init), tr[|tr| - 1], userID);
    }
  }

  /** The plain rate, from every sound state: MaxAttempts guesses for each started lockout window. */
  lemma PlainRate(cfg: Config, w: World, tr: seq<Effect>, userID: int)
    requires cfg.Valid() && FreshTarget(cfg, w, userID) && Legal(cfg, w, tr) && NoLogin(tr, userID)
    requires NoLateCount(cfg, w, tr, userID)
    ensures Guesses(tr, userID) <= cfg.maxAttempts * ((Run(cfg, w, tr).clock - w.clock) / cfg.lockDuration + 1)
  {
    hide Apply, Enabled;
    NothingErased(cfg, w, tr, userID);
    GuessesPerWindow(cfg, w, tr, userID);
  }
}
