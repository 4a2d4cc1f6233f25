/**
 * Resolve as two separate steps, the lookup and the Touch, with anything at all from other shells in
 * between: revocations, lockouts, purges, other lookups and touches.
 */
module Interleaving {
  import opened Domain
  import opened Machine
  import opened Invariants
  import opened Tokens

  /** A shell between its lookup and its Touch. */
  datatype Pending = Pending(sessionID: int, seenAt: Time, idleExpiresAt: Time)

  datatype System = System(w: World, pending: map<int, Pending>)

  datatype Move =
    | Base(e: Effect)
    | Lookup(shell: int, tokenHash: string)
    | Touch(shell: int)

  ghost predicate Allowed(cfg: Config, s: System, m: Move) {
    match m
    case Base(e) => Enabled(cfg, s.w, e)
    case Lookup(_, hash) =>
      var id := s.w.db.SessionByHash(hash);
      id.Some? && s.w.db.sessions[id.value].IsActive(s.w.clock)
    case Touch(shell) => shell in s.pending
  }

  ghost function Do(cfg: Config, s: System, m: Move): System
    requires Allowed(cfg, s, m)
  {
    match m
    case Base(e) => s.(w := Apply(cfg, s.w, e))
    case Lookup(shell, hash) =>
      var id := s.w.db.SessionByHash(hash).value;
      s.(pending := s.pending[shell := Pending(id, s.w.clock, SlideTo(cfg, s.w.db.sessions[id], s.w.clock))])
    case Touch(shell) =>
      var p := s.pending[shell];
      System(s.w.(db := s.w.db.Touch(p.sessionID, p.seenAt, p.idleExpiresAt)), s.pending - {shell})
  }

  /** The Touch finds its row, so the resolve succeeds. */
  predicate TouchSucceeds(s: System, shell: int) {
    && shell in s.pending
    && s.pending[shell].sessionID in s.w.db.sessions
    && s.w.db.sessions[s.pending[shell].sessionID].revokedAt.None?
  }

  ghost predicate Plays(cfg: Config, s: System, ms: seq<Move>)
    decreases |ms|, 0
  {
    ms == [] || (Plays(cfg, s, ms[..|ms| - 1]) && Allowed(cfg, Play(cfg, s, ms[..|ms| - 1]), ms[|ms| - 1]))
  }

  ghost function Play(cfg: Config, s: System, ms: seq<Move>): System
    requires Plays(cfg, s, ms)
    decreases |ms|, 1
  {
    if ms == [] then s else Do(cfg, Play(cfg, s, ms[..|ms| - 1]), ms[|ms| - 1])
  }

  lemma OneMoreMove(cfg: Config, s: System, ms: seq<Move>, m: Move)
    requires Plays(cfg, s, ms) && Allowed(cfg, Play(cfg, s, ms), m)
    ensures Plays(cfg, s, ms + [m]) && Play(cfg, s, ms + [m]) == Do(cfg, Play(cfg, s, ms), m)
  {
    hide Allowed, Do;
    assert (ms + [m])[..|ms|] == ms;
  }

  // ----- Interleaving breaks no invariant -----

  ghost predicate PendingOK(cfg: Config, s: System, shell: int)
    requires shell in s.pending
  {
    var p := s.pending[shell];
    && p.sessionID < s.w.db.nextSessionID && p.seenAt <= s.w.clock
    && (p.sessionID in s.w.db.sessions ==>
          s.w.db.sessions[p.sessionID].issuedAt <= p.seenAt
          && p.idleExpiresAt == SlideTo(cfg, s.w.db.sessions[p.sessionID], p.seenAt))
  }

  ghost predicate SystemOK(cfg: Config, s: System) {
    Sound(cfg, s.w) && forall shell | shell in s.pending :: PendingOK(cfg, s, shell)
  }

  lemma PendingSurvives(cfg: Config, s: System, e: Effect, shell: int)
    requires cfg.Valid() && SystemOK(cfg, s) && Enabled(cfg, s.w, e) && shell in s.pending
    ensures PendingOK(cfg, s.(w := Apply(cfg, s.w, e)), shell)
  {
    hide Apply;
    assert PendingOK(cfg, s, shell);
    ClockAdvances(cfg, s.w, e);
    RowFollows(cfg, s.w, e, s.pending[shell].sessionID);
  }

  lemma SystemKept(cfg: Config, s: System, m: Move)
    requires cfg.Valid() && SystemOK(cfg, s) && Allowed(cfg, s, m)
    ensures SystemOK(cfg, Do(cfg, s, m))
  {
    hide Apply, Enabled;
    match m {
      case Base(e) =>
        Keeps(cfg, s.w, e);
        forall shell | shell in s.pending ensures PendingOK(cfg, s.(w := Apply(cfg, s.w, e)), shell) {
          PendingSurvives(cfg, s, e, shell);
        }
      case Lookup(shell, hash) =>
      case Touch(shell) => assert PendingOK(cfg, s, shell);
    }
  }

  lemma {:induction false} SystemOKAlong(cfg: Config, s: System, ms: seq<Move>)
    requires cfg.Valid() && SystemOK(cfg, s) && Plays(cfg, s, ms)
    ensures SystemOK(cfg, Play(cfg, s, ms))
    decreases |ms|
  {
    hide Do, Allowed;
    if ms != [] {
      SystemOKAlong(cfg, s, ms[..|ms| - 1]);
      SystemKept(cfg, Play(cfg, s, ms[..|ms| - 1]), ms[|ms| - 1]);
    }
  }

  // ----- A revoked session never changes again -----

  /** The row is gone for good, or still exactly what it was. */
  predicate Frozen(w: World, row: Session) {
    row.id < w.db.nextSessionID && (row.id in w.db.sessions ==> w.db.sessions[row.id] == row)
  }

  lemma FrozenStep(cfg: Config, s: System, m: Move, row: Session)
    requires cfg.Valid() && SystemOK(cfg, s) && Allowed(cfg, s, m) && row.revokedAt.Some? && Frozen(s.w, row)
    ensures Frozen(Do(cfg, s, m).w, row)
    ensures row.id !in s.w.db.sessions ==> row.id !in Do(cfg, s, m).w.db.sessions
  {
    hide Apply;
    if m.Base? {
      ClockAdvances(cfg, s.w, m.e);
      RowFollows(cfg, s.w, m.e, row.id);
    }
  }

  /**
   * RevokedAt, deadlines and LastSeenAt of a revoked session stay as they are until the row is deleted; it never comes
   * back.
   */
  lemma {:induction false} RevokedStaysFrozen(cfg: Config, s: System, ms: seq<Move>, row: Session)
    requires cfg.Valid() && SystemOK(cfg, s) && Plays(cfg, s, ms)
    requires row.revokedAt.Some? && Frozen(s.w, row)
    ensures Frozen(Play(cfg, s, ms).w, row)
    ensures row.id !in s.w.db.sessions ==> row.id !in Play(cfg, s, ms).w.db.sessions
    decreases |ms|
  {
    hide Do, Allowed;
    if ms != [] {
      RevokedStaysFrozen(cfg, s, ms[..|ms| - 1], row);
      SystemOKAlong(cfg, s, ms[..|ms| - 1]);
      FrozenStep(cfg, Play(cfg, s, ms[..|ms| - 1]), ms[|ms| - 1], row);
    }
  }

  // ----- A resolve succeeds exactly if nothing ended its session meanwhile -----

  /** The session is still there and unrevoked. */
  predicate Standing(w: World, id: int) {
    id in w.db.sessions && w.db.sessions[id].revokedAt.None?
  }

  /** Some move of the run revoked or deleted the session. */
  ghost predicate EndedDuring(cfg: Config, s: System, ms: seq<Move>, id: int)
    requires Plays(cfg, s, ms)
    decreases |ms|
  {
    ms != [] &&
    var before := Play(cfg, s, ms[..|ms| - 1]);
    EndedDuring(cfg, s, ms[..|ms| - 1], id)
    || (Standing(before.w, id) && !Standing(Do(cfg, before, ms[|ms| - 1]).w, id))
  }

  lemma StandingStep(cfg: Config, s: System, m: Move, id: int)
    requires cfg.Valid() && SystemOK(cfg, s) && Allowed(cfg, s, m)
    requires id < s.w.db.nextSessionID && !Standing(s.w, id)
    ensures id < Do(cfg, s, m).w.db.nextSessionID && !Standing(Do(cfg, s, m).w, id)
  {
    hide Apply;
    if m.Base? {
      ClockAdvances(cfg, s.w, m.e);
      RowFollows(cfg, s.w, m.e, id);
    }
  }

  lemma {:induction false} StandingUnlessEnded(cfg: Config, s: System, ms: seq<Move>, id: int)
    requires cfg.Valid() && SystemOK(cfg, s) && Plays(cfg, s, ms) && Standing(s.w, id)
    ensures Standing(Play(cfg, s, ms).w, id) <==> !EndedDuring(cfg, s, ms, id)
    ensures id < Play(cfg, s, ms).w.db.nextSessionID
    decreases |ms|
  {
    hide Do, Allowed;
    if ms == [] {
      assert SessionRow(cfg, s.w, id);
    } else {
      var init := ms[..|ms| - 1];
      StandingUnlessEnded(cfg, s, init, id);
      SystemOKAlong(cfg, s, init);
      var before := Play(cfg, s, init);
      if Standing(before.w, id) {
        StandingHasID(cfg, before, ms[|ms| - 1], id);
      } else {
        StandingStep(cfg, before, ms[|ms| - 1], id);
      }
    }
  }

  lemma StandingHasID(cfg: Config, s: System, m: Move, id: int)
    requires cfg.Valid() && SystemOK(cfg, s) && Allowed(cfg, s, m) && Standing(s.w, id)
    ensures id < Do(cfg, s, m).w.db.nextSessionID
  {
    hide Apply;
    assert SessionRow(cfg, s.w, id);
    if m.Base? {
      ClockAdvances(cfg, s.w, m.e);
    }
  }

  predicate LeavesAlone(ms: seq<Move>, shell: int) {
    forall i | 0 <= i < |ms| && !ms[i].Base? :: ms[i].shell != shell
  }

  lemma {:induction false} PendingKept(cfg: Config, s: System, ms: seq<Move>, shell: int)
    requires Plays(cfg, s, ms) && LeavesAlone(ms, shell) && shell in s.pending
    ensures shell in Play(cfg, s, ms).pending && Play(cfg, s, ms).pending[shell] == s.pending[shell]
    decreases |ms|
  {
    hide Apply, Enabled;
    if ms != [] {
      PendingKept(cfg, s, ms[..|ms| - 1], shell);
    }
  }

  /**
   * A shell looks a live session up, others do whatever they like, then the shell touches the row:
   * the resolve succeeds if and only if nothing revoked or deleted that session in between.
   */
  lemma ResolveSucceedsIffNotEnded(cfg: Config, s: System, shell: int, hash: string, ms: seq<Move>)
    requires cfg.Valid() && SystemOK(cfg, s) && Allowed(cfg, s, Lookup(shell, hash))
    requires Plays(cfg, Do(cfg, s, Lookup(shell, hash)), ms) && LeavesAlone(ms, shell)
    ensures
      var looked := Do(cfg, s, Lookup(shell, hash));
      TouchSucceeds(Play(cfg, looked, ms), shell) <==> !EndedDuring(cfg, looked, ms, looked.pending[shell].sessionID)
  {
    var looked := Do(cfg, s, Lookup(shell, hash));
    SystemKept(cfg, s, Lookup(shell, hash));
    PendingKept(cfg, looked, ms, shell);
    StandingUnlessEnded(cfg, looked, ms, looked.pending[shell].sessionID);
  }

  // ----- What two overlapping resolves leave behind -----

  /**
   * The last Touch wins, whatever order the lookups had: it moves the session's deadline back exactly if its lookup
   * was earlier than the one stored, and the absolute deadline does not hide the difference.
   */
  lemma TouchMovesBackIffLate(cfg: Config, s: System, shell: int)
    requires cfg.Valid() && SystemOK(cfg, s) && TouchSucceeds(s, shell)
    ensures
      var p := s.pending[shell];
      var before, after := s.w.db.sessions[p.sessionID], Do(cfg, s, Touch(shell)).w.db.sessions[p.sessionID];
      && after.lastSeenAt == p.seenAt
      && (after.ExpiresAt() < before.ExpiresAt() <==>
            p.seenAt < before.lastSeenAt && p.seenAt + cfg.idleTimeout < before.absoluteExpiresAt)
  {
    assert PendingOK(cfg, s, shell) && SessionRow(cfg, s.w, s.pending[shell].sessionID);
  }

  // ----- When a token that failed can resolve again -----

  /** The shell's Touch would still find its row, and the row is the one behind this token. */
  predicate Watches(s: System, shell: int, hash: string) {
    TouchSucceeds(s, shell) && s.w.db.sessions[s.pending[shell].sessionID].tokenHash == hash
  }

  /** The shell's Touch would make the token resolve: its lookup is recent enough. */
  predicate CanRevive(cfg: Config, s: System, shell: int, hash: string) {
    && Watches(s, shell, hash)
    && s.w.clock < s.pending[shell].seenAt + cfg.idleTimeout
    && s.w.clock < s.w.db.sessions[s.pending[shell].sessionID].absoluteExpiresAt
  }

  /** After a Touch, the session's token resolves exactly if the lookup behind the Touch is recent enough. */
  lemma TouchRevivesIffRecent(cfg: Config, s: System, shell: int)
    requires cfg.Valid() && SystemOK(cfg, s) && TouchSucceeds(s, shell)
    ensures
      var hash := s.w.db.sessions[s.pending[shell].sessionID].tokenHash;
      Answers(Do(cfg, s, Touch(shell)).w, hash, s.w.clock) <==> CanRevive(cfg, s, shell, hash)
  {
    var p := s.pending[shell];
    var row := s.w.db.sessions[p.sessionID];
    assert PendingOK(cfg, s, shell) && SessionRow(cfg, s.w, p.sessionID);
    SystemKept(cfg, s, Touch(shell));
    var w' := Do(cfg, s, Touch(shell)).w;
    assert w'.db.sessions[p.sessionID].tokenHash == row.tokenHash;
    assert w'.db.SessionByHash(row.tokenHash) == Some(p.sessionID);
  }

  /** The token was drawn, does not resolve now, and no outstanding Touch can change that. */
  ghost predicate DeadForGood(cfg: Config, s: System, hash: string) {
    && hash in s.w.spent && !Answers(s.w, hash, s.w.clock)
    && forall shell | shell in s.pending :: !CanRevive(cfg, s, shell, hash)
  }

  lemma StaysDeadOnBase(cfg: Config, s: System, e: Effect, hash: string)
    requires cfg.Valid() && SystemOK(cfg, s) && Enabled(cfg, s.w, e) && DeadForGood(cfg, s, hash)
    ensures DeadForGood(cfg, s.(w := Apply(cfg, s.w, e)), hash)
  {
    hide Apply, Enabled;
    ClockAdvances(cfg, s.w, e);
    DeadOnBase(cfg, s.w, e, hash);
    var s' := s.(w := Apply(cfg, s.w, e));
    forall shell | shell in s.pending ensures !CanRevive(cfg, s', shell, hash) {
      assert PendingOK(cfg, s, shell) && !CanRevive(cfg, s, shell, hash);
      RowFollows(cfg, s.w, e, s.pending[shell].sessionID);
    }
  }

  lemma DeadOnBase(cfg: Config, w: World, e: Effect, hash: string)
    requires cfg.Valid() && Sound(cfg, w) && Enabled(cfg, w, e) && hash in w.spent && !Answers(w, hash, w.clock)
    ensures !Answers(Apply(cfg, w, e), hash, Apply(cfg, w, e).clock)
  {
    hide Apply;
    ClockAdvances(cfg, w, e);
    SessionFollows(cfg, w, e, hash);
  }

  lemma StaysDeadOnTouch(cfg: Config, s: System, shell: int, hash: string)
    requires cfg.Valid() && SystemOK(cfg, s) && shell in s.pending && DeadForGood(cfg, s, hash)
    ensures DeadForGood(cfg, Do(cfg, s, Touch(shell)), hash)
  {
    hide Apply, Enabled;
    assert !CanRevive(cfg, s, shell, hash);
    SystemKept(cfg, s, Touch(shell));
    if TouchSucceeds(s, shell) {
      TouchRevivesIffRecent(cfg, s, shell);
    }
  }

  lemma StaysDead(cfg: Config, s: System, m: Move, hash: string)
    requires cfg.Valid() && SystemOK(cfg, s) && Allowed(cfg, s, m) && DeadForGood(cfg, s, hash)
    ensures DeadForGood(cfg, Do(cfg, s, m), hash)
  {
    hide Apply, Enabled;
    match m {
      case Base(e) => StaysDeadOnBase(cfg, s, e, hash);
      case Lookup(_, _) =>
      case Touch(shell) => StaysDeadOnTouch(cfg, s, shell, hash);
    }
  }

  lemma {:induction false} DeadAlong(cfg: Config, s: System, ms: seq<Move>, hash: string)
    requires cfg.Valid() && SystemOK(cfg, s) && Plays(cfg, s, ms) && DeadForGood(cfg, s, hash)
    ensures DeadForGood(cfg, Play(cfg, s, ms), hash)
    decreases |ms|
  {
    hide Do, Allowed, DeadForGood;
    if ms != [] {
      DeadAlong(cfg, s, ms[..|ms| - 1], hash);
      SystemOKAlong(cfg, s, ms[..|ms| - 1]);
      StaysDead(cfg, Play(cfg, s, ms[..|ms| - 1]), ms[|ms| - 1], hash);
    }
  }

  /**
   * A token that does not resolve now can resolve again, under some interleaving, if and only if some shell is
   * between its lookup and its Touch of that very session, whose row is unrevoked, with a recent enough lookup.
   */
  lemma ResolvesAgainIffRevivable(cfg: Config, s: System, hash: string)
    requires cfg.Valid() && SystemOK(cfg, s) && hash in s.w.spent && !Answers(s.w, hash, s.w.clock)
    ensures
      (exists ms :: Plays(cfg, s, ms) && Answers(Play(cfg, s, ms).w, hash, Play(cfg, s, ms).w.clock))
      <==> (exists shell :: shell in s.pending && CanRevive(cfg, s, shell, hash))
  {
    if shell :| shell in s.pending && CanRevive(cfg, s, shell, hash) {
      TouchRevivesIffRecent(cfg, s, shell);
      OneMoreMove(cfg, s, [], Touch(shell));
      var ms := [] + [Touch(shell)];
      assert Plays(cfg, s, ms) && Play(cfg, s, ms).w.clock == s.w.clock;
    } else {
      forall ms | Plays(cfg, s, ms) ensures !Answers(Play(cfg, s, ms).w, hash, Play(cfg, s, ms).w.clock) {
        DeadAlong(cfg, s, ms, hash);
      }
    }
  }
}
