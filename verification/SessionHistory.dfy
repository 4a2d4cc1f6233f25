/** The two stored deadlines of a session say exactly what its whole history says. */
module SessionHistory {
  import opened Domain
  import opened Machine
  import opened Invariants
  import opened Tokens
  import opened GuessRate

  /** Everything that ever happened to a token: when it was issued, every attempt to resolve it, whether it was revoked. */
  datatype History = History(issued: Option<Time>, attempts: seq<Time>, revoked: bool)

  const UNISSUED := History(None, [], false)

  ghost function Extend(cfg: Config, w: World, e: Effect, hash: string, h: History): History
    requires Enabled(cfg, w, e)
  {
    if e.Login? && e.tokenHash == hash then History(Some(e.issuedAt), [], false)
    else if e == Resolve(hash) then h.(attempts := h.attempts + [w.clock])
    else if SessionOf(w, hash).Some? && RevokedBy(cfg, w, e, SessionOf(w, hash).value) then h.(revoked := true)
    else h
  }

  ghost function HistoryOf(cfg: Config, w: World, tr: seq<Effect>, hash: string): History
    requires Legal(cfg, w, tr)
    decreases |tr|
  {
    if tr == [] then UNISSUED
    else Extend(cfg, Run(cfg, w, tr[..|tr| - 1]), tr[|tr| - 1], hash, HistoryOf(cfg, w, tr[..|tr| - 1], hash))
  }

  function Visits(h: History, t: Time): seq<Time>
    requires h.issued.Some?
  {
    [h.issued.value] + h.attempts + [t]
  }

  /** Issued, not revoked, within the maximum lifetime, and never idle for the idle timeout between two visits. */
  predicate Entitled(cfg: Config, h: History, t: Time) {
    && h.issued.Some? && !h.revoked
    && t < h.issued.value + cfg.maxLifetime
    && forall i | 0 < i < |Visits(h, t)| :: Visits(h, t)[i] - Visits(h, t)[i - 1] < cfg.idleTimeout
  }

  lemma NotEntitled(cfg: Config, h: History, t: Time)
    ensures h.revoked || h.issued.None? ==> !Entitled(cfg, h, t)
  {
  }

  lemma EntitledAtIssue(cfg: Config, at: Time, t: Time)
    ensures Entitled(cfg, History(Some(at), [], false), t) <==> t - at < cfg.idleTimeout && t < at + cfg.maxLifetime
  {
    var visits := Visits(History(Some(at), [], false), t);
    assert visits[1] - visits[0] == t - at;
  }

  lemma EntitledAfterVisit(cfg: Config, h: History, at: Time, t: Time)
    requires h.issued.Some? && at <= t
    ensures Entitled(cfg, h.(attempts := h.attempts + [at]), t) <==>
      Entitled(cfg, h, at) && t - at < cfg.idleTimeout && t < h.issued.value + cfg.maxLifetime
  {
    var before, after := Visits(h, at), Visits(h.(attempts := h.attempts + [at]), t);
    assert after == before + [t];
    assert after[|before|] - after[|before| - 1] == t - at;
    if Entitled(cfg, h.(attempts := h.attempts + [at]), t) {
      forall i | 0 < i < |before| ensures before[i] - before[i - 1] < cfg.idleTimeout {
        assert after[i] - after[i - 1] < cfg.idleTimeout;
      }
    }
  }

  /** The store and the history agree on every possible next attempt. */
  ghost predicate Faithful(cfg: Config, w: World, hash: string, h: History) {
    && (h.issued.Some? ==> hash in w.spent)
    && (SessionOf(w, hash).Some? ==> h.issued == Some(SessionOf(w, hash).value.issuedAt))
    && (SessionOf(w, hash).Some? && SessionOf(w, hash).value.revokedAt.Some? ==> h.revoked)
    && forall t | w.clock <= t :: Answers(w, hash, t) <==> Entitled(cfg, h, t)
  }

  lemma StoredDeadlines(cfg: Config, w: World, hash: string)
    requires Sound(cfg, w) && SessionOf(w, hash).Some?
    ensures
      var s := SessionOf(w, hash).value;
      && s.tokenHash == hash && s.absoluteExpiresAt == s.issuedAt + cfg.maxLifetime
      && s.idleExpiresAt == SlideTo(cfg, s, s.lastSeenAt)
  {
    assert SessionRow(cfg, w, w.db.SessionByHash(hash).value);
  }

  lemma AnswersFollow(cfg: Config, w: World, e: Effect, hash: string, h: History, t: Time)
    requires cfg.Valid() && Sound(cfg, w) && Enabled(cfg, w, e) && Faithful(cfg, w, hash, h)
    requires Apply(cfg, w, e).clock <= t
    ensures Answers(Apply(cfg, w, e), hash, t) <==> Entitled(cfg, Extend(cfg, w, e, hash, h), t)
  {
    hide Apply, Entitled, Sound;
    SessionFollows(cfg, w, e, hash);
    ClockAdvances(cfg, w, e);
    NotEntitled(cfg, Extend(cfg, w, e, hash, h), t);
    if SessionOf(w, hash).Some? {
      StoredDeadlines(cfg, w, hash);
    }
    assert Answers(w, hash, t) <==> Entitled(cfg, h, t);
    if e.Login? && e.tokenHash == hash {
      EntitledAtIssue(cfg, e.issuedAt, t);
    } else if e == Resolve(hash) && h.issued.Some? {
      assert Answers(w, hash, w.clock) <==> Entitled(cfg, h, w.clock);
      EntitledAfterVisit(cfg, h, w.clock, t);
    }
  }

  lemma StaysFaithful(cfg: Config, w: World, e: Effect, hash: string, h: History)
    requires cfg.Valid() && Sound(cfg, w) && Enabled(cfg, w, e) && Faithful(cfg, w, hash, h)
    ensures Faithful(cfg, Apply(cfg, w, e), hash, Extend(cfg, w, e, hash, h))
  {
    hide Apply, Entitled;
    SessionFollows(cfg, w, e, hash);
    ClockAdvances(cfg, w, e);
    var w', h' := Apply(cfg, w, e), Extend(cfg, w, e, hash, h);
    forall t | w'.clock <= t ensures Answers(w', hash, t) <==> Entitled(cfg, h', t) {
      AnswersFollow(cfg, w, e, hash, h, t);
    }
  }

  /**
   * At every reachable state and every instant from then on, a token resolves if and only if its
   * history entitles it to.
   */
  lemma {:induction false} DeadlinesRefineHistory(cfg: Config, t0: Time, tr: seq<Effect>, hash: string)
    requires cfg.Valid() && Legal(cfg, Start(t0), tr)
    ensures Faithful(cfg, Run(cfg, Start(t0), tr), hash, HistoryOf(cfg, Start(t0), tr, hash))
  {
    if tr != [] {
      hide Apply, Faithful;
      var init := tr[..|tr| - 1];
      DeadlinesRefineHistory(cfg, t0, init, hash);
      Reachable(cfg, t0, init);
      StaysFaithful(cfg, Run(cfg, Start(t0), init), tr[|tr| - 1], hash, HistoryOf(cfg, Start(t0), init, hash));
    }
  }

  /** A token that was issued and does not answer any more never answers again. */
  lemma {:induction false} FailsForever(cfg: Config, w: World, tr: seq<Effect>, hash: string, t: Time)
    requires cfg.Valid() && Sound(cfg, w) && hash in w.spent && !Answers(w, hash, w.clock)
    requires Legal(cfg, w, tr) && Run(cfg, w, tr).clock <= t
    ensures !Answers(Run(cfg, w, tr), hash, t) && hash in Run(cfg, w, tr).spent
    decreases |tr|
  {
    if tr != [] {
      hide Apply;
      var init, e := tr[..|tr| - 1], tr[|tr| - 1];
      var before := Run(cfg, w, init);
      FailsForever(cfg, w, init, hash, before.clock);
      SoundAlong(cfg, w, init);
      SessionFollows(cfg, before, e, hash);
      ClockAdvances(cfg, before, e);
    }
  }
}
