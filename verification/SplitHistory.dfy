/**
 * What the stored deadlines say about a session's history when resolves are split into a lookup and a Touch, with
 * anything in between. Every lookup is a visit, whether its Touch comes, comes late, or never comes.
 */
module SplitHistory {
  import opened Domain
  import opened Machine
  import opened Invariants
  import opened Tokens
  import opened SessionHistory
  import opened Interleaving

  /** The history of a token, and the visit that the store last recorded. */
  datatype Story = Story(history: History, seen: Time)

  ghost function Continue(cfg: Config, s: System, m: Move, hash: string, st: Story): Story
    requires Allowed(cfg, s, m)
  {
    match m
    case Base(e) =>
      Story(SessionHistory.Extend(cfg, s.w, e, hash, st.history),
            if e.Login? && e.tokenHash == hash then e.issuedAt
            else if e == Resolve(hash) && Answers(s.w, hash, s.w.clock) then s.w.clock
            else st.seen)
    case Lookup(_, h) =>
      if h == hash then st.(history := st.history.(attempts := st.history.attempts + [s.w.clock])) else st
    case Touch(shell) =>
      if Watches(s, shell, hash) then st.(seen := s.pending[shell].seenAt) else st
  }

  ghost function StoryOf(cfg: Config, s: System, ms: seq<Move>, hash: string): Story
    requires Plays(cfg, s, ms)
    decreases |ms|
  {
    if ms == [] then Story(UNISSUED, 0)
    else Continue(cfg, Play(cfg, s, ms[..|ms| - 1]), ms[|ms| - 1], hash, StoryOf(cfg, s, ms[..|ms| - 1], hash))
  }

  // ----- The invariant -----

  /** The store lets the token resolve at t exactly if its history does and the recorded visit is recent enough. */
  ghost predicate TellsAt(cfg: Config, s: System, hash: string, st: Story, t: Time) {
    Answers(s.w, hash, t) <==> Entitled(cfg, st.history, t) && t < st.seen + cfg.idleTimeout
  }

  /** Whatever a shell's outstanding Touch would allow at t, the history allows. */
  ghost predicate PromisesAt(cfg: Config, s: System, hash: string, st: Story, shell: int, t: Time) {
    (&& Watches(s, shell, hash) && t < s.pending[shell].seenAt + cfg.idleTimeout
     && t < s.w.db.sessions[s.pending[shell].sessionID].absoluteExpiresAt)
    ==> Entitled(cfg, st.history, t)
  }

  ghost predicate RowTold(s: System, hash: string, st: Story) {
    && (st.history.issued.Some? ==> hash in s.w.spent)
    && (SessionOf(s.w, hash).Some? ==>
          var row := SessionOf(s.w, hash).value;
          && st.history.issued == Some(row.issuedAt) && row.lastSeenAt == st.seen
          && (row.revokedAt.Some? <==> st.history.revoked))
  }

  ghost predicate Told(cfg: Config, s: System, hash: string, st: Story) {
    && RowTold(s, hash, st)
    && (forall t | s.w.clock <= t :: TellsAt(cfg, s, hash, st, t))
    && (forall shell, t | shell in s.pending && s.w.clock <= t :: PromisesAt(cfg, s, hash, st, shell, t))
  }

  /** A token's row is where its hash finds it. */
  lemma WatchedRow(cfg: Config, s: System, shell: int, hash: string)
    requires SystemOK(cfg, s) && shell in s.pending
    ensures s.pending[shell].seenAt <= s.w.clock && s.pending[shell].sessionID < s.w.db.nextSessionID
    ensures Watches(s, shell, hash) ==>
      var p := s.pending[shell];
      var row := s.w.db.sessions[p.sessionID];
      && SessionOf(s.w, hash) == Some(row) && row.id == p.sessionID && row.revokedAt.None?
      && p.idleExpiresAt == SlideTo(cfg, row, p.seenAt) && row.absoluteExpiresAt == row.issuedAt + cfg.maxLifetime
  {
    assert PendingOK(cfg, s, shell);
    if Watches(s, shell, hash) {
      assert SessionRow(cfg, s.w, s.pending[shell].sessionID);
    }
  }

  // ----- A lookup -----

  lemma LookupTells(cfg: Config, s: System, shell: int, hash: string, st: Story, t: Time)
    requires cfg.Valid() && SystemOK(cfg, s) && Allowed(cfg, s, Lookup(shell, hash)) && Told(cfg, s, hash, st)
    requires s.w.clock <= t
    ensures TellsAt(cfg, Do(cfg, s, Lookup(shell, hash)), hash, Continue(cfg, s, Lookup(shell, hash), hash, st), t)
  {
    hide Entitled;
    StoredDeadlines(cfg, s.w, hash);
    assert SessionRow(cfg, s.w, s.w.db.SessionByHash(hash).value);
    assert TellsAt(cfg, s, hash, st, t) && TellsAt(cfg, s, hash, st, s.w.clock);
    EntitledAfterVisit(cfg, st.history, s.w.clock, t);
  }

  lemma LookupPromises(cfg: Config, s: System, shell: int, hash: string, st: Story, other: int, t: Time)
    requires cfg.Valid() && SystemOK(cfg, s) && Allowed(cfg, s, Lookup(shell, hash)) && Told(cfg, s, hash, st)
    requires s.w.clock <= t && other in Do(cfg, s, Lookup(shell, hash)).pending
    ensures
      PromisesAt(cfg, Do(cfg, s, Lookup(shell, hash)), hash, Continue(cfg, s, Lookup(shell, hash), hash, st), other, t)
  {
    hide Entitled;
    StoredDeadlines(cfg, s.w, hash);
    assert TellsAt(cfg, s, hash, st, s.w.clock);
    EntitledAfterVisit(cfg, st.history, s.w.clock, t);
    if other != shell {
      WatchedRow(cfg, s, other, hash);
    }
  }

  // ----- A Touch -----

  lemma Touched(cfg: Config, s: System, shell: int, hash: string)
    requires cfg.Valid() && SystemOK(cfg, s) && shell in s.pending
    ensures
      var w' := Do(cfg, s, Touch(shell)).w;
      if Watches(s, shell, hash) then
        var p := s.pending[shell];
        SessionOf(w', hash) == Some(SessionOf(s.w, hash).value.(lastSeenAt := p.seenAt, idleExpiresAt := p.idleExpiresAt))
      else SessionOf(w', hash) == SessionOf(s.w, hash)
  {
    WatchedRow(cfg, s, shell, hash);
    SystemKept(cfg, s, Touch(shell));
    var w, w', id := s.w, Do(cfg, s, Touch(shell)).w, s.pending[shell].sessionID;
    assert w'.db.sessions.Keys == w.db.sessions.Keys;
    assert forall i | i in w.db.sessions :: w'.db.sessions[i].tokenHash == w.db.sessions[i].tokenHash;
    match w.db.SessionByHash(hash) {
      case Some(i) => assert w'.db.SessionByHash(hash) == Some(i);
      case None => assert w'.db.SessionByHash(hash) == None;
    }
  }

  lemma TouchTold(cfg: Config, s: System, shell: int, hash: string, st: Story)
    requires cfg.Valid() && SystemOK(cfg, s) && shell in s.pending && Told(cfg, s, hash, st)
    ensures Told(cfg, Do(cfg, s, Touch(shell)), hash, Continue(cfg, s, Touch(shell), hash, st))
  {
    hide Entitled;
    Touched(cfg, s, shell, hash);
    WatchedRow(cfg, s, shell, hash);
    var s', st' := Do(cfg, s, Touch(shell)), Continue(cfg, s, Touch(shell), hash, st);
    forall t | s'.w.clock <= t ensures TellsAt(cfg, s', hash, st', t) {
      assert TellsAt(cfg, s, hash, st, t) && PromisesAt(cfg, s, hash, st, shell, t);
      EntitledWithin(cfg, st.history, t);
    }
    forall other, t | other in s'.pending && s'.w.clock <= t ensures PromisesAt(cfg, s', hash, st', other, t) {
      assert PromisesAt(cfg, s, hash, st, other, t);
    }
  }

  lemma EntitledWithin(cfg: Config, h: History, t: Time)
    ensures Entitled(cfg, h, t) ==> h.issued.Some? && !h.revoked && t < h.issued.value + cfg.maxLifetime
  {
  }

  // ----- A label of the machine -----

  lemma BaseRowTold(cfg: Config, s: System, e: Effect, hash: string, st: Story)
    requires cfg.Valid() && SystemOK(cfg, s) && Enabled(cfg, s.w, e) && Told(cfg, s, hash, st)
    ensures RowTold(Do(cfg, s, Base(e)), hash, Continue(cfg, s, Base(e), hash, st))
  {
    hide Apply, Entitled;
    SessionFollows(cfg, s.w, e, hash);
    ClockAdvances(cfg, s.w, e);
  }

  lemma BaseTells(cfg: Config, s: System, e: Effect, hash: string, st: Story, t: Time)
    requires cfg.Valid() && SystemOK(cfg, s) && Enabled(cfg, s.w, e) && Told(cfg, s, hash, st)
    requires Apply(cfg, s.w, e).clock <= t
    ensures TellsAt(cfg, Do(cfg, s, Base(e)), hash, Continue(cfg, s, Base(e), hash, st), t)
  {
    hide Apply, Entitled, Sound;
    SessionFollows(cfg, s.w, e, hash);
    ClockAdvances(cfg, s.w, e);
    assert TellsAt(cfg, s, hash, st, t) && TellsAt(cfg, s, hash, st, s.w.clock);
    NotEntitled(cfg, Continue(cfg, s, Base(e), hash, st).history, t);
    EntitledWithin(cfg, st.history, t);
    if SessionOf(s.w, hash).Some? {
      StoredDeadlines(cfg, s.w, hash);
    }
    if e.Login? && e.tokenHash == hash {
      EntitledAtIssue(cfg, e.issuedAt, t);
    } else if e == Resolve(hash) && st.history.issued.Some? {
      EntitledAfterVisit(cfg, st.history, s.w.clock, t);
    }
  }

  lemma BasePromises(cfg: Config, s: System, e: Effect, hash: string, st: Story, shell: int, t: Time)
    requires cfg.Valid() && SystemOK(cfg, s) && Enabled(cfg, s.w, e) && Told(cfg, s, hash, st)
    requires shell in s.pending && Apply(cfg, s.w, e).clock <= t
    ensures PromisesAt(cfg, Do(cfg, s, Base(e)), hash, Continue(cfg, s, Base(e), hash, st), shell, t)
  {
    hide Apply, Entitled;
    SystemKept(cfg, s, Base(e));
    WatchedRow(cfg, s, shell, hash);
    WatchedRow(cfg, Do(cfg, s, Base(e)), shell, hash);
    RowFollows(cfg, s.w, e, s.pending[shell].sessionID);
    ClockAdvances(cfg, s.w, e);
    assert PromisesAt(cfg, s, hash, st, shell, t) && PromisesAt(cfg, s, hash, st, shell, s.w.clock);
    if e == Resolve(hash) && st.history.issued.Some? {
      EntitledAfterVisit(cfg, st.history, s.w.clock, t);
    }
  }

  // ----- Every move, every play -----

  lemma StaysTold(cfg: Config, s: System, m: Move, hash: string, st: Story)
    requires cfg.Valid() && SystemOK(cfg, s) && Allowed(cfg, s, m) && Told(cfg, s, hash, st)
    ensures Told(cfg, Do(cfg, s, m), hash, Continue(cfg, s, m, hash, st))
  {
    hide Apply, Enabled, TellsAt, PromisesAt, Entitled;
    var s', st' := Do(cfg, s, m), Continue(cfg, s, m, hash, st);
    match m {
      case Touch(shell) => TouchTold(cfg, s, shell, hash, st);
      case Base(e) =>
        BaseRowTold(cfg, s, e, hash, st);
        forall t | s'.w.clock <= t ensures TellsAt(cfg, s', hash, st', t) {
          BaseTells(cfg, s, e, hash, st, t);
        }
        forall shell, t | shell in s'.pending && s'.w.clock <= t ensures PromisesAt(cfg, s', hash, st', shell, t) {
          BasePromises(cfg, s, e, hash, st, shell, t);
        }
      case Lookup(shell, h) =>
        LookupTold(cfg, s, shell, h, hash, st);
    }
  }

  lemma LookupTold(cfg: Config, s: System, shell: int, h: string, hash: string, st: Story)
    requires cfg.Valid() && SystemOK(cfg, s) && Allowed(cfg, s, Lookup(shell, h)) && Told(cfg, s, hash, st)
    ensures Told(cfg, Do(cfg, s, Lookup(shell, h)), hash, Continue(cfg, s, Lookup(shell, h), hash, st))
  {
    hide Entitled;
    var s', st' := Do(cfg, s, Lookup(shell, h)), Continue(cfg, s, Lookup(shell, h), hash, st);
    forall t | s'.w.clock <= t ensures TellsAt(cfg, s', hash, st', t) {
      if h == hash {
        LookupTells(cfg, s, shell, hash, st, t);
      } else {
        assert TellsAt(cfg, s, hash, st, t);
      }
    }
    forall other, t | other in s'.pending && s'.w.clock <= t ensures PromisesAt(cfg, s', hash, st', other, t) {
      if h == hash {
        LookupPromises(cfg, s, shell, hash, st, other, t);
      } else if other != shell {
        assert PromisesAt(cfg, s, hash, st, other, t);
      }
    }
  }

  lemma StoredIsDrawn(cfg: Config, w: World, hash: string)
    requires Sound(cfg, w) && SessionOf(w, hash).Some?
    ensures hash in w.spent
  {
    assert SessionRow(cfg, w, w.db.SessionByHash(hash).value);
  }

  lemma UndrawnIsTold(cfg: Config, s: System, hash: string)
    requires SystemOK(cfg, s) && hash !in s.w.spent
    ensures Told(cfg, s, hash, Story(UNISSUED, 0))
  {
    if SessionOf(s.w, hash).Some? {
      StoredIsDrawn(cfg, s.w, hash);
    }
    forall shell, t | shell in s.pending && s.w.clock <= t
      ensures PromisesAt(cfg, s, hash, Story(UNISSUED, 0), shell, t)
    {
      WatchedRow(cfg, s, shell, hash);
    }
  }

  lemma {:induction false} ToldAlong(cfg: Config, s: System, ms: seq<Move>, hash: string)
    requires cfg.Valid() && SystemOK(cfg, s) && Plays(cfg, s, ms) && hash !in s.w.spent
    ensures Told(cfg, Play(cfg, s, ms), hash, StoryOf(cfg, s, ms, hash))
    decreases |ms|
  {
    hide Do, Allowed, Told, Continue;
    if ms == [] {
      UndrawnIsTold(cfg, s, hash);
    } else {
      ToldAlong(cfg, s, ms[..|ms| - 1], hash);
      SystemOKAlong(cfg, s, ms[..|ms| - 1]);
      StaysTold(cfg, Play(cfg, s, ms[..|ms| - 1]), ms[|ms| - 1], hash, StoryOf(cfg, s, ms[..|ms| - 1], hash));
    }
  }

  // ----- The results -----

  /** The latest visit of an issued token. */
  function LastVisit(h: History): Time
    requires h.issued.Some?
  {
    if h.attempts == [] then h.issued.value else h.attempts[|h.attempts| - 1]
  }

  lemma EntitledSinceLastVisit(cfg: Config, h: History, t: Time)
    requires Entitled(cfg, h, t)
    ensures t < LastVisit(h) + cfg.idleTimeout
  {
    var visits := Visits(h, t);
    assert visits[|visits| - 1] - visits[|visits| - 2] == t - LastVisit(h);
  }

  /**
   * Under every interleaving of lookups, touches and everything else, from the state in which a token is not drawn
   * yet: at every instant from now on it resolves if and only if its history entitles it to and the visit recorded
   * last is less than the idle timeout ago. The recorded visit is LastSeenAt, as long as the row is stored.
   */
  lemma SplitDeadlinesRefineHistory(cfg: Config, s: System, ms: seq<Move>, hash: string, t: Time)
    requires cfg.Valid() && SystemOK(cfg, s) && Plays(cfg, s, ms) && hash !in s.w.spent
    requires Play(cfg, s, ms).w.clock <= t
    ensures
      var w, st := Play(cfg, s, ms).w, StoryOf(cfg, s, ms, hash);
      && (Answers(w, hash, t) <==> Entitled(cfg, st.history, t) && t < st.seen + cfg.idleTimeout)
      && (SessionOf(w, hash).Some? ==> SessionOf(w, hash).value.lastSeenAt == st.seen)
  {
    ToldAlong(cfg, s, ms, hash);
    assert TellsAt(cfg, Play(cfg, s, ms), hash, StoryOf(cfg, s, ms, hash), t);
  }

  /** No token outlives its visit history, whatever overlaps. */
  lemma NoTokenOutlivesItsHistory(cfg: Config, s: System, ms: seq<Move>, hash: string, t: Time)
    requires cfg.Valid() && SystemOK(cfg, s) && Plays(cfg, s, ms) && hash !in s.w.spent
    requires Play(cfg, s, ms).w.clock <= t
    ensures Answers(Play(cfg, s, ms).w, hash, t) ==> Entitled(cfg, StoryOf(cfg, s, ms, hash).history, t)
  {
    hide Plays, Play, StoryOf, Answers, Entitled;
    SplitDeadlinesRefineHistory(cfg, s, ms, hash, t);
  }

  /**
   * The converse, exactly: the store falls short of the history on the instants between the two idle deadlines, that
   * of the recorded visit and that of the latest one, and nowhere else. So if the latest visit is the recorded one,
   * store and history agree.
   */
  lemma StoreFallsShortBetweenDeadlines(cfg: Config, s: System, ms: seq<Move>, hash: string, t: Time)
    requires cfg.Valid() && SystemOK(cfg, s) && Plays(cfg, s, ms) && hash !in s.w.spent
    requires Play(cfg, s, ms).w.clock <= t && Entitled(cfg, StoryOf(cfg, s, ms, hash).history, t)
    ensures
      var w, st := Play(cfg, s, ms).w, StoryOf(cfg, s, ms, hash);
      && (!Answers(w, hash, t) <==> st.seen + cfg.idleTimeout <= t < LastVisit(st.history) + cfg.idleTimeout)
      && (st.seen == LastVisit(st.history) ==> Answers(w, hash, t))
  {
    hide Plays, Play, StoryOf, Answers;
    SplitDeadlinesRefineHistory(cfg, s, ms, hash, t);
    EntitledSinceLastVisit(cfg, StoryOf(cfg, s, ms, hash).history, t);
  }

  // ----- Resolves that do not overlap -----

  /** A lookup directly followed by its Touch is the resolve of the machine; a failed lookup is one too. */
  lemma LookupThenTouchIsResolve(cfg: Config, s: System, shell: int, hash: string)
    requires shell !in s.pending
    ensures Allowed(cfg, s, Base(Resolve(hash)))
    ensures Allowed(cfg, s, Lookup(shell, hash)) ==>
      var looked := Do(cfg, s, Lookup(shell, hash));
      && Allowed(cfg, looked, Touch(shell))
      && Do(cfg, looked, Touch(shell)) == Do(cfg, s, Base(Resolve(hash)))
      && (SystemOK(cfg, s) ==> Watches(looked, shell, hash))
    ensures !Allowed(cfg, s, Lookup(shell, hash)) ==> Do(cfg, s, Base(Resolve(hash))) == s
  {
    if Allowed(cfg, s, Lookup(shell, hash)) {
      assert s.pending[shell := Do(cfg, s, Lookup(shell, hash)).pending[shell]] - {shell} == s.pending;
    }
  }

  /** Every lookup is directly followed by its own Touch, and there is no other Touch. */
  predicate Sequential(ms: seq<Move>) {
    if ms == [] then true
    else if ms[|ms| - 1].Base? then Sequential(ms[..|ms| - 1])
    else
      && |ms| >= 2 && ms[|ms| - 1].Touch? && ms[|ms| - 2].Lookup? && ms[|ms| - 2].shell == ms[|ms| - 1].shell
      && Sequential(ms[..|ms| - 2])
  }

  /** The labels of the machine that a sequential play amounts to. */
  function Atomic(ms: seq<Move>): seq<Effect>
    requires Sequential(ms)
  {
    if ms == [] then []
    else if ms[|ms| - 1].Base? then Atomic(ms[..|ms| - 1]) + [ms[|ms| - 1].e]
    else Atomic(ms[..|ms| - 2]) + [Resolve(ms[|ms| - 2].tokenHash)]
  }

  lemma OneMoreLabel(cfg: Config, w: World, tr: seq<Effect>, e: Effect, hash: string)
    requires Legal(cfg, w, tr) && Enabled(cfg, Run(cfg, w, tr), e)
    ensures Legal(cfg, w, tr + [e]) && Run(cfg, w, tr + [e]) == Apply(cfg, Run(cfg, w, tr), e)
    ensures HistoryOf(cfg, w, tr + [e], hash) ==
      SessionHistory.Extend(cfg, Run(cfg, w, tr), e, hash, HistoryOf(cfg, w, tr, hash))
  {
    hide Apply, Enabled;
    assert (tr + [e])[..|tr|] == tr;
  }

  /** A sequential play is a run of the machine, with the same history. */
  lemma {:induction false} SequentialPlaysAreRuns(cfg: Config, w: World, ms: seq<Move>, hash: string)
    requires Plays(cfg, System(w, map[]), ms) && Sequential(ms)
    ensures Legal(cfg, w, Atomic(ms)) && Play(cfg, System(w, map[]), ms) == System(Run(cfg, w, Atomic(ms)), map[])
    ensures StoryOf(cfg, System(w, map[]), ms, hash).history == HistoryOf(cfg, w, Atomic(ms), hash)
    decreases |ms|
  {
    hide Apply, Enabled, SessionHistory.Extend;
    var s := System(w, map[]);
    if ms == [] {
    } else if ms[|ms| - 1].Base? {
      var init, e := ms[..|ms| - 1], ms[|ms| - 1].e;
      SequentialPlaysAreRuns(cfg, w, init, hash);
      OneMoreLabel(cfg, w, Atomic(init), e, hash);
    } else {
      var looked, init := ms[..|ms| - 1], ms[..|ms| - 2];
      assert looked[..|looked| - 1] == init;
      var shell, h := ms[|ms| - 2].shell, ms[|ms| - 2].tokenHash;
      assert Plays(cfg, s, looked);
      SequentialPlaysAreRuns(cfg, w, init, hash);
      var before := Play(cfg, s, init);
      LookupThenTouchIsResolve(cfg, before, shell, h);
      OneMoreLabel(cfg, w, Atomic(init), Resolve(h), hash);
      VisitIsResolve(cfg, before.w, h, hash, StoryOf(cfg, s, init, hash).history);
    }
  }

  lemma VisitIsResolve(cfg: Config, w: World, h: string, hash: string, history: History)
    requires Enabled(cfg, w, Resolve(h))
    ensures SessionHistory.Extend(cfg, w, Resolve(h), hash, history) ==
      if h == hash then history.(attempts := history.attempts + [w.clock]) else history
  {
  }

  /** So if no resolves overlap, store and history agree on every later instant. */
  lemma SequentialStoreAgrees(cfg: Config, t0: Time, ms: seq<Move>, hash: string, t: Time)
    requires cfg.Valid() && Plays(cfg, System(Start(t0), map[]), ms) && Sequential(ms)
    requires Play(cfg, System(Start(t0), map[]), ms).w.clock <= t
    ensures
      var s := System(Start(t0), map[]);
      Answers(Play(cfg, s, ms).w, hash, t) <==> Entitled(cfg, StoryOf(cfg, s, ms, hash).history, t)
  {
    hide Plays, Play, StoryOf, Answers, Entitled, Run, HistoryOf, Sequential, Atomic, Legal;
    SequentialPlaysAreRuns(cfg, Start(t0), ms, hash);
    DeadlinesRefineHistory(cfg, t0, Atomic(ms), hash);
  }
}
