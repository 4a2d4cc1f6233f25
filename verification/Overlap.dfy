/**
 * Two runs in which resolves of one token overlap: one cuts the session short of what its visits entitle it to, one
 * revives a token that had failed. Both start with two service calls, a registration and a login.
 */
module Overlap {
  import opened Domain
  import opened Machine
  import opened Tokens
  import opened SessionHistory
  import opened Calls
  import opened CallRuns
  import opened Interleaving
  import opened SplitHistory
  import Invariants
  import Service

  const CFG := Config(2, 10, 50, 200, 10, (h, p) => Match, h => false, s => Some(s), (s, c, t) => true,
    t => t, n => n, (n, p) => true)

  const NOW := Env(Readings(0, 0, 0, 0, 0), NoFault, false, "t", "c", "h", "s", "s")

  const REGISTRATION := Step(CRegister("u", "p"), NOW)
  const SIGN_IN := Step(CAuthenticate("u", "p", ""), NOW)

  /** The labels of a call, as moves that nothing comes between. */
  function AsMoves(es: seq<Effect>): seq<Move> {
    seq(|es|, i requires 0 <= i < |es| => Base(es[i]))
  }

  const SIGN_IN_MOVES := [Base(Tick(0)), Base(Tick(0)), Base(Login(1, ByPassword("p"), "t", 0, ""))]

  /** Shell 1 looks the session up at 0, shell 2 resolves it at 40, then shell 1 touches it with its old reading. */
  const CUT_SHORT := [Lookup(1, "t"), Base(Tick(40)), Lookup(2, "t"), Touch(2), Touch(1)]

  /** Shell 1 looks the session up at 40 and touches it only at 60, when the token has already failed. */
  const REVIVAL := [Base(Tick(40)), Lookup(1, "t"), Base(Tick(60)), Touch(1)]

  function Row(lastSeenAt: Time, idleExpiresAt: Time): Session {
    Session(1, 1, "t", 0, lastSeenAt, idleExpiresAt, 200, None, "")
  }

  ghost predicate Registered(w: World) {
    && w.clock == 0 && w.spent == {} && w.challenges == map[] && w.db.nextSessionID == 1 && w.db.sessions == map[]
    && w.db.users == map[1 := User(1, "u", "h", "", false, None, 0, None, None, 0)]
  }

  /** The state that the registration leaves. */
  lemma AfterRegistration() returns (w: World)
    ensures CFG.Valid() && Invariants.Sound(CFG, Start(0)) && StepsOK(CFG, Start(0), [REGISTRATION])
    ensures w == AfterSteps(CFG, Start(0), [REGISTRATION]) && Registered(w)
  {
    hide Run, Legal, Apply, Enabled;
    Invariants.Reachable(CFG, 0, []);
    Nothing(Start(0));
    Service.Registered(CFG, Start(0), 0, "u", "h");
    OneMoreStep(CFG, Start(0), [], REGISTRATION);
    assert [] + [REGISTRATION] == [REGISTRATION];
    w := AfterSteps(CFG, Start(0), [REGISTRATION]);
  }

  lemma Nothing(w: World)
    ensures Legal(CFG, w, []) && Run(CFG, w, []) == w
  {
  }

  lemma SignInCall(w: World)
    requires Registered(w)
    ensures EnvOK(CFG, w, SIGN_IN.call, SIGN_IN.env)
    ensures AsMoves(Serve(CFG, w, SIGN_IN.call, SIGN_IN.env).effects) == SIGN_IN_MOVES
  {
    assert 1 in w.db.users && w.db.UserNamed("u") == Some(1);
    assert Serve(CFG, w, SIGN_IN.call, SIGN_IN.env).effects ==
           [Tick(0), Tick(0), Login(1, ByPassword("p"), "t", 0, "")];
  }

  /** What the moves lead to: the stored row, the clock, and the token's story. */
  ghost predicate At(s: System, ms: seq<Move>, row: Session, clock: Time, attempts: seq<Time>) {
    && Plays(CFG, s, ms)
    && Play(CFG, s, ms).w.db.sessions == map[1 := row] && Play(CFG, s, ms).w.clock == clock
    && row.tokenHash == "t" && Play(CFG, s, ms).w.db.SessionByHash("t") == Some(1)
    && StoryOf(CFG, s, ms, "t") == Story(History(Some(0), attempts, false), row.lastSeenAt)
  }

  lemma Next(s: System, ms: seq<Move>, m: Move)
    requires Plays(CFG, s, ms) && Allowed(CFG, Play(CFG, s, ms), m)
    ensures Plays(CFG, s, ms + [m]) && Play(CFG, s, ms + [m]) == Do(CFG, Play(CFG, s, ms), m)
    ensures StoryOf(CFG, s, ms + [m], "t") == Continue(CFG, Play(CFG, s, ms), m, "t", StoryOf(CFG, s, ms, "t"))
  {
    hide Allowed, Do, Continue;
    OneMoreMove(CFG, s, ms, m);
    assert (ms + [m])[..|ms|] == ms;
  }

  lemma OneRow(w: World, row: Session)
    requires w.db.sessions == map[1 := row] && row.tokenHash == "t"
    ensures w.db.SessionByHash("t") == Some(1)
  {
    assert 1 in w.db.sessions;
  }

  lemma SignedIn(s: System)
    requires s.pending == map[] && Registered(s.w)
    ensures At(s, SIGN_IN_MOVES, Row(0, 50), 0, []) && Play(CFG, s, SIGN_IN_MOVES).pending == map[]
  {
    var login := SIGN_IN_MOVES[2];
    Next(s, [], Base(Tick(0)));
    Next(s, [] + [Base(Tick(0))], Base(Tick(0)));
    Next(s, [] + [Base(Tick(0))] + [Base(Tick(0))], login);
    assert [] + [Base(Tick(0))] + [Base(Tick(0))] + [login] == SIGN_IN_MOVES;
    OneRow(Play(CFG, s, SIGN_IN_MOVES).w, Row(0, 50));
  }

  lemma Waited(s: System, ms: seq<Move>, row: Session, clock: Time, attempts: seq<Time>, to: Time)
    requires At(s, ms, row, clock, attempts) && clock <= to
    ensures At(s, ms + [Base(Tick(to))], row, to, attempts)
    ensures Play(CFG, s, ms + [Base(Tick(to))]).pending == Play(CFG, s, ms).pending
  {
    Next(s, ms, Base(Tick(to)));
  }

  lemma LookedUp(s: System, ms: seq<Move>, row: Session, clock: Time, attempts: seq<Time>, shell: int)
    requires At(s, ms, row, clock, attempts) && row.IsActive(clock)
    ensures At(s, ms + [Lookup(shell, "t")], row, clock, attempts + [clock])
    ensures Play(CFG, s, ms + [Lookup(shell, "t")]).pending ==
      Play(CFG, s, ms).pending[shell := Pending(1, clock, SlideTo(CFG, row, clock))]
  {
    Next(s, ms, Lookup(shell, "t"));
  }

  lemma TouchedAt(s: System, ms: seq<Move>, row: Session, clock: Time, attempts: seq<Time>, shell: int)
    requires At(s, ms, row, clock, attempts) && row.revokedAt.None?
    requires shell in Play(CFG, s, ms).pending && Play(CFG, s, ms).pending[shell].sessionID == 1
    ensures
      var p := Play(CFG, s, ms).pending[shell];
      At(s, ms + [Touch(shell)], row.(lastSeenAt := p.seenAt, idleExpiresAt := p.idleExpiresAt), clock, attempts)
    ensures Play(CFG, s, ms + [Touch(shell)]).pending == Play(CFG, s, ms).pending - {shell}
  {
    var p := Play(CFG, s, ms).pending[shell];
    Next(s, ms, Touch(shell));
    OneRow(Play(CFG, s, ms + [Touch(shell)]).w, row.(lastSeenAt := p.seenAt, idleExpiresAt := p.idleExpiresAt));
  }

  lemma LateTouchCutsShort()
    ensures CFG.Valid() && Invariants.Sound(CFG, Start(0)) && StepsOK(CFG, Start(0), [REGISTRATION])
    ensures
      var s := System(AfterSteps(CFG, Start(0), [REGISTRATION]), map[]);
      var ms := AsMoves(Serve(CFG, s.w, SIGN_IN.call, SIGN_IN.env).effects) + CUT_SHORT;
      && EnvOK(CFG, s.w, SIGN_IN.call, SIGN_IN.env) && Plays(CFG, s, ms) && "t" !in s.w.spent
      && StoryOf(CFG, s, ms, "t").history == History(Some(0), [0, 40], false)
      && !Answers(Play(CFG, s, ms).w, "t", 60) && Entitled(CFG, StoryOf(CFG, s, ms, "t").history, 60)
  {
    hide At, Serve, EnvOK, StepsOK, AfterSteps, Invariants.Sound;
    var w := AfterRegistration();
    var s, t0 := System(w, map[]), SIGN_IN_MOVES;
    SignInCall(w);
    SignedIn(s);
    LookedUp(s, t0, Row(0, 50), 0, [], 1);
    var t1 := t0 + [Lookup(1, "t")];
    Waited(s, t1, Row(0, 50), 0, [] + [0], 40);
    var t2 := t1 + [Base(Tick(40))];
    LookedUp(s, t2, Row(0, 50), 40, [] + [0], 2);
    var t3 := t2 + [Lookup(2, "t")];
    TouchedAt(s, t3, Row(0, 50), 40, [] + [0] + [40], 2);
    var t4 := t3 + [Touch(2)];
    TouchedAt(s, t4, Row(40, 90), 40, [] + [0] + [40], 1);
    assert t4 + [Touch(1)] == t0 + CUT_SHORT;
    CutShort(s, t0 + CUT_SHORT);
  }

  lemma CutShort(s: System, ms: seq<Move>)
    requires At(s, ms, Row(0, 50), 40, [] + [0] + [40])
    ensures Plays(CFG, s, ms) && StoryOf(CFG, s, ms, "t").history == History(Some(0), [0, 40], false)
    ensures !Answers(Play(CFG, s, ms).w, "t", 60) && Entitled(CFG, StoryOf(CFG, s, ms, "t").history, 60)
  {
    assert [] + [0] + [40] == [0, 40];
    assert Visits(History(Some(0), [0, 40], false), 60) == [0, 0, 40, 60];
  }

  lemma LateTouchRevives()
    ensures CFG.Valid() && Invariants.Sound(CFG, Start(0)) && StepsOK(CFG, Start(0), [REGISTRATION])
    ensures
      var s := System(AfterSteps(CFG, Start(0), [REGISTRATION]), map[]);
      var ms := AsMoves(Serve(CFG, s.w, SIGN_IN.call, SIGN_IN.env).effects) + REVIVAL;
      && EnvOK(CFG, s.w, SIGN_IN.call, SIGN_IN.env) && Plays(CFG, s, ms[..|ms| - 1]) && Plays(CFG, s, ms)
      && Play(CFG, s, ms[..|ms| - 1]).w.clock == 60 && !Answers(Play(CFG, s, ms[..|ms| - 1]).w, "t", 60)
      && Play(CFG, s, ms).w.clock == 60 && Answers(Play(CFG, s, ms).w, "t", 60)
  {
    hide Serve, EnvOK, StepsOK, AfterSteps, Invariants.Sound, Plays, Play, StoryOf;
    var w := AfterRegistration();
    var s, t0 := System(w, map[]), SIGN_IN_MOVES;
    SignInCall(w);
    SignedIn(s);
    Waited(s, t0, Row(0, 50), 0, [], 40);
    var t1 := t0 + [Base(Tick(40))];
    LookedUp(s, t1, Row(0, 50), 40, [], 1);
    var t2 := t1 + [Lookup(1, "t")];
    Waited(s, t2, Row(0, 50), 40, [] + [40], 60);
    var t3 := t2 + [Base(Tick(60))];
    TouchedAt(s, t3, Row(0, 50), 60, [] + [40], 1);
    var ms := t0 + REVIVAL;
    assert t3 + [Touch(1)] == ms && ms[..|ms| - 1] == t3;
  }
}
