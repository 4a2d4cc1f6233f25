/**
 * Two runs of service calls that break the plain laws: one whose code check reads the clock on both sides of a
 * lock's deadline, and one whose challenge outlives the lock.
 */
module Witness {
  import opened Domain
  import opened Lockout
  import opened Machine
  import opened Invariants
  import opened FailureLaw
  import opened GuessRate
  import opened AuditReplay
  import opened Calls
  import opened Refinement
  import opened CallRuns
  import Service

  /** Two attempts, a lock of 10, challenges that live for ttl. */
  function Settings(ttl: Time): Config {
    Config(2, 10, 100, 100, ttl,
      (h: string, p: string) => if h == "#" + p then Match else Mismatch, h => false, s => Some(s),
      (s, c, t) => c == "good", t => t, n => n, (n, p) => true)
  }

  function Circumstances(find: Time, at: Time, challengeID: string, password: string): Env {
    Env(Readings(find, at, at, at, at), NoFault, false, "t", challengeID, "#" + password, "s", "s")
  }

  /** The account is registered, the second factor turned on, and a login waits for its code since 0. */
  function Setup(): seq<Step> {
    [Step(CRegister("u", "right"), Circumstances(0, 0, "c", "right")),
     Step(CBegin(1), Circumstances(0, 0, "c", "")),
     Step(CConfirm(1, "good", 0), Circumstances(0, 0, "c", "")),
     Step(CAuthenticate("u", "right", ""), Circumstances(0, 0, "c", "right"))]
  }

  function PasswordGuess(at: Time): Step {
    Step(CAuthenticate("u", "wrong", ""), Circumstances(at, at, "d", "wrong"))
  }

  function CodeGuess(find: Time): Step {
    Step(CComplete("c", "bad", ""), Circumstances(find, 10, "d", ""))
  }

  /** Two wrong passwords lock the account until 10; a wrong code at 10, then two more wrong passwords. */
  function Attack(find: Time): seq<Step> {
    [PasswordGuess(0), PasswordGuess(0), CodeGuess(find), PasswordGuess(10), PasswordGuess(10)]
  }

  // ----- The state between the calls -----

  ghost predicate Facts(cfg: Config, w: World, ttl: Time, counter: int, lock: Option<Time>, clock: Time, tally: Tally,
                        replayed: int)
  {
    && w.clock == clock && w.spent == {"c"}
    && w.db.users == map[1 := User(1, "u", "#right", "s", true, Some(0), counter, lock, None, 0)]
    && w.challenges.Keys == {"c"} && w.challenges["c"].userID == 1 && w.challenges["c"].expiresAt == ttl
    && Since(w.db.events, 1) == tally && Replay(cfg, w.db.events, 1).failures == replayed
  }

  lemma OneUser(w: World, u: User)
    requires w.db.users == map[1 := u]
    ensures w.db.UserNamed(u.username) == Some(1)
  {
    assert 1 in w.db.users;
  }

  /** What a counted failure adds to the log, read both ways. */
  lemma FailureLogged(cfg: Config, log: seq<Event>, counted: Event, locked: Event)
    requires Counted(counted, 1) && Happened(locked, 1, EvAccountLocked)
    ensures Since(log + [counted], 1) == Since(log, 1).(failures := Since(log, 1).failures + 1)
    ensures Since(log + [counted] + [locked], 1) ==
      Tally(Since(log, 1).failures + 1, Since(log, 1).locks + 1)
    ensures Replay(cfg, log + [counted], 1).failures == Replay(cfg, log, 1).failures + 1
    ensures Replay(cfg, log + [counted] + [locked], 1).failures == 0
  {
    LogGrows(log, counted, 1);
    LogGrows(log + [counted], locked, 1);
    assert (log + [counted])[..|log|] == log && (log + [counted] + [locked])[..|log| + 1] == log + [counted];
  }

  ghost predicate FactsAfterFailure(cfg: Config, w: World, ttl: Time, counter: int, lock: Option<Time>, clock: Time,
                                    tally: Tally, replayed: int)
  {
    if counter == 1 then Facts(cfg, w, ttl, 0, Some(clock + 10), clock, Tally(tally.failures + 1, tally.locks + 1), 0)
    else Facts(cfg, w, ttl, counter + 1, lock, clock, tally.(failures := tally.failures + 1), replayed + 1)
  }

  lemma Failed(cfg: Config, w: World, ttl: Time, counter: int, lock: Option<Time>, clock: Time, tally: Tally,
               replayed: int, cause: Cause, env: Env)
    requires cfg == Settings(ttl) && Facts(cfg, w, ttl, counter, lock, clock, tally, replayed) && 0 <= counter < 2
    requires Caused(cfg, w, 1, cause) && env.fault == NoFault && clock == env.at.finish == env.at.inner
    ensures
      var tr := CountedFailure(cfg, w.db.users[1], cause, env).effects;
      && Legal(cfg, w, tr) && FactsAfterFailure(cfg, Run(cfg, w, tr), ttl, counter, lock, clock, tally, replayed)
      && Guesses(tr, 1) == 1 && NoLogin(tr, 1)
  {
    hide Run, Legal, Apply, Enabled, Since, Replay, Caused;
    var u, log, next := w.db.users[1], w.db.events, w.db.nextEventID;
    CountedFailureLegal(cfg, w, u, cause, env);
    var counted := Event(next, Some(1), "u", CauseKind(cause), CauseDetail(w, cause), clock);
    var locked := Event(next + 1, Some(1), "u", EvAccountLocked, LockedUntilDetail(clock + 10), clock);
    FailureLogged(cfg, log, counted, locked);
    var tr := CountedFailure(cfg, u, cause, env).effects;
    assert tr[..1] == [tr[0]] && tr[0] == Tick(clock) && tr[1].CountFailure?;
    OneGuess(tr);
  }

  lemma OneGuess(tr: seq<Effect>)
    requires |tr| == 2 && tr[0].Tick? && Hits(tr[1], 1)
    ensures Guesses(tr, 1) == 1 && NoLogin(tr, 1)
  {
    assert tr[..1][..0] == [];
    assert Guesses(tr[..1], 1) == 0;
  }

  // ----- The calls -----

  /** What the wrong password does: a reading, the expired lock cleared, the failure counted. */
  lemma GuessedOutcome(cfg: Config, w: World, ttl: Time, counter: int, lock: Option<Time>, clock: Time, tally: Tally,
                       replayed: int, at: Time)
    requires cfg == Settings(ttl) && Facts(cfg, w, ttl, counter, lock, clock, tally, replayed)
    requires clock <= at && (lock.Some? ==> lock.value <= at)
    ensures
      var step, u := PasswordGuess(at), w.db.users[1];
      var u' := if lock.Some? then Unlocked(u) else u;
      && EnvOK(cfg, w, step.call, step.env)
      && cfg.verify(u'.passwordHash, "wrong") == Mismatch
      && Serve(cfg, w, step.call, step.env).effects ==
           (if lock.Some? then [Tick(at), ClearLock(1)] else [Tick(at)])
           + CountedFailure(cfg, u', WrongPassword("wrong"), step.env).effects
  {
    hide Run, Legal, Apply, Enabled, Since, Replay, Guesses;
    OneUser(w, w.db.users[1]);
    assert ("#" + "wrong")[1] != "#right"[1];
  }

  lemma Guessed(cfg: Config, w: World, ttl: Time, counter: int, lock: Option<Time>, clock: Time, tally: Tally,
                replayed: int, at: Time)
    requires cfg == Settings(ttl) && Facts(cfg, w, ttl, counter, lock, clock, tally, replayed) && 0 <= counter < 2
    requires clock <= at && (lock.Some? ==> lock.value <= at)
    ensures
      var step := PasswordGuess(at);
      var tr := Serve(cfg, w, step.call, step.env).effects;
      && EnvOK(cfg, w, step.call, step.env) && Legal(cfg, w, tr)
      && FactsAfterFailure(cfg, Run(cfg, w, tr), ttl, if lock.Some? then 0 else counter, None, at, tally, replayed)
      && Guesses(tr, 1) == 1 && NoLogin(tr, 1)
  {
    hide Run, Legal, Apply, Enabled, Since, Replay, Guesses, Serve, EnvOK, CountedFailure, Settings;
    GuessedOutcome(cfg, w, ttl, counter, lock, clock, tally, replayed, at);
    var env, u := PasswordGuess(at).env, w.db.users[1];
    var cause := WrongPassword("wrong");
    var pre := if lock.Some? then [Tick(at), ClearLock(1)] else [Tick(at)];
    var w' := w.(clock := at, db := if lock.Some? then w.db.PutUser(Unlocked(u)) else w.db);
    if lock.Some? {
      Service.ReadingThenClear(cfg, w, at, 1);
    } else {
      Service.Reading(cfg, w, at);
    }
    Failed(cfg, w', ttl, w'.db.users[1].failedLoginAttempts, None, at, tally, replayed, cause, env);
    var rest := CountedFailure(cfg, w'.db.users[1], cause, env).effects;
    Append(cfg, w, pre, rest);
    GuessesOver(pre, rest, 1);
    NoGuess(pre, 1);
  }

  /** What the wrong code does: two readings, the challenge saved again, the failure counted. */
  lemma RejectedOutcome(cfg: Config, w: World, ttl: Time, find: Time, tally: Tally, replayed: int)
    requires cfg == Settings(ttl) && Facts(cfg, w, ttl, 0, Some(10), 0, tally, replayed)
    requires 0 <= find <= 10 && find < ttl
    ensures
      var step := CodeGuess(find);
      var counted := CountedFailure(cfg, w.db.users[1], WrongCode("c", "bad", find, 10), step.env).effects;
      && EnvOK(cfg, w, step.call, step.env)
      && cfg.CodeFails(w.db.users[1], "bad", 10) && cfg.challengeTTL == ttl
      && Serve(cfg, w, step.call, step.env).effects ==
           [Tick(find), Tick(10)] + ([Tick(10), RetryChallenge("c")] + counted)
  {
    hide Run, Legal, Apply, Enabled, Since, Replay, Guesses;
    assert !cfg.codeOk(cfg.decrypt(w.db.users[1].totpSecret).value, "bad", 10);
  }

  /** The wrong code is counted although the lock has run out and is still stored. */
  lemma Rejected(cfg: Config, w: World, ttl: Time, find: Time, tally: Tally, replayed: int)
    requires cfg == Settings(ttl) && Facts(cfg, w, ttl, 0, Some(10), 0, tally, replayed)
    requires 0 <= find <= 10 && find < ttl
    ensures
      var step := CodeGuess(find);
      var tr := Serve(cfg, w, step.call, step.env).effects;
      && EnvOK(cfg, w, step.call, step.env) && Legal(cfg, w, tr)
      && Facts(cfg, Run(cfg, w, tr), ttl, 1, Some(10), 10, tally.(failures := tally.failures + 1), replayed + 1)
      && Guesses(tr, 1) == 1 && NoLogin(tr, 1)
  {
    hide Run, Legal, Apply, Enabled, Since, Replay, Guesses, Serve, EnvOK, CountedFailure, Settings, NoLogin;
    RejectedOutcome(cfg, w, ttl, find, tally, replayed);
    var env, u := CodeGuess(find).env, w.db.users[1];
    var cause := WrongCode("c", "bad", find, 10);
    var readings, retry := [Tick(find), Tick(10)], [Tick(10), RetryChallenge("c")];
    var w1 := w.(clock := 10);
    Service.TwoReadings(cfg, w, find, 10);
    Service.ReadingThenRetry(cfg, w1, 10, "c");
    var c := w.challenges["c"];
    var w2 := w1.(challenges := Evict(w.challenges, 10)["c" := c.(attempts := c.attempts + 1)]);
    assert w2.challenges.Keys == {"c"};
    Failed(cfg, w2, ttl, 0, Some(10), 10, tally, replayed, cause, env);
    var counted := CountedFailure(cfg, u, cause, env).effects;
    Append(cfg, w1, retry, counted);
    Append(cfg, w, readings, retry + counted);
    OneGuessAfter(readings, retry, counted);
  }

  lemma OneGuessAfter(readings: seq<Effect>, retry: seq<Effect>, counted: seq<Effect>)
    requires |readings| == 2 && |retry| == 2 && Guesses(counted, 1) == 1 && NoLogin(counted, 1)
    requires readings[0].Tick? && readings[1].Tick? && retry[0].Tick? && retry[1].RetryChallenge?
    ensures Guesses(readings + (retry + counted), 1) == 1 && NoLogin(readings + (retry + counted), 1)
  {
    hide Guesses;
    GuessesOver(retry, counted, 1);
    GuessesOver(readings, retry + counted, 1);
    NoGuess(readings, 1);
    NoGuess(retry, 1);
  }

  // ----- The run -----

  /** One more call of the run, and what it adds to the guesses. */
  lemma GoOn(cfg: Config, w: World, steps: seq<Step>, step: Step)
    requires cfg.Valid() && Sound(cfg, w) && StepsOK(cfg, w, steps)
    requires EnvOK(cfg, AfterSteps(cfg, w, steps), step.call, step.env)
    ensures
      var before, now := AfterSteps(cfg, w, steps), steps + [step];
      var tr := Serve(cfg, before, step.call, step.env).effects;
      && StepsOK(cfg, w, now) && Legal(cfg, before, tr) && AfterSteps(cfg, w, now) == Run(cfg, before, tr)
      && Guesses(TraceOf(cfg, w, now), 1) == Guesses(TraceOf(cfg, w, steps), 1) + Guesses(tr, 1)
      && (NoLogin(TraceOf(cfg, w, steps), 1) && NoLogin(tr, 1) ==> NoLogin(TraceOf(cfg, w, now), 1))
  {
    hide Sound, EnvOK, Serve, Guesses, Run, Legal;
    OneMoreStep(cfg, w, steps, step);
    CallLegal(cfg, AfterSteps(cfg, w, steps), step.call, step.env);
    assert (steps + [step])[..|steps|] == steps;
    GuessesOver(TraceOf(cfg, w, steps), Serve(cfg, AfterSteps(cfg, w, steps), step.call, step.env).effects, 1);
  }

  ghost predicate Reached(cfg: Config, w: World, steps: seq<Step>, guesses: nat)
    requires cfg.Valid() && Sound(cfg, w)
  {
    StepsOK(cfg, w, steps) && Guesses(TraceOf(cfg, w, steps), 1) == guesses && NoLogin(TraceOf(cfg, w, steps), 1)
  }

  /** The attack, call by call; the log tells the fourth call's counter wrongly. */
  lemma Attacked(cfg: Config, w: World, ttl: Time, find: Time)
    requires cfg == Settings(ttl) && cfg.Valid() && Sound(cfg, w) && 0 <= find <= 10 && find < ttl
    requires Facts(cfg, w, ttl, 0, None, 0, Tally(0, 0), 0)
    ensures Reached(cfg, w, Attack(find), 5) && Reached(cfg, w, Attack(find)[..4], 4)
    ensures Facts(cfg, AfterSteps(cfg, w, Attack(find)), ttl, 0, Some(20), 10, Tally(5, 2), 0)
    ensures Facts(cfg, AfterSteps(cfg, w, Attack(find)[..4]), ttl, 1, None, 10, Tally(4, 1), 2)
  {
    hide Sound, EnvOK, Serve, Guesses, Run, Legal, StepsOK, AfterSteps, TraceOf, Facts, NoLogin;
    Nothing(cfg, w);
    Guessed(cfg, w, ttl, 0, None, 0, Tally(0, 0), 0, 0);
    GoOn(cfg, w, [], PasswordGuess(0));
    var s1 := [] + [PasswordGuess(0)];
    Guessed(cfg, AfterSteps(cfg, w, s1), ttl, 1, None, 0, Tally(1, 0), 1, 0);
    GoOn(cfg, w, s1, PasswordGuess(0));
    var s2 := s1 + [PasswordGuess(0)];
    Rejected(cfg, AfterSteps(cfg, w, s2), ttl, find, Tally(2, 1), 0);
    GoOn(cfg, w, s2, CodeGuess(find));
    var s3 := s2 + [CodeGuess(find)];
    Guessed(cfg, AfterSteps(cfg, w, s3), ttl, 1, Some(10), 10, Tally(3, 1), 1, 10);
    GoOn(cfg, w, s3, PasswordGuess(10));
    var s4 := s3 + [PasswordGuess(10)];
    Guessed(cfg, AfterSteps(cfg, w, s4), ttl, 1, None, 10, Tally(4, 1), 2, 10);
    GoOn(cfg, w, s4, PasswordGuess(10));
    assert Attack(find) == s4 + [PasswordGuess(10)] && Attack(find)[..4] == s4;
  }

  lemma Nothing(cfg: Config, w: World)
    requires cfg.Valid() && Sound(cfg, w)
    ensures Reached(cfg, w, [], 0) && AfterSteps(cfg, w, []) == w
  {
  }

  // ----- The preparation -----

  function Account(secret: string, confirmedAt: Option<Time>): User {
    User(1, "u", "#right", secret, confirmedAt.Some?, confirmedAt, 0, None, None, 0)
  }

  ghost predicate Prepared(w: World, u: User, events: seq<Event>) {
    w.clock == 0 && w.spent == {} && w.challenges == map[] && w.db.users == map[1 := u] && w.db.events == events
  }

  const REGISTERED := Event(1, Some(1), "u", EvRegistered, NoDetail, 0)
  const ENABLED := Event(2, Some(1), "u", EvTOTPEnabled, NoDetail, 0)
  const CHALLENGED := Event(3, Some(1), "u", EvTOTPChallenged, NoDetail, 0)

  ghost predicate Leads(cfg: Config, w: World, step: Step, w': World) {
    && EnvOK(cfg, w, step.call, step.env)
    && Legal(cfg, w, Serve(cfg, w, step.call, step.env).effects)
    && w' == Run(cfg, w, Serve(cfg, w, step.call, step.env).effects)
  }

  lemma AfterRegister(cfg: Config, ttl: Time) returns (w: World)
    requires cfg == Settings(ttl)
    ensures Leads(cfg, Start(0), Setup()[0], w) && Prepared(w, Account("", None), [REGISTERED]) && w.db.nextEventID == 2
  {
    hide Run, Legal, Apply, Enabled;
    assert "#" + "right" == "#right";
    Service.Registered(cfg, Start(0), 0, "u", "#right");
    w := Run(cfg, Start(0), Serve(cfg, Start(0), Setup()[0].call, Setup()[0].env).effects);
  }

  lemma AfterBegin(cfg: Config, ttl: Time, w: World) returns (w': World)
    requires cfg == Settings(ttl) && Prepared(w, Account("", None), [REGISTERED]) && w.db.nextEventID == 2
    ensures Leads(cfg, w, Setup()[1], w') && Prepared(w', Account("s", None), [REGISTERED]) && w'.db.nextEventID == 2
  {
    hide Run, Legal, Apply, Enabled;
    Service.Began(cfg, w, 1, Setup()[1].env);
    w' := Run(cfg, w, Serve(cfg, w, Setup()[1].call, Setup()[1].env).effects);
  }

  lemma AfterConfirm(cfg: Config, ttl: Time, w: World) returns (w': World)
    requires cfg == Settings(ttl) && Sound(cfg, w)
    requires Prepared(w, Account("s", None), [REGISTERED]) && w.db.nextEventID == 2
    ensures Leads(cfg, w, Setup()[2], w')
    ensures Prepared(w', Account("s", Some(0)), [REGISTERED, ENABLED]) && w'.db.nextEventID == 3
  {
    hide Run, Legal, Apply, Enabled, Sound;
    ConfirmLegal(cfg, w, 1, "good", 0, Setup()[2].env);
    w' := Run(cfg, w, Serve(cfg, w, Setup()[2].call, Setup()[2].env).effects);
  }

  lemma AfterPassword(cfg: Config, ttl: Time, w: World) returns (w': World)
    requires cfg == Settings(ttl) && Prepared(w, Account("s", Some(0)), [REGISTERED, ENABLED]) && w.db.nextEventID == 3
    ensures Leads(cfg, w, Setup()[3], w') && Facts(cfg, w', ttl, 0, None, 0, Tally(0, 0), 0)
  {
    hide Run, Legal, Apply, Enabled, Since, Replay;
    var u := w.db.users[1];
    OneUser(w, u);
    Service.Reading(cfg, w, 0);
    Service.ReadingThenIssue(cfg, w, 0, 1, "c", "right", 0);
    var issue, env := [Tick(0), IssueChallenge(1, "c", "right", 0)], Setup()[3].env;
    AuditLegal(cfg, w, issue, env, Some(1), "u", EvTOTPChallenged, NoDetail, 0);
    Append(cfg, w, [Tick(0)], issue + Audit(env, Some(1), "u", EvTOTPChallenged, NoDetail, 0));
    QuietLog(cfg);
    w' := Run(cfg, w, Serve(cfg, w, Setup()[3].call, Setup()[3].env).effects);
    assert w'.db.events == [REGISTERED, ENABLED, CHALLENGED];
  }

  lemma QuietLog(cfg: Config)
    ensures Since([REGISTERED, ENABLED, CHALLENGED], 1) == Tally(0, 0)
    ensures Replay(cfg, [REGISTERED, ENABLED, CHALLENGED], 1).failures == 0
  {
    var log := [REGISTERED, ENABLED, CHALLENGED];
    assert log[..2] == [REGISTERED, ENABLED] && log[..2][..1] == [REGISTERED] && log[..2][..1][..0] == [];
    assert Since([], 1) == Tally(0, 0) && Since(log[..2][..1], 1) == Tally(0, 0) && Since(log[..2], 1) == Tally(0, 0);
    assert Replay(cfg, [], 1).failures == 0 && Replay(cfg, log[..2][..1], 1).failures == 0;
    assert Replay(cfg, log[..2], 1).failures == 0;
  }

  lemma SetUp(cfg: Config, ttl: Time)
    requires cfg == Settings(ttl) && cfg.Valid()
    ensures Sound(cfg, Start(0)) && StepsOK(cfg, Start(0), Setup())
    ensures Facts(cfg, AfterSteps(cfg, Start(0), Setup()), ttl, 0, None, 0, Tally(0, 0), 0)
  {
    hide Sound, EnvOK, Serve, Guesses, Run, Legal, StepsOK, AfterSteps, TraceOf, Facts, NoLogin, Prepared, Setup, Settings;
    var w0, steps := Start(0), Setup();
    Reachable(cfg, 0, []);
    FirstState(cfg);
    Nothing(cfg, w0);
    assert |steps| == 4 by { SetupHasFour(); }
    var w1 := AfterRegister(cfg, ttl);
    GoOn(cfg, w0, [], steps[0]);
    var w2 := AfterBegin(cfg, ttl, w1);
    GoOn(cfg, w0, [] + [steps[0]], steps[1]);
    var w3 := AfterConfirm(cfg, ttl, w2);
    GoOn(cfg, w0, [] + [steps[0]] + [steps[1]], steps[2]);
    var w4 := AfterPassword(cfg, ttl, w3);
    GoOn(cfg, w0, [] + [steps[0]] + [steps[1]] + [steps[2]], steps[3]);
    assert steps == [] + [steps[0]] + [steps[1]] + [steps[2]] + [steps[3]];
  }

  lemma SetupHasFour()
    ensures |Setup()| == 4
  {
  }

  lemma FirstState(cfg: Config)
    ensures Legal(cfg, Start(0), []) && Run(cfg, Start(0), []) == Start(0)
  {
  }

  // ----- The laws fail -----

  /** From this run on, the attack breaks conservation and the rate, and four of its calls break the replay. */
  ghost predicate BreaksPlainLaws(cfg: Config, setup: seq<Step>, attack: seq<Step>)
    requires cfg.Valid() && Sound(cfg, Start(0)) && StepsOK(cfg, Start(0), setup)
  {
    var w := AfterSteps(cfg, Start(0), setup);
    && StepsOK(cfg, w, attack)
    && var after, tr := AfterSteps(cfg, w, attack), TraceOf(cfg, w, attack);
    var t := Since(after.db.events, 1);
    && 1 in after.db.users && t.failures != cfg.maxAttempts * t.locks + after.db.users[1].failedLoginAttempts
    && FreshTarget(cfg, w, 1) && NoLogin(tr, 1)
    && Guesses(tr, 1) > cfg.maxAttempts * ((after.clock - w.clock) / cfg.lockDuration + 1)
    && |attack| == 5 && StepsOK(cfg, w, attack[..4])
    && var fourth := AfterSteps(cfg, w, attack[..4]);
    !Rebuilds(fourth, Replay(cfg, fourth.db.events, 1), 1)
  }

  lemma PlainLawsCanFail(ttl: Time, find: Time)
    requires 0 <= find <= 10 && find < ttl
    ensures Settings(ttl).Valid() && Sound(Settings(ttl), Start(0)) && StepsOK(Settings(ttl), Start(0), Setup())
    ensures BreaksPlainLaws(Settings(ttl), Setup(), Attack(find))
  {
    hide Sound, EnvOK, Serve, Guesses, Run, Legal, StepsOK, AfterSteps, TraceOf, NoLogin, Since, Replay, Setup;
    var cfg := Settings(ttl);
    SetUp(cfg, ttl);
    Attacked(cfg, AfterSteps(cfg, Start(0), Setup()), ttl, find);
  }

  /** With short challenges: the code check finds its challenge at 9 and tests the lock, which ends at 10, at 10. */
  lemma RaceBreaksPlainLaws()
    ensures Settings(10).Valid() && Settings(10).ShortChallenges()
    ensures Sound(Settings(10), Start(0)) && StepsOK(Settings(10), Start(0), Setup())
    ensures BreaksPlainLaws(Settings(10), Setup(), Attack(9))
  {
    hide BreaksPlainLaws, Sound, StepsOK;
    PlainLawsCanFail(10, 9);
  }

  /** With long challenges it takes no race: every call of this run reads one instant only. */
  lemma LongChallengesBreakPlainLaws()
    ensures Settings(100).Valid() && !Settings(100).ShortChallenges()
    ensures forall step | step in Setup() + Attack(10) :: step.env.at.find == step.env.at.start == step.env.at.inner
    ensures Sound(Settings(100), Start(0)) && StepsOK(Settings(100), Start(0), Setup())
    ensures BreaksPlainLaws(Settings(100), Setup(), Attack(10))
  {
    hide BreaksPlainLaws, Sound, StepsOK;
    PlainLawsCanFail(100, 10);
  }
}
