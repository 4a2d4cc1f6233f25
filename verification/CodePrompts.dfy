/** Why the unbounded code prompt of a login terminates: the lockout counter. */
module CodePrompts {
  import opened Domain
  import opened Machine
  import opened Invariants
  import opened GuessRate
  import opened Calls
  import opened Refinement
  import opened CallRuns
  import Lockout

  /** A challenge that is still stored belongs to the user it was issued for. */
  ghost predicate BelongsTo(w: World, id: string, userID: int) {
    id in w.spent && (id in w.challenges ==> w.challenges[id].userID == userID)
  }

  lemma {:induction false} OwnerIsFixed(cfg: Config, w: World, tr: seq<Effect>, id: string, userID: int)
    requires Legal(cfg, w, tr) && BelongsTo(w, id, userID)
    ensures BelongsTo(Run(cfg, w, tr), id, userID)
  {
    hide Apply, Enabled;
    if tr != [] {
      OwnerIsFixed(cfg, w, tr[..|tr| - 1], id, userID);
      ChallengeFollows(cfg, Run(cfg, w, tr[..|tr| - 1]), tr[|tr| - 1], id);
    }
  }

  predicate Prompt(step: Step, id: string) {
    step.call.CComplete? && step.call.challengeID == id
  }

  function Prompts(steps: seq<Step>, id: string): nat {
    if steps == [] then 0
    else Prompts(steps[..|steps| - 1], id) + if Prompt(steps[|steps| - 1], id) then 1 else 0
  }

  ghost function Failures(w: World, userID: int): int {
    if userID in w.db.users then w.db.users[userID].failedLoginAttempts else 0
  }

  /** Every code for the challenge is rejected, and nobody else touches the failure counter of the account. */
  ghost predicate OnlyRejections(cfg: Config, w: World, steps: seq<Step>, id: string, userID: int)
    requires cfg.Valid() && Sound(cfg, w) && StepsOK(cfg, w, steps)
    decreases |steps|
  {
    steps == [] ||
    var init, last := steps[..|steps| - 1], steps[|steps| - 1];
    var before := AfterSteps(cfg, w, init);
    && OnlyRejections(cfg, w, init, id, userID)
    && if Prompt(last, id) then Serve(cfg, before, last.call, last.env).response.BadCode?
       else Failures(After(cfg, before, last.call, last.env), userID) == Failures(before, userID)
  }

  /**
   * Every rejected code uses up one attempt and the answer reports one attempt less than the answer before, so
   * fewer than MaxAttempts less the failures already counted are rejected: the next one locks the account and
   * ends the prompt.
   */
  lemma {:induction false} RejectedCodesAreBounded(cfg: Config, w: World, steps: seq<Step>, id: string, userID: int)
    requires cfg.Valid() && Sound(cfg, w) && StepsOK(cfg, w, steps)
    requires BelongsTo(w, id, userID) && userID in w.db.users
    requires OnlyRejections(cfg, w, steps, id, userID)
    ensures
      var w' := AfterSteps(cfg, w, steps);
      && BelongsTo(w', id, userID) && userID in w'.db.users
      && Failures(w', userID) == Failures(w, userID) + Prompts(steps, id)
    ensures Prompts(steps, id) < cfg.maxAttempts - Failures(w, userID)
    ensures steps != [] && Prompt(steps[|steps| - 1], id) ==>
      var last := steps[|steps| - 1];
      Serve(cfg, AfterSteps(cfg, w, steps[..|steps| - 1]), last.call, last.env).response ==
        BadCode(cfg.maxAttempts - Failures(w, userID) - Prompts(steps, id))
    decreases |steps|
  {
    hide Apply, Enabled, Sound, EnvOK;
    if steps != [] {
      var init, last := steps[..|steps| - 1], steps[|steps| - 1];
      RejectedCodesAreBounded(cfg, w, init, id, userID);
      var before := AfterSteps(cfg, w, init);
      var tr := Serve(cfg, before, last.call, last.env).effects;
      CallLegal(cfg, before, last.call, last.env);
      OwnerIsFixed(cfg, before, tr, id, userID);
      SoundAlong(cfg, before, tr);
      if Prompt(last, id) {
        CompleteLegal(cfg, before, id, last.call.code, last.call.info, last.env);
        CountersFollowRows(cfg, before, userID);
      }
    }
    CountersStayLow(cfg, AfterSteps(cfg, w, steps), userID);
  }

  lemma CountersFollowRows(cfg: Config, w: World, userID: int)
    requires Sound(cfg, w) && userID in w.db.users
    ensures w.db.users[userID].id == userID
  {
    assert UserRow(cfg, w.db, userID);
  }

  lemma CountersStayLow(cfg: Config, w: World, userID: int)
    requires Sound(cfg, w)
    ensures userID in w.db.users ==> 0 <= Failures(w, userID) < cfg.maxAttempts
  {
    if userID in w.db.users {
      assert UserRow(cfg, w.db, userID);
    }
  }

  // ----- The same with other actors in between -----

  /** The counter of the account after the first i calls. */
  ghost function FailuresAt(cfg: Config, origin: World, history: seq<Step>, i: nat, userID: int): int {
    if cfg.Valid() && Sound(cfg, origin) && i <= |history| && StepsOK(cfg, origin, history[..i])
    then Failures(AfterSteps(cfg, origin, history[..i]), userID)
    else 0
  }

  /** From call number start on, nobody but the owner of the calls in own changes the counter of the account. */
  ghost predicate LeftAlone(cfg: Config, origin: World, history: seq<Step>, own: set<nat>, start: nat, userID: int) {
    forall i | start <= i < |history| && i !in own ::
      FailuresAt(cfg, origin, history, i + 1, userID) == FailuresAt(cfg, origin, history, i, userID)
  }

  /** What was added later does not matter: the earlier calls were left alone too. */
  lemma LeftAloneBefore(cfg: Config, origin: World, earlier: seq<Step>, later: seq<Step>, own: set<nat>, more: set<nat>,
                        start: nat, userID: int)
    requires earlier <= later && own <= more && (forall i | i in more && i !in own :: i >= |earlier|)
    requires LeftAlone(cfg, origin, later, more, start, userID)
    ensures LeftAlone(cfg, origin, earlier, own, start, userID)
  {
    hide FailuresAt;
    forall i | start <= i < |earlier| && i !in own
      ensures FailuresAt(cfg, origin, earlier, i + 1, userID) == FailuresAt(cfg, origin, earlier, i, userID)
    {
      SameAt(cfg, origin, earlier, later, i, userID);
      SameAt(cfg, origin, earlier, later, i + 1, userID);
    }
  }

  lemma SameAt(cfg: Config, origin: World, earlier: seq<Step>, later: seq<Step>, i: nat, userID: int)
    requires earlier <= later && i <= |earlier|
    ensures FailuresAt(cfg, origin, earlier, i, userID) == FailuresAt(cfg, origin, later, i, userID)
  {
    assert earlier[..i] == later[..i];
  }

  /** A stretch of calls of the others. */
  lemma {:induction false} Untouched(cfg: Config, origin: World, history: seq<Step>, own: set<nat>, start: nat,
                                     finish: nat, userID: int)
    requires LeftAlone(cfg, origin, history, own, start, userID) && start <= finish <= |history|
    requires forall i | i in own :: !(start <= i < finish)
    ensures FailuresAt(cfg, origin, history, finish, userID) == FailuresAt(cfg, origin, history, start, userID)
    decreases finish
  {
    hide FailuresAt;
    if start < finish {
      Untouched(cfg, origin, history, own, start, finish - 1, userID);
    }
  }

  lemma {:induction false} StillKnown(cfg: Config, origin: World, earlier: seq<Step>, later: seq<Step>, id: string,
                                      userID: int)
    requires cfg.Valid() && Sound(cfg, origin) && StepsOK(cfg, origin, earlier) && StepsOK(cfg, origin, later)
    requires earlier <= later
    requires BelongsTo(AfterSteps(cfg, origin, earlier), id, userID)
    requires userID in AfterSteps(cfg, origin, earlier).db.users
    ensures BelongsTo(AfterSteps(cfg, origin, later), id, userID) && userID in AfterSteps(cfg, origin, later).db.users
    decreases |later|
  {
    hide Sound, EnvOK, BelongsTo, Apply, Enabled, Serve;
    if |earlier| < |later| {
      var init, last := later[..|later| - 1], later[|later| - 1];
      StillKnown(cfg, origin, earlier, init, id, userID);
      var before := AfterSteps(cfg, origin, init);
      CallLegal(cfg, before, last.call, last.env);
      OwnerIsFixed(cfg, before, Serve(cfg, before, last.call, last.env).effects, id, userID);
      SoundAlong(cfg, before, Serve(cfg, before, last.call, last.env).effects);
    } else {
      assert earlier == later;
    }
  }

  lemma ChallengeIsKnown(cfg: Config, w: World, id: string)
    requires Sound(cfg, w) && id in w.challenges
    ensures BelongsTo(w, id, w.challenges[id].userID) && w.challenges[id].userID in w.db.users
  {
  }

  /** The calls lead from origin to this state. */
  ghost predicate LeadsTo(cfg: Config, origin: World, steps: seq<Step>, w: World) {
    cfg.Valid() && Sound(cfg, origin) && StepsOK(cfg, origin, steps) && AfterSteps(cfg, origin, steps) == w
  }

  /**
   * The shell prompts once more, after whatever the others did, and the code is rejected: if the others left the
   * account's counter alone, it went up by one, and the answer says what is left.
   */
  lemma PromptCounts(cfg: Config, origin: World, before: seq<Step>, w: World, soFar: seq<Step>, served: World,
                     step: Step, own: set<nat>, start: nat, id: string, userID: int)
    requires cfg.Valid() && Sound(cfg, served) && EnvOK(cfg, served, step.call, step.env) && Prompt(step, id)
    requires Serve(cfg, served, step.call, step.env).response.BadCode?
    requires LeadsTo(cfg, origin, before, w) && LeadsTo(cfg, origin, soFar, served)
    requires before <= soFar && start <= |before| && forall i | i in own :: i < |before|
    requires BelongsTo(w, id, userID) && userID in w.db.users
    requires LeftAlone(cfg, origin, soFar + [step], own + {|soFar|}, start, userID)
    ensures
      && Failures(After(cfg, served, step.call, step.env), userID) == Failures(w, userID) + 1
      && Serve(cfg, served, step.call, step.env).response == BadCode(cfg.maxAttempts - Failures(w, userID) - 1)
  {
    hide Sound, EnvOK, StepsOK, AfterSteps, Apply, Enabled, LeftAlone;
    StillKnown(cfg, origin, before, soFar, id, userID);
    OthersLeftAlone(cfg, origin, before, soFar, step, own, start, userID);
    CallLegal(cfg, served, step.call, step.env);
    CompleteLegal(cfg, served, id, step.call.code, step.call.info, step.env);
    CountersFollowRows(cfg, served, userID);
  }

  lemma OthersLeftAlone(cfg: Config, origin: World, before: seq<Step>, soFar: seq<Step>, step: Step, own: set<nat>,
                        start: nat, userID: int)
    requires cfg.Valid() && Sound(cfg, origin) && StepsOK(cfg, origin, before) && StepsOK(cfg, origin, soFar)
    requires before <= soFar && start <= |before| && (forall i | i in own :: i < |before|)
    requires LeftAlone(cfg, origin, soFar + [step], own + {|soFar|}, start, userID)
    ensures Failures(AfterSteps(cfg, origin, soFar), userID) == Failures(AfterSteps(cfg, origin, before), userID)
  {
    hide Sound, StepsOK, AfterSteps;
    LeftAloneBefore(cfg, origin, soFar, soFar + [step], own, own + {|soFar|}, start, userID);
    assert LeftAlone(cfg, origin, soFar, own, |before|, userID);
    Untouched(cfg, origin, soFar, own, |before|, |soFar|, userID);
    assert soFar[..|soFar|] == soFar && soFar[..|before|] == before;
  }

  // ----- Where the prompt starts -----

  /** The outcome ends with the challenge it asks a code for, and perhaps an audit entry. */
  predicate EndsWithChallenge(o: Outcome) {
    o.response.CodeRequired? ==>
      var n := |o.effects|;
      || (n >= 1 && Issues(o.effects[n - 1], o.response))
      || (n >= 2 && o.effects[n - 1].Log? && Issues(o.effects[n - 2], o.response))
  }

  predicate Issues(e: Effect, r: Response)
    requires r.CodeRequired?
  {
    e.IssueChallenge? && e.id == r.challengeID && e.userID == r.user.id
  }

  lemma PasswordEndsWithChallenge(cfg: Config, w: World, u: User, password: string, info: string, env: Env)
    ensures EndsWithChallenge(PasswordStep(cfg, w, u, password, info, env))
  {
  }

  lemma LoginEndsWithChallenge(cfg: Config, w: World, username: string, password: string, info: string, env: Env)
    ensures EndsWithChallenge(AuthenticateCall(cfg, w, username, password, info, env))
  {
    hide PasswordStep;
    match w.db.UserNamed(cfg.normalize(username)) {
      case Some(id) =>
        PasswordEndsWithChallenge(cfg, w, w.db.users[id], password, info, env);
        PasswordEndsWithChallenge(cfg, w, Lockout.Unlocked(w.db.users[id]), password, info, env);
      case None =>
    }
  }

  lemma CallEndsWithChallenge(cfg: Config, w: World, c: Call, env: Env)
    ensures EndsWithChallenge(Serve(cfg, w, c, env))
  {
    hide AuthenticateCall, Run, Legal, Apply, Enabled;
    if c.CAuthenticate? {
      LoginEndsWithChallenge(cfg, w, c.username, c.password, c.info, env);
    }
  }

  lemma IssuedIsStored(cfg: Config, w: World, tr: seq<Effect>, r: Response)
    requires Legal(cfg, w, tr) && tr != [] && r.CodeRequired? && Issues(tr[|tr| - 1], r)
    ensures r.challengeID in Run(cfg, w, tr).challenges && Run(cfg, w, tr).challenges[r.challengeID].userID == r.user.id
  {
  }

  lemma LoggingKeepsChallenges(cfg: Config, w: World, tr: seq<Effect>)
    requires Legal(cfg, w, tr) && tr != [] && tr[|tr| - 1].Log?
    ensures Legal(cfg, w, tr[..|tr| - 1]) && Run(cfg, w, tr).challenges == Run(cfg, w, tr[..|tr| - 1]).challenges
  {
  }

  /** A login that asks for a code has just stored the challenge, for the user that it names. */
  lemma PromptStartsKnown(cfg: Config, w: World, c: Call, env: Env)
    requires cfg.Valid() && Sound(cfg, w) && EnvOK(cfg, w, c, env) && Serve(cfg, w, c, env).response.CodeRequired?
    ensures
      var r, w' := Serve(cfg, w, c, env).response, After(cfg, w, c, env);
      r.challengeID in w'.challenges && w'.challenges[r.challengeID].userID == r.user.id
  {
    hide Serve, Apply, Enabled, Sound, EnvOK, Run, Legal;
    var o := Serve(cfg, w, c, env);
    CallLegal(cfg, w, c, env);
    CallEndsWithChallenge(cfg, w, c, env);
    if o.effects[|o.effects| - 1].Log? {
      LoggingKeepsChallenges(cfg, w, o.effects);
      IssuedIsStored(cfg, w, o.effects[..|o.effects| - 1], o.response);
    } else {
      IssuedIsStored(cfg, w, o.effects, o.response);
    }
  }
}
