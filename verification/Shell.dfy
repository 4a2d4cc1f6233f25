/**
 * internal/cli: the interactive shell over the service. What the user types and what everybody else does to the
 * store come from two tapes, and any call may meet a storage fault. A run stops, as if the process were killed, when
 * a tape ends or holds a beat that cannot happen; everything proved of the shell holds at that point too.
 */
module Shell {
  import opened Domain
  import opened Machine
  import opened Invariants
  import opened Tokens
  import opened Calls
  import opened CallRuns
  import opened ShellLaw
  import opened CodePrompts
  import opened Dialogues
  import opened Registry
  import opened Service

  /** What the others do while the shell is about to call, and the circumstances of its call. */
  datatype Beat = Beat(others: seq<Step>, env: Env)

  /** Where a call of the shell stood: every call before it, the state it was served from, its circumstances. */
  datatype Exchange = Exchange(soFar: seq<Step>, served: World, env: Env)

  /** internal/cli/state.go */
  class State {
    var token: string
    var session: Option<Session>
    var user: Option<User>

    predicate IsAuthenticated()
      reads this
    {
      token != "" && user.Some?
    }

    /** The signed-in user. */
    function Owner(): User
      requires IsAuthenticated()
      reads this
    {
      user.value
    }

    function SessionID(): int
      reads this
    {
      if session.None? then 0 else session.value.id
    }

    constructor ()
      ensures !IsAuthenticated()
    {
      token, session, user := "", None, None;
    }

    method Set(token: string, session: Session, user: User)
      modifies this
      ensures this.token == token && this.session == Some(session) && this.user == Some(user)
    {
      this.token, this.session, this.user := token, Some(session), Some(user);
    }

    method Refresh(session: Session, user: User)
      modifies `session, `user
      ensures this.session == Some(session) && this.user == Some(user)
    {
      this.session, this.user := Some(session), Some(user);
    }

    method Clear()
      modifies this
      ensures token == "" && session.None? && user.None?
    {
      token, session, user := "", None, None;
    }
  }

  /** The scope that every command of the shell is declared with. */
  function ScopeOf(action: Action): Scope {
    match action
    case DoRegister => ScopeGuest
    case DoLogin => ScopeGuest
    case DoHelp => ScopeAlways
    case DoExit => ScopeAlways
    case _ => ScopeAuthenticated
  }

  /** The entry before the given position is a successful revalidation of the token. */
  ghost predicate Vetted(log: seq<Entry>, i: nat, token: string)
    requires i <= |log|
  {
    i > 0 && log[i - 1].Asked? && log[i - 1].call == CResolve(token) && log[i - 1].response.SessionLive?
  }

  /** Every signed-in command ran right after its dispatch resolved the session it ran with. */
  ghost predicate AllVetted(log: seq<Entry>) {
    forall i | 0 <= i < |log| && log[i].Ran? && log[i].command.scope == ScopeAuthenticated :: Vetted(log, i, log[i].token)
  }

  lemma StaysVetted(log: seq<Entry>, entry: Entry)
    requires AllVetted(log)
    requires entry.Ran? && entry.command.scope == ScopeAuthenticated ==> Vetted(log, |log|, entry.token)
    ensures AllVetted(log + [entry])
  {
    var now := log + [entry];
    forall i | 0 <= i < |now| && now[i].Ran? && now[i].command.scope == ScopeAuthenticated
      ensures Vetted(now, i, now[i].token)
    {
      if i < |log| {
        assert Vetted(log, i, log[i].token);
      }
    }
  }

  /** Every session that the shell lost track of is one whose resolve or logout met a storage fault. */
  ghost predicate Explained(cfg: Config, log: seq<Entry>, orphans: set<string>) {
    forall h | h in orphans :: exists i :: 0 <= i < |log| && LosesTrack(cfg, log[i], h)
  }

  predicate LosesTrack(cfg: Config, entry: Entry, hash: string) {
    && entry.Asked? && (entry.call.CResolve? || entry.call.CLogout?) && cfg.hashToken(entry.call.token) == hash
    && entry.response.Failed? && entry.env.fault != NoFault
  }

  lemma StaysExplained(cfg: Config, log: seq<Entry>, entry: Entry, orphans: set<string>)
    requires Explained(cfg, log, orphans)
    ensures Explained(cfg, log + [entry], orphans)
  {
    var now := log + [entry];
    forall h | h in orphans ensures exists i :: 0 <= i < |now| && LosesTrack(cfg, now[i], h) {
      var i :| 0 <= i < |log| && LosesTrack(cfg, log[i], h);
      assert now[i] == log[i];
    }
  }

  lemma NewOrphan(cfg: Config, log: seq<Entry>, orphans: set<string>, hash: string)
    requires Explained(cfg, log, orphans) && |log| > 0 && LosesTrack(cfg, log[|log| - 1], hash)
    ensures Explained(cfg, log, orphans + {hash})
  {
  }

  // ----- What a command did -----

  /** What a command sees of the shell: its log, what is left to read, and the cached login. */
  datatype Desk = Desk(log: seq<Entry>, inputs: seq<Input>, token: string, session: Option<Session>, user: Option<User>)
  {
    function SessionID(): int {
      if session.None? then 0 else session.value.id
    }

    /** The cached login did not change. */
    predicate SameLogin(later: Desk) {
      later.token == token && later.session == session && later.user == user
    }

    /** The cached login is the one that was answered. */
    predicate Caches(r: Response)
      requires r.SignedIn?
    {
      token == r.token && session == Some(r.session) && user == Some(r.user)
    }

    predicate SignedIn() {
      token != "" && user.Some?
    }

    predicate SignedOut() {
      token == "" && session.None? && user.None?
    }

    /** The cached login is that of the last answer, if it carries a session. */
    predicate SignsIn(later: Desk, entries: seq<Entry>) {
      if entries != [] && Accepted(entries[|entries| - 1]) then later.Caches(entries[|entries| - 1].response)
      else SameLogin(later)
    }

    /** Only a look at the session changes what is cached of it. */
    predicate Refreshed(later: Desk, entries: seq<Entry>) {
      && later.token == token
      && if entries != [] && Looked(entries[|entries| - 1], token) then
           var r := entries[|entries| - 1].response;
           later.session == Some(r.session) && later.user == Some(r.user)
         else SameLogin(later)
    }
  }

  predicate Looked(entry: Entry, token: string) {
    entry.Asked? && entry.call == CResolve(token) && entry.response.SessionLive?
  }

  /** A sign-in call that was answered with a session. */
  predicate Accepted(entry: Entry) {
    entry.Asked? && (entry.call.CComplete? || entry.call.CAuthenticate?) && entry.response.SignedIn?
  }

  /** Codes before the end of a dialogue leave the cached login alone. */
  lemma RefreshedAtTheEnd(before: Desk, after: Desk, done: seq<Entry>, rest: seq<Entry>)
    requires before.Refreshed(after, rest) && forall i | 0 <= i < |done| :: done[i].Asked? && !done[i].call.CResolve?
    ensures before.Refreshed(after, done + rest)
  {
  }

  lemma SignsInAtTheEnd(before: Desk, after: Desk, done: seq<Entry>, rest: seq<Entry>)
    requires before.SignsIn(after, rest) && forall i | 0 <= i < |done| :: done[i].Asked? && !done[i].response.SignedIn?
    ensures before.SignsIn(after, done + rest)
    ensures done + rest != [] && Accepted((done + rest)[|done + rest| - 1]) ==>
      rest != [] && Accepted(rest[|rest| - 1])
  {
  }

  /** The look at the cached session before a command: it found the session live, or the shell is signed out. */
  predicate Revalidated(before: Desk, after: Desk, live: bool, err: Error) {
    && after.inputs == before.inputs
    && if err == Killed then after == before && !live
       else
         && err == Nil && before.log <= after.log && |after.log| == |before.log| + 1
         && Asks(after.log, |before.log|, CResolve(before.token))
         && var r := after.log[|before.log|].response;
            && live == r.SessionLive?
            && if live then after.token == before.token && after.session == Some(r.session) && after.user == Some(r.user)
               else after.SignedOut()
  }

  /** How one line is carried out: where its command starts, whether a session is live there, whether it runs. */
  datatype Course = Course(start: Desk, live: bool, ran: bool)

  /**
   * A cached session is looked at first, for a known command; the command then runs exactly if it is in scope for what
   * that found, with the words after its name.
   */
  ghost predicate Dispatched(words: string -> seq<string>, info: string, found: Option<Command>, args: seq<string>,
                             before: Desk, course: Course, after: Desk, err: Error)
  {
    if found.None? then course == Course(before, false, false) && after == before && err == Nil
    else
      && (if !before.SignedIn() then course.start == before && !course.live
          else if course.start == before then !course.live && !course.ran && err == Killed
          else Revalidated(before, course.start, course.live, Nil))
      && if course.ran then
           && InScope(found.value.scope, course.live)
           && Executed(words, info, found.value, args, course.start, after, err)
         else
           && after == course.start
           && (if before.SignedIn() && course.start == before then err == Killed
               else err == Nil && !InScope(found.value.scope, course.live))
  }

  /** An input that a waiting shell passes over. */
  predicate Idle(words: string -> seq<string>, input: Input) {
    input.Interrupt? || (input.Line? && words(input.text) == [])
  }

  /** An input that ends the shell. */
  predicate Closes(input: Input) {
    !input.Line? && !input.Interrupt?
  }

  /** From one point to the other the shell only read idle inputs. */
  predicate Waits(words: string -> seq<string>, from: Desk, at: Desk) {
    var k := |from.inputs| - |at.inputs|;
    && 0 <= k && at == from.(inputs := from.inputs[k..])
    && forall i | 0 <= i < k :: Idle(words, from.inputs[i])
  }

  lemma NoWait(words: string -> seq<string>, at: Desk)
    ensures Waits(words, at, at)
  {
  }

  lemma OneMoreIdle(words: string -> seq<string>, from: Desk, at: Desk)
    requires Waits(words, from, at) && at.inputs != [] && Idle(words, at.inputs[0])
    ensures Waits(words, from, at.(inputs := at.inputs[1..]))
  {
  }

  /** One line that the shell read and carried out: from where it waited, to where it waits again. */
  datatype Turn = Turn(line: string, from: Desk, before: Desk, course: Course, after: Desk, err: Error)

  /** The command did exactly what was typed, and the cached login is what the answers make it. */
  ghost predicate Executed(words: string -> seq<string>, info: string, command: Command, args: seq<string>, before: Desk,
                           after: Desk, err: Error)
  {
    var noted := before.log + [Ran(command, before.token)];
    && noted <= after.log
    && var entries, tape, left := after.log[|noted|..], before.inputs, after.inputs;
       match command.action
       case DoRegister => RegisterDialogue(args, tape, left, entries, err) && before.SameLogin(after)
       case DoLogin =>
         && LoginDialogue(words, info, args, tape, left, entries, err)
         && before.SignsIn(after, entries)
       case DoEnable =>
         && before.user.Some? && before.Refreshed(after, entries)
         && EnrollmentDialogue(words, Enrollment(before.user.value.id, before.SessionID(), before.token), tape, left,
                               entries, err)
       case DoDisable =>
         && before.user.Some? && before.Refreshed(after, entries)
         && DisablementDialogue(words, Disablement(before.user.value.id, before.SessionID(), before.token),
                                before.user.value.totpEnabled, tape, left, entries, err)
       case DoLogout =>
         && LogoutDialogue(before.token, tape, left, entries, err)
         && if err == Nil then after.SignedOut() else before.SameLogin(after)
       case _ => entries == [] && err == Nil && left == tape && before.SameLogin(after)
  }

  // ----- What the prompt of a login may use up -----

  /** What the shell knows at a point: the calls since origin, which of them were its own, its log, the state. */
  datatype View = View(cfg: Config, origin: World, history: seq<Step>, own: set<nat>, log: seq<Entry>, w: World)
  {
    /** The calls lead to the state. */
    ghost predicate Traced() {
      LeadsTo(cfg, origin, history, w) && forall i | i in own :: i < |history|
    }

    /** Earlier in the same run. */
    ghost predicate Precedes(later: View) {
      && later.cfg == cfg && later.origin == origin && history <= later.history && log <= later.log
      && own <= later.own && forall i | i in later.own && i !in own :: i >= |history|
    }

    ghost predicate Undisturbed(start: nat, userID: int) {
      LeftAlone(cfg, origin, history, own, start, userID)
    }
  }

  lemma PrecedesItself(v: View)
    ensures v.Precedes(v)
  {
  }

  /** The log from start on: at most left calls, and each rejected code is told one attempt less than the one before. */
  ghost predicate Rationed(log: seq<Entry>, start: nat, left: int) {
    && |log| <= start + left
    && forall i | start <= i < |log| && log[i].Asked? && log[i].call.CComplete? && log[i].response.BadCode? ::
         log[i].response.remaining == left - (i - start) - 1
  }

  /**
   * What the prompt loop has used up: if since call number start the others left the account's counter alone, it
   * stands as many failures higher as codes were rejected, and the answers said so.
   */
  ghost predicate UsedUp(v: View, start: nat, logStart: nat, id: string, userID: int, failures: int) {
    && BelongsTo(v.w, id, userID) && userID in v.w.db.users
    && start <= |v.history| && logStart <= |v.log|
    && (v.Undisturbed(start, userID) ==>
          && Failures(v.w, userID) == failures + |v.log| - logStart
          && Rationed(v.log, logStart, v.cfg.maxAttempts - failures))
  }

  lemma NothingUsedUp(v: View, id: string)
    requires v.Traced() && Sound(v.cfg, v.w) && id in v.w.challenges
    ensures
      var userID := v.w.challenges[id].userID;
      UsedUp(v, |v.history|, |v.log|, id, userID, Failures(v.w, userID))
  {
    hide StepsOK, AfterSteps;
    ChallengeIsKnown(v.cfg, v.w, id);
    CountersStayLow(v.cfg, v.w, v.w.challenges[id].userID);
  }

  /** The history of later ends with this call, served from the state that everything before it led to. */
  ghost predicate Exchanged(x: Exchange, c: Call, response: Response, before: View, after: View) {
    && after.cfg == before.cfg && after.origin == before.origin && after.Traced()
    && before.history <= x.soFar && after.history == x.soFar + [Step(c, x.env)] && after.own == before.own + {|x.soFar|}
    && after.log == before.log + [Asked(c, response, x.env)]
    && StepsOK(after.cfg, after.origin, x.soFar) && x.served == AfterSteps(after.cfg, after.origin, x.soFar)
    && Sound(after.cfg, x.served) && EnvOK(after.cfg, x.served, c, x.env)
    && after.w == After(after.cfg, x.served, c, x.env) && response == Serve(after.cfg, x.served, c, x.env).response
  }

  /** One more rejected code. */
  lemma OneMoreUsedUp(x: Exchange, c: Call, response: Response, before: View, after: View,
                      start: nat, logStart: nat, userID: int, failures: int)
    requires c.CComplete? && response.BadCode? && before.Traced() && Exchanged(x, c, response, before, after)
    requires UsedUp(before, start, logStart, c.challengeID, userID, failures)
    ensures UsedUp(after, start, logStart, c.challengeID, userID, failures)
  {
    hide Sound, EnvOK, LeftAlone, BelongsTo, Serve, After, StepsOK, AfterSteps;
    var cfg, origin := before.cfg, before.origin;
    StillKnown(cfg, origin, before.history, after.history, c.challengeID, userID);
    SoundSteps(cfg, origin, after.history);
    CountersStayLow(cfg, after.w, userID);
    if after.Undisturbed(start, userID) {
      LeftAloneBefore(cfg, origin, before.history, after.history, before.own, after.own, start, userID);
      PromptCounts(cfg, origin, before.history, before.w, x.soFar, x.served, Step(c, x.env), before.own, start,
                   c.challengeID, userID);
    }
  }

  /** A code for the challenge, or its abandonment. */
  ghost predicate About(entry: Entry, challengeID: string)
    ensures About(entry, challengeID) ==> entry.Asked?
  {
    && entry.Asked?
    && ((entry.call.CComplete? && entry.call.challengeID == challengeID) || entry.call == CAbandon(challengeID))
  }

  lemma SoundSteps(cfg: Config, w: World, steps: seq<Step>)
    requires cfg.Valid() && Sound(cfg, w) && StepsOK(cfg, w, steps)
    ensures Sound(cfg, AfterSteps(cfg, w, steps))
  {
  }

  /** The prompt ends, with at most one more call. */
  lemma EndsWithinRation(before: View, after: View, id: string, start: nat, logStart: nat, userID: int, failures: int)
    requires before.Traced() && Sound(before.cfg, before.w) && before.Precedes(after)
    requires UsedUp(before, start, logStart, id, userID, failures)
    requires |after.log| <= |before.log| + 1
    requires |after.log| > |before.log| ==>
      var last := after.log[|after.log| - 1];
      last.Asked? && (last.call.CComplete? ==> !last.response.BadCode?)
    requires after.Undisturbed(start, userID)
    ensures Rationed(after.log, logStart, after.cfg.maxAttempts - failures)
  {
    hide Sound, LeftAlone, BelongsTo, StepsOK, AfterSteps;
    LeftAloneBefore(before.cfg, before.origin, before.history, after.history, before.own, after.own, start, userID);
    CountersStayLow(before.cfg, before.w, userID);
  }

  class Shell {
    const service: Service
    const state: State
    const registry: Registry
    const words: string -> seq<string>
    const bytes: string -> Text
    const clientInfo: string

    var inputs: seq<Input>
    var beats: seq<Beat>
    var quit: bool
    var cancelled: bool

    // The token hashes of the sessions this shell was given, except the orphans that it lost track of when a storage
    // fault met their resolve or logout; what the shell did; every call that anybody made since the state it was
    // started in, and which of them were its own; the commands that ran.
    ghost var issued: set<string>
    ghost var orphans: set<string>
    ghost var log: seq<Entry>
    ghost const origin: World
    ghost var history: seq<Step>
    ghost var own: set<nat>
    ghost var ran: seq<Command>

    ghost function Current(): Option<string>
      reads state
    {
      if state.IsAuthenticated() then Some(service.cfg.hashToken(state.token)) else None
    }

    ghost predicate Valid()
      reads `issued, `orphans, `log, `history, `own, state, registry, service, service.store, service.challenges
    {
      && service.Valid() && registry.Valid()
      && (forall n | n in registry.index :: registry.index[n].scope == ScopeOf(registry.index[n].action))
      && OneLive(service.Snapshot(), issued, Current())
      && Explained(service.cfg, log, orphans) && AllVetted(log) && Sight().Traced()
    }

    /** The hash of the cached token. */
    ghost function CurrentHash(): string
      reads state
    {
      service.cfg.hashToken(state.token)
    }

    ghost function Here(): Desk
      reads `inputs, `log, state
    {
      Desk(log, inputs, state.token, state.session, state.user)
    }

    ghost function Sight(): View
      reads `history, `own, `log, service, service.store, service.challenges
    {
      View(service.cfg, origin, history, own, log, service.Snapshot())
    }

    constructor (service: Service, registry: Registry, words: string -> seq<string>, bytes: string -> Text,
                 clientInfo: string, inputs: seq<Input>, beats: seq<Beat>)
      requires service.Valid() && registry.Valid()
      requires forall n | n in registry.index :: registry.index[n].scope == ScopeOf(registry.index[n].action)
      ensures Valid() && this.service == service && issued == {} && orphans == {} && log == []
      ensures origin == service.Snapshot() && history == []
    {
      this.service, this.registry, this.words, this.bytes := service, registry, words, bytes;
      this.clientInfo, this.inputs, this.beats := clientInfo, inputs, beats;
      state := new State();
      quit, cancelled := false, false;
      issued, orphans, log, history, own, ran := {}, {}, [], [], {}, [];
      origin := service.Snapshot();
    }

    // ----- The outside world -----

    method ReadLine() returns (text: string, err: Error)
      modifies `inputs, `cancelled
      ensures if old(inputs) == [] then inputs == [] && err == Killed
              else
                && inputs == old(inputs)[1..] && err == ReadError(old(inputs)[0])
                && (err == Nil ==> old(inputs)[0] == Line(text))
      ensures cancelled == (old(cancelled) || (old(inputs) != [] && old(inputs)[0].ContextDone?))
    {
      if inputs == [] {
        return "", Killed;
      }
      var next := inputs[0];
      inputs := inputs[1..];
      match next {
        case Line(t) => return t, Nil;
        case Interrupt => return "", Aborted;
        case EndOfInput => return "", Eof;
        case ReadFailed => return "", Unreadable;
        case ContextDone =>
          cancelled := true;
          return "", Unreadable;
      }
    }

    /** Everybody else's calls: whatever they are, they revive no session of this shell. */
    method Others(steps: seq<Step>) returns (possible: bool)
      requires Valid()
      modifies `history, service, service.store, service.challenges
      ensures Valid() && old(history) <= history
    {
      hide *;
      for i := 0 to |steps|
        invariant Valid() && old(history) <= history
      {
        possible := Foreign(steps[i].call, steps[i].env);
        if !possible {
          return;
        }
      }
      return true;
    }

    method Foreign(c: Call, env: Env) returns (possible: bool)
      requires Valid()
      modifies `history, service, service.store, service.challenges
      ensures Valid() && old(history) <= history
    {
      hide EnvOK, Serve, OneLive, Machine.Run, Legal, Sound, AllVetted, StepsOK, AfterSteps;
      if !EnvOK(service.cfg, service.Snapshot(), c, env) {
        return false;
      }
      ghost var w := service.Snapshot();
      var _ := service.Perform(c, env);
      CallKeepsOneLive(service.cfg, w, c, env, issued, Current());
      OneMoreStep(service.cfg, origin, history, Step(c, env));
      history := history + [Step(c, env)];
      return true;
    }

    /** One call of this shell, when its circumstances are possible. */
    method Call(c: Call, env: Env) returns (response: Response, ghost x: Exchange)
      requires Valid() && EnvOK(service.cfg, service.Snapshot(), c, env)
      modifies `log, `history, `own, service, service.store, service.challenges
      ensures Valid() && old(history) <= history && x == Exchange(old(history), old(service.Snapshot()), env)
      ensures old(Sight()).Precedes(Sight())
      ensures log == old(log) + [Asked(c, response, env)] && Exchanged(x, c, response, old(Sight()), Sight())
    {
      hide EnvOK, Serve, OneLive, Machine.Run, Legal, Sound, StepsOK, AfterSteps, LosesTrack, Explained, AllVetted;
      x := Exchange(history, service.Snapshot(), env);
      response := service.Perform(c, env);
      CallKeepsOneLive(service.cfg, x.served, c, env, issued, Current());
      OneMoreStep(service.cfg, origin, history, Step(c, env));
      StaysExplained(service.cfg, log, Asked(c, response, env), orphans);
      StaysVetted(log, Asked(c, response, env));
      own, history := own + {|history|}, history + [Step(c, env)];
      log := log + [Asked(c, response, env)];
    }

    /** One call of this shell, after whatever the others did. */
    method Ask(c: Call) returns (response: Response, err: Error, ghost x: Exchange)
      requires Valid()
      modifies `beats, `log, `history, `own, service, service.store, service.challenges
      ensures Valid() && old(history) <= history && old(Sight()).Precedes(Sight())
      ensures err == Nil || err == Killed
      ensures err == Killed ==> log == old(log)
      ensures err == Nil ==>
        && log == old(log) + [Asked(c, response, x.env)] && Exchanged(x, c, response, old(Sight()), Sight())
        && x.env.token != "" && OneLive(x.served, issued, Current())
    {
      hide EnvOK, Serve, OneLive, Sound, StepsOK, AfterSteps, LosesTrack, Explained, AllVetted, After;
      response, x := Done, *;
      if beats == [] {
        return response, Killed, x;
      }
      var beat := beats[0];
      beats := beats[1..];
      var possible := Others(beat.others);
      if !possible || !EnvOK(service.cfg, service.Snapshot(), c, beat.env) || beat.env.token == "" {
        return response, Killed, x;
      }
      response, x := Call(c, beat.env);
      return response, Nil, x;
    }

    // ----- Signing in -----

    method Blank(text: string) returns (blank: bool)
      ensures blank == (words(text) == [])
    {
      return words(text) == [];
    }

    /** A call that may end with a session; if it does, the shell's state takes it over. */
    method SignIn(c: Call) returns (response: Response, err: Error, ghost x: Exchange)
      requires Valid() && !state.IsAuthenticated()
      modifies `inputs, `beats, `cancelled, `issued, `orphans, `log, `history, `own,
               state, service, service.store, service.challenges
      ensures Valid() && inputs == old(inputs) && old(history) <= history && old(Sight()).Precedes(Sight())
      ensures err == Nil || err == Killed
      ensures state.IsAuthenticated() <==> err == Nil && response.SignedIn?
      ensures if err == Nil && response.SignedIn? then Here().Caches(response) else unchanged(state)
      ensures err == Killed ==> log == old(log)
      ensures err == Nil ==>
        log == old(log) + [Asked(c, response, x.env)] && Exchanged(x, c, response, old(Sight()), Sight())
    {
      hide EnvOK, Serve, OneLive, StepsOK, AfterSteps, Machine.Run, Legal, Sound, After, Vetted, LosesTrack;
      response, err, x := Ask(c);
      if err == Nil && response.SignedIn? {
        SignedInByLogin(service.cfg, x.served, c, x.env);
        LoginBecomesCurrent(service.cfg, x.served, c, x.env, issued);
        issued := issued + {service.cfg.hashToken(response.token)};
        state.Set(response.token, response.session, response.user);
      }
    }

    /** What a valid shell knows of its past. */
    lemma Trusted()
      requires Valid()
      ensures Sight().Traced() && Sound(service.cfg, service.Snapshot())
    {
      hide StepsOK, AfterSteps, OneLive, Explained, AllVetted, LosesTrack;
    }

    /** Gives the challenge up. */
    method Abandon(challengeID: string) returns (err: Error, ghost entries: seq<Entry>)
      requires Valid()
      modifies `beats, `log, `history, `own, service, service.store, service.challenges
      ensures Valid() && old(history) <= history && old(Sight()).Precedes(Sight())
      ensures log == old(log) + entries
      ensures if entries == [] then err == Killed
              else err == Nil && |entries| == 1 && Asks(entries, 0, CAbandon(challengeID))
    {
      hide Valid, Serve, Sound, EnvOK, OneLive, After, View.Precedes, Exchanged;
      entries := [];
      var answer;
      ghost var x;
      answer, err, x := Ask(CAbandon(challengeID));
      if err == Nil {
        entries := [Asked(CAbandon(challengeID), answer, x.env)];
      }
    }

    /** One prompt for a code; again when the code was rejected. */
    method AskCode(challengeID: string)
      returns (again: bool, err: Error, ghost entries: seq<Entry>, ghost x: Exchange)
      requires Valid() && !state.IsAuthenticated()
      modifies `inputs, `beats, `cancelled, `issued, `orphans, `log, `history, `own,
               state, service, service.store, service.challenges
      ensures Valid() && |inputs| <= |old(inputs)| && old(history) <= history && old(Sight()).Precedes(Sight())
      ensures log == old(log) + entries
      ensures again ==>
        && old(inputs) != [] && inputs == old(inputs)[1..] && |entries| == 1 && unchanged(state)
        && Rejection(words, SignInCode(challengeID, clientInfo), old(inputs)[0], entries[0])
      ensures !again ==> Ends(words, SignInCode(challengeID, clientInfo), old(inputs), inputs, entries, true, err)
      ensures old(Here()).SignsIn(Here(), entries)
      ensures state.IsAuthenticated() <==> entries != [] && Accepted(entries[0])
      ensures entries != [] ==> |entries| == 1 && About(entries[0], challengeID)
      ensures entries != [] && entries[0].call.CComplete? ==>
        Exchanged(x, entries[0].call, entries[0].response, old(Sight()), Sight())
    {
      hide Valid, Serve, Sound, EnvOK, OneLive, After, State.IsAuthenticated, View.Precedes, StepsOK, AfterSteps, Exchanged;
      entries, x := [], *;
      PrecedesItself(Sight());
      var code, unread := ReadLine();
      again, err := false, unread;
      var blank := Blank(code);
      if unread == Nil && !blank {
        var answer, lost, y := SignIn(CComplete(challengeID, code, clientInfo));
        again := lost == Nil && answer.BadCode?;
        err := if lost == Nil && !answer.SignedIn? then Refused(answer) else lost;
        x := y;
        if lost == Nil {
          entries := [Asked(CComplete(challengeID, code, clientInfo), answer, x.env)];
        }
      } else if unread == Nil || unread == Aborted {
        err, entries := Abandon(challengeID);
        err := if err == Killed then Killed else unread;
      }
    }

    /** The same, with what it leaves of the account's attempts. */
    method PromptOnce(challengeID: string, ghost known: bool, ghost start: nat, ghost logStart: nat, ghost userID: int,
                      ghost failures: int) returns (again: bool, err: Error, ghost entries: seq<Entry>)
      requires Valid() && !state.IsAuthenticated()
      requires known ==> UsedUp(Sight(), start, logStart, challengeID, userID, failures)
      modifies `inputs, `beats, `cancelled, `issued, `orphans, `log, `history, `own,
               state, service, service.store, service.challenges
      ensures Valid() && |inputs| <= |old(inputs)| && old(history) <= history && log == old(log) + entries
      ensures again ==>
        && old(inputs) != [] && inputs == old(inputs)[1..] && |entries| == 1 && unchanged(state)
        && Rejection(words, SignInCode(challengeID, clientInfo), old(inputs)[0], entries[0])
      ensures !again ==> Ends(words, SignInCode(challengeID, clientInfo), old(inputs), inputs, entries, true, err)
      ensures old(Here()).SignsIn(Here(), entries)
      ensures state.IsAuthenticated() <==> entries != [] && Accepted(entries[0])
      ensures entries != [] ==> |entries| == 1 && About(entries[0], challengeID)
      ensures again && known ==> UsedUp(Sight(), start, logStart, challengeID, userID, failures)
      ensures !again && known && Sight().Undisturbed(start, userID) ==>
        Rationed(log, logStart, service.cfg.maxAttempts - failures)
    {
      hide Valid, Serve, Sound, EnvOK, OneLive, After, State.IsAuthenticated, View.Undisturbed, View.Precedes, View.Traced,
           Rationed, UsedUp, StepsOK, AfterSteps, Exchanged, CodesAsked;
      ghost var before := Sight();
      Trusted();
      ghost var x;
      again, err, entries, x := AskCode(challengeID);
      if again && known {
        OneMoreUsedUp(x, entries[0].call, entries[0].response, before, Sight(), start, logStart, userID, failures);
      }
      if !again && known && Sight().Undisturbed(start, userID) {
        EndsWithinRation(before, Sight(), challengeID, start, logStart, userID, failures);
      }
    }

    /**
     * Prompts for codes until one is accepted, the user gives up, or the service does. If meanwhile the others leave
     * the account's counter alone, it calls the service no more often than the account has attempts left, whatever is
     * typed, and the attempts that the answers report go down by one each time.
     */
    method CompleteTwoFactor(challengeID: string) returns (err: Error, ghost entries: seq<Entry>)
      requires Valid() && !state.IsAuthenticated()
      modifies `inputs, `beats, `cancelled, `issued, `orphans, `log, `history, `own,
               state, service, service.store, service.challenges
      ensures Valid() && |inputs| <= |old(inputs)| && old(history) <= history && log == old(log) + entries
      ensures CodesAsked(words, SignInCode(challengeID, clientInfo), old(inputs), inputs, entries, err)
      ensures old(Here()).SignsIn(Here(), entries)
      ensures state.IsAuthenticated() <==> entries != [] && Accepted(entries[|entries| - 1])
      ensures challengeID in old(service.challenges.items) ==>
        var userID := old(service.challenges.items[challengeID].userID);
        Sight().Undisturbed(|old(history)|, userID) ==>
          Rationed(log, |old(log)|, service.cfg.maxAttempts - Failures(old(service.Snapshot()), userID))
    {
      hide Valid, Serve, Sound, EnvOK, OneLive, After, State.IsAuthenticated, View.Undisturbed, Rationed, UsedUp,
           StepsOK, AfterSteps, Ends, AllRejected, CodesAsked, Rejection, RejectedCode, LeftAlone, BelongsTo, View.Traced;
      ghost var start, logStart, known := |history|, |log|, challengeID in service.challenges.items;
      ghost var userID := if known then service.challenges.items[challengeID].userID else 0;
      ghost var failures := Failures(service.Snapshot(), userID);
      if known {
        Trusted();
        NothingUsedUp(Sight(), challengeID);
      }
      ghost var flow, rejected: seq<Entry> := SignInCode(challengeID, clientInfo), [];
      NoneRejected(words, flow, inputs);
      while true
        invariant Valid() && !state.IsAuthenticated() && unchanged(state) && old(history) <= history
        invariant log == old(log) + rejected && |rejected| <= |old(inputs)| && inputs == old(inputs)[|rejected|..]
        invariant AllRejected(words, flow, old(inputs), rejected)
        invariant known ==> UsedUp(Sight(), start, logStart, challengeID, userID, failures)
        decreases |inputs|
      {
        var again;
        again, err, entries := PromptOnce(challengeID, known, start, logStart, userID, failures);
        if !again {
          PromptEnds(words, flow, old(inputs), inputs, rejected, entries, err);
          RejectedAreCodes(words, flow, old(inputs), rejected);
          SignsInAtTheEnd(old(Here()), Here(), rejected, entries);
          entries := rejected + entries;
          return;
        }
        OneMoreRejected(words, flow, old(inputs), rejected, entries[0]);
        assert entries == [entries[0]];
        rejected := rejected + entries;
      }
    }

    /** The given or the prompted name, and the password. */
    method ReadCredentials(args: seq<string>) returns (username: string, password: string, err: Error)
      modifies `inputs, `cancelled
      ensures |inputs| <= |old(inputs)|
      ensures
        var k := if args == [] then 2 else 1;
        if AllLines(old(inputs), k) then
          && err == Nil && inputs == old(inputs)[k..] && password == old(inputs)[k - 1].text
          && username == if args == [] then old(inputs)[0].text else args[0]
        else err != Nil && BreaksOff(old(inputs), inputs, k, err)
    {
      hide Valid;
      password := "";
      if args != [] {
        username := args[0];
      } else {
        username, err := ReadLine();
        if err != Nil {
          assert BreaksAt(old(inputs), inputs, 0, err);
          return;
        }
      }
      password, err := ReadLine();
      if err != Nil {
        assert BreaksAt(old(inputs), inputs, if args == [] then 1 else 0, err);
      }
    }

    /** The password step, for the given or the prompted name, and then the code step if it is asked for. */
    method Login(args: seq<string>) returns (err: Error, ghost entries: seq<Entry>)
      requires Valid() && !state.IsAuthenticated()
      modifies `inputs, `beats, `cancelled, `issued, `orphans, `log, `history, `own,
               state, service, service.store, service.challenges
      ensures Valid() && |inputs| <= |old(inputs)| && log == old(log) + entries
      ensures LoginDialogue(words, clientInfo, args, old(inputs), inputs, entries, err)
      ensures old(Here()).SignsIn(Here(), entries)
      ensures state.IsAuthenticated() <==> entries != [] && Accepted(entries[|entries| - 1])
    {
      hide Valid, Serve, Sound, EnvOK, OneLive, After, State.IsAuthenticated, Exchanged, View.Precedes, View.Undisturbed,
           Rationed, CodesAsked, BreaksOff;
      entries := [];
      var username, password;
      username, password, err := ReadCredentials(args);
      if err != Nil {
        return;
      }
      var answer, lost, x := SignIn(CAuthenticate(username, password, clientInfo));
      err := lost;
      if err == Killed {
        return;
      }
      entries := [Asked(CAuthenticate(username, password, clientInfo), answer, x.env)];
      if answer.CodeRequired? {
        ghost var codes;
        err, codes := CompleteTwoFactor(answer.challengeID);
        entries := entries + codes;
      } else if !answer.SignedIn? {
        err := Refused(answer);
      }
    }

    method RegisterAccount(args: seq<string>) returns (err: Error, ghost entries: seq<Entry>)
      requires Valid()
      modifies `inputs, `beats, `cancelled, `issued, `orphans, `log, `history, `own,
               state, service, service.store, service.challenges
      ensures Valid() && |inputs| <= |old(inputs)| && log == old(log) + entries && unchanged(state)
      ensures RegisterDialogue(args, old(inputs), inputs, entries, err)
    {
      hide Valid, Serve, Sound, EnvOK, OneLive, After, Exchanged, View.Precedes;
      entries := [];
      var username, password, confirmation;
      if args != [] {
        username := args[0];
      } else {
        username, err := ReadLine();
        if err != Nil {
          assert BreaksAt(old(inputs), inputs, 0, err);
          return;
        }
      }
      password, err := ReadLine();
      if err != Nil {
        assert BreaksAt(old(inputs), inputs, if args == [] then 1 else 0, err);
        return;
      }
      confirmation, err := ReadLine();
      if err != Nil {
        assert BreaksAt(old(inputs), inputs, if args == [] then 2 else 1, err);
        return;
      }
      if password != confirmation {
        return Invalid, [];
      }
      var answer, lost, x := Ask(CRegister(username, password));
      if lost == Killed {
        return Killed, [];
      }
      entries := [Asked(CRegister(username, password), answer, x.env)];
      return if answer.Created? then Nil else Refused(answer), entries;
    }

    // ----- Ending a session -----

    /** The shell forgets its session; if a storage fault is the reason, the session becomes an orphan. */
    method Forget(lost: bool)
      requires Valid() && state.IsAuthenticated() && |log| > 0
      requires
        var hash := service.cfg.hashToken(state.token);
        if lost then LosesTrack(service.cfg, log[|log| - 1], hash)
        else !Answers(service.Snapshot(), hash, service.clock)
      modifies `issued, `orphans, state
      ensures Valid() && Here().SignedOut()
      ensures orphans == if lost then old(orphans) + {service.cfg.hashToken(old(state.token))} else old(orphans)
    {
      hide OneLive, Answers, AllVetted, Sound, StepsOK, AfterSteps, LosesTrack;
      ghost var hash := service.cfg.hashToken(state.token);
      ForgottenLeavesNone(service.Snapshot(), issued, hash);
      if lost {
        NewOrphan(service.cfg, log, orphans, hash);
        issued, orphans := issued - {hash}, orphans + {hash};
      }
      state.Clear();
    }

    /** Ends the session first, and forgets it only then. */
    method Logout() returns (err: Error, ghost entries: seq<Entry>)
      requires Valid() && state.IsAuthenticated()
      modifies `beats, `issued, `orphans, `log, `history, `own,
               state, service, service.store, service.challenges
      ensures Valid() && orphans == old(orphans) && log == old(log) + entries
      ensures LogoutDialogue(old(state.token), old(inputs), inputs, entries, err)
      ensures if err == Nil then Here().SignedOut() else unchanged(state)
      ensures err == Nil || err == Killed || (err.Refused? && LosesTrack(service.cfg, log[|log| - 1], old(CurrentHash())))
    {
      hide EnvOK, Serve, Machine.Run, Legal, Sound, After, Answers, Vetted, StepsOK, AfterSteps, Explained, OneLive;
      var token := state.token;
      ghost var x;
      var answer;
      entries := [];
      answer, err, x := Ask(CLogout(token));
      if err == Killed {
        return;
      }
      entries := [Asked(CLogout(token), answer, x.env)];
      LogoutEndsSession(service.cfg, x.served, token, x.env);
      if answer != Done {
        return Refused(answer), entries;
      }
      Forget(false);
    }

    /** Leaves no session behind, but one that a storage fault keeps it from ending. */
    method Shutdown() returns (err: Error)
      requires Valid()
      modifies `beats, `issued, `orphans, `log, `history, `own,
               state, service, service.store, service.challenges
      ensures Valid() && (err == Nil || err == Killed)
      ensures err == Nil ==> !state.IsAuthenticated()
      ensures if !old(state.IsAuthenticated()) then log == old(log) && err == Nil
              else if err == Killed then log == old(log)
              else |log| == |old(log)| + 1 && old(log) <= log && Asks(log, |old(log)|, CLogout(old(state.token)))
    {
      hide EnvOK, Serve, Machine.Run, Legal, Sound, After, Answers, Vetted, StepsOK, AfterSteps, Explained, OneLive;
      if !state.IsAuthenticated() {
        return Nil;
      }
      ghost var asked;
      err, asked := Logout();
      if err.Refused? {
        Forget(true);
        err := Nil;
      }
    }

    /** Resolves the cached session; a dead one signs the shell out on the spot, and so does a storage fault. */
    method Revalidate() returns (ok: bool, err: Error)
      requires Valid() && state.IsAuthenticated()
      modifies `inputs, `beats, `cancelled, `issued, `orphans, `log, `history, `own,
               state, service, service.store, service.challenges
      ensures Valid() && Revalidated(old(Here()), Here(), ok, err)
      ensures ok <==> err == Nil && state.IsAuthenticated()
      ensures ok ==> Vetted(log, |log|, state.token)
    {
      hide EnvOK, Serve, Machine.Run, Legal, Sound, After, Answers, StepsOK, AfterSteps, Explained, OneLive;
      var token := state.token;
      ghost var x;
      var answer;
      answer, err, x := Ask(CResolve(token));
      if err == Killed {
        return false, Killed;
      }
      if answer.SessionLive? {
        Refresh(answer.session, answer.user);
        return true, Nil;
      }
      ExpiredIsOver(service.cfg, x.served, token, x.env);
      Forget(!answer.SessionExpired?);
      return false, Nil;
    }

    method Refresh(session: Session, user: User)
      requires Valid() && state.IsAuthenticated()
      modifies state
      ensures Valid() && state.IsAuthenticated() && state.token == old(state.token)
      ensures state.session == Some(session) && state.user == Some(user)
    {
      hide OneLive, Explained, AllVetted, Sound, StepsOK, AfterSteps;
      state.Refresh(session, user);
    }

    // ----- Commands of a signed-in user -----

    /** Looks at the session once more; whatever goes wrong, the shell stays as it is. */
    method RefreshUser() returns (err: Error, ghost entries: seq<Entry>)
      requires Valid()
      modifies `inputs, `beats, `cancelled, `issued, `orphans, `log, `history, `own,
               state, service, service.store, service.challenges
      ensures Valid() && inputs == old(inputs) && (err == Nil || err == Killed)
      ensures log == old(log) + entries && old(Here()).Refreshed(Here(), entries)
      ensures if old(state.IsAuthenticated()) && err == Nil
              then |entries| == 1 && Asks(entries, 0, CResolve(old(state.token)))
              else entries == []
    {
      hide Valid, Serve, Sound, EnvOK, OneLive, After, Exchanged, View.Precedes;
      entries := [];
      if !state.IsAuthenticated() {
        return Nil, [];
      }
      var answer, lost, x := Ask(CResolve(state.token));
      if lost == Nil {
        entries := [Asked(CResolve(state.token), answer, x.env)];
      }
      if lost == Nil && answer.SessionLive? {
        Refresh(answer.session, answer.user);
      }
      return lost, entries;
    }

    /** Throws the pending enrollment away. */
    method Cancel(userID: int) returns (err: Error, ghost entries: seq<Entry>)
      requires Valid()
      modifies `inputs, `beats, `cancelled, `issued, `orphans, `log, `history, `own,
               state, service, service.store, service.challenges
      ensures Valid() && inputs == old(inputs) && log == old(log) + entries && unchanged(state)
      ensures if entries == [] then err == Killed
              else
                && |entries| == 1 && Asks(entries, 0, CCancel(userID))
                && err == if entries[0].response == Done then Nil else Refused(entries[0].response)
    {
      hide Valid, Serve, Sound, EnvOK, OneLive, After, Exchanged, View.Precedes;
      entries := [];
      var answer, lost, x := Ask(CCancel(userID));
      if lost == Killed {
        return Killed, entries;
      }
      entries := [Asked(CCancel(userID), answer, x.env)];
      return if answer == Done then Nil else Refused(answer), entries;
    }

    /** One code, asked of the service: again if it was rejected; if it was accepted, a look at the session. */
    method TryCode(c: Call, ghost flow: Flow) returns (again: bool, err: Error, ghost entries: seq<Entry>)
      requires Valid() && state.IsAuthenticated() && !flow.SignInCode? && flow.token == state.token && !c.CResolve?
      modifies `inputs, `beats, `cancelled, `issued, `orphans, `log, `history, `own,
               state, service, service.store, service.challenges
      ensures Valid() && inputs == old(inputs) && log == old(log) + entries && old(Here()).Refreshed(Here(), entries)
      ensures again ==> |entries| == 1 && Asks(entries, 0, c) && RejectedCode(flow, entries[0].response) && unchanged(state)
      ensures !again ==>
        if entries == [] then err == Killed
        else Asks(entries, 0, c) && !RejectedCode(flow, entries[0].response) && Judged(flow, entries, err)
    {
      hide Valid, Serve, Sound, EnvOK, OneLive, After, Exchanged, View.Precedes;
      var answer, lost, x := Ask(c);
      if lost == Killed {
        return false, Killed, [];
      }
      entries := [Asked(c, answer, x.env)];
      if answer != Done {
        return answer == InvalidTOTPCode, Refused(answer), entries;
      }
      ghost var look;
      err, look := RefreshUser();
      return false, err, entries + look;
    }

    /** One prompt of an enrollment. */
    method ConfirmOnce(userID: int, ghost flow: Flow) returns (again: bool, err: Error, ghost entries: seq<Entry>)
      requires Valid() && state.IsAuthenticated() && flow == Enrollment(userID, state.SessionID(), state.token)
      modifies `inputs, `beats, `cancelled, `issued, `orphans, `log, `history, `own,
               state, service, service.store, service.challenges
      ensures Valid() && |inputs| <= |old(inputs)| && log == old(log) + entries && old(Here()).Refreshed(Here(), entries)
      ensures again ==>
        && old(inputs) != [] && inputs == old(inputs)[1..] && |entries| == 1 && unchanged(state)
        && Rejection(words, flow, old(inputs)[0], entries[0])
      ensures !again ==> Ends(words, flow, old(inputs), inputs, entries, true, err)
    {
      hide Valid, Judged;
      var code, unread := ReadLine();
      if unread != Nil && unread != Aborted {
        return false, unread, [];
      }
      var blank := Blank(code);
      if unread == Aborted || blank {
        err, entries := Cancel(userID);
        return false, if unread == Aborted && err != Killed then Aborted else err, entries;
      }
      again, err, entries := TryCode(CConfirm(userID, code, state.SessionID()), flow);
    }

    /** At most three codes, and then the enrollment is thrown away. */
    method PromptEnrollment(userID: int) returns (err: Error, ghost entries: seq<Entry>)
      requires Valid() && state.IsAuthenticated()
      modifies `inputs, `beats, `cancelled, `issued, `orphans, `log, `history, `own,
               state, service, service.store, service.challenges
      ensures Valid() && |inputs| <= |old(inputs)| && log == old(log) + entries && old(Here()).Refreshed(Here(), entries)
      ensures CodesAsked(words, old(Enrollment(userID, state.SessionID(), state.token)), old(inputs), inputs, entries, err)
    {
      hide Valid, Ends, Rejection, AllRejected, CodesAsked, Judged, Exchanged, View.Precedes, OneLive;
      ghost var flow, rejected: seq<Entry> := Enrollment(userID, state.SessionID(), state.token), [];
      NoneRejected(words, flow, inputs);
      var attempt := 1;
      while attempt <= MAX_CODE_PROMPTS
        invariant Valid() && unchanged(state)
        invariant 1 <= attempt <= MAX_CODE_PROMPTS + 1 && |rejected| == attempt - 1
        invariant log == old(log) + rejected && |rejected| <= |old(inputs)| && inputs == old(inputs)[|rejected|..]
        invariant AllRejected(words, flow, old(inputs), rejected)
      {
        var again;
        again, err, entries := ConfirmOnce(userID, flow);
        if !again {
          PromptEnds(words, flow, old(inputs), inputs, rejected, entries, err);
          RejectedAreCodes(words, flow, old(inputs), rejected);
          RefreshedAtTheEnd(old(Here()), Here(), rejected, entries);
          entries := rejected + entries;
          return;
        }
        OneMoreRejected(words, flow, old(inputs), rejected, entries[0]);
        assert entries == [entries[0]];
        rejected := rejected + entries;
        attempt := attempt + 1;
      }
      err, entries := Cancel(userID);
      CancelEnds(words, flow, inputs, entries, err);
      PromptEnds(words, flow, old(inputs), inputs, rejected, entries, err);
      RejectedAreCodes(words, flow, old(inputs), rejected);
      RefreshedAtTheEnd(old(Here()), Here(), rejected, entries);
      entries := rejected + entries;
    }

    method EnableTwoFactor() returns (err: Error, ghost entries: seq<Entry>)
      requires Valid() && state.IsAuthenticated()
      modifies `inputs, `beats, `cancelled, `issued, `orphans, `log, `history, `own,
               state, service, service.store, service.challenges
      ensures Valid() && |inputs| <= |old(inputs)| && log == old(log) + entries && old(Here()).Refreshed(Here(), entries)
      ensures EnrollmentDialogue(words, old(Enrollment(state.Owner().id, state.SessionID(), state.token)), old(inputs),
                                 inputs, entries, err)
    {
      hide Valid, CodesAsked, Exchanged, View.Precedes, OneLive;
      var userID := state.Owner().id;
      var begun, missed, x := Ask(CBegin(userID));
      if missed == Killed {
        return Killed, [];
      }
      ghost var begin := Asked(CBegin(userID), begun, x.env);
      if !begun.Enrolled? {
        return Refused(begun), [begin];
      }
      err, entries := PromptEnrollment(userID);
      RefreshedAtTheEnd(old(Here()), Here(), [begin], entries);
      entries := [begin] + entries;
    }

    /** One prompt of a removal. */
    method DisableOnce(userID: int, ghost flow: Flow) returns (again: bool, err: Error, ghost entries: seq<Entry>)
      requires Valid() && state.IsAuthenticated() && flow == Disablement(userID, state.SessionID(), state.token)
      modifies `inputs, `beats, `cancelled, `issued, `orphans, `log, `history, `own,
               state, service, service.store, service.challenges
      ensures Valid() && |inputs| <= |old(inputs)| && log == old(log) + entries && old(Here()).Refreshed(Here(), entries)
      ensures again ==>
        && old(inputs) != [] && inputs == old(inputs)[1..] && |entries| == 1 && unchanged(state)
        && Rejection(words, flow, old(inputs)[0], entries[0])
      ensures !again ==> Ends(words, flow, old(inputs), inputs, entries, true, err)
    {
      hide Valid, Judged;
      var code, unread := ReadLine();
      var blank := Blank(code);
      if unread != Nil || blank {
        return false, unread, [];
      }
      again, err, entries := TryCode(CDisable(userID, code, state.SessionID()), flow);
    }

    /** At most three codes. */
    method DisableTwoFactor() returns (err: Error, ghost entries: seq<Entry>)
      requires Valid() && state.IsAuthenticated()
      modifies `inputs, `beats, `cancelled, `issued, `orphans, `log, `history, `own,
               state, service, service.store, service.challenges
      ensures Valid() && |inputs| <= |old(inputs)| && log == old(log) + entries && old(Here()).Refreshed(Here(), entries)
      ensures DisablementDialogue(words, old(Disablement(state.Owner().id, state.SessionID(), state.token)),
                                  old(state.Owner().totpEnabled), old(inputs), inputs, entries, err)
    {
      hide Valid, AllRejected, CodesAsked, Judged, Rejection, View.Precedes, Exchanged, OneLive;
      var user := state.Owner();
      if !user.totpEnabled {
        return Refused(NotEnabled), [];
      }
      ghost var flow, rejected: seq<Entry> := Disablement(user.id, state.SessionID(), state.token), [];
      NoneRejected(words, flow, inputs);
      var attempt := 1;
      while attempt <= MAX_CODE_PROMPTS
        invariant Valid() && unchanged(state)
        invariant 1 <= attempt <= MAX_CODE_PROMPTS + 1 && |rejected| == attempt - 1
        invariant log == old(log) + rejected && |rejected| <= |old(inputs)| && inputs == old(inputs)[|rejected|..]
        invariant AllRejected(words, flow, old(inputs), rejected)
      {
        var again;
        again, err, entries := DisableOnce(user.id, flow);
        if !again {
          PromptEnds(words, flow, old(inputs), inputs, rejected, entries, err);
          RejectedAreCodes(words, flow, old(inputs), rejected);
          RefreshedAtTheEnd(old(Here()), Here(), rejected, entries);
          entries := rejected + entries;
          return;
        }
        OneMoreRejected(words, flow, old(inputs), rejected, entries[0]);
        assert entries == [entries[0]];
        rejected := rejected + entries;
        attempt := attempt + 1;
      }
      PromptEnds(words, flow, old(inputs), inputs, rejected, [], Nil);
      RejectedAreCodes(words, flow, old(inputs), rejected);
      RefreshedAtTheEnd(old(Here()), Here(), rejected, []);
      return Nil, rejected + [];
    }

    // ----- The loop -----

    method Note(command: Command)
      requires Valid()
      requires command.scope == ScopeAuthenticated ==> Vetted(log, |log|, state.token)
      modifies `log, `ran
      ensures Valid() && log == old(log) + [Ran(command, state.token)] && ran == old(ran) + [command]
    {
      hide OneLive, Sound, Serve, EnvOK, After, AllVetted, Vetted, Explained, StepsOK, AfterSteps;
      StaysVetted(log, Ran(command, state.token));
      StaysExplained(service.cfg, log, Ran(command, state.token), orphans);
      log, ran := log + [Ran(command, state.token)], ran + [command];
    }

    /** Runs a command; one that needs a session runs right after the session it runs with was resolved. */
    method Execute(command: Command, args: seq<string>) returns (err: Error)
      requires Valid() && InScope(command.scope, state.IsAuthenticated()) && command.scope == ScopeOf(command.action)
      requires command.scope == ScopeAuthenticated ==> Vetted(log, |log|, state.token)
      modifies this, state, service, service.store, service.challenges
      ensures Valid() && |inputs| <= |old(inputs)| && ran == old(ran) + [command]
      ensures quit == (old(quit) || command.action == DoExit)
      ensures Executed(words, clientInfo, command, args, old(Here()), Here(), err)
    {
      hide Valid, Serve, Sound, EnvOK, OneLive, After, Vetted, LoginDialogue, RegisterDialogue, EnrollmentDialogue,
           DisablementDialogue, LogoutDialogue, LosesTrack;
      ghost var entries: seq<Entry> := [];
      Note(command);
      err := Nil;
      match command.action {
        case DoRegister => err, entries := RegisterAccount(args);
        case DoLogin => err, entries := Login(args);
        case DoWhoAmI =>
        case DoEnable => err, entries := EnableTwoFactor();
        case DoDisable => err, entries := DisableTwoFactor();
        case DoActivity =>
        case DoLogout => err, entries := Logout();
        case DoHelp =>
        case DoExit => quit := true;
      }
      assert log == old(log) + [Ran(command, old(state.token))] + entries;
    }

    /** The command that a line names, and the words after it. */
    ghost function Named(fields: seq<string>): Option<Command>
      requires fields != []
      reads registry
    {
      var name := registry.lower(bytes(fields[0]));
      if name in registry.index then Some(registry.index[name]) else None
    }

    lemma KnowsCommands()
      requires Valid()
      ensures registry.Valid()
      ensures forall n | n in registry.index :: registry.index[n].scope == ScopeOf(registry.index[n].action)
    {
      hide OneLive, AllVetted, Explained, View.Traced;
    }

    method Dispatch(fields: seq<string>) returns (err: Error, ghost course: Course)
      requires Valid() && fields != []
      modifies this, state, service, service.store, service.challenges
      ensures Valid() && |inputs| <= |old(inputs)|
      ensures Dispatched(words, clientInfo, Named(fields), fields[1..], old(Here()), course, Here(), err)
      ensures course.ran ==> Named(fields).Some?
      ensures ran == if course.ran then old(ran) + [Named(fields).value] else old(ran)
      ensures quit == (old(quit) || (course.ran && (Named(fields).value.action == DoExit || err == Eof)))
    {
      hide Valid, Finds, NoRepeats, ScopeOf, Vetted, Executed;
      KnowsCommands();
      var found := registry.Lookup(bytes(fields[0]));
      course := Course(Here(), false, false);
      if found.None? {
        return Nil, course;
      }
      var command, live := found.value, false;
      if state.IsAuthenticated() {
        live, err := Revalidate();
        course := Course(Here(), live, false);
        if err == Killed || (!live && command.scope == ScopeAuthenticated) {
          return;
        }
      }
      if !InScope(command.scope, state.IsAuthenticated()) {
        return Nil, course;
      }
      course := Course(Here(), live, true);
      err := Execute(command, fields[1..]);
      if err == Eof {
        quit := true;
      }
    }

    // ----- Runs -----

    /** The line was read after idle inputs only, and carried out. */
    ghost predicate TurnOK(t: Turn)
      reads registry
    {
      && Waits(words, t.from, t.before.(inputs := [Line(t.line)] + t.before.inputs))
      && words(t.line) != []
      && Dispatched(words, clientInfo, Named(words(t.line)), words(t.line)[1..], t.before, t.course, t.after, t.err)
    }

    /** The shell stops after this turn: by exit, by the end of the input, or because the process is gone. */
    ghost predicate Quits(t: Turn)
      requires words(t.line) != []
      reads registry
    {
      var found := Named(words(t.line));
      t.err == Killed || (t.course.ran && (t.err == Eof || (found.Some? && found.value.action == DoExit)))
    }

    /** The turns lead from one point to the other, and only the last one may be one that the shell stops after. */
    ghost predicate Took(turns: seq<Turn>, begin: Desk, end: Desk)
      reads registry
      decreases |turns|
    {
      if turns == [] then end == begin
      else
        var init, last := turns[..|turns| - 1], turns[|turns| - 1];
        && TurnOK(last) && last.after == end && Took(init, begin, last.from)
        && (init != [] ==> words(init[|init| - 1].line) != [] && !Quits(init[|init| - 1]))
    }

    ghost predicate Stopped(turns: seq<Turn>)
      reads registry
    {
      turns != [] && words(turns[|turns| - 1].line) != [] && Quits(turns[|turns| - 1])
    }

    lemma OneMoreTurn(turns: seq<Turn>, begin: Desk, t: Turn)
      requires Took(turns, begin, t.from) && TurnOK(t) && !Stopped(turns)
      requires turns != [] ==> words(turns[|turns| - 1].line) != []
      ensures Took(turns + [t], begin, t.after)
    {
      hide TurnOK, Quits;
      assert (turns + [t])[..|turns|] == turns;
    }

    /** One line carried out, and the shell waits for the next. */
    method TakeLine(line: string, ghost from: Desk) returns (err: Error, ghost t: Turn)
      requires Valid() && words(line) != [] && Waits(words, from, Here().(inputs := [Line(line)] + inputs))
      modifies this, state, service, service.store, service.challenges
      ensures Valid() && |inputs| <= |old(inputs)|
      ensures t.line == line && t.from == from && t.after == Here() && t.err == err && TurnOK(t)
      ensures err != Killed ==> quit == (old(quit) || Quits(t))
      ensures err == Killed ==> Quits(t)
    {
      hide Valid, Dispatched, Waits;
      ghost var before := Here();
      ghost var course;
      err, course := Dispatch(words(line));
      t := Turn(line, from, before, course, Here(), err);
    }

    lemma NoTurn(begin: Desk)
      ensures Took([], begin, begin) && !Stopped([])
    {
    }

    /** A shell that is signed out holds no active session. */
    lemma NoneIsLive()
      requires Valid() && !state.IsAuthenticated()
      ensures forall h | h in issued :: !Answers(service.Snapshot(), h, service.clock)
    {
      hide Explained, AllVetted, View.Traced;
    }

    /**
     * The read, dispatch, print loop: the lines that are typed are carried out one after the other, until the shell is
     * told to stop. At every point at most one session that the shell was given is active, orphans apart; ended by
     * exit, end of input or cancellation, none is.
     */
    method Run() returns (err: Error, ghost turns: seq<Turn>, ghost from: Desk, ghost at: Desk)
      requires Valid()
      modifies this, state, service, service.store, service.challenges
      ensures Valid()
      ensures err == Nil || err == Killed || err == Unreadable
      ensures err == Nil ==> forall h | h in issued :: !Answers(service.Snapshot(), h, service.clock)
      ensures Took(turns, old(Here()), from) && Waits(words, from, at)
      ensures if old(quit) || Stopped(turns) then at == from
              else cancelled || at.inputs == [] || Closes(at.inputs[0])
      ensures err == Unreadable ==> at.inputs != [] && at.inputs[0].ReadFailed?
      ensures at.log <= log && |log| <= |at.log| + 1
      ensures err == Nil && at.SignedIn() ==> Asks(log, |at.log|, CLogout(at.token))
    {
      hide Valid, TurnOK, Quits, Took, Waits;
      turns, from, at := [], Here(), Here();
      NoTurn(from);
      NoWait(words, from);
      while !quit
        invariant Valid() && at == Here()
        invariant Took(turns, old(Here()), from) && Waits(words, from, at)
        invariant quit ==> (old(quit) || Stopped(turns)) && at == from
        invariant !quit ==> !Stopped(turns) && !old(quit)
        invariant turns != [] ==> words(turns[|turns| - 1].line) != []
        decreases |inputs|
      {
        if cancelled {
          break;
        }
        var line;
        line, err := ReadLine();
        if err == Killed {
          return;
        }
        if err == Eof || (err == Unreadable && cancelled) {
          break;
        }
        if err == Unreadable {
          return;
        }
        if err == Nil && words(line) != [] {
          assert Here().(inputs := [Line(line)] + inputs) == at;
          ghost var t;
          err, t := TakeLine(line, from);
          OneMoreTurn(turns, old(Here()), t);
          turns, from, at := turns + [t], t.after, t.after;
          NoWait(words, from);
          if err == Killed {
            return;
          }
        } else {
          OneMoreIdle(words, from, at);
          at := Here();
        }
      }
      err := Shutdown();
      if err == Nil {
        NoneIsLive();
      }
    }
  }
}
