/**
 * internal/auth/service.go: the service over the two stores, call by call. Every method does what module Calls
 * says the call does, so every theorem about runs of calls is a theorem about this class.
 */
module Service {
  import opened Domain
  import opened Lockout
  import opened Database
  import opened Machine
  import opened Invariants
  import opened Calls
  import opened Refinement
  import opened GuessRate
  import opened Activity
  import opened Challenges
  import opened Store
  import opened Sessions

  datatype FailureOutcome = FailureOutcome(locked: bool, lockedUntil: Time, remaining: int)

  /** What the repositories ask for, from a sound state. */
  lemma RowsAreKeyed(cfg: Config, w: World)
    requires Sound(cfg, w)
    ensures UniqueNames(w.db.users) && UniqueHashes(w.db.sessions) && Ordered(w.db.events) && DistinctIDs(w.db.events)
    ensures forall id | id in w.db.users :: w.db.users[id].id == id
    ensures forall id | id in w.db.sessions :: w.db.sessions[id].id == id
  {
    forall id | id in w.db.users ensures w.db.users[id].id == id {
      assert UserRow(cfg, w.db, id);
    }
    forall id | id in w.db.sessions ensures w.db.sessions[id].id == id {
      assert SessionRow(cfg, w, id);
    }
  }

  lemma LastEvent(cfg: Config, w: World)
    requires Sound(cfg, w)
    ensures LogBefore(w, w.clock)
  {
  }

  lemma ServedStateIsSound(cfg: Config, w: World, c: Call, env: Env)
    requires cfg.Valid() && Sound(cfg, w) && EnvOK(cfg, w, c, env)
    ensures Legal(cfg, w, Serve(cfg, w, c, env).effects) && Sound(cfg, Run(cfg, w, Serve(cfg, w, c, env).effects))
  {
    CallLegal(cfg, w, c, env);
    SoundAlong(cfg, w, Serve(cfg, w, c, env).effects);
  }

  lemma Nothing(cfg: Config, w: World)
    ensures Legal(cfg, w, []) && Run(cfg, w, []) == w
  {
  }

  lemma Reading(cfg: Config, w: World, at: Time)
    requires w.clock <= at
    ensures Legal(cfg, w, [Tick(at)]) && Run(cfg, w, [Tick(at)]) == w.(clock := at)
  {
    One(cfg, w, Tick(at));
  }

  lemma ReadingThen(cfg: Config, w: World, at: Time, e: Effect)
    requires w.clock <= at && Enabled(cfg, w.(clock := at), e)
    ensures Legal(cfg, w, [Tick(at), e]) && Run(cfg, w, [Tick(at), e]) == Apply(cfg, w.(clock := at), e)
  {
    Two(cfg, w, Tick(at), e);
  }

  lemma ReadingThenClear(cfg: Config, w: World, at: Time, id: int)
    requires w.clock <= at && id in w.db.users && LockExpired(w.db.users[id], at)
    ensures Legal(cfg, w, [Tick(at), ClearLock(id)])
    ensures Run(cfg, w, [Tick(at), ClearLock(id)]) == w.(clock := at, db := w.db.PutUser(Unlocked(w.db.users[id])))
  {
    ReadingThen(cfg, w, at, ClearLock(id));
  }

  lemma ReadingThenIssue(cfg: Config, w: World, at: Time, id: int, cid: string, password: string, startedAt: Time)
    requires w.clock <= at && startedAt <= at && cid !in w.spent
    requires PasswordChecked(cfg, w, id, password, Match) && w.db.users[id].totpEnabled
    ensures
      var tr := [Tick(at), IssueChallenge(id, cid, password, startedAt)];
      var c := Challenge(cid, id, w.db.users[id].username, 0, startedAt + cfg.challengeTTL);
      Legal(cfg, w, tr) && Run(cfg, w, tr) ==
        w.(clock := at, challenges := Evict(w.challenges, at)[cid := c], spent := w.spent + {cid})
  {
    ReadingThen(cfg, w, at, IssueChallenge(id, cid, password, startedAt));
  }

  lemma ReadingThenDrop(cfg: Config, w: World, at: Time, cid: string)
    requires w.clock <= at
    ensures Legal(cfg, w, [Tick(at), DropChallenge(cid)])
    ensures Run(cfg, w, [Tick(at), DropChallenge(cid)]) == w.(clock := at, challenges := w.challenges - {cid})
  {
    ReadingThen(cfg, w, at, DropChallenge(cid));
  }

  lemma TwoReadings(cfg: Config, w: World, first: Time, second: Time)
    requires w.clock <= first <= second
    ensures Legal(cfg, w, [Tick(first), Tick(second)])
    ensures Run(cfg, w, [Tick(first), Tick(second)]) == w.(clock := second)
  {
    ReadingThen(cfg, w, first, Tick(second));
  }

  lemma Dropped(cfg: Config, w: World, cid: string)
    ensures Legal(cfg, w, [DropChallenge(cid)])
    ensures Run(cfg, w, [DropChallenge(cid)]) == w.(challenges := w.challenges - {cid})
  {
    One(cfg, w, DropChallenge(cid));
  }

  lemma DroppedAfter(cfg: Config, w: World, tr: seq<Effect>, cid: string)
    requires Legal(cfg, w, tr)
    ensures Legal(cfg, w, tr + [DropChallenge(cid)])
    ensures
      var w' := Run(cfg, w, tr);
      Run(cfg, w, tr + [DropChallenge(cid)]) == w'.(challenges := w'.challenges - {cid})
  {
    Extend(cfg, w, tr, DropChallenge(cid));
  }

  lemma ReadingThenRetry(cfg: Config, w: World, at: Time, cid: string)
    requires w.clock <= at && cid in w.challenges
    ensures
      var c := w.challenges[cid];
      Legal(cfg, w, [Tick(at), RetryChallenge(cid)]) && Run(cfg, w, [Tick(at), RetryChallenge(cid)]) ==
        w.(clock := at, challenges := Evict(w.challenges, at)[cid := c.(attempts := c.attempts + 1)])
  {
    ReadingThen(cfg, w, at, RetryChallenge(cid));
  }

  lemma Began(cfg: Config, w: World, userID: int, env: Env)
    requires userID in w.db.users
    ensures
      var o, u := BeginCall(w, userID, env), w.db.users[userID];
      Legal(cfg, w, o.effects) && Run(cfg, w, o.effects) ==
        if o.effects == [] then w
        else w.(db := w.db.PutUser(u.(totpSecret := env.sealedSecret, totpEnabled := false, totpConfirmedAt := None)))
  {
    if BeginCall(w, userID, env).effects != [] {
      One(cfg, w, BeginEnrollment(userID, env.sealedSecret));
    }
  }

  lemma Cancelled(cfg: Config, w: World, userID: int, env: Env)
    requires userID in w.db.users
    ensures
      var o, u := CancelCall(w, userID, env), w.db.users[userID];
      Legal(cfg, w, o.effects) && Run(cfg, w, o.effects) ==
        if o.effects == [] then w else w.(db := w.db.PutUser(u.(totpSecret := "")))
  {
    if CancelCall(w, userID, env).effects != [] {
      One(cfg, w, CancelEnrollment(userID));
    }
  }

  lemma Registered(cfg: Config, w: World, at: Time, name: string, hash: string)
    requires w.clock <= at && w.db.UserNamed(name).None?
    ensures Legal(cfg, w, [Tick(at), Register(name, hash)])
    ensures Run(cfg, w, [Tick(at), Register(name, hash)]) == w.(clock := at, db :=
      w.db.CreateUser(name, hash, at).Append(Some(w.db.nextUserID), name, EvRegistered, NoDetail, at))
  {
    ReadingThen(cfg, w, at, Register(name, hash));
  }

  lemma Purged(cfg: Config, w: World, at: Time)
    requires w.clock <= at
    ensures Legal(cfg, w, [Tick(at), Purge])
    ensures Run(cfg, w, [Tick(at), Purge]) == w.(clock := at, db := w.db.DeleteExpired(at))
  {
    ReadingThen(cfg, w, at, Purge);
  }

  class Service {
    const cfg: Config
    const store: Store
    const challenges: MemoryChallengeStore
    const sessions: SessionManager

    // The latest clock reading and the random draws so far.
    var clock: Time
    var spent: set<string>

    function Snapshot(): World
      reads this, store, challenges
    {
      World(store.Contents(), challenges.items, clock, spent)
    }

    ghost predicate Wired()
      reads store
    {
      cfg.Valid() && sessions.cfg == cfg && sessions.repo == store && !store.inTx
    }

    ghost predicate Valid()
      reads this, store, challenges
    {
      Wired() && Sound(cfg, Snapshot())
    }

    /** The call was served from the given state as specified: the state it left and the answer it gave. */
    ghost predicate Served(before: World, c: Call, env: Env, response: Response)
      reads this, store, challenges
    {
      var o := Serve(cfg, before, c, env);
      Valid() && Legal(cfg, before, o.effects) && Snapshot() == Run(cfg, before, o.effects) && response == o.response
    }

    constructor (cfg: Config, t0: Time)
      requires cfg.Valid()
      ensures Valid() && this.cfg == cfg && Snapshot() == Start(t0)
      ensures fresh(store) && fresh(challenges)
    {
      this.cfg := cfg;
      var s := new Store();
      store := s;
      challenges := new MemoryChallengeStore();
      sessions := new SessionManager(cfg, s);
      clock, spent := t0, {};
      new;
      Reachable(cfg, t0, []);
    }

    // ----- Shared steps -----

    method PersistUser(user: User, fails: bool) returns (ok: bool)
      requires user.id in store.users
      modifies store`users
      ensures ok == !fails
      ensures store.Contents() == if ok then old(store.Contents()).PutUser(user) else old(store.Contents())
    {
      if fails {
        return false;
      }
      ok := store.UpdateUser(user);
    }

    method RecordEvent(owner: Option<int>, username: string, kind: EventKind, detail: Detail, at: Time, env: Env)
      modifies store`events, store`nextEventID
      ensures Snapshot() == Audited(old(Snapshot()), env, owner, username, kind, detail, at)
    {
      if !env.auditLost {
        store.Append(owner, username, kind, detail, at);
      }
    }

    /** The body of recordFailure's transaction. */
    method WriteFailure(user: UserRecord, kind: EventKind, detail: Detail, locked: bool, now: Time, env: Env)
      returns (ok: bool)
      requires sessions.repo == store
      requires user.row.id in store.users && (locked ==> user.row.lockedUntil.Some?)
      modifies store
      ensures store.inTx == old(store.inTx) && store.undo == old(store.undo)
      ensures ok == !env.fault.OnTx?
      ensures
        var u := user.row;
        var counted := old(store.Contents()).PutUser(u).Append(Some(u.id), u.username, kind, detail, now);
        && (ok && !locked ==> store.Contents() == counted)
        && (ok && locked ==>
             store.Contents() == counted.RevokeMatching(u.id, 0, env.at.inner).Append(
               Some(u.id), u.username, EvAccountLocked, LockedUntilDetail(u.lockedUntil.value), now))
    {
      ok := PersistUser(user.row, env.fault == OnTx(1));
      if !ok {
        return;
      }
      if env.fault == OnTx(2) {
        return false;
      }
      store.Append(Some(user.row.id), user.row.username, kind, detail, now);
      if !locked {
        return !env.fault.OnTx?;
      }
      if env.fault == OnTx(3) {
        return false;
      }
      var _ := sessions.RevokeOthers(user.row.id, 0, env.at.inner);
      store.Append(Some(user.row.id), user.row.username, EvAccountLocked,
                   LockedUntilDetail(user.row.lockedUntil.value), now);
      return !env.fault.OnTx?;
    }

    /** Persists a failed attempt, locking the account and revoking its sessions when the policy says so. */
    method RecordFailure(user: UserRecord, kind: EventKind, detail: Detail, ghost cause: Cause, env: Env)
      returns (failed: bool, outcome: FailureOutcome)
      requires Wired()
      requires clock <= env.at.finish <= env.at.inner
      requires user.row.id in store.users && store.users[user.row.id] == user.row
      requires Caused(cfg, Snapshot(), user.row.id, cause)
      requires kind == CauseKind(cause) && detail == CauseDetail(Snapshot(), cause)
      modifies user, `clock, store
      ensures Wired()
      ensures
        var before, u := old(Snapshot()), old(user.row);
        && Legal(cfg, before, CountedFailure(cfg, u, cause, env).effects)
        && Snapshot() == Run(cfg, before, CountedFailure(cfg, u, cause, env).effects)
        && failed == env.fault.OnTx?
        && outcome.locked == (!failed && Trips(cfg, u))
        && (outcome.locked ==> outcome.lockedUntil == env.at.finish + cfg.lockDuration)
        && (!failed && !outcome.locked ==> outcome.remaining == Remaining(cfg, AfterFailure(cfg, u, env.at.finish)))
    {
      hide Apply, Enabled, Run, Legal, Caused;
      CountedFailureLegal(cfg, Snapshot(), user.row, cause, env);
      var now := env.at.finish;
      clock := now;
      var locked := RegisterFailure(cfg, user, now);
      var owner := store.Enter();
      var ok := env.fault != OnTx(0);
      if ok {
        ok := WriteFailure(user, kind, detail, locked, now, env);
      }
      store.Leave(owner, ok);
      if !ok {
        return true, FailureOutcome(false, 0, 0);
      }
      if locked {
        clock := env.at.inner;
        return false, FailureOutcome(true, user.row.lockedUntil.value, 0);
      }
      var left := cfg.maxAttempts - user.row.failedLoginAttempts;
      return false, FailureOutcome(false, 0, if left < 0 then 0 else left);
    }

    /** The body of completeLogin's transaction. */
    method WriteLogin(user: UserRecord, info: string, now: Time, env: Env) returns (issued: Option<Session>)
      requires sessions.repo == store && sessions.cfg == cfg
      requires user.row.id in store.users
      modifies store
      ensures store.inTx == old(store.inTx) && store.undo == old(store.undo)
      ensures issued.None? <==> env.fault.OnTx? || env.fault == OnRandom
      ensures
        var u, s := user.row, NewSession(cfg, user.row.id, cfg.hashToken(env.token), env.at.inner, info);
        issued.Some? ==>
          && issued.value == s.(id := old(store.nextSessionID))
          && store.Contents() == old(store.Contents()).PutUser(u).CreateSession(s).Append(
               Some(u.id), u.username, EvLoginSucceeded, Client(info), now)
    {
      var ok := PersistUser(user.row, env.fault == OnTx(1));
      if !ok {
        return None;
      }
      issued := sessions.Issue(user.row.id, info, env);
      if issued.None? || env.fault == OnTx(3) {
        return None;
      }
      store.Append(Some(user.row.id), user.row.username, EvLoginSucceeded, Client(info), now);
      return if env.fault.OnTx? then None else issued;
    }

    /** Signs the user in; a code login has already deleted its challenge from the state it was checked in. */
    method CompleteLogin(user: UserRecord, ghost checked: World, ghost w0: World, ghost proof: Proof,
                         info: string, env: Env) returns (response: Response)
      requires Wired()
      requires clock <= env.at.finish <= env.at.inner
      requires user.row.id in store.users && store.users[user.row.id] == user.row
      requires cfg.hashToken(env.token) !in spent && w0.db.nextSessionID == store.nextSessionID
      requires Earned(cfg, checked, user.row.id, proof)
      requires Snapshot() ==
        checked.(challenges := if proof.ByCode? then checked.challenges - {proof.id} else checked.challenges)
      modifies user, `clock, `spent, store
      ensures Wired()
      ensures
        var o := FinishLogin(cfg, w0, old(user.row), proof, info, env);
        && Legal(cfg, checked, o.effects) && Snapshot() == Run(cfg, checked, o.effects) && response == o.response
    {
      hide Apply, Enabled, Run, Legal, Earned;
      FinishLoginLegal(cfg, w0, checked, user.row, proof, info, env);
      var now, previous := env.at.finish, user.row.lastLoginAt;
      clock := now;
      var _ := Reset(user);
      user.row := user.row.(lastLoginAt := Some(now));
      var owner := store.Enter();
      var issued := None;
      if env.fault != OnTx(0) {
        issued := WriteLogin(user, info, now, env);
      }
      store.Leave(owner, issued.Some?);
      if issued.None? {
        return Failed;
      }
      clock, spent := env.at.inner, spent + {cfg.hashToken(env.token)};
      return SignedIn(env.token, issued.value, user.row, previous);
    }

    // ----- Authenticate -----

    /** The end of Authenticate, once the password is accepted. */
    method AfterPassword(user: UserRecord, ghost w0: World, ghost password: string, info: string, env: Env)
      returns (response: Response)
      requires Wired()
      requires env.at.start <= clock <= env.at.save <= env.at.finish <= env.at.inner
      requires user.row.id in store.users && store.users[user.row.id] == user.row
      requires PasswordChecked(cfg, Snapshot(), user.row.id, password, Match)
      requires cfg.hashToken(env.token) !in spent && env.challengeID !in spent && LogBefore(Snapshot(), env.at.start)
      requires w0.db.nextSessionID == store.nextSessionID
      modifies user, `clock, `spent, store, challenges
      ensures Wired()
      ensures
        var before, o := old(Snapshot()), FactorStep(cfg, w0, old(user.row), password, info, env);
        && Legal(cfg, before, o.effects) && Snapshot() == Run(cfg, before, o.effects) && response == o.response
    {
      hide Run, Legal, Apply, Enabled;
      ghost var before := Snapshot();
      if !user.row.totpEnabled {
        response := CompleteLogin(user, before, w0, ByPassword(password), info, env);
        return;
      }
      Nothing(cfg, before);
      if env.fault == OnRandom {
        return Failed;
      }
      var now, u := env.at.start, user.row;
      challenges.Save(Challenge(env.challengeID, u.id, u.username, 0, now + cfg.challengeTTL), env.at.save);
      clock, spent := env.at.save, spent + {env.challengeID};
      ghost var issue := IssueChallenge(u.id, env.challengeID, password, now);
      ReadingThenIssue(cfg, before, env.at.save, u.id, env.challengeID, password, now);
      RecordEvent(Some(u.id), u.username, EvTOTPChallenged, NoDetail, now, env);
      AuditLegal(cfg, before, [Tick(env.at.save), issue], env, Some(u.id), u.username, EvTOTPChallenged, NoDetail, now);
      return CodeRequired(env.challengeID, u);
    }

    /** The password check of Authenticate, on an unlocked row. */
    method CheckPassword(user: UserRecord, ghost w0: World, password: string, info: string, env: Env)
      returns (response: Response)
      requires Wired()
      requires env.at.start <= clock <= env.at.save <= env.at.finish <= env.at.inner
      requires user.row.id in store.users && store.users[user.row.id] == user.row && user.row.lockedUntil.None?
      requires cfg.hashToken(env.token) !in spent && env.challengeID !in spent && LogBefore(Snapshot(), env.at.start)
      requires cfg.verify(env.newHash, password) == Match
      requires w0.db.nextSessionID == store.nextSessionID
      modifies user, `clock, `spent, store, challenges
      ensures Wired()
      ensures
        var before, o := old(Snapshot()), PasswordStep(cfg, w0, old(user.row), password, info, env);
        && Legal(cfg, before, o.effects) && Snapshot() == Run(cfg, before, o.effects) && response == o.response
    {
      hide Run, Legal, FactorStep;
      ghost var before := Snapshot();
      match cfg.verify(user.row.passwordHash, password) {
        case Broken =>
          Nothing(cfg, before);
          return Failed;
        case Mismatch =>
          var failed, outcome :=
            RecordFailure(user, EvLoginFailed, WrongPasswordDetail, WrongPassword(password), env);
          if failed {
            return Failed;
          }
          if outcome.locked {
            return AccountLocked(outcome.lockedUntil);
          }
          return BadCredentials(outcome.remaining);
        case Match =>
      }
      if cfg.needsRehash(user.row.passwordHash) && env.fault != OnHash {
        user.row := user.row.(passwordHash := env.newHash);
        var ok := PersistUser(user.row, env.fault == OnRehash);
        Nothing(cfg, before);
        if !ok {
          return Failed;
        }
        ghost var rehash, u := Rehash(user.row.id, env.newHash, password), user.row;
        One(cfg, before, rehash);
        response := AfterPassword(user, w0, password, info, env);
        Append(cfg, before, [rehash], FactorStep(cfg, w0, u, password, info, env).effects);
      } else {
        response := AfterPassword(user, w0, password, info, env);
      }
    }

    /** Authenticate, once the user is found. */
    method AuthenticateUser(user: UserRecord, ghost w: World, name: string, password: string, info: string, env: Env)
      returns (response: Response)
      requires Wired() && Snapshot() == w.(clock := env.at.start)
      requires w.clock <= env.at.start <= env.at.save <= env.at.finish <= env.at.inner && LogBefore(w, w.clock)
      requires user.row.id in store.users && store.users[user.row.id] == user.row
      requires cfg.hashToken(env.token) !in spent && env.challengeID !in spent
      requires cfg.verify(env.newHash, password) == Match
      modifies user, `clock, `spent, store, challenges
      ensures Wired()
      ensures
        var o := UserStep(cfg, w, old(user.row), name, password, info, env);
        Legal(cfg, w, o.effects) && Snapshot() == Run(cfg, w, o.effects) && response == o.response
    {
      hide Run, Legal, PasswordStep, Apply, Enabled;
      ghost var u := user.row;
      var now := env.at.start;
      Reading(cfg, w, now);
      if user.row.IsLocked(now) {
        RecordEvent(Some(user.row.id), name, EvLoginFailed, WhileLockedOut, now, env);
        AuditLegal(cfg, w, [Tick(now)], env, Some(u.id), name, EvLoginFailed, WhileLockedOut, now);
        return AccountLocked(user.row.lockedUntil.value);
      }
      var changed := ClearExpiredLock(user, now);
      if changed {
        var ok := PersistUser(user.row, env.fault == OnClearLock);
        if !ok {
          return Failed;
        }
        ReadingThenClear(cfg, w, now, u.id);
        response := CheckPassword(user, w, password, info, env);
        Append(cfg, w, [Tick(now), ClearLock(u.id)], PasswordStep(cfg, w, Unlocked(u), password, info, env).effects);
      } else {
        response := CheckPassword(user, w, password, info, env);
        Append(cfg, w, [Tick(now)], PasswordStep(cfg, w, u, password, info, env).effects);
      }
    }

    method Authenticate(username: string, password: string, info: string, env: Env) returns (response: Response)
      requires Valid() && EnvOK(cfg, Snapshot(), CAuthenticate(username, password, info), env)
      modifies `clock, `spent, store, challenges
      ensures Served(old(Snapshot()), CAuthenticate(username, password, info), env, response)
    {
      hide Run, Legal, Sound, UserStep, Apply, Enabled;
      ghost var w := Snapshot();
      var name, now := cfg.normalize(username), env.at.start;
      RowsAreKeyed(cfg, w);
      LastEvent(cfg, w);
      ServedStateIsSound(cfg, w, CAuthenticate(username, password, info), env);
      clock := now;
      Reading(cfg, w, now);
      if env.fault == OnLoad {
        return Failed;
      }
      var found := store.FindByUsername(name);
      if found.None? {
        RecordEvent(None, name, EvLoginFailed, UnknownUsername, now, env);
        AuditLegal(cfg, w, [Tick(now)], env, None, name, EvLoginFailed, UnknownUsername, now);
        return BadCredentials(-1);
      }
      var user := new UserRecord(found.value);
      response := AuthenticateUser(user, w, name, password, info, env);
    }

    // ----- CompleteTOTPChallenge, AbandonChallenge -----

    /** CompleteTOTPChallenge, once the challenge and its user are found. */
    method CheckCode(challenge: Challenge, user: UserRecord, ghost w0: World, code: string, info: string, env: Env)
      returns (response: Response)
      requires Valid() && clock == env.at.start
      requires env.at.find <= env.at.start <= env.at.save <= env.at.finish <= env.at.inner
      requires Live(Snapshot(), challenge.id, env.at.find) && challenges.items[challenge.id] == challenge
      requires challenge.expiresAt <= env.at.find + cfg.challengeTTL && challenge.userID == user.row.id
      requires user.row.id in store.users && store.users[user.row.id] == user.row
      requires cfg.hashToken(env.token) !in spent && w0.db.nextSessionID == store.nextSessionID
      modifies user, `clock, `spent, store, challenges
      ensures Wired()
      ensures
        var before, o := old(Snapshot()), CodeStep(cfg, w0, challenge.id, old(user.row), code, info, env);
        && Legal(cfg, before, o.effects) && Snapshot() == Run(cfg, before, o.effects) && response == o.response
    {
      hide Run, Legal, Apply, Enabled, Sound, FinishLogin;
      ghost var before, u := Snapshot(), user.row;
      var now, id := env.at.start, challenge.id;
      Nothing(cfg, before);
      Dropped(cfg, before, id);
      if user.row.IsLocked(now) {
        challenges.Delete(id);
        return AccountLocked(user.row.lockedUntil.value);
      }
      if !user.row.totpEnabled {
        challenges.Delete(id);
        return ChallengeExpired;
      }
      var secret := cfg.decrypt(user.row.totpSecret);
      if secret.None? {
        return Failed;
      }
      if cfg.codeOk(secret.value, code, now) {
        challenges.Delete(id);
        response := CompleteLogin(user, before, w0, ByCode(id, code, env.at.find, now), info, env);
      } else {
        response := RejectCode(challenge, user, code, env);
      }
    }

    /** A wrong code: the challenge keeps count, and the attempt is counted against the account. */
    method RejectCode(challenge: Challenge, user: UserRecord, ghost code: string, env: Env) returns (response: Response)
      requires Wired()
      requires env.at.find <= env.at.start == clock <= env.at.save <= env.at.finish <= env.at.inner
      requires Live(Snapshot(), challenge.id, env.at.find) && challenges.items[challenge.id] == challenge
      requires challenge.expiresAt <= env.at.find + cfg.challengeTTL && challenge.userID == user.row.id
      requires user.row.id in store.users && store.users[user.row.id] == user.row
      requires !user.row.IsLocked(env.at.start) && user.row.totpEnabled && cfg.CodeFails(user.row, code, env.at.start)
      modifies user, `clock, store, challenges
      ensures Wired()
      ensures
        var before, o := old(Snapshot()), WrongCodeStep(cfg, challenge.id, old(user.row), code, env);
        && Legal(cfg, before, o.effects) && Snapshot() == Run(cfg, before, o.effects) && response == o.response
    {
      hide Run, Legal, Apply, Enabled;
      ghost var before, u := Snapshot(), user.row;
      ghost var cause := WrongCode(challenge.id, code, env.at.find, env.at.start);
      var retried := challenge.(attempts := challenge.attempts + 1);
      challenges.Save(retried, env.at.save);
      clock := env.at.save;
      ghost var retry := [Tick(env.at.save), RetryChallenge(challenge.id)];
      ReadingThenRetry(cfg, before, env.at.save, challenge.id);
      var failed, outcome := RecordFailure(user, EvTOTPFailed, InvalidCode(retried.attempts), cause, env);
      ghost var counted := CountedFailure(cfg, u, cause, env).effects;
      Append(cfg, before, retry, counted);
      if failed {
        return Failed;
      }
      if outcome.locked {
        DroppedAfter(cfg, before, retry + counted, challenge.id);
        challenges.Delete(challenge.id);
        return AccountLocked(outcome.lockedUntil);
      }
      return BadCode(outcome.remaining);
    }

    method CompleteTOTPChallenge(challengeID: string, code: string, info: string, env: Env) returns (response: Response)
      requires Valid() && EnvOK(cfg, Snapshot(), CComplete(challengeID, code, info), env)
      modifies `clock, `spent, store, challenges
      ensures Served(old(Snapshot()), CComplete(challengeID, code, info), env, response)
    {
      hide Run, Legal, Apply, Enabled, CodeStep;
      ghost var w := Snapshot();
      ServedStateIsSound(cfg, w, CComplete(challengeID, code, info), env);
      RowsAreKeyed(cfg, w);
      Reading(cfg, w, env.at.find);
      ReadingThenDrop(cfg, w, env.at.find, challengeID);
      var found := challenges.Find(challengeID, env.at.find);
      clock := env.at.find;
      if found.None? {
        return ChallengeExpired;
      }
      var owner := store.FindByID(found.value.userID);
      if env.fault == OnLoad || owner.None? {
        challenges.Delete(challengeID);
        return if env.fault == OnLoad then Failed else ChallengeExpired;
      }
      clock := env.at.start;
      var readings := [Tick(env.at.find), Tick(env.at.start)];
      TwoReadings(cfg, w, env.at.find, env.at.start);
      SoundAlong(cfg, w, readings);
      var user := new UserRecord(owner.value);
      response := CheckCode(found.value, user, w, code, info, env);
      Append(cfg, w, readings, CodeStep(cfg, w, challengeID, owner.value, code, info, env).effects);
    }

    method AbandonChallenge(challengeID: string, env: Env) returns (response: Response)
      requires Valid() && EnvOK(cfg, Snapshot(), CAbandon(challengeID), env)
      modifies challenges
      ensures Served(old(Snapshot()), CAbandon(challengeID), env, response)
    {
      hide Run, Legal, Apply, Enabled, Sound;
      ghost var w := Snapshot();
      ServedStateIsSound(cfg, w, CAbandon(challengeID), env);
      Nothing(cfg, w);
      Dropped(cfg, w, challengeID);
      if challengeID != "" {
        challenges.Delete(challengeID);
      }
      return Done;
    }

    // ----- ResolveSession, Logout, PurgeExpiredSessions -----

    method ResolveSession(token: string, env: Env) returns (response: Response)
      requires Valid() && EnvOK(cfg, Snapshot(), CResolve(token), env)
      modifies `clock, store
      ensures Served(old(Snapshot()), CResolve(token), env, response)
    {
      hide Run, Legal, Apply, Enabled, Sound, EnvOK, ResolveDB;
      ghost var w := Snapshot();
      ServedStateIsSound(cfg, w, CResolve(token), env);
      RowsAreKeyed(cfg, w);
      ResolveLegal(cfg, w, token, env);
      var answer := sessions.Resolve(token, env);
      match answer {
        case Errored =>
          clock := if env.fault == OnTouch then env.at.start else clock;
          return Failed;
        case Stale(None) =>
          clock := env.at.start;
          return SessionExpired;
        case Stale(Some(session)) =>
          clock := env.at.finish;
          RecordEvent(Some(session.userID), "", EvSessionExpired, NoDetail, env.at.finish, env);
          return SessionExpired;
        case Fresh(session) =>
          clock := env.at.start;
          if env.fault == OnOwner {
            return Failed;
          }
          var user := store.FindByID(session.userID);
          return if user.None? then SessionExpired else SessionLive(session, user.value);
      }
    }

    method Logout(token: string, env: Env) returns (response: Response)
      requires Valid() && EnvOK(cfg, Snapshot(), CLogout(token), env)
      modifies `clock, store
      ensures Served(old(Snapshot()), CLogout(token), env, response)
    {
      hide Run, Legal, Apply, Enabled, Sound, EnvOK, DB.Revoke, Audited, UniqueNames, Ordered;
      ghost var w := Snapshot();
      ServedStateIsSound(cfg, w, CLogout(token), env);
      RowsAreKeyed(cfg, w);
      LogoutLegal(cfg, w, token, env);
      var failed, ended := sessions.Revoke(token, env);
      if failed {
        clock := if env.fault == OnRevoke then env.at.start else clock;
        return Failed;
      }
      if ended.Some? {
        clock := env.at.finish;
        RecordEvent(Some(ended.value.userID), "", EvLogout, NoDetail, env.at.finish, env);
      }
      return Done;
    }

    method PurgeExpiredSessions(env: Env) returns (response: Response)
      requires Valid() && EnvOK(cfg, Snapshot(), CPurge, env)
      modifies `clock, store
      ensures Served(old(Snapshot()), CPurge, env, response)
    {
      hide Run, Legal, Apply, Enabled, Sound;
      ghost var w := Snapshot();
      ServedStateIsSound(cfg, w, CPurge, env);
      Reading(cfg, w, env.at.start);
      Purged(cfg, w, env.at.start);
      clock := env.at.start;
      if env.fault == OnPurge {
        return Failed;
      }
      var _ := store.DeleteExpired(env.at.start);
      return Done;
    }

    // ----- Register -----

    method RegisterUser(username: string, password: string, env: Env) returns (response: Response)
      requires Valid() && EnvOK(cfg, Snapshot(), CRegister(username, password), env)
      modifies `clock, store
      ensures Served(old(Snapshot()), CRegister(username, password), env, response)
    {
      hide Run, Legal, Apply, Enabled, Sound, UniqueHashes, Ordered, DistinctIDs;
      ghost var w := Snapshot();
      var name, now := cfg.normalize(username), env.at.start;
      ServedStateIsSound(cfg, w, CRegister(username, password), env);
      RowsAreKeyed(cfg, w);
      Nothing(cfg, w);
      Reading(cfg, w, now);
      if !cfg.acceptable(name, password) {
        return InvalidInput;
      }
      if env.fault == OnHash {
        return Failed;
      }
      clock := now;
      var owner := store.Enter();
      response := Failed;
      if env.fault != OnTx(0) {
        var created := store.CreateUser(name, env.newHash, now);
        if created.None? {
          response := UsernameTaken;
        } else if env.fault != OnTx(1) {
          store.Append(Some(created.value.id), name, EvRegistered, NoDetail, now);
          if !env.fault.OnTx? {
            Registered(cfg, w, now, name, env.newHash);
            response := Created(created.value);
          }
        }
      }
      store.Leave(owner, response.Created?);
    }

    // ----- Second factor enrollment -----

    method BeginTOTPEnrollment(userID: int, env: Env) returns (response: Response)
      requires Valid() && EnvOK(cfg, Snapshot(), CBegin(userID), env)
      modifies store
      ensures Served(old(Snapshot()), CBegin(userID), env, response)
    {
      hide Run, Legal, Apply, Enabled, Sound, EnvOK, UniqueNames, UniqueHashes, Ordered;
      ghost var w := Snapshot();
      ServedStateIsSound(cfg, w, CBegin(userID), env);
      RowsAreKeyed(cfg, w);
      Nothing(cfg, w);
      var found := store.FindByID(userID);
      if env.fault == OnLoad || found.None? {
        return Failed;
      }
      Began(cfg, w, userID, env);
      var user := found.value;
      if user.totpEnabled {
        return AlreadyEnabled;
      }
      if env.fault == OnRandom || env.fault == OnEncrypt {
        return Failed;
      }
      user := user.(totpSecret := env.sealedSecret, totpEnabled := false, totpConfirmedAt := None);
      var ok := PersistUser(user, env.fault == OnPersist);
      if !ok {
        return Failed;
      }
      return Enrolled(env.secret);
    }

    method CancelTOTPEnrollment(userID: int, env: Env) returns (response: Response)
      requires Valid() && EnvOK(cfg, Snapshot(), CCancel(userID), env)
      modifies store
      ensures Served(old(Snapshot()), CCancel(userID), env, response)
    {
      hide Run, Legal, Apply, Enabled, Sound, EnvOK, UniqueNames, UniqueHashes, Ordered;
      ghost var w := Snapshot();
      ServedStateIsSound(cfg, w, CCancel(userID), env);
      RowsAreKeyed(cfg, w);
      Nothing(cfg, w);
      var found := store.FindByID(userID);
      if env.fault == OnLoad || found.None? {
        return Failed;
      }
      Cancelled(cfg, w, userID, env);
      var user := found.value;
      if !user.HasPendingEnrollment() {
        return Done;
      }
      user := user.(totpSecret := "");
      var ok := PersistUser(user, env.fault == OnPersist);
      if !ok {
        return Failed;
      }
      return Done;
    }

    /** The transaction that confirming and disabling share. */
    method SwitchSecondFactor(user: User, kind: EventKind, keepID: int, now: Time, env: Env) returns (ok: bool)
      requires Wired() && user.id in store.users
      modifies store
      ensures Wired() && ok == !env.fault.OnTx?
      ensures store.Contents() ==
        if ok then SecondFactorTx(old(store.Contents()), user, kind, keepID, now, env.at.inner) else old(store.Contents())
    {
      var owner := store.Enter();
      ok := env.fault != OnTx(0);
      if ok {
        ok := PersistUser(user, env.fault == OnTx(1));
      }
      if ok {
        ok := env.fault != OnTx(2);
        if ok {
          var _ := sessions.RevokeOthers(user.id, keepID, env.at.inner);
          store.Append(Some(user.id), user.username, kind, NoDetail, now);
        }
      }
      ok := ok && !env.fault.OnTx?;
      store.Leave(owner, ok);
    }

    method ConfirmTOTPEnrollment(userID: int, code: string, keepID: int, env: Env) returns (response: Response)
      requires Valid() && EnvOK(cfg, Snapshot(), CConfirm(userID, code, keepID), env)
      modifies `clock, store
      ensures Served(old(Snapshot()), CConfirm(userID, code, keepID), env, response)
    {
      hide Run, Legal, Apply, Enabled, Sound, SecondFactorTx, EnvOK, UniqueNames, UniqueHashes, Ordered;
      ghost var w := Snapshot();
      ServedStateIsSound(cfg, w, CConfirm(userID, code, keepID), env);
      RowsAreKeyed(cfg, w);
      ConfirmLegal(cfg, w, userID, code, keepID, env);
      var found := store.FindByID(userID);
      if env.fault == OnLoad || found.None? {
        return Failed;
      }
      var user := found.value;
      if user.totpEnabled {
        return AlreadyEnabled;
      }
      if !user.HasPendingEnrollment() {
        return NoPending;
      }
      var secret := cfg.decrypt(user.totpSecret);
      if secret.None? {
        return Failed;
      }
      var now := env.at.start;
      clock := now;
      if !cfg.codeOk(secret.value, code, now) {
        RecordEvent(Some(user.id), user.username, EvTOTPFailed, EnrollmentFailed, now, env);
        return InvalidTOTPCode;
      }
      user := user.(totpEnabled := true, totpConfirmedAt := Some(now));
      var ok := SwitchSecondFactor(user, EvTOTPEnabled, keepID, now, env);
      if !ok {
        return Failed;
      }
      clock := env.at.inner;
      return Done;
    }

    method DisableTOTP(userID: int, code: string, keepID: int, env: Env) returns (response: Response)
      requires Valid() && EnvOK(cfg, Snapshot(), CDisable(userID, code, keepID), env)
      modifies `clock, store
      ensures Served(old(Snapshot()), CDisable(userID, code, keepID), env, response)
    {
      hide Run, Legal, Apply, Enabled, Sound, SecondFactorTx, EnvOK, UniqueNames, UniqueHashes, Ordered;
      ghost var w := Snapshot();
      ServedStateIsSound(cfg, w, CDisable(userID, code, keepID), env);
      RowsAreKeyed(cfg, w);
      DisableLegal(cfg, w, userID, code, keepID, env);
      var found := store.FindByID(userID);
      if env.fault == OnLoad || found.None? {
        return Failed;
      }
      var user := found.value;
      if !user.totpEnabled {
        return NotEnabled;
      }
      var secret := cfg.decrypt(user.totpSecret);
      if secret.None? {
        return Failed;
      }
      var now := env.at.start;
      clock := now;
      if !cfg.codeOk(secret.value, code, now) {
        RecordEvent(Some(user.id), user.username, EvTOTPFailed, DisableFailed, now, env);
        return InvalidTOTPCode;
      }
      user := user.(totpEnabled := false, totpSecret := "", totpConfirmedAt := None);
      var ok := SwitchSecondFactor(user, EvTOTPDisabled, keepID, now, env);
      if !ok {
        return Failed;
      }
      clock := env.at.inner;
      return Done;
    }

    // ----- RecentActivity -----

    /** The last entries of the user, newest first; ten when the limit is not positive. */
    method RecentActivity(userID: int, limit: int) returns (listing: seq<Event>)
      requires Valid()
      ensures listing == Reverse(Suffix(OfUser(store.events, userID), if limit <= 0 then 10 else limit))
    {
      RowsAreKeyed(cfg, Snapshot());
      listing := store.RecentForUser(userID, if limit <= 0 then 10 else limit);
    }

    /** Any call, by whoever shares the store. */
    method Perform(c: Call, env: Env) returns (response: Response)
      requires Valid() && EnvOK(cfg, Snapshot(), c, env)
      modifies this, store, challenges
      ensures Served(old(Snapshot()), c, env, response)
    {
      hide *;
      match c {
        case CRegister(username, password) => response := RegisterUser(username, password, env);
        case CAuthenticate(username, password, info) => response := Authenticate(username, password, info, env);
        case CComplete(id, code, info) => response := CompleteTOTPChallenge(id, code, info, env);
        case CAbandon(id) => response := AbandonChallenge(id, env);
        case CResolve(token) => response := ResolveSession(token, env);
        case CLogout(token) => response := Logout(token, env);
        case CBegin(userID) => response := BeginTOTPEnrollment(userID, env);
        case CConfirm(userID, code, keepID) => response := ConfirmTOTPEnrollment(userID, code, keepID, env);
        case CCancel(userID) => response := CancelTOTPEnrollment(userID, env);
        case CDisable(userID, code, keepID) => response := DisableTOTP(userID, code, keepID, env);
        case CPurge => response := PurgeExpiredSessions(env);
      }
    }
  }
}
