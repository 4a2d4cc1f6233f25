/**
 * The authentication core as a state machine. Its labels are the atomic changes the service makes: one committed
 * transaction, one single-row update, one change of the challenge store, one clock reading. Every service call is
 * a legal sequence of these (module Refinement).
 */
module Machine {
  import opened Domain
  import opened Lockout
  import opened Database

  datatype World = World(
    db: DB,
    challenges: map<string, Challenge>,
    clock: Time,
    // Random values drawn so far: token hashes and challenge ids. A draw is never repeated.
    spent: set<string>)

  /** Why a failed attempt was counted. foundAt and checkedAt are the two clock readings of the code check. */
  datatype Cause =
    | WrongPassword(password: string)
    | WrongCode(id: string, code: string, foundAt: Time, checkedAt: Time)

  /** What entitled a login to its session. */
  datatype Proof =
    | ByPassword(password: string)
    | ByCode(id: string, code: string, foundAt: Time, checkedAt: Time)

  datatype Effect =
    | Tick(at: Time)
    | Register(name: string, hash: string)
    | ClearLock(userID: int)
    | Rehash(userID: int, hash: string, password: string)
    | BeginEnrollment(userID: int, secret: string)
    | CancelEnrollment(userID: int)
    | CountFailure(userID: int, cause: Cause, revokedAt: Time)
    | Login(userID: int, proof: Proof, tokenHash: string, issuedAt: Time, info: string)
    | EnableTOTP(userID: int, code: string, keep: int, revokedAt: Time)
    | DisableTOTP(userID: int, code: string, keep: int, revokedAt: Time)
    | IssueChallenge(userID: int, id: string, password: string, startedAt: Time)
    | RetryChallenge(id: string)
    | DropChallenge(id: string)
    | Resolve(tokenHash: string)
    | Revoke(sessionID: int)
    | Purge
    | Log(owner: Option<int>, username: string, kind: EventKind, detail: Detail, at: Time)

  // ----- What each label does -----

  function Evict(items: map<string, Challenge>, now: Time): map<string, Challenge> {
    map id | id in items && items[id].expiresAt > now :: items[id]
  }

  predicate Live(w: World, id: string, at: Time) {
    id in w.challenges && w.challenges[id].expiresAt > at
  }

  function CauseKind(c: Cause): EventKind {
    if c.WrongPassword? then EvLoginFailed else EvTOTPFailed
  }

  function CauseDetail(w: World, c: Cause): Detail {
    match c
    case WrongPassword(_) => WrongPasswordDetail
    case WrongCode(id, _, _, _) => InvalidCode(if id in w.challenges then w.challenges[id].attempts else 0)
  }

  /** The transaction of recordFailure. */
  function FailureTx(cfg: Config, db: DB, u: User, kind: EventKind, detail: Detail, now: Time, revokedAt: Time): DB {
    var u' := AfterFailure(cfg, u, now);
    var counted := db.PutUser(u').Append(Some(u.id), u.username, kind, detail, now);
    if Trips(cfg, u)
    then counted.RevokeMatching(u.id, 0, revokedAt)
                .Append(Some(u.id), u.username, EvAccountLocked, LockedUntilDetail(now + cfg.lockDuration), now)
    else counted
  }

  function NewSession(cfg: Config, userID: int, tokenHash: string, issuedAt: Time, info: string): Session {
    Session(0, userID, tokenHash, issuedAt, issuedAt, issuedAt + cfg.idleTimeout, issuedAt + cfg.maxLifetime, None, info)
  }

  function LoggedIn(u: User, now: Time): User {
    Unlocked(u).(lastLoginAt := Some(now))
  }

  /** The transaction of completeLogin. */
  function LoginTx(cfg: Config, db: DB, u: User, tokenHash: string, issuedAt: Time, info: string, now: Time): DB {
    db.PutUser(LoggedIn(u, now))
      .CreateSession(NewSession(cfg, u.id, tokenHash, issuedAt, info))
      .Append(Some(u.id), u.username, EvLoginSucceeded, Client(info), now)
  }

  function Enabled2FA(u: User, now: Time): User {
    u.(totpEnabled := true, totpConfirmedAt := Some(now))
  }

  function Disabled2FA(u: User): User {
    u.(totpEnabled := false, totpSecret := "", totpConfirmedAt := None)
  }

  /** The transaction shared by confirming and disabling the second factor. */
  function SecondFactorTx(db: DB, u: User, kind: EventKind, keep: int, now: Time, revokedAt: Time): DB {
    db.PutUser(u).RevokeMatching(u.id, keep, revokedAt).Append(Some(u.id), u.username, kind, NoDetail, now)
  }

  function SlideTo(cfg: Config, s: Session, now: Time): Time {
    if now + cfg.idleTimeout > s.absoluteExpiresAt then s.absoluteExpiresAt else now + cfg.idleTimeout
  }

  ghost function ResolveDB(cfg: Config, db: DB, hash: string, now: Time): DB {
    match db.SessionByHash(hash)
    case None => db
    case Some(id) =>
      if db.sessions[id].IsActive(now) then db.Touch(id, now, SlideTo(cfg, db.sessions[id], now)) else db
  }

  ghost function Apply(cfg: Config, w: World, e: Effect): World
    requires Enabled(cfg, w, e)
  {
    match e
    case Tick(at) => w.(clock := at)
    case Register(name, hash) =>
      w.(db := w.db.CreateUser(name, hash, w.clock)
                   .Append(Some(w.db.nextUserID), name, EvRegistered, NoDetail, w.clock))
    case ClearLock(id) => w.(db := w.db.PutUser(Unlocked(w.db.users[id])))
    case Rehash(id, hash, _) => w.(db := w.db.PutUser(w.db.users[id].(passwordHash := hash)))
    case BeginEnrollment(id, secret) =>
      w.(db := w.db.PutUser(w.db.users[id].(totpSecret := secret, totpEnabled := false, totpConfirmedAt := None)))
    case CancelEnrollment(id) => w.(db := w.db.PutUser(w.db.users[id].(totpSecret := "")))
    case CountFailure(id, cause, revokedAt) =>
      var u := w.db.users[id];
      w.(db := FailureTx(cfg, w.db, u, CauseKind(cause), CauseDetail(w, cause), w.clock, revokedAt),
         clock := if Trips(cfg, u) then revokedAt else w.clock)
    case Login(id, proof, tokenHash, issuedAt, info) =>
      World(LoginTx(cfg, w.db, w.db.users[id], tokenHash, issuedAt, info, w.clock),
            if proof.ByCode? then w.challenges - {proof.id} else w.challenges,
            issuedAt,
            w.spent + {tokenHash})
    case EnableTOTP(id, _, keep, revokedAt) =>
      w.(db := SecondFactorTx(w.db, Enabled2FA(w.db.users[id], w.clock), EvTOTPEnabled, keep, w.clock, revokedAt),
         clock := revokedAt)
    case DisableTOTP(id, _, keep, revokedAt) =>
      w.(db := SecondFactorTx(w.db, Disabled2FA(w.db.users[id]), EvTOTPDisabled, keep, w.clock, revokedAt),
         clock := revokedAt)
    case IssueChallenge(id, cid, _, startedAt) =>
      var c := Challenge(cid, id, w.db.users[id].username, 0, startedAt + cfg.challengeTTL);
      w.(challenges := Evict(w.challenges, w.clock)[cid := c], spent := w.spent + {cid})
    case RetryChallenge(cid) =>
      var c := w.challenges[cid];
      w.(challenges := Evict(w.challenges, w.clock)[cid := c.(attempts := c.attempts + 1)])
    case DropChallenge(cid) => w.(challenges := w.challenges - {cid})
    case Resolve(hash) => w.(db := ResolveDB(cfg, w.db, hash, w.clock))
    case Revoke(sid) => w.(db := w.db.Revoke(sid, w.clock))
    case Purge => w.(db := w.db.DeleteExpired(w.clock))
    case Log(owner, username, kind, detail, at) => w.(db := w.db.Append(owner, username, kind, detail, at))
  }

  // ----- When each label may happen -----

  /** The events that recordEvent writes outside any transaction, and that may be lost. */
  predicate BestEffort(kind: EventKind, detail: Detail) {
    match kind
    case EvLoginFailed => detail == UnknownUsername || detail == WhileLockedOut
    case EvTOTPFailed => detail == EnrollmentFailed || detail == DisableFailed
    case EvTOTPChallenged => detail == NoDetail
    case EvLogout => detail == NoDetail
    case EvSessionExpired => detail == NoDetail
    case _ => false
  }

  /** A code check found its challenge live, then found the user unlocked with the second factor on. */
  predicate CodeChecked(cfg: Config, w: World, userID: int, id: string, foundAt: Time, checkedAt: Time) {
    && userID in w.db.users
    && Live(w, id, foundAt) && w.challenges[id].expiresAt <= foundAt + cfg.challengeTTL
    && w.challenges[id].userID == userID
    && foundAt <= checkedAt <= w.clock
    && !w.db.users[userID].IsLocked(checkedAt)
    && w.db.users[userID].totpEnabled
  }

  /** A password check started from an unlocked row. */
  predicate PasswordChecked(cfg: Config, w: World, userID: int, password: string, verdict: Verdict) {
    && userID in w.db.users
    && w.db.users[userID].lockedUntil.None?
    && cfg.verify(w.db.users[userID].passwordHash, password) == verdict
  }

  predicate Caused(cfg: Config, w: World, userID: int, cause: Cause) {
    match cause
    case WrongPassword(password) => PasswordChecked(cfg, w, userID, password, Mismatch)
    case WrongCode(cid, code, foundAt, checkedAt) =>
      CodeChecked(cfg, w, userID, cid, foundAt, checkedAt) && cfg.CodeFails(w.db.users[userID], code, checkedAt)
  }

  predicate Earned(cfg: Config, w: World, userID: int, proof: Proof) {
    match proof
    case ByPassword(password) =>
      PasswordChecked(cfg, w, userID, password, Match) && !w.db.users[userID].totpEnabled
    case ByCode(cid, code, foundAt, checkedAt) =>
      CodeChecked(cfg, w, userID, cid, foundAt, checkedAt) && cfg.CodeMatches(w.db.users[userID], code, checkedAt)
  }

  predicate Enabled(cfg: Config, w: World, e: Effect) {
    match e
    case Tick(at) => w.clock <= at
    case Register(name, _) => forall id | id in w.db.users :: w.db.users[id].username != name
    case ClearLock(id) => id in w.db.users && LockExpired(w.db.users[id], w.clock)
    case Rehash(id, hash, password) =>
      PasswordChecked(cfg, w, id, password, Match) && cfg.verify(hash, password) == Match
    case BeginEnrollment(id, _) => id in w.db.users && !w.db.users[id].totpEnabled
    case CancelEnrollment(id) => id in w.db.users && w.db.users[id].HasPendingEnrollment()
    case CountFailure(id, cause, revokedAt) =>
      w.clock <= revokedAt && Caused(cfg, w, id, cause)
    case Login(id, proof, tokenHash, issuedAt, _) =>
      w.clock <= issuedAt && tokenHash !in w.spent && Earned(cfg, w, id, proof)
    case EnableTOTP(id, code, _, revokedAt) =>
      && id in w.db.users && w.db.users[id].HasPendingEnrollment()
      && cfg.CodeMatches(w.db.users[id], code, w.clock) && w.clock <= revokedAt
    case DisableTOTP(id, code, _, revokedAt) =>
      && id in w.db.users && w.db.users[id].totpEnabled
      && cfg.CodeMatches(w.db.users[id], code, w.clock) && w.clock <= revokedAt
    case IssueChallenge(id, cid, password, startedAt) =>
      && PasswordChecked(cfg, w, id, password, Match) && w.db.users[id].totpEnabled
      && startedAt <= w.clock && cid !in w.spent
    case RetryChallenge(cid) => cid in w.challenges
    case DropChallenge(_) => true
    case Resolve(_) => true
    case Revoke(_) => true
    case Purge => true
    case Log(_, _, kind, detail, at) =>
      && BestEffort(kind, detail)
      && at <= w.clock
      && (w.db.events != [] ==> w.db.events[|w.db.events| - 1].createdAt <= at)
  }

  /** The audit events that a label appends, in order. */
  ghost function Emitted(cfg: Config, w: World, e: Effect): (evs: seq<Event>)
    requires Enabled(cfg, w, e)
  {
    var next := w.db.nextEventID;
    match e
    case Register(name, _) => [Event(next, Some(w.db.nextUserID), name, EvRegistered, NoDetail, w.clock)]
    case CountFailure(id, cause, _) =>
      var u := w.db.users[id];
      [Event(next, Some(u.id), u.username, CauseKind(cause), CauseDetail(w, cause), w.clock)]
      + if Trips(cfg, u)
        then [Event(next + 1, Some(u.id), u.username, EvAccountLocked, LockedUntilDetail(w.clock + cfg.lockDuration),
                    w.clock)]
        else []
    case Login(id, _, _, _, info) =>
      [Event(next, Some(w.db.users[id].id), w.db.users[id].username, EvLoginSucceeded, Client(info), w.clock)]
    case EnableTOTP(id, _, _, _) =>
      [Event(next, Some(w.db.users[id].id), w.db.users[id].username, EvTOTPEnabled, NoDetail, w.clock)]
    case DisableTOTP(id, _, _, _) =>
      [Event(next, Some(w.db.users[id].id), w.db.users[id].username, EvTOTPDisabled, NoDetail, w.clock)]
    case Log(owner, username, kind, detail, at) => [Event(next, owner, username, kind, detail, at)]
    case _ => []
  }

  lemma AppendsEmitted(cfg: Config, w: World, e: Effect)
    requires Enabled(cfg, w, e)
    ensures Apply(cfg, w, e).db.events == w.db.events + Emitted(cfg, w, e)
    ensures Apply(cfg, w, e).db.nextEventID == w.db.nextEventID + |Emitted(cfg, w, e)|
  {
  }

  // ----- Runs -----

  function Start(t0: Time): World {
    World(EMPTY, map[], t0, {})
  }

  ghost predicate Legal(cfg: Config, w: World, tr: seq<Effect>)
    decreases |tr|, 0
  {
    tr == [] || (Legal(cfg, w, tr[..|tr| - 1]) && Enabled(cfg, Run(cfg, w, tr[..|tr| - 1]), tr[|tr| - 1]))
  }

  ghost function Run(cfg: Config, w: World, tr: seq<Effect>): World
    requires Legal(cfg, w, tr)
    decreases |tr|, 1
  {
    if tr == [] then w else Apply(cfg, Run(cfg, w, tr[..|tr| - 1]), tr[|tr| - 1])
  }

  lemma {:induction false} LegalPrefix(cfg: Config, w: World, tr: seq<Effect>, i: nat)
    requires Legal(cfg, w, tr) && i <= |tr|
    ensures Legal(cfg, w, tr[..i])
    ensures i < |tr| ==> Enabled(cfg, Run(cfg, w, tr[..i]), tr[i])
    decreases |tr|
  {
    if i < |tr| {
      LegalPrefix(cfg, w, tr[..|tr| - 1], i);
      assert tr[..|tr| - 1][..i] == tr[..i];
    } else {
      assert tr[..i] == tr;
    }
  }
}
