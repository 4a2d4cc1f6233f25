/** The persisted entities and the configuration of the authentication core. */
module Domain {

  datatype Option<+T> = None | Some(value: T)

  /** Instants and durations. Only their order and their differences matter. */
  type Time = int

  /** internal/domain/user.go */
  datatype User = User(
    id: int,
    username: string,
    passwordHash: string,
    totpSecret: string,
    totpEnabled: bool,
    totpConfirmedAt: Option<Time>,
    failedLoginAttempts: int,
    lockedUntil: Option<Time>,
    lastLoginAt: Option<Time>,
    createdAt: Time)
  {
    predicate IsLocked(now: Time) {
      lockedUntil.Some? && lockedUntil.value > now
    }

    predicate HasPendingEnrollment() {
      totpSecret != "" && !totpEnabled
    }
  }

  /** internal/domain/session.go */
  datatype Session = Session(
    id: int,
    userID: int,
    tokenHash: string,
    issuedAt: Time,
    lastSeenAt: Time,
    idleExpiresAt: Time,
    absoluteExpiresAt: Time,
    revokedAt: Option<Time>,
    clientInfo: string)
  {
    function ExpiresAt(): Time {
      if idleExpiresAt < absoluteExpiresAt then idleExpiresAt else absoluteExpiresAt
    }

    predicate IsActive(now: Time) {
      revokedAt.None? && ExpiresAt() > now
    }
  }

  /** internal/auth/challenge.go: a login waiting for its code. */
  datatype Challenge = Challenge(id: string, userID: int, username: string, attempts: int, expiresAt: Time)

  /** internal/domain/event.go */
  datatype EventKind =
    | EvRegistered | EvLoginSucceeded | EvLoginFailed | EvTOTPChallenged | EvTOTPFailed
    | EvAccountLocked | EvLogout | EvSessionExpired | EvTOTPEnabled | EvTOTPDisabled

  /** The texts the service writes into an event's Detail column, one constructor a text. */
  datatype Detail =
    | NoDetail
    | UnknownUsername
    | WhileLockedOut
    | WrongPasswordDetail
    | InvalidCode(attempt: int)
    | EnrollmentFailed
    | DisableFailed
    | LockedUntilDetail(until: Time)
    | Client(info: string)

  datatype Event = Event(
    id: int,
    userID: Option<int>,
    username: string,
    kind: EventKind,
    detail: Detail,
    createdAt: Time)

  /** What the password hasher says about a stored hash and a plaintext. */
  datatype Verdict = Match | Mismatch | Broken

  /**
   * Configuration, together with the collaborators that stay uninterpreted:
   * the password hasher, the secret cipher, the code validator, the token hash
   * and the username and password rules.
   */
  datatype Config = Config(
    maxAttempts: int,
    lockDuration: Time,
    idleTimeout: Time,
    maxLifetime: Time,
    challengeTTL: Time,
    verify: (string, string) -> Verdict,
    needsRehash: string -> bool,
    decrypt: string -> Option<string>,
    codeOk: (string, string, Time) -> bool,
    hashToken: string -> string,
    normalize: string -> string,
    acceptable: (string, string) -> bool)
  {
    /** The inequalities that Config.Validate enforces. */
    predicate Valid() {
      && 1 <= maxAttempts
      && 0 < lockDuration
      && 0 < idleTimeout <= maxLifetime
      && 0 < challengeTTL
    }

    /** Holds for the defaults (2 minutes against 15) but Config.Validate does not enforce it. */
    predicate ShortChallenges() {
      challengeTTL <= lockDuration
    }

    /** The code checks out against the stored, encrypted secret. */
    predicate CodeMatches(u: User, code: string, now: Time) {
      decrypt(u.totpSecret).Some? && codeOk(decrypt(u.totpSecret).value, code, now)
    }

    predicate CodeFails(u: User, code: string, now: Time) {
      decrypt(u.totpSecret).Some? && !codeOk(decrypt(u.totpSecret).value, code, now)
    }
  }
}
