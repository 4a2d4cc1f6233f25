/** internal/auth/lockout.go: the failure counter and the lock of one user record. */
module Lockout {
  import opened Domain

  // ----- The policy on values -----

  predicate Trips(cfg: Config, u: User) {
    u.failedLoginAttempts + 1 >= cfg.maxAttempts
  }

  function AfterFailure(cfg: Config, u: User, now: Time): User {
    if Trips(cfg, u)
    then u.(failedLoginAttempts := 0, lockedUntil := Some(now + cfg.lockDuration))
    else u.(failedLoginAttempts := u.failedLoginAttempts + 1)
  }

  function Unlocked(u: User): User {
    u.(failedLoginAttempts := 0, lockedUntil := None)
  }

  predicate LockExpired(u: User, now: Time) {
    u.lockedUntil.Some? && u.lockedUntil.value <= now
  }

  function Remaining(cfg: Config, u: User): int {
    if cfg.maxAttempts - u.failedLoginAttempts < 0 then 0 else cfg.maxAttempts - u.failedLoginAttempts
  }

  // ----- The policy on a record in memory, which the caller persists -----

  /** The copy of a row that a service call works on. */
  class UserRecord {
    var row: User

    constructor (row: User)
      ensures this.row == row
    {
      this.row := row;
    }
  }

  method RegisterFailure(cfg: Config, user: UserRecord, now: Time) returns (locked: bool)
    modifies user
    ensures locked == Trips(cfg, old(user.row))
    ensures user.row == AfterFailure(cfg, old(user.row), now)
  {
    user.row := user.row.(failedLoginAttempts := user.row.failedLoginAttempts + 1);
    if user.row.failedLoginAttempts < cfg.maxAttempts {
      return false;
    }
    user.row := user.row.(lockedUntil := Some(now + cfg.lockDuration));
    user.row := user.row.(failedLoginAttempts := 0);
    return true;
  }

  method ClearExpiredLock(user: UserRecord, now: Time) returns (changed: bool)
    modifies user
    ensures changed == LockExpired(old(user.row), now)
    ensures user.row == if changed then Unlocked(old(user.row)) else old(user.row)
  {
    if user.row.lockedUntil.None? || user.row.lockedUntil.value > now {
      return false;
    }
    user.row := user.row.(lockedUntil := None);
    user.row := user.row.(failedLoginAttempts := 0);
    return true;
  }

  method Reset(user: UserRecord) returns (changed: bool)
    modifies user
    ensures user.row == Unlocked(old(user.row)) && changed == (user.row != old(user.row))
  {
    if user.row.failedLoginAttempts == 0 && user.row.lockedUntil.None? {
      return false;
    }
    user.row := user.row.(failedLoginAttempts := 0, lockedUntil := None);
    return true;
  }
}
