# A verified model of the authcli login system

authcli is an interactive login shell over a small authentication core: accounts, passwords, a TOTP second factor,
lockout after repeated failures, sessions with an idle and an absolute deadline, and an append-only audit log. This
project models that core, the shell that drives it, and two self-contained algorithms of the repository, and proves
what they promise over whole runs. `dafny verify dfyconfig.toml` checks everything.

## How it is built

**The core as a state machine.** `Machine` holds the state (users, sessions, audit log, pending challenges, clock,
random draws so far) and one label for each atomic change the service makes: a committed transaction, a single-row
update, a change of the challenge store, a clock reading. A failed transaction leaves no trace, so it is no label at
all. `Invariants` holds what every label keeps. The theorems about runs (`FailureLaw`, `StaleLock`, `GuessRate`,
`AuditReplay`, `SessionHistory`, `Justification`, `SecondFactor`, `Activity`) quantify over all legal label sequences;
`Interleaving` and `SplitHistory` split every resolve into its lookup and its Touch.

**The service as it is written.** `Service`, `Sessions`, `Store`, `Challenges` and `Lockout` are classes whose methods
update their fields the way the Go code does. The repositories follow the in-memory store; its transactions follow
`internal/storage/postgres/tx.go`, with joining and rollback (`Store.Enter`, `Store.Leave`). Each
service method is proved to do exactly what `Calls` says of the call: the labels it goes through, and its answer.
`Refinement` proves those labels legal, so every theorem about runs holds of every sequence of calls (`CallRuns`).
`Verdicts` says of every call, by the stored rows and the circumstances alone, which answer it gives and what it leaves
of users, sessions, challenges and log; `RoundTrip` and `Rejections` carry that over whole sequences of calls.
Clock readings, random draws, the operation that fails (any one, of any call, including any operation of a
transaction) and the loss of a best-effort audit write are parameters of each call (`Calls.Env`). One call reads the
clock several times, and the readings only have to be ordered.

**The shell.** `Shell` is the client: the cached login, dispatch, revalidation, the command loops and shutdown. What the
user types and what everybody else does to the store between any two calls of the shell come from two tapes; any call
may meet a storage fault, and a run may be cut off anywhere. `Dialogues` says what each command asks of the service and
how it ends, in terms of what is typed; `ShellLaw` and `CodePrompts` hold the laws behind the shell, `Registry` the
command table.

**The algorithms.** `EditDistance` is the two-row Levenshtein distance; `Migrations` and `MigrationProtocol` are the
migration runner, by one process and by any number.

## What the proofs found

*A failure can be counted on a lock that has run out.* Three laws suggest themselves about the failure counter: the
failures counted since the last login are MaxAttempts x locks + counter; an account takes at most MaxAttempts guesses a
lockout window; the audit log rebuilds the counter. They are this project's reading of what the lockout is for, stated
nowhere in the repository, and each fails in the same way: a wrong code is counted while a lock that has run out is
still stored, and the next password attempt erases that count together with the lock. It takes a challenge that
outlives the lock (`Witness.LongChallengesBreakPlainLaws`: challengeTTL above the lockout Duration, which
`Config.Validate` allows), or, with shorter challenges, a race: `CompleteTOTPChallenge` reads the clock when it looks
the challenge up and again when it tests the lock, and the lock runs out between the two
(`Witness.RaceBreaksPlainLaws`). What holds is proved three ways: with an exact correction term and no hypothesis at
all (`Conservation`, `GuessesPerWindow`, `ReplayAgrees`); as the plain law if and only if no lock with such a late
count was cleared (`PlainConservation`, `PlainReplay`; the rate, being a bound, only in the direction that promises
it); and as the plain law outright when challenges are short and the two readings of a check coincide (`AtomicChecks`).

*A late Touch can cut a session short, or revive it.* A resolve looks the session up and touches it in two steps, and
the Touch only checks that the row is unrevoked. Two shells that resolve one token at the same time may touch it in the
other order, which cuts the session short (`Overlap.LateTouchCutsShort`); and a Touch that comes after the idle deadline
revives a token that has already failed (`Overlap.LateTouchRevives`). `SplitHistory` says what holds under every
interleaving: no token outlives its visit history, and the store falls short of the history exactly between the idle
deadline of the visit it recorded last and that of the latest visit. If no resolves overlap, the two agree.
`Interleaving` says exactly when a token that failed can resolve again, that a resolve succeeds exactly if nothing ended
its session meanwhile, and that a revoked row never changes.

*A refused command leaves spellings behind.* `Registry.Register` stops at the first spelling that is taken. The earlier
spellings of the refused command stay in the index and find it, although it is not listed
(`Registry.RefusalLeavesSpelling`); this is so unless the taken spelling is the command's own name
(`Registry.TidyAfterRefusalIff`).

## Model

| member | source | states |
|---|---|---|
| Invariants.Reachable | internal/auth/service.go:593-677 | In every reachable state, after any failed transaction: a user with LockedUntil set has no unrevoked session, 0 <= FailedLoginAttempts < MaxAttempts, names and token hashes are unique, stored deadlines follow from issue and last touch, and audit ids and times are ordered. |
| Invariants.Keeps | internal/auth/service.go:188-569 | Every single label keeps all of these invariants. |
| Invariants.UserFollows | internal/auth/service.go:593-677 | What each label does to each user row, and that it touches no other user. |
| Invariants.RowFollows | internal/storage/memory/store.go:122-222 | What each label does to each session row: created by a login only, revoked by logout, lockout or a change of the second factor, slid by a resolve, deleted by a purge only if inactive. |
| Invariants.ChallengeFollows | internal/auth/challenge.go:49-86 | A stored challenge was issued by the label under a fresh id, or was there before with the same user and deadline and was not redeemed or dropped. |
| Refinement.CallLegal | internal/auth/service.go:188-582 | Every service call, under every fault and every choice of clock readings, is a legal label sequence from any sound state. |
| Refinement.CompleteLegal | internal/auth/service.go:321-376 | The same for the code step, and a rejected code has counted exactly one failure and reports the attempts left. |
| Refinement.LogoutLegal | internal/auth/session.go:101-119 | The same for logout, with the state it leaves in each case: unknown, already revoked, revoked now, failed. |
| CallRuns.CallsRefineMachine | internal/auth/service.go:188-582 | Every sequence of calls is a legal run that ends in the state the calls leave. |
| CallRuns.RejectionsReport | internal/auth/service.go:268-280 | A rejected password of a known account and a rejected code report between 1 and MaxAttempts - 1 attempts; an unknown account reports -1. |
| Verdicts.RegisterVerdict | internal/auth/service.go:188-226 | Without a fault an account is created exactly if name and password are acceptable and the name is free; the one new row has that name, a hash that verifies the password and nothing else set, and its event is logged. Otherwise nothing changes. |
| Verdicts.AuthenticateVerdict | internal/auth/service.go:231-318 | Without a fault: for an unlocked account a right password signs in, or asks for a code exactly if 2FA is on, and a wrong one is rejected; no other account is signed in or asked for a code. |
| Verdicts.WrongPasswordVerdict | internal/auth/service.go:268-280 | A wrong password of an unlocked account is counted: the stored counter (from 0 if an expired lock was cleared) is one more and the answer says what is left, or the row is locked until the answered time with counter 0 and no unrevoked session; the failure, and the lock, are logged. Only a fault of the transaction prevents it, and then nothing was counted. |
| Verdicts.RightPasswordVerdict | internal/auth/service.go:282-317 | A right password is refused for a fault only. With 2FA off it stores one session under the drawn token and resets the failure state; with 2FA on it stores one challenge, challengeTTL long. The stored hash is replaced exactly if it needs it, by one that verifies the password. |
| Verdicts.RefusedVerdict | internal/auth/service.go:235-266 | An unknown name answers -1 attempts, a locked account its stored deadline, each with its best-effort entry; neither changes anything else. |
| Verdicts.BrokenHashVerdict | internal/auth/service.go:262-271 | A stored hash that cannot be checked fails the call; only an expired lock is cleared. |
| Verdicts.CodeVerdict | internal/auth/service.go:321-376 | Every code: for a live challenge of an unlocked account with 2FA on, exactly a right code signs in, with the challenge used up and the failure state reset; a wrong one is counted like a wrong password and the challenge waits on, until the last attempt locks the account. Expired and unknown challenges, locked accounts and accounts without 2FA are told apart, and what is deleted with them. |
| Verdicts.AbandonVerdict | internal/auth/service.go:380-385 | Deletes exactly the named challenge. |
| Verdicts.ResolveVerdict | internal/auth/service.go:390-411 | A token resolves to its user exactly if its session is active, but for a fault, and then exactly that session slides, capped by its absolute deadline; otherwise nothing changes and an expired session is logged. |
| Verdicts.LogoutVerdict | internal/auth/service.go:414-427 | Revokes the session of the token if there is one that is not revoked, and no other. |
| Verdicts.PurgeVerdict | internal/auth/service.go:580-582 | Deletes exactly the sessions that are not active at its reading of the clock. |
| Verdicts.BeginVerdict | internal/auth/service.go:432-457 | An enrollment starts exactly if 2FA is off; what is stored opens to exactly the secret that is handed out, and the enrollment is pending. |
| Verdicts.CancelVerdict | internal/auth/service.go:511-521 | Afterwards no enrollment is pending; 2FA that is on stays on. |
| Verdicts.ConfirmVerdict | internal/auth/service.go:462-508 | A pending enrollment is confirmed exactly by a right code: 2FA on, confirmed at the reading, and no session of the user unrevoked but the kept one. A wrong code changes nothing but the log. |
| Verdicts.DisableVerdict | internal/auth/service.go:525-569 | 2FA is turned off exactly by a right code: no secret, no confirmation time, and no session of the user unrevoked but the kept one. A wrong code changes nothing but the log. |
| Rejections.GuessesAreRejections | internal/auth/service.go:252-370 | Along any calls the counted guesses at an account are exactly its rejected answers. |
| Rejections.RejectionsPerWindow | internal/auth/lockout.go:23-46 | Whatever calls are made, until somebody signs in to an account at most (2 MaxAttempts - 1) x (T / Duration + 1) passwords and codes for it are answered as wrong in time T. |
| Rejections.PlainRejectionRate | internal/auth/lockout.go:23-46 | With short challenges and one clock reading a check, at most MaxAttempts x (T / Duration + 1). |
| FailureLaw.Conservation | internal/auth/lockout.go:23-46 | With nothing assumed: the failures counted since the last completed login are MaxAttempts times the account_locked events since then, plus FailedLoginAttempts, plus what clearing expired locks erased. |
| StaleLock.StaleIffCountedLate | internal/auth/lockout.go:39-46 | ClearExpiredLock would change the counter exactly when a failure was counted while a lock that had run out was still stored. |
| StaleLock.CoverReachable | internal/auth/challenge.go:57-70 | With short challenges, every stored challenge of a user whose LockedUntil is set expires no later than LockedUntil. |
| StaleLock.PlainConservation | internal/auth/service.go:593-624 | Failures = MaxAttempts x locks + counter since the last completed login, if and only if no lock with a late count was cleared since. No assumption on challenge lifetimes. |
| GuessRate.GuessesPerWindow | internal/auth/lockout.go:23-46 | Without a completed login, wrong passwords and wrong codes counted in time T are at most MaxAttempts x (T / Duration + 1) plus what was erased, and always at most (2 MaxAttempts - 1) x (T / Duration + 1). |
| GuessRate.PlainRate | internal/auth/service.go:252-280 | If no failure is counted late, at most MaxAttempts x (T / Duration + 1) guesses, from every sound state in which the user is unlocked with counter 0. |
| GuessRate.LockStep | internal/auth/lockout.go:23-46 | How one label moves one user's lock and counter: counting, locking at MaxAttempts, clearing an expired lock, nothing else. |
| AuditReplay.ReplayAgrees | internal/auth/service.go:593-635 | In every reachable state the fold of a user's events gives enabled, confirmed-at, last login and lock, and the counter plus what cleared locks erased. |
| AuditReplay.IgnoresBestEffort | internal/auth/service.go:687-695 | Losing or gaining any best-effort entry (unknown username, attempt while locked out, failed enrollment or disable, challenge, logout, expiry) changes nothing in the fold. |
| AuditReplay.PlainReplay | internal/storage/postgres/migrations/0002_auth_events.sql:1-2 | The log rebuilds FailedLoginAttempts, TOTPEnabled, TOTPConfirmedAt, LastLoginAt and IsLocked at every later instant, if and only if no lock with a late count was cleared since the last login or lock; all but the counter always. |
| AtomicChecks.LawsWithOneReading | internal/auth/service.go:321-370 | With short challenges, conservation and replay hold outright if each code check reads one instant. |
| AtomicChecks.RateWithOneReading | internal/auth/service.go:321-370 | And so does the guess rate. |
| AtomicChecks.CallsWithOneReading | internal/auth/service.go:321-347 | Calls whose lookup and lock test read one instant go through runs of that kind. |
| StaleLock.LateCountStraddles | internal/auth/service.go:321-342 | With short challenges a failure is counted late exactly when the code check's two readings straddle the lock's deadline. |
| Witness.RaceBreaksPlainLaws | internal/auth/service.go:321-342 | A concrete run of nine service calls, with a valid configuration and short challenges, that breaks conservation, the rate and the replay. |
| Witness.LongChallengesBreakPlainLaws | internal/config/config.go:142-156 | A concrete run that breaks all three without any race, with a valid configuration whose challenges outlive the lock. |
| SessionHistory.DeadlinesRefineHistory | internal/auth/session.go:67-97 | For undivided resolves: at every reachable state and later instant a token resolves if and only if it is unrevoked, before issue + max lifetime, and no gap between two consecutive resolve attempts reached the idle timeout. |
| SessionHistory.FailsForever | internal/domain/session.go:25-38 | For undivided resolves: an issued token that does not resolve never resolves again, in any run from any sound state. |
| SessionHistory.EntitledAfterVisit | internal/auth/session.go:81-94 | One more resolve attempt, successful or not, changes what the history entitles a token to exactly as sliding the idle deadline does. |
| Justification.EverySessionEarned | internal/auth/service.go:252-317 | Every stored session was created by one login that found the user unlocked and, with 2FA off, verified the password; with 2FA on, verified a code against the secret then stored and redeemed a challenge whose password check was less than challengeTTL earlier. No challenge pays for two sessions. |
| Justification.RedeemedOnce | internal/auth/service.go:372-375 | A redeemed challenge is gone for good and its id is never issued again. |
| Justification.ChallengeOrigin | internal/auth/service.go:294-305 | Every stored challenge goes back to one accepted password of its user, challengeTTL before its deadline. |
| SecondFactor.Covered | internal/auth/service.go:491-507 | While 2FA is on, every unrevoked session of the user is the one kept by the confirming call or was created through CompleteTOTPChallenge. |
| SecondFactor.DisableSparesOne | internal/auth/service.go:551-568 | Disabling leaves at most the kept session unrevoked. |
| PurgeInvisible.PurgesChangeNoAnswer | internal/auth/session.go:136-140 | Two runs of calls that differ only in the purges inserted give the same answer to every other call, except that a revocation may fail in the run that still has a row to revoke. |
| PurgeInvisible.DeleteConditionIsInactive | internal/storage/postgres/session_repository.go:122-127 | The SQL delete condition is exactly the negation of IsActive. |
| PurgeInvisible.CallAlike | internal/storage/memory/store.go:209-222 | One call in two states that differ by purged rows and audit entries answers the same and keeps the states alike. |
| Interleaving.ResolveSucceedsIffNotEnded | internal/auth/session.go:67-96 | With anything between a shell's lookup and its Touch, the resolve succeeds if and only if nothing revoked or deleted that session in between. |
| Interleaving.RevokedStaysFrozen | internal/storage/memory/store.go:150-179 | RevokedAt, deadlines and LastSeenAt of a revoked session never change until the row is deleted, and it never comes back, under any interleaving of lookups and touches. |
| Interleaving.TouchMovesBackIffLate | internal/auth/session.go:81-94 | The last Touch wins: it moves the session's deadline back if and only if its lookup was earlier than the one stored and the absolute deadline does not hide the difference. |
| Interleaving.TouchRevivesIffRecent | internal/storage/memory/store.go:150-163 | After a Touch the token resolves if and only if the lookup behind it is less than the idle timeout ago and the absolute deadline has not passed. |
| Interleaving.ResolvesAgainIffRevivable | internal/auth/session.go:67-97 | A token that does not resolve now can resolve again, under some interleaving, if and only if some shell is between its lookup and its Touch of that very session, whose row is unrevoked, with a lookup less than the idle timeout ago and the absolute deadline not passed. |
| Interleaving.DeadAlong | internal/auth/session.go:67-97 | If there is no such shell, the token never resolves again, at any point of any interleaving. |
| SplitHistory.SplitDeadlinesRefineHistory | internal/auth/session.go:67-97 | Under every interleaving of lookups, touches and everything else, a token resolves at a later instant if and only if its visit history entitles it to and the visit recorded last is less than the idle timeout ago; LastSeenAt is that visit. |
| SplitHistory.NoTokenOutlivesItsHistory | internal/domain/session.go:25-38 | No token resolves at an instant at which its visit history does not entitle it to, whatever overlaps. |
| SplitHistory.StoreFallsShortBetweenDeadlines | internal/storage/memory/store.go:150-163 | Where the history entitles the token, it fails exactly on the instants between the idle deadline of the recorded visit and that of the latest one; if the two visits are one, store and history agree. |
| SplitHistory.LookupThenTouchIsResolve | internal/auth/session.go:67-97 | A lookup directly followed by its Touch is the undivided resolve, and so is a lookup that fails. |
| SplitHistory.SequentialStoreAgrees | internal/auth/session.go:67-97 | If every lookup is directly followed by its Touch, a token resolves if and only if its history entitles it to. |
| Overlap.LateTouchCutsShort | internal/auth/session.go:67-97 | Two service calls and two overlapping resolves after which the token fails although its visit history, computed from the moves, entitles it to resolve. |
| Overlap.LateTouchRevives | internal/storage/memory/store.go:150-163 | Two service calls and a late Touch in which a token fails and then, at the same instant, resolves again. |
| Interleaving.SystemOKAlong | internal/auth/session.go:67-96 | Every invariant of the core survives split resolves of any number of shells. |
| RoundTrip.RegisterThenSignIn | internal/auth/service.go:188-317 | A registered account signs in with its password, gets its own session, and has no previous login. |
| RoundTrip.SignInThenResolve | internal/auth/service.go:390-411 | Without a storage fault, the token of any login resolves to its user if and only if less than the idle timeout has passed. |
| RoundTrip.PasswordThenCode | internal/auth/service.go:294-375 | After a password step that asks for a code, and any calls by anybody that do not use its challenge up (codes mistyped meanwhile included), a right code before the deadline, for the account unlocked with 2FA on, signs the user in: its session is stored and answers exactly within the idle timeout, and the challenge is gone. |
| RoundTrip.EnrollThenConfirm | internal/auth/service.go:432-508 | After an enrollment that handed out a secret, and any calls that do not end or replace it, exactly a code of that secret turns 2FA on, with that secret stored; a wrong code leaves the enrollment waiting. |
| Activity.ListingIsLatestReversed | internal/storage/memory/store.go:239-260 | Whatever newest-first arrangement the sort produces, filtering, sorting and truncating lists the last n events of the user in reverse append order. |
| Activity.ReachableLogIsOrdered | internal/auth/service.go:690-695 | Along every run audit ids strictly increase and CreatedAt never decreases. |
| Activity.ArrangementIsUnique | internal/storage/memory/store.go:251-256 | Two newest-first arrangements of the same events are equal. |
| Challenges.LazyExpiryIsTransparent | internal/auth/challenge.go:49-86 | Under a non-decreasing clock the lazily evicting store answers every Find as a store that never evicts. |
| Challenges.MemoryChallengeStore.Save | internal/auth/challenge.go:49-55 | Sweeps exactly the expired entries, then stores the challenge. |
| Challenges.MemoryChallengeStore.Find | internal/auth/challenge.go:57-70 | Finds exactly the unexpired entry, and deletes an expired one. |
| Challenges.MemoryChallengeStore.EvictExpired | internal/auth/challenge.go:79-86 | The sweep leaves exactly the unexpired entries. |
| Lockout.RegisterFailure | internal/auth/lockout.go:23-35 | Counts up, or at MaxAttempts locks for Duration and restarts the counter. |
| Lockout.ClearExpiredLock | internal/auth/lockout.go:39-46 | Clears lock and counter exactly if a lock is stored and has run out. |
| Lockout.Reset | internal/auth/lockout.go:49-56 | Clears lock and counter, and reports whether that changed the record. |
| Store.Store.Enter | internal/storage/postgres/tx.go:31-46 | Begins a transaction, or joins the open one. |
| Store.Store.Leave | internal/storage/postgres/tx.go:41-56 | Only the outermost call commits; without a commit it restores the state at its begin. |
| Store.Store.CreateUser | internal/storage/memory/store.go:59-77 | Refuses a taken name without any change, else stores the row under the next id. |
| Store.Store.FindByUsername | internal/storage/memory/store.go:92-104 | The loop finds the one user of that name, or none. |
| Store.Store.FindByTokenHash | internal/storage/memory/store.go:136-148 | The loop finds the one session of that hash, or none. |
| Store.Store.Touch | internal/storage/memory/store.go:150-163 | Slides a row that is there and unrevoked; fails without a change otherwise. |
| Store.Store.Revoke | internal/storage/memory/store.go:165-179 | Revokes an unrevoked row, keeps the first revocation time of a revoked one, fails on a missing one. |
| Store.Store.RevokeMatching | internal/storage/memory/store.go:189-207 | The loop revokes exactly the user's unrevoked sessions but the excepted one, and counts them. |
| Store.Store.DeleteExpired | internal/storage/memory/store.go:209-222 | The loop deletes exactly the inactive rows, and counts them. |
| Store.Store.RecentForUser | internal/storage/memory/store.go:239-260 | The listing is a newest-first arrangement of the user's events cut off at the limit, and on a log in append order exactly the last ones in reverse. |
| Sessions.SessionManager.Issue | internal/auth/session.go:40-62 | Stores a session with both deadlines counted from its own clock reading, or fails without a change. |
| Sessions.SessionManager.Resolve | internal/auth/session.go:67-97 | Unknown, inactive and live tokens told apart; a live one is slid, capped by the absolute deadline. |
| Sessions.SessionManager.Revoke | internal/auth/session.go:101-119 | Ends the session behind the token; unknown and dead tokens are no error and no change. |
| Service.Service.RegisterUser | internal/auth/service.go:188-226 | The state it leaves and its answer are those of the specified call, under every fault. |
| Service.Service.Authenticate | internal/auth/service.go:231-318 | The same for the password step: unknown, locked, expired lock, wrong password, rehash, challenge, login. |
| Service.Service.CompleteTOTPChallenge | internal/auth/service.go:321-376 | The same for the code step, including the deletion of challenges that cannot be completed. |
| Service.Service.AbandonChallenge | internal/auth/service.go:380-385 | The same for abandoning a challenge. |
| Service.Service.ResolveSession | internal/auth/service.go:390-411 | The same for resolving a token and loading its owner. |
| Service.Service.Logout | internal/auth/service.go:414-427 | The same for logout. |
| Service.Service.BeginTOTPEnrollment | internal/auth/service.go:432-457 | The same for starting an enrollment. |
| Service.Service.ConfirmTOTPEnrollment | internal/auth/service.go:462-508 | The same for confirming it. |
| Service.Service.CancelTOTPEnrollment | internal/auth/service.go:511-521 | The same for cancelling it. |
| Service.Service.DisableTOTP | internal/auth/service.go:525-569 | The same for disabling the second factor. |
| Service.Service.PurgeExpiredSessions | internal/auth/service.go:580-582 | The same for the purge. |
| Service.Service.RecentActivity | internal/auth/service.go:572-577 | The last entries of the user, newest first; ten when the limit is not positive. |
| Service.Service.RecordFailure | internal/auth/service.go:593-635 | One failure counted, logged and, at MaxAttempts, locked with all sessions revoked, in one transaction; a failing operation leaves the store as it was. |
| Service.Service.CompleteLogin | internal/auth/service.go:637-677 | Failure state reset, session issued and login logged in one transaction; a failing operation leaves the store as it was. |
| ShellLaw.CallKeepsOneLive | internal/auth/session.go:67-97 | Whoever makes a call, at most the shell's current session is active among those it was issued. |
| ShellLaw.LoginBecomesCurrent | internal/cli/commands_auth.go:115-136 | A login of a shell without an active session leaves exactly the new one active, and its token is new. |
| ShellLaw.ExpiredIsOver | internal/cli/shell.go:159-175 | A session that the service calls expired is over; an answer that is neither that nor a live session takes a storage fault. |
| ShellLaw.LogoutEndsSession | internal/auth/service.go:414-427 | A logout that succeeds has ended the session, and only a storage fault makes it fail. |
| ShellLaw.ClosedForGood | internal/cli/shell.go:241-257 | Once a shell has no current session, none it was issued ever resolves again, whatever anybody calls. |
| CodePrompts.RejectedCodesAreBounded | internal/auth/service.go:355-370 | Of any calls among which the codes for one challenge are all rejected and nobody else moves the counter, fewer than MaxAttempts - FailedLoginAttempts are codes, and the reported attempts go down by one each time. |
| CodePrompts.PromptCounts | internal/auth/service.go:355-370 | After anything the others do that leaves the counter alone, a rejected code raises it by exactly one and reports what is left. |
| CodePrompts.PromptStartsKnown | internal/auth/service.go:294-313 | A login that asks for a code has just stored the challenge, for the user that it names. |
| Dialogues.CodesAreForOneChallenge | internal/cli/commands_auth.go:154-187 | What the code prompt of a login asks is about its one challenge, and every answer but the last is a rejected code. |
| Shell.Shell.Ask | internal/cli/shell.go:159-163 | One call of the shell, after anything the others do: the history ends with it, served from the state that everything before led to, and at most one session of the shell is active. |
| Shell.Shell.CompleteTwoFactor | internal/cli/commands_auth.go:154-187 | Each typed code is what the service is asked, for this challenge; a blank line and an interrupt abandon it; the loop ends with the first answer that is not a rejected code. If the others leave the account's counter alone, it makes at most MaxAttempts - FailedLoginAttempts calls, whatever is typed, and the reported attempts strictly decrease. |
| Shell.Shell.Login | internal/cli/commands_auth.go:95-150 | The password step is asked with exactly the given or typed name and the typed password, the code step only if it is asked for, and the shell is signed in, with the answered token, session and user, exactly if the last answer carries a session. |
| Shell.Shell.RegisterAccount | internal/cli/commands_auth.go:36-68 | Registers exactly the given or typed name with the typed password, if it was typed the same twice, and else asks nothing. |
| Shell.Shell.Logout | internal/cli/commands_account.go:255-263 | One logout of the cached token; the shell forgets the session exactly if the service reports it done, and otherwise stays signed in, which takes a storage fault. |
| Shell.Shell.EnableTwoFactor | internal/cli/commands_account.go:70-125 | One start; then the typed codes, at most three, for the signed-in user and keeping the current session, of which all but the last were rejected; then a look at the session if the last code was accepted, or the cancellation, on a blank line, an interrupt or the third rejection. |
| Shell.Shell.DisableTwoFactor | internal/cli/commands_account.go:146-182 | The typed codes, at most three, for the signed-in user and keeping the current session, of which all but the last were rejected, then a look at the session if the last one was accepted; a blank line stops without a call. |
| Shell.Shell.RefreshUser | internal/cli/commands_account.go:302-311 | One resolve of the current token; session and user are replaced exactly if it found the session live, and nothing else in the shell changes. |
| Shell.Shell.Revalidate | internal/cli/shell.go:159-175 | One resolve of the token; the shell stays signed in, with the session and user found, exactly if that found the session live, and is signed out otherwise. |
| Shell.Shell.Execute | internal/cli/shell.go:143-154 | Each command does exactly what its dialogue says of the words after its name and of what is typed, and a signed-in command runs only right after a successful resolve of the session it runs with. |
| Shell.Shell.Dispatch | internal/cli/shell.go:111-155 | A cached session is resolved first; a known command then runs, with the words after its name, exactly if it is in scope for what that resolve found. |
| Shell.Shell.Shutdown | internal/cli/shell.go:241-257 | One logout if a session is cached; leaves the shell signed out, its session ended unless a storage fault prevented it. |
| Shell.Shell.Forget | internal/cli/shell.go:165-174 | The shell forgets a session only when it is over, or when a storage fault hid its state; only the latter leaves an orphan. |
| Shell.Shell.Run | internal/cli/shell.go:62-106 | The lines typed are carried out one after the other, blank lines and interrupts passed over, until exit, the end of the input, a failed read or cancellation. At every point at most one session issued to the shell is active, apart from orphans, each of which a storage fault in its own resolve or logout explains; ended by exit, end of input or cancellation, none is. |
| Shell.State.Set | internal/cli/state.go:26-30 | Caches token, session and user. |
| Shell.State.Clear | internal/cli/state.go:38-42 | Signs out. |
| Registry.Registry.Register | internal/cli/command.go:63-74 | Succeeds exactly if none of the spellings is taken or repeated. Refused, it has listed exactly the commands before the refused one and indexed exactly their spellings and those of the refused command before the taken one. |
| Registry.TidyAfterRefusalIff | internal/cli/command.go:63-74 | After a refusal every indexed spelling belongs to a listed command if and only if it did before and the taken spelling is the refused command's own name. |
| Registry.RefusalLeavesSpelling | internal/cli/command.go:63-74 | Two concrete commands of which the second is refused for its alias, and is then found by its name although it is not listed. |
| Registry.Registry.Lookup | internal/cli/command.go:77-80 | Finds the command of any of its spellings, lower-cased. |
| Registry.Registry.Available | internal/cli/command.go:83-91 | The commands in scope, in registration order. |
| Registry.Registry.Names | internal/cli/command.go:95-103 | Exactly the primary names in scope, in byte order. |
| Registry.Registry.Suggest | internal/cli/command.go:106-115 | In byte order, exactly the names in scope that start with the input or are within two edits of it. |
| EditDistance.EditDistance | internal/cli/command.go:129-150 | The two reused rows compute the recursive distance, for all byte strings. |
| EditDistance.DistIsShortestScript | internal/cli/command.go:128-150 | The distance is the length of a shortest insert/delete/substitute script. |
| EditDistance.DistIsZeroOnlyOnEquals | internal/cli/command_test.go:176-183 | Zero exactly on equal inputs. |
| EditDistance.DistIsSymmetric | internal/cli/command_test.go:176-183 | Symmetric. |
| EditDistance.TriangleInequality | internal/cli/command.go:129-150 | The triangle inequality. |
| EditDistance.DistIsBounded | internal/cli/command.go:129-150 | Between the difference of the lengths and the longer length. |
| Migrations.LoadMigrations | internal/storage/postgres/migrate.go:156-188 | Succeeds exactly if every .sql file has a well-formed name and no version occurs twice, and gives the migrations in strictly ascending order. |
| Migrations.NamedFileParses | internal/storage/postgres/migrate.go:190-202 | A file named <digits>_<name>.sql parses to exactly that version and name. |
| Migrations.ParsesUnlessOneFails | internal/storage/postgres/migrate.go:162-176 | Reading fails exactly if the name of some .sql file does not parse; other entries do not matter. |
| Migrations.Schema.Migrate | internal/storage/postgres/migrate.go:39-85 | Commits exactly the missing migrations in list order, or on a failure a prefix of them; the lock is always released. |
| MigrationProtocol.CommittedIsPrefix | internal/storage/postgres/migrate.go:50-84 | For any number of processes, with failures and crashes at any step, what is committed is a prefix of the longest list, each migration once. |
| MigrationProtocol.FinishedIsComplete | internal/storage/postgres/migrate.go:73-84 | A call that returned left its whole list committed and reports exactly the last ones as run by itself. |
| MigrationProtocol.NextRunAppliesNothing | internal/storage/postgres/migrate.go:37-41 | Once a list is committed, a later call with it, or a shorter one, applies nothing, whatever the other processes do. |
| MigrationProtocol.MissingIsTheRest | internal/storage/postgres/migrate.go:73-84 | What one call finds missing of its list is exactly the rest after the committed prefix. |

## Left out

- Cryptography: password hashes, the secret cipher, code validation with its time steps, token hashing and random draws
  are uninterpreted functions and parameters; a hash verifies what it was made from, a sealed secret opens again and
  is empty only for an empty secret, a draw is fresh.
- The decoy hash and other timing behaviour: no functional effect.
- GuessRate.PlainRate: one direction only, because a late count does not force the bound to be exceeded;
  GuessRate.GuessesPerWindow is the bound that always holds.
- SessionHistory.DeadlinesRefineHistory: for undivided resolves, since overlapping ones break it
  (Overlap.LateTouchCutsShort); SplitHistory.SplitDeadlinesRefineHistory is the form for every interleaving.
- SessionHistory.FailsForever: likewise (Overlap.LateTouchRevives); Interleaving.ResolvesAgainIffRevivable is the form
  for every interleaving.
- A resolve's clock reading comes right after its row lookup in the code; the model takes the two as one step.
- Shell.Shell.Run: a read error other than an interrupt, the end of input or a cancelled context ends the loop without
  shutdown, in the model as in the code.
- Reading the body of an embedded migration file is taken to succeed.
- Two processes that read and write back the same user row at once: the service is stated for calls one after another.
- A commit whose outcome the client does not learn: a failed transaction of the service is one that did not commit. The
  migration protocol covers it as a commit followed by a failure or a crash.
- Migration lists that do not extend one another, and an unlock that fails while its connection lives on.
- UpdatedAt: written on every update, read by nothing that is modelled.
- Username and password rules, and name normalisation: parameters of Register and Authenticate.
- Terminal input and output, colours, the QR code, error wording, help texts, argument parsing of `activity`, command
  line editing and completion.
- Configuration loading, the SQL text beyond the delete condition, connection pools, row scanning.
- 64-bit overflow of ids, counters and durations.
