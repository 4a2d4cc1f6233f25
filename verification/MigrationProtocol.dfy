/**
 * Any number of processes running Migrate against one database, with the advisory lock, a transaction
 * per migration, and failures and crashes at every step. The lists of the processes extend one another
 * at the end: each is a prefix of the longest one, full.
 */
module MigrationProtocol {
  import opened Migrations

  datatype Process =
    | Idle
    | Waiting(list: seq<Migration>)
    | Reading(list: seq<Migration>)
    | Working(list: seq<Migration>, applied: set<int>, next: nat, ran: seq<Migration>)
    | Finished(list: seq<Migration>, ran: seq<Migration>)

  datatype State = State(committed: seq<Migration>, holder: int, processes: seq<Process>)

  const NOBODY := -1

  datatype Move =
    | Call(p: nat, list: seq<Migration>)  // the process enters Migrate and asks for the lock
    | Acquire(p: nat)                     // pg_advisory_lock returns
    | ReadApplied(p: nat)                 // schema_migrations is created if missing and read
    | Skip(p: nat)                        // the next migration has run already
    | Commit(p: nat)                      // its transaction commits
    | Fail(p: nat)                        // a statement fails: the transaction is rolled back, the lock released
    | Return(p: nat)                      // the list is done, the lock is released
    | Crash(p: nat)                       // the connection goes away, and the lock with it

  function Versions(ms: seq<Migration>): set<int> {
    set m | m in ms :: m.version
  }

  predicate Holds(s: State, p: nat) {
    p < |s.processes| && s.holder == p
  }

  ghost predicate Allowed(full: seq<Migration>, s: State, m: Move) {
    m.p < |s.processes| &&
    var proc := s.processes[m.p];
    match m
    case Call(_, list) => (proc.Idle? || proc.Finished?) && list <= full
    case Acquire(_) => proc.Waiting? && s.holder == NOBODY
    case ReadApplied(_) => proc.Reading?
    case Skip(_) => proc.Working? && proc.next < |proc.list| && proc.list[proc.next].version in proc.applied
    case Commit(_) => proc.Working? && proc.next < |proc.list| && proc.list[proc.next].version !in proc.applied
    case Fail(_) => proc.Reading? || proc.Working?
    case Return(_) => proc.Working? && proc.next == |proc.list|
    case Crash(_) => true
  }

  function Put(s: State, p: nat, proc: Process): State
    requires p < |s.processes|
  {
    s.(processes := s.processes[p := proc])
  }

  function Released(s: State, p: nat): State {
    if s.holder == p then s.(holder := NOBODY) else s
  }

  ghost function Do(full: seq<Migration>, s: State, m: Move): State
    requires Allowed(full, s, m)
  {
    var proc := s.processes[m.p];
    match m
    case Call(p, list) => Put(s, p, Waiting(list))
    case Acquire(p) => Put(s, p, Reading(proc.list)).(holder := p)
    case ReadApplied(p) => Put(s, p, Working(proc.list, Versions(s.committed), 0, []))
    case Skip(p) => Put(s, p, proc.(next := proc.next + 1))
    case Commit(p) =>
      var mig := proc.list[proc.next];
      Put(s, p, proc.(next := proc.next + 1, ran := proc.ran + [mig])).(committed := s.committed + [mig])
    case Fail(p) => Released(Put(s, p, Idle), p)
    case Return(p) => Released(Put(s, p, Finished(proc.list, proc.ran)), p)
    case Crash(p) => Released(Put(s, p, Idle), p)
  }

  ghost predicate Plays(full: seq<Migration>, s: State, ms: seq<Move>)
    decreases |ms|, 0
  {
    ms == [] || (Plays(full, s, ms[..|ms| - 1]) && Allowed(full, Play(full, s, ms[..|ms| - 1]), ms[|ms| - 1]))
  }

  ghost function Play(full: seq<Migration>, s: State, ms: seq<Move>): State
    requires Plays(full, s, ms)
    decreases |ms|, 1
  {
    if ms == [] then s else Do(full, Play(full, s, ms[..|ms| - 1]), ms[|ms| - 1])
  }

  function Start(n: nat): State {
    State([], NOBODY, seq(n, _ => Idle))
  }

  // ----- The invariant -----

  /** Only the lock holder is inside, and it has run exactly what was missing when it read the table. */
  ghost predicate ProcessOK(full: seq<Migration>, s: State, p: nat)
    requires p < |s.processes| && s.committed <= full
  {
    var proc := s.processes[p];
    match proc
    case Idle => s.holder != p
    case Waiting(list) => list <= full && s.holder != p
    case Reading(list) => list <= full && s.holder == p
    case Working(list, applied, next, ran) =>
      && list <= full && s.holder == p
      && next <= |list| && |ran| <= |s.committed|
      && var found := |s.committed| - |ran|;
         && applied == Versions(full[..found])
         && ran == full[found..|s.committed|]
         && if next <= found then ran == [] else next == |s.committed|
    case Finished(list, ran) =>
      list <= s.committed && s.holder != p && |ran| <= |list| && ran == list[|list| - |ran|..]
  }

  ghost predicate Consistent(full: seq<Migration>, s: State) {
    && s.committed <= full
    && (s.holder == NOBODY || 0 <= s.holder < |s.processes|)
    && forall p: nat | p < |s.processes| :: ProcessOK(full, s, p)
  }

  lemma VersionsOfPrefix(full: seq<Migration>, n: nat, i: nat)
    requires StrictlyAscending(full) && n <= |full| && i < |full|
    ensures full[i].version in Versions(full[..n]) <==> i < n
  {
    if i < n {
      assert full[..n][i] == full[i];
    }
  }

  ghost predicate KeptAt(full: seq<Migration>, s: State, m: Move, p: nat)
    requires Allowed(full, s, m) && p < |s.processes|
  {
    var s' := Do(full, s, m);
    s'.committed <= full && |s.committed| <= |s'.committed| && ProcessOK(full, s', p)
  }

  lemma KeptByCommit(full: seq<Migration>, s: State, m: Move, p: nat)
    requires StrictlyAscending(full) && Consistent(full, s) && Allowed(full, s, m) && p < |s.processes| && m.Commit?
    ensures KeptAt(full, s, m, p)
  {
    hide Versions, StrictlyAscending;
    assert ProcessOK(full, s, p) && ProcessOK(full, s, m.p);
    var proc := s.processes[m.p];
    VersionsOfPrefix(full, |s.committed| - |proc.ran|, proc.next);
    assert s.committed + [proc.list[proc.next]] == full[..|s.committed| + 1];
  }

  lemma KeptByProgress(full: seq<Migration>, s: State, m: Move, p: nat)
    requires StrictlyAscending(full) && Consistent(full, s) && Allowed(full, s, m) && p < |s.processes|
    requires m.ReadApplied? || m.Skip? || m.Return?
    ensures KeptAt(full, s, m, p)
  {
    assert ProcessOK(full, s, p) && ProcessOK(full, s, m.p);
    var proc := s.processes[m.p];
    if m.Skip? {
      VersionsOfPrefix(full, |s.committed| - |proc.ran|, proc.next);
    } else if m.ReadApplied? {
      assert s.committed == full[..|s.committed|];
    }
  }

  lemma KeptOtherwise(full: seq<Migration>, s: State, m: Move, p: nat)
    requires StrictlyAscending(full) && Consistent(full, s) && Allowed(full, s, m) && p < |s.processes|
    requires !m.Commit? && !m.ReadApplied? && !m.Skip? && !m.Return?
    ensures KeptAt(full, s, m, p)
  {
    hide Versions, StrictlyAscending;
    assert ProcessOK(full, s, p) && ProcessOK(full, s, m.p);
  }

  lemma {:induction false} AlwaysConsistent(full: seq<Migration>, s: State, ms: seq<Move>)
    requires StrictlyAscending(full) && Consistent(full, s) && Plays(full, s, ms)
    ensures Consistent(full, Play(full, s, ms)) && |Play(full, s, ms).processes| == |s.processes|
    ensures |s.committed| <= |Play(full, s, ms).committed|
    decreases |ms|
  {
    if ms != [] {
      var before, m := Play(full, s, ms[..|ms| - 1]), ms[|ms| - 1];
      AlwaysConsistent(full, s, ms[..|ms| - 1]);
      forall p: nat | p < |before.processes| ensures KeptAt(full, before, m, p) && ProcessOK(full, Do(full, before, m), p) {
        if m.Commit? {
          KeptByCommit(full, before, m, p);
        } else if m.ReadApplied? || m.Skip? || m.Return? {
          KeptByProgress(full, before, m, p);
        } else {
          KeptOtherwise(full, before, m, p);
        }
      }
      assert KeptAt(full, before, m, m.p);
    }
  }

  /** At every point of every run, what is committed is a prefix of the longest list, each migration applied once. */
  lemma CommittedIsPrefix(full: seq<Migration>, n: nat, ms: seq<Move>)
    requires StrictlyAscending(full) && Plays(full, Start(n), ms)
    ensures Play(full, Start(n), ms).committed <= full
    ensures DistinctVersions(Play(full, Start(n), ms).committed)
  {
    AlwaysConsistent(full, Start(n), ms);
  }

  /** A call that returned has left every migration of its list committed, and reports the last ones it ran itself. */
  lemma FinishedIsComplete(full: seq<Migration>, n: nat, ms: seq<Move>, p: nat)
    requires StrictlyAscending(full) && Plays(full, Start(n), ms)
    requires p < |Play(full, Start(n), ms).processes| && Play(full, Start(n), ms).processes[p].Finished?
    ensures
      var s := Play(full, Start(n), ms);
      var done := s.processes[p];
      done.list <= s.committed && |done.ran| <= |done.list| && done.ran == done.list[|done.list| - |done.ran|..]
  {
    AlwaysConsistent(full, Start(n), ms);
    assert ProcessOK(full, Play(full, Start(n), ms), p);
  }

  /** A process that has not read the table yet, or read it when at least floor migrations were in. */
  ghost predicate ReadLate(s: State, p: nat, floor: nat) {
    p < |s.processes| &&
    match s.processes[p]
    case Working(_, _, _, ran) => |ran| + floor <= |s.committed|
    case Finished(list, ran) => |list| <= floor ==> ran == []
    case _ => true
  }

  lemma ReadsLate(full: seq<Migration>, s: State, m: Move, p: nat, floor: nat)
    requires StrictlyAscending(full) && Consistent(full, s) && Allowed(full, s, m)
    requires ReadLate(s, p, floor) && floor <= |s.committed|
    ensures ReadLate(Do(full, s, m), p, floor)
  {
    assert ProcessOK(full, s, p) && ProcessOK(full, s, m.p);
  }

  /**
   * Once a list is committed, nothing is left of it: a call that starts afterwards with that list, or a
   * shorter one, applies nothing, whatever the other processes do.
   */
  lemma {:induction false} NextRunAppliesNothing(full: seq<Migration>, s: State, ms: seq<Move>, p: nat, list: seq<Migration>)
    requires StrictlyAscending(full) && Consistent(full, s) && Plays(full, s, ms)
    requires list <= s.committed && p < |s.processes| && (s.processes[p].Idle? || s.processes[p].Waiting?)
    ensures
      var now := Play(full, s, ms).processes;
      p < |now| && (now[p].Working? || now[p].Finished?) && |now[p].list| <= |list| ==> now[p].ran == []
    ensures ReadLate(Play(full, s, ms), p, |list|)
    decreases |ms|
  {
    if ms != [] {
      var init := ms[..|ms| - 1];
      NextRunAppliesNothing(full, s, init, p, list);
      AlwaysConsistent(full, s, init);
      ReadsLate(full, Play(full, s, init), ms[|ms| - 1], p, |list|);
    }
    AlwaysConsistent(full, s, ms);
    assert ProcessOK(full, Play(full, s, ms), p);
  }

  lemma AppliedInPrefix(full: seq<Migration>, k: nat, i: nat)
    requires StrictlyAscending(full) && k <= |full| && i < |full|
    ensures Applied(full[..k], full[i].version) <==> i < k
  {
    if i < k {
      assert full[..k][i] == full[i];
    }
  }

  /** What one Migrate call finds missing, and so commits in order, is exactly the rest of its list. */
  lemma {:induction false} MissingIsTheRest(full: seq<Migration>, k: nat, n: nat)
    requires StrictlyAscending(full) && k <= |full| && n <= |full|
    ensures Missing(full[..n], full[..k]) == if n <= k then [] else full[k..n]
    decreases n
  {
    hide Applied, StrictlyAscending;
    if n > 0 {
      MissingIsTheRest(full, k, n - 1);
      AppliedInPrefix(full, k, n - 1);
      var list, done := full[..n], full[..k];
      assert list[..|list| - 1] == full[..n - 1] && list[|list| - 1] == full[n - 1];
      if n > k {
        assert full[k..n] == full[k..n - 1] + [full[n - 1]];
        assert Missing(list, done) == Missing(full[..n - 1], done) + [full[n - 1]];
      }
    }
  }
}
