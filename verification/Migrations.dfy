/** internal/storage/postgres/migrate.go: loading the migration list and running what is missing. */
module Migrations {
  import opened Domain

  datatype Migration = Migration(version: int, name: string, sql: string)

  predicate Ascending(ms: seq<Migration>) {
    forall i, j | 0 <= i < j < |ms| :: ms[i].version <= ms[j].version
  }

  predicate StrictlyAscending(ms: seq<Migration>) {
    forall i, j | 0 <= i < j < |ms| :: ms[i].version < ms[j].version
  }

  predicate DistinctVersions(ms: seq<Migration>) {
    forall i, j | 0 <= i < j < |ms| :: ms[i].version != ms[j].version
  }

  // ----- loadMigrations -----

  function Insert(m: Migration, sorted: seq<Migration>): seq<Migration> {
    if sorted == [] || m.version <= sorted[0].version then [m] + sorted
    else [sorted[0]] + Insert(m, sorted[1..])
  }

  lemma {:induction false} InsertAddsOne(m: Migration, sorted: seq<Migration>)
    ensures multiset(Insert(m, sorted)) == multiset(sorted) + multiset{m}
  {
    if sorted == [] || m.version <= sorted[0].version {
    } else {
      InsertAddsOne(m, sorted[1..]);
      assert sorted == [sorted[0]] + sorted[1..];
    }
  }

  lemma {:induction false} InsertKeepsOrder(m: Migration, sorted: seq<Migration>)
    requires Ascending(sorted)
    ensures Ascending(Insert(m, sorted))
  {
    if sorted == [] || m.version <= sorted[0].version {
    } else {
      InsertKeepsOrder(m, sorted[1..]);
      InsertAddsOne(m, sorted[1..]);
      forall x | x in Insert(m, sorted[1..]) ensures sorted[0].version <= x.version {
        assert x in multiset(Insert(m, sorted[1..]));
      }
    }
  }

  /** Stands for the library sort: an ascending permutation. */
  function Sort(files: seq<Migration>): (r: seq<Migration>)
    ensures Ascending(r) && multiset(r) == multiset(files)
  {
    if files == [] then []
    else
      var rest := Sort(files[1..]);
      InsertKeepsOrder(files[0], rest);
      InsertAddsOne(files[0], rest);
      assert files == [files[0]] + files[1..];
      Insert(files[0], rest)
  }

  lemma DistinctAreNotRepeated(ms: seq<Migration>, other: seq<Migration>)
    requires DistinctVersions(ms) && Ascending(other) && multiset(other) == multiset(ms)
    ensures StrictlyAscending(other)
  {
    forall i, j | 0 <= i < j < |other| ensures other[i].version < other[j].version {
      if other[i].version == other[j].version {
        assert other[i] in multiset(ms) && other[j] in multiset(ms);
        var x :| 0 <= x < |ms| && ms[x] == other[i];
        var y :| 0 <= y < |ms| && ms[y] == other[j];
        assert x == y;
        Repeated(other, i, j);
        OccursOnce(ms, x);
      }
    }
  }

  lemma Repeated(s: seq<Migration>, i: nat, j: nat)
    requires i < j < |s| && s[i] == s[j]
    ensures multiset(s)[s[i]] >= 2
  {
    assert s == s[..i] + [s[i]] + s[i + 1..j] + [s[j]] + s[j + 1..];
  }

  lemma OccursOnce(s: seq<Migration>, i: nat)
    requires DistinctVersions(s) && i < |s|
    ensures multiset(s)[s[i]] == 1
  {
    assert s == s[..i] + [s[i]] + s[i + 1..];
    assert s[i] !in s[..i] && s[i] !in s[i + 1..];
  }

  // ----- File names -----

  /** An entry of the embedded directory. */
  datatype File = File(name: string, isDirectory: bool, body: string)

  const SUFFIX := ".sql"

  predicate IsMigration(f: File) {
    !f.isDirectory && |f.name| >= |SUFFIX| && f.name[|f.name| - |SUFFIX|..] == SUFFIX
  }

  /** The position of the first underscore, or the length. */
  function Underscore(s: string): (i: nat)
    ensures i <= |s| && (i < |s| ==> s[i] == '_') && forall k | 0 <= k < i :: s[k] != '_'
  {
    if s == [] || s[0] == '_' then 0 else 1 + Underscore(s[1..])
  }

  predicate OnlyDigits(s: string) {
    forall i | 0 <= i < |s| :: '0' <= s[i] <= '9'
  }

  function Value(digits: string): nat
    requires OnlyDigits(digits)
  {
    if digits == [] then 0
    else
      var last := digits[|digits| - 1];
      assert '0' <= last;
      10 * Value(digits[..|digits| - 1]) + (last as int - '0' as int)
  }

  /** strconv.Atoi: an optional sign, then digits, within 64 bits. */
  function Atoi(s: string): Option<int> {
    var digits := if s != [] && (s[0] == '+' || s[0] == '-') then s[1..] else s;
    if digits == [] || !OnlyDigits(digits) then None
    else
      var magnitude: int := Value(digits);
      var value := if s[0] == '-' then -magnitude else magnitude;
      if -0x8000_0000_0000_0000 <= value < 0x8000_0000_0000_0000 then Some(value) else None
  }

  /** The version and the name in a file name like 0001_init.sql. */
  function ParseName(f: File): Option<Migration>
    requires IsMigration(f)
  {
    var base := f.name[..|f.name| - |SUFFIX|];
    var cut := Underscore(base);
    if cut == |base| then None
    else match Atoi(base[..cut])
      case None => None
      case Some(version) => Some(Migration(version, base[cut + 1..], f.body))
  }

  /** A file named as the format asks for parses to exactly its version and name. */
  lemma NamedFileParses(digits: string, name: string, body: string)
    requires digits != [] && OnlyDigits(digits) && Value(digits) < 0x8000_0000_0000_0000
    ensures
      var f := File(digits + "_" + name + SUFFIX, false, body);
      IsMigration(f) && ParseName(f) == Some(Migration(Value(digits), name, body))
  {
    var f := File(digits + "_" + name + SUFFIX, false, body);
    var base := digits + "_" + name;
    assert f.name[..|f.name| - |SUFFIX|] == base && f.name[|f.name| - |SUFFIX|..] == SUFFIX;
    assert base[|digits|] == '_' && forall k | 0 <= k < |digits| :: base[k] == digits[k];
    assert base[..|digits|] == digits && base[|digits| + 1..] == name;
  }

  /** The migrations among the files, in directory order, unless a file name does not parse. */
  function Parsed(files: seq<File>): Option<seq<Migration>> {
    if files == [] then Some([])
    else
      var last := files[|files| - 1];
      match Parsed(files[..|files| - 1])
      case None => None
      case Some(before) =>
        if !IsMigration(last) then Some(before)
        else match ParseName(last)
          case None => None
          case Some(m) => Some(before + [m])
  }

  lemma {:induction false} ParsesUnlessOneFails(files: seq<File>)
    ensures Parsed(files).Some? <==> forall f | f in files && IsMigration(f) :: ParseName(f).Some?
  {
    if files != [] {
      ParsesUnlessOneFails(files[..|files| - 1]);
      assert files == files[..|files| - 1] + [files[|files| - 1]];
    }
  }

  lemma {:induction false} FailsFromPrefix(files: seq<File>, i: nat)
    requires i <= |files| && Parsed(files[..i]).None?
    ensures Parsed(files).None?
  {
    if i < |files| {
      var init := files[..|files| - 1];
      assert init[..i] == files[..i];
      FailsFromPrefix(init, i);
    } else {
      assert files[..i] == files;
    }
  }

  /** The reading loop of loadMigrations: it gives up at the first .sql file whose name does not parse. */
  method ReadMigrations(files: seq<File>) returns (found: Option<seq<Migration>>)
    ensures found == Parsed(files)
  {
    var migrations: seq<Migration> := [];
    for i := 0 to |files|
      invariant Parsed(files[..i]) == Some(migrations)
    {
      assert files[..i + 1][..i] == files[..i];
      if IsMigration(files[i]) {
        var m := ParseName(files[i]);
        if m.None? {
          FailsFromPrefix(files, i + 1);
          return None;
        }
        migrations := migrations + [m.value];
      }
    }
    assert files[..|files|] == files;
    return Some(migrations);
  }

  /** The duplicate check of loadMigrations, on a sorted list. */
  method NoNeighboursRepeat(migrations: seq<Migration>) returns (ok: bool)
    requires Ascending(migrations)
    ensures ok <==> StrictlyAscending(migrations)
  {
    for i := 0 to |migrations|
      invariant forall k | 0 < k < i :: migrations[k - 1].version < migrations[k].version
    {
      if i > 0 && migrations[i - 1].version == migrations[i].version {
        return false;
      }
    }
    forall i, j | 0 <= i < j < |migrations| ensures migrations[i].version < migrations[j].version {
      assert migrations[i].version <= migrations[j - 1].version < migrations[j].version;
    }
    return true;
  }

  lemma StrictIffDistinct(ms: seq<Migration>, sorted: seq<Migration>)
    requires Ascending(sorted) && multiset(sorted) == multiset(ms)
    ensures StrictlyAscending(sorted) <==> DistinctVersions(ms)
  {
    if DistinctVersions(ms) {
      DistinctAreNotRepeated(ms, sorted);
    }
    if StrictlyAscending(sorted) {
      NotRepeatedAreDistinct(ms, sorted);
    }
  }

  /**
   * Loading succeeds exactly when every .sql file has a well-formed name and no version occurs twice, and then gives
   * the migrations in strictly ascending order.
   */
  method LoadMigrations(files: seq<File>) returns (ok: bool, migrations: seq<Migration>)
    ensures ok <==> Parsed(files).Some? && DistinctVersions(Parsed(files).value)
    ensures ok ==> StrictlyAscending(migrations) && multiset(migrations) == multiset(Parsed(files).value)
  {
    hide Parsed;
    var read := ReadMigrations(files);
    if read.None? {
      return false, [];
    }
    migrations := Sort(read.value);
    ok := NoNeighboursRepeat(migrations);
    StrictIffDistinct(read.value, migrations);
    if !ok {
      migrations := [];
    }
  }

  lemma NotRepeatedAreDistinct(ms: seq<Migration>, other: seq<Migration>)
    requires StrictlyAscending(other) && multiset(other) == multiset(ms)
    ensures DistinctVersions(ms)
  {
    forall i, j | 0 <= i < j < |ms| ensures ms[i].version != ms[j].version {
      assert ms[i] in multiset(other) && ms[j] in multiset(other);
      var x :| 0 <= x < |other| && other[x] == ms[i];
      var y :| 0 <= y < |other| && other[y] == ms[j];
      if ms[i].version == ms[j].version {
        assert x == y;
        Repeated(ms, i, j);
        OccursOnce(other, x);
      }
    }
  }

  // ----- Migrate, by one process -----

  predicate Applied(done: seq<Migration>, version: int) {
    exists i :: 0 <= i < |done| && done[i].version == version
  }

  /** The migrations of the list that have not run, in list order. */
  function Missing(list: seq<Migration>, done: seq<Migration>): seq<Migration> {
    if list == [] then []
    else
      var last := list[|list| - 1];
      Missing(list[..|list| - 1], done) + if Applied(done, last.version) then [] else [last]
  }

  /** The database: the committed rows of schema_migrations with their SQL, and the advisory lock. */
  class Schema {
    var committed: seq<Migration>
    var locked: bool

    constructor ()
      ensures committed == [] && !locked
    {
      committed, locked := [], false;
    }

    /**
     * One Migrate call that gets the lock. It may fail before its first transaction (early), and transaction
     * number commits fails, if the call gets that far; a failed transaction leaves no trace and ends the call.
     */
    method Migrate(list: seq<Migration>, early: bool, commits: nat) returns (ok: bool, ran: seq<Migration>)
      requires !locked && StrictlyAscending(list)
      modifies this
      ensures !locked && committed == old(committed) + ran
      ensures
        var missing := Missing(list, old(committed));
        && ok == (!early && |missing| <= commits)
        && ran == if ok then missing else if early then [] else missing[..commits]
    {
      locked := true;
      if early {
        locked := false;
        return false, [];
      }
      ghost var before := committed;
      var applied := set m | m in committed :: m.version;
      ran := [];
      for i := 0 to |list|
        invariant locked && committed == before + ran
        invariant ran == Missing(list[..i], before) && |ran| <= commits
      {
        assert list[..i + 1][..i] == list[..i];
        if list[i].version !in applied {
          if |ran| == commits {
            MissingGrows(list, i + 1, before);
            locked := false;
            return false, ran;
          }
          committed := committed + [list[i]];
          ran := ran + [list[i]];
        }
      }
      assert list[..|list|] == list;
      locked := false;
      return true, ran;
    }
  }

  lemma {:induction false} MissingGrows(list: seq<Migration>, i: nat, done: seq<Migration>)
    requires i <= |list|
    ensures Missing(list[..i], done) <= Missing(list, done)
    decreases |list|
  {
    if i < |list| {
      MissingGrows(list[..|list| - 1], i, done);
      assert list[..|list| - 1][..i] == list[..i];
    } else {
      assert list[..i] == list;
    }
  }
}
