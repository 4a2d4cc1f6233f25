/** internal/cli/command.go: the command registry of the shell. */
module Registry {
  import opened Domain
  import opened EditDistance

  /** Go strings are byte strings. */
  type Text = seq<Byte>

  datatype Scope = ScopeAlways | ScopeGuest | ScopeAuthenticated

  datatype Action = DoRegister | DoLogin | DoWhoAmI | DoEnable | DoDisable | DoActivity | DoLogout | DoHelp | DoExit

  datatype Command = Command(name: Text, aliases: seq<Text>, scope: Scope, action: Action)
  {
    function Names(): seq<Text> {
      [name] + aliases
    }
  }

  predicate InScope(scope: Scope, authenticated: bool) {
    match scope
    case ScopeGuest => !authenticated
    case ScopeAuthenticated => authenticated
    case ScopeAlways => true
  }

  /** Every name and alias of the commands, in order. */
  function Spellings(commands: seq<Command>): seq<Text> {
    if commands == [] then []
    else Spellings(commands[..|commands| - 1]) + commands[|commands| - 1].Names()
  }

  predicate NoRepeats(s: seq<Text>) {
    forall i, j | 0 <= i < j < |s| :: s[i] != s[j]
  }

  lemma {:induction false} SpellingsOfPrefix(commands: seq<Command>, k: nat)
    requires k < |commands|
    ensures Spellings(commands[..k]) + commands[k].Names() <= Spellings(commands)
  {
    var init := commands[..|commands| - 1];
    if k == |commands| - 1 {
      assert commands[..k] == init;
    } else {
      SpellingsOfPrefix(init, k);
      assert init[..k] == commands[..k];
    }
  }

  // ----- The order of the library sort -----

  /** Strings compare byte by byte, and a prefix comes first. */
  predicate AtMost(a: Text, b: Text) {
    a == [] || (b != [] && (a[0] < b[0] || (a[0] == b[0] && AtMost(a[1..], b[1..]))))
  }

  lemma {:induction false} Comparable(a: Text, b: Text)
    ensures AtMost(a, b) || AtMost(b, a)
  {
    if a != [] && b != [] {
      Comparable(a[1..], b[1..]);
    }
  }

  lemma {:induction false} Transitive(a: Text, b: Text, c: Text)
    requires AtMost(a, b) && AtMost(b, c)
    ensures AtMost(a, c)
  {
    if a != [] && a[0] == b[0] == c[0] {
      Transitive(a[1..], b[1..], c[1..]);
    }
  }

  predicate Sorted(s: seq<Text>) {
    forall i, j | 0 <= i < j < |s| :: AtMost(s[i], s[j])
  }

  function Insert(n: Text, s: seq<Text>): (r: seq<Text>)
    ensures multiset(r) == multiset(s) + multiset{n}
  {
    if s == [] || AtMost(n, s[0]) then [n] + s
    else
      assert s == [s[0]] + s[1..];
      [s[0]] + Insert(n, s[1..])
  }

  lemma {:induction false} InsertKeepsOrder(n: Text, s: seq<Text>)
    requires Sorted(s)
    ensures Sorted(Insert(n, s))
  {
    if s == [] {
    } else if AtMost(n, s[0]) {
      forall i | 0 <= i < |s| ensures AtMost(n, s[i]) {
        if i > 0 {
          Transitive(n, s[0], s[i]);
        }
      }
    } else {
      Comparable(n, s[0]);
      InsertKeepsOrder(n, s[1..]);
      forall x | x in Insert(n, s[1..]) ensures AtMost(s[0], x) {
        assert x in multiset(Insert(n, s[1..]));
      }
    }
  }

  /** Stands for the library sort. */
  function Sort(s: seq<Text>): (r: seq<Text>)
    ensures Sorted(r) && multiset(r) == multiset(s)
  {
    if s == [] then []
    else
      assert s == [s[0]] + s[1..];
      InsertKeepsOrder(s[0], Sort(s[1..]));
      Insert(s[0], Sort(s[1..]))
  }

  // ----- What the index knows -----

  /** None of the spellings is taken, and none occurs twice. */
  ghost predicate Free(index: map<Text, Command>, spellings: seq<Text>) {
    NoRepeats(spellings) && forall n | n in spellings :: n !in index
  }

  /** The index grew by exactly these spellings. */
  ghost predicate Grown(before: map<Text, Command>, index: map<Text, Command>, spellings: seq<Text>) {
    forall n :: n in index <==> n in before || n in spellings
  }

  ghost predicate FindsOne(index: map<Text, Command>, c: Command, names: seq<Text>) {
    forall n | n in names :: n in index && index[n] == c
  }

  /** Every spelling of the commands finds its command. */
  ghost predicate Finds(index: map<Text, Command>, commands: seq<Command>) {
    forall c | c in commands :: FindsOne(index, c, c.Names())
  }

  lemma Enter(before: map<Text, Command>, index: map<Text, Command>, commands: seq<Command>, done: seq<Text>, n: Text,
              c: Command)
    requires Finds(index, commands) && FindsOne(index, c, done) && n !in index
    requires Free(before, done) && Grown(before, index, done)
    ensures Finds(index[n := c], commands) && FindsOne(index[n := c], c, done + [n])
    ensures Free(before, done + [n]) && Grown(before, index[n := c], done + [n])
  {
    forall other | other in commands ensures FindsOne(index[n := c], other, other.Names()) {
      assert FindsOne(index, other, other.Names());
    }
  }

  /** More spellings are free after the first ones went in exactly if all of them were free together. */
  lemma FreeTogether(before: map<Text, Command>, index: map<Text, Command>, done: seq<Text>, more: seq<Text>)
    requires Free(before, done) && Grown(before, index, done)
    ensures Free(index, more) <==> Free(before, done + more)
  {
    var all := done + more;
    if Free(before, all) {
      forall n | n in more ensures n !in index {
        var j :| 0 <= j < |more| && more[j] == n;
        assert all[|done| + j] == n;
        assert forall i | 0 <= i < |done| :: all[i] == done[i];
      }
      forall i, j | 0 <= i < j < |more| ensures more[i] != more[j] {
        assert all[|done| + i] != all[|done| + j];
      }
    }
    if Free(index, more) {
      JoinedApart(done, more);
    }
  }

  lemma JoinedApart(s: seq<Text>, t: seq<Text>)
    requires NoRepeats(s) && NoRepeats(t) && forall n | n in t :: n !in s
    ensures NoRepeats(s + t)
  {
    forall i, j | 0 <= i < j < |s + t| ensures (s + t)[i] != (s + t)[j] {
      if i < |s| <= j {
        assert t[j - |s|] in t && s[i] in s;
      }
    }
  }

  lemma TakenIsTaken(index: map<Text, Command>, some: seq<Text>, all: seq<Text>)
    requires some <= all && Free(index, all)
    ensures Free(index, some)
  {
    forall n | n in some ensures n in all {
      var i :| 0 <= i < |some| && some[i] == n;
      assert all[i] == n;
    }
  }

  lemma NothingEntered(index: map<Text, Command>, c: Command)
    ensures Free(index, []) && Grown(index, index, []) && FindsOne(index, c, [])
  {
  }

  lemma NothingSpelled(index: map<Text, Command>)
    ensures Free(index, Spellings([])) && Grown(index, index, Spellings([]))
  {
  }

  lemma IsTaken(index: map<Text, Command>, n: Text)
    requires n in index
    ensures !Free(index, [n])
  {
    assert n in [n];
  }

  lemma GrownTwice(a: map<Text, Command>, b: map<Text, Command>, c: map<Text, Command>, s: seq<Text>, t: seq<Text>)
    requires Grown(a, b, s) && Grown(b, c, t)
    ensures Grown(a, c, s + t)
  {
  }

  lemma {:induction false} SpellingsAreFound(index: map<Text, Command>, commands: seq<Command>)
    requires Finds(index, commands)
    ensures forall n | n in Spellings(commands) :: n in index
  {
    if commands != [] {
      var init, last := commands[..|commands| - 1], commands[|commands| - 1];
      SpellingsAreFound(index, init);
      assert FindsOne(index, last, last.Names());
    }
  }

  lemma Registered(before: map<Text, Command>, index: map<Text, Command>, commands: seq<Command>, c: Command)
    requires Finds(before, commands) && Finds(index, commands) && NoRepeats(Spellings(commands))
    requires Free(before, c.Names()) && FindsOne(index, c, c.Names())
    ensures Spellings(commands + [c]) == Spellings(commands) + c.Names()
    ensures Finds(index, commands + [c]) && NoRepeats(Spellings(commands + [c]))
  {
    assert (commands + [c])[..|commands|] == commands;
    SpellingsAreFound(before, commands);
    JoinedApart(Spellings(commands), c.Names());
  }

  // ----- A refusal -----

  lemma {:induction false} SpellingsOver(a: seq<Command>, b: seq<Command>)
    ensures Spellings(a + b) == Spellings(a) + Spellings(b)
  {
    if b == [] {
      assert a + b == a;
    } else {
      var init, last := b[..|b| - 1], b[|b| - 1];
      SpellingsOver(a, init);
      assert (a + b)[..|a + b| - 1] == a + init && (a + b)[|a + b| - 1] == last;
      assert Spellings(b) == Spellings(init) + last.Names();
      assert Spellings(a + b) == Spellings(a + init) + last.Names();
    }
  }

  /**
   * Spelling number j of added[k] was taken. The commands before added[k] are registered; the index grew by their
   * spellings and by those of added[k] up to the taken one, and keeps what it held.
   */
  ghost predicate Refused(before: map<Text, Command>, earlier: seq<Command>, added: seq<Command>,
                          commands: seq<Command>, index: map<Text, Command>, taken: Text, k: nat, j: nat)
  {
    && k < |added| && j < |added[k].Names()| && taken == added[k].Names()[j] && taken in index
    && commands == earlier + added[..k]
    && Free(before, Spellings(added[..k]) + added[k].Names()[..j])
    && Grown(before, index, Spellings(added[..k]) + added[k].Names()[..j])
    && FindsOne(index, added[k], added[k].Names()[..j])
    && Kept(before, index)
  }

  ghost predicate Kept(before: map<Text, Command>, index: map<Text, Command>) {
    forall n | n in before :: n in index && index[n] == before[n]
  }

  /** Every indexed spelling belongs to a listed command. */
  ghost predicate Tidy(index: map<Text, Command>, commands: seq<Command>) {
    forall n | n in index :: n in Spellings(commands)
  }

  /**
   * A refusal leaves the registry tidy if and only if it was tidy and the taken spelling is the refused command's
   * own name, which is so exactly if that name was taken already.
   */
  lemma TidyAfterRefusalIff(before: map<Text, Command>, earlier: seq<Command>, added: seq<Command>,
                            commands: seq<Command>, index: map<Text, Command>, taken: Text, k: nat, j: nat)
    requires Finds(before, earlier) && Refused(before, earlier, added, commands, index, taken, k, j)
    ensures Tidy(index, commands) <==> Tidy(before, earlier) && j == 0
    ensures j == 0 <==> added[k].name in before || added[k].name in Spellings(added[..k])
  {
    hide Finds, FindsOne;
    var names, listed := added[k].Names(), Spellings(added[..k]);
    SpellingsAreFound(before, earlier);
    SpellingsOver(earlier, added[..k]);
    if j > 0 {
      assert (listed + names[..j])[|listed|] == added[k].name;
      assert added[k].name in listed + names[..j];
      forall i | 0 <= i < |listed| ensures listed[i] != added[k].name {
        assert (listed + names[..j])[i] == listed[i];
      }
    } else {
      assert names[..0] == [] && listed + [] == listed;
    }
    forall n | n in listed ensures n !in before {
      var i :| 0 <= i < |listed| && listed[i] == n;
      assert (listed + names[..j])[i] == n;
    }
  }

  const LIST := Command([108], [], ScopeAlways, DoHelp)
  const QUIT := Command([113], [[108]], ScopeAlways, DoExit)

  /** Registering `l`, then `q` with the alias `l`, is refused, and afterwards `q` finds a command that is not listed. */
  lemma RefusalLeavesSpelling()
    ensures !Free(map[], Spellings([LIST, QUIT]))
    ensures forall commands, index, taken, k, j | Refused(map[], [], [LIST, QUIT], commands, index, taken, k, j) ::
      commands == [LIST] && taken == [108] && [113] in index && index[[113]] == QUIT && !Tidy(index, commands)
  {
    var added := [LIST, QUIT];
    assert added[..0] == [] && added[..1] == [LIST] && added[..1][..0] == [];
    assert Spellings([]) == [] && Spellings([LIST]) == [[108]];
    assert Spellings(added) == [[108]] + QUIT.Names();
    var all := Spellings(added);
    assert all[0] == [108] && all[2] == [108];
    forall commands, index, taken, k, j | Refused(map[], [], added, commands, index, taken, k, j)
      ensures commands == [LIST] && taken == [108] && [113] in index && index[[113]] == QUIT && !Tidy(index, commands)
    {
      RefusedAtAlias(commands, index, taken, k, j);
    }
  }

  lemma RefusedAtAlias(commands: seq<Command>, index: map<Text, Command>, taken: Text, k: nat, j: nat)
    requires Refused(map[], [], [LIST, QUIT], commands, index, taken, k, j)
    ensures commands == [LIST] && taken == [108] && [113] in index && index[[113]] == QUIT && !Tidy(index, commands)
  {
    var added := [LIST, QUIT];
    assert added[..0] == [] && added[..1] == [LIST] && added[..1][..0] == [];
    assert Spellings([]) == [] && Spellings([LIST]) == [[108]];
    var names := added[k].Names();
    assert names[..0] == [] && names[..1] == [names[0]];
    TidyAfterRefusalIff(map[], [], added, commands, index, taken, k, j);
  }

  /** The commands that the current state offers, in registration order. */
  function Offered(commands: seq<Command>, authenticated: bool): seq<Command> {
    if commands == [] then []
    else
      var init, last := commands[..|commands| - 1], commands[|commands| - 1];
      Offered(init, authenticated) + if InScope(last.scope, authenticated) then [last] else []
  }

  lemma {:induction false} OfferedAreInScope(commands: seq<Command>, authenticated: bool, c: Command)
    ensures c in Offered(commands, authenticated) <==> c in commands && InScope(c.scope, authenticated)
  {
    if commands != [] {
      OfferedAreInScope(commands[..|commands| - 1], authenticated, c);
      assert commands == commands[..|commands| - 1] + [commands[|commands| - 1]];
    }
  }

  function NamesOf(commands: seq<Command>): seq<Text> {
    if commands == [] then [] else NamesOf(commands[..|commands| - 1]) + [commands[|commands| - 1].name]
  }

  lemma {:induction false} NamesOfAre(commands: seq<Command>, n: Text)
    ensures n in NamesOf(commands) <==> exists c :: c in commands && c.name == n
  {
    if commands != [] {
      NamesOfAre(commands[..|commands| - 1], n);
      assert commands == commands[..|commands| - 1] + [commands[|commands| - 1]];
    }
  }

  /** Registered, and offered in the given state. */
  ghost predicate IsOffered(commands: seq<Command>, authenticated: bool, n: Text) {
    exists c :: c in commands && InScope(c.scope, authenticated) && c.name == n
  }

  lemma OfferedNames(commands: seq<Command>, authenticated: bool, n: Text)
    ensures n in Sort(NamesOf(Offered(commands, authenticated))) <==> IsOffered(commands, authenticated, n)
  {
    var offered := Offered(commands, authenticated);
    NamesOfAre(offered, n);
    assert n in Sort(NamesOf(offered)) <==> n in multiset(Sort(NamesOf(offered)));
    forall c { OfferedAreInScope(commands, authenticated, c); }
  }

  class Registry {
    const lower: Text -> Text
    var commands: seq<Command>
    var index: map<Text, Command>

    /** Every spelling of a registered command finds that command. */
    ghost predicate Valid()
      reads this
    {
      Finds(index, commands) && NoRepeats(Spellings(commands))
    }

    constructor (lower: Text -> Text)
      ensures Valid() && commands == [] && index == map[] && this.lower == lower
    {
      this.lower := lower;
      commands, index := [], map[];
    }

    /** Enters the spellings of one command, up to the first that is taken, number j. */
    method Index(c: Command) returns (taken: Option<Text>, ghost j: nat)
      requires Valid()
      modifies `index
      ensures Valid() && Kept(old(index), index)
      ensures taken.None? <==> Free(old(index), c.Names())
      ensures if taken.None? then j == |c.Names()|
              else j < |c.Names()| && taken.value == c.Names()[j] && taken.value in index
      ensures Free(old(index), c.Names()[..j]) && Grown(old(index), index, c.Names()[..j])
      ensures FindsOne(index, c, c.Names()[..j])
    {
      hide NoRepeats, Finds, Free, Grown, FindsOne, Spellings;
      var names := c.Names();
      ghost var before := index;
      NothingEntered(before, c);
      assert names[..0] == [];
      for i := 0 to |names|
        invariant Valid() && Free(before, names[..i]) && Grown(before, index, names[..i]) && FindsOne(index, c, names[..i])
        invariant Kept(before, index)
      {
        assert names[..i + 1] == names[..i] + [names[i]];
        if names[i] in index {
          FreeTogether(before, index, names[..i], [names[i]]);
          IsTaken(index, names[i]);
          if Free(before, names) {
            TakenIsTaken(before, names[..i + 1], names);
          }
          return Some(names[i]), i;
        }
        Enter(before, index, commands, names[..i], names[i], c);
        index := index[names[i] := c];
      }
      assert names[..|names|] == names;
      return None, |names|;
    }

    /** Adds the commands, or stops at the first spelling that is taken. */
    method Register(added: seq<Command>) returns (taken: Option<Text>, ghost k: nat, ghost j: nat)
      requires Valid()
      modifies this
      ensures Valid()
      ensures taken.None? <==> Free(old(index), Spellings(added))
      ensures taken.None? ==>
        commands == old(commands) + added && Grown(old(index), index, Spellings(added)) && Kept(old(index), index)
      ensures taken.Some? ==> Refused(old(index), old(commands), added, commands, index, taken.value, k, j)
    {
      hide NoRepeats, Finds, Free, Grown, FindsOne;
      ghost var before, first := commands, index;
      NothingSpelled(first);
      assert added[..0] == [] && before + [] == before;
      for i := 0 to |added|
        invariant commands == before + added[..i] && Valid() && Kept(first, index)
        invariant Free(first, Spellings(added[..i])) && Grown(first, index, Spellings(added[..i]))
      {
        ghost var done, mid, names := Spellings(added[..i]), index, added[i].Names();
        SpellingsOfPrefix(added, i);
        taken, j := Index(added[i]);
        FreeTogether(first, mid, done, names);
        FreeTogether(first, mid, done, names[..j]);
        GrownTwice(first, mid, index, done, names[..j]);
        if taken.Some? {
          if Free(first, Spellings(added)) {
            TakenIsTaken(first, done + names, Spellings(added));
          }
          k := i;
          return;
        }
        assert names[..j] == names;
        Registered(mid, index, commands, added[i]);
        commands := commands + [added[i]];
        assert commands == before + added[..i + 1];
        assert added[..i + 1][..i] == added[..i];
      }
      assert added[..|added|] == added;
      return None, 0, 0;
    }

    method Lookup(name: Text) returns (found: Option<Command>)
      requires Valid()
      ensures found == if lower(name) in index then Some(index[lower(name)]) else None
      ensures forall c | c in commands && lower(name) in c.Names() :: found == Some(c)
    {
      return if lower(name) in index then Some(index[lower(name)]) else None;
    }

    method Available(authenticated: bool) returns (offered: seq<Command>)
      ensures offered == Offered(commands, authenticated)
    {
      offered := [];
      for i := 0 to |commands|
        invariant offered == Offered(commands[..i], authenticated)
      {
        assert commands[..i + 1][..i] == commands[..i];
        if InScope(commands[i].scope, authenticated) {
          offered := offered + [commands[i]];
        }
      }
      assert commands[..|commands|] == commands;
    }

    /** The primary names of the commands that the current state offers, in order. */
    method Names(authenticated: bool) returns (names: seq<Text>)
      ensures names == Sort(NamesOf(Offered(commands, authenticated)))
      ensures Sorted(names) && forall n :: n in names <==> IsOffered(commands, authenticated, n)
    {
      var offered := Available(authenticated);
      var unsorted: seq<Text> := [];
      for i := 0 to |offered|
        invariant unsorted == NamesOf(offered[..i])
      {
        assert offered[..i + 1][..i] == offered[..i];
        unsorted := unsorted + [offered[i].name];
      }
      assert offered[..|offered|] == offered;
      names := Sort(unsorted);
      forall n { OfferedNames(commands, authenticated, n); }
    }

    /** Offers, in order, exactly the names in scope that start with the input or are within two edits of it. */
    method Suggest(input: Text, authenticated: bool) returns (matches: seq<Text>)
      ensures Sorted(matches)
      ensures forall n :: n in matches <==>
        IsOffered(commands, authenticated, n) && (lower(input) <= n || Dist(n, lower(input)) <= 2)
    {
      hide Sorted, AtMost, IsOffered, Dist;
      var wanted := lower(input);
      var names := Names(authenticated);
      matches := [];
      EmptySorted();
      for i := 0 to |names|
        invariant Sorted(matches) && (forall n | n in matches :: n in names[..i])
        invariant forall n :: n in matches <==> n in names[..i] && (wanted <= n || Dist(n, wanted) <= 2)
      {
        var d := EditDistance.EditDistance(names[i], wanted);
        if wanted <= names[i] || d <= 2 {
          NextSorted(names, i, matches);
          matches := matches + [names[i]];
        }
      }
      assert names[..|names|] == names;
    }
  }

  lemma EmptySorted()
    ensures Sorted([])
  {
  }

  lemma NextSorted(names: seq<Text>, i: nat, matches: seq<Text>)
    requires Sorted(names) && i < |names| && Sorted(matches) && forall n | n in matches :: n in names[..i]
    ensures Sorted(matches + [names[i]])
  {
    forall k | 0 <= k < |matches| ensures AtMost(matches[k], names[i]) {
      assert matches[k] in names[..i];
    }
  }
}
