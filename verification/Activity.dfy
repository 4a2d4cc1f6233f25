/** The activity listing: filtering, sorting and truncating gives the latest events in reverse append order. */
module Activity {
  import opened Domain
  import opened Machine
  import opened Invariants

  /** The order that the listing sorts by: newest first, ties broken by the higher id. */
  predicate NewerThan(a: Event, b: Event) {
    if a.createdAt == b.createdAt then a.id > b.id else a.createdAt > b.createdAt
  }

  predicate NewestFirst(s: seq<Event>) {
    forall i, j | 0 <= i < j < |s| :: NewerThan(s[i], s[j])
  }

  predicate Ordered(s: seq<Event>) {
    forall i, j | 0 <= i < j < |s| :: s[i].id < s[j].id && s[i].createdAt <= s[j].createdAt
  }

  function OfUser(log: seq<Event>, userID: int): seq<Event> {
    if log == [] then []
    else OfUser(log[..|log| - 1], userID) + if log[|log| - 1].userID == Some(userID) then [log[|log| - 1]] else []
  }

  function Reverse(s: seq<Event>): (r: seq<Event>)
    ensures |r| == |s| && forall i | 0 <= i < |s| :: r[i] == s[|s| - 1 - i]
  {
    if s == [] then [] else [s[|s| - 1]] + Reverse(s[..|s| - 1])
  }

  function Prefix(s: seq<Event>, n: nat): seq<Event> {
    if |s| > n then s[..n] else s
  }

  function Suffix(s: seq<Event>, n: nat): seq<Event> {
    if |s| > n then s[|s| - n..] else s
  }

  lemma {:induction false} OfUserKeepsOrder(log: seq<Event>, userID: int)
    requires Ordered(log)
    ensures Ordered(OfUser(log, userID))
    ensures forall ev | ev in OfUser(log, userID) :: ev in log
  {
    if log != [] {
      var init, last := log[..|log| - 1], log[|log| - 1];
      OfUserKeepsOrder(init, userID);
      forall ev | ev in OfUser(init, userID) ensures ev.id < last.id && ev.createdAt <= last.createdAt {
        var k :| 0 <= k < |init| && init[k] == ev;
        assert log[k] == ev;
      }
    }
  }

  lemma {:induction false} ReverseIsPermutation(s: seq<Event>)
    ensures multiset(Reverse(s)) == multiset(s)
  {
    if s != [] {
      ReverseIsPermutation(s[..|s| - 1]);
      assert s == s[..|s| - 1] + [s[|s| - 1]];
    }
  }

  /** Sorting is determined: two newest-first arrangements of the same events are equal. */
  lemma {:induction false} ArrangementIsUnique(a: seq<Event>, b: seq<Event>)
    requires NewestFirst(a) && NewestFirst(b) && multiset(a) == multiset(b)
    ensures a == b
    decreases |a|
  {
    assert |a| == |multiset(a)| == |multiset(b)| == |b|;
    if a != [] {
      SameHead(a, b);
      assert a == [a[0]] + a[1..] && b == [b[0]] + b[1..];
      assert multiset(a) == multiset{a[0]} + multiset(a[1..]) && multiset(b) == multiset{b[0]} + multiset(b[1..]);
      assert multiset(a[1..]) == multiset(a) - multiset{a[0]};
      ArrangementIsUnique(a[1..], b[1..]);
    }
  }

  lemma SameHead(a: seq<Event>, b: seq<Event>)
    requires NewestFirst(a) && NewestFirst(b) && multiset(a) == multiset(b) && |a| > 0 && |b| > 0
    ensures a[0] == b[0]
  {
    assert a[0] in multiset(b) && b[0] in multiset(a);
    var i :| 0 <= i < |b| && b[i] == a[0];
    var j :| 0 <= j < |a| && a[j] == b[0];
    OneWay(a[0], b[0]);
  }

  lemma OneWay(x: Event, y: Event)
    ensures !(NewerThan(x, y) && NewerThan(y, x))
  {
  }

  /** Whatever sorted arrangement the sort produces, truncating it lists the last n events in reverse append order. */
  lemma ListingIsLatestReversed(log: seq<Event>, userID: int, sorted: seq<Event>, n: nat)
    requires Ordered(log) && NewestFirst(sorted) && multiset(sorted) == multiset(OfUser(log, userID))
    ensures Prefix(sorted, n) == Reverse(Suffix(OfUser(log, userID), n))
  {
    hide OfUser, Reverse;
    var mine := OfUser(log, userID);
    OfUserKeepsOrder(log, userID);
    ReverseIsPermutation(mine);
    ReverseOfOrdered(mine);
    ArrangementIsUnique(sorted, Reverse(mine));
  }

  lemma ReverseOfOrdered(s: seq<Event>)
    requires Ordered(s)
    ensures NewestFirst(Reverse(s))
  {
    hide Reverse;
  }

  /** The log of every reachable state is in append order, so the listing is too. */
  lemma ReachableLogIsOrdered(cfg: Config, t0: Time, tr: seq<Effect>)
    requires cfg.Valid() && Legal(cfg, Start(t0), tr)
    ensures Ordered(Run(cfg, Start(t0), tr).db.events)
  {
    hide Apply, Enabled;
    Reachable(cfg, t0, tr);
  }

  predicate DistinctIDs(s: seq<Event>) {
    forall i, j | 0 <= i < j < |s| :: s[i].id != s[j].id
  }

  lemma {:induction false} OfUserKeepsIDs(log: seq<Event>, userID: int)
    requires DistinctIDs(log)
    ensures DistinctIDs(OfUser(log, userID))
    ensures forall ev | ev in OfUser(log, userID) :: ev in log
  {
    if log != [] {
      var init, last := log[..|log| - 1], log[|log| - 1];
      OfUserKeepsIDs(init, userID);
      forall ev | ev in OfUser(init, userID) ensures ev.id != last.id {
        var k :| 0 <= k < |init| && init[k] == ev;
        assert log[k] == ev;
      }
    }
  }

  /** A newest-first arrangement of the user's events, cut off after n. */
  ghost predicate LatestOf(listing: seq<Event>, log: seq<Event>, userID: int, n: nat) {
    exists sorted :: NewestFirst(sorted) && multiset(sorted) == multiset(OfUser(log, userID)) && listing == Prefix(sorted, n)
  }

  function Place(ev: Event, sorted: seq<Event>): seq<Event> {
    if sorted == [] || NewerThan(ev, sorted[0]) then [ev] + sorted else [sorted[0]] + Place(ev, sorted[1..])
  }

  lemma {:induction false} PlaceAddsOne(ev: Event, sorted: seq<Event>)
    ensures multiset(Place(ev, sorted)) == multiset(sorted) + multiset{ev}
  {
    if sorted != [] && !NewerThan(ev, sorted[0]) {
      PlaceAddsOne(ev, sorted[1..]);
      assert sorted == [sorted[0]] + sorted[1..];
    }
  }

  lemma {:induction false} PlaceKeepsOrder(ev: Event, sorted: seq<Event>)
    requires NewestFirst(sorted) && forall x | x in sorted :: x.id != ev.id
    ensures NewestFirst(Place(ev, sorted))
  {
    if sorted != [] && !NewerThan(ev, sorted[0]) {
      PlaceKeepsOrder(ev, sorted[1..]);
      PlaceAddsOne(ev, sorted[1..]);
      forall x | x in Place(ev, sorted[1..]) ensures NewerThan(sorted[0], x) {
        assert x in multiset(Place(ev, sorted[1..]));
      }
    }
  }

  /** Stands for the library sort under the listing's order. */
  method SortNewestFirst(matches: seq<Event>) returns (sorted: seq<Event>)
    requires DistinctIDs(matches)
    ensures NewestFirst(sorted) && multiset(sorted) == multiset(matches)
  {
    sorted := [];
    for i := 0 to |matches|
      invariant NewestFirst(sorted) && multiset(sorted) == multiset(matches[..i])
    {
      assert matches[..i + 1] == matches[..i] + [matches[i]];
      forall x | x in sorted ensures x.id != matches[i].id {
        assert x in multiset(matches[..i]);
      }
      PlaceKeepsOrder(matches[i], sorted);
      PlaceAddsOne(matches[i], sorted);
      sorted := Place(matches[i], sorted);
    }
    assert matches[..|matches|] == matches;
  }
}
