/** internal/cli/command.go, editDistance: the two-row table computes the Levenshtein metric. */
module EditDistance {

  newtype Byte = x: int | 0 <= x < 256

  function Min3(x: nat, y: nat, z: nat): nat {
    if x <= y && x <= z then x else if y <= z then y else z
  }

  function Cost(x: Byte, y: Byte): nat {
    if x == y then 0 else 1
  }

  function Init(s: seq<Byte>): seq<Byte>
    requires s != []
  {
    s[..|s| - 1]
  }

  function Last(s: seq<Byte>): Byte
    requires s != []
  {
    s[|s| - 1]
  }

  /** The recursive distance. */
  function Dist(a: seq<Byte>, b: seq<Byte>): nat
    decreases |a| + |b|
  {
    if a == [] then |b|
    else if b == [] then |a|
    else Min3(Dist(Init(a), b) + 1, Dist(a, Init(b)) + 1, Dist(Init(a), Init(b)) + Cost(Last(a), Last(b)))
  }

  /** The first n entries of a table row: the distances from s to the prefixes of b. */
  ghost predicate IsRow(row: array<nat>, s: seq<Byte>, b: seq<Byte>, n: nat)
    reads row
  {
    n <= row.Length == |b| + 1 && forall j | 0 <= j < n :: row[j] == Dist(s, b[..j])
  }

  lemma TableStep(a: seq<Byte>, b: seq<Byte>, i: nat, j: nat)
    requires 1 <= i <= |a| && 1 <= j <= |b|
    ensures Dist(a[..i], b[..j]) == Min3(Dist(a[..i - 1], b[..j]) + 1, Dist(a[..i], b[..j - 1]) + 1,
                                         Dist(a[..i - 1], b[..j - 1]) + Cost(a[i - 1], b[j - 1]))
  {
    assert Init(a[..i]) == a[..i - 1] && Init(b[..j]) == b[..j - 1];
  }

  lemma TableEdges(s: seq<Byte>)
    ensures Dist(s, []) == |s| && Dist([], s) == |s|
  {
  }

  /** One pass of the inner loop: from the row of a[..i - 1] to the row of a[..i]. */
  method FillRow(prev: array<nat>, curr: array<nat>, a: seq<Byte>, b: seq<Byte>, i: nat)
    requires 1 <= i <= |a| && prev != curr && curr.Length == |b| + 1
    requires IsRow(prev, a[..i - 1], b, |b| + 1)
    modifies curr
    ensures IsRow(curr, a[..i], b, |b| + 1)
  {
    hide Dist, Min3;
    TableEdges(a[..i]);
    curr[0] := i;
    for j := 1 to |b| + 1
      invariant IsRow(prev, a[..i - 1], b, |b| + 1)
      invariant IsRow(curr, a[..i], b, j)
    {
      var cost := if a[i - 1] == b[j - 1] then 0 else 1;
      TableStep(a, b, i, j);
      curr[j] := Min3(prev[j] + 1, curr[j - 1] + 1, prev[j - 1] + cost);
    }
  }

  /** The two reused rows compute the recursive distance, for all byte strings. */
  method EditDistance(a: seq<Byte>, b: seq<Byte>) returns (d: nat)
    ensures d == Dist(a, b)
  {
    hide Dist;
    if a == b {
      DistIsZeroOnlyOnEquals(a, b);
      return 0;
    }
    var prev, curr := new nat[|b| + 1], new nat[|b| + 1];
    for j := 0 to |b| + 1
      invariant IsRow(prev, [], b, j)
    {
      TableEdges(b[..j]);
      prev[j] := j;
    }
    for i := 1 to |a| + 1
      invariant IsRow(prev, a[..i - 1], b, |b| + 1)
    {
      FillRow(prev, curr, a, b, i);
      forall j | 0 <= j < prev.Length {
        prev[j] := curr[j];
      }
    }
    assert a[..|a|] == a && b[..|b|] == b;
    return prev[|b|];
  }

  // ----- It is a metric -----

  lemma {:induction false} DistIsSymmetric(a: seq<Byte>, b: seq<Byte>)
    ensures Dist(a, b) == Dist(b, a)
    decreases |a| + |b|
  {
    if a != [] && b != [] {
      DistIsSymmetric(Init(a), b);
      DistIsSymmetric(a, Init(b));
      DistIsSymmetric(Init(a), Init(b));
    }
  }

  /** Between the difference of the lengths and the longer length. */
  lemma {:induction false} DistIsBounded(a: seq<Byte>, b: seq<Byte>)
    ensures |a| - |b| <= Dist(a, b) && |b| - |a| <= Dist(a, b)
    ensures Dist(a, b) <= if |a| > |b| then |a| else |b|
    decreases |a| + |b|
  {
    if a != [] && b != [] {
      DistIsBounded(Init(a), b);
      DistIsBounded(a, Init(b));
      DistIsBounded(Init(a), Init(b));
    }
  }

  lemma {:induction false} DistIsZeroOnlyOnEquals(a: seq<Byte>, b: seq<Byte>)
    ensures Dist(a, b) == 0 <==> a == b
    decreases |a| + |b|
  {
    if a != [] && b != [] {
      DistIsZeroOnlyOnEquals(Init(a), Init(b));
      assert a == Init(a) + [Last(a)] && b == Init(b) + [Last(b)];
    }
  }

  lemma {:induction false} TriangleInequality(a: seq<Byte>, b: seq<Byte>, c: seq<Byte>)
    ensures Dist(a, c) <= Dist(a, b) + Dist(b, c)
    decreases |a| + |b| + |c|
  {
    if a == [] || c == [] {
      DistIsBounded(b, if a == [] then c else a);
      DistIsSymmetric(a, b);
    } else if b == [] {
      DistIsBounded(a, c);
    } else if Dist(a, b) == Dist(Init(a), b) + 1 {
      TriangleInequality(Init(a), b, c);
    } else if Dist(b, c) == Dist(b, Init(c)) + 1 {
      TriangleInequality(a, b, Init(c));
    } else {
      TriangleInequality(a, Init(b), c);
      TriangleInequality(a, Init(b), Init(c));
      TriangleInequality(Init(a), Init(b), c);
      TriangleInequality(Init(a), Init(b), Init(c));
    }
  }

  // ----- It is the length of a shortest edit script -----

  /** One edit at one position of the current string. */
  datatype Edit = Insert(at: nat, c: Byte) | Delete(at: nat) | Substitute(at: nat, c: Byte)

  predicate Fits(s: seq<Byte>, e: Edit) {
    if e.Insert? then e.at <= |s| else e.at < |s|
  }

  function Perform(s: seq<Byte>, e: Edit): seq<Byte>
    requires Fits(s, e)
  {
    match e
    case Insert(i, c) => s[..i] + [c] + s[i..]
    case Delete(i) => s[..i] + s[i + 1..]
    case Substitute(i, c) => s[i := c]
  }

  predicate Transforms(script: seq<Edit>, a: seq<Byte>, b: seq<Byte>) {
    if script == [] then a == b
    else Fits(a, script[0]) && Transforms(script[1..], Perform(a, script[0]), b)
  }

  lemma {:induction false} Compose(first: seq<Edit>, second: seq<Edit>, a: seq<Byte>, b: seq<Byte>, c: seq<Byte>)
    requires Transforms(first, a, b) && Transforms(second, b, c)
    ensures Transforms(first + second, a, c)
    decreases |first|
  {
    if first == [] {
      assert first + second == second;
    } else {
      Compose(first[1..], second, Perform(a, first[0]), b, c);
      assert (first + second)[1..] == first[1..] + second;
    }
  }

  /** A script works unchanged in front of a common ending. */
  lemma {:induction false} BeforeEnding(script: seq<Edit>, a: seq<Byte>, b: seq<Byte>, ending: seq<Byte>)
    requires Transforms(script, a, b)
    ensures Transforms(script, a + ending, b + ending)
    decreases |script|
  {
    if script != [] {
      var e := script[0];
      assert Perform(a + ending, e) == Perform(a, e) + ending;
      BeforeEnding(script[1..], Perform(a, e), b, ending);
    }
  }

  lemma ThenEdit(script: seq<Edit>, a: seq<Byte>, b: seq<Byte>, e: Edit)
    requires Transforms(script, a, b) && Fits(b, e)
    ensures Transforms(script + [e], a, Perform(b, e))
  {
    assert Transforms([e][1..], Perform(b, e), Perform(b, e));
    Compose(script, [e], a, b, Perform(b, e));
  }

  lemma EndWithInsert(script: seq<Edit>, a: seq<Byte>, b: seq<Byte>)
    requires b != [] && Transforms(script, a, Init(b))
    ensures Transforms(script + [Insert(|b| - 1, Last(b))], a, b)
  {
    var e := Insert(|b| - 1, Last(b));
    assert Perform(Init(b), e) == b;
    ThenEdit(script, a, Init(b), e);
  }

  lemma EndWithDelete(script: seq<Edit>, a: seq<Byte>, b: seq<Byte>)
    requires a != [] && Transforms(script, Init(a), b)
    ensures Transforms(script + [Delete(|b|)], a, b)
  {
    assert a == Init(a) + [Last(a)];
    BeforeEnding(script, Init(a), b, [Last(a)]);
    assert Perform(b + [Last(a)], Delete(|b|)) == b;
    ThenEdit(script, a, b + [Last(a)], Delete(|b|));
  }

  lemma EndWithBoth(script: seq<Edit>, a: seq<Byte>, b: seq<Byte>)
    requires a != [] && b != [] && Transforms(script, Init(a), Init(b))
    ensures if Last(a) == Last(b) then Transforms(script, a, b)
            else Transforms(script + [Substitute(|b| - 1, Last(b))], a, b)
  {
    assert a == Init(a) + [Last(a)] && b == Init(b) + [Last(b)];
    BeforeEnding(script, Init(a), Init(b), [Last(a)]);
    if Last(a) != Last(b) {
      var e := Substitute(|b| - 1, Last(b));
      assert Perform(Init(b) + [Last(a)], e) == b;
      ThenEdit(script, a, Init(b) + [Last(a)], e);
    }
  }

  lemma {:induction false} ScriptOfLengthDist(a: seq<Byte>, b: seq<Byte>) returns (script: seq<Edit>)
    ensures |script| == Dist(a, b) && Transforms(script, a, b)
    decreases |a| + |b|
  {
    hide Perform;
    if a == [] && b == [] {
      script := [];
    } else if a == [] || (b != [] && Dist(a, b) == Dist(a, Init(b)) + 1) {
      script := ScriptOfLengthDist(a, Init(b));
      EndWithInsert(script, a, b);
      script := script + [Insert(|b| - 1, Last(b))];
    } else if b == [] || Dist(a, b) == Dist(Init(a), b) + 1 {
      script := ScriptOfLengthDist(Init(a), b);
      EndWithDelete(script, a, b);
      script := script + [Delete(|b|)];
    } else {
      script := ScriptOfLengthDist(Init(a), Init(b));
      EndWithBoth(script, a, b);
      if Last(a) != Last(b) {
        script := script + [Substitute(|b| - 1, Last(b))];
      }
    }
  }

  lemma {:induction false} CommonEnding(a: seq<Byte>, b: seq<Byte>, ending: seq<Byte>)
    ensures Dist(a + ending, b + ending) <= Dist(a, b)
    decreases |ending|
  {
    if ending == [] {
      assert a + ending == a && b + ending == b;
    } else {
      CommonEnding(a, b, Init(ending));
      assert Init(a + ending) == a + Init(ending) && Init(b + ending) == b + Init(ending);
    }
  }

  lemma OneEditMovesByOne(s: seq<Byte>, e: Edit)
    requires Fits(s, e)
    ensures Dist(s, Perform(s, e)) <= 1
  {
    var p := s[..e.at];
    DistIsZeroOnlyOnEquals(p, p);
    match e {
      case Insert(i, c) =>
        assert s == p + s[i..] && Init(p + [c]) == p;
        CommonEnding(p, p + [c], s[i..]);
        OneAppended(p, c);
      case Delete(i) =>
        assert s == p + [s[i]] + s[i + 1..];
        CommonEnding(p + [s[i]], p, s[i + 1..]);
        OneAppended(p, s[i]);
      case Substitute(i, c) =>
        assert s == p + [s[i]] + s[i + 1..] && s[i := c] == p + [c] + s[i + 1..];
        CommonEnding(p + [s[i]], p + [c], s[i + 1..]);
        assert Init(p + [s[i]]) == p && Init(p + [c]) == p;
    }
  }

  lemma OneAppended(p: seq<Byte>, c: Byte)
    ensures Dist(p, p + [c]) <= 1 && Dist(p + [c], p) <= 1
  {
    DistIsZeroOnlyOnEquals(p, p);
    assert Init(p + [c]) == p;
  }

  lemma {:induction false} NoScriptIsShorter(script: seq<Edit>, a: seq<Byte>, b: seq<Byte>)
    requires Transforms(script, a, b)
    ensures Dist(a, b) <= |script|
    decreases |script|
  {
    if script == [] {
      DistIsZeroOnlyOnEquals(a, b);
    } else {
      var next := Perform(a, script[0]);
      OneEditMovesByOne(a, script[0]);
      NoScriptIsShorter(script[1..], next, b);
      TriangleInequality(a, next, b);
    }
  }

  /** The distance is the length of a shortest insert/delete/substitute script. */
  lemma DistIsShortestScript(a: seq<Byte>, b: seq<Byte>)
    ensures exists script :: |script| == Dist(a, b) && Transforms(script, a, b)
    ensures forall script | Transforms(script, a, b) :: Dist(a, b) <= |script|
  {
    var shortest := ScriptOfLengthDist(a, b);
    forall script | Transforms(script, a, b) ensures Dist(a, b) <= |script| {
      NoScriptIsShorter(script, a, b);
    }
  }
}
