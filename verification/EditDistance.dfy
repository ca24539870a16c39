/**
 The OCR metric's edit distance: the rolling-row dynamic program computes, for all strings,
 the least number of single-character edits that turn one string into the other.
 */
module EditDistance {

  function Min(a: nat, b: nat): nat {
    if a <= b then a else b
  }

  function Front<T>(s: seq<T>): seq<T>
    requires s != []
  {
    s[..|s| - 1]
  }

  function Last<T>(s: seq<T>): T
    requires s != []
  {
    s[|s| - 1]
  }

  function Cost(x: char, y: char): nat {
    if x != y then 1 else 0
  }

  /** Levenshtein distance by recursion on the last characters. */
  function Lev(a: string, b: string): nat
    decreases |a| + |b|
  {
    if a == [] then |b|
    else if b == [] then |a|
    else Min(Min(Lev(Front(a), b) + 1, Lev(a, Front(b)) + 1),
             Lev(Front(a), Front(b)) + Cost(Last(a), Last(b)))
  }

  // ----- the dynamic program -----

  /** `row` holds the distances from `a` to every prefix of `b` up to length `|row| - 1`. */
  ghost predicate IsRow(row: seq<nat>, a: string, b: string) {
    |row| <= |b| + 1 && forall j :: 0 <= j < |row| ==> row[j] == Lev(a, b[..j])
  }

  function NextEntry(previous: seq<nat>, current: seq<nat>, x: char, y: char, j: nat): nat
    requires j + 1 < |previous| && j < |current|
  {
    Min(Min(previous[j + 1] + 1, current[j] + 1), previous[j] + Cost(x, y))
  }

  lemma RowExtends(previous: seq<nat>, current: seq<nat>, a: string, b: string, i: nat, j: nat)
    requires i < |a| && j < |b|
    requires |previous| == |b| + 1 && IsRow(previous, a[..i], b)
    requires |current| == j + 1 && IsRow(current, a[..i + 1], b)
    ensures IsRow(current + [NextEntry(previous, current, a[i], b[j], j)], a[..i + 1], b)
  {
    var u, v := a[..i + 1], b[..j + 1];
    assert Front(u) == a[..i] && Front(v) == b[..j];
    assert NextEntry(previous, current, a[i], b[j], j) == Lev(u, v);
  }

  lemma FirstRow(row: seq<nat>, b: string)
    requires |row| == |b| + 1 && forall k :: 0 <= k < |row| ==> row[k] == k
    ensures IsRow(row, [], b)
  {
  }

  lemma FirstEntry(a: string, b: string, i: nat)
    requires i < |a|
    ensures IsRow([i + 1], a[..i + 1], b)
  {
    assert b[..0] == [];
  }

  method Distance(a: string, b: string) returns (d: nat)
    ensures d == Lev(a, b)
  {
    var previous: seq<nat> := seq(|b| + 1, j => j);
    FirstRow(previous, b);
    assert a[..0] == [];
    for i := 0 to |a|
      invariant |previous| == |b| + 1 && IsRow(previous, a[..i], b)
    {
      var current: seq<nat> := [i + 1];
      FirstEntry(a, b, i);
      for j := 0 to |b|
        invariant |current| == j + 1 && IsRow(current, a[..i + 1], b)
      {
        RowExtends(previous, current, a, b, i, j);
        current := current + [NextEntry(previous, current, a[i], b[j], j)];
      }
      previous := current;
    }
    assert a[..|a|] == a && b[..|b|] == b;
    d := Last(previous);
  }

  // ----- single edits and edit scripts -----

  /** Inserting, deleting or substituting one character at one position. */
  datatype Edit = Insert(at: nat, c: char) | Delete(at: nat) | Substitute(at: nat, c: char)

  predicate Applies(e: Edit, s: string) {
    if e.Insert? then e.at <= |s| else e.at < |s|
  }

  function Apply(e: Edit, s: string): string
    requires Applies(e, s)
  {
    match e
    case Insert(at, c) => s[..at] + [c] + s[at..]
    case Delete(at) => s[..at] + s[at + 1..]
    case Substitute(at, c) => s[..at] + [c] + s[at + 1..]
  }

  /** `script` turns `a` into `b`. */
  predicate Turns(a: string, script: seq<Edit>, b: string)
    decreases |script|
  {
    if script == [] then a == b
    else Applies(script[0], a) && Turns(Apply(script[0], a), script[1..], b)
  }

  // ----- every script costs at least the distance -----

  /** Distances change by at most one when the last character is dropped. */
  lemma {:induction false} DropLast(a: string, b: string)
    requires a != []
    ensures Lev(a, b) <= Lev(Front(a), b) + 1
    ensures Lev(Front(a), b) <= Lev(a, b) + 1
    decreases |a| + |b|
  {
    if b != [] {
      DropLast(a, Front(b));
      if |a| > 1 {
        DropLast(Front(a), b);
        DropLast(Front(a), Front(b));
      }
    }
  }

  lemma OneCharApart(p: string, x: char, y: char, c: string)
    ensures Lev(p + [x], c) <= Lev(p + [y], c) + 1
    decreases |c|
  {
    assert Front(p + [x]) == p && Front(p + [y]) == p;
    if c != [] {
      OneCharApart(p, x, y, Front(c));
    }
  }

  /** One step of the recurrence on two strings with the same last character. */
  lemma {:induction false} SameLastApart(u: string, v: string, c: string)
    requires u != [] && v != [] && c != [] && Last(u) == Last(v)
    requires Lev(Front(u), c) <= Lev(Front(v), c) + 1
    requires Lev(u, Front(c)) <= Lev(v, Front(c)) + 1
    requires Lev(Front(u), Front(c)) <= Lev(Front(v), Front(c)) + 1
    ensures Lev(u, c) <= Lev(v, c) + 1
  {
  }

  /** Strings that differ in at most one character in the middle are at most one further from any string. */
  lemma {:induction false} MiddleApart(p: string, m: string, m': string, s: string, c: string)
    requires |m| <= 1 && |m'| <= 1
    ensures Lev(p + m + s, c) <= Lev(p + m' + s, c) + 1
    decreases |s| + |c|
  {
    var u, v := p + m + s, p + m' + s;
    if s == [] {
      assert u == p + m && v == p + m';
      if m == [] && m' != [] {
        assert Front(v) == u;
        DropLast(v, c);
      } else if m != [] && m' == [] {
        assert Front(u) == v;
        DropLast(u, c);
      } else if m != [] {
        assert m == [m[0]] && m' == [m'[0]];
        OneCharApart(p, m[0], m'[0], c);
      }
    } else if c != [] {
      assert Front(u) == p + m + Front(s) && Front(v) == p + m' + Front(s);
      MiddleApart(p, m, m', Front(s), c);
      MiddleApart(p, m, m', s, Front(c));
      MiddleApart(p, m, m', Front(s), Front(c));
      SameLastApart(u, v, c);
    }
  }

  lemma EditApart(e: Edit, a: string, c: string)
    requires Applies(e, a)
    ensures Lev(a, c) <= Lev(Apply(e, a), c) + 1
  {
    match e
    case Insert(at, ch) =>
      assert a == a[..at] + [] + a[at..];
      MiddleApart(a[..at], [], [ch], a[at..], c);
    case Delete(at) =>
      assert a == a[..at] + [a[at]] + a[at + 1..];
      assert Apply(e, a) == a[..at] + [] + a[at + 1..];
      MiddleApart(a[..at], [a[at]], [], a[at + 1..], c);
    case Substitute(at, ch) =>
      assert a == a[..at] + [a[at]] + a[at + 1..];
      MiddleApart(a[..at], [a[at]], [ch], a[at + 1..], c);
  }

  lemma {:induction false} SelfDistance(a: string)
    ensures Lev(a, a) == 0
  {
    if a != [] {
      SelfDistance(Front(a));
    }
  }

  /** No script is shorter than the distance. */
  lemma {:induction false} ScriptAtLeast(a: string, script: seq<Edit>, b: string)
    requires Turns(a, script, b)
    ensures Lev(a, b) <= |script|
    decreases |script|
  {
    if script == [] {
      SelfDistance(a);
    } else {
      ScriptAtLeast(Apply(script[0], a), script[1..], b);
      EditApart(script[0], a, b);
    }
  }

  // ----- and some script costs exactly the distance -----

  /** A script also works in front of a common last character. */
  lemma {:induction false} TurnsBefore(a: string, script: seq<Edit>, b: string, x: char)
    requires Turns(a, script, b)
    ensures Turns(a + [x], script, b + [x])
    decreases |script|
  {
    if script != [] {
      var e := script[0];
      assert Applies(e, a + [x]);
      assert Apply(e, a + [x]) == Apply(e, a) + [x];
      TurnsBefore(Apply(e, a), script[1..], b, x);
    }
  }

  lemma {:induction false} TurnsThen(a: string, s1: seq<Edit>, b: string, s2: seq<Edit>, c: string)
    requires Turns(a, s1, b) && Turns(b, s2, c)
    ensures Turns(a, s1 + s2, c)
    decreases |s1|
  {
    if s1 == [] {
      assert s1 + s2 == s2;
    } else {
      TurnsThen(Apply(s1[0], a), s1[1..], b, s2, c);
      assert (s1 + s2)[0] == s1[0] && (s1 + s2)[1..] == s1[1..] + s2;
    }
  }

  lemma OneEdit(e: Edit, a: string)
    requires Applies(e, a)
    ensures Turns(a, [e], Apply(e, a))
  {
    assert [e][1..] == [];
  }

  /** A script of exactly `Lev(a, b)` edits. */
  lemma {:induction false} BestScript(a: string, b: string) returns (script: seq<Edit>)
    ensures Turns(a, script, b) && |script| == Lev(a, b)
    decreases |a| + |b|
  {
    if a == [] {
      if b == [] {
        script := [];
      } else {
        script := BestScript(a, Front(b));
        script := AppendInsert(a, script, b);
      }
    } else if b == [] || Lev(a, b) == Lev(Front(a), b) + 1 {
      script := BestScript(Front(a), b);
      if b == [] {
        assert Lev(Front(a), b) == |a| - 1;
      }
      script := PrependDelete(a, script, b);
    } else if Lev(a, b) == Lev(a, Front(b)) + 1 {
      script := BestScript(a, Front(b));
      script := AppendInsert(a, script, b);
    } else {
      script := BestScript(Front(a), Front(b));
      script := MatchLast(a, script, b);
    }
  }

  lemma AppendInsert(a: string, s0: seq<Edit>, b: string) returns (script: seq<Edit>)
    requires b != [] && Turns(a, s0, Front(b))
    ensures Turns(a, script, b) && |script| == |s0| + 1
  {
    var e := Insert(|b| - 1, Last(b));
    assert Apply(e, Front(b)) == b;
    OneEdit(e, Front(b));
    TurnsThen(a, s0, Front(b), [e], b);
    script := s0 + [e];
  }

  lemma PrependDelete(a: string, s0: seq<Edit>, b: string) returns (script: seq<Edit>)
    requires a != [] && Turns(Front(a), s0, b)
    ensures Turns(a, script, b) && |script| == |s0| + 1
  {
    var e := Delete(|a| - 1);
    assert Apply(e, a) == Front(a);
    OneEdit(e, a);
    TurnsThen(a, [e], Front(a), s0, b);
    script := [e] + s0;
  }

  lemma MatchLast(a: string, s0: seq<Edit>, b: string) returns (script: seq<Edit>)
    requires a != [] && b != [] && Turns(Front(a), s0, Front(b))
    ensures Turns(a, script, b) && |script| == |s0| + Cost(Last(a), Last(b))
  {
    assert a == Front(a) + [Last(a)] && b == Front(b) + [Last(b)];
    TurnsBefore(Front(a), s0, Front(b), Last(a));
    if Last(a) == Last(b) {
      script := s0;
    } else {
      var mid := Front(b) + [Last(a)];
      var e := SubstituteLast(mid, b);
      TurnsThen(a, s0, mid, [e], b);
      script := s0 + [e];
    }
  }

  lemma SubstituteLast(mid: string, b: string) returns (e: Edit)
    requires b != [] && |mid| == |b| && Front(mid) == Front(b)
    ensures Turns(mid, [e], b)
  {
    e := Substitute(|b| - 1, Last(b));
    assert Apply(e, mid) == b;
    OneEdit(e, mid);
  }

  /** The distance is the length of a shortest edit script. */
  lemma DistanceIsLeastScript(a: string, b: string)
    ensures exists script :: Turns(a, script, b) && |script| == Lev(a, b)
    ensures forall script :: Turns(a, script, b) ==> Lev(a, b) <= |script|
  {
    var best := BestScript(a, b);
    forall script | Turns(a, script, b)
      ensures Lev(a, b) <= |script|
    {
      ScriptAtLeast(a, script, b);
    }
  }

  // ----- a metric -----

  lemma {:induction false} Symmetric(a: string, b: string)
    ensures Lev(a, b) == Lev(b, a)
    decreases |a| + |b|
  {
    if a != [] && b != [] {
      Symmetric(Front(a), b);
      Symmetric(a, Front(b));
      Symmetric(Front(a), Front(b));
    }
  }

  lemma ZeroOnlyWhenEqual(a: string, b: string)
    ensures Lev(a, b) == 0 <==> a == b
  {
    SelfDistance(a);
    if Lev(a, b) == 0 {
      var script := BestScript(a, b);
    }
  }

  lemma Triangle(a: string, b: string, c: string)
    ensures Lev(a, c) <= Lev(a, b) + Lev(b, c)
  {
    var s1 := BestScript(a, b);
    var s2 := BestScript(b, c);
    TurnsThen(a, s1, b, s2, c);
    ScriptAtLeast(a, s1 + s2, c);
  }

  /** The distance lies between the difference of the lengths and the longer length. */
  lemma {:induction false} LengthBounds(a: string, b: string)
    ensures |a| - |b| <= Lev(a, b) && |b| - |a| <= Lev(a, b)
    ensures Lev(a, b) <= |a| || Lev(a, b) <= |b|
    decreases |a| + |b|
  {
    if a != [] && b != [] {
      LengthBounds(Front(a), b);
      LengthBounds(a, Front(b));
      LengthBounds(Front(a), Front(b));
    }
  }
}
