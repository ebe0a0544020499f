/** The string operations the operator uses, with the facts about substrings that its notion of
    "this resource belongs to that service" rests on. */
module Text {

  predicate HasPrefix(s: string, p: string) {
    |p| <= |s| && s[..|p|] == p
  }

  predicate At(s: string, sub: string, i: nat) {
    i + |sub| <= |s| && forall k | 0 <= k < |sub| :: s[i + k] == sub[k]
  }

  /** strings.Contains */
  predicate Contains(s: string, sub: string) {
    exists i | 0 <= i <= |s| :: At(s, sub, i)
  }

  /** strings.Index, for a string that occurs. */
  function IndexFrom(s: string, sub: string, i: nat): (j: nat)
    requires exists k :: i <= k <= |s| && At(s, sub, k)
    ensures i <= j <= |s| && At(s, sub, j)
    ensures forall k :: i <= k < j ==> !At(s, sub, k)
    decreases |s| - i
  {
    if At(s, sub, i) then i else IndexFrom(s, sub, i + 1)
  }

  /** strings.Split, for a non-empty separator. */
  function Split(s: string, sep: string): (parts: seq<string>)
    requires sep != ""
    ensures |parts| >= 1
    ensures |parts| == 1 <==> !Contains(s, sep)
    ensures |parts| == 1 ==> parts == [s]
    decreases |s|
  {
    if Contains(s, sep) then
      var i := IndexFrom(s, sep, 0);
      [s[..i]] + Split(s[i + |sep|..], sep)
    else [s]
  }

  /** Splitting at a separator that a string starts with. */
  lemma SplitLeading(sep: string, rest: string)
    requires sep != ""
    ensures Split(sep + rest, sep) == [""] + Split(rest, sep)
  {
    var s := sep + rest;
    assert At(s, sep, 0);
    assert IndexFrom(s, sep, 0) == 0;
    assert s[..0] == "";
    assert s[|sep|..] == rest;
  }

  lemma ContainsMiddle(a: string, b: string, c: string)
    ensures Contains(a + b + c, b)
  {
    var s := a + b + c;
    assert At(s, b, |a|);
  }

  lemma ContainsTransitive(s: string, t: string, u: string)
    requires Contains(s, t) && Contains(t, u)
    ensures Contains(s, u)
  {
    var i: nat :| i <= |s| && At(s, t, i);
    var j: nat :| j <= |t| && At(t, u, j);
    forall k | 0 <= k < |u|
      ensures s[i + j + k] == u[k]
    {
      assert t[j + k] == u[k];
    }
    assert At(s, u, i + j);
  }

  lemma ContainsPart(a: string, b: string, sub: string)
    ensures Contains(a, sub) ==> Contains(a + b, sub)
    ensures Contains(b, sub) ==> Contains(a + b, sub)
  {
    if Contains(a, sub) {
      ContainsMiddle("", a, b);
      assert "" + a + b == a + b;
      ContainsTransitive(a + b, a, sub);
    }
    if Contains(b, sub) {
      ContainsMiddle(a, b, "");
      assert a + b + "" == a + b;
      ContainsTransitive(a + b, b, sub);
    }
  }

  lemma Covers(s: string, sub: string, i: nat, m: nat)
    requires m < |s|
    ensures At(s, sub, i) && i <= m < i + |sub| ==> s[m] in sub
  {
    if At(s, sub, i) && i <= m < i + |sub| {
      assert s[i + (m - i)] == sub[m - i];
    }
  }

  /** A separator that does not occur in `sub` keeps its occurrences on one side. */
  lemma ContainsApart(a: string, c: char, b: string, sub: string)
    requires sub != "" && c !in sub
    ensures Contains(a + [c] + b, sub) <==> Contains(a, sub) || Contains(b, sub)
  {
    var s := a + [c] + b;
    ContainsPart(a + [c], b, sub);
    ContainsPart(a, [c], sub);
    if Contains(s, sub) {
      var i: nat :| i <= |s| && At(s, sub, i);
      Covers(s, sub, i, |a|);
      if i + |sub| <= |a| {
        assert At(a, sub, i);
      } else {
        var j := i - |a| - 1;
        assert At(b, sub, j);
      }
    }
  }

  /** A separator that neither left part contains splits a string in one way only. */
  lemma SplitsOneWay(a: string, c: char, b: string, x: string, y: string)
    requires a + [c] + b == x + [c] + y && c !in a && c !in x
    ensures a == x && b == y
  {
    var s, t := a + [c] + b, x + [c] + y;
    assert s[|a|] == c && t[|x|] == c;
    assert forall k :: 0 <= k < |a| ==> s[k] == a[k] != c;
    assert forall k :: 0 <= k < |x| ==> t[k] == x[k] != c;
    assert |a| == |x|;
    assert s[..|a|] == a && t[..|x|] == x;
    assert s[|a| + 1..] == b && t[|x| + 1..] == y;
  }
}
