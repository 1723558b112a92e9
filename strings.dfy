/** The few functions of Go's `strings` package that the modelled code relies on. */
module Strings {

  /** `strings.Contains(s, sub)`: `sub` occurs in `s` at some offset. */
  predicate Contains(s: string, sub: string): (b: bool)
    ensures b ==> |sub| <= |s|
    ensures sub == [] ==> b
  {
    assert sub == [] ==> sub <= s[0..];
    exists i :: 0 <= i <= |s| && sub <= s[i..]
  }

  lemma ContainsAt(s: string, sub: string, i: nat)
    requires i + |sub| <= |s| && s[i..i + |sub|] == sub
    ensures Contains(s, sub)
  {
    assert sub <= s[i..];
  }

  /** Whatever surrounds a string, the result still contains it. */
  lemma ContainsInfix(a: string, m: string, b: string)
    ensures Contains(a + m + b, m)
  {
    var s := a + m + b;
    assert s[|a|..|a| + |m|] == m;
    ContainsAt(s, m, |a|);
  }

  /** Every string occurs in itself. */
  lemma ContainsSelf(s: string)
    ensures Contains(s, s)
  {
    assert s[0..] == s;
  }

  /** An occurrence inside the middle part is an occurrence in the whole. */
  lemma ContainsWithin(a: string, m: string, b: string, x: string)
    requires Contains(m, x)
    ensures Contains(a + m + b, x)
  {
    var i :| 0 <= i <= |m| && x <= m[i..];
    var s := a + m + b;
    assert s[|a| + i..] == m[i..] + b;
    assert x <= s[|a| + i..];
  }

  /** `strings.TrimRight(s, "/")`: drops every trailing '/'. */
  function TrimTrailingSlashes(s: string): (r: string)
    ensures r <= s
    ensures r == [] || r[|r| - 1] != '/'
    ensures forall k :: |r| <= k < |s| ==> s[k] == '/'
  {
    if s == [] || s[|s| - 1] != '/' then s else TrimTrailingSlashes(s[..|s| - 1])
  }

  /** `strings.ReplaceAll(s, ".", "")`: every '.' deleted, the rest kept in order. */
  function DeleteDots(s: string): (r: string)
    ensures '.' !in r
    ensures |r| == |s| - multiset(s)['.']
  {
    if s == [] then []
    else
      assert multiset(s) == multiset([s[0]]) + multiset(s[1..]) by { assert s == [s[0]] + s[1..]; }
      if s[0] == '.' then DeleteDots(s[1..])
      else [s[0]] + DeleteDots(s[1..])
  }

  /** `strings.ReplaceAll(s, "\n", " ")`: a one-character to one-character rewrite. */
  function NewlinesToSpaces(s: string): (r: string)
    ensures |r| == |s|
    ensures '\n' !in r
    ensures forall k :: 0 <= k < |s| && s[k] != '\n' ==> r[k] == s[k]
    ensures forall k :: 0 <= k < |s| && s[k] == '\n' ==> r[k] == ' '
  {
    if s == [] then []
    else (if s[0] == '\n' then " " else [s[0]]) + NewlinesToSpaces(s[1..])
  }

  /** `strings.Join(parts, sep)`. */
  function Join(parts: seq<string>, sep: string): (r: string)
    ensures parts == [] ==> r == []
    ensures |parts| == 1 ==> r == parts[0]
    ensures |parts| > 1 ==> parts[0] + sep <= r
  {
    if parts == [] then []
    else if |parts| == 1 then parts[0]
    else parts[0] + sep + Join(parts[1..], sep)
  }

  /** Deleting dots distributes over concatenation, so it keeps every other character in order. */
  lemma {:induction false} DeleteDotsAppend(a: string, b: string)
    ensures DeleteDots(a + b) == DeleteDots(a) + DeleteDots(b)
  {
    if a == [] {
      assert a + b == b;
    } else {
      assert (a + b)[1..] == a[1..] + b;
      DeleteDotsAppend(a[1..], b);
    }
  }

  /** A string without dots is left unchanged. */
  lemma {:induction false} DeleteDotsNoDot(s: string)
    requires '.' !in s
    ensures DeleteDots(s) == s
  {
    if s != [] {
      assert '.' !in s[1..];
      DeleteDotsNoDot(s[1..]);
    }
  }

  /** Between two dot-free strings, the one dot is the only character deleted. */
  lemma DeleteDotsAround(a: string, b: string)
    requires '.' !in a && '.' !in b
    ensures DeleteDots(a + "." + b) == a + b
  {
    assert DeleteDots(a + ".") == a by {
      assert DeleteDots(".") == [];
      DeleteDotsNoDot(a);
      DeleteDotsAppend(a, ".");
    }
    assert DeleteDots(b) == b by {
      DeleteDotsNoDot(b);
    }
    DeleteDotsAppend(a + ".", b);
  }

  /** Every part, in order, occurs in the joined string. */
  lemma {:induction false} JoinContains(parts: seq<string>, sep: string, k: nat)
    requires k < |parts|
    ensures Contains(Join(parts, sep), parts[k])
  {
    var s := Join(parts, sep);
    if k == 0 {
      assert parts[0] <= s[0..];
    } else {
      JoinContains(parts[1..], sep, k - 1);
      var rest := Join(parts[1..], sep);
      var i :| 0 <= i <= |rest| && parts[k] <= rest[i..];
      var off := |parts[0] + sep|;
      assert s == parts[0] + sep + rest;
      assert s[off + i..] == rest[i..];
      assert parts[k] <= s[off + i..];
    }
  }
}
