/**
 * The link rewrite of `fetchMessageText`: `slackLinkRe.ReplaceAllString(text, "$1")` with
 * `slackLinkRe` = `<([^|>]+)\|?[^>]*>`, under Go's leftmost-first matching.
 *
 * Scanning left to right, a match starts at a `<` exactly when the next character is
 * neither `|` nor `>` and a `>` follows somewhere later. The match then ends at the
 * first `>` after the `<`, since neither the group nor `[^>]*` can cross one. The
 * captured group is the greedy run after the `<` up to the first `|` or `>`. A `<`
 * that starts no match is kept, and the scan resumes one character later. The
 * negated classes match newlines too.
 */
module LinkMarkup {
  /** Position of the first `c` in `s`, or `|s|` when there is none. */
  function IndexOf(s: string, c: char): (i: nat)
    ensures i <= |s|
    ensures i < |s| ==> s[i] == c
    ensures c !in s[..i]
    ensures i == |s| <==> c !in s
  {
    if s == [] then 0
    else if s[0] == c then 0
    else
      var j := IndexOf(s[1..], c);
      assert s[..j + 1] == [s[0]] + s[1..][..j];
      j + 1
  }

  /** A match of the link pattern starts at the head of `s`. */
  predicate LinkAtHead(s: string)
  {
    |s| >= 2 && s[0] == '<' && s[1] != '|' && s[1] != '>' && '>' in s
  }

  /** `ReplaceAllString(s, "$1")`: every link markup replaced by its captured target. */
  function StripLinks(s: string): (r: string)
    ensures |r| <= |s|
    decreases |s|
  {
    if s == [] then []
    else if LinkAtHead(s) then
      var close := IndexOf(s, '>');
      var inner := s[1..close];
      inner[..IndexOf(inner, '|')] + StripLinks(s[close + 1..])
    else [s[0]] + StripLinks(s[1..])
  }

  /** Text without any `<` passes through unchanged. */
  lemma {:induction false} StripLinksNoMarkup(s: string)
    requires '<' !in s
    ensures StripLinks(s) == s
  {
    if s != [] {
      assert s[0] != '<';
      assert '<' !in s[1..];
      StripLinksNoMarkup(s[1..]);
      assert s == [s[0]] + s[1..];
    }
  }

  /** Text before the first `<` passes through unchanged. */
  lemma {:induction false} StripLinksPlainPrefix(plain: string, rest: string)
    requires '<' !in plain
    ensures StripLinks(plain + rest) == plain + StripLinks(rest)
  {
    if plain != [] {
      var s := plain + rest;
      assert s[0] == plain[0] && s[0] != '<';
      assert s[1..] == plain[1..] + rest;
      assert '<' !in plain[1..];
      StripLinksPlainPrefix(plain[1..], rest);
      assert plain == [plain[0]] + plain[1..];
    } else {
      assert plain + rest == rest;
    }
  }

  /** `<target|caption>` becomes `target`, and the scan goes on after the `>`. */
  lemma StripLinksLabelled(target: string, caption: string, rest: string)
    requires |target| > 0 && '|' !in target && '>' !in target && '>' !in caption
    ensures StripLinks("<" + target + "|" + caption + ">" + rest) == target + StripLinks(rest)
  {
    var s := "<" + target + "|" + caption + ">" + rest;
    var close := |target| + |caption| + 2;
    assert s[1] == target[0];
    assert s[..close] == "<" + target + "|" + caption;
    assert s[close] == '>';
    assert LinkAtHead(s);
    assert IndexOf(s, '>') == close;
    var inner := s[1..close];
    assert inner == target + "|" + caption;
    assert inner[|target|] == '|' && inner[..|target|] == target;
    assert IndexOf(inner, '|') == |target|;
    assert s[close + 1..] == rest;
  }

  /** `<target>` becomes `target`, and the scan goes on after the `>`. */
  lemma StripLinksBare(target: string, rest: string)
    requires |target| > 0 && '|' !in target && '>' !in target
    ensures StripLinks("<" + target + ">" + rest) == target + StripLinks(rest)
  {
    var s := "<" + target + ">" + rest;
    var close := |target| + 1;
    assert s[1] == target[0];
    assert s[..close] == "<" + target;
    assert s[close] == '>';
    assert LinkAtHead(s);
    assert IndexOf(s, '>') == close;
    var inner := s[1..close];
    assert inner == target;
    assert IndexOf(inner, '|') == |inner|;
    assert inner[..|inner|] == target;
    assert s[close + 1..] == rest;
  }

  /** A `<` followed by `|`, by `>`, or by no `>` at all starts no match and is kept. */
  lemma StripLinksNotALink(rest: string)
    requires rest == [] || rest[0] == '|' || rest[0] == '>' || '>' !in rest
    ensures StripLinks("<" + rest) == "<" + StripLinks(rest)
  {
    var s := "<" + rest;
    assert s[1..] == rest;
    assert '>' in s ==> '>' in rest;
  }
}
