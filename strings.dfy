/** String helpers with the meaning of the JavaScript built-ins the bot uses. */
module Strings {
  import opened Wrappers

  /** `s.startsWith(prefix)`. */
  predicate StartsWith(s: string, prefix: string) {
    |prefix| <= |s| && s[..|prefix|] == prefix
  }

  /** `sub` occurs in `s` starting at index `k`. */
  predicate ContainsAt(s: string, sub: string, k: nat) {
    k + |sub| <= |s| && s[k..k + |sub|] == sub
  }

  /** `s.includes(sub)`. */
  ghost predicate Contains(s: string, sub: string) {
    exists k: nat :: ContainsAt(s, sub, k)
  }

  /** `s.indexOf(c)`, with `None` for -1: the first position holding `c`. */
  function IndexOf(s: string, c: char): (r: Option<nat>)
    ensures r.Some? ==> r.value < |s| && s[r.value] == c
    ensures r.Some? ==> forall j :: 0 <= j < r.value ==> s[j] != c
    ensures r.None? ==> forall j :: 0 <= j < |s| ==> s[j] != c
  {
    if s == [] then None
    else if s[0] == c then Some(0)
    else match IndexOf(s[1..], c)
      case None => None
      case Some(i) => Some(i + 1)
  }

  /** A character placed right after a prefix free of it is found there. */
  lemma IndexOfAfterPrefix(pre: string, c: char, post: string)
    requires forall j :: 0 <= j < |pre| ==> pre[j] != c
    ensures IndexOf(pre + [c] + post, c) == Some(|pre|)
  {
    var s := pre + [c] + post;
    assert s[|pre|] == c;
  }

  /** A string occurs in any string it begins. */
  lemma ContainsPrefix(sub: string, post: string)
    ensures Contains(sub + post, sub)
  {
    assert (sub + post)[0..|sub|] == sub;
    assert ContainsAt(sub + post, sub, 0);
  }

  /** A string occurs in any string it ends. */
  lemma ContainsSuffix(pre: string, sub: string)
    ensures Contains(pre + sub, sub)
  {
    assert (pre + sub)[|pre|..|pre| + |sub|] == sub;
    assert ContainsAt(pre + sub, sub, |pre|);
  }

  /** An occurrence survives appending more text. */
  lemma ContainsExtend(s: string, sub: string, post: string)
    requires Contains(s, sub)
    ensures Contains(s + post, sub)
  {
    var k: nat :| ContainsAt(s, sub, k);
    assert (s + post)[k..k + |sub|] == s[k..k + |sub|];
    assert ContainsAt(s + post, sub, k);
  }
}
