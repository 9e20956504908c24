/**
 * The JavaScript string operations the description generator relies on:
 * `endsWith`, `split(sep)[0]`, `replace(pattern, replacement)` with a string
 * pattern, and `join`.
 */
module Strings {
  import opened Outcomes

  predicate StartsWith(s: string, prefix: string)
  {
    |prefix| <= |s| && s[..|prefix|] == prefix
  }

  predicate EndsWith(s: string, suffix: string)
  {
    |suffix| <= |s| && s[|s| - |suffix|..] == suffix
  }

  /** `pat` occurs in `s` starting at index `i`. */
  predicate Occurs(s: string, pat: string, i: int)
  {
    0 <= i && i + |pat| <= |s| && s[i..i + |pat|] == pat
  }

  predicate Contains(s: string, pat: string)
  {
    exists i :: 0 <= i <= |s| && Occurs(s, pat, i)
  }

  /** The first index at or after `from` where `pat` occurs, as `s.indexOf(pat, from)`. */
  function IndexFrom(s: string, pat: string, from: nat): (r: Option<nat>)
    requires from <= |s|
    ensures r.Some? ==> from <= r.value && Occurs(s, pat, r.value)
    ensures r.Some? ==> forall j :: from <= j < r.value ==> !Occurs(s, pat, j)
    ensures r.None? ==> forall j :: from <= j ==> !Occurs(s, pat, j)
    decreases |s| - from
  {
    if from + |pat| > |s| then None
    else if s[from..from + |pat|] == pat then Some(from)
    else if from == |s| then None
    else IndexFrom(s, pat, from + 1)
  }

  /** `s.indexOf(pat)`, with `None` for -1. */
  function IndexOf(s: string, pat: string): (r: Option<nat>)
    ensures r.Some? ==> Occurs(s, pat, r.value) && forall j :: 0 <= j < r.value ==> !Occurs(s, pat, j)
    ensures r.None? <==> !Contains(s, pat)
  {
    IndexFrom(s, pat, 0)
  }

  /** `s.split(sep)[0]` for a non-empty separator: the text before the first occurrence of `sep`, or all of `s`. */
  function Before(s: string, sep: string): (r: string)
    requires sep != ""
    ensures StartsWith(s, r)
    ensures forall j :: !Occurs(r, sep, j)
    ensures Contains(s, sep) ==> Occurs(s, sep, |r|) && forall j :: 0 <= j < |r| ==> !Occurs(s, sep, j)
    ensures !Contains(s, sep) ==> r == s
  {
    match IndexOf(s, sep)
    case None => s
    case Some(i) =>
      assert forall j :: Occurs(s[..i], sep, j) ==> Occurs(s, sep, j) by {
        forall j | Occurs(s[..i], sep, j) ensures Occurs(s, sep, j) {
          assert s[..i][j..j + |sep|] == s[j..j + |sep|];
        }
      }
      s[..i]
  }

  /** `s.replace(pat, rep)` with a string pattern: only the first occurrence is replaced. */
  function ReplaceFirst(s: string, pat: string, rep: string): (r: string)
    ensures !Contains(s, pat) ==> r == s
    ensures Contains(s, pat) ==> exists i :: Occurs(s, pat, i) && (forall j :: 0 <= j < i ==> !Occurs(s, pat, j)) &&
                                               r == s[..i] + rep + s[i + |pat|..]
  {
    match IndexOf(s, pat)
    case None => s
    case Some(i) => s[..i] + rep + s[i + |pat|..]
  }

  lemma AppendAssociative(a: string, b: string, c: string)
    ensures (a + b) + c == a + (b + c)
  {
  }

  /** A prefix of `x` stays a prefix of `x` extended by anything. */
  lemma PrefixOfExtension(x: string, y: string, z: string)
    requires StartsWith(x, y)
    ensures StartsWith(x + z, y)
  {
    assert (x + z)[..|y|] == x[..|y|];
  }

  /** The first `n` parts, concatenated in order. */
  function ConcatUpTo(parts: seq<string>, n: nat): string
    requires n <= |parts|
  {
    if n == 0 then "" else ConcatUpTo(parts, n - 1) + parts[n - 1]
  }

  /** The concatenation of the first `n` parts opens that of the first `m`, for `n <= m`. */
  lemma {:induction false} EarlierPartsComeFirst(parts: seq<string>, n: nat, m: nat)
    requires n <= m <= |parts|
    ensures StartsWith(ConcatUpTo(parts, m), ConcatUpTo(parts, n))
  {
    if n < m {
      EarlierPartsComeFirst(parts, n, m - 1);
      PrefixOfExtension(ConcatUpTo(parts, m - 1), ConcatUpTo(parts, n), parts[m - 1]);
    } else {
      var x := ConcatUpTo(parts, m);
      assert x[..|x|] == x;
    }
  }

  /** Part `i` sits in the whole concatenation right after the parts before it. */
  lemma PartFollowsEarlierParts(parts: seq<string>, i: nat)
    requires i < |parts|
    ensures var start := |ConcatUpTo(parts, i)|;
      var all := ConcatUpTo(parts, |parts|);
      && start + |parts[i]| <= |all|
      && all[start..start + |parts[i]|] == parts[i]
  {
    var before := ConcatUpTo(parts, i);
    var upTo := ConcatUpTo(parts, i + 1);
    EarlierPartsComeFirst(parts, i + 1, |parts|);
    var all := ConcatUpTo(parts, |parts|);
    assert all[..|upTo|] == upTo;
    assert all[|before|..|before| + |parts[i]|] == all[..|upTo|][|before|..];
  }

  /** `parts.join(sep)`. */
  function Join(parts: seq<string>, sep: string): string
  {
    if |parts| == 0 then ""
    else if |parts| == 1 then parts[0]
    else Join(parts[..|parts| - 1], sep) + sep + parts[|parts| - 1]
  }
}
