/** The ordinal string operations of System.String that the model needs:
    StartsWith, Contains, Replace, upper-casing for OrdinalIgnoreCase, and
    IsNullOrWhiteSpace. */
module Strings {
  import opened Wrappers

  /** `s` begins with `p`, compared character by character. */
  predicate StartsWith(s: string, p: string) {
    |p| <= |s| && s[..|p|] == p
  }

  /** String.Contains: `p` occurs at some position of `s` (ordinal comparison). */
  predicate Contains(s: string, p: string)
    decreases |s|
  {
    StartsWith(s, p) || (|s| > 0 && Contains(s[1..], p))
  }

  /** String.Replace(pat, rep): scanning left to right, every occurrence of `pat`
      that does not overlap an earlier replaced one becomes `rep`.
      String.Replace throws for an empty `pat`; every caller passes a constant. */
  function Replace(s: string, pat: string, rep: string): string
    requires pat != []
    decreases |s|
  {
    if s == [] then []
    else if StartsWith(s, pat) then rep + Replace(s[|pat|..], pat, rep)
    else [s[0]] + Replace(s[1..], pat, rep)
  }

  /** A string without the pattern comes back unchanged. */
  lemma {:induction false} ReplaceAbsent(s: string, pat: string, rep: string)
    requires pat != []
    requires !Contains(s, pat)
    ensures Replace(s, pat, rep) == s
    decreases |s|
  {
    if s != [] {
      ReplaceAbsent(s[1..], pat, rep);
      assert [s[0]] + s[1..] == s;
    }
  }

  /** A pattern that starts the string, and occurs nowhere after it, is the one
      occurrence Replace rewrites. */
  lemma ReplaceAtStart(pat: string, rest: string, rep: string)
    requires pat != []
    requires !Contains(rest, pat)
    ensures Replace(pat + rest, pat, rep) == rep + rest
  {
    var s := pat + rest;
    assert StartsWith(s, pat) && s[|pat|..] == rest;
    ReplaceAbsent(rest, pat, rep);
  }

  lemma ConcatAssociates(a: string, b: string, c: string)
    ensures a + b + c == a + (b + c)
  {
  }

  /** No non-empty proper prefix of `p` is also a suffix of it: two occurrences
      of such a pattern can never overlap. */
  predicate Unbordered(p: string) {
    forall k :: 0 < k < |p| ==> p[..k] != p[|p| - k..]
  }

  /** A pattern that ends the string, and occurs nowhere before that, is the one
      occurrence Replace rewrites. */
  lemma {:induction false} ReplaceAtEnd(stem: string, pat: string, rep: string)
    requires pat != [] && Unbordered(pat)
    requires !Contains(stem, pat)
    ensures Replace(stem + pat, pat, rep) == stem + rep
    decreases |stem|
  {
    var s := stem + pat;
    if stem == [] {
      assert s == pat && s[|pat|..] == [];
    } else {
      assert !StartsWith(s, pat) by {
        if |stem| < |pat| {
          var k := |pat| - |stem|;
          assert s[|stem|..|pat|] == pat[..k];
          assert 0 < k < |pat| && pat[..k] != pat[|pat| - k..];
        }
      }
      assert s[1..] == stem[1..] + pat;
      ReplaceAtEnd(stem[1..], pat, rep);
      assert [stem[0]] + (stem[1..] + rep) == stem + rep;
    }
  }

  /** The upper-case form OrdinalIgnoreCase compares, for ASCII letters. */
  function UpperChar(c: char): char {
    if 'a' <= c <= 'z' then (c as int - 32) as char else c
  }

  /** The key under which an OrdinalIgnoreCase dictionary files a string. */
  function Fold(s: string): (r: string)
    ensures |r| == |s|
    ensures forall i :: 0 <= i < |s| ==> r[i] == UpperChar(s[i])
  {
    seq(|s|, i requires 0 <= i < |s| => UpperChar(s[i]))
  }

  /** String.Equals(a, b, StringComparison.OrdinalIgnoreCase). */
  predicate EqualsIgnoreCase(a: string, b: string) {
    |a| == |b| && forall i :: 0 <= i < |a| ==> UpperChar(a[i]) == UpperChar(b[i])
  }

  /** Two names share a folded key exactly when they are equal ignoring case. */
  lemma FoldKeysIgnoreCase(a: string, b: string)
    ensures Fold(a) == Fold(b) <==> EqualsIgnoreCase(a, b)
  {
    if EqualsIgnoreCase(a, b) {
      assert forall i :: 0 <= i < |a| ==> Fold(a)[i] == Fold(b)[i];
    }
  }

  /** Char.IsWhiteSpace: the Unicode space, line and paragraph separators
      (categories Zs, Zl and Zp), the control characters U+0009 to U+000D,
      and U+0085. */
  predicate IsWhiteSpace(c: char) {
    || '\t' <= c <= '\r'
    || c == ' ' || c == '\U{0085}' || c == '\U{00A0}' || c == '\U{1680}'
    || '\U{2000}' <= c <= '\U{200A}'
    || c == '\U{2028}' || c == '\U{2029}' || c == '\U{202F}' || c == '\U{205F}' || c == '\U{3000}'
  }

  /** String.IsNullOrWhiteSpace. */
  predicate IsNullOrWhiteSpace(s: Option<string>) {
    s.None? || forall i :: 0 <= i < |s.value| ==> IsWhiteSpace(s.value[i])
  }
}
