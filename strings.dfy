/** The string operations the handlers rely on, over Dafny strings of Unicode
    scalar values: ECMAScript's `trim` and `trimEnd`, `toLowerCase` restricted
    to the ASCII letters, and plain substring containment. */
module Strings {

  /** The code points ECMAScript's `String.prototype.trim` removes: the
      WhiteSpace set (tab, vertical tab, form feed, space, no-break space,
      byte-order mark and the other Space_Separator characters) and the
      LineTerminator set. */
  predicate IsWhitespace(c: char) {
    || c == '\t' || c == '\n' || c == '\U{000B}' || c == '\U{000C}' || c == '\r'
    || c == ' ' || c == '\U{00A0}' || c == '\U{1680}'
    || ('\U{2000}' <= c <= '\U{200A}')
    || c == '\U{2028}' || c == '\U{2029}' || c == '\U{202F}' || c == '\U{205F}'
    || c == '\U{3000}' || c == '\U{FEFF}'
  }

  predicate AllWhitespace(s: string) {
    forall i :: 0 <= i < |s| ==> IsWhitespace(s[i])
  }

  /** No whitespace at either end: the shape of every `trim` result. */
  predicate IsTrimmed(s: string) {
    s != [] ==> !IsWhitespace(s[0]) && !IsWhitespace(s[|s| - 1])
  }

  /** `String.prototype.trimStart`: drop the leading whitespace. */
  function TrimStart(s: string): (r: string)
    ensures |r| <= |s| && r == s[|s| - |r|..]
    ensures AllWhitespace(s[..|s| - |r|])
    ensures r != [] ==> !IsWhitespace(r[0])
  {
    if |s| > 0 && IsWhitespace(s[0]) then TrimStart(s[1..]) else s
  }

  /** `String.prototype.trimEnd`: drop the trailing whitespace. */
  function TrimEnd(s: string): (r: string)
    ensures |r| <= |s| && r == s[..|r|]
    ensures AllWhitespace(s[|r|..])
    ensures r != [] ==> !IsWhitespace(r[|r| - 1])
  {
    if |s| > 0 && IsWhitespace(s[|s| - 1]) then TrimEnd(s[..|s| - 1]) else s
  }

  /** `String.prototype.trim`: drop the whitespace at both ends. */
  function Trim(s: string): (r: string)
    ensures IsTrimmed(r)
    ensures |r| <= |s|
  {
    TrimStart(TrimEnd(s))
  }

  /** `toLowerCase` on one character, for the ASCII letters. */
  function LowerChar(c: char): (d: char)
    ensures 'A' <= c <= 'Z' ==> d as int == c as int + 32
    ensures !('A' <= c <= 'Z') ==> d == c
    ensures !('A' <= d <= 'Z')
  {
    if 'A' <= c <= 'Z' then (c as int + 32) as char else c
  }

  /** `String.prototype.toLowerCase`, for the ASCII letters. */
  function ToLower(s: string): (r: string)
    ensures |r| == |s|
    ensures forall i :: 0 <= i < |s| ==> r[i] == LowerChar(s[i])
  {
    seq(|s|, i requires 0 <= i < |s| => LowerChar(s[i]))
  }

  /** `needle` occurs in `hay` starting at index `i`. */
  predicate OccursAt(needle: string, hay: string, i: int) {
    0 <= i <= |hay| - |needle| && hay[i..i + |needle|] == needle
  }

  /** `needle` occurs in `hay` as a contiguous run of characters. */
  predicate IsSubstring(needle: string, hay: string) {
    exists i | 0 <= i <= |hay| :: OccursAt(needle, hay, i)
  }

  /** Case-insensitive containment, letters compared after lower-casing. */
  predicate ContainsIgnoreCase(hay: string, needle: string) {
    IsSubstring(ToLower(needle), ToLower(hay))
  }

  /** The text that `String.prototype.replace` with a string pattern puts in
      place of the match, for the replacement `template` (ECMAScript's
      GetSubstitution, with no capture groups): `$$` stands for one `$`,
      `$&` for the matched text, `` $` `` for the text before the match and
      `$'` for the text after it; every other character, including any other
      `$`, is copied as it is. */
  function ExpandReplacement(template: string, matched: string, before: string, after: string): string
  {
    if template == [] then []
    else if StartsWithPattern(template) then
      PatternText(template[1], matched, before, after) + ExpandReplacement(template[2..], matched, before, after)
    else
      [template[0]] + ExpandReplacement(template[1..], matched, before, after)
  }

  /** No `$` occurs in `s`, so it expands to itself. */
  predicate NoDollar(s: string) {
    forall i :: 0 <= i < |s| ==> s[i] != '$'
  }

  /** The template starts with one of the four `$` patterns. */
  predicate StartsWithPattern(template: string) {
    |template| >= 2 && template[0] == '$' && template[1] in "$&`'"
  }

  /** What the pattern `$` followed by `c` stands for. */
  function PatternText(c: char, matched: string, before: string, after: string): string {
    if c == '$' then "$"
    else if c == '&' then matched
    else if c == '`' then before
    else after
  }

  // ---------------------------------------------------------------------
  // Lemmas

  /** A prefix without `$` is copied unchanged into the expansion. */
  lemma {:induction false} ExpandPlainPrefix(p: string, t: string, matched: string, before: string, after: string)
    requires NoDollar(p)
    ensures ExpandReplacement(p + t, matched, before, after) == p + ExpandReplacement(t, matched, before, after)
  {
    if p == [] {
      assert p + t == t;
    } else {
      var c, rest := p[0], p[1..];
      assert p + t == [c] + (rest + t);
      ExpandPlainStep(c, rest + t, matched, before, after);
      ExpandPlainPrefix(rest, t, matched, before, after);
    }
  }

  /** A template without `$` expands to itself. */
  lemma ExpandPlain(template: string, matched: string, before: string, after: string)
    ensures NoDollar(template) ==> ExpandReplacement(template, matched, before, after) == template
  {
    if NoDollar(template) {
      ExpandPlainPrefix(template, [], matched, before, after);
      assert template + [] == template;
    }
  }

  /** A character other than `$` is copied as it is. */
  lemma ExpandPlainStep(c: char, t: string, matched: string, before: string, after: string)
    requires c != '$'
    ensures ExpandReplacement([c] + t, matched, before, after) == [c] + ExpandReplacement(t, matched, before, after)
  {
    assert ([c] + t)[0] == c && ([c] + t)[1..] == t;
  }

  /** Lower-casing changes no whitespace and makes no whitespace. */
  lemma LowerCharWhitespace(c: char)
    ensures IsWhitespace(LowerChar(c)) <==> IsWhitespace(c)
  {
  }

  lemma {:induction false} AllWhitespaceLower(s: string)
    ensures AllWhitespace(ToLower(s)) <==> AllWhitespace(s)
  {
    forall i | 0 <= i < |s| ensures IsWhitespace(ToLower(s)[i]) <==> IsWhitespace(s[i]) {
      LowerCharWhitespace(s[i]);
    }
  }

  lemma ToLowerConcat(a: string, b: string)
    ensures ToLower(a + b) == ToLower(a) + ToLower(b)
  {
    assert forall i :: 0 <= i < |a + b| ==> ToLower(a + b)[i] == (ToLower(a) + ToLower(b))[i];
  }

  lemma ToLowerSlice(s: string, i: int, j: int)
    requires 0 <= i <= j <= |s|
    ensures ToLower(s[i..j]) == ToLower(s)[i..j]
  {
  }

  /** Whitespace is left alone by `toLowerCase`. */
  lemma {:induction false} ToLowerOfWhitespace(s: string)
    requires AllWhitespace(s)
    ensures ToLower(s) == s
  {
    forall i | 0 <= i < |s| ensures ToLower(s)[i] == s[i] {
      assert !('A' <= s[i] <= 'Z');
    }
  }

  /** `trimEnd` yields the empty string exactly for all-whitespace input. */
  lemma {:induction false} TrimEndEmpty(s: string)
    ensures TrimEnd(s) == [] <==> AllWhitespace(s)
  {
    if AllWhitespace(s) && |s| > 0 {
      assert IsWhitespace(s[|s| - 1]);
      TrimEndEmpty(s[..|s| - 1]);
    }
  }

  /** Leading whitespace does not change `trimStart`. */
  lemma {:induction false} TrimStartSkipsPrefix(p: string, s: string)
    requires AllWhitespace(p)
    ensures TrimStart(p + s) == TrimStart(s)
  {
    if p != [] {
      assert (p + s)[1..] == p[1..] + s;
      TrimStartSkipsPrefix(p[1..], s);
    } else {
      assert p + s == s;
    }
  }

  /** Trailing whitespace does not change `trimEnd`. */
  lemma {:induction false} TrimEndSkipsSuffix(s: string, q: string)
    requires AllWhitespace(q)
    ensures TrimEnd(s + q) == TrimEnd(s)
  {
    if q != [] {
      assert (s + q)[..|s + q| - 1] == s + q[..|q| - 1];
      TrimEndSkipsSuffix(s, q[..|q| - 1]);
    } else {
      assert s + q == s;
    }
  }

  /** Leading whitespace does not change `trim`, even when it is followed by
      nothing but whitespace. */
  lemma {:induction false} TrimSkipsPrefix(p: string, s: string)
    requires AllWhitespace(p)
    ensures Trim(p + s) == Trim(s)
  {
    if s == [] {
      assert p + s == p;
      TrimEndEmpty(p);
    } else if IsWhitespace(s[|s| - 1]) {
      var s' := s[..|s| - 1];
      assert (p + s)[..|p + s| - 1] == p + s';
      TrimSkipsPrefix(p, s');
    } else {
      TrimStartSkipsPrefix(p, s);
    }
  }

  /** `trim` ignores whitespace padding on both sides. */
  lemma TrimIgnoresPadding(p: string, s: string, q: string)
    requires AllWhitespace(p) && AllWhitespace(q)
    ensures Trim(p + s + q) == Trim(s)
  {
    assert p + s + q == (p + s) + q;
    TrimEndSkipsSuffix(p + s, q);
    TrimSkipsPrefix(p, s);
  }

  /** A string with no whitespace at its ends is its own `trim`. */
  lemma TrimOfTrimmed(s: string)
    requires IsTrimmed(s)
    ensures Trim(s) == s
  {
  }

  /** `trim` is idempotent. */
  lemma TrimIdempotent(s: string)
    ensures Trim(Trim(s)) == Trim(s)
  {
    TrimOfTrimmed(Trim(s));
  }

  /** Every string is its `trim` padded with whitespace on both sides. */
  lemma TrimSplit(s: string) returns (p: string, q: string)
    ensures AllWhitespace(p) && AllWhitespace(q)
    ensures s == p + Trim(s) + q
  {
    var e := TrimEnd(s);
    q := s[|e|..];
    p := e[..|e| - |TrimStart(e)|];
    SplitAt(s, |e|);
    SplitAt(e, |p|);
  }

  lemma SplitAt(s: string, k: nat)
    requires k <= |s|
    ensures s == s[..k] + s[k..]
  {
  }

  /** Lower-casing and trimming commute, so `toLowerCase().trim()` is the
      lower-cased `trim`. */
  lemma TrimToLowerCommute(s: string)
    ensures Trim(ToLower(s)) == ToLower(Trim(s))
  {
    var p, q := TrimSplit(s);
    var t := Trim(s);
    ToLowerConcat(p + t, q);
    ToLowerConcat(p, t);
    AllWhitespaceLower(p);
    AllWhitespaceLower(q);
    TrimIgnoresPadding(ToLower(p), ToLower(t), ToLower(q));
    if t != [] {
      LowerCharWhitespace(t[0]);
      LowerCharWhitespace(t[|t| - 1]);
    }
    TrimOfTrimmed(ToLower(t));
  }

  /** A verbatim occurrence is also a case-insensitive one. */
  lemma SubstringIgnoringCase(needle: string, hay: string)
    requires IsSubstring(needle, hay)
    ensures ContainsIgnoreCase(hay, needle)
  {
    var i :| 0 <= i <= |hay| && OccursAt(needle, hay, i);
    assert i + |needle| <= |hay|;
    ToLowerSlice(hay, i, i + |needle|);
    assert OccursAt(ToLower(needle), ToLower(hay), i);
  }
}
