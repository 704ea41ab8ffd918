/** String normalisation used on both sides of the /chat contract:
    Python's `str.strip()` and `str.lower()` (app.py) and JavaScript's
    `String.prototype.trim()` (script.js), all over ASCII. */
module Text {

  /** Python `str.isspace()` restricted to ASCII: tab, line feed, vertical tab,
      form feed, carriage return, the four information separators 0x1C-0x1F,
      and space. */
  predicate IsPyWhitespace(c: char) {
    c == ' ' || ('\t' <= c <= '\r') || ('\U{1C}' <= c <= '\U{1F}')
  }

  /** The ASCII part of JavaScript's WhiteSpace and LineTerminator classes,
      which `trim()` removes: tab, line feed, vertical tab, form feed,
      carriage return and space. */
  predicate IsJsWhitespace(c: char) {
    c == ' ' || ('\t' <= c <= '\r')
  }

  /** The number of leading characters satisfying `ws`: all of them do, and
      the next one, if any, does not. */
  function LeadingCount(s: string, ws: char -> bool): (n: nat)
    ensures n <= |s|
    ensures forall i :: 0 <= i < n ==> ws(s[i])
    ensures n == |s| || !ws(s[n])
    decreases |s|
  {
    if s != [] && ws(s[0]) then 1 + LeadingCount(s[1..], ws) else 0
  }

  /** Removes trailing characters satisfying `ws`. */
  function DropTrailing(s: string, ws: char -> bool): (r: string)
    ensures |r| <= |s| && r == s[..|r|]
    ensures forall i :: |r| <= i < |s| ==> ws(s[i])
    ensures r == [] || !ws(r[|r| - 1])
    decreases |s|
  {
    if s != [] && ws(s[|s| - 1]) then DropTrailing(s[..|s| - 1], ws) else s
  }

  /** Removes leading and trailing characters satisfying `ws`: the result is
      the slice of `s` that starts after its leading whitespace, everything
      cut away after it is whitespace, and the result neither starts nor ends
      with whitespace. */
  function Strip(s: string, ws: char -> bool): (r: string)
    ensures var lo := LeadingCount(s, ws);
            lo + |r| <= |s| && r == s[lo..lo + |r|]
            && (forall i :: lo + |r| <= i < |s| ==> ws(s[i]))
    ensures r == [] || (!ws(r[0]) && !ws(r[|r| - 1]))
  {
    var lo := LeadingCount(s, ws);
    var r := DropTrailing(s[lo..], ws);
    assert forall i :: lo + |r| <= i < |s| ==> s[i] == s[lo..][i - lo];
    r
  }

  /** Python `s.strip()` over ASCII. */
  function PyStrip(s: string): string {
    Strip(s, IsPyWhitespace)
  }

  /** JavaScript `s.trim()` over ASCII. */
  function JsTrim(s: string): string {
    Strip(s, IsJsWhitespace)
  }

  /** Python `str.lower()` on one character, over ASCII; other characters are
      left as they are. */
  function LowerChar(c: char): char {
    if 'A' <= c <= 'Z' then (c as int + 32) as char else c
  }

  /** Python `s.lower()` over ASCII. */
  function Lower(s: string): string {
    seq(|s|, i requires 0 <= i < |s| => LowerChar(s[i]))
  }

  /** A lower-cased string contains no upper-case ASCII letter. */
  predicate IsLowered(s: string) {
    forall i :: 0 <= i < |s| ==> !('A' <= s[i] <= 'Z')
  }

  /** Stripping a string that has no whitespace at either end changes nothing. */
  lemma StripUnpadded(s: string, ws: char -> bool)
    requires s == [] || (!ws(s[0]) && !ws(s[|s| - 1]))
    ensures Strip(s, ws) == s
  {
  }

  /** Stripping a string with nothing but whitespace around an unpadded core
      gives that core. */
  lemma StripPadded(pre: string, v: string, post: string, ws: char -> bool)
    requires forall i :: 0 <= i < |pre| ==> ws(pre[i])
    requires forall i :: 0 <= i < |post| ==> ws(post[i])
    requires v == [] || (!ws(v[0]) && !ws(v[|v| - 1]))
    ensures Strip(pre + v + post, ws) == v
  {
    var s := pre + v + post;
    if v == [] {
      forall i | 0 <= i < |s| ensures ws(s[i]) {
        if i < |pre| { assert s[i] == pre[i]; } else { assert s[i] == post[i - |pre|]; }
      }
    } else {
      assert s[|pre|] == v[0];
      assert s[|pre| + |v| - 1] == v[|v| - 1];
      assert s[|pre|..|pre| + |v|] == v;
    }
  }

  /** Stripping is idempotent. */
  lemma StripIdempotent(s: string, ws: char -> bool)
    ensures Strip(Strip(s, ws), ws) == Strip(s, ws)
  {
    StripUnpadded(Strip(s, ws), ws);
  }

  /** Lower-casing leaves a string without upper-case letters unchanged, and so
      is idempotent. */
  lemma LowerOfLowered(s: string)
    requires IsLowered(s)
    ensures Lower(s) == s
  {
  }

  lemma LowerIsLowered(s: string)
    ensures IsLowered(Lower(s))
  {
  }

  /** Lower-casing maps whitespace to whitespace and any other character to
      a character that is not whitespace, for both whitespace classes. */
  lemma LowerKeepsWhitespace(c: char)
    ensures IsPyWhitespace(LowerChar(c)) == IsPyWhitespace(c)
    ensures IsJsWhitespace(LowerChar(c)) == IsJsWhitespace(c)
  {
  }

  /** The message normalisation of app.py:79 (strip, then lower) is
      idempotent: normalising an already normalised message changes nothing. */
  lemma StripLowerIdempotent(s: string)
    ensures var n := Lower(PyStrip(s)); Lower(PyStrip(n)) == n
  {
    var t := PyStrip(s);
    var n := Lower(t);
    if n != [] {
      LowerKeepsWhitespace(t[0]);
      LowerKeepsWhitespace(t[|t| - 1]);
      assert n[0] == LowerChar(t[0]) && n[|n| - 1] == LowerChar(t[|t| - 1]);
    }
    StripUnpadded(n, IsPyWhitespace);
    LowerIsLowered(t);
    LowerOfLowered(n);
  }
}
