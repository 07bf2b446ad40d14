/**
 * The JavaScript string operations the extension relies on: `startsWith`,
 * `includes`, ASCII `toLowerCase`, `trim`, and the decimal rendering of an
 * HTTP status code inside an error message.
 */
module Strings {

  /** `s.startsWith(prefix)`. */
  predicate StartsWith(s: string, prefix: string): (r: bool)
    ensures r <==> |prefix| <= |s| && forall k :: 0 <= k < |prefix| ==> s[k] == prefix[k]
  {
    assert |prefix| <= |s| ==> forall k :: 0 <= k < |prefix| ==> s[..|prefix|][k] == s[k];
    |prefix| <= |s| && s[..|prefix|] == prefix
  }

  /** ASCII case folding of one character (the model's reading of `toLowerCase`). */
  function ToLowerChar(c: char): char
  {
    if 'A' <= c <= 'Z' then (c as int + 32) as char else c
  }

  /** `s.toLowerCase()`, restricted to ASCII letters. */
  function Lower(s: string): (r: string)
    ensures |r| == |s|
    ensures forall k :: 0 <= k < |r| ==> !('A' <= r[k] <= 'Z')
    ensures forall k :: 0 <= k < |s| ==> r[k] == s[k] || ('A' <= s[k] <= 'Z' && r[k] as int == s[k] as int + 32)
  {
    seq(|s|, k requires 0 <= k < |s| => ToLowerChar(s[k]))
  }

  /** `t` occurs in `s` at some position. */
  ghost predicate IsSubstring(t: string, s: string)
  {
    exists i :: 0 <= i <= |s| && StartsWith(s[i..], t)
  }

  /** `s.includes(t)`: try every starting position from the left. */
  function Contains(s: string, t: string): bool
    decreases |s|
  {
    StartsWith(s, t) || (|s| > 0 && Contains(s[1..], t))
  }

  lemma {:induction false} ContainsIsSubstring(s: string, t: string)
    ensures Contains(s, t) <==> IsSubstring(t, s)
    decreases |s|
  {
    assert s[0..] == s;
    if |s| > 0 && !StartsWith(s, t) {
      ContainsIsSubstring(s[1..], t);
      if Contains(s[1..], t) {
        var i :| 0 <= i <= |s[1..]| && StartsWith(s[1..][i..], t);
        assert s[1..][i..] == s[i + 1..];
      }
      if IsSubstring(t, s) {
        var i :| 0 <= i <= |s| && StartsWith(s[i..], t);
        assert s[1..][i - 1..] == s[i..];
      }
    }
  }

  /**
   * The characters `String.prototype.trim` removes: ECMAScript WhiteSpace
   * (tab, vertical tab, form feed, space, no-break space, byte order mark and
   * the Unicode space separators) and LineTerminator (LF, CR, U+2028, U+2029).
   */
  predicate IsWhitespace(c: char)
  {
    c == '\t' || c == '\n' || c == '\U{000B}' || c == '\U{000C}' || c == '\r' || c == ' '
    || c == '\U{00A0}' || c == '\U{1680}' || ('\U{2000}' <= c <= '\U{200A}')
    || c == '\U{2028}' || c == '\U{2029}' || c == '\U{202F}' || c == '\U{205F}'
    || c == '\U{3000}' || c == '\U{FEFF}'
  }

  predicate AllWhitespace(s: string)
  {
    forall k :: 0 <= k < |s| ==> IsWhitespace(s[k])
  }

  /** A whitespace character in front of a whitespace block keeps it a whitespace block. */
  lemma WhitespaceExtendsLeft(s: string, n: nat)
    requires 0 < |s| && 1 <= n <= |s| && IsWhitespace(s[0]) && AllWhitespace(s[1..][..n - 1])
    ensures AllWhitespace(s[..n])
  {
    forall k | 0 < k < n ensures IsWhitespace(s[..n][k]) {
      assert s[..n][k] == s[1..][..n - 1][k - 1];
    }
  }

  /** A whitespace character after a whitespace block keeps it a whitespace block. */
  lemma WhitespaceExtendsRight(s: string, n: nat)
    requires 0 < |s| && n <= |s| - 1 && IsWhitespace(s[|s| - 1]) && AllWhitespace(s[..|s| - 1][n..])
    ensures AllWhitespace(s[n..])
  {
    forall k | 0 <= k < |s| - 1 - n ensures IsWhitespace(s[n..][k]) {
      assert s[n..][k] == s[..|s| - 1][n..][k];
    }
    assert s[n..][|s| - 1 - n] == s[|s| - 1];
  }

  /** Drops the leading whitespace: the result is a suffix of `s`. */
  function TrimStart(s: string): (r: string)
    ensures |r| <= |s| && r == s[|s| - |r|..]
    ensures AllWhitespace(s[..|s| - |r|])
    ensures r == [] || !IsWhitespace(r[0])
    decreases |s|
  {
    if |s| > 0 && IsWhitespace(s[0]) then
      var r := TrimStart(s[1..]);
      assert s[1..][|s| - 1 - |r|..] == s[|s| - |r|..];
      WhitespaceExtendsLeft(s, |s| - |r|);
      r
    else s
  }

  /** Drops the trailing whitespace: the result is a prefix of `s`. */
  function TrimEnd(s: string): (r: string)
    ensures |r| <= |s| && r == s[..|r|]
    ensures AllWhitespace(s[|r|..])
    ensures r == [] || !IsWhitespace(r[|r| - 1])
    decreases |s|
  {
    if |s| > 0 && IsWhitespace(s[|s| - 1]) then
      var r := TrimEnd(s[..|s| - 1]);
      assert s[..|s| - 1][..|r|] == s[..|r|];
      WhitespaceExtendsRight(s, |r|);
      r
    else s
  }

  /** `s.trim()`: the block of `s` left once whitespace is removed from both ends. */
  function Trim(s: string): (r: string)
    ensures exists i :: 0 <= i && i + |r| <= |s| && r == s[i..i + |r|]
                        && AllWhitespace(s[..i]) && AllWhitespace(s[i + |r|..])
    ensures r == [] || (!IsWhitespace(r[0]) && !IsWhitespace(r[|r| - 1]))
  {
    var t := TrimStart(s);
    var r := TrimEnd(t);
    var i := |s| - |t|;
    assert r == s[i..i + |r|];
    assert s[i + |r|..] == t[|r|..];
    r
  }

  /** A block of whitespace on each side of an empty middle: the whole string is whitespace. */
  lemma WhitespaceAround(s: string, i: nat)
    requires i <= |s| && AllWhitespace(s[..i]) && AllWhitespace(s[i..])
    ensures AllWhitespace(s)
  {
    forall k | 0 <= k < |s| ensures IsWhitespace(s[k]) {
      if k < i { assert s[k] == s[..i][k]; } else { assert s[k] == s[i..][k - i]; }
    }
  }

  /** A trimmed field is empty exactly when the raw field was whitespace only. */
  lemma TrimEmptyIffWhitespace(s: string)
    ensures Trim(s) == [] <==> AllWhitespace(s)
  {
    var r := Trim(s);
    var i :| 0 <= i && i + |r| <= |s| && r == s[i..i + |r|]
             && AllWhitespace(s[..i]) && AllWhitespace(s[i + |r|..]);
    if r == [] {
      WhitespaceAround(s, i);
    } else {
      assert r[0] == s[i];
    }
  }

  function DigitChar(d: nat): char
    requires d < 10
  {
    "0123456789"[d]
  }

  /** The decimal rendering JavaScript gives a non-negative integer in a template literal. */
  function NatToString(n: nat): string
    decreases n
  {
    if n < 10 then [DigitChar(n)] else NatToString(n / 10) + [DigitChar(n % 10)]
  }
}
