/**
 * The fragment of ECMAScript regular expressions that a watchlist wildcard
 * pattern turns into. The matcher rewrites every `*` of the pattern to `.*`
 * and compiles the rest unchanged with the `i` flag, so, read per character
 * of the original pattern:
 *   - `*` matches any run of characters that holds no line terminator,
 *   - `.` matches any one character that is not a line terminator,
 *   - every other character matches itself, ignoring ASCII case.
 * The model admits only patterns without the other regular-expression
 * metacharacters (`GlobSafe`). For those patterns this reading is exact on
 * text whose characters all lie in the Basic Multilingual Plane: a string
 * here is a sequence of code points, while a `RegExp` without the `u` flag
 * reads UTF-16 code units, so a character outside that plane is one
 * character here and two to `.` in the source.
 */
module Glob {
  import opened Strings

  /** ECMAScript LineTerminator: the characters `.` does not match without the `s` flag. */
  predicate IsLineTerminator(c: char)
  {
    c == '\n' || c == '\r' || c == '\U{2028}' || c == '\U{2029}'
  }

  predicate NoLineTerminator(s: string)
  {
    forall k :: 0 <= k < |s| ==> !IsLineTerminator(s[k])
  }

  /** The regular-expression metacharacters other than `*` and `.`. */
  const Reserved: string := "\\^$+?()[]{}|"

  /** The pattern, once its `*` are rewritten, is read by `RegExp` as this fragment. */
  predicate GlobSafe(p: string)
  {
    forall k :: 0 <= k < |p| ==> p[k] !in Reserved
  }

  /** One pattern character other than `*` against one text character. */
  predicate CharFits(pc: char, c: char)
  {
    if pc == '.' then !IsLineTerminator(c) else ToLowerChar(pc) == ToLowerChar(c)
  }

  /** Declarative meaning: the whole of `w` is matched by the whole of `p`. */
  ghost predicate Fits(p: string, w: string)
    decreases |p|
  {
    if p == [] then w == []
    else if p[0] == '*' then
      exists k :: 0 <= k <= |w| && NoLineTerminator(w[..k]) && Fits(p[1..], w[k..])
    else |w| > 0 && CharFits(p[0], w[0]) && Fits(p[1..], w[1..])
  }

  /** Backtracking matcher: does `p` match some prefix of `s`? */
  function MatchesPrefix(p: string, s: string): bool
    decreases |p|, |s|
  {
    if p == [] then true
    else if p[0] == '*' then
      MatchesPrefix(p[1..], s) || (|s| > 0 && !IsLineTerminator(s[0]) && MatchesPrefix(p, s[1..]))
    else |s| > 0 && CharFits(p[0], s[0]) && MatchesPrefix(p[1..], s[1..])
  }

  /** `RegExp.prototype.test` of an unanchored pattern: try every start position. */
  function Test(p: string, s: string): (r: bool)
    ensures r <==> exists i :: 0 <= i <= |s| && MatchesPrefix(p, s[i..])
    decreases |s|
  {
    assert s[0..] == s;
    assert forall i :: 1 <= i <= |s| ==> s[1..][i - 1..] == s[i..];
    MatchesPrefix(p, s) || (|s| > 0 && Test(p, s[1..]))
  }

  lemma {:induction false} PrefixSound(p: string, s: string) returns (j: nat)
    requires MatchesPrefix(p, s)
    ensures j <= |s| && Fits(p, s[..j])
    decreases |p|, |s|
  {
    if p == [] {
      j := 0;
    } else if p[0] == '*' {
      if MatchesPrefix(p[1..], s) {
        j := PrefixSound(p[1..], s);
        assert s[..j][0..] == s[..j];
        assert NoLineTerminator(s[..j][..0]) && Fits(p[1..], s[..j][0..]);
      } else {
        var t := s[1..];
        var j' := PrefixSound(p, t);
        var k' :| 0 <= k' <= j' && NoLineTerminator(t[..j'][..k']) && Fits(p[1..], t[..j'][k'..]);
        j := j' + 1;
        assert s[..j][k' + 1..] == t[..j'][k'..];
        assert s[..j][..k' + 1] == [s[0]] + t[..j'][..k'];
        assert NoLineTerminator(s[..j][..k' + 1]) && Fits(p[1..], s[..j][k' + 1..]);
      }
    } else {
      var j' := PrefixSound(p[1..], s[1..]);
      j := j' + 1;
      assert s[..j][1..] == s[1..][..j'];
    }
  }

  /** A star that swallows at least one character: drop that character from the text. */
  lemma StarShift(p: string, s: string, j: nat, k: nat)
    requires |p| > 0 && p[0] == '*' && 0 < k <= j <= |s|
    requires NoLineTerminator(s[..j][..k]) && Fits(p[1..], s[..j][k..])
    ensures !IsLineTerminator(s[0]) && Fits(p, s[1..][..j - 1])
  {
    var w, v := s[1..][..j - 1], s[..j][..k];
    assert s[0] == v[0];
    assert w[k - 1..] == s[..j][k..];
    var u := w[..k - 1];
    forall m | 0 <= m < |u| ensures !IsLineTerminator(u[m]) {
      assert u[m] == v[m + 1];
    }
    assert NoLineTerminator(w[..k - 1]) && Fits(p[1..], w[k - 1..]);
  }

  lemma {:induction false} PrefixComplete(p: string, s: string, j: nat)
    requires j <= |s| && Fits(p, s[..j])
    ensures MatchesPrefix(p, s)
    decreases |p|, |s|
  {
    if p == [] {
    } else if p[0] == '*' {
      var k :| 0 <= k <= j && NoLineTerminator(s[..j][..k]) && Fits(p[1..], s[..j][k..]);
      if k == 0 {
        assert s[..j][k..] == s[..j];
        PrefixComplete(p[1..], s, j);
      } else {
        var t := s[1..];
        StarShift(p, s, j, k);
        PrefixComplete(p, t, j - 1);
      }
    } else {
      assert s[..j][1..] == s[1..][..j - 1];
      PrefixComplete(p[1..], s[1..], j - 1);
    }
  }

  lemma {:induction false} TestSound(p: string, s: string) returns (i: nat, j: nat)
    requires Test(p, s)
    ensures i <= j <= |s| && Fits(p, s[i..j])
    decreases |s|
  {
    if MatchesPrefix(p, s) {
      j := PrefixSound(p, s);
      i := 0;
      assert s[0..j] == s[..j];
    } else {
      var i', j' := TestSound(p, s[1..]);
      i, j := i' + 1, j' + 1;
      assert s[i..j] == s[1..][i'..j'];
    }
  }

  lemma {:induction false} TestComplete(p: string, s: string, i: nat, j: nat)
    requires i <= j <= |s| && Fits(p, s[i..j])
    ensures Test(p, s)
    decreases i
  {
    if i == 0 {
      assert s[..j] == s[i..j];
      PrefixComplete(p, s, j);
    } else {
      assert s[1..][i - 1..j - 1] == s[i..j];
      TestComplete(p, s[1..], i - 1, j - 1);
    }
  }

  /** The test succeeds exactly when some block of the text is matched by the whole pattern. */
  lemma TestMeaning(p: string, s: string)
    ensures Test(p, s) <==> exists i, j :: 0 <= i <= j <= |s| && Fits(p, s[i..j])
  {
    if Test(p, s) {
      var i, j := TestSound(p, s);
    }
    if exists i, j :: 0 <= i <= j <= |s| && Fits(p, s[i..j]) {
      var i, j :| 0 <= i <= j <= |s| && Fits(p, s[i..j]);
      TestComplete(p, s, i, j);
    }
  }

  /** `*` (compiled to `.*`) matches every run of characters free of line terminators. */
  lemma StarFitsAnyLine(w: string)
    ensures Fits("*", w) <==> NoLineTerminator(w)
  {
    assert "*"[1..] == [];
    if NoLineTerminator(w) {
      assert w[..|w|] == w && w[|w|..] == [];
    }
    if Fits("*", w) {
      var k :| 0 <= k <= |w| && NoLineTerminator(w[..k]) && Fits("*"[1..], w[k..]);
      assert w[..k] == w;
    }
  }

  /** A `.` that reaches `RegExp` unescaped matches any one character but a line terminator. */
  lemma DotFitsOneChar(c: char)
    ensures Fits(".", [c]) <==> !IsLineTerminator(c)
  {
    assert "."[1..] == [] && [c][1..] == [];
  }

  /** A pattern with neither `*` nor `.` matches exactly the texts equal to it up to ASCII case. */
  lemma {:induction false} LiteralFits(p: string, w: string)
    requires forall k :: 0 <= k < |p| ==> p[k] != '*' && p[k] != '.'
    ensures Fits(p, w) <==> Lower(p) == Lower(w)
    decreases |p|
  {
    if p == [] {
      assert |Lower(w)| == |w|;
    } else if w == [] {
      assert |Lower(w)| == 0 != |Lower(p)|;
    } else {
      LiteralFits(p[1..], w[1..]);
      assert Lower(p) == [ToLowerChar(p[0])] + Lower(p[1..]);
      assert Lower(w) == [ToLowerChar(w[0])] + Lower(w[1..]);
      if Lower(p) == Lower(w) {
        assert Lower(p)[0] == Lower(w)[0];
        assert Lower(p)[1..] == Lower(w)[1..];
      }
    }
  }
}
