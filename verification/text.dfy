/**
 * The string primitives the application relies on: JavaScript's
 * `String.prototype.trim` and the "blank after trimming" test that every
 * validator in the application is built from.
 */
module Text {

  /** The characters `trim` strips: ECMAScript WhiteSpace and LineTerminator. */
  predicate IsWhitespace(c: char) {
    || c == '\t' || c == '\n' || c == '\U{000B}' || c == '\U{000C}' || c == '\r'
    || c == ' ' || c == '\U{00A0}' || c == '\U{1680}'
    || ('\U{2000}' <= c <= '\U{200A}')
    || c == '\U{2028}' || c == '\U{2029}' || c == '\U{202F}' || c == '\U{205F}'
    || c == '\U{3000}' || c == '\U{FEFF}'
  }

  /** Every character of `s` is whitespace (true of the empty string). */
  ghost predicate AllWhitespace(s: string) {
    forall i :: 0 <= i < |s| ==> IsWhitespace(s[i])
  }

  /** `s.trim()` is truthy: some character of `s` is not whitespace. */
  ghost predicate HasContent(s: string) {
    exists i :: 0 <= i < |s| && !IsWhitespace(s[i])
  }

  /** `needle` occurs in `hay` as a contiguous run of characters. */
  ghost predicate IsInfix(needle: string, hay: string) {
    exists i :: 0 <= i <= |hay| && needle <= hay[i..]
  }

  /** `s` has no whitespace at either end. */
  ghost predicate Trimmed(s: string) {
    s != [] ==> !IsWhitespace(s[0]) && !IsWhitespace(s[|s| - 1])
  }

  /** Drops the leading whitespace of `s`. */
  function TrimStart(s: string): string
    decreases |s|
  {
    if |s| > 0 && IsWhitespace(s[0]) then TrimStart(s[1..]) else s
  }

  /** Drops the trailing whitespace of `s`. */
  function TrimEnd(s: string): string
    decreases |s|
  {
    if |s| > 0 && IsWhitespace(s[|s| - 1]) then TrimEnd(s[..|s| - 1]) else s
  }

  /** JavaScript's `s.trim()`. */
  function Trim(s: string): string {
    TrimEnd(TrimStart(s))
  }

  /** `!s.trim()` in JavaScript: nothing is left once whitespace is trimmed. */
  predicate IsBlank(s: string) {
    Trim(s) == []
  }

  /**
   * `TrimStart` removes a prefix made of whitespace only, and stops at the
   * first character that is not whitespace.
   */
  lemma {:induction false} TrimStartSpec(s: string)
    ensures |TrimStart(s)| <= |s| && TrimStart(s) == s[|s| - |TrimStart(s)|..]
    ensures AllWhitespace(s[..|s| - |TrimStart(s)|])
    ensures TrimStart(s) != [] ==> !IsWhitespace(TrimStart(s)[0])
    decreases |s|
  {
    if |s| > 0 && IsWhitespace(s[0]) {
      TrimStartSpec(s[1..]);
    }
  }

  /**
   * `TrimEnd` removes a suffix made of whitespace only, and stops at the
   * last character that is not whitespace.
   */
  lemma {:induction false} TrimEndSpec(s: string)
    ensures |TrimEnd(s)| <= |s| && TrimEnd(s) == s[..|TrimEnd(s)|]
    ensures AllWhitespace(s[|TrimEnd(s)|..])
    ensures TrimEnd(s) != [] ==> !IsWhitespace(TrimEnd(s)[|TrimEnd(s)| - 1])
    decreases |s|
  {
    if |s| > 0 && IsWhitespace(s[|s| - 1]) {
      var p := s[..|s| - 1];
      TrimEndSpec(p);
      var n := |TrimEnd(p)|;
      assert TrimEnd(s) == TrimEnd(p);
      forall i | 0 <= i < |s[n..]| ensures IsWhitespace(s[n..][i]) {
        if n + i < |p| {
          assert s[n..][i] == p[n..][i];
        }
      }
    }
  }

  /** The trimmed string is a piece of the original with no whitespace at either end. */
  lemma TrimSpec(s: string)
    ensures Trimmed(Trim(s))
    ensures IsInfix(Trim(s), s)
    ensures exists i, j :: 0 <= i <= j <= |s| && Trim(s) == s[i..j] && AllWhitespace(s[..i]) && AllWhitespace(s[j..])
  {
    var t := TrimStart(s);
    TrimStartSpec(s);
    TrimEndSpec(t);
    var i := |s| - |t|;
    var j := i + |Trim(s)|;
    assert Trim(s) <= s[i..];
    assert Trim(s) == s[i..j];
    assert s[j..] == t[|Trim(s)|..];
  }

  /** A string is blank exactly when every character of it is whitespace. */
  lemma BlankSpec(s: string)
    ensures IsBlank(s) <==> AllWhitespace(s)
  {
    var t := TrimStart(s);
    TrimStartSpec(s);
    TrimEndSpec(t);
  }

  /** A string with no whitespace at either end is its own trim. */
  lemma TrimmedFixed(s: string)
    requires Trimmed(s)
    ensures Trim(s) == s
  {
  }

  /** Trimming twice is trimming once. */
  lemma TrimIdempotent(s: string)
    ensures Trim(Trim(s)) == Trim(s)
  {
    TrimSpec(s);
    TrimmedFixed(Trim(s));
  }

  /** A string that starts with whitespace trims as its tail would. */
  lemma {:induction false} TrimStartSkip(w: string, s: string)
    requires AllWhitespace(w)
    ensures TrimStart(w + s) == TrimStart(s)
    decreases |w|
  {
    if w != [] {
      assert (w + s)[0] == w[0] && (w + s)[1..] == w[1..] + s;
      TrimStartSkip(w[1..], s);
    } else {
      assert w + s == s;
    }
  }

  /**
   * Trailing whitespace is removed from the end only: the trimmed end of
   * `a + b` keeps `a` whole as soon as `b` holds something that is not
   * whitespace, and is the trimmed end of `a` otherwise.
   */
  lemma {:induction false} TrimEndAppend(a: string, b: string)
    ensures TrimEnd(a + b) == if TrimEnd(b) == [] then TrimEnd(a) else a + TrimEnd(b)
    decreases |b|
  {
    if b == [] {
      assert a + b == a;
    } else if IsWhitespace(b[|b| - 1]) {
      assert (a + b)[..|a + b| - 1] == a + b[..|b| - 1];
      TrimEndAppend(a, b[..|b| - 1]);
    } else {
      assert (a + b)[|a + b| - 1] == b[|b| - 1];
    }
  }

  /** Whitespace appended to a string does not survive trimming its end. */
  lemma TrimEndDrop(a: string, w: string)
    requires AllWhitespace(w)
    ensures TrimEnd(a + w) == TrimEnd(a)
  {
    TrimEndSpec(w);
    TrimEndAppend(a, w);
  }

  /**
   * A string that is whitespace, then a piece with no whitespace at either
   * end, then anything, trims to that piece followed by the trimmed end of
   * the rest.
   */
  lemma TrimFrame(w: string, core: string, rest: string)
    requires AllWhitespace(w)
    requires core != [] && !IsWhitespace(core[0]) && !IsWhitespace(core[|core| - 1])
    ensures Trim(w + (core + rest)) == core + TrimEnd(rest)
  {
    TrimStartSkip(w, core + rest);
    assert (core + rest)[0] == core[0];
    TrimEndAppend(core, rest);
  }

  /** A string occurs at the end of anything it is appended to. */
  lemma InfixEnd(needle: string, a: string)
    ensures IsInfix(needle, a + needle)
  {
    assert (a + needle)[|a|..] == needle;
  }

  /** Appending to a string keeps every piece that occurs in it. */
  lemma InfixExtend(needle: string, hay: string, c: string)
    requires IsInfix(needle, hay)
    ensures IsInfix(needle, hay + c)
  {
    var i :| 0 <= i <= |hay| && needle <= hay[i..];
    assert (hay + c)[i..] == hay[i..] + c;
  }
}
