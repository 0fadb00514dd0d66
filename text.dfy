/**
 * The two string operations the forms and the movement hook rely on:
 * JavaScript's `String.prototype.trim` and `String.prototype.toLowerCase`
 * (the latter on the ASCII letters, see `LowerAscii`).
 */
module Text {

  /**
   * The characters `trim` removes: ECMAScript's WhiteSpace (tab, vertical tab,
   * form feed, space, no-break space, the byte order mark and the Unicode
   * space separators) and LineTerminator (line feed, carriage return, line and
   * paragraph separators).
   */
  predicate IsWhitespace(c: char) {
    c == '\t' || c == '\n' || c == '\U{000B}' || c == '\U{000C}' || c == '\r' || c == ' ' ||
    c == '\U{00A0}' || c == '\U{1680}' || ('\U{2000}' <= c <= '\U{200A}') ||
    c == '\U{2028}' || c == '\U{2029}' || c == '\U{202F}' || c == '\U{205F}' ||
    c == '\U{3000}' || c == '\U{FEFF}'
  }

  /** Every character is whitespace (the empty string included). */
  predicate IsBlank(s: string) {
    forall i :: 0 <= i < |s| ==> IsWhitespace(s[i])
  }

  /** Neither the first nor the last character is whitespace. */
  predicate IsTrimmed(s: string) {
    s == [] || (!IsWhitespace(s[0]) && !IsWhitespace(s[|s| - 1]))
  }

  /** `s` without its leading whitespace: a suffix of `s` whose dropped prefix is blank. */
  function TrimStart(s: string): (r: string)
    ensures |r| <= |s| && r == s[|s| - |r|..]
    ensures r == [] || !IsWhitespace(r[0])
    ensures forall i :: 0 <= i < |s| - |r| ==> IsWhitespace(s[i])
  {
    if s != [] && IsWhitespace(s[0]) then TrimStart(s[1..]) else s
  }

  /** `s` without its trailing whitespace: a prefix of `s` whose dropped suffix is blank. */
  function TrimEnd(s: string): (r: string)
    ensures |r| <= |s| && r == s[..|r|]
    ensures r == [] || !IsWhitespace(r[|r| - 1])
    ensures forall i :: |r| <= i < |s| ==> IsWhitespace(s[i])
  {
    if s != [] && IsWhitespace(s[|s| - 1]) then TrimEnd(s[..|s| - 1]) else s
  }

  /**
   * JavaScript's `s.trim()`: the slice of `s` left once its blank ends are
   * cut off, with no whitespace at either end.
   */
  function Trim(s: string): (r: string)
    ensures |r| <= |s|
    ensures IsTrimmed(r)
    ensures exists i, j | 0 <= i <= j <= |s| :: r == s[i..j] && IsBlank(s[..i]) && IsBlank(s[j..])
  {
    var i := |s| - |TrimStart(s)|;
    var j := i + |TrimEnd(TrimStart(s))|;
    SliceBetweenBlanks(s, TrimStart(s), TrimEnd(TrimStart(s)));
    assert TrimEnd(TrimStart(s)) == s[i..j] && IsBlank(s[..i]) && IsBlank(s[j..]);
    TrimEnd(TrimStart(s))
  }

  /** A stretch of `s` whose characters are all whitespace, as a slice, is blank. */
  lemma BlankSlice(s: string, a: nat, b: nat)
    requires a <= b <= |s|
    requires forall k :: a <= k < b ==> IsWhitespace(s[k])
    ensures IsBlank(s[a..b])
  {
    forall k | 0 <= k < b - a ensures IsWhitespace(s[a..b][k]) {
      assert s[a..b][k] == s[a + k];
    }
  }

  /**
   * Cutting a blank prefix off `s` (leaving `t`) and then a blank suffix off
   * `t` (leaving `u`) leaves a slice of `s` between a blank prefix and a
   * blank suffix.
   */
  lemma SliceBetweenBlanks(s: string, t: string, u: string)
    requires |t| <= |s| && t == s[|s| - |t|..]
    requires forall k :: 0 <= k < |s| - |t| ==> IsWhitespace(s[k])
    requires |u| <= |t| && u == t[..|u|]
    requires forall k :: |u| <= k < |t| ==> IsWhitespace(t[k])
    ensures var i := |s| - |t|; var j := i + |u|;
      u == s[i..j] && IsBlank(s[..i]) && IsBlank(s[j..])
  {
    var i := |s| - |t|;
    var j := i + |u|;
    BlankSlice(s, 0, i);
    assert s[..i] == s[0..i];
    forall k | j <= k < |s| ensures IsWhitespace(s[k]) {
      assert s[k] == t[k - i];
    }
    BlankSlice(s, j, |s|);
    assert s[j..] == s[j..|s|];
  }

  /** `s.trim()` is empty, i.e. falsy, exactly when `s` is blank. */
  lemma TrimEmptyIffBlank(s: string)
    ensures Trim(s) == [] <==> IsBlank(s)
  {
    var t := TrimStart(s);
    if Trim(s) == [] {
      assert |t| == 0;
    }
  }

  /** Trimming a string that is already trimmed changes nothing. */
  lemma TrimKeepsTrimmed(s: string)
    requires IsTrimmed(s)
    ensures Trim(s) == s
  {
    assert TrimStart(s) == s;
  }

  /** Trimming twice is trimming once. */
  lemma TrimIdempotent(s: string)
    ensures Trim(Trim(s)) == Trim(s)
  {
    TrimKeepsTrimmed(Trim(s));
  }

  /** JavaScript's `c.toLowerCase()` on one character, for the ASCII letters. */
  function LowerChar(c: char): char {
    if 'A' <= c <= 'Z' then (c as int + 32) as char else c
  }

  /**
   * JavaScript's `s.toLowerCase()` restricted to the ASCII letters: every
   * character is mapped on its own and the length is kept.
   */
  function LowerAscii(s: string): (r: string)
    ensures |r| == |s|
    ensures forall i :: 0 <= i < |s| ==> r[i] == LowerChar(s[i])
  {
    if s == [] then [] else [LowerChar(s[0])] + LowerAscii(s[1..])
  }

  /** Lowering a lowered string changes nothing. */
  lemma LowerAsciiIdempotent(s: string)
    ensures LowerAscii(LowerAscii(s)) == LowerAscii(s)
  {
    var l := LowerAscii(s);
    assert LowerAscii(l) == l by {
      forall i | 0 <= i < |l| ensures LowerAscii(l)[i] == l[i] {
      }
    }
  }
}
