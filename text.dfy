/**
 * The two string tests the guards rely on: JavaScript's String.prototype.trim,
 * used by the client's guards (src/App.jsx:220, 242), and Java's String.isBlank,
 * used by the server's join guard (PresenceController.java:23). The two languages
 * disagree on what counts as white space, so each has its own character class.
 */
module Text {

  /** A code point that String.prototype.trim strips: the WhiteSpace and
      LineTerminator productions of ECMA-262 (sections 12.2 and 12.3). */
  predicate IsJsSpace(c: char)
  {
    var n := c as int;
    (0x09 <= n <= 0x0D) || n == 0x20 || n == 0xA0 || n == 0x1680
    || (0x2000 <= n <= 0x200A) || n == 0x2028 || n == 0x2029
    || n == 0x202F || n == 0x205F || n == 0x3000 || n == 0xFEFF
  }

  /** Java's Character.isWhitespace: the Unicode space, line and paragraph
      separators except the non-breaking ones (U+00A0, U+2007, U+202F), and
      the controls U+0009..U+000D and U+001C..U+001F. */
  predicate IsJavaWhitespace(c: char)
  {
    var n := c as int;
    (0x09 <= n <= 0x0D) || (0x1C <= n <= 0x20) || n == 0x1680
    || (0x2000 <= n <= 0x2006) || (0x2008 <= n <= 0x200A)
    || n == 0x2028 || n == 0x2029 || n == 0x205F || n == 0x3000
  }

  ghost predicate AllJsSpace(s: string)
  {
    forall i :: 0 <= i < |s| ==> IsJsSpace(s[i])
  }

  /** s without its longest all-space prefix. */
  function TrimStart(s: string): (r: string)
    ensures |r| <= |s| && r == s[|s| - |r|..]
    ensures r != [] ==> !IsJsSpace(r[0])
    ensures forall i :: 0 <= i < |s| - |r| ==> IsJsSpace(s[i])
  {
    if s != [] && IsJsSpace(s[0]) then
      var r := TrimStart(s[1..]);
      assert forall i :: 1 <= i < |s| ==> s[i] == s[1..][i - 1];
      r
    else s
  }

  /** s without its longest all-space suffix. */
  function TrimEnd(s: string): (r: string)
    ensures |r| <= |s| && r == s[..|r|]
    ensures r != [] ==> !IsJsSpace(r[|r| - 1])
    ensures forall i :: |r| <= i < |s| ==> IsJsSpace(s[i])
  {
    if s != [] && IsJsSpace(s[|s| - 1]) then
      var r := TrimEnd(s[..|s| - 1]);
      assert forall i :: 0 <= i < |s| - 1 ==> s[i] == s[..|s| - 1][i];
      r
    else s
  }

  /** String.prototype.trim: a piece of s that neither starts nor ends with
      space (TrimIsInfix says which piece). */
  function Trim(s: string): (r: string)
    ensures |r| <= |s|
    ensures r != [] ==> !IsJsSpace(r[0]) && !IsJsSpace(r[|r| - 1])
  {
    TrimEnd(TrimStart(s))
  }

  /** The trimmed string is empty exactly when s is all space: the falsy test
      `!s.trim()` of the client's guards. */
  lemma TrimEmptyIff(s: string)
    ensures Trim(s) == [] <==> AllJsSpace(s)
  {
  }

  /** Trimming twice is trimming once. */
  lemma TrimIdempotent(s: string)
    ensures Trim(Trim(s)) == Trim(s)
  {
    var r := Trim(s);
    if r != [] {
      assert TrimStart(r) == r;
      assert TrimEnd(r) == r;
    }
  }

  /** A prefix r of a suffix t of s is the infix of s that starts where t
      does; what t has after r, s has after that infix. */
  lemma PrefixOfSuffix(s: string, t: string, r: string)
    requires |t| <= |s| && t == s[|s| - |t|..]
    requires |r| <= |t| && r == t[..|r|]
    requires forall k :: |r| <= k < |t| ==> IsJsSpace(t[k])
    ensures s[|s| - |t|..|s| - |t| + |r|] == r
    ensures forall k :: |s| - |t| + |r| <= k < |s| ==> IsJsSpace(s[k])
  {
    var i := |s| - |t|;
    forall k | i + |r| <= k < |s|
      ensures IsJsSpace(s[k])
    {
      assert s[k] == t[k - i];
    }
  }

  /** Where the trimmed string sits in s: after the removed all-space
      prefix, and before the removed all-space suffix. */
  lemma TrimBounds(s: string) returns (i: nat, j: nat)
    ensures i <= j <= |s| && Trim(s) == s[i..j]
    ensures forall k :: 0 <= k < i ==> IsJsSpace(s[k])
    ensures forall k :: j <= k < |s| ==> IsJsSpace(s[k])
  {
    var t := TrimStart(s);
    var r := TrimEnd(t);
    PrefixOfSuffix(s, t, r);
    i, j := |s| - |t|, |s| - |t| + |r|;
  }

  /** The trimmed string is the part of s between an all-space prefix and an
      all-space suffix. */
  lemma TrimIsInfix(s: string)
    ensures exists i, j ::
              && 0 <= i <= j <= |s| && Trim(s) == s[i..j]
              && (forall k :: 0 <= k < i ==> IsJsSpace(s[k]))
              && (forall k :: j <= k < |s| ==> IsJsSpace(s[k]))
  {
    var i, j := TrimBounds(s);
  }

  /** Java's String.indexOfNonWhitespace: the position of the first
      non-whitespace code point, or |s| when there is none. */
  function IndexOfNonWhitespace(s: string): (k: nat)
    ensures k <= |s|
    ensures forall i :: 0 <= i < k ==> IsJavaWhitespace(s[i])
    ensures k < |s| ==> !IsJavaWhitespace(s[k])
  {
    if s != [] && IsJavaWhitespace(s[0]) then 1 + IndexOfNonWhitespace(s[1..]) else 0
  }

  /** Java's String.isBlank, defined as JDK 11 and later define it. */
  predicate IsBlank(s: string)
  {
    IndexOfNonWhitespace(s) == |s|
  }

  /** isBlank holds exactly when every code point is Java white space; in
      particular the empty string is blank. */
  lemma BlankIff(s: string)
    ensures IsBlank(s) <==> forall i :: 0 <= i < |s| ==> IsJavaWhitespace(s[i])
  {
  }
}
