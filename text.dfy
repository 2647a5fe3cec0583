/**
 * String primitives of the JavaScript runtime that the application relies on:
 * literal prefix tests (what an anchored regular expression without
 * metacharacters does), the whitespace class shared by `String.prototype.trim`
 * and the regular-expression escape `\s`, the word class `\w`, and the
 * UTF-16 length that `String.prototype.length` reports.
 */
module Text {

  /** `s` begins with the literal text `prefix`. */
  predicate StartsWith(s: string, prefix: string) {
    |prefix| <= |s| && s[..|prefix|] == prefix
  }

  /** ECMAScript WhiteSpace and LineTerminator code points (the set `trim` removes and `\s` matches). */
  predicate IsJsSpace(c: char) {
    || c == '\t' || c == '\n' || c == '\U{B}' || c == '\U{C}' || c == '\r' || c == ' '
    || c == '\U{A0}' || c == '\U{1680}'
    || ('\U{2000}' <= c <= '\U{200A}')
    || c == '\U{2028}' || c == '\U{2029}' || c == '\U{202F}' || c == '\U{205F}'
    || c == '\U{3000}' || c == '\U{FEFF}'
  }

  /** The regular-expression class `\w`: ASCII letters, digits and underscore. */
  predicate IsWordChar(c: char) {
    ('a' <= c <= 'z') || ('A' <= c <= 'Z') || ('0' <= c <= '9') || c == '_'
  }

  /** A non-empty run of `\w` characters. */
  predicate IsWord(s: string) {
    |s| >= 1 && forall i :: 0 <= i < |s| ==> IsWordChar(s[i])
  }

  /** Length of the longest prefix of `s` made of whitespace. */
  function LeadingSpaceCount(s: string): (n: nat)
    ensures n <= |s|
    ensures forall i :: 0 <= i < n ==> IsJsSpace(s[i])
    ensures n < |s| ==> !IsJsSpace(s[n])
  {
    if s == [] || !IsJsSpace(s[0]) then 0 else 1 + LeadingSpaceCount(s[1..])
  }

  /** Length of the longest suffix of `s` made of whitespace. */
  function TrailingSpaceCount(s: string): (n: nat)
    ensures n <= |s|
    ensures forall i :: |s| - n <= i < |s| ==> IsJsSpace(s[i])
    ensures n < |s| ==> !IsJsSpace(s[|s| - 1 - n])
  {
    if s == [] || !IsJsSpace(s[|s| - 1]) then 0 else 1 + TrailingSpaceCount(s[..|s| - 1])
  }

  /** Length of the longest prefix of `s` made of `\w` characters. */
  function WordPrefixLength(s: string): (n: nat)
    ensures n <= |s|
    ensures forall i :: 0 <= i < n ==> IsWordChar(s[i])
    ensures n < |s| ==> !IsWordChar(s[n])
  {
    if s == [] || !IsWordChar(s[0]) then 0 else 1 + WordPrefixLength(s[1..])
  }

  /** `s` with its leading whitespace removed (what `^\s*` matches is dropped). */
  function TrimStart(s: string): (r: string)
    ensures |r| <= |s| && r == s[|s| - |r|..]
    ensures forall i :: 0 <= i < |s| - |r| ==> IsJsSpace(s[i])
    ensures r != [] ==> !IsJsSpace(r[0])
  {
    s[LeadingSpaceCount(s)..]
  }

  /** The half-open range of `s` that `trim` keeps. */
  function TrimBounds(s: string): (b: (nat, nat))
    ensures b.0 <= b.1 <= |s|
    ensures forall i :: 0 <= i < b.0 ==> IsJsSpace(s[i])
    ensures forall i :: b.1 <= i < |s| ==> IsJsSpace(s[i])
    ensures b.0 < b.1 ==> !IsJsSpace(s[b.0]) && !IsJsSpace(s[b.1 - 1])
  {
    var a := LeadingSpaceCount(s);
    var t := s[a..];
    var k := TrailingSpaceCount(t);
    assert forall i :: a + |t| - k <= i < |s| ==> s[i] == t[i - a];
    (a, a + |t| - k)
  }

  /** `String.prototype.trim`: whitespace removed at both ends. */
  function Trim(s: string): (r: string)
    ensures |r| <= |s|
    ensures r == [] <==> forall i :: 0 <= i < |s| ==> IsJsSpace(s[i])
    ensures r != [] ==> !IsJsSpace(r[0]) && !IsJsSpace(r[|r| - 1])
    ensures r == s[TrimBounds(s).0..TrimBounds(s).1]
  {
    var b := TrimBounds(s);
    assert b.0 < b.1 ==> !IsJsSpace(s[b.0]);
    s[b.0..b.1]
  }

  /** Trimming twice changes nothing more than trimming once. */
  lemma TrimIdempotent(s: string)
    ensures Trim(Trim(s)) == Trim(s)
  {
    var t := Trim(s);
    if t != [] {
      assert LeadingSpaceCount(t) == 0;
      assert TrailingSpaceCount(t) == 0;
    }
  }

  /** `String.prototype.length`: code points above U+FFFF take two UTF-16 code units. */
  function Utf16Length(s: string): (n: nat)
    ensures |s| <= n <= 2 * |s|
    ensures n == 0 <==> s == []
  {
    if s == [] then 0 else (if s[0] as int > 0xFFFF then 2 else 1) + Utf16Length(s[1..])
  }

  /** A code point above U+FFFF is a surrogate pair of two code units; any other is one unit. */
  lemma Utf16LengthOfChar(c: char)
    ensures Utf16Length([c]) == (if c as int > 0xFFFF then 2 else 1)
  {
    assert [c][1..] == [];
  }

  /** The UTF-16 length of a concatenation is the sum of the lengths. */
  lemma {:induction false} Utf16LengthConcat(a: string, b: string)
    ensures Utf16Length(a + b) == Utf16Length(a) + Utf16Length(b)
  {
    if a == [] {
      assert a + b == b;
    } else {
      assert (a + b)[0] == a[0];
      assert (a + b)[1..] == a[1..] + b;
      Utf16LengthConcat(a[1..], b);
    }
  }
}
