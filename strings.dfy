/**
 * Text operations with Python's meaning: `str.strip()` and the `<` order on
 * `str` that pandas uses when it sorts the pivot's index and columns.
 */
module Strings {

  /** The characters `str.isspace()` accepts, which `str.strip()` removes. */
  predicate IsSpace(c: char) {
    || c == ' '
    || '\t' <= c <= '\r'
    || '\U{1C}' <= c <= '\U{1F}'
    || c == '\U{85}' || c == '\U{A0}' || c == '\U{1680}'
    || '\U{2000}' <= c <= '\U{200A}'
    || c == '\U{2028}' || c == '\U{2029}' || c == '\U{202F}' || c == '\U{205F}' || c == '\U{3000}'
  }

  /** How many whitespace characters `s` starts with. */
  function LeadingSpace(s: string): (n: nat)
    ensures n <= |s|
    ensures forall i :: 0 <= i < n ==> IsSpace(s[i])
    ensures n < |s| ==> !IsSpace(s[n])
  {
    if |s| > 0 && IsSpace(s[0]) then 1 + LeadingSpace(s[1..]) else 0
  }

  /** How many whitespace characters `s` ends with. */
  function TrailingSpace(s: string): (n: nat)
    ensures n <= |s|
    ensures forall i :: |s| - n <= i < |s| ==> IsSpace(s[i])
    ensures n < |s| ==> !IsSpace(s[|s| - 1 - n])
  {
    if |s| > 0 && IsSpace(s[|s| - 1]) then 1 + TrailingSpace(s[..|s| - 1]) else 0
  }

  /**
   * `s.strip()`: the slice of `s` left once whitespace is cut from both ends;
   * everything cut is whitespace and neither end of the result is.
   */
  function Trim(s: string): (r: string)
    ensures LeadingSpace(s) + |r| <= |s|
    ensures r == s[LeadingSpace(s)..LeadingSpace(s) + |r|]
    ensures forall i :: LeadingSpace(s) + |r| <= i < |s| ==> IsSpace(s[i])
    ensures r == [] || (!IsSpace(r[0]) && !IsSpace(r[|r| - 1]))
  {
    var t := s[LeadingSpace(s)..];
    t[..|t| - TrailingSpace(t)]
  }

  /** A string with no whitespace at either end is left as it is. */
  lemma TrimOfTrimmed(s: string)
    requires s == [] || (!IsSpace(s[0]) && !IsSpace(s[|s| - 1]))
    ensures Trim(s) == s
  {
  }

  /** Stripping twice is stripping once. */
  lemma TrimIdempotent(s: string)
    ensures Trim(Trim(s)) == Trim(s)
  {
    TrimOfTrimmed(Trim(s));
  }

  /** The whitespace pandas' number parser skips around a number: ASCII only. */
  predicate IsAsciiSpace(c: char) {
    c == ' ' || '\t' <= c <= '\r'
  }

  function AsciiLeadingSpace(s: string): (n: nat)
    ensures n <= |s|
    ensures forall i :: 0 <= i < n ==> IsAsciiSpace(s[i])
    ensures n < |s| ==> !IsAsciiSpace(s[n])
  {
    if |s| > 0 && IsAsciiSpace(s[0]) then 1 + AsciiLeadingSpace(s[1..]) else 0
  }

  function AsciiTrailingSpace(s: string): (n: nat)
    ensures n <= |s|
    ensures forall i :: |s| - n <= i < |s| ==> IsAsciiSpace(s[i])
    ensures n < |s| ==> !IsAsciiSpace(s[|s| - 1 - n])
  {
    if |s| > 0 && IsAsciiSpace(s[|s| - 1]) then 1 + AsciiTrailingSpace(s[..|s| - 1]) else 0
  }

  /**
   * The text pandas' number parser reads: `s` with ASCII whitespace cut from
   * both ends; other whitespace, such as a non-breaking space, stays.
   */
  function TrimAscii(s: string): (r: string)
    ensures AsciiLeadingSpace(s) + |r| <= |s|
    ensures r == s[AsciiLeadingSpace(s)..AsciiLeadingSpace(s) + |r|]
    ensures forall i :: AsciiLeadingSpace(s) + |r| <= i < |s| ==> IsAsciiSpace(s[i])
    ensures r == [] || (!IsAsciiSpace(r[0]) && !IsAsciiSpace(r[|r| - 1]))
  {
    var t := s[AsciiLeadingSpace(s)..];
    t[..|t| - AsciiTrailingSpace(t)]
  }

  /** A string with no ASCII whitespace at either end is read as it is. */
  lemma TrimAsciiOfTrimmed(s: string)
    requires s == [] || (!IsAsciiSpace(s[0]) && !IsAsciiSpace(s[|s| - 1]))
    ensures TrimAscii(s) == s
  {
  }

  /** Python's `a < b` on `str`: lexicographic by code point, a proper prefix first. */
  predicate StrLess(a: string, b: string) {
    if a == [] then b != []
    else if b == [] then false
    else if a[0] != b[0] then a[0] < b[0]
    else StrLess(a[1..], b[1..])
  }

  lemma {:induction false} StrLessIrreflexive(a: string)
    ensures !StrLess(a, a)
  {
    if a != [] {
      StrLessIrreflexive(a[1..]);
    }
  }

  lemma {:induction false} StrLessTransitive(a: string, b: string, c: string)
    requires StrLess(a, b) && StrLess(b, c)
    ensures StrLess(a, c)
  {
    if a != [] && a[0] == b[0] && b[0] == c[0] {
      StrLessTransitive(a[1..], b[1..], c[1..]);
    }
  }

  lemma {:induction false} StrLessConnected(a: string, b: string)
    requires a != b
    ensures StrLess(a, b) || StrLess(b, a)
  {
    if a != [] && b != [] && a[0] == b[0] {
      assert a == [a[0]] + a[1..] && b == [b[0]] + b[1..];
      StrLessConnected(a[1..], b[1..]);
    }
  }
}
