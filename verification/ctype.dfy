/**
 Character classes of the C library's <ctype.h> in the "C" locale, as used by
 the Arduino `String::trim()` call and by `atoi` in the request decoder of
 src/main.cpp, together with the whitespace skipping both of them perform.
 */
module CType {

  /** `isspace`: space, horizontal tab, line feed, vertical tab, form feed, carriage return. */
  predicate IsSpace(c: char) {
    c == ' ' || c == '\t' || c == '\n' || c == '\U{0B}' || c == '\U{0C}' || c == '\r'
  }

  /** `isdigit`: the ten decimal digits. */
  predicate IsDigit(c: char) {
    '0' <= c <= '9'
  }

  /** True iff every character of `s` is white space. */
  predicate AllSpace(s: seq<char>) {
    forall k :: 0 <= k < |s| ==> IsSpace(s[k])
  }

  /** True iff every character of `s` is a decimal digit. */
  predicate AllDigits(s: seq<char>) {
    forall k :: 0 <= k < |s| ==> IsDigit(s[k])
  }

  /** The numeric value of a decimal digit character. */
  function DigitValue(c: char): (d: nat)
    requires IsDigit(c)
    ensures d < 10
  {
    c as int - '0' as int
  }

  /** The digit character of a value below ten; the inverse of `DigitValue`. */
  function DigitChar(d: nat): (c: char)
    requires d < 10
    ensures IsDigit(c) && DigitValue(c) == d
  {
    ('0' as int + d) as char
  }

  /**
   Drops the longest all-white-space prefix: the loop `while (isspace(*p)) p++`
   that both `String::trim()` and `atoi` begin with. The result is the suffix
   is no longer than `s`, every dropped character is white space, and the
   remainder does not start with white space; `SkipSpaceSuffix` states that
   it is a suffix of `s`.
   */
  function SkipSpace(s: seq<char>): (r: seq<char>)
    ensures |r| <= |s|
    ensures forall k :: 0 <= k < |s| - |r| ==> IsSpace(s[k])
    ensures r == [] || !IsSpace(r[0])
  {
    if |s| > 0 && IsSpace(s[0]) then SkipSpace(s[1..]) else s
  }

  /** What `SkipSpace` returns is the suffix of `s` it has not skipped. */
  lemma {:induction false} SkipSpaceSuffix(s: seq<char>)
    ensures SkipSpace(s) == s[|s| - |SkipSpace(s)|..]
  {
    if |s| > 0 && IsSpace(s[0]) {
      SkipSpaceSuffix(s[1..]);
    }
  }

  /** White space followed by text that does not start with white space is skipped exactly. */
  lemma {:induction false} SkipSpacePadded(ws: seq<char>, t: seq<char>)
    requires AllSpace(ws)
    requires t == [] || !IsSpace(t[0])
    ensures SkipSpace(ws + t) == t
  {
    if ws != [] {
      assert (ws + t)[1..] == ws[1..] + t;
      SkipSpacePadded(ws[1..], t);
    }
  }
}
