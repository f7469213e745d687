/**
 Conversion of one token with `atoi` (src/main.cpp:92), as in section
 7.22.1.2 of ISO C11 with the prefix rules of section 7.22.1.4 for base 10:
 leading `isspace` characters are skipped, one optional `+` or `-` is read,
 then the longest run of decimal digits; a token without such digits gives 0
 and whatever follows the digits is ignored.

 Values are unbounded integers: the C behaviour on a digit string too large
 for `int` is undefined and is not modelled.

 `Show` is the decimal rendering of an integer (what `%d` prints); it is the
 partner `atoi` inverts.
 */
module CStdlib {
  import opened CType

  /** The value of a string of decimal digits, most significant first. */
  function DigitsValue(ds: seq<char>): nat
    requires AllDigits(ds)
    decreases |ds|
  {
    if |ds| == 0 then 0
    else 10 * DigitsValue(ds[..|ds| - 1]) + DigitValue(ds[|ds| - 1])
  }

  /** The length of the longest all-digit prefix of `s`. */
  function DigitRun(s: seq<char>): (n: nat)
    ensures n <= |s|
    ensures forall k :: 0 <= k < n ==> IsDigit(s[k])
    ensures n < |s| ==> !IsDigit(s[n])
  {
    if |s| > 0 && IsDigit(s[0]) then 1 + DigitRun(s[1..]) else 0
  }

  /** The value of the longest digit prefix of `s`; 0 if `s` does not start with a digit. */
  function Magnitude(s: seq<char>): nat {
    DigitsValue(s[..DigitRun(s)])
  }

  /**
   An optional sign, then the magnitude of the digit run after it. Only a
   leading `-` gives a negative value, and a non-zero value needs a digit
   right at the start or right after the sign.
   */
  function SignedMagnitude(u: seq<char>): (r: int)
    ensures r < 0 ==> |u| > 0 && u[0] == '-'
    ensures |u| > 0 && u[0] == '-' ==> r <= 0
    ensures r != 0 ==> |u| > 0 && (IsDigit(u[0]) || ((u[0] == '-' || u[0] == '+') && |u| > 1 && IsDigit(u[1])))
  {
    if |u| > 0 && u[0] == '-' then -(Magnitude(u[1..]) as int)
    else if |u| > 0 && u[0] == '+' then Magnitude(u[1..])
    else Magnitude(u)
  }

  /** `atoi(token)`: white space skipped, then a signed digit run. */
  function Atoi(token: seq<char>): int {
    SignedMagnitude(SkipSpace(token))
  }

  /** The shortest decimal digit string of `n`. */
  function Decimal(n: nat): (ds: seq<char>)
    ensures |ds| > 0 && AllDigits(ds)
    ensures |ds| > 1 ==> ds[0] != '0'
    decreases n
  {
    if n < 10 then [DigitChar(n)] else Decimal(n / 10) + [DigitChar(n % 10)]
  }

  /** The decimal rendering of `i`: a minus sign for negative values, then the digits of its magnitude. */
  function Show(i: int): (s: seq<char>)
    ensures |s| > 0 && (i < 0 ==> s[0] == '-') && (i >= 0 ==> IsDigit(s[0]))
    ensures IsDigit(s[|s| - 1])
    ensures forall k :: 0 <= k < |s| ==> IsDigit(s[k]) || (k == 0 && s[k] == '-')
  {
    if i < 0 then ['-'] + Decimal(-i) else Decimal(i)
  }

  /** The digits `Decimal` writes are worth `n`. */
  lemma {:induction false} DecimalValue(n: nat)
    ensures DigitsValue(Decimal(n)) == n
    decreases n
  {
    if n >= 10 {
      DecimalValue(n / 10);
      var ds := Decimal(n);
      assert ds[..|ds| - 1] == Decimal(n / 10);
    }
  }

  /** A digit string followed by a non-digit (or nothing) is read up to its end. */
  lemma {:induction false} DigitRunOf(ds: seq<char>, rest: seq<char>)
    requires AllDigits(ds)
    requires rest == [] || !IsDigit(rest[0])
    ensures DigitRun(ds + rest) == |ds|
    decreases |ds|
  {
    if ds == [] {
      assert ds + rest == rest;
    } else {
      assert (ds + rest)[1..] == ds[1..] + rest;
      DigitRunOf(ds[1..], rest);
    }
  }

  /** `Magnitude` of a digit string followed by a non-digit is the value of that digit string. */
  lemma {:induction false} MagnitudeOf(ds: seq<char>, rest: seq<char>)
    requires AllDigits(ds)
    requires rest == [] || !IsDigit(rest[0])
    ensures Magnitude(ds + rest) == DigitsValue(ds)
  {
    DigitRunOf(ds, rest);
    assert (ds + rest)[..|ds|] == ds;
  }

  /** `atoi` skips the white space in front of a token, and only that. */
  lemma {:induction false} AtoiSkipsSpace(ws: seq<char>, t: seq<char>)
    requires AllSpace(ws)
    requires t == [] || !IsSpace(t[0])
    ensures Atoi(ws + t) == SignedMagnitude(t)
  {
    SkipSpacePadded(ws, t);
  }

  /** After a sign, the digit run that follows gives the magnitude. */
  lemma {:induction false} SignedMagnitudeSigned(sign: char, ds: seq<char>, rest: seq<char>)
    requires sign == '+' || sign == '-'
    requires AllDigits(ds)
    requires rest == [] || !IsDigit(rest[0])
    ensures SignedMagnitude([sign] + ds + rest) == if sign == '-' then -(DigitsValue(ds) as int) else DigitsValue(ds) as int
  {
    var t := [sign] + ds + rest;
    assert t[1..] == ds + rest;
    MagnitudeOf(ds, rest);
  }

  /** Without a sign, the leading digit run gives the value. */
  lemma {:induction false} SignedMagnitudeUnsigned(ds: seq<char>, rest: seq<char>)
    requires AllDigits(ds)
    requires rest == [] || !IsDigit(rest[0])
    requires ds == [] && rest != [] ==> rest[0] != '+' && rest[0] != '-'
    ensures SignedMagnitude(ds + rest) == DigitsValue(ds)
  {
    var t := ds + rest;
    assert t == [] || (t[0] != '-' && t[0] != '+');
    MagnitudeOf(ds, rest);
  }

  /**
   The whole prefix rule of `atoi`: white space, an optional sign, the
   longest digit run, then anything not starting with a digit, converts to the
   signed value of the digit run. An empty digit run gives 0, provided that,
   when there is no sign either, the text after the white space does not
   itself begin with white space or a sign.
   */
  lemma {:induction false} AtoiReadsDigitPrefix(ws: seq<char>, sign: seq<char>, ds: seq<char>, rest: seq<char>)
    requires AllSpace(ws)
    requires sign == [] || sign == ['+'] || sign == ['-']
    requires AllDigits(ds)
    requires rest == [] || !IsDigit(rest[0])
    requires sign == [] && ds == [] && rest != [] ==> !IsSpace(rest[0]) && rest[0] != '+' && rest[0] != '-'
    ensures Atoi(ws + sign + ds + rest) == if sign == ['-'] then -(DigitsValue(ds) as int) else DigitsValue(ds) as int
  {
    var t := sign + ds + rest;
    assert ws + sign + ds + rest == ws + t;
    AtoiSkipsSpace(ws, t);
    if sign != [] {
      SignedMagnitudeSigned(sign[0], ds, rest);
      assert t == [sign[0]] + ds + rest;
    } else {
      SignedMagnitudeUnsigned(ds, rest);
      assert t == ds + rest;
    }
  }

  /** A bare digit string, with or without a minus sign in front, converts to its signed value. */
  lemma {:induction false} AtoiOfDigits(ds: seq<char>)
    requires AllDigits(ds)
    ensures Atoi(ds) == DigitsValue(ds)
    ensures Atoi(['-'] + ds) == -(DigitsValue(ds) as int)
  {
    assert Atoi(ds) == DigitsValue(ds) by {
      assert ds == [] + ds && ds + [] == ds;
      AtoiSkipsSpace([], ds);
      SignedMagnitudeUnsigned(ds, []);
    }
    assert Atoi(['-'] + ds) == -(DigitsValue(ds) as int) by {
      var t := ['-'] + ds;
      assert t == [] + t && ['-'] + ds + [] == t;
      AtoiSkipsSpace([], t);
      SignedMagnitudeSigned('-', ds, []);
    }
  }

  /** `atoi` inverts `Show`: every integer's decimal rendering converts back to it. */
  lemma {:induction false} AtoiShow(i: int)
    ensures Atoi(Show(i)) == i
  {
    var n := if i < 0 then -i else i;
    AtoiOfDigits(Decimal(n));
    DecimalValue(n);
  }

  /** A token with no digits after its sign, such as `abc` or `-`, converts to 0. */
  lemma {:induction false} AtoiGarbageIsZero()
    ensures Atoi("abc") == 0
    ensures Atoi("-") == 0
    ensures Atoi("") == 0
  {
    assert "abc" == [] + [] + [] + "abc";
    AtoiReadsDigitPrefix([], [], [], "abc");
    assert "-" == [] + ['-'] + [] + [];
    AtoiReadsDigitPrefix([], ['-'], [], []);
  }

  /** Leading white space is skipped and text after the digits is ignored. */
  lemma {:induction false} AtoiIgnoresTrailingText()
    ensures Atoi(" 12x") == 12
    ensures Atoi("1 2") == 1
  {
    assert " 12x" == [' '] + [] + "12" + "x";
    AtoiReadsDigitPrefix([' '], [], "12", "x");
    assert "1 2" == [] + [] + "1" + " 2";
    AtoiReadsDigitPrefix([], [], "1", " 2");
  }
}
