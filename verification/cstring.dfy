/**
 Tokenising with `strtok(line, ",")` as in section 7.24.5.8 of ISO C11
 (src/main.cpp:90-94). Each call skips the delimiters in front of the next
 token, returns the run of non-delimiters that follows, and resumes after the
 delimiter that ends it; so runs of commas collapse and no token is empty.

 `Fields` and `Join` are an independent reference: splitting at EVERY comma
 and its inverse. The tokens are exactly the non-empty fields.
 */
module CString {

  /** The delimiter string `","` passed to both `strtok` calls. */
  const Delim: char := ','

  /** The outcome of one `strtok` call: no further token (a null pointer), or a token and the text after it. */
  datatype Next = NoToken | Token(text: seq<char>, rest: seq<char>)

  /** True iff `s` contains no delimiter. */
  predicate DelimFree(s: seq<char>) {
    forall k :: 0 <= k < |s| ==> s[k] != Delim
  }

  /** True iff `s` could be returned as a token: non-empty and delimiter-free. */
  predicate IsToken(s: seq<char>) {
    |s| > 0 && DelimFree(s)
  }

  /** `strcspn(s, ",")`: the length of the longest delimiter-free prefix. */
  function SpanLength(s: seq<char>): (n: nat)
    ensures n <= |s|
    ensures forall k :: 0 <= k < n ==> s[k] != Delim
    ensures n < |s| ==> s[n] == Delim
  {
    if |s| == 0 || s[0] == Delim then 0 else 1 + SpanLength(s[1..])
  }

  /**
   One `strtok` call on the remaining text `s`: leading delimiters are
   skipped (`strspn`); if nothing is left there is no token, otherwise the
   token runs up to the next delimiter (`strcspn`), which is consumed. A token
   is returned iff `s` holds a non-delimiter; the token is non-empty and
   delimiter-free, and the text to resume from is strictly shorter than `s`.
   */
  function StrTok(s: seq<char>): (r: Next)
    ensures r.NoToken? <==> forall k :: 0 <= k < |s| ==> s[k] == Delim
    ensures r.Token? ==> IsToken(r.text) && |r.rest| < |s|
  {
    if |s| == 0 then NoToken
    else if s[0] == Delim then StrTok(s[1..])
    else
      var n := SpanLength(s);
      Token(s[..n], if n < |s| then s[n + 1..] else [])
  }

  /** All tokens successive `strtok` calls return for `s`, in order. */
  function Tokens(s: seq<char>): (r: seq<seq<char>>)
    ensures forall i :: 0 <= i < |r| ==> IsToken(r[i])
    decreases |s|
  {
    match StrTok(s)
    case NoToken => []
    case Token(text, rest) => [text] + Tokens(rest)
  }

  /** Splits `s` at every delimiter, keeping empty fields; there is always at least one field. */
  function Fields(s: seq<char>): (r: seq<seq<char>>)
    ensures |r| >= 1
    decreases |s|
  {
    var n := SpanLength(s);
    if n == |s| then [s] else [s[..n]] + Fields(s[n + 1..])
  }

  /** Writes the fields `fs` separated by single delimiters. */
  function Join(fs: seq<seq<char>>): seq<char>
    decreases |fs|
  {
    if |fs| == 0 then []
    else if |fs| == 1 then fs[0]
    else fs[0] + [Delim] + Join(fs[1..])
  }

  /** The non-empty members of `fs`, in order. */
  function NonEmpty(fs: seq<seq<char>>): (r: seq<seq<char>>)
    ensures forall i :: 0 <= i < |r| ==> |r[i]| > 0
    decreases |fs|
  {
    if |fs| == 0 then []
    else if |fs[0]| == 0 then NonEmpty(fs[1..])
    else [fs[0]] + NonEmpty(fs[1..])
  }

  /** Filtering out empty members distributes over concatenation. */
  lemma {:induction false} NonEmptyAppend(xs: seq<seq<char>>, ys: seq<seq<char>>)
    ensures NonEmpty(xs + ys) == NonEmpty(xs) + NonEmpty(ys)
    decreases |xs|
  {
    if xs == [] {
      assert xs + ys == ys;
    } else {
      assert (xs + ys)[0] == xs[0];
      assert (xs + ys)[1..] == xs[1..] + ys;
      NonEmptyAppend(xs[1..], ys);
      if |xs[0]| == 0 {
        assert NonEmpty(xs) == NonEmpty(xs[1..]);
      } else {
        assert NonEmpty(xs) == [xs[0]] + NonEmpty(xs[1..]);
      }
    }
  }

  /** A list without empty members is kept whole. */
  lemma {:induction false} NonEmptyOfNonEmpty(fs: seq<seq<char>>)
    requires forall i :: 0 <= i < |fs| ==> |fs[i]| > 0
    ensures NonEmpty(fs) == fs
    decreases |fs|
  {
    if fs != [] {
      NonEmptyOfNonEmpty(fs[1..]);
    }
  }

  /** The delimiter-free prefix of `a` is also that of `a + b`, when `a` itself contains a delimiter. */
  lemma {:induction false} SpanLengthAppend(a: seq<char>, b: seq<char>)
    requires SpanLength(a) < |a|
    ensures SpanLength(a + b) == SpanLength(a)
    decreases |a|
  {
    if a[0] != Delim {
      assert (a + b)[1..] == a[1..] + b;
      SpanLengthAppend(a[1..], b);
    }
  }

  /** A delimiter-free prefix is spanned entirely, and the span stops at a delimiter right after it. */
  lemma {:induction false} SpanLengthDelimFree(a: seq<char>, b: seq<char>)
    requires DelimFree(a)
    ensures SpanLength(a + b) == |a| + SpanLength(b)
    decreases |a|
  {
    if a == [] {
      assert a + b == b;
    } else {
      assert (a + b)[0] == a[0];
      assert (a + b)[1..] == a[1..] + b;
      SpanLengthDelimFree(a[1..], b);
    }
  }

  /** The fields of `a` and of `b` are the fields of `a` and `b` joined by one delimiter. */
  lemma {:induction false} FieldsAppend(a: seq<char>, b: seq<char>)
    ensures Fields(a + [Delim] + b) == Fields(a) + Fields(b)
    decreases |a|
  {
    var n := SpanLength(a);
    if n == |a| {
      FieldsAppendSingle(a, b);
    } else {
      var head, tail := a[..n], a[n + 1..];
      FieldsAppendSplit(a, b);
      FieldsAppend(tail, b);
      assert [head] + (Fields(tail) + Fields(b)) == ([head] + Fields(tail)) + Fields(b);
    }
  }

  /** `FieldsAppend` when `a` is a single field. */
  lemma {:induction false} FieldsAppendSingle(a: seq<char>, b: seq<char>)
    requires SpanLength(a) == |a|
    ensures Fields(a + [Delim] + b) == [a] + Fields(b)
  {
    var s := a + [Delim] + b;
    SpanLengthDelimFree(a, [Delim] + b);
    assert s == a + ([Delim] + b);
    assert s[..|a|] == a;
    assert s[|a| + 1..] == b;
  }

  /** `FieldsAppend` when `a` holds a delimiter: its first field comes first, and the rest is split further. */
  lemma {:induction false} FieldsAppendSplit(a: seq<char>, b: seq<char>)
    requires SpanLength(a) < |a|
    ensures Fields(a + [Delim] + b) == [a[..SpanLength(a)]] + Fields(a[SpanLength(a) + 1..] + [Delim] + b)
    ensures Fields(a) == [a[..SpanLength(a)]] + Fields(a[SpanLength(a) + 1..])
  {
    var s := a + [Delim] + b;
    var n := SpanLength(a);
    SpanLengthAppend(a, [Delim] + b);
    assert s == a + ([Delim] + b);
    assert s[..n] == a[..n];
    assert s[n + 1..] == a[n + 1..] + [Delim] + b;
  }

  /** Joining the fields of `s` gives back `s`. */
  lemma {:induction false} JoinFields(s: seq<char>)
    ensures Join(Fields(s)) == s
    decreases |s|
  {
    var n := SpanLength(s);
    if n < |s| {
      JoinFields(s[n + 1..]);
      var fs := Fields(s);
      assert fs == [s[..n]] + Fields(s[n + 1..]);
      assert fs[1..] == Fields(s[n + 1..]);
      assert s == s[..n] + [Delim] + s[n + 1..];
    }
  }

  /** Splitting delimiter-free fields joined by single delimiters gives them back. */
  lemma {:induction false} FieldsJoin(fs: seq<seq<char>>)
    requires |fs| >= 1
    requires forall i :: 0 <= i < |fs| ==> DelimFree(fs[i])
    ensures Fields(Join(fs)) == fs
    decreases |fs|
  {
    SpanLengthDelimFree(fs[0], []);
    assert fs[0] + [] == fs[0];
    assert Fields(fs[0]) == [fs[0]];
    if |fs| > 1 {
      FieldsAppend(fs[0], Join(fs[1..]));
      FieldsJoin(fs[1..]);
      assert fs == [fs[0]] + fs[1..];
    }
  }

  /** The tokens of `s` are exactly its non-empty fields. */
  lemma {:induction false} TokensAreNonEmptyFields(s: seq<char>)
    ensures Tokens(s) == NonEmpty(Fields(s))
    decreases |s|
  {
    if |s| == 0 {
    } else if s[0] == Delim {
      assert [Delim] + s[1..] == s;
      LeadingDelimVanishes(s[1..]);
      assert SpanLength(s) == 0;
      assert Fields(s) == [[]] + Fields(s[1..]);
      TokensAreNonEmptyFields(s[1..]);
    } else {
      var n := SpanLength(s);
      if n < |s| {
        TokensAreNonEmptyFields(s[n + 1..]);
      } else {
        assert s[..n] == s;
        assert Tokens([]) == [];
      }
    }
  }

  /**
   Tokens do not straddle a delimiter: the tokens of `a` and of `b` are the
   tokens of `a` and `b` joined by a delimiter.
   */
  lemma {:induction false} TokensAppend(a: seq<char>, b: seq<char>)
    ensures Tokens(a + [Delim] + b) == Tokens(a) + Tokens(b)
  {
    TokensAreNonEmptyFields(a + [Delim] + b);
    TokensAreNonEmptyFields(a);
    TokensAreNonEmptyFields(b);
    FieldsAppend(a, b);
    NonEmptyAppend(Fields(a), Fields(b));
  }

  /** Empty fields disappear: a doubled delimiter tokenises like a single one. */
  lemma {:induction false} EmptyFieldVanishes(a: seq<char>, b: seq<char>)
    ensures Tokens(a + [Delim, Delim] + b) == Tokens(a + [Delim] + b)
  {
    assert a + [Delim, Delim] + b == a + [Delim] + ([Delim] + b);
    TokensAppend(a, [Delim] + b);
    LeadingDelimVanishes(b);
    TokensAppend(a, b);
  }

  /** A leading delimiter contributes no token. */
  lemma {:induction false} LeadingDelimVanishes(s: seq<char>)
    ensures Tokens([Delim] + s) == Tokens(s)
  {
    assert ([Delim] + s)[1..] == s;
  }

  /** A trailing delimiter contributes no token. */
  lemma {:induction false} TrailingDelimVanishes(s: seq<char>)
    ensures Tokens(s + [Delim]) == Tokens(s)
  {
    var t := s + [Delim] + [];
    assert t == s + [Delim];
    TokensAppend(s, []);
    assert Tokens(t) == Tokens(s) + Tokens([]);
    assert Tokens([]) == [];
  }

  /** Non-empty, delimiter-free texts joined by delimiters tokenise back to themselves. */
  lemma {:induction false} TokensOfJoin(ts: seq<seq<char>>)
    requires forall i :: 0 <= i < |ts| ==> IsToken(ts[i])
    ensures Tokens(Join(ts)) == ts
  {
    if ts == [] {
      assert Tokens([]) == [];
    } else {
      TokensAreNonEmptyFields(Join(ts));
      FieldsJoin(ts);
      NonEmptyOfNonEmpty(ts);
    }
  }

  /** Joined non-empty texts start with the first text's first character and end with the last text's last one. */
  lemma {:induction false} JoinEnds(ts: seq<seq<char>>)
    requires |ts| > 0
    requires forall i :: 0 <= i < |ts| ==> |ts[i]| > 0
    ensures |Join(ts)| > 0
    ensures Join(ts)[0] == ts[0][0]
    ensures Join(ts)[|Join(ts)| - 1] == ts[|ts| - 1][|ts[|ts| - 1]| - 1]
    decreases |ts|
  {
    if |ts| > 1 {
      JoinEnds(ts[1..]);
    }
  }

  /** Each `strtok` call yields the next token: the tokens of `s` are the token found followed by the tokens of the rest. */
  lemma {:induction false} TokensStep(s: seq<char>)
    requires StrTok(s).Token?
    ensures Tokens(s) == [StrTok(s).text] + Tokens(StrTok(s).rest)
  {
  }

  /** Joining puts one delimiter between the first field and the join of the others. */
  lemma {:induction false} JoinCons(t: seq<char>, ts: seq<seq<char>>)
    requires |ts| > 0
    ensures Join([t] + ts) == t + [Delim] + Join(ts)
  {
    assert ([t] + ts)[1..] == ts;
  }
}
