/**
 The request line decoder of `loop()` in src/main.cpp:85-117: the received
 line is trimmed, split with `strtok` on commas, at most seven tokens are
 converted with `atoi`, the count is checked, and then each of the seven
 values is checked, in index order, against the signed 8-bit range.

 `Decode` is the functional model; `DecodeLine` follows the statements of the
 source (its two loops) and is proved to compute the same outcome.
 */
module LineDecoder {
  import opened CType
  import opened ArduinoString
  import opened CString
  import opened CStdlib

  /** The number of integers a request carries: `int values[7]` and `count != 7`. */
  const Width: nat := 7
  /** The bounds of the accepted range, `[-128, 127]`. */
  const Lo: int := -128
  const Hi: int := 127

  /** The three outcomes of one request line. */
  datatype Outcome = WrongCount | OutOfRange | Ok(values: seq<int>)

  /** `values[i] < -128 || values[i] > 127` is false. */
  predicate InRange(v: int) {
    Lo <= v <= Hi
  }

  /** Every value lies in `[Lo, Hi]`. */
  predicate AllInRange(vs: seq<int>) {
    forall i :: 0 <= i < |vs| ==> InRange(vs[i])
  }

  /** The values the reading loop stores: `atoi` of the first tokens, at most `Width` of them. */
  function Values(s: seq<char>): (r: seq<int>)
    ensures |r| <= Width
    ensures |r| == Width <==> |Tokens(s)| >= Width
    ensures |r| < Width ==> |r| == |Tokens(s)|
  {
    var ts := Tokens(s);
    var n := if |ts| < Width then |ts| else Width;
    seq(n, i requires 0 <= i < n => Atoi(ts[i]))
  }

  /**
   The decoder on an already trimmed line (src/main.cpp:88-113). The count
   is checked first, so a line with fewer than `Width` tokens is `WrongCount`
   whatever they hold; with enough tokens the line is accepted iff the first
   `Width` values are in range, and then they are returned in token order.
   Tokens after the first `Width` play no part.
   */
  function DecodeTrimmed(s: seq<char>): (r: Outcome)
    ensures r == WrongCount <==> |Tokens(s)| < Width
    ensures r == OutOfRange <==>
              |Tokens(s)| >= Width && exists i :: 0 <= i < Width && !InRange(Atoi(Tokens(s)[i]))
    ensures r.Ok? ==> |r.values| == Width
                      && forall i :: 0 <= i < Width ==> r.values[i] == Atoi(Tokens(s)[i]) && InRange(r.values[i])
  {
    var vs := Values(s);
    assert |vs| == Width ==> |Tokens(s)| >= Width;
    assert forall i :: 0 <= i < |vs| ==> vs[i] == Atoi(Tokens(s)[i]);
    if |vs| != Width then WrongCount
    else if !AllInRange(vs) then OutOfRange
    else Ok(vs)
  }

  /**
   One request line (src/main.cpp:85-117): the result depends on the line
   alone, through the tokens of its trimmed form.
   */
  function Decode(line: seq<char>): (r: Outcome)
    ensures r == WrongCount <==> |Tokens(Trim(line))| < Width
    ensures r == OutOfRange <==>
              |Tokens(Trim(line))| >= Width && exists i :: 0 <= i < Width && !InRange(Atoi(Tokens(Trim(line))[i]))
    ensures r.Ok? ==> |r.values| == Width
                      && forall i :: 0 <= i < Width ==> r.values[i] == Atoi(Tokens(Trim(line))[i]) && InRange(r.values[i])
  {
    DecodeTrimmed(Trim(line))
  }

  /**
   The token loop of src/main.cpp:89-94 as a recursive function: `values`
   holds what has been stored so far and `rest` is the text `strtok` has not
   yet consumed. The loop ends when no token is left or seven values are stored.
   */
  function TokenLoop(rest: seq<char>, values: seq<int>): (r: seq<int>)
    ensures |values| <= |r|
    ensures |values| <= Width ==> |r| <= Width
    decreases |rest|
  {
    match StrTok(rest)
    case NoToken => values
    case Token(text, after) =>
      if |values| < Width then TokenLoop(after, values + [Atoi(text)]) else values
  }

  /** The loop stores one value per remaining token until seven are stored. */
  lemma {:induction false} TokenLoopLength(rest: seq<char>, values: seq<int>)
    requires |values| <= Width
    ensures |TokenLoop(rest, values)| ==
              |values| + if |Tokens(rest)| < Width - |values| then |Tokens(rest)| else Width - |values|
    decreases |rest|
  {
    match StrTok(rest)
    case NoToken =>
    case Token(text, after) =>
      TokensStep(rest);
      if |values| < Width {
        TokenLoopLength(after, values + [Atoi(text)]);
      }
  }

  /** Values already stored are kept. */
  lemma {:induction false} TokenLoopKeeps(rest: seq<char>, values: seq<int>, i: nat)
    requires i < |values|
    ensures |TokenLoop(rest, values)| >= |values|
    ensures TokenLoop(rest, values)[i] == values[i]
    decreases |rest|
  {
    match StrTok(rest)
    case NoToken =>
    case Token(text, after) =>
      if |values| < Width {
        TokenLoopKeeps(after, values + [Atoi(text)], i);
      }
  }

  /** The value stored after the `j`-th further token is `atoi` of that token. */
  lemma {:induction false} TokenLoopAt(rest: seq<char>, values: seq<int>, j: nat)
    requires |values| <= Width
    requires |values| + j < |TokenLoop(rest, values)|
    ensures j < |Tokens(rest)|
    ensures TokenLoop(rest, values)[|values| + j] == Atoi(Tokens(rest)[j])
    decreases |rest|
  {
    match StrTok(rest)
    case NoToken =>
    case Token(text, after) =>
      TokensStep(rest);
      var stored := values + [Atoi(text)];
      if |values| < Width {
        assert TokenLoop(rest, values) == TokenLoop(after, stored);
        if j == 0 {
          TokenLoopKeeps(after, stored, |values|);
          assert Tokens(rest)[0] == text;
        } else {
          TokenLoopAt(after, stored, j - 1);
          assert Tokens(rest)[j] == Tokens(after)[j - 1];
        }
      }
  }

  /** Run from the start, the loop stores `atoi` of the first tokens, at most seven of them. */
  lemma {:induction false} TokenLoopValues(s: seq<char>)
    ensures TokenLoop(s, []) == Values(s)
  {
    TokenLoopLength(s, []);
    forall i | 0 <= i < |TokenLoop(s, [])|
      ensures TokenLoop(s, [])[i] == Atoi(Tokens(s)[i])
    {
      TokenLoopAt(s, [], i);
    }
  }

  /**
   The token loop of src/main.cpp:89-94: `strtok` is called until it returns
   no token or seven values are stored; value `i` is `atoi` of token `i`.
   */
  method ReadValues(s: seq<char>) returns (values: seq<int>)
    ensures |values| == if |Tokens(s)| < Width then |Tokens(s)| else Width
    ensures forall i :: 0 <= i < |values| ==> values[i] == Atoi(Tokens(s)[i])
  {
    values := [];
    var rest := s;
    var next := StrTok(rest);
    while next.Token? && |values| < Width
      invariant |values| <= Width
      invariant next == StrTok(rest)
      invariant TokenLoop(rest, values) == TokenLoop(s, [])
      decreases |rest|
    {
      values := values + [Atoi(next.text)];
      rest := next.rest;
      next := StrTok(rest);
    }
    TokenLoopValues(s);
  }

  /**
   The range loop of src/main.cpp:108-113: the index of the first value
   outside `[Lo, Hi]`, or `|values|` when every value is inside.
   */
  method FirstOutOfRange(values: seq<int>) returns (i: nat)
    ensures i <= |values|
    ensures forall k :: 0 <= k < i ==> InRange(values[k])
    ensures i < |values| ==> !InRange(values[i])
  {
    i := 0;
    while i < |values|
      invariant i <= |values|
      invariant forall k :: 0 <= k < i ==> InRange(values[k])
    {
      if values[i] < Lo || values[i] > Hi {
        return;
      }
      i := i + 1;
    }
  }

  /** The statements of src/main.cpp:85-117, with the same outcome as `Decode`. */
  method DecodeLine(line: seq<char>) returns (r: Outcome)
    ensures r == Decode(line)
  {
    var s := Trim(line);
    var values := ReadValues(s);
    if |values| != Width {
      return WrongCount;
    }
    var bad := FirstOutOfRange(values);
    if bad < |values| {
      return OutOfRange;
    }
    assert values == Values(s);
    return Ok(values);
  }

  /**
   Tokens after the seventh have no effect: once a line already holds
   `Width` tokens, whatever follows a further comma is never converted, even
   if it is out of range or not a number (src/main.cpp:91).
   */
  lemma {:induction false} ExtraTokensIgnored(a: seq<char>, b: seq<char>)
    requires |Tokens(a)| >= Width
    ensures DecodeTrimmed(a + [Delim] + b) == DecodeTrimmed(a)
  {
    TokensAppend(a, b);
    assert Values(a + [Delim] + b) == Values(a);
  }

  /** An empty field between two commas yields no token and changes nothing. */
  lemma {:induction false} EmptyFieldIgnored(a: seq<char>, b: seq<char>)
    ensures DecodeTrimmed(a + [Delim, Delim] + b) == DecodeTrimmed(a + [Delim] + b)
  {
    EmptyFieldVanishes(a, b);
  }

  /** White space around a line does not change its outcome, since the line is trimmed first. */
  lemma {:induction false} PaddingIgnored(ws1: seq<char>, line: seq<char>, ws2: seq<char>)
    requires AllSpace(ws1) && AllSpace(ws2)
    ensures Decode(ws1 + line + ws2) == Decode(line)
  {
    TrimOfPadded(ws1, line, ws2);
  }

  /** The decimal renderings of `vs`, one per number. */
  function Shows(vs: seq<int>): (ts: seq<seq<char>>)
    ensures |ts| == |vs|
    ensures forall i :: 0 <= i < |vs| ==> ts[i] == Show(vs[i])
  {
    seq(|vs|, i requires 0 <= i < |vs| => Show(vs[i]))
  }

  /** The request line a client writes for `vs`: the decimal renderings joined by commas. */
  function Render(vs: seq<int>): seq<char> {
    Join(Shows(vs))
  }

  /**
   The outcome is decided by the token values alone: a trimmed line whose
   tokens convert to `vs` is a count error when `vs` is short, a range error
   when one of its first `Width` numbers is out of range, and otherwise
   yields exactly those numbers.
   */
  lemma {:induction false} DecodeTrimmedOfValues(s: seq<char>, vs: seq<int>)
    requires |Tokens(s)| == |vs|
    requires forall i :: 0 <= i < |vs| ==> Atoi(Tokens(s)[i]) == vs[i]
    ensures DecodeTrimmed(s) ==
              if |vs| < Width then WrongCount
              else if !AllInRange(vs[..Width]) then OutOfRange
              else Ok(vs[..Width])
  {
    if |vs| >= Width {
      assert Values(s) == vs[..Width];
    }
  }

  /**
   A rendered line, possibly padded with white space, decodes to the first
   `Width` numbers when there are enough of them and they are all in range;
   with fewer numbers it is a count error whatever their values, and
   otherwise a range error.
   */
  lemma {:induction false} DecodeRendered(ws1: seq<char>, vs: seq<int>, ws2: seq<char>)
    requires AllSpace(ws1) && AllSpace(ws2)
    ensures Decode(ws1 + Render(vs) + ws2) ==
              if |vs| < Width then WrongCount
              else if !AllInRange(vs[..Width]) then OutOfRange
              else Ok(vs[..Width])
  {
    var line := Render(vs);
    RenderTokens(vs);
    RenderEnds(vs);
    TrimPadded(ws1, line, ws2);
    forall i | 0 <= i < |vs|
      ensures Atoi(Tokens(line)[i]) == vs[i]
    {
      AtoiShow(vs[i]);
    }
    DecodeTrimmedOfValues(line, vs);
  }

  /** A rendered number is a token: it is non-empty and holds no comma. */
  lemma {:induction false} ShowIsToken(v: int)
    ensures IsToken(Show(v))
  {
    var t := Show(v);
    assert forall k :: 0 <= k < |t| ==> t[k] != Delim by {
      assert forall k :: 0 <= k < |t| ==> IsDigit(t[k]) || t[k] == '-';
    }
  }

  /** The tokens of a rendered line are the renderings of its numbers. */
  lemma {:induction false} RenderTokens(vs: seq<int>)
    ensures Tokens(Render(vs)) == Shows(vs)
  {
    var ts := Shows(vs);
    forall i | 0 <= i < |ts|
      ensures IsToken(ts[i])
    {
      ShowIsToken(vs[i]);
    }
    TokensOfJoin(ts);
  }

  /** A rendered line neither starts nor ends with white space. */
  lemma {:induction false} RenderEnds(vs: seq<int>)
    ensures Render(vs) == [] || (!IsSpace(Render(vs)[0]) && !IsSpace(Render(vs)[|Render(vs)| - 1]))
  {
    if vs != [] {
      JoinEnds(Shows(vs));
    }
  }

  /** Seven in-range numbers written with commas are accepted, and decode to exactly those numbers. */
  lemma {:induction false} RenderedAccepted(vs: seq<int>)
    requires |vs| == Width && AllInRange(vs)
    ensures Decode(Render(vs)) == Ok(vs)
  {
    DecodeRendered([], vs, []);
    assert [] + Render(vs) + [] == Render(vs);
    assert vs[..Width] == vs;
  }

  /** Seven or more numbers written with commas, one of the first seven out of range, are a range error. */
  lemma {:induction false} RenderedRejected(vs: seq<int>, i: nat)
    requires Width <= |vs| && i < Width && !InRange(vs[i])
    ensures Decode(Render(vs)) == OutOfRange
  {
    DecodeRendered([], vs, []);
    assert [] + Render(vs) + [] == Render(vs);
    assert vs[..Width][i] == vs[i];
  }

  /** Fewer than seven numbers written with commas are a count error, whatever their values. */
  lemma {:induction false} RenderedShort(vs: seq<int>)
    requires |vs| < Width
    ensures Decode(Render(vs)) == WrongCount
  {
    DecodeRendered([], vs, []);
    assert [] + Render(vs) + [] == Render(vs);
  }
}
