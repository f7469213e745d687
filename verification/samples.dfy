/**
 Worked request lines for the decoder of src/main.cpp:85-117, each derived
 from the general lemmas of `LineDecoder`.
 */
module RequestSamples {
  import opened CString
  import opened CStdlib
  import opened LineDecoder

  /** The line the sketch's prompt asks for is accepted as written. */
  lemma {:induction false} SevenNumbersAccepted()
    ensures Decode("1,2,3,4,5,6,7") == Ok([1, 2, 3, 4, 5, 6, 7])
  {
    SevenNumbersRendered();
    RenderedAccepted([1, 2, 3, 4, 5, 6, 7]);
  }

  /** `1,2,3,4,5,6,7` is how the numbers one to seven are written. */
  lemma {:induction false} SevenNumbersRendered()
    ensures Render([1, 2, 3, 4, 5, 6, 7]) == "1,2,3,4,5,6,7"
  {
    SevenNumbersShown();
    TailJoined();
    JoinCons("3", ["4", "5", "6", "7"]);
    JoinCons("2", ["3", "4", "5", "6", "7"]);
    JoinCons("1", ["2", "3", "4", "5", "6", "7"]);
  }

  /** The renderings of one to seven are single digits. */
  lemma {:induction false} SevenNumbersShown()
    ensures Shows([1, 2, 3, 4, 5, 6, 7]) == ["1", "2", "3", "4", "5", "6", "7"]
  {
  }

  /** The last four renderings joined with commas. */
  lemma {:induction false} TailJoined()
    ensures Join(["4", "5", "6", "7"]) == "4,5,6,7"
  {
    JoinCons("6", ["7"]);
    JoinCons("5", ["6", "7"]);
    JoinCons("4", ["5", "6", "7"]);
  }

  /** Two commas in a row give no empty token: `1,,2` has the tokens `1` and `2`. */
  lemma {:induction false} DoubleCommaTokens()
    ensures Tokens("1,,2") == ["1", "2"]
  {
    EmptyFieldVanishes("1", "2");
    assert "1" + [Delim, Delim] + "2" == "1,,2";
    assert "1" + [Delim] + "2" == "1,2";
    TwoTokens();
  }

  /** `1,2` has the tokens `1` and `2`. */
  lemma {:induction false} TwoTokens()
    ensures Tokens("1,2") == ["1", "2"]
  {
    JoinCons("1", ["2"]);
    assert Join(["2"]) == "2";
    assert "1" + [Delim] + "2" == "1,2";
    TokensOfJoin(["1", "2"]);
  }

  /** The count is checked first: a short line is a count error even when it holds an out-of-range number. */
  lemma {:induction false} ShortLineIsCountError()
    ensures Decode("200,0,0") == WrongCount
  {
    ShortLineRendered();
    RenderedShort([200, 0, 0]);
  }

  /** `200,0,0` is how the numbers 200, 0, 0 are written. */
  lemma {:induction false} ShortLineRendered()
    ensures Render([200, 0, 0]) == "200,0,0"
  {
    TwoHundredShown();
    assert Shows([200, 0, 0]) == ["200", "0", "0"];
    JoinCons("0", ["0"]);
    JoinCons("200", ["0", "0"]);
  }

  /** The rendering of 200 is `200`. */
  lemma {:induction false} TwoHundredShown()
    ensures Show(200) == "200"
  {
    assert Decimal(2) == "2";
    assert Decimal(20) == "20";
  }

  /** Three numbers are a count error. */
  lemma {:induction false} ThreeNumbersAreCountError()
    ensures Decode("1,2,3") == WrongCount
  {
    ThreeNumbersRendered();
    RenderedShort([1, 2, 3]);
  }

  /** `1,2,3` is how the numbers one to three are written. */
  lemma {:induction false} ThreeNumbersRendered()
    ensures Render([1, 2, 3]) == "1,2,3"
  {
    assert Shows([1, 2, 3]) == ["1", "2", "3"];
    JoinCons("2", ["3"]);
    JoinCons("1", ["2", "3"]);
  }

  /** Seven numbers of which the first is 200 are a range error. */
  lemma {:induction false} OutOfRangeLine()
    ensures Decode("200,0,0,0,0,0,0") == OutOfRange
  {
    OutOfRangeRendered();
    RenderedRejected([200, 0, 0, 0, 0, 0, 0], 0);
  }

  /** `200,0,0,0,0,0,0` is how those seven numbers are written. */
  lemma {:induction false} OutOfRangeRendered()
    ensures Render([200, 0, 0, 0, 0, 0, 0]) == "200,0,0,0,0,0,0"
  {
    TwoHundredShown();
    assert Shows([200, 0, 0, 0, 0, 0, 0]) == ["200", "0", "0", "0", "0", "0", "0"];
    ZerosJoined();
    JoinCons("0", ["0", "0", "0", "0"]);
    JoinCons("0", ["0", "0", "0", "0", "0"]);
    JoinCons("200", ["0", "0", "0", "0", "0", "0"]);
  }

  /** Four zeros joined with commas. */
  lemma {:induction false} ZerosJoined()
    ensures Join(["0", "0", "0", "0"]) == "0,0,0,0"
  {
    JoinCons("0", ["0"]);
    JoinCons("0", ["0", "0"]);
    JoinCons("0", ["0", "0", "0"]);
  }
}
