/**
 The Arduino `String::trim()` call applied to the received line before it is
 tokenised (src/main.cpp:86): leading and then trailing `isspace` characters
 are removed. `String::trim()` belongs to the Arduino core, whose source is
 not in this repository; the behaviour is the documented one, with the same
 character class `atoi` uses.
 */
module ArduinoString {
  import opened CType

  /** Drops the longest all-white-space suffix, the backward scan of `trim()`. */
  function DropTrailingSpace(s: seq<char>): (r: seq<char>)
    ensures |r| <= |s| && r == s[..|r|]
    ensures forall k :: |r| <= k < |s| ==> IsSpace(s[k])
    ensures r == [] || !IsSpace(r[|r| - 1])
  {
    if |s| > 0 && IsSpace(s[|s| - 1]) then DropTrailingSpace(s[..|s| - 1]) else s
  }

  /**
   `user_input.trim()`: the result neither starts nor ends with white space;
   `TrimSlice` states that it is what is left of `s` after removing a
   white-space prefix and suffix.
   */
  function Trim(s: seq<char>): (r: seq<char>)
    ensures |r| <= |s|
    ensures r == [] || (!IsSpace(r[0]) && !IsSpace(r[|r| - 1]))
  {
    DropTrailingSpace(SkipSpace(s))
  }

  /** Where the trimmed text begins in `s`: the length of its white-space prefix. */
  function TrimStart(s: seq<char>): nat {
    |s| - |SkipSpace(s)|
  }

  /** `Trim(s)` is the contiguous slice of `s` between an all-white-space prefix and suffix. */
  lemma {:induction false} TrimSlice(s: seq<char>)
    ensures TrimStart(s) + |Trim(s)| <= |s|
    ensures Trim(s) == s[TrimStart(s)..TrimStart(s) + |Trim(s)|]
    ensures AllSpace(s[..TrimStart(s)]) && AllSpace(s[TrimStart(s) + |Trim(s)|..])
  {
    var t := SkipSpace(s);
    var r := DropTrailingSpace(t);
    var i := |s| - |t|;
    SkipSpaceSuffix(s);
    assert r == s[i..i + |r|];
    assert s[i + |r|..] == t[|r|..];
  }

  /** White space joined to white space is white space. */
  lemma {:induction false} AllSpaceAppend(a: seq<char>, b: seq<char>)
    requires AllSpace(a) && AllSpace(b)
    ensures AllSpace(a + b)
  {
    assert forall k :: 0 <= k < |a + b| ==> (a + b)[k] == if k < |a| then a[k] else b[k - |a|];
  }

  /** Text followed by white space loses exactly that white space. */
  lemma {:induction false} DropTrailingSpacePadded(t: seq<char>, ws: seq<char>)
    requires AllSpace(ws)
    requires t == [] || !IsSpace(t[|t| - 1])
    ensures DropTrailingSpace(t + ws) == t
  {
    if ws != [] {
      assert (t + ws)[..|t + ws| - 1] == t + ws[..|ws| - 1];
      DropTrailingSpacePadded(t, ws[..|ws| - 1]);
    }
  }

  /**
   Padding a line that has no white space at either end with white space on
   both sides does not change what `trim()` returns.
   */
  lemma {:induction false} TrimPadded(ws1: seq<char>, core: seq<char>, ws2: seq<char>)
    requires AllSpace(ws1) && AllSpace(ws2)
    requires core == [] || (!IsSpace(core[0]) && !IsSpace(core[|core| - 1]))
    ensures Trim(ws1 + core + ws2) == core
  {
    if core == [] {
      assert ws1 + core + ws2 == (ws1 + ws2) + [];
      SkipSpacePadded(ws1 + ws2, []);
    } else {
      assert ws1 + core + ws2 == ws1 + (core + ws2);
      SkipSpacePadded(ws1, core + ws2);
      DropTrailingSpacePadded(core, ws2);
    }
  }

  /** Trimming is idempotent: a trimmed line trims to itself. */
  lemma {:induction false} TrimIdempotent(s: seq<char>)
    ensures Trim(Trim(s)) == Trim(s)
  {
    TrimPadded([], Trim(s), []);
    assert [] + Trim(s) + [] == Trim(s);
  }

  /** White space added around any line is removed along with the line's own. */
  lemma {:induction false} TrimOfPadded(ws1: seq<char>, s: seq<char>, ws2: seq<char>)
    requires AllSpace(ws1) && AllSpace(ws2)
    ensures Trim(ws1 + s + ws2) == Trim(s)
  {
    var r := Trim(s);
    TrimSlice(s);
    var i := TrimStart(s);
    var front, back := s[..i], s[i + |r|..];
    AllSpaceAppend(ws1, front);
    AllSpaceAppend(back, ws2);
    assert s == front + r + back;
    Regroup(ws1, front, r, back, ws2);
    TrimPadded(ws1 + front, r, back + ws2);
  }

  /** Concatenation regrouped: the outer pieces join the neighbouring inner ones. */
  lemma {:induction false} Regroup(a: seq<char>, b: seq<char>, c: seq<char>, d: seq<char>, e: seq<char>)
    ensures a + (b + c + d) + e == (a + b) + c + (d + e)
  {
  }
}
