/** Python's whitespace handling on text: `str.split()` with no separator,
    `str.strip()` with no argument, and the line joining used to build chat
    messages. */
module Text {

  /** `str.isspace()` for a single character: the characters that
      `str.split()` separates on and `str.strip()` removes. */
  predicate IsSpace(c: char) {
    || ('\t' <= c <= '\r')
    || ('\U{1C}' <= c <= ' ')
    || c == '\U{85}' || c == '\U{A0}' || c == '\U{1680}'
    || ('\U{2000}' <= c <= '\U{200A}')
    || c == '\U{2028}' || c == '\U{2029}' || c == '\U{202F}'
    || c == '\U{205F}' || c == '\U{3000}'
  }

  predicate AllSpace(s: string) {
    forall i :: 0 <= i < |s| ==> IsSpace(s[i])
  }

  /** A token as `str.split()` yields it: non-empty, no whitespace inside. */
  predicate IsToken(t: string) {
    |t| > 0 && forall i :: 0 <= i < |t| ==> !IsSpace(t[i])
  }

  /** Length of the longest whitespace-free prefix of `s`. */
  function TokenLength(s: string): (n: nat)
    ensures n <= |s|
    ensures forall i :: 0 <= i < n ==> !IsSpace(s[i])
    ensures n < |s| ==> IsSpace(s[n])
  {
    if s == [] || IsSpace(s[0]) then 0 else 1 + TokenLength(s[1..])
  }

  /** `s.split()`: the maximal runs of non-whitespace characters, in order. */
  function Split(s: string): seq<string>
    decreases |s|
  {
    if s == [] then []
    else if IsSpace(s[0]) then Split(s[1..])
    else
      var n := TokenLength(s);
      [s[..n]] + Split(s[n..])
  }

  /** `s.lstrip()`: drops the whitespace at the front of `s`; what is
      dropped is all whitespace and what is kept does not start with it. */
  function StripLeft(s: string): (r: string)
    ensures |r| <= |s| && r == s[|s| - |r|..]
    ensures AllSpace(s[..|s| - |r|])
    ensures r == [] || !IsSpace(r[0])
  {
    if s != [] && IsSpace(s[0]) then
      var r := StripLeft(s[1..]);
      assert s[..|s| - |r|] == [s[0]] + s[1..][..|s| - 1 - |r|];
      r
    else s
  }

  /** `s.rstrip()`: drops the whitespace at the back of `s`; what is
      dropped is all whitespace and what is kept does not end with it. */
  function StripRight(s: string): (r: string)
    ensures |r| <= |s| && r == s[..|r|]
    ensures AllSpace(s[|r|..])
    ensures r == [] || !IsSpace(r[|r| - 1])
  {
    if s != [] && IsSpace(s[|s| - 1]) then
      var init := s[..|s| - 1];
      var r := StripRight(init);
      assert s[|r|..] == init[|r|..] + [s[|s| - 1]];
      r
    else s
  }

  /** `s.strip()`: `s` without its leading and trailing whitespace. */
  function Strip(s: string): (r: string)
    ensures |r| <= |s|
    ensures r == [] || (!IsSpace(r[0]) && !IsSpace(r[|r| - 1]))
  {
    var l := StripLeft(s);
    var r := StripRight(l);
    assert r != [] ==> r[0] == l[0];
    r
  }

  /** What `s.strip()` keeps is one contiguous piece of `s`: the `|r|`
      characters from where `lstrip` stops. What it drops on either side of
      that piece is all whitespace. */
  lemma {:induction false} StripSlice(s: string)
    ensures var i := |s| - |StripLeft(s)|; var r := Strip(s);
      && i + |r| <= |s| && r == s[i..][..|r|]
      && AllSpace(s[..i]) && AllSpace(s[i..][|r|..])
  {
    assert Strip(s) == StripRight(StripLeft(s));
  }

  /** Tokens joined by single spaces: the payload shape `"x1 x2 x3"`. */
  function JoinSpaced(ts: seq<string>): string {
    if ts == [] then ""
    else if |ts| == 1 then ts[0]
    else ts[0] + " " + JoinSpaced(ts[1..])
  }

  /** Lines joined by newlines, as a multi-line message is built. */
  function JoinLines(ls: seq<string>): string {
    if ls == [] then ""
    else if |ls| == 1 then ls[0]
    else ls[0] + "\n" + JoinLines(ls[1..])
  }

  /** Every element of `s.split()` is a token. */
  lemma {:induction false} SplitTokens(s: string)
    ensures forall i :: 0 <= i < |Split(s)| ==> IsToken(Split(s)[i])
    decreases |s|
  {
    if s == [] {
    } else if IsSpace(s[0]) {
      SplitTokens(s[1..]);
    } else {
      var n := TokenLength(s);
      SplitTokens(s[n..]);
      assert Split(s) == [s[..n]] + Split(s[n..]);
    }
  }

  lemma {:induction false} TokenLengthOfToken(t: string, rest: string)
    requires IsToken(t)
    requires rest == [] || IsSpace(rest[0])
    ensures TokenLength(t + rest) == |t|
  {
    if |t| > 1 {
      assert (t + rest)[1..] == t[1..] + rest;
      TokenLengthOfToken(t[1..], rest);
    } else {
      assert (t + rest)[1..] == rest;
    }
  }

  /** Splitting a space-joined list of tokens gives the tokens back. */
  lemma {:induction false} SplitJoinSpaced(ts: seq<string>)
    requires forall i :: 0 <= i < |ts| ==> IsToken(ts[i])
    ensures Split(JoinSpaced(ts)) == ts
  {
    if ts == [] {
    } else if |ts| == 1 {
      TokenLengthOfToken(ts[0], "");
      assert ts[0] + "" == ts[0] == JoinSpaced(ts);
      assert JoinSpaced(ts)[..|ts[0]|] == ts[0];
      assert JoinSpaced(ts)[|ts[0]|..] == "";
    } else {
      var s := JoinSpaced(ts);
      var tail := " " + JoinSpaced(ts[1..]);
      assert s == ts[0] + tail;
      TokenLengthOfToken(ts[0], tail);
      assert s[..|ts[0]|] == ts[0];
      assert s[|ts[0]|..] == tail;
      assert tail[1..] == JoinSpaced(ts[1..]);
      SplitJoinSpaced(ts[1..]);
    }
  }

  /** Leading whitespace never changes the tokens. */
  lemma {:induction false} SplitLeadingSpace(ws: string, s: string)
    requires AllSpace(ws)
    ensures Split(ws + s) == Split(s)
  {
    if ws != [] {
      assert IsSpace((ws + s)[0]);
      assert (ws + s)[1..] == ws[1..] + s;
      assert Split(ws + s) == Split(ws[1..] + s);
      SplitLeadingSpace(ws[1..], s);
    } else {
      assert ws + s == s;
    }
  }

  /** Trailing whitespace never changes the tokens. */
  lemma {:induction false} SplitTrailingSpace(s: string, ws: string)
    requires AllSpace(ws)
    ensures Split(s + ws) == Split(s)
    decreases |s|
  {
    if s == [] {
      assert s + ws == ws;
      SplitLeadingSpace(ws, "");
      assert ws + "" == ws;
    } else if IsSpace(s[0]) {
      assert (s + ws)[1..] == s[1..] + ws;
      SplitTrailingSpace(s[1..], ws);
    } else {
      var n := TokenLength(s);
      if n < |s| {
        TokenLengthOfToken(s[..n], s[n..] + ws);
        assert s[..n] + (s[n..] + ws) == s + ws;
      } else {
        TokenLengthOfToken(s, ws);
      }
      assert (s + ws)[..n] == s[..n];
      assert (s + ws)[n..] == s[n..] + ws;
      SplitTrailingSpace(s[n..], ws);
    }
  }

  /** Removing leading whitespace never changes the tokens. */
  lemma {:induction false} SplitStripLeft(s: string)
    ensures Split(StripLeft(s)) == Split(s)
  {
    if s != [] && IsSpace(s[0]) {
      SplitStripLeft(s[1..]);
    }
  }

  /** Removing trailing whitespace never changes the tokens. */
  lemma SplitStripRight(s: string)
    ensures Split(StripRight(s)) == Split(s)
  {
    var r := StripRight(s);
    assert s == r + s[|r|..];
    SplitTrailingSpace(r, s[|r|..]);
  }

  /** `payload.strip().split()` has the same tokens as `payload.split()`. */
  lemma SplitStrip(s: string)
    ensures Split(Strip(s)) == Split(s)
  {
    SplitStripLeft(s);
    SplitStripRight(StripLeft(s));
  }

  /** Text that neither starts nor ends with whitespace is left alone by
      `strip`. */
  lemma StripUnchanged(s: string)
    requires s == [] || (!IsSpace(s[0]) && !IsSpace(s[|s| - 1]))
    ensures Strip(s) == s
  {
  }

  lemma JoinSpacedThree(x1: string, x2: string, x3: string)
    ensures JoinSpaced([x1, x2, x3]) == x1 + " " + x2 + " " + x3
  {
    assert [x1, x2, x3][1..] == [x2, x3];
    assert [x2, x3][1..] == [x3];
    assert JoinSpaced([x3]) == x3;
    assert JoinSpaced([x2, x3]) == x2 + " " + x3;
    assert x1 + " " + (x2 + " " + x3) == x1 + " " + x2 + " " + x3;
  }

  /** The first line of a joined message is its first element. */
  lemma JoinLinesFirst(ls: seq<string>)
    requires |ls| >= 2
    ensures JoinLines(ls)[..|ls[0]| + 1] == ls[0] + "\n"
  {
  }
}
