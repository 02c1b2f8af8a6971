/**
 The text layer of the values file of main.py: write_new_values writes each
 value followed by a newline, init_files writes three zeros separated by
 newlines, and read_previous_values splits the text with str.splitlines.
 Values appear here as the text tokens that str(float) and float() convert.
 */
module LineText {

  /** The characters str.splitlines treats as line boundaries ("\r\n" is one boundary). */
  predicate IsLineBreak(c: char)
  {
    c == '\n' || c == '\r' || c == '\U{000B}' || c == '\U{000C}' || c == '\U{001C}' || c == '\U{001D}'
    || c == '\U{001E}' || c == '\U{0085}' || c == '\U{2028}' || c == '\U{2029}'
  }

  predicate NoLineBreak(s: string)
  {
    forall i :: 0 <= i < |s| ==> !IsLineBreak(s[i])
  }

  /** Index of the first line boundary in s, or |s| when there is none. */
  function FirstBreak(s: string): (i: nat)
    ensures i <= |s|
    ensures NoLineBreak(s[..i])
    ensures i < |s| ==> IsLineBreak(s[i])
  {
    if s == [] then 0
    else if IsLineBreak(s[0]) then 0
    else
      var j := FirstBreak(s[1..]);
      assert s[..j + 1] == [s[0]] + s[1..][..j];
      j + 1
  }

  /** Length of the boundary that starts at s[i]: two for "\r\n", else one. */
  function BreakLength(s: string, i: nat): (n: nat)
    requires i < |s|
    ensures 1 <= n <= |s| - i
  {
    if s[i] == '\r' && i + 1 < |s| && s[i + 1] == '\n' then 2 else 1
  }

  /** str.splitlines(): the lines of s without their boundaries; a last line
      with no boundary after it still counts, an empty text has no lines. */
  function SplitLines(s: string): (lines: seq<string>)
    ensures forall k :: 0 <= k < |lines| ==> NoLineBreak(lines[k])
    ensures s != [] ==> |lines| > 0
    decreases |s|
  {
    if s == [] then []
    else
      var i := FirstBreak(s);
      if i == |s| then
        assert s[..i] == s;
        [s]
      else [s[..i]] + SplitLines(s[i + BreakLength(s, i)..])
  }

  /** What write_new_values puts in the file: every token on its own line,
      each line ended by "\n". */
  function WriteLines(tokens: seq<string>): (s: string)
    ensures tokens == [] <==> s == []
  {
    if tokens == [] then [] else tokens[0] + "\n" + WriteLines(tokens[1..])
  }

  /** What init_files puts in a missing values file. */
  const InitialText: string := "0.0\n0.0\n0.0"

  lemma {:induction false} FirstBreakAfterLine(t: string, rest: string)
    requires NoLineBreak(t)
    ensures FirstBreak(t + "\n" + rest) == |t|
  {
    if t != [] {
      assert (t + "\n" + rest)[1..] == t[1..] + "\n" + rest;
      FirstBreakAfterLine(t[1..], rest);
    }
  }

  /** Splitting a line ended by "\n" off the front of a text. */
  lemma SplitFirstLine(t: string, rest: string)
    requires NoLineBreak(t)
    ensures SplitLines(t + "\n" + rest) == [t] + SplitLines(rest)
  {
    var s := t + "\n" + rest;
    FirstBreakAfterLine(t, rest);
    assert s[..|t|] == t;
    assert BreakLength(s, |t|) == 1;
    assert s[|t| + 1..] == rest;
  }

  /** Reading back what was written gives the same tokens, in the same order. */
  lemma {:induction false} SplitWriteRoundTrip(tokens: seq<string>)
    requires forall k :: 0 <= k < |tokens| ==> NoLineBreak(tokens[k])
    ensures SplitLines(WriteLines(tokens)) == tokens
  {
    if tokens != [] {
      SplitFirstLine(tokens[0], WriteLines(tokens[1..]));
      SplitWriteRoundTrip(tokens[1..]);
    }
  }

  /** The text of a fresh values file reads as three zero readings. */
  lemma InitialTextReadsAsThreeZeros()
    ensures SplitLines(InitialText) == ["0.0", "0.0", "0.0"]
  {
    assert InitialText == "0.0" + "\n" + ("0.0" + "\n" + "0.0");
    SplitFirstLine("0.0", "0.0" + "\n" + "0.0");
    SplitFirstLine("0.0", "0.0");
    assert FirstBreak("0.0") == 3;
  }
}
