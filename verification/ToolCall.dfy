/** The prompted tool protocol: a `TOOL_CALL {json}` line in a reply. */
module ToolCall {
  import opened Text

  type Args = map<string, string>

  /** What json.loads and the look-ups after it make of the payload of a marker line: no call for the
      errors that are caught, an exception for those that are not. */
  datatype Parsed = NoCall | Call(tool: string, args: Args) | Raises

  type CallDecoder = string -> Parsed

  const TOOL_MARKER := "TOOL_CALL"

  predicate Marked(s: string) {
    StartsWith(s, TOOL_MARKER)
  }

  // ---- lines --------------------------------------------------------------

  /** The first line break from i on, or the end. */
  function BreakFrom(s: string, i: nat): (r: nat)
    requires i <= |s|
    ensures i <= r <= |s|
    ensures forall k :: i <= k < r ==> !IsLineBreak(s[k])
    ensures r < |s| ==> IsLineBreak(s[r])
    decreases |s| - i
  {
    if i < |s| && !IsLineBreak(s[i]) then BreakFrom(s, i + 1) else i
  }

  function LineLength(s: string): nat {
    BreakFrom(s, 0)
  }

  /** What follows the first line and its break; CR LF is one break. */
  function AfterLine(s: string): (r: string)
    ensures |r| <= |s| && (s != "" ==> |r| < |s|)
  {
    var n := LineLength(s);
    if n == |s| then ""
    else if s[n] == '\r' && n + 1 < |s| && s[n + 1] == '\n' then s[n + 2..]
    else s[n + 1..]
  }

  /** str.splitlines. */
  function SplitLines(s: string): seq<string>
    decreases |s|
  {
    if s == "" then [] else [s[..LineLength(s)]] + SplitLines(AfterLine(s))
  }

  // ---- parse_tool_call ----------------------------------------------------

  function Payload(line: string): string
    requires Marked(line)
  {
    Strip(line[|TOOL_MARKER|..])
  }

  /** The first line that, stripped, begins with the marker decides. */
  function FirstCall(decode: CallDecoder, lines: seq<string>, i: nat): Parsed
    requires i <= |lines|
    decreases |lines| - i
  {
    if i == |lines| then NoCall
    else if Marked(Strip(lines[i])) then decode(Payload(Strip(lines[i])))
    else FirstCall(decode, lines, i + 1)
  }

  function CallIn(decode: CallDecoder, text: string): Parsed {
    FirstCall(decode, SplitLines(text), 0)
  }

  method ParseToolCall(decode: CallDecoder, text: string) returns (r: Parsed)
    ensures r == CallIn(decode, text)
  {
    var lines := SplitLines(text);
    var k := 0;
    while k < |lines|
      invariant 0 <= k <= |lines|
      invariant CallIn(decode, text) == FirstCall(decode, lines, k)
    {
      var line := Strip(lines[k]);
      if Marked(line) {
        return decode(Payload(line));
      }
      k := k + 1;
    }
    return NoCall;
  }

  lemma {:induction false} FirstIs(decode: CallDecoder, lines: seq<string>, k: nat, i: nat)
    requires k <= i <= |lines| && (forall j :: k <= j < i ==> !("TOOL_CALL" <= Strip(lines[j])))
    requires i < |lines| ==> "TOOL_CALL" <= Strip(lines[i])
    ensures FirstCall(decode, lines, k) == if i == |lines| then NoCall else decode(Strip(Strip(lines[i])[9..]))
    decreases i - k
  {
    if k < i {
      FirstIs(decode, lines, k + 1, i);
    }
  }

  /** Among the lines of a reply, blanks at their ends taken off, the first that begins with the marker
      decides: what is behind the marker, blanks taken off, is decoded. Without one there is no call. */
  lemma FirstMarkedDecides(decode: CallDecoder, text: string, i: nat)
    requires var lines := SplitLines(text);
             && i <= |lines| && (forall j :: 0 <= j < i ==> !("TOOL_CALL" <= Strip(lines[j])))
             && (i < |lines| ==> "TOOL_CALL" <= Strip(lines[i]))
    ensures var lines := SplitLines(text);
            CallIn(decode, text) == if i == |lines| then NoCall else decode(Strip(Strip(lines[i])[9..]))
  {
    FirstIs(decode, SplitLines(text), 0, i);
  }

  // ---- what the lines of a text are ---------------------------------------

  predicate IsBreak(s: string) {
    s == "\r\n" || (|s| == 1 && IsLineBreak(s[0]))
  }

  /** Lines, each followed by its break. */
  function Woven(lines: seq<string>, breaks: seq<string>): string
    requires |lines| == |breaks|
  {
    if lines == [] then "" else lines[0] + breaks[0] + Woven(lines[1..], breaks[1..])
  }

  /** The break after the first line, if there is one. */
  function Gap(s: string): string {
    s[LineLength(s)..|s| - |AfterLine(s)|]
  }

  function Gaps(s: string): seq<string>
    decreases |s|
  {
    if s == "" then [] else [Gap(s)] + Gaps(AfterLine(s))
  }

  lemma FirstGap(s: string)
    requires s != ""
    ensures IsBreak(Gap(s)) || (Gap(s) == "" && AfterLine(s) == "" && s[..LineLength(s)] != "")
    ensures Gap(s) == "\r" ==> !("\n" <= AfterLine(s))
  {
    var n := LineLength(s);
    if n < |s| {
      if s[n] == '\r' && n + 1 < |s| && s[n + 1] == '\n' {
        assert Gap(s) == s[n..n + 2] == "\r\n";
      } else {
        assert Gap(s) == [s[n]] && AfterLine(s) == s[n + 1..];
      }
    }
  }

  lemma FirstLine(s: string)
    requires s != ""
    ensures s == s[..LineLength(s)] + Gap(s) + AfterLine(s)
    ensures forall c <- s[..LineLength(s)] :: !IsLineBreak(c)
  {
    var n := LineLength(s);
    if n == |s| {
      assert Gap(s) == "" && s[..n] == s;
    } else if s[n] == '\r' && n + 1 < |s| && s[n + 1] == '\n' {
      assert Gap(s) == s[n..n + 2] && AfterLine(s) == s[n + 2..];
    } else {
      assert Gap(s) == s[n..n + 1] && AfterLine(s) == s[n + 1..];
    }
  }

  /** The lines of a text and the breaks after them make it up. */
  lemma {:induction false} LinesWeave(s: string)
    ensures |Gaps(s)| == |SplitLines(s)| && Woven(SplitLines(s), Gaps(s)) == s
    decreases |s|
  {
    if s != "" {
      LinesWeave(AfterLine(s));
      FirstLine(s);
      var lines, gaps := SplitLines(AfterLine(s)), Gaps(AfterLine(s));
      assert ([s[..LineLength(s)]] + lines)[1..] == lines && ([Gap(s)] + gaps)[1..] == gaps;
    }
  }

  lemma FirstOfLines(s: string)
    requires s != ""
    ensures |SplitLines(s)| > 0 && |Gaps(s)| > 0 && SplitLines(s)[0] + Gaps(s)[0] <= s
  {
    FirstLine(s);
  }

  /** No line holds a line break, CR LF is not taken for two, and only the last break may be missing, after a
      line that is not empty. */
  lemma {:induction false} LinesAre(s: string, i: nat)
    requires i < |SplitLines(s)|
    ensures |Gaps(s)| == |SplitLines(s)|
    ensures forall c <- SplitLines(s)[i] :: !IsLineBreak(c)
    ensures IsBreak(Gaps(s)[i]) || (Gaps(s)[i] == "" && i == |SplitLines(s)| - 1 && SplitLines(s)[i] != "")
    ensures i < |SplitLines(s)| - 1 && Gaps(s)[i] == "\r" ==> !("\n" <= SplitLines(s)[i + 1] + Gaps(s)[i + 1])
    decreases |s|
  {
    LinesWeave(s);
    FirstLine(s);
    FirstGap(s);
    var rest := AfterLine(s);
    assert SplitLines(s) == [s[..LineLength(s)]] + SplitLines(rest) && Gaps(s) == [Gap(s)] + Gaps(rest);
    if i > 0 {
      LinesAre(rest, i - 1);
    } else if rest != "" {
      FirstOfLines(rest);
    }
  }

  /** The lines of a reply that are marked. */
  predicate HasMarkedLine(text: string) {
    exists line <- SplitLines(text) :: Marked(Strip(line))
  }

  lemma {:induction false} NoMarkedLine(decode: CallDecoder, lines: seq<string>, i: nat)
    requires i <= |lines| && forall line <- lines :: !Marked(Strip(line))
    ensures FirstCall(decode, lines, i) == NoCall
    decreases |lines| - i
  {
    if i < |lines| {
      NoMarkedLine(decode, lines, i + 1);
    }
  }

  /** The marker is free of blanks and line breaks. */
  lemma MarkerIsPlain()
    ensures forall i :: 0 <= i < |TOOL_MARKER| ==> !IsSpace(TOOL_MARKER[i]) && !IsLineBreak(TOOL_MARKER[i])
  {
  }
}
