/** Server-sent events as the chat core reads them: frames separated by a blank line, payload
    lines that begin with `data: `. A character of a byte string stands for one byte. */
module Sse {
  import opened Wrappers
  import opened Text

  // ---- framing ------------------------------------------------------------

  predicate IsSep(s: string, i: int) {
    0 <= i && i + 1 < |s| && s[i] == '\n' && s[i + 1] == '\n'
  }

  /** Where the first blank-line separator from i on begins, or -1. */
  function SepFrom(s: string, i: nat): (r: int)
    ensures r == -1 || (i <= r && IsSep(s, r))
    ensures forall k :: i <= k && IsSep(s, k) ==> 0 <= r <= k
    decreases |s| - i
  {
    if i + 1 >= |s| then -1 else if IsSep(s, i) then i else SepFrom(s, i + 1)
  }

  function Sep(s: string): (r: int)
    ensures r == -1 || IsSep(s, r)
    ensures forall k :: IsSep(s, k) ==> 0 <= r <= k
  {
    SepFrom(s, 0)
  }

  /** The complete frames of a byte string, and what is left after the last separator. */
  function Frames(s: string): seq<string>
    decreases |s|
  {
    var i := Sep(s);
    if i == -1 then [] else [s[..i]] + Frames(s[i + 2..])
  }

  function Rest(s: string): string
    decreases |s|
  {
    var i := Sep(s);
    if i == -1 then s else Rest(s[i + 2..])
  }

  /** More bytes never move the first separator. */
  lemma SepStable(a: string, b: string)
    ensures Sep(a) != -1 ==> Sep(a + b) == Sep(a)
  {
    assert forall i :: 0 <= i && i + 1 < |a| ==> IsSep(a + b, i) == IsSep(a, i);
    if Sep(a) != -1 {
      assert IsSep(a + b, Sep(a));
    }
  }

  /** Splitting as far as possible and going on from the remainder is splitting the whole. */
  lemma {:induction false} FramesConcat(a: string, b: string)
    ensures Frames(a + b) == Frames(a) + Frames(Rest(a) + b)
    ensures Rest(a + b) == Rest(Rest(a) + b)
    decreases |a|
  {
    var i := Sep(a);
    if i != -1 {
      SepStable(a, b);
      assert (a + b)[..i] == a[..i];
      assert (a + b)[i + 2..] == a[i + 2..] + b;
      FramesConcat(a[i + 2..], b);
    }
  }

  // ---- lines --------------------------------------------------------------

  /** bytes.split of a single line feed: at least one piece. */
  function SplitLf(s: string): (r: seq<string>)
    ensures |r| >= 1
  {
    if s == "" then [""]
    else if s[|s| - 1] == '\n' then SplitLf(s[..|s| - 1]) + [""]
    else
      var r := SplitLf(s[..|s| - 1]);
      r[..|r| - 1] + [r[|r| - 1] + [s[|s| - 1]]]
  }

  lemma {:induction false} OneLine(s: string)
    requires '\n' !in s
    ensures SplitLf(s) == [s]
  {
    if s != "" {
      OneLine(s[..|s| - 1]);
      assert s == s[..|s| - 1] + [s[|s| - 1]];
    }
  }

  /** Lines with a line feed between any two. */
  function Joined(lines: seq<string>): string {
    if lines == [] then ""
    else if |lines| == 1 then lines[0]
    else Joined(lines[..|lines| - 1]) + "\n" + lines[|lines| - 1]
  }

  /** Splitting cuts at every line feed and nowhere else. */
  lemma {:induction false} SplitLfJoins(s: string)
    ensures Joined(SplitLf(s)) == s && NoLineFeeds(SplitLf(s))
  {
    if s != "" {
      var init, c := s[..|s| - 1], s[|s| - 1];
      SplitLfJoins(init);
      assert s == init + [c];
      if c == '\n' {
        EmptyLineMore(SplitLf(init));
      } else {
        LastLonger(SplitLf(init), c);
      }
    }
  }

  predicate NoLineFeeds(lines: seq<string>) {
    forall line <- lines :: '\n' !in line
  }

  lemma EmptyLineMore(lines: seq<string>)
    requires lines != [] && NoLineFeeds(lines)
    ensures Joined(lines + [""]) == Joined(lines) + "\n" && NoLineFeeds(lines + [""])
  {
    assert (lines + [""])[..|lines|] == lines;
    assert Joined(lines) + "\n" + "" == Joined(lines) + "\n";
  }

  lemma LastLonger(lines: seq<string>, c: char)
    requires lines != [] && NoLineFeeds(lines) && c != '\n'
    ensures var longer := lines[..|lines| - 1] + [lines[|lines| - 1] + [c]];
            Joined(longer) == Joined(lines) + [c] && NoLineFeeds(longer)
  {
    var init, last := lines[..|lines| - 1], lines[|lines| - 1];
    assert last in lines && forall line <- init :: line in lines;
    assert (init + [last + [c]])[..|init|] == init;
    if init != [] {
      assert Joined(init) + "\n" + (last + [c]) == (Joined(init) + "\n" + last) + [c];
    }
  }

  function AllLines(frames: seq<string>): seq<string> {
    if frames == [] then [] else AllLines(frames[..|frames| - 1]) + SplitLf(frames[|frames| - 1])
  }

  lemma {:induction false} AllLinesConcat(a: seq<string>, b: seq<string>)
    ensures AllLines(a + b) == AllLines(a) + AllLines(b)
  {
    if b == [] {
      assert a + b == a;
    } else {
      var n := |b| - 1;
      assert (a + b)[..|a + b| - 1] == a + b[..n];
      AllLinesConcat(a, b[..n]);
      Reassociate(AllLines(a), AllLines(b[..n]), SplitLf(b[n]));
    }
  }

  // ---- payloads -----------------------------------------------------------

  type Usage = map<string, int>

  /** The members of a chunk that nobody here looks at. */
  datatype Meta = Meta(id: string, created: int, role: Option<string>, finish: Option<string>, other: string)

  /** A decoded chunk object. The empty map and the empty string stand for members that are
      missing, null or empty, which the code does not tell apart. */
  datatype Chunk = Chunk(usage: Usage, model: string, content: string, meta: Meta)

  datatype Event = Usage(usage: Usage) | Model(model: string) | Delta(text: string)

  /** json.loads and the look-ups after it: an object, a decode error, or another exception
      after some events have been yielded. */
  datatype Decoded = Malformed | Broken(before: seq<Event>) | Good(chunk: Chunk)

  type Decoder = string -> Decoded

  function ChunkEvents(c: Chunk): seq<Event> {
    (if c.usage != map[] then [Usage(c.usage)] else [])
    + (if c.model != "" then [Model(c.model)] else [])
    + (if c.content != "" then [Delta(c.content)] else [])
  }

  const DATA := "data: "
  const DONE := "[DONE]"

  /** What one line does to the reader. */
  datatype Effect = Skip | Stop | Crash(before: seq<Event>) | Emit(events: seq<Event>)

  function LineEffect(decode: Decoder, line: string): Effect {
    if !StartsWith(line, DATA) then Skip
    else
      var payload := StripBytes(line[|DATA|..]);
      if payload == DONE then Stop
      else
        match decode(payload)
        case Malformed => Skip
        case Broken(before) => Crash(before)
        case Good(c) => Emit(ChunkEvents(c))
  }

  datatype End = Open | Finished | Raised

  datatype Parse = Parse(events: seq<Event>, end: End)

  /** One more line read. */
  function Read(p: Parse, e: Effect): Parse {
    if p.end != Open then p
    else
      match e
      case Skip => p
      case Stop => p.(end := Finished)
      case Crash(evs) => Parse(p.events + evs, Raised)
      case Emit(evs) => Parse(p.events + evs, Open)
  }

  /** The specification: read the lines of the whole stream in order, up to [DONE]. */
  function ParseLines(decode: Decoder, lines: seq<string>): Parse {
    if lines == [] then Parse([], Open)
    else Read(ParseLines(decode, lines[..|lines| - 1]), LineEffect(decode, lines[|lines| - 1]))
  }

  function ParseWhole(decode: Decoder, bytes: string): Parse {
    ParseLines(decode, AllLines(Frames(bytes)))
  }

  /** Reading on from where p ended. */
  function Then(p: Parse, q: Parse): Parse {
    if p.end != Open then p else Parse(p.events + q.events, q.end)
  }

  lemma ReadThen(p: Parse, q: Parse, e: Effect)
    ensures Read(Then(p, q), e) == Then(p, Read(q, e))
  {
    if p.end == Open && q.end == Open && (e.Crash? || e.Emit?) {
      var evs := if e.Crash? then e.before else e.events;
      assert (p.events + q.events) + evs == p.events + (q.events + evs);
    }
  }

  lemma {:induction false} ParseConcat(decode: Decoder, a: seq<string>, b: seq<string>)
    ensures ParseLines(decode, a + b) == Then(ParseLines(decode, a), ParseLines(decode, b))
  {
    if b == [] {
      assert a + b == a;
    } else {
      var n := |b| - 1;
      assert (a + b)[..|a + b| - 1] == a + b[..n];
      assert (a + b)[|a + b| - 1] == b[n];
      ParseConcat(decode, a, b[..n]);
      ReadThen(ParseLines(decode, a), ParseLines(decode, b[..n]), LineEffect(decode, b[n]));
    }
  }

  lemma ParseSnoc(decode: Decoder, lines: seq<string>, line: string)
    ensures ParseLines(decode, lines + [line]) == Read(ParseLines(decode, lines), LineEffect(decode, line))
  {
    assert (lines + [line])[..|lines|] == lines;
  }

  /** Once the reader has stopped, nothing that follows matters. */
  lemma StoppedStays(decode: Decoder, a: seq<string>, b: seq<string>)
    requires ParseLines(decode, a).end != Open
    ensures ParseLines(decode, a + b) == ParseLines(decode, a)
  {
    ParseConcat(decode, a, b);
  }

  lemma ParseAround(decode: Decoder, a: seq<string>, line: string, b: seq<string>)
    ensures ParseLines(decode, (a + [line]) + b)
         == Then(Read(ParseLines(decode, a), LineEffect(decode, line)), ParseLines(decode, b))
  {
    ParseConcat(decode, a + [line], b);
    ParseSnoc(decode, a, line);
  }

  /** What a line says: nothing if it is no data line or its payload does not load, the end if it is [DONE],
      an exception after some events if the payload breaks, and else the usage, the model and the text of
      the chunk, those it has, in this order. */
  lemma LineSays(decode: Decoder, line: string)
    ensures var e := LineEffect(decode, line);
            if !("data: " <= line) then e == Skip
            else if StripBytes(line[6..]) == "[DONE]" then e == Stop
            else
              match decode(StripBytes(line[6..]))
              case Malformed => e == Skip
              case Broken(before) => e == Crash(before)
              case Good(c) => e == Emit((if c.usage != map[] then [Usage(c.usage)] else [])
                                        + (if c.model != "" then [Model(c.model)] else [])
                                        + (if c.content != "" then [Delta(c.content)] else []))
  {
  }

  /** What a line of a stream changes: one that says nothing might as well not be there, events come between
      those before and those after, and the end or an exception is the last thing read. */
  lemma ReaderLaws(decode: Decoder, a: seq<string>, line: string, b: seq<string>)
    ensures var p, all, e := ParseLines(decode, a), ParseLines(decode, a + [line] + b), LineEffect(decode, line);
            && (e.Skip? ==> all == ParseLines(decode, a + b))
            && (e.Stop? ==> all == Then(p, Parse([], Finished)))
            && (e.Crash? ==> all == Then(p, Parse(e.before, Raised)))
            && (e.Emit? ==> all == Then(Then(p, Parse(e.events, Open)), ParseLines(decode, b)))
  {
    var p, e := ParseLines(decode, a), LineEffect(decode, line);
    ParseAround(decode, a, line, b);
    ParseConcat(decode, a, b);
    assert p.events + [] == p.events;
  }

  // ---- _iter_sse_deltas ---------------------------------------------------

  /** The lines of one frame. `seen` are the lines of the frames before it. */
  method ReadFrame(decode: Decoder, frame: string, ghost seen: seq<string>, before: seq<Event>)
    returns (events: seq<Event>, end: End)
    requires ParseLines(decode, seen) == Parse(before, Open)
    ensures Parse(events, end) == ParseLines(decode, seen + SplitLf(frame))
  {
    events, end := before, Open;
    var lines := SplitLf(frame);
    var j := 0;
    assert seen + lines[..0] == seen;
    while j < |lines| && end == Open
      invariant 0 <= j <= |lines|
      invariant Parse(events, end) == ParseLines(decode, seen + lines[..j])
    {
      LineMore(decode, seen, lines, j);
      match LineEffect(decode, lines[j]) {
        case Skip =>
        case Stop => end := Finished;
        case Crash(evs) => events, end := events + evs, Raised;
        case Emit(evs) => events := events + evs;
      }
      j := j + 1;
    }
    StoppedAt(decode, seen, lines, j);
  }

  lemma LineMore(decode: Decoder, seen: seq<string>, lines: seq<string>, j: nat)
    requires j < |lines|
    ensures ParseLines(decode, seen + lines[..j + 1])
         == Read(ParseLines(decode, seen + lines[..j]), LineEffect(decode, lines[j]))
  {
    assert seen + lines[..j + 1] == (seen + lines[..j]) + [lines[j]];
    ParseSnoc(decode, seen + lines[..j], lines[j]);
  }

  lemma StoppedAt(decode: Decoder, seen: seq<string>, lines: seq<string>, j: nat)
    requires j <= |lines| && (j < |lines| ==> ParseLines(decode, seen + lines[..j]).end != Open)
    ensures ParseLines(decode, seen + lines) == ParseLines(decode, seen + lines[..j])
  {
    assert seen + lines == (seen + lines[..j]) + lines[j..];
    if j < |lines| {
      StoppedStays(decode, seen + lines[..j], lines[j..]);
    } else {
      assert lines[..j] == lines;
    }
  }

  /** The inner loop: take complete frames off the buffer. `done` are the frames before them. */
  method Drain(decode: Decoder, buffer: string, ghost done: seq<string>, before: seq<Event>)
    returns (events: seq<Event>, end: End, rest: string)
    requires ParseLines(decode, AllLines(done)) == Parse(before, Open)
    ensures Parse(events, end) == ParseLines(decode, AllLines(done + Frames(buffer)))
    ensures end == Open ==> rest == Rest(buffer)
  {
    events, end, rest := before, Open, buffer;
    ghost var read := done;
    while Sep(rest) != -1
      invariant end == Open && Rest(buffer) == Rest(rest)
      invariant read + Frames(rest) == done + Frames(buffer)
      invariant ParseLines(decode, AllLines(read)) == Parse(events, Open)
      decreases |rest|
    {
      var i := Sep(rest);
      OneFrame(read, rest);
      events, end := ReadFrame(decode, rest[..i], AllLines(read), events);
      read, rest := read + [rest[..i]], rest[i + 2..];
      if end != Open {
        StoppedInside(decode, read, Frames(rest));
        return;
      }
    }
    assert read + Frames(rest) == read;
  }

  lemma OneFrame(read: seq<string>, rest: string)
    requires Sep(rest) != -1
    ensures var i := Sep(rest);
            && read + Frames(rest) == (read + [rest[..i]]) + Frames(rest[i + 2..])
            && Rest(rest) == Rest(rest[i + 2..])
            && AllLines(read + [rest[..i]]) == AllLines(read) + SplitLf(rest[..i])
  {
    var i := Sep(rest);
    assert (read + [rest[..i]])[..|read|] == read;
    Reassociate(read, [rest[..i]], Frames(rest[i + 2..]));
  }

  lemma Reassociate(a: seq<string>, b: seq<string>, c: seq<string>)
    ensures a + (b + c) == (a + b) + c
  {
  }

  lemma StoppedInside(decode: Decoder, a: seq<string>, b: seq<string>)
    requires ParseLines(decode, AllLines(a)).end != Open
    ensures ParseLines(decode, AllLines(a + b)) == ParseLines(decode, AllLines(a))
  {
    AllLinesConcat(a, b);
    StoppedStays(decode, AllLines(a), AllLines(b));
  }

  /** The incremental reader: however the bytes are cut into chunks, the events are those of the
      whole-stream specification, and so is the way it ends. */
  method IterSseDeltas(decode: Decoder, chunks: seq<string>) returns (events: seq<Event>, end: End)
    ensures Parse(events, end) == ParseWhole(decode, Concat(chunks))
  {
    events, end := [], Open;
    var buffer := "";
    var k := 0;
    while k < |chunks|
      invariant 0 <= k <= |chunks|
      invariant end == Open && buffer == Rest(Concat(chunks[..k]))
      invariant ParseWhole(decode, Concat(chunks[..k])) == Parse(events, Open)
    {
      ghost var before := Concat(chunks[..k]);
      assert chunks[..k + 1][..k] == chunks[..k];
      FramesConcat(before, chunks[k]);
      events, end, buffer := Drain(decode, buffer + chunks[k], Frames(before), events);
      if end != Open {
        StoppedForGood(decode, chunks, k + 1);
        return;
      }
      k := k + 1;
    }
    assert chunks[..k] == chunks;
  }

  /** Bytes that follow a stopped stream change nothing. */
  lemma ParseMore(decode: Decoder, a: string, b: string)
    requires ParseWhole(decode, a).end != Open
    ensures ParseWhole(decode, a + b) == ParseWhole(decode, a)
  {
    FramesConcat(a, b);
    AllLinesConcat(Frames(a), Frames(Rest(a) + b));
    StoppedStays(decode, AllLines(Frames(a)), AllLines(Frames(Rest(a) + b)));
  }

  lemma StoppedForGood(decode: Decoder, chunks: seq<string>, k: nat)
    requires k <= |chunks| && ParseWhole(decode, Concat(chunks[..k])).end != Open
    ensures ParseWhole(decode, Concat(chunks)) == ParseWhole(decode, Concat(chunks[..k]))
  {
    assert chunks == chunks[..k] + chunks[k..];
    ConcatAppend(chunks[..k], chunks[k..]);
    ParseMore(decode, Concat(chunks[..k]), Concat(chunks[k..]));
  }

  // ---- one frame more -----------------------------------------------------

  /** A single line and its separator are read as one frame. */
  lemma LineFrame(line: string)
    requires '\n' !in line
    ensures Frames(line + "\n\n") == [line] && Rest(line + "\n\n") == ""
  {
    var s := line + "\n\n";
    assert IsSep(s, |line|);
    assert forall i :: 0 <= i < |line| ==> s[i] == line[i];
    assert Sep(s) == |line|;
    assert s[..|line|] == line && s[|line| + 2..] == "";
  }

  /** A one-line frame appended to a stream that ends at a frame boundary is one more line read. */
  lemma ReadLineAfter(decode: Decoder, bytes: string, line: string)
    requires Rest(bytes) == "" && '\n' !in line
    ensures Rest(bytes + line + "\n\n") == ""
    ensures ParseWhole(decode, bytes + line + "\n\n") == Read(ParseWhole(decode, bytes), LineEffect(decode, line))
  {
    assert bytes + line + "\n\n" == bytes + (line + "\n\n");
    assert "" + (line + "\n\n") == line + "\n\n";
    FramesConcat(bytes, line + "\n\n");
    LineFrame(line);
    AllLinesSnoc(Frames(bytes), line);
    ParseSnoc(decode, AllLines(Frames(bytes)), line);
  }

  lemma AllLinesSnoc(frames: seq<string>, line: string)
    requires '\n' !in line
    ensures AllLines(frames + [line]) == AllLines(frames) + [line]
  {
    assert (frames + [line])[..|frames|] == frames;
    OneLine(line);
  }

  // ---- the texts and the usages of a parse --------------------------------

  function Deltas(events: seq<Event>): seq<string> {
    if events == [] then []
    else
      var before := Deltas(events[..|events| - 1]);
      match events[|events| - 1]
      case Delta(text) => before + [text]
      case _ => before
  }

  function Usages(events: seq<Event>): seq<Usage> {
    if events == [] then []
    else
      var before := Usages(events[..|events| - 1]);
      match events[|events| - 1]
      case Usage(u) => before + [u]
      case _ => before
  }

  /** The model last reported by some events, or the one known before. */
  function LastModel(start: string, events: seq<Event>): string {
    if events == [] then start
    else
      match events[|events| - 1]
      case Model(m) => m
      case _ => LastModel(start, events[..|events| - 1])
  }

  lemma DeltasSnoc(events: seq<Event>, e: Event)
    ensures Deltas(events + [e]) == Deltas(events) + (if e.Delta? then [e.text] else [])
    ensures Usages(events + [e]) == Usages(events) + (if e.Usage? then [e.usage] else [])
  {
    assert (events + [e])[..|events|] == events;
  }

  lemma {:induction false} DeltasConcat(a: seq<Event>, b: seq<Event>)
    ensures Deltas(a + b) == Deltas(a) + Deltas(b)
    ensures Usages(a + b) == Usages(a) + Usages(b)
  {
    if b == [] {
      assert a + b == a;
    } else {
      var n := |b| - 1;
      assert (a + b)[..|a + b| - 1] == a + b[..n];
      DeltasConcat(a, b[..n]);
    }
  }
}
