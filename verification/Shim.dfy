/** The OpenAI-compatible shim: a stream relayed frame by frame, with the routed model's name put
    before the first text. */
module Shim {
  import opened Text
  import opened Sse
  import opened Claude

  /** What sse() carries from line to line: is a prefix still wanted, who answers, what it used. */
  datatype Peek = Peek(want: bool, model: string, usage: Usage)

  /** After some lines of a frame: the event to yield, unless an exception left the loop. */
  datatype Peeked = Peeked(peek: Peek, event: string, raised: bool)

  /** After some frames: what has been yielded. */
  datatype Relayed = Relayed(peek: Peek, out: seq<string>, raised: bool)

  /** What was noted of a chunk before it broke. */
  function Noted(p: Peek, events: seq<Event>): Peek {
    if events == [] then p
    else
      var q := Noted(p, events[..|events| - 1]);
      match events[|events| - 1]
      case Usage(u) => q.(usage := q.usage + u)
      case Model(m) => q.(model := m)
      case Delta(_) => q
  }

  function Labelled(model: string, c: Chunk): Chunk {
    c.(content := Label(model) + c.content)
  }

  function PeekChunk(codec: Codec, x: Peeked, c: Chunk): Peeked {
    var model := if c.model != "" then c.model else x.peek.model;
    var usage := x.peek.usage + c.usage;
    if x.peek.want && c.content != "" then
      Peeked(Peek(false, model, usage), DATA + codec.encode(Labelled(model, c)), false)
    else
      Peeked(Peek(x.peek.want, model, usage), x.event, false)
  }

  /** Does the line carry a chunk? Unlike the reader, sse() does not strip what it decodes. */
  predicate Carries(line: string) {
    StartsWith(line, DATA) && StripBytes(line[|DATA|..]) != DONE
  }

  function PeekLine(codec: Codec, x: Peeked, line: string): Peeked {
    if x.raised || !Carries(line) then x
    else
      match codec.decode(line[|DATA|..])
      case Malformed => x
      case Broken(before) => Peeked(Noted(x.peek, before), x.event, true)
      case Good(c) => PeekChunk(codec, x, c)
  }

  function PeekLines(codec: Codec, x: Peeked, lines: seq<string>): Peeked {
    if lines == [] then x
    else PeekLine(codec, PeekLines(codec, x, lines[..|lines| - 1]), lines[|lines| - 1])
  }

  function RelayFrame(codec: Codec, r: Relayed, frame: string): Relayed {
    if r.raised then r
    else
      var x := PeekLines(codec, Peeked(r.peek, frame, false), SplitLf(frame));
      Relayed(x.peek, if x.raised then r.out else r.out + [x.event + "\n\n"], x.raised)
  }

  /** The specification: the frames of the whole stream, one after the other. */
  function Relay(codec: Codec, peek: Peek, frames: seq<string>): Relayed {
    if frames == [] then Relayed(peek, [], false)
    else RelayFrame(codec, Relay(codec, peek, frames[..|frames| - 1]), frames[|frames| - 1])
  }

  lemma RelaySnoc(codec: Codec, peek: Peek, frames: seq<string>, frame: string)
    ensures Relay(codec, peek, frames + [frame]) == RelayFrame(codec, Relay(codec, peek, frames), frame)
  {
    assert (frames + [frame])[..|frames|] == frames;
  }

  lemma {:induction false} RaisedStays(codec: Codec, peek: Peek, a: seq<string>, b: seq<string>)
    requires Relay(codec, peek, a).raised
    ensures Relay(codec, peek, a + b) == Relay(codec, peek, a)
  {
    if b == [] {
      assert a + b == a;
    } else {
      var n := |b| - 1;
      RaisedStays(codec, peek, a, b[..n]);
      assert a + b == (a + b[..n]) + [b[n]];
      RelaySnoc(codec, peek, a + b[..n], b[n]);
    }
  }

  // ---- sse() --------------------------------------------------------------

  method Note(codec: Codec, x: Peeked, c: Chunk) returns (y: Peeked)
    requires !x.raised
    ensures y == PeekChunk(codec, x, c)
  {
    y := x.(peek := x.peek.(usage := x.peek.usage + c.usage));
    if c.model != "" {
      y := y.(peek := y.peek.(model := c.model));
    }
    if y.peek.want && c.content != "" {
      var d := c.(content := Label(y.peek.model) + c.content);
      y := y.(event := DATA + codec.encode(d), peek := y.peek.(want := false));
    }
  }

  /** One line: note the chunk, and rewrite the event if the label goes here. */
  method PeekAt(codec: Codec, x: Peeked, line: string) returns (y: Peeked)
    requires !x.raised
    ensures y == PeekLine(codec, x, line)
  {
    y := x;
    if Carries(line) {
      match codec.decode(line[|DATA|..]) {
        case Malformed =>
        case Broken(before) =>
          y := Peeked(Noted(x.peek, before), x.event, true);
        case Good(c) =>
          y := Note(codec, x, c);
      }
    }
  }

  /** The lines of one frame. */
  method PeekFrame(codec: Codec, peek: Peek, frame: string) returns (x: Peeked)
    ensures x == PeekLines(codec, Peeked(peek, frame, false), SplitLf(frame))
  {
    x := Peeked(peek, frame, false);
    var lines := SplitLf(frame);
    ghost var start := x;
    var j := 0;
    while j < |lines| && !x.raised
      invariant 0 <= j <= |lines|
      invariant x == PeekLines(codec, start, lines[..j])
    {
      PeekSnoc(codec, start, lines[..j], lines[j]);
      assert lines[..j + 1] == lines[..j] + [lines[j]];
      x := PeekAt(codec, x, lines[j]);
      j := j + 1;
    }
    LinesRaised(codec, start, lines, j);
  }

  lemma PeekSnoc(codec: Codec, x: Peeked, lines: seq<string>, line: string)
    ensures PeekLines(codec, x, lines + [line]) == PeekLine(codec, PeekLines(codec, x, lines), line)
  {
    assert (lines + [line])[..|lines|] == lines;
  }

  lemma {:induction false} LinesRaised(codec: Codec, x: Peeked, lines: seq<string>, j: nat)
    requires j <= |lines|
    requires j < |lines| ==> PeekLines(codec, x, lines[..j]).raised
    ensures PeekLines(codec, x, lines) == PeekLines(codec, x, lines[..j])
  {
    if j == |lines| {
      assert lines[..j] == lines;
    } else {
      var init := lines[..|lines| - 1];
      assert init[..j] == lines[..j];
      LinesRaised(codec, x, init, j);
    }
  }

  method RelayOne(codec: Codec, r: Relayed, frame: string) returns (now: Relayed)
    requires !r.raised
    ensures now == RelayFrame(codec, r, frame)
  {
    var x := PeekFrame(codec, r.peek, frame);
    now := Relayed(x.peek, if x.raised then r.out else r.out + [x.event + "\n\n"], x.raised);
  }

  /** One chunk of bytes: relay every frame it completes. `done` are the frames before. */
  method DrainRelay(codec: Codec, start: Peek, buffer: string, r: Relayed, ghost done: seq<string>)
    returns (now: Relayed, rest: string)
    requires r == Relay(codec, start, done) && !r.raised
    ensures now == Relay(codec, start, done + Frames(buffer))
    ensures !now.raised ==> rest == Rest(buffer)
  {
    now, rest := r, buffer;
    ghost var read, all := done, done + Frames(buffer);
    while Sep(rest) != -1 && !now.raised
      invariant Rest(buffer) == Rest(rest)
      invariant read + Frames(rest) == all
      invariant now == Relay(codec, start, read)
      decreases |rest|
    {
      var i := Sep(rest);
      NextFrame(codec, start, read, rest);
      now := RelayOne(codec, now, rest[..i]);
      read, rest := read + [rest[..i]], rest[i + 2..];
    }
    if now.raised {
      RaisedStays(codec, start, read, Frames(rest));
    } else {
      assert read + Frames(rest) == read;
    }
  }

  lemma NextFrame(codec: Codec, start: Peek, read: seq<string>, rest: string)
    requires Sep(rest) != -1
    ensures var i := Sep(rest);
            && read + Frames(rest) == (read + [rest[..i]]) + Frames(rest[i + 2..])
            && Rest(rest) == Rest(rest[i + 2..])
            && Relay(codec, start, read + [rest[..i]]) == RelayFrame(codec, Relay(codec, start, read), rest[..i])
  {
    OneFrame(read, rest);
    RelaySnoc(codec, start, read, rest[..Sep(rest)]);
  }

  /** sse(): `fails` says whether the provider's stream ends with an exception; `report` is the error
      object. An exception becomes a readable error frame and [DONE]. The last two results are what
      the finally block logs. */
  method RelayStream(codec: Codec, chunks: seq<string>, fails: bool, report: string, requested: string, want: bool)
    returns (out: seq<string>, model: string, usage: Usage)
    ensures var r := Relay(codec, Peek(want, requested, map[]), Frames(Concat(chunks)));
            && out == r.out + (if r.raised || fails then ErrorFrames(report) else [])
            && model == r.peek.model && usage == r.peek.usage
    ensures var h := Hearsay(codec.decode, AllLines(Frames(Concat(chunks))));
            model == LastModel(requested, h.events) && usage == Merged(map[], Usages(h.events))
  {
    var start := Peek(want, requested, map[]);
    var r := Relayed(start, [], false);
    var buffer := "";
    var k := 0;
    while k < |chunks| && !r.raised
      invariant 0 <= k <= |chunks|
      invariant !r.raised ==> buffer == Rest(Concat(chunks[..k]))
      invariant r == Relay(codec, start, Frames(Concat(chunks[..k])))
    {
      ghost var before := Concat(chunks[..k]);
      assert chunks[..k + 1][..k] == chunks[..k];
      FramesConcat(before, chunks[k]);
      r, buffer := DrainRelay(codec, start, buffer + chunks[k], r, Frames(before));
      k := k + 1;
    }
    RelayedSoFar(codec, start, chunks, k);
    RelayLogs(codec, start, Frames(Concat(chunks)));
    out := r.out;
    if r.raised || fails {
      out := out + [PrintFrame(report), PrintFrame(DONE)];
      AsErrorFrames(report);
    }
    model, usage := r.peek.model, r.peek.usage;
  }

  /** What a client reads after an exception: the error, and the end mark. */
  function ErrorFrames(report: string): seq<string> {
    ["data: " + report + "\n\n", "data: [DONE]\n\n"]
  }

  lemma AsErrorFrames(report: string)
    ensures [PrintFrame(report), PrintFrame(DONE)] == ErrorFrames(report)
  {
    assert PrintFrame(report) == "data: " + report + "\n\n";
    assert DATA + DONE == "data: [DONE]";
    assert "data: [DONE]" + "\n\n" == "data: [DONE]\n\n";
  }

  lemma RelayedSoFar(codec: Codec, start: Peek, chunks: seq<string>, k: nat)
    requires k <= |chunks|
    requires k < |chunks| ==> Relay(codec, start, Frames(Concat(chunks[..k]))).raised
    ensures Relay(codec, start, Frames(Concat(chunks))) == Relay(codec, start, Frames(Concat(chunks[..k])))
  {
    assert chunks == chunks[..k] + chunks[k..];
    ConcatAppend(chunks[..k], chunks[k..]);
    if k < |chunks| {
      FramesConcat(Concat(chunks[..k]), Concat(chunks[k..]));
      RaisedStays(codec, start, Frames(Concat(chunks[..k])), Frames(Rest(Concat(chunks[..k])) + Concat(chunks[k..])));
    } else {
      assert chunks[..k] == chunks;
    }
  }

  // ---- what is logged ---------------------------------------------------------

  /** What sse() hears in a line: it reads on after [DONE], and decodes without stripping. */
  function Overheard(decode: Decoder, line: string): Effect {
    if "data: " <= line && StripBytes(line[6..]) != "[DONE]" then
      match decode(line[6..])
      case Malformed => Skip
      case Broken(before) => Crash(before)
      case Good(c) => Emit(ChunkEvents(c))
    else Skip
  }

  /** What it hears in some lines, up to an exception. */
  function Hearsay(decode: Decoder, lines: seq<string>): Parse {
    if lines == [] then Parse([], Open)
    else Read(Hearsay(decode, lines[..|lines| - 1]), Overheard(decode, lines[|lines| - 1]))
  }

  lemma {:induction false} HearsayConcat(decode: Decoder, a: seq<string>, b: seq<string>)
    ensures Hearsay(decode, a + b) == Then(Hearsay(decode, a), Hearsay(decode, b))
  {
    if b == [] {
      assert a + b == a;
    } else {
      var n := |b| - 1;
      assert (a + b)[..|a + b| - 1] == a + b[..n];
      HearsayConcat(decode, a, b[..n]);
      ReadThen(Hearsay(decode, a), Hearsay(decode, b[..n]), Overheard(decode, b[n]));
    }
  }

  /** dict.update with each in turn. */
  function Merged(start: Usage, usages: seq<Usage>): Usage {
    if usages == [] then start else Merged(start, usages[..|usages| - 1]) + usages[|usages| - 1]
  }

  lemma {:induction false} MergedConcat(start: Usage, a: seq<Usage>, b: seq<Usage>)
    ensures Merged(start, a + b) == Merged(Merged(start, a), b)
  {
    if b == [] {
      assert a + b == a;
    } else {
      assert (a + b)[..|a + b| - 1] == a + b[..|b| - 1];
      MergedConcat(start, a, b[..|b| - 1]);
    }
  }

  /** The noted model and usage are those of some events, in order, after what was noted before. */
  predicate Logs(before: Peek, after: Peek, events: seq<Event>) {
    after.model == LastModel(before.model, events) && after.usage == Merged(before.usage, Usages(events))
  }

  lemma LogsMore(a: Peek, b: Peek, c: Peek, before: seq<Event>, after: seq<Event>)
    requires Logs(a, b, before) && Logs(b, c, after)
    ensures Logs(a, c, before + after)
  {
    LastModelConcat(a.model, before, after);
    DeltasConcat(before, after);
    MergedConcat(a.usage, Usages(before), Usages(after));
  }

  lemma {:induction false} NotedLogs(p: Peek, events: seq<Event>)
    ensures Logs(p, Noted(p, events), events)
  {
    if events != [] {
      var init, last := events[..|events| - 1], events[|events| - 1];
      NotedLogs(p, init);
      assert events == init + [last];
      DeltasSnoc(init, last);
      if last.Usage? {
        assert (Usages(init) + [last.usage])[..|Usages(init)|] == Usages(init);
      }
    }
  }

  lemma MergedOne(start: Usage, u: Usage)
    ensures Merged(start, []) == start && Merged(start, [u]) == start + u
    ensures start + map[] == start
  {
    assert [u][..0] == [];
  }

  lemma ChunkModel(model: string, c: Chunk)
    ensures LastModel(model, ChunkEvents(c)) == if c.model != "" then c.model else model
  {
    var u := if c.usage != map[] then [Usage(c.usage)] else [];
    var m := if c.model != "" then [Model(c.model)] else [];
    var d := if c.content != "" then [Delta(c.content)] else [];
    LastModelConcat(model, u + m, d);
    LastModelConcat(model, u, m);
  }

  lemma ChunkLogs(codec: Codec, x: Peeked, c: Chunk)
    ensures Logs(x.peek, PeekChunk(codec, x, c).peek, ChunkEvents(c)) && !PeekChunk(codec, x, c).raised
  {
    ChunkDeltas(c);
    ChunkModel(x.peek.model, c);
    MergedOne(x.peek.usage, c.usage);
  }

  lemma LineLogs(codec: Codec, x: Peeked, line: string)
    requires !x.raised
    ensures var y, e := PeekLine(codec, x, line), Overheard(codec.decode, line);
            match e
            case Skip => y == x
            case Stop => false
            case Crash(events) => Logs(x.peek, y.peek, events) && y.raised
            case Emit(events) => Logs(x.peek, y.peek, events) && !y.raised
  {
    if Carries(line) {
      match codec.decode(line[|DATA|..]) {
        case Malformed =>
        case Broken(before) => NotedLogs(x.peek, before);
        case Good(c) => ChunkLogs(codec, x, c);
      }
    }
  }

  lemma {:induction false} LinesLog(codec: Codec, x: Peeked, lines: seq<string>)
    requires !x.raised
    ensures var y, h := PeekLines(codec, x, lines), Hearsay(codec.decode, lines);
            Logs(x.peek, y.peek, h.events) && (y.raised <==> h.end == Raised) && h.end != Finished
  {
    if lines == [] {
      assert Merged(x.peek.usage, []) == x.peek.usage;
    } else {
      var init, last := lines[..|lines| - 1], lines[|lines| - 1];
      LinesLog(codec, x, init);
      var y, h := PeekLines(codec, x, init), Hearsay(codec.decode, init);
      if !y.raised {
        var z, e := PeekLine(codec, y, last), Overheard(codec.decode, last);
        LineLogs(codec, y, last);
        if e.Crash? || e.Emit? {
          LogsMore(x.peek, y.peek, z.peek, h.events, if e.Crash? then e.before else e.events);
        }
      }
    }
  }

  /** Beside what the reader reads: the same, and what comes after [DONE]. */
  lemma {:induction false} ReadIsHeard(decode: Decoder, lines: seq<string>)
    requires AllUnbroken(decode, lines)
    ensures var p, h := ParseLines(decode, lines), Hearsay(decode, lines);
            h.end == Open && p.events <= h.events && (p.end == Open ==> p == h)
  {
    if lines != [] {
      var init, last := lines[..|lines| - 1], lines[|lines| - 1];
      ReadIsHeard(decode, init);
      assert last in lines && Unbroken(decode, last);
    }
  }

  /** The shim logs the model last reported in its whole input, and the usages of its whole input merged in
      their order; up to an exception. */
  lemma {:induction false} RelayLogs(codec: Codec, start: Peek, frames: seq<string>)
    ensures var r, h := Relay(codec, start, frames), Hearsay(codec.decode, AllLines(frames));
            Logs(start, r.peek, h.events) && (r.raised <==> h.end == Raised) && h.end != Finished
  {
    if frames == [] {
      assert Merged(start.usage, []) == start.usage;
    } else {
      var init, last := frames[..|frames| - 1], frames[|frames| - 1];
      RelayLogs(codec, start, init);
      HearsayConcat(codec.decode, AllLines(init), SplitLf(last));
      var r := Relay(codec, start, init);
      if !r.raised {
        var x := Peeked(r.peek, last, false);
        LinesLog(codec, x, SplitLf(last));
        LogsMore(start, r.peek, PeekLines(codec, x, SplitLf(last)).peek,
                 Hearsay(codec.decode, AllLines(init)).events, Hearsay(codec.decode, SplitLf(last)).events);
      }
    }
  }

  // ---- no prefix wanted: the bytes pass through -----------------------------

  function Unframed(frames: seq<string>): string {
    if frames == [] then "" else Unframed(frames[..|frames| - 1]) + frames[|frames| - 1] + "\n\n"
  }

  lemma {:induction false} UnframedCons(first: string, rest: seq<string>)
    ensures Unframed([first] + rest) == first + "\n\n" + Unframed(rest)
  {
    if rest == [] {
      assert [first] + rest == [first];
    } else {
      var n := |rest| - 1;
      assert ([first] + rest)[..|[first] + rest| - 1] == [first] + rest[..n];
      UnframedCons(first, rest[..n]);
    }
  }

  /** Framing loses no byte. */
  lemma {:induction false} FramesAndRest(s: string)
    ensures Unframed(Frames(s)) + Rest(s) == s
    decreases |s|
  {
    var i := Sep(s);
    if i != -1 {
      var later := s[i + 2..];
      FramesAndRest(later);
      UnframedCons(s[..i], Frames(later));
      Regroup(s[..i], Unframed(Frames(later)), Rest(later));
      AroundSep(s, i);
    }
  }

  lemma Regroup(a: string, b: string, c: string)
    ensures (a + "\n\n" + b) + c == a + "\n\n" + (b + c)
  {
  }

  lemma AroundSep(s: string, i: int)
    requires IsSep(s, i)
    ensures s[..i] + "\n\n" + s[i + 2..] == s
  {
  }

  lemma {:induction false} Untouched(codec: Codec, x: Peeked, lines: seq<string>)
    requires !x.peek.want
    ensures var y := PeekLines(codec, x, lines); y.event == x.event && !y.peek.want
  {
    if lines != [] {
      Untouched(codec, x, lines[..|lines| - 1]);
      NotedWant(lines[|lines| - 1], codec, PeekLines(codec, x, lines[..|lines| - 1]));
    }
  }

  lemma NotedWant(line: string, codec: Codec, x: Peeked)
    requires !x.peek.want
    ensures !PeekLine(codec, x, line).peek.want && PeekLine(codec, x, line).event == x.event
  {
    forall p: Peek, events: seq<Event> {
      NotedKeepsWant(p, events);
    }
  }

  lemma {:induction false} NotedKeepsWant(p: Peek, events: seq<Event>)
    ensures Noted(p, events).want == p.want
  {
    if events != [] {
      NotedKeepsWant(p, events[..|events| - 1]);
    }
  }

  lemma {:induction false} RelayedBytes(codec: Codec, peek: Peek, frames: seq<string>)
    requires !peek.want
    ensures var r := Relay(codec, peek, frames);
            && !r.peek.want
            && (!r.raised ==> Concat(r.out) == Unframed(frames))
            && Concat(r.out) <= Unframed(frames)
  {
    if frames != [] {
      var init, last := frames[..|frames| - 1], frames[|frames| - 1];
      RelayedBytes(codec, peek, init);
      FramePasses(codec, Relay(codec, peek, init), last);
      assert Unframed(init) + (last + "\n\n") == Unframed(frames);
    }
  }

  /** A frame passes through, unless an exception has been raised or is now. */
  lemma FramePasses(codec: Codec, r: Relayed, frame: string)
    requires !r.peek.want
    ensures var s := RelayFrame(codec, r, frame);
            && !s.peek.want
            && (s.raised ==> s.out == r.out)
            && (!s.raised ==> !r.raised && Concat(s.out) == Concat(r.out) + (frame + "\n\n"))
  {
    Untouched(codec, Peeked(r.peek, frame, false), SplitLf(frame));
    ConcatSnoc(r.out, frame + "\n\n");
  }

  /** With no prefix wanted the output is the input through its last separator, byte for byte,
      however the input is cut; after an exception it is a prefix of that. */
  lemma PassThrough(codec: Codec, peek: Peek, bytes: string)
    requires !peek.want
    ensures var r := Relay(codec, peek, Frames(bytes));
            && Concat(r.out) <= bytes
            && (!r.raised ==> Concat(r.out) + Rest(bytes) == bytes)
  {
    RelayedBytes(codec, peek, Frames(bytes));
    FramesAndRest(bytes);
    assert Unframed(Frames(bytes)) <= bytes;
  }

  // ---- prefix wanted: the specification --------------------------------------

  /** The first text among some events, or their end. */
  function FirstDelta(events: seq<Event>): (d: nat)
    ensures d <= |events|
    ensures forall i :: 0 <= i < d ==> !events[i].Delta?
    ensures d < |events| ==> events[d].Delta?
  {
    if events == [] then 0
    else
      var d := FirstDelta(events[..|events| - 1]);
      if d < |events| - 1 || events[|events| - 1].Delta? then d else |events|
  }

  /** The events with the label put before the first text, by the model last reported before it. */
  function InsertLabel(model: string, events: seq<Event>): seq<Event> {
    var d := FirstDelta(events);
    if d == |events| then events
    else events[d := Delta(Label(LastModel(model, events[..d])) + events[d].text)]
  }

  /** A payload without outer blanks that decodes or not, but does not break: the relay, which does not
      strip, and the reader, which does, make the same of it. */
  predicate Unbroken(decode: Decoder, line: string) {
    StartsWith(line, DATA) ==>
      StripBytes(line[|DATA|..]) == line[|DATA|..] && !decode(line[|DATA|..]).Broken?
  }

  predicate AllUnbroken(decode: Decoder, lines: seq<string>) {
    forall line <- lines :: Unbroken(decode, line)
  }

  predicate HasText(decode: Decoder, line: string) {
    Carries(line) && decode(line[|DATA|..]).Good? && decode(line[|DATA|..]).chunk.content != ""
  }

  /** The first line from i on that has a text, or the end. */
  function TextFrom(decode: Decoder, lines: seq<string>, i: nat): (j: nat)
    requires i <= |lines|
    ensures i <= j <= |lines|
    ensures forall l :: i <= l < j ==> !HasText(decode, lines[l])
    ensures j < |lines| ==> HasText(decode, lines[j])
    decreases |lines| - i
  {
    if i == |lines| || HasText(decode, lines[i]) then i else TextFrom(decode, lines, i + 1)
  }

  predicate FrameHasText(decode: Decoder, frame: string) {
    TextFrom(decode, SplitLf(frame), 0) < |SplitLf(frame)|
  }

  /** The first frame from i on that has a text: the one that takes the label. */
  function LabelFrom(decode: Decoder, frames: seq<string>, i: nat): (k: nat)
    requires i <= |frames|
    ensures i <= k <= |frames|
    ensures forall l :: i <= l < k ==> !FrameHasText(decode, frames[l])
    ensures k < |frames| ==> FrameHasText(decode, frames[k])
    decreases |frames| - i
  {
    if i == |frames| || FrameHasText(decode, frames[i]) then i else LabelFrom(decode, frames, i + 1)
  }

  // ---- lines ------------------------------------------------------------------

  /** A chunk without text is noted, and read without a text. */
  lemma QuietChunk(codec: Codec, x: Peeked, c: Chunk)
    requires !x.raised && c.content == ""
    ensures var y, events := PeekChunk(codec, x, c), ChunkEvents(c);
            && !y.raised && y.event == x.event && y.peek.want == x.peek.want
            && FirstDelta(events) == |events| && y.peek.model == LastModel(x.peek.model, events)
  {
    var u := if c.usage != map[] then [Usage(c.usage)] else [];
    var m := if c.model != "" then [Model(c.model)] else [];
    assert ChunkEvents(c) == u + m;
    LastModelConcat(x.peek.model, u, m);
  }

  /** What the relay and the reader make of a line without text. */
  lemma QuietLine(codec: Codec, x: Peeked, line: string)
    requires !x.raised && Unbroken(codec.decode, line) && !HasText(codec.decode, line)
    ensures var y, e := PeekLine(codec, x, line), LineEffect(codec.decode, line);
            && !y.raised && y.event == x.event && y.peek.want == x.peek.want && !e.Crash?
            && (e.Skip? || e.Stop? ==> y == x)
            && (e.Emit? ==> FirstDelta(e.events) == |e.events| && y.peek.model == LastModel(x.peek.model, e.events))
  {
    if Carries(line) {
      match codec.decode(line[|DATA|..]) {
        case Good(c) => QuietChunk(codec, x, c);
        case _ =>
      }
    }
  }

  lemma {:induction false} LastModelConcat(model: string, a: seq<Event>, b: seq<Event>)
    ensures LastModel(model, a + b) == LastModel(LastModel(model, a), b)
  {
    if b == [] {
      assert a + b == a;
    } else {
      assert (a + b)[..|a + b| - 1] == a + b[..|b| - 1];
      if !b[|b| - 1].Model? {
        LastModelConcat(model, a, b[..|b| - 1]);
      }
    }
  }

  /** Lines without text: relayed as they are, and read without a text. */
  predicate Quiet(p: Parse, before: string, after: string) {
    && p.end != Raised && FirstDelta(p.events) == |p.events|
    && (p.end == Open ==> after == LastModel(before, p.events))
  }

  lemma QuietMore(p: Parse, before: string, now: string, e: Effect, after: string)
    requires Quiet(p, before, now) && !e.Crash?
    requires e.Skip? || e.Stop? ==> after == now
    requires e.Emit? ==> FirstDelta(e.events) == |e.events| && after == LastModel(now, e.events)
    ensures Quiet(Read(p, e), before, after)
  {
    if p.end == Open && e.Emit? {
      LastModelConcat(before, p.events, e.events);
    }
  }

  lemma {:induction false} QuietLines(codec: Codec, x: Peeked, lines: seq<string>)
    requires !x.raised && AllUnbroken(codec.decode, lines)
    requires forall line <- lines :: !HasText(codec.decode, line)
    ensures var y := PeekLines(codec, x, lines);
            && !y.raised && y.event == x.event && y.peek.want == x.peek.want
            && Quiet(ParseLines(codec.decode, lines), x.peek.model, y.peek.model)
  {
    if lines != [] {
      var init, last := lines[..|lines| - 1], lines[|lines| - 1];
      QuietLines(codec, x, init);
      var y := PeekLines(codec, x, init);
      QuietLine(codec, y, last);
      QuietMore(ParseLines(codec.decode, init), x.peek.model, y.peek.model, LineEffect(codec.decode, last),
                PeekLine(codec, y, last).peek.model);
    }
  }

  /** Once the label is out, lines pass through. */
  lemma {:induction false} LaterLines(codec: Codec, x: Peeked, lines: seq<string>)
    requires !x.raised && !x.peek.want && AllUnbroken(codec.decode, lines)
    ensures var y := PeekLines(codec, x, lines); !y.raised && !y.peek.want && y.event == x.event
  {
    if lines != [] {
      LaterLines(codec, x, lines[..|lines| - 1]);
      assert Unbroken(codec.decode, lines[|lines| - 1]);
      NotedWant(lines[|lines| - 1], codec, PeekLines(codec, x, lines[..|lines| - 1]));
    }
  }

  lemma {:induction false} PeekConcat(codec: Codec, x: Peeked, a: seq<string>, b: seq<string>)
    ensures PeekLines(codec, x, a + b) == PeekLines(codec, PeekLines(codec, x, a), b)
  {
    if b == [] {
      assert a + b == a;
    } else {
      assert (a + b)[..|a + b| - 1] == a + b[..|b| - 1];
      PeekConcat(codec, x, a, b[..|b| - 1]);
    }
  }

  /** The chunk whose text takes the label. */
  function LabelChunk(decode: Decoder, lines: seq<string>): Chunk
    requires TextFrom(decode, lines, 0) < |lines|
  {
    decode(lines[TextFrom(decode, lines, 0)][|DATA|..]).chunk
  }

  /** Whose name the label gives: the model of its chunk, or the one noted before. */
  function Namer(codec: Codec, x: Peeked, lines: seq<string>): string
    requires TextFrom(codec.decode, lines, 0) < |lines|
  {
    var c := LabelChunk(codec.decode, lines);
    if c.model != "" then c.model else PeekLines(codec, x, lines[..TextFrom(codec.decode, lines, 0)]).peek.model
  }

  /** The lines of the frame that takes the label. */
  lemma LabelLines(codec: Codec, x: Peeked, lines: seq<string>)
    requires !x.raised && x.peek.want && AllUnbroken(codec.decode, lines)
    requires TextFrom(codec.decode, lines, 0) < |lines|
    ensures var y := PeekLines(codec, x, lines);
            && !y.raised && !y.peek.want
            && y.event == DATA + codec.encode(Labelled(Namer(codec, x, lines), LabelChunk(codec.decode, lines)))
  {
    var j := TextFrom(codec.decode, lines, 0);
    QuietLines(codec, x, lines[..j]);
    var y := PeekLines(codec, x, lines[..j]);
    AtLine(codec, x, lines, j);
    LaterLines(codec, PeekLine(codec, y, lines[j]), lines[j + 1..]);
  }

  /** That is the model last heard of up to the label's line. */
  lemma NamerHeard(codec: Codec, x: Peeked, lines: seq<string>)
    requires !x.raised && AllUnbroken(codec.decode, lines) && TextFrom(codec.decode, lines, 0) < |lines|
    ensures var j := TextFrom(codec.decode, lines, 0);
            Namer(codec, x, lines) == LastModel(x.peek.model, Hearsay(codec.decode, lines[..j + 1]).events)
  {
    var j := TextFrom(codec.decode, lines, 0);
    QuietLines(codec, x, lines[..j]);
    LinesLog(codec, x, lines[..j]);
    HearsayAt(codec.decode, x.peek.model, lines, j);
  }

  /** And the one last read, as far as the reader gets. */
  lemma NamerRead(codec: Codec, x: Peeked, lines: seq<string>)
    requires !x.raised && AllUnbroken(codec.decode, lines) && TextFrom(codec.decode, lines, 0) < |lines|
    requires ParseLines(codec.decode, lines[..TextFrom(codec.decode, lines, 0)]) == Parse([], Open)
    ensures var c := LabelChunk(codec.decode, lines);
            Namer(codec, x, lines) == if c.model != "" then c.model else x.peek.model
  {
    QuietLines(codec, x, lines[..TextFrom(codec.decode, lines, 0)]);
  }

  lemma HearsayAt(decode: Decoder, model: string, lines: seq<string>, j: nat)
    requires j < |lines| && HasText(decode, lines[j]) && Hearsay(decode, lines[..j]).end == Open
    ensures var c := decode(lines[j][|DATA|..]).chunk;
            LastModel(model, Hearsay(decode, lines[..j + 1]).events)
            == if c.model != "" then c.model else LastModel(model, Hearsay(decode, lines[..j]).events)
  {
    var c := decode(lines[j][|DATA|..]).chunk;
    assert lines[..j + 1][..j] == lines[..j];
    assert Overheard(decode, lines[j]) == Emit(ChunkEvents(c));
    LastModelConcat(model, Hearsay(decode, lines[..j]).events, ChunkEvents(c));
    ChunkModel(LastModel(model, Hearsay(decode, lines[..j]).events), c);
  }

  lemma AtLine(codec: Codec, x: Peeked, lines: seq<string>, j: nat)
    requires j < |lines|
    ensures PeekLines(codec, x, lines)
         == PeekLines(codec, PeekLine(codec, PeekLines(codec, x, lines[..j]), lines[j]), lines[j + 1..])
  {
    assert lines == (lines[..j] + [lines[j]]) + lines[j + 1..];
    PeekConcat(codec, x, lines[..j] + [lines[j]], lines[j + 1..]);
    PeekSnoc(codec, x, lines[..j], lines[j]);
  }

  // ---- frames -----------------------------------------------------------------

  predicate UnbrokenFrames(decode: Decoder, frames: seq<string>) {
    forall f <- frames :: AllUnbroken(decode, SplitLf(f))
  }

  /** Relaying on from where an earlier part ended. */
  lemma {:induction false} RelayConcat(codec: Codec, peek: Peek, a: seq<string>, b: seq<string>)
    requires !Relay(codec, peek, a).raised
    ensures var r := Relay(codec, peek, a);
            var s := Relay(codec, r.peek, b);
            Relay(codec, peek, a + b) == Relayed(s.peek, r.out + s.out, s.raised)
  {
    var r := Relay(codec, peek, a);
    if b == [] {
      assert a + b == a && r.out + [] == r.out;
    } else {
      var n := |b| - 1;
      RelayConcat(codec, peek, a, b[..n]);
      assert a + b == (a + b[..n]) + [b[n]];
      RelaySnoc(codec, peek, a + b[..n], b[n]);
      Regrouped(r.out, Relay(codec, r.peek, b[..n]).out, Relay(codec, r.peek, b).out);
    }
  }

  lemma Regrouped(a: seq<string>, b: seq<string>, c: seq<string>)
    ensures b <= c ==> (a + b) + c[|b|..] == a + c
  {
  }

  lemma {:induction false} QuietFrames(codec: Codec, peek: Peek, frames: seq<string>)
    requires UnbrokenFrames(codec.decode, frames)
    requires forall f <- frames :: !FrameHasText(codec.decode, f)
    ensures var r := Relay(codec, peek, frames);
            && !r.raised && Concat(r.out) == Unframed(frames) && r.peek.want == peek.want
            && Quiet(ParseLines(codec.decode, AllLines(frames)), peek.model, r.peek.model)
  {
    if frames != [] {
      var init, last := frames[..|frames| - 1], frames[|frames| - 1];
      QuietFrames(codec, peek, init);
      var r := Relay(codec, peek, init);
      var x := Peeked(r.peek, last, false);
      assert AllUnbroken(codec.decode, SplitLf(last)) && !FrameHasText(codec.decode, last);
      QuietLines(codec, x, SplitLf(last));
      ConcatSnoc(r.out, last + "\n\n");
      assert Concat(r.out) + (last + "\n\n") == Concat(r.out) + last + "\n\n";
      ParseConcat(codec.decode, AllLines(init), SplitLf(last));
      QuietThen(ParseLines(codec.decode, AllLines(init)), peek.model, r.peek.model,
                ParseLines(codec.decode, SplitLf(last)), PeekLines(codec, x, SplitLf(last)).peek.model);
    }
  }

  lemma QuietThen(p: Parse, before: string, now: string, q: Parse, after: string)
    requires Quiet(p, before, now) && Quiet(q, now, after)
    ensures Quiet(Then(p, q), before, after)
  {
    if p.end == Open {
      LastModelConcat(before, p.events, q.events);
    }
  }

  lemma {:induction false} LaterFrames(codec: Codec, peek: Peek, frames: seq<string>)
    requires !peek.want && UnbrokenFrames(codec.decode, frames)
    ensures var r := Relay(codec, peek, frames); !r.raised && !r.peek.want && Concat(r.out) == Unframed(frames)
  {
    if frames != [] {
      var init, last := frames[..|frames| - 1], frames[|frames| - 1];
      LaterFrames(codec, peek, init);
      var r := Relay(codec, peek, init);
      LaterLines(codec, Peeked(r.peek, last, false), SplitLf(last));
      ConcatSnoc(r.out, last + "\n\n");
      assert Concat(r.out) + (last + "\n\n") == Concat(r.out) + last + "\n\n";
    }
  }

  /** What framing yields: no separator inside, and none that begins at the end. */
  predicate Proper(frame: string) {
    Sep(frame + "\n\n") == |frame|
  }

  lemma {:induction false} FramesAreProper(s: string)
    ensures forall f <- Frames(s) :: Proper(f)
    decreases |s|
  {
    var i := Sep(s);
    if i != -1 {
      FramesAreProper(s[i + 2..]);
      var t := s[..i] + "\n\n";
      assert t == s[..i + 2];
      assert IsSep(t, i);
      assert forall k :: 0 <= k < i ==> IsSep(t, k) == IsSep(s, k);
    }
  }

  lemma {:induction false} FramesUnframed(frames: seq<string>)
    requires forall f <- frames :: Proper(f)
    ensures Frames(Unframed(frames)) == frames && Rest(Unframed(frames)) == ""
  {
    if frames != [] {
      var init, last := frames[..|frames| - 1], frames[|frames| - 1];
      FramesUnframed(init);
      OneProper(last);
      FramesConcat(Unframed(init), last + "\n\n");
      assert "" + (last + "\n\n") == last + "\n\n";
      assert Unframed(init) + (last + "\n\n") == Unframed(init) + last + "\n\n";
    } else {
      assert Sep("") == -1;
    }
  }

  lemma OneProper(frame: string)
    requires Proper(frame)
    ensures Frames(frame + "\n\n") == [frame] && Rest(frame + "\n\n") == ""
  {
    var s := frame + "\n\n";
    assert s[..|frame|] == frame && s[|frame| + 2..] == "";
    assert Sep("") == -1;
  }

  lemma {:induction false} UnframedConcat(a: seq<string>, b: seq<string>)
    ensures Unframed(a + b) == Unframed(a) + Unframed(b)
  {
    if b == [] {
      assert a + b == a;
    } else {
      var n := |b| - 1;
      assert (a + b)[..|a + b| - 1] == a + b[..n];
      UnframedConcat(a, b[..n]);
    }
  }

  /** The label's line is a frame of its own. */
  lemma LabelledIsProper(codec: Codec, c: Chunk)
    requires Lawful(codec)
    ensures Proper(DATA + codec.encode(c)) && SplitLf(DATA + codec.encode(c)) == [DATA + codec.encode(c)]
    ensures ParseLines(codec.decode, SplitLf(DATA + codec.encode(c))) == Parse(ChunkEvents(c), Open)
  {
    var line := DATA + codec.encode(c);
    PrintedLine(codec, c);
    PayloadLine(codec.encode(c));
    OneLine(line);
    ParseSnoc(codec.decode, [], line);
    assert [] + [line] == [line];
    assert IsSep(line + "\n\n", |line|);
    assert forall k :: 0 <= k < |line| ==> (line + "\n\n")[k] == line[k];
  }

  // ---- what the reader makes of both streams ------------------------------------

  lemma ThreeParts(decode: Decoder, a: seq<string>, f: string, b: seq<string>)
    ensures ParseLines(decode, AllLines(a + [f] + b))
         == Then(Then(ParseLines(decode, AllLines(a)), ParseLines(decode, SplitLf(f))), ParseLines(decode, AllLines(b)))
  {
    AllLinesConcat(a + [f], b);
    AllLinesConcat(a, [f]);
    assert AllLines([f]) == SplitLf(f) by {
      assert [f][..0] == [];
      assert AllLines([]) + SplitLf(f) == SplitLf(f);
    }
    ParseConcat(decode, AllLines(a + [f]), AllLines(b));
    ParseConcat(decode, AllLines(a), SplitLf(f));
  }

  /** With a label wanted the relay replaces one frame, the first that has a text, by a line of its own: its
      chunk as it was, but for the label put before the text, by the model last reported up to that line. */
  lemma OneFrameRewritten(codec: Codec, model: string, frames: seq<string>, k: nat) returns (who: string)
    requires UnbrokenFrames(codec.decode, frames) && k == LabelFrom(codec.decode, frames, 0) < |frames|
    ensures var lines := SplitLf(frames[k]);
            var c := LabelChunk(codec.decode, lines);
            Concat(Relay(codec, Peek(true, model, map[]), frames).out)
            == Unframed(frames[..k])
               + ("data: " + codec.encode(Chunk(c.usage, c.model, "`[" + who + "]`\n\n" + c.content, c.meta)) + "\n\n")
               + Unframed(frames[k + 1..])
    ensures var lines := SplitLf(frames[k]);
            var upTo := AllLines(frames[..k]) + lines[..TextFrom(codec.decode, lines, 0) + 1];
            who == LastModel(model, Hearsay(codec.decode, upTo).events)
  {
    var a, f, b := frames[..k], frames[k], frames[k + 1..];
    assert frames == a + [f] + b;
    who := NameIn(codec, model, a, f);
    LabelGoesIn(codec, model, a, f, b);
    UnbrokenParts(codec.decode, a, f, b);
    NameIsHeard(codec, model, a, f);
  }

  /** The name in the label of frame f, after the frames a. */
  function NameIn(codec: Codec, model: string, a: seq<string>, f: string): string
    requires FrameHasText(codec.decode, f)
  {
    Namer(codec, Peeked(Relay(codec, Peek(true, model, map[]), a).peek, f, false), SplitLf(f))
  }

  lemma LabelGoesIn(codec: Codec, model: string, a: seq<string>, f: string, b: seq<string>)
    requires UnbrokenFrames(codec.decode, a + [f] + b)
    requires FrameHasText(codec.decode, f) && forall g <- a :: !FrameHasText(codec.decode, g)
    ensures var r := Relay(codec, Peek(true, model, map[]), a + [f] + b);
            var c := Labelled(NameIn(codec, model, a, f), LabelChunk(codec.decode, SplitLf(f)));
            !r.raised && Concat(r.out) == Unframed(a) + (DATA + codec.encode(c) + "\n\n") + Unframed(b)
  {
    var start := Peek(true, model, map[]);
    UnbrokenParts(codec.decode, a, f, b);
    QuietFrames(codec, start, a);
    LabelLines(codec, Peeked(Relay(codec, start, a).peek, f, false), SplitLf(f));
    var c := Labelled(NameIn(codec, model, a, f), LabelChunk(codec.decode, SplitLf(f)));
    RelayOn(codec, start, a, f, b, DATA + codec.encode(c));
  }

  lemma NameIsHeard(codec: Codec, model: string, a: seq<string>, f: string)
    requires UnbrokenFrames(codec.decode, a) && AllUnbroken(codec.decode, SplitLf(f))
    requires FrameHasText(codec.decode, f) && forall g <- a :: !FrameHasText(codec.decode, g)
    ensures var lines := SplitLf(f);
            var upTo := AllLines(a) + lines[..TextFrom(codec.decode, lines, 0) + 1];
            NameIn(codec, model, a, f) == LastModel(model, Hearsay(codec.decode, upTo).events)
  {
    var start, lines := Peek(true, model, map[]), SplitLf(f);
    var x, upTo := Peeked(Relay(codec, start, a).peek, f, false), lines[..TextFrom(codec.decode, lines, 0) + 1];
    QuietFrames(codec, start, a);
    NamerHeard(codec, x, lines);
    assert NameIn(codec, model, a, f) == LastModel(x.peek.model, Hearsay(codec.decode, upTo).events);
    LabelNamed(codec, start, a, upTo);
  }

  lemma NameIsRead(codec: Codec, model: string, a: seq<string>, f: string)
    requires UnbrokenFrames(codec.decode, a) && AllUnbroken(codec.decode, SplitLf(f))
    requires FrameHasText(codec.decode, f) && forall g <- a :: !FrameHasText(codec.decode, g)
    requires ParseLines(codec.decode, AllLines(a)).end == Open
    requires var lines := SplitLf(f);
             ParseLines(codec.decode, lines[..TextFrom(codec.decode, lines, 0)]) == Parse([], Open)
    ensures var c := LabelChunk(codec.decode, SplitLf(f));
            NameIn(codec, model, a, f)
            == if c.model != "" then c.model else LastModel(model, ParseLines(codec.decode, AllLines(a)).events)
  {
    var start := Peek(true, model, map[]);
    QuietFrames(codec, start, a);
    NamerRead(codec, Peeked(Relay(codec, start, a).peek, f, false), SplitLf(f));
  }

  lemma UnbrokenParts(decode: Decoder, a: seq<string>, f: string, b: seq<string>)
    requires UnbrokenFrames(decode, a + [f] + b)
    ensures UnbrokenFrames(decode, a) && AllUnbroken(decode, SplitLf(f)) && UnbrokenFrames(decode, b)
  {
    var all := a + [f] + b;
    assert forall g <- a :: g in all;
    assert forall g <- b :: g in all;
    assert f in all;
  }

  /** A frame for which a line is sent, between frames that pass through. */
  lemma RelayOn(codec: Codec, start: Peek, a: seq<string>, f: string, b: seq<string>, line: string)
    requires UnbrokenFrames(codec.decode, b)
    requires !Relay(codec, start, a).raised && Concat(Relay(codec, start, a).out) == Unframed(a)
    requires var y := PeekLines(codec, Peeked(Relay(codec, start, a).peek, f, false), SplitLf(f));
             !y.raised && !y.peek.want && y.event == line
    ensures var r := Relay(codec, start, a + [f] + b);
            !r.raised && Concat(r.out) == Unframed(a) + (line + "\n\n") + Unframed(b)
  {
    var r := Relay(codec, start, a);
    RelaySnoc(codec, start, a, f);
    var s := Relay(codec, start, a + [f]);
    LaterFrames(codec, s.peek, b);
    RelayConcat(codec, start, a + [f], b);
    var t := Relay(codec, s.peek, b);
    ConcatAppend(s.out, t.out);
    ConcatSnoc(r.out, line + "\n\n");
  }

  lemma LabelNamed(codec: Codec, start: Peek, a: seq<string>, lines: seq<string>)
    requires !Relay(codec, start, a).raised
    ensures LastModel(start.model, Hearsay(codec.decode, AllLines(a) + lines).events)
         == LastModel(Relay(codec, start, a).peek.model, Hearsay(codec.decode, lines).events)
  {
    RelayLogs(codec, start, a);
    HearsayConcat(codec.decode, AllLines(a), lines);
    LastModelConcat(start.model, Hearsay(codec.decode, AllLines(a)).events, Hearsay(codec.decode, lines).events);
  }

  /** The relayed stream: as before, but for the frame that takes the label. */
  lemma RelayedParts(codec: Codec, model: string, a: seq<string>, f: string, b: seq<string>) returns (who: string)
    requires Lawful(codec) && UnbrokenFrames(codec.decode, a + [f] + b)
    requires forall g <- a + [f] + b :: Proper(g)
    requires FrameHasText(codec.decode, f) && forall g <- a :: !FrameHasText(codec.decode, g)
    ensures var r := Relay(codec, Peek(true, model, map[]), a + [f] + b);
            && !r.raised
            && ParseWhole(codec.decode, Concat(r.out))
               == var line := DATA + codec.encode(Labelled(who, LabelChunk(codec.decode, SplitLf(f))));
                  ParseLines(codec.decode, AllLines(a + [line] + b))
    ensures var p, lines := ParseLines(codec.decode, AllLines(a)), SplitLf(f);
            var q := ParseLines(codec.decode, lines[..TextFrom(codec.decode, lines, 0)]);
            p.end == Open && q == Parse([], Open) ==>
              var c := LabelChunk(codec.decode, lines);
              who == if c.model != "" then c.model else LastModel(model, p.events)
  {
    who := NameIn(codec, model, a, f);
    LabelGoesIn(codec, model, a, f, b);
    UnbrokenParts(codec.decode, a, f, b);
    var p, lines := ParseLines(codec.decode, AllLines(a)), SplitLf(f);
    if p.end == Open && ParseLines(codec.decode, lines[..TextFrom(codec.decode, lines, 0)]) == Parse([], Open) {
      NameIsRead(codec, model, a, f);
    }
    assert forall g <- a :: g in a + [f] + b;
    assert forall g <- b :: g in a + [f] + b;
    LabelledIsProper(codec, Labelled(who, LabelChunk(codec.decode, lines)));
    Reframed(a, DATA + codec.encode(Labelled(who, LabelChunk(codec.decode, lines))), b);
  }

  lemma Reframed(a: seq<string>, line: string, b: seq<string>)
    requires Proper(line) && (forall g <- a :: Proper(g)) && (forall g <- b :: Proper(g))
    ensures Frames(Unframed(a) + (line + "\n\n") + Unframed(b)) == a + [line] + b
  {
    UnframedConcat(a + [line], b);
    assert (a + [line])[..|a|] == a;
    assert Unframed(a) + line + "\n\n" == Unframed(a) + (line + "\n\n");
    FramesUnframed(a + [line] + b);
  }

  /** Nothing but the line that takes the label says anything. */
  predicate Alone(decode: Decoder, lines: seq<string>)
    requires TextFrom(decode, lines, 0) < |lines|
  {
    forall i :: 0 <= i < |lines| && i != TextFrom(decode, lines, 0) ==>
      !Says(LineEffect(decode, lines[i]))
  }

  predicate Says(e: Effect) {
    e.Emit? && e.events != []
  }

  /** No [DONE] line. */
  predicate Undone(decode: Decoder, lines: seq<string>) {
    forall line <- lines :: !LineEffect(decode, line).Stop?
  }

  /** The number of events of lines that say nothing, or something. */
  lemma {:induction false} SilentLines(decode: Decoder, lines: seq<string>)
    requires Undone(decode, lines) && AllUnbroken(decode, lines)
    ensures ParseLines(decode, lines).end == Open
    ensures ParseLines(decode, lines).events == []
       <==> forall i :: 0 <= i < |lines| ==> !Says(LineEffect(decode, lines[i]))
  {
    if lines != [] {
      var init, last := lines[..|lines| - 1], lines[|lines| - 1];
      SilentLines(decode, init);
      assert last in lines && Unbroken(decode, last);
      assert forall i :: 0 <= i < |init| ==> init[i] == lines[i];
    }
  }

  lemma TextLineEffect(decode: Decoder, line: string)
    requires Unbroken(decode, line) && HasText(decode, line)
    ensures LineEffect(decode, line) == Emit(ChunkEvents(decode(line[|DATA|..]).chunk))
  {
  }

  /** The reading of the frame that takes the label: before its line, the label's chunk, and after. */
  lemma LabelFrameParts(decode: Decoder, lines: seq<string>, a: seq<string>, b: seq<string>)
    requires AllUnbroken(decode, lines) && TextFrom(decode, lines, 0) < |lines|
    requires a == lines[..TextFrom(decode, lines, 0)] && b == lines[TextFrom(decode, lines, 0) + 1..]
    ensures ParseLines(decode, lines)
         == Then(ParseLines(decode, a),
                 Then(Parse(ChunkEvents(LabelChunk(decode, lines)), Open), ParseLines(decode, b)))
  {
    var j, events := TextFrom(decode, lines, 0), ChunkEvents(LabelChunk(decode, lines));
    assert Unbroken(decode, lines[j]);
    TextLineEffect(decode, lines[j]);
    assert lines == (a + [lines[j]]) + b;
    ParseAround(decode, a, lines[j], b);
    ThenAssociates(ParseLines(decode, a), Parse(events, Open), ParseLines(decode, b));
  }

  lemma ThenAssociates(p: Parse, q: Parse, t: Parse)
    ensures Then(Then(p, q), t) == Then(p, Then(q, t))
  {
    if p.end == Open && q.end == Open {
      assert (p.events + q.events) + t.events == p.events + (q.events + t.events);
    }
  }

  lemma ThenSame(p: Parse, t: Parse)
    requires p.end == Open
    ensures Then(p, t) == t <==> p.events == []
  {
    if p.events == [] {
      assert p.events + t.events == t.events;
    } else {
      assert |p.events + t.events| > |t.events|;
    }
  }

  lemma {:induction false} DeltaAt(events: seq<Event>, d: nat)
    requires d <= |events| && (forall i :: 0 <= i < d ==> !events[i].Delta?) && (d < |events| ==> events[d].Delta?)
    ensures FirstDelta(events) == d
  {
  }

  lemma LabelAt(model: string, lead: seq<Event>, t: string, rest: seq<Event>)
    requires FirstDelta(lead) == |lead|
    ensures InsertLabel(model, lead + [Delta(t)] + rest) == lead + [Delta(Label(LastModel(model, lead)) + t)] + rest
  {
    var all := lead + [Delta(t)] + rest;
    assert all[..|lead|] == lead;
    assert forall i :: 0 <= i < |lead| ==> all[i] == lead[i];
    DeltaAt(all, |lead|);
  }

  /** The label, where it belongs. */
  lemma LabelPlace(model: string, a: seq<Event>, c: Chunk, rest: seq<Event>)
    requires FirstDelta(a) == |a| && c.content != ""
    ensures var who := if c.model != "" then c.model else LastModel(model, a);
            InsertLabel(model, a + ChunkEvents(c) + rest) == a + ChunkEvents(Labelled(who, c)) + rest
  {
    var u := if c.usage != map[] then [Usage(c.usage)] else [];
    var m := if c.model != "" then [Model(c.model)] else [];
    var lead := a + (u + m);
    LastModelConcat(model, a, u + m);
    LastModelConcat(LastModel(model, a), u, m);
    DeltaAt(lead, |lead|);
    LabelAt(model, lead, c.content, rest);
    Piecewise(a, u + m, Delta(c.content), rest);
    Piecewise(a, u + m, Delta(Label(LastModel(model, lead)) + c.content), rest);
  }

  lemma Piecewise(a: seq<Event>, b: seq<Event>, e: Event, rest: seq<Event>)
    ensures a + (b + [e]) + rest == (a + b) + [e] + rest
  {
  }

  /** The relayed stream read, beside the original with its label. */
  predicate Faithful(codec: Codec, model: string, bytes: string) {
    var r := Relay(codec, Peek(true, model, map[]), Frames(bytes));
    var p := ParseWhole(codec.decode, bytes);
    ParseWhole(codec.decode, Concat(r.out)) == Parse(InsertLabel(model, p.events), p.end)
  }

  /** The reader does not miss the other lines of the frame that takes the label: those before the label's
      line say nothing, and with those after it the stream, which then goes on as `rest`, goes on or ends
      just as without them. */
  predicate NotMissed(decode: Decoder, lines: seq<string>, rest: Parse)
    requires TextFrom(decode, lines, 0) < |lines|
  {
    var j := TextFrom(decode, lines, 0);
    ParseLines(decode, lines[..j]) == Parse([], Open) && Then(ParseLines(decode, lines[j + 1..]), rest) == rest
  }

  /** What decides it: the frame that takes the label, if there is one and the reader gets to it. */
  predicate Spared(decode: Decoder, frames: seq<string>) {
    var k := LabelFrom(decode, frames, 0);
    k < |frames| && ParseLines(decode, AllLines(frames[..k])).end == Open ==>
      NotMissed(decode, SplitLf(frames[k]), ParseLines(decode, AllLines(frames[k + 1..])))
  }

  /** In a frame without [DONE] that is: no other line says anything. */
  lemma NotMissedIffAlone(decode: Decoder, lines: seq<string>, rest: Parse)
    requires TextFrom(decode, lines, 0) < |lines| && AllUnbroken(decode, lines) && Undone(decode, lines)
    ensures NotMissed(decode, lines, rest) <==> Alone(decode, lines)
  {
    var j := TextFrom(decode, lines, 0);
    var a, b := lines[..j], lines[j + 1..];
    SilentLines(decode, a);
    SilentLines(decode, b);
    ThenSame(ParseLines(decode, b), rest);
    AloneParts(decode, lines, a, b);
  }

  lemma AloneParts(decode: Decoder, lines: seq<string>, a: seq<string>, b: seq<string>)
    requires TextFrom(decode, lines, 0) < |lines|
    requires a == lines[..TextFrom(decode, lines, 0)] && b == lines[TextFrom(decode, lines, 0) + 1..]
    ensures Alone(decode, lines) <==> ((forall i :: 0 <= i < |a| ==> !Says(LineEffect(decode, a[i])))
                                       && (forall i :: 0 <= i < |b| ==> !Says(LineEffect(decode, b[i]))))
  {
    AllBut((line: string) => !Says(LineEffect(decode, line)), lines, TextFrom(decode, lines, 0), a, b);
  }

  lemma AllBut(ok: string -> bool, lines: seq<string>, j: nat, a: seq<string>, b: seq<string>)
    requires j < |lines| && a == lines[..j] && b == lines[j + 1..]
    ensures (forall i :: 0 <= i < |lines| && i != j ==> ok(lines[i]))
       <==> ((forall i :: 0 <= i < |a| ==> ok(a[i])) && (forall i :: 0 <= i < |b| ==> ok(b[i])))
  {
    assert forall i :: 0 <= i < |a| ==> a[i] == lines[i];
    assert forall i :: 0 <= i < |b| ==> b[i] == lines[i + j + 1];
    assert forall i :: j < i < |lines| ==> lines[i] == b[i - j - 1];
  }

  /** Rewriting in flight keeps the content exactly when the reader misses nothing of the label's frame. */
  lemma FaithfulIff(codec: Codec, model: string, bytes: string)
    requires Lawful(codec) && UnbrokenFrames(codec.decode, Frames(bytes))
    ensures Faithful(codec, model, bytes) <==> Spared(codec.decode, Frames(bytes))
  {
    FramesAreProper(bytes);
    FaithfulFrames(codec, model, Frames(bytes));
  }

  lemma FaithfulFrames(codec: Codec, model: string, frames: seq<string>)
    requires Lawful(codec) && UnbrokenFrames(codec.decode, frames) && forall f <- frames :: Proper(f)
    ensures var r := Relay(codec, Peek(true, model, map[]), frames);
            var p := ParseLines(codec.decode, AllLines(frames));
            (ParseWhole(codec.decode, Concat(r.out)) == Parse(InsertLabel(model, p.events), p.end))
              <==> Spared(codec.decode, frames)
  {
    var k := LabelFrom(codec.decode, frames, 0);
    if k == |frames| {
      Unlabelled(codec, model, frames);
    } else {
      assert frames == frames[..k] + [frames[k]] + frames[k + 1..];
      LabelledStream(codec, model, frames[..k], frames[k], frames[k + 1..]);
    }
  }

  lemma Unlabelled(codec: Codec, model: string, frames: seq<string>)
    requires UnbrokenFrames(codec.decode, frames) && forall f <- frames :: Proper(f) && !FrameHasText(codec.decode, f)
    ensures var r := Relay(codec, Peek(true, model, map[]), frames);
            var p := ParseLines(codec.decode, AllLines(frames));
            ParseWhole(codec.decode, Concat(r.out)) == Parse(InsertLabel(model, p.events), p.end)
  {
    QuietFrames(codec, Peek(true, model, map[]), frames);
    FramesUnframed(frames);
  }

  lemma LabelledStream(codec: Codec, model: string, a: seq<string>, f: string, b: seq<string>)
    requires Lawful(codec) && UnbrokenFrames(codec.decode, a + [f] + b)
    requires forall g <- a + [f] + b :: Proper(g)
    requires FrameHasText(codec.decode, f) && forall g <- a :: !FrameHasText(codec.decode, g)
    ensures var r := Relay(codec, Peek(true, model, map[]), a + [f] + b);
            var p := ParseLines(codec.decode, AllLines(a + [f] + b));
            (ParseWhole(codec.decode, Concat(r.out)) == Parse(InsertLabel(model, p.events), p.end))
              <==> (ParseLines(codec.decode, AllLines(a)).end == Open ==>
                      NotMissed(codec.decode, SplitLf(f), ParseLines(codec.decode, AllLines(b))))
  {
    var decode, lines := codec.decode, SplitLf(f);
    var c, p, t := LabelChunk(decode, lines), ParseLines(decode, AllLines(a)), ParseLines(decode, AllLines(b));
    var who := RelayedParts(codec, model, a, f, b);
    var line := DATA + codec.encode(Labelled(who, c));
    LabelledIsProper(codec, Labelled(who, c));
    ThreeParts(decode, a, f, b);
    ThreeParts(decode, a, line, b);
    assert forall g <- a :: g in a + [f] + b;
    assert f in a + [f] + b;
    QuietFrames(codec, Peek(true, model, map[]), a);
    if p.end == Open {
      LabelledFrame(codec, model, lines, p.events, t, who);
    }
  }

  /** The same for what the frame that takes the label, after events without text, is read as. */
  lemma LabelledFrame(codec: Codec, model: string, lines: seq<string>, a: seq<Event>, t: Parse, who: string)
    requires AllUnbroken(codec.decode, lines) && TextFrom(codec.decode, lines, 0) < |lines|
    requires FirstDelta(a) == |a|
    requires ParseLines(codec.decode, lines[..TextFrom(codec.decode, lines, 0)]) == Parse([], Open) ==>
               var c := LabelChunk(codec.decode, lines);
               who == if c.model != "" then c.model else LastModel(model, a)
    ensures var original := Then(Then(Parse(a, Open), ParseLines(codec.decode, lines)), t);
            var c := Labelled(who, LabelChunk(codec.decode, lines));
            (Parse(a + ChunkEvents(c) + t.events, t.end) == Parse(InsertLabel(model, original.events), original.end))
              <==> NotMissed(codec.decode, lines, t)
  {
    var decode, j, c := codec.decode, TextFrom(codec.decode, lines, 0), LabelChunk(codec.decode, lines);
    var before, after := ParseLines(decode, lines[..j]), ParseLines(decode, lines[j + 1..]);
    LabelFrameParts(decode, lines, lines[..j], lines[j + 1..]);
    QuietLines(codec, Peeked(Peek(true, model, map[]), "", false), lines[..j]);
    RegroupedParses(Parse(a, Open), before, Parse(ChunkEvents(c), Open), after, t);
    Compare(model, a, before, c, Then(after, t), t, who);
  }

  lemma RegroupedParses(p: Parse, before: Parse, c: Parse, after: Parse, t: Parse)
    ensures Then(Then(p, Then(before, Then(c, after))), t) == Then(p, Then(before, Then(c, Then(after, t))))
  {
    ThenAssociates(p, Then(before, Then(c, after)), t);
    ThenAssociates(before, Then(c, after), t);
    ThenAssociates(c, after, t);
  }

  /** The original stream and the relayed one: `rest` follows the label's line in the one, `kept` in the
      other. */
  lemma Compare(model: string, a: seq<Event>, before: Parse, c: Chunk, rest: Parse, kept: Parse, who: string)
    requires FirstDelta(a) == |a| && FirstDelta(before.events) == |before.events| && c.content != ""
    requires before == Parse([], Open) ==> who == if c.model != "" then c.model else LastModel(model, a)
    ensures var original := Then(Parse(a, Open), Then(before, Then(Parse(ChunkEvents(c), Open), rest)));
            (Parse(a + ChunkEvents(Labelled(who, c)) + kept.events, kept.end)
             == Parse(InsertLabel(model, original.events), original.end))
              <==> before == Parse([], Open) && rest == kept
  {
    if before.end != Open {
      NeverReached(model, a + before.events, a, Labelled(who, c), kept.events);
    } else if before.events != [] {
      assert a + (before.events + (ChunkEvents(c) + rest.events)) == (a + before.events) + ChunkEvents(c) + rest.events;
      TooLate(model, a, before.events, c, rest.events, who, kept.events);
    } else {
      assert a + ([] + (ChunkEvents(c) + rest.events)) == a + ChunkEvents(c) + rest.events;
      LabelPlace(model, a, c, rest.events);
      SameTail(a + ChunkEvents(Labelled(who, c)), rest.events, kept.events);
    }
  }

  lemma SameTail(a: seq<Event>, x: seq<Event>, y: seq<Event>)
    ensures a + x == a + y <==> x == y
  {
    assert (a + x)[|a|..] == x && (a + y)[|a|..] == y;
  }

  /** Where the first text of a labelled chunk stands. */
  lemma FirstText(a: seq<Event>, c: Chunk, rest: seq<Event>)
    requires FirstDelta(a) == |a| && c.content != ""
    ensures FirstDelta(a + ChunkEvents(c) + rest) == |a| + |ChunkEvents(c)| - 1
  {
    DeltaAt(a + ChunkEvents(c) + rest, |a| + |ChunkEvents(c)| - 1);
  }

  lemma NeverReached(model: string, original: seq<Event>, a: seq<Event>, c: Chunk, rest: seq<Event>)
    requires FirstDelta(a) == |a| && c.content != "" && forall e <- original :: !e.Delta?
    ensures a + ChunkEvents(c) + rest != InsertLabel(model, original)
  {
    FirstText(a, c, rest);
    DeltaAt(original, |original|);
    var n := |a| + |ChunkEvents(c)| - 1;
    assert (a + ChunkEvents(c) + rest)[n].Delta?;
  }

  /** What is said before the label's line puts the first text later. */
  lemma TooLate(model: string, a: seq<Event>, before: seq<Event>, c: Chunk, rest: seq<Event>, who: string,
                kept: seq<Event>)
    requires FirstDelta(a) == |a| && FirstDelta(before) == |before| && before != [] && c.content != ""
    ensures a + ChunkEvents(Labelled(who, c)) + kept != InsertLabel(model, (a + before) + ChunkEvents(c) + rest)
  {
    var original := (a + before) + ChunkEvents(c) + rest;
    DeltaAt(a + before, |a + before|);
    FirstText(a, Labelled(who, c), kept);
    FirstText(a + before, c, rest);
    var n := |a| + |ChunkEvents(c)| - 1;
    assert (a + ChunkEvents(Labelled(who, c)) + kept)[n].Delta?;
    assert !original[n].Delta?;
  }

  /** Frames of one line lose nothing: the reader of the relayed stream gets the original's events with
      the label once, before the first text. */
  lemma RewritingKeepsContent(codec: Codec, model: string, bytes: string)
    requires Lawful(codec) && UnbrokenFrames(codec.decode, Frames(bytes))
    requires forall f <- Frames(bytes) :: '\n' !in f
    ensures Faithful(codec, model, bytes)
  {
    OneLineEach(codec.decode, Frames(bytes));
    FaithfulIff(codec, model, bytes);
  }

  lemma OneLineEach(decode: Decoder, frames: seq<string>)
    requires UnbrokenFrames(decode, frames) && forall f <- frames :: '\n' !in f
    ensures Spared(decode, frames)
  {
    var k := LabelFrom(decode, frames, 0);
    if k < |frames| {
      var f := frames[k];
      assert f in frames;
      LoneLine(decode, f);
      NotMissedIffAlone(decode, SplitLf(f), ParseLines(decode, AllLines(frames[k + 1..])));
    }
  }

  lemma LoneLine(decode: Decoder, frame: string)
    requires '\n' !in frame && AllUnbroken(decode, SplitLf(frame)) && FrameHasText(decode, frame)
    ensures Alone(decode, SplitLf(frame)) && Undone(decode, SplitLf(frame))
  {
    OneLine(frame);
    assert Unbroken(decode, frame);
  }

  /** The text with the label: the label, by the model last reported before the text, and the text. */
  lemma LabelledText(model: string, events: seq<Event>)
    ensures var d := FirstDelta(events);
            && Concat(Deltas(InsertLabel(model, events)))
               == (if d == |events| then "" else Label(LastModel(model, events[..d]))) + Concat(Deltas(events))
            && Usages(InsertLabel(model, events)) == Usages(events)
  {
    var d := FirstDelta(events);
    if d == |events| {
      assert "" + Concat(Deltas(events)) == Concat(Deltas(events));
    } else {
      var lead, t, rest := events[..d], events[d].text, events[d + 1..];
      assert events == lead + [Delta(t)] + rest;
      DeltaAt(lead, |lead|);
      LabelAt(model, lead, t, rest);
      TextParts(lead, t, rest);
      TextParts(lead, Label(LastModel(model, lead)) + t, rest);
    }
  }

  /** What a reader of the relayed bytes gets: the label, by the model last reported before the first
      text, then the text of the original, and its usages. */
  lemma RelayedText(codec: Codec, model: string, bytes: string)
    requires Lawful(codec) && UnbrokenFrames(codec.decode, Frames(bytes)) && Spared(codec.decode, Frames(bytes))
    ensures var r := Relay(codec, Peek(true, model, map[]), Frames(bytes));
            var p, q := ParseWhole(codec.decode, bytes), ParseWhole(codec.decode, Concat(r.out));
            var d := FirstDelta(p.events);
            && Concat(Deltas(q.events))
               == (if d == |p.events| then "" else "`[" + LastModel(model, p.events[..d]) + "]`\n\n")
                  + Concat(Deltas(p.events))
            && Usages(q.events) == Usages(p.events) && q.end == p.end
  {
    FaithfulIff(codec, model, bytes);
    LabelledText(model, ParseWhole(codec.decode, bytes).events);
  }

  lemma {:induction false} NoTexts(events: seq<Event>)
    requires forall e <- events :: !e.Delta?
    ensures Deltas(events) == []
  {
    if events != [] {
      NoTexts(events[..|events| - 1]);
    }
  }

  lemma TextParts(lead: seq<Event>, t: string, rest: seq<Event>)
    requires forall e <- lead :: !e.Delta?
    ensures Concat(Deltas(lead + [Delta(t)] + rest)) == t + Concat(Deltas(rest))
    ensures Usages(lead + [Delta(t)] + rest) == Usages(lead) + Usages(rest)
  {
    NoTexts(lead);
    DeltasSnoc(lead, Delta(t));
    DeltasConcat(lead + [Delta(t)], rest);
    assert [] + [t] == [t] && Usages(lead) + [] == Usages(lead);
    FirstOfTexts(t, Deltas(rest));
  }

  lemma FirstOfTexts(t: string, rest: seq<string>)
    ensures Concat([t] + rest) == t + Concat(rest)
  {
    ConcatAppend([t], rest);
    ConcatSnoc([], t);
    assert [] + [t] == [t] && "" + t == t;
  }

  // ---- a frame of two lines ------------------------------------------------

  /** The single-line hypothesis is needed: when the label goes into a frame of two payload lines,
      the relay yields only the first of them, and what the second said is gone. */
  lemma TwoLinesLoseOne(codec: Codec, model: string, a: Chunk, b: Chunk)
    requires Lawful(codec) && a.content != "" && b.content != ""
    ensures var bytes := DATA + codec.encode(a) + "\n" + PrintFrame(codec.encode(b));
            var r := Relay(codec, Peek(true, model, map[]), Frames(bytes));
            var who := if a.model != "" then a.model else model;
            && ParseWhole(codec.decode, bytes) == Parse(ChunkEvents(a) + ChunkEvents(b), Open)
            && ParseWhole(codec.decode, Concat(r.out)) == Parse(ChunkEvents(Labelled(who, a)), Open)
  {
    var la, lb := DATA + codec.encode(a), DATA + codec.encode(b);
    var bytes := la + "\n" + PrintFrame(codec.encode(b));
    PayloadLine(codec.encode(a));
    PayloadLine(codec.encode(b));
    assert bytes == la + "\n" + lb + "\n\n";
    TwoLines(la, lb);
    TwoLinesRead(codec, a, b);
    TwoLinesPeeked(codec, model, a, b, la + "\n" + lb);
    OnlyChunk(codec, Labelled(if a.model != "" then a.model else model, a));
  }

  lemma OnlyChunk(codec: Codec, c: Chunk)
    requires Lawful(codec)
    ensures ParseWhole(codec.decode, Concat([PrintFrame(codec.encode(c))])) == Parse(ChunkEvents(c), Open)
  {
    PrintedLine(codec, c);
    assert Frames("") == [];
    ReadFrameAfter(codec.decode, "", codec.encode(c));
    assert Concat([PrintFrame(codec.encode(c))]) == "" + PrintFrame(codec.encode(c));
  }

  lemma TwoLinesRead(codec: Codec, a: Chunk, b: Chunk)
    requires Lawful(codec)
    ensures ParseLines(codec.decode, [DATA + codec.encode(a), DATA + codec.encode(b)])
         == Parse(ChunkEvents(a) + ChunkEvents(b), Open)
  {
    var la, lb := DATA + codec.encode(a), DATA + codec.encode(b);
    PrintedLine(codec, a);
    PrintedLine(codec, b);
    ParseSnoc(codec.decode, [], la);
    ParseSnoc(codec.decode, [la], lb);
    assert [] + [la] == [la] && [la] + [lb] == [la, lb];
  }

  /** Two lines without a line feed, neither empty, make one frame of two lines. */
  lemma TwoLines(a: string, b: string)
    requires '\n' !in a && '\n' !in b && a != "" && b != ""
    ensures SplitLf(a + "\n" + b) == [a, b]
    ensures var bytes := a + "\n" + b + "\n\n";
            && Frames(bytes) == [a + "\n" + b] && Rest(bytes) == ""
            && AllLines(Frames(bytes)) == [a, b]
  {
    OneLine(a);
    SplitAppend(a, b);
    var frame := a + "\n" + b;
    assert [a] + [b] == [a, b];
    NoSepInside(a, b);
    assert (frame + "\n\n")[..|frame|] == frame && (frame + "\n\n")[|frame| + 2..] == "";
    assert Frames("") == [];
  }

  lemma NoSepInside(a: string, b: string)
    requires '\n' !in a && '\n' !in b && a != "" && b != ""
    ensures Sep(a + "\n" + b + "\n\n") == |a| + 1 + |b|
  {
    var s := a + "\n" + b + "\n\n";
    var n := |a| + 1 + |b|;
    assert s[..|a|] == a && s[|a| + 1..n] == b;
    forall i | 0 <= i < n ensures !IsSep(s, i) {
      assert s[i] != '\n' || i == |a|;
      assert s[|a| + 1] == b[0];
    }
    SepIs(s, n);
  }

  lemma SepIs(s: string, n: nat)
    requires IsSep(s, n) && forall i :: 0 <= i < n ==> !IsSep(s, i)
    ensures Sep(s) == n
  {
  }

  lemma {:induction false} SplitAppend(a: string, b: string)
    requires '\n' !in b
    ensures SplitLf(a + "\n" + b) == SplitLf(a) + [b]
  {
    var s := a + "\n" + b;
    if b == "" {
      assert s[..|s| - 1] == a;
    } else {
      SplitAppend(a, b[..|b| - 1]);
      assert s[..|s| - 1] == a + "\n" + b[..|b| - 1];
      assert b == b[..|b| - 1] + [b[|b| - 1]];
    }
  }

  lemma TwoLinesPeeked(codec: Codec, model: string, a: Chunk, b: Chunk, frame: string)
    requires Lawful(codec) && a.content != "" && b.content != ""
    requires SplitLf(frame) == [DATA + codec.encode(a), DATA + codec.encode(b)]
    ensures var who := if a.model != "" then a.model else model;
            Relay(codec, Peek(true, model, map[]), [frame]).out == [PrintFrame(codec.encode(Labelled(who, a)))]
  {
    var la, lb := DATA + codec.encode(a), DATA + codec.encode(b);
    var start := Peeked(Peek(true, model, map[]), frame, false);
    PeekedChunk(codec, start, a);
    PeekedChunk(codec, PeekChunk(codec, start, a), b);
    PeekTwo(codec, start, la, lb);
    assert Relay(codec, start.peek, [frame]) == RelayFrame(codec, Relay(codec, start.peek, []), frame);
  }

  lemma PeekTwo(codec: Codec, x: Peeked, a: string, b: string)
    ensures PeekLines(codec, x, [a, b]) == PeekLine(codec, PeekLine(codec, x, a), b)
  {
    PeekSnoc(codec, x, [], a);
    PeekSnoc(codec, x, [a], b);
    assert [] + [a] == [a] && [a] + [b] == [a, b];
  }

  lemma PeekedChunk(codec: Codec, x: Peeked, c: Chunk)
    requires Lawful(codec) && !x.raised
    ensures PeekLine(codec, x, DATA + codec.encode(c)) == PeekChunk(codec, x, c)
  {
    PayloadLine(codec.encode(c));
  }
}
