/** The Anthropic provider's printer, and the proof that the chat core's reader undoes it. */
module Claude {
  import opened Wrappers
  import opened Text
  import opened Sse

  /** json.dumps and json.loads over chunks. */
  datatype Codec = Codec(encode: Chunk -> string, decode: Decoder)

  /** Dumped JSON is one line without outer blanks, and an object is not [DONE]. */
  predicate Clean(payload: string) {
    '\n' !in payload && StripBytes(payload) == payload && payload != DONE
  }

  /** What is dumped loads back (section 7 of RFC 8259: control characters are escaped). */
  ghost predicate Lawful(codec: Codec) {
    forall c: Chunk {:trigger codec.encode(c)} ::
      Clean(codec.encode(c)) && codec.decode(codec.encode(c)) == Good(c)
  }

  function PrintFrame(payload: string): string {
    DATA + payload + "\n\n"
  }

  /** The frames of chunks, one after the other. */
  function Print(codec: Codec, chunks: seq<Chunk>): string {
    if chunks == [] then "" else Print(codec, chunks[..|chunks| - 1]) + PrintFrame(codec.encode(chunks[|chunks| - 1]))
  }

  function EventsOf(chunks: seq<Chunk>): seq<Event> {
    if chunks == [] then [] else EventsOf(chunks[..|chunks| - 1]) + ChunkEvents(chunks[|chunks| - 1])
  }

  // ---- the printer --------------------------------------------------------

  datatype StreamEvent = MessageStart(id: string) | TextDelta(text: string) | OtherEvent

  /** The final message: why it stopped and what it used. */
  datatype FinalMessage = FinalMessage(stopReason: string, inputTokens: int, outputTokens: int)

  const FIRST_ID := "chatcmpl-octo-claude"

  function FinishReason(stop: string): string {
    if stop == "max_tokens" then "length" else if stop == "refusal" then "content_filter" else "stop"
  }

  function UsageOf(f: FinalMessage): (u: Usage)
    ensures u != map[]
  {
    var u: Usage := map["prompt_tokens" := f.inputTokens, "completion_tokens" := f.outputTokens,
                        "total_tokens" := f.inputTokens + f.outputTokens];
    assert "total_tokens" in u;
    u
  }

  function TextChunk(id: string, created: int, model: string, text: string): Chunk {
    Chunk(map[], model, text, Meta(id, created, None, None, ""))
  }

  function RoleChunk(created: int, model: string): Chunk {
    Chunk(map[], model, "", Meta(FIRST_ID, created, Some("assistant"), None, ""))
  }

  function FinalChunk(id: string, created: int, model: string, f: FinalMessage): Chunk {
    Chunk(UsageOf(f), model, "", Meta(id, created, None, Some(FinishReason(f.stopReason)), ""))
  }

  /** The chunks printed for the events so far, and the message id in force. `clock` gives the
      creation second of each chunk. */
  function Printed(events: seq<StreamEvent>, model: string, clock: nat -> int): (seq<Chunk>, string) {
    if events == [] then ([RoleChunk(clock(0), model)], FIRST_ID)
    else
      var (chunks, id) := Printed(events[..|events| - 1], model, clock);
      match events[|events| - 1]
      case MessageStart(next) => (chunks, next)
      case TextDelta(text) => (chunks + [TextChunk(id, clock(|chunks|), model, text)], id)
      case OtherEvent => (chunks, id)
  }

  function AllPrinted(events: seq<StreamEvent>, model: string, clock: nat -> int, f: FinalMessage): seq<Chunk> {
    var (chunks, id) := Printed(events, model, clock);
    chunks + [FinalChunk(id, clock(|chunks|), model, f)]
  }

  method SseFromStream(codec: Codec, events: seq<StreamEvent>, model: string, clock: nat -> int, f: FinalMessage)
    returns (out: seq<string>)
    ensures Concat(out) == Print(codec, AllPrinted(events, model, clock, f)) + PrintFrame(DONE)
  {
    var id := FIRST_ID;
    var n := 1;
    ghost var chunks := [RoleChunk(clock(0), model)];
    out := [PrintFrame(codec.encode(RoleChunk(clock(0), model)))];
    assert Concat(out) == Print(codec, chunks);
    var k := 0;
    while k < |events|
      invariant 0 <= k <= |events|
      invariant Printed(events[..k], model, clock) == (chunks, id)
      invariant n == |chunks| && Concat(out) == Print(codec, chunks)
    {
      assert events[..k + 1][..k] == events[..k];
      match events[k] {
        case MessageStart(next) => id := next;
        case TextDelta(text) =>
          var c := TextChunk(id, clock(n), model, text);
          ConcatSnoc(out, PrintFrame(codec.encode(c)));
          PrintSnoc(codec, chunks, c);
          out := out + [PrintFrame(codec.encode(c))];
          chunks := chunks + [c];
          n := n + 1;
        case OtherEvent =>
      }
      k := k + 1;
    }
    assert events[..k] == events;
    var last := FinalChunk(id, clock(n), model, f);
    ConcatSnoc(out, PrintFrame(codec.encode(last)));
    PrintSnoc(codec, chunks, last);
    out := out + [PrintFrame(codec.encode(last))];
    ConcatSnoc(out, PrintFrame(DONE));
    out := out + [PrintFrame(DONE)];
  }

  lemma PrintSnoc(codec: Codec, chunks: seq<Chunk>, c: Chunk)
    ensures Print(codec, chunks + [c]) == Print(codec, chunks) + PrintFrame(codec.encode(c))
  {
    assert (chunks + [c])[..|chunks|] == chunks;
  }

  lemma EventsSnoc(chunks: seq<Chunk>, c: Chunk)
    ensures EventsOf(chunks + [c]) == EventsOf(chunks) + ChunkEvents(c)
  {
    assert (chunks + [c])[..|chunks|] == chunks;
  }

  /** The id of the last message that started before event p, or the one given first. */
  lemma {:induction false} IdInForce(events: seq<StreamEvent>, model: string, clock: nat -> int)
    ensures var (chunks, id) := Printed(events, model, clock);
            if forall q :: 0 <= q < |events| ==> !events[q].MessageStart? then id == "chatcmpl-octo-claude"
            else exists q :: 0 <= q < |events| && events[q] == MessageStart(id)
                             && forall r :: q < r < |events| ==> !events[r].MessageStart?
  {
    if events != [] {
      var init := events[..|events| - 1];
      IdInForce(init, model, clock);
      var n := |events| - 1;
      if events[n].MessageStart? {
        assert events[n] == MessageStart(Printed(events, model, clock).1);
      } else {
        assert forall q :: 0 <= q < n ==> events[q] == init[q];
      }
    }
  }

  /** The first chunk names the role; each text delta has one chunk, after those of the deltas before it, with
      its text, the clock at that chunk and the id in force; nothing else is printed before the end. */
  lemma {:induction false} PrintedChunks(events: seq<StreamEvent>, model: string, clock: nat -> int)
    ensures var chunks := Printed(events, model, clock).0;
            && chunks != []
            && chunks[0] == Chunk(map[], model, "", Meta("chatcmpl-octo-claude", clock(0), Some("assistant"), None, ""))
            && |chunks| == 1 + CountTexts(events)
            && forall p :: 0 <= p < |events| && events[p].TextDelta? ==>
                 var (before, id) := Printed(events[..p], model, clock);
                 && |before| < |chunks| && |before| == 1 + CountTexts(events[..p])
                 && chunks[|before|] == Chunk(map[], model, events[p].text, Meta(id, clock(|before|), None, None, ""))
  {
    if events != [] {
      var n := |events| - 1;
      var init := events[..n];
      PrintedChunks(init, model, clock);
      forall p | 0 <= p < |events| && events[p].TextDelta?
        ensures var (before, id) := Printed(events[..p], model, clock);
                var chunks := Printed(events, model, clock).0;
                && |before| < |chunks| && |before| == 1 + CountTexts(events[..p])
                && chunks[|before|] == Chunk(map[], model, events[p].text, Meta(id, clock(|before|), None, None, ""))
      {
        if p < n {
          assert events[..p] == init[..p] && init[p] == events[p];
        }
      }
    }
  }

  function CountTexts(events: seq<StreamEvent>): nat {
    if events == [] then 0
    else CountTexts(events[..|events| - 1]) + if events[|events| - 1].TextDelta? then 1 else 0
  }

  /** The last chunk has no text, the usage with its total, and the reason to finish in the terms of the other
      protocol. */
  lemma LastChunk(events: seq<StreamEvent>, model: string, clock: nat -> int, f: FinalMessage)
    ensures var all, (chunks, id) := AllPrinted(events, model, clock, f), Printed(events, model, clock);
            && |all| == |chunks| + 1 && all[..|chunks|] == chunks
            && all[|chunks|]
               == Chunk(map["prompt_tokens" := f.inputTokens, "completion_tokens" := f.outputTokens,
                            "total_tokens" := f.inputTokens + f.outputTokens], model, "",
                        Meta(id, clock(|chunks|), None,
                             Some(match f.stopReason
                                  case "max_tokens" => "length"
                                  case "refusal" => "content_filter"
                                  case _ => "stop"), ""))
  {
  }

  // ---- reading back -------------------------------------------------------

  lemma PayloadLine(payload: string)
    requires '\n' !in payload
    ensures '\n' !in DATA + payload && (DATA + payload)[|DATA|..] == payload && StartsWith(DATA + payload, DATA)
    ensures Frames(PrintFrame(payload)) == [DATA + payload] && Rest(PrintFrame(payload)) == ""
  {
    assert forall i :: 0 <= i < |DATA| ==> DATA[i] != '\n';
    assert (DATA + payload)[..|DATA|] == DATA;
    assert PrintFrame(payload) == (DATA + payload) + "\n\n";
    LineFrame(DATA + payload);
  }

  /** Appending one printed frame to a stream that ends at a frame boundary reads one more line. */
  lemma ReadFrameAfter(decode: Decoder, bytes: string, payload: string)
    requires Rest(bytes) == "" && '\n' !in payload
    ensures Rest(bytes + PrintFrame(payload)) == ""
    ensures ParseWhole(decode, bytes + PrintFrame(payload))
         == Read(ParseWhole(decode, bytes), LineEffect(decode, DATA + payload))
  {
    PayloadLine(payload);
    assert bytes + PrintFrame(payload) == bytes + (DATA + payload) + "\n\n";
    ReadLineAfter(decode, bytes, DATA + payload);
  }

  lemma PrintedLine(codec: Codec, c: Chunk)
    requires Lawful(codec)
    ensures '\n' !in codec.encode(c)
    ensures LineEffect(codec.decode, DATA + codec.encode(c)) == Emit(ChunkEvents(c))
  {
    assert Clean(codec.encode(c));
    PayloadLine(codec.encode(c));
  }

  lemma {:induction false} ReadsBack(codec: Codec, chunks: seq<Chunk>)
    requires Lawful(codec)
    ensures Rest(Print(codec, chunks)) == ""
    ensures ParseWhole(codec.decode, Print(codec, chunks)) == Parse(EventsOf(chunks), Open)
  {
    if chunks == [] {
      assert Frames("") == [];
    } else {
      var init, last := chunks[..|chunks| - 1], chunks[|chunks| - 1];
      ReadsBack(codec, init);
      PrintedLine(codec, last);
      ReadFrameAfter(codec.decode, Print(codec, init), codec.encode(last));
    }
  }

  lemma DoneFrame(decode: Decoder)
    ensures LineEffect(decode, DATA + DONE) == Stop
  {
    PayloadLine(DONE);
    assert StripBytes(DONE) == DONE;
  }

  // ---- what the reader makes of the printer's stream ----------------------

  /** The non-empty text deltas of the provider, in order. */
  function Texts(events: seq<StreamEvent>): seq<string> {
    if events == [] then []
    else
      var before := Texts(events[..|events| - 1]);
      match events[|events| - 1]
      case TextDelta(text) => if text == "" then before else before + [text]
      case _ => before
  }

  lemma ChunkDeltas(c: Chunk)
    ensures Deltas(ChunkEvents(c)) == if c.content != "" then [c.content] else []
    ensures Usages(ChunkEvents(c)) == if c.usage != map[] then [c.usage] else []
  {
    var u := if c.usage != map[] then [Usage(c.usage)] else [];
    var m := if c.model != "" then [Model(c.model)] else [];
    var d := if c.content != "" then [Delta(c.content)] else [];
    DeltasConcat(u + m, d);
    DeltasConcat(u, m);
  }

  lemma {:induction false} PrintedDeltas(events: seq<StreamEvent>, model: string, clock: nat -> int)
    ensures Deltas(EventsOf(Printed(events, model, clock).0)) == Texts(events)
    ensures Usages(EventsOf(Printed(events, model, clock).0)) == []
  {
    if events == [] {
      ChunkDeltas(RoleChunk(clock(0), model));
      EventsSnoc([], RoleChunk(clock(0), model));
      assert [] + [RoleChunk(clock(0), model)] == [RoleChunk(clock(0), model)];
      assert EventsOf([]) + ChunkEvents(RoleChunk(clock(0), model)) == ChunkEvents(RoleChunk(clock(0), model));
    } else {
      var init := events[..|events| - 1];
      PrintedDeltas(init, model, clock);
      var (chunks, id) := Printed(init, model, clock);
      match events[|events| - 1] {
        case TextDelta(text) =>
          var c := TextChunk(id, clock(|chunks|), model, text);
          EventsSnoc(chunks, c);
          DeltasConcat(EventsOf(chunks), ChunkEvents(c));
          ChunkDeltas(c);
        case _ =>
      }
    }
  }

  lemma DoneStops(codec: Codec, chunks: seq<Chunk>, more: string)
    requires Lawful(codec)
    ensures ParseWhole(codec.decode, Print(codec, chunks) + PrintFrame(DONE) + more)
         == Parse(EventsOf(chunks), Finished)
  {
    ReadsBack(codec, chunks);
    DoneFrame(codec.decode);
    PayloadLine(DONE);
    ReadFrameAfter(codec.decode, Print(codec, chunks), DONE);
    ParseMore(codec.decode, Print(codec, chunks) + PrintFrame(DONE), more);
  }

  lemma AllPrintedDeltas(events: seq<StreamEvent>, model: string, clock: nat -> int, f: FinalMessage)
    ensures Deltas(EventsOf(AllPrinted(events, model, clock, f))) == Texts(events)
    ensures Usages(EventsOf(AllPrinted(events, model, clock, f))) == [UsageOf(f)]
  {
    var (chunks, id) := Printed(events, model, clock);
    var last := FinalChunk(id, clock(|chunks|), model, f);
    PrintedDeltas(events, model, clock);
    EventsSnoc(chunks, last);
    DeltasConcat(EventsOf(chunks), ChunkEvents(last));
    ChunkDeltas(last);
  }

  /** Printer and reader undo each other: the printed stream, followed by anything, is read as the
      non-empty text deltas in order with no usage among them, then the final chunk with its usage,
      and reading stops at [DONE]. */
  lemma PrinterRoundTrip(codec: Codec, events: seq<StreamEvent>, model: string, clock: nat -> int, f: FinalMessage,
                         bytes: string, more: string)
    requires Lawful(codec)
    requires bytes == Print(codec, AllPrinted(events, model, clock, f)) + PrintFrame(DONE) + more
    ensures var (chunks, id) := Printed(events, model, clock);
            var texts := EventsOf(chunks);
            && ParseWhole(codec.decode, bytes)
               == Parse(texts + ChunkEvents(FinalChunk(id, clock(|chunks|), model, f)), Finished)
            && Deltas(texts) == Texts(events) && Usages(texts) == []
    ensures var p := ParseWhole(codec.decode, bytes);
            Deltas(p.events) == Texts(events) && Usages(p.events) == [UsageOf(f)]
  {
    var (chunks, id) := Printed(events, model, clock);
    EventsSnoc(chunks, FinalChunk(id, clock(|chunks|), model, f));
    PrintedDeltas(events, model, clock);
    DoneStops(codec, AllPrinted(events, model, clock, f), more);
    AllPrintedDeltas(events, model, clock, f);
  }

  /** The provider's stream as the chat core reads it, whatever happens to its chunk boundaries on
      the way. */
  method PrintAndRead(codec: Codec, events: seq<StreamEvent>, model: string, clock: nat -> int, f: FinalMessage,
                      recut: seq<string> -> seq<string>)
    returns (got: seq<Event>, end: End)
    requires Lawful(codec) && forall chunks :: Concat(recut(chunks)) == Concat(chunks)
    ensures end == Finished
    ensures got == EventsOf(AllPrinted(events, model, clock, f))
    ensures Deltas(got) == Texts(events) && Usages(got) == [UsageOf(f)]
  {
    var out := SseFromStream(codec, events, model, clock, f);
    got, end := IterSseDeltas(codec.decode, recut(out));
    assert Concat(out) == Concat(out) + "";
    PrinterRoundTrip(codec, events, model, clock, f, Concat(out), "");
    DoneStops(codec, AllPrinted(events, model, clock, f), "");
  }
}
