/** A conversation in the spine, and the two ways of sending to it. */
module Conversations {
  import opened Wrappers
  import opened Text
  import opened Sse
  import opened ToolCall
  import opened Context
  import opened Trace
  import opened Detector
  import opened Turns
  import opened Audit

  // ---- a client that leaves --------------------------------------------------

  /** The acts of a turn up to the client's leaving: it closes the stream when it has received
      `patience` events, and nothing after that event is done. */
  function Until(acts: seq<Act>, patience: nat): seq<Act> {
    if acts == [] then []
    else
      var before := Until(acts[..|acts| - 1], patience);
      if |Shows(before)| >= patience then before else before + [acts[|acts| - 1]]
  }

  lemma UntilOneMore(acts: seq<Act>, patience: nat, a: Act)
    ensures Until(acts + [a], patience)
         == if |Shows(Until(acts, patience))| >= patience then Until(acts, patience) else Until(acts, patience) + [a]
  {
    assert (acts + [a])[..|acts|] == acts;
  }

  /** While the client is there, all is done. */
  lemma {:induction false} UntilAll(acts: seq<Act>, patience: nat)
    requires |Shows(Until(acts, patience))| < patience
    ensures Until(acts, patience) == acts
  {
    if acts != [] {
      var init := acts[..|acts| - 1];
      assert acts == init + [acts[|acts| - 1]];
      OneAct("", Until(init, patience), acts[|acts| - 1]);
      UntilAll(init, patience);
    }
  }

  lemma {:induction false} UntilIsPart(acts: seq<Act>, patience: nat)
    ensures Until(acts, patience) <= acts
  {
    if acts != [] {
      var init := acts[..|acts| - 1];
      UntilIsPart(init, patience);
      if |Shows(Until(init, patience))| < patience {
        UntilAll(init, patience);
      }
    }
  }

  /** A client receives as many events as it has patience for, and no more. */
  lemma {:induction false} UntilEnough(acts: seq<Act>, patience: nat)
    ensures |Shows(Until(acts, patience))| <= patience && |Shows(Until(acts, patience))| <= |Shows(acts)|
    ensures |Shows(acts)| >= patience ==> |Shows(Until(acts, patience))| == patience
  {
    if acts != [] {
      var init, a := acts[..|acts| - 1], acts[|acts| - 1];
      UntilEnough(init, patience);
      assert acts == init + [a];
      UntilOneMore(init, patience, a);
      OneAct("", init, a);
      if |Shows(Until(init, patience))| < patience {
        UntilAll(init, patience);
      }
    }
  }

  /** Once it has left, nothing more is. */
  lemma {:induction false} UntilLeft(acts: seq<Act>, patience: nat, more: seq<Act>)
    requires acts <= more && |Shows(Until(acts, patience))| >= patience
    ensures Until(more, patience) == Until(acts, patience)
  {
    if |acts| < |more| {
      var init := more[..|more| - 1];
      assert acts <= init;
      UntilLeft(acts, patience, init);
    } else {
      assert acts == more;
    }
  }

  /** A turn as its client sees it: left after some acts, or still there. */
  datatype Cut = Left(acts: seq<Act>) | Here(turn: Streaming)

  function CutAt(s: Streaming, patience: nat): Cut {
    var acts := Until(s.acts, patience);
    if |Shows(acts)| >= patience then Left(acts) else Here(s)
  }

  /** The cut, from the acts that were done. */
  lemma CutBy(s: Streaming, patience: nat, acts: seq<Act>)
    requires acts == Until(s.acts, patience)
    ensures CutAt(s, patience) == if |Shows(acts)| >= patience then Left(acts) else Here(s)
    ensures |Shows(acts)| < patience ==> s.acts == acts
  {
    if |Shows(acts)| < patience {
      UntilAll(s.acts, patience);
    }
  }

  lemma CutIsPart(s: Streaming, patience: nat)
    requires patience > 0
    ensures var cut := CutAt(s, patience);
            && DoneBy(cut) <= s.acts && |Shows(DoneBy(cut))| <= patience
            && (cut.Left? <==> |Shows(s.acts)| >= patience) && (cut.Left? ==> |Shows(DoneBy(cut))| == patience)
            && (cut.Here? ==> cut.turn == s)
  {
    UntilEnough(s.acts, patience);
    UntilIsPart(s.acts, patience);
    CutBy(s, patience, Until(s.acts, patience));
  }

  lemma StillHere(s: Streaming, patience: nat)
    requires CutAt(s, patience).Here?
    ensures CutAt(s, patience) == Here(s) && Until(s.acts, patience) == s.acts && |Shows(s.acts)| < patience
  {
    CutBy(s, patience, Until(s.acts, patience));
  }

  /** More acts do not matter to a client that has left. */
  lemma LeftBefore(s: Streaming, t: Streaming, patience: nat)
    requires CutAt(s, patience).Left? && s.acts <= t.acts
    ensures CutAt(t, patience) == CutAt(s, patience)
  {
    UntilLeft(s.acts, patience, t.acts);
  }

  // ---- the generator ----------------------------------------------------------

  datatype Locals = Locals(model: string, usage: Usage, parts: seq<string>, given: seq<Shown>)

  /** The local variables after some acts. */
  function Recall(requested: string, acts: seq<Act>): Locals {
    Locals(ModelAt(requested, acts), UsageAt(acts), Pieces(acts), Shows(acts))
  }

  /** The local variables of send_stream, and what it has yielded. `acts` records what was done. */
  class Generator {
    const patience: nat
    var model: string
    var usage: Usage
    var parts: seq<string>
    var prefixDone: bool
    var given: seq<Shown>
    ghost var acts: seq<Act>

    ghost predicate Valid(requested: string)
      reads this
    {
      Locals(model, usage, parts, given) == Recall(requested, acts)
    }

    /** The turn so far, for given values of the other local variables. */
    ghost function Now(context: seq<Message>, status: Status): Cut
      reads this
    {
      if |given| >= patience then Left(acts) else Here(Streaming(context, prefixDone, acts, status))
    }

    /** Between two acts, with the client there. */
    ghost predicate Waiting(requested: string)
      reads this
    {
      Valid(requested) && |given| < patience && Until(acts, patience) == acts
    }

    /** Suspended for good: the client has left. */
    predicate Closed()
      reads this
    {
      |given| >= patience
    }

    constructor (requested: string, patience: nat)
      ensures Valid(requested) && acts == [] && !prefixDone && this.patience == patience
    {
      this.patience := patience;
      model, usage, parts, prefixDone, given := requested, map[], [], false, [];
      acts := [];
    }

    method Ask(requested: string, context: seq<Message>)
      requires Valid(requested)
      modifies this
      ensures Rows(acts) == old(Rows(acts))
      ensures Valid(requested) && acts == old(acts) + [Asked(context)]
      ensures given == old(given) && prefixDone == old(prefixDone)
    {
      OneAct(requested, acts, Asked(context));
      acts := acts + [Asked(context)];
    }

    method Note(requested: string, e: Event)
      requires Valid(requested) && !e.Delta?
      modifies this
      ensures Rows(acts) == old(Rows(acts))
      ensures Valid(requested) && acts == old(acts) + [Heard(e)]
      ensures given == old(given) && prefixDone == old(prefixDone)
    {
      OneAct(requested, acts, Heard(e));
      match e {
        case Usage(u) => usage := u;
        case Model(m) => model := m;
      }
      acts := acts + [Heard(e)];
    }

    method Tell(requested: string, what: Shown)
      requires Valid(requested) && what.ToolStatus?
      modifies this
      ensures Rows(acts) == old(Rows(acts))
      ensures Valid(requested) && acts == old(acts) + [Sent(what)] && prefixDone == old(prefixDone)
    {
      OneAct(requested, acts, Sent(what));
      given := given + [what];
      acts := acts + [Sent(what)];
    }

    method ShowPart(requested: string, text: string)
      requires Valid(requested)
      modifies this
      ensures Rows(acts) == old(Rows(acts))
      ensures Valid(requested) && acts == old(acts) + [Sent(Piece(text))] && prefixDone == old(prefixDone)
    {
      OneAct(requested, acts, Sent(Piece(text)));
      parts := parts + [text];
      given := given + [Piece(text)];
      acts := acts + [Sent(Piece(text))];
    }

    /** The routed model's name, once, and then the text. */
    method ShowFirst(chat: Chat, ghost r: Round, text: string)
      requires Valid(chat.requested) && !Closed() && r.acts == acts && r.labelled == prefixDone
      requires Until(acts, patience) == acts
      modifies this
      ensures Rows(acts) == old(Rows(acts))
      ensures Valid(chat.requested) && acts == Until(Show(chat, r, text).acts, patience)
      ensures !Closed() ==> prefixDone
    {
      var p := if prefixDone then "" else Prefix(chat, model);
      ghost var goal := ShowCut(chat, r, text, patience, p);
      prefixDone := true;
      if p != "" {
        ShowPart(chat.requested, p);
        if Closed() {
          return;
        }
      }
      ShowPart(chat.requested, text);
      assert acts == goal;
    }

    /** One delta of a round: hold it back, decide, or show it. */
    method HearDelta(chat: Chat, ghost r: Round, t: string, held0: string, decided0: bool, tool0: bool)
      returns (held: string, decided: bool, tool: bool)
      requires Valid(chat.requested) && !Closed() && Until(acts, patience) == acts
      requires r == Round(held0, decided0, tool0, r.text, prefixDone, acts)
      modifies this
      ensures Rows(acts) == old(Rows(acts))
      ensures Valid(chat.requested) && acts == Until(HearText(chat, r, t).acts, patience)
      ensures !Closed() ==> HearText(chat, r, t) == Round(held, decided, tool, r.text + t, prefixDone, acts)
    {
      held, decided, tool := held0, decided0, tool0;
      if decided {
        if !tool {
          UntilOneMore(acts, patience, Sent(Piece(t)));
          ShowPart(chat.requested, t);
        }
        return;
      }
      held := held + t;
      var stripped := LStrip(held);
      if |stripped| >= |TOOL_MARKER| || '\n' in held {
        decided := true;
        tool := chat.tools != {} && Marked(stripped);
        if !tool && held != "" {
          ghost var d := r.(text := r.text + t, held := held, decided := true, tool := false);
          ShowFirst(chat, d, held);
          assert !Closed() ==> Show(chat, d, held).acts == acts by {
            if !Closed() {
              UntilAll(Show(chat, d, held).acts, patience);
            }
          }
        }
      }
    }

    method HearEvent(chat: Chat, ghost r: Round, ghost s: Round, e: Event,
                     held0: string, decided0: bool, tool0: bool, text0: string)
      returns (held: string, decided: bool, tool: bool, text: string)
      requires Valid(chat.requested) && !Closed() && Until(acts, patience) == acts
      requires r == Round(held0, decided0, tool0, text0, prefixDone, acts) && s == HearOne(chat, r, e)
      modifies this
      ensures Rows(acts) == old(Rows(acts))
      ensures Valid(chat.requested) && acts == Until(s.acts, patience)
      ensures !Closed() ==> s == Round(held, decided, tool, text, prefixDone, acts)
    {
      held, decided, tool, text := held0, decided0, tool0, text0;
      match e {
        case Delta(t) =>
          held, decided, tool := HearDelta(chat, r, t, held, decided, tool);
          text := text + t;
        case e =>
          UntilOneMore(acts, patience, Heard(e));
          Note(chat.requested, e);
      }
    }

    method HearAt(chat: Chat, ghost start: Round, events: seq<Event>, j: nat,
                  held0: string, decided0: bool, tool0: bool, text0: string)
      returns (held: string, decided: bool, tool: bool, text: string)
      requires j < |events| && Valid(chat.requested) && !Closed()
      requires Hear(chat, start, events[..j]) == Round(held0, decided0, tool0, text0, prefixDone, acts)
      requires Until(acts, patience) == acts
      modifies this
      ensures Rows(acts) == old(Rows(acts))
      ensures Valid(chat.requested) && acts == Until(Hear(chat, start, events[..j + 1]).acts, patience)
      ensures !Closed() ==>
        && Hear(chat, start, events[..j + 1]) == Round(held, decided, tool, text, prefixDone, acts)
        && Until(acts, patience) == acts
    {
      ghost var r, s := HearTo(chat, start, events, j);
      held, decided, tool, text := HearEvent(chat, r, s, events[j], held0, decided0, tool0, text0);
    }

    /** The events of a round, until the client leaves. */
    method HearRound(chat: Chat, ghost start: Round, events: seq<Event>)
      returns (held: string, decided: bool, tool: bool, text: string)
      requires Valid(chat.requested) && !Closed() && Until(acts, patience) == acts
      requires start == Opening(prefixDone, acts)
      modifies this
      ensures Rows(acts) == old(Rows(acts))
      ensures Valid(chat.requested) && acts == Until(Hear(chat, start, events).acts, patience)
      ensures !Closed() ==> Hear(chat, start, events) == Round(held, decided, tool, text, prefixDone, acts)
    {
      held, decided, tool, text := "", false, false, "";
      ghost var stored := Rows(acts);
      var j := 0;
      assert events[..j] == [];
      while j < |events| && !Closed()
        invariant 0 <= j <= |events|
        invariant Valid(chat.requested) && Rows(acts) == stored
        invariant acts == Until(Hear(chat, start, events[..j]).acts, patience)
        invariant !Closed() ==>
          && Hear(chat, start, events[..j]) == Round(held, decided, tool, text, prefixDone, acts)
          && Until(acts, patience) == acts
      {
        held, decided, tool, text := HearAt(chat, start, events, j, held, decided, tool, text);
        j := j + 1;
      }
      HearCut(chat, start, events, j, patience);
    }

    /** The end of the round's stream: a short reply is decided now. */
    method CloseRound(chat: Chat, ghost r: Round, decided: bool, tool0: bool, text: string) returns (tool: bool)
      requires Valid(chat.requested) && !Closed() && Until(acts, patience) == acts
      requires r == Round(r.held, decided, tool0, text, prefixDone, acts)
      modifies this
      ensures Rows(acts) == old(Rows(acts))
      ensures Valid(chat.requested) && acts == Until(Close(chat, r).acts, patience)
      ensures !Closed() ==> Close(chat, r) == r.(tool := tool, labelled := prefixDone, acts := acts)
    {
      tool := tool0;
      if !decided {
        tool := chat.tools != {} && Marked(LStrip(text));
        if !tool && text != "" {
          ghost var d := r.(tool := false);
          ShowFirst(chat, d, text);
          assert !Closed() ==> Show(chat, d, text).acts == acts by {
            if !Closed() {
              UntilAll(Show(chat, d, text).acts, patience);
            }
          }
        }
      }
    }

    /** An audit row has been stored. */
    ghost method Record(requested: string, row: Row)
      requires Valid(requested)
      modifies this
      ensures Valid(requested) && acts == old(acts) + [Stored(row)]
      ensures given == old(given) && prefixDone == old(prefixDone)
    {
      OneAct(requested, acts, Stored(row));
      acts := acts + [Stored(row)];
    }
  }

  lemma HearTo(chat: Chat, start: Round, events: seq<Event>, j: nat) returns (r: Round, s: Round)
    requires j < |events|
    ensures r == Hear(chat, start, events[..j]) && s == Hear(chat, start, events[..j + 1])
    ensures s == HearOne(chat, r, events[j])
  {
    assert events[..j + 1] == events[..j] + [events[j]];
    HearSnoc(chat, start, events[..j], events[j]);
    r, s := Hear(chat, start, events[..j]), Hear(chat, start, events[..j + 1]);
  }

  lemma HearCut(chat: Chat, start: Round, events: seq<Event>, j: nat, patience: nat)
    requires j <= |events|
    requires j < |events| ==> |Shows(Until(Hear(chat, start, events[..j]).acts, patience))| >= patience
    ensures Until(Hear(chat, start, events).acts, patience) == Until(Hear(chat, start, events[..j]).acts, patience)
    ensures j == |events| ==> events[..j] == events
  {
    HearGrows(chat, start, events, j);
    if j < |events| {
      UntilLeft(Hear(chat, start, events[..j]).acts, patience, Hear(chat, start, events).acts);
    } else {
      assert events[..j] == events;
    }
  }

  lemma {:induction false} HearGrows(chat: Chat, start: Round, events: seq<Event>, j: nat)
    requires j <= |events|
    ensures Hear(chat, start, events[..j]).acts <= Hear(chat, start, events).acts
  {
    if j == |events| {
      assert events[..j] == events;
    } else {
      var init := events[..|events| - 1];
      assert init[..j] == events[..j];
      HearGrows(chat, start, init, j);
      OneGrows(chat, Hear(chat, start, init), events[|events| - 1]);
    }
  }

  lemma OneGrows(chat: Chat, r: Round, e: Event)
    ensures r.acts <= HearOne(chat, r, e).acts
  {
  }

  /** The label and the text, with a client that may leave between them. */
  lemma ShowCut(chat: Chat, r: Round, text: string, patience: nat, p: string) returns (cut: seq<Act>)
    requires Until(r.acts, patience) == r.acts && |Shows(r.acts)| < patience
    requires p == if r.labelled then "" else Prefix(chat, ModelAt(chat.requested, r.acts))
    ensures cut == Until(Show(chat, r, text).acts, patience)
    ensures p == "" ==> cut == r.acts + [Sent(Piece(text))]
    ensures p != "" ==>
              var led := r.acts + [Sent(Piece(p))];
              cut == if |Shows(led)| >= patience then led else led + [Sent(Piece(text))]
  {
    cut := Until(Show(chat, r, text).acts, patience);
    var lead := Lead(chat, r);
    if lead == [] {
      assert r.acts + lead == r.acts;
    } else {
      UntilOneMore(r.acts, patience, lead[0]);
    }
    UntilOneMore(r.acts + lead, patience, Sent(Piece(text)));
  }

  // ---- the conversation --------------------------------------------------------

  function UserRow(text: string): Row {
    Row(User, text, 0, "", Plain)
  }

  /** A streamed reply: the provider's stream may end in an exception, which a reader that has
      stopped at [DONE] never meets. */
  function Reply(decode: Decoder, bytes: string, breaks: bool): Parse {
    var p := ParseWhole(decode, bytes);
    if p.end == Open && breaks then p.(end := Raised) else p
  }

  /** The replies of a turn, by number: `wire` are the bytes of each as they arrive, `breaks` whether an
      exception ends them. */
  function Script(decode: Decoder, wire: nat -> seq<string>, breaks: nat -> bool): nat -> Parse {
    (k: nat) => Reply(decode, Concat(wire(k)), breaks(k))
  }

  ghost predicate IsScript(script: nat -> Parse, decode: Decoder, wire: nat -> seq<string>, breaks: nat -> bool) {
    forall k: nat {:trigger Reply(decode, Concat(wire(k)), breaks(k))} ::
      script(k) == Reply(decode, Concat(wire(k)), breaks(k))
  }

  /** A reply as it arrives, cut into chunks. */
  method ReadReply(decode: Decoder, chunks: seq<string>, breaks: bool) returns (reply: Parse)
    ensures reply == Reply(decode, Concat(chunks), breaks)
  {
    var events, end := IterSseDeltas(decode, chunks);
    reply := Parse(events, if end == Open && breaks then Raised else end);
  }

  /** One call of send. */
  datatype Turn = Turn(chat: Chat, answers: nat -> Answer, system: string, budget: int, text: string)

  function TurnRun(rows: seq<Row>, t: Turn): Sending {
    SendRun(t.chat, t.answers, Built(t.system, rows + [UserRow(t.text)], t.budget), t.chat.maxCalls + 1)
  }

  function TurnAnswer(rows: seq<Row>, t: Turn): Option<Row> {
    var s := TurnRun(rows, t);
    if s.status == Completed then Some(SendRow(t.chat, s)) else None
  }

  /** The conversation after a call of send. */
  function AfterTurn(rows: seq<Row>, t: Turn): seq<Row> {
    var answer := TurnAnswer(rows, t);
    rows + [UserRow(t.text)] + Rows(TurnRun(rows, t).acts) + (if answer.Some? then [answer.value] else [])
  }

  class Conversation {
    var rows: seq<Row>

    constructor ()
      ensures rows == []
    {
      rows := [];
    }

    /** _prepare: store the user's message and build the context. */
    method Prepare(system: string, budget: int, userText: string) returns (context: seq<Message>)
      modifies this
      ensures rows == old(rows) + [UserRow(userText)] && context == Built(system, rows, budget)
      ensures rows == old(rows) + [Row(User, userText, 0, "", Plain)]
    {
      rows := rows + [UserRow(userText)];
      ghost var start;
      context, start := BuildContext(system, rows, None, budget);
    }

    method ExecuteToolRound(chat: Chat, k: nat, context: seq<Message>, text: string, tool: string, args: Args)
      returns (ok: bool, extended: seq<Message>, ghost row: Row)
      modifies this
      ensures ok == Outcome(chat, k, tool, args).Some?
      ensures rows == old(rows) + (if ok then [row] else [])
      ensures ok ==>
        var result := Outcome(chat, k, tool, args).value;
        row == AuditRow(chat, tool, args, result) && extended == context + Feedback(chat, text, tool, result)
      ensures ok <==> Obtains(chat, k, tool, args)
      ensures ok ==>
        && row.note.Ran? && Returned(chat, k, tool, args, row.note.result)
        && row == Row(Tool, chat.describe(tool, args), 0, "", Ran(tool, args, row.note.result))
        && extended == context + [Message(Assistant, text), Message(User, chat.report(tool, row.note.result))]
    {
      OutcomeIs(chat, k, tool, args);
      ok, extended, row := false, context, AuditRow(chat, tool, args, "");
      var outcome := if tool in chat.tools then chat.run(k, tool, args) else Some(chat.refusal(tool));
      if outcome.None? {
        return;
      }
      var result := outcome.value;
      if |result| > TOOL_RESULT_MAX_CHARS {
        result := result[..TOOL_RESULT_MAX_CHARS];
      }
      if !chat.loads(result) {
        return;
      }
      row := AuditRow(chat, tool, args, result);
      rows := rows + [AuditRow(chat, tool, args, result)];
      extended := context + [Message(Assistant, text)];
      extended := extended + [Message(User, chat.report(tool, result))];
      ok := true;
    }

    /** A call found by send. `base` are the rows from before the turn. */
    method SendCallRound(chat: Chat, ghost s: Sending, ghost base: seq<Row>, k: nat, context: seq<Message>,
                         content: string, tool: string, args: Args)
      returns (extended: seq<Message>, status: Status)
      requires s.status == Going && s.context == context && s.content == content && rows == base + Rows(s.acts)
      modifies this
      ensures var t := SendTool(chat, s, k, tool, args);
              t.status == status && t.context == extended && rows == base + Rows(t.acts)
    {
      var ok;
      ghost var row;
      ok, extended, row := ExecuteToolRound(chat, k, context, content, tool, args);
      if !ok {
        return context, Aborted;
      }
      RowsMore(base, s.acts, row);
      status := Going;
    }

    /** What send does with a reply's text. */
    method SendFinish(chat: Chat, ghost s: Sending, ghost base: seq<Row>, k: nat,
                      context: seq<Message>, content: string)
      returns (extended: seq<Message>, status: Status)
      requires s.status == Going && s.context == context && s.content == content && rows == base + Rows(s.acts)
      modifies this
      ensures var t := SendEnd(chat, s, k, SendCall(chat, content));
              t.status == status && t.context == extended && rows == base + Rows(t.acts)
    {
      var call := NoCall;
      if chat.tools != {} {
        call := ParseToolCall(chat.decode, content);
      }
      assert call == SendCall(chat, content);
      if call.Raises? {
        return context, Aborted;
      }
      if call.NoCall? || k >= chat.maxCalls {
        return context, Completed;
      }
      extended, status := SendCallRound(chat, s, base, k, context, content, call.tool, call.args);
    }

    /** One request of send, and what becomes of the reply. */
    method SendRound(chat: Chat, ghost s: Sending, ghost base: seq<Row>, k: nat, a: Answer,
                     context0: seq<Message>, content0: string, model0: string, usage0: Usage)
      returns (context: seq<Message>, content: string, model: string, usage: Usage, status: Status)
      requires s == Sending(context0, content0, model0, usage0, s.acts, Going) && rows == base + Rows(s.acts)
      modifies this
      ensures var t := SendTurn(chat, s, k, a);
              t == Sending(context, content, model, usage, t.acts, status) && rows == base + Rows(t.acts)
    {
      context, content, model, usage := context0, content0, model0, usage0;
      OneAct("", s.acts, Asked(context));
      match a {
        case Refused => status := Aborted;
        case Answer(c, m, u) =>
          content := c;
          usage := if u != map[] then u else usage;
          model := if m != "" then m else model;
          context, status := SendFinish(chat, Received(s, a), base, k, context, content);
          EndKeeps(chat, Received(s, a), k, SendCall(chat, content));
      }
    }

    /** One round of the loop, in terms of the run. */
    method SendNext(chat: Chat, answers: nat -> Answer, ghost prepared: seq<Message>, ghost run: nat -> Sending,
                    ghost base: seq<Row>, k: nat, context0: seq<Message>, content0: string, model0: string,
                    usage0: Usage)
      returns (context: seq<Message>, content: string, model: string, usage: Usage, status: Status)
      requires IsSendRun(run, chat, answers, prepared) && rows == base + Rows(run(k).acts)
      requires run(k) == Sending(context0, content0, model0, usage0, run(k).acts, Going)
      modifies this
      ensures run(k + 1) == Sending(context, content, model, usage, run(k + 1).acts, status)
      ensures rows == base + Rows(run(k + 1).acts)
    {
      ghost var s, t := SendRun(chat, answers, prepared, k), SendRun(chat, answers, prepared, k + 1);
      context, content, model, usage, status :=
        SendRound(chat, s, base, k, answers(k), context0, content0, model0, usage0);
    }

    /** The tool loop of send. */
    method SendLoop(chat: Chat, answers: nat -> Answer, prepared: seq<Message>, ghost run: nat -> Sending)
      returns (content: string, model: string, usage: Usage, status: Status, ghost k: nat, ghost context: seq<Message>)
      requires IsSendRun(run, chat, answers, prepared)
      requires run(0) == Sending(prepared, "", chat.requested, map[], [], Going)
      modifies this
      ensures k <= chat.maxCalls + 1 && (k <= chat.maxCalls ==> status != Going)
      ensures run(k) == Sending(context, content, model, usage, run(k).acts, status)
      ensures rows == old(rows) + Rows(run(k).acts)
    {
      ghost var base := rows;
      assert base + Rows([]) == base;
      var now, round := prepared, 0;
      content, model, usage, status := "", chat.requested, map[], Going;
      while round <= chat.maxCalls && status == Going
        invariant 0 <= round <= chat.maxCalls + 1
        invariant rows == base + Rows(run(round).acts)
        invariant run(round) == Sending(now, content, model, usage, run(round).acts, status)
      {
        now, content, model, usage, status :=
          SendNext(chat, answers, prepared, run, base, round, now, content, model, usage);
        round := round + 1;
      }
      k, context := round, now;
    }

    method SendPrepared(chat: Chat, answers: nat -> Answer, prepared: seq<Message>) returns (answer: Option<Row>)
      modifies this
      ensures var s := SendRun(chat, answers, prepared, chat.maxCalls + 1);
              && answer == (if s.status == Completed then Some(SendRow(chat, s)) else None)
              && rows == old(rows) + Rows(s.acts) + (if answer.Some? then [answer.value] else [])
    {
      ghost var run := (k: nat) => SendRun(chat, answers, prepared, k);
      var content, model, usage, status, k, context := SendLoop(chat, answers, prepared, run);
      SendOver(chat, answers, prepared, k, run(k));
      if status != Completed {
        return None;
      }
      var row := Row(Assistant, Prefix(chat, model) + content, Tokens(usage), model, Plain);
      rows := rows + [row];
      answer := Some(row);
    }

    /** send: the user's message, an audit row for each tool call, and the answer, unless an exception
        left the loop. */
    method Send(chat: Chat, answers: nat -> Answer, system: string, budget: int, userText: string)
      returns (answer: Option<Row>)
      modifies this
      ensures var turn := Turn(chat, answers, system, budget, userText);
              && rows == AfterTurn(old(rows), turn)
              && answer == TurnAnswer(old(rows), turn)
    {
      var context := Prepare(system, budget, userText);
      answer := SendPrepared(chat, answers, context);
    }

    // -- send_stream

    /** A call found by send_stream: announce it, and run it if the client is still there. */
    method StreamCallRound(chat: Chat, g: Generator, ghost s: Streaming, ghost e: Round, ghost base: seq<Row>, k: nat,
                           context: seq<Message>, text: string, tool: string, args: Args)
      returns (next: seq<Message>, status: Status)
      requires g.Waiting(chat.requested) && rows == base + Rows(g.acts) && s.context == context
      requires e.acts == g.acts && e.labelled == g.prefixDone && e.text == text
      modifies this, g
      ensures g.Valid(chat.requested) && rows == base + Rows(g.acts)
      ensures g.Now(next, status) == CutAt(StreamTool(chat, s, e, k, tool, args), g.patience)
    {
      next, status := context, Aborted;
      ghost var t := ToolCut(chat, s, e, k, tool, args, g.patience);
      g.Tell(chat.requested, ToolStatus(tool, args, k + 1));
      if g.Closed() {
        return;
      }
      var ok, extended, row := ExecuteToolRound(chat, k, context, text, tool, args);
      if ok {
        RowsMore(base, g.acts, row);
        g.Record(chat.requested, row);
        next, status := extended, Going;
      }
    }

    /** A tool round whose call is not run is shown as it is; any other ends the turn or goes on. */
    method StreamFinish(chat: Chat, g: Generator, ghost s: Streaming, ghost e: Round, ghost base: seq<Row>, k: nat,
                        context: seq<Message>, tool: bool, text: string)
      returns (next: seq<Message>, status: Status)
      requires g.Waiting(chat.requested) && rows == base + Rows(g.acts) && s.context == context
      requires e.acts == g.acts && e.labelled == g.prefixDone && e.text == text && e.tool == tool
      modifies this, g
      ensures g.Valid(chat.requested) && rows == base + Rows(g.acts)
      ensures g.Now(next, status) == CutAt(StreamEnd(chat, s, e, k, RoundCall(chat, e)), g.patience)
    {
      next, status := context, Completed;
      if !tool {
        return;
      }
      var call := ParseToolCall(chat.decode, text);
      if call.Raises? {
        return context, Aborted;
      }
      if call.Call? && k < chat.maxCalls {
        next, status := StreamCallRound(chat, g, s, e, base, k, context, text, call.tool, call.args);
        return;
      }
      ghost var f := Show(chat, e, text);
      g.ShowFirst(chat, e, text);
      CutBy(Streaming(context, f.labelled, f.acts, Completed), g.patience, g.acts);
    }

    /** A round whose reply was heard out. */
    method StreamHeard(chat: Chat, g: Generator, ghost s: Streaming, ghost r: Round, ghost base: seq<Row>, k: nat,
                       context: seq<Message>, decided: bool, tool0: bool, text: string)
      returns (next: seq<Message>, status: Status)
      requires g.Waiting(chat.requested) && rows == base + Rows(g.acts) && s.context == context
      requires r == Round(r.held, decided, tool0, text, g.prefixDone, g.acts)
      modifies this, g
      ensures g.Valid(chat.requested) && rows == base + Rows(g.acts)
      ensures var e := Close(chat, r);
              g.Now(next, status) == CutAt(StreamEnd(chat, s, e, k, RoundCall(chat, e)), g.patience)
    {
      next, status := context, Aborted;
      ghost var e := Close(chat, r);
      var tool := g.CloseRound(chat, r, decided, tool0, text);
      if g.Closed() {
        EndAfter(chat, s, e, k, RoundCall(chat, e), g.patience);
        return;
      }
      next, status := StreamFinish(chat, g, s, e, base, k, context, tool, text);
    }

    /** One request of send_stream, and what becomes of the reply. */
    method StreamRound(chat: Chat, g: Generator, ghost base: seq<Row>, k: nat, reply: Parse, context: seq<Message>)
      returns (next: seq<Message>, status: Status)
      requires g.Waiting(chat.requested) && rows == base + Rows(g.acts)
      modifies this, g
      ensures g.Valid(chat.requested) && rows == base + Rows(g.acts)
      ensures var s := Streaming(context, old(g.prefixDone), old(g.acts), Going);
              g.Now(next, status) == CutAt(StreamTurn(chat, s, k, reply), g.patience)
    {
      next, status := context, Aborted;
      ghost var s := Streaming(context, g.prefixDone, g.acts, Going);
      UntilOneMore(s.acts, g.patience, Asked(context));
      OneAct("", s.acts, Asked(context));
      g.Ask(chat.requested, context);
      ghost var start := Opening(g.prefixDone, g.acts);
      ghost var r := Hear(chat, start, reply.events);
      var held, decided, tool, text := g.HearRound(chat, start, reply.events);
      if g.Closed() || reply.end == Raised {
        TurnAfter(chat, s, k, reply, r, g.patience, g.acts);
        return;
      }
      next, status := StreamHeard(chat, g, s, r, base, k, context, decided, tool, text);
    }

    /** One round of the loop, in terms of the run. */
    method StreamNext(chat: Chat, g: Generator, decode: Decoder, wire: nat -> seq<string>, breaks: nat -> bool,
                      ghost script: nat -> Parse, ghost prepared: seq<Message>, ghost run: nat -> Streaming,
                      ghost base: seq<Row>, k: nat, context: seq<Message>)
      returns (next: seq<Message>, status: Status)
      requires IsScript(script, decode, wire, breaks)
      requires IsStreamRun(run, chat, script, prepared)
      requires g.Valid(chat.requested) && rows == base + Rows(g.acts) && |g.given| < g.patience
      requires g.Now(context, Going) == CutAt(run(k), g.patience)
      modifies this, g
      ensures g.Valid(chat.requested) && rows == base + Rows(g.acts)
      ensures g.Now(next, status) == CutAt(run(k + 1), g.patience)
    {
      ghost var s := StreamRun(chat, script, prepared, k);
      StillHere(s, g.patience);
      ghost var t := NextRound(chat, script, prepared, k, s);
      var reply := ReadReply(decode, wire(k), breaks(k));
      next, status := StreamRound(chat, g, base, k, reply, context);
    }

    /** The tool loop of send_stream: until the turn is over or the client has left. */
    method StreamLoop(chat: Chat, g: Generator, decode: Decoder, wire: nat -> seq<string>, breaks: nat -> bool,
                      ghost script: nat -> Parse, prepared: seq<Message>, ghost run: nat -> Streaming)
      returns (status: Status, ghost k: nat, ghost context: seq<Message>)
      requires IsScript(script, decode, wire, breaks)
      requires IsStreamRun(run, chat, script, prepared)
      requires g.Valid(chat.requested) && Rows(g.acts) == []
      requires g.Now(prepared, Going) == CutAt(run(0), g.patience)
      modifies this, g
      ensures g.Valid(chat.requested) && rows == old(rows) + Rows(g.acts)
      ensures k <= chat.maxCalls + 1 && (k <= chat.maxCalls ==> status != Going || |g.given| >= g.patience)
      ensures g.Now(context, status) == CutAt(run(k), g.patience)
    {
      ghost var base := rows;
      assert base + Rows(g.acts) == base;
      var now, round := prepared, 0;
      status := Going;
      while round <= chat.maxCalls && status == Going && !g.Closed()
        invariant 0 <= round <= chat.maxCalls + 1
        invariant g.Valid(chat.requested) && rows == base + Rows(g.acts)
        invariant g.Now(now, status) == CutAt(run(round), g.patience)
        decreases chat.maxCalls + 1 - round
      {
        now, status := StreamNext(chat, g, decode, wire, breaks, script, prepared, run, base, round, now);
        round := round + 1;
      }
      k, context := round, now;
    }

    /** The finally block. */
    method Finish(chat: Chat, g: Generator, completed: bool) returns (given: seq<Shown>)
      requires g.Valid(chat.requested)
      modifies this
      ensures rows == old(rows) + StreamRows(chat, g.acts, completed)
      ensures given == Shows(g.acts) + Farewell(chat, g.acts, completed)
    {
      given := g.given;
      var content := Concat(g.parts);
      if content != "" {
        rows := rows + [Row(Assistant, content, Tokens(g.usage), g.model, if completed then Plain else Truncated)];
        if completed {
          given := given + [Done(g.usage)];
        }
      }
    }

    method StreamPrepared(chat: Chat, decode: Decoder, wire: nat -> seq<string>, breaks: nat -> bool,
                          ghost script: nat -> Parse, prepared: seq<Message>, patience: nat)
      returns (given: seq<Shown>)
      requires patience > 0 && IsScript(script, decode, wire, breaks)
      modifies this
      ensures var cut := CutAt(StreamRun(chat, script, prepared, chat.maxCalls + 1), patience);
              && rows == old(rows) + Rows(DoneBy(cut)) + StreamRows(chat, DoneBy(cut), Over(cut))
              && given == Shows(DoneBy(cut)) + Farewell(chat, DoneBy(cut), Over(cut))
    {
      var g := new Generator(chat.requested, patience);
      assert Rows([]) == [] && Shows([]) == [] && Until([], patience) == [];
      ghost var run := (k: nat) => StreamRun(chat, script, prepared, k);
      var status, k, context := StreamLoop(chat, g, decode, wire, breaks, script, prepared, run);
      StreamOver(chat, script, prepared, k, patience);
      given := Finish(chat, g, status == Completed && !g.Closed());
    }

    /** send_stream, to a client that closes the stream when it has received `patience` events. Closed
        before the first event, it leaves nothing behind. Else it leaves the user's message, an audit
        row for each call that was run, and a row of just the text that was sent; and no text is sent
        before a tool status. */
    method SendStream(chat: Chat, decode: Decoder, wire: nat -> seq<string>, breaks: nat -> bool,
                      system: string, budget: int, userText: string, patience: nat)
      returns (given: seq<Shown>, ghost cut: Cut, ghost stored: seq<Row>)
      modifies this
      ensures patience == 0 ==> given == [] && rows == old(rows)
      ensures patience > 0 ==>
        var history := old(rows) + [UserRow(userText)];
        var script := Script(decode, wire, breaks);
        && cut == CutAt(StreamRun(chat, script, Built(system, history, budget), chat.maxCalls + 1), patience)
        && given == Shows(DoneBy(cut)) + Farewell(chat, DoneBy(cut), Over(cut))
        && rows == history + Rows(DoneBy(cut)) + stored
        && stored == StreamRows(chat, DoneBy(cut), Over(cut))
      ensures patience > 0 ==> TextLast(given) && Matches(stored, given, Over(cut))
      ensures patience > 0 ==>
        var context := Built(system, old(rows) + [UserRow(userText)], budget);
        var turn := StreamRun(chat, Script(decode, wire, breaks), context, chat.maxCalls + 1);
        && DoneBy(cut) <= turn.acts && |Shows(DoneBy(cut))| <= patience
        && (cut.Left? <==> |Shows(turn.acts)| >= patience) && (cut.Left? ==> |Shows(DoneBy(cut))| == patience)
        && (cut.Here? ==> cut.turn == turn)
    {
      cut, stored := Left([]), [];
      if patience == 0 {
        return [], cut, stored;
      }
      var context := Prepare(system, budget, userText);
      ghost var script := Script(decode, wire, breaks);
      given := StreamPrepared(chat, decode, wire, breaks, script, context, patience);
      cut := CutAt(StreamRun(chat, script, context, chat.maxCalls + 1), patience);
      stored := StreamRows(chat, DoneBy(cut), Over(cut));
      CutIsOrdered(chat, script, context, chat.maxCalls + 1, patience);
      CutIsPart(StreamRun(chat, script, context, chat.maxCalls + 1), patience);
      SentIsStored(chat, DoneBy(cut), Over(cut));
    }
  }

  /** The rounds of a streamed turn, by number. */
  ghost predicate IsStreamRun(run: nat -> Streaming, chat: Chat, script: nat -> Parse, prepared: seq<Message>) {
    forall k: nat {:trigger StreamRun(chat, script, prepared, k)} :: run(k) == StreamRun(chat, script, prepared, k)
  }

  ghost predicate IsSendRun(run: nat -> Sending, chat: Chat, answers: nat -> Answer, prepared: seq<Message>) {
    forall k: nat {:trigger SendRun(chat, answers, prepared, k)} :: run(k) == SendRun(chat, answers, prepared, k)
  }

  /** What was done of a turn. */
  function DoneBy(cut: Cut): seq<Act> {
    match cut
    case Left(acts) => acts
    case Here(turn) => turn.acts
  }

  /** The turn was completed, and its client stayed for all of it. */
  predicate Over(cut: Cut) {
    cut.Here? && cut.turn.status == Completed
  }

  /** The last event of a completed stream that stored a row. */
  function Farewell(chat: Chat, acts: seq<Act>, done: bool): seq<Shown> {
    if done && StreamRows(chat, acts, done) != [] then [Done(UsageAt(acts))] else []
  }

  // ---- what was sent is what is stored ------------------------------------------

  /** No text comes before a tool status. */
  predicate TextLast(given: seq<Shown>) {
    forall i, j :: 0 <= i < j < |given| && given[i].Piece? ==> !given[j].ToolStatus?
  }

  /** The rows the finally block adds, told from what the caller received: one row, of just that text,
      if there was any, and marked as cut short unless the turn was completed. */
  predicate Matches(stored: seq<Row>, given: seq<Shown>, completed: bool) {
    var sent := Concat(TextsOf(given));
    if sent == "" then stored == []
    else
      && |stored| == 1 && stored[0].role == Assistant && stored[0].content == sent
      && stored[0].note == (if completed then Plain else Truncated)
      && (completed ==>
            && given != [] && given[|given| - 1].Done?
            && var usage := given[|given| - 1].usage;
               stored[0].tokens == if "prompt_tokens" in usage then usage["prompt_tokens"] else 0)
  }

  lemma SentIsStored(chat: Chat, acts: seq<Act>, completed: bool)
    requires Ordered(acts)
    ensures var given := Shows(acts) + Farewell(chat, acts, completed);
            TextLast(given) && Matches(StreamRows(chat, acts, completed), given, completed)
  {
    SentMatches(chat, acts, completed);
    forall i: nat, j: nat | i < j < |Shows(acts)| && Shows(acts)[i].Piece? {
      TextComesLast(acts, i, j);
    }
  }

  lemma SentMatches(chat: Chat, acts: seq<Act>, completed: bool)
    ensures Matches(StreamRows(chat, acts, completed), Shows(acts) + Farewell(chat, acts, completed), completed)
  {
    PiecesAreShown(acts);
    var farewell := Farewell(chat, acts, completed);
    if farewell == [] {
      assert Shows(acts) + farewell == Shows(acts);
    } else {
      TextsSnoc(Shows(acts), farewell[0]);
    }
  }

  lemma CutIsOrdered(chat: Chat, script: nat -> Parse, context: seq<Message>, n: nat, patience: nat)
    ensures Ordered(DoneBy(CutAt(StreamRun(chat, script, context, n), patience)))
  {
    var s := StreamRun(chat, script, context, n);
    StreamBalanced(chat, script, context, n);
    UntilIsPart(s.acts, patience);
    OrderedPart(Until(s.acts, patience), s.acts);
  }

  lemma StreamOver(chat: Chat, script: nat -> Parse, context: seq<Message>, k: nat, patience: nat)
    requires k <= chat.maxCalls + 1
    requires var s := StreamRun(chat, script, context, k);
             k <= chat.maxCalls ==> s.status != Going || CutAt(s, patience).Left?
    ensures CutAt(StreamRun(chat, script, context, chat.maxCalls + 1), patience)
         == CutAt(StreamRun(chat, script, context, k), patience)
  {
    var s := StreamRun(chat, script, context, k);
    if s.status != Going {
      StreamStays(chat, script, context, k, chat.maxCalls + 1);
    } else if k <= chat.maxCalls {
      RunGrows(chat, script, context, k, chat.maxCalls + 1);
      LeftBefore(s, StreamRun(chat, script, context, chat.maxCalls + 1), patience);
    }
  }

  lemma {:induction false} StreamStays(chat: Chat, script: nat -> Parse, context: seq<Message>, k: nat, n: nat)
    requires k <= n && (k < n ==> StreamRun(chat, script, context, k).status != Going)
    ensures StreamRun(chat, script, context, n) == StreamRun(chat, script, context, k)
  {
    if k < n {
      StreamStays(chat, script, context, k, n - 1);
    }
  }

  lemma NextRound(chat: Chat, script: nat -> Parse, context: seq<Message>, k: nat, s: Streaming) returns (t: Streaming)
    requires s == StreamRun(chat, script, context, k) && s.status == Going
    ensures t == StreamRun(chat, script, context, k + 1) == StreamTurn(chat, s, k, script(k))
  {
    t := StreamRun(chat, script, context, k + 1);
  }

  /** What holds after k rounds and is kept by a round. */
  lemma {:induction false} FromRound(chat: Chat, script: nat -> Parse, context: seq<Message>, k: nat, n: nat,
                                     ok: Streaming -> bool)
    requires k <= n && ok(StreamRun(chat, script, context, k))
    requires forall j: nat, s: Streaming :: ok(s) ==> ok(StreamMore(chat, s, j, script(j)))
    ensures ok(StreamRun(chat, script, context, n))
  {
    if k < n {
      FromRound(chat, script, context, k, n - 1, ok);
    }
  }

  lemma RunGrows(chat: Chat, script: nat -> Parse, context: seq<Message>, k: nat, n: nat)
    requires k <= n
    ensures StreamRun(chat, script, context, k).acts <= StreamRun(chat, script, context, n).acts
  {
    var acts := StreamRun(chat, script, context, k).acts;
    var ok := (s: Streaming) => acts <= s.acts;
    forall j: nat, s: Streaming | ok(s) ensures ok(StreamMore(chat, s, j, script(j))) {
      MoreGrows(chat, acts, s, j, script(j));
    }
    FromRound(chat, script, context, k, n, ok);
  }

  lemma MoreGrows(chat: Chat, acts: seq<Act>, s: Streaming, k: nat, reply: Parse)
    requires acts <= s.acts
    ensures acts <= StreamMore(chat, s, k, reply).acts
  {
    TurnGrows(chat, s, k, reply, Hear(chat, Opening(s.labelled, s.acts + [Asked(s.context)]), reply.events));
  }

  lemma EndGrows(chat: Chat, s: Streaming, e: Round, k: nat, call: Parsed)
    ensures e.acts <= StreamEnd(chat, s, e, k, call).acts
  {
  }

  /** The client left when the round was closed. */
  lemma EndAfter(chat: Chat, s: Streaming, e: Round, k: nat, call: Parsed, patience: nat)
    requires |Shows(Until(e.acts, patience))| >= patience
    ensures CutAt(StreamEnd(chat, s, e, k, call), patience) == Left(Until(e.acts, patience))
  {
    EndGrows(chat, s, e, k, call);
    UntilLeft(e.acts, patience, StreamEnd(chat, s, e, k, call).acts);
  }

  /** The client left, or the provider broke, while the reply was heard. */
  lemma TurnAfter(chat: Chat, s: Streaming, k: nat, reply: Parse, r: Round, patience: nat, acts: seq<Act>)
    requires r == Hear(chat, Opening(s.labelled, s.acts + [Asked(s.context)]), reply.events)
    requires acts == Until(r.acts, patience) && (|Shows(acts)| >= patience || reply.end == Raised)
    ensures CutAt(StreamTurn(chat, s, k, reply), patience)
         == if |Shows(acts)| >= patience then Left(acts) else Here(Streaming(s.context, r.labelled, r.acts, Aborted))
    ensures |Shows(acts)| < patience ==> r.acts == acts
  {
    TurnGrows(chat, s, k, reply, r);
    if |Shows(acts)| >= patience {
      UntilLeft(r.acts, patience, StreamTurn(chat, s, k, reply).acts);
    } else {
      CutBy(StreamTurn(chat, s, k, reply), patience, acts);
    }
  }

  lemma TurnGrows(chat: Chat, s: Streaming, k: nat, reply: Parse, r: Round)
    requires r == Hear(chat, Opening(s.labelled, s.acts + [Asked(s.context)]), reply.events)
    ensures s.acts <= r.acts <= StreamTurn(chat, s, k, reply).acts
  {
    var start := Opening(s.labelled, s.acts + [Asked(s.context)]);
    HearGrows(chat, start, reply.events, 0);
    assert reply.events[..0] == [];
    var e := Close(chat, r);
    assert r.acts <= e.acts;
    EndGrows(chat, s, e, k, RoundCall(chat, e));
  }

  /** A call, with a client that may leave when it is announced. */
  lemma ToolCut(chat: Chat, s: Streaming, e: Round, k: nat, tool: string, args: Args, patience: nat)
    returns (t: Streaming)
    requires Until(e.acts, patience) == e.acts && |Shows(e.acts)| < patience
    ensures t == StreamTool(chat, s, e, k, tool, args)
    ensures var told, outcome := e.acts + [Sent(ToolStatus(tool, args, k + 1))], Outcome(chat, k, tool, args);
            && CutAt(t, patience) == (if |Shows(told)| >= patience then Left(told) else Here(t))
            && t == if outcome.None? then Streaming(s.context, e.labelled, told, Aborted)
                    else Streaming(s.context + Feedback(chat, e.text, tool, outcome.value), e.labelled,
                                   told + [Stored(AuditRow(chat, tool, args, outcome.value))], Going)
  {
    var what := ToolStatus(tool, args, k + 1);
    var told := e.acts + [Sent(what)];
    t := StreamTool(chat, s, e, k, tool, args);
    UntilOneMore(e.acts, patience, Sent(what));
    var outcome := Outcome(chat, k, tool, args);
    if outcome.Some? {
      var row := AuditRow(chat, tool, args, outcome.value);
      UntilOneMore(told, patience, Stored(row));
      OneAct("", told, Stored(row));
    }
  }

  lemma RowsMore(base: seq<Row>, acts: seq<Act>, row: Row)
    ensures base + Rows(acts + [Stored(row)]) == base + Rows(acts) + [row]
  {
    OneAct("", acts, Stored(row));
    assert base + (Rows(acts) + [row]) == base + Rows(acts) + [row];
  }

  lemma EndKeeps(chat: Chat, s: Sending, k: nat, call: Parsed)
    ensures var t := SendEnd(chat, s, k, call); t.content == s.content && t.model == s.model && t.usage == s.usage
  {
  }

  lemma SendOver(chat: Chat, answers: nat -> Answer, context: seq<Message>, k: nat, s: Sending)
    requires k <= chat.maxCalls + 1 && s == SendRun(chat, answers, context, k)
    requires k <= chat.maxCalls ==> s.status != Going
    ensures SendRun(chat, answers, context, chat.maxCalls + 1) == s && s.status != Going
  {
    SendEnds(chat, answers, context);
    SendStays(chat, answers, context, k, chat.maxCalls + 1);
  }

  // ---- usage_today ---------------------------------------------------------------

  /** Assistant and tool rows: what usage_today takes for the number of provider requests. */
  function Native(rows: seq<Row>): nat {
    if rows == [] then 0
    else Native(rows[..|rows| - 1]) + (if rows[|rows| - 1].role in {Assistant, Tool} then 1 else 0)
  }

  lemma {:induction false} NativeConcat(a: seq<Row>, b: seq<Row>)
    ensures Native(a + b) == Native(a) + Native(b)
  {
    if b == [] {
      assert a + b == a;
    } else {
      assert (a + b)[..|a + b| - 1] == a + b[..|b| - 1];
      NativeConcat(a, b[..|b| - 1]);
    }
  }

  lemma {:induction false} AllToolNative(rows: seq<Row>)
    requires AllTool(rows)
    ensures Native(rows) == |rows|
  {
    if rows != [] {
      AllToolNative(rows[..|rows| - 1]);
    }
  }

  /** A history of calls of send, its provider requests and its calls that failed. */
  function AfterTurns(rows: seq<Row>, turns: seq<Turn>): seq<Row> {
    if turns == [] then rows else AfterTurn(AfterTurns(rows, turns[..|turns| - 1]), turns[|turns| - 1])
  }

  function TurnRequests(rows: seq<Row>, t: Turn): nat {
    |Requests(TurnRun(rows, t).acts)|
  }

  function RequestsMade(rows: seq<Row>, turns: seq<Turn>): nat {
    if turns == [] then 0
    else
      var before := AfterTurns(rows, turns[..|turns| - 1]);
      RequestsMade(rows, turns[..|turns| - 1]) + TurnRequests(before, turns[|turns| - 1])
  }

  function Failures(rows: seq<Row>, turns: seq<Turn>): nat {
    if turns == [] then 0
    else
      var before := AfterTurns(rows, turns[..|turns| - 1]);
      Failures(rows, turns[..|turns| - 1]) + (if TurnAnswer(before, turns[|turns| - 1]).None? then 1 else 0)
  }

  /** One call: at most CHAT_MAX_TOOL_CALLS + 1 requests, each of them with its row, but for the last
      request of a call that failed. */
  lemma TurnAccounted(rows: seq<Row>, t: Turn)
    ensures 1 <= TurnRequests(rows, t) <= t.chat.maxCalls + 1
    ensures Native(AfterTurn(rows, t))
         == Native(rows) + TurnRequests(rows, t) - (if TurnAnswer(rows, t).None? then 1 else 0)
  {
    var context := Built(t.system, rows + [UserRow(t.text)], t.budget);
    SendBalanced(t.chat, t.answers, context, t.chat.maxCalls + 1);
    SendEnds(t.chat, t.answers, context);
    TurnNative(rows, UserRow(t.text), Rows(TurnRun(rows, t).acts), TurnAnswer(rows, t));
  }

  lemma TurnNative(rows: seq<Row>, user: Row, audit: seq<Row>, answer: Option<Row>)
    requires user.role == User && AllTool(audit) && (answer.Some? ==> answer.value.role == Assistant)
    ensures Native(rows + [user] + audit + (if answer.Some? then [answer.value] else []))
         == Native(rows) + |audit| + (if answer.Some? then 1 else 0)
  {
    var last := if answer.Some? then [answer.value] else [];
    NativeConcat(rows + [user] + audit, last);
    NativeConcat(rows + [user], audit);
    NativeConcat(rows, [user]);
    AllToolNative(audit);
    assert last == [] || last[..0] == [];
    assert [user][..0] == [];
  }

  /** Over any history of calls of send, the assistant and tool rows added are the requests made, less
      one for each call that failed. */
  lemma {:induction false} RowsAreRequests(rows: seq<Row>, turns: seq<Turn>)
    ensures Native(AfterTurns(rows, turns)) == Native(rows) + RequestsMade(rows, turns) - Failures(rows, turns)
  {
    if turns != [] {
      RowsAreRequests(rows, turns[..|turns| - 1]);
      TurnAccounted(AfterTurns(rows, turns[..|turns| - 1]), turns[|turns| - 1]);
    }
  }
}
