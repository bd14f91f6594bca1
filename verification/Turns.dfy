/** The bounded tool loop, as send and as send_stream run it. */
module Turns {
  import opened Wrappers
  import opened Text
  import opened Sse
  import opened ToolCall
  import opened Context
  import opened Trace
  import opened Detector

  /** Completed: a final answer. Aborted: an exception left the loop. */
  datatype Status = Going | Completed | Aborted

  // ---- one tool call --------------------------------------------------------

  const TOOL_RESULT_MAX_CHARS := 4000

  /** The result kept for the audit and the context: cut to length and then loaded, so that a cut
      result that is no longer JSON raises. */
  function Outcome(chat: Chat, round: nat, tool: string, args: Args): (r: Option<string>)
    ensures r.Some? ==> |r.value| <= TOOL_RESULT_MAX_CHARS && chat.loads(r.value)
  {
    var full := if tool in chat.tools then chat.run(round, tool, args) else Some(chat.refusal(tool));
    if full.None? then None
    else
      var kept := if |full.value| <= TOOL_RESULT_MAX_CHARS then full.value else full.value[..TOOL_RESULT_MAX_CHARS];
      if chat.loads(kept) then Some(kept) else None
  }

  /** Tool results travel back in the user's name. */
  function Feedback(chat: Chat, text: string, tool: string, result: string): seq<Message> {
    [Message(Assistant, text), Message(User, chat.report(tool, result))]
  }

  function AuditRow(chat: Chat, tool: string, args: Args, result: string): Row {
    Row(Tool, chat.describe(tool, args), 0, "", Ran(tool, args, result))
  }

  // ---- send_stream ----------------------------------------------------------

  datatype Streaming = Streaming(context: seq<Message>, labelled: bool, acts: seq<Act>, status: Status)

  /** Call number `k` of a streamed turn. A call already announced may still abort. */
  function StreamTool(chat: Chat, s: Streaming, e: Round, k: nat, tool: string, args: Args): Streaming {
    var told := e.acts + [Sent(ToolStatus(tool, args, k + 1))];
    match Outcome(chat, k, tool, args)
    case None => Streaming(s.context, e.labelled, told, Aborted)
    case Some(result) =>
      Streaming(s.context + Feedback(chat, e.text, tool, result), e.labelled,
                told + [Stored(AuditRow(chat, tool, args, result))], Going)
  }

  /** The call of a round that was heard out. */
  function RoundCall(chat: Chat, e: Round): Parsed {
    if e.tool then CallIn(chat.decode, e.text) else NoCall
  }

  function StreamEnd(chat: Chat, s: Streaming, e: Round, k: nat, call: Parsed): Streaming {
    if !e.tool then Streaming(s.context, e.labelled, e.acts, Completed)
    else
      match call
      case Raises => Streaming(s.context, e.labelled, e.acts, Aborted)
      case Call(tool, args) =>
        if k < chat.maxCalls then StreamTool(chat, s, e, k, tool, args)
        else var f := Show(chat, e, e.text); Streaming(s.context, f.labelled, f.acts, Completed)
      case NoCall => var f := Show(chat, e, e.text); Streaming(s.context, f.labelled, f.acts, Completed)
  }

  function StreamTurn(chat: Chat, s: Streaming, k: nat, reply: Parse): Streaming {
    var asked := s.acts + [Asked(s.context)];
    if reply.end == Raised then
      var r := Hear(chat, Opening(s.labelled, asked), reply.events);
      Streaming(s.context, r.labelled, r.acts, Aborted)
    else
      var e := Heed(chat, s.labelled, asked, reply.events);
      StreamEnd(chat, s, e, k, RoundCall(chat, e))
  }

  function StreamMore(chat: Chat, s: Streaming, k: nat, reply: Parse): Streaming {
    if s.status == Going then StreamTurn(chat, s, k, reply) else s
  }

  /** The first n rounds, if they come. */
  function StreamRun(chat: Chat, script: nat -> Parse, context: seq<Message>, n: nat): Streaming {
    if n == 0 then Streaming(context, false, [], Going)
    else StreamMore(chat, StreamRun(chat, script, context, n - 1), n - 1, script(n - 1))
  }

  // ---- send -----------------------------------------------------------------

  /** A reply in one piece: an error, or a text with the model and the usage reported, if any. */
  datatype Answer = Refused | Answer(content: string, model: string, usage: Usage)

  datatype Sending = Sending(context: seq<Message>, content: string, model: string, usage: Usage,
                             acts: seq<Act>, status: Status)

  /** What send takes a reply to call for. */
  function SendCall(chat: Chat, content: string): Parsed {
    if chat.tools != {} then CallIn(chat.decode, content) else NoCall
  }

  /** A reply has come and has not been looked at. */
  function Received(s: Sending, a: Answer): Sending
    requires a.Answer?
  {
    Sending(s.context, a.content, if a.model != "" then a.model else s.model,
            if a.usage != map[] then a.usage else s.usage, s.acts + [Asked(s.context)], s.status)
  }

  function SendTurn(chat: Chat, s: Sending, k: nat, a: Answer): Sending {
    if a.Answer? then SendEnd(chat, Received(s, a), k, SendCall(chat, a.content))
    else s.(acts := s.acts + [Asked(s.context)], status := Aborted)
  }

  function SendEnd(chat: Chat, s: Sending, k: nat, call: Parsed): Sending {
    match call
    case Raises => s.(status := Aborted)
    case NoCall => s.(status := Completed)
    case Call(tool, args) =>
      if k >= chat.maxCalls then s.(status := Completed) else SendTool(chat, s, k, tool, args)
  }

  function SendTool(chat: Chat, s: Sending, k: nat, tool: string, args: Args): Sending {
    match Outcome(chat, k, tool, args)
    case None => s.(status := Aborted)
    case Some(result) =>
      s.(context := s.context + Feedback(chat, s.content, tool, result),
         acts := s.acts + [Stored(AuditRow(chat, tool, args, result))])
  }

  function SendMore(chat: Chat, s: Sending, k: nat, a: Answer): Sending {
    if s.status == Going then SendTurn(chat, s, k, a) else s
  }

  function SendRun(chat: Chat, answers: nat -> Answer, context: seq<Message>, n: nat): Sending {
    if n == 0 then Sending(context, "", chat.requested, map[], [], Going)
    else SendMore(chat, SendRun(chat, answers, context, n - 1), n - 1, answers(n - 1))
  }

  // ---- the row stored at the end ---------------------------------------------

  function Tokens(usage: Usage): int {
    if "prompt_tokens" in usage then usage["prompt_tokens"] else 0
  }

  function SendRow(chat: Chat, s: Sending): Row {
    Row(Assistant, Prefix(chat, s.model) + s.content, Tokens(s.usage), s.model, Plain)
  }

  /** The finally block of send_stream: what was shown, if anything was. */
  function StreamRows(chat: Chat, acts: seq<Act>, completed: bool): seq<Row> {
    var content := Concat(Pieces(acts));
    if content == "" then []
    else [Row(Assistant, content, Tokens(UsageAt(acts)), ModelAt(chat.requested, acts),
              if completed then Plain else Truncated)]
  }

  // ---- rounds, requests and audit rows --------------------------------------

  predicate AllTool(rows: seq<Row>) {
    forall row <- rows :: row.role == Tool
  }

  /** One request a round, and one audit row for each round but the last. */
  predicate Balanced(acts: seq<Act>, status: Status, n: nat) {
    && |Requests(acts)| == |Rows(acts)| + (if status == Going then 0 else 1)
    && |Requests(acts)| <= n && (status == Going ==> |Requests(acts)| == n)
    && AllTool(Rows(acts))
  }

  /** The request of a round that is under way. */
  predicate Asking(acts: seq<Act>, n: nat) {
    Balanced(acts, Aborted, n) && |Requests(acts)| == n
  }

  lemma Ask(requested: string, acts: seq<Act>, context: seq<Message>, n: nat)
    requires Balanced(acts, Going, n)
    ensures Asking(acts + [Asked(context)], n + 1)
  {
    OneAct(requested, acts, Asked(context));
  }

  lemma Store(requested: string, acts: seq<Act>, row: Row, n: nat)
    requires Asking(acts, n) && row.role == Tool
    ensures Balanced(acts + [Stored(row)], Going, n)
  {
    OneAct(requested, acts, Stored(row));
  }

  lemma NothingDone(requested: string)
    ensures Balanced([], Going, 0) && Ordered([]) && Pieces([]) == []
    ensures ModelAt(requested, []) == requested && UsageAt([]) == map[]
  {
  }

  lemma SendToolOk(chat: Chat, s: Sending, k: nat, tool: string, args: Args)
    requires Asking(s.acts, k + 1) && s.status == Going
    ensures var t := SendTool(chat, s, k, tool, args); Balanced(t.acts, t.status, k + 1)
  {
    var outcome := Outcome(chat, k, tool, args);
    if outcome.Some? {
      Store(chat.requested, s.acts, AuditRow(chat, tool, args, outcome.value), k + 1);
    }
  }

  lemma SendTurnOk(chat: Chat, s: Sending, k: nat, a: Answer)
    requires Balanced(s.acts, Going, k) && s.status == Going
    ensures var t := SendTurn(chat, s, k, a);
            Balanced(t.acts, t.status, k + 1) && (k >= chat.maxCalls ==> t.status != Going)
  {
    Ask(chat.requested, s.acts, s.context, k);
    if a.Answer? && SendCall(chat, a.content).Call? && k < chat.maxCalls {
      var call := SendCall(chat, a.content);
      SendToolOk(chat, Received(s, a), k, call.tool, call.args);
    }
  }

  lemma SendNext(chat: Chat, s: Sending, k: nat, a: Answer)
    requires Balanced(s.acts, s.status, k)
    ensures var t := SendMore(chat, s, k, a); Balanced(t.acts, t.status, k + 1)
  {
    if s.status == Going {
      SendTurnOk(chat, s, k, a);
    }
  }

  lemma {:induction false} SendBalanced(chat: Chat, answers: nat -> Answer, context: seq<Message>, n: nat)
    ensures var s := SendRun(chat, answers, context, n);
            Balanced(s.acts, s.status, n)
  {
    if n == 0 {
      NothingDone("");
    } else {
      SendBalanced(chat, answers, context, n - 1);
      SendNext(chat, SendRun(chat, answers, context, n - 1), n - 1, answers(n - 1));
    }
  }

  /** A turn is over after CHAT_MAX_TOOL_CALLS + 1 rounds. */
  lemma SendEnds(chat: Chat, answers: nat -> Answer, context: seq<Message>)
    ensures SendRun(chat, answers, context, chat.maxCalls + 1).status != Going
  {
    var s := SendRun(chat, answers, context, chat.maxCalls);
    SendBalanced(chat, answers, context, chat.maxCalls);
    if s.status == Going {
      SendTurnOk(chat, s, chat.maxCalls, answers(chat.maxCalls));
    }
  }

  /** What holds between the rounds of a streamed turn. */
  predicate StreamOk(s: Streaming, n: nat) {
    && Balanced(s.acts, s.status, n) && Ordered(s.acts)
    && (s.status == Going ==> Pieces(s.acts) == [] && !s.labelled)
  }

  lemma StreamToolOk(chat: Chat, s: Streaming, e: Round, k: nat, tool: string, args: Args)
    requires Asking(e.acts, k + 1) && Ordered(e.acts) && Pieces(e.acts) == [] && !e.labelled
    ensures StreamOk(StreamTool(chat, s, e, k, tool, args), k + 1)
  {
    var told := e.acts + [Sent(ToolStatus(tool, args, k + 1))];
    OneAct(chat.requested, e.acts, Sent(ToolStatus(tool, args, k + 1)));
    var outcome := Outcome(chat, k, tool, args);
    if outcome.Some? {
      var row := AuditRow(chat, tool, args, outcome.value);
      OneAct(chat.requested, told, Stored(row));
      Store(chat.requested, told, row, k + 1);
    }
  }

  lemma ShownAsIsOk(chat: Chat, e: Round, context: seq<Message>, k: nat)
    requires Asking(e.acts, k + 1) && Ordered(e.acts)
    ensures var f := Show(chat, e, e.text); StreamOk(Streaming(context, f.labelled, f.acts, Completed), k + 1)
  {
    Showing(chat, e, e.text);
  }

  lemma StreamEndOk(chat: Chat, s: Streaming, e: Round, k: nat, call: Parsed)
    requires Asking(e.acts, k + 1) && Ordered(e.acts)
    requires e.tool ==> Pieces(e.acts) == [] && !e.labelled
    ensures var t := StreamEnd(chat, s, e, k, call);
            StreamOk(t, k + 1) && (k >= chat.maxCalls ==> t.status != Going)
  {
    if e.tool {
      match call {
        case Raises =>
        case NoCall => ShownAsIsOk(chat, e, s.context, k);
        case Call(tool, args) =>
          ShownAsIsOk(chat, e, s.context, k);
          StreamToolOk(chat, s, e, k, tool, args);
      }
    }
  }

  lemma StreamTurnOk(chat: Chat, s: Streaming, k: nat, reply: Parse)
    requires StreamOk(s, k) && s.status == Going
    ensures var t := StreamTurn(chat, s, k, reply);
            StreamOk(t, k + 1) && (k >= chat.maxCalls ==> t.status != Going)
  {
    var asked := s.acts + [Asked(s.context)];
    Ask(chat.requested, s.acts, s.context, k);
    OneAct(chat.requested, s.acts, Asked(s.context));
    if reply.end == Raised {
      Following(chat, Opening(s.labelled, asked), reply.events);
    } else {
      RoundShows(chat, s.labelled, asked, reply.events);
      var e := Heed(chat, s.labelled, asked, reply.events);
      StreamEndOk(chat, s, e, k, RoundCall(chat, e));
    }
  }

  lemma StreamNext(chat: Chat, s: Streaming, k: nat, reply: Parse)
    requires StreamOk(s, k)
    ensures StreamOk(StreamMore(chat, s, k, reply), k + 1)
  {
    if s.status == Going {
      StreamTurnOk(chat, s, k, reply);
    }
  }

  /** Until a streamed turn ends nothing of it has been shown: the text of an executed tool round
      never is. */
  lemma {:induction false} StreamBalanced(chat: Chat, script: nat -> Parse, context: seq<Message>, n: nat)
    ensures var s := StreamRun(chat, script, context, n);
            StreamOk(s, n)
  {
    if n == 0 {
      NothingDone("");
    } else {
      StreamBalanced(chat, script, context, n - 1);
      StreamNext(chat, StreamRun(chat, script, context, n - 1), n - 1, script(n - 1));
    }
  }

  lemma StreamEnds(chat: Chat, script: nat -> Parse, context: seq<Message>)
    ensures StreamRun(chat, script, context, chat.maxCalls + 1).status != Going
  {
    var s := StreamRun(chat, script, context, chat.maxCalls);
    StreamBalanced(chat, script, context, chat.maxCalls);
    if s.status == Going {
      StreamTurnOk(chat, s, chat.maxCalls, script(chat.maxCalls));
    }
  }

  lemma {:induction false} SendStays(chat: Chat, answers: nat -> Answer, context: seq<Message>, k: nat, n: nat)
    requires k <= n && (k < n ==> SendRun(chat, answers, context, k).status != Going)
    ensures SendRun(chat, answers, context, n) == SendRun(chat, answers, context, k)
  {
    if k < n {
      SendStays(chat, answers, context, k, n - 1);
    }
  }
}
