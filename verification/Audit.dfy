/** What a turn has done, told from the replies alone: when it goes on, which tools were run to which
    results, what the audit and the model were told of them, and what was announced. */
module Audit {
  import opened Wrappers
  import opened Text
  import opened Sse
  import opened ToolCall
  import opened Context
  import opened Trace
  import opened Detector
  import opened Turns

  // ---- one tool call --------------------------------------------------------

  /** What is kept of a tool's answer. */
  function Clip(text: string): string {
    if |text| <= 4000 then text else text[..4000]
  }

  /** The result is what the tool returned in its round, if the persona may use it, and the refusal if
      not; in both cases clipped, and still JSON. */
  predicate Returned(chat: Chat, round: nat, tool: string, args: Args, result: string) {
    && chat.loads(result)
    && (tool in chat.tools ==>
          chat.run(round, tool, args).Some? && result == Clip(chat.run(round, tool, args).value))
    && (tool !in chat.tools ==> result == Clip(chat.refusal(tool)))
  }

  /** A result can be had. */
  predicate Obtains(chat: Chat, round: nat, tool: string, args: Args) {
    if tool in chat.tools
    then chat.run(round, tool, args).Some? && chat.loads(Clip(chat.run(round, tool, args).value))
    else chat.loads(Clip(chat.refusal(tool)))
  }

  lemma OutcomeIs(chat: Chat, round: nat, tool: string, args: Args)
    ensures var r := Outcome(chat, round, tool, args);
            && (r.Some? <==> Obtains(chat, round, tool, args))
            && (r.Some? ==> Returned(chat, round, tool, args, r.value))
  {
  }

  /** The audit row of a round: the call the reply asks for, and what came of it. */
  predicate Audited(chat: Chat, round: nat, text: string, row: Row) {
    && row.note.Ran?
    && row == Row(Tool, chat.describe(row.note.tool, row.note.args), 0, "", row.note)
    && CallIn(chat.decode, text) == Call(row.note.tool, row.note.args)
    && Returned(chat, round, row.note.tool, row.note.args, row.note.result)
  }

  /** What the model is told of it. */
  function Told(chat: Chat, text: string, row: Row): seq<Message>
    requires row.note.Ran?
  {
    [Message(Assistant, text), Message(User, chat.report(row.note.tool, row.note.result))]
  }

  lemma ToolIsAudited(chat: Chat, round: nat, text: string, tool: string, args: Args, result: string)
    requires CallIn(chat.decode, text) == Call(tool, args) && Outcome(chat, round, tool, args) == Some(result)
    ensures Audited(chat, round, text, AuditRow(chat, tool, args, result))
    ensures Feedback(chat, text, tool, result) == Told(chat, text, AuditRow(chat, tool, args, result))
  {
    OutcomeIs(chat, round, tool, args);
  }

  // ---- a whole turn -----------------------------------------------------------

  /** After n rounds, with `texts` the texts of the replies: every round but the last has its audit row,
      and each request is the one before with what was told of its call. `now` is the context. */
  ghost predicate Story(chat: Chat, texts: nat -> string, start: seq<Message>, acts: seq<Act>, now: seq<Message>,
                        going: bool, n: nat)
  {
    var reqs, rows := Requests(acts), Rows(acts);
    && |reqs| == |rows| + (if going then 0 else 1) && |reqs| <= n && (going ==> |reqs| == n)
    && (forall i :: 0 <= i < |rows| ==> Audited(chat, i, texts(i), rows[i]))
    && Chained(chat, texts, start, reqs, rows)
    && now == if |reqs| == 0 then start
              else if going then reqs[|reqs| - 1] + Told(chat, texts(|reqs| - 1), rows[|reqs| - 1])
              else reqs[|reqs| - 1]
  }

  ghost predicate Chained(chat: Chat, texts: nat -> string, start: seq<Message>, reqs: seq<seq<Message>>,
                          rows: seq<Row>)
    requires |reqs| <= |rows| + 1 && forall i :: 0 <= i < |rows| ==> rows[i].note.Ran?
  {
    && (reqs != [] ==> reqs[0] == start)
    && forall i :: 0 < i < |reqs| ==> reqs[i] == reqs[i - 1] + Told(chat, texts(i - 1), rows[i - 1])
  }

  lemma ChainAsks(chat: Chat, texts: nat -> string, start: seq<Message>, reqs: seq<seq<Message>>, rows: seq<Row>,
                  now: seq<Message>)
    requires |reqs| == |rows| && forall i :: 0 <= i < |rows| ==> rows[i].note.Ran?
    requires Chained(chat, texts, start, reqs, rows)
    requires now == if |reqs| == 0 then start
                    else reqs[|reqs| - 1] + Told(chat, texts(|reqs| - 1), rows[|reqs| - 1])
    ensures Chained(chat, texts, start, reqs + [now], rows)
  {
  }

  lemma StoryAsks(chat: Chat, texts: nat -> string, start: seq<Message>, acts: seq<Act>, now: seq<Message>, n: nat)
    requires Story(chat, texts, start, acts, now, true, n)
    ensures Story(chat, texts, start, acts + [Asked(now)], now, false, n + 1)
    ensures |Rows(acts + [Asked(now)])| == n
  {
    OneAct("", acts, Asked(now));
    ChainAsks(chat, texts, start, Requests(acts), Rows(acts), now);
  }

  lemma ChainStores(chat: Chat, texts: nat -> string, start: seq<Message>, reqs: seq<seq<Message>>, rows: seq<Row>,
                    row: Row)
    requires |reqs| == |rows| + 1 && row.note.Ran? && forall i :: 0 <= i < |rows| ==> rows[i].note.Ran?
    requires Chained(chat, texts, start, reqs, rows)
    ensures Chained(chat, texts, start, reqs, rows + [row])
  {
    assert forall i :: 0 <= i < |rows| ==> (rows + [row])[i] == rows[i];
  }

  lemma AllAndOneMore<T>(ok: (nat, T) -> bool, all: seq<T>, one: T)
    requires (forall i :: 0 <= i < |all| ==> ok(i, all[i])) && ok(|all|, one)
    ensures forall i :: 0 <= i < |all + [one]| ==> ok(i, (all + [one])[i])
  {
  }

  lemma StoryStores(chat: Chat, texts: nat -> string, start: seq<Message>, acts: seq<Act>, now: seq<Message>, n: nat,
                    row: Row)
    requires Story(chat, texts, start, acts, now, false, n + 1) && |Rows(acts)| == n
    requires Audited(chat, n, texts(n), row)
    ensures Story(chat, texts, start, acts + [Stored(row)], now + Told(chat, texts(n), row), true, n + 1)
  {
    OneAct("", acts, Stored(row));
    AllAndOneMore((i: nat, r: Row) => Audited(chat, i, texts(i), r), Rows(acts), row);
    ChainStores(chat, texts, start, Requests(acts), Rows(acts), row);
  }

  /** A call that is run. */
  lemma CallTells(chat: Chat, texts: nat -> string, start: seq<Message>, acts: seq<Act>, now: seq<Message>, n: nat,
                  tool: string, args: Args, result: string)
    requires Story(chat, texts, start, acts, now, false, n + 1) && |Rows(acts)| == n
    requires CallIn(chat.decode, texts(n)) == Call(tool, args) && Outcome(chat, n, tool, args) == Some(result)
    ensures Story(chat, texts, start, acts + [Stored(AuditRow(chat, tool, args, result))],
                  now + Feedback(chat, texts(n), tool, result), true, n + 1)
  {
    ToolIsAudited(chat, n, texts(n), tool, args, result);
    StoryStores(chat, texts, start, acts, now, n, AuditRow(chat, tool, args, result));
  }

  lemma StorySame(chat: Chat, texts: nat -> string, start: seq<Message>, a: seq<Act>, b: seq<Act>, now: seq<Message>,
                  going: bool, n: nat)
    requires Story(chat, texts, start, a, now, going, n) && Requests(a) == Requests(b) && Rows(a) == Rows(b)
    ensures Story(chat, texts, start, b, now, going, n)
  {
  }

  // ---- round by round ---------------------------------------------------------

  /** What holds before the first round of send and is kept by each. */
  lemma {:induction false} SendInduction(chat: Chat, answers: nat -> Answer, start: seq<Message>, n: nat,
                                         ok: (nat, Sending) -> bool)
    requires ok(0, Sending(start, "", chat.requested, map[], [], Going))
    requires forall k: nat, s: Sending :: ok(k, s) ==> ok(k + 1, SendMore(chat, s, k, answers(k)))
    ensures ok(n, SendRun(chat, answers, start, n))
  {
    if n > 0 {
      SendInduction(chat, answers, start, n - 1, ok);
    }
  }

  lemma {:induction false} StreamInduction(chat: Chat, script: nat -> Parse, start: seq<Message>, n: nat,
                                           ok: (nat, Streaming) -> bool)
    requires ok(0, Streaming(start, false, [], Going))
    requires forall k: nat, s: Streaming :: ok(k, s) ==> ok(k + 1, StreamMore(chat, s, k, script(k)))
    ensures ok(n, StreamRun(chat, script, start, n))
  {
    if n > 0 {
      StreamInduction(chat, script, start, n - 1, ok);
    }
  }

  /** How far a turn gets in n rounds: it is going if each let it go on, and completed if one after such was
      the last. */
  ghost predicate Reached(on: nat -> bool, last: nat -> bool, status: Status, n: nat) {
    && (status == Going <==> forall i: nat :: i < n ==> on(i))
    && (status == Completed <==> exists j: nat :: j < n && last(j) && forall i: nat :: i < j ==> on(i))
  }

  lemma ReachedMore(on: nat -> bool, last: nat -> bool, status: Status, next: Status, n: nat)
    requires Reached(on, last, status, n)
    requires if status == Going then (next == Going <==> on(n)) && (next == Completed <==> last(n))
             else next == status
    ensures Reached(on, last, next, n + 1)
  {
  }

  // ---- send -----------------------------------------------------------------

  /** The texts of the replies. */
  ghost predicate AnswerTexts(answers: nat -> Answer, texts: nat -> string) {
    forall k: nat {:trigger texts(k)} {:trigger answers(k)} :: answers(k).Answer? ==> texts(k) == answers(k).content
  }

  lemma SendEndTells(chat: Chat, texts: nat -> string, start: seq<Message>, h: Sending, k: nat)
    requires Story(chat, texts, start, h.acts, h.context, false, k + 1) && |Rows(h.acts)| == k
    requires h.status == Going && texts(k) == h.content
    ensures var t := SendEnd(chat, h, k, SendCall(chat, h.content));
            Story(chat, texts, start, t.acts, t.context, t.status == Going, k + 1)
  {
    var call := SendCall(chat, h.content);
    if call.Call? && k < chat.maxCalls {
      match Outcome(chat, k, call.tool, call.args) {
        case None =>
        case Some(result) => CallTells(chat, texts, start, h.acts, h.context, k, call.tool, call.args, result);
      }
    }
  }

  lemma SendTellsMore(chat: Chat, texts: nat -> string, start: seq<Message>, s: Sending, k: nat, a: Answer)
    requires Story(chat, texts, start, s.acts, s.context, s.status == Going, k)
    requires a.Answer? ==> texts(k) == a.content
    ensures var t := SendMore(chat, s, k, a);
            Story(chat, texts, start, t.acts, t.context, t.status == Going, k + 1)
  {
    if s.status == Going {
      StoryAsks(chat, texts, start, s.acts, s.context, k);
      if a.Answer? {
        SendEndTells(chat, texts, start, Received(s, a), k);
      }
    }
  }

  /** send: the story of a turn, from the replies. */
  lemma SendTells(chat: Chat, answers: nat -> Answer, texts: nat -> string, start: seq<Message>, n: nat)
    requires AnswerTexts(answers, texts)
    ensures var s := SendRun(chat, answers, start, n);
            Story(chat, texts, start, s.acts, s.context, s.status == Going, n)
  {
    var ok := (k: nat, s: Sending) => Story(chat, texts, start, s.acts, s.context, s.status == Going, k);
    NothingDone(chat.requested);
    forall k: nat, s: Sending | ok(k, s)
      ensures ok(k + 1, SendMore(chat, s, k, answers(k)))
    {
      SendTellsMore(chat, texts, start, s, k, answers(k));
    }
    SendInduction(chat, answers, start, n, ok);
  }

  /** A reply after which send goes on: it calls for a tool, calls are left, and a result can be had. */
  predicate AnswerGoesOn(chat: Chat, k: nat, a: Answer) {
    && a.Answer? && chat.tools != {} && k < chat.maxCalls && CallIn(chat.decode, a.content).Call?
    && var call := CallIn(chat.decode, a.content); Obtains(chat, k, call.tool, call.args)
  }

  /** A reply that is the answer: it calls for nothing, or calls are used up. */
  predicate AnswerEnds(chat: Chat, k: nat, a: Answer) {
    && a.Answer?
    && (chat.tools == {} || CallIn(chat.decode, a.content).NoCall?
        || (k >= chat.maxCalls && CallIn(chat.decode, a.content).Call?))
  }

  lemma AnswerStep(chat: Chat, s: Sending, k: nat, a: Answer)
    requires s.status == Going
    ensures var t := SendMore(chat, s, k, a);
            && (t.status == Going <==> AnswerGoesOn(chat, k, a))
            && (t.status == Completed <==> AnswerEnds(chat, k, a))
  {
    if a.Answer? && SendCall(chat, a.content).Call? {
      OutcomeIs(chat, k, SendCall(chat, a.content).tool, SendCall(chat, a.content).args);
    }
  }

  function AnswersOn(chat: Chat, answers: nat -> Answer): nat -> bool {
    (k: nat) => AnswerGoesOn(chat, k, answers(k))
  }

  function AnswersLast(chat: Chat, answers: nat -> Answer): nat -> bool {
    (k: nat) => AnswerEnds(chat, k, answers(k))
  }

  /** How far send gets: it goes on as long as replies let it, and is completed by the first that is the
      answer. Anything else aborts it. */
  lemma SendEndsIff(chat: Chat, answers: nat -> Answer, start: seq<Message>, n: nat)
    ensures Reached(AnswersOn(chat, answers), AnswersLast(chat, answers), SendRun(chat, answers, start, n).status, n)
  {
    var on, last := AnswersOn(chat, answers), AnswersLast(chat, answers);
    var ok := (k: nat, s: Sending) => Reached(on, last, s.status, k);
    forall k: nat, s: Sending | ok(k, s)
      ensures ok(k + 1, SendMore(chat, s, k, answers(k)))
    {
      if s.status == Going {
        AnswerStep(chat, s, k, answers(k));
      }
      ReachedMore(on, last, s.status, SendMore(chat, s, k, answers(k)).status, k);
    }
    SendInduction(chat, answers, start, n, ok);
  }

  // ---- the answer of send -------------------------------------------------------

  /** The last of the first m values that says something, or what was known before. */
  ghost predicate IsLatest<T(!new)>(values: nat -> T, nothing: T, start: T, m: nat, v: T) {
    || (v == start && forall i: nat :: i < m ==> values(i) == nothing)
    || (v != nothing && exists j: nat :: j < m && values(j) == v && forall i: nat :: j < i < m ==> values(i) == nothing)
  }

  lemma LatestMore<T(!new)>(values: nat -> T, nothing: T, start: T, m: nat, v: T)
    requires IsLatest(values, nothing, start, m, v)
    ensures IsLatest(values, nothing, start, m + 1, if values(m) != nothing then values(m) else v)
  {
    if values(m) == nothing && v != start {
      var j: nat :| j < m && values(j) == v && forall i: nat :: j < i < m ==> values(i) == nothing;
      assert values(j) == v;
    }
  }

  function Models(answers: nat -> Answer): nat -> string {
    (k: nat) => if answers(k).Answer? then answers(k).model else ""
  }

  function Used(answers: nat -> Answer): nat -> Usage {
    (k: nat) => if answers(k).Answer? then answers(k).usage else map[]
  }

  /** What send remembers of the replies so far. */
  ghost predicate Remembers(chat: Chat, answers: nat -> Answer, s: Sending, n: nat) {
    var m := |Requests(s.acts)|;
    && m <= n && (s.status == Going ==> m == n) && (s.status == Completed ==> m > 0 && answers(m - 1).Answer?)
    && (m > 0 && answers(m - 1).Answer? ==> s.content == answers(m - 1).content)
    && IsLatest(Models(answers), "", chat.requested, m, s.model)
    && IsLatest(Used(answers), map[], map[], m, s.usage)
  }

  /** What one more reply does. */
  lemma OneReply(chat: Chat, s: Sending, k: nat, a: Answer)
    requires s.status == Going
    ensures var t := SendMore(chat, s, k, a);
            && Requests(t.acts) == Requests(s.acts) + [s.context]
            && (t.status == Completed ==> a.Answer?)
            && (a.Answer? ==>
                  && t.content == a.content
                  && t.model == (if a.model != "" then a.model else s.model)
                  && t.usage == (if a.usage != map[] then a.usage else s.usage))
            && (a.Refused? ==> t.content == s.content && t.model == s.model && t.usage == s.usage)
  {
    OneAct("", s.acts, Asked(s.context));
    if a.Answer? {
      var h, call := Received(s, a), SendCall(chat, a.content);
      if call.Call? {
        match Outcome(chat, k, call.tool, call.args) {
          case None =>
          case Some(result) => OneAct("", h.acts, Stored(AuditRow(chat, call.tool, call.args, result)));
        }
      }
    }
  }

  lemma RemembersMore(chat: Chat, answers: nat -> Answer, s: Sending, k: nat)
    requires Remembers(chat, answers, s, k)
    ensures Remembers(chat, answers, SendMore(chat, s, k, answers(k)), k + 1)
  {
    if s.status == Going {
      OneReply(chat, s, k, answers(k));
      LatestMore(Models(answers), "", chat.requested, k, s.model);
      LatestMore(Used(answers), map[], map[], k, s.usage);
    }
  }

  lemma SendRemembers(chat: Chat, answers: nat -> Answer, start: seq<Message>, n: nat)
    ensures Remembers(chat, answers, SendRun(chat, answers, start, n), n)
  {
    var ok := (k: nat, s: Sending) => Remembers(chat, answers, s, k);
    NothingDone(chat.requested);
    forall k: nat, s: Sending | ok(k, s)
      ensures ok(k + 1, SendMore(chat, s, k, answers(k)))
    {
      RemembersMore(chat, answers, s, k);
    }
    SendInduction(chat, answers, start, n, ok);
  }

  /** The row of a completed turn: the text of the last reply, after the name of the model last reported if
      routing is shown, with that model and the prompt tokens of the usage last reported. */
  lemma AnswerIsLastReply(chat: Chat, answers: nat -> Answer, start: seq<Message>, n: nat) returns (m: nat)
    requires SendRun(chat, answers, start, n).status == Completed
    ensures var s := SendRun(chat, answers, start, n);
            && 0 < m <= n && m == |Requests(s.acts)| && answers(m - 1).Answer?
            && IsLatest(Models(answers), "", chat.requested, m, s.model)
            && IsLatest(Used(answers), map[], map[], m, s.usage)
            && SendRow(chat, s)
               == Row(Assistant,
                      (if chat.labels && s.model != "" then "`[" + s.model + "]`\n\n" else "") + answers(m - 1).content,
                      if "prompt_tokens" in s.usage then s.usage["prompt_tokens"] else 0, s.model, Plain)
  {
    SendRemembers(chat, answers, start, n);
    m := |Requests(SendRun(chat, answers, start, n).acts)|;
  }

  // ---- send_stream ------------------------------------------------------------

  ghost predicate ScriptTexts(script: nat -> Parse, texts: nat -> string) {
    forall k: nat {:trigger texts(k)} {:trigger script(k)} :: texts(k) == Concat(Deltas(script(k).events))
  }

  lemma RoundTells(chat: Chat, texts: nat -> string, start: seq<Message>, s: Streaming, k: nat, reply: Parse)
    returns (r: Round, e: Round)
    requires Story(chat, texts, start, s.acts, s.context, true, k)
    ensures var asked := s.acts + [Asked(s.context)];
            && r == Hear(chat, Opening(s.labelled, asked), reply.events)
            && e == Heed(chat, s.labelled, asked, reply.events)
    ensures Story(chat, texts, start, r.acts, s.context, false, k + 1)
    ensures Story(chat, texts, start, e.acts, s.context, false, k + 1) && |Rows(e.acts)| == k
    ensures e.text == Concat(Deltas(reply.events))
  {
    var asked := s.acts + [Asked(s.context)];
    StoryAsks(chat, texts, start, s.acts, s.context, k);
    Following(chat, Opening(s.labelled, asked), reply.events);
    RoundShows(chat, s.labelled, asked, reply.events);
    r, e := Hear(chat, Opening(s.labelled, asked), reply.events), Heed(chat, s.labelled, asked, reply.events);
    StorySame(chat, texts, start, asked, r.acts, s.context, false, k + 1);
    StorySame(chat, texts, start, asked, e.acts, s.context, false, k + 1);
  }

  lemma StreamToolTells(chat: Chat, texts: nat -> string, start: seq<Message>, s: Streaming, e: Round, k: nat,
                        tool: string, args: Args)
    requires Story(chat, texts, start, e.acts, s.context, false, k + 1) && |Rows(e.acts)| == k && e.text == texts(k)
    requires CallIn(chat.decode, e.text) == Call(tool, args)
    ensures var t := StreamTool(chat, s, e, k, tool, args);
            Story(chat, texts, start, t.acts, t.context, t.status == Going, k + 1)
  {
    var told := e.acts + [Sent(ToolStatus(tool, args, k + 1))];
    StatusTells(chat, texts, start, e.acts, s.context, k + 1, ToolStatus(tool, args, k + 1));
    match Outcome(chat, k, tool, args) {
      case None =>
      case Some(result) => CallTells(chat, texts, start, told, s.context, k, tool, args, result);
    }
  }

  lemma StatusTells(chat: Chat, texts: nat -> string, start: seq<Message>, acts: seq<Act>, now: seq<Message>, n: nat,
                    what: Shown)
    requires Story(chat, texts, start, acts, now, false, n)
    ensures Story(chat, texts, start, acts + [Sent(what)], now, false, n)
    ensures Rows(acts + [Sent(what)]) == Rows(acts)
  {
    OneAct("", acts, Sent(what));
    StorySame(chat, texts, start, acts, acts + [Sent(what)], now, false, n);
  }

  lemma ShowTells(chat: Chat, texts: nat -> string, start: seq<Message>, e: Round, now: seq<Message>, n: nat)
    requires Story(chat, texts, start, e.acts, now, false, n)
    ensures Story(chat, texts, start, Show(chat, e, e.text).acts, now, false, n)
  {
    Showing(chat, e, e.text);
    StorySame(chat, texts, start, e.acts, Show(chat, e, e.text).acts, now, false, n);
  }

  lemma StreamEndTells(chat: Chat, texts: nat -> string, start: seq<Message>, s: Streaming, e: Round, k: nat)
    requires Story(chat, texts, start, e.acts, s.context, false, k + 1) && |Rows(e.acts)| == k && e.text == texts(k)
    ensures var t := StreamEnd(chat, s, e, k, RoundCall(chat, e));
            Story(chat, texts, start, t.acts, t.context, t.status == Going, k + 1)
  {
    var call := RoundCall(chat, e);
    if call.Call? && k < chat.maxCalls {
      StreamToolTells(chat, texts, start, s, e, k, call.tool, call.args);
    } else {
      ShowTells(chat, texts, start, e, s.context, k + 1);
    }
  }

  lemma StreamTellsMore(chat: Chat, texts: nat -> string, start: seq<Message>, s: Streaming, k: nat, reply: Parse)
    requires Story(chat, texts, start, s.acts, s.context, s.status == Going, k)
    requires texts(k) == Concat(Deltas(reply.events))
    ensures var t := StreamMore(chat, s, k, reply);
            Story(chat, texts, start, t.acts, t.context, t.status == Going, k + 1)
  {
    if s.status == Going {
      var r, e := RoundTells(chat, texts, start, s, k, reply);
      if reply.end != Raised {
        StreamEndTells(chat, texts, start, s, e, k);
      }
    }
  }

  /** send_stream: the same story, whatever the cuts. */
  lemma StreamTells(chat: Chat, script: nat -> Parse, texts: nat -> string, start: seq<Message>, n: nat)
    requires ScriptTexts(script, texts)
    ensures var s := StreamRun(chat, script, start, n);
            Story(chat, texts, start, s.acts, s.context, s.status == Going, n)
  {
    var ok := (k: nat, s: Streaming) => Story(chat, texts, start, s.acts, s.context, s.status == Going, k);
    NothingDone(chat.requested);
    forall k: nat, s: Streaming | ok(k, s)
      ensures ok(k + 1, StreamMore(chat, s, k, script(k)))
    {
      StreamTellsMore(chat, texts, start, s, k, script(k));
    }
    StreamInduction(chat, script, start, n, ok);
  }

  /** Where the round begins does not matter to its verdict. */
  lemma {:induction false} HearAnywhere(chat: Chat, labelled: bool, acts: seq<Act>, events: seq<Event>)
    ensures var r, q := Hear(chat, Opening(labelled, acts), events), Hear(chat, Opening(false, []), events);
            r.held == q.held && r.decided == q.decided && r.tool == q.tool && r.text == q.text
  {
    if events != [] {
      HearAnywhere(chat, labelled, acts, events[..|events| - 1]);
    }
  }

  lemma HeedAnywhere(chat: Chat, labelled: bool, acts: seq<Act>, events: seq<Event>)
    ensures var e := Heed(chat, labelled, acts, events);
            e.tool == ToolRound(chat, events) && e.text == Concat(Deltas(events))
  {
    HearAnywhere(chat, labelled, acts, events);
    RoundShows(chat, labelled, acts, events);
  }

  lemma EndStatus(chat: Chat, s: Streaming, e: Round, k: nat)
    ensures var status, call := StreamEnd(chat, s, e, k, RoundCall(chat, e)).status, CallIn(chat.decode, e.text);
            && (status == Going <==>
                  e.tool && k < chat.maxCalls && call.Call? && Obtains(chat, k, call.tool, call.args))
            && (status == Completed <==> !e.tool || call.NoCall? || (k >= chat.maxCalls && call.Call?))
  {
    var call := CallIn(chat.decode, e.text);
    if call.Call? {
      OutcomeIs(chat, k, call.tool, call.args);
    }
  }

  /** A reply after which send_stream goes on: a tool round whose call can be run. */
  predicate ReplyGoesOn(chat: Chat, k: nat, p: Parse) {
    && p.end != Raised && ToolRound(chat, p.events) && k < chat.maxCalls
    && var call := CallIn(chat.decode, Concat(Deltas(p.events)));
       call.Call? && Obtains(chat, k, call.tool, call.args)
  }

  /** A reply that is shown: no tool round, or one without a call, or one too many. */
  predicate ReplyEnds(chat: Chat, k: nat, p: Parse) {
    && p.end != Raised
    && (!ToolRound(chat, p.events)
        || (var call := CallIn(chat.decode, Concat(Deltas(p.events)));
            call.NoCall? || (k >= chat.maxCalls && call.Call?)))
  }

  lemma ReplyStep(chat: Chat, s: Streaming, k: nat, p: Parse)
    requires s.status == Going
    ensures var t := StreamMore(chat, s, k, p);
            && (t.status == Going <==> ReplyGoesOn(chat, k, p))
            && (t.status == Completed <==> ReplyEnds(chat, k, p))
  {
    var asked := s.acts + [Asked(s.context)];
    HeedAnywhere(chat, s.labelled, asked, p.events);
    EndStatus(chat, s, Heed(chat, s.labelled, asked, p.events), k);
  }

  function RepliesOn(chat: Chat, script: nat -> Parse): nat -> bool {
    (k: nat) => ReplyGoesOn(chat, k, script(k))
  }

  function RepliesLast(chat: Chat, script: nat -> Parse): nat -> bool {
    (k: nat) => ReplyEnds(chat, k, script(k))
  }

  /** How far send_stream gets, likewise. */
  lemma StreamEndsIff(chat: Chat, script: nat -> Parse, start: seq<Message>, n: nat)
    ensures Reached(RepliesOn(chat, script), RepliesLast(chat, script), StreamRun(chat, script, start, n).status, n)
  {
    var on, last := RepliesOn(chat, script), RepliesLast(chat, script);
    var ok := (k: nat, s: Streaming) => Reached(on, last, s.status, k);
    forall k: nat, s: Streaming | ok(k, s)
      ensures ok(k + 1, StreamMore(chat, s, k, script(k)))
    {
      if s.status == Going {
        ReplyStep(chat, s, k, script(k));
      }
      ReachedMore(on, last, s.status, StreamMore(chat, s, k, script(k)).status, k);
    }
    StreamInduction(chat, script, start, n, ok);
  }

  /** The lead-in that shows who answers. */
  function Lettered(chat: Chat, model: string): string {
    if chat.labels && model != "" then "`[" + model + "]`\n\n" else ""
  }

  /** All of the reply has been shown, after the name of the model reported by its event number i, or before
      it; and nothing else. */
  predicate ShowsReply(chat: Chat, model: string, acts: seq<Act>, reply: Parse, i: nat) {
    && i <= |reply.events| && reply.end != Raised
    && var text := Concat(Deltas(reply.events));
       Concat(Pieces(acts))
       == if text == "" then "" else Lettered(chat, LastModel(model, reply.events[..i])) + text
  }

  lemma HeededShows(chat: Chat, labelled: bool, asked: seq<Act>, reply: Parse) returns (i: nat)
    requires Pieces(asked) == [] && !labelled && reply.end != Raised
    ensures var e := Heed(chat, labelled, asked, reply.events);
            var acts := if e.tool then Show(chat, e, e.text).acts else e.acts;
            ShowsReply(chat, ModelAt(chat.requested, asked), acts, reply, i)
  {
    RoundShows(chat, labelled, asked, reply.events);
    var e := Heed(chat, labelled, asked, reply.events);
    assert Concat([]) == "";
    if e.tool {
      i := |reply.events|;
      assert reply.events[..i] == reply.events;
      ToolHasText(chat, labelled, asked, reply.events);
      Showing(chat, e, e.text);
    } else {
      i := EnoughAt(reply.events);
      NameWhenDecided(chat, labelled, asked, reply.events);
    }
  }

  lemma CompletedBy(chat: Chat, s: Streaming, e: Round, k: nat, call: Parsed)
    requires StreamEnd(chat, s, e, k, call).status == Completed
    ensures StreamEnd(chat, s, e, k, call).acts == if e.tool then Show(chat, e, e.text).acts else e.acts
  {
  }

  /** What the round that completes a turn shows. */
  lemma LastRoundShows(chat: Chat, s: Streaming, k: nat, reply: Parse) returns (i: nat)
    requires StreamOk(s, k) && s.status == Going && StreamMore(chat, s, k, reply).status == Completed
    ensures ShowsReply(chat, ModelAt(chat.requested, s.acts), StreamMore(chat, s, k, reply).acts, reply, i)
  {
    var asked := s.acts + [Asked(s.context)];
    OneAct(chat.requested, s.acts, Asked(s.context));
    var e := Heed(chat, s.labelled, asked, reply.events);
    i := HeededShows(chat, s.labelled, asked, reply);
    CompletedBy(chat, s, e, k, RoundCall(chat, e));
  }

  /** The model known before each round. */
  function ModelsBefore(chat: Chat, script: nat -> Parse, start: seq<Message>): nat -> string {
    (m: nat) => ModelAt(chat.requested, StreamRun(chat, script, start, m).acts)
  }

  /** One of the first n replies ended the turn, and its text has been shown. */
  ghost predicate Answered(chat: Chat, script: nat -> Parse, models: nat -> string, acts: seq<Act>, n: nat) {
    exists m: nat, i: nat ::
      m < n && ReplyEnds(chat, m, script(m)) && ShowsReply(chat, models(m), acts, script(m), i)
  }

  lemma AnsweredMore(chat: Chat, script: nat -> Parse, models: nat -> string, s: Streaming, k: nat)
    requires StreamOk(s, k) && (s.status == Going ==> models(k) == ModelAt(chat.requested, s.acts))
    requires s.status == Completed ==> Answered(chat, script, models, s.acts, k)
    ensures var t := StreamMore(chat, s, k, script(k));
            t.status == Completed ==> Answered(chat, script, models, t.acts, k + 1)
  {
    if s.status == Going && StreamMore(chat, s, k, script(k)).status == Completed {
      ReplyStep(chat, s, k, script(k));
      var i := LastRoundShows(chat, s, k, script(k));
    }
  }

  /** A completed stream has shown the whole text of the reply that completed it, after the name of the model
      that answered, and nothing else. */
  lemma StreamAnswer(chat: Chat, script: nat -> Parse, start: seq<Message>, n: nat)
    ensures var s := StreamRun(chat, script, start, n);
            s.status == Completed ==> Answered(chat, script, ModelsBefore(chat, script, start), s.acts, n)
  {
    var models := ModelsBefore(chat, script, start);
    var ok := (k: nat, s: Streaming) =>
      s == StreamRun(chat, script, start, k) && (s.status == Completed ==> Answered(chat, script, models, s.acts, k));
    assert ok(0, Streaming(start, false, [], Going));
    forall k: nat, s: Streaming | ok(k, s)
      ensures ok(k + 1, StreamMore(chat, s, k, script(k)))
    {
      StreamBalanced(chat, script, start, k);
      AnsweredMore(chat, script, models, s, k);
      NextStreaming(chat, script, start, k);
    }
    StreamInduction(chat, script, start, n, ok);
  }

  // ---- tools that the persona may not use -----------------------------------------

  /** The same settings and collaborators, but for what tools outside the persona's would answer. */
  ghost predicate SameEnabled(chat: Chat, other: Chat) {
    && other == chat.(run := other.run)
    && forall k: nat, tool, args :: tool in chat.tools ==> other.run(k, tool, args) == chat.run(k, tool, args)
  }

  lemma {:induction false} SameHear(chat: Chat, other: Chat, r: Round, events: seq<Event>)
    requires SameEnabled(chat, other)
    ensures Hear(other, r, events) == Hear(chat, r, events)
  {
    if events != [] {
      SameHear(chat, other, r, events[..|events| - 1]);
    }
  }

  lemma SameSend(chat: Chat, other: Chat, s: Sending, k: nat, a: Answer)
    requires SameEnabled(chat, other)
    ensures SendMore(other, s, k, a) == SendMore(chat, s, k, a)
  {
  }

  lemma SameStreamEnd(chat: Chat, other: Chat, s: Streaming, e: Round, k: nat, call: Parsed)
    requires SameEnabled(chat, other)
    ensures StreamEnd(other, s, e, k, call) == StreamEnd(chat, s, e, k, call)
  {
    if call.Call? {
      assert Outcome(other, k, call.tool, call.args) == Outcome(chat, k, call.tool, call.args);
    }
  }

  lemma SameStream(chat: Chat, other: Chat, s: Streaming, k: nat, reply: Parse)
    requires SameEnabled(chat, other)
    ensures StreamMore(other, s, k, reply) == StreamMore(chat, s, k, reply)
  {
    var asked := s.acts + [Asked(s.context)];
    SameHear(chat, other, Opening(s.labelled, asked), reply.events);
    var e := Heed(chat, s.labelled, asked, reply.events);
    assert Heed(other, s.labelled, asked, reply.events) == e;
    SameStreamEnd(chat, other, s, e, k, RoundCall(chat, e));
  }

  lemma SameSendRun(chat: Chat, other: Chat, answers: nat -> Answer, start: seq<Message>, n: nat)
    requires SameEnabled(chat, other)
    ensures SendRun(other, answers, start, n) == SendRun(chat, answers, start, n)
  {
    var ok := (k: nat, s: Sending) => s == SendRun(other, answers, start, k);
    forall k: nat, s: Sending | ok(k, s)
      ensures ok(k + 1, SendMore(chat, s, k, answers(k)))
    {
      SameSend(chat, other, s, k, answers(k));
      NextSending(other, answers, start, k);
    }
    assert SendRun(other, answers, start, 0) == Sending(start, "", other.requested, map[], [], Going);
    SendInduction(chat, answers, start, n, ok);
  }

  lemma NextSending(chat: Chat, answers: nat -> Answer, start: seq<Message>, k: nat)
    ensures SendRun(chat, answers, start, k + 1) == SendMore(chat, SendRun(chat, answers, start, k), k, answers(k))
  {
  }

  lemma SameStreamRun(chat: Chat, other: Chat, script: nat -> Parse, start: seq<Message>, n: nat)
    requires SameEnabled(chat, other)
    ensures StreamRun(other, script, start, n) == StreamRun(chat, script, start, n)
  {
    var ok := (k: nat, s: Streaming) => s == StreamRun(other, script, start, k);
    forall k: nat, s: Streaming | ok(k, s)
      ensures ok(k + 1, StreamMore(chat, s, k, script(k)))
    {
      SameStream(chat, other, s, k, script(k));
      NextStreaming(other, script, start, k);
    }
    assert StreamRun(other, script, start, 0) == Streaming(start, false, [], Going);
    StreamInduction(chat, script, start, n, ok);
  }

  lemma NextStreaming(chat: Chat, script: nat -> Parse, start: seq<Message>, k: nat)
    ensures StreamRun(chat, script, start, k + 1) == StreamMore(chat, StreamRun(chat, script, start, k), k, script(k))
  {
  }

  /** A tool the persona may not use is never run: whatever it would answer, turns are the same. */
  lemma DisabledIsNeverRun(chat: Chat, other: Chat, answers: nat -> Answer, script: nat -> Parse,
                           start: seq<Message>, n: nat)
    requires SameEnabled(chat, other)
    ensures SendRun(other, answers, start, n) == SendRun(chat, answers, start, n)
    ensures StreamRun(other, script, start, n) == StreamRun(chat, script, start, n)
  {
    SameSendRun(chat, other, answers, start, n);
    SameStreamRun(chat, other, script, start, n);
  }
}
