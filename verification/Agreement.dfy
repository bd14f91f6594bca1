/** send and send_stream do the same with the same replies. */
module Agreement {
  import opened Wrappers
  import opened Text
  import opened Sse
  import opened ToolCall
  import opened Context
  import opened Trace
  import opened Detector
  import opened Turns

  // ---- one reply ------------------------------------------------------------

  /** What send_stream takes a reply to call for. */
  function StreamCall(chat: Chat, events: seq<Event>, content: string): Parsed {
    if ToolRound(chat, events) then CallIn(chat.decode, content) else NoCall
  }

  /** send finds no call, or the reply starts with the marker and no line feed comes before it. */
  predicate Agreeable(chat: Chat, content: string) {
    SendCall(chat, content) == NoCall || (Marked(LStrip(content)) && !Ambiguous(content))
  }

  ghost predicate SameCall(chat: Chat, content: string) {
    forall events: seq<Event> :: Cuts(events, content) ==> StreamCall(chat, events, content) == SendCall(chat, content)
  }

  /** Exactly when the two make the same of a reply, for every way of cutting it. */
  lemma SameCallIff(chat: Chat, content: string)
    ensures SameCall(chat, content) <==> Agreeable(chat, content)
  {
    if Agreeable(chat, content) {
      forall events: seq<Event> | Cuts(events, content)
        ensures StreamCall(chat, events, content) == SendCall(chat, content)
      {
        AgreeableIsSame(chat, events);
      }
    } else {
      var events := Disagreement(chat, content);
      Refuted(chat, content, events);
    }
  }

  lemma AgreeableIsSame(chat: Chat, events: seq<Event>)
    requires Agreeable(chat, Concat(Deltas(events)))
    ensures var content := Concat(Deltas(events));
            StreamCall(chat, events, content) == SendCall(chat, content)
  {
    if chat.tools == {} {
      NeverTool(chat, Opening(false, []), events);
    } else if SendCall(chat, Concat(Deltas(events))) != NoCall {
      VerdictIgnoresCuts(chat, false, [], events);
    }
  }

  lemma Disagreement(chat: Chat, content: string) returns (events: seq<Event>)
    requires !Agreeable(chat, content)
    ensures Cuts(events, content) && StreamCall(chat, events, content) != SendCall(chat, content)
  {
    if Ambiguous(content) {
      TwoCuts(chat, content);
      events := [Delta(Blanks(content)), Delta(LStrip(content))];
    } else {
      assert SplitLines("") == [];
      OneCut(chat, content);
      events := [Delta(content)];
    }
  }

  lemma Refuted(chat: Chat, content: string, events: seq<Event>)
    requires Cuts(events, content) && StreamCall(chat, events, content) != SendCall(chat, content)
    ensures !SameCall(chat, content)
  {
  }

  /** Replies without a marked line are agreeable, and so are those that start with the marker. */
  lemma AgreeableReplies(chat: Chat, content: string)
    requires !HasMarkedLine(content) || (Marked(LStrip(content)) && !Ambiguous(content))
    ensures Agreeable(chat, content)
  {
    if !HasMarkedLine(content) {
      NoMarkedLine(chat.decode, SplitLines(content), 0);
    }
  }

  // ---- the same replies ------------------------------------------------------

  /** The model is reported before the first text, and stays the same. */
  ghost predicate Named(events: seq<Event>, model: string) {
    model != "" && forall k :: 0 <= k <= |events| && Deltas(events[..k]) != [] ==> LastModel("", events[..k]) == model
  }

  /** One reply, streamed and in one piece. */
  ghost predicate SameReply(p: Parse, a: Answer, model: string) {
    && p.end != Raised && Named(p.events, model)
    && (forall e <- p.events :: e.Usage? ==> e.usage != map[])
    && a == Answer(Concat(Deltas(p.events)), model, LastUsage(map[], p.events))
  }

  lemma {:induction false} LastModelFrom(start: string, events: seq<Event>)
    requires LastModel("", events) != ""
    ensures LastModel(start, events) == LastModel("", events)
  {
    if events != [] && !events[|events| - 1].Model? {
      LastModelFrom(start, events[..|events| - 1]);
    }
  }

  lemma {:induction false} LastUsageFrom(start: Usage, events: seq<Event>)
    requires forall e <- events :: e.Usage? ==> e.usage != map[]
    ensures LastUsage(start, events)
         == if LastUsage(map[], events) != map[] then LastUsage(map[], events) else start
  {
    if events != [] && !events[|events| - 1].Usage? {
      LastUsageFrom(start, events[..|events| - 1]);
    }
  }

  lemma NamedLast(start: string, events: seq<Event>, model: string)
    requires Named(events, model) && Deltas(events) != []
    ensures LastModel(start, events) == model
  {
    assert events[..|events|] == events;
    LastModelFrom(start, events);
  }

  lemma NamedPart(events: seq<Event>, n: nat, model: string)
    requires Named(events, model) && n <= |events|
    ensures Named(events[..n], model)
  {
    assert forall k :: 0 <= k <= n ==> events[..n][..k] == events[..k];
  }

  /** The label is by the model that is named. */
  lemma {:induction false} LabelName(chat: Chat, start: Round, events: seq<Event>, model: string)
    requires start == Opening(start.labelled, start.acts) && Named(events, model)
    requires Deltas(events) != []
    ensures NameAt(chat, start, events) == model
  {
    var init := events[..|events| - 1];
    NamedLast(ModelAt(chat.requested, start.acts), events, model);
    NameMore(chat, start, events);
    if Hear(chat, start, init).decided {
      Following(chat, start, init);
      NamedPart(events, |events| - 1, model);
      LabelName(chat, start, init, model);
    }
  }

  // ---- whole turns -----------------------------------------------------------

  /** The same requests, audit rows and usage; once completed, the same text under the same label. */
  predicate Alike(chat: Chat, acts: seq<Act>, se: Sending) {
    Requests(acts) == Requests(se.acts) && Rows(acts) == Rows(se.acts) && UsageAt(acts) == se.usage
  }

  predicate SameText(chat: Chat, acts: seq<Act>, se: Sending, model: string) {
    && se.model == model
    && (if se.content == "" then Pieces(acts) == []
        else Concat(Pieces(acts)) == Prefix(chat, model) + se.content && ModelAt(chat.requested, acts) == model)
  }

  predicate Agree(chat: Chat, st: Streaming, se: Sending, model: string) {
    && st.status == se.status && st.context == se.context && Alike(chat, st.acts, se)
    && (st.status == Going ==>
          Pieces(st.acts) == [] && !st.labelled && ModelAt(chat.requested, st.acts) == se.model)
    && (st.status == Completed ==> SameText(chat, st.acts, se, model))
  }

  /** A round that was heard out, beside the same reply in one piece. */
  predicate HeardOut(chat: Chat, e: Round, h: Sending, model: string) {
    && e.text == h.content && h.model == model && h.status == Going && Alike(chat, e.acts, h)
    && RoundCall(chat, e) == SendCall(chat, h.content)
    && (e.text != "" ==> ModelAt(chat.requested, e.acts) == model)
    && (if e.tool || e.text == "" then Pieces(e.acts) == [] && !e.labelled
        else Concat(Pieces(e.acts)) == Prefix(chat, model) + e.text)
    && (e.tool ==> e.text != "")
  }

  lemma HeardAlike(chat: Chat, st: Streaming, se: Sending, p: Parse, a: Answer, model: string)
    requires Agree(chat, st, se, model) && st.status == Going
    requires SameReply(p, a, model) && Agreeable(chat, a.content)
    ensures HeardOut(chat, Heed(chat, st.labelled, st.acts + [Asked(st.context)], p.events), Received(se, a), model)
  {
    var asked := st.acts + [Asked(st.context)];
    var e := Heed(chat, st.labelled, asked, p.events);
    OneAct(chat.requested, st.acts, Asked(st.context));
    OneAct(chat.requested, se.acts, Asked(se.context));
    RoundShows(chat, st.labelled, asked, p.events);
    LastUsageFrom(UsageAt(asked), p.events);
    if e.text != "" {
      NamedLast(ModelAt(chat.requested, asked), p.events, model);
      LabelName(chat, Opening(st.labelled, asked), p.events, model);
    }
    SameVerdict(chat, st.labelled, asked, p.events);
  }

  lemma SameVerdict(chat: Chat, labelled: bool, acts: seq<Act>, events: seq<Event>)
    requires Agreeable(chat, Concat(Deltas(events)))
    ensures var e, content := Heed(chat, labelled, acts, events), Concat(Deltas(events));
            && RoundCall(chat, e) == SendCall(chat, content)
            && (e.tool ==> content != "")
  {
    Following(chat, Opening(labelled, acts), events);
    if Heed(chat, labelled, acts, events).tool {
      ToolHasText(chat, labelled, acts, events);
    }
    if SendCall(chat, Concat(Deltas(events))) != NoCall {
      VerdictIgnoresCuts(chat, labelled, acts, events);
    }
  }

  lemma EndsAgree(chat: Chat, st: Streaming, e: Round, h: Sending, k: nat, call: Parsed, model: string)
    requires HeardOut(chat, e, h, model) && st.context == h.context && (!e.tool ==> call == NoCall)
    ensures Agree(chat, StreamEnd(chat, st, e, k, call), SendEnd(chat, h, k, call), model)
  {
    if e.tool {
      if call.Call? && k < chat.maxCalls {
        ToolsAgree(chat, st, e, h, k, call.tool, call.args, model);
      } else {
        AsIsAgrees(chat, st, e, h, model);
      }
    }
  }

  /** A marked reply that is not run is shown as it is. */
  lemma AsIsAgrees(chat: Chat, st: Streaming, e: Round, h: Sending, model: string)
    requires Alike(chat, e.acts, h) && e.text == h.content && e.text != "" && h.model == model
    requires st.context == h.context
    requires Pieces(e.acts) == [] && !e.labelled && ModelAt(chat.requested, e.acts) == model
    ensures var f := Show(chat, e, e.text);
            Agree(chat, Streaming(st.context, f.labelled, f.acts, Completed), h.(status := Completed), model)
  {
    Showing(chat, e, e.text);
    assert "" + (Prefix(chat, model) + e.text) == Prefix(chat, model) + e.text;
  }

  lemma ToolsAgree(chat: Chat, st: Streaming, e: Round, h: Sending, k: nat, tool: string, args: Args, model: string)
    requires Alike(chat, e.acts, h) && st.context == h.context && e.text == h.content && h.status == Going
    requires Pieces(e.acts) == [] && !e.labelled && ModelAt(chat.requested, e.acts) == h.model
    ensures Agree(chat, StreamTool(chat, st, e, k, tool, args), SendTool(chat, h, k, tool, args), model)
  {
    ToldAlike(chat, e.acts, h, ToolStatus(tool, args, k + 1));
    var told := e.acts + [Sent(ToolStatus(tool, args, k + 1))];
    match Outcome(chat, k, tool, args) {
      case None =>
        assert StreamTool(chat, st, e, k, tool, args) == Streaming(st.context, e.labelled, told, Aborted);
        assert SendTool(chat, h, k, tool, args) == h.(status := Aborted);
      case Some(result) =>
        var row := AuditRow(chat, tool, args, result);
        RanAlike(chat, told, h, row);
        var context := h.context + Feedback(chat, e.text, tool, result);
        assert StreamTool(chat, st, e, k, tool, args) == Streaming(context, e.labelled, told + [Stored(row)], Going);
        assert SendTool(chat, h, k, tool, args) == h.(context := context, acts := h.acts + [Stored(row)]);
    }
  }

  lemma ToldAlike(chat: Chat, acts: seq<Act>, h: Sending, what: Shown)
    requires Alike(chat, acts, h) && what.ToolStatus?
    ensures var told := acts + [Sent(what)];
            && Alike(chat, told, h) && Pieces(told) == Pieces(acts)
            && ModelAt(chat.requested, told) == ModelAt(chat.requested, acts)
  {
    OneAct(chat.requested, acts, Sent(what));
  }

  lemma RanAlike(chat: Chat, acts: seq<Act>, h: Sending, row: Row)
    requires Alike(chat, acts, h)
    ensures var ran := acts + [Stored(row)];
            && Alike(chat, ran, h.(acts := h.acts + [Stored(row)])) && Pieces(ran) == Pieces(acts)
            && ModelAt(chat.requested, ran) == ModelAt(chat.requested, acts)
  {
    OneAct(chat.requested, acts, Stored(row));
    OneAct(chat.requested, h.acts, Stored(row));
  }

  lemma TurnsAgree(chat: Chat, st: Streaming, se: Sending, k: nat, p: Parse, a: Answer, model: string)
    requires Agree(chat, st, se, model) && st.status == Going
    requires SameReply(p, a, model) && Agreeable(chat, a.content)
    ensures Agree(chat, StreamTurn(chat, st, k, p), SendTurn(chat, se, k, a), model)
  {
    HeardAlike(chat, st, se, p, a, model);
    var e := Heed(chat, st.labelled, st.acts + [Asked(st.context)], p.events);
    EndsAgree(chat, st, e, Received(se, a), k, RoundCall(chat, e), model);
  }

  /** The replies of a turn, streamed and in one piece, all by one model and all agreeable. */
  ghost predicate SameScript(chat: Chat, script: nat -> Parse, answers: nat -> Answer, model: string) {
    forall k: nat {:trigger SameReply(script(k), answers(k), model)} ::
      SameReply(script(k), answers(k), model) && Agreeable(chat, answers(k).content)
  }

  lemma NextAgrees(chat: Chat, script: nat -> Parse, answers: nat -> Answer, model: string,
                   st: Streaming, se: Sending, k: nat)
    requires SameScript(chat, script, answers, model) && Agree(chat, st, se, model)
    ensures Agree(chat, StreamMore(chat, st, k, script(k)), SendMore(chat, se, k, answers(k)), model)
  {
    if st.status == Going {
      assert SameReply(script(k), answers(k), model);
      TurnsAgree(chat, st, se, k, script(k), answers(k), model);
    }
  }

  lemma StartsAgree(chat: Chat, context: seq<Message>, model: string)
    ensures Agree(chat, Streaming(context, false, [], Going),
                  Sending(context, "", chat.requested, map[], [], Going), model)
  {
    NothingDone(chat.requested);
  }

  /** What holds of both runs at the start and is kept by a round of each. */
  lemma {:induction false} BothRuns(chat: Chat, script: nat -> Parse, answers: nat -> Answer, context: seq<Message>,
                                    n: nat, ok: (Streaming, Sending) -> bool)
    requires ok(Streaming(context, false, [], Going), Sending(context, "", chat.requested, map[], [], Going))
    requires forall k: nat, st: Streaming, se: Sending :: ok(st, se) ==>
               ok(StreamMore(chat, st, k, script(k)), SendMore(chat, se, k, answers(k)))
    ensures ok(StreamRun(chat, script, context, n), SendRun(chat, answers, context, n))
  {
    if n > 0 {
      BothRuns(chat, script, answers, context, n - 1, ok);
    }
  }

  lemma RunsAgree(chat: Chat, script: nat -> Parse, answers: nat -> Answer, model: string,
                  context: seq<Message>, n: nat)
    requires SameScript(chat, script, answers, model)
    ensures Agree(chat, StreamRun(chat, script, context, n), SendRun(chat, answers, context, n), model)
  {
    var ok := (st: Streaming, se: Sending) => Agree(chat, st, se, model);
    StartsAgree(chat, context, model);
    forall k: nat, st: Streaming, se: Sending | ok(st, se)
      ensures ok(StreamMore(chat, st, k, script(k)), SendMore(chat, se, k, answers(k)))
    {
      NextAgrees(chat, script, answers, model, st, se, k);
    }
    BothRuns(chat, script, answers, context, n, ok);
  }

  /** With the same replies, however the stream is cut, send and send_stream make the same requests
      with the same contexts, run the same tools to the same results, and end alike. When they
      complete they store the same row if the last reply has a text; if it has none, send stores a
      row all the same and send_stream stores none. */
  lemma SendAndStreamAgree(chat: Chat, script: nat -> Parse, answers: nat -> Answer, model: string,
                           context: seq<Message>)
    requires SameScript(chat, script, answers, model)
    ensures var st := StreamRun(chat, script, context, chat.maxCalls + 1);
            var se := SendRun(chat, answers, context, chat.maxCalls + 1);
            && st.status == se.status && st.context == se.context
            && Requests(st.acts) == Requests(se.acts) && Rows(st.acts) == Rows(se.acts)
            && (se.status == Completed ==>
                  StreamRows(chat, st.acts, true) == if se.content != "" then [SendRow(chat, se)] else [])
  {
    RunsAgree(chat, script, answers, model, context, chat.maxCalls + 1);
  }

  /** Both complete on a reply without text, and only send stores a row for it. */
  lemma EmptyReplyDiffers(chat: Chat, model: string, context: seq<Message>)
    requires model != ""
    ensures var script, answers := (k: nat) => Parse([], Finished), (k: nat) => Answer("", model, map[]);
            var st := StreamRun(chat, script, context, chat.maxCalls + 1);
            var se := SendRun(chat, answers, context, chat.maxCalls + 1);
            && SameScript(chat, script, answers, model)
            && st.status == se.status == Completed
            && StreamRows(chat, st.acts, true) == [] && SendRow(chat, se).content == Prefix(chat, model)
  {
    var script, answers := (k: nat) => Parse([], Finished), (k: nat) => Answer("", model, map[]);
    assert SplitLines("") == [];
    assert Agreeable(chat, "");
    forall k: nat ensures SameReply(script(k), answers(k), model) && Agreeable(chat, answers(k).content) {
      assert Deltas([]) == [];
    }
    FirstAnswerEnds(chat, answers, model, context);
    SendAndStreamAgree(chat, script, answers, model, context);
  }

  lemma FirstAnswerEnds(chat: Chat, answers: nat -> Answer, model: string, context: seq<Message>)
    requires model != "" && answers(0) == Answer("", model, map[])
    ensures var se := SendRun(chat, answers, context, chat.maxCalls + 1);
            se.status == Completed && se.content == "" && se.model == model
  {
    assert SplitLines("") == [];
    assert SendCall(chat, "") == NoCall;
    var se := SendRun(chat, answers, context, 1);
    assert SendRun(chat, answers, context, 0).status == Going;
    assert se == SendTurn(chat, SendRun(chat, answers, context, 0), 0, answers(0));
    SendStays(chat, answers, context, 1, chat.maxCalls + 1);
  }
}
