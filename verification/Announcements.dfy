/** The tool statuses that the caller of send_stream receives. */
module Announcements {
  import opened Wrappers
  import opened Text
  import opened Sse
  import opened ToolCall
  import opened Context
  import opened Trace
  import opened Detector
  import opened Turns
  import opened Audit

  /** The tool statuses among what the caller receives. */
  function StatusesOf(shows: seq<Shown>): seq<Shown> {
    if shows == [] then []
    else
      var before := StatusesOf(shows[..|shows| - 1]);
      if shows[|shows| - 1].ToolStatus? then before + [shows[|shows| - 1]] else before
  }

  lemma StatusSnoc(acts: seq<Act>, a: Act)
    ensures StatusesOf(Shows(acts + [a]))
         == StatusesOf(Shows(acts)) + if a.Sent? && a.what.ToolStatus? then [a.what] else []
  {
    OneAct("", acts, a);
    if a.Sent? {
      assert (Shows(acts) + [a.what])[..|Shows(acts)|] == Shows(acts);
    }
  }

  lemma ShowAnnouncesNone(chat: Chat, r: Round, text: string)
    ensures StatusesOf(Shows(Show(chat, r, text).acts)) == StatusesOf(Shows(r.acts))
  {
    var lead := Lead(chat, r);
    if lead == [] {
      assert r.acts + lead == r.acts;
    } else {
      StatusSnoc(r.acts, lead[0]);
    }
    StatusSnoc(r.acts + lead, Sent(Piece(text)));
  }

  lemma TextAnnouncesNone(chat: Chat, r: Round, t: string)
    ensures StatusesOf(Shows(HearText(chat, r, t).acts)) == StatusesOf(Shows(r.acts))
  {
    if r.decided {
      StatusSnoc(r.acts, Sent(Piece(t)));
    } else {
      var d := r.(text := r.text + t, held := r.held + t, decided := true, tool := Verdict(chat, r.held + t));
      ShowAnnouncesNone(chat, d, d.held);
    }
  }

  lemma HearOneAnnouncesNone(chat: Chat, r: Round, e: Event)
    ensures StatusesOf(Shows(HearOne(chat, r, e).acts)) == StatusesOf(Shows(r.acts))
  {
    if e.Delta? {
      TextAnnouncesNone(chat, r, e.text);
    } else {
      StatusSnoc(r.acts, Heard(e));
    }
  }

  lemma {:induction false} HearAnnouncesNone(chat: Chat, r: Round, events: seq<Event>)
    ensures StatusesOf(Shows(Hear(chat, r, events).acts)) == StatusesOf(Shows(r.acts))
  {
    if events != [] {
      HearAnnouncesNone(chat, r, events[..|events| - 1]);
      HearOneAnnouncesNone(chat, Hear(chat, r, events[..|events| - 1]), events[|events| - 1]);
    }
  }

  /** Status number i announces the call of reply i, as call number i + 1. */
  ghost predicate InOrder(chat: Chat, texts: nat -> string, statuses: seq<Shown>) {
    forall i :: 0 <= i < |statuses| ==>
      && statuses[i].ToolStatus? && statuses[i].round == i + 1
      && CallIn(chat.decode, texts(i)) == Call(statuses[i].tool, statuses[i].args)
  }

  ghost predicate Announced(chat: Chat, texts: nat -> string, acts: seq<Act>, going: bool, n: nat) {
    var statuses := StatusesOf(Shows(acts));
    |statuses| <= n && (going ==> |statuses| == n) && InOrder(chat, texts, statuses)
  }

  lemma OneMoreInOrder(chat: Chat, texts: nat -> string, statuses: seq<Shown>, tool: string, args: Args)
    requires InOrder(chat, texts, statuses) && CallIn(chat.decode, texts(|statuses|)) == Call(tool, args)
    ensures InOrder(chat, texts, statuses + [ToolStatus(tool, args, |statuses| + 1)])
  {
  }

  lemma ToolIsAnnounced(chat: Chat, s: Streaming, e: Round, k: nat, tool: string, args: Args)
    ensures StatusesOf(Shows(StreamTool(chat, s, e, k, tool, args).acts))
         == StatusesOf(Shows(e.acts)) + [ToolStatus(tool, args, k + 1)]
  {
    var status := Sent(ToolStatus(tool, args, k + 1));
    StatusSnoc(e.acts, status);
    match Outcome(chat, k, tool, args) {
      case None =>
      case Some(result) => StatusSnoc(e.acts + [status], Stored(AuditRow(chat, tool, args, result)));
    }
  }

  lemma ToolAnnounces(chat: Chat, texts: nat -> string, s: Streaming, e: Round, k: nat, tool: string, args: Args)
    requires Announced(chat, texts, e.acts, true, k) && CallIn(chat.decode, texts(k)) == Call(tool, args)
    ensures Announced(chat, texts, StreamTool(chat, s, e, k, tool, args).acts, true, k + 1)
  {
    ToolIsAnnounced(chat, s, e, k, tool, args);
    OneMoreInOrder(chat, texts, StatusesOf(Shows(e.acts)), tool, args);
  }

  lemma StreamEndAnnounces(chat: Chat, texts: nat -> string, s: Streaming, e: Round, k: nat)
    requires Announced(chat, texts, e.acts, true, k) && e.text == texts(k)
    ensures var t := StreamEnd(chat, s, e, k, RoundCall(chat, e));
            Announced(chat, texts, t.acts, t.status == Going, k + 1)
  {
    var call := RoundCall(chat, e);
    if call.Call? && k < chat.maxCalls {
      ToolAnnounces(chat, texts, s, e, k, call.tool, call.args);
    } else {
      ShowAnnouncesNone(chat, e, e.text);
    }
  }

  lemma StreamMoreAnnounces(chat: Chat, texts: nat -> string, s: Streaming, k: nat, reply: Parse)
    requires Announced(chat, texts, s.acts, s.status == Going, k) && texts(k) == Concat(Deltas(reply.events))
    ensures var t := StreamMore(chat, s, k, reply); Announced(chat, texts, t.acts, t.status == Going, k + 1)
  {
    if s.status == Going {
      var asked := s.acts + [Asked(s.context)];
      var start := Opening(s.labelled, asked);
      var r, e := Hear(chat, start, reply.events), Heed(chat, s.labelled, asked, reply.events);
      StatusSnoc(s.acts, Asked(s.context));
      HearAnnouncesNone(chat, start, reply.events);
      if reply.end != Raised {
        RoundShows(chat, s.labelled, asked, reply.events);
        ShowAnnouncesNone(chat, r.(tool := false), r.text);
        StreamEndAnnounces(chat, texts, s, e, k);
      }
    }
  }

  /** Over a whole turn the caller is told of the calls of the replies, in order and numbered from one. */
  lemma StreamAnnounces(chat: Chat, script: nat -> Parse, texts: nat -> string, start: seq<Message>, n: nat)
    requires ScriptTexts(script, texts)
    ensures var s := StreamRun(chat, script, start, n); Announced(chat, texts, s.acts, s.status == Going, n)
  {
    var ok := (k: nat, s: Streaming) => Announced(chat, texts, s.acts, s.status == Going, k);
    forall k: nat, s: Streaming | ok(k, s)
      ensures ok(k + 1, StreamMore(chat, s, k, script(k)))
    {
      StreamMoreAnnounces(chat, texts, s, k, script(k));
    }
    StreamInduction(chat, script, start, n, ok);
  }
}
