/** The hold-back detector of send_stream: a round is a tool round, never shown, or is shown from its
    first character on. */
module Detector {
  import opened Text
  import opened Sse
  import opened ToolCall
  import opened Trace

  /** The local variables of one round, and the acts of the turn so far. `labelled` is prefix_done. */
  datatype Round = Round(held: string, decided: bool, tool: bool, text: string, labelled: bool, acts: seq<Act>)

  function Opening(labelled: bool, acts: seq<Act>): Round {
    Round("", false, false, "", labelled, acts)
  }

  /** _prefix_chunk: the routed model's name, at most once. */
  function Lead(chat: Chat, r: Round): seq<Act> {
    var p := Prefix(chat, ModelAt(chat.requested, r.acts));
    if r.labelled || p == "" then [] else [Sent(Piece(p))]
  }

  function Show(chat: Chat, r: Round, text: string): Round {
    r.(labelled := true, acts := r.acts + Lead(chat, r) + [Sent(Piece(text))])
  }

  predicate Decides(held: string) {
    |LStrip(held)| >= |TOOL_MARKER| || '\n' in held
  }

  predicate Verdict(chat: Chat, text: string) {
    chat.tools != {} && Marked(LStrip(text))
  }

  function HearText(chat: Chat, r: Round, t: string): Round {
    var s := r.(text := r.text + t);
    if r.decided then
      if r.tool then s else s.(acts := r.acts + [Sent(Piece(t))])
    else
      var h := s.(held := r.held + t);
      if !Decides(h.held) then h
      else
        var d := h.(decided := true, tool := Verdict(chat, h.held));
        if d.tool || d.held == "" then d else Show(chat, d, d.held)
  }

  function HearOne(chat: Chat, r: Round, e: Event): Round {
    match e
    case Delta(t) => HearText(chat, r, t)
    case _ => r.(acts := r.acts + [Heard(e)])
  }

  /** The events of a round, one after the other. */
  function Hear(chat: Chat, r: Round, events: seq<Event>): Round {
    if events == [] then r else HearOne(chat, Hear(chat, r, events[..|events| - 1]), events[|events| - 1])
  }

  /** The end of the stream: a short reply is decided now. */
  function Close(chat: Chat, r: Round): Round {
    if r.decided then r
    else
      var d := r.(tool := Verdict(chat, r.text));
      if d.tool || r.text == "" then d else Show(chat, d, d.text)
  }

  function Heed(chat: Chat, labelled: bool, acts: seq<Act>, events: seq<Event>): Round {
    Close(chat, Hear(chat, Opening(labelled, acts), events))
  }

  lemma HearSnoc(chat: Chat, r: Round, events: seq<Event>, e: Event)
    ensures Hear(chat, r, events + [e]) == HearOne(chat, Hear(chat, r, events), e)
  {
    assert (events + [e])[..|events|] == events;
  }

  // ---- the verdict ---------------------------------------------------------

  function Blanks(text: string): string {
    text[..Dropped(IsSpace, text, 0)]
  }

  /** The marker at the start, but after a line feed. */
  predicate Ambiguous(text: string) {
    Marked(LStrip(text)) && '\n' in Blanks(text)
  }

  lemma StripPart(p: string, t: string)
    requires p <= t
    ensures if LStrip(p) == "" then p <= Blanks(t) else LStrip(p) <= LStrip(t) && Blanks(p) == Blanks(t)
  {
    assert p == t[..|p|];
    var k := Dropped(IsSpace, p, 0);
    if k < |p| {
      DroppedIs(IsSpace, t, k);
    } else {
      assert forall i :: 0 <= i < k ==> IsSpace(t[i]);
    }
  }

  /** Deciding early decides as the whole text would. */
  lemma EarlyIsRight(p: string, t: string)
    requires p <= t && Decides(p) && !Ambiguous(t)
    ensures Marked(LStrip(p)) <==> Marked(LStrip(t))
  {
    StripPart(p, t);
    var a, b := LStrip(p), LStrip(t);
    assert p == Blanks(p) + a;
    if a == "" {
      assert '\n' in p;
      assert '\n' in Blanks(t);
    } else if Marked(b) {
      assert '\n' !in Blanks(p);
      ShortOfMarker(a, b);
    } else {
      assert Marked(a) ==> TOOL_MARKER <= b;
    }
  }

  /** A part of the marker holds no line feed. */
  lemma ShortOfMarker(a: string, b: string)
    requires a <= b && Marked(b) && (|a| >= |TOOL_MARKER| || '\n' in a)
    ensures Marked(a)
  {
    MarkerIsPlain();
    assert IsLineBreak('\n');
    assert forall i :: 0 <= i < |a| && i < |TOOL_MARKER| ==> a[i] == b[i] == TOOL_MARKER[i];
    assert |a| >= |TOOL_MARKER|;
  }

  /** Before it decides, a round holds back all its text. */
  predicate Undecided(r: Round) {
    if r.decided then r.text != "" else r.held == r.text && !r.tool
  }

  lemma ListenStep(chat: Chat, r: Round, piece: string, t: string)
    requires r.text + piece <= t && !Ambiguous(t) && Undecided(r) && (r.decided ==> r.tool == Verdict(chat, t))
    ensures var s := HearText(chat, r, piece);
            s.text == r.text + piece && Undecided(s) && (s.decided ==> s.tool == Verdict(chat, t))
  {
    if !r.decided && Decides(r.held + piece) {
      EarlyIsRight(r.held + piece, t);
    }
  }

  lemma {:induction false} Listening(chat: Chat, labelled: bool, acts: seq<Act>, events: seq<Event>, t: string)
    requires Concat(Deltas(events)) <= t && !Ambiguous(t)
    ensures var r := Hear(chat, Opening(labelled, acts), events);
            && r.text == Concat(Deltas(events)) && Undecided(r)
            && (r.decided ==> r.tool == Verdict(chat, t))
  {
    if events != [] {
      var init, e := events[..|events| - 1], events[|events| - 1];
      DeltasSoFar(events);
      Listening(chat, labelled, acts, init, t);
      if e.Delta? {
        ListenStep(chat, Hear(chat, Opening(labelled, acts), init), e.text, t);
      }
    }
  }

  lemma DeltasSoFar(events: seq<Event>)
    requires events != []
    ensures var init, e := events[..|events| - 1], events[|events| - 1];
            Concat(Deltas(events)) == if e.Delta? then Concat(Deltas(init)) + e.text else Concat(Deltas(init))
  {
    var init, e := events[..|events| - 1], events[|events| - 1];
    if e.Delta? {
      ConcatSnoc(Deltas(init), e.text);
    }
  }

  /** Unless the marker comes after a leading line feed, a round is a tool round exactly when tools
      are allowed and its whole text, blanks dropped, starts with the marker: how the text is cut
      into deltas does not matter. */
  lemma VerdictIgnoresCuts(chat: Chat, labelled: bool, acts: seq<Act>, events: seq<Event>)
    requires !Ambiguous(Concat(Deltas(events)))
    ensures var r := Heed(chat, labelled, acts, events);
            r.text == Concat(Deltas(events)) && r.tool == (chat.tools != {} && "TOOL_CALL" <= LStrip(r.text))
  {
    Listening(chat, labelled, acts, events, Concat(Deltas(events)));
  }

  predicate ToolRound(chat: Chat, events: seq<Event>) {
    Heed(chat, false, [], events).tool
  }

  /** Events whose texts, none empty, make up `t`. */
  predicate Cuts(events: seq<Event>, t: string) {
    Concat(Deltas(events)) == t && forall e <- events :: e.Delta? ==> e.text != ""
  }

  ghost predicate CutIndependent(chat: Chat, t: string) {
    forall a: seq<Event>, b: seq<Event> :: Cuts(a, t) && Cuts(b, t) ==>
      ToolRound(chat, a) == ToolRound(chat, b)
  }

  lemma OneCut(chat: Chat, t: string)
    requires t != ""
    ensures Cuts([Delta(t)], t) && ToolRound(chat, [Delta(t)]) == Verdict(chat, t)
  {
    DeltasSoFar([Delta(t)]);
    HearSnoc(chat, Opening(false, []), [], Delta(t));
    assert [] + [Delta(t)] == [Delta(t)];
  }

  /** The leading blanks first, and the rest in a second delta: decided too early. */
  lemma TwoCuts(chat: Chat, t: string)
    requires Ambiguous(t)
    ensures var cut := [Delta(Blanks(t)), Delta(LStrip(t))];
            Cuts(cut, t) && !ToolRound(chat, cut)
  {
    TwoTexts(Blanks(t), LStrip(t));
    BlanksStrip(Blanks(t));
    BlanksFirst(chat, Blanks(t), LStrip(t));
  }

  lemma BlanksFirst(chat: Chat, x: string, y: string)
    requires LStrip(x) == "" && '\n' in x
    ensures !ToolRound(chat, [Delta(x), Delta(y)])
  {
    var r := Opening(false, []);
    BlanksDecide(chat, x);
    HearTwo(chat, r, x, y);
    Settled(chat, HearText(chat, r, x), y);
  }

  lemma HearTwo(chat: Chat, r: Round, x: string, y: string)
    ensures Hear(chat, r, [Delta(x), Delta(y)]) == HearText(chat, HearText(chat, r, x), y)
  {
    var a, b := Delta(x), Delta(y);
    assert [] + [a] == [a] && [a] + [b] == [a, b];
    HearSnoc(chat, r, [], a);
    HearSnoc(chat, r, [a], b);
  }

  lemma Settled(chat: Chat, r: Round, t: string)
    requires r.decided
    ensures var s := HearText(chat, r, t); s.decided && s.tool == r.tool && Close(chat, s).tool == r.tool
  {
  }

  lemma TwoTexts(x: string, y: string)
    requires x != "" && y != ""
    ensures Cuts([Delta(x), Delta(y)], x + y)
  {
    DeltasSoFar([Delta(x)]);
    DeltasSoFar([Delta(x), Delta(y)]);
    assert [Delta(x), Delta(y)][..1] == [Delta(x)];
  }

  lemma BlanksDecide(chat: Chat, s: string)
    requires LStrip(s) == "" && '\n' in s
    ensures var r := HearText(chat, Opening(false, []), s); r.decided && !r.tool
  {
    assert "" + s == s;
  }

  lemma BlanksStrip(s: string)
    requires forall i :: 0 <= i < |s| ==> IsSpace(s[i])
    ensures LStrip(s) == ""
  {
    DroppedIs(IsSpace, s, |s|);
  }

  /** Exactly when the cuts do not matter: always, except for a marker after a leading line feed
      while tools are allowed. */
  lemma CutIndependentIff(chat: Chat, t: string)
    ensures CutIndependent(chat, t) <==> chat.tools == {} || !Ambiguous(t)
  {
    if chat.tools != {} && Ambiguous(t) {
      CutsDiffer(chat, t);
    } else {
      forall a: seq<Event> | Cuts(a, t) ensures ToolRound(chat, a) == Verdict(chat, t) {
        CutsAgree(chat, a);
      }
    }
  }

  lemma CutsAgree(chat: Chat, events: seq<Event>)
    requires chat.tools == {} || !Ambiguous(Concat(Deltas(events)))
    ensures ToolRound(chat, events) == Verdict(chat, Concat(Deltas(events)))
  {
    if chat.tools == {} {
      NeverTool(chat, Opening(false, []), events);
    } else {
      VerdictIgnoresCuts(chat, false, [], events);
    }
  }

  lemma CutsDiffer(chat: Chat, t: string)
    requires chat.tools != {} && Ambiguous(t)
    ensures !CutIndependent(chat, t)
  {
    OneCut(chat, t);
    TwoCuts(chat, t);
    var a, b := [Delta(t)], [Delta(Blanks(t)), Delta(LStrip(t))];
    Differ(chat, t, a, b);
  }

  lemma Differ(chat: Chat, t: string, a: seq<Event>, b: seq<Event>)
    requires Cuts(a, t) && Cuts(b, t) && ToolRound(chat, a) != ToolRound(chat, b)
    ensures !CutIndependent(chat, t)
  {
  }

  lemma {:induction false} NeverTool(chat: Chat, r: Round, events: seq<Event>)
    requires chat.tools == {} && !r.tool
    ensures !Hear(chat, r, events).tool && !Close(chat, Hear(chat, r, events)).tool
  {
    if events != [] {
      NeverTool(chat, r, events[..|events| - 1]);
    }
  }

  // ---- what is shown --------------------------------------------------------

  /** The lead-in a round puts before its text. */
  function LeadText(chat: Chat, labelled: bool, model: string): string {
    if labelled then "" else Prefix(chat, model)
  }

  /** What listening to a round leaves alone. */
  predicate OnlyShows(before: seq<Act>, after: seq<Act>) {
    && before <= after
    && Requests(after) == Requests(before) && Rows(after) == Rows(before)
    && (Ordered(before) ==> Ordered(after))
  }

  lemma Showing(chat: Chat, r: Round, text: string)
    ensures var s := Show(chat, r, text);
            && Concat(Pieces(s.acts))
               == Concat(Pieces(r.acts)) + (LeadText(chat, r.labelled, ModelAt(chat.requested, r.acts)) + text)
            && ModelAt(chat.requested, s.acts) == ModelAt(chat.requested, r.acts)
            && UsageAt(s.acts) == UsageAt(r.acts)
            && OnlyShows(r.acts, s.acts)
  {
    var lead := Lead(chat, r);
    if lead == [] {
      assert r.acts + lead == r.acts;
      assert "" + text == text;
    } else {
      OneAct(chat.requested, r.acts, lead[0]);
      ConcatSnoc(Pieces(r.acts), lead[0].what.text);
    }
    OneAct(chat.requested, r.acts + lead, Sent(Piece(text)));
    ConcatSnoc(Pieces(r.acts + lead), text);
  }

  function LastUsage(start: Usage, events: seq<Event>): Usage {
    if events == [] then start
    else
      match events[|events| - 1]
      case Usage(u) => u
      case _ => LastUsage(start, events[..|events| - 1])
  }

  /** The model last reported when the round was decided, or so far if it is not decided. */
  function NameAt(chat: Chat, start: Round, events: seq<Event>): string {
    if events != [] && Hear(chat, start, events[..|events| - 1]).decided
    then NameAt(chat, start, events[..|events| - 1])
    else LastModel(ModelAt(chat.requested, start.acts), events)
  }

  /** What has been shown of a round: nothing while it is held back or is a tool round; else its
      text so far, after the label. */
  predicate ShownSoFar(chat: Chat, start: Round, r: Round, model: string) {
    if r.tool || !r.decided then Pieces(r.acts) == Pieces(start.acts) && r.labelled == start.labelled
    else LabelledBy(chat, start, r, model)
  }

  predicate LabelledBy(chat: Chat, start: Round, r: Round, model: string) {
    && r.labelled
    && Concat(Pieces(r.acts)) == Concat(Pieces(start.acts)) + (LeadText(chat, start.labelled, model) + r.text)
  }

  predicate Follows(chat: Chat, start: Round, r: Round, events: seq<Event>) {
    && OnlyShows(start.acts, r.acts) && Undecided(r)
    && r.text == Concat(Deltas(events))
    && ModelAt(chat.requested, r.acts) == LastModel(ModelAt(chat.requested, start.acts), events)
    && UsageAt(r.acts) == LastUsage(UsageAt(start.acts), events)
    && ShownSoFar(chat, start, r, NameAt(chat, start, events))
  }

  lemma PieceMore(chat: Chat, start: Round, r: Round, model: string, t: string)
    requires OnlyShows(start.acts, r.acts) && ShownSoFar(chat, start, r, model) && r.decided
    ensures var s := HearText(chat, r, t);
            && OnlyShows(start.acts, s.acts) && ShownSoFar(chat, start, s, model)
            && ModelAt(chat.requested, s.acts) == ModelAt(chat.requested, r.acts) && UsageAt(s.acts) == UsageAt(r.acts)
  {
    OneAct(chat.requested, r.acts, Sent(Piece(t)));
    ConcatSnoc(Pieces(r.acts), t);
    AllParts(Concat(Pieces(start.acts)), LeadText(chat, start.labelled, model), r.text, t);
  }

  lemma AllParts(base: string, lead: string, text: string, t: string)
    ensures base + (lead + text) + t == base + (lead + (text + t))
  {
  }

  lemma DecidedNow(chat: Chat, start: Round, r: Round, t: string)
    requires OnlyShows(start.acts, r.acts) && ShownSoFar(chat, start, r, "") && !r.decided && !r.tool
    requires r.held == r.text && Decides(r.held + t)
    ensures var s := HearText(chat, r, t);
            && OnlyShows(start.acts, s.acts) && ShownSoFar(chat, start, s, ModelAt(chat.requested, r.acts))
            && ModelAt(chat.requested, s.acts) == ModelAt(chat.requested, r.acts) && UsageAt(s.acts) == UsageAt(r.acts)
  {
    var d := r.(text := r.text + t, held := r.held + t, decided := true, tool := Verdict(chat, r.held + t));
    assert LStrip("") == "";
    Showing(chat, d, d.held);
  }

  lemma TextMore(chat: Chat, start: Round, r: Round, model: string, t: string)
    requires OnlyShows(start.acts, r.acts) && ShownSoFar(chat, start, r, model) && Undecided(r)
    ensures var s := HearText(chat, r, t);
            && OnlyShows(start.acts, s.acts) && Undecided(s) && s.text == r.text + t
            && ShownSoFar(chat, start, s, if r.decided then model else ModelAt(chat.requested, r.acts))
            && ModelAt(chat.requested, s.acts) == ModelAt(chat.requested, r.acts) && UsageAt(s.acts) == UsageAt(r.acts)
  {
    if r.decided {
      PieceMore(chat, start, r, model, t);
    } else if Decides(r.held + t) {
      DecidedNow(chat, start, r, t);
    }
  }

  lemma HeardMore(chat: Chat, start: Round, r: Round, model: string, e: Event)
    requires OnlyShows(start.acts, r.acts) && ShownSoFar(chat, start, r, model) && !e.Delta?
    ensures var s := HearOne(chat, r, e);
            && OnlyShows(start.acts, s.acts) && s == r.(acts := s.acts)
            && ShownSoFar(chat, start, s, model)
            && ModelAt(chat.requested, s.acts) == (if e.Model? then e.model else ModelAt(chat.requested, r.acts))
            && UsageAt(s.acts) == if e.Usage? then e.usage else UsageAt(r.acts)
  {
    OneAct(chat.requested, r.acts, Heard(e));
  }

  lemma NameMore(chat: Chat, start: Round, events: seq<Event>)
    requires events != []
    ensures var r := Hear(chat, start, events[..|events| - 1]);
            NameAt(chat, start, events)
              == if r.decided then NameAt(chat, start, events[..|events| - 1])
                 else LastModel(ModelAt(chat.requested, start.acts), events)
  {
  }

  lemma {:induction false} Following(chat: Chat, start: Round, events: seq<Event>)
    requires start == Opening(start.labelled, start.acts)
    ensures Follows(chat, start, Hear(chat, start, events), events)
  {
    if events != [] {
      var init, e := events[..|events| - 1], events[|events| - 1];
      Following(chat, start, init);
      var r := Hear(chat, start, init);
      DeltasSoFar(events);
      NameMore(chat, start, events);
      if e.Delta? {
        TextMore(chat, start, r, NameAt(chat, start, init), e.text);
      } else {
        HeardMore(chat, start, r, NameAt(chat, start, init), e);
      }
    }
  }

  /** A round shows nothing if it is a tool round or empty; else the label, if it is still to come,
      and the whole text: nothing lost, repeated or reordered, whatever the cuts. */
  lemma RoundShows(chat: Chat, labelled: bool, acts: seq<Act>, events: seq<Event>)
    ensures var start, e := Opening(labelled, acts), Heed(chat, labelled, acts, events);
            && OnlyShows(acts, e.acts)
            && e.text == Concat(Deltas(events))
            && ModelAt(chat.requested, e.acts) == LastModel(ModelAt(chat.requested, acts), events)
            && UsageAt(e.acts) == LastUsage(UsageAt(acts), events)
            && (if e.tool || e.text == "" then Pieces(e.acts) == Pieces(acts) && e.labelled == labelled
                else LabelledBy(chat, start, e, NameAt(chat, start, events)))
  {
    var start := Opening(labelled, acts);
    Following(chat, start, events);
    var r := Hear(chat, start, events);
    if !r.decided && !Verdict(chat, r.text) && r.text != "" {
      Showing(chat, r, r.text);
    }
  }

  /** A tool round has a text, and needs tools. */
  lemma ToolHasText(chat: Chat, labelled: bool, acts: seq<Act>, events: seq<Event>)
    requires Heed(chat, labelled, acts, events).tool
    ensures chat.tools != {} && Concat(Deltas(events)) != ""
  {
    Following(chat, Opening(labelled, acts), events);
    if chat.tools == {} {
      NeverTool(chat, Opening(labelled, acts), events);
    }
    assert LStrip("") == "";
  }

  // ---- when it is shown -------------------------------------------------------

  /** Enough of a text to decide: as many characters as the marker has, leading blanks dropped, or a line. */
  predicate Enough(text: string) {
    |LStrip(text)| >= 9 || '\n' in text
  }

  lemma EnoughStays(p: string, t: string)
    requires p <= t && Enough(p)
    ensures Enough(t)
  {
    StripPart(p, t);
  }

  lemma DecidedMore(chat: Chat, r: Round, t: string)
    requires Undecided(r) && (r.decided <==> Enough(r.text))
    ensures HearText(chat, r, t).decided <==> Enough(r.text + t)
  {
    if r.decided {
      EnoughStays(r.text, r.text + t);
    }
  }

  /** A round is decided as soon as there is enough of its text, and not before. */
  lemma {:induction false} DecidedIff(chat: Chat, labelled: bool, acts: seq<Act>, events: seq<Event>)
    ensures Hear(chat, Opening(labelled, acts), events).decided <==> Enough(Concat(Deltas(events)))
  {
    if events != [] {
      var init := events[..|events| - 1];
      DecidedIff(chat, labelled, acts, init);
      Following(chat, Opening(labelled, acts), init);
      DeltasSoFar(events);
      var e := events[|events| - 1];
      if e.Delta? {
        DecidedMore(chat, Hear(chat, Opening(labelled, acts), init), e.text);
      }
    } else {
      assert LStrip("") == "";
    }
  }

  /** The label's name: the model last reported when there was enough of the text, or in all if there never
      was. */
  lemma {:induction false} NameWhenDecided(chat: Chat, labelled: bool, acts: seq<Act>, events: seq<Event>)
    ensures NameAt(chat, Opening(labelled, acts), events)
         == LastModel(ModelAt(chat.requested, acts), events[..EnoughAt(events)])
  {
    if events != [] {
      var init := events[..|events| - 1];
      DecidedIff(chat, labelled, acts, init);
      NameMore(chat, Opening(labelled, acts), events);
      EnoughBefore(events);
      if Hear(chat, Opening(labelled, acts), init).decided {
        NameWhenDecided(chat, labelled, acts, init);
      } else {
        assert events[..|events|] == events;
      }
    }
  }

  lemma {:induction false} TextsPart(events: seq<Event>, i: nat, j: nat)
    requires i <= j <= |events|
    ensures Concat(Deltas(events[..i])) <= Concat(Deltas(events[..j]))
  {
    if i < j {
      TextsPart(events, i, j - 1);
      assert events[..j][..j - 1] == events[..j - 1];
      DeltasSoFar(events[..j]);
    }
  }

  /** The first number below n that is ok, or n. */
  function First(ok: nat -> bool, n: nat): (i: nat)
    ensures i <= n && (i < n ==> ok(i)) && forall j: nat :: j < i ==> !ok(j)
  {
    if n == 0 then 0
    else
      var i := First(ok, n - 1);
      if ok(i) then i else n
  }

  function Ready(events: seq<Event>): nat -> bool {
    (i: nat) => i <= |events| && Enough(Concat(Deltas(events[..i])))
  }

  /** How many events it takes until there is enough text to decide; all of them if there never is. */
  function EnoughAt(events: seq<Event>): (i: nat)
    ensures i <= |events|
  {
    First(Ready(events), |events|)
  }

  lemma EnoughAtIs(events: seq<Event>)
    ensures var i := EnoughAt(events);
            && (i < |events| ==> Enough(Concat(Deltas(events[..i]))))
            && (forall j :: 0 <= j < i ==> !Enough(Concat(Deltas(events[..j]))))
  {
    forall j | 0 <= j < EnoughAt(events)
      ensures !Enough(Concat(Deltas(events[..j])))
    {
      assert !Ready(events)(j);
    }
  }

  lemma ReadyStays(events: seq<Event>, i: nat, j: nat)
    requires i <= j <= |events| && Ready(events)(i)
    ensures Ready(events)(j)
  {
    TextsPart(events, i, j);
    EnoughStays(Concat(Deltas(events[..i])), Concat(Deltas(events[..j])));
  }

  lemma EnoughBefore(events: seq<Event>)
    requires events != []
    ensures var n := |events| - 1;
            EnoughAt(events) == if Ready(events)(n) then EnoughAt(events[..n]) else |events|
    ensures var init := events[..|events| - 1]; init[..EnoughAt(init)] == events[..EnoughAt(init)]
  {
    var n := |events| - 1;
    var init := events[..n];
    forall i: nat | i <= n
      ensures Ready(init)(i) == Ready(events)(i)
    {
      assert init[..i] == events[..i];
    }
    var i := EnoughAt(events);
    if Ready(events)(n) {
      assert i <= n;
    } else if i < |events| {
      ReadyStays(events, i, n);
    }
  }

  lemma DecidesNow(chat: Chat, r: Round, t: string)
    requires Undecided(r) && !r.decided && HearText(chat, r, t).decided
    ensures HearText(chat, r, t).tool == Verdict(chat, r.text + t)
  {
  }

  lemma VerdictNow(chat: Chat, labelled: bool, acts: seq<Act>, events: seq<Event>)
    requires events != [] && !Hear(chat, Opening(labelled, acts), events[..|events| - 1]).decided
    ensures var r := Hear(chat, Opening(labelled, acts), events);
            r.decided ==> r.tool == Verdict(chat, Concat(Deltas(events)))
  {
    var init, last := events[..|events| - 1], events[|events| - 1];
    Following(chat, Opening(labelled, acts), init);
    DeltasSoFar(events);
    var r := Hear(chat, Opening(labelled, acts), init);
    if last.Delta? && HearText(chat, r, last.text).decided {
      DecidesNow(chat, r, last.text);
    }
  }

  /** What the verdict goes by: the text up to the moment there is enough of it, or all of it. */
  function Decisive(events: seq<Event>): string {
    Concat(Deltas(events[..EnoughAt(events)]))
  }

  lemma DecisiveBefore(events: seq<Event>)
    requires events != []
    ensures var init := events[..|events| - 1];
            Decisive(events) == if Enough(Concat(Deltas(init))) then Decisive(init) else Concat(Deltas(events))
  {
    EnoughBefore(events);
    assert events[..|events|] == events;
  }

  lemma {:induction false} HeardVerdict(chat: Chat, labelled: bool, acts: seq<Act>, events: seq<Event>)
    ensures var r := Hear(chat, Opening(labelled, acts), events);
            r.decided ==> r.tool == Verdict(chat, Decisive(events))
  {
    if events != [] {
      var init := events[..|events| - 1];
      var r := Hear(chat, Opening(labelled, acts), init);
      DecidedIff(chat, labelled, acts, init);
      DecisiveBefore(events);
      if r.decided {
        HeardVerdict(chat, labelled, acts, init);
        StaysDecided(chat, r, events[|events| - 1]);
      } else {
        VerdictNow(chat, labelled, acts, events);
      }
    }
  }

  lemma StaysDecided(chat: Chat, r: Round, e: Event)
    requires r.decided
    ensures HearOne(chat, r, e).decided && HearOne(chat, r, e).tool == r.tool
  {
  }

  /** Exactly when a round is a tool round: when tools are allowed, and the first part of its text that is
      enough to decide, or all of it if none is, starts with the marker, leading blanks dropped. */
  lemma VerdictIs(chat: Chat, labelled: bool, acts: seq<Act>, events: seq<Event>)
    ensures Heed(chat, labelled, acts, events).tool
       <==> chat.tools != {} && "TOOL_CALL" <= LStrip(Concat(Deltas(events[..EnoughAt(events)])))
  {
    var r, i := Hear(chat, Opening(labelled, acts), events), EnoughAt(events);
    HeardVerdict(chat, labelled, acts, events);
    if !r.decided {
      NeverEnough(chat, labelled, acts, events);
    }
  }

  lemma NeverEnough(chat: Chat, labelled: bool, acts: seq<Act>, events: seq<Event>)
    requires !Hear(chat, Opening(labelled, acts), events).decided
    ensures events[..EnoughAt(events)] == events
    ensures Hear(chat, Opening(labelled, acts), events).text == Concat(Deltas(events))
  {
    DecidedIff(chat, labelled, acts, events);
    Following(chat, Opening(labelled, acts), events);
    assert events[..|events|] == events;
    if EnoughAt(events) < |events| {
      ReadyStays(events, EnoughAt(events), |events|);
    }
  }

  /** Text is shown live: at any moment of a round that is no tool round all its text so far has been shown,
      after the label, once there is enough of it to decide; until then nothing has. */
  lemma ShownLive(chat: Chat, labelled: bool, acts: seq<Act>, events: seq<Event>)
    ensures var start, r := Opening(labelled, acts), Hear(chat, Opening(labelled, acts), events);
            var text := Concat(Deltas(events));
            if Enough(text) && !r.tool
            then Concat(Pieces(r.acts))
                 == Concat(Pieces(acts)) + (LeadText(chat, labelled, NameAt(chat, start, events)) + text)
            else Pieces(r.acts) == Pieces(acts)
  {
    Following(chat, Opening(labelled, acts), events);
    DecidedIff(chat, labelled, acts, events);
  }

  lemma LeadIs(chat: Chat, labelled: bool, model: string)
    ensures LeadText(chat, labelled, model)
         == if !labelled && chat.labels && model != "" then "`[" + model + "]`\n\n" else ""
  {
  }
}
