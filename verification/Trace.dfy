/** What a chat turn does, act by act: the requests it makes, what it hears and shows, the rows it
    stores. */
module Trace {
  import opened Wrappers
  import opened Text
  import opened Sse
  import opened ToolCall
  import opened Context

  /** What the caller of send_stream receives. */
  datatype Shown = Piece(text: string) | ToolStatus(tool: string, args: Args, round: nat) | Done(usage: Usage)

  datatype Act = Asked(context: seq<Message>) | Heard(event: Event) | Sent(what: Shown) | Stored(row: Row)

  /** The settings and the collaborators of a turn: the tools the persona may use, CHAT_MAX_TOOL_CALLS,
      the requested model and whether the routed one is shown, and the tools themselves. `run` gives
      the serialised result of a call in a round, or None for an exception; `refusal` the serialised
      error for a tool that is not enabled; `describe` the text of the audit row and `report` that of
      the message that brings the model the result; `loads` says whether a text is JSON. */
  datatype Chat = Chat(tools: set<string>, maxCalls: nat, requested: string, labels: bool, decode: CallDecoder,
                       run: (nat, string, Args) -> Option<string>, refusal: string -> string,
                       describe: (string, Args) -> string, report: (string, string) -> string,
                       loads: string -> bool)

  /** routed_model_prefix. */
  function Prefix(chat: Chat, model: string): string {
    if chat.labels && model != "" then Label(model) else ""
  }

  function Pieces(acts: seq<Act>): seq<string> {
    if acts == [] then []
    else
      var before := Pieces(acts[..|acts| - 1]);
      match acts[|acts| - 1]
      case Sent(Piece(text)) => before + [text]
      case _ => before
  }

  function Shows(acts: seq<Act>): seq<Shown> {
    if acts == [] then []
    else
      var before := Shows(acts[..|acts| - 1]);
      match acts[|acts| - 1]
      case Sent(what) => before + [what]
      case _ => before
  }

  function Requests(acts: seq<Act>): seq<seq<Message>> {
    if acts == [] then []
    else
      var before := Requests(acts[..|acts| - 1]);
      match acts[|acts| - 1]
      case Asked(context) => before + [context]
      case _ => before
  }

  function Rows(acts: seq<Act>): seq<Row> {
    if acts == [] then []
    else
      var before := Rows(acts[..|acts| - 1]);
      match acts[|acts| - 1]
      case Stored(row) => before + [row]
      case _ => before
  }

  /** The model last heard of. */
  function ModelAt(requested: string, acts: seq<Act>): string {
    if acts == [] then requested
    else
      match acts[|acts| - 1]
      case Heard(Model(m)) => m
      case _ => ModelAt(requested, acts[..|acts| - 1])
  }

  /** The usage last heard of. */
  function UsageAt(acts: seq<Act>): Usage {
    if acts == [] then map[]
    else
      match acts[|acts| - 1]
      case Heard(Usage(u)) => u
      case _ => UsageAt(acts[..|acts| - 1])
  }

  /** No text is shown before a tool status. */
  predicate Ordered(acts: seq<Act>) {
    acts != [] ==>
      && Ordered(acts[..|acts| - 1])
      && (acts[|acts| - 1].Sent? && acts[|acts| - 1].what.ToolStatus? ==> Pieces(acts[..|acts| - 1]) == [])
  }

  lemma OneAct(requested: string, acts: seq<Act>, a: Act)
    ensures Pieces(acts + [a]) == Pieces(acts) + (if a.Sent? && a.what.Piece? then [a.what.text] else [])
    ensures Shows(acts + [a]) == Shows(acts) + (if a.Sent? then [a.what] else [])
    ensures Requests(acts + [a]) == Requests(acts) + (if a.Asked? then [a.context] else [])
    ensures Rows(acts + [a]) == Rows(acts) + (if a.Stored? then [a.row] else [])
    ensures ModelAt(requested, acts + [a])
         == if a.Heard? && a.event.Model? then a.event.model else ModelAt(requested, acts)
    ensures Ordered(acts + [a]) <==> Ordered(acts) && (a.Sent? && a.what.ToolStatus? ==> Pieces(acts) == [])
    ensures UsageAt(acts + [a]) == if a.Heard? && a.event.Usage? then a.event.usage else UsageAt(acts)
  {
    assert (acts + [a])[..|acts|] == acts;
  }

  /** Ordered, said of what the caller receives. */
  lemma {:induction false} TextComesLast(acts: seq<Act>, i: nat, j: nat)
    requires Ordered(acts) && i < j < |Shows(acts)| && Shows(acts)[i].Piece?
    ensures !Shows(acts)[j].ToolStatus?
  {
    if acts != [] {
      var init := acts[..|acts| - 1];
      if j < |Shows(init)| {
        TextComesLast(init, i, j);
      } else {
        ShownPiece(init, i);
      }
    }
  }

  lemma {:induction false} ShownPiece(acts: seq<Act>, i: nat)
    requires i < |Shows(acts)| && Shows(acts)[i].Piece?
    ensures Pieces(acts) != []
  {
    if acts != [] && i < |Shows(acts[..|acts| - 1])| {
      ShownPiece(acts[..|acts| - 1], i);
    }
  }

  /** The texts among what the caller receives. */
  function TextsOf(shows: seq<Shown>): seq<string> {
    if shows == [] then []
    else
      var before := TextsOf(shows[..|shows| - 1]);
      if shows[|shows| - 1].Piece? then before + [shows[|shows| - 1].text] else before
  }

  lemma TextsSnoc(shows: seq<Shown>, what: Shown)
    ensures TextsOf(shows + [what]) == TextsOf(shows) + (if what.Piece? then [what.text] else [])
  {
    assert (shows + [what])[..|shows|] == shows;
  }

  lemma {:induction false} PiecesAreShown(acts: seq<Act>)
    ensures TextsOf(Shows(acts)) == Pieces(acts)
  {
    if acts != [] {
      var init, a := acts[..|acts| - 1], acts[|acts| - 1];
      PiecesAreShown(init);
      if a.Sent? {
        TextsSnoc(Shows(init), a.what);
      }
    }
  }

  lemma {:induction false} OrderedPart(part: seq<Act>, acts: seq<Act>)
    requires part <= acts && Ordered(acts)
    ensures Ordered(part)
  {
    if |part| < |acts| {
      OrderedPart(part, acts[..|acts| - 1]);
    } else {
      assert part == acts;
    }
  }
}
