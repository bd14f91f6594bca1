/** What the model is shown of a conversation: the system prompt and a window of recent messages. */
module Context {
  import opened Wrappers

  datatype Role = System | User | Assistant | Tool

  datatype Message = Message(role: Role, content: string)

  /** The metadata column: nothing, a reply cut short, or the audit of a tool call. */
  datatype Note = Plain | Truncated | Ran(tool: string, args: map<string, string>, result: string)

  /** A row of the messages table. `tokens` is prompt_tokens, 0 where it is NULL: the code does not
      tell them apart. */
  datatype Row = Row(role: Role, content: string, tokens: int, model: string, note: Note)

  function EstimateTokens(text: string): int {
    if |text| / 4 > 1 then |text| / 4 else 1
  }

  function Cost(row: Row): int {
    if row.tokens != 0 then row.tokens else EstimateTokens(row.content)
  }

  /** What the rows from i on cost together. */
  function Total(rows: seq<Row>, i: nat): int
    requires i <= |rows|
    decreases |rows| - i
  {
    if i == |rows| then 0 else Cost(rows[i]) + Total(rows, i + 1)
  }

  /** Tool rows are for the audit only. */
  function Talk(history: seq<Row>): seq<Row> {
    if history == [] then []
    else if history[|history| - 1].role == Tool then Talk(history[..|history| - 1])
    else Talk(history[..|history| - 1]) + [history[|history| - 1]]
  }

  /** The tool rows are left out, and the others stay, each where it was among them. */
  lemma {:induction false} TalkIsTheRest(a: seq<Row>, b: seq<Row>)
    ensures Talk(a + b) == Talk(a) + Talk(b)
    ensures |b| == 1 ==> Talk(b) == if b[0].role == Tool then [] else b
  {
    if b == [] {
      assert a + b == a;
    } else {
      assert (a + b)[..|a + b| - 1] == a + b[..|b| - 1];
      TalkIsTheRest(a, b[..|b| - 1]);
      assert |b| == 1 ==> b[..0] == [] && b == [b[0]];
    }
  }

  lemma {:induction false} TalkIsWithoutTools(history: seq<Row>)
    ensures forall row <- Talk(history) :: row.role != Tool && row in history
  {
    if history != [] {
      TalkIsWithoutTools(history[..|history| - 1]);
    }
  }

  function Said(row: Row): Message {
    Message(row.role, row.content)
  }

  function Says(rows: seq<Row>): seq<Message> {
    if rows == [] then [] else Says(rows[..|rows| - 1]) + [Said(rows[|rows| - 1])]
  }

  /** Going back from n, where to stop: before the first row that no longer fits. */
  function Fitting(rows: seq<Row>, n: nat, remaining: int): (start: nat)
    requires n <= |rows|
    ensures start <= n
  {
    if n == 0 || remaining < Cost(rows[n - 1]) then n else Fitting(rows, n - 1, remaining - Cost(rows[n - 1]))
  }

  /** Where the window starts. The newest row is in it whatever it costs. */
  function WindowStart(rows: seq<Row>, remaining: int): (start: nat)
    ensures start <= |rows|
  {
    if rows == [] then 0 else Fitting(rows, |rows| - 1, remaining - Cost(rows[|rows| - 1]))
  }

  /** `budget or default`: a budget of zero counts as none given. */
  function Effective(budget: Option<int>, standard: int): int {
    if budget.Some? && budget.value != 0 then budget.value else standard
  }

  function Framed(system: string, rows: seq<Row>): seq<Message> {
    [Message(System, system)] + Says(rows)
  }

  function Built(system: string, history: seq<Row>, budget: int): seq<Message> {
    var rows := Talk(history);
    Framed(system, rows[WindowStart(rows, budget - EstimateTokens(system))..])
  }

  function Reversed(messages: seq<Message>): seq<Message> {
    if messages == [] then [] else [messages[|messages| - 1]] + Reversed(messages[..|messages| - 1])
  }

  /** How many of the first i rows are talk. */
  function TalkUpTo(history: seq<Row>, i: nat): nat
    requires i <= |history|
  {
    |Talk(history[..i])|
  }

  /** What `kept` holds when the rows of the talk from n on are in the window. */
  predicate Keeps(kept: seq<Message>, rows: seq<Row>, n: nat) {
    n <= |rows| && Reversed(kept) == Says(rows[n..]) && (kept == [] <==> n == |rows|)
  }

  /** The loop of build_context: newest first. */
  method KeepNewest(history: seq<Row>, room: int) returns (kept: seq<Message>)
    ensures Keeps(kept, Talk(history), WindowStart(Talk(history), room))
  {
    var remaining := room;
    ghost var rows := Talk(history);
    kept := [];
    var i := |history|;
    TalkEnds(history);
    while i > 0
      invariant 0 <= i <= |history| && Keeps(kept, rows, TalkUpTo(history, i))
      invariant WindowStart(rows, room) == StartBefore(rows, TalkUpTo(history, i), remaining)
    {
      i := i - 1;
      var row := history[i];
      OneBack(history, i, rows, TalkUpTo(history, i + 1), remaining, kept);
      if row.role == Tool {
        continue;
      }
      if remaining - Cost(row) < 0 && kept != [] {
        return;
      }
      remaining := remaining - Cost(row);
      kept := kept + [Said(row)];
    }
  }

  lemma TalkEnds(history: seq<Row>)
    ensures TalkUpTo(history, 0) == 0 && TalkUpTo(history, |history|) == |Talk(history)|
    ensures Keeps([], Talk(history), |Talk(history)|)
  {
    assert history[..|history|] == history && history[..0] == [];
    assert Talk(history)[|Talk(history)|..] == [];
  }

  lemma {:induction false} TalkPrefix(history: seq<Row>, i: nat)
    requires i <= |history|
    ensures Talk(history[..i]) <= Talk(history)
  {
    if i < |history| {
      TalkPrefix(history[..|history| - 1], i);
      assert history[..|history| - 1][..i] == history[..i];
    } else {
      assert history[..i] == history;
    }
  }

  /** What one row further back is to the window. */
  lemma OneBack(history: seq<Row>, i: nat, rows: seq<Row>, n: nat, remaining: int, kept: seq<Message>)
    requires i < |history| && rows == Talk(history) && n == TalkUpTo(history, i + 1)
    requires Keeps(kept, rows, n)
    ensures history[i].role == Tool ==> TalkUpTo(history, i) == n
    ensures history[i].role != Tool ==>
      && TalkUpTo(history, i) == n - 1 && Keeps(kept + [Said(history[i])], rows, n - 1)
      && StartBefore(rows, n, remaining)
         == if n < |rows| && remaining < Cost(history[i]) then n
            else StartBefore(rows, n - 1, remaining - Cost(history[i]))
  {
    TalkAt(history, i);
    if history[i].role != Tool {
      OneTalk(history, i);
      StepBack(rows, n, remaining);
      KeepsMore(kept, rows, n);
    }
  }

  /** A row that is talk is the last of the talk so far. */
  lemma OneTalk(history: seq<Row>, i: nat)
    requires i < |history| && history[i].role != Tool
    ensures var n := TalkUpTo(history, i + 1);
            0 < n <= |Talk(history)| && TalkUpTo(history, i) == n - 1 && Talk(history)[n - 1] == history[i]
  {
    TalkAt(history, i);
    TalkPrefix(history, i + 1);
    var soFar := Talk(history[..i + 1]);
    assert soFar[|soFar| - 1] == history[i];
  }

  lemma KeepsMore(kept: seq<Message>, rows: seq<Row>, n: nat)
    requires n > 0 && Keeps(kept, rows, n)
    ensures Keeps(kept + [Said(rows[n - 1])], rows, n - 1)
  {
    SaysMore(rows, n - 1, kept);
  }

  /** The first message is the system prompt; the others are the messages of the window, in their order, each
      with its own role and content. `start` is where the window begins among the history without tool rows. */
  method BuildContext(system: string, history: seq<Row>, budget: Option<int>, standard: int)
    returns (context: seq<Message>, ghost start: nat)
    ensures context == Built(system, history, Effective(budget, standard))
    ensures ShowsFrom(context, system, Talk(history), start)
    ensures Counted(history) ==>
              IsWindow(Talk(history), start,
                       (if budget.Some? && budget.value != 0 then budget.value else standard)
                       - if |system| / 4 > 1 then |system| / 4 else 1)
  {
    var room := Effective(budget, standard) - EstimateTokens(system);
    var kept := KeepNewest(history, room);
    context := [Message(System, system)] + Reversed(kept);
    start := WindowStart(Talk(history), room);
    BuiltShows(system, Talk(history), start);
    if Counted(history) {
      TalkIsCounted(history);
      StartIsWindow(Talk(history), room);
    }
  }

  /** The system prompt, and then the messages from `start` on, each with its own role and content. */
  predicate ShowsFrom(context: seq<Message>, system: string, rows: seq<Row>, start: nat) {
    && start <= |rows| && |context| == 1 + |rows| - start
    && context[0] == Message(System, system)
    && forall i :: start <= i < |rows| ==>
         context[1 + i - start].role == rows[i].role && context[1 + i - start].content == rows[i].content
  }

  lemma BuiltShows(system: string, rows: seq<Row>, start: nat)
    requires start <= |rows|
    ensures ShowsFrom(Framed(system, rows[start..]), system, rows, start)
  {
    EachSaid(rows[start..]);
    forall i | start <= i < |rows|
      ensures Framed(system, rows[start..])[1 + i - start] == Says(rows[start..])[i - start]
      ensures rows[start..][i - start] == rows[i]
    {
    }
  }

  lemma {:induction false} EachSaid(rows: seq<Row>)
    ensures |Says(rows)| == |rows|
    ensures forall i :: 0 <= i < |rows| ==>
              Says(rows)[i].role == rows[i].role && Says(rows)[i].content == rows[i].content
  {
    if rows != [] {
      EachSaid(rows[..|rows| - 1]);
    }
  }

  /** Where the window starts, when the rows from n on are in it. */
  function StartBefore(rows: seq<Row>, n: nat, remaining: int): nat
    requires n <= |rows|
  {
    if n == |rows| then WindowStart(rows, remaining) else Fitting(rows, n, remaining)
  }

  lemma StepBack(rows: seq<Row>, n: nat, remaining: int)
    requires 0 < n <= |rows|
    ensures StartBefore(rows, n, remaining)
         == if n < |rows| && remaining < Cost(rows[n - 1]) then n
            else StartBefore(rows, n - 1, remaining - Cost(rows[n - 1]))
  {
  }

  lemma TalkAt(history: seq<Row>, i: nat)
    requires i < |history|
    ensures Talk(history[..i + 1])
         == if history[i].role == Tool then Talk(history[..i]) else Talk(history[..i]) + [history[i]]
  {
    assert history[..i + 1][..i] == history[..i];
  }

  lemma SaysMore(rows: seq<Row>, n: nat, kept: seq<Message>)
    requires n < |rows| && Reversed(kept) == Says(rows[n + 1..])
    ensures Reversed(kept + [Said(rows[n])]) == Says(rows[n..])
  {
    assert (kept + [Said(rows[n])])[..|kept|] == kept;
    assert rows[n..] == [rows[n]] + rows[n + 1..];
    SaysConcat([rows[n]], rows[n + 1..]);
    assert [rows[n]][..0] == [];
  }

  lemma {:induction false} SaysConcat(a: seq<Row>, b: seq<Row>)
    ensures Says(a + b) == Says(a) + Says(b)
  {
    if b == [] {
      assert a + b == a;
    } else {
      assert (a + b)[..|a + b| - 1] == a + b[..|b| - 1];
      SaysConcat(a, b[..|b| - 1]);
    }
  }

  // ---- what the window is --------------------------------------------------

  predicate Counted(rows: seq<Row>) {
    forall row <- rows :: row.tokens >= 0
  }

  lemma {:induction false} TotalFalls(rows: seq<Row>, i: nat, j: nat)
    requires Counted(rows) && i <= j <= |rows|
    ensures Total(rows, i) >= Total(rows, j) >= 0
    decreases |rows| - i
  {
    if i < |rows| {
      assert rows[i] in rows;
      TotalFalls(rows, i + 1, if i == j then j + 1 else j);
    }
  }

  /** Going back from n: what is taken fits, and one row more would not. */
  lemma {:induction false} FittingIsLongest(rows: seq<Row>, n: nat, remaining: int)
    requires n <= |rows|
    ensures var start := Fitting(rows, n, remaining);
            && (start < n ==> Total(rows, start) - Total(rows, n) <= remaining)
            && (start > 0 ==> Total(rows, start - 1) - Total(rows, n) > remaining)
  {
    if n > 0 && remaining >= Cost(rows[n - 1]) {
      FittingIsLongest(rows, n - 1, remaining - Cost(rows[n - 1]));
    }
  }

  /** The window is, in their order, the longest run of the latest messages that fits what the system
      prompt leaves; or the newest message alone, if not even that fits. */
  lemma WindowIsLongest(rows: seq<Row>, remaining: int)
    requires Counted(rows)
    ensures var start := WindowStart(rows, remaining);
            && (forall j :: 0 <= j < start ==> Total(rows, j) > remaining)
            && (start < |rows| ==> Total(rows, start) <= remaining || start == |rows| - 1)
            && (rows != [] ==> start < |rows|)
  {
    if rows != [] {
      var n, start := |rows| - 1, WindowStart(rows, remaining);
      FittingIsLongest(rows, n, remaining - Cost(rows[n]));
      forall j | 0 <= j < start ensures Total(rows, j) > remaining {
        TotalFalls(rows, j, start - 1);
      }
    }
  }

  /** What the messages from i on cost: the tokens counted, or a quarter of the characters where none were,
      but one at least. */
  function Spent(rows: seq<Row>, i: nat): int
    requires i <= |rows|
    decreases |rows| - i
  {
    if i == |rows| then 0
    else
      var quarter := |rows[i].content| / 4;
      (if rows[i].tokens != 0 then rows[i].tokens else if quarter > 1 then quarter else 1) + Spent(rows, i + 1)
  }

  lemma {:induction false} SpentIsTotal(rows: seq<Row>, i: nat)
    requires i <= |rows|
    ensures Spent(rows, i) == Total(rows, i)
    decreases |rows| - i
  {
    if i < |rows| {
      SpentIsTotal(rows, i + 1);
    }
  }

  /** From `start` on the messages fit, and from before on they do not; or it is the newest alone. */
  predicate IsWindow(rows: seq<Row>, start: nat, room: int)
    requires start <= |rows|
  {
    && (rows != [] ==> start < |rows|)
    && (forall j :: 0 <= j < start ==> Spent(rows, j) > room)
    && (start < |rows| ==> Spent(rows, start) <= room || start == |rows| - 1)
  }

  lemma StartIsWindow(rows: seq<Row>, room: int)
    requires Counted(rows)
    ensures IsWindow(rows, WindowStart(rows, room), room)
  {
    WindowIsLongest(rows, room);
    forall j | 0 <= j <= |rows|
      ensures Spent(rows, j) == Total(rows, j)
    {
      SpentIsTotal(rows, j);
    }
  }

  lemma {:induction false} FittingGrows(rows: seq<Row>, n: nat, less: int, more: int)
    requires n <= |rows| && less <= more
    ensures Fitting(rows, n, more) <= Fitting(rows, n, less)
  {
    if n > 0 && less >= Cost(rows[n - 1]) {
      FittingGrows(rows, n - 1, less - Cost(rows[n - 1]), more - Cost(rows[n - 1]));
    }
  }

  lemma LargerBudgetStartsEarlier(rows: seq<Row>, less: int, more: int)
    requires less <= more
    ensures WindowStart(rows, more) <= WindowStart(rows, less)
  {
    if rows != [] {
      var cost := Cost(rows[|rows| - 1]);
      FittingGrows(rows, |rows| - 1, less - cost, more - cost);
    }
  }

  /** A larger budget only lets the window of the same messages start earlier. */
  lemma LargerBudgetExtends(system: string, history: seq<Row>, less: int, more: int) returns (i: nat, j: nat)
    requires less <= more
    ensures i <= j <= |Talk(history)|
    ensures Built(system, history, more) == Framed(system, Talk(history)[i..])
    ensures Built(system, history, less) == Framed(system, Talk(history)[j..])
  {
    var left := EstimateTokens(system);
    i, j := WindowStart(Talk(history), more - left), WindowStart(Talk(history), less - left);
    LargerBudgetStartsEarlier(Talk(history), less - left, more - left);
  }

  // ---- budgets of zero ------------------------------------------------------

  /** No budget empties the window: the newest message stays in it. */
  lemma WindowNeverEmpty(system: string, history: seq<Row>, budget: int)
    ensures |Built(system, history, budget)| == 1 <==> Talk(history) == []
  {
    var rows := Talk(history);
    EachSaid(rows[WindowStart(rows, budget - EstimateTokens(system))..]);
  }

  /** The budget asked for is the budget kept, for this history. */
  predicate Honoured(system: string, history: seq<Row>, budget: int, standard: int) {
    Built(system, history, Effective(Some(budget), standard)) == Built(system, history, budget)
  }

  /** Two messages that cost a token each. */
  function TwoWords(): seq<Row> {
    [Row(User, "a", 1, "", Plain), Row(Assistant, "b", 1, "", Plain)]
  }

  lemma TwoWordsWindow(room: int)
    ensures Talk(TwoWords()) == TwoWords() && Counted(TwoWords())
    ensures WindowStart(TwoWords(), room) == if room >= 2 then 0 else 1
  {
    var rows := TwoWords();
    assert rows[..1] == [rows[0]] && rows[..1][..0] == [];
    assert Talk(rows[..1]) == [rows[0]];
  }

  /** With room for less than two tokens the window is the newest message. */
  lemma NoRoom(rows: seq<Row>, room: int)
    requires Counted(rows) && rows != [] && room < 2
    ensures WindowStart(rows, room) == |rows| - 1
  {
    assert rows[|rows| - 1] in rows;
    if |rows| > 1 {
      assert rows[|rows| - 2] in rows;
    }
  }

  lemma TalkIsCounted(history: seq<Row>)
    requires Counted(history)
    ensures Counted(Talk(history))
  {
    TalkIsWithoutTools(history);
  }

  /** A budget is honoured for every history, token counts being natural, if and only if it is not zero,
      or the default that replaces it leaves no room for a second message either. */
  lemma HonouredIff(system: string, budget: int, standard: int)
    ensures (forall history :: Counted(history) ==> Honoured(system, history, budget, standard))
            <==> budget != 0 || standard - EstimateTokens(system) < 2
  {
    if budget == 0 {
      var left := EstimateTokens(system);
      if standard - left < 2 {
        forall history | Counted(history) ensures Honoured(system, history, budget, standard) {
          TalkIsCounted(history);
          if Talk(history) != [] {
            NoRoom(Talk(history), standard - left);
            NoRoom(Talk(history), 0 - left);
          }
        }
      } else {
        TwoWordsWindow(standard - left);
        TwoWordsWindow(0 - left);
        EachSaid(TwoWords()[0..]);
        EachSaid(TwoWords()[1..]);
        assert |Built(system, TwoWords(), standard)| == 3 && |Built(system, TwoWords(), 0)| == 2;
        assert !Honoured(system, TwoWords(), budget, standard);
      }
    }
  }
}
