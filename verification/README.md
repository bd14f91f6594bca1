# Octo: the run queue and the chat core, modelled in Dafny

Two parts of the service are modelled here and properties of them are proved.

**The run queue, the consent gate and the scheduler** (`src/octo/queue.py`, `approvals.py`, `models.py`,
`worker/main.py`, `worker/scheduler.py`). N workers claim rows of the table `runs`, keep a lease, park a gated run
until a human decides, crash, and are reaped; a scheduler enqueues runs. Each `async with pool.connection()` block is
one transaction. It is written twice: as a method over a `Database` object whose tables it updates, and as a function
on database values that the method is proved against. `System` puts these functions together as one state machine:
any number of workers with a place of their own between two transactions of `process_once`, humans, the reaper, the
scheduler and the clock, in any interleaving. The invariant of `Safety` is kept by every step, and the results of
`Guarantees`, `Endings`, `Leases`, `Rejection`, `Fairness` and `Schedules` hold of every run of that machine. `SkipLocked` and
`SkipLockedTick` split the claim query and the tick into taking row locks and committing.

**The streaming chat core** (`src/octo/chat.py`, `api/openai_compat.py`, `providers/claude.py`). The byte reader, the
printer it must undo, the shim that rewrites a stream in flight, the detector that holds back tool calls, the bounded
tool loop of `send` and of `send_stream`, and the window of messages the model is shown. Loops are methods with
invariants, proved against functions on whole byte strings, event lists and replies. The local variables that
`send_stream` keeps across its suspension points are the fields of a `Generator`.

`dafny verify dfyconfig.toml` checks everything. Nothing was executed: the proofs are about the model.

| file | what it holds |
|---|---|
| `Models`, `Store` | statuses, legal moves, rows; the tables and the guarded `transition` |
| `Queue`, `Approvals`, `Scheduler`, `Worker` | the transactions, each as a function and a method; `process_once` |
| `System`, `Lifecycle`, `Safety`, `Projection` | the state machine, the invariant, and every step seen from one run |
| `Guarantees`, `Endings`, `Leases`, `Rejection`, `Fairness`, `Schedules` | what holds of every run of the machine |
| `SkipLocked`, `SkipLockedTick` | `FOR UPDATE SKIP LOCKED` in two phases |
| `Sse`, `Claude`, `UnaryCodec`, `Shim` | reader, printer, a codec that meets the codec law, and the rewriting relay |
| `ToolCall`, `Context`, `Trace`, `Detector` | tool call syntax, the window, what a turn does, the hold-back detector |
| `Turns`, `Audit`, `Announcements`, `Agreement`, `Conversations` | both tool loops, what a turn does told from its replies, the agreement of the loops, and the messages they store |
| `Text`, `Sets`, `Wrappers` | string operations, set sizes, options and results |

## Assumptions

- One monotone clock, in seconds; `now()` is the same all through a transaction. `claim` takes an oldest candidate;
  which one, among rows created in the same second, is left open.
- The registry of agents and the cron calendar do not change. The calendar is an abstract function that returns an
  instant strictly after the time it is given, and none between (`Scheduler.Regular`).
- JSON is a codec pair: what is dumped is one line without outer blanks, is not `[DONE]`, and loads back
  (section 7 of RFC 8259). `UnaryCodec.UnaryIsLawful` shows that such a codec exists. Framing is the subset of
  section 9.2.6 of the WHATWG HTML Standard that the code reads: line feeds only, `data: ` lines only.
- A byte is a character. Tool results, provider replies and executor outcomes are parameters.

## Findings

Where the code does less than its documentation says, or than one would expect, the model follows the code, and a
lemma says exactly when the expectation is met.

| what fails | input | exactly when it holds |
|---|---|---|
| A rejected run was never executed ("only humans decide", `src/octo/approvals.py:1-6`): `finish` and `request` check the status and not `locked_by` (`src/octo/models.py:68-74`), so a worker that stalled past its lease can park a run that was approved meanwhile and is being executed by another | `Rejection.StaleAsker` | `max_attempts <= 1`: `Rejection.RejectedNeverExecutedIff` |
| The detector's verdict does not depend on how a reply is cut into deltas: a line feed among the leading blanks decides early (`src/octo/chat.py:435`) | `Detector.TwoCuts` | no tools, or no line feed before a leading marker: `Detector.CutIndependentIff` |
| `send` and `send_stream` make the same of a reply: one looks for the marker on any line, the other at the start (`src/octo/chat.py:140-143`, `437`) | `Agreement.Disagreement` | `send` finds no call, or the marker is at the start with no line feed before it: `Agreement.SameCallIff` |
| `send` and `send_stream` store the same row: with an empty last reply `send` stores a row and `send_stream` none (`src/octo/chat.py:324-334`, `469-470`) | `Agreement.EmptyReplyDiffers` | the last reply has a text: `Agreement.SendAndStreamAgree` |
| The shim keeps the content it relays: the frame that takes the label is replaced whole, so other payload lines in it are lost (`src/octo/api/openai_compat.py:159`) | `Shim.TwoLinesLoseOne` | the reader misses nothing of the other lines; without a `[DONE]` among them: none says anything: `Shim.FaithfulIff`, `Shim.NotMissedIffAlone` |
| `max_attempts` bounds the attempts: `enqueue` takes any number (`src/octo/queue.py:25`), and a run enqueued with less than one is still claimed once | `Guarantees.ClaimedAnyway` with any number below 1, by `Guarantees.ClaimedOnce` | `max_attempts >= 1`: `Guarantees.AttemptsBoundedIff` |
| `build_context(budget=b)` shows the window of budget `b`: `budget or default` (`src/octo/chat.py:169`) puts the default in place of 0 | `Context.TwoWords` | `b` is not 0, or the default leaves no room for a second message either: `Context.HonouredIff` |

`src/octo/models.py:1` has `transition()` as the only way a status changes; `claim` and `reap_expired` write it
directly, and nothing ever sets `cancelled`. The audit trail is faithful all the same
(`Guarantees.AuditTrailFaithful`). No budget empties the window of a history that has messages
(`Context.WindowNeverEmpty`).

## Model

| member | source | states |
|---|---|---|
| Models.LegalMoves | src/octo/models.py:26-38 | The moves a run can make from each state; the terminal states are those without one |
| Store.Transition | src/octo/models.py:50-81 | The guarded move succeeds exactly when the pair is allowed and the row is in the expected state; then it writes the row and one audit event, else nothing |
| Queue.Enqueue | src/octo/queue.py:18-41 | A queued run, available now, with no attempt yet and its first audit event, or a constraint failure that changes nothing |
| System.EnqueueColumns | src/octo/queue.py:18-41 | The step of the state machine adds the same run |
| Queue.Claim | src/octo/queue.py:44-75 | None exactly when no unlocked queued run is available; else an oldest such run now runs, locked by the worker until now plus the lease in minutes, with one more attempt and an audit event, and nothing else changed |
| Queue.Heartbeat | src/octo/queue.py:78-91 | True exactly for the worker that holds the running run; only then the lease ends the given minutes from now |
| Queue.Finish | src/octo/queue.py:94-123 | A running run is completed if the report says so and failed if not, with its result, error and cost, the old session where none is reported, unlocked and dated; any other run raises and stays as it was |
| Queue.ReapExpired | src/octo/queue.py:137-184 | Exactly the unlocked running runs whose lease ends before now are requeued, or failed for good when attempts are used up, with one event each; returns their number |
| Approvals.Request | src/octo/approvals.py:18-41 | One pending row with the question and the run parked, unlocked, with its attempt given back; both or neither |
| Approvals.Decide | src/octo/approvals.py:55-83 | The pending rows are decided and the run moves to queued or rejected; without one it raises; a failure changes nothing |
| Approvals.DecideColumns | src/octo/approvals.py:55-83 | Yes queues the run, no rejects and dates it; every pending row takes the answer, the time, the channel and the note, and no other row changes |
| Worker.ProcessOnce | src/octo/worker/main.py:28-106 | An undisturbed call claims an oldest run and settles it, or finds the queue empty |
| Worker.SettleOutcome | src/octo/worker/main.py:40-106 | An unknown agent fails with that error; a gated run without an approved row waits, its attempt given back and its question asked; any other is executed once and is completed or failed as reported, with what was reported and its tags; no other run changes |
| Safety.Reachable | src/octo/worker/main.py:28-106 | The invariant of runs and workers holds after any sequence of steps of any parties |
| Projection.Projects | src/octo/models.py:50-81 | Whatever step is taken by whom, a run undergoes one of eight operations, or none |
| Guarantees.ExecutionsWithinBudget | src/octo/queue.py:56-64 | In every reachable state executions plus parkings never exceed claims, attempts are claims minus parkings and within the budget, strictly below it while queued or waiting, and the executor was invoked at most that often |
| Guarantees.AttemptsBoundedIff | src/octo/queue.py:18-64 | Over every interleaving a run with the given max_attempts has no more attempts than that, if and only if that is at least one |
| Guarantees.LifecycleBound | src/octo/queue.py:137-184 | Under any interleaving a run parks at most as often as its budget, and has at most 1 + 2B + 3·parks, hence 1 + 5B, status changes |
| Guarantees.FusedLifecycleBound | src/octo/worker/main.py:45-52 | With gate check and parking as one step a run parks at most once and has at most 2B + 4 status changes |
| Guarantees.AuditTrailFaithful | src/octo/models.py:28-81 | The recorded status changes lead from nothing to queued along allowed edges, each from where the last ended, to the current status; a terminal one is the last |
| Guarantees.HistoryStays | src/octo/models.py:75-81 | Events are only appended, identity columns never change, and decided consent rows stay |
| Guarantees.TerminalIsFrozen | src/octo/models.py:26-38 | Once a run has ended, no later step changes a column other than tags, a consent row or its status changes |
| Guarantees.ConsentBeforeExecution | src/octo/worker/main.py:45-52 | If a gated run's executor was ever invoked, an approved row of that run exists, then and ever after |
| Guarantees.ConsentOnlyByDecision | src/octo/approvals.py:55-83 | Only a positive decision on that very run makes the approved row |
| Guarantees.ConsentConserved | src/octo/approvals.py:18-83 | One pending row exactly while the run waits, one approved row per grant, one declined row exactly when rejected, one row per parking |
| Guarantees.SecondDecisionIsNothing | src/octo/approvals.py:69-75 | A second decision, either way, changes nothing |
| Guarantees.LeaseColumns | src/octo/queue.py:105-115 | In every reachable state a run is locked and leased exactly while it runs and dated finished exactly when completed, failed or rejected |
| Endings.EndedIff | src/octo/worker/main.py:82-97 | Over every interleaving a run is completed if and only if a worker that had executed it reported success while it was running; likewise failed by such a report of failure, by an unknown agent or by its last lease running out, and rejected by a human's no |
| Endings.ReportStays | src/octo/queue.py:94-123 | From such a report on, the row says what was reported, for good |
| Guarantees.ReapRecovers | src/octo/queue.py:137-184 | In every reachable state a reap moves exactly the unlocked running runs whose lease ends before now, and once the clock is past all leases nothing runs any more |
| Leases.LeaseProtects | src/octo/queue.py:78-91 | A run that was claimed, or whose holder's heartbeat came, for some minutes is moved by no reap within these minutes, whatever happens meanwhile, unless a lease is shortened |
| Leases.LeaseRunsOut | src/octo/queue.py:137-160 | Once they are over, a run that was neither moved nor extended is taken from its holder by the first reap that does not pass over it |
| Rejection.RejectedNeverExecutedIff | src/octo/models.py:68-74 | "A rejected run was never executed" holds over every interleaving if and only if the run was enqueued with at most one attempt |
| Rejection.StaleAskerBreaksPromise | src/octo/worker/main.py:47-52 | With two attempts, the interleaving in which a worker that stalled for more than 15 minutes parks the approved run that another executes |
| Fairness.BoundedOvertaking | src/octo/queue.py:60-63 | With serial claims a waiting run is passed only by runs created no later, and no more often than these can still be claimed: nothing for those that are over, else the budget without a gate, and behind one twice the budget, or the budget and one if gate check and parking are one step |
| Fairness.CreditAfterStep | src/octo/queue.py:56-64 | Every claim of a run lowers what it can still be claimed by one at least, and no step raises it |
| Scheduler.Tick | src/octo/worker/scheduler.py:23-51 | Every enabled unlocked row whose instant has come fires once, whatever it has done before: a queued run of one attempt with its event, and the next instant after now; no other row changes; returns their number |
| Scheduler.CreateSchedule | src/octo/api/routes.py:126-149 | 404 for an unknown agent, 422 for an invalid expression, both changing nothing; else a row for the key, or the row that has it enabled, and the id of that row |
| Scheduler.UpsertColumns | src/octo/api/routes.py:136-146 | A row for the key is enabled and otherwise left alone; a new row is enabled, in the given zone, and due at its next instant |
| Scheduler.ToggleSchedule | src/octo/api/routes.py:161-173 | Flips the flag of the row and returns it, or finds none |
| Scheduler.SyncFromRegistry | src/octo/worker/scheduler.py:54-72 | One row for each manifest default whose key has none, and the list of those inserted |
| Scheduler.SyncKeepsAndProvides | src/octo/worker/scheduler.py:54-72 | A sync leaves every existing row as it is, and afterwards every default has a row |
| Scheduler.SyncAddsTheMissing | src/octo/worker/scheduler.py:54-72 | It adds rows only for defaults that had none, in UTC, enabled and due at their next instant |
| Scheduler.ReportIsInserted | src/octo/worker/scheduler.py:70-72 | The report names exactly the defaults inserted, in the order of the registry |
| Scheduler.ResyncChangesNothing | src/octo/worker/scheduler.py:57-58 | Where every default has a row, another sync changes nothing |
| Schedules.FiresOncePerInstant | src/octo/worker/scheduler.py:24-48 | Over any interleaving of ticks, toggles, upserts, syncs and missed periods, between two firings of a schedule lies a cron instant after the first and not after the second, and its runs are as many as its firings |
| Schedules.TickFiresExactlyTheDue | src/octo/worker/scheduler.py:28-51 | A tick that skips nothing gives each enabled row whose instant has come one firing and one run, and leaves the others; after it no enabled row is due |
| Schedules.LeftAloneItFires | src/octo/worker/scheduler.py:28-51 | From every reachable state an enabled schedule left alone until its instant is fired by the next tick that skips nothing, whatever has happened before |
| Schedules.FiresAgainAndAgain | src/octo/worker/scheduler.py:28-51 | So it can be made to fire any number of times more, by waiting and ticking |
| SkipLocked.StaysSound | src/octo/queue.py:54-67 | No two claimers ever hold the same row, and a held row stays claimable until its commit |
| SkipLocked.TwoPhasesAreAtomic | src/octo/queue.py:54-75 | A whole play of locks, commits, lost connections and other transactions is a run of atomic claims, one where each lock was taken, each of an oldest available run but those then held by a claimer whose connection will be lost; without such, FIFO |
| SkipLocked.EndIsAtomic | src/octo/queue.py:50-75 | A commit changes nothing that the lock had not, and a claim whose connection is lost has not happened but for the row it held meanwhile |
| SkipLocked.GotByCommit | src/octo/queue.py:65-75 | A claimer gets a run exactly by the commit that writes its claim; one whose connection is lost gets none |
| SkipLocked.ExactlyMin | src/octo/queue.py:54-75 | m claimers over n available runs hand out exactly min(m, n) distinct runs in any interleaving |
| SkipLockedTick.CommitIsAtomicTick | src/octo/worker/scheduler.py:28-49 | A commit fires exactly the rows its tick locked, all of them still due |
| SkipLockedTick.ConcurrentTicksFireOnce | src/octo/worker/scheduler.py:23-51 | Concurrent ticks, toggles and aborts never fire a schedule twice for one instant |
| Sse.IterSseDeltas | src/octo/chat.py:340-363 | However the bytes are cut, also inside a separator, the events and the way of ending are those of reading the whole stream frame by frame and line by line up to [DONE] |
| Sse.ParseMore | src/octo/chat.py:351-352 | Bytes after [DONE] or an exception change nothing |
| Sse.LineSays | src/octo/chat.py:348-363 | What one line says: nothing without the data prefix or when its payload does not load, the end for [DONE], else usage, model and text of the chunk, those it has, in this order |
| Sse.ReaderLaws | src/octo/chat.py:347-363 | A line that says nothing might as well not be there, events come between those before and after, and the end or an exception is the last thing read |
| Sse.SplitLfJoins | src/octo/chat.py:347 | A frame is cut at every line feed and nowhere else |
| Claude.SseFromStream | src/octo/providers/claude.py:104-122 | Prints the role chunk, one chunk per text delta, the final chunk, and [DONE] |
| Claude.PrintedChunks | src/octo/providers/claude.py:107-114 | The first chunk names the role; each text delta has one chunk after those before it, with its text, the second at which it is printed and the id of the last message started |
| Claude.LastChunk | src/octo/providers/claude.py:115-121 | The last has no text, the usage with its total, and the reason to finish translated |
| Claude.PrinterRoundTrip | src/octo/providers/claude.py:85-122 | The printed stream, followed by anything, is read as its non-empty text deltas in order with no usage among them, then the final chunk with its usage, and no more |
| Claude.PrintAndRead | src/octo/chat.py:340-363 | Printing, cutting anew in any way, and reading gives back those events |
| Shim.RelayStream | src/octo/api/openai_compat.py:134-178 | The relay, for every cutting of its input, yields what the frames of the whole input make it yield; an exception adds the error and [DONE]; it logs the model last reported and the usages merged, of the whole input |
| Shim.RelayLogs | src/octo/api/openai_compat.py:148-153 | What is logged are the model last reported and the usages merged in their order, [DONE] passed over, up to an exception |
| Shim.OneFrameRewritten | src/octo/api/openai_compat.py:146-163 | With a label wanted exactly one frame is replaced, the first with a text: by its chunk as it was but for the label, with the model last reported by then |
| Shim.PassThrough | src/octo/api/openai_compat.py:143-163 | With no label wanted the output is the input through its last separator, byte for byte |
| Shim.FaithfulIff | src/octo/api/openai_compat.py:146-163 | The relayed stream reads as the original with the label before its first text if and only if the reader misses nothing of the frame that takes the label: the lines before say nothing, and the stream goes on or ends after it just as without the lines behind |
| Shim.NotMissedIffAlone | src/octo/api/openai_compat.py:146-163 | In a frame without [DONE] that is: no other line says anything |
| Shim.RewritingKeepsContent | src/octo/api/openai_compat.py:155-160 | For frames of one line this is always so |
| Shim.RelayedText | src/octo/api/openai_compat.py:146-163 | What is read from the relayed bytes: the label, by the model last reported before the first text, then the whole text of the original; its usages and its end |
| Shim.TwoLinesLoseOne | src/octo/api/openai_compat.py:146-163 | For any two chunks with a text in one frame, the second is lost |
| ToolCall.ParseToolCall | src/octo/chat.py:137-150 | The loop over the lines, by its first marked line |
| ToolCall.FirstMarkedDecides | src/octo/chat.py:137-150 | The first line that, stripped, begins with the marker decides, and what is behind the marker, stripped, is loaded; without one there is no call |
| ToolCall.LinesAre | src/octo/chat.py:140 | The lines of a reply hold no line break, CR LF is one break, and only the last may be missing |
| Context.BuildContext | src/octo/chat.py:163-181 | The system prompt, then the window of the history without tool rows, each message with its own role and content, in order; it is the longest run of the latest messages that fits what the prompt leaves, or the newest alone |
| Context.TalkIsTheRest | src/octo/chat.py:172-174 | Rows of tool calls are not shown to the model, and all others are, each in its place |
| Context.WindowIsLongest | src/octo/chat.py:169-181 | The window is the longest run of the latest messages that fits what the prompt leaves, or the newest alone if not even that fits |
| Context.WindowNeverEmpty | src/octo/chat.py:172-181 | Whatever the budget, the window is empty exactly when there is no message |
| Context.HonouredIff | src/octo/chat.py:169 | The budget asked for is the one kept for every history, if and only if it is not 0 or its replacement leaves no room for a second message |
| Context.LargerBudgetExtends | src/octo/chat.py:169-181 | A larger budget only lets the window start earlier |
| Detector.VerdictIs | src/octo/chat.py:426-446 | A round is a tool round exactly when tools are allowed and the first part of its text that is enough to decide, or all of it, starts with the marker after leading blanks |
| Detector.DecidedIff | src/octo/chat.py:433-434 | It is decided as soon as there are nine characters after leading blanks or a line feed, and not before |
| Detector.ShownLive | src/octo/chat.py:426-450 | From then on all text of a round that is no tool round has been shown at any moment; until then nothing has |
| Detector.VerdictIgnoresCuts | src/octo/chat.py:426-446 | Unless a leading marker follows a line feed, a round is a tool round exactly when tools are allowed and its stripped text starts with the marker, however it is cut |
| Detector.CutIndependentIff | src/octo/chat.py:433-446 | Exactly when the verdict is the same for every cut |
| Detector.RoundShows | src/octo/chat.py:414-450 | A tool round shows nothing; any other shows the label, if it is still to come, and its whole text, nothing lost, repeated or reordered |
| Turns.StreamBalanced | src/octo/chat.py:414-467 | After any number of rounds: one request a round, an audit row for each but the last, and no text shown while the turn goes on |
| Turns.StreamEnds | src/octo/chat.py:414-462 | A streamed turn is over after CHAT_MAX_TOOL_CALLS + 1 rounds |
| Turns.SendEnds | src/octo/chat.py:299-311 | So is a turn of send |
| Audit.SendTells | src/octo/chat.py:234-311 | Every round of send but the last has an audit row of the call its reply asks for, with what the tool returned in that round, clipped, if the persona may use it, and the refusal if not; and each request is the one before with the reply and that result |
| Audit.StreamTells | src/octo/chat.py:414-467 | The same of send_stream, whatever the cuts |
| Audit.DisabledIsNeverRun | src/octo/chat.py:244-248 | Whatever a tool outside the persona's would answer, turns are the same |
| Audit.SendEndsIff | src/octo/chat.py:299-311 | send goes on as long as replies call for tools, calls are left and results can be had, and is completed by the first reply that calls for nothing or comes when calls are used up; anything else aborts it |
| Audit.StreamEndsIff | src/octo/chat.py:414-467 | Likewise send_stream |
| Audit.AnswerIsLastReply | src/octo/chat.py:320-334 | The row of a completed turn is the text of the last reply after the name of the model last reported, if routing is shown, with that model and the prompt tokens of the usage last reported |
| Audit.StreamAnswer | src/octo/chat.py:426-462 | A completed stream has shown the whole text of the reply that completed it, after the name of the model that answered, and nothing else |
| Announcements.StreamAnnounces | src/octo/chat.py:463-464 | The caller of send_stream is told of the calls of the replies, in order and numbered from one |
| Agreement.SameCallIff | src/octo/chat.py:137-150 | Exactly when send and send_stream make the same of a reply, for every way of cutting it |
| Agreement.AgreeableReplies | src/octo/chat.py:137-150 | Replies without a marked line, and replies that start with the marker with no line feed before it, are such |
| Agreement.SendAndStreamAgree | src/octo/chat.py:299-334 | With the same agreeable replies by one named model, however the stream is cut, both make the same requests with the same contexts, run the same tools to the same results, end alike and store the same row if the last reply has a text |
| Agreement.EmptyReplyDiffers | src/octo/chat.py:324-334 | With an empty reply both complete, send stores a row and send_stream none |
| Conversations.Conversation.ExecuteToolRound | src/octo/chat.py:234-268 | A tool of the persona is run and its result kept, another gets the refusal; clipped to 4000 characters; the audit row and the extended context, both or neither: a result that is no longer JSON raises |
| Conversations.Conversation.Send | src/octo/chat.py:271-334 | The user's message, an audit row per executed call, and the answer unless an exception left the loop |
| Conversations.Conversation.SendStream | src/octo/chat.py:370-484 | A client that leaves receives as many events as it stayed for, and a prefix of the turn is done; the row stored is just the text it was sent, marked truncated exactly when the turn was not completed, no row if nothing was sent; no text precedes a tool status; and a client that leaves before the first event leaves nothing |
| Conversations.RowsAreRequests | src/octo/chat.py:487-511 | Over any history of calls of send, the assistant and tool rows added are the requests made, less one for each call that failed |
| Conversations.TurnAccounted | src/octo/chat.py:299-334 | A call of send makes between one and CHAT_MAX_TOOL_CALLS + 1 requests, each with its row but for the last one of a call that failed |

## Left out

- Fairness.BoundedOvertaking: assumes serial claims; with concurrent claims a run is also passed while its row is locked.
- Guarantees.FusedLifecycleBound: assumes that gate check and parking are one step; the code has them in two transactions, for which LifecycleBound gives the bound.
- Shim.FaithfulIff: says nothing when a payload breaks or has outer blanks.
- Agreement.SendAndStreamAgree: compares rows but for metadata, tags and durations, and turns whose replies all arrive.
- Conversations.RowsAreRequests: usage_today counts the rows of the current day and the log of the shim; the day and the log are not modelled. A streamed turn that shows nothing stores no row and is not counted by the code either.
- Conversations.Conversation.SendStream: reads each reply to its end before it hears it; when the client leaves, the rest of that reply goes unread in the code, which nothing observes.
- A client that leaves a stream of the shim: only the finally block would still run.
- CHAT_MAX_TOOL_CALLS below zero: no request would be made.
- park_awaiting_approval and the status cancelled: nothing calls or sets them.
- The loops of main and scheduler_loop, and the liveness of workers: a stale finish raises out of process_once and main does not catch it.
- Ids are given by the caller; an approval's id is its position; the column ts of events, sessions' contents and the order of list queries are not modelled.
- Sync and upsert are single-row steps of the state machine; their loops are methods beside it. Runs enqueued with a schedule id by other callers than tick are not steps.
- Cron and time zone arithmetic, tags, telemetry, model routing and the cost guard, the registry loader, token estimation beyond its formula, titles of conversations.
- HTTP, authentication, the CLI, the provider clients, the executors and the tools: an outcome or a scripted reply stands for each.
- PostgreSQL itself: transactions are atomic, and row locks with their re-check are as in SkipLocked and SkipLockedTick.
