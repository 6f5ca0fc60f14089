# Verified model of the agent engine

A Dafny model of an event-sourced agent: an engine that runs turns and commits every event to an
append-only JSONL log, a daemon that streams a session to its readers over SSE, a SQLite index derived
from the logs, and a web client that turns updates into a transcript. `dafny verify dfyconfig.toml`
checks all of it.

Each stateful class of the program is a Dafny class whose methods are proved against a function on its
abstract state; the theorems are about those functions. Where `async` code interleaves, the atomic blocks
between two awaits are the steps of a relation over a value state, and a theorem about every step
sequence is a theorem about every interleaving. A file is a growing text, an append that fails may leave
any prefix of what it was writing.

| module | models |
|---|---|
| `Wrappers`, `Delimited`, `Decimal` | options and results; cutting a text at a delimiter however it is chunked; decimal numbers and trimming |
| `Schema`, `Codec` | the events; one event per line |
| `EventLog`, `FailedWrites`, `CommitQueue`, `Conservation`, `Retry` | the JSONL log; any calls on it with writes that break off; concurrent commits of one session over it; where each commit is; what a failed one does to those after it |
| `Cursor`, `Subscription`, `Registry` | the ring of recent events; replay-to-live handover and reconnects; sessions and their grace timers |
| `SessionIndex` | the projection of all logs into two tables |
| `Sse` | printing frames on the server, parsing them in the client |
| `Budget`, `Grammar`, `EventSink`, `Permissions`, `ToolRouter` | output budget in UTF-8 bytes; the order of events; the commit callback; the gate before a tool; one tool invocation |
| `Messages`, `TurnEngine`, `ProviderHistory` | what a provider is sent; a whole turn; the translation for one provider |
| `EventMapper`, `AcpAgent`, `Transcript` | events to client updates; prompting and loading; the client's transcript |
| `ChildHandle` | requests and responses over a child's stdio |

## Where the code departs from its comments

The model follows the code. Each departure is stated by the member named with it:

- `subscribe` attaches its listener only after the consumer has taken the whole replay, so an event
  pushed before that is never delivered (`Subscription.PushDuringReplayIsLost`); nothing else is missed
  (`Subscription.OnlyTheGapIsMissed`).
- A client may connect with an id ahead of the session's; later ids are then not new to it
  (`Subscription.AheadGetsOldId`). They are new exactly when it was not ahead (`Subscription.IdsGrow`).
- A fresh connect is not always resumable: only while no more events were pushed than the ring holds
  (`Cursor.CanResumeIffKept`, and `Cursor.FreshIsLost` for one that is not).
- Grace timers are keyed by session id. One armed by an earlier incarnation removes a session that was
  loaded again (`Registry.StaleTimerRemovesAlive`); a key per incarnation would repair that
  (`Registry.RepairedGraceIsSafe`).
- A failed append does not always leave its sequence number free for the next attempt: once a single
  character has landed the session is stuck for good (`Retry.RetryReusesNumber`, and
  `Retry.StuckRun` for one that is).
- Strict reading takes a complete last line without its newline, and the next append is glued to it
  (`EventLog.GluedRun`). Exactly such an append makes lines unreadable (`FailedWrites.SpoiledIff`). One
  engine writing its own log never gets there (`CommitQueue.LogIsContiguous`).
- Cutting output at the byte limit does not drop a cut character but replaces it, so the kept text can
  exceed the limit by two bytes (`Budget.OverTheLimit`), and never by more (`Budget.OutputBound`).
- An abort denies only what would have been asked; what the policy allows still runs
  (`Permissions.AllowedAfterAbort`; exactly when, `Permissions.PermissionEngine.RequestPermission`).
- A delta the store refuses makes the tool fail and the turn go on (`ToolRouter.RefusedDeltaRun`): a
  dispatch throws exactly when its permission request does, or its start, denial or final event is
  refused (`ToolRouter.ToolRouter.Dispatch`).
- An exception from the tool handler ends the turn without its completion event
  (`TurnEngine.ApproverThrowsRun`). When no append is refused, nobody aborts and the consumer stays, that
  happens exactly if the preflight check passes and some call of a reached round asks an approver that
  throws (`TurnEngine.CompletedIff`).
- A completion that follows a refused delta reports neither the tokens nor an error code, and the turn
  ends for its caller with the exception of the refused delta (`TurnEngine.SessionEngine.RunTurn`).
- The updates of the committed events are not those that were sent live as soon as a tool is asked for
  (`EventMapper.OneToolMakesThemDiffer`), and else they are (`EventMapper.LiveEqualsReplayIffNoTools`). An
  append that fails may have landed whole, though: the log then holds one more event, which no client was
  sent, and live and loaded updates agree exactly if no tool was asked for and that event sends none
  (`EventMapper.LiveEqualsLoadedIff`).
- Call ids start over in every turn, and the failure of an unknown tool can land on the card of an
  earlier turn (`Transcript.UnknownToolMarksOldCard`). The cards are right at every moment exactly when
  no such failure does so (`Transcript.CardsAlwaysRightIff`).
- After a line without a frame, what a child handle does depends on where the chunks end: every text with
  a whole line after such a line has a cut that leaves the handle in another state (`ChildHandle.CutMatters`),
  and no other text has (`ChildHandle.ChunksDoNotMatterIff`).

## Model

| member | source | states |
|---|---|---|
| `Delimited.FeedIsCut` | packages/storage/src/event-log.ts:97-122 | buffering chunks and cutting off complete pieces gives what cutting the whole text gives, for every chunking |
| `Codec.PayloadRoundTrip` | packages/storage/src/event-log.ts:184-196 | every payload is decoded back from its fields |
| `Codec.DecodeOwnLine` | packages/storage/src/event-log.ts:184-196 | an encoded event decodes to itself |
| `Codec.DecodePrefix` | packages/storage/src/event-log.ts:184-196 | no proper prefix of an encoded event decodes |
| `Codec.DecodeExact` | packages/storage/src/event-log.ts:188-196 | an encoded event followed by any text that does not begin with white space does not decode |
| `Codec.LineHasNoNewline` | packages/storage/src/event-log.ts:184-186 | an encoded event holds no raw newline, whatever its strings hold |
| `EventLog.ValidateEventOrder` | packages/storage/src/event-log.ts:217-230 | true iff every sequence number is above all earlier ones |
| `EventLog.Replay` | packages/storage/src/event-log.ts:83-138 | the chunked reader's events and error are those of the unchunked specification of the concatenated file, in either recovery mode |
| `EventLog.ReadUnfinished` | packages/storage/src/event-log.ts:112-133 | well-formed lines and an unterminated rest: tolerant reading yields exactly the lines; strict reading also decides on the rest |
| `EventLog.ReadTells` | packages/storage/src/event-log.ts:83-138 | what any read of any file yields: the events of its first lines, strictly increasing, up to the end, to the first line that is no event, or to the first event not above the one before it |
| `EventLog.Recovery` | packages/storage/src/event-log.ts:83-138 | for every cut of a well-formed log, tolerant replay returns exactly the events whose newline survived, and strict replay succeeds iff the cut is at a line boundary or just before a newline |
| `EventLog.JsonlEventLog.LoadTailIfNeeded` | packages/storage/src/event-log.ts:169-181 | the tail cache becomes the last event of a strict read; on failure nothing changes |
| `EventLog.JsonlEventLog.AppendBatchInternal` | packages/storage/src/event-log.ts:140-167 | one queued append, for every outcome of the write: file, cache and result after it |
| `EventLog.JsonlEventLog.AppendMany` | packages/storage/src/event-log.ts:61-71 | an unordered batch is refused at once, an empty one is accepted, any other is queued |
| `EventLog.AppendKeepsSound` | packages/storage/src/event-log.ts:140-182 | an append to a sound log appends the batch iff it continues the numbering, keeps the file otherwise, and leaves a sound log with a tail cache that is the file's last event |
| `EventLog.CallsSound` | packages/storage/src/event-log.ts:61-71 | after any calls without write errors the file is the accepted batches in call order, strictly increasing, and a loaded tail is its last event |
| `EventLog.CallsResults` | packages/storage/src/event-log.ts:61-71 | a call succeeds iff its batch continues what was accepted before; a refused batch blocks none after it |
| `EventLog.FailedWrite` | packages/storage/src/event-log.ts:152-166 | which whole lines and which part of a line a write that broke off after any number of characters leaves |
| `EventLog.AfterFailedWrite` | packages/storage/src/event-log.ts:140-182 | the one append after one broken write of a sound log, by what that write left: appended and sound, refused, or glued and unreadable from there |
| `EventLog.GluedRun` | packages/storage/src/event-log.ts:124-133 | a run in which the glued line arises although both appends were in order |
| `FailedWrites.CallsFit` | packages/storage/src/event-log.ts:140-182 | after any calls whose writes may break off anywhere, the file, the tail cache and the next call's result are what the calls alone say: all kept, kept and one torn part, kept and one unended event, or kept and a line that is no event |
| `FailedWrites.ReadersSee` | packages/storage/src/event-log.ts:83-138 | what a tolerant and a strict reader get in each of these four cases |
| `FailedWrites.WithoutLossNothingIsHidden` | packages/storage/src/event-log.ts:140-182 | as long as no write loses just a newline, the file is the kept events and at most one torn part, and a tolerant reader gets them all |
| `FailedWrites.TearIsFinal` | packages/storage/src/event-log.ts:140-182 | once a line is torn no later call changes the file or appends anything |
| `FailedWrites.SpoiledIff` | packages/storage/src/event-log.ts:124-133 | lines no reader gets past arise iff a call is accepted after a lost newline and gets past its first line |
| `FailedWrites.UnendedOnlyByLoss` | packages/storage/src/event-log.ts:152-166 | an unended event comes only from a write that lost just its newline |
| `FailedWrites.AppendedIsKept` | packages/storage/src/event-log.ts:140-182 | unless a line is spoiled, the batches whose callers were told they are stored are contiguous parts of what readers get, in call order |
| `CommitQueue.LogIsContiguous` | packages/core/src/session-engine.ts:420-451 | in every interleaving of commits and failures the file is events numbered 1..t and at most one unterminated line, tolerant replay gives exactly those, the counter is t or t + 1, and callers were given exactly 1..counter-1 |
| `Conservation.CommitsAreConserved` | packages/core/src/session-engine.ts:414-451 | in every interleaving no commit is lost, doubled or overtaken: those the session took, each with its own fields and the counter its caller found, are in order those that left the queue and those in it, and each that left is being written, settled, or was answered; what callers were given is what they were told is stored |
| `Retry.RetryReusesNumber` | packages/core/src/session-engine.ts:414-437 | after any failed append, whatever is queued: if something landed, no later step changes the file or returns an event; if nothing did, the queued appends before the first of that number are refused, that one is written next, and without one the next commit is |
| `Retry.StuckRun` | packages/core/src/session-engine.ts:414-437 | a run that is stuck after one character |
| `Retry.JamPersists` | packages/storage/src/event-log.ts:140-182 | a torn last line blocks the session's log in every continuation |
| `Retry.BlocksAreAppend` | packages/storage/src/event-log.ts:61-71 | the blocks of one undisturbed append add up to the log's own append |
| `Cursor.SessionCursor.Push` | apps/acp-daemon/src/cursor.ts:38-61 | numbers the event, evicts beyond the capacity, refuses when closed |
| `Cursor.SessionCursor.Close` | apps/acp-daemon/src/cursor.ts:82-87 | closes and keeps everything else |
| `Cursor.PushHolds` | apps/acp-daemon/src/cursor.ts:38-61 | the ring stays the last `capacity` events of the whole history |
| `Cursor.ReplayIsHistory` | apps/acp-daemon/src/cursor.ts:63-70 | replay from a resumable id is the whole history after that id |
| `Cursor.CanResumeIffKept` | apps/acp-daemon/src/cursor.ts:72-79 | for an id behind the session, resumable iff every later event is still in the ring, iff no more than `capacity` are missed |
| `Cursor.FreshIsLost` | apps/acp-daemon/src/cursor.ts:72-79 | a fresh client that cannot resume |
| `Subscription.Handover` | apps/acp-daemon/src/session-manager.ts:258-318 | in every run, delivered plus queued is the history after the client's id without the events pushed between replay and attachment; a waiting subscriber has an empty queue and neither abort nor close pending |
| `Subscription.HistoryIsPushes` | apps/acp-daemon/src/cursor.ts:38-61 | in every run the session's history is the pushes before the first close |
| `Subscription.OnlyTheGapIsMissed` | apps/acp-daemon/src/session-manager.ts:271-299 | an event the client lacks is neither delivered nor queued iff it was pushed in that gap |
| `Subscription.LostIffGone` | apps/acp-daemon/src/session-manager.ts:258-318 | a connection attempt is told its cursor is lost iff more events came after it than the ring holds, no other step tells so, and a lost attempt changes nothing else |
| `Subscription.IdsGrow` | apps/acp-daemon/src/session-manager.ts:258-318 | delivered ids strictly increase, and all are new to the client iff it was not ahead of the session as it connected |
| `Subscription.AheadGetsOldId` | apps/acp-daemon/src/cursor.ts:72-79 | a run in which a client with id 5 is sent event 1 |
| `Subscription.DrainsAfterClose` | apps/acp-daemon/src/session-manager.ts:301-312 | in every run with a close under a live subscriber, at a yield or woken from its wait, a consumer that stays gets everything queued and then the end, from any steps with enough pulls after the wake-up |
| `Subscription.EachTurnDelivers` | apps/acp-daemon/src/session-manager.ts:301-312 | after a close each time the subscriber goes on delivers exactly the next queued event, whatever comes between |
| `Subscription.AbortEnds` | apps/acp-daemon/src/session-manager.ts:271-312 | an aborted replay ends when the consumer asks again, an aborted live subscriber once its queue is empty |
| `Subscription.ReconnectsAreSeamless` | apps/acp-daemon/src/server.ts:362-412 | over any number of reconnects, each after a connection that may have lost its last events on their way, with the last id that arrived, and no push during a replay: what arrived is exactly the first events of the session |
| `Subscription.PushDuringReplayIsLost` | apps/acp-daemon/src/session-manager.ts:272-299 | a run in which an event is never delivered |
| `Registry.RegisteredSessions` | apps/acp-daemon/src/session-manager.ts:321-397 | in every reachable state a registered session has an open cursor, a registered ended one an exited child and a pending timer, and after the first exit only exit markers enter a cursor |
| `Registry.OnlyStaleTimersRemoveAlive` | apps/acp-daemon/src/session-manager.ts:386-397 | a timer that removes an alive session was armed by another incarnation of its id |
| `Registry.GraceIsSafeIffNoOverlap` | apps/acp-daemon/src/session-manager.ts:346-397 | a run without overlapping incarnations never has a timer that would remove an alive session, and the next step makes one possible iff it overlaps |
| `Registry.StaleTimerRemovesAlive` | apps/acp-daemon/src/session-manager.ts:321-397 | a run in which a stale timer removes a loaded session |
| `Registry.RepairedGraceIsSafe` | apps/acp-daemon/src/session-manager.ts:386-397 | with timers keyed by incarnation no run has such a timer |
| `Registry.NotificationEnters` | apps/acp-daemon/src/session-manager.ts:351-358 | a notification enters the cursor iff the session is alive and the cursor open |
| `Registry.ExitIsAnnounced` | apps/acp-daemon/src/session-manager.ts:360-397 | in every reachable state an exit ends the session, enters its open cursor as the marker, and leaves a pending timer for its id |
| `Registry.TerminateEnds` | apps/acp-daemon/src/session-manager.ts:321-331 | terminating unregisters and ends the session, closes its cursor and leaves no pending timer for its id |
| `Registry.TimerRemoves` | apps/acp-daemon/src/session-manager.ts:389-395 | a timer that fires unregisters the session of its id, if there is one, and closes its cursor |
| `Registry.SessionManager.RegisterSession` | apps/acp-daemon/src/session-manager.ts:346-380 | registers a new incarnation with an open cursor, over any old one |
| `Registry.SessionManager.OnNotification` | apps/acp-daemon/src/session-manager.ts:351-358 | enters the cursor only while alive and open |
| `Registry.SessionManager.OnExit` | apps/acp-daemon/src/session-manager.ts:360-377 | marks, notifies and arms a timer |
| `Registry.SessionManager.ScheduleGrace` | apps/acp-daemon/src/session-manager.ts:386-397 | keeps the first timer of an id |
| `Registry.SessionManager.Terminate` | apps/acp-daemon/src/session-manager.ts:321-331 | unregisters, cancels the id's timer and closes; an unknown id changes nothing |
| `Registry.SessionManager.OnTimer` | apps/acp-daemon/src/session-manager.ts:389-395 | removes whatever incarnation has the id now |
| `SessionIndex.TablesShowLog` | packages/storage/src/session-index.ts:168-275 | applying any log whose sessions begin with their creation succeeds and gives the declared tables: latest creation, last event, distinct turns, first start, last completion and its reason |
| `SessionIndex.ShowsUnique` | packages/storage/src/session-index.ts:168-275 | the declaration determines the tables |
| `SessionIndex.InterleavingsAgree` | packages/storage/src/session-index.ts:99-106 | any two interleavings of the same session logs give the same tables |
| `SessionIndex.ReapplyingIsHarmless` | packages/storage/src/session-index.ts:188-275 | applying an already applied suffix again before going on changes nothing |
| `SessionIndex.TurnCountIsRows` | packages/storage/src/session-index.ts:211-264 | whatever is applied, refused events included, a turn count is the number of that session's turn rows |
| `SessionIndex.RebuildIsLive` | packages/storage/src/session-index.ts:132-155 | rebuilding from the files, torn last lines included, gives the tables of any live interleaving |
| `SessionIndex.SessionIndex.ApplyInternal` | packages/storage/src/session-index.ts:168-186 | one event in place; a failed foreign key changes nothing |
| `SessionIndex.SessionIndex.UpsertTurnStarted` | packages/storage/src/session-index.ts:211-233 | inserts and counts once, keeps the first start |
| `SessionIndex.SessionIndex.UpsertTurnCompleted` | packages/storage/src/session-index.ts:235-258 | inserts and counts once, takes the last completion |
| `SessionIndex.SessionIndex.ApplyMany` | packages/storage/src/session-index.ts:99-106 | all of a batch or none of it |
| `SessionIndex.SessionIndex.RebuildFromEventLogs` | packages/storage/src/session-index.ts:132-158 | the tables of all files in order, or the old tables if any file or event fails |
| `Sse.StreamEvents` | apps/acp-daemon/src/server.ts:387-420 | the response is the frames of the incoming events with pings between them, up to the first exit marker, and then how the subscription ended |
| `Sse.ParseFrame` | apps/web-client/src/sse.ts:62-78 | the frame of one block, fields in any order, later ones winning, data lines joined |
| `Sse.SseFrameParser.Push` | apps/web-client/src/sse.ts:41-52 | the new frames are those of the blocks completed by the chunk, the rest stays buffered |
| `Sse.ReadStream` | apps/web-client/src/sse.ts:37-60 | the frames read from chunks are those of the whole text |
| `Sse.BlockParses` | apps/web-client/src/sse.ts:62-78 | a printed block parses to its id, event and data |
| `Sse.StreamRoundTrip` | apps/acp-daemon/src/server.ts:387-420 | for every event list with clean data, pings anywhere and any chunking, the client gets exactly the events with their ids, the exit marker and the frame that names the ending and its numbers or message |
| `Sse.CutOffStream` | apps/web-client/src/sse.ts:41-52 | a response cut off anywhere gives a beginning of those frames |
| `Sse.ResumeIdRoundTrip` | apps/acp-daemon/src/server.ts:362-371 | the id of a frame, sent back as Last-Event-ID, is the cursor to resume from |
| `Sse.ResumeFrom` | apps/acp-daemon/src/server.ts:362-371 | no header or an empty one resumes from the start; what is no number or a negative one is an error |
| `Budget.DecodeIsCut` | packages/tools/src/budget.ts:32-36 | decoding the first bytes of an encoded text is the text with a cut character replaced |
| `Budget.BudgetAccumulator.Take` | packages/tools/src/budget.ts:25-44 | one chunk against what is left of the budget |
| `Budget.SplitDoesNotMatter` | packages/tools/src/budget.ts:16-44 | for any chunking the outputs together are one truncation of the whole text, and truncation is reported iff the whole exceeds the limit |
| `Budget.CutSize` | packages/tools/src/budget.ts:32-36 | the exact size of a cut text |
| `Budget.OutputBound` | packages/tools/src/budget.ts:32-44 | a truncated output has at most limit + 2 bytes and the suffix, and when the head alone exceeds the limit |
| `Budget.OverTheLimit` | packages/tools/src/budget.ts:32-36 | a limit of one byte and a character of two give three bytes and the suffix |
| `Grammar.NoToolRunsUnasked` | packages/tools/src/router.ts:116-257 | in every allowed log a start follows the granted request of that very call, a delta belongs to the running call, a completion counts its deltas, and a denial is followed by its failure |
| `Grammar.TurnsAreNested` | packages/core/src/session-engine.ts:173-332 | in every allowed log the creation is first and only there, a turn starts exactly after the creation or a completion, and the user's message comes exactly after a turn's start |
| `Grammar.TurnsCompose` | packages/core/src/session-engine.ts:141-332 | exhausted turns after a creation make a complete session log |
| `EventSink.Sink.Emit` | packages/core/src/session-engine.ts:414-451 | one append as the turn sees it: committed, refused without a trace, or refused although its line landed whole, after which every append is refused |
| `Permissions.TruncatePreview` | packages/permissions/src/index.ts:17-21 | a short preview is kept, a long one is its first 512 characters and the mark |
| `Permissions.PermissionEngine.RequestPermission` | packages/permissions/src/index.ts:188-251 | the two events and the resolution: allowed iff the policy decided allow, or it decided ask and the approver answered allowed before any abort; denied whenever the policy denies; it throws iff one of its events is refused or the approver is asked and throws |
| `Permissions.Evaluate` | packages/permissions/src/index.ts:170-186 | the tool's entry, else its risk's, else the default, else ask |
| `Permissions.AllowedAfterAbort` | packages/permissions/src/index.ts:212-214 | an aborted turn is still allowed what the policy allows |
| `ToolRouter.ToolRouter.Stream` | packages/tools/src/router.ts:182-201 | one delta per piece that passes the budget; those before the first refused append are stored, none after it is tried; the count and the truncation flag are of all of them |
| `ToolRouter.ToolRouter.Drain` | packages/tools/src/router.ts:203-257 | the stored deltas and one final event: the tool's own outcome iff every delta was stored, else an I/O failure; it throws iff that final event is refused |
| `ToolRouter.ToolRouter.Execute` | packages/tools/src/router.ts:171-257 | a granted invocation starts under its permission and is seen to its end; it throws iff its start or its final event is refused |
| `ToolRouter.ToolRouter.Settle` | packages/tools/src/router.ts:155-257 | what follows a resolution: the failure that says who denied, or the tool's execution |
| `ToolRouter.ToolRouter.Dispatch` | packages/tools/src/router.ts:116-257 | every finished dispatch is one block of the grammar with a fresh call id and a fresh request id; each of its events is given by the invocation, the policy, the approval and the execution (unknown, denied, or run), as are the result, its message and the end; it throws iff its permission request does, or its start, denial or final event is refused, and then leaves an allowed beginning; finished or not, a tool is started only if the policy allows it or the approver did before any abort |
| `ToolRouter.RefusedDeltaRun` | packages/tools/src/router.ts:223-232 | a dispatch whose only delta is refused returns the tool's failure and throws nothing |
| `ToolRouter.ToolRouter.CollectedIsOneTruncation` | packages/tools/src/router.ts:191-201 | what a successful tool hands on is one truncation of all it emitted, and its completion says whether that cut anything |
| `TurnEngine.StreamRound` | packages/core/src/session-engine.ts:245-292 | every text consumed is committed and yielded in order, none is committed after the abort, a chunk that says the model failed is never consumed, and the round stops for the reason its chunks give, at a text whose append was refused, or at the yield where the consumer leaves |
| `TurnEngine.Handle` | apps/acp-server/src/agent.ts:141-153 | the text for the model is the kept output of this dispatch or a fixed stand-in, never empty; it throws iff the dispatch does |
| `TurnEngine.RunTools` | packages/core/src/session-engine.ts:305-320 | one result per call, in order, each from its own dispatch that began before the abort, as soon as the one before was over, under the next call id; it stops short only for the abort, or at the first call whose dispatch throws; the log is those dispatches' blocks |
| `TurnEngine.SessionEngine.ToolLoop` | packages/core/src/session-engine.ts:230-321 | rounds and tools until the turn ends: the requests, the chunks consumed, the log as each round's texts and each call's own dispatch, every result as that dispatch's output, the tokens, and the reason to stop, which is the abort iff there is one; tools run only for rounds that ended without a failure, and only if a handler is wired |
| `TurnEngine.SessionEngine.Answer` | packages/core/src/session-engine.ts:301-320 | the calls of a finished round: either all are answered and the conversation goes on by one exchange, or the abort or a thrower cuts them short |
| `TurnEngine.SessionEngine.RunTurn` | packages/core/src/session-engine.ts:173-332 | guards; the stream begins with a preview of at most 80 characters and then the user's whole message, with which every request begins too; the log is allowed by the grammar and complete iff the turn is exhausted, or its consumer left at the completion, or after a store failure the last append was stored, so never after a handler exception; a stored completion tells the reason (cancelled iff aborted when it was submitted), code and tokens, or those of a lost delta; the consumer has been given exactly the committed events without the tools' at whatever yield it leaves; what is on disk beyond that is at most one event, and when that completes the log; which call's dispatch threw; everything `ToolLoop` says of requests, results and log |
| `TurnEngine.CompletedIff` | packages/core/src/session-engine.ts:173-332 | told from the inputs alone: with no refused append, no abort and a consumer that stays, the log is complete iff the preflight check fails or no call of a reached round asks an approver that throws |
| `TurnEngine.ApproverThrowsRun` | packages/core/src/session-engine.ts:310 | a turn whose approver throws leaves no completion |
| `ProviderHistory.ToAnthropicMessages` | packages/model-gateway/src/providers/anthropic.ts:182-241 | the index loop computes the recursive translation and the joined system text |
| `ProviderHistory.CollectFollowingToolUseBlocks` | packages/model-gateway/src/providers/anthropic.ts:243-259 | one tool use per tool message directly after the assistant's |
| `ProviderHistory.EveryUseIsAnswered` | packages/model-gateway/src/providers/anthropic.ts:202-234 | for every history, the tool uses of a message are answered in order by the next message |
| `ProviderHistory.ResultsAreConserved` | packages/model-gateway/src/providers/anthropic.ts:217-234 | for every history, each tool message is sent exactly once, in order, with its id and content |
| `ProviderHistory.TextsAreConserved` | packages/model-gateway/src/providers/anthropic.ts:182-241 | for every history, each user and assistant message is sent exactly once, in order, with its text |
| `ProviderHistory.SystemIsJoined` | packages/model-gateway/src/providers/anthropic.ts:182-241 | system messages are joined in order with a blank line between each two |
| `ProviderHistory.RequestsAlternate` | packages/model-gateway/src/providers/anthropic.ts:182-241 | a user message and proper exchanges become strictly alternating roles with each exchange's text, uses and results in place |
| `ProviderHistory.EngineRequestsAlternate` | packages/core/src/session-engine.ts:230-320 | every request the engine streams alternates, and for every earlier round uses and answers exactly that round's calls |
| `EventMapper.LiveIsReplayWithoutTools` | apps/acp-server/src/event-mapper.ts:25-88 | updates of what a turn yields are the updates of its log without tool calls and their updates |
| `EventMapper.LiveEqualsReplayIffNoTools` | apps/acp-server/src/event-mapper.ts:25-88 | they are identical iff the log has no tool event |
| `EventMapper.LiveEqualsLoadedIff` | apps/acp-server/src/agent.ts:234-247 | with one refused event landed behind the committed ones, the updates sent live are those sent on loading iff there is no tool event and that event sends no update |
| `EventMapper.OneToolMakesThemDiffer` | apps/acp-server/src/event-mapper.ts:25-88 | a log for which they differ |
| `AcpAgent.Agent.LoadSession` | apps/acp-server/src/agent.ts:209-272 | sends the updates of the log; refused when a session is owned; bound and replay-only afterwards even on failure; not found iff no creation was seen |
| `AcpAgent.Agent.Prompt` | apps/acp-server/src/agent.ts:274-336 | guards; the updates sent are those of the committed events without tools; the reply gives the tokens of the turn's completion and end_turn, cancelled or refusal for its reason; it throws only for a refused turn, a refused append or a dispatch that throws, and when no append is refused and nobody aborts exactly for a reached call whose approver throws |
| `AcpAgent.SameTextLiveAndLoaded` | apps/acp-server/src/agent.ts:234-247 | a client that watched live and one that loads show as each role's text exactly the words of the log's events, and the second also those of an event that landed although it was refused |
| `Transcript.FindToolTurnIndex` | apps/web-client/src/transcript.ts:142-147 | the last card of the call |
| `Transcript.ExtractContentText` | apps/web-client/src/transcript.ts:149-160 | the texts of the blocks that have one, in order |
| `Transcript.ApplyToolCallUpdate` | apps/web-client/src/transcript.ts:115-140 | the last card of the call changes, and nothing else |
| `Transcript.FoldKeeps` | apps/web-client/src/transcript.ts:43-140 | any updates keep ids 1..n and leave no two neighbouring turns of one text role |
| `Transcript.TextIsConserved` | apps/web-client/src/transcript.ts:57-73 | each role's text is the concatenation of its chunks |
| `Transcript.TranscriptTellsLog` | apps/acp-server/src/event-mapper.ts:25-88 | the transcript of any log shows the user's messages as the user's text, the model's deltas as the agent's, and the tokens of the last completion that reports any |
| `Transcript.ChunksMayBeSplit` | apps/web-client/src/transcript.ts:57-73 | cutting a chunk in two anywhere in a stream gives the same state |
| `Transcript.CardsShowTheirInvocations` | apps/web-client/src/transcript.ts:96-147 | for every allowed log, repeated call ids included, the cards are those of its invocations in order, each made of its own events, if every unknown tool's failure is safe |
| `Transcript.CardsAlwaysRightIff` | apps/web-client/src/transcript.ts:96-147 | the cards are right at every moment of a log iff every failure outside an invocation has no earlier invocation of its id, or the last one ended with that same failure |
| `Transcript.CardsTellTheirInvocations` | apps/web-client/src/transcript.ts:96-147 | each card has its own invocation's id, tool, risk, kind, decision, resolution and its source, arguments, output, error and status, and all cards together all output |
| `Transcript.StrayFailure` | apps/web-client/src/transcript.ts:115-140 | exactly when a failure outside any invocation changes no card |
| `Transcript.UnknownToolIsHarmlessIff` | packages/tools/src/router.ts:122-132 | after an unknown tool's failure right cards are still right iff no earlier invocation has its id, or the last one ended with that same failure |
| `Transcript.UnknownToolMarksOldCard` | packages/tools/src/router.ts:122-132 | a log in which a completed call is shown as failed |
| `ChildHandle.Handle.Request` | apps/acp-daemon/src/child.ts:139-154 | a fresh id, pending or rejected; refused after the exit |
| `ChildHandle.Handle.OnExit` | apps/acp-daemon/src/child.ts:97-106 | rejects all pending requests |
| `ChildHandle.Handle.OnError` | apps/acp-daemon/src/child.ts:109-117 | counts as an exit, once |
| `ChildHandle.Handle.OnStdout` | apps/acp-daemon/src/child.ts:193-217 | drains whole lines up to one without a frame: that one kills the child, or is an uncaught exception if it is `null` |
| `ChildHandle.Handle.RouteMessage` | apps/acp-daemon/src/child.ts:219-234 | settles a pending request, else notifies, else drops |
| `ChildHandle.EveryRequestIsAccounted` | apps/acp-daemon/src/child.ts:97-154 | in every run the ids given out are the disjoint union of pending and settled, none is pending after an exit, and a resolution has the request's own id |
| `ChildHandle.SettlesOnce` | apps/acp-daemon/src/child.ts:219-227 | what a request was settled with never changes, and after an exit nothing settles or is issued |
| `ChildHandle.PromisesTell` | apps/acp-daemon/src/child.ts:97-154 | a written request is pending and one that cannot be written is rejected; an exit rejects all pending ones, an error does so once |
| `ChildHandle.FirstAnswerResolves` | apps/acp-daemon/src/child.ts:219-227 | a pending request is resolved with the first frame of its id, and stays pending without one |
| `ChildHandle.DrainedIsRouted` | apps/acp-daemon/src/child.ts:193-217 | when every line parses, draining routes the frames of the whole lines in order |
| `ChildHandle.NoticesAreForwarded` | apps/acp-daemon/src/child.ts:219-234 | of the frames routed, exactly those with a method and no pending request of their id are forwarded, in order |
| `ChildHandle.BadLineStops` | apps/acp-daemon/src/child.ts:193-217 | a line without a frame kills the child, or is an uncaught exception if it is `null`, and the text after it stays buffered |
| `ChildHandle.ChunksDoNotMatterIff` | apps/acp-daemon/src/child.ts:193-217 | what a text does is the same for every chunking iff all whole lines but the last have a frame or are blank |
| `ChildHandle.CutMatters` | apps/acp-daemon/src/child.ts:193-217 | for every other text, a cut that changes what it does |

## Left out

- `Codec.PayloadRoundTrip`: events are printed as an array of strings with quoting and escapes instead of a
  JSON object, which keeps the laws the log relies on; validation of payloads, other schema versions, unknown
  fields and white space around a line's value are not modelled.
- `EventLog.JsonlEventLog.AppendMany`: runs its batch at once; that queued appends run one after the other,
  each after the one before has settled, is the `Begin` step of `CommitQueue`.
- UTF-8 decoding of files and pipes: characters split across chunks are reassembled by the runtime's
  decoder; files, stdout and SSE are texts here. Only the output budget is modelled on bytes.
- Character units: a preview or an argument is cut by characters here and by UTF-16 units in the program.
- White space: trimming knows space, tab, newline and carriage return, not the other Unicode spaces.
- Numbers: sequence numbers, event ids and token counts are unbounded here.
- Concurrency of objects: `CommitQueue`, `Subscription` and `Registry` interleave the blocks of their
  classes as steps over a value state, not as calls on shared objects; the classes' methods are proved
  against the same functions.
- `Subscription`: the generator and its wake-up slot are states of the step relation; listeners are not objects.
- `TurnEngine.SessionEngine.RunTurn`: a consumer pulls each event and then either pulls again or leaves; when it pulls is not modelled.
  Of a refused event that landed whole it says where it stands in the log and, if it is the completion, that
  it is due there; that any other such event is one the grammar allows there is not stated.
- `EventSink.Sink.Emit`: which appends fail, and whether one lands whole, is chosen by the environment; how it
  comes about, and what a part of a line does, is in `FailedWrites` and `CommitQueue`.
- `TurnEngine.SessionEngine.ToolLoop`: the provider is a finite script of rounds that then falls silent, since the code bounds neither rounds nor calls.
- `TurnEngine.StreamRound`: an abort is a point in time chosen by the environment, so `cancelTurn` and the merging of two signals are not separate members.
- `ToolRouter.ToolRouter.Dispatch`: a tool is a finite script of chunks and an outcome; chunks it emits after it has settled are covered in `CommitQueue` but not in the grammar. The reason appended to the message of a refused delta is not modelled.
- `AcpAgent.Agent.Prompt`: the sending of an update is not interleaved with the next commit and does not fail; the exception's message is not modelled.
- `newSession`, `cancel` and prompt text extraction: single branches. `createSession` is the first commit of `CommitQueue`.
- `Messages`: a tool message without id or name, which the translation reads as empty, is not produced by the engine.
- `ChildHandle`: what the daemon does after an uncaught exception; stderr text; the timer that force-kills.
- `Registry.SessionManager.Terminate`: waiting for the child to end, `terminateAll`, forwarding of requests and the guards of `loadSession` that only refuse.
- `Sse.StreamRoundTrip`: requires data without newlines and without outer white space, which JSON text always is.
- `SessionIndex`: SQL, list order and the row converters; events applied while a rebuild's transaction is open.
- HTTP routing, status codes, authentication, process spawning, real timers, the concrete tools, the provider's SDK stream and error mapping, DOM rendering and the CLI.
