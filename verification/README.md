# Verified model of the Antigravity SDK for Go

This project models the stateful core of the SDK and proves what it promises: that turns never
mix and no step is lost, that every tracing span is ended exactly once and inside out, that a
policy set means the same wherever it is evaluated and in whatever order it was declared, and
that the smaller algorithms around them do what their comments say. It is written for Dafny 4.11;
`dafny verify dfyconfig.toml` checks all of it.

One module follows one part of the program.

| file | models |
|---|---|
| `TurnProtocol.dfy` | read loop, tool goroutines, readers and `Send` as one transition system (`eventproc.go`, `conversation.go`) |
| `Requests.dfy` | step trackers and the answering of wait requests (`eventproc.go`) |
| `Questions.dfy` | `answerQuestions` (`eventproc.go`) |
| `History.dfy`, `Slices.dfy` | the capped transcript and its index slices (`conversation.go`) |
| `Chunks.dfy`, `Replay.dfy`, `Steps.dfy` | the chunk stream and the replayable response (`conversation.go`, `chatresponse.go`) |
| `Usage.dfy` | token usage with 64-bit wrap-around (`usage.go`) |
| `TurnEvents.dfy` | what a reader gets of what the harness sends, errors included (`eventproc.go`, `conversation.go`) |
| `TurnUsage.dfy` | the per-turn figures over runs of the turn protocol (`conversation.go`) |
| `Tracer.dfy`, `TracingLaws.dfy` | the span tracer, module `Tracing`, and what each callback does to the spans (`tracing/tracing.go`) |
| `Policies.dfy`, `PolicySplit.dfy` | the enforcer, and its split between harness and client (`policy.go`, `policyproto.go`) |
| `MediaSplit.dfy` | taking attachments out of a tool result (`toolresult.go`) |
| `Schemas.dfy`, `SchemaTags.dfy` | JSON Schema generation and its tags (`internal/schema/schema.go`) |
| `SchemaMeaning.dfy` | what a generated schema says, and which JSON values it accepts (`internal/schema/schema.go`) |
| `JsonFields.dfy` | a struct's properties against the fields of `encoding/json` (`internal/schema/schema.go`) |
| `RateLimiter.dfy`, `Broadcast.dfy` | the sliding window and the chat room of the examples; `Broadcast` also has the idle gate |
| `Snapshots.dfy` | file watching (`triggers.go`) |
| `Options.dfy`, `Text.dfy` | absent values, and the string functions of Go's library that the rest uses |

Code that updates fields or slices is a class or a method with a loop, and its `ensures` equates
the new state with a function of the old one; the theorems are lemmas about those functions.
`TurnProtocol` is the exception: there the point is the interleaving, so its actions are the atomic
steps of the goroutines, and the theorems hold for every finite run of them.

## The environment

The harness is modelled by the rules it keeps, stated in `TurnProtocol.HarnessMay`: it sends events
of a turn only after that turn's user input; the first step of a turn is the main trajectory's, and
no subagent reports its state before it (`TurnProtocol.SubagentEndsTurn` shows what such a report
would do); it ends a turn once, last, on the main trajectory, when every tool call has been answered.
The session has not ended. In `PolicySplit` the harness walks the rules in evaluation order and
matches a rule by its parsed tool and server. In `JsonFields` the fields of `encoding/json` are those
its documentation describes. Predicates, ask-user handlers, interaction hooks, file-watch callbacks
and the test for tag names that `encoding/json` can use are function parameters; clocks, directory
walks and the turn's stream are argument values.

## Where the code and its documentation differ

The code is modelled as it is. Each difference below is a lemma, with the exact condition where
the promise does hold.

- The isolation of turns has one gap. The read loop queues the idle marker and only then opens the
  gate (`eventproc.go:368-369`); a reader can take the marker and a sender reset the turn
  (`eventproc.go:427-442`) between the two. The late opening then marks the new turn idle, and the
  next `Send` discards a step of it. `TurnProtocol.IsolationFails` gives such a run from a new
  session. `TurnProtocol.ResetSafeIffIdle` is the exact condition, and one the sender can check
  before the reset: it is safe, whatever follows, if and only if the session reports itself idle.
  The isolation theorems, and those of `TurnUsage` and `TurnEvents`, are about runs in which no reset
  falls into that window.
- `TurnCount` (`conversation.go:316`) is not the number of prompts sent but of turn starts retained.
  Trimming and clearing forget starts, and a send that fails has already recorded one
  (`conversation.go:146-153`; `TurnProtocol.FailedSendCounts` is such a run). `History.TurnCountExactIff`:
  the count is exact if and only if as many starts were forgotten as sends failed, on the whole
  conversation or since the last clear.
- Starting a session while one is live overwrites its span, which is then never ended;
  `Tracing.LostOnlyByRestart` says that nothing else loses a span.
- A policy with an unrecognized decision is passed over in process and denied when the harness asks
  about it: `PolicySplit.AnswersAgreeIff`. Targets and calls mean the same on both sides under two
  exact conditions: `PolicySplit.NamedServerIff` for a target, `PolicySplit.CallSplitsIff` for a
  call, which fails for a builtin tool with a slash inside its name, for a tool of a server whose
  name ends in `/*`, and for a server with a slash inside its name. The target `/*` is the global
  wildcard over the wire and one odd builtin name in process (`PolicySplit.SlashStarIsWildcard`);
  `NewEnforcer` lets it through if a server with an empty name is registered.
- `splitMediaValue` panics on a nil interface of a media type: `MediaSplit.FindsAllMedia` says
  exactly when. It counts a typed nil pointer in such an interface as an attachment:
  `MediaSplit.NilFoundIff`. Values kept under one rendered key overwrite each other:
  `MediaSplit.NothingOverwrittenIff`.
- The `jsonschema` tag's `required` directive (`internal/schema/schema.go:201-202`) does not exist.
  A bare `required` is ignored, unless it follows a description: then it becomes part of the text.
  `SchemaTags.RequiredIgnoredIff` is the exact condition on the tag's parts. Commas in a description
  at the end of a tag, whatever stands before it, survive exactly as `SchemaTags.DescriptionKeptIff`
  says.
- Embedded structs are not always flattened as `encoding/json` does it (`internal/schema/schema.go:140`).
  `JsonFields.FlattensAsJsonIff` is the exact condition for a name, between the fields as the builder
  takes them and as `encoding/json` does by the rule it documents. They fail to be the same in three ways.
  A single field may be treated otherwise: `JsonFields.TreatedAlikeIff` says exactly which, among them
  an embedded pointer to a struct and an embedded struct whose tag has options and no name
  (`JsonFields.EmbeddedNotFlattened`). A struct embedded while it is being built gives nothing
  (`JsonFields.EmbeddedBeingBuilt`, `JsonFields.RecursiveEmbeddingLost`). And of fields with one name
  the last declared gives the property, however deep it is (`JsonFields.LastFieldWins`,
  `JsonFields.EmbeddedOverwrites`). Otherwise the promise is kept: `JsonFields.DistinctFlattenAsJson`.
  A property that several fields demand is listed as required each time: `JsonFields.RequiredOnceIff`.
- So an encoded value need not fit its type's schema: `SchemaMeaning.EncodingsFit` has the condition on
  the fields, and a nil pointer, slice or map is encoded as null, which fits only what can be anything
  (`SchemaMeaning.OtherKindsDoNotFit`).
- A chat-room participant that replies counts everything posted meanwhile as seen
  (`examples/deep_dives/async_chat/main.go:173-174`). `Broadcast.RepliesSkip` says what it skips,
  and that it skips nothing of the others exactly when the transcript has grown by its reply alone;
  `Broadcast.SkippedNeverRead` that it never reads what it skipped.
- `Sub` does not restore the service tier that `Add` merged away: `Usage.SubRestoresIff`.
- A turn's usage figure is not always taken against the turn's own start. A reader takes the idle
  marker and only then calls `finishTurn` (`conversation.go:181-184`); in between, a `Send` that finds
  the session idle and the queue empty skips the drain and overwrites the start
  (`conversation.go:140-149`). `TurnUsage.OvertakenRun` is such a run from a new session.
  `TurnUsage.FigureOf` is the exact condition: the figure is against its own start if and only if no
  session held the turn's marker when the next start was recorded, and history was not cleared since
  the turn's start. `Usage.StartReplacedIff` says when a figure against another start is right all the
  same; after a clear, which makes the turn report the whole cumulative total, that is
  `Usage.ClearedMidTurnIff`.
- Schema generation does not return on a cycle of types without a struct. `Schemas.ReturnsIffGrounded`
  is the exact condition on the type graph, `Schemas.ReturnsIff` that for a single type.

## Model

| member | source | states |
|---|---|---|
| TurnProtocol.StepKeeps | eventproc.go:192-442 | every atomic step of harness, read loop, tool goroutine, reader or sender, except a reset in the window, keeps the protocol invariant |
| TurnProtocol.RunKeeps | eventproc.go:192-442 | the invariant holds after any finite run of such steps |
| TurnProtocol.ReachableInv | eventproc.go:114-141 | it holds in every state reachable from a new, idle session |
| TurnProtocol.NoLossNoReorder | conversation.go:168-205 | reset never discards an event; what was emitted is what was taken plus what is queued; history is exactly the emitted steps in order, but for the one in hand and those still queued |
| TurnProtocol.TurnsInOrder | eventproc.go:361-383 | emitted events are grouped by turn in order, each past turn closed by exactly one idle marker, its last event |
| TurnEvents.SentIsQueued | eventproc.go:241-383 | over any clean run the events queued, but for the client's own announcements, are a prefix of what the harness sent: each step, and for the end of a turn its error if it was cancelled or failed and then its marker; and all of it when nothing is left to receive or queue |
| TurnEvents.ErrorIffBad | eventproc.go:361-383 | the event before a turn's marker is an error if and only if the harness ended the turn as cancelled or failed, and the turn has no other error |
| TurnEvents.ErrorReaches | conversation.go:176-205 | a reader that has a turn's marker has failed if and only if the turn was so ended, unless the marker is all it has seen: then the error was read by another |
| TurnEvents.DrainStopsOnError | conversation.go:140-165 | a drain that meets the error stops the send before a start is recorded; any other goes on |
| TurnEvents.CallsAnnouncedOnce | eventproc.go:477-495 | every call of a client tool is announced once, and by the end of its turn |
| TurnEvents.RunningCloses | eventproc.go:336-363 | a running report on the main trajectory closes the gate; reports on other trajectories change nothing |
| TurnEvents.QueueBounded | eventproc.go:125 | over any run the queue never holds more than 64 events |
| TurnEvents.BusyTurn | eventproc.go:192-383 | a run of a turn with a step, a client tool call, a subagent's step and idle report, and a failed end: each brings its event, the report none |
| TurnEvents.QueueBlocks | eventproc.go:125 | whoever has an event to queue waits while the queue holds 64 |
| TurnProtocol.ReaderSeesOneTurn | conversation.go:176-205 | a reader sees consecutive events of a single turn and nothing after its idle marker, even when an earlier turn was abandoned |
| TurnProtocol.ReaderOfTurn | conversation.go:176-205 | a reader that begins while events of turn k are still to come sees only events of turn k, however long it reads and whoever acts meanwhile |
| TurnProtocol.DeliveredBetweenTurns | conversation.go:137-153 | when the prompt is delivered the previous turn is over, no tool runs, the queue is empty and all its steps are in history |
| TurnProtocol.StartsSplitHistory | conversation.go:146-150 | each recorded turn start separates the steps of earlier turns from those of its own and later ones |
| TurnProtocol.OpenGateMeansOver | eventproc.go:361-369 | a caller that sees the gate open can rely on all the turn's events being queued already |
| TurnProtocol.RunKeepsGate | eventproc.go:361-383 | over every clean run, once a sender has seen the turn end the gate is open as soon as the read loop has nothing left to do |
| TurnProtocol.StartsCountSends | conversation.go:146-153 | over any run the turn starts recorded are the turns begun, the deliveries that failed and the one under way |
| TurnProtocol.FailedSendCounts | conversation.go:146-153 | so after a first send that fails there is one start and no turn |
| TurnProtocol.SubagentEndsTurn | eventproc.go:336-369 | why the harness must not report a subagent's state before the turn's first step: from a new session, such a report of any trajectory ends the turn for the client while the harness goes on with it |
| TurnProtocol.WindowReached | eventproc.go:368-369 | a run from a new session, with no reset in the window before, in which a drain takes the marker and the sender is about to reset while the gate is still to be opened |
| TurnProtocol.WindowLoses | eventproc.go:368-369 | from any such state a run, clean but for that one reset, discards a step of the new turn |
| TurnProtocol.IsolationFails | eventproc.go:427-442 | so there is a run from a new session in which a step of its second turn is discarded |
| TurnProtocol.ResetSafeIffGateSettled | eventproc.go:427-442 | a reset is safe, whatever follows, if and only if the read loop no longer owes the opening of the gate |
| TurnProtocol.ResetSafeIffIdle | eventproc.go:412-442 | which is to say, if and only if the session then reports itself idle |
| Requests.OneAnswerPerWait | eventproc.go:241-296 | over any interleaved stream, answers of a kind for a step are as many as its maximal waits that ask for that kind |
| Requests.AnswersAreAsked | eventproc.go:274-286 | every answer goes to an update that was waiting and carried the request |
| Requests.HandledMeans | eventproc.go:49-74 | a kind is marked as handled exactly while a wait that asked for it is still going on |
| Requests.StepTracker.SetState | eventproc.go:56-63 | leaving the waiting state forgets what was handled, and nothing else does |
| Requests.StepTracker.MarkHandled | eventproc.go:65-76 | the first to claim a kind wins; it stays claimed |
| Requests.Responder.Claim | eventproc.go:287-296 | a claim wins exactly when the step is tracked and the kind unhandled |
| Requests.Responder.HandleStepUpdate | eventproc.go:241-285 | each step's tracker stays what its own updates alone determine, and the answers dispatched are those of the stream so far |
| Questions.AnswerQuestions | eventproc.go:584-670 | one answer per question at its own position: the k-th multiple-choice question's conveys the k-th reply, unanswered if skipped and otherwise its text and its selections in range in the order selected; all others are unanswered |
| Questions.RepliesUsed | eventproc.go:600-643 | each reply within the number of questions asked answers exactly one question, the one put to the hook in its place, with its text, choices and multi-select flag |
| Questions.RankCounts | eventproc.go:600-621 | that place is the number of multiple-choice questions before it |
| Questions.QuestionAnswer | eventproc.go:652-670 | a skipped reply is unanswered; otherwise the text is sent, and the selections in range in the order selected |
| Questions.InRangeExact | eventproc.go:658-663 | exactly the selections the question has are sent, each as often as selected |
| Questions.FindAsked | eventproc.go:600-621 | the questions put to the hook, and where each came from |
| Questions.PlaceReplies | eventproc.go:635-642 | filling in place puts every reply at its question's position and changes no other answer |
| History.Conversation.constructor | conversation.go:59-70 | a new conversation holds the end of the restored history, with the default cap when none is given |
| History.Conversation.Record | conversation.go:72-82 | the transcript is the last maxHistory steps of everything recorded, and both index lists describe it |
| History.TranscriptCapped | conversation.go:86-91 | at any time the transcript is the end of what was recorded, as long as that or the cap, whichever is less |
| History.Conversation.TrimLocked | conversation.go:84-104 | trimming restores that invariant from any longer transcript |
| History.Conversation.BeginTurn | conversation.go:146-150 | the turn's start is recorded at the end of the log, before its prompt is delivered; the usage reading is kept, the last turn's figure reset |
| History.Conversation.FinishTurn | conversation.go:207-216 | the figure is the later reading less the start then stored |
| History.Conversation.ClearHistory | conversation.go:331-341 | nothing remains of transcript, turns and compactions, and the invariant starts afresh |
| History.Conversation.Settle | conversation.go:152-153 | a delivery that fails leaves the turn's start as it is |
| History.Conversation.TurnCount | conversation.go:316-321 | the starts retained; the prompts sent on the conversation if and only if as many starts were cleared or trimmed as sends failed or are undecided, and those sent since the last clear if and only if this holds of the starts since then |
| History.Conversation.LastResponse | conversation.go:290-301 | the content of the last complete response retained, or "" if there is none |
| History.Conversation.LastStructuredOutput | conversation.go:303-314 | the payload of the last finish step retained, even when that one has none |
| History.Conversation.CompactionIndices | conversation.go:323-329 | exactly the positions of compaction steps, ascending |
| History.Shift | conversation.go:93-101 | the in-place filter yields the surviving positions, shifted: no entry is overwritten before it is read |
| History.PositionsExact | conversation.go:77-80 | the recorded compactions are all and only the compaction steps, ascending |
| History.PositionsShift | conversation.go:91-103 | the compactions of the trimmed transcript are the old ones, shifted |
| History.ShiftedExact | conversation.go:93-101 | a position survives exactly when it is not among those dropped |
| History.ShiftedTwice | conversation.go:93-103 | trimming in steps shifts as trimming at once does |
| History.ShiftedOrdered | conversation.go:93-102 | turn starts stay in order |
| History.TurnCountExactIff | conversation.go:316-321 | the same of any record of sends and any trimming |
| History.TurnCountAllDelivered | conversation.go:88-104 | when none of the sends since the last clear failed, the count is exact if and only if the first start since then is retained |
| Chunks.StreamChunks | conversation.go:218-262 | the chunks of a turn's events, errors included, in order |
| Chunks.StreamGrows | conversation.go:224-262 | what each event adds: an error itself; a step of the model to the user its reasoning and then its text, under the step's index; any step then its calls that are the first of their id or have none |
| Chunks.TextMeans | conversation.go:236-247 | text and thought chunks concatenate to the model-to-user content and thinking deltas, in order |
| Chunks.CallsMean | conversation.go:249-259 | the tool calls yielded are those of the whole turn not seen before |
| Chunks.UnseenAreFirsts | conversation.go:221-226 | these are the calls without an id and the first of each other id, in order of occurrence |
| Chunks.EachIdOnce | conversation.go:221-223 | each id that occurs is yielded once; every call without an id is yielded |
| Chunks.FailuresPass | chatresponse.go:144-163 | whatever a cursor filters for, it passes on every error, in order |
| Chunks.EveryChunkPasses | chatresponse.go:96-114 | a cursor over all chunks has each chunk and each error at its place |
| Replay.ChatResponse.Entry | chatresponse.go:72-94 | the entry at a position, pulling no more than needed, each element once, and nothing after done |
| Replay.ChatResponse.Close | chatresponse.go:228-242 | closing freezes the buffer; closing again changes nothing |
| Replay.ChatResponse.Drain | chatresponse.go:102-163 | a filtering cursor run to the end yields the converted buffer, which is then the whole turn unless it was closed |
| Replay.Wait | chatresponse.go:184-200 | the concatenated text chunks and the last error |
| Replay.Resolve | chatresponse.go:165-182 | every chunk and the last error |
| Replay.AtExtends | chatresponse.go:77-94 | a read extends the buffer by a prefix of the stream, and not at all once done |
| Replay.StepKeeps | chatresponse.go:77-114 | opening, advancing or closing keeps every cursor on exactly the buffer up to its position |
| Replay.OpenCloseLaw | chatresponse.go:96-114 | a new cursor starts at the beginning; closing keeps what is buffered and lets nothing follow |
| Replay.AdvanceLaw | chatresponse.go:77-114 | advancing a cursor yields the next entry, or ends it if none is to come, and leaves the others alone |
| Replay.RunKeeps | chatresponse.go:77-114 | so under any interleaving the buffer is a prefix of the stream and is frozen once done; a finished cursor has read all of it |
| Replay.CursorsAgree | chatresponse.go:28-37 | of two cursors the shorter's reading is a prefix of the other's |
| Replay.FinishedReadAll | chatresponse.go:96-114 | without a Close, a finished cursor has read the whole turn |
| Replay.WaitMeans | chatresponse.go:184-200 | an undisturbed Wait returns the model-to-user content deltas concatenated, and the turn's last error |
| Replay.ResolveMeans | chatresponse.go:165-182 | an undisturbed Resolve returns every chunk of the turn, in order, and the turn's last error |
| Replay.ToolCallsMean | chatresponse.go:135-142 | a drained tool-call cursor has each id once at its first occurrence and every id-less call |
| Usage.TiersJoin | usage.go:76-87 | service tiers are a join-semilattice, unset at the bottom, standard at the top; two that are known and differ give standard |
| Usage.AddAssociates | usage.go:42-56 | addition associates, wrap-around and tiers included |
| Usage.AddCommutes | usage.go:42-56 | addition commutes |
| Usage.TotalPermutes | usage.go:42-56 | a total does not depend on the order of its parts |
| Usage.SubInvertsAdd | usage.go:58-74 | subtraction undoes addition on counts, and a snapshot plus the difference is the later snapshot |
| Usage.SubRestoresIff | usage.go:58-87 | the tier comes back exactly when merging had not changed it |
| Usage.TurnsTelescope | conversation.go:207-216 | for any readings before and after each turn, what the turns spent plus the gaps between them is the cumulative total |
| Usage.RunTelescopes | conversation.go:207-216 | over any sequence of sends, finished turns and clears the figures reported, and the gaps from each end to the next start used, add up to the total last read |
| Usage.ReportsTurns | conversation.go:207-216 | over any such sequence the figures reported are what was spent between the start in force and each end |
| Usage.StartReplacedIff | conversation.go:207-216 | a figure taken against another start is right if and only if the two have the same counts, and the same tier if none is known at the end |
| Usage.ClearedMidTurnIff | conversation.go:333-341 | the figure of a turn during which history was cleared is right if and only if nothing had been spent before it and no tier was known before that is not known after |
| Usage.RunClearedMidTurn | conversation.go:333-341 | a run that clears history during a turn reports the cumulative total as that turn's figure |
| TurnUsage.RunKeepsSound | conversation.go:120-216 | over any run, with history cleared at any time, starts and ends come in the order of turns, an end after its start, and at most the next turn's start between them |
| TurnUsage.HeldMeansUnfinished | conversation.go:140-149 | when a start is recorded a session holds nothing or the last turn's marker, and nothing if and only if that turn is finished |
| TurnUsage.EachTurnOnce | conversation.go:181-184 | every turn that finishes has a start of its own, and finishes once |
| TurnUsage.InForceExact | conversation.go:207-216 | the start a figure is taken against: none after a clear, the next turn's if that was recorded over the held marker, and otherwise the turn's own |
| TurnUsage.FigureOf | conversation.go:207-216 | over any run, a turn's figure is taken against its own start if and only if no session held its marker when the next start was recorded and history was not cleared since; what it is otherwise, and when that is right all the same |
| TurnUsage.OwnTurnsTelescope | conversation.go:207-216 | over any run in which no turn is overtaken and no history cleared during one, the figures are what the turns spent from their own starts, and with the gaps between turns add up to the total |
| TurnUsage.OvertakenRun | conversation.go:140-149 | a run from a new session, without any clear, in which the first turn's figure is taken against the second start, whatever the readings |
| Tracing.ReactKeeps | tracing/tracing.go:196-474 | every callback, in any order, keeps the books, the ledger, the nesting and the routes |
| Tracing.ReactAllKeeps | tracing/tracing.go:196-474 | so does any sequence of callbacks |
| Tracing.EverySpanOnce | tracing/tracing.go:130-164 | a span is ended at most once, held by at most one field and by none once ended; one that is neither was overwritten |
| Tracing.EndsInsideOut | tracing/tracing.go:247-273 | a step ends before its turn or subagent, a subagent before its turn, a turn before its session, and everything a turn started before it |
| Tracing.IdleIsEmpty | tracing/tracing.go:252-273 | with no live turn every map and queue is empty and every span of a past turn has ended |
| Tracing.DelegatesLive | tracing/tracing.go:329-386 | an open step of a delegated trajectory nests in its live subagent span; each call closes at most one delegate, a live one |
| Tracing.StepsNeverReopened | tracing/tracing.go:299-310 | within any turn, live or past, a trajectory's steps open in increasing order, so a late update reopens none |
| Tracing.SessionEndEndsAll | tracing/tracing.go:209-216 | after the session ends no span is open, but for an overwritten one |
| Tracing.LostOnlyByRestart | tracing/tracing.go:196-207 | a callback loses a span only by starting a session over a live one, and only that one |
| Tracing.NothingLost | tracing/tracing.go:196-207 | if sessions are never restarted live, no span is ever lost |
| Tracing.SweepComplete | tracing/tracing.go:256-265 | whatever order the maps are walked in, the sweep ends every open span of the turn once, children first |
| Tracing.Tracer.constructor | tracing/tracing.go:173-190 | a new tracer is empty and satisfies the invariant that every callback below relies on and keeps |
| Tracing.Tracer.SessionStart | tracing/tracing.go:196-207 | keeps the invariant; the whole new state, the previous session's span overwritten |
| Tracing.Tracer.SessionEnd | tracing/tracing.go:209-216 | keeps the invariant; the turn and everything in it ended, then the session |
| Tracing.Tracer.PreTurn | tracing/tracing.go:218-237 | keeps the invariant; a turn left open is ended, and the new one nests in the session |
| Tracing.Tracer.PostTurn | tracing/tracing.go:239-245 | keeps the invariant; the turn and everything in it ended |
| Tracing.Tracer.EndTurnLocked | tracing/tracing.go:252-273 | a complete sweep, in some order of each map, then everything forgotten |
| Tracing.Tracer.ObserveStep | tracing/tracing.go:285-327 | keeps the invariant; the whole new state after a step update |
| Tracing.Tracer.StartStepLocked | tracing/tracing.go:329-344 | a step opened under its turn, or under the subagent opened for it |
| Tracing.Tracer.EndStepLocked | tracing/tracing.go:346-355 | the open step ended and its index remembered |
| Tracing.Tracer.SubagentLocked | tracing/tracing.go:357-386 | one span per delegated trajectory, named by the oldest waiting request |
| Tracing.Tracer.StartToolLocked | tracing/tracing.go:392-414 | one open span per call id; a delegation is queued with it |
| Tracing.Tracer.PostToolCall | tracing/tracing.go:435-459 | keeps the invariant; the tool ended, and with a delegation its step and subagent |
| Tracing.Tracer.ToolError | tracing/tracing.go:461-474 | keeps the invariant; the tool ended, nothing else changed |
| TracingLaws.StepLaw | tracing/tracing.go:285-327 | an update that is not late has a span for its step in the live turn, which ends on done, error and canceled and on nothing else; a step its trajectory has moved on from ends first |
| TracingLaws.StepToolsLaw | tracing/tracing.go:312-314 | every call of the update with an id has an open span, the one it had or a new one in the step, and nothing else is started but the step and its subagent |
| TracingLaws.StepDelegatesLaw | tracing/tracing.go:329-414 | a delegate's step nests in its subagent's span, started with it by the name of the delegation that has waited longest; other steps nest in the turn; calls that start subagents wait in order |
| TracingLaws.StepLeavesOthers | tracing/tracing.go:285-327 | all other spans stay where they are |
| TracingLaws.LateLaw | tracing/tracing.go:299-310 | a late update starts nothing; at most it ends the step its trajectory moved on from |
| TracingLaws.NoTurnLaw | tracing/tracing.go:289-293 | without a turn a step leaves no trace |
| TracingLaws.ToolResultLaw | tracing/tracing.go:435-459 | a result ends exactly the call's span, and if it started a delegate the step that has open and then the delegate's |
| TracingLaws.ToolErrorLaw | tracing/tracing.go:461-474 | a failed call ends its own span and nothing else |
| TracingLaws.TurnLaw | tracing/tracing.go:218-273 | a turn nests in the session, and ends with all it had open before it, of which nothing is remembered |
| TracingLaws.SessionStartLaw | tracing/tracing.go:196-207 | a session starts a span of its own and ends none; one that was live is lost |
| TracingLaws.SessionEndLaw | tracing/tracing.go:209-216 | a turn left open ends, and then the session |
| Policies.OrderIncreasing | policy.go:339-351 | the evaluation order is by scope, decision and declared position |
| Policies.IncreasingUnique | policy.go:346-351 | any stable order is this one, whatever sort found it |
| Policies.FaultExact | policy.go:354-370 | a policy's faults: asking the user without a handler, and a target that names an unknown server before its first slash |
| Policies.NewEnforcer | policy.go:334-379 | an enforcer is built exactly when no policy has a fault; otherwise the fault first met in evaluation order is reported |
| Policies.Enforcer.Evaluate | policy.go:384-456 | the verdict is the declarative meaning of the declared list |
| Policies.WalkMeans | policy.go:384-456 | sorting and taking the first match gives the verdict least in (scope, decision, position) among the deciding non-marker policies, or approval if none decides |
| Policies.MeansReports | policy.go:392-456 | what is reported, rule, permission and message, for each decision, predicate and handler, failures included; and approval by no rule if none decides |
| Policies.MatchesExact | policy.go:268-283 | the calls that a target is for |
| Policies.MeansUnique | policy.go:384-391 | a list means one verdict |
| Policies.PriorityRule | policy.go:51-57 | exact targets beat server-wide ones and those the wildcard; then deny beats ask beats approve; then declaration order |
| Policies.OnlyAllowedTool | policy.go:195-202 | a deny-all with one allowed tool, in either order, permits only that tool |
| Policies.OrderIrrelevantIffTiesAgree | policy.go:334-351 | the permission is the same for every permutation of the list if and only if the policies tied for first place agree |
| Policies.PermutationKeeps | policy.go:334-351 | without failing predicates and with agreeing handlers, no permutation changes the permission |
| Policies.ReorderingKeeps | policy.go:334-351 | the same for any list of the same policies, repetitions included |
| Policies.DenyMonotone | policy.go:296-309 | one more Deny, anywhere, never turns a denied call into an allowed one |
| PolicySplit.PolicyConfig | policyproto.go:60-89 | the rules in declared order; the table resolves exactly the dynamic ones |
| PolicySplit.RuleExact | policyproto.go:32-84 | what each rule tells the harness: name, decision, target on either side of the first slash, and whether and by what id to ask |
| PolicySplit.RuleIdInjective | policyproto.go:72-76 | rule ids are injective |
| PolicySplit.IdsResolve | policyproto.go:91-98 | an id resolves exactly when it is a dynamic policy's, and then to that policy |
| PolicySplit.TargetsAgree | policyproto.go:32-41 | the parsed target of a named server, or of none, selects the calls the target itself selects, for every call that splits |
| PolicySplit.CallSplitsIff | policyproto.go:32-41 | every such target agrees on a call if and only if the call splits: which builtin names, server names and tool names those are |
| PolicySplit.NamedServerIff | policyproto.go:32-41 | a target agrees on every call that splits if and only if its server part is not empty |
| PolicySplit.PlainCallsAgreeIff | policyproto.go:32-41 | on calls without a slash, if and only if its server part is not empty or it has a second slash |
| PolicySplit.SlashStarIsWildcard | policyproto.go:33-40 | the target "/*" selects every call over the wire, and in process only a builtin tool of that name |
| PolicySplit.AnswersAgreeIff | eventproc.go:694-759 | the client's answer is the evaluator's verdict if and only if the decision is known or the predicate did not match |
| PolicySplit.SplitRefinesWhole | policyproto.go:26-98 | for rules an enforcer accepts, the harness deciding static rules and asking about dynamic ones permits exactly what the enforcer does, for every call that splits |
| PolicySplit.CallSplitsNeeded | policyproto.go:26-98 | for a call that does not split there are accepted rules, one static denial, that the two sides decide differently |
| PolicySplit.AcceptedSplits | policy.go:354-370 | accepted rules with known decisions and valid server names are carried faithfully |
| PolicySplit.SlashedNameDiffers | policyproto.go:37-39 | a builtin tool with a slash in its name is selected in process and not over the wire |
| PolicySplit.EmptyServerDiffers | policyproto.go:37-39 | a target of a slash and a plain name means that builtin tool over the wire and not in process |
| MediaSplit.SplitMedia | toolresult.go:32-44 | nothing for nil; a result that is media is all attachment, even a typed nil pointer; anything else is searched |
| MediaSplit.SplitMediaValue | toolresult.go:51-124 | the outcome for every kind of value |
| MediaSplit.SplitItems | toolresult.go:80-98 | slices and arrays: what is kept, and the attachments in order |
| MediaSplit.SplitKeyed | toolresult.go:100-152 | maps and structs: what is kept under rendered keys, and the attachments in the order walked |
| MediaSplit.KeyedExact | toolresult.go:100-167 | a map or struct that held media becomes a plain map that has under each wire name, a field's json tag up to its first comma unless that is nothing or a dash, what is left of the last such entry, and no other name; or nothing, if nothing is left of any |
| MediaSplit.ListedExact | toolresult.go:80-98 | a slice or array that held media becomes a list of what is left of its items, in order |
| MediaSplit.FindsAllMedia | toolresult.go:51-124 | splitting panics exactly when the search meets a nil interface of a media type, and otherwise finds every attachment, in order |
| MediaSplit.NilFoundIff | toolresult.go:56-65 | a nil attachment is among those found if and only if the search meets an interface of a media type that holds a typed nil pointer |
| MediaSplit.OrderDoesNotMatter | toolresult.go:100-109 | what is found does not depend, as a multiset, on the order of any map in the value |
| MediaSplit.CleanedUpToOrder | toolresult.go:100-109 | nor, with distinct rendered keys, do whether splitting panics and the cleaned value, but for the order of the maps in it |
| MediaSplit.CleanedIsClean | toolresult.go:23-31 | the cleaned value holds no attachment |
| MediaSplit.SplitsOnce | toolresult.go:48-124 | splitting it again finds nothing and leaves it as it is |
| MediaSplit.UntouchedWithoutMedia | toolresult.go:92-94 | a container without media comes back as it was |
| MediaSplit.LeavesSurvive | toolresult.go:80-152 | with distinct rendered keys every leaf outside the attachments survives, in order |
| MediaSplit.NothingOverwrittenIff | toolresult.go:132-142 | every kept value has its own entry if and only if the rendered keys are distinct |
| MediaSplit.FieldNameIgnoresOptions | toolresult.go:154-167 | a field is named by its json tag up to the first comma, or by itself |
| Schemas.Build | internal/schema/schema.go:75-125 | terminates on every graph whose cycles pass through a struct, or end in bytes or in a map with keys that are not strings; restores the seen set, and gives the schema of the type within the structs on its path |
| Schemas.BuildStruct | internal/schema/schema.go:127-177 | the same for a struct, whatever error ends it |
| Schemas.BuildField | internal/schema/schema.go:137-174 | the same for one field: embedded, skipped or a property |
| Schemas.BuildArray | internal/schema/schema.go:94-103 | the same for slices and arrays |
| Schemas.BuildMap | internal/schema/schema.go:105-113 | the same for maps |
| Schemas.BuildRoot | internal/schema/schema.go:62-73 | the schema with nothing on the path; an empty object for no type |
| SchemaMeaning.SchemaDescribed | internal/schema/schema.go:75-177 | what the schema of each type says, at every level: its type name, its format, its items or values, its properties by the last field of each name, what is required, and what the fields' tags add |
| SchemaMeaning.SchemaFails | internal/schema/schema.go:105-124 | why a type has no schema: it is unsupported or has keys that are not strings, or so for its element or for the first field that has none, by whose name the error is reported |
| SchemaMeaning.EncodingsFit | internal/schema/schema.go:75-177 | every encoding of a value of a type fits the type's schema, if every property is of the field encoding/json takes under its name |
| SchemaMeaning.OtherKindsDoNotFit | internal/schema/schema.go:75-125 | values of another JSON kind fit no schema of the type, null included unless the type can be anything |
| SchemaMeaning.AllTakenWhen | internal/schema/schema.go:137-174 | the properties are of the fields taken whenever the builder and encoding/json treat all fields alike, no two give one name, and none has a number or boolean as text |
| Schemas.Dereference | internal/schema/schema.go:76-78 | pointers lead to a type of the same schema |
| Schemas.Merge | internal/schema/schema.go:141-150 | embedding adds the struct's properties and requirements, in whatever order its map is walked |
| Schemas.JsonNameOf | internal/schema/schema.go:181-197 | the wire name, whether it may be omitted, or that it is skipped |
| Schemas.NameExact | internal/schema/schema.go:181-197 | a dash alone skips a field; otherwise its name is the tag up to the first comma, or its own if that is empty, and it may be omitted if omitempty is among the options after it |
| Schemas.DepthDrops | internal/schema/schema.go:76-109 | following an element shortens the struct-free path |
| Schemas.SchemaRequired | internal/schema/schema.go:169-173 | at every level the required names are properties |
| Schemas.FieldsExact | internal/schema/schema.go:137-174 | a struct has exactly the properties its fields give and requires exactly those without omitempty or pointer, embedded structs flattened |
| Schemas.OnlyReachableMatters | internal/schema/schema.go:127-133 | a schema depends only on the structs of the path that its type can reach |
| Schemas.OwnSchema | internal/schema/schema.go:132-133 | so a struct met side by side, rather than within itself, is written out in full |
| Schemas.SupportedBuilds | internal/schema/schema.go:105-124 | a type that reaches only supported types has a schema, however it recurs |
| Schemas.SchemaReturns | internal/schema/schema.go:75-177 | on a grounded graph some number of nested calls suffices, for every type and path, and gives the schema |
| Schemas.EndlessNeverReturns | internal/schema/schema.go:75-113 | on a chain of elements without an end no number of nested calls does |
| Schemas.ReturnsIffGrounded | internal/schema/schema.go:71-125 | the builder returns for every type of a graph, whatever structs are being built, if and only if every chain of elements ends |
| Schemas.ReturnsIff | internal/schema/schema.go:71-177 | it returns for a type, within given structs, if and only if it does not get stuck there: on a chain of elements without an end that it gets to, no field before it having failed |
| Schemas.ReachedReturns | internal/schema/schema.go:71-177 | so for every type that reaches no such chain, whatever else the graph has |
| JsonFields.LastFieldWins | internal/schema/schema.go:137-174 | of the fields with one name, embedded structs flattened, the last declared gives the property |
| JsonFields.RequiredOnceIff | internal/schema/schema.go:145-173 | the required names are those the fields demand, one by one, in order; none is listed twice if and only if no two fields demand one name |
| JsonFields.TreatedAlikeIff | internal/schema/schema.go:140-159 | for which single fields the builder and encoding/json do the same: drop them, name them, or flatten what they embed |
| JsonFields.FlattensAsJsonIff | internal/schema/schema.go:140-149 | the schema has for a name what encoding/json has, a property or none, if and only if the last of the builder's fields of the name is, or has the schema of, the one that encoding/json takes of its own fields, and there is none where it takes none |
| JsonFields.AlikeMatchesIff | internal/schema/schema.go:140-149 | when every field come to is treated alike, the two have the same fields, and agree on a name if and only if for encoding/json the last field of the name beats all others, or has the schema of the one that does |
| JsonFields.DistinctFlattenAsJson | internal/schema/schema.go:140-149 | so flattening matches encoding/json whenever every field is treated alike, none embeds a struct being built, and no two give one name |
| JsonFields.NotFlattenedDiffers | internal/schema/schema.go:141 | for a struct of one field that only encoding/json flattens: on which names they differ |
| JsonFields.OtherNameDiffers | internal/schema/schema.go:152-159 | and for one that encoding/json takes under a name and the builder under another, or not at all |
| JsonFields.EmbeddedNotFlattened | internal/schema/schema.go:141 | so for an embedded pointer to a struct of one string field, and for the struct embedded with a tag of options only: they differ on the struct's name and on the field's |
| JsonFields.EmbeddedBeingBuilt | internal/schema/schema.go:128-142 | an embedded struct that is being built gives no property: they differ on every name that encoding/json takes from it |
| JsonFields.RecursiveEmbeddingLost | internal/schema/schema.go:128-142 | so for a struct with a pointer to a struct that embeds it |
| JsonFields.EmbeddedOverwrites | internal/schema/schema.go:144-149 | and for a string field followed by an embedded struct with a boolean of the same name: the schema has the boolean, encoding/json the string |
| SchemaTags.ApplyTag | internal/schema/schema.go:205-241 | the notes that a tag's parts set in turn |
| SchemaTags.TagSets | internal/schema/schema.go:205-241 | every enum directive adds its value in order, the last format directive sets the format, and without a description directive the description stays |
| SchemaTags.TrimExact | internal/schema/schema.go:215 | a directive's key is read without the spaces at either end |
| SchemaTags.DescriptionKeptIff | internal/schema/schema.go:199-241 | a description at the end of a tag, behind any other directives, keeps its commas if and only if it is the tag's first and no later fragment is taken for a directive |
| SchemaTags.ProseIgnoredIff | internal/schema/schema.go:209-223 | a part that is no directive changes nothing if and only if the last directive before it is not a description; otherwise it joins the text, and no later part makes up for it |
| SchemaTags.RequiredIgnoredIff | internal/schema/schema.go:199-223 | so for a bare required, at any place in any tag |
| RateLimiter.Limiter.Hook | examples/deep_dives/agent_middleware/main.go:97-121 | a call is denied exactly when the window holds max of the tool's admissions, of all it ever had; other tools are untouched, and the bound holds in every state |
| RateLimiter.DropExpired | examples/deep_dives/agent_middleware/main.go:102-108 | the in-place filter keeps exactly the live entries: none is overwritten before it is read |
| RateLimiter.WindowBound | examples/deep_dives/agent_middleware/main.go:83-84 | any half-open interval of the window's length holds at most max admitted calls of a tool |
| RateLimiter.DeniedIffFull | examples/deep_dives/agent_middleware/main.go:110-117 | a call is denied if and only if the window ending with it holds exactly max admissions |
| RateLimiter.ExpiredDoNotCount | examples/deep_dives/agent_middleware/main.go:101-108 | forgetting expired calls changes no decision |
| Broadcast.Room.Post | examples/deep_dives/async_chat/main.go:84-91 | the message is appended, every earlier channel is closed, exactly once, and the new one is open |
| Broadcast.Room.Look | examples/deep_dives/async_chat/main.go:95-107 | what is new after n, or the channel of the present length |
| Broadcast.Room.NoLostWakeUp | examples/deep_dives/async_chat/main.go:104-107 | a waiter's channel is closed as soon as there is something for it, and only after something happened |
| Broadcast.NeverStuck | examples/deep_dives/async_chat/main.go:93-115 | in every reachable state a waiting reader can wake if and only if it has unread messages |
| Broadcast.WokenReads | examples/deep_dives/async_chat/main.go:93-115 | and waking, looking and taking then hands it all that it has not seen; giving up changes nothing but that it waits no longer |
| Broadcast.ReadsEverything | examples/deep_dives/async_chat/main.go:93-115 | a reader that only reads is handed every message once, in order |
| Broadcast.HandedFromSeen | examples/deep_dives/async_chat/main.go:93-115 | over any run a reader is handed only messages from where it counts as seen, each at most once, in order |
| Broadcast.RepliesSkip | examples/deep_dives/async_chat/main.go:130-175 | a participant that replies has skipped whatever was posted since it looked, and its reply alone if and only if the transcript is then one longer than it had seen |
| Broadcast.SkippedNeverRead | examples/deep_dives/async_chat/main.go:130-175 | whatever happens afterwards, it is handed only messages posted after it caught up |
| Broadcast.IdleGate.MarkRunning | eventproc.go:383-392 | the gate is closed; a channel someone may wait on is never replaced |
| Broadcast.IdleGate.MarkIdle | eventproc.go:394-403 | every channel ever handed out is closed, none twice |
| Broadcast.IdleGate.IsIdle | eventproc.go:405-420 | idle exactly when nobody can be left waiting |
| Snapshots.DiffSnapshots | triggers.go:309-331 | each changed path once, as what happened to it, strictly ascending, in whatever order the maps are walked |
| Snapshots.AscendingUnique | triggers.go:309-310 | two sweeps have a single report |
| Snapshots.LessIff | triggers.go:328-330 | the order is lexicographic: the first character that differs decides, and a path comes before what it begins |
| Snapshots.EmptyIffSame | triggers.go:233-240 | nothing is reported exactly when nothing changed |
| Snapshots.ReportGivesFiles | triggers.go:311-331 | applying a report to the files before gives the files after |
| Snapshots.ChangedExact | triggers.go:268-276 | the sweeps reported are those that differ from the one before |
| Snapshots.OnFileChange | triggers.go:257-277 | for each sweep that differs, until the callback fails, the batch that reports it against the sweep before it, with the right kinds; folding the batches over the baseline gives the latest files |
| Text.SplitJoin | internal/schema/schema.go:214 | splitting a tag at its commas loses nothing |
| Text.SplitBoth | internal/schema/schema.go:214 | splitting at a comma splits what stands on either side of it |
| Text.DecimalExact | policyproto.go:74 | an index is written in decimal digits |
| Text.DecimalInjective | policyproto.go:74 | different indices print differently |

## Left out

- Session end: after it `emit` may drop events (`eventproc.go:190-199`); the protocol is modelled up to it.
- Triggers that start a turn without `Send` (`conversation.go:387-395`).
- Liveness: a full queue can block the read loop, and a `Send` can wait in its drain.
- Context cancellation is modelled only as a reader that stops and a waiter that gives up.
- The suppression of duplicate announcements of a client's own tools (`eventproc.go:262-271`), stop reasons, depth and per-trajectory usage: one-branch bookkeeping.
- Panics in user callbacks, logging and the text of error messages other than the policy and rule they name.
- The encoding of tool results, JSON, protobuf and the transport; launching the harness; configuration rendering.
- Types with a JSON encoding of their own, such as times: `SchemaMeaning.Encodes` is that of their kind.
- Values that reach themselves through a pointer, on which `splitMediaValue` does not return: values are trees.
- What a step's span records besides its place, index and trajectory; `subagentName` is a field of the call.
- Slice aliasing beyond the two in-place filters: a transcript's steps are a sequence, not a shared array.
- Schemas.Build: Go's distinction between absent and empty property maps, which its JSON output does not show.
- Snapshots.OnFileChange: time stamps are integers, compared for equality only.
- RateLimiter.Limiter.Hook: times are integers; the clock does not run backwards, as Go's monotonic reading does not.
