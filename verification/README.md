# A verified model of the agent kernel and its supervisors

This Dafny project models the parts of the repository where a mistake would be silent: the in-process agent kernel
(`app/agentcore`), the tunnel session manager (`app/tunnel`), the companion's watchdog (`app/tray`), and two small
stores (`common/logger`, `app/agentruntime`). Check it with `dafny verify dfyconfig.toml`.

**The agent loop.** `Agent` says what one turn and a whole run do to the runner's state, as functions of everything the
environment decides: steering, streams and their failures, summaries, tool outcomes, cancellation. `Runner` is the loop
itself, a class whose methods change the runner's fields step by step; every method is proved to do what the function of
the same name says. `AgentProperties` and `AgentRuns` prove what every run keeps: tool requests stay paired with their
results in the history and in the requests sent, counters mean what they claim about the trace, compaction attempts obey
their cooldown, the context window only shrinks, the number of requests is bounded, cache marks never reach the history.
`Signatures` says when two turns' tool calls count as identical, `Conversation` what the histories compacted in a run look
like, `Turns` what one turn does in terms of what its last stream brought, `Transcripts` what a summary is made from,
`Overflow` when a turn is sent again although the host has seen frames of it. `Compaction`, `Media`, `Cache` (over slices
in memory, since there aliasing is the point) and `Streaming` are its parts.
`ToolBatch` is the concurrent batch of tool calls as a step relation over goroutines; every finished interleaving ends as
a sequential execution would, and none gets stuck.

**The Edit tool.** `Edit`, `EditProperties` and `EditResults`: overlapping search, leftmost replacement, line endings and
byte order mark, and the offset table that carries a fuzzy match back to the original bytes.

**The client.** `Client`: reading one event stream, and retrying whole requests without mixing two answers. `Retries` says
which answers are retried, `Wire` how frames become the reply.

**The tunnel.** `Tunnel.Manager` holds the critical sections; the step relation beside it interleaves Configure, Stop and
any number of workers with late reports.

**Supervision and logs.** `Watchdog`, `LogBuffer`; `Rotation` is one rotation of a log's files, `LogRotate` the writer, and
`LogRuns` any list of writes.

Strings of the conversation are sequences of characters, file contents sequences of bytes, times seconds (milliseconds in
the client). Integers are unbounded.

## What the proofs found

- A fuzzy edit whose hit covers half of a character cuts nothing and inserts the new text before that character
  (`EditProperties.HalfCharacterHitInserts`); `EditProperties.FuzzySpanIff` says exactly when the cut is the searched text.
- In a CRLF file an edit rewrites lone LFs elsewhere in the file (`EditProperties.MixedFileIsRewritten`). The bytes outside
  the match survive exactly when no LF outside it stands alone (`EditProperties.UniqueEditIsLocal`).
- The summary request of the identical-call guard is sent before any results exist, so it is never paired
  (`AgentRuns.DuplicateWrapUpDangles`, `AgentRuns.LimitOneDangles`). Every other request is.
- When Configure gives up waiting for the old session its status, "connected" say, stays although no session is live, and
  Stop does not correct it (`Tunnel.TimeoutLeavesConnected`, `Tunnel.ReplacedStatusStays`). This is the only way
  (`Tunnel.StatusHonestIff`), unless a worker of the present generation reports once more after its last report: then a
  session that failed by itself looks alive again (`Tunnel.LateReportRevives`, `Tunnel.ReportLiesIffLate`).
- With zero backups the log file is never cut: rotation reopens the same file for appending
  (`LogRotate.ZeroBackupsNeverCut`).
- A failed rename of a backup can lose that file while an older one is kept (`Rotation.FailedRenameLosesMiddle`), exactly
  when the rename of the next newer file onto it then succeeds (`Rotation.RotationKeepsSuffixIff`). Once all older files
  have been rotated out the disk is the end of the log again (`Rotation.RotatedTailIff`); while the backups can be moved it
  always is (`LogRuns.DiskStaysSuffix`).
- One tool call whose name holds both separators counts as identical with two calls whose names hold none
  (`Signatures.SeparatorsConfuseSignatures`); arguments cannot do this, since json.Marshal escapes control characters.
  `Signatures.TwinIff` says exactly which lists of calls have such a double.
- Messages just steered in are meant to stay out of the summary (`app/agentcore/loop.go:467-468`). Several at once that do
  not fit a quarter of the window do not (`Conversation.SteeringIsFolded`, `Conversation.SteeringKeptIff`).
- Blank user messages may not open the kept tail, so the cut can move back over several of them
  (`Compaction.BlankMessagesStepFurther`, `Compaction.StepsBackAtMostOneIff`).
- An overflow rerun is meant to be impossible once frames of the turn are out (`app/agentcore/loop.go:775-778`). It is not:
  text streamed before the start event leaves the flag unset (`Overflow.TextThenRerun`), and a rerun for the effort or the
  cache marks clears it (`Overflow.StartThenRerun`). `Overflow.RerunBehindFramesIff` says exactly when.
- The sync after a restart does not pass the five-minute gate, so a patrol's reconcile request can follow it ten seconds later
  (`Watchdog.SyncThenReconcile`).
- Images nested in tool results are not replaced by placeholders, only a message's own images are
  (`Media.NestedImagesStayIff`).

## Model

| member | source | states |
|---|---|---|
| Runner.Runner.Loop | app/agentcore/loop.go:441-616 | the loop over any finite stretch of inputs ends in the state and verdict of the specified run, so every run property below holds of it |
| Runner.Runner.Turn | app/agentcore/loop.go:451-615 | one pass of the loop: cancellation first, then steering, compaction, conversation, conclusion |
| Runner.Runner.MaybeAutoCompact | app/agentcore/loop.go:678-745 | disabled, cooling down, below threshold, nothing to do, failed or done, in this order, each with its effect on the counters |
| Runner.Runner.TakeCompaction | app/agentcore/loop.go:714-745 | a failed attempt counts and starts the cooldown, a success clears both, finding nothing changes neither |
| Runner.Runner.NoteContextOverflow | app/agentcore/loop.go:779-847 | recovery only below the retry limit, for the right error, with no turn-start frame sent by the last stream; lowers the window, compacts, and says whether to rerun |
| Runner.Runner.EffectiveContextWindow | app/agentcore/loop.go:754-763 | the configured or default window unless an overflow lowered it further |
| Runner.Runner.Converse | app/agentcore/loop.go:475-502 | the request and its reruns in order effort, cache, overflow; only the first carries breakpoints |
| Runner.Runner.NoteEffortRejection | app/agentcore/loop.go:926-936 | latches at most once, and only when an effort was sent |
| Runner.Runner.NoteCacheRejection | app/agentcore/loop.go:970-980 | latches at most once |
| Runner.Runner.Stream | app/agentcore/loop.go:983-1219 | context size and frame flag follow the events even of a failed stream, whose blocks are thrown away |
| Runner.Runner.Settle | app/agentcore/loop.go:508-615 | reply into history, images stubbed, then exactly one of close, refill, duplicate guard, execute |
| Runner.Runner.RefillTruncated | app/agentcore/loop.go:546-569 | a truncated request for tools gets one failure per call and executes nothing |
| Runner.Runner.Execute | app/agentcore/loop.go:590-614 | results appended before the error guard and before the write to the host |
| Runner.Runner.CountErrors | app/agentcore/loop.go:596-602 | the streak over a list of results, reset by any success |
| Runner.Runner.ToolCallSignature | app/agentcore/loop.go:627-638 | the loop writes the specified signature |
| Runner.Runner.FailTruncatedToolUses | app/agentcore/loop.go:1573-1584 | one failure block per call, in call order, with its id |
| Runner.Runner.CollectToolUses | app/agentcore/loop.go:1562-1570 | the tool requests among the blocks, in order |
| Runner.Runner.ExecuteTools | app/agentcore/loop.go:1228-1290 | segment by segment, yet every call's block carries its own tool's output and error flag, or says that it did not run, in call order, and every call that ran is booked once |
| Runner.Runner.ExecuteParallelBatch | app/agentcore/loop.go:1295-1319 | whatever order the goroutines finish in, each slot carries its own call's output and error flag, and a call that was not started says so |
| Runner.Runner.WrapUp | app/agentcore/loop.go:647-667 | no request once cancelled; otherwise the marked history and one instruction more |
| Runner.Runner.constructor | app/agentcore/loop.go:296-315 | a runner starts with all counters, latches and traces empty |
| AgentRuns.EveryRequestIsPaired | app/agentcore/loop.go:449-615 | in every run a request pairs tools with results exactly when it is not the identical-call guard's summary, and is mark-free once marks were given up |
| AgentRuns.EveryHeadIsGood | app/agentcore/loop.go:449-615 | at every loop head of every run: history and all requests so far paired, history unmarked, the three counters equal the trailing runs of the trace and stay below their limits |
| AgentRuns.HeadsKept | app/agentcore/loop.go:449-615 | the whole loop-head invariant at every head of every run |
| AgentRuns.HeadsAreRun | app/agentcore/loop.go:441-616 | a list of heads linked by turns is what a run still going passes through |
| AgentRuns.RunHasHeads | app/agentcore/loop.go:441-616 | and every run still going passes through such a list |
| AgentRuns.RequestsAtHead | app/agentcore/loop.go:485-502 | a run still going after T turns has sent between T and T + 5 requests |
| AgentRuns.RequestsAreBounded | app/agentcore/loop.go:485-502 | however a run ends, T turns sent at most T + 5 requests from the loop body, and only the very last request can be a guard's summary |
| AgentRuns.RunKeeps | app/agentcore/loop.go:441-616 | the loop-head invariant over every run, and its consequences however the run ends |
| AgentRuns.TurnKeeps | app/agentcore/loop.go:449-615 | a turn leads from one good loop head to another or ends the run within its bounds |
| AgentRuns.CompactionIsThrottled | app/agentcore/loop.go:678-745 | no attempt within three turns of a failure, at most three failures in a row, none attempted after the third |
| AgentRuns.WindowNeverGrows | app/agentcore/loop.go:754-810 | from one loop head to any later one the effective window never grows, nor falls below the smaller of the configured window and 32000 |
| AgentRuns.RecoveriesNarrowWindow | app/agentcore/loop.go:797-835 | between two loop heads of any run with an overflow recovery in between, a window above 32000 has become strictly smaller |
| Signatures.SignatureIff | app/agentcore/loop.go:627-638 | with arguments as json.Marshal writes them, and no name in which a unit separator is followed by a record separator, signatures agree exactly when the lists of names and arguments do |
| Signatures.TwinIff | app/agentcore/loop.go:627-638 | a list of calls shares its signature with a different one exactly when it has more than one call, or its one call's name holds a unit separator and, later, a record separator |
| Signatures.SeparatorsConfuseSignatures | app/agentcore/loop.go:627-638 | one call with both separators in its name has the signature of two calls without any |
| AgentRuns.DuplicateWrapUpDangles | app/agentcore/loop.go:583-588 | the identical-call guard's summary request is never paired |
| AgentRuns.LimitOneDangles | app/agentcore/loop.go:571-588 | with a limit of one, over any paired and unmarked history, a run of one turn that asks for a tool ends in such an unpaired summary request |
| AgentRuns.ErrorWrapUpEnds | app/agentcore/loop.go:603-608 | the error guard's summary request follows the results and is paired |
| AgentRuns.ToolTurnShowsNoImages | app/agentcore/loop.go:513-515 | after a turn that executed tools no message shows an image of its own |
| AgentProperties.OverflowShrinksWindow | app/agentcore/loop.go:797-810 | an overflow recovery strictly lowers a window above 32000 and never raises one |
| AgentProperties.GateKeepsLastMessage | app/agentcore/loop.go:460-469 | the last message, whatever it is, survives the compaction gate verbatim |
| Conversation.SteeringKeptIff | app/agentcore/loop.go:460-469 | messages steered in just before the gate all survive it when there is one at most or they fit a quarter of the window; if it compacts and they do not, fewer messages are left than were steered in |
| Conversation.SteeringIsFolded | app/agentcore/loop.go:451-485 | one turn into which two messages are steered that do not fit: its request shows the summary and the second message only |
| Conversation.HeadsTalk | app/agentcore/loop.go:449-615 | from a conversation without blank messages, with none handed in, no loop head of any run has one |
| Conversation.CompactionsKeepShortTails | app/agentcore/loop.go:678-847 | so at every turn of such a run, at the gate and in overflow recovery, the cut steps back at most one message and the kept tail costs at most a quarter of the window, or the last message, plus one message |
| AgentProperties.CooldownHolds | app/agentcore/loop.go:689-693 | for any lawful list of verdicts, three turns of no attempt follow a failure |
| AgentProperties.FailuresBounded | app/agentcore/loop.go:683-688 | failures in a row never exceed three |
| AgentProperties.ThirdFailureDisables | app/agentcore/loop.go:683-688 | after the third failure in a row compaction is off for good |
| AgentProperties.SuccessClears | app/agentcore/loop.go:714-735 | the failures counted are the failed attempts since the last success, whatever verdicts lie between; success also ends the cooldown |
| AgentProperties.ErrorStreakIsTrailingRun | app/agentcore/loop.go:594-602 | counting result by result measures the trailing run of errors over the whole trace |
| AgentProperties.GoodExchange | app/agentcore/loop.go:508-592 | a request for tools with one answer per call leaves a paired, unmarked history |
| AgentProperties.ConverseKeeps | app/agentcore/loop.go:475-502 | whatever fails and reruns, history, marks and request count stay within the invariant |
| Overflow.KindsSentAre | app/agentcore/loop.go:485-502 | which requests one conversation with the upstream sends, and in which order, in terms of what its streams brought |
| Overflow.RerunBehindFramesIff | app/agentcore/loop.go:775-792 | a turn is sent again after an overflow exactly when its last stream blames the context before any start, recoveries are left and the history can be compacted; frames of the turn are then out already exactly when that stream sent some without a start, or a stream given up for its effort or cache marks had sent any |
| Overflow.CleanRefusalsAreEnough | app/agentcore/loop.go:775-778 | it never happens behind frames if every refusal comes before any frame of its stream |
| Overflow.TextThenRerun | app/agentcore/loop.go:785-792 | a first turn whose stream sends frames without a start and is then refused goes out again behind them |
| Overflow.StartThenRerun | app/agentcore/loop.go:984-985 | so does one whose stream sends a start and is refused for the effort: the rerun for that clears the flag |
| AgentProperties.SettleKeeps | app/agentcore/loop.go:508-615 | every way of going on after a reply re-establishes the loop-head invariant |
| Turns.ConverseReplies | app/agentcore/loop.go:485-506 | a conversation ends with the reply of the last stream it got to: its failure, or its blocks and its last stop reason |
| Turns.ReportedSizeIsKnown | app/agentcore/loop.go:1007-1024 | after a conversation the known context size is what its last stream opened with, or a larger one reported later in it |
| Turns.CompactionAttemptedIff | app/agentcore/loop.go:678-745 | a compaction is attempted exactly when not disabled, not cooling down, and the estimate or the size reported by the upstream has reached three quarters of the window; its success replaces history and known size |
| Turns.OverflowHalvesWindow | app/agentcore/loop.go:793-810 | an overflow lowers the window to half the measured size, or half of what it was if that is less, but never below 32000 |
| Turns.PlainTurn | app/agentcore/loop.go:511-535 | a reply without tools ends the run with the reply last, unless messages came in too late: those follow it and the run goes on |
| Turns.TruncatedTurn | app/agentcore/loop.go:546-569 | a request for tools whose last stop reason is max_tokens gets exactly one failure per call and executes nothing; the third in a row ends the run |
| Turns.RepeatedTurn | app/agentcore/loop.go:571-588 | asked for the same calls once too often, the run ends with nothing executed and nothing added behind the reply |
| Turns.ExecutedTurn | app/agentcore/loop.go:590-614 | otherwise one message behind the reply answers every call with what its tool brought, the calls that ran are booked, their own error flags count, and the verdict follows from the count and the write |
| Turns.EndingIff | app/agentcore/loop.go:449-615 | each of the seven ways a turn can end the run happens exactly for its cause |
| Turns.GuardsFireIff | app/agentcore/loop.go:546-608 | at any loop head: truncations end the run exactly with the third in a row of the trace, errors exactly with the fifth, repetitions exactly as often in a row as the limit says |
| Turns.RequestsShowHistory | app/agentcore/loop.go:475-502 | a turn's request shows the history but for marks, ending in a mark unless those were given up; reruns show it unmarked, one after an overflow the compacted history |
| Turns.SummaryRequestShows | app/agentcore/loop.go:647-667 | a guard's summary request shows the history, but for marks, and one instruction from the user |
| Turns.LateMessagesAreShown | app/agentcore/loop.go:459-533 | messages that came in too late for a turn end the history the next turn asks with, together with what is steered in then, if they fit the kept tail |
| ToolBatch.BatchIsSequential | app/agentcore/loop.go:1228-1319 | every finished interleaving ends with one result per call in call order, each with the output and the error flag that its own call wrote, records likewise, and the calls that ran a prefix; the others' results say that they did not run |
| ToolBatch.NoOverlap | app/agentcore/loop.go:1261-1319 | at most four tools in flight, all of the segment at hand |
| ToolBatch.StepInv | app/agentcore/loop.go:1295-1319 | launch, semaphore, slot write, release, group and join all keep the invariant |
| ToolBatch.NeverStuck | app/agentcore/loop.go:1295-1319 | until all calls are settled some goroutine can move |
| ToolBatch.ProgressUsesWork | app/agentcore/loop.go:1295-1319 | every move uses up work, so every batch finishes |
| Compaction.CompactSplitIndex | app/agentcore/compact.go:231-260 | the backward loop and the step back find the last boundary before the longest affordable tail |
| Compaction.SplitIsLegal | app/agentcore/compact.go:231-260 | no split, or one strictly inside at a message that may open the tail |
| Compaction.SplitStepsBackAtMostOne | app/agentcore/compact.go:247-291 | in a paired history the cut stays, or moves back by one message onto the request being answered, exactly when the message there is neither blank nor of a third role |
| Compaction.SplitTailCost | app/agentcore/compact.go:231-260 | for any history the tail costs at most the budget or the last message, plus the messages stepped back over, and one message more would not fit |
| Compaction.ConversationTailCost | app/agentcore/compact.go:231-291 | with such a message at the cut the tail costs at most the budget or the last message, plus one message |
| Compaction.StepsBackAtMostOneIff | app/agentcore/compact.go:247-260 | for any history the cut moves back by more than one message exactly when neither the message at the cut nor the one before it may open the tail |
| Compaction.BlankMessagesStepFurther | app/agentcore/compact.go:247-291 | two blank user messages make it move back by two |
| Compaction.LatestSurviveIff | app/agentcore/compact.go:185-260 | of messages that may open a tail, at the end of the history, a compaction keeps all exactly when there is one at most or they fit a quarter of the window |
| Compaction.CompactHistory | app/agentcore/compact.go:185-227 | split, transcript, summary with one retry, and the two ways of finding nothing to do |
| Compaction.CompactKeepsPairing | app/agentcore/compact.go:205-227 | summary plus kept tail is paired again, the tail verbatim |
| Compaction.RenderTranscript | app/agentcore/compact.go:398-422 | collecting newest first and writing oldest first renders the longest affordable suffix |
| Compaction.TranscriptIsMaximalSuffix | app/agentcore/compact.go:398-422 | the transcript is a suffix that cannot be extended and costs at most the budget plus one token per entry |
| Transcripts.AffordableIsShown | app/agentcore/compact.go:398-442 | whatever a message says, in a part not ending in space, is in the transcript when the messages from there on fit the budget |
| Transcripts.TextIsShown | app/agentcore/compact.go:443-478 | a text block is shown |
| Transcripts.ToolUseIsShown | app/agentcore/compact.go:443-478 | a tool request is shown with its name and its arguments |
| Transcripts.ResultIsShown | app/agentcore/compact.go:443-478 | a tool's result is shown, and that it failed |
| Transcripts.PartIsInLine | app/agentcore/compact.go:424-442 | what a message shows is in its line, behind the label of its role |
| Transcripts.TruncatedIsSolid | app/agentcore/compact.go:480-490 | text within 8000 bytes is shown whole |
| Transcripts.CompactIff | app/agentcore/compact.go:185-227 | compaction finds nothing to do exactly when there is nothing to cut or to show, and otherwise succeeds exactly when a summary that is not blank is given, at once or after a break; a user message with that summary then stands for what was cut, and the rest stays |
| Text.EstimateText | app/agentcore/compact.go:121-134 | the character loop computes the estimate |
| Text.TokensOfOneKind | app/agentcore/compact.go:121-134 | four ASCII characters to the token, rounded up, and one token for any other character |
| Text.LowerFoldsAscii | app/agentcore/compact.go:432-441 | folding a role name turns ASCII capitals into small letters and leaves other ASCII characters alone |
| Text.TokensConcat | app/agentcore/compact.go:121-134 | the estimate is subadditive, monotone, and loses at most one token to rounding |
| Text.TrimCostsNoMore | app/agentcore/compact.go:121-134 | trimming never raises the estimate |
| Messages.EstimateTokens | app/agentcore/compact.go:113-178 | the sum over messages, blocks and nested results |
| Messages.EstimateBounds | app/agentcore/compact.go:113-178 | the estimate counts four tokens a message, 1600 an image wherever it stands, and between a quarter of a token and one token for every character of text, names, arguments and results |
| Messages.PairedAppendExchange | app/agentcore/compact.go:21-23 | a request for tools and its exact answer extend a paired history |
| Messages.DanglingIsUnpaired | app/agentcore/compact.go:21-23 | a request left unanswered breaks the pairing whatever follows |
| Messages.PairedSuffix | app/agentcore/compact.go:262-291 | dropping a prefix is safe when the rest does not begin with an answer |
| Cache.Request.ApplyCacheBreakpoints | app/agentcore/cache.go:33-90 | marks the request's last tool, system block and message block, writing to nothing shared but its tool list |
| Cache.MarkSharedHistory | app/agentcore/cache.go:62-90 | a history handed to a request is unchanged afterwards, blocks included, while the request is marked |
| Cache.MarkIsIdempotent | app/agentcore/cache.go:32-90 | marking twice is marking once |
| Cache.MarkAddsAtMostOne | app/agentcore/cache.go:33-90 | at most one mark each on tools, system and messages, and no text changes |
| Cache.MarkReachesTheEnd | app/agentcore/cache.go:60-90 | nothing but marks changes, only in the last message, and that one ends in a mark whenever it has anything to mark |
| Cache.MarkReachesTools | app/agentcore/cache.go:33-59 | the last tool bears a mark, and so does the last block of a system text that is not blank |
| Cache.MarkKeepsPairing | app/agentcore/cache.go:60-90 | a marked request is as well paired as its history |
| Media.StubImages | app/agentcore/media.go:25-62 | the copying loops replace exactly the images at the top level of every message |
| Media.StubHistoryKeeps | app/agentcore/media.go:25-62 | the rewrite keeps the pairing both ways, adds no mark and leaves no top-level image |
| Media.StubReplacesImagesOnly | app/agentcore/media.go:25-73 | every image becomes one text block naming its media type; all other blocks, contents and roles stay |
| Media.StubIsIdempotent | app/agentcore/media.go:19-24 | once replaced the history does not change shape again |
| Media.NestedImagesStayIff | app/agentcore/media.go:25-62 | after the rewrite a message still carries an image, at any depth, exactly when one was nested inside a block that is no image |
| Media.NestedImageStays | app/agentcore/media.go:25-62 | a tool result with a picture in it is left as it was |
| Streaming.StreamTurn | app/agentcore/loop.go:983-1219 | the event loop folds any events into the specified blocks, stop reason and context size |
| Streaming.ReplyIsAnswer | app/agentcore/loop.go:1199-1209 | whatever is streamed, a reply holds no tool result, no mark and no empty block |
| Streaming.StopReasonArrives | app/agentcore/loop.go:1147-1148 | the stop reason is that of the last stop event, and empty when there was none |
| Streaming.ReportedSizeArrives | app/agentcore/loop.go:1007-1024 | the context size is what the last reporting start said, or the size known before, unless a later report is larger |
| Streaming.CleanedKeepsAll | app/agentcore/loop.go:1199-1209 | every block that received something is in the reply as it is and in its place, and no other |
| Streaming.ImageArrives | app/agentcore/loop.go:1072-1092 | an image arrives as sent, whatever other blocks receive afterwards |
| Streaming.TextArrivesWhole | app/agentcore/loop.go:1032-1048 | the text of one block is its deltas in order, whatever other blocks receive meanwhile |
| Streaming.ToolArrivesWhole | app/agentcore/loop.go:1096-1142 | a tool request ends with its id, its name and all its argument pieces in order, whatever other blocks receive meanwhile |
| Streaming.FlagIff | app/agentcore/loop.go:1007-1032 | over the events of one stream the frame flag ends set exactly when it was, or a start event met a writer |
| Streaming.TextBeforeStartIsUnnoticed | app/agentcore/loop.go:1030-1047 | text before any start event sends frames and leaves the flag unset |
| Client.ReplyTextIsWireText | app/agentcore/client.go:711-810 | through parsing and folding, a reply's text block is the text sent for it up to the first terminal frame |
| Edit.ApplyEdit | app/agentcore/tools_write.go:214-280 | the loops compute the specified edit, and the range check of the fuzzy branch never fires |
| Edit.FindAll | app/agentcore/tools_write.go:294-308 | exactly the overlapping occurrences in ascending order |
| Edit.ReplaceAt | app/agentcore/tools_write.go:265-280 | the loop skips positions inside what was just replaced and splices the new text into the rest, or into the only place |
| Edit.PiecesAreReplacement | app/agentcore/tools_write.go:265-280 | over the overlapping positions that skipping is leftmost non-overlapping replacement |
| Edit.NormWithOffsets | app/agentcore/tools_write.go:337-361 | text and table as specified for every byte string, invalid UTF-8 included |
| Edit.OffsetTable | app/agentcore/tools_write.go:326-361 | the table never decreases, stays inside the original and ends at its length |
| Edit.NormalizeAfterRestore | app/agentcore/tools_write.go:311-318 | normalizing what was restored gives every text back |
| Edit.RestoreAfterNormalize | app/agentcore/tools_write.go:311-318 | the other round trip is the identity exactly on texts whose every LF follows a CR |
| EditProperties.ExactEditIff | app/agentcore/tools_write.go:229-263 | an edit is exact exactly when the text occurs, and not at two places unless all are to be replaced; ambiguous exactly when it does occur at two and they are not |
| EditProperties.EditKeepsFileStyle | app/agentcore/tools_write.go:282-288 | the byte order mark stays, and in a CRLF file every LF of the result follows a CR |
| EditProperties.UniqueEditIsLocal | app/agentcore/tools_write.go:214-288 | a unique exact edit puts the new text between what precedes and follows the match; the bytes outside the match survive exactly when, in a CRLF file, every LF outside the match follows a CR |
| EditProperties.IdentityEditIff | app/agentcore/tools_write.go:214-288 | replacing a unique text by itself gives the file back exactly when its line endings are not mixed |
| EditProperties.MixedFileIsRewritten | app/agentcore/tools_write.go:222-224 | a lone LF in a CRLF file is rewritten by an edit elsewhere |
| EditProperties.ReverseEditIff | app/agentcore/tools_write.go:214-280 | the swapped edit restores the original exactly when the new text is unique in the result |
| EditProperties.FuzzySpanIff | app/agentcore/tools_write.go:229-257 | the bytes cut out normalize to the searched text exactly when both ends of the hit are character boundaries |
| EditProperties.HalfCharacterHitInserts | app/agentcore/tools_write.go:250-257 | a hit on half a character inserts without cutting |
| EditResults.ReplaceAllEdit | app/agentcore/tools_write.go:214-280 | replacing all cuts the file's text into pieces at the old text, none of which holds it, and joins them with the new text, in the file's style |
| EditResults.FuzzyEditIff | app/agentcore/tools_write.go:229-249 | an edit is fuzzy, not found or ambiguous exactly by how often the old text and its normal form occur |
| EditResults.FuzzyEditCuts | app/agentcore/tools_write.go:229-257 | a fuzzy edit keeps what stands before the character in which the hit begins and from the character on in which it ends, and puts the new text in between |
| EditResults.WholeCharactersAreCut | app/agentcore/tools_write.go:229-257 | when the hit begins and ends with whole characters, exactly text with the normal form of the old text is cut out |
| EditResults.NormalFormKeeps | app/agentcore/tools_write.go:337-361 | where normalizing changes no character the normal form is the text, invalid bytes included |
| ByteStrings.OccurrencesExact | app/agentcore/tools_write.go:290-308 | the list holds exactly the occurrences, in ascending order |
| ByteStrings.AscendingUnique | app/agentcore/tools_write.go:290-308 | no other list meets that contract |
| ByteStrings.ReplaceIsSplitJoin | app/agentcore/tools_write.go:265-280 | leftmost replacement never rescans inserted text: it joins the original pieces with the new text |
| ByteStrings.EncodedIsRune | app/agentcore/tools_write.go:337-361 | the decoder takes every UTF-8 encoded scalar value whole |
| ByteStrings.RuneIsEncoded | app/agentcore/tools_write.go:337-361 | and nothing else does it take whole |
| Client.Stream | app/agentcore/client.go:203-304 | all events come from the last attempt, earlier ones showed nothing and were worth retrying; at most six attempts; retries announced with the delay slept; the outcome is the last attempt's |
| Client.ParseSse | app/agentcore/client.go:589-708 | reading line by line gives the specified events and failure |
| Client.TerminalEndsReading | app/agentcore/client.go:640-658 | nothing after the first terminal frame counts |
| Client.SuccessNeedsTerminal | app/agentcore/client.go:589-708 | success takes a terminal frame, or a clean end after an error frame |
| Client.EventsArePrefix | app/agentcore/client.go:618-664 | the receiver always sees a prefix of the events up to the first terminal frame |
| Client.EventStreamArrives | app/agentcore/client.go:618-664 | a willing receiver sees all of them |
| Client.EventStreamIff | app/agentcore/client.go:589-708 | success exactly on a terminal frame, or on a clean end after an error frame |
| Client.CeilingFalls | app/agentcore/client.go:448-461 | the output ceiling never rises nor falls below the smaller of its start and 8192 |
| Client.BlamedCeilingDrops | app/agentcore/client.go:288-299 | a failure retried only for its ceiling is retried at a strictly lower one |
| Client.WaitingIsBounded | app/agentcore/client.go:249-260 | all waits of a call together stay under thirty seconds a retry, and under the doubling sum when no Retry-After came |
| Client.CallWaitsBounded | app/agentcore/client.go:249-260 | no call waits longer than 150 seconds in all, nor longer than 15.5 seconds when no Retry-After came |
| Retries.RetriedIff | app/agentcore/client.go:262-304 | which answers are retried, in terms of the answer itself: connection failures, 429 and 5xx, the passing kinds of upstream errors, and a named ceiling that can be lowered |
| Retries.CallEndsIff | app/agentcore/client.go:203-304 | an uncancelled call makes attempts up to the first answer that is not retried, six at most, and ends as that one did |
| Retries.PassingFailuresAreOvercome | app/agentcore/client.go:248-304 | up to five unreachable, 429 or 5xx answers and then a complete one: success with the next attempt |
| Retries.OtherStatusIsFinal | app/agentcore/client.go:433-436 | any other status, without a word about the ceiling, fails the call at once |
| Retries.StalledIsFinal | app/agentcore/client.go:262-284 | a body that stalled, or showed anything, is the last attempt |
| Retries.WaitsAre | app/agentcore/client.go:506-519 | each announced wait is what the answer asked for, or half a second doubled each time, but at most thirty seconds; the announcement names the status |
| Retries.CeilingsAre | app/agentcore/client.go:448-461 | each next ceiling is the same, or half of it but not below 8192 when the answer named it |
| Wire.EverythingIsReceived | app/agentcore/client.go:618-664 | the content events a willing receiver gets of a body of events, of which the following rows speak |
| Wire.ReplyToolIsWireTool | app/agentcore/client.go:711-810 | a tool request sent as block start, argument pieces and block stop is in the kernel's draft with its id, its name and all pieces as one argument |
| Wire.ReplyImageIsWireImage | app/agentcore/client.go:711-810 | an image sent arrives in the draft |
| Wire.ReplyReasonIsWireReason | app/agentcore/client.go:640-664 | the reason in the frame that ends an answer is the reply's stop reason |
| Wire.ReplySizeIsWireSize | app/agentcore/client.go:711-730 | the size known after an answer is the largest its opening and later frames report |
| Wire.ThoughtIsWireThought | app/agentcore/client.go:711-810 | thinking is passed on whole, whichever field it came in |
| Wire.ErrorsAreSeen | app/agentcore/client.go:711-810 | every error frame reaches the receiver as one error with its message |
| Wire.EventStreamFailure | app/agentcore/client.go:685-708 | a body of events fails by the way it ends, unless it is complete |
| Wire.EnvelopeIsFound | app/agentcore/client.go:666-683 | an error envelope spread over lines ends reading with its failure |
| Wire.EnvelopeAfterFrame | app/agentcore/client.go:624-640 | a frame in between starts the search for one afresh |
| Wire.OtherTextIsSkipped | app/agentcore/client.go:667-668 | a line that is no frame and begins no object is skipped |
| Wire.TooLongIff | app/agentcore/client.go:671-677 | an object is given up as too long exactly from the line that takes it beyond 4096 bytes |
| Tunnel.Manager.ConfigureDetach | app/tunnel/manager.go:87-101 | same configuration: nothing changes; otherwise generation, handles and fingerprint are given up together |
| Tunnel.Manager.ConfigureInstall | app/tunnel/manager.go:113-121 | a new generation with both handles, its fingerprint and a connecting status |
| Tunnel.Manager.StopDetach | app/tunnel/manager.go:140-154 | a live session's handles go and the status is stopped; otherwise nothing changes |
| Tunnel.Manager.UpdateGeneration | app/tunnel/manager.go:217-233 | only the present generation is heard; a final state gives up the handles |
| Tunnel.Manager.constructor | app/tunnel/manager.go:73-75 | a manager starts with no session |
| Tunnel.StepKeeps | app/tunnel/manager.go:77-233 | every step of Configure, Stop or a worker keeps the invariant |
| Tunnel.InstallShows | app/tunnel/manager.go:110-126 | installing makes the new worker the live session and shows its device as connecting |
| Tunnel.CallbackShows | app/tunnel/manager.go:198-233 | what the present worker's client reports is shown, and the session stays |
| Tunnel.LastReportShows | app/tunnel/manager.go:198-233 | the present worker's last report shows a failure with its text, or a plain stop when it was called off or had none, and ends the session |
| Tunnel.HandlesGoTogether | app/tunnel/manager.go:77-233 | in every reachable state both handles are set or neither, and the fingerprint is zero exactly when they are not |
| Tunnel.AtMostOneRunner | app/tunnel/manager.go:102-109 | if no wait expired, no two runners are active at once |
| Tunnel.OldWorkerIsHarmless | app/tunnel/manager.go:198-233 | a worker once left behind never changes the manager again |
| Tunnel.QuietLasts | app/tunnel/manager.go:136-163 | with no session live nothing changes the manager until a Configure installs |
| Tunnel.StopStays | app/tunnel/manager.go:136-163 | after Stop of a live session the status stays stopped until the next Configure installs |
| Tunnel.ReplacedStatusStays | app/tunnel/manager.go:87-109 | a Configure that detaches a session leaves its status standing until it installs |
| Tunnel.StatusHonestIff | app/tunnel/manager.go:77-233 | if no worker of the present generation reports after its last report: between calls the status shows a session exactly when there is one, if and only if the last detaching Configure did not give up |
| Tunnel.ReportLiesIffLate | app/tunnel/manager.go:198-233 | a report turns an honest status into a lie exactly when its worker is of the present generation and has made its last report |
| Tunnel.TimeoutLeavesConnected | app/tunnel/manager.go:102-109 | a Configure that gives up leaves "connected" with no session |
| Tunnel.LateReportRevives | app/tunnel/manager.go:217-233 | a late report revives the status of a session that failed by itself |
| Watchdog.AgentWatchdog.OnTick | app/tray/companion_watchdog.go:96-176 | one tick: healthy or failed, with the gate, the tracker and the restart counter |
| Watchdog.AgentWatchdog.Loop | app/tray/companion_watchdog.go:89-178 | the loop over any ticks does what the run functions say |
| Watchdog.RegistrationRecoveryTracker.ObserveProbe | app/tray/companion_watchdog.go:60-79 | the tracker's state and its two verdicts |
| Watchdog.ReconcilesApart | app/tray/companion_watchdog.go:40-50 | two reconcile requests of the patrols with no reset between them are five minutes apart, whichever patrol asked; the sync after a restart is not one of them |
| Watchdog.ReconciledIff | app/tray/companion_watchdog.go:96-152 | a patrol asks exactly when a healthy agent needs the sync or recovery is due and none has asked within five minutes without a reset since |
| Watchdog.PostsApart | app/tray/companion_watchdog.go:115-171 | of two posts to the core less than five minutes apart with no reset between them one is the sync after a restart |
| Watchdog.FailureOpensGate | app/tray/companion_watchdog.go:156-160 | the healthy tick behind a failed one sends a reconcile request exactly when there is anything to reconcile |
| Watchdog.SyncThenReconcile | app/tray/companion_watchdog.go:156-171 | in this run the sync after a restart and a reconcile request are ten seconds apart |
| Watchdog.UnknownFreezes | app/tray/companion_watchdog.go:108-126 | over any stretch of unknown registrations nothing is reset, notified or due, and neither the bad-state clock nor the last notification moves |
| Watchdog.DueIff | app/tray/companion_watchdog.go:60-79 | recovery is due exactly when the state is bad and has been for fifteen minutes without a good observation |
| Watchdog.NotifiedIff | app/tray/companion_watchdog.go:70-79 | at every tick the user is told exactly when recovery is due and every earlier notification is at least an hour old |
| Watchdog.EnsureIffThird | app/tray/companion_watchdog.go:160-175 | the agent is started exactly on every third failed tick in a row, and the sync follows unless starting failed |
| LogBuffer.Buffer.Append | common/logger/buffer.go:53-76 | the ring holds the end of everything appended; all observers are told in order; an absent entry does nothing |
| LogBuffer.Buffer.Get | common/logger/buffer.go:82-116 | the last matching entries still held, oldest first |
| LogBuffer.Buffer.Size | common/logger/buffer.go:145-153 | the number appended, up to the capacity |
| LogBuffer.Buffer.Clear | common/logger/buffer.go:134-142 | nothing is held afterwards |
| LogBuffer.Buffer.Subscribe | common/logger/buffer.go:156-161 | a new observer at the end, under an id no present one has |
| LogBuffer.Buffer.Unsubscribe | common/logger/buffer.go:162-171 | exactly that observer goes, the others keep their order |
| LogBuffer.Buffer.constructor | common/logger/buffer.go:39-50 | the default capacity stands in for one that is not positive |
| LogBuffer.WindowShowsTheEnd | common/logger/buffer.go:82-116 | while enough matching entries are held, reading the ring is reading everything ever appended |
| LogBuffer.MatchingIff | common/logger/buffer.go:175-185 | an entry is among the matching ones, in its place, exactly when its level and source are asked for |
| LogBuffer.UnsubscribeAgain | common/logger/buffer.go:162-171 | unsubscribing is idempotent and commutes |
| LogRotate.RotatingLogWriter.Write | app/agentruntime/log_rotate.go:53-68 | the files and the writer become the specified ones: appended to and, at the limit, rotated; files that are the end of the log stay it exactly unless that rotation loses a middle |
| LogRotate.RotatingLogWriter.Rotate | app/agentruntime/log_rotate.go:72-89 | the loop of renames and the reopening give the specified rotation; when the files are the end of the log after it, in terms of the files before |
| LogRotate.RotatingLogWriter.constructor | app/agentruntime/log_rotate.go:35-51 | a log over any files, numbers above the limit included; the size counter starts at the current file's size, or at zero when that cannot be read |
| LogRotate.NewRotatingLogWriter | app/agentruntime/log_rotate.go:35-51 | no writer exactly when the current file cannot be opened; otherwise the counter is right exactly when the size could be read or the file is empty |
| LogRotate.WriteKeeps | app/agentruntime/log_rotate.go:53-68 | any write keeps the files ordered whole writes, and files that are the end of the log stay it exactly unless the write loses a middle |
| LogRotate.WriteStaysSmall | app/agentruntime/log_rotate.go:60-66 | when the current file can be moved and opened again the size counter stays right, and when it is right after a successful write the current file is below the limit |
| LogRuns.AlwaysGaplessIff | app/agentruntime/log_rotate.go:53-89 | over any list of writes the files are the end of the log after every one of them exactly when none loses a middle |
| LogRuns.DiskStaysSuffix | app/agentruntime/log_rotate.go:53-89 | over any list of writes, while no inner backup's rename fails and whatever else does, the bytes on disk are the end of all bytes taken in since and those there before |
| LogRuns.WritesAreTaken | app/agentruntime/log_rotate.go:53-68 | the log of a run is what was there and, of every write made while it was open, the bytes written, in order |
| LogRuns.CurrentStaysSmall | app/agentruntime/log_rotate.go:60-66 | over any list of writes the current file is below the limit after every one, while it can be written, moved and opened |
| LogRotate.DiskIsOrdered | app/agentruntime/log_rotate.go:53-89 | whatever fails, the bytes on disk are whole writes, none twice, in the order they were made |
| LogRotate.DiskIsSuffix | app/agentruntime/log_rotate.go:53-89 | while no write is missing in between, the bytes on disk, oldest to newest, are the end of all bytes ever handed to the log |
| Rotation.RotationKeepsFewFiles | app/agentruntime/log_rotate.go:72-89 | whatever fails, a rotation makes no file numbered above the backup limit, so at most one more file than backups |
| LogRotate.ZeroBackupsNeverCut | app/agentruntime/log_rotate.go:72-89 | without backups the current file holds every byte of the log |
| Rotation.RotationKeepsSuffixIff | app/agentruntime/log_rotate.go:72-89 | when all pieces on disk differ, what is left after one rotation is a suffix of what was there exactly when no non-empty backup whose rename failed is overwritten while an older non-empty file is kept; the if for any pieces |
| Rotation.LosingNeedsFailure | app/agentruntime/log_rotate.go:77-82 | a middle is lost only through a failed rename of an inner backup followed by a successful one onto it |
| Rotation.RotatedTailIff | app/agentruntime/log_rotate.go:72-89 | after any rotation in a log's life the files are the end of the log exactly when it loses no middle and replaces every file holding a write from before the last gap; without a gap, exactly when it loses no middle |
| Rotation.GapRotatesOut | app/agentruntime/log_rotate.go:72-89 | a disk with a gap that one rotation makes the end of the log again |
| Rotation.FailedRenameLosesMiddle | app/agentruntime/log_rotate.go:77-82 | with two backups and only the rename of the first failing, the rotation drops its content from the middle |

## Left out

- Usage accounting, result text, frames to the host and their bracketing, transcripts, log lines and diagnostic snapshots of the loop; a host that refuses the very first frame of a run.
- Runner.Runner.Loop: an endless run is seen through its finite stretches; the history is a value here, so that requests share its slices is modelled in `Cache`, not in `Runner`.
- Runner.Runner.Stream: a host writer that fails while an event is being written counts as a failed stream after that event.
- Runner.Runner.WrapUp: the number of repetitions inside the instruction's text is not modelled; the host hook before the request is assumed to leave the messages alone, as in every turn.
- Agent.Turn: whether a failure blames effort, cache marks or context length is an input, not the matching of error texts (app/agentcore/loop.go:858-965, app/agentcore/cache.go:100-130).
- Overflow.RerunBehindFramesIff: the frames counted are those of streamed events; retry notices and compaction progress are not.
- ToolBatch.BatchIsSequential: what a tool does, its hooks' panics and its own reaction to cancellation are inputs; a call that cannot run in parallel is a segment of one.
- Edit.NormWithOffsets: Unicode normalization (Unicode Standard Annex #15, section 1.2) is any function of the text that never erases it; that normalizing a whole string and character by character agree is neither assumed nor claimed.
- Text.EstimateText: characters are Unicode scalar values; text that is not valid UTF-8 does not occur in conversations here. Lower-casing follows Unicode only as far as it can reach a role name.
- Client.ParseSse: splitting bytes into lines and decoding JSON are inputs, and so is recognizing an error envelope; the idle timer shows only as the way a body ends.
- Client.Stream: request encoding, headers and the parsing of Retry-After; a missing request.
- Tunnel.StepKeeps: a worker's reports between start and end are "connected" or "reconnecting", the only states app/tunnel/piko_logger.go:58-68 can produce; the order in which status callbacks reach the host, the content of configurations beyond device and fingerprint, a generation counter that wraps around, and WaitConnected's polling.
- Watchdog.AgentWatchdog.OnTick: what the probes, the restart and the reconcile request do.
- LogBuffer.Buffer.Append: locking; observers are called after the entry is stored, and what they do is not modelled.
- LogRotate.RotatingLogWriter.Write: locking, permissions, and other processes writing to the same directory.
- Writing and reading files, shell tools, path guards, approvals, MCP, the tunnel's HTTP handler and TCP bridge, process management, HTTP services, tray and configuration.
