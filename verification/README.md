# Protocols and arithmetic of the terminal agent, in Dafny

A model of the parts of the terminal coding agent that hold real protocols and arithmetic, with proofs of
what they promise over every input and every run. `dafny verify dfyconfig.toml` checks everything.

Code that works step by step is modelled step by step. Each stateful component is a total transition
function over a value (`Next(state, event)`, in which an event that cannot happen changes nothing), a class
with the fields of the original whose methods are proved to make exactly these transitions, and theorems
over all event sequences (`Run(events)`). Handlers that suspend at an `await` are cut into one event for each
segment between awaits, so a theorem over event sequences speaks of every interleaving. Loops over
collections are methods with invariants, proved against an independent definition of the result.

| files | what they model |
|---|---|
| `AcpToolCalls`, `AcpDeliveryProperties`, `AcpResults`, `AcpAdapter` | delivery of tool calls to an ACP client: buffered input, deliveries in flight, delivered ids, embedded terminals |
| `JsonRpcRequests`, `JsonRpcProperties`, `JsonRpcFates`, `JsonRpcAdapter` | permission and ask-user round trips over JSON-RPC, with the latch for a parent that went away |
| `ChildRequests`, `ChildRequestFates`, `ChildProcess`, `Decimals` | the pending-request table towards a child process (JSON-RPC 2.0, sections 4 and 5) |
| `QueuedMessages`, `LocalDrains`, `LocalDrainProperties`, `LocalQueueOrder`, `LocalDrainOutcomes`, `LocalQueueDrains`, `SubmitRouting` | the three local message queues, their drains, and where a submitted text goes |
| `BugReportLogs`, `BugReportSelection`, `BugReportSessions`, `BugReportTrim`, `BugReportBudget`, `BugReportFiles`, `BugReportZip` | reduction of a bug report: collapsing, selection, tail trimming, budget shares, drop chain |
| `Autonomy`, `Confirmation` (in `Autonomy.dfy`), `ConfirmationProperties`, `ConfirmationThresholds`, `ConfirmationOutcomes`, `SessionAutonomy` | which tools need a confirmation, what a prompt offers, what an answer does to the autonomy level |
| `ToolSelection`, `ToolSelectionGrants` | the sets of tools a session may use |
| `DeferredTools` | which tools the model sees while some are deferred |
| `Collections` | options, sequence functions, and the insertion-ordered JavaScript Map |

All lemmas carry `{:induction false}`: each induction is written out.

## Assumptions

- Request ids and message ids are fresh (UUIDs); bus listeners do not re-enter the adapter that emits.
- File names passed to the budget are distinct, since allocations are kept by name. Byte allocations are
  reals; the original computes them in floating point.
- One manual-compaction drain runs at a time, as the compaction screen ensures.
- What a tool's availability for the model is, is decided once per tool id. Regular expressions, trimming
  and lower-casing of log lines, shell parsing, deny and allow lists, and the size of a zip are parameters,
  fixed during a run.

## Where the code and its promises differ

- A tool call whose input is completed twice while it is buffered may be sent twice. Its id stays in the
  delivered set exactly when a send of it is accepted after its completion handler has returned
  (`LeaksExactlyWhenAnsweredLate`, with a run that does it in `ResentCallLeaks`); one input completion per
  buffered id excludes that (`SingleInputIsNeverLate`).
- File edits are approved automatically only in Auto mode above Off, or in Mission mode. So in Spec mode
  "Always allow" never suffices for a batch with a file edit (`AlwaysAllowSuffices`), and it may lower the
  level (`AlwaysAllowCanLower`). Before the confirmation step Spec mode drops file edits unless their path
  lies in a specs folder (src/core/ToolExecutor.ts:590-621), which the model does not know of: such prompts
  arise for creating and editing specs, and not for patches.
- Persistent MCP permissions count a missing impact as none, the autonomy level counts it as high. The two
  scales agree exactly when no impact is missing or some tool has a high one (`ScalesAgree`); prompts always
  carry it, so on them the scales agree (`ScalesAgreeOnPrompts`).
- Files that fit the budget together may still be trimmed when several are above their share
  (`FittingFilesMayBeTrimmed`); `NothingTrimmedExactlyWhen` gives the exact condition.
- A group of heartbeats is collapsed without the ids it mentions. A related session is in the report exactly
  when a line mentions it that is no heartbeat or has no heartbeat beside it (`SessionIsReportedExactlyWhen`,
  for repetitions that mention it alike and time ranges that do not contain it; `HeartbeatsLoseMentions` is a
  report that loses one).

## Model

| member | source | states |
|---|---|---|
| AcpDeliveryProperties.ResultFollowsDelivery | src/adapters/AcpProtocolAdapter.ts:197-256 | in every interleaving of tool events and send outcomes a completed or failed update of an id comes after a tool_call of that id that the client accepted |
| AcpDeliveryProperties.OneInFlight | src/adapters/AcpProtocolAdapter.ts:588-611 | the sends and answers of an id alternate: never are two tool_calls of one id unanswered together |
| AcpDeliveryProperties.FinalizeOwnsItsEntry | src/adapters/AcpProtocolAdapter.ts:604-608 | when a delivery ends, the in-flight entry of its id is still its own, so the identity test never fails |
| AcpDeliveryProperties.SendsAreOwed | src/adapters/AcpProtocolAdapter.ts:147-256 | every tool_call of an id is owed to an input completion that found it buffered, or to a completion of its own |
| AcpDeliveryProperties.SendsOfOneLife | src/adapters/AcpProtocolAdapter.ts:147-256 | an id that ends once, with k input completions while buffered, is sent at most k + 1 times and accepted at most max(1, k) times: two sends and one success for k up to 1 |
| AcpDeliveryProperties.LeaksExactlyWhenAnsweredLate | src/adapters/AcpProtocolAdapter.ts:197-256 | once nothing is suspended, a call that lived once and completed is still marked delivered exactly when a tool_call of it was accepted after its completion handler had returned |
| AcpDeliveryProperties.NothingLeftBehind | src/adapters/AcpProtocolAdapter.ts:197-288 | once every started call has completed and nothing is suspended, three of the tracking collections are empty and the fourth holds exactly the ids that were answered late, for calls that live once |
| AcpDeliveryProperties.NotOvertakenIsNotLate | src/adapters/AcpProtocolAdapter.ts:613-624 | a call whose completion does not meet it delivered with a second send unanswered is never answered late |
| AcpDeliveryProperties.SingleInputIsNeverLate | src/adapters/AcpProtocolAdapter.ts:147-195 | one input completion per buffered id is enough for it never to be answered late |
| AcpDeliveryProperties.ResentCallLeaks | src/adapters/AcpProtocolAdapter.ts:147-256 | late answers happen: a run with two input completions that sends twice, succeeds twice and leaves the id delivered |
| AcpResults.ResultIsSentExactlyWhen | src/adapters/AcpProtocolAdapter.ts:197-256 | once nothing is suspended, a call that lived once and completed shows on the wire its first terminal, if any, and then one result with the completion's status exactly when a tool_call of it was accepted before its handler returned; content exactly without a terminal, raw output then unless for Create and Edit |
| AcpResults.NoResultBeforeTheEnd | src/adapters/AcpProtocolAdapter.ts:197-213 | before its completion a call has no result, and a TodoWrite has none ever |
| AcpResults.AcceptedInTimeOrLate | src/adapters/AcpProtocolAdapter.ts:646-675 | the wire has a success for an id exactly when a tool_call of it was accepted in time or late |
| AcpResults.AcceptedCallsEnd | src/adapters/AcpProtocolAdapter.ts:197-256 | with one input completion, a completed call that the client accepted has its result as the last update |
| AcpResults.BufferIs | src/adapters/AcpProtocolAdapter.ts:126-145 | what is buffered is each call as its start and the progress since have made it, in starting order, until its completion |
| AcpResults.InputCompleteSendsWhatIsDue | src/adapters/AcpProtocolAdapter.ts:147-195 | an input completion sends exactly the buffered calls that are neither TodoWrite nor on their way, as buffered and in order |
| AcpResults.CompleteSendsWhatIsMissing | src/adapters/AcpProtocolAdapter.ts:197-213 | a completion sends the buffered call exactly when it is no TodoWrite, was not accepted and is not on its way |
| AcpToolCalls.RunInv | src/adapters/AcpProtocolAdapter.ts:588-675 | the invariant of every run: in-flight entries match unanswered deliveries, delivered ids and awaited deliveries were accepted by the client, sends equal answers plus those in flight |
| AcpAdapter.AcpProtocolAdapter.OnToolCallStart | src/adapters/AcpProtocolAdapter.ts:126-137 | buffers the call, and nothing else |
| AcpAdapter.AcpProtocolAdapter.OnToolCallProgress | src/adapters/AcpProtocolAdapter.ts:139-145 | merges partial input into a buffered call; other ids change nothing |
| AcpAdapter.AcpProtocolAdapter.OnToolInputComplete | src/adapters/AcpProtocolAdapter.ts:147-195 | the loop sends one tool_call for each buffered call but TodoWrite, in buffering order, unless one is in flight |
| AcpAdapter.AcpProtocolAdapter.OnToolCallComplete | src/adapters/AcpProtocolAdapter.ts:197-213 | up to its await: untracks the call, and returns, goes on at once, or waits for the delivery in flight or a new one |
| AcpAdapter.AcpProtocolAdapter.EnsureToolCallDelivered | src/adapters/AcpProtocolAdapter.ts:613-644 | answers at once for a delivered id, joins the delivery in flight, and otherwise starts one |
| AcpAdapter.AcpProtocolAdapter.SendToolCallStart | src/adapters/AcpProtocolAdapter.ts:588-611 | starts a delivery unless one of that id is in flight |
| AcpAdapter.AcpProtocolAdapter.DeliverToolCallStartResumes | src/adapters/AcpProtocolAdapter.ts:646-675 | the answer to a send marks the id delivered exactly when it succeeded |
| AcpAdapter.AcpProtocolAdapter.SendToolCallFinally | src/adapters/AcpProtocolAdapter.ts:604-608 | the end of a delivery removes its own in-flight entry only |
| AcpAdapter.AcpProtocolAdapter.ToolCallCompleteResumes | src/adapters/AcpProtocolAdapter.ts:210-249 | with a delivered start the result is sent; without one the handler ends and forgets the id |
| AcpAdapter.AcpProtocolAdapter.ToolCallCompleteFinally | src/adapters/AcpProtocolAdapter.ts:251-256 | after the result was sent or failed, the id is forgotten |
| AcpAdapter.AcpProtocolAdapter.OnToolStreamingUpdate | src/adapters/AcpProtocolAdapter.ts:258-288 | embeds a terminal once per id |
| JsonRpcProperties.OpenedSplitsIntoPendingAndResolved | src/adapters/JsonRpcProtocolAdapter.ts:827-895 | opened permission ids are the disjoint union of pending and responded ones, and the table lists the unresolved ones in opening order |
| JsonRpcProperties.OneResponseEach | src/adapters/JsonRpcProtocolAdapter.ts:1019-1127 | a request has exactly one PermissionResponse once it has left the table, and none before |
| JsonRpcProperties.NoticesMirrorResponses | src/adapters/JsonRpcProtocolAdapter.ts:624-675 | PERMISSION_RESOLVED goes out once for each response, in order, with its tools and choice, and never for a conflict |
| JsonRpcProperties.CallsSettleWithTheirRequest | src/adapters/JsonRpcProtocolAdapter.ts:904-1013 | a direct requestPermission call listens while its request is pending and then holds that request's one response |
| JsonRpcProperties.QuestionsSplit | src/adapters/JsonRpcProtocolAdapter.ts:501-622 | an ask-user request is pending, answered once, or taken away by another listener, never two of these; the rest is in asking order |
| JsonRpcProperties.TryHandleIsTotal | src/adapters/JsonRpcProtocolAdapter.ts:677-767 | a response of any shape that names a pending request returns true and removes that request only; any other returns false and changes nothing |
| JsonRpcProperties.TryHandleApprovesAllOrNone | src/adapters/JsonRpcProtocolAdapter.ts:677-767 | the approved tools are all tools of the request in order exactly when the client sent a valid answer other than cancel, and otherwise none |
| JsonRpcProperties.PipeLosesOnlyTheEnd | src/adapters/JsonRpcProtocolAdapter.ts:150-179 | after a broken pipe stdout holds a prefix of what was emitted, and before it everything |
| JsonRpcFates.EachRequestByItself | src/adapters/JsonRpcProtocolAdapter.ts:501-1143 | for each id the tables, listeners, promises, bus and output show exactly what the events that name it, and the two rejections of everything, make of it alone, whatever happens to other ids in between |
| JsonRpcFates.CallersAreTold | src/adapters/JsonRpcProtocolAdapter.ts:967-1013 | a closed direct call is rejected with the failure it was closed with, and otherwise resolved with its approved tools and answer |
| JsonRpcFates.FailuresArePassedOn | src/adapters/JsonRpcProtocolAdapter.ts:624-767 | a failure, however it arises (reported, an error object, an invalid or a missing payload), is on the bus with no approved tool, rejects the listening caller, and is announced exactly when it is no conflict |
| JsonRpcFates.HandledExactlyWhenOpen | src/adapters/JsonRpcProtocolAdapter.ts:563-675 | each handler reports success exactly for an id that is still open, and changes nothing else |
| JsonRpcFates.WorkingStateFollows | src/adapters/JsonRpcProtocolAdapter.ts:501-1127 | the working state after every run: waiting, executing after an approval, streaming after any other end, idle after a rejection of something |
| JsonRpcFates.PipeTakesExactly | src/adapters/JsonRpcProtocolAdapter.ts:136-182 | the parent gets the first lines of the output, as many as its pipe took or as were emitted when it broke, and the latch is set exactly once there is more |
| JsonRpcAdapter.JsonRpcProtocolAdapter.LatchParentDisconnect | src/adapters/JsonRpcProtocolAdapter.ts:150-166 | latches once and stays latched |
| JsonRpcAdapter.JsonRpcProtocolAdapter.SafeStdoutWrite | src/adapters/JsonRpcProtocolAdapter.ts:168-182 | writes unless latched; a broken pipe latches |
| JsonRpcAdapter.JsonRpcProtocolAdapter.HandlePermissionRequestEvent | src/adapters/JsonRpcProtocolAdapter.ts:827-895 | sends the request and opens its entry |
| JsonRpcAdapter.JsonRpcProtocolAdapter.RequestPermissionCall | src/adapters/JsonRpcProtocolAdapter.ts:904-1013 | opens the entry and a listener for the one response |
| JsonRpcAdapter.JsonRpcProtocolAdapter.HandlePermissionResponse | src/adapters/JsonRpcProtocolAdapter.ts:1019-1087 | settles a pending request with response and notice; an unknown id returns false |
| JsonRpcAdapter.JsonRpcProtocolAdapter.HandlePermissionFailure | src/adapters/JsonRpcProtocolAdapter.ts:624-675 | settles with a failure; a conflict sends no notice |
| JsonRpcAdapter.JsonRpcProtocolAdapter.HandleAskUserRequestEvent | src/adapters/JsonRpcProtocolAdapter.ts:501-561 | sends the question and opens its entry |
| JsonRpcAdapter.JsonRpcProtocolAdapter.HandleAskUserResponse | src/adapters/JsonRpcProtocolAdapter.ts:563-589 | settles a pending question with its answer |
| JsonRpcAdapter.JsonRpcProtocolAdapter.HandleAskUserFailure | src/adapters/JsonRpcProtocolAdapter.ts:591-622 | settles a pending question with a failure |
| JsonRpcAdapter.JsonRpcProtocolAdapter.TryHandleToolingResponse | src/adapters/JsonRpcProtocolAdapter.ts:677-767 | dispatches a client's response by id and shape |
| JsonRpcAdapter.JsonRpcProtocolAdapter.RejectAllPendingPermissions | src/adapters/JsonRpcProtocolAdapter.ts:1092-1127 | the loop answers every pending request with a cancel and then clears the table |
| JsonRpcAdapter.JsonRpcProtocolAdapter.RejectAllPendingAskUserRequests | src/adapters/JsonRpcProtocolAdapter.ts:1129-1143 | the loop answers every pending question with a cancel |
| JsonRpcAdapter.JsonRpcProtocolAdapter.GetPendingPermissions | src/adapters/JsonRpcProtocolAdapter.ts:1156-1165 | the restore list: each pending request with its id, in opening order |
| ChildRequests.IssuedIsPendingOrSettled | src/acp/ChildProcessHandler.ts:274-298 | every issued request is pending under its id or settled, never both |
| ChildRequests.FirstSettlementWins | src/acp/ChildProcessHandler.ts:47-105 | a settled request keeps its first settlement for the rest of every run |
| ChildRequests.IdsAreNeverReused | src/acp/ChildProcessHandler.ts:278-278 | a new request has a larger number and a different id than all earlier ones |
| ChildRequests.ResponseSettlesItsOwn | src/acp/ChildProcessHandler.ts:53-64 | a message settles at most the request whose id it carries, with that message's outcome |
| ChildRequests.NothingPendingAfterClose | src/acp/ChildProcessHandler.ts:94-104 | after close or a process error nothing issued before is ever pending again, and all of it is settled |
| ChildRequestFates.EachRequestByItself | src/acp/ChildProcessHandler.ts:47-105 | each request is pending from its issue to the first failure of its own send, response (result or error) under its own id, process error or close, and settled with that from then on |
| ChildRequestFates.CounterCounts | src/acp/ChildProcessHandler.ts:274-292 | the counter is the number of requests issued |
| ChildProcess.ChildProcessHandler.SendRequestStart | src/acp/ChildProcessHandler.ts:274-292 | sets up once, takes the next number, and opens the entry |
| ChildProcess.ChildProcessHandler.SendCatch | src/acp/ChildProcessHandler.ts:293-297 | a failed send removes the entry and rejects |
| ChildProcess.ChildProcessHandler.OnMessage | src/acp/ChildProcessHandler.ts:47-92 | settles the pending request a response names; requests, notifications and malformed messages settle nothing |
| ChildProcess.ChildProcessHandler.OnProcessError | src/acp/ChildProcessHandler.ts:94-104 | the loop rejects all pending requests and clears the table |
| ChildProcess.ChildProcessHandler.CloseHandler | src/acp/ChildProcessHandler.ts:312-319 | the loop rejects all pending requests and clears the table |
| Decimals.DecimalInjective | src/acp/ChildProcessHandler.ts:278-278 | different numbers have different decimal ids |
| SessionQueue.SessionStateManager.QueueUserMessage | packages/daemon-client/src/session/state/SessionStateManager.ts:1963-1991 | a new message goes to the end, one of a known id takes the place of the old |
| SessionQueue.SessionStateManager.ClearQueuedMessage | packages/daemon-client/src/session/state/SessionStateManager.ts:2075-2078 | exactly the message of that id goes away |
| SessionQueue.SessionStateManager.DequeueQueuedMessage | packages/daemon-client/src/session/state/SessionStateManager.ts:2088-2102 | the loop takes the first message of a kind, and only that one |
| SessionQueue.SessionStateManager.DequeueQueuedMessages | packages/daemon-client/src/session/state/SessionStateManager.ts:2104-2123 | the loop takes all messages of a kind in order and leaves the others in order |
| SessionQueue.SessionStateManager.RestoreQueuedMessagesToFront | packages/daemon-client/src/session/state/SessionStateManager.ts:2129-2145 | the messages, merged by id, go ahead of everything else queued |
| QueuedMessages.TakeFirst | packages/daemon-client/src/session/state/SessionStateManager.ts:2088-2102 | taking the first of a kind takes the head of that kind and disturbs no other kind |
| QueuedMessages.PutReplaces | packages/daemon-client/src/session/state/SessionStateManager.ts:1963-1991 | a message of a known id takes exactly the place of the old one |
| QueuedMessages.MergeKeepsTheLast | packages/daemon-client/src/session/state/SessionStateManager.ts:2129-2145 | of several messages of one id the last is kept, and no id is lost or doubled |
| QueuedMessages.DropIs | packages/daemon-client/src/session/state/SessionStateManager.ts:2075-2078 | dropping takes out the messages of the given ids and no others |
| LocalDrainProperties.OneMessageATurn | src/app.tsx:3477-3571 | between an accepted auto-drain and the next auto-drain dequeue the session was seen busy and then seen idle with no cancel in progress |
| LocalDrainProperties.OneInFlight | src/app.tsx:3502-3571 | at most one paused and one deferred message is in flight at any time |
| LocalQueueOrder.NothingLostOrReordered | src/app.tsx:2898-2980 | for each kind, at every moment: accepted or skipped messages, then those a drain holds, then those queued are exactly the messages ever queued and not withdrawn, in queueing order |
| LocalQueueOrder.NothingDuplicated | src/app.tsx:3631-3673 | no message is in two of these places, or in one of them twice |
| LocalQueueOrder.FailedBatchGoesToTheFront | src/app.tsx:2944-2962 | from the failed message on a manual-compaction batch goes back ahead of all that was queued meanwhile |
| LocalDrainOutcomes.OnlyEmptyMessagesAreSkipped | src/app.tsx:3519-3541 | over every run of the three drains: a skipped message has no text, images or files, an accepted one was accepted by the answer to its own call, and only messages with something in them are on their way |
| LocalDrainOutcomes.QueuedIsAccountedFor | src/app.tsx:2790-2810 | the messages that the events queued and did not withdraw are, in order, the finished, held and waiting ones |
| LocalDrainOutcomes.AutoDrainGoesOn | src/app.tsx:3477-3628 | when the turn of a paused message is over and none is deferred, the next paused message is taken: sent, skipped when empty, or put back for review when it has files |
| LocalDrainOutcomes.FailureStopsTheAutoDrain | src/app.tsx:3545-3567 | a refused or failed message is first in the queue again, and no timer for paused messages is set until the drain is armed again |
| LocalDrainOutcomes.DeferredComesFirst | src/app.tsx:3599-3658 | once the session is idle with no draft, the first deferred message is taken before any paused one, sent unless empty |
| LocalDrainOutcomes.BatchTakesAll | src/app.tsx:2974-2980 | taking a compaction batch leaves none of its kind queued, and the batch waits for its first non-empty message |
| LocalDrainOutcomes.MarksTell | src/app.tsx:3477-3571 | the marks of "one message a turn" are those of the events: every send, acceptance and observation is among them |
| LocalQueueDrains.DrainManualCompactionQueuedMessages | src/app.tsx:2933-2972 | the whole loop, for any accept, reject or throw and any messages queued at each await: the non-empty prefix is accepted in order, the suffix from the first failure is in front |
| LocalQueueDrains.App.QueueLocalPrompt | src/app.tsx:2790-2810 | queues under the given kind |
| LocalQueueDrains.App.ObserveStatus | src/app.tsx:3477-3498 | ends the wait for a turn after busy and then idle, and disarms when nothing is paused |
| LocalQueueDrains.App.ScheduleDrain | src/app.tsx:3599-3676 | sets the timer of one drain or of none, by the guards of the effect |
| LocalQueueDrains.App.DrainNextLocalPausedMessage | src/app.tsx:3502-3544 | takes one paused message and sends it, skips it, or puts it back for review |
| LocalQueueDrains.App.DrainNextLocalDeferredMessage | src/app.tsx:3631-3658 | takes one deferred message and sends or skips it |
| LocalQueueDrains.App.OnPausedAnswer | src/app.tsx:3545-3567 | an accepted message starts the wait for its turn; a rejected or failed one goes back to the front |
| LocalQueueDrains.App.OnPausedFinally | src/app.tsx:3568-3570 | nothing is in flight any more |
| LocalQueueDrains.App.OnDeferredAnswer | src/app.tsx:3659-3669 | a rejected or failed message goes back to the front |
| LocalQueueDrains.App.OnDeferredFinally | src/app.tsx:3670-3672 | the deferred drain is free again |
| LocalQueueDrains.App.DrainManualCompactionQueue | src/app.tsx:2974-2980 | takes the whole batch and passes over empty messages up to the first await |
| LocalQueueDrains.App.OnBatchAnswer | src/app.tsx:2946-2968 | goes on with the next message or puts the rest back |
| SubmitRouting.Composer.HandleSubmit | src/app.tsx:6077-6230 | which of refusal, the three queues and a run a text gets, and when the Esc request and the restored text are used up |
| SubmitRouting.NoPromptRacesTheInterrupt | src/app.tsx:6157-6186 | after an Esc no prompt runs before that Esc was used up, by an earlier event or as the restored text itself |
| SubmitRouting.EscIsPendingExactlyWhen | src/app.tsx:6127-6186 | over every run, the Esc ref is set exactly when some Esc was used up neither by a parked prompt, nor by the restored text, nor by a failed interrupt |
| SubmitRouting.EveryPromptHasItsPlace | src/app.tsx:6097-6230 | exactly when a prompt is parked for compaction, behind paused messages or as deferred, and when it runs, in terms of what was restored and which Esc is not used up; nothing runs while the session compacts, and no prompt is refused |
| SubmitRouting.CommandsAreNeverParked | src/app.tsx:6131-6230 | a slash command runs, or is refused exactly while the session compacts or, but for /btw, is running |
| SubmitRouting.RefusedWithoutAModel | src/app.tsx:6077-6125 | an empty text is dropped, and without a model all but setup commands are refused, with no effect on the refs |
| LogCollapse.CollapseLowSignalLogNoise | src/commands/bug.ts:245-328 | the loop renders the maximal runs of the lines |
| LogCollapse.RunsAreTheMaximalPartition | src/commands/bug.ts:245-328 | the runs are the one partition into non-empty runs of one class in which no two neighbours could merge |
| LogCollapse.OneLinePerRun | src/commands/bug.ts:253-301 | one output line per run, in order; the run lengths add up to the number of lines |
| LogCollapse.CollapsedLinesReadBack | src/commands/bug.ts:253-301 | a line that stands for several can be read back: the number in it is the length of its run, it ends in the times of the first and last line, and a repeated line stands at its end |
| LogCollapse.ShorterExactlyWhenSomethingMerges | src/commands/bug.ts:245-328 | the output is as long as the input exactly when no neighbours merge, and is then the input |
| LogCollapse.FlushHeartbeatGroup | src/commands/bug.ts:253-274 | a single heartbeat verbatim, a group as its count and time range |
| LogCollapse.FlushRepeatedEntry | src/commands/bug.ts:276-301 | a single line verbatim, a repeated one as its count, time range and first line |
| LogSelection.SelectRelevantLogLines | src/commands/bug.ts:379-452 | picks the selected lines of the collapsed log |
| LogSelection.SelectLines | src/commands/bug.ts:391-452 | the loops compute the selection; its empty fallback is unreachable |
| LogSelection.PickIsASubsequence | src/commands/bug.ts:451-451 | the picked lines are those at the selected positions, in log order |
| LogSelection.TailAndSignalsAreSelected | src/commands/bug.ts:391-446 | the last 100 lines are selected, and each line scoring at least 45 with its 8 neighbours on both sides |
| LogSelection.MentionedSessionsAreSelected | src/commands/bug.ts:413-441 | for each related session that a collapsed line mentions, a line that mentions it is selected |
| LogSelection.NothingElseIsSelected | src/commands/bug.ts:391-446 | every selected line is in the tail, near a signal, or within 4 of the first or last mention of a session without a mention near a signal |
| LogSelection.ScoresHighExactlyWhen | src/commands/bug.ts:330-364 | which signs make a line score at least 45, with and without a heartbeat |
| LogSelection.MentionScores | src/commands/bug.ts:330-364 | a line that mentions a related session scores high enough unless it is a heartbeat |
| ReportedSessions.ReportedExactlyWhenShown | src/commands/bug.ts:379-452 | the report mentions a related session exactly when some run that is no heartbeat group has it in its first line, provided no count or time range mentions it by itself |
| ReportedSessions.SessionIsReportedExactlyWhen | src/commands/bug.ts:245-452 | so exactly when some line of the log mentions it that is no heartbeat or has no heartbeat beside it, provided repetitions of a line mention it alike |
| ReportedSessions.HeartbeatsLoseMentions | src/commands/bug.ts:253-274 | a log whose two heartbeats mention a related session and whose report does not |
| TailTrim.TrimToTail | src/commands/bug.ts:720-742 | the loop keeps the longest suffix that fits; its "nothing trimmed" return is unreachable |
| TailTrim.EncodedLength | src/commands/bug.ts:721-721 | the byte length is the length of the UTF-8 encoding |
| TailTrim.Utf8RoundTrip | src/commands/bug.ts:721-721 | every character comes back from its encoding |
| TailTrim.KeptIsTheLongestSuffix | src/commands/bug.ts:731-736 | the kept lines are a suffix whose newline-inclusive size fits, and every longer suffix is too big |
| TailTrim.SomethingIsRemoved | src/commands/bug.ts:738-739 | a text above its limit never keeps all its lines, for every limit |
| TailTrim.TrimmedBytes | src/commands/bug.ts:738-741 | the exact size of a trimmed text |
| TailTrim.TrimmedFits | src/commands/bug.ts:720-742 | below 10^36 lines the result is at most max(limit, 80) bytes, for every limit |
| TailTrim.TrimmingIsIdempotent | src/commands/bug.ts:720-742 | trimming again to a limit of at least 80 changes nothing |
| TailTrim.JoinSplit | src/commands/bug.ts:724-741 | joining the split lines gives the text back |
| TailTrim.SplitJoin | src/commands/bug.ts:724-741 | splitting joined lines gives the lines back |
| BudgetShares.BudgetIsConserved | src/commands/bug.ts:794-824 | the allocations add up to at most the budget, to exactly the budget when some file is above its share, and to the sizes when none is |
| BudgetShares.RedistributionNeverLowers | src/commands/bug.ts:813-824 | redistribution lowers no allocation and makes none negative; a file within its share gets its size |
| BudgetShares.OversizeFilesShareTheRest | src/commands/bug.ts:794-824 | a file above its share gets its part by weight of what the files within their share leave |
| BudgetShares.NothingTrimmedExactlyWhen | src/commands/bug.ts:794-829 | nothing is trimmed exactly when each file above its share fits its part of what the others leave |
| BudgetShares.OneOversizeFile | src/commands/bug.ts:794-829 | with at most one file above its share, nothing is trimmed exactly when all fit the budget |
| BudgetShares.FittingFilesMayBeTrimmed | src/commands/bug.ts:813-824 | with several it may be: a concrete case that fits and is trimmed |
| FileBudget.TrimFilesToBudget | src/commands/bug.ts:770-840 | each trimmable file is cut to its allocation and no other file changes; below 10^36 lines the trimmable files then take at most what the others leave and 80 bytes more per trimmed file, and all files the budget and as much more when the others fit it |
| FileBudget.Allocate | src/commands/bug.ts:794-811 | the first pass computes first allocations, the unused budget and the oversize weight |
| FileBudget.Redistribute | src/commands/bug.ts:813-824 | the second pass computes the final allocations |
| FileBudget.TrimmedFilesFit | src/commands/bug.ts:770-840 | after trimming the trimmable files take at most the budget and 80 bytes more per trimmed file |
| FileBudget.NothingChanges | src/commands/bug.ts:826-829 | files that fit together with at most one above its share stay as they are |
| ZipDropChain.EnsureZipWithinLimit | src/commands/bug.ts:1033-1081 | zips the first candidate of the chain that fits, and the fallback only when none does |
| ZipDropChain.ZipIsTheLongestThatFits | src/commands/bug.ts:1033-1063 | if any candidate fits, the zipped files fit and hold the user message, and every longer candidate is too big |
| ZipDropChain.ZippedFilesMatterMost | src/commands/bug.ts:1044-1063 | then every file missing from the zip has at most the priority of every droppable file in it |
| ZipDropChain.UserMessageSurvives | src/commands/bug.ts:1044-1063 | the user message is in every candidate, and alone in the last |
| ZipDropChain.SortIsStable | src/commands/bug.ts:1046-1050 | the drop order is sorted by priority and keeps the order within each priority |
| ZipDropChain.OnlyTheUserMessageIsIndispensable | src/commands/bug.ts:234-243 | only the user message has the highest priority; all others lie between 10 and 70 |
| ZipDropChain.FallbackIsSmall | src/commands/bug.ts:1065-1078 | the fallback is the user message alone, at most 64 KiB of it |
| Autonomy.GetRequiredAutonomyLevel | src/agent/autonomy.ts:21-51 | the loop with its early return finds the required level |
| Autonomy.RequiredIsTheHighest | src/agent/autonomy.ts:21-51 | that level is the highest any tool requires and at least Low, and the only such level |
| Autonomy.CombinedModeHolds | packages/utils/src/autonomy/index.ts:71-112 | which pairs of mode and level the combined mode holds, and that parsing it loses nothing |
| Autonomy.ClampIsTheNearestAllowed | packages/utils/src/autonomy/helpers.ts:29-51 | capping gives the highest allowed level not above the requested one |
| Confirmation.GetToolConfirmationInfo | src/agent/tool-confirmation.ts:435-491 | the loop collects exactly the tools that need a confirmation, in order, and builds their options |
| Confirmation.GetBatchConfirmationOptions | src/agent/tool-confirmation.ts:144-430 | the options of a prompt, case by case |
| Confirmation.PushAutonomyTierOptions | src/agent/tool-confirmation.ts:52-74 | appends the options whose level the maximum allows, in order |
| ConfirmationProperties.DeniedCommandsAreAlwaysAsked | src/agent/shouldConfirmExecution.ts:493-520 | a denied command is asked about at every level, and its prompt offers yes and no only unless it is a plan's |
| ConfirmationThresholds.EachToolByItself | src/agent/tool-confirmation.ts:435-491 | a batch is asked about tool by tool, in order |
| ConfirmationThresholds.McpToolsAskAboveTheLevel | src/agent/shouldConfirmExecution.ts:822-848 | wherever it stands in a batch, an MCP tool is asked about exactly when it was not approved for good and its own risk is above the level outside Mission mode; the prompt names that risk and its server |
| ConfirmationThresholds.CommandsAskAboveTheLevel | src/agent/shouldConfirmExecution.ts:493-557 | a command is asked about exactly when it is not blocked and is denied, or is neither allowed nor within the level; a denied one counts as high |
| ConfirmationThresholds.AutomationsAskAboveTheLevel | src/agent/shouldConfirmExecution.ts:333-361 | creating and editing an automation need Medium, deleting one needs High |
| ConfirmationThresholds.EditsAndPlansAsk | src/agent/shouldConfirmExecution.ts:381-491 | file edits are asked about in Spec mode and in Auto mode at Off; plans and missions whenever someone attends |
| ConfirmationThresholds.WhatIsApproved | src/agent/tool-confirmation.ts:508-607 | approving once approves exactly the chosen tools, every other approval all of them, Cancel none |
| ConfirmationThresholds.OtherAnswersChangeNothing | src/agent/tool-confirmation.ts:508-607 | only "always allow" for tools other than sandbox ones and the approval of a plan change the session |
| ConfirmationThresholds.ServerIsOfferedExactlyWhen | src/agent/tool-confirmation.ts:292-370 | the option for a whole server is offered exactly with the one for tools and when all name one server |
| ConfirmationProperties.AlwaysAllowSuffices | src/agent/shouldConfirmExecution.ts:381-557 | at the required level no tool of a flagged batch is asked about, except in Spec mode exactly when the batch has a file edit |
| ConfirmationProperties.AlwaysAllowRaises | src/agent/autonomy.ts:21-51 | the required level exceeds the old one, except exactly for flagged file edits alone in Spec mode above Off |
| ConfirmationProperties.AlwaysAllowIsLeast | src/agent/shouldConfirmExecution.ts:333-361 | at every lower level of the same mode some tool of the batch is still asked about |
| ConfirmationProperties.AlwaysAllowSetsTheRequiredLevel | src/agent/tool-confirmation.ts:517-536 | the answer sets exactly that level when the maximum allows it |
| ConfirmationProperties.AlwaysAllowCanLower | src/services/SessionService.ts:1023-1039 | a concrete prompt in Spec mode at High whose "Always allow" leaves Low and asks about more than before |
| ConfirmationProperties.OfferedNeedsNoCap | src/agent/tool-confirmation.ts:144-430 | an offered option has the same effect with and without the managed cap |
| ConfirmationProperties.OptionsAloneKeepTheMaximum | src/agent/tool-confirmation.ts:508-607 | from a level within the maximum, any prompts answered with offered options keep it there, even if nothing were capped |
| ConfirmationProperties.AlwaysOfferedExactlyWhen | src/agent/tool-confirmation.ts:261-429 | "Always allow" is offered exactly for prompts without plan or denied command that are not all MCP and require a level within the maximum |
| ConfirmationProperties.EveryPromptHasAWayOut | src/agent/tool-confirmation.ts:144-430 | every prompt begins with approving once and ends with cancelling |
| ConfirmationProperties.PersistenceWithinMaximum | src/agent/tool-confirmation.ts:292-370 | "always allow these tools" is offered exactly for all-MCP batches whose highest impact is within the maximum |
| ConfirmationProperties.ScalesAgree | src/agent/tool-confirmation.ts:97-129 | the persistence scale and the autonomy scale agree exactly when no impact is missing or some tool is high |
| ConfirmationProperties.ScalesAgreeOnPrompts | src/agent/shouldConfirmExecution.ts:839-847 | on the prompts for MCP tools no impact is missing, so the scales agree |
| ConfirmationProperties.PlanOptions | src/agent/tool-confirmation.ts:161-237 | a plan's prompt offers exactly the options whose level the maximum allows |
| ConfirmationProperties.PlansLeaveSpecMode | src/agent/tool-confirmation.ts:547-606 | an approved plan leaves Spec mode at the level its option names; Cancel changes and approves nothing |
| SessionAutonomy.SessionService.SetAutonomyMode | src/services/SessionService.ts:921-936 | sets mode and capped level and keeps the combined mode in step |
| SessionAutonomy.SessionService.SetAutonomyLevel | src/services/SessionService.ts:979-992 | sets the capped level, keeps the interaction mode, and keeps the combined mode in step |
| SessionAutonomy.SessionService.ProcessConfirmationOutcome | src/agent/tool-confirmation.ts:508-607 | the approved tools and the new session for every outcome |
| ToolSelection.ResolveToolSelection | src/commands/resolveToolSelection.ts:84-287 | the loops compute the closed form of the sets, or one of the three errors |
| ToolSelection.BuildIdentifierMap | src/utils/toolCatalog.ts:89-99 | identifiers of ids and model names, later tools winning |
| ToolSelection.LookupFinds | src/commands/resolveToolSelection.ts:173-178 | an identifier finds a registered tool that answers to it exactly when there is one |
| ToolSelectionProperties.DisabledToolsAreNotAllowed | src/commands/resolveToolSelection.ts:220-259 | no disabled id is allowed other than ToolSearch and ExitSpecMode |
| ToolSelectionProperties.HiddenToolsAreNotAllowed | src/commands/resolveToolSelection.ts:254-259 | no hidden registered id is allowed other than Task and ToolSearch |
| ToolSelectionProperties.DeferredToolsHaveTheirLoader | src/commands/resolveToolSelection.ts:70-79 | an allowed deferred tool brings ToolSearch with it, in both sets |
| ToolSelectionProperties.AllowedStaysInBounds | src/commands/resolveToolSelection.ts:220-276 | allowed ids are in the base set, admitted opt-ins, or ToolSearch |
| ToolSelectionProperties.TaskBelowTheTop | src/commands/resolveToolSelection.ts:261-274 | at depth above 0 Task is allowed only if explicitly enabled |
| ToolSelectionProperties.ReadOnlyByDefault | src/commands/resolveToolSelection.ts:130-157 | without flags only read-only tools, opt-ins, the Spec mode tools and the loader are allowed |
| ToolSelectionProperties.FailsExactlyWhen | src/commands/resolveToolSelection.ts:84-218 | each error occurs exactly for conflicting flags, an unknown identifier, or a hidden tool |
| ToolSelectionGrants.EnabledToolsAreAllowed | src/commands/resolveToolSelection.ts:220-228 | the tool of each usable enabled identifier is in the base set, and allowed unless disabled |
| ToolSelectionGrants.EnablingReplacesTheDefaults | src/commands/resolveToolSelection.ts:220-259 | when some identifier enables a tool, allowed ids are enabled, opt-ins, Spec mode tools, Task or the loader |
| ToolSelectionGrants.DefaultIsEverything | src/commands/resolveToolSelection.ts:130-157 | when none does, every visible registered tool but Task is allowed with --auto or without permissions, unless disabled |
| ToolSelectionGrants.DefaultIsReadOnly | src/commands/resolveToolSelection.ts:130-157 | otherwise every visible read-only tool but Task is, unless disabled |
| ToolSelectionGrants.OptInsAreAllowed | src/commands/resolveToolSelection.ts:229-243 | each usable opt-in other than Task is allowed, unless disabled |
| ToolSelectionGrants.SpecModeHasItsTools | src/commands/resolveToolSelection.ts:244-253 | in Spec mode the tool that leaves it is allowed even when disabled, and the one that asks the user unless disabled or not available |
| ToolSelectionGrants.TaskAtTheTop | src/commands/resolveToolSelection.ts:261-274 | at depth 0 Task is allowed at high autonomy or without permissions, unless disabled |
| ToolSelectionGrants.DisabledIs | src/commands/resolveToolSelection.ts:190-218 | the disabled ids are those of visible tools that a disabled identifier finds |
| ToolSelectionGrants.SelectedListsAreVisible | src/commands/resolveToolSelection.ts:159-218 | a selection names no unknown or hidden tool in its lists, and its read-only ids are the visible ones |
| ToolSelectionProperties.ListOrderDoesNotMatter | src/commands/resolveToolSelection.ts:173-276 | order and repetition in the enabled, disabled and additive lists change neither the sets nor whether there is an error, whatever the registry |
| ToolSelectionProperties.RegistryOrderDoesNotMatter | src/commands/resolveToolSelection.ts:103-104 | nor does the order of a registry in which no two tools share an identifier |
| DeferredTools.PartitionDeferredTools | src/agent/deferredTools.ts:181-213 | the loop splits tools into core, loaded and hidden |
| DeferredTools.AddToolCacheControl | src/agent/deferredTools.ts:220-243 | exactly the last exposed tool is marked |
| DeferredTools.ResolveEffectiveToolContext | src/agent/deferredTools.ts:331-395 | the exposed, hidden and loaded tools with the feature on and off |
| DeferredTools.LoadingOnlyMoves | src/agent/deferredTools.ts:181-213 | loading more leaves the core alone, only shrinks hidden, and only inserts among the loaded |
| DeferredTools.CorePrefixIsStable | src/agent/deferredTools.ts:331-395 | the core prefix of the exposed tools does not depend on what is loaded |
| DeferredTools.NothingIsLost | src/agent/deferredTools.ts:181-213 | exposed and hidden tools are a rearrangement of all tools |
| DeferredTools.EachToolIsPlacedByItself | src/agent/deferredTools.ts:181-213 | each tool is placed by itself, and each part keeps the order |
| DeferredTools.SeenExactlyWhen | src/agent/deferredTools.ts:331-395 | with the feature on, exactly the tools that are not deferred or were loaded are seen, ToolSearch only when something is deferred; exactly the other deferred ones are hidden |
| DeferredTools.AllSeenWhenOff | src/agent/deferredTools.ts:331-350 | with the feature off every tool but ToolSearch is seen, unmarked |
| DeferredTools.SameToolsWithoutDeferred | src/agent/deferredTools.ts:331-395 | without deferred tools both paths expose the same specs |

## Left out

- React rendering, overlays, key handling, themes, labels and i18n; the delay of the drain timer and whether a drain ever runs. An effect is one atomic observation.
- The throwing path of the queued-message review (src/app.tsx:3180-3238), which does not put the message back, and the change of daemon-queued messages to paused ones after Esc; a message the user pulls, deletes or clears counts as withdrawn.
- SessionQueue.SessionStateManager.QueueUserMessage: the guard against request ids that were already processed is not modelled, because ids are fresh.
- LocalQueueDrains.App.DrainManualCompactionQueue: a second drain while a batch is on its way is not modelled, because the compaction screen runs one at a time.
- AcpAdapter.AcpProtocolAdapter.OnToolInputComplete: the plan updates of TodoWrite, titles, locations and result contents are not modelled, because nothing that is tracked depends on them.
- JsonRpcAdapter.JsonRpcProtocolAdapter.SafeStdoutWrite: write errors other than a broken pipe are not modelled, because they are rethrown to the caller and change nothing.
- JsonRpcAdapter.JsonRpcProtocolAdapter.LatchParentDisconnect: the callbacks on disconnect are not modelled, because they belong to other components.
- `dispose`, settings and message notifications, and the working-state flag's relation to the pending tables.
- ChildProcess.ChildProcessHandler.OnMessage: the answers to the child's own requests (files and terminals) are not modelled, because they do not touch the pending table.
- LogCollapse.CollapseLowSignalLogNoise: the timestamp expression, trimming and lower-casing are functions of the line that the model does not define.
- TailTrim.TrimToTail: texts are sequences of Unicode scalar values; lone surrogates are not modelled.
- FileBudget.TrimFilesToBudget: allocations are exact reals, so floating-point rounding is not modelled.
- ZipDropChain.EnsureZipWithinLimit: the zip is represented by the list of files in it and its size by a function of that list; reading, scrubbing and encoding are not modelled.
- ZipDropChain.OnlyTheUserMessageIsIndispensable: file names that are keys of the JavaScript object prototype are not modelled.
- ConfirmationProperties.AlwaysAllowCanLower: the path of the edit, by which Spec mode lets only specs through to the prompt, is not modelled.
- Confirmation.GetToolConfirmationInfo: previews, file paths and messages of the details, the resolution of MCP names and the lookup of permissions are not modelled; errors of these lookups count as a lookup that finds nothing.
- ToolSelection.ResolveToolSelection: the warnings for tools that the model does not support and the saving of special tools in the session are not modelled.
- DeferredTools.ResolveEffectiveToolContext: the reminder text, schema hints and token metrics are not modelled.
- Metrics, tracing, authentication, HTTP APIs, process spawning, Slack, git and editor commands, generated stubs.
