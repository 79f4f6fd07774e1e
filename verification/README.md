# A verified model of the operational runtime

This project models the stateful and algorithmic core of the runtime in Dafny and proves properties of it:

- `LockProtocol.dfy` – engine and dispatcher as interleaved steps of any number of threads: two Go RWMutexes
  (a waiting writer keeps new readers out), requests of arbitrary outcome, and every status or conclusion field
  write as a step of its own. `FieldWrites.dfy` is about those field writes, which no lock protects, `NestedCancel.dfy`
  about the one path that takes both locks, and `Solos.dfy` and `Sequential.dfy` show that this model and the next agree.
- `Engine.dfy`, `Dispatcher.dfy` – the same two objects one whole call at a time, as classes over their maps, with
  HTTP replies as arbitrary arguments, and the properties of whole runs of messages, polls and cancels.
- `Urls.dfy` – the address of a status request and when `url.Parse` accepts it (Go 1.21).
- `Lifecycle.dfy`, `OpenHands.dfy`, `Clock.dfy`, `Channels.dfy` – the single task slot with its cancelled flag and
  cancel channel, driven by a deadline-bounded poll over an arbitrary stream of replies and an arbitrary clock.
- `GoSlices.dfy` – bounded histories as Go slices: backing array, offset, length, append in place or into a new
  array, re-slicing, and the windows handed out to callers.
- `Cognition.dfy`, `Text.dfy` – the fallback intent classifier, the dispatch decision, and substring search.
- `Assembly.dfy` – the deduplicating, budgeted context loop and the plain one, with `strings.TrimSpace` on bytes.
- `Store.dfy`, `Handlers.dfy` – the three memory tables behind LIKE (section 9.7.1 of the PostgreSQL
  documentation), the duplicate check, listing and search, push events, and the agent endpoints on top.

How it is put together: code that changes things step by step is a method with loops or a class with fields, and its
`ensures` equates the result or the new state with a function of the inputs and the old state. Those functions
(`Classify`, `Poll`, `Execute`, `HandleIntent`, `Assembled`, `Create`, …) are not listed below; the lemmas about them
are. A character mapping such as `strings.ToLower` is a function parameter `char -> char`; a lemma that needs more of
it says so (`Idempotent`, `LowersE`, `CaseFolding`). A `Session` is a server reply per poll and a clock reading per
loop test. The flag `asks` of a setup or a protocol state says whether there is a token and a status request can be
built; every result that does not mention it holds either way.

## What turned out not to hold

- No workflow status is ever read, with ordinary settings. internal/workflow/dispatcher.go:174-175 formats the integer
  run id with `%s`; the address then contains `%!s(int=7)`, `url.Parse` refuses that escape, and lines 177-180 return
  the stored run unchanged. `StatusRequestBuilds`: a request can be built if and only if owner and repository hold a
  question mark that moves the id into the query (and are otherwise in order), for any run id. Without one every run
  reads queued or cancelled for ever (`UnaskedRuns`, `AlwaysSilent`), a poll reports nothing else (`UnaskedStatus`),
  and `PollRun` of a known run always times out (`UnaskedPoll`); `ProgressExactly`: some run is ever seen completed if
  and only if a request can be built. With `%d` instead of `%s` it could be, and the results about status replies below
  are about that reading and about settings with such a question mark.
- A READY task whose conversation can be fetched is reported COMPLETED at once, because the text built from a
  conversation is never empty; the comments at internal/openhands/client.go:247 and 266 say it is still running. The
  model follows the code. `RunningReportedCompleted` is such a reply, `CompletedExactly` says when a poll reports
  COMPLETED.
- Two equal titles containing a backslash can both be stored, because LIKE takes the backslash as its escape character
  (`BackslashStoredTwice`). `UniqueExactly`: a title is stored at most once by every run whose searches succeed if and
  only if its own pattern finds it; `FindsItselfWhen` reads that off the title. `RejectedExactly` and
  `LiteralRejectedExactly` say when the check rejects a title, other columns included, and `TwinAddedExactly` when one
  create adds a second row.
- Once statuses are read at all (see the first point), a run can read completed without having succeeded, and stay so:
  two threads that write the fields of one run at the same time can leave it like that with every thread done and both
  locks free (`CompletedWithoutSuccess`). Between operations this can still come about if and only if statuses can be
  asked for and the run is in the table (`QuietGoesWrongExactly`). What matters in between is a clash: one thread is
  writing a successful completion while another has yet to write a different conclusion. Without a clash so far the
  state is only ever passing (`CompletedHasSucceeded`), in particular with one writer at a time (`OneWriterSuffices`);
  from every clash it can become lasting (`ClashGoesWrong`). `GoesWrongExactly` joins the two; its two sides speak of
  possible futures, so the conditions to check are those of the other lemmas. Between whole calls the state is never
  seen (`RepliesStayHonest`, `RunAgrees`).
- An error paired with a live status leaves the lifecycle's slot busy after the call returned, as in `ErrorLeavesBusy`;
  `StaysBusyExactly` gives the exact condition, `BusyRefuses` what follows, `RunNeverBusy` what a server without such
  replies guarantees.
- Embedding an Execution message in a longer one can lower its precedence: `NegationLowersPrecedence` gives one,
  `EmbeddingKeepsPrecedence` gives all.
- ADRs are created with an empty decision and found by their decision, so at most one ADR reaches an agent
  (`AgentRuntime`, `Bootstrap`).

## Model

| member | source | states |
|---|---|---|
| LockProtocol.MapsAgree | internal/workflow/engine.go:105-117 | under any interleaving, a key of active is the ID, RunID and WorkflowID of its task and a key of the dispatcher's runs |
| LockProtocol.PollNeverMisses | internal/workflow/engine.go:191-223 | a poll of a task, however stale, never takes the missing-run branch; only a bare run lookup can |
| LockProtocol.NeverBack | internal/workflow/engine.go:165-223 | a task that left active, blocked away or replaced, never returns, whatever stale polls and cancels still hold a pointer to it |
| LockProtocol.LockOrder | internal/workflow/engine.go:226-238 | the engine lock is only asked for by a thread that holds nothing, and nobody asks for a lock while holding the dispatcher lock |
| LockProtocol.LocksAlwaysAgree | internal/workflow/engine.go:115-117 | in every reachable state each lock is held exactly as the threads' positions say, by one writer or by readers |
| LockProtocol.NoDeadlock | internal/workflow/dispatcher.go:359-363 | in every reachable state with an unfinished thread some unfinished thread has an enabled step, also when waiting writers keep readers out |
| LockProtocol.WhoWaits | internal/workflow/dispatcher.go:161-163 | a reader is let in only without a writer, holding or waiting, and a writer only without readers and in its turn |
| NestedCancel.BothLocksHeld | internal/workflow/engine.go:226-238 | a reachable state in which one thread holds both locks exclusively |
| NestedCancel.NestedCancels | internal/workflow/engine.go:226-238 | on every path a cancel section entered for an active task marks the task and sends the request before it gives up the engine lock; an accepted request takes the dispatcher lock inside, and right after that inner section the run reads cancelled |
| Sequential.RunMirrored | internal/workflow/engine.go:54-242 | every run of the sequential engine is an interleaved run of one thread that ends with free locks and the same tasks and runs |
| Sequential.ExecuteMirrored | internal/workflow/engine.go:98-117 | request, filing and publishing by one thread alone have the effect of an accepted Execution message |
| Sequential.PollMirrored | internal/workflow/engine.go:191-223 | finding the task, finding the run, asking, the three field writes and the task's status write, alone, have the effect of PollStatus |
| Sequential.CancelMirrored | internal/workflow/engine.go:226-238 | the nested cancel, alone, has the effect of Cancel, accepted or not |
| Sequential.BlockMirrored | internal/workflow/engine.go:165-188 | the turns of a blocking section, alone, have the effect of handleBlocking |
| Sequential.RefreshMirrored | internal/workflow/dispatcher.go:160-222 | a bare GetRunStatus, alone, has the effect of the dispatcher's |
| Sequential.WithdrawMirrored | internal/workflow/dispatcher.go:333-366 | a bare CancelRun, alone, has the effect of the dispatcher's |
| Solos.AlwaysSane | internal/workflow/dispatcher.go:139-149 | on every path different run ids are filed with different runs |
| LockProtocol.AlwaysAgreed | internal/workflow/dispatcher.go:139-167 | the inductive invariant behind these: tables, and what every thread carries from one critical section to the next |
| LockProtocol.WritersHoldTheLock | internal/workflow/dispatcher.go:147-149 | a step that changes active or runs is taken inside an exclusive section of that map's lock |
| LockProtocol.WritesAreExclusive | internal/workflow/engine.go:166-181 | while one thread changes active or runs, no other thread is inside any section of that map |
| LockProtocol.KeysExactly | internal/workflow/engine.go:105-181 | under any interleaving the keys of active are exactly the ids published by some Execute and not removed by a blocking section since |
| LockProtocol.BlockingRemovesExactly | internal/workflow/engine.go:165-188 | a blocking section removes exactly the tasks that were active when it was entered, one per change of active, whatever other threads do meanwhile |
| LockProtocol.AlwaysSilent | internal/workflow/dispatcher.go:174-180 | where no status request can be built, on every path nobody ever writes a run's fields and every run reads queued or cancelled |
| FieldWrites.CompletedHasSucceeded | internal/workflow/dispatcher.go:204-219 | on every path: as long as no thread writes a successful completion of a run while another has yet to write a different conclusion, a run that reads completed has succeeded or some thread is still at the writes that correct it |
| FieldWrites.OneWriterSuffices | internal/workflow/dispatcher.go:204-219 | so it is when no two threads are at the field writes of one run |
| FieldWrites.ClashGoesWrong | internal/workflow/dispatcher.go:204-219 | where statuses are read: from every state with such a clash, other writers or not, the threads can go on to leave the run completed without success and nobody at its writes |
| FieldWrites.GoesWrongExactly | internal/workflow/dispatcher.go:204-219 | after any clash-free path, the run may be left so if and only if a clash can come; both are impossible where no status request can be built |
| FieldWrites.QuietGoesWrongExactly | internal/workflow/dispatcher.go:160-219 | in every reachable state between operations, an honest run may still be left completed without success if and only if a status request can be built and the run is in the table |
| FieldWrites.CompletedWithoutSuccess | internal/workflow/dispatcher.go:204-219 | where statuses are read: a reachable state with every thread done and both locks free in which a run reads completed with an empty conclusion |
| Engines.ActiveExactly | internal/workflow/engine.go:298-331 | after any messages classified by the fallback, with polls and cancels in between, the keys of active are exactly the run ids of accepted Execution dispatches since the last blocking message |
| Engines.KeysOutstanding | internal/workflow/engine.go:54-120 | the same for any intents in which only Execution asks for execution |
| Engines.BlockingCounts | internal/workflow/engine.go:165-188 | a blocking reply reports exactly the tasks outstanding, removes them all and leaves every run as it was |
| Engines.StepAgrees | internal/workflow/engine.go:191-242 | every call keeps active tasks filed under their three equal ids with a known run, and the run table honest |
| Engines.RunAgrees | internal/workflow/engine.go:40-52 | so do all runs from the fresh engine |
| Engines.PollFindsRun | internal/workflow/engine.go:210-222 | polling an active task in a reachable state reaches the run it was dispatched as and reports its status, refreshed if a status request can be built |
| Engines.ExecutesExactly | internal/workflow/engine.go:54-120 | an Execution message files this task and this run and answers with the run id exactly when the dispatch is possible and accepted, and otherwise runs locally and changes nothing |
| Engines.BlocksExactly | internal/workflow/engine.go:165-188 | a blocking message empties the tasks, reports their number and leaves the runs, in any state |
| Engines.AnswersExactly | internal/workflow/engine.go:298-391 | the kinds that change nothing, each with its answer read off the state and the history |
| Engines.PollsTaskAndRun | internal/workflow/engine.go:191-223 | a poll leaves the task with the status it reports, which is its run's, and changes nothing else |
| Engines.PollsFinished | internal/workflow/engine.go:196-204 | for an id that is not active: the first finished task with it tells, else not_found; nothing changes |
| Engines.CancelsTaskAndRun | internal/workflow/engine.go:226-242 | in every reachable state a cancelled task reads cancelled, its run too if the request is accepted, and nothing else changes |
| Engines.UnaskedRuns | internal/workflow/dispatcher.go:174-180 | where no status request can be built, all runs of the engine leave every run queued or cancelled without a conclusion |
| Engines.UnaskedStatus | internal/workflow/engine.go:210-222 | there a poll of an active task reports queued or cancelled and changes no run |
| Engines.ProgressExactly | internal/workflow/dispatcher.go:174-219 | for an engine that can dispatch: some run is ever seen completed if and only if a status request can be built |
| Engines.Engine.constructor | internal/workflow/engine.go:40-52 | a fresh engine has no task and no cancel channel |
| Engines.Engine.CloseAll | internal/workflow/engine.go:170-175 | closes every registered channel once, forgets and counts them, in any iteration order |
| Engines.Engine.CancelAll | internal/workflow/engine.go:177-181 | leaves every removed task reading cancelled, removes and counts them all |
| Engines.Engine.DoBlocking | internal/workflow/engine.go:165-188 | removes every task, each reading cancelled; the count is the number of tasks since no channel is ever registered |
| Engines.Engine.DoExecuteLocally | internal/workflow/engine.go:123-140 | local execution: investigation, blocking, or nothing but a reply |
| Engines.Engine.DoExecute | internal/workflow/engine.go:55-120 | the branches of Execute, with fallback to local execution exactly when the dispatch is not accepted, and the new task and run when it is |
| Engines.Engine.GetStatus | internal/workflow/engine.go:245-265 | not configured, the number of active tasks, or ready |
| Engines.Engine.DoTalk | internal/workflow/engine.go:333-391 | the intents that are only answered: the status for a clarification, the last finished operation for an acknowledgment |
| Engines.Engine.DoHandleIntent | internal/workflow/engine.go:298-331 | routing by intent kind over the real maps and the history equals the specification the run theorems speak about |
| Engines.Engine.FindCompleted | internal/workflow/engine.go:197-203 | the status of the first finished task with the id, or not_found |
| Engines.Engine.DoPollStatus | internal/workflow/engine.go:191-223 | the table, the polled run and the task's status after a poll, for active, finished and unknown ids |
| Engines.Engine.DoCancel | internal/workflow/engine.go:226-242 | marks the task, and its run exactly when the cancel request is accepted; false for an unknown task |
| Dispatching.RepliesStayHonest | internal/workflow/dispatcher.go:160-222 | any status or cancel reply keeps completed runs successful and every run under its decimal id, and touches no other run |
| Dispatching.StatusExactly | internal/workflow/dispatcher.go:195-219 | a reply that is read sets status and conclusion, except that completed without success reads failed; any other leaves the run |
| Dispatching.CancelExactly | internal/workflow/dispatcher.go:333-366 | an accepted cancel makes a known run read cancelled and changes nothing else; any other leaves the table |
| Dispatching.PolledTable | internal/workflow/dispatcher.go:225-247 | the same for a whole poll loop |
| Dispatching.PolledStops | internal/workflow/dispatcher.go:228-240 | the loop ends at the first final state or at the deadline, not before |
| Dispatching.PolledEnds | internal/workflow/dispatcher.go:225-247 | PollRun returns completed, failed, not_found or timeout after at most ceil(timeout/interval) polls, and completed only with conclusion success |
| Dispatching.UnaskedPoll | internal/workflow/dispatcher.go:225-247 | where no status request can be built it leaves the table alone and returns not_found for an unknown run, polled in time, and else timeout |
| Dispatching.Dispatcher.DispatchSimplified | internal/workflow/dispatcher.go:90-152 | fails exactly without a token or an accepted answer; otherwise files a queued run under the decimal run id |
| Dispatching.Dispatcher.GetRunStatus | internal/workflow/dispatcher.go:160-222 | the returned run is the table's own, refreshed by the reply if there is a token and owner and repository let the request be built, else unchanged; a missing run is a fresh not_found |
| Dispatching.Dispatcher.CancelRun | internal/workflow/dispatcher.go:333-366 | marks the run cancelled exactly when the request is accepted and the run is known |
| Dispatching.Dispatcher.PollRun | internal/workflow/dispatcher.go:225-247 | the loop over the mutable table equals the poll specification |
| Dispatching.Dispatcher.DispatchAndWait | internal/workflow/dispatcher.go:250-261 | dispatch and then a ten-second poll of the run just filed |
| Urls.StatusRequestBuilds | internal/workflow/dispatcher.go:174-180 | the address with `%!s(int=…)` parses if and only if owner and repository, joined, hold no number sign, a question mark, only well-formed escapes before it, and no control character; the run id does not matter |
| Urls.NoStatusRequest | internal/workflow/dispatcher.go:174-180 | so it never parses when neither owner nor repository holds a question mark |
| Urls.QuestionMarkBuilds | internal/workflow/dispatcher.go:174-180 | the exception happens: the owner `a?b` |
| Urls.PlainParses | internal/workflow/dispatcher.go:174-180 | an address without percent signs and control characters parses, as it would with the id as digits |
| Text.DecimalReadsBack | internal/workflow/dispatcher.go:140-140 | the decimal id of a run determines its number |
| Clock.Elapsed | internal/openhands/client.go:373-389 | after n sleeps the clock has advanced by at least n intervals |
| OpenHands.GetConversationDetails | internal/openhands/client.go:290-367 | the text built from a conversation, or failure when none came; a short id only matters beside a title |
| OpenHands.ConversationOutput | internal/openhands/client.go:339-361 | that text is never empty |
| OpenHands.GetExecutionStatus | internal/openhands/client.go:194-286 | the status mapping, with READY decided by whether the conversation was fetched |
| OpenHands.PollExecution | internal/openhands/client.go:370-397 | the loop equals the poll specification |
| OpenHands.PollStops | internal/openhands/client.go:373-390 | every reply before the one returned was neither terminal nor an error, and the deadline had not passed |
| OpenHands.PollReturnsFirstTerminal | internal/openhands/client.go:370-397 | the first reply that is terminal, failed or carries an error, or else TIMEOUT, after at most ceil(timeout/interval) polls |
| OpenHands.ObservedExactly | internal/openhands/client.go:229-281 | one poll read off the reply: COMPLETED, FAILED and the rest each exactly, with id, error and output |
| OpenHands.PollReads | internal/openhands/client.go:370-397 | a poll returns what the first reply that is unusable, final or erroneous says, if it comes in time, and else TIMEOUT |
| OpenHands.OutputShows | internal/openhands/client.go:339-361 | the text of a conversation shows its runtime, model and own title, and opens with success for a finished execution |
| OpenHands.ReadyEndsPoll | internal/openhands/client.go:247-274 | the first READY reply with a fetchable conversation ends the poll as COMPLETED with output, whatever execution status it reports |
| OpenHands.CompletedExactly | internal/openhands/client.go:247-397 | a poll reports COMPLETED if and only if the first reply that is not passed over comes in time and is FINISHED, COMPLETED, or READY with a fetched conversation |
| OpenHands.RunningReportedCompleted | internal/openhands/client.go:265-274 | a conversation that says it is running is reported COMPLETED by the first poll |
| OpenHands.Dispatch | internal/openhands/client.go:400-413 | fails without a started task id, else polls it every five seconds |
| OpenHands.LifecycleAttempts | internal/intent/lifecycle.go:171-239 | the three timeouts allow 36, 60 and 120 polls |
| OpenHands.DispatchedStatus | internal/openhands/client.go:379-396 | what a dispatch can come back with: a terminal answer, an answer with an error, or TIMEOUT; only final statuses from a server that reports errors only with them |
| Lifecycle.RunConsistent | internal/intent/lifecycle.go:154-273 | after any operations a present task is an Execution on a configured client, and a set cancelled flag means no task or a CANCELLED one |
| Lifecycle.StepNeverLeavesRunning | internal/intent/lifecycle.go:203-273 | with a polite server no operation leaves a task executing or is refused as busy |
| Lifecycle.RunStaysIdle | internal/intent/lifecycle.go:461-467 | so IsExecuting is false between all operations of any run |
| Lifecycle.RunNeverBusy | internal/intent/lifecycle.go:213-216 | and the busy branch is never taken |
| Lifecycle.ExecutionReads | internal/intent/lifecycle.go:218-272 | the first deciding reply of the server fixes the answer of an execution and the task left in the slot |
| Lifecycle.ExecutionTimesOut | internal/intent/lifecycle.go:270-272 | without one in time the answer and the task say TIMEOUT |
| Lifecycle.ExecutionFails | internal/intent/lifecycle.go:244-252 | without a started task: an error answer and a FAILED task |
| Lifecycle.ExecutionAnswersExactly | internal/intent/lifecycle.go:241-272 | failed with this error text, completed, timed out, unusable: each if and only if the server's replies say so |
| Lifecycle.RefusesExactly | internal/intent/lifecycle.go:206-216 | not configured and already in progress, each exactly, and then nothing changes |
| Lifecycle.InvestigationReads | internal/intent/lifecycle.go:166-187 | the same for an investigation within three minutes, which never changes the slot |
| Lifecycle.InvestigationAlone | internal/intent/lifecycle.go:189-199 | without a client it reports the task in the slot |
| Lifecycle.TalkExactly | internal/intent/lifecycle.go:316-396 | the kinds that only answer, from the task in the slot |
| Lifecycle.AuditExactly | internal/intent/lifecycle.go:352-370 | an audit lists the last five messages, each cut to 50 bytes, and changes nothing |
| Lifecycle.CancelsExactly | internal/intent/lifecycle.go:154-163 | blocking empties the slot, stopping marks the task; both raise the flag and change nothing else |
| Lifecycle.StaysBusyExactly | internal/intent/lifecycle.go:241-272 | an execution leaves the slot executing if and only if the reply that ends its poll pairs an error with a live status before the deadline |
| Lifecycle.ErrorLeavesBusy | internal/intent/lifecycle.go:241-272 | such a reply: in progress, with an error |
| Lifecycle.InvestigationReports | internal/intent/lifecycle.go:166-187 | with a polite server an investigation reports a dispatch error, non-empty output, a silent completion, or a bare FAILED or TIMEOUT without its error text |
| Lifecycle.BusyRefuses | internal/intent/lifecycle.go:213-216 | a busy slot refuses every further execution and never changes until stopped or blocked |
| Lifecycle.ExecutionLifecycle.constructor | internal/intent/lifecycle.go:41-61 | starts without a task, with an empty history and an open cancel channel |
| Lifecycle.ExecutionLifecycle.Cancel | internal/intent/lifecycle.go:154-163 | closes the current channel, which is open, and replaces it by a new open one; all earlier ones stay closed |
| Lifecycle.ExecutionLifecycle.DoExecution | internal/intent/lifecycle.go:203-273 | the new state and reply for every outcome of the dispatch |
| Lifecycle.ExecutionLifecycle.DoInvestigation | internal/intent/lifecycle.go:166-200 | an investigation answers from the dispatch and changes nothing |
| Lifecycle.ExecutionLifecycle.DoAcknowledge | internal/intent/lifecycle.go:383-396 | offers a review of a completed task, else names the status if there is a task |
| Lifecycle.ExecutionLifecycle.DoAuditing | internal/intent/lifecycle.go:352-370 | lists the last five messages of the bounded history |
| Lifecycle.ExecutionLifecycle.Perform | internal/intent/lifecycle.go:64-163 | the whole of Execute, nil intent included: new state, the reply with what it says of task and history, and a channel closed exactly by a blocking intent |
| Lifecycle.ExecutionLifecycle.StopExecution | internal/intent/lifecycle.go:442-459 | cancels the present task and replaces the channel, or reports that there is none |
| Lifecycle.ExecutionLifecycle.IsExecuting | internal/intent/lifecycle.go:462-467 | true exactly for a task RUNNING, IN_PROGRESS or STARTING |
| Lifecycle.InferMissing | internal/intent/lifecycle.go:71-114 | the two trigger loops equal one closed form |
| Lifecycle.InferenceExactly | internal/intent/lifecycle.go:76-113 | with "why" or "just" only the investigation triggers count; otherwise an execution trigger is enough, and nothing is an execution |
| Lifecycle.DeadTrigger | internal/intent/lifecycle.go:91-93 | a trigger " Explique" in any list never matters: lower-cased text cannot contain it |
| Lifecycle.DeadShippedTrigger | internal/intent/lifecycle.go:91-93 | in particular in the shipped list |
| Lifecycle.WhyInvestigates | internal/intent/lifecycle.go:76-103 | a message containing "why" is always an investigation |
| Lifecycle.RedundantTriggers | internal/intent/lifecycle.go:76-103 | triggers that contain another trigger of their list make no difference |
| Lifecycle.AuditLines | internal/intent/lifecycle.go:352-370 | the skip loop lists exactly the last five messages, in order, each cut to 50 bytes (contents are read as bytes here) |
| GoSlices.History.AddToHistory | internal/intent/lifecycle.go:413-427 | after any additions the history is the last 50 entries of the full log, and every slice handed out before is intact, for any growth of append |
| GoSlices.History.GetHistory | internal/intent/lifecycle.go:430-439 | the last min(count, 50, n) entries, as a window into the backing array |
| GoSlices.History.MakeRoom | internal/workflow/engine.go:272-272 | a reallocating append copies the window and leaves every older array alone |
| GoSlices.History.Put | internal/workflow/engine.go:272-272 | an in-place append writes behind every slice handed out |
| GoSlices.History.Bound | internal/workflow/engine.go:275-277 | re-slicing keeps the last 50 |
| GoSlices.LastIsSuffix | internal/workflow/engine.go:275-289 | what is kept and handed out is the end of the log, of the length asked for |
| GoSlices.ReturnedSliceSurvives | internal/workflow/engine.go:268-290 | a slice returned by GetHistory keeps its contents through any later additions |
| Cognition.Scan | internal/intent/cognition.go:256-264 | the loop finds a match exactly when one exists, and the first |
| Cognition.ScanExecution | internal/intent/cognition.go:312-331 | the loop with the negation escape inside equals a match and no negation |
| Cognition.ScanAcknowledgment | internal/intent/cognition.go:382-389 | the first pattern equal to the text or followed by a full stop or exclamation mark |
| Cognition.Cascade | internal/intent/cognition.go:238-398 | the ordered loops over any lists equal a decision by rank |
| Cognition.FallbackAnalysis | internal/intent/cognition.go:238-398 | the same for the shipped lists on the lower-cased message |
| Cognition.FirstKindsExactly | internal/intent/cognition.go:250-298 | Blocking, Investigation and Auditing each if and only if their list matches and no earlier one does, for any lists |
| Cognition.KindsExactly | internal/intent/cognition.go:300-398 | the other kinds likewise, with the negation; a default clarification is the one with confidence 0.3 |
| Cognition.UrgencyExactly | internal/intent/cognition.go:324-327 | high urgency if and only if an Execution says now |
| Cognition.ReasoningQuotes | internal/intent/cognition.go:256-375 | the reasoning quotes the first pattern of the deciding list that occurs |
| Cognition.ExecutionExactly | internal/intent/cognition.go:302-331 | Execution if and only if no earlier list matches, an execution pattern does, and "nao " does not occur |
| Cognition.NegatedNeverExecutes | internal/intent/cognition.go:267-331 | no message whose lower case contains "nao " is Execution |
| Cognition.FlagsFollowKind | internal/intent/cognition.go:256-398 | should-execute exactly for Execution, should-stop exactly for Blocking, urgency only for Execution |
| Cognition.RankEmbedded | internal/intent/cognition.go:250-375 | for any lists: when exactly a longer text ranks below a part of it |
| Cognition.EmbeddingKeepsPrecedence | internal/intent/cognition.go:250-375 | embedding a message never lowers its precedence, except, and then always, an Execution message in a text with "nao " that no earlier list matches |
| Cognition.NegationLowersPrecedence | internal/intent/cognition.go:313-318 | the exception happens: "fix" and "nao fix" |
| Cognition.EssentialCovers | internal/intent/cognition.go:250-375 | every pattern contains one that no other pattern of the list makes redundant |
| Cognition.HitsEssential | internal/intent/cognition.go:250-375 | a list and its irredundant part match the same texts |
| Cognition.RedundantPatternsOnlyReword | internal/intent/cognition.go:250-375 | dropping every redundant pattern of every list changes nothing but the reasoning text, for all messages |
| Cognition.ShouldDispatchOpenHands | internal/intent/cognition.go:426-461 | the decision depends on the executions only through whether one is live |
| Cognition.ClassifiedDispatch | internal/intent/cognition.go:426-461 | for every classified message: dispatch if and only if Execution and nothing live; "stopping active execution" is unreachable |
| Cognition.DecisionExactly | internal/intent/cognition.go:426-461 | for any intent: when it goes ahead, and that it carries its task |
| Cognition.InferWithContext | internal/intent/cognition.go:401-423 | conversation history never changes the verdict on a message |
| Text.ContainsTransitive | internal/intent/cognition.go:256-264 | containment of patterns carries over to texts |
| Text.ContainsEmbedded | internal/intent/cognition.go:256-264 | what a part contains the whole contains |
| Assembly.TrimRightSplits | cmd/api/handlers.go:218-221 | trimming the end leaves a prefix, cuts off white space only, and leaves none at the end |
| Assembly.DistinctKeepsFirsts | cmd/api/handlers.go:358-363 | deduplication keeps exactly the first result of each content |
| Assembly.DistinctHasNoRepeats | cmd/api/handlers.go:358-363 | and no content twice |
| Assembly.DistinctOfDistinct | cmd/api/handlers.go:358-363 | it changes nothing if and only if contents are pairwise different |
| Assembly.CutIsShortest | cmd/api/handlers.go:384-387 | the break keeps the shortest prefix whose rendering exceeds the budget, or everything |
| Assembly.ShortestIsUnique | cmd/api/handlers.go:384-387 | there is only one such prefix |
| Assembly.Collect | cmd/api/handlers.go:353-388 | the loop with seen, sources and builder agrees with deduplicate-then-cut, and seen is the contents of the sources |
| Assembly.RenderingShows | cmd/api/handlers.go:382-382 | the entries of a rendering stand one behind the other, and entry i is the bracketed kind and title of result i, its content, and an empty line |
| Assembly.AnswerShows | cmd/api/handlers.go:353-396 | an answer that is not truncated shows every source in order, complete but for white space after the last |
| Assembly.BuiltShows | cmd/api/handlers.go:203-222 | so does the plain answer |
| Assembly.Assemble | cmd/api/handlers.go:589-617 | loop, trim and truncation equal the specification for every budget, the panic of a negative one included |
| Assembly.NothingLost | cmd/api/handlers.go:353-396 | against the rendering R of all distinct results: truncated text is R's first budget bytes and the marker; otherwise text and white space make up R or more than the budget of it |
| Assembly.TextIsBounded | cmd/api/handlers.go:390-396 | at most four bytes over the budget |
| Assembly.Reassembled | cmd/api/handlers.go:589-617 | assembling the sources of an answer again gives the same sources and text |
| Assembly.BuildContext | cmd/api/handlers.go:203-222 | the plain loop: every result, trimmed |
| Assembly.SameSources | cmd/api/handlers.go:203-388 | runtime and build-context list the same sources if and only if contents differ and only the last may pass the budget |
| Assembly.SameText | cmd/api/handlers.go:218-396 | and then the same text if and only if it needs no truncation or already ends like one |
| Assembly.SameAnswer | cmd/api/handlers.go:203-396 | pairwise different contents that render within the budget give the same answer from both |
| Store.LikesItself | internal/memory/postgres.go:55-58 | a backslash-free text matches itself as a pattern, wildcards included |
| Store.PatternFindsTwin | internal/memory/postgres.go:55-58 | the ILIKE prefilter lets every fold-equal title through, also for titles with % or _ |
| Store.LiteralInside | internal/memory/postgres.go:112-115 | a pattern without unescaped wildcards matches exactly the texts containing its unescaped form |
| Store.LikeElements | internal/memory/postgres.go:57-57 | the elements of a LIKE pattern on their own |
| Store.LikeJoins | internal/memory/postgres.go:57-57 | a pattern put together of two matches exactly the texts put together of two matches, except after a dangling escape |
| Store.AroundFits | internal/memory/postgres.go:55-58 | what the pattern of any title matches: the texts some part of which it describes, and with a dangling escape only a part before a percent sign at the very end |
| Store.FindsItselfWhen | internal/memory/postgres.go:55-58 | a title's own pattern finds it always without a backslash, never with a dangling one, and without unescaped wildcards if and only if the title contains its unescaped form |
| Store.LiteralRejectedExactly | internal/memory/postgres.go:246-262 | the check for a title without unescaped wildcards: some row has a fold-equal title and a column, of all that are searched, that contains the unescaped title |
| Store.TwinAddedExactly | internal/memory/postgres.go:220-262 | a create adds a PDR or ADR beside a fold-equal one if and only if the insert works, the title does not find itself, and no such row mentions it in another column |
| Store.CreatedExactly | internal/memory/postgres.go:220-243 | with working searches: each outcome of a create exactly, and that only Stored changes the tables |
| Store.StoredAppends | internal/memory/postgres.go:230-300 | then the listing of its type gains this entry, with the new id and time, and no other listing changes |
| Store.UniqueExactly | internal/memory/postgres.go:220-262 | for every title: all runs whose searches succeed store it at most once, up to folding, if and only if it finds itself |
| Store.BackslashStoredTwice | internal/memory/postgres.go:220-262 | submitting the title `a\b` without content twice stores it twice |
| Store.RejectedExactly | internal/memory/postgres.go:246-262 | with working searches any title is rejected if and only if a stored PDR or ADR title folds to the same and either the title finds itself or such a row mentions it in another column |
| Store.CreateKeepsNoTwins | internal/memory/postgres.go:220-243 | one create keeps titles that find themselves unique within and across the two tables |
| Store.TitlesStayUnique | internal/memory/postgres.go:220-262 | so does every sequential run of creates whose searches succeed; titles without a backslash find themselves |
| Store.RowsShowAccepted | internal/memory/postgres.go:220-300 | after any run the rows of each type are the accepted entries of that type: title, content, and data for preferences |
| Store.MapKeepsMultiset | internal/memory/postgres.go:272-275 | projecting rows in any order gives the same multiset |
| Store.Ordered | internal/memory/postgres.go:57-57 | newest first, nothing lost or added |
| Store.Repository.SearchPDRs | internal/memory/postgres.go:55-73 | newest first, exactly the rows whose title or content shows the query, as often as stored; none when the query fails |
| Store.Repository.SearchADRs | internal/memory/postgres.go:112-131 | the same over title, context and decision |
| Store.LiteralFoundExactly | internal/memory/postgres.go:55-131 | a query without unescaped wildcards finds exactly the rows with a column that contains it, folded and without its escapes |
| Store.WhereKeepsCount | internal/memory/postgres.go:55-73 | filtering keeps each row as often as it was there |
| Store.Repository.CheckDuplicate | internal/memory/postgres.go:246-262 | the two loops decide whether some prefiltered title folds to the same |
| Store.Repository.CreateMemory | internal/memory/postgres.go:220-243 | the tables and the outcome after one create, failures included; decisions stay empty |
| Store.Repository.ListMemory | internal/memory/postgres.go:265-300 | as a multiset the rows of the type, projected; nothing for unknown types and failed queries |
| Store.Repository.SearchMemory | internal/memory/postgres.go:312-339 | matching PDRs, then matching ADRs, newest first each, cut to the limit |
| Store.SearchedExactly | internal/memory/postgres.go:312-339 | never more than the limit; every result is a row that shows the query, as it is; below the limit no such row is missing |
| Handlers.ClassifiedAdrExactly | cmd/api/handlers.go:522-537 | a commit becomes an ADR if and only if it speaks of decision, decide or refactor and of neither fix nor bug; never a PDR or preference |
| Handlers.ClassifiedExactly | cmd/api/handlers.go:522-537 | the other types exactly |
| Handlers.ProcessPushEvent | cmd/api/handlers.go:442-468 | the tables after a push: one create per commit with a message, in order |
| Handlers.ProcessCommit | cmd/api/handlers.go:448-467 | one element of the array: skipped unless it is an object with a message, else one create |
| Handlers.PushAddsOnlyDecisions | cmd/api/handlers.go:442-468 | any payload leaves PDRs and preferences alone and only appends ADRs of deciding commits |
| Handlers.DecidingCommitIsStored | cmd/api/handlers.go:448-467 | a deciding commit becomes an ADR with its message and shortened title, unless it is a duplicate or the insert fails |
| Handlers.OtherCommitsAreNot | cmd/api/handlers.go:448-467 | every other commit leaves all tables as they are |
| Handlers.SourcesVary | cmd/api/handlers.go:356-379 | sources differ in content, and hold at most one ADR when ADR contents are empty |
| Handlers.SearchedAdrsAreEmpty | internal/memory/postgres.go:324-331 | every ADR a search finds has empty content, since only CreateMemory writes ADRs |
| Handlers.AgentRuntime | cmd/api/handlers.go:324-407 | the answer assembled from what the search found: at most 8004 bytes, no content twice, at most one ADR |
| Handlers.Bootstrap | cmd/api/handlers.go:559-617 | the same with defaults for task and budget, 15 results and upper-case kinds |

## Left out

- HTTP, JSON, SQL transport, environment variables, logging and configuration: replies and row sets are arguments.
- The wording of replies and prompts, the dispatcher's `GetStatus`, `FormatRunStatus`, and the always empty `queue`:
  replies are constructors with the data they show. The timeout message does not carry the duration.
- `classifyWithLLM` always fails in the source, so inference is the fallback; the fields `InferredFrom` and
  `Sensitivity` of an intent, which the fallback sets to constants or leaves empty, are not modelled.
- `dispatchExecution` (internal/intent/lifecycle.go:276): nothing calls it, and it would publish onto whichever task is current.
- Where a question mark moves the run id into the query, the request goes to another address; its reply is arbitrary like
  any other.
- Timestamps of runs and tasks (`UpdatedAt`, `StartTime`, `EndTime`); `CreatedAt` is kept as a number.
- Unicode case rules and invalid UTF-8: folding works per character. `ToLower` and `EqualFold` may differ from
  PostgreSQL's folding on some characters; the model uses one folding for both.
- `truncate` counts characters of a string; contents are read as bytes in context assembly and in the audit listing.
- The panic of a READY task whose conversation has a title and an id shorter than eight characters
  (internal/openhands/client.go:355): `StatusReply` leaves such answers out, and no others.
- Negative search limits and negative history counts, which would panic in slice expressions.
- The read of an intent through a pointer after it was stored in a task: intents are values.
- Concurrent `CreateMemory`: the check and the insert are not one transaction, so uniqueness is claimed for sequential runs.
- `RepliesStayHonest`: completed implies success only with whole calls as steps; `FieldWrites` has the rest.
- `BlockingCounts`: a range over a map while deleting is taken in an arbitrary order, one entry per turn.
- `FindsItselfWhen`: for titles that mix backslashes with unescaped wildcards it remains the match of the title with
  its own pattern.
- Scores are reals, and ranking is left out: the code never sorts by score.
- `rows.Err`, scan failures in the middle of a result set, and reading the tags column: a query yields all its rows or fails.
- The shipped schema declares `tags TEXT[]` (migrations/002_create_architecture_decisions.sql:10), and `CreateMemory`
  sends the empty string, which is no array: against that schema every ADR insert fails. The model has that as an
  `insert` of None; what it says of ADRs then holds of an empty table.
- The unlocked read of the finished tasks in `PollStatus` is a whole step; races on that slice are not modelled.
- Places where the Go source does not type-check (internal/openhands/client.go:189, internal/workflow/engine.go:99,
  internal/workflow/dispatcher.go:251) are read as evidently meant: a missing brace, and the payload projected to task and repository.
- Pull-request and issue events, ingestion, embeddings, health and read-by-id endpoints: they add only easy members.
