# Verified model of a durable agent runtime

The repository runs a model/tool loop ("agent") durably: every event is appended to a log, the message
trajectory is checkpointed after every tool result, and a run record carries the status. The three are
written separately, so a process can die between any two writes. Resuming a run rolls the trajectory back
to a protocol-safe boundary, reconciles the log with it, reuses recorded results, and blocks calls whose
side effect may have happened.

This project models that protocol as a step system, proves what every run of it keeps, and then shows that
the code (early returns, captured variables, stores that are overwritten or appended to) only ever performs
legal runs of the step system. Around it stand the machines that meet at a lock (event streams,
subscriptions, approvals, tool-server clients, the table of managed runs) and the loops with real content
(truncation, splitting, putting streamed calls together).

How the files fit together:

* `Types`, `Strings`, `Utf8`: values, library functions on strings, UTF-8 by section 4 of RFC 3629.
* `Trajectory`, `ToolRun`, `Reconcile`: the rollback, the receipts of one call and their replay, the index
  that resumption consults.
* `Protocol`: the step system of one run id. Log, checkpoint and record survive a crash; the live attempt
  does not. Every store write is a step and ends as stored, refused, or torn (reported as failed although
  stored). Crash, Recover, Cancel and any number of attempts may come between any two steps. A history
  remembers bodies run, prompts sent and results returned; it steers nothing.
* `ProtocolEffects`, `ProtocolLog`, `ProtocolEvents`, `ProtocolCalls`, `ProtocolRecovery`,
  `ProtocolRequests`, `ProtocolTrajectory`, `ProtocolAborts`, `ProtocolOutcome`: what every step keeps and what
  follows for every run. `ProtocolScenes`, `ProtocolFinality`: reachable runs in which a documented promise fails.
* `MemoryStore`, `Runtime`, `AgentLoop`, `Attempts`: the stores, and attempts as the code performs them
  (runtime.go, agent.go, and Run, Resume and Recover from beginning to end). A `Session` carries the protocol
  run it performs as history; every method keeps "this is a legal run, the stores hold what it says, and the
  other runs are as they were". A cancellation by the caller may come before every action.
* `ToolStep`: sequential and parallel execution of the calls of one step.
* `Stream`, `Subscriptions`, `Broker`, `McpManager`, `ClientTable`: each method is one critical section, or
  one channel operation after it; since every method keeps the class invariant, so does every interleaving.
* `Splitter`, `Accumulator`: the remaining loops.

Where the code and its documentation disagree, the model follows the code:

* Documentation says a final status never changes. In the code a failed or canceled run becomes pending
  when it is resumed, and a succeeded or canceled run becomes failed when its terminal event cannot be
  stored. `ProtocolFinality` builds a reachable run for each of the four changes, and
  `ProtocolOutcome.FinishedRunChangesIff` says exactly which step changes the record of a finished run.
* Resumption promises a protocol-safe trajectory. A parallel call that is cancelled between its start event
  and its body is written back as an empty message and checkpointed, and the rollback takes that message
  for a safe end. `ProtocolAborts.AbortedCallBreaksPrompt` builds the run, and
  `ProtocolTrajectory.PromptClosedIffNoAbort` says that nothing else breaks a prompt.
* A stream is promised to deliver what the log holds. When the run ends between the log read and the status
  read, it ends early with a made-up terminal event: `Stream.EarlyEndLosesEvents` shows a stream that gives
  no event of a three-event log. `Stream.Stream` says when a stream that ends without error is whole: exactly
  when a terminal status came with a snapshot that lacks nothing but the terminal event, or another status with
  a snapshot taken before the end (`Timely`).
* A reused result is promised to be the recorded one. It is truncated again on delivery, so a result that
  was cut with a larger limit, or by the notice itself, changes: `ToolRun.ReplayCutsAgain` shows one under an
  unchanged limit, and `ToolRun.ReplayRoundTrip` says exactly which results survive. A recorded failure comes
  back as a plain result with the same text.
* The branch of CallTool that makes a client is dead: a listed tool implies a held client
  (`McpManager.Manager.BeginCall`).

## Model

| member | source | states |
|---|---|---|
| ProtocolRecovery.UncertainCallNeverRerun | runtime/resume.go:95-263 | from any reachable state between attempts: a call of a tool that is not RetrySafe whose body ran and that has neither a stored receipt nor a tool message in the rolled-back checkpoint is never followed, in any continuation, by another body with its name and arguments |
| ProtocolRecovery.BodiesAreAccountedFor | agent/agent.go:413-419 | every body that ever ran had its proposal and its start stored before, and no append or save of its attempt had failed when its start was checked |
| ProtocolRecovery.ResumeHoldsBack | runtime/resume.go:165-169 | an index rebuilt from a log with a start and no receipt counts the key as in flight, so it is never left out as empty |
| ProtocolRecovery.QuarantineStep | runtime/resume.go:248-262 | no single step of any kind lifts the block of an uncertain call or runs its key |
| ProtocolRequests.ResumedExecutions | runtime/resume.go:95-263 | a resumed attempt, over any of its steps and any interleaving of its calls, runs for each key as many bodies as it has requests beyond the reusable receipts in the log, or none when the tool is not RetrySafe and the log shows an uncertain call of the key |
| ProtocolRequests.ResumedBodies | runtime/resume.go:95-263 | the same in terms of log and trajectory: the receipts are those of started calls of the key that the rolled-back checkpoint does not answer, an uncertain call is a start without receipt that it does not answer |
| ProtocolRequests.ReusedReceiptIsOrphan | runtime/resume.go:106-164 | a receipt that answers a call of a resumed attempt is that of a started call with the same name and last proposed arguments, and the trajectory the attempt resumed with has no tool message of that call |
| ProtocolRequests.KeyExecutions | runtime/resume.go:233-262 | from any point of an attempt on, each request of a key takes one receipt from its queue while there are any, and real executions are the requests beyond them, or none while the key is held back |
| ProtocolRequests.ReceiptsDelivered | runtime/resume.go:233-247 | the m-th request of a key within an attempt is answered by the m-th receipt, in log order, and by none once they are used up |
| ProtocolCalls.CallsInvStep | agent/agent.go:367-456 | every step keeps what the log, the cells and the calls of a running step say about each other, for every interleaving of parallel calls |
| ProtocolCalls.ExecsStep | agent/agent.go:413-419 | every step keeps each executed body accounted for in the log |
| ProtocolTrajectory.PromptClosedIffNoAbort | agent/agent.go:168-300 | in every reachable state of runs with closed inputs, a prompt answers each assistant call by the tool messages right after it exactly when it holds no message of an aborted parallel call |
| ProtocolTrajectory.TrajectoryStep | runtime/runtime.go:204-239 | every step keeps each savable trajectory closed plus at most one partial segment |
| ProtocolAborts.PromptsClosedWithoutAborts | agent/agent.go:252-279 | a run in which no step collects a call aborted at its start check sends only closed prompts, through any crashes, failed writes and resumes |
| ProtocolAborts.SequentialPromptsClosed | agent/agent.go:280-295 | when every attempt executes calls sequentially, every prompt is closed |
| ProtocolAborts.AbortedCallBreaksPrompt | agent/agent.go:264-279 | a reachable run from a closed input: one parallel call is cancelled after its start event, and the resumed attempt sends a prompt that is not closed |
| ProtocolLog.StoredSeqs | runtime/runtime.go:175-198 | over any sequence of attempts stored numbers are positive and strictly increasing in log order, and an attempt whose appends all succeeded has stored every event it emitted without gaps |
| ProtocolLog.SeqStep | runtime/runtime.go:114-129 | every step keeps the in-memory counter at or above the log, although it is dropped at the end of an attempt and rebuilt from the log maximum |
| ProtocolEvents.StoredEventsTell | runtime/runtime.go:196-312 | in every reachable state a terminal event of the live attempt is the last of the log and run_done exactly when the runner ended without error and no append or save had failed; while appends succeed its log begins with run_resumed exactly if resumed, then run_start, holds one step_done for each step behind it, and a final answer only at its end and exactly after a runner without error |
| ProtocolEvents.ScriptStep | runtime/runtime.go:175-198 | every step of any kind keeps what the stored events say about the attempt |
| ProtocolOutcome.NilOnlyWhenEverythingIsStored | runtime/runtime.go:277-322 | an attempt about to return nil has had every append, save and record write succeed, its record says succeeded with nothing pending, and the last stored event is run_done |
| ProtocolOutcome.NilIsFinal | runtime/runtime.go:350-365 | after an attempt has returned nil, no later run, resume, recover or crash changes record, log or checkpoint |
| ProtocolOutcome.RecordLife | runtime/runtime.go:130-158 | a pending approval is on record only while waiting or with status failed; a step that leaves a failed record with one is Recover or found both there; and every step moves the status along the transitions of the code |
| ProtocolOutcome.FinishedRunChangesIff | runtime/status.go:41-48 | in every reachable state, the record of a finished run changes exactly by the reset of a resumed attempt (to pending) or by the downgrade after a terminal event that was not stored (to failed), and by no other step |
| ProtocolFinality.SucceededTurnsFailed | runtime/runtime.go:311-320 | a reachable run whose record goes from succeeded to failed |
| ProtocolFinality.CanceledTurnsFailed | runtime/runtime.go:311-320 | a reachable run whose record goes from canceled to failed |
| ProtocolFinality.CanceledTurnsPending | runtime/runtime.go:130-136 | a reachable run whose record goes from canceled to pending |
| ProtocolFinality.FailedTurnsPending | runtime/runtime.go:130-136 | a reachable run whose record goes from failed to pending |
| ProtocolOutcome.FailClosedStep | runtime/runtime.go:160-170 | no step forgets a failed write of the attempt |
| Trajectory.TrimDangling | runtime/resume.go:179-203 | the loop computes the rollback that the lemmas below are about |
| Trajectory.TrimLongestClosed | runtime/resume.go:174-203 | on a closed trajectory plus at most one segment the rollback is the longest closed prefix, and rolling back again changes nothing |
| Trajectory.ClosedIffInPlace | agent/agent.go:248-273 | closed trajectories are exactly those without zero message in which every call is answered in order right behind its message and every tool message stands behind such a call |
| Trajectory.StepCheckpointResumesClosed | runtime/resume.go:179-203 | a checkpoint saved inside a step resumes to a closed trajectory exactly when no aborted call was written into it |
| Reconcile.CoveredCalls | runtime/resume.go:106-111 | the ids of the tool messages of a trajectory, each once |
| Reconcile.ScanCalls | runtime/resume.go:117-131 | the first pass knows of every call its last proposed arguments, whether it started and whether it has a receipt |
| Reconcile.ResumeIndex.Build | runtime/resume.go:95-172 | for every key the index holds, in log order and each once, the records of exactly those results whose call started, was last proposed with this key, and has no tool message in the trajectory; and counts exactly the starts without result and tool message |
| Reconcile.IndexExplained | runtime/resume.go:106-169 | an index that reflects a log is, for every key, what the events of the log and the messages of the trajectory say |
| Reconcile.ResumeIndex.Consult | runtime/resume.go:233-262 | one critical section: a recorded receipt, or the notice, or the body, and what becomes of the index |
| Reconcile.QueueIsLogOrder | runtime/resume.go:139-164 | the queue of a key is exactly its started, uncovered receipts, in log order, each once |
| Reconcile.ExecutionsOfKey | runtime/resume.go:133-263 | for every interleaving of requests, real executions of a key number the requests beyond its receipts, or none once an uncertain call of a tool that is not RetrySafe is in flight |
| Reconcile.ReceiptsInOrder | runtime/resume.go:233-247 | the m-th request of a key receives its m-th receipt while there are any, and never one afterwards |
| Reconcile.EmptyIsTransparent | runtime/resume.go:55-75 | an index that counts as empty would let every request run the tool |
| Reconcile.EmptyIff | runtime/resume.go:55-75 | an index counts as empty exactly when no key has a receipt, a start in flight or a block |
| ToolRun.ReplayRoundTrip | agent/agent.go:418-456 | executed, logged, rebuilt and delivered again: citations are the same always, content exactly when it settles under the limit and the failure, if any, has a reason, and the type of the event exactly when the body returned |
| ToolRun.ShownResult | agent/agent.go:424-441 | message and event of a call that returned: content that fits unchanged, longer content as its longest well-formed prefix with the notice, the note for no content exactly when there is none or it is that note; a business error is logged as an error |
| ToolRun.ShownFailure | agent/agent.go:444-456 | message and event of a call that failed or was refused carry its reason |
| ToolRun.ReplayCutsAgain | agent/agent.go:477-486 | a result cut inside a character is cut again when it is delivered from the log under the same limit: its content changes |
| Utf8.TruncateUTF8 | agent/agent.go:477-486 | the shrinking loop ends at the longest well-formed prefix |
| Utf8.TruncationIsTight | agent/agent.go:475-486 | of the prefixes within the limit the longest well-formed one is kept, and well-formed text loses at most three bytes more than the limit asks for |
| Utf8.TruncationSettles | agent/agent.go:477-486 | truncating changes nothing exactly for texts that fit or were cut exactly at the limit |
| Utf8.ValidIffEncoded | agent/agent.go:477-486 | well-formed texts are exactly the encodings of sequences of Unicode scalar values (section 3 of RFC 3629) |
| ToolStep.MergeCitations | agent/agent.go:488-506 | the merge of two lists is the duplicate-free list the lemmas below are about |
| ToolStep.DedupKeepsFirsts | agent/agent.go:488-506 | exactly the citations no earlier one shares its key with, in order; none without a key |
| ToolStep.DedupKeepsSources | agent/agent.go:488-506 | a citation is kept exactly when it names a source no earlier one names, in order |
| ToolStep.KeysMean | agent/agent.go:492-498 | citations share their key exactly when they name the same document, or without document the same address, or when the address of one reads like the key of the other's document |
| ToolStep.DedupAbsorbs | agent/agent.go:269 | merging step by step equals merging everything at once |
| ToolStep.RunSequential | agent/agent.go:280-295 | stops at the first aborted call and returns its error; the calls up to there have emitted exactly their events |
| ToolStep.RunGoroutines | agent/agent.go:251-263 | for every schedule, slot i ends with the outcome of call i and each call's events appear in its own order |
| ToolStep.RunParallel | agent/agent.go:252-279 | for every schedule, every outcome is written back in call order and the last abort is returned |
| ToolStep.ParallelRefinesSequential | agent/agent.go:248-298 | both branches give the same trajectory, citations, checkpoints and result exactly when no call aborts |
| ToolStep.WrittenMessages | agent/agent.go:264-273 | tool messages follow the trajectory one to one with the calls and in their order |
| ToolStep.SavedCheckpoints | agent/agent.go:270-272 | each call asks for a checkpoint of the trajectory up to its own message |
| ToolStep.StepCitations | agent/agent.go:269 | the citations after a step are those of all its calls merged with the earlier ones |
| ToolStep.StepStaysClosed | agent/agent.go:264-273 | a step whose calls all answer leaves a closed trajectory |
| ToolStep.StepSavesClosed | agent/agent.go:270-272 | every checkpoint asked for inside such a step resumes to a closed trajectory |
| Runtime.Session.Wrapped | runtime/runtime.go:175-195 | the next number is used up even when the append fails, and the first failure cancels the attempt |
| Runtime.Session.SaveCheckpoint | runtime/runtime.go:214-222 | the checkpoint becomes the trajectory unless the write is refused; a failure cancels the attempt |
| Runtime.Session.UpdateRecord | runtime/runtime.go:631-643 | the record changes unless the write is refused, and the caller learns of any failure |
| Runtime.Session.First | runtime/runtime.go:88-96 | a first attempt claims the run and begins a legal protocol run |
| Runtime.Session.Resumed | runtime/runtime.go:114-129 | a resumed attempt claims the run, counts on from the log maximum and begins where the protocol resumes |
| Runtime.Session.Prelude | runtime/runtime.go:130-213 | registration is a legal run of the protocol that ends before the runner starts or, after any failed write, in an error |
| Runtime.Session.Register | runtime/runtime.go:130-154 | the record becomes pending with nothing pending approval, new for a first attempt and with its last step for a resumed one |
| Runtime.Session.OnStep | runtime/runtime.go:223-232 | the checkpoint becomes the trajectory and the record the number of the step, each unless its write is refused, in the protocol's order |
| Runtime.Session.OnToolDone | runtime/runtime.go:233-239 | the answer of the call joins the trajectory, and unless the write is refused the checkpoint becomes that trajectory |
| Runtime.Session.Cancel | runtime/runtime.go:395-404 | a cancellation is a legal step at every point of an attempt and moves nothing else |
| Runtime.Session.Crash | runtime/runtime.go:592-594 | a process may die at every point of an attempt: the stores hold what the protocol says, and a new process over them has no claim on the run |
| Runtime.Session.Conclude | runtime/runtime.go:277-303 | the final status is failed after a failed write, else succeeded without an error, else canceled when the attempt was cancelled, else failed; nothing stays pending |
| Runtime.Session.Consult | runtime/resume.go:233-262 | the wrapped tool takes exactly the protocol's branch: a receipt recorded for the key when the attempt began, the notice only for a key that must not run again, the body only for a key that may |
| Runtime.ConsistentStays | runtime/resume.go:233-262 | whatever requests came before, an index gives only receipts it began with and never lets a key run that must not run again |
| AgentLoop.ExecCall | agent/agent.go:367-456 | one call moves through legal protocol steps, no other call moves, and it ends exactly as its checks, policy, approval, index and body demand: refused, denied, declined, aborted, or with the receipt of its result, of a recorded result, or of the recovery notice; the loop over its actions ends |
| AgentLoop.ActBody | agent/agent.go:413-441 | a call logged as started is aborted exactly when the attempt was cancelled by then; otherwise the index or the body answers it |
| AgentLoop.ActConfirm | agent/approval.go:64-76 | the wait is recorded before it is announced, and a failed record write breaks the approval; a handler that announces nothing decides at once, and an interruption breaks it |
| AgentLoop.ActApproval | runtime/runtime.go:249-270 | a cancelled announcement or an interruption breaks the approval, otherwise the handler's wish decides; the record is set back before the decision counts, and only a broken approval aborts the call |
| AgentLoop.RunCalls | agent/agent.go:280-298 | the sequential branch appends for each call, in order, the answer its oracle leads to, or ends with the first abort |
| AgentLoop.Act | agent/agent.go:367-442 | one action of a call, after any cancellation, is a legal protocol step of that call, moves no other call, brings it closer to its end and keeps it where its oracle leads |
| AgentLoop.Interleave | agent/agent.go:252-263 | for every interleaving of the goroutines and of a cancellation each call ends as its oracle demands, and the wait for them terminates |
| AgentLoop.LeftDrops | agent/agent.go:367-442 | every action brings its goroutine closer to its end |
| AgentLoop.CollectAll | agent/agent.go:264-279 | every outcome is appended and saved in call order, and the step aborts exactly when some call did |
| AgentLoop.RunParallel | agent/agent.go:252-279 | the parallel branch is a legal run that appends one message for each call, its answer or the message it aborted with; without an abort they are the answers the sequential branch is held to |
| AgentLoop.Take | agent/agent.go:214-300 | a failing model keeps what was streamed, an answer ends the run, and requested calls are appended with their answers before the next prompt |
| AgentLoop.Ask | agent/agent.go:174-188 | the prompt is the whole trajectory; a cancelled attempt asks no more, except for the summary |
| AgentLoop.Summarize | agent/agent.go:302-353 | the summary after the last step ends the run like any other answer |
| AgentLoop.RunLoop | agent/agent.go:172-354 | the loop terminates and performs a legal run; the trajectory only grows, and without an error it ends with an answer that asks for no calls |
| AgentLoop.CanceledBetweenSteps | agent/agent.go:175-178 | a cancellation at the top of the loop ends the run there, and with a record that can be written it ends as canceled with nothing pending |
| Runtime.Session.Finish | runtime/runtime.go:277-322 | record before terminal event, downgrade when the event cannot be stored; the stored event is run_done exactly when the runner ended without error and no write had failed, else run_error; nil is returned exactly where the protocol returns it |
| Runtime.Session.Release | runtime/runtime.go:97-112 | claim and counter are given up, and the stores hold what the protocol says |
| Attempts.Attempt | runtime/runtime.go:81-322 | one whole attempt, sequential or parallel, for all oracles, interleavings, cancellations and write results, is a legal run of the protocol that touches no other run; nil means succeeded, nothing pending, run_done last |
| Attempts.RunReady | runtime/runtime.go:137-154 | a known run is refused as finished or active; otherwise the attempt begins |
| Attempts.StartRefusedIff | runtime/runtime.go:137-147 | a first attempt is refused exactly when the protocol cannot start the run, as finished exactly for final statuses |
| Attempts.Reconciled | runtime/runtime.go:374-386 | tools are wrapped exactly when there are any and the index would change something |
| Attempts.ResumeReady | runtime/runtime.go:345-388 | refused exactly for unknown, active or succeeded runs and runs without checkpoint; otherwise the trajectory starts at its longest safe prefix, and an index that wraps the tools is what log and trajectory say |
| Attempts.ResumeRefusedIff | runtime/runtime.go:350-372 | a resumption is refused exactly when the protocol cannot resume the run: unknown, succeeded, active, or failed or canceled without checkpoint |
| Attempts.Resume | runtime/runtime.go:338-388 | resuming from a reachable state leads to a reachable state, keeps the other runs and releases the claim |
| Attempts.Start | runtime/runtime.go:70-79 | running from a reachable state leads to a reachable state, keeps the other runs and releases the claim; a known run is refused |
| Attempts.RecoverRun | runtime/runtime.go:595-614 | what Recover does to one run is the protocol's step or nothing, and after a complete pass the run is finished |
| Attempts.DieAndResume | runtime/runtime.go:592-614 | a process that dies at any point of an attempt, a Recover and a Resume in a new process lead from reachable states to reachable states, and nil still means a complete run |
| Attempts.CrashAnywhere | runtime/runtime.go:592-594 | an attempt can be cut off after each of its steps, and what is stored then is what was stored at that step |
| Runtime.Runtime.Recover | runtime/runtime.go:595-614 | every unfinished run becomes failed and keeps its pending approval, finished ones stay, and it reports failure exactly when an update fails |
| Runtime.StoppedAt | runtime/runtime.go:599-612 | after any number of updates each record is unchanged or marked, and after all of them none is unfinished |
| MemoryStore.RunStore.List | runtime/memory/memory.go:56-70 | every run with a wanted status once, and no other |
| MemoryStore.RunStore.Create | runtime/memory/memory.go:32-37 | the record of one run is overwritten, the others stay |
| MemoryStore.RunStore.Update | runtime/memory/memory.go:39-44 | the record of one run is overwritten, the others stay |
| MemoryStore.EventStore.Append | runtime/memory/memory.go:83-88 | the log of one run grows at its end, the others stay |
| MemoryStore.CheckpointStore.Save | runtime/memory/memory.go:107-112 | the checkpoint of one run is overwritten, the others stay |
| Stream.Stream | runtime/runtime.go:450-521 | emitted numbers rise strictly whatever the stores and the channel do; for every pattern of dropped events a stream that ends without error gives exactly the stored non-terminal events after the start, in order and once each, then a terminal event, if and only if the status read fits the log read; in a reliable situation the terminal event is the stored one; whatever the stores and the channel do, it ends with a terminal event that was brought, or, when none was and the deciding status is terminal, with one made up: run_done exactly for succeeded, else run_error, with the error of the record, numbered one past the last position |
| Stream.RestMeans | runtime/runtime.go:468-484 | the rest of a log is exactly its events after the start that are neither run_done nor run_error, in order |
| Stream.StreamLive | runtime/runtime.go:493-520 | the live part keeps the stream caught up with the log, whichever events arrive |
| Stream.StreamDelivery | runtime/runtime.go:503-515 | a delivered event is preceded by what fills the gap before it |
| Stream.StreamSnapshot | runtime/runtime.go:461-484 | old terminal events are passed over and the current one ends the stream |
| Stream.StreamBackfillRange | runtime/runtime.go:526-542 | exactly the stored non-terminal events strictly inside the gap |
| Stream.StreamFinalBackfill | runtime/runtime.go:547-582 | the rest of the log with its last terminal event, or one made up from the record |
| Stream.FinalStands | runtime/runtime.go:571-581 | after the last read a terminal event is made up exactly when none was given and the record is final: its type by the status, its error from the record, its number one past the last position |
| Stream.SnapshotRest | runtime/runtime.go:468-484 | on a stored log the snapshot yields its non-terminal events, in order |
| Stream.GapRest | runtime/runtime.go:526-542 | what was given plus the backfill is all of the log in front of the delivered event |
| Stream.FinalRest | runtime/runtime.go:553-570 | what was given plus the last read is the whole log |
| Stream.ClosedIsWholeIff | runtime/runtime.go:453-492 | a stream whose status read is terminal gives all stored non-terminal events after the start and a terminal event exactly when the snapshot lacks none of them |
| Stream.StreamOpen | runtime/runtime.go:493-582 | a stream whose status read is not terminal is whole unless the snapshot held the whole log and the last status read is not terminal either |
| Stream.EarlyEndLosesEvents | runtime/runtime.go:485-492 | a run that starts, answers and succeeds between the two reads: the stream gives one made-up run_done with number 1 and no event of the log |
| Subscriptions.Channel.TrySend | runtime/runtime.go:619-624 | a full channel drops the event, an open one keeps the order; only open channels are sent to |
| Subscriptions.Channel.Receive | runtime/runtime.go:497-502 | what is received is a subsequence of what was broadcast, and the end shows only after everything buffered |
| Subscriptions.Registry.Subscribe | runtime/runtime.go:419-426 | a fresh open channel is registered for one run |
| Subscriptions.Registry.TakeOut | runtime/runtime.go:427-440 | only who takes the channel out may close it |
| Subscriptions.Registry.TakeOutAll | runtime/runtime.go:102-107 | the end of a run takes out every channel still registered |
| Subscriptions.Registry.CloseTaken | runtime/runtime.go:108-110 | the close is the first one of its channel and no send can follow |
| Subscriptions.Registry.Broadcast | runtime/runtime.go:616-625 | every registered channel of the run, and no other, is offered the event |
| Broker.Broker.Bind | agent/approval.go:123-129 | a run is known afterwards, and its waiters stay |
| Broker.Broker.Register | agent/approval.go:160-174 | unknown runs and duplicate calls are refused; otherwise a fresh channel waits |
| Broker.Broker.Unregister | agent/approval.go:176-184 | a waiter removes its own channel and never a later waiter's |
| Broker.Broker.TakeForDecision | agent/approval.go:202-216 | the channel registered now, and no earlier one, gets the decision |
| Broker.Broker.SendDecision | agent/approval.go:217 | the send meets an open, empty channel |
| Broker.Broker.TakeAll | agent/approval.go:133-142 | no waiter of an ended run stays unanswered: each has its verdict, or someone owes it one, or it has left |
| Broker.Broker.CloseDropped | agent/approval.go:143-145 | a channel closed at the end of a run was neither closed nor sent to before |
| McpManager.Manager.Apply | mcp/manager.go:69-107 | afterwards exactly the listed servers are there, each with its last listed settings, and every client is still held or handed to closing |
| McpManager.Manager.Reconfigure | mcp/manager.go:83-96 | a server keeps its client exactly when its settings stay and it is enabled; otherwise the client is handed to closing |
| McpManager.Manager.Drop | mcp/manager.go:98-104 | a dropped server hands over its client |
| McpManager.Manager.BeginRefresh | mcp/manager.go:188-213 | an open manager hands out the client of every enabled server that holds one or can be connected, and no other; a client is made only for an enabled server without one, and never after Close |
| McpManager.Manager.EndRefresh | mcp/manager.go:217-224 | an answer is stored only while the client that gave it is still the held one |
| McpManager.Manager.BeginCall | mcp/manager.go:294-330 | a listed tool of an enabled server is called through the client its listing came from |
| McpManager.Manager.Close | mcp/manager.go:389-407 | every held client is handed to closing and none is held again |
| McpManager.Manager.CloseRetired | mcp/manager.go:409-413 | each retired client is closed once |
| ClientTable.Client.Launch | client.go:250-285 | refused while the run has an unfinished attempt or the client is closed; no run ever has two unfinished attempts |
| ClientTable.Client.Oldest | client.go:341-356 | one scan finds the number of finished runs and the one that completed first |
| ClientTable.Client.Prune | client.go:341-360 | the loop ends with at most the allowed number of finished runs, having evicted only finished ones that completed before all finished ones kept |
| ClientTable.Client.Complete | client.go:290-298 | the attempt is the latest completion, and what is evicted is older than what is kept |
| ClientTable.Client.Forget | client.go:325-339 | only a finished run is forgotten |
| ClientTable.Client.Close | client.go:476-494 | every attempt still running is handed to the caller for cancelling |
| Splitter.LastIndexRune | rag/splitter.go:126-133 | the last occurrence, or none |
| Splitter.CutEnd | rag/splitter.go:108-117 | a piece ends just behind the last newline in its second half, else at the size |
| Splitter.SplitLongBody | rag/splitter.go:98-124 | the parts are the trimmed pieces of a complete cut of the body; the loop terminates |
| Strings.TrimmedIsSlice | rag/splitter.go:118 | trimming takes a contiguous piece and leaves out white space only |
| Splitter.PartsKeepVisible | rag/splitter.go:96-124 | no visible character of a body is lost, moved or added |
| Splitter.PartsFit | rag/splitter.go:98-124 | every part has at most `size` runes |
| Splitter.FewPieces | rag/splitter.go:107-122 | every piece but the last has more than half the size |
| Splitter.MostParts | rag/splitter.go:98-124 | n runes yield at most (n - 1) / (size / 2 + 1) + 1 parts |
| Splitter.LinesRoundTrip | rag/splitter.go:40 | joining the lines of a text gives the text |
| Splitter.FindSections | rag/splitter.go:46-51 | the headings in line order with their trimmed titles |
| Splitter.ChunksFromBody | rag/splitter.go:84-94 | one numbered chunk for each part, with title and end line |
| Splitter.Split | rag/splitter.go:31-81 | chunks block after block; their visible characters in order are those of the text, each is a contiguous piece of the text no longer than the size, stands under the heading of its lines, and is numbered from zero within them |
| Splitter.SplitLabels | rag/splitter.go:48-94 | each chunk is a piece of the text and of the lines of one section, with that section's trimmed title and last line, or of the lines in front of the first heading |
| Splitter.HeadingsMean | rag/splitter.go:46-51 | the sections are exactly the lines that match, each with its trimmed title |
| Splitter.LinesAreLines | rag/splitter.go:40 | no line holds a newline |
| Splitter.BlocksTile | rag/splitter.go:61-79 | preface and sections tile the lines of the text |
| Splitter.SplitConserves | rag/splitter.go:31-124 | conservation and the size bound for every text, size and heading pattern |
| Accumulator.CallAccumulator.Add | agent/accumulator.go:32-49 | every builder holds the name and arguments of its index put together and its last non-empty id |
| Accumulator.CallAccumulator.Build | agent/accumulator.go:56-90 | exactly one call for every index with a name, in increasing index order: name and arguments are those of its fragments one after the other, arguments trimmed, replaced when empty and quoted when not valid, and the id is the last one sent or one made up from step and index |
| Accumulator.SaidMeans | agent/accumulator.go:39-47 | what a builder holds is the names, and the arguments, of its fragments joined in order, and the last id that is not empty |
| Strings.DecimalReadsBack | agent/accumulator.go:76-79 | a number printed into an id reads back as itself, so different numbers print differently |
| Accumulator.Refragmentation | agent/accumulator.go:32-90 | streams that say the same about every call build the same list |
| Accumulator.Interleaving | agent/accumulator.go:32-49 | interleaving the fragments of different calls in another way changes nothing |
| Accumulator.FragmentCut | agent/accumulator.go:32-49 | cutting any fragment of a stream in two changes nothing that is built |

## Left out

- One run id at a time in the step system; `Runtime` and `MemoryStore` state that other run ids stay untouched.
- Call ids are assumed fresh over the whole log of a run (`Protocol.FreshCalls`). The code does not ensure it:
  ids made up by the accumulator restart with every attempt because step numbers do.
- AgentLoop.Interleave: a goroutine is a program point of execCall and a loop lets any of them act next; an
  action is one write, check, lock or body. Data races inside an action are not part of this model.
- AgentLoop.ExecCall: the sequential branch is the same program points in a loop, not the code's nested returns.
- AgentLoop.Act: a cancellation comes before an action, never inside one. An action looks at the cancellation
  at most once: one that comes between a look and the write that follows from it is placed after the write, one
  that comes between a write and the look after it is placed before the write, which it cannot change.
- AgentLoop.Take: that the model reuses no call id is required of its reply.
- Runtime.Session.Wrapped: the broadcast to subscribers (`Subscriptions.Registry.Broadcast`) and the forwarding
  to the caller are not in its contract.
- Runtime.Session.UpdateRecord: the read and the write of the record are one step, and a read that fails counts
  as a refused write.
- Runtime.Session.Prelude: the approval broker is told of the run in `Broker.Broker.Bind`, not here; a read that
  fails counts as a refused write.
- Runtime.Session.Release: closing the subscriptions and ending the run at the approval broker are
  `Subscriptions.Registry.TakeOutAll` and `Broker.Broker.TakeAll`, not part of its contract.
- Runtime.Session.Crash: the code of an attempt is not stopped inside its methods; each of them ends right after
  its write, the crash may follow any of them, and `Attempts.CrashAnywhere` cuts a whole attempt at any step.
- ProtocolOutcome.RecordLife: claims the transitions only for attempts no Recover runs beside. A Recover beside a
  live attempt is in the step system, not in `Runtime`.
- ProtocolOutcome.FinishedRunChangesIff: claimed where no Recover runs beside a live attempt.
- Resume up to registration belongs to one caller, as `Client.launch` ensures.
- All three stores are configured. A runtime without an event store or without a record store numbers and
  gates differently; it is not part of this model.
- The reads of log and checkpoint that Run and Resume begin with succeed; failing reads are in `Stream` only.
- The Transform and OnStep hooks of the caller, usage counters, finish reasons, timestamps, tool sources and
  the citations on a final answer.
- Error texts, except where they become the content of a message or of an event about a call; the approved flag
  of a decision's event.
- Limits are given after their defaults were applied (steps, result bytes).
- Approval handlers that ignore the error of the announcement they were asked to make.
- ToolRun.ReplayRoundTrip: a limit of zero, which the code replaces by its default.
- Subscriptions.Channel.Receive: wake-up order of waiting receivers; a receive is one step.
- Splitter.Split: decoding of bytes to runes (text that is not UTF-8), and what the heading pattern matches, which
  is a parameter. Parts may be empty after trimming, as in the code.
- Accumulator.CallAccumulator.Build: JSON validity and quoting are parameters.
- Machine integers: sequence numbers and counters are unbounded here.
- Context deadlines, tickers and random ids: cancellation is a step, ids are arguments.
- HTTP, SSE and stdio transports, subprocesses, providers, embeddings, retrieval scores, the SQL stores, JSON
  encoding, configuration files, tool registries and policy lookup: plumbing, or true but easy.
