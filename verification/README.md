# CorvusAI, verified

A Dafny model of the durable core of the CorvusAI agent runtime and of the algorithms around it, with proofs of
what they keep, restore and exclude. `dafny verify dfyconfig.toml` checks all of it.

| files | what they model |
|---|---|
| `Journal`, `HarnessStore`, `HarnessJournal` | the tables, every transaction on them as a function, and the event journal with its fold |
| `HarnessPolicy` | the permission rules: who decides a call, and what a remembered decision changes |
| `HarnessProtocol`, `HarnessInvariant`, `HarnessSafety`, `HarnessTheorems` | the drivers of `enqueueAndRun` and `runApproved` interleaved at transaction granularity with decisions, recovery, crashes and bookkeeping; the invariant over every run; what follows from it |
| `HarnessReplay` | the window between a call's status and its evidence: what a replay returns in it, what a crash in it leaves, and exactly when a replay is the outcome first returned |
| `HarnessRecovery` | the answers a recovery stores for approved calls, against what the calls do afterwards |
| `HarnessServices` | the store, approval and queue classes, each method proved to perform its transaction, each synchronous section to be a driver's own transactions |
| `EventLog`, `EventLogIntegrity` | the increasing clock and the hash-chained log |
| `Transcript`, `TranscriptTheorems` | message rows, and the conversation rebuilt from them |
| `RunScript`, `RunCourse`, `Runner` | the run loop as a function of what model and tools answer, what that function does told from the script, and the object that performs it, suspends, recovers and resumes |
| `Chat`, `Sanitizer`, `SanitizerTheorems`, `SanitizerFixpoint` | the two-pass transcript repair against a block-wise specification |
| `Window` | the sliding token window |
| `Summaries`, `Agent`, `AgentCoverage` | the text of a summary, the agent's conversation with background summaries, and what it still knows of what was said |
| `ScopeLeases`, `Automation` | write leases with the collaboration gate in front, and automation claims across processes |
| `DurableJson`, `DurableJsonTheorems`, `Bundle`, `Secrets` | the JSON normaliser over a cyclic heap, dependency resolution, redact and merge |
| `Filters` | what it means for a list to be filtered, apart from any way of doing it |
| `Streaming` | line framing and tool-call assembly of a streamed completion |

How it is modelled: a table row is a datatype value, a transaction a function from tables to tables, and the source's
classes are Dafny classes whose methods are proved against those functions. What runs concurrently is a state machine:
an action is one synchronous section or one transaction, a run is any sequence of actions, and a theorem about runs
quantifies over all of them. What models answer, what tools return, when clocks are read and what `JSON.parse` yields
are parameters.

## What the proofs turned up

Properties that the code meets only under a condition are stated with it, in both directions where that is possible.

- A call's status and its evidence are two transactions. Between them a replay misses the evidence id, and of a denial
  it throws; a process that dies there leaves the call so for ever. Exactly then does a replay differ from the outcome
  first returned, and exactly while a driver still owes evidence can it still change (`HarnessReplay.ReplayExactly`,
  `ReplayIsFinalExactly`; `TornDenialThrows` and `EarlyReplayHappens` run into it from the start).
- A resumed conversation answers every call of the run unless the loop broke off between a stored assistant message
  and the last of its calls, which the loop protection and the round limit do; under an aborted signal such a run stays
  resumable with calls unanswered (`Runner.HarnessRunner.Live`, `TranscriptTheorems.ReconstructionIsWhole`,
  `Runner.StoppedInsideARound`).
- The limit on tool rounds holds over the whole life of a run up to the rounds a resume's trimming hides from the count
  (`Runner.HarnessRunner.Live`).
- A recovery may answer a call that is still running: it stores "approved but never executed", and the call succeeds.
  A stored answer holds for ever exactly if the call succeeded, failed or was denied and no driver owes it evidence; it
  can be contradicted exactly if evidence is owed, or the call has not ended and a driver owns it or it waits
  (`HarnessRecovery.AnswerHoldsExactly`, `AnswerIsContradictedExactly`, `RecoveredTooEarly`).
- Repairing a transcript twice equals repairing it once exactly when, in every block, messages for undeclared ids
  come after all answers and no call lacks one (`SanitizerFixpoint.IdempotentExactly`, `StrayBeforeAnswer`).
- An append keeps a verified log verified exactly if no hashed row is listed after the new one. The clock restarts with
  each process, so a wall clock set back across a restart breaks a log nobody touched, while one that starts beyond
  the newest row never does (`EventLogIntegrity.OutOfOrderBreaks`, `ClockSetBack`, `OneProcess`).
- A denial is accepted only once its call is marked as waiting; an approval has no such condition
  (`HarnessTheorems.DecisionAccepted`).
- A second recovery of a run persists nothing exactly when no replaced placeholder lacks a call id; with nothing
  pending that is so for all later tables (`TranscriptTheorems.SecondRecoveryIsIdle`, `LaterRecoveriesAreIdle`).
- An expired scope lease that no claim has swept is revived by its heartbeat (`ScopeLeases.HeartbeatRevives`,
  `HeartbeatDecides`).
- In a scope policy, `**` does not cross folders: the second replacement rewrites the star the first one wrote
  (`ScopeLeases.MatchesExactly`, `DoubleStarStopsAtSlash`).
- An automation run that was superseded and still finishes reads as succeeded with the error of its supersession
  (`Automation.SupersededRunMayReadSucceeded`, `SupersededRunSucceeds`).
- A late summary is installed exactly if the conversation has not been cleared since its request; loading a session is
  no clearing, so a summary of the old conversation can become that of the new one. With two requests in flight the one
  answered last wins (`Agent.AnswerLandsExactly`, `SummaryCrossesSessions`, `LastAnswerWins`).
- A new summary is made of the turns in memory only and replaces the one before it, so a second summary loses what the
  first one told; a turn is lost for good exactly if memory lacks it and neither the summary shown nor any open request
  was given it (`AgentCoverage.KnownExactly`, `NextSummaryForgets`, `SecondSummaryForgets`).
- Removing a field from the redacted settings and merging brings it back (`Secrets.RemovalIsUndone`).
- The default bundle preset is not closed under its dependencies (`Bundle.DefaultPresetGainsChannels`).

## Model

| member | source | states |
|---|---|---|
| HarnessSafety.RunKeeps | src/harness/tool-queue.ts:87-190 | the invariant tying calls, approvals, evidence and drivers holds over every sequence of actions |
| HarnessSafety.AtMostOnceAuthorised | src/harness/tool-queue.ts:300-382 | over every interleaving no tool body starts twice, and each start was allowed at enqueue or has an approved approval |
| HarnessSafety.AllowedByPolicyOnly | src/harness/tool-queue.ts:95-112 | a call counts as allowed only because, when it was enqueued, the first of the four rules about its tool and capability said allow |
| HarnessTheorems.EveryStartIsAuthorised | src/harness/tool-queue.ts:87-139 | in every run, before a body starts there is an enqueue decision for its call at which the first rule about its tool said allow, or an approved approval of the call at that moment |
| HarnessPolicy.DecidesExactly | src/permissions.ts:30-51 | which decision is made, from the map entries alone: workspace tool, workspace capability, tool, capability, the first that has a rule, and "ask" if none has |
| HarnessPolicy.OneRuleDecides | src/permissions.ts:30-51 | some one rule decides or there is none, and never two |
| HarnessTheorems.UnruledWaits | src/harness/tool-queue.ts:87-113 | in any state, a call of a tool that no rule speaks about, or a rule asks about, ends up waiting for a new pending approval, and nothing starts |
| HarnessSafety.ApprovalCoupling | src/harness/approval-service.ts:93-215 | a waiting call has exactly one approval, pending or approved; a denied or expired approval has a denied call with denial evidence |
| HarnessTheorems.JournalAgreement | src/harness/run-store.ts:560-661 | in every reachable state the fold of the log gives exactly the stored status of every run, step, call and approval, and each recorded previous status is the fold just before its event |
| HarnessTheorems.StartsAreLogged | src/harness/tool-queue.ts:356-382 | the log reports every start of a tool body, in order, and no call twice |
| HarnessTheorems.DecisionAccepted | src/harness/approval-service.ts:93-152 | exactly which decisions are accepted in a reachable state |
| HarnessTheorems.DecisionIsFinal | src/harness/approval-service.ts:107-119 | repeating a decision changes nothing, any other decision is refused |
| HarnessTheorems.DecidedStaysDecided | src/harness/approval-service.ts:107-126 | no action of any driver or user alters a decided approval |
| HarnessPolicy.AlwaysAllows | src/permissions.ts:30-69 | an "always" decision makes the policy allow the tool, exactly unless a workspace rule says otherwise |
| HarnessPolicy.NeverDenies | src/harness/approval-service.ts:144-148 | a "never" decision makes the policy deny the tool, exactly unless a workspace rule says otherwise |
| HarnessPolicy.OtherRulesStay | src/harness/approval-service.ts:144-148 | whatever the scope, the rules for all other targets are as before |
| HarnessPolicy.OnceChangesNothing | src/harness/approval-service.ts:144-148 | after "once" every decision is as before |
| HarnessTheorems.NeverLasts | src/harness/approval-service.ts:93-152 | after an accepted "never", and until the policy is edited or another decision remembered, every call of the tool is denied as it is enqueued, unless a workspace rule speaks first |
| HarnessTheorems.FirstCompletion | src/harness/tool-queue.ts:495-526 | the evidence transaction settles the call, and a replay gives the outcome just returned |
| HarnessTheorems.ReplayReturnsFirstOutcome | src/harness/tool-queue.ts:537-582 | whatever happens after the first completion, `runApproved` starts no body and returns that outcome: status, result, error and evidence id |
| HarnessTheorems.RefusalSettles | src/harness/approval-service.ts:166-215 | a refusal settles its call for good: every later replay reports the denial and its evidence |
| HarnessReplay.ReplayExactly | src/harness/tool-queue.ts:317-354 | in every reachable state, a finished call has had its outcome returned or was refused by a decision exactly if no driver is in its window and none died there; every returned outcome is then what a replay returns, and otherwise the replay lacks the evidence or throws |
| HarnessReplay.ReplayIsFinalExactly | src/harness/tool-queue.ts:495-582 | what a finished call replays as now it replays as after every future, exactly if no driver owes it evidence |
| HarnessReplay.EarlyReplayExactly | src/harness/tool-queue.ts:317-354 | inside the window a replay equals what the completing driver is about to return exactly if the tool wants no evidence |
| HarnessReplay.TornForEver | src/harness/tool-queue.ts:537-582 | after a crash in the window every later replay lacks the evidence, and of a denial throws |
| HarnessReplay.TornDenialThrows | src/harness/tool-queue.ts:567-579 | a run from the start: denied by the policy, killed before the evidence, and every later `runApproved` throws |
| HarnessReplay.EarlyReplayHappens | src/harness/tool-queue.ts:317-354 | a run from the start: a second `runApproved` in the window returns the success without evidence, the first one with it |
| HarnessRecovery.AnswerHoldsExactly | src/harness/runner.ts:186-231 | the answer a recovery stores for a call equals every later replay of it, exactly if the call succeeded, failed or was denied and no driver owes it evidence |
| HarnessRecovery.AnswerIsContradictedExactly | src/harness/runner.ts:186-231 | some later end of the call contradicts the stored answer exactly if evidence is owed, or the call has not ended and a driver owns it or it waits for its approval to act |
| HarnessRecovery.EndsExactly | src/harness/tool-queue.ts:87-190 | a call that has not ended still can, in some continuation, exactly if a driver owns it or it waits |
| HarnessRecovery.RecoveredTooEarly | src/harness/runner.ts:193-215 | a run from the start: approved, claimed, recovered as never executed, then succeeded, and no later recovery corrects it |
| HarnessStore.NextStepIndex | src/harness/run-store.ts:755-761 | the next step index lies above all of the run's and next to the highest |
| HarnessServices.RunStore.CreateRun | src/harness/run-store.ts:221-249 | inserts the run and its event as one transaction |
| HarnessServices.RunStore.UpdateRunStatus | src/harness/run-store.ts:560-580 | status, completion and event together; a missing run changes nothing |
| HarnessServices.RunStore.CreateStep | src/harness/run-store.ts:615-661 | a step with the next index and its event |
| HarnessServices.RunStore.UpdateStepStatus | src/harness/run-store.ts:582-613 | status, start and completion marks and event; a missing step changes nothing |
| HarnessServices.EvidenceStore.CreateEvidence | src/harness/evidence-store.ts:31-73 | evidence row and event in one transaction |
| HarnessServices.ApprovalService.CreateApproval | src/harness/approval-service.ts:51-81 | a pending approval and its event |
| HarnessServices.ApprovalService.DenyToolCallForApproval | src/harness/approval-service.ts:166-215 | denies a waiting call with evidence, leaves a denied one, fails otherwise |
| HarnessServices.ApprovalService.RememberDecision | src/harness/approval-service.ts:144-148 | "always" writes allow for the tool, "never" deny, "once" nothing; every other rule stays |
| HarnessServices.ApprovalService.ResolveApproval | src/harness/approval-service.ts:93-152 | the whole decision, committed or rolled back as one: approval, call, evidence, events, and the rule for the tool written out |
| HarnessServices.ToolQueue.MarkRunning | src/harness/tool-queue.ts:356-382 | the compare-and-set claim: succeeds exactly from the expected status |
| HarnessServices.ToolQueue.ReplayTerminalToolCall | src/harness/tool-queue.ts:537-582 | what a finished call replays as, from its row and its newest evidence |
| HarnessServices.ToolQueue.ExecuteToolCall | src/harness/tool-queue.ts:300-354 | the winner starts the body, a loser replays or throws |
| HarnessServices.ToolQueue.EnqueueAndRun | src/harness/tool-queue.ts:87-113 | the row, the reply and whether the body starts, by the rules written out; it is the enqueue action followed by its driver's own transactions, and keeps the invariant |
| HarnessServices.ToolQueue.RunApproved | src/harness/tool-queue.ts:115-139 | the claim, the denial or the replay, by the call's status and approval; likewise its driver's own transactions |
| HarnessServices.ToolQueue.Finish | src/harness/tool-queue.ts:317-354 | the row, step, evidence and events the part after the await leaves, written out |
| HarnessServices.ToolQueue.RecoverInterrupted | src/harness/tool-queue.ts:141-190 | interrupts exactly the running calls and returns their rows |
| EventLog.Clock.Now | src/harness/types.ts:225-230 | strictly above the last reading, and the wall clock's whenever that is |
| EventLog.ListedExactly | src/harness/event-log.ts:47-47 | rows are listed by their instants, and those of one instant by their ids as texts |
| EventLog.EventLog.Append | src/harness/event-log.ts:18-35 | the new row, hashed over the newest hash, at its place in the listing order |
| EventLog.EventLog.VerifyChain | src/harness/event-log.ts:46-51 | ok if and only if every hashed row continues the chain; otherwise the first that does not, and how many before it do |
| EventLog.AppendExtends | src/harness/event-log.ts:18-35 | an append not earlier than the newest row extends the chain by one checked row |
| EventLog.AppendsVerify | src/harness/event-log.ts:18-51 | appends under increasing timestamps beyond the newest row keep a log that verifies so, unhashed old rows or not, touch none of its rows, and are all checked |
| EventLogIntegrity.CoveredInjective | src/harness/event-log.ts:18-35 | the hashed text determines the previous hash and every field, null and empty run id alike |
| EventLogIntegrity.EqualHeadsEqualHistories | src/harness/event-log.ts:46-51 | two verified logs that end in the same hash agree row by row on every hashed field |
| EventLogIntegrity.OutOfOrderBreaks | src/harness/event-log.ts:18-51 | appending to a time-ordered log that verifies gives one that verifies if and only if no hashed row is listed after the new one |
| EventLogIntegrity.InsertedStaysSorted | src/harness/event-log.ts:46-51 | whatever its timestamp, a row under a new id leaves the listing in order |
| EventLogIntegrity.ClockSetBack | src/harness/types.ts:225-230 | two rows, a restart and a wall clock set back between them: verification fails at once and names the second row |
| EventLogIntegrity.OneProcess | src/harness/event-log.ts:18-51 | clock, append and verification together, on any log that verifies: if the process's clock starts beyond the newest row, all it writes verifies, whatever the wall clock shows later |
| Transcript.ResumeMessages | src/harness/runner.ts:166-234 | the rebuild; when it succeeds, each replaced row's ended call has settled its step: succeeded, canceled, interrupted, otherwise failed, in row order, one event each and nothing else; it throws exactly when such a step is missing, with the rows before it settled |
| Transcript.FateExactly | src/harness/runner.ts:193-231 | whether a row stays, is dropped, is replaced or is pending, by the tables alone |
| Transcript.TellsExactly | src/harness/runner.ts:623-641 | what a rebuilt message tells, by the call's status |
| Transcript.TellsWhatReplayReturns | src/harness/runner.ts:623-641 | a rebuilt tool message tells exactly what a replay of the call returns |
| TranscriptTheorems.NoPlaceholder | src/harness/runner.ts:186-231 | no approval placeholder is left in a rebuilt conversation, whatever the rows |
| TranscriptTheorems.SpeakersSurvive | src/harness/runner.ts:186-192 | every message that is no tool message survives, in order and unchanged |
| TranscriptTheorems.StaysAnchored | src/harness/runner.ts:186-231 | every tool message stays behind the message whose call it answers |
| TranscriptTheorems.OneAnswer | src/harness/runner.ts:166-234 | with nothing pending a call with a row has exactly one answer, a call without has none |
| TranscriptTheorems.EachCallAnsweredOnce | src/harness/runner.ts:166-234 | that answer stands between the asking message and the next message that is no tool message |
| TranscriptTheorems.ReconstructionIsWhole | src/harness/runner.ts:166-234 | with unique ids and nothing pending, the rebuilt conversation answers every call once in its place if and only if the rows have a reply for every call |
| TranscriptTheorems.SecondRecoveryIsIdle | src/harness/runner.ts:123-137 | a second recovery persists nothing, exactly when every replaced placeholder has a call id |
| TranscriptTheorems.LaterRecoveriesAreIdle | src/harness/runner.ts:123-137 | with nothing pending, no later recovery persists anything whatever the tables have become, exactly under the same condition |
| TranscriptTheorems.RecoveryKeepsShape | src/harness/runner.ts:88-121 | the rows stay well formed, and with nothing pending no placeholder is open any more |
| Runner.HarnessRunner.RunTools | src/harness/runner.ts:331-364 | runs and records the calls in order up to the first the loop protection stops, and closes a step for each |
| RunScript.StopsOnRepetition | src/harness/runner.ts:333-353 | a counter over a list of calls stops the next call exactly when, with it, the last calls are identical: as many as configured, and two at least |
| RunScript.CourseIsProtected | src/harness/runner.ts:236-372 | over a whole loop, across its rounds: the calls made never hold that many identical ones in a row; the loop ends by repetition exactly if a call was left over after tools ran, and that call would have been one too many; without a configured number it never does |
| RunScript.CourseIsOk | src/harness/runner.ts:250-372 | a loop is whole rounds and a last one; it is cut short exactly when that round's message asks for more calls than it ran; the limit is kept and every step closed |
| RunCourse.PlayTells | src/harness/runner.ts:250-370 | a round from its script: the reply it hears, trimmed and repeated once only if refused as too long; the steps it closes, a tool step as its call ended; what is added to the messages; and why it ends or goes on |
| RunCourse.WrittenExactly | src/harness/runner.ts:307-364 | a round's rows: the assistant's message with its calls, then an answer to each call that was run |
| RunCourse.ClosedExactly | src/harness/runner.ts:407-434 | a round's steps: its own succeeded, and for each call interrupted if it waits, succeeded or failed as it did |
| RunCourse.CourseIsTold | src/harness/runner.ts:236-405 | over a whole loop: the rounds quote the script in order, the steps are theirs in order, and the last one ended the loop for its reason |
| RunCourse.TrimExactly | src/context.ts:91-109 | messages that fit stay; of others the first, the first summary and the last four of the rest |
| RunCourse.RoundsAreCounted | src/harness/runner.ts:568-570 | the count of tool rounds is that of the assistant messages with calls |
| Runner.LoopLeaves | src/harness/runner.ts:321-405 | done, suspended or broken off, and the run succeeded, waiting, interrupted or failed, by how the last round ended |
| Runner.HarnessRunner.ContinueRun | src/harness/runner.ts:236-405 | the exit, status, rows and steps of the loop's course; no step left running; tool rounds bounded by what the limit leaves; rows well formed and open exactly when suspended; every call has its row exactly unless the loop broke off inside a round |
| Runner.HarnessRunner.RecoverRunContext | src/harness/runner.ts:123-137 | stores the answers found, pending or not, and settles the steps of the ended calls |
| Runner.HarnessRunner.ResumeRun | src/harness/runner.ts:88-121 | refuses without touching the run, exactly by status, missing step or pending approval; otherwise settles the ended calls' steps and goes on with the rebuilt conversation and the tool rounds it sees; what trimming hides is what it forgets; every call keeps its row unless the loop breaks off |
| Runner.ProtectExactly | src/harness/runner.ts:139-155 | a resume trims what trimming shortens and notes it behind the first message; otherwise it changes nothing |
| Runner.HarnessRunner.Live | src/harness/runner.ts:66-137 | over one turn and any recoveries and resumes, aborted or not: tool rounds exceed the limit by no more than a resume's trimming hid; no step is left running; with unique ids every conversation rebuilt with nothing pending answers every call in its place if and only if no loop broke off inside a round |
| Runner.StoppedInsideARound | src/harness/runner.ts:331-400 | a run that breaks off: the second of two identical calls is stopped, the run is interrupted and resumable, and the rebuilt conversation leaves that call unanswered |
| RunScript.RoundKeepsShape | src/harness/runner.ts:307-370 | the rows one round writes keep the shape, are open exactly if one of its calls waits, and lack a reply if it stopped early |
| RunScript.RebuiltRounds | src/harness/runner.ts:568-570 | a rebuilt conversation shows every tool round of the rows |
| Sanitizer.SanitizeChatMessages | src/openai-client.ts:32-129 | the two loops compute the block-wise repair |
| Sanitizer.PassesRepair | src/openai-client.ts:42-126 | the second pass over the first is that repair; invented ids never survive |
| SanitizerTheorems.SanitizedIsValid | src/openai-client.ts:32-129 | for any list, each tool message answers a call of the nearest assistant message and each call with an id is answered before the next one |
| SanitizerTheorems.TraceIsSanitized | src/openai-client.ts:32-129 | the repaired list is its trace |
| SanitizerTheorems.TraceIsSound | src/openai-client.ts:32-129 | nothing is duplicated, reordered or invented; every system, user and assistant message and every named tool message arrives |
| SanitizerFixpoint.FixedPoints | src/openai-client.ts:42-126 | the repair leaves a list alone exactly when it is valid and normalised |
| SanitizerFixpoint.IdempotentExactly | src/openai-client.ts:42-126 | exactly when repairing twice is repairing once |
| SanitizerFixpoint.IdempotentWithoutStrays | src/openai-client.ts:42-126 | repairing twice is repairing once if no tool message names an undeclared id |
| SanitizerFixpoint.StrayBeforeAnswer | src/openai-client.ts:92-126 | a list on which repairing twice differs |
| Window.SlidingWindowMessages | src/runtime.ts:55-70 | the list itself if it fits; otherwise all system messages and then the end of the others, cut where the additive test says |
| Window.EstimateExactly | src/context.ts:72-79 | the estimate is a quarter of the length of the list's JSON text, rounded up |
| Window.EstimateIsSubadditive | src/context.ts:72-79 | the rounded estimate of the result never exceeds the cost the loop added up |
| Window.WindowFits | src/runtime.ts:55-70 | the window fits the budget unless it is down to the newest message |
| Window.WindowIsMaximal | src/runtime.ts:62-68 | no longer suffix passes the additive test |
| Window.CutIsUnique | src/runtime.ts:62-68 | the cut is determined |
| Window.SlideTwice | src/runtime.ts:55-70 | applying the window twice changes nothing |
| Agent.RunKeepsShape | src/agent.ts:91-113 | over every interleaving the system prompt is first and a summary stands only right behind it |
| Agent.SummaryOnlyAtOne | src/agent.ts:393-421 | hence at most one summary, at index 1 |
| Agent.TruncationPartitions | src/agent.ts:361-383 | truncation splits the conversation into prompt, summary, what is summarised and the last four turns |
| Agent.EvictionKeepsRecent | src/agent.ts:347-359 | beyond twice the threshold eviction keeps the prompt once, the summary and the last four turns |
| Agent.CheckExactly | src/agent.ts:307-387 | what a check does in every case: nothing, eviction, truncation, and the request with exactly the turns before the last four |
| Agent.ScheduleExactly | src/agent.ts:333-341 | beyond the threshold a request for all turns, unless one is awaited; nothing is truncated |
| Agent.HealExactly | src/agent.ts:272-305 | healing puts the durable sequence in place of a last assistant message with calls, and of nothing else |
| Agent.RecordedIsLatest | src/agent.ts:414-421 | the newest compaction is recorded last, and of more than ten the oldest is gone |
| Agent.RecentTurnsSurvive | src/agent.ts:179-184 | whatever happens in the background, the conversation is the end of all that was said and the last four messages are there |
| Agent.AnswerLandsExactly | src/agent.ts:399-421 | whatever happens between request and answer, memory shows the answer's whole text right behind the prompt if and only if the conversation was not cleared since; otherwise it changes neither messages nor records |
| Agent.ClearedSummaryIsDropped | src/agent.ts:163-173 | a summary requested before a successful clear is never installed |
| Agent.LoadDoesNotShield | src/agent.ts:107-113 | one requested before a session load still is, in front of every message of the loaded history that is no system message |
| Agent.SummaryCrossesSessions | src/agent.ts:107-113 | a run from the start in which the answer about one session becomes the summary of another |
| Agent.TwoSummariesInFlight | src/agent.ts:423-437 | after a timeout a second request starts while the first may still answer |
| Agent.LastAnswerWins | src/agent.ts:399-421 | of two requests in flight the one answered last is installed |
| AgentCoverage.MemoryTells | src/agent.ts:347-421 | over every run without healing, memory is the prompt, the summary shown with its text, and what is left of the present conversation, and each summary request was given exactly its span of turns |
| AgentCoverage.KnownExactly | src/agent.ts:347-421 | a turn is known now or ever again in its conversation exactly if memory holds it, the summary shown was made of it, or an open request was given it |
| AgentCoverage.AllKnownExactly | src/agent.ts:361-383 | everything said is known exactly if nothing was dropped or one request was given all that was |
| AgentCoverage.NextSummaryForgets | src/agent.ts:393-421 | once every request is answered, the next summary loses for good all that was dropped before it |
| AgentCoverage.SecondSummaryForgets | src/agent.ts:361-421 | a run from the start with two summaries after which the first turns are lost |
| Agent.CorvusAgent.RefreshSystemPrompt | src/agent.ts:91-96 | replaces the first system message that is no summary, or puts one in front |
| Agent.CorvusAgent.CheckCompaction | src/agent.ts:307-326 | evicts, truncates or does nothing, and reports a truncation |
| Agent.CorvusAgent.ScheduleBackgroundCompaction | src/agent.ts:333-341 | requests a summary without truncating |
| Agent.CorvusAgent.StartAsyncCompaction | src/agent.ts:361-387 | the truncation and the request |
| Agent.CorvusAgent.SummaryAnswered | src/agent.ts:399-421 | a timely answer stands whole, between the markers and with its count of turns, behind the first message; any other changes nothing |
| Agent.CorvusAgent.ClearContext | src/agent.ts:163-173 | keeps the first message and advances the epoch, unless there is nothing to clear |
| Agent.CorvusAgent.LoadSessionHistory | src/agent.ts:107-113 | prompt, the checkpoint's summary with its text, and every message of the history that is no system message, in order |
| Agent.LoadedAreFiltered | src/agent.ts:110-110 | what a load takes over is the history without its system messages, in order |
| Summaries.SummaryTells | src/context.ts:121-140 | a summary's content is a marker with the count of turns, the text whole, and the end marker |
| Summaries.SummaryDetermines | src/context.ts:121-140 | equal summary messages have equal texts and equal counts |
| ScopeLeases.RunIsExclusive | src/harness/run-store.ts:452-477 | over all claims, heartbeats, releases and clock readings a scope has one active lease at most |
| ScopeLeases.HeldScopeIsRefused | src/harness/run-store.ts:456-460 | a claim on another task's live scope fails, names the holder and leaves its lease alone |
| ScopeLeases.ReclaimRenews | src/harness/run-store.ts:457-458 | the holder's own claim creates no lease and only moves heartbeat and expiry |
| ScopeLeases.RefusedExactly | src/harness/run-store.ts:452-466 | a claim is refused exactly when another task holds a live lease on that scope |
| ScopeLeases.FlagIsExact | src/harness/run-store.ts:461-466 | the hierarchical flag is set exactly when another task held a proper ancestor or descendant |
| ScopeLeases.ClaimExactly | src/harness/run-store.ts:452-466 | the whole table and the answer after a claim, row by row: released, renewed, new or untouched |
| ScopeLeases.UnderIsDescent | src/harness/run-store.ts:461-461 | the text test is the ancestor relation on path segments |
| ScopeLeases.EndsExactly | src/harness/run-store.ts:452-477 | a lease ends by its holder's release or by a claim past its expiry, and by nothing else |
| ScopeLeases.ExclusionOverTime | src/harness/run-store.ts:452-477 | until then every other task's claim is refused, whatever else happens |
| ScopeLeases.HeartbeatRevives | src/harness/run-store.ts:468-473 | an expired lease that is not swept is revived by its heartbeat |
| ScopeLeases.HeartbeatDecides | src/harness/run-store.ts:452-473 | a run from an empty table: the same late claim gets the scope or is refused, depending on one late heartbeat |
| ScopeLeases.LeaseStore.ClaimScopeLease | src/harness/run-store.ts:452-466 | the claim with the instants it reads, row by row; a lease lives for the seconds asked, thirty at least |
| ScopeLeases.LeaseStore.HeartbeatScopeLease | src/harness/run-store.ts:468-473 | fails exactly on a missing or inactive lease; otherwise heartbeat and expiry of that lease alone |
| ScopeLeases.LeaseStore.ReleaseScopeLeases | src/harness/run-store.ts:475-477 | releases the task's active leases and leaves all other rows |
| ScopeLeases.Coordinator.SetTaskPolicy | src/collaboration.ts:13-13 | an empty policy is no policy |
| ScopeLeases.Coordinator.ClaimPath | src/collaboration.ts:14-21 | a path outside the policy, by what its patterns admit, is refused and never reaches the leases |
| ScopeLeases.Coordinator.ReleaseTask | src/collaboration.ts:22-22 | forgets the policy and releases the leases |
| ScopeLeases.DoubleStarStopsAtSlash | src/collaboration.ts:4-7 | exactly which scopes a trailing `**` admits |
| ScopeLeases.MatchesExactly | src/collaboration.ts:4-7 | for every pattern, the two replacements and the match accept exactly what the pattern admits read from the left: `**` one character and then anything without a slash, `*` anything without a slash, any other character itself |
| Automation.Exclusion | src/automation.ts:18-19 | if an automation is never started with overlap allowed, it has one running row at most, and each process one flight; no two rows share a token |
| Automation.StartsExactlyWhenExpired | src/automation.ts:18-18 | a newcomer starts exactly when overlap is allowed or every running row had expired at its start time; its row, and the failed rows it supersedes, written out |
| Automation.StaleHeartbeatIsIdle | src/automation.ts:19-19 | a superseded run's heartbeat changes nothing; a running one's the lease and no more |
| Automation.CompletionTouchesOwnRow | src/automation.ts:19-19 | a completion writes its own row and no other |
| Automation.SupersededRunMayReadSucceeded | src/automation.ts:19-19 | a superseded run that finishes reads as succeeded with the old error |
| Automation.SupersededRunSucceeds | src/automation.ts:18-19 | a run from an empty table in which that happens |
| Automation.FlightRuns | src/automation.ts:19-19 | a flight's retries and completion, as actions of the state machine, leave its row with the last attempt and its end, and free the process |
| Automation.NeverRunsAgain | src/automation.ts:18-19 | a row that has stopped running never runs again |
| Automation.CompletedIsFinal | src/automation.ts:19-19 | a completed run's row is final |
| Automation.HolderKeepsClaim | src/automation.ts:18-19 | a holder that keeps its lease ahead keeps its claim, and newcomers are turned away |
| Automation.Scheduler.Begin | src/automation.ts:18-19 | skipped by this process, skipped by another, or begun with its row; and this is the start action of the state machine |
| Automation.Scheduler.Work | src/automation.ts:19-19 | the retry loop: stops at the first success, one dispatch more than the retries at most, and the row it leaves; these are the retry and completion actions of the state machine |
| Automation.Scheduler.Beat | src/automation.ts:19-19 | the conditional lease update, and this is the heartbeat action of the state machine |
| DurableJson.SerializeDurableJson | src/json.ts:14-24 | succeeds as the walk does |
| DurableJson.Normalizer.NormalizeObjectLike | src/json.ts:63-99 | the specified result, with `seen` as it was found |
| DurableJson.Normalizer.NormalizeArray | src/json.ts:101-135 | likewise for arrays |
| DurableJsonTheorems.NormExactly | src/json.ts:34-135 | succeeds exactly when the value has a finite unfolding of sound objects, and returns it |
| DurableJsonTheorems.FailureTrail | src/json.ts:34-135 | a failure comes with a chain of references that spells its path and ends in what offends |
| DurableJsonTheorems.FailureIsTrue | src/json.ts:34-160 | at the path reported stands something of which the reason's own fact is true: a symbol key, an own toJSON, an accessor, a visible array property, a hole, a cycle, an unusable primitive |
| DurableJson.VisibleAreFiltered | src/json.ts:82-86 | the fields kept are the enumerable data properties, in order |
| DurableJsonTheorems.SucceedsOnCleanAcyclicGraphs | src/json.ts:34-135 | succeeds if and only if every object and primitive reachable is fit for JSON, said on its own data, and no chain of references closes a cycle |
| Bundle.ResolveDependencies | src/bundle-service.ts:23-23 | fails exactly on a reachable cycle; otherwise no repeats, dependencies first, nothing unreachable |
| Bundle.ResolvedIsLeastClosed | src/bundle-service.ts:23-23 | the result is the least closed superset of the request |
| Bundle.MakePlan | src/bundle-service.ts:16-16 | when a plan exists, and its three lists |
| Bundle.PlanReachesTarget | src/bundle-service.ts:16-16 | applying the plan gives exactly the resolved components |
| Bundle.ShippedTableNeverFails | src/bundle-service.ts:9-9 | with the shipped table resolution never fails |
| Bundle.DefaultPresetGainsChannels | src/bundles.ts:10-10 | the default preset is not closed |
| Secrets.MergePreservingSecrets | src/secrets.ts:17-25 | the loop computes the specified merge |
| Secrets.RedactSecrets | src/secrets.ts:27-37 | the walk computes the specified redaction |
| Secrets.RoundTrip | src/secrets.ts:17-37 | merging the redacted copy back changes nothing |
| Secrets.OneEdit | src/secrets.ts:17-37 | editing one primitive of the copy changes that primitive and nothing else; the marker under a secret key changes nothing |
| Secrets.RemovalIsUndone | src/secrets.ts:17-25 | a removed field comes back |
| Secrets.RevealsOnlyPresence | src/secrets.ts:27-37 | equal redacted copies exactly for trees that differ in non-empty secrets only |
| Secrets.SecretKeyExactly | src/secrets.ts:21-21 | a key is secret exactly when it spells "apikey", "token" or "secret" somewhere, each letter small or capital |
| Secrets.HidesExactly | src/secrets.ts:27-37 | the redacted copy has the marker in place of every non-empty text under a secret key, and every other primitive as it was |
| Streaming.LineSplitter.Feed | src/mcp/client.ts:52-61 | the complete lines of what was held back and read, and what is held back then |
| Streaming.FrameIsSplit | src/openai-client.ts:243-245 | framing loses nothing and no line contains a newline |
| Streaming.ChunkingIsInvisible | src/openai-client.ts:238-248 | however the text is cut, the lines are those of the whole text |
| Streaming.DecodeStream | src/openai-client.ts:228-291 | the message returned is that of the whole text's complete lines, however the text was cut: its content, no calls exactly if there are no fragments, and otherwise one call for each index, ascending |
| Streaming.CallsAreConcatenations | src/openai-client.ts:256-278 | each call is assembled from its own index's fragments, in order; a fragment without an index counts for the end of the calls so far |
| Streaming.IndexedStay | src/openai-client.ts:257-257 | where every fragment names its index, that index counts |
| Streaming.LocatedExactly | src/openai-client.ts:257-257 | a fragment without an index gets the least above all placed before it |
| Streaming.LinesDecodeAsOne | src/openai-client.ts:243-285 | decoding line by line is concatenating the texts and placing the fragments of all lines as one list |
| Streaming.ResponseIsConcatenation | src/openai-client.ts:228-291 | a response's content is the concatenation of its lines' texts, and each call is assembled from its own index's fragments of the whole response |
| Streaming.MessageTells | src/openai-client.ts:228-291 | the message a response decodes to, its calls by ascending index, each assembled from its own fragments |
| Streaming.PayloadsCount | src/openai-client.ts:246-250 | a line counts exactly if it is "data: " and a payload other than "[DONE]" that can be parsed |
| Streaming.InterleavingIsInvisible | src/openai-client.ts:256-278 | fragment lists that agree index by index place the same calls, slots and length |
| Streaming.ResponsesAgree | src/openai-client.ts:228-291 | two responses with the same content and, index by index, the same fragments decode to the same message |

## Left out

- Row timestamps and ordering columns of the harness tables: insertion order stands for them; the event log and the leases do carry instants.
- UUIDs: ids come from one counter, so they are fresh by construction.
- Session and project deletion, agents, memories, channels and sub-agent rows of the run store.
- Database errors, and the bytes of evidence: a transaction commits or rolls back as a whole, evidence content is a text.
- Workspace rules for more than one directory, and the formatting of rules.
- Cutting tool output to its byte limit, tool timeouts and schema validation: a tool body yields a result or a message, arguments are valid or not.
- HarnessServices.ToolQueue.EnqueueAndRun: the ghost list of drivers stands for the pending promises of all processes.
- HarnessTheorems.ReplayReturnsFirstOutcome: starts from the evidence transaction; the window before it is the subject of `HarnessReplay`.
- HarnessServices.RunStore.CreateRun: goal, model, endpoint and session of the run.
- HarnessServices.RunStore.CreateStep: kind and title of the step.
- HarnessServices.EvidenceStore.CreateEvidence: title and summary of the row.
- HarnessServices.ToolQueue.Finish: the evidence text made from a result, and the output limit; a result is stored as it comes.
- Runner.HarnessRunner.RunTools: how each call ends is given, as the queue's effects are the subject of the harness modules; a process that dies inside a round leaves rows as a loop that broke off there.
- Agent.CorvusAgent.LoadSessionHistory: the session id and the last run id.
- The fixed sentences between a summary's marker and its text.
- HarnessRecovery.AnswerHoldsExactly: placeholders that name a call the tables do not have.
- AgentCoverage.MemoryTells: runs that heal a dangling tail, which puts rows of the database in place of the last turn.
- Automation.Scheduler.Begin: the state list for display.
- Automation.Scheduler.Work: nothing of other processes comes between the retries of one call; in the state machine everything does.
- Bundle.MakePlan: capabilities, revision and expiry of the plan.
- Runner.HarnessRunner.ContinueRun: usage counters, snapshots, the error's evidence and the streaming callback; the run's own steps are a list of statuses, and the queue's effects on the tables are those of the harness modules.
- Transcript.ResumeMessages: message contents are opaque but for placeholders; that assistant or user text is never itself JSON shaped like a placeholder is part of the shape of rows.
- The agent's send loop: its synchronous sections are the actions of `Agent`; direct model rounds have no durable rows.
- Agent.CorvusAgent.SummaryAnswered: persisting the checkpoint and its time of day.
- The second window and the summary request when the model is switched, and the model fallback chain.
- Automation timers, cron expressions, the state list for display, and running without a database.
- ScopeLeases.Coordinator.ClaimPath: resolving a path against the workspace root; the scope arrives as text.
- Lease and clock texts beyond the year 9999, where text order is not time order.
- DurableJson.SerializeDurableJson: the path text in an error message, which for a check of an object also names the key or symbol, and the encoding of the normalised tree.
- Secrets.MergePreservingSecrets: keys that reach a prototype, array holes and redaction of a clone in place; trees are values.
- Streaming.DecodeStream: bytes cut inside a character (the MCP client decodes each chunk by itself), the time in an invented call id, and fractional or negative indices; an unfinished last line is dropped, as the code does.
- Writing a bundle plan to disk, its revision check and expiry.
- The MCP request table, HTTP, browsers, channels, plugins, user interfaces and secret encryption.
