# Nexus: a verified model of the agent framework's core

Dafny models of the parts of Nexus that are algorithms or state machines rather than I/O, with proofs of what they keep.
`dafny verify dfyconfig.toml` checks everything. Model responses, tool results, hooks, cancellation, the token counter,
the clock and the choices of a supervisor are inputs: every theorem holds for all of them.

| Files | What they model |
|---|---|
| `Session.dfy`, `AgentSession.dfy`, `RunHistory.dfy` | session records, tool-call numbers, the savings ledger, how a session's turns evolve |
| `RunSpec.dfy`, `RunMeaning.dfy`, `AgentRunner.dfy`, `LlmMessages.dfy` | the bounded agent loop with retries, tools, pauses, new messages and resume: its iterations and runs as relations, what they record said of the script alone, and the loop proved against them |
| `Rcs.dfy` | the two writers of summaries: the interceptor and the fallback compactor |
| `Savings.dfy`, `RunSavings.dfy`, `RunExamples.dfy` | the savings ledger over any sequence of passes, runs as such sequences, and runs that contradict the documentation |
| `ContextWindow.dfy`, `ContextMeaning.dfy`, `ContextBuilder.dfy`, `SessionReplay.dfy` | what is sent to the model: rendering and what a rendered call and turn show, trimming, the user anchor, coalescing |
| `Orchestrator.dfy`, `RunBudget.dfy` | turn budgets through trees of pipeline, parallel and supervisor groups, and the agent loop's own share in them |
| `Replay.dfy`, `ReplayBuffer.dfy` | reattaching to a running stream: one producer, any number of readers |
| `Toolsets.dfy`, `ToolRegistry.dfy` | toolset expansion over include graphs |
| `Values.dfy`, `Resolver.dfy` | merging defaults and resolving manifests with a cycle stack |
| `StreamAssembly.dfy`, `Chunking.dfy`, `MuLaw.dfy`, `RateLimiter.dfy`, `Aggregate.dfy`, `Fusion.dfy` | self-contained algorithms |
| `Text.dfy`, `Numbers.dfy` | stripping, decimal numbers, minimum and maximum |

Objects whose methods update fields in the source (session, runner, interceptor, compactor, window builder, stream
buffer and reader, registry, rate limiter, delta accumulator) are classes here, loops are loops, and each such method is
tied by its `ensures` to a function of the old state; the laws are lemmas about those functions. Ghost fields and ghost
results only say what happened (which savings were credited to which call, which iterations a run went through, what a
reader delivered, which stage of trimming was reached).

Where a contract names a specification function, a lemma says what that function gives without naming its body, mostly by
positions: `AnswerForMeans`, `RenderMeans`, `GroupSettingsMean`, `ResummarizedMeans`, `TurnTold` and the like.

## Where the code and its documentation part ways

The model follows the code.

* A tool that requires approval never pauses the run: the pending entry is built with kind `"approval"`, which the
  record's type does not admit (nexus/session/models.py:40, nexus/runner/agent_runner.py:1281-1296), so building it
  raises and the run ends in an error. `AgentRunner.HandleTool` states this as `ToolFailed`.
- A run whose final answer comes on its last allowed turn ends as `max_turns_reached`, not `completed`
  (nexus/runner/agent_runner.py:1548-1549); `RunLoop` states the status as an if-and-only-if, and `RunAnswersAtOnce` is
  such a run.
* When the first response fails validation and a retry is left, the user message recorded with the first turn is the
  retry prompt (nexus/runner/agent_runner.py:1161-1179). `RecordedMessage` says so exactly, for every script, `RunLoop`
  passes it on, and `RetryPromptIsRecorded` is an instance.
* Savings are booked on a turn only if its tools are run and it is recorded: those of a compactor pass before an answer,
  a retry or a failure are booked nowhere, nor are those of a turn that fails midway, and a fold takes away what was
  booked on the turns it removes. So the equality checked in scripts/rcs_live_check.py:215-223 is kept by a run if and
  only if each of its iterations recorded a tool turn or had nothing to save, and folded away no turn with savings on it
  (`RunLeftover`; `RunLoop` states it of `TiesOut`); `RunToolThenAnswer` is a run that breaks it.
* The total is the net reduction only as long as no summary is longer than what it replaces and nothing that had saved
  anything is folded away; `TotalFromNothing` makes this an if-and-only-if over any sequence of passes, `RunNetReduction`
  over the trace of a run, and `GrowthIsCountedTwice` shows the smallest way to miss it.
* docs/reference/multi-agent.md:33 calls a group's `max_turns` the total over its members, enforced. The orchestrator
  enforces it for pipelines only. `BudgetPromise` gives the exact condition for every tree, and two lemmas give
  smallest counterexamples.
* The token budget is checked before the user anchor is inserted and assistants are merged; `SentIsCounted` says exactly
  when the list sent is the list counted, and `BuildPastBudget` returns one that is over the budget it was checked on.
* With two readers on one stream a wake-up can be lost, and a reader can return without events appended during its last
  yield (`TwoReadersLoseWakeup`, `ReturnsWithoutTail`).
* A manifest whose inline group shares the name of a group above it is refused as a reference cycle although it has none
  (`NamesakeIsRefused`); `CycleExactlyWhenFirst` says when that error is the one returned.
* The 409 guard of a reattaching client is not the condition for a gap: `GuardMatchesGap` gives both differences.

## Model

| member | source | states |
|---|---|---|
| Sessions.TcNameInjective | nexus/runner/agent_runner.py:1273-1275 | different counters give different TC ids, none of them the human-in-the-loop marker |
| Sessions.SameIndexSamePlace | nexus/session/models.py:208-212 | in a well-numbered session a tool-call number occurs at one place only |
| Sessions.IdsAreUnique | nexus/session/models.py:218-224 | a TC id names at most one recorded call, so `find_tc` has one candidate |
| AgentSessions.AgentSession.NextTcIndex | nexus/session/models.py:208-212 | returns the counter and moves it on; everything recorded keeps its number |
| AgentSessions.AgentSession.FindTc | nexus/session/models.py:218-224 | finds a recorded call with the id, or there is none |
| AgentSessions.ReportedTotalCoversReduction | nexus/tools/interceptor.py:102-110 | the session total is at least the sum over calls of raw minus charged tokens, with equality exactly when what was reported for each call is what it costs less and nothing reported is away; `Savings` says when that is |
| AgentSessions.SummarizeKeepsLedger | nexus/tools/interceptor.py:80-110 | summarising a call, again or for the first time, keeps the ledger balanced |
| AgentSessions.FoldKeepsLedger | nexus/runner/agent_runner.py:808-847 | removing turns keeps the ledger balanced by moving their credit to what was folded away |
| AgentSessions.SummaryKeepsConsistent | nexus/rcs/compactor.py:110-139 | numbering, ledger, and "total = sum of the turns' savings + unattributed" survive a summary by either writer |
| AgentSessions.AppendKeepsConsistent | nexus/runner/agent_runner.py:1451-1466 | booking savings on an appended turn takes them out of the unattributed amount |
| AgentSessions.RawKeepsConsistent | nexus/runner/agent_runner.py:440-445 | filling in results changes no number and no account |
| AgentSessions.AgentSession.RecordSummary | nexus/tools/interceptor.py:80-110 | exactly one record changes, and the total grows by what the summary saves |
| AgentSessions.AgentSession.AppendTurn | nexus/runner/agent_runner.py:313-324 | the turn is added at the end and its savings are booked |
| LlmMessages.SanitizeAssistant | nexus/llm/content_tool_calls.py:156-171 | no empty assistant message comes out: an empty one becomes the placeholder without calls, one with substance is untouched |
| LlmMessages.BuildAssistant | nexus/llm/content_tool_calls.py:174-186 | the message recorded for a response has its text if it has any or asks for calls, else the fixed placeholder, and asks for exactly the given calls |
| Rcs.MarginalSavingsExact | nexus/tools/interceptor.py:92-105 | the savings reported over repeated summaries of one call are at least its net reduction, equal exactly when no summary was longer than what it replaced |
| Rcs.GrowthIsCountedTwice | nexus/tools/interceptor.py:92-105 | a call summarised to a length, then to a longer one and back, is credited with more than it costs less |
| Rcs.InterceptedKeepsLedger | nexus/tools/interceptor.py:80-110 | an interceptor pass adds to the total exactly what its updates save, summed call by call, and keeps the ledger |
| Rcs.CompactedKeepsLedger | nexus/rcs/compactor.py:92-139 | a compactor pass adds to the total exactly what its summaries save, summed call by call, and keeps the ledger |
| Rcs.InterceptorSavesNothing | nexus/tools/interceptor.py:92-110 | an interceptor pass saves nothing if and only if no summary it offers a recorded call is shorter than what it would replace |
| Rcs.CompactorSavesNothing | nexus/rcs/compactor.py:110-139 | a compactor pass saves nothing if and only if no target has a usable summary shorter than its raw result |
| Savings.InterceptedExact | nexus/tools/interceptor.py:92-110 | after an interceptor pass a call's reports equal its reduction if and only if they did before and no summary in the series it was given is longer than what it replaces |
| Savings.CompactedExact | nexus/rcs/compactor.py:110-139 | the same for a compactor pass and the one summary it may give |
| Savings.TotalIsReports | nexus/tools/interceptor.py:102-110 | over any sequence of interceptor and compactor passes, appends, answers and folds the total grows by the sum of all reports and never misses one |
| Savings.CallExact | nexus/tools/interceptor.py:92-110 | after any such sequence a recorded call is exact if and only if it was to begin with and no pass ever gave it a longer summary |
| Savings.NothingReportedFor | nexus/tools/interceptor.py:102-110 | a recorded call has nothing to its credit if and only if no pass ever reported a saving for it |
| Savings.NothingFolded | nexus/runner/agent_runner.py:808-847 | folding takes nothing out of a sum exactly when every call folded away counts nothing in it |
| Savings.TotalIsNetReduction | nexus/tools/interceptor.py:80-110 | over any sequence of passes the total is at least the net reduction of the calls in the session, and equals it if and only if nothing grew and nothing that had saved anything was folded away |
| Savings.TotalFromNothing | nexus/tools/interceptor.py:80-110 | from an empty session: the total is the sum of all reports, and the net reduction if and only if no recorded call was ever given a longer summary and no call with a saving was ever folded away |
| Rcs.ContextUpdateInterceptor.Intercept | nexus/tools/interceptor.py:19-132 | the usable updates that name a recorded call are reported in order; each call carries the last usable summary offered for it, with its turn and length, and is otherwise as it was; its credit grows by the marginal savings of its whole series, and the total by the sum of the reports |
| Rcs.ResummarizedMeans | nexus/tools/interceptor.py:44-100 | the summary written to a call is the last one among the updates that, trimmed at both ends, names it and is neither empty nor "[]"; without one the call is left alone |
| Rcs.ApplicableMeans | nexus/tools/interceptor.py:44-78 | a pair of id and summary is reported as applied if and only if some update offers it and the id is recorded |
| Rcs.InterceptApply | nexus/tools/interceptor.py:53-110 | one more applied update extends that description by exactly itself |
| Rcs.InterceptSkip | nexus/tools/interceptor.py:44-78 | an update that is malformed, blank, "[]" or names no recorded call changes nothing |
| Rcs.InterceptedCompose | nexus/tools/interceptor.py:92-110 | intercepting one series of updates after another is intercepting both as one: same summaries, same credits, no saving counted twice |
| Rcs.UnsummarizedSorted | nexus/rcs/compactor.py:62-72 | the collected calls are exactly the unsummarised ones and already in index order, so the sort changes nothing |
| Rcs.ServerCompactor.Compact | nexus/rcs/compactor.py:46-150 | the oldest N unsummarised calls, and only those, get the usable summary their model call gives, trimmed; every other call is as it was; the result is the growth of the total |
| Rcs.CompactedMeans | nexus/rcs/compactor.py:92-135 | a target carries the trimmed summary of its own model call unless that is missing, blank or "[]"; every other call is left alone |
| Rcs.TargetsAreOldest | nexus/rcs/compactor.py:62-73 | the targets are at most N, all unsummarised, and a call left out is newer than each of them and left only because there are N |
| Rcs.CompactStep | nexus/rcs/compactor.py:92-139 | compacting the next target leaves every other call as it was and credits max(0, raw - summary) |
| RunHistory.InterceptedHeirs | nexus/tools/interceptor.py:80-100 | an interceptor pass changes nothing but summaries |
| RunHistory.CompactedHeirs | nexus/rcs/compactor.py:110-135 | a compactor pass changes nothing but summaries |
| RunHistory.DescendsFold | nexus/runner/agent_runner.py:808-847 | after a fold every remaining turn is still an earlier one or one recorded by the run |
| RunHistory.RunShapeAdds | nexus/runner/agent_runner.py:1451-1466 | a turn recorded next carries its place as number and a user message, the given one, only if it is the run's first |
| AgentRunners.AgentRunner.ClosePendingInteractions | nexus/runner/agent_runner.py:432-445 | the pending list is emptied; exactly the calls it names whose result is still empty get the superseded text, all else stays |
| AgentRunners.OpenedMeans | nexus/runner/agent_runner.py:432-445 | with a new message each call that was waited for carries the notice; without one the recorded turns are as they were |
| AgentRunners.AgentRunner.MaybePauseForHumanInLoop | nexus/runner/agent_runner.py:447-465 | pauses exactly when the configured number of turns is reached, adding the marker entry and nothing else |
| AgentRunners.AgentRunner.HandleTool | nexus/runner/agent_runner.py:1257-1393 | the updates the call carries are applied first and their savings reported; one number is used; a client or elicitation call pauses with one matching pending entry and an empty record; a call that needs approval fails; any other call is recorded with its result and its length under the run's counter |
| AgentRunners.AgentRunner.RunTools | nexus/runner/agent_runner.py:1403-1447 | the records are exactly those of the first calls, numbered on from the counter; the stop is determined by the script (all done, deferred to the client, cancelled, failed); the updates of all calls taken up are applied as one series |
| AgentRunners.AgentRunner.MaybeCompactAndSummarize | nexus/runner/agent_runner.py:808-847 | when triggered, exactly the compactor's targets are summarised before the model call; then the folded turns go; total, credit away and unbooked amount change by exactly what was saved and folded |
| AgentRunners.AgentRunner.RecordToolTurn | nexus/runner/agent_runner.py:1403-1466 | the turn that is recorded is exactly the response's, field by field: its message, the records of its calls, number, user message, status, and as tokens saved the compactor's plus its own tools'; a cancelled or failed turn leaves the applied summaries and no record |
| AgentRunners.AgentRunner.RunToolsOfTurn | nexus/runner/agent_runner.py:1403-1447 | what the tools of a turn report as saved is what their updates save, applied as one series to the session as it was |
| AgentRunners.AgentRunner.CloseTurn | nexus/runner/agent_runner.py:1505-1546 | a stop wins over an injected message, that over the human-in-the-loop limit, and only the limit adds a pending entry |
| AgentRunners.AgentRunner.RunTurn | nexus/runner/agent_runner.py:1065-1546 | one iteration, exactly: compaction and fold before the call; retry, failure, answer or tools; the one turn recorded or none, as its step tells it (`TurnTold`); the end; the session's books afterwards; the total grows by both writers' reports, and the unbooked amount by the savings on folded turns plus, unless a tool turn was recorded, those reports |
| RunMeanings.TurnTold | nexus/runner/agent_runner.py:1177-1466 | a recorded turn carries its number, the loop's message on the first turn only, one assistant message with the response's text (or the placeholder if there is neither text nor call) and the ids of the calls it may make, and for each call taken up a record with number, name, id and result, empty only for a last one that waits for the client; its tokens saved are the reports, or none for an answer |
| RunMeanings.RunIsTold | nexus/runner/agent_runner.py:1046-1549 | so for every iteration of a run, along the script; `RunLoop` and `Resume` state it of theirs |
| RunMeanings.RecordedTurnStays | nexus/runner/agent_runner.py:1177-1466 | without folds the turn that iteration k records is in the session when the run ends, at its own place, as the script's step k tells it but for summaries |
| RunMeanings.EndTold | nexus/runner/agent_runner.py:1065-1549 | for each way an iteration can end, the exact condition on its step, with the message the next turn starts from |
| RunMeanings.RetriesTold | nexus/runner/agent_runner.py:1153-1168 | a valid structured result gives every retry back, an invalid one uses one up, nothing else touches them |
| RunMeanings.SummariesTold | nexus/runner/agent_runner.py:808-847 | over the threshold the oldest unsummarised calls get their summaries before the model call, else nothing changes; during the turn the updates of exactly the calls taken up are written, if RCS is on |
| RunSpecs.LeftoverNought | nexus/runner/agent_runner.py:1169-1192 | an iteration leaves nothing unbooked if and only if it recorded a tool turn or had nothing to save (no summary on offer, from either writer, shorter than what it replaces), and no turn it folded away had savings booked on it |
| RunSpecs.NothingReported | nexus/runner/agent_runner.py:1238-1416 | an iteration reports no savings if and only if no summary on offer, from the compactor's model calls or the response's updates, is shorter than what it replaces |
| RunSpecs.IterationDescends | nexus/runner/agent_runner.py:1065-1546 | an iteration leaves earlier turns up to summaries and its own one turn, whose calls carry new numbers and answer its message |
| AgentRunners.AgentRunner.RunTurns | nexus/runner/agent_runner.py:1046-1549 | terminates by (turns left, retries left); the run is a chain of such iterations along the script, stopped exactly by an answer, a pause, a stop, an error, a cancellation or the limit, with the status that says which |
| AgentRunners.AgentRunner.RunLoop | nexus/runner/agent_runner.py:1000-1549 | a whole run for every script of the outside world: that chain, from the turns as a new message leaves them (`OpenedMeans`); every recorded turn as its step tells it; the bounds on turns and model calls; max_turns_reached exactly when the limit is used up; unique and never reused numbers; the total plus all reports; savings unbooked exactly when some iteration leaves them so; the total the net reduction exactly when, by the trace, nothing left grew and nothing saved was folded away; paused exactly when one entry is pending; without folds the recorded turns by place, with the first one's message |
| AgentRunners.AgentRunner.Resume | nexus/runner/agent_runner.py:1717-1775 | refused with nothing changed when nothing is pending; else each pending call that was empty holds exactly the answer given for it (`AnswerForMeans`, `FilledAllMeans`), every other call what it held, the list is emptied and a whole run follows with all that `RunLoop` states |
| AgentRunners.AnswerForMeans | nexus/runner/agent_runner.py:1735-1741 | an entry is answered with the content of the last result with its TC id; if there is none, of the last with its call id; if there is neither, with nothing; an empty id matches none |
| AgentRunners.FilledAllMeans | nexus/runner/agent_runner.py:1741-1757 | a call with a result, or that nothing pending names, stays; else it holds the answer to the first entry naming it that is answered with more than nothing |
| AgentRunners.PausedOnIsOk | nexus/runner/agent_runner.py:1281-1324 | a pause leaves a pending entry that names a recorded call whose result is empty, or the marker |
| AgentRunners.FillStep | nexus/runner/agent_runner.py:1741-1757 | answering one more pending entry composes with those before |
| RunSpecs.IterationShape | nexus/runner/agent_runner.py:1046-1546 | without a fold an iteration adds its turn, if it records one, with the next place as number |
| RunSpecs.RunDescends | nexus/runner/agent_runner.py:1046-1549 | every turn after a run was there before, up to its summaries, or was recorded by the run with numbers never given out before |
| RunSpecs.RunCounts | nexus/runner/agent_runner.py:1056-1166 | a run makes at most limit x (retries + 1) model calls, for every script |
| RunSpecs.VerdictMeans | nexus/runner/agent_runner.py:1548-1549 | each of the five statuses if and only if: max_turns_reached when the turns used reach the limit, even on an answer; completed when an answer came below it; paused when the last iteration paused; error when it raised one; interrupted when it was stopped or cancelled, or the run was cancelled between iterations below the limit |
| RunSpecs.RecordedMessage | nexus/runner/agent_runner.py:1161-1179 | the run's first recorded turn carries the retry prompt if the first response failed validation with retries left, else the user's message; later turns carry none; with or without folds |
| RunSpecs.RunHasShape | nexus/runner/agent_runner.py:1046-1546 | without folds a run adds exactly the turns it counts, and one more that paused or ended it after being recorded, numbered by place |
| RunSpecs.RunTotal | nexus/runner/agent_runner.py:1238-1416 | the session total grows by the sum of what the iterations report |
| RunSpecs.RunLeftover | nexus/runner/agent_runner.py:1238-1460 | a run leaves no savings unbooked if and only if each of its iterations recorded a tool turn or had nothing to save, and folded away no turn with savings on it |
| RunSpecs.QuietRun | nexus/runner/agent_runner.py:1238-1460 | without compactor and folds only an error or a cancellation leaves savings unbooked |
| RunSavings.IterationPasses | nexus/runner/agent_runner.py:1065-1466 | `PassesOf` an iteration - its compaction, its fold, its interception and at most one append, in this order - lead on the savings ledger from the books before it, by `StatesOf`, to those after it |
| RunSavings.RunPasses | nexus/runner/agent_runner.py:1046-1549 | the passes of a run are those of its iterations one after the other, and lead from the books at its start to those at its end |
| RunSavings.RunGrows | nexus/runner/agent_runner.py:1046-1549 | a call is given a longer summary, or saved something on, by those passes if and only if some iteration of the trace does |
| RunSavings.RunFolds | nexus/runner/agent_runner.py:808-847 | those passes fold away only what was never saved on if and only if every iteration of the trace does |
| RunSavings.RunNetReduction | nexus/runner/agent_runner.py:1046-1549 | after a run the total is at least the net reduction, and equals it if and only if, as read off the trace, every call left was exact at the start and given no longer summary in any iteration, and no iteration folded away a call that an earlier one or its own compaction had saved on |
| RunSavings.OpeningIsPass | nexus/runner/agent_runner.py:432-445 | closing or answering pending calls is a pass that costs and saves nothing |
| RunSavings.OpenedRunNetReduction | nexus/runner/agent_runner.py:1000-1549 | so the condition for the net reduction can be read off the books as they were before pending calls were closed or answered; `RunLoop` and `Resume` state it |
| RunBudgets.LeaderStaysWithinCap | nexus/runner/agent_runner.py:421-430 | a run of an agent under a budget uses no more turns than the orchestrator's limit for it, and takes up no more tool calls, so makes no more delegations, than its cap |
| RunBudgets.RunHandles | nexus/runner/agent_runner.py:1403-1447 | the counter moves by the calls taken up, at most max_tool_calls_per_turn for each turn used and the one that ended the run |
| RunBudgets.CapIsReached | nexus/runner/agent_runner.py:1046-1549 | for every agent, budget and number of turns up to the limit there is a script on which every run makes exactly that many calls |
| RunBudgets.RunBusy | nexus/runner/agent_runner.py:1046-1549 | the loop, run on that script, does so |
| RunExamples.RetryPromptIsRecorded | nexus/runner/agent_runner.py:1161-1179 | every run of the script whose first response fails validation records the retry prompt in place of any user's message |
| RunExamples.RunFailsOnce | nexus/runner/agent_runner.py:1161-1179 | the loop, run on that script, does so |
| RunExamples.SavingIsBookedNowhere | nexus/runner/agent_runner.py:1169-1192 | every run of a script that compacts before its answer leaves savings unbooked |
| RunExamples.RunToolThenAnswer | scripts/rcs_live_check.py:215-223 | the loop, run on that script from an empty session, ends with the turns' sum below the total |
| RunExamples.AnswerRunsOut | nexus/runner/agent_runner.py:1198-1234 | every run of a script that answers at once, with one turn allowed, ends as max_turns_reached |
| RunExamples.RunAnswersAtOnce | nexus/runner/agent_runner.py:1548-1549 | the loop, run on that script, does so, with its one turn recorded and used |
| ContextWindow.CoalescedHasNoPair | nexus/context/builder.py:67-97 | after coalescing no two adjacent plain assistant messages remain |
| ContextWindow.CoalesceIdempotent | nexus/context/builder.py:67-97 | coalescing twice is coalescing once |
| ContextWindow.CoalesceKeepsOthers | nexus/context/builder.py:67-97 | every other message stays, in order |
| ContextWindow.CoalesceKeepsInk | nexus/context/builder.py:90-97 | merging loses no character but white space |
| ContextWindow.JoinMeans | nexus/context/builder.py:90-97 | two texts are joined stripped, by an empty line; a blank one adds nothing |
| ContextWindow.CoalesceKeepsSubstance | nexus/context/builder.py:90-97 | no empty assistant message arises |
| ContextWindow.AnsweredOthers | nexus/context/builder.py:67-97 | merging plain assistants cannot break the pairing of tool results and requests |
| ContextWindow.AnsweredMeans | nexus/context/builder.py:164-187 | every tool message has an earlier assistant message that asked for it, with only assistant and tool messages between |
| ContextMeanings.RenderMeans | nexus/context/builder.py:191-245 | the rendered text is the one that shows the call: the overflow notice for its token count when degraded, else its stripped summary when that is usable, else its whole result; under one line with the tag exactly when RCS is on and no summary is shown, and with the signature, if any, beside a tag or a summary |
| ContextMeanings.SummaryReplacesResult | nexus/context/builder.py:228-235 | a summarised call renders independently of its result and number, and ends in its summary |
| ContextMeanings.ResultIsShown | nexus/context/builder.py:237-245 | an undegraded call without a summary ends in its result, behind its tag with RCS on and with nothing before it with RCS off |
| ContextMeanings.NoticeReplacesResult | nexus/context/builder.py:218-226 | a degraded call ends in the notice and depends on its result only through the number of its tokens |
| ContextMeanings.ToolCallIdMeans | nexus/context/builder.py:173-179 | a result carries the id at its position in the last recorded message that asks for so many calls, or one made from its TC id |
| ContextMeanings.TurnMeans | nexus/context/builder.py:143-189 | a turn is rendered as its user message if it has one, its recorded messages with only empty ones replaced by the placeholder, and one tool message for each call, showing it |
| ContextBuilder.TurnAnswersItself | nexus/context/builder.py:143-189 | a recorded turn, rendered with any set of degraded results, answers its own requests |
| ContextBuilder.BlockAnswersItself | nexus/context/builder.py:143-189 | every tool result of a turn's block, what the turn contributes besides plain text, answers an assistant message earlier in the same block |
| ContextBuilder.BlockShows | nexus/context/builder.py:143-189 | each block is the turn's user message, its messages that ask for calls, and a tool message showing each call |
| ContextBuilder.FinalBlocks | nexus/context/builder.py:334-379 | the list sent is, but for plain assistant text, the system message, the inserted user message if one was needed, the kept turns' blocks one after the other, and the current message |
| ContextBuilder.ContextWindowBuilder.DegradeOldestTool | nexus/context/builder.py:127-141 | marks the oldest unsummarised, unmarked result, and says no exactly when there is none |
| ContextBuilder.ContextWindowBuilder.CoalesceConsecutiveAssistants | nexus/context/builder.py:67-97 | the loop computes the specified coalescing |
| ContextBuilder.ContextWindowBuilder.Build | nexus/context/builder.py:312-379 | terminates for every session, budget and counter, at the first stage of the fixed order that fits or at the empty window; every earlier stage was too long; what it returns is the coalescing of the system message, a user message if none with text was left, what each kept turn shows with that stage's results degraded, and the current message |
| ContextBuilder.TrimmingOrder | nexus/context/builder.py:353-362 | kept turns are a suffix, degraded results a prefix, and no turn is dropped before every unsummarised result is degraded |
| ContextBuilder.UnsummarizedMeans | nexus/context/builder.py:127-141 | the ids that can be degraded are those of the recorded calls without a usable summary |
| ContextBuilder.FinalListWellFormed | nexus/context/builder.py:374-379 | whatever was trimmed: system message first, a user message with text, no empty or adjacent plain assistants, and every tool result answers an assistant message of its own turn, the list being made of the turns' blocks, each answering itself |
| ContextBuilder.EnsuredHasUser | nexus/context/builder.py:113-125 | the anchor guarantees a user message with text |
| ContextBuilder.UserText | nexus/context/builder.py:113-125 | the inserted message is what the user said last, stripped, unless that is blank, and then the fixed text |
| ContextBuilder.LastUserMessage | nexus/context/builder.py:321-324 | the anchor of a session is the last user message that is not empty, or none |
| ContextBuilder.SentIsCounted | nexus/context/builder.py:349-379 | the list sent is the list the budget was checked on if and only if it has a user message with text and no two adjacent plain assistants |
| ContextBuilder.AnchorCanExceedBudget | nexus/context/builder.py:374-379 | a list that fits can be sent as a longer one that does not |
| ContextBuilder.BuildPastBudget | nexus/context/builder.py:349-379 | the builder returns such a list: what it counted is within the budget, what it returns is not, by the same counter |
| SessionReplay.RunKeepsReplayable | nexus/context/builder.py:143-189 | a run keeps the sessions the window builder can replay: its own turns and every summary included |
| SessionReplay.MappedReplayable | nexus/runner/agent_runner.py:432-445 | so do closing and filling pending calls |
| Orchestrator.WorstBound | nexus/multiagent/orchestrator.py:230-313 | no run of a tree reports more turns than its worst case |
| Orchestrator.WorstReached | nexus/multiagent/orchestrator.py:573-731 | and every smaller number, the worst case included, is reported by some run |
| Orchestrator.BudgetPromise | nexus/multiagent/orchestrator.py:160-163 | every run stays within the budget if and only if the worst case does |
| Orchestrator.FactorBound | nexus/multiagent/orchestrator.py:160-163 | the worst case is at most f(tree) times the budget: 1 for an agent, the maximum for a pipeline, the sum for parallel, 1 + maximum over delegates for a supervisor |
| Orchestrator.PipelinesStayWithinBudget | nexus/multiagent/orchestrator.py:240-313 | pipelines of agents, nested to any depth, never exceed their budget |
| Orchestrator.ParallelExceedsBudget | nexus/multiagent/orchestrator.py:423-496 | two parallel agents can use twice the group's budget |
| Orchestrator.SupervisorExceedsBudget | nexus/multiagent/orchestrator.py:618-707 | a supervisor and one delegate can too |
| Orchestrator.RunMember | nexus/multiagent/orchestrator.py:79-112 | executing a member reports exactly what some valid run of it reports |
| Orchestrator.RunPipeline | nexus/multiagent/orchestrator.py:230-313 | members run in order on what is left, until nothing is left or one fails |
| Orchestrator.RunParallel | nexus/multiagent/orchestrator.py:423-496 | every member gets the whole budget |
| Orchestrator.RunSupervisor | nexus/multiagent/orchestrator.py:573-731 | delegations share what is left among themselves; the leader's own turns come on top |
| Orchestrator.SelectMeans | nexus/multiagent/orchestrator.py:165-196 | the leader is the first member with the configured name; with none configured the first whose name has "supervisor" in it, in either case of letters; with none like that the first member; else there is none |
| Replay.StepKeepsInv | nexus/serve/replay.py:97-115 | each step of the producer or a reader keeps the protocol's invariant |
| Replay.RunKeepsInv | nexus/serve/replay.py:97-138 | and so does every interleaving |
| Replay.RunDelivers | nexus/serve/replay.py:29-41 | in every run the buffer is the newest events and the log is what was produced, in order; every event a reader delivered is the one logged under its number, payload included; its output increases above its start, without a gap it is exactly the contiguous block up to its cursor, and a settled reader missed something if and only if some snapshot found a needed event gone |
| Replay.AdvanceHandsOut | nexus/serve/replay.py:107-115 | a resumption hands out nothing, or the next event of the snapshot under way, or without one the oldest retained event above the cursor |
| Replay.CaughtUpIff | nexus/serve/replay.py:107-115 | a returned or sleeping reader has everything retained that it asked for if and only if nothing was appended since its last snapshot (or it asked for nothing retained) |
| Replay.NoLostWakeup | nexus/serve/replay.py:29-41 | with one reader at a time, a blocked reader has delivered every retained event it asked for, the run is not finished, and the flag is down |
| Replay.NobodySleepsAfterFinish | nexus/serve/replay.py:34-41 | with any number of readers none stays blocked once the run is finished |
| Replay.FinishedReaderReturns | nexus/serve/replay.py:109-115 | after the finish a reader delivers the rest of its snapshot and returns |
| Replay.ReattachContinues | nexus/serve/replay.py:97-115 | dropping out at the cursor and rejoining from it neither loses nor repeats an event, if neither reader met a gap |
| Replay.TwoReadersLoseWakeup | nexus/serve/replay.py:39-41 | a run with two readers that leaves one asleep on an undelivered retained event |
| Replay.ReturnsWithoutTail | nexus/serve/replay.py:109-115 | a run with one reader that returns without an event appended during its last yield |
| Replay.GuardMatchesGap | nexus/serve/router.py:125-134 | for every request the 409 guard refuses exactly a named event that is of an earlier run or leaves a gap, while something is retained; both ways it can differ from the gap are characterised |
| Replay.GuardRefusesEarlierRun | nexus/serve/router.py:125-134 | a client that last saw an earlier run is refused although nothing of this run is gone |
| Replay.SilentGapAtZero | nexus/serve/router.py:125-134 | after two events in a buffer for one, a client that asks from the start is not refused and misses the first |
| ReplayBuffers.SessionBuffer.Append | nexus/serve/replay.py:29-32 | the bounded deque keeps exactly the newest events and raises the flag |
| ReplayBuffers.SessionBuffer.NewerThan | nexus/serve/replay.py:109 | the snapshot is the buffered events above the cursor, in order |
| ReplayBuffers.ReplayReader.Next | nexus/serve/replay.py:107-115 | one resumption of the generator is exactly one step of the state machine, and what it returns is the event that step delivers: the next of the snapshot, else the oldest retained above the cursor |
| Toolsets.ResolveInto | nexus/tools/toolsets.py:34-51 | one call returns the tools of exactly the names it newly visits, all reachable, and leaves none of their includes unvisited |
| Toolsets.ResolveToolsetTools | nexus/tools/toolsets.py:34-51 | on every include graph the expansion is the tools of all reachable names, undefined dotted names standing for themselves |
| Toolsets.ExpansionMeans | nexus/tools/toolsets.py:42-51 | a tool is in the expansion if and only if a reachable toolset lists it, or it is itself reached as an undefined name with a dot |
| Toolsets.VisitedIsReachable | nexus/tools/toolsets.py:42-51 | a closed visited set of reachable names is the reachable set |
| Toolsets.DefineAcyclicIff | nexus/tools/registry.py:181-222 | defining a toolset keeps the graph acyclic if and only if nothing it includes reaches its name |
| Toolsets.NewNameKeepsAcyclic | nexus/tools/registry.py:206-211 | a first definition with defined includes closes no cycle |
| ToolRegistries.ToolRegistry.RegisterTool | nexus/tools/registry.py:91-122 | registering a tool adds its name, keeps every toolset, and leaves the registry well formed |
| ToolRegistries.ToolRegistry.DefineToolset | nexus/tools/registry.py:181-222 | refuses unregistered tools, then undefined includes, changing nothing; otherwise defines, with the acyclicity condition exact |
| ToolRegistries.ToolRegistry.ResolveToolset | nexus/tools/registry.py:246-262 | a list expands to the union of its parts, no list to no restriction |
| ToolRegistries.ResolvedToolsAreRegistered | nexus/tools/registry.py:199-222 | a defined toolset expands to registered tools only |
| ToolRegistries.WithoutRedefinitionAcyclic | nexus/tools/registry.py:181-222 | no sequence of definitions without redefinition makes a cycle |
| ToolRegistries.RedefinitionCanCycle | nexus/tools/registry.py:221 | three definitions with one redefinition do |
| Values.MergeInto | nexus/orchestration/resolver.py:27-39 | the loop computes the specified merge |
| Values.MergeMeans | nexus/orchestration/resolver.py:27-39 | key by key: the base's value, the override's, or the merge of two mappings |
| Values.MergeReaches | nexus/orchestration/resolver.py:27-39 | at any depth: an override's value that is no mapping wins; a mapping leaves a mapping, its own where the base has none; where the override has nothing the base's value stays, unless the override put something else in the way |
| Values.MergeKeepsDistinct | nexus/orchestration/resolver.py:27-39 | keys stay distinct and the base's keys keep their places |
| Resolver.ResolveRoot | nexus/orchestration/resolver.py:55-68 | ends on every manifest; succeeds if and only if a fitting tree exists and returns it, with no group inside itself, and with every agent's and group's settings key by key and every group's members those given in them (`FitsMeans`); else returns the first failure in member order; a cycle error names a real walk from the root that repeats its last name |
| Resolver.ResolveGroup | nexus/orchestration/resolver.py:90-121 | the same below any stack, with this group's name and settings, ending by (groups not on the stack, size of the members) |
| Resolver.ResolveMemberEntry | nexus/orchestration/resolver.py:123-146 | the same for a name, an inline group, an inline agent or anything else, told apart by the entry's shape (`TargetMeans`) |
| Resolver.ResolveMemberRef | nexus/orchestration/resolver.py:148-163 | an agent of that name before a group of that name, else not found |
| Resolver.GroupSettingsMean | nexus/orchestration/resolver.py:101-102 | key by key, a group's settings hold its name; the spec's value, merged into the default where both are mappings; else the default |
| Resolver.FitsMeans | nexus/orchestration/resolver.py:90-121 | so in every agent and group of the tree, with one of the three patterns or none, and members one to one those its settings give |
| Resolver.TargetMeans | nexus/orchestration/resolver.py:123-163 | what an entry stands for, by its shape: a name, an agent before a group; a mapping with pattern and members, a group with its own name, refused without one; any other mapping, an agent; nothing else |
| Resolver.MembersMean | nexus/orchestration/resolver.py:109-119 | the members are the items of the merged list, or the keys of a mapping, or the characters of a string; none if the key is missing; anything else cannot be walked |
| Resolver.ResolveAgent | nexus/orchestration/resolver.py:70-88 | key by key, an agent's settings hold its title as name, the spec's values (merged into the default where both are mappings), the default for the rest, the default model where that leaves none, and in place of a persona block or model settings what they resolve to; else the first step that raises is the error |
| Resolver.AgentSettingsMeans | nexus/orchestration/resolver.py:70-88 | what each key of an agent's settings holds, for every spec with distinct keys |
| Resolver.MergedSettingsMean | nexus/orchestration/resolver.py:70-75 | what each key holds before persona and model are resolved |
| Resolver.AgentErrorMeans | nexus/orchestration/resolver.py:77-88 | which error is raised: the persona's if its block does not resolve, else the model's if its settings are not valid, else the validation's |
| Resolver.FitsHasNoRepeat | nexus/orchestration/resolver.py:97-111 | no group name repeats on any path of the resolved tree |
| Resolver.FitsUnique | nexus/orchestration/resolver.py:109-121 | a manifest determines at most one tree, members one to one and in order |
| Resolver.FailureExcludesTree | nexus/orchestration/resolver.py:90-163 | where resolution fails there is no fitting tree |
| Resolver.FailureUnique | nexus/orchestration/resolver.py:109-121 | there is one first failure in depth-first member order, so a manifest determines its error |
| Resolver.DecidesUnique | nexus/orchestration/resolver.py:55-163 | a manifest determines the result, tree or error |
| Resolver.CycleIsNeverResolved | nexus/orchestration/resolver.py:97-99 | a manifest with a walk from the root that repeats a name is never resolved |
| Resolver.CycleExactlyWhenFirst | nexus/orchestration/resolver.py:97-99 | the cycle error is returned if and only if the first failure is a group named like one above it, everything before it resolving |
| Resolver.InlineSmaller | nexus/orchestration/resolver.py:101-109 | whatever the group defaults contribute, an inline group's members are smaller than its entry |
| Resolver.RefusedIsRealCycle | nexus/orchestration/resolver.py:97-99 | the path of a refused group is a chain of member edges from the root |
| Resolver.NamesakeIsRefused | nexus/orchestration/resolver.py:97-99 | for every name, a finite manifest whose root group has one member, an inline group of that same name, ends in the cycle error name -> name |
| StreamAssembly.Accumulator.Merge | nexus/runner/agent_runner.py:84-101 | after any deltas each index holds the last non-empty id and name and all arguments in order |
| StreamAssembly.Accumulator.Build | nexus/runner/agent_runner.py:104-124 | the named indices become calls in index order, each with its id or one made from its index, its name, and its arguments if they are JSON; the generated ids are written back |
| StreamAssembly.AssembledMeans | nexus/runner/agent_runner.py:84-101 | the id of an index is the last non-empty one given for it, the name too, the function block's first |
| StreamAssembly.ArgumentsConcat | nexus/runner/agent_runner.py:84-101 | the arguments of a stream are those of its parts, one after the other |
| StreamAssembly.ChunkingDoesNotMatter | nexus/runner/agent_runner.py:84-124 | streams that agree per index on id, name and concatenated arguments give the same calls |
| StreamAssembly.InterleavingDoesNotMatter | nexus/runner/agent_runner.py:84-124 | so does any interleaving of the same per-index streams |
| StreamAssembly.CutDoesNotMatter | nexus/runner/agent_runner.py:84-101 | cutting a delta's arguments in two changes nothing |
| Chunking.ChunkText | nexus/rag/chunking.py:12-24 | the loop computes the specified windows |
| Chunking.ChunksAreTheText | nexus/rag/chunking.py:12-24 | windows of 1 to chunk_size characters, neighbours sharing min(overlap, chunk_size - 1), that rebuild the text for every overlap from 0 up |
| Chunking.NegativeOverlapLoses | nexus/rag/chunking.py:12-24 | a negative overlap loses text if and only if one window does not hold it all |
| Chunking.RecursiveSplit | nexus/rag/chunking.py:80-99 | terminates with exactly the specified pieces, of 1 to chunk_size characters: stretches of the text in order, with nothing but newlines, full stops and spaces left out before, between and after them |
| Chunking.PiecesCut | nexus/rag/chunking.py:80-99 | the text is these pieces in order with only separator characters around them |
| Chunking.FirstSeparatorMeans | nexus/rag/chunking.py:83-84 | a text is cut at the first of paragraph, line, sentence and word separator that occurs anywhere in it |
| Chunking.BlocksAreGreedy | nexus/rag/chunking.py:85-98 | of the blocks at one separator no two neighbours would fit together |
| Chunking.SplitJoins | nexus/rag/chunking.py:85-86 | splitting at a separator and joining gives the text back |
| Chunking.PartsAreFree | nexus/rag/chunking.py:85 | and no part contains the separator |
| Chunking.FindMeans | nexus/rag/chunking.py:84-85 | what is found is the first occurrence, and nothing is found only where there is none |
| Chunking.ApplyOverlap | nexus/rag/chunking.py:102-109 | the loop computes the specified overlaps |
| Chunking.OverlappedMeans | nexus/rag/chunking.py:102-109 | the first piece stays and each other follows the last `overlap` characters of its predecessor, or all of it if it is shorter |
| Chunking.OverlapRoundTrip | nexus/rag/chunking.py:102-109 | the pieces can be recovered from the overlapped ones |
| MuLaw.EncodeSample | nexus/realtime/audio/mulaw.py:14-30 | the bit search finds the segment, and the code is that of the specification, for every integer sample |
| MuLaw.CompandError | nexus/realtime/audio/mulaw.py:14-41 | a sample comes back within (abs(clip) + 132) / 32 of its clipped value |
| MuLaw.CompandMonotone | nexus/realtime/audio/mulaw.py:14-41 | encoding and decoding preserve order |
| MuLaw.CompandIdempotent | nexus/realtime/audio/mulaw.py:14-41 | doing it twice is doing it once |
| MuLaw.CodeRoundTrip | nexus/realtime/audio/mulaw.py:33-41 | every code survives decoding and encoding but 0x7F, which becomes 0xFF; decoded samples fit 16 bits |
| MuLaw.CodeOrder | nexus/realtime/audio/mulaw.py:33-41 | from 0x80 to 0xFF the decoded samples strictly fall and are not negative |
| MuLaw.SignBit | nexus/realtime/audio/mulaw.py:14-41 | the lower codes mirror the upper with the sign changed, and exactly negative samples get one |
| MuLaw.CodeEnds | nexus/realtime/audio/mulaw.py:14-41 | silence is 0xFF and decodes to 0; 0x80 decodes to 32124 |
| MuLaw.PcmToUlaw | nexus/realtime/audio/mulaw.py:44-50 | each whole sample is coded, an odd last byte ignored |
| MuLaw.UlawToPcm | nexus/realtime/audio/mulaw.py:53-59 | each byte becomes its sample in little-endian order |
| MuLaw.BufferRoundTrip | nexus/realtime/audio/mulaw.py:44-59 | a buffer of any length comes back, negative zero excepted |
| RateLimiters.RateLimiter.Check | nexus/guardrails/cost.py:67-75 | one tenant's window is pruned and extended exactly when it holds fewer than the limit, others untouched; while the tenant's clock does not go back the call is refused exactly when the last minute of its full admission log is full, and no half-open minute of the log exceeds the largest limit asked for |
| RateLimiters.WindowIsRecentLog | nexus/guardrails/cost.py:70-74 | under a clock that never goes back a tenant's pruned window is the last minute of its full admission log |
| RateLimiters.RecentMeans | nexus/guardrails/cost.py:71 | pruning keeps exactly the times less than 60 seconds old, each as often as it was there |
| RateLimiters.NeverMoreThanMax | nexus/guardrails/cost.py:67-75 | then no half-open minute holds more admissions than the limit, or the largest one if it varies |
| RateLimiters.RefusedOnlyWhenFull | nexus/guardrails/cost.py:71-75 | and a check is refused only when the last minute of the log is full |
| RateLimiters.EachTenantIsLimited | nexus/guardrails/cost.py:67-75 | for a limiter with any interleaving of tenants, each stays within its limit in every half-open minute |
| RateLimiters.ClockStepBreaksTheBound | nexus/guardrails/cost.py:69-75 | a clock that steps back lets three through with a limit of two |
| RateLimiters.ThreeUnderTwo | nexus/guardrails/cost.py:69-75 | the limiter itself does so |
| Aggregate.BuildChildren | nexus/session/aggregate.py:108-144 | the loop with its cursors computes the specified pass |
| Aggregate.CursorsChangeNothing | nexus/session/aggregate.py:108-144 | with calls and turns in time order every child holds exactly its interval's turns |
| Aggregate.ScanExact | nexus/session/aggregate.py:121-127 | in any order, the scan finds its whole interval if and only if no turn of it stands behind one at or past its end |
| Aggregate.BetweenMeans | nexus/session/aggregate.py:121-127 | an interval's turns are exactly those at or after its start and before its end |
| Aggregate.ChildExact | nexus/session/aggregate.py:117-144 | a child built holds its whole interval if and only if that is so from its member's cursor on and the cursor has passed no turn of the interval |
| Aggregate.NoTurnTwice | nexus/session/aggregate.py:117-127 | no turn appears under two of the children built, in whatever order the members' turns are |
| Aggregate.IntervalsDisjoint | nexus/session/aggregate.py:117-127 | the intervals of two calls share no turn |
| Aggregate.OutOfOrderLosesATurn | nexus/session/aggregate.py:122-127 | two children built from one member's two turns, of which one holds none and the other one: a turn of the first interval is in neither |
| Fusion.TallyUp | nexus/rag/fusion.py:15-22 | scores, counts and the order of appearance are those of the lists |
| Fusion.Fuse | nexus/rag/fusion.py:15-28 | the first top_n of distinct ids, exactly those that appear, by score, then by count, then by first appearance; one list without repetition comes back as it was |
| Fusion.WeightMeans | nexus/rag/fusion.py:21 | place r is worth one in (k + r) |
| Fusion.AppearancesMean | nexus/rag/fusion.py:15-22 | the order of appearance has every id once, in the order in which they first turn up, list by list |
| Fusion.FusionUnique | nexus/rag/fusion.py:23-27 | the lists determine that order |
| Fusion.SortIsStable | nexus/rag/fusion.py:23-27 | what the sort key cannot tell apart stays in order of appearance |
| Fusion.Unanimity | nexus/rag/fusion.py:15-28 | an id above another in every list that has the other comes before it |
| Fusion.SortKeepsOrdered | nexus/rag/fusion.py:23-27 | the stable sort leaves what is in order alone |

## Left out

- Parallel tool execution: tools run one after the other here; with parallel calls the result loop stops at the first pause and drops later records.
- Memory curation, skills, learned skills and the reload they cause, including the one after a cancelled run: sessions are not reloaded during a run.
- Storage: a session is the object in memory; adapters, saving and the save order are not modelled, and records are values replaced in place, so sharing one record object between lists is not captured.
- AgentRunners.AgentRunner.MaybeCompactAndSummarize: the context summarizer is any removal of turns by their numbers; which turns it picks and the summary it writes are not modelled, and the statements on turn numbers are made for runs without a fold because numbers can repeat after one.
- AgentRunners.AgentRunner.RunTurn: a response is taken as it is once tool calls written into its text have been promoted; prompts, usage counters, recurring savings, events, hooks other than the turn-end decision, reasoning text and the content of validation messages are left out.
- Streaming runs: same loop, more events; only the assembly of deltas and the replay of events are modelled.
- Orchestrator.RunSupervisor: delegate tools of other groups called through a shared registry, re-entrant delegation and duplicate member names are left out, as are contexts, tokens, events and the streaming variants.
- Orchestrator.WorstBound: the RCS counters of nested results are left out; the results class and the orchestrator name them differently.
- Replay.RunDelivers: one run per key, no ageing out of finished runs.
- Resolver.ResolveAgent: how a persona block resolves (its prompts and their templates) and how model settings are coerced are unknown functions that may raise.
- Resolver.ResolveRoot: the validations of agents and groups are unknown predicates; dictionary keys and group names are strings, so an inline group named by a number is refused here at once and in the source at the end.
- Toolsets.ResolveToolsetTools: the frontend catalogue and schema filtering are left out.
- StreamAssembly.Accumulator.Build: JSON parsing is an unknown predicate on the argument text.
- Chunking.RecursiveSplit: chunk ids, metadata, the dropping of blank pieces, semantic and contextual chunking are left out.
- Aggregate.BuildChildren: collecting the calls and sorting by turn number are taken as done; the surrounding tree, metadata and other patterns are left out.
- Fusion.Fuse: chunks are their ids; the payload kept for an id is the last one seen. Scores are exact reals.
- MuLaw.EncodeSample: shifts and masks are written as division by powers of two; the downsampler is left out.
- ContextBuilder.ContextWindowBuilder.Build: templates, skills text, tool signatures and the token counter are unknown functions; message contents are text; the count of what summaries save in context is left out.
- Adapters, channels, media servers, routing, the command line and configuration lookups: network and library plumbing.
