/**
 What the agent loop does, as relations over values: one iteration, exactly, and runs as chains of iterations.
 Everything outside the loop's control (model responses, tool results, cancellation, hook decisions, timeouts,
 summarizer folds) is read from a script indexed by the number of main-loop model calls made so far.
 */
module RunSpecs {
  import opened Text
  import opened Sessions
  import opened AgentSessions
  import opened Rcs
  import opened LlmMessages
  import opened RunHistory
  import opened Savings

  datatype ToolCallRequest = ToolCallRequest(id: string, toolName: string, contextUpdates: seq<RawUpdate>)

  datatype LlmOutcome =
    | LlmFailed
    | LlmCancelled
    | LlmResponse(content: Option<string>, toolCalls: seq<ToolCallRequest>)

  datatype TurnDecision = Proceed | Stop | Inject(message: string)

  datatype RunStatus = Completed | MaxTurnsReached | Error | Interrupted | Paused

  datatype RunnerConfig = RunnerConfig(
    maxTurns: int,
    maxToolCallsPerTurn: int,
    stopOnEmptyToolCalls: bool,
    hasResultType: bool,
    structuredOutputMaxRetries: nat,
    humanInLoopAfterTurns: Option<int>,
    rcsEnabled: bool,
    fallbackCompactor: CompactorConfig)

  datatype ToolRegistry = ToolRegistry(isClient: string -> bool, requiresApproval: string -> bool)

  /**
   What a runner is built with. Tool results are counted with the run's model, summaries with the counter's default
   one.
   */
  datatype Setting = Setting(
    config: RunnerConfig,
    registry: ToolRegistry,
    compactor: CompactorConfig,
    countResult: string -> nat,
    countSummary: string -> nat)

  /** What the world answers during one iteration of the loop. */
  datatype Step = Step(
    cancelled: bool,
    contextTokens: int,
    compactorLlm: nat -> Option<string>,
    folded: set<nat>,
    llm: LlmOutcome,
    structuredValid: bool,
    cancelledBeforeTool: nat -> bool,
    toolResult: nat -> string,
    decision: TurnDecision,
    timedOut: bool)

  /** How one iteration ends: a validation retry, another turn, the final answer, or a terminal status. */
  datatype TurnEnd =
    | Retry
    | NextTurn(message: string)
    | Answered
    | Ended(status: RunStatus)
    | Raised(status: RunStatus)

  datatype ToolsEnd = AllDone | StoppedForClient | CancelledMidway | FailedMidway

  const RETRY_MESSAGE: string := "Your previous response did not match the required output schema."

  /** The first calls of a response; a limit of nought or less is none. */
  function LimitToolCalls(toolCalls: seq<ToolCallRequest>, limit: int): (r: seq<ToolCallRequest>)
    ensures |r| <= |toolCalls| && forall k :: 0 <= k < |r| ==> r[k] == toolCalls[k]
    ensures limit > 0 ==> |r| <= limit
    ensures |r| < |toolCalls| ==> |r| == limit > 0
  {
    if limit <= 0 || |toolCalls| <= limit then toolCalls else toolCalls[..limit]
  }

  function RequestIds(toolCalls: seq<ToolCallRequest>): (ids: seq<string>)
    ensures |ids| == |toolCalls| && forall k :: 0 <= k < |ids| ==> ids[k] == toolCalls[k].id
  {
    seq(|toolCalls|, k requires 0 <= k < |toolCalls| => toolCalls[k].id)
  }

  predicate EndsWith(s: string, suffix: string) {
    |s| >= |suffix| && s[|s| - |suffix|..] == suffix
  }

  predicate IsElicitation(request: ToolCallRequest) {
    EndsWith(request.toolName, "request_user_input")
  }

  predicate Deferred(s: Setting, request: ToolCallRequest) {
    s.registry.isClient(request.toolName) || IsElicitation(request)
  }

  predicate HumanDue(s: Setting, runTurnIndex: nat) {
    s.config.humanInLoopAfterTurns.Some? && runTurnIndex + 1 >= s.config.humanInLoopAfterTurns.value
  }

  /** The end of a recorded turn: the hook's decision, then the human-in-the-loop limit, else `otherwise`. */
  function Decided(s: Setting, step: Step, runTurnIndex: nat, otherwise: TurnEnd): TurnEnd {
    if step.decision.Stop? then Ended(Interrupted)
    else if step.decision.Inject? && step.decision.message != "" then NextTurn(step.decision.message)
    else if HumanDue(s, runTurnIndex) then Ended(Paused)
    else otherwise
  }

  /** The smaller of the configured and the given limit. */
  function TurnLimit(s: Setting, maxTurns: Option<int>): (limit: int)
    ensures limit <= s.config.maxTurns && (maxTurns.Some? ==> limit <= maxTurns.value)
    ensures limit == s.config.maxTurns || maxTurns == Some(limit)
  {
    if maxTurns.Some? && maxTurns.value < s.config.maxTurns then maxTurns.value else s.config.maxTurns
  }

  // ---------- The tools of a turn ----------

  /** The context updates of a call that are acted on. */
  function Acted(s: Setting, request: ToolCallRequest): seq<RawUpdate> {
    if s.config.rcsEnabled then request.contextUpdates else []
  }

  function ActedAll(s: Setting, toolCalls: seq<ToolCallRequest>): seq<RawUpdate> {
    if toolCalls == [] then []
    else ActedAll(s, toolCalls[..|toolCalls| - 1]) + Acted(s, toolCalls[|toolCalls| - 1])
  }

  lemma ActedNext(s: Setting, toolCalls: seq<ToolCallRequest>, i: nat)
    requires i < |toolCalls|
    ensures ActedAll(s, toolCalls[..i + 1]) == ActedAll(s, toolCalls[..i]) + Acted(s, toolCalls[i])
  {
    assert toolCalls[..i + 1][..i] == toolCalls[..i];
  }

  /** What is recorded for a call that does not fail: its result, or nothing yet if it waits for the client. */
  function RecordFor(s: Setting, request: ToolCallRequest, tcIndex: nat, result: string): ToolCallRecord {
    var raw := if Deferred(s, request) then "" else result;
    var tokens := if Deferred(s, request) then 0 else s.countResult(result);
    ToolCallRecord(TcName(tcIndex), tcIndex, request.toolName, request.id, raw, None, None, tokens, None)
  }

  /** These records, numbered from `low` + 1, are those of the first calls; only the last may wait for the client. */
  ghost predicate RecordsFor(
    s: Setting, records: seq<ToolCallRecord>, toolCalls: seq<ToolCallRequest>, low: nat, step: Step)
  {
    && |records| <= |toolCalls|
    && forall j :: 0 <= j < |records| ==>
         && records[j] == RecordFor(s, toolCalls[j], low + j + 1, step.toolResult(j))
         && (j < |records| - 1 ==> !Deferred(s, toolCalls[j]))
  }

  lemma RecordsForMeans(
    s: Setting, records: seq<ToolCallRecord>, toolCalls: seq<ToolCallRequest>, low: nat, high: nat, step: Step)
    requires RecordsFor(s, records, toolCalls, low, step) && low + |records| <= high
    ensures WellNumbered(records, low, high)
    ensures forall j :: 0 <= j < |records| ==>
              records[j].callId == toolCalls[j].id && records[j].tokensSummarized.None?
  {
  }

  lemma RecordsForNext(
    s: Setting, records: seq<ToolCallRecord>, toolCalls: seq<ToolCallRequest>, low: nat, step: Step, r: ToolCallRecord)
    requires RecordsFor(s, records, toolCalls, low, step) && |records| < |toolCalls|
    requires forall j :: 0 <= j < |records| ==> !Deferred(s, toolCalls[j])
    requires r == RecordFor(s, toolCalls[|records|], low + |records| + 1, step.toolResult(|records|))
    ensures RecordsFor(s, records + [r], toolCalls, low, step)
  {
    hide RecordFor, Deferred;
  }

  /** A call that the loop gets past: not cancelled before it, and not one that needs approval. */
  predicate Passable(s: Setting, toolCalls: seq<ToolCallRequest>, step: Step, j: nat)
    requires j < |toolCalls|
  {
    !step.cancelledBeforeTool(j) && !s.registry.requiresApproval(toolCalls[j].toolName)
  }

  /** Why the calls of a turn stopped, and how many of them were taken up. */
  ghost predicate StopsRightly(
    s: Setting, toolCalls: seq<ToolCallRequest>, step: Step, recorded: nat, handled: nat, end: ToolsEnd)
  {
    && recorded <= |toolCalls|
    && (forall j :: 0 <= j < recorded ==> Passable(s, toolCalls, step, j))
    && (forall j :: 0 <= j < recorded && (end != StoppedForClient || j < recorded - 1) ==> !Deferred(s, toolCalls[j]))
    && match end
       case AllDone => recorded == handled == |toolCalls|
       case StoppedForClient => 0 < recorded == handled && Deferred(s, toolCalls[recorded - 1])
       case CancelledMidway => recorded == handled < |toolCalls| && step.cancelledBeforeTool(handled)
       case FailedMidway =>
         && recorded + 1 == handled <= |toolCalls| && !step.cancelledBeforeTool(recorded)
         && s.registry.requiresApproval(toolCalls[recorded].toolName)
  }

  /** What the tools of a turn left: their records, how many calls were taken up, and the session's turns and credits. */
  datatype ToolsDone = ToolsDone(
    records: seq<ToolCallRecord>,
    handled: nat,
    end: ToolsEnd,
    saved: nat,
    turns: seq<TurnRecord>,
    credit: map<nat, nat>)

  ghost predicate ToolsOk(
    s: Setting, before: seq<TurnRecord>, credit: map<nat, nat>, toolCalls: seq<ToolCallRequest>, step: Step,
    turnIndex: nat, low: nat, done: ToolsDone)
  {
    && RecordsFor(s, done.records, toolCalls, low, step)
    && StopsRightly(s, toolCalls, step, |done.records|, done.handled, done.end)
    && done.handled <= |toolCalls|
    && var acted := ActedAll(s, toolCalls[..done.handled]);
       && Intercepted(before, credit, acted, turnIndex, s.countSummary, done.turns, done.credit)
       && done.saved == InterceptorSavings(before, acted, s.countSummary)
  }

  // ---------- Before the model call ----------

  predicate Triggered(s: Setting, turns: seq<TurnRecord>, contextTokens: int) {
    && s.compactor.enabled
    && contextTokens >= s.compactor.triggerTokenThreshold
    && Unsummarized(turns) != []
  }

  function PassTargets(s: Setting, turns: seq<TurnRecord>, step: Step): seq<ToolCallRecord> {
    if Triggered(s, turns, step.contextTokens) then CompactorTargets(turns, s.compactor.compactOldestNTcs) else []
  }

  /**
   The session's turns and credits at the model call: after compaction, which saved this much, and after what was
   folded away.
   */
  datatype Preparation = Preparation(
    saved: nat, compacted: seq<TurnRecord>, ready: seq<TurnRecord>, credit: map<nat, nat>)

  /** What happens to the recorded turns before a model call. */
  ghost predicate Prepared(
    s: Setting, before: seq<TurnRecord>, credit: map<nat, nat>, step: Step, turnIndex: nat, p: Preparation)
  {
    && CompactedTo(before, credit, PassTargets(s, before, step), step.compactorLlm, turnIndex, s.countSummary,
                   p.compacted, p.credit)
    && p.saved == CompactorSavings(before, PassTargets(s, before, step), step.compactorLlm, s.countSummary)
    && p.ready == Unfolded(p.compacted, step.folded)
  }

  // ---------- One iteration ----------

  function Calls(s: Setting, step: Step): seq<ToolCallRequest> {
    if step.llm.LlmResponse? then LimitToolCalls(step.llm.toolCalls, s.config.maxToolCallsPerTurn) else []
  }

  /** A response that should be a structured result and is not. */
  predicate Invalid(s: Setting, step: Step) {
    step.llm.LlmResponse? && Calls(s, step) == [] && s.config.hasResultType && !step.structuredValid
  }

  /** A response that is the run's answer. */
  predicate Answers(s: Setting, step: Step) {
    step.llm.LlmResponse? && Calls(s, step) == [] && s.config.stopOnEmptyToolCalls && !Invalid(s, step)
  }

  /** Any other response: its tools are run, if it has any. */
  predicate RunsTools(s: Setting, step: Step) {
    step.llm.LlmResponse? && !Invalid(s, step) && !Answers(s, step)
  }

  /** Where a run is before an iteration: the loop's variables, the session's counter and its books. */
  datatype Position = Position(
    message: string,
    turnIndex: nat,
    runTurnIndex: nat,
    retries: nat,
    counter: nat,
    books: Books)

  datatype Iteration = Iteration(
    at: Position,
    step: Step,
    p: Preparation,
    tools: ToolsDone,
    finish: Books,
    end: TurnEnd,
    retriesLeft: nat)

  function NoTools(p: Preparation): ToolsDone {
    ToolsDone([], 0, AllDone, 0, p.ready, p.credit)
  }

  function UserMessageAt(at: Position): Option<string> {
    if at.runTurnIndex == 0 then Some(at.message) else None
  }

  function AnswerRecord(turnIndex: nat, userMessage: Option<string>, content: Option<string>): TurnRecord {
    TurnRecord(turnIndex, userMessage, [BuildAssistant(content, [])], [], 0, TurnCompleted)
  }

  /** The record of a turn with tools: the savings of both writers are booked on it. */
  function ToolRecord(
    turnIndex: nat, userMessage: Option<string>, content: Option<string>, toolCalls: seq<ToolCallRequest>, saved: nat,
    records: seq<ToolCallRecord>, end: ToolsEnd): TurnRecord
  {
    TurnRecord(turnIndex, userMessage, [BuildAssistant(content, RequestIds(toolCalls))], records, saved,
               if end == StoppedForClient then TurnPaused else TurnCompleted)
  }

  predicate BooksTurn(s: Setting, step: Step, end: ToolsEnd) {
    RunsTools(s, step) && (end == AllDone || end == StoppedForClient)
  }

  /** The turn that an iteration records, if it records one. */
  function TurnFor(
    s: Setting, step: Step, turnIndex: nat, userMessage: Option<string>, compactorSaved: nat, done: ToolsDone)
    : Option<TurnRecord>
  {
    if Answers(s, step) then Some(AnswerRecord(turnIndex, userMessage, step.llm.content))
    else if BooksTurn(s, step, done.end) then
      Some(ToolRecord(turnIndex, userMessage, step.llm.content, Calls(s, step), compactorSaved + done.saved,
                      done.records, done.end))
    else None
  }

  function EndFor(
    s: Setting, step: Step, message: string, runTurnIndex: nat, retries: nat, toolsEnd: ToolsEnd): TurnEnd
  {
    if step.llm.LlmFailed? then Raised(Error)
    else if step.llm.LlmCancelled? then Raised(Interrupted)
    else if Invalid(s, step) then if retries > 0 then Retry else Raised(Error)
    else if Answers(s, step) then Decided(s, step, runTurnIndex, Answered)
    else
      match toolsEnd
      case CancelledMidway => Raised(Interrupted)
      case FailedMidway => Raised(Error)
      case StoppedForClient => Ended(Paused)
      case AllDone =>
        Decided(s, step, runTurnIndex, if step.timedOut then Raised(Error) else NextTurn(message))
  }

  /** A valid structured result gives the retries back. */
  function RetriesAfter(s: Setting, step: Step, retries: nat): nat {
    if Invalid(s, step) then if retries > 0 then retries - 1 else 0
    else if step.llm.LlmResponse? && Calls(s, step) == [] && s.config.hasResultType
    then s.config.structuredOutputMaxRetries
    else retries
  }

  predicate Booked(s: Setting, it: Iteration) {
    BooksTurn(s, it.step, it.tools.end)
  }

  function TurnOf(s: Setting, it: Iteration): Option<TurnRecord> {
    TurnFor(s, it.step, it.at.turnIndex, UserMessageAt(it.at), it.p.saved, it.tools)
  }

  function EndOf(s: Setting, it: Iteration): TurnEnd {
    EndFor(s, it.step, it.at.message, it.at.runTurnIndex, it.at.retries, it.tools.end)
  }

  function OneTurn(turn: Option<TurnRecord>): seq<TurnRecord> {
    if turn.Some? then [turn.value] else []
  }

  ghost predicate CreditUpTo(credit: map<nat, nat>, counter: nat) {
    forall x :: x in credit ==> x <= counter
  }

  /** The books after an iteration. */
  ghost predicate BooksAfter(s: Setting, it: Iteration) {
    var start := it.at.books;
    && it.finish.turns == it.tools.turns + OneTurn(TurnOf(s, it))
    && it.finish.credit == it.tools.credit
    && it.finish.total == start.total + it.p.saved + it.tools.saved
    && it.finish.away == start.away
                         + SumTurns(it.p.compacted, CreditOf(it.p.credit)) - SumTurns(it.p.ready, CreditOf(it.p.credit))
    && it.finish.counter == (if TurnOf(s, it).Some? then it.at.counter + it.tools.handled else start.counter)
    && start.counter <= it.at.counter
    && CreditUpTo(it.p.credit, start.counter) && CreditUpTo(it.tools.credit, start.counter)
  }

  /** One iteration of the loop below the cancellation check, with its single model call. */
  ghost predicate IterationOk(s: Setting, it: Iteration) {
    && Prepared(s, it.at.books.turns, it.at.books.credit, it.step, it.at.turnIndex, it.p)
    && (if RunsTools(s, it.step)
        then ToolsOk(s, it.p.ready, it.p.credit, Calls(s, it.step), it.step, it.at.turnIndex, it.at.counter, it.tools)
        else it.tools == NoTools(it.p))
    && it.end == EndOf(s, it)
    && it.retriesLeft == RetriesAfter(s, it.step, it.at.retries)
    && BooksAfter(s, it)
  }

  /** What an iteration reports as saved. */
  function ReportedIn(it: Iteration): nat {
    it.p.saved + it.tools.saved
  }

  /** What an iteration adds to the savings that are booked on no recorded turn. */
  function Leftover(s: Setting, it: Iteration): int {
    TurnSavings(it.p.compacted) - TurnSavings(it.p.ready) + if Booked(s, it) then 0 else ReportedIn(it)
  }

  /** The updates that an iteration acts on. */
  function ActedIn(s: Setting, it: Iteration): seq<RawUpdate> {
    if RunsTools(s, it.step) && it.tools.handled <= |Calls(s, it.step)|
    then ActedAll(s, Calls(s, it.step)[..it.tools.handled]) else []
  }

  lemma NothingIntercepted(turns: seq<TurnRecord>, credit: map<nat, nat>, turnIndex: nat, count: string -> nat)
    ensures Intercepted(turns, credit, [], turnIndex, count, turns, credit)
    ensures InterceptorSavings(turns, [], count) == 0
  {
    InterceptNothing(turns, credit, turnIndex, count);
    NoughtEverywhere(turns, r => InterceptorSaving(r, [], count));
  }

  lemma NothingCompacted(
    turns: seq<TurnRecord>, credit: map<nat, nat>, llm: nat -> Option<string>, turnIndex: nat, count: string -> nat)
    ensures CompactedTo(turns, credit, [], llm, turnIndex, count, turns, credit)
    ensures CompactorSavings(turns, [], llm, count) == 0
  {
    CompactNothing(turns, credit, llm, turnIndex, count);
    NoughtEverywhere(turns, r => CompactorSaving(r, [], llm, count));
  }

  lemma {:induction false} UnfoldNothing(turns: seq<TurnRecord>)
    ensures Unfolded(turns, {}) == turns
  {
    if turns != [] {
      hide *;
      var n := |turns| - 1;
      UnfoldedLast(turns, {});
      UnfoldNothing(turns[..n]);
      assert turns == turns[..n] + [turns[n]];
    }
  }

  /** The tools of an iteration, whether it ran any or not. */
  lemma IterationTools(s: Setting, it: Iteration)
    requires IterationOk(s, it)
    ensures RecordsFor(s, it.tools.records, Calls(s, it.step), it.at.counter, it.step)
    ensures |it.tools.records| <= it.tools.handled <= |Calls(s, it.step)|
    ensures Booked(s, it) ==> |it.tools.records| == it.tools.handled
    ensures Answers(s, it.step) ==> it.tools.handled == 0
    ensures Intercepted(it.p.ready, it.p.credit, ActedIn(s, it), it.at.turnIndex, s.countSummary, it.tools.turns,
                        it.tools.credit)
    ensures it.tools.saved == InterceptorSavings(it.p.ready, ActedIn(s, it), s.countSummary)
  {
    NothingIntercepted(it.p.ready, it.p.credit, it.at.turnIndex, s.countSummary);
    hide Prepared, RecordFor, Intercepted, InterceptorSavings, ActedAll, BooksAfter, Deferred;
  }

  // ---------- Runs as chains of iterations ----------

  /** Where the loop is after an iteration. */
  function After(it: Iteration): Position {
    var at := it.at.(counter := it.at.counter + it.tools.handled, books := it.finish, retries := it.retriesLeft);
    match it.end
    case Retry => at.(message := RETRY_MESSAGE)
    case NextTurn(message) => at.(message := message, turnIndex := at.turnIndex + 1, runTurnIndex := at.runTurnIndex + 1)
    case Answered => at.(turnIndex := at.turnIndex + 1, runTurnIndex := at.runTurnIndex + 1)
    case _ => at
  }

  function Final(start: Position, trace: seq<Iteration>): Position {
    if trace == [] then start else After(trace[|trace| - 1])
  }

  /** The loop goes on after these iterations, if it is neither at its limit nor cancelled. */
  predicate GoesOn(trace: seq<Iteration>) {
    trace == [] || trace[|trace| - 1].end.Retry? || trace[|trace| - 1].end.NextTurn?
  }

  /** The iterations of a run: each one starts where the one before left off, and is one the script allows. */
  ghost predicate RunOf(s: Setting, env: nat -> Step, limit: int, start: Position, trace: seq<Iteration>) {
    forall k :: 0 <= k < |trace| ==>
      && IterationOk(s, trace[k])
      && trace[k].step == env(k) && !env(k).cancelled
      && trace[k].at == Final(start, trace[..k]) && trace[k].at.runTurnIndex < limit
      && GoesOn(trace[..k])
  }

  /** The status of a run whose loop has come to its end. */
  function Verdict(start: Position, trace: seq<Iteration>, limit: int): RunStatus {
    if trace != [] && trace[|trace| - 1].end.Raised? then trace[|trace| - 1].end.status
    else if Final(start, trace).runTurnIndex >= limit then MaxTurnsReached
    else if trace != [] && trace[|trace| - 1].end.Ended? then trace[|trace| - 1].end.status
    else if GoesOn(trace) then Interrupted
    else Completed
  }

  /** These iterations are the whole run: the loop stops here, with this status. */
  ghost predicate WholeRun(
    s: Setting, env: nat -> Step, limit: int, start: Position, trace: seq<Iteration>, status: RunStatus)
  {
    && RunOf(s, env, limit, start, trace)
    && (GoesOn(trace) ==> Final(start, trace).runTurnIndex >= limit || env(|trace|).cancelled)
    && status == Verdict(start, trace, limit)
  }

  lemma WholeIsRun(
    s: Setting, env: nat -> Step, limit: int, start: Position, trace: seq<Iteration>, status: RunStatus)
    requires WholeRun(s, env, limit, start, trace, status)
    ensures RunOf(s, env, limit, start, trace)
  {
  }

  lemma RunPrefix(s: Setting, env: nat -> Step, limit: int, start: Position, trace: seq<Iteration>)
    requires RunOf(s, env, limit, start, trace) && trace != []
    ensures
      var n := |trace| - 1;
      && RunOf(s, env, limit, start, trace[..n]) && GoesOn(trace[..n])
      && IterationOk(s, trace[n]) && trace[n].step == env(n) && trace[n].at == Final(start, trace[..n])
      && trace[n].at.runTurnIndex < limit
  {
    hide IterationOk, Final, GoesOn;
    var n := |trace| - 1;
    forall k | 0 <= k < n
      ensures trace[..n][k] == trace[k] && trace[..n][..k] == trace[..k]
    {
    }
  }

  lemma OnlyTheLastStops(
    s: Setting, env: nat -> Step, limit: int, start: Position, trace: seq<Iteration>, k: nat)
    requires RunOf(s, env, limit, start, trace) && k < |trace|
    ensures trace[k].end.Retry? || trace[k].end.NextTurn? || k == |trace| - 1
  {
    hide IterationOk, Final;
    if k + 1 < |trace| {
      assert GoesOn(trace[..k + 1]) && trace[..k + 1][k] == trace[k];
    }
  }

  lemma RunExtends(
    s: Setting, env: nat -> Step, limit: int, start: Position, trace: seq<Iteration>, it: Iteration)
    requires RunOf(s, env, limit, start, trace) && GoesOn(trace)
    requires IterationOk(s, it) && it.step == env(|trace|) && !env(|trace|).cancelled
    requires it.at == Final(start, trace) && it.at.runTurnIndex < limit
    ensures RunOf(s, env, limit, start, trace + [it])
  {
    hide IterationOk, Final, GoesOn;
    var all := trace + [it];
    assert all[..|trace|] == trace;
    forall k | 0 <= k < |trace|
      ensures all[k] == trace[k] && all[..k] == trace[..k]
    {
    }
  }

  lemma RunNothing(s: Setting, env: nat -> Step, limit: int, start: Position)
    ensures RunOf(s, env, limit, start, [])
  {
  }

  // ---------- How long a run is and how it ends ----------

  function Positive(limit: int): nat {
    if limit > 0 then limit else 0
  }

  lemma MoreTurns(turns: nat, limit: nat, perTurn: nat)
    requires turns <= limit
    ensures turns * perTurn <= limit * perTurn
    ensures (turns + 1) * perTurn == turns * perTurn + perTurn
  {
    assert limit * perTurn == turns * perTurn + (limit - turns) * perTurn;
  }

  lemma EndIs(s: Setting, it: Iteration)
    requires IterationOk(s, it)
    ensures it.end == EndOf(s, it) && it.retriesLeft == RetriesAfter(s, it.step, it.at.retries)
  {
    hide Prepared, ToolsOk, EndFor, RetriesAfter, BooksAfter, RunsTools;
  }

  lemma PreparedIs(s: Setting, it: Iteration)
    requires IterationOk(s, it)
    ensures Prepared(s, it.at.books.turns, it.at.books.credit, it.step, it.at.turnIndex, it.p)
  {
    hide Prepared, ToolsOk, EndFor, RetriesAfter, BooksAfter, RunsTools;
  }

  /** What a retry means. */
  lemma RetryMeans(s: Setting, it: Iteration)
    requires IterationOk(s, it)
    ensures it.end.Retry? ==> Invalid(s, it.step) && it.at.retries > 0
  {
    hide IterationOk, Invalid, Calls;
    EndIs(s, it);
  }

  lemma IterationMoves(s: Setting, it: Iteration)
    requires IterationOk(s, it)
    ensures it.at.retries <= s.config.structuredOutputMaxRetries ==>
              it.retriesLeft <= s.config.structuredOutputMaxRetries
    ensures it.end.Retry? ==> it.at.retries > 0 && it.retriesLeft == it.at.retries - 1
  {
    hide IterationOk, Calls;
    EndIs(s, it);
  }

  lemma {:induction false} RunCounts(
    s: Setting, env: nat -> Step, limit: int, start: Position, trace: seq<Iteration>)
    requires RunOf(s, env, limit, start, trace) && Starts(s, start)
    ensures
      var now, most := Final(start, trace), s.config.structuredOutputMaxRetries;
      && now.retries <= most && now.runTurnIndex <= Positive(limit)
      && |trace| <= Positive(limit) * (most + 1)
      && (GoesOn(trace) ==> |trace| + now.retries <= now.runTurnIndex * (most + 1) + most)
    decreases |trace|
  {
    hide RunOf, IterationOk;
    var most := s.config.structuredOutputMaxRetries;
    MoreTurns(0, Positive(limit), most + 1);
    if trace != [] {
      var n := |trace| - 1;
      RunPrefix(s, env, limit, start, trace);
      RunCounts(s, env, limit, start, trace[..n]);
      IterationMoves(s, trace[n]);
      var turns := trace[n].at.runTurnIndex;
      MoreTurns(turns + 1, Positive(limit), most + 1);
      MoreTurns(turns, Positive(limit), most + 1);
    }
  }

  /** The status says why the loop stopped; the limit wins over an answer on the last allowed turn. */
  lemma VerdictMeans(
    s: Setting, env: nat -> Step, limit: int, start: Position, trace: seq<Iteration>, status: RunStatus)
    requires WholeRun(s, env, limit, start, trace, status) && Starts(s, start)
    ensures
      var used := Final(start, trace).runTurnIndex;
      && (status == MaxTurnsReached <==> used >= limit)
      && (status == Completed <==> trace != [] && trace[|trace| - 1].end.Answered? && used < limit)
      && (status == Paused <==> trace != [] && trace[|trace| - 1].end == Ended(Paused))
      && (status == Error <==> trace != [] && trace[|trace| - 1].end == Raised(Error))
      && (status == Interrupted <==>
            || (trace != [] && trace[|trace| - 1].end in {Raised(Interrupted), Ended(Interrupted)})
            || (GoesOn(trace) && env(|trace|).cancelled && used < limit))
  {
    hide RunOf, IterationOk;
    if trace != [] {
      RunPrefix(s, env, limit, start, trace);
      EndsRecord(s, trace[|trace| - 1]);
      StatusOfEnd(s, trace[|trace| - 1]);
    }
  }

  lemma StatusOfEnd(s: Setting, it: Iteration)
    requires IterationOk(s, it)
    ensures it.end.Ended? ==> it.end.status == Interrupted || it.end.status == Paused
    ensures it.end.Raised? ==> it.end.status == Interrupted || it.end.status == Error
  {
    hide IterationOk, Calls;
    EndIs(s, it);
  }

  // ---------- What happens to the recorded turns ----------

  lemma PreparedHeirs(
    s: Setting, before: seq<TurnRecord>, credit: map<nat, nat>, step: Step, turnIndex: nat, p: Preparation)
    requires Prepared(s, before, credit, step, turnIndex, p)
    ensures Heirs(before, p.compacted) && p.ready == Unfolded(p.compacted, step.folded)
    ensures step.folded == {} ==> p.ready == p.compacted
  {
    CompactedHeirs(before, credit, PassTargets(s, before, step), step.compactorLlm, turnIndex, s.countSummary,
                   p.compacted, p.credit);
    UnfoldNothing(p.compacted);
  }

  lemma ToolsHeirs(s: Setting, it: Iteration)
    requires IterationOk(s, it)
    ensures Heirs(it.p.ready, it.tools.turns) && |it.p.ready| == |it.tools.turns|
  {
    hide Intercepted, Heirs;
    IterationTools(s, it);
    InterceptedHeirs(it.p.ready, it.p.credit, ActedIn(s, it), it.at.turnIndex, s.countSummary, it.tools.turns,
                     it.tools.credit);
    SameLength(it.p.ready, it.tools.turns);
  }

  lemma TurnIsFresh(s: Setting, it: Iteration)
    requires IterationOk(s, it) && TurnOf(s, it).Some?
    ensures Fresh(TurnOf(s, it).value, it.at.counter, it.at.counter + it.tools.handled)
    ensures forall j :: 0 <= j < |TurnOf(s, it).value.toolCalls| ==>
              TurnOf(s, it).value.toolCalls[j].tokensSummarized.None?
  {
    hide IterationOk, BuildAssistant, RecordsFor, Intercepted, InterceptorSavings, ActedIn, Calls;
    IterationTools(s, it);
    var t := TurnOf(s, it).value;
    RecordsForMeans(s, it.tools.records, Calls(s, it.step), it.at.counter, it.at.counter + it.tools.handled, it.step);
    assert AnswersItsRequests(t) by {
      MessageAsks(it.step.llm.content, RequestIds(Calls(s, it.step)));
      MessageAsks(it.step.llm.content, []);
    }
  }

  lemma MessageAsks(content: Option<string>, ids: seq<string>)
    ensures BuildAssistant(content, ids).Assistant? && BuildAssistant(content, ids).callIds == ids
  {
  }

  /** An iteration leaves only turns that were there before, up to summaries, and the one it records. */
  lemma IterationDescends(s: Setting, it: Iteration, base: seq<TurnRecord>, low: nat)
    requires IterationOk(s, it) && low <= it.at.counter
    requires Descends(base, low, it.at.books.turns, it.at.counter)
    ensures Descends(base, low, it.finish.turns, it.at.counter + it.tools.handled)
  {
    PreparedHeirs(s, it.at.books.turns, it.at.books.credit, it.step, it.at.turnIndex, it.p);
    ToolsHeirs(s, it);
    if TurnOf(s, it).Some? { TurnIsFresh(s, it); }
    assert it.finish.turns == it.tools.turns + OneTurn(TurnOf(s, it));
    hide *;
    var counter, high := it.at.counter, it.at.counter + it.tools.handled;
    DescendsHeirs(base, low, it.at.books.turns, it.p.compacted, counter);
    DescendsFold(base, low, it.p.compacted, it.step.folded, counter);
    DescendsHeirs(base, low, it.p.ready, it.tools.turns, counter);
    FinishDescends(s, it, base, low);
  }

  lemma FinishDescends(s: Setting, it: Iteration, base: seq<TurnRecord>, low: nat)
    requires it.finish.turns == it.tools.turns + OneTurn(TurnOf(s, it)) && low <= it.at.counter
    requires Descends(base, low, it.tools.turns, it.at.counter)
    requires TurnOf(s, it).Some? ==>
               Fresh(TurnOf(s, it).value, it.at.counter, it.at.counter + it.tools.handled)
    ensures Descends(base, low, it.finish.turns, it.at.counter + it.tools.handled)
  {
    hide Descends, Fresh, TurnOf;
    var counter, high := it.at.counter, it.at.counter + it.tools.handled;
    if TurnOf(s, it).Some? {
      DescendsAppend(base, low, it.tools.turns, counter, TurnOf(s, it).value, counter, high);
    } else {
      DescendsWider(base, low, it.tools.turns, counter, high);
      assert it.finish.turns == it.tools.turns;
    }
  }

  /** A run leaves only turns that were there before, up to summaries, and turns with numbers never given out before. */
  lemma {:induction false} RunDescends(
    s: Setting, env: nat -> Step, limit: int, start: Position, trace: seq<Iteration>)
    requires RunOf(s, env, limit, start, trace)
    ensures start.counter <= Final(start, trace).counter
    ensures Descends(start.books.turns, start.counter, Final(start, trace).books.turns, Final(start, trace).counter)
    decreases |trace|
  {
    hide Descends, IterationOk, RunOf;
    if trace == [] {
      DescendsRefl(start.books.turns, start.counter, start.counter);
    } else {
      var n := |trace| - 1;
      RunPrefix(s, env, limit, start, trace);
      RunDescends(s, env, limit, start, trace[..n]);
      IterationDescends(s, trace[n], start.books.turns, start.counter);
    }
  }

  // ---------- The shape of a run without folds ----------

  ghost predicate NoFold(env: nat -> Step) {
    forall k :: env(k).folded == {}
  }

  /** The message recorded with a run's first turn: the retry prompt, if the first response failed validation. */
  function FirstMessage(s: Setting, env: nat -> Step, message: string): string {
    if Invalid(s, env(0)) && s.config.structuredOutputMaxRetries > 0 then RETRY_MESSAGE else message
  }

  /** Where a run starts. */
  function StartOf(s: Setting, message: string, counter: nat, books: Books): Position {
    Position(message, |books.turns|, 0, s.config.structuredOutputMaxRetries, counter, books)
  }

  ghost predicate Starts(s: Setting, start: Position) {
    && start.runTurnIndex == 0 && start.turnIndex == |start.books.turns|
    && start.retries == s.config.structuredOutputMaxRetries
  }

  /** Until the first turn ends, the loop's message is the user's only before the first retry. */
  lemma {:induction false} FirstTurnMessage(
    s: Setting, env: nat -> Step, limit: int, start: Position, trace: seq<Iteration>)
    requires RunOf(s, env, limit, start, trace) && Starts(s, start)
    ensures
      var now := Final(start, trace);
      GoesOn(trace) && now.runTurnIndex == 0 ==>
        && now.message == (if trace == [] then start.message else RETRY_MESSAGE)
        && (trace != [] ==> Invalid(s, env(0)) && s.config.structuredOutputMaxRetries > 0)
    decreases |trace|
  {
    hide RunOf, IterationOk, Invalid;
    if trace != [] {
      var n := |trace| - 1;
      RunPrefix(s, env, limit, start, trace);
      FirstTurnMessage(s, env, limit, start, trace[..n]);
      RetryMeans(s, trace[n]);
      assert n == 0 <==> trace[..n] == [];
    }
  }

  /** Whether in the first turn's iteration or later, the user message on the turn recorded is the one of the run. */
  lemma RecordedMessage(
    s: Setting, env: nat -> Step, limit: int, start: Position, trace: seq<Iteration>)
    requires RunOf(s, env, limit, start, trace) && Starts(s, start) && trace != []
    requires TurnOf(s, trace[|trace| - 1]).Some?
    ensures
      var at := trace[|trace| - 1].at;
      TurnOf(s, trace[|trace| - 1]).value.userMessage
      == if at.runTurnIndex == 0 then Some(FirstMessage(s, env, start.message)) else None
  {
    hide RunOf, IterationOk, Invalid, TurnOf;
    var n := |trace| - 1;
    RunPrefix(s, env, limit, start, trace);
    FirstTurnMessage(s, env, limit, start, trace[..n]);
    assert trace[..n] == [] <==> n == 0;
    RecordedIsValid(s, trace[n]);
  }

  lemma RecordedIsValid(s: Setting, it: Iteration)
    requires TurnOf(s, it).Some?
    ensures !Invalid(s, it.step) && TurnOf(s, it).value.userMessage == UserMessageAt(it.at)
  {
  }

  lemma FinishTurns(s: Setting, it: Iteration)
    requires IterationOk(s, it)
    ensures it.finish.turns == it.tools.turns + OneTurn(TurnOf(s, it))
    ensures TurnOf(s, it).Some? ==> TurnOf(s, it).value.turnIndex == it.at.turnIndex
    ensures it.finish.total == it.at.books.total + ReportedIn(it)
  {
    hide Calls, Answers, Booked, Prepared, ToolsOk, EndOf, RetriesAfter;
  }

  /** What an iteration adds when nothing is folded. */
  lemma IterationShape(
    s: Setting, it: Iteration, before: seq<TurnRecord>, first: string, n: nat)
    requires IterationOk(s, it) && it.step.folded == {}
    requires RunShape(before, it.at.books.turns, n, first) && it.at.turnIndex == |before| + n
    requires TurnOf(s, it).Some? ==>
               TurnOf(s, it).value.userMessage == if n == 0 then Some(first) else None
    ensures RunShape(before, it.finish.turns, n + |OneTurn(TurnOf(s, it))|, first)
  {
    hide *;
    PreparedIs(s, it);
    PreparedHeirs(s, it.at.books.turns, it.at.books.credit, it.step, it.at.turnIndex, it.p);
    ToolsHeirs(s, it);
    FinishTurns(s, it);
    RunShapeHeirs(before, it.at.books.turns, it.p.ready, n, first);
    RunShapeHeirs(before, it.p.ready, it.tools.turns, n, first);
    OneTurnIs(TurnOf(s, it));
    if TurnOf(s, it).Some? {
      RunShapeAdds(before, it.tools.turns, TurnOf(s, it).value, n, first);
    } else {
      assert it.finish.turns == it.tools.turns;
    }
  }

  lemma OneTurnIs(turn: Option<TurnRecord>)
    ensures OneTurn(turn) == if turn.Some? then [turn.value] else []
  {
  }

  /** How many turns a run has recorded: those it counts, and one that paused or failed after it was recorded. */
  function TurnsRecorded(s: Setting, start: Position, trace: seq<Iteration>): nat {
    Final(start, trace).runTurnIndex
    + if trace != [] && (trace[|trace| - 1].end.Ended? || trace[|trace| - 1].end.Raised?)
         && TurnOf(s, trace[|trace| - 1]).Some? then 1 else 0
  }

  /** Which ends go with a recorded turn. */
  lemma EndsRecord(s: Setting, it: Iteration)
    requires IterationOk(s, it)
    ensures it.end.Retry? ==> TurnOf(s, it).None?
    ensures it.end.NextTurn? || it.end.Answered? || it.end.Ended? ==> TurnOf(s, it).Some?
    ensures it.end.Ended? ==> it.end.status == Interrupted || it.end.status == Paused
    ensures it.end.Raised? ==> it.end.status == Interrupted || it.end.status == Error
  {
    hide IterationOk, Calls, Invalid, AnswerRecord, ToolRecord;
    EndIs(s, it);
  }

  /** Without folds the recorded turns of a run carry their places, and its first one alone a user message. */
  lemma {:induction false} RunHasShape(
    s: Setting, env: nat -> Step, limit: int, start: Position, trace: seq<Iteration>)
    requires RunOf(s, env, limit, start, trace) && Starts(s, start) && NoFold(env)
    ensures
      var now := Final(start, trace);
      && now.turnIndex == |start.books.turns| + now.runTurnIndex
      && RunShape(start.books.turns, now.books.turns, TurnsRecorded(s, start, trace),
                  FirstMessage(s, env, start.message))
    decreases |trace|
  {
    hide RunOf, IterationOk, RunShape, FirstMessage, TurnOf;
    var first := FirstMessage(s, env, start.message);
    if trace == [] {
      RunShapeStart(start.books.turns, first);
    } else {
      var n := |trace| - 1;
      RunPrefix(s, env, limit, start, trace);
      RunHasShape(s, env, limit, start, trace[..n]);
      if TurnOf(s, trace[n]).Some? { RecordedMessage(s, env, limit, start, trace); }
      EndsRecord(s, trace[n]);
      IterationShape(s, trace[n], start.books.turns, first, trace[n].at.runTurnIndex);
    }
  }

  // ---------- Savings over a run ----------

  function SumReportedIn(trace: seq<Iteration>): nat {
    if trace == [] then 0 else SumReportedIn(trace[..|trace| - 1]) + ReportedIn(trace[|trace| - 1])
  }

  function SumLeftover(s: Setting, trace: seq<Iteration>): int {
    if trace == [] then 0 else SumLeftover(s, trace[..|trace| - 1]) + Leftover(s, trace[|trace| - 1])
  }

  lemma LeftoverOfNothing(s: Setting)
    ensures SumLeftover(s, []) == 0
  {
  }

  lemma LeftoverExtends(s: Setting, trace: seq<Iteration>, it: Iteration)
    ensures SumLeftover(s, trace + [it]) == SumLeftover(s, trace) + Leftover(s, it)
  {
    assert (trace + [it])[..|trace|] == trace;
  }

  /** The total grows by what the iterations report. */
  lemma {:induction false} RunTotal(
    s: Setting, env: nat -> Step, limit: int, start: Position, trace: seq<Iteration>)
    requires RunOf(s, env, limit, start, trace)
    ensures Final(start, trace).books.total == start.books.total + SumReportedIn(trace)
    decreases |trace|
  {
    hide RunOf, IterationOk, ReportedIn;
    if trace != [] {
      var n := |trace| - 1;
      RunPrefix(s, env, limit, start, trace);
      RunTotal(s, env, limit, start, trace[..n]);
      FinishTurns(s, trace[n]);
    }
  }

  /** The savings booked on the turns that an iteration folds away. */
  function FoldedSavings(turns: seq<TurnRecord>, folded: set<nat>): nat {
    if turns == [] then 0
    else
      var n := |turns| - 1;
      FoldedSavings(turns[..n], folded) + if turns[n].turnIndex in folded then turns[n].tokensSavedThisTurn else 0
  }

  lemma {:induction false} FoldedSavingsGo(turns: seq<TurnRecord>, folded: set<nat>)
    ensures TurnSavings(turns) == TurnSavings(Unfolded(turns, folded)) + FoldedSavings(turns, folded)
  {
    if turns != [] {
      var n := |turns| - 1;
      FoldedSavingsGo(turns[..n], folded);
      var rest := Unfolded(turns[..n], folded);
      assert (rest + [turns[n]])[..|rest|] == rest;
    }
  }

  lemma {:induction false} FoldedSavingsNought(turns: seq<TurnRecord>, folded: set<nat>)
    ensures FoldedSavings(turns, folded) == 0 <==>
            forall t :: t in turns && t.turnIndex in folded ==> t.tokensSavedThisTurn == 0
  {
    if turns != [] {
      var n := |turns| - 1;
      FoldedSavingsNought(turns[..n], folded);
      assert turns == turns[..n] + [turns[n]];
    }
  }

  /** Neither writer has anything to save: no summary on offer is shorter than what it replaces. */
  ghost predicate SavesNothing(s: Setting, it: Iteration) {
    && CompactorShortensNone(it.at.books.turns, PassTargets(s, it.at.books.turns, it.step), it.step.compactorLlm,
                             s.countSummary)
    && UpdatesShortenNone(it.p.ready, ActedIn(s, it), s.countSummary)
  }

  lemma NothingReported(s: Setting, it: Iteration)
    requires IterationOk(s, it)
    ensures ReportedIn(it) == 0 <==> SavesNothing(s, it)
  {
    hide Triggered, CompactorTargets, ActedIn, CompactorShortensNone, UpdatesShortenNone;
    IterationTools(s, it);
    var targets := PassTargets(s, it.at.books.turns, it.step);
    assert it.p.saved == CompactorSavings(it.at.books.turns, targets, it.step.compactorLlm, s.countSummary);
    hide *;
    CompactorSavesNothing(it.at.books.turns, targets, it.step.compactorLlm, s.countSummary);
    InterceptorSavesNothing(it.p.ready, ActedIn(s, it), s.countSummary);
    NothingReportedMeans(s, it);
  }

  lemma NothingReportedMeans(s: Setting, it: Iteration)
    ensures ReportedIn(it) == 0 <==> it.p.saved == 0 && it.tools.saved == 0
    ensures SavesNothing(s, it)
            <==> && CompactorShortensNone(it.at.books.turns, PassTargets(s, it.at.books.turns, it.step),
                                          it.step.compactorLlm, s.countSummary)
                 && UpdatesShortenNone(it.p.ready, ActedIn(s, it), s.countSummary)
  {
    hide CompactorShortensNone, UpdatesShortenNone, PassTargets, ActedIn;
  }

  /** An iteration books all its savings on a turn: it recorded one after running its tools, or had nothing to save. */
  ghost predicate BooksAll(s: Setting, it: Iteration) {
    Booked(s, it) || SavesNothing(s, it)
  }

  /** It folds away no turn with savings booked on it. */
  ghost predicate FoldsNoSavings(it: Iteration) {
    forall t :: t in it.p.compacted && t.turnIndex in it.step.folded ==> t.tokensSavedThisTurn == 0
  }

  /** Every iteration books what it saves on a turn, and folds away no turn that has savings booked on it. */
  ghost predicate AllBooked(s: Setting, trace: seq<Iteration>) {
    forall k :: 0 <= k < |trace| ==> BooksAll(s, trace[k]) && FoldsNoSavings(trace[k])
  }

  lemma LeftoverNought(s: Setting, it: Iteration)
    requires IterationOk(s, it)
    ensures Leftover(s, it) == FoldedSavings(it.p.compacted, it.step.folded) + if Booked(s, it) then 0 else ReportedIn(it)
    ensures Leftover(s, it) == 0 <==> BooksAll(s, it) && FoldsNoSavings(it)
  {
    FoldedSavingsGo(it.p.compacted, it.step.folded);
    FoldedSavingsNought(it.p.compacted, it.step.folded);
    NothingReported(s, it);
    assert it.p.ready == Unfolded(it.p.compacted, it.step.folded);
    hide IterationOk, Prepared, Booked, Unfolded, FoldedSavings, SavesNothing, ReportedIn;
  }

  /** A run leaves savings unbooked unless every iteration books all of its own and folds none away. */
  lemma {:induction false} RunLeftover(
    s: Setting, env: nat -> Step, limit: int, start: Position, trace: seq<Iteration>)
    requires RunOf(s, env, limit, start, trace)
    ensures SumLeftover(s, trace) >= 0
    ensures SumLeftover(s, trace) == 0 <==> AllBooked(s, trace)
    decreases |trace|
  {
    hide RunOf, IterationOk, Leftover, FoldsNoSavings, BooksAll;
    if trace != [] {
      var n := |trace| - 1;
      RunPrefix(s, env, limit, start, trace);
      RunLeftover(s, env, limit, start, trace[..n]);
      LeftoverNought(s, trace[n]);
      assert forall k :: 0 <= k < n ==> trace[..n][k] == trace[k];
    }
  }

  /** No compactor and no summarizer fold anywhere in the run. */
  ghost predicate Quiet(s: Setting, env: nat -> Step) {
    !s.compactor.enabled && NoFold(env)
  }

  /** Without compactor and folds only an iteration that ends in an error or a cancellation leaves savings unbooked. */
  lemma QuietIteration(s: Setting, it: Iteration)
    requires IterationOk(s, it) && !s.compactor.enabled && it.step.folded == {} && !it.end.Raised?
    ensures Leftover(s, it) == 0
  {
    var before, credit := it.at.books.turns, it.at.books.credit;
    hide IterationOk, Prepared, Heirs, TurnSavings, Booked;
    PreparedIs(s, it);
    NothingCompacted(before, credit, it.step.compactorLlm, it.at.turnIndex, s.countSummary);
    PreparedHeirs(s, before, credit, it.step, it.at.turnIndex, it.p);
    QuietSaves(s, it);
    QuietBooks(s, it);
  }

  lemma QuietSaves(s: Setting, it: Iteration)
    requires Prepared(s, it.at.books.turns, it.at.books.credit, it.step, it.at.turnIndex, it.p) && !s.compactor.enabled
    ensures it.p.saved == 0
  {
    hide CompactedTo, CompactorTargets, Unfolded;
    var before, credit := it.at.books.turns, it.at.books.credit;
    assert PassTargets(s, before, it.step) == [];
    hide CompactorSavings, PassTargets;
    NothingCompacted(before, credit, it.step.compactorLlm, it.at.turnIndex, s.countSummary);
  }

  lemma QuietBooks(s: Setting, it: Iteration)
    requires IterationOk(s, it) && !it.end.Raised?
    ensures Booked(s, it) || it.tools.saved == 0
  {
    EndIs(s, it);
    hide Prepared, ToolsOk, BooksAfter, Calls, Invalid, Answers, Decided;
  }

  lemma {:induction false} QuietRun(
    s: Setting, env: nat -> Step, limit: int, start: Position, trace: seq<Iteration>)
    requires RunOf(s, env, limit, start, trace) && !s.compactor.enabled && NoFold(env)
    requires trace == [] || !trace[|trace| - 1].end.Raised?
    ensures SumLeftover(s, trace) == 0
    decreases |trace|
  {
    hide RunOf, IterationOk, Leftover;
    if trace != [] {
      var n := |trace| - 1;
      RunPrefix(s, env, limit, start, trace);
      QuietRun(s, env, limit, start, trace[..n]);
      QuietIteration(s, trace[n]);
    }
  }

  lemma QuietMeans(
    s: Setting, env: nat -> Step, limit: int, start: Position, trace: seq<Iteration>, status: RunStatus)
    requires WholeRun(s, env, limit, start, trace, status) && Quiet(s, env)
    requires status != Interrupted && status != Error
    ensures SumLeftover(s, trace) == 0
  {
    hide RunOf, IterationOk, SumLeftover;
    if trace != [] {
      RunPrefix(s, env, limit, start, trace);
      EndsRecord(s, trace[|trace| - 1]);
    }
    QuietRun(s, env, limit, start, trace);
  }

  /** What follows for a whole run from the relations between its iterations. */
  lemma RunMeans(
    s: Setting, env: nat -> Step, limit: int, start: Position, trace: seq<Iteration>, status: RunStatus)
    requires WholeRun(s, env, limit, start, trace, status) && Starts(s, start)
    ensures
      var now := Final(start, trace);
      && now.runTurnIndex <= Positive(limit)
      && (status == MaxTurnsReached <==> now.runTurnIndex >= limit)
      && |trace| <= Positive(limit) * (s.config.structuredOutputMaxRetries + 1)
      && start.counter <= now.counter
      && Descends(start.books.turns, start.counter, now.books.turns, now.counter)
      && now.books.total == start.books.total + SumReportedIn(trace)
      && SumLeftover(s, trace) >= 0 && (SumLeftover(s, trace) == 0 <==> AllBooked(s, trace))
      && (Quiet(s, env) && status != Interrupted && status != Error ==> SumLeftover(s, trace) == 0)
      && (NoFold(env) ==>
            RunShape(start.books.turns, now.books.turns, TurnsRecorded(s, start, trace),
                     FirstMessage(s, env, start.message)))
  {
    hide *;
    WholeIsRun(s, env, limit, start, trace, status);
    RunCounts(s, env, limit, start, trace);
    VerdictMeans(s, env, limit, start, trace, status);
    RunDescends(s, env, limit, start, trace);
    RunTotal(s, env, limit, start, trace);
    RunLeftover(s, env, limit, start, trace);
    if NoFold(env) { RunHasShape(s, env, limit, start, trace); }
    if Quiet(s, env) && status != Interrupted && status != Error {
      QuietMeans(s, env, limit, start, trace, status);
    }
  }
}
