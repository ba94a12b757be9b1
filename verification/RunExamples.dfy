/** Two runs on which the documentation's account of the agent loop fails, and the loop executing them. */
module RunExamples {
  import opened Text
  import opened Sessions
  import opened AgentSessions
  import opened Rcs
  import opened RunHistory
  import opened Savings
  import opened RunSpecs
  import AgentRunners

  /** An answer without tools. */
  function AnswerStep(valid: bool, llm: nat -> Option<string>): Step {
    Step(false, 0, llm, {}, LlmResponse(Some("done"), []), valid, j => false, j => "", Proceed, false)
  }

  function Example(hasResultType: bool, compactor: CompactorConfig): Setting {
    Setting(RunnerConfig(5, 0, true, hasResultType, 1, None, false, compactor),
            ToolRegistry(name => false, name => false), compactor, text => |text|, text => |text|)
  }

  function ExampleStart(s: Setting, message: string): Position {
    StartOf(s, message, 0, Books([], 0, 0, map[], 0))
  }

  // ---------- The retry prompt is recorded in place of the user's message ----------

  function Structured(): Setting {
    Example(true, CompactorConfig(false, 0, 0))
  }

  /** The first response is not a valid result, the others are. */
  function FailsOnce(k: nat): Step {
    AnswerStep(k > 0, j => None)
  }

  lemma FailsOnceMeans()
    ensures Invalid(Structured(), FailsOnce(0))
    ensures Answers(Structured(), FailsOnce(1))
    ensures forall k: nat, n: nat, end: TurnEnd :: Decided(Structured(), FailsOnce(k), n, end) == end
    ensures forall k: nat :: !FailsOnce(k).cancelled && FailsOnce(k).folded == {} && FailsOnce(k).llm.LlmResponse?
  {
  }

  lemma FailsOnceEnds(it: Iteration)
    requires IterationOk(Structured(), it)
    ensures it.step == FailsOnce(0) && it.at.retries > 0 ==> it.end == Retry
    ensures it.step == FailsOnce(1) ==> it.end == Answered
  {
    FailsOnceMeans();
    assert it.end == EndOf(Structured(), it);
    hide IterationOk, FailsOnce, Structured, Invalid, Answers, Decided;
    var s := Structured();
    assert it.step == FailsOnce(1) ==> !Invalid(s, it.step) by { AnswerIsValid(s, it.step); }
  }

  lemma AnswerIsValid(s: Setting, step: Step)
    ensures Answers(s, step) ==> !Invalid(s, step)
  {
  }

  /** A run of this script is one retry and one answer. */
  lemma FailsOnceTrace(message: string, trace: seq<Iteration>, status: RunStatus)
    requires WholeRun(Structured(), FailsOnce, 5, ExampleStart(Structured(), message), trace, status)
    ensures |trace| == 2 && trace[0].end == Retry && trace[1].end == Answered && trace[1].at.runTurnIndex == 0
    ensures NoFold(FailsOnce)
  {
    FailsOnceMeans();
    hide IterationOk, FailsOnce;
    assert GoesOn([]) && Structured().config.structuredOutputMaxRetries == 1;
    assert trace != [];
    assert trace[..0] == [];
    FailsOnceEnds(trace[0]);
    assert trace[..1] == [trace[0]];
    assert |trace| > 1;
    FailsOnceEnds(trace[1]);
    OnlyTheLastStops(Structured(), FailsOnce, 5, ExampleStart(Structured(), message), trace, 1);
  }

  /** Every run of this script ends with one turn, and the message recorded with it is not the user's. */
  lemma RetryPromptIsRecorded(message: string, trace: seq<Iteration>, status: RunStatus)
    requires WholeRun(Structured(), FailsOnce, 5, ExampleStart(Structured(), message), trace, status)
    ensures var turns := Final(ExampleStart(Structured(), message), trace).books.turns;
            |turns| == 1 && turns[0].userMessage == Some(RETRY_MESSAGE)
    ensures status == Completed
  {
    FailsOnceTrace(message, trace, status);
    FailsOnceMeans();
    WholeIsRun(Structured(), FailsOnce, 5, ExampleStart(Structured(), message), trace, status);
    hide RunOf, IterationOk, FailsOnce, Heirs;
    RunHasShape(Structured(), FailsOnce, 5, ExampleStart(Structured(), message), trace);
  }

  /** The loop records the retry prompt in place of "hello". */
  method RunFailsOnce() returns (userMessage: Option<string>, turnsUsed: nat)
    ensures userMessage == Some(RETRY_MESSAGE) && turnsUsed == 1
  {
    hide Descends, RunShape, IterationOk, RunOf, FailsOnce;
    var s := Structured();
    var runner := new AgentRunners.AgentRunner(s.config, s.registry, s.countResult, s.countSummary);
    var session := new AgentSession();
    var status, llmCalls;
    ghost var trace;
    status, turnsUsed, llmCalls, trace := runner.RunLoop(session, "hello", None, FailsOnce);
    FailsOnceTrace("hello", trace, status);
    RetryPromptIsRecorded("hello", trace, status);
    userMessage := session.turns[0].userMessage;
  }

  // ---------- An answer on the last allowed turn ----------

  function Unstructured(): Setting {
    Example(false, CompactorConfig(false, 0, 0))
  }

  function AnswersAtOnce(k: nat): Step {
    AnswerStep(true, j => None)
  }

  lemma AnswersAtOnceMeans(it: Iteration)
    requires IterationOk(Unstructured(), it) && it.step == AnswersAtOnce(0)
    ensures it.end == Answered
  {
    assert it.end == EndOf(Unstructured(), it);
    hide IterationOk;
    assert Answers(Unstructured(), it.step) && !HumanDue(Unstructured(), it.at.runTurnIndex);
    hide Answers, Unstructured, HumanDue;
    AnswerIsValid(Unstructured(), it.step);
  }

  /** Every run of this script with one turn allowed gives its answer, and reports that its turns ran out. */
  lemma AnswerRunsOut(message: string, trace: seq<Iteration>, status: RunStatus)
    requires WholeRun(Unstructured(), AnswersAtOnce, 1, ExampleStart(Unstructured(), message), trace, status)
    ensures trace != [] && trace[|trace| - 1].end == Answered && status == MaxTurnsReached
  {
    hide IterationOk;
    assert !AnswersAtOnce(0).cancelled && GoesOn([]);
    assert trace != [] && trace[..0] == [];
    hide AnswersAtOnce, Unstructured;
    AnswersAtOnceMeans(trace[0]);
    OnlyTheLastStops(Unstructured(), AnswersAtOnce, 1, ExampleStart(Unstructured(), message), trace, 0);
  }

  /** The loop does so: the answer is recorded, and the status is not `completed`. */
  method RunAnswersAtOnce() returns (status: RunStatus, turnsUsed: nat)
    ensures status == MaxTurnsReached && turnsUsed == 1
  {
    hide Descends, RunShape, IterationOk, RunOf, AnswersAtOnce;
    var s := Unstructured();
    var runner := new AgentRunners.AgentRunner(s.config, s.registry, s.countResult, s.countSummary);
    var session := new AgentSession();
    var llmCalls;
    ghost var trace;
    status, turnsUsed, llmCalls, trace := runner.RunLoop(session, "hello", Some(1), AnswersAtOnce);
    AnswerRunsOut("hello", trace, status);
  }

  // ---------- Savings that are booked on no turn ----------

  function Compacting(): Setting {
    Example(false, CompactorConfig(true, 0, 1))
  }

  /** One tool call whose result the compactor shortens by one token before the answer. */
  function ToolThenAnswer(k: nat): Step {
    var answer := AnswerStep(true, j => Some("x"));
    if k > 0 then answer
    else answer.(llm := LlmResponse(None, [ToolCallRequest("c", "t", [])]), toolResult := j => "xx")
  }

  function ToolThenAnswerRecord(): ToolCallRecord {
    ToolCallRecord(TcName(1), 1, "t", "c", "xx", None, None, 2, None)
  }

  function ToolThenAnswerTurn(message: string): TurnRecord {
    ToolRecord(0, Some(message), None, [ToolCallRequest("c", "t", [])], 0, [ToolThenAnswerRecord()], AllDone)
  }

  lemma ToolThenAnswerMeans()
    ensures
      var s, step := Compacting(), ToolThenAnswer(0);
      && Calls(s, step) == [ToolCallRequest("c", "t", [])] && RunsTools(s, step)
      && !Deferred(s, Calls(s, step)[0]) && !s.registry.requiresApproval("t") && !step.cancelledBeforeTool(0)
    ensures Answers(Compacting(), ToolThenAnswer(1))
    ensures forall k: nat, n: nat, end: TurnEnd :: Decided(Compacting(), ToolThenAnswer(k), n, end) == end
    ensures forall k: nat :: !ToolThenAnswer(k).cancelled && ToolThenAnswer(k).folded == {} && !ToolThenAnswer(k).timedOut
  {
  }

  lemma EmptyPrepared(it: Iteration)
    requires IterationOk(Compacting(), it) && it.at.books.turns == []
    ensures it.p.saved == 0 && it.p.compacted == [] && it.p.ready == []
  {
    assert Unsummarized([]) == [];
    NothingCompacted([], it.at.books.credit, it.step.compactorLlm, it.at.turnIndex, Compacting().countSummary);
    assert it.p.saved == CompactorSavings([], [], it.step.compactorLlm, Compacting().countSummary);
  }

  lemma OneTool(it: Iteration)
    requires IterationOk(Compacting(), it) && it.step == ToolThenAnswer(0) && it.at.counter == 0
    requires it.p.ready == []
    ensures it.tools.records == [ToolThenAnswerRecord()] && it.tools.end == AllDone
    ensures it.tools.turns == [] && it.tools.saved == 0
  {
    ToolThenAnswerMeans();
    assert RunsTools(Compacting(), it.step);
    assert it.tools.saved == InterceptorSavings([], ActedIn(Compacting(), it), Compacting().countSummary);
    hide Prepared, BooksAfter, Deferred, EndOf;
    assert it.tools.records[0] == RecordFor(Compacting(), ToolCallRequest("c", "t", []), 1, "xx") == ToolThenAnswerRecord();
  }

  lemma ToolFirst(it: Iteration, message: string)
    requires IterationOk(Compacting(), it) && it.step == ToolThenAnswer(0)
    requires it.at == ExampleStart(Compacting(), message)
    ensures it.finish.turns == [ToolThenAnswerTurn(message)] && it.end == NextTurn(message)
    ensures Leftover(Compacting(), it) == 0
  {
    EmptyPrepared(it);
    OneTool(it);
    ToolThenAnswerMeans();
    assert it.end == EndOf(Compacting(), it);
    FinishTurns(Compacting(), it);
    hide IterationOk, Prepared, ToolsOk, ToolThenAnswer, Compacting, Decided, RunsTools, Calls, Deferred;
  }

  /** The compactor saves one token on the recorded call, before an answer that books nothing. */
  lemma AnswerSecond(it: Iteration, message: string)
    requires IterationOk(Compacting(), it) && it.step == ToolThenAnswer(1)
    requires it.at.books.turns == [ToolThenAnswerTurn(message)]
    ensures it.p.saved == 1 && it.end == Answered && !Booked(Compacting(), it)
  {
    ToolThenAnswerMeans();
    assert it.end == EndOf(Compacting(), it);
    var turns, r := it.at.books.turns, ToolThenAnswerRecord();
    assert it.p.saved == CompactorSavings(turns, PassTargets(Compacting(), turns, it.step), it.step.compactorLlm,
                                          Compacting().countSummary);
    OneCandidate(message);
    hide IterationOk, Prepared, Decided, Calls;
  }

  lemma OneCall(t: TurnRecord, r: ToolCallRecord, f: ToolCallRecord -> int)
    requires t.toolCalls == [r] && r.summarizedResponse.None?
    ensures Unsummarized([t]) == [r] && SumTurns([t], f) == f(r)
  {
    assert [t][..0] == [] && [r][..0] == [];
    assert UnsummarizedIn([r]) == [r];
    assert SumCalls([r], f) == f(r);
  }

  lemma OneSummary(r: ToolCallRecord)
    ensures CompactorSummary(ToolThenAnswer(1).compactorLlm, r) == Some("x")
  {
    hide Strip, Blank;
    assert !IsSpace('x');
    hide IsSpace;
    NothingToStrip("x");
    assert UsableSummary("x");
  }

  lemma OneToken()
    ensures CompactorSaving(ToolThenAnswerRecord(), [ToolThenAnswerRecord()], ToolThenAnswer(1).compactorLlm,
                            Compacting().countSummary) == 1
  {
    hide ToolThenAnswerRecord, CompactorSummary, ToolThenAnswer;
    RawLength();
    OneSummary(ToolThenAnswerRecord());
    assert Compacting().countSummary("x") == 1;
  }

  lemma RawLength()
    ensures ToolThenAnswerRecord().tokensRaw == 2 && ToolThenAnswerRecord().summarizedResponse.None?
  {
  }

  lemma OneCandidate(message: string)
    ensures
      var turns := [ToolThenAnswerTurn(message)];
      var s, step := Compacting(), ToolThenAnswer(1);
      && PassTargets(s, turns, step) == [ToolThenAnswerRecord()]
      && CompactorSavings(turns, [ToolThenAnswerRecord()], step.compactorLlm, s.countSummary) == 1
  {
    var r, llm, count := ToolThenAnswerRecord(), ToolThenAnswer(1).compactorLlm, Compacting().countSummary;
    var t := ToolThenAnswerTurn(message);
    RawLength();
    OneToken();
    hide TcName, ToolThenAnswerRecord, CompactorSummary;
    assert t.toolCalls == [r];
    OneCall(t, r, r => CompactorSaving(r, [ToolThenAnswerRecord()], llm, count));
    hide SumTurns, Unsummarized, CompactorSaving, ToolThenAnswerTurn, ToolRecord;
  }

  /** A run of this script is one turn with a tool and one answer. */
  lemma ToolThenAnswerTrace(message: string, trace: seq<Iteration>, status: RunStatus)
    requires WholeRun(Compacting(), ToolThenAnswer, 5, ExampleStart(Compacting(), message), trace, status)
    ensures |trace| == 2 && trace[1].end == Answered && !Booked(Compacting(), trace[1]) && trace[1].p.saved == 1
    ensures Leftover(Compacting(), trace[0]) == 0
    ensures RunOf(Compacting(), ToolThenAnswer, 5, ExampleStart(Compacting(), message), trace)
  {
    ToolThenAnswerMeans();
    hide IterationOk, ToolThenAnswer, Leftover, Booked, ToolThenAnswerTurn, Calls, RunsTools, Deferred, Answers, Decided;
    assert GoesOn([]);
    assert trace != [];
    assert trace[..0] == [];
    ToolFirst(trace[0], message);
    assert trace[..1] == [trace[0]];
    assert |trace| > 1;
    AnswerSecond(trace[1], message);
    OnlyTheLastStops(Compacting(), ToolThenAnswer, 5, ExampleStart(Compacting(), message), trace, 1);
  }

  lemma UnbookedSaving(s: Setting, it: Iteration)
    requires IterationOk(s, it) && !Booked(s, it) && it.p.saved > 0
    ensures !BooksAll(s, it)
  {
    hide IterationOk, SavesNothing, Booked;
    NothingReported(s, it);
  }

  /** Every run of this script saves more than its turns say: what the compactor saved is booked nowhere. */
  lemma SavingIsBookedNowhere(message: string, trace: seq<Iteration>, status: RunStatus)
    requires WholeRun(Compacting(), ToolThenAnswer, 5, ExampleStart(Compacting(), message), trace, status)
    ensures SumLeftover(Compacting(), trace) > 0
  {
    hide RunOf, WholeRun, IterationOk, SumLeftover, ToolThenAnswer, BooksAll, Booked, FoldsNoSavings, Compacting;
    var start := ExampleStart(Compacting(), message);
    ToolThenAnswerTrace(message, trace, status);
    RunLeftover(Compacting(), ToolThenAnswer, 5, start, trace);
    OneOfRun(Compacting(), ToolThenAnswer, 5, start, trace, 1);
    UnbookedSaving(Compacting(), trace[1]);
  }

  lemma OneOfRun(s: Setting, env: nat -> Step, limit: int, start: Position, trace: seq<Iteration>, k: nat)
    requires RunOf(s, env, limit, start, trace) && k < |trace|
    ensures IterationOk(s, trace[k])
  {
    hide IterationOk, Final, GoesOn;
  }

  /** The loop leaves a session whose turns do not sum up to its total. */
  method RunToolThenAnswer() returns (booked: nat, total: nat)
    ensures booked < total
  {
    hide Descends, RunShape, IterationOk, RunOf, ToolThenAnswer, SumLeftover, Ordered, LedgerOk;
    var s := Compacting();
    var runner := new AgentRunners.AgentRunner(s.config, s.registry, s.countResult, s.countSummary);
    var session := new AgentSession();
    var status, turnsUsed, llmCalls;
    ghost var trace;
    status, turnsUsed, llmCalls, trace := runner.RunLoop(session, "hello", None, ToolThenAnswer);
    SavingIsBookedNowhere("hello", trace, status);
    booked, total := TurnSavings(session.turns), session.totalTokensSaved;
  }
}
