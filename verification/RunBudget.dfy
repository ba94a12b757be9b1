/**
 What the orchestrator takes for granted of an agent that leads a group: how many turns its run uses, and how many tool
 calls, each of which may be a delegation.
 */
module RunBudgets {
  import opened Text
  import opened Numbers
  import opened Sessions
  import opened AgentSessions
  import opened Rcs
  import opened Savings
  import opened RunSpecs
  import Orchestrator
  import AgentRunners

  /** The tool calls taken up in a run. */
  function SumHandled(trace: seq<Iteration>): nat {
    if trace == [] then 0 else SumHandled(trace[..|trace| - 1]) + trace[|trace| - 1].tools.handled
  }

  /** An iteration takes up no more calls than its limit, and none when it ends in a retry or in the answer. */
  lemma IterationHandles(s: Setting, it: Iteration)
    requires IterationOk(s, it) && s.config.maxToolCallsPerTurn > 0
    ensures it.tools.handled <= s.config.maxToolCallsPerTurn
    ensures it.end.Retry? || it.end.Answered? ==> it.tools.handled == 0
    ensures it.finish.counter <= it.at.counter + it.tools.handled
  {
    hide IterationOk, RecordsFor, Intercepted, InterceptorSavings, ActedIn, Booked, TurnOf;
    IterationTools(s, it);
    FewCalls(s, it.step);
    NoCallsAtEnd(s, it);
    CounterAfter(s, it);
  }

  lemma FewCalls(s: Setting, step: Step)
    requires s.config.maxToolCallsPerTurn > 0
    ensures |Calls(s, step)| <= s.config.maxToolCallsPerTurn
  {
  }

  lemma NoCallsAtEnd(s: Setting, it: Iteration)
    requires IterationOk(s, it) && it.tools.handled <= |Calls(s, it.step)|
    ensures it.end.Retry? || it.end.Answered? ==> it.tools.handled == 0
  {
    hide IterationOk, Calls;
    EndIs(s, it);
    assert Invalid(s, it.step) || Answers(s, it.step) ==> Calls(s, it.step) == [];
    hide Invalid, Answers;
  }

  lemma CounterAfter(s: Setting, it: Iteration)
    requires IterationOk(s, it)
    ensures it.finish.counter <= it.at.counter + it.tools.handled
  {
    hide Prepared, ToolsOk, TurnOf, EndOf, RetriesAfter, SumTurns, RunsTools;
  }

  /** The counter moves by the calls taken up, which are at most so many a turn. */
  lemma {:induction false} RunHandles(
    s: Setting, env: nat -> Step, limit: int, start: Position, trace: seq<Iteration>)
    requires RunOf(s, env, limit, start, trace) && Starts(s, start) && s.config.maxToolCallsPerTurn > 0
    ensures
      var now, most := Final(start, trace), s.config.maxToolCallsPerTurn;
      && now.counter == start.counter + SumHandled(trace)
      && SumHandled(trace) <= (if GoesOn(trace) then now.runTurnIndex else Min(now.runTurnIndex + 1, Positive(limit))) * most
    decreases |trace|
  {
    hide RunOf, IterationOk;
    var most := s.config.maxToolCallsPerTurn;
    if trace != [] {
      var n := |trace| - 1;
      RunPrefix(s, env, limit, start, trace);
      RunHandles(s, env, limit, start, trace[..n]);
      IterationHandles(s, trace[n]);
      var turns := trace[n].at.runTurnIndex;
      MoreTurns(turns, limit, most);
      MoreTurns(turns + 1, limit, most);
      if trace[n].end.Answered? && turns + 1 < limit { MoreTurns(turns + 1, turns + 2, most); }
    }
  }

  /** The runner's settings are those of this agent. */
  predicate Plays(s: Setting, m: Orchestrator.Member) {
    m.Agent? && s.config.maxTurns == m.maxTurns && s.config.maxToolCallsPerTurn == m.maxToolCallsPerTurn
  }

  /**
   A run of an agent under a budget uses no more turns than the orchestrator's limit for it, and takes up no more tool
   calls, so makes no more delegations, than the orchestrator's cap for the turns it reports.
   */
  lemma LeaderStaysWithinCap(
    s: Setting, m: Orchestrator.Member, budget: int, env: nat -> Step, start: Position, trace: seq<Iteration>)
    requires Plays(s, m) && RunOf(s, env, TurnLimit(s, Some(budget)), start, trace) && Starts(s, start)
    ensures
      var used := Final(start, trace).runTurnIndex;
      && used <= Orchestrator.AgentLimit(m, budget)
      && var cap := Orchestrator.DelegationCap(m, used, Orchestrator.AgentLimit(m, budget));
         cap.Some? ==> SumHandled(trace) <= cap.value
  {
    hide RunOf, Starts;
    var limit := TurnLimit(s, Some(budget));
    RunCounts(s, env, limit, start, trace);
    assert Positive(limit) == Orchestrator.AgentLimit(m, budget);
    if m.maxToolCallsPerTurn > 0 {
      RunHandles(s, env, limit, start, trace);
      var used := Final(start, trace).runTurnIndex;
      MoreTurns(used, Min(used + 1, Positive(limit)), m.maxToolCallsPerTurn);
    }
  }

  // ---------- The cap is reached ----------

  /** An agent without further limits, whose tools all run here. */
  function Worker(maxTurns: nat, most: nat): Setting {
    var compactor := CompactorConfig(false, 0, 0);
    Setting(RunnerConfig(maxTurns, most, true, false, 0, None, true, compactor),
            ToolRegistry(name => false, name => false), compactor, text => |text|, text => |text|)
  }

  /** `most` tool calls in every turn; after `own` turns the hook stops the run. */
  function Busy(own: nat, most: nat, k: nat): Step {
    var calls := seq(most, j requires 0 <= j < most => ToolCallRequest("c", "t", []));
    Step(false, 0, j => None, {}, LlmResponse(None, calls), true, j => false, j => "", if k < own then Proceed else Stop,
         false)
  }

  function BusyScript(own: nat, most: nat): nat -> Step {
    (k: nat) => Busy(own, most, k)
  }

  lemma BusyCalls(maxTurns: nat, own: nat, most: nat, k: nat)
    requires most > 0
    ensures
      var s, step := Worker(maxTurns, most), Busy(own, most, k);
      && |Calls(s, step)| == most && RunsTools(s, step) && !step.cancelled && !step.timedOut
      && forall j :: 0 <= j < most ==> Passable(s, Calls(s, step), step, j) && !Deferred(s, Calls(s, step)[j])
    ensures forall n: nat, end: TurnEnd ::
              Decided(Worker(maxTurns, most), Busy(own, most, k), n, end) == if k < own then end else Ended(Interrupted)
  {
  }

  lemma BusyIteration(maxTurns: nat, own: nat, most: nat, k: nat, it: Iteration)
    requires most > 0 && IterationOk(Worker(maxTurns, most), it) && it.step == Busy(own, most, k)
    ensures it.tools.handled == most
    ensures it.end == if k < own then NextTurn(it.at.message) else Ended(Interrupted)
  {
    BusyCalls(maxTurns, own, most, k);
    assert it.end == EndOf(Worker(maxTurns, most), it);
    hide Prepared, RecordsFor, Busy, Worker, Calls, Decided, Deferred, Passable, RunsTools, BooksAfter;
    RunsItsTools(Worker(maxTurns, most), it);
  }

  lemma RunsItsTools(s: Setting, it: Iteration)
    requires RunsTools(s, it.step)
    ensures it.step.llm.LlmResponse? && !Invalid(s, it.step) && !Answers(s, it.step)
  {
  }

  lemma {:induction false} BusyTrace(
    maxTurns: nat, own: nat, most: nat, limit: int, start: Position, trace: seq<Iteration>)
    requires most > 0 && RunOf(Worker(maxTurns, most), BusyScript(own, most), limit, start, trace)
    requires start.runTurnIndex == 0
    ensures |trace| <= own + 1 && SumHandled(trace) == |trace| * most
    ensures GoesOn(trace) <==> |trace| <= own
    ensures Final(start, trace).runTurnIndex == if |trace| <= own then |trace| else own
    decreases |trace|
  {
    hide RunOf, IterationOk, Worker, Busy;
    if trace != [] {
      var n := |trace| - 1;
      RunPrefix(Worker(maxTurns, most), BusyScript(own, most), limit, start, trace);
      BusyTrace(maxTurns, own, most, limit, start, trace[..n]);
      BusyIteration(maxTurns, own, most, n, trace[n]);
      MoreTurns(n, n, most);
    }
  }

  lemma BusyStops(
    maxTurns: nat, own: nat, most: nat, limit: int, start: Position, trace: seq<Iteration>, status: RunStatus)
    requires WholeRun(Worker(maxTurns, most), BusyScript(own, most), limit, start, trace, status)
    ensures RunOf(Worker(maxTurns, most), BusyScript(own, most), limit, start, trace)
    ensures GoesOn(trace) ==> Final(start, trace).runTurnIndex >= limit
  {
    hide RunOf;
  }

  lemma BusyRun(
    maxTurns: nat, own: nat, most: nat, limit: int, start: Position, trace: seq<Iteration>, status: RunStatus)
    requires most > 0 && own <= Positive(limit) && start.runTurnIndex == 0
    requires WholeRun(Worker(maxTurns, most), BusyScript(own, most), limit, start, trace, status)
    ensures Final(start, trace).runTurnIndex == own
    ensures |trace| == Min(own + 1, Positive(limit)) && SumHandled(trace) == |trace| * most
  {
    hide RunOf, IterationOk, Worker, Busy, BusyScript, Final, GoesOn, WholeRun, SumHandled;
    var env := BusyScript(own, most);
    BusyStops(maxTurns, own, most, limit, start, trace, status);
    BusyTrace(maxTurns, own, most, limit, start, trace);
    if trace != [] {
      WithinLimit(Worker(maxTurns, most), env, limit, start, trace);
      RunPrefix(Worker(maxTurns, most), env, limit, start, trace);
      BusyTrace(maxTurns, own, most, limit, start, trace[..|trace| - 1]);
    }
  }

  /** On this script an agent reaches the cap: with `own` turns, every call that the orchestrator reckons with. */
  lemma CapIsReached(
    m: Orchestrator.Member, budget: int, own: nat, start: Position, trace: seq<Iteration>, status: RunStatus)
    requires m.Agent? && m.maxToolCallsPerTurn > 0 && own <= Orchestrator.AgentLimit(m, budget)
    requires start.runTurnIndex == 0
    requires WholeRun(Worker(m.maxTurns, m.maxToolCallsPerTurn), BusyScript(own, m.maxToolCallsPerTurn),
                      TurnLimit(Worker(m.maxTurns, m.maxToolCallsPerTurn), Some(budget)), start, trace, status)
    ensures Final(start, trace).runTurnIndex == own
    ensures Orchestrator.DelegationCap(m, own, Orchestrator.AgentLimit(m, budget)) == Some(SumHandled(trace))
  {
    hide WholeRun, Worker, BusyScript, SumHandled, Final, TurnLimit, Orchestrator.AgentLimit;
    var most := m.maxToolCallsPerTurn;
    var limit := TurnLimit(Worker(m.maxTurns, most), Some(budget));
    WorkerLimit(m, budget);
    BusyRun(m.maxTurns, own, most, limit, start, trace, status);
  }

  lemma WorkerLimit(m: Orchestrator.Member, budget: int)
    requires m.Agent? && m.maxToolCallsPerTurn > 0
    ensures Positive(TurnLimit(Worker(m.maxTurns, m.maxToolCallsPerTurn), Some(budget)))
            == Orchestrator.AgentLimit(m, budget)
  {
  }

  lemma WithinLimit(s: Setting, env: nat -> Step, limit: int, start: Position, trace: seq<Iteration>)
    requires RunOf(s, env, limit, start, trace) && trace != []
    ensures trace[|trace| - 1].at.runTurnIndex < limit
    ensures trace[|trace| - 1].at == Final(start, trace[..|trace| - 1])
  {
    RunPrefix(s, env, limit, start, trace);
  }

  /** The loop does so: the calls it took up are the numbers it gave out. */
  method RunBusy(maxTurns: nat, own: nat, most: nat) returns (turnsUsed: nat, calls: nat)
    requires most > 0 && own <= maxTurns
    ensures turnsUsed == own && calls == Min(own + 1, maxTurns) * most
  {
    var s, env := Worker(maxTurns, most), BusyScript(own, most);
    assert TurnLimit(s, None) == maxTurns;
    hide RunOf, IterationOk, Busy, BusyScript, Worker, WholeRun, Consistent;
    var runner := new AgentRunners.AgentRunner(s.config, s.registry, s.countResult, s.countSummary);
    var session := new AgentSession();
    var status, llmCalls;
    ghost var trace;
    ghost var start := StartOf(s, "go", session.tcCounter, AgentRunners.BooksOf(session));
    assert runner.Settings() == s by { WorkerIs(maxTurns, most); }
    status, turnsUsed, llmCalls, trace := runner.RunTurns(session, "go", None, env);
    WholeIsRun(s, env, maxTurns, start, trace, status);
    BusyRun(maxTurns, own, most, maxTurns, start, trace, status);
    assert s.config.maxToolCallsPerTurn > 0 by { WorkerIs(maxTurns, most); }
    RunHandles(s, env, maxTurns, start, trace);
    calls := session.tcCounter;
  }

  lemma WorkerIs(maxTurns: nat, most: nat)
    ensures var s := Worker(maxTurns, most);
            && s == Setting(s.config, s.registry, s.config.fallbackCompactor, s.countResult, s.countSummary)
            && s.config.maxToolCallsPerTurn == most
  {
  }
}
