/**
 What the runs of the agent loop leave behind, said of the script alone: the turns they record, field by field, and how
 each iteration ends.
 */
module RunMeanings {
  import opened Text
  import opened Sessions
  import opened AgentSessions
  import opened Rcs
  import opened LlmMessages
  import opened RunHistory
  import opened RunSpecs

  // ---------- The turn that is recorded ----------

  /** The answer of a deferred call is not there yet, whatever the tool would have said. */
  predicate WaitsForClient(s: Setting, request: ToolCallRequest) {
    || s.registry.isClient(request.toolName)
    || (|request.toolName| >= 18 && request.toolName[|request.toolName| - 18..] == "request_user_input")
  }

  lemma WaitsMeans(s: Setting, request: ToolCallRequest)
    ensures Deferred(s, request) <==> WaitsForClient(s, request)
  {
  }

  /** A response's text if it has any or asks for tools, else a note in its place; the ids of the calls it may make. */
  ghost predicate TellsResponse(s: Setting, step: Step, m: Message) {
    && step.llm.LlmResponse? && m.Assistant?
    && var calls, limit := step.llm.toolCalls, s.config.maxToolCallsPerTurn;
       && |m.callIds| == (if 0 < limit < |calls| then limit else |calls|)
       && (forall k :: 0 <= k < |m.callIds| ==> m.callIds[k] == calls[k].id)
       && (if calls != [] || (step.llm.content.Some? && !Blank(step.llm.content.value))
           then m.text == step.llm.content
           else m.text == Some("(no response)"))
  }

  /** The record of call `j` of a response, with number `index`. */
  ghost predicate TellsCall(s: Setting, step: Step, j: nat, index: nat, r: ToolCallRecord)
    requires step.llm.LlmResponse? && j < |step.llm.toolCalls|
  {
    var request := step.llm.toolCalls[j];
    && r.tcIndex == index && r.tcId == "TC" + Decimal(index)
    && r.toolName == request.toolName && r.callId == request.id
    && r.summarizedResponse.None? && r.summarizedByTurn.None? && r.tokensSummarized.None?
    && (WaitsForClient(s, request) ==> r.rawResponse == "" && r.tokensRaw == 0)
    && (!WaitsForClient(s, request) ==> r.rawResponse == step.toolResult(j) && r.tokensRaw == s.countResult(step.toolResult(j)))
  }

  /**
   A recorded turn: its number, the loop's message on a run's first turn only, the response, and the records of its
   calls, numbered on from the counter - of all of them, or up to the first that waits for the client.
   */
  ghost predicate TellsTurn(s: Setting, it: Iteration, t: TurnRecord) {
    && t.turnIndex == it.at.turnIndex
    && t.userMessage == (if it.at.runTurnIndex == 0 then Some(it.at.message) else None)
    && |t.llmMessages| == 1 && TellsResponse(s, it.step, t.llmMessages[0])
    && |t.toolCalls| <= |t.llmMessages[0].callIds| <= |it.step.llm.toolCalls|
    && (forall j :: 0 <= j < |t.toolCalls| ==> TellsCall(s, it.step, j, it.at.counter + j + 1, t.toolCalls[j]))
    && (forall j :: 0 <= j < |t.toolCalls| ==>
          (WaitsForClient(s, it.step.llm.toolCalls[j]) <==> j == |t.toolCalls| - 1 && t.status == TurnPaused))
    && (t.status == TurnPaused ==> t.toolCalls != [])
    && (t.status == TurnCompleted ==> |t.toolCalls| == |t.llmMessages[0].callIds|)
  }

  lemma CallTold(s: Setting, it: Iteration, j: nat)
    requires it.step.llm.LlmResponse?
    requires RecordsFor(s, it.tools.records, Calls(s, it.step), it.at.counter, it.step) && j < |it.tools.records|
    ensures j < |it.step.llm.toolCalls|
    ensures TellsCall(s, it.step, j, it.at.counter + j + 1, it.tools.records[j])
  {
    hide WaitsForClient, Deferred;
    WaitsMeans(s, it.step.llm.toolCalls[j]);
  }

  lemma ResponseTold(s: Setting, step: Step)
    requires step.llm.LlmResponse?
    ensures TellsResponse(s, step, BuildAssistant(step.llm.content, RequestIds(Calls(s, step))))
  {
  }

  lemma StopTold(s: Setting, it: Iteration)
    requires IterationOk(s, it) && RunsTools(s, it.step) && Booked(s, it)
    ensures StopsRightly(s, Calls(s, it.step), it.step, |it.tools.records|, it.tools.handled, it.tools.end)
    ensures it.tools.end == AllDone || it.tools.end == StoppedForClient
  {
    hide Prepared, StopsRightly, RecordsFor, EndOf, RetriesAfter, BooksAfter, Calls, RunsTools;
  }

  lemma FirstCalls(s: Setting, step: Step)
    requires step.llm.LlmResponse?
    ensures |Calls(s, step)| <= |step.llm.toolCalls|
    ensures forall k :: 0 <= k < |Calls(s, step)| ==> Calls(s, step)[k] == step.llm.toolCalls[k]
  {
  }

  /** Which calls of a turn wait: the last one of a turn that paused, and no other. */
  lemma WaitingTold(s: Setting, it: Iteration, t: TurnRecord)
    requires IterationOk(s, it) && it.step.llm.LlmResponse? && Booked(s, it)
    requires t.toolCalls == it.tools.records
    requires t.status == if it.tools.end == StoppedForClient then TurnPaused else TurnCompleted
    ensures |t.toolCalls| <= |Calls(s, it.step)| <= |it.step.llm.toolCalls|
    ensures forall j :: 0 <= j < |t.toolCalls| ==>
              (WaitsForClient(s, it.step.llm.toolCalls[j]) <==> j == |t.toolCalls| - 1 && t.status == TurnPaused)
    ensures t.status == TurnPaused ==> t.toolCalls != []
    ensures t.status == TurnCompleted ==> |t.toolCalls| == |Calls(s, it.step)|
  {
    assert RunsTools(s, it.step);
    hide IterationOk, Calls, WaitsForClient, Deferred, RunsTools, Booked, Passable;
    StopTold(s, it);
    FirstCalls(s, it.step);
    forall j | 0 <= j < |t.toolCalls|
      ensures WaitsForClient(s, it.step.llm.toolCalls[j]) <==> j == |t.toolCalls| - 1 && t.status == TurnPaused
    {
      WaitsMeans(s, it.step.llm.toolCalls[j]);
    }
  }

  lemma AnswerTold(s: Setting, it: Iteration)
    requires Answers(s, it.step)
    ensures
      var t := AnswerRecord(it.at.turnIndex, UserMessageAt(it.at), it.step.llm.content);
      TurnOf(s, it) == Some(t) && TellsTurn(s, it, t) && t.tokensSavedThisTurn == 0
  {
    assert Calls(s, it.step) == [] && RequestIds([]) == [];
    ResponseTold(s, it.step);
    hide TellsResponse, WaitsForClient, TellsCall, Invalid;
    NoCallsAsked(s, it.step);
  }

  lemma NoCallsAsked(s: Setting, step: Step)
    requires step.llm.LlmResponse? && Calls(s, step) == []
    ensures step.llm.toolCalls == []
  {
  }

  lemma ToolTurnTold(s: Setting, it: Iteration)
    requires IterationOk(s, it) && Booked(s, it)
    ensures
      var t := ToolRecord(it.at.turnIndex, UserMessageAt(it.at), it.step.llm.content, Calls(s, it.step),
                          it.p.saved + it.tools.saved, it.tools.records, it.tools.end);
      TurnOf(s, it) == Some(t) && TellsTurn(s, it, t) && t.tokensSavedThisTurn == ReportedIn(it)
  {
    hide IterationOk, TellsResponse, TellsCall, WaitsForClient, Calls, Booked, Answers, RecordsFor, BuildAssistant;
    hide RequestIds, TurnOf, RunsTools;
    BookedIs(s, it);
    var t := ToolRecord(it.at.turnIndex, UserMessageAt(it.at), it.step.llm.content, Calls(s, it.step),
                        it.p.saved + it.tools.saved, it.tools.records, it.tools.end);
    ResponseTold(s, it.step);
    WaitingTold(s, it, t);
    RecordsTold(s, it);
    IdsAsMany(s, it.step);
  }

  lemma BookedIs(s: Setting, it: Iteration)
    requires Booked(s, it)
    ensures it.step.llm.LlmResponse?
    ensures TurnOf(s, it) == Some(ToolRecord(it.at.turnIndex, UserMessageAt(it.at), it.step.llm.content,
                                             Calls(s, it.step), it.p.saved + it.tools.saved, it.tools.records,
                                             it.tools.end))
  {
    hide Calls, ToolRecord, AnswerRecord, Invalid;
  }

  lemma IdsAsMany(s: Setting, step: Step)
    requires step.llm.LlmResponse?
    ensures |BuildAssistant(step.llm.content, RequestIds(Calls(s, step))).callIds| == |Calls(s, step)|
  {
  }

  lemma RecordsTold(s: Setting, it: Iteration)
    requires IterationOk(s, it) && it.step.llm.LlmResponse?
    ensures |it.tools.records| <= |it.step.llm.toolCalls|
    ensures forall j :: 0 <= j < |it.tools.records| ==>
              TellsCall(s, it.step, j, it.at.counter + j + 1, it.tools.records[j])
  {
    hide IterationOk, RecordsFor, Calls, TellsCall, ActedIn, Booked, Answers;
    IterationTools(s, it);
    FirstCalls(s, it.step);
    forall j | 0 <= j < |it.tools.records|
      ensures TellsCall(s, it.step, j, it.at.counter + j + 1, it.tools.records[j])
    {
      CallTold(s, it, j);
    }
  }

  /** Which iterations record a turn, and what it is. */
  lemma TurnTold(s: Setting, it: Iteration)
    requires IterationOk(s, it) && TurnOf(s, it).Some?
    ensures TellsTurn(s, it, TurnOf(s, it).value)
    ensures TurnOf(s, it).value.tokensSavedThisTurn == if Answers(s, it.step) then 0 else ReportedIn(it)
    ensures it.finish.turns == it.tools.turns + [TurnOf(s, it).value]
  {
    hide IterationOk, TellsTurn, Answers, RunsTools, AnswerRecord, ToolRecord;
    FinishTurns(s, it);
    if Answers(s, it.step) { AnswerTold(s, it); } else { ToolTurnTold(s, it); }
  }

  /** Every turn that these iterations record is the one their steps tell. */
  ghost predicate AllTold(s: Setting, trace: seq<Iteration>) {
    forall k :: 0 <= k < |trace| && TurnOf(s, trace[k]).Some? ==> TellsTurn(s, trace[k], TurnOf(s, trace[k]).value)
  }

  lemma RunIsTold(s: Setting, env: nat -> Step, limit: int, start: Position, trace: seq<Iteration>)
    requires RunOf(s, env, limit, start, trace)
    ensures AllTold(s, trace) && forall k :: 0 <= k < |trace| ==> trace[k].step == env(k)
  {
    hide IterationOk, TellsTurn, TurnOf, Final, GoesOn;
    forall k | 0 <= k < |trace| && TurnOf(s, trace[k]).Some?
      ensures TellsTurn(s, trace[k], TurnOf(s, trace[k]).value)
    {
      TurnTold(s, trace[k]);
    }
  }

  // ---------- Recorded turns stay ----------

  lemma HeirsAt(before: seq<TurnRecord>, after: seq<TurnRecord>, i: nat, t: TurnRecord)
    requires Heirs(before, after) && i < |before| && Heir(t, before[i])
    ensures i < |after| && Heir(t, after[i])
  {
    HeirTransitive(t, before[i], after[i]);
  }

  lemma HeirOfItself(t: TurnRecord)
    ensures Heir(t, t)
  {
  }

  /** Without a fold an iteration leaves every earlier turn at its place, up to summaries. */
  lemma EarlierTurnStays(s: Setting, it: Iteration, i: nat, t: TurnRecord)
    requires IterationOk(s, it) && it.step.folded == {}
    requires i < |it.at.books.turns| && Heir(t, it.at.books.turns[i])
    ensures i < |it.finish.turns| && Heir(t, it.finish.turns[i])
  {
    hide *;
    PreparedIs(s, it);
    PreparedHeirs(s, it.at.books.turns, it.at.books.credit, it.step, it.at.turnIndex, it.p);
    ToolsHeirs(s, it);
    FinishTurns(s, it);
    HeirsAt(it.at.books.turns, it.p.compacted, i, t);
    HeirsAt(it.p.ready, it.tools.turns, i, t);
  }

  /**
   Without folds the turn that iteration `k` of a run records, as the script of that iteration tells it, is in the
   session when the run ends, at its own place and changed in summaries only.
   */
  lemma {:induction false} RecordedTurnStays(
    s: Setting, env: nat -> Step, limit: int, start: Position, trace: seq<Iteration>, k: nat)
    requires RunOf(s, env, limit, start, trace) && Starts(s, start) && NoFold(env) && k < |trace|
    requires TurnOf(s, trace[k]).Some?
    ensures
      var turns, place := Final(start, trace).books.turns, trace[k].at.turnIndex;
      && trace[k].step == env(k) && TellsTurn(s, trace[k], TurnOf(s, trace[k]).value)
      && place < |turns| && Heir(TurnOf(s, trace[k]).value, turns[place])
    decreases |trace|
  {
    hide RunOf, IterationOk, TellsTurn, TurnOf, Heir;
    var n := |trace| - 1;
    RunPrefix(s, env, limit, start, trace);
    if k < n {
      assert trace[..n][k] == trace[k];
      RecordedTurnStays(s, env, limit, start, trace[..n], k);
      EarlierTurnStays(s, trace[n], trace[k].at.turnIndex, TurnOf(s, trace[k]).value);
    } else {
      TurnTold(s, trace[n]);
      PlaceOfNext(s, env, limit, start, trace[..n]);
      PlaceOfTools(s, trace[n]);
      HeirOfItself(TurnOf(s, trace[n]).value);
    }
  }

  lemma PlaceOfTools(s: Setting, it: Iteration)
    requires IterationOk(s, it) && it.step.folded == {}
    ensures |it.tools.turns| == |it.at.books.turns|
  {
    hide *;
    PreparedIs(s, it);
    PreparedHeirs(s, it.at.books.turns, it.at.books.credit, it.step, it.at.turnIndex, it.p);
    ToolsHeirs(s, it);
    SameLength(it.at.books.turns, it.p.compacted);
  }

  lemma PlaceOfNext(s: Setting, env: nat -> Step, limit: int, start: Position, trace: seq<Iteration>)
    requires RunOf(s, env, limit, start, trace) && Starts(s, start) && NoFold(env) && GoesOn(trace)
    ensures |Final(start, trace).books.turns| == Final(start, trace).turnIndex
  {
    hide RunOf, Heirs, IterationOk, FirstMessage;
    RunHasShape(s, env, limit, start, trace);
  }

  // ---------- How an iteration ends ----------

  /** A turn was recorded and nothing but the hook and the limits decides how it ends. */
  predicate LeftToDecide(s: Setting, it: Iteration) {
    Answers(s, it.step) || (RunsTools(s, it.step) && it.tools.end == AllDone)
  }

  predicate Injects(step: Step) {
    step.decision.Inject? && step.decision.message != ""
  }

  /** When each way to end an iteration is taken. */
  lemma EndTold(s: Setting, it: Iteration)
    requires IterationOk(s, it)
    ensures
      var limit := s.config.humanInLoopAfterTurns;
      var due := limit.Some? && it.at.runTurnIndex + 1 >= limit.value;
      var free := LeftToDecide(s, it) && !it.step.decision.Stop? && !Injects(it.step);
      && (it.end == Retry <==> Invalid(s, it.step) && it.at.retries > 0)
      && (it.end == Answered <==> free && Answers(s, it.step) && !due)
      && (it.end.NextTurn? <==>
            || (LeftToDecide(s, it) && Injects(it.step)) || (free && !Answers(s, it.step) && !due && !it.step.timedOut))
      && (it.end.NextTurn? ==> it.end.message == if Injects(it.step) then it.step.decision.message else it.at.message)
      && (it.end == Ended(Interrupted) <==> LeftToDecide(s, it) && it.step.decision.Stop?)
      && (it.end == Ended(Paused) <==>
            (free && due) || (RunsTools(s, it.step) && it.tools.end == StoppedForClient))
      && (it.end == Raised(Interrupted) <==>
            it.step.llm.LlmCancelled? || (RunsTools(s, it.step) && it.tools.end == CancelledMidway))
      && (it.end == Raised(Error) <==>
            || it.step.llm.LlmFailed? || (Invalid(s, it.step) && it.at.retries == 0)
            || (RunsTools(s, it.step) && it.tools.end == FailedMidway)
            || (free && !Answers(s, it.step) && !due && it.step.timedOut))
  {
    hide IterationOk, Calls;
    EndIs(s, it);
    KindsOfStep(s, it.step);
    hide Invalid, Answers, RunsTools;
  }

  lemma KindsOfStep(s: Setting, step: Step)
    ensures step.llm.LlmResponse? <==> Invalid(s, step) || Answers(s, step) || RunsTools(s, step)
    ensures !(Invalid(s, step) && Answers(s, step))
    ensures !(RunsTools(s, step) && (Invalid(s, step) || Answers(s, step)))
  {
    hide Calls;
  }

  /** A valid structured result gives every retry back; an invalid one uses one up; nothing else touches them. */
  lemma RetriesTold(s: Setting, it: Iteration)
    requires IterationOk(s, it)
    ensures
      var structured := it.step.llm.LlmResponse? && it.step.llm.toolCalls == [] && s.config.hasResultType;
      && (structured && it.step.structuredValid ==> it.retriesLeft == s.config.structuredOutputMaxRetries)
      && (structured && !it.step.structuredValid && it.at.retries > 0 ==> it.retriesLeft == it.at.retries - 1)
      && (!structured ==> it.retriesLeft == it.at.retries)
  {
    hide IterationOk;
    EndIs(s, it);
  }

  // ---------- Summaries before and during a turn ----------

  /** The update was given with one of the first calls. */
  ghost predicate GivenWith(u: RawUpdate, toolCalls: seq<ToolCallRequest>, handled: nat) {
    exists j :: 0 <= j < handled && j < |toolCalls| && u in toolCalls[j].contextUpdates
  }

  lemma {:induction false} ActedAllMeans(s: Setting, toolCalls: seq<ToolCallRequest>, u: RawUpdate)
    ensures u in ActedAll(s, toolCalls) <==> s.config.rcsEnabled && GivenWith(u, toolCalls, |toolCalls|)
  {
    if toolCalls != [] {
      var n := |toolCalls| - 1;
      ActedAllMeans(s, toolCalls[..n], u);
      assert forall j :: 0 <= j < n ==> toolCalls[..n][j] == toolCalls[j];
    }
  }

  /**
   Before the model call, when the context is over the threshold, the oldest calls without a summary get theirs; during
   the turn the updates given with the calls taken up are written, the last one for a call winning.
   */
  lemma SummariesTold(s: Setting, it: Iteration)
    requires IterationOk(s, it) && Ordered(it.at.books.turns, it.at.books.counter)
    ensures
      if s.compactor.enabled && it.step.contextTokens >= s.compactor.triggerTokenThreshold
      then exists targets ::
             && AreOldest(targets, it.at.books.turns, s.compactor.compactOldestNTcs)
             && AllCompacted(it.at.books.turns, it.p.compacted, targets, it.step.compactorLlm, it.at.turnIndex,
                             s.countSummary)
      else it.p.compacted == it.at.books.turns
    ensures AllResummarized(it.p.ready, it.tools.turns, ActedIn(s, it), it.at.turnIndex, s.countSummary)
    ensures forall u :: u in ActedIn(s, it) <==>
              && s.config.rcsEnabled && RunsTools(s, it.step)
              && GivenWith(u, it.step.llm.toolCalls, it.tools.handled)
  {
    hide IterationOk, AllResummarized, AllCompacted, AreOldest, RunsTools, GivenWith;
    CompactionTold(s, it);
    UpdatesTold(s, it);
    IterationTools(s, it);
    InterceptedMeans(it.p.ready, it.p.credit, ActedIn(s, it), it.at.turnIndex, s.countSummary, it.tools.turns,
                     it.tools.credit);
  }

  lemma CompactionTold(s: Setting, it: Iteration)
    requires IterationOk(s, it) && Ordered(it.at.books.turns, it.at.books.counter)
    ensures
      if s.compactor.enabled && it.step.contextTokens >= s.compactor.triggerTokenThreshold
      then exists targets ::
             && AreOldest(targets, it.at.books.turns, s.compactor.compactOldestNTcs)
             && AllCompacted(it.at.books.turns, it.p.compacted, targets, it.step.compactorLlm, it.at.turnIndex,
                             s.countSummary)
      else it.p.compacted == it.at.books.turns
  {
    hide IterationOk, AllCompacted, AreOldest, CompactedTo, Ordered, CompactorSavings;
    var before, targets := it.at.books.turns, PassTargets(s, it.at.books.turns, it.step);
    PreparedIs(s, it);
    CompactedAllMeans(before, it.at.books.credit, targets, it.step.compactorLlm, it.at.turnIndex, s.countSummary,
                      it.p.compacted, it.p.credit);
    if s.compactor.enabled && it.step.contextTokens >= s.compactor.triggerTokenThreshold {
      TargetsAreOldest(before, it.at.books.counter, s.compactor.compactOldestNTcs);
      AllTargeted(s, before, it.step);
    } else {
      NothingChanged(before, it.at.books.credit, it.step.compactorLlm, it.at.turnIndex, s.countSummary, it.p.compacted,
                     it.p.credit);
    }
  }

  lemma AllTargeted(s: Setting, turns: seq<TurnRecord>, step: Step)
    requires s.compactor.enabled && step.contextTokens >= s.compactor.triggerTokenThreshold
    ensures PassTargets(s, turns, step) == CompactorTargets(turns, s.compactor.compactOldestNTcs)
  {
    hide Unsummarized;
  }

  lemma NothingChanged(
    before: seq<TurnRecord>, credit: map<nat, nat>, llm: nat -> Option<string>, turnIndex: nat, count: string -> nat,
    now: seq<TurnRecord>, credit': map<nat, nat>)
    requires CompactedTo(before, credit, [], llm, turnIndex, count, now, credit')
    ensures now == before
  {
    hide CompactorSummary, Summarized;
    forall i | 0 <= i < |before|
      ensures now[i] == before[i]
    {
      assert now[i].toolCalls == before[i].toolCalls;
    }
  }

  lemma UpdatesTold(s: Setting, it: Iteration)
    requires IterationOk(s, it)
    ensures forall u :: u in ActedIn(s, it) <==>
              && s.config.rcsEnabled && RunsTools(s, it.step)
              && GivenWith(u, it.step.llm.toolCalls, it.tools.handled)
  {
    hide IterationOk, Calls, RunsTools, ActedAll;
    IterationTools(s, it);
    IsResponse(s, it.step);
    if RunsTools(s, it.step) {
      FirstCalls(s, it.step);
      var handled := it.tools.handled;
      hide RunsTools, GivenWith;
      forall u
        ensures u in ActedIn(s, it) <==> s.config.rcsEnabled && GivenWith(u, it.step.llm.toolCalls, handled)
      {
        ActedAllMeans(s, Calls(s, it.step)[..handled], u);
        GivenWithFirst(u, Calls(s, it.step), it.step.llm.toolCalls, handled);
      }
    }
  }

  lemma GivenWithFirst(u: RawUpdate, calls: seq<ToolCallRequest>, all: seq<ToolCallRequest>, handled: nat)
    requires handled <= |calls| <= |all| && forall k :: 0 <= k < |calls| ==> calls[k] == all[k]
    ensures GivenWith(u, calls[..handled], handled) <==> GivenWith(u, all, handled)
  {
    assert forall j :: 0 <= j < handled ==> calls[..handled][j] == all[j];
  }

  lemma IsResponse(s: Setting, step: Step)
    ensures RunsTools(s, step) ==> step.llm.LlmResponse?
  {
    hide Calls;
  }
}
