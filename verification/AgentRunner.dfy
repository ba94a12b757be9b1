/**
 The agent loop of nexus/runner/agent_runner.py with sequential tool execution, proved against the relations of
 RunSpec.dfy: every iteration, every run and every resumed run is one of those described there.
 */
module AgentRunners {
  import opened Text
  import opened Sessions
  import opened AgentSessions
  import opened Rcs
  import opened LlmMessages
  import opened RunHistory
  import opened Savings
  import opened RunSpecs
  import opened RunSavings
  import opened RunMeanings

  const PENDING_SUPERSEDED: string := "Not answered by user: the user sent a new message instead."

  // ---------- Pending interactions ----------

  function Superseded(r: ToolCallRecord, openIds: set<string>): ToolCallRecord {
    if r.tcId in openIds && r.rawResponse == "" then r.(rawResponse := PENDING_SUPERSEDED) else r
  }

  /** One item of `resume`'s results; a missing key reads as "". */
  datatype ResumeResult = ResumeResult(tcId: string, callId: string, content: string)

  function LastByTc(results: seq<ResumeResult>, tcId: string): Option<ResumeResult> {
    if results == [] || tcId == "" then None
    else if results[|results| - 1].tcId == tcId then Some(results[|results| - 1])
    else LastByTc(results[..|results| - 1], tcId)
  }

  function LastByCall(results: seq<ResumeResult>, callId: string): Option<ResumeResult> {
    if results == [] || callId == "" then None
    else if results[|results| - 1].callId == callId then Some(results[|results| - 1])
    else LastByCall(results[..|results| - 1], callId)
  }

  /** The content a pending interaction is resumed with: by TC id, else by call id, else nothing. */
  function AnswerFor(p: PendingInteraction, results: seq<ResumeResult>): string {
    var byTc, byCall := LastByTc(results, p.tcId), LastByCall(results, p.callId);
    if byTc.Some? then byTc.value.content else if byCall.Some? then byCall.value.content else ""
  }

  function Filled(r: ToolCallRecord, tcId: string, content: string): ToolCallRecord {
    if r.tcId == tcId && r.rawResponse == "" then r.(rawResponse := content) else r
  }

  function FilledAll(r: ToolCallRecord, pending: seq<PendingInteraction>, results: seq<ResumeResult>): ToolCallRecord {
    if pending == [] then r
    else
      var last := pending[|pending| - 1];
      Filled(FilledAll(r, pending[..|pending| - 1], results), last.tcId, AnswerFor(last, results))
  }

  // ---------- What a pending call is resumed with ----------

  /** Item `k` is the last one given for this TC id; an empty id is none. */
  predicate LastForTc(results: seq<ResumeResult>, tcId: string, k: int) {
    && 0 <= k < |results| && tcId != "" && results[k].tcId == tcId
    && forall l :: k < l < |results| ==> results[l].tcId != tcId
  }

  predicate LastForCall(results: seq<ResumeResult>, callId: string, k: int) {
    && 0 <= k < |results| && callId != "" && results[k].callId == callId
    && forall l :: k < l < |results| ==> results[l].callId != callId
  }

  predicate NoneForTc(results: seq<ResumeResult>, tcId: string) {
    tcId == "" || forall k :: 0 <= k < |results| ==> results[k].tcId != tcId
  }

  predicate NoneForCall(results: seq<ResumeResult>, callId: string) {
    callId == "" || forall k :: 0 <= k < |results| ==> results[k].callId != callId
  }

  /** The content of the last item for the TC id; without one, of the last for the call id; without either, nothing. */
  ghost predicate IsAnswerTo(p: PendingInteraction, results: seq<ResumeResult>, content: string) {
    && (forall k :: LastForTc(results, p.tcId, k) ==> content == results[k].content)
    && (NoneForTc(results, p.tcId) ==>
          && (forall k :: LastForCall(results, p.callId, k) ==> content == results[k].content)
          && (NoneForCall(results, p.callId) ==> content == ""))
  }

  lemma {:induction false} LastByTcMeans(results: seq<ResumeResult>, tcId: string)
    ensures LastByTc(results, tcId).None? <==> NoneForTc(results, tcId)
    ensures forall k :: LastForTc(results, tcId, k) ==> LastByTc(results, tcId) == Some(results[k])
  {
    if results != [] && tcId != "" && results[|results| - 1].tcId != tcId {
      var n := |results| - 1;
      LastByTcMeans(results[..n], tcId);
      assert forall k :: 0 <= k < n ==> results[..n][k] == results[k];
      forall k | LastForTc(results, tcId, k)
        ensures LastForTc(results[..n], tcId, k)
      {
      }
      assert NoneForTc(results[..n], tcId) ==> NoneForTc(results, tcId);
    }
  }

  lemma {:induction false} LastByCallMeans(results: seq<ResumeResult>, callId: string)
    ensures LastByCall(results, callId).None? <==> NoneForCall(results, callId)
    ensures forall k :: LastForCall(results, callId, k) ==> LastByCall(results, callId) == Some(results[k])
  {
    if results != [] && callId != "" && results[|results| - 1].callId != callId {
      var n := |results| - 1;
      LastByCallMeans(results[..n], callId);
      assert forall k :: 0 <= k < n ==> results[..n][k] == results[k];
      forall k | LastForCall(results, callId, k)
        ensures LastForCall(results[..n], callId, k)
      {
      }
      assert NoneForCall(results[..n], callId) ==> NoneForCall(results, callId);
    }
  }

  /** Someone is asked for one answer only, and it is this one. */
  lemma AnswerForMeans(p: PendingInteraction, results: seq<ResumeResult>)
    ensures forall content :: IsAnswerTo(p, results, content) <==> content == AnswerFor(p, results)
  {
    LastByTcMeans(results, p.tcId);
    LastByCallMeans(results, p.callId);
    LastExists(p, results);
    hide LastByTc, LastByCall, LastForTc, LastForCall, NoneForTc, NoneForCall;
  }

  lemma LastExists(p: PendingInteraction, results: seq<ResumeResult>)
    ensures NoneForTc(results, p.tcId) || exists k :: LastForTc(results, p.tcId, k)
    ensures NoneForCall(results, p.callId) || exists k :: LastForCall(results, p.callId, k)
  {
    if !NoneForTc(results, p.tcId) { var k := LastTc(results, p.tcId, |results|); }
    if !NoneForCall(results, p.callId) { var k := LastCall(results, p.callId, |results|); }
  }

  lemma LastTc(results: seq<ResumeResult>, tcId: string, n: nat) returns (k: int)
    requires tcId != "" && n <= |results| && exists l :: 0 <= l < n && results[l].tcId == tcId
    requires forall l :: n <= l < |results| ==> results[l].tcId != tcId
    ensures LastForTc(results, tcId, k)
  {
    if results[n - 1].tcId == tcId { k := n - 1; } else { k := LastTc(results, tcId, n - 1); }
  }

  lemma LastCall(results: seq<ResumeResult>, callId: string, n: nat) returns (k: int)
    requires callId != "" && n <= |results| && exists l :: 0 <= l < n && results[l].callId == callId
    requires forall l :: n <= l < |results| ==> results[l].callId != callId
    ensures LastForCall(results, callId, k)
  {
    if results[n - 1].callId == callId { k := n - 1; } else { k := LastCall(results, callId, n - 1); }
  }

  /**
   How resuming fills a record `r`: it is left alone if it has a result or nothing pending names it; else it gets the
   answer to the first pending entry that names it and is answered with more than nothing.
   */
  ghost predicate IsFilled(
    r: ToolCallRecord, pending: seq<PendingInteraction>, results: seq<ResumeResult>, after: ToolCallRecord)
  {
    && after == r.(rawResponse := after.rawResponse)
    && (r.rawResponse != "" ==> after.rawResponse == r.rawResponse)
    && ((forall k :: 0 <= k < |pending| && pending[k].tcId == r.tcId ==> IsAnswerTo(pending[k], results, "")) ==>
          after.rawResponse == r.rawResponse)
    && forall k, content ::
         && 0 <= k < |pending| && pending[k].tcId == r.tcId && r.rawResponse == ""
         && IsAnswerTo(pending[k], results, content) && content != ""
         && (forall l :: 0 <= l < k && pending[l].tcId == r.tcId ==> IsAnswerTo(pending[l], results, "")) ==>
           after.rawResponse == content
  }

  lemma {:induction false} FilledAllMeans(
    r: ToolCallRecord, pending: seq<PendingInteraction>, results: seq<ResumeResult>)
    ensures IsFilled(r, pending, results, FilledAll(r, pending, results))
    decreases |pending|
  {
    if pending != [] {
      var n := |pending| - 1;
      FilledAllMeans(r, pending[..n], results);
      FilledNext(r, pending, results, FilledAll(r, pending[..n], results));
    }
  }

  lemma FilledNext(
    r: ToolCallRecord, pending: seq<PendingInteraction>, results: seq<ResumeResult>, mid: ToolCallRecord)
    requires pending != [] && IsFilled(r, pending[..|pending| - 1], results, mid)
    ensures
      var last := pending[|pending| - 1];
      IsFilled(r, pending, results, Filled(mid, last.tcId, AnswerFor(last, results)))
  {
    hide IsAnswerTo, AnswerFor;
    var n := |pending| - 1;
    var front, last := pending[..n], pending[n];
    forall k | 0 <= k < |pending| { AnswerForMeans(pending[k], results); }
    assert forall k :: 0 <= k < n ==> front[k] == pending[k];
  }

  /** `after` is `before` with every record replaced by its image; both are determined by each other. */
  function MapRecords(turns: seq<TurnRecord>, upd: ToolCallRecord -> ToolCallRecord): (after: seq<TurnRecord>)
    ensures RecordsMapped(turns, after, upd)
  {
    seq(|turns|, i requires 0 <= i < |turns| =>
      turns[i].(toolCalls := seq(|turns[i].toolCalls|, j requires 0 <= j < |turns[i].toolCalls| =>
        upd(turns[i].toolCalls[j]))))
  }

  lemma MappedUnique(
    before: seq<TurnRecord>, after: seq<TurnRecord>, upd: ToolCallRecord -> ToolCallRecord)
    requires RecordsMapped(before, after, upd)
    ensures after == MapRecords(before, upd)
  {
    var image := MapRecords(before, upd);
    forall i | 0 <= i < |before|
      ensures after[i] == image[i]
    {
      assert after[i].toolCalls == image[i].toolCalls;
    }
  }

  /** The pending entry names the last recorded call of the session, whose result is still empty. */
  ghost predicate AwaitsLastCall(p: PendingInteraction, turns: seq<TurnRecord>) {
    && turns != []
    && var calls := turns[|turns| - 1].toolCalls;
       && calls != []
       && var r := calls[|calls| - 1];
          r.tcId == p.tcId && r.callId == p.callId && r.toolName == p.toolName && r.rawResponse == ""
  }

  /** Every pending entry is the human-in-the-loop marker or names a recorded call with an empty result. */
  ghost predicate PendingOk(pending: seq<PendingInteraction>, turns: seq<TurnRecord>) {
    forall k :: 0 <= k < |pending| ==>
      || pending[k].tcId == HITL_ID
      || exists i, j :: At(turns, i, j) && Call(turns, i, j).tcId == pending[k].tcId && Call(turns, i, j).rawResponse == ""
  }

  /** What a pause adds to the pending list. */
  ghost predicate PausedOn(p: PendingInteraction, turns: seq<TurnRecord>) {
    p.tcId == HITL_ID || AwaitsLastCall(p, turns)
  }

  /** The last of `records` was deferred to the client, and one pending entry was added for it. */
  ghost predicate DeferredLast(
    records: seq<ToolCallRecord>, before: seq<PendingInteraction>, after: seq<PendingInteraction>)
  {
    && records != [] && |after| == |before| + 1 && after[..|before|] == before
    && var r, p := records[|records| - 1], after[|before|];
       r.tcId == p.tcId && r.callId == p.callId && r.toolName == p.toolName && r.rawResponse == ""
  }

  lemma DeferredLater(
    records: seq<ToolCallRecord>, r: ToolCallRecord, before: seq<PendingInteraction>, after: seq<PendingInteraction>)
    requires DeferredLast([r], before, after)
    ensures DeferredLast(records + [r], before, after)
  {
  }

  lemma LastCallAwaited(
    before: seq<PendingInteraction>, after: seq<PendingInteraction>, turns: seq<TurnRecord>, turn: TurnRecord)
    requires turns != [] && turns[|turns| - 1] == turn && DeferredLast(turn.toolCalls, before, after)
    ensures |after| == |before| + 1 && after[..|before|] == before && PausedOn(after[|before|], turns)
  {
  }

  lemma PausedOnIsOk(p: PendingInteraction, turns: seq<TurnRecord>)
    requires PausedOn(p, turns)
    ensures PendingOk([p], turns)
  {
    if p.tcId != HITL_ID {
      var i := |turns| - 1;
      var j := |turns[i].toolCalls| - 1;
      assert At(turns, i, j) && Call(turns, i, j).tcId == p.tcId;
    }
  }

  datatype ToolOutcome =
    | ToolDone(record: ToolCallRecord)
    | ToolPaused(record: ToolCallRecord)
    | ToolFailed

  /** The recorded turns a run starts from: a new user message closes what the session was waiting for. */
  function Opened(turns: seq<TurnRecord>, pending: seq<PendingInteraction>, userMessage: string): seq<TurnRecord> {
    if userMessage != "" && pending != []
    then MapRecords(turns, r => Superseded(r, set p | p in pending :: p.tcId))
    else turns
  }

  /** A new message gives every call that was waited for the notice; without one nothing changes. */
  ghost predicate IsOpened(
    r: ToolCallRecord, pending: seq<PendingInteraction>, userMessage: string, after: ToolCallRecord)
  {
    if userMessage != "" && r.rawResponse == "" && exists k :: 0 <= k < |pending| && pending[k].tcId == r.tcId
    then after == r.(rawResponse := PENDING_SUPERSEDED)
    else after == r
  }

  ghost predicate AllOpened(
    before: seq<TurnRecord>, pending: seq<PendingInteraction>, userMessage: string, after: seq<TurnRecord>)
  {
    && |after| == |before|
    && forall i :: 0 <= i < |before| ==>
         && after[i] == before[i].(toolCalls := after[i].toolCalls)
         && |after[i].toolCalls| == |before[i].toolCalls|
         && forall j :: 0 <= j < |before[i].toolCalls| ==>
              IsOpened(before[i].toolCalls[j], pending, userMessage, after[i].toolCalls[j])
  }

  lemma SupersededOpens(
    before: seq<TurnRecord>, pending: seq<PendingInteraction>, userMessage: string, openIds: set<string>,
    after: seq<TurnRecord>)
    requires userMessage != "" && IdsOf(openIds, pending)
    requires RecordsMapped(before, after, r => Superseded(r, openIds))
    ensures AllOpened(before, pending, userMessage, after)
  {
  }

  ghost predicate IdsOf(ids: set<string>, pending: seq<PendingInteraction>) {
    forall id :: id in ids <==> exists k :: 0 <= k < |pending| && pending[k].tcId == id
  }

  lemma IdsByPlace(ids: set<string>, pending: seq<PendingInteraction>)
    requires forall id :: id in ids <==> exists p :: p in pending && p.tcId == id
    ensures IdsOf(ids, pending)
  {
    forall id
      ensures id in ids <==> exists k :: 0 <= k < |pending| && pending[k].tcId == id
    {
      if id in ids {
        var p :| p in pending && p.tcId == id;
        var k :| 0 <= k < |pending| && pending[k] == p;
      }
      if k :| 0 <= k < |pending| && pending[k].tcId == id {
        assert pending[k] in pending;
      }
    }
  }

  lemma OpenedMeans(turns: seq<TurnRecord>, pending: seq<PendingInteraction>, userMessage: string)
    ensures AllOpened(turns, pending, userMessage, Opened(turns, pending, userMessage))
  {
    hide MapRecords;
    if userMessage != "" && pending != [] {
      var openIds := set p | p in pending :: p.tcId;
      IdsByPlace(openIds, pending);
      SupersededOpens(turns, pending, userMessage, openIds, Opened(turns, pending, userMessage));
    }
  }

  /** Every record is filled as the pending entries and the given results say. */
  ghost predicate AllFilled(
    before: seq<TurnRecord>, pending: seq<PendingInteraction>, results: seq<ResumeResult>, after: seq<TurnRecord>)
  {
    && |after| == |before|
    && forall i :: 0 <= i < |before| ==>
         && after[i] == before[i].(toolCalls := after[i].toolCalls)
         && |after[i].toolCalls| == |before[i].toolCalls|
         && forall j :: 0 <= j < |before[i].toolCalls| ==>
              IsFilled(before[i].toolCalls[j], pending, results, after[i].toolCalls[j])
  }

  lemma AnsweredMeans(turns: seq<TurnRecord>, pending: seq<PendingInteraction>, results: seq<ResumeResult>)
    ensures AllFilled(turns, pending, results, MapRecords(turns, r => FilledAll(r, pending, results)))
  {
    hide FilledAll, IsFilled, MapRecords;
    forall r ensures IsFilled(r, pending, results, FilledAll(r, pending, results)) {
      FilledAllMeans(r, pending, results);
    }
    assert RecordsMapped(turns, MapRecords(turns, r => FilledAll(r, pending, results)), r => FilledAll(r, pending, results));
  }

  /** How the pending list ends up, given the entries the run started with. */
  ghost predicate EndsPending(
    kept: seq<PendingInteraction>, now: seq<PendingInteraction>, turns: seq<TurnRecord>, status: RunStatus)
  {
    if status == Paused
    then |now| == |kept| + 1 && now[..|kept|] == kept && PausedOn(now[|kept|], turns)
    else now == kept
  }

  /** The session as the savings ledger sees it. */
  ghost function BooksOf(session: AgentSession): Books
    reads session
  {
    Books(session.turns, session.recorded, session.totalTokensSaved, session.credit, session.away)
  }

  lemma BooksAre(session: AgentSession)
    ensures BooksOf(session).turns == session.turns && BooksOf(session).total == session.totalTokensSaved
    ensures IsNetReduction(session) <==> session.totalTokensSaved == SumTurns(session.turns, Reduction)
  {
  }

  /** The turns' sum is the session total: everything saved so far is booked on a turn. */
  predicate TiesOut(session: AgentSession)
    reads session
  {
    TurnSavings(session.turns) == session.totalTokensSaved
  }

  lemma TiesOutMeans(session: AgentSession)
    requires session.Valid()
    ensures TiesOut(session) <==> session.unattributed == 0
  {
  }

  lemma BooksAreOk(session: AgentSession)
    requires session.Valid()
    ensures BooksOk(BooksOf(session)) && CreditUpTo(session.credit, session.recorded)
    ensures session.recorded <= session.tcCounter
  {
  }

  /** Where a run starts that finds these books: pending calls are closed by a new user message. */
  ghost function RunStart(
    s: Setting, books: Books, counter: nat, pending: seq<PendingInteraction>, userMessage: string): Position
  {
    StartOf(s, userMessage, counter, books.(turns := Opened(books.turns, pending, userMessage)))
  }

  /** The session total is what its calls cost less. */
  ghost predicate IsNetReduction(session: AgentSession)
    reads session
  {
    session.totalTokensSaved == SumTurns(session.turns, Reduction)
  }

  /** When the total is the net reduction after a run that found these books and this pending list. */
  lemma OpenedRunExact(
    s: Setting, env: nat -> Step, limit: int, b: Books, counter: nat, pending: seq<PendingInteraction>,
    userMessage: string, trace: seq<Iteration>)
    requires BooksOk(b) && RunOf(s, env, limit, RunStart(s, b, counter, pending, userMessage), trace)
    ensures
      var last := Final(RunStart(s, b, counter, pending, userMessage), trace).books;
      && SumTurns(last.turns, Reduction) <= last.total
      && (last.total == SumTurns(last.turns, Reduction) <==> RunExact(s, b, trace))
  {
    hide RunOf, BooksOk, SumTurns, RunExact, Final;
    var start := RunStart(s, b, counter, pending, userMessage);
    if userMessage != "" && pending != [] {
      var openIds := set p | p in pending :: p.tcId;
      OpenedRunNetReduction(s, env, limit, b, start, trace, r => Superseded(r, openIds));
    } else {
      assert RecordsMapped(b.turns, b.turns, r => r);
      OpenedRunNetReduction(s, env, limit, b, start, trace, r => r);
    }
  }

  lemma {:induction false} FilledCostsTheSame(
    r: ToolCallRecord, pending: seq<PendingInteraction>, results: seq<ResumeResult>)
    ensures FilledAll(r, pending, results) == r.(rawResponse := FilledAll(r, pending, results).rawResponse)
  {
    if pending != [] {
      FilledCostsTheSame(r, pending[..|pending| - 1], results);
    }
  }

  /** Answering pending calls leaves open whether the books of the run that follows are exact. */
  lemma AnsweredIsExact(
    s: Setting, b: Books, pending: seq<PendingInteraction>, results: seq<ResumeResult>, trace: seq<Iteration>)
    ensures
      var answered := MapRecords(b.turns, r => FilledAll(r, pending, results));
      RunExact(s, b, trace) <==> RunExact(s, b.(turns := answered), trace)
  {
    hide FilledAll, RunExact;
    var answered := MapRecords(b.turns, r => FilledAll(r, pending, results));
    forall r ensures FilledAll(r, pending, results) == r.(rawResponse := FilledAll(r, pending, results).rawResponse) {
      FilledCostsTheSame(r, pending, results);
    }
    assert SameCosts(b.turns, answered);
    ExactFromBoth(s, b, answered, trace);
  }

  lemma NameOf(index: nat)
    ensures TcName(index) == "TC" + Decimal(index)
  {
  }

  class AgentRunner {
    const config: RunnerConfig
    const registry: ToolRegistry
    const countResult: string -> nat
    const countSummary: string -> nat
    const interceptor: ContextUpdateInterceptor
    const compactor: ServerCompactor

    constructor (
      config: RunnerConfig, registry: ToolRegistry, countResult: string -> nat, countSummary: string -> nat)
      ensures Settings() == Setting(config, registry, config.fallbackCompactor, countResult, countSummary)
    {
      this.config, this.registry := config, registry;
      this.countResult, this.countSummary := countResult, countSummary;
      interceptor := new ContextUpdateInterceptor();
      compactor := new ServerCompactor(config.fallbackCompactor);
    }

    function Settings(): Setting {
      Setting(config, registry, compactor.config, countResult, countSummary)
    }

    /** A new user message ends whatever the paused run was waiting for. */
    method ClosePendingInteractions(session: AgentSession)
      requires session.Valid()
      modifies session`turns, session`pendingInteractions
      ensures session.Valid() && session.pendingInteractions == []
      ensures var openIds := set p | p in old(session.pendingInteractions) :: p.tcId;
              session.turns == MapRecords(old(session.turns), r => Superseded(r, openIds))
      ensures AllOpened(old(session.turns), old(session.pendingInteractions), "a message", session.turns)
    {
      hide Consistent, AllOpened;
      var openIds := set p | p in session.pendingInteractions :: p.tcId;
      IdsByPlace(openIds, session.pendingInteractions);
      hide IdsOf;
      ghost var waiting := session.pendingInteractions;
      var turns := session.turns;
      for i := 0 to |turns|
        invariant session.Valid() && session.turns == old(session.turns)
        invariant |turns| == |session.turns| && turns[i..] == session.turns[i..]
        invariant RecordsMapped(session.turns[..i], turns[..i], r => Superseded(r, openIds))
      {
        assert turns[i] == turns[i..][0] == session.turns[i..][0];
        var calls := SupersedeTurn(turns[i].toolCalls, openIds);
        turns := turns[i := turns[i].(toolCalls := calls)];
      }
      assert turns[..|turns|] == turns && session.turns[..|turns|] == session.turns;
      MappedUnique(session.turns, turns, r => Superseded(r, openIds));
      RawKeepsConsistent(session.turns, session.recorded, session.totalTokensSaved, session.credit, session.away,
                         session.unattributed, turns, r => Superseded(r, openIds));
      SupersededOpens(session.turns, waiting, "a message", openIds, turns);
      session.turns := turns;
      session.pendingInteractions := [];
    }

    /** The inner loop: every open call of one turn gets the notice. */
    method SupersedeTurn(before: seq<ToolCallRecord>, openIds: set<string>) returns (calls: seq<ToolCallRecord>)
      ensures |calls| == |before|
      ensures forall l :: 0 <= l < |before| ==> calls[l] == Superseded(before[l], openIds)
    {
      calls := before;
      for j := 0 to |calls|
        invariant |calls| == |before|
        invariant forall l :: 0 <= l < |before| ==> calls[l] == if l < j then Superseded(before[l], openIds) else before[l]
      {
        if calls[j].tcId in openIds && calls[j].rawResponse == "" {
          calls := calls[j := calls[j].(rawResponse := PENDING_SUPERSEDED)];
        }
      }
    }

    /** Gives one pending call its content, if its record still has none. */
    method FillPending(session: AgentSession, tcId: string, content: string)
      requires session.Valid()
      modifies session`turns
      ensures session.Valid()
      ensures session.turns == MapRecords(old(session.turns), r => Filled(r, tcId, content))
    {
      hide Consistent;
      var turns := session.turns;
      var i := |turns|;
      while i > 0
        invariant session.Valid() && session.turns == old(session.turns)
        invariant 0 <= i <= |turns| == |session.turns|
        invariant turns[..i] == session.turns[..i]
        invariant RecordsMapped(session.turns[i..], turns[i..], r => Filled(r, tcId, content))
      {
        ghost var tail := turns[i..];
        i := i - 1;
        assert turns[i] == turns[..i + 1][i] == session.turns[..i + 1][i] == session.turns[i];
        var calls := FillTurn(session, i, tcId, content);
        turns := turns[i := turns[i].(toolCalls := calls)];
        assert turns[i..] == [turns[i]] + tail && session.turns[i..] == [session.turns[i]] + session.turns[i + 1..];
      }
      MappedUnique(session.turns, turns, r => Filled(r, tcId, content));
      RawKeepsConsistent(session.turns, session.recorded, session.totalTokensSaved, session.credit, session.away,
                         session.unattributed, turns, r => Filled(r, tcId, content));
      session.turns := turns;
    }

    /** The inner loop of `resume`: it stops at the first call it fills, which is the only one with this id. */
    method FillTurn(session: AgentSession, i: nat, tcId: string, content: string) returns (calls: seq<ToolCallRecord>)
      requires session.Valid() && i < |session.turns|
      ensures |calls| == |session.turns[i].toolCalls|
      ensures forall l :: 0 <= l < |calls| ==> calls[l] == Filled(session.turns[i].toolCalls[l], tcId, content)
    {
      calls := session.turns[i].toolCalls;
      for j := 0 to |calls|
        invariant calls == session.turns[i].toolCalls
        invariant forall l :: 0 <= l < j ==> calls[l] == Filled(session.turns[i].toolCalls[l], tcId, content)
      {
        if calls[j].tcId == tcId && calls[j].rawResponse == "" {
          forall l | j < l < |calls|
            ensures calls[l].tcId != tcId
          {
            if calls[l].tcId == tcId {
              assert At(session.turns, i, j) && At(session.turns, i, l);
              IdsAreUnique(session.turns, session.recorded, i, j, i, l);
            }
          }
          calls := calls[j := calls[j].(rawResponse := content)];
          break;
        }
      }
    }

    method MaybePauseForHumanInLoop(session: AgentSession, runTurnIndex: nat) returns (paused: bool)
      modifies session`pendingInteractions
      ensures paused <==> HumanDue(Settings(), runTurnIndex)
      ensures paused <==> config.humanInLoopAfterTurns.Some? && config.humanInLoopAfterTurns.value <= runTurnIndex + 1
      ensures !paused ==> session.pendingInteractions == old(session.pendingInteractions)
      ensures paused ==> session.pendingInteractions ==
                           old(session.pendingInteractions)
                           + [PendingInteraction(HITL_ID, "", "human_in_loop", Elicitation)]
    {
      if config.humanInLoopAfterTurns.None? {
        return false;
      }
      if runTurnIndex + 1 < config.humanInLoopAfterTurns.value {
        return false;
      }
      session.pendingInteractions :=
        session.pendingInteractions + [PendingInteraction(HITL_ID, "", "human_in_loop", Elicitation)];
      return true;
    }

    /**
     Runs or defers one tool call. A tool that needs approval never gets as far as pausing: its kind "approval" is
     not one that a pending interaction may have, so building the entry fails and the run ends in an error.
     */
    method HandleTool(session: AgentSession, request: ToolCallRequest, turnIndex: nat, result: string)
      returns (outcome: ToolOutcome, saved: nat)
      requires session.Valid()
      modifies session
      ensures session.Valid() && session.recorded == old(session.recorded) && session.away == old(session.away)
      ensures session.tcCounter == old(session.tcCounter) + 1
      ensures session.unattributed == old(session.unattributed) + saved
      ensures session.totalTokensSaved == old(session.totalTokensSaved) + saved
      ensures saved == InterceptorSavings(old(session.turns), Acted(Settings(), request), countSummary)
      ensures outcome.ToolFailed? <==> registry.requiresApproval(request.toolName)
      ensures outcome.ToolPaused? <==>
              Deferred(Settings(), request) && !registry.requiresApproval(request.toolName)
      ensures !outcome.ToolFailed? ==> outcome.record == RecordFor(Settings(), request, session.tcCounter, result)
      ensures outcome.ToolDone? ==> outcome.record.rawResponse == result && outcome.record.tokensRaw == countResult(result)
      ensures outcome.ToolPaused? ==> outcome.record.rawResponse == "" && outcome.record.tokensRaw == 0
      ensures !outcome.ToolFailed? ==>
                && outcome.record.tcIndex == session.tcCounter && outcome.record.tcId == "TC" + Decimal(session.tcCounter)
                && outcome.record.toolName == request.toolName && outcome.record.callId == request.id
      ensures Intercepted(old(session.turns), old(session.credit), Acted(Settings(), request), turnIndex, countSummary,
                          session.turns, session.credit)
      ensures session.pendingInteractions ==
                old(session.pendingInteractions)
                + if outcome.ToolPaused?
                  then [PendingInteraction(outcome.record.tcId, request.id, request.toolName,
                                           if IsElicitation(request) then Elicitation else ClientTool)]
                  else []
    {
      hide Consistent, Intercepted, EndsWith, InterceptorSavings, Reports, Applicable, TcName, SumReported;
      var applied := interceptor.Intercept(session, config.rcsEnabled, request.contextUpdates, turnIndex, countSummary);
      saved := SumReported(applied);
      var _ := session.NextTcIndex();
      var tcIndex := session.tcCounter;
      var tcId := TcName(tcIndex);
      NameOf(tcIndex);
      var needsApproval := registry.requiresApproval(request.toolName);
      if registry.isClient(request.toolName) || EndsWith(request.toolName, "request_user_input") || needsApproval {
        if needsApproval {
          outcome := ToolFailed;
          return;
        }
        var kind := if EndsWith(request.toolName, "request_user_input") then Elicitation else ClientTool;
        var pending := PendingInteraction(tcId, request.id, request.toolName, kind);
        session.pendingInteractions := session.pendingInteractions + [pending];
        outcome := ToolPaused(
          ToolCallRecord(tcId, tcIndex, request.toolName, request.id, "", None, None, 0, None));
        return;
      }
      outcome := ToolDone(
        ToolCallRecord(tcId, tcIndex, request.toolName, request.id, result, None, None, countResult(result), None));
    }

    /** The next call of a turn, after the updates of the first `i` calls were applied to `before`. */
    method RunNext(
      session: AgentSession, toolCalls: seq<ToolCallRequest>, i: nat, turnIndex: nat, result: string,
      ghost before: seq<TurnRecord>, ghost credit: map<nat, nat>)
      returns (outcome: ToolOutcome, saved: nat)
      requires session.Valid() && i < |toolCalls|
      requires Intercepted(before, credit, ActedAll(Settings(), toolCalls[..i]), turnIndex, countSummary,
                           session.turns, session.credit)
      modifies session
      ensures session.Valid() && session.recorded == old(session.recorded) && session.away == old(session.away)
      ensures session.tcCounter == old(session.tcCounter) + 1
      ensures session.unattributed == old(session.unattributed) + saved
      ensures session.totalTokensSaved == old(session.totalTokensSaved) + saved
      ensures Intercepted(before, credit, ActedAll(Settings(), toolCalls[..i + 1]), turnIndex, countSummary,
                          session.turns, session.credit)
      ensures outcome.ToolFailed? <==> registry.requiresApproval(toolCalls[i].toolName)
      ensures outcome.ToolPaused? <==>
              Deferred(Settings(), toolCalls[i]) && !registry.requiresApproval(toolCalls[i].toolName)
      ensures !outcome.ToolFailed? ==> outcome.record == RecordFor(Settings(), toolCalls[i], session.tcCounter, result)
      ensures if outcome.ToolPaused?
              then DeferredLast([outcome.record], old(session.pendingInteractions), session.pendingInteractions)
              else session.pendingInteractions == old(session.pendingInteractions)
    {
      hide Consistent, Intercepted, ActedAll, Acted, EndsWith, IsElicitation, InterceptorSavings;
      ghost var turns, credit0 := session.turns, session.credit;
      outcome, saved := HandleTool(session, toolCalls[i], turnIndex, result);
      ActedNext(Settings(), toolCalls, i);
      InterceptedCompose(before, credit, ActedAll(Settings(), toolCalls[..i]), turns, credit0,
                         Acted(Settings(), toolCalls[i]), session.turns, session.credit, turnIndex, countSummary);
    }

    /** The calls of one turn, in order; it stops at the first one that pauses, fails or finds the run cancelled. */
    method RunTools(session: AgentSession, toolCalls: seq<ToolCallRequest>, turnIndex: nat, step: Step)
      returns (records: seq<ToolCallRecord>, end: ToolsEnd, saved: nat, ghost handled: nat)
      requires session.Valid()
      modifies session
      ensures session.Valid() && session.recorded == old(session.recorded) && session.away == old(session.away)
      ensures session.tcCounter == old(session.tcCounter) + handled
      ensures session.unattributed == old(session.unattributed) + saved
      ensures session.totalTokensSaved == old(session.totalTokensSaved) + saved
      ensures RecordsFor(Settings(), records, toolCalls, old(session.tcCounter), step)
      ensures StopsRightly(Settings(), toolCalls, step, |records|, handled, end)
      ensures handled <= |toolCalls| &&
              Intercepted(old(session.turns), old(session.credit), ActedAll(Settings(), toolCalls[..handled]), turnIndex,
                          countSummary, session.turns, session.credit)
      ensures if end == StoppedForClient
              then DeferredLast(records, old(session.pendingInteractions), session.pendingInteractions)
              else session.pendingInteractions == old(session.pendingInteractions)
    {
      hide Consistent, Intercepted, ActedAll, RecordsFor, RecordFor, Deferred, DeferredLast;
      records, end, saved, handled := [], AllDone, 0, 0;
      ghost var turns0, credit0, counter0 := session.turns, session.credit, session.tcCounter;
      NothingActed(turns0, credit0, toolCalls, turnIndex, step);
      for i := 0 to |toolCalls|
        invariant session.Valid() && session.recorded == old(session.recorded) && session.away == old(session.away)
        invariant session.tcCounter == old(session.tcCounter) + i && |records| == i == handled
        invariant Intercepted(turns0, credit0, ActedAll(Settings(), toolCalls[..i]), turnIndex, countSummary,
                              session.turns, session.credit)
        invariant session.unattributed == old(session.unattributed) + saved
        invariant session.totalTokensSaved == old(session.totalTokensSaved) + saved
        invariant RecordsFor(Settings(), records, toolCalls, old(session.tcCounter), step)
        invariant forall j :: 0 <= j < i ==>
                    !Deferred(Settings(), toolCalls[j]) && Passable(Settings(), toolCalls, step, j)
        invariant session.pendingInteractions == old(session.pendingInteractions) && end == AllDone
      {
        if step.cancelledBeforeTool(i) {
          end := CancelledMidway;
          return;
        }
        var outcome, callSaved := RunNext(session, toolCalls, i, turnIndex, step.toolResult(i), turns0, credit0);
        saved, handled := saved + callSaved, i + 1;
        if outcome.ToolFailed? {
          end := FailedMidway;
          return;
        }
        RecordsForNext(Settings(), records, toolCalls, counter0, step, outcome.record);
        if outcome.ToolPaused? {
          DeferredLater(records, outcome.record, old(session.pendingInteractions), session.pendingInteractions);
        }
        records := records + [outcome.record];
        if outcome.ToolPaused? {
          end := StoppedForClient;
          return;
        }
      }
    }

    lemma NothingActed(
      turns: seq<TurnRecord>, credit: map<nat, nat>, toolCalls: seq<ToolCallRequest>, turnIndex: nat, step: Step)
      ensures Intercepted(turns, credit, ActedAll(Settings(), toolCalls[..0]), turnIndex, countSummary, turns, credit)
      ensures forall low :: RecordsFor(Settings(), [], toolCalls, low, step)
    {
      InterceptNothing(turns, credit, turnIndex, countSummary);
      assert toolCalls[..0] == [];
    }

    /** The tools of a turn with all that they leave behind; the savings are those of the updates taken up. */
    method RunToolsOfTurn(session: AgentSession, toolCalls: seq<ToolCallRequest>, turnIndex: nat, step: Step)
      returns (records: seq<ToolCallRecord>, end: ToolsEnd, saved: nat, ghost done: ToolsDone)
      requires session.Valid()
      modifies session
      ensures session.Valid() && session.recorded == old(session.recorded) && session.away == old(session.away)
      ensures session.tcCounter == old(session.tcCounter) + done.handled
      ensures done == ToolsDone(records, done.handled, end, saved, session.turns, session.credit)
      ensures ToolsOk(Settings(), old(session.turns), old(session.credit), toolCalls, step, turnIndex,
                      old(session.tcCounter), done)
      ensures session.unattributed == old(session.unattributed) + saved
      ensures session.totalTokensSaved == old(session.totalTokensSaved) + saved
      ensures if end == StoppedForClient
              then DeferredLast(records, old(session.pendingInteractions), session.pendingInteractions)
              else session.pendingInteractions == old(session.pendingInteractions)
    {
      hide DeferredLast, StopsRightly, Intercepted, RecordsFor, ActedAll, Ordered, LedgerOk, InterceptorSavings;
      ghost var turns, total, credit := session.turns, session.totalTokensSaved, session.credit;
      ghost var handled;
      assert LedgerOk(turns, total, credit, session.away);
      records, end, saved, handled := RunTools(session, toolCalls, turnIndex, step);
      assert LedgerOk(session.turns, session.totalTokensSaved, session.credit, session.away);
      hide Consistent;
      InterceptedTotal(turns, total, credit, session.away, ActedAll(Settings(), toolCalls[..handled]), turnIndex,
                       countSummary, session.turns, session.credit, session.totalTokensSaved);
      done := ToolsDone(records, handled, end, saved, session.turns, session.credit);
    }

    /** Before the model call: the fallback compactor and the context summarizer, when their thresholds are met. */
    method MaybeCompactAndSummarize(session: AgentSession, turnIndex: nat, step: Step)
      returns (saved: nat, ghost p: Preparation)
      requires session.Valid()
      modifies session`turns, session`totalTokensSaved, session`credit, session`away, session`unattributed
      ensures session.Valid()
      ensures Prepared(Settings(), old(session.turns), old(session.credit), step, turnIndex, p)
      ensures session.turns == p.ready && session.credit == p.credit && saved == p.saved
      ensures session.totalTokensSaved == old(session.totalTokensSaved) + saved
      ensures session.away == old(session.away)
                              + SumTurns(p.compacted, CreditOf(p.credit)) - SumTurns(p.ready, CreditOf(p.credit))
      ensures session.unattributed == old(session.unattributed)
                                      + saved + TurnSavings(p.compacted) - TurnSavings(p.ready)
      ensures saved <= session.unattributed && CreditUpTo(p.credit, session.recorded)
    {
      hide *;
      saved := MaybeCompact(session, turnIndex, step);
      BooksAreOk(session);
      ghost var compacted := session.turns;
      UnfoldNothing(compacted);
      if step.folded != {} {
        session.FoldTurns(step.folded);
      }
      p := Preparation(saved, compacted, session.turns, session.credit);
      IsPrepared(old(session.turns), old(session.credit), step, turnIndex, p);
    }

    method MaybeCompact(session: AgentSession, turnIndex: nat, step: Step) returns (saved: nat)
      requires session.Valid()
      modifies session`turns, session`totalTokensSaved, session`credit, session`unattributed
      ensures session.Valid()
      ensures CompactedTo(old(session.turns), old(session.credit), PassTargets(Settings(), old(session.turns), step),
                          step.compactorLlm, turnIndex, countSummary, session.turns, session.credit)
      ensures saved == CompactorSavings(old(session.turns), PassTargets(Settings(), old(session.turns), step),
                                        step.compactorLlm, countSummary)
      ensures session.totalTokensSaved == old(session.totalTokensSaved) + saved
      ensures session.unattributed == old(session.unattributed) + saved
    {
      saved := 0;
      var trigger := compactor.ShouldTrigger(session, step.contextTokens);
      NothingCompacted(session.turns, session.credit, step.compactorLlm, turnIndex, countSummary);
      hide Consistent, CompactedTo, CompactorSavings, CompactorTargets;
      if trigger {
        saved := compactor.Compact(session, turnIndex, step.compactorLlm, countSummary);
      }
    }

    lemma IsPrepared(before: seq<TurnRecord>, credit: map<nat, nat>, step: Step, turnIndex: nat, p: Preparation)
      requires CompactedTo(before, credit, PassTargets(Settings(), before, step), step.compactorLlm, turnIndex,
                           countSummary, p.compacted, p.credit)
      requires p.saved == CompactorSavings(before, PassTargets(Settings(), before, step), step.compactorLlm, countSummary)
      requires p.ready == Unfolded(p.compacted, step.folded)
      ensures Prepared(Settings(), before, credit, step, turnIndex, p)
    {
    }

    /** What the pending list looks like after an iteration that ended with `end`. */
    twostate predicate PausesExactly(session: AgentSession, end: TurnEnd)
      reads session
    {
      var before, after := old(session.pendingInteractions), session.pendingInteractions;
      if end == Ended(Paused)
      then |after| == |before| + 1 && after[..|before|] == before && PausedOn(after[|before|], session.turns)
      else after == before
    }

    /** Decides how a recorded turn ends, and adds the pending entry if that is a pause. */
    method CloseTurn(session: AgentSession, step: Step, runTurnIndex: nat, otherwise: TurnEnd) returns (end: TurnEnd)
      requires !otherwise.Ended?
      modifies session`pendingInteractions
      ensures end == Decided(Settings(), step, runTurnIndex, otherwise)
      ensures var injects := step.decision.Inject? && step.decision.message != "";
              var due := config.humanInLoopAfterTurns.Some? && config.humanInLoopAfterTurns.value <= runTurnIndex + 1;
              && (step.decision.Stop? ==> end == Ended(Interrupted))
              && (injects ==> end == NextTurn(step.decision.message))
              && (!step.decision.Stop? && !injects && due ==> end == Ended(Paused))
              && (!step.decision.Stop? && !injects && !due ==> end == otherwise)
      ensures PausesExactly(session, end)
    {
      if step.decision.Stop? {
        return Ended(Interrupted);
      }
      if step.decision.Inject? && step.decision.message != "" {
        return NextTurn(step.decision.message);
      }
      var paused := MaybePauseForHumanInLoop(session, runTurnIndex);
      end := if paused then Ended(Paused) else otherwise;
    }

    /** A response without tool calls, when that ends the run: the turn is recorded with no savings booked on it. */
    method AnswerTurn(
      session: AgentSession, content: Option<string>, step: Step, userMessage: Option<string>, turnIndex: nat,
      runTurnIndex: nat)
      returns (end: TurnEnd)
      requires session.Valid()
      modifies session`turns, session`unattributed, session`recorded, session`pendingInteractions
      ensures session.Valid() && session.recorded == session.tcCounter
      ensures session.turns == old(session.turns) + [AnswerRecord(turnIndex, userMessage, content)]
      ensures session.unattributed == old(session.unattributed)
      ensures end == Decided(Settings(), step, runTurnIndex, Answered)
      ensures PausesExactly(session, end)
    {
      hide Consistent;
      session.AppendTurn(AnswerRecord(turnIndex, userMessage, content));
      end := CloseTurn(session, step, runTurnIndex, Answered);
    }

    lemma ReadyToRecord(
      session: AgentSession, toolCalls: seq<ToolCallRequest>, before: seq<TurnRecord>, credit: map<nat, nat>,
      step: Step, turnIndex: nat, counter: nat, done: ToolsDone)
      requires session.Valid() && session.recorded <= counter && counter + done.handled == session.tcCounter
      requires ToolsOk(Settings(), before, credit, toolCalls, step, turnIndex, counter, done)
      ensures WellNumbered(done.records, session.recorded, session.tcCounter)
      ensures forall j :: 0 <= j < |done.records| ==> done.records[j].tokensSummarized.None?
    {
      hide Consistent, RecordsFor;
      RecordsForMeans(Settings(), done.records, toolCalls, counter, session.tcCounter, step);
      assert WellNumbered(done.records, counter, session.tcCounter);
    }

    /** Runs the tools of one response and records the turn, unless the run was cancelled or failed on the way. */
    method RecordToolTurn(
      session: AgentSession, content: Option<string>, toolCalls: seq<ToolCallRequest>, step: Step,
      userMessage: Option<string>, turnIndex: nat, compactorSaved: nat)
      returns (toolsEnd: ToolsEnd, ghost done: ToolsDone)
      requires session.Valid() && compactorSaved <= session.unattributed
      modifies session
      ensures session.Valid() && session.away == old(session.away)
      ensures ToolsOk(Settings(), old(session.turns), old(session.credit), toolCalls, step, turnIndex,
                      old(session.tcCounter), done)
      ensures toolsEnd == done.end && session.credit == done.credit && CreditUpTo(done.credit, old(session.recorded))
      ensures session.tcCounter == old(session.tcCounter) + done.handled
      ensures session.totalTokensSaved == old(session.totalTokensSaved) + done.saved
      ensures if toolsEnd == CancelledMidway || toolsEnd == FailedMidway
              then && session.turns == done.turns && session.recorded == old(session.recorded)
                   && session.unattributed == old(session.unattributed) + done.saved
              else && session.turns
                      == done.turns
                         + [ToolRecord(turnIndex, userMessage, content, toolCalls, compactorSaved + done.saved, done.records,
                                       toolsEnd)]
                   && session.recorded == session.tcCounter
                   && session.unattributed == old(session.unattributed) - compactorSaved
      ensures PausesExactly(session, if toolsEnd == StoppedForClient then Ended(Paused) else Answered)
    {
      hide Consistent, PausedOn, DeferredLast, ToolsOk, WellNumbered, CreditUpTo;
      hide BuildAssistant, RequestIds;
      ghost var turns0, credit0, counter0 := session.turns, session.credit, session.tcCounter;
      BooksAreOk(session);
      var records, saved;
      records, toolsEnd, saved, done := RunToolsOfTurn(session, toolCalls, turnIndex, step);
      BooksAreOk(session);
      if toolsEnd == CancelledMidway || toolsEnd == FailedMidway {
        return;
      }
      ReadyToRecord(session, toolCalls, turns0, credit0, step, turnIndex, counter0, done);
      var turn := ToolRecord(turnIndex, userMessage, content, toolCalls, compactorSaved + saved, records, toolsEnd);
      session.AppendTurn(turn);
      if toolsEnd == StoppedForClient {
        LastCallAwaited(old(session.pendingInteractions), session.pendingInteractions, session.turns, turn);
      }
    }

    /** A response with tool calls (or one that does not end the run): run the tools, record the turn, decide. */
    method ToolTurn(
      session: AgentSession, content: Option<string>, toolCalls: seq<ToolCallRequest>, step: Step,
      userMessage: Option<string>, message: string, turnIndex: nat, runTurnIndex: nat, compactorSaved: nat)
      returns (end: TurnEnd, ghost done: ToolsDone)
      requires session.Valid() && compactorSaved <= session.unattributed
      modifies session
      ensures session.Valid() && session.away == old(session.away)
      ensures ToolsOk(Settings(), old(session.turns), old(session.credit), toolCalls, step, turnIndex,
                      old(session.tcCounter), done)
      ensures session.credit == done.credit && CreditUpTo(done.credit, old(session.recorded))
      ensures session.tcCounter == old(session.tcCounter) + done.handled
      ensures session.totalTokensSaved == old(session.totalTokensSaved) + done.saved
      ensures if done.end == CancelledMidway || done.end == FailedMidway
              then && session.turns == done.turns && session.recorded == old(session.recorded)
                   && session.unattributed == old(session.unattributed) + done.saved
              else && session.turns
                      == done.turns
                         + [ToolRecord(turnIndex, userMessage, content, toolCalls, compactorSaved + done.saved, done.records,
                                       done.end)]
                   && session.recorded == session.tcCounter
                   && session.unattributed == old(session.unattributed) - compactorSaved
      ensures end == match done.end
                     case CancelledMidway => Raised(Interrupted)
                     case FailedMidway => Raised(Error)
                     case StoppedForClient => Ended(Paused)
                     case AllDone =>
                       Decided(Settings(), step, runTurnIndex,
                               if step.timedOut then Raised(Error) else NextTurn(message))
      ensures PausesExactly(session, end)
    {
      hide Consistent, AwaitsLastCall, ToolsOk, ToolRecord, CreditUpTo;
      var toolsEnd;
      toolsEnd, done := RecordToolTurn(session, content, toolCalls, step, userMessage, turnIndex, compactorSaved);
      match toolsEnd {
        case CancelledMidway => end := Raised(Interrupted);
        case FailedMidway => end := Raised(Error);
        case StoppedForClient => end := Ended(Paused);
        case AllDone =>
          end := CloseTurn(session, step, runTurnIndex, if step.timedOut then Raised(Error) else NextTurn(message));
      }
    }

    /** A response that is recorded: the answer, or a turn with tools. */
    method RecordResponse(
      session: AgentSession, step: Step, message: string, turnIndex: nat, runTurnIndex: nat, compactorSaved: nat)
      returns (end: TurnEnd, ghost done: ToolsDone)
      requires session.Valid() && compactorSaved <= session.unattributed
      requires step.llm.LlmResponse? && !Invalid(Settings(), step)
      modifies session
      ensures session.Valid() && session.away == old(session.away)
      ensures end == EndFor(Settings(), step, message, runTurnIndex, 0, done.end)
      ensures if RunsTools(Settings(), step)
              then ToolsOk(Settings(), old(session.turns), old(session.credit), Calls(Settings(), step), step, turnIndex,
                           old(session.tcCounter), done)
              else done == ToolsDone([], 0, AllDone, 0, old(session.turns), old(session.credit))
      ensures session.credit == done.credit && CreditUpTo(done.credit, old(session.recorded))
      ensures session.tcCounter == old(session.tcCounter) + done.handled
      ensures session.totalTokensSaved == old(session.totalTokensSaved) + done.saved
      ensures var userMessage := if runTurnIndex == 0 then Some(message) else None;
              var turn := TurnFor(Settings(), step, turnIndex, userMessage, compactorSaved, done);
              && session.turns == done.turns + OneTurn(turn)
              && session.recorded == if turn.Some? then session.tcCounter else old(session.recorded)
      ensures session.unattributed == old(session.unattributed)
                                      + (if BooksTurn(Settings(), step, done.end) then 0 else compactorSaved + done.saved)
                                      - compactorSaved
      ensures PausesExactly(session, end)
    {
      hide Consistent, PausedOn, CreditUpTo, AnswerRecord, ToolRecord, ToolsOk, Decided, Calls, Invalid;
      BooksAreOk(session);
      done := ToolsDone([], 0, AllDone, 0, session.turns, session.credit);
      var content := step.llm.content;
      var toolCalls := Calls(Settings(), step);
      var turnUserMessage := if runTurnIndex == 0 then Some(message) else None;
      if toolCalls == [] && config.stopOnEmptyToolCalls {
        end := AnswerTurn(session, content, step, turnUserMessage, turnIndex, runTurnIndex);
      } else {
        end, done := ToolTurn(session, content, toolCalls, step, turnUserMessage, message, turnIndex, runTurnIndex,
                              compactorSaved);
      }
    }

    /** What one response leads to: nothing, a recorded answer, or tools and the turn that records them. */
    method Respond(
      session: AgentSession, step: Step, message: string, turnIndex: nat, runTurnIndex: nat, retries: nat,
      compactorSaved: nat)
      returns (end: TurnEnd, retriesRemaining: nat, ghost done: ToolsDone)
      requires session.Valid() && compactorSaved <= session.unattributed
      modifies session
      ensures session.Valid() && session.away == old(session.away)
      ensures var s := Settings();
              && end == EndFor(s, step, message, runTurnIndex, retries, done.end)
              && retriesRemaining == RetriesAfter(s, step, retries)
              && (if RunsTools(s, step)
                  then ToolsOk(s, old(session.turns), old(session.credit), Calls(s, step), step, turnIndex,
                               old(session.tcCounter), done)
                  else done == ToolsDone([], 0, AllDone, 0, old(session.turns), old(session.credit)))
      ensures session.credit == done.credit && CreditUpTo(done.credit, old(session.recorded))
      ensures session.tcCounter == old(session.tcCounter) + done.handled
      ensures session.totalTokensSaved == old(session.totalTokensSaved) + done.saved
      ensures var userMessage := if runTurnIndex == 0 then Some(message) else None;
              var turn := TurnFor(Settings(), step, turnIndex, userMessage, compactorSaved, done);
              && session.turns == done.turns + OneTurn(turn)
              && session.recorded == if turn.Some? then session.tcCounter else old(session.recorded)
      ensures session.unattributed == old(session.unattributed)
                                      + (if BooksTurn(Settings(), step, done.end) then 0 else compactorSaved + done.saved)
                                      - compactorSaved
      ensures PausesExactly(session, end)
    {
      hide Consistent, PausedOn, CreditUpTo, ToolsOk, Decided, Calls, TurnFor, EndFor, BooksTurn, RunsTools;
      BooksAreOk(session);
      NothingRecorded(Settings(), step, message, turnIndex, runTurnIndex, retries, compactorSaved);
      retriesRemaining, done := retries, ToolsDone([], 0, AllDone, 0, session.turns, session.credit);
      if step.llm.LlmFailed? || step.llm.LlmCancelled? {
        end := Raised(if step.llm.LlmFailed? then Error else Interrupted);
        return;
      }
      if Calls(Settings(), step) == [] && config.hasResultType {
        if step.structuredValid {
          retriesRemaining := config.structuredOutputMaxRetries;
        } else if retriesRemaining > 0 {
          retriesRemaining := retriesRemaining - 1;
          end := Retry;
          return;
        } else {
          end := Raised(Error);
          return;
        }
      }
      end, done := RecordResponse(session, step, message, turnIndex, runTurnIndex, compactorSaved);
      EndForAnyRetries(Settings(), step, message, runTurnIndex, retries, done.end);
    }

    lemma NothingRecorded(
      s: Setting, step: Step, message: string, turnIndex: nat, runTurnIndex: nat, retries: nat, compactorSaved: nat)
      ensures
        !step.llm.LlmResponse? || Invalid(s, step) ==>
          && !RunsTools(s, step)
          && (forall end :: !BooksTurn(s, step, end))
          && (forall userMessage, done :: TurnFor(s, step, turnIndex, userMessage, compactorSaved, done) == None)
          && forall end ::
               EndFor(s, step, message, runTurnIndex, retries, end)
               == if step.llm.LlmCancelled? then Raised(Interrupted)
                  else if step.llm.LlmResponse? && retries > 0 then Retry
                  else Raised(Error)
    {
      hide Calls;
    }

    lemma EndForAnyRetries(
      s: Setting, step: Step, message: string, runTurnIndex: nat, retries: nat, end: ToolsEnd)
      requires !Invalid(s, step)
      ensures EndFor(s, step, message, runTurnIndex, retries, end) == EndFor(s, step, message, runTurnIndex, 0, end)
    {
      hide Calls, Decided;
    }

    /** One iteration of the loop below the cancellation check, with its single model call. */
    method RunTurn(
      session: AgentSession, step: Step, message: string, turnIndex: nat, runTurnIndex: nat, retries: nat)
      returns (end: TurnEnd, retriesRemaining: nat, ghost it: Iteration)
      requires session.Valid()
      modifies session
      ensures session.Valid()
      ensures IterationOk(Settings(), it) && it.step == step && it.end == end && it.retriesLeft == retriesRemaining
      ensures it.at == Position(message, turnIndex, runTurnIndex, retries, old(session.tcCounter), old(BooksOf(session)))
      ensures it.finish == BooksOf(session) && session.tcCounter == old(session.tcCounter) + it.tools.handled
      ensures TurnOf(Settings(), it).Some? ==> TellsTurn(Settings(), it, TurnOf(Settings(), it).value)
      ensures session.totalTokensSaved == old(session.totalTokensSaved) + ReportedIn(it)
      ensures session.unattributed == old(session.unattributed) + Leftover(Settings(), it)
      ensures PausesExactly(session, end)
    {
      hide Consistent, PausedOn, Prepared, CreditUpTo, ToolsOk, SumTurns, TurnSavings, Unfolded;
      hide TurnFor, EndFor, RetriesAfter, RunsTools, TellsTurn;
      BooksAreOk(session);
      ghost var at := Position(message, turnIndex, runTurnIndex, retries, session.tcCounter, BooksOf(session));
      var compactorSaved;
      ghost var p, done;
      compactorSaved, p := MaybeCompactAndSummarize(session, turnIndex, step);
      end, retriesRemaining, done := Respond(session, step, message, turnIndex, runTurnIndex, retries, compactorSaved);
      it := Iteration(at, step, p, done, BooksOf(session), end, retriesRemaining);
      if TurnOf(Settings(), it).Some? { TurnTold(Settings(), it); }
    }

    /** The turns of a run, once the session is open. `llmCalls` counts the calls of the main loop. */
    method RunTurns(session: AgentSession, userMessage: string, maxTurns: Option<int>, env: nat -> Step)
      returns (status: RunStatus, turnsUsed: nat, llmCalls: nat, ghost trace: seq<Iteration>)
      requires session.Valid()
      modifies session
      ensures session.Valid()
      ensures var s := Settings();
              var start := StartOf(s, userMessage, old(session.tcCounter), old(BooksOf(session)));
              && WholeRun(s, env, TurnLimit(s, maxTurns), start, trace, status)
              && llmCalls == |trace| && turnsUsed == Final(start, trace).runTurnIndex
              && Final(start, trace).books == BooksOf(session) && Final(start, trace).counter == session.tcCounter
              && session.unattributed == old(session.unattributed) + SumLeftover(s, trace)
      ensures EndsPending(old(session.pendingInteractions), session.pendingInteractions, session.turns, status)
    {
      hide Consistent, PausedOn, RunOf, IterationOk, Leftover, SumLeftover, BooksOf, TurnOf, TurnLimit;
      BooksAre(session);
      LeftoverOfNothing(Settings());
      var sessionTurnIndex: nat := |session.turns|;
      var runTurnIndex: nat := 0;
      var retriesRemaining: nat := config.structuredOutputMaxRetries;
      var turnLimit := TurnLimit(Settings(), maxTurns);
      var currentUserMessage := userMessage;
      var raised := false;
      ghost var start := StartOf(Settings(), userMessage, session.tcCounter, BooksOf(session));
      status, llmCalls, trace := Completed, 0, [];
      RunNothing(Settings(), env, turnLimit, start);
      while runTurnIndex < turnLimit
        invariant session.Valid() && status == Completed && !raised
        invariant session.pendingInteractions == old(session.pendingInteractions)
        invariant RunOf(Settings(), env, turnLimit, start, trace) && GoesOn(trace) && llmCalls == |trace|
        invariant Final(start, trace) == Position(currentUserMessage, sessionTurnIndex, runTurnIndex, retriesRemaining,
                                                  session.tcCounter, BooksOf(session))
        invariant session.unattributed == old(session.unattributed) + SumLeftover(Settings(), trace)
        decreases turnLimit - runTurnIndex, retriesRemaining
      {
        var step := env(llmCalls);
        if step.cancelled {
          status, raised := Interrupted, true;
          break;
        }
        var end;
        ghost var it;
        end, retriesRemaining, it := RunTurn(session, step, currentUserMessage, sessionTurnIndex, runTurnIndex,
                                             retriesRemaining);
        RunExtends(Settings(), env, turnLimit, start, trace, it);
        LeftoverExtends(Settings(), trace, it);
        EndsRecord(Settings(), it);
        IterationMoves(Settings(), it);
        llmCalls, trace := llmCalls + 1, trace + [it];
        match end {
          case Retry =>
            currentUserMessage := RETRY_MESSAGE;
          case NextTurn(message) =>
            currentUserMessage := message;
            sessionTurnIndex, runTurnIndex := sessionTurnIndex + 1, runTurnIndex + 1;
          case Answered =>
            sessionTurnIndex, runTurnIndex := sessionTurnIndex + 1, runTurnIndex + 1;
            break;
          case Ended(s) =>
            status := s;
            break;
          case Raised(s) =>
            status, raised := s, true;
            break;
        }
      }
      if !raised && runTurnIndex >= turnLimit {
        status := MaxTurnsReached;
      }
      turnsUsed := runTurnIndex;
    }

    /** The whole run, from the user's message to the final status. */
    method RunLoop(session: AgentSession, userMessage: string, maxTurns: Option<int>, env: nat -> Step)
      returns (status: RunStatus, turnsUsed: nat, llmCalls: nat, ghost trace: seq<Iteration>)
      requires session.Valid()
      modifies session
      ensures session.Valid() && session.tcCounter >= old(session.tcCounter)
      ensures var s, limit := Settings(), TurnLimit(Settings(), maxTurns);
              var start := RunStart(s, old(BooksOf(session)), old(session.tcCounter), old(session.pendingInteractions),
                                    userMessage);
              && WholeRun(s, env, limit, start, trace, status)
              && llmCalls == |trace| && turnsUsed == Final(start, trace).runTurnIndex
              && Final(start, trace).books == BooksOf(session)
              && turnsUsed <= Positive(limit) && (status == MaxTurnsReached <==> turnsUsed >= limit)
              && llmCalls <= Positive(limit) * (s.config.structuredOutputMaxRetries + 1)
              && (NoFold(env) ==>
                    RunShape(start.books.turns, session.turns, TurnsRecorded(s, start, trace),
                             FirstMessage(s, env, userMessage)))
      ensures Descends(Opened(old(session.turns), old(session.pendingInteractions), userMessage),
                       old(session.tcCounter), session.turns, session.tcCounter)
      ensures AllOpened(old(session.turns), old(session.pendingInteractions), userMessage,
                        Opened(old(session.turns), old(session.pendingInteractions), userMessage))
      ensures AllTold(Settings(), trace)
      ensures session.totalTokensSaved == old(session.totalTokensSaved) + SumReportedIn(trace)
      ensures session.unattributed == old(session.unattributed) + SumLeftover(Settings(), trace)
      ensures session.unattributed >= old(session.unattributed)
      ensures session.unattributed == old(session.unattributed) <==> AllBooked(Settings(), trace)
      ensures TiesOut(session) <==> old(TiesOut(session)) && AllBooked(Settings(), trace)
      ensures SumTurns(session.turns, Reduction) <= session.totalTokensSaved
      ensures IsNetReduction(session) <==> RunExact(Settings(), old(BooksOf(session)), trace)
      ensures Quiet(Settings(), env) && status != Interrupted && status != Error ==>
                session.unattributed == old(session.unattributed)
      ensures EndsPending(if userMessage != "" then [] else old(session.pendingInteractions),
                          session.pendingInteractions, session.turns, status)
      ensures userMessage != "" || old(session.pendingInteractions) == [] ==>
                && PendingOk(session.pendingInteractions, session.turns)
                && |session.pendingInteractions| == if status == Paused then 1 else 0
    {
      hide *;
      ghost var start :=
        RunStart(Settings(), BooksOf(session), session.tcCounter, session.pendingInteractions, userMessage);
      BooksAre(session);
      BooksAreOk(session);
      TiesOutMeans(session);
      OpenSession(session, userMessage);
      BooksAre(session);
      ghost var kept, limit := session.pendingInteractions, TurnLimit(Settings(), maxTurns);
      status, turnsUsed, llmCalls, trace := RunTurns(session, userMessage, maxTurns, env);
      RunMeans(Settings(), env, limit, start, trace, status);
      WholeIsRun(Settings(), env, limit, start, trace, status);
      OpenedMeans(old(session.turns), old(session.pendingInteractions), userMessage);
      RunIsTold(Settings(), env, limit, start, trace);
      OpenedRunExact(Settings(), env, limit, old(BooksOf(session)), old(session.tcCounter),
                     old(session.pendingInteractions), userMessage, trace);
      BooksAre(session);
      TiesOutMeans(session);
      EndsOk(kept, session.pendingInteractions, session.turns, status);
    }

    /** A new user message closes what the session was waiting for. */
    method OpenSession(session: AgentSession, userMessage: string)
      requires session.Valid()
      modifies session`turns, session`pendingInteractions
      ensures session.Valid()
      ensures session.pendingInteractions == if userMessage != "" then [] else old(session.pendingInteractions)
      ensures BooksOf(session) == old(BooksOf(session)).(turns := session.turns)
      ensures session.turns == Opened(old(session.turns), old(session.pendingInteractions), userMessage)
      ensures var start := RunStart(Settings(), old(BooksOf(session)), session.tcCounter,
                                    old(session.pendingInteractions), userMessage);
              && start == StartOf(Settings(), userMessage, session.tcCounter, BooksOf(session))
              && Starts(Settings(), start) && start.counter == session.tcCounter && start.message == userMessage
              && start.books == BooksOf(session)
    {
      if userMessage != "" && session.pendingInteractions != [] {
        ClosePendingInteractions(session);
      }
    }

    /**
     Continues a paused run: each pending call gets the content supplied for it, the list is emptied, and the loop
     goes on without a user message. Without anything pending the call is refused and nothing changes.
     */
    method Resume(session: AgentSession, results: seq<ResumeResult>, env: nat -> Step)
      returns (status: Option<RunStatus>, turnsUsed: nat, llmCalls: nat, ghost trace: seq<Iteration>)
      requires session.Valid()
      modifies session
      ensures session.Valid() && session.tcCounter >= old(session.tcCounter)
      ensures status.None? <==> old(session.pendingInteractions) == []
      ensures status.None? ==> BooksOf(session) == old(BooksOf(session)) && session.pendingInteractions == []
      ensures status.None? ==>
                session.tcCounter == old(session.tcCounter) && session.unattributed == old(session.unattributed)
      ensures var answered :=
                MapRecords(old(session.turns), r => FilledAll(r, old(session.pendingInteractions), results));
              var s, limit := Settings(), TurnLimit(Settings(), None);
              var start := StartOf(s, "", old(session.tcCounter), old(BooksOf(session)).(turns := answered));
              status.Some? ==>
                && WholeRun(s, env, limit, start, trace, status.value)
                && llmCalls == |trace| && turnsUsed == Final(start, trace).runTurnIndex
                && Final(start, trace).books == BooksOf(session)
                && turnsUsed <= Positive(limit) && (status.value == MaxTurnsReached <==> turnsUsed >= limit)
                && llmCalls <= Positive(limit) * (s.config.structuredOutputMaxRetries + 1)
                && AllFilled(old(session.turns), old(session.pendingInteractions), results, answered)
                && AllTold(s, trace)
                && Descends(answered, old(session.tcCounter), session.turns, session.tcCounter)
                && (NoFold(env) ==>
                      RunShape(answered, session.turns, TurnsRecorded(s, start, trace), FirstMessage(s, env, "")))
      ensures status.Some? ==>
                && session.totalTokensSaved == old(session.totalTokensSaved) + SumReportedIn(trace)
                && session.unattributed == old(session.unattributed) + SumLeftover(Settings(), trace)
                && (session.unattributed == old(session.unattributed) <==> AllBooked(Settings(), trace))
                && (TiesOut(session) <==> old(TiesOut(session)) && AllBooked(Settings(), trace))
                && SumTurns(session.turns, Reduction) <= session.totalTokensSaved
                && (IsNetReduction(session) <==> RunExact(Settings(), old(BooksOf(session)), trace))
      ensures session.unattributed >= old(session.unattributed)
      ensures Quiet(Settings(), env) && status.Some? && status.value != Interrupted && status.value != Error ==>
                session.unattributed == old(session.unattributed)
      ensures status.Some? ==>
                && PendingOk(session.pendingInteractions, session.turns)
                && |session.pendingInteractions| == if status.value == Paused then 1 else 0
    {
      hide Consistent, MapRecords, Descends, PendingOk, FilledAll, Filled, PausedOn, WholeRun, RunShape, AllBooked;
      hide SumLeftover, SumReportedIn, TurnsRecorded, FirstMessage, TiesOut, RunExact, IsNetReduction, SumTurns;
      hide AllFilled, AllTold, AllOpened;
      turnsUsed, llmCalls, trace := 0, 0, [];
      if session.pendingInteractions == [] {
        return None, 0, 0, [];
      }
      TiesOutMeans(session);
      var pending := session.pendingInteractions;
      ghost var before := session.turns;
      FillNothing(before, pending, results);
      for k := 0 to |pending|
        invariant session.Valid() && session.pendingInteractions == pending
        invariant session.tcCounter == old(session.tcCounter) && session.unattributed == old(session.unattributed)
        invariant session.turns == MapRecords(before, r => FilledAll(r, pending[..k], results))
        invariant BooksOf(session) == old(BooksOf(session)).(turns := session.turns)
      {
        ghost var mid := session.turns;
        FillPending(session, pending[k].tcId, AnswerFor(pending[k], results));
        FillStep(before, mid, session.turns, pending, k, results);
      }
      assert pending[..|pending|] == pending;
      session.pendingInteractions := [];
      TiesOutMeans(session);
      var result;
      result, turnsUsed, llmCalls, trace := RunLoop(session, "", None, env);
      status := Some(result);
      AnsweredIsExact(Settings(), old(BooksOf(session)), pending, results, trace);
      AnsweredMeans(old(session.turns), pending, results);
    }
  }

  lemma EndsOk(
    kept: seq<PendingInteraction>, now: seq<PendingInteraction>, turns: seq<TurnRecord>, status: RunStatus)
    requires EndsPending(kept, now, turns, status)
    ensures kept == [] ==> PendingOk(now, turns) && |now| == if status == Paused then 1 else 0
  {
    NothingPending(turns);
    if status == Paused && kept == [] {
      PausedOnIsOk(now[0], turns);
      assert now == [now[0]];
    }
  }

  lemma NothingPending(turns: seq<TurnRecord>)
    ensures PendingOk([], turns)
  {
  }

  lemma FillNothing(turns: seq<TurnRecord>, pending: seq<PendingInteraction>, results: seq<ResumeResult>)
    ensures turns == MapRecords(turns, r => FilledAll(r, pending[..0], results))
  {
    MappedUnique(turns, turns, r => FilledAll(r, pending[..0], results));
  }

  lemma FillStep(
    before: seq<TurnRecord>, mid: seq<TurnRecord>, after: seq<TurnRecord>,
    pending: seq<PendingInteraction>, k: nat, results: seq<ResumeResult>)
    requires k < |pending|
    requires mid == MapRecords(before, r => FilledAll(r, pending[..k], results))
    requires after == MapRecords(mid, r => Filled(r, pending[k].tcId, AnswerFor(pending[k], results)))
    ensures after == MapRecords(before, r => FilledAll(r, pending[..k + 1], results))
  {
    assert pending[..k + 1][..k] == pending[..k];
    MappedUnique(before, after, r => FilledAll(r, pending[..k + 1], results));
  }
}
