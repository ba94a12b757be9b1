/** The turns that the agent loop records are turns that the context window can replay. */
module SessionReplay {
  import opened Text
  import opened Sessions
  import opened RunHistory
  import opened ContextBuilder
  import AgentRunners

  ghost predicate AllReplayable(turns: seq<TurnRecord>) {
    forall i :: 0 <= i < |turns| ==> Replayable(turns[i])
  }

  lemma HeirReplayable(a: TurnRecord, b: TurnRecord)
    requires Heir(a, b) && Replayable(a)
    ensures Replayable(b)
  {
    if b.toolCalls != [] {
      var k :| 0 <= k < |a.llmMessages| && |a.llmMessages[k].callIds| >= |a.toolCalls|;
      assert |b.llmMessages[k].callIds| >= |b.toolCalls|;
    }
  }

  lemma FreshReplayable(t: TurnRecord, low: nat, high: nat)
    requires Fresh(t, low, high)
    ensures Replayable(t)
  {
    assert |t.llmMessages[0].callIds| >= |t.toolCalls|;
  }

  /** A run that starts from replayable turns ends with replayable turns, folds and re-summaries included. */
  lemma RunKeepsReplayable(base: seq<TurnRecord>, low: nat, now: seq<TurnRecord>, high: nat)
    requires AllReplayable(base) && Descends(base, low, now, high)
    ensures AllReplayable(now)
  {
    forall k | 0 <= k < |now|
      ensures Replayable(now[k])
    {
      if Fresh(now[k], low, high) {
        FreshReplayable(now[k], low, high);
      } else {
        var b :| 0 <= b < |base| && Heir(base[b], now[k]);
        HeirReplayable(base[b], now[k]);
      }
    }
  }

  /** Closing or answering pending calls keeps turns replayable. */
  lemma MappedReplayable(turns: seq<TurnRecord>, upd: ToolCallRecord -> ToolCallRecord)
    requires AllReplayable(turns)
    ensures AllReplayable(AgentRunners.MapRecords(turns, upd))
  {
    var after := AgentRunners.MapRecords(turns, upd);
    forall i | 0 <= i < |after|
      ensures Replayable(after[i])
    {
      assert Replayable(turns[i]) && after[i].llmMessages == turns[i].llmMessages;
      if after[i].toolCalls != [] {
        var k :| 0 <= k < |turns[i].llmMessages| && |turns[i].llmMessages[k].callIds| >= |turns[i].toolCalls|;
        assert |after[i].llmMessages[k].callIds| >= |after[i].toolCalls|;
      }
    }
  }
}
