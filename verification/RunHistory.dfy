/** How the turns of a session relate before and after (part of) a run. */
module RunHistory {
  import opened Text
  import opened Sessions
  import opened AgentSessions
  import opened Rcs

  /** `b` is `a` up to its summary. */
  ghost predicate SameButSummary(a: ToolCallRecord, b: ToolCallRecord) {
    b == a.(summarizedResponse := b.summarizedResponse,
            summarizedByTurn := b.summarizedByTurn,
            tokensSummarized := b.tokensSummarized)
  }

  ghost predicate Heir(a: TurnRecord, b: TurnRecord) {
    && |b.toolCalls| == |a.toolCalls|
    && b == a.(toolCalls := b.toolCalls)
    && forall j :: 0 <= j < |a.toolCalls| ==> SameButSummary(a.toolCalls[j], b.toolCalls[j])
  }

  /** Nothing but summaries changed. */
  ghost predicate Heirs(before: seq<TurnRecord>, after: seq<TurnRecord>) {
    && |after| == |before|
    && forall i :: 0 <= i < |before| ==> Heir(before[i], after[i])
  }

  /** The assistant message of the turn asks for every recorded call, in order. */
  ghost predicate AnswersItsRequests(t: TurnRecord) {
    && |t.llmMessages| == 1 && t.llmMessages[0].Assistant?
    && |t.toolCalls| <= |t.llmMessages[0].callIds|
    && forall j :: 0 <= j < |t.toolCalls| ==> t.toolCalls[j].callId == t.llmMessages[0].callIds[j]
  }

  /** A turn recorded by the current run: its calls carry numbers never given out before. */
  ghost predicate Fresh(t: TurnRecord, low: nat, high: nat) {
    WellNumbered(t.toolCalls, low, high) && AnswersItsRequests(t)
  }

  /** Every turn is an old one with at most its summaries changed, or was recorded since. */
  ghost predicate Descends(base: seq<TurnRecord>, low: nat, now: seq<TurnRecord>, high: nat) {
    forall k :: 0 <= k < |now| ==>
      (exists b :: 0 <= b < |base| && Heir(base[b], now[k])) || Fresh(now[k], low, high)
  }

  lemma DescendsRefl(base: seq<TurnRecord>, low: nat, high: nat)
    ensures Descends(base, low, base, high)
  {
    forall k | 0 <= k < |base|
      ensures Heir(base[k], base[k])
    {
    }
  }

  lemma HeirTransitive(a: TurnRecord, b: TurnRecord, c: TurnRecord)
    requires Heir(a, b) && Heir(b, c)
    ensures Heir(a, c)
  {
    forall j | 0 <= j < |a.toolCalls|
      ensures SameButSummary(a.toolCalls[j], c.toolCalls[j])
    {
      assert SameButSummary(a.toolCalls[j], b.toolCalls[j]) && SameButSummary(b.toolCalls[j], c.toolCalls[j]);
    }
  }

  lemma SameLength(before: seq<TurnRecord>, after: seq<TurnRecord>)
    requires Heirs(before, after)
    ensures |before| == |after|
  {
  }

  lemma HeirsRefl(turns: seq<TurnRecord>)
    ensures Heirs(turns, turns)
  {
    forall i | 0 <= i < |turns|
      ensures Heir(turns[i], turns[i])
    {
    }
  }

  lemma HeirsTransitive(a: seq<TurnRecord>, b: seq<TurnRecord>, c: seq<TurnRecord>)
    requires Heirs(a, b) && Heirs(b, c)
    ensures Heirs(a, c)
  {
    forall i | 0 <= i < |a|
      ensures Heir(a[i], c[i])
    {
      HeirTransitive(a[i], b[i], c[i]);
    }
  }

  lemma HeirFresh(t: TurnRecord, u: TurnRecord, low: nat, high: nat)
    requires Fresh(t, low, high) && Heir(t, u)
    ensures Fresh(u, low, high)
  {
    assert forall j :: 0 <= j < |t.toolCalls| ==> SameButSummary(t.toolCalls[j], u.toolCalls[j]);
  }

  lemma DescendsHeirs(base: seq<TurnRecord>, low: nat, now: seq<TurnRecord>, after: seq<TurnRecord>, high: nat)
    requires Descends(base, low, now, high) && Heirs(now, after)
    ensures Descends(base, low, after, high)
  {
    forall k | 0 <= k < |after|
      ensures (exists b :: 0 <= b < |base| && Heir(base[b], after[k])) || Fresh(after[k], low, high)
    {
      if Fresh(now[k], low, high) {
        HeirFresh(now[k], after[k], low, high);
      } else {
        var b :| 0 <= b < |base| && Heir(base[b], now[k]);
        HeirTransitive(base[b], now[k], after[k]);
      }
    }
  }

  lemma DescendsFold(base: seq<TurnRecord>, low: nat, now: seq<TurnRecord>, folded: set<nat>, high: nat)
    requires Descends(base, low, now, high)
    ensures Descends(base, low, Unfolded(now, folded), high)
  {
    var kept := Unfolded(now, folded);
    forall k | 0 <= k < |kept|
      ensures (exists b :: 0 <= b < |base| && Heir(base[b], kept[k])) || Fresh(kept[k], low, high)
    {
      assert kept[k] in kept && kept[k] in now;
      var l :| 0 <= l < |now| && now[l] == kept[k];
    }
  }

  lemma DescendsAppend(
    base: seq<TurnRecord>, low: nat, now: seq<TurnRecord>, mid: nat, turn: TurnRecord, mid': nat, high: nat)
    requires Descends(base, low, now, mid) && low <= mid' && mid <= high && Fresh(turn, mid', high)
    ensures Descends(base, low, now + [turn], high)
  {
    var all := now + [turn];
    forall k | 0 <= k < |all|
      ensures (exists b :: 0 <= b < |base| && Heir(base[b], all[k])) || Fresh(all[k], low, high)
    {
      assert k < |now| ==> all[k] == now[k];
    }
  }

  lemma DescendsWider(base: seq<TurnRecord>, low: nat, now: seq<TurnRecord>, mid: nat, high: nat)
    requires Descends(base, low, now, mid) && mid <= high
    ensures Descends(base, low, now, high)
  {
    forall k | 0 <= k < |now|
      ensures (exists b :: 0 <= b < |base| && Heir(base[b], now[k])) || Fresh(now[k], low, high)
    {
      assert Fresh(now[k], low, mid) ==> Fresh(now[k], low, high);
    }
  }

  lemma MappedHeirs(before: seq<TurnRecord>, after: seq<TurnRecord>, upd: ToolCallRecord -> ToolCallRecord)
    requires RecordsMapped(before, after, upd) && forall r :: SameButSummary(r, upd(r))
    ensures Heirs(before, after)
  {
    forall i | 0 <= i < |before|
      ensures Heir(before[i], after[i])
    {
      forall j | 0 <= j < |before[i].toolCalls|
        ensures SameButSummary(before[i].toolCalls[j], after[i].toolCalls[j])
      {
        assert after[i].toolCalls[j] == upd(before[i].toolCalls[j]);
      }
    }
  }

  /** The interceptor changes nothing but summaries. */
  lemma InterceptedHeirs(
    before: seq<TurnRecord>, credit: map<nat, nat>, updates: seq<RawUpdate>, turnIndex: nat, count: string -> nat,
    now: seq<TurnRecord>, credit': map<nat, nat>)
    requires Intercepted(before, credit, updates, turnIndex, count, now, credit')
    ensures Heirs(before, now)
  {
    MappedHeirs(before, now, r => Resummarized(r, updates, turnIndex, count));
  }

  /** The compactor changes nothing but summaries. */
  lemma CompactedHeirs(
    before: seq<TurnRecord>, credit: map<nat, nat>, targets: seq<ToolCallRecord>, llm: nat -> Option<string>,
    turnIndex: nat, count: string -> nat, now: seq<TurnRecord>, credit': map<nat, nat>)
    requires CompactedTo(before, credit, targets, llm, turnIndex, count, now, credit')
    ensures Heirs(before, now)
  {
    MappedHeirs(before, now, r => Compacted(r, targets, llm, turnIndex, count));
  }

  // ---------- Runs that fold nothing ----------

  /** `n` turns were recorded since `before`: numbered by their place, with a user message, `first`, on the first one only. */
  ghost predicate RunShape(before: seq<TurnRecord>, now: seq<TurnRecord>, n: nat, first: string) {
    && |now| == |before| + n && Heirs(before, now[..|before|])
    && forall k :: |before| <= k < |now| ==>
         now[k].turnIndex == k && now[k].userMessage == if k == |before| then Some(first) else None
  }

  lemma RunShapeStart(before: seq<TurnRecord>, first: string)
    ensures RunShape(before, before, 0, first)
  {
    assert before[..|before|] == before;
    HeirsRefl(before);
  }

  lemma RunShapeHeirs(before: seq<TurnRecord>, mid: seq<TurnRecord>, after: seq<TurnRecord>, n: nat, first: string)
    requires RunShape(before, mid, n, first) && Heirs(mid, after)
    ensures RunShape(before, after, n, first)
  {
    var m := |before|;
    assert Heirs(mid[..m], after[..m]) by {
      forall i | 0 <= i < m ensures Heir(mid[..m][i], after[..m][i]) {
        assert Heir(mid[i], after[i]);
      }
    }
    HeirsTransitive(before, mid[..m], after[..m]);
    forall k | m <= k < |after|
      ensures after[k].turnIndex == k && after[k].userMessage == if k == |before| then Some(first) else None
    {
      assert Heir(mid[k], after[k]);
    }
  }

  lemma RunShapeAdds(before: seq<TurnRecord>, mid: seq<TurnRecord>, turn: TurnRecord, n: nat, first: string)
    requires RunShape(before, mid, n, first)
    requires turn.turnIndex == |before| + n && turn.userMessage == if n == 0 then Some(first) else None
    ensures RunShape(before, mid + [turn], n + 1, first)
  {
    assert (mid + [turn])[..|before|] == mid[..|before|];
    hide Heirs;
  }
}
