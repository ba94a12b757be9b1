/**
 The session records (nexus/session/models.py). Turn and tool-call records are values that the session object
 replaces in place; only the fields that the agent loop, RCS and the context window read or write are kept.
 */
module Sessions {
  import opened Text

  datatype ToolCallRecord = ToolCallRecord(
    tcId: string,
    tcIndex: nat,
    toolName: string,
    callId: string,
    rawResponse: string,
    summarizedResponse: Option<string>,
    summarizedByTurn: Option<nat>,
    tokensRaw: nat,
    tokensSummarized: Option<nat>)

  datatype Message =
    | System(content: string)
    | User(content: string)
    | Assistant(text: Option<string>, callIds: seq<string>)
    | Tool(toolCallId: string, content: string)

  datatype TurnStatus = TurnCompleted | TurnPaused

  datatype TurnRecord = TurnRecord(
    turnIndex: nat,
    userMessage: Option<string>,
    llmMessages: seq<Message>,
    toolCalls: seq<ToolCallRecord>,
    tokensSavedThisTurn: nat,
    status: TurnStatus)

  datatype InteractionKind = ClientTool | Elicitation

  datatype PendingInteraction = PendingInteraction(
    tcId: string, callId: string, toolName: string, kind: InteractionKind)

  const HITL_ID: string := "HITL"

  function TcName(index: nat): (id: string)
    ensures id != HITL_ID
  {
    var id := "TC" + Decimal(index);
    assert id[0] == 'T' && HITL_ID[0] == 'H';
    id
  }

  lemma TcNameInjective(m: nat, n: nat)
    requires TcName(m) == TcName(n)
    ensures m == n
  {
    assert TcName(m)[2..] == Decimal(m) && TcName(n)[2..] == Decimal(n);
    DecimalInjective(m, n);
  }

  // ---------- Numbering of tool calls ----------

  ghost predicate WellNumbered(calls: seq<ToolCallRecord>, low: nat, high: nat) {
    && (forall c :: 0 <= c < |calls| ==>
          low < calls[c].tcIndex <= high && calls[c].tcId == TcName(calls[c].tcIndex))
    && (forall c, d :: 0 <= c < d < |calls| ==> calls[c].tcIndex < calls[d].tcIndex)
  }

  ghost predicate Precedes(a: TurnRecord, b: TurnRecord) {
    forall c, d :: 0 <= c < |a.toolCalls| && 0 <= d < |b.toolCalls| ==>
                     a.toolCalls[c].tcIndex < b.toolCalls[d].tcIndex
  }

  /** Every recorded call carries its own number, numbers grow along the session, and none exceeds the counter. */
  ghost predicate Ordered(turns: seq<TurnRecord>, counter: nat) {
    && (forall i :: 0 <= i < |turns| ==> WellNumbered(turns[i].toolCalls, 0, counter))
    && (forall i, j :: 0 <= i < j < |turns| ==> Precedes(turns[i], turns[j]))
  }

  predicate At(turns: seq<TurnRecord>, i: int, j: int) {
    0 <= i < |turns| && 0 <= j < |turns[i].toolCalls|
  }

  function Call(turns: seq<TurnRecord>, i: int, j: int): ToolCallRecord
    requires At(turns, i, j)
  {
    turns[i].toolCalls[j]
  }

  lemma SameIndexSamePlace(turns: seq<TurnRecord>, counter: nat, i: int, j: int, k: int, l: int)
    requires Ordered(turns, counter) && At(turns, i, j) && At(turns, k, l)
    requires Call(turns, i, j).tcIndex == Call(turns, k, l).tcIndex
    ensures i == k && j == l
  {
    assert i < k ==> Precedes(turns[i], turns[k]);
    assert k < i ==> Precedes(turns[k], turns[i]);
  }

  /** A tool-call id names one recorded call. */
  lemma IdsAreUnique(turns: seq<TurnRecord>, counter: nat, i: int, j: int, k: int, l: int)
    requires Ordered(turns, counter) && At(turns, i, j) && At(turns, k, l)
    requires Call(turns, i, j).tcId == Call(turns, k, l).tcId
    ensures i == k && j == l
  {
    TcNameInjective(Call(turns, i, j).tcIndex, Call(turns, k, l).tcIndex);
    SameIndexSamePlace(turns, counter, i, j, k, l);
  }

  // ---------- Updating records in place ----------

  /** `after` is `before` with every tool-call record replaced by its image under `upd`. */
  ghost predicate RecordsMapped(
    before: seq<TurnRecord>, after: seq<TurnRecord>, upd: ToolCallRecord -> ToolCallRecord)
  {
    && |after| == |before|
    && forall i :: 0 <= i < |before| ==>
         && |after[i].toolCalls| == |before[i].toolCalls|
         && after[i] == before[i].(toolCalls := after[i].toolCalls)
         && forall j :: 0 <= j < |before[i].toolCalls| ==> after[i].toolCalls[j] == upd(before[i].toolCalls[j])
  }

  ghost predicate KeepsIdentity(upd: ToolCallRecord -> ToolCallRecord) {
    forall r :: upd(r).tcId == r.tcId && upd(r).tcIndex == r.tcIndex
  }

  function Replace(turns: seq<TurnRecord>, i: int, j: int, r: ToolCallRecord): (after: seq<TurnRecord>)
    requires At(turns, i, j)
    ensures |after| == |turns|
  {
    turns[i := turns[i].(toolCalls := turns[i].toolCalls[j := r])]
  }

  lemma ReplaceAt(turns: seq<TurnRecord>, i: nat, j: nat, r: ToolCallRecord, k: int, l: int)
    requires At(turns, i, j)
    ensures At(Replace(turns, i, j, r), k, l) <==> At(turns, k, l)
    ensures At(turns, k, l) ==>
              Call(Replace(turns, i, j, r), k, l) == if k == i && l == j then r else Call(turns, k, l)
  {
  }

  lemma MappedOrdered(
    before: seq<TurnRecord>, after: seq<TurnRecord>, upd: ToolCallRecord -> ToolCallRecord, counter: nat)
    requires Ordered(before, counter) && RecordsMapped(before, after, upd) && KeepsIdentity(upd)
    ensures Ordered(after, counter)
  {
    forall i | 0 <= i < |after|
      ensures WellNumbered(after[i].toolCalls, 0, counter)
    {
      assert WellNumbered(before[i].toolCalls, 0, counter);
    }
    forall i, j | 0 <= i < j < |after|
      ensures Precedes(after[i], after[j])
    {
      assert Precedes(before[i], before[j]);
    }
  }

  /** Replaced by a turn whose calls carry the same numbers, a turn keeps its place. */
  lemma SameNumbersOrdered(turns: seq<TurnRecord>, i: nat, t: TurnRecord, counter: nat)
    requires Ordered(turns, counter) && i < |turns| && WellNumbered(t.toolCalls, 0, counter)
    requires forall u :: (Precedes(u, turns[i]) ==> Precedes(u, t)) && (Precedes(turns[i], u) ==> Precedes(t, u))
    ensures Ordered(turns[i := t], counter)
  {
    hide WellNumbered, Precedes;
    var after := turns[i := t];
    forall k, l | 0 <= k < l < |after|
      ensures Precedes(after[k], after[l])
    {
      assert Precedes(turns[k], turns[l]);
    }
  }

  lemma ReplaceOrdered(turns: seq<TurnRecord>, i: nat, j: nat, r: ToolCallRecord, counter: nat)
    requires Ordered(turns, counter) && At(turns, i, j)
    requires r.tcId == Call(turns, i, j).tcId && r.tcIndex == Call(turns, i, j).tcIndex
    ensures Ordered(Replace(turns, i, j, r), counter)
  {
    var calls := turns[i].toolCalls;
    var t := turns[i].(toolCalls := calls[j := r]);
    assert WellNumbered(calls, 0, counter);
    hide Ordered;
    assert forall c :: 0 <= c < |calls| ==> t.toolCalls[c].tcIndex == calls[c].tcIndex && t.toolCalls[c].tcId == calls[c].tcId;
    SameNumbersOrdered(turns, i, t, counter);
  }

  lemma AppendOrdered(turns: seq<TurnRecord>, low: nat, turn: TurnRecord, high: nat)
    requires Ordered(turns, low) && WellNumbered(turn.toolCalls, low, high) && low <= high
    ensures Ordered(turns + [turn], high)
  {
    var all := turns + [turn];
    forall i | 0 <= i < |all|
      ensures WellNumbered(all[i].toolCalls, 0, high)
    {
      if i < |turns| { assert WellNumbered(turns[i].toolCalls, 0, low); }
    }
    forall i, j | 0 <= i < j < |all|
      ensures Precedes(all[i], all[j])
    {
      assert WellNumbered(turns[i].toolCalls, 0, low);
      if j < |turns| { assert Precedes(turns[i], turns[j]); }
    }
  }

  // ---------- Sums over all recorded calls ----------

  function SumCalls(calls: seq<ToolCallRecord>, f: ToolCallRecord -> int): int {
    if calls == [] then 0 else SumCalls(calls[..|calls| - 1], f) + f(calls[|calls| - 1])
  }

  function SumTurns(turns: seq<TurnRecord>, f: ToolCallRecord -> int): int {
    if turns == [] then 0 else SumTurns(turns[..|turns| - 1], f) + SumCalls(turns[|turns| - 1].toolCalls, f)
  }

  lemma {:induction false} SumCallsSame(
    a: seq<ToolCallRecord>, f: ToolCallRecord -> int, b: seq<ToolCallRecord>, g: ToolCallRecord -> int)
    requires |a| == |b|
    requires forall j :: 0 <= j < |a| ==> f(a[j]) == g(b[j])
    ensures SumCalls(a, f) == SumCalls(b, g)
  {
    if a != [] {
      SumCallsSame(a[..|a| - 1], f, b[..|b| - 1], g);
    }
  }

  lemma {:induction false} SumTurnsSame(
    a: seq<TurnRecord>, f: ToolCallRecord -> int, b: seq<TurnRecord>, g: ToolCallRecord -> int)
    requires |a| == |b|
    requires forall i :: 0 <= i < |a| ==> |a[i].toolCalls| == |b[i].toolCalls|
    requires forall i, j :: At(a, i, j) ==> f(Call(a, i, j)) == g(Call(b, i, j))
    ensures SumTurns(a, f) == SumTurns(b, g)
  {
    if a != [] {
      var n := |a| - 1;
      forall i, j | At(a[..n], i, j)
        ensures f(Call(a[..n], i, j)) == g(Call(b[..n], i, j))
      {
        assert At(a, i, j);
      }
      SumTurnsSame(a[..n], f, b[..n], g);
      forall j | 0 <= j < |a[n].toolCalls|
        ensures f(a[n].toolCalls[j]) == g(b[n].toolCalls[j])
      {
        assert At(a, n, j) && Call(a, n, j) == a[n].toolCalls[j] && Call(b, n, j) == b[n].toolCalls[j];
      }
      SumCallsSame(a[n].toolCalls, f, b[n].toolCalls, g);
    }
  }

  lemma {:induction false} SumCallsUpdate(
    calls: seq<ToolCallRecord>, f: ToolCallRecord -> int, j: nat, r: ToolCallRecord, g: ToolCallRecord -> int)
    requires j < |calls|
    requires forall l :: 0 <= l < |calls| && l != j ==> g(calls[l]) == f(calls[l])
    ensures SumCalls(calls[j := r], g) == SumCalls(calls, f) - f(calls[j]) + g(r)
  {
    var n := |calls| - 1;
    var after := calls[j := r];
    if j == n {
      SumCallsSame(calls[..n], f, after[..n], g);
    } else {
      SumCallsUpdate(calls[..n], f, j, r, g);
      assert after[..n] == calls[..n][j := r];
    }
  }

  lemma ReplaceLast(turns: seq<TurnRecord>, i: nat, j: nat, r: ToolCallRecord)
    requires At(turns, i, j)
    ensures
      var n, after := |turns| - 1, Replace(turns, i, j, r);
      && |after| == n + 1
      && (i == n ==> after[..n] == turns[..n] && after[n].toolCalls == turns[n].toolCalls[j := r])
      && (i < n ==> At(turns[..n], i, j) && after[..n] == Replace(turns[..n], i, j, r) && after[n] == turns[n])
  {
  }

  lemma AlikeElsewhere(
    turns: seq<TurnRecord>, f: ToolCallRecord -> int, i: nat, j: nat, g: ToolCallRecord -> int)
    requires At(turns, i, j)
    requires forall k, l :: At(turns, k, l) && !(k == i && l == j) ==> g(Call(turns, k, l)) == f(Call(turns, k, l))
    ensures
      var n := |turns| - 1;
      && (forall k, l :: At(turns[..n], k, l) && !(k == i && l == j) ==>
            g(Call(turns[..n], k, l)) == f(Call(turns[..n], k, l)))
      && forall l :: 0 <= l < |turns[n].toolCalls| && !(n == i && l == j) ==>
           g(turns[n].toolCalls[l]) == f(turns[n].toolCalls[l])
  {
    var n := |turns| - 1;
    forall k, l | At(turns[..n], k, l) && !(k == i && l == j)
      ensures g(Call(turns[..n], k, l)) == f(Call(turns[..n], k, l))
    {
      assert At(turns, k, l) && Call(turns, k, l) == Call(turns[..n], k, l);
    }
    forall l | 0 <= l < |turns[n].toolCalls| && !(n == i && l == j)
      ensures g(turns[n].toolCalls[l]) == f(turns[n].toolCalls[l])
    {
      assert At(turns, n, l) && Call(turns, n, l) == turns[n].toolCalls[l];
    }
  }

  /** Replacing one record moves a sum by exactly that record's change, when nothing else is revalued. */
  lemma {:induction false} SumTurnsUpdate(
    turns: seq<TurnRecord>, f: ToolCallRecord -> int, i: nat, j: nat, r: ToolCallRecord, g: ToolCallRecord -> int)
    requires At(turns, i, j)
    requires forall k, l :: At(turns, k, l) && !(k == i && l == j) ==> g(Call(turns, k, l)) == f(Call(turns, k, l))
    ensures SumTurns(Replace(turns, i, j, r), g) == SumTurns(turns, f) - f(Call(turns, i, j)) + g(r)
  {
    hide Replace, SumCalls;
    var n := |turns| - 1;
    AlikeElsewhere(turns, f, i, j, g);
    ReplaceLast(turns, i, j, r);
    if i == n {
      SumTurnsSame(turns[..n], f, turns[..n], g);
      SumCallsUpdate(turns[n].toolCalls, f, j, r, g);
    } else {
      SumTurnsUpdate(turns[..n], f, i, j, r, g);
      SumCallsSame(turns[n].toolCalls, f, turns[n].toolCalls, g);
    }
  }

  lemma {:induction false} SumCallsPlus(
    calls: seq<ToolCallRecord>, f: ToolCallRecord -> int, g: ToolCallRecord -> int, h: ToolCallRecord -> int)
    requires forall r :: h(r) == f(r) + g(r)
    ensures SumCalls(calls, h) == SumCalls(calls, f) + SumCalls(calls, g)
  {
    if calls != [] {
      SumCallsPlus(calls[..|calls| - 1], f, g, h);
    }
  }

  lemma {:induction false} SumTurnsPlus(
    turns: seq<TurnRecord>, f: ToolCallRecord -> int, g: ToolCallRecord -> int, h: ToolCallRecord -> int)
    requires forall r :: h(r) == f(r) + g(r)
    ensures SumTurns(turns, h) == SumTurns(turns, f) + SumTurns(turns, g)
  {
    if turns != [] {
      SumTurnsPlus(turns[..|turns| - 1], f, g, h);
      SumCallsPlus(turns[|turns| - 1].toolCalls, f, g, h);
    }
  }

  lemma NoughtEverywhere(turns: seq<TurnRecord>, f: ToolCallRecord -> int)
    requires forall r :: f(r) == 0
    ensures SumTurns(turns, f) == 0
  {
    SumTurnsPlus(turns, f, f, f);
  }

  lemma SumTurnsAppend(turns: seq<TurnRecord>, turn: TurnRecord, f: ToolCallRecord -> int)
    ensures SumTurns(turns + [turn], f) == SumTurns(turns, f) + SumCalls(turn.toolCalls, f)
  {
    assert (turns + [turn])[..|turns|] == turns;
  }

  lemma {:induction false} SumCallsLe(calls: seq<ToolCallRecord>, f: ToolCallRecord -> int, g: ToolCallRecord -> int)
    requires forall j :: 0 <= j < |calls| ==> f(calls[j]) <= g(calls[j])
    ensures SumCalls(calls, f) <= SumCalls(calls, g)
    ensures SumCalls(calls, f) == SumCalls(calls, g) <==> forall j :: 0 <= j < |calls| ==> f(calls[j]) == g(calls[j])
  {
    if calls != [] {
      var n := |calls| - 1;
      SumCallsLe(calls[..n], f, g);
      assert forall j :: 0 <= j < n ==> calls[..n][j] == calls[j];
    }
  }

  /** A pointwise inequality carries over to the sums, and the sums agree only when all terms do. */
  lemma {:induction false} SumTurnsLe(turns: seq<TurnRecord>, f: ToolCallRecord -> int, g: ToolCallRecord -> int)
    requires forall i, j :: At(turns, i, j) ==> f(Call(turns, i, j)) <= g(Call(turns, i, j))
    ensures SumTurns(turns, f) <= SumTurns(turns, g)
    ensures SumTurns(turns, f) == SumTurns(turns, g)
            <==> forall i, j :: At(turns, i, j) ==> f(Call(turns, i, j)) == g(Call(turns, i, j))
  {
    if turns != [] {
      var n := |turns| - 1;
      assert forall i, j :: At(turns[..n], i, j) ==> At(turns, i, j) && Call(turns, i, j) == Call(turns[..n], i, j);
      SumTurnsLe(turns[..n], f, g);
      assert forall j :: 0 <= j < |turns[n].toolCalls| ==> At(turns, n, j) && Call(turns, n, j) == turns[n].toolCalls[j];
      SumCallsLe(turns[n].toolCalls, f, g);
      if SumTurns(turns, f) == SumTurns(turns, g) {
        forall i, j | At(turns, i, j)
          ensures f(Call(turns, i, j)) == g(Call(turns, i, j))
        {
          if i < n { assert At(turns[..n], i, j); }
        }
      }
    }
  }

  /** A sum of what is never negative is nought only if every term is. */
  lemma SumTurnsNought(turns: seq<TurnRecord>, f: ToolCallRecord -> int)
    requires forall r :: f(r) >= 0
    ensures SumTurns(turns, f) >= 0
    ensures SumTurns(turns, f) == 0 <==> forall i, j :: At(turns, i, j) ==> f(Call(turns, i, j)) == 0
  {
    var nought := (r: ToolCallRecord) => 0;
    NoughtEverywhere(turns, nought);
    SumTurnsLe(turns, nought, f);
    hide SumTurns;
    assert forall i, j :: At(turns, i, j) ==> nought(Call(turns, i, j)) == 0;
  }
}
