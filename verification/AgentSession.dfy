/**
 The live session object and its savings ledger. The ghost fields are book-keeping: `recorded` bounds the
 numbers of the calls recorded so far; `credit`, `away` and `unattributed` say how much of `totalTokensSaved` was
 reported for each call in the session, for calls folded away since, and outside any turn's `tokensSavedThisTurn`.
 */
module AgentSessions {
  import opened Text
  import opened Sessions

  /** What a call costs in context now: its summary when it has one, else the raw result. */
  function Charged(r: ToolCallRecord): nat {
    if r.tokensSummarized.Some? then r.tokensSummarized.value else r.tokensRaw
  }

  function Reduction(r: ToolCallRecord): int {
    r.tokensRaw - Charged(r)
  }

  function Credit(credit: map<nat, nat>, index: nat): nat {
    if index in credit then credit[index] else 0
  }

  function CreditOf(credit: map<nat, nat>): ToolCallRecord -> int {
    (r: ToolCallRecord) => Credit(credit, r.tcIndex)
  }

  function TurnSavings(turns: seq<TurnRecord>): nat {
    if turns == [] then 0 else TurnSavings(turns[..|turns| - 1]) + turns[|turns| - 1].tokensSavedThisTurn
  }

  ghost predicate RecordFair(credit: map<nat, nat>, r: ToolCallRecord) {
    && Reduction(r) <= Credit(credit, r.tcIndex)
    && (r.summarizedResponse.None? ==> r.tokensSummarized.None?)
  }

  ghost predicate LedgerOk(turns: seq<TurnRecord>, total: nat, credit: map<nat, nat>, away: nat) {
    && total == SumTurns(turns, CreditOf(credit)) + away
    && forall i, j :: At(turns, i, j) ==> RecordFair(credit, Call(turns, i, j))
  }

  /** The reported total covers what the session's calls cost less, and exceeds it unless every report was exact. */
  lemma ReportedTotalCoversReduction(turns: seq<TurnRecord>, total: nat, credit: map<nat, nat>, away: nat)
    requires LedgerOk(turns, total, credit, away)
    ensures SumTurns(turns, Reduction) <= total
    ensures total == SumTurns(turns, Reduction) <==>
              away == 0
              && forall i, j :: At(turns, i, j) ==>
                 Credit(credit, Call(turns, i, j).tcIndex) == Reduction(Call(turns, i, j))
  {
    var f := CreditOf(credit);
    assert forall i, j :: At(turns, i, j) ==>
      RecordFair(credit, Call(turns, i, j)) && f(Call(turns, i, j)) == Credit(credit, Call(turns, i, j).tcIndex);
    SumTurnsLe(turns, Reduction, f);
  }

  function Summarized(r: ToolCallRecord, summary: string, turnIndex: nat, tokens: nat): ToolCallRecord {
    r.(summarizedResponse := Some(summary), summarizedByTurn := Some(turnIndex), tokensSummarized := Some(tokens))
  }

  function Shrinkage(before: nat, after: nat): nat {
    if before > after then before - after else 0
  }

  lemma SummarizeKeepsLedger(
    turns: seq<TurnRecord>, counter: nat, total: nat, credit: map<nat, nat>, away: nat,
    i: nat, j: nat, r: ToolCallRecord, saved: nat)
    requires Ordered(turns, counter) && LedgerOk(turns, total, credit, away) && At(turns, i, j)
    requires r.tcIndex == Call(turns, i, j).tcIndex && r.tokensRaw == Call(turns, i, j).tokensRaw
    requires r.summarizedResponse.Some? && saved == Shrinkage(Charged(Call(turns, i, j)), Charged(r))
    ensures LedgerOk(Replace(turns, i, j, r), total + saved, credit[r.tcIndex := Credit(credit, r.tcIndex) + saved], away)
  {
    var credit' := credit[r.tcIndex := Credit(credit, r.tcIndex) + saved];
    var after := Replace(turns, i, j, r);
    forall k, l | At(turns, k, l) && !(k == i && l == j)
      ensures Call(turns, k, l).tcIndex != r.tcIndex
    {
      if Call(turns, k, l).tcIndex == r.tcIndex {
        SameIndexSamePlace(turns, counter, i, j, k, l);
      }
    }
    SumTurnsUpdate(turns, CreditOf(credit), i, j, r, CreditOf(credit'));
    assert RecordFair(credit, Call(turns, i, j));
    forall k, l | At(after, k, l)
      ensures RecordFair(credit', Call(after, k, l))
    {
      ReplaceAt(turns, i, j, r, k, l);
      assert RecordFair(credit, Call(turns, k, l));
    }
  }

  // ---------- Folding old turns away ----------

  /** The turns whose index is not folded, in order. */
  function Unfolded(turns: seq<TurnRecord>, folded: set<nat>): (kept: seq<TurnRecord>)
    ensures forall t :: t in kept <==> t in turns && t.turnIndex !in folded
  {
    if turns == [] then []
    else
      var last := turns[|turns| - 1];
      var rest := Unfolded(turns[..|turns| - 1], folded);
      assert turns == turns[..|turns| - 1] + [last];
      if last.turnIndex in folded then rest else rest + [last]
  }

  lemma UnfoldedLast(turns: seq<TurnRecord>, folded: set<nat>)
    requires turns != []
    ensures
      var n := |turns| - 1;
      var rest := Unfolded(turns[..n], folded);
      Unfolded(turns, folded) == if turns[n].turnIndex in folded then rest else rest + [turns[n]]
  {
  }

  lemma SnocOrdered(turns: seq<TurnRecord>, t: TurnRecord, counter: nat)
    requires Ordered(turns, counter) && WellNumbered(t.toolCalls, 0, counter)
    requires forall i :: 0 <= i < |turns| ==> Precedes(turns[i], t)
    ensures Ordered(turns + [t], counter)
  {
    hide WellNumbered, Precedes;
  }

  lemma OrderedSplits(turns: seq<TurnRecord>, counter: nat)
    requires Ordered(turns, counter) && turns != []
    ensures Ordered(turns[..|turns| - 1], counter) && WellNumbered(turns[|turns| - 1].toolCalls, 0, counter)
    ensures forall i :: 0 <= i < |turns| - 1 ==> Precedes(turns[i], turns[|turns| - 1])
  {
    hide WellNumbered, Precedes;
  }

  lemma {:induction false} UnfoldedOrdered(turns: seq<TurnRecord>, counter: nat, folded: set<nat>)
    requires Ordered(turns, counter)
    ensures Ordered(Unfolded(turns, folded), counter)
  {
    hide Ordered, WellNumbered, Precedes;
    if turns == [] {
      return;
    }
    var n := |turns| - 1;
    var rest := Unfolded(turns[..n], folded);
    OrderedSplits(turns, counter);
    UnfoldedOrdered(turns[..n], counter, folded);
    if turns[n].turnIndex !in folded {
      forall i | 0 <= i < |rest|
        ensures Precedes(rest[i], turns[n])
      {
        assert rest[i] in rest && rest[i] in turns[..n];
        var k :| 0 <= k < n && turns[k] == rest[i];
      }
      SnocOrdered(rest, turns[n], counter);
    }
  }

  /** What folding removes from a sum is the sum over the folded turns; it is never negative for a credit. */
  lemma {:induction false} UnfoldedSum(turns: seq<TurnRecord>, folded: set<nat>, f: ToolCallRecord -> int)
    requires forall r :: f(r) >= 0
    ensures 0 <= SumTurns(Unfolded(turns, folded), f) <= SumTurns(turns, f)
    ensures TurnSavings(Unfolded(turns, folded)) <= TurnSavings(turns)
  {
    if turns != [] {
      var n := |turns| - 1;
      UnfoldedSum(turns[..n], folded, f);
      SumCallsNonNegative(turns[n].toolCalls, f);
      var rest := Unfolded(turns[..n], folded);
      assert (rest + [turns[n]])[..|rest|] == rest;
    }
  }

  /** The ledger after every record was replaced by its image and its credit grew by `gain`. */
  lemma MappedKeepsLedger(
    before: seq<TurnRecord>, total: nat, credit: map<nat, nat>, away: nat, upd: ToolCallRecord -> ToolCallRecord,
    gain: ToolCallRecord -> int, now: seq<TurnRecord>, credit': map<nat, nat>)
    requires LedgerOk(before, total, credit, away) && RecordsMapped(before, now, upd)
    requires forall r :: gain(r) >= 0
    requires forall i, j :: At(before, i, j) ==>
               var r := Call(before, i, j);
               && upd(r).tcIndex == r.tcIndex
               && Credit(credit', r.tcIndex) == Credit(credit, r.tcIndex) + gain(r)
               && RecordFair(credit', upd(r))
    ensures SumTurns(before, gain) >= 0 && LedgerOk(now, total + SumTurns(before, gain), credit', away)
  {
    var sum := (r: ToolCallRecord) => Credit(credit, r.tcIndex) + gain(r);
    SumTurnsPlus(before, CreditOf(credit), gain, sum);
    forall i, j | At(before, i, j)
      ensures At(now, i, j) && sum(Call(before, i, j)) == CreditOf(credit')(Call(now, i, j))
    {
      assert now[i].toolCalls[j] == upd(before[i].toolCalls[j]);
    }
    SumTurnsSame(before, sum, now, CreditOf(credit'));
    UnfoldedSum(before, {}, gain);
    forall i, j | At(now, i, j)
      ensures RecordFair(credit', Call(now, i, j))
    {
      assert At(before, i, j) && now[i].toolCalls[j] == upd(before[i].toolCalls[j]);
    }
  }

  lemma FoldKeepsLedger(turns: seq<TurnRecord>, folded: set<nat>, total: nat, credit: map<nat, nat>, away: nat)
    requires LedgerOk(turns, total, credit, away)
    ensures var kept := Unfolded(turns, folded);
            var gone := SumTurns(turns, CreditOf(credit)) - SumTurns(kept, CreditOf(credit));
            gone >= 0 && LedgerOk(kept, total, credit, away + gone)
  {
    UnfoldedSum(turns, folded, CreditOf(credit));
    var kept := Unfolded(turns, folded);
    forall i, j | At(kept, i, j)
      ensures RecordFair(credit, Call(kept, i, j))
    {
      assert kept[i] in kept && kept[i] in turns;
      var k :| 0 <= k < |turns| && turns[k] == kept[i];
      assert At(turns, k, j) && Call(turns, k, j) == Call(kept, i, j);
    }
  }

  lemma {:induction false} SumCallsNonNegative(calls: seq<ToolCallRecord>, f: ToolCallRecord -> int)
    requires forall r :: f(r) >= 0
    ensures SumCalls(calls, f) >= 0
  {
    if calls != [] {
      SumCallsNonNegative(calls[..|calls| - 1], f);
    }
  }

  lemma {:induction false} TurnSavingsSame(a: seq<TurnRecord>, b: seq<TurnRecord>)
    requires |a| == |b|
    requires forall i :: 0 <= i < |a| ==> a[i].tokensSavedThisTurn == b[i].tokensSavedThisTurn
    ensures TurnSavings(a) == TurnSavings(b)
  {
    if a != [] {
      TurnSavingsSame(a[..|a| - 1], b[..|b| - 1]);
    }
  }

  lemma SumCallsZero(calls: seq<ToolCallRecord>, credit: map<nat, nat>)
    requires forall j :: 0 <= j < |calls| ==> calls[j].tcIndex !in credit
    ensures SumCalls(calls, CreditOf(credit)) == 0
  {
    if calls != [] {
      SumCallsZero(calls[..|calls| - 1], credit);
    }
  }

  /** What holds of a session between any two operations. */
  ghost predicate Consistent(
    turns: seq<TurnRecord>, counter: nat, total: nat, credit: map<nat, nat>, away: nat, unattributed: nat)
  {
    && Ordered(turns, counter)
    && LedgerOk(turns, total, credit, away)
    && (forall index :: index in credit ==> index <= counter)
    && total == TurnSavings(turns) + unattributed
  }

  lemma SummaryKeepsConsistent(
    turns: seq<TurnRecord>, counter: nat, total: nat, credit: map<nat, nat>, away: nat, unattributed: nat,
    i: nat, j: nat, r: ToolCallRecord, saved: nat)
    requires Consistent(turns, counter, total, credit, away, unattributed) && At(turns, i, j)
    requires r.tcIndex == Call(turns, i, j).tcIndex && r.tcId == Call(turns, i, j).tcId
    requires r.tokensRaw == Call(turns, i, j).tokensRaw && r.summarizedResponse.Some?
    requires saved == Shrinkage(Charged(Call(turns, i, j)), Charged(r))
    ensures Consistent(Replace(turns, i, j, r), counter, total + saved,
                       credit[r.tcIndex := Credit(credit, r.tcIndex) + saved], away, unattributed + saved)
  {
    hide Ordered, LedgerOk, Replace, TurnSavings, Charged;
    SummarizeKeepsLedger(turns, counter, total, credit, away, i, j, r, saved);
    ReplaceOrdered(turns, i, j, r, counter);
    IndexBound(turns, counter, i, j);
    ReplaceKeepsSavings(turns, i, j, r);
  }

  lemma IndexBound(turns: seq<TurnRecord>, counter: nat, i: nat, j: nat)
    requires Ordered(turns, counter) && At(turns, i, j)
    ensures Call(turns, i, j).tcIndex <= counter
  {
    assert WellNumbered(turns[i].toolCalls, 0, counter);
  }

  lemma ReplaceKeepsSavings(turns: seq<TurnRecord>, i: nat, j: nat, r: ToolCallRecord)
    requires At(turns, i, j)
    ensures TurnSavings(Replace(turns, i, j, r)) == TurnSavings(turns)
  {
    TurnSavingsSame(turns, Replace(turns, i, j, r));
  }

  /** Overwriting raw results leaves numbering and ledger alone. */
  lemma RawKeepsConsistent(
    turns: seq<TurnRecord>, counter: nat, total: nat, credit: map<nat, nat>, away: nat, unattributed: nat,
    after: seq<TurnRecord>, upd: ToolCallRecord -> ToolCallRecord)
    requires Consistent(turns, counter, total, credit, away, unattributed)
    requires RecordsMapped(turns, after, upd)
    requires forall r :: upd(r) == r.(rawResponse := upd(r).rawResponse)
    ensures Consistent(after, counter, total, credit, away, unattributed)
  {
    MappedOrdered(turns, after, upd, counter);
    TurnSavingsSame(turns, after);
    RawKeepsLedger(turns, total, credit, away, after, upd);
  }

  lemma RawKeepsLedger(
    turns: seq<TurnRecord>, total: nat, credit: map<nat, nat>, away: nat,
    after: seq<TurnRecord>, upd: ToolCallRecord -> ToolCallRecord)
    requires LedgerOk(turns, total, credit, away) && RecordsMapped(turns, after, upd)
    requires forall r :: upd(r) == r.(rawResponse := upd(r).rawResponse)
    ensures LedgerOk(after, total, credit, away)
  {
    assert SameCosts(turns, after);
    SameCostsKeepLedger(turns, total, credit, away, after);
  }

  ghost predicate SameCosts(a: seq<TurnRecord>, b: seq<TurnRecord>) {
    && |b| == |a|
    && forall i :: 0 <= i < |a| ==>
         && |b[i].toolCalls| == |a[i].toolCalls|
         && forall j :: 0 <= j < |a[i].toolCalls| ==> 
              b[i].toolCalls[j] == a[i].toolCalls[j].(rawResponse := b[i].toolCalls[j].rawResponse)
  }

  lemma SameCostsKeepLedger(
    turns: seq<TurnRecord>, total: nat, credit: map<nat, nat>, away: nat, after: seq<TurnRecord>)
    requires LedgerOk(turns, total, credit, away) && SameCosts(turns, after)
    ensures LedgerOk(after, total, credit, away)
  {
    SumTurnsSame(turns, CreditOf(credit), after, CreditOf(credit));
    forall i, j | At(after, i, j)
      ensures RecordFair(credit, Call(after, i, j))
    {
      assert At(turns, i, j) && RecordFair(credit, Call(turns, i, j));
    }
  }

  lemma AppendKeepsConsistent(
    turns: seq<TurnRecord>, low: nat, counter: nat, total: nat, credit: map<nat, nat>, away: nat, unattributed: nat,
    turn: TurnRecord)
    requires Consistent(turns, low, total, credit, away, unattributed) && low <= counter
    requires WellNumbered(turn.toolCalls, low, counter)
    requires forall j :: 0 <= j < |turn.toolCalls| ==> turn.toolCalls[j].tokensSummarized.None?
    requires turn.tokensSavedThisTurn <= unattributed
    ensures Consistent(turns + [turn], counter, total, credit, away, unattributed - turn.tokensSavedThisTurn)
  {
    AppendOrdered(turns, low, turn, counter);
    assert forall j :: 0 <= j < |turn.toolCalls| ==> turn.toolCalls[j].tcIndex !in credit;
    AppendKeepsLedger(turns, total, credit, away, turn);
    assert (turns + [turn])[..|turns|] == turns;
  }

  lemma AppendKeepsLedger(turns: seq<TurnRecord>, total: nat, credit: map<nat, nat>, away: nat, turn: TurnRecord)
    requires LedgerOk(turns, total, credit, away)
    requires forall j :: 0 <= j < |turn.toolCalls| ==>
      turn.toolCalls[j].tokensSummarized.None? && turn.toolCalls[j].tcIndex !in credit
    ensures LedgerOk(turns + [turn], total, credit, away)
  {
    SumTurnsAppend(turns, turn, CreditOf(credit));
    SumCallsZero(turn.toolCalls, credit);
    var all := turns + [turn];
    forall i, j | At(all, i, j)
      ensures RecordFair(credit, Call(all, i, j))
    {
      if i < |turns| { assert At(turns, i, j) && Call(turns, i, j) == Call(all, i, j); }
    }
  }

  lemma FoldKeepsConsistent(
    turns: seq<TurnRecord>, counter: nat, total: nat, credit: map<nat, nat>, away: nat, unattributed: nat,
    folded: set<nat>)
    requires Consistent(turns, counter, total, credit, away, unattributed)
    ensures var kept := Unfolded(turns, folded);
            var gone := SumTurns(turns, CreditOf(credit)) - SumTurns(kept, CreditOf(credit));
            var unbooked := TurnSavings(turns) - TurnSavings(kept);
            gone >= 0 && unbooked >= 0 && Consistent(kept, counter, total, credit, away + gone, unattributed + unbooked)
  {
    UnfoldedOrdered(turns, counter, folded);
    UnfoldedSum(turns, folded, CreditOf(credit));
    FoldKeepsLedger(turns, folded, total, credit, away);
  }

  lemma EmptyConsistent()
    ensures Consistent([], 0, 0, map[], 0, 0)
  {
    var turns: seq<TurnRecord>, credit: map<nat, nat> := [], map[];
    assert SumTurns(turns, CreditOf(credit)) == 0 && TurnSavings(turns) == 0;
    assert LedgerOk(turns, 0, credit, 0);
  }

  class AgentSession {
    var turns: seq<TurnRecord>
    var pendingInteractions: seq<PendingInteraction>
    var tcCounter: nat
    var totalTokensSaved: nat
    ghost var recorded: nat
    ghost var credit: map<nat, nat>
    ghost var away: nat
    ghost var unattributed: nat

    ghost predicate Valid()
      reads this
    {
      && recorded <= tcCounter
      && Consistent(turns, recorded, totalTokensSaved, credit, away, unattributed)
    }

    constructor ()
      ensures Valid() && turns == [] && pendingInteractions == [] && tcCounter == 0 && totalTokensSaved == 0
      ensures recorded == 0 && credit == map[] && away == 0 && unattributed == 0
    {
      hide Consistent;
      EmptyConsistent();
      turns, pendingInteractions, tcCounter, totalTokensSaved := [], [], 0, 0;
      recorded, credit, away, unattributed := 0, map[], 0, 0;
    }

    method NextTcIndex() returns (index: nat)
      requires Valid()
      modifies this`tcCounter
      ensures Valid()
      ensures index == old(tcCounter) && tcCounter == index + 1
    {
      index := tcCounter;
      tcCounter := tcCounter + 1;
    }

    /** The first recorded call with this id, by position. */
    method FindTc(tcId: string) returns (place: Option<(nat, nat)>)
      ensures place.None? ==> forall i, j :: At(turns, i, j) ==> Call(turns, i, j).tcId != tcId
      ensures place.Some? ==> At(turns, place.value.0, place.value.1)
      ensures place.Some? ==> Call(turns, place.value.0, place.value.1).tcId == tcId
    {
      for i := 0 to |turns|
        invariant forall k, l :: At(turns, k, l) && k < i ==> Call(turns, k, l).tcId != tcId
      {
        var calls := turns[i].toolCalls;
        for j := 0 to |calls|
          invariant forall k, l :: At(turns, k, l) && (k < i || (k == i && l < j)) ==> Call(turns, k, l).tcId != tcId
        {
          if calls[j].tcId == tcId {
            return Some((i, j));
          }
        }
      }
      return None;
    }

    /** Writes one summary with its token count and adds the reported saving to the session total. */
    method RecordSummary(i: nat, j: nat, summary: string, turnIndex: nat, tokens: nat, saved: nat)
      requires Valid() && At(turns, i, j)
      requires saved == Shrinkage(Charged(Call(turns, i, j)), tokens)
      modifies this`turns, this`totalTokensSaved, this`credit, this`unattributed
      ensures Valid()
      ensures turns == Replace(old(turns), i, j, Summarized(old(Call(turns, i, j)), summary, turnIndex, tokens))
      ensures totalTokensSaved == old(totalTokensSaved) + saved && unattributed == old(unattributed) + saved
      ensures var k := old(Call(turns, i, j)).tcIndex; credit == old(credit)[k := Credit(old(credit), k) + saved]
    {
      hide Consistent, Ordered, LedgerOk, Replace;
      var tc := turns[i].toolCalls[j];
      var tc' := Summarized(tc, summary, turnIndex, tokens);
      SummaryKeepsConsistent(turns, recorded, totalTokensSaved, credit, away, unattributed, i, j, tc', saved);
      turns := Replace(turns, i, j, tc');
      totalTokensSaved := totalTokensSaved + saved;
      credit, unattributed := credit[tc.tcIndex := Credit(credit, tc.tcIndex) + saved], unattributed + saved;
    }

    /** Appends a finished turn, with part of the unattributed savings booked on it. */
    method AppendTurn(turn: TurnRecord)
      requires Valid() && WellNumbered(turn.toolCalls, recorded, tcCounter)
      requires forall j :: 0 <= j < |turn.toolCalls| ==> turn.toolCalls[j].tokensSummarized.None?
      requires turn.tokensSavedThisTurn <= unattributed
      modifies this`turns, this`unattributed, this`recorded
      ensures Valid() && turns == old(turns) + [turn] && recorded == tcCounter
      ensures unattributed == old(unattributed) - turn.tokensSavedThisTurn
    {
      hide Consistent;
      AppendKeepsConsistent(turns, recorded, tcCounter, totalTokensSaved, credit, away, unattributed, turn);
      turns := turns + [turn];
      unattributed, recorded := unattributed - turn.tokensSavedThisTurn, tcCounter;
    }

    /** The context summarizer folds some turns into prose and drops them from the session. */
    method FoldTurns(folded: set<nat>)
      requires Valid()
      modifies this`turns, this`away, this`unattributed
      ensures Valid() && turns == Unfolded(old(turns), folded)
      ensures away == old(away) + SumTurns(old(turns), CreditOf(credit)) - SumTurns(turns, CreditOf(credit))
      ensures unattributed == old(unattributed) + TurnSavings(old(turns)) - TurnSavings(turns)
      ensures unattributed >= old(unattributed)
    {
      hide Consistent, Unfolded, SumTurns, TurnSavings, CreditOf;
      FoldKeepsConsistent(turns, recorded, totalTokensSaved, credit, away, unattributed, folded);
      ghost var gone := SumTurns(turns, CreditOf(credit)) - SumTurns(Unfolded(turns, folded), CreditOf(credit));
      ghost var unbooked := TurnSavings(turns) - TurnSavings(Unfolded(turns, folded));
      turns := Unfolded(turns, folded);
      away, unattributed := away + gone, unattributed + unbooked;
    }
  }
}
