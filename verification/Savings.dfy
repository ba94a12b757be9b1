/**
 The savings ledger over any sequence of passes: interceptor updates, compactor passes, appended turns, answered calls
 and folds. Its total is the sum of what the passes reported, and it is the session's net reduction exactly when no
 summary of a call still recorded was longer than what it replaced and nothing that had saved anything was folded away.
 */
module Savings {
  import opened Text
  import opened Sessions
  import opened AgentSessions
  import opened Rcs

  /** The savings reported for a call are what it costs less now. */
  predicate Exact(credit: map<nat, nat>, r: ToolCallRecord) {
    Credit(credit, r.tcIndex) == Reduction(r)
  }

  /** None of the summaries that the updates give this call is longer than what it replaces. */
  predicate InterceptorShrinks(r: ToolCallRecord, updates: seq<RawUpdate>, count: string -> nat) {
    NeverGrows(Charged(r), Lengths(SummariesFor(updates, r.tcId), count))
  }

  /** The summary that the compactor gives this call, if any, is not longer than the raw result. */
  predicate CompactorShrinks(
    r: ToolCallRecord, targets: seq<ToolCallRecord>, llm: nat -> Option<string>, count: string -> nat)
  {
    r in targets && CompactorSummary(llm, r).Some? ==> count(CompactorSummary(llm, r).value) <= r.tokensRaw
  }

  lemma InterceptorExact(
    r: ToolCallRecord, credit: map<nat, nat>, credit': map<nat, nat>, updates: seq<RawUpdate>, turnIndex: nat,
    count: string -> nat)
    requires RecordFair(credit, r)
    requires Credit(credit', r.tcIndex) == Credit(credit, r.tcIndex) + InterceptorSaving(r, updates, count)
    ensures Exact(credit', Resummarized(r, updates, turnIndex, count))
            <==> Exact(credit, r) && InterceptorShrinks(r, updates, count)
  {
    ChargedAfter(r, updates, turnIndex, count);
    MarginalSavingsExact(Charged(r), Lengths(SummariesFor(updates, r.tcId), count));
    hide MarginalSavings, FinalLength, SummariesFor, NeverGrows;
  }

  lemma CompactorExact(
    r: ToolCallRecord, credit: map<nat, nat>, credit': map<nat, nat>, targets: seq<ToolCallRecord>,
    llm: nat -> Option<string>, turnIndex: nat, count: string -> nat)
    requires RecordFair(credit, r) && (r in targets ==> r.summarizedResponse.None?)
    requires Credit(credit', r.tcIndex) == Credit(credit, r.tcIndex) + CompactorSaving(r, targets, llm, count)
    ensures Exact(credit', Compacted(r, targets, llm, turnIndex, count))
            <==> Exact(credit, r) && CompactorShrinks(r, targets, llm, count)
  {
    hide CompactorSummary;
  }

  /** An interception keeps every call exact that was, except those it gives a longer summary. */
  lemma InterceptedExact(
    before: seq<TurnRecord>, total: nat, credit: map<nat, nat>, away: nat, updates: seq<RawUpdate>, turnIndex: nat,
    count: string -> nat, now: seq<TurnRecord>, credit': map<nat, nat>, i: int, j: int)
    requires LedgerOk(before, total, credit, away) && At(before, i, j)
    requires Intercepted(before, credit, updates, turnIndex, count, now, credit')
    ensures At(now, i, j) && Call(now, i, j).tcIndex == Call(before, i, j).tcIndex
    ensures Exact(credit', Call(now, i, j))
            <==> Exact(credit, Call(before, i, j)) && InterceptorShrinks(Call(before, i, j), updates, count)
  {
    var r := Call(before, i, j);
    assert now[i].toolCalls[j] == Resummarized(before[i].toolCalls[j], updates, turnIndex, count);
    assert RecordFair(credit, r);
    InterceptorExact(r, credit, credit', updates, turnIndex, count);
    ResummarizedKeepsId(r, updates, turnIndex, count);
    hide Resummarized, InterceptorShrinks, Exact, Lengths, MarginalSavings;
  }

  lemma CompactedExact(
    before: seq<TurnRecord>, total: nat, credit: map<nat, nat>, away: nat, targets: seq<ToolCallRecord>,
    llm: nat -> Option<string>, turnIndex: nat, count: string -> nat, now: seq<TurnRecord>, credit': map<nat, nat>,
    i: int, j: int)
    requires LedgerOk(before, total, credit, away) && At(before, i, j)
    requires forall r :: r in targets ==> r.summarizedResponse.None?
    requires CompactedTo(before, credit, targets, llm, turnIndex, count, now, credit')
    ensures At(now, i, j) && Call(now, i, j).tcIndex == Call(before, i, j).tcIndex
    ensures Exact(credit', Call(now, i, j))
            <==> Exact(credit, Call(before, i, j)) && CompactorShrinks(Call(before, i, j), targets, llm, count)
  {
    var r := Call(before, i, j);
    assert now[i].toolCalls[j] == Compacted(before[i].toolCalls[j], targets, llm, turnIndex, count);
    assert RecordFair(credit, r);
    CompactorExact(r, credit, credit', targets, llm, turnIndex, count);
    hide CompactorShrinks, Exact, CompactorSummary;
  }

  // ---------- Sequences of passes ----------

  datatype Pass =
    | Interception(updates: seq<RawUpdate>, turnIndex: nat)
    | Compaction(targets: seq<ToolCallRecord>, llm: nat -> Option<string>, turnIndex: nat)
    | Append(turn: TurnRecord)
    | Answering
    | Fold(folded: set<nat>)

  /** The session as the ledger sees it. `credit` and `away` are reported savings, by call and of calls folded away. */
  datatype Books = Books(turns: seq<TurnRecord>, counter: nat, total: nat, credit: map<nat, nat>, away: nat)

  ghost predicate BooksOk(b: Books) {
    && Ordered(b.turns, b.counter)
    && LedgerOk(b.turns, b.total, b.credit, b.away)
    && forall x :: x in b.credit ==> x <= b.counter
  }

  /** What a pass reports as saved. */
  ghost function Reported(a: Books, p: Pass, count: string -> nat): int {
    match p
    case Interception(updates, _) => InterceptorSavings(a.turns, updates, count)
    case Compaction(targets, llm, _) => CompactorSavings(a.turns, targets, llm, count)
    case _ => 0
  }

  /** The savings that were reported for calls of the turns a pass folds away. */
  ghost function FoldedCredit(a: Books, p: Pass): int {
    match p
    case Fold(folded) => SumTurns(a.turns, CreditOf(a.credit)) - SumTurns(Unfolded(a.turns, folded), CreditOf(a.credit))
    case _ => 0
  }

  ghost predicate PassStep(a: Books, p: Pass, b: Books, count: string -> nat) {
    && b.total == a.total + Reported(a, p, count) && b.away == a.away + FoldedCredit(a, p)
    && a.counter <= b.counter
    && (forall x :: x in b.credit ==> x <= a.counter)
    && match p
       case Interception(updates, turnIndex) =>
         Intercepted(a.turns, a.credit, updates, turnIndex, count, b.turns, b.credit)
       case Compaction(targets, llm, turnIndex) =>
         && (forall r :: r in targets ==> r.summarizedResponse.None?)
         && CompactedTo(a.turns, a.credit, targets, llm, turnIndex, count, b.turns, b.credit)
       case Append(turn) =>
         && b.turns == a.turns + [turn] && b.credit == a.credit
         && WellNumbered(turn.toolCalls, a.counter, b.counter)
         && forall j :: 0 <= j < |turn.toolCalls| ==> turn.toolCalls[j].tokensSummarized.None?
       case Answering => SameCosts(a.turns, b.turns) && b.credit == a.credit
       case Fold(folded) => b.turns == Unfolded(a.turns, folded) && b.credit == a.credit
  }

  lemma AppendStep(a: Books, turn: TurnRecord, b: Books, count: string -> nat)
    requires b == a.(turns := a.turns + [turn], counter := b.counter) && a.counter <= b.counter
    requires forall x :: x in b.credit ==> x <= a.counter
    requires WellNumbered(turn.toolCalls, a.counter, b.counter)
    requires forall j :: 0 <= j < |turn.toolCalls| ==> turn.toolCalls[j].tokensSummarized.None?
    ensures PassStep(a, Append(turn), b, count)
  {
    hide WellNumbered;
  }

  lemma AnsweringStep(a: Books, b: Books, count: string -> nat)
    requires b == a.(turns := b.turns) && SameCosts(a.turns, b.turns)
    requires forall x :: x in b.credit ==> x <= a.counter
    ensures PassStep(a, Answering, b, count)
  {
    hide SameCosts;
  }

  /** `states` are the books before, between and after the passes. */
  ghost predicate Steps(states: seq<Books>, passes: seq<Pass>, count: string -> nat) {
    && |states| == |passes| + 1
    && forall k :: 0 <= k < |passes| ==> PassStep(states[k], passes[k], states[k + 1], count)
  }

  /** In this pass a summary of call `x` was longer than what it replaced. */
  ghost predicate Grows(a: Books, p: Pass, x: nat, count: string -> nat) {
    exists i, j :: At(a.turns, i, j) && Call(a.turns, i, j).tcIndex == x
                   && match p
                      case Interception(updates, _) => !InterceptorShrinks(Call(a.turns, i, j), updates, count)
                      case Compaction(targets, llm, _) => !CompactorShrinks(Call(a.turns, i, j), targets, llm, count)
                      case _ => false
  }

  ghost predicate EverGrows(states: seq<Books>, passes: seq<Pass>, x: nat, count: string -> nat)
    requires |states| == |passes| + 1
  {
    exists k :: 0 <= k < |passes| && Grows(states[k], passes[k], x, count)
  }

  lemma SameCostsOrdered(turns: seq<TurnRecord>, after: seq<TurnRecord>, counter: nat)
    requires Ordered(turns, counter) && SameCosts(turns, after)
    ensures Ordered(after, counter)
  {
    forall i | 0 <= i < |after|
      ensures WellNumbered(after[i].toolCalls, 0, counter)
    {
      assert WellNumbered(turns[i].toolCalls, 0, counter);
      assert forall j :: 0 <= j < |turns[i].toolCalls| ==>
        after[i].toolCalls[j] == turns[i].toolCalls[j].(rawResponse := after[i].toolCalls[j].rawResponse);
    }
    forall i, j | 0 <= i < j < |after|
      ensures Precedes(after[i], after[j])
    {
      assert Precedes(turns[i], turns[j]);
      assert forall k :: 0 <= k < |turns[i].toolCalls| ==>
        after[i].toolCalls[k] == turns[i].toolCalls[k].(rawResponse := after[i].toolCalls[k].rawResponse);
      assert forall k :: 0 <= k < |turns[j].toolCalls| ==>
        after[j].toolCalls[k] == turns[j].toolCalls[k].(rawResponse := after[j].toolCalls[k].rawResponse);
    }
  }

  lemma StepKeepsOrder(a: Books, p: Pass, b: Books, count: string -> nat)
    requires BooksOk(a) && PassStep(a, p, b, count)
    ensures Ordered(b.turns, b.counter)
  {
    hide LedgerOk, Resummarized, Compacted, SameCosts, WellNumbered, Precedes;
    match p {
      case Interception(updates, turnIndex) =>
        forall r ensures Resummarized(r, updates, turnIndex, count).tcId == r.tcId
                         && Resummarized(r, updates, turnIndex, count).tcIndex == r.tcIndex {
          ResummarizedKeepsId(r, updates, turnIndex, count);
        }
        MappedOrdered(a.turns, b.turns, r => Resummarized(r, updates, turnIndex, count), a.counter);
      case Compaction(targets, llm, turnIndex) =>
        CompactedKeepsId(targets, llm, turnIndex, count);
        MappedOrdered(a.turns, b.turns, r => Compacted(r, targets, llm, turnIndex, count), a.counter);
      case Append(turn) =>
        AppendOrdered(a.turns, a.counter, turn, b.counter);
        return;
      case Answering => SameCostsOrdered(a.turns, b.turns, a.counter);
      case Fold(folded) => UnfoldedOrdered(a.turns, a.counter, folded);
    }
    OrderedWider(b.turns, a.counter, b.counter);
  }

  lemma CompactedKeepsId(targets: seq<ToolCallRecord>, llm: nat -> Option<string>, turnIndex: nat, count: string -> nat)
    ensures forall r :: Compacted(r, targets, llm, turnIndex, count).tcId == r.tcId
                        && Compacted(r, targets, llm, turnIndex, count).tcIndex == r.tcIndex
  {
    hide CompactorSummary;
  }

  lemma OrderedWider(turns: seq<TurnRecord>, low: nat, high: nat)
    requires Ordered(turns, low) && low <= high
    ensures Ordered(turns, high)
  {
    forall i | 0 <= i < |turns|
      ensures WellNumbered(turns[i].toolCalls, 0, high)
    {
      assert WellNumbered(turns[i].toolCalls, 0, low);
    }
  }

  lemma InterceptionKeepsLedger(a: Books, p: Pass, b: Books, count: string -> nat)
    requires BooksOk(a) && PassStep(a, p, b, count) && p.Interception?
    ensures LedgerOk(b.turns, b.total, b.credit, b.away) && Reported(a, p, count) >= 0
  {
    hide Ordered, LedgerOk, Intercepted, InterceptorSavings;
    InterceptedKeepsLedger(a.turns, a.total, a.credit, a.away, p.updates, p.turnIndex, count, b.turns, b.credit);
  }

  lemma CompactionKeepsLedger(a: Books, p: Pass, b: Books, count: string -> nat)
    requires BooksOk(a) && PassStep(a, p, b, count) && p.Compaction?
    ensures LedgerOk(b.turns, b.total, b.credit, b.away) && Reported(a, p, count) >= 0
  {
    hide Ordered, LedgerOk, CompactedTo, CompactorSavings;
    CompactedKeepsLedger(a.turns, a.total, a.credit, a.away, p.targets, p.llm, p.turnIndex, count, b.turns, b.credit);
  }

  lemma AppendLedger(a: Books, p: Pass, b: Books, count: string -> nat)
    requires BooksOk(a) && PassStep(a, p, b, count) && p.Append?
    ensures LedgerOk(b.turns, b.total, b.credit, b.away)
  {
    hide Ordered, LedgerOk;
    assert forall j :: 0 <= j < |p.turn.toolCalls| ==> p.turn.toolCalls[j].tcIndex !in a.credit;
    AppendKeepsLedger(a.turns, a.total, a.credit, a.away, p.turn);
  }

  lemma OtherLedger(a: Books, p: Pass, b: Books, count: string -> nat)
    requires BooksOk(a) && PassStep(a, p, b, count) && (p.Answering? || p.Fold?)
    ensures LedgerOk(b.turns, b.total, b.credit, b.away) && FoldedCredit(a, p) >= 0
  {
    hide Ordered, LedgerOk, SameCosts, SumTurns, Unfolded;
    if p.Answering? {
      SameCostsKeepLedger(a.turns, a.total, a.credit, a.away, b.turns);
    } else {
      FoldKeepsLedger(a.turns, p.folded, a.total, a.credit, a.away);
    }
  }

  lemma StepLedger(a: Books, p: Pass, b: Books, count: string -> nat)
    requires BooksOk(a) && PassStep(a, p, b, count)
    ensures LedgerOk(b.turns, b.total, b.credit, b.away)
    ensures Reported(a, p, count) >= 0 && FoldedCredit(a, p) >= 0
  {
    hide BooksOk, PassStep, LedgerOk, InterceptorSavings, CompactorSavings, SumTurns, Unfolded;
    match p
    case Interception(_, _) => InterceptionKeepsLedger(a, p, b, count);
    case Compaction(_, _, _) => CompactionKeepsLedger(a, p, b, count);
    case Append(_) => AppendLedger(a, p, b, count);
    case _ => OtherLedger(a, p, b, count);
  }

  lemma StepKeepsBooks(a: Books, p: Pass, b: Books, count: string -> nat)
    requires BooksOk(a) && PassStep(a, p, b, count)
    ensures BooksOk(b) && Reported(a, p, count) >= 0 && FoldedCredit(a, p) >= 0
  {
    hide Ordered, LedgerOk, Intercepted, CompactedTo, SameCosts, Unfolded, WellNumbered, Reported, FoldedCredit;
    StepKeepsOrder(a, p, b, count);
    StepLedger(a, p, b, count);
  }

  // ---------- Which calls stay exact ----------

  /** A call found in these turns, by number. */
  ghost predicate Has(turns: seq<TurnRecord>, x: nat) {
    exists i, j :: At(turns, i, j) && Call(turns, i, j).tcIndex == x
  }

  /** Every call with this number (there is at most one) is exact. */
  ghost predicate ExactAt(b: Books, x: nat) {
    forall i, j :: At(b.turns, i, j) && Call(b.turns, i, j).tcIndex == x ==> Exact(b.credit, Call(b.turns, i, j))
  }

  lemma ExactHere(b: Books, i: int, j: int)
    requires Ordered(b.turns, b.counter) && At(b.turns, i, j)
    ensures ExactAt(b, Call(b.turns, i, j).tcIndex) <==> Exact(b.credit, Call(b.turns, i, j))
  {
    hide Exact, Ordered;
    forall k, l | At(b.turns, k, l) && Call(b.turns, k, l).tcIndex == Call(b.turns, i, j).tcIndex
      ensures k == i && l == j
    {
      SameIndexSamePlace(b.turns, b.counter, i, j, k, l);
    }
  }

  lemma GrowsHere(a: Books, p: Pass, i: int, j: int, count: string -> nat)
    requires Ordered(a.turns, a.counter) && At(a.turns, i, j)
    ensures
      Grows(a, p, Call(a.turns, i, j).tcIndex, count)
      <==> match p
           case Interception(updates, _) => !InterceptorShrinks(Call(a.turns, i, j), updates, count)
           case Compaction(targets, llm, _) => !CompactorShrinks(Call(a.turns, i, j), targets, llm, count)
           case _ => false
  {
    hide InterceptorShrinks, CompactorShrinks, Ordered;
    var x := Call(a.turns, i, j).tcIndex;
    forall k, l | At(a.turns, k, l) && Call(a.turns, k, l).tcIndex == x
      ensures k == i && l == j
    {
      SameIndexSamePlace(a.turns, a.counter, i, j, k, l);
    }
  }

  /** The place, before a pass other than an append, of the call that is at (i, j) after it. */
  lemma PlaceBefore(a: Books, p: Pass, b: Books, count: string -> nat, i: int, j: int) returns (k: int, l: int)
    requires BooksOk(a) && PassStep(a, p, b, count) && At(b.turns, i, j)
    requires p.Append? ==> i < |a.turns|
    ensures At(a.turns, k, l) && Call(a.turns, k, l).tcIndex == Call(b.turns, i, j).tcIndex
    ensures Exact(b.credit, Call(b.turns, i, j))
            <==> Exact(a.credit, Call(a.turns, k, l)) && !Grows(a, p, Call(a.turns, k, l).tcIndex, count)
  {
    hide LedgerOk, Exact, Grows, Intercepted, CompactedTo, Ordered, InterceptorShrinks, CompactorShrinks, Unfolded;
    k, l := i, j;
    match p {
      case Interception(_, _) => InterceptedPlace(a, p, b, count, i, j);
      case Compaction(_, _, _) => CompactedPlace(a, p, b, count, i, j);
      case Append(turn) =>
        assert Call(b.turns, i, j) == Call(a.turns, i, j);
        GrowsHere(a, p, i, j, count);
      case Answering =>
        AnsweredPlace(a, b, i, j);
        GrowsHere(a, p, i, j, count);
      case Fold(folded) =>
        assert b.turns[i] in b.turns;
        k :| 0 <= k < |a.turns| && a.turns[k] == b.turns[i];
        assert Call(a.turns, k, l) == Call(b.turns, i, j);
        GrowsHere(a, p, k, l, count);
    }
  }

  lemma InterceptedPlace(a: Books, p: Pass, b: Books, count: string -> nat, i: int, j: int)
    requires BooksOk(a) && PassStep(a, p, b, count) && At(b.turns, i, j) && p.Interception?
    ensures At(a.turns, i, j) && Call(a.turns, i, j).tcIndex == Call(b.turns, i, j).tcIndex
    ensures Exact(b.credit, Call(b.turns, i, j))
            <==> Exact(a.credit, Call(a.turns, i, j)) && !Grows(a, p, Call(a.turns, i, j).tcIndex, count)
  {
    assert At(a.turns, i, j);
    hide LedgerOk, Exact, InterceptorShrinks, Intercepted, Grows, InterceptorSavings, Ordered;
    InterceptedExact(a.turns, a.total, a.credit, a.away, p.updates, p.turnIndex, count, b.turns, b.credit, i, j);
    GrowsHere(a, p, i, j, count);
  }

  lemma CompactedPlace(a: Books, p: Pass, b: Books, count: string -> nat, i: int, j: int)
    requires BooksOk(a) && PassStep(a, p, b, count) && At(b.turns, i, j) && p.Compaction?
    ensures At(a.turns, i, j) && Call(a.turns, i, j).tcIndex == Call(b.turns, i, j).tcIndex
    ensures Exact(b.credit, Call(b.turns, i, j))
            <==> Exact(a.credit, Call(a.turns, i, j)) && !Grows(a, p, Call(a.turns, i, j).tcIndex, count)
  {
    assert At(a.turns, i, j);
    hide LedgerOk, Exact, CompactorShrinks, CompactedTo, Grows, CompactorSavings, Ordered;
    CompactedExact(a.turns, a.total, a.credit, a.away, p.targets, p.llm, p.turnIndex, count, b.turns, b.credit, i, j);
    GrowsHere(a, p, i, j, count);
  }

  lemma AnsweredPlace(a: Books, b: Books, i: int, j: int)
    requires SameCosts(a.turns, b.turns) && At(b.turns, i, j) && b.credit == a.credit
    ensures At(a.turns, i, j) && Call(a.turns, i, j).tcIndex == Call(b.turns, i, j).tcIndex
    ensures Exact(b.credit, Call(b.turns, i, j)) <==> Exact(a.credit, Call(a.turns, i, j))
  {
    assert Call(b.turns, i, j) == Call(a.turns, i, j).(rawResponse := Call(b.turns, i, j).rawResponse);
  }

  lemma StepExact(a: Books, p: Pass, b: Books, count: string -> nat, i: int, j: int)
    requires BooksOk(a) && BooksOk(b) && PassStep(a, p, b, count) && At(b.turns, i, j)
    ensures
      var x := Call(b.turns, i, j).tcIndex;
      && (x <= a.counter ==> Has(a.turns, x))
      && (Exact(b.credit, Call(b.turns, i, j)) <==> ExactAt(a, x) && !Grows(a, p, x, count))
  {
    var x := Call(b.turns, i, j).tcIndex;
    if p.Append? && i == |a.turns| {
      assert x > a.counter && b.turns[i].toolCalls[j] == p.turn.toolCalls[j];
      NotYet(a, x);
      hide SumTurns, Ordered;
    } else {
      hide PassStep, Exact, Grows;
      var k, l := PlaceBefore(a, p, b, count, i, j);
      ExactHere(a, k, l);
    }
  }

  lemma NotYet(a: Books, x: nat)
    requires Ordered(a.turns, a.counter) && x > a.counter
    ensures !Has(a.turns, x)
  {
    forall i, j | At(a.turns, i, j)
      ensures Call(a.turns, i, j).tcIndex != x
    {
      assert WellNumbered(a.turns[i].toolCalls, 0, a.counter);
    }
  }

  lemma StepGrowsLater(states: seq<Books>, passes: seq<Pass>, x: nat, count: string -> nat)
    requires Steps(states, passes, count) && passes != []
    ensures
      var n := |passes| - 1;
      EverGrows(states, passes, x, count)
      <==> EverGrows(states[..n + 1], passes[..n], x, count) || Grows(states[n], passes[n], x, count)
  {
    hide Grows, PassStep;
    var n := |passes| - 1;
    var older, rest := states[..n + 1], passes[..n];
    assert forall k :: 0 <= k < n ==> older[k] == states[k] && rest[k] == passes[k];
    if k :| 0 <= k < |passes| && Grows(states[k], passes[k], x, count) {
      assert k < n ==> Grows(older[k], rest[k], x, count);
    }
    if k :| 0 <= k < n && Grows(older[k], rest[k], x, count) {
      assert Grows(states[k], passes[k], x, count);
    }
  }

  lemma StepsPrefix(states: seq<Books>, passes: seq<Pass>, count: string -> nat)
    requires Steps(states, passes, count) && passes != []
    ensures
      var n := |passes| - 1;
      && |states| == n + 2 && states[..n + 1][0] == states[0] && states[..n + 1][n] == states[n]
      && Steps(states[..n + 1], passes[..n], count) && PassStep(states[n], passes[n], states[n + 1], count)
  {
    hide PassStep;
  }

  lemma StepsLength(states: seq<Books>, passes: seq<Pass>, count: string -> nat)
    requires Steps(states, passes, count)
    ensures |states| == |passes| + 1
  {
  }

  lemma StepCounter(a: Books, p: Pass, b: Books, count: string -> nat)
    requires PassStep(a, p, b, count)
    ensures a.counter <= b.counter
    ensures b.total == a.total + Reported(a, p, count) && b.away == a.away + FoldedCredit(a, p)
  {
    hide Reported, FoldedCredit, Intercepted, CompactedTo, SameCosts, Unfolded, WellNumbered;
  }

  // ---------- The whole sequence ----------

  ghost function SumReports(states: seq<Books>, passes: seq<Pass>, count: string -> nat): int
    requires |states| == |passes| + 1
  {
    if passes == [] then 0
    else
      var n := |passes| - 1;
      SumReports(states[..n + 1], passes[..n], count) + Reported(states[n], passes[n], count)
  }

  ghost function SumFolded(states: seq<Books>, passes: seq<Pass>): int
    requires |states| == |passes| + 1
  {
    if passes == [] then 0
    else
      var n := |passes| - 1;
      SumFolded(states[..n + 1], passes[..n]) + FoldedCredit(states[n], passes[n])
  }

  lemma {:induction false} CountersGrow(states: seq<Books>, passes: seq<Pass>, count: string -> nat, k: nat)
    requires Steps(states, passes, count) && k <= |passes|
    ensures states[k].counter <= states[|passes|].counter
    decreases |passes|
  {
    hide *;
    StepsLength(states, passes, count);
    if k < |passes| {
      var n := |passes| - 1;
      StepsPrefix(states, passes, count);
      CountersGrow(states[..n + 1], passes[..n], count, k);
      StepCounter(states[n], passes[n], states[n + 1], count);
    }
  }


  /** The books are in order between any two passes. */
  lemma {:induction false} BooksStayOk(states: seq<Books>, passes: seq<Pass>, count: string -> nat, k: nat)
    requires Steps(states, passes, count) && BooksOk(states[0]) && k <= |passes|
    ensures BooksOk(states[k])
    decreases |passes|
  {
    hide *;
    StepsLength(states, passes, count);
    if passes != [] {
      var n := |passes| - 1;
      StepsPrefix(states, passes, count);
      BooksStayOk(states[..n + 1], passes[..n], count, if k <= n then k else n);
      if k == n + 1 { StepKeepsBooks(states[n], passes[n], states[n + 1], count); }
    }
  }

  /** The total is what was reported, and what was folded away is what had been reported for it. */
  lemma {:induction false} TotalIsReports(states: seq<Books>, passes: seq<Pass>, count: string -> nat)
    requires Steps(states, passes, count) && BooksOk(states[0])
    ensures BooksOk(states[|passes|])
    ensures
      var first, last := states[0], states[|passes|];
      && last.total == first.total + SumReports(states, passes, count)
      && last.away == first.away + SumFolded(states, passes)
      && SumFolded(states, passes) >= 0
      && first.counter <= last.counter
    decreases |passes|
  {
    hide Steps, BooksOk, PassStep, Reported, FoldedCredit;
    StepsLength(states, passes, count);
    if passes != [] {
      var n := |passes| - 1;
      StepsPrefix(states, passes, count);
      TotalIsReports(states[..n + 1], passes[..n], count);
      StepKeepsBooks(states[n], passes[n], states[n + 1], count);
      StepCounter(states[n], passes[n], states[n + 1], count);
    }
  }

  /** A call that is not there yet has neither grown nor been inexact. */
  lemma NotYetGrown(states: seq<Books>, passes: seq<Pass>, count: string -> nat, x: nat)
    requires Steps(states, passes, count) && BooksOk(states[0]) && x > states[|passes|].counter
    ensures ExactAt(states[0], x) && !EverGrows(states, passes, x, count)
    ensures !EverSaves(states, passes, x, count) && !Has(states[0].turns, x)
  {
    hide Steps, BooksOk, ExactAt, Has, Grows, Saves;
    StepsLength(states, passes, count);
    forall k | 0 <= k < |states|
      ensures !Has(states[k].turns, x)
    {
      CountersGrow(states, passes, count, k);
      BooksStayOk(states, passes, count, k);
      BooksOrdered(states[k]);
      NotYet(states[k], x);
    }
    forall k | 0 <= k < |passes|
      ensures !Grows(states[k], passes[k], x, count) && !Saves(states[k], passes[k], x, count)
    {
      AbsentCall(states[k], passes[k], x, count);
    }
    NotThere(states[0], x);
  }

  lemma AbsentCall(a: Books, p: Pass, x: nat, count: string -> nat)
    requires !Has(a.turns, x)
    ensures !Grows(a, p, x, count) && !Saves(a, p, x, count)
  {
    hide InterceptorShrinks, CompactorShrinks, InterceptorSaving, CompactorSaving;
  }

  lemma NotThere(b: Books, x: nat)
    requires !Has(b.turns, x)
    ensures ExactAt(b, x)
  {
    hide Exact;
  }

  /** After any passes a call is exact if and only if it was to begin with and no summary of it was ever too long. */
  lemma {:induction false} CallExact(
    states: seq<Books>, passes: seq<Pass>, count: string -> nat, i: int, j: int)
    requires Steps(states, passes, count) && BooksOk(states[0]) && At(states[|passes|].turns, i, j)
    ensures
      var last := states[|passes|];
      var x := Call(last.turns, i, j).tcIndex;
      Exact(last.credit, Call(last.turns, i, j)) <==> ExactAt(states[0], x) && !EverGrows(states, passes, x, count)
    decreases |passes|
  {
    hide Steps, BooksOk, PassStep, Grows, Exact, ExactAt, EverGrows;
    StepsLength(states, passes, count);
    TotalIsReports(states, passes, count);
    var last := states[|passes|];
    var x := Call(last.turns, i, j).tcIndex;
    if passes == [] {
      BooksOrdered(last);
      ExactHere(last, i, j);
      NeverInNothing(states, passes, x, count);
    } else {
      var n := |passes| - 1;
      var older, rest := states[..n + 1], passes[..n];
      StepsPrefix(states, passes, count);
      TotalIsReports(older, rest, count);
      StepExact(states[n], passes[n], last, count, i, j);
      StepGrowsLater(states, passes, x, count);
      if Has(states[n].turns, x) {
        var k, l :| At(states[n].turns, k, l) && Call(states[n].turns, k, l).tcIndex == x;
        CallExact(older, rest, count, k, l);
        BooksOrdered(states[n]);
        ExactHere(states[n], k, l);
      } else {
        NotYetGrown(older, rest, count, x);
        NotThere(states[n], x);
      }
    }
  }

  lemma NeverInNothing(states: seq<Books>, passes: seq<Pass>, x: nat, count: string -> nat)
    requires |states| == 1 && passes == []
    ensures !EverGrows(states, passes, x, count) && !EverSaves(states, passes, x, count)
  {
  }

  lemma BooksOrdered(b: Books)
    requires BooksOk(b)
    ensures Ordered(b.turns, b.counter)
  {
  }

  // ---------- Which calls have savings to their name ----------

  /** In this pass something was reported as saved on call `x`. */
  ghost predicate Saves(a: Books, p: Pass, x: nat, count: string -> nat) {
    exists i, j :: At(a.turns, i, j) && Call(a.turns, i, j).tcIndex == x
                   && match p
                      case Interception(updates, _) => InterceptorSaving(Call(a.turns, i, j), updates, count) > 0
                      case Compaction(targets, llm, _) => CompactorSaving(Call(a.turns, i, j), targets, llm, count) > 0
                      case _ => false
  }

  ghost predicate EverSaves(states: seq<Books>, passes: seq<Pass>, x: nat, count: string -> nat)
    requires |states| == |passes| + 1
  {
    exists k :: 0 <= k < |passes| && Saves(states[k], passes[k], x, count)
  }

  lemma SavesHere(a: Books, p: Pass, i: int, j: int, count: string -> nat)
    requires Ordered(a.turns, a.counter) && At(a.turns, i, j)
    ensures
      Saves(a, p, Call(a.turns, i, j).tcIndex, count)
      <==> match p
           case Interception(updates, _) => InterceptorSaving(Call(a.turns, i, j), updates, count) > 0
           case Compaction(targets, llm, _) => CompactorSaving(Call(a.turns, i, j), targets, llm, count) > 0
           case _ => false
  {
    hide InterceptorSaving, CompactorSaving, Ordered;
    var x := Call(a.turns, i, j).tcIndex;
    forall k, l | At(a.turns, k, l) && Call(a.turns, k, l).tcIndex == x
      ensures k == i && l == j
    {
      SameIndexSamePlace(a.turns, a.counter, i, j, k, l);
    }
  }

  lemma StepSaves(a: Books, p: Pass, b: Books, count: string -> nat, x: nat)
    requires BooksOk(a) && BooksOk(b) && PassStep(a, p, b, count) && Has(b.turns, x)
    ensures Credit(b.credit, x) == 0 <==> Credit(a.credit, x) == 0 && !Saves(a, p, x, count)
  {
    hide PassStep, Saves, Exact, BooksOk, Grows, InterceptorSaving, CompactorSaving;
    if p.Interception? || p.Compaction? {
      var i, j :| At(b.turns, i, j) && Call(b.turns, i, j).tcIndex == x;
      var k, l := PlaceBefore(a, p, b, count, i, j);
      CreditHere(a, p, b, count, k, l);
      BooksOrdered(a);
      SavesHere(a, p, k, l, count);
    } else {
      NothingSaved(a, p, b, count, x);
    }
  }

  lemma NothingSaved(a: Books, p: Pass, b: Books, count: string -> nat, x: nat)
    requires PassStep(a, p, b, count) && !p.Interception? && !p.Compaction?
    ensures b.credit == a.credit && !Saves(a, p, x, count)
  {
  }

  lemma CreditHere(a: Books, p: Pass, b: Books, count: string -> nat, k: int, l: int)
    requires PassStep(a, p, b, count) && At(a.turns, k, l)
    ensures
      var r := Call(a.turns, k, l);
      && (p.Interception? ==>
            Credit(b.credit, r.tcIndex) == Credit(a.credit, r.tcIndex) + InterceptorSaving(r, p.updates, count))
      && (p.Compaction? ==>
            Credit(b.credit, r.tcIndex) == Credit(a.credit, r.tcIndex) + CompactorSaving(r, p.targets, p.llm, count))
  {
    hide RecordsMapped, InterceptorSavings, CompactorSavings, SameCosts;
  }

  lemma StepSavesLater(states: seq<Books>, passes: seq<Pass>, x: nat, count: string -> nat)
    requires Steps(states, passes, count) && passes != []
    ensures
      var n := |passes| - 1;
      EverSaves(states, passes, x, count)
      <==> EverSaves(states[..n + 1], passes[..n], x, count) || Saves(states[n], passes[n], x, count)
  {
    hide Saves, PassStep;
    var n := |passes| - 1;
    var older, rest := states[..n + 1], passes[..n];
    assert forall k :: 0 <= k < n ==> older[k] == states[k] && rest[k] == passes[k];
    if k :| 0 <= k < |passes| && Saves(states[k], passes[k], x, count) {
      assert k < n ==> Saves(older[k], rest[k], x, count);
    }
    if k :| 0 <= k < n && Saves(older[k], rest[k], x, count) {
      assert Saves(states[k], passes[k], x, count);
    }
  }

  /** A recorded call has no savings to its name exactly when no pass ever reported any for it. */
  lemma {:induction false} NothingReportedFor(states: seq<Books>, passes: seq<Pass>, count: string -> nat, x: nat)
    requires Steps(states, passes, count) && BooksOk(states[0]) && Has(states[|passes|].turns, x)
    ensures Credit(states[|passes|].credit, x) == 0
            <==> Credit(states[0].credit, x) == 0 && !EverSaves(states, passes, x, count)
    decreases |passes|
  {
    hide *;
    StepsLength(states, passes, count);
    if passes == [] {
      NeverInNothing(states, passes, x, count);
    } else {
      var n := |passes| - 1;
      var older, rest := states[..n + 1], passes[..n];
      StepsPrefix(states, passes, count);
      TotalIsReports(older, rest, count);
      StepKeepsBooks(states[n], passes[n], states[n + 1], count);
      StepSaves(states[n], passes[n], states[n + 1], count, x);
      StepSavesLater(states, passes, x, count);
      if Has(states[n].turns, x) {
        NothingReportedFor(older, rest, count, x);
      } else {
        NewCall(states[n], passes[n], states[n + 1], count, x);
        NotYetGrown(older, rest, count, x);
        NoCredit(states[n], x);
        NoCredit(states[0], x);
      }
    }
  }

  /** A call that a pass brings has a number above the counter before. */
  lemma NewCall(a: Books, p: Pass, b: Books, count: string -> nat, x: nat)
    requires BooksOk(a) && BooksOk(b) && PassStep(a, p, b, count) && Has(b.turns, x) && !Has(a.turns, x)
    ensures x > a.counter
  {
    hide BooksOk, PassStep, ExactAt, Exact, Grows;
    var i, j :| At(b.turns, i, j) && Call(b.turns, i, j).tcIndex == x;
    StepExact(a, p, b, count, i, j);
  }

  lemma NoCredit(b: Books, x: nat)
    requires BooksOk(b) && x > b.counter
    ensures Credit(b.credit, x) == 0
  {
  }

  // ---------- What folding costs ----------

  ghost predicate NoughtOn(turns: seq<TurnRecord>, folded: set<nat>, f: ToolCallRecord -> int) {
    forall i, j :: At(turns, i, j) && turns[i].turnIndex in folded ==> f(Call(turns, i, j)) == 0
  }

  lemma NoughtOnLast(turns: seq<TurnRecord>, folded: set<nat>, f: ToolCallRecord -> int)
    requires turns != []
    ensures
      var n := |turns| - 1;
      NoughtOn(turns, folded, f)
      <==> NoughtOn(turns[..n], folded, f)
           && (turns[n].turnIndex in folded ==>
                 forall j :: 0 <= j < |turns[n].toolCalls| ==> f(turns[n].toolCalls[j]) == 0)
  {
    var n := |turns| - 1;
    var older := turns[..n];
    assert forall i, j :: At(older, i, j) ==> At(turns, i, j) && Call(turns, i, j) == Call(older, i, j);
    assert forall j :: 0 <= j < |turns[n].toolCalls| ==> At(turns, n, j) && Call(turns, n, j) == turns[n].toolCalls[j];
    assert forall i, j :: At(turns, i, j) && i < n ==> At(older, i, j);
  }

  /** Folding these turns away removes nothing from a sum exactly when it is nought on every call of theirs. */
  lemma {:induction false} NothingFolded(turns: seq<TurnRecord>, folded: set<nat>, f: ToolCallRecord -> int)
    requires forall r :: f(r) >= 0
    ensures SumTurns(Unfolded(turns, folded), f) <= SumTurns(turns, f)
    ensures SumTurns(turns, f) == SumTurns(Unfolded(turns, folded), f) <==> NoughtOn(turns, folded, f)
  {
    if turns != [] {
      var n := |turns| - 1;
      NothingFolded(turns[..n], folded, f);
      NoughtOnLast(turns, folded, f);
      SumCallsLe(turns[n].toolCalls, r => 0, f);
      SumCallsNought(turns[n].toolCalls);
      SumTurnsAppend(Unfolded(turns[..n], folded), turns[n], f);
      hide NoughtOn;
    }
  }

  lemma {:induction false} SumCallsNought(calls: seq<ToolCallRecord>)
    ensures SumCalls(calls, r => 0) == 0
  {
    if calls != [] {
      SumCallsNought(calls[..|calls| - 1]);
    }
  }

  lemma {:induction false} SumFoldedNought(states: seq<Books>, passes: seq<Pass>, count: string -> nat)
    requires Steps(states, passes, count) && BooksOk(states[0])
    ensures SumFolded(states, passes) >= 0
    ensures SumFolded(states, passes) == 0 <==> forall k :: 0 <= k < |passes| ==> FoldedCredit(states[k], passes[k]) == 0
    decreases |passes|
  {
    hide Steps, BooksOk, PassStep, FoldedCredit;
    StepsLength(states, passes, count);
    if passes != [] {
      var n := |passes| - 1;
      var older, rest := states[..n + 1], passes[..n];
      StepsPrefix(states, passes, count);
      SumFoldedNought(older, rest, count);
      TotalIsReports(older, rest, count);
      StepKeepsBooks(states[n], passes[n], states[n + 1], count);
      assert forall k :: 0 <= k < n ==> older[k] == states[k] && rest[k] == passes[k];
    }
  }

  /** Calls that pass `k` folds away had never been saved anything on. */
  ghost predicate FoldsUnsaved(states: seq<Books>, passes: seq<Pass>, k: nat, count: string -> nat)
    requires |states| == |passes| + 1 && k < |passes|
  {
    passes[k].Fold? ==>
      forall i, j :: At(states[k].turns, i, j) && states[k].turns[i].turnIndex in passes[k].folded ==>
        var x := Call(states[k].turns, i, j).tcIndex;
        Credit(states[0].credit, x) == 0 && !EverSaves(states[..k + 1], passes[..k], x, count)
  }

  ghost predicate FoldsOnlyUnsaved(states: seq<Books>, passes: seq<Pass>, count: string -> nat)
    requires |states| == |passes| + 1
  {
    forall k :: 0 <= k < |passes| ==> FoldsUnsaved(states, passes, k, count)
  }

  lemma StepsUpTo(states: seq<Books>, passes: seq<Pass>, count: string -> nat, k: nat)
    requires Steps(states, passes, count) && k <= |passes|
    ensures Steps(states[..k + 1], passes[..k], count)
  {
    hide PassStep;
  }

  lemma FoldCosts(states: seq<Books>, passes: seq<Pass>, count: string -> nat, k: nat)
    requires Steps(states, passes, count) && BooksOk(states[0]) && k < |passes|
    ensures FoldedCredit(states[k], passes[k]) == 0 <==> FoldsUnsaved(states, passes, k, count)
  {
    hide PassStep, BooksOk, EverSaves;
    if passes[k].Fold? {
      var older, rest := states[..k + 1], passes[..k];
      var a, f := states[k], CreditOf(states[k].credit);
      StepsUpTo(states, passes, count, k);
      NothingFolded(a.turns, passes[k].folded, f);
      assert older[0] == states[0] && older[k] == a;
      forall i, j | At(a.turns, i, j)
        ensures
          var x := Call(a.turns, i, j).tcIndex;
          f(Call(a.turns, i, j)) == 0 <==> Credit(states[0].credit, x) == 0 && !EverSaves(older, rest, x, count)
      {
        assert Has(a.turns, Call(a.turns, i, j).tcIndex);
        NothingReportedFor(older, rest, count, Call(a.turns, i, j).tcIndex);
      }
      hide Steps, SumTurns;
    }
  }

  /** No summary of a call still recorded was longer than what it replaced, and it was exact to begin with. */
  ghost predicate NothingGrew(states: seq<Books>, passes: seq<Pass>, count: string -> nat)
    requires |states| == |passes| + 1
  {
    forall i, j :: At(states[|passes|].turns, i, j) ==>
      var x := Call(states[|passes|].turns, i, j).tcIndex;
      ExactAt(states[0], x) && !EverGrows(states, passes, x, count)
  }

  /**
   Over any sequence of passes the total is at least the net reduction of the calls in the session, and equals it if
   and only if no summary was longer than what it replaced and nothing that had saved anything was folded away.
   */
  lemma TotalIsNetReduction(states: seq<Books>, passes: seq<Pass>, count: string -> nat)
    requires Steps(states, passes, count) && BooksOk(states[0])
    ensures
      var last := states[|passes|];
      && SumTurns(last.turns, Reduction) <= last.total
      && (last.total == SumTurns(last.turns, Reduction)
          <==> states[0].away == 0 && NothingGrew(states, passes, count) && FoldsOnlyUnsaved(states, passes, count))
  {
    var last := states[|passes|];
    TotalIsReports(states, passes, count);
    SumFoldedNought(states, passes, count);
    ReportedTotalCoversReduction(last.turns, last.total, last.credit, last.away);
    hide Steps, BooksOk, EverGrows, FoldsUnsaved, FoldedCredit, SumTurns, ExactAt, Reduction, Credit;
    forall k | 0 <= k < |passes|
      ensures FoldedCredit(states[k], passes[k]) == 0 <==> FoldsUnsaved(states, passes, k, count)
    {
      FoldCosts(states, passes, count, k);
    }
    forall i, j | At(last.turns, i, j)
      ensures
        var r := Call(last.turns, i, j);
        Credit(last.credit, r.tcIndex) == Reduction(r)
        <==> ExactAt(states[0], r.tcIndex) && !EverGrows(states, passes, r.tcIndex, count)
    {
      CallExact(states, passes, count, i, j);
    }
  }

  /** None of the calls that pass `k` folds away had ever been saved anything on, in a session opened by these passes. */
  ghost predicate NothingLost(states: seq<Books>, passes: seq<Pass>, k: nat, count: string -> nat)
    requires |states| == |passes| + 1 && k < |passes|
  {
    passes[k].Fold? ==>
      forall i, j :: At(states[k].turns, i, j) && states[k].turns[i].turnIndex in passes[k].folded ==>
        !EverSaves(states[..k + 1], passes[..k], Call(states[k].turns, i, j).tcIndex, count)
  }

  /** No pass of a session that these passes open folds away a call that something was saved on. */
  ghost predicate NoneLost(states: seq<Books>, passes: seq<Pass>, count: string -> nat)
    requires |states| == |passes| + 1
  {
    forall k :: 0 <= k < |passes| ==> NothingLost(states, passes, k, count)
  }

  /** No call still recorded was ever given a summary longer than what it replaced. */
  ghost predicate NoneGrew(states: seq<Books>, passes: seq<Pass>, count: string -> nat)
    requires |states| == |passes| + 1
  {
    forall i, j :: At(states[|passes|].turns, i, j) ==>
      !EverGrows(states, passes, Call(states[|passes|].turns, i, j).tcIndex, count)
  }

  lemma LostFromNothing(states: seq<Books>, passes: seq<Pass>, count: string -> nat)
    requires |states| == |passes| + 1 && states[0].credit == map[]
    ensures FoldsOnlyUnsaved(states, passes, count) <==> NoneLost(states, passes, count)
  {
    hide EverSaves;
    assert forall k :: 0 <= k < |passes| ==>
      (FoldsUnsaved(states, passes, k, count) <==> NothingLost(states, passes, k, count));
    hide FoldsUnsaved, NothingLost;
  }

  lemma GrewFromNothing(states: seq<Books>, passes: seq<Pass>, count: string -> nat)
    requires |states| == |passes| + 1 && states[0].turns == []
    ensures NothingGrew(states, passes, count) <==> NoneGrew(states, passes, count)
  {
    hide EverGrows, Exact;
  }

  /** The books of a session that was just opened. */
  ghost predicate NoBooks(b: Books) {
    b.turns == [] && b.counter == 0 && b.total == 0 && b.credit == map[] && b.away == 0
  }

  lemma EmptyBooks(b: Books)
    requires NoBooks(b)
    ensures BooksOk(b) && b.turns == [] && b.credit == map[] && b.total == 0 && b.away == 0
  {
    EmptyConsistent();
  }

  /** The same from an empty session, where nothing is inexact and nothing has gone yet. */
  lemma TotalFromNothing(states: seq<Books>, passes: seq<Pass>, count: string -> nat)
    requires Steps(states, passes, count) && NoBooks(states[0])
    ensures
      var last := states[|passes|];
      && last.total == SumReports(states, passes, count)
      && (last.total == SumTurns(last.turns, Reduction)
          <==> NoneGrew(states, passes, count) && NoneLost(states, passes, count))
  {
    assert |states| == |passes| + 1;
    hide *;
    EmptyBooks(states[0]);
    TotalIsReports(states, passes, count);
    TotalIsNetReduction(states, passes, count);
    GrewFromNothing(states, passes, count);
    LostFromNothing(states, passes, count);
  }
}
