/**
 The two writers of tool-call summaries: the interceptor that applies the model's `_context_updates`
 (nexus/tools/interceptor.py) and the fallback compactor (nexus/rcs/compactor.py).
 */
module Rcs {
  import opened Text
  import opened Sessions
  import opened AgentSessions

  /** One entry of the `_context_updates` argument; a missing or null field reads as "". */
  datatype RawUpdate = NotAMapping | Update(tcId: string, summary: string)

  datatype ContextUpdate = ContextUpdate(tcId: string, summary: string, tokensSaved: nat)

  predicate UsableSummary(summary: string) {
    summary != "" && summary != "[]"
  }

  predicate Usable(u: RawUpdate) {
    u.Update? && Strip(u.tcId) != "" && UsableSummary(Strip(u.summary))
  }

  /** The summaries that `updates` offers for one call, in order. */
  function SummariesFor(updates: seq<RawUpdate>, tcId: string): seq<string> {
    if updates == [] then []
    else
      var last := updates[|updates| - 1];
      SummariesFor(updates[..|updates| - 1], tcId)
      + if Usable(last) && Strip(last.tcId) == tcId then [Strip(last.summary)] else []
  }

  /** Savings reported for one call that goes from `charged` tokens through summaries of these lengths. */
  function MarginalSavings(charged: nat, lengths: seq<nat>): nat {
    if lengths == [] then 0
    else
      var before := lengths[..|lengths| - 1];
      MarginalSavings(charged, before) + Shrinkage(FinalLength(charged, before), lengths[|lengths| - 1])
  }

  function FinalLength(charged: nat, lengths: seq<nat>): nat {
    if lengths == [] then charged else lengths[|lengths| - 1]
  }

  predicate NeverGrows(charged: nat, lengths: seq<nat>) {
    forall k :: 0 <= k < |lengths| ==> lengths[k] <= FinalLength(charged, lengths[..k])
  }

  /** Re-summarizing never counts a saving twice: the reports add up to the net reduction, unless some step grew. */
  lemma {:induction false} MarginalSavingsExact(charged: nat, lengths: seq<nat>)
    ensures MarginalSavings(charged, lengths) >= charged - FinalLength(charged, lengths)
    ensures MarginalSavings(charged, lengths) == charged - FinalLength(charged, lengths) <==> NeverGrows(charged, lengths)
  {
    if lengths != [] {
      var n := |lengths| - 1;
      MarginalSavingsExact(charged, lengths[..n]);
      assert forall k :: 0 <= k <= n ==> lengths[..n][..k] == lengths[..k];
      assert forall k :: 0 <= k < n ==> lengths[..n][k] == lengths[k];
      assert NeverGrows(charged, lengths) <==>
             NeverGrows(charged, lengths[..n]) && lengths[n] <= FinalLength(charged, lengths[..n]);
    }
  }

  /** A summary that grows and shrinks back is reported again: the reports then exceed what the call costs less. */
  lemma GrowthIsCountedTwice(raw: nat, short: nat, long: nat)
    requires short < long <= raw
    ensures MarginalSavings(raw, [short, long, short]) == (raw - short) + (long - short) > raw - short
  {
    assert [short, long, short][..2] == [short, long] && [short, long][..1] == [short] && [short][..0] == [];
    assert MarginalSavings(raw, [short]) == raw - short;
    assert MarginalSavings(raw, [short, long]) == raw - short;
  }

  function Lengths(summaries: seq<string>, count: string -> nat): (r: seq<nat>)
    ensures |r| == |summaries|
  {
    seq(|summaries|, k requires 0 <= k < |summaries| => count(summaries[k]))
  }

  /** A record after `updates`: it carries the last usable summary that named it. */
  function Resummarized(
    r: ToolCallRecord, updates: seq<RawUpdate>, turnIndex: nat, count: string -> nat): ToolCallRecord
  {
    var offered := SummariesFor(updates, r.tcId);
    if offered == [] then r else Summarized(r, offered[|offered| - 1], turnIndex, count(offered[|offered| - 1]))
  }

  function SumReported(applied: seq<ContextUpdate>): nat {
    if applied == [] then 0 else SumReported(applied[..|applied| - 1]) + applied[|applied| - 1].tokensSaved
  }

  ghost predicate KnownCall(turns: seq<TurnRecord>, tcId: string) {
    exists i, j :: At(turns, i, j) && Call(turns, i, j).tcId == tcId
  }

  /** The updates the interceptor acts on: usable ones that name a call recorded in this session. */
  ghost function Applicable(updates: seq<RawUpdate>, turns: seq<TurnRecord>): seq<(string, string)> {
    if updates == [] then []
    else
      var last := updates[|updates| - 1];
      Applicable(updates[..|updates| - 1], turns)
      + if Usable(last) && KnownCall(turns, Strip(last.tcId)) then [(Strip(last.tcId), Strip(last.summary))] else []
  }

  ghost predicate Reports(applied: seq<ContextUpdate>, named: seq<(string, string)>) {
    && |applied| == |named|
    && forall k :: 0 <= k < |applied| ==> (applied[k].tcId, applied[k].summary) == named[k]
  }

  /** How far an interception of `updates` has come, from records `before` to records `now`. */
  ghost predicate Intercepted(
    before: seq<TurnRecord>, credit: map<nat, nat>, updates: seq<RawUpdate>, turnIndex: nat, count: string -> nat,
    now: seq<TurnRecord>, credit': map<nat, nat>)
  {
    && RecordsMapped(before, now, r => Resummarized(r, updates, turnIndex, count))
    && forall i, j :: At(before, i, j) ==>
         var r := Call(before, i, j);
         Credit(credit', r.tcIndex) == Credit(credit, r.tcIndex) + InterceptorSaving(r, updates, count)
  }

  lemma SummariesForAppend(updates: seq<RawUpdate>, u: RawUpdate, tcId: string, count: string -> nat, charged: nat)
    ensures var offered, all := SummariesFor(updates, tcId), SummariesFor(updates + [u], tcId);
            if Usable(u) && Strip(u.tcId) == tcId
            then && all == offered + [Strip(u.summary)]
                 && MarginalSavings(charged, Lengths(all, count))
                    == MarginalSavings(charged, Lengths(offered, count))
                       + Shrinkage(FinalLength(charged, Lengths(offered, count)), count(Strip(u.summary)))
            else all == offered
  {
    hide Strip;
    var all := updates + [u];
    assert all[..|all| - 1] == updates;
    var offered := SummariesFor(updates, tcId);
    if Usable(u) && Strip(u.tcId) == tcId {
      var longer := Lengths(offered + [Strip(u.summary)], count);
      assert longer[..|longer| - 1] == Lengths(offered, count);
    }
  }

  lemma ReportsAppend(
    applied: seq<ContextUpdate>, updates: seq<RawUpdate>, u: RawUpdate, turns: seq<TurnRecord>,
    report: Option<ContextUpdate>)
    requires Reports(applied, Applicable(updates, turns))
    requires report.Some? <==> Usable(u) && KnownCall(turns, Strip(u.tcId))
    requires report.Some? ==> report.value.tcId == Strip(u.tcId) && report.value.summary == Strip(u.summary)
    ensures var all := if report.Some? then applied + [report.value] else applied;
            && Reports(all, Applicable(updates + [u], turns))
            && SumReported(all) == SumReported(applied) + if report.Some? then report.value.tokensSaved else 0
  {
    hide Strip, KnownCall;
    assert (updates + [u])[..|updates|] == updates;
    if report.Some? {
      assert (applied + [report.value])[..|applied|] == applied;
    }
  }

  lemma InterceptNothing(before: seq<TurnRecord>, credit: map<nat, nat>, turnIndex: nat, count: string -> nat)
    ensures Reports([], Applicable([], before))
    ensures Intercepted(before, credit, [], turnIndex, count, before, credit)
  {
  }

  /** What one more update that is not for this call does to it: nothing. */
  lemma OtherUpdate(b: ToolCallRecord, updates: seq<RawUpdate>, u: RawUpdate, turnIndex: nat, count: string -> nat)
    requires Usable(u) ==> b.tcId != Strip(u.tcId)
    ensures Resummarized(b, updates + [u], turnIndex, count) == Resummarized(b, updates, turnIndex, count)
    ensures InterceptorSaving(b, updates + [u], count) == InterceptorSaving(b, updates, count)
  {
    hide Strip, SummariesFor, Lengths, MarginalSavings, Usable;
    SummariesForAppend(updates, u, b.tcId, count, Charged(b));
  }

  lemma MappedAlike(
    before: seq<TurnRecord>, now: seq<TurnRecord>, f: ToolCallRecord -> ToolCallRecord,
    g: ToolCallRecord -> ToolCallRecord)
    requires RecordsMapped(before, now, f)
    requires forall i, j :: At(before, i, j) ==> f(Call(before, i, j)) == g(Call(before, i, j))
    ensures RecordsMapped(before, now, g)
  {
    assert forall i, j :: 0 <= i < |before| && 0 <= j < |before[i].toolCalls| ==>
      At(before, i, j) && Call(before, i, j) == before[i].toolCalls[j];
  }

  lemma InterceptSkip(
    before: seq<TurnRecord>, credit: map<nat, nat>, updates: seq<RawUpdate>, u: RawUpdate, turnIndex: nat,
    count: string -> nat, now: seq<TurnRecord>, credit': map<nat, nat>)
    requires Intercepted(before, credit, updates, turnIndex, count, now, credit')
    requires Usable(u) ==> !KnownCall(before, Strip(u.tcId))
    ensures Intercepted(before, credit, updates + [u], turnIndex, count, now, credit')
  {
    hide Strip, Usable, Resummarized, InterceptorSaving, RecordsMapped;
    var f := (r: ToolCallRecord) => Resummarized(r, updates, turnIndex, count);
    var g := (r: ToolCallRecord) => Resummarized(r, updates + [u], turnIndex, count);
    forall i, j | At(before, i, j)
      ensures f(Call(before, i, j)) == g(Call(before, i, j))
      ensures InterceptorSaving(Call(before, i, j), updates + [u], count)
              == InterceptorSaving(Call(before, i, j), updates, count)
    {
      OtherUpdate(Call(before, i, j), updates, u, turnIndex, count);
    }
    MappedAlike(before, now, f, g);
  }

  /** What one more usable update does to one call's record and savings. */
  lemma OneMoreUpdate(b: ToolCallRecord, updates: seq<RawUpdate>, u: RawUpdate, turnIndex: nat, count: string -> nat)
    requires Usable(u)
    ensures
      var all, n, s := updates + [u], Resummarized(b, updates, turnIndex, count), Strip(u.summary);
      if b.tcId == Strip(u.tcId)
      then && Resummarized(b, all, turnIndex, count) == Summarized(n, s, turnIndex, count(s))
           && InterceptorSaving(b, all, count) == InterceptorSaving(b, updates, count) + Shrinkage(Charged(n), count(s))
      else && Resummarized(b, all, turnIndex, count) == n
           && InterceptorSaving(b, all, count) == InterceptorSaving(b, updates, count)
  {
    hide Strip, SummariesFor, Lengths, MarginalSavings, Usable;
    SummariesForAppend(updates, u, b.tcId, count, Charged(b));
    ChargedAfter(b, updates, turnIndex, count);
  }

  lemma InterceptApplyRecords(
    before: seq<TurnRecord>, counter: nat, updates: seq<RawUpdate>, u: RawUpdate, turnIndex: nat, count: string -> nat,
    now: seq<TurnRecord>, i: nat, j: nat)
    requires Ordered(before, counter) && Usable(u)
    requires RecordsMapped(before, now, r => Resummarized(r, updates, turnIndex, count))
    requires At(now, i, j) && Call(now, i, j).tcId == Strip(u.tcId)
    ensures At(before, i, j) && Call(now, i, j) == Resummarized(Call(before, i, j), updates, turnIndex, count)
    ensures Call(before, i, j).tcId == Strip(u.tcId)
    ensures forall k, l :: At(before, k, l) && !(k == i && l == j) ==>
              Call(before, k, l).tcId != Strip(u.tcId) && Call(before, k, l).tcIndex != Call(now, i, j).tcIndex
    ensures var s := Strip(u.summary);
            RecordsMapped(before, Replace(now, i, j, Summarized(Call(now, i, j), s, turnIndex, count(s))),
                          r => Resummarized(r, updates + [u], turnIndex, count))
  {
    hide Strip, Ordered, Resummarized;
    var r, s := Call(now, i, j), Strip(u.summary);
    var after := Replace(now, i, j, Summarized(r, s, turnIndex, count(s)));
    assert At(before, i, j) && r == Resummarized(Call(before, i, j), updates, turnIndex, count);
    ResummarizedKeepsId(Call(before, i, j), updates, turnIndex, count);
    forall k, l | At(before, k, l)
      ensures !(k == i && l == j) ==> Call(before, k, l).tcId != Strip(u.tcId) && Call(before, k, l).tcIndex != r.tcIndex
      ensures after[k].toolCalls[l] == Resummarized(before[k].toolCalls[l], updates + [u], turnIndex, count)
    {
      OneMoreUpdate(Call(before, k, l), updates, u, turnIndex, count);
      assert now[k].toolCalls[l] == Resummarized(before[k].toolCalls[l], updates, turnIndex, count);
      if !(k == i && l == j) {
        OtherPlace(before, counter, i, j, k, l);
      }
    }
    assert forall k, l :: 0 <= k < |before| && 0 <= l < |before[k].toolCalls| ==> At(before, k, l);
  }

  lemma OtherPlace(turns: seq<TurnRecord>, counter: nat, i: nat, j: nat, k: int, l: int)
    requires Ordered(turns, counter) && At(turns, i, j) && At(turns, k, l) && !(k == i && l == j)
    ensures Call(turns, k, l).tcIndex != Call(turns, i, j).tcIndex && Call(turns, k, l).tcId != Call(turns, i, j).tcId
  {
    hide Ordered;
    if Call(turns, k, l).tcIndex == Call(turns, i, j).tcIndex {
      SameIndexSamePlace(turns, counter, i, j, k, l);
    }
    if Call(turns, k, l).tcId == Call(turns, i, j).tcId {
      IdsAreUnique(turns, counter, i, j, k, l);
    }
  }

  lemma InterceptApply(
    before: seq<TurnRecord>, counter: nat, credit: map<nat, nat>, updates: seq<RawUpdate>, u: RawUpdate,
    turnIndex: nat, count: string -> nat, now: seq<TurnRecord>, credit': map<nat, nat>, i: nat, j: nat)
    requires Ordered(before, counter) && Usable(u)
    requires Intercepted(before, credit, updates, turnIndex, count, now, credit')
    requires At(now, i, j) && Call(now, i, j).tcId == Strip(u.tcId)
    ensures var r := Call(now, i, j);
            var s := Strip(u.summary);
            Intercepted(before, credit, updates + [u], turnIndex, count,
                        Replace(now, i, j, Summarized(r, s, turnIndex, count(s))),
                        credit'[r.tcIndex := Credit(credit', r.tcIndex) + Shrinkage(Charged(r), count(s))])
  {
    hide Strip, Ordered, Resummarized, InterceptorSaving, RecordsMapped, Replace, Shrinkage;
    InterceptApplyRecords(before, counter, updates, u, turnIndex, count, now, i, j);
    ResummarizedKeepsId(Call(before, i, j), updates, turnIndex, count);
    forall k, l | At(before, k, l)
      ensures
        var b, n := Call(before, k, l), Call(now, i, j);
        InterceptorSaving(b, updates + [u], count)
        == InterceptorSaving(b, updates, count)
           + if k == i && l == j then Shrinkage(Charged(n), count(Strip(u.summary))) else 0
    {
      OneMoreUpdate(Call(before, k, l), updates, u, turnIndex, count);
    }
  }

  lemma ChargedAfter(r: ToolCallRecord, updates: seq<RawUpdate>, turnIndex: nat, count: string -> nat)
    ensures Charged(Resummarized(r, updates, turnIndex, count))
            == FinalLength(Charged(r), Lengths(SummariesFor(updates, r.tcId), count))
  {
    hide SummariesFor;
  }

  lemma {:induction false} SummariesForConcat(u: seq<RawUpdate>, v: seq<RawUpdate>, tcId: string)
    ensures SummariesFor(u + v, tcId) == SummariesFor(u, tcId) + SummariesFor(v, tcId)
    decreases |v|
  {
    hide Strip, Usable;
    if v == [] {
      assert u + v == u;
    } else {
      var n := |v| - 1;
      assert (u + v)[..|u + v| - 1] == u + v[..n];
      SummariesForConcat(u, v[..n], tcId);
    }
  }

  lemma {:induction false} MarginalConcat(charged: nat, x: seq<nat>, y: seq<nat>)
    ensures FinalLength(charged, x + y) == FinalLength(FinalLength(charged, x), y)
    ensures MarginalSavings(charged, x + y) == MarginalSavings(charged, x) + MarginalSavings(FinalLength(charged, x), y)
    decreases |y|
  {
    if y == [] {
      assert x + y == x;
    } else {
      var n := |y| - 1;
      assert (x + y)[..|x + y| - 1] == x + y[..n];
      MarginalConcat(charged, x, y[..n]);
    }
  }

  lemma LengthsConcat(x: seq<string>, y: seq<string>, count: string -> nat)
    ensures Lengths(x + y, count) == Lengths(x, count) + Lengths(y, count)
  {
  }

  lemma ResummarizedConcat(
    r: ToolCallRecord, u: seq<RawUpdate>, v: seq<RawUpdate>, turnIndex: nat, count: string -> nat)
    ensures Resummarized(Resummarized(r, u, turnIndex, count), v, turnIndex, count)
            == Resummarized(r, u + v, turnIndex, count)
  {
    hide SummariesFor;
    SummariesForConcat(u, v, r.tcId);
  }

  lemma SavingsConcat(
    r: ToolCallRecord, u: seq<RawUpdate>, v: seq<RawUpdate>, turnIndex: nat, count: string -> nat)
    ensures
      MarginalSavings(Charged(r), Lengths(SummariesFor(u + v, r.tcId), count))
      == MarginalSavings(Charged(r), Lengths(SummariesFor(u, r.tcId), count))
         + MarginalSavings(Charged(Resummarized(r, u, turnIndex, count)), Lengths(SummariesFor(v, r.tcId), count))
  {
    hide *;
    var x, y := SummariesFor(u, r.tcId), SummariesFor(v, r.tcId);
    SummariesForConcat(u, v, r.tcId);
    ChargedAfter(r, u, turnIndex, count);
    LengthsConcat(x, y, count);
    MarginalConcat(Charged(r), Lengths(x, count), Lengths(y, count));
  }

  lemma MappedCompose(
    a: seq<TurnRecord>, b: seq<TurnRecord>, c: seq<TurnRecord>, f: ToolCallRecord -> ToolCallRecord,
    g: ToolCallRecord -> ToolCallRecord, h: ToolCallRecord -> ToolCallRecord)
    requires RecordsMapped(a, b, f) && RecordsMapped(b, c, g) && forall r :: g(f(r)) == h(r)
    ensures RecordsMapped(a, c, h)
  {
    forall i, j | 0 <= i < |a| && 0 <= j < |a[i].toolCalls| ensures c[i].toolCalls[j] == h(a[i].toolCalls[j]) {
      assert b[i].toolCalls[j] == f(a[i].toolCalls[j]);
    }
  }

  /** One interception after another is the interception of all the updates. */
  lemma InterceptedCompose(
    a: seq<TurnRecord>, ca: map<nat, nat>, u: seq<RawUpdate>, b: seq<TurnRecord>, cb: map<nat, nat>,
    v: seq<RawUpdate>, c: seq<TurnRecord>, cc: map<nat, nat>, turnIndex: nat, count: string -> nat)
    requires Intercepted(a, ca, u, turnIndex, count, b, cb) && Intercepted(b, cb, v, turnIndex, count, c, cc)
    ensures Intercepted(a, ca, u + v, turnIndex, count, c, cc)
  {
    hide Resummarized, SummariesFor, MarginalSavings, Lengths, Charged, Credit;
    var f := (r: ToolCallRecord) => Resummarized(r, u, turnIndex, count);
    var g := (r: ToolCallRecord) => Resummarized(r, v, turnIndex, count);
    var h := (r: ToolCallRecord) => Resummarized(r, u + v, turnIndex, count);
    forall r ensures g(f(r)) == h(r) {
      ResummarizedConcat(r, u, v, turnIndex, count);
    }
    MappedCompose(a, b, c, f, g, h);
    forall i, j | At(a, i, j)
      ensures
        var r := Call(a, i, j);
        Credit(cc, r.tcIndex)
        == Credit(ca, r.tcIndex) + MarginalSavings(Charged(r), Lengths(SummariesFor(u + v, r.tcId), count))
    {
      var r := Call(a, i, j);
      assert At(b, i, j) && Call(b, i, j) == f(r);
      ResummarizedKeepsId(r, u, turnIndex, count);
      SavingsConcat(r, u, v, turnIndex, count);
    }
  }

  lemma ResummarizedKeepsId(r: ToolCallRecord, u: seq<RawUpdate>, turnIndex: nat, count: string -> nat)
    ensures Resummarized(r, u, turnIndex, count).tcId == r.tcId && Resummarized(r, u, turnIndex, count).tcIndex == r.tcIndex
  {
  }

  // ---------- What a pass of the interceptor saves ----------

  /** What the updates save on one call. */
  function InterceptorSaving(r: ToolCallRecord, updates: seq<RawUpdate>, count: string -> nat): nat {
    MarginalSavings(Charged(r), Lengths(SummariesFor(updates, r.tcId), count))
  }

  function InterceptorSavings(turns: seq<TurnRecord>, updates: seq<RawUpdate>, count: string -> nat): int {
    SumTurns(turns, r => InterceptorSaving(r, updates, count))
  }

  predicate NeverShrinks(charged: nat, lengths: seq<nat>) {
    forall k :: 0 <= k < |lengths| ==> lengths[k] >= FinalLength(charged, lengths[..k])
  }

  lemma {:induction false} NothingShrinks(charged: nat, lengths: seq<nat>)
    ensures MarginalSavings(charged, lengths) == 0 <==> NeverShrinks(charged, lengths)
  {
    if lengths != [] {
      var n := |lengths| - 1;
      NothingShrinks(charged, lengths[..n]);
      assert forall k :: 0 <= k <= n ==> lengths[..n][..k] == lengths[..k];
      assert forall k :: 0 <= k < n ==> lengths[..n][k] == lengths[k];
      assert NeverShrinks(charged, lengths) <==>
             NeverShrinks(charged, lengths[..n]) && lengths[n] >= FinalLength(charged, lengths[..n]);
    }
  }

  /** No summary that the updates offer for a recorded call is shorter than what it would replace. */
  ghost predicate UpdatesShortenNone(turns: seq<TurnRecord>, updates: seq<RawUpdate>, count: string -> nat) {
    forall i, j :: At(turns, i, j) ==>
      var r := Call(turns, i, j);
      NeverShrinks(Charged(r), Lengths(SummariesFor(updates, r.tcId), count))
  }

  lemma InterceptorSavesNothing(turns: seq<TurnRecord>, updates: seq<RawUpdate>, count: string -> nat)
    ensures InterceptorSavings(turns, updates, count) == 0 <==> UpdatesShortenNone(turns, updates, count)
  {
    hide NeverShrinks, SummariesFor, Lengths, MarginalSavings, Charged, SumTurns;
    var saving := (r: ToolCallRecord) => InterceptorSaving(r, updates, count);
    SumTurnsNought(turns, saving);
    forall i, j | At(turns, i, j)
      ensures
        var r := Call(turns, i, j);
        saving(r) == 0 <==> NeverShrinks(Charged(r), Lengths(SummariesFor(updates, r.tcId), count))
    {
      var r := Call(turns, i, j);
      NothingShrinks(Charged(r), Lengths(SummariesFor(updates, r.tcId), count));
    }
    SumTurnsSame(turns, saving, turns, r => InterceptorSaving(r, updates, count));
  }

  lemma InterceptedFair(
    r: ToolCallRecord, credit: map<nat, nat>, credit': map<nat, nat>, updates: seq<RawUpdate>, turnIndex: nat,
    count: string -> nat)
    requires RecordFair(credit, r)
    requires Credit(credit', r.tcIndex) == Credit(credit, r.tcIndex) + InterceptorSaving(r, updates, count)
    ensures RecordFair(credit', Resummarized(r, updates, turnIndex, count))
  {
    ChargedAfter(r, updates, turnIndex, count);
    MarginalSavingsExact(Charged(r), Lengths(SummariesFor(updates, r.tcId), count));
    hide MarginalSavings, FinalLength, SummariesFor, NeverGrows;
  }

  /** A pass adds to the total exactly what its updates save, call by call. */
  lemma InterceptedKeepsLedger(
    before: seq<TurnRecord>, total: nat, credit: map<nat, nat>, away: nat, updates: seq<RawUpdate>, turnIndex: nat,
    count: string -> nat, now: seq<TurnRecord>, credit': map<nat, nat>)
    requires LedgerOk(before, total, credit, away)
    requires Intercepted(before, credit, updates, turnIndex, count, now, credit')
    ensures InterceptorSavings(before, updates, count) >= 0
    ensures LedgerOk(now, total + InterceptorSavings(before, updates, count), credit', away)
  {
    hide Resummarized, MarginalSavings, SummariesFor, Lengths, Charged, Reduction;
    var upd := (r: ToolCallRecord) => Resummarized(r, updates, turnIndex, count);
    var gain := (r: ToolCallRecord) => InterceptorSaving(r, updates, count);
    forall i, j | At(before, i, j)
      ensures
        var r := Call(before, i, j);
        && upd(r).tcIndex == r.tcIndex
        && Credit(credit', r.tcIndex) == Credit(credit, r.tcIndex) + gain(r)
        && RecordFair(credit', upd(r))
    {
      var r := Call(before, i, j);
      ResummarizedKeepsId(r, updates, turnIndex, count);
      InterceptedFair(r, credit, credit', updates, turnIndex, count);
    }
    MappedKeepsLedger(before, total, credit, away, upd, gain, now, credit');
    SumTurnsSame(before, gain, before, r => InterceptorSaving(r, updates, count));
  }

  lemma InterceptedTotal(
    before: seq<TurnRecord>, total: nat, credit: map<nat, nat>, away: nat, updates: seq<RawUpdate>, turnIndex: nat,
    count: string -> nat, now: seq<TurnRecord>, credit': map<nat, nat>, total': nat)
    requires LedgerOk(before, total, credit, away) && LedgerOk(now, total', credit', away)
    requires Intercepted(before, credit, updates, turnIndex, count, now, credit')
    ensures total' == total + InterceptorSavings(before, updates, count)
  {
    hide Intercepted, InterceptorSavings;
    InterceptedKeepsLedger(before, total, credit, away, updates, turnIndex, count, now, credit');
  }

  // ---------- What the two writers leave in a record ----------

  /** The record carries this summary, who wrote it and its length, and is otherwise as it was. */
  ghost predicate CarriesSummary(
    after: ToolCallRecord, r: ToolCallRecord, summary: string, turnIndex: nat, tokens: nat)
  {
    && after.summarizedResponse == Some(summary) && after.summarizedByTurn == Some(turnIndex)
    && after.tokensSummarized == Some(tokens)
    && after.tcId == r.tcId && after.tcIndex == r.tcIndex && after.toolName == r.toolName && after.callId == r.callId
    && after.rawResponse == r.rawResponse && after.tokensRaw == r.tokensRaw
  }

  ghost predicate UsableText(s: string) {
    s != "" && s != "[]"
  }

  /** Trimmed at both ends, the update names this call and gives it this summary. */
  ghost predicate Offers(u: RawUpdate, tcId: string, s: string) {
    u.Update? && IsStripped(u.tcId, tcId) && tcId != "" && IsStripped(u.summary, s) && UsableText(s)
  }

  ghost predicate LastOffer(updates: seq<RawUpdate>, tcId: string, k: int, s: string) {
    && 0 <= k < |updates| && Offers(updates[k], tcId, s)
    && forall l, t :: k < l < |updates| ==> !Offers(updates[l], tcId, t)
  }

  ghost predicate NoOffer(updates: seq<RawUpdate>, tcId: string) {
    forall k, s :: 0 <= k < |updates| ==> !Offers(updates[k], tcId, s)
  }

  /** The last usable summary on offer for a call is written to it; without one it is left alone. */
  ghost predicate IsResummarized(
    after: ToolCallRecord, r: ToolCallRecord, updates: seq<RawUpdate>, turnIndex: nat, count: string -> nat)
  {
    && (forall k, s :: LastOffer(updates, r.tcId, k, s) ==> CarriesSummary(after, r, s, turnIndex, count(s)))
    && (NoOffer(updates, r.tcId) ==> after == r)
  }

  lemma OffersMeans(u: RawUpdate, tcId: string)
    ensures Usable(u) ==> u.Update?
    ensures forall s :: Offers(u, tcId, s) <==> u.Update? && Usable(u) && Strip(u.tcId) == tcId && s == Strip(u.summary)
  {
    if u.Update? {
      StripMeans(u.tcId);
      StripMeans(u.summary);
      hide Strip, IsStripped;
    }
  }

  lemma {:induction false} ResummarizedMeans(
    r: ToolCallRecord, updates: seq<RawUpdate>, turnIndex: nat, count: string -> nat)
    ensures IsResummarized(Resummarized(r, updates, turnIndex, count), r, updates, turnIndex, count)
  {
    hide Offers, Usable, Strip, CarriesSummary;
    if updates != [] {
      var n := |updates| - 1;
      var front, last := updates[..n], updates[n];
      assert updates == front + [last];
      OffersMeans(last, r.tcId);
      ResummarizedLast(r, front, last, turnIndex, count);
      hide Resummarized;
      if last.Update? && Usable(last) && Strip(last.tcId) == r.tcId {
        SummarizedCarries(r, Strip(last.summary), turnIndex, count(Strip(last.summary)));
        OfferedLast(r.tcId, front, last, Strip(last.summary));
      } else {
        ResummarizedMeans(r, front, turnIndex, count);
        OfferedBefore(r.tcId, front, last);
      }
      hide LastOffer, NoOffer;
    }
  }

  lemma ResummarizedLast(
    r: ToolCallRecord, front: seq<RawUpdate>, last: RawUpdate, turnIndex: nat, count: string -> nat)
    ensures Resummarized(r, front + [last], turnIndex, count)
            == if last.Update? && Usable(last) && Strip(last.tcId) == r.tcId
               then Summarized(r, Strip(last.summary), turnIndex, count(Strip(last.summary)))
               else Resummarized(r, front, turnIndex, count)
  {
    hide Strip;
    SummariesForAppend(front, last, r.tcId, count, 0);
  }

  lemma SummarizedCarries(r: ToolCallRecord, s: string, turnIndex: nat, tokens: nat)
    ensures CarriesSummary(Summarized(r, s, turnIndex, tokens), r, s, turnIndex, tokens)
  {
  }

  lemma OfferedLast(tcId: string, front: seq<RawUpdate>, last: RawUpdate, s: string)
    requires forall t :: Offers(last, tcId, t) <==> t == s
    ensures !NoOffer(front + [last], tcId)
    ensures forall k, t :: LastOffer(front + [last], tcId, k, t) ==> k == |front| && t == s
  {
    hide Offers;
    assert Offers((front + [last])[|front|], tcId, s);
  }

  lemma OfferedBefore(tcId: string, front: seq<RawUpdate>, last: RawUpdate)
    requires forall t :: !Offers(last, tcId, t)
    ensures forall k, t :: LastOffer(front + [last], tcId, k, t) ==> LastOffer(front, tcId, k, t)
    ensures NoOffer(front + [last], tcId) ==> NoOffer(front, tcId)
  {
    hide Offers;
    assert forall k :: 0 <= k < |front| ==> (front + [last])[k] == front[k];
  }

  /** What is reported as applied are the offers for calls of the session. */
  lemma {:induction false} ApplicableMeans(updates: seq<RawUpdate>, turns: seq<TurnRecord>, tcId: string, s: string)
    ensures (tcId, s) in Applicable(updates, turns)
            <==> KnownCall(turns, tcId) && exists k :: 0 <= k < |updates| && Offers(updates[k], tcId, s)
  {
    hide Offers, Usable, Strip, KnownCall;
    if updates != [] {
      var n := |updates| - 1;
      var front, last := updates[..n], updates[n];
      ApplicableMeans(front, turns, tcId, s);
      OffersMeans(last, tcId);
      var own := if last.Update? && Usable(last) && KnownCall(turns, Strip(last.tcId))
        then [(Strip(last.tcId), Strip(last.summary))] else [];
      assert Applicable(updates, turns) == Applicable(front, turns) + own;
      assert (tcId, s) in own <==> KnownCall(turns, tcId) && Offers(last, tcId, s);
      hide Applicable;
      assert forall k :: 0 <= k < n ==> front[k] == updates[k];
    }
  }

  /** A target gets the usable summary that the LLM gives for it; every other call is left alone. */
  ghost predicate IsCompacted(
    after: ToolCallRecord, r: ToolCallRecord, targets: seq<ToolCallRecord>, llm: nat -> Option<string>,
    turnIndex: nat, count: string -> nat)
  {
    && (forall s :: r in targets && llm(r.tcIndex).Some? && IsStripped(llm(r.tcIndex).value, s) && UsableText(s) ==>
          CarriesSummary(after, r, s, turnIndex, count(s)))
    && (forall s :: llm(r.tcIndex).Some? && IsStripped(llm(r.tcIndex).value, s) && !UsableText(s) ==> after == r)
    && (r !in targets || llm(r.tcIndex).None? ==> after == r)
  }

  lemma CompactedMeans(
    r: ToolCallRecord, targets: seq<ToolCallRecord>, llm: nat -> Option<string>, turnIndex: nat, count: string -> nat)
    ensures IsCompacted(Compacted(r, targets, llm, turnIndex, count), r, targets, llm, turnIndex, count)
  {
    hide Strip, IsStripped, CarriesSummary;
    if llm(r.tcIndex).Some? {
      var s := Strip(llm(r.tcIndex).value);
      StripMeans(llm(r.tcIndex).value);
      SummarizedCarries(r, s, turnIndex, count(s));
    }
    hide Summarized;
  }

  ghost predicate AllResummarized(
    before: seq<TurnRecord>, now: seq<TurnRecord>, updates: seq<RawUpdate>, turnIndex: nat, count: string -> nat)
  {
    forall i, j :: At(before, i, j) ==>
      At(now, i, j) && IsResummarized(Call(now, i, j), Call(before, i, j), updates, turnIndex, count)
  }

  ghost predicate AllCompacted(
    before: seq<TurnRecord>, now: seq<TurnRecord>, targets: seq<ToolCallRecord>, llm: nat -> Option<string>,
    turnIndex: nat, count: string -> nat)
  {
    forall i, j :: At(before, i, j) ==>
      At(now, i, j) && IsCompacted(Call(now, i, j), Call(before, i, j), targets, llm, turnIndex, count)
  }

  lemma InterceptedMeans(
    before: seq<TurnRecord>, credit: map<nat, nat>, updates: seq<RawUpdate>, turnIndex: nat, count: string -> nat,
    now: seq<TurnRecord>, credit': map<nat, nat>)
    requires Intercepted(before, credit, updates, turnIndex, count, now, credit')
    ensures AllResummarized(before, now, updates, turnIndex, count)
  {
    hide Resummarized, IsResummarized, InterceptorSaving;
    forall i, j | At(before, i, j)
      ensures At(now, i, j) && IsResummarized(Call(now, i, j), Call(before, i, j), updates, turnIndex, count)
    {
      ResummarizedMeans(Call(before, i, j), updates, turnIndex, count);
    }
  }

  lemma CompactedAllMeans(
    before: seq<TurnRecord>, credit: map<nat, nat>, targets: seq<ToolCallRecord>, llm: nat -> Option<string>,
    turnIndex: nat, count: string -> nat, now: seq<TurnRecord>, credit': map<nat, nat>)
    requires CompactedTo(before, credit, targets, llm, turnIndex, count, now, credit')
    ensures AllCompacted(before, now, targets, llm, turnIndex, count)
  {
    hide Compacted, IsCompacted, CompactorSummary;
    forall i, j | At(before, i, j)
      ensures At(now, i, j) && IsCompacted(Call(now, i, j), Call(before, i, j), targets, llm, turnIndex, count)
    {
      CompactedMeans(Call(before, i, j), targets, llm, turnIndex, count);
    }
  }

  /** The `n` oldest calls without a summary: no more than `n`, all of them if there are fewer, none newer than one left. */
  ghost predicate AreOldest(targets: seq<ToolCallRecord>, turns: seq<TurnRecord>, n: nat) {
    && |targets| <= n
    && (forall c, d :: 0 <= c < d < |targets| ==> targets[c].tcIndex < targets[d].tcIndex)
    && (forall r :: r in targets ==> r.summarizedResponse.None? && Recorded(turns, r))
    && forall r :: Recorded(turns, r) && r.summarizedResponse.None? && r !in targets ==>
         |targets| == n && forall t :: t in targets ==> t.tcIndex < r.tcIndex
  }

  lemma TargetsAreOldest(turns: seq<TurnRecord>, counter: nat, n: nat)
    requires Ordered(turns, counter)
    ensures AreOldest(CompactorTargets(turns, n), turns, n)
  {
    UnsummarizedSorted(turns, counter);
    hide Ordered, Recorded, Unsummarized;
    OldestOf(Unsummarized(turns), CompactorTargets(turns, n), n);
  }

  lemma OldestOf(all: seq<ToolCallRecord>, targets: seq<ToolCallRecord>, n: nat)
    requires IndicesIncrease(all) && targets == if n < |all| then all[..n] else all
    ensures |targets| <= n && IndicesIncrease(targets)
    ensures forall r :: r in targets ==> r in all
    ensures forall r, t :: r in all && r !in targets && t in targets ==> |targets| == n && t.tcIndex < r.tcIndex
    ensures forall r :: r in all && r !in targets ==> |targets| == n
  {
    assert forall c :: 0 <= c < |targets| ==> all[c] == targets[c] && targets[c] in targets;
    forall r, t | r in all && r !in targets && t in targets
      ensures t.tcIndex < r.tcIndex
    {
      var c :| 0 <= c < |all| && all[c] == r;
      var d :| 0 <= d < |targets| && targets[d] == t;
      assert d < |targets| <= c;
    }
  }

  class ContextUpdateInterceptor {
    constructor () {}

    /**
     Applies the `_context_updates` of one tool call. Entries that are not mappings, name no call of this session or
     carry no usable summary are skipped; each applied one reports its marginal saving.
     */
    method Intercept(
      session: AgentSession, enabled: bool, updates: seq<RawUpdate>, turnIndex: nat, count: string -> nat)
      returns (applied: seq<ContextUpdate>)
      requires session.Valid()
      modifies session`turns, session`totalTokensSaved, session`credit, session`unattributed
      ensures session.Valid()
      ensures var acted := if enabled then updates else [];
              && Reports(applied, Applicable(acted, old(session.turns)))
              && Intercepted(old(session.turns), old(session.credit), acted, turnIndex, count,
                             session.turns, session.credit)
      ensures session.totalTokensSaved == old(session.totalTokensSaved) + SumReported(applied)
      ensures session.unattributed == old(session.unattributed) + SumReported(applied)
      ensures SumReported(applied)
              == InterceptorSavings(old(session.turns), if enabled then updates else [], count)
      ensures AllResummarized(old(session.turns), session.turns, if enabled then updates else [], turnIndex, count)
    {
      ghost var turns, total, credit := session.turns, session.totalTokensSaved, session.credit;
      assert LedgerOk(turns, total, credit, session.away);
      InterceptNothing(turns, credit, turnIndex, count);
      hide Intercepted, Reports, Applicable, LedgerOk, InterceptorSavings, Ordered;
      if !enabled {
        applied := [];
      } else {
        applied := InterceptAll(session, updates, turnIndex, count);
      }
      assert LedgerOk(session.turns, session.totalTokensSaved, session.credit, session.away);
      hide Consistent;
      hide AllResummarized;
      InterceptedMeans(turns, credit, if enabled then updates else [], turnIndex, count, session.turns, session.credit);
      InterceptedTotal(turns, total, credit, session.away, if enabled then updates else [], turnIndex, count,
                       session.turns, session.credit, session.totalTokensSaved);
    }

    method InterceptAll(session: AgentSession, updates: seq<RawUpdate>, turnIndex: nat, count: string -> nat)
      returns (applied: seq<ContextUpdate>)
      requires session.Valid()
      modifies session`turns, session`totalTokensSaved, session`credit, session`unattributed
      ensures session.Valid()
      ensures Reports(applied, Applicable(updates, old(session.turns)))
      ensures Intercepted(old(session.turns), old(session.credit), updates, turnIndex, count,
                          session.turns, session.credit)
      ensures session.totalTokensSaved == old(session.totalTokensSaved) + SumReported(applied)
      ensures session.unattributed == old(session.unattributed) + SumReported(applied)
    {
      ghost var before, credit := session.turns, session.credit;
      assert Ordered(before, session.recorded);
      InterceptNothing(before, credit, turnIndex, count);
      hide Consistent, Intercepted, Usable, KnownCall, Ordered, Reports, Applicable;
      applied := [];
      for k := 0 to |updates|
        invariant session.Valid() && session.recorded == old(session.recorded)
        invariant Reports(applied, Applicable(updates[..k], before))
        invariant Intercepted(before, credit, updates[..k], turnIndex, count, session.turns, session.credit)
        invariant session.totalTokensSaved == old(session.totalTokensSaved) + SumReported(applied)
        invariant session.unattributed == old(session.unattributed) + SumReported(applied)
      {
        assert updates[..k + 1] == updates[..k] + [updates[k]];
        var report := InterceptOne(session, updates[k], turnIndex, count, before, credit, updates[..k]);
        ReportsAppend(applied, updates[..k], updates[k], before, report);
        if report.Some? {
          applied := applied + [report.value];
        }
      }
      assert updates[..|updates|] == updates;
    }

    /** One entry of the loop above; the ghost parameters say what has been done before it. */
    method InterceptOne(
      session: AgentSession, item: RawUpdate, turnIndex: nat, count: string -> nat,
      ghost before: seq<TurnRecord>, ghost credit: map<nat, nat>, ghost done: seq<RawUpdate>)
      returns (report: Option<ContextUpdate>)
      requires session.Valid() && Ordered(before, session.recorded)
      requires Intercepted(before, credit, done, turnIndex, count, session.turns, session.credit)
      modifies session`turns, session`totalTokensSaved, session`credit, session`unattributed
      ensures session.Valid()
      ensures Intercepted(before, credit, done + [item], turnIndex, count, session.turns, session.credit)
      ensures report.Some? <==> Usable(item) && KnownCall(before, Strip(item.tcId))
      ensures report.Some? ==> report.value.tcId == Strip(item.tcId) && report.value.summary == Strip(item.summary)
      ensures var saved := if report.Some? then report.value.tokensSaved else 0;
              && session.totalTokensSaved == old(session.totalTokensSaved) + saved
              && session.unattributed == old(session.unattributed) + saved
    {
      hide Consistent, Strip, SummariesFor, Ordered, Intercepted, RecordsMapped;
      if item.NotAMapping? {
        InterceptSkip(before, credit, done, item, turnIndex, count, session.turns, session.credit);
        return None;
      }
      var tcId, summary := Strip(item.tcId), Strip(item.summary);
      if tcId == "" || summary == "" || summary == "[]" {
        InterceptSkip(before, credit, done, item, turnIndex, count, session.turns, session.credit);
        return None;
      }
      var place := session.FindTc(tcId);
      KnownIsKept(before, credit, done, turnIndex, count, session.turns, session.credit, tcId);
      if place.None? {
        InterceptSkip(before, credit, done, item, turnIndex, count, session.turns, session.credit);
        return None;
      }
      var (i, j) := place.value;
      var targetTc := session.turns[i].toolCalls[j];
      assert KnownCall(session.turns, tcId);
      var oldTokens := if targetTc.tokensSummarized.Some? then targetTc.tokensSummarized.value else targetTc.tokensRaw;
      var newTokens := count(summary);
      var saved := if oldTokens - newTokens > 0 then oldTokens - newTokens else 0;
      InterceptApply(before, session.recorded, credit, done, item, turnIndex, count,
                     session.turns, session.credit, i, j);
      session.RecordSummary(i, j, summary, turnIndex, newTokens, saved);
      return Some(ContextUpdate(tcId, summary, saved));
    }
  }

  lemma KnownIsKept(
    before: seq<TurnRecord>, credit: map<nat, nat>, updates: seq<RawUpdate>, turnIndex: nat, count: string -> nat,
    now: seq<TurnRecord>, credit': map<nat, nat>, tcId: string)
    requires Intercepted(before, credit, updates, turnIndex, count, now, credit')
    ensures KnownCall(before, tcId) <==> KnownCall(now, tcId)
  {
    forall i, j
      ensures At(before, i, j) <==> At(now, i, j)
      ensures At(before, i, j) ==> Call(before, i, j).tcId == Call(now, i, j).tcId
    {
      if At(before, i, j) {
        assert now[i].toolCalls[j] == Resummarized(before[i].toolCalls[j], updates, turnIndex, count);
      }
    }
  }

  // ---------- The fallback compactor ----------

  datatype CompactorConfig = CompactorConfig(enabled: bool, triggerTokenThreshold: int, compactOldestNTcs: nat)

  function UnsummarizedIn(calls: seq<ToolCallRecord>): seq<ToolCallRecord> {
    if calls == [] then []
    else
      var last := calls[|calls| - 1];
      UnsummarizedIn(calls[..|calls| - 1]) + if last.summarizedResponse.None? then [last] else []
  }

  /** Every call without a summary, in session order. */
  function Unsummarized(turns: seq<TurnRecord>): seq<ToolCallRecord> {
    if turns == [] then []
    else Unsummarized(turns[..|turns| - 1]) + UnsummarizedIn(turns[|turns| - 1].toolCalls)
  }

  ghost predicate IndicesIncrease(calls: seq<ToolCallRecord>) {
    forall c, d :: 0 <= c < d < |calls| ==> calls[c].tcIndex < calls[d].tcIndex
  }

  lemma {:induction false} UnsummarizedInFrom(calls: seq<ToolCallRecord>)
    requires IndicesIncrease(calls)
    ensures IndicesIncrease(UnsummarizedIn(calls))
    ensures forall r :: r in UnsummarizedIn(calls) <==> r in calls && r.summarizedResponse.None?
  {
    if calls != [] {
      var n := |calls| - 1;
      UnsummarizedInFrom(calls[..n]);
      assert calls == calls[..n] + [calls[n]];
      var rest := UnsummarizedIn(calls[..n]);
      forall c | 0 <= c < |rest|
        ensures rest[c].tcIndex < calls[n].tcIndex
      {
        assert rest[c] in calls[..n];
      }
    }
  }

  ghost predicate Recorded(turns: seq<TurnRecord>, r: ToolCallRecord) {
    exists i, j :: At(turns, i, j) && Call(turns, i, j) == r
  }

  lemma RecordedSplit(turns: seq<TurnRecord>, r: ToolCallRecord)
    requires turns != []
    ensures Recorded(turns, r) <==> Recorded(turns[..|turns| - 1], r) || r in turns[|turns| - 1].toolCalls
  {
    var n := |turns| - 1;
    if Recorded(turns[..n], r) {
      var i, j :| At(turns[..n], i, j) && Call(turns[..n], i, j) == r;
      assert At(turns, i, j) && Call(turns, i, j) == r;
    }
    if r in turns[n].toolCalls {
      var j :| 0 <= j < |turns[n].toolCalls| && turns[n].toolCalls[j] == r;
      assert At(turns, n, j) && Call(turns, n, j) == r;
    }
    if Recorded(turns, r) {
      var i, j :| At(turns, i, j) && Call(turns, i, j) == r;
      if i < n { assert At(turns[..n], i, j) && Call(turns[..n], i, j) == r; }
    }
  }

  /** Collecting in session order already sorts by `tc_index`, so "oldest first" is the session order. */
  lemma {:induction false} UnsummarizedSorted(turns: seq<TurnRecord>, counter: nat)
    requires Ordered(turns, counter)
    ensures IndicesIncrease(Unsummarized(turns))
    ensures forall r :: r in Unsummarized(turns) <==> r.summarizedResponse.None? && Recorded(turns, r)
  {
    if turns != [] {
      var n := |turns| - 1;
      assert forall i :: 0 <= i < n ==> turns[..n][i] == turns[i];
      assert WellNumbered(turns[n].toolCalls, 0, counter);
      UnsummarizedSorted(turns[..n], counter);
      UnsummarizedInFrom(turns[n].toolCalls);
      var rest, own := Unsummarized(turns[..n]), UnsummarizedIn(turns[n].toolCalls);
      forall c, d | 0 <= c < |rest| && 0 <= d < |own|
        ensures rest[c].tcIndex < own[d].tcIndex
      {
        assert rest[c] in rest && own[d] in own;
        RecordedBefore(turns, counter, rest[c], own[d]);
      }
      forall r {
        RecordedSplit(turns, r);
      }
    }
  }

  lemma TargetFacts(turns: seq<TurnRecord>, counter: nat, targets: seq<ToolCallRecord>, k: nat)
    requires Ordered(turns, counter) && targets <= Unsummarized(turns) && k < |targets|
    ensures targets[k].summarizedResponse.None? && Recorded(turns, targets[k])
    ensures targets[k] !in targets[..k] && targets[..k + 1] == targets[..k] + [targets[k]]
  {
    UnsummarizedSorted(turns, counter);
    assert targets[k] == Unsummarized(turns)[k] && targets[k] in Unsummarized(turns);
  }

  lemma RecordedBefore(turns: seq<TurnRecord>, counter: nat, a: ToolCallRecord, b: ToolCallRecord)
    requires Ordered(turns, counter) && turns != []
    requires Recorded(turns[..|turns| - 1], a) && b in turns[|turns| - 1].toolCalls
    ensures a.tcIndex < b.tcIndex
  {
    var n := |turns| - 1;
    var i, j :| At(turns[..n], i, j) && Call(turns[..n], i, j) == a;
    assert Precedes(turns[i], turns[n]);
  }

  /** The summary that the compactor's LLM call for `r` yields, if it is usable. */
  function CompactorSummary(llm: nat -> Option<string>, r: ToolCallRecord): Option<string> {
    match llm(r.tcIndex)
    case None => None
    case Some(text) => if UsableSummary(Strip(text)) then Some(Strip(text)) else None
  }

  function Compacted(
    r: ToolCallRecord, targets: seq<ToolCallRecord>, llm: nat -> Option<string>, turnIndex: nat, count: string -> nat)
    : ToolCallRecord
  {
    var summary := CompactorSummary(llm, r);
    if r in targets && summary.Some? then Summarized(r, summary.value, turnIndex, count(summary.value)) else r
  }

  /** Records `now` are records `before` with exactly the `targets` compacted, and credited from their raw length. */
  ghost predicate CompactedTo(
    before: seq<TurnRecord>, credit: map<nat, nat>, targets: seq<ToolCallRecord>, llm: nat -> Option<string>,
    turnIndex: nat, count: string -> nat, now: seq<TurnRecord>, credit': map<nat, nat>)
  {
    && RecordsMapped(before, now, r => Compacted(r, targets, llm, turnIndex, count))
    && forall i, j :: At(before, i, j) ==>
         var r := Call(before, i, j);
         Credit(credit', r.tcIndex) ==
         Credit(credit, r.tcIndex) +
         if r in targets && CompactorSummary(llm, r).Some?
         then Shrinkage(r.tokensRaw, count(CompactorSummary(llm, r).value)) else 0
  }

  lemma CompactNothing(
    before: seq<TurnRecord>, credit: map<nat, nat>, llm: nat -> Option<string>, turnIndex: nat, count: string -> nat)
    ensures CompactedTo(before, credit, [], llm, turnIndex, count, before, credit)
  {
  }

  lemma OtherPlacesOtherCalls(turns: seq<TurnRecord>, counter: nat, i: nat, j: nat, k: int, l: int)
    requires Ordered(turns, counter) && At(turns, i, j) && At(turns, k, l) && !(k == i && l == j)
    ensures Call(turns, k, l).tcIndex != Call(turns, i, j).tcIndex
  {
    if Call(turns, k, l).tcIndex == Call(turns, i, j).tcIndex {
      SameIndexSamePlace(turns, counter, i, j, k, l);
    }
  }

  lemma CompactStep(
    before: seq<TurnRecord>, counter: nat, credit: map<nat, nat>, done: seq<ToolCallRecord>, r: ToolCallRecord,
    llm: nat -> Option<string>, turnIndex: nat, count: string -> nat, now: seq<TurnRecord>, credit': map<nat, nat>,
    i: nat, j: nat)
    requires Ordered(before, counter) && At(before, i, j) && Call(before, i, j) == r && r !in done
    requires CompactedTo(before, credit, done, llm, turnIndex, count, now, credit')
    ensures At(now, i, j) && Call(now, i, j) == r
    ensures match CompactorSummary(llm, r)
            case None => CompactedTo(before, credit, done + [r], llm, turnIndex, count, now, credit')
            case Some(s) =>
              CompactedTo(before, credit, done + [r], llm, turnIndex, count,
                          Replace(now, i, j, Summarized(r, s, turnIndex, count(s))),
                          credit'[r.tcIndex := Credit(credit', r.tcIndex) + Shrinkage(r.tokensRaw, count(s))])
  {
    hide Strip, Ordered, CompactorSummary, Shrinkage, RecordsMapped, Compacted, Replace;
    var s, all := CompactorSummary(llm, r), done + [r];
    CompactedElsewhere(before, done, r, llm, turnIndex, count, now, i, j);
    forall k, l | At(before, k, l)
      ensures (k == i && l == j) || (Call(before, k, l).tcIndex != r.tcIndex && Call(before, k, l) != r)
    {
      if !(k == i && l == j) {
        OtherPlacesOtherCalls(before, counter, i, j, k, l);
      }
    }
    CompactStepRecords(before, done, r, llm, turnIndex, count, now, i, j);
    assert forall q :: q in all <==> q in done || q == r;
  }

  lemma CompactedElsewhere(
    before: seq<TurnRecord>, done: seq<ToolCallRecord>, r: ToolCallRecord, llm: nat -> Option<string>, turnIndex: nat,
    count: string -> nat, now: seq<TurnRecord>, i: nat, j: nat)
    requires At(before, i, j) && Call(before, i, j) == r && r !in done
    requires RecordsMapped(before, now, q => Compacted(q, done, llm, turnIndex, count))
    ensures At(now, i, j) && Call(now, i, j) == r
  {
    hide CompactorSummary;
    assert now[i].toolCalls[j] == Compacted(before[i].toolCalls[j], done, llm, turnIndex, count);
  }

  lemma CompactStepRecords(
    before: seq<TurnRecord>, done: seq<ToolCallRecord>, r: ToolCallRecord, llm: nat -> Option<string>, turnIndex: nat,
    count: string -> nat, now: seq<TurnRecord>, i: nat, j: nat)
    requires At(before, i, j) && At(now, i, j) && Call(before, i, j) == r && r !in done
    requires RecordsMapped(before, now, q => Compacted(q, done, llm, turnIndex, count))
    requires forall k, l :: At(before, k, l) && !(k == i && l == j) ==> Call(before, k, l) != r
    ensures
      var s := CompactorSummary(llm, r);
      RecordsMapped(before, if s.Some? then Replace(now, i, j, Summarized(r, s.value, turnIndex, count(s.value))) else now,
                    q => Compacted(q, done + [r], llm, turnIndex, count))
  {
    hide CompactorSummary;
    var s, all := CompactorSummary(llm, r), done + [r];
    var after := if s.Some? then Replace(now, i, j, Summarized(r, s.value, turnIndex, count(s.value))) else now;
    forall k, l | At(before, k, l)
      ensures At(after, k, l) && Call(after, k, l) == Compacted(Call(before, k, l), all, llm, turnIndex, count)
    {
      assert Call(now, k, l) == Compacted(Call(before, k, l), done, llm, turnIndex, count);
      if s.Some? {
        ReplaceAt(now, i, j, Summarized(r, s.value, turnIndex, count(s.value)), k, l);
      }
    }
    assert forall k, l :: At(before, k, l) ==>
      Call(before, k, l) == before[k].toolCalls[l] && Call(after, k, l) == after[k].toolCalls[l];
  }

  // ---------- What a pass of the compactor saves ----------

  function CompactorSaving(
    r: ToolCallRecord, targets: seq<ToolCallRecord>, llm: nat -> Option<string>, count: string -> nat): nat
  {
    if r in targets && CompactorSummary(llm, r).Some?
    then Shrinkage(r.tokensRaw, count(CompactorSummary(llm, r).value)) else 0
  }

  function CompactorSavings(
    turns: seq<TurnRecord>, targets: seq<ToolCallRecord>, llm: nat -> Option<string>, count: string -> nat): int
  {
    SumTurns(turns, r => CompactorSaving(r, targets, llm, count))
  }

  /** No target is given a usable summary shorter than its raw result. */
  ghost predicate CompactorShortensNone(
    turns: seq<TurnRecord>, targets: seq<ToolCallRecord>, llm: nat -> Option<string>, count: string -> nat)
  {
    forall i, j :: At(turns, i, j) ==>
      var r := Call(turns, i, j);
      r in targets && CompactorSummary(llm, r).Some? ==> count(CompactorSummary(llm, r).value) >= r.tokensRaw
  }

  lemma CompactorSavesNothing(
    turns: seq<TurnRecord>, targets: seq<ToolCallRecord>, llm: nat -> Option<string>, count: string -> nat)
    ensures CompactorSavings(turns, targets, llm, count) == 0 <==> CompactorShortensNone(turns, targets, llm, count)
  {
    hide CompactorSummary, SumTurns;
    var saving := (r: ToolCallRecord) => CompactorSaving(r, targets, llm, count);
    SumTurnsNought(turns, saving);
    assert forall i, j :: At(turns, i, j) ==> saving(Call(turns, i, j)) == CompactorSaving(Call(turns, i, j), targets, llm, count);
    SumTurnsSame(turns, saving, turns, r => CompactorSaving(r, targets, llm, count));
  }

  /** The calls a pass goes for: the oldest `n` that have no summary. */
  function CompactorTargets(turns: seq<TurnRecord>, n: nat): seq<ToolCallRecord> {
    var candidates := Unsummarized(turns);
    if n < |candidates| then candidates[..n] else candidates
  }

  lemma TargetsUnsummarized(turns: seq<TurnRecord>, counter: nat, n: nat)
    requires Ordered(turns, counter)
    ensures forall r :: r in CompactorTargets(turns, n) ==> r.summarizedResponse.None?
  {
    UnsummarizedSorted(turns, counter);
    forall r | r in CompactorTargets(turns, n)
      ensures r in Unsummarized(turns)
    {
    }
  }

  lemma CompactedFair(
    r: ToolCallRecord, credit: map<nat, nat>, credit': map<nat, nat>, targets: seq<ToolCallRecord>,
    llm: nat -> Option<string>, turnIndex: nat, count: string -> nat)
    requires RecordFair(credit, r) && (r in targets ==> r.summarizedResponse.None?)
    requires Credit(credit', r.tcIndex) == Credit(credit, r.tcIndex) + CompactorSaving(r, targets, llm, count)
    ensures RecordFair(credit', Compacted(r, targets, llm, turnIndex, count))
  {
    hide CompactorSummary;
  }

  /** A pass adds to the total exactly what its summaries save, call by call. */
  lemma CompactedKeepsLedger(
    before: seq<TurnRecord>, total: nat, credit: map<nat, nat>, away: nat, targets: seq<ToolCallRecord>,
    llm: nat -> Option<string>, turnIndex: nat, count: string -> nat, now: seq<TurnRecord>, credit': map<nat, nat>)
    requires LedgerOk(before, total, credit, away)
    requires forall r :: r in targets ==> r.summarizedResponse.None?
    requires CompactedTo(before, credit, targets, llm, turnIndex, count, now, credit')
    ensures CompactorSavings(before, targets, llm, count) >= 0
    ensures LedgerOk(now, total + CompactorSavings(before, targets, llm, count), credit', away)
  {
    hide CompactorSummary, Charged, Reduction;
    var upd := (r: ToolCallRecord) => Compacted(r, targets, llm, turnIndex, count);
    var gain := (r: ToolCallRecord) => CompactorSaving(r, targets, llm, count);
    forall i, j | At(before, i, j)
      ensures
        var r := Call(before, i, j);
        && upd(r).tcIndex == r.tcIndex
        && Credit(credit', r.tcIndex) == Credit(credit, r.tcIndex) + gain(r)
        && RecordFair(credit', upd(r))
    {
      var r := Call(before, i, j);
      CompactedFair(r, credit, credit', targets, llm, turnIndex, count);
    }
    MappedKeepsLedger(before, total, credit, away, upd, gain, now, credit');
    SumTurnsSame(before, gain, before, r => CompactorSaving(r, targets, llm, count));
  }

  lemma CompactedTotal(
    before: seq<TurnRecord>, total: nat, credit: map<nat, nat>, away: nat, targets: seq<ToolCallRecord>,
    llm: nat -> Option<string>, turnIndex: nat, count: string -> nat, now: seq<TurnRecord>, credit': map<nat, nat>,
    total': nat)
    requires LedgerOk(before, total, credit, away) && LedgerOk(now, total', credit', away)
    requires forall r :: r in targets ==> r.summarizedResponse.None?
    requires CompactedTo(before, credit, targets, llm, turnIndex, count, now, credit')
    ensures total' == total + CompactorSavings(before, targets, llm, count)
  {
    hide CompactedTo, CompactorSavings;
    CompactedKeepsLedger(before, total, credit, away, targets, llm, turnIndex, count, now, credit');
  }

  lemma LedgerIsFair(turns: seq<TurnRecord>, total: nat, credit: map<nat, nat>, away: nat, i: nat, j: nat)
    requires LedgerOk(turns, total, credit, away) && At(turns, i, j)
    ensures RecordFair(credit, Call(turns, i, j))
  {
    hide SumTurns;
  }

  lemma ValidIsOrdered(session: AgentSession)
    requires session.Valid()
    ensures Ordered(session.turns, session.recorded)
    ensures LedgerOk(session.turns, session.totalTokensSaved, session.credit, session.away)
  {
    hide Ordered, LedgerOk;
  }

  class ServerCompactor {
    const config: CompactorConfig

    constructor (config: CompactorConfig)
      ensures this.config == config
    {
      this.config := config;
    }

    predicate ShouldTrigger(session: AgentSession, currentContextTokens: int)
      reads session
    {
      && config.enabled
      && currentContextTokens >= config.triggerTokenThreshold
      && Unsummarized(session.turns) != []
    }

    /** Summarizes the oldest unsummarized calls with one LLM call each; a failed or empty answer keeps the raw result. */
    method Compact(session: AgentSession, turnIndex: nat, llm: nat -> Option<string>, count: string -> nat)
      returns (tokensSaved: nat)
      requires session.Valid()
      modifies session`turns, session`totalTokensSaved, session`credit, session`unattributed
      ensures session.Valid()
      ensures CompactedTo(old(session.turns), old(session.credit),
                          CompactorTargets(old(session.turns), config.compactOldestNTcs),
                          llm, turnIndex, count, session.turns, session.credit)
      ensures session.totalTokensSaved == old(session.totalTokensSaved) + tokensSaved
      ensures session.unattributed == old(session.unattributed) + tokensSaved
      ensures tokensSaved == CompactorSavings(old(session.turns),
                                              CompactorTargets(old(session.turns), config.compactOldestNTcs), llm, count)
      ensures exists targets ::
                && AreOldest(targets, old(session.turns), config.compactOldestNTcs)
                && AllCompacted(old(session.turns), session.turns, targets, llm, turnIndex, count)
    {
      ghost var before, total, credit := session.turns, session.totalTokensSaved, session.credit;
      assert Ordered(before, session.recorded) && LedgerOk(before, total, credit, session.away);
      TargetsUnsummarized(before, session.recorded, config.compactOldestNTcs);
      tokensSaved := CompactAll(session, turnIndex, llm, count);
      assert LedgerOk(session.turns, session.totalTokensSaved, session.credit, session.away);
      TargetsAreOldest(before, session.recorded, config.compactOldestNTcs);
      hide Consistent, Ordered, CompactedTo, CompactorSavings, CompactorTargets, LedgerOk, AreOldest, AllCompacted;
      CompactedAllMeans(before, credit, CompactorTargets(before, config.compactOldestNTcs), llm, turnIndex, count,
                        session.turns, session.credit);
      CompactedTotal(before, total, credit, session.away, CompactorTargets(before, config.compactOldestNTcs), llm,
                     turnIndex, count, session.turns, session.credit, session.totalTokensSaved);
    }

    method CompactAll(session: AgentSession, turnIndex: nat, llm: nat -> Option<string>, count: string -> nat)
      returns (tokensSaved: nat)
      requires session.Valid()
      modifies session`turns, session`totalTokensSaved, session`credit, session`unattributed
      ensures session.Valid()
      ensures CompactedTo(old(session.turns), old(session.credit),
                          CompactorTargets(old(session.turns), config.compactOldestNTcs),
                          llm, turnIndex, count, session.turns, session.credit)
      ensures session.totalTokensSaved == old(session.totalTokensSaved) + tokensSaved
      ensures session.unattributed == old(session.unattributed) + tokensSaved
    {
      hide Consistent, Ordered, CompactedTo, UnsummarizedIn, Unsummarized, Recorded;
      ghost var before, credit := session.turns, session.credit;
      ValidIsOrdered(session);
      CompactNothing(before, credit, llm, turnIndex, count);
      var unsummarized := CollectUnsummarized(session);
      var targets :=
        if config.compactOldestNTcs < |unsummarized| then unsummarized[..config.compactOldestNTcs] else unsummarized;
      tokensSaved := 0;
      for k := 0 to |targets|
        invariant session.Valid() && session.recorded == old(session.recorded)
        invariant CompactedTo(before, credit, targets[..k], llm, turnIndex, count, session.turns, session.credit)
        invariant session.totalTokensSaved == old(session.totalTokensSaved) + tokensSaved
        invariant session.unattributed == old(session.unattributed) + tokensSaved
      {
        TargetFacts(before, session.recorded, targets, k);
        var saved := CompactOne(session, targets[k], turnIndex, llm, count, before, credit, targets[..k]);
        tokensSaved := tokensSaved + saved;
      }
      assert targets[..|targets|] == targets;
    }

    method CollectUnsummarized(session: AgentSession) returns (unsummarized: seq<ToolCallRecord>)
      ensures unsummarized == Unsummarized(session.turns)
    {
      unsummarized := [];
      for i := 0 to |session.turns|
        invariant unsummarized == Unsummarized(session.turns[..i])
      {
        var calls := session.turns[i].toolCalls;
        for j := 0 to |calls|
          invariant unsummarized == Unsummarized(session.turns[..i]) + UnsummarizedIn(calls[..j])
        {
          assert calls[..j + 1][..j] == calls[..j];
          if calls[j].summarizedResponse.None? {
            unsummarized := unsummarized + [calls[j]];
          }
        }
        assert calls[..|calls|] == calls && session.turns[..i + 1][..i] == session.turns[..i];
      }
      assert session.turns[..|session.turns|] == session.turns;
    }

    /** One target of the loop in `Compact`; the ghost parameters say what has been done before it. */
    method CompactOne(
      session: AgentSession, target: ToolCallRecord, turnIndex: nat, llm: nat -> Option<string>, count: string -> nat,
      ghost before: seq<TurnRecord>, ghost credit: map<nat, nat>, ghost done: seq<ToolCallRecord>)
      returns (saved: nat)
      requires session.Valid() && Ordered(before, session.recorded)
      requires CompactedTo(before, credit, done, llm, turnIndex, count, session.turns, session.credit)
      requires target !in done && target.summarizedResponse.None?
      requires Recorded(before, target)
      modifies session`turns, session`totalTokensSaved, session`credit, session`unattributed
      ensures session.Valid()
      ensures CompactedTo(before, credit, done + [target], llm, turnIndex, count, session.turns, session.credit)
      ensures session.totalTokensSaved == old(session.totalTokensSaved) + saved
      ensures session.unattributed == old(session.unattributed) + saved
    {
      hide Strip, Ordered, CompactedTo, Consistent, LedgerOk, Replace, Credit;
      ghost var i0, j0 :| At(before, i0, j0) && Call(before, i0, j0) == target;
      CompactStep(before, session.recorded, credit, done, target, llm, turnIndex, count,
                  session.turns, session.credit, i0, j0);
      ValidIsOrdered(session);
      LedgerIsFair(session.turns, session.totalTokensSaved, session.credit, session.away, i0, j0);
      var response := llm(target.tcIndex);
      var summary := if response.Some? then Strip(response.value) else "";
      if summary == "" || summary == "[]" {
        return 0;
      }
      var place := session.FindTc(target.tcId);
      assert place.Some?;
      var (i, j) := place.value;
      IdsAreUnique(session.turns, session.recorded, i0, j0, i, j);
      var summaryTokens := count(summary);
      saved := if target.tokensRaw - summaryTokens > 0 then target.tokensRaw - summaryTokens else 0;
      session.RecordSummary(i, j, summary, turnIndex, summaryTokens, saved);
    }
  }
}
