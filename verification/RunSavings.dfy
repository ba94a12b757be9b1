/**
 A run of the agent loop as a sequence of passes over the savings ledger, and when its total is the net reduction of the
 calls left in the session.
 */
module RunSavings {
  import opened Text
  import opened Sessions
  import opened AgentSessions
  import opened Rcs
  import opened RunHistory
  import opened Savings
  import opened RunSpecs

  /** The books after the compactor, after the fold, and after the tools of an iteration. */
  function CompactedBooks(it: Iteration): Books {
    Books(it.p.compacted, it.at.books.counter, it.at.books.total + it.p.saved, it.p.credit, it.at.books.away)
  }

  function FoldedBooks(it: Iteration): Books {
    Books(it.p.ready, it.at.books.counter, it.at.books.total + it.p.saved, it.p.credit, it.finish.away)
  }

  function ToolBooks(it: Iteration): Books {
    Books(it.tools.turns, it.at.books.counter, it.at.books.total + ReportedIn(it), it.tools.credit, it.finish.away)
  }

  function CompactionOf(s: Setting, it: Iteration): Pass {
    Compaction(PassTargets(s, it.at.books.turns, it.step), it.step.compactorLlm, it.at.turnIndex)
  }

  function InterceptionOf(s: Setting, it: Iteration): Pass {
    Interception(ActedIn(s, it), it.at.turnIndex)
  }

  /** One iteration is a compaction, a fold, an interception and, if it records a turn, an append. */
  function PassesOf(s: Setting, it: Iteration): (passes: seq<Pass>)
    ensures |passes| >= 3
  {
    [CompactionOf(s, it), Fold(it.step.folded), InterceptionOf(s, it)]
    + if TurnOf(s, it).Some? then [Append(TurnOf(s, it).value)] else []
  }

  /** The books before, between and after them. */
  function StatesOf(s: Setting, it: Iteration): (states: seq<Books>)
    ensures |states| == |PassesOf(s, it)| + 1
  {
    [it.at.books, CompactedBooks(it), FoldedBooks(it), ToolBooks(it)]
    + if TurnOf(s, it).Some? then [it.finish] else []
  }

  function PassesOfRun(s: Setting, trace: seq<Iteration>): seq<Pass> {
    if trace == [] then []
    else PassesOfRun(s, trace[..|trace| - 1]) + PassesOf(s, trace[|trace| - 1])
  }

  function BooksOfRun(s: Setting, start: Books, trace: seq<Iteration>): (states: seq<Books>)
    ensures |states| == |PassesOfRun(s, trace)| + 1
  {
    if trace == [] then [start]
    else BooksOfRun(s, start, trace[..|trace| - 1]) + StatesOf(s, trace[|trace| - 1])[1..]
  }

  lemma CompactionIsPass(s: Setting, it: Iteration)
    requires IterationOk(s, it) && BooksOk(it.at.books)
    ensures PassStep(it.at.books, CompactionOf(s, it), CompactedBooks(it), s.countSummary)
  {
    hide CompactedTo, Ordered, CompactorSavings, CompactorTargets, Triggered;
    TargetsUnsummarized(it.at.books.turns, it.at.books.counter, s.compactor.compactOldestNTcs);
  }

  lemma FoldIsPass(s: Setting, it: Iteration)
    requires IterationOk(s, it)
    ensures PassStep(CompactedBooks(it), Fold(it.step.folded), FoldedBooks(it), s.countSummary)
  {
    hide CompactedTo, Ordered, CompactorSavings, ToolsOk;
  }

  lemma ToolsArePass(s: Setting, it: Iteration)
    requires IterationOk(s, it)
    ensures PassStep(FoldedBooks(it), InterceptionOf(s, it), ToolBooks(it), s.countSummary)
  {
    IterationTools(s, it);
    assert BooksAfter(s, it);
    hide IterationOk, Intercepted, InterceptorSavings, ActedIn, RecordsFor, TurnOf;
  }

  lemma AppendIsPass(s: Setting, it: Iteration)
    requires IterationOk(s, it) && TurnOf(s, it).Some?
    ensures PassStep(ToolBooks(it), Append(TurnOf(s, it).value), it.finish, s.countSummary)
  {
    hide IterationOk, TurnOf, WellNumbered, PassStep, AnswersItsRequests;
    TurnIsFresh(s, it);
    FinishBooks(s, it);
    var turn := TurnOf(s, it).value;
    WiderFrom(turn, it.at.books.counter, it.at.counter, it.finish.counter);
    AppendStep(ToolBooks(it), turn, it.finish, s.countSummary);
  }

  lemma WiderFrom(turn: TurnRecord, low: nat, mid: nat, high: nat)
    requires Fresh(turn, mid, high) && low <= mid
    ensures WellNumbered(turn.toolCalls, low, high)
  {
  }

  lemma FinishBooks(s: Setting, it: Iteration)
    requires IterationOk(s, it) && TurnOf(s, it).Some?
    ensures it.finish.turns == it.tools.turns + [TurnOf(s, it).value]
    ensures it.finish.credit == it.tools.credit && it.finish.total == it.at.books.total + ReportedIn(it)
    ensures it.finish.counter == it.at.counter + it.tools.handled && it.at.books.counter <= it.at.counter
    ensures forall x :: x in it.finish.credit ==> x <= it.at.books.counter
  {
    hide Prepared, ToolsOk, TurnOf, EndOf, RetriesAfter, SumTurns, RunsTools;
  }

  lemma NoAppend(s: Setting, it: Iteration)
    requires IterationOk(s, it) && TurnOf(s, it).None?
    ensures it.finish == ToolBooks(it)
  {
    hide Prepared, ToolsOk, TurnOf, EndOf, RetriesAfter;
  }

  /** Its iteration's passes, in this order, lead from the books before it to those after it. */
  lemma IterationPasses(s: Setting, it: Iteration)
    requires IterationOk(s, it) && BooksOk(it.at.books)
    ensures Steps(StatesOf(s, it), PassesOf(s, it), s.countSummary)
    ensures StatesOf(s, it)[0] == it.at.books && StatesOf(s, it)[|PassesOf(s, it)|] == it.finish
  {
    hide IterationOk, BooksOk, PassStep, TurnOf, CompactedBooks, FoldedBooks, ToolBooks, CompactionOf, InterceptionOf;
    CompactionIsPass(s, it);
    FoldIsPass(s, it);
    ToolsArePass(s, it);
    if TurnOf(s, it).Some? {
      AppendIsPass(s, it);
    } else {
      NoAppend(s, it);
    }
  }

  lemma StepsConcat(
    a: seq<Books>, p: seq<Pass>, b: seq<Books>, q: seq<Pass>, count: string -> nat)
    requires Steps(a, p, count) && Steps(b, q, count) && a[|p|] == b[0]
    ensures Steps(a + b[1..], p + q, count)
    ensures (a + b[1..])[0] == a[0] && (a + b[1..])[|p + q|] == b[|q|]
  {
    hide PassStep;
    var states, passes := a + b[1..], p + q;
    forall k | 0 <= k < |passes|
      ensures PassStep(states[k], passes[k], states[k + 1], count)
    {
      if k < |p| {
        assert states[k] == a[k] && passes[k] == p[k] && states[k + 1] == a[k + 1];
      } else {
        assert states[k] == b[k - |p|] && passes[k] == q[k - |p|] && states[k + 1] == b[k - |p| + 1];
      }
    }
  }

  /** A run is the passes of its iterations, so what holds of every sequence of passes holds of it. */
  lemma {:induction false} RunPasses(
    s: Setting, env: nat -> Step, limit: int, start: Position, trace: seq<Iteration>)
    requires RunOf(s, env, limit, start, trace) && BooksOk(start.books)
    ensures
      var states, passes := BooksOfRun(s, start.books, trace), PassesOfRun(s, trace);
      && Steps(states, passes, s.countSummary)
      && states[0] == start.books && states[|passes|] == Final(start, trace).books
      && BooksOk(Final(start, trace).books)
    decreases |trace|
  {
    hide RunOf, IterationOk, BooksOk, PassStep, PassesOf, StatesOf;
    if trace != [] {
      var n := |trace| - 1;
      RunPrefix(s, env, limit, start, trace);
      RunPasses(s, env, limit, start, trace[..n]);
      IterationPasses(s, trace[n]);
      StepsConcat(BooksOfRun(s, start.books, trace[..n]), PassesOfRun(s, trace[..n]), StatesOf(s, trace[n]),
                  PassesOf(s, trace[n]), s.countSummary);
      hide Steps;
      TotalIsReports(BooksOfRun(s, start.books, trace), PassesOfRun(s, trace), s.countSummary);
    }
  }

  // ---------- Growth and savings, read off the trace ----------

  /** In this iteration call `x` is given a summary longer than what it replaces, by the compactor or by the model. */
  ghost predicate GrowsIn(s: Setting, it: Iteration, x: nat) {
    || Grows(it.at.books, CompactionOf(s, it), x, s.countSummary)
    || Grows(FoldedBooks(it), InterceptionOf(s, it), x, s.countSummary)
  }

  ghost predicate GrowsInRun(s: Setting, trace: seq<Iteration>, x: nat) {
    exists k :: 0 <= k < |trace| && GrowsIn(s, trace[k], x)
  }

  /** In this iteration something is saved on call `x`, by the compactor or by the model. */
  ghost predicate SavesIn(s: Setting, it: Iteration, x: nat) {
    || Saves(it.at.books, CompactionOf(s, it), x, s.countSummary)
    || Saves(FoldedBooks(it), InterceptionOf(s, it), x, s.countSummary)
  }

  ghost predicate SavesInRun(s: Setting, trace: seq<Iteration>, x: nat) {
    exists k :: 0 <= k < |trace| && SavesIn(s, trace[k], x)
  }

  /** What iteration `k` folds away had never been saved anything on: not by this pass of the compactor, nor before. */
  ghost predicate FoldsNothingSaved(s: Setting, start: Books, trace: seq<Iteration>, k: nat)
    requires k < |trace|
  {
    var it := trace[k];
    forall i, j :: At(it.p.compacted, i, j) && it.p.compacted[i].turnIndex in it.step.folded ==>
      var x := Call(it.p.compacted, i, j).tcIndex;
      && Credit(start.credit, x) == 0 && !SavesInRun(s, trace[..k], x)
      && !Saves(it.at.books, CompactionOf(s, it), x, s.countSummary)
  }

  function LastBooks(start: Books, trace: seq<Iteration>): Books {
    if trace == [] then start else trace[|trace| - 1].finish
  }

  /**
   The books of a run that started from `start` are exact: every call left was exact at the start and was never given a
   longer summary, and nothing with savings to its name was folded away, before the run or in it.
   */
  ghost predicate RunExact(s: Setting, start: Books, trace: seq<Iteration>) {
    && start.away == 0
    && (forall x :: Has(LastBooks(start, trace).turns, x) ==> ExactAt(start, x) && !GrowsInRun(s, trace, x))
    && forall k :: 0 <= k < |trace| ==> FoldsNothingSaved(s, start, trace, k)
  }

  lemma NoneOfThese(a: Books, p: Pass, x: nat, count: string -> nat)
    ensures p.Fold? || p.Append? || p.Answering? ==> !Grows(a, p, x, count) && !Saves(a, p, x, count)
  {
  }

  lemma IterationGrows(s: Setting, it: Iteration, x: nat)
    ensures EverGrows(StatesOf(s, it), PassesOf(s, it), x, s.countSummary) <==> GrowsIn(s, it, x)
    ensures EverSaves(StatesOf(s, it), PassesOf(s, it), x, s.countSummary) <==> SavesIn(s, it, x)
  {
    hide Grows, Saves, CompactionOf, InterceptionOf, CompactedBooks, FoldedBooks, ToolBooks, TurnOf;
    var states, passes := StatesOf(s, it), PassesOf(s, it);
    NoneOfThese(states[1], passes[1], x, s.countSummary);
    if |passes| == 4 { NoneOfThese(states[3], passes[3], x, s.countSummary); }
    assert states[0] == it.at.books && states[2] == FoldedBooks(it);
    assert passes[0] == CompactionOf(s, it) && passes[2] == InterceptionOf(s, it);
  }

  lemma ConcatGrows(a: seq<Books>, p: seq<Pass>, b: seq<Books>, q: seq<Pass>, x: nat, count: string -> nat)
    requires |a| == |p| + 1 && |b| == |q| + 1 && a[|p|] == b[0]
    ensures EverGrows(a + b[1..], p + q, x, count) <==> EverGrows(a, p, x, count) || EverGrows(b, q, x, count)
    ensures EverSaves(a + b[1..], p + q, x, count) <==> EverSaves(a, p, x, count) || EverSaves(b, q, x, count)
  {
    hide Grows, Saves;
    var states, passes := a + b[1..], p + q;
    assert forall k :: 0 <= k < |p| ==> states[k] == a[k] && passes[k] == p[k];
    assert forall k :: 0 <= k < |q| ==> states[|p| + k] == b[k] && passes[|p| + k] == q[k];
    assert forall k :: |p| <= k < |passes| ==> states[k] == b[k - |p|] && passes[k] == q[k - |p|];
  }

  lemma GrowsInRunNext(s: Setting, trace: seq<Iteration>, x: nat)
    requires trace != []
    ensures
      var n := |trace| - 1;
      && (GrowsInRun(s, trace, x) <==> GrowsInRun(s, trace[..n], x) || GrowsIn(s, trace[n], x))
      && (SavesInRun(s, trace, x) <==> SavesInRun(s, trace[..n], x) || SavesIn(s, trace[n], x))
  {
    hide GrowsIn, SavesIn;
    var n := |trace| - 1;
    assert forall k :: 0 <= k < n ==> trace[..n][k] == trace[k];
  }

  lemma RunSplits(s: Setting, env: nat -> Step, limit: int, start: Position, trace: seq<Iteration>)
    requires RunOf(s, env, limit, start, trace) && BooksOk(start.books) && trace != []
    ensures
      var n := |trace| - 1;
      var a, p := BooksOfRun(s, start.books, trace[..n]), PassesOfRun(s, trace[..n]);
      && RunOf(s, env, limit, start, trace[..n])
      && a[|p|] == StatesOf(s, trace[n])[0] && a[0] == start.books
      && BooksOfRun(s, start.books, trace) == a + StatesOf(s, trace[n])[1..]
      && PassesOfRun(s, trace) == p + PassesOf(s, trace[n])
  {
    hide RunOf, IterationOk, BooksOk, PassesOf, Steps;
    var n := |trace| - 1;
    RunPrefix(s, env, limit, start, trace);
    RunPasses(s, env, limit, start, trace[..n]);
  }

  /** What the passes of a run do to a call is what its iterations do. */
  lemma {:induction false} RunGrows(
    s: Setting, env: nat -> Step, limit: int, start: Position, trace: seq<Iteration>, x: nat)
    requires RunOf(s, env, limit, start, trace) && BooksOk(start.books)
    ensures
      var states, passes := BooksOfRun(s, start.books, trace), PassesOfRun(s, trace);
      && (EverGrows(states, passes, x, s.countSummary) <==> GrowsInRun(s, trace, x))
      && (EverSaves(states, passes, x, s.countSummary) <==> SavesInRun(s, trace, x))
    decreases |trace|
  {
    if trace == [] {
      return;
    }
    hide *;
    var n := |trace| - 1;
    RunSplits(s, env, limit, start, trace);
    RunGrows(s, env, limit, start, trace[..n], x);
    IterationGrows(s, trace[n], x);
    GrowsInRunNext(s, trace, x);
    ConcatGrows(BooksOfRun(s, start.books, trace[..n]), PassesOfRun(s, trace[..n]), StatesOf(s, trace[n]),
                PassesOf(s, trace[n]), x, s.countSummary);
  }

  lemma EarlierFolds(a: seq<Books>, p: seq<Pass>, b: seq<Books>, q: seq<Pass>, k: nat, count: string -> nat)
    requires |a| == |p| + 1 && |b| == |q| + 1 && k < |p|
    ensures FoldsUnsaved(a + b[1..], p + q, k, count) <==> FoldsUnsaved(a, p, k, count)
  {
    hide EverSaves;
    var states, passes := a + b[1..], p + q;
    assert states[..k + 1] == a[..k + 1] && passes[..k] == p[..k] && states[k] == a[k] && passes[k] == p[k];
    assert states[0] == a[0];
  }

  lemma FirstSaves(b: Books, p: Pass, c: Books, x: nat, count: string -> nat)
    ensures EverSaves([b, c], [p], x, count) <==> Saves(b, p, x, count)
  {
    hide Saves;
    assert [b, c][0] == b && [p][0] == p;
  }

  /** The fold of an iteration that comes after the passes `p`. */
  lemma NextFold(s: Setting, a: seq<Books>, p: seq<Pass>, it: Iteration, x: nat)
    requires |a| == |p| + 1 && a[|p|] == it.at.books
    ensures
      var states, passes := a + StatesOf(s, it)[1..], p + PassesOf(s, it);
      && passes[|p| + 1] == Fold(it.step.folded) && states[|p| + 1] == CompactedBooks(it)
      && (EverSaves(states[..|p| + 2], passes[..|p| + 1], x, s.countSummary)
          <==> EverSaves(a, p, x, s.countSummary) || Saves(it.at.books, CompactionOf(s, it), x, s.countSummary))
  {
    hide *;
    FirstTwo(s, it);
    StartOfConcat(a, p, StatesOf(s, it), PassesOf(s, it));
    ConcatGrows(a, p, [it.at.books, CompactedBooks(it)], [CompactionOf(s, it)], x, s.countSummary);
    FirstSaves(it.at.books, CompactionOf(s, it), CompactedBooks(it), x, s.countSummary);
  }

  lemma FirstTwo(s: Setting, it: Iteration)
    ensures |PassesOf(s, it)| >= 2 && |StatesOf(s, it)| >= 2
    ensures PassesOf(s, it)[0] == CompactionOf(s, it) && PassesOf(s, it)[1] == Fold(it.step.folded)
    ensures StatesOf(s, it)[0] == it.at.books && StatesOf(s, it)[1] == CompactedBooks(it)
  {
    hide CompactedBooks, FoldedBooks, ToolBooks, CompactionOf, InterceptionOf, TurnOf;
  }

  lemma StartOfConcat<S, P>(a: seq<S>, p: seq<P>, b: seq<S>, q: seq<P>)
    requires |a| == |p| + 1 && |b| >= 2 && |q| >= 2
    ensures (a + b[1..])[|p| + 1] == b[1] && (p + q)[|p| + 1] == q[1]
    ensures (a + b[1..])[..|p| + 2] == a + [b[0], b[1]][1..] && (p + q)[..|p| + 1] == p + [q[0]]
  {
  }

  lemma OnlyTheFold(s: Setting, a: seq<Books>, p: seq<Pass>, it: Iteration)
    requires |a| == |p| + 1
    ensures
      var states, passes := a + StatesOf(s, it)[1..], p + PassesOf(s, it);
      FoldsOnlyUnsaved(states, passes, s.countSummary)
      <==> FoldsOnlyUnsaved(a, p, s.countSummary) && FoldsUnsaved(states, passes, |p| + 1, s.countSummary)
  {
    var states, passes := a + StatesOf(s, it)[1..], p + PassesOf(s, it);
    assert forall k :: |p| <= k < |passes| && k != |p| + 1 ==> !passes[k].Fold?;
    assert forall k :: |p| <= k < |passes| && k != |p| + 1 ==> FoldsUnsaved(states, passes, k, s.countSummary);
    hide FoldsUnsaved, PassesOf, StatesOf;
    forall k: nat | k < |p|
      ensures FoldsUnsaved(states, passes, k, s.countSummary) <==> FoldsUnsaved(a, p, k, s.countSummary)
    {
      EarlierFolds(a, p, StatesOf(s, it), PassesOf(s, it), k, s.countSummary);
    }
  }

  lemma ItsFold(
    s: Setting, env: nat -> Step, limit: int, start: Position, trace: seq<Iteration>)
    requires RunOf(s, env, limit, start, trace) && BooksOk(start.books) && trace != []
    ensures
      var n := |trace| - 1;
      var a, p := BooksOfRun(s, start.books, trace[..n]), PassesOfRun(s, trace[..n]);
      FoldsUnsaved(a + StatesOf(s, trace[n])[1..], p + PassesOf(s, trace[n]), |p| + 1, s.countSummary)
      <==> FoldsNothingSaved(s, start.books, trace, n)
  {
    hide RunOf, BooksOk, EverSaves, SavesInRun, Saves, Steps, PassesOfRun, BooksOfRun;
    var n := |trace| - 1;
    var it := trace[n];
    var a, p := BooksOfRun(s, start.books, trace[..n]), PassesOfRun(s, trace[..n]);
    RunSplits(s, env, limit, start, trace);
    assert a[|p|] == it.at.books;
    forall x: nat
      ensures EverSaves(a, p, x, s.countSummary) <==> SavesInRun(s, trace[..n], x)
    {
      RunGrows(s, env, limit, start, trace[..n], x);
    }
    var states, passes := a + StatesOf(s, it)[1..], p + PassesOf(s, it);
    NextFold(s, a, p, it, 0);
    forall x: nat
      ensures EverSaves(states[..|p| + 2], passes[..|p| + 1], x, s.countSummary)
              <==> SavesInRun(s, trace[..n], x) || Saves(it.at.books, CompactionOf(s, it), x, s.countSummary)
    {
      NextFold(s, a, p, it, x);
    }
    hide StatesOf, PassesOf, CompactionOf;
  }

  /** The folds of a run's passes are those of its iterations. */
  lemma {:induction false} RunFolds(
    s: Setting, env: nat -> Step, limit: int, start: Position, trace: seq<Iteration>)
    requires RunOf(s, env, limit, start, trace) && BooksOk(start.books)
    ensures FoldsOnlyUnsaved(BooksOfRun(s, start.books, trace), PassesOfRun(s, trace), s.countSummary)
            <==> forall k :: 0 <= k < |trace| ==> FoldsNothingSaved(s, start.books, trace, k)
    decreases |trace|
  {
    hide RunOf, BooksOk, FoldsNothingSaved, FoldsUnsaved, StatesOf, PassesOf;
    if trace != [] {
      var n := |trace| - 1;
      RunSplits(s, env, limit, start, trace);
      RunFolds(s, env, limit, start, trace[..n]);
      OnlyTheFold(s, BooksOfRun(s, start.books, trace[..n]), PassesOfRun(s, trace[..n]), trace[n]);
      ItsFold(s, env, limit, start, trace);
      hide FoldsOnlyUnsaved, BooksOfRun, PassesOfRun;
      forall k: nat | k < n
        ensures FoldsNothingSaved(s, start.books, trace[..n], k) <==> FoldsNothingSaved(s, start.books, trace, k)
      {
        SameFold(s, start.books, trace, n, k);
      }
    }
  }

  lemma SameFold(s: Setting, start: Books, trace: seq<Iteration>, n: nat, k: nat)
    requires k < n <= |trace|
    ensures FoldsNothingSaved(s, start, trace[..n], k) <==> FoldsNothingSaved(s, start, trace, k)
  {
    hide SavesInRun, Saves;
    assert trace[..n][k] == trace[k] && trace[..n][..k] == trace[..k];
  }

  lemma NothingGrewInRun(
    s: Setting, env: nat -> Step, limit: int, start: Position, trace: seq<Iteration>)
    requires RunOf(s, env, limit, start, trace) && BooksOk(start.books)
    ensures
      NothingGrew(BooksOfRun(s, start.books, trace), PassesOfRun(s, trace), s.countSummary)
      <==> forall x :: Has(Final(start, trace).books.turns, x) ==> ExactAt(start.books, x) && !GrowsInRun(s, trace, x)
  {
    hide RunOf, BooksOk, EverGrows, GrowsInRun, BooksOfRun, PassesOfRun, ExactAt, Steps;
    RunPasses(s, env, limit, start, trace);
    forall x: nat
      ensures EverGrows(BooksOfRun(s, start.books, trace), PassesOfRun(s, trace), x, s.countSummary)
              <==> GrowsInRun(s, trace, x)
    {
      RunGrows(s, env, limit, start, trace, x);
    }
  }

  lemma FinalIsLast(start: Position, trace: seq<Iteration>)
    ensures Final(start, trace).books == LastBooks(start.books, trace)
  {
  }

  /**
   After a run the total is at least the net reduction of the calls in the session, and equals it if and only if no call
   left was ever given a longer summary and nothing with savings to its name was folded away, as read off the trace.
   */
  lemma RunNetReduction(s: Setting, env: nat -> Step, limit: int, start: Position, trace: seq<Iteration>)
    requires RunOf(s, env, limit, start, trace) && BooksOk(start.books)
    ensures
      var last := Final(start, trace).books;
      && SumTurns(last.turns, Reduction) <= last.total
      && (last.total == SumTurns(last.turns, Reduction) <==> RunExact(s, start.books, trace))
  {
    hide RunOf, BooksOk, Steps, SumTurns, NothingGrew, FoldsOnlyUnsaved, FoldsNothingSaved, ExactAt, GrowsInRun, Has;
    hide BooksOfRun, PassesOfRun;
    RunPasses(s, env, limit, start, trace);
    TotalIsNetReduction(BooksOfRun(s, start.books, trace), PassesOfRun(s, trace), s.countSummary);
    NothingGrewInRun(s, env, limit, start, trace);
    RunFolds(s, env, limit, start, trace);
    FinalIsLast(start, trace);
  }

  /** Closing or answering pending calls before a run is a pass of its own. */
  lemma OpeningIsPass(b: Books, after: seq<TurnRecord>, upd: ToolCallRecord -> ToolCallRecord, count: string -> nat)
    requires BooksOk(b) && RecordsMapped(b.turns, after, upd)
    requires forall r :: upd(r) == r.(rawResponse := upd(r).rawResponse)
    ensures PassStep(b, Answering, b.(turns := after), count)
  {
    assert SameCosts(b.turns, after) by { MappedSameCosts(b.turns, after, upd); }
    hide LedgerOk, Ordered, SameCosts, RecordsMapped, PassStep;
    AnsweringStep(b, b.(turns := after), count);
  }

  lemma MappedSameCosts(before: seq<TurnRecord>, after: seq<TurnRecord>, upd: ToolCallRecord -> ToolCallRecord)
    requires RecordsMapped(before, after, upd) && forall r :: upd(r) == r.(rawResponse := upd(r).rawResponse)
    ensures SameCosts(before, after)
  {
  }

  lemma SameCallsAsBefore(before: seq<TurnRecord>, after: seq<TurnRecord>)
    requires SameCosts(before, after)
    ensures forall i, j :: At(before, i, j) <==> At(after, i, j)
    ensures forall i, j :: At(before, i, j) ==>
      Call(after, i, j) == Call(before, i, j).(rawResponse := Call(after, i, j).rawResponse)
  {
  }

  lemma OpenedIsExact(b: Books, after: seq<TurnRecord>, x: nat)
    requires SameCosts(b.turns, after)
    ensures ExactAt(b, x) <==> ExactAt(b.(turns := after), x)
    ensures Has(b.turns, x) <==> Has(after, x)
  {
    SameCallsAsBefore(b.turns, after);
    hide SameCosts;
  }

  /** The same from the books as they were before pending calls were closed or answered. */
  lemma OpenedRunNetReduction(
    s: Setting, env: nat -> Step, limit: int, b: Books, start: Position, trace: seq<Iteration>,
    upd: ToolCallRecord -> ToolCallRecord)
    requires RunOf(s, env, limit, start, trace) && BooksOk(b)
    requires start.books == b.(turns := start.books.turns) && RecordsMapped(b.turns, start.books.turns, upd)
    requires forall r :: upd(r) == r.(rawResponse := upd(r).rawResponse)
    ensures
      var last := Final(start, trace).books;
      && SumTurns(last.turns, Reduction) <= last.total
      && (last.total == SumTurns(last.turns, Reduction) <==> RunExact(s, b, trace))
  {
    hide RunOf, BooksOk, SumTurns, RecordsMapped, PassStep;
    OpeningIsPass(b, start.books.turns, upd, s.countSummary);
    StepKeepsBooks(b, Answering, start.books, s.countSummary);
    RunNetReduction(s, env, limit, start, trace);
    assert SameCosts(b.turns, start.books.turns) by { AnsweringMeans(b, start.books, s.countSummary); }
    ExactFromBoth(s, b, start.books.turns, trace);
  }

  lemma AnsweringMeans(a: Books, b: Books, count: string -> nat)
    requires PassStep(a, Answering, b, count)
    ensures SameCosts(a.turns, b.turns)
  {
  }

  lemma ExactFromBoth(s: Setting, b: Books, after: seq<TurnRecord>, trace: seq<Iteration>)
    requires SameCosts(b.turns, after)
    ensures RunExact(s, b, trace) <==> RunExact(s, b.(turns := after), trace)
  {
    hide GrowsInRun, SavesInRun, Saves, SameCosts, ExactAt, Has;
    forall x: nat
      ensures ExactAt(b, x) <==> ExactAt(b.(turns := after), x)
      ensures Has(b.turns, x) <==> Has(after, x)
    {
      OpenedIsExact(b, after, x);
    }
    var b' := b.(turns := after);
    assert forall k :: 0 <= k < |trace| ==>
      (FoldsNothingSaved(s, b, trace, k) <==> FoldsNothingSaved(s, b', trace, k));
    hide FoldsNothingSaved;
    assert trace != [] ==> LastBooks(b, trace) == LastBooks(b', trace);
  }
}
