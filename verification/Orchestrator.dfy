/**
 Turn accounting of nexus/multiagent/orchestrator.py (non-streaming). A member is an agent or a group; `members`
 stands for the resolved members in the order the group keeps them. Agents, failures and the supervisor's choice of
 delegations are nondeterministic.
 */
module Orchestrator {
  import opened Numbers
  import opened Text

  datatype Pattern = Pipeline | Parallel | Supervisor

  datatype Member =
    | Agent(name: string, maxTurns: nat, maxToolCallsPerTurn: int)
    | Group(name: string, pattern: Pattern, maxTurns: nat, members: seq<Member>, supervisor: Option<string>)

  /** ASCII letters only. */
  function Lower(s: string): (r: string)
    ensures |r| == |s|
    ensures forall k :: 0 <= k < |s| ==> r[k] as int == s[k] as int + if 'A' <= s[k] <= 'Z' then 32 else 0
  {
    seq(|s|, k requires 0 <= k < |s| => if 'A' <= s[k] <= 'Z' then s[k] - 'A' + 'a' else s[k])
  }

  predicate Contains(s: string, part: string) {
    |s| >= |part| && (s[..|part|] == part || (s != "" && Contains(s[1..], part)))
  }

  function FirstNamed(members: seq<Member>, name: string): Option<nat> {
    if members == [] then None
    else if members[0].name == name then Some(0)
    else match FirstNamed(members[1..], name) case None => None case Some(k) => Some(k + 1)
  }

  function FirstLikeSupervisor(members: seq<Member>): Option<nat> {
    if members == [] then None
    else if Contains(Lower(members[0].name), "supervisor") then Some(0)
    else match FirstLikeSupervisor(members[1..]) case None => None case Some(k) => Some(k + 1)
  }

  /** Which member leads a supervisor group: the configured one, else by name, else the first. */
  function SelectSupervisor(members: seq<Member>, supervisor: Option<string>): Option<nat> {
    if supervisor.Some? && supervisor.value != "" then FirstNamed(members, supervisor.value)
    else
      var like := FirstLikeSupervisor(members);
      if like.Some? then like else if members != [] then Some(0) else None
  }

  ghost predicate PartAt(s: string, part: string, i: nat) {
    i + |part| <= |s| && s[i..i + |part|] == part
  }

  lemma {:induction false} ContainsMeans(s: string, part: string)
    ensures Contains(s, part) <==> exists i :: PartAt(s, part, i)
  {
    if |s| >= |part| && s[..|part|] == part {
      assert PartAt(s, part, 0);
    } else if |s| >= |part| && s != "" {
      ContainsMeans(s[1..], part);
      forall i: nat
        ensures PartAt(s, part, i + 1) <==> PartAt(s[1..], part, i)
      {
        LaterPart(s, part, i);
      }
      assert forall i: nat :: PartAt(s, part, i) ==> i > 0;
      if i: nat :| PartAt(s, part, i) {
        assert PartAt(s[1..], part, i - 1) <==> PartAt(s, part, i - 1 + 1);
      }
    }
  }

  lemma LaterPart(s: string, part: string, i: nat)
    requires s != ""
    ensures PartAt(s, part, i + 1) <==> PartAt(s[1..], part, i)
  {
    if i + 1 + |part| <= |s| {
      assert s[1..][i..i + |part|] == s[i + 1..i + 1 + |part|];
    }
  }

  /** The name has the word in it, in letters of either case. */
  ghost predicate LikeSupervisor(name: string) {
    exists i :: PartAt(Lower(name), "supervisor", i)
  }

  predicate Named(name: Option<string>) {
    name.Some? && name.value != ""
  }

  /** The first member with the configured name; with none configured, the first called like one, else the first. */
  ghost predicate IsLeader(members: seq<Member>, supervisor: Option<string>, k: nat) {
    && k < |members|
    && (Named(supervisor) ==>
          members[k].name == supervisor.value && forall i :: 0 <= i < k ==> members[i].name != supervisor.value)
    && (!Named(supervisor) && (exists i :: 0 <= i < |members| && LikeSupervisor(members[i].name)) ==>
          LikeSupervisor(members[k].name) && forall i :: 0 <= i < k ==> !LikeSupervisor(members[i].name))
    && (!Named(supervisor) && (forall i :: 0 <= i < |members| ==> !LikeSupervisor(members[i].name)) ==> k == 0)
  }

  lemma {:induction false} FirstNamedMeans(members: seq<Member>, name: string)
    ensures var k := FirstNamed(members, name);
            && (k.None? ==> forall i :: 0 <= i < |members| ==> members[i].name != name)
            && (k.Some? ==> && k.value < |members| && members[k.value].name == name
                            && forall i :: 0 <= i < k.value ==> members[i].name != name)
  {
    if members != [] {
      FirstNamedMeans(members[1..], name);
      assert forall i :: 1 <= i < |members| ==> members[i] == members[1..][i - 1];
    }
  }

  lemma {:induction false} FirstLikeMeans(members: seq<Member>)
    ensures var k := FirstLikeSupervisor(members);
            && (k.None? ==> forall i :: 0 <= i < |members| ==> !LikeSupervisor(members[i].name))
            && (k.Some? ==> && k.value < |members| && LikeSupervisor(members[k.value].name)
                            && forall i :: 0 <= i < k.value ==> !LikeSupervisor(members[i].name))
  {
    if members != [] {
      ContainsMeans(Lower(members[0].name), "supervisor");
      FirstLikeMeans(members[1..]);
      hide LikeSupervisor, Contains;
      assert Contains(Lower(members[0].name), "supervisor") <==> LikeSupervisor(members[0].name);
      assert forall i :: 1 <= i < |members| ==> members[i] == members[1..][i - 1];
    }
  }

  lemma SelectMeans(members: seq<Member>, supervisor: Option<string>)
    ensures forall k: nat :: SelectSupervisor(members, supervisor) == Some(k) <==> IsLeader(members, supervisor, k)
  {
    hide LikeSupervisor;
    if Named(supervisor) {
      FirstNamedMeans(members, supervisor.value);
    } else {
      FirstLikeMeans(members);
    }
    hide FirstNamed, FirstLikeSupervisor;
  }

  /** The turn limit an agent runs with under a given budget. */
  function AgentLimit(m: Member, budget: int): (limit: nat)
    requires m.Agent?
    ensures limit <= m.maxTurns && (limit <= budget || limit == 0)
    ensures limit == m.maxTurns || limit == budget || budget < 0
  {
    Max(0, Min(m.maxTurns, budget))
  }

  /** How many delegations a supervisor that used `own` of its `limit` turns may have made; none means no cap. */
  function DelegationCap(leader: Member, own: nat, limit: nat): Option<nat>
    requires leader.Agent?
  {
    if leader.maxToolCallsPerTurn <= 0 then None else Some(Min(own + 1, limit) * leader.maxToolCallsPerTurn)
  }

  predicate HasLeader(g: Member)
    requires g.Group?
  {
    var k := SelectSupervisor(g.members, g.supervisor);
    k.Some? && k.value < |g.members| && g.members[k.value].Agent?
  }

  // ---------- Runs ----------

  /** One execution: how many turns each agent used, what failed, and in which order members were delegated to. */
  datatype Run =
    | AgentRun(turns: nat)
    | FailedRun
    | MembersRun(parts: seq<Run>)
    | SupervisedRun(own: nat, delegations: seq<Delegation>)

  datatype Delegation = Delegation(member: nat, run: Run)

  /** The `turns_used` of the result; a failed group reports none, whatever its members did. */
  function Reported(run: Run): nat {
    match run
    case AgentRun(turns) => turns
    case FailedRun => 0
    case MembersRun(parts) => SumParts(parts)
    case SupervisedRun(own, delegations) => own + SumDelegations(delegations)
  }

  function SumParts(parts: seq<Run>): nat {
    if parts == [] then 0 else Reported(parts[0]) + SumParts(parts[1..])
  }

  function SumDelegations(delegations: seq<Delegation>): nat {
    if delegations == [] then 0 else ReportedBy(delegations[0]) + SumDelegations(delegations[1..])
  }

  function ReportedBy(d: Delegation): nat {
    Reported(d.run)
  }

  /** `run` is a run of member `m` that was given `max_turns = budget`. */
  ghost predicate Valid(m: Member, budget: int, run: Run)
    decreases m
  {
    match m
    case Agent(_, _, _) => run.AgentRun? && run.turns <= AgentLimit(m, budget)
    case Group(_, pattern, maxTurns, members, supervisor) =>
      var r := Min(maxTurns, budget);
      || run.FailedRun?
      || match pattern
         case Pipeline => run.MembersRun? && PipelineOk(members, r, run.parts)
         case Parallel => r >= 1 && run.MembersRun? && ParallelOk(members, r, run.parts)
         case Supervisor =>
           && r >= 1 && HasLeader(m) && run.SupervisedRun?
           && var k := SelectSupervisor(members, supervisor).value;
              var limit := AgentLimit(members[k], r);
              && run.own <= limit
              && (var cap := DelegationCap(members[k], run.own, limit); cap.Some? ==> |run.delegations| <= cap.value)
              && DelegationsOk(members, k, r, run.delegations)
  }

  /** Members run one after the other, each with what is left of `r`, until nothing is left. */
  ghost predicate PipelineOk(members: seq<Member>, r: int, parts: seq<Run>)
    decreases members
  {
    if members == [] || r <= 0 then parts == []
    else parts != [] && Valid(members[0], r, parts[0]) && PipelineOk(members[1..], r - Reported(parts[0]), parts[1..])
  }

  /** Every member runs with the same `r`. */
  ghost predicate ParallelOk(members: seq<Member>, r: int, parts: seq<Run>)
    decreases members
  {
    if members == [] then parts == []
    else parts != [] && Valid(members[0], r, parts[0]) && ParallelOk(members[1..], r, parts[1..])
  }

  /** Delegations to members other than `k`, each with what is left of `r`; one that breaks off adds nothing. */
  ghost predicate DelegationsOk(members: seq<Member>, k: nat, r: int, delegations: seq<Delegation>)
    decreases members, |delegations|
  {
    delegations != [] ==>
      var d := delegations[0];
      && r > 0 && d.member < |members| && d.member != k
      && (d.run.FailedRun? || Valid(members[d.member], r, d.run))
      && DelegationsOk(members, k, r - Reported(d.run), delegations[1..])
  }

  // ---------- The largest total ----------

  function MaxOf(top: nat, f: int -> int): int {
    if top == 0 then f(0) else Max(f(top), MaxOf(top - 1, f))
  }

  lemma {:induction false} MaxOfBounds(top: nat, f: int -> int, x: int)
    requires 0 <= x <= top
    ensures f(x) <= MaxOf(top, f)
  {
    if x < top {
      MaxOfBounds(top - 1, f, x);
    }
  }

  lemma {:induction false} MaxOfReached(top: nat, f: int -> int) returns (x: nat)
    ensures x <= top && f(x) == MaxOf(top, f)
  {
    if top == 0 || f(top) == MaxOf(top, f) {
      x := top;
    } else {
      x := MaxOfReached(top - 1, f);
    }
  }

  /** The most turns `m` can report under a budget. */
  function Worst(m: Member, budget: int): int
    decreases m
  {
    match m
    case Agent(_, _, _) => AgentLimit(m, budget)
    case Group(_, pattern, maxTurns, members, supervisor) =>
      var r := Min(maxTurns, budget);
      if r <= 0 then 0
      else match pattern
           case Pipeline => WorstPipeline(members, r)
           case Parallel => WorstParallel(members, r)
           case Supervisor =>
             if !HasLeader(m) then 0
             else
               var k := SelectSupervisor(members, supervisor).value;
               var limit := AgentLimit(members[k], r);
               var cap := DelegationCap(members[k], limit, limit);
               limit + WorstDelegated(members, k, r, if cap.Some? then Min(cap.value, r) else r)
  }

  function WorstPipeline(members: seq<Member>, r: int): int
    decreases members
  {
    if members == [] || r <= 0 then 0
    else MaxOf(Max(0, Worst(members[0], r)), x => x + WorstPipeline(members[1..], r - x))
  }

  function WorstParallel(members: seq<Member>, r: int): int
    decreases members
  {
    if members == [] then 0 else Worst(members[0], r) + WorstParallel(members[1..], r)
  }

  function WorstDelegated(members: seq<Member>, k: nat, r: int, calls: nat): int
    decreases members, calls, |members| + 1
  {
    if r <= 0 || calls == 0 then 0 else BestDelegate(members, k, r, calls, |members|)
  }

  function BestDelegate(members: seq<Member>, k: nat, r: int, calls: nat, i: nat): int
    requires i <= |members| && calls > 0
    decreases members, calls, i
  {
    if i == 0 then 0
    else
      var rest := BestDelegate(members, k, r, calls, i - 1);
      if i - 1 == k then rest
      else Max(rest, MaxOf(Max(0, Worst(members[i - 1], r)), x => x + WorstDelegated(members, k, r - x, calls - 1)))
  }

  // ---------- Reported totals are exactly the numbers up to the largest ----------

  lemma {:induction false} WorstDelegatedMonotone(members: seq<Member>, k: nat, r: int, calls: nat, more: nat)
    requires calls <= more
    ensures 0 <= WorstDelegated(members, k, r, calls) <= WorstDelegated(members, k, r, more)
    decreases more, |members| + 1
  {
    if r > 0 && more > 0 {
      BestDelegateMonotone(members, k, r, calls, more, |members|);
    }
  }

  lemma {:induction false} BestDelegateMonotone(
    members: seq<Member>, k: nat, r: int, calls: nat, more: nat, i: nat)
    requires calls <= more && more > 0 && i <= |members|
    ensures 0 <= BestDelegate(members, k, r, more, i)
    ensures calls > 0 ==> 0 <= BestDelegate(members, k, r, calls, i) <= BestDelegate(members, k, r, more, i)
    decreases more, i
  {
    hide Worst, WorstDelegated, MaxOf;
    if i > 0 {
      BestDelegateMonotone(members, k, r, calls, more, i - 1);
      if calls > 0 && i - 1 != k {
        var top := Max(0, Worst(members[i - 1], r));
        var f := x => x + WorstDelegated(members, k, r - x, calls - 1);
        var g := x => x + WorstDelegated(members, k, r - x, more - 1);
        var x := MaxOfReached(top, f);
        WorstDelegatedMonotone(members, k, r - x, calls - 1, more - 1);
        MaxOfBounds(top, g, x);
      }
    }
  }

  /** One delegation of `used` turns to member `i`, then the best that is left, is no better than the best. */
  lemma {:induction false} BestDelegateBounds(members: seq<Member>, k: nat, r: int, calls: nat, i: nat, d: nat, used: int)
    requires d < i <= |members| && d != k && calls > 0 && 0 <= used <= Max(0, Worst(members[d], r))
    ensures used + WorstDelegated(members, k, r - used, calls - 1) <= BestDelegate(members, k, r, calls, i)
    decreases i
  {
    if d == i - 1 {
      MaxOfBounds(Max(0, Worst(members[d], r)), x => x + WorstDelegated(members, k, r - x, calls - 1), used);
    } else {
      BestDelegateBounds(members, k, r, calls, i - 1, d, used);
    }
  }

  lemma {:induction false} BestDelegateReached(members: seq<Member>, k: nat, r: int, calls: nat, i: nat)
    returns (d: nat, used: nat)
    requires i <= |members| && calls > 0 && BestDelegate(members, k, r, calls, i) > 0
    ensures d < i && d != k && used <= Max(0, Worst(members[d], r))
    ensures BestDelegate(members, k, r, calls, i) == used + WorstDelegated(members, k, r - used, calls - 1)
    decreases i
  {
    var rest := BestDelegate(members, k, r, calls, i - 1);
    if i - 1 == k || BestDelegate(members, k, r, calls, i) == rest {
      d, used := BestDelegateReached(members, k, r, calls, i - 1);
    } else {
      d := i - 1;
      used := MaxOfReached(Max(0, Worst(members[d], r)), x => x + WorstDelegated(members, k, r - x, calls - 1));
    }
  }

  lemma {:induction false} WorstPipelineNonNegative(members: seq<Member>, r: int)
    ensures WorstPipeline(members, r) >= 0
    decreases members
  {
    if members != [] && r > 0 {
      WorstPipelineNonNegative(members[1..], r);
      MaxOfBounds(Max(0, Worst(members[0], r)), x => x + WorstPipeline(members[1..], r - x), 0);
    }
  }

  // No run reports more than the worst case.

  lemma {:induction false} PipelineBound(members: seq<Member>, r: int, parts: seq<Run>)
    requires PipelineOk(members, r, parts)
    ensures SumParts(parts) <= WorstPipeline(members, r)
    decreases members
  {
    if members != [] && r > 0 {
      var first := Reported(parts[0]);
      WorstBound(members[0], r, parts[0]);
      PipelineBound(members[1..], r - first, parts[1..]);
      MaxOfBounds(Max(0, Worst(members[0], r)), x => x + WorstPipeline(members[1..], r - x), first);
    }
  }

  lemma {:induction false} ParallelBound(members: seq<Member>, r: int, parts: seq<Run>)
    requires ParallelOk(members, r, parts)
    ensures SumParts(parts) <= WorstParallel(members, r)
    decreases members
  {
    if members != [] {
      WorstBound(members[0], r, parts[0]);
      ParallelBound(members[1..], r, parts[1..]);
    }
  }

  /** Delegations that use no turns do not help, so at most `r` of them matter. */
  lemma {:induction false} DelegationsBound(
    members: seq<Member>, k: nat, r: int, delegations: seq<Delegation>)
    requires DelegationsOk(members, k, r, delegations)
    ensures SumDelegations(delegations) <= WorstDelegated(members, k, r, Max(0, Min(|delegations|, r)))
    decreases members, |delegations|
  {
    hide Worst;
    var calls := Max(0, Min(|delegations|, r));
    WorstDelegatedMonotone(members, k, r, 0, calls);
    if delegations != [] {
      var d := delegations[0];
      var used := Reported(d.run);
      var left := Max(0, Min(|delegations| - 1, r - used));
      DelegationsBound(members, k, r - used, delegations[1..]);
      if used == 0 {
        WorstDelegatedMonotone(members, k, r, left, calls);
      } else {
        WorstBound(members[d.member], r, d.run);
        WorstDelegatedMonotone(members, k, r - used, left, calls - 1);
        BestDelegateBounds(members, k, r, calls, |members|, d.member, used);
      }
    }
  }

  lemma CapMonotone(leader: Member, own: nat, limit: nat)
    requires leader.Agent? && own <= limit
    ensures var c, all := DelegationCap(leader, own, limit), DelegationCap(leader, limit, limit);
            (c.Some? <==> all.Some?) && (c.Some? ==> c.value <= all.value)
  {
    if leader.maxToolCallsPerTurn > 0 {
      MulMonotone(Min(own + 1, limit), limit, leader.maxToolCallsPerTurn);
      assert Min(limit + 1, limit) == limit;
    }
  }

  lemma MulMonotone(a: int, b: int, n: nat)
    requires a <= b
    ensures a * n <= b * n
  {
  }

  lemma {:induction false} SupervisorBound(m: Member, budget: int, run: Run)
    requires m.Group? && m.pattern == Supervisor && Valid(m, budget, run) && run.SupervisedRun?
    ensures Reported(run) <= Worst(m, budget)
    decreases m, 0
  {
    hide DelegationCap;
    var members, r := m.members, Min(m.maxTurns, budget);
    var k := SelectSupervisor(members, m.supervisor).value;
    var limit := AgentLimit(members[k], r);
    var cap := DelegationCap(members[k], limit, limit);
    CapMonotone(members[k], run.own, limit);
    DelegationsBound(members, k, r, run.delegations);
    WorstDelegatedMonotone(members, k, r, Max(0, Min(|run.delegations|, r)), if cap.Some? then Min(cap.value, r) else r);
  }

  /** No run of a member reports more turns than its worst case. */
  lemma {:induction false} WorstBound(m: Member, budget: int, run: Run)
    requires Valid(m, budget, run)
    ensures Reported(run) <= Worst(m, budget)
    decreases m, 1
  {
    WorstNonNegative(m, budget);
    if m.Group? && !run.FailedRun? {
      var r := Min(m.maxTurns, budget);
      match m.pattern {
        case Pipeline => PipelineBound(m.members, r, run.parts);
        case Parallel => ParallelBound(m.members, r, run.parts);
        case Supervisor => SupervisorBound(m, budget, run);
      }
    }
  }

  lemma {:induction false} WorstParallelNonNegative(members: seq<Member>, r: int)
    ensures WorstParallel(members, r) >= 0
    decreases members
  {
    if members != [] {
      WorstNonNegative(members[0], r);
      WorstParallelNonNegative(members[1..], r);
    }
  }

  lemma {:induction false} WorstNonNegative(m: Member, budget: int)
    ensures Worst(m, budget) >= 0
    decreases m
  {
    hide DelegationCap;
    if m.Group? {
      var r := Min(m.maxTurns, budget);
      WorstPipelineNonNegative(m.members, r);
      WorstParallelNonNegative(m.members, r);
      if r > 0 && HasLeader(m) {
        var k := SelectSupervisor(m.members, m.supervisor).value;
        var limit := AgentLimit(m.members[k], r);
        var cap := DelegationCap(m.members[k], limit, limit);
        WorstDelegatedMonotone(m.members, k, r, 0, if cap.Some? then Min(cap.value, r) else r);
      }
    }
  }

  // Every count up to the worst case is reported by some run.

  lemma {:induction false} PipelineReached(members: seq<Member>, r: int, turns: nat) returns (parts: seq<Run>)
    requires turns <= WorstPipeline(members, r)
    ensures PipelineOk(members, r, parts) && SumParts(parts) == turns
    decreases members
  {
    if members == [] || r <= 0 {
      parts := [];
    } else {
      var best := MaxOfReached(Max(0, Worst(members[0], r)), x => x + WorstPipeline(members[1..], r - x));
      var first: nat := Min(turns, best);
      WorstNonNegative(members[0], r);
      WorstPipelineNonNegative(members[1..], r - first);
      var head := WorstReached(members[0], r, first);
      var tail := PipelineReached(members[1..], r - first, turns - first);
      parts := [head] + tail;
      assert parts[1..] == tail;
    }
  }

  lemma {:induction false} ParallelReached(members: seq<Member>, r: int, turns: nat) returns (parts: seq<Run>)
    requires turns <= WorstParallel(members, r)
    ensures ParallelOk(members, r, parts) && SumParts(parts) == turns
    decreases members
  {
    if members == [] {
      parts := [];
    } else {
      WorstNonNegative(members[0], r);
      var first: nat := Min(turns, Worst(members[0], r));
      WorstParallelNonNegative(members[1..], r);
      var head := WorstReached(members[0], r, first);
      var tail := ParallelReached(members[1..], r, turns - first);
      parts := [head] + tail;
      assert parts[1..] == tail;
    }
  }

  lemma {:induction false} DelegationsReached(members: seq<Member>, k: nat, r: int, calls: nat, turns: nat)
    returns (delegations: seq<Delegation>)
    requires turns <= WorstDelegated(members, k, r, calls)
    ensures DelegationsOk(members, k, r, delegations) && SumDelegations(delegations) == turns && |delegations| <= calls
    decreases members, calls
  {
    if turns == 0 {
      delegations := [];
    } else {
      var d, best := BestDelegateReached(members, k, r, calls, |members|);
      var used: nat := Min(turns, best);
      WorstNonNegative(members[d], r);
      WorstDelegatedMonotone(members, k, r - used, 0, calls - 1);
      var head := WorstReached(members[d], r, used);
      var tail := DelegationsReached(members, k, r - used, calls - 1, turns - used);
      delegations := [Delegation(d, head)] + tail;
      assert delegations[1..] == tail;
    }
  }

  /** For every count up to the worst case there is a run that reports it. */
  lemma {:induction false} WorstReached(m: Member, budget: int, turns: nat) returns (run: Run)
    requires turns <= Worst(m, budget)
    ensures Valid(m, budget, run) && Reported(run) == turns
    decreases m
  {
    hide DelegationCap;
    if m.Agent? {
      run := AgentRun(turns);
    } else if turns == 0 {
      run := FailedRun;
    } else {
      var r := Min(m.maxTurns, budget);
      match m.pattern {
        case Pipeline =>
          var parts := PipelineReached(m.members, r, turns);
          run := MembersRun(parts);
        case Parallel =>
          var parts := ParallelReached(m.members, r, turns);
          run := MembersRun(parts);
        case Supervisor =>
          var k := SelectSupervisor(m.members, m.supervisor).value;
          var limit := AgentLimit(m.members[k], r);
          var cap := DelegationCap(m.members[k], limit, limit);
          var calls: nat := if cap.Some? then Min(cap.value, r) else r;
          var own: nat := Min(turns, limit);
          WorstDelegatedMonotone(m.members, k, r, 0, calls);
          var delegations: seq<Delegation> := [];
          if own == limit {
            delegations := DelegationsReached(m.members, k, r, calls, turns - own);
          }
          run := SupervisedRun(own, delegations);
      }
    }
  }

  /** The documented limit, "total turns across all internal agents", as a promise about a member and a budget. */
  ghost predicate StaysWithinBudget(m: Member, budget: int) {
    forall run :: Valid(m, budget, run) ==> Reported(run) <= budget
  }

  /** The promise holds exactly when the worst case, computed from the configuration, does not exceed the budget. */
  lemma BudgetPromise(m: Member, budget: int)
    ensures StaysWithinBudget(m, budget) <==> Worst(m, budget) <= budget
  {
    WorstNonNegative(m, budget);
    var run := WorstReached(m, budget, Worst(m, budget));
    forall other | Valid(m, budget, other)
      ensures Reported(other) <= Worst(m, budget)
    {
      WorstBound(m, budget, other);
    }
  }

  // ---------- The linear bound ----------

  /** How often the budget can be spent: once per agent, per parallel member, per supervisor and its delegates. */
  function Factor(m: Member): nat
    decreases m
  {
    match m
    case Agent(_, _, _) => 1
    case Group(_, pattern, _, members, supervisor) =>
      match pattern
      case Pipeline => MaxFactor(members, None)
      case Parallel => SumFactor(members)
      case Supervisor => 1 + MaxFactor(members, SelectSupervisor(members, supervisor))
  }

  /** The largest factor of the members, leaving one position out. */
  function MaxFactor(members: seq<Member>, skip: Option<nat>): nat
    decreases members
  {
    if members == [] then 0
    else
      var rest := MaxFactor(members[1..], if skip.Some? && skip.value > 0 then Some(skip.value - 1) else None);
      if skip == Some(0) then rest else Max(Factor(members[0]), rest)
  }

  function SumFactor(members: seq<Member>): nat
    decreases members
  {
    if members == [] then 0 else Factor(members[0]) + SumFactor(members[1..])
  }

  lemma {:induction false} MaxFactorBounds(members: seq<Member>, skip: Option<nat>, i: nat)
    requires i < |members| && skip != Some(i)
    ensures Factor(members[i]) <= MaxFactor(members, skip)
    decreases members
  {
    if i > 0 {
      MaxFactorBounds(members[1..], if skip.Some? && skip.value > 0 then Some(skip.value - 1) else None, i - 1);
    }
  }

  lemma Distribute(a: int, b: int, r: int)
    ensures (a + b) * r == a * r + b * r
  {
  }

  /** `used` turns now and `factor` times what is left is no more than `factor` times everything. */
  lemma SpendThenRest(factor: nat, r: int, used: int, rest: int)
    requires r >= 0 && 0 <= used <= factor * r
    requires rest <= factor * (r - used) || rest == 0
    ensures used + rest <= factor * r
  {
    if factor >= 1 {
      assert factor * (r - used) == factor * r - factor * used;
      assert factor * used >= used;
    } else {
      assert factor * r == 0 && factor * (r - used) == 0;
    }
  }

  lemma {:induction false} PipelineFactor(members: seq<Member>, r: int, factor: nat)
    requires r >= 0 && forall i :: 0 <= i < |members| ==> Factor(members[i]) <= factor
    ensures WorstPipeline(members, r) <= factor * r
    decreases members
  {
    MulMonotone(0, r, factor);
    if members != [] && r > 0 {
      FactorBound(members[0], r);
      MulMonotone(Factor(members[0]), factor, r);
      var f := x => x + WorstPipeline(members[1..], r - x);
      var used := MaxOfReached(Max(0, Worst(members[0], r)), f);
      if used <= r {
        assert forall i :: 0 <= i < |members[1..]| ==> members[1..][i] == members[i + 1];
        PipelineFactor(members[1..], r - used, factor);
      }
      SpendThenRest(factor, r, used, WorstPipeline(members[1..], r - used));
    }
  }

  lemma {:induction false} ParallelFactor(members: seq<Member>, r: int)
    requires r >= 0
    ensures WorstParallel(members, r) <= SumFactor(members) * r
    decreases members
  {
    hide Worst, Factor;
    if members != [] {
      FactorBound(members[0], r);
      ParallelFactor(members[1..], r);
      Distribute(Factor(members[0]), SumFactor(members[1..]), r);
    }
  }

  lemma {:induction false} DelegatedFactor(members: seq<Member>, k: nat, r: int, calls: nat, factor: nat)
    requires r >= 0 && forall i :: 0 <= i < |members| && i != k ==> Factor(members[i]) <= factor
    ensures WorstDelegated(members, k, r, calls) <= factor * r
    decreases members, calls
  {
    MulMonotone(0, r, factor);
    WorstDelegatedMonotone(members, k, r, 0, calls);
    if WorstDelegated(members, k, r, calls) > 0 {
      var d, used := BestDelegateReached(members, k, r, calls, |members|);
      FactorBound(members[d], r);
      MulMonotone(Factor(members[d]), factor, r);
      if used <= r {
        DelegatedFactor(members, k, r - used, calls - 1, factor);
      }
      SpendThenRest(factor, r, used, WorstDelegated(members, k, r - used, calls - 1));
    }
  }

  /** Reported turns never exceed the tree's factor times the budget, caps at inner groups and agents included. */
  lemma {:induction false} FactorBound(m: Member, budget: int)
    requires budget >= 0
    ensures Worst(m, budget) <= Factor(m) * budget
    decreases m
  {
    hide WorstPipeline, WorstParallel, WorstDelegated, SumFactor, MaxFactor, SelectSupervisor, DelegationCap;
    MulMonotone(0, budget, Factor(m));
    if m.Group? && Min(m.maxTurns, budget) > 0 {
      GroupFactor(m, budget);
      MulMonotone(Min(m.maxTurns, budget), budget, Factor(m));
    }
  }

  lemma {:induction false} GroupFactor(m: Member, budget: int)
    requires m.Group? && Min(m.maxTurns, budget) > 0
    ensures Worst(m, budget) <= Factor(m) * Min(m.maxTurns, budget)
    decreases m, 0, 1
  {
    var r := Min(m.maxTurns, budget);
    match m.pattern {
      case Pipeline =>
        forall i | 0 <= i < |m.members| { MaxFactorBounds(m.members, None, i); }
        PipelineFactor(m.members, r, Factor(m));
      case Parallel =>
        ParallelFactor(m.members, r);
      case Supervisor =>
        MulMonotone(0, r, Factor(m));
        if HasLeader(m) {
          SupervisorFactor(m, budget);
        }
    }
  }

  lemma {:induction false} SupervisorFactor(m: Member, budget: int)
    requires m.Group? && m.pattern == Supervisor && Min(m.maxTurns, budget) > 0 && HasLeader(m)
    ensures Worst(m, budget) <= Factor(m) * Min(m.maxTurns, budget)
    decreases m, 0, 0
  {
    hide DelegationCap;
    var r := Min(m.maxTurns, budget);
    var k := SelectSupervisor(m.members, m.supervisor).value;
    var limit := AgentLimit(m.members[k], r);
    var cap := DelegationCap(m.members[k], limit, limit);
    var others := MaxFactor(m.members, Some(k));
    forall i | 0 <= i < |m.members| && i != k { MaxFactorBounds(m.members, Some(k), i); }
    DelegatedFactor(m.members, k, r, if cap.Some? then Min(cap.value, r) else r, others);
    Distribute(1, others, r);
  }

  predicate PipelinesOnly(m: Member)
    decreases m
  {
    m.Group? ==> m.pattern == Pipeline && forall i :: 0 <= i < |m.members| ==> PipelinesOnly(m.members[i])
  }

  lemma {:induction false} PipelinesFactor(m: Member)
    requires PipelinesOnly(m)
    ensures Factor(m) <= 1
    decreases m
  {
    if m.Group? {
      forall i | 0 <= i < |m.members|
        ensures Factor(m.members[i]) <= 1
      {
        PipelinesFactor(m.members[i]);
      }
      MaxFactorAtMost(m.members, 1);
    }
  }

  lemma {:induction false} MaxFactorAtMost(members: seq<Member>, bound: nat)
    requires forall i :: 0 <= i < |members| ==> Factor(members[i]) <= bound
    ensures MaxFactor(members, None) <= bound
    decreases members
  {
    if members != [] {
      MaxFactorAtMost(members[1..], bound);
    }
  }

  /** Pipelines of agents, nested to any depth, keep the documented limit. */
  lemma PipelinesStayWithinBudget(m: Member, budget: int)
    requires PipelinesOnly(m) && budget >= 0
    ensures StaysWithinBudget(m, budget)
  {
    PipelinesFactor(m);
    FactorBound(m, budget);
    MulMonotone(Factor(m), 1, budget);
    BudgetPromise(m, budget);
  }

  /** Parallel groups do not: two agents under a limit of ten turns can use twenty. */
  lemma ParallelExceedsBudget(m: Member)
    requires m == Group("pair", Parallel, 10, [Agent("a", 10, 5), Agent("b", 10, 5)], None)
    ensures Worst(m, 10) == 20 && !StaysWithinBudget(m, 10)
  {
    assert WorstParallel(m.members[1..], 10) == 10;
    BudgetPromise(m, 10);
  }

  /** Neither do supervisor groups: the supervisor's own turns are not charged against the delegates' budget. */
  lemma SupervisorExceedsBudget(m: Member)
    requires m == Group("team", Supervisor, 10, [Agent("supervisor", 10, 5), Agent("helper", 10, 5)], Some("supervisor"))
    ensures exists run :: Valid(m, 10, run) && Reported(run) == 20
  {
    var run := SupervisedRun(10, [Delegation(1, AgentRun(10))]);
    assert SelectSupervisor(m.members, m.supervisor) == Some(0);
    assert run.delegations[1..] == [];
    assert Valid(m.members[1], 10, AgentRun(10));
    assert DelegationsOk(m.members, 0, 10, run.delegations);
    assert SumDelegations(run.delegations) == 10;
    assert Valid(m, 10, run);
  }

  // ---------- Executing a member ----------

  /** The first `i` members have run as `parts` and reported `used`: whatever the rest does completes a run. */
  ghost predicate PipelineSoFar(members: seq<Member>, i: nat, r: int, used: nat, parts: seq<Run>)
    requires i <= |members|
  {
    forall tail :: PipelineOk(members[i..], r - used, tail) ==>
      PipelineOk(members, r, parts + tail) && SumParts(parts + tail) == used + SumParts(tail)
  }

  lemma PipelineStarts(members: seq<Member>, r: int)
    ensures PipelineSoFar(members, 0, r, 0, [])
  {
    hide PipelineOk, SumParts;
    assert members[0..] == members && forall tail: seq<Run> :: [] + tail == tail;
  }

  lemma PipelineExtend(members: seq<Member>, i: nat, r: int, used: nat, parts: seq<Run>, run: Run)
    requires i < |members| && r - used > 0 && Valid(members[i], r - used, run)
    requires PipelineSoFar(members, i, r, used, parts)
    ensures PipelineSoFar(members, i + 1, r, used + Reported(run), parts + [run])
  {
    hide Valid;
    forall tail | PipelineOk(members[i + 1..], r - used - Reported(run), tail)
      ensures PipelineOk(members, r, parts + [run] + tail)
      ensures SumParts(parts + [run] + tail) == used + Reported(run) + SumParts(tail)
    {
      var longer := [run] + tail;
      assert longer[1..] == tail && members[i..][1..] == members[i + 1..];
      assert PipelineOk(members[i..], r - used, longer);
      assert parts + longer == parts + [run] + tail;
    }
  }

  lemma PipelineEnds(members: seq<Member>, i: nat, r: int, used: nat, parts: seq<Run>)
    requires i <= |members| && PipelineSoFar(members, i, r, used, parts) && (i == |members| || r - used <= 0)
    ensures PipelineOk(members, r, parts) && SumParts(parts) == used
  {
    assert PipelineOk(members[i..], r - used, []) && SumParts([]) == 0;
    assert parts + [] == parts;
    hide PipelineOk, SumParts;
  }

  ghost predicate ParallelSoFar(members: seq<Member>, i: nat, r: int, used: nat, parts: seq<Run>)
    requires i <= |members|
  {
    forall tail :: ParallelOk(members[i..], r, tail) ==>
      ParallelOk(members, r, parts + tail) && SumParts(parts + tail) == used + SumParts(tail)
  }

  lemma ParallelStarts(members: seq<Member>, r: int)
    ensures ParallelSoFar(members, 0, r, 0, [])
  {
    hide ParallelOk, SumParts;
    assert members[0..] == members && forall tail: seq<Run> :: [] + tail == tail;
  }

  lemma ParallelExtend(members: seq<Member>, i: nat, r: int, used: nat, parts: seq<Run>, run: Run)
    requires i < |members| && Valid(members[i], r, run)
    requires ParallelSoFar(members, i, r, used, parts)
    ensures ParallelSoFar(members, i + 1, r, used + Reported(run), parts + [run])
  {
    hide Valid;
    forall tail | ParallelOk(members[i + 1..], r, tail)
      ensures ParallelOk(members, r, parts + [run] + tail)
      ensures SumParts(parts + [run] + tail) == used + Reported(run) + SumParts(tail)
    {
      var longer := [run] + tail;
      assert longer[1..] == tail && members[i..][1..] == members[i + 1..];
      assert ParallelOk(members[i..], r, longer);
      assert parts + longer == parts + [run] + tail;
    }
  }

  lemma ParallelEnds(members: seq<Member>, r: int, used: nat, parts: seq<Run>)
    requires ParallelSoFar(members, |members|, r, used, parts)
    ensures ParallelOk(members, r, parts) && SumParts(parts) == used
  {
    assert ParallelOk(members[|members|..], r, []) && SumParts([]) == 0;
    assert parts + [] == parts;
    hide ParallelOk, SumParts;
  }

  ghost predicate DelegatedSoFar(members: seq<Member>, k: nat, r: int, used: nat, done: seq<Delegation>) {
    forall tail :: DelegationsOk(members, k, r - used, tail) ==>
      && DelegationsOk(members, k, r, done + tail)
      && SumDelegations(done + tail) == used + SumDelegations(tail)
  }

  lemma DelegationStarts(members: seq<Member>, k: nat, r: int)
    ensures DelegatedSoFar(members, k, r, 0, [])
  {
    hide DelegationsOk, SumDelegations;
    assert forall tail: seq<Delegation> :: [] + tail == tail;
  }

  lemma DelegationExtend(members: seq<Member>, k: nat, r: int, used: nat, done: seq<Delegation>, d: Delegation)
    requires r - used > 0 && d.member < |members| && d.member != k
    requires d.run.FailedRun? || Valid(members[d.member], r - used, d.run)
    requires DelegatedSoFar(members, k, r, used, done)
    ensures DelegatedSoFar(members, k, r, used + Reported(d.run), done + [d])
  {
    hide Valid, Reported;
    forall tail | DelegationsOk(members, k, r - used - Reported(d.run), tail)
      ensures DelegationsOk(members, k, r, done + [d] + tail)
      ensures SumDelegations(done + [d] + tail) == used + Reported(d.run) + SumDelegations(tail)
    {
      var longer := [d] + tail;
      assert longer[1..] == tail && SumDelegations(longer) == Reported(d.run) + SumDelegations(tail);
      assert DelegationsOk(members, k, r - used, longer);
      assert done + longer == done + [d] + tail;
    }
  }

  lemma DelegationEnds(members: seq<Member>, k: nat, r: int, used: nat, done: seq<Delegation>)
    requires DelegatedSoFar(members, k, r, used, done)
    ensures DelegationsOk(members, k, r, done) && SumDelegations(done) == used
  {
    assert DelegationsOk(members, k, r - used, []) && SumDelegations([]) == 0;
    assert done + [] == done;
    hide DelegationsOk, SumDelegations;
  }

  /** Runs a member under a budget; `run` records what happened and `turnsUsed` is what is reported. */
  method RunMember(m: Member, budget: int) returns (turnsUsed: nat, ghost run: Run)
    ensures Valid(m, budget, run) && turnsUsed == Reported(run)
    ensures turnsUsed <= Worst(m, budget)
    decreases m, 2
  {
    WorstNonNegative(m, budget);
    match m {
      case Agent(_, maxTurns, _) =>
        turnsUsed :| turnsUsed <= AgentLimit(m, budget);
        run := AgentRun(turnsUsed);
      case Group(_, pattern, maxTurns, members, supervisor) =>
        var groupBudget := Min(maxTurns, budget);
        match pattern {
          case Pipeline => turnsUsed, run := RunPipeline(members, groupBudget);
          case Parallel => turnsUsed, run := RunParallel(members, groupBudget);
          case Supervisor => turnsUsed, run := RunSupervisor(m, groupBudget);
        }
    }
    hide Valid, Reported, Worst;
    WorstBound(m, budget, run);
  }

  method RunPipeline(members: seq<Member>, budget: int) returns (turnsUsed: nat, ghost run: Run)
    ensures turnsUsed == Reported(run)
    ensures run.FailedRun? || (run.MembersRun? && PipelineOk(members, budget, run.parts))
    ensures turnsUsed <= WorstPipeline(members, budget)
    decreases members, 0
  {
    hide Worst, WorstPipeline, PipelineOk, PipelineSoFar, SumParts, Valid;
    WorstPipelineNonNegative(members, budget);
    turnsUsed := 0;
    ghost var parts: seq<Run> := [];
    PipelineStarts(members, budget);
    var i := 0;
    while i < |members|
      invariant i <= |members| && PipelineSoFar(members, i, budget, turnsUsed, parts)
    {
      var remaining := budget - turnsUsed;
      if remaining <= 0 {
        break;
      }
      if * {
        return 0, FailedRun;
      }
      var used;
      ghost var memberRun;
      used, memberRun := RunMember(members[i], remaining);
      PipelineExtend(members, i, budget, turnsUsed, parts, memberRun);
      turnsUsed, parts, i := turnsUsed + used, parts + [memberRun], i + 1;
    }
    PipelineEnds(members, i, budget, turnsUsed, parts);
    run := MembersRun(parts);
    PipelineBound(members, budget, parts);
  }

  method RunParallel(members: seq<Member>, budget: int) returns (turnsUsed: nat, ghost run: Run)
    ensures turnsUsed == Reported(run)
    ensures run.FailedRun? || (budget >= 1 && run.MembersRun? && ParallelOk(members, budget, run.parts))
    ensures turnsUsed <= WorstParallel(members, budget)
    decreases members, 0
  {
    WorstParallelNonNegative(members, budget);
    if budget < 1 {
      return 0, FailedRun;
    }
    hide Worst, WorstParallel, ParallelOk, ParallelSoFar, SumParts, Valid;
    turnsUsed := 0;
    ghost var parts: seq<Run> := [];
    ParallelStarts(members, budget);
    for i := 0 to |members|
      invariant ParallelSoFar(members, i, budget, turnsUsed, parts)
    {
      if * {
        return 0, FailedRun;
      }
      var used;
      ghost var memberRun;
      used, memberRun := RunMember(members[i], budget);
      ParallelExtend(members, i, budget, turnsUsed, parts, memberRun);
      turnsUsed, parts := turnsUsed + used, parts + [memberRun];
    }
    ParallelEnds(members, budget, turnsUsed, parts);
    run := MembersRun(parts);
    ParallelBound(members, budget, parts);
  }

  /** The supervisor's own run; its delegate tools add to `turnsUsed` while it is under way. */
  method RunSupervisor(m: Member, budget: int) returns (turnsUsed: nat, ghost run: Run)
    requires m.Group? && m.pattern == Supervisor && budget <= m.maxTurns
    ensures turnsUsed == Reported(run)
    ensures forall b :: Min(m.maxTurns, b) == budget ==> Valid(m, b, run)
    ensures turnsUsed <= Worst(m, budget)
    decreases m, 1
  {
    hide Worst, Valid, SelectSupervisor, AgentLimit, DelegationCap, DelegationsOk, SumDelegations, DelegatedSoFar;
    WorstNonNegative(m, budget);
    FailureIsValid(m, budget);
    var selected := SelectSupervisor(m.members, m.supervisor);
    if selected.None? || selected.value >= |m.members| || !m.members[selected.value].Agent? || budget <= 0 {
      return 0, FailedRun;
    }
    var k := selected.value;
    var limit := AgentLimit(m.members[k], budget);
    var own: nat :| own <= limit;
    var cap := DelegationCap(m.members[k], own, limit);
    var used;
    ghost var done;
    used, done := RunDelegations(m, k, budget, cap);
    if * {
      return 0, FailedRun;
    }
    run := SupervisedRun(own, done);
    turnsUsed := used + own;
    SupervisedIsValid(m, budget, own, done);
    SupervisorBound(m, budget, run);
  }

  /** The delegations that the supervisor's tool calls make while it is under way. */
  method RunDelegations(m: Member, k: nat, budget: int, cap: Option<nat>)
    returns (turnsUsed: nat, ghost done: seq<Delegation>)
    requires m.Group? && k < |m.members|
    ensures cap.Some? ==> |done| <= cap.value
    ensures DelegationsOk(m.members, k, budget, done) && SumDelegations(done) == turnsUsed
    decreases m, 0
  {
    hide Worst, Valid, DelegationsOk, SumDelegations, DelegatedSoFar;
    var calls: nat :| calls >= 0;
    if cap.Some? && calls > cap.value {
      calls := cap.value;
    }
    turnsUsed, done := 0, [];
    DelegationStarts(m.members, k, budget);
    for c := 0 to calls
      invariant |done| <= c && DelegatedSoFar(m.members, k, budget, turnsUsed, done)
    {
      var chosen: nat :| chosen >= 0;
      var remaining := budget - turnsUsed;
      if chosen < |m.members| && chosen != k && remaining > 0 {
        var used: nat := 0;
        ghost var memberRun := FailedRun;
        if * {
          used, memberRun := RunMember(m.members[chosen], remaining);
        }
        DelegationExtend(m.members, k, budget, turnsUsed, done, Delegation(chosen, memberRun));
        turnsUsed, done := turnsUsed + used, done + [Delegation(chosen, memberRun)];
      }
    }
    DelegationEnds(m.members, k, budget, turnsUsed, done);
  }

  lemma FailureIsValid(m: Member, budget: int)
    requires m.Group?
    ensures forall b :: Valid(m, b, FailedRun)
    ensures Reported(FailedRun) == 0
  {
  }

  lemma SupervisedIsValid(m: Member, budget: int, own: nat, done: seq<Delegation>)
    requires m.Group? && m.pattern == Supervisor && 0 < budget <= m.maxTurns && HasLeader(m)
    requires
      var k := SelectSupervisor(m.members, m.supervisor).value;
      var limit := AgentLimit(m.members[k], budget);
      && own <= limit && DelegationsOk(m.members, k, budget, done)
      && var cap := DelegationCap(m.members[k], own, limit); cap.Some? ==> |done| <= cap.value
    ensures forall b :: Min(m.maxTurns, b) == budget ==> Valid(m, b, SupervisedRun(own, done))
    ensures Valid(m, budget, SupervisedRun(own, done))
    ensures Reported(SupervisedRun(own, done)) == own + SumDelegations(done)
  {
    hide SelectSupervisor, AgentLimit, DelegationCap, DelegationsOk, SumDelegations;
  }
}
