/** The sliding-window rate limiter (nexus/guardrails/cost.py). Times are in seconds. */
module RateLimiters {
  type Times = seq<real>

  /** The times less than a minute before `now`. */
  function Recent(times: Times, now: real): Times {
    if times == [] then []
    else
      var last := times[|times| - 1];
      var rest := Recent(times[..|times| - 1], now);
      if now - last < 60.0 then rest + [last] else rest
  }

  /** They are those, each as often as it is there; nothing else is kept. */
  lemma {:induction false} RecentMeans(times: Times, now: real, t: real)
    ensures multiset(Recent(times, now))[t] == if now - t < 60.0 then multiset(times)[t] else 0
  {
    if times != [] {
      var n := |times| - 1;
      RecentMeans(times[..n], now, t);
      RecentNext(times[..n], times[n], now);
      OneMore(times[..n], times[n]);
      OneMore(Recent(times[..n], now), times[n]);
      assert times == times[..n] + [times[n]];
      hide Recent;
    }
  }

  lemma OneMore(times: Times, t: real)
    ensures multiset(times + [t]) == multiset(times) + multiset{t}
  {
  }

  function At(m: map<string, Times>, key: string): Times {
    if key in m then m[key] else []
  }

  /** One call: which tenant, when, and under which limit. */
  datatype Request = Request(key: string, now: real, max: int)

  /** A tenant's requests, out of those of all tenants. */
  function Of(history: seq<Request>, key: string): seq<Request> {
    if history == [] then []
    else
      var last := history[|history| - 1];
      Of(history[..|history| - 1], key) + if last.key == key then [last] else []
  }

  class RateLimiter {
    var windows: map<string, Times>
    /** Every admission of a tenant, and every call so far. */
    ghost var log: map<string, Times>
    ghost var history: seq<Request>

    ghost predicate Valid()
      reads this
    {
      forall key :: Run(Of(history, key)) == State(At(windows, key), At(log, key))
    }

    constructor ()
      ensures Valid() && windows == map[] && log == map[] && history == []
    {
      windows, log, history := map[], map[], [];
    }

    method Prune(window: Times, now: real) returns (kept: Times)
      ensures kept == Recent(window, now)
    {
      kept := [];
      for i := 0 to |window|
        invariant kept == Recent(window[..i], now)
      {
        assert window[..i + 1][..i] == window[..i];
        if now - window[i] < 60.0 {
          kept := kept + [window[i]];
        }
      }
      assert window[..|window|] == window;
    }

    /**
     One tenant's window is pruned and perhaps extended; the others stay as they are. While the clock does not go back
     for this tenant, the call is refused exactly when the last minute of its full log is full, and no half-open minute
     of that log ever holds more admissions than the largest limit it was asked with.
     */
    method Check(key: string, now: real, maxPerMinute: int) returns (ok: bool)
      requires Valid()
      modifies this
      ensures Valid() && history == old(history) + [Request(key, now, maxPerMinute)]
      ensures log == old(log)[key := At(old(log), key) + if ok then [now] else []]
      ensures ok <==> |Recent(At(old(windows), key), now)| < maxPerMinute
      ensures windows == old(windows)[key := Recent(At(old(windows), key), now) + if ok then [now] else []]
      ensures ClockRuns(Of(history, key)) ==>
                && (ok <==> |Recent(At(old(log), key), now)| < maxPerMinute)
                && forall most: nat, from :: Limited(Of(history, key), most) ==> Within(At(log, key), from) <= most
    {
      var window := Prune(At(windows, key), now);
      OfNext(history, Request(key, now, maxPerMinute));
      hide Of, Recent, Run, ClockRuns, Limited, Within;
      RunNext(Of(history, key), Request(key, now, maxPerMinute));
      history := history + [Request(key, now, maxPerMinute)];
      LogIsLimited(Of(old(history), key), Request(key, now, maxPerMinute));
      ok := |window| < maxPerMinute;
      log := log[key := At(log, key) + if ok then [now] else []];
      if |window| >= maxPerMinute {
        windows := windows[key := window];
        assert window + [] == window;
        return false;
      }
      windows := windows[key := window + [now]];
      return true;
    }
  }

  lemma OfNext(history: seq<Request>, c: Request)
    ensures forall key :: Of(history + [c], key) == if c.key == key then Of(history, key) + [c] else Of(history, key)
  {
    assert (history + [c])[..|history|] == history;
  }

  // ---------- Runs of one tenant ----------

  /** The window and the full admission log. */
  datatype State = State(window: Times, log: Times)

  /** One tenant's calls, in this order. */
  function Run(checks: seq<Request>): State {
    if checks == [] then State([], [])
    else
      var s := Run(checks[..|checks| - 1]);
      var c := checks[|checks| - 1];
      var window := Recent(s.window, c.now);
      if |window| < c.max then State(window + [c.now], s.log + [c.now]) else State(window, s.log)
  }

  /** The clock does not go back. */
  ghost predicate ClockRuns(checks: seq<Request>) {
    forall i, j :: 0 <= i <= j < |checks| ==> checks[i].now <= checks[j].now
  }

  /** No limit asked for is above `most`. */
  ghost predicate Limited(checks: seq<Request>, most: nat) {
    forall i :: 0 <= i < |checks| ==> checks[i].max <= most
  }

  /** If it does not go back for all calls together, it does not for those of one tenant. */
  lemma {:induction false} ClockRunsForEach(history: seq<Request>, key: string)
    requires ClockRuns(history)
    ensures ClockRuns(Of(history, key))
    ensures forall c :: c in Of(history, key) ==> c in history
    decreases |history|
  {
    if history != [] {
      var n := |history| - 1;
      ClockRunsForEach(history[..n], key);
      var rest := Of(history[..n], key);
      forall i | 0 <= i < |rest| ensures rest[i].now <= history[n].now {
        assert rest[i] in rest && rest[i] in history[..n];
      }
    }
  }

  /** What was pruned at one time stays pruned at a later one. */
  lemma {:induction false} RecentOfRecent(times: Times, earlier: real, now: real)
    requires earlier <= now
    ensures Recent(Recent(times, earlier), now) == Recent(times, now)
    decreases |times|
  {
    if times != [] {
      var n := |times| - 1;
      RecentOfRecent(times[..n], earlier, now);
      if earlier - times[n] < 60.0 {
        var kept := Recent(times, earlier);
        assert kept[..|kept| - 1] == Recent(times[..n], earlier);
      }
    }
  }

  /** While the clock does not go back, the pruned window is the recent part of the full log. */
  lemma {:induction false} WindowIsRecentLog(checks: seq<Request>)
    requires ClockRuns(checks) && checks != []
    ensures var s := Run(checks); s.window == Recent(s.log, checks[|checks| - 1].now)
    ensures
      var before := Run(checks[..|checks| - 1]);
      Recent(before.window, checks[|checks| - 1].now) == Recent(before.log, checks[|checks| - 1].now)
    decreases |checks|
  {
    var n := |checks| - 1;
    var now := checks[n].now;
    var before := Run(checks[..n]);
    if n > 0 {
      WindowIsRecentLog(checks[..n]);
      RecentOfRecent(before.log, checks[n - 1].now, now);
    }
    RecentNext(before.log, now, now);
    RecentOfRecent(before.log, now, now);
  }

  /** How many lie in the minute that starts at `from`. */
  function Within(times: Times, from: real): nat {
    if times == [] then 0
    else
      var last := times[|times| - 1];
      Within(times[..|times| - 1], from) + if from <= last < from + 60.0 then 1 else 0
  }

  lemma {:induction false} WithinRecent(times: Times, from: real, now: real)
    requires now < from + 60.0
    ensures Within(times, from) <= |Recent(times, now)|
  {
    if times != [] {
      WithinRecent(times[..|times| - 1], from, now);
    }
  }

  /** With a clock that never goes back, no half-open minute ever holds more admissions than the limit. */
  lemma {:induction false} NeverMoreThanMax(checks: seq<Request>, most: nat, from: real)
    requires ClockRuns(checks) && Limited(checks, most)
    ensures Within(Run(checks).log, from) <= most
    decreases |checks|
  {
    if checks != [] {
      var n := |checks| - 1;
      var now := checks[n].now;
      var before := Run(checks[..n]);
      NeverMoreThanMax(checks[..n], most, from);
      WindowIsRecentLog(checks);
      assert (before.log + [now])[..|before.log|] == before.log;
      if now < from + 60.0 {
        WithinRecent(before.log, from, now);
      }
    }
  }

  /** And a check is refused only when the last minute of the full log already holds that many. */
  lemma RefusedOnlyWhenFull(checks: seq<Request>, c: Request)
    requires ClockRuns(checks + [c])
    ensures
      var before := Run(checks);
      && Recent(before.window, c.now) == Recent(before.log, c.now)
      && Run(checks + [c]).log == if |Recent(before.log, c.now)| < c.max then before.log + [c.now] else before.log
  {
    assert (checks + [c])[..|checks|] == checks;
    WindowIsRecentLog(checks + [c]);
  }

  lemma LogIsLimited(checks: seq<Request>, c: Request)
    ensures ClockRuns(checks + [c]) ==> Recent(Run(checks).window, c.now) == Recent(Run(checks).log, c.now)
    ensures ClockRuns(checks + [c]) ==>
              forall most: nat, from :: Limited(checks + [c], most) ==> Within(Run(checks + [c]).log, from) <= most
  {
    if ClockRuns(checks + [c]) {
      RefusedOnlyWhenFull(checks, c);
      forall most: nat, from | Limited(checks + [c], most)
        ensures Within(Run(checks + [c]).log, from) <= most
      {
        NeverMoreThanMax(checks + [c], most, from);
      }
    }
  }

  /** Whatever the other tenants do in between, a tenant of a limiter never exceeds its limit in any half-open minute. */
  lemma EachTenantIsLimited(limiter: RateLimiter, key: string, most: nat, from: real)
    requires limiter.Valid() && ClockRuns(limiter.history) && Limited(Of(limiter.history, key), most)
    ensures Within(At(limiter.log, key), from) <= most
  {
    ClockRunsForEach(limiter.history, key);
    NeverMoreThanMax(Of(limiter.history, key), most, from);
  }

  /**
   A clock that steps back breaks the bound: with a limit of two, checks at t, t, a minute later, and again t are all
   admitted, three of them within the same minute.
   */
  lemma ClockStepBreaksTheBound(key: string, t: real, u: real)
    requires u >= t + 60.0
    ensures
      var a, b := Request(key, t, 2), Request(key, u, 2);
      Within(Run([] + [a] + [a] + [b] + [a]).log, t) == 3
  {
    var a, b := Request(key, t, 2), Request(key, u, 2);
    hide Run, Within, Recent;
    RunNext([], a);
    RunNext([] + [a], a);
    RunNext([] + [a] + [a], b);
    RunNext([] + [a] + [a] + [b], a);
    RunNone();
    RecentNext([], t, t);
    RecentNext([], t, u);
    RecentNext([] + [t], t, u);
    RecentNext([], u, t);
    assert [] + [u] == [u];
    var two: Times := [] + [t] + [t];
    WithinNext([], t, t);
    WithinNext([] + [t], t, t);
    WithinNext(two, u, t);
    WithinNext(two + [u], t, t);
  }

  /** A limiter that lets a third call of the same minute through. */
  method ThreeUnderTwo() returns (limiter: RateLimiter)
    ensures limiter.Valid() && limiter.history == [] + [Request("t", 0.0, 2)] + [Request("t", 0.0, 2)]
                                                  + [Request("t", 60.0, 2)] + [Request("t", 0.0, 2)]
    ensures Within(At(limiter.log, "t"), 0.0) == 3
  {
    hide Run, Within, Recent, ClockRuns;
    limiter := new RateLimiter();
    var ok := limiter.Check("t", 0.0, 2);
    ok := limiter.Check("t", 0.0, 2);
    ok := limiter.Check("t", 60.0, 2);
    ok := limiter.Check("t", 0.0, 2);
    ClockStepBreaksTheBound("t", 0.0, 60.0);
    var c, d := Request("t", 0.0, 2), Request("t", 60.0, 2);
    OfNext([], c);
    OfNext([] + [c], c);
    OfNext([] + [c] + [c], d);
    OfNext([] + [c] + [c] + [d], c);
  }

  lemma RunNext(front: seq<Request>, c: Request)
    ensures
      var s := Run(front);
      var window := Recent(s.window, c.now);
      Run(front + [c])
      == if |window| < c.max then State(window + [c.now], s.log + [c.now]) else State(window, s.log)
  {
    assert (front + [c])[..|front|] == front;
  }

  lemma RunNone()
    ensures Run([]) == State([], [])
    ensures forall now :: Recent([], now) == []
    ensures forall from :: Within([], from) == 0
  {
  }

  lemma RecentNext(front: Times, t: real, now: real)
    ensures Recent(front + [t], now) == if now - t < 60.0 then Recent(front, now) + [t] else Recent(front, now)
  {
    assert (front + [t])[..|front|] == front;
  }

  lemma WithinNext(front: Times, t: real, from: real)
    ensures Within(front + [t], from) == Within(front, from) + if from <= t < from + 60.0 then 1 else 0
  {
    assert (front + [t])[..|front|] == front;
  }
}
