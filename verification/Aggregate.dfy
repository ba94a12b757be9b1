/**
 Dividing a member's turns among the delegations that caused them (nexus/session/aggregate.py): one pass over the
 delegate calls with a cursor per member.
 */
module Aggregate {
  import opened Text

  datatype Turn = Turn(index: int, timestamp: int)

  datatype DelegateCall = DelegateCall(member: string, timestamp: int)

  datatype Child = Child(member: string, turns: seq<Turn>)

  type Turns = seq<Turn>

  predicate In(t: Turn, start: int, end: Option<int>) {
    start <= t.timestamp && (end.Some? ==> t.timestamp < end.value)
  }

  /** The plain filter: the turns of one interval. */
  function Between(turns: Turns, start: int, end: Option<int>): Turns {
    if turns == [] then []
    else (if In(turns[0], start, end) then [turns[0]] else []) + Between(turns[1..], start, end)
  }

  /** What is left are the turns of the half-open interval, each as often as it is there. */
  lemma {:induction false} BetweenMeans(turns: Turns, start: int, end: Option<int>, t: Turn)
    ensures multiset(Between(turns, start, end))[t]
            == if t.timestamp >= start && (end == None || t.timestamp < end.value) then multiset(turns)[t] else 0
  {
    if turns != [] {
      BetweenMeans(turns[1..], start, end, t);
      FirstIn(turns, start, end);
      assert turns == [turns[0]] + turns[1..];
      hide Between;
    }
  }

  /** Skip what is too early, stop at the first that is too late. */
  function Scanned(turns: Turns, start: int, end: Option<int>): Turns {
    if turns == [] then []
    else if turns[0].timestamp < start then Scanned(turns[1..], start, end)
    else if end.Some? && turns[0].timestamp >= end.value then []
    else [turns[0]] + Scanned(turns[1..], start, end)
  }

  method Scan(turns: Turns, start: int, end: Option<int>) returns (sliced: Turns)
    ensures sliced == Scanned(turns, start, end)
  {
    sliced := [];
    for i := 0 to |turns|
      invariant sliced + Scanned(turns[i..], start, end) == Scanned(turns, start, end)
    {
      assert turns[i..][1..] == turns[i + 1..];
      if turns[i].timestamp < start {
        continue;
      }
      if end.Some? && turns[i].timestamp >= end.value {
        return;
      }
      ghost var rest := Scanned(turns[i + 1..], start, end);
      assert sliced + ([turns[i]] + rest) == sliced + [turns[i]] + rest;
      sliced := sliced + [turns[i]];
    }
  }

  /** The end of call `i`'s interval: the next call of any member. */
  function EndOf(calls: seq<DelegateCall>, i: nat): Option<int> {
    if i + 1 < |calls| then Some(calls[i + 1].timestamp) else None
  }

  /** What the children should be: each call of a known member with the turns of its interval. */
  function Children(sessions: map<string, Turns>, calls: seq<DelegateCall>, n: nat): seq<Child>
    requires n <= |calls|
  {
    if n == 0 then []
    else
      var c := calls[n - 1];
      Children(sessions, calls, n - 1)
      + if c.member in sessions then [Child(c.member, Between(sessions[c.member], c.timestamp, EndOf(calls, n - 1)))] else []
  }

  ghost predicate InOrder(turns: Turns) {
    forall i, j :: 0 <= i <= j < |turns| ==> turns[i].timestamp <= turns[j].timestamp
  }

  ghost predicate CallsInOrder(calls: seq<DelegateCall>) {
    forall i, j :: 0 <= i <= j < |calls| ==> calls[i].timestamp <= calls[j].timestamp
  }

  /** How many turns at the front are before `time`. */
  function Before(turns: Turns, time: int): (n: nat)
    ensures n <= |turns|
  {
    if turns == [] || turns[0].timestamp >= time then 0 else 1 + Before(turns[1..], time)
  }

  lemma {:induction false} BeforeSplits(turns: Turns, time: int)
    requires InOrder(turns)
    ensures forall i :: 0 <= i < |turns| ==> (turns[i].timestamp < time <==> i < Before(turns, time))
  {
    if turns != [] && turns[0].timestamp < time {
      BeforeSplits(turns[1..], time);
      forall i | 0 <= i < |turns| ensures turns[i].timestamp < time <==> i < Before(turns, time) {
        if i > 0 {
          assert turns[i] == turns[1..][i - 1];
        }
      }
    }
  }

  lemma BeforeMonotone(turns: Turns, earlier: int, later: int)
    requires InOrder(turns) && earlier <= later
    ensures Before(turns, earlier) <= Before(turns, later)
  {
    BeforeSplits(turns, earlier);
    BeforeSplits(turns, later);
    var n := Before(turns, later);
    if n < |turns| {
      assert turns[n].timestamp >= later;
    }
  }

  lemma {:induction false} ScanIsFilter(turns: Turns, start: int, end: Option<int>)
    requires InOrder(turns)
    ensures Scanned(turns, start, end) == Between(turns, start, end)
  {
    if turns != [] {
      ScanIsFilter(turns[1..], start, end);
      if end.Some? && turns[0].timestamp >= end.value {
        NothingLate(turns, start, end);
      }
    }
  }

  lemma {:induction false} NothingLate(turns: Turns, start: int, end: Option<int>)
    requires InOrder(turns) && end.Some? && (turns != [] ==> turns[0].timestamp >= end.value)
    ensures Between(turns, start, end) == []
  {
    if turns != [] {
      NothingLate(turns[1..], start, end);
    }
  }

  /** Turns before the interval can be dropped first. */
  lemma {:induction false} SkipEarly(turns: Turns, cursor: nat, start: int, end: Option<int>)
    requires InOrder(turns) && cursor <= Before(turns, start)
    ensures Between(turns[cursor..], start, end) == Between(turns, start, end)
    decreases cursor
  {
    if cursor > 0 {
      SkipEarly(turns[1..], cursor - 1, start, end);
      assert turns[cursor..] == turns[1..][cursor - 1..];
    } else {
      assert turns[0..] == turns;
    }
  }

  /** The interval has as many turns as lie between its ends. */
  lemma {:induction false} BetweenCount(turns: Turns, start: int, end: int)
    requires InOrder(turns) && start <= end
    ensures Before(turns, start) + |Between(turns, start, Some(end))| <= Before(turns, end)
  {
    if turns != [] {
      BetweenCount(turns[1..], start, end);
      if turns[0].timestamp >= end {
        NothingLate(turns, start, Some(end));
      }
      if turns[0].timestamp >= start {
        assert Before(turns[1..], start) == 0 by {
          if |turns| > 1 {
            assert turns[0].timestamp <= turns[1].timestamp;
          }
        }
      }
    }
  }

  function CursorOf(cursors: map<string, nat>, member: string): nat {
    if member in cursors then cursors[member] else 0
  }

  /** No cursor has passed a turn that call `i` could claim. */
  ghost predicate CursorsSafe(sessions: map<string, Turns>, calls: seq<DelegateCall>, cursors: map<string, nat>, i: nat) {
    i < |calls| ==>
      forall member :: member in sessions ==>
        CursorOf(cursors, member) <= Before(sessions[member], calls[i].timestamp)
  }

  ghost predicate SessionsInOrder(sessions: map<string, Turns>) {
    forall member :: member in sessions ==> InOrder(sessions[member])
  }

  lemma CursorsAdvance(sessions: map<string, Turns>, calls: seq<DelegateCall>, cursors: map<string, nat>, i: nat,
                       cursors': map<string, nat>)
    requires SessionsInOrder(sessions) && CallsInOrder(calls) && i < |calls| && CursorsSafe(sessions, calls, cursors, i)
    requires
      var c := calls[i];
      cursors' == if c.member in sessions
                  then cursors[c.member := CursorOf(cursors, c.member)
                                           + |Between(sessions[c.member], c.timestamp, EndOf(calls, i))|]
                  else cursors
    ensures CursorsSafe(sessions, calls, cursors', i + 1)
  {
    if i + 1 < |calls| {
      var now, next := calls[i].timestamp, calls[i + 1].timestamp;
      forall member | member in sessions ensures CursorOf(cursors', member) <= Before(sessions[member], next) {
        if member == calls[i].member {
          BetweenCount(sessions[member], now, next);
        } else {
          BeforeMonotone(sessions[member], now, next);
        }
      }
    }
  }

  // ---------- The pass with cursors ----------

  datatype Progress = Progress(children: seq<Child>, cursors: map<string, nat>)

  function From(turns: Turns, cursor: nat): Turns {
    if cursor <= |turns| then turns[cursor..] else []
  }

  /** The first `n` calls, each scanning its member's turns from the member's cursor. */
  function Built(sessions: map<string, Turns>, calls: seq<DelegateCall>, n: nat): Progress
    requires n <= |calls|
  {
    if n == 0 then Progress([], map[])
    else
      var p := Built(sessions, calls, n - 1);
      var c := calls[n - 1];
      if c.member !in sessions then p
      else
        var cursor := CursorOf(p.cursors, c.member);
        var turns := Scanned(From(sessions[c.member], cursor), c.timestamp, EndOf(calls, n - 1));
        Progress(p.children + [Child(c.member, turns)], p.cursors[c.member := cursor + |turns|])
  }

  /** The children of the supervisor's node; an empty scan is repeated, to the same effect. */
  method BuildChildren(sessions: map<string, Turns>, calls: seq<DelegateCall>) returns (children: seq<Child>)
    ensures children == Built(sessions, calls, |calls|).children
  {
    children := [];
    var cursors: map<string, nat> := map[];
    for i := 0 to |calls|
      invariant Progress(children, cursors) == Built(sessions, calls, i)
    {
      var c := calls[i];
      if c.member !in sessions {
        continue;
      }
      var next := EndOf(calls, i);
      var cursor := CursorOf(cursors, c.member);
      var rest := From(sessions[c.member], cursor);
      var childTurns := Scan(rest, c.timestamp, next);
      if childTurns == [] {
        childTurns := Scan(rest, c.timestamp, next);
      }
      cursors := cursors[c.member := cursor + |childTurns|];
      children := children + [Child(c.member, childTurns)];
    }
  }

  lemma NextChild(sessions: map<string, Turns>, calls: seq<DelegateCall>, cursors: map<string, nat>, i: nat)
    requires SessionsInOrder(sessions) && i < |calls| && calls[i].member in sessions
    requires CursorsSafe(sessions, calls, cursors, i)
    ensures
      var c := calls[i];
      var turns, cursor := sessions[c.member], CursorOf(cursors, c.member);
      Scanned(From(turns, cursor), c.timestamp, EndOf(calls, i)) == Between(turns, c.timestamp, EndOf(calls, i))
  {
    hide Scanned, Between, CursorOf, Before;
    var c, next := calls[i], EndOf(calls, i);
    var turns, cursor := sessions[c.member], CursorOf(cursors, c.member);
    assert cursor <= Before(turns, c.timestamp);
    SkipEarly(turns, cursor, c.timestamp, next);
    ScanIsFilter(turns[cursor..], c.timestamp, next);
  }

  /**
   When the delegations and each member's turns are in time order, the cursors change nothing: every child holds
   exactly the member's turns of its interval.
   */
  lemma {:induction false} CursorsChangeNothing(sessions: map<string, Turns>, calls: seq<DelegateCall>, n: nat)
    requires SessionsInOrder(sessions) && CallsInOrder(calls) && n <= |calls|
    ensures Built(sessions, calls, n).children == Children(sessions, calls, n)
    ensures CursorsSafe(sessions, calls, Built(sessions, calls, n).cursors, n)
  {
    hide Scanned, Between, CursorOf, From, SessionsInOrder, CallsInOrder, EndOf;
    if n == 0 {
      NoCursors(sessions, calls);
    } else {
      hide CursorsSafe;
      CursorsChangeNothing(sessions, calls, n - 1);
      var p := Built(sessions, calls, n - 1);
      if calls[n - 1].member in sessions {
        NextChild(sessions, calls, p.cursors, n - 1);
      }
      CursorsAdvance(sessions, calls, p.cursors, n - 1, Built(sessions, calls, n).cursors);
    }
  }

  lemma NoCursors(sessions: map<string, Turns>, calls: seq<DelegateCall>)
    ensures CursorsSafe(sessions, calls, map[], 0)
  {
  }

  // ---------- Turns out of order ----------

  /** No turn of the interval stands behind one that is at or past its end. */
  ghost predicate NothingBehind(turns: Turns, start: int, end: Option<int>) {
    forall i, j :: 0 <= i < j < |turns| && end.Some? && turns[i].timestamp >= end.value ==> !In(turns[j], start, end)
  }

  lemma {:induction false} NoneBetween(turns: Turns, start: int, end: Option<int>)
    ensures Between(turns, start, end) == [] <==> forall j :: 0 <= j < |turns| ==> !In(turns[j], start, end)
  {
    if turns != [] {
      NoneBetween(turns[1..], start, end);
      assert forall j :: 1 <= j < |turns| ==> turns[j] == turns[1..][j - 1];
      assert forall j :: 0 <= j < |turns| - 1 ==> turns[1..][j] == turns[j + 1];
    }
  }

  lemma BehindSplits(turns: Turns, start: int, end: Option<int>)
    requires turns != []
    ensures NothingBehind(turns, start, end)
            <==> NothingBehind(turns[1..], start, end)
                 && (end.Some? && turns[0].timestamp >= end.value ==> Between(turns[1..], start, end) == [])
  {
    NoneBetween(turns[1..], start, end);
    assert forall j :: 1 <= j < |turns| ==> turns[j] == turns[1..][j - 1];
    assert forall j :: 0 <= j < |turns| - 1 ==> turns[1..][j] == turns[j + 1];
    hide In, Between;
  }

  /** The scan finds the whole interval exactly when nothing of it is behind a turn that ends the scan. */
  lemma {:induction false} ScanExact(turns: Turns, start: int, end: Option<int>)
    ensures Scanned(turns, start, end) == Between(turns, start, end) <==> NothingBehind(turns, start, end)
    ensures |Scanned(turns, start, end)| <= |Between(turns, start, end)|
  {
    if turns != [] {
      ScanExact(turns[1..], start, end);
      BehindSplits(turns, start, end);
      hide NothingBehind;
      var scanned, all := Scanned(turns[1..], start, end), Between(turns[1..], start, end);
      if turns[0].timestamp < start {
        if end.Some? && turns[0].timestamp >= end.value {
          NoneBetween(turns[1..], start, end);
          assert forall t :: !In(t, start, end);
        }
        assert Between(turns, start, end) == [] + all == all;
      } else if end.None? || turns[0].timestamp < end.value {
        assert ([turns[0]] + scanned)[1..] == scanned && ([turns[0]] + all)[1..] == all;
      } else {
        assert Between(turns, start, end) == [] + all == all;
      }
    }
  }

  lemma {:induction false} BetweenConcat(a: Turns, b: Turns, start: int, end: Option<int>)
    ensures Between(a + b, start, end) == Between(a, start, end) + Between(b, start, end)
  {
    hide *;
    if a == [] {
      assert a + b == b;
      NoneIn(start, end);
    } else {
      assert (a + b)[1..] == a[1..] + b && (a + b)[0] == a[0];
      BetweenConcat(a[1..], b, start, end);
      FirstIn(a, start, end);
      FirstIn(a + b, start, end);
      var own := if In(a[0], start, end) then [a[0]] else [];
      assert own + (Between(a[1..], start, end) + Between(b, start, end))
          == own + Between(a[1..], start, end) + Between(b, start, end);
    }
  }

  lemma NoneIn(start: int, end: Option<int>)
    ensures Between([], start, end) == []
  {
  }

  lemma FirstIn(turns: Turns, start: int, end: Option<int>)
    requires turns != []
    ensures Between(turns, start, end)
            == (if In(turns[0], start, end) then [turns[0]] else []) + Between(turns[1..], start, end)
  {
  }

  /**
   A child that is built holds the whole interval of its call exactly when its member's cursor has passed no turn of
   that interval and none is behind a turn that ends the scan.
   */
  lemma ChildExact(sessions: map<string, Turns>, calls: seq<DelegateCall>, n: nat)
    requires 0 < n <= |calls| && calls[n - 1].member in sessions
    ensures
      var c, next := calls[n - 1], EndOf(calls, n - 1);
      var turns, children := sessions[c.member], Built(sessions, calls, n).children;
      var cursor := CursorOf(Built(sessions, calls, n - 1).cursors, c.member);
      && children != [] && children[|children| - 1].member == c.member
      && (children[|children| - 1].turns == Between(turns, c.timestamp, next)
          <==> && NothingBehind(From(turns, cursor), c.timestamp, next)
               && Between(turns[..if cursor <= |turns| then cursor else |turns|], c.timestamp, next) == [])
  {
    var c, next := calls[n - 1], EndOf(calls, n - 1);
    var turns := sessions[c.member];
    var cursor := CursorOf(Built(sessions, calls, n - 1).cursors, c.member);
    var passed := turns[..if cursor <= |turns| then cursor else |turns|];
    assert turns == passed + From(turns, cursor);
    BetweenConcat(passed, From(turns, cursor), c.timestamp, next);
    ScanExact(From(turns, cursor), c.timestamp, next);
    hide NothingBehind, Between, Scanned;
  }

  /** Out of order, a turn inside an interval can end up under no delegation. */
  lemma OutOfOrderLosesATurn()
    ensures
      var sessions := map["m" := [Turn(0, 10), Turn(1, 5)]];
      var calls := [DelegateCall("m", 4), DelegateCall("m", 8)];
      && CallsInOrder(calls) && In(Turn(1, 5), 4, EndOf(calls, 0))
      && Built(sessions, calls, 2).children == [Child("m", []), Child("m", [Turn(0, 10)])]
  {
    var turns := [Turn(0, 10), Turn(1, 5)];
    var sessions := map["m" := turns];
    var calls := [DelegateCall("m", 4), DelegateCall("m", 8)];
    assert turns[1..] == [Turn(1, 5)] && turns[1..][1..] == [] && turns[0..] == turns;
    assert Scanned(turns, 4, Some(8)) == [];
    assert Scanned(turns[1..], 8, None) == [];
    assert Scanned(turns, 8, None) == [Turn(0, 10)];
    hide Scanned;
    assert Built(sessions, calls, 0) == Progress([], map[]);
    assert Built(sessions, calls, 1) == Progress([Child("m", [])], map["m" := 0]);
  }

  lemma {:induction false} BetweenIn(turns: Turns, start: int, end: Option<int>, t: Turn)
    requires t in Between(turns, start, end)
    ensures t in turns && In(t, start, end)
  {
    if !(In(turns[0], start, end) && t == turns[0]) {
      BetweenIn(turns[1..], start, end, t);
    }
  }

  lemma {:induction false} ScannedIn(turns: Turns, start: int, end: Option<int>, t: Turn)
    requires t in Scanned(turns, start, end)
    ensures t in turns && In(t, start, end)
  {
    if t != turns[0] || turns[0].timestamp < start {
      ScannedIn(turns[1..], start, end, t);
    }
  }

  ghost predicate Disjoint(children: seq<Child>) {
    forall k, l, t :: 0 <= k < l < |children| && t in children[k].turns ==> t !in children[l].turns
  }

  /** Every turn that the children hold is earlier than this. */
  ghost predicate AllBefore(children: seq<Child>, end: Option<int>) {
    end.Some? ==> forall k, t :: 0 <= k < |children| && t in children[k].turns ==> t.timestamp < end.value
  }

  /** No turn appears under two delegations, in whatever order the members' turns are. */
  lemma {:induction false} NoTurnTwice(sessions: map<string, Turns>, calls: seq<DelegateCall>, n: nat)
    requires CallsInOrder(calls) && n <= |calls|
    ensures Disjoint(Built(sessions, calls, n).children)
    ensures n > 0 ==> AllBefore(Built(sessions, calls, n).children, EndOf(calls, n - 1))
  {
    if n > 0 {
      NoTurnTwice(sessions, calls, n - 1);
      var p := Built(sessions, calls, n - 1);
      var c, next := calls[n - 1], EndOf(calls, n - 1);
      if c.member in sessions {
        var rest := From(sessions[c.member], CursorOf(p.cursors, c.member));
        forall t | t in Scanned(rest, c.timestamp, next) ensures In(t, c.timestamp, next) {
          ScannedIn(rest, c.timestamp, next, t);
        }
      }
      hide Scanned;
    }
  }

  /** The intervals themselves are disjoint. */
  lemma IntervalsDisjoint(turns: Turns, calls: seq<DelegateCall>, i: nat, j: nat, t: Turn)
    requires CallsInOrder(calls) && i < j < |calls|
    requires t in Between(turns, calls[i].timestamp, EndOf(calls, i))
    ensures t !in Between(turns, calls[j].timestamp, EndOf(calls, j))
  {
    BetweenIn(turns, calls[i].timestamp, EndOf(calls, i), t);
    assert t.timestamp < calls[i + 1].timestamp <= calls[j].timestamp;
    if t in Between(turns, calls[j].timestamp, EndOf(calls, j)) {
      BetweenIn(turns, calls[j].timestamp, EndOf(calls, j), t);
    }
  }
}
