/**
 Assembling streamed tool calls from deltas (nexus/runner/agent_runner.py): an accumulator per call index, updated in
 place, and the list of calls built from it at the end.
 */
module StreamAssembly {
  import opened Text

  /** A missing field and an empty one are treated alike, so both are the empty string here. */
  datatype Delta = Delta(index: int, id: string, name: string, arguments: string, fnName: string, fnArguments: string)

  datatype Partial = Partial(id: string, name: string, arguments: string)

  const EMPTY := Partial("", "", "")

  /** Arguments that are not JSON give the same empty input as no arguments. */
  datatype Input = NoInput | Json(text: string)

  datatype ToolCall = ToolCall(id: string, name: string, input: Input)

  type Accumulated = map<int, Partial>

  function Or(a: string, b: string): string {
    if a != "" then a else b
  }

  function At(acc: Accumulated, index: int): Partial {
    if index in acc then acc[index] else EMPTY
  }

  // ---------- What a run of deltas says about one index ----------

  /** The last non-empty id, the last non-empty name, and all arguments in order. */
  function Assembled(deltas: seq<Delta>, index: int): Partial {
    if deltas == [] then EMPTY
    else
      var before := Assembled(deltas[..|deltas| - 1], index);
      var d := deltas[|deltas| - 1];
      if d.index != index then before
      else Partial(Or(d.id, before.id), Or(d.fnName, Or(d.name, before.name)), before.arguments + d.arguments + d.fnArguments)
  }

  function Indices(deltas: seq<Delta>): set<int> {
    set i | 0 <= i < |deltas| :: deltas[i].index
  }

  ghost predicate Holds(acc: Accumulated, deltas: seq<Delta>) {
    acc.Keys == Indices(deltas) && forall index :: index in acc ==> acc[index] == Assembled(deltas, index)
  }

  lemma OneMoreDelta(deltas: seq<Delta>, d: Delta)
    ensures Indices(deltas + [d]) == Indices(deltas) + {d.index}
    ensures forall index ::
              Assembled(deltas + [d], index)
              == var before := Assembled(deltas, index);
                 if d.index != index then before
                 else Partial(Or(d.id, before.id), Or(d.fnName, Or(d.name, before.name)),
                              before.arguments + d.arguments + d.fnArguments)
  {
    var all := deltas + [d];
    assert all[..|deltas|] == deltas;
    assert all[|deltas|].index == d.index;
    assert forall i :: 0 <= i < |deltas| ==> all[i] == deltas[i];
  }

  class Accumulator {
    var calls: Accumulated

    constructor ()
      ensures calls == map[]
    {
      calls := map[];
    }

    /** Merge one delta; `deltas` are those merged before. */
    method Merge(d: Delta, ghost deltas: seq<Delta>)
      requires Holds(calls, deltas)
      modifies this
      ensures Holds(calls, deltas + [d])
    {
      ghost var before := calls;
      ghost var all := deltas + [d];
      if d.index !in calls {
        AbsentIsEmpty(deltas, d.index);
        calls := calls[d.index := EMPTY];
      }
      var entry := calls[d.index];
      if d.id != "" {
        entry := entry.(id := d.id);
      }
      if d.name != "" {
        entry := entry.(name := d.name);
      }
      entry := entry.(arguments := entry.arguments + d.arguments);
      if d.fnName != "" {
        entry := entry.(name := d.fnName);
      }
      entry := entry.(arguments := entry.arguments + d.fnArguments);
      calls := calls[d.index := entry];
      OneMoreDelta(deltas, d);
      hide Assembled, Indices;
    }

    /** The call of one index, if it has a name, with its id filled in. */
    method Close(index: int, isJson: string -> bool) returns (call: seq<ToolCall>)
      requires index in calls
      modifies this
      ensures call == CallOf(old(calls), index, isJson)
      ensures calls == if old(calls)[index].name == "" then old(calls)
                       else old(calls)[index := Named(old(calls)[index], index)]
    {
      call := [];
      if calls[index].name != "" {
        calls := calls[index := Named(calls[index], index)];
        var tc := calls[index];
        call := [ToolCall(tc.id, tc.name, InputOf(tc.arguments, isJson))];
      }
    }

    /** The calls in index order; the generated ids are written back. */
    method Build(isJson: string -> bool) returns (toolCalls: seq<ToolCall>)
      modifies this
      ensures toolCalls == Calls(old(calls), isJson) && AreCalls(toolCalls, old(calls), isJson)
      ensures calls == WithIds(old(calls), old(calls.Keys))
    {
      toolCalls := [];
      var rest := calls.Keys;
      hide Sorted, WithIds, CallOf, CallsOver, Least, Named, InputOf;
      hide AreCalls;
      CallsMean(calls, isJson);
      assert calls == WithIds(calls, calls.Keys - rest) by { NoIds(calls); }
      while rest != {}
        invariant rest <= old(calls.Keys)
        invariant calls == WithIds(old(calls), old(calls.Keys) - rest)
        invariant toolCalls + CallsOver(old(calls), Sorted(rest), isJson) == Calls(old(calls), isJson)
        decreases rest
      {
        assert Least(rest) in rest;
        var index: int :| index in rest && forall other :: other in rest ==> index <= other;
        NextCall(old(calls), rest, index, isJson);
        NextId(old(calls), old(calls.Keys) - rest, index, isJson);
        var call := Close(index, isJson);
        toolCalls := toolCalls + call;
        assert old(calls.Keys) - (rest - {index}) == old(calls.Keys) - rest + {index};
        rest := rest - {index};
      }
      assert old(calls.Keys) - rest == old(calls.Keys);
      assert CallsOver(old(calls), Sorted(rest), isJson) == [] by { NoCalls(old(calls), isJson); }
    }
  }

  // ---------- The list of calls ----------

  function Signed(n: int): string {
    if n < 0 then "-" + Decimal(-n) else Decimal(n)
  }

  function Named(p: Partial, index: int): Partial {
    if p.id == "" then p.(id := "call_stream_" + Signed(index)) else p
  }

  /** Missing ids filled in for the named calls among `done`. */
  function WithIds(acc: Accumulated, done: set<int>): Accumulated {
    map index | index in acc :: if index in done && acc[index].name != "" then Named(acc[index], index) else acc[index]
  }

  lemma NoIds(acc: Accumulated)
    ensures acc == WithIds(acc, acc.Keys - acc.Keys)
  {
  }

  lemma NextId(acc: Accumulated, done: set<int>, index: int, isJson: string -> bool)
    requires index in acc && index !in done
    ensures WithIds(acc, done).Keys == acc.Keys && WithIds(acc, done)[index] == acc[index]
    ensures WithIds(acc, done + {index})
            == if acc[index].name == "" then WithIds(acc, done) else WithIds(acc, done)[index := Named(acc[index], index)]
    ensures CallOf(WithIds(acc, done), index, isJson) == CallOf(acc, index, isJson)
  {
  }

  function InputOf(arguments: string, isJson: string -> bool): Input {
    if arguments != "" && isJson(arguments) then Json(arguments) else NoInput
  }

  lemma Inhabited(s: set<int>)
    ensures s == {} || exists x :: x in s
  {
    if forall x :: x !in s {
      assert s == {};
    }
  }

  ghost function Least(s: set<int>): (m: int)
    requires s != {}
    ensures m in s && forall x :: x in s ==> m <= x
    decreases |s|
  {
    Inhabited(s);
    var x: int :| x in s;
    if s == {x} then x
    else
      assert s == s - {x} + {x};
      var m := Least(s - {x});
      if m < x then m else x
  }

  ghost function Sorted(s: set<int>): seq<int>
    decreases |s|
  {
    if s == {} then [] else [Least(s)] + Sorted(s - {Least(s)})
  }

  function CallOf(acc: Accumulated, index: int, isJson: string -> bool): seq<ToolCall> {
    var p := At(acc, index);
    if p.name == "" then [] else [ToolCall(Named(p, index).id, p.name, InputOf(p.arguments, isJson))]
  }

  /** One call for every index that has a name. */
  function CallsOver(acc: Accumulated, order: seq<int>, isJson: string -> bool): seq<ToolCall> {
    if order == [] then [] else CallOf(acc, order[0], isJson) + CallsOver(acc, order[1..], isJson)
  }

  lemma NoCalls(acc: Accumulated, isJson: string -> bool)
    ensures CallsOver(acc, Sorted({}), isJson) == []
  {
  }

  lemma NextCall(acc: Accumulated, rest: set<int>, index: int, isJson: string -> bool)
    requires index in rest && forall other :: other in rest ==> index <= other
    ensures CallsOver(acc, Sorted(rest), isJson)
            == CallOf(acc, index, isJson) + CallsOver(acc, Sorted(rest - {index}), isJson)
  {
    assert Sorted(rest) == [index] + Sorted(rest - {index});
  }

  ghost function Calls(acc: Accumulated, isJson: string -> bool): seq<ToolCall> {
    CallsOver(acc, Sorted(acc.Keys), isJson)
  }

  lemma {:induction false} AbsentIsEmpty(deltas: seq<Delta>, index: int)
    requires index !in Indices(deltas)
    ensures Assembled(deltas, index) == EMPTY
  {
    if deltas != [] {
      var front := deltas[..|deltas| - 1];
      assert deltas[|deltas| - 1].index in Indices(deltas);
      assert forall i :: 0 <= i < |front| ==> front[i] == deltas[i];
      AbsentIsEmpty(front, index);
    }
  }

  // ---------- Independence ----------

  function NamedIn(acc: Accumulated, s: set<int>): set<int> {
    set index | index in s && At(acc, index).name != ""
  }

  /** Indices without a name do not matter. */
  lemma {:induction false} OnlyNamedCount(acc: Accumulated, s: set<int>, isJson: string -> bool)
    ensures CallsOver(acc, Sorted(s), isJson) == CallsOver(acc, Sorted(NamedIn(acc, s)), isJson)
    decreases |s|
  {
    if s == {} {
      assert NamedIn(acc, s) == {};
    } else {
      var m := Sorted(s)[0];
      assert Sorted(s)[1..] == Sorted(s - {m});
      OnlyNamedCount(acc, s - {m}, isJson);
      if At(acc, m).name == "" {
        assert NamedIn(acc, s) == NamedIn(acc, s - {m});
      } else {
        var named := NamedIn(acc, s);
        assert m in named;
        var first := Sorted(named)[0];
        assert first == m;
        assert Sorted(named)[1..] == Sorted(named - {m});
        assert named - {m} == NamedIn(acc, s - {m});
      }
    }
  }

  lemma {:induction false} SameEntriesSameCalls(acc: Accumulated, bcc: Accumulated, order: seq<int>, isJson: string -> bool)
    requires forall index :: At(acc, index) == At(bcc, index)
    ensures CallsOver(acc, order, isJson) == CallsOver(bcc, order, isJson)
  {
    if order != [] {
      SameEntriesSameCalls(acc, bcc, order[1..], isJson);
    }
  }

  /**
   Two streams that agree, index by index, on the last id, the last name and the concatenated arguments give the same
   list of calls, however the arguments were cut up and however the calls were interleaved.
   */
  lemma ChunkingDoesNotMatter(acc: Accumulated, a: seq<Delta>, bcc: Accumulated, b: seq<Delta>, isJson: string -> bool)
    requires Holds(acc, a) && Holds(bcc, b)
    requires forall index :: Assembled(a, index) == Assembled(b, index)
    ensures Calls(acc, isJson) == Calls(bcc, isJson)
  {
    forall index ensures At(acc, index) == Assembled(a, index) == At(bcc, index) {
      if index !in acc {
        AbsentIsEmpty(a, index);
      }
      if index !in bcc {
        AbsentIsEmpty(b, index);
      }
    }
    OnlyNamedCount(acc, acc.Keys, isJson);
    OnlyNamedCount(bcc, bcc.Keys, isJson);
    assert NamedIn(acc, acc.Keys) == NamedIn(bcc, bcc.Keys) by {
      assert forall index :: At(acc, index).name != "" ==> index in acc;
      assert forall index :: At(bcc, index).name != "" ==> index in bcc;
    }
    SameEntriesSameCalls(acc, bcc, Sorted(NamedIn(acc, acc.Keys)), isJson);
  }

  function Only(deltas: seq<Delta>, index: int): seq<Delta> {
    if deltas == [] then []
    else
      var before := Only(deltas[..|deltas| - 1], index);
      var d := deltas[|deltas| - 1];
      if d.index == index then before + [d] else before
  }

  lemma {:induction false} AssembledFromOnly(deltas: seq<Delta>, index: int)
    ensures Assembled(deltas, index) == Assembled(Only(deltas, index), index)
  {
    if deltas != [] {
      var d := deltas[|deltas| - 1];
      AssembledFromOnly(deltas[..|deltas| - 1], index);
      if d.index == index {
        var all := Only(deltas, index);
        assert all[..|all| - 1] == Only(deltas[..|deltas| - 1], index);
      }
    }
  }

  /** Any interleaving of the same per-index streams gives the same calls. */
  lemma InterleavingDoesNotMatter(acc: Accumulated, a: seq<Delta>, bcc: Accumulated, b: seq<Delta>, isJson: string -> bool)
    requires Holds(acc, a) && Holds(bcc, b)
    requires forall index :: Only(a, index) == Only(b, index)
    ensures Calls(acc, isJson) == Calls(bcc, isJson)
  {
    forall index ensures Assembled(a, index) == Assembled(b, index) {
      AssembledFromOnly(a, index);
      AssembledFromOnly(b, index);
    }
    ChunkingDoesNotMatter(acc, a, bcc, b, isJson);
  }

  /** Cutting one delta's arguments in two changes nothing. */
  lemma {:induction false} CutDoesNotMatter(
    before: seq<Delta>, d: Delta, front: string, back: string, after: seq<Delta>, index: int)
    requires d.arguments == front + back
    ensures
      var first, second := Delta(d.index, d.id, d.name, front, "", ""), Delta(d.index, "", "", back, d.fnName, d.fnArguments);
      Assembled(before + [d] + after, index) == Assembled(before + [first, second] + after, index)
    decreases |after|
  {
    var first, second := Delta(d.index, d.id, d.name, front, "", ""), Delta(d.index, "", "", back, d.fnName, d.fnArguments);
    var whole, cut := before + [d] + after, before + [first, second] + after;
    if after == [] {
      assert whole[..|before|] == before && whole[|before|] == d;
      assert cut[..|cut| - 1] == before + [first] && (before + [first])[..|before|] == before;
      var p := Assembled(before, index).arguments;
      assert p + front + "" + back + d.fnArguments == p + d.arguments + d.fnArguments;
    } else {
      var n := |after| - 1;
      assert whole[..|whole| - 1] == before + [d] + after[..n];
      assert cut[..|cut| - 1] == before + [first, second] + after[..n];
      CutDoesNotMatter(before, d, front, back, after[..n], index);
    }
  }

  // ---------- What the calls hold ----------

  function GivesId(index: int): Delta -> bool {
    (d: Delta) => d.index == index && d.id != ""
  }

  function GivesName(index: int): Delta -> bool {
    (d: Delta) => d.index == index && (d.name != "" || d.fnName != "")
  }

  ghost predicate LastWhere(deltas: seq<Delta>, p: Delta -> bool, k: int) {
    0 <= k < |deltas| && p(deltas[k]) && forall l :: k < l < |deltas| ==> !p(deltas[l])
  }

  ghost predicate NoneWhere(deltas: seq<Delta>, p: Delta -> bool) {
    forall k :: 0 <= k < |deltas| ==> !p(deltas[k])
  }

  lemma OneMoreWhere(front: seq<Delta>, d: Delta, p: Delta -> bool)
    ensures p(d) ==> !NoneWhere(front + [d], p) && forall k :: LastWhere(front + [d], p, k) <==> k == |front|
    ensures !p(d) ==>
              && (NoneWhere(front + [d], p) <==> NoneWhere(front, p))
              && forall k :: LastWhere(front + [d], p, k) <==> LastWhere(front, p, k)
  {
    var all := front + [d];
    assert all[|front|] == d && forall k :: 0 <= k < |front| ==> all[k] == front[k];
  }

  /** The last id given for the index, if there is any. */
  ghost predicate IsIdOf(id: string, deltas: seq<Delta>, index: int) {
    && (forall k :: LastWhere(deltas, GivesId(index), k) ==> id == deltas[k].id)
    && (NoneWhere(deltas, GivesId(index)) ==> id == "")
  }

  /** The last name given for the index, if there is any; in one delta the function block's goes first. */
  ghost predicate IsNameOf(name: string, deltas: seq<Delta>, index: int) {
    && (forall k :: LastWhere(deltas, GivesName(index), k) && deltas[k].fnName != "" ==> name == deltas[k].fnName)
    && (forall k :: LastWhere(deltas, GivesName(index), k) && deltas[k].fnName == "" ==> name == deltas[k].name)
    && (NoneWhere(deltas, GivesName(index)) ==> name == "")
  }

  lemma {:induction false} AssembledMeans(deltas: seq<Delta>, index: int)
    ensures IsIdOf(Assembled(deltas, index).id, deltas, index) && IsNameOf(Assembled(deltas, index).name, deltas, index)
  {
    if deltas != [] {
      var n := |deltas| - 1;
      var front, d := deltas[..n], deltas[n];
      assert deltas == front + [d];
      AssembledMeans(front, index);
      IdOfLonger(front, d, index);
      NameOfLonger(front, d, index);
      hide IsIdOf, IsNameOf;
    }
  }

  lemma IdOfLonger(front: seq<Delta>, d: Delta, index: int)
    requires IsIdOf(Assembled(front, index).id, front, index)
    ensures IsIdOf(Assembled(front + [d], index).id, front + [d], index)
  {
    OneMoreWhere(front, d, GivesId(index));
    OneMoreDelta(front, d);
    LastIsThere(front, GivesId(index));
    hide LastWhere, NoneWhere, Assembled, Indices;
    assert forall k :: 0 <= k < |front| ==> (front + [d])[k] == front[k];
  }

  lemma NameOfLonger(front: seq<Delta>, d: Delta, index: int)
    requires IsNameOf(Assembled(front, index).name, front, index)
    ensures IsNameOf(Assembled(front + [d], index).name, front + [d], index)
  {
    OneMoreWhere(front, d, GivesName(index));
    OneMoreDelta(front, d);
    LastIsThere(front, GivesName(index));
    hide LastWhere, NoneWhere, Assembled, Indices;
    assert forall k :: 0 <= k < |front| ==> (front + [d])[k] == front[k];
  }

  lemma LastIsThere(deltas: seq<Delta>, p: Delta -> bool)
    ensures forall k :: LastWhere(deltas, p, k) ==> 0 <= k < |deltas|
  {
  }

  /** The arguments of a stream are those of its parts, one after the other, and of one delta its two pieces. */
  lemma {:induction false} ArgumentsConcat(a: seq<Delta>, b: seq<Delta>, index: int)
    ensures Assembled(a + b, index).arguments == Assembled(a, index).arguments + Assembled(b, index).arguments
    decreases |b|
  {
    if b == [] {
      assert a + b == a;
    } else {
      var n := |b| - 1;
      var front, d := b[..n], b[n];
      assert b == front + [d] && a + b == (a + front) + [d];
      ArgumentsConcat(a, front, index);
      OneMoreDelta(front, d);
      OneMoreDelta(a + front, d);
      hide Assembled, Indices;
      var x, y := Assembled(a, index).arguments, Assembled(front, index).arguments;
      assert x + (y + d.arguments + d.fnArguments) == x + y + d.arguments + d.fnArguments;
    }
  }

  lemma ArgumentsOfOne(d: Delta, index: int)
    ensures Assembled([d], index).arguments == if d.index == index then d.arguments + d.fnArguments else ""
  {
    assert [d][..0] == [];
  }

  ghost predicate Increasing(order: seq<int>) {
    forall i, j :: 0 <= i < j < |order| ==> order[i] < order[j]
  }

  /** The call is that of the entry: its id or one made from the index, its name, and its arguments if they are JSON. */
  ghost predicate IsCallOf(call: ToolCall, index: int, p: Partial, isJson: string -> bool) {
    && call.name == p.name
    && (p.id != "" ==> call.id == p.id)
    && (p.id == "" && index >= 0 ==> call.id == "call_stream_" + Decimal(index))
    && (p.arguments != "" && isJson(p.arguments) ==> call.input == Json(p.arguments))
    && (p.arguments == "" || !isJson(p.arguments) ==> call.input == NoInput)
  }

  /** One call for each index that got a name, by increasing index. */
  ghost predicate AreCalls(calls: seq<ToolCall>, acc: Accumulated, isJson: string -> bool) {
    exists order ::
      && Increasing(order) && |order| == |calls|
      && (forall index :: index in order <==> index in acc && acc[index].name != "")
      && forall k :: 0 <= k < |calls| ==> order[k] in acc && IsCallOf(calls[k], order[k], acc[order[k]], isJson)
  }

  lemma {:induction false} SortedMeans(s: set<int>)
    ensures Increasing(Sorted(s)) && forall x :: x in Sorted(s) <==> x in s
    decreases |s|
  {
    if s != {} {
      var m := Least(s);
      var rest := Sorted(s - {m});
      SortedMeans(s - {m});
      assert Sorted(s) == [m] + rest;
      assert forall k :: 0 <= k < |rest| ==> rest[k] in rest;
    }
  }

  lemma {:induction false} CallsOfNamed(acc: Accumulated, order: seq<int>, isJson: string -> bool)
    requires forall k :: 0 <= k < |order| ==> order[k] in acc && acc[order[k]].name != ""
    ensures var calls := CallsOver(acc, order, isJson);
            && |calls| == |order|
            && forall k :: 0 <= k < |calls| ==> IsCallOf(calls[k], order[k], acc[order[k]], isJson)
  {
    if order != [] {
      CallsOfNamed(acc, order[1..], isJson);
      CallMeans(acc, order[0], isJson);
      hide CallOf, IsCallOf;
    }
  }

  lemma CallMeans(acc: Accumulated, index: int, isJson: string -> bool)
    requires index in acc && acc[index].name != ""
    ensures |CallOf(acc, index, isJson)| == 1 && IsCallOf(CallOf(acc, index, isJson)[0], index, acc[index], isJson)
  {
    hide Decimal;
  }

  lemma CallsMean(acc: Accumulated, isJson: string -> bool)
    ensures AreCalls(Calls(acc, isJson), acc, isJson)
  {
    hide IsCallOf, CallsOver, Increasing;
    var named := NamedIn(acc, acc.Keys);
    var order := Sorted(named);
    OnlyNamedCount(acc, acc.Keys, isJson);
    SortedMeans(named);
    hide Sorted;
    assert forall k :: 0 <= k < |order| ==> order[k] in order;
    assert forall index :: index in named <==> index in acc && acc[index].name != "";
    CallsOfNamed(acc, order, isJson);
  }
}
