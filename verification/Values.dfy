/**
 YAML values as the manifest loader delivers them, and the recursive merge of defaults into a spec
 (nexus/orchestration/resolver.py). A dictionary is the list of its entries in insertion order.
 */
module Values {
  import opened Text

  datatype Value =
    | Null
    | Truth(flag: bool)
    | Number(n: int)
    | Str(s: string)
    | List(items: seq<Value>)
    | Dict(entries: seq<Entry>)

  datatype Entry = Entry(key: string, value: Value)

  type Entries = seq<Entry>

  ghost predicate DistinctKeys(d: Entries) {
    forall i, j :: 0 <= i < j < |d| ==> d[i].key != d[j].key
  }

  predicate HasKey(d: Entries, key: string) {
    exists i :: 0 <= i < |d| && d[i].key == key
  }

  /** `d.get(key)`. */
  function Get(d: Entries, key: string): (r: Option<Value>)
    ensures r == None <==> !HasKey(d, key)
    ensures r.Some? ==> Entry(key, r.value) in d
  {
    if d == [] then None
    else if d[0].key == key then Some(d[0].value)
    else
      assert forall i :: 1 <= i < |d| ==> d[i] == d[1..][i - 1];
      Get(d[1..], key)
  }

  /** `d[key] = value`: the key keeps its place, a new one goes last. */
  function Set(d: Entries, key: string, value: Value): (r: Entries)
    ensures |r| == if HasKey(d, key) then |d| else |d| + 1
    ensures forall i :: 0 <= i < |d| ==> r[i].key == d[i].key
    ensures |r| > |d| ==> r[|d|].key == key
  {
    if d == [] then [Entry(key, value)]
    else if d[0].key == key then [Entry(key, value)] + d[1..]
    else
      assert forall i :: 1 <= i < |d| ==> d[i] == d[1..][i - 1];
      [d[0]] + Set(d[1..], key, value)
  }

  lemma {:induction false} SetGet(d: Entries, key: string, value: Value, other: string)
    ensures Get(Set(d, key, value), other) == if other == key then Some(value) else Get(d, other)
  {
    if d != [] && d[0].key != key {
      SetGet(d[1..], key, value, other);
      assert Set(d, key, value)[1..] == Set(d[1..], key, value);
    } else if d != [] {
      assert Set(d, key, value)[1..] == d[1..];
    }
  }

  lemma SetKeepsDistinct(d: Entries, key: string, value: Value)
    requires DistinctKeys(d)
    ensures DistinctKeys(Set(d, key, value))
  {
  }

  // ---------- deep_merge ----------

  /** One override entry: dictionaries merge, anything else replaces. */
  function Combined(current: Option<Value>, value: Value): Value
    decreases value, 0
  {
    if current.Some? && current.value.Dict? && value.Dict?
    then Dict(DeepMerge(current.value.entries, value.entries)) else value
  }

  function DeepMerge(base: Entries, over: Entries): Entries
    decreases over
  {
    if over == [] then base
    else
      var last := over[|over| - 1];
      var merged := DeepMerge(base, over[..|over| - 1]);
      Set(merged, last.key, Combined(Get(merged, last.key), last.value))
  }

  /** The loop of `deep_merge`. */
  method MergeInto(base: Entries, over: Entries) returns (result: Entries)
    ensures result == DeepMerge(base, over)
    decreases over
  {
    result := base;
    for i := 0 to |over|
      invariant result == DeepMerge(base, over[..i])
    {
      var e := over[i];
      var current := Get(result, e.key);
      var value := e.value;
      if current.Some? && current.value.Dict? && e.value.Dict? {
        var inner := MergeInto(current.value.entries, e.value.entries);
        value := Dict(inner);
      }
      result := Set(result, e.key, value);
      assert over[..i + 1][..i] == over[..i];
    }
    assert over[..|over|] == over;
  }

  /**
   What the merge means, key by key: a key the override does not have keeps the base's value; two dictionaries merge
   recursively; anything else is the override's.
   */
  lemma {:induction false} MergeMeans(base: Entries, over: Entries, key: string)
    requires DistinctKeys(over)
    ensures Get(DeepMerge(base, over), key)
            == if HasKey(over, key) then Some(Combined(Get(base, key), Get(over, key).value)) else Get(base, key)
    decreases |over|
  {
    if over != [] {
      var n := |over| - 1;
      var last := over[n];
      var front := over[..n];
      assert over == front + [last];
      MergeMeans(base, front, key);
      MergeMeans(base, front, last.key);
      SetGet(DeepMerge(base, front), last.key, Combined(Get(DeepMerge(base, front), last.key), last.value), key);
      GetOfExtended(front, last, key);
      assert !HasKey(front, last.key) by {
        assert forall i :: 0 <= i < n ==> front[i].key == over[i].key;
      }
    }
  }

  lemma {:induction false} GetOfExtended(d: Entries, e: Entry, key: string)
    ensures Get(d + [e], key) == if HasKey(d, key) then Get(d, key) else if e.key == key then Some(e.value) else None
    decreases |d|
  {
    if d == [] {
      assert d + [e] == [e];
    } else {
      assert (d + [e])[1..] == d[1..] + [e];
      GetOfExtended(d[1..], e, key);
      assert forall i :: 1 <= i < |d| ==> d[i] == d[1..][i - 1];
    }
  }

  /** Merging keeps the base's keys where they are and adds each new key once. */
  lemma {:induction false} MergeKeepsDistinct(base: Entries, over: Entries)
    requires DistinctKeys(base)
    ensures DistinctKeys(DeepMerge(base, over))
    ensures |DeepMerge(base, over)| >= |base|
    ensures forall i :: 0 <= i < |base| ==> DeepMerge(base, over)[i].key == base[i].key
    decreases |over|
  {
    hide DistinctKeys, Combined, HasKey;
    if over != [] {
      var merged := DeepMerge(base, over[..|over| - 1]);
      var last := over[|over| - 1];
      MergeKeepsDistinct(base, over[..|over| - 1]);
      SetKeepsDistinct(merged, last.key, Combined(Get(merged, last.key), last.value));
    }
  }

  // ---------- The merge at any depth ----------

  /** The value at the end of a path of keys. */
  function Lookup(v: Option<Value>, path: seq<string>): Option<Value>
    decreases |path|
  {
    if path == [] then v
    else if v.Some? && v.value.Dict? then Lookup(Get(v.value.entries, path[0]), path[1..])
    else None
  }

  /** The path runs into something that is not a dictionary. */
  predicate Blocked(v: Option<Value>, path: seq<string>)
    decreases |path|
  {
    path != [] && v.Some? && (!v.value.Dict? || Blocked(Get(v.value.entries, path[0]), path[1..]))
  }

  /** Keys are distinct in a dictionary and in all those inside it. */
  ghost predicate AllDistinct(d: Entries) {
    DistinctKeys(d) && forall i :: 0 <= i < |d| && d[i].value.Dict? ==> AllDistinct(d[i].value.entries)
  }

  /** What is found at a path of the merge, given what the base and the override have there. */
  ghost predicate MergedAt(
    found: Option<Value>, base: Option<Value>, over: Option<Value>, blocked: bool)
  {
    && (over.None? ==> found == if blocked then None else base)
    && (over.Some? && !over.value.Dict? ==> found == over)
    && (over.Some? && over.value.Dict? ==>
          found.Some? && found.value.Dict? && (base.None? || !base.value.Dict? ==> found == over))
  }

  /**
   At any depth: a value of the override that is no dictionary wins; one that is a dictionary leaves a dictionary, its own
   where the base has none; and where the override has nothing the base's value stays, unless the override put something
   else in the way.
   */
  lemma {:induction false} MergeReaches(base: Entries, over: Entries, path: seq<string>)
    requires AllDistinct(over) && path != []
    ensures MergedAt(Lookup(Some(Dict(DeepMerge(base, over))), path), Lookup(Some(Dict(base)), path),
                     Lookup(Some(Dict(over)), path), Blocked(Some(Dict(over)), path))
    decreases |path|
  {
    hide DeepMerge, HasKey, DistinctKeys;
    var key, rest := path[0], path[1..];
    MergeMeans(base, over, key);
    if HasKey(over, key) {
      var current, value := Get(base, key), Get(over, key).value;
      if value.Dict? && current.Some? && current.value.Dict? && rest != [] {
        GetDistinct(over, key);
        MergeReaches(current.value.entries, value.entries, rest);
      }
    }
  }

  lemma GetDistinct(d: Entries, key: string)
    requires AllDistinct(d) && HasKey(d, key) && Get(d, key).value.Dict?
    ensures AllDistinct(Get(d, key).value.entries)
  {
    var i :| 0 <= i < |d| && d[i] == Entry(key, Get(d, key).value);
  }
}
