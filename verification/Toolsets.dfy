/**
 Toolsets and their includes: expansion by depth-first search with one shared set of names already seen
 (nexus/tools/toolsets.py), against reachability in the include graph.
 */
module Toolsets {
  datatype Toolset = Toolset(includes: seq<string>, tools: seq<string>)

  type Catalog = map<string, Toolset>

  // ---------- The include graph ----------

  /** One include after another. */
  ghost predicate IsPath(g: Catalog, p: seq<string>) {
    && p != []
    && forall i :: 0 <= i < |p| - 1 ==> p[i] in g && p[i + 1] in g[p[i]].includes
  }

  ghost predicate PathFromTo(g: Catalog, p: seq<string>, a: string, b: string) {
    IsPath(g, p) && p[0] == a && p[|p| - 1] == b
  }

  ghost predicate Reach(g: Catalog, a: string, b: string) {
    exists p :: PathFromTo(g, p, a, b)
  }

  /** What a name stands for without its includes: an undefined dotted name is itself a tool. */
  function Own(g: Catalog, name: string): set<string> {
    if name in g then set t | t in g[name].tools else if '.' in name then {name} else {}
  }

  ghost predicate ExpandsTo(g: Catalog, name: string, tools: set<string>) {
    forall t :: t in tools <==> exists n :: Reach(g, name, n) && t in Own(g, n)
  }

  /** A tool comes from a reachable toolset that lists it, or is itself reached as an undefined name with a dot. */
  lemma ExpansionMeans(g: Catalog, name: string, tools: set<string>, t: string)
    requires ExpandsTo(g, name, tools)
    ensures t in tools
            <==> || (exists n :: Reach(g, name, n) && n in g && t in g[n].tools)
                 || (t !in g && (exists k :: 0 <= k < |t| && t[k] == '.') && Reach(g, name, t))
  {
    hide Reach;
  }

  // ---------- Expansion ----------

  /** The names visited so far, shared by every call of one expansion. */
  class SeenSet {
    var names: set<string>

    constructor ()
      ensures names == {}
    {
      names := {};
    }
  }

  /** `tools` are the tools of exactly these names. */
  ghost predicate ToolsOf(g: Catalog, names: set<string>, tools: set<string>) {
    forall t :: t in tools <==> exists n :: n in names && t in Own(g, n)
  }

  /** Every include of a defined one of these names is in `all`. */
  ghost predicate ClosedIn(g: Catalog, names: set<string>, all: set<string>) {
    forall n, c :: n in names && n in g && c in g[n].includes ==> c in all
  }

  ghost predicate AllReached(g: Catalog, name: string, names: set<string>) {
    forall n :: n in names ==> Reach(g, name, n)
  }

  lemma ReachSelf(g: Catalog, a: string)
    ensures Reach(g, a, a)
  {
    assert PathFromTo(g, [a], a, a);
  }

  lemma ReachStep(g: Catalog, a: string, c: string, b: string)
    requires a in g && c in g[a].includes && Reach(g, c, b)
    ensures Reach(g, a, b)
  {
    var p :| PathFromTo(g, p, c, b);
    assert PathFromTo(g, [a] + p, a, b);
  }

  lemma {:induction false} ClosedPath(g: Catalog, names: set<string>, p: seq<string>)
    requires ClosedIn(g, names, names) && IsPath(g, p) && p[0] in names
    ensures p[|p| - 1] in names
  {
    if |p| > 1 {
      assert p[0] in g && p[1] in g[p[0]].includes;
      ClosedPath(g, names, p[1..]);
    }
  }

  lemma ToolsOfUnion(g: Catalog, a: set<string>, ta: set<string>, b: set<string>, tb: set<string>)
    requires ToolsOf(g, a, ta) && ToolsOf(g, b, tb)
    ensures ToolsOf(g, a + b, ta + tb)
  {
  }

  /** Between `before` and `now`, `name` was visited and so was everything its first includes led to. */
  ghost predicate Partly(g: Catalog, name: string, before: set<string>, now: set<string>, out: set<string>) {
    && before + {name} <= now
    && ToolsOf(g, now - before, out)
    && AllReached(g, name, now - before)
    && ClosedIn(g, now - before - {name}, now)
  }

  lemma FirstPart(g: Catalog, name: string, before: set<string>, out: set<string>)
    requires name !in before && forall t :: t in out <==> t in Own(g, name)
    ensures Partly(g, name, before, before + {name}, out)
  {
    ReachSelf(g, name);
    assert before + {name} - before == {name};
    assert {name} - {name} == {};
  }

  lemma NextPart(g: Catalog, name: string, before: set<string>, mid: set<string>, out: set<string>, c: string,
                 now: set<string>, more: set<string>)
    requires Partly(g, name, before, mid, out) && name in g && c in g[name].includes && mid <= now
    requires ToolsOf(g, now - mid, more) && AllReached(g, c, now - mid) && ClosedIn(g, now - mid, now)
    ensures Partly(g, name, before, now, out + more)
  {
    assert now - before == (mid - before) + (now - mid);
    ToolsOfUnion(g, mid - before, out, now - mid, more);
    forall n | n in now - mid ensures Reach(g, name, n) {
      ReachStep(g, name, c, n);
    }
    hide ToolsOf, Reach, Own;
  }

  lemma LastPart(g: Catalog, name: string, before: set<string>, now: set<string>, out: set<string>)
    requires Partly(g, name, before, now, out)
    requires name in g ==> forall c :: c in g[name].includes ==> c in now
    ensures ClosedIn(g, now - before, now)
  {
  }

  /**
   One call: the tools of exactly the names it newly visits, all of them reachable, and afterwards none of those names
   has an unvisited include.
   */
  method ResolveInto(name: string, g: Catalog, seen: SeenSet) returns (out: set<string>)
    modifies seen
    ensures old(seen.names) <= seen.names && name in seen.names
    ensures ToolsOf(g, seen.names - old(seen.names), out)
    ensures AllReached(g, name, seen.names - old(seen.names))
    ensures ClosedIn(g, seen.names - old(seen.names), seen.names)
    decreases |g.Keys - seen.names|
  {
    if name in seen.names {
      return {};
    }
    ghost var before := seen.names;
    seen.names := seen.names + {name};
    if name !in g {
      out := if '.' in name then {name} else {};
      FirstPart(g, name, before, out);
      LastPart(g, name, before, seen.names, out);
      return;
    }
    out := set t | t in g[name].tools;
    FirstPart(g, name, before, out);
    hide ToolsOf, AllReached, ClosedIn;
    var includes := g[name].includes;
    for i := 0 to |includes|
      invariant Partly(g, name, before, seen.names, out)
      invariant forall k :: 0 <= k < i ==> includes[k] in seen.names
    {
      ghost var mid := seen.names;
      SmallerSet(g.Keys - mid, g.Keys - before - {name}, g.Keys - before, name);
      var more := ResolveInto(includes[i], g, seen);
      NextPart(g, name, before, mid, out, includes[i], seen.names, more);
      out := out + more;
    }
    LastPart(g, name, before, seen.names, out);
  }

  lemma SmallerSet(a: set<string>, b: set<string>, c: set<string>, x: string)
    requires a <= b && b <= c && x in c && x !in b
    ensures |a| < |c|
  {
    Subset(a, c - {x});
    assert c == (c - {x}) + {x};
  }

  lemma Subset(a: set<string>, b: set<string>)
    requires a <= b
    ensures |a| <= |b|
  {
    assert b == a + (b - a);
  }

  /** The expansion of a name is the tools of everything reachable from it, on every include graph, cyclic or not. */
  method ResolveToolsetTools(name: string, g: Catalog) returns (out: set<string>)
    ensures ExpandsTo(g, name, out)
  {
    var seen := new SeenSet();
    out := ResolveInto(name, g, seen);
    VisitedIsReachable(g, name, seen.names, out);
  }

  lemma VisitedIsReachable(g: Catalog, name: string, names: set<string>, out: set<string>)
    requires name in names && ToolsOf(g, names, out) && AllReached(g, name, names) && ClosedIn(g, names, names)
    ensures ExpandsTo(g, name, out)
  {
    forall n | Reach(g, name, n) ensures n in names {
      var p :| PathFromTo(g, p, name, n);
      ClosedPath(g, names, p);
    }
  }

  // ---------- Cycles ----------

  ghost predicate IsCycle(g: Catalog, p: seq<string>) {
    IsPath(g, p) && |p| >= 2 && p[0] == p[|p| - 1]
  }

  ghost predicate Acyclic(g: Catalog) {
    forall p :: !IsCycle(g, p)
  }

  ghost predicate IncludesDefined(g: Catalog) {
    forall n, c :: n in g && c in g[n].includes ==> c in g
  }

  /** Cut a path into `name` at its first visit: nothing before it uses what `name` includes. */
  lemma {:induction false} FirstVisit(g: Catalog, h: Catalog, p: seq<string>, name: string) returns (q: seq<string>)
    requires IsPath(g, p) && p[|p| - 1] == name
    requires forall n :: n != name && n in g ==> n in h && h[n] == g[n]
    ensures PathFromTo(h, q, p[0], name)
  {
    if p[0] == name {
      q := [name];
    } else {
      assert p[0] in g && p[1] in g[p[0]].includes;
      var rest := FirstVisit(g, h, p[1..], name);
      q := [p[0]] + rest;
    }
  }

  /** A closed path that meets `name` can be walked starting at `name`. */
  lemma Rotate(g: Catalog, p: seq<string>, k: nat)
    requires IsCycle(g, p) && k < |p| - 1
    ensures IsCycle(g, p[k..] + p[1..k + 1])
  {
    var q, m := p[k..] + p[1..k + 1], |p| - k;
    forall i | 0 <= i < |q| - 1
      ensures q[i] in g && q[i + 1] in g[q[i]].includes
    {
      if i < m - 1 {
        assert q[i] == p[k + i] && q[i + 1] == p[k + i + 1];
      } else {
        assert q[i] == p[i - m + 1] && q[i + 1] == p[i - m + 2];
      }
    }
  }

  /**
   Defining a toolset, anew or again, leaves the graph acyclic exactly when nothing it includes reaches its own name
   in the graph as it was.
   */
  lemma DefineAcyclicIff(g: Catalog, name: string, ts: Toolset)
    requires Acyclic(g)
    ensures Acyclic(g[name := ts]) <==> forall c :: c in ts.includes ==> !Reach(g, c, name)
  {
    var h := g[name := ts];
    if c :| c in ts.includes && Reach(g, c, name) {
      var p :| PathFromTo(g, p, c, name);
      var q := FirstVisit(g, h, p, name);
      assert IsCycle(h, [name] + q);
    }
    if p :| IsCycle(h, p) {
      CycleMeetsName(g, name, ts, p);
    }
  }

  lemma CycleMeetsName(g: Catalog, name: string, ts: Toolset, p: seq<string>)
    requires Acyclic(g) && IsCycle(g[name := ts], p)
    ensures exists c :: c in ts.includes && Reach(g, c, name)
  {
    var h := g[name := ts];
    if k :| 0 <= k < |p| - 1 && p[k] == name {
      Rotate(h, p, k);
      var r := p[k..] + p[1..k + 1];
      assert r[0] == name && IsPath(h, r[1..]);
      var q := FirstVisit(h, g, r[1..], name);
      assert r[1] in ts.includes && Reach(g, r[1], name);
    } else {
      assert IsCycle(g, p);
    }
  }

  /** In a graph whose includes are all defined, everything reachable from a defined name is defined. */
  lemma ReachDefined(g: Catalog, a: string, b: string)
    requires IncludesDefined(g) && a in g && Reach(g, a, b)
    ensures b in g
  {
    var p :| PathFromTo(g, p, a, b);
    ClosedPath(g, g.Keys, p);
  }

  /** A name defined for the first time closes no cycle. */
  lemma NewNameKeepsAcyclic(g: Catalog, name: string, ts: Toolset)
    requires Acyclic(g) && IncludesDefined(g) && name !in g
    requires forall c :: c in ts.includes ==> c in g
    ensures Acyclic(g[name := ts])
  {
    forall c | c in ts.includes ensures !Reach(g, c, name) {
      if Reach(g, c, name) {
        ReachDefined(g, c, name);
      }
    }
    DefineAcyclicIff(g, name, ts);
  }
}
