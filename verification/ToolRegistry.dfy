/** The registry that owns tools and toolsets (nexus/tools/registry.py). */
module ToolRegistries {
  import opened Text
  import opened Toolsets

  datatype DefineError = MissingTools(missing: set<string>) | MissingIncludes(missing: set<string>)

  /** The checks of `define_toolset`, tools before includes. */
  function DefineErrorOf(tools: set<string>, g: Catalog, ts: Toolset): (r: Option<DefineError>)
    ensures r == None <==> (forall t :: t in ts.tools ==> t in tools) && (forall c :: c in ts.includes ==> c in g)
    ensures r.Some? && r.value.MissingTools? ==> forall t :: t in r.value.missing <==> t in ts.tools && t !in tools
    ensures r.Some? && r.value.MissingIncludes? ==>
              (forall t :: t in ts.tools ==> t in tools)
              && forall c :: c in r.value.missing <==> c in ts.includes && c !in g
  {
    var missingTools := set t | t in ts.tools && t !in tools;
    var missingIncludes := set c | c in ts.includes && c !in g;
    if missingTools != {} then
      assert exists t :: t in ts.tools && t !in tools;
      Some(MissingTools(missingTools))
    else if missingIncludes != {} then
      assert forall t :: t in ts.tools && t !in tools ==> t in missingTools;
      assert exists c :: c in ts.includes && c !in g;
      Some(MissingIncludes(missingIncludes))
    else
      assert forall t :: t in ts.tools && t !in tools ==> t in missingTools;
      assert forall c :: c in ts.includes && c !in g ==> c in missingIncludes;
      None
  }

  /** Every toolset names registered tools and defined toolsets only. */
  ghost predicate WellFormed(tools: set<string>, g: Catalog) {
    && IncludesDefined(g)
    && forall n, t :: n in g && t in g[n].tools ==> t in tools
  }

  class ToolRegistry {
    var tools: set<string>
    var toolsets: Catalog

    constructor ()
      ensures tools == {} && toolsets == map[] && WellFormed(tools, toolsets)
    {
      tools, toolsets := {}, map[];
    }

    method RegisterTool(name: string)
      requires WellFormed(tools, toolsets)
      modifies this
      ensures tools == old(tools) + {name} && toolsets == old(toolsets)
      ensures WellFormed(tools, toolsets)
    {
      tools := tools + {name};
    }

    /** Nothing changes on an error. */
    method DefineToolset(name: string, ts: Toolset) returns (error: Option<DefineError>)
      requires WellFormed(tools, toolsets)
      modifies this`toolsets
      ensures error == DefineErrorOf(tools, old(toolsets), ts)
      ensures toolsets == if error == None then old(toolsets)[name := ts] else old(toolsets)
      ensures WellFormed(tools, toolsets)
      ensures Acyclic(old(toolsets)) && name !in old(toolsets) ==> Acyclic(toolsets)
      ensures Acyclic(old(toolsets)) && error == None ==>
                (Acyclic(toolsets) <==> forall c :: c in ts.includes ==> !Reach(old(toolsets), c, name))
    {
      error := DefineErrorOf(tools, toolsets, ts);
      if error == None {
        ghost var g := toolsets;
        toolsets := toolsets[name := ts];
        if Acyclic(g) {
          DefineAcyclicIff(g, name, ts);
          if name !in g {
            NewNameKeepsAcyclic(g, name, ts);
          }
        }
      }
    }

    /** A list expands to the union of its parts; `None` means no restriction. */
    method ResolveToolset(names: Option<seq<string>>) returns (out: Option<set<string>>)
      ensures out == None <==> names == None
      ensures names.Some? ==>
                forall t :: t in out.value <==>
                  exists k, n :: 0 <= k < |names.value| && Reach(toolsets, names.value[k], n) && t in Own(toolsets, n)
    {
      if names == None {
        return None;
      }
      var union: set<string> := {};
      for i := 0 to |names.value|
        invariant forall t :: t in union <==>
                    exists k, n :: 0 <= k < i && Reach(toolsets, names.value[k], n) && t in Own(toolsets, n)
      {
        var more := ResolveToolsetTools(names.value[i], toolsets);
        union := union + more;
      }
      return Some(union);
    }
  }

  /** A defined toolset of a well-formed registry expands to registered tools only. */
  lemma ResolvedToolsAreRegistered(tools: set<string>, g: Catalog, name: string, out: set<string>)
    requires WellFormed(tools, g) && name in g && ExpandsTo(g, name, out)
    ensures out <= tools
  {
    forall t | t in out ensures t in tools {
      var n :| Reach(g, name, n) && t in Own(g, n);
      ReachDefined(g, name, n);
    }
  }

  // ---------- A history of definitions ----------

  datatype Definition = Definition(name: string, ts: Toolset)

  function DefineAll(tools: set<string>, g: Catalog, defs: seq<Definition>): Catalog
    decreases |defs|
  {
    if defs == [] then g
    else
      var d := defs[0];
      DefineAll(tools, if DefineErrorOf(tools, g, d.ts) == None then g[d.name := d.ts] else g, defs[1..])
  }

  ghost predicate DistinctNames(defs: seq<Definition>) {
    forall i, j :: 0 <= i < j < |defs| ==> defs[i].name != defs[j].name
  }

  /** Without redefinition no sequence of definitions, failed ones included, produces a cycle. */
  lemma {:induction false} WithoutRedefinitionAcyclic(tools: set<string>, g: Catalog, defs: seq<Definition>)
    requires Acyclic(g) && IncludesDefined(g) && DistinctNames(defs)
    requires forall i :: 0 <= i < |defs| ==> defs[i].name !in g
    ensures Acyclic(DefineAll(tools, g, defs)) && IncludesDefined(DefineAll(tools, g, defs))
    decreases |defs|
  {
    if defs != [] {
      var d := defs[0];
      if DefineErrorOf(tools, g, d.ts) == None {
        NewNameKeepsAcyclic(g, d.name, d.ts);
        WithoutRedefinitionAcyclic(tools, g[d.name := d.ts], defs[1..]);
      } else {
        WithoutRedefinitionAcyclic(tools, g, defs[1..]);
      }
    }
  }

  /** With redefinition it can: a, then b including a, then a again including b. */
  lemma RedefinitionCanCycle()
    ensures
      var defs := [Definition("a", Toolset([], [])), Definition("b", Toolset(["a"], [])),
                   Definition("a", Toolset(["b"], []))];
      !Acyclic(DefineAll({}, map[], defs))
  {
    var none := Toolset([], []);
    var ofA, ofB := Toolset(["a"], []), Toolset(["b"], []);
    var defs := [Definition("a", none), Definition("b", ofA), Definition("a", ofB)];
    var g1: Catalog := map["a" := none];
    var g2 := g1["b" := ofA];
    var g3 := g2["a" := ofB];
    assert DefineAll({}, g3, []) == g3;
    assert DefineAll({}, g2, defs[2..]) == g3;
    assert DefineAll({}, g1, defs[1..]) == g3;
    assert DefineAll({}, map[], defs) == g3;
    assert IsCycle(g3, ["a", "b", "a"]);
  }
}
