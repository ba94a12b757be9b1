/**
 Resolving a manifest into a tree of agents and groups (nexus/orchestration/resolver.py): recursive expansion with a
 stack of group names, over manifests whose groups may refer to each other in cycles.
 */
module Resolver {
  import opened Text
  import opened Values

  /**
   The validated manifest. Resolving a persona block (with its prompts) and coercing model settings are unknown functions
   that may raise, and the two model validations are unknown predicates.
   */
  datatype Manifest = Manifest(
    root: string,
    defaultAgent: Entries,
    defaultLlm: Entries,
    defaultGroup: Entries,
    agents: map<string, Entries>,
    groups: map<string, Entries>,
    persona: Entries -> Option<Entries>,
    modelConfig: Entries -> Option<Value>,
    agentOk: Entries -> bool,
    groupOk: (Entries, seq<Config>) -> bool)

  datatype Config =
    | Agent(settings: Entries)
    | Group(name: string, settings: Entries, members: seq<Config>)

  datatype Error =
    | RootNotFound
    | MemberNotFound(name: string, group: string)
    | Cycle(path: seq<string>)
    | UnsupportedPattern(group: string)
    | MembersNotIterable(group: string)
    | InlineGroupWithoutName(group: string)
    | InvalidMember(group: string)
    | InvalidPersona
    | InvalidModel
    | InvalidAgent
    | InvalidGroup(group: string)

  datatype Result<T> = Ok(value: T) | Err(error: Error)

  // ---------- What an entry stands for ----------

  datatype Target =
    | AnAgent(title: Value, settings: Entries)
    | AGroup(name: string, spec: Entries)
    | Nothing(error: Error)

  function RefTarget(m: Manifest, name: string, missing: Error): Target {
    if name in m.agents then AnAgent(Str(name), m.agents[name])
    else if name in m.groups then AGroup(name, m.groups[name])
    else Nothing(missing)
  }

  /** A name refers to an agent before a group; a mapping with a pattern and members is an inline group. */
  function TargetOf(m: Manifest, entry: Value, group: string): Target {
    match entry
    case Str(name) => RefTarget(m, name, MemberNotFound(name, group))
    case Dict(spec) =>
      if InlineGroup(spec) then
        match Get(spec, "name")
        case Some(Str(name)) => if name == "" then Nothing(InlineGroupWithoutName(group)) else AGroup(name, spec)
        case _ => Nothing(InlineGroupWithoutName(group))
      else
        var name := Get(spec, "name");
        AnAgent(if name.Some? then name.value else Str(group + "_member"), spec)
    case _ => Nothing(InvalidMember(group))
  }

  /** Defaults under the spec, the name over both, and the default model where none is given. */
  function MergedSettings(m: Manifest, name: Value, spec: Entries): Entries {
    var merged := Set(DeepMerge(m.defaultAgent, spec), "name", name);
    if !HasKey(merged, "llm") && m.defaultLlm != [] then Set(merged, "llm", Dict(m.defaultLlm)) else merged
  }

  predicate IsDict(value: Option<Value>) {
    value.Some? && value.value.Dict?
  }

  /** The merged settings with the persona resolved and the model settings coerced, both only where they are mappings. */
  function AgentSettings(m: Manifest, name: Value, spec: Entries): Result<Entries> {
    var merged := MergedSettings(m, name, spec);
    var block := Get(merged, "persona");
    if IsDict(block) && m.persona(block.value.entries).None? then Err(InvalidPersona)
    else
      var resolved := if IsDict(block) then Set(merged, "persona", Dict(m.persona(block.value.entries).value)) else merged;
      var model := Get(resolved, "llm");
      if IsDict(model) && m.modelConfig(model.value.entries).None? then Err(InvalidModel)
      else
        var settings :=
          if IsDict(model) then Set(resolved, "llm", m.modelConfig(model.value.entries).value) else resolved;
        if m.agentOk(settings) then Ok(settings) else Err(InvalidAgent)
  }

  /** What the merged settings hold, key by key. */
  function MergedValue(m: Manifest, title: Value, spec: Entries, key: string): Option<Value> {
    if key == "name" then Some(title)
    else if HasKey(spec, key) then Some(Combined(Get(m.defaultAgent, key), Get(spec, key).value))
    else if HasKey(m.defaultAgent, key) then Get(m.defaultAgent, key)
    else if key == "llm" && m.defaultLlm != [] then Some(Dict(m.defaultLlm))
    else None
  }

  /** What an agent's settings hold, key by key; nothing where resolving the persona or the model raises. */
  function AgentValue(m: Manifest, title: Value, spec: Entries, key: string): Option<Value> {
    var merged := MergedValue(m, title, spec, key);
    if key == "persona" && IsDict(merged) then
      match m.persona(merged.value.entries) case None => None case Some(block) => Some(Dict(block))
    else if key == "llm" && IsDict(merged) then m.modelConfig(merged.value.entries)
    else merged
  }

  /**
   An agent carries the name it was reached by; every other key of its spec, merged into the default if both are
   mappings; the defaults for the rest; and the default model if that leaves it without one.
   */
  lemma MergedSettingsMean(m: Manifest, title: Value, spec: Entries, key: string)
    requires DistinctKeys(spec)
    ensures Get(MergedSettings(m, title, spec), key) == MergedValue(m, title, spec, key)
  {
    hide DeepMerge, Set, Get, Combined, HasKey;
    var merged := DeepMerge(m.defaultAgent, spec);
    var named := Set(merged, "name", title);
    MergeMeans(m.defaultAgent, spec, key);
    MergeMeans(m.defaultAgent, spec, "llm");
    SetGet(merged, "name", title, key);
    SetGet(merged, "name", title, "llm");
    SetGet(named, "llm", Dict(m.defaultLlm), key);
  }

  /** Of these, a persona block and model settings are replaced by what they resolve to; nothing else changes. */
  lemma AgentSettingsMeans(m: Manifest, title: Value, spec: Entries, key: string)
    requires DistinctKeys(spec) && AgentSettings(m, title, spec).Ok?
    ensures Get(AgentSettings(m, title, spec).value, key) == AgentValue(m, title, spec, key)
  {
    hide MergedSettings, MergedValue, Set, Get;
    var merged := MergedSettings(m, title, spec);
    MergedSettingsMean(m, title, spec, key);
    MergedSettingsMean(m, title, spec, "persona");
    MergedSettingsMean(m, title, spec, "llm");
    var block := Get(merged, "persona");
    var resolved := merged;
    if IsDict(block) {
      resolved := Set(merged, "persona", Dict(m.persona(block.value.entries).value));
      SetGet(merged, "persona", Dict(m.persona(block.value.entries).value), key);
      SetGet(merged, "persona", Dict(m.persona(block.value.entries).value), "llm");
    }
    var model := Get(resolved, "llm");
    if IsDict(model) {
      SetGet(resolved, "llm", m.modelConfig(model.value.entries).value, key);
    }
  }

  /** Which error an agent's settings raise: the persona's before the model's before the validation's. */
  lemma AgentErrorMeans(m: Manifest, title: Value, spec: Entries)
    requires DistinctKeys(spec)
    ensures
      var r := AgentSettings(m, title, spec);
      var block, model := MergedValue(m, title, spec, "persona"), MergedValue(m, title, spec, "llm");
      var badPersona := IsDict(block) && m.persona(block.value.entries).None?;
      var badModel := IsDict(model) && m.modelConfig(model.value.entries).None?;
      && (r == Err(InvalidPersona) <==> badPersona)
      && (r == Err(InvalidModel) <==> !badPersona && badModel)
      && (r.Err? && !badPersona && !badModel ==> r == Err(InvalidAgent))
  {
    hide MergedSettings, MergedValue, Set, Get;
    var merged := MergedSettings(m, title, spec);
    MergedSettingsMean(m, title, spec, "persona");
    MergedSettingsMean(m, title, spec, "llm");
    var block := Get(merged, "persona");
    if IsDict(block) && m.persona(block.value.entries).Some? {
      SetGet(merged, "persona", Dict(m.persona(block.value.entries).value), "llm");
    }
  }

  function GroupSettings(m: Manifest, name: string, spec: Entries): Entries {
    Set(DeepMerge(m.defaultGroup, spec), "name", Str(name))
  }

  /** What a group's settings hold, key by key: its name, what its spec says over the defaults, else the defaults. */
  function GroupValue(m: Manifest, name: string, spec: Entries, key: string): Option<Value> {
    if key == "name" then Some(Str(name))
    else if HasKey(spec, key) then Some(Combined(Get(m.defaultGroup, key), Get(spec, key).value))
    else Get(m.defaultGroup, key)
  }

  lemma GroupSettingsMean(m: Manifest, name: string, spec: Entries, key: string)
    requires DistinctKeys(spec)
    ensures Get(GroupSettings(m, name, spec), key) == GroupValue(m, name, spec, key)
  {
    hide DeepMerge, Set, Get, Combined, HasKey;
    MergeMeans(m.defaultGroup, spec, key);
    SetGet(DeepMerge(m.defaultGroup, spec), "name", Str(name), key);
  }

  predicate PatternOk(settings: Entries) {
    Get(settings, "pattern") in {None, Some(Str("supervisor")), Some(Str("pipeline")), Some(Str("parallel"))}
  }

  function Keys(d: Entries): (r: seq<Value>)
    ensures |r| == |d| && forall i :: 0 <= i < |r| ==> r[i] == Str(d[i].key)
  {
    seq(|d|, i requires 0 <= i < |d| => Str(d[i].key))
  }

  function Characters(s: string): (r: seq<Value>)
    ensures |r| == |s| && forall i :: 0 <= i < |r| ==> r[i] == Str([s[i]])
  {
    seq(|s|, i requires 0 <= i < |s| => Str([s[i]]))
  }

  /** What the member loop walks over: the items of a list, the keys of a mapping, the characters of a string. */
  function MembersOf(m: Manifest, spec: Entries): Option<seq<Value>> {
    match Get(DeepMerge(m.defaultGroup, spec), "members")
    case None => Some([])
    case Some(List(items)) => Some(items)
    case Some(Dict(entries)) => Some(Keys(entries))
    case Some(Str(s)) => Some(Characters(s))
    case _ => None
  }

  /** The members are the items of a list, the keys of a mapping or the characters of a string; without any, none. */
  ghost predicate AreMembers(entries: seq<Value>, given: Option<Value>) {
    match given
    case None => entries == []
    case Some(List(items)) => |entries| == |items| && forall i :: 0 <= i < |items| ==> entries[i] == items[i]
    case Some(Dict(d)) => |entries| == |d| && forall i :: 0 <= i < |d| ==> entries[i] == Str(d[i].key)
    case Some(Str(s)) => |entries| == |s| && forall i :: 0 <= i < |s| ==> entries[i] == Str([s[i]])
    case _ => false
  }

  lemma MembersMean(m: Manifest, name: string, spec: Entries)
    ensures MembersOf(m, spec).Some? ==>
              AreMembers(MembersOf(m, spec).value, Get(GroupSettings(m, name, spec), "members"))
    ensures MembersOf(m, spec).None? ==>
              forall entries :: !AreMembers(entries, Get(GroupSettings(m, name, spec), "members"))
  {
    SetGet(DeepMerge(m.defaultGroup, spec), "name", Str(name), "members");
    hide Get, Set, DeepMerge;
  }

  predicate InlineGroup(d: Entries) {
    HasKey(d, "pattern") && HasKey(d, "members")
  }

  /**
   A name means the agent called so, else the group called so; a mapping with a pattern and members means a group with
   its own name, which has to be a text; any other mapping an agent; nothing else means anything.
   */
  ghost predicate IsTarget(m: Manifest, entry: Value, group: string, t: Target) {
    && (forall name :: entry == Str(name) && name in m.agents ==> t == AnAgent(Str(name), m.agents[name]))
    && (forall name :: entry == Str(name) && name !in m.agents && name in m.groups ==> t == AGroup(name, m.groups[name]))
    && (forall name :: entry == Str(name) && name !in m.agents && name !in m.groups ==>
          t == Nothing(MemberNotFound(name, group)))
    && (forall d, name :: entry == Dict(d) && InlineGroup(d) && Get(d, "name") == Some(Str(name)) && name != "" ==>
          t == AGroup(name, d))
    && (forall d :: entry == Dict(d) && InlineGroup(d) && t.AGroup? ==> Get(d, "name") == Some(Str(t.name)) && t.name != "")
    && (forall d :: entry == Dict(d) && InlineGroup(d) && !t.AGroup? ==> t == Nothing(InlineGroupWithoutName(group)))
    && (forall d :: entry == Dict(d) && !InlineGroup(d) ==>
          && t.AnAgent? && t.settings == d
          && (HasKey(d, "name") ==> Get(d, "name") == Some(t.title))
          && (!HasKey(d, "name") ==> t.title == Str(group + "_member")))
    && (!entry.Str? && !entry.Dict? ==> t == Nothing(InvalidMember(group)))
  }

  lemma TargetMeans(m: Manifest, entry: Value, group: string)
    ensures IsTarget(m, entry, group, TargetOf(m, entry, group))
  {
    hide Get, HasKey;
  }

  // ---------- The tree a target resolves to ----------

  /**
   `c` is the tree for `t` under the groups on `stack`: members one to one and in order, and no group inside itself.
   */
  ghost predicate Fits(m: Manifest, t: Target, c: Config, stack: seq<string>)
    decreases c
  {
    match t
    case Nothing(_) => false
    case AnAgent(name, spec) => c.Agent? && AgentSettings(m, name, spec) == Ok(c.settings)
    case AGroup(name, spec) =>
      && name !in stack
      && c.Group? && c.name == name && c.settings == GroupSettings(m, name, spec) && PatternOk(c.settings)
      && var members := MembersOf(m, spec);
         && members.Some? && |c.members| == |members.value|
         && m.groupOk(c.settings, c.members)
         && forall i :: 0 <= i < |c.members| ==>
              Fits(m, TargetOf(m, members.value[i], name), c.members[i], stack + [name])
  }

  ghost predicate GroupSays(m: Manifest, name: string, spec: Entries, settings: Entries) {
    && (DistinctKeys(spec) ==> forall key :: Get(settings, key) == GroupValue(m, name, spec, key))
    && (!HasKey(settings, "pattern") || PatternIs(settings, "supervisor") || PatternIs(settings, "pipeline")
        || PatternIs(settings, "parallel"))
  }

  predicate PatternIs(settings: Entries, pattern: string) {
    Get(settings, "pattern") == Some(Str(pattern))
  }

  ghost predicate AgentSays(m: Manifest, title: Value, spec: Entries, settings: Entries) {
    DistinctKeys(spec) ==> forall key :: Get(settings, key) == AgentValue(m, title, spec, key)
  }

  /** The members given in the settings stand for these targets. */
  ghost predicate TargetsAre(m: Manifest, name: string, settings: Entries, targets: seq<Target>) {
    exists entries ::
      && AreMembers(entries, Get(settings, "members")) && |entries| == |targets|
      && forall i :: 0 <= i < |entries| ==> IsTarget(m, entries[i], name, targets[i])
  }

  /** What the tree says, key by key: its agents' and groups' settings, and that its members are those given. */
  ghost predicate Means(m: Manifest, t: Target, c: Config)
    decreases c
  {
    match t
    case Nothing(_) => false
    case AnAgent(title, spec) => c.Agent? && AgentSays(m, title, spec, c.settings)
    case AGroup(name, spec) =>
      && c.Group? && c.name == name && GroupSays(m, name, spec, c.settings)
      && exists targets ::
           && TargetsAre(m, name, c.settings, targets) && |c.members| == |targets|
           && forall i :: 0 <= i < |c.members| ==> Means(m, targets[i], c.members[i])
  }

  lemma {:induction false} FitsMeans(m: Manifest, t: Target, c: Config, stack: seq<string>)
    requires Fits(m, t, c, stack)
    ensures Means(m, t, c)
    decreases c
  {
    hide AgentSettings, GroupSettings, PatternOk, MembersOf, TargetOf, AgentSays, GroupSays, TargetsAre;
    match t
    case AnAgent(title, spec) =>
      AgentMeans(m, title, spec, c.settings);
    case AGroup(name, spec) =>
      GroupMeans(m, name, spec);
      var entries := MembersOf(m, spec).value;
      var targets := TargetsOf(m, name, spec);
      forall i | 0 <= i < |c.members|
        ensures Means(m, targets[i], c.members[i])
      {
        FitsMeans(m, targets[i], c.members[i], stack + [name]);
      }
    case _ =>
  }

  lemma TargetsOf(m: Manifest, name: string, spec: Entries) returns (targets: seq<Target>)
    requires MembersOf(m, spec).Some?
    ensures TargetsAre(m, name, GroupSettings(m, name, spec), targets)
    ensures |targets| == |MembersOf(m, spec).value|
    ensures forall i :: 0 <= i < |targets| ==> targets[i] == TargetOf(m, MembersOf(m, spec).value[i], name)
  {
    hide GroupSettings, MembersOf, IsTarget, TargetOf, AreMembers, Get;
    var entries := MembersOf(m, spec).value;
    targets := seq(|entries|, i requires 0 <= i < |entries| => TargetOf(m, entries[i], name));
    MembersMean(m, name, spec);
    forall i | 0 <= i < |entries| {
      TargetMeans(m, entries[i], name);
    }
  }

  lemma AgentMeans(m: Manifest, title: Value, spec: Entries, settings: Entries)
    requires AgentSettings(m, title, spec) == Ok(settings)
    ensures AgentSays(m, title, spec, settings)
  {
    hide AgentSettings, Get, AgentValue, DistinctKeys;
    if DistinctKeys(spec) {
      forall key ensures Get(settings, key) == AgentValue(m, title, spec, key) {
        AgentSettingsMeans(m, title, spec, key);
      }
    }
  }

  lemma GroupMeans(m: Manifest, name: string, spec: Entries)
    ensures PatternOk(GroupSettings(m, name, spec)) ==> GroupSays(m, name, spec, GroupSettings(m, name, spec))
  {
    hide GroupSettings, GroupValue, Get, DistinctKeys;
    if DistinctKeys(spec) {
      forall key ensures Get(GroupSettings(m, name, spec), key) == GroupValue(m, name, spec, key) {
        GroupSettingsMean(m, name, spec, key);
      }
    }
  }

  /** No group name repeats on a path from the root to a leaf, nor any of those above. */
  ghost predicate NoRepeat(c: Config, above: seq<string>)
    decreases c
  {
    c.Group? ==>
      && c.name !in above
      && forall i :: 0 <= i < |c.members| ==> NoRepeat(c.members[i], above + [c.name])
  }

  lemma {:induction false} FitsHasNoRepeat(m: Manifest, t: Target, c: Config, stack: seq<string>)
    requires Fits(m, t, c, stack)
    ensures NoRepeat(c, stack)
    decreases c
  {
    if t.AGroup? {
      var members := MembersOf(m, t.spec).value;
      forall i | 0 <= i < |c.members| ensures NoRepeat(c.members[i], stack + [c.name]) {
        FitsHasNoRepeat(m, TargetOf(m, members[i], t.name), c.members[i], stack + [t.name]);
      }
    }
  }

  /** There is at most one such tree. */
  lemma {:induction false} FitsUnique(m: Manifest, t: Target, c: Config, d: Config, stack: seq<string>)
    requires Fits(m, t, c, stack) && Fits(m, t, d, stack)
    ensures c == d
    decreases c
  {
    if t.AGroup? {
      var members := MembersOf(m, t.spec).value;
      forall i | 0 <= i < |c.members| ensures c.members[i] == d.members[i] {
        FitsUnique(m, TargetOf(m, members[i], t.name), c.members[i], d.members[i], stack + [t.name]);
      }
      assert c.members == d.members;
    }
  }

  // ---------- Chains of member edges ----------

  /** A group on the way down, with the spec it was reached by. */
  datatype Link = Link(name: string, spec: Entries)

  ghost predicate Edge(m: Manifest, a: Link, b: Link) {
    && MembersOf(m, a.spec).Some?
    && exists i :: 0 <= i < |MembersOf(m, a.spec).value|
                   && TargetOf(m, MembersOf(m, a.spec).value[i], a.name) == AGroup(b.name, b.spec)
  }

  function Names(chain: seq<Link>): (r: seq<string>)
    ensures |r| == |chain| && forall i :: 0 <= i < |r| ==> r[i] == chain[i].name
  {
    seq(|chain|, i requires 0 <= i < |chain| => chain[i].name)
  }

  /** A walk down from the manifest's root, each group a member of the one before. */
  ghost predicate IsChain(m: Manifest, chain: seq<Link>) {
    && (chain != [] ==> RefTarget(m, m.root, RootNotFound) == AGroup(chain[0].name, chain[0].spec))
    && forall i :: 0 <= i < |chain| - 1 ==> Edge(m, chain[i], chain[i + 1])
  }

  /** The path of a cycle error is such a walk and ends in a name already on it. */
  ghost predicate RealCycle(m: Manifest, path: seq<string>) {
    && |path| >= 2 && path[|path| - 1] in path[..|path| - 1]
    && exists chain :: IsChain(m, chain) && Names(chain) == path
  }

  // ---------- Size, for termination ----------

  function Size(v: Value): nat
    decreases v
  {
    match v
    case List(items) => 1 + SizeAll(items)
    case Dict(entries) => 1 + SizeEntries(entries)
    case _ => 0
  }

  function SizeAll(items: seq<Value>): nat
    decreases items
  {
    if items == [] then 0 else Size(items[0]) + SizeAll(items[1..])
  }

  function SizeEntries(entries: Entries): nat
    decreases entries
  {
    if entries == [] then 0 else Size(entries[0].value) + SizeEntries(entries[1..])
  }

  lemma {:induction false} ItemSize(items: seq<Value>, i: nat)
    requires i < |items|
    ensures Size(items[i]) <= SizeAll(items)
  {
    if i > 0 {
      ItemSize(items[1..], i - 1);
    }
  }

  lemma {:induction false} EntrySize(entries: Entries, i: nat)
    requires i < |entries|
    ensures Size(entries[i].value) <= SizeEntries(entries)
  {
    if i > 0 {
      EntrySize(entries[1..], i - 1);
    }
  }

  lemma {:induction false} StringsHaveNoSize(items: seq<Value>)
    requires forall i :: 0 <= i < |items| ==> items[i].Str?
    ensures SizeAll(items) == 0
  {
    if items != [] {
      StringsHaveNoSize(items[1..]);
    }
  }

  /** A key the override has ends up as one of its own values, or as a merge of two mappings. */
  lemma {:induction false} MergedKey(base: Entries, over: Entries, key: string)
    requires HasKey(over, key)
    ensures
      var v := Get(DeepMerge(base, over), key);
      v.Some? && (v.value.Dict? || Entry(key, v.value) in over)
    decreases |over|
  {
    assert over != [];
    hide Get, Set, HasKey;
    var n := |over| - 1;
    var front, last := over[..n], over[n];
    assert over == front + [last];
    var merged := DeepMerge(base, front);
    var v := Combined(Get(merged, last.key), last.value);
    assert DeepMerge(base, over) == Set(merged, last.key, v) && (v.Dict? || v == last.value);
    hide DeepMerge, Combined;
    SetGet(merged, last.key, v, key);
    if last.key == key {
      assert last == Entry(key, last.value);
    } else {
      FrontHasKey(front, last, key);
      MergedKey(base, front, key);
    }
  }

  lemma FrontHasKey(front: Entries, last: Entry, key: string)
    requires HasKey(front + [last], key) && last.key != key
    ensures HasKey(front, key)
  {
    var i :| 0 <= i < |front| + 1 && (front + [last])[i].key == key;
    assert front[i].key == key;
  }

  function MembersSize(m: Manifest, spec: Entries): nat {
    var members := MembersOf(m, spec);
    if members.Some? then SizeAll(members.value) else 0
  }

  /** The members of an inline group are smaller than its entry, whatever the defaults contribute. */
  lemma InlineSmaller(m: Manifest, spec: Entries)
    requires HasKey(spec, "members")
    ensures MembersSize(m, spec) < Size(Dict(spec))
  {
    MergedKey(m.defaultGroup, spec, "members");
    match Get(DeepMerge(m.defaultGroup, spec), "members")
    case Some(List(items)) =>
      var i :| 0 <= i < |spec| && spec[i] == Entry("members", List(items));
      EntrySize(spec, i);
    case Some(Dict(entries)) => StringsHaveNoSize(Keys(entries));
    case Some(Str(s)) => StringsHaveNoSize(Characters(s));
    case _ =>
  }

  /** How many groups of the manifest can still be entered; a name on the stack is refused at once. */
  function Depth(m: Manifest, name: string, stack: seq<string>): nat {
    if name in stack then 0 else 1 + |m.groups.Keys - (set n | n in stack) - {name}|
  }

  function Below(m: Manifest, stack: seq<string>): nat {
    1 + |m.groups.Keys - set n | n in stack|
  }

  lemma DepthOfRef(m: Manifest, name: string, stack: seq<string>)
    requires name in m.groups
    ensures Depth(m, name, stack) < Below(m, stack)
  {
    var free := m.groups.Keys - set n | n in stack;
    if name !in stack {
      assert free == (free - {name}) + {name};
    }
  }

  lemma DepthOfInline(m: Manifest, name: string, stack: seq<string>)
    ensures Depth(m, name, stack) <= Below(m, stack)
  {
    var free := m.groups.Keys - set n | n in stack;
    if name !in stack {
      assert free == (free - {name}) + (free * {name});
    }
  }

  lemma BelowMember(m: Manifest, name: string, stack: seq<string>)
    requires name !in stack
    ensures Below(m, stack + [name]) == Depth(m, name, stack)
  {
    assert m.groups.Keys - (set n | n in stack + [name]) == m.groups.Keys - (set n | n in stack) - {name};
  }

  // ---------- Where resolution fails ----------

  lemma MemberOfTree(m: Manifest, name: string, spec: Entries, stack: seq<string>, c: Config, i: nat)
    requires Fits(m, AGroup(name, spec), c, stack) && MembersOf(m, spec).Some? && i < |MembersOf(m, spec).value|
    ensures c.Group? && |c.members| == |MembersOf(m, spec).value|
    ensures Fits(m, TargetOf(m, MembersOf(m, spec).value[i], name), c.members[i], stack + [name])
  {
  }

  ghost predicate MembersFit(m: Manifest, name: string, entries: seq<Value>, members: seq<Config>, stack: seq<string>) {
    && |members| <= |entries|
    && forall k :: 0 <= k < |members| ==> Fits(m, TargetOf(m, entries[k], name), members[k], stack)
  }

  /** Any tree for the group has the members that were found. */
  lemma SameMembers(m: Manifest, name: string, spec: Entries, stack: seq<string>, members: seq<Config>, c: Config)
    requires MembersOf(m, spec).Some? && |members| == |MembersOf(m, spec).value|
    requires MembersFit(m, name, MembersOf(m, spec).value, members, stack + [name])
    requires Fits(m, AGroup(name, spec), c, stack)
    ensures c == Group(name, GroupSettings(m, name, spec), members) && m.groupOk(c.settings, members)
  {
    hide PatternOk, GroupSettings, MembersOf;
    forall i | 0 <= i < |members| ensures members[i] == c.members[i] {
      FitsUnique(m, TargetOf(m, MembersOf(m, spec).value[i], name), members[i], c.members[i], stack + [name]);
    }
    assert members == c.members;
  }

  /**
   Resolving `t` under the groups on `stack` fails with `e` at the member reached by these positions: everything before
   it, in depth-first member order, fits.
   */
  ghost predicate FailsAt(m: Manifest, t: Target, stack: seq<string>, path: seq<nat>, e: Error)
    decreases |path|
  {
    match t
    case Nothing(error) => path == [] && e == error
    case AnAgent(title, spec) => path == [] && AgentSettings(m, title, spec) == Err(e)
    case AGroup(name, spec) =>
      var entries := MembersOf(m, spec);
      if name in stack then path == [] && e == Cycle(stack + [name])
      else if !PatternOk(GroupSettings(m, name, spec)) then path == [] && e == UnsupportedPattern(name)
      else if entries == None then path == [] && e == MembersNotIterable(name)
      else if path == [] then
        && e == InvalidGroup(name)
        && exists members :: && |members| == |entries.value|
                             && MembersFit(m, name, entries.value, members, stack + [name])
                             && !m.groupOk(GroupSettings(m, name, spec), members)
      else
        && path[0] < |entries.value|
        && (exists members :: |members| == path[0] && MembersFit(m, name, entries.value, members, stack + [name]))
        && FailsAt(m, TargetOf(m, entries.value[path[0]], name), stack + [name], path[1..], e)
  }

  /** What fails somewhere has no tree. */
  lemma {:induction false} FailureExcludesTree(
    m: Manifest, t: Target, stack: seq<string>, path: seq<nat>, e: Error, c: Config)
    requires FailsAt(m, t, stack, path, e)
    ensures !Fits(m, t, c, stack)
    decreases |path|
  {
    hide GroupSettings, MembersOf, PatternOk, MembersFit, AgentSettings, TargetOf;
    if t.AGroup? && Fits(m, t, c, stack) {
      var entries := MembersOf(m, t.spec).value;
      if path == [] {
        var members :| && |members| == |entries| && MembersFit(m, t.name, entries, members, stack + [t.name])
                       && !m.groupOk(GroupSettings(m, t.name, t.spec), members);
        SameMembers(m, t.name, t.spec, stack, members, c);
      } else {
        MemberOfTree(m, t.name, t.spec, stack, c, path[0]);
        FailureExcludesTree(
          m, TargetOf(m, entries[path[0]], t.name), stack + [t.name], path[1..], e, c.members[path[0]]);
      }
    }
  }

  /** A member that fits does not fail. */
  lemma FitDoesNotFail(
    m: Manifest, name: string, entries: seq<Value>, members: seq<Config>, stack: seq<string>, k: nat, path: seq<nat>,
    e: Error)
    requires MembersFit(m, name, entries, members, stack) && k < |members|
    ensures k < |entries| && !FailsAt(m, TargetOf(m, entries[k], name), stack, path, e)
  {
    hide FailsAt, Fits;
    if FailsAt(m, TargetOf(m, entries[k], name), stack, path, e) {
      FailureExcludesTree(m, TargetOf(m, entries[k], name), stack, path, e, members[k]);
    }
  }

  /** The members before a failure inside a group that can be entered. */
  lemma FitBefore(m: Manifest, name: string, spec: Entries, stack: seq<string>, path: seq<nat>, e: Error)
    returns (members: seq<Config>)
    requires FailsAt(m, AGroup(name, spec), stack, path, e)
    requires name !in stack && PatternOk(GroupSettings(m, name, spec)) && MembersOf(m, spec).Some?
    ensures MembersFit(m, name, MembersOf(m, spec).value, members, stack + [name])
    ensures |members| == if path == [] then |MembersOf(m, spec).value| else path[0]
    ensures path != [] ==>
              && path[0] < |MembersOf(m, spec).value|
              && FailsAt(m, TargetOf(m, MembersOf(m, spec).value[path[0]], name), stack + [name], path[1..], e)
  {
    hide GroupSettings, MembersOf, PatternOk, MembersFit, AgentSettings, TargetOf;
    var n := if path == [] then |MembersOf(m, spec).value| else path[0];
    members :| |members| == n && MembersFit(m, name, MembersOf(m, spec).value, members, stack + [name]);
  }

  /** A failure on the spot is the only one. */
  lemma FailureHereUnique(m: Manifest, t: Target, stack: seq<string>, p: seq<nat>, e: Error, q: seq<nat>, f: Error)
    requires FailsAt(m, t, stack, p, e) && FailsAt(m, t, stack, q, f)
    requires !t.AGroup? || p == q == []
    ensures p == q && e == f
  {
    hide GroupSettings, MembersOf, PatternOk, MembersFit, AgentSettings, TargetOf;
  }

  /** A failure further down is in a group that could be entered. */
  lemma FailureEnters(m: Manifest, name: string, spec: Entries, stack: seq<string>, path: seq<nat>, e: Error)
    requires FailsAt(m, AGroup(name, spec), stack, path, e) && path != []
    ensures name !in stack && PatternOk(GroupSettings(m, name, spec)) && MembersOf(m, spec).Some?
  {
    hide GroupSettings, MembersOf, PatternOk, MembersFit, AgentSettings, TargetOf;
  }

  /** There is one first failure, so the error of a manifest is determined by it. */
  lemma {:induction false} FailureUnique(
    m: Manifest, t: Target, stack: seq<string>, p: seq<nat>, e: Error, q: seq<nat>, f: Error)
    requires FailsAt(m, t, stack, p, e) && FailsAt(m, t, stack, q, f)
    ensures p == q && e == f
    decreases |p|
  {
    hide *;
    if !t.AGroup? || (p == [] && q == []) {
      FailureHereUnique(m, t, stack, p, e, q, f);
      return;
    }
    var name, spec := t.name, t.spec;
    if p != [] { FailureEnters(m, name, spec, stack, p, e); } else { FailureEnters(m, name, spec, stack, q, f); }
    var entries, below := MembersOf(m, spec).value, stack + [name];
    var before := FitBefore(m, name, spec, stack, p, e);
    var before' := FitBefore(m, name, spec, stack, q, f);
    if p == [] || (q != [] && q[0] < p[0]) {
      FitDoesNotFail(m, name, entries, before, below, q[0], q[1..], f);
    } else if q == [] || p[0] < q[0] {
      FitDoesNotFail(m, name, entries, before', below, p[0], p[1..], e);
    } else {
      FailureUnique(m, TargetOf(m, entries[p[0]], name), below, p[1..], e, q[1..], f);
      assert p == [p[0]] + p[1..] && q == [q[0]] + q[1..];
    }
  }

  /** The first failure in member order is `e`. */
  ghost predicate FailsFirst(m: Manifest, t: Target, stack: seq<string>, e: Error) {
    exists path :: FailsAt(m, t, stack, path, e)
  }

  /** A tree that fits on success; on failure the first one in member order. */
  ghost predicate Decides(m: Manifest, t: Target, stack: seq<string>, r: Result<Config>) {
    match r
    case Ok(c) => Fits(m, t, c, stack)
    case Err(e) => FailsFirst(m, t, stack, e)
  }

  /** The result is determined, whatever it is. */
  lemma DecidesUnique(m: Manifest, t: Target, stack: seq<string>, r: Result<Config>, q: Result<Config>)
    requires Decides(m, t, stack, r) && Decides(m, t, stack, q)
    ensures r == q
  {
    hide Fits, FailsAt;
    match (r, q) {
      case (Ok(c), Ok(d)) => FitsUnique(m, t, c, d, stack);
      case (Ok(c), Err(e)) =>
        var path :| FailsAt(m, t, stack, path, e);
        FailureExcludesTree(m, t, stack, path, e, c);
      case (Err(e), Ok(c)) =>
        var path :| FailsAt(m, t, stack, path, e);
        FailureExcludesTree(m, t, stack, path, e, c);
      case (Err(e), Err(f)) =>
        var path :| FailsAt(m, t, stack, path, e);
        var other :| FailsAt(m, t, stack, other, f);
        FailureUnique(m, t, stack, path, e, other, f);
    }
  }

  lemma FailedHasNoTree(m: Manifest, t: Target, stack: seq<string>, r: Result<Config>)
    requires Decides(m, t, stack, r) && r.Err?
    ensures forall c :: !Fits(m, t, c, stack)
  {
    hide FailsAt, Fits;
    var path :| FailsAt(m, t, stack, path, r.error);
    forall c ensures !Fits(m, t, c, stack) {
      FailureExcludesTree(m, t, stack, path, r.error, c);
    }
  }

  lemma FailsHere(m: Manifest, t: Target, stack: seq<string>, e: Error)
    requires FailsAt(m, t, stack, [], e)
    ensures Decides(m, t, stack, Err(e))
  {
  }

  lemma FailsInMember(
    m: Manifest, name: string, spec: Entries, stack: seq<string>, members: seq<Config>, e: Error)
    requires name !in stack && PatternOk(GroupSettings(m, name, spec)) && MembersOf(m, spec).Some?
    requires |members| < |MembersOf(m, spec).value|
    requires MembersFit(m, name, MembersOf(m, spec).value, members, stack + [name])
    requires Decides(m, TargetOf(m, MembersOf(m, spec).value[|members|], name), stack + [name], Err(e))
    ensures Decides(m, AGroup(name, spec), stack, Err(e))
  {
    hide GroupSettings, MembersOf, PatternOk, MembersFit, AgentSettings, TargetOf;
    var i := |members|;
    var t := TargetOf(m, MembersOf(m, spec).value[i], name);
    var path :| FailsAt(m, t, stack + [name], path, e);
    assert ([i] + path)[1..] == path;
    assert FailsAt(m, AGroup(name, spec), stack, [i] + path, e);
  }

  ghost predicate CycleIsReal(m: Manifest, r: Result<Config>) {
    r.Err? && r.error.Cycle? ==> RealCycle(m, r.error.path)
  }

  lemma MemberReached(m: Manifest, chain: seq<Link>, name: string, spec: Entries, i: nat, name': string, spec': Entries)
    requires IsChain(m, chain + [Link(name, spec)])
    requires MembersOf(m, spec).Some? && i < |MembersOf(m, spec).value|
    requires TargetOf(m, MembersOf(m, spec).value[i], name) == AGroup(name', spec')
    ensures IsChain(m, chain + [Link(name, spec)] + [Link(name', spec')])
  {
    var longer := chain + [Link(name, spec)];
    assert Edge(m, longer[|longer| - 1], Link(name', spec'));
  }

  lemma RefusedIsRealCycle(m: Manifest, chain: seq<Link>, name: string, spec: Entries)
    requires IsChain(m, chain + [Link(name, spec)]) && name in Names(chain)
    ensures RealCycle(m, Names(chain) + [name])
  {
    assert Names(chain + [Link(name, spec)]) == Names(chain) + [name];
  }

  lemma WholeGroup(m: Manifest, name: string, spec: Entries, stack: seq<string>, members: seq<Config>)
    requires name !in stack && PatternOk(GroupSettings(m, name, spec)) && MembersOf(m, spec).Some?
    requires |members| == |MembersOf(m, spec).value|
    requires MembersFit(m, name, MembersOf(m, spec).value, members, stack + [name])
    ensures
      var settings := GroupSettings(m, name, spec);
      Decides(m, AGroup(name, spec), stack,
              if m.groupOk(settings, members) then Ok(Group(name, settings, members)) else Err(InvalidGroup(name)))
  {
    hide PatternOk, GroupSettings, MembersOf;
    var settings := GroupSettings(m, name, spec);
    if m.groupOk(settings, members) {
      assert Fits(m, AGroup(name, spec), Group(name, settings, members), stack);
    } else {
      assert FailsAt(m, AGroup(name, spec), stack, [], InvalidGroup(name));
    }
  }

  // ---------- Cycles ----------

  /** The tree of a link of a chain, within a tree for the root. */
  lemma {:induction false} TreeOfLink(m: Manifest, chain: seq<Link>, k: nat, c: Config) returns (d: Config)
    requires IsChain(m, chain) && k < |chain| && Fits(m, RefTarget(m, m.root, RootNotFound), c, [])
    ensures Fits(m, AGroup(chain[k].name, chain[k].spec), d, Names(chain[..k]))
  {
    hide Fits, MembersOf, TargetOf;
    if k == 0 {
      d := c;
      assert Names(chain[..0]) == [];
    } else {
      var parent := TreeOfLink(m, chain, k - 1, c);
      var a, b := chain[k - 1], chain[k];
      assert Edge(m, a, b);
      var i :| 0 <= i < |MembersOf(m, a.spec).value|
               && TargetOf(m, MembersOf(m, a.spec).value[i], a.name) == AGroup(b.name, b.spec);
      MemberOfTree(m, a.name, a.spec, Names(chain[..k - 1]), parent, i);
      d := parent.members[i];
      assert Names(chain[..k]) == Names(chain[..k - 1]) + [a.name];
    }
  }

  lemma OutsideItself(m: Manifest, name: string, spec: Entries, stack: seq<string>, c: Config)
    requires Fits(m, AGroup(name, spec), c, stack)
    ensures name !in stack
  {
  }

  /** A manifest with a walk down from the root that repeats a name is never resolved. */
  lemma CycleIsNeverResolved(m: Manifest, path: seq<string>, r: Result<Config>)
    requires RealCycle(m, path) && Decides(m, RefTarget(m, m.root, RootNotFound), [], r)
    ensures r.Err?
  {
    hide FailsAt, Fits, FailsFirst, RefTarget, IsChain;
    if r.Ok? {
      var chain: seq<Link> :| IsChain(m, chain) && Names(chain) == path;
      var n := |chain| - 1;
      var d := TreeOfLink(m, chain, n, r.value);
      OutsideItself(m, chain[n].name, chain[n].spec, Names(chain[..n]), d);
    }
  }

  /**
   Resolution reports a cycle exactly when the first failure in member order is a group named like one above it:
   everything before it resolves, and no other error comes first.
   */
  lemma CycleExactlyWhenFirst(m: Manifest, path: seq<string>, r: Result<Config>)
    requires Decides(m, RefTarget(m, m.root, RootNotFound), [], r)
    ensures r == Err(Cycle(path)) <==> FailsFirst(m, RefTarget(m, m.root, RootNotFound), [], Cycle(path))
  {
    hide Fits, RefTarget, FailsFirst;
    var t, cycle: Result<Config> := RefTarget(m, m.root, RootNotFound), Err(Cycle(path));
    if Decides(m, t, [], cycle) {
      DecidesUnique(m, t, [], r, cycle);
    }
  }

  /**
   The stack holds names only, so an inline group that merely shares the name of a group above it is refused as a
   cycle, although no group refers to another here and the manifest describes a finite tree.
   */
  lemma NamesakeIsRefused(m: Manifest, name: string, r: Result<Config>)
    requires m.root == name != "" && name !in m.agents && m.defaultGroup == []
    requires name in m.groups && m.groups[name] == OfItsOwnName(name)
    requires Decides(m, RefTarget(m, m.root, RootNotFound), [], r)
    ensures r == Err(Cycle([name, name]))
  {
    assert RefTarget(m, name, RootNotFound) == AGroup(name, OfItsOwnName(name));
    hide *;
    OneMember(m, name);
    InlineIsAGroup(m, name);
    InlineIsRefused(m, name, InlineSpec(name));
    var stack: seq<string>, cycle: Result<Config> := [], Err(Cycle([name, name]));
    FailsInMember(m, name, OfItsOwnName(name), stack, [], Cycle([name, name]));
    DecidesUnique(m, AGroup(name, OfItsOwnName(name)), stack, r, cycle);
  }

  /** An inline pipeline without members. */
  function InlineSpec(name: string): Entries {
    [Entry("name", Str(name)), Entry("pattern", Str("pipeline")), Entry("members", List([]))]
  }

  /** A group whose only member is an inline group with this name. */
  function OfItsOwnName(name: string): Entries {
    [Entry("members", List([Dict(InlineSpec(name))]))]
  }

  lemma MergeOfOne(e: Entry)
    ensures DeepMerge([], [e]) == [e]
  {
    assert [e][..0] == [] && DeepMerge([], [e][..0]) == [] && Get([], e.key) == None;
  }

  lemma OneMember(m: Manifest, name: string)
    requires m.defaultGroup == []
    ensures MembersOf(m, OfItsOwnName(name)) == Some([Dict(InlineSpec(name))])
    ensures PatternOk(GroupSettings(m, name, OfItsOwnName(name)))
    ensures MembersFit(m, name, [Dict(InlineSpec(name))], [], [] + [name])
  {
    hide InlineSpec, DeepMerge;
    MergeOfOne(Entry("members", List([Dict(InlineSpec(name))])));
    hide OfItsOwnName, Fits;
    assert OfItsOwnName(name) == [Entry("members", List([Dict(InlineSpec(name))]))] by { OwnNameIs(name); }
    SetGet(OfItsOwnName(name), "name", Str(name), "pattern");
  }

  lemma OwnNameIs(name: string)
    ensures OfItsOwnName(name) == [Entry("members", List([Dict(InlineSpec(name))]))]
  {
  }

  lemma InlineIsAGroup(m: Manifest, name: string)
    requires name != ""
    ensures TargetOf(m, Dict(InlineSpec(name)), name) == AGroup(name, InlineSpec(name))
  {
    var spec := InlineSpec(name);
    assert spec[1].key == "pattern" && spec[2].key == "members";
    hide RefTarget;
  }

  lemma InlineIsRefused(m: Manifest, name: string, spec: Entries)
    ensures Decides(m, AGroup(name, spec), [] + [name], Err(Cycle([name, name])))
  {
    var stack: seq<string> := [] + [name];
    assert name in stack && stack + [name] == [name, name];
    hide MembersOf, MembersFit, PatternOk, GroupSettings, TargetOf, AgentSettings;
    FailsHere(m, AGroup(name, spec), stack, Cycle([name, name]));
  }

  // ---------- The recursion ----------

  method MergeSettings(m: Manifest, title: Value, spec: Entries) returns (settings: Entries)
    ensures settings == MergedSettings(m, title, spec)
  {
    hide DeepMerge, Set, HasKey;
    settings := MergeInto(m.defaultAgent, spec);
    settings := Set(settings, "name", title);
    if !HasKey(settings, "llm") && m.defaultLlm != [] {
      settings := Set(settings, "llm", Dict(m.defaultLlm));
    }
  }

  /** The steps that make an agent's settings, some of which may raise. */
  method SettingsOfAgent(m: Manifest, title: Value, spec: Entries) returns (r: Result<Entries>)
    ensures r == AgentSettings(m, title, spec)
  {
    hide MergedSettings, Set, Get, HasKey;
    var settings := MergeSettings(m, title, spec);
    var block := Get(settings, "persona");
    if IsDict(block) {
      var persona := m.persona(block.value.entries);
      if persona.None? {
        return Err(InvalidPersona);
      }
      settings := Set(settings, "persona", Dict(persona.value));
    }
    var model := Get(settings, "llm");
    if IsDict(model) {
      var modelConfig := m.modelConfig(model.value.entries);
      if modelConfig.None? {
        return Err(InvalidModel);
      }
      settings := Set(settings, "llm", modelConfig.value);
    }
    r := if m.agentOk(settings) then Ok(settings) else Err(InvalidAgent);
  }

  method ResolveAgent(m: Manifest, title: Value, spec: Entries, ghost stack: seq<string>) returns (r: Result<Config>)
    ensures Decides(m, AnAgent(title, spec), stack, r) && CycleIsReal(m, r)
    ensures r.Ok? ==> r.value.Agent? && AgentSays(m, title, spec, r.value.settings)
  {
    hide AgentSettings, FailsFirst, AgentSays;
    var settings := SettingsOfAgent(m, title, spec);
    if settings.Err? {
      AgentRaisesItsError(m, title, spec);
      FailsHere(m, AnAgent(title, spec), stack, settings.error);
      return Err(settings.error);
    }
    r := Ok(Agent(settings.value));
    AgentMeans(m, title, spec, settings.value);
  }

  lemma AgentRaisesItsError(m: Manifest, title: Value, spec: Entries)
    ensures AgentSettings(m, title, spec).Err? ==> !AgentSettings(m, title, spec).error.Cycle?
  {
  }

  method ResolveGroup(m: Manifest, name: string, spec: Entries, resolving: seq<string>, ghost chain: seq<Link>)
    returns (r: Result<Config>)
    requires Names(chain) == resolving && IsChain(m, chain + [Link(name, spec)])
    ensures Decides(m, AGroup(name, spec), resolving, r) && CycleIsReal(m, r)
    ensures r.Ok? ==> r.value.Group? && r.value.name == name && GroupSays(m, name, spec, r.value.settings)
    decreases Depth(m, name, resolving), MembersSize(m, spec), 2
  {
    hide Fits, RealCycle, IsChain, Edge, TargetOf, PatternOk, Depth, Below, DeepMerge, Set, Get;
    if name in resolving {
      RefusedIsRealCycle(m, chain, name, spec);
      FailsHere(m, AGroup(name, spec), resolving, Cycle(resolving + [name]));
      return Err(Cycle(resolving + [name]));
    }
    var settings := MergeInto(m.defaultGroup, spec);
    settings := Set(settings, "name", Str(name));
    GroupMeans(m, name, spec);
    hide GroupSays;
    if !PatternOk(settings) {
      FailsHere(m, AGroup(name, spec), resolving, UnsupportedPattern(name));
      return Err(UnsupportedPattern(name));
    }
    var entries := MembersOf(m, spec);
    if entries == None {
      FailsHere(m, AGroup(name, spec), resolving, MembersNotIterable(name));
      return Err(MembersNotIterable(name));
    }
    assert settings == GroupSettings(m, name, spec) && MembersSize(m, spec) == SizeAll(entries.value);
    hide GroupSettings, MembersOf, MembersSize, Size, FailsAt;
    var members: seq<Config> := [];
    var stack := resolving + [name];
    BelowMember(m, name, resolving);
    for i := 0 to |entries.value|
      invariant |members| == i && MembersFit(m, name, entries.value, members, stack)
    {
      ItemSize(entries.value, i);
      var one := ResolveMemberEntry(m, entries.value[i], name, stack, i, spec, chain);
      if one.Err? {
        FailsInMember(m, name, spec, resolving, members, one.error);
        return one;
      }
      members := members + [one.value];
    }
    WholeGroup(m, name, spec, resolving, members);
    if m.groupOk(settings, members) {
      r := Ok(Group(name, settings, members));
    } else {
      r := Err(InvalidGroup(name));
    }
  }

  method ResolveMemberEntry(m: Manifest, entry: Value, group: string, resolving: seq<string>, ghost i: nat,
                            ghost spec: Entries, ghost chain: seq<Link>)
    returns (r: Result<Config>)
    requires IsChain(m, chain + [Link(group, spec)]) && Names(chain + [Link(group, spec)]) == resolving
    requires MembersOf(m, spec).Some? && i < |MembersOf(m, spec).value| && MembersOf(m, spec).value[i] == entry
    ensures Decides(m, TargetOf(m, entry, group), resolving, r) && CycleIsReal(m, r)
    ensures exists t :: IsTarget(m, entry, group, t) && Decides(m, t, resolving, r)
    decreases Below(m, resolving), Size(entry), 1
  {
    TargetMeans(m, entry, group);
    hide IsTarget, Fits, FailsFirst;
    match entry
    case Str(name) =>
      r := ResolveMemberRef(m, name, group, resolving, i, spec, chain);
    case Dict(mapping) =>
      var title := Get(mapping, "name");
      if InlineGroup(mapping) {
        if title.None? || !title.value.Str? || title.value.s == "" {
          FailsHere(m, TargetOf(m, entry, group), resolving, InlineGroupWithoutName(group));
          return Err(InlineGroupWithoutName(group));
        }
        MemberReached(m, chain, group, spec, i, title.value.s, mapping);
        DepthOfInline(m, title.value.s, resolving);
        InlineSmaller(m, mapping);
        r := ResolveGroup(m, title.value.s, mapping, resolving, chain + [Link(group, spec)]);
      } else {
        r := ResolveAgent(m, if title.Some? then title.value else Str(group + "_member"), mapping, resolving);
      }
    case _ =>
      FailsHere(m, TargetOf(m, entry, group), resolving, InvalidMember(group));
      r := Err(InvalidMember(group));
  }

  method ResolveMemberRef(m: Manifest, name: string, group: string, resolving: seq<string>, ghost i: nat,
                          ghost spec: Entries, ghost chain: seq<Link>)
    returns (r: Result<Config>)
    requires IsChain(m, chain + [Link(group, spec)]) && Names(chain + [Link(group, spec)]) == resolving
    requires MembersOf(m, spec).Some? && i < |MembersOf(m, spec).value| && MembersOf(m, spec).value[i] == Str(name)
    ensures Decides(m, TargetOf(m, Str(name), group), resolving, r) && CycleIsReal(m, r)
    ensures name in m.agents ==> Decides(m, AnAgent(Str(name), m.agents[name]), resolving, r)
    ensures name !in m.agents && name in m.groups ==> Decides(m, AGroup(name, m.groups[name]), resolving, r)
    ensures name !in m.agents && name !in m.groups ==> r == Err(MemberNotFound(name, group))
    decreases Below(m, resolving), 0, 0
  {
    if name in m.agents {
      r := ResolveAgent(m, Str(name), m.agents[name], resolving);
    } else if name in m.groups {
      MemberReached(m, chain, group, spec, i, name, m.groups[name]);
      DepthOfRef(m, name, resolving);
      r := ResolveGroup(m, name, m.groups[name], resolving, chain + [Link(group, spec)]);
    } else {
      FailsHere(m, TargetOf(m, Str(name), group), resolving, MemberNotFound(name, group));
      r := Err(MemberNotFound(name, group));
    }
  }

  /**
   Resolution ends on every manifest. It succeeds exactly when there is a tree that fits the manifest, and then
   returns it, with no group inside itself; else its error is the first failure in member order, and a cycle error
   names a real walk down from the root.
   */
  method ResolveRoot(m: Manifest) returns (r: Result<Config>)
    ensures Decides(m, RefTarget(m, m.root, RootNotFound), [], r)
    ensures r.Ok? ==> NoRepeat(r.value, [])
    ensures r.Ok? ==>
              if m.root in m.agents then Means(m, AnAgent(Str(m.root), m.agents[m.root]), r.value)
              else m.root in m.groups && Means(m, AGroup(m.root, m.groups[m.root]), r.value)
    ensures m.root !in m.agents && m.root !in m.groups ==> r == Err(RootNotFound)
    ensures r.Err? ==> forall c :: !Fits(m, RefTarget(m, m.root, RootNotFound), c, [])
    ensures CycleIsReal(m, r)
  {
    hide Fits, FailsFirst, Means, AgentSays, GroupSays, NoRepeat, RealCycle;
    if m.root in m.agents {
      r := ResolveAgent(m, Str(m.root), m.agents[m.root], []);
    } else if m.root in m.groups {
      assert [] + [Link(m.root, m.groups[m.root])] == [Link(m.root, m.groups[m.root])];
      r := ResolveGroup(m, m.root, m.groups[m.root], [], []);
    } else {
      FailsHere(m, RefTarget(m, m.root, RootNotFound), [], RootNotFound);
      r := Err(RootNotFound);
    }
    if r.Ok? {
      FitsHasNoRepeat(m, RefTarget(m, m.root, RootNotFound), r.value, []);
      FitsMeans(m, RefTarget(m, m.root, RootNotFound), r.value, []);
    } else {
      FailedHasNoTree(m, RefTarget(m, m.root, RootNotFound), [], r);
    }
  }
}
