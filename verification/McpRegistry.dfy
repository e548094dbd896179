/** The registry of discovered MCP tools: what is on record about each tool, and which tool owns which name. */
module McpRegistry {
  import opened Values

  datatype LoadStatus = Loaded | Disabled | Failed

  datatype Health = Fine | Degraded | Faulty | Off

  /** What a plugin can report. */
  type PluginHealth = health: Health | !health.Off? witness Fine

  /** A valid manifest: the name of the tool and the names of the functions it provides. */
  datatype Manifest = Manifest(name: string, required: bool, toolNames: seq<string>)

  datatype Tool = Tool(
    name: string, required: bool, enabled: bool, status: LoadStatus, toolNames: seq<string>,
    health: Health, reason: Option<string>)

  /** The two maps of the registry: tools by name, and the owner of each function name. */
  datatype State = State(tools: map<string, Tool>, owners: map<string, string>)

  const EMPTY: State := State(map[], map[])

  /** No other tool owns one of the names. */
  predicate Available(owners: map<string, string>, toolNames: seq<string>, owner: string) {
    forall n :: n in toolNames && n in owners ==> owners[n] == owner
  }

  function Claim(owners: map<string, string>, toolNames: seq<string>, owner: string): map<string, string> {
    owners + map n | n in toolNames :: owner
  }

  function Built(manifest: Manifest, status: LoadStatus, health: Health): Tool {
    Tool(manifest.name, manifest.required, !status.Disabled?, status, manifest.toolNames, health, None)
  }

  function Unnamed(name: string, required: bool): Tool {
    Tool(name, required, true, Failed, [], Faulty, None)
  }

  function Store(state: State, tool: Tool): State {
    State(state.tools[tool.name := tool],
          if tool.enabled then Claim(state.owners, tool.toolNames, tool.name) else state.owners)
  }

  // ---------- calls of the registry ----------

  datatype Call =
    | RegisterPlugin(manifest: Manifest, health: PluginHealth)
    | RegisterDisabled(manifest: Manifest)
    | RegisterFailed(manifest: Manifest)
    | RegisterFailedName(name: string, required: bool)
    | MarkUnhealthy(name: string, why: string)

  /** Whether the call succeeds; a call that does not leaves the registry as it is. */
  predicate Accepts(state: State, call: Call) {
    match call
    case RegisterPlugin(manifest, _) => Available(state.owners, manifest.toolNames, manifest.name)
    case MarkUnhealthy(name, _) => name in state.tools
    case _ => true
  }

  function After(state: State, call: Call): State {
    if !Accepts(state, call) then state
    else
      match call
      case RegisterPlugin(manifest, health) => Store(state, Built(manifest, Loaded, health))
      case RegisterDisabled(manifest) => state.(tools := state.tools[manifest.name := Built(manifest, Disabled, Off)])
      case RegisterFailed(manifest) => Store(state, Built(manifest, Failed, Faulty))
      case RegisterFailedName(name, required) => state.(tools := state.tools[name := Unnamed(name, required)])
      case MarkUnhealthy(name, why) =>
        var tool := state.tools[name];
        var health := if tool.status.Failed? then Faulty else Degraded;
        state.(tools := state.tools[name := tool.(health := health, reason := Some(why))])
  }

  ghost function AfterAll(state: State, calls: seq<Call>): State {
    if calls == [] then state
    else After(AfterAll(state, calls[..|calls| - 1]), calls[|calls| - 1])
  }

  // ---------- counts ----------

  datatype Counts = Counts(loaded: nat, enabled: nat, disabled: nat, failed: nat, unhealthy: nat)

  predicate IsLoaded(tool: Tool) { tool.status.Loaded? }

  predicate IsEnabled(tool: Tool) { tool.enabled }

  predicate IsDisabled(tool: Tool) { tool.status.Disabled? }

  predicate IsFailed(tool: Tool) { tool.status.Failed? }

  predicate IsUnhealthy(tool: Tool) { tool.health.Degraded? || tool.health.Faulty? }

  function Those(tools: map<string, Tool>, kind: Tool -> bool): set<string> {
    set k | k in tools && kind(tools[k])
  }

  function Summary(tools: map<string, Tool>): Counts {
    Counts(
      |Those(tools, IsLoaded)|, |Those(tools, IsEnabled)|, |Those(tools, IsDisabled)|, |Those(tools, IsFailed)|,
      |Those(tools, IsUnhealthy)|)
  }

  /** What the registry keeps about each tool. */
  ghost predicate WellKept(tools: map<string, Tool>) {
    forall k :: k in tools ==>
      && tools[k].name == k
      && (tools[k].enabled <==> !tools[k].status.Disabled?)
      && (tools[k].status.Failed? ==> tools[k].health.Faulty?)
  }

  lemma CallKeeps(state: State, call: Call)
    requires WellKept(state.tools)
    ensures WellKept(After(state, call).tools)
  {
    hide Claim, Available;
  }

  lemma {:induction false} AllCallsKeep(state: State, calls: seq<Call>)
    requires WellKept(state.tools)
    ensures WellKept(AfterAll(state, calls).tools)
  {
    hide WellKept, After;
    if calls != [] {
      AllCallsKeep(state, calls[..|calls| - 1]);
      CallKeeps(AfterAll(state, calls[..|calls| - 1]), calls[|calls| - 1]);
    }
  }

  /** In every state the registry can reach, every tool is counted once as loaded, disabled or failed, the enabled
      ones are those loaded or failed, and a failed one is always unhealthy. */
  lemma CountsAgree(calls: seq<Call>)
    ensures var tools := AfterAll(EMPTY, calls).tools; var counts := Summary(tools);
      && counts.loaded + counts.disabled + counts.failed == |tools|
      && counts.enabled == counts.loaded + counts.failed
      && counts.failed <= counts.unhealthy
  {
    hide AfterAll;
    AllCallsKeep(EMPTY, calls);
    CountTools(AfterAll(EMPTY, calls).tools);
  }

  lemma CountTools(tools: map<string, Tool>)
    requires WellKept(tools)
    ensures var counts := Summary(tools);
      && counts.loaded + counts.disabled + counts.failed == |tools|
      && counts.enabled == counts.loaded + counts.failed
      && counts.failed <= counts.unhealthy
  {
    CountParts(Those(tools, IsEnabled), Those(tools, IsLoaded), Those(tools, IsFailed));
    CountParts(tools.Keys, Those(tools, IsEnabled), Those(tools, IsDisabled));
    CountParts(Those(tools, IsUnhealthy), Those(tools, IsFailed), Those(tools, IsUnhealthy) - Those(tools, IsFailed));
  }

  lemma CountParts(whole: set<string>, part: set<string>, rest: set<string>)
    requires forall k :: k in whole <==> k in part || k in rest
    requires forall k :: k in part ==> k !in rest
    ensures |whole| == |part| + |rest|
  {
    assert whole == part + rest;
  }

  // ---------- ownership ----------

  /** A tool that is loaded or failed holds on to its names. */
  predicate Live(tool: Tool) {
    !tool.status.Disabled?
  }

  ghost predicate Owns(state: State, k: string)
    requires k in state.tools
  {
    forall n :: n in state.tools[k].toolNames ==> n in state.owners && state.owners[n] == k
  }

  /** Every live tool owns all its names, and every owner is on record. */
  ghost predicate Owned(state: State) {
    && WellKept(state.tools)
    && (forall k :: k in state.tools && Live(state.tools[k]) ==> Owns(state, k))
    && (forall n :: n in state.owners ==> state.owners[n] in state.tools)
  }

  /** Ownership means that no two live tools share a name. */
  lemma NoSharedName(state: State, j: string, k: string, n: string)
    requires Owned(state) && j in state.tools && k in state.tools
    requires Live(state.tools[j]) && Live(state.tools[k])
    requires n in state.tools[j].toolNames && n in state.tools[k].toolNames
    ensures j == k
  {
    assert Owns(state, j) && Owns(state, k);
  }

  /** What a call that succeeds leaves behind: a record of its own tool, told field by field, the records of all
      others as they were, and the names of a tool that was loaded or failed in its hands. */
  lemma CallTold(state: State, call: Call)
    requires Accepts(state, call)
    ensures var after, name := After(state, call), if HasManifest(call) then call.manifest.name else call.name;
      && after.tools.Keys == state.tools.Keys + {name}
      && (forall k :: k in state.tools && k != name ==> after.tools[k] == state.tools[k])
      && RecordTold(state, call, after.tools[name])
      && after.owners.Keys == state.owners.Keys + set n | n in NamesTaken(call)
      && forall n :: n in after.owners ==> after.owners[n] == if n in NamesTaken(call) then name else state.owners[n]
  {
  }

  ghost predicate HasManifest(call: Call) {
    call.RegisterPlugin? || call.RegisterDisabled? || call.RegisterFailed?
  }

  /** The names that go to the tool of a call. */
  ghost function NamesTaken(call: Call): seq<string> {
    if call.RegisterPlugin? || call.RegisterFailed? then call.manifest.toolNames else []
  }

  ghost predicate RecordTold(state: State, call: Call, tool: Tool) {
    && (HasManifest(call) ==>
          && tool.name == call.manifest.name && tool.required == call.manifest.required
          && tool.toolNames == call.manifest.toolNames && tool.reason.None?)
    && (call.RegisterFailedName? ==>
          tool.name == call.name && tool.required == call.required && tool.toolNames == [] && tool.reason.None?)
    && (call.RegisterPlugin? ==> tool.enabled && tool.status.Loaded? && tool.health == call.health)
    && (call.RegisterDisabled? ==> !tool.enabled && tool.status.Disabled? && tool.health.Off?)
    && (call.RegisterFailed? || call.RegisterFailedName? ==> tool.enabled && tool.status.Failed? && tool.health.Faulty?)
    && (call.MarkUnhealthy? && call.name in state.tools ==>
          var before := state.tools[call.name];
          && tool == before.(health := tool.health, reason := Some(call.why))
          && (if before.status.Failed? then tool.health.Faulty? else tool.health.Degraded?))
  }

  /** Recording a failed tool takes its names without asking: ownership survives exactly when no other live tool
      has one of them. */
  lemma FailedKeepsOwnedIff(state: State, manifest: Manifest)
    requires Owned(state)
    ensures Owned(After(state, RegisterFailed(manifest))) <==>
      forall k, n :: k in state.tools && k != manifest.name && Live(state.tools[k]) && n in state.tools[k].toolNames ==>
        n !in manifest.toolNames
  {
    var after := After(state, RegisterFailed(manifest));
    if forall k, n :: k in state.tools && k != manifest.name && Live(state.tools[k]) && n in state.tools[k].toolNames ==>
        n !in manifest.toolNames
    {
      forall k | k in after.tools && Live(after.tools[k]) ensures Owns(after, k) {
        assert k != manifest.name ==> Owns(state, k);
      }
    } else {
      var k, n :| k in state.tools && k != manifest.name && Live(state.tools[k]) && n in state.tools[k].toolNames
        && n in manifest.toolNames;
      assert after.owners[n] == manifest.name && after.tools[k] == state.tools[k];
      assert !Owns(after, k);
    }
  }

  /** A call whose names are available, or that claims none, keeps ownership, and every entry written before. */
  lemma AvailableKeepsOwned(state: State, call: Call)
    requires Owned(state)
    requires call.RegisterFailed? ==> Available(state.owners, call.manifest.toolNames, call.manifest.name)
    ensures Owned(After(state, call))
    ensures forall n :: n in state.owners ==>
      n in After(state, call).owners && After(state, call).owners[n] == state.owners[n]
  {
    var after := After(state, call);
    forall k | k in after.tools && Live(after.tools[k]) ensures Owns(after, k) {
      if k in state.tools && Live(state.tools[k]) {
        assert Owns(state, k);
      }
    }
  }

  // ---------- the registry as an object ----------

  class ToolRegistry {
    var tools: map<string, Tool>
    var fastmcpToolNames: map<string, string>

    function Abstract(): State
      reads this
    {
      State(tools, fastmcpToolNames)
    }

    constructor ()
      ensures Abstract() == EMPTY
    {
      tools, fastmcpToolNames := map[], map[];
    }

    /** The first name another tool owns, with that tool; None exactly when all names are available. */
    method FirstDuplicate(toolNames: seq<string>, owner: string) returns (duplicate: Option<(string, string)>)
      ensures duplicate.None? <==> Available(fastmcpToolNames, toolNames, owner)
      ensures duplicate.Some? ==>
        exists i :: 0 <= i < |toolNames| && toolNames[i] == duplicate.value.0
          && Available(fastmcpToolNames, toolNames[..i], owner)
          && toolNames[i] in fastmcpToolNames && fastmcpToolNames[toolNames[i]] == duplicate.value.1 != owner
    {
      var duplicates: seq<(string, string)> := [];
      for i := 0 to |toolNames|
        invariant duplicates == [] <==> Available(fastmcpToolNames, toolNames[..i], owner)
        invariant duplicates != [] ==>
          exists j :: 0 <= j < i && toolNames[j] == duplicates[0].0
            && Available(fastmcpToolNames, toolNames[..j], owner)
            && toolNames[j] in fastmcpToolNames && fastmcpToolNames[toolNames[j]] == duplicates[0].1 != owner
      {
        var name := toolNames[i];
        assert toolNames[..i + 1] == toolNames[..i] + [name];
        if name in fastmcpToolNames && fastmcpToolNames[name] != owner {
          duplicates := duplicates + [(name, fastmcpToolNames[name])];
        }
      }
      assert toolNames[..|toolNames|] == toolNames;
      duplicate := if duplicates == [] then None else Some(duplicates[0]);
    }

    method StoreTool(tool: Tool)
      modifies this
      ensures Abstract() == Store(old(Abstract()), tool)
    {
      hide Claim;
      tools := tools[tool.name := tool];
      if tool.enabled {
        ClaimNone(fastmcpToolNames, tool.toolNames, tool.name);
        for i := 0 to |tool.toolNames|
          invariant tools == old(tools)[tool.name := tool]
          invariant fastmcpToolNames == Claim(old(fastmcpToolNames), tool.toolNames[..i], tool.name)
        {
          ClaimOneMore(old(fastmcpToolNames), tool.toolNames, i, tool.name);
          fastmcpToolNames := fastmcpToolNames[tool.toolNames[i] := tool.name];
        }
        assert tool.toolNames[..|tool.toolNames|] == tool.toolNames;
      }
    }

    method RegisterPlugin(manifest: Manifest, health: PluginHealth) returns (duplicate: Option<(string, string)>)
      modifies this
      ensures duplicate.None? <==> Accepts(old(Abstract()), Call.RegisterPlugin(manifest, health))
      ensures Abstract() == After(old(Abstract()), Call.RegisterPlugin(manifest, health))
    {
      duplicate := FirstDuplicate(manifest.toolNames, manifest.name);
      if duplicate.None? {
        StoreTool(Built(manifest, Loaded, health));
      }
    }

    method RegisterDisabled(manifest: Manifest)
      modifies this
      ensures Abstract() == After(old(Abstract()), Call.RegisterDisabled(manifest))
    {
      tools := tools[manifest.name := Built(manifest, Disabled, Off)];
    }

    method RegisterFailed(manifest: Manifest)
      modifies this
      ensures Abstract() == After(old(Abstract()), Call.RegisterFailed(manifest))
    {
      StoreTool(Built(manifest, Failed, Faulty));
    }

    method RegisterFailedName(name: string, required: bool)
      modifies this
      ensures Abstract() == After(old(Abstract()), Call.RegisterFailedName(name, required))
    {
      tools := tools[name := Unnamed(name, required)];
    }

    method MarkUnhealthy(name: string, why: string) returns (known: bool)
      modifies this
      ensures known <==> Accepts(old(Abstract()), Call.MarkUnhealthy(name, why))
      ensures Abstract() == After(old(Abstract()), Call.MarkUnhealthy(name, why))
    {
      known := name in tools;
      if known {
        var tool := tools[name];
        tools := tools[name := tool.(health := if tool.status.Failed? then Faulty else Degraded, reason := Some(why))];
      }
    }

    /** Counts tool by tool what `Summary` says of the whole map. */
    method HealthSummary() returns (counts: Counts)
      ensures counts == Summary(tools)
    {
      hide Those, One, IsUnhealthy;
      NoneCounted();
      counts := Counts(0, 0, 0, 0, 0);
      var left := tools.Keys;
      assert tools - left == map[];
      while left != {}
        invariant left <= tools.Keys
        invariant counts == Summary(tools - left)
      {
        var k :| k in left;
        var tool := tools[k];
        CountOneMore(tools, left, k);
        counts := Counts(
          counts.loaded + One(IsLoaded(tool)),
          counts.enabled + One(IsEnabled(tool)),
          counts.disabled + One(IsDisabled(tool)),
          counts.failed + One(IsFailed(tool)),
          counts.unhealthy + One(IsUnhealthy(tool)));
        left := left - {k};
      }
      assert tools - left == tools;
    }
  }

  lemma ClaimNone(owners: map<string, string>, toolNames: seq<string>, owner: string)
    ensures Claim(owners, toolNames[..0], owner) == owners
  {
  }

  lemma ClaimOneMore(owners: map<string, string>, toolNames: seq<string>, i: nat, owner: string)
    requires i < |toolNames|
    ensures Claim(owners, toolNames[..i + 1], owner) == Claim(owners, toolNames[..i], owner)[toolNames[i] := owner]
  {
    assert toolNames[..i + 1] == toolNames[..i] + [toolNames[i]];
  }

  lemma NoneCounted()
    ensures Summary(map[]) == Counts(0, 0, 0, 0, 0)
  {
  }

  function One(counted: bool): nat {
    if counted then 1 else 0
  }

  lemma CountOneMore(tools: map<string, Tool>, left: set<string>, k: string)
    requires left <= tools.Keys && k in left
    ensures Summary(tools - (left - {k})) == Counts(
      Summary(tools - left).loaded + One(IsLoaded(tools[k])),
      Summary(tools - left).enabled + One(IsEnabled(tools[k])),
      Summary(tools - left).disabled + One(IsDisabled(tools[k])),
      Summary(tools - left).failed + One(IsFailed(tools[k])),
      Summary(tools - left).unhealthy + One(IsUnhealthy(tools[k])))
  {
    hide Those, One, IsUnhealthy;
    var seen, tool := tools - left, tools[k];
    assert tools - (left - {k}) == seen[k := tool];
    OneMore(seen, k, tool, IsLoaded);
    OneMore(seen, k, tool, IsEnabled);
    OneMore(seen, k, tool, IsDisabled);
    OneMore(seen, k, tool, IsFailed);
    OneMore(seen, k, tool, IsUnhealthy);
  }

  lemma OneMore(tools: map<string, Tool>, k: string, tool: Tool, kind: Tool -> bool)
    requires k !in tools
    ensures |Those(tools[k := tool], kind)| == |Those(tools, kind)| + One(kind(tool))
  {
    assert Those(tools[k := tool], kind) == if kind(tool) then Those(tools, kind) + {k} else Those(tools, kind);
  }
}
