/** Normalisation of the `agents` section: legacy agents become plugins, and plugins get the defaults. */
module AgentsConfig {
  import opened DeepMerge
  import opened Fields
  import opened Keys
  import opened Text
  import opened Values

  /** The limits that plugins inherit from the defaults. */
  const LIMIT_FIELDS: seq<Field> := [
    MaxPromptContextBytes, MaxOutputChars, MaxToolIntents, MaxMemoryCandidates, MaxLlmCalls,
    MaxSelfManagedToolCalls, MaxSelfManagedMemorySearches
  ]

  // ---------- legacy agents ----------

  predicate ListsTool(allowed: Value) {
    allowed.Sequence? && exists item :: item in allowed.items && HasNonBlank(item)
  }

  predicate ListsReview(capabilities: Value) {
    capabilities.Sequence? &&
    exists item :: item in capabilities.items && item.Str? && Lower(Strip(item.text)) == "review"
  }

  function LegacyCapabilities(agent: Section): Section {
    var memory := SectionAt(agent, Memory);
    map[
      Known(Answer) := Bool(true),
      Known(Review) := Bool(ListsReview(At(agent, Capabilities))),
      Known(Stream) := Bool(true),
      Known(MemoryRead) := Bool(Truthy(At(memory, SearchEnabled))),
      Known(MemoryWrite) := Bool(Truthy(At(memory, WriteEnabled))),
      Known(MemoryCandidateExtract) := Bool(false),
      Known(ToolIntents) := Bool(ListsTool(At(agent, AllowedTools))),
      Known(ToolExecute) := Bool(false),
      Known(SelfManagedMemory) := Bool(false),
      Known(SelfManagedTools) := Bool(false)
    ]
  }

  function PluginFromLegacy(agent: Section): Section {
    var typed := if TextAt(agent, Type).None? then Put(agent, Type, Str("custom")) else agent;
    var capable :=
      if At(typed, Capabilities).Mapping? then typed
      else Put(typed, Capabilities, Mapping(LegacyCapabilities(agent)));
    if Entry(capable, AllowedToolIntents).None? && At(agent, AllowedTools).Sequence?
    then Put(capable, AllowedToolIntents, At(agent, AllowedTools)) else capable
  }

  // ---------- defaults for one plugin ----------

  /** The limits, completed with those of the defaults that are missing. */
  function FillLimits(limits: Section, defaults: Section, fields: seq<Field>): (filled: Section)
    ensures forall field ::
      Entry(filled, field) ==
        if Entry(limits, field).None? && field in fields then Entry(defaults, field) else Entry(limits, field)
    decreases fields
  {
    if fields == [] then limits
    else FillLimits(FillFrom(limits, fields[0], defaults, fields[0]), defaults, fields[1..])
  }

  /** `if content or key in section: section[key] = content`. */
  function PutIfAny(section: Section, field: Field, content: Section): (r: Section)
    ensures Entry(r, field) ==
      if content != map[] || Entry(section, field).Some? then Some(Mapping(content)) else None
    ensures forall other :: other != field ==> Entry(r, other) == Entry(section, other)
  {
    if content != map[] || Entry(section, field).Some? then Put(section, field, Mapping(content)) else section
  }

  function InheritSwitches(defaults: Section, plugin: Section): Section {
    FillFrom(
      FillFrom(FillFrom(plugin, Enabled, defaults, Enabled), StreamLlmDeltas, defaults, StreamLlmDeltas),
      ExposeMetadata, defaults, ExposeAgentMetadata)
  }

  function InheritLimits(defaults: Section, plugin: Section): Section {
    PutIfAny(plugin, Limits, FillLimits(SectionAt(plugin, Limits), defaults, LIMIT_FIELDS))
  }

  function InheritContextPolicy(defaults: Section, plugin: Section): Section {
    PutIfAny(plugin, ContextPolicy,
      FillFrom(SectionAt(plugin, ContextPolicy), MaxContextBytes, defaults, MaxPromptContextBytes))
  }

  function CapabilitiesOf(plugin: Section): Section {
    var capabilities := At(plugin, Capabilities);
    if capabilities.Mapping? then capabilities.entries else LegacyCapabilities(plugin)
  }

  function SettleCapabilities(plugin: Section): Section {
    Put(plugin, Capabilities, Mapping(CapabilitiesOf(plugin)))
  }

  function SettleTools(plugin: Section): Section {
    var intents := Entry(plugin, AllowedToolIntents);
    if Entry(plugin, AllowedTools).None? && intents.Some?
    then Put(plugin, AllowedTools, if intents.value.Sequence? then intents.value else Sequence([])) else plugin
  }

  function MemoryOf(plugin: Section): Section {
    var capabilities := SectionAt(plugin, Capabilities);
    PutDefault(
      PutDefault(SectionAt(plugin, Memory), SearchEnabled, Bool(Truthy(At(capabilities, MemoryRead)))),
      WriteEnabled, Bool(Truthy(At(capabilities, MemoryWrite))))
  }

  function SettleMemory(plugin: Section): Section {
    Put(plugin, Memory, Mapping(MemoryOf(plugin)))
  }

  function SettleType(plugin: Section): Section {
    if TextAt(plugin, Type).Some? then plugin
    else if TextAt(plugin, Module).Some? || TextAt(plugin, ClassName).Some? then Put(plugin, Type, Str("custom"))
    else Put(plugin, Type, Str("general_assistant"))
  }

  function Inherit(defaults: Section, plugin: Section): Section {
    InheritContextPolicy(defaults, InheritLimits(defaults, InheritSwitches(defaults, plugin)))
  }

  function Derive(plugin: Section): Section {
    SettleType(SettleMemory(SettleTools(SettleCapabilities(plugin))))
  }

  function ApplyDefaults(defaults: Section, plugin: Section): Section {
    Derive(Inherit(defaults, plugin))
  }

  // ---------- when nothing is left to do ----------

  predicate Inherited(defaults: Section, to: Field, plugin: Section, from: Field) {
    Entry(plugin, to).Some? || Entry(defaults, from).None?
  }

  predicate LimitsComplete(defaults: Section, limits: Section) {
    forall field :: field in LIMIT_FIELDS ==> Inherited(defaults, field, limits, field)
  }

  /** The first three steps: everything is inherited. */
  predicate AllInherited(defaults: Section, plugin: Section) {
    && Inherited(defaults, Enabled, plugin, Enabled)
    && Inherited(defaults, StreamLlmDeltas, plugin, StreamLlmDeltas)
    && Inherited(defaults, ExposeMetadata, plugin, ExposeAgentMetadata)
    && (At(plugin, Limits).Mapping? || Entry(plugin, Limits).None?)
    && LimitsComplete(defaults, SectionAt(plugin, Limits))
    && (At(plugin, ContextPolicy).Mapping? || Entry(plugin, ContextPolicy).None?)
    && Inherited(defaults, MaxContextBytes, SectionAt(plugin, ContextPolicy), MaxPromptContextBytes)
  }

  /** The last four steps: everything derived is there. */
  predicate AllDerived(plugin: Section) {
    CapabilitiesDerived(plugin) && MemoryDerived(plugin) && TextAt(plugin, Type).Some?
  }

  predicate CapabilitiesDerived(plugin: Section) {
    && At(plugin, Capabilities).Mapping?
    && (Entry(plugin, AllowedTools).Some? || Entry(plugin, AllowedToolIntents).None?)
  }

  predicate MemoryDerived(plugin: Section) {
    && At(plugin, Memory).Mapping?
    && Entry(SectionAt(plugin, Memory), SearchEnabled).Some?
    && Entry(SectionAt(plugin, Memory), WriteEnabled).Some?
  }

  lemma InheritInherits(defaults: Section, plugin: Section)
    ensures AllInherited(defaults, Inherit(defaults, plugin))
  {
    hide Entry, InheritSwitches, InheritLimits, InheritContextPolicy, LimitsComplete;
    var switched := InheritSwitches(defaults, plugin);
    var limited := InheritLimits(defaults, switched);
    SwitchesInherited(defaults, plugin);
    LimitsInherited(defaults, switched);
    ContextInherited(defaults, limited);
  }

  lemma SwitchesInherited(defaults: Section, plugin: Section)
    ensures var switched := InheritSwitches(defaults, plugin);
      && Inherited(defaults, Enabled, switched, Enabled)
      && Inherited(defaults, StreamLlmDeltas, switched, StreamLlmDeltas)
      && Inherited(defaults, ExposeMetadata, switched, ExposeAgentMetadata)
  {
    hide Entry, FillFrom;
  }

  lemma ContextInherited(defaults: Section, plugin: Section)
    ensures var settled := InheritContextPolicy(defaults, plugin);
      && (At(settled, ContextPolicy).Mapping? || Entry(settled, ContextPolicy).None?)
      && Inherited(defaults, MaxContextBytes, SectionAt(settled, ContextPolicy), MaxPromptContextBytes)
      && forall other :: other != ContextPolicy ==> Entry(settled, other) == Entry(plugin, other)
  {
    hide PutIfAny, FillFrom;
  }

  lemma LimitsInherited(defaults: Section, plugin: Section)
    ensures var limited := InheritLimits(defaults, plugin);
      && (At(limited, Limits).Mapping? || Entry(limited, Limits).None?)
      && LimitsComplete(defaults, SectionAt(limited, Limits))
      && forall other :: other != Limits ==> Entry(limited, other) == Entry(plugin, other)
  {
    hide PutIfAny, FillLimits;
  }

  lemma DeriveDerives(plugin: Section)
    ensures AllDerived(Derive(plugin))
  {
    hide Entry, SettleCapabilities, SettleTools, SettleMemory, SettleType, CapabilitiesDerived, MemoryDerived;
    ToolsSettled(plugin);
    MemorySettled(SettleTools(SettleCapabilities(plugin)));
    TypeSettled(SettleMemory(SettleTools(SettleCapabilities(plugin))));
  }

  lemma ToolsSettled(plugin: Section)
    ensures CapabilitiesDerived(SettleTools(SettleCapabilities(plugin)))
  {
    hide Entry, Put, CapabilitiesOf;
  }

  lemma MemorySettled(plugin: Section)
    requires CapabilitiesDerived(plugin)
    ensures CapabilitiesDerived(SettleMemory(plugin)) && MemoryDerived(SettleMemory(plugin))
  {
    hide Entry, Put, MemoryOf;
    MemoryComplete(plugin);
  }

  lemma MemoryComplete(plugin: Section)
    ensures Entry(MemoryOf(plugin), SearchEnabled).Some? && Entry(MemoryOf(plugin), WriteEnabled).Some?
  {
    hide Entry, PutDefault, Truthy;
  }

  lemma TypeSettled(plugin: Section)
    requires CapabilitiesDerived(plugin) && MemoryDerived(plugin)
    ensures CapabilitiesDerived(SettleType(plugin)) && MemoryDerived(SettleType(plugin))
    ensures TextAt(SettleType(plugin), Type).Some?
  {
    hide Entry, Put, Strip;
    NonBlank("custom");
    NonBlank("general_assistant");
  }

  /** Deriving leaves alone what was inherited. */
  lemma DeriveKeeps(plugin: Section, field: Field)
    requires field in {Enabled, StreamLlmDeltas, ExposeMetadata, Limits, ContextPolicy}
    ensures Entry(Derive(plugin), field) == Entry(plugin, field)
  {
    hide Entry, Put, CapabilitiesOf, MemoryOf, TextAt;
  }

  /** After applying the defaults a plugin is complete. */
  lemma ApplyCompletes(defaults: Section, plugin: Section)
    ensures AllInherited(defaults, ApplyDefaults(defaults, plugin)) && AllDerived(ApplyDefaults(defaults, plugin))
  {
    hide Entry, Inherit, Derive, AllDerived, LimitsComplete;
    var inherited := Inherit(defaults, plugin);
    InheritInherits(defaults, plugin);
    DeriveDerives(inherited);
    forall field | field in {Enabled, StreamLlmDeltas, ExposeMetadata, Limits, ContextPolicy} {
      DeriveKeeps(inherited, field);
    }
  }

  /** A plugin is left alone exactly when it has inherited and derived everything. */
  lemma CompleteIffUnchanged(defaults: Section, plugin: Section)
    ensures AllInherited(defaults, plugin) && AllDerived(plugin) <==> ApplyDefaults(defaults, plugin) == plugin
  {
    hide AllInherited, AllDerived, Inherit, Derive;
    ApplyCompletes(defaults, plugin);
    if AllInherited(defaults, plugin) && AllDerived(plugin) {
      InheritedUnchanged(defaults, plugin);
      DerivedUnchanged(plugin);
    }
  }

  lemma InheritedUnchanged(defaults: Section, plugin: Section)
    requires AllInherited(defaults, plugin)
    ensures Inherit(defaults, plugin) == plugin
  {
    hide Entry, PutIfAny, FillLimits;
    FilledAlready(SectionAt(plugin, Limits), defaults, LIMIT_FIELDS);
    PutIfAnySame(plugin, Limits);
    PutIfAnySame(plugin, ContextPolicy);
  }

  lemma {:induction false} FilledAlready(limits: Section, defaults: Section, fields: seq<Field>)
    requires forall field :: field in fields ==> Inherited(defaults, field, limits, field)
    ensures FillLimits(limits, defaults, fields) == limits
  {
    hide Entry;
    if fields != [] {
      assert Inherited(defaults, fields[0], limits, fields[0]);
      FilledAlready(limits, defaults, fields[1..]);
    }
  }

  lemma PutIfAnySame(section: Section, field: Field)
    requires At(section, field).Mapping? || Entry(section, field).None?
    ensures PutIfAny(section, field, SectionAt(section, field)) == section
  {
    if At(section, field).Mapping? {
      PutSame(section, field, At(section, field));
    }
  }

  lemma DerivedUnchanged(plugin: Section)
    requires AllDerived(plugin)
    ensures Derive(plugin) == plugin
  {
    hide Entry, Put, PutDefault, TextAt;
    PutSame(plugin, Capabilities, At(plugin, Capabilities));
    PutSame(plugin, Memory, At(plugin, Memory));
  }

  // ---------- what an explicit setting survives ----------

  /** The entries of a plugin that are replaced by a mapping when they are none. */
  const SECTION_FIELDS: set<Field> := {Limits, ContextPolicy, Capabilities, Memory}

  /** What may become of one entry: it stays, a section grows, or a blank type is replaced. */
  predicate EntryKept(key: Key, before: Value, after: Value) {
    || after == before
    || (key.Known? && key.field in SECTION_FIELDS && after.Mapping?
        && (before.Mapping? ==> Within(before.entries, after.entries)))
    || (key == Known(Type) && !HasNonBlank(before))
  }

  ghost predicate AllKept(before: Section, after: Section) {
    forall key :: key in before ==> key in after && EntryKept(key, before[key], after[key])
  }

  lemma AllKeptTwice(first: Section, second: Section, third: Section)
    requires AllKept(first, second) && AllKept(second, third)
    ensures AllKept(first, third)
  {
    hide HasNonBlank;
    forall key | key in first ensures key in third && EntryKept(key, first[key], third[key]) {
      assert EntryKept(key, first[key], second[key]) && EntryKept(key, second[key], third[key]);
    }
  }

  /** Every entry of a plugin is kept when the defaults are applied. */
  lemma ApplyKeepsAll(defaults: Section, plugin: Section)
    ensures AllKept(plugin, ApplyDefaults(defaults, plugin))
  {
    hide AllKept, InheritSwitches, InheritLimits, InheritContextPolicy;
    hide SettleCapabilities, SettleTools, SettleMemory, SettleType;
    var switched := InheritSwitches(defaults, plugin);
    var limited := InheritLimits(defaults, switched);
    var inherited := InheritContextPolicy(defaults, limited);
    InheritStepsKeep(defaults, plugin);
    InheritStepsKeep(defaults, switched);
    InheritStepsKeep(defaults, limited);
    AllKeptTwice(plugin, switched, limited);
    AllKeptTwice(plugin, limited, inherited);
    var capable := SettleCapabilities(inherited);
    var equipped := SettleTools(capable);
    var remembering := SettleMemory(equipped);
    DeriveStepsKeep(inherited);
    DeriveStepsKeep(capable);
    DeriveStepsKeep(equipped);
    DeriveStepsKeep(remembering);
    AllKeptTwice(plugin, inherited, capable);
    AllKeptTwice(plugin, capable, equipped);
    AllKeptTwice(plugin, equipped, remembering);
    AllKeptTwice(plugin, remembering, SettleType(remembering));
  }

  /** Writing one entry keeps the others; it keeps all if the new value keeps the old one. */
  lemma PutKeeps(section: Section, field: Field, value: Value)
    requires Entry(section, field).Some? ==> EntryKept(Known(field), Entry(section, field).value, value)
    ensures AllKept(section, Put(section, field, value))
  {
    hide HasNonBlank;
  }

  lemma NothingChanged(section: Section)
    ensures AllKept(section, section)
  {
    hide HasNonBlank;
  }

  lemma FillKeeps(target: Section, to: Field, source: Section, from: Field)
    ensures AllKept(target, FillFrom(target, to, source, from))
  {
    hide EntryKept, AllKept, Entry, Put;
    NothingChanged(target);
    if Entry(target, to).None? {
      PutKeeps(target, to, At(source, from));
    }
  }

  lemma SectionKeeps(section: Section, field: Field, content: Section)
    requires field in SECTION_FIELDS && Within(SectionAt(section, field), content)
    ensures AllKept(section, Put(section, field, Mapping(content)))
    ensures AllKept(section, PutIfAny(section, field, content))
  {
    hide AllKept, Put;
    PutKeeps(section, field, Mapping(content));
    NothingChanged(section);
  }

  lemma InheritStepsKeep(defaults: Section, plugin: Section)
    ensures AllKept(plugin, InheritSwitches(defaults, plugin))
    ensures AllKept(plugin, InheritLimits(defaults, plugin))
    ensures AllKept(plugin, InheritContextPolicy(defaults, plugin))
  {
    hide FillLimits, AllKept, FillFrom, PutIfAny, SectionAt, Within;
    var first := FillFrom(plugin, Enabled, defaults, Enabled);
    var second := FillFrom(first, StreamLlmDeltas, defaults, StreamLlmDeltas);
    FillKeeps(plugin, Enabled, defaults, Enabled);
    FillKeeps(first, StreamLlmDeltas, defaults, StreamLlmDeltas);
    FillKeeps(second, ExposeMetadata, defaults, ExposeAgentMetadata);
    AllKeptTwice(plugin, first, second);
    AllKeptTwice(plugin, second, InheritSwitches(defaults, plugin));
    FillLimitsKeeps(SectionAt(plugin, Limits), defaults, LIMIT_FIELDS);
    SectionKeeps(plugin, Limits, FillLimits(SectionAt(plugin, Limits), defaults, LIMIT_FIELDS));
    var policy := SectionAt(plugin, ContextPolicy);
    FillWithin(policy, MaxContextBytes, defaults, MaxPromptContextBytes);
    SectionKeeps(plugin, ContextPolicy, FillFrom(policy, MaxContextBytes, defaults, MaxPromptContextBytes));
  }

  lemma FillWithin(target: Section, to: Field, source: Section, from: Field)
    ensures Within(target, FillFrom(target, to, source, from))
  {
  }

  lemma {:induction false} FillLimitsKeeps(limits: Section, defaults: Section, fields: seq<Field>)
    ensures Within(limits, FillLimits(limits, defaults, fields))
    decreases fields
  {
    if fields != [] {
      FillLimitsKeeps(FillFrom(limits, fields[0], defaults, fields[0]), defaults, fields[1..]);
    }
  }

  lemma DeriveStepsKeep(plugin: Section)
    ensures AllKept(plugin, SettleCapabilities(plugin))
    ensures AllKept(plugin, SettleTools(plugin))
    ensures AllKept(plugin, SettleMemory(plugin))
    ensures AllKept(plugin, SettleType(plugin))
  {
    hide AllKept, Put, Entry, CapabilitiesOf, MemoryOf, Within, SectionAt;
    NothingChanged(plugin);
    CapabilitiesWithin(plugin);
    MemoryWithin(plugin);
    SectionKeeps(plugin, Capabilities, CapabilitiesOf(plugin));
    SectionKeeps(plugin, Memory, MemoryOf(plugin));
    if Entry(plugin, AllowedTools).None? {
      PutKeeps(plugin, AllowedTools, At(SettleTools(plugin), AllowedTools));
    }
    TypeKeeps(plugin);
  }

  lemma TypeKeeps(plugin: Section)
    ensures AllKept(plugin, SettleType(plugin))
  {
    hide AllKept, Put, Strip;
    NothingChanged(plugin);
    if TextAt(plugin, Type).None? {
      PutKeeps(plugin, Type, Str("custom"));
      PutKeeps(plugin, Type, Str("general_assistant"));
    }
  }

  lemma CapabilitiesWithin(plugin: Section)
    ensures Within(SectionAt(plugin, Capabilities), CapabilitiesOf(plugin))
  {
    hide LegacyCapabilities, Truthy, KnownOnly;
  }

  lemma MemoryWithin(plugin: Section)
    ensures Within(SectionAt(plugin, Memory), MemoryOf(plugin))
  {
    hide LegacyCapabilities, Truthy, KnownOnly, CapabilitiesOf;
  }

  // ---------- the whole section ----------

  /** The direct entries of the section that describe an agent in the legacy form. */
  function LegacyAgents(data: Section): Sections {
    MappingsIn(Mapping(data - {Known(Defaults), Known(Plugins)}))
  }

  /** Plugins and legacy agents of all names; under a name used by both, the plugin entry wins. */
  function CombinedAgents(plugins: Sections, legacy: Sections): Sections {
    map name | name in plugins.Keys + legacy.Keys ::
      if name in legacy then MergeSections(PluginFromLegacy(legacy[name]), SectionOf(plugins, name)) else plugins[name]
  }

  function WithDefaults(defaults: Section, plugins: Sections): Sections {
    map name | name in plugins :: ApplyDefaults(defaults, plugins[name])
  }

  function AgentsSection(defaults: Section, plugins: Sections): Section {
    map[Known(Defaults) := Mapping(defaults), Known(Plugins) := MappingOf(plugins)]
  }

  function NormalizeAgents(data: Section): Section {
    var combined := CombinedAgents(MappingsIn(At(data, Plugins)), LegacyAgents(data));
    AgentsSection(SectionAt(data, Defaults), WithDefaults(SectionAt(data, Defaults), combined))
  }

  lemma AgentsSectionReads(defaults: Section, plugins: Sections)
    ensures var data := AgentsSection(defaults, plugins);
      && SectionAt(data, Defaults) == defaults
      && MappingsIn(At(data, Plugins)) == plugins
      && LegacyAgents(data) == map[]
  {
    MappingsInMappingOf(plugins);
    assert AgentsSection(defaults, plugins) - {Known(Defaults), Known(Plugins)} == map[];
  }

  /** Normalising a normalised section changes nothing. */
  lemma NormalizeAgentsIdempotent(data: Section)
    ensures NormalizeAgents(NormalizeAgents(data)) == NormalizeAgents(data)
  {
    hide AgentsSection, ApplyDefaults, MergeSections, MappingsIn, SectionAt, At, LegacyAgents;
    var defaults := SectionAt(data, Defaults);
    var plugins := WithDefaults(defaults, CombinedAgents(MappingsIn(At(data, Plugins)), LegacyAgents(data)));
    AgentsSectionReads(defaults, plugins);
    assert CombinedAgents(plugins, map[]) == plugins;
    DefaultsAgain(defaults, CombinedAgents(MappingsIn(At(data, Plugins)), LegacyAgents(data)));
  }

  lemma DefaultsAgain(defaults: Section, plugins: Sections)
    ensures WithDefaults(defaults, WithDefaults(defaults, plugins)) == WithDefaults(defaults, plugins)
  {
    hide ApplyDefaults, AllInherited, AllDerived;
    forall name | name in plugins
      ensures ApplyDefaults(defaults, ApplyDefaults(defaults, plugins[name])) == ApplyDefaults(defaults, plugins[name])
    {
      ApplyCompletes(defaults, plugins[name]);
      CompleteIffUnchanged(defaults, ApplyDefaults(defaults, plugins[name]));
    }
  }

  /** Where a setting outlives normalisation: below the sections but not in place of one, and as a type only
      if it is a text that is not blank. */
  predicate Survives(path: seq<Key>, setting: Value)
    requires path != []
  {
    && (path[0] == Known(Type) ==> |path| == 1 && HasNonBlank(setting))
    && (path[0].Known? && path[0].field in SECTION_FIELDS ==> |path| > 1)
  }

  /** A setting given under `plugins` reaches the result unchanged, over any legacy agent of the same name
      and over the defaults, exactly when it can survive. */
  lemma PluginSettingSurvivesIff(data: Section, name: Key, path: seq<Key>, setting: Value)
    requires name in MappingsIn(At(data, Plugins)) && !setting.Mapping?
    requires Lookup(Mapping(MappingsIn(At(data, Plugins))[name]), path) == Some(setting)
    ensures Lookup(Mapping(NormalizeAgents(data)), [Known(Plugins), name] + path) == Some(setting)
       <==> Survives(path, setting)
  {
    hide ApplyDefaults, MergeSections, MappingsIn, SectionAt, LegacyAgents, Survives, PluginFromLegacy;
    var defaults, plugins, legacy := SectionAt(data, Defaults), MappingsIn(At(data, Plugins)), LegacyAgents(data);
    var combined := CombinedAgents(plugins, legacy)[name];
    assert Lookup(Mapping(combined), path) == Some(setting) by {
      if name in legacy {
        MergeAtPath(Mapping(PluginFromLegacy(legacy[name])), Mapping(plugins[name]), path);
        assert Mapping(combined) == Merge(Mapping(PluginFromLegacy(legacy[name])), Mapping(plugins[name])) by {
          MergedIsMapping(PluginFromLegacy(legacy[name]), plugins[name]);
        }
      }
    }
    ResultAtPath(data, name, path);
    SettingSurvivesIff(defaults, combined, path, setting);
  }

  lemma ResultAtPath(data: Section, name: Key, path: seq<Key>)
    requires name in CombinedAgents(MappingsIn(At(data, Plugins)), LegacyAgents(data))
    ensures var combined := CombinedAgents(MappingsIn(At(data, Plugins)), LegacyAgents(data))[name];
      Lookup(Mapping(NormalizeAgents(data)), [Known(Plugins), name] + path)
        == Lookup(Mapping(ApplyDefaults(SectionAt(data, Defaults), combined)), path)
  {
    hide ApplyDefaults, CombinedAgents, SectionAt, At, MappingsIn;
    var whole := [Known(Plugins), name] + path;
    assert whole[1..][1..] == path && whole[1..][0] == name;
  }

  lemma SettingSurvivesIff(defaults: Section, plugin: Section, path: seq<Key>, setting: Value)
    requires !setting.Mapping? && Lookup(Mapping(plugin), path) == Some(setting)
    ensures Lookup(Mapping(ApplyDefaults(defaults, plugin)), path) == Some(setting) <==> Survives(path, setting)
  {
    hide ApplyDefaults, Strip;
    var result := ApplyDefaults(defaults, plugin);
    ApplyKeepsAll(defaults, plugin);
    assert path[0] in plugin && path[0] in result;
    var before, after := plugin[path[0]], result[path[0]];
    assert EntryKept(path[0], before, after);
    CompleteKinds(defaults, plugin, path[0]);
    assert Lookup(before, path[1..]) == Some(setting);
    if |path| > 1 && after.Mapping? && Within(before.entries, after.entries) {
      LookupWithin(before.entries, after.entries, path[1..]);
    }
  }

  lemma LookupWithin(part: Section, whole: Section, path: seq<Key>)
    requires Within(part, whole) && path != [] && Lookup(Mapping(part), path).Some?
    ensures Lookup(Mapping(whole), path) == Lookup(Mapping(part), path)
  {
  }

  /** In a plugin with defaults the sections are mappings and the type is a text that is not blank. */
  lemma CompleteKinds(defaults: Section, plugin: Section, key: Key)
    requires key in ApplyDefaults(defaults, plugin)
    ensures var result := ApplyDefaults(defaults, plugin);
      && (key.Known? && key.field in SECTION_FIELDS ==> result[key].Mapping?)
      && (key == Known(Type) ==> HasNonBlank(result[key]))
  {
    hide ApplyDefaults, HasNonBlank;
    if key.Known? && key.field in SECTION_FIELDS {
      SectionKind(defaults, plugin, key.field);
    }
    if key == Known(Type) {
      TypeKind(defaults, plugin);
    }
  }

  lemma SectionKind(defaults: Section, plugin: Section, field: Field)
    requires field in SECTION_FIELDS && Known(field) in ApplyDefaults(defaults, plugin)
    ensures ApplyDefaults(defaults, plugin)[Known(field)].Mapping?
  {
    hide ApplyDefaults, LimitsComplete, Inherited, SectionAt, Entry, TextAt;
    ApplyCompletes(defaults, plugin);
    EntryOf(ApplyDefaults(defaults, plugin), field);
  }

  lemma TypeKind(defaults: Section, plugin: Section)
    requires Known(Type) in ApplyDefaults(defaults, plugin)
    ensures HasNonBlank(ApplyDefaults(defaults, plugin)[Known(Type)])
  {
    hide ApplyDefaults, AllInherited, CapabilitiesDerived, MemoryDerived, Entry, HasNonBlank;
    ApplyCompletes(defaults, plugin);
    EntryOf(ApplyDefaults(defaults, plugin), Type);
  }

  lemma EntryOf(section: Section, field: Field)
    ensures Known(field) in section ==> Entry(section, field) == Some(section[Known(field)])
  {
  }

  // ---------- what the results hold, entry by entry ----------

  /** The capabilities of a legacy agent: two always, four never, and the others told by its memory flags, its list of
      tools and its list of capabilities. */
  lemma LegacyCapabilitiesMean(agent: Section)
    ensures var result, memory := LegacyCapabilities(agent), SectionAt(agent, Memory);
      && (forall field :: field in {Answer, Stream} ==> Entry(result, field) == Some(Bool(true)))
      && (forall field :: field in {MemoryCandidateExtract, ToolExecute, SelfManagedMemory, SelfManagedTools} ==>
            Entry(result, field) == Some(Bool(false)))
      && Entry(result, MemoryRead) == Some(Bool(Truthy(At(memory, SearchEnabled))))
      && Entry(result, MemoryWrite) == Some(Bool(Truthy(At(memory, WriteEnabled))))
      && Entry(result, ToolIntents) == Some(Bool(NamesTool(At(agent, AllowedTools))))
      && Entry(result, Review) == Some(Bool(NamesReview(At(agent, Capabilities))))
  {
    hide Truthy, ListsTool, ListsReview, NamesTool, NamesReview, At, SectionAt;
    ListsMean(At(agent, AllowedTools));
    ListsMean(At(agent, Capabilities));
  }

  /** A list with a text in it that is not blank. */
  ghost predicate NamesTool(value: Value) {
    value.Sequence? && exists i :: 0 <= i < |value.items| && HoldsTool(value.items[i])
  }

  ghost predicate HoldsTool(item: Value) {
    item.Str? && Strip(item.text) != ""
  }

  /** A list with the word `review` in it, in any case and with spaces around. */
  ghost predicate NamesReview(value: Value) {
    value.Sequence? && exists i :: 0 <= i < |value.items| && HoldsReview(value.items[i])
  }

  ghost predicate HoldsReview(item: Value) {
    item.Str? && Lower(Strip(item.text)) == "review"
  }

  lemma ListsMean(value: Value)
    ensures ListsTool(value) <==> NamesTool(value)
    ensures ListsReview(value) <==> NamesReview(value)
  {
    hide Strip, Lower;
    if ListsTool(value) {
      var item :| item in value.items && HasNonBlank(item);
      var i :| 0 <= i < |value.items| && value.items[i] == item;
      assert HoldsTool(value.items[i]);
    }
    if NamesTool(value) {
      var i :| 0 <= i < |value.items| && HoldsTool(value.items[i]);
      assert value.items[i] in value.items && HasNonBlank(value.items[i]);
    }
  }

  /** A legacy agent as a plugin: a type, capabilities and tool intents are filled in where they are missing, and
      everything else stays. */
  lemma PluginFromLegacyMeans(agent: Section)
    ensures var plugin := PluginFromLegacy(agent);
      && Entry(plugin, Type) == (if TextAt(agent, Type).Some? then Entry(agent, Type) else Some(Str("custom")))
      && Entry(plugin, Capabilities) ==
         (if At(agent, Capabilities).Mapping? then Entry(agent, Capabilities)
          else Some(Mapping(LegacyCapabilities(agent))))
      && Entry(plugin, AllowedToolIntents) ==
         First(Entry(agent, AllowedToolIntents),
               if At(agent, AllowedTools).Sequence? then Entry(agent, AllowedTools) else None)
      && forall field :: field !in {Type, Capabilities, AllowedToolIntents} ==>
           Entry(plugin, field) == Entry(agent, field)
    ensures NamedOf(PluginFromLegacy(agent)) == NamedOf(agent)
  {
    hide Entry, LegacyCapabilities, Put, Strip, NamedOf;
    NamedKept();
  }

  /** A plugin with defaults, flag by flag and limit by limit: its own entry, or else the one of the defaults. */
  lemma InheritMeans(defaults: Section, plugin: Section)
    ensures var result := Inherit(defaults, plugin);
      var limits, policy := SectionAt(plugin, Limits), SectionAt(plugin, ContextPolicy);
      && Entry(result, Enabled) == First(Entry(plugin, Enabled), Entry(defaults, Enabled))
      && Entry(result, StreamLlmDeltas) == First(Entry(plugin, StreamLlmDeltas), Entry(defaults, StreamLlmDeltas))
      && Entry(result, ExposeMetadata) == First(Entry(plugin, ExposeMetadata), Entry(defaults, ExposeAgentMetadata))
      && (forall field :: Entry(SectionAt(result, Limits), field) ==
            First(Entry(limits, field), if field in LIMIT_FIELDS then Entry(defaults, field) else None))
      && (forall field :: Entry(SectionAt(result, ContextPolicy), field) ==
            First(Entry(policy, field),
                  if field == MaxContextBytes then Entry(defaults, MaxPromptContextBytes) else None))
      && forall field :: field !in {Enabled, StreamLlmDeltas, ExposeMetadata, Limits, ContextPolicy} ==>
           Entry(result, field) == Entry(plugin, field)
  {
    hide Entry, Inherit, LIMIT_FIELDS, SectionAt, First;
    InheritedSections(defaults, plugin);
    InheritedFlags(defaults, plugin);
  }

  lemma InheritedFlags(defaults: Section, plugin: Section)
    ensures var result := Inherit(defaults, plugin);
      && Entry(result, Enabled) == First(Entry(plugin, Enabled), Entry(defaults, Enabled))
      && Entry(result, StreamLlmDeltas) == First(Entry(plugin, StreamLlmDeltas), Entry(defaults, StreamLlmDeltas))
      && Entry(result, ExposeMetadata) == First(Entry(plugin, ExposeMetadata), Entry(defaults, ExposeAgentMetadata))
      && forall field :: field !in {Enabled, StreamLlmDeltas, ExposeMetadata, Limits, ContextPolicy} ==>
           Entry(result, field) == Entry(plugin, field)
  {
    hide Entry, InheritSwitches, InheritLimits, InheritContextPolicy, LIMIT_FIELDS, SectionAt, First;
    var switched := InheritSwitches(defaults, plugin);
    SwitchesMean(defaults, plugin);
    LimitsMean(defaults, switched);
    ContextMeans(defaults, InheritLimits(defaults, switched));
  }

  lemma InheritedSections(defaults: Section, plugin: Section)
    ensures var result := Inherit(defaults, plugin);
      var limits, policy := SectionAt(plugin, Limits), SectionAt(plugin, ContextPolicy);
      && (forall field :: Entry(SectionAt(result, Limits), field) ==
            First(Entry(limits, field), if field in LIMIT_FIELDS then Entry(defaults, field) else None))
      && (forall field :: Entry(SectionAt(result, ContextPolicy), field) ==
            First(Entry(policy, field),
                  if field == MaxContextBytes then Entry(defaults, MaxPromptContextBytes) else None))
  {
    hide Entry, InheritSwitches, InheritLimits, InheritContextPolicy, LIMIT_FIELDS, SectionAt, First;
    var switched := InheritSwitches(defaults, plugin);
    var limited := InheritLimits(defaults, switched);
    SwitchesMean(defaults, plugin);
    LimitsMean(defaults, switched);
    ContextMeans(defaults, limited);
    SectionKept(switched, plugin, Limits);
    SectionKept(limited, plugin, ContextPolicy);
    SectionKept(InheritContextPolicy(defaults, limited), limited, Limits);
  }

  lemma SwitchesMean(defaults: Section, plugin: Section)
    ensures var result := InheritSwitches(defaults, plugin);
      && Entry(result, Enabled) == First(Entry(plugin, Enabled), Entry(defaults, Enabled))
      && Entry(result, StreamLlmDeltas) == First(Entry(plugin, StreamLlmDeltas), Entry(defaults, StreamLlmDeltas))
      && Entry(result, ExposeMetadata) == First(Entry(plugin, ExposeMetadata), Entry(defaults, ExposeAgentMetadata))
      && forall field :: field !in {Enabled, StreamLlmDeltas, ExposeMetadata} ==>
           Entry(result, field) == Entry(plugin, field)
  {
    hide Entry, FillFrom;
  }

  lemma LimitsMean(defaults: Section, plugin: Section)
    ensures var result := InheritLimits(defaults, plugin);
      && (forall field :: Entry(SectionAt(result, Limits), field) ==
            First(Entry(SectionAt(plugin, Limits), field),
                  if field in LIMIT_FIELDS then Entry(defaults, field) else None))
      && forall field :: field != Limits ==> Entry(result, field) == Entry(plugin, field)
  {
    hide PutIfAny, FillLimits, LIMIT_FIELDS;
    EmptyHolds();
  }

  lemma ContextMeans(defaults: Section, plugin: Section)
    ensures var result := InheritContextPolicy(defaults, plugin);
      && (forall field :: Entry(SectionAt(result, ContextPolicy), field) ==
            First(Entry(SectionAt(plugin, ContextPolicy), field),
                  if field == MaxContextBytes then Entry(defaults, MaxPromptContextBytes) else None))
      && forall field :: field != ContextPolicy ==> Entry(result, field) == Entry(plugin, field)
  {
    hide PutIfAny, FillFrom;
    EmptyHolds();
  }

  lemma EmptyHolds()
    ensures forall field :: Entry(map[], field) == None
  {
  }

  /** What a plugin derives from its own entries: capabilities, tools, memory flags and a type. */
  lemma DeriveMeans(plugin: Section)
    ensures var result := Derive(plugin);
      var capabilities, memory := SectionAt(result, Capabilities), SectionAt(plugin, Memory);
      && Entry(result, Capabilities) ==
         (if At(plugin, Capabilities).Mapping? then Entry(plugin, Capabilities)
          else Some(Mapping(LegacyCapabilities(plugin))))
      && Entry(result, AllowedTools) ==
         First(Entry(plugin, AllowedTools),
               if Entry(plugin, AllowedToolIntents).None? then None
               else if At(plugin, AllowedToolIntents).Sequence? then Entry(plugin, AllowedToolIntents)
               else Some(Sequence([])))
      && (forall field :: Entry(SectionAt(result, Memory), field) ==
            First(Entry(memory, field),
                  if field == SearchEnabled then Some(Bool(Truthy(At(capabilities, MemoryRead))))
                  else if field == WriteEnabled then Some(Bool(Truthy(At(capabilities, MemoryWrite))))
                  else None))
      && Entry(result, Type) ==
         (if TextAt(plugin, Type).Some? then Entry(plugin, Type)
          else if TextAt(plugin, Module).Some? || TextAt(plugin, ClassName).Some? then Some(Str("custom"))
          else Some(Str("general_assistant")))
      && forall field :: field !in {Capabilities, AllowedTools, Memory, Type} ==>
           Entry(result, field) == Entry(plugin, field)
  {
    hide Entry, SettleCapabilities, SettleTools, SettleMemory, SettleType, LegacyCapabilities, Truthy, TextAt;
    hide At, SectionAt, First;
    var capable := SettleCapabilities(plugin);
    var tooled := SettleTools(capable);
    CapabilitiesMean(plugin);
    ToolsMean(capable);
    MemoryMeans(tooled);
    TypeOfPlugin(SettleMemory(tooled));
    AtKept(capable, plugin, AllowedToolIntents);
    SectionKept(tooled, plugin, Memory);
    SectionKept(tooled, Derive(plugin), Capabilities);
    SectionKept(SettleMemory(tooled), Derive(plugin), Memory);
    forall field | field in {Type, Module, ClassName}
      ensures TextAt(SettleMemory(tooled), field) == TextAt(plugin, field)
    {
      TextKept(SettleMemory(tooled), plugin, field);
    }
  }

  lemma CapabilitiesMean(plugin: Section)
    ensures var result := SettleCapabilities(plugin);
      && Entry(result, Capabilities) ==
         (if At(plugin, Capabilities).Mapping? then Entry(plugin, Capabilities)
          else Some(Mapping(LegacyCapabilities(plugin))))
      && forall field :: field != Capabilities ==> Entry(result, field) == Entry(plugin, field)
  {
    hide Entry, LegacyCapabilities, Put;
  }

  lemma ToolsMean(plugin: Section)
    ensures var result := SettleTools(plugin);
      && Entry(result, AllowedTools) ==
         First(Entry(plugin, AllowedTools),
               if Entry(plugin, AllowedToolIntents).None? then None
               else if At(plugin, AllowedToolIntents).Sequence? then Entry(plugin, AllowedToolIntents)
               else Some(Sequence([])))
      && forall field :: field != AllowedTools ==> Entry(result, field) == Entry(plugin, field)
  {
    hide Entry, Put;
  }

  lemma MemoryMeans(plugin: Section)
    ensures var result, memory := SettleMemory(plugin), SectionAt(plugin, Memory);
      var capabilities := SectionAt(plugin, Capabilities);
      && (forall field :: Entry(SectionAt(result, Memory), field) ==
            First(Entry(memory, field),
                  if field == SearchEnabled then Some(Bool(Truthy(At(capabilities, MemoryRead))))
                  else if field == WriteEnabled then Some(Bool(Truthy(At(capabilities, MemoryWrite))))
                  else None))
      && forall field :: field != Memory ==> Entry(result, field) == Entry(plugin, field)
  {
    hide Entry, Put, PutDefault, Truthy;
  }

  lemma TypeOfPlugin(plugin: Section)
    ensures var result := SettleType(plugin);
      && Entry(result, Type) ==
         (if TextAt(plugin, Type).Some? then Entry(plugin, Type)
          else if TextAt(plugin, Module).Some? || TextAt(plugin, ClassName).Some? then Some(Str("custom"))
          else Some(Str("general_assistant")))
      && forall field :: field != Type ==> Entry(result, field) == Entry(plugin, field)
  {
    hide Entry, Put, TextAt;
  }

  // ---------- the loops ----------

  /** Fills in the limits one key after the other. */
  method FillMissingLimits(limits: Section, defaults: Section, fields: seq<Field>) returns (filled: Section)
    ensures filled == FillLimits(limits, defaults, fields)
  {
    hide Entry, Put;
    filled := limits;
    for i := 0 to |fields|
      invariant FillLimits(filled, defaults, fields[i..]) == FillLimits(limits, defaults, fields)
    {
      assert fields[i..][1..] == fields[i + 1..];
      if Entry(filled, fields[i]).None? && Entry(defaults, fields[i]).Some? {
        filled := Put(filled, fields[i], At(defaults, fields[i]));
      }
    }
  }

  lemma CombineOneMore(plugins: Sections, done: Sections, name: Key, agent: Section)
    requires name !in done
    ensures SectionOf(CombinedAgents(plugins, done), name) == SectionOf(plugins, name)
    ensures CombinedAgents(plugins, done[name := agent])
      == CombinedAgents(plugins, done)[name := MergeSections(PluginFromLegacy(agent), SectionOf(plugins, name))]
  {
    hide MergeSections, PluginFromLegacy;
  }

  lemma CombineNothing(plugins: Sections)
    ensures CombinedAgents(plugins, map[]) == plugins
  {
    hide MergeSections, PluginFromLegacy;
  }

  /** Merges every legacy agent under the plugin of the same name. */
  method CombineAgents(value: Section) returns (plugins: Sections)
    ensures plugins == CombinedAgents(MappingsIn(At(value, Plugins)), LegacyAgents(value))
  {
    hide MergeSections, PluginFromLegacy, CombinedAgents, MappingsIn;
    plugins := MappingsIn(At(value, Plugins));
    ghost var before, legacy: Sections := plugins, map[];
    var rest := value.Keys;
    CombineNothing(plugins);
    while rest != {}
      invariant rest <= value.Keys
      invariant plugins == CombinedAgents(before, legacy)
      invariant forall key :: key in legacy <==>
        key in value && key !in rest && key !in {Known(Defaults), Known(Plugins)} && value[key].Mapping?
      invariant forall key :: key in legacy ==> legacy[key] == value[key].entries
      decreases |rest|
    {
      var key :| key in rest;
      rest := rest - {key};
      if key !in {Known(Defaults), Known(Plugins)} && value[key].Mapping? {
        CombineOneMore(before, legacy, key, value[key].entries);
        var merged := MergeMappings(PluginFromLegacy(value[key].entries), SectionOf(plugins, key));
        plugins := plugins[key := merged];
        legacy := legacy[key := value[key].entries];
      }
    }
    LegacyAgentsAre(value, legacy);
  }

  /** The validator itself: legacy agents are merged under the plugins, then every plugin gets the defaults. */
  method NormalizeAgentsSection(value: Section) returns (normalized: Section)
    ensures normalized == NormalizeAgents(value)
  {
    hide ApplyDefaults, CombinedAgents, MappingsIn, SectionAt, LegacyAgents, AgentsSection;
    var defaults := SectionAt(value, Defaults);
    var plugins := CombineAgents(value);
    var completed: Sections := map[];
    var rest := plugins.Keys;
    while rest != {}
      invariant rest <= plugins.Keys
      invariant completed.Keys == plugins.Keys - rest
      invariant forall name :: name in completed ==> completed[name] == ApplyDefaults(defaults, plugins[name])
      decreases |rest|
    {
      var name :| name in rest;
      completed := completed[name := ApplyDefaults(defaults, plugins[name])];
      rest := rest - {name};
    }
    assert completed == WithDefaults(defaults, plugins);
    return AgentsSection(defaults, completed);
  }

  lemma LegacyAgentsAre(data: Section, legacy: Sections)
    requires forall key :: key in legacy <==>
      key in data && key !in {Known(Defaults), Known(Plugins)} && data[key].Mapping?
    requires forall key :: key in legacy ==> legacy[key] == data[key].entries
    ensures legacy == LegacyAgents(data)
  {
  }
}
