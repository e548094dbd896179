/** How one strategy or one use case is mirrored between its legacy and its orchestration form. */
module Mirroring {
  import opened Text
  import opened Values
  import opened DeepMerge
  import opened Fields
  import opened Keys

  // ---------- the type of a strategy ----------

  const STRATEGY_TYPES: set<string> :=
    {"echo", "direct_agent", "retrieval_augmented", "tool_assisted", "router",
     "bounded_planner", "memory_update", "fallback_answer"}

  function NormalizeStrategyType(text: string): (normalized: Option<string>)
    ensures normalized.Some? ==> normalized.value in STRATEGY_TYPES
  {
    var lowered := Lower(Strip(text));
    var name := if lowered == "direct" then "direct_agent" else lowered;
    if name in STRATEGY_TYPES then Some(name) else None
  }

  /** Normalising a type a second time changes nothing. */
  lemma StrategyTypeStable(text: string)
    requires NormalizeStrategyType(text).Some?
    ensures NormalizeStrategyType(NormalizeStrategyType(text).value) == NormalizeStrategyType(text)
  {
    var lowered := Lower(Strip(text));
    LowerStripped(Strip(text));
    StripFixed(lowered);
    LowerIdempotent(Strip(text));
    if lowered == "direct" {
      DirectAgentFixed();
    }
  }

  predicate LowerWord(s: string) {
    forall i :: 0 <= i < |s| ==> 'a' <= s[i] <= 'z' || s[i] == '_'
  }

  lemma LowerWordFixed(s: string)
    requires LowerWord(s)
    ensures Lower(Strip(s)) == s
  {
    LowerFixed(s);
    assert Stripped(s);
    StripFixed(s);
  }

  lemma LowerFixed(s: string)
    requires LowerWord(s)
    ensures Lower(s) == s
  {
    forall i | 0 <= i < |s| ensures Lower(s)[i] == s[i] {
      assert LowerChar(s[i]) == s[i];
    }
  }

  lemma DirectAgentFixed()
    ensures Lower(Strip("direct_agent")) == "direct_agent"
  {
    assert LowerWord("direct_agent");
    LowerWordFixed("direct_agent");
  }

  lemma DirectAgentKnown()
    ensures NormalizeStrategyType("direct_agent").Some?
  {
    DirectAgentFixed();
  }

  /** The texts that normalising leaves alone are exactly the known types. */
  lemma TypeFixedIff(text: string)
    ensures NormalizeStrategyType(text) == Some(text) <==> text in STRATEGY_TYPES
  {
    if text in STRATEGY_TYPES {
      hide NormalizeStrategyType;
      TypesAreLowerWords(text);
      LowerWordFixed(text);
      KnownTypeKept(text);
    }
  }

  lemma TypesAreLowerWords(text: string)
    requires text in STRATEGY_TYPES
    ensures LowerWord(text) && text != "direct"
  {
  }

  lemma KnownTypeKept(text: string)
    requires text in STRATEGY_TYPES && text != "direct" && Lower(Strip(text)) == text
    ensures NormalizeStrategyType(text) == Some(text)
  {
    hide STRATEGY_TYPES, Strip;
  }

  /** A text is normalised to a known type exactly when, stripped and in lower case, it is that type, or the short
      form of `direct_agent`. */
  lemma TypeMeans(text: string, name: string)
    ensures NormalizeStrategyType(text) == Some(name) <==>
      && name in STRATEGY_TYPES
      && var lowered := Lower(Strip(text)); lowered == name || (lowered == "direct" && name == "direct_agent")
  {
    hide STRATEGY_TYPES, Lower, Strip;
    DirectIsNoType();
  }

  lemma DirectIsNoType()
    ensures "direct" !in STRATEGY_TYPES && "direct_agent" in STRATEGY_TYPES
  {
  }

  // ---------- what a merge leaves alone ----------

  /** The merge of one known entry. */
  lemma MergeEntry(base: Section, update: Section, field: Field)
    ensures Entry(MergeSections(base, update), field) ==
      if Entry(update, field).None? then Entry(base, field)
      else if Entry(base, field).None? then Entry(update, field)
      else Some(Merge(Entry(base, field).value, Entry(update, field).value))
  {
    if Known(field) in update {
      MergeSectionsAt(base, update, Known(field));
      assert Known(field) in base ==>
        MergeSections(base, update)[Known(field)] == Merge(base[Known(field)], update[Known(field)]);
    }
  }

  // ---------- strategies ----------

  /** The entries every legacy strategy has. */
  function StrategyBase(strategy: Section): Section {
    Put(Put(Empty(), Enabled, AtOr(strategy, Enabled, Bool(true))), Type, AtOr(strategy, Type, Str("direct_agent")))
  }

  function StrategyToLegacy(strategy: Section): Section {
    CopyPresent(StrategyBase(strategy), strategy, {Description, LlmProfile, MaxCandidateAgents, Metadata})
  }

  /** A legacy strategy in the newer form; None when its type is not a known one. */
  function StrategyFromLegacy(legacy: Section): Option<Section> {
    var kind := At(legacy, Type);
    if !kind.Str? then Some(legacy)
    else
      var normalized := NormalizeStrategyType(kind.text);
      if normalized.None? then None else Some(Put(legacy, Type, Str(normalized.value)))
  }

  /** A legacy strategy is translated exactly when its type is no text or a known one; only the type may change. */
  lemma StrategyFromLegacyMeans(legacy: Section)
    ensures var translated, kind := StrategyFromLegacy(legacy), At(legacy, Type);
      && (translated.Some? <==> kind.Str? ==> NormalizeStrategyType(kind.text).Some?)
      && (translated.Some? ==>
            && (forall key :: key != Known(Type) ==>
                  (key in translated.value <==> key in legacy)
                  && (key in legacy ==> translated.value[key] == legacy[key]))
            && Entry(translated.value, Type) ==
               if kind.Str? then Some(Str(NormalizeStrategyType(kind.text).value)) else Entry(legacy, Type))
  {
    hide NormalizeStrategyType;
  }

  function Present(value: Value): Option<Value> {
    if value == Null then None else Some(value)
  }

  /** The legacy form of a strategy, entry by entry. */
  function StrategyLegacyEntry(strategy: Section, field: Field): Option<Value> {
    if field == Enabled then Some(AtOr(strategy, Enabled, Bool(true)))
    else if field == Type then Some(AtOr(strategy, Type, Str("direct_agent")))
    else if field in {Description, LlmProfile, MaxCandidateAgents, Metadata} then Present(At(strategy, field))
    else None
  }

  lemma StrategyBaseEntries(strategy: Section, field: Field)
    ensures Entry(StrategyBase(strategy), field) ==
      if field in {Enabled, Type} then StrategyLegacyEntry(strategy, field) else None
    ensures KnownOnly(StrategyBase(strategy))
  {
    hide Entry, Empty, Put, KnownOnly, At, AtOr;
  }

  lemma StrategyToLegacyEntries(strategy: Section, field: Field)
    ensures Entry(StrategyToLegacy(strategy), field) == StrategyLegacyEntry(strategy, field)
    ensures KnownOnly(StrategyToLegacy(strategy))
  {
    hide Entry, CopyPresent, KnownOnly, At, AtOr, StrategyBase;
    StrategyBaseEntries(strategy, field);
  }

  /** What mirroring a strategy writes into it; None when the type is not a known one. */
  function StrategyUpdate(strategy: Section): Option<Section> {
    StrategyFromLegacy(StrategyToLegacy(strategy))
  }

  /** The type a mirroring writes: the normalised one, when the type is a text. */
  function UpdatedType(strategy: Section): Option<Value> {
    var kind := AtOr(strategy, Type, Str("direct_agent"));
    if !kind.Str? then Some(kind)
    else if NormalizeStrategyType(kind.text).None? then None
    else Some(Str(NormalizeStrategyType(kind.text).value))
  }

  lemma StrategyUpdateEntries(strategy: Section, field: Field)
    ensures StrategyUpdate(strategy).Some? <==> UpdatedType(strategy).Some?
    ensures StrategyUpdate(strategy).Some? ==>
      && KnownOnly(StrategyUpdate(strategy).value)
      && Entry(StrategyUpdate(strategy).value, field) ==
        if field == Type then UpdatedType(strategy) else StrategyLegacyEntry(strategy, field)
  {
    hide Entry, Put, KnownOnly, StrategyToLegacy, NormalizeStrategyType;
    StrategyToLegacyEntries(strategy, field);
    StrategyToLegacyEntries(strategy, Type);
  }

  /** A strategy mirrored once is left alone by every further mirroring. */
  lemma StrategySettles(strategy: Section)
    requires StrategyUpdate(strategy).Some?
    ensures var mirrored := MergeSections(strategy, StrategyUpdate(strategy).value);
      StrategyUpdate(mirrored).Some? && Within(StrategyUpdate(mirrored).value, mirrored)
  {
    hide Entry, KnownOnly, StrategyUpdate, NormalizeStrategyType, MergeSections, UpdatedType;
    var update := StrategyUpdate(strategy).value;
    var mirrored := MergeSections(strategy, update);
    StrategyTypeSettles(strategy);
    StrategyUpdateEntries(mirrored, Type);
    forall field ensures Entry(StrategyUpdate(mirrored).value, field).Some? ==>
      Entry(mirrored, field) == Entry(StrategyUpdate(mirrored).value, field)
    {
      StrategyUpdateEntries(strategy, field);
      StrategyUpdateEntries(mirrored, field);
      MergeEntry(strategy, update, field);
    }
    WithinByEntries(StrategyUpdate(mirrored).value, mirrored);
  }

  lemma StrategyTypeSettles(strategy: Section)
    requires StrategyUpdate(strategy).Some?
    ensures var mirrored := MergeSections(strategy, StrategyUpdate(strategy).value);
      Entry(mirrored, Type).Some? && UpdatedType(mirrored) == Entry(mirrored, Type)
  {
    hide Entry, KnownOnly, StrategyUpdate, NormalizeStrategyType, MergeSections;
    var update := StrategyUpdate(strategy).value;
    StrategyUpdateEntries(strategy, Type);
    MergeEntry(strategy, update, Type);
    var kind := AtOr(strategy, Type, Str("direct_agent"));
    MergeAbsorbs(kind, kind);
    if kind.Str? {
      StrategyTypeStable(kind.text);
    }
  }

  lemma WithinByEntries(part: Section, whole: Section)
    requires KnownOnly(part)
    requires forall field :: Entry(part, field).Some? ==> Entry(whole, field) == Entry(part, field)
    ensures Within(part, whole)
  {
    forall k | k in part ensures k in whole && whole[k] == part[k] {
      assert Entry(whole, k.field) == Entry(part, k.field);
    }
  }

  /** The strategy has all that mirroring would give it, in the form mirroring would give it. */
  predicate StrategySettled(strategy: Section) {
    && Entry(strategy, Enabled).Some?
    && Entry(strategy, Type).Some?
    && (At(strategy, Type).Str? ==> At(strategy, Type).text in STRATEGY_TYPES)
  }

  /** Mirroring changes nothing in a strategy exactly when it gives a flag and a type, and a type that is a text is a
      known one as it stands. */
  lemma StrategyUnchangedIff(strategy: Section)
    ensures StrategySettled(strategy) <==>
      && StrategyUpdate(strategy).Some?
      && MergeSections(strategy, StrategyUpdate(strategy).value) == strategy
  {
    hide Entry, KnownOnly, StrategyUpdate, NormalizeStrategyType, MergeSections, STRATEGY_TYPES;
    StrategyUpdateEntries(strategy, Type);
    if At(strategy, Type).Str? {
      TypeFixedIff(At(strategy, Type).text);
    }
    if StrategySettled(strategy) {
      SettledStrategyUnchanged(strategy);
    } else if StrategyUpdate(strategy).Some? {
      StrategyUpdateEntries(strategy, Enabled);
      MergeEntry(strategy, StrategyUpdate(strategy).value, Enabled);
      MergeEntry(strategy, StrategyUpdate(strategy).value, Type);
    }
  }

  lemma SettledStrategyUnchanged(strategy: Section)
    requires StrategyUpdate(strategy).Some?
    requires Entry(strategy, Enabled).Some? && Entry(strategy, Type) == UpdatedType(strategy)
    ensures MergeSections(strategy, StrategyUpdate(strategy).value) == strategy
  {
    hide Entry, KnownOnly, StrategyUpdate, UpdatedType, MergeSections;
    var update := StrategyUpdate(strategy).value;
    StrategyUpdateEntries(strategy, Type);
    forall field ensures Entry(update, field).Some? ==> Entry(strategy, field) == Entry(update, field) {
      StrategyUpdateEntries(strategy, field);
    }
    WithinByEntries(update, strategy);
    MergeWithin(update, strategy);
  }

  // ---------- use cases ----------

  function OnlyTexts(items: seq<Value>): (texts: seq<Value>)
    ensures forall item :: item in texts ==> item.Str?
    ensures (forall item :: item in items ==> item.Str?) ==> texts == items
  {
    if items == [] then []
    else (if items[0].Str? then [items[0]] else []) + OnlyTexts(items[1..])
  }

  /** The agent a use case runs: its own, or the default agent of its strategy. */
  function AgentOf(usecase: Section, strategy: Section): Option<string> {
    if TextAt(usecase, Agent).Some? then TextAt(usecase, Agent) else TextAt(strategy, DefaultAgent)
  }

  function AllowedAgentsOf(usecase: Section, agent: Option<string>): Value {
    var allowed := At(usecase, AllowedAgents);
    if allowed.Sequence? then Sequence(OnlyTexts(allowed.items))
    else if agent.Some? then Sequence([Str(agent.value)])
    else Sequence([])
  }

  function TextValue(text: Option<string>): Value {
    if text.Some? then Str(text.value) else Null
  }

  /** The display name goes into the metadata, unless the metadata is no mapping or has one already. */
  function NamedMetadata(metadata: Value, name: string): Value {
    var existing := if metadata == Null then Mapping(Empty()) else metadata;
    if existing.Mapping? then Mapping(PutDefault(existing.entries, DisplayName, Str(name))) else existing
  }

  /** The entries every legacy use case has. */
  function UsecaseBase(usecase: Section, agent: Option<string>): Section {
    var enabled := Put(Empty(), Enabled, AtOr(usecase, Enabled, Bool(true)));
    var planned := Put(enabled, Field.Strategy, At(usecase, Field.Strategy));
    var staffed := Put(Put(planned, DefaultAgent, TextValue(agent)), AllowedAgents, AllowedAgentsOf(usecase, agent));
    Put(staffed, PolicyProfile, AtOr(usecase, PolicyProfile, Str("default")))
  }

  /** The legacy use case before the display name is added to its metadata. */
  function UsecaseUnnamed(usecase: Section, agent: Option<string>): Section {
    var copied := CopyPresent(UsecaseBase(usecase, agent), usecase, {Description, Memory, Tools, Metadata});
    var profile := TextAt(usecase, LlmProfile);
    if profile.Some? then Put(copied, OrchestratorLlmProfile, Str(profile.value)) else copied
  }

  function UsecaseToLegacy(usecase: Section, strategy: Section): Section {
    var legacy := UsecaseUnnamed(usecase, AgentOf(usecase, strategy));
    var name := TextAt(usecase, DisplayName);
    if name.Some? then Put(legacy, Metadata, NamedMetadata(At(legacy, Metadata), name.value)) else legacy
  }

  /** `section.pop(from)`, stored under `to` when it is not None and `to` is free. */
  function Rename(section: Section, from: Field, to: Field): (r: Section)
    ensures forall other {:trigger Entry(r, other)} :: from != to ==>
      Entry(r, other) ==
        if other == from then None
        else if other == to && Entry(section, to).None? then Present(At(section, from))
        else Entry(section, other)
    ensures KnownOnly(section) ==> KnownOnly(r)
  {
    var value, rest := At(section, from), Drop(section, from);
    if value != Null && Entry(rest, to).None? then Put(rest, to, value) else rest
  }

  function UsecaseFromLegacy(legacy: Section): Section {
    Rename(Rename(legacy, DefaultAgent, Agent), OrchestratorLlmProfile, LlmProfile)
  }

  /** A translated use case has the agent and the profile under their newer names, its own if it gives one there, and
      everything else unchanged. */
  lemma UsecaseFromLegacyMeans(legacy: Section)
    ensures var translated := UsecaseFromLegacy(legacy);
      && Entry(translated, Agent) == First(Entry(legacy, Agent), Present(At(legacy, DefaultAgent)))
      && Entry(translated, LlmProfile) == First(Entry(legacy, LlmProfile), Present(At(legacy, OrchestratorLlmProfile)))
      && Entry(translated, DefaultAgent) == None
      && Entry(translated, OrchestratorLlmProfile) == None
      && forall field :: field !in {Agent, LlmProfile, DefaultAgent, OrchestratorLlmProfile} ==>
           Entry(translated, field) == Entry(legacy, field)
    ensures NamedOf(UsecaseFromLegacy(legacy)) == NamedOf(legacy)
  {
    hide Entry, Rename, NamedOf;
    RenameKeepsNamed(legacy, DefaultAgent, Agent);
    RenameKeepsNamed(Rename(legacy, DefaultAgent, Agent), OrchestratorLlmProfile, LlmProfile);
  }

  lemma RenameKeepsNamed(section: Section, from: Field, to: Field)
    ensures NamedOf(Rename(section, from, to)) == NamedOf(section)
  {
    hide Entry, At, NamedOf, Put, Drop;
    NamedKept();
  }

  /** What mirroring a use case writes into it. */
  function UsecaseUpdate(usecase: Section, strategy: Section): Section {
    UsecaseFromLegacy(UsecaseToLegacy(usecase, strategy))
  }

  function UpdatedMetadata(usecase: Section): Value {
    var name := TextAt(usecase, DisplayName);
    if name.Some? then NamedMetadata(At(usecase, Metadata), name.value) else At(usecase, Metadata)
  }

  /** The legacy form of a use case, entry by entry. */
  function UsecaseLegacyEntry(usecase: Section, agent: Option<string>, field: Field): Option<Value> {
    if field == Enabled then Some(AtOr(usecase, Enabled, Bool(true)))
    else if field == Field.Strategy then Some(At(usecase, Field.Strategy))
    else if field == PolicyProfile then Some(AtOr(usecase, PolicyProfile, Str("default")))
    else if field == AllowedAgents then Some(AllowedAgentsOf(usecase, agent))
    else if field == DefaultAgent then Some(TextValue(agent))
    else if field == OrchestratorLlmProfile then Present(TextValue(TextAt(usecase, LlmProfile)))
    else if field == Metadata then Present(UpdatedMetadata(usecase))
    else if field in {Description, Memory, Tools} then Present(At(usecase, field))
    else None
  }

  lemma UsecaseBaseEntries(usecase: Section, agent: Option<string>, field: Field)
    ensures Entry(UsecaseBase(usecase, agent), field) ==
      if field in {Enabled, Field.Strategy, PolicyProfile, AllowedAgents, DefaultAgent} then
        UsecaseLegacyEntry(usecase, agent, field)
      else None
    ensures KnownOnly(UsecaseBase(usecase, agent))
  {
    hide Entry, Empty, Put, KnownOnly, AllowedAgentsOf, AtOr, At, TextValue;
  }

  lemma UsecaseUnnamedEntries(usecase: Section, agent: Option<string>, field: Field)
    ensures Entry(UsecaseUnnamed(usecase, agent), field) ==
      if field == Metadata then Present(At(usecase, Metadata)) else UsecaseLegacyEntry(usecase, agent, field)
  {
    hide Entry, Put, CopyPresent, AllowedAgentsOf, TextAt, UsecaseBase, UpdatedMetadata, AtOr, At;
    UsecaseBaseEntries(usecase, agent, field);
    var copied := CopyPresent(UsecaseBase(usecase, agent), usecase, {Description, Memory, Tools, Metadata});
    assert Entry(copied, field) ==
      if field in {Description, Memory, Tools, Metadata} then Present(At(usecase, field))
      else Entry(UsecaseBase(usecase, agent), field);
  }

  lemma UsecaseUnnamedKnown(usecase: Section, agent: Option<string>)
    ensures KnownOnly(UsecaseUnnamed(usecase, agent))
  {
    hide Entry, Put, CopyPresent, KnownOnly, TextAt, UsecaseBase;
    UsecaseBaseEntries(usecase, agent, Enabled);
  }

  lemma UsecaseToLegacyEntries(usecase: Section, strategy: Section, field: Field)
    ensures Entry(UsecaseToLegacy(usecase, strategy), field)
         == UsecaseLegacyEntry(usecase, AgentOf(usecase, strategy), field)
    ensures KnownOnly(UsecaseToLegacy(usecase, strategy))
  {
    hide Entry, Put, KnownOnly, AgentOf, AllowedAgentsOf, TextAt, UsecaseUnnamed, NamedMetadata;
    UsecaseUnnamedKnown(usecase, AgentOf(usecase, strategy));
    UsecaseUnnamedEntries(usecase, AgentOf(usecase, strategy), field);
    UsecaseUnnamedEntries(usecase, AgentOf(usecase, strategy), Metadata);
    if TextAt(usecase, DisplayName).Some? {
      NamedMetadataKept(At(usecase, Metadata), TextAt(usecase, DisplayName).value);
    }
  }

  /** What mirroring writes into a use case: its legacy form, with two entries under their newer names. */
  lemma UsecaseUpdateEntries(usecase: Section, strategy: Section, field: Field)
    ensures Entry(UsecaseUpdate(usecase, strategy), field) ==
      if field in {DefaultAgent, OrchestratorLlmProfile} then None
      else if field == Agent then Present(TextValue(AgentOf(usecase, strategy)))
      else if field == LlmProfile then Present(TextValue(TextAt(usecase, LlmProfile)))
      else UsecaseLegacyEntry(usecase, AgentOf(usecase, strategy), field)
    ensures KnownOnly(UsecaseUpdate(usecase, strategy))
  {
    hide Entry, Rename, KnownOnly, AgentOf, AllowedAgentsOf, TextAt, UsecaseToLegacy, UpdatedMetadata;
    forall other | other in {field, Agent, LlmProfile, DefaultAgent, OrchestratorLlmProfile} {
      UsecaseToLegacyEntries(usecase, strategy, other);
    }
  }

  /** A use case mirrored once is left alone by every further mirroring, as long as the default agent of its
      strategy stays the same. */
  lemma UsecaseSettles(usecase: Section, strategy: Section, later: Section)
    requires TextAt(later, DefaultAgent) == TextAt(strategy, DefaultAgent)
    ensures var mirrored := MergeSections(usecase, UsecaseUpdate(usecase, strategy));
      Within(UsecaseUpdate(mirrored, later), mirrored)
  {
    hide Entry, KnownOnly, UsecaseUpdate, MergeSections, UsecaseLegacyEntry;
    var mirrored := MergeSections(usecase, UsecaseUpdate(usecase, strategy));
    UsecaseUpdateEntries(mirrored, later, Enabled);
    forall field ensures Entry(UsecaseUpdate(mirrored, later), field).Some? ==>
      Entry(mirrored, field) == Entry(UsecaseUpdate(mirrored, later), field)
    {
      UsecaseEntrySettles(usecase, strategy, later, field);
    }
    WithinByEntries(UsecaseUpdate(mirrored, later), mirrored);
  }

  lemma UsecaseEntrySettles(usecase: Section, strategy: Section, later: Section, field: Field)
    requires TextAt(later, DefaultAgent) == TextAt(strategy, DefaultAgent)
    ensures var mirrored := MergeSections(usecase, UsecaseUpdate(usecase, strategy));
      Entry(UsecaseUpdate(mirrored, later), field).Some? ==>
        Entry(mirrored, field) == Entry(UsecaseUpdate(mirrored, later), field)
  {
    hide Entry, KnownOnly, UsecaseUpdate, MergeSections, AllowedAgentsOf, AgentOf, TextAt, UpdatedMetadata;
    var mirrored := MergeSections(usecase, UsecaseUpdate(usecase, strategy));
    if field == Agent {
      hide UsecaseLegacyEntry;
      UsecaseUpdateEntries(mirrored, later, field);
      AgentSettles(usecase, strategy, later);
    } else if field == LlmProfile {
      hide UsecaseLegacyEntry;
      UsecaseUpdateEntries(mirrored, later, field);
      ProfileSettles(usecase, strategy);
    } else if field == AllowedAgents {
      UsecaseUpdateEntries(mirrored, later, field);
      AllowedAgentsSettle(usecase, strategy, later);
    } else if field == Metadata {
      UsecaseUpdateEntries(mirrored, later, field);
      MetadataSettles(usecase, strategy);
    } else {
      PlainEntrySettles(usecase, strategy, later, field);
    }
  }

  lemma PlainEntrySettles(usecase: Section, strategy: Section, later: Section, field: Field)
    requires field !in {Agent, LlmProfile, AllowedAgents, Metadata}
    ensures var mirrored := MergeSections(usecase, UsecaseUpdate(usecase, strategy));
      Entry(UsecaseUpdate(mirrored, later), field).Some? ==>
        Entry(mirrored, field) == Entry(UsecaseUpdate(mirrored, later), field)
  {
    hide Entry, KnownOnly, UsecaseUpdate, MergeSections, AllowedAgentsOf, AgentOf, TextAt, UpdatedMetadata, Merge;
    var mirrored := MergeSections(usecase, UsecaseUpdate(usecase, strategy));
    UsecaseUpdateEntries(mirrored, later, field);
    UsecaseUpdateEntries(usecase, strategy, field);
    MergeEntry(usecase, UsecaseUpdate(usecase, strategy), field);
  }

  /** A text that was read, and so is stripped and not blank, reads back as itself. */
  lemma ReadTextFixed(section: Section, field: Field, text: string)
    requires Entry(section, field) == Some(Str(Strip(text))) && Strip(text) != ""
    ensures TextAt(section, field) == Some(Strip(text))
  {
    StripFixed(Strip(text));
  }

  lemma AgentSettles(usecase: Section, strategy: Section, later: Section)
    requires TextAt(later, DefaultAgent) == TextAt(strategy, DefaultAgent)
    ensures var mirrored := MergeSections(usecase, UsecaseUpdate(usecase, strategy));
      var agent := AgentOf(mirrored, later);
      && agent == AgentOf(usecase, strategy)
      && (agent.Some? ==> Entry(mirrored, Agent) == Some(Str(agent.value)))
  {
    hide Entry, UsecaseUpdate, MergeSections, UsecaseLegacyEntry, KnownOnly, Strip;
    UsecaseUpdateEntries(usecase, strategy, Agent);
    var mirrored := MergeSections(usecase, UsecaseUpdate(usecase, strategy));
    MergeEntry(usecase, UsecaseUpdate(usecase, strategy), Agent);
    var agent := AgentOf(usecase, strategy);
    if agent.Some? {
      var source := if TextAt(usecase, Agent).Some? then At(usecase, Agent) else At(strategy, DefaultAgent);
      assert agent == Some(Strip(source.text)) && agent.value != "";
      assert Entry(mirrored, Agent) == Some(Str(agent.value));
      ReadTextFixed(mirrored, Agent, source.text);
    }
  }

  lemma ProfileSettles(usecase: Section, strategy: Section)
    ensures var mirrored := MergeSections(usecase, UsecaseUpdate(usecase, strategy));
      var profile := TextAt(mirrored, LlmProfile);
      profile.Some? ==> Entry(mirrored, LlmProfile) == Some(Str(profile.value))
  {
    hide Entry, UsecaseUpdate, MergeSections, UsecaseLegacyEntry, KnownOnly, Strip;
    UsecaseUpdateEntries(usecase, strategy, LlmProfile);
    var mirrored := MergeSections(usecase, UsecaseUpdate(usecase, strategy));
    MergeEntry(usecase, UsecaseUpdate(usecase, strategy), LlmProfile);
    if TextAt(usecase, LlmProfile).Some? {
      ReadTextFixed(mirrored, LlmProfile, At(usecase, LlmProfile).text);
    }
  }

  lemma AllowedAgentsSettle(usecase: Section, strategy: Section, later: Section)
    ensures var mirrored := MergeSections(usecase, UsecaseUpdate(usecase, strategy));
      Entry(mirrored, AllowedAgents) == Some(AllowedAgentsOf(mirrored, AgentOf(mirrored, later)))
  {
    hide Entry, UsecaseUpdate, MergeSections, KnownOnly, AgentOf;
    UsecaseUpdateEntries(usecase, strategy, AllowedAgents);
    MergeEntry(usecase, UsecaseUpdate(usecase, strategy), AllowedAgents);
  }

  lemma MetadataSettles(usecase: Section, strategy: Section)
    ensures var mirrored := MergeSections(usecase, UsecaseUpdate(usecase, strategy));
      UpdatedMetadata(mirrored) == Null || Entry(mirrored, Metadata) == Some(UpdatedMetadata(mirrored))
  {
    hide Entry, UsecaseUpdate, MergeSections, KnownOnly, TextAt, Put, NamedMetadata;
    UsecaseUpdateEntries(usecase, strategy, Metadata);
    UsecaseUpdateEntries(usecase, strategy, DisplayName);
    var update := UsecaseUpdate(usecase, strategy);
    var mirrored := MergeSections(usecase, update);
    MergeEntry(usecase, update, Metadata);
    MergeEntry(usecase, update, DisplayName);
    assert TextAt(mirrored, DisplayName) == TextAt(usecase, DisplayName) by {
      TextKept(mirrored, usecase, DisplayName);
    }
    if TextAt(usecase, DisplayName).Some? {
      NamedMetadataKept(At(usecase, Metadata), TextAt(usecase, DisplayName).value);
    }
  }

  /** Naming metadata leaves something behind, and is not repeated, not even after a merge. */
  lemma NamedMetadataKept(metadata: Value, name: string)
    ensures var named := NamedMetadata(metadata, name);
      && named != Null
      && NamedMetadata(named, name) == named
      && (metadata != Null ==> NamedMetadata(Merge(metadata, named), name) == Merge(metadata, named))
      && Merge(Null, named) == named
  {
    hide Entry, Put;
    var named := NamedMetadata(metadata, name);
    if named.Mapping? && metadata.Mapping? {
      MergeEntry(metadata.entries, named.entries, DisplayName);
    }
  }

  // ---------- use cases that mirroring leaves alone ----------

  /** A text, where there is one that is not blank, stands there stripped. */
  predicate TextSettled(section: Section, field: Field) {
    TextAt(section, field).Some? ==> Stripped(At(section, field).text)
  }

  /** Without an agent of its own the use case gets the default agent of its strategy. */
  predicate AgentSettled(usecase: Section, strategy: Section) {
    && TextSettled(usecase, Agent)
    && (TextAt(usecase, Agent).None? ==> TextAt(strategy, DefaultAgent).None?)
  }

  predicate AllowedAgentsSettled(usecase: Section) {
    var allowed := At(usecase, AllowedAgents);
    allowed.Sequence? && forall item :: item in allowed.items ==> item.Str?
  }

  /** A display name is repeated in the metadata, unless the metadata is something else than a mapping. */
  predicate MetadataSettled(usecase: Section) {
    var metadata := At(usecase, Metadata);
    TextAt(usecase, DisplayName).Some? ==>
      && metadata != Null
      && (metadata.Mapping? ==> Entry(metadata.entries, DisplayName).Some?)
  }

  /** The use case has all that mirroring would give it, in the form mirroring would give it. */
  predicate UsecaseSettled(usecase: Section, strategy: Section) {
    && Entry(usecase, Enabled).Some?
    && Entry(usecase, Field.Strategy).Some?
    && Entry(usecase, PolicyProfile).Some?
    && AllowedAgentsSettled(usecase)
    && AgentSettled(usecase, strategy)
    && TextSettled(usecase, LlmProfile)
    && MetadataSettled(usecase)
  }

  /** Merging the update in changes nothing under the field. */
  predicate FieldUnchanged(usecase: Section, strategy: Section, field: Field) {
    Entry(MergeSections(usecase, UsecaseUpdate(usecase, strategy)), field) == Entry(usecase, field)
  }

  /** Mirroring changes nothing in a use case exactly when it is settled. */
  lemma UsecaseUnchangedIff(usecase: Section, strategy: Section)
    ensures UsecaseSettled(usecase, strategy) <==>
      MergeSections(usecase, UsecaseUpdate(usecase, strategy)) == usecase
  {
    hide Entry, KnownOnly, UsecaseUpdate, MergeSections, FieldUnchanged;
    hide AllowedAgentsSettled, AgentSettled, TextSettled, MetadataSettled;
    PlainFieldsUnchangedIff(usecase, strategy);
    AgentUnchangedIff(usecase, strategy);
    AllowedAgentsUnchangedIff(usecase, strategy);
    ProfileUnchangedIff(usecase, strategy);
    MetadataUnchangedIff(usecase, strategy);
    UnchangedByFields(usecase, strategy);
  }

  lemma UnchangedByFields(usecase: Section, strategy: Section)
    ensures MergeSections(usecase, UsecaseUpdate(usecase, strategy)) == usecase <==>
      forall field :: FieldUnchanged(usecase, strategy, field)
  {
    hide UsecaseUpdate, MergeSections, Entry, KnownOnly, UsecaseLegacyEntry;
    UsecaseUpdateEntries(usecase, strategy, Enabled);
    if forall field :: FieldUnchanged(usecase, strategy, field) {
      forall field ensures
        Entry(MergeSections(usecase, UsecaseUpdate(usecase, strategy)), field) == Entry(usecase, field)
      {
        assert FieldUnchanged(usecase, strategy, field);
      }
      SameByFields(usecase, UsecaseUpdate(usecase, strategy));
    }
  }

  /** A merge with known entries changes nothing if it changes nothing under any field. */
  lemma SameByFields(base: Section, update: Section)
    requires KnownOnly(update)
    requires forall field :: Entry(MergeSections(base, update), field) == Entry(base, field)
    ensures MergeSections(base, update) == base
  {
    var merged := MergeSections(base, update);
    forall key | key in merged || key in base ensures key in merged && key in base && merged[key] == base[key] {
      if key.Known? {
        assert Entry(merged, key.field) == Entry(base, key.field);
      }
    }
  }

  lemma PlainFieldsUnchangedIff(usecase: Section, strategy: Section)
    ensures forall field :: field in {Enabled, Field.Strategy, PolicyProfile} ==>
      (FieldUnchanged(usecase, strategy, field) <==> Entry(usecase, field).Some?)
    ensures forall field ::
      field !in {Enabled, Field.Strategy, PolicyProfile, Agent, AllowedAgents, LlmProfile, Metadata} ==>
        FieldUnchanged(usecase, strategy, field)
  {
    forall field | field !in {Agent, AllowedAgents, LlmProfile, Metadata}
      ensures FieldUnchanged(usecase, strategy, field) <==>
        (field in {Enabled, Field.Strategy, PolicyProfile} ==> Entry(usecase, field).Some?)
    {
      PlainFieldUnchangedIff(usecase, strategy, field);
    }
  }

  lemma PlainFieldUnchangedIff(usecase: Section, strategy: Section, field: Field)
    requires field !in {Agent, AllowedAgents, LlmProfile, Metadata}
    ensures FieldUnchanged(usecase, strategy, field) <==>
      (field in {Enabled, Field.Strategy, PolicyProfile} ==> Entry(usecase, field).Some?)
  {
    hide Entry, KnownOnly, UsecaseUpdate, MergeSections, AllowedAgentsOf, AgentOf, TextAt, UpdatedMetadata;
    UsecaseUpdateEntries(usecase, strategy, field);
    MergeEntry(usecase, UsecaseUpdate(usecase, strategy), field);
    if Entry(usecase, field).Some? {
      MergeAbsorbs(Entry(usecase, field).value, Entry(usecase, field).value);
    }
  }

  lemma AgentUnchangedIff(usecase: Section, strategy: Section)
    ensures FieldUnchanged(usecase, strategy, Agent) <==> AgentSettled(usecase, strategy)
  {
    hide Entry, KnownOnly, UsecaseUpdate, MergeSections, Strip, Stripped;
    UsecaseUpdateEntries(usecase, strategy, Agent);
    MergeEntry(usecase, UsecaseUpdate(usecase, strategy), Agent);
    var agent := At(usecase, Agent);
    if agent.Str? {
      StripFixed(agent.text);
    }
    if TextAt(usecase, Agent).None? && TextAt(strategy, DefaultAgent).Some? {
      StrippedAgain(strategy, DefaultAgent);
    }
  }

  /** A text that was read stands for itself. */
  lemma StrippedAgain(section: Section, field: Field)
    requires TextAt(section, field).Some?
    ensures Strip(TextAt(section, field).value) == TextAt(section, field).value != ""
  {
    StripFixed(TextAt(section, field).value);
  }

  lemma AllowedAgentsUnchangedIff(usecase: Section, strategy: Section)
    ensures FieldUnchanged(usecase, strategy, AllowedAgents) <==> AllowedAgentsSettled(usecase)
  {
    hide Entry, KnownOnly, UsecaseUpdate, MergeSections, AgentOf;
    UsecaseUpdateEntries(usecase, strategy, AllowedAgents);
    MergeEntry(usecase, UsecaseUpdate(usecase, strategy), AllowedAgents);
  }

  lemma ProfileUnchangedIff(usecase: Section, strategy: Section)
    ensures FieldUnchanged(usecase, strategy, LlmProfile) <==> TextSettled(usecase, LlmProfile)
  {
    hide Entry, KnownOnly, UsecaseUpdate, MergeSections, AgentOf, Strip, Stripped;
    UsecaseUpdateEntries(usecase, strategy, LlmProfile);
    MergeEntry(usecase, UsecaseUpdate(usecase, strategy), LlmProfile);
    if At(usecase, LlmProfile).Str? {
      StripFixed(At(usecase, LlmProfile).text);
    }
  }

  lemma MetadataUnchangedIff(usecase: Section, strategy: Section)
    ensures FieldUnchanged(usecase, strategy, Metadata) <==> MetadataSettled(usecase)
  {
    hide Entry, KnownOnly, UsecaseUpdate, MergeSections, AgentOf, TextAt, Put;
    UsecaseUpdateEntries(usecase, strategy, Metadata);
    MergeEntry(usecase, UsecaseUpdate(usecase, strategy), Metadata);
    var metadata, name := At(usecase, Metadata), TextAt(usecase, DisplayName);
    MergeAbsorbs(metadata, metadata);
    if name.Some? {
      NamedMetadataKept(metadata, name.value);
      if metadata != Null {
        NamedUnchangedIff(metadata, name.value);
      }
    }
  }

  lemma NamedUnchangedIff(metadata: Value, name: string)
    requires metadata != Null
    ensures Merge(metadata, NamedMetadata(metadata, name)) == metadata <==>
      (metadata.Mapping? ==> Entry(metadata.entries, DisplayName).Some?)
  {
    hide Entry, Put;
    MergeAbsorbs(metadata, metadata);
    if metadata.Mapping? && Entry(metadata.entries, DisplayName).None? {
      var named := NamedMetadata(metadata, name);
      MergeEntry(metadata.entries, named.entries, DisplayName);
    }
  }
}
