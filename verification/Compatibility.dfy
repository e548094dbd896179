/** The compatibility normaliser of the backend configuration: the pass that keeps the legacy sections
    (`features`, `persistence.memory`, `strategies`, `usecases`) and their newer counterparts in step. */
module Compatibility {
  import opened DeepMerge
  import opened Fields
  import opened Keys
  import opened Mirroring
  import opened Text
  import opened Values

  // ---------- all strategies and use cases ----------

  /** Merges each update into the section of its name. */
  function AbsorbAll(current: Sections, updates: Sections): Sections {
    map key | key in current.Keys + updates.Keys ::
      if key in updates then MergeSections(SectionOf(current, key), updates[key]) else current[key]
  }

  function StrategiesFromLegacy(legacy: Sections): Option<Sections> {
    if forall key :: key in legacy ==> StrategyFromLegacy(legacy[key]).Some? then
      Some(map key | key in legacy :: StrategyFromLegacy(legacy[key]).value)
    else
      None
  }

  function UsecasesFromLegacy(legacy: Sections): Sections {
    map key | key in legacy :: UsecaseFromLegacy(legacy[key])
  }

  function StrategiesToLegacy(strategies: Sections): Sections {
    map key | key in strategies :: StrategyToLegacy(strategies[key])
  }

  /** The strategy a use case names. */
  function StrategyFor(usecase: Section, strategies: Sections): Section {
    var name := TextAt(usecase, Field.Strategy);
    SectionOf(strategies, KeyOf(if name.Some? then name.value else ""))
  }

  function UsecasesToLegacy(usecases: Sections, strategies: Sections): Sections {
    map key | key in usecases :: UsecaseToLegacy(usecases[key], StrategyFor(usecases[key], strategies))
  }

  function MirroredStrategies(strategies: Sections): Option<Sections> {
    var updates := StrategiesFromLegacy(StrategiesToLegacy(strategies));
    if updates.None? then None else Some(AbsorbAll(strategies, updates.value))
  }

  function MirroredUsecases(usecases: Sections, strategies: Sections): Sections {
    AbsorbAll(usecases, UsecasesFromLegacy(UsecasesToLegacy(usecases, strategies)))
  }

  lemma AbsorbWithin(current: Sections, updates: Sections)
    requires forall key :: key in updates ==> key in current && Within(updates[key], current[key])
    ensures AbsorbAll(current, updates) == current
  {
    forall key | key in updates ensures MergeSections(current[key], updates[key]) == current[key] {
      MergeWithin(updates[key], current[key]);
    }
  }

  lemma MirroredStrategyAt(strategies: Sections, key: Key)
    requires MirroredStrategies(strategies).Some?
    ensures MirroredStrategies(strategies).value.Keys == strategies.Keys
    ensures key in strategies ==>
      && StrategyUpdate(strategies[key]).Some?
      && MirroredStrategies(strategies).value[key]
        == MergeSections(strategies[key], StrategyUpdate(strategies[key]).value)
  {
    hide StrategyFromLegacy, StrategyToLegacy, MergeSections;
  }

  lemma StrategyOfAllSettles(strategies: Sections, key: Key)
    requires MirroredStrategies(strategies).Some?
    requires key in strategies && key in MirroredStrategies(strategies).value
    ensures var mirrored := MirroredStrategies(strategies).value[key];
      && StrategyUpdate(mirrored).Some?
      && Within(StrategyUpdate(mirrored).value, mirrored)
      && TextAt(mirrored, DefaultAgent) == TextAt(strategies[key], DefaultAgent)
  {
    hide StrategyUpdate, MirroredStrategies, MergeSections, TextAt, Entry, Within;
    var strategy := strategies[key];
    MirroredStrategyAt(strategies, key);
    StrategySettles(strategy);
    StrategyUpdateEntries(strategy, DefaultAgent);
    MergeEntry(strategy, StrategyUpdate(strategy).value, DefaultAgent);
    TextKept(MirroredStrategies(strategies).value[key], strategy, DefaultAgent);
  }

  /** Strategies mirrored once stay as they are, and keep their names and default agents. */
  lemma StrategiesSettle(strategies: Sections)
    requires MirroredStrategies(strategies).Some?
    ensures var mirrored := MirroredStrategies(strategies).value;
      && MirroredStrategies(mirrored) == Some(mirrored)
      && forall key :: TextAt(SectionOf(mirrored, key), DefaultAgent)
                    == TextAt(SectionOf(strategies, key), DefaultAgent)
  {
    hide StrategyFromLegacy, StrategyToLegacy, MergeSections, TextAt, Entry, AbsorbAll, Within;
    var mirrored := MirroredStrategies(strategies).value;
    MirroredStrategyAt(strategies, KeyOf(""));
    forall key | key in strategies
      ensures StrategyUpdate(mirrored[key]).Some?
      ensures Within(StrategyUpdate(mirrored[key]).value, mirrored[key])
      ensures TextAt(mirrored[key], DefaultAgent) == TextAt(strategies[key], DefaultAgent)
    {
      StrategyOfAllSettles(strategies, key);
    }
    AbsorbWithin(mirrored, StrategiesFromLegacy(StrategiesToLegacy(mirrored)).value);
  }

  /** Mirroring a use case keeps the strategy it names. */
  lemma StrategyNameKept(usecase: Section, strategy: Section)
    ensures TextAt(MergeSections(usecase, UsecaseUpdate(usecase, strategy)), Field.Strategy)
         == TextAt(usecase, Field.Strategy)
  {
    hide Entry, UsecaseUpdate, MergeSections, KnownOnly;
    UsecaseUpdateEntries(usecase, strategy, Field.Strategy);
    MergeEntry(usecase, UsecaseUpdate(usecase, strategy), Field.Strategy);
    var named := At(usecase, Field.Strategy);
    MergeAbsorbs(named, named);
  }

  lemma MirroredUsecaseAt(usecases: Sections, strategies: Sections, key: Key)
    ensures MirroredUsecases(usecases, strategies).Keys == usecases.Keys
    ensures key in usecases ==>
      MirroredUsecases(usecases, strategies)[key] ==
        MergeSections(usecases[key], UsecaseUpdate(usecases[key], StrategyFor(usecases[key], strategies)))
  {
    hide UsecaseFromLegacy, UsecaseToLegacy, MergeSections, StrategyFor;
  }

  /** Use cases mirrored once stay as they are, while the default agents of their strategies last. */
  lemma UsecasesSettle(usecases: Sections, strategies: Sections, later: Sections)
    requires forall key ::
      TextAt(SectionOf(later, key), DefaultAgent) == TextAt(SectionOf(strategies, key), DefaultAgent)
    ensures var mirrored := MirroredUsecases(usecases, strategies);
      && MirroredUsecases(mirrored, later) == mirrored
      && forall key :: TextAt(SectionOf(mirrored, key), Field.Strategy)
                    == TextAt(SectionOf(usecases, key), Field.Strategy)
  {
    hide UsecaseFromLegacy, UsecaseToLegacy, MergeSections, TextAt, Entry, AbsorbAll;
    var mirrored := MirroredUsecases(usecases, strategies);
    MirroredUsecaseAt(usecases, strategies, KeyOf(""));
    forall key | key in usecases
      ensures Within(UsecaseUpdate(mirrored[key], StrategyFor(mirrored[key], later)), mirrored[key])
      ensures TextAt(mirrored[key], Field.Strategy) == TextAt(usecases[key], Field.Strategy)
    {
      UsecaseOfAllSettles(usecases, strategies, later, key);
    }
    AbsorbWithin(mirrored, UsecasesFromLegacy(UsecasesToLegacy(mirrored, later)));
  }

  lemma UsecaseOfAllSettles(usecases: Sections, strategies: Sections, later: Sections, key: Key)
    requires forall key ::
      TextAt(SectionOf(later, key), DefaultAgent) == TextAt(SectionOf(strategies, key), DefaultAgent)
    requires key in usecases && key in MirroredUsecases(usecases, strategies)
    ensures var mirrored := MirroredUsecases(usecases, strategies)[key];
      && Within(UsecaseUpdate(mirrored, StrategyFor(mirrored, later)), mirrored)
      && TextAt(mirrored, Field.Strategy) == TextAt(usecases[key], Field.Strategy)
  {
    hide UsecaseUpdate, MirroredUsecases, MergeSections, TextAt, Entry, Within, KeyOf, SectionOf;
    var mirrored := MirroredUsecases(usecases, strategies)[key];
    MirroredUsecaseAt(usecases, strategies, key);
    StrategyNameKept(usecases[key], StrategyFor(usecases[key], strategies));
    UsecaseSettles(usecases[key], StrategyFor(usecases[key], strategies), StrategyFor(mirrored, later));
  }

  // ---------- the orchestration defaults ----------

  /** The strategy of the active use case, stripped. */
  function ActiveStrategy(active: Option<string>, usecases: Sections): Option<string> {
    if active.Some? then TextAt(SectionOf(usecases, KeyOf(active.value)), Field.Strategy) else None
  }

  /** Fills in the default strategy from a candidate, and the fallback strategy from the default one. */
  function FillDefaults(defaults: Section, candidate: Option<string>): Section {
    var planned :=
      if TextAt(defaults, Field.Strategy).None? && candidate.Some?
      then Put(defaults, Field.Strategy, Str(candidate.value)) else defaults;
    if TextAt(planned, FallbackStrategy).None? && TextAt(planned, Field.Strategy).Some?
    then Put(planned, FallbackStrategy, At(planned, Field.Strategy)) else planned
  }

  function CompleteDefaults(defaults: Section, active: Option<string>, usecases: Sections): Section {
    FillDefaults(defaults, ActiveStrategy(active, usecases))
  }

  /** Completed defaults are complete, also for the mirrored use cases. */
  lemma DefaultsSettle(defaults: Section, active: Option<string>, usecases: Sections, later: Sections)
    requires forall key ::
      TextAt(SectionOf(later, key), Field.Strategy) == TextAt(SectionOf(usecases, key), Field.Strategy)
    ensures var completed := CompleteDefaults(defaults, active, usecases);
      CompleteDefaults(completed, active, later) == completed
  {
    hide FillDefaults, TextAt, SectionOf, KeyOf;
    assert ActiveStrategy(active, later) == ActiveStrategy(active, usecases);
    if active.Some? {
      StrippedText(SectionOf(usecases, KeyOf(active.value)), Field.Strategy);
    }
    FilledSettle(defaults, ActiveStrategy(active, usecases));
  }

  lemma StrippedText(section: Section, field: Field)
    ensures TextAt(section, field).Some? ==>
      Stripped(TextAt(section, field).value) && TextAt(section, field).value != ""
  {
  }

  lemma FilledSettle(defaults: Section, candidate: Option<string>)
    requires candidate.Some? ==> Stripped(candidate.value) && candidate.value != ""
    ensures FillDefaults(FillDefaults(defaults, candidate), candidate) == FillDefaults(defaults, candidate)
  {
    hide Entry, Put, Strip, Stripped;
    if TextAt(defaults, Field.Strategy).None? && candidate.Some? {
      StripFixed(candidate.value);
      assert TextAt(Put(defaults, Field.Strategy, Str(candidate.value)), Field.Strategy) == candidate;
    }
    var filled := FillDefaults(defaults, candidate);
    assert TextAt(filled, Field.Strategy).Some? || candidate.None?;
    assert TextAt(filled, FallbackStrategy).Some? || TextAt(filled, Field.Strategy).None?;
  }

  // ---------- the flags kept in two places ----------

  /** The sections holding the flags: `store` is `persistence.memory`. */
  datatype Flags = Flags(memory: Section, tooling: Section, features: Section, store: Section)

  function ReadFlags(data: Section): Flags {
    Flags(SectionAt(data, Memory), SectionAt(data, Tooling), SectionAt(data, Features),
          StoreAt(data))
  }

  /** `persistence.memory`. */
  function StoreAt(data: Section): Section {
    SectionAt(SectionAt(data, Persistence), Memory)
  }

  /** The newer sections inherit what only the legacy ones say; then the legacy ones repeat the newer. */
  function SyncFlags(flags: Flags): Flags {
    var switched := FillFrom(flags.memory, Enabled, flags.features, MemoryEnabled);
    var tooling := FillFrom(flags.tooling, Enabled, flags.features, ToolsEnabled);
    var provided :=
      if Entry(switched, Provider).None? && HasNonBlank(At(flags.store, Provider))
      then Put(switched, Provider, At(flags.store, Provider)) else switched;
    var memory := FillFrom(provided, Required, flags.store, Required);
    var features := CopyTo(CopyTo(flags.features, MemoryEnabled, memory, Enabled), ToolsEnabled, tooling, Enabled);
    var store := CopyTo(CopyTo(flags.store, Provider, memory, Provider), Required, memory, Required);
    Flags(memory, tooling, features, store)
  }

  function WriteFlags(data: Section, flags: Flags): Section {
    var stored := PutStore(PutFeatures(data, flags), flags.store);
    PutUnlessEmpty(PutUnlessEmpty(stored, Memory, flags.memory), Tooling, flags.tooling)
  }

  /** With a switch in either section the features are never empty. */
  function PutFeatures(data: Section, flags: Flags): Section {
    if Entry(flags.memory, Enabled).Some? || Entry(flags.tooling, Enabled).Some?
    then PutUnlessEmpty(data, Features, flags.features) else data
  }

  function PutStore(data: Section, store: Section): (r: Section)
    ensures StoreAt(r) == if store != map[] then store else StoreAt(data)
    ensures forall other :: other != Persistence ==> Entry(r, other) == Entry(data, other)
  {
    if store == map[] then data
    else PutUnlessEmpty(data, Persistence, PutUnlessEmpty(SectionAt(data, Persistence), Memory, store))
  }

  lemma PutStoreSame(data: Section)
    ensures PutStore(data, StoreAt(data)) == data
  {
    PutUnlessEmptySame(SectionAt(data, Persistence), Memory);
    PutUnlessEmptySame(data, Persistence);
  }

  function SyncDocument(data: Section): Section {
    WriteFlags(data, SyncFlags(ReadFlags(data)))
  }

  /** The two places agree, and nothing is left to inherit. */
  predicate InStep(flags: Flags) {
    && Entry(flags.features, MemoryEnabled) == Entry(flags.memory, Enabled)
    && Entry(flags.features, ToolsEnabled) == Entry(flags.tooling, Enabled)
    && Entry(flags.store, Required) == Entry(flags.memory, Required)
    && (Entry(flags.memory, Provider).Some? ==> Entry(flags.store, Provider) == Entry(flags.memory, Provider))
    && (Entry(flags.memory, Provider).None? ==> !HasNonBlank(At(flags.store, Provider)))
  }

  lemma SyncFlagsInStep(flags: Flags)
    ensures InStep(SyncFlags(flags))
  {
    hide Entry, Put, HasNonBlank, FillFrom, CopyTo;
    SwitchesInStep(flags);
  }

  lemma SwitchesInStep(flags: Flags)
    ensures var synced := SyncFlags(flags);
      && Entry(synced.features, MemoryEnabled) == Entry(synced.memory, Enabled)
      && Entry(synced.features, ToolsEnabled) == Entry(synced.tooling, Enabled)
  {
    hide Entry, Put, HasNonBlank, FillFrom, CopyTo, At;
  }

  /** Syncing changes nothing exactly when the two places are in step. */
  lemma InStepIffSynced(flags: Flags)
    ensures InStep(flags) <==> SyncFlags(flags) == flags
  {
    hide Entry, Put, HasNonBlank, SyncFlags;
    SyncFlagsInStep(flags);
    if InStep(flags) {
      InStepIsSynced(flags);
    }
  }

  lemma InStepIsSynced(flags: Flags)
    requires InStep(flags)
    ensures SyncFlags(flags) == flags
  {
    hide Entry, Put, HasNonBlank;
    CopyToSame(flags.features, MemoryEnabled, flags.memory, Enabled);
    CopyToSame(flags.features, ToolsEnabled, flags.tooling, Enabled);
    CopyToSame(flags.store, Provider, flags.memory, Provider);
    CopyToSame(flags.store, Required, flags.memory, Required);
  }

  lemma CopyToSame(target: Section, to: Field, source: Section, from: Field)
    requires Entry(source, from).Some? ==> Entry(target, to) == Entry(source, from)
    ensures CopyTo(target, to, source, from) == target
  {
    if Entry(source, from).Some? {
      PutSame(target, to, At(source, from));
    }
  }

  lemma SyncReadsBack(data: Section)
    ensures ReadFlags(SyncDocument(data)) == SyncFlags(ReadFlags(data))
  {
    hide ReadFlags, SyncFlags, WriteFlags;
    SyncOnlyAdds(ReadFlags(data));
    FlagsReadBack(data, SyncFlags(ReadFlags(data)));
  }

  lemma FlagsReadBack(data: Section, flags: Flags)
    requires OnlyAdds(ReadFlags(data), flags)
    ensures ReadFlags(WriteFlags(data, flags)) == flags
  {
    hide WriteFlags, SectionAt, StoreAt;
    SwitchesReadBack(data, flags);
    FeaturesReadBack(data, flags);
    StoreReadsBack(data, flags);
  }

  lemma SwitchesReadBack(data: Section, flags: Flags)
    requires OnlyAdds(ReadFlags(data), flags)
    ensures SectionAt(WriteFlags(data, flags), Memory) == flags.memory
    ensures SectionAt(WriteFlags(data, flags), Tooling) == flags.tooling
  {
    hide Entry, PutUnlessEmpty, PutStore, PutFeatures, SectionAt, StoreAt;
    var featured := PutFeatures(data, flags);
    var stored := PutStore(featured, flags.store);
    FeaturesKeep(data, flags, Memory);
    FeaturesKeep(data, flags, Tooling);
    SectionKept(stored, featured, Memory);
    SectionKept(stored, featured, Tooling);
    var switched := PutUnlessEmpty(stored, Memory, flags.memory);
    SectionKept(switched, stored, Tooling);
    SectionKept(PutUnlessEmpty(switched, Tooling, flags.tooling), switched, Memory);
  }

  lemma FeaturesReadBack(data: Section, flags: Flags)
    requires OnlyAdds(ReadFlags(data), flags)
    ensures SectionAt(WriteFlags(data, flags), Features) == flags.features
  {
    hide Entry, PutUnlessEmpty, PutStore, SectionAt, StoreAt;
    var featured := PutFeatures(data, flags);
    var stored := PutStore(featured, flags.store);
    SectionKept(stored, featured, Features);
    var switched := PutUnlessEmpty(stored, Memory, flags.memory);
    SectionKept(switched, stored, Features);
    SectionKept(PutUnlessEmpty(switched, Tooling, flags.tooling), switched, Features);
  }

  lemma StoreReadsBack(data: Section, flags: Flags)
    requires OnlyAdds(ReadFlags(data), flags)
    ensures StoreAt(WriteFlags(data, flags)) == flags.store
  {
    hide Entry, PutUnlessEmpty, PutStore, PutFeatures, SectionAt;
    var featured := PutFeatures(data, flags);
    var stored := PutStore(featured, flags.store);
    FeaturesKeep(data, flags, Persistence);
    var switched := PutUnlessEmpty(stored, Memory, flags.memory);
    SectionKept(switched, stored, Persistence);
    SectionKept(PutUnlessEmpty(switched, Tooling, flags.tooling), switched, Persistence);
  }

  lemma FeaturesKeep(data: Section, flags: Flags, field: Field)
    requires field != Features
    ensures SectionAt(PutFeatures(data, flags), field) == SectionAt(data, field)
  {
    hide Entry, PutUnlessEmpty, SectionAt;
    SectionKept(PutFeatures(data, flags), data, field);
  }

  /** Nothing that was there before is gone, and the features change only along with a switch. */
  predicate OnlyAdds(before: Flags, after: Flags) {
    && (after.memory == map[] ==> before.memory == map[])
    && (after.tooling == map[] ==> before.tooling == map[])
    && (after.features == map[] ==> before.features == map[])
    && (after.store == map[] ==> before.store == map[])
    && (Entry(after.memory, Enabled).None? && Entry(after.tooling, Enabled).None? ==> after.features == before.features)
  }

  lemma SyncKeepsEntry(data: Section, field: Field)
    requires field !in {Memory, Tooling, Features, Persistence}
    ensures Entry(SyncDocument(data), field) == Entry(data, field)
  {
    hide ReadFlags, SyncFlags, Entry, PutUnlessEmpty, PutStore;
  }

  lemma SyncOnlyAdds(flags: Flags)
    ensures OnlyAdds(flags, SyncFlags(flags))
  {
    hide HasNonBlank, Entry, Put, CopyTo, FillFrom;
  }

  /** A document whose flags are in step is not changed. */
  lemma SyncedUnchanged(data: Section)
    requires InStep(ReadFlags(data))
    ensures SyncDocument(data) == data
  {
    hide HasNonBlank, SyncFlags, Entry, PutUnlessEmpty, PutStore, InStep;
    InStepIffSynced(ReadFlags(data));
    PutUnlessEmptySame(data, Features);
    PutStoreSame(data);
    PutUnlessEmptySame(data, Memory);
    PutUnlessEmptySame(data, Tooling);
  }

  // ---------- the mirrored document ----------

  /** What orchestration says in a document. */
  datatype Plan = Plan(defaults: Section, strategies: Sections, usecases: Sections)

  function ReadPlan(data: Section): Plan {
    var orchestration := SectionAt(data, Orchestration);
    Plan(SectionAt(orchestration, Defaults), MappingsIn(At(orchestration, Strategies)),
         MappingsIn(At(orchestration, Usecases)))
  }

  /** `if sections: data[key] = sections`. */
  function PutSections(data: Section, field: Field, sections: Sections): (r: Section)
    ensures sections != map[] ==> Entry(r, field) == Some(MappingOf(sections))
    ensures forall other :: other != field ==> Entry(r, other) == Entry(data, other)
    ensures data != map[] ==> r != map[]
    ensures sections == map[] ==> r == data
  {
    if sections != map[] then Put(data, field, MappingOf(sections)) else data
  }

  lemma PutSectionsSame(data: Section, field: Field, sections: Sections)
    requires sections != map[] ==> Entry(data, field) == Some(MappingOf(sections))
    ensures PutSections(data, field, sections) == data
  {
    if sections != map[] {
      PutSame(data, field, MappingOf(sections));
    }
  }

  lemma PutSectionsReads(data: Section, field: Field, sections: Sections)
    requires sections == map[] ==> MappingsIn(At(data, field)) == map[]
    ensures MappingsIn(At(PutSections(data, field, sections), field)) == sections
  {
    MappingsInMappingOf(sections);
  }

  function PutPlan(orchestration: Section, plan: Plan): Section {
    PutSections(
      PutSections(PutUnlessEmpty(orchestration, Defaults, plan.defaults), Strategies, plan.strategies),
      Usecases, plan.usecases)
  }

  function WriteOrchestration(orchestration: Section, plan: Plan): Section {
    var planned := PutPlan(orchestration, plan);
    if planned != map[] then PutDefault(planned, Enabled, Bool(true)) else planned
  }

  function WritePlan(data: Section, plan: Plan): Section {
    var orchestrated :=
      PutUnlessEmpty(data, Orchestration, WriteOrchestration(SectionAt(data, Orchestration), plan));
    PutSections(
      PutSections(orchestrated, Strategies, StrategiesToLegacy(plan.strategies)),
      Usecases, UsecasesToLegacy(plan.usecases, plan.strategies))
  }

  function ActiveUsecaseOf(data: Section): Option<string> {
    TextAt(SectionAt(data, App), ActiveUsecase)
  }

  /** The strategies of orchestration with the legacy ones merged in; None when one of these has an unknown type. */
  function AbsorbedStrategies(data: Section): Option<Sections> {
    var updates := StrategiesFromLegacy(MappingsIn(At(data, Strategies)));
    if updates.None? then None else Some(AbsorbAll(ReadPlan(data).strategies, updates.value))
  }

  /** The use cases of orchestration with the legacy ones merged in. */
  function AbsorbedUsecases(data: Section): Sections {
    AbsorbAll(ReadPlan(data).usecases, UsecasesFromLegacy(MappingsIn(At(data, Usecases))))
  }

  /** The plan after absorbing the legacy sections. */
  function MirroredPlan(data: Section): Option<Plan> {
    var strategies, usecases := AbsorbedStrategies(data), AbsorbedUsecases(data);
    if strategies.None? then None
    else
      var defaults := CompleteDefaults(ReadPlan(data).defaults, ActiveUsecaseOf(data), usecases);
      Some(Plan(defaults, strategies.value, usecases))
  }

  function MirrorDocument(data: Section): Option<Section> {
    var plan := MirroredPlan(data);
    if plan.None? then None else Some(WritePlan(data, plan.value))
  }

  /** One pass of the normaliser; None when it raises. */
  function Normalize(data: Section): Option<Section> {
    MirrorDocument(SyncDocument(data))
  }

  /** The legacy sections are exactly the projections of the plan. */
  ghost predicate Mirrored(data: Section) {
    && MappingsIn(At(data, Strategies)) == StrategiesToLegacy(ReadPlan(data).strategies)
    && MappingsIn(At(data, Usecases)) == UsecasesToLegacy(ReadPlan(data).usecases, ReadPlan(data).strategies)
  }

  /** A plan that writes over everything the document already says about orchestration. */
  ghost predicate Replaces(plan: Plan, data: Section) {
    var before := ReadPlan(data);
    && (plan.defaults == map[] ==> before.defaults == map[])
    && (plan.strategies == map[] ==> before.strategies == map[] && MappingsIn(At(data, Strategies)) == map[])
    && (plan.usecases == map[] ==> before.usecases == map[] && MappingsIn(At(data, Usecases)) == map[])
  }

  lemma OrchestrationReads(orchestration: Section, plan: Plan)
    requires plan.defaults == map[] ==> SectionAt(orchestration, Defaults) == map[]
    requires plan.strategies == map[] ==> MappingsIn(At(orchestration, Strategies)) == map[]
    requires plan.usecases == map[] ==> MappingsIn(At(orchestration, Usecases)) == map[]
    ensures var written := WriteOrchestration(orchestration, plan);
      && SectionAt(written, Defaults) == plan.defaults
      && MappingsIn(At(written, Strategies)) == plan.strategies
      && MappingsIn(At(written, Usecases)) == plan.usecases
      && (orchestration != map[] ==> written != map[])
      && WriteOrchestration(written, plan) == written
  {
    hide Entry, At, WriteOrchestration, MappingsIn, MappingOf, SectionAt;
    OrchestrationHolds(orchestration, plan);
    MappingsInMappingOf(plan.strategies);
    MappingsInMappingOf(plan.usecases);
    OrchestrationUnchanged(WriteOrchestration(orchestration, plan), plan);
  }

  lemma OrchestrationHolds(orchestration: Section, plan: Plan)
    requires plan.defaults == map[] ==> SectionAt(orchestration, Defaults) == map[]
    ensures var written := WriteOrchestration(orchestration, plan);
      && SectionAt(written, Defaults) == plan.defaults
      && Holds(written, Strategies, plan.strategies) && Holds(written, Usecases, plan.usecases)
      && (written != map[] ==> Entry(written, Enabled).Some?)
      && (orchestration != map[] ==> written != map[])
      && (plan.strategies == map[] ==> At(written, Strategies) == At(orchestration, Strategies))
      && (plan.usecases == map[] ==> At(written, Usecases) == At(orchestration, Usecases))
      && (plan.strategies != map[] ==> At(written, Strategies) == MappingOf(plan.strategies))
      && (plan.usecases != map[] ==> At(written, Usecases) == MappingOf(plan.usecases))
  {
    hide Entry, PutDefault, PutPlan, MappingOf;
    PutPlanHolds(orchestration, plan);
  }

  lemma PutPlanHolds(orchestration: Section, plan: Plan)
    requires plan.defaults == map[] ==> SectionAt(orchestration, Defaults) == map[]
    ensures var planned := PutPlan(orchestration, plan);
      && SectionAt(planned, Defaults) == plan.defaults
      && Entry(planned, Strategies) ==
        (if plan.strategies == map[] then Entry(orchestration, Strategies) else Some(MappingOf(plan.strategies)))
      && Entry(planned, Usecases) ==
        (if plan.usecases == map[] then Entry(orchestration, Usecases) else Some(MappingOf(plan.usecases)))
      && (orchestration != map[] ==> planned != map[])
  {
    hide Entry, PutSections, PutUnlessEmpty, MappingOf;
  }

  /** Sections that are not empty are stored under their field. */
  ghost predicate Holds(data: Section, field: Field, sections: Sections) {
    sections != map[] ==> Entry(data, field) == Some(MappingOf(sections))
  }

  lemma OrchestrationUnchanged(written: Section, plan: Plan)
    requires SectionAt(written, Defaults) == plan.defaults
    requires Holds(written, Strategies, plan.strategies) && Holds(written, Usecases, plan.usecases)
    requires written != map[] ==> Entry(written, Enabled).Some?
    ensures WriteOrchestration(written, plan) == written
  {
    hide Entry, SectionAt, MappingOf, PutSections, PutUnlessEmpty, PutDefault;
    PutUnlessEmptySame(written, Defaults);
    PutSectionsSame(written, Strategies, plan.strategies);
    PutSectionsSame(written, Usecases, plan.usecases);
  }

  /** Writing a plan: the document then says it, mirrors it, and is not changed by writing it again. */
  lemma PlanReadsBack(data: Section, plan: Plan)
    requires Replaces(plan, data)
    ensures var written := WritePlan(data, plan);
      && ReadPlan(written) == plan
      && Mirrored(written)
      && HoldsLegacy(written, plan)
      && WritePlan(written, plan) == written
  {
    hide Entry, At, WritePlan, WriteOrchestration, StrategiesToLegacy, UsecasesToLegacy, MappingOf, MappingsIn;
    OrchestrationReads(SectionAt(data, Orchestration), plan);
    PlanWritten(data, plan);
    var written := WritePlan(data, plan);
    PlanUnchanged(written, plan);
  }

  lemma PlanWritten(data: Section, plan: Plan)
    requires Replaces(plan, data)
    requires SectionAt(data, Orchestration) != map[] ==>
      WriteOrchestration(SectionAt(data, Orchestration), plan) != map[]
    ensures var written := WritePlan(data, plan);
      && SectionAt(written, Orchestration) == WriteOrchestration(SectionAt(data, Orchestration), plan)
      && HoldsLegacy(written, plan)
      && MappingsIn(At(written, Strategies)) == StrategiesToLegacy(plan.strategies)
      && MappingsIn(At(written, Usecases)) == UsecasesToLegacy(plan.usecases, plan.strategies)
  {
    hide At, SectionAt, PutSections, PutUnlessEmpty, WriteOrchestration, StrategiesToLegacy, UsecasesToLegacy;
    hide MappingsIn, ReadPlan, Holds;
    ProjectionsEmpty(plan);
    var strategies, usecases := StrategiesToLegacy(plan.strategies), UsecasesToLegacy(plan.usecases, plan.strategies);
    var orchestrated :=
      PutUnlessEmpty(data, Orchestration, WriteOrchestration(SectionAt(data, Orchestration), plan));
    OrchestrationWritten(orchestrated, strategies, usecases);
    AtKept(orchestrated, data, Strategies);
    AtKept(orchestrated, data, Usecases);
    LegacyWritten(orchestrated, strategies, usecases);
  }

  lemma OrchestrationWritten(data: Section, strategies: Sections, usecases: Sections)
    ensures var written := PutSections(PutSections(data, Strategies, strategies), Usecases, usecases);
      SectionAt(written, Orchestration) == SectionAt(data, Orchestration)
  {
    hide Entry, SectionAt, PutSections;
    var planned := PutSections(data, Strategies, strategies);
    SectionKept(planned, data, Orchestration);
    SectionKept(PutSections(planned, Usecases, usecases), planned, Orchestration);
  }

  lemma LegacyWritten(data: Section, strategies: Sections, usecases: Sections)
    requires strategies == map[] ==> MappingsIn(At(data, Strategies)) == map[]
    requires usecases == map[] ==> MappingsIn(At(data, Usecases)) == map[]
    ensures var written := PutSections(PutSections(data, Strategies, strategies), Usecases, usecases);
      && Holds(written, Strategies, strategies) && Holds(written, Usecases, usecases)
      && MappingsIn(At(written, Strategies)) == strategies && MappingsIn(At(written, Usecases)) == usecases
  {
    hide Entry, At, PutSections, MappingOf, MappingsIn;
    var planned := PutSections(data, Strategies, strategies);
    AtKept(planned, data, Usecases);
    PutSectionsReads(data, Strategies, strategies);
    AtKept(PutSections(planned, Usecases, usecases), planned, Strategies);
    PutSectionsReads(planned, Usecases, usecases);
  }

  ghost predicate HoldsLegacy(data: Section, plan: Plan) {
    && Holds(data, Strategies, StrategiesToLegacy(plan.strategies))
    && Holds(data, Usecases, UsecasesToLegacy(plan.usecases, plan.strategies))
  }

  lemma PlanUnchanged(data: Section, plan: Plan)
    requires WriteOrchestration(SectionAt(data, Orchestration), plan) == SectionAt(data, Orchestration)
    requires HoldsLegacy(data, plan)
    ensures WritePlan(data, plan) == data
  {
    hide Entry, PutSections, PutUnlessEmpty, WriteOrchestration, StrategiesToLegacy, UsecasesToLegacy, MappingOf;
    ProjectionsEmpty(plan);
    PutUnlessEmptySame(data, Orchestration);
    PutSectionsSame(data, Strategies, StrategiesToLegacy(plan.strategies));
    PutSectionsSame(data, Usecases, UsecasesToLegacy(plan.usecases, plan.strategies));
  }

  lemma ProjectionsEmpty(plan: Plan)
    ensures StrategiesToLegacy(plan.strategies) == map[] <==> plan.strategies == map[]
    ensures UsecasesToLegacy(plan.usecases, plan.strategies) == map[] <==> plan.usecases == map[]
  {
    hide StrategyToLegacy, UsecaseToLegacy;
    assert StrategiesToLegacy(plan.strategies).Keys == plan.strategies.Keys;
    assert UsecasesToLegacy(plan.usecases, plan.strategies).Keys == plan.usecases.Keys;
  }

  lemma PlanKeepsEntry(data: Section, plan: Plan, field: Field)
    requires field !in {Orchestration, Strategies, Usecases}
    ensures Entry(WritePlan(data, plan), field) == Entry(data, field)
  {
    hide Entry, PutSections, PutUnlessEmpty, WriteOrchestration, StrategiesToLegacy, UsecasesToLegacy;
  }

  // ---------- the fixed point ----------

  lemma MirroredPlanReplaces(data: Section)
    requires MirroredPlan(data).Some?
    ensures Replaces(MirroredPlan(data).value, data)
  {
    hide Entry, At, MappingsIn, StrategyFromLegacy, UsecaseFromLegacy, MergeSections, TextAt;
    var plan, before := MirroredPlan(data).value, ReadPlan(data);
    var legacy := MappingsIn(At(data, Strategies));
    var updates := StrategiesFromLegacy(legacy).value;
    assert plan.strategies.Keys == before.strategies.Keys + updates.Keys && updates.Keys == legacy.Keys;
    var legacyUsecases := MappingsIn(At(data, Usecases));
    assert plan.usecases.Keys == before.usecases.Keys + UsecasesFromLegacy(legacyUsecases).Keys;
    assert UsecasesFromLegacy(legacyUsecases).Keys == legacyUsecases.Keys;
  }

  /** Writing a plan touches neither the flags nor the choice of the active use case. */
  lemma MirrorKeepsFlags(data: Section, plan: Plan)
    ensures ReadFlags(WritePlan(data, plan)) == ReadFlags(data)
    ensures ActiveUsecaseOf(WritePlan(data, plan)) == ActiveUsecaseOf(data)
  {
    hide Entry, WritePlan;
    forall field | field in {Memory, Tooling, Features, Persistence, App} {
      PlanKeepsEntry(data, plan, field);
    }
  }

  /** After any pass the flags agree in their two places, and the legacy strategies and use cases are exactly the
      projections of those of orchestration: where orchestration has any, the legacy section holds these under the
      same names and nothing else. */
  lemma PassMirrors(data: Section)
    requires Normalize(data).Some?
    ensures InStep(ReadFlags(Normalize(data).value))
    ensures Mirrored(Normalize(data).value)
    ensures HoldsLegacy(Normalize(data).value, ReadPlan(Normalize(data).value))
  {
    hide HoldsLegacy, ReadFlags, SyncFlags, SyncDocument, WritePlan, MirroredPlan, Mirrored, InStep, Replaces, ReadPlan;
    var synced := SyncDocument(data);
    SyncReadsBack(data);
    SyncFlagsInStep(ReadFlags(data));
    MirroredPlanReplaces(synced);
    PlanReadsBack(synced, MirroredPlan(synced).value);
    MirrorKeepsFlags(synced, MirroredPlan(synced).value);
  }

  /** The plan a mirrored document leads to. */
  lemma MirroredPlanOf(data: Section)
    requires Mirrored(data)
    ensures var plan, strategies := ReadPlan(data), MirroredStrategies(ReadPlan(data).strategies);
      && (MirroredPlan(data).Some? <==> strategies.Some?)
      && (strategies.Some? ==>
            var usecases := MirroredUsecases(plan.usecases, plan.strategies);
            MirroredPlan(data) == Some(
              Plan(CompleteDefaults(plan.defaults, ActiveUsecaseOf(data), usecases), strategies.value, usecases)))
  {
    hide AbsorbAll, StrategiesFromLegacy, UsecasesFromLegacy, StrategiesToLegacy, UsecasesToLegacy, CompleteDefaults;
    hide ReadPlan, MappingsIn, At;
  }

  /** The orchestration defaults are completed from the active use case. */
  ghost predicate Completed(data: Section) {
    exists defaults ::
      ReadPlan(data).defaults == CompleteDefaults(defaults, ActiveUsecaseOf(data), ReadPlan(data).usecases)
  }

  /** A second mirroring reaches a plan that the third reproduces. */
  lemma PlanSettles(first: Section, second: Section)
    requires Mirrored(first) && MirroredPlan(first).Some?
    requires Completed(first)
    requires Mirrored(second) && ReadPlan(second) == MirroredPlan(first).value
    requires ActiveUsecaseOf(second) == ActiveUsecaseOf(first)
    ensures MirroredPlan(second) == Some(ReadPlan(second))
  {
    hide MirroredPlan, Mirrored, ReadPlan, MirroredStrategies, MirroredUsecases, CompleteDefaults, TextAt, SectionOf;
    var plan, later := ReadPlan(first), ReadPlan(second);
    MirroredPlanOf(first);
    MirroredPlanOf(second);
    StrategiesSettle(plan.strategies);
    UsecasesSettle(plan.usecases, plan.strategies, later.strategies);
    var active := ActiveUsecaseOf(first);
    var defaults :| ReadPlan(first).defaults == CompleteDefaults(defaults, active, plan.usecases);
    DefaultsSettle(defaults, active, plan.usecases, later.usecases);
  }

  /** Two passes reach a fixed point: when neither raises, a third does not raise and changes nothing. */
  lemma TwoPassesSettle(data: Section)
    requires Normalize(data).Some? && Normalize(Normalize(data).value).Some?
    ensures var twice := Normalize(Normalize(data).value).value;
      Normalize(twice) == Some(twice)
  {
    hide ReadFlags, SyncFlags, SyncDocument, WritePlan, MirroredPlan, Mirrored, InStep, Replaces, ReadPlan;
    hide ActiveUsecaseOf, CompleteDefaults, Completed;
    var synced := SyncDocument(data);
    var first := Normalize(data).value;
    PassMirrors(data);
    SyncedUnchanged(first);
    var second := Normalize(first).value;
    PassMirrors(first);
    SyncedUnchanged(second);
    FirstPlanCompleted(synced);
    MirroredPlanReplaces(first);
    PlanReadsBack(first, MirroredPlan(first).value);
    MirrorKeepsFlags(first, MirroredPlan(first).value);
    PlanSettles(first, second);
  }

  // ---------- when a pass succeeds ----------

  /** Syncing the flags does not touch what mirroring reads. */
  lemma SyncKeepsPlan(data: Section)
    ensures MirroredPlan(SyncDocument(data)) == MirroredPlan(data)
  {
    hide SyncDocument, Entry, At, StrategiesFromLegacy, UsecasesFromLegacy, CompleteDefaults, AbsorbAll, MappingsIn;
    forall field | field in {Orchestration, Strategies, Usecases, App}
      ensures At(SyncDocument(data), field) == At(data, field)
    {
      SyncKeepsEntry(data, field);
      AtKept(SyncDocument(data), data, field);
    }
  }

  /** The plan after a pass is the one computed from the document before it. */
  lemma PlanOfPass(data: Section)
    ensures Normalize(data).Some? <==> AbsorbedStrategies(data).Some?
    ensures Normalize(data).Some? ==>
      && MirroredPlan(data).Some?
      && ReadPlan(Normalize(data).value) == MirroredPlan(data).value
      && Normalize(data).value == WritePlan(SyncDocument(data), MirroredPlan(data).value)
  {
    hide SyncDocument, WritePlan, ReadPlan, AbsorbedStrategies, AbsorbedUsecases, CompleteDefaults, Replaces, Mirrored;
    SyncKeepsPlan(data);
    if Normalize(data).Some? {
      MirroredPlanReplaces(SyncDocument(data));
      PlanReadsBack(SyncDocument(data), MirroredPlan(data).value);
    }
  }

  /** The type of the strategy, if it is a text, is a known one. */
  predicate TypeKnown(strategy: Section) {
    At(strategy, Type).Str? ==> NormalizeStrategyType(At(strategy, Type).text).Some?
  }

  /** A pass raises exactly when a legacy strategy has an unknown type; the types of orchestration play no part. */
  lemma FirstPassSucceedsIff(data: Section)
    ensures Normalize(data).Some? <==>
      var legacy := MappingsIn(At(data, Strategies));
      forall key :: key in legacy ==> TypeKnown(legacy[key])
  {
    hide SyncDocument, NormalizeStrategyType, Put, At, MappingsIn, MirroredPlan, Normalize, AbsorbAll, ReadPlan;
    PlanOfPass(data);
  }

  /** The strategy of orchestration has a known type, or the legacy one of its name says what type it has. */
  predicate TypeSettled(data: Section, key: Key) {
    var legacy := MappingsIn(At(data, Strategies));
    || TypeKnown(SectionOf(ReadPlan(data).strategies, key))
    || Entry(SectionOf(legacy, key), Type).Some?
  }

  /** The second pass raises exactly when orchestration has a strategy of an unknown type and no legacy strategy
      overrides it: the first pass does not look at such a type, but mirrors it, and the second reads it back. */
  lemma SecondPassSucceedsIff(data: Section)
    requires Normalize(data).Some?
    ensures Normalize(Normalize(data).value).Some? <==>
      forall key :: key in ReadPlan(data).strategies ==> TypeSettled(data, key)
  {
    hide ReadFlags, SyncDocument, WritePlan, MirroredPlan, Mirrored, HoldsLegacy, InStep, ReadPlan, TypeKnown;
    hide StrategyUpdate, Normalize, TypeSettled;
    PlanOfPass(data);
    PassMirrors(data);
    SecondPassByPlan(data);
    forall key | key in AbsorbedStrategies(data).value
      ensures TypeKnown(AbsorbedStrategies(data).value[key]) <==>
        (key in ReadPlan(data).strategies ==> TypeSettled(data, key))
    {
      AbsorbedTypeKnownIff(data, key);
    }
    AbsorbedNames(data);
  }

  lemma SecondPassByPlan(data: Section)
    requires Normalize(data).Some? && AbsorbedStrategies(data).Some?
    ensures Normalize(Normalize(data).value).Some? <==>
      forall key :: key in AbsorbedStrategies(data).value ==> TypeKnown(AbsorbedStrategies(data).value[key])
  {
    hide ReadFlags, SyncDocument, WritePlan, Mirrored, HoldsLegacy, InStep, ReadPlan, TypeKnown, StrategyUpdate;
    hide AbsorbedStrategies, AbsorbedUsecases, MirroredStrategies, MirroredUsecases, CompleteDefaults;
    var first := Normalize(data).value;
    PlanOfPass(data);
    PassMirrors(data);
    SyncedUnchanged(first);
    MirroredPlanOf(first);
    var strategies := AbsorbedStrategies(data).value;
    forall key | key in strategies ensures StrategyUpdate(strategies[key]).Some? <==> TypeKnown(strategies[key]) {
      UpdateIffTypeKnown(strategies[key]);
    }
    MirroredIffUpdates(strategies);
  }

  lemma AbsorbedNames(data: Section)
    requires AbsorbedStrategies(data).Some?
    ensures AbsorbedStrategies(data).value.Keys
      == ReadPlan(data).strategies.Keys + MappingsIn(At(data, Strategies)).Keys
  {
    hide ReadPlan, MappingsIn, At, StrategyFromLegacy, MergeSections;
  }

  lemma AbsorbedTypeKnownIff(data: Section, key: Key)
    requires AbsorbedStrategies(data).Some? && key in AbsorbedStrategies(data).value
    ensures TypeKnown(AbsorbedStrategies(data).value[key]) <==>
      (key in ReadPlan(data).strategies ==> TypeSettled(data, key))
  {
    hide ReadPlan, MappingsIn, StrategyFromLegacy, MergeSections, TypeKnown, Entry, At;
    var legacy, strategies := MappingsIn(At(data, Strategies)), ReadPlan(data).strategies;
    if key in legacy {
      AbsorbedTypeKnown(SectionOf(strategies, key), legacy[key]);
      NoTypeKnown();
    } else {
      NoTypeKnown();
    }
  }

  lemma NoTypeKnown()
    ensures TypeKnown(map[]) && Entry(map[], Type).None?
  {
  }

  /** A legacy strategy decides the type, if it gives one. */
  lemma AbsorbedTypeKnown(strategy: Section, legacy: Section)
    requires StrategyFromLegacy(legacy).Some?
    ensures TypeKnown(MergeSections(strategy, StrategyFromLegacy(legacy).value)) <==>
      TypeKnown(strategy) || Entry(legacy, Type).Some?
  {
    hide Entry, Put, MergeSections, NormalizeStrategyType;
    MergeEntry(strategy, StrategyFromLegacy(legacy).value, Type);
    if At(legacy, Type).Str? {
      StrategyTypeStable(At(legacy, Type).text);
    }
  }

  lemma MirroredIffUpdates(strategies: Sections)
    ensures MirroredStrategies(strategies).Some? <==>
      forall key :: key in strategies ==> StrategyUpdate(strategies[key]).Some?
  {
    hide StrategyFromLegacy, StrategyToLegacy, AbsorbAll;
    var legacy := StrategiesToLegacy(strategies);
    assert legacy.Keys == strategies.Keys;
    if forall key :: key in strategies ==> StrategyUpdate(strategies[key]).Some? {
      forall key | key in legacy ensures StrategyFromLegacy(legacy[key]).Some? {
        assert StrategyUpdate(strategies[key]).Some?;
      }
    } else {
      var key :| key in strategies && StrategyUpdate(strategies[key]).None?;
      assert StrategyFromLegacy(legacy[key]).None?;
    }
  }

  lemma UpdateIffTypeKnown(strategy: Section)
    ensures StrategyUpdate(strategy).Some? <==> TypeKnown(strategy)
  {
    hide NormalizeStrategyType;
    DirectAgentKnown();
    StrategyToLegacyEntries(strategy, Type);
  }

  // ---------- what a pass leaves, entry by entry ----------

  /** The two sections hold the same under the key, or both nothing. */
  ghost predicate SameAt(one: Section, other: Section, key: Key) {
    (key in one <==> key in other) && (key in other ==> one[key] == other[key])
  }

  /** After a pass that leaves anything of orchestration, its `enabled` entry is the one it had, or true if it had none;
      nothing of orchestration goes away. */
  lemma OrchestrationOfPass(data: Section)
    requires Normalize(data).Some?
    ensures var before, after := SectionAt(data, Orchestration), SectionAt(Normalize(data).value, Orchestration);
      && (after != map[] ==>
            Entry(after, Enabled) == if Entry(before, Enabled).Some? then Entry(before, Enabled) else Some(Bool(true)))
      && (before != map[] ==> after != map[])
      && forall key :: key !in {Known(Enabled), Known(Defaults), Known(Strategies), Known(Usecases)} ==>
           SameAt(after, before, key)
  {
    hide Entry, SyncDocument, WritePlan, ReadPlan, MirroredPlan, Replaces, Normalize, WriteOrchestration;
    PlanOfPass(data);
    SyncKeepsPlan(data);
    MirroredPlanReplaces(SyncDocument(data));
    SyncKeepsEntry(data, Orchestration);
    SectionKept(SyncDocument(data), data, Orchestration);
    WrittenOrchestration(SyncDocument(data), MirroredPlan(data).value);
    OrchestrationKeeps(SectionAt(data, Orchestration), MirroredPlan(data).value);
  }

  lemma WrittenOrchestration(data: Section, plan: Plan)
    requires Replaces(plan, data)
    ensures SectionAt(WritePlan(data, plan), Orchestration) == WriteOrchestration(SectionAt(data, Orchestration), plan)
  {
    hide Entry, At, SectionAt, WritePlan, WriteOrchestration, StrategiesToLegacy, UsecasesToLegacy, MappingsIn;
    OrchestrationReads(SectionAt(data, Orchestration), plan);
    PlanWritten(data, plan);
  }

  lemma OrchestrationKeeps(before: Section, plan: Plan)
    ensures var after := WriteOrchestration(before, plan);
      && (after != map[] ==>
            Entry(after, Enabled) == if Entry(before, Enabled).Some? then Entry(before, Enabled) else Some(Bool(true)))
      && (before != map[] ==> after != map[])
      && forall key :: key !in {Known(Enabled), Known(Defaults), Known(Strategies), Known(Usecases)} ==>
           SameAt(after, before, key)
  {
    hide PutPlan, Entry;
    PlanKeeps(before, plan);
    forall key | key !in {Known(Enabled), Known(Defaults), Known(Strategies), Known(Usecases)}
      ensures SameAt(WriteOrchestration(before, plan), before, key)
    {
      assert SameAt(PutPlan(before, plan), before, key);
    }
  }

  lemma PlanKeeps(before: Section, plan: Plan)
    ensures var planned := PutPlan(before, plan);
      && Entry(planned, Enabled) == Entry(before, Enabled)
      && (before != map[] ==> planned != map[])
      && forall key :: key !in {Known(Defaults), Known(Strategies), Known(Usecases)} ==> SameAt(planned, before, key)
  {
    hide MappingOf;
  }

  /** The defaults of orchestration after a pass.  The strategy is their own, if it is a text that is not blank, or
      else the stripped one of the active use case, the legacy use cases merged in; the fallback strategy is their
      own, or else the strategy.  All other entries stay. */
  lemma DefaultsOfOrchestration(data: Section)
    requires Normalize(data).Some?
    ensures var own := SectionAt(SectionAt(data, Orchestration), Defaults);
      var after := SectionAt(SectionAt(Normalize(data).value, Orchestration), Defaults);
      var active := TextAt(SectionAt(data, App), ActiveUsecase);
      var named := if active.Some? then TextAt(SectionOf(AbsorbedUsecases(data), KeyOf(active.value)), Field.Strategy)
                   else None;
      && Entry(after, Field.Strategy) ==
         (if TextAt(own, Field.Strategy).None? && named.Some? then Some(Str(named.value))
          else Entry(own, Field.Strategy))
      && Entry(after, FallbackStrategy) ==
         (if TextAt(own, FallbackStrategy).None? && TextAt(after, Field.Strategy).Some?
          then Entry(after, Field.Strategy)
          else Entry(own, FallbackStrategy))
      && forall key :: key !in {Known(Field.Strategy), Known(FallbackStrategy)} ==> SameAt(after, own, key)
  {
    hide Entry, SyncDocument, WritePlan, Normalize, AbsorbedStrategies, AbsorbedUsecases, FillDefaults, TextAt;
    hide SectionOf;
    PlanOfPass(data);
    var own := SectionAt(SectionAt(data, Orchestration), Defaults);
    FilledDefaults(own, ActiveStrategy(ActiveUsecaseOf(data), AbsorbedUsecases(data)));
  }

  lemma FilledDefaults(own: Section, candidate: Option<string>)
    ensures var after := FillDefaults(own, candidate);
      && Entry(after, Field.Strategy) ==
         (if TextAt(own, Field.Strategy).None? && candidate.Some? then Some(Str(candidate.value))
          else Entry(own, Field.Strategy))
      && Entry(after, FallbackStrategy) ==
         (if TextAt(own, FallbackStrategy).None? && TextAt(after, Field.Strategy).Some?
          then Entry(after, Field.Strategy)
          else Entry(own, FallbackStrategy))
      && forall key :: key !in {Known(Field.Strategy), Known(FallbackStrategy)} ==> SameAt(after, own, key)
  {
    hide Strip;
  }

  /** The flags after a pass: the newer place keeps its own and inherits from the legacy one only what it lacks, a
      provider only if that is a text that is not blank; and the legacy place says the same as the newer. */
  lemma FlagsOfPass(data: Section)
    requires Normalize(data).Some?
    ensures var before, after := ReadFlags(data), ReadFlags(Normalize(data).value);
      && Entry(after.memory, Enabled) == First(Entry(before.memory, Enabled), Entry(before.features, MemoryEnabled))
      && Entry(after.tooling, Enabled) == First(Entry(before.tooling, Enabled), Entry(before.features, ToolsEnabled))
      && Entry(after.memory, Required) == First(Entry(before.memory, Required), Entry(before.store, Required))
      && Entry(after.memory, Provider) ==
         First(Entry(before.memory, Provider),
               if HasNonBlank(At(before.store, Provider)) then Entry(before.store, Provider) else None)
      && Entry(after.features, MemoryEnabled) == Entry(after.memory, Enabled)
      && Entry(after.features, ToolsEnabled) == Entry(after.tooling, Enabled)
      && Entry(after.store, Required) == Entry(after.memory, Required)
      && Entry(after.store, Provider) == First(Entry(after.memory, Provider), Entry(before.store, Provider))
      && (forall field :: field !in {Enabled, Required, Provider} ==>
            Entry(after.memory, field) == Entry(before.memory, field))
      && (forall field :: field != Enabled ==> Entry(after.tooling, field) == Entry(before.tooling, field))
      && (forall field :: field !in {MemoryEnabled, ToolsEnabled} ==>
            Entry(after.features, field) == Entry(before.features, field))
      && (forall field :: field !in {Required, Provider} ==> Entry(after.store, field) == Entry(before.store, field))
      && NamedOf(after.memory) == NamedOf(before.memory) && NamedOf(after.tooling) == NamedOf(before.tooling)
      && NamedOf(after.features) == NamedOf(before.features) && NamedOf(after.store) == NamedOf(before.store)
  {
    hide Entry, SyncDocument, WritePlan, Normalize, ReadPlan, MirroredPlan, SyncFlags, ReadFlags, HasNonBlank, At;
    hide First, NamedOf;
    PlanOfPass(data);
    MirrorKeepsFlags(SyncDocument(data), MirroredPlan(data).value);
    SyncReadsBack(data);
    SyncedFlags(ReadFlags(data));
    SyncedProvider(ReadFlags(data));
    SwitchesInStep(ReadFlags(data));
    SyncedStore(ReadFlags(data));
    SyncedOthers(ReadFlags(data));
    SyncedLegacyOthers(ReadFlags(data));
    SyncedNamed(ReadFlags(data));
  }

  lemma SyncedFlags(before: Flags)
    ensures var after := SyncFlags(before);
      && Entry(after.memory, Enabled) == First(Entry(before.memory, Enabled), Entry(before.features, MemoryEnabled))
      && Entry(after.tooling, Enabled) == First(Entry(before.tooling, Enabled), Entry(before.features, ToolsEnabled))
      && Entry(after.memory, Required) == First(Entry(before.memory, Required), Entry(before.store, Required))
  {
    hide Entry, Put, FillFrom, CopyTo, HasNonBlank, At;
  }

  lemma SyncedProvider(before: Flags)
    ensures Entry(SyncFlags(before).memory, Provider) ==
      First(Entry(before.memory, Provider),
            if HasNonBlank(At(before.store, Provider)) then Entry(before.store, Provider) else None)
  {
    hide Entry, Put, FillFrom, CopyTo, HasNonBlank;
    NullIsBlank();
  }

  lemma SyncedStore(before: Flags)
    ensures var after := SyncFlags(before);
      && Entry(after.store, Required) == Entry(after.memory, Required)
      && Entry(after.store, Provider) == First(Entry(after.memory, Provider), Entry(before.store, Provider))
  {
    hide Entry, Put, FillFrom, CopyTo, HasNonBlank, At;
  }

  lemma SyncedNamed(before: Flags)
    ensures var after := SyncFlags(before);
      && NamedOf(after.memory) == NamedOf(before.memory) && NamedOf(after.tooling) == NamedOf(before.tooling)
      && NamedOf(after.features) == NamedOf(before.features) && NamedOf(after.store) == NamedOf(before.store)
  {
    hide Entry, Put, NamedOf, HasNonBlank, At, FillFrom, CopyTo;
    FilledNamed();
    NamedKept();
  }

  lemma FilledNamed()
    ensures forall to, from, target: Section, source: Section ::
      NamedOf(FillFrom(target, to, source, from)) == NamedOf(target)
    ensures forall to, from, target: Section, source: Section ::
      NamedOf(CopyTo(target, to, source, from)) == NamedOf(target)
  {
    hide Entry, Put, NamedOf, At;
    NamedKept();
  }

  lemma NullIsBlank()
    ensures !HasNonBlank(Null)
  {
  }

  lemma SyncedOthers(before: Flags)
    ensures var after := SyncFlags(before);
      && (forall field :: field !in {Enabled, Required, Provider} ==>
            Entry(after.memory, field) == Entry(before.memory, field))
      && (forall field :: field != Enabled ==> Entry(after.tooling, field) == Entry(before.tooling, field))
  {
    hide Entry, Put, FillFrom, CopyTo, HasNonBlank, At;
  }

  lemma SyncedLegacyOthers(before: Flags)
    ensures var after := SyncFlags(before);
      && (forall field :: field !in {MemoryEnabled, ToolsEnabled} ==>
            Entry(after.features, field) == Entry(before.features, field))
      && (forall field :: field !in {Required, Provider} ==> Entry(after.store, field) == Entry(before.store, field))
  {
    hide Entry, Put, FillFrom, CopyTo, HasNonBlank, At;
  }

  /** A pass touches no other part of the document, and no other part of `persistence`. */
  lemma PassKeepsRest(data: Section, key: Key)
    requires Normalize(data).Some?
    ensures !IsDealtWith(key) ==> SameAt(Normalize(data).value, data, key)
    ensures key != Known(Memory) ==>
      SameAt(SectionAt(Normalize(data).value, Persistence), SectionAt(data, Persistence), key)
  {
    hide SyncDocument, WritePlan, MirroredPlan, Normalize, SectionAt, ReadPlan, AbsorbedStrategies;
    PlanOfPass(data);
    SyncKeepsRest(data, key);
    PlanKeepsRest(SyncDocument(data), MirroredPlan(data).value, key);
  }

  ghost predicate IsDealtWith(key: Key) {
    && key.Known?
    && key.field in {Features, Persistence, Memory, Tooling, Orchestration, Strategies, Usecases}
  }

  lemma PlanKeepsRest(data: Section, plan: Plan, key: Key)
    ensures key !in {Known(Orchestration), Known(Strategies), Known(Usecases)} ==>
      SameAt(WritePlan(data, plan), data, key)
    ensures SectionAt(WritePlan(data, plan), Persistence) == SectionAt(data, Persistence)
  {
    hide MappingOf, StrategiesToLegacy, UsecasesToLegacy, WriteOrchestration, Entry, SectionAt;
    SectionKept(WritePlan(data, plan), data, Persistence);
  }

  lemma SyncKeepsRest(data: Section, key: Key)
    ensures key !in {Known(Features), Known(Persistence), Known(Memory), Known(Tooling)} ==>
      SameAt(SyncDocument(data), data, key)
    ensures key != Known(Memory) ==>
      SameAt(SectionAt(SyncDocument(data), Persistence), SectionAt(data, Persistence), key)
  {
    hide ReadFlags, SyncFlags, Entry, SectionAt, PutStore, PutFeatures, PutUnlessEmpty;
    var flags := SyncFlags(ReadFlags(data));
    FeaturesKeepRest(data, flags, key);
    StoreKeepsRest(PutFeatures(data, flags), flags.store, key);
    var stored := PutStore(PutFeatures(data, flags), flags.store);
    var remembered := PutUnlessEmpty(stored, Memory, flags.memory);
    PutKeepsRest(stored, Memory, flags.memory, key);
    PutKeepsRest(remembered, Tooling, flags.tooling, key);
    SectionKept(PutFeatures(data, flags), data, Persistence);
    SectionKept(SyncDocument(data), stored, Persistence);
  }

  lemma PutKeepsRest(data: Section, field: Field, content: Section, key: Key)
    ensures key != Known(field) ==> SameAt(PutUnlessEmpty(data, field, content), data, key)
  {
  }

  lemma FeaturesKeepRest(data: Section, flags: Flags, key: Key)
    ensures key != Known(Features) ==> SameAt(PutFeatures(data, flags), data, key)
    ensures Entry(PutFeatures(data, flags), Persistence) == Entry(data, Persistence)
  {
    hide Entry, PutUnlessEmpty;
    PutKeepsRest(data, Features, flags.features, key);
  }

  lemma StoreKeepsRest(data: Section, store: Section, key: Key)
    ensures key != Known(Persistence) ==> SameAt(PutStore(data, store), data, key)
    ensures key != Known(Memory) ==>
      SameAt(SectionAt(PutStore(data, store), Persistence), SectionAt(data, Persistence), key)
  {
    hide Entry, PutUnlessEmpty, SectionAt;
    var inner := PutUnlessEmpty(SectionAt(data, Persistence), Memory, store);
    PutKeepsRest(SectionAt(data, Persistence), Memory, store, key);
    PutKeepsRest(data, Persistence, inner, key);
  }

  /** In the absorbed sections a legacy setting wins over the one of orchestration, path by path. */
  lemma AbsorbedAtPath(current: Sections, updates: Sections, name: Key, path: seq<Key>)
    ensures name in AbsorbAll(current, updates) <==> name in current || name in updates
    ensures name in updates ==>
      Lookup(Mapping(AbsorbAll(current, updates)[name]), path)
      == CombineAt(Mapping(SectionOf(current, name)), Mapping(updates[name]), path)
    ensures name in current && name !in updates ==> AbsorbAll(current, updates)[name] == current[name]
  {
    hide Merge, Lookup, CombineAt;
    if name in updates {
      MergedIsMapping(SectionOf(current, name), updates[name]);
      MergeAtPath(Mapping(SectionOf(current, name)), Mapping(updates[name]), path);
    }
  }

  // ---------- when one pass is enough ----------

  lemma FirstPlanCompleted(data: Section)
    requires MirroredPlan(data).Some?
    ensures Completed(WritePlan(data, MirroredPlan(data).value))
  {
    hide ReadPlan, CompleteDefaults, ReadFlags, Replaces, ActiveUsecaseOf;
    MirroredPlanReplaces(data);
    PlanReadsBack(data, MirroredPlan(data).value);
    MirrorKeepsFlags(data, MirroredPlan(data).value);
    var first := WritePlan(data, MirroredPlan(data).value);
    assert ReadPlan(first).defaults
      == CompleteDefaults(ReadPlan(data).defaults, ActiveUsecaseOf(first), ReadPlan(first).usecases);
  }

  /** Everything mirroring would give the strategies and use cases, they have. */
  ghost predicate AllSettled(strategies: Sections, usecases: Sections) {
    && (forall key :: key in strategies ==> StrategySettled(strategies[key]))
    && (forall key :: key in usecases ==> UsecaseSettled(usecases[key], StrategyFor(usecases[key], strategies)))
  }

  /** One pass is enough exactly when every strategy and use case, the legacy ones merged in, is settled: nothing that
      the projection fills in or tidies up is missing. */
  lemma OnePassSufficesIff(data: Section)
    requires Normalize(data).Some?
    ensures AbsorbedStrategies(data).Some?
    ensures Normalize(Normalize(data).value) == Normalize(data) <==>
      AllSettled(AbsorbedStrategies(data).value, AbsorbedUsecases(data))
  {
    hide Normalize, AbsorbedStrategies, AbsorbedUsecases, MirroredStrategies, MirroredUsecases, AllSettled;
    PlanOfPass(data);
    OnePassByPlan(data);
    MirroredStrategiesSameIff(AbsorbedStrategies(data).value);
    MirroredUsecasesSameIff(AbsorbedUsecases(data), AbsorbedStrategies(data).value);
    AllSettledMeans(AbsorbedStrategies(data).value, AbsorbedUsecases(data));
  }

  lemma AllSettledMeans(strategies: Sections, usecases: Sections)
    ensures AllSettled(strategies, usecases) <==>
      && (forall key :: key in strategies ==> StrategySettled(strategies[key]))
      && (forall key :: key in usecases ==> UsecaseSettled(usecases[key], StrategyFor(usecases[key], strategies)))
  {
    hide StrategySettled, UsecaseSettled, StrategyFor;
  }

  lemma OnePassByPlan(data: Section)
    requires Normalize(data).Some? && AbsorbedStrategies(data).Some?
    ensures var strategies, usecases := AbsorbedStrategies(data).value, AbsorbedUsecases(data);
      Normalize(Normalize(data).value) == Normalize(data) <==>
      MirroredStrategies(strategies) == Some(strategies) && MirroredUsecases(usecases, strategies) == usecases
  {
    hide ReadFlags, SyncDocument, WritePlan, Mirrored, HoldsLegacy, InStep, ReadPlan, Completed, Replaces;
    hide AbsorbedStrategies, AbsorbedUsecases, MirroredStrategies, MirroredUsecases, CompleteDefaults, ActiveUsecaseOf;
    var first, plan := Normalize(data).value, ReadPlan(Normalize(data).value);
    PlanOfPass(data);
    PassMirrors(data);
    SyncedUnchanged(first);
    MirroredPlanOf(first);
    if MirroredPlan(first).Some? {
      MirroredPlanReplaces(first);
      PlanReadsBack(first, MirroredPlan(first).value);
    }
    DefaultsOfPass(data);
    PassRewritten(data);
  }

  /** The defaults of a passed document are complete. */
  lemma DefaultsOfPass(data: Section)
    requires Normalize(data).Some?
    ensures var first := Normalize(data).value; var plan := ReadPlan(first);
      CompleteDefaults(plan.defaults, ActiveUsecaseOf(first), plan.usecases) == plan.defaults
  {
    hide SyncDocument, WritePlan, ReadPlan, MirroredPlan, CompleteDefaults, ActiveUsecaseOf, TextAt, SectionOf;
    var first := Normalize(data).value;
    var plan := ReadPlan(first);
    FirstPlanCompleted(SyncDocument(data));
    var defaults :| plan.defaults == CompleteDefaults(defaults, ActiveUsecaseOf(first), plan.usecases);
    DefaultsSettle(defaults, ActiveUsecaseOf(first), plan.usecases, plan.usecases);
  }

  /** Writing the plan of a passed document once more changes nothing. */
  lemma PassRewritten(data: Section)
    requires Normalize(data).Some?
    ensures var first := Normalize(data).value; WritePlan(first, ReadPlan(first)) == first
  {
    hide SyncDocument, WritePlan, ReadPlan, MirroredPlan, Mirrored, HoldsLegacy, Replaces;
    MirroredPlanReplaces(SyncDocument(data));
    PlanReadsBack(SyncDocument(data), MirroredPlan(SyncDocument(data)).value);
  }

  lemma MirroredStrategiesSameIff(strategies: Sections)
    ensures MirroredStrategies(strategies) == Some(strategies) <==>
      forall key :: key in strategies ==> StrategySettled(strategies[key])
  {
    hide StrategyUpdate, MirroredStrategies, MergeSections, StrategySettled;
    MirroredIffUpdates(strategies);
    forall key | key in strategies
      ensures StrategySettled(strategies[key]) <==>
        && StrategyUpdate(strategies[key]).Some?
        && MergeSections(strategies[key], StrategyUpdate(strategies[key]).value) == strategies[key]
    {
      StrategyUnchangedIff(strategies[key]);
    }
    if MirroredStrategies(strategies).Some? {
      forall key | key in strategies
        ensures key in MirroredStrategies(strategies).value
        ensures MirroredStrategies(strategies).value[key]
          == MergeSections(strategies[key], StrategyUpdate(strategies[key]).value)
      {
        MirroredStrategyAt(strategies, key);
      }
      MirroredStrategyAt(strategies, KeyOf(""));
      assert MirroredStrategies(strategies).value == strategies <==>
        forall key :: key in strategies ==> MirroredStrategies(strategies).value[key] == strategies[key];
    }
  }

  lemma MirroredUsecasesSameIff(usecases: Sections, strategies: Sections)
    ensures MirroredUsecases(usecases, strategies) == usecases <==>
      forall key :: key in usecases ==> UsecaseSettled(usecases[key], StrategyFor(usecases[key], strategies))
  {
    hide UsecaseUpdate, MirroredUsecases, MergeSections, UsecaseSettled, StrategyFor;
    var mirrored := MirroredUsecases(usecases, strategies);
    MirroredUsecaseAt(usecases, strategies, KeyOf(""));
    forall key | key in usecases
      ensures key in mirrored
      ensures UsecaseSettled(usecases[key], StrategyFor(usecases[key], strategies)) <==> mirrored[key] == usecases[key]
    {
      MirroredUsecaseAt(usecases, strategies, key);
      UsecaseUnchangedIff(usecases[key], StrategyFor(usecases[key], strategies));
    }
    assert mirrored == usecases <==> forall key :: key in usecases ==> mirrored[key] == usecases[key];
  }

  // ---------- documents that show the conditions matter ----------

  /** A document with one strategy, given by orchestration alone. */
  function OneStrategy(name: Key, strategy: Section): Section {
    Put(Empty(), Orchestration, Mapping(Put(Empty(), Strategies, MappingOf(map[name := strategy]))))
  }

  lemma OneStrategyReads(name: Key, strategy: Section)
    ensures var data := OneStrategy(name, strategy);
      && ReadPlan(data).strategies == map[name := strategy]
      && MappingsIn(At(data, Strategies)) == map[]
      && AbsorbedStrategies(data) == Some(map[name := strategy])
      && Normalize(data).Some?
  {
    hide Normalize, MappingsIn, At, ReadPlan, OneStrategy, AbsorbAll;
    var data := OneStrategy(name, strategy);
    OneStrategyPlan(name, strategy);
    assert StrategiesFromLegacy(map[]) == Some(map[]);
    AbsorbNothing(map[name := strategy]);
    PlanOfPass(data);
  }

  lemma OneStrategyPlan(name: Key, strategy: Section)
    ensures var data := OneStrategy(name, strategy);
      ReadPlan(data).strategies == map[name := strategy] && MappingsIn(At(data, Strategies)) == map[]
  {
    hide Put, MappingOf, Entry;
    MappingsInMappingOf(map[name := strategy]);
    assert Entry(OneStrategy(name, strategy), Strategies) == None;
  }

  /** One pass is not always enough: a strategy without a flag or a type gets them only in its legacy form at first,
      and the second pass copies them back. */
  lemma OnePassIsNotEnough(name: Key, strategy: Section)
    requires !StrategySettled(strategy)
    ensures var data := OneStrategy(name, strategy);
      Normalize(data).Some? && Normalize(Normalize(data).value) != Normalize(data)
  {
    hide OneStrategy, Normalize, StrategySettled, AbsorbedStrategies, AbsorbedUsecases, ReadPlan, MappingsIn, At;
    OneStrategyReads(name, strategy);
    OnePassSufficesIff(OneStrategy(name, strategy));
    assert name in map[name := strategy];
  }

  /** The second pass can raise where the first does not: on any strategy of orchestration with an unknown type. */
  lemma SecondPassCanRaise(name: Key, text: string)
    requires NormalizeStrategyType(text).None?
    ensures var data := OneStrategy(name, Put(Empty(), Type, Str(text)));
      Normalize(data).Some? && Normalize(Normalize(data).value).None?
  {
    hide OneStrategy, Normalize, NormalizeStrategyType, AbsorbedStrategies, ReadPlan, MappingsIn, Entry, Put;
    var strategy := Put(Empty(), Type, Str(text));
    var data := OneStrategy(name, strategy);
    OneStrategyReads(name, strategy);
    SecondPassSucceedsIff(data);
    NoTypeKnown();
    assert !TypeKnown(strategy);
    assert !TypeSettled(data, name);
  }

  lemma BlankTypeUnknown()
    ensures NormalizeStrategyType("").None?
  {
    assert Strip("") == "" && Lower("") == "";
  }

  /** A blank type is such a type. */
  lemma BlankTypeRaises(name: Key)
    ensures var data := OneStrategy(name, Put(Empty(), Type, Str("")));
      Normalize(data).Some? && Normalize(Normalize(data).value).None?
  {
    hide OneStrategy, Normalize, NormalizeStrategyType, Put;
    BlankTypeUnknown();
    SecondPassCanRaise(name, "");
  }

  // ---------- the loops ----------

  /** Absorbing one more update is one more merge. */
  lemma AbsorbOneMore(current: Sections, done: Sections, key: Key, update: Section)
    requires key !in done
    ensures SectionOf(AbsorbAll(current, done), key) == SectionOf(current, key)
    ensures AbsorbAll(current, done[key := update])
      == AbsorbAll(current, done)[key := MergeSections(SectionOf(current, key), update)]
  {
    hide MergeSections;
  }

  lemma AbsorbNothing(current: Sections)
    ensures AbsorbAll(current, map[]) == current
  {
    hide MergeSections;
  }

  /** Merges the translated legacy strategies in, one by one; the first unknown type raises. */
  method AbsorbStrategies(current: Sections, legacy: Sections) returns (absorbed: Option<Sections>)
    ensures StrategiesFromLegacy(legacy).None? ==> absorbed == None
    ensures StrategiesFromLegacy(legacy).Some? ==>
      absorbed == Some(AbsorbAll(current, StrategiesFromLegacy(legacy).value))
  {
    hide MergeSections, StrategyFromLegacy, AbsorbAll;
    var strategies := current;
    var rest := legacy.Keys;
    ghost var done: Sections := map[];
    AbsorbNothing(current);
    while rest != {}
      invariant rest <= legacy.Keys && done.Keys == legacy.Keys - rest
      invariant forall key :: key in done ==> StrategyFromLegacy(legacy[key]) == Some(done[key])
      invariant strategies == AbsorbAll(current, done)
      decreases |rest|
    {
      var key :| key in rest;
      var update := StrategyFromLegacy(legacy[key]);
      if update.None? {
        return None;
      }
      AbsorbOneMore(current, done, key, update.value);
      var merged := MergeMappings(SectionOf(strategies, key), update.value);
      strategies := strategies[key := merged];
      done := done[key := update.value];
      rest := rest - {key};
    }
    assert done == StrategiesFromLegacy(legacy).value;
    return Some(strategies);
  }

  /** Merges the translated legacy use cases in, one by one. */
  method AbsorbUsecases(current: Sections, legacy: Sections) returns (usecases: Sections)
    ensures usecases == AbsorbAll(current, UsecasesFromLegacy(legacy))
  {
    hide MergeSections, UsecaseFromLegacy, AbsorbAll;
    usecases := current;
    var rest := legacy.Keys;
    ghost var done: Sections := map[];
    AbsorbNothing(current);
    while rest != {}
      invariant rest <= legacy.Keys && done.Keys == legacy.Keys - rest
      invariant forall key :: key in done ==> UsecaseFromLegacy(legacy[key]) == done[key]
      invariant usecases == AbsorbAll(current, done)
      decreases |rest|
    {
      var key :| key in rest;
      var update := UsecaseFromLegacy(legacy[key]);
      AbsorbOneMore(current, done, key, update);
      var merged := MergeMappings(SectionOf(usecases, key), update);
      usecases := usecases[key := merged];
      done := done[key := update];
      rest := rest - {key};
    }
    assert done == UsecasesFromLegacy(legacy);
  }

  /** The validator itself: one pass over a copy of the document, section by section. */
  method NormalizeCompatibilitySources(value: Section) returns (normalized: Option<Section>)
    ensures normalized == Normalize(value)
  {
    hide Entry, Put, WriteFlags, WritePlan, AbsorbAll, MappingsIn, HasNonBlank, CompleteDefaults, ActiveUsecaseOf;
    hide StrategiesFromLegacy, UsecasesFromLegacy, SectionAt, StoreAt, ReadPlan, FillFrom, CopyTo;
    var memory, tooling, features := SectionAt(value, Memory), SectionAt(value, Tooling), SectionAt(value, Features);
    var store := StoreAt(value);
    var data := value;

    memory := FillFrom(memory, Enabled, features, MemoryEnabled);
    tooling := FillFrom(tooling, Enabled, features, ToolsEnabled);
    if Entry(memory, Provider).None? && HasNonBlank(At(store, Provider)) {
      memory := Put(memory, Provider, At(store, Provider));
    }
    memory := FillFrom(memory, Required, store, Required);
    features := CopyTo(features, MemoryEnabled, memory, Enabled);
    features := CopyTo(features, ToolsEnabled, tooling, Enabled);
    store := CopyTo(store, Provider, memory, Provider);
    store := CopyTo(store, Required, memory, Required);
    data := WriteFlags(data, Flags(memory, tooling, features, store));

    var before := ReadPlan(data);
    var strategies := AbsorbStrategies(before.strategies, MappingsIn(At(data, Strategies)));
    if strategies.None? {
      return None;
    }
    var usecases := AbsorbUsecases(before.usecases, MappingsIn(At(data, Usecases)));
    var defaults := CompleteDefaults(before.defaults, ActiveUsecaseOf(data), usecases);
    return Some(WritePlan(data, Plan(defaults, strategies.value, usecases)));
  }
}
