/** A load run: every tool directory in turn becomes a loaded, disabled or failed tool, or ends the run. */
module McpLoader {
  import opened Values
  import opened McpRegistry

  datatype LoadError = ConfigurationError | ManifestError | PluginError(duplicateName: bool) | OtherError

  /** What reading the manifest of a directory gives.  A readable one names the directory. */
  datatype ManifestFile = Missing | Unreadable(error: LoadError) | Readable(required: bool, toolNames: seq<string>)

  /** What becomes of a tool once its names are accepted: configuration, import, validation, registration. */
  datatype Attempt = Succeeds(health: PluginHealth) | Fails(error: LoadError)

  datatype ToolDir = ToolDir(name: string, manifest: ManifestFile, attempt: Attempt)

  datatype ToolSettings = ToolSettings(enabled: bool, required: bool)

  datatype Settings = Settings(
    tools: map<string, ToolSettings>,
    defaultToolEnabled: bool, requireToolManifest: bool, failOnOptionalToolError: bool)

  predicate Enabled(settings: Settings, name: string) {
    if name in settings.tools then settings.tools[name].enabled else settings.defaultToolEnabled
  }

  predicate Required(settings: Settings, name: string, manifestRequired: bool) {
    if name in settings.tools then settings.tools[name].required else manifestRequired
  }

  /** The manifest with the required flag the settings ask for. */
  function Resolved(settings: Settings, dir: ToolDir): Manifest
    requires dir.manifest.Readable?
  {
    Manifest(dir.name, Required(settings, dir.name, dir.manifest.required), dir.manifest.toolNames)
  }

  /** Whether a load error ends the run after it has been recorded. */
  predicate Fatal(settings: Settings, error: LoadError, required: bool) {
    || error.ConfigurationError?
    || error.ManifestError?
    || (error.PluginError? && error.duplicateName)
    || required
    || settings.failOnOptionalToolError
  }

  /** The registry after a step, and the error that ended the run, if one did. */
  datatype Outcome = Outcome(registry: State, raised: Option<LoadError>)

  function HandleError(settings: Settings, registry: State, call: Call, error: LoadError, required: bool): Outcome {
    Outcome(After(registry, call), if Fatal(settings, error, required) then Some(error) else None)
  }

  function LoadDir(settings: Settings, registry: State, dir: ToolDir): Outcome {
    var hint := Required(settings, dir.name, false);
    if !Enabled(settings, dir.name) then
      Outcome(
        if dir.manifest.Readable? then After(registry, RegisterDisabled(Resolved(settings, dir))) else registry, None)
    else
      match dir.manifest
      case Missing =>
        if settings.requireToolManifest
        then HandleError(settings, registry, RegisterFailedName(dir.name, hint), ConfigurationError, hint)
        else Outcome(registry, None)
      case Unreadable(error) => HandleError(settings, registry, RegisterFailedName(dir.name, hint), error, hint)
      case Readable(_, toolNames) =>
        var manifest := Resolved(settings, dir);
        if !Available(registry.owners, toolNames, dir.name) then
          HandleError(settings, registry, RegisterFailed(manifest), PluginError(true), manifest.required)
        else if dir.attempt.Fails? then
          HandleError(settings, registry, RegisterFailed(manifest), dir.attempt.error, manifest.required)
        else
          Outcome(After(registry, RegisterPlugin(manifest, dir.attempt.health)), None)
  }

  /** The directories are loaded in order, until one ends the run. */
  function LoadAll(settings: Settings, registry: State, dirs: seq<ToolDir>): Outcome {
    if dirs == [] then Outcome(registry, None)
    else
      var before := LoadAll(settings, registry, dirs[..|dirs| - 1]);
      if before.raised.Some? then before else LoadDir(settings, before.registry, dirs[|dirs| - 1])
  }

  lemma OneMoreDir(settings: Settings, registry: State, dirs: seq<ToolDir>, dir: ToolDir)
    ensures LoadAll(settings, registry, dirs + [dir]) ==
      var before := LoadAll(settings, registry, dirs);
      if before.raised.Some? then before else LoadDir(settings, before.registry, dir)
  {
    assert (dirs + [dir])[..|dirs|] == dirs;
  }

  // ---------- what a finished run keeps ----------

  /** A directory that does not end the run keeps ownership and all earlier entries. */
  lemma DirKeepsOwned(settings: Settings, registry: State, dir: ToolDir)
    requires Owned(registry) && LoadDir(settings, registry, dir).raised.None?
    ensures var after := LoadDir(settings, registry, dir).registry;
      && Owned(after)
      && forall n :: n in registry.owners ==> n in after.owners && after.owners[n] == registry.owners[n]
  {
    hide Owned, LoadDir, FatalAlone, Claims, Available;
    DirStep(settings, registry, dir);
    AvailableDirKeepsOwned(settings, registry, dir);
  }

  /** So does one that ends the run for another reason than a name of another tool. */
  lemma AvailableDirKeepsOwned(settings: Settings, registry: State, dir: ToolDir)
    requires Owned(registry) && Available(registry.owners, Claims(settings, dir), dir.name)
    ensures var after := LoadDir(settings, registry, dir).registry;
      && Owned(after)
      && forall n :: n in registry.owners ==> n in after.owners && after.owners[n] == registry.owners[n]
  {
    hide Owned, After;
    AvailableKeepsOwned(registry, RegisterFailedName(dir.name, Required(settings, dir.name, false)));
    if dir.manifest.Readable? {
      var manifest := Resolved(settings, dir);
      AvailableKeepsOwned(registry, RegisterDisabled(manifest));
      if Enabled(settings, dir.name) {
        AvailableKeepsOwned(registry, RegisterFailed(manifest));
        if dir.attempt.Succeeds? {
          AvailableKeepsOwned(registry, RegisterPlugin(manifest, dir.attempt.health));
        }
      }
    }
  }

  /** After every run that finishes, each loaded or failed tool owns all its names, and no ownership entry that was
      ever written has changed. */
  lemma {:induction false} FinishedRunKeepsOwned(settings: Settings, registry: State, dirs: seq<ToolDir>)
    requires Owned(registry) && LoadAll(settings, registry, dirs).raised.None?
    ensures var after := LoadAll(settings, registry, dirs).registry;
      && Owned(after)
      && forall n :: n in registry.owners ==> n in after.owners && after.owners[n] == registry.owners[n]
  {
    hide Owned, LoadDir;
    if dirs != [] {
      FinishedRunKeepsOwned(settings, registry, dirs[..|dirs| - 1]);
      DirKeepsOwned(settings, LoadAll(settings, registry, dirs[..|dirs| - 1]).registry, dirs[|dirs| - 1]);
    }
  }

  ghost predicate NoRequiredFailed(registry: State) {
    forall k :: k in registry.tools ==> !(registry.tools[k].required && registry.tools[k].status.Failed?)
  }

  /** After every run that finishes, no tool is both required and failed. */
  lemma {:induction false} FinishedRunFailsNoRequired(settings: Settings, registry: State, dirs: seq<ToolDir>)
    requires NoRequiredFailed(registry) && LoadAll(settings, registry, dirs).raised.None?
    ensures NoRequiredFailed(LoadAll(settings, registry, dirs).registry)
  {
    hide Available, Claim;
    if dirs != [] {
      FinishedRunFailsNoRequired(settings, registry, dirs[..|dirs| - 1]);
    }
  }

  // ---------- what a finished run records ----------

  /** What a directory leaves on record by itself: nothing, or a tool. */
  function Record(settings: Settings, dir: ToolDir): Option<Tool> {
    var hint := Required(settings, dir.name, false);
    match dir.manifest
    case Readable(_, _) =>
      var manifest := Resolved(settings, dir);
      Some(
        if !Enabled(settings, dir.name) then Built(manifest, Disabled, Off)
        else if dir.attempt.Fails? then Built(manifest, Failed, Faulty)
        else Built(manifest, Loaded, dir.attempt.health))
    case Unreadable(_) => if Enabled(settings, dir.name) then Some(Unnamed(dir.name, hint)) else None
    case Missing =>
      if Enabled(settings, dir.name) && settings.requireToolManifest then Some(Unnamed(dir.name, hint)) else None
  }

  /** The names a directory claims. */
  function Claims(settings: Settings, dir: ToolDir): seq<string> {
    if dir.manifest.Readable? && Enabled(settings, dir.name) then dir.manifest.toolNames else []
  }

  /** A directory that would end any run it is part of. */
  predicate FatalAlone(settings: Settings, dir: ToolDir) {
    && Enabled(settings, dir.name)
    && match dir.manifest
       case Missing => settings.requireToolManifest
       case Unreadable(error) => Fatal(settings, error, Required(settings, dir.name, false))
       case Readable(required, _) =>
         dir.attempt.Fails? && Fatal(settings, dir.attempt.error, Required(settings, dir.name, required))
  }

  /** One directory ends the run exactly when it is fatal by itself or claims a name of another tool; otherwise its
      tool is recorded and its claims are added, and nothing else changes. */
  lemma DirStep(settings: Settings, registry: State, dir: ToolDir)
    ensures var outcome := LoadDir(settings, registry, dir);
      && (outcome.raised.None? <==>
            !FatalAlone(settings, dir) && Available(registry.owners, Claims(settings, dir), dir.name))
      && (outcome.raised.None? ==>
            && outcome.registry.owners == Claim(registry.owners, Claims(settings, dir), dir.name)
            && outcome.registry.tools ==
               if Record(settings, dir).Some? then registry.tools[dir.name := Record(settings, dir).value]
               else registry.tools)
  {
    ClaimNothing(registry.owners, dir.name);
  }

  lemma ClaimNothing(owners: map<string, string>, owner: string)
    ensures Claim(owners, [], owner) == owners
  {
  }

  /** No name is claimed by two different directories, or by a directory while a tool of another name owns it. */
  ghost predicate Disjoint(settings: Settings, owners: map<string, string>, dirs: seq<ToolDir>) {
    && (forall i :: 0 <= i < |dirs| ==> Available(owners, Claims(settings, dirs[i]), dirs[i].name))
    && (forall i, j, n :: 0 <= i < j < |dirs| && n in Claims(settings, dirs[i]) && n in Claims(settings, dirs[j]) ==>
          dirs[i].name == dirs[j].name)
  }

  /** What a finished run leaves in the map of tools. */
  ghost predicate ToolsRecorded(
    settings: Settings, before: map<string, Tool>, dirs: seq<ToolDir>, after: map<string, Tool>)
  {
    && before.Keys <= after.Keys
    && (forall i :: 0 <= i < |dirs| && Record(settings, dirs[i]).Some? ==>
          dirs[i].name in after && after[dirs[i].name] == Record(settings, dirs[i]).value)
    && (forall k :: k in after ==>
          || (k in before && after[k] == before[k])
          || exists i :: 0 <= i < |dirs| && dirs[i].name == k && Record(settings, dirs[i]).Some?)
  }

  /** What a finished run leaves in the map of owners. */
  ghost predicate ClaimsRecorded(
    settings: Settings, before: map<string, string>, dirs: seq<ToolDir>, after: map<string, string>)
  {
    && (forall n :: n in before ==> n in after && after[n] == before[n])
    && (forall i, n :: 0 <= i < |dirs| && n in Claims(settings, dirs[i]) ==> n in after && after[n] == dirs[i].name)
    && (forall n :: n in after ==>
          n in before || exists i :: 0 <= i < |dirs| && n in Claims(settings, dirs[i]))
  }

  ghost predicate DistinctNames(dirs: seq<ToolDir>) {
    forall i, j :: 0 <= i < j < |dirs| ==> dirs[i].name != dirs[j].name
  }

  lemma OneMoreTool(
    settings: Settings, before: map<string, Tool>, dirs: seq<ToolDir>, dir: ToolDir, middle: map<string, Tool>)
    requires DistinctNames(dirs + [dir]) && ToolsRecorded(settings, before, dirs, middle)
    ensures ToolsRecorded(
      settings, before, dirs + [dir],
      if Record(settings, dir).Some? then middle[dir.name := Record(settings, dir).value] else middle)
  {
    hide Record;
    var all := dirs + [dir];
    assert forall i :: 0 <= i < |dirs| ==> all[i] == dirs[i];
    assert all[|dirs|] == dir;
  }

  lemma OneMoreClaim(
    settings: Settings, before: map<string, string>, dirs: seq<ToolDir>, dir: ToolDir, middle: map<string, string>)
    requires ClaimsRecorded(settings, before, dirs, middle)
    requires Available(middle, Claims(settings, dir), dir.name)
    ensures ClaimsRecorded(settings, before, dirs + [dir], Claim(middle, Claims(settings, dir), dir.name))
  {
    hide Claims;
    var all := dirs + [dir];
    assert forall i :: 0 <= i < |dirs| ==> all[i] == dirs[i];
    assert all[|dirs|] == dir;
  }

  /** The names of one more directory are disjoint from all others exactly when they are available by then. */
  lemma DisjointStep(
    settings: Settings, before: map<string, string>, dirs: seq<ToolDir>, dir: ToolDir, middle: map<string, string>)
    requires ClaimsRecorded(settings, before, dirs, middle)
    ensures Disjoint(settings, before, dirs + [dir]) <==>
      Disjoint(settings, before, dirs) && Available(middle, Claims(settings, dir), dir.name)
  {
    hide Claims;
    var all := dirs + [dir];
    assert forall i :: 0 <= i < |dirs| ==> all[i] == dirs[i];
    assert all[|dirs|] == dir;
  }

  ghost predicate NoneFatal(settings: Settings, dirs: seq<ToolDir>) {
    forall i :: 0 <= i < |dirs| ==> !FatalAlone(settings, dirs[i])
  }

  /** A run finishes exactly when no directory is fatal by itself and the names claimed are disjoint; it then leaves
      on record, for every directory, the tool and the names that the directory stands for by itself. */
  lemma {:induction false} FinishingRun(settings: Settings, registry: State, dirs: seq<ToolDir>)
    requires DistinctNames(dirs)
    ensures LoadAll(settings, registry, dirs).raised.None? <==>
      NoneFatal(settings, dirs) && Disjoint(settings, registry.owners, dirs)
    ensures LoadAll(settings, registry, dirs).raised.None? ==>
      && ToolsRecorded(settings, registry.tools, dirs, LoadAll(settings, registry, dirs).registry.tools)
      && ClaimsRecorded(settings, registry.owners, dirs, LoadAll(settings, registry, dirs).registry.owners)
  {
    if dirs != [] {
      hide FatalAlone, LoadDir, Claims, Record, Claim, Available, ToolsRecorded, ClaimsRecorded, Disjoint;
      var earlier, dir := dirs[..|dirs| - 1], dirs[|dirs| - 1];
      assert dirs == earlier + [dir];
      FinishingRun(settings, registry, earlier);
      var middle := LoadAll(settings, registry, earlier);
      DirStep(settings, middle.registry, dir);
      if middle.raised.None? {
        DisjointStep(settings, registry.owners, earlier, dir, middle.registry.owners);
        OneMoreTool(settings, registry.tools, earlier, dir, middle.registry.tools);
        if Available(middle.registry.owners, Claims(settings, dir), dir.name) {
          OneMoreClaim(settings, registry.owners, earlier, dir, middle.registry.owners);
        }
      } else {
        assert NoneFatal(settings, dirs) ==> NoneFatal(settings, earlier);
        if Disjoint(settings, registry.owners, dirs) {
          DisjointBefore(settings, registry.owners, earlier, dir);
        }
      }
    }
  }

  lemma DisjointBefore(settings: Settings, owners: map<string, string>, dirs: seq<ToolDir>, dir: ToolDir)
    requires Disjoint(settings, owners, dirs + [dir])
    ensures Disjoint(settings, owners, dirs)
  {
    hide Claims;
    var all := dirs + [dir];
    assert forall i :: 0 <= i < |dirs| ==> all[i] == dirs[i];
  }

  // ---------- the flags, told from the settings and the manifests ----------

  /** A directory is fatal by itself exactly when it is enabled, by its own settings or else by the default, and lacks
      a manifest that is asked for, or fails with an error that always counts, or fails while it is required, by its
      own settings or else by its manifest, or while optional failures count. */
  lemma FatalAloneIff(settings: Settings, dir: ToolDir)
    ensures var own := dir.name in settings.tools;
      FatalAlone(settings, dir) <==>
      && (if own then settings.tools[dir.name].enabled else settings.defaultToolEnabled)
      && match dir.manifest
         case Missing => settings.requireToolManifest
         case Unreadable(error) =>
           || error in {ConfigurationError, ManifestError, PluginError(true)}
           || (own && settings.tools[dir.name].required)
           || settings.failOnOptionalToolError
         case Readable(required, _) =>
           && dir.attempt.Fails?
           && (|| dir.attempt.error in {ConfigurationError, ManifestError, PluginError(true)}
               || (if own then settings.tools[dir.name].required else required)
               || settings.failOnOptionalToolError)
  {
  }

  /** What is on record about a directory after a run that finishes: whether there is anything, and each flag. */
  lemma RunRecords(settings: Settings, dirs: seq<ToolDir>, i: nat)
    requires DistinctNames(dirs) && i < |dirs| && LoadAll(settings, EMPTY, dirs).raised.None?
    ensures var dir, tools := dirs[i], LoadAll(settings, EMPTY, dirs).registry.tools;
      var own, readable := dir.name in settings.tools, dir.manifest.Readable?;
      var enabled := if own then settings.tools[dir.name].enabled else settings.defaultToolEnabled;
      && (dir.name in tools <==> readable || (enabled && (dir.manifest.Unreadable? || settings.requireToolManifest)))
      && (dir.name in tools ==>
            var tool := tools[dir.name];
            && tool.name == dir.name
            && tool.enabled == enabled
            && tool.required == (if own then settings.tools[dir.name].required else readable && dir.manifest.required)
            && tool.toolNames == (if readable then dir.manifest.toolNames else [])
            && tool.status ==
               (if !enabled then Disabled else if readable && dir.attempt.Succeeds? then Loaded else Failed)
            && tool.health ==
               (if !enabled then Off else if readable && dir.attempt.Succeeds? then dir.attempt.health else Faulty))
  {
    hide LoadAll, Disjoint, NoneFatal, ClaimsRecorded;
    FinishingRun(settings, EMPTY, dirs);
    RecordMeans(settings, dirs[i]);
    hide Record;
  }

  lemma RecordMeans(settings: Settings, dir: ToolDir)
    ensures var own, readable, record := dir.name in settings.tools, dir.manifest.Readable?, Record(settings, dir);
      var enabled := if own then settings.tools[dir.name].enabled else settings.defaultToolEnabled;
      && (record.Some? <==> readable || (enabled && (dir.manifest.Unreadable? || settings.requireToolManifest)))
      && (record.Some? ==>
            var tool := record.value;
            && tool.name == dir.name
            && tool.enabled == enabled
            && tool.required == (if own then settings.tools[dir.name].required else readable && dir.manifest.required)
            && tool.toolNames == (if readable then dir.manifest.toolNames else [])
            && tool.status ==
               (if !enabled then Disabled else if readable && dir.attempt.Succeeds? then Loaded else Failed)
            && tool.health ==
               (if !enabled then Off else if readable && dir.attempt.Succeeds? then dir.attempt.health else Faulty))
  {
  }

  /** A run does not finish when a directory with a manifest is enabled and required, by its own settings or else by
      the default and the manifest, and its tool fails. */
  lemma RequiredFailureEndsRun(settings: Settings, dirs: seq<ToolDir>, i: nat)
    requires DistinctNames(dirs) && i < |dirs| && dirs[i].manifest.Readable? && dirs[i].attempt.Fails?
    requires var name := dirs[i].name;
      if name in settings.tools then settings.tools[name].enabled && settings.tools[name].required
      else settings.defaultToolEnabled && dirs[i].manifest.required
    ensures LoadAll(settings, EMPTY, dirs).raised.Some?
  {
    hide LoadAll, Disjoint, ToolsRecorded, ClaimsRecorded, FatalAlone, DistinctNames;
    FatalAloneIff(settings, dirs[i]);
    FinishingRun(settings, EMPTY, dirs);
  }

  // ---------- when ownership survives a run ----------

  /** The directories up to and including the first that is fatal by itself. */
  ghost function Reached(settings: Settings, dirs: seq<ToolDir>): (reached: seq<ToolDir>)
    ensures reached <= dirs
  {
    if dirs == [] || NoneFatal(settings, dirs[..|dirs| - 1]) then dirs else Reached(settings, dirs[..|dirs| - 1])
  }

  /** Every owned name belongs to a loaded or failed tool that lists it. */
  ghost predicate Backed(registry: State) {
    forall n :: n in registry.owners ==>
      var k := registry.owners[n];
      k in registry.tools && Live(registry.tools[k]) && n in registry.tools[k].toolNames
  }

  /** Ownership survives a run exactly when, up to the first directory that is fatal by itself, no two directories
      claim the same name: a run that ends for any other reason than such a clash keeps it too. */
  lemma {:induction false} OwnedIffDisjoint(settings: Settings, dirs: seq<ToolDir>)
    requires DistinctNames(dirs)
    ensures Owned(LoadAll(settings, EMPTY, dirs).registry) <==> Disjoint(settings, map[], Reached(settings, dirs))
  {
    if dirs == [] {
      assert Owned(EMPTY);
    } else {
      hide Owned, FatalAlone, NoneFatal, LoadDir, Claims, Record, Claim, Available, ToolsRecorded, ClaimsRecorded;
      hide Disjoint, DistinctNames, Backed;
      var earlier, dir := dirs[..|dirs| - 1], dirs[|dirs| - 1];
      assert dirs == earlier + [dir];
      DistinctBefore(earlier, dir);
      FinishingRun(settings, EMPTY, earlier);
      var middle := LoadAll(settings, EMPTY, earlier);
      if middle.raised.None? {
        OwnedEmpty();
        FinishedRunKeepsOwned(settings, EMPTY, earlier);
        FinishedRunIsBacked(settings, earlier, dir);
        LastDirKeepsOwnedIff(settings, middle.registry, dir);
        DisjointStep(settings, map[], earlier, dir, middle.registry.owners);
      } else {
        OwnedIffDisjoint(settings, earlier);
        if NoneFatal(settings, earlier) {
          ReachedAll(settings, earlier);
          if Disjoint(settings, map[], dirs) {
            DisjointBefore(settings, map[], earlier, dir);
          }
        }
      }
    }
  }

  lemma OwnedEmpty()
    ensures Owned(EMPTY)
  {
  }

  lemma DistinctBefore(dirs: seq<ToolDir>, dir: ToolDir)
    requires DistinctNames(dirs + [dir])
    ensures DistinctNames(dirs)
    ensures forall i :: 0 <= i < |dirs| ==> dirs[i].name != dir.name
  {
    var all := dirs + [dir];
    assert all[|dirs|] == dir;
    assert forall i :: 0 <= i < |dirs| ==> all[i] == dirs[i];
  }

  lemma DistinctPrefix(dirs: seq<ToolDir>, j: nat)
    requires DistinctNames(dirs) && j < |dirs|
    ensures DistinctNames(dirs[..j])
    ensures forall i :: 0 <= i < j ==> dirs[i].name != dirs[j].name
  {
  }

  lemma ReachedAll(settings: Settings, dirs: seq<ToolDir>)
    requires NoneFatal(settings, dirs)
    ensures Reached(settings, dirs) == dirs
  {
  }

  /** What a directory claims, its tool lists. */
  lemma ClaimedIsListed(settings: Settings, dir: ToolDir, n: string)
    requires n in Claims(settings, dir)
    ensures var tool := Record(settings, dir);
      tool.Some? && Live(tool.value) && n in tool.value.toolNames
  {
  }

  /** After a finished run a claimed name belongs to the tool on record for its directory. */
  lemma ClaimIsBacked(settings: Settings, dirs: seq<ToolDir>, i: nat, n: string)
    requires DistinctNames(dirs) && LoadAll(settings, EMPTY, dirs).raised.None?
    requires i < |dirs| && n in Claims(settings, dirs[i])
    ensures var after, k := LoadAll(settings, EMPTY, dirs).registry, dirs[i].name;
      && n in after.owners && after.owners[n] == k
      && k in after.tools && Record(settings, dirs[i]) == Some(after.tools[k])
      && Live(after.tools[k]) && n in after.tools[k].toolNames
  {
    hide LoadAll, DistinctNames, Disjoint, NoneFatal, Claims, Record, Live;
    FinishingRun(settings, EMPTY, dirs);
    ClaimedIsListed(settings, dirs[i], n);
  }

  lemma FinishedRunIsBacked(settings: Settings, dirs: seq<ToolDir>, next: ToolDir)
    requires DistinctNames(dirs) && LoadAll(settings, EMPTY, dirs).raised.None?
    requires forall i :: 0 <= i < |dirs| ==> dirs[i].name != next.name
    ensures Backed(LoadAll(settings, EMPTY, dirs).registry)
    ensures next.name !in LoadAll(settings, EMPTY, dirs).registry.tools
  {
    hide LoadAll, DistinctNames, Disjoint, NoneFatal, Claims, Record, Live;
    FinishingRun(settings, EMPTY, dirs);
    var after := LoadAll(settings, EMPTY, dirs).registry;
    forall n | n in after.owners
      ensures var k := after.owners[n];
        k in after.tools && Live(after.tools[k]) && n in after.tools[k].toolNames
    {
      var i :| 0 <= i < |dirs| && n in Claims(settings, dirs[i]);
      ClaimIsBacked(settings, dirs, i, n);
    }
  }

  /** A directory of a new name keeps ownership exactly when its names are available. */
  lemma LastDirKeepsOwnedIff(settings: Settings, registry: State, dir: ToolDir)
    requires Owned(registry) && Backed(registry) && dir.name !in registry.tools
    ensures Owned(LoadDir(settings, registry, dir).registry) <==>
      Available(registry.owners, Claims(settings, dir), dir.name)
  {
    if Available(registry.owners, Claims(settings, dir), dir.name) {
      AvailableDirKeepsOwned(settings, registry, dir);
    } else {
      hide Owned;
      var n :| n in Claims(settings, dir) && n in registry.owners && registry.owners[n] != dir.name;
      ClashHandsOver(settings, registry, dir, n);
      Disowned(LoadDir(settings, registry, dir).registry, registry.owners[n], n);
    }
  }

  /** A directory that claims a name of another tool ends the run, and takes the name. */
  lemma ClashHandsOver(settings: Settings, registry: State, dir: ToolDir, n: string)
    requires n in Claims(settings, dir) && n in registry.owners && registry.owners[n] != dir.name
    ensures var outcome := LoadDir(settings, registry, dir);
      && outcome.raised == Some(PluginError(true))
      && n in outcome.registry.owners
      && outcome.registry.owners[n] == dir.name
      && forall k :: k in registry.tools && k != dir.name ==>
           k in outcome.registry.tools && outcome.registry.tools[k] == registry.tools[k]
  {
    assert !Available(registry.owners, Claims(settings, dir), dir.name);
  }

  lemma Disowned(registry: State, one: string, name: string)
    requires one in registry.tools && Live(registry.tools[one]) && name in registry.tools[one].toolNames
    requires name in registry.owners && registry.owners[name] != one
    ensures !Owned(registry)
  {
    assert !Owns(registry, one);
  }

  /** Every run that is ended by a duplicate name hands the name to the second directory, while the first is still on
      record as the loaded or failed tool it became. */
  lemma DuplicateHandsOver(settings: Settings, dirs: seq<ToolDir>, i: nat, j: nat, n: string)
    requires DistinctNames(dirs) && i < j < |dirs|
    requires NoneFatal(settings, dirs[..j]) && Disjoint(settings, map[], dirs[..j])
    requires n in Claims(settings, dirs[i]) && n in Claims(settings, dirs[j])
    ensures var outcome := LoadAll(settings, EMPTY, dirs); var one := dirs[i].name;
      && outcome.raised == Some(PluginError(true))
      && n in outcome.registry.owners
      && outcome.registry.owners[n] == dirs[j].name
      && one in outcome.registry.tools
      && Record(settings, dirs[i]) == Some(outcome.registry.tools[one])
      && Live(outcome.registry.tools[one])
      && n in outcome.registry.tools[one].toolNames
  {
    hide LoadAll, LoadDir, NoneFatal, Disjoint, DistinctNames, Claims, Record, Live, ToolsRecorded, ClaimsRecorded;
    var earlier := dirs[..j];
    DistinctPrefix(dirs, j);
    FinishingRun(settings, EMPTY, earlier);
    ClaimIsBacked(settings, earlier, i, n);
    var middle := LoadAll(settings, EMPTY, earlier).registry;
    ClashHandsOver(settings, middle, dirs[j], n);
    assert dirs[..j + 1] == earlier + [dirs[j]];
    OneMoreDir(settings, EMPTY, earlier, dirs[j]);
    RaisedStays(settings, EMPTY, dirs, j + 1);
  }

  /** A directory with a working plugin that provides one function. */
  function Provider(dirName: string, toolName: string, health: PluginHealth): ToolDir {
    ToolDir(dirName, Readable(false, [toolName]), Succeeds(health))
  }

  /** A run of two directories that provide the same function: the first is still on record as loaded, and no longer
      owns its name. */
  lemma AbortedRunLosesOwnership(one: string, other: string, name: string, health: PluginHealth)
    requires one != other
    ensures var dirs := [Provider(one, name, health), Provider(other, name, health)];
      var outcome := LoadAll(Settings(map[], true, true, false), EMPTY, dirs);
      && outcome.raised == Some(PluginError(true))
      && one in outcome.registry.tools
      && outcome.registry.tools[one] == Tool(one, false, true, Loaded, [name], health, None)
      && name in outcome.registry.owners
      && outcome.registry.owners[name] == other
      && !Owned(outcome.registry)
  {
    hide LoadAll, Owned;
    var settings := Settings(map[], true, true, false);
    var dirs := [Provider(one, name, health), Provider(other, name, health)];
    assert dirs[..1] == [dirs[0]];
    DuplicateHandsOver(settings, dirs, 0, 1, name);
    Disowned(LoadAll(settings, EMPTY, dirs).registry, one, name);
  }

  // ---------- the loader as an object ----------

  class ToolLoader {
    const settings: Settings

    constructor (settings: Settings)
      ensures this.settings == settings
    {
      this.settings := settings;
    }

    /** Records the failure, then lets the error pass or not. */
    method HandleLoadError(
      name: string, manifest: Option<Manifest>, required: bool, error: LoadError, registry: ToolRegistry)
      returns (raised: Option<LoadError>)
      modifies registry
      ensures Outcome(registry.Abstract(), raised) ==
        HandleError(settings, old(registry.Abstract()),
                    if manifest.Some? then RegisterFailed(manifest.value) else RegisterFailedName(name, required),
                    error, required)
    {
      if manifest.Some? {
        registry.RegisterFailed(manifest.value);
      } else {
        registry.RegisterFailedName(name, required);
      }
      raised := if Fatal(settings, error, required) then Some(error) else None;
    }

    method LoadToolDir(dir: ToolDir, registry: ToolRegistry) returns (raised: Option<LoadError>)
      modifies registry
      ensures Outcome(registry.Abstract(), raised) == LoadDir(settings, old(registry.Abstract()), dir)
    {
      hide HandleError, Claim, Available;
      raised := None;
      var enabled, hint := Enabled(settings, dir.name), Required(settings, dir.name, false);
      match dir.manifest {
        case Missing =>
          if settings.requireToolManifest && enabled {
            raised := HandleLoadError(dir.name, None, hint, ConfigurationError, registry);
          }
        case Unreadable(error) =>
          if enabled {
            raised := HandleLoadError(dir.name, None, hint, error, registry);
          }
        case Readable(_, _) =>
          var manifest := Resolved(settings, dir);
          if !enabled {
            registry.RegisterDisabled(manifest);
            return;
          }
          var duplicate := registry.FirstDuplicate(manifest.toolNames, manifest.name);
          if duplicate.Some? {
            raised := HandleLoadError(dir.name, Some(manifest), manifest.required, PluginError(true), registry);
          } else if dir.attempt.Fails? {
            raised := HandleLoadError(dir.name, Some(manifest), manifest.required, dir.attempt.error, registry);
          } else {
            duplicate := registry.RegisterPlugin(manifest, dir.attempt.health);
          }
      }
    }

    /** Loads the directories one after the other. */
    method LoadTools(dirs: seq<ToolDir>, registry: ToolRegistry) returns (raised: Option<LoadError>)
      modifies registry
      ensures Outcome(registry.Abstract(), raised) == LoadAll(settings, old(registry.Abstract()), dirs)
    {
      hide LoadDir;
      raised := None;
      for i := 0 to |dirs|
        invariant raised.None?
        invariant Outcome(registry.Abstract(), None) == LoadAll(settings, old(registry.Abstract()), dirs[..i])
      {
        assert dirs[..i + 1][..i] == dirs[..i];
        raised := LoadToolDir(dirs[i], registry);
        if raised.Some? {
          RaisedStays(settings, old(registry.Abstract()), dirs, i + 1);
          return;
        }
      }
      assert dirs[..|dirs|] == dirs;
    }
  }

  /** What ended a run is what the whole run ends with. */
  lemma {:induction false} RaisedStays(settings: Settings, registry: State, dirs: seq<ToolDir>, n: nat)
    requires n <= |dirs| && LoadAll(settings, registry, dirs[..n]).raised.Some?
    ensures LoadAll(settings, registry, dirs) == LoadAll(settings, registry, dirs[..n])
  {
    if n == |dirs| {
      assert dirs[..n] == dirs;
    } else {
      assert dirs[..|dirs| - 1][..n] == dirs[..n];
      RaisedStays(settings, registry, dirs[..|dirs| - 1], n);
    }
  }
}
