/** The health report of the MCP server, computed from its settings and its registry. */
module McpHealth {
  import opened Values
  import opened McpRegistry
  import McpLoader

  datatype Check = Good | Weak | Bad

  datatype AuthMode = NoAuth | Bearer | Jwt

  /** `websearch` is the enabled flag of the websearch settings, if there are any. */
  datatype HealthSettings = HealthSettings(websearch: Option<bool>, authEnabled: bool, authMode: AuthMode)

  const WEBSEARCH := "websearch"

  datatype Checks = Checks(
    processLiveness: Check, configLoaded: Check, registryLoaded: Check, requiredToolsLoaded: Check,
    optionalFailedTools: Check, securityModeValid: Check, websearchReadiness: Check)

  function RequiredToolsLoaded(registry: Option<State>): Check {
    if registry.None? then Bad
    else
      var tools := registry.value.tools;
      if exists k :: k in tools && tools[k].required && (!tools[k].status.Loaded? || tools[k].health.Faulty?) then Bad
      else if exists k :: k in tools && tools[k].required && tools[k].health.Degraded? then Weak
      else Good
  }

  function OptionalFailedTools(registry: Option<State>): Check {
    if registry.None? then Bad
    else
      var tools := registry.value.tools;
      if exists k :: k in tools && !tools[k].required && (tools[k].status.Failed? || IsUnhealthy(tools[k])) then Weak
      else Good
  }

  function WebsearchReadiness(settings: HealthSettings, registry: Option<State>): Check {
    if settings.websearch != Some(true) then Good
    else if registry.None? || WEBSEARCH !in registry.value.tools then Bad
    else
      var tool := registry.value.tools[WEBSEARCH];
      if !tool.status.Loaded? || tool.health.Faulty? then (if tool.required then Bad else Weak)
      else if tool.health.Degraded? then Weak
      else Good
  }

  predicate SecurityModeValid(settings: HealthSettings) {
    settings.authEnabled <==> !settings.authMode.NoAuth?
  }

  function GoodIf(holds: bool): Check {
    if holds then Good else Bad
  }

  function AllChecks(settings: HealthSettings, registry: Option<State>, configLoaded: bool): Checks {
    Checks(
      Good, GoodIf(configLoaded), GoodIf(registry.Some?), RequiredToolsLoaded(registry),
      OptionalFailedTools(registry), GoodIf(SecurityModeValid(settings)), WebsearchReadiness(settings, registry))
  }

  function CheckList(checks: Checks): seq<Check> {
    [checks.processLiveness, checks.configLoaded, checks.registryLoaded, checks.requiredToolsLoaded,
     checks.optionalFailedTools, checks.securityModeValid, checks.websearchReadiness]
  }

  function Status(checks: Checks): Check {
    if Bad in CheckList(checks) then Bad else if Weak in CheckList(checks) then Weak else Good
  }

  predicate Ready(checks: Checks) {
    && checks.processLiveness.Good?
    && checks.configLoaded.Good?
    && checks.registryLoaded.Good?
    && checks.requiredToolsLoaded.Good?
    && checks.securityModeValid.Good?
    && !checks.websearchReadiness.Bad?
  }

  /** The server is ready exactly when it is not unhealthy and no required tool is degraded. */
  lemma ReadyIff(settings: HealthSettings, registry: Option<State>, configLoaded: bool)
    ensures var checks := AllChecks(settings, registry, configLoaded);
      Ready(checks) <==> !Status(checks).Bad? && !checks.requiredToolsLoaded.Weak?
  {
    var checks := AllChecks(settings, registry, configLoaded);
    hide WebsearchReadiness, RequiredToolsLoaded;
    var all := CheckList(checks);
    assert all[0] == checks.processLiveness && all[1] == checks.configLoaded && all[2] == checks.registryLoaded;
    assert all[3] == checks.requiredToolsLoaded && all[4] == checks.optionalFailedTools;
    assert all[5] == checks.securityModeValid && all[6] == checks.websearchReadiness;
  }

  /** The overall status is the worst of all checks. */
  lemma StatusIsWorst(checks: Checks)
    ensures var all := {checks.processLiveness, checks.configLoaded, checks.registryLoaded, checks.requiredToolsLoaded,
                        checks.optionalFailedTools, checks.securityModeValid, checks.websearchReadiness};
      && (Status(checks).Bad? <==> Bad in all)
      && (Status(checks).Good? <==> all == {Good})
  {
    var list := CheckList(checks);
    assert list[0] == checks.processLiveness && list[1] == checks.configLoaded && list[2] == checks.registryLoaded;
    assert list[3] == checks.requiredToolsLoaded && list[4] == checks.optionalFailedTools;
    assert list[5] == checks.securityModeValid && list[6] == checks.websearchReadiness;
    assert forall check :: check in list <==> check in {list[0], list[1], list[2], list[3], list[4], list[5], list[6]};
  }

  /** The checks that are not about tools, flag by flag. */
  lemma PlainChecksMean(settings: HealthSettings, registry: Option<State>, configLoaded: bool)
    ensures var checks := AllChecks(settings, registry, configLoaded);
      && checks.processLiveness.Good?
      && checks.configLoaded == (if configLoaded then Good else Bad)
      && checks.registryLoaded == (if registry.Some? then Good else Bad)
      && (checks.securityModeValid.Good? <==> (settings.authEnabled <==> settings.authMode in {Bearer, Jwt}))
      && !checks.securityModeValid.Weak?
  {
  }

  ghost predicate InTrouble(tool: Tool) {
    tool.status == Failed || tool.health in {Degraded, Faulty}
  }

  /** The check of optional tools is never bad on a registry, and weak exactly when an optional tool has failed or
      reports that something is wrong. */
  lemma OptionalMeans(registry: State)
    ensures var check, tools := OptionalFailedTools(Some(registry)), registry.tools;
      && OptionalFailedTools(None).Bad?
      && !check.Bad?
      && (check.Weak? <==>
            exists k :: k in tools && !tools[k].required && InTrouble(tools[k]))
  {
  }

  /** Web search is bad when it is enabled and there is no tool for it, or a required one does not serve; weak when an
      optional one does not, or any is degraded; and good otherwise, above all when it is not enabled. */
  lemma WebsearchMeans(settings: HealthSettings, registry: State)
    ensures var check, tools := WebsearchReadiness(settings, Some(registry)), registry.tools;
      var wanted, there := settings.websearch == Some(true), "websearch" in tools;
      var broken := there && (tools["websearch"].status != Loaded || tools["websearch"].health == Faulty);
      && (check.Bad? <==> wanted && (!there || (broken && tools["websearch"].required)))
      && (check.Weak? <==>
            wanted && there
            && (if broken then !tools["websearch"].required else tools["websearch"].health == Degraded))
      && WebsearchReadiness(settings, None) == (if wanted then Bad else Good)
  {
  }

  // ---------- health after a load run ----------

  /** A directory whose tool is required; without a readable manifest nothing is on record to say so. */
  predicate IsRequired(settings: McpLoader.Settings, dir: McpLoader.ToolDir) {
    dir.manifest.Readable? && McpLoader.Required(settings, dir.name, dir.manifest.required)
  }

  /** The plugin starts, and reports nothing worse than what is tolerated. */
  predicate Starts(settings: McpLoader.Settings, dir: McpLoader.ToolDir, tolerated: Check) {
    McpLoader.Enabled(settings, dir.name) && dir.attempt.Succeeds? && Tolerates(tolerated, dir.attempt.health)
  }

  predicate Tolerates(tolerated: Check, health: Health) {
    !health.Faulty? && (tolerated.Weak? || !health.Degraded?)
  }

  predicate Serves(tool: Tool, tolerated: Check) {
    tool.status.Loaded? && Tolerates(tolerated, tool.health)
  }

  lemma CheckMeans(registry: State)
    ensures var check, tools := RequiredToolsLoaded(Some(registry)), registry.tools;
      && (check.Good? <==> forall k :: k in tools && tools[k].required ==> Serves(tools[k], Good))
      && (!check.Bad? <==> forall k :: k in tools && tools[k].required ==> Serves(tools[k], Weak))
  {
  }

  /** The directory behind a required tool. */
  lemma DirOfRequired(settings: McpLoader.Settings, dirs: seq<McpLoader.ToolDir>, k: string)
    returns (dir: McpLoader.ToolDir)
    requires McpLoader.DistinctNames(dirs)
    requires McpLoader.LoadAll(settings, EMPTY, dirs).raised.None?
    requires var tools := McpLoader.LoadAll(settings, EMPTY, dirs).registry.tools; k in tools && tools[k].required
    ensures dir in dirs && IsRequired(settings, dir) && McpLoader.Record(settings, dir).Some?
    ensures McpLoader.LoadAll(settings, EMPTY, dirs).registry.tools[k] == McpLoader.Record(settings, dir).value
  {
    hide McpLoader.LoadAll;
    McpLoader.FinishingRun(settings, EMPTY, dirs);
    McpLoader.FinishedRunFailsNoRequired(settings, EMPTY, dirs);
    var i :| 0 <= i < |dirs| && dirs[i].name == k && McpLoader.Record(settings, dirs[i]).Some?;
    dir := dirs[i];
  }

  /** The tool on record for a required directory; it has not failed. */
  lemma ToolOfRequired(settings: McpLoader.Settings, dirs: seq<McpLoader.ToolDir>, dir: McpLoader.ToolDir)
    requires McpLoader.DistinctNames(dirs)
    requires McpLoader.LoadAll(settings, EMPTY, dirs).raised.None?
    requires dir in dirs && IsRequired(settings, dir)
    ensures var tools := McpLoader.LoadAll(settings, EMPTY, dirs).registry.tools;
      && dir.name in tools
      && tools[dir.name] == McpLoader.Record(settings, dir).value
      && !tools[dir.name].status.Failed?
  {
    hide McpLoader.LoadAll;
    McpLoader.FinishingRun(settings, EMPTY, dirs);
    McpLoader.FinishedRunFailsNoRequired(settings, EMPTY, dirs);
  }

  /** After a load run that finishes, the required-tools check tells how the required tools with a readable manifest
      do: it is good exactly when all of them are enabled and report to be fine, and not bad exactly when all are
      enabled and report no error. */
  lemma RequiredAfterRun(settings: McpLoader.Settings, dirs: seq<McpLoader.ToolDir>)
    requires McpLoader.DistinctNames(dirs)
    requires McpLoader.LoadAll(settings, EMPTY, dirs).raised.None?
    ensures var check := RequiredToolsLoaded(Some(McpLoader.LoadAll(settings, EMPTY, dirs).registry));
      && (check.Good? <==> forall dir :: dir in dirs && IsRequired(settings, dir) ==> Starts(settings, dir, Good))
      && (!check.Bad? <==> forall dir :: dir in dirs && IsRequired(settings, dir) ==> Starts(settings, dir, Weak))
  {
    hide McpLoader.LoadAll, RequiredToolsLoaded;
    CheckMeans(McpLoader.LoadAll(settings, EMPTY, dirs).registry);
    ServedIff(settings, dirs, Good);
    ServedIff(settings, dirs, Weak);
  }

  lemma ServedIff(settings: McpLoader.Settings, dirs: seq<McpLoader.ToolDir>, tolerated: Check)
    requires McpLoader.DistinctNames(dirs)
    requires McpLoader.LoadAll(settings, EMPTY, dirs).raised.None?
    ensures var tools := McpLoader.LoadAll(settings, EMPTY, dirs).registry.tools;
      (forall k :: k in tools && tools[k].required ==> Serves(tools[k], tolerated)) <==>
      forall dir :: dir in dirs && IsRequired(settings, dir) ==> Starts(settings, dir, tolerated)
  {
    hide McpLoader.LoadAll;
    var tools := McpLoader.LoadAll(settings, EMPTY, dirs).registry.tools;
    if forall k :: k in tools && tools[k].required ==> Serves(tools[k], tolerated) {
      forall dir | dir in dirs && IsRequired(settings, dir) ensures Starts(settings, dir, tolerated) {
        ToolOfRequired(settings, dirs, dir);
        assert Serves(tools[dir.name], tolerated);
      }
    }
    if forall dir :: dir in dirs && IsRequired(settings, dir) ==> Starts(settings, dir, tolerated) {
      forall k | k in tools && tools[k].required ensures Serves(tools[k], tolerated) {
        var dir := DirOfRequired(settings, dirs, k);
        assert Starts(settings, dir, tolerated);
      }
    }
  }
}
