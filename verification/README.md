# Verified models of the assistant backend and its MCP server

This project models six parts of the system in Dafny and proves what they promise.

* **Configuration pipeline** (`Values`, `Keys`, `Fields`, `Text`, `DeepMerge`, `EnvResolver`, `LiteralSecrets`,
  `ConfigLoader`, `Mirroring`, `Compatibility`, `AgentsConfig`, `NameLists`, `ConfigView`). A document is a recursive
  value. It is deep-merged with an override, literal secrets are refused, `${env:NAME:default}` references are
  replaced, the legacy sections are kept in step with the newer ones, agents are brought into the plugin form, and the
  result is frozen and read by dotted paths.
* **LLM fallback search** (`FallbackCycle`). The depth-first search over fallback profiles, with the state its visits
  share, and the validator that uses it.
* **Streaming** (`EventStream`, `Sse`, `HeartbeatLoop`, `StreamBody`). The event-stream printer with a parser written
  from sections 9.2.5 and 9.2.6 of the WHATWG HTML Living Standard, the public form of session events, and the two
  nested state machines that send frames: the loop that reads the session stream and inserts heartbeats, and the
  response body around it.
* **MCP tools** (`McpRegistry`, `McpLoader`, `McpHealth`). The registry of tools and owned function names, the load
  run that fills it, and the health report computed from it.
* **Prompt sections** (`PromptSections`). The greedy limit by number of sections and characters.
* **Agent errors** (`AgentErrors`). The message normaliser, the error classes, details and the way back.

Code that changes state in the original is a class or a method with loops, proved equal to a function; the laws are
lemmas about that function. A clock, a policy decision, a network event or the result of a plugin is a choice of the
environment: a step of a state machine or a parameter, and every theorem holds for all choices.

What the proofs turned up, each with the exact condition:

* Deep merge is not associative where a mapping is overridden by a non-mapping and then by a mapping;
  `DeepMerge.MergeAssociativeIff` says exactly when it is.
* One pass of the compatibility normaliser is not always enough, two are. One is enough exactly when every strategy
  and use case, the legacy ones merged in, already has all that its projection would fill in or tidy up
  (`Compatibility.OnePassSufficesIff`). The second pass can raise where the first does not, exactly when orchestration
  has a strategy of an unknown type that no legacy strategy overrides (`Compatibility.SecondPassSucceedsIff`).
* A load run ended by a duplicate tool name hands the name to the second tool while the first stays on record
  (`McpLoader.DuplicateHandsOver`). Every other run, finished or not, keeps ownership (`McpLoader.OwnedIffDisjoint`).
* Prompt sections within the character limit can render to more characters than the limit allows, from three sections
  on; `PromptSections.RenderedWithinIff` tells when, from the sections and the limit alone.
* The error message normaliser is not idempotent on certain texts of more than 400 characters
  (`AgentErrors.NormalizedIdempotentIff`).

## Model

| member | source | states |
|---|---|---|
| `FallbackCycle.Search.constructor` | backend/app/config/validation.py:1173-1175 | a search starts with nothing visited and an empty stack |
| `FallbackCycle.Search.Visit` | backend/app/config/validation.py:1177-1198 | a returned list is a simple cycle of fallback edges; on None the stack and the positions are as before, the profile is visited, and the visited profiles stay closed under edges, ranked by the order in which visits finish |
| `FallbackCycle.StackClosesCycle` | backend/app/config/validation.py:1181-1183 | reaching a profile on the stack makes the rest of the stack a simple cycle |
| `FallbackCycle.FindFallbackCycle` | backend/app/config/validation.py:1170-1205 | the search returns None exactly when the graph of defined profiles has no cycle, and otherwise a genuine simple cycle |
| `FallbackCycle.AcyclicIffWalksBounded` | backend/app/config/validation.py:1188-1193 | there is no cycle exactly when every walk along fallbacks has at most as many profiles as are defined |
| `FallbackCycle.AcyclicWalkDistinct` | backend/app/config/validation.py:1188-1193 | without a cycle no walk meets a profile twice |
| `FallbackCycle.ErrorList.Append` | backend/app/config/validation.py:225-240 | the shared list grows by the one error appended |
| `FallbackCycle.ValidateFallbacks` | backend/app/config/validation.py:224-240 | the list grows by genuine problems only, by every unknown or disabled fallback, and by a cycle whenever there is one |
| `FallbackCycle.FoundNothingIffSound` | backend/app/config/validation.py:224-240 | no error was found exactly when all fallbacks are known, enabled where they must be, and acyclic |
| `FallbackCycle.SoundFallbacksServe` | backend/app/config/validation.py:224-240 | in a configuration without fallback errors, following fallbacks from an enabled profile meets only enabled, defined profiles, none twice, and stops |
| `DeepMerge.MergeMappings` | backend/app/config/loader.py:75-85 | the loop that copies the base and overwrites entry by entry computes the recursive merge |
| `DeepMerge.MergeAtPath` | backend/app/config/loader.py:75-85 | what the merge holds at any path follows from what the operands hold there: an override leaf wins, an untouched base path survives, two mappings merge |
| `DeepMerge.CoveredIffAbsorbed` | backend/app/config/loader.py:75-85 | merging gives back the override exactly when nothing of the base shows through |
| `DeepMerge.MergeAbsorbs` | backend/app/config/loader.py:75-85 | merging is idempotent, and merging either operand in again changes nothing |
| `DeepMerge.MergeWithin` | backend/app/config/schemas.py:2691-2702 | merging in what is there already changes nothing |
| `DeepMerge.MergeAssociativeIff` | backend/app/config/loader.py:75-85 | the two ways of merging three documents agree exactly when, at every path that is a mapping, a non-mapping and a mapping in turn, the first mapping shows nothing through the third |
| `DeepMerge.MergeNotAssociative` | backend/app/config/loader.py:75-85 | under any key, a value that is no mapping between two mappings makes the two ways differ |
| `EnvResolver.MatchPrinted` | backend/app/config/env_resolver.py:12-18 | the hand-written matcher reads back every well-formed reference, whatever follows |
| `EnvResolver.MatchIsValid` | backend/app/config/env_resolver.py:12-18 | whatever the matcher accepts is a well-formed reference: a valid name, and a default without a closing brace |
| `EnvResolver.NameCharacters` | backend/app/config/env_resolver.py:12 | by code point, which characters a name may begin and go on with |
| `EnvResolver.ResolvesPieceByPiece` | backend/app/config/env_resolver.py:59-76 | the string is the concatenation of its gaps and references, and resolving replaces each reference once, in place, leaving the gaps |
| `EnvResolver.ResolvedTexts` | backend/app/config/env_resolver.py:59-76 | the resolved text is one text for each piece, in order: a gap as it is, for a reference the value of its variable if that is set and not empty, and otherwise its default; it fails exactly when some reference has neither, and the error names the first such variable |
| `EnvResolver.ReferenceIffPiece` | backend/app/config/env_resolver.py:15-18 | a string has a reference exactly when one of its pieces is one |
| `EnvResolver.ResolvesIffNothingMissing` | backend/app/config/env_resolver.py:63-74 | resolving fails exactly when some reference has neither a non-empty value nor a default |
| `EnvResolver.NoReferenceUnchanged` | backend/app/config/env_resolver.py:76 | a string without references is returned unchanged |
| `EnvResolver.DollarFreeResolvesOnce` | backend/app/config/env_resolver.py:59-76 | the result has no dollar sign exactly when no gap and no substituted text has one, and then a second resolution is the identity |
| `EnvResolver.NestedReferenceSurvives` | backend/app/config/env_resolver.py:12 | a default that itself looks like a reference is cut at the first closing brace, and a reference is left in the result |
| `EnvResolver.ResolveKeepsShape` | backend/app/config/env_resolver.py:31-56 | resolving keeps kinds, keys, lengths and every value that is no string |
| `EnvResolver.ResolveAtPath` | backend/app/config/env_resolver.py:34-42 | resolving acts at every path on its own |
| `LiteralSecrets.LeaksIffSecretAt` | backend/app/config/validation.py:1208-1251 | the walk for literal secrets raises exactly when at some path with a sensitive key stands a text that is not blank, no reference and no placeholder |
| `LiteralSecrets.SensitiveIff` | backend/app/observability/redaction.py:47-62 | a key is sensitive exactly when its name, stripped and in lower case, contains one of ten words and is none of seven control names, except `auth` and `oauth` as they stand and names that begin with a bracket |
| `LiteralSecrets.RefusedIff` | backend/app/config/validation.py:1227-1259 | a text is refused exactly when it is not blank, no reference matches anywhere in it, and it is no placeholder: one of seven words, or one of four words with a hyphen and anything after it |
| `ConfigLoader.LeaksMergeIff` | backend/app/config/loader.py:88-106 | a merged document holds a literal secret exactly when the override or the part of the base that survives it does |
| `ConfigLoader.PrepareSucceedsIff` | backend/app/config/loader.py:88-106 | preparing succeeds exactly when the override and the part of the base that survives the merge resolve and hold no literal secret; a literal secret is the error exactly when one of them holds one |
| `ConfigLoader.PrepareCommutes` | backend/app/config/loader.py:88-106 | if both documents resolve, preparing gives the merge of the resolved documents, unless a literal secret is left after merging, which is refused |
| `ConfigLoader.LiteralSecretRefused` | backend/app/config/loader.py:98-99 | a literal secret under a sensitive key is refused in the base and in the override, and not when it is overridden |
| `Mirroring.TypeFixedIff` | backend/app/config/schemas.py:2933-2940 | the texts that normalising leaves alone are exactly the known types |
| `Mirroring.TypeMeans` | backend/app/config/schemas.py:2933-2940 | a text stands for a known type exactly when, stripped and in lower case, it is that type, or the short form of `direct_agent` |
| `Mirroring.StrategyTypeStable` | backend/app/config/schemas.py:2933-2940 | a normalised type is a fixed point |
| `Mirroring.StrategyToLegacyEntries` | backend/app/config/schemas.py:2728-2746 | the legacy form of a strategy, entry by entry, and nothing else |
| `Mirroring.StrategyFromLegacyMeans` | backend/app/config/schemas.py:2705-2711 | a legacy strategy is translated exactly when its type is no text or a known one, and then only its type changes |
| `Mirroring.StrategySettles` | backend/app/config/schemas.py:2705-2746 | a strategy mirrored to its legacy form and back is left alone by every further round |
| `Mirroring.StrategyUnchangedIff` | backend/app/config/schemas.py:2705-2746 | a mirroring changes nothing in a strategy exactly when it has a flag and a type, and a type that is a text is a known one as it stands |
| `Mirroring.UsecaseToLegacyEntries` | backend/app/config/schemas.py:2749-2792 | the legacy form of a use case, entry by entry |
| `Mirroring.UsecaseUpdateEntries` | backend/app/config/schemas.py:2714-2725 | what a use case gets back from its legacy form, with agent and profile under their newer names |
| `Mirroring.UsecaseFromLegacyMeans` | backend/app/config/schemas.py:2714-2725 | a translated use case has agent and profile under their newer names, its own where it gives them there, and every other entry as it was |
| `Mirroring.UsecaseSettles` | backend/app/config/schemas.py:2714-2792 | a use case mirrored and read back is left alone by every further round, as long as its strategy's default agent stays |
| `Mirroring.UsecaseUnchangedIff` | backend/app/config/schemas.py:2714-2792 | a mirroring changes nothing in a use case exactly when flag, strategy and policy profile are there, the allowed agents are a list of texts, agent and profile stand stripped, no default agent is to be filled in, and a display name is in the metadata |
| `Compatibility.StrategiesSettle` | backend/app/config/schemas.py:2597-2601 | strategies absorbed from their own projections once are not changed again, and keep names and default agents |
| `Compatibility.UsecasesSettle` | backend/app/config/schemas.py:2603-2607 | the same for use cases |
| `Compatibility.DefaultsSettle` | backend/app/config/schemas.py:2609-2623 | completed orchestration defaults are complete |
| `Compatibility.InStepIffSynced` | backend/app/config/schemas.py:2561-2595 | syncing the flags changes nothing exactly when both places of every flag agree and nothing is left to inherit |
| `Compatibility.SyncReadsBack` | backend/app/config/schemas.py:2561-2595 | the synced flags are what the written document says |
| `Compatibility.PlanReadsBack` | backend/app/config/schemas.py:2625-2652 | the written document says the plan, its legacy sections are the projections and nothing else, and writing the plan again changes nothing |
| `Compatibility.PassMirrors` | backend/app/config/schemas.py:2517-2654 | after any pass the flags agree in their two places and the legacy strategies and use cases are exactly the projections of those of orchestration: where orchestration has any, the legacy section holds these under the same names and nothing else |
| `Compatibility.FlagsOfPass` | backend/app/config/schemas.py:2561-2595 | told from the document before the pass: the newer place of every flag keeps its own and inherits only what it lacks, and the legacy place then says the same |
| `Compatibility.OrchestrationOfPass` | backend/app/config/schemas.py:2625-2652 | told from the document before the pass: the `enabled` entry of orchestration is its own, or true if it had none and anything of orchestration is left; all entries a pass does not rewrite stay |
| `Compatibility.DefaultsOfOrchestration` | backend/app/config/schemas.py:2609-2623 | told from the document before the pass: the default strategy is the own one, or else the stripped one of the active use case; the fallback strategy is the own one, or else the strategy; all other defaults stay |
| `Compatibility.AbsorbedAtPath` | backend/app/config/schemas.py:2691-2702 | in the absorbed sections a legacy setting wins over that of orchestration, path by path |
| `Compatibility.PassKeepsRest` | backend/app/config/schemas.py:2517-2654 | all other sections of a document, and all other entries of `persistence`, are left alone |
| `Compatibility.TwoPassesSettle` | backend/app/config/schemas.py:2517-2654 | if two passes do not raise, a third does not raise and changes nothing |
| `Compatibility.FirstPassSucceedsIff` | backend/app/config/schemas.py:2597-2601 | a pass raises exactly when a legacy strategy has a text type that is not a known one |
| `Compatibility.SecondPassSucceedsIff` | backend/app/config/schemas.py:2597-2601 | told from the document before the first pass: the second raises exactly when some orchestration strategy has an unknown type and no legacy strategy of its name gives a type |
| `Compatibility.SecondPassCanRaise` | backend/app/config/schemas.py:2634-2640 | a strategy of orchestration alone with any unknown type passes once and raises the second time |
| `Compatibility.BlankTypeRaises` | backend/app/config/schemas.py:2933-2940 | a blank type is one of them |
| `Compatibility.OnePassSufficesIff` | backend/app/config/schemas.py:2597-2652 | told from the document before the pass: one pass is enough exactly when every strategy and use case, the legacy ones merged in, is settled |
| `Compatibility.OnePassIsNotEnough` | backend/app/config/schemas.py:2597-2641 | a document with one strategy of orchestration that is not settled, which the second pass still changes |
| `Compatibility.AbsorbStrategies` | backend/app/config/schemas.py:2597-2601 | the loop merges every translated legacy strategy under its name, or raises when one has an unknown type |
| `Compatibility.AbsorbUsecases` | backend/app/config/schemas.py:2603-2607 | the loop merges every translated legacy use case under its name |
| `Compatibility.NormalizeCompatibilitySources` | backend/app/config/schemas.py:2517-2654 | the validator's step-by-step updates compute the pass whose result `FlagsOfPass`, `OrchestrationOfPass`, `DefaultsOfOrchestration`, `AbsorbedAtPath`, `PassMirrors` and `PassKeepsRest` tell entry by entry from the document before it |
| `AgentsConfig.ApplyCompletes` | backend/app/config/schemas.py:2844-2915 | after applying the defaults nothing is left to inherit or derive |
| `AgentsConfig.CompleteIffUnchanged` | backend/app/config/schemas.py:2844-2915 | a plugin is left alone exactly when it has inherited and derived everything |
| `AgentsConfig.ApplyKeepsAll` | backend/app/config/schemas.py:2844-2915 | no entry of a plugin is lost when the defaults are applied: each is unchanged, or a section that only gains entries, except a non-mapping in the place of a section and a blank type |
| `AgentsConfig.InheritMeans` | backend/app/config/schemas.py:2844-2880 | flag by flag and limit by limit: what a plugin has of its own, or else what the defaults have; everything else stays |
| `AgentsConfig.DeriveMeans` | backend/app/config/schemas.py:2880-2915 | the capabilities, tools, memory flags and type that a plugin derives from its own entries, each told by the entries it comes from |
| `AgentsConfig.PluginFromLegacyMeans` | backend/app/config/schemas.py:2795-2812 | a legacy agent as a plugin, entry by entry |
| `AgentsConfig.LegacyCapabilitiesMean` | backend/app/config/schemas.py:2815-2841 | which capabilities a legacy agent has: two always, four never, the others told by its memory flags and by the texts in its lists |
| `AgentsConfig.NormalizeAgentsIdempotent` | backend/app/config/schemas.py:575-606 | normalising the agents section twice is normalising it once |
| `AgentsConfig.PluginSettingSurvivesIff` | backend/app/config/schemas.py:586-606 | a setting given under `plugins` reaches the result unchanged, over any legacy agent of the same name and any default, exactly when it does not stand where a section or a type is required |
| `AgentsConfig.FillMissingLimits` | backend/app/config/schemas.py:2856-2868 | the loop fills in exactly the limits that are missing |
| `AgentsConfig.CombineAgents` | backend/app/config/schemas.py:584-594 | the loop merges every legacy agent under the plugin entry of the same name |
| `AgentsConfig.NormalizeAgentsSection` | backend/app/config/schemas.py:575-606 | the validator's loops compute the section the laws are about |
| `NameLists.NormalizeNameList` | backend/app/config/schemas.py:3005-3015 | the loop with its set of seen names computes the normalised list, or raises |
| `NameLists.NormalizedHolds` | backend/app/config/schemas.py:3005-3015 | it raises exactly on a blank name; otherwise the result has the stripped names and no others |
| `NameLists.NormalizedInOrder` | backend/app/config/schemas.py:3005-3015 | each name stands once, in the order of first occurrence |
| `NameLists.NormalUnchangedIff` | backend/app/config/schemas.py:3005-3015 | a list is left alone exactly when its names are stripped, not blank and distinct |
| `NameLists.NormalizedIdempotent` | backend/app/config/schemas.py:3005-3015 | normalising twice is normalising once |
| `ConfigView.UnfreezeFreezeIff` | backend/app/config/view.py:3363-3383 | thawing a frozen value gives it back exactly when it holds no tuple |
| `ConfigView.FrozenLookupIs` | backend/app/config/view.py:904-919 | any lookup in the frozen view, with the fallback to plugins, finds exactly what the same lookup finds in the original, frozen |
| `ConfigView.WalkIsLookup` | backend/app/config/view.py:3546-3555 | what the lookup finds is what the original holds at the path with `plugins` put in wherever the fallback was taken |
| `ConfigView.FrozenLookupAgrees` | backend/app/config/view.py:904-919 | whatever the original has at a path, the frozen view has at that path |
| `ConfigView.DottedLookupIs` | backend/app/config/view.py:904-919 | the same for dotted paths of a view over any document; thawed, the result is the original value exactly when this holds no tuple |
| `ConfigView.FollowAppend` | backend/app/config/view.py:908-919 | following a path is following its beginning and then its end |
| `ConfigView.PluginPathsAgreeIff` | backend/app/config/view.py:3546-3555 | the short path to a plugin and the full one agree exactly when the plugin is not null or something follows it |
| `ConfigView.SplitJoin` | backend/app/config/view.py:909 | the parts of two paths joined by a dot are the parts of both |
| `ConfigView.ConfigurationView.constructor` | backend/app/config/view.py:901-902 | the view holds the frozen values |
| `ConfigView.ConfigurationView.Get` | backend/app/config/view.py:904-919 | the walk finds the value at the path, or gives the default |
| `ConfigView.ConfigurationView.Require` | backend/app/config/view.py:921-925 | a null or missing value is an error, anything else is returned |
| `ConfigView.ConfigurationView.Section` | backend/app/config/view.py:927-931 | exactly the sections are returned, thawed; missing paths and other values are told apart |
| `ConfigView.SectionReadsOriginal` | backend/app/config/view.py:927-931 | reading a section without tuples through the view gives the original section |
| `ConfigView.DottedPluginPathsAgree` | backend/app/config/view.py:904-919 | in dotted form, `agents.X.rest` reads what `agents.plugins.X.rest` reads for a plugin that is not null and no direct key |
| `EventStream.EncodeSse` | backend/app/api/sse.py:29-38 | the printer that collects lines computes the printed frame |
| `EventStream.ParsePrinted` | backend/app/api/sse.py:29-38 | parsing any sequence of printed frames by the WHATWG standard gives back their names and data in order, each with the most recent id |
| `EventStream.AnyEndingReadBack` | backend/app/api/sse.py:36-38 | the parser reads the same lines from a text whichever of the three line breaks of the standard it is written with |
| `EventStream.FieldSplits` | backend/app/api/sse.py:33-35 | the parser splits a field line at its first colon, and one space after that is optional |
| `EventStream.DataLinesJoin` | backend/app/api/sse.py:33-36 | the parser joins several data lines of an event with line breaks |
| `EventStream.FrameReadBackIff` | backend/app/api/sse.py:33-34 | a frame with an id is read back with it exactly when the id has neither a line break nor a NUL |
| `EventStream.StreamReadBackIff` | backend/app/api/sse.py:29-38 | a sequence of frames with ids free of NUL is read back exactly when every id is a single line |
| `EventStream.DispatchedIdsClean` | backend/app/api/sse.py:33-34 | whatever text is received, no event has an id with a line break or a NUL |
| `Sse.FrameOfEvent` | backend/app/api/sse.py:41-128 | a frame has the name of its event, and an id only for artifacts; a terminal event always has a frame |
| `Sse.FrameIdentifies` | backend/app/api/sse.py:213-247 | frames at the start and the ends of a stream name their session, and their trace exactly when the settings ask for it or an error is sent |
| `Sse.PlainFramesShow` | backend/app/api/sse.py:122-128 | the first frame tells the version, and a heartbeat its trace and nothing else |
| `Sse.ErrorShown` | backend/app/api/sse.py:227-247 | an error frame shows the stripped code and message of the error the event tells, or the ordinary ones where these are blank or no texts, and whether to try again |
| `Sse.CompletedShown` | backend/app/api/sse.py:104-114 | a completed frame shows the stripped finish reason, or `stop`, and the duration exactly when that is a number or a flag |
| `Sse.DeltaShown` | backend/app/api/sse.py:55-59 | a delta is shown exactly when its text, or else its delta, is a text that is not empty, and as it stands |
| `Sse.MetadataShown` | backend/app/api/sse.py:61-69 | metadata are shown exactly when the settings ask for them, and of these exactly the entries with six names that are not null |
| `Sse.StartedShown` | backend/app/api/sse.py:277-293 | a started artifact is shown exactly when its five texts are there, with these stripped, and its type or `chart` |
| `Sse.FailedShown` | backend/app/api/sse.py:313-330 | a failed artifact is shown exactly when it has an id, with the code and message of its error or the ordinary ones |
| `Sse.ArtifactShown` | backend/app/api/sse.py:296-310 | a completed artifact is shown exactly when it is a mapping with a public projection, and as that |
| `Sse.IdShown` | backend/app/api/sse.py:267-274 | the id of an artifact is its own stripped text, or else that of the artifact it carries |
| `Sse.OwnFramesShow` | backend/app/api/sse.py:131-179 | what the frames hold that the route makes on its own account |
| `Sse.NameTells` | backend/app/api/sse.py:41-128 | the name of a frame tells the subject and the stage of its event |
| `Sse.TerminalStages` | backend/app/api/routes_chat.py:226-234 | a stream ends with an error or under the name `response.completed`, and with nothing else |
| `Sse.NothingElseIsShown` | backend/app/api/sse.py:41-128 | events of one kind, trace and session that agree on a small set of public entries have the same frame, or neither has one: no other entry gets out, through any branch |
| `Sse.SentIsReceived` | backend/app/api/sse.py:29-180 | whatever public frames are sent, a client that follows the standard reads their names, payload texts and ids in order |
| `Sse.SentIsReceivedIff` | backend/app/api/sse.py:29-180 | with ids free of NUL, that is so exactly when all ids are single lines |
| `Sse.ReceivedInOrder` | backend/app/api/sse.py:29-180 | frame by frame, what such a client receives has the name and the payload text of what was sent |
| `HeartbeatLoop.NextKeepsInvariant` | backend/app/api/routes_chat.py:489-511 | every step of the loop keeps the invariant on reads and deliveries |
| `HeartbeatLoop.NextDelivers` | backend/app/api/routes_chat.py:496-506 | a step that ends at an event has just delivered that one event; no other step delivers anything |
| `HeartbeatLoop.EveryRun` | backend/app/api/routes_chat.py:477-524 | in every interleaving at most one read is outstanding and none after an exit, the delivered events are a beginning of the stream in order, at most one event was read and not delivered, and a normal end has delivered everything |
| `HeartbeatLoop.EveryExit` | backend/app/api/routes_chat.py:489-524 | the exit of every run is told by its last action: disconnected only when a disconnection was seen, interrupted only by an interruption, raised by a failing check; a loop that found nothing more to read raised exactly when the source fails and ended exactly when it does not; the failure of a read that was still out comes out instead of a disconnection or interruption |
| `HeartbeatLoop.PossibleIff` | backend/app/api/routes_chat.py:489-511 | in every state that can be reached, which actions are possible: a heartbeat only while a read is running, a result only when there is one, a check only at the top |
| `HeartbeatLoop.GoesOn` | backend/app/api/routes_chat.py:489-506 | where each action leads |
| `HeartbeatLoop.LeftoverSettled` | backend/app/api/routes_chat.py:508-511 | an exit settles the one read that may be running and no other |
| `HeartbeatLoop.HeartbeatPerTimeout` | backend/app/api/routes_chat.py:497-500 | in every run there is one heartbeat for every timeout |
| `HeartbeatLoop.Loop.constructor` | backend/app/api/routes_chat.py:484-487 | the loop starts with one running read and nothing yielded |
| `HeartbeatLoop.Loop.Take` | backend/app/api/routes_chat.py:489-511 | the loop, reassigning `pending`, takes exactly the steps of the state machine and yields what they yield; `EveryExit`, `PossibleIff` and `GoesOn` tell these steps and where they lead |
| `HeartbeatLoop.Loop.Cancel` | backend/app/api/routes_chat.py:520-524 | a running read is settled, one way or the other; a finished one is left alone |
| `HeartbeatLoop.Loop.Finally` | backend/app/api/routes_chat.py:508-511 | only an unfinished read is cancelled, and its failure comes out instead of the intended exit |
| `StreamBody.NextKeepsPlaced` | backend/app/api/routes_chat.py:183-231 | every step keeps the body and the loop at the same place of the stream |
| `StreamBody.OthersShowNothing` | backend/app/api/routes_chat.py:207-260 | only a policy decision on an event makes an event frame; other steps add at most a frame of the body's own |
| `StreamBody.RunKeepsInvariant` | backend/app/api/routes_chat.py:183-260 | every run keeps the whole invariant |
| `StreamBody.EveryRun` | backend/app/api/routes_chat.py:183-260 | in every run at most one completed or error frame is sent and nothing after it; the frames of events are, in order, those of a beginning of the stream that ends no later than its first terminal event, less those denied or without a public form; all others are heartbeats or the one synthetic final frame |
| `StreamBody.EveryEnding` | backend/app/api/routes_chat.py:198-260 | which endings have sent a final frame, when the stream's terminal event was reached, when the flag for it is set, when a failure is recorded, and that no read is left running |
| `StreamBody.EveryCause` | backend/app/api/routes_chat.py:183-260 | which ending a run comes to is told by its signals: a completed frame of the body is added exactly when the stream is over and the last connection answer said connected, nothing is added exactly when it is over and there is no session id or that answer said disconnected, and an error frame only after a failing call, check or stream |
| `StreamBody.FailureIsShown` | backend/app/api/routes_chat.py:252-260 | a stream that fails, read to its end by a client that is never seen gone, never ends as if it were complete |
| `StreamBody.EveryAbort` | backend/app/api/routes_chat.py:248-251 | an aborted run was cancelled or closed by its last signal; a cancellation is recorded as such unless an error frame was being sent |
| `StreamBody.LoopIsRun` | backend/app/api/routes_chat.py:207-231 | in every run of the body its loop makes a run of its own, with exactly the steps the signals name and resumptions in between, so all laws of the loop hold inside the body |
| `StreamBody.HeartbeatForTimeout` | backend/app/api/routes_chat.py:212-217 | in every run a heartbeat is sent for each timeout of the loop, and no other |
| `StreamBody.FailureStays` | backend/app/api/routes_chat.py:252-260 | once a call has failed the last frame sent is the error frame, and the run can only end with it or be aborted |
| `StreamBody.AbortStays` | backend/app/api/routes_chat.py:248-251 | once cancelled or closed a run is aborted, and stays so |
| `StreamBody.EveryStepMoves` | backend/app/api/routes_chat.py:183-260 | no signal but a step of the loop leaves the body where it is |
| `StreamBody.PossibleIff` | backend/app/api/routes_chat.py:183-260 | in every state that can be reached, which signals the body waits for |
| `StreamBody.LoopPossibleIff` | backend/app/api/routes_chat.py:207-231 | the body takes every step of its loop while in it, and only the end of a read while a heartbeat is sent |
| `StreamBody.ClientReceives` | backend/app/api/routes_chat.py:183-260 | in every run a client that follows the event-stream standard receives one event for each frame sent, and only the last can be a completed or an error event |
| `StreamBody.Body.constructor` | backend/app/api/routes_chat.py:183-186 | the body starts at the first event with nothing sent |
| `StreamBody.Body.Advance` | backend/app/api/routes_chat.py:183-260 | the body, updating its flags in place and driving its loop, takes exactly the steps of the state machine; `EveryCause`, `EveryAbort` and `PossibleIff` tell what leads where |
| `StreamBody.Body.Answer` | backend/app/api/routes_chat.py:188-205 | handling an event: deny or encode, send, and end after a terminal one |
| `StreamBody.Body.FinishEvent` | backend/app/api/routes_chat.py:198-205 | after an event: an error or completed event ends the body with its flags, any other goes on |
| `StreamBody.Body.StepLoop` | backend/app/api/routes_chat.py:207-247 | what the body makes of a heartbeat, an event, an end or a failure of the loop |
| `StreamBody.Body.Fail` | backend/app/api/routes_chat.py:252-260 | an exception is turned into one error frame and a failed status |
| `McpRegistry.CountsAgree` | mcp/app/registry.py:225-251 | in every state any calls can reach, loaded, disabled and failed add up to all tools, the enabled ones are the loaded and the failed, and the failed are among the unhealthy |
| `McpRegistry.CallTold` | mcp/app/registry.py:130-237 | what a successful call leaves: a record of its tool told field by field, all other records as they were, and the names of a loaded or failed tool in its hands |
| `McpRegistry.NoSharedName` | mcp/app/registry.py:304-327 | under ownership no two loaded or failed tools have a name in common |
| `McpRegistry.AvailableKeepsOwned` | mcp/app/registry.py:130-206 | a call whose names are available keeps ownership and every entry written before |
| `McpRegistry.FailedKeepsOwnedIff` | mcp/app/registry.py:176-187 | recording a failed tool keeps ownership exactly when no other loaded or failed tool has one of its names |
| `McpRegistry.ToolRegistry.constructor` | mcp/app/registry.py:126-128 | a registry starts empty |
| `McpRegistry.ToolRegistry.FirstDuplicate` | mcp/app/registry.py:304-321 | nothing is reported exactly when no name belongs to another tool; otherwise the first such name and its owner |
| `McpRegistry.ToolRegistry.StoreTool` | mcp/app/registry.py:323-327 | the tool is stored and, if enabled, owns all its names |
| `McpRegistry.ToolRegistry.RegisterPlugin` | mcp/app/registry.py:130-151 | a plugin is registered as loaded, unless a name belongs to another tool |
| `McpRegistry.ToolRegistry.RegisterDisabled` | mcp/app/registry.py:159-168 | a disabled tool is recorded and claims no name |
| `McpRegistry.ToolRegistry.RegisterFailed` | mcp/app/registry.py:170-187 | a failed tool with a manifest is recorded and takes its names |
| `McpRegistry.ToolRegistry.RegisterFailedName` | mcp/app/registry.py:189-206 | a failed tool without a manifest is recorded without names |
| `McpRegistry.ToolRegistry.MarkUnhealthy` | mcp/app/registry.py:225-237 | a known tool becomes degraded, a failed one stays in error; an unknown one is refused |
| `McpRegistry.ToolRegistry.HealthSummary` | mcp/app/registry.py:239-251 | counting tool by tool gives the sizes of the five sets of tools |
| `McpLoader.DirKeepsOwned` | mcp/app/loader.py:106-218 | a directory that does not end the run keeps ownership and all earlier entries |
| `McpLoader.LastDirKeepsOwnedIff` | mcp/app/loader.py:167-218 | a directory of a new name keeps ownership exactly when its names are available, whether it ends the run or not |
| `McpLoader.FinishedRunKeepsOwned` | mcp/app/loader.py:57-75 | after every run that finishes, each loaded or failed tool owns all its names, and no entry has changed |
| `McpLoader.FinishedRunFailsNoRequired` | mcp/app/loader.py:394-404 | after every run that finishes, no tool is both required and failed |
| `McpLoader.DirStep` | mcp/app/loader.py:106-218 | a directory ends the run exactly when it is fatal by itself or claims a name of another tool; otherwise its tool and its claims are added and nothing else changes |
| `McpLoader.DisjointStep` | mcp/app/loader.py:168 | the names of one more directory are available exactly when they are disjoint from all claimed before |
| `McpLoader.FinishingRun` | mcp/app/loader.py:57-75 | a run finishes exactly when no directory is fatal by itself and the claims are disjoint, and then records for each directory what it stands for by itself |
| `McpLoader.RunRecords` | mcp/app/loader.py:106-218 | after a run that finishes, what is on record for each directory, with the enabled and required flags of its own settings if it has any, and else the default and the flag of its manifest |
| `McpLoader.FatalAloneIff` | mcp/app/loader.py:378-440 | which directories end a run by themselves, told from the settings, the manifest and the outcome of the plugin |
| `McpLoader.RequiredFailureEndsRun` | mcp/app/loader.py:408-440 | a run with a directory that is enabled, required and failing does not finish, told by the same flags |
| `McpLoader.OwnedIffDisjoint` | mcp/app/loader.py:57-75 | starting from an empty registry, every loaded or failed tool owns its names after a run, finished or not, exactly when no two directories up to the first that is fatal by itself claim the same name |
| `McpLoader.DuplicateHandsOver` | mcp/app/loader.py:378-416 | every run ended by a duplicate name hands the name to the second directory, while the first stays on record as loaded or failed and lists the name |
| `McpLoader.AbortedRunLosesOwnership` | mcp/app/loader.py:378-404 | two directories that provide the same function: the first is on record as loaded and no longer owns it |
| `McpLoader.ToolLoader.HandleLoadError` | mcp/app/loader.py:378-416 | a failure is recorded in any case, and raised exactly when it is a configuration, manifest or duplicate error, or the tool is required, or optional failures count |
| `McpLoader.ToolLoader.LoadToolDir` | mcp/app/loader.py:106-218 | the branches over manifest, enabling, names and plugin outcome do what the step function says, which `RunRecords`, `FatalAloneIff` and `RequiredFailureEndsRun` tell from the settings and the manifest |
| `McpLoader.ToolLoader.LoadTools` | mcp/app/loader.py:72-75 | the loop over directories, ended by the first error raised, computes the run |
| `McpHealth.ReadyIff` | mcp/app/health.py:59-78 | the server is ready exactly when its status is not unhealthy and the required-tools check is not degraded |
| `McpHealth.StatusIsWorst` | mcp/app/health.py:182-187 | the overall status is the worst of all checks |
| `McpHealth.PlainChecksMean` | mcp/app/health.py:55-63 | the checks that are not about tools, flag by flag |
| `McpHealth.OptionalMeans` | mcp/app/health.py:145-154 | the check of optional tools, told by the tools on record |
| `McpHealth.WebsearchMeans` | mcp/app/health.py:157-172 | the check of the search tool, told by its record and its required flag |
| `McpHealth.RequiredAfterRun` | mcp/app/health.py:132-142 | after a finished run the required-tools check is good, or not bad, exactly when every required tool with a manifest is enabled and its plugin reports to be fine, or no error |
| `PromptSections.TruncateText` | backend/app/memory/redaction.py:13-27 | the result respects a positive bound |
| `PromptSections.TruncateTextIs` | backend/app/memory/redaction.py:13-27 | a summary is the stripped text exactly when that is within the bound; otherwise the longest beginning within the bound, less three characters and trailing spaces, with three dots, or without dots where there is no room for anything else |
| `PromptSections.ShortBodyMakesSection` | backend/app/agents/prompts.py:228-236 | shortening never fails, keeps the title, and fits the room for the body |
| `PromptSections.TruncatedShortens` | backend/app/agents/prompts.py:228-236 | the shortened body is a beginning of the body followed by three dots |
| `PromptSections.LimitPromptSections` | backend/app/agents/prompts.py:190-221 | the greedy loop computes the longest fitting beginning, with one shortened section if there is room |
| `PromptSections.LimitedWithinLimits` | backend/app/agents/prompts.py:190-221 | the result keeps within both limits |
| `PromptSections.ConsideredCount` | backend/app/agents/prompts.py:197-204 | the sections looked at are the first ones, as many as the limit says, and none for a negative limit |
| `PromptSections.LimitedIsBeginning` | backend/app/agents/prompts.py:205-221 | all but the last section are unchanged, the last keeps its title and is unchanged or shortened, and nothing follows a section that did not fit |
| `PromptSections.LimitedUnchangedIff` | backend/app/agents/prompts.py:190-221 | the limit changes nothing exactly when the input is within both limits |
| `PromptSections.LimitedTwice` | backend/app/agents/prompts.py:190-221 | limiting twice is limiting once |
| `PromptSections.RenderedLength` | backend/app/orchestration/prompt_inputs.py:26-31 | n rendered sections take n - 2 characters more than their count |
| `PromptSections.RenderedWithinIff` | backend/app/agents/prompts.py:190-236 | told from the sections considered and the limit: limited sections render within it exactly when, if one is shortened, the cut drops a space for every separator over one, and otherwise the count of those that fit leaves room for the separators |
| `PromptSections.TwoRenderWithin` | backend/app/agents/prompts.py:190-236 | no more than two sections never overrun |
| `PromptSections.RenderedCanOverrun` | backend/app/agents/prompts.py:224-225 | three sections within the limit whose text is longer than it |
| `AgentErrors.CutRevealsNothing` | backend/app/agents/errors.py:226-229 | neither cutting a text off nor adding dots makes it look like a stack trace |
| `AgentErrors.NormalizedTold` | backend/app/agents/errors.py:220-229 | a text becomes the fallback exactly when it is blank or one of three words is in it, case folded; otherwise it is the stripped text, cut and dotted exactly when that has more than 400 characters |
| `AgentErrors.NormalizedPasses` | backend/app/agents/errors.py:220-229 | every message is stripped, not blank, unlike a stack trace and at most 402 characters long |
| `AgentErrors.NormalizedTwice` | backend/app/agents/errors.py:220-229 | a message is left alone by a second normalisation exactly when it does not have 401 characters |
| `AgentErrors.NormalizedSettles` | backend/app/agents/errors.py:220-229 | the second normalisation is a fixed point, whatever the fallbacks |
| `AgentErrors.NormalizedIdempotentIff` | backend/app/agents/errors.py:220-229 | normalising is idempotent except exactly on safe texts over 400 characters whose cut drops one space |
| `AgentErrors.NotIdempotent` | backend/app/agents/errors.py:229 | such a text |
| `AgentErrors.ClassOfCode` | backend/app/agents/errors.py:193-208 | every class is found by its code |
| `AgentErrors.CodesOnRecord` | backend/app/agents/errors.py:193-208 | the class on record for each of the fourteen codes |
| `AgentErrors.DetailMade` | backend/app/agents/errors.py:211-217 | a detail is refused exactly when its code is blank, and keeps the stripped code and the flag |
| `AgentErrors.DetailRoundTrip` | backend/app/agents/errors.py:59-65 | the detail of an error, rebuilt and turned back, is the same detail, and the class is kept |
| `AgentErrors.AnyDetailKeptIff` | backend/app/agents/errors.py:186-190 | a detail made otherwise survives exactly when its code belongs to a class and its message does not have 401 characters |
| `AgentErrors.EveryExceptionHasDetail` | backend/app/agents/errors.py:139-183 | every exception has a detail that survives the round trip, and the text of a foreign exception gets into it only when policy denied the request |
| `AgentErrors.ExceptionTold` | backend/app/agents/errors.py:139-183 | the code and the retry flag of the detail of every foreign exception: an LLM failure may be retried, a denial by policy if it says so, and nothing else; a denial is told by class or by the end of the code |

## Left out

- AgentErrors.DetailRoundTrip: the default messages are any table of texts that are safe and at most 400 characters long; the literal texts of the classes are not in the model.
- AgentErrors.NormalizedPasses: case folding is any function from characters to texts that lower-cases ASCII; nothing else about it is used.
- Sse.SentIsReceived: JSON printing is a parameter that gives text on one line; ids must be free of line breaks, as `Sse.SentIsReceivedIff` shows; what becomes of ids that hold both a NUL and a line break is not described.
- EventStream.ParsePrinted: the retry field and the network side of the standard, which the printer never uses.
- StreamBody.EveryRun: the policy decision and the connection check are choices of the environment; `project_public_artifact` and the clock are parameters.
- HeartbeatLoop.EveryRun: a second cancellation while a cancelled read is awaited, and a generator that is abandoned and closed later by the event loop.
- Compatibility.TwoPassesSettle: error texts, and the order of entries in a mapping; loops take keys in any order.
- ConfigView.UnfreezeFreezeIff: aliasing; a mapping proxy is a value that cannot change.
- EnvResolver.ResolvesIffNothingMissing: the text and the path in the error.
- ConfigLoader.PrepareSucceedsIff: reading the two files, and the default environment.
- Keys of mappings that are not strings, as YAML allows them, and dates and other scalars of YAML.
- FallbackCycle.ValidateFallbacks: the other checks of the LLM section, each settled by one branch.
- McpRegistry.CountsAgree: capabilities, risk levels, tags, schemas and health details of a tool.
- McpLoader.FinishingRun: reading and merging tool configuration, importing a plugin, calling it and asking for its health are one outcome per directory; finding and sorting the directories, logging, and what a plugin registers with the server before it fails.
- McpHealth.ReadyIff: the payload around the checks.
- PromptSections.LimitPromptSections: the metadata of sections.
- AgentErrors.EveryExceptionHasDetail: metadata and its sanitising, and error classes defined outside the file.
- FastAPI and FastMCP wiring, Pydantic, file reading, authentication, and the stores for sessions, traces, memory and workflow state.
