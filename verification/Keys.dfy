/** Configuration keys: the names the code refers to, and all others. */
module Keys {

  /** The names the code refers to, one constructor each, so that they are visibly different. */
  datatype Field =
    | Enabled | Type | Strategy | Agent | Memory | Tools | Description | LlmProfile | MaxCandidateAgents |
    Metadata | DefaultAgent | AllowedAgents | PolicyProfile | OrchestratorLlmProfile | DisplayName | App |
    ActiveUsecase | Tooling | Features | Persistence | Orchestration | Defaults | Strategies | Usecases |
    MemoryEnabled | ToolsEnabled | Provider | Required | FallbackStrategy | Plugins | StreamLlmDeltas |
    ExposeMetadata | ExposeAgentMetadata | Limits | MaxPromptContextBytes | MaxOutputChars |
    MaxToolIntents | MaxMemoryCandidates | MaxLlmCalls | MaxSelfManagedToolCalls |
    MaxSelfManagedMemorySearches | ContextPolicy | MaxContextBytes | Capabilities | AllowedTools |
    AllowedToolIntents | SearchEnabled | WriteEnabled | Answer | Review | Stream | MemoryRead |
    MemoryWrite | MemoryCandidateExtract | ToolIntents | ToolExecute | SelfManagedMemory |
    SelfManagedTools | Module | ClassName

  const FIELDS: seq<Field> := [
    Enabled, Type, Strategy, Agent, Memory, Tools, Description, LlmProfile,
    MaxCandidateAgents, Metadata, DefaultAgent, AllowedAgents, PolicyProfile, OrchestratorLlmProfile,
    DisplayName, App, ActiveUsecase, Tooling, Features, Persistence, Orchestration, Strategies, Usecases,
    MemoryEnabled, ToolsEnabled, Provider, Required, FallbackStrategy, StreamLlmDeltas, ExposeMetadata,
    ExposeAgentMetadata, Limits, MaxPromptContextBytes, MaxOutputChars, MaxToolIntents,
    MaxMemoryCandidates, MaxLlmCalls, MaxSelfManagedToolCalls, MaxSelfManagedMemorySearches, ContextPolicy,
    MaxContextBytes, Capabilities, AllowedTools, AllowedToolIntents, SearchEnabled, WriteEnabled, Answer,
    Review, Stream, MemoryRead, MemoryWrite, MemoryCandidateExtract, ToolIntents, ToolExecute,
    SelfManagedMemory, SelfManagedTools, Module, ClassName
  ]

  /** A key of a configuration mapping. */
  datatype Key = Known(field: Field) | Named(name: string)

  /** How a field is written in a configuration file. */
  function FieldName(field: Field): string {
    match field
    case Enabled => "enabled"
    case Type => "type"
    case Strategy => "strategy"
    case Agent => "agent"
    case Memory => "memory"
    case Tools => "tools"
    case Description => "description"
    case LlmProfile => "llm_profile"
    case MaxCandidateAgents => "max_candidate_agents"
    case Metadata => "metadata"
    case DefaultAgent => "default_agent"
    case AllowedAgents => "allowed_agents"
    case PolicyProfile => "policy_profile"
    case OrchestratorLlmProfile => "orchestrator_llm_profile"
    case DisplayName => "display_name"
    case App => "app"
    case ActiveUsecase => "active_usecase"
    case Tooling => "tooling"
    case Features => "features"
    case Persistence => "persistence"
    case Orchestration => "orchestration"
    case Defaults => "defaults"
    case Strategies => "strategies"
    case Usecases => "usecases"
    case MemoryEnabled => "memory_enabled"
    case ToolsEnabled => "tools_enabled"
    case Provider => "provider"
    case Required => "required"
    case FallbackStrategy => "fallback_strategy"
    case Plugins => "plugins"
    case StreamLlmDeltas => "stream_llm_deltas"
    case ExposeMetadata => "expose_metadata"
    case ExposeAgentMetadata => "expose_agent_metadata"
    case Limits => "limits"
    case MaxPromptContextBytes => "max_prompt_context_bytes"
    case MaxOutputChars => "max_output_chars"
    case MaxToolIntents => "max_tool_intents"
    case MaxMemoryCandidates => "max_memory_candidates"
    case MaxLlmCalls => "max_llm_calls"
    case MaxSelfManagedToolCalls => "max_self_managed_tool_calls"
    case MaxSelfManagedMemorySearches => "max_self_managed_memory_searches"
    case ContextPolicy => "context_policy"
    case MaxContextBytes => "max_context_bytes"
    case Capabilities => "capabilities"
    case AllowedTools => "allowed_tools"
    case AllowedToolIntents => "allowed_tool_intents"
    case SearchEnabled => "search_enabled"
    case WriteEnabled => "write_enabled"
    case Answer => "answer"
    case Review => "review"
    case Stream => "stream"
    case MemoryRead => "memory_read"
    case MemoryWrite => "memory_write"
    case MemoryCandidateExtract => "memory_candidate_extract"
    case ToolIntents => "tool_intents"
    case ToolExecute => "tool_execute"
    case SelfManagedMemory => "self_managed_memory"
    case SelfManagedTools => "self_managed_tools"
    case Module => "module"
    case ClassName => "class_name"
  }

  function NameOf(key: Key): string {
    match key
    case Known(field) => FieldName(field)
    case Named(name) => name
  }

  /** The key a name in a file stands for. */
  function KeyOf(name: string): (key: Key)
    ensures NameOf(key) == name
  {
    if name == FieldName(Plugins) then Known(Plugins)
    else if name == FieldName(Defaults) then Known(Defaults)
    else KeyAmong(name, FIELDS)
  }

  function KeyAmong(name: string, fields: seq<Field>): (key: Key)
    ensures NameOf(key) == name
  {
    if fields == [] then Named(name)
    else if FieldName(fields[0]) == name then Known(fields[0])
    else KeyAmong(name, fields[1..])
  }
}
