/** The public form of session stream events: which events become frames, under which names and ids. */
module Sse {
  import opened Keys
  import opened Text
  import opened Values
  import EventStream

  datatype EventType =
    | ResponseStarted | ResponseDelta | ResponseMetadata
    | ArtifactStarted | ArtifactCompleted | ArtifactFailed
    | ResponseCompleted | ResponseError | Heartbeat

  function TypeName(eventType: EventType): string {
    match eventType
    case ResponseStarted => "response.started"
    case ResponseDelta => "response.delta"
    case ResponseMetadata => "response.metadata"
    case ArtifactStarted => "artifact.started"
    case ArtifactCompleted => "artifact.completed"
    case ArtifactFailed => "artifact.failed"
    case ResponseCompleted => "response.completed"
    case ResponseError => "response.error"
    case Heartbeat => "heartbeat"
  }

  /** The events, and frames, that end a stream. */
  predicate IsTerminal(eventType: EventType) {
    eventType.ResponseCompleted? || eventType.ResponseError?
  }

  datatype SessionEvent = SessionEvent(eventType: EventType, traceId: string, sessionId: string, data: Section)

  datatype Settings = Settings(sendTraceId: bool, sendMetadata: bool)

  /** A frame before its payload is turned into JSON text. */
  datatype Frame = Frame(event: EventType, payload: Section, id: Option<string>)

  const API_SCHEMA_VERSION: Value := Str("1.0")

  const SAFE_METADATA_KEYS: set<Key> := {
    Named("agent_name"), Named("strategy_name"), Known(LlmProfile), Named("usecase"),
    Named("tool_call_count"), Named("memory_result_count")
  }

  function Item(data: Section, name: string): Value {
    Get(data, Named(name))
  }

  /** The stripped text, unless it is blank or no text. */
  function AsText(value: Value): Option<string> {
    if HasNonBlank(value) then Some(Strip(value.text)) else None
  }

  function TextOr(value: Value, default: string): Value {
    Str(if AsText(value).Some? then AsText(value).value else default)
  }

  /** The text of a delta: `text`, or else `delta`; spaces are kept, an empty text is none. */
  function DeltaText(data: Section): Option<string> {
    var value := if Truthy(Item(data, "text")) then Item(data, "text") else Item(data, "delta");
    if value.Str? && value.text != "" then Some(value.text) else None
  }

  function WithTraceId(payload: Section, traceId: string, send: bool): Section {
    if send then payload[Named("trace_id") := Str(traceId)] else payload
  }

  function ErrorItem(code: Value, message: Value, retryable: bool): Value {
    Mapping(map[Named("code") := code, Named("message") := message, Named("retryable") := Bool(retryable)])
  }

  function ErrorPayload(event: SessionEvent): Section {
    var error := Item(event.data, "error");
    var source := if error.Mapping? then error.entries else event.data;
    map[
      Named("trace_id") := Str(event.traceId),
      Named("session_id") := Str(event.sessionId),
      Named("error") := ErrorItem(TextOr(Item(source, "code"), "backend_error"),
                                  TextOr(Item(source, "message"), "The request failed."),
                                  Truthy(Item(source, "retryable")))
    ]
  }

  function CompletedPayload(event: SessionEvent, settings: Settings): Section {
    var payload: Section := map[
      Named("session_id") := Str(event.sessionId),
      Named("finish_reason") := TextOr(Item(event.data, "finish_reason"), "stop")
    ];
    var duration := Item(event.data, "duration_ms");
    // A Python bool is an int too
    var timed := if duration.Number? || duration.Bool? then payload[Named("duration_ms") := duration] else payload;
    WithTraceId(timed, event.traceId, settings.sendTraceId)
  }

  function ArtifactId(data: Section): Option<string> {
    var own, artifact := AsText(Item(data, "artifact_id")), Item(data, "artifact");
    if own.Some? then own
    else if artifact.Mapping? then AsText(Item(artifact.entries, "artifact_id"))
    else None
  }

  const ARTIFACT_STARTED_ITEMS: seq<string> := ["artifact_id", "chart_type", "renderer", "spec_version", "data_mode"]

  function StartedTexts(data: Section): Section {
    map name | name in ARTIFACT_STARTED_ITEMS :: Named(name) := TextOr(Item(data, name), "")
  }

  /** The descriptor of a started artifact; None unless all of its texts are there. */
  function ArtifactStartedPayload(data: Section): Option<Section> {
    if exists name :: name in ARTIFACT_STARTED_ITEMS && AsText(Item(data, name)).None? then None
    else Some(StartedTexts(data)[Known(Type) := TextOr(Get(data, Known(Type)), "chart")])
  }

  function ArtifactFailedPayload(data: Section): Option<Section> {
    if ArtifactId(data).None? then None
    else
      var error := Item(data, "error");
      var source := if error.Mapping? then error.entries else data;
      var summary := map[
        Named("code") := TextOr(Item(source, "code"), "artifact_delivery_failed"),
        Named("message") := TextOr(Item(source, "message"), "The chart artifact could not be delivered.")
      ];
      Some(map[Named("artifact_id") := Str(ArtifactId(data).value), Named("error") := Mapping(summary)])
  }

  /** The public frame of an event, or None.  `project` is the public projection of an artifact. */
  function EncodeEvent(event: SessionEvent, settings: Settings, project: Section -> Option<Section>): Option<Frame> {
    match event.eventType
    case ResponseStarted =>
      var payload: Section :=
        map[Named("schema_version") := API_SCHEMA_VERSION, Named("session_id") := Str(event.sessionId)];
      Some(Frame(ResponseStarted, WithTraceId(payload, event.traceId, settings.sendTraceId), None))
    case ResponseDelta =>
      var text := DeltaText(event.data);
      if text.None? then None else Some(Frame(ResponseDelta, map[Named("text") := Str(text.value)], None))
    case ResponseMetadata =>
      if !settings.sendMetadata then None
      else
        Some(Frame(ResponseMetadata,
          map k | k in event.data && k in SAFE_METADATA_KEYS && event.data[k] != Null :: event.data[k], None))
    case ArtifactStarted =>
      var payload := ArtifactStartedPayload(event.data);
      if payload.None? then None else Some(Frame(ArtifactStarted, payload.value, ArtifactId(event.data)))
    case ArtifactCompleted =>
      var artifact := Item(event.data, "artifact");
      var public := if artifact.Mapping? then project(artifact.entries) else None;
      if public.None? then None
      else Some(Frame(ArtifactCompleted, map[Named("artifact") := Mapping(public.value)], ArtifactId(event.data)))
    case ArtifactFailed =>
      var payload := ArtifactFailedPayload(event.data);
      if payload.None? then None else Some(Frame(ArtifactFailed, payload.value, ArtifactId(event.data)))
    case ResponseCompleted => Some(Frame(ResponseCompleted, CompletedPayload(event, settings), None))
    case ResponseError => Some(Frame(ResponseError, ErrorPayload(event), None))
    case Heartbeat => Some(HeartbeatFrame(event.traceId, settings))
  }

  function HeartbeatFrame(traceId: string, settings: Settings): Frame {
    Frame(Heartbeat, WithTraceId(map[], traceId, settings.sendTraceId), None)
  }

  /** The error frame the route sends on its own account. */
  function StreamErrorFrame(traceId: string, sessionId: string): Frame {
    var payload := map[
      Named("trace_id") := Str(traceId),
      Named("error") := ErrorItem(Str("backend_error"), Str("The request failed."), true)
    ];
    Frame(ResponseError, if sessionId != "" then payload[Named("session_id") := Str(sessionId)] else payload, None)
  }

  /** The completed frame the route sends when the session stream ends without one. */
  function CompletedFrame(traceId: string, sessionId: string, durationMs: nat, settings: Settings): Frame {
    var payload: Section := map[
      Named("session_id") := Str(sessionId),
      Named("finish_reason") := Str("stop"),
      Named("duration_ms") := Number(durationMs as real)
    ];
    Frame(ResponseCompleted, WithTraceId(payload, traceId, settings.sendTraceId), None)
  }

  // ---------- what the encoder promises ----------

  /** A frame carries the name of its event, and an id only for artifacts: the id of the artifact.  An event that
      ends the stream always has a frame. */
  lemma FrameOfEvent(event: SessionEvent, settings: Settings, project: Section -> Option<Section>)
    ensures IsTerminal(event.eventType) ==> EncodeEvent(event, settings, project).Some?
    ensures EncodeEvent(event, settings, project).Some? ==>
      var frame := EncodeEvent(event, settings, project).value;
      && frame.event == event.eventType
      && frame.id == if event.eventType in {ArtifactStarted, ArtifactCompleted, ArtifactFailed}
                     then ArtifactId(event.data) else None
  {
    hide ErrorPayload, CompletedPayload, ArtifactStartedPayload, ArtifactFailedPayload, DeltaText, ArtifactId;
    hide SAFE_METADATA_KEYS, Item;
  }

  /** The names of items in these payloads are different texts. */
  lemma NamesOfItems()
    ensures "trace_id" != "session_id" && "trace_id" != "schema_version" && "trace_id" != "finish_reason"
    ensures "trace_id" != "duration_ms" && "trace_id" != "error"
    ensures "session_id" != "schema_version" && "session_id" != "finish_reason" && "session_id" != "duration_ms"
    ensures "session_id" != "error"
  {
    assert |"trace_id"| == 8 && |"session_id"| == 10 && |"schema_version"| == 14 && |"finish_reason"| == 13;
    assert |"duration_ms"| == 11 && |"error"| == 5;
  }

  /** The frames at the start and at the ends of a stream name its session, and its trace when the settings ask for
      it, an error frame in any case. */
  lemma FrameIdentifies(event: SessionEvent, settings: Settings, project: Section -> Option<Section>)
    requires event.eventType in {ResponseStarted, ResponseCompleted, ResponseError}
    ensures EncodeEvent(event, settings, project).Some?
    ensures var payload := EncodeEvent(event, settings, project).value.payload;
      && Item(payload, "session_id") == Str(event.sessionId)
      && Item(payload, "trace_id") ==
         if event.eventType.ResponseError? || settings.sendTraceId then Str(event.traceId) else Null
  {
    hide AsText, ArtifactStartedPayload, ArtifactFailedPayload, ArtifactId, DeltaText, TextOr;
    NamesOfItems();
  }

  /** The first frame tells the version, and a heartbeat only its trace, when the settings ask for it. */
  lemma PlainFramesShow(event: SessionEvent, settings: Settings, project: Section -> Option<Section>)
    ensures event.eventType.ResponseStarted? ==>
      var frame := EncodeEvent(event, settings, project);
      frame.Some? && Item(frame.value.payload, "schema_version") == Str("1.0")
    ensures event.eventType.Heartbeat? ==>
      EncodeEvent(event, settings, project) == Some(HeartbeatFrame(event.traceId, settings))
  {
    hide ArtifactStartedPayload, ArtifactFailedPayload, ArtifactId, DeltaText, CompletedPayload, ErrorPayload;
    NamesOfItems();
  }

  // ---------- what the frames show ----------

  /** A shown text: the given one, stripped, unless it is blank or no text at all. */
  ghost predicate Shows(shown: Value, given: Value, default: string) {
    shown == Str(if given.Str? && Strip(given.text) != "" then Strip(given.text) else default)
  }

  lemma TextOrShows(given: Value, default: string)
    ensures Shows(TextOr(given, default), given, default)
    ensures AsText(given).Some? <==> given.Str? && Strip(given.text) != ""
    ensures AsText(given).Some? ==> AsText(given).value == Strip(given.text)
  {
    hide Strip;
  }

  /** Where an error is told: in the item `error` if that is a mapping, otherwise in the event itself. */
  ghost predicate ToldIn(source: Section, data: Section) {
    source == if Item(data, "error").Mapping? then Item(data, "error").entries else data
  }

  /** An error item shows a code, a message and whether to try again, and nothing else. */
  ghost predicate ShowsError(error: Value, code: Value, message: Value, retryable: bool) {
    && error.Mapping? && error.entries.Keys == {Named("code"), Named("message"), Named("retryable")}
    && Item(error.entries, "code") == code && Item(error.entries, "message") == message
    && Item(error.entries, "retryable") == Bool(retryable)
  }

  /** An error frame shows the code, the message and the flag of the error that the event tells, or else an ordinary
      backend error, and nothing else of it. */
  lemma ErrorShown(event: SessionEvent, settings: Settings, project: Section -> Option<Section>, source: Section)
    requires event.eventType.ResponseError? && ToldIn(source, event.data)
    ensures EncodeEvent(event, settings, project).Some?
    ensures exists code, message ::
      && Shows(code, Item(source, "code"), "backend_error")
      && Shows(message, Item(source, "message"), "The request failed.")
      && ShowsError(Item(EncodeEvent(event, settings, project).value.payload, "error"), code, message,
                    Truthy(Item(source, "retryable")))
  {
    hide TextOr, Truthy, Shows, ErrorItem, ErrorPayload, Get, ShowsError, CompletedPayload, ArtifactFailedPayload;
    var code, message := Item(source, "code"), Item(source, "message");
    TextOrShows(code, "backend_error");
    TextOrShows(message, "The request failed.");
    ErrorPayloadHolds(event, source);
    ErrorItemHolds(TextOr(code, "backend_error"), TextOr(message, "The request failed."),
                   Truthy(Item(source, "retryable")));
  }

  lemma ErrorPayloadHolds(event: SessionEvent, source: Section)
    requires ToldIn(source, event.data)
    ensures Item(ErrorPayload(event), "error") == ErrorItem(
      TextOr(Item(source, "code"), "backend_error"), TextOr(Item(source, "message"), "The request failed."),
      Truthy(Item(source, "retryable")))
  {
    hide TextOr, Truthy, ErrorItem;
    assert |"trace_id"| == 8 && |"session_id"| == 10 && |"error"| == 5;
  }

  lemma ErrorItemHolds(code: Value, message: Value, retryable: bool)
    ensures ShowsError(ErrorItem(code, message, retryable), code, message, retryable)
  {
    assert |"code"| == 4 && |"message"| == 7 && |"retryable"| == 9;
  }

  /** The frame of a completed response shows its finish reason, `stop` if it gives none, and its duration if that is
      a number, or a flag. */
  lemma CompletedShown(event: SessionEvent, settings: Settings, project: Section -> Option<Section>)
    requires event.eventType.ResponseCompleted?
    ensures EncodeEvent(event, settings, project).Some?
    ensures var payload := EncodeEvent(event, settings, project).value.payload;
      var duration := Item(event.data, "duration_ms");
      && Shows(Item(payload, "finish_reason"), Item(event.data, "finish_reason"), "stop")
      && Item(payload, "duration_ms") == (if duration.Number? || duration.Bool? then duration else Null)
  {
    hide TextOr, Shows, CompletedPayload, ErrorPayload, Get, ArtifactFailedPayload;
    TextOrShows(Item(event.data, "finish_reason"), "stop");
    CompletedPayloadHolds(event, settings);
  }

  lemma CompletedPayloadHolds(event: SessionEvent, settings: Settings)
    ensures var payload := CompletedPayload(event, settings);
      var duration := Item(event.data, "duration_ms");
      && Item(payload, "finish_reason") == TextOr(Item(event.data, "finish_reason"), "stop")
      && Item(payload, "duration_ms") == (if duration.Number? || duration.Bool? then duration else Null)
  {
    hide TextOr;
    NamesOfItems();
    assert |"finish_reason"| == 13 && |"duration_ms"| == 11;
  }

  /** A delta is shown exactly when it has a text that is not empty: `text`, or `delta` where `text` is empty, null,
      or otherwise false. */
  lemma DeltaShown(event: SessionEvent, settings: Settings, project: Section -> Option<Section>, given: Value)
    requires event.eventType.ResponseDelta?
    requires given == Item(event.data, if Truthy(Item(event.data, "text")) then "text" else "delta")
    ensures EncodeEvent(event, settings, project).Some? <==> given.Str? && given.text != ""
    ensures EncodeEvent(event, settings, project).Some? ==>
      EncodeEvent(event, settings, project).value.payload == map[Named("text") := given]
  {
    hide Truthy, Get;
  }

  /** Metadata are shown only if the settings ask for them, and then exactly those with six names that are not null. */
  lemma MetadataShown(event: SessionEvent, settings: Settings, project: Section -> Option<Section>, key: Key)
    requires event.eventType.ResponseMetadata?
    ensures EncodeEvent(event, settings, project).Some? <==> settings.sendMetadata
    ensures settings.sendMetadata ==>
      var payload := EncodeEvent(event, settings, project).value.payload;
      && (key in payload <==> IsSafe(key) && Get(event.data, key) != Null)
      && (key in payload ==> payload[key] == event.data[key])
  {
  }

  ghost predicate IsSafe(key: Key) {
    || key == Known(LlmProfile)
    || (key.Named? && key.name in {"agent_name", "strategy_name", "usecase", "tool_call_count", "memory_result_count"})
  }

  /** The id of an artifact: its own, or else that of the artifact it carries, stripped, if there is one. */
  ghost predicate HasId(data: Section, id: string) {
    var own, artifact := Item(data, "artifact_id"), Item(data, "artifact");
    if own.Str? && Strip(own.text) != "" then id == Strip(own.text)
    else artifact.Mapping? && IsText(Item(artifact.entries, "artifact_id"), id)
  }

  ghost predicate IsText(value: Value, text: string) {
    value.Str? && text == Strip(value.text) && text != ""
  }

  lemma IdShown(data: Section, id: string)
    ensures ArtifactId(data) == Some(id) <==> HasId(data, id)
  {
    hide Get, Strip;
  }

  /** A started artifact is shown exactly when its five texts are there, and then as they are, stripped, with its
      type, or `chart` if it gives none. */
  lemma StartedShown(event: SessionEvent, settings: Settings, project: Section -> Option<Section>)
    requires event.eventType.ArtifactStarted?
    ensures EncodeEvent(event, settings, project).Some? <==> forall name :: IsDescriptor(name) ==>
      Item(event.data, name).Str? && Strip(Item(event.data, name).text) != ""
    ensures EncodeEvent(event, settings, project).Some? ==>
      var payload := EncodeEvent(event, settings, project).value.payload;
      && Shows(Get(payload, Known(Type)), Get(event.data, Known(Type)), "chart")
      && (forall name :: IsDescriptor(name) ==> Item(payload, name) == Str(Strip(Item(event.data, name).text)))
      && forall key :: key in payload ==> key == Known(Type) || (key.Named? && IsDescriptor(key.name))
  {
    hide Strip, ArtifactId, TextOr, AsText, ARTIFACT_STARTED_ITEMS;
    DescriptorsAre();
    TextOrShows(Get(event.data, Known(Type)), "chart");
    forall name | IsDescriptor(name)
      ensures Shows(TextOr(Item(event.data, name), ""), Item(event.data, name), "")
      ensures AsText(Item(event.data, name)).Some? <==>
        Item(event.data, name).Str? && Strip(Item(event.data, name).text) != ""
    {
      TextOrShows(Item(event.data, name), "");
    }
  }

  ghost predicate IsDescriptor(name: string) {
    name in {"artifact_id", "chart_type", "renderer", "spec_version", "data_mode"}
  }

  lemma DescriptorsAre()
    ensures forall name :: name in ARTIFACT_STARTED_ITEMS <==> IsDescriptor(name)
  {
    var items := ARTIFACT_STARTED_ITEMS;
    assert items[0] == "artifact_id" && items[1] == "chart_type" && items[2] == "renderer";
    assert items[3] == "spec_version" && items[4] == "data_mode";
  }

  /** A failed artifact is shown exactly when it has an id, with the code and the message of its error or else the
      ordinary ones. */
  lemma FailedShown(event: SessionEvent, settings: Settings, project: Section -> Option<Section>, source: Section)
    requires event.eventType.ArtifactFailed? && ToldIn(source, event.data)
    ensures EncodeEvent(event, settings, project).Some? <==> exists id :: HasId(event.data, id)
    ensures EncodeEvent(event, settings, project).Some? ==>
      ShowsFailure(EncodeEvent(event, settings, project).value.payload, event.data, source)
  {
    hide ShowsFailure, ArtifactId, HasId, ToldIn, ArtifactFailedPayload, ErrorPayload, CompletedPayload, Get;
    forall id ensures ArtifactId(event.data) == Some(id) <==> HasId(event.data, id) {
      IdShown(event.data, id);
    }
    FailedPayloadHolds(event.data, source);
  }

  ghost predicate ShowsFailure(payload: Section, data: Section, source: Section) {
    && payload.Keys == {Named("artifact_id"), Named("error")}
    && Item(payload, "artifact_id").Str? && HasId(data, Item(payload, "artifact_id").text)
    && ShowsSummary(Item(payload, "error"), source)
  }

  ghost predicate ShowsSummary(error: Value, source: Section) {
    && error.Mapping? && error.entries.Keys == {Named("code"), Named("message")}
    && Shows(Item(error.entries, "code"), Item(source, "code"), "artifact_delivery_failed")
    && Shows(Item(error.entries, "message"), Item(source, "message"), "The chart artifact could not be delivered.")
  }

  lemma FailedPayloadHolds(data: Section, source: Section)
    requires ToldIn(source, data)
    ensures ArtifactFailedPayload(data).Some? <==> ArtifactId(data).Some?
    ensures ArtifactFailedPayload(data).Some? ==> ShowsFailure(ArtifactFailedPayload(data).value, data, source)
  {
    hide ShowsSummary, TextOr, ArtifactId, HasId;
    SummaryHolds(source);
    if ArtifactId(data).Some? {
      IdShown(data, ArtifactId(data).value);
    }
    assert |"artifact_id"| == 11 && |"error"| == 5;
  }

  lemma SummaryHolds(source: Section)
    ensures ShowsSummary(
      Mapping(map[
        Named("code") := TextOr(Item(source, "code"), "artifact_delivery_failed"),
        Named("message") := TextOr(Item(source, "message"), "The chart artifact could not be delivered.")
      ]), source)
  {
    hide Shows, TextOr;
    TextOrShows(Item(source, "code"), "artifact_delivery_failed");
    TextOrShows(Item(source, "message"), "The chart artifact could not be delivered.");
    assert |"code"| == 4 && |"message"| == 7;
  }

  /** A completed artifact is shown exactly when it is a mapping with a public projection, and as that projection. */
  lemma ArtifactShown(event: SessionEvent, settings: Settings, project: Section -> Option<Section>)
    requires event.eventType.ArtifactCompleted?
    ensures var frame, artifact := EncodeEvent(event, settings, project), Item(event.data, "artifact");
      && (frame.Some? <==> artifact.Mapping? && project(artifact.entries).Some?)
      && (frame.Some? ==> frame.value.payload == map[Named("artifact") := Mapping(project(artifact.entries).value)])
  {
    hide Get, ArtifactId;
  }

  /** The frames the route makes on its own account: a heartbeat, a backend error, and an end without an event. */
  lemma OwnFramesShow(traceId: string, sessionId: string, durationMs: nat, settings: Settings)
    ensures var heartbeat := HeartbeatFrame(traceId, settings).payload;
      && (settings.sendTraceId ==> heartbeat == map[Named("trace_id") := Str(traceId)])
      && (!settings.sendTraceId ==> heartbeat == map[])
    ensures var payload := StreamErrorFrame(traceId, sessionId).payload;
      && Item(payload, "trace_id") == Str(traceId)
      && Item(payload, "session_id") == (if sessionId != "" then Str(sessionId) else Null)
      && ShowsError(Item(payload, "error"), Str("backend_error"), Str("The request failed."), true)
    ensures var payload := CompletedFrame(traceId, sessionId, durationMs, settings).payload;
      && Item(payload, "session_id") == Str(sessionId) && Item(payload, "finish_reason") == Str("stop")
      && Item(payload, "duration_ms") == Number(durationMs as real)
      && Item(payload, "trace_id") == (if settings.sendTraceId then Str(traceId) else Null)
  {
    hide ErrorItem, ShowsError;
    NamesOfItems();
    assert |"finish_reason"| == 13 && |"duration_ms"| == 11;
    ErrorItemHolds(Str("backend_error"), Str("The request failed."), true);
  }

  /** The entries of an event that its frame may depend on. */
  function PublicItems(eventType: EventType): set<Key> {
    match eventType
    case ResponseStarted => {}
    case ResponseDelta => {Named("text"), Named("delta")}
    case ResponseMetadata => SAFE_METADATA_KEYS
    case ArtifactStarted =>
      (set name | name in ARTIFACT_STARTED_ITEMS :: Named(name)) + {Known(Type), Named("artifact")}
    case ArtifactCompleted => {Named("artifact"), Named("artifact_id")}
    case ArtifactFailed => {Named("artifact_id"), Named("artifact"), Named("error"), Named("code"), Named("message")}
    case ResponseCompleted => {Named("finish_reason"), Named("duration_ms")}
    case ResponseError => {Named("error"), Named("code"), Named("message"), Named("retryable")}
    case Heartbeat => {}
  }

  /** The two entry maps agree on a set of keys, a missing key counting as null. */
  ghost predicate AgreeOn(keys: set<Key>, data: Section, other: Section) {
    forall k :: k in keys ==> Get(other, k) == Get(data, k)
  }

  /** Whatever else an event holds does not get out: two events of the same kind, trace and session that agree on the
      public entries have the same frame, or neither has one. */
  lemma NothingElseIsShown(
    event: SessionEvent, other: Section, settings: Settings, project: Section -> Option<Section>)
    requires AgreeOn(PublicItems(event.eventType), event.data, other)
    ensures EncodeEvent(event.(data := other), settings, project) == EncodeEvent(event, settings, project)
  {
    hide ArtifactStartedPayload, ArtifactFailedPayload, ArtifactId, ErrorPayload, CompletedPayload, DeltaText, AgreeOn;
    hide PublicItems, Item, Get, SAFE_METADATA_KEYS, WithTraceId;
    match event.eventType {
      case ResponseDelta => SameDelta(event.data, other);
      case ResponseMetadata => SameMetadata(event.data, other);
      case ArtifactStarted => SameStarted(event.data, other);
      case ArtifactCompleted => SameArtifactId(event.eventType, event.data, other);
      case ArtifactFailed => SameFailed(event.data, other);
      case ResponseCompleted => SameCompleted(event, other, settings);
      case ResponseError => SameError(event, other);
      case _ =>
    }
  }

  lemma SameDelta(data: Section, other: Section)
    requires AgreeOn(PublicItems(ResponseDelta), data, other)
    ensures DeltaText(other) == DeltaText(data)
  {
    hide Get;
    assert Named("text") in PublicItems(ResponseDelta) && Named("delta") in PublicItems(ResponseDelta);
  }

  lemma SameMetadata(data: Section, other: Section)
    requires AgreeOn(PublicItems(ResponseMetadata), data, other)
    ensures (map k | k in other && k in SAFE_METADATA_KEYS && other[k] != Null :: other[k])
         == (map k | k in data && k in SAFE_METADATA_KEYS && data[k] != Null :: data[k])
  {
    hide SAFE_METADATA_KEYS;
    var one := map k | k in data && k in SAFE_METADATA_KEYS && data[k] != Null :: data[k];
    var two := map k | k in other && k in SAFE_METADATA_KEYS && other[k] != Null :: other[k];
    assert forall k :: k in SAFE_METADATA_KEYS ==> Get(other, k) == Get(data, k);
    assert forall k :: k in one <==> k in two;
    assert one == two;
  }

  /** Both kinds of finished artifacts, and the started one, take their id from the same two entries. */
  lemma SameArtifactId(kind: EventType, data: Section, other: Section)
    requires kind in {ArtifactStarted, ArtifactCompleted, ArtifactFailed}
    requires AgreeOn(PublicItems(kind), data, other)
    ensures ArtifactId(other) == ArtifactId(data) && Item(other, "artifact") == Item(data, "artifact")
  {
    hide Get, AsText;
    IdItemsArePublic(kind);
  }

  lemma IdItemsArePublic(kind: EventType)
    requires kind in {ArtifactStarted, ArtifactCompleted, ArtifactFailed}
    ensures Named("artifact_id") in PublicItems(kind) && Named("artifact") in PublicItems(kind)
  {
    assert ARTIFACT_STARTED_ITEMS[0] == "artifact_id";
  }

  lemma SameStarted(data: Section, other: Section)
    requires AgreeOn(PublicItems(ArtifactStarted), data, other)
    ensures ArtifactStartedPayload(other) == ArtifactStartedPayload(data)
    ensures ArtifactId(other) == ArtifactId(data)
  {
    SameArtifactId(ArtifactStarted, data, other);
    hide Get, AsText, TextOr, ARTIFACT_STARTED_ITEMS, ArtifactId;
    assert Get(other, Known(Type)) == Get(data, Known(Type));
    forall name | name in ARTIFACT_STARTED_ITEMS ensures Item(other, name) == Item(data, name) {
      assert Named(name) in PublicItems(ArtifactStarted);
    }
    StartedByItems(data, other);
  }

  lemma StartedByItems(data: Section, other: Section)
    requires Get(other, Known(Type)) == Get(data, Known(Type))
    requires forall name :: name in ARTIFACT_STARTED_ITEMS ==> Item(other, name) == Item(data, name)
    ensures ArtifactStartedPayload(other) == ArtifactStartedPayload(data)
  {
    hide Get, Item, AsText, TextOr, ARTIFACT_STARTED_ITEMS;
    var one, two := StartedTexts(data), StartedTexts(other);
    assert forall k :: k in one <==> k in two;
    assert one == two;
  }

  lemma SameFailed(data: Section, other: Section)
    requires AgreeOn(PublicItems(ArtifactFailed), data, other)
    ensures ArtifactFailedPayload(other) == ArtifactFailedPayload(data)
    ensures ArtifactId(other) == ArtifactId(data)
  {
    SameArtifactId(ArtifactFailed, data, other);
    hide Get, AsText, TextOr, ArtifactId;
    assert Named("error") in PublicItems(ArtifactFailed) && Named("code") in PublicItems(ArtifactFailed);
    assert Named("message") in PublicItems(ArtifactFailed);
  }

  lemma SameCompleted(event: SessionEvent, other: Section, settings: Settings)
    requires AgreeOn(PublicItems(ResponseCompleted), event.data, other)
    ensures CompletedPayload(event.(data := other), settings) == CompletedPayload(event, settings)
  {
    hide Get, TextOr, WithTraceId;
    assert Named("finish_reason") in PublicItems(ResponseCompleted);
    assert Named("duration_ms") in PublicItems(ResponseCompleted);
  }

  lemma SameError(event: SessionEvent, other: Section)
    requires AgreeOn(PublicItems(ResponseError), event.data, other)
    ensures ErrorPayload(event.(data := other)) == ErrorPayload(event)
  {
    hide Get, TextOr, ErrorItem, Truthy;
    assert Named("error") in PublicItems(ResponseError) && Named("code") in PublicItems(ResponseError);
    assert Named("message") in PublicItems(ResponseError) && Named("retryable") in PublicItems(ResponseError);
  }

  /** The wire form of a frame, for a given printer of JSON text. */
  function Wire(frame: Frame, json: Section -> string): EventStream.Frame {
    EventStream.Frame(TypeName(frame.event), json(frame.payload), frame.id)
  }

  function WireAll(frames: seq<Frame>, json: Section -> string): seq<EventStream.Frame> {
    seq(|frames|, i requires 0 <= i < |frames| => Wire(frames[i], json))
  }

  /** Whatever frames are sent, a client that follows the standard reads their names, payload texts and ids in
      order, provided the JSON text and the ids are single lines. */
  lemma SentIsReceived(frames: seq<Frame>, json: Section -> string)
    requires forall payload :: EventStream.OneLine(json(payload))
    requires forall frame :: frame in frames && frame.id.Some? ==> EventStream.OneLine(frame.id.value)
    ensures EventStream.Parse(EventStream.PrintAll(WireAll(frames, json)))
      == EventStream.Messages(WireAll(frames, json), "")
  {
    forall wire | wire in WireAll(frames, json) ensures EventStream.Printable(wire) {
      var i :| 0 <= i < |frames| && wire == Wire(frames[i], json);
      NameIsOneLine(frames[i].event);
      assert frames[i] in frames;
    }
    EventStream.ParsePrinted(WireAll(frames, json));
  }

  /** With ids free of NUL, that is so exactly when all ids are single lines. */
  lemma SentIsReceivedIff(frames: seq<Frame>, json: Section -> string)
    requires forall payload :: EventStream.OneLine(json(payload))
    requires forall frame :: frame in frames && frame.id.Some? ==> '\0' !in frame.id.value
    ensures EventStream.Parse(EventStream.PrintAll(WireAll(frames, json)))
      == EventStream.Messages(WireAll(frames, json), "")
      <==> forall frame :: frame in frames && frame.id.Some? ==> EventStream.OneLine(frame.id.value)
  {
    hide TypeName;
    var wires := WireAll(frames, json);
    forall wire | wire in wires
      ensures EventStream.OneLine(wire.event) && EventStream.OneLine(wire.data)
      ensures wire.id.Some? ==> '\0' !in wire.id.value
    {
      var i :| 0 <= i < |frames| && wire == Wire(frames[i], json);
      NameIsOneLine(frames[i].event);
      assert frames[i] in frames;
    }
    EventStream.StreamReadBackIff(wires);
    if forall wire :: wire in wires ==> EventStream.IdOneLine(wire) {
      forall frame | frame in frames && frame.id.Some? ensures EventStream.OneLine(frame.id.value) {
        var i :| 0 <= i < |frames| && frames[i] == frame;
        assert wires[i] in wires;
      }
    } else {
      var wire :| wire in wires && !EventStream.IdOneLine(wire);
      var i :| 0 <= i < |frames| && wire == Wire(frames[i], json);
      assert frames[i] in frames;
    }
  }

  /** Frame by frame: what is received has the name and the payload text of what was sent. */
  lemma ReceivedInOrder(frames: seq<Frame>, json: Section -> string)
    requires forall payload :: EventStream.OneLine(json(payload))
    requires forall frame :: frame in frames && frame.id.Some? ==> EventStream.OneLine(frame.id.value)
    ensures var received := EventStream.Parse(EventStream.PrintAll(WireAll(frames, json)));
      && |received| == |frames|
      && forall i :: 0 <= i < |frames| ==>
        received[i].event == TypeName(frames[i].event) && received[i].data == json(frames[i].payload)
  {
    hide TypeName;
    SentIsReceived(frames, json);
    EventStream.MessagesInOrder(WireAll(frames, json), "");
    forall i | 0 <= i < |frames| ensures EventStream.EventName(WireAll(frames, json)[i]) == TypeName(frames[i].event) {
      NamesDiffer(frames[i].event, ResponseCompleted);
    }
  }

  /** The name of an event tells its subject and its stage. */
  lemma NameTells(eventType: EventType)
    ensures TypeName(eventType) ==
      if eventType.Heartbeat? then "heartbeat" else Subject(eventType) + "." + Stage(eventType)
  {
    match eventType {
      case ResponseStarted => assert TypeName(eventType) == "response" + "." + "started";
      case ResponseDelta => assert TypeName(eventType) == "response" + "." + "delta";
      case ResponseMetadata => assert TypeName(eventType) == "response" + "." + "metadata";
      case ArtifactStarted => assert TypeName(eventType) == "artifact" + "." + "started";
      case ArtifactCompleted => assert TypeName(eventType) == "artifact" + "." + "completed";
      case ArtifactFailed => assert TypeName(eventType) == "artifact" + "." + "failed";
      case ResponseCompleted => assert TypeName(eventType) == "response" + "." + "completed";
      case ResponseError => assert TypeName(eventType) == "response" + "." + "error";
      case Heartbeat =>
    }
  }

  /** A stream ends with two stages of a response, and those only. */
  lemma TerminalStages(eventType: EventType)
    ensures IsTerminal(eventType) <==> eventType == ResponseError || TypeName(eventType) == "response.completed"
  {
    if eventType != ResponseCompleted {
      NamesDiffer(eventType, ResponseCompleted);
    }
  }

  ghost function Subject(eventType: EventType): string {
    if eventType in {ArtifactStarted, ArtifactCompleted, ArtifactFailed} then "artifact" else "response"
  }

  ghost function Stage(eventType: EventType): string {
    if eventType in {ResponseStarted, ArtifactStarted} then "started"
    else if eventType in {ResponseCompleted, ArtifactCompleted} then "completed"
    else if eventType.ArtifactFailed? then "failed"
    else if eventType.ResponseError? then "error"
    else if eventType.ResponseDelta? then "delta"
    else "metadata"
  }

  lemma NamesDiffer(one: EventType, other: EventType)
    ensures TypeName(one) != ""
    ensures one != other ==> TypeName(one) != TypeName(other)
  {
  }

  lemma NameIsOneLine(eventType: EventType)
    ensures EventStream.OneLine(TypeName(eventType))
  {
  }
}
