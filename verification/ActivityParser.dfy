/**
 How a runtime event becomes activity: two tool vocabularies, one of which an
 adapter in a strict mode may not speak, and the one place where a malformed
 frame is refused.
 */
module ActivityParser {
  import opened Json
  import opened Options
  import opened Utf8
  import Observation

  const MAX_TOOL_COUNT: nat := 1024

  datatype Mode = Detailed | CountOnly | Mixed

  datatype Source = Session | Telemetry | Runtime

  datatype ToolKind = ReadTool | BashTool | OtherTool

  datatype SampleKind =
    | ReasoningDelta
    | TextDelta
    | Started(kind: ToolKind, count: nat)
    | Completed
    | Failed

  datatype Transition =
    | ModelStarted
    | ModelCompleted
    | ToolScheduled
    | ToolStarted
    | ToolCompleted
    | ToolFailed
    | PermissionRequested
    | PermissionResolved
    | TurnStarted
    | TurnCompleted
    | TurnFailed

  datatype Parsed = Parsed(
    source: Source,
    identity: Option<string>,
    sample: Option<SampleKind>,
    textDelta: Option<string>,
    transition: Option<Transition>,
    requestId: Option<string>,
    toolCallId: Option<string>,
    toolKind: ToolKind,
    telemetryKnown: bool,
    terminalResponse: Option<string>,
    descriptor: Option<Observation.Descriptor>)

  // What the driver hands to the tracker.
  datatype RuntimeEvent =
    | Event(rpc: string, params: Value)
    | UnknownEvent(rpc: string, raw: Value)
    | Request(rpc: string, params: Value)
    | Unreadable                          // a malformed or oversized line
    | Other

  function Nothing(source: Source): Parsed {
    Parsed(source, None, None, None, None, None, None, OtherTool, true, None, None)
  }

  function ActivityId(v: Option<Value>): Option<string> {
    Observation.ValidId(v)
  }

  function Classify(v: Option<Value>): ToolKind {
    var name := AsText(v);
    if name == Some("Read") || name == Some("read") then ReadTool
    else if name == Some("Bash") || name == Some("bash") then BashTool
    else OtherTool
  }

  function Named(prefix: string, id: Option<string>, suffix: string): Option<string> {
    if id.Some? then Some(prefix + id.value + suffix) else None
  }

  function Either(a: Option<string>, b: Option<string>): Option<string> {
    if a.Some? then a else b
  }

  function OrEmpty(a: Option<string>): string {
    if a.Some? then a.value else ""
  }

  // ---------- The parts of a frame ----------

  function ParseModel(parsed: Parsed, payload: Value, started: bool): Parsed {
    var id := ActivityId(Get(payload, "requestId"));
    parsed.(
      requestId := id,
      identity := Named("model:", id, if started then ":started" else ":completed"),
      transition := Some(if started then ModelStarted else ModelCompleted))
  }

  function ParsePermission(parsed: Parsed, payload: Value, requested: bool): Parsed {
    var id := ActivityId(Get(payload, "requestId"));
    parsed.(
      requestId := id,
      toolCallId := ActivityId(Get(payload, "toolCallId")),
      toolKind := Classify(Get(payload, "toolName")),
      identity := Named("permission:", id, if requested then ":requested" else ":resolved"),
      transition := Some(if requested then PermissionRequested else PermissionResolved))
  }

  // The phase a tool frame names, and whether it is one the daemon knows.
  function Phase(name: Option<string>): (Option<Transition>, bool) {
    if name.None? then (None, true)
    else if name.value == "scheduled" then (Some(ToolScheduled), true)
    else if name.value == "started" then (Some(ToolStarted), true)
    else if name.value == "result" || name.value == "tool_result" || name.value == "completed" then
      (Some(ToolCompleted), true)
    else if name.value == "error" || name.value == "tool_error" || name.value == "failed" then
      (Some(ToolFailed), true)
    else (None, name.value == "batch")
  }

  function PhaseName(t: Transition): string {
    match t
    case ToolScheduled => ":scheduled"
    case ToolStarted => ":started"
    case ToolCompleted => ":completed"
    case _ => ":failed"
  }

  function PhaseSample(t: Transition, kind: ToolKind): Option<SampleKind> {
    match t
    case ToolStarted => Some(Started(kind, 1))
    case ToolCompleted => Some(Completed)
    case ToolFailed => Some(Failed)
    case _ => None
  }

  function ParseTool(parsed: Parsed, payload: Value, source: Source): Parsed {
    var (phase, known) := Phase(GetText(payload, if source.Telemetry? then "phase" else "kind"));
    var id := ActivityId(Get(payload, "toolCallId"));
    var kind := Classify(Get(payload, "toolName"));
    var read := parsed.(
      telemetryKnown := parsed.telemetryKnown && (known || !source.Telemetry?),
      toolCallId := id,
      toolKind := kind,
      transition := phase);
    if id.Some? && phase.Some? then
      read.(
        identity := Named("tool:", id, PhaseName(phase.value)),
        sample := PhaseSample(phase.value, kind))
    else read
  }

  // A call id for a count event, which has none of its own.
  function CountCallId(eventId: string): string {
    var id := "count:" + eventId;
    if Bytes(id) <= Observation.MAX_ID_BYTES then id else eventId
  }

  function ParseToolCount(parsed: Parsed, payload: Value, eventId: Option<string>, turn: Option<string>): Parsed {
    var count := AsNat(Get(payload, "count"));
    if count.None? || !(1 <= count.value <= MAX_TOOL_COUNT) || eventId.None? then parsed else
    var identity := "tool:" + eventId.value + ":count";
    var tool := GetText(payload, "tool");
    var descriptor :=
      if tool.None? then parsed.descriptor
      else Some(Observation.Descriptor(
        OrEmpty(turn), CountCallId(eventId.value), tool.value, OrEmpty(turn) + ":" + identity,
        None, Some(OrEmpty(GetText(payload, "detail")))));
    parsed.(
      identity := Some(identity),
      descriptor := descriptor,
      sample := Some(Started(OtherTool, count.value)))
  }

  function ParseDescriptor(parsed: Parsed, params: Value, payload: Value): Parsed {
    var id, tool, input := ActivityId(Get(payload, "toolCallId")), GetText(payload, "toolName"), Get(payload, "input");
    if id.None? || tool.None? || input.None? || parsed.identity.None? then parsed
    else parsed.(descriptor := Some(Observation.Descriptor(
      OrEmpty(ActivityId(Get(params, "turnId"))), id.value, tool.value, parsed.identity.value, input, None)))
  }

  // ---------- Whole frames ----------

  predicate IsToolUpdate(kind: Option<string>) {
    kind == Some("tool.updated") || kind == Some("streamRecovery.updated")
  }

  function ParseToolUpdate(parsed: Parsed, params: Value, payload: Value, source: Source, mode: Mode): Parsed {
    var kind := GetText(payload, "kind");
    if kind == Some("count") then
      if mode.Detailed? then parsed
      else ParseToolCount(parsed, payload, ActivityId(Get(params, "eventId")), ActivityId(Get(params, "turnId")))
    else if mode.CountOnly? then parsed
    else
      var tool := ParseTool(parsed, payload, source);
      if kind == Some("started") then ParseDescriptor(tool, params, payload) else tool
  }

  function PayloadOf(params: Value): Value {
    var payload := Get(params, "payload");
    if payload.Some? then payload.value else Null
  }

  function ParseSession(parsed: Parsed, params: Value, source: Source, mode: Mode): Parsed {
    var kind := GetText(params, "type");
    var payload := PayloadOf(params);
    var payloadKind, payloadType := GetText(payload, "kind"), GetText(payload, "type");
    var event, turn := ActivityId(Get(params, "eventId")), ActivityId(Get(params, "turnId"));
    if kind == Some("model.streaming") then
      if payloadKind == Some("reasoning_delta") then
        parsed.(identity := Named("stream:", event, ""), sample := Some(ReasoningDelta))
      else if payloadKind == Some("text_delta") then
        parsed.(
          identity := Named("stream:", event, ""),
          sample := Some(TextDelta),
          textDelta := GetText(payload, "delta"))
      else parsed
    else if IsToolUpdate(kind) then ParseToolUpdate(parsed, params, payload, source, mode)
    else if kind == Some("session.updated") && payloadType == Some("model_request_started") then
      ParseModel(parsed, payload, true)
    else if kind == Some("session.updated") && payloadType == Some("model_request_completed") then
      ParseModel(parsed, payload, false)
    else if kind == Some("permission.requested") then ParsePermission(parsed, payload, true)
    else if kind == Some("permission.resolved") then ParsePermission(parsed, payload, false)
    else if kind == Some("turn.started") then
      parsed.(transition := Some(TurnStarted), identity := Named("turn:", Either(event, turn), ":started"))
    else if kind == Some("turn.completed") then
      parsed.(
        transition := Some(TurnCompleted),
        terminalResponse := GetText(payload, "response"),
        identity := Named("turn:", Either(event, turn), ":completed"))
    else if kind == Some("turn.failed") then
      parsed.(transition := Some(TurnFailed), identity := Named("turn:", Either(event, turn), ":failed"))
    else parsed
  }

  function ParseTelemetry(parsed: Parsed, params: Value, source: Source, mode: Mode): Parsed {
    var kind := GetText(params, "kind");
    var unknown := parsed.(telemetryKnown := false);
    if kind == Some("stream.chunk") then
      var channel := GetText(params, "channel");
      var chunk := parsed.(identity := Named("stream:", ActivityId(Get(params, "eventId")), ""));
      if channel == Some("thought") then chunk.(sample := Some(ReasoningDelta))
      else if channel == Some("text") then chunk.(sample := Some(TextDelta))
      else unknown
    else if kind == Some("tool.lifecycle") then
      if mode.CountOnly? then parsed else ParseTool(parsed, params, source)
    else if kind == Some("model.request.status") then
      var status := GetText(params, "status");
      if status == Some("model_request_started") then ParseModel(parsed, params, true)
      else if status == Some("model_request_completed") then ParseModel(parsed, params, false)
      else unknown
    else if kind == Some("permission.lifecycle") then
      var phase := GetText(params, "phase");
      if phase == Some("requested") then ParsePermission(parsed, params, true)
      else if phase == Some("resolved") then ParsePermission(parsed, params, false)
      else unknown
    else if kind == Some("turn.started") then parsed.(transition := Some(TurnStarted))
    else if kind == Some("turn.completed") then parsed.(transition := Some(TurnCompleted))
    else if kind == Some("turn.failed") then parsed.(transition := Some(TurnFailed))
    else if kind == Some("usage.delta") then parsed
    else unknown
  }

  function ParseMessage(rpc: string, params: Value, source: Source, mode: Mode): Parsed {
    var parsed := Nothing(source);
    if rpc == "session/event" then
      ParseSession(parsed.(telemetryKnown := !source.Telemetry?), params, source, mode)
    else if rpc == "v4/telemetry/event" then ParseTelemetry(parsed, params, source, mode)
    else parsed.(telemetryKnown := !source.Telemetry?)
  }

  predicate IsInteraction(rpc: string) {
    || rpc == "interaction/requestPermission"
    || rpc == "interaction/requestUserInput"
    || rpc == "interaction/unsupportedInput"
  }

  function UnknownSource(rpc: string): Source {
    if rpc == "v4/telemetry/event" then Telemetry else if rpc == "session/event" then Session else Runtime
  }

  function RawParams(raw: Value): Value {
    var params := Get(raw, "params");
    if params.Some? then params.value else Null
  }

  function Parse(e: RuntimeEvent, mode: Mode): Parsed {
    match e
    case Event(rpc, params) => ParseMessage(rpc, params, Session, mode)
    case UnknownEvent(rpc, raw) => ParseMessage(rpc, RawParams(raw), UnknownSource(rpc), mode)
    case Request(rpc, params) =>
      if IsInteraction(rpc) then
        ParsePermission(Nothing(Runtime), params, true)
      else Nothing(Runtime)
    case _ => Nothing(Runtime)
  }

  // ---------- What the gate does ----------

  // The tool vocabulary a message speaks, if any.
  datatype Vocabulary = NoTool | DetailedTool | CountTool

  function Speaks(rpc: string, params: Value): Vocabulary {
    if rpc == "session/event" && IsToolUpdate(GetText(params, "type")) then
      if GetText(PayloadOf(params), "kind") == Some("count") then CountTool else DetailedTool
    else if rpc == "v4/telemetry/event" && GetText(params, "kind") == Some("tool.lifecycle") then DetailedTool
    else NoTool
  }

  // A message in a vocabulary the mode does not accept.
  predicate IsForeign(e: RuntimeEvent, mode: Mode) {
    var vocabulary :=
      match e
      case Event(rpc, params) => Speaks(rpc, params)
      case UnknownEvent(rpc, raw) => Speaks(rpc, RawParams(raw))
      case _ => NoTool;
    (mode.Detailed? && vocabulary.CountTool?) || (mode.CountOnly? && vocabulary.DetailedTool?)
  }

  // A parse result that stands for no activity.
  ghost predicate IsSilent(p: Parsed) {
    p.sample.None? && p.textDelta.None? && p.transition.None? && p.terminalResponse.None? && p.descriptor.None?
    && (p.source.Telemetry? ==> p.telemetryKnown)
  }

  lemma {:induction false} GateSilencesMessage(rpc: string, params: Value, source: Source, mode: Mode)
    requires source.Telemetry? ==> rpc == "v4/telemetry/event"
    ensures
      var foreign :=
        (mode.Detailed? && Speaks(rpc, params).CountTool?) || (mode.CountOnly? && Speaks(rpc, params).DetailedTool?);
      && (foreign ==> IsSilent(ParseMessage(rpc, params, source, mode)))
      && (!foreign ==> ParseMessage(rpc, params, source, mode) == ParseMessage(rpc, params, source, Mixed))
  {
    hide Get, GetText, PayloadOf, ParseTool, ParseToolCount, ParseDescriptor, ParseModel, ParsePermission,
         ActivityId, Named, Either;
  }

  /** A strict mode silences exactly the foreign frames and reads every other
      frame as the mixed mode does. */
  lemma {:induction false} GateSilencesForeign(e: RuntimeEvent, mode: Mode)
    ensures IsForeign(e, mode) ==> IsSilent(Parse(e, mode))
    ensures !IsForeign(e, mode) ==> Parse(e, mode) == Parse(e, Mixed)
  {
    hide ParseMessage, Speaks, ParsePermission;
    match e
    case Event(rpc, params) => GateSilencesMessage(rpc, params, Session, mode);
    case UnknownEvent(rpc, raw) => GateSilencesMessage(rpc, RawParams(raw), UnknownSource(rpc), mode);
    case _ =>
  }

  // ---------- What every parse result satisfies ----------

  predicate Weighed(sample: Option<SampleKind>) {
    sample.Some? && sample.value.Started? ==> 1 <= sample.value.count <= MAX_TOOL_COUNT
  }

  predicate StartsTool(transition: Option<Transition>) {
    transition == Some(ToolScheduled) || transition == Some(ToolStarted)
  }

  predicate IsToolPhase(transition: Option<Transition>) {
    transition.Some? ==>
      transition.value.ToolStarted? || transition.value.ToolCompleted? || transition.value.ToolFailed?
  }

  ghost predicate WellFormed(p: Parsed, mode: Mode) {
    && Weighed(p.sample)
    && (p.sample.Some? ==> IsToolPhase(p.transition))
    && (mode.CountOnly? ==> !StartsTool(p.transition))
    && (p.descriptor.Some? ==> '\0' !in p.descriptor.value.turn)
  }

  predicate Blank(p: Parsed) {
    p.sample.None? && p.transition.None? && p.descriptor.None?
  }

  lemma {:induction false} IdIsNulFree(v: Option<Value>)
    ensures '\0' !in OrEmpty(ActivityId(v))
  {
  }

  lemma {:induction false} ToolIsWellFormed(parsed: Parsed, payload: Value, source: Source, mode: Mode)
    requires Blank(parsed) && !mode.CountOnly?
    ensures WellFormed(ParseTool(parsed, payload, source), mode)
    ensures ParseTool(parsed, payload, source).descriptor.None?
  {
    hide GetText, ActivityId, Named, Classify, Phase;
  }

  lemma {:induction false} CountIsWellFormed(
    parsed: Parsed, payload: Value, eventId: Option<string>, turn: Option<string>, mode: Mode)
    requires Blank(parsed) && '\0' !in OrEmpty(turn)
    ensures WellFormed(ParseToolCount(parsed, payload, eventId, turn), mode)
  {
    hide GetText, Get, AsNat, CountCallId;
  }

  lemma {:induction false} DescriptorIsWellFormed(parsed: Parsed, params: Value, payload: Value, mode: Mode)
    requires WellFormed(parsed, mode)
    ensures WellFormed(ParseDescriptor(parsed, params, payload), mode)
  {
    hide GetText, Get, ActivityId, Weighed, IsToolPhase, StartsTool;
    IdIsNulFree(Get(params, "turnId"));
  }

  lemma {:induction false} ToolUpdateIsWellFormed(
    parsed: Parsed, params: Value, payload: Value, source: Source, mode: Mode)
    requires Blank(parsed)
    ensures WellFormed(ParseToolUpdate(parsed, params, payload, source, mode), mode)
  {
    hide GetText, ActivityId, OrEmpty, ParseTool, ParseToolCount, ParseDescriptor;
    if !mode.CountOnly? {
      ToolIsWellFormed(parsed, payload, source, mode);
      DescriptorIsWellFormed(ParseTool(parsed, payload, source), params, payload, mode);
    }
    IdIsNulFree(Get(params, "turnId"));
    CountIsWellFormed(
      parsed, payload, ActivityId(Get(params, "eventId")), ActivityId(Get(params, "turnId")), mode);
  }

  lemma {:induction false} SessionIsWellFormed(parsed: Parsed, params: Value, source: Source, mode: Mode)
    requires Blank(parsed)
    ensures WellFormed(ParseSession(parsed, params, source, mode), mode)
  {
    hide Get, GetText, PayloadOf, ActivityId, Named, Either, Classify, ParseToolUpdate;
    ToolUpdateIsWellFormed(parsed, params, PayloadOf(params), source, mode);
  }

  lemma {:induction false} TelemetryIsWellFormed(parsed: Parsed, params: Value, source: Source, mode: Mode)
    requires Blank(parsed)
    ensures WellFormed(ParseTelemetry(parsed, params, source, mode), mode)
  {
    hide Get, GetText, ActivityId, Named, Classify, ParseTool;
    if !mode.CountOnly? {
      ToolIsWellFormed(parsed, params, source, mode);
    }
  }

  /** No frame counts for nothing or for more than the bound, a frame that is
      sampled is at most a phase of a tool, a count-only adapter starts no tool,
      and every descriptor has a splittable turn. */
  lemma {:induction false} ParsedIsWellFormed(e: RuntimeEvent, mode: Mode)
    ensures WellFormed(Parse(e, mode), mode)
  {
    hide ParseSession, ParseTelemetry, Get, ActivityId, Named, Classify;
    match e
    case Event(rpc, params) =>
      SessionIsWellFormed(Nothing(Session), params, Session, mode);
      TelemetryIsWellFormed(Nothing(Session), params, Session, mode);
    case UnknownEvent(rpc, raw) =>
      var source := UnknownSource(rpc);
      SessionIsWellFormed(Nothing(source).(telemetryKnown := !source.Telemetry?), RawParams(raw), source, mode);
      TelemetryIsWellFormed(Nothing(source), RawParams(raw), source, mode);
    case _ =>
  }
}
