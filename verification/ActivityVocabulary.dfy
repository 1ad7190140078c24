/**
 The vocabulary of the runtime events as word tables: first what form of event a
 message is, then, field by field, what an event of that form means. The parser is
 proved to agree with the tables in every field.
 */
module ActivityVocabulary {
  import opened Json
  import opened Options
  import opened ActivityParser
  import opened ActivityTracker
  import Observation
  import ObservationFrames
  import Utf8

  // ---------- The tables ----------

  const STREAMS: map<string, SampleKind> := map["reasoning_delta" := ReasoningDelta, "text_delta" := TextDelta]

  const CHANNELS: map<string, SampleKind> := map["thought" := ReasoningDelta, "text" := TextDelta]

  // What the types of events say, as one word, and what the words stand for.
  const MODEL_EVENTS: map<string, string> :=
    map["model_request_started" := "started", "model_request_completed" := "completed"]

  const PERMISSION_EVENTS: map<string, string> :=
    map["permission.requested" := "requested", "permission.resolved" := "resolved"]

  const TURN_EVENTS: map<string, string> :=
    map["turn.started" := "started", "turn.completed" := "completed", "turn.failed" := "failed"]

  const MODEL_WORDS: map<string, Transition> := map["started" := ModelStarted, "completed" := ModelCompleted]

  const PERMISSION_WORDS: map<string, Transition> :=
    map["requested" := PermissionRequested, "resolved" := PermissionResolved]

  const TURN_WORDS: map<string, Transition> :=
    map["started" := TurnStarted, "completed" := TurnCompleted, "failed" := TurnFailed]

  const PHASES: map<string, Transition> :=
    map["scheduled" := ToolScheduled, "started" := ToolStarted,
        "result" := ToolCompleted, "tool_result" := ToolCompleted, "completed" := ToolCompleted,
        "error" := ToolFailed, "tool_error" := ToolFailed, "failed" := ToolFailed]

  const KINDS: map<string, ToolKind> :=
    map["Read" := ReadTool, "read" := ReadTool, "Bash" := BashTool, "bash" := BashTool]

  // What a tool phase is called in an identity, and what it is counted as.
  const PHASE_NAMES: map<Transition, string> :=
    map[ToolScheduled := "scheduled", ToolStarted := "started", ToolCompleted := "completed", ToolFailed := "failed"]

  const INTERACTIONS: set<string> :=
    {"interaction/requestPermission", "interaction/requestUserInput", "interaction/unsupportedInput"}

  function Known<T>(table: map<string, T>, word: Option<string>): Option<T> {
    if word.Some? && word.value in table then Some(table[word.value]) else None
  }

  // ---------- The form of a message ----------

  predicate Says(v: Value, key: string, word: string) {
    Get(v, key) == Some(Str(word))
  }

  function Payload(params: Value): Value {
    match Get(params, "payload") case Some(v) => v case None => Null
  }

  function TextIn(v: Value, key: string): Option<string> {
    match Get(v, key) case Some(Str(s)) => Some(s) case _ => None
  }

  datatype Form =
    | Silent                            // nothing to act on
    | Unheard                           // telemetry nobody knows
    | Streams(what: SampleKind)
    | Model(word: string)
    | Permission(word: string)
    | Turn(word: string)
    | Phase
    | Count

  function SessionForm(params: Value, mode: Mode): Form {
    var kind, payload := TextIn(params, "type"), Payload(params);
    if kind == Some("model.streaming") then
      match Known(STREAMS, TextIn(payload, "kind")) case Some(what) => Streams(what) case None => Silent
    else if kind == Some("tool.updated") || kind == Some("streamRecovery.updated") then
      if TextIn(payload, "kind") == Some("count") then (if mode.Detailed? then Silent else Count)
      else if mode.CountOnly? then Silent else Phase
    else if kind == Some("session.updated") then
      match Known(MODEL_EVENTS, TextIn(payload, "type")) case Some(w) => Model(w) case None => Silent
    else
      match Known(PERMISSION_EVENTS, kind)
      case Some(w) => Permission(w)
      case None => match Known(TURN_EVENTS, kind) case Some(w) => Turn(w) case None => Silent
  }

  function TelemetryForm(params: Value, mode: Mode): Form {
    var kind := TextIn(params, "kind");
    if kind == Some("usage.delta") then Silent
    else if kind == Some("stream.chunk") then
      match Known(CHANNELS, TextIn(params, "channel")) case Some(what) => Streams(what) case None => Unheard
    else if kind == Some("tool.lifecycle") then (if mode.CountOnly? then Silent else Phase)
    else if kind == Some("model.request.status") then
      match Known(MODEL_EVENTS, TextIn(params, "status")) case Some(w) => Model(w) case None => Unheard
    else if kind == Some("permission.lifecycle") then
      var phase := TextIn(params, "phase");
      if Known(PERMISSION_WORDS, phase).Some? then Permission(phase.value) else Unheard
    else
      match Known(TURN_EVENTS, kind) case Some(w) => Turn(w) case None => Unheard
  }

  // ---------- What an event of a form means ----------

  function Field(v: Value, key: string): Option<string> {
    ObservationFrames.Field(v, key)
  }

  function Label(prefix: string, id: Option<string>, suffix: string): Option<string> {
    match id case Some(s) => Some(prefix + s + suffix) case None => None
  }

  function KindOf(v: Value): ToolKind {
    match Known(KINDS, TextIn(v, "toolName")) case Some(kind) => kind case None => OtherTool
  }

  function CountIn(v: Value): Option<nat> {
    match Get(v, "count") case Some(Num(PosInt(n))) => (if 1 <= n <= 1024 then Some(n) else None) case _ => None
  }

  /** One event: its form, how the driver labelled it, its parameters, and the object
      its members are looked up in, which is the payload of a session event and the
      parameters of any other. */
  datatype Frame = Frame(form: Form, source: Source, params: Value, at: Value, session: bool)

  function PhaseWord(f: Frame): Option<string> {
    TextIn(f.at, if f.source.Telemetry? then "phase" else "kind")
  }

  function Moves(f: Frame): Option<Transition> {
    match f.form
    case Model(w) => Known(MODEL_WORDS, Some(w))
    case Permission(w) => Known(PERMISSION_WORDS, Some(w))
    case Turn(w) => Known(TURN_WORDS, Some(w))
    case Phase => Known(PHASES, PhaseWord(f))
    case _ => None
  }

  // A phase of a call that has an id.
  predicate IsPhase(f: Frame) {
    f.form.Phase? && Moves(f).Some? && Field(f.at, "toolCallId").Some?
  }

  predicate IsCount(f: Frame) {
    f.form.Count? && CountIn(f.at).Some? && Field(f.params, "eventId").Some?
  }

  function IdentityOf(f: Frame): Option<string> {
    match f.form
    case Streams(_) => Label("stream:", Field(f.params, "eventId"), "")
    case Model(w) => Label("model:", Field(f.at, "requestId"), ":" + w)
    case Permission(w) => Label("permission:", Field(f.at, "requestId"), ":" + w)
    case Turn(w) =>
      if !f.session then None
      else if Field(f.params, "eventId").Some? then Label("turn:", Field(f.params, "eventId"), ":" + w)
      else Label("turn:", Field(f.params, "turnId"), ":" + w)
    case Phase =>
      if IsPhase(f) && Moves(f).value in PHASE_NAMES
      then Label("tool:", Field(f.at, "toolCallId"), ":" + PHASE_NAMES[Moves(f).value]) else None
    case Count => if IsCount(f) then Label("tool:", Field(f.params, "eventId"), ":count") else None
    case _ => None
  }

  function SampleOf(f: Frame): Option<SampleKind> {
    match f.form
    case Streams(what) => Some(what)
    case Phase =>
      if !IsPhase(f) then None
      else if Moves(f) == Some(ToolStarted) then Some(Started(KindOf(f.at), 1))
      else if Moves(f) == Some(ToolCompleted) then Some(Completed)
      else if Moves(f) == Some(ToolFailed) then Some(Failed)
      else None
    case Count => if IsCount(f) then Some(Started(OtherTool, CountIn(f.at).value)) else None
    case _ => None
  }

  function Text(a: Option<string>): string {
    match a case Some(s) => s case None => ""
  }

  // A count event has no call id of its own, and 512 bytes are all an id may have.
  function CallIdOf(event: string): string {
    if Utf8.Bytes(event) <= 506 then "count:" + event else event
  }

  function DescriptorOf(f: Frame): Option<Observation.Descriptor> {
    var turn, identity := Text(Field(f.params, "turnId")), Text(IdentityOf(f));
    if f.form.Count? && IsCount(f) && TextIn(f.at, "tool").Some? then
      Some(Observation.Descriptor(
        turn, CallIdOf(Field(f.params, "eventId").value), TextIn(f.at, "tool").value, turn + ":" + identity,
        None, Some(Text(TextIn(f.at, "detail")))))
    else if f.session && IsPhase(f) && TextIn(f.at, "kind") == Some("started")
            && TextIn(f.at, "toolName").Some? && Get(f.at, "input").Some? then
      Some(Observation.Descriptor(
        turn, Field(f.at, "toolCallId").value, TextIn(f.at, "toolName").value, identity, Get(f.at, "input"), None))
    else None
  }

  // Telemetry is known unless its form is not, or it names a phase that is not.
  predicate IsKnown(f: Frame) {
    !f.form.Unheard?
    && !(f.form.Phase? && f.source.Telemetry? && PhaseWord(f).Some?
         && PhaseWord(f).value !in PHASES && PhaseWord(f).value != "batch")
  }

  function Meant(f: Frame): Parsed {
    Parsed(
      f.source,
      IdentityOf(f),
      SampleOf(f),
      if f.session && f.form == Streams(TextDelta) then TextIn(f.at, "delta") else None,
      Moves(f),
      if f.form.Model? || f.form.Permission? then Field(f.at, "requestId") else None,
      if f.form.Permission? || f.form.Phase? then Field(f.at, "toolCallId") else None,
      if f.form.Permission? || f.form.Phase? then KindOf(f.at) else OtherTool,
      IsKnown(f),
      if f.session && f.form == Turn("completed") then TextIn(f.at, "response") else None,
      DescriptorOf(f))
  }

  // What an event means, by the tables.
  function MeaningOf(e: RuntimeEvent, mode: Mode): Parsed {
    match e
    case Event(rpc, params) => Meant(FrameOf(rpc, params, Session, mode))
    case UnknownEvent(rpc, raw) =>
      var source :=
        if rpc == "v4/telemetry/event" then Telemetry else if rpc == "session/event" then Session else Runtime;
      Meant(FrameOf(rpc, RawParams(raw), source, mode))
    case Request(rpc, params) =>
      if rpc in INTERACTIONS then Meant(Frame(Permission("requested"), Runtime, params, params, false))
      else Meant(Frame(Silent, Runtime, params, params, false))
    case _ => Meant(Frame(Silent, Runtime, Null, Null, false))
  }

  function FrameOf(rpc: string, params: Value, source: Source, mode: Mode): Frame {
    if rpc == "session/event" then Frame(SessionForm(params, mode), source, params, Payload(params), true)
    else if rpc == "v4/telemetry/event" then Frame(TelemetryForm(params, mode), source, params, params, false)
    else Frame(Silent, source, params, params, false)
  }

  // ---------- The parser agrees ----------

  lemma {:induction false} FieldIsRead(v: Value, key: string)
    ensures ActivityId(Get(v, key)) == Field(v, key) && GetText(v, key) == TextIn(v, key)
  {
    hide Get;
    ObservationFrames.FieldIs(v, key);
  }

  lemma {:induction false} KindIsRead(v: Value)
    ensures Classify(Get(v, "toolName")) == KindOf(v)
  {
    hide Get;
  }

  lemma {:induction false} CountIsRead(v: Value)
    ensures
      var count := AsNat(Get(v, "count"));
      CountIn(v) == if count.Some? && 1 <= count.value <= MAX_TOOL_COUNT then count else None
  {
    hide Get;
  }

  lemma {:induction false} PhaseIsRead(word: Option<string>)
    ensures ActivityParser.Phase(word).0 == Known(PHASES, word)
    ensures ActivityParser.Phase(word).1 <==> word.None? || word.value in PHASES || word.value == "batch"
  {
  }

  // The tables, spelled out.
  lemma {:induction false} ModelWord(text: Option<string>)
    ensures Known(MODEL_EVENTS, text) ==
            if text == Some("model_request_started") then Some("started")
            else if text == Some("model_request_completed") then Some("completed") else None
  {
  }

  lemma {:induction false} PermissionWord(text: Option<string>)
    ensures Known(PERMISSION_EVENTS, text) ==
            if text == Some("permission.requested") then Some("requested")
            else if text == Some("permission.resolved") then Some("resolved") else None
    ensures Known(PERMISSION_WORDS, text).Some? <==> text == Some("requested") || text == Some("resolved")
  {
  }

  lemma {:induction false} TurnWord(text: Option<string>)
    ensures Known(TURN_EVENTS, text) ==
            if text == Some("turn.started") then Some("started")
            else if text == Some("turn.completed") then Some("completed")
            else if text == Some("turn.failed") then Some("failed") else None
  {
  }

  lemma {:induction false} StreamWord(text: Option<string>)
    ensures Known(STREAMS, text) ==
            if text == Some("reasoning_delta") then Some(ReasoningDelta)
            else if text == Some("text_delta") then Some(TextDelta) else None
    ensures Known(CHANNELS, text) ==
            if text == Some("thought") then Some(ReasoningDelta)
            else if text == Some("text") then Some(TextDelta) else None
  {
  }

  lemma {:induction false} ModelMeans(source: Source, params: Value, at: Value, session: bool, started: bool)
    ensures ParseModel(Nothing(source), at, started) ==
            Meant(Frame(Model(if started then "started" else "completed"), source, params, at, session))
  {
    hide Get, ActivityId, Field;
    FieldIsRead(at, "requestId");
    assert ":" + "started" == ":started" && ":" + "completed" == ":completed";
  }

  lemma {:induction false} PermissionMeans(source: Source, params: Value, at: Value, session: bool, requested: bool)
    ensures ParsePermission(Nothing(source), at, requested) ==
            Meant(Frame(Permission(if requested then "requested" else "resolved"), source, params, at, session))
  {
    hide Get, ActivityId, Field, Classify, KindOf;
    FieldIsRead(at, "requestId");
    FieldIsRead(at, "toolCallId");
    KindIsRead(at);
    assert ":" + "requested" == ":requested" && ":" + "resolved" == ":resolved";
  }

  // A tool frame without what a session adds to it.
  lemma {:induction false} ToolMeans(source: Source, params: Value, at: Value)
    ensures ParseTool(Nothing(source), at, source) == Meant(Frame(Form.Phase, source, params, at, false))
  {
    hide Get, GetText, TextIn, ActivityId, Field, Classify, KindOf, ActivityParser.Phase, Known;
    var f := Frame(Form.Phase, source, params, at, false);
    FieldIsRead(at, "toolCallId");
    FieldIsRead(at, "phase");
    FieldIsRead(at, "kind");
    KindIsRead(at);
    PhaseIsRead(PhaseWord(f));
    if Moves(f).Some? {
      PhaseNamed(PhaseWord(f));
    }
  }

  lemma {:induction false} PhaseNamed(word: Option<string>)
    requires Known(PHASES, word).Some?
    ensures
      var t := Known(PHASES, word).value;
      && t in PHASE_NAMES && PhaseName(t) == ":" + PHASE_NAMES[t]
      && (t.ToolScheduled? || t.ToolStarted? || t.ToolCompleted? || t.ToolFailed?)
  {
    assert ":" + "scheduled" == ":scheduled" && ":" + "started" == ":started";
    assert ":" + "completed" == ":completed" && ":" + "failed" == ":failed";
  }

  // A session may describe the call it starts.
  lemma {:induction false} SessionToolMeans(params: Value, at: Value)
    ensures
      var tool := ParseTool(Nothing(Session), at, Session);
      (if GetText(at, "kind") == Some("started") then ParseDescriptor(tool, params, at) else tool) ==
      Meant(Frame(Form.Phase, Session, params, at, true))
  {
    hide Get, GetText, TextIn, ActivityId, Field, Classify, KindOf, ParseTool, Known;
    ToolMeans(Session, params, at);
    FieldIsRead(at, "toolCallId");
    FieldIsRead(at, "toolName");
    FieldIsRead(at, "kind");
    FieldIsRead(params, "turnId");
    StartedMeans(Frame(Form.Phase, Session, params, at, true));
  }

  // A call that is started has an identity.
  lemma {:induction false} StartedMeans(f: Frame)
    requires f.form.Phase?
    ensures IsPhase(f) <==> IdentityOf(f).Some?
  {
    hide Get, TextIn, Field, Known;
    if Moves(f).Some? {
      PhaseNamed(PhaseWord(f));
    }
  }

  lemma {:induction false} CallIdIsRead(event: string)
    ensures CountCallId(event) == CallIdOf(event)
  {
    Utf8.BytesConcat("count:", event);
    Utf8.AsciiBytes("count:");
  }

  lemma {:induction false} CountMeans(params: Value, at: Value)
    ensures
      var (event, turn) := (ActivityId(Get(params, "eventId")), ActivityId(Get(params, "turnId")));
      ParseToolCount(Nothing(Session), at, event, turn) == Meant(Frame(Form.Count, Session, params, at, true))
  {
    hide Get, GetText, TextIn, ActivityId, Field, CountCallId, CallIdOf, AsNat, CountIn, KindOf, Known;
    FieldIsRead(params, "eventId");
    FieldIsRead(params, "turnId");
    FieldIsRead(at, "tool");
    FieldIsRead(at, "detail");
    CountIsRead(at);
    if Field(params, "eventId").Some? {
      CallIdIsRead(Field(params, "eventId").value);
    }
  }

  lemma {:induction false} TurnMeans(source: Source, params: Value, at: Value, word: string)
    requires word == "started" || word == "completed" || word == "failed"
    ensures
      var (event, turn) := (ActivityId(Get(params, "eventId")), ActivityId(Get(params, "turnId")));
      Meant(Frame(Form.Turn(word), source, params, at, true)) ==
      Nothing(source).(
        transition :=
          Some(if word == "started" then TurnStarted else if word == "completed" then TurnCompleted else TurnFailed),
        terminalResponse := if word == "completed" then GetText(at, "response") else None,
        identity := Named("turn:", Either(event, turn), ":" + word))
  {
    hide Get, GetText, TextIn, ActivityId, Field, KindOf, CountIn;
    FieldIsRead(params, "eventId");
    FieldIsRead(params, "turnId");
    FieldIsRead(at, "response");
  }

  lemma {:induction false} StreamMeans(source: Source, params: Value, at: Value, session: bool, what: SampleKind)
    requires what.ReasoningDelta? || what.TextDelta?
    ensures
      Meant(Frame(Streams(what), source, params, at, session)) ==
      Nothing(source).(
        identity := Named("stream:", ActivityId(Get(params, "eventId")), ""), sample := Some(what),
        textDelta := if session && what.TextDelta? then GetText(at, "delta") else None)
  {
    hide Get, GetText, TextIn, ActivityId, Field, KindOf, CountIn, Known;
    FieldIsRead(params, "eventId");
    FieldIsRead(at, "delta");
  }

  // Events nobody acts on.
  lemma {:induction false} QuietMeans(source: Source, params: Value, at: Value, session: bool)
    ensures Meant(Frame(Silent, source, params, at, session)) == Nothing(source)
    ensures Meant(Frame(Unheard, source, params, at, session)) == Nothing(source).(telemetryKnown := false)
  {
    hide Get, GetText, TextIn, ActivityId, Field, KindOf, CountIn;
  }

  // A turn in telemetry has no identity.
  lemma {:induction false} BareTurnsMean(source: Source, params: Value)
    ensures Meant(Frame(Form.Turn("started"), source, params, params, false)) ==
            Nothing(source).(transition := Some(TurnStarted))
    ensures Meant(Frame(Form.Turn("completed"), source, params, params, false)) ==
            Nothing(source).(transition := Some(TurnCompleted))
    ensures Meant(Frame(Form.Turn("failed"), source, params, params, false)) ==
            Nothing(source).(transition := Some(TurnFailed))
  {
    hide Get, GetText, TextIn, ActivityId, Field, KindOf, CountIn;
  }

  lemma {:induction false} SessionStreamMeans(params: Value, mode: Mode)
    requires TextIn(params, "type") == Some("model.streaming")
    ensures ParseSession(Nothing(Session), params, Session, mode) ==
            Meant(Frame(SessionForm(params, mode), Session, params, Payload(params), true))
  {
    hide Get, GetText, TextIn, ActivityId, Named, Either, Meant, ParseModel, ParsePermission, ParseTool, ParseToolCount,
         ParseDescriptor, Known;
    var at := Payload(params);
    assert at == PayloadOf(params);
    FieldIsRead(params, "type");
    QuietMeans(Session, params, at, true);
    FieldIsRead(at, "kind");
    StreamWord(TextIn(at, "kind"));
    StreamMeans(Session, params, at, true, ReasoningDelta);
    StreamMeans(Session, params, at, true, TextDelta);
  }

  lemma {:induction false} SessionUpdateMeans(params: Value, mode: Mode)
    requires IsToolUpdate(TextIn(params, "type"))
    ensures ParseSession(Nothing(Session), params, Session, mode) ==
            Meant(Frame(SessionForm(params, mode), Session, params, Payload(params), true))
  {
    hide Get, GetText, TextIn, ActivityId, Named, Either, Meant, ParseModel, ParsePermission, ParseTool, ParseToolCount,
         ParseDescriptor, Known;
    var at := Payload(params);
    assert at == PayloadOf(params);
    FieldIsRead(params, "type");
    QuietMeans(Session, params, at, true);
    FieldIsRead(at, "kind");
    CountMeans(params, at);
    SessionToolMeans(params, at);
  }

  lemma {:induction false} SessionModelMeans(params: Value, mode: Mode)
    requires TextIn(params, "type") == Some("session.updated")
    ensures ParseSession(Nothing(Session), params, Session, mode) ==
            Meant(Frame(SessionForm(params, mode), Session, params, Payload(params), true))
  {
    hide Get, GetText, TextIn, ActivityId, Named, Either, Meant, ParseModel, ParsePermission, ParseTool, ParseToolCount,
         ParseDescriptor, Known;
    var at := Payload(params);
    assert at == PayloadOf(params);
    FieldIsRead(params, "type");
    QuietMeans(Session, params, at, true);
    FieldIsRead(at, "type");
    ModelWord(TextIn(at, "type"));
    ModelMeans(Session, params, at, true, true);
    ModelMeans(Session, params, at, true, false);
  }

  lemma {:induction false} SessionTurnMeans(params: Value, mode: Mode)
    requires TextIn(params, "type") != Some("model.streaming") && TextIn(params, "type") != Some("session.updated")
    requires !IsToolUpdate(TextIn(params, "type"))
    ensures ParseSession(Nothing(Session), params, Session, mode) ==
            Meant(Frame(SessionForm(params, mode), Session, params, Payload(params), true))
  {
    hide Get, GetText, TextIn, ActivityId, Named, Either, Meant, ParseModel, ParsePermission, ParseTool, ParseToolCount,
         ParseDescriptor, Known;
    var at := Payload(params);
    assert at == PayloadOf(params);
    FieldIsRead(params, "type");
    QuietMeans(Session, params, at, true);
    PermissionWord(TextIn(params, "type"));
    PermissionMeans(Session, params, at, true, true);
    PermissionMeans(Session, params, at, true, false);
    TurnWord(TextIn(params, "type"));
    TurnMeans(Session, params, at, "started");
    TurnMeans(Session, params, at, "completed");
    TurnMeans(Session, params, at, "failed");
    assert ":" + "started" == ":started" && ":" + "completed" == ":completed" && ":" + "failed" == ":failed";
  }

  lemma {:induction false} SessionMeans(params: Value, mode: Mode)
    ensures ParseSession(Nothing(Session), params, Session, mode) ==
            Meant(Frame(SessionForm(params, mode), Session, params, Payload(params), true))
  {
    hide ParseSession, SessionForm, Meant, TextIn, IsToolUpdate;
    var kind := TextIn(params, "type");
    if kind == Some("model.streaming") {
      SessionStreamMeans(params, mode);
    } else if IsToolUpdate(kind) {
      SessionUpdateMeans(params, mode);
    } else if kind == Some("session.updated") {
      SessionModelMeans(params, mode);
    } else {
      SessionTurnMeans(params, mode);
    }
  }

  // The same without text, as a chunk of telemetry is read.
  lemma {:induction false} ChunkMeans(source: Source, params: Value, what: SampleKind)
    requires what.ReasoningDelta? || what.TextDelta?
    ensures
      var chunk := Nothing(source).(identity := Named("stream:", ActivityId(Get(params, "eventId")), ""));
      Meant(Frame(Streams(what), source, params, params, false)) == chunk.(sample := Some(what))
  {
    hide Meant;
    StreamMeans(source, params, params, false, what);
  }

  lemma {:induction false} TelemetryStreamMeans(params: Value, source: Source, mode: Mode)
    requires TextIn(params, "kind") == Some("stream.chunk")
    ensures ParseTelemetry(Nothing(source), params, source, mode) ==
            Meant(Frame(TelemetryForm(params, mode), source, params, params, false))
  {
    hide Get, GetText, TextIn, ActivityId, Named, Meant, Nothing, ParseModel, ParsePermission, ParseTool, Known;
    FieldIsRead(params, "kind");
    FieldIsRead(params, "channel");
    StreamWord(TextIn(params, "channel"));
    QuietMeans(source, params, params, false);
    ChunkMeans(source, params, ReasoningDelta);
    ChunkMeans(source, params, TextDelta);
  }

  lemma {:induction false} TelemetryToolMeans(params: Value, source: Source, mode: Mode)
    requires TextIn(params, "kind") == Some("tool.lifecycle")
    ensures ParseTelemetry(Nothing(source), params, source, mode) ==
            Meant(Frame(TelemetryForm(params, mode), source, params, params, false))
  {
    hide Get, GetText, TextIn, ActivityId, Named, Meant, Nothing, ParseModel, ParsePermission, ParseTool, Known;
    FieldIsRead(params, "kind");
    QuietMeans(source, params, params, false);
    ToolMeans(source, params, params);
  }

  lemma {:induction false} TelemetryModelMeans(params: Value, source: Source, mode: Mode)
    requires TextIn(params, "kind") == Some("model.request.status")
    ensures ParseTelemetry(Nothing(source), params, source, mode) ==
            Meant(Frame(TelemetryForm(params, mode), source, params, params, false))
  {
    hide Get, GetText, TextIn, ActivityId, Named, Meant, Nothing, ParseModel, ParsePermission, ParseTool, Known;
    FieldIsRead(params, "kind");
    FieldIsRead(params, "status");
    ModelWord(TextIn(params, "status"));
    QuietMeans(source, params, params, false);
    ModelMeans(source, params, params, false, true);
    ModelMeans(source, params, params, false, false);
  }

  lemma {:induction false} TelemetryPermissionMeans(params: Value, source: Source, mode: Mode)
    requires TextIn(params, "kind") == Some("permission.lifecycle")
    ensures ParseTelemetry(Nothing(source), params, source, mode) ==
            Meant(Frame(TelemetryForm(params, mode), source, params, params, false))
  {
    hide Get, GetText, TextIn, ActivityId, Named, Meant, Nothing, ParseModel, ParsePermission, ParseTool, Known;
    FieldIsRead(params, "kind");
    FieldIsRead(params, "phase");
    PermissionWord(TextIn(params, "phase"));
    QuietMeans(source, params, params, false);
    PermissionMeans(source, params, params, false, true);
    PermissionMeans(source, params, params, false, false);
  }

  lemma {:induction false} TelemetryTurnMeans(params: Value, source: Source, mode: Mode)
    requires TextIn(params, "kind") != Some("stream.chunk") && TextIn(params, "kind") != Some("tool.lifecycle")
    requires
      TextIn(params, "kind") != Some("model.request.status") && TextIn(params, "kind") != Some("permission.lifecycle")
    ensures ParseTelemetry(Nothing(source), params, source, mode) ==
            Meant(Frame(TelemetryForm(params, mode), source, params, params, false))
  {
    hide Get, GetText, TextIn, ActivityId, Named, Meant, Nothing, ParseModel, ParsePermission, ParseTool, Known;
    FieldIsRead(params, "kind");
    TurnWord(TextIn(params, "kind"));
    QuietMeans(source, params, params, false);
    BareTurnsMean(source, params);
  }

  lemma {:induction false} TelemetryMeans(params: Value, source: Source, mode: Mode)
    ensures ParseTelemetry(Nothing(source), params, source, mode) ==
            Meant(Frame(TelemetryForm(params, mode), source, params, params, false))
  {
    hide ParseTelemetry, TelemetryForm, Meant, TextIn;
    var kind := TextIn(params, "kind");
    if kind == Some("stream.chunk") {
      TelemetryStreamMeans(params, source, mode);
    } else if kind == Some("tool.lifecycle") {
      TelemetryToolMeans(params, source, mode);
    } else if kind == Some("model.request.status") {
      TelemetryModelMeans(params, source, mode);
    } else if kind == Some("permission.lifecycle") {
      TelemetryPermissionMeans(params, source, mode);
    } else {
      TelemetryTurnMeans(params, source, mode);
    }
  }

  /** The parser reads every event as the tables say, in every field and every mode. */
  lemma {:induction false} ParseIsTabled(e: RuntimeEvent, mode: Mode)
    ensures Parse(e, mode) == MeaningOf(e, mode)
  {
    hide Get, ParseSession, ParseTelemetry, ParsePermission, Meant, SessionForm, TelemetryForm;
    match e
    case Event(rpc, params) =>
      SessionMeans(params, mode);
      TelemetryMeans(params, Session, mode);
      QuietMeans(Session, params, params, false);
    case UnknownEvent(rpc, raw) =>
      var params := RawParams(raw);
      SessionMeans(params, mode);
      TelemetryMeans(params, Telemetry, mode);
      QuietMeans(Runtime, params, params, false);
    case Request(rpc, params) =>
      PermissionMeans(Runtime, params, params, false, true);
      QuietMeans(Runtime, params, params, false);
    case _ => QuietMeans(Runtime, Null, Null, false);
  }

  const MODES: map<string, Mode> :=
    map["codex" := CountOnly, "zcode" := Detailed, "dsh" := Detailed, "agy" := Detailed]

  /** Codex speaks in counts, the other three in detail, and anyone else may mix. */
  lemma {:induction false} ModeIsTabled(adapter: string)
    ensures ModeOf(adapter) == if adapter in MODES then MODES[adapter] else Mixed
  {
  }
}
