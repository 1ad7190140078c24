/**
 What a runtime event says, told by its members alone, and what a tracker makes of
 it: the text it streams, the response it ends a turn with, and the transition it
 stands for.
 */
module ActivityFrames {
  import opened Json
  import opened Options
  import opened ActivityParser
  import opened ActivityTracker
  import opened ActivityVocabulary
  import Observation
  import Utf8
  import WaitText

  // ---------- What an event says ----------

  // The method and the parameters of a message, however the driver labelled it.
  function Contents(e: RuntimeEvent): Option<(string, Value)> {
    match e
    case Event(rpc, params) => Some((rpc, params))
    case UnknownEvent(rpc, raw) => Some((rpc, match Get(raw, "params") case Some(v) => v case None => Null))
    case _ => None
  }

  // The parameters of a session event of the given type.
  function SessionOf(e: RuntimeEvent, kind: string): Option<Value> {
    match Contents(e)
    case Some((rpc, params)) => if rpc == "session/event" && Says(params, "type", kind) then Some(params) else None
    case None => None
  }

  // The text an event streams, and the final response it brings.
  function Spoken(e: RuntimeEvent): Option<string> {
    match SessionOf(e, "model.streaming")
    case Some(params) =>
      if Says(Payload(params), "kind", "text_delta") then TextIn(Payload(params), "delta") else None
    case None => None
  }

  function Response(e: RuntimeEvent): Option<string> {
    match SessionOf(e, "turn.completed")
    case Some(params) => TextIn(Payload(params), "response")
    case None => None
  }

  predicate BeginsTurn(e: RuntimeEvent) {
    || SessionOf(e, "turn.started").Some?
    || (Contents(e).Some? && Contents(e).value.0 == "v4/telemetry/event"
        && Says(Contents(e).value.1, "kind", "turn.started"))
  }

  // ---------- The parser reads it ----------

  // The forms that stream text, end a turn or begin one.
  ghost predicate ReadsForm(form: Form, kind: Option<string>, payloadKind: Option<string>) {
    && (form == Streams(TextDelta) <==> kind == Some("model.streaming") && payloadKind == Some("text_delta"))
    && (form == Turn("completed") <==> kind == Some("turn.completed"))
    && (form == Turn("started") <==> kind == Some("turn.started"))
  }

  lemma {:induction false} StreamFormIsRead(params: Value, mode: Mode)
    requires TextIn(params, "type") == Some("model.streaming")
    ensures ReadsForm(SessionForm(params, mode), TextIn(params, "type"), TextIn(Payload(params), "kind"))
  {
    hide TextIn, Known;
    StreamWord(TextIn(Payload(params), "kind"));
  }

  lemma {:induction false} UpdateFormIsRead(params: Value, mode: Mode)
    requires IsToolUpdate(TextIn(params, "type")) || TextIn(params, "type") == Some("session.updated")
    ensures ReadsForm(SessionForm(params, mode), TextIn(params, "type"), TextIn(Payload(params), "kind"))
  {
    hide TextIn, Known;
  }

  lemma {:induction false} TurnFormIsRead(params: Value, mode: Mode)
    requires !IsToolUpdate(TextIn(params, "type")) && TextIn(params, "type") != Some("session.updated")
    requires TextIn(params, "type") != Some("model.streaming")
    ensures ReadsForm(SessionForm(params, mode), TextIn(params, "type"), TextIn(Payload(params), "kind"))
  {
    hide TextIn, Known;
    PermissionWord(TextIn(params, "type"));
    TurnWord(TextIn(params, "type"));
  }

  lemma {:induction false} FormIsRead(params: Value, mode: Mode)
    ensures
      var form := SessionForm(params, mode);
      && (form == Streams(TextDelta) <==>
            Says(params, "type", "model.streaming") && Says(Payload(params), "kind", "text_delta"))
      && (form == Turn("completed") <==> Says(params, "type", "turn.completed"))
      && (form == Turn("started") <==> Says(params, "type", "turn.started"))
  {
    hide TextIn, Says, SessionForm, IsToolUpdate;
    SaysIs(params, "type");
    SaysIs(Payload(params), "kind");
    if TextIn(params, "type") == Some("model.streaming") {
      StreamFormIsRead(params, mode);
    } else if IsToolUpdate(TextIn(params, "type")) || TextIn(params, "type") == Some("session.updated") {
      UpdateFormIsRead(params, mode);
    } else {
      TurnFormIsRead(params, mode);
    }
  }

  lemma {:induction false} TelemetryFormIsRead(params: Value, mode: Mode)
    ensures TelemetryForm(params, mode) == Turn("started") <==> Says(params, "kind", "turn.started")
  {
    hide Get, Known, TextIn, Says;
    SaysIs(params, "kind");
    TurnWord(TextIn(params, "kind"));
  }

  lemma {:induction false} SaysIs(v: Value, key: string)
    ensures forall word :: Says(v, key, word) <==> TextIn(v, key) == Some(word)
  {
    hide Get;
  }

  // Only the word says so.
  lemma {:induction false} MeantBegins(f: Frame)
    ensures Meant(f).transition == Some(TurnStarted) <==> f.form == Turn("started")
    ensures f.form.Turn? ==> Meant(f).sample.None?
  {
    hide Get, TextIn, Field, KindOf, CountIn, DescriptorOf, IdentityOf, IsKnown;
  }

  /** An event streams text, brings a response or begins a turn exactly if it says so,
      in every mode. */
  lemma {:induction false} EventIsRead(e: RuntimeEvent, mode: Mode)
    ensures
      var p := Parse(e, mode);
      && p.textDelta == Spoken(e) && p.terminalResponse == Response(e)
      && (p.transition == Some(TurnStarted) <==> BeginsTurn(e))
      && (Response(e).Some? ==> p.sample.None?)
  {
    hide Get, Parse, Meant;
    ParseIsTabled(e, mode);
    match e
    case Event(rpc, params) => FrameIsRead(rpc, params, Session, mode);
    case UnknownEvent(rpc, raw) => FrameIsRead(rpc, RawParams(raw), UnknownSource(rpc), mode);
    case Request(rpc, params) =>
      QuietlyRead(Frame(Permission("requested"), Runtime, params, params, false));
      QuietlyRead(Frame(Silent, Runtime, params, params, false));
    case _ => QuietlyRead(Frame(Silent, Runtime, Null, Null, false));
  }

  lemma {:induction false} QuietlyRead(f: Frame)
    requires !f.session && !f.form.Turn?
    ensures
      var p := Meant(f);
      p.textDelta.None? && p.terminalResponse.None? && p.transition != Some(TurnStarted)
  {
    hide Get, TextIn, Field, KindOf, CountIn, DescriptorOf, IdentityOf, IsKnown, SampleOf, Moves;
    MeantBegins(f);
  }

  lemma {:induction false} FrameIsRead(rpc: string, params: Value, source: Source, mode: Mode)
    ensures
      var (p, e) := (Meant(FrameOf(rpc, params, source, mode)), Event(rpc, params));
      && p.textDelta == Spoken(e) && p.terminalResponse == Response(e)
      && (p.transition == Some(TurnStarted) <==> BeginsTurn(e))
      && (Response(e).Some? ==> p.sample.None?)
  {
    hide Get, SessionForm, TelemetryForm, Field, KindOf, CountIn, DescriptorOf, IdentityOf, IsKnown, SampleOf, Moves;
    FormIsRead(params, mode);
    TelemetryFormIsRead(params, mode);
    MeantBegins(FrameOf(rpc, params, source, mode));
  }

  // ---------- What a tracker makes of it ----------

  // The text streamed to a tracker that it took in.
  function AllSpoken(a: Activity, trace: seq<Arrival>, mode: Mode): string {
    if trace == [] then "" else
    var earlier, x := trace[..|trace| - 1], trace[|trace| - 1];
    AllSpoken(a, earlier, mode) + TakenIn(Run(a, earlier, mode), x.event, mode)
  }

  // An event whose sample is known already is not taken in again.
  function TakenIn(a: Activity, e: RuntimeEvent, mode: Mode): string {
    if Refused(a.queue.samples, Parse(e, mode)) then "" else
    match Spoken(e) case Some(text) => text case None => ""
  }

  lemma {:induction false} SpokenIsHeard(a: Activity, trace: seq<Arrival>, mode: Mode)
    ensures HeardAll(a, trace, mode) == AllSpoken(a, trace, mode)
  {
    hide Run, Parse, Spoken, Refused;
    if trace != [] {
      SpokenIsHeard(a, trace[..|trace| - 1], mode);
      EventIsRead(trace[|trace| - 1].event, mode);
    }
  }

  /** The text window of a tracker is that of the text its events streamed, over every
      trace. */
  lemma {:induction false} SpokenIsTracked(a: Activity, trace: seq<Arrival>, mode: Mode, whole: string, seen: nat)
    requires WaitText.Tracks(a.text, whole, seen)
    ensures WaitText.Tracks(Run(a, trace, mode).text, whole + AllSpoken(a, trace, mode), seen)
  {
    hide Run, WaitText.Tracks;
    SpokenIsHeard(a, trace, mode);
    TrackerTextTracks(a, trace, mode, whole, seen);
  }

  // The terminal text of a turn, and whether it is settled.
  datatype Ending = Ending(text: string, settled: bool)

  // A turn begins with nothing, collects what is streamed, and is settled by its response.
  function EndingOf(a: Activity, trace: seq<Arrival>, mode: Mode): Ending {
    if trace == [] then Ending(a.text.terminal, a.text.settled) else
    var earlier, e := trace[..|trace| - 1], trace[|trace| - 1].event;
    var before := EndingOf(a, earlier, mode);
    if BeginsTurn(e) then Ending("", false)
    else if Response(e).Some? then Ending(Response(e).value, true)
    else if before.settled then before
    else Ending(before.text + TakenIn(Run(a, earlier, mode), e, mode), false)
  }

  // What an event does to the terminal text before its transition is made.
  lemma {:induction false} InformedEnds(a: Activity, p: Parsed, now: nat, wall: nat)
    requires p.terminalResponse.Some? ==> p.sample.None?
    ensures
      var t := Informed(a, p, now, wall).text;
      var spoken := if Refused(a.queue.samples, p) || p.textDelta.None? then "" else p.textDelta.value;
      && (p.terminalResponse.Some? ==> t.terminal == p.terminalResponse.value && t.settled)
      && (p.terminalResponse.None? ==>
            t.settled == a.text.settled && t.terminal == a.text.terminal + if a.text.settled then "" else spoken)
  {
    hide Evict, Enqueue, Observation.Observe, Utf8.LongestSuffix, Utf8.Bytes;
  }

  lemma {:induction false} AbsorbEnds(a: Activity, p: Parsed, now: nat, wall: nat)
    requires p.terminalResponse.Some? ==> p.sample.None?
    ensures
      var t := Absorb(a, p, now, wall).text;
      var spoken := if Refused(a.queue.samples, p) || p.textDelta.None? then "" else p.textDelta.value;
      && (p.transition == Some(TurnStarted) ==> t.terminal == "" && !t.settled)
      && (p.transition != Some(TurnStarted) && p.terminalResponse.Some? ==>
            t.terminal == p.terminalResponse.value && t.settled)
      && (p.transition != Some(TurnStarted) && p.terminalResponse.None? ==>
            t.settled == a.text.settled && t.terminal == a.text.terminal + if a.text.settled then "" else spoken)
  {
    hide Informed, Refused;
    InformedEnds(a, p, now, wall);
  }

  /** The terminal text is that of the latest turn: nothing when it begins, then what is
      streamed, and its final response once that arrives, for good. */
  lemma {:induction false} TerminalIsTold(a: Activity, trace: seq<Arrival>, mode: Mode)
    ensures
      var t := Run(a, trace, mode).text;
      Ending(t.terminal, t.settled) == EndingOf(a, trace, mode)
  {
    hide Parse, Spoken, Response, BeginsTurn, Refused, Absorb, ObserveRaw;
    if trace != [] {
      var earlier, x := trace[..|trace| - 1], trace[|trace| - 1];
      TerminalIsTold(a, earlier, mode);
      EventIsRead(x.event, mode);
      var before := Run(a, earlier, mode);
      AbsorbEnds(
        before.(observation := ObserveRaw(before.observation, x.event)), Parse(x.event, mode), x.now, x.wall);
      NotBoth(x.event);
      assert before.text.terminal + "" == before.text.terminal;
    }
  }

  // An event that brings the response of a turn streams no text.
  lemma {:induction false} NotBoth(e: RuntimeEvent)
    ensures Response(e).Some? ==> Spoken(e).None?
  {
    hide Get;
    assert "turn.completed"[0] != "model.streaming"[0];
  }

  // ---------- Clocks and flags ----------

  // The tool a call is active as and since when, by the events that concern it.
  function ToolSince(trace: seq<Arrival>, mode: Mode, id: string): Option<ActiveTool> {
    if trace == [] then None else
    var before, x := ToolSince(trace[..|trace| - 1], mode, id), trace[|trace| - 1];
    var p := Parse(x.event, mode);
    match Concerns(p, id)
    case Some(true) => if before.Some? then before else Some(ActiveTool(p.toolKind, x.now))
    case Some(false) => None
    case None => before
  }

  // Since when a model request is under way.
  function RequestSince(trace: seq<Arrival>, mode: Mode, id: string): Option<nat> {
    if trace == [] then None else
    var before, x := RequestSince(trace[..|trace| - 1], mode, id), trace[|trace| - 1];
    match Affects(Parse(x.event, mode), id)
    case Some(true) => if before.Some? then before else Some(x.now)
    case Some(false) => None
    case None => before
  }

  function ToolAt(a: Activity, id: string): Option<ActiveTool> {
    if id in a.activeTools then Some(a.activeTools[id]) else None
  }

  function RequestAt(a: Activity, id: string): Option<nat> {
    if id in a.requests then Some(a.requests[id]) else None
  }

  lemma {:induction false} MoveTimes(a: Activity, p: Parsed, now: nat, id: string)
    ensures ToolAt(Move(a, p, now), id) ==
            match Concerns(p, id)
            case Some(true) => if ToolAt(a, id).Some? then ToolAt(a, id) else Some(ActiveTool(p.toolKind, now))
            case Some(false) => None
            case None => ToolAt(a, id)
    ensures RequestAt(Move(a, p, now), id) ==
            match Affects(p, id)
            case Some(true) => if RequestAt(a, id).Some? then RequestAt(a, id) else Some(now)
            case Some(false) => None
            case None => RequestAt(a, id)
  {
  }

  /** A tool call is active as the kind and since the time of the event that started it,
      and a model request is under way since the event that started it. */
  lemma {:induction false} ActiveSinceStarted(a: Activity, trace: seq<Arrival>, mode: Mode, id: string)
    requires a.activeTools == map[] && a.requests == map[]
    ensures ToolAt(Run(a, trace, mode), id) == ToolSince(trace, mode, id)
    ensures RequestAt(Run(a, trace, mode), id) == RequestSince(trace, mode, id)
  {
    hide Parse, ObserveRaw, Concerns, Affects, Move, Informed;
    if trace != [] {
      var earlier, x := trace[..|trace| - 1], trace[|trace| - 1];
      ActiveSinceStarted(a, earlier, mode, id);
      var before := Run(a, earlier, mode);
      var heard, p := before.(observation := ObserveRaw(before.observation, x.event)), Parse(x.event, mode);
      InformedParts(heard, p, x.now, x.wall);
      MoveTimes(Informed(heard, p, x.now, x.wall), p, x.now, id);
    }
  }

  // The time of the last delta taken in, or of the last model request that began since.
  function ClockOf(a: Activity, trace: seq<Arrival>, mode: Mode): Option<nat> {
    if trace == [] then a.lastDeltaAt else
    var earlier, x := trace[..|trace| - 1], trace[|trace| - 1];
    var before, p := Run(a, earlier, mode), Parse(x.event, mode);
    var id := if p.requestId.Some? then p.requestId.value else "model-request";
    var begins := p.transition == Some(ModelStarted) && id !in before.requests;
    var delta := p.sample == Some(ReasoningDelta) || p.sample == Some(TextDelta);
    if begins || (delta && !Refused(before.queue.samples, p)) then Some(x.now) else ClockOf(a, earlier, mode)
  }

  lemma {:induction false} AbsorbClock(a: Activity, p: Parsed, now: nat, wall: nat)
    ensures
      var id := if p.requestId.Some? then p.requestId.value else "model-request";
      var begins := p.transition == Some(ModelStarted) && id !in a.requests;
      var delta := p.sample == Some(ReasoningDelta) || p.sample == Some(TextDelta);
      Absorb(a, p, now, wall).lastDeltaAt ==
      if begins || (delta && !Refused(a.queue.samples, p)) then Some(now) else a.lastDeltaAt
  {
    hide Evict, Enqueue, Observation.Observe, WaitText.Append, Refused;
  }

  lemma {:induction false} ClockIsTold(a: Activity, trace: seq<Arrival>, mode: Mode)
    ensures Run(a, trace, mode).lastDeltaAt == ClockOf(a, trace, mode)
  {
    hide Parse, ObserveRaw, Absorb, Refused;
    if trace != [] {
      var earlier, x := trace[..|trace| - 1], trace[|trace| - 1];
      ClockIsTold(a, earlier, mode);
      var before := Run(a, earlier, mode);
      AbsorbClock(
        before.(observation := ObserveRaw(before.observation, x.event)), Parse(x.event, mode), x.now, x.wall);
    }
  }

  /** A tracker is degraded exactly once it met telemetry it does not know. */
  lemma {:induction false} DegradedIff(adapter: string, scope: nat, trace: seq<Arrival>, mode: Mode)
    ensures Run(Launched(adapter, scope), trace, mode).degraded <==>
            exists i :: 0 <= i < |trace| && Foreign(Parse(trace[i].event, mode))
  {
    hide Parse, ObserveRaw, Absorb, Foreign;
    if trace != [] {
      var earlier, x := trace[..|trace| - 1], trace[|trace| - 1];
      DegradedIff(adapter, scope, earlier, mode);
      var before := Run(Launched(adapter, scope), earlier, mode);
      AbsorbDegrades(
        before.(observation := ObserveRaw(before.observation, x.event)), Parse(x.event, mode), x.now, x.wall);
      if before.degraded {
        var i :| 0 <= i < |earlier| && Foreign(Parse(earlier[i].event, mode));
        assert trace[i] == earlier[i];
      }
      if Foreign(Parse(x.event, mode)) {
        assert trace[|trace| - 1] == x;
      }
      forall i | 0 <= i < |trace| - 1 ensures trace[i] == earlier[i] {
      }
    }
  }

  predicate Foreign(p: Parsed) {
    p.source.Telemetry? && !p.telemetryKnown
  }

  lemma {:induction false} AbsorbDegrades(a: Activity, p: Parsed, now: nat, wall: nat)
    ensures Absorb(a, p, now, wall).degraded <==> a.degraded || Foreign(p)
  {
    hide Evict, Enqueue, Observation.Observe, WaitText.Append, Refused;
  }
}
