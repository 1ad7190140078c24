/**
 The producers' side of the tool vocabularies: the events an adapter builds, and
 what the parser reads back from them.
 */
module ActivityContract {
  import opened Json
  import opened Options
  import opened ActivityParser
  import Observation

  function Optional(key: string, value: Option<string>): seq<Entry> {
    match value case Some(text) => [Entry(key, Str(text))] case None => []
  }

  function ToolUpdated(event: string, turn: string, payload: Value): Value {
    Obj([
      Entry("type", Str("tool.updated")),
      Entry("eventId", Str(event)),
      Entry("turnId", Str(turn)),
      Entry("payload", payload)])
  }

  function CountPayload(count: nat, tool: Option<string>, detail: Option<string>): Value {
    Obj([Entry("kind", Str("count")), Entry("count", Num(PosInt(count)))]
        + Optional("tool", tool) + Optional("detail", detail))
  }

  function CountEvent(event: string, turn: string, count: nat, tool: Option<string>, detail: Option<string>): Value {
    ToolUpdated(event, turn, CountPayload(count, tool, detail))
  }

  function PhasePayload(phase: string, call: string, tool: Option<string>): Value {
    Obj([Entry("kind", Str(phase)), Entry("toolCallId", Str(call))] + Optional("toolName", tool))
  }

  function NamedBy(tool: Option<string>): Option<Value> {
    match tool case Some(name) => Some(Str(name)) case None => None
  }

  function StartedEvent(event: string, turn: string, call: string, tool: Option<string>): Value {
    ToolUpdated(event, turn, PhasePayload("started", call, tool))
  }

  function ResultEvent(event: string, turn: string, call: string): Value {
    ToolUpdated(event, turn, PhasePayload("result", call, None))
  }

  // ---------- Reading them back ----------

  lemma {:induction false} LookupHere(e: Entry, rest: seq<Entry>)
    ensures Lookup([e] + rest, e.key) == Some(e.value)
  {
  }

  lemma {:induction false} LookupPast(e: Entry, rest: seq<Entry>, key: string)
    requires e.key != key
    ensures Lookup([e] + rest, key) == Lookup(rest, key)
  {
    assert ([e] + rest)[1..] == rest;
  }

  // A member of an object of two or four entries with distinct keys.
  lemma {:induction false} LookupTwo(a: Entry, b: Entry, rest: seq<Entry>)
    requires a.key != b.key
    ensures Lookup([a, b] + rest, a.key) == Some(a.value)
    ensures Lookup([a, b] + rest, b.key) == Some(b.value)
    ensures forall key :: key != a.key && key != b.key ==> Lookup([a, b] + rest, key) == Lookup(rest, key)
  {
    assert [a, b] + rest == [a] + ([b] + rest);
    LookupHere(a, [b] + rest);
    LookupPast(a, [b] + rest, b.key);
    LookupHere(b, rest);
    forall key | key != a.key && key != b.key ensures Lookup([a, b] + rest, key) == Lookup(rest, key) {
      LookupPast(a, [b] + rest, key);
      LookupPast(b, rest, key);
    }
  }

  lemma {:induction false} LookupFour(a: Entry, b: Entry, c: Entry, d: Entry)
    requires a.key != b.key && a.key != c.key && a.key != d.key && b.key != c.key && b.key != d.key && c.key != d.key
    ensures Lookup([a, b, c, d], a.key) == Some(a.value)
    ensures Lookup([a, b, c, d], b.key) == Some(b.value)
    ensures Lookup([a, b, c, d], c.key) == Some(c.value)
    ensures Lookup([a, b, c, d], d.key) == Some(d.value)
  {
    LookupTwo(a, b, [c, d]);
    LookupTwo(c, d, []);
    assert [a, b] + [c, d] == [a, b, c, d];
    assert [c, d] + [] == [c, d];
  }

  lemma {:induction false} UpdateFields(event: string, turn: string, payload: Value)
    ensures GetText(ToolUpdated(event, turn, payload), "type") == Some("tool.updated")
    ensures Get(ToolUpdated(event, turn, payload), "eventId") == Some(Str(event))
    ensures Get(ToolUpdated(event, turn, payload), "turnId") == Some(Str(turn))
    ensures PayloadOf(ToolUpdated(event, turn, payload)) == payload
  {
    assert "eventId"[0] != "payload"[0];
    LookupFour(
      Entry("type", Str("tool.updated")), Entry("eventId", Str(event)), Entry("turnId", Str(turn)),
      Entry("payload", payload));
  }

  lemma {:induction false} CountFields(count: nat, tool: Option<string>, detail: Option<string>)
    ensures GetText(CountPayload(count, tool, detail), "kind") == Some("count")
    ensures AsNat(Get(CountPayload(count, tool, detail), "count")) == Some(count)
    ensures GetText(CountPayload(count, tool, detail), "tool") == tool
    ensures GetText(CountPayload(count, tool, detail), "detail") == detail
  {
    assert "kind"[0] != "tool"[0];
    var kind, number := Entry("kind", Str("count")), Entry("count", Num(PosInt(count)));
    var rest := Optional("tool", tool) + Optional("detail", detail);
    assert [kind, number] + Optional("tool", tool) + Optional("detail", detail) == [kind, number] + rest;
    LookupTwo(kind, number, rest);
    OptionalFields("tool", tool, "detail", detail);
  }

  lemma {:induction false} OptionalFields(key: string, value: Option<string>, other: string, value': Option<string>)
    requires key != other
    ensures AsText(Lookup(Optional(key, value) + Optional(other, value'), key)) == value
    ensures AsText(Lookup(Optional(key, value) + Optional(other, value'), other)) == value'
  {
    var rest := Optional(other, value');
    assert Optional(other, value') + [] == rest;
    if value'.Some? {
      LookupHere(Entry(other, Str(value'.value)), []);
      LookupPast(Entry(other, Str(value'.value)), [], key);
    }
    if value.Some? {
      LookupHere(Entry(key, Str(value.value)), rest);
      LookupPast(Entry(key, Str(value.value)), rest, other);
    } else {
      assert [] + rest == rest;
    }
  }

  /** A count event is read back with its weight and its event id, under every
      mode that accepts counts, exactly when the count is between 1 and 1024 and
      the id is usable; any other count event stands for nothing at all. */
  lemma {:induction false} CountRoundTrip(
    event: string, turn: string, count: nat, tool: Option<string>, detail: Option<string>, mode: Mode)
    requires !mode.Detailed?
    ensures
      var p := Parse(Event("session/event", CountEvent(event, turn, count, tool, detail)), mode);
      var usable := 1 <= count <= MAX_TOOL_COUNT && Observation.ValidText(event);
      && p.sample == (if usable then Some(Started(OtherTool, count)) else None)
      && p.identity == (if usable then Some("tool:" + event + ":count") else None)
      && p.transition.None? && p.textDelta.None? && p.terminalResponse.None?
      && (p.descriptor.Some? <==> usable && tool.Some?)
      && (p.descriptor.Some? ==>
            p.descriptor.value.tool == tool.value && p.descriptor.value.detail == Some(OrEmpty(detail)))
  {
    hide Get, GetText, ToolUpdated, CountPayload, PayloadOf, AsNat, CountCallId, ParseTool, ParseDescriptor;
    UpdateFields(event, turn, CountPayload(count, tool, detail));
    CountFields(count, tool, detail);
  }

  lemma {:induction false} PhaseFields(phase: string, call: string, tool: Option<string>)
    ensures GetText(PhasePayload(phase, call, tool), "kind") == Some(phase)
    ensures Get(PhasePayload(phase, call, tool), "toolCallId") == Some(Str(call))
    ensures AsText(Get(PhasePayload(phase, call, tool), "toolName")) == tool
  {
    LookupTwo(Entry("kind", Str(phase)), Entry("toolCallId", Str(call)), Optional("toolName", tool));
    OptionalFields("toolName", tool, "", None);
    assert Optional("toolName", tool) + Optional("", None) == Optional("toolName", tool);
  }

  /** A started event is read back as one call of the kind its name says, and it
      starts the tool. */
  lemma {:induction false} StartedRoundTrip(event: string, turn: string, call: string, tool: Option<string>, mode: Mode)
    requires !mode.CountOnly? && Observation.ValidText(call)
    ensures
      var p := Parse(Event("session/event", StartedEvent(event, turn, call, tool)), mode);
      && p.identity == Some("tool:" + call + ":started")
      && p.transition == Some(ToolStarted) && p.toolCallId == Some(call)
      && p.sample == Some(Started(Classify(NamedBy(tool)), 1))
  {
    hide Get, GetText, ToolUpdated, PhasePayload, PayloadOf, AsNat, ParseToolCount;
    UpdateFields(event, turn, PhasePayload("started", call, tool));
    PhaseFields("started", call, tool);
  }

  /** A result event is read back as the completion of the call. */
  lemma {:induction false} ResultRoundTrip(event: string, turn: string, call: string, mode: Mode)
    requires !mode.CountOnly? && Observation.ValidText(call)
    ensures
      var p := Parse(Event("session/event", ResultEvent(event, turn, call)), mode);
      && p.identity == Some("tool:" + call + ":completed")
      && p.transition == Some(ToolCompleted) && p.toolCallId == Some(call)
      && p.sample == Some(Completed) && p.descriptor.None?
  {
    hide Get, GetText, ToolUpdated, PhasePayload, PayloadOf, AsNat, ParseToolCount;
    UpdateFields(event, turn, PhasePayload("result", call, None));
    PhaseFields("result", call, None);
  }
}
