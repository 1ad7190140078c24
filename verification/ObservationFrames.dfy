/**
 What a frame of the public event stream says, told by its members alone, and what
 becomes of it: every call and every piece of reasoning is recorded as its frame
 said it, and nothing else is recorded.
 */
module ObservationFrames {
  import opened Json
  import opened Options
  import opened Utf8
  import opened Observation
  import ToolHistory
  import Reasoning
  import Arguments

  // ---------- What a frame says ----------

  // An id that can be used: 1 to 512 bytes without a NUL.
  predicate IsId(s: string) {
    s != "" && Bytes(s) <= 512 && '\0' !in s
  }

  function Field(v: Value, key: string): Option<string> {
    match Get(v, key)
    case Some(Str(s)) => if IsId(s) then Some(s) else None
    case _ => None
  }

  function Payload(params: Value): Value {
    match Get(params, "payload") case Some(v) => v case None => Null
  }

  predicate IsStreaming(rpc: string, params: Value, kind: string) {
    && rpc == "session/event" && Get(params, "type") == Some(Str("model.streaming"))
    && Get(Payload(params), "kind") == Some(Str(kind))
  }

  // A call by its turn, its own id and its tool.
  datatype Tag = Tag(turn: string, call: string, tool: string)

  function Named(turn: Option<string>, call: Option<string>, tool: Option<string>): Option<Tag> {
    if call.None? || tool.None? then None
    else Some(Tag(if turn.Some? then turn.value else "", call.value, tool.value))
  }

  // The call a frame tells of, if it tells of one.
  function Told(e: Event): Option<Tag> {
    match e
    case Loss => None
    case Message(rpc, params) =>
      if !IsStreaming(rpc, params, "tool_call") then None else
      Named(Field(params, "turnId"), Field(Payload(params), "toolCallId"), Field(Payload(params), "toolName"))
    case Described(d) => Some(Tag(d.turn, d.callId, d.tool))
  }

  // What it tells of the arguments. Only a verified stream may report that there were none
  // by leaving them out, and a descriptor may give a text in their place.
  function ToldDetail(e: Event, source: Source): ToolHistory.Detail {
    match e
    case Loss => ToolHistory.UNKNOWN
    case Message(_, params) => Bounded(Get(Payload(params), "input"), source.Verified?)
    case Described(d) =>
      if d.input.Some? then Bounded(d.input, false)
      else Bounded(Some(Obj([Entry("detail", Str(if d.detail.Some? then d.detail.value else ""))])), false)
  }

  function Bounded(input: Option<Value>, trusted: bool): ToolHistory.Detail {
    var known := Arguments.Project(input);
    if trusted || (input.Some? && input.value.Obj?) then known else known.(truncated := true)
  }

  // The reasoning a frame brings, if it is such a frame.
  function Thought(e: Event): Option<string> {
    match e
    case Message(rpc, params) =>
      if !IsStreaming(rpc, params, "reasoning_delta") then None else
      (match Get(Payload(params), "delta") case Some(Str(text)) => Some(text) case _ => None)
    case _ => None
  }

  function TagOf(c: ToolHistory.Call): Tag {
    Tag(c.turn, c.id, c.tool)
  }

  function Identity(tag: Tag): string {
    ToolHistory.Identity(tag.turn, tag.call)
  }

  // ---------- The reader reads it ----------

  lemma {:induction false} FieldIs(v: Value, key: string)
    ensures ValidId(Get(v, key)) == Field(v, key)
  {
    hide Get, Bytes;
  }

  lemma {:induction false} CallFieldsRead(rpc: string, params: Value, source: Source)
    requires IsStreaming(rpc, params, "tool_call")
    ensures
      var (content, e) := (CallIn(params, Payload(params), source), Message(rpc, params));
      && (content.ToolCall? || content.NoCall?) && (content.ToolCall? <==> Told(e).Some?)
      && (content.ToolCall? ==>
            Told(e) == Some(TagOf(content.call)) && content.call.detail == ToldDetail(e, source))
  {
    hide Get, ValidId, Field, Arguments.Project, IsStreaming, Payload;
    FieldIs(params, "turnId");
    FieldIs(Payload(params), "toolCallId");
    FieldIs(Payload(params), "toolName");
  }

  lemma {:induction false} FieldsRead(rpc: string, params: Value, source: Source)
    ensures
      var (f, e) := (Read(rpc, params, source), Message(rpc, params));
      && (f.Unobserved? <==> !IsStreaming(rpc, params, "tool_call") && !IsStreaming(rpc, params, "reasoning_delta"))
      && (f.Unobserved? ==> Told(e).None? && Thought(e).None?)
      && (f.Streaming? ==>
            && f.id == Field(params, "eventId") && (f.tool <==> IsStreaming(rpc, params, "tool_call"))
            && (!f.tool <==> IsStreaming(rpc, params, "reasoning_delta"))
            && (f.tool ==> (f.content.ToolCall? || f.content.NoCall?) && Thought(e).None?)
            && (!f.tool ==> (f.content.Delta? || f.content.NoDelta?) && Told(e).None?)
            && (f.content.ToolCall? ==> Told(e) == Some(TagOf(f.content.call)))
            && (f.content.ToolCall? ==> f.content.call.detail == ToldDetail(e, source))
            && (f.content.NoCall? ==> Told(e).None?)
            && (f.content.Delta? ==> Thought(e) == Some(f.content.text))
            && (f.content.NoDelta? ==> Thought(e).None?))
  {
    hide Get, ValidId, Field, CallIn, ToldDetail, Named;
    FieldIs(params, "eventId");
    assert "tool_call"[0] != "reasoning_delta"[0];
    if IsStreaming(rpc, params, "tool_call") {
      CallFieldsRead(rpc, params, source);
    }
  }

  // The call an effect records, or the text it adds, is what the frame said.
  lemma {:induction false} EffectIsTold(o: Observation, e: Event)
    ensures
      var effect := Decide(o, e);
      && (CallOf(effect).Some? ==> Told(e) == Some(TagOf(CallOf(effect).value)))
      && (effect.Admit? && effect.content.Delta? ==> Thought(e) == Some(effect.content.text))
      && (CallOf(effect).Some? || DeltaOf(effect) != "" ==> effect.Admit? || effect.AdmitFrame?)
  {
    hide Read, LaunchKey, Told, Thought, Arguments.Project, Usable;
    match e
    case Loss =>
    case Message(rpc, params) => FieldsRead(rpc, params, o.source);
    case Described(d) => DescribedIsTold(d);
  }

  lemma {:induction false} DescribedIsTold(d: Descriptor)
    ensures Told(Described(d)) == Some(TagOf(DescribedCall(d)))
    ensures DescribedCall(d).detail == ToldDetail(Described(d), Dsh)
  {
    hide Arguments.Project;
  }

  // ---------- Nothing else is recorded ----------

  // The calls told of by all frames of a past.
  function ToldIn(p: Past): set<Tag> {
    match p
    case Launched(_, _) => {}
    case Observed(past, e) => ToldIn(past) + (match Told(e) case Some(tag) => {tag} case None => {})
    case Inherited(next, prior, _) => ToldIn(next) + ToldIn(prior)
  }

  ghost predicate AllTold(log: seq<ToolHistory.Call>, tags: set<Tag>) {
    forall i :: 0 <= i < |log| ==> TagOf(log[i]) in tags
  }

  lemma {:induction false} LoggedTold(log: seq<ToolHistory.Call>, c: ToolHistory.Call, tags: set<Tag>)
    requires AllTold(log, tags) && TagOf(c) in tags
    ensures AllTold(ToolHistory.Logged(log, c), tags)
  {
    hide ToolHistory.Rank, ToolHistory.Keys, ToolHistory.HasRoom, ToolHistory.Preferred;
  }

  lemma {:induction false} MergedTold(
    base: seq<ToolHistory.Call>, newer: seq<ToolHistory.Call>, n: nat, tags: set<Tag>)
    requires AllTold(base, tags) && AllTold(newer, tags) && n <= |newer|
    ensures AllTold(ToolHistory.Merged(base, newer, n), tags)
  {
    hide ToolHistory.Rank, ToolHistory.Keys, ToolHistory.Logged;
    if n > 0 {
      MergedTold(base, newer, n - 1, tags);
      LoggedTold(ToolHistory.Merged(base, newer, n - 1), ToolHistory.Remembered(newer, n - 1), tags);
    }
  }

  lemma {:induction false} LogIsTold(p: Past)
    ensures AllTold(Log(p), ToldIn(p))
  {
    hide Decide, Told, State, ToolHistory.Logged, ToolHistory.Merged;
    match p
    case Launched(_, _) =>
    case Observed(past, e) =>
      LogIsTold(past);
      EffectIsTold(State(past), e);
      if CallOf(Decide(State(past), e)).Some? {
        LoggedTold(Log(past), CallOf(Decide(State(past), e)).value, ToldIn(p));
      }
    case Inherited(next, prior, _) =>
      LogIsTold(next);
      LogIsTold(prior);
      MergedTold(Log(prior), Log(next), |Log(next)|, ToldIn(p));
  }

  /** Every call counted was told of as it is counted: in every reachable state, an
      identity that is known under a tool and shown under a call id is that of a frame
      with that turn, that call id and that tool. */
  lemma {:induction false} CountedAsTold(p: Past, key: string) returns (tag: Tag)
    requires Legal(p) && key in State(p).history.seen
    ensures
      var (h, ref) := (State(p).history, State(p).history.seen[key]);
      && tag in ToldIn(p) && Identity(tag) == key && tag.tool == ref.tool
      && (ref.tool in h.tools ==> forall i :: 0 <= i < |h.tools[ref.tool].recent| ==>
            h.tools[ref.tool].recent[i].seqNo == ref.seqNo ==> h.tools[ref.tool].recent[i].callId == tag.call)
  {
    hide State, ToolHistory.Of, Told, Log, ToolHistory.Unique, Splittable;
    ReachableStates(p);
    LogIsTold(p);
    var log := Log(p);
    ToolHistory.SeenKeys(log);
    ToolHistory.NumberFindsCall(log, key);
    var i := ToolHistory.Of(log).seen[key].seqNo - 1;
    ToolHistory.SeenAt(log, i);
    tag := TagOf(log[i]);
    ToolHistory.ShownIs(log, log[i].tool);
  }

  // ---------- Everything told is recorded ----------

  // There is room for one more call of the tool, or it is known.
  predicate RoomFor(h: ToolHistory.History, tag: Tag) {
    || Identity(tag) in h.seen
    || (|h.seen| < 65_536 && (tag.tool in h.tools || |h.tools| < 64))
  }

  // The call is known; if it is new, it is the newest of its tool and everything else is as it was.
  ghost predicate RecordedAs(
    h: ToolHistory.History, tag: Tag, detail: ToolHistory.Detail, next: ToolHistory.History)
  {
    var key := Identity(tag);
    && key in next.seen
    && (key in h.seen ==> next.seen == h.seen && next.nextSeq == h.nextSeq)
    && (key !in h.seen ==>
          var n := h.nextSeq + 1;
          && next.nextSeq == n && next.seen == h.seen[key := ToolHistory.CallRef(tag.tool, n)]
          && tag.tool in next.tools && next.tools.Keys == h.tools.Keys + {tag.tool}
          && var group := next.tools[tag.tool];
             && group.callCount == 1 + (if tag.tool in h.tools then h.tools[tag.tool].callCount else 0)
             && group.latestSeq == n && |group.recent| > 0
             && group.recent[0] == ToolHistory.ObservedCall(n, tag.call, detail)
             && forall t :: t in h.tools && t != tag.tool ==> next.tools[t] == h.tools[t])
  }

  lemma {:induction false} RecordIsRecorded(h: ToolHistory.History, c: ToolHistory.Call)
    requires RoomFor(h, TagOf(c))
    ensures RecordedAs(h, TagOf(c), c.detail, ToolHistory.Record(h, c).0)
  {
    hide ToolHistory.Identity, ToolHistory.Recount;
    if ToolHistory.Key(c) in h.seen {
      KnownStays(h, c);
    }
  }

  lemma {:induction false} KnownStays(h: ToolHistory.History, c: ToolHistory.Call)
    requires ToolHistory.Key(c) in h.seen
    ensures ToolHistory.Recount(h, c).0.seen == h.seen && ToolHistory.Recount(h, c).0.nextSeq == h.nextSeq
  {
    hide ToolHistory.Identity, ToolHistory.Find, ToolHistory.Preferred, ToolHistory.RefinedTools;
  }

  /** Every call a message tells of is recorded as told: if its event id is new to the
      launch and there is room, its identity is known afterwards under the tool named,
      and if it was not known before, it heads the recent calls of that tool under the
      call id named, with the arguments given. */
  lemma {:induction false} ToldIsRecorded(o: Observation, rpc: string, params: Value)
    requires Told(Message(rpc, params)).Some? && Field(params, "eventId").Some?
    requires LaunchKey(o.scope, Field(params, "eventId").value) !in o.events && |o.events| < 65_536
    requires RoomFor(o.history, Told(Message(rpc, params)).value)
    ensures
      var e := Message(rpc, params);
      RecordedAs(o.history, Told(e).value, ToldDetail(e, o.source), Observe(o, e).history)
  {
    hide Read, LaunchKey, ToolHistory.Record, ToolHistory.Identity, RecordedAs, RoomFor, Field;
    FieldsRead(rpc, params, o.source);
    var effect := Decide(o, Message(rpc, params));
    assert effect.Admit? && effect.content.ToolCall?;
    RecordIsRecorded(o.history, effect.content.call);
    ApplyEffect(o, effect);
  }

  /** The same of a call that is described, if its descriptor can be used. */
  lemma {:induction false} DescribedIsRecorded(o: Observation, d: Descriptor)
    requires IsId(d.callId) && IsId(d.tool) && d.sourceIdentity != "" && '\0' !in d.sourceIdentity
    requires LaunchKey(o.scope, d.sourceIdentity) !in o.frames && |o.frames| < 65_536
    requires RoomFor(o.history, Tag(d.turn, d.callId, d.tool))
    ensures
      var e := Described(d);
      RecordedAs(o.history, Tag(d.turn, d.callId, d.tool), ToldDetail(e, Dsh), Observe(o, e).history)
  {
    hide LaunchKey, ToolHistory.Record, ToolHistory.Identity, RecordedAs, RoomFor, DescribedCall, Bytes;
    DescribedIsTold(d);
    RecordIsRecorded(o.history, DescribedCall(d));
    ApplyEffect(o, Decide(o, Described(d)));
  }

  /** The reasoning of a task is what its reasoning frames bring, in their order: a frame
      adds its text if its event id is new, the launch collects reasoning and there is
      room, and nothing else ever adds any. */
  lemma {:induction false} ThoughtIsHeard(p: Past, e: Event)
    ensures
      var (o, before, after) := (State(p), Stream(p), Stream(Observed(p, e)));
      && (after == before || (Thought(e).Some? && after == before + Thought(e).value))
      && (Thought(e).Some? && o.collectReasoning && Field(e.params, "eventId").Some?
          && LaunchKey(o.scope, Field(e.params, "eventId").value) !in o.events && |o.events| < 65_536 ==>
            after == before + Thought(e).value)
  {
    hide Read, LaunchKey, State, Field;
    if e.Message? {
      FieldsRead(e.rpc, e.params, State(p).source);
    }
    assert Stream(p) + "" == Stream(p);
  }

  // ---------- What is refused costs the history its completeness ----------

  // Nothing is recorded, and the loss is on record.
  ghost predicate Costs(o: Observation, next: Observation) {
    && next.history == o.history && next.reasoning == o.reasoning
    && !next.toolHistoryComplete && next.reasoningComplete == o.reasoningComplete && next.dropped == o.dropped + 1
  }

  /** A call that cannot be recorded for want of a usable id, or of room for its source
      id, is not recorded, and the history is no longer reported complete. */
  lemma {:induction false} RefusedCosts(o: Observation, rpc: string, params: Value, d: Descriptor)
    ensures
      var (id, e) := (Field(params, "eventId"), Message(rpc, params));
      var refused := id.None? || (LaunchKey(o.scope, id.value) !in o.events && (Told(e).None? || |o.events| >= 65_536));
      IsStreaming(rpc, params, "tool_call") && refused ==> Costs(o, Observe(o, e))
    ensures
      var usable := IsId(d.callId) && IsId(d.tool) && d.sourceIdentity != "" && '\0' !in d.sourceIdentity;
      !usable || (LaunchKey(o.scope, d.sourceIdentity) !in o.frames && |o.frames| >= 65_536) ==>
        Costs(o, Observe(o, Described(d)))
  {
    hide Read, LaunchKey, Field, Told, DescribedCall, Bytes, IsStreaming;
    FieldsRead(rpc, params, o.source);
  }

  /** A frame whose source id is known is as if it had not come. */
  lemma {:induction false} ReplayChangesNothing(o: Observation, rpc: string, params: Value, d: Descriptor)
    ensures
      var id := Field(params, "eventId");
      id.Some? && LaunchKey(o.scope, id.value) in o.events ==> Observe(o, Message(rpc, params)) == o
    ensures
      var usable := IsId(d.callId) && IsId(d.tool) && d.sourceIdentity != "" && '\0' !in d.sourceIdentity;
      usable && LaunchKey(o.scope, d.sourceIdentity) in o.frames ==> Observe(o, Described(d)) == o
  {
    hide Read, LaunchKey, Field, DescribedCall, Bytes;
    FieldsRead(rpc, params, o.source);
  }

  // Everything a snapshot shows is the same.
  ghost predicate SameSnapshot(o: Observation, next: Observation) {
    && next.history == o.history && next.reasoning == o.reasoning && next.dropped == o.dropped
    && next.toolHistoryComplete == o.toolHistoryComplete && next.reasoningComplete == o.reasoningComplete
  }

  lemma {:induction false} RecordAdvances(o: Observation, call: ToolHistory.Call)
    ensures
      var next := RecordCall(o, call);
      || (next.snapshotSeq == o.snapshotSeq && SameSnapshot(o, next))
      || next.snapshotSeq == o.snapshotSeq + 1
  {
    hide ToolHistory.Record;
  }

  /** Every change of a snapshot gives it the next number. */
  lemma {:induction false} SnapshotAdvances(o: Observation, e: Event)
    ensures
      var next := Observe(o, e);
      || (next.snapshotSeq == o.snapshotSeq && SameSnapshot(o, next))
      || next.snapshotSeq == o.snapshotSeq + 1
  {
    hide Decide, RecordCall, Reasoning.Observe, Reasoning.Rolls;
    match Decide(o, e)
    case Admit(key, ToolCall(call)) => RecordAdvances(o.(events := o.events + {key}), call);
    case AdmitFrame(key, call) => RecordAdvances(o.(frames := o.frames + {key}), call);
    case _ =>
  }

  // ---------- The adapter behind a state ----------

  function AdapterOf(p: Past): string {
    match p
    case Launched(adapter, _) => adapter
    case Observed(past, _) => AdapterOf(past)
    case Inherited(_, prior, _) => AdapterOf(prior)
  }

  /** Which contract a state speaks and whether it collects reasoning is up to the
      adapter that was launched first, and only its history can be complete. */
  lemma {:induction false} AdapterSpeaks(p: Past)
    ensures
      var o := State(p);
      && (o.source.Dsh? <==> AdapterOf(p) == "dsh")
      && (o.collectReasoning <==> AdapterOf(p) == "zcode" || AdapterOf(p) == "dsh")
      && (o.toolHistoryComplete ==> AdapterOf(p) == "zcode")
      && (o.reasoningComplete ==> AdapterOf(p) == "zcode" || AdapterOf(p) == "dsh")
  {
    hide Decide, ToolHistory.ReplayAll, Absorb, ToolHistory.Record, Reasoning.Observe, Reasoning.Rolls, Reasoning.Merge;
    match p
    case Launched(_, _) =>
    case Observed(past, e) =>
      AdapterSpeaks(past);
      OnlyLoses(State(past), Decide(State(past), e));
    case Inherited(next, prior, _) =>
      AdapterSpeaks(next);
      AdapterSpeaks(prior);
  }

  // A frame changes neither, and completes nothing.
  lemma {:induction false} OnlyLoses(o: Observation, effect: Effect)
    ensures
      var next := Apply(o, effect);
      && next.source == o.source && next.collectReasoning == o.collectReasoning
      && (next.toolHistoryComplete ==> o.toolHistoryComplete) && (next.reasoningComplete ==> o.reasoningComplete)
  {
    hide ToolHistory.Record, Reasoning.Observe, Reasoning.Rolls;
  }
}
