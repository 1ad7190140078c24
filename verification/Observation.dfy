/**
 The observation history of a task: which tools it called, what it reasoned and
 how complete that record is. Frames are admitted once per launch, and the state
 of a finished claim is folded into the state of the next one.
 */
module Observation {
  import opened Json
  import opened Listings
  import opened Options
  import opened Utf8
  import ToolHistory
  import Reasoning
  import Arguments

  const MAX_ID_BYTES: nat := 512

  // The public reasoning contract the adapter speaks.
  datatype Source = Verified | Dsh

  datatype Observation = Observation(
    scope: nat,
    collectReasoning: bool,
    source: Source,
    snapshotSeq: nat,
    history: ToolHistory.History,
    events: set<string>,
    frames: set<string>,
    reasoning: Reasoning.Reasoning,
    toolHistoryComplete: bool,
    reasoningComplete: bool,
    dropped: nat)

  datatype Descriptor = Descriptor(
    turn: string,
    callId: string,
    tool: string,
    sourceIdentity: string,
    input: Option<Value>,
    detail: Option<string>)

  datatype Event = Message(rpc: string, params: Value) | Described(descriptor: Descriptor) | Loss

  function Launch(adapter: string, scope: nat): Observation {
    var public := adapter == "zcode" || adapter == "dsh";
    Observation(
      scope, public, if adapter == "dsh" then Dsh else Verified, 0, ToolHistory.EMPTY, {}, {},
      Reasoning.EMPTY, adapter == "zcode", public, 0)
  }

  // The name of a source frame across launches.
  function LaunchKey(scope: nat, id: string): string {
    ToolHistory.Identity(Decimal(scope), id)
  }

  predicate ValidText(s: string) {
    s != "" && Bytes(s) <= MAX_ID_BYTES && '\0' !in s
  }

  function ValidId(v: Option<Value>): Option<string> {
    var text := AsText(v);
    if text.Some? && ValidText(text.value) then text else None
  }

  // ---------- What a frame says ----------

  datatype Content =
    | Delta(text: string)
    | NoDelta                           // a reasoning frame without text
    | ToolCall(call: ToolHistory.Call)
    | NoCall                            // a tool frame without a usable call

  // A frame of one of the two observed kinds, before any guard.
  datatype Frame = Unobserved | Streaming(tool: bool, id: Option<string>, content: Content)

  function CallIn(params: Value, payload: Value, source: Source): Content {
    var id, tool := ValidId(Get(payload, "toolCallId")), ValidId(Get(payload, "toolName"));
    if id.None? || tool.None? then NoCall else
    var turn := ValidId(Get(params, "turnId"));
    var input := Get(payload, "input");
    var known := Arguments.Project(input);
    var isObject := input.Some? && input.value.Obj?;
    var detail := if source.Dsh? && !isObject then known.(truncated := true) else known;
    ToolCall(ToolHistory.Call(if turn.Some? then turn.value else "", id.value, tool.value, detail))
  }

  function Read(rpc: string, params: Value, source: Source): Frame {
    if rpc != "session/event" || GetText(params, "type") != Some("model.streaming") then Unobserved else
    var member := Get(params, "payload");
    var payload := if member.Some? then member.value else Null;
    var id := ValidId(Get(params, "eventId"));
    var kind := GetText(payload, "kind");
    if kind == Some("reasoning_delta") then
      var delta := GetText(payload, "delta");
      Streaming(false, id, if delta.Some? then Delta(delta.value) else NoDelta)
    else if kind == Some("tool_call") then Streaming(true, id, CallIn(params, payload, source))
    else Unobserved
  }

  predicate Usable(d: Descriptor) {
    ValidText(d.callId) && ValidText(d.tool) && d.sourceIdentity != "" && '\0' !in d.sourceIdentity
  }

  function DescribedCall(d: Descriptor): ToolHistory.Call {
    var detail :=
      match d.input
      case Some(input) =>
        var known := Arguments.Project(Some(input));
        if input.Obj? then known else known.(truncated := true)
      case None =>
        var text := if d.detail.Some? then d.detail.value else "";
        Arguments.Project(Some(Obj([Entry("detail", Str(text))])));
    ToolHistory.Call(d.turn, d.callId, d.tool, detail)
  }

  // ---------- What a frame does ----------

  datatype Effect =
    | Ignore
    | Drop(tool: bool)
    | Admit(key: string, content: Content)
    | AdmitFrame(key: string, call: ToolHistory.Call)
    | Lose

  datatype Admission = Known | Full | New

  // A replay key is taken once, and only while there is room.
  function Admits(keys: set<string>, key: string): Admission {
    if key in keys then Known else if |keys| >= ToolHistory.MAX_IDENTITIES then Full else New
  }

  function DecideMessage(o: Observation, frame: Frame): Effect {
    match frame
    case Unobserved => Ignore
    case Streaming(tool, id, content) =>
      if !tool && !o.collectReasoning then Ignore
      else if id.None? then Drop(tool)
      else
        var key := LaunchKey(o.scope, id.value);
        match Admits(o.events, key)
        case Known => Ignore
        case Full => Drop(tool)
        case New => Admit(key, content)
  }

  function DecideDescribed(o: Observation, d: Descriptor): Effect {
    if !Usable(d) then Drop(true)
    else
      var key := LaunchKey(o.scope, d.sourceIdentity);
      match Admits(o.frames, key)
      case Known => Ignore
      case Full => Drop(true)
      case New => AdmitFrame(key, DescribedCall(d))
  }

  function Decide(o: Observation, e: Event): Effect {
    match e
    case Loss => Lose
    case Message(rpc, params) => DecideMessage(o, Read(rpc, params, o.source))
    case Described(d) => DecideDescribed(o, d)
  }

  function Bump(o: Observation): Observation {
    o.(snapshotSeq := o.snapshotSeq + 1)
  }

  function DropEvent(o: Observation, tool: bool): Observation {
    Bump(o.(
      toolHistoryComplete := o.toolHistoryComplete && !tool,
      reasoningComplete := o.reasoningComplete && tool,
      dropped := o.dropped + 1))
  }

  function Reason(o: Observation, delta: string): Observation {
    var rolls := Reasoning.Rolls(o.reasoning, delta);
    o.(
      reasoning := Reasoning.Observe(o.reasoning, delta),
      reasoningComplete := o.reasoningComplete && !rolls,
      dropped := o.dropped + if rolls then 1 else 0)
  }

  function RecordCall(o: Observation, call: ToolHistory.Call): Observation {
    var (history, outcome) := ToolHistory.Record(o.history, call);
    match outcome
    case Unchanged => o
    case Dropped => DropEvent(o, true)
    case _ => Bump(o.(history := history))
  }

  function Take(o: Observation, content: Content): Observation {
    match content
    case Delta(text) => Bump(Reason(o, text))
    case NoDelta => Bump(o.(reasoningComplete := false, dropped := o.dropped + 1))
    case ToolCall(call) => RecordCall(o, call)
    case NoCall => DropEvent(o, true)
  }

  function Apply(o: Observation, effect: Effect): Observation {
    match effect
    case Ignore => o
    case Drop(tool) => DropEvent(o, tool)
    case Admit(key, content) => Take(o.(events := o.events + {key}), content)
    case AdmitFrame(key, call) => RecordCall(o.(frames := o.frames + {key}), call)
    case Lose => Bump(o.(toolHistoryComplete := false, reasoningComplete := false, dropped := o.dropped + 1))
  }

  function Observe(o: Observation, e: Event): Observation {
    Apply(o, Decide(o, e))
  }

  // ---------- Folding a newer observation into an older one ----------

  // Replay keys taken over in some order, until the set is full.
  function Absorb(known: set<string>, order: seq<string>): (set<string>, bool)
    decreases order
  {
    if order == [] then (known, false)
    else if |known| >= ToolHistory.MAX_IDENTITIES then (known, true)
    else Absorb(known + {order[0]}, order[1..])
  }

  // How a merge walks through the hashed collections of the newer state.
  datatype Walk = Walk(calls: seq<ToolHistory.Listed>, events: seq<string>, frames: seq<string>)

  ghost predicate IsWalk(walk: Walk, newer: Observation) {
    && ToolHistory.IsReceiptOrder(newer.history.seen, walk.calls)
    && Lists(walk.events, newer.events)
    && Lists(walk.frames, newer.frames)
  }

  function Merge(o: Observation, newer: Observation, walk: Walk): Observation {
    var rolls := Reasoning.Rolls(o.reasoning, newer.reasoning.raw);
    var replay := ToolHistory.ReplayAll(o.history, newer.history, walk.calls);
    var (events, lost) := Absorb(o.events, walk.events);
    var (frames, lost') := Absorb(o.frames, walk.frames);
    Observation(
      newer.scope,
      o.collectReasoning,
      o.source,
      o.snapshotSeq + replay.counted + replay.dropped + newer.snapshotSeq,
      replay.history,
      events,
      frames,
      Reasoning.Merge(o.reasoning, newer.reasoning),
      o.toolHistoryComplete && newer.toolHistoryComplete && replay.dropped == 0 && !lost && !lost',
      o.reasoningComplete && !rolls && newer.reasoningComplete && !lost && !lost',
      o.dropped + (if rolls then 1 else 0) + newer.dropped + replay.dropped
      + (if lost then 1 else 0) + (if lost' then 1 else 0))
  }

  // ---------- Every reachable state ----------

  // How a state came about: launches, frames and inherited claims in any order.
  datatype Past =
    | Launched(adapter: string, scope: nat)
    | Observed(past: Past, event: Event)
    | Inherited(next: Past, prior: Past, walk: Walk)

  function State(p: Past): Observation {
    match p
    case Launched(adapter, scope) => Launch(adapter, scope)
    case Observed(past, event) => Observe(State(past), event)
    case Inherited(next, prior, walk) => Merge(State(prior), State(next), walk)
  }

  // A merge walks through what is there, and the parser hands over turn ids
  // without a NUL.
  ghost predicate Legal(p: Past) {
    match p
    case Launched(_, _) => true
    case Observed(past, event) =>
      Legal(past) && (event.Described? ==> ToolHistory.NulFree(event.descriptor.turn))
    case Inherited(next, prior, walk) => Legal(next) && Legal(prior) && IsWalk(walk, State(next))
  }

  function CallOf(effect: Effect): Option<ToolHistory.Call> {
    match effect
    case Admit(_, ToolCall(call)) => Some(call)
    case AdmitFrame(_, call) => Some(call)
    case _ => None
  }

  function DeltaOf(effect: Effect): string {
    match effect
    case Admit(_, Delta(text)) => text
    case _ => ""
  }

  // The log and the reasoning stream behind a state.
  function Log(p: Past): seq<ToolHistory.Call> {
    match p
    case Launched(_, _) => []
    case Observed(past, event) =>
      (match CallOf(Decide(State(past), event))
       case Some(call) => ToolHistory.Logged(Log(past), call)
       case None => Log(past))
    case Inherited(next, prior, _) => ToolHistory.Merged(Log(prior), Log(next), |Log(next)|)
  }

  function Stream(p: Past): string {
    match p
    case Launched(_, _) => ""
    case Observed(past, event) => Stream(past) + DeltaOf(Decide(State(past), event))
    case Inherited(next, prior, _) => Stream(prior) + Stream(next)
  }

  lemma {:induction false} RecordCallKeepsRest(o: Observation, call: ToolHistory.Call)
    ensures
      var r := RecordCall(o, call);
      && r.history == ToolHistory.Record(o.history, call).0
      && r.reasoning == o.reasoning && r.events == o.events && r.frames == o.frames
      && r.scope == o.scope && r.collectReasoning == o.collectReasoning && r.source == o.source
  {
  }

  // What one frame does to the history and to the reasoning.
  lemma {:induction false} ApplyEffect(o: Observation, effect: Effect)
    ensures Apply(o, effect).history ==
            match CallOf(effect) case Some(call) => ToolHistory.Record(o.history, call).0 case None => o.history
    ensures Apply(o, effect).reasoning == Reasoning.Observe(o.reasoning, DeltaOf(effect))
  {
    match effect
    case Admit(key, ToolCall(call)) => RecordCallKeepsRest(o.(events := o.events + {key}), call);
    case AdmitFrame(key, call) => RecordCallKeepsRest(o.(frames := o.frames + {key}), call);
    case _ =>
  }

  lemma {:induction false} ReportedTurn(o: Observation, e: Event)
    requires CallOf(Decide(o, e)).Some?
    requires e.Described? ==> ToolHistory.NulFree(e.descriptor.turn)
    ensures ToolHistory.NulFree(CallOf(Decide(o, e)).value.turn)
  {
  }

  ghost predicate Splittable(log: seq<ToolHistory.Call>) {
    forall i :: 0 <= i < |log| ==> ToolHistory.NulFree(log[i].turn)
  }

  lemma {:induction false} MergedSplittable(base: seq<ToolHistory.Call>, newer: seq<ToolHistory.Call>, n: nat)
    requires Splittable(base) && Splittable(newer) && n <= |newer|
    ensures Splittable(ToolHistory.Merged(base, newer, n))
  {
    if n > 0 {
      MergedSplittable(base, newer, n - 1);
      ToolHistory.LoggedKeeps(ToolHistory.Merged(base, newer, n - 1), ToolHistory.Remembered(newer, n - 1), {});
    }
  }

  /** In every reachable state the bounded history is the history of the log of
      admitted calls, and the text shown is the last 200 characters of the whole
      reasoning stream, flagged exactly when the stream is longer. */
  lemma {:induction false} ReachableStates(p: Past)
    requires Legal(p)
    ensures State(p).history == ToolHistory.Of(Log(p))
    ensures ToolHistory.Unique(Log(p)) && Splittable(Log(p))
    ensures Reasoning.Shows(State(p).reasoning, Stream(p))
  {
    hide Decide, Apply, ToolHistory.Record, ToolHistory.Of, Reasoning.Shows;
    match p
    case Launched(_, _) =>
      ToolHistory.NothingLogged();
      Reasoning.NothingShown();
    case Observed(past, event) =>
      ReachableStates(past);
      var effect := Decide(State(past), event);
      ApplyEffect(State(past), effect);
      Reasoning.ObserveShows(State(past).reasoning, Stream(past), DeltaOf(effect));
      if CallOf(effect).Some? {
        ReportedTurn(State(past), event);
        ToolHistory.RecordLogs(Log(past), CallOf(effect).value);
        ToolHistory.LoggedKeeps(Log(past), CallOf(effect).value, {});
      }
    case Inherited(next, prior, walk) =>
      ReachableStates(next);
      ReachableStates(prior);
      Reasoning.MergeShows(State(prior).reasoning, Stream(prior), State(next).reasoning, Stream(next));
      ToolHistory.ReceiptOrderIsLog(Log(next), walk.calls);
      ToolHistory.ReplayLogs(Log(prior), Log(next), |Log(next)|);
      assert Log(next)[..|Log(next)|] == Log(next);
      MergedSplittable(Log(prior), Log(next), |Log(next)|);
  }
}
