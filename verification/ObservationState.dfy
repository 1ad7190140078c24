/**
 The observation state as the daemon keeps it: one mutable record, updated in
 place by every frame and by the merge at a re-claim. Each method is proved
 against the function that specifies it.
 */
module ObservationState {
  import opened Json
  import opened Options
  import opened Utf8
  import opened Observation
  import ToolHistory
  import Reasoning
  import Arguments

  class ObservationState {
    var launchScope: nat
    const collectReasoning: bool
    const reasoningSource: Source
    var snapshotSeq: nat
    var history: ToolHistory.History
    var seenSourceEvents: set<string>
    var seenDescriptorFrames: set<string>
    var reasoning: Reasoning.Reasoning
    var toolHistoryComplete: bool
    var reasoningComplete: bool
    var droppedEvents: nat

    ghost function Contents(): Observation
      reads this
    {
      Observation(
        launchScope, collectReasoning, reasoningSource, snapshotSeq, history, seenSourceEvents, seenDescriptorFrames,
        reasoning, toolHistoryComplete, reasoningComplete, droppedEvents)
    }

    constructor ForLaunch(adapter: string, scope: nat)
      ensures Contents() == Launch(adapter, scope)
    {
      var public := adapter == "zcode" || adapter == "dsh";
      launchScope, collectReasoning := scope, public;
      reasoningSource := if adapter == "dsh" then Dsh else Verified;
      snapshotSeq, history, droppedEvents := 0, ToolHistory.EMPTY, 0;
      seenSourceEvents, seenDescriptorFrames := {}, {};
      reasoning := Reasoning.EMPTY;
      toolHistoryComplete, reasoningComplete := adapter == "zcode", public;
    }

    method BumpSnapshot()
      modifies `snapshotSeq
      ensures Contents() == Bump(old(Contents()))
    {
      snapshotSeq := snapshotSeq + 1;
    }

    method DropOne(tool: bool)
      modifies this
      ensures Contents() == DropEvent(old(Contents()), tool)
    {
      if tool {
        toolHistoryComplete := false;
      } else {
        reasoningComplete := false;
      }
      droppedEvents := droppedEvents + 1;
      BumpSnapshot();
    }

    method ObserveLoss()
      modifies this
      ensures Contents() == Apply(old(Contents()), Lose)
    {
      toolHistoryComplete, reasoningComplete := false, false;
      droppedEvents := droppedEvents + 1;
      BumpSnapshot();
    }

    method ObserveReasoning(delta: string)
      modifies this
      ensures Contents() == Reason(old(Contents()), delta)
    {
      hide Bytes, Reasoning.Tail;
      if delta == "" {
        return;
      }
      var raw := reasoning.raw + delta;
      var truncated := reasoning.truncated;
      if Bytes(raw) > Reasoning.MAX_REASONING_BYTES {
        raw := TrimHead(raw, Reasoning.MAX_REASONING_BYTES);
        truncated := true;
        reasoningComplete := false;
        droppedEvents := droppedEvents + 1;
      }
      reasoning := Reasoning.Reasoning(
        raw, Reasoning.Tail(raw), truncated || |raw| > Reasoning.MAX_REASONING_CHARS);
    }

    method RecordToolCall(call: ToolHistory.Call)
      modifies this
      ensures Contents() == RecordCall(old(Contents()), call)
    {
      hide ToolHistory.Key, ToolHistory.Find, ToolHistory.FirstFive;
      var identity := ToolHistory.Key(call);
      var tools := history.tools;
      if identity in history.seen {
        var known := history.seen[identity];
        if known.tool in tools {
          var group := tools[known.tool];
          var i := ToolHistory.Find(group.recent, known.seqNo);
          if i < |group.recent| {
            var shown := group.recent[i];
            var downgrade := call.detail.arguments == [] && call.detail.truncated && shown.detail.arguments != [];
            if !downgrade && shown.detail != call.detail {
              var refined := group.recent[i := shown.(detail := call.detail)];
              history := history.(tools := tools[known.tool := group.(recent := refined)]);
              BumpSnapshot();
            }
          }
        }
        return;
      }
      if |history.seen| >= ToolHistory.MAX_IDENTITIES
         || (call.tool !in tools && |tools| >= ToolHistory.MAX_TOOL_TYPES) {
        DropOne(true);
        return;
      }
      var seqNo := history.nextSeq + 1;
      var group := if call.tool in tools then tools[call.tool] else ToolHistory.ToolGroup(0, 0, []);
      var recent := ToolHistory.FirstFive([ToolHistory.ObservedCall(seqNo, call.id, call.detail)] + group.recent);
      history := ToolHistory.History(
        seqNo,
        history.seen[identity := ToolHistory.CallRef(call.tool, seqNo)],
        tools[call.tool := ToolHistory.ToolGroup(group.callCount + 1, seqNo, recent)]);
      BumpSnapshot();
    }

    method ObserveTool(params: Value, payload: Value)
      modifies this
      ensures Contents() == Take(old(Contents()), CallIn(params, payload, reasoningSource))
    {
      hide ToolHistory.Record, RecordCall, Arguments.Project, ValidId;
      var id := ValidId(Get(payload, "toolCallId"));
      if id.None? {
        DropOne(true);
        return;
      }
      var tool := ValidId(Get(payload, "toolName"));
      if tool.None? {
        DropOne(true);
        return;
      }
      var turn := ValidId(Get(params, "turnId"));
      var input := Get(payload, "input");
      var detail := Arguments.Project(input);
      if reasoningSource == Dsh && !(input.Some? && input.value.Obj?) {
        detail := detail.(truncated := true);
      }
      RecordToolCall(ToolHistory.Call(if turn.Some? then turn.value else "", id.value, tool.value, detail));
    }

    method ObserveMessage(rpc: string, params: Value)
      modifies this
      ensures Contents() == Observe(old(Contents()), Message(rpc, params))
    {
      hide ToolHistory.Record, RecordCall, CallIn, ValidId, LaunchKey, Reason;
      if rpc != "session/event" || GetText(params, "type") != Some("model.streaming") {
        return;
      }
      var member := Get(params, "payload");
      var payload := if member.Some? then member.value else Null;
      var kind := GetText(payload, "kind");
      if kind != Some("reasoning_delta") && kind != Some("tool_call") {
        return;
      }
      var isTool := kind == Some("tool_call");
      if !isTool && !collectReasoning {
        return;
      }
      var id := ValidId(Get(params, "eventId"));
      if id.None? {
        DropOne(isTool);
        return;
      }
      var key := LaunchKey(launchScope, id.value);
      if key in seenSourceEvents {
        return;
      }
      if |seenSourceEvents| >= ToolHistory.MAX_IDENTITIES {
        DropOne(isTool);
        return;
      }
      seenSourceEvents := seenSourceEvents + {key};
      if isTool {
        ObserveTool(params, payload);
      } else {
        var delta := GetText(payload, "delta");
        if delta.None? {
          reasoningComplete := false;
          droppedEvents := droppedEvents + 1;
        } else {
          ObserveReasoning(delta.value);
        }
        BumpSnapshot();
      }
    }

    method ObserveDescriptor(d: Descriptor)
      modifies this
      ensures Contents() == Observe(old(Contents()), Described(d))
    {
      hide ToolHistory.Record, RecordCall, DescribedCall, LaunchKey, ValidText;
      if !Usable(d) {
        DropOne(true);
        return;
      }
      var key := LaunchKey(launchScope, d.sourceIdentity);
      if key in seenDescriptorFrames {
        return;
      }
      if |seenDescriptorFrames| >= ToolHistory.MAX_IDENTITIES {
        DropOne(true);
        return;
      }
      seenDescriptorFrames := seenDescriptorFrames + {key};
      RecordToolCall(DescribedCall(d));
    }

    method AdoptReasoning(raw: string)
      modifies this
      ensures Contents() == Reason(old(Contents()), raw)
    {
      hide Reasoning.Observe, Reasoning.Rolls;
      Reasoning.NothingRolls(reasoning);
      if raw != "" {
        ObserveReasoning(raw);
      }
    }

    method AdoptLaunch(newer: Observation)
      modifies this
      ensures Contents() == Adopted(old(Contents()), newer)
    {
      hide Reasoning.Observe, Reasoning.Rolls;
      launchScope := newer.scope;
      AdoptReasoning(newer.reasoning.raw);
      reasoning := reasoning.(truncated := reasoning.truncated || newer.reasoning.truncated);
      reasoningComplete := reasoningComplete && newer.reasoningComplete;
      toolHistoryComplete := toolHistoryComplete && newer.toolHistoryComplete;
      droppedEvents := droppedEvents + newer.dropped;
    }

    // `walk` is the order in which the hashed collections of `newer` are visited.
    method MergeNewer(newer: Observation, walk: Walk)
      modifies this
      ensures Contents() == Merge(old(Contents()), newer, walk)
    {
      hide Absorb, ToolHistory.ReplayAll, Merge, Adopted;
      MergeSteps(Contents(), newer, walk);
      AdoptLaunch(newer);
      ReplayCalls(newer.history, walk.calls);
      var events := AbsorbKeys(seenSourceEvents, walk.events);
      seenSourceEvents := events;
      var frames := AbsorbKeys(seenDescriptorFrames, walk.frames);
      seenDescriptorFrames := frames;
      snapshotSeq := snapshotSeq + newer.snapshotSeq;
    }

    method ReplayCalls(newer: ToolHistory.History, calls: seq<ToolHistory.Listed>)
      modifies this
      ensures Contents() == Replayed(old(Contents()), ToolHistory.ReplayAll(old(Contents()).history, newer, calls))
    {
      ghost var start := Contents();
      var i := 0;
      while i < |calls|
        invariant 0 <= i <= |calls|
        invariant Contents() == Replayed(start, ToolHistory.ReplayAll(start.history, newer, calls[..i]))
      {
        hide ToolHistory.Record, ToolHistory.ReplayedCall, ToolHistory.ReplayAll, RecordCall;
        ReplayStep(start, newer, calls, i);
        if calls[i].id !in history.seen {
          RecordToolCall(ToolHistory.ReplayedCall(newer, calls[i]));
        }
        i := i + 1;
      }
      assert calls[..|calls|] == calls;
    }

    // Returns early, flagging the loss, once the set is full.
    method AbsorbKeys(known: set<string>, order: seq<string>) returns (all: set<string>)
      modifies `toolHistoryComplete, `reasoningComplete, `droppedEvents
      ensures
        var (keys, lost) := Absorb(known, order);
        && all == keys
        && toolHistoryComplete == (old(toolHistoryComplete) && !lost)
        && reasoningComplete == (old(reasoningComplete) && !lost)
        && droppedEvents == old(droppedEvents) + if lost then 1 else 0
    {
      all := known;
      var i := 0;
      while i < |order|
        invariant 0 <= i <= |order|
        invariant Absorb(known, order) == Absorb(all, order[i..])
        invariant toolHistoryComplete == old(toolHistoryComplete) && reasoningComplete == old(reasoningComplete)
        invariant droppedEvents == old(droppedEvents)
      {
        if |all| >= ToolHistory.MAX_IDENTITIES {
          toolHistoryComplete, reasoningComplete := false, false;
          droppedEvents := droppedEvents + 1;
          return;
        }
        all := all + {order[i]};
        i := i + 1;
      }
    }
  }

  // A state after it took over the scope, the reasoning and the flags of a newer one.
  function Adopted(o: Observation, newer: Observation): Observation {
    var rolls := Reasoning.Rolls(o.reasoning, newer.reasoning.raw);
    o.(
      scope := newer.scope,
      reasoning := Reasoning.Merge(o.reasoning, newer.reasoning),
      toolHistoryComplete := o.toolHistoryComplete && newer.toolHistoryComplete,
      reasoningComplete := o.reasoningComplete && !rolls && newer.reasoningComplete,
      dropped := o.dropped + (if rolls then 1 else 0) + newer.dropped)
  }

  // A merge is adopting, replaying and absorbing, in this order.
  lemma {:induction false} MergeSteps(o: Observation, newer: Observation, walk: Walk)
    ensures
      var r := Replayed(Adopted(o, newer), ToolHistory.ReplayAll(Adopted(o, newer).history, newer.history, walk.calls));
      var (events, lost) := Absorb(r.events, walk.events);
      var (frames, lost') := Absorb(r.frames, walk.frames);
      Merge(o, newer, walk) == r.(
        events := events,
        frames := frames,
        snapshotSeq := r.snapshotSeq + newer.snapshotSeq,
        toolHistoryComplete := r.toolHistoryComplete && !lost && !lost',
        reasoningComplete := r.reasoningComplete && !lost && !lost',
        dropped := r.dropped + (if lost then 1 else 0) + if lost' then 1 else 0)
  {
    hide Absorb, ToolHistory.ReplayAll, Reasoning.Merge, Reasoning.Rolls;
  }

  // A state after a replay: the new history, what was counted and what was refused.
  function Replayed(o: Observation, r: ToolHistory.Replay): Observation {
    o.(
      history := r.history,
      snapshotSeq := o.snapshotSeq + r.counted + r.dropped,
      toolHistoryComplete := o.toolHistoryComplete && r.dropped == 0,
      dropped := o.dropped + r.dropped)
  }

  lemma {:induction false} ReplayStep(
    o: Observation, newer: ToolHistory.History, calls: seq<ToolHistory.Listed>, i: nat)
    requires i < |calls|
    ensures
      var r := ToolHistory.ReplayAll(o.history, newer, calls[..i]);
      var next := ToolHistory.ReplayAll(o.history, newer, calls[..i + 1]);
      Replayed(o, next) ==
      if calls[i].id in r.history.seen then Replayed(o, r)
      else RecordCall(Replayed(o, r), ToolHistory.ReplayedCall(newer, calls[i]))
  {
    hide ToolHistory.Count, ToolHistory.RefinedTools, ToolHistory.Find, ToolHistory.ReplayedCall;
    assert calls[..i + 1][..i] == calls[..i];
    var r := ToolHistory.ReplayAll(o.history, newer, calls[..i]);
    assert ToolHistory.ReplayAll(o.history, newer, calls[..i + 1]) == ToolHistory.ReplayOne(r, newer, calls[i]);
  }
}
