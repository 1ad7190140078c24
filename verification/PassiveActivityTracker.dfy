/**
 The activity tracker as the daemon keeps it: fields behind one lock, updated in
 place by every runtime event, every delivery and every re-claim. Each method is
 proved against the function that specifies it.
 */
module PassiveActivityTracker {
  import opened Options
  import opened Utf8
  import opened ActivityParser
  import opened ActivityTracker
  import Observation
  import WaitText

  class PassiveActivityTracker {
    const mode: Mode
    var requests: map<string, nat>
    var lastDeltaAt: Option<nat>
    var text: WaitText.Text
    var activeTools: map<string, ActiveTool>
    var samples: map<string, Sample>
    var sampleOrder: seq<string>
    var telemetryDegraded: bool
    var observation: Observation.Observation

    ghost function Contents(): Activity
      reads this
    {
      Activity(
        requests, lastDeltaAt, text, activeTools, Queue(samples, sampleOrder), telemetryDegraded, observation)
    }

    constructor ForLaunch(adapter: string, scope: nat)
      ensures Contents() == Launched(adapter, scope) && mode == ModeOf(adapter)
    {
      mode := ModeOf(adapter);
      requests, lastDeltaAt, text := map[], None, WaitText.FRESH;
      activeTools, samples, sampleOrder, telemetryDegraded := map[], map[], [], false;
      observation := Observation.Launch(adapter, scope);
    }

    method AppendLatestText(delta: string, wall: nat)
      modifies `text
      ensures text == WaitText.Append(old(text), delta, wall)
    {
      hide Bytes;
      var terminal := if text.settled then text.terminal else text.terminal + delta;
      var tail, truncated := text.tail + delta, text.truncated;
      if Bytes(tail) > WaitText.MAX_LATEST_TEXT_BYTES {
        tail := TrimHead(tail, WaitText.MAX_LATEST_TEXT_BYTES);
        truncated := true;
      }
      text := text.(
        tail := tail, appended := text.appended + Bytes(delta), truncated := truncated,
        updatedAt := Some(wall), terminal := terminal);
    }

    // Drops the oldest samples until the queue is within its bound.
    method EvictOldest()
      modifies `samples, `sampleOrder
      ensures Queue(samples, sampleOrder) == Evict(old(Queue(samples, sampleOrder)))
    {
      while |sampleOrder| > MAX_ACTIVITY_IDENTITIES
        invariant Evict(Queue(samples, sampleOrder)) == Evict(old(Queue(samples, sampleOrder)))
        decreases |sampleOrder|
      {
        samples := samples - {sampleOrder[0]};
        sampleOrder := sampleOrder[1..];
      }
    }

    // Takes in the sample of an event unless it is known already.
    method Admit(p: Parsed, now: nat) returns (admitted: bool)
      modifies `samples, `sampleOrder
      ensures admitted == !Refused(old(samples), p)
      ensures Queue(samples, sampleOrder) == Evict(Enqueue(old(Queue(samples, sampleOrder)), p, now))
    {
      hide Evict;
      admitted := true;
      if p.identity.Some? && p.sample.Some? {
        var id := p.identity.value;
        var replace := id !in samples || (samples[id].source.Telemetry? && p.source.Session?);
        if replace {
          if id !in samples {
            sampleOrder := sampleOrder + [id];
          }
          samples := samples[id := Sample(p.source, now, p.sample.value)];
        } else {
          admitted := false;
        }
      }
      EvictOldest();
    }

    method ApplyTransition(p: Parsed, now: nat)
      modifies `requests, `lastDeltaAt, `activeTools, `text
      ensures Contents() == Move(old(Contents()), p, now)
    {
      if p.transition.None? {
        return;
      }
      match p.transition.value {
        case ModelStarted =>
          var id := if p.requestId.Some? then p.requestId.value else "model-request";
          if id !in requests {
            requests := requests[id := now];
            lastDeltaAt := Some(now);
          }
        case ModelCompleted =>
          if p.requestId.Some? {
            requests := requests - {p.requestId.value};
          } else {
            requests := map[];
          }
        case ToolScheduled | ToolStarted =>
          if p.toolCallId.Some? && p.toolCallId.value !in activeTools {
            activeTools := activeTools[p.toolCallId.value := ActiveTool(p.toolKind, now)];
          }
        case ToolCompleted | ToolFailed | PermissionResolved =>
          if p.toolCallId.Some? {
            activeTools := activeTools - {p.toolCallId.value};
          }
        case TurnCompleted | TurnFailed =>
          requests, activeTools := map[], map[];
        case TurnStarted =>
          text := text.(terminal := "", settled := false);
        case PermissionRequested =>
      }
    }

    method ObserveAt(x: Arrival)
      modifies this
      ensures Contents() == Observe(old(Contents()), x, mode)
    {
      hide Parse, ObserveRaw, Evict, Enqueue, Refused, Move, WaitText.Append, Observation.Observe;
      observation := ObserveRaw(observation, x.event);
      var p := Parse(x.event, mode);
      if p.source.Telemetry? && !p.telemetryKnown {
        telemetryDegraded := true;
      }
      var admitted := Admit(p, x.now);
      if admitted {
        if p.sample == Some(ReasoningDelta) || p.sample == Some(TextDelta) {
          lastDeltaAt := Some(x.now);
        }
        if p.textDelta.Some? {
          AppendLatestText(p.textDelta.value, x.wall);
        }
        if p.terminalResponse.Some? {
          text := text.(terminal := p.terminalResponse.value, settled := true);
        }
      }
      if p.descriptor.Some? {
        observation := Observation.Observe(observation, Observation.Described(p.descriptor.value));
      }
      ApplyTransition(p, x.now);
    }

    method PeekWaitTail() returns (tail: WaitText.WaitTail)
      requires WaitText.Sliceable(text)
      ensures tail == WaitText.Peek(text)
    {
      var windowStart := text.appended - Bytes(text.tail);
      if text.delivered < windowStart {
        tail := WaitText.WaitTail(text.tail, true);
      } else {
        tail := WaitText.WaitTail(DropBytes(text.tail, text.delivered - windowStart), false);
      }
    }

    method TakeWaitTail() returns (tail: WaitText.WaitTail)
      requires WaitText.Sliceable(text)
      modifies `text
      ensures tail == WaitText.Peek(old(text)) && text == WaitText.Taken(old(text))
    {
      tail := PeekWaitTail();
      text := text.(delivered := text.appended);
    }

    // The stream and the history of `prior` carried over to this tracker.
    method InheritWaitText(prior: PassiveActivityTracker, walk: Observation.Walk)
      requires prior != this
      modifies `text, `observation
      ensures text == WaitText.Inherit(old(text), prior.text)
      ensures observation == Observation.Merge(prior.observation, old(observation), walk)
    {
      hide Bytes, Observation.Merge;
      var merged := prior.text.tail + text.tail;
      if Bytes(merged) > WaitText.MAX_LATEST_TEXT_BYTES {
        merged := TrimHead(merged, WaitText.MAX_LATEST_TEXT_BYTES);
      }
      text := text.(
        tail := merged, appended := prior.text.appended + text.appended, delivered := prior.text.delivered,
        updatedAt := WaitText.Later(prior.text.updatedAt, text.updatedAt));
      observation := Observation.Merge(prior.observation, observation, walk);
    }
  }
}
