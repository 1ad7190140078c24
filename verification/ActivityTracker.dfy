/**
 The passive activity of one task: a bounded queue of samples, the tools and
 model requests under way, the wait text and the observation history, all fed by
 one stream of runtime events.
 */
module ActivityTracker {
  import opened Options
  import opened ActivityParser
  import Observation
  import Utf8
  import WaitText

  const MAX_ACTIVITY_IDENTITIES: nat := 65_536
  const PASSIVE_ACTIVITY_WINDOW: nat := 60_000

  datatype Sample = Sample(source: Source, observedAt: nat, kind: SampleKind)

  datatype ActiveTool = ActiveTool(kind: ToolKind, since: nat)

  // The samples by identity, and their identities in the order of arrival.
  datatype Queue = Queue(samples: map<string, Sample>, order: seq<string>)

  datatype Activity = Activity(
    requests: map<string, nat>,
    lastDeltaAt: Option<nat>,
    text: WaitText.Text,
    activeTools: map<string, ActiveTool>,
    queue: Queue,
    degraded: bool,
    observation: Observation.Observation)

  // An event with the two clocks read when it arrived.
  datatype Arrival = Arrival(event: RuntimeEvent, now: nat, wall: nat)

  function Launched(adapter: string, scope: nat): Activity {
    Activity(map[], None, WaitText.FRESH, map[], Queue(map[], []), false, Observation.Launch(adapter, scope))
  }

  function ModeOf(adapter: string): Mode {
    if adapter == "codex" then CountOnly
    else if adapter == "zcode" || adapter == "dsh" || adapter == "agy" then Detailed
    else Mixed
  }

  // ---------- One event ----------

  // What the observation history makes of the message itself.
  function ObserveRaw(o: Observation.Observation, e: RuntimeEvent): Observation.Observation {
    match e
    case Event(rpc, params) => Observation.Observe(o, Observation.Message(rpc, params))
    case UnknownEvent(rpc, raw) => Observation.Observe(o, Observation.Message(rpc, RawParams(raw)))
    case Unreadable => Observation.Observe(o, Observation.Loss)
    case _ => o
  }

  // An event is refused when its sample is known already, unless the session
  // now confirms what telemetry reported.
  predicate Refused(samples: map<string, Sample>, p: Parsed) {
    && p.identity.Some? && p.sample.Some? && p.identity.value in samples
    && !(samples[p.identity.value].source.Telemetry? && p.source.Session?)
  }

  predicate Sampled(p: Parsed) {
    p.identity.Some? && p.sample.Some?
  }

  function Enqueue(q: Queue, p: Parsed, now: nat): Queue {
    if !Sampled(p) || Refused(q.samples, p) then q else
    var id := p.identity.value;
    Queue(
      q.samples[id := Sample(p.source, now, p.sample.value)],
      if id in q.samples then q.order else q.order + [id])
  }

  function Evict(q: Queue): Queue
    decreases |q.order|
  {
    if |q.order| <= MAX_ACTIVITY_IDENTITIES then q
    else Evict(Queue(q.samples - {q.order[0]}, q.order[1..]))
  }

  function Deliver(a: Activity, p: Parsed, now: nat, wall: nat): Activity {
    var text :=
      match p.textDelta case Some(delta) => WaitText.Append(a.text, delta, wall) case None => a.text;
    a.(
      lastDeltaAt :=
        if p.sample == Some(ReasoningDelta) || p.sample == Some(TextDelta) then Some(now) else a.lastDeltaAt,
      text :=
        match p.terminalResponse case Some(response) => text.(terminal := response, settled := true) case None => text)
  }

  function Describe(a: Activity, p: Parsed): Activity {
    match p.descriptor
    case Some(d) => a.(observation := Observation.Observe(a.observation, Observation.Described(d)))
    case None => a
  }

  function Move(a: Activity, p: Parsed, now: nat): Activity {
    if p.transition.None? then a else
    match p.transition.value
    case ModelStarted =>
      var id := if p.requestId.Some? then p.requestId.value else "model-request";
      if id in a.requests then a else a.(requests := a.requests[id := now], lastDeltaAt := Some(now))
    case ModelCompleted =>
      a.(requests := if p.requestId.Some? then a.requests - {p.requestId.value} else map[])
    case ToolScheduled | ToolStarted =>
      if p.toolCallId.None? || p.toolCallId.value in a.activeTools then a
      else a.(activeTools := a.activeTools[p.toolCallId.value := ActiveTool(p.toolKind, now)])
    case ToolCompleted | ToolFailed | PermissionResolved =>
      if p.toolCallId.None? then a else a.(activeTools := a.activeTools - {p.toolCallId.value})
    case TurnCompleted | TurnFailed => a.(requests := map[], activeTools := map[])
    case TurnStarted => a.(text := a.text.(terminal := "", settled := false))
    case PermissionRequested => a
  }

  // A tracker with the sample, the text and the descriptor of an event taken in.
  function Informed(a: Activity, p: Parsed, now: nat, wall: nat): Activity {
    var queued := a.(
      degraded := a.degraded || (p.source.Telemetry? && !p.telemetryKnown),
      queue := Evict(Enqueue(a.queue, p, now)));
    Describe(if Refused(a.queue.samples, p) then queued else Deliver(queued, p, now, wall), p)
  }

  // Everything a parsed event does to a tracker.
  function Absorb(a: Activity, p: Parsed, now: nat, wall: nat): Activity {
    Move(Informed(a, p, now, wall), p, now)
  }

  function Observe(a: Activity, x: Arrival, mode: Mode): Activity {
    Absorb(a.(observation := ObserveRaw(a.observation, x.event)), Parse(x.event, mode), x.now, x.wall)
  }

  function Run(a: Activity, trace: seq<Arrival>, mode: Mode): Activity {
    if trace == [] then a else Observe(Run(a, trace[..|trace| - 1], mode), trace[|trace| - 1], mode)
  }

  // ---------- The sample queue ----------

  /** The queue lists every sample once, and every sample has an admissible weight. */
  ghost predicate Queued(q: Queue) {
    && (forall k :: k in q.order <==> k in q.samples)
    && (forall i, j :: 0 <= i < j < |q.order| ==> q.order[i] != q.order[j])
    && (forall k :: k in q.samples ==> Weighed(Some(q.samples[k].kind)))
  }

  lemma {:induction false} EnqueueQueued(q: Queue, p: Parsed, now: nat)
    requires Queued(q) && Weighed(p.sample)
    ensures Queued(Enqueue(q, p, now))
    ensures |Enqueue(q, p, now).order| <= |q.order| + 1
  {
  }

  lemma {:induction false} EvictOldest(q: Queue)
    requires Queued(q) && q.order != []
    ensures Queued(Queue(q.samples - {q.order[0]}, q.order[1..]))
  {
    assert q.order == [q.order[0]] + q.order[1..];
    forall k ensures k in q.order[1..] <==> k in q.samples - {q.order[0]} {
      if k in q.order[1..] {
        assert k in q.order;
      }
    }
  }

  lemma {:induction false} EvictQueued(q: Queue)
    requires Queued(q)
    ensures Queued(Evict(q)) && |Evict(q).order| <= MAX_ACTIVITY_IDENTITIES
    decreases |q.order|
  {
    hide Queued;
    if |q.order| > MAX_ACTIVITY_IDENTITIES {
      EvictOldest(q);
      EvictQueued(Queue(q.samples - {q.order[0]}, q.order[1..]));
    }
  }

  lemma {:induction false} MoveParts(a: Activity, p: Parsed, now: nat)
    ensures
      var r := Move(a, p, now);
      && r.queue == a.queue
      && (StartsTool(p.transition) || r.activeTools.Keys <= a.activeTools.Keys)
      && (IsToolPhase(p.transition) ==>
            r.text == a.text && r.requests == a.requests && r.lastDeltaAt == a.lastDeltaAt)
  {
  }

  // What taking an event in changes.
  lemma {:induction false} InformedParts(a: Activity, p: Parsed, now: nat, wall: nat)
    ensures
      var (r, t) := (Informed(a, p, now, wall), a.text);
      var silent := Refused(a.queue.samples, p) || p.textDelta.None?;
      var u := if silent then t else WaitText.Append(t, p.textDelta.value, wall);
      && r.queue == Evict(Enqueue(a.queue, p, now)) && r.activeTools == a.activeTools && r.requests == a.requests
      && (Refused(a.queue.samples, p) ==> r.text == t && r.lastDeltaAt == a.lastDeltaAt)
      && r.text == u.(terminal := r.text.terminal, settled := r.text.settled)
      && (t.settled && p.terminalResponse.None? ==> r.text.settled && r.text.terminal == t.terminal)
      && r.observation ==
         match p.descriptor
         case Some(d) => Observation.Observe(a.observation, Observation.Described(d))
         case None => a.observation
  {
    hide Evict, Enqueue, Refused, Observation.Observe, Utf8.LongestSuffix, Utf8.Bytes;
  }

  // Which parts of an event decide which parts of a tracker.
  lemma {:induction false} AbsorbParts(a: Activity, p: Parsed, now: nat, wall: nat)
    ensures
      var r := Absorb(a, p, now, wall);
      && r.queue == Evict(Enqueue(a.queue, p, now))
      && (StartsTool(p.transition) || r.activeTools.Keys <= a.activeTools.Keys)
      && (Refused(a.queue.samples, p) && IsToolPhase(p.transition) ==>
            r.text == a.text && r.requests == a.requests && r.lastDeltaAt == a.lastDeltaAt)
  {
    hide Informed, Evict, Enqueue, WaitText.Append, Observation.Observe, Move, Refused, IsToolPhase, StartsTool;
    InformedParts(a, p, now, wall);
    MoveParts(Informed(a, p, now, wall), p, now);
  }

  /** In every reachable state the queue lists the samples once each, oldest
      first, and holds at most 65536 of them. */
  lemma {:induction false} RunQueued(a: Activity, trace: seq<Arrival>, mode: Mode)
    requires Queued(a.queue) && |a.queue.order| <= MAX_ACTIVITY_IDENTITIES
    ensures Queued(Run(a, trace, mode).queue)
    ensures |Run(a, trace, mode).queue.order| <= MAX_ACTIVITY_IDENTITIES
  {
    hide Queued, Absorb, Evict, Parse, ObserveRaw;
    if trace != [] {
      var before, x := Run(a, trace[..|trace| - 1], mode), trace[|trace| - 1];
      RunQueued(a, trace[..|trace| - 1], mode);
      ParsedIsWellFormed(x.event, mode);
      var p := Parse(x.event, mode);
      AbsorbParts(before.(observation := ObserveRaw(before.observation, x.event)), p, x.now, x.wall);
      EnqueueQueued(before.queue, p, x.now);
      EvictQueued(Enqueue(before.queue, p, x.now));
    }
  }

  /** A count-only adapter never has an active tool. */
  lemma {:induction false} CountOnlyHasNoActiveTool(a: Activity, trace: seq<Arrival>)
    requires a.activeTools == map[]
    ensures Run(a, trace, CountOnly).activeTools == map[]
  {
    hide Absorb, Evict, Enqueue, Parse, ObserveRaw, Refused;
    if trace != [] {
      var before, x := Run(a, trace[..|trace| - 1], CountOnly), trace[|trace| - 1];
      CountOnlyHasNoActiveTool(a, trace[..|trace| - 1]);
      ParsedIsWellFormed(x.event, CountOnly);
      AbsorbParts(
        before.(observation := ObserveRaw(before.observation, x.event)), Parse(x.event, CountOnly), x.now, x.wall);
    }
  }

  // ---------- Strict modes refine the mixed mode ----------

  // The trace without the frames a mode does not accept.
  function Accepted(trace: seq<Arrival>, mode: Mode): seq<Arrival> {
    if trace == [] then [] else
    var before, x := Accepted(trace[..|trace| - 1], mode), trace[|trace| - 1];
    if IsForeign(x.event, mode) then before else before + [x]
  }

  lemma {:induction false} SilentChangesNothing(a: Activity, p: Parsed, now: nat, wall: nat)
    requires IsSilent(p) && |a.queue.order| <= MAX_ACTIVITY_IDENTITIES
    ensures Absorb(a, p, now, wall) == a
  {
  }

  // Tool frames are no business of the message half of the observation.
  lemma {:induction false} ForeignIsUnobserved(o: Observation.Observation, e: RuntimeEvent, mode: Mode)
    requires IsForeign(e, mode)
    ensures ObserveRaw(o, e) == o
  {
  }

  /** A tracker in a strict mode ends every trace in the state a mixed tracker
      reaches on the trace without the foreign tool frames: the same samples in
      the same eviction order, active tools, model requests, text and
      observation history. */
  lemma {:induction false} StrictRefinesMixed(a: Activity, trace: seq<Arrival>, mode: Mode)
    requires Queued(a.queue) && |a.queue.order| <= MAX_ACTIVITY_IDENTITIES
    ensures Run(a, trace, mode) == Run(a, Accepted(trace, mode), Mixed)
  {
    hide Queued, Absorb, Evict, Parse, ObserveRaw, IsForeign;
    if trace != [] {
      var earlier, x := trace[..|trace| - 1], trace[|trace| - 1];
      StrictRefinesMixed(a, earlier, mode);
      var before := Run(a, earlier, mode);
      GateSilencesForeign(x.event, mode);
      if IsForeign(x.event, mode) {
        RunQueued(a, earlier, mode);
        ForeignIsUnobserved(before.observation, x.event, mode);
        SilentChangesNothing(before, Parse(x.event, mode), x.now, x.wall);
      } else {
        var accepted := Accepted(earlier, mode);
        assert (accepted + [x])[..|accepted|] == accepted;
      }
    }
  }

  // ---------- Redelivery ----------

  // The next delivery of this event will be refused.
  lemma {:induction false} AbsorbRetains(q: Queue, p: Parsed, now: nat)
    requires Sampled(p) && Queued(q) && |q.order| <= MAX_ACTIVITY_IDENTITIES
    ensures Refused(Evict(Enqueue(q, p, now)).samples, p)
  {
  }

  /** Redelivering an event whose sample is retained changes neither the window
      nor the text; the one exception is a session frame that confirms what
      telemetry reported. */
  lemma {:induction false} RedeliveryChangesNothing(a: Activity, x: Arrival, mode: Mode)
    requires Refused(a.queue.samples, Parse(x.event, mode)) && |a.queue.order| <= MAX_ACTIVITY_IDENTITIES
    ensures Observe(a, x, mode).queue == a.queue
    ensures Observe(a, x, mode).text == a.text
    ensures Observe(a, x, mode).requests == a.requests
    ensures Observe(a, x, mode).lastDeltaAt == a.lastDeltaAt
  {
    hide Parse, ObserveRaw, Absorb;
    ParsedIsWellFormed(x.event, mode);
    AbsorbParts(a.(observation := ObserveRaw(a.observation, x.event)), Parse(x.event, mode), x.now, x.wall);
  }

  /** The exception: a session frame takes the place of the telemetry sample it
      confirms, at its own time and in the old place of the queue, once. */
  lemma {:induction false} ConfirmationReplaces(q: Queue, p: Parsed, now: nat)
    requires Sampled(p) && p.source.Session? && |q.order| <= MAX_ACTIVITY_IDENTITIES
    requires p.identity.value in q.samples && q.samples[p.identity.value].source.Telemetry?
    ensures
      var next := Evict(Enqueue(q, p, now));
      && next == Queue(q.samples[p.identity.value := Sample(Session, now, p.sample.value)], q.order)
      && Refused(next.samples, p)
  {
  }

  /** Delivering an event twice is delivering it once. */
  lemma {:induction false} DeliveredTwice(a: Activity, x: Arrival, again: Arrival, mode: Mode)
    requires Queued(a.queue) && |a.queue.order| <= MAX_ACTIVITY_IDENTITIES
    requires again.event == x.event && Sampled(Parse(x.event, mode))
    ensures
      var once := Observe(a, x, mode);
      var twice := Observe(once, again, mode);
      twice.queue == once.queue && twice.text == once.text
  {
    hide Parse, ObserveRaw, Absorb, Evict, Enqueue, Queued, Refused;
    var p := Parse(x.event, mode);
    ParsedIsWellFormed(x.event, mode);
    AbsorbParts(a.(observation := ObserveRaw(a.observation, x.event)), p, x.now, x.wall);
    AbsorbRetains(a.queue, p, x.now);
    EnqueueQueued(a.queue, p, x.now);
    EvictQueued(Enqueue(a.queue, p, x.now));
    RedeliveryChangesNothing(Observe(a, x, mode), again, mode);
  }

  // ---------- The observation history of a tracker ----------

  // What one runtime event adds to the past of the observation history.
  function Recorded(p: Observation.Past, x: Arrival, mode: Mode): Observation.Past {
    var heard :=
      match x.event
      case Event(rpc, params) => Observation.Observed(p, Observation.Message(rpc, params))
      case UnknownEvent(rpc, raw) => Observation.Observed(p, Observation.Message(rpc, RawParams(raw)))
      case Unreadable => Observation.Observed(p, Observation.Loss)
      case _ => p;
    match Parse(x.event, mode).descriptor
    case Some(d) => Observation.Observed(heard, Observation.Described(d))
    case None => heard
  }

  function PastOf(p: Observation.Past, trace: seq<Arrival>, mode: Mode): Observation.Past {
    if trace == [] then p else Recorded(PastOf(p, trace[..|trace| - 1], mode), trace[|trace| - 1], mode)
  }

  lemma {:induction false} AbsorbObservation(a: Activity, p: Parsed, now: nat, wall: nat)
    ensures Absorb(a, p, now, wall).observation ==
            match p.descriptor
            case Some(d) => Observation.Observe(a.observation, Observation.Described(d))
            case None => a.observation
  {
    hide Evict, Enqueue, Refused, WaitText.Append, Observation.Observe;
  }

  /** The history a tracker keeps is always one the observation model reaches, so
      what holds of every reachable history holds of every tracker. */
  lemma {:induction false} TrackerHistoryIsReachable(
    a: Activity, p: Observation.Past, trace: seq<Arrival>, mode: Mode)
    requires Observation.Legal(p) && a.observation == Observation.State(p)
    ensures Observation.Legal(PastOf(p, trace, mode))
    ensures Run(a, trace, mode).observation == Observation.State(PastOf(p, trace, mode))
  {
    hide Observe, Recorded, Observation.State, Observation.Legal;
    if trace != [] {
      var earlier := trace[..|trace| - 1];
      TrackerHistoryIsReachable(a, p, earlier, mode);
      EventIsRecorded(Run(a, earlier, mode), PastOf(p, earlier, mode), trace[|trace| - 1], mode);
    }
  }

  lemma {:induction false} OneMore(p: Observation.Past, e: Observation.Event)
    requires Observation.Legal(p) && (e.Described? ==> '\0' !in e.descriptor.turn)
    ensures Observation.Legal(Observation.Observed(p, e))
    ensures Observation.State(Observation.Observed(p, e)) == Observation.Observe(Observation.State(p), e)
  {
    hide Observation.Observe;
  }

  lemma {:induction false} EventIsRecorded(a: Activity, p: Observation.Past, x: Arrival, mode: Mode)
    requires Observation.Legal(p) && a.observation == Observation.State(p)
    ensures Observation.Legal(Recorded(p, x, mode))
    ensures Observe(a, x, mode).observation == Observation.State(Recorded(p, x, mode))
  {
    hide Absorb, Parse, Observation.Observe, Observation.Legal, Observation.State;
    var parsed := Parse(x.event, mode);
    ParsedIsWellFormed(x.event, mode);
    AbsorbObservation(a.(observation := ObserveRaw(a.observation, x.event)), parsed, x.now, x.wall);
    var heard := p;
    match x.event {
      case Event(rpc, params) =>
        heard := Observation.Observed(p, Observation.Message(rpc, params));
        OneMore(p, Observation.Message(rpc, params));
      case UnknownEvent(rpc, raw) =>
        heard := Observation.Observed(p, Observation.Message(rpc, RawParams(raw)));
        OneMore(p, Observation.Message(rpc, RawParams(raw)));
      case Unreadable =>
        heard := Observation.Observed(p, Observation.Loss);
        OneMore(p, Observation.Loss);
      case _ =>
    }
    if parsed.descriptor.Some? {
      OneMore(heard, Observation.Described(parsed.descriptor.value));
    }
  }

  // ---------- Active tools ----------

  // Whether an event starts or ends the call `id`, if it concerns it at all.
  function Concerns(p: Parsed, id: string): Option<bool> {
    if p.transition.None? then None
    else if p.transition.value.TurnCompleted? || p.transition.value.TurnFailed? then Some(false)
    else if p.toolCallId != Some(id) then None
    else if StartsTool(p.transition) then Some(true)
    else if p.transition.value.ToolCompleted? || p.transition.value.ToolFailed?
            || p.transition.value.PermissionResolved? then Some(false)
    else None
  }

  // What the last event that concerns the call says about it.
  function LastWord(trace: seq<Arrival>, mode: Mode, id: string): bool {
    if trace == [] then false else
    match Concerns(Parse(trace[|trace| - 1].event, mode), id)
    case Some(starts) => starts
    case None => LastWord(trace[..|trace| - 1], mode, id)
  }

  lemma {:induction false} MoveTools(a: Activity, p: Parsed, now: nat, id: string)
    ensures id in Move(a, p, now).activeTools <==>
              match Concerns(p, id) case Some(starts) => starts case None => id in a.activeTools
  {
  }

  lemma {:induction false} AbsorbTools(a: Activity, p: Parsed, now: nat, wall: nat, id: string)
    ensures id in Absorb(a, p, now, wall).activeTools <==>
              match Concerns(p, id) case Some(starts) => starts case None => id in a.activeTools
  {
    hide Informed, Evict, Enqueue, WaitText.Append, Observation.Observe, Move, Concerns;
    InformedParts(a, p, now, wall);
    MoveTools(Informed(a, p, now, wall), p, now, id);
  }

  /** A tool call is active exactly when the last event that concerns it started
      it; the end of a turn concerns every call. Whether the sample of an event was
      admitted does not matter. */
  lemma {:induction false} ActiveMeansStartedLast(a: Activity, trace: seq<Arrival>, mode: Mode, id: string)
    requires a.activeTools == map[]
    ensures id in Run(a, trace, mode).activeTools <==> LastWord(trace, mode, id)
  {
    hide Absorb, Parse, ObserveRaw, Concerns;
    if trace != [] {
      var earlier, x := trace[..|trace| - 1], trace[|trace| - 1];
      ActiveMeansStartedLast(a, earlier, mode, id);
      var before := Run(a, earlier, mode);
      AbsorbTools(
        before.(observation := ObserveRaw(before.observation, x.event)), Parse(x.event, mode), x.now, x.wall, id);
    }
  }

  // ---------- Model requests ----------

  // Whether an event starts or ends the model request `id`, if it concerns it at all.
  function Affects(p: Parsed, id: string): Option<bool> {
    if p.transition.None? then None
    else
      match p.transition.value
      case ModelStarted =>
        if p.requestId == Some(id) || (p.requestId.None? && id == "model-request") then Some(true) else None
      case ModelCompleted => if p.requestId == Some(id) || p.requestId.None? then Some(false) else None
      case TurnCompleted => Some(false)
      case TurnFailed => Some(false)
      case _ => None
  }

  function LastNews(trace: seq<Arrival>, mode: Mode, id: string): bool {
    if trace == [] then false else
    match Affects(Parse(trace[|trace| - 1].event, mode), id)
    case Some(starts) => starts
    case None => LastNews(trace[..|trace| - 1], mode, id)
  }

  lemma {:induction false} MoveRequests(a: Activity, p: Parsed, now: nat, id: string)
    ensures id in Move(a, p, now).requests <==>
              match Affects(p, id) case Some(starts) => starts case None => id in a.requests
  {
  }

  lemma {:induction false} AbsorbRequests(a: Activity, p: Parsed, now: nat, wall: nat, id: string)
    ensures id in Absorb(a, p, now, wall).requests <==>
              match Affects(p, id) case Some(starts) => starts case None => id in a.requests
  {
    hide Informed, Evict, Enqueue, WaitText.Append, Observation.Observe, Move, Affects;
    InformedParts(a, p, now, wall);
    MoveRequests(Informed(a, p, now, wall), p, now, id);
  }

  /** A model request is under way exactly when the last event that concerns it
      started it; a completion without an id and the end of a turn concern every
      request. */
  lemma {:induction false} RequestMeansStartedLast(a: Activity, trace: seq<Arrival>, mode: Mode, id: string)
    requires a.requests == map[]
    ensures id in Run(a, trace, mode).requests <==> LastNews(trace, mode, id)
  {
    hide Absorb, Parse, ObserveRaw, Affects;
    if trace != [] {
      var earlier, x := trace[..|trace| - 1], trace[|trace| - 1];
      RequestMeansStartedLast(a, earlier, mode, id);
      var before := Run(a, earlier, mode);
      AbsorbRequests(
        before.(observation := ObserveRaw(before.observation, x.event)), Parse(x.event, mode), x.now, x.wall, id);
    }
  }

  // ---------- The text of a tracker ----------

  // The text an event appends to the stream of its tracker.
  function Heard(a: Activity, x: Arrival, mode: Mode): string {
    var p := Parse(x.event, mode);
    if Refused(a.queue.samples, p) || p.textDelta.None? then "" else p.textDelta.value
  }

  function HeardAll(a: Activity, trace: seq<Arrival>, mode: Mode): string {
    if trace == [] then "" else
    var earlier, x := trace[..|trace| - 1], trace[|trace| - 1];
    HeardAll(a, earlier, mode) + Heard(Run(a, earlier, mode), x, mode)
  }

  // The terminal text is no part of the stream.
  lemma {:induction false} TerminalIsApart(t: WaitText.Text, u: WaitText.Text, whole: string, seen: nat)
    requires WaitText.Tracks(t, whole, seen)
    requires u.tail == t.tail && u.appended == t.appended && u.delivered == t.delivered
    ensures WaitText.Tracks(u, whole, seen)
  {
  }

  lemma {:induction false} AbsorbText(a: Activity, p: Parsed, now: nat, wall: nat)
    ensures
      var (t, r) := (a.text, Absorb(a, p, now, wall).text);
      var u :=
        if Refused(a.queue.samples, p) || p.textDelta.None? then t else WaitText.Append(t, p.textDelta.value, wall);
      r.tail == u.tail && r.appended == u.appended && r.delivered == u.delivered
  {
    hide Informed, Evict, Enqueue, WaitText.Append, Observation.Observe, Move;
    InformedParts(a, p, now, wall);
    MoveText(Informed(a, p, now, wall), p, now);
  }

  lemma {:induction false} MoveText(a: Activity, p: Parsed, now: nat)
    ensures
      var (t, r) := (a.text, Move(a, p, now).text);
      r.tail == t.tail && r.appended == t.appended && r.delivered == t.delivered
  {
  }

  /** The window and the cursors of a tracker are those of the stream of the text
      it admitted, whatever else happens to it. */
  lemma {:induction false} TrackerTextTracks(
    a: Activity, trace: seq<Arrival>, mode: Mode, whole: string, seen: nat)
    requires WaitText.Tracks(a.text, whole, seen)
    ensures WaitText.Tracks(Run(a, trace, mode).text, whole + HeardAll(a, trace, mode), seen)
  {
    hide WaitText.Tracks, Absorb, Parse, ObserveRaw, Refused, WaitText.Append;
    if trace == [] {
      assert whole + "" == whole;
    } else {
      var earlier, x := trace[..|trace| - 1], trace[|trace| - 1];
      TrackerTextTracks(a, earlier, mode, whole, seen);
      var before, heard := Run(a, earlier, mode), HeardAll(a, earlier, mode);
      var next := Run(a, trace, mode);
      var p := Parse(x.event, mode);
      AbsorbText(before.(observation := ObserveRaw(before.observation, x.event)), p, x.now, x.wall);
      Utf8.ConcatAssociates(whole, heard, Heard(before, x, mode));
      if Refused(before.queue.samples, p) || p.textDelta.None? {
        assert whole + heard + "" == whole + heard;
        TerminalIsApart(before.text, next.text, whole + heard, seen);
      } else {
        var delta := p.textDelta.value;
        WaitText.AppendTracks(before.text, whole + heard, seen, delta, x.wall);
        TerminalIsApart(WaitText.Append(before.text, delta, x.wall), next.text, whole + heard + delta, seen);
      }
    }
  }

  // The event begins a turn or brings its final text.
  predicate TurnsPage(p: Parsed) {
    p.transition == Some(TurnStarted) || p.terminalResponse.Some?
  }

  lemma {:induction false} AbsorbTerminal(a: Activity, p: Parsed, now: nat, wall: nat)
    requires a.text.settled && !TurnsPage(p)
    ensures Absorb(a, p, now, wall).text.settled && Absorb(a, p, now, wall).text.terminal == a.text.terminal
  {
    hide Informed, Evict, Enqueue, WaitText.Append, Observation.Observe, Move;
    InformedParts(a, p, now, wall);
    MoveTerminal(Informed(a, p, now, wall), p, now);
  }

  lemma {:induction false} MoveTerminal(a: Activity, p: Parsed, now: nat)
    requires p.transition != Some(TurnStarted)
    ensures Move(a, p, now).text == a.text
  {
  }

  /** Settled text stays: after a boundary brought the final text of a turn, no
      streamed text changes it until the next turn begins. */
  lemma {:induction false} SettledTextStays(a: Activity, trace: seq<Arrival>, mode: Mode)
    requires a.text.settled && forall i :: 0 <= i < |trace| ==> !TurnsPage(Parse(trace[i].event, mode))
    ensures Run(a, trace, mode).text.settled && Run(a, trace, mode).text.terminal == a.text.terminal
  {
    hide Absorb, Parse, ObserveRaw, TurnsPage;
    if trace != [] {
      var earlier, x := trace[..|trace| - 1], trace[|trace| - 1];
      SettledTextStays(a, earlier, mode);
      var before := Run(a, earlier, mode);
      AbsorbTerminal(
        before.(observation := ObserveRaw(before.observation, x.event)), Parse(x.event, mode), x.now, x.wall);
    }
  }
}
