/**
 What the coverage flag of the tool history promises: while the history is
 reported complete, the calls counted are exactly the calls delivered, as long as
 no launch uses a source id twice. What was delivered is judged by the frames.
 */
module ObservationCoverage {
  import opened Json
  import opened Listings
  import opened Options
  import opened Utf8
  import opened Observation
  import opened ObservationFrames
  import opened ObservationMerge
  import ToolHistory
  import Arguments
  import Reasoning

  // ---------- What was delivered, judged by the frames alone ----------

  // The identity of the call a frame carries, if it carries one.
  function Carried(e: Event): set<string> {
    match Told(e) case Some(tag) => {Identity(tag)} case None => {}
  }

  // The source id of a message the launch listens to.
  function MessageId(e: Event, collects: bool): Option<string> {
    if e.Message?
       && (IsStreaming(e.rpc, e.params, "tool_call") || (collects && IsStreaming(e.rpc, e.params, "reasoning_delta")))
    then Field(e.params, "eventId") else None
  }

  function ScopeOf(p: Past): nat {
    match p
    case Launched(_, scope) => scope
    case Observed(past, _) => ScopeOf(past)
    case Inherited(next, _, _) => ScopeOf(next)
  }

  function CollectsOf(p: Past): bool {
    match p
    case Launched(adapter, _) => adapter == "zcode" || adapter == "dsh"
    case Observed(past, _) => CollectsOf(past)
    case Inherited(_, prior, _) => CollectsOf(prior)
  }

  // The source ids of the messages and of the descriptors delivered, by launch.
  function MessageKeys(p: Past): set<string> {
    match p
    case Launched(_, _) => {}
    case Observed(past, e) =>
      MessageKeys(past)
      + (match MessageId(e, CollectsOf(past)) case Some(id) => {LaunchKey(ScopeOf(past), id)} case None => {})
    case Inherited(next, prior, _) => MessageKeys(next) + MessageKeys(prior)
  }

  function FrameKeys(p: Past): set<string> {
    match p
    case Launched(_, _) => {}
    case Observed(past, e) =>
      FrameKeys(past) + if e.Described? then {LaunchKey(ScopeOf(past), e.descriptor.sourceIdentity)} else {}
    case Inherited(next, prior, _) => FrameKeys(next) + FrameKeys(prior)
  }

  // The source id of the frame was used before in its launch.
  predicate Reuses(past: Past, e: Event) {
    match e
    case Loss => false
    case Message(_, _) =>
      var id := MessageId(e, CollectsOf(past));
      id.Some? && LaunchKey(ScopeOf(past), id.value) in MessageKeys(past)
    case Described(d) => LaunchKey(ScopeOf(past), d.sourceIdentity) in FrameKeys(past)
  }

  // The identities of all calls delivered, and of those delivered under a source id
  // that was new to its launch.
  function Delivered(p: Past): set<string> {
    match p
    case Launched(_, _) => {}
    case Observed(past, e) => Delivered(past) + Carried(e)
    case Inherited(next, prior, _) => Delivered(next) + Delivered(prior)
  }

  function FirstHand(p: Past): set<string> {
    match p
    case Launched(_, _) => {}
    case Observed(past, e) => FirstHand(past) + if Reuses(past, e) then {} else Carried(e)
    case Inherited(next, prior, _) => FirstHand(next) + FirstHand(prior)
  }

  // No launch uses a source id twice.
  predicate NoReuse(p: Past) {
    match p
    case Launched(_, _) => true
    case Observed(past, e) => NoReuse(past) && !Reuses(past, e)
    case Inherited(next, prior, _) => NoReuse(next) && NoReuse(prior)
  }

  lemma {:induction false} FirstHandIsDelivered(p: Past)
    ensures FirstHand(p) <= Delivered(p)
    ensures NoReuse(p) ==> FirstHand(p) == Delivered(p)
  {
    match p
    case Launched(_, _) =>
    case Observed(past, _) => FirstHandIsDelivered(past);
    case Inherited(next, prior, _) =>
      FirstHandIsDelivered(next);
      FirstHandIsDelivered(prior);
  }

  // ---------- What the state makes of a frame ----------

  // The call of an effect, by its identity.
  function Counts(effect: Effect): set<string> {
    match CallOf(effect) case Some(call) => {ToolHistory.Key(call)} case None => {}
  }

  predicate CostsHistory(effect: Effect) {
    effect.Lose? || (effect.Drop? && effect.tool) || (effect.Admit? && effect.content.NoCall?)
  }

  /** A message is ignored if its key is known, costs the history its completeness
      if it brings a call that is refused, and is taken in with its call otherwise. */
  lemma {:induction false} MessageEffect(o: Observation, rpc: string, params: Value)
    ensures
      var (e, effect) := (Message(rpc, params), Decide(o, Message(rpc, params)));
      var id := MessageId(e, o.collectReasoning);
      && !effect.AdmitFrame?
      && (effect.Admit? ==> id.Some? && effect.key == LaunchKey(o.scope, id.value) && Counts(effect) == Carried(e))
      && (id.Some? && LaunchKey(o.scope, id.value) in o.events ==> effect.Ignore?)
      && (id.Some? && LaunchKey(o.scope, id.value) !in o.events ==>
            effect.Admit? || (|o.events| >= ToolHistory.MAX_IDENTITIES && (Carried(e) != {} ==> CostsHistory(effect))))
      && (id.None? && Carried(e) != {} ==> CostsHistory(effect))
      && (!effect.Admit? ==> Counts(effect) == {})
  {
    hide Read, LaunchKey, ToolHistory.Identity, Field, Told;
    FieldsRead(rpc, params, o.source);
  }

  lemma {:induction false} DescriptorEffect(o: Observation, d: Descriptor)
    ensures
      var (e, effect) := (Described(d), Decide(o, Described(d)));
      && !effect.Admit?
      && (effect.AdmitFrame? ==> effect.key == LaunchKey(o.scope, d.sourceIdentity) && Counts(effect) == Carried(e))
      && (LaunchKey(o.scope, d.sourceIdentity) in o.frames && !effect.Ignore? ==> CostsHistory(effect))
      && (LaunchKey(o.scope, d.sourceIdentity) !in o.frames ==> effect.AdmitFrame? || CostsHistory(effect))
      && (!effect.AdmitFrame? ==> Counts(effect) == {})
  {
    hide LaunchKey, ToolHistory.Identity, DescribedCall, Told;
    DescribedIsTold(d);
  }

  // The launch of a state can be read off its past.
  lemma {:induction false} LaunchOf(p: Past)
    ensures State(p).scope == ScopeOf(p) && State(p).collectReasoning == CollectsOf(p)
  {
    hide Decide, Apply, ToolHistory.ReplayAll, Absorb;
    match p
    case Launched(_, _) =>
    case Observed(past, e) =>
      LaunchOf(past);
      ApplyGrows(State(past), Decide(State(past), e));
    case Inherited(next, prior, _) =>
      LaunchOf(next);
      LaunchOf(prior);
  }

  // ---------- Counted is what was delivered first-hand ----------

  // The replay guards hold the source ids delivered, as long as there is room.
  ghost predicate Guarded(p: Past) {
    var o := State(p);
    && o.events <= MessageKeys(p) && o.frames <= FrameKeys(p)
    && (o.toolHistoryComplete ==>
          (o.events == MessageKeys(p) || |o.events| >= ToolHistory.MAX_IDENTITIES) && o.frames == FrameKeys(p))
  }

  ghost predicate Covered(p: Past) {
    var o := State(p);
    && o.history.seen.Keys <= Delivered(p)
    && (o.toolHistoryComplete ==> o.history.seen.Keys == FirstHand(p))
  }

  // What an effect does to the calls known and to the completeness of the history.
  lemma {:induction false} EffectCovers(o: Observation, effect: Effect)
    ensures
      var r := Apply(o, effect);
      && r.history.seen.Keys <= o.history.seen.Keys + Counts(effect)
      && (r.toolHistoryComplete ==>
            && o.toolHistoryComplete && !CostsHistory(effect)
            && r.history.seen.Keys == o.history.seen.Keys + Counts(effect))
  {
    hide Apply, ToolHistory.Record, ToolHistory.Key;
    ApplyEffect(o, effect);
    ApplyAccount(o, effect);
    if CallOf(effect).Some? {
      ToolHistory.RecordSeen(o.history, CallOf(effect).value);
    }
  }

  lemma {:induction false} ObservedKeys(past: Past, e: Event)
    ensures
      var (p, id) := (Observed(past, e), MessageId(e, CollectsOf(past)));
      && State(p) == Apply(State(past), Decide(State(past), e))
      && Delivered(p) == Delivered(past) + Carried(e)
      && FirstHand(p) == FirstHand(past) + (if Reuses(past, e) then {} else Carried(e))
      && MessageKeys(p) == MessageKeys(past) + (if id.Some? then {LaunchKey(ScopeOf(past), id.value)} else {})
      && FrameKeys(p) ==
         FrameKeys(past) + (if e.Described? then {LaunchKey(ScopeOf(past), e.descriptor.sourceIdentity)} else {})
  {
    hide Apply, Decide, Carried, Reuses, MessageId, LaunchKey, CollectsOf, ScopeOf;
  }

  lemma {:induction false} MessageGuards(past: Past, rpc: string, params: Value)
    requires Guarded(past)
    ensures Guarded(Observed(past, Message(rpc, params)))
  {
    hide Decide, Apply, MessageId, Carried, LaunchKey, Counts, CostsHistory, State, Delivered, FirstHand, MessageKeys,
         FrameKeys, ScopeOf, CollectsOf, Reuses;
    var o, e := State(past), Message(rpc, params);
    var effect := Decide(o, e);
    ObservedKeys(past, e);
    LaunchOf(past);
    MessageEffect(o, rpc, params);
    DecideHasRoom(o, e);
    ApplyGrows(o, effect);
    EffectCovers(o, effect);
  }

  lemma {:induction false} MessageCovers(past: Past, rpc: string, params: Value)
    requires Guarded(past) && Covered(past)
    ensures Covered(Observed(past, Message(rpc, params)))
  {
    hide Decide, Apply, MessageId, Carried, LaunchKey, Counts, CostsHistory, State, Delivered, FirstHand, MessageKeys,
         FrameKeys, ScopeOf, CollectsOf;
    var o, e := State(past), Message(rpc, params);
    ObservedKeys(past, e);
    LaunchOf(past);
    MessageEffect(o, rpc, params);
    DecideHasRoom(o, e);
    EffectCovers(o, Decide(o, e));
  }

  lemma {:induction false} DescriptorGuards(past: Past, d: Descriptor)
    requires Guarded(past)
    ensures Guarded(Observed(past, Described(d)))
  {
    hide Decide, Apply, MessageId, Carried, LaunchKey, Counts, CostsHistory, State, Delivered, FirstHand, MessageKeys,
         FrameKeys, ScopeOf, CollectsOf, Reuses;
    var o, e := State(past), Described(d);
    ObservedKeys(past, e);
    NoMessage(e, CollectsOf(past));
    LaunchOf(past);
    DescriptorEffect(o, d);
    ApplyGrows(o, Decide(o, e));
    EffectCovers(o, Decide(o, e));
  }

  lemma {:induction false} DescriptorCovers(past: Past, d: Descriptor)
    requires Guarded(past) && Covered(past)
    ensures Covered(Observed(past, Described(d)))
  {
    hide Decide, Apply, MessageId, Carried, LaunchKey, Counts, CostsHistory, State, Delivered, FirstHand, MessageKeys,
         FrameKeys, ScopeOf, CollectsOf;
    var o, e := State(past), Described(d);
    ObservedKeys(past, e);
    LaunchOf(past);
    DescriptorEffect(o, d);
    EffectCovers(o, Decide(o, e));
  }

  lemma {:induction false} LossCovers(past: Past)
    requires Guarded(past) && Covered(past)
    ensures Guarded(Observed(past, Loss)) && Covered(Observed(past, Loss))
  {
    hide LaunchKey;
    EffectCovers(State(past), Lose);
  }

  lemma {:induction false} NoMessage(e: Event, collects: bool)
    requires !e.Message?
    ensures MessageId(e, collects).None?
  {
  }

  // Keys taken over in full are united.
  lemma {:induction false} AbsorbUnites(known: set<string>, order: seq<string>)
    ensures
      var (all, lost) := Absorb(known, order);
      && known <= all && (forall k :: k in all ==> k in known || k in order)
      && (!lost ==> forall k :: k in order ==> k in all)
    decreases order
  {
    if order != [] && |known| < ToolHistory.MAX_IDENTITIES {
      AbsorbUnites(known + {order[0]}, order[1..]);
    }
  }

  /** A merge that reports its history or its reasoning complete has forgotten no source
      id of either side. */
  lemma {:induction false} CompleteKeepsKeys(o: Observation, newer: Observation, walk: Walk)
    requires IsWalk(walk, newer)
    ensures
      var r := Merge(o, newer, walk);
      && o.events <= r.events && o.frames <= r.frames
      && (r.toolHistoryComplete || r.reasoningComplete ==> newer.events <= r.events && newer.frames <= r.frames)
      && (!(newer.events <= r.events) || !(newer.frames <= r.frames) ==> r.dropped > o.dropped + newer.dropped)
  {
    hide ToolHistory.ReplayAll, ToolHistory.IsReceiptOrder, Absorb, Reasoning.Merge, Reasoning.Rolls;
    AbsorbUnites(o.events, walk.events);
    AbsorbUnites(o.frames, walk.frames);
  }

  lemma {:induction false} MergeGuards(next: Past, prior: Past, walk: Walk)
    requires Legal(Inherited(next, prior, walk)) && Guarded(next) && Guarded(prior)
    ensures Guarded(Inherited(next, prior, walk))
  {
    hide ToolHistory.ReplayAll, ToolHistory.IsReceiptOrder, Absorb, MessageKeys, FrameKeys, State;
    var p := Inherited(next, prior, walk);
    InheritedKeys(next, prior, walk);
    var o, n, r := State(prior), State(next), State(p);
    AbsorbUnites(o.events, walk.events);
    AbsorbUnites(o.frames, walk.frames);
    if r.toolHistoryComplete {
      assert r.events == o.events + n.events && r.frames == o.frames + n.frames;
      ToolHistory.SubsetFits(o.events, r.events);
      ToolHistory.SubsetFits(n.events, r.events);
    }
  }

  lemma {:induction false} InheritedKeys(next: Past, prior: Past, walk: Walk)
    ensures
      var p := Inherited(next, prior, walk);
      && State(p) == Merge(State(prior), State(next), walk)
      && MessageKeys(p) == MessageKeys(next) + MessageKeys(prior)
      && FrameKeys(p) == FrameKeys(next) + FrameKeys(prior)
  {
    hide Merge;
  }

  lemma {:induction false} MergeCovers(next: Past, prior: Past, walk: Walk)
    requires Legal(Inherited(next, prior, walk)) && Covered(next) && Covered(prior)
    ensures Covered(Inherited(next, prior, walk))
  {
    hide ToolHistory.ReplayAll, ToolHistory.IsReceiptOrder, Absorb, ToolHistory.Of;
    ReachableStates(next);
    ToolHistory.ReplaySeen(State(prior).history, Log(next), walk.calls);
  }

  lemma {:induction false} ReachableIsCovered(p: Past)
    requires Legal(p)
    ensures Guarded(p) && Covered(p)
  {
    hide Guarded, Covered;
    match p
    case Launched(adapter, scope) => LaunchIsCovered(adapter, scope);
    case Observed(past, e) =>
      ReachableIsCovered(past);
      match e {
        case Loss => LossCovers(past);
        case Message(rpc, params) =>
          MessageGuards(past, rpc, params);
          MessageCovers(past, rpc, params);
        case Described(d) =>
          DescriptorGuards(past, d);
          DescriptorCovers(past, d);
      }
    case Inherited(next, prior, walk) =>
      ReachableIsCovered(next);
      ReachableIsCovered(prior);
      MergeGuards(next, prior, walk);
      MergeCovers(next, prior, walk);
  }

  lemma {:induction false} LaunchIsCovered(adapter: string, scope: nat)
    ensures Guarded(Launched(adapter, scope)) && Covered(Launched(adapter, scope))
  {
  }

  /** Coverage. Nothing is ever counted that was not delivered. And while the history
      is reported complete, the calls counted are exactly those delivered under a
      source id that was new to its launch, across launches and merges. So if no
      launch uses a source id twice, every call delivered is counted; and in general
      every call delivered is counted if and only if each was delivered at least once
      under a new source id. */
  lemma {:induction false} CompleteMeansCounted(p: Past)
    requires Legal(p)
    ensures State(p).history.seen.Keys <= Delivered(p)
    ensures State(p).toolHistoryComplete ==> State(p).history.seen.Keys == FirstHand(p)
    ensures State(p).toolHistoryComplete && NoReuse(p) ==> State(p).history.seen.Keys == Delivered(p)
    ensures State(p).toolHistoryComplete ==>
              (Delivered(p) <= State(p).history.seen.Keys <==> Delivered(p) <= FirstHand(p))
  {
    hide State, Delivered, FirstHand;
    ReachableIsCovered(p);
    FirstHandIsDelivered(p);
  }

  // A call described under a source id already used leaves no trace.
  lemma {:induction false} ReusedIsIgnored(p: Past, d: Descriptor)
    requires Legal(p) && State(p).toolHistoryComplete
    requires Usable(d) && Reuses(p, Described(d))
    ensures State(Observed(p, Described(d))) == State(p)
  {
    hide State, LaunchKey, Usable, DescribedCall, FrameKeys, ScopeOf, Covered;
    LaunchOf(p);
    ReachableIsCovered(p);
    ObservedKeys(p, Described(d));
  }

  const FIRST := Descriptor("t", "a", "Read", "s", None, None)
  const SECOND := FIRST.(callId := "b")

  /** Reuse costs a call: of two calls described under the same source id the second
      goes uncounted, and the history is still reported complete. */
  lemma {:induction false} ReuseHidesCall()
    ensures
      var p := Observed(Observed(Launched("zcode", 0), Described(FIRST)), Described(SECOND));
      && Legal(p) && State(p).toolHistoryComplete
      && ToolHistory.Key(DescribedCall(SECOND)) in Delivered(p) - State(p).history.seen.Keys
  {
    hide State, DescribedCall, ToolHistory.Identity, Usable, LaunchKey, Told;
    var between := Observed(Launched("zcode", 0), Described(FIRST));
    BothUsable();
    DescribedIsTold(FIRST);
    DescribedIsTold(SECOND);
    TakesFirst();
    CompleteMeansCounted(between);
    ReusedIsIgnored(between, SECOND);
  }

  lemma {:induction false} BothUsable()
    ensures Usable(FIRST) && Usable(SECOND)
    ensures ToolHistory.Key(DescribedCall(FIRST)) != ToolHistory.Key(DescribedCall(SECOND))
  {
    AsciiBytes("a");
    AsciiBytes("b");
    AsciiBytes("Read");
    hide Bytes, Arguments.Project;
    assert ToolHistory.Key(DescribedCall(FIRST))[2] == 'a' && ToolHistory.Key(DescribedCall(SECOND))[2] == 'b';
  }

  lemma {:induction false} TakesFirst()
    requires Usable(FIRST)
    ensures State(Observed(Launched("zcode", 0), Described(FIRST))).toolHistoryComplete
  {
    hide DescribedCall, LaunchKey, ToolHistory.Key;
  }

  /** The books of every reachable state: the counts of the tools, listed in any
      order, add up to the calls admitted, which is the last number given out. */
  lemma {:induction false} ReachableCounts(p: Past, names: seq<string>)
    requires Legal(p) && Lists(names, State(p).history.tools.Keys)
    ensures
      var h := State(p).history;
      && (forall i :: 0 <= i < |names| ==> names[i] in h.tools)
      && ToolHistory.SumOfCounts(h.tools, names) == |h.seen| == h.nextSeq
  {
    hide State, ToolHistory.Of;
    ReachableStates(p);
    ToolHistory.CountsAddUp(Log(p), names);
  }

  /** In every reachable state the calls are numbered 1 to n, each number once and
      none left out. */
  lemma {:induction false} ReachableNumbers(p: Past, n: nat, key: string, other: string)
    requires Legal(p) && key in State(p).history.seen && other in State(p).history.seen
    ensures
      var h := State(p).history;
      && |h.seen| == h.nextSeq && 1 <= h.seen[key].seqNo <= h.nextSeq
      && (h.seen[key].seqNo == h.seen[other].seqNo ==> key == other)
      && (1 <= n <= h.nextSeq ==> exists k :: k in h.seen && h.seen[k].seqNo == n)
  {
    hide State, ToolHistory.Of;
    ReachableStates(p);
    ToolHistory.SeenKeys(Log(p));
    ToolHistory.KeysCounted(Log(p));
    ToolHistory.NumbersAreExact(Log(p), if 1 <= n <= |Log(p)| then n else 1, key, other);
  }

  /** In every reachable state a tool shows its newest calls: they are counted calls
      of that tool, newest first, and a call of the tool is missing only behind five
      newer ones. */
  lemma {:induction false} ReachableRecent(p: Past, key: string)
    requires Legal(p) && key in State(p).history.seen
    ensures
      var h := State(p).history;
      var ref := h.seen[key];
      && ref.tool in h.tools
      && var recent := h.tools[ref.tool].recent;
         && (forall m, n :: 0 <= m < n < |recent| ==> recent[m].seqNo > recent[n].seqNo)
         && 1 <= |recent| <= ToolHistory.MAX_RECENT_CALLS && h.tools[ref.tool].latestSeq == recent[0].seqNo
         && (forall n :: 0 <= n < |recent| ==>
               exists k :: k in h.seen && h.seen[k] == ToolHistory.CallRef(ref.tool, recent[n].seqNo))
         && ((exists n :: 0 <= n < |recent| && recent[n].seqNo == ref.seqNo)
             || (|recent| == ToolHistory.MAX_RECENT_CALLS
                 && forall n :: 0 <= n < |recent| ==> recent[n].seqNo > ref.seqNo))
  {
    hide State, ToolHistory.Of;
    ReachableStates(p);
    ToolHistory.RecentOf(Log(p), key);
  }

  /** A call reported without an argument object says nothing about its arguments,
      so it never erases arguments already known (`ToolHistory.KnownArgumentsSurvive`);
      only a verified stream may report an absent input as an empty one. */
  lemma {:induction false} AbsentInputSaysNothing(params: Value, payload: Value, d: Descriptor)
    ensures
      var input, content := Get(payload, "input"), CallIn(params, payload, Dsh);
      (input.None? || !input.value.Obj?) && content.ToolCall? ==> ToolHistory.SaysNothing(content.call.detail)
    ensures d.input.Some? && !d.input.value.Obj? ==> ToolHistory.SaysNothing(DescribedCall(d).detail)
  {
    hide Get, ValidId;
    Arguments.EmptyProjects(Get(payload, "input"));
    Arguments.EmptyProjects(d.input);
  }

  // ---------- Bounds ----------

  ghost predicate WithinBounds(o: Observation) {
    && ToolHistory.Capped(o.history)
    && |o.events| <= ToolHistory.MAX_IDENTITIES && |o.frames| <= ToolHistory.MAX_IDENTITIES
    && Bytes(o.reasoning.raw) <= Reasoning.MAX_REASONING_BYTES
    && |o.reasoning.text| <= Reasoning.MAX_REASONING_CHARS
  }

  lemma {:induction false} AbsorbBounded(known: set<string>, order: seq<string>)
    requires |known| <= ToolHistory.MAX_IDENTITIES
    ensures |Absorb(known, order).0| <= ToolHistory.MAX_IDENTITIES
    decreases order
  {
    if order != [] && |known| < ToolHistory.MAX_IDENTITIES {
      AbsorbBounded(known + {order[0]}, order[1..]);
    }
  }

  lemma {:induction false} ObserveBounded(r: Reasoning.Reasoning, delta: string)
    requires Bytes(r.raw) <= Reasoning.MAX_REASONING_BYTES && |r.text| <= Reasoning.MAX_REASONING_CHARS
    ensures Bytes(Reasoning.Observe(r, delta).raw) <= Reasoning.MAX_REASONING_BYTES
    ensures |Reasoning.Observe(r, delta).text| <= Reasoning.MAX_REASONING_CHARS
  {
    LongestSuffixFits(r.raw + delta, Reasoning.MAX_REASONING_BYTES);
  }

  // A key is only taken while there is room for it.
  lemma {:induction false} DecideHasRoom(o: Observation, e: Event)
    ensures Decide(o, e).Admit? ==> |o.events| < ToolHistory.MAX_IDENTITIES
    ensures Decide(o, e).AdmitFrame? ==> |o.frames| < ToolHistory.MAX_IDENTITIES
  {
    hide Read, LaunchKey, DescribedCall, Usable;
  }

  /** Every reachable state is bounded: no stream of frames and no number of
      merges makes any collection, the recent calls or the reasoning grow past its
      cap. */
  lemma {:induction false} ReachableIsBounded(p: Past)
    ensures WithinBounds(State(p))
  {
    hide Decide, Apply, ToolHistory.Record, ToolHistory.ReplayAll, ToolHistory.Capped, Absorb, Bytes, Reasoning.Observe,
         Reasoning.Rolls;
    match p
    case Launched(_, _) =>
      ToolHistory.NothingIsCapped();
      AsciiBytes("");
    case Observed(past, event) =>
      var o := State(past);
      var effect := Decide(o, event);
      ReachableIsBounded(past);
      DecideHasRoom(o, event);
      ApplyGrows(o, effect);
      ApplyEffect(o, effect);
      ObserveBounded(o.reasoning, DeltaOf(effect));
      if CallOf(effect).Some? {
        ToolHistory.RecordCapped(o.history, CallOf(effect).value);
      }
    case Inherited(next, prior, walk) =>
      var o := State(prior);
      ReachableIsBounded(prior);
      ObserveBounded(o.reasoning, State(next).reasoning.raw);
      ToolHistory.ReplayCapped(o.history, State(next).history, walk.calls);
      AbsorbBounded(o.events, walk.events);
      AbsorbBounded(o.frames, walk.frames);
  }
}
