/**
 Re-claiming a task starts a new launch with a state of its own, and the state of
 the previous launch absorbs it later. This module relates that merge to the one
 uninterrupted run it stands for: the old state, switched to the scope of the new
 launch, observing the events of the new launch itself.
 */
module ObservationMerge {
  import opened Json
  import opened Listings
  import opened Options
  import opened Utf8
  import opened Observation
  import ToolHistory
  import Reasoning

  function Run(o: Observation, es: seq<Event>): Observation {
    if es == [] then o else Observe(Run(o, es[..|es| - 1]), es[|es| - 1])
  }

  // The effect of the last event of a run.
  function LastEffect(o: Observation, es: seq<Event>): Effect
    requires es != []
  {
    Decide(Run(o, es[..|es| - 1]), es[|es| - 1])
  }

  function Listed(call: Option<ToolHistory.Call>): seq<ToolHistory.Call> {
    match call case Some(c) => [c] case None => []
  }

  // The calls and the reasoning that a run takes in.
  function Calls(o: Observation, es: seq<Event>): seq<ToolHistory.Call> {
    if es == [] then [] else Calls(o, es[..|es| - 1]) + Listed(CallOf(LastEffect(o, es)))
  }

  function Text(o: Observation, es: seq<Event>): string {
    if es == [] then "" else Text(o, es[..|es| - 1]) + DeltaOf(LastEffect(o, es))
  }

  // ---------- Replay keys ----------

  ghost predicate Own(keys: set<string>, scope: nat) {
    forall k :: k in keys ==> ToolHistory.SplitIdentity(k).0 == Decimal(scope)
  }

  ghost predicate Foreign(keys: set<string>, scope: nat) {
    forall k :: k in keys ==> ToolHistory.SplitIdentity(k).0 != Decimal(scope)
  }

  lemma {:induction false} DecimalIsNulFree(n: nat)
    ensures ToolHistory.NulFree(Decimal(n))
  {
    if n >= 10 {
      DecimalIsNulFree(n / 10);
    }
  }

  lemma {:induction false} DigitIsInjective(m: nat, n: nat)
    requires m < 10 && n < 10 && Digit(m) == Digit(n)
    ensures m == n
  {
  }

  lemma {:induction false} DecimalIsInjective(m: nat, n: nat)
    requires Decimal(m) == Decimal(n)
    ensures m == n
  {
    hide Digit;
    var s, t := Decimal(m), Decimal(n);
    assert m % 10 == n % 10 by {
      assert s[|s| - 1] == t[|t| - 1];
      DigitIsInjective(m % 10, n % 10);
    }
    if m >= 10 && n >= 10 {
      assert s[..|s| - 1] == Decimal(m / 10);
      assert t[..|t| - 1] == Decimal(n / 10);
      DecimalIsInjective(m / 10, n / 10);
    }
  }

  lemma {:induction false} LaunchKeyScope(scope: nat, id: string)
    ensures ToolHistory.SplitIdentity(LaunchKey(scope, id)) == (Decimal(scope), id)
  {
    DecimalIsNulFree(scope);
    ToolHistory.IdentityRoundTrip(Decimal(scope), id);
  }

  // ---------- One event on both sides ----------

  // Both claims together keep within every cap.
  ghost predicate Bounded(b: Observation, n: Observation) {
    && ToolHistory.WithinCaps(b.history, n.history)
    && |b.events| + |n.events| <= ToolHistory.MAX_IDENTITIES
    && |b.frames| + |n.frames| <= ToolHistory.MAX_IDENTITIES
  }

  // `q` is where the uninterrupted run stands when the claims stand at `b` and `n`.
  ghost predicate Beside(b: Observation, n: Observation, q: Observation) {
    && q.scope == n.scope && q.source == n.source && q.collectReasoning == n.collectReasoning
    && Own(n.events, n.scope) && Own(n.frames, n.scope)
    && q.events == b.events + n.events && q.frames == b.frames + n.frames
    && q.toolHistoryComplete == (b.toolHistoryComplete && n.toolHistoryComplete)
  }

  lemma {:induction false} UnionSize(a: set<string>, b: set<string>)
    requires a !! b
    ensures |a + b| == |a| + |b|
  {
  }

  lemma {:induction false} AdmitsAlike(b: set<string>, n: set<string>, key: string)
    requires key !in b && b !! n
    requires Admits(n, key).New? ==> |b| + |n + {key}| <= ToolHistory.MAX_IDENTITIES
    ensures Admits(b + n, key) == Admits(n, key)
  {
    UnionSize(b, n);
  }

  // What an effect does to the parts of a state that only ever grow.
  lemma {:induction false} ApplyGrows(o: Observation, effect: Effect)
    ensures
      var r := Apply(o, effect);
      && r.events == o.events + (if effect.Admit? then {effect.key} else {})
      && r.frames == o.frames + (if effect.AdmitFrame? then {effect.key} else {})
      && r.scope == o.scope && r.source == o.source && r.collectReasoning == o.collectReasoning
      && o.history.seen.Keys <= r.history.seen.Keys
      && o.history.tools.Keys <= r.history.tools.Keys
  {
    hide ToolHistory.Record;
    ApplyEffect(o, effect);
    match effect
    case Admit(key, ToolCall(call)) =>
      RecordCallKeepsRest(o.(events := o.events + {key}), call);
      ToolHistory.RecordGrows(o.history, call);
    case AdmitFrame(key, call) =>
      RecordCallKeepsRest(o.(frames := o.frames + {key}), call);
      ToolHistory.RecordGrows(o.history, call);
    case _ =>
  }

  // A key of this launch is in no set of older keys, whatever they are joined with.
  lemma {:induction false} OwnKey(b: set<string>, n: set<string>, scope: nat, id: string)
    requires Foreign(b, scope) && Own(n, scope)
    requires Admits(n, LaunchKey(scope, id)).New? ==> |b| + |n + {LaunchKey(scope, id)}| <= ToolHistory.MAX_IDENTITIES
    ensures Admits(b + n, LaunchKey(scope, id)) == Admits(n, LaunchKey(scope, id))
  {
    hide LaunchKey;
    LaunchKeyScope(scope, id);
    AdmitsAlike(b, n, LaunchKey(scope, id));
  }

  lemma {:induction false} MessageAlike(b: Observation, n: Observation, q: Observation, frame: Frame)
    requires Beside(b, n, q) && Foreign(b.events, n.scope)
    requires |b.events| + |Apply(n, DecideMessage(n, frame)).events| <= ToolHistory.MAX_IDENTITIES
    ensures DecideMessage(q, frame) == DecideMessage(n, frame)
  {
    hide LaunchKey, Apply, Own, Foreign;
    ApplyGrows(n, DecideMessage(n, frame));
    if frame.Streaming? && frame.id.Some? && (frame.tool || n.collectReasoning) {
      OwnKey(b.events, n.events, n.scope, frame.id.value);
    }
  }

  lemma {:induction false} DescribedAlike(b: Observation, n: Observation, q: Observation, d: Descriptor)
    requires Beside(b, n, q) && Foreign(b.frames, n.scope)
    requires |b.frames| + |Apply(n, DecideDescribed(n, d)).frames| <= ToolHistory.MAX_IDENTITIES
    ensures DecideDescribed(q, d) == DecideDescribed(n, d)
  {
    hide LaunchKey, Apply, Own, Foreign, DescribedCall;
    ApplyGrows(n, DecideDescribed(n, d));
    if Usable(d) {
      OwnKey(b.frames, n.frames, n.scope, d.sourceIdentity);
    }
  }

  lemma {:induction false} DecideAlike(b: Observation, n: Observation, q: Observation, e: Event)
    requires Beside(b, n, q) && Foreign(b.events, n.scope) && Foreign(b.frames, n.scope)
    requires Bounded(b, Observe(n, e))
    ensures Decide(q, e) == Decide(n, e)
  {
    hide Read, DecideMessage, DecideDescribed, Apply;
    match e {
      case Loss =>
      case Message(rpc, params) => MessageAlike(b, n, q, Read(rpc, params, n.source));
      case Described(d) => DescribedAlike(b, n, q, d);
    }
  }

  // A call that one side refuses, the other refuses too.
  ghost predicate RefusedAlike(n: Observation, q: Observation, call: Option<ToolHistory.Call>) {
    call.Some? ==>
      (ToolHistory.Record(q.history, call.value).1.Dropped? <==> ToolHistory.Record(n.history, call.value).1.Dropped?)
  }

  predicate OwnEffect(effect: Effect, scope: nat) {
    effect.Admit? || effect.AdmitFrame? ==> ToolHistory.SplitIdentity(effect.key).0 == Decimal(scope)
  }

  lemma {:induction false} DecideIsOwn(o: Observation, e: Event)
    ensures OwnEffect(Decide(o, e), o.scope)
  {
    hide Read, LaunchKey, DescribedCall, ToolHistory.SplitIdentity, Decimal;
    match e {
      case Loss =>
      case Message(rpc, params) =>
        var frame := Read(rpc, params, o.source);
        if frame.Streaming? && frame.id.Some? {
          LaunchKeyScope(o.scope, frame.id.value);
        }
      case Described(d) => LaunchKeyScope(o.scope, d.sourceIdentity);
    }
  }

  // What an effect does to the account of what is missing.
  lemma {:induction false} ApplyAccount(o: Observation, effect: Effect)
    ensures
      var r := Apply(o, effect);
      var rolls := Reasoning.Rolls(o.reasoning, DeltaOf(effect));
      var refused := CallOf(effect).Some? && ToolHistory.Record(o.history, CallOf(effect).value).1.Dropped?;
      var lost :=
        effect.Lose? || effect.Drop? || (effect.Admit? && (effect.content.NoDelta? || effect.content.NoCall?));
      && r.dropped == o.dropped + (if rolls || refused || lost then 1 else 0)
      && r.toolHistoryComplete ==
         (o.toolHistoryComplete && !refused && !effect.Lose? && !(effect.Drop? && effect.tool)
          && !(effect.Admit? && effect.content.NoCall?))
      && r.reasoningComplete ==
         (o.reasoningComplete && !rolls && !effect.Lose? && !(effect.Drop? && !effect.tool)
          && !(effect.Admit? && effect.content.NoDelta?))
  {
    hide ToolHistory.Record;
  }

  lemma {:induction false} ApplyBeside(b: Observation, n: Observation, q: Observation, effect: Effect)
    requires Beside(b, n, q) && OwnEffect(effect, n.scope) && RefusedAlike(n, q, CallOf(effect))
    ensures Beside(b, Apply(n, effect), Apply(q, effect))
  {
    hide ToolHistory.Record, ToolHistory.SplitIdentity, Decimal, Apply, Reasoning.Rolls;
    ApplyGrows(n, effect);
    ApplyGrows(q, effect);
    ApplyAccount(n, effect);
    ApplyAccount(q, effect);
  }

  // ---------- Reasoning on both sides ----------

  /** The reasoning of `n` shows `w` and that of `q` shows `v + w`. Nothing is
      reported missing from `q` but what is missing from `b` or `n`, or what their
      joint text is too long for. */
  ghost predicate Kept(b: Observation, v: string, n: Observation, w: string, q: Observation) {
    && Reasoning.Shows(n.reasoning, w) && Reasoning.Shows(q.reasoning, v + w)
    && (n.reasoningComplete ==> Bytes(w) <= Reasoning.MAX_REASONING_BYTES)
    && q.reasoningComplete ==
       (b.reasoningComplete && n.reasoningComplete && Bytes(v + w) <= Reasoning.MAX_REASONING_BYTES)
    && (Bytes(v + w) <= Reasoning.MAX_REASONING_BYTES ==> q.dropped == b.dropped + n.dropped)
  }

  lemma {:induction false} ApplyKept(
    b: Observation, v: string, n: Observation, w: string, q: Observation, effect: Effect)
    requires Kept(b, v, n, w, q) && RefusedAlike(n, q, CallOf(effect))
    ensures Kept(b, v, Apply(n, effect), w + DeltaOf(effect), Apply(q, effect))
  {
    hide ToolHistory.Record, Apply, Reasoning.Shows, Reasoning.Observe, Reasoning.Rolls, Bytes;
    var d := DeltaOf(effect);
    ApplyAccount(n, effect);
    ApplyAccount(q, effect);
    ApplyEffect(n, effect);
    ApplyEffect(q, effect);
    ConcatAssociates(v, w, d);
    Reasoning.ObserveShows(n.reasoning, w, d);
    Reasoning.ObserveShows(q.reasoning, v + w, d);
    BytesConcat(w, d);
    BytesConcat(v + w, d);
    BytesConcat(v, w);
    BytesConcat(v, w + d);
    if Bytes(w) <= Reasoning.MAX_REASONING_BYTES {
      Reasoning.RollsIff(n.reasoning, w, d);
    }
    if Bytes(v + w) <= Reasoning.MAX_REASONING_BYTES {
      Reasoning.RollsIff(q.reasoning, v + w, d);
    }
  }

  // ---------- Whole runs on both sides ----------

  // The parser hands over turn ids without a NUL.
  ghost predicate Parsed(es: seq<Event>) {
    forall i :: 0 <= i < |es| ==> es[i].Described? ==> ToolHistory.NulFree(es[i].descriptor.turn)
  }

  ghost predicate NewCalls(calls: seq<ToolHistory.Call>, known: set<string>) {
    forall i :: 0 <= i < |calls| ==> ToolHistory.Key(calls[i]) !in known && ToolHistory.NulFree(calls[i].turn)
  }

  lemma {:induction false} RunHistory(o: Observation, es: seq<Event>)
    ensures Run(o, es).history == ToolHistory.RecordAll(o.history, Calls(o, es))
    ensures Run(o, es).scope == o.scope && Run(o, es).source == o.source
    ensures Run(o, es).collectReasoning == o.collectReasoning
  {
    hide ToolHistory.Record, Decide, Apply;
    if es != [] {
      var before := es[..|es| - 1];
      RunHistory(o, before);
      ApplyEffect(Run(o, before), LastEffect(o, es));
      ApplyGrows(Run(o, before), LastEffect(o, es));
      var call := CallOf(LastEffect(o, es));
      if call.Some? {
        assert (Calls(o, before) + [call.value])[..|Calls(o, before)|] == Calls(o, before);
      } else {
        assert Calls(o, es) == Calls(o, before);
      }
    }
  }

  lemma {:induction false} CallsAreSplittable(o: Observation, es: seq<Event>)
    requires Parsed(es)
    ensures forall i :: 0 <= i < |Calls(o, es)| ==> ToolHistory.NulFree(Calls(o, es)[i].turn)
  {
    hide Decide, ToolHistory.NulFree;
    if es != [] {
      CallsAreSplittable(o, es[..|es| - 1]);
      if CallOf(LastEffect(o, es)).Some? {
        ReportedTurn(Run(o, es[..|es| - 1]), es[|es| - 1]);
      }
    }
  }

  lemma {:induction false} BoundedBefore(b: Observation, n: Observation, e: Event)
    requires Bounded(b, Observe(n, e))
    ensures Bounded(b, n)
  {
    hide Decide, Apply;
    var r := Observe(n, e);
    ApplyGrows(n, Decide(n, e));
    ToolHistory.SubsetFits(n.history.seen.Keys, r.history.seen.Keys);
    ToolHistory.SubsetFits(b.history.tools.Keys + n.history.tools.Keys, b.history.tools.Keys + r.history.tools.Keys);
    ToolHistory.SubsetFits(n.events, r.events);
    ToolHistory.SubsetFits(n.frames, r.frames);
  }

  // Where the two sides start: an old state, and a new launch of the same adapter.
  ghost predicate Starts(b: Observation, v: string, init: Observation) {
    && Reasoning.Shows(b.reasoning, v)
    && (b.reasoningComplete ==> Bytes(v) <= Reasoning.MAX_REASONING_BYTES)
    && init.history == ToolHistory.EMPTY && init.events == {} && init.frames == {}
    && init.reasoning == Reasoning.EMPTY && init.dropped == 0
    && b.source == init.source && b.collectReasoning == init.collectReasoning
    && (b.toolHistoryComplete ==> init.toolHistoryComplete)
    && (b.reasoningComplete ==> init.reasoningComplete)
    && Foreign(b.events, init.scope) && Foreign(b.frames, init.scope)
  }

  lemma {:induction false} StartsBeside(b: Observation, v: string, init: Observation)
    requires Starts(b, v, init)
    ensures Beside(b, init, b.(scope := init.scope))
    ensures Kept(b, v, init, "", b.(scope := init.scope))
  {
    assert v + "" == v;
  }

  lemma {:induction false} NewBefore(o: Observation, es: seq<Event>, known: set<string>)
    requires es != [] && NewCalls(Calls(o, es), known)
    ensures NewCalls(Calls(o, es[..|es| - 1]), known)
    ensures CallOf(LastEffect(o, es)).Some? ==> ToolHistory.Key(CallOf(LastEffect(o, es)).value) !in known
  {
    hide Decide, ToolHistory.Key, ToolHistory.NulFree;
    var before := Calls(o, es[..|es| - 1]);
    forall i | 0 <= i < |before|
      ensures ToolHistory.Key(before[i]) !in known && ToolHistory.NulFree(before[i].turn)
    {
      assert before[i] == Calls(o, es)[i];
    }
    var last := CallOf(LastEffect(o, es));
    if last.Some? {
      assert Calls(o, es)[|before|] == last.value;
    }
  }

  lemma {:induction false} RunsBeside(
    base: seq<ToolHistory.Call>, b: Observation, v: string, init: Observation, es: seq<Event>)
    requires ToolHistory.Unique(base) && b.history == ToolHistory.Of(base)
    requires Starts(b, v, init) && Bounded(b, Run(init, es))
    requires NewCalls(Calls(init, es), ToolHistory.Keys(base))
    ensures
      var q := b.(scope := init.scope);
      && Beside(b, Run(init, es), Run(q, es))
      && Kept(b, v, Run(init, es), Text(init, es), Run(q, es))
      && Calls(q, es) == Calls(init, es)
  {
    hide Decide, Apply, Beside, Kept, Starts, Bounded, Foreign, ToolHistory.Of, ToolHistory.Keys, ToolHistory.Unique;
    if es == [] {
      StartsBeside(b, v, init);
    } else {
      var q := b.(scope := init.scope);
      var before, e := es[..|es| - 1], es[|es| - 1];
      BoundedBefore(b, Run(init, before), e);
      NewBefore(init, es, ToolHistory.Keys(base));
      RunsBeside(base, b, v, init, before);
      StepBeside(base, b, v, init, before, e);
    }
  }

  lemma {:induction false} StepBeside(
    base: seq<ToolHistory.Call>, b: Observation, v: string, init: Observation, es: seq<Event>, e: Event)
    requires ToolHistory.Unique(base) && b.history == ToolHistory.Of(base)
    requires Starts(b, v, init) && Bounded(b, Run(init, es)) && Bounded(b, Observe(Run(init, es), e))
    requires NewCalls(Calls(init, es), ToolHistory.Keys(base))
    requires
      var c := CallOf(Decide(Run(init, es), e));
      c.Some? ==> ToolHistory.Key(c.value) !in ToolHistory.Keys(base)
    requires
      var q := b.(scope := init.scope);
      && Beside(b, Run(init, es), Run(q, es))
      && Kept(b, v, Run(init, es), Text(init, es), Run(q, es))
      && Calls(q, es) == Calls(init, es)
    ensures
      var q := b.(scope := init.scope);
      var effect := Decide(Run(init, es), e);
      && Decide(Run(q, es), e) == effect
      && Beside(b, Observe(Run(init, es), e), Observe(Run(q, es), e))
      && Kept(b, v, Observe(Run(init, es), e), Text(init, es) + DeltaOf(effect), Observe(Run(q, es), e))
  {
    hide Decide, Apply, Beside, Kept, Foreign, ToolHistory.Of, ToolHistory.Keys, ToolHistory.Unique,
         ToolHistory.Record, ToolHistory.RecordAll;
    var start := b.(scope := init.scope);
    var n, q := Run(init, es), Run(start, es);
    RunHistory(init, es);
    RunHistory(start, es);
    DecideAlike(b, n, q, e);
    DecideIsOwn(n, e);
    var effect := Decide(n, e);
    if CallOf(effect).Some? {
      ApplyEffect(n, effect);
      ToolHistory.RefusedAlike(base, Calls(init, es), CallOf(effect).value);
    }
    ApplyBeside(b, n, q, effect);
    ApplyKept(b, v, n, Text(init, es), q, effect);
  }

  // ---------- The old state ----------

  ghost predicate SameAdapter(p: Past, adapter: string) {
    match p
    case Launched(a, _) => a == adapter
    case Observed(past, _) => SameAdapter(past, adapter)
    case Inherited(next, prior, _) => SameAdapter(next, adapter) && SameAdapter(prior, adapter)
  }

  function Scopes(p: Past): set<nat> {
    match p
    case Launched(_, scope) => {scope}
    case Observed(past, _) => Scopes(past)
    case Inherited(next, prior, _) => Scopes(next) + Scopes(prior)
  }

  // A state of one adapter differs from a launch only in having lost something.
  lemma {:induction false} AdapterStays(p: Past, adapter: string)
    requires SameAdapter(p, adapter)
    ensures State(p).source == Launch(adapter, 0).source
    ensures State(p).collectReasoning == Launch(adapter, 0).collectReasoning
    ensures State(p).toolHistoryComplete ==> Launch(adapter, 0).toolHistoryComplete
    ensures State(p).reasoningComplete ==> Launch(adapter, 0).reasoningComplete
  {
    hide Decide, Apply, ToolHistory.ReplayAll, Absorb;
    match p
    case Launched(_, _) =>
    case Observed(past, event) =>
      AdapterStays(past, adapter);
      ApplyGrows(State(past), Decide(State(past), event));
      ApplyAccount(State(past), Decide(State(past), event));
    case Inherited(next, prior, _) =>
      AdapterStays(next, adapter);
      AdapterStays(prior, adapter);
  }

  lemma {:induction false} AbsorbTakes(known: set<string>, order: seq<string>)
    ensures forall k :: k in Absorb(known, order).0 ==> k in known || k in order
    decreases order
  {
    if order != [] && |known| < ToolHistory.MAX_IDENTITIES {
      AbsorbTakes(known + {order[0]}, order[1..]);
    }
  }

  // Replay keys name the launch they come from.
  lemma {:induction false} KeysNameScopes(p: Past, scope: nat)
    requires Legal(p) && scope !in Scopes(p)
    ensures Foreign(State(p).events, scope) && Foreign(State(p).frames, scope)
    ensures State(p).scope in Scopes(p)
  {
    hide Decide, Apply, ToolHistory.SplitIdentity, Decimal, Absorb, ToolHistory.ReplayAll, ToolHistory.IsReceiptOrder;
    match p
    case Launched(_, _) =>
    case Observed(past, event) =>
      KeysNameScopes(past, scope);
      ApplyGrows(State(past), Decide(State(past), event));
      DecideIsOwn(State(past), event);
      if Decimal(State(past).scope) == Decimal(scope) {
        DecimalIsInjective(State(past).scope, scope);
      }
    case Inherited(next, prior, walk) =>
      KeysNameScopes(next, scope);
      KeysNameScopes(prior, scope);
      AbsorbTakes(State(prior).events, walk.events);
      AbsorbTakes(State(prior).frames, walk.frames);
  }

  // Reasoning that is reported complete was never cut.
  lemma {:induction false} CompleteReasoningFits(p: Past)
    requires Legal(p) && State(p).reasoningComplete
    ensures Bytes(Stream(p)) <= Reasoning.MAX_REASONING_BYTES
  {
    hide Decide, Apply, ToolHistory.ReplayAll, ToolHistory.IsReceiptOrder, Absorb, Bytes, Reasoning.Rolls;
    ReachableStates(p);
    match p
    case Launched(_, _) => AsciiBytes("");
    case Observed(past, event) =>
      ReachableStates(past);
      ApplyAccount(State(past), Decide(State(past), event));
      CompleteReasoningFits(past);
      Reasoning.RollsIff(State(past).reasoning, Stream(past), DeltaOf(Decide(State(past), event)));
    case Inherited(next, prior, walk) =>
      ReachableStates(next);
      ReachableStates(prior);
      CompleteReasoningFits(next);
      CompleteReasoningFits(prior);
      Reasoning.RollsIff(State(prior).reasoning, Stream(prior), State(next).reasoning.raw);
  }

  // ---------- The merge ----------

  lemma {:induction false} AbsorbAll(known: set<string>, order: seq<string>, more: set<string>)
    requires Lists(order, more) && known !! more && |known| + |more| <= ToolHistory.MAX_IDENTITIES
    ensures Absorb(known, order) == (known + more, false)
    decreases order
  {
    if order == [] {
      assert more == {};
    } else {
      var k, rest := order[0], order[1..];
      assert k in order;
      forall x ensures x in rest <==> x in more - {k} {
        if x in more && x != k {
          assert x in order;
        }
      }
      AbsorbAll(known + {k}, rest, more - {k});
      assert known + {k} + (more - {k}) == known + more;
    }
  }

  // What the merge is made of, when nothing is refused.
  lemma {:induction false} MergeParts(
    base: seq<ToolHistory.Call>, calls: seq<ToolHistory.Call>, items: seq<ToolHistory.Listed>)
    requires ToolHistory.Unique(base) && NewCalls(calls, ToolHistory.Keys(base))
    requires ToolHistory.IsReceiptOrder(ToolHistory.RecordAll(ToolHistory.EMPTY, calls).seen, items)
    requires ToolHistory.WithinCaps(ToolHistory.Of(base), ToolHistory.RecordAll(ToolHistory.EMPTY, calls))
    ensures
      var replay := ToolHistory.ReplayAll(ToolHistory.Of(base), ToolHistory.RecordAll(ToolHistory.EMPTY, calls), items);
      replay.history == ToolHistory.RecordAll(ToolHistory.Of(base), calls) && replay.dropped == 0
  {
    hide ToolHistory.Of, ToolHistory.ReplayAll, ToolHistory.WithinCaps, ToolHistory.Fits, ToolHistory.IsReceiptOrder,
         ToolHistory.Unique;
    ToolHistory.MergeIsOneRun(base, calls, items);
    ToolHistory.ReplayRefusesNone(base, calls, items);
  }

  lemma {:induction false} MergeReasoning(b: Observation, v: string, n: Observation, w: string, q: Observation)
    requires Kept(b, v, n, w, q) && Reasoning.Shows(b.reasoning, v)
    requires b.reasoningComplete ==> Bytes(v) <= Reasoning.MAX_REASONING_BYTES
    ensures
      var rolls := Reasoning.Rolls(b.reasoning, n.reasoning.raw);
      && Reasoning.Merge(b.reasoning, n.reasoning).text == q.reasoning.text
      && Reasoning.Merge(b.reasoning, n.reasoning).truncated == q.reasoning.truncated
      && q.reasoningComplete == (b.reasoningComplete && !rolls && n.reasoningComplete)
      && (Bytes(v + w) <= Reasoning.MAX_REASONING_BYTES ==> !rolls && q.dropped == b.dropped + n.dropped)
  {
    hide Bytes, Reasoning.Merge, Reasoning.Rolls;
    Reasoning.MergeShows(b.reasoning, v, n.reasoning, w);
    BytesConcat(v, w);
    if Bytes(v) <= Reasoning.MAX_REASONING_BYTES {
      Reasoning.RollsIff(b.reasoning, v, n.reasoning.raw);
    }
  }

  lemma {:induction false} OldState(p: Past, adapter: string, scope: nat)
    requires Legal(p) && SameAdapter(p, adapter) && scope !in Scopes(p)
    ensures Starts(State(p), Stream(p), Launch(adapter, scope))
    ensures Launch(adapter, scope).scope == scope
  {
    hide Foreign, Reasoning.Shows, Bytes;
    ReachableStates(p);
    AdapterStays(p, adapter);
    KeysNameScopes(p, scope);
    if State(p).reasoningComplete {
      CompleteReasoningFits(p);
    }
  }

  lemma {:induction false} MergeKeys(b: Observation, n: Observation, q: Observation, walk: Walk)
    requires Beside(b, n, q) && IsWalk(walk, n) && Bounded(b, n)
    requires Foreign(b.events, n.scope) && Foreign(b.frames, n.scope)
    ensures Absorb(b.events, walk.events) == (q.events, false)
    ensures Absorb(b.frames, walk.frames) == (q.frames, false)
  {
    hide Absorb, Lists, ToolHistory.IsReceiptOrder, ToolHistory.WithinCaps, ToolHistory.SplitIdentity, Decimal;
    AbsorbAll(b.events, walk.events, n.events);
    AbsorbAll(b.frames, walk.frames, n.frames);
  }

  /** Merging is one run. A new launch of the same adapter, under a scope the old
      state has not seen, reports calls the old state has not seen, and no cap is
      reached. Then folding its state into the old one gives the history, with
      every count, number and recent list, the replay keys, the reasoning shown
      and both completeness flags that the old state would have reached by
      observing the same events itself. The number of reported losses agrees as
      well, unless the joint reasoning overflows its buffer: the merge counts one
      overflow where the run counts one per delta. */
  lemma {:induction false} MergeIsSequential(p: Past, adapter: string, scope: nat, es: seq<Event>, walk: Walk)
    requires Legal(p) && SameAdapter(p, adapter) && scope !in Scopes(p) && Parsed(es)
    requires
      var b, n := State(p), Run(Launch(adapter, scope), es);
      && IsWalk(walk, n) && Bounded(b, n)
      && forall c :: c in Calls(Launch(adapter, scope), es) ==> ToolHistory.Key(c) !in b.history.seen
    ensures
      var b, n := State(p), Run(Launch(adapter, scope), es);
      var merged, run := Merge(b, n, walk), Run(b.(scope := scope), es);
      && merged.history == run.history
      && merged.reasoning.text == run.reasoning.text
      && merged.reasoning.truncated == run.reasoning.truncated
      && merged.events == run.events && merged.frames == run.frames
      && merged.scope == run.scope && merged.source == run.source
      && merged.collectReasoning == run.collectReasoning
      && merged.toolHistoryComplete == run.toolHistoryComplete
      && merged.reasoningComplete == run.reasoningComplete
      && (Bytes(Stream(p) + Text(Launch(adapter, scope), es)) <= Reasoning.MAX_REASONING_BYTES ==>
            merged.dropped == run.dropped)
  {
    hide State, Launch, ToolHistory.Record, ToolHistory.RecordAll, ToolHistory.ReplayAll, ToolHistory.Of,
         ToolHistory.WithinCaps, ToolHistory.IsReceiptOrder, Reasoning.Merge, Reasoning.Rolls, Reasoning.Shows,
         Bytes, Absorb, Lists, Foreign, Kept, Calls, Run, Text, Legal, SameAdapter, Scopes;
    var b, init := State(p), Launch(adapter, scope);
    var start, calls := b.(scope := scope), Calls(init, es);
    var n, q := Run(init, es), Run(start, es);
    ReachableStates(p);
    OldState(p, adapter, scope);
    ToolHistory.SeenKeys(Log(p));
    CallsAreSplittable(init, es);
    RunsBeside(Log(p), b, Stream(p), init, es);
    RunHistory(init, es);
    RunHistory(start, es);
    MergeParts(Log(p), calls, walk.calls);
    MergeKeys(b, n, q, walk);
    MergeReasoning(b, Stream(p), n, Text(init, es), q);
  }
}
