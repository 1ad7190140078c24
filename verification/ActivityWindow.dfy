/**
 The 60-second window of a snapshot: what the retained samples add up to. The
 additions saturate at the largest 64-bit number, which they never reach.
 */
module ActivityWindow {
  import opened Listings
  import opened Options
  import opened ActivityParser
  import opened ActivityTracker

  const U64_MAX: nat := 0xFFFF_FFFF_FFFF_FFFF

  datatype Window = Window(
    reasoning: nat, text: nat, started: nat, completed: nat, failed: nat, read: nat, bash: nat, other: nat)

  const NONE := Window(0, 0, 0, 0, 0, 0, 0, 0)

  function SaturatingAdd(a: nat, b: nat): nat {
    if a + b > U64_MAX then U64_MAX else a + b
  }

  function Plus(w: Window, v: Window): Window {
    Window(
      w.reasoning + v.reasoning, w.text + v.text, w.started + v.started, w.completed + v.completed,
      w.failed + v.failed, w.read + v.read, w.bash + v.bash, w.other + v.other)
  }

  // What one sample stands for.
  function Weight(kind: SampleKind): Window {
    match kind
    case ReasoningDelta => NONE.(reasoning := 1)
    case TextDelta => NONE.(text := 1)
    case Completed => NONE.(completed := 1)
    case Failed => NONE.(failed := 1)
    case Started(ReadTool, count) => NONE.(started := count, read := count)
    case Started(BashTool, count) => NONE.(started := count, bash := count)
    case Started(OtherTool, count) => NONE.(started := count, other := count)
  }

  predicate Expired(sample: Sample, now: nat) {
    now > sample.observedAt && now - sample.observedAt > PASSIVE_ACTIVITY_WINDOW
  }

  function Share(sample: Sample, now: nat): Window {
    if Expired(sample, now) then NONE else Weight(sample.kind)
  }

  // The exact sum over the samples named.
  function Total(samples: map<string, Sample>, names: seq<string>, now: nat): Window
    requires forall n :: n in names ==> n in samples
  {
    if names == [] then NONE
    else Plus(Total(samples, names[..|names| - 1], now), Share(samples[names[|names| - 1]], now))
  }

  // ---------- Conservation ----------

  // Every call started is a read, a shell command or another call, and no sum exceeds `cap`.
  predicate Balanced(w: Window, cap: nat) {
    && w.started == w.read + w.bash + w.other
    && w.started <= cap && w.reasoning <= cap && w.text <= cap && w.completed <= cap && w.failed <= cap
  }

  lemma {:induction false} ShareIsBalanced(sample: Sample, now: nat)
    requires Weighed(Some(sample.kind))
    ensures Balanced(Share(sample, now), MAX_TOOL_COUNT)
  {
  }

  lemma {:induction false} PlusIsBalanced(w: Window, cap: nat, v: Window, more: nat)
    requires Balanced(w, cap) && Balanced(v, more)
    ensures Balanced(Plus(w, v), cap + more)
  {
  }

  lemma {:induction false} PlusSwaps(u: Window, v: Window, w: Window)
    ensures Plus(Plus(u, v), w) == Plus(Plus(u, w), v)
  {
  }

  lemma {:induction false} TotalIsBalanced(samples: map<string, Sample>, names: seq<string>, now: nat)
    requires forall n :: n in names ==> n in samples && Weighed(Some(samples[n].kind))
    ensures Balanced(Total(samples, names, now), |names| * MAX_TOOL_COUNT)
  {
    hide Balanced, Plus, Share, Weighed;
    if names == [] {
      NoneIsBalanced();
    } else {
      var before, last := names[..|names| - 1], names[|names| - 1];
      TotalIsBalanced(samples, before, now);
      ShareIsBalanced(samples[last], now);
      PlusIsBalanced(Total(samples, before, now), |before| * MAX_TOOL_COUNT, Share(samples[last], now), MAX_TOOL_COUNT);
    }
  }

  lemma {:induction false} NoneIsBalanced()
    ensures Balanced(NONE, 0)
  {
  }

  // A sample counts for a minute.
  predicate Counts(sample: Sample, now: nat) {
    now <= sample.observedAt + 60_000
  }

  // What one sample adds to the calls of a kind, and to the samples of a sort.
  function CallsIn(sample: Sample, now: nat, kind: ToolKind): nat {
    if Counts(sample, now) && sample.kind.Started? && sample.kind.kind == kind then sample.kind.count else 0
  }

  function OneIf(sample: Sample, now: nat, sort: SampleKind): nat {
    if Counts(sample, now) && sample.kind == sort then 1 else 0
  }

  function CallsOfKind(samples: map<string, Sample>, names: seq<string>, now: nat, kind: ToolKind): nat
    requires forall n :: n in names ==> n in samples
  {
    if names == [] then 0
    else CallsOfKind(samples, names[..|names| - 1], now, kind) + CallsIn(samples[names[|names| - 1]], now, kind)
  }

  function SamplesLike(samples: map<string, Sample>, names: seq<string>, now: nat, sort: SampleKind): nat
    requires forall n :: n in names ==> n in samples
  {
    if names == [] then 0
    else SamplesLike(samples, names[..|names| - 1], now, sort) + OneIf(samples[names[|names| - 1]], now, sort)
  }

  lemma {:induction false} ShareFigures(sample: Sample, now: nat)
    ensures
      var w := Share(sample, now);
      && w.read == CallsIn(sample, now, ReadTool) && w.bash == CallsIn(sample, now, BashTool)
      && w.other == CallsIn(sample, now, OtherTool)
      && w.reasoning == OneIf(sample, now, ReasoningDelta) && w.text == OneIf(sample, now, TextDelta)
      && w.completed == OneIf(sample, now, Completed) && w.failed == OneIf(sample, now, Failed)
  {
  }

  /** Each figure of the window counts what it is named after. */
  lemma {:induction false} FiguresCountTheirKind(samples: map<string, Sample>, names: seq<string>, now: nat)
    requires forall n :: n in names ==> n in samples
    ensures
      var w := Total(samples, names, now);
      && w.read == CallsOfKind(samples, names, now, ReadTool)
      && w.bash == CallsOfKind(samples, names, now, BashTool)
      && w.other == CallsOfKind(samples, names, now, OtherTool)
      && w.reasoning == SamplesLike(samples, names, now, ReasoningDelta)
      && w.text == SamplesLike(samples, names, now, TextDelta)
      && w.completed == SamplesLike(samples, names, now, Completed)
      && w.failed == SamplesLike(samples, names, now, Failed)
  {
    hide Share, CallsIn, OneIf;
    if names != [] {
      FiguresCountTheirKind(samples, names[..|names| - 1], now);
      ShareFigures(samples[names[|names| - 1]], now);
    }
  }

  // A sample may be taken out of the sum wherever it stands.
  lemma {:induction false} TotalWithout(samples: map<string, Sample>, names: seq<string>, i: nat, now: nat)
    requires i < |names| && forall n :: n in names ==> n in samples
    ensures forall n :: n in names[..i] + names[i + 1..] ==> n in samples
    ensures Total(samples, names, now) ==
            Plus(Total(samples, names[..i] + names[i + 1..], now), Share(samples[names[i]], now))
  {
    hide Plus, Share;
    var before, last := names[..|names| - 1], names[|names| - 1];
    if i == |names| - 1 {
      assert names[..i] + names[i + 1..] == before;
    } else {
      TotalWithout(samples, before, i, now);
      var rest := before[..i] + before[i + 1..];
      JoinLast(names, i);
      assert (rest + [last])[..|rest|] == rest;
      PlusSwaps(Total(samples, rest, now), Share(samples[names[i]], now), Share(samples[last], now));
    }
  }

  lemma {:induction false} JoinLast(names: seq<string>, i: nat)
    requires i < |names| - 1
    ensures
      var before := names[..|names| - 1];
      names[..i] + names[i + 1..] == before[..i] + before[i + 1..] + [names[|names| - 1]]
  {
  }

  lemma {:induction false} WithoutLists(a: seq<string>, b: seq<string>, i: nat)
    requires a != [] && i < |b| && b[i] == a[|a| - 1] && (forall n :: n in a <==> n in b)
    requires forall j, k :: 0 <= j < k < |a| ==> a[j] != a[k]
    requires forall j, k :: 0 <= j < k < |b| ==> b[j] != b[k]
    ensures
      var rest := b[..i] + b[i + 1..];
      && (forall n :: n in a[..|a| - 1] <==> n in rest)
      && forall j, k :: 0 <= j < k < |rest| ==> rest[j] != rest[k]
  {
    var rest := b[..i] + b[i + 1..];
    var last := a[|a| - 1];
    assert a == a[..|a| - 1] + [last];
    assert b == b[..i] + [b[i]] + b[i + 1..];
    forall n ensures n in a[..|a| - 1] <==> n in rest {
      assert n in a <==> n == last || n in a[..|a| - 1];
      assert n in b <==> n == b[i] || n in rest;
      if n == last {
        assert n !in a[..|a| - 1];
        assert n !in rest;
      }
    }
  }

  lemma {:induction false} SameNames(a: seq<string>, b: seq<string>)
    requires forall n :: n in a <==> n in b
    ensures a == [] <==> b == []
  {
    assert a != [] ==> a[0] in a;
    assert b != [] ==> b[0] in b;
  }

  /** The sum does not depend on the order in which the map is walked. */
  lemma {:induction false} TotalIsOrderFree(samples: map<string, Sample>, a: seq<string>, b: seq<string>, now: nat)
    requires (forall n :: n in a ==> n in samples) && (forall n :: n in a <==> n in b)
    requires forall j, k :: 0 <= j < k < |a| ==> a[j] != a[k]
    requires forall j, k :: 0 <= j < k < |b| ==> b[j] != b[k]
    ensures Total(samples, a, now) == Total(samples, b, now) && |a| == |b|
  {
    hide Plus, Share;
    SameNames(a, b);
    if a != [] {
      var last := a[|a| - 1];
      assert last in b;
      var i :| 0 <= i < |b| && b[i] == last;
      WithoutLists(a, b, i);
      TotalIsOrderFree(samples, a[..|a| - 1], b[..i] + b[i + 1..], now);
      TotalWithout(samples, b, i, now);
    }
  }

  // ---------- The loop over the samples ----------

  function SaturatingPlus(w: Window, v: Window): Window {
    Window(
      SaturatingAdd(w.reasoning, v.reasoning), SaturatingAdd(w.text, v.text), SaturatingAdd(w.started, v.started),
      SaturatingAdd(w.completed, v.completed), SaturatingAdd(w.failed, v.failed), SaturatingAdd(w.read, v.read),
      SaturatingAdd(w.bash, v.bash), SaturatingAdd(w.other, v.other))
  }

  lemma {:induction false} PlusIsExact(w: Window, v: Window, cap: nat)
    requires Balanced(Plus(w, v), cap) && cap <= U64_MAX
    ensures SaturatingPlus(w, v) == Plus(w, v)
  {
  }

  // One more sample, without saturation.
  lemma {:induction false} NextSampleIsExact(samples: map<string, Sample>, visit: seq<string>, i: nat, now: nat)
    requires i < |visit| <= MAX_ACTIVITY_IDENTITIES
    requires forall n :: n in visit ==> n in samples && Weighed(Some(samples[n].kind))
    ensures SaturatingPlus(Total(samples, visit[..i], now), Share(samples[visit[i]], now)) ==
            Total(samples, visit[..i + 1], now)
  {
    hide Plus, SaturatingPlus, Balanced, Share, Weighed;
    assert visit[..i + 1][..i] == visit[..i];
    TotalIsBalanced(samples, visit[..i + 1], now);
    PlusIsExact(Total(samples, visit[..i], now), Share(samples[visit[i]], now), (i + 1) * MAX_TOOL_COUNT);
  }

  /** The window of a snapshot, summed over the samples in whatever order the map
      yields them: no addition saturates, and the result is the exact sum over
      the queue. */
  method WindowAt(q: Queue, visit: seq<string>, now: nat) returns (w: Window)
    requires Queued(q) && |q.order| <= MAX_ACTIVITY_IDENTITIES && Lists(visit, q.samples.Keys)
    ensures w == Total(q.samples, q.order, now)
    ensures Balanced(w, MAX_ACTIVITY_IDENTITIES * MAX_TOOL_COUNT)
  {
    hide Total, SaturatingPlus, Balanced, Share, Weighed;
    TotalIsOrderFree(q.samples, q.order, visit, now);
    w := NONE;
    NothingTotals(q.samples, visit[..0], now);
    var i := 0;
    while i < |visit|
      invariant 0 <= i <= |visit|
      invariant w == Total(q.samples, visit[..i], now)
    {
      NextSampleIsExact(q.samples, visit, i, now);
      w := SaturatingPlus(w, Share(q.samples[visit[i]], now));
      i := i + 1;
    }
    assert visit[..|visit|] == visit;
    TotalIsBalanced(q.samples, visit, now);
    StaysBalanced(w, |visit| * MAX_TOOL_COUNT, MAX_ACTIVITY_IDENTITIES * MAX_TOOL_COUNT);
  }

  lemma {:induction false} NothingTotals(samples: map<string, Sample>, names: seq<string>, now: nat)
    requires names == []
    ensures Total(samples, names, now) == NONE
  {
  }

  lemma {:induction false} StaysBalanced(w: Window, cap: nat, more: nat)
    requires Balanced(w, cap) && cap <= more
    ensures Balanced(w, more)
  {
  }
}
