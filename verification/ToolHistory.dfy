/**
 The tool-call history of a task: counts per tool, the newest five calls of each
 tool, and the identity of every call ever counted.

 The reference is the log of the counted calls in order. Every operation on the
 bounded history is an operation on the log, and merging the history of two
 claims is concatenating their logs.
 */
module ToolHistory {
  import Json
  import opened Listings

  const MAX_IDENTITIES: nat := 65_536
  const MAX_TOOL_TYPES: nat := 64
  const MAX_RECENT_CALLS: nat := 5

  // What is known about the arguments of one call.
  datatype Detail = Detail(arguments: seq<Json.Entry>, truncated: bool, redacted: nat)

  const UNKNOWN := Detail([], true, 0)

  datatype ObservedCall = ObservedCall(seqNo: nat, callId: string, detail: Detail)

  datatype ToolGroup = ToolGroup(callCount: nat, latestSeq: nat, recent: seq<ObservedCall>)

  datatype CallRef = CallRef(tool: string, seqNo: nat)

  datatype History = History(nextSeq: nat, seen: map<string, CallRef>, tools: map<string, ToolGroup>)

  const EMPTY := History(0, map[], map[])

  // One tool call as a producer reports it.
  datatype Call = Call(turn: string, id: string, tool: string, detail: Detail)

  // What recording a call did; the caller turns it into its own counters.
  datatype Outcome = Counted | Refined | Unchanged | Dropped

  function Identity(turn: string, id: string): string {
    turn + "\0" + id
  }

  function Key(c: Call): string {
    Identity(c.turn, c.id)
  }

  function FirstFive(calls: seq<ObservedCall>): seq<ObservedCall> {
    if |calls| <= MAX_RECENT_CALLS then calls else calls[..MAX_RECENT_CALLS]
  }

  // The position of the call numbered `seqNo`, or the length.
  function Find(calls: seq<ObservedCall>, seqNo: nat): (i: nat)
    ensures i <= |calls|
    ensures i < |calls| ==> calls[i].seqNo == seqNo
  {
    if calls == [] || calls[0].seqNo == seqNo then 0 else 1 + Find(calls[1..], seqNo)
  }

  // An update without arguments never erases arguments already known.
  function Preferred(known: Detail, offered: Detail): Detail {
    if offered.arguments == [] && offered.truncated && known.arguments != [] then known else offered
  }

  function CountedTools(tools: map<string, ToolGroup>, c: Call, seqNo: nat): map<string, ToolGroup> {
    var group := if c.tool in tools then tools[c.tool] else ToolGroup(0, 0, []);
    var recent := FirstFive([ObservedCall(seqNo, c.id, c.detail)] + group.recent);
    tools[c.tool := ToolGroup(group.callCount + 1, seqNo, recent)]
  }

  function RefinedTools(tools: map<string, ToolGroup>, tool: string, i: nat, d: Detail): map<string, ToolGroup>
    requires tool in tools && i < |tools[tool].recent|
  {
    var group := tools[tool];
    tools[tool := group.(recent := group.recent[i := group.recent[i].(detail := d)])]
  }

  function Recount(h: History, c: Call): (History, Outcome)
    requires Key(c) in h.seen
  {
    var ref := h.seen[Key(c)];
    if ref.tool !in h.tools then (h, Unchanged) else
    var recent := h.tools[ref.tool].recent;
    var i := Find(recent, ref.seqNo);
    if i == |recent| then (h, Unchanged) else
    var d := Preferred(recent[i].detail, c.detail);
    if d == recent[i].detail then (h, Unchanged)
    else (h.(tools := RefinedTools(h.tools, ref.tool, i, d)), Refined)
  }

  function Count(h: History, c: Call): History {
    var seqNo := h.nextSeq + 1;
    History(seqNo, h.seen[Key(c) := CallRef(c.tool, seqNo)], CountedTools(h.tools, c, seqNo))
  }

  function Record(h: History, c: Call): (History, Outcome) {
    if Key(c) in h.seen then Recount(h, c)
    else if |h.seen| >= MAX_IDENTITIES then (h, Dropped)
    else if c.tool !in h.tools && |h.tools| >= MAX_TOOL_TYPES then (h, Dropped)
    else (Count(h, c), Counted)
  }

  // ---------- The log behind a history ----------

  // The history of a log: its calls counted one after the other.
  function Of(log: seq<Call>): History {
    if log == [] then EMPTY else Count(Of(log[..|log| - 1]), log[|log| - 1])
  }

  function Keys(log: seq<Call>): set<string> {
    if log == [] then {} else Keys(log[..|log| - 1]) + {Key(log[|log| - 1])}
  }

  function Tools(log: seq<Call>): set<string> {
    if log == [] then {} else Tools(log[..|log| - 1]) + {log[|log| - 1].tool}
  }

  predicate Unique(log: seq<Call>) {
    log == [] || (Unique(log[..|log| - 1]) && Key(log[|log| - 1]) !in Keys(log[..|log| - 1]))
  }

  // The calls of one tool, newest first, numbered by their place in the log.
  function CallsOf(log: seq<Call>, tool: string): seq<ObservedCall> {
    if log == [] then [] else
    var last := log[|log| - 1];
    var older := CallsOf(log[..|log| - 1], tool);
    if last.tool == tool then [ObservedCall(|log|, last.id, last.detail)] + older else older
  }

  // How many calls of `tool` came after position `i`.
  function Rank(log: seq<Call>, i: nat, tool: string): nat
    requires i < |log|
  {
    if i == |log| - 1 then 0
    else Rank(log[..|log| - 1], i, tool) + if log[|log| - 1].tool == tool then 1 else 0
  }

  function PositionOf(log: seq<Call>, key: string): (i: nat)
    requires key in Keys(log)
    ensures i < |log| && Key(log[i]) == key
  {
    if Key(log[|log| - 1]) == key then |log| - 1 else PositionOf(log[..|log| - 1], key)
  }

  lemma {:induction false} AppendKeys(log: seq<Call>, c: Call)
    ensures Keys(log + [c]) == Keys(log) + {Key(c)}
    ensures Tools(log + [c]) == Tools(log) + {c.tool}
    ensures Unique(log + [c]) <==> Unique(log) && Key(c) !in Keys(log)
    ensures Of(log + [c]) == Count(Of(log), c)
  {
    assert (log + [c])[..|log|] == log;
  }

  lemma {:induction false} AppendCalls(log: seq<Call>, c: Call)
    ensures forall t :: CallsOf(log + [c], t) ==
              if c.tool == t then [ObservedCall(|log| + 1, c.id, c.detail)] + CallsOf(log, t) else CallsOf(log, t)
  {
    assert (log + [c])[..|log|] == log;
  }

  lemma {:induction false} KeyAt(log: seq<Call>, i: nat)
    requires i < |log|
    ensures Key(log[i]) in Keys(log)
    ensures log[i].tool in Tools(log)
  {
    if i < |log| - 1 {
      KeyAt(log[..|log| - 1], i);
    }
  }

  lemma {:induction false} KeysCounted(log: seq<Call>)
    requires Unique(log)
    ensures |Keys(log)| == |log|
  {
    if log != [] {
      KeysCounted(log[..|log| - 1]);
    }
  }

  // ---------- What the history of a log holds ----------

  lemma {:induction false} SeenKeys(log: seq<Call>)
    ensures Of(log).nextSeq == |log|
    ensures Of(log).seen.Keys == Keys(log)
    ensures Of(log).tools.Keys == Tools(log)
  {
    if log != [] {
      SeenKeys(log[..|log| - 1]);
    }
  }

  // Every counted call is numbered by its place: 1, 2, 3, ...
  lemma {:induction false} SeenAt(log: seq<Call>, i: nat)
    requires Unique(log) && i < |log|
    ensures Key(log[i]) in Of(log).seen
    ensures Of(log).seen[Key(log[i])] == CallRef(log[i].tool, i + 1)
  {
    var before := log[..|log| - 1];
    SeenKeys(before);
    if i < |log| - 1 {
      KeyAt(before, i);
      SeenAt(before, i);
    }
  }

  function GroupOf(log: seq<Call>, tool: string): ToolGroup
    requires CallsOf(log, tool) != []
  {
    var calls := CallsOf(log, tool);
    ToolGroup(|calls|, calls[0].seqNo, FirstFive(calls))
  }

  // Every tool has its exact count and its newest five calls.
  lemma {:induction false} GroupAt(log: seq<Call>, tool: string)
    ensures tool in Of(log).tools <==> CallsOf(log, tool) != []
    ensures tool in Of(log).tools ==> Of(log).tools[tool] == GroupOf(log, tool)
  {
    if log != [] {
      GroupAt(log[..|log| - 1], tool);
      SeenKeys(log[..|log| - 1]);
    }
  }

  // What a call list says about the log: newest first, and the place of each
  // call in the list is the number of calls of that tool after it.
  lemma {:induction false} CallAt(log: seq<Call>, tool: string, n: nat)
    requires n < |CallsOf(log, tool)|
    ensures
      var c := CallsOf(log, tool)[n];
      && 1 <= c.seqNo <= |log|
      && log[c.seqNo - 1].tool == tool
      && c.callId == log[c.seqNo - 1].id
      && c.detail == log[c.seqNo - 1].detail
      && Rank(log, c.seqNo - 1, tool) == n
  {
    var before, last := log[..|log| - 1], log[|log| - 1];
    if last.tool != tool {
      CallAt(before, tool, n);
    } else if n > 0 {
      CallAt(before, tool, n - 1);
    }
  }

  lemma {:induction false} PlaceOf(log: seq<Call>, i: nat)
    requires i < |log|
    ensures Rank(log, i, log[i].tool) < |CallsOf(log, log[i].tool)|
    ensures CallsOf(log, log[i].tool)[Rank(log, i, log[i].tool)].seqNo == i + 1
  {
    if i < |log| - 1 {
      PlaceOf(log[..|log| - 1], i);
    }
  }

  lemma {:induction false} Descending(log: seq<Call>, tool: string, m: nat, n: nat)
    requires m < n < |CallsOf(log, tool)|
    ensures CallsOf(log, tool)[m].seqNo > CallsOf(log, tool)[n].seqNo
  {
    var before, last := log[..|log| - 1], log[|log| - 1];
    if last.tool != tool {
      Descending(before, tool, m, n);
    } else if m > 0 {
      Descending(before, tool, m - 1, n - 1);
    } else {
      CallAt(before, tool, n - 1);
    }
  }

  lemma {:induction false} FindIs(calls: seq<ObservedCall>, n: nat)
    requires n < |calls|
    requires forall m :: 0 <= m < n ==> calls[m].seqNo != calls[n].seqNo
    ensures Find(calls, calls[n].seqNo) == n
  {
    if n > 0 {
      assert calls[0].seqNo != calls[n].seqNo;
      FindIs(calls[1..], n - 1);
    }
  }

  lemma {:induction false} FindNone(calls: seq<ObservedCall>, seqNo: nat)
    requires forall c :: c in calls ==> c.seqNo != seqNo
    ensures Find(calls, seqNo) == |calls|
  {
    if calls != [] {
      FindNone(calls[1..], seqNo);
    }
  }

  // A counted call is found among the newest five exactly when fewer than five
  // calls of its tool came after it.
  lemma {:induction false} FindShown(log: seq<Call>, i: nat)
    requires i < |log|
    ensures
      var tool := log[i].tool;
      var shown := FirstFive(CallsOf(log, tool));
      var n := Rank(log, i, tool);
      && Find(shown, i + 1) == (if n < MAX_RECENT_CALLS then n else |shown|)
      && (n < MAX_RECENT_CALLS ==> n < |shown| && shown[n].detail == log[i].detail)
  {
    var tool := log[i].tool;
    var calls := CallsOf(log, tool);
    var n := Rank(log, i, tool);
    PlaceOf(log, i);
    CallAt(log, tool, n);
    forall m | 0 <= m < |calls| && m != n ensures calls[m].seqNo != i + 1 {
      if m < n { Descending(log, tool, m, n); } else { Descending(log, tool, n, m); }
    }
    if n < MAX_RECENT_CALLS {
      FindIs(FirstFive(calls), n);
    } else {
      FindNone(FirstFive(calls), i + 1);
    }
  }

  // ---------- Recording is logging ----------

  predicate HasRoom(log: seq<Call>, c: Call) {
    |log| < MAX_IDENTITIES && (c.tool in Tools(log) || |Tools(log)| < MAX_TOOL_TYPES)
  }

  function Rewritten(log: seq<Call>, i: nat, d: Detail): seq<Call>
    requires i < |log|
  {
    log[i := log[i].(detail := d)]
  }

  // A known call refines its entry while it is still shown; a new call is
  // appended while there is room.
  function Logged(log: seq<Call>, c: Call): seq<Call> {
    if Key(c) in Keys(log) then
      var i := PositionOf(log, Key(c));
      if Rank(log, i, log[i].tool) < MAX_RECENT_CALLS
      then Rewritten(log, i, Preferred(log[i].detail, c.detail))
      else log
    else if HasRoom(log, c) then log + [c]
    else log
  }

  lemma {:induction false} RewrittenPrefix(log: seq<Call>, i: nat, d: Detail)
    requires i < |log|
    ensures
      var (rewritten, before) := (Rewritten(log, i, d), log[..|log| - 1]);
      && |rewritten| == |log|
      && rewritten[..|log| - 1] == (if i < |log| - 1 then Rewritten(before, i, d) else before)
      && Key(rewritten[|log| - 1]) == Key(log[|log| - 1]) && rewritten[|log| - 1].tool == log[|log| - 1].tool
  {
  }

  lemma {:induction false} RewriteKeys(log: seq<Call>, i: nat, d: Detail)
    requires i < |log|
    ensures Keys(Rewritten(log, i, d)) == Keys(log)
    ensures Tools(Rewritten(log, i, d)) == Tools(log)
    ensures Unique(Rewritten(log, i, d)) == Unique(log)
  {
    hide Key, Rewritten;
    RewrittenPrefix(log, i, d);
    if i < |log| - 1 {
      RewriteKeys(log[..|log| - 1], i, d);
    }
  }

  lemma {:induction false} RewriteNumbers(log: seq<Call>, i: nat, d: Detail)
    requires i < |log|
    ensures Of(Rewritten(log, i, d)).seen == Of(log).seen
    ensures Of(Rewritten(log, i, d)).nextSeq == Of(log).nextSeq
  {
    hide Key, Rewritten, CountedTools;
    RewrittenPrefix(log, i, d);
    if i < |log| - 1 {
      RewriteNumbers(log[..|log| - 1], i, d);
    }
  }

  lemma {:induction false} RewriteSeen(log: seq<Call>, i: nat, d: Detail)
    requires i < |log|
    ensures Keys(Rewritten(log, i, d)) == Keys(log)
    ensures Tools(Rewritten(log, i, d)) == Tools(log)
    ensures Unique(Rewritten(log, i, d)) == Unique(log)
    ensures Of(Rewritten(log, i, d)).seen == Of(log).seen
    ensures Of(Rewritten(log, i, d)).nextSeq == Of(log).nextSeq
  {
    RewriteKeys(log, i, d);
    RewriteNumbers(log, i, d);
  }

  // Rewriting one logged detail rewrites one entry of one call list.
  lemma {:induction false} RewriteCalls(log: seq<Call>, i: nat, d: Detail, tool: string)
    requires i < |log|
    ensures
      var calls := CallsOf(log, tool);
      var n := Rank(log, i, tool);
      && (log[i].tool != tool ==> CallsOf(Rewritten(log, i, d), tool) == calls)
      && (log[i].tool == tool ==>
            n < |calls| && CallsOf(Rewritten(log, i, d), tool) == calls[n := calls[n].(detail := d)])
  {
    var before := log[..|log| - 1];
    if i == |log| - 1 {
      assert Rewritten(log, i, d)[..|log| - 1] == before;
    } else {
      assert Rewritten(log, i, d)[..|log| - 1] == Rewritten(before, i, d);
      RewriteCalls(before, i, d, tool);
    }
  }

  lemma {:induction false} RewriteTool(log: seq<Call>, i: nat, d: Detail, tool: string)
    requires i < |log| && Rank(log, i, log[i].tool) < MAX_RECENT_CALLS
    ensures
      var tools, n := Of(log).tools, Rank(log, i, log[i].tool);
      var rewritten := Of(Rewritten(log, i, d)).tools;
      && log[i].tool in tools && n < |tools[log[i].tool].recent|
      && (tool in rewritten <==> tool in tools)
      && (tool in tools ==> rewritten[tool] == RefinedTools(tools, log[i].tool, n, d)[tool])
  {
    PlaceOf(log, i);
    GroupAt(log, log[i].tool);
    GroupAt(log, tool);
    GroupAt(Rewritten(log, i, d), tool);
    RewriteCalls(log, i, d, tool);
  }

  lemma {:induction false} RewriteLogs(log: seq<Call>, i: nat, d: Detail)
    requires i < |log| && Rank(log, i, log[i].tool) < MAX_RECENT_CALLS
    ensures
      var h, n := Of(log), Rank(log, i, log[i].tool);
      && log[i].tool in h.tools && n < |h.tools[log[i].tool].recent|
      && Of(Rewritten(log, i, d)) == h.(tools := RefinedTools(h.tools, log[i].tool, n, d))
  {
    RewriteTool(log, i, d, log[i].tool);
    RewriteSeen(log, i, d);
    var tools := RefinedTools(Of(log).tools, log[i].tool, Rank(log, i, log[i].tool), d);
    forall t
      ensures t in Of(Rewritten(log, i, d)).tools <==> t in tools
      ensures t in tools ==> Of(Rewritten(log, i, d)).tools[t] == tools[t]
    {
      RewriteTool(log, i, d, t);
    }
    assert Of(Rewritten(log, i, d)).tools == tools;
  }

  lemma {:induction false} RecountLogs(log: seq<Call>, c: Call)
    requires Unique(log) && Key(c) in Keys(log)
    ensures Key(c) in Of(log).seen
    ensures Recount(Of(log), c).0 == Of(Logged(log, c))
    ensures Recount(Of(log), c).1 in {Refined, Unchanged}
    ensures Unique(Logged(log, c))
  {
    var i := PositionOf(log, Key(c));
    var d := Preferred(log[i].detail, c.detail);
    SeenAt(log, i);
    PlaceOf(log, i);
    GroupAt(log, log[i].tool);
    FindShown(log, i);
    if Rank(log, i, log[i].tool) < MAX_RECENT_CALLS {
      RewriteSeen(log, i, d);
      RewriteLogs(log, i, d);
      assert d == log[i].detail ==> Rewritten(log, i, d) == log;
    }
  }

  lemma {:induction false} RecordNewLogs(log: seq<Call>, c: Call)
    requires Unique(log) && Key(c) !in Keys(log)
    ensures Record(Of(log), c).0 == Of(Logged(log, c))
    ensures Unique(Logged(log, c))
    ensures Record(Of(log), c).1 == if HasRoom(log, c) then Counted else Dropped
  {
    hide Identity, Recount, CountedTools, PositionOf, Rank;
    SeenKeys(log);
    KeysCounted(log);
    AppendKeys(log, c);
  }

  /** Recording is logging: the call is appended, refines its logged entry, or is
      refused, and it is refused exactly when it is new and there is no room. */
  lemma {:induction false} RecordLogs(log: seq<Call>, c: Call)
    requires Unique(log)
    ensures Record(Of(log), c).0 == Of(Logged(log, c))
    ensures Unique(Logged(log, c))
    ensures Record(Of(log), c).1.Dropped? <==> Key(c) !in Keys(log) && !HasRoom(log, c)
    ensures Record(Of(log), c).1.Counted? <==> Key(c) !in Keys(log) && HasRoom(log, c)
  {
    hide Of, Logged, Key, Recount, Count, Keys, Unique, HasRoom;
    if Key(c) in Keys(log) {
      RecountLogs(log, c);
    } else {
      RecordNewLogs(log, c);
    }
  }

  // ---------- Replaying a newer history into an older one ----------

  // Split at the first NUL, as the program takes an identity apart again.
  function SplitIdentity(identity: string): (string, string) {
    var i := FirstNul(identity);
    if i == |identity| then ("", identity) else (identity[..i], identity[i + 1..])
  }

  function FirstNul(s: string): (i: nat)
    ensures i <= |s|
  {
    if s == "" || s[0] == '\0' then 0 else 1 + FirstNul(s[1..])
  }

  ghost predicate NulFree(s: string) {
    '\0' !in s
  }

  lemma {:induction false} FirstNulOf(turn: string, id: string)
    requires NulFree(turn)
    ensures FirstNul(Identity(turn, id)) == |turn|
  {
    if turn != "" {
      assert Identity(turn, id)[1..] == Identity(turn[1..], id);
      FirstNulOf(turn[1..], id);
    }
  }

  // An identity can be taken apart into what it was made of, so distinct calls
  // have distinct identities.
  lemma {:induction false} IdentityRoundTrip(turn: string, id: string)
    requires NulFree(turn)
    ensures SplitIdentity(Identity(turn, id)) == (turn, id)
  {
    FirstNulOf(turn, id);
    assert Identity(turn, id)[..|turn|] == turn;
    assert Identity(turn, id)[|turn| + 1..] == id;
  }

  // The arguments a history still remembers of a call.
  function DetailOf(h: History, ref: CallRef): Detail {
    if ref.tool !in h.tools then UNKNOWN else
    var recent := h.tools[ref.tool].recent;
    var i := Find(recent, ref.seqNo);
    if i == |recent| then UNKNOWN else recent[i].detail
  }

  // One call of a history as the merge lists it.
  datatype Listed = Listed(id: string, ref: CallRef)

  function ReplayedCall(newer: History, item: Listed): Call {
    var (turn, id) := SplitIdentity(item.id);
    Call(turn, id, item.ref.tool, DetailOf(newer, item.ref))
  }

  // The receiving history with how many replayed calls it counted and refused.
  datatype Replay = Replay(history: History, counted: nat, dropped: nat)

  function ReplayOne(r: Replay, newer: History, item: Listed): Replay {
    if item.id in r.history.seen then r else
    var (h, outcome) := Record(r.history, ReplayedCall(newer, item));
    Replay(
      h,
      r.counted + if outcome.Counted? || outcome.Refined? then 1 else 0,
      r.dropped + if outcome.Dropped? then 1 else 0)
  }

  function ReplayAll(h: History, newer: History, items: seq<Listed>): Replay {
    if items == [] then Replay(h, 0, 0)
    else ReplayOne(ReplayAll(h, newer, items[..|items| - 1]), newer, items[|items| - 1])
  }

  // The calls of a history in the order of receipt: each once, ascending.
  ghost predicate IsReceiptOrder(seen: map<string, CallRef>, items: seq<Listed>) {
    && |items| == |seen|
    && (forall it :: it in items <==> it.id in seen && seen[it.id] == it.ref)
    && (forall i, j :: 0 <= i < j < |items| ==> items[i] != items[j])
    && (forall i, j :: 0 <= i < j < |items| ==> items[i].ref.seqNo <= items[j].ref.seqNo)
  }

  function Receipt(log: seq<Call>): seq<Listed> {
    if log == [] then [] else
    var last := log[|log| - 1];
    Receipt(log[..|log| - 1]) + [Listed(Key(last), CallRef(last.tool, |log|))]
  }

  lemma {:induction false} NumberFindsCall(log: seq<Call>, key: string)
    requires Unique(log) && key in Of(log).seen
    ensures 1 <= Of(log).seen[key].seqNo <= |log|
    ensures Key(log[Of(log).seen[key].seqNo - 1]) == key
  {
    SeenKeys(log);
    SeenAt(log, PositionOf(log, key));
  }

  // The newest call comes last in the order of receipt.
  lemma {:induction false} NewestIsLast(log: seq<Call>, items: seq<Listed>)
    requires Unique(log) && IsReceiptOrder(Of(log).seen, items) && log != []
    ensures items != []
    ensures items[|items| - 1] == Listed(Key(log[|log| - 1]), CallRef(log[|log| - 1].tool, |log|))
  {
    SeenAt(log, |log| - 1);
    var newest := Listed(Key(log[|log| - 1]), CallRef(log[|log| - 1].tool, |log|));
    assert newest in items;
    var last := items[|items| - 1];
    assert last in items;
    NumberFindsCall(log, last.id);
  }

  lemma {:induction false} AllButLast(items: seq<Listed>)
    requires items != [] && forall i, j :: 0 <= i < j < |items| ==> items[i] != items[j]
    ensures forall it :: it in items[..|items| - 1] <==> it in items && it != items[|items| - 1]
  {
    var older, last := items[..|items| - 1], items[|items| - 1];
    assert items == older + [last];
  }

  lemma {:induction false} OlderOrder(log: seq<Call>, items: seq<Listed>)
    requires Unique(log) && IsReceiptOrder(Of(log).seen, items) && log != [] && items != []
    requires items[|items| - 1] == Listed(Key(log[|log| - 1]), CallRef(log[|log| - 1].tool, |log|))
    ensures IsReceiptOrder(Of(log[..|log| - 1]).seen, items[..|items| - 1])
  {
    var last := items[|items| - 1];
    var seen := Of(log[..|log| - 1]).seen;
    SeenKeys(log[..|log| - 1]);
    assert Of(log).seen == seen[last.id := last.ref];
    assert last.id !in seen;
    AllButLast(items);
  }

  lemma {:induction false} ReceiptOrderIsLog(log: seq<Call>, items: seq<Listed>)
    requires Unique(log) && IsReceiptOrder(Of(log).seen, items)
    ensures items == Receipt(log)
  {
    if log != [] {
      NewestIsLast(log, items);
      OlderOrder(log, items);
      ReceiptOrderIsLog(log[..|log| - 1], items[..|items| - 1]);
    }
  }

  // What is left of a logged call once only the newest five are remembered.
  function Remembered(log: seq<Call>, i: nat): Call
    requires i < |log|
  {
    if Rank(log, i, log[i].tool) < MAX_RECENT_CALLS then log[i] else log[i].(detail := UNKNOWN)
  }

  lemma {:induction false} ReplayedIsRemembered(log: seq<Call>, i: nat)
    requires Unique(log) && i < |log| && NulFree(log[i].turn)
    ensures ReplayedCall(Of(log), Listed(Key(log[i]), CallRef(log[i].tool, i + 1))) == Remembered(log, i)
  {
    IdentityRoundTrip(log[i].turn, log[i].id);
    PlaceOf(log, i);
    GroupAt(log, log[i].tool);
    FindShown(log, i);
  }

  // The log after the first `n` calls of `newer` were replayed onto `base`.
  function Merged(base: seq<Call>, newer: seq<Call>, n: nat): seq<Call>
    requires n <= |newer|
  {
    if n == 0 then base else
    var log := Merged(base, newer, n - 1);
    if Key(newer[n - 1]) in Keys(log) then log else Logged(log, Remembered(newer, n - 1))
  }

  lemma {:induction false} ReplayOneLogs(r: Replay, base: seq<Call>, newer: seq<Call>, i: nat)
    requires r.history == Of(base) && Unique(base) && Unique(newer)
    requires i < |newer| && NulFree(newer[i].turn)
    ensures
      var log := if Key(newer[i]) in Keys(base) then base else Logged(base, Remembered(newer, i));
      && ReplayOne(r, Of(newer), Listed(Key(newer[i]), CallRef(newer[i].tool, i + 1))).history == Of(log)
      && Unique(log)
  {
    ReplayedIsRemembered(newer, i);
    SeenKeys(base);
    RecordLogs(base, Remembered(newer, i));
  }

  /** Replaying a history is replaying its log: a call the base already counted
      is skipped, any other is logged with what the newer side remembers. */
  lemma {:induction false} ReplayLogs(base: seq<Call>, newer: seq<Call>, n: nat)
    requires Unique(base) && Unique(newer) && n <= |newer|
    requires forall i :: 0 <= i < |newer| ==> NulFree(newer[i].turn)
    ensures ReplayAll(Of(base), Of(newer), Receipt(newer[..n])).history == Of(Merged(base, newer, n))
    ensures Unique(Merged(base, newer, n))
  {
    if n > 0 {
      ReplayLogs(base, newer, n - 1);
      assert newer[..n][..n - 1] == newer[..n - 1];
      ReplayOneLogs(ReplayAll(Of(base), Of(newer), Receipt(newer[..n - 1])), Merged(base, newer, n - 1), newer, n - 1);
    }
  }

  // ---------- Merging two claims is one run of both ----------

  function RecordAll(h: History, calls: seq<Call>): History {
    if calls == [] then h else Record(RecordAll(h, calls[..|calls| - 1]), calls[|calls| - 1]).0
  }

  function LoggedAll(log: seq<Call>, calls: seq<Call>): seq<Call> {
    if calls == [] then log else Logged(LoggedAll(log, calls[..|calls| - 1]), calls[|calls| - 1])
  }

  lemma {:induction false} RecordAllLogs(log: seq<Call>, calls: seq<Call>)
    requires Unique(log)
    ensures RecordAll(Of(log), calls) == Of(LoggedAll(log, calls))
    ensures Unique(LoggedAll(log, calls))
  {
    if calls != [] {
      RecordAllLogs(log, calls[..|calls| - 1]);
      RecordLogs(LoggedAll(log, calls[..|calls| - 1]), calls[|calls| - 1]);
    }
  }

  // Neither the identity cap nor the tool cap is exceeded by both logs together.
  predicate Fits(base: seq<Call>, newer: seq<Call>) {
    |base| + |newer| <= MAX_IDENTITIES && |Tools(base) + Tools(newer)| <= MAX_TOOL_TYPES
  }

  lemma {:induction false} JoinPrefix(base: seq<Call>, m: seq<Call>)
    requires m != []
    ensures (base + m)[..|base + m| - 1] == base + m[..|m| - 1]
    ensures (base + m)[|base + m| - 1] == m[|m| - 1]
  {
  }

  lemma {:induction false} JoinAssociates(base: seq<Call>, m: seq<Call>, c: Call)
    ensures base + m + [c] == base + (m + [c])
  {
  }

  lemma {:induction false} JoinRewritten(base: seq<Call>, m: seq<Call>, j: nat, d: Detail)
    requires j < |m|
    ensures Rewritten(base + m, |base| + j, d) == base + Rewritten(m, j, d)
    ensures (base + m)[|base| + j] == m[j]
  {
  }

  lemma {:induction false} JoinKeys(base: seq<Call>, m: seq<Call>)
    ensures Keys(base + m) == Keys(base) + Keys(m)
    ensures Tools(base + m) == Tools(base) + Tools(m)
  {
    if m == [] {
      assert base + m == base;
    } else {
      JoinPrefix(base, m);
      JoinKeys(base, m[..|m| - 1]);
    }
  }

  lemma {:induction false} JoinPosition(base: seq<Call>, m: seq<Call>, key: string)
    requires key in Keys(m)
    ensures key in Keys(base + m)
    ensures PositionOf(base + m, key) == |base| + PositionOf(m, key)
  {
    JoinPrefix(base, m);
    JoinKeys(base, m);
    if Key(m[|m| - 1]) != key {
      JoinPosition(base, m[..|m| - 1], key);
    }
  }

  lemma {:induction false} JoinRank(base: seq<Call>, m: seq<Call>, j: nat, tool: string)
    requires j < |m|
    ensures Rank(base + m, |base| + j, tool) == Rank(m, j, tool)
  {
    if j < |m| - 1 {
      JoinPrefix(base, m);
      JoinRank(base, m[..|m| - 1], j, tool);
    }
  }

  lemma {:induction false} SubsetFits(a: set<string>, b: set<string>)
    requires a <= b
    ensures |a| <= |b|
    ensures |a| == |b| ==> a == b
  {
    assert |b - a| == |b| - |a|;
  }

  // Logging onto a base what the base does not know is logging it apart.
  lemma {:induction false} LoggedApart(base: seq<Call>, m: seq<Call>, c: Call)
    requires Key(c) !in Keys(base) && Fits(base, Logged(m, c))
    ensures Logged(base + m, c) == base + Logged(m, c)
  {
    JoinKeys(base, m);
    if Key(c) in Keys(m) {
      var j := PositionOf(m, Key(c));
      JoinPosition(base, m, Key(c));
      JoinRank(base, m, j, m[j].tool);
      JoinRewritten(base, m, j, Preferred(m[j].detail, c.detail));
    } else if HasRoom(m, c) {
      AppendKeys(m, c);
      SubsetFits(Tools(base) + Tools(m), Tools(base) + Tools(m + [c]));
      JoinAssociates(base, m, c);
    } else {
      SubsetFits(Tools(m), Tools(base) + Tools(m));
      assert |m| >= MAX_IDENTITIES ==> base == [] && base + m == m;
    }
  }

  lemma {:induction false} LoggedGrows(m: seq<Call>, c: Call)
    ensures |m| <= |Logged(m, c)|
    ensures Tools(m) <= Tools(Logged(m, c))
  {
    AppendKeys(m, c);
    if Key(c) in Keys(m) {
      var i := PositionOf(m, Key(c));
      RewriteSeen(m, i, Preferred(m[i].detail, c.detail));
    }
  }

  lemma {:induction false} LoggedAllApart(base: seq<Call>, calls: seq<Call>)
    requires forall i :: 0 <= i < |calls| ==> Key(calls[i]) !in Keys(base)
    requires Fits(base, LoggedAll([], calls))
    ensures LoggedAll(base, calls) == base + LoggedAll([], calls)
  {
    if calls == [] {
      assert base + [] == base;
    } else {
      var before, last := calls[..|calls| - 1], calls[|calls| - 1];
      var m := LoggedAll([], before);
      LoggedGrows(m, last);
      SubsetFits(Tools(base) + Tools(m), Tools(base) + Tools(Logged(m, last)));
      LoggedAllApart(base, before);
      LoggedApart(base, m, last);
    }
  }

  // The first `n` calls of a log with what is remembered of them.
  function RememberedAll(log: seq<Call>, n: nat): (m: seq<Call>)
    requires n <= |log|
    ensures |m| == n
  {
    if n == 0 then [] else RememberedAll(log, n - 1) + [Remembered(log, n - 1)]
  }

  lemma {:induction false} RememberedAt(log: seq<Call>, n: nat, i: nat)
    requires i < n <= |log|
    ensures RememberedAll(log, n)[i] == Remembered(log, i)
  {
    if i < n - 1 {
      RememberedAt(log, n - 1, i);
    }
  }

  lemma {:induction false} LastOfPrefix(log: seq<Call>, n: nat)
    requires 0 < n <= |log|
    ensures log[..n] == log[..n - 1] + [log[n - 1]]
  {
  }

  lemma {:induction false} RememberedKeys(log: seq<Call>, n: nat)
    requires n <= |log|
    ensures Keys(RememberedAll(log, n)) == Keys(log[..n])
    ensures Tools(RememberedAll(log, n)) == Tools(log[..n])
  {
    if n > 0 {
      RememberedKeys(log, n - 1);
      AppendKeys(RememberedAll(log, n - 1), Remembered(log, n - 1));
      AppendKeys(log[..n - 1], log[n - 1]);
      LastOfPrefix(log, n);
    }
  }

  lemma {:induction false} PrefixKeys(log: seq<Call>, n: nat)
    requires n <= |log|
    ensures Keys(log[..n]) <= Keys(log)
    ensures Tools(log[..n]) <= Tools(log)
    ensures Unique(log) ==> Unique(log[..n])
  {
    if n == |log| {
      assert log[..n] == log;
    } else {
      assert log[..|log| - 1][..n] == log[..n];
      PrefixKeys(log[..|log| - 1], n);
    }
  }

  lemma {:induction false} NextIsNew(base: seq<Call>, newer: seq<Call>, n: nat)
    requires n < |newer| && Unique(newer) && Keys(base) !! Keys(newer) && Fits(base, newer)
    ensures
      var log := base + RememberedAll(newer, n);
      Key(newer[n]) !in Keys(log) && HasRoom(log, Remembered(newer, n))
  {
    var m := RememberedAll(newer, n);
    var next := newer[..n + 1];
    JoinKeys(base, m);
    RememberedKeys(newer, n);
    assert next[..n] == newer[..n];
    PrefixKeys(newer, n + 1);
    KeyAt(newer, n);
    SubsetFits(Tools(base) + Tools(next), Tools(base) + Tools(newer));
    SubsetFits(Tools(base) + Tools(newer[..n]), Tools(base) + Tools(next));
  }

  lemma {:induction false} MergedIsConcat(base: seq<Call>, newer: seq<Call>, n: nat)
    requires n <= |newer| && Unique(newer) && Keys(base) !! Keys(newer) && Fits(base, newer)
    ensures Merged(base, newer, n) == base + RememberedAll(newer, n)
  {
    hide Unique, Fits, HasRoom, Rank, Keys;
    if n == 0 {
      assert base + [] == base;
    } else {
      MergedIsConcat(base, newer, n - 1);
      NextIsNew(base, newer, n - 1);
      JoinAssociates(base, RememberedAll(newer, n - 1), Remembered(newer, n - 1));
    }
  }

  // The same calls, up to what is known of their arguments.
  ghost predicate Alike(a: seq<Call>, b: seq<Call>) {
    |a| == |b| && forall i :: 0 <= i < |a| ==> a[i].(detail := UNKNOWN) == b[i].(detail := UNKNOWN)
  }

  lemma {:induction false} AlikeSeen(a: seq<Call>, b: seq<Call>)
    requires Alike(a, b)
    ensures Of(a).nextSeq == Of(b).nextSeq && Of(a).seen == Of(b).seen
    ensures Of(a).tools.Keys == Of(b).tools.Keys
  {
    if a != [] {
      var i := |a| - 1;
      assert a[i].(detail := UNKNOWN) == b[i].(detail := UNKNOWN);
      AlikeSeen(a[..i], b[..i]);
    }
  }

  lemma {:induction false} AlikeCalls(a: seq<Call>, b: seq<Call>, tool: string)
    requires Alike(a, b)
    ensures |CallsOf(a, tool)| == |CallsOf(b, tool)|
    ensures forall n :: 0 <= n < |CallsOf(a, tool)| ==> CallsOf(a, tool)[n].seqNo == CallsOf(b, tool)[n].seqNo
  {
    if a != [] {
      var i := |a| - 1;
      assert a[i].(detail := UNKNOWN) == b[i].(detail := UNKNOWN);
      AlikeCalls(a[..i], b[..i], tool);
    }
  }

  lemma {:induction false} AlikeShown(a: seq<Call>, b: seq<Call>, tool: string)
    requires Alike(a, b)
    requires forall i :: 0 <= i < |a| && Rank(a, i, a[i].tool) < MAX_RECENT_CALLS ==> a[i] == b[i]
    ensures FirstFive(CallsOf(a, tool)) == FirstFive(CallsOf(b, tool))
  {
    AlikeCalls(a, b, tool);
    forall n | 0 <= n < |CallsOf(a, tool)| && n < MAX_RECENT_CALLS
      ensures CallsOf(a, tool)[n] == CallsOf(b, tool)[n]
    {
      CallAt(a, tool, n);
      CallAt(b, tool, n);
    }
  }

  // Arguments that are not shown do not matter.
  lemma {:induction false} AlikeHistory(a: seq<Call>, b: seq<Call>)
    requires Alike(a, b)
    requires forall i :: 0 <= i < |a| && Rank(a, i, a[i].tool) < MAX_RECENT_CALLS ==> a[i] == b[i]
    ensures Of(a) == Of(b)
  {
    AlikeSeen(a, b);
    forall t | t in Of(a).tools ensures Of(a).tools[t] == Of(b).tools[t] {
      GroupAt(a, t);
      GroupAt(b, t);
      AlikeCalls(a, b, t);
      AlikeShown(a, b, t);
    }
    assert Of(a).tools == Of(b).tools;
  }

  lemma {:induction false} ForgettingIsInvisible(base: seq<Call>, newer: seq<Call>)
    ensures Of(base + RememberedAll(newer, |newer|)) == Of(base + newer)
  {
    var a, b := base + newer, base + RememberedAll(newer, |newer|);
    forall i | 0 <= i < |a|
      ensures a[i].(detail := UNKNOWN) == b[i].(detail := UNKNOWN)
      ensures Rank(a, i, a[i].tool) < MAX_RECENT_CALLS ==> a[i] == b[i]
    {
      if i >= |base| {
        var j := i - |base|;
        RememberedAt(newer, |newer|, j);
        JoinRank(base, newer, j, newer[j].tool);
      }
    }
    AlikeHistory(a, b);
  }

  // A log holds nothing but calls that were reported.
  lemma {:induction false} LoggedKeeps(log: seq<Call>, c: Call, known: set<string>)
    requires Keys(log) !! known && Key(c) !in known && NulFree(c.turn)
    requires forall i :: 0 <= i < |log| ==> NulFree(log[i].turn)
    ensures Keys(Logged(log, c)) !! known
    ensures forall i :: 0 <= i < |Logged(log, c)| ==> NulFree(Logged(log, c)[i].turn)
  {
    AppendKeys(log, c);
    if Key(c) in Keys(log) {
      var i := PositionOf(log, Key(c));
      RewriteSeen(log, i, Preferred(log[i].detail, c.detail));
    }
  }

  lemma {:induction false} LoggedAllKeeps(calls: seq<Call>, known: set<string>)
    requires forall i :: 0 <= i < |calls| ==> Key(calls[i]) !in known && NulFree(calls[i].turn)
    ensures Keys(LoggedAll([], calls)) !! known
    ensures forall i :: 0 <= i < |LoggedAll([], calls)| ==> NulFree(LoggedAll([], calls)[i].turn)
  {
    if calls != [] {
      LoggedAllKeeps(calls[..|calls| - 1], known);
      LoggedKeeps(LoggedAll([], calls[..|calls| - 1]), calls[|calls| - 1], known);
    }
  }

  lemma {:induction false} ReplayIsConcat(base: seq<Call>, newer: seq<Call>)
    requires Unique(base) && Unique(newer) && Keys(base) !! Keys(newer) && Fits(base, newer)
    requires forall i :: 0 <= i < |newer| ==> NulFree(newer[i].turn)
    ensures ReplayAll(Of(base), Of(newer), Receipt(newer)).history == Of(base + newer)
  {
    assert newer[..|newer|] == newer;
    ReplayLogs(base, newer, |newer|);
    MergedIsConcat(base, newer, |newer|);
    ForgettingIsInvisible(base, newer);
  }

  // The histories of both claims together stay within the caps.
  predicate WithinCaps(base: History, newer: History) {
    && |base.seen| + |newer.seen| <= MAX_IDENTITIES
    && |base.tools.Keys + newer.tools.Keys| <= MAX_TOOL_TYPES
  }

  lemma {:induction false} WithinCapsFits(base: seq<Call>, newer: seq<Call>)
    requires Unique(base) && Unique(newer)
    ensures WithinCaps(Of(base), Of(newer)) <==> Fits(base, newer)
  {
    SeenKeys(base);
    SeenKeys(newer);
    KeysCounted(base);
    KeysCounted(newer);
  }

  /** Merging is one run: when the calls of the new claim are not among those of
      the base and both stay within the caps, replaying the history of the new
      claim into the base gives, in every field, what recording the calls of the
      new claim one by one into the base gives. */
  lemma {:induction false} MergeIsOneRun(base: seq<Call>, calls: seq<Call>, items: seq<Listed>)
    requires Unique(base)
    requires forall i :: 0 <= i < |calls| ==> Key(calls[i]) !in Keys(base) && NulFree(calls[i].turn)
    requires IsReceiptOrder(RecordAll(EMPTY, calls).seen, items)
    requires WithinCaps(Of(base), RecordAll(EMPTY, calls))
    ensures ReplayAll(Of(base), RecordAll(EMPTY, calls), items).history == RecordAll(Of(base), calls)
  {
    var newer := LoggedAll([], calls);
    RecordAllLogs([], calls);
    RecordAllLogs(base, calls);
    LoggedAllKeeps(calls, Keys(base));
    ReceiptOrderIsLog(newer, items);
    WithinCapsFits(base, newer);
    LoggedAllApart(base, calls);
    ReplayIsConcat(base, newer);
  }

  // ---------- Known arguments ----------

  // An update that carries no arguments, as opposed to an empty set of them.
  predicate SaysNothing(d: Detail) {
    d.arguments == [] && d.truncated
  }

  lemma {:induction false} LoggedKeepsKnown(log: seq<Call>, c: Call, i: nat)
    requires i < |log| && log[i].detail.arguments != [] && (Key(c) == Key(log[i]) ==> SaysNothing(c.detail))
    ensures i < |Logged(log, c)| && Logged(log, c)[i] == log[i]
  {
    hide Identity, Rank, Keys, HasRoom;
  }

  /** Known arguments survive any number of updates that carry none. */
  lemma {:induction false} KnownArgumentsSurvive(log: seq<Call>, calls: seq<Call>, i: nat)
    requires i < |log| && log[i].detail.arguments != []
    requires forall j :: 0 <= j < |calls| && Key(calls[j]) == Key(log[i]) ==> SaysNothing(calls[j].detail)
    ensures i < |LoggedAll(log, calls)| && LoggedAll(log, calls)[i] == log[i]
  {
    hide Key, Logged, SaysNothing;
    if calls != [] {
      KnownArgumentsSurvive(log, calls[..|calls| - 1], i);
      LoggedKeepsKnown(LoggedAll(log, calls[..|calls| - 1]), calls[|calls| - 1], i);
    }
  }

  // ---------- Calls that both claims know ----------

  /** What the base has captured wins: a merge only ever appends to its log. */
  lemma {:induction false} MergeKeepsBase(base: seq<Call>, newer: seq<Call>, n: nat)
    requires n <= |newer|
    ensures base <= Merged(base, newer, n)
  {
    hide Rank, Keys, HasRoom, Identity;
    if n > 0 {
      MergeKeepsBase(base, newer, n - 1);
    }
  }

  // Whether a new call is refused does not depend on the base, as long as both fit.
  lemma {:induction false} RefusedApart(base: seq<Call>, m: seq<Call>, c: Call)
    requires Unique(base + m) && Unique(m) && Key(c) !in Keys(base) && Fits(base, Logged(m, c))
    ensures Record(Of(base + m), c).1.Dropped? <==> Record(Of(m), c).1.Dropped?
  {
    RecordLogs(base + m, c);
    RecordLogs(m, c);
    JoinKeys(base, m);
    if Key(c) !in Keys(m) && HasRoom(m, c) {
      AppendKeys(m, c);
      SubsetFits(Tools(base) + Tools(m), Tools(base) + Tools(m + [c]));
    } else if Key(c) !in Keys(m) {
      SubsetFits(Tools(m), Tools(base) + Tools(m));
    }
  }

  lemma {:induction false} NothingLogged()
    ensures Of([]) == EMPTY
  {
  }

  // The same, for the two histories that record the same calls.
  lemma {:induction false} RefusedAlike(base: seq<Call>, calls: seq<Call>, c: Call)
    requires Unique(base) && Key(c) !in Keys(base)
    requires forall i :: 0 <= i < |calls| ==> Key(calls[i]) !in Keys(base)
    requires WithinCaps(Of(base), RecordAll(EMPTY, calls))
    requires WithinCaps(Of(base), Record(RecordAll(EMPTY, calls), c).0)
    ensures Record(RecordAll(Of(base), calls), c).1.Dropped? <==> Record(RecordAll(EMPTY, calls), c).1.Dropped?
  {
    hide Record, WithinCaps, Logged, Fits, Of, Keys;
    NothingLogged();
    RecordAllLogs([], calls);
    RecordAllLogs(base, calls);
    var m := LoggedAll([], calls);
    RecordLogs(m, c);
    WithinCapsFits(base, m);
    WithinCapsFits(base, Logged(m, c));
    LoggedAllApart(base, calls);
    RefusedApart(base, m, c);
  }

  lemma {:induction false} ReplayOneRefusesNothing(r: Replay, log: seq<Call>, newer: seq<Call>, i: nat)
    requires r.history == Of(log) && Unique(log) && Unique(newer)
    requires i < |newer| && NulFree(newer[i].turn) && HasRoom(log, Remembered(newer, i))
    ensures ReplayOne(r, Of(newer), Listed(Key(newer[i]), CallRef(newer[i].tool, i + 1))).dropped == r.dropped
  {
    ReplayedIsRemembered(newer, i);
    RecordLogs(log, Remembered(newer, i));
  }

  // The history after replaying a prefix, and the room it has for the next call.
  lemma {:induction false} ReplayedPrefix(base: seq<Call>, newer: seq<Call>, n: nat)
    returns (r: Replay, log: seq<Call>)
    requires Unique(base) && Unique(newer) && Keys(base) !! Keys(newer) && Fits(base, newer) && n < |newer|
    requires forall i :: 0 <= i < |newer| ==> NulFree(newer[i].turn)
    ensures r == ReplayAll(Of(base), Of(newer), Receipt(newer[..n]))
    ensures r.history == Of(log) && Unique(log) && HasRoom(log, Remembered(newer, n))
  {
    ReplayLogs(base, newer, n);
    MergedIsConcat(base, newer, n);
    NextIsNew(base, newer, n);
    r, log := ReplayAll(Of(base), Of(newer), Receipt(newer[..n])), Merged(base, newer, n);
  }

  lemma {:induction false} ReplayRefusesNothing(base: seq<Call>, newer: seq<Call>, n: nat)
    requires Unique(base) && Unique(newer) && Keys(base) !! Keys(newer) && Fits(base, newer) && n <= |newer|
    requires forall i :: 0 <= i < |newer| ==> NulFree(newer[i].turn)
    ensures ReplayAll(Of(base), Of(newer), Receipt(newer[..n])).dropped == 0
  {
    hide Of, Fits, Keys, Unique, HasRoom, ReplayOne;
    if n > 0 {
      assert newer[..n][..n - 1] == newer[..n - 1];
      ReplayRefusesNothing(base, newer, n - 1);
      var r, log := ReplayedPrefix(base, newer, n - 1);
      ReplayOneRefusesNothing(r, log, newer, n - 1);
    }
  }

  lemma {:induction false} ReplayRefusesNone(base: seq<Call>, calls: seq<Call>, items: seq<Listed>)
    requires Unique(base)
    requires forall i :: 0 <= i < |calls| ==> Key(calls[i]) !in Keys(base) && NulFree(calls[i].turn)
    requires IsReceiptOrder(RecordAll(EMPTY, calls).seen, items)
    requires WithinCaps(Of(base), RecordAll(EMPTY, calls))
    ensures ReplayAll(Of(base), RecordAll(EMPTY, calls), items).dropped == 0
  {
    hide Of, WithinCaps, Fits, ReplayAll, IsReceiptOrder;
    var newer := LoggedAll([], calls);
    NothingLogged();
    RecordAllLogs([], calls);
    LoggedAllKeeps(calls, Keys(base));
    ReceiptOrderIsLog(newer, items);
    WithinCapsFits(base, newer);
    assert newer[..|newer|] == newer;
    ReplayRefusesNothing(base, newer, |newer|);
  }

  lemma {:induction false} RecordGrows(h: History, c: Call)
    ensures h.seen.Keys <= Record(h, c).0.seen.Keys
    ensures h.tools.Keys <= Record(h, c).0.tools.Keys
  {
  }

  lemma {:induction false} RecountSeen(h: History, c: Call)
    requires Key(c) in h.seen
    ensures Recount(h, c).0.seen == h.seen && !Recount(h, c).1.Dropped?
  {
    hide Key, RefinedTools, Find, Preferred;
  }

  lemma {:induction false} RecordSeen(h: History, c: Call)
    ensures Record(h, c).0.seen.Keys == h.seen.Keys + (if Record(h, c).1.Dropped? then {} else {Key(c)})
  {
    hide Key, Recount, CountedTools;
    if Key(c) in h.seen {
      RecountSeen(h, c);
    }
  }

  ghost predicate Splits(id: string) {
    var (turn, call) := SplitIdentity(id);
    Identity(turn, call) == id
  }

  function Ids(items: seq<Listed>): set<string> {
    if items == [] then {} else Ids(items[..|items| - 1]) + {items[|items| - 1].id}
  }

  lemma {:induction false} ReplayKeys(h: History, newer: History, items: seq<Listed>)
    requires forall i :: 0 <= i < |items| ==> Splits(items[i].id)
    ensures ReplayAll(h, newer, items).history.seen.Keys <= h.seen.Keys + Ids(items)
    ensures ReplayAll(h, newer, items).dropped == 0 ==>
              ReplayAll(h, newer, items).history.seen.Keys == h.seen.Keys + Ids(items)
  {
    hide Record, DetailOf;
    if items != [] {
      var before, last := items[..|items| - 1], items[|items| - 1];
      ReplayKeys(h, newer, before);
      RecordSeen(ReplayAll(h, newer, before).history, ReplayedCall(newer, last));
      assert Splits(last.id);
    }
  }

  lemma {:induction false} ReceiptIds(log: seq<Call>)
    ensures Ids(Receipt(log)) == Keys(log)
    ensures |Receipt(log)| == |log|
    ensures forall i :: 0 <= i < |log| ==> Receipt(log)[i].id == Key(log[i])
  {
    if log != [] {
      ReceiptIds(log[..|log| - 1]);
      assert Receipt(log)[..|log| - 1] == Receipt(log[..|log| - 1]);
    }
  }

  // A replay takes in nothing but the calls listed, and all of them unless it refuses one.
  lemma {:induction false} ReplaySeen(h: History, log: seq<Call>, items: seq<Listed>)
    requires Unique(log) && IsReceiptOrder(Of(log).seen, items)
    requires forall i :: 0 <= i < |log| ==> NulFree(log[i].turn)
    ensures
      var r := ReplayAll(h, Of(log), items);
      && r.history.seen.Keys <= h.seen.Keys + Of(log).seen.Keys
      && (r.dropped == 0 ==> r.history.seen.Keys == h.seen.Keys + Of(log).seen.Keys)
  {
    hide IsReceiptOrder, Record, ReplayAll, Key, Identity, SplitIdentity, Keys;
    ReceiptOrderIsLog(log, items);
    ReceiptIds(log);
    SeenKeys(log);
    forall i | 0 <= i < |items| ensures Splits(items[i].id) {
      KeySplits(log[i]);
    }
    ReplayKeys(h, Of(log), items);
  }

  lemma {:induction false} KeySplits(c: Call)
    requires NulFree(c.turn)
    ensures Splits(Key(c))
  {
    IdentityRoundTrip(c.turn, c.id);
  }

  // ---------- Accounting ----------

  function SumOfCounts(tools: map<string, ToolGroup>, names: seq<string>): nat
    requires forall i :: 0 <= i < |names| ==> names[i] in tools
  {
    if names == [] then 0 else tools[names[0]].callCount + SumOfCounts(tools, names[1..])
  }

  function SumOfCalls(log: seq<Call>, names: seq<string>): nat {
    if names == [] then 0 else |CallsOf(log, names[0])| + SumOfCalls(log, names[1..])
  }

  // One more call adds one to the sum for each time its tool is listed.
  lemma {:induction false} SumGrows(log: seq<Call>, c: Call, names: seq<string>)
    requires forall i, j :: 0 <= i < j < |names| ==> names[i] != names[j]
    ensures SumOfCalls(log + [c], names) == SumOfCalls(log, names) + if c.tool in names then 1 else 0
  {
    if names != [] {
      AppendCalls(log, c);
      SumGrows(log, c, names[1..]);
    }
  }

  lemma {:induction false} SumIsLength(log: seq<Call>, names: seq<string>)
    requires forall i, j :: 0 <= i < j < |names| ==> names[i] != names[j]
    requires forall t :: t in Tools(log) ==> t in names
    ensures SumOfCalls(log, names) == |log|
  {
    if log == [] {
      SumOfNothing(names);
    } else {
      var before, last := log[..|log| - 1], log[|log| - 1];
      SumIsLength(before, names);
      SumGrows(before, last, names);
      assert before + [last] == log;
    }
  }

  lemma {:induction false} SumOfNothing(names: seq<string>)
    ensures SumOfCalls([], names) == 0
  {
    if names != [] {
      SumOfNothing(names[1..]);
    }
  }

  lemma {:induction false} CountsAreCalls(log: seq<Call>, names: seq<string>)
    requires forall i :: 0 <= i < |names| ==> names[i] in Of(log).tools
    ensures SumOfCounts(Of(log).tools, names) == SumOfCalls(log, names)
  {
    if names != [] {
      GroupAt(log, names[0]);
      CountsAreCalls(log, names[1..]);
    }
  }

  /** The books balance: however the tools are enumerated, their counts add up to
      the number of calls ever admitted, which is the last number given out. */
  lemma {:induction false} CountsAddUp(log: seq<Call>, names: seq<string>)
    requires Unique(log)
    requires Lists(names, Of(log).tools.Keys)
    ensures forall i :: 0 <= i < |names| ==> names[i] in Of(log).tools
    ensures SumOfCounts(Of(log).tools, names) == |Of(log).seen| == Of(log).nextSeq
  {
    assert forall i :: 0 <= i < |names| ==> names[i] in names;
    SeenKeys(log);
    KeysCounted(log);
    CountsAreCalls(log, names);
    SumIsLength(log, names);
  }

  // ---------- Bounds ----------

  ghost predicate Capped(h: History) {
    && |h.seen| <= MAX_IDENTITIES && |h.tools| <= MAX_TOOL_TYPES
    && forall t :: t in h.tools ==> |h.tools[t].recent| <= MAX_RECENT_CALLS
  }

  lemma {:induction false} NothingIsCapped()
    ensures Capped(EMPTY)
  {
  }

  lemma {:induction false} RecordCapped(h: History, c: Call)
    requires Capped(h)
    ensures Capped(Record(h, c).0)
  {
    hide Key;
  }

  lemma {:induction false} ReplayCapped(h: History, newer: History, items: seq<Listed>)
    requires Capped(h)
    ensures Capped(ReplayAll(h, newer, items).history)
  {
    hide Capped, Record, ReplayedCall;
    if items != [] {
      var before := items[..|items| - 1];
      ReplayCapped(h, newer, before);
      RecordCapped(ReplayAll(h, newer, before).history, ReplayedCall(newer, items[|items| - 1]));
    }
  }

  /** Calls are numbered 1 to n, each number once. */
  lemma {:induction false} NumbersAreExact(log: seq<Call>, n: nat, key: string, other: string)
    requires Unique(log) && 1 <= n <= |log| && key in Of(log).seen && other in Of(log).seen
    ensures 1 <= Of(log).seen[key].seqNo <= |log|
    ensures Of(log).seen[key].seqNo == Of(log).seen[other].seqNo ==> key == other
    ensures exists k :: k in Of(log).seen && Of(log).seen[k].seqNo == n
  {
    NumberFindsCall(log, key);
    NumberFindsCall(log, other);
    SeenAt(log, n - 1);
  }

  /** The newest five: the recent calls of a tool are numbered in descending
      order, and a counted call of the tool is missing from them only if they are
      five and all newer. */
  lemma {:induction false} RecentAreNewest(log: seq<Call>, tool: string, i: nat)
    requires Unique(log) && tool in Of(log).tools && i < |log| && log[i].tool == tool
    ensures
      var recent := Of(log).tools[tool].recent;
      && 1 <= |recent| <= MAX_RECENT_CALLS
      && (forall m, n :: 0 <= m < n < |recent| ==> recent[m].seqNo > recent[n].seqNo)
      && Of(log).tools[tool].latestSeq == recent[0].seqNo
      && ((exists n :: 0 <= n < |recent| && recent[n] == ObservedCall(i + 1, log[i].id, log[i].detail))
          || (|recent| == MAX_RECENT_CALLS && forall n :: 0 <= n < |recent| ==> recent[n].seqNo > i + 1))
  {
    GroupAt(log, tool);
    var calls := CallsOf(log, tool);
    forall m, n | 0 <= m < n < |calls| ensures calls[m].seqNo > calls[n].seqNo {
      Descending(log, tool, m, n);
    }
    PlaceOf(log, i);
    CallAt(log, tool, Rank(log, i, tool));
  }

  // The same, by the identity of a counted call.
  lemma {:induction false} RecentOf(log: seq<Call>, key: string)
    requires Unique(log) && key in Of(log).seen
    ensures
      var h := Of(log);
      var ref := h.seen[key];
      && ref.tool in h.tools
      && var recent := h.tools[ref.tool].recent;
         && (forall m, n :: 0 <= m < n < |recent| ==> recent[m].seqNo > recent[n].seqNo)
         && 1 <= |recent| <= MAX_RECENT_CALLS && h.tools[ref.tool].latestSeq == recent[0].seqNo
         && (forall n :: 0 <= n < |recent| ==>
               exists k :: k in h.seen && h.seen[k] == CallRef(ref.tool, recent[n].seqNo))
         && ((exists n :: 0 <= n < |recent| && recent[n].seqNo == ref.seqNo)
             || (|recent| == MAX_RECENT_CALLS && forall n :: 0 <= n < |recent| ==> recent[n].seqNo > ref.seqNo))
  {
    hide Of, Rank, Unique, Key;
    SeenKeys(log);
    var i := PositionOf(log, key);
    var tool := log[i].tool;
    SeenAt(log, i);
    KeyAt(log, i);
    RecentAreNewest(log, tool, i);
    GroupAt(log, tool);
    var recent := Of(log).tools[tool].recent;
    forall n | 0 <= n < |recent|
      ensures exists k :: k in Of(log).seen && Of(log).seen[k] == CallRef(tool, recent[n].seqNo)
    {
      CallAt(log, tool, n);
      SeenAt(log, recent[n].seqNo - 1);
    }
  }

  // Every recent call shows the call id of the logged call with its number.
  lemma {:induction false} ShownIs(log: seq<Call>, tool: string)
    ensures
      var tools := Of(log).tools;
      tool in tools ==> forall n :: 0 <= n < |tools[tool].recent| ==>
        && 1 <= tools[tool].recent[n].seqNo <= |log|
        && tools[tool].recent[n].callId == log[tools[tool].recent[n].seqNo - 1].id
  {
    hide Of, Rank;
    GroupAt(log, tool);
    forall n | 0 <= n < |CallsOf(log, tool)|
      ensures
        var c := CallsOf(log, tool)[n];
        1 <= c.seqNo <= |log| && c.callId == log[c.seqNo - 1].id
    {
      CallAt(log, tool, n);
    }
  }
}
