/**
 Merging two claims that report some of the same calls. The merge skips what the
 base has counted, while one run of both claims would have refined it. Here is
 exactly when the two agree.
 */
module ToolOverlap {
  import opened ToolHistory

  // Neither cap is exceeded by all that is known and reported.
  predicate Roomy(base: seq<Call>, calls: seq<Call>) {
    && |Keys(base) + Keys(calls)| <= MAX_IDENTITIES
    && |Tools(base) + Tools(calls)| <= MAX_TOOL_TYPES
  }

  // What is known of the arguments of a call after a sequence of reports.
  function Accrued(known: Detail, calls: seq<Call>, key: string): Detail {
    if calls == [] then known else
    var before, last := Accrued(known, calls[..|calls| - 1], key), calls[|calls| - 1];
    if Key(last) == key then Preferred(before, last.detail) else before
  }

  // The calls without their arguments.
  function Bare(c: Call): Call {
    c.(detail := UNKNOWN)
  }

  function Plain(log: seq<Call>): seq<Call> {
    seq(|log|, i requires 0 <= i < |log| => Bare(log[i]))
  }

  // The calls that are not known.
  function Fresh(known: set<string>, log: seq<Call>): seq<Call> {
    if log == [] then [] else
    var before, last := Fresh(known, log[..|log| - 1]), log[|log| - 1];
    if Key(last) in known then before else before + [last]
  }

  // ---------- Ranks and keys do not depend on arguments ----------

  lemma {:induction false} PlainIsAlike(a: seq<Call>, b: seq<Call>)
    ensures Plain(a) == Plain(b) <==> Alike(a, b)
  {
    if Plain(a) == Plain(b) {
      forall i | 0 <= i < |a| ensures Bare(a[i]) == Bare(b[i]) {
        assert Plain(a)[i] == Plain(b)[i];
      }
    }
  }

  lemma {:induction false} AlikeRank(a: seq<Call>, b: seq<Call>, i: nat, tool: string)
    requires Alike(a, b) && i < |a|
    ensures Rank(a, i, tool) == Rank(b, i, tool) && a[i].tool == b[i].tool && Key(a[i]) == Key(b[i])
  {
    var n := |a| - 1;
    assert Bare(a[n]) == Bare(b[n]) && Bare(a[i]) == Bare(b[i]);
    if i < n {
      AlikeRank(a[..n], b[..n], i, tool);
    }
  }

  lemma {:induction false} AlikeKeys(a: seq<Call>, b: seq<Call>)
    requires Alike(a, b)
    ensures Keys(a) == Keys(b) && Tools(a) == Tools(b)
  {
    if a != [] {
      var n := |a| - 1;
      assert Bare(a[n]) == Bare(b[n]);
      AlikeKeys(a[..n], b[..n]);
    }
  }

  lemma {:induction false} RankGrows(log: seq<Call>, c: Call, i: nat, tool: string)
    requires i < |log|
    ensures Rank(log, i, tool) <= Rank(log + [c], i, tool)
  {
    assert (log + [c])[..|log|] == log;
  }

  lemma {:induction false} PositionIs(log: seq<Call>, i: nat)
    requires Unique(log) && i < |log|
    ensures Key(log[i]) in Keys(log) && PositionOf(log, Key(log[i])) == i
  {
    KeyAt(log, i);
    if i < |log| - 1 {
      KeyAt(log[..|log| - 1], i);
      PositionIs(log[..|log| - 1], i);
    }
  }

  // ---------- Nothing is refused ----------

  lemma {:induction false} RoomFor(log: seq<Call>, c: Call, keys: set<string>, tools: set<string>)
    requires Unique(log) && Key(c) !in Keys(log)
    requires Keys(log) + {Key(c)} <= keys && Tools(log) + {c.tool} <= tools
    requires |keys| <= MAX_IDENTITIES && |tools| <= MAX_TOOL_TYPES
    ensures HasRoom(log, c)
  {
    hide Key, Keys, Tools, Unique;
    KeysCounted(log);
    SubsetFits(Keys(log) + {Key(c)}, keys);
    SubsetFits(Tools(log) + {c.tool}, tools);
  }

  lemma {:induction false} RoomyBefore(base: seq<Call>, calls: seq<Call>)
    requires Roomy(base, calls)
    ensures Roomy([], calls)
    ensures calls != [] ==> Roomy(base, calls[..|calls| - 1])
  {
    SubsetFits({} + Keys(calls), Keys(base) + Keys(calls));
    SubsetFits({} + Tools(calls), Tools(base) + Tools(calls));
    if calls != [] {
      var before := calls[..|calls| - 1];
      SubsetFits(Keys(base) + Keys(before), Keys(base) + Keys(calls));
      SubsetFits(Tools(base) + Tools(before), Tools(base) + Tools(calls));
    }
  }

  // What one report does to a log that has room for it.
  lemma {:induction false} ReportLogs(log: seq<Call>, c: Call)
    requires Unique(log) && (Key(c) !in Keys(log) ==> HasRoom(log, c))
    ensures
      var next := Logged(log, c);
      && Unique(next) && Keys(next) == Keys(log) + {Key(c)} && Tools(next) <= Tools(log) + {c.tool}
      && Plain(next) == (if Key(c) in Keys(log) then Plain(log) else Plain(log) + [Bare(c)])
  {
    hide Unique, Keys, HasRoom, Rank, Key;
    if Key(c) in Keys(log) {
      var i := PositionOf(log, Key(c));
      RewriteKeys(log, i, Preferred(log[i].detail, c.detail));
      assert Plain(Rewritten(log, i, Preferred(log[i].detail, c.detail))) == Plain(log);
    } else {
      AppendKeys(log, c);
      assert Plain(log + [c]) == Plain(log) + [Bare(c)];
    }
  }

  lemma {:induction false} ReportsLogged(base: seq<Call>, calls: seq<Call>)
    requires Unique(base) && Roomy(base, calls)
    ensures
      var log := LoggedAll(base, calls);
      Unique(log) && Keys(log) == Keys(base) + Keys(calls) && Tools(log) <= Tools(base) + Tools(calls)
  {
    hide Unique, Key, Logged, HasRoom;
    if calls != [] {
      var before, last := calls[..|calls| - 1], calls[|calls| - 1];
      RoomyBefore(base, calls);
      ReportsLogged(base, before);
      NextHasRoom(base, calls);
      ReportLogs(LoggedAll(base, before), last);
    }
  }

  lemma {:induction false} NextHasRoom(base: seq<Call>, calls: seq<Call>)
    requires calls != [] && Roomy(base, calls)
    requires
      var log := LoggedAll(base, calls[..|calls| - 1]);
      && Unique(log) && Keys(log) == Keys(base) + Keys(calls[..|calls| - 1])
      && Tools(log) <= Tools(base) + Tools(calls[..|calls| - 1])
    ensures
      var log, last := LoggedAll(base, calls[..|calls| - 1]), calls[|calls| - 1];
      Key(last) !in Keys(log) ==> HasRoom(log, last)
  {
    var log, last := LoggedAll(base, calls[..|calls| - 1]), calls[|calls| - 1];
    if Key(last) !in Keys(log) {
      RoomFor(log, last, Keys(base) + Keys(calls), Tools(base) + Tools(calls));
    }
  }

  // ---------- Both logs hold the same calls in the same order ----------

  lemma {:induction false} FreshAppend(known: set<string>, log: seq<Call>, c: Call)
    ensures Fresh(known, log + [c]) == if Key(c) in known then Fresh(known, log) else Fresh(known, log) + [c]
  {
    assert (log + [c])[..|log|] == log;
  }

  // One run of both: the base, then what the new claim knows and the base does not.
  lemma {:induction false} RunShape(base: seq<Call>, calls: seq<Call>)
    requires Unique(base) && Roomy(base, calls)
    ensures Plain(LoggedAll(base, calls)) == Plain(base) + Fresh(Keys(base), Plain(LoggedAll([], calls)))
  {
    hide Unique, Key, Logged, HasRoom, Plain, Bare, Roomy;
    EmptyIsPlain();
    if calls == [] {
      assert Plain(base) + [] == Plain(base);
    } else {
      var before, last := calls[..|calls| - 1], calls[|calls| - 1];
      RoomyBefore(base, calls);
      RoomyBefore([], calls);
      ReportsLogged(base, before);
      ReportsLogged([], before);
      NextHasRoom(base, calls);
      NextHasRoom([], calls);
      ReportLogs(LoggedAll(base, before), last);
      ReportLogs(LoggedAll([], before), last);
      RunShape(base, before);
      BareKey(last);
      FreshAppend(Keys(base), Plain(LoggedAll([], before)), Bare(last));
      JoinAssociates(Plain(base), Fresh(Keys(base), Plain(LoggedAll([], before))), Bare(last));
    }
  }

  lemma {:induction false} EmptyIsPlain()
    ensures Plain([]) == [] && Unique([])
  {
  }

  lemma {:induction false} BareKey(c: Call)
    ensures Key(Bare(c)) == Key(c)
  {
  }

  lemma {:induction false} FreshKeys(known: set<string>, log: seq<Call>)
    ensures Keys(Fresh(known, log)) == Keys(log) - known
    ensures Tools(Fresh(known, log)) <= Tools(log)
  {
    hide Key;
    if log != [] {
      var before, last := Fresh(known, log[..|log| - 1]), log[|log| - 1];
      FreshKeys(known, log[..|log| - 1]);
      AppendKeys(before, last);
    }
  }

  lemma {:induction false} FreshIsPlain(known: set<string>, log: seq<Call>)
    ensures Plain(Fresh(known, log)) == Fresh(known, Plain(log))
  {
    if log != [] {
      var before, last := log[..|log| - 1], log[|log| - 1];
      FreshIsPlain(known, before);
      BareKey(last);
      assert Plain(log)[..|log| - 1] == Plain(before);
      assert Plain(Fresh(known, before) + [last]) == Plain(Fresh(known, before)) + [Bare(last)];
    }
  }

  // Where a fresh call stands in its own log.
  lemma {:induction false} FreshAt(known: set<string>, log: seq<Call>, i: nat) returns (j: nat)
    requires i < |Fresh(known, log)|
    ensures j < |log| && Fresh(known, log)[i] == log[j]
  {
    var before := log[..|log| - 1];
    if i < |Fresh(known, before)| {
      j := FreshAt(known, before, i);
    } else {
      j := |log| - 1;
    }
  }

  // The merge: the base, then what the new claim remembers and the base does not know.
  lemma {:induction false} MergeShape(base: seq<Call>, newer: seq<Call>, n: nat)
    requires Unique(base) && Unique(newer) && Roomy(base, newer) && n <= |newer|
    ensures Merged(base, newer, n) == base + Fresh(Keys(base), RememberedAll(newer, n))
    ensures Unique(Merged(base, newer, n))
  {
    hide Unique, Key, HasRoom, Roomy, Remembered, Fresh, Keys, Tools;
    if n == 0 {
      assert Fresh(Keys(base), []) == [] by { FreshOfNothing(Keys(base)); }
      assert base + [] == base;
    } else {
      var m, next := RememberedAll(newer, n - 1), Remembered(newer, n - 1);
      MergeShape(base, newer, n - 1);
      MergeNext(base, newer, n);
      FreshAppend(Keys(base), m, next);
      JoinAssociates(base, Fresh(Keys(base), m), next);
    }
  }

  lemma {:induction false} FreshOfNothing(known: set<string>)
    ensures Fresh(known, []) == []
  {
  }

  lemma {:induction false} MergeNext(base: seq<Call>, newer: seq<Call>, n: nat)
    requires Unique(newer) && Roomy(base, newer) && 0 < n <= |newer|
    requires Merged(base, newer, n - 1) == base + Fresh(Keys(base), RememberedAll(newer, n - 1))
    requires Unique(Merged(base, newer, n - 1))
    ensures
      var log, next := Merged(base, newer, n - 1), Remembered(newer, n - 1);
      && Key(next) == Key(newer[n - 1]) && (Key(next) in Keys(log) <==> Key(next) in Keys(base))
      && (Key(next) !in Keys(base) ==> Logged(log, next) == log + [next] && Unique(log + [next]))
  {
    hide Fresh, Rank, Merged;
    var log, m, next := Merged(base, newer, n - 1), RememberedAll(newer, n - 1), Remembered(newer, n - 1);
    FreshKeys(Keys(base), m);
    JoinKeys(base, Fresh(Keys(base), m));
    RememberedKeys(newer, n - 1);
    PrefixKeys(newer, n);
    PrefixKeys(newer, n - 1);
    LastOfPrefix(newer, n);
    AppendKeys(newer[..n - 1], newer[n - 1]);
    AppendKeys(log, next);
    if Key(next) !in Keys(base) {
      RoomFor(log, next, Keys(base) + Keys(newer), Tools(base) + Tools(newer));
    }
  }

  // ---------- What is known of the calls shown ----------

  lemma {:induction false} NotReported(known: Detail, calls: seq<Call>, key: string)
    requires key !in Keys(calls)
    ensures Accrued(known, calls, key) == known
  {
    if calls != [] {
      NotReported(known, calls[..|calls| - 1], key);
    }
  }

  // The detail an entry started with: what the base knew, or nothing.
  function Start(base: seq<Call>, i: nat): Detail {
    if i < |base| then base[i].detail else UNKNOWN
  }

  // A call that is still shown was shown all along, so every report refined it.
  ghost predicate HoldsReports(base: seq<Call>, calls: seq<Call>, log: seq<Call>, i: nat)
    requires i < |log|
  {
    Rank(log, i, log[i].tool) < MAX_RECENT_CALLS ==>
      log[i].detail == Accrued(Start(base, i), calls, Key(log[i]))
  }

  lemma {:induction false} AppendHolds(base: seq<Call>, calls: seq<Call>, log: seq<Call>, i: nat)
    requires calls != [] && Keys(calls[..|calls| - 1]) <= Keys(log) && |base| <= |log| && i <= |log|
    requires Key(calls[|calls| - 1]) !in Keys(log)
    requires i < |log| ==> HoldsReports(base, calls[..|calls| - 1], log, i)
    ensures HoldsReports(base, calls, log + [calls[|calls| - 1]], i)
  {
    hide Key;
    var before, last := calls[..|calls| - 1], calls[|calls| - 1];
    if i < |log| {
      RankGrows(log, last, i, log[i].tool);
      KeyAt(log, i);
    } else {
      NotReported(UNKNOWN, before, Key(last));
    }
  }

  lemma {:induction false} RewriteHolds(base: seq<Call>, calls: seq<Call>, log: seq<Call>, i: nat)
    requires calls != [] && Unique(log) && i < |log|
    requires Key(calls[|calls| - 1]) in Keys(log)
    requires HoldsReports(base, calls[..|calls| - 1], log, i)
    ensures |Logged(log, calls[|calls| - 1])| == |log|
    ensures HoldsReports(base, calls, Logged(log, calls[|calls| - 1]), i)
  {
    hide Key, Keys, Unique;
    var last := calls[|calls| - 1];
    var p := PositionOf(log, Key(last));
    var next := Logged(log, last);
    PositionIs(log, i);
    assert Alike(next, log);
    AlikeRank(next, log, i, log[i].tool);
  }

  lemma {:induction false} ShownHoldsReports(base: seq<Call>, calls: seq<Call>, i: nat)
    requires Unique(base) && Roomy(base, calls) && i < |LoggedAll(base, calls)|
    ensures |base| <= |LoggedAll(base, calls)|
    ensures HoldsReports(base, calls, LoggedAll(base, calls), i)
  {
    hide Unique, Key, Roomy, HoldsReports, Keys, Tools, Rank, HasRoom;
    if calls == [] {
      BaseHolds(base, i);
    } else {
      var before, last := calls[..|calls| - 1], calls[|calls| - 1];
      var log := LoggedAll(base, before);
      RoomyBefore(base, calls);
      ReportsLogged(base, before);
      NextHasRoom(base, calls);
      LoggedLength(log, last);
      if i < |log| {
        ShownHoldsReports(base, before, i);
      } else {
        BaseIsKept(base, before);
      }
      if Key(last) in Keys(log) {
        RewriteHolds(base, calls, log, i);
      } else {
        AppendHolds(base, calls, log, i);
      }
    }
  }

  lemma {:induction false} BaseHolds(base: seq<Call>, i: nat)
    requires i < |base|
    ensures HoldsReports(base, [], base, i)
  {
  }

  lemma {:induction false} LoggedLength(log: seq<Call>, c: Call)
    requires Key(c) !in Keys(log) ==> HasRoom(log, c)
    ensures |Logged(log, c)| == |log| + if Key(c) in Keys(log) then 0 else 1
  {
  }

  lemma {:induction false} BaseIsKept(base: seq<Call>, calls: seq<Call>)
    ensures |base| <= |LoggedAll(base, calls)|
  {
    if calls != [] {
      BaseIsKept(base, calls[..|calls| - 1]);
      LoggedGrows(LoggedAll(base, calls[..|calls| - 1]), calls[|calls| - 1]);
    }
  }

  // ---------- When the merge and the run agree ----------

  // Two logs of the same calls have the same history exactly when they know the
  // same of the calls shown.
  lemma {:induction false} AlikeAgreesIff(a: seq<Call>, b: seq<Call>)
    requires Alike(a, b)
    ensures Of(a) == Of(b) <==>
            forall i :: 0 <= i < |a| && Rank(a, i, a[i].tool) < MAX_RECENT_CALLS ==> a[i].detail == b[i].detail
  {
    hide Of, Rank;
    if Of(a) == Of(b) {
      forall i | 0 <= i < |a| && Rank(a, i, a[i].tool) < MAX_RECENT_CALLS ensures a[i].detail == b[i].detail {
        ShownDetail(a, i);
        AlikeRank(a, b, i, a[i].tool);
        ShownDetail(b, i);
      }
    } else if forall i :: 0 <= i < |a| && Rank(a, i, a[i].tool) < MAX_RECENT_CALLS ==> a[i].detail == b[i].detail {
      forall i | 0 <= i < |a| && Rank(a, i, a[i].tool) < MAX_RECENT_CALLS ensures a[i] == b[i] {
        assert Bare(a[i]) == Bare(b[i]);
      }
      AlikeHistory(a, b);
    }
  }

  lemma {:induction false} ShownDetail(log: seq<Call>, i: nat)
    requires i < |log| && Rank(log, i, log[i].tool) < MAX_RECENT_CALLS
    ensures
      var tools, n := Of(log).tools, Rank(log, i, log[i].tool);
      && log[i].tool in tools && n < |tools[log[i].tool].recent|
      && tools[log[i].tool].recent[n].detail == log[i].detail
  {
    PlaceOf(log, i);
    GroupAt(log, log[i].tool);
    FindShown(log, i);
  }

  // The log of the new claim alone, and the log of the base after the merge.
  function Claim(calls: seq<Call>): seq<Call> {
    LoggedAll([], calls)
  }

  function MergedLog(base: seq<Call>, calls: seq<Call>): seq<Call> {
    Merged(base, Claim(calls), |Claim(calls)|)
  }

  predicate Shown(log: seq<Call>, i: nat)
    requires i < |log|
  {
    Rank(log, i, log[i].tool) < MAX_RECENT_CALLS
  }

  // The merge keeps what was reported of a call: of a call the base knew, no report
  // improved on the base; of any other, the new claim still showed it, or no report
  // said anything.
  predicate KeepsReports(base: seq<Call>, calls: seq<Call>, c: Call) {
    if Key(c) in Keys(base) then Accrued(c.detail, calls, Key(c)) == c.detail
    else
      || (Key(c) in Keys(Claim(calls)) && Shown(Claim(calls), PositionOf(Claim(calls), Key(c))))
      || Accrued(UNKNOWN, calls, Key(c)) == UNKNOWN
  }

  lemma {:induction false} ClaimFits(base: seq<Call>, calls: seq<Call>)
    requires Unique(base) && Roomy(base, calls)
    ensures Unique(Claim(calls)) && Keys(Claim(calls)) == Keys(calls) && Roomy(base, Claim(calls)) && Roomy([], calls)
  {
    hide Key, Unique;
    EmptyIsPlain();
    RoomyBefore(base, calls);
    ReportsLogged([], calls);
    SubsetFits(Tools(base) + Tools(Claim(calls)), Tools(base) + Tools(calls));
  }

  lemma {:induction false} MergedIsAlike(base: seq<Call>, calls: seq<Call>)
    requires Unique(base) && Roomy(base, calls)
    ensures Alike(MergedLog(base, calls), LoggedAll(base, calls))
    ensures MergedLog(base, calls) == base + Fresh(Keys(base), RememberedAll(Claim(calls), |Claim(calls)|))
    ensures Unique(MergedLog(base, calls))
  {
    hide Unique, Key, Roomy, Fresh, Merged, Rank;
    var newer := Claim(calls);
    var m := RememberedAll(newer, |newer|);
    ClaimFits(base, calls);
    RunShape(base, calls);
    MergeShape(base, newer, |newer|);
    forall i | 0 <= i < |newer| ensures Bare(m[i]) == Bare(newer[i]) {
      RememberedAt(newer, |newer|, i);
    }
    assert Plain(m) == Plain(newer);
    FreshIsPlain(Keys(base), m);
    assert Plain(base + Fresh(Keys(base), m)) == Plain(base) + Plain(Fresh(Keys(base), m));
    PlainIsAlike(MergedLog(base, calls), LoggedAll(base, calls));
  }

  // What the merge knows of a call.
  lemma {:induction false} MergedDetail(base: seq<Call>, calls: seq<Call>, i: nat)
    requires Unique(base) && Roomy(base, calls) && i < |MergedLog(base, calls)|
    ensures
      var c := MergedLog(base, calls)[i];
      && (i < |base| ==> c == base[i] && Key(c) in Keys(base))
      && (i >= |base| ==>
            && Key(c) !in Keys(base) && Key(c) in Keys(Claim(calls))
            && c == Remembered(Claim(calls), PositionOf(Claim(calls), Key(c))))
  {
    hide Unique, Roomy, Fresh, Merged, Rank, Claim;
    var newer := Claim(calls);
    var m := RememberedAll(newer, |newer|);
    MergedIsAlike(base, calls);
    ClaimFits(base, calls);
    if i < |base| {
      KeyAt(base, i);
    } else {
      var k := i - |base|;
      FreshKeys(Keys(base), m);
      KeyAt(Fresh(Keys(base), m), k);
      var j := FreshAt(Keys(base), m, k);
      RememberedAt(newer, |newer|, j);
      PositionIs(newer, j);
    }
  }

  // One shown call: the merge and the run know the same of it exactly when the merge
  // keeps what was reported.
  lemma {:induction false} OneCallAgreesIff(base: seq<Call>, calls: seq<Call>, i: nat)
    requires Unique(base) && Roomy(base, calls) && i < |MergedLog(base, calls)| && Shown(MergedLog(base, calls), i)
    ensures i < |LoggedAll(base, calls)|
    ensures MergedLog(base, calls)[i].detail == LoggedAll(base, calls)[i].detail <==>
            KeepsReports(base, calls, MergedLog(base, calls)[i])
  {
    hide Unique, Roomy, Rank, LoggedAll, MergedLog, Accrued, Key, Keys;
    var merged, run, newer := MergedLog(base, calls), LoggedAll(base, calls), Claim(calls);
    MergedIsAlike(base, calls);
    AlikeRank(merged, run, i, merged[i].tool);
    ShownHoldsReports(base, calls, i);
    MergedDetail(base, calls, i);
    if i >= |base| {
      ClaimFits(base, calls);
      EmptyIsPlain();
      ShownHoldsReports([], calls, PositionOf(newer, Key(merged[i])));
    }
  }

  /** Calls that both claims report. The merge and one run of both claims agree, in
      every field of the history, if and only if the merge keeps what was reported of
      every call it shows. A merge forgets a report in two ways: the base knew the
      call, so a better report is skipped; or the new claim had pushed the call out of
      its own newest five with calls the base knew, although the merge shows it. */
  lemma {:induction false} OverlapAgreesIff(base: seq<Call>, calls: seq<Call>, items: seq<Listed>)
    requires Unique(base) && Roomy(base, calls)
    requires forall i :: 0 <= i < |calls| ==> NulFree(calls[i].turn)
    requires IsReceiptOrder(RecordAll(EMPTY, calls).seen, items)
    ensures
      ReplayAll(Of(base), RecordAll(EMPTY, calls), items).history == RecordAll(Of(base), calls) <==>
      forall i :: 0 <= i < |MergedLog(base, calls)| && Shown(MergedLog(base, calls), i) ==>
        KeepsReports(base, calls, MergedLog(base, calls)[i])
  {
    hide Of, RecordAll, ReplayAll, IsReceiptOrder, Rank, KeepsReports, Roomy, Unique, LoggedAll, Merged;
    var newer, merged, run := Claim(calls), MergedLog(base, calls), LoggedAll(base, calls);
    ClaimFits(base, calls);
    NothingLogged();
    RecordAllLogs([], calls);
    RecordAllLogs(base, calls);
    LoggedAllKeeps(calls, {});
    ReceiptOrderIsLog(newer, items);
    assert newer[..|newer|] == newer;
    ReplayLogs(base, newer, |newer|);
    MergedIsAlike(base, calls);
    AlikeAgreesIff(merged, run);
    forall i | 0 <= i < |merged| && Shown(merged, i)
      ensures merged[i].detail == run[i].detail <==> KeepsReports(base, calls, merged[i])
    {
      OneCallAgreesIff(base, calls, i);
    }
  }

  /** A better report of a call the base knew is lost: the base knew nothing of its
      arguments, the new claim reports that there were none. */
  lemma {:induction false} OverlapLosesReport()
    ensures
      var (known, better) := (Call("t", "a", "Read", UNKNOWN), Call("t", "a", "Read", Detail([], false, 0)));
      ReplayAll(Of([known]), RecordAll(EMPTY, [better]), Receipt([better])).history != RecordAll(Of([known]), [better])
  {
    hide Identity;
    var known, better := Call("t", "a", "Read", UNKNOWN), Call("t", "a", "Read", Detail([], false, 0));
    assert [better][..0] == [] && [known][..0] == [];
    assert Of([known]) == Count(EMPTY, known);
    assert Receipt([better]) == [Listed(Key(better), CallRef("Read", 1))];
  }
}
