/**
 A runtime and the sink of its task together: every record goes to the sink as it
 is published, and the scheduler finishes that task with the terminal it got from
 a caller or from the publisher.
 */
module TaskLifecycle {
  import opened Options
  import opened ProcessGroups
  import opened Publisher
  import opened LifecycleSink
  import Owner = RuntimeOwner

  datatype System = System(owner: Owner.State, sink: Sink)

  // Where the scheduler has the terminal from.
  datatype Source = FromCaller(id: Owner.Id) | FromPublisher

  datatype Event =
    | Owned(step: Owner.Step)
    | Finishes(source: Source, cleaned: bool, progress: Progress)

  // `gates` says for every record what lifecycle and store decide about it.
  ghost function AcceptAll(s: Sink, records: seq<Record>, gates: nat -> Gate): Sink {
    if |records| == 0 then s
    else
      var last := records[|records| - 1];
      Accept(AcceptAll(s, records[..|records| - 1], gates), last, gates(last.sequence))
  }

  function Handed(o: Owner.State, source: Source): Option<Terminal> {
    match source
    case FromCaller(id) =>
      if id in o.callers && o.callers[id].Done? then Some(o.callers[id].terminal) else None
    case FromPublisher =>
      match o.pub.owner case Decided(t) => Some(t) case _ => None
  }

  ghost function Next(rt: Owner.Runtime, gates: nat -> Gate, s: System, e: Event): System {
    match e
    case Owned(step) =>
      if !Owner.Enabled(rt, s.owner, step) then s else
      var o := Owner.Next(rt, s.owner, step);
      var added := if s.owner.pub.records <= o.pub.records then o.pub.records[|s.owner.pub.records|..] else [];
      System(o, AcceptAll(s.sink, added, gates))
    case Finishes(source, cleaned, progress) =>
      match Handed(s.owner, source)
      case Some(t) => s.(sink := FinishGeneral(s.sink, t, cleaned, progress))
      case None => s
  }

  ghost function Run(rt: Owner.Runtime, gates: nat -> Gate, events: seq<Event>): System {
    if |events| == 0 then System(Owner.Start(rt), FRESH_SINK)
    else Next(rt, gates, Run(rt, gates, events[..|events| - 1]), events[|events| - 1])
  }

  // The steps of the runtime in a run.
  ghost function Steps(events: seq<Event>): seq<Owner.Step> {
    if |events| == 0 then [] else
    var last := events[|events| - 1];
    Steps(events[..|events| - 1]) + if last.Owned? then [last.step] else []
  }

  // The runtime runs as it would without a sink.
  lemma {:induction false} OwnerRuns(rt: Owner.Runtime, gates: nat -> Gate, events: seq<Event>)
    ensures Run(rt, gates, events).owner == Owner.Run(rt, Steps(events))
  {
    hide Owner.Enabled, Owner.Next, AcceptAll, FinishGeneral;
    if |events| > 0 {
      var before, last := events[..|events| - 1], events[|events| - 1];
      OwnerRuns(rt, gates, before);
      if last.Owned? {
        assert Steps(events)[..|Steps(before)|] == Steps(before);
      } else {
        assert Steps(events) == Steps(before);
      }
    }
  }

  // Records alone never mark a task as reaped.
  lemma {:induction false} AcceptReapsNothing(s: Sink, records: seq<Record>, gates: nat -> Gate)
    ensures AcceptAll(s, records, gates).reaped == s.reaped
    ensures AcceptAll(s, records, gates).terminalWritten == s.terminalWritten
  {
    if |records| > 0 {
      AcceptReapsNothing(s, records[..|records| - 1], gates);
    }
  }

  /** From the process table to the reaped task. A task is marked as reaped only
      when it is finished cleanly, with a terminal that claims the process group is
      gone, after its terminal was written; and before that there was a moment of its
      runtime at which the process table held nobody of the group. */
  lemma {:induction false} ReapChain(rt: Owner.Runtime, gates: nat -> Gate, events: seq<Event>)
    returns (n: nat, t: nat)
    requires Run(rt, gates, events).sink.reaped
    ensures n < |events| && events[n].Finishes? && events[n].cleaned && events[n].progress.Finished?
    ensures
      var s := Run(rt, gates, events[..n]);
      && Handed(s.owner, events[n].source).Some? && Proves(Handed(s.owner, events[n].source).value)
      && !s.sink.failed && !s.sink.terminalWritten
      && rt.since <= t <= s.owner.now
    ensures GroupEmpty(rt.env.world(t), rt.id.pgid)
  {
    hide Owner.Enabled, Owner.Next, AcceptAll, GroupEmpty;
    var before, last := events[..|events| - 1], events[|events| - 1];
    var s := Run(rt, gates, before);
    if last.Owned? && Owner.Enabled(rt, s.owner, last.step) {
      var o := Owner.Next(rt, s.owner, last.step);
      AcceptReapsNothing(
        s.sink, if s.owner.pub.records <= o.pub.records then o.pub.records[|s.owner.pub.records|..] else [], gates);
    }
    if s.sink.reaped {
      n, t := ReapChain(rt, gates, before);
      assert before[..n] == events[..n];
    } else {
      n := |events| - 1;
      t := HandedIsProved(rt, gates, before, last.source);
    }
  }

  lemma {:induction false} HandedIsProved(rt: Owner.Runtime, gates: nat -> Gate, events: seq<Event>, source: Source)
    returns (t: nat)
    requires Handed(Run(rt, gates, events).owner, source).Some?
    requires Proves(Handed(Run(rt, gates, events).owner, source).value)
    ensures rt.since <= t <= Run(rt, gates, events).owner.now
    ensures GroupEmpty(rt.env.world(t), rt.id.pgid)
  {
    hide Run, Owner.Run, GroupEmpty;
    OwnerRuns(rt, gates, events);
    match source
    case FromCaller(id) => t := Owner.AnswerIsProved(rt, Steps(events), id);
    case FromPublisher => t := Owner.DecisionIsProved(rt, Steps(events));
  }

  // The pump sees the child exit and looks at the group once; the scheduler finishes.
  function Vanishing(exit: Exit, at: nat, when: nat -> nat, log: seq<Action>): seq<Event> {
    [Owned(Owner.Step(at, Owner.ByPump(Owner.SeesExit(exit, when, log, Ok({}))))),
     Owned(Owner.Step(at, Owner.ByPump(Owner.EmitsExit))), Finishes(FromPublisher, true, Finished)]
  }

  /** The chain can be walked: if the child exits with a failure, the group is empty at
      a look after that, and lifecycle and store let everything pass, its task is
      reaped. */
  lemma {:induction false} VanishedIsReaped(
    rt: Owner.Runtime, gates: nat -> Gate, exit: Exit, at: nat, when: nat -> nat, log: seq<Action>)
    requires exit != Owner.CLEAN_EXIT && log == [SawGroup(rt.id.pgid, {})] && rt.since <= when(0) <= at
    requires SafeTarget(rt.id.pgid) && Members(rt.env.world(when(0)), rt.id.pgid) == {}
    requires forall n :: gates(n) == Gate(true, Insertion.Done, true, true)
    ensures Run(rt, gates, Vanishing(exit, at, when, log)).sink.reaped
  {
    hide Run, Members, Owner.Enabled, Owner.Next, AcceptAll, OneLook, View, Owner.Within;
    var events := Vanishing(exit, at, when, log);
    var start := System(Owner.Start(rt), FRESH_SINK);
    LooksOnce(rt, at, when, log);
    RunStarts(rt, gates);
    RunNext(rt, gates, [], events[0]);
    RunNext(rt, gates, [events[0]], events[1]);
    RunNext(rt, gates, [events[0], events[1]], events[2]);
    assert [] + [events[0]] == [events[0]] && [events[0]] + [events[1]] == [events[0], events[1]];
    assert [events[0], events[1]] + [events[2]] == events;
    PumpSees(rt, gates, exit, at, when, log);
    PumpEmits(gates, Next(rt, gates, start, events[0]).owner, rt, exit, at);
  }

  lemma {:induction false} RunStarts(rt: Owner.Runtime, gates: nat -> Gate)
    ensures Run(rt, gates, []) == System(Owner.Start(rt), FRESH_SINK)
  {
  }

  lemma {:induction false} RunNext(rt: Owner.Runtime, gates: nat -> Gate, events: seq<Event>, e: Event)
    ensures Run(rt, gates, events + [e]) == Next(rt, gates, Run(rt, gates, events), e)
  {
    hide Next;
    assert (events + [e])[..|events|] == events;
  }

  lemma {:induction false} LooksOnce(rt: Owner.Runtime, at: nat, when: nat -> nat, log: seq<Action>)
    requires log == [SawGroup(rt.id.pgid, {})] && rt.since <= when(0) <= at
    requires SafeTarget(rt.id.pgid) && Members(rt.env.world(when(0)), rt.id.pgid) == {}
    ensures Owner.Within(rt.since, at, when, log) && OneLook(View(rt.env, when), 0, rt.id, log, Ok({}))
  {
    assert log[..0] == [];
  }

  lemma {:induction false} PumpSees(
    rt: Owner.Runtime, gates: nat -> Gate, exit: Exit, at: nat, when: nat -> nat, log: seq<Action>)
    requires exit != Owner.CLEAN_EXIT && rt.since <= at
    requires Owner.Within(rt.since, at, when, log) && OneLook(View(rt.env, when), 0, rt.id, log, Ok({}))
    ensures
      var next := Next(rt, gates, System(Owner.Start(rt), FRESH_SINK), Vanishing(exit, at, when, log)[0]);
      && next.sink == FRESH_SINK && next.owner.pub == FRESH && next.owner.now == at
      && next.owner.pump == Owner.Classified(exit, Exited(exit))
  {
    hide OneLook, View, Owner.Within;
  }

  lemma {:induction false} PumpEmits(gates: nat -> Gate, o: Owner.State, rt: Owner.Runtime, exit: Exit, at: nat)
    requires o.pub == FRESH && o.now == at && o.pump == Owner.Classified(exit, Exited(exit))
    requires forall n :: gates(n) == Gate(true, Insertion.Done, true, true)
    ensures
      var next := Next(rt, gates, System(o, FRESH_SINK), Owned(Owner.Step(at, Owner.ByPump(Owner.EmitsExit))));
      && next.owner.pub.owner == Decided(Exited(exit))
      && !next.sink.failed && !next.sink.terminalWritten
  {
    hide AcceptAll;
    var records := EmitDriver(FRESH, ChildExited(exit), Some(Exited(exit))).records;
    AcceptReapsNothing(FRESH_SINK, records, gates);
    AcceptFailsNothing(FRESH_SINK, records, gates);
    assert records[0..] == records;
  }

  lemma {:induction false} AcceptFailsNothing(s: Sink, records: seq<Record>, gates: nat -> Gate)
    requires !s.failed && forall n :: gates(n) == Gate(true, Insertion.Done, true, true)
    ensures !AcceptAll(s, records, gates).failed
  {
    if |records| > 0 {
      AcceptFailsNothing(s, records[..|records| - 1], gates);
    }
  }

  // ---------- The terminal comes last ----------

  lemma {:induction false} AcceptAllKept(s: Sink, records: seq<Record>, k: nat, gates: nat -> Gate)
    requires k <= |records| && Ordered(records) && Kept(s, records[..k])
    ensures Kept(AcceptAll(s, records[k..], gates), records)
  {
    hide Accept, Kept;
    if k == |records| {
      assert records[..k] == records && records[k..] == [];
    } else {
      var before, added := records[..|records| - 1], records[k..];
      assert before[..k] == records[..k] && before[k..] == added[..|added| - 1];
      AcceptAllKept(s, before, k, gates);
      AcceptKept(AcceptAll(s, before[k..], gates), records, gates(records[|records| - 1].sequence));
    }
  }

  lemma {:induction false} SinkKept(rt: Owner.Runtime, gates: nat -> Gate, events: seq<Event>)
    ensures Kept(Run(rt, gates, events).sink, Run(rt, gates, events).owner.pub.records)
  {
    hide Next, Kept, Ordered;
    if |events| == 0 {
      FreshIsKept(rt);
    } else {
      var before, last := events[..|events| - 1], events[|events| - 1];
      SinkKept(rt, gates, before);
      if last.Owned? {
        OwnedKept(rt, gates, before, last.step);
      } else {
        FinishedKept(rt, gates, before, last);
      }
    }
  }

  lemma {:induction false} FreshIsKept(rt: Owner.Runtime)
    ensures Kept(FRESH_SINK, Owner.Start(rt).pub.records)
  {
  }

  // What a step of the runtime adds to the records goes to the sink.
  lemma {:induction false} OwnedNext(rt: Owner.Runtime, gates: nat -> Gate, events: seq<Event>, step: Owner.Step)
    returns (k: nat, records: seq<Record>)
    ensures
      var (s, next) := (Run(rt, gates, events), Next(rt, gates, Run(rt, gates, events), Owned(step)));
      && k == |s.owner.pub.records| <= |records| && records == next.owner.pub.records
      && records[..k] == s.owner.pub.records && Ordered(records)
      && next.sink == AcceptAll(s.sink, records[k..], gates)
  {
    hide Owner.Enabled, Owner.Next, Ordered, AcceptAll;
    var s := Run(rt, gates, events);
    k := |s.owner.pub.records|;
    assert (events + [Owned(step)])[..|events|] == events;
    OwnerRuns(rt, gates, events + [Owned(step)]);
    Owner.RecordsAreOrdered(rt, Steps(events + [Owned(step)]));
    if Owner.Enabled(rt, s.owner, step) {
      Owner.StepAdds(rt, s.owner, step);
      records := Owner.Next(rt, s.owner, step).pub.records;
    } else {
      records := s.owner.pub.records;
      AcceptNothing(s.sink, gates);
      assert records[k..] == [];
    }
    assert records[..k] == s.owner.pub.records;
  }

  lemma {:induction false} AcceptNothing(s: Sink, gates: nat -> Gate)
    ensures AcceptAll(s, [], gates) == s
  {
  }

  lemma {:induction false} OwnedKept(rt: Owner.Runtime, gates: nat -> Gate, events: seq<Event>, step: Owner.Step)
    requires Kept(Run(rt, gates, events).sink, Run(rt, gates, events).owner.pub.records)
    ensures
      var next := Next(rt, gates, Run(rt, gates, events), Owned(step));
      Kept(next.sink, next.owner.pub.records)
  {
    hide Run, Next, AcceptAll, Kept, Ordered;
    var k, records := OwnedNext(rt, gates, events, step);
    AcceptAllKept(Run(rt, gates, events).sink, records, k, gates);
  }

  lemma {:induction false} HandedComesLast(rt: Owner.Runtime, gates: nat -> Gate, events: seq<Event>, source: Source)
    requires Handed(Run(rt, gates, events).owner, source).Some?
    ensures
      var records := Run(rt, gates, events).owner.pub.records;
      records != [] && records[|records| - 1].event.Ended?
  {
    hide Run, Owner.Run;
    OwnerRuns(rt, gates, events);
    Owner.HandedIsPublished(rt, Steps(events));
  }

  lemma {:induction false} FinishedKept(rt: Owner.Runtime, gates: nat -> Gate, events: seq<Event>, e: Event)
    requires e.Finishes? && Kept(Run(rt, gates, events).sink, Run(rt, gates, events).owner.pub.records)
    ensures
      var next := Next(rt, gates, Run(rt, gates, events), e);
      Kept(next.sink, next.owner.pub.records)
  {
    hide Run, Kept, FinishGeneral;
    var s := Run(rt, gates, events);
    var t := Handed(s.owner, e.source);
    if t.Some? {
      HandedComesLast(rt, gates, events, e.source);
      FinishKept(s.sink, s.owner.pub.records, t.value, e.cleaned, e.progress);
    }
  }

  /** However the runtime ran, whatever lifecycle and store decided, and however often
      a finish failed half-way before: the store holds one record per number in
      ascending order, and the terminals after all other records. A finish writes the
      terminal under a number above every other record, not below that of an earlier
      finish, and either that of the newest record admitted, which is a terminal, or a
      new one. */
  lemma {:induction false} TerminalComesLast(
    rt: Owner.Runtime, gates: nat -> Gate, events: seq<Event>, t: Terminal, cleaned: bool, progress: Progress)
    ensures
      var (s, records) := (Run(rt, gates, events).sink, Run(rt, gates, events).owner.pub.records);
      var (f, n) := (FinishGeneral(s, t, cleaned, progress), TerminalSequence(s));
      && (f.writes == s.writes || f.writes == s.writes + [Write(n, true)])
      && (f.terminalWritten && !s.terminalWritten ==> f.writes != [] && f.writes[|f.writes| - 1] == Write(n, true))
      && (forall i :: 0 <= i < |s.writes| ==> s.writes[i].sequence < n || s.writes[i] == Write(n, true))
      && (forall i, j :: 0 <= i < j < |s.writes| ==>
            s.writes[i].sequence < s.writes[j].sequence && (s.writes[i].terminal ==> s.writes[j].terminal))
      && (n == s.lastSequence + 1 || (n == s.lastSequence && 1 <= n <= |records| && records[n - 1].event.Ended?))
  {
    hide Run;
    SinkKept(rt, gates, events);
    WritesAreBelow(Run(rt, gates, events).sink, Run(rt, gates, events).owner.pub.records);
  }

  lemma {:induction false} WritesAreBelow(s: Sink, records: seq<Record>)
    requires Kept(s, records)
    ensures
      var n := TerminalSequence(s);
      && (forall i :: 0 <= i < |s.writes| ==> s.writes[i].sequence < n || s.writes[i] == Write(n, true))
      && (Holds(s.writes, n) ==> s.writes[|s.writes| - 1] == Write(n, true))
  {
    var n := TerminalSequence(s);
    forall i | 0 <= i < |s.writes| ensures s.writes[i].sequence < n || s.writes[i] == Write(n, true) {
      assert Placed(s, records, s.writes[i]);
    }
    if |s.writes| > 0 && s.writes[|s.writes| - 1] != Write(n, true) {
      forall i | 0 <= i < |s.writes| ensures s.writes[i].sequence != n {
        BelowLast(s.writes, i);
      }
    }
  }

  lemma {:induction false} BelowLast(writes: seq<Write>, i: nat)
    requires i < |writes| && forall i, j :: 0 <= i < j < |writes| ==> writes[i].sequence < writes[j].sequence
    ensures writes[i].sequence <= writes[|writes| - 1].sequence
  {
  }

  /** What a finish that gets to the end does: it writes the terminal, marks it as
      written, so that a further finish changes nothing, and reaps the task exactly if
      its cleanup succeeded and the terminal is an exit, a stop or a finished turn. */
  lemma {:induction false} FinishReapsIff(s: Sink, t: Terminal, cleaned: bool, again: Terminal, more: Progress)
    requires !s.failed && !s.terminalWritten && !s.reaped
    ensures
      var f := FinishGeneral(s, t, cleaned, Finished);
      && f.terminalWritten && FinishGeneral(f, again, true, more) == f
      && (f.reaped <==> cleaned && (t.Exited? || t.Stopped? || t.Completed? || t.FailedTurn?))
  {
  }

  // ---------- A second finish ----------

  // What records numbered above `k` do to the numbers of a sink.
  lemma {:induction false} AcceptLater(s: Sink, records: seq<Record>, gates: nat -> Gate, k: nat)
    requires s.lastSequence <= k && forall i :: 0 <= i < |records| ==> records[i].sequence == k + 1 + i
    ensures
      var next := AcceptAll(s, records, gates);
      || (next.lastSequence == s.lastSequence && next.pendingTerminal == s.pendingTerminal)
      || k < next.lastSequence <= k + |records|
  {
    hide Accept;
    if |records| > 0 {
      var before, last := records[..|records| - 1], records[|records| - 1];
      AcceptLater(s, before, gates, k);
      AcceptShape(AcceptAll(s, before, gates), last, gates(last.sequence));
    }
  }

  // Since the state `s` with `k` records nothing was admitted, or only later records were.
  ghost predicate Since(s: Sink, k: nat, t: Sink) {
    || (t.lastSequence == s.lastSequence && t.pendingTerminal == s.pendingTerminal)
    || t.lastSequence > k
  }

  lemma {:induction false} SinceStays(
    rt: Owner.Runtime, gates: nat -> Gate, events: seq<Event>, more: seq<Event>)
    ensures
      var (s, t) := (Run(rt, gates, events), Run(rt, gates, events + more));
      s.owner.pub.records <= t.owner.pub.records && Since(s.sink, |s.owner.pub.records|, t.sink)
  {
    hide Run, AcceptAll, Kept, Ordered;
    if |more| == 0 {
      assert events + more == events;
    } else {
      var before, last := more[..|more| - 1], more[|more| - 1];
      SinceStays(rt, gates, events, before);
      assert events + more == events + before + [last];
      RunNext(rt, gates, events + before, last);
      if last.Owned? {
        SinceOwned(rt, gates, events, events + before, last.step);
      }
    }
  }

  lemma {:induction false} SinceOwned(
    rt: Owner.Runtime, gates: nat -> Gate, events: seq<Event>, later: seq<Event>, step: Owner.Step)
    requires
      var (s, t) := (Run(rt, gates, events), Run(rt, gates, later));
      s.owner.pub.records <= t.owner.pub.records && Since(s.sink, |s.owner.pub.records|, t.sink)
    ensures
      var (s, t) := (Run(rt, gates, events), Next(rt, gates, Run(rt, gates, later), Owned(step)));
      s.owner.pub.records <= t.owner.pub.records && Since(s.sink, |s.owner.pub.records|, t.sink)
  {
    hide Run, Next, AcceptAll;
    var k, records := OwnedNext(rt, gates, later, step);
    SinkKept(rt, gates, later);
    AcceptLater(Run(rt, gates, later).sink, records[k..], gates, k);
  }

  /** A finish that is repeated, whatever happened in between, asks for the same number
      exactly when no record was admitted since, so that the store still holds it once.
      Otherwise it asks for the higher number of a terminal record. */
  lemma {:induction false} FinishedAgain(
    rt: Owner.Runtime, gates: nat -> Gate, events: seq<Event>, more: seq<Event>, source: Source)
    requires Handed(Run(rt, gates, events).owner, source).Some?
    ensures
      var (s, t) := (Run(rt, gates, events).sink, Run(rt, gates, events + more).sink);
      var (n, m) := (TerminalSequence(s), TerminalSequence(t));
      && (n == m <==> t.lastSequence == s.lastSequence)
      && (n != m ==>
            && n < m == t.lastSequence <= |Run(rt, gates, events + more).owner.pub.records|
            && Run(rt, gates, events + more).owner.pub.records[m - 1].event.Ended?)
  {
    hide Run;
    var s, t := Run(rt, gates, events), Run(rt, gates, events + more);
    var records := t.owner.pub.records;
    SinkKept(rt, gates, events);
    SinkKept(rt, gates, events + more);
    HandedComesLast(rt, gates, events, source);
    SinceStays(rt, gates, events, more);
    OwnerRuns(rt, gates, events + more);
    Owner.RecordsAreOrdered(rt, Steps(events + more));
    assert records[|s.owner.pub.records| - 1].event.Ended?;
  }
}
