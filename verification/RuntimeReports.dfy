/**
 What a runtime is reported as. `RuntimeOwner` shows that no report claims more than
 happened; here is that what happened is reported: by the records published, the
 turn marks heard and the stops performed, and by nothing else.
 */
module RuntimeReports {
  import opened Options
  import opened ProcessGroups
  import opened Publisher
  import opened RuntimeOwner
  import StopGate

  lemma {:induction false} RunNext(rt: Runtime, steps: seq<Step>, step: Step)
    ensures
      Run(rt, steps + [step]) ==
      if Enabled(rt, Run(rt, steps), step) then Next(rt, Run(rt, steps), step) else Run(rt, steps)
  {
    assert (steps + [step])[..|steps|] == steps;
  }

  // ---------- What has been published ----------

  predicate IsExitRecord(r: Record) {
    r.event.Driver? && r.event.inbound.ChildExited?
  }

  // The exit of the child is among the records.
  predicate SaysExit(records: seq<Record>) {
    exists i :: 0 <= i < |records| && IsExitRecord(records[i])
  }

  lemma {:induction false} SaysNext(records: seq<Record>, r: Record)
    ensures SaysExit(records + [r]) <==> SaysExit(records) || IsExitRecord(r)
  {
    hide IsExitRecord;
    if SaysExit(records) {
      var i :| 0 <= i < |records| && IsExitRecord(records[i]);
      assert (records + [r])[i] == records[i];
    }
    assert (records + [r])[|records|] == r;
  }

  ghost predicate Noticed(p: PublisherState) {
    p.exitDelivered <==> SaysExit(p.records)
  }

  lemma {:induction false} PublisherNotices(
    p: PublisherState, inbound: Inbound, exitTerminal: Option<Terminal>, t: Terminal)
    requires Noticed(p)
    ensures Noticed(EmitDriver(p, inbound, exitTerminal)) && Noticed(PublishTerminal(p, t).0)
    ensures Noticed(PublishCleanup(p, t)) && Noticed(BeginStopping(p).0)
  {
    hide SaysExit;
    SaysNext(p.records, Record(p.nextSequence, Driver(inbound)));
    SaysNext(p.records, Record(p.nextSequence, Ended(t)));
    if exitTerminal.Some? {
      SaysNext(
        p.records + [Record(p.nextSequence, Driver(inbound))],
        Record(p.nextSequence + 1, Ended(exitTerminal.value)));
    }
  }

  lemma {:induction false} PumpNotices(rt: Runtime, s: State, at: nat, act: PumpAct)
    requires PumpEnabled(rt, s, at, act) && Noticed(s.pub)
    ensures Noticed(PumpActs(rt, s, at, act).pub)
  {
    hide Within, View, OneLook, EmitDriver, PublishTerminal, Classify, Heard, Noticed;
    match act
    case Forwards(inbound) => PublisherNotices(s.pub, inbound, None, RuntimeLost(EventStreamLost));
    case EmitsExit =>
      PublisherNotices(s.pub, ChildExited(s.pump.exit), Some(s.pump.terminal), RuntimeLost(EventStreamLost));
    case LosesStream => PublisherNotices(s.pub, OversizedLine(0), None, RuntimeLost(EventStreamLost));
    case _ =>
  }

  lemma {:induction false} CallerNotices(s: State, id: Id, act: CallerAct)
    requires CallerEnabled(s, id, act) && Noticed(s.pub)
    ensures Noticed(CallerActs(s, id, act).pub)
  {
    hide PublishTerminal, PublishCleanup, AfterBoundary, BeginStopping, Noticed;
    var t := if act.Publishes? || act.PublishesCleanup? then s.callers[id].terminal else RuntimeLost(StopFailed);
    PublisherNotices(s.pub, OversizedLine(0), None, t);
  }

  lemma {:induction false} RunNotices(rt: Runtime, steps: seq<Step>)
    ensures Noticed(Run(rt, steps).pub)
  {
    hide Noticed, PumpActs, CallerActs, StopActs, PumpEnabled, CallerEnabled, StopEnabled;
    if |steps| == 0 {
      NothingNoticed();
    } else {
      var s, step := Run(rt, steps[..|steps| - 1]), steps[|steps| - 1];
      RunNotices(rt, steps[..|steps| - 1]);
      if Enabled(rt, s, step) {
        match step.act {
          case ByPump(act) => PumpNotices(rt, s, step.at, act);
          case ByStop(id, act) => StopAdds(rt, s, step.at, id, act);
          case ByCaller(id, act) => CallerNotices(s, id, act);
        }
      }
    }
  }

  lemma {:induction false} NothingNoticed()
    ensures Noticed(FRESH)
  {
  }

  // ---------- The call a caller is in ----------

  predicate Starts(act: Act, id: Id) {
    act.ByCaller? && act.id == id && (act.calling.Begins? || act.calling.BeginsCleanup?)
  }

  // The call a caller is in began at `began`, and that is what it began as.
  ghost predicate CameWith(rt: Runtime, steps: seq<Step>, id: Id, purpose: Purpose, began: nat) {
    && Taken(rt, steps, began)
    && steps[began].act == ByCaller(id, if purpose.Finish? then Begins(purpose.boundary) else BeginsCleanup)
    && forall j :: began < j < |steps| && Taken(rt, steps, j) ==> !Starts(steps[j].act, id)
  }

  // What a caller is about, as long as it is in a call.
  function PurposeOf(c: Caller): Option<Purpose> {
    match c
    case Begun(purpose) => Some(purpose)
    case InGate(purpose) => Some(purpose)
    case Persisting => Some(Cleanup)
    case Awaiting(_, boundary) => Some(Finish(boundary))
    case Cleaned(_) => Some(Cleanup)
    case _ => None
  }

  // A caller gets its purpose by beginning, and keeps it.
  ghost predicate KeepsPurpose(s: State, act: Act, next: State, id: Id) {
    id in next.callers && PurposeOf(next.callers[id]).Some? ==>
      var purpose := PurposeOf(next.callers[id]).value;
      if Starts(act, id) then act == ByCaller(id, if purpose.Finish? then Begins(purpose.boundary) else BeginsCleanup)
      else id in s.callers && PurposeOf(s.callers[id]) == Some(purpose)
  }

  lemma {:induction false} PumpKeepsCallers(rt: Runtime, s: State, at: nat, act: PumpAct)
    requires PumpEnabled(rt, s, at, act)
    ensures PumpActs(rt, s, at, act).callers == s.callers
  {
    hide Within, View, OneLook, EmitDriver, PublishTerminal, Classify, Heard;
  }

  lemma {:induction false} StopKeepsPurpose(rt: Runtime, s: State, at: nat, mover: Id, act: StopAct, id: Id)
    requires StopEnabled(rt, s, at, mover, act)
    ensures KeepsPurpose(s, ByStop(mover, act), StopActs(rt, s, at, mover, act), id)
  {
    hide Obeyed, Within, View, StopGate.Next, StopGate.Enabled;
  }

  lemma {:induction false} CallerKeepsPurpose(s: State, mover: Id, act: CallerAct, id: Id)
    requires CallerEnabled(s, mover, act)
    ensures KeepsPurpose(s, ByCaller(mover, act), CallerActs(s, mover, act), id)
  {
    hide PublishTerminal, PublishCleanup, AfterBoundary;
  }

  lemma {:induction false} PurposeStays(rt: Runtime, s: State, step: Step, id: Id)
    requires Enabled(rt, s, step)
    ensures KeepsPurpose(s, step.act, Next(rt, s, step), id)
  {
    hide PumpActs, CallerActs, StopActs, PumpEnabled, CallerEnabled, StopEnabled;
    match step.act
    case ByPump(act) => PumpKeepsCallers(rt, s, step.at, act);
    case ByStop(mover, act) => StopKeepsPurpose(rt, s, step.at, mover, act, id);
    case ByCaller(mover, act) => CallerKeepsPurpose(s, mover, act, id);
  }

  lemma {:induction false} NobodyAtStart(rt: Runtime)
    ensures Run(rt, []).callers == map[]
  {
  }

  lemma {:induction false} BeganAs(rt: Runtime, steps: seq<Step>, id: Id) returns (began: nat)
    requires id in Run(rt, steps).callers && PurposeOf(Run(rt, steps).callers[id]).Some?
    ensures CameWith(rt, steps, id, PurposeOf(Run(rt, steps).callers[id]).value, began)
  {
    hide Enabled, Next, Start, PurposeOf, Starts;
    NobodyAtStart(rt);
    assert |steps| > 0;
    var before, step := steps[..|steps| - 1], steps[|steps| - 1];
    if Enabled(rt, Run(rt, before), step) {
      PurposeStays(rt, Run(rt, before), step, id);
    }
    if Enabled(rt, Run(rt, before), step) && Starts(step.act, id) {
      began := |steps| - 1;
    } else {
      began := BeganAs(rt, before, id);
      assert forall j :: 0 <= j <= |before| ==> before[..j] == steps[..j];
    }
  }

  // ---------- A stop is reported ----------

  /** A stop that succeeded is reported as what the caller came for. Take a caller whose
      stop came to an outcome and that asks whether the exit arrived, while no terminal
      has been decided. If the exit of the child is among the records published by then,
      its terminal is the completed turn, the failed turn or the stop it came for, with
      that outcome; otherwise the event stream was lost. */
  lemma {:induction false} SuccessIsReported(rt: Runtime, steps: seq<Step>, id: Id, at: nat)
    returns (began: nat, ended: nat)
    requires id in Run(rt, steps).callers && Run(rt, steps).callers[id].Awaiting?
    requires Run(rt, steps).now <= at && !Run(rt, steps).pub.owner.Decided?
    ensures
      var (s, next) := (Run(rt, steps), Run(rt, steps + [Step(at, ByCaller(id, Awaits))]));
      var (outcome, boundary) := (s.callers[id].outcome, s.callers[id].boundary);
      && CameWith(rt, steps, id, Finish(boundary), began)
      && Taken(rt, steps, ended) && IsStop(steps[ended].act, outcome)
      && id in next.callers && next.callers[id].Ready?
      && (SaysExit(s.pub.records) ==>
            && (boundary == Some(TurnCompleted) ==> next.callers[id].terminal == Completed(outcome))
            && (boundary == Some(TurnFailed) ==> next.callers[id].terminal == FailedTurn(outcome))
            && (boundary == None ==> next.callers[id].terminal == Terminal.Stopped(outcome)))
      && (!SaysExit(s.pub.records) ==> next.callers[id].terminal == RuntimeLost(EventStreamLost))
  {
    hide Run, Sound, Published, SaysExit, Taken;
    var s := Run(rt, steps);
    RunInv(rt, steps);
    RunNotices(rt, steps);
    RunNext(rt, steps, Step(at, ByCaller(id, Awaits)));
    assert CallerSupported(s, s.callers[id]);
    began := BeganAs(rt, steps, id);
    ended := StoppedByPerformer(rt, steps);
  }

  // Nobody but the caller itself moves it on.
  lemma {:induction false} OthersLeaveAlone(rt: Runtime, steps: seq<Step>, step: Step, id: Id)
    requires id in Run(rt, steps).callers
    requires !(step.act.ByStop? && step.act.id == id) && !(step.act.ByCaller? && step.act.id == id)
    ensures id in Run(rt, steps + [step]).callers && Run(rt, steps + [step]).callers[id] == Run(rt, steps).callers[id]
  {
    hide Run, PumpActs, CallerActs, StopActs, PumpEnabled, CallerEnabled, StopEnabled;
    RunNext(rt, steps, step);
    var s := Run(rt, steps);
    if Enabled(rt, s, step) {
      match step.act
      case ByPump(act) => PumpKeepsCallers(rt, s, step.at, act);
      case ByStop(mover, act) => StopMovesOne(rt, s, step.at, mover, act, id);
      case ByCaller(mover, act) => CallerMovesOne(s, mover, act, id);
    }
  }

  lemma {:induction false} StopMovesOne(rt: Runtime, s: State, at: nat, mover: Id, act: StopAct, id: Id)
    requires StopEnabled(rt, s, at, mover, act) && id != mover && id in s.callers
    ensures
      var next := StopActs(rt, s, at, mover, act);
      id in next.callers && next.callers[id] == s.callers[id]
  {
    hide Obeyed, Within, View, StopGate.Next, StopGate.Enabled;
  }

  lemma {:induction false} CallerMovesOne(s: State, mover: Id, act: CallerAct, id: Id)
    requires CallerEnabled(s, mover, act) && id != mover && id in s.callers
    ensures
      var next := CallerActs(s, mover, act);
      id in next.callers && next.callers[id] == s.callers[id]
  {
    hide PublishTerminal, PublishCleanup, AfterBoundary, BeginStopping;
  }

  /** What a caller is ready to report is published, as the next record and for everybody,
      unless another terminal was decided; then it comes back with that one. A cleanup
      is published in any case. */
  lemma {:induction false} ReadyIsPublished(rt: Runtime, steps: seq<Step>, id: Id, at: nat)
    requires id in Run(rt, steps).callers && Run(rt, steps).now <= at
    requires Run(rt, steps).callers[id].Ready? || Run(rt, steps).callers[id].Cleaned?
    ensures
      var (s, c) := (Run(rt, steps), Run(rt, steps).callers[id]);
      var next := Run(rt, steps + [Step(at, ByCaller(id, if c.Ready? then Publishes else PublishesCleanup))]);
      && id in next.callers
      && (c.Ready? && s.pub.owner.Decided? ==> next.callers[id] == Done(s.pub.owner.terminal) && next.pub == s.pub)
      && (c.Cleaned? || !s.pub.owner.Decided? ==>
            && next.callers[id] == Done(c.terminal) && next.pub.owner == Decided(c.terminal)
            && next.pub.records == s.pub.records + [Record(|s.pub.records| + 1, Ended(c.terminal))])
  {
    hide Run, Sound, Supported, RecordsSupported, Ordered, Terminals;
    RunInv(rt, steps);
    var c := Run(rt, steps).callers[id];
    RunNext(rt, steps, Step(at, ByCaller(id, if c.Ready? then Publishes else PublishesCleanup)));
  }

  /** What the answer of the gate makes of a caller: a failed stop is a lost runtime for a
      caller that finishes and sends a cleanup on to the recorded group; a successful one
      is what it will report. */
  lemma {:induction false} AnswerDecides(rt: Runtime, steps: seq<Step>, id: Id, at: nat)
    requires InsideGate(Run(rt, steps), id) && Run(rt, steps).gate.threads[id].Back? && Run(rt, steps).now <= at
    ensures
      var (s, next) := (Run(rt, steps), Run(rt, steps + [Step(at, ByStop(id, Returns))]));
      var (purpose, result) := (s.callers[id].purpose, s.gate.threads[id].result);
      && id in next.callers
      && (purpose.Finish? && result.Ok? ==> next.callers[id] == Awaiting(result.value, purpose.boundary))
      && (purpose.Finish? && result.Err? ==> next.callers[id] == Ready(RuntimeLost(StopFailed)))
      && (purpose.Cleanup? && result.Ok? ==> next.callers[id] == Cleaned(Terminal.Stopped(result.value)))
      && (purpose.Cleanup? && result.Err? ==> next.callers[id] == Persisting)
  {
    hide Run, StopGate.Next, StopGate.Enabled;
    RunNext(rt, steps, Step(at, ByStop(id, Returns)));
  }

  /** And what the stop of the recorded group makes of a cleanup. */
  lemma {:induction false} PersistedIsReported(
    rt: Runtime, steps: seq<Step>, id: Id, at: nat, when: nat -> nat, log: seq<Action>, reap: Result<()>)
    requires Enabled(rt, Run(rt, steps), Step(at, ByStop(id, Persists(when, log, reap))))
    ensures
      var next := Run(rt, steps + [Step(at, ByStop(id, Persists(when, log, reap)))]);
      && id in next.callers
      && (reap.Ok? ==> next.callers[id] == Cleaned(Terminal.Stopped(AlreadyExited(UnknownExit))))
      && (reap.Err? ==> next.callers[id] == Cleaned(RuntimeLost(StopFailed)))
  {
    hide Run, Obeyed, Within, View;
    RunNext(rt, steps, Step(at, ByStop(id, Persists(when, log, reap))));
  }

  // ---------- An exit is reported ----------

  // The turn marks the pump has forwarded.
  ghost function Marked(rt: Runtime, steps: seq<Step>): seq<TurnMark> {
    if |steps| == 0 then [] else
    var before, step := steps[..|steps| - 1], steps[|steps| - 1];
    Marked(rt, before)
    + if Enabled(rt, Run(rt, before), step) && MarkOf(step.act).Some? then [MarkOf(step.act).value] else []
  }

  function MarkOf(act: Act): Option<TurnMark> {
    match act
    case ByPump(Forwards(Marks(mark))) => Some(mark)
    case _ => None
  }

  // The latest turn that began is over, and the mark that ended it said so.
  ghost predicate CompletedAt(marks: seq<TurnMark>, i: nat) {
    && i + 1 < |marks| && marks[i].TurnBegan? && marks[i + 1] == TurnEnded(TurnCompleted)
    && forall j :: i < j < |marks| ==> marks[j].TurnEnded?
  }

  ghost predicate CompletedIn(marks: seq<TurnMark>) {
    exists i: nat :: CompletedAt(marks, i)
  }

  // The turn is what the marks say: open if the last one began it, and otherwise ended by
  // the mark that followed the last beginning.
  ghost predicate Follows(turn: Turn, marks: seq<TurnMark>) {
    && (turn.active <==> |marks| > 0 && marks[|marks| - 1].TurnBegan?)
    && (Completes(turn) <==> CompletedIn(marks))
  }

  lemma {:induction false} MarkFollows(turn: Turn, marks: seq<TurnMark>, mark: TurnMark)
    requires Follows(turn, marks)
    ensures Follows(Heard(turn, Marks(mark)), marks + [mark])
  {
    var next := marks + [mark];
    if mark.TurnEnded? && CompletedIn(marks) {
      var i: nat :| CompletedAt(marks, i);
      assert CompletedAt(next, i);
    }
    if mark == TurnEnded(TurnCompleted) && turn.active {
      assert CompletedAt(next, |marks| - 1);
    }
    if CompletedIn(next) {
      var i: nat :| CompletedAt(next, i);
      assert next[|next| - 1] == mark && next[i] == (if i < |marks| then marks[i] else mark);
      if i + 1 < |marks| {
        assert forall j :: i < j < |marks| ==> next[j] == marks[j];
        assert CompletedAt(marks, i);
      }
    }
  }

  lemma {:induction false} TurnFollows(rt: Runtime, steps: seq<Step>)
    ensures Follows(Run(rt, steps).turn, Marked(rt, steps))
  {
    hide Follows, Heard, PumpEnabled, CallerEnabled, StopEnabled, CallerActs, StopActs;
    if |steps| == 0 {
      NothingMarked();
    } else {
      var before, step := steps[..|steps| - 1], steps[|steps| - 1];
      TurnFollows(rt, before);
      var s := Run(rt, before);
      if Enabled(rt, s, step) {
        TurnMoves(rt, s, step);
        if MarkOf(step.act).Some? {
          MarkFollows(s.turn, Marked(rt, before), MarkOf(step.act).value);
        } else {
          assert Marked(rt, steps) == Marked(rt, before);
        }
      } else {
        assert Marked(rt, steps) == Marked(rt, before);
      }
    }
  }

  lemma {:induction false} NothingMarked()
    ensures Follows(Turn(false, None), [])
  {
  }

  lemma {:induction false} TurnMoves(rt: Runtime, s: State, step: Step)
    requires Enabled(rt, s, step)
    ensures Next(rt, s, step).turn ==
            if MarkOf(step.act).Some? then Heard(s.turn, Marks(MarkOf(step.act).value)) else s.turn
  {
    hide Obeyed, Within, View, OneLook, StopGate.Next, StopGate.Enabled, EmitDriver, PublishTerminal, PublishCleanup,
         AfterBoundary, BeginStopping, Classify;
  }

  /** What the pump makes of the exit of the child: a clean exit, with the group empty at
      the look and the latest turn completed by the marks heard, is the completed turn; a
      clean exit in any other turn is a lost stream; any other exit with an empty group
      is reported as it was; and without an empty look the group is orphaned. */
  lemma {:induction false} ExitIsReported(
    rt: Runtime, steps: seq<Step>, at: nat, exit: Exit, when: nat -> nat, log: seq<Action>,
    seen: Result<set<Identity>>)
    requires Enabled(rt, Run(rt, steps), Step(at, ByPump(SeesExit(exit, when, log, seen))))
    ensures
      var (s, next) := (Run(rt, steps), Run(rt, steps + [Step(at, ByPump(SeesExit(exit, when, log, seen)))]));
      && next.pump.Classified? && next.pump.exit == exit && next.pub == s.pub
      && (seen == Ok({}) && exit == CLEAN_EXIT && CompletedIn(Marked(rt, steps)) ==>
            next.pump.terminal == Completed(AlreadyExited(exit)))
      && (seen == Ok({}) && exit == CLEAN_EXIT && !CompletedIn(Marked(rt, steps)) ==>
            next.pump.terminal == RuntimeLost(EventStreamLost))
      && (seen == Ok({}) && exit != CLEAN_EXIT ==> next.pump.terminal == Exited(exit))
      && (seen != Ok({}) ==> next.pump.terminal == Orphaned(UnknownMembership))
  {
    hide Run, Within, View, OneLook, CompletedIn;
    TurnFollows(rt, steps);
    RunNext(rt, steps, Step(at, ByPump(SeesExit(exit, when, log, seen))));
  }

  /** And it is published: the exit as a record, unless a terminal was decided, and with
      it what the pump made of it, unless a caller is about to stop the runtime. */
  lemma {:induction false} ExitIsPublished(rt: Runtime, steps: seq<Step>, at: nat)
    requires Run(rt, steps).pump.Classified? && Run(rt, steps).now <= at
    ensures
      var (s, next) := (Run(rt, steps), Run(rt, steps + [Step(at, ByPump(EmitsExit))]));
      var (n, terminal) := (|s.pub.records|, s.pump.terminal);
      var told := s.pub.records + [Record(n + 1, Driver(ChildExited(s.pump.exit)))];
      && next.pump.PumpDone?
      && (s.pub.owner.Decided? ==> next.pub == s.pub)
      && (s.pub.owner.Stopping? ==> next.pub.records == told && next.pub.owner.Stopping?)
      && (s.pub.owner.Running? ==>
            next.pub.records == told + [Record(n + 2, Ended(terminal))] && next.pub.owner == Decided(terminal))
  {
    hide Run, Sound, Supported, RecordsSupported, Ordered, Terminals;
    RunInv(rt, steps);
    RunNext(rt, steps, Step(at, ByPump(EmitsExit)));
  }

  /** A stream that is lost is published as lost, unless a terminal was decided, and
      ends the pump; a pump that quits publishes nothing. */
  lemma {:induction false} LossIsPublished(rt: Runtime, steps: seq<Step>, at: nat)
    requires Run(rt, steps).pump.Watching? && Run(rt, steps).now <= at
    ensures
      var (s, t) := (Run(rt, steps), RuntimeLost(EventStreamLost));
      var lost := Run(rt, steps + [Step(at, ByPump(LosesStream))]);
      var quit := Run(rt, steps + [Step(at, ByPump(Quits))]);
      && lost.pump.PumpDone? && quit.pump.PumpDone? && quit.pub == s.pub
      && (s.pub.owner.Decided? ==> lost.pub == s.pub)
      && (!s.pub.owner.Decided? ==>
            && lost.pub.owner == Decided(t)
            && lost.pub.records == s.pub.records + [Record(|s.pub.records| + 1, Ended(t))])
  {
    hide Run, Sound, Supported, RecordsSupported, Ordered, Terminals;
    RunInv(rt, steps);
    RunNext(rt, steps, Step(at, ByPump(LosesStream)));
    RunNext(rt, steps, Step(at, ByPump(Quits)));
  }

  // The exit is published by nobody but the pump, after it saw it.
  ghost predicate Foreseen(s: State) {
    && (SaysExit(s.pub.records) ==> s.ending.Some?)
    && (s.pump.Classified? ==> s.ending.Some?)
  }

  lemma {:induction false} PublisherForesees(
    p: PublisherState, inbound: Inbound, exitTerminal: Option<Terminal>, t: Terminal)
    ensures SaysExit(EmitDriver(p, inbound, exitTerminal).records) ==> SaysExit(p.records) || inbound.ChildExited?
    ensures SaysExit(PublishTerminal(p, t).0.records) ==> SaysExit(p.records)
    ensures SaysExit(PublishCleanup(p, t).records) ==> SaysExit(p.records)
    ensures BeginStopping(p).0.records == p.records
  {
    hide SaysExit;
    SaysNext(p.records, Record(p.nextSequence, Driver(inbound)));
    SaysNext(p.records, Record(p.nextSequence, Ended(t)));
    if exitTerminal.Some? {
      SaysNext(
        p.records + [Record(p.nextSequence, Driver(inbound))],
        Record(p.nextSequence + 1, Ended(exitTerminal.value)));
    }
  }

  lemma {:induction false} PumpForesees(rt: Runtime, s: State, at: nat, act: PumpAct)
    requires PumpEnabled(rt, s, at, act) && Foreseen(s)
    ensures Foreseen(PumpActs(rt, s, at, act))
  {
    hide Within, View, OneLook, EmitDriver, PublishTerminal, Classify, Heard, SaysExit;
    match act
    case Forwards(inbound) => PublisherForesees(s.pub, inbound, None, RuntimeLost(EventStreamLost));
    case EmitsExit =>
      PublisherForesees(s.pub, ChildExited(s.pump.exit), Some(s.pump.terminal), RuntimeLost(EventStreamLost));
    case LosesStream => PublisherForesees(s.pub, OversizedLine(0), None, RuntimeLost(EventStreamLost));
    case _ =>
  }

  lemma {:induction false} CallerForesees(s: State, id: Id, act: CallerAct)
    requires CallerEnabled(s, id, act) && Foreseen(s)
    ensures Foreseen(CallerActs(s, id, act))
  {
    hide PublishTerminal, PublishCleanup, AfterBoundary, BeginStopping, SaysExit;
    var t := if act.Publishes? || act.PublishesCleanup? then s.callers[id].terminal else RuntimeLost(StopFailed);
    PublisherForesees(s.pub, OversizedLine(0), None, t);
  }

  lemma {:induction false} StopForesees(rt: Runtime, s: State, at: nat, id: Id, act: StopAct)
    requires StopEnabled(rt, s, at, id, act) && Foreseen(s)
    ensures Foreseen(StopActs(rt, s, at, id, act))
  {
    hide Obeyed, Within, View, StopGate.Next, StopGate.Enabled, SaysExit, AfterStop;
  }

  lemma {:induction false} RunForesees(rt: Runtime, steps: seq<Step>)
    ensures Foreseen(Run(rt, steps))
  {
    hide Foreseen, PumpActs, CallerActs, StopActs, PumpEnabled, CallerEnabled, StopEnabled;
    if |steps| == 0 {
      NothingForeseen(rt);
    } else {
      var s, step := Run(rt, steps[..|steps| - 1]), steps[|steps| - 1];
      RunForesees(rt, steps[..|steps| - 1]);
      if Enabled(rt, s, step) {
        match step.act {
          case ByPump(act) =>
            PumpForesees(rt, s, step.at, act);
            ForeseenLater(PumpActs(rt, s, step.at, act), step.at);
          case ByStop(id, act) =>
            StopForesees(rt, s, step.at, id, act);
            ForeseenLater(StopActs(rt, s, step.at, id, act), step.at);
          case ByCaller(id, act) =>
            CallerForesees(s, id, act);
            ForeseenLater(CallerActs(s, id, act), step.at);
        }
      }
    }
  }

  lemma {:induction false} ForeseenLater(s: State, at: nat)
    requires Foreseen(s)
    ensures Foreseen(s.(now := at))
  {
  }

  lemma {:induction false} NothingForeseen(rt: Runtime)
    ensures Foreseen(Start(rt))
  {
  }

  /** An exit among the records was seen by the pump, which looked at the group. */
  lemma {:induction false} ExitWasSeen(rt: Runtime, steps: seq<Step>) returns (k: nat)
    requires SaysExit(Run(rt, steps).pub.records)
    ensures Taken(rt, steps, k) && IsExit(steps[k].act)
  {
    hide Run, Enabled, SaysExit;
    RunForesees(rt, steps);
    k := EndedByExit(rt, steps);
  }

  // ---------- Who decides ----------

  /** A terminal is only ever replaced by a cleanup. */
  lemma {:induction false} ForcedByCleanup(rt: Runtime, steps: seq<Step>) returns (k: nat)
    requires Run(rt, steps).forced
    ensures Taken(rt, steps, k) && steps[k].act.ByCaller? && steps[k].act.calling.PublishesCleanup?
  {
    hide Enabled, Next, Start;
    NotForcedAtStart(rt);
    var before, step := steps[..|steps| - 1], steps[|steps| - 1];
    if Enabled(rt, Run(rt, before), step) {
      StepForces(rt, Run(rt, before), step);
    }
    if Run(rt, before).forced {
      k := ForcedByCleanup(rt, before);
      assert before[..k] == steps[..k];
    } else {
      k := |steps| - 1;
    }
  }

  lemma {:induction false} NotForcedAtStart(rt: Runtime)
    ensures !Run(rt, []).forced
  {
  }

  lemma {:induction false} StepForces(rt: Runtime, s: State, step: Step)
    requires Enabled(rt, s, step)
    ensures Next(rt, s, step).forced ==>
              s.forced || (step.act.ByCaller? && step.act.calling.PublishesCleanup?)
  {
    hide Obeyed, Within, View, OneLook, StopGate.Next, StopGate.Enabled, EmitDriver, PublishTerminal, PublishCleanup,
         AfterBoundary, BeginStopping, Classify, Heard;
  }

  /** Whoever calls again, once a terminal is decided, is told it at once, and nothing
      more is published. */
  lemma {:induction false} CallAgain(rt: Runtime, steps: seq<Step>, id: Id, at: nat, boundary: Option<Boundary>)
    requires id in Run(rt, steps).callers && Run(rt, steps).callers[id].Done? && Run(rt, steps).now <= at
    ensures
      var (s, next) := (Run(rt, steps), Run(rt, steps + [Step(at, ByCaller(id, Begins(boundary)))]));
      && s.pub.owner.Decided? && next.pub == s.pub
      && id in next.callers && next.callers[id] == Done(s.pub.owner.terminal)
  {
    hide Run;
    RunDecides(rt, steps);
    RunNext(rt, steps, Step(at, ByCaller(id, Begins(boundary))));
  }

  // ---------- Events are forwarded ----------

  // What the driver told the pump that the pump passed on, in order.
  ghost function Passed(rt: Runtime, steps: seq<Step>): seq<Inbound> {
    if |steps| == 0 then [] else
    var before, step := steps[..|steps| - 1], steps[|steps| - 1];
    var s := Run(rt, before);
    Passed(rt, before)
    + if !Enabled(rt, s, step) || s.pub.owner.Decided? then [] else
      match step.act
      case ByPump(Forwards(inbound)) => [inbound]
      case ByPump(EmitsExit) => if s.pump.Classified? then [ChildExited(s.pump.exit)] else []
      case _ => []
  }

  // The driver events among the records.
  function DriverEvents(records: seq<Record>): seq<Inbound> {
    if records == [] then [] else
    var last := records[|records| - 1].event;
    DriverEvents(records[..|records| - 1]) + if last.Driver? then [last.inbound] else []
  }

  lemma {:induction false} DriverEventsNext(records: seq<Record>, r: Record)
    ensures DriverEvents(records + [r]) == DriverEvents(records) + if r.event.Driver? then [r.event.inbound] else []
  {
    assert (records + [r])[..|records|] == records;
  }

  lemma {:induction false} PublisherForwards(
    p: PublisherState, inbound: Inbound, exitTerminal: Option<Terminal>, t: Terminal)
    ensures DriverEvents(EmitDriver(p, inbound, exitTerminal).records) ==
            DriverEvents(p.records) + if p.owner.Decided? then [] else [inbound]
    ensures DriverEvents(PublishTerminal(p, t).0.records) == DriverEvents(p.records)
    ensures DriverEvents(PublishCleanup(p, t).records) == DriverEvents(p.records)
    ensures BeginStopping(p).0.records == p.records
  {
    hide DriverEvents;
    DriverEventsNext(p.records, Record(p.nextSequence, Driver(inbound)));
    DriverEventsNext(p.records, Record(p.nextSequence, Ended(t)));
    if exitTerminal.Some? {
      DriverEventsNext(
        p.records + [Record(p.nextSequence, Driver(inbound))],
        Record(p.nextSequence + 1, Ended(exitTerminal.value)));
    }
  }

  lemma {:induction false} StepForwards(rt: Runtime, s: State, step: Step)
    requires Enabled(rt, s, step)
    ensures
      DriverEvents(Next(rt, s, step).pub.records) ==
      DriverEvents(s.pub.records)
      + if s.pub.owner.Decided? then [] else
        match step.act
        case ByPump(Forwards(inbound)) => [inbound]
        case ByPump(EmitsExit) => if s.pump.Classified? then [ChildExited(s.pump.exit)] else []
        case _ => []
  {
    hide Obeyed, Within, View, OneLook, StopGate.Next, StopGate.Enabled, EmitDriver, PublishTerminal, PublishCleanup,
         AfterBoundary, BeginStopping, Classify, Heard, DriverEvents;
    match step.act
    case ByPump(act) =>
      match act {
        case Forwards(inbound) => PublisherForwards(s.pub, inbound, None, RuntimeLost(EventStreamLost));
        case EmitsExit =>
          PublisherForwards(s.pub, ChildExited(s.pump.exit), Some(s.pump.terminal), RuntimeLost(EventStreamLost));
        case _ => PublisherForwards(s.pub, OversizedLine(0), None, RuntimeLost(EventStreamLost));
      }
    case ByStop(id, act) => StopAdds(rt, s, step.at, id, act);
    case ByCaller(id, act) =>
      var t := if act.Publishes? || act.PublishesCleanup? then s.callers[id].terminal else RuntimeLost(StopFailed);
      PublisherForwards(s.pub, OversizedLine(0), None, t);
  }

  /** Nothing of what the driver says gets lost, changed or out of order: the driver
      records are exactly the events the pump passed on before a terminal was decided. */
  lemma {:induction false} EventsAreForwarded(rt: Runtime, steps: seq<Step>)
    ensures DriverEvents(Run(rt, steps).pub.records) == Passed(rt, steps)
  {
    hide Enabled, Next, DriverEvents;
    if |steps| == 0 {
      NothingForwarded();
    } else {
      var before, step := steps[..|steps| - 1], steps[|steps| - 1];
      EventsAreForwarded(rt, before);
      if Enabled(rt, Run(rt, before), step) {
        StepForwards(rt, Run(rt, before), step);
      }
    }
  }

  lemma {:induction false} NothingForwarded()
    ensures DriverEvents(FRESH.records) == []
  {
  }

  // ---------- Whole calls ----------

  // Looks of one step each: an empty group, or nothing at all.
  lemma {:induction false} EmptyLook(rt: Runtime, at: nat, when: nat -> nat, log: seq<Action>, outcome: StopOutcome)
    requires log == [SawGroup(rt.id.pgid, {})] && rt.since <= when(0) <= at
    requires SafeTarget(rt.id.pgid) && Members(rt.env.world(when(0)), rt.id.pgid) == {}
    ensures OneLook(View(rt.env, when), 0, rt.id, log, Ok({})) && Within(rt.since, at, when, log)
    ensures Obeyed(View(rt.env, when), 0, rt.id, false, log, Ok(outcome)) && Within(when(0), at, when, log)
    ensures Obeyed(View(rt.env, when), 0, rt.id, true, log, Ok(()))
  {
    assert log[..0] == [];
  }

  lemma {:induction false} NoLook(rt: Runtime, at: nat, when: nat -> nat, failure: Error)
    ensures Obeyed<StopOutcome>(View(rt.env, when), 0, rt.id, false, [], Err(failure)) && Within(at, at, when, [])
  {
  }

  lemma {:induction false} AtStart(rt: Runtime)
    ensures Run(rt, []) == Start(rt)
  {
  }

  lemma {:induction false} Takes(rt: Runtime, steps: seq<Step>, n: nat, s: State) returns (next: State)
    requires n < |steps| && s == Run(rt, steps[..n]) && Enabled(rt, s, steps[n])
    ensures next == Next(rt, s, steps[n]) && next == Run(rt, steps[..n + 1])
  {
    hide Next, Enabled;
    RunNext(rt, steps[..n], steps[n]);
    assert steps[..n] + [steps[n]] == steps[..n + 1];
    next := Next(rt, s, steps[n]);
  }

  // The first caller of a runtime is let through the gate.
  lemma {:induction false} FirstPerforms(rt: Runtime, steps: seq<Step>, act: CallerAct) returns (s: State)
    requires |steps| >= 2 && (act.Begins? || act.BeginsCleanup?)
    requires steps[0] == Step(rt.since, ByCaller(0, act)) && steps[1] == Step(rt.since, ByStop(0, Enters))
    ensures s == Run(rt, steps[..2]) && s.now == rt.since && s.pump.Watching?
    ensures s.callers == map[0 := InGate(if act.Begins? then Finish(act.boundary) else Cleanup)]
    ensures s.gate.threads == map[0 := StopGate.Performing(1)] && s.entered == map[0 := rt.since]
    ensures s.pub == if act.Begins? then FRESH.(owner := Stopping) else FRESH
  {
    hide Run;
    AtStart(rt);
    assert steps[..0] == [];
    s := Takes(rt, steps, 0, Start(rt));
    s := Takes(rt, steps, 1, s);
  }

  // It performs the stop and comes back with the result.
  lemma {:induction false} FirstComesBack(
    rt: Runtime, steps: seq<Step>, act: CallerAct, when: nat -> nat, log: seq<Action>, result: Result<StopOutcome>)
    returns (s: State)
    requires |steps| >= 4 && (act.Begins? || act.BeginsCleanup?)
    requires steps[0] == Step(rt.since, ByCaller(0, act)) && steps[1] == Step(rt.since, ByStop(0, Enters))
    requires steps[2] == Step(rt.since, ByStop(0, Decides(when, log, result)))
    requires steps[3] == Step(rt.since, ByStop(0, Returns))
    requires Within(rt.since, rt.since, when, log) && Obeyed(View(rt.env, when), 0, rt.id, false, log, result)
    ensures s == Run(rt, steps[..4]) && s.now == rt.since && s.pump.Watching?
    ensures s.pub == if act.Begins? then FRESH.(owner := Stopping) else FRESH
    ensures 0 in s.callers && s.callers.Keys == {0}
    ensures act.Begins? && result.Ok? ==> s.callers[0] == Awaiting(result.value, act.boundary)
    ensures act.Begins? && result.Err? ==> s.callers[0] == Ready(RuntimeLost(StopFailed))
    ensures act.BeginsCleanup? && result.Ok? ==> s.callers[0] == Cleaned(Terminal.Stopped(result.value))
    ensures act.BeginsCleanup? && result.Err? ==> s.callers[0] == Persisting
  {
    hide Run, Obeyed, Within, View;
    s := FirstPerforms(rt, steps, act);
    s := Takes(rt, steps, 2, s);
    s := Takes(rt, steps, 3, s);
  }

  // One caller finishes, performs the stop, and the pump delivers the exit in time.
  function FinishSteps(
    t: nat, boundary: Option<Boundary>, outcome: StopOutcome, exit: Exit, when: nat -> nat, log: seq<Action>)
    : seq<Step>
  {
    [Step(t, ByCaller(0, Begins(boundary))),
     Step(t, ByStop(0, Enters)),
     Step(t, ByStop(0, Decides(when, log, Ok(outcome)))),
     Step(t, ByStop(0, Returns)),
     Step(t, ByPump(SeesExit(exit, when, log, Ok({})))),
     Step(t, ByPump(EmitsExit)),
     Step(t, ByCaller(0, Awaits)),
     Step(t, ByCaller(0, Publishes))]
  }

  /** A turn that is finished is reported as finished: if its caller's stop succeeds and
      the exit arrives, the one terminal published, and returned, is the one it came
      for. */
  lemma {:induction false} FinishedIsReported(
    rt: Runtime, boundary: Option<Boundary>, outcome: StopOutcome, exit: Exit, when: nat -> nat, log: seq<Action>)
    requires log == [SawGroup(rt.id.pgid, {})] && rt.since == when(0)
    requires SafeTarget(rt.id.pgid) && Members(rt.env.world(when(0)), rt.id.pgid) == {}
    ensures
      var s := Run(rt, FinishSteps(rt.since, boundary, outcome, exit, when, log));
      var terminal :=
        if boundary.None? then Terminal.Stopped(outcome)
        else if boundary.value.TurnCompleted? then Completed(outcome) else FailedTurn(outcome);
      && s.pub.records == [Record(1, Driver(ChildExited(exit))), Record(2, Ended(terminal))]
      && 0 in s.callers && s.callers[0] == Done(terminal)
  {
    hide Run, Obeyed, Within, View, OneLook, Members;
    var steps := FinishSteps(rt.since, boundary, outcome, exit, when, log);
    EmptyLook(rt, rt.since, when, log, outcome);
    var s := FirstComesBack(rt, steps, Begins(boundary), when, log, Ok(outcome));
    s := ExitArrives(rt, steps, s, exit, when, log);
    s := Takes(rt, steps, 6, s);
    s := Takes(rt, steps, 7, s);
    assert steps[..8] == steps;
  }

  // The pump sees the exit and delivers it while a caller is stopping the runtime.
  lemma {:induction false} ExitArrives(
    rt: Runtime, steps: seq<Step>, s: State, exit: Exit, when: nat -> nat, log: seq<Action>)
    returns (next: State)
    requires |steps| >= 6 && s == Run(rt, steps[..4]) && s.now == rt.since && s.pump.Watching?
    requires s.pub == FRESH.(owner := Stopping)
    requires steps[4] == Step(rt.since, ByPump(SeesExit(exit, when, log, Ok({}))))
    requires steps[5] == Step(rt.since, ByPump(EmitsExit))
    requires Within(rt.since, rt.since, when, log) && OneLook(View(rt.env, when), 0, rt.id, log, Ok({}))
    ensures next == Run(rt, steps[..6]) && next.now == rt.since && next.callers == s.callers
    ensures next.pub == PublisherState(2, Stopping, true, [Record(1, Driver(ChildExited(exit)))])
  {
    hide Run, Within, View, OneLook;
    next := Takes(rt, steps, 4, s);
    next := Takes(rt, steps, 5, next);
  }

  // A cleanup whose stop fails goes on to the recorded group.
  function CleanupSteps(t: nat, failure: Error, when: nat -> nat, log: seq<Action>): seq<Step> {
    [Step(t, ByCaller(0, BeginsCleanup)),
     Step(t, ByStop(0, Enters)),
     Step(t, ByStop(0, Decides(when, [], Err(failure)))),
     Step(t, ByStop(0, Returns)),
     Step(t, ByStop(0, Persists(when, log, Ok(())))),
     Step(t, ByCaller(0, PublishesCleanup))]
  }

  /** A cleanup that the driver refuses still succeeds if the recorded group is stopped,
      and is reported as a stop. */
  lemma {:induction false} CleanupIsReported(rt: Runtime, failure: Error, when: nat -> nat, log: seq<Action>)
    requires log == [SawGroup(rt.id.pgid, {})] && rt.since == when(0)
    requires SafeTarget(rt.id.pgid) && Members(rt.env.world(when(0)), rt.id.pgid) == {}
    ensures
      var s := Run(rt, CleanupSteps(rt.since, failure, when, log));
      var terminal := Terminal.Stopped(AlreadyExited(UnknownExit));
      && s.pub.records == [Record(1, Ended(terminal))] && 0 in s.callers && s.callers[0] == Done(terminal)
  {
    hide Run, Obeyed, Within, View, OneLook, Members;
    var steps := CleanupSteps(rt.since, failure, when, log);
    EmptyLook(rt, rt.since, when, log, AlreadyExited(UnknownExit));
    NoLook(rt, rt.since, when, failure);
    var s := FirstComesBack(rt, steps, BeginsCleanup, when, [], Err(failure));
    s := Takes(rt, steps, 4, s);
    s := Takes(rt, steps, 5, s);
    assert steps[..6] == steps;
  }
}
