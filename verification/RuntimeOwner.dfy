/**
 One runtime and everyone who may end it: the event pump, any number of callers
 that stop it or finish its turn, and forced cleanups. They run concurrently and
 meet at the stop gate of the driver and at the publisher.

 The process table changes on its own, and every step happens at a time. A stop
 that is performed carries the log of its looks and signals; nothing is known
 about it but that it obeyed the rules every stop obeys. Everybody else learns of
 it through the gate.
 */
module RuntimeOwner {
  import opened Options
  import opened ProcessGroups
  import opened Publisher
  import StopGate

  type Id = nat

  // The tables over time, the recorded identity, and when it was recorded.
  datatype Runtime = Runtime(env: Env, id: Identity, since: nat)

  // What the turn tracker knows.
  datatype Turn = Turn(active: bool, boundary: Option<Boundary>)

  datatype Purpose = Finish(boundary: Option<Boundary>) | Cleanup

  datatype Caller =
    | Begun(purpose: Purpose)           // about to ask the driver for a stop
    | InGate(purpose: Purpose)
    | Persisting                        // the driver refused, the recorded group is next
    | Awaiting(outcome: StopOutcome, boundary: Option<Boundary>)
    | Ready(terminal: Terminal)
    | Cleaned(terminal: Terminal)
    | Done(terminal: Terminal)

  datatype Pump = Watching | Classified(exit: Exit, terminal: Terminal) | PumpDone

  // The exit the pump saw, and whether the turn had been completed by then.
  datatype Ending = Ending(exit: Exit, completed: bool)

  /** The last four fields are read by nobody but the proof: when the group was
      first seen empty, the boundaries callers came with, the exit the pump saw, and
      whether the recorded group was stopped. */
  datatype State = State(
    now: nat,
    pub: PublisherState,
    pump: Pump,
    turn: Turn,
    gate: StopGate.Gate,
    callers: map<Id, Caller>,
    entered: map<Id, nat>,              // when each caller entered the gate
    forced: bool,                       // a cleanup terminal has been published
    evidence: Option<nat>,
    asked: set<Boundary>,
    ending: Option<Ending>,
    persisted: bool)

  function Start(rt: Runtime): State {
    State(
      rt.since, FRESH, Watching, Turn(false, None), StopGate.Start(), map[], map[], false, None, {}, None, false)
  }

  // ---------- Steps ----------

  datatype PumpAct =
    | Forwards(inbound: Inbound)
    | SeesExit(exit: Exit, when: nat -> nat, log: seq<Action>, seen: Result<set<Identity>>)
    | EmitsExit
    | LosesStream
    | Quits

  // The moves of a caller up to the answer of its stop.
  datatype StopAct =
    | Enters
    | Wakes
    | Decides(when: nat -> nat, log: seq<Action>, stop: Result<StopOutcome>)
    | Returns
    | Persists(when: nat -> nat, log: seq<Action>, reap: Result<()>)

  // The moves of a caller at the publisher.
  datatype CallerAct = Begins(boundary: Option<Boundary>) | BeginsCleanup | Awaits | Publishes | PublishesCleanup

  datatype Act = ByPump(pump: PumpAct) | ByStop(id: Id, stopping: StopAct) | ByCaller(id: Id, calling: CallerAct)

  datatype Step = Step(at: nat, act: Act)

  // The actions of a log happen one after the other within the time given.
  ghost predicate Within(from: nat, to: nat, when: nat -> nat, log: seq<Action>) {
    && (forall i :: 0 <= i < |log| ==> from <= when(i) <= to)
    && (forall i, j :: 0 <= i < j < |log| ==> when(i) < when(j))
  }

  predicate Free(s: State, id: Id) {
    id !in s.callers || s.callers[id].Done?
  }

  predicate InsideGate(s: State, id: Id) {
    id in s.callers && s.callers[id].InGate? && id in s.gate.threads && id in s.entered
  }

  ghost predicate PumpEnabled(rt: Runtime, s: State, at: nat, act: PumpAct) {
    match act
    case Forwards(inbound) => s.pump.Watching? && !inbound.ChildExited?
    case SeesExit(_, when, log, seen) =>
      s.pump.Watching? && Within(rt.since, at, when, log) && OneLook(View(rt.env, when), 0, rt.id, log, seen)
    case EmitsExit => s.pump.Classified?
    case LosesStream => s.pump.Watching?
    case Quits => s.pump.Watching?
  }

  /** A stop is performed by the one thread the gate lets through, between its
      entry and now, and it obeyed the rules of a stop. */
  ghost predicate StopEnabled(rt: Runtime, s: State, at: nat, id: Id, act: StopAct) {
    match act
    case Enters => id in s.callers && s.callers[id].Begun? && StopGate.Enabled(s.gate, StopGate.Call(id))
    case Wakes => InsideGate(s, id) && StopGate.Enabled(s.gate, StopGate.Wake(id))
    case Decides(when, log, stop) =>
      && InsideGate(s, id) && StopGate.Enabled(s.gate, StopGate.Decide(id, stop))
      && Within(s.entered[id], at, when, log) && Obeyed(View(rt.env, when), 0, rt.id, false, log, stop)
    case Returns => InsideGate(s, id) && s.gate.threads[id].Back?
    case Persists(when, log, reap) =>
      && id in s.callers && s.callers[id].Persisting?
      && Within(rt.since, at, when, log) && Obeyed(View(rt.env, when), 0, rt.id, true, log, reap)
  }

  predicate CallerEnabled(s: State, id: Id, act: CallerAct) {
    match act
    case Begins(_) => Free(s, id)
    case BeginsCleanup => Free(s, id)
    case Awaits => id in s.callers && s.callers[id].Awaiting?
    case Publishes => id in s.callers && s.callers[id].Ready?
    case PublishesCleanup => id in s.callers && s.callers[id].Cleaned?
  }

  ghost predicate Enabled(rt: Runtime, s: State, step: Step) {
    && s.now <= step.at
    && match step.act
       case ByPump(act) => PumpEnabled(rt, s, step.at, act)
       case ByStop(id, act) => StopEnabled(rt, s, step.at, id, act)
       case ByCaller(id, act) => CallerEnabled(s, id, act)
  }

  function Heard(turn: Turn, inbound: Inbound): Turn {
    match inbound
    case Marks(TurnBegan) => Turn(true, None)
    case Marks(TurnEnded(boundary)) => if turn.active then Turn(false, Some(boundary)) else turn
    case _ => turn
  }

  predicate Completes(turn: Turn) {
    !turn.active && turn.boundary == Some(TurnCompleted)
  }

  // An exit is proof only if the group is seen empty right after it.
  function Classify(exit: Exit, seen: Result<set<Identity>>, turn: Turn): Terminal {
    if seen != Ok({}) then Orphaned(UnknownMembership)
    else if exit != Exit.Exit(Some(0)) then Exited(exit)
    else if Completes(turn) then Completed(AlreadyExited(exit))
    else RuntimeLost(EventStreamLost)
  }

  function ByBoundary(outcome: StopOutcome, boundary: Option<Boundary>): Terminal {
    match boundary
    case Some(TurnCompleted) => Completed(outcome)
    case Some(TurnFailed) => FailedTurn(outcome)
    case None => Stopped(outcome)
  }

  // The stream is lost unless its end, or another terminal, was published in time.
  function AfterBoundary(p: PublisherState, outcome: StopOutcome, boundary: Option<Boundary>): Terminal {
    if p.exitDelivered then ByBoundary(outcome, boundary)
    else match p.owner case Decided(t) => t case _ => RuntimeLost(EventStreamLost)
  }

  // What a caller does with the answer of the gate.
  function AfterStop(purpose: Purpose, result: Result<StopOutcome>): Caller {
    match purpose
    case Finish(boundary) =>
      (match result case Ok(outcome) => Awaiting(outcome, boundary) case Err(_) => Ready(RuntimeLost(StopFailed)))
    case Cleanup =>
      match result case Ok(outcome) => Cleaned(Terminal.Stopped(outcome)) case Err(_) => Persisting
  }

  function Moved(s: State, id: Id, c: Caller): State {
    s.(callers := s.callers[id := c])
  }

  // The last look of a successful log is the first evidence, unless there is some.
  function Noted(s: State, success: bool, when: nat -> nat, log: seq<Action>): State {
    if success && |log| > 0 && s.evidence.None? then s.(evidence := Some(when(|log| - 1))) else s
  }

  ghost function PumpActs(rt: Runtime, s: State, at: nat, act: PumpAct): State
    requires PumpEnabled(rt, s, at, act)
  {
    match act
    case Forwards(inbound) => s.(turn := Heard(s.turn, inbound), pub := EmitDriver(s.pub, inbound, None))
    case SeesExit(exit, when, log, seen) =>
      Noted(s, seen == Ok({}), when, log).(
        pump := Classified(exit, Classify(exit, seen, s.turn)), ending := Some(Ending(exit, Completes(s.turn))))
    case EmitsExit =>
      s.(pub := EmitDriver(s.pub, ChildExited(s.pump.exit), Some(s.pump.terminal)), pump := PumpDone)
    case LosesStream =>
      s.(pub := PublishTerminal(s.pub, RuntimeLost(EventStreamLost)).0, pump := PumpDone)
    case Quits => s.(pump := PumpDone)
  }

  ghost function StopActs(rt: Runtime, s: State, at: nat, id: Id, act: StopAct): State
    requires StopEnabled(rt, s, at, id, act)
  {
    match act
    case Enters =>
      Moved(s, id, InGate(s.callers[id].purpose)).(
        gate := StopGate.Next(s.gate, StopGate.Call(id)), entered := s.entered[id := at])
    case Wakes => s.(gate := StopGate.Next(s.gate, StopGate.Wake(id)))
    case Decides(when, log, stop) =>
      Noted(s, stop.Ok?, when, log).(gate := StopGate.Next(s.gate, StopGate.Decide(id, stop)))
    case Returns => Moved(s, id, AfterStop(s.callers[id].purpose, s.gate.threads[id].result))
    case Persists(when, log, reap) =>
      Moved(
        Noted(s, reap.Ok?, when, log).(persisted := s.persisted || reap.Ok?), id,
        Cleaned(if reap.Ok? then Terminal.Stopped(AlreadyExited(UnknownExit)) else RuntimeLost(StopFailed)))
  }

  function CallerActs(s: State, id: Id, act: CallerAct): State
    requires CallerEnabled(s, id, act)
  {
    match act
    case Begins(boundary) =>
      var (pub, won) := BeginStopping(s.pub);
      (match won
       case Some(t) => Moved(s, id, Done(t))
       case None =>
         Moved(s, id, Begun(Finish(boundary))).(
           pub := pub, asked := s.asked + if boundary.Some? then {boundary.value} else {}))
    case BeginsCleanup => Moved(s, id, Begun(Cleanup))
    case Awaits =>
      var c := s.callers[id];
      Moved(s, id, Ready(AfterBoundary(s.pub, c.outcome, c.boundary)))
    case Publishes =>
      var (pub, winner) := PublishTerminal(s.pub, s.callers[id].terminal);
      Moved(s, id, Done(winner)).(pub := pub)
    case PublishesCleanup =>
      var t := s.callers[id].terminal;
      Moved(s, id, Done(t)).(pub := PublishCleanup(s.pub, t), forced := true)
  }

  ghost function Next(rt: Runtime, s: State, step: Step): State
    requires Enabled(rt, s, step)
  {
    var acted :=
      match step.act
      case ByPump(act) => PumpActs(rt, s, step.at, act)
      case ByStop(id, act) => StopActs(rt, s, step.at, id, act)
      case ByCaller(id, act) => CallerActs(s, id, act);
    acted.(now := step.at)
  }

  // ---------- What a terminal rests on ----------

  // What has happened that a terminal may rest on.
  datatype Grounds = Grounds(
    empty: bool, asked: set<Boundary>, ending: Option<Ending>, persisted: bool, stopped: Option<StopOutcome>)

  function GroundsOf(s: State): Grounds {
    Grounds(
      s.evidence.Some?, s.asked, s.ending, s.persisted,
      match s.gate.state case Stopped(outcome) => Some(outcome) case _ => None)
  }

  const CLEAN_EXIT := Exit.Exit(Some(0))

  predicate Supports(g: Grounds, t: Terminal) {
    && (Proves(t) ==> g.empty)
    && match t
       case Stopped(outcome) => g.stopped == Some(outcome) || (g.persisted && outcome == AlreadyExited(UnknownExit))
       case Completed(outcome) =>
         || (TurnCompleted in g.asked && g.stopped == Some(outcome))
         || (g.ending == Some(Ending(CLEAN_EXIT, true)) && outcome == AlreadyExited(CLEAN_EXIT))
       case FailedTurn(outcome) => TurnFailed in g.asked && g.stopped == Some(outcome)
       case Exited(exit) => g.ending.Some? && g.ending.value.exit == exit
       case _ => true
  }

  // Grounds only ever grow.
  predicate Grows(g: Grounds, h: Grounds) {
    && (g.empty ==> h.empty) && g.asked <= h.asked && (g.ending.Some? ==> h.ending == g.ending)
    && (g.persisted ==> h.persisted) && (g.stopped.Some? ==> h.stopped == g.stopped)
  }

  lemma {:induction false} SupportGrows(g: Grounds, h: Grounds, t: Terminal)
    requires Grows(g, h) && Supports(g, t)
    ensures Supports(h, t)
  {
  }

  // ---------- What always holds ----------

  // The evidence is a time at which the group was empty, and a stopped gate has it.
  ghost predicate Sound(rt: Runtime, s: State) {
    && rt.since <= s.now
    && StopGate.Inv(s.gate)
    && (s.evidence.Some? ==>
          rt.since <= s.evidence.value <= s.now && GroupEmpty(rt.env.world(s.evidence.value), rt.id.pgid))
    && (s.gate.state.Stopped? ==> s.evidence.Some?)
    && (s.persisted ==> s.evidence.Some?)
    && (forall id :: id in s.entered ==> rt.since <= s.entered[id])
    && (s.pump.Watching? ==> s.ending.None?)
  }

  ghost predicate RecordsSupported(records: seq<Record>, g: Grounds) {
    forall i :: 0 <= i < |records| && records[i].event.Ended? ==> Supports(g, records[i].event.terminal)
  }

  ghost predicate Published(s: State) {
    && Valid(s.pub)
    && RecordsSupported(s.pub.records, GroundsOf(s))
    && (!s.forced ==> |Terminals(s.pub.records)| <= 1)
  }

  predicate Asks(asked: set<Boundary>, boundary: Option<Boundary>) {
    boundary.Some? ==> boundary.value in asked
  }

  ghost predicate CallerSupported(s: State, c: Caller) {
    match c
    case Begun(purpose) => purpose.Finish? ==> Asks(s.asked, purpose.boundary)
    case InGate(purpose) => purpose.Finish? ==> Asks(s.asked, purpose.boundary)
    case Persisting => true
    case Awaiting(outcome, boundary) => GroundsOf(s).stopped == Some(outcome) && Asks(s.asked, boundary)
    case Ready(t) => Supports(GroundsOf(s), t)
    case Cleaned(t) => Supports(GroundsOf(s), t)
    case Done(t) => Supports(GroundsOf(s), t) && (!s.forced ==> s.pub.owner == Decided(t))
  }

  ghost predicate Supported(s: State) {
    && (s.pump.Classified? ==> Supports(GroundsOf(s), s.pump.terminal))
    && forall id :: id in s.callers ==> CallerSupported(s, s.callers[id])
  }

  ghost predicate Inv(rt: Runtime, s: State) {
    Sound(rt, s) && Published(s) && Supported(s)
  }

  lemma {:induction false} StartInv(rt: Runtime)
    ensures Inv(rt, Start(rt))
  {
    StopGate.StartInv();
  }

  // ---------- What carries over ----------

  // A state in which more has happened, and in which no terminal has changed.
  ghost predicate Extends(s: State, t: State) {
    && Grows(GroundsOf(s), GroundsOf(t))
    && s.pub == t.pub && s.forced == t.forced
  }

  lemma {:induction false} PublishedCarries(s: State, t: State)
    requires Published(s) && Extends(s, t)
    ensures Published(t)
  {
    hide Supports, Valid, Terminals, GroundsOf;
    forall i | 0 <= i < |t.pub.records| && t.pub.records[i].event.Ended?
      ensures Supports(GroundsOf(t), t.pub.records[i].event.terminal)
    {
      SupportGrows(GroundsOf(s), GroundsOf(t), s.pub.records[i].event.terminal);
    }
  }

  lemma {:induction false} CallerCarries(s: State, t: State, c: Caller)
    requires CallerSupported(s, c) && Extends(s, t)
    ensures CallerSupported(t, c)
  {
    hide Supports;
    if c.Ready? || c.Cleaned? || c.Done? {
      SupportGrows(GroundsOf(s), GroundsOf(t), c.terminal);
    }
  }

  // All but one caller are as they were.
  lemma {:induction false} SupportedCarries(s: State, t: State, id: Id)
    requires Supported(s) && Extends(s, t)
    requires forall x :: x in t.callers && x != id ==> x in s.callers && t.callers[x] == s.callers[x]
    requires id in t.callers ==> CallerSupported(t, t.callers[id])
    requires t.pump.Classified? ==> t.pump == s.pump || Supports(GroundsOf(t), t.pump.terminal)
    ensures Supported(t)
  {
    hide Supports, CallerSupported, GroundsOf;
    forall x | x in t.callers ensures CallerSupported(t, t.callers[x]) {
      if x != id {
        CallerCarries(s, t, s.callers[x]);
      }
    }
    if t.pump.Classified? && t.pump == s.pump {
      SupportGrows(GroundsOf(s), GroundsOf(t), s.pump.terminal);
    }
  }

  // ---------- One step ----------

  lemma {:induction false} LastAction(rt: Runtime, from: nat, to: nat, when: nat -> nat, log: seq<Action>)
    requires log != [] && Within(from, to, when, log)
    ensures from <= when(|log| - 1) <= to
    ensures View(rt.env, when).world(|log| - 1) == rt.env.world(when(|log| - 1))
  {
  }

  // A successful log ends with a look at the empty group.
  lemma {:induction false} NotedSound(
    rt: Runtime, s: State, from: nat, to: nat, success: bool, when: nat -> nat, log: seq<Action>)
    requires Sound(rt, s) && s.now <= to && rt.since <= from && Within(from, to, when, log)
    requires success ==> log != [] && GroupEmpty(View(rt.env, when).world(|log| - 1), rt.id.pgid)
    ensures Sound(rt, Noted(s, success, when, log).(now := to))
    ensures success ==> Noted(s, success, when, log).evidence.Some?
    ensures Extends(s, Noted(s, success, when, log))
  {
    hide StopGate.Inv, GroupEmpty, View, Within;
    if success {
      LastAction(rt, from, to, when, log);
    }
  }

  lemma {:induction false} PumpLooks(rt: Runtime, s: State, at: nat, act: PumpAct)
    requires Inv(rt, s) && s.now <= at && PumpEnabled(rt, s, at, act) && act.SeesExit?
    ensures Inv(rt, PumpActs(rt, s, at, act).(now := at))
  {
    hide StopGate.Inv, Published, OneLook, Within, GroupEmpty, View;
    var (exit, when, log, seen) := (act.exit, act.when, act.log, act.seen);
    if seen == Ok({}) {
      EmptyLookIsProof(View(rt.env, when), 0, rt.id, log, seen);
    }
    NotedSound(rt, s, rt.since, at, seen == Ok({}), when, log);
    var next := PumpActs(rt, s, at, act).(now := at);
    PublishedCarries(s, next);
    forall id | id in next.callers ensures CallerSupported(next, next.callers[id]) {
      CallerCarries(s, next, s.callers[id]);
    }
  }

  lemma {:induction false} GateMoves(rt: Runtime, s: State, at: nat, id: Id, act: StopAct)
    requires Inv(rt, s) && s.now <= at && StopEnabled(rt, s, at, id, act) && (act.Enters? || act.Wakes?)
    ensures Inv(rt, StopActs(rt, s, at, id, act).(now := at))
  {
    hide StopGate.Inv, Published, GroupEmpty, StopGate.Next, StopGate.Enabled;
    var move := if act.Enters? then StopGate.Call(id) else StopGate.Wake(id);
    StopGate.NextInv(s.gate, move);
    StopGate.OnlySuccessStops(s.gate, move);
    var next := StopActs(rt, s, at, id, act).(now := at);
    PublishedCarries(s, next);
    SupportedCarries(s, next, id);
  }

  lemma {:induction false} StopIsDecided(rt: Runtime, s: State, at: nat, id: Id, act: StopAct)
    requires Inv(rt, s) && s.now <= at && StopEnabled(rt, s, at, id, act) && act.Decides?
    ensures Inv(rt, StopActs(rt, s, at, id, act).(now := at))
  {
    hide StopGate.Inv, Published, GroupEmpty, StopGate.Next, StopGate.Enabled, Obeyed, Within, View;
    var (when, log, stop) := (act.when, act.log, act.stop);
    var move := StopGate.Decide(id, stop);
    StopGate.NextInv(s.gate, move);
    StopGate.OnlySuccessStops(s.gate, move);
    if stop.Ok? {
      SuccessIsProved(View(rt.env, when), 0, rt.id, false, log, stop);
    }
    NotedSound(rt, s, s.entered[id], at, stop.Ok?, when, log);
    var next := StopActs(rt, s, at, id, act).(now := at);
    PublishedCarries(s, next);
    CallerCarries(s, next, s.callers[id]);
    SupportedCarries(s, next, id);
  }

  lemma {:induction false} GateAnswers(rt: Runtime, s: State, at: nat, id: Id)
    requires Inv(rt, s) && s.now <= at && StopEnabled(rt, s, at, id, Returns)
    ensures Inv(rt, StopActs(rt, s, at, id, Returns).(now := at))
  {
    hide Published, GroupEmpty;
    assert StopGate.Fits(s.gate, id);
    var next := StopActs(rt, s, at, id, Returns).(now := at);
    PublishedCarries(s, next);
    SupportedCarries(s, next, id);
  }

  lemma {:induction false} GroupIsReaped(rt: Runtime, s: State, at: nat, id: Id, act: StopAct)
    requires Inv(rt, s) && s.now <= at && StopEnabled(rt, s, at, id, act) && act.Persists?
    ensures Inv(rt, StopActs(rt, s, at, id, act).(now := at))
  {
    hide StopGate.Inv, Published, GroupEmpty, Obeyed, Within, View;
    var (when, log, reap) := (act.when, act.log, act.reap);
    if reap.Ok? {
      SuccessIsProved(View(rt.env, when), 0, rt.id, true, log, reap);
    }
    NotedSound(rt, s, rt.since, at, reap.Ok?, when, log);
    var next := StopActs(rt, s, at, id, act).(now := at);
    PublishedCarries(s, next);
    SupportedCarries(s, next, id);
  }

  // ---------- One step that publishes ----------

  // Nothing has happened but that something may have been published.
  ghost predicate OnlyPublished(s: State, t: State) {
    && GroundsOf(s) == GroundsOf(t)
    && (!t.forced ==> !s.forced && (s.pub.owner.Decided? ==> t.pub.owner == s.pub.owner))
  }

  lemma {:induction false} SupportedStays(s: State, t: State, id: Id)
    requires Supported(s) && OnlyPublished(s, t)
    requires forall x :: x in t.callers && x != id ==> x in s.callers && t.callers[x] == s.callers[x]
    requires id in t.callers ==> CallerSupported(t, t.callers[id])
    requires t.pump == s.pump || !t.pump.Classified?
    ensures Supported(t)
  {
    hide Supports;
    forall x | x in t.callers ensures CallerSupported(t, t.callers[x]) {
      if x != id {
        assert CallerSupported(s, s.callers[x]);
      }
    }
  }

  lemma {:induction false} TerminatePublishes(s: State, t: Terminal)
    requires Published(s) && Supports(GroundsOf(s), t)
    ensures Valid(Terminate(s.pub, t)) && RecordsSupported(Terminate(s.pub, t).records, GroundsOf(s))
    ensures !s.forced && !s.pub.owner.Decided? ==> |Terminals(Terminate(s.pub, t).records)| <= 1
  {
    hide Supports, Valid, Terminals, GroundsOf;
    TerminateValid(s.pub, t);
    OnlyOne(s.pub);
  }

  // Before the owner has decided there is no terminal.
  lemma {:induction false} OnlyOne(p: PublisherState)
    requires Valid(p)
    ensures !p.owner.Decided? ==> Terminals(p.records) == []
  {
  }

  lemma {:induction false} EmitPublishes(s: State, inbound: Inbound, t: Option<Terminal>)
    requires Published(s) && (t.Some? ==> Supports(GroundsOf(s), t.value))
    ensures
      var pub := EmitDriver(s.pub, inbound, t);
      && Valid(pub) && RecordsSupported(pub.records, GroundsOf(s))
      && (!s.forced ==> |Terminals(pub.records)| <= 1)
      && (s.pub.owner.Decided? ==> pub.owner == s.pub.owner)
  {
    hide Supports, Valid, Terminals, GroundsOf;
    EmitDriverValid(s.pub, inbound, t);
    OnlyOne(s.pub);
  }

  // The terminal an owner shows is supported, because it has been published.
  lemma {:induction false} DecidedIsSupported(s: State)
    requires Published(s) && s.pub.owner.Decided?
    ensures Supports(GroundsOf(s), s.pub.owner.terminal)
  {
    hide Supports, GroundsOf;
  }

  lemma {:induction false} LossNeedsNothing(g: Grounds)
    ensures Supports(g, RuntimeLost(EventStreamLost)) && Supports(g, RuntimeLost(StopFailed))
  {
  }

  lemma {:induction false} PumpPublishes(rt: Runtime, s: State, at: nat, act: PumpAct)
    requires Inv(rt, s) && s.now <= at && PumpEnabled(rt, s, at, act) && !act.SeesExit?
    ensures Inv(rt, PumpActs(rt, s, at, act).(now := at))
  {
    hide StopGate.Inv, GroupEmpty, Supports, Valid, Terminals, CallerSupported, EmitDriver, Terminate, RecordsSupported;
    match act {
      case Forwards(inbound) => EmitPublishes(s, inbound, None);
      case EmitsExit => EmitPublishes(s, ChildExited(s.pump.exit), Some(s.pump.terminal));
      case LosesStream =>
        LossNeedsNothing(GroundsOf(s));
        TerminatePublishes(s, RuntimeLost(EventStreamLost));
        TerminateDecides(s.pub, RuntimeLost(EventStreamLost));
      case Quits =>
    }
    var next := PumpActs(rt, s, at, act).(now := at);
    forall x | x in next.callers ensures CallerSupported(next, next.callers[x]) {
      CallerStays(s, next, s.callers[x]);
    }
  }

  lemma {:induction false} TerminateDecides(p: PublisherState, t: Terminal)
    ensures Terminate(p, t).owner == Decided(t)
  {
  }

  lemma {:induction false} CallerStays(s: State, t: State, c: Caller)
    requires CallerSupported(s, c) && OnlyPublished(s, t)
    ensures CallerSupported(t, c)
  {
    hide Supports;
  }

  // A caller at the publisher changes nothing the evidence rests on.
  lemma {:induction false} SoundStays(rt: Runtime, s: State, id: Id, act: CallerAct, at: nat)
    requires Sound(rt, s) && s.now <= at && CallerEnabled(s, id, act)
    ensures Sound(rt, CallerActs(s, id, act).(now := at))
  {
    hide StopGate.Inv, GroupEmpty, BeginStopping, PublishTerminal, PublishCleanup, AfterBoundary;
  }

  lemma {:induction false} StoppedIsSeen(rt: Runtime, s: State)
    requires Sound(rt, s)
    ensures s.gate.state.Stopped? ==> s.evidence.Some?
  {
  }

  // Announcing a stop publishes nothing.
  lemma {:induction false} BeginPublishes(s: State)
    requires Published(s)
    ensures
      var pub := BeginStopping(s.pub).0;
      Valid(pub) && pub.records == s.pub.records && (s.pub.owner.Decided? ==> pub == s.pub)
  {
    hide Terminals, RecordsSupported, GroundsOf;
  }

  // The boundaries callers came with only grow.
  lemma {:induction false} AskingCarries(s: State, asked: set<Boundary>)
    requires Published(s) && Supported(s) && s.asked <= asked
    ensures Published(s.(asked := asked)) && Supported(s.(asked := asked))
  {
    hide Published, Supports, CallerSupported;
    var next := s.(asked := asked);
    PublishedCarries(s, next);
    forall x | x in s.callers ensures CallerSupported(next, s.callers[x]) {
      CallerCarries(s, next, s.callers[x]);
    }
    if s.pump.Classified? {
      SupportGrows(GroundsOf(s), GroundsOf(next), s.pump.terminal);
    }
  }

  lemma {:induction false} CallerBegins(rt: Runtime, s: State, at: nat, id: Id, act: CallerAct)
    requires Inv(rt, s) && s.now <= at && CallerEnabled(s, id, act) && (act.Begins? || act.BeginsCleanup?)
    ensures Inv(rt, CallerActs(s, id, act).(now := at))
  {
    hide Sound, Supports, Valid, Terminals, RecordsSupported;
    SoundStays(rt, s, id, act, at);
    var next := CallerActs(s, id, act).(now := at);
    AskingCarries(s, next.asked);
    BeginPublishes(s);
    if s.pub.owner.Decided? {
      DecidedIsSupported(s);
    }
    SupportedStays(s.(asked := next.asked), next, id);
  }

  lemma {:induction false} CallerPublishes(rt: Runtime, s: State, at: nat, id: Id, act: CallerAct)
    requires Inv(rt, s) && s.now <= at && CallerEnabled(s, id, act) && !act.Begins? && !act.BeginsCleanup?
    ensures Inv(rt, CallerActs(s, id, act).(now := at))
  {
    hide Sound, Valid, Terminals, Terminate, RecordsSupported;
    SoundStays(rt, s, id, act, at);
    StoppedIsSeen(rt, s);
    var c := s.callers[id];
    assert CallerSupported(s, c);
    if s.pub.owner.Decided? {
      DecidedIsSupported(s);
    }
    if act.Awaits? {
      LossNeedsNothing(GroundsOf(s));
    } else {
      TerminatePublishes(s, c.terminal);
      TerminateDecides(s.pub, c.terminal);
    }
    SupportedStays(s, CallerActs(s, id, act).(now := at), id);
  }

  lemma {:induction false} NextInv(rt: Runtime, s: State, step: Step)
    requires Inv(rt, s) && Enabled(rt, s, step)
    ensures Inv(rt, Next(rt, s, step))
  {
    hide Inv, PumpEnabled, StopEnabled, CallerEnabled, PumpActs, StopActs, CallerActs;
    match step.act
    case ByPump(act) =>
      if act.SeesExit? {
        PumpLooks(rt, s, step.at, act);
      } else {
        PumpPublishes(rt, s, step.at, act);
      }
    case ByStop(id, act) =>
      if act.Decides? {
        StopIsDecided(rt, s, step.at, id, act);
      } else if act.Returns? {
        GateAnswers(rt, s, step.at, id);
      } else if act.Persists? {
        GroupIsReaped(rt, s, step.at, id, act);
      } else {
        GateMoves(rt, s, step.at, id, act);
      }
    case ByCaller(id, act) =>
      if act.Begins? || act.BeginsCleanup? {
        CallerBegins(rt, s, step.at, id, act);
      } else {
        CallerPublishes(rt, s, step.at, id, act);
      }
  }

  // ---------- Whole runs ----------

  // A step that is not possible is not taken.
  ghost function Run(rt: Runtime, steps: seq<Step>): State {
    if |steps| == 0 then Start(rt) else
    var s, step := Run(rt, steps[..|steps| - 1]), steps[|steps| - 1];
    if Enabled(rt, s, step) then Next(rt, s, step) else s
  }

  // The k-th step of a run was possible, and was taken.
  ghost predicate Taken(rt: Runtime, steps: seq<Step>, k: nat) {
    k < |steps| && Enabled(rt, Run(rt, steps[..k]), steps[k])
  }

  lemma {:induction false} RunInv(rt: Runtime, steps: seq<Step>)
    ensures Inv(rt, Run(rt, steps))
  {
    hide Inv, Enabled, Next, Start;
    if |steps| == 0 {
      StartInv(rt);
    } else {
      var s, step := Run(rt, steps[..|steps| - 1]), steps[|steps| - 1];
      RunInv(rt, steps[..|steps| - 1]);
      if Enabled(rt, s, step) {
        NextInv(rt, s, step);
      }
    }
  }

  /** Records reach the sink numbered 1, 2, 3, ... without a gap, and no driver
      record follows the first terminal. */
  lemma {:induction false} RecordsAreOrdered(rt: Runtime, steps: seq<Step>)
    ensures Ordered(Run(rt, steps).pub.records)
  {
    hide Run;
    RunInv(rt, steps);
  }

  /** Without a forced cleanup at most one terminal is published, and every caller
      that comes back, however many run at once, comes back with it. */
  lemma {:induction false} OneTerminalForAll(rt: Runtime, steps: seq<Step>, id: Id)
    requires !Run(rt, steps).forced
    ensures |Terminals(Run(rt, steps).pub.records)| <= 1
    ensures id in Run(rt, steps).callers && Run(rt, steps).callers[id].Done? ==>
              Terminals(Run(rt, steps).pub.records) == [Run(rt, steps).callers[id].terminal]
  {
    hide Run, Sound;
    RunInv(rt, steps);
    var s := Run(rt, steps);
    if id in s.callers && s.callers[id].Done? {
      assert CallerSupported(s, s.callers[id]);
      LastTerminal(s.pub);
    }
  }

  lemma {:induction false} LastTerminal(p: PublisherState)
    requires Valid(p) && p.owner.Decided? && |Terminals(p.records)| <= 1
    ensures Terminals(p.records) == [p.owner.terminal]
  {
  }

  // ---------- When a record was published ----------

  predicate BeginsWith(act: Act, b: Boundary) {
    act.ByCaller? && act.calling.Begins? && act.calling.boundary == Some(b)
  }

  predicate IsExit(act: Act) {
    act.ByPump? && act.pump.SeesExit?
  }

  predicate IsStop(act: Act, outcome: StopOutcome) {
    act.ByStop? && act.stopping.Decides? && act.stopping.stop == Ok(outcome)
  }

  // Who adds to what the proof keeps account of, and that records are only added.
  ghost predicate Adds(s: State, act: Act, next: State) {
    && s.pub.records <= next.pub.records
    && (forall b :: b in next.asked ==> b in s.asked || BeginsWith(act, b))
    && (|| next.ending == s.ending
        || (IsExit(act) && next.ending == Some(Ending(act.pump.exit, Completes(s.turn)))))
  }

  lemma {:induction false} PumpAdds(rt: Runtime, s: State, at: nat, act: PumpAct)
    requires PumpEnabled(rt, s, at, act)
    ensures Adds(s, ByPump(act), PumpActs(rt, s, at, act))
  {
    hide EmitDriver, PublishTerminal, Classify, Heard, OneLook, Within;
    match act
    case Forwards(inbound) => RecordsAreAdded(s.pub, inbound, None, RuntimeLost(StopFailed));
    case EmitsExit =>
      RecordsAreAdded(s.pub, ChildExited(s.pump.exit), Some(s.pump.terminal), RuntimeLost(StopFailed));
    case LosesStream => RecordsAreAdded(s.pub, OversizedLine(0), None, RuntimeLost(EventStreamLost));
    case _ =>
  }

  lemma {:induction false} CallerAdds(s: State, id: Id, act: CallerAct)
    requires CallerEnabled(s, id, act)
    ensures Adds(s, ByCaller(id, act), CallerActs(s, id, act))
  {
    hide PublishTerminal, PublishCleanup, AfterBoundary, BeginStopping;
    var t := if act.Publishes? || act.PublishesCleanup? then s.callers[id].terminal else RuntimeLost(StopFailed);
    RecordsAreAdded(s.pub, OversizedLine(0), None, t);
  }

  lemma {:induction false} StopAdds(rt: Runtime, s: State, at: nat, id: Id, act: StopAct)
    requires StopEnabled(rt, s, at, id, act)
    ensures
      var next := StopActs(rt, s, at, id, act);
      next.pub == s.pub && next.asked == s.asked && next.ending == s.ending
  {
    hide Obeyed, Within, View, StopGate.Next, StopGate.Enabled, AfterStop;
  }

  lemma {:induction false} StepAdds(rt: Runtime, s: State, step: Step)
    requires Enabled(rt, s, step)
    ensures Adds(s, step.act, Next(rt, s, step))
    ensures s.now <= step.at == Next(rt, s, step).now
  {
    hide PumpActs, CallerActs, StopActs, PumpEnabled, CallerEnabled, StopEnabled;
    match step.act
    case ByPump(act) => PumpAdds(rt, s, step.at, act);
    case ByStop(id, act) => StopAdds(rt, s, step.at, id, act);
    case ByCaller(id, act) => CallerAdds(s, id, act);
  }

  // Whoever is done was answered by an owner that has decided.
  ghost predicate DoneIsDecided(s: State) {
    forall x :: x in s.callers && s.callers[x].Done? ==> s.pub.owner.Decided?
  }

  // A decision is never taken back.
  lemma {:induction false} DecidedStays(
    p: PublisherState, inbound: Inbound, exitTerminal: Option<Terminal>, t: Terminal)
    ensures p.owner.Decided? ==> EmitDriver(p, inbound, exitTerminal).owner.Decided?
    ensures PublishTerminal(p, t).0.owner.Decided? && PublishCleanup(p, t).owner.Decided?
    ensures p.owner.Decided? <==> BeginStopping(p).1.Some?
    ensures p.owner.Decided? ==> BeginStopping(p).0.owner.Decided?
  {
  }

  lemma {:induction false} PumpDecides(rt: Runtime, s: State, at: nat, act: PumpAct)
    requires PumpEnabled(rt, s, at, act) && DoneIsDecided(s)
    ensures DoneIsDecided(PumpActs(rt, s, at, act))
  {
    hide Within, View, OneLook, EmitDriver, PublishTerminal, Classify, Heard;
    match act
    case Forwards(inbound) => DecidedStays(s.pub, inbound, None, RuntimeLost(EventStreamLost));
    case EmitsExit =>
      DecidedStays(s.pub, ChildExited(s.pump.exit), Some(s.pump.terminal), RuntimeLost(EventStreamLost));
    case LosesStream => DecidedStays(s.pub, OversizedLine(0), None, RuntimeLost(EventStreamLost));
    case _ =>
  }

  lemma {:induction false} StopDecides(rt: Runtime, s: State, at: nat, id: Id, act: StopAct)
    requires StopEnabled(rt, s, at, id, act) && DoneIsDecided(s)
    ensures DoneIsDecided(StopActs(rt, s, at, id, act))
  {
    hide Obeyed, Within, View, StopGate.Next, StopGate.Enabled;
  }

  lemma {:induction false} CallerDecides(s: State, id: Id, act: CallerAct)
    requires CallerEnabled(s, id, act) && DoneIsDecided(s)
    ensures DoneIsDecided(CallerActs(s, id, act))
  {
    hide PublishTerminal, PublishCleanup, AfterBoundary, BeginStopping;
    var t := if act.Publishes? || act.PublishesCleanup? then s.callers[id].terminal else RuntimeLost(StopFailed);
    DecidedStays(s.pub, OversizedLine(0), None, t);
  }

  lemma {:induction false} StepDecides(rt: Runtime, s: State, step: Step)
    requires Enabled(rt, s, step) && DoneIsDecided(s)
    ensures DoneIsDecided(Next(rt, s, step))
  {
    hide PumpActs, CallerActs, StopActs, PumpEnabled, CallerEnabled, StopEnabled;
    match step.act
    case ByPump(act) => PumpDecides(rt, s, step.at, act);
    case ByStop(id, act) => StopDecides(rt, s, step.at, id, act);
    case ByCaller(id, act) => CallerDecides(s, id, act);
  }

  /** A terminal that was handed out, by the publisher or by a caller that came back,
      has been published: the last record is a terminal. */
  lemma {:induction false} HandedIsPublished(rt: Runtime, steps: seq<Step>)
    requires
      var s := Run(rt, steps);
      s.pub.owner.Decided? || exists x :: x in s.callers && s.callers[x].Done?
    ensures
      var records := Run(rt, steps).pub.records;
      |records| > 0 && records[|records| - 1].event.Ended?
  {
    hide Run;
    RunInv(rt, steps);
    RunDecides(rt, steps);
  }

  lemma {:induction false} RunDecides(rt: Runtime, steps: seq<Step>)
    ensures DoneIsDecided(Run(rt, steps))
  {
    hide Enabled, Next, DoneIsDecided;
    if |steps| == 0 {
      StartDecides(rt);
    } else {
      var s, step := Run(rt, steps[..|steps| - 1]), steps[|steps| - 1];
      RunDecides(rt, steps[..|steps| - 1]);
      if Enabled(rt, s, step) {
        StepDecides(rt, s, step);
      }
    }
  }

  lemma {:induction false} StartDecides(rt: Runtime)
    ensures DoneIsDecided(Start(rt))
  {
  }

  // The number of steps after which record `i` had been published.
  ghost function PublishedBy(rt: Runtime, steps: seq<Step>, i: nat): (n: nat)
    requires i < |Run(rt, steps).pub.records|
    ensures 1 <= n <= |steps|
  {
    if |steps| > 0 && i < |Run(rt, steps[..|steps| - 1]).pub.records| then PublishedBy(rt, steps[..|steps| - 1], i)
    else |steps|
  }

  /** The step that published a record: it was taken at the time the run had then
      reached, and the record has stood ever since. */
  lemma {:induction false} PublishedByStep(rt: Runtime, steps: seq<Step>, i: nat)
    requires i < |Run(rt, steps).pub.records|
    ensures
      var n := PublishedBy(rt, steps, i);
      && Taken(rt, steps, n - 1)
      && i < |Run(rt, steps[..n]).pub.records|
      && Run(rt, steps[..n]).pub.records[i] == Run(rt, steps).pub.records[i]
      && Run(rt, steps[..n]).now == steps[n - 1].at
  {
    hide Enabled, Next, Start;
    NothingYet(rt);
    if |steps| > 0 {
      var before, step := steps[..|steps| - 1], steps[|steps| - 1];
      var s := Run(rt, before);
      if Enabled(rt, s, step) {
        StepAdds(rt, s, step);
      }
      if i < |s.pub.records| {
        PublishedByStep(rt, before, i);
        var n := PublishedBy(rt, before, i);
        assert before[..n] == steps[..n] && before[..n - 1] == steps[..n - 1];
      } else {
        assert steps[..|steps|] == steps;
      }
    }
  }

  lemma {:induction false} NothingYet(rt: Runtime)
    ensures Start(rt).pub.records == []
  {
  }

  // ---------- From the process table to the record ----------

  /** Every published terminal that claims the process group is gone was published
      after some moment of this runtime at which the process table held nobody of
      the group. */
  lemma {:induction false} ReapIsProved(rt: Runtime, steps: seq<Step>, i: nat) returns (t: nat)
    requires i < |Run(rt, steps).pub.records|
    requires Run(rt, steps).pub.records[i].event.Ended? && Proves(Run(rt, steps).pub.records[i].event.terminal)
    ensures rt.since <= t <= steps[PublishedBy(rt, steps, i) - 1].at
    ensures GroupEmpty(rt.env.world(t), rt.id.pgid)
  {
    hide Run, Enabled, GroupEmpty, Valid;
    var n := PublishedBy(rt, steps, i);
    PublishedByStep(rt, steps, i);
    RunInv(rt, steps[..n]);
    t := Run(rt, steps[..n]).evidence.value;
  }

  /** The same for what any caller comes back with. */
  lemma {:induction false} AnswerIsProved(rt: Runtime, steps: seq<Step>, id: Id) returns (t: nat)
    requires id in Run(rt, steps).callers && Run(rt, steps).callers[id].Done?
    requires Proves(Run(rt, steps).callers[id].terminal)
    ensures rt.since <= t <= Run(rt, steps).now
    ensures GroupEmpty(rt.env.world(t), rt.id.pgid)
  {
    hide Run, GroupEmpty, Published;
    RunInv(rt, steps);
    assert CallerSupported(Run(rt, steps), Run(rt, steps).callers[id]);
    t := Run(rt, steps).evidence.value;
  }

  /** And for what the publisher shows. */
  lemma {:induction false} DecisionIsProved(rt: Runtime, steps: seq<Step>) returns (t: nat)
    requires Run(rt, steps).pub.owner.Decided? && Proves(Run(rt, steps).pub.owner.terminal)
    ensures rt.since <= t <= Run(rt, steps).now
    ensures GroupEmpty(rt.env.world(t), rt.id.pgid)
  {
    hide Run, GroupEmpty, Supported;
    RunInv(rt, steps);
    DecidedIsSupported(Run(rt, steps));
    t := Run(rt, steps).evidence.value;
  }

  // ---------- What a terminal says ----------

  // A caller came with this boundary before.
  lemma {:induction false} AskedByCaller(rt: Runtime, steps: seq<Step>, b: Boundary) returns (k: nat)
    requires b in Run(rt, steps).asked
    ensures Taken(rt, steps, k) && BeginsWith(steps[k].act, b)
  {
    hide Enabled, Next, Start;
    StartIsBlank(rt);
    var before, step := steps[..|steps| - 1], steps[|steps| - 1];
    if Enabled(rt, Run(rt, before), step) {
      StepAdds(rt, Run(rt, before), step);
    }
    if b in Run(rt, before).asked {
      k := AskedByCaller(rt, before, b);
      assert before[..k] == steps[..k];
    } else {
      k := |steps| - 1;
    }
  }

  lemma {:induction false} StartIsBlank(rt: Runtime)
    ensures Start(rt).asked == {} && Start(rt).ending.None? && !Start(rt).gate.state.Stopped?
  {
  }

  // Somebody performed the stop that succeeded.
  lemma {:induction false} StoppedByPerformer(rt: Runtime, steps: seq<Step>) returns (k: nat)
    requires Run(rt, steps).gate.state.Stopped?
    ensures Taken(rt, steps, k) && IsStop(steps[k].act, Run(rt, steps).gate.state.outcome)
  {
    hide Enabled, Next, Start;
    StartIsBlank(rt);
    var before, step := steps[..|steps| - 1], steps[|steps| - 1];
    if Enabled(rt, Run(rt, before), step) {
      GateSteps(rt, before, step);
    }
    if Run(rt, before).gate.state.Stopped? {
      k := StoppedByPerformer(rt, before);
      assert before[..k] == steps[..k];
    } else {
      k := |steps| - 1;
    }
  }

  lemma {:induction false} GateSteps(rt: Runtime, steps: seq<Step>, step: Step)
    requires Enabled(rt, Run(rt, steps), step)
    ensures
      var (g, h) := (Run(rt, steps).gate.state, Next(rt, Run(rt, steps), step).gate.state);
      && (g.Stopped? ==> h == g)
      && (h.Stopped? ==> g.Stopped? || IsStop(step.act, h.outcome))
  {
    hide Run, Obeyed, OneLook, Within, StopGate.Next, StopGate.Enabled, StopGate.Inv, Published, Supported;
    var s := Run(rt, steps);
    RunInv(rt, steps);
    if step.act.ByStop? {
      var id, act := step.act.id, step.act.stopping;
      if act.Enters? {
        StopGate.OnlySuccessStops(s.gate, StopGate.Call(id));
      } else if act.Wakes? {
        StopGate.OnlySuccessStops(s.gate, StopGate.Wake(id));
      } else if act.Decides? {
        StopGate.OnlySuccessStops(s.gate, StopGate.Decide(id, act.stop));
      }
    }
  }

  // The pump saw this exit.
  lemma {:induction false} EndedByExit(rt: Runtime, steps: seq<Step>) returns (k: nat)
    requires Run(rt, steps).ending.Some?
    ensures Taken(rt, steps, k) && IsExit(steps[k].act)
    ensures Run(rt, steps).ending == Some(Ending(steps[k].act.pump.exit, Completes(Run(rt, steps[..k]).turn)))
  {
    hide Enabled, Next, Start, Completes;
    StartIsBlank(rt);
    var before, step := steps[..|steps| - 1], steps[|steps| - 1];
    if Enabled(rt, Run(rt, before), step) {
      StepAdds(rt, Run(rt, before), step);
    }
    if Run(rt, before).ending == Run(rt, steps).ending {
      k := EndedByExit(rt, before);
      assert before[..k] == steps[..k];
    } else {
      k := |steps| - 1;
    }
  }

  // A caller that came with the boundary, and the stop whose outcome is reported.
  ghost predicate StoppedTurn(
    rt: Runtime, steps: seq<Step>, b: Boundary, outcome: StopOutcome, began: nat, ended: nat)
  {
    && Taken(rt, steps, began) && BeginsWith(steps[began].act, b)
    && Taken(rt, steps, ended) && IsStop(steps[ended].act, outcome)
  }

  // The runtime exited with code 0 by itself, after its turn was completed.
  ghost predicate ExitedTurn(rt: Runtime, steps: seq<Step>, outcome: StopOutcome, ended: nat) {
    && Taken(rt, steps, ended) && IsExit(steps[ended].act) && steps[ended].act.pump.exit == CLEAN_EXIT
    && Completes(Run(rt, steps[..ended]).turn) && outcome == AlreadyExited(CLEAN_EXIT)
  }

  /** A turn is reported completed or failed only if, before the report, a caller
      came with that boundary and a stop was performed that came to the outcome
      reported; or if the runtime had exited cleanly after completing its turn. */
  lemma {:induction false} TurnIsReportedTruly(rt: Runtime, steps: seq<Step>, i: nat)
    returns (began: nat, ended: nat)
    requires i < |Run(rt, steps).pub.records| && Run(rt, steps).pub.records[i].event.Ended?
    requires
      var t := Run(rt, steps).pub.records[i].event.terminal;
      t.Completed? || t.FailedTurn?
    ensures
      var t := Run(rt, steps).pub.records[i].event.terminal;
      var earlier := steps[..PublishedBy(rt, steps, i)];
      || StoppedTurn(rt, earlier, if t.Completed? then TurnCompleted else TurnFailed, t.outcome, began, ended)
      || (t.Completed? && ExitedTurn(rt, earlier, t.outcome, ended))
  {
    hide Run, Enabled, Sound, Valid, Supported, Taken;
    var n := PublishedBy(rt, steps, i);
    var earlier := steps[..n];
    PublishedByStep(rt, steps, i);
    RunInv(rt, earlier);
    var s, t := Run(rt, earlier), Run(rt, steps).pub.records[i].event.terminal;
    var b := if t.Completed? then TurnCompleted else TurnFailed;
    assert Supports(GroundsOf(s), t);
    began := 0;
    if b in s.asked && GroundsOf(s).stopped == Some(t.outcome) {
      began := AskedByCaller(rt, earlier, b);
      ended := StoppedByPerformer(rt, earlier);
    } else {
      ended := EndedByExit(rt, earlier);
    }
  }

  /** An exit is reported only as the pump saw it. */
  lemma {:induction false} ExitIsReportedTruly(rt: Runtime, steps: seq<Step>, i: nat) returns (ended: nat)
    requires i < |Run(rt, steps).pub.records|
    requires Run(rt, steps).pub.records[i].event.Ended? && Run(rt, steps).pub.records[i].event.terminal.Exited?
    ensures
      var earlier := steps[..PublishedBy(rt, steps, i)];
      && Taken(rt, earlier, ended) && IsExit(earlier[ended].act)
      && earlier[ended].act.pump.exit == Run(rt, steps).pub.records[i].event.terminal.exit
  {
    hide Run, Enabled, Sound, Valid, Supported, Taken;
    var earlier := steps[..PublishedBy(rt, steps, i)];
    PublishedByStep(rt, steps, i);
    RunInv(rt, earlier);
    assert Supports(GroundsOf(Run(rt, earlier)), Run(rt, steps).pub.records[i].event.terminal);
    ended := EndedByExit(rt, earlier);
    assert Taken(rt, earlier, ended);
  }
}
