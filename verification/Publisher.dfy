/**
 The publisher of one runtime: numbers everything that reaches the lifecycle sink
 and decides which terminal wins. All its operations run under one lock.
 */
module Publisher {
  import opened Options
  import opened ProcessGroups

  datatype Loss = StopFailed | EventStreamLost | UnknownMembership

  datatype Terminal =
    | Stopped(outcome: StopOutcome)
    | Completed(outcome: StopOutcome)
    | FailedTurn(outcome: StopOutcome)
    | Exited(exit: Exit)
    | RuntimeLost(loss: Loss)
    | Orphaned(loss: Loss)

  // The terminal says that the process group of the runtime is gone.
  predicate Proves(t: Terminal) {
    t.Stopped? || t.Completed? || t.FailedTurn? || t.Exited?
  }

  datatype Boundary = TurnCompleted | TurnFailed

  // What an event says about the current turn.
  datatype TurnMark = TurnBegan | TurnEnded(boundary: Boundary)

  datatype Inbound =
    | Message(content: nat)
    | Marks(mark: TurnMark)
    | Interaction(content: nat)         // a request someone has to answer
    | OversizedLine(bytes: nat)
    | ChildExited(exit: Exit)

  datatype Event = Driver(inbound: Inbound) | Ended(terminal: Terminal)

  datatype Record = Record(sequence: nat, event: Event)

  datatype Owner = Running | Stopping | Decided(terminal: Terminal)

  // `records` is everything handed to the sink, in order.
  datatype PublisherState = PublisherState(
    nextSequence: nat, owner: Owner, exitDelivered: bool, records: seq<Record>)

  const FRESH := PublisherState(1, Running, false, [])

  function Emit(p: PublisherState, e: Event): PublisherState {
    p.(records := p.records + [Record(p.nextSequence, e)], nextSequence := p.nextSequence + 1)
  }

  function Terminate(p: PublisherState, t: Terminal): PublisherState {
    Emit(p.(owner := Decided(t)), Ended(t))
  }

  function EmitDriver(p: PublisherState, inbound: Inbound, exitTerminal: Option<Terminal>): PublisherState {
    if p.owner.Decided? then p else
    var emitted := Emit(p, Driver(inbound));
    var noted := if inbound.ChildExited? then emitted.(exitDelivered := true) else emitted;
    if exitTerminal.Some? && noted.owner.Running? then Terminate(noted, exitTerminal.value) else noted
  }

  // The terminal that has won already, or none; then the owner is stopping.
  function BeginStopping(p: PublisherState): (PublisherState, Option<Terminal>) {
    match p.owner
    case Decided(t) => (p, Some(t))
    case Running => (p.(owner := Stopping), None)
    case Stopping => (p, None)
  }

  // The first terminal wins; the caller gets the winner.
  function PublishTerminal(p: PublisherState, t: Terminal): (PublisherState, Terminal) {
    match p.owner
    case Decided(winner) => (p, winner)
    case _ => (Terminate(p, t), t)
  }

  // The outcome of a real cleanup replaces any terminal.
  function PublishCleanup(p: PublisherState, t: Terminal): PublisherState {
    Terminate(p, t)
  }

  // ---------- The record stream ----------

  // Records are numbered 1, 2, 3, ... and no driver record follows a terminal.
  ghost predicate Ordered(records: seq<Record>) {
    && (forall i :: 0 <= i < |records| ==> records[i].sequence == i + 1)
    && (forall i, j :: 0 <= i < j < |records| && records[i].event.Ended? ==> records[j].event.Ended?)
  }

  function Terminals(records: seq<Record>): seq<Terminal> {
    if records == [] then [] else
    var last := records[|records| - 1].event;
    Terminals(records[..|records| - 1]) + if last.Ended? then [last.terminal] else []
  }

  /** The last terminal published is the one the owner shows, and there is none
      before the owner has terminated. */
  ghost predicate Valid(p: PublisherState) {
    && Ordered(p.records)
    && p.nextSequence == |p.records| + 1
    && (p.owner.Decided? <==> Terminals(p.records) != [])
    && (p.owner.Decided? ==>
          p.records != [] && p.records[|p.records| - 1].event == Ended(p.owner.terminal))
    && (!p.owner.Decided? ==> forall i :: 0 <= i < |p.records| ==> p.records[i].event.Driver?)
  }

  lemma {:induction false} FreshValid()
    ensures Valid(FRESH)
  {
  }

  lemma {:induction false} TerminalsGrow(records: seq<Record>, r: Record)
    ensures Terminals(records + [r]) == Terminals(records) + if r.event.Ended? then [r.event.terminal] else []
  {
    assert (records + [r])[..|records|] == records;
  }

  lemma {:induction false} TerminateValid(p: PublisherState, t: Terminal)
    requires Valid(p)
    ensures Valid(Terminate(p, t))
    ensures Terminals(Terminate(p, t).records) == Terminals(p.records) + [t]
  {
    TerminalsGrow(p.records, Record(p.nextSequence, Ended(t)));
  }

  lemma {:induction false} EmitValid(p: PublisherState, inbound: Inbound)
    requires Valid(p) && !p.owner.Decided?
    ensures Valid(Emit(p, Driver(inbound)))
    ensures Terminals(Emit(p, Driver(inbound)).records) == Terminals(p.records)
  {
    TerminalsGrow(p.records, Record(p.nextSequence, Driver(inbound)));
  }

  lemma {:induction false} EmitDriverValid(p: PublisherState, inbound: Inbound, exitTerminal: Option<Terminal>)
    requires Valid(p)
    ensures Valid(EmitDriver(p, inbound, exitTerminal))
    ensures
      var won := exitTerminal.Some? && p.owner.Running?;
      Terminals(EmitDriver(p, inbound, exitTerminal).records) ==
      Terminals(p.records) + if won then [exitTerminal.value] else []
  {
    hide Terminals;
    if !p.owner.Decided? {
      EmitValid(p, inbound);
      var emitted := Emit(p, Driver(inbound));
      var noted := if inbound.ChildExited? then emitted.(exitDelivered := true) else emitted;
      if exitTerminal.Some? && noted.owner.Running? {
        TerminateValid(noted, exitTerminal.value);
      }
    }
  }

  // Records are only ever added.
  lemma {:induction false} RecordsAreAdded(
    p: PublisherState, inbound: Inbound, exitTerminal: Option<Terminal>, t: Terminal)
    ensures p.records <= EmitDriver(p, inbound, exitTerminal).records
    ensures p.records <= PublishTerminal(p, t).0.records
    ensures p.records <= PublishCleanup(p, t).records
    ensures p.records == BeginStopping(p).0.records
  {
  }

  // ---------- The publisher itself ----------

  class Publisher {
    var nextSequence: nat
    var owner: Owner
    var exitDelivered: bool
    var emitted: seq<Record>

    ghost function Contents(): PublisherState
      reads this
    {
      PublisherState(nextSequence, owner, exitDelivered, emitted)
    }

    constructor ()
      ensures Contents() == FRESH && Valid(Contents())
    {
      nextSequence, owner, exitDelivered, emitted := 1, Running, false, [];
      new;
      FreshValid();
    }

    method EmitLocked(e: Event)
      modifies `nextSequence, `emitted
      ensures Contents() == Emit(old(Contents()), e)
    {
      var record := Record(nextSequence, e);
      nextSequence := nextSequence + 1;
      emitted := emitted + [record];
    }

    method PublishTerminalLocked(t: Terminal)
      modifies this
      ensures Contents() == Terminate(old(Contents()), t)
    {
      owner := Decided(t);
      EmitLocked(Ended(t));
    }

    method EmitDriverEvent(inbound: Inbound, exitTerminal: Option<Terminal>)
      requires Valid(Contents())
      modifies this
      ensures Valid(Contents())
      ensures Contents() == EmitDriver(old(Contents()), inbound, exitTerminal)
    {
      hide Valid;
      EmitDriverValid(Contents(), inbound, exitTerminal);
      if owner.Decided? {
        return;
      }
      EmitLocked(Driver(inbound));
      if inbound.ChildExited? {
        exitDelivered := true;
      }
      if exitTerminal.Some? && owner.Running? {
        PublishTerminalLocked(exitTerminal.value);
      }
    }

    method BeginStop() returns (won: Option<Terminal>)
      modifies `owner
      ensures (Contents(), won) == BeginStopping(old(Contents()))
    {
      match owner {
        case Decided(t) => won := Some(t);
        case Running =>
          owner := Stopping;
          won := None;
        case Stopping => won := None;
      }
    }

    method PublishTerminalOnce(t: Terminal) returns (winner: Terminal)
      requires Valid(Contents())
      modifies this
      ensures Valid(Contents())
      ensures (Contents(), winner) == PublishTerminal(old(Contents()), t)
    {
      hide Valid;
      TerminateValid(Contents(), t);
      if owner.Decided? {
        return owner.terminal;
      }
      PublishTerminalLocked(t);
      winner := t;
    }

    method PublishCleanupTerminal(t: Terminal)
      requires Valid(Contents())
      modifies this
      ensures Valid(Contents())
      ensures Contents() == PublishCleanup(old(Contents()), t)
    {
      hide Valid;
      TerminateValid(Contents(), t);
      PublishTerminalLocked(t);
    }
  }
}
