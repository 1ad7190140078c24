/**
 The sink behind a publisher: it writes admitted records to the store, holds the
 terminal back until its task is finished, and then writes it under a sequence
 number of its own.
 */
module LifecycleSink {
  import opened Options
  import opened Publisher

  datatype Write = Write(sequence: nat, terminal: bool)

  datatype TransportFault = TransportFault(bytes: nat, lastSequence: nat)

  datatype Sink = Sink(
    failed: bool,                       // the first error is latched
    lastSequence: nat,
    pendingTerminal: Option<nat>,
    terminalWritten: bool,
    transportFault: Option<TransportFault>,
    writes: seq<Write>,                 // what the store holds
    reaped: bool)

  const FRESH_SINK := Sink(false, 0, None, false, None, [], false)

  // The store's answer to one attempt to insert a pending request.
  datatype Answer = Inserted | Conflict | Broken

  // How the wait for that insertion ends.
  datatype Insertion = Done | Dropped | GaveUp

  /** The retry loop: a conflict is waited out while the lifecycle still admits
      events and until the deadline, `patience` attempts away. */
  function Insert(answers: nat -> Answer, admitting: nat -> bool, patience: nat, attempt: nat): Insertion
    decreases patience
  {
    match answers(attempt)
    case Inserted => Done
    case Broken => GaveUp
    case Conflict =>
      if !admitting(attempt) then Dropped
      else if patience == 0 then GaveUp
      else Insert(answers, admitting, patience - 1, attempt + 1)
  }

  /** How the retry loop ends: after `k` conflicts that were waited out, at most as many
      as there is patience for, the store has taken the request, or broken, or the
      lifecycle no longer admits events, or the deadline is there. */
  lemma {:induction false} InsertEnds(answers: nat -> Answer, admitting: nat -> bool, patience: nat, attempt: nat)
    returns (k: nat)
    ensures k <= patience
    ensures forall j :: attempt <= j < attempt + k ==> answers(j).Conflict? && admitting(j)
    ensures
      var (last, r) := (attempt + k, Insert(answers, admitting, patience, attempt));
      && (r.Done? <==> answers(last).Inserted?)
      && (r.Dropped? <==> answers(last).Conflict? && !admitting(last))
      && (r.GaveUp? <==> answers(last).Broken? || (answers(last).Conflict? && admitting(last) && k == patience))
    decreases patience
  {
    if answers(attempt).Conflict? && admitting(attempt) && patience > 0 {
      k := InsertEnds(answers, admitting, patience - 1, attempt + 1);
      k := k + 1;
    } else {
      k := 0;
    }
  }

  // What the lifecycle and the store decide while a record is handled.
  datatype Gate = Gate(admitted: bool, insertion: Insertion, readmitted: bool, appended: bool)

  function Noted(s: Sink, r: Record): Sink {
    var last := if r.sequence > s.lastSequence then r.sequence else s.lastSequence;
    var oversized := r.event.Driver? && r.event.inbound.OversizedLine?;
    s.(
      lastSequence := last,
      transportFault :=
        if oversized && s.transportFault.None? then Some(TransportFault(r.event.inbound.bytes, last))
        else s.transportFault)
  }

  predicate Holds(writes: seq<Write>, sequence: nat) {
    exists i :: 0 <= i < |writes| && writes[i].sequence == sequence
  }

  // The store takes one record per number; asking again is answered and adds nothing.
  function Stored(writes: seq<Write>, w: Write): seq<Write> {
    if Holds(writes, w.sequence) then writes else writes + [w]
  }

  function Append(s: Sink, sequence: nat, appended: bool): Sink {
    if appended then s.(writes := Stored(s.writes, Write(sequence, false))) else s.(failed := true)
  }

  function Accept(s: Sink, r: Record, g: Gate): Sink {
    if !g.admitted || s.failed then s else
    var noted := Noted(s, r);
    match r.event
    case Ended(_) => noted.(pendingTerminal := Some(r.sequence))
    case Driver(Interaction(_)) =>
      (match g.insertion
       case GaveUp => noted.(failed := true)
       case Dropped => noted
       case Done => if g.readmitted then Append(noted, r.sequence, g.appended) else noted)
    case Driver(_) => Append(noted, r.sequence, g.appended)
  }

  function TerminalSequence(s: Sink): nat {
    if s.pendingTerminal.Some? then s.pendingTerminal.value else s.lastSequence + 1
  }

  // How far the store lets the finish come.
  datatype Progress = NotAppended | NotPersisted | NotReaped | Finished

  function FinishGeneral(s: Sink, t: Terminal, cleaned: bool, progress: Progress): Sink {
    if s.failed || s.terminalWritten || progress.NotAppended? then s else
    var written := s.(writes := Stored(s.writes, Write(TerminalSequence(s), true)));
    var reaps := cleaned && Proves(t);
    if progress.NotPersisted? || (progress.NotReaped? && reaps) then written
    else written.(reaped := s.reaped || reaps, terminalWritten := true)
  }

  // ---------- Sequence numbers ----------

  function RunSink(records: seq<Record>, gates: seq<Gate>): Sink
    requires |gates| == |records|
  {
    if records == [] then FRESH_SINK
    else Accept(RunSink(records[..|records| - 1], gates[..|gates| - 1]), records[|records| - 1], gates[|gates| - 1])
  }

  /** Writes ascend, terminals come after all other records and only once the last
      record published is a terminal; a terminal that is held back is the newest
      record admitted. */
  ghost predicate Kept(s: Sink, records: seq<Record>) {
    && s.lastSequence <= |records|
    && (s.pendingTerminal.Some? <==> s.lastSequence >= 1 && records[s.lastSequence - 1].event.Ended?)
    && (s.pendingTerminal.Some? ==> s.pendingTerminal.value == s.lastSequence)
    && (forall i :: 0 <= i < |s.writes| ==> Placed(s, records, s.writes[i]))
    && (forall i, j :: 0 <= i < j < |s.writes| ==>
          s.writes[i].sequence < s.writes[j].sequence && (s.writes[i].terminal ==> s.writes[j].terminal))
  }

  ghost predicate Placed(s: Sink, records: seq<Record>, w: Write) {
    if w.terminal then w.sequence <= TerminalSequence(s) && records != [] && records[|records| - 1].event.Ended?
    else w.sequence < TerminalSequence(s)
  }

  // A number the finish would use is above all others, unless it was used by a finish before.
  lemma {:induction false} FinishKept(s: Sink, records: seq<Record>, t: Terminal, cleaned: bool, progress: Progress)
    requires Kept(s, records) && records != [] && records[|records| - 1].event.Ended?
    ensures Kept(FinishGeneral(s, t, cleaned, progress), records)
  {
    var f := FinishGeneral(s, t, cleaned, progress);
    assert TerminalSequence(f) == TerminalSequence(s);
    forall i | 0 <= i < |f.writes| ensures Placed(f, records, f.writes[i]) {
      if i < |s.writes| {
        assert Placed(s, records, s.writes[i]);
      }
    }
    forall i | 0 <= i < |s.writes| && |f.writes| > |s.writes|
      ensures s.writes[i].sequence < TerminalSequence(s)
    {
      assert Placed(s, records, s.writes[i]);
    }
  }

  // After a terminal record come only terminal records.
  lemma {:induction false} LastRecord(s: Sink, records: seq<Record>)
    requires records != [] && Ordered(records) && Kept(s, records[..|records| - 1])
    ensures records[|records| - 1].sequence == |records|
    ensures s.pendingTerminal.Some? ==> records[|records| - 1].event.Ended?
    ensures forall i :: 0 <= i < |s.writes| && s.writes[i].terminal ==> records[|records| - 1].event.Ended?
    ensures s.lastSequence >= 1 ==> records[..|records| - 1][s.lastSequence - 1] == records[s.lastSequence - 1]
  {
    var before := records[..|records| - 1];
    forall i | 0 <= i < |s.writes| && s.writes[i].terminal ensures records[|records| - 1].event.Ended? {
      assert Placed(s, before, s.writes[i]);
      assert before[|before| - 1] == records[|records| - 2];
    }
  }

  // A record is passed over, or noted; and a record of the driver may be written.
  lemma {:induction false} AcceptShape(s: Sink, r: Record, g: Gate)
    requires r.sequence > s.lastSequence
    ensures
      var next := Accept(s, r, g);
      || (next.lastSequence == s.lastSequence && next.pendingTerminal == s.pendingTerminal && next.writes == s.writes)
      || (&& next.lastSequence == r.sequence
          && next.pendingTerminal == (if r.event.Ended? then Some(r.sequence) else s.pendingTerminal)
          && (next.writes == s.writes || (r.event.Driver? && next.writes == s.writes + [Write(r.sequence, false)])))
  {
  }

  lemma {:induction false} AcceptKept(s: Sink, records: seq<Record>, g: Gate)
    requires records != [] && Ordered(records) && Kept(s, records[..|records| - 1])
    ensures Kept(Accept(s, records[|records| - 1], g), records)
  {
    hide Ordered, Accept, Placed;
    var next := Accept(s, records[|records| - 1], g);
    LastRecord(s, records);
    AcceptShape(s, records[|records| - 1], g);
    forall i | 0 <= i < |next.writes| ensures Placed(next, records, next.writes[i]) {
      AcceptPlaces(s, records, g, i);
    }
    forall i | 0 <= i < |s.writes|
      ensures s.writes[i].sequence <= |records| && (!s.writes[i].terminal ==> s.writes[i].sequence < |records|)
    {
      WrittenBefore(s, records[..|records| - 1], i);
    }
  }

  lemma {:induction false} WrittenBefore(s: Sink, before: seq<Record>, i: nat)
    requires Kept(s, before) && i < |s.writes|
    ensures s.writes[i].sequence <= |before| + 1 && (!s.writes[i].terminal ==> s.writes[i].sequence <= |before|)
  {
    assert Placed(s, before, s.writes[i]);
  }

  lemma {:induction false} AcceptPlaces(s: Sink, records: seq<Record>, g: Gate, i: nat)
    requires records != [] && Ordered(records) && Kept(s, records[..|records| - 1])
    requires i < |Accept(s, records[|records| - 1], g).writes|
    ensures
      var next := Accept(s, records[|records| - 1], g);
      Placed(next, records, next.writes[i])
  {
    hide Ordered, Accept;
    LastRecord(s, records);
    AcceptShape(s, records[|records| - 1], g);
    if i < |s.writes| {
      assert Placed(s, records[..|records| - 1], s.writes[i]);
    }
  }

  // Lifecycle and store let a record pass.
  predicate Passes(g: Gate) {
    g.admitted && g.insertion.Done? && g.readmitted && g.appended
  }

  // The driver records, as they are to be written.
  function DriverWrites(records: seq<Record>): seq<Write> {
    if records == [] then [] else
    var last := records[|records| - 1];
    DriverWrites(records[..|records| - 1]) + if last.event.Driver? then [Write(last.sequence, false)] else []
  }

  /** As long as lifecycle and store let everything pass, the store holds every driver
      record in order, and the terminal is held back. */
  lemma {:induction false} EverythingIsWritten(records: seq<Record>, gates: seq<Gate>)
    requires |gates| == |records| && Ordered(records) && forall i :: 0 <= i < |gates| ==> Passes(gates[i])
    ensures
      var s := RunSink(records, gates);
      && !s.failed && s.writes == DriverWrites(records) && s.lastSequence == |records|
      && (forall i :: 0 <= i < |s.writes| ==> s.writes[i].sequence <= |records|)
      && (records != [] && records[|records| - 1].event.Ended? ==> s.pendingTerminal == Some(|records|))
  {
    if records != [] {
      EverythingIsWritten(records[..|records| - 1], gates[..|gates| - 1]);
    }
  }

  /** A record that cannot be stored fails the sink for good: whatever comes after it,
      nothing more is noted or written. */
  lemma {:induction false} FailureIsFinal(records: seq<Record>, gates: seq<Gate>, n: nat)
    requires |gates| == |records| && n < |records| && !RunSink(records[..n], gates[..n]).failed
    requires gates[n].admitted && records[n].event.Driver?
    requires if records[n].event.inbound.Interaction? then gates[n].insertion.GaveUp? else !gates[n].appended
    ensures
      var (before, s) := (RunSink(records[..n], gates[..n]), RunSink(records, gates));
      s.failed && s.writes == before.writes
  {
    var earlier, earlierGates := records[..|records| - 1], gates[..|gates| - 1];
    if n < |records| - 1 {
      assert earlier[..n] == records[..n] && earlierGates[..n] == gates[..n];
      FailureIsFinal(earlier, earlierGates, n);
    } else {
      assert earlier == records[..n] && earlierGates == gates[..n];
    }
  }

  /** An oversized line that is admitted is noted, with its size and its number, if it is
      the first. */
  lemma {:induction false} FaultIsNoted(records: seq<Record>, gates: seq<Gate>)
    requires |gates| == |records| && records != [] && Ordered(records)
    requires
      var (s, r) := (RunSink(records[..|records| - 1], gates[..|gates| - 1]), records[|records| - 1]);
      && !s.failed && s.transportFault.None? && gates[|gates| - 1].admitted
      && r.event.Driver? && r.event.inbound.OversizedLine?
    ensures RunSink(records, gates).transportFault ==
            Some(TransportFault(records[|records| - 1].event.inbound.bytes, |records|))
  {
    var before := records[..|records| - 1];
    LastIsBelow(before, gates[..|gates| - 1]);
  }

  lemma {:induction false} LastIsBelow(records: seq<Record>, gates: seq<Gate>)
    requires |gates| == |records| && Ordered(records)
    ensures RunSink(records, gates).lastSequence <= |records|
  {
    if records != [] {
      LastIsBelow(records[..|records| - 1], gates[..|gates| - 1]);
    }
  }

  /** The first oversized line that is admitted stays the transport fault. */
  lemma {:induction false} FirstFaultStays(records: seq<Record>, gates: seq<Gate>, n: nat)
    requires |gates| == |records| && n <= |records| && RunSink(records[..n], gates[..n]).transportFault.Some?
    ensures RunSink(records, gates).transportFault == RunSink(records[..n], gates[..n]).transportFault
  {
    if n == |records| {
      assert records[..n] == records && gates[..n] == gates;
    } else {
      var before, earlier := records[..|records| - 1], gates[..|gates| - 1];
      assert before[..n] == records[..n] && earlier[..n] == gates[..n];
      FirstFaultStays(before, earlier, n);
    }
  }

  // ---------- The sink itself ----------

  class StoreLifecycleSink {
    var failed: bool
    var lastSequence: nat
    var pendingTerminal: Option<nat>
    var terminalWritten: bool
    var transportFault: Option<TransportFault>
    var writes: seq<Write>
    var reaped: bool

    ghost function Contents(): Sink
      reads this
    {
      Sink(failed, lastSequence, pendingTerminal, terminalWritten, transportFault, writes, reaped)
    }

    constructor ()
      ensures Contents() == FRESH_SINK
    {
      failed, lastSequence, pendingTerminal, terminalWritten := false, 0, None, false;
      transportFault, writes, reaped := None, [], false;
    }

    method InsertPending(answers: nat -> Answer, admitting: nat -> bool, patience: nat) returns (r: Insertion)
      ensures r == Insert(answers, admitting, patience, 0)
    {
      var attempt, left := 0, patience;
      while true
        invariant Insert(answers, admitting, left, attempt) == Insert(answers, admitting, patience, 0)
        decreases left
      {
        match answers(attempt) {
          case Inserted => return Done;
          case Broken => return GaveUp;
          case Conflict =>
            if !admitting(attempt) {
              return Dropped;
            }
            if left == 0 {
              return GaveUp;
            }
            attempt, left := attempt + 1, left - 1;
        }
      }
    }

    method EmitRecord(
      r: Record, admitted: bool, answers: nat -> Answer, admitting: nat -> bool, patience: nat, readmitted: bool,
      appended: bool)
      modifies this
      ensures Contents() ==
              Accept(old(Contents()), r, Gate(admitted, Insert(answers, admitting, patience, 0), readmitted, appended))
    {
      hide Insert;
      if !admitted || failed {
        return;
      }
      if r.sequence > lastSequence {
        lastSequence := r.sequence;
      }
      if r.event.Driver? && r.event.inbound.OversizedLine? && transportFault.None? {
        transportFault := Some(TransportFault(r.event.inbound.bytes, lastSequence));
      }
      if r.event.Ended? {
        pendingTerminal := Some(r.sequence);
        return;
      }
      if r.event.inbound.Interaction? {
        var insertion := InsertPending(answers, admitting, patience);
        if insertion.GaveUp? {
          failed := true;
          return;
        }
        if insertion.Dropped? || !readmitted {
          return;
        }
      }
      if appended {
        writes := Stored(writes, Write(r.sequence, false));
      } else {
        failed := true;
      }
    }

    method Finish(t: Terminal, cleaned: bool, progress: Progress)
      modifies this
      ensures Contents() == FinishGeneral(old(Contents()), t, cleaned, progress)
    {
      if failed || terminalWritten {
        return;
      }
      var sequence := if pendingTerminal.Some? then pendingTerminal.value else lastSequence + 1;
      if progress.NotAppended? {
        return;
      }
      writes := Stored(writes, Write(sequence, true));
      var reaps := cleaned && Proves(t);
      if progress.NotPersisted? {
        return;
      }
      if reaps {
        if progress.NotReaped? {
          return;
        }
        reaped := true;
      }
      terminalWritten := true;
    }
  }
}
