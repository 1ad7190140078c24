/**
 The message table of the store. Rows are never deleted, so a row is known by its
 place in the table, and places are in the order of insertion.
 */
module Messages {
  import opened Options

  datatype Phase = Queued | Preparing | Running | WaitingInput | Cancelling | Terminal

  // What the guard of a task says at the time of an operation.
  datatype Guard = Guard(phase: Phase, closing: bool, stopping: bool)

  datatype MessageState = Waiting | Sending | Delivered | Failed

  datatype Row = Row(id: string, agent: string, steer: bool, content: string, state: MessageState, createdAt: int)

  datatype Error = InvalidState | Conflict

  datatype Result<+T> = Ok(value: T) | Err(error: Error)

  datatype Op =
    | Insert(guard: Guard, id: string, agent: string, mode: string, content: string, now: int)
    | Claim(guard: Guard, agent: string)
    | Complete(id: string)
    | Fail(id: string)

  // ---------- The operations on a table ----------

  // The place of a message id, or the length.
  function Find(rows: seq<Row>, id: string): (i: nat)
    ensures i <= |rows|
    ensures i < |rows| ==> rows[i].id == id
    ensures forall j :: 0 <= j < i ==> rows[j].id != id
  {
    if rows == [] || rows[0].id == id then 0 else 1 + Find(rows[1..], id)
  }

  predicate Accepts(g: Guard) {
    !g.phase.Terminal? && !g.closing && !g.stopping
  }

  predicate MayClaim(g: Guard) {
    (g.phase.Running? || g.phase.WaitingInput?) && !g.closing && !g.stopping
  }

  function Inserted(rows: seq<Row>, g: Guard, id: string, agent: string, mode: string, content: string, now: int)
    : (seq<Row>, Result<bool>)
  {
    if mode != "queue" && mode != "steer" then (rows, Err(InvalidState))
    else if !Accepts(g) then (rows, Err(Conflict))
    else
      var i := Find(rows, id);
      if i == |rows| then (rows + [Row(id, agent, mode == "steer", content, Waiting, now)], Ok(true))
      else if rows[i].agent != agent || rows[i].steer != (mode == "steer") || rows[i].content != content
      then (rows, Err(Conflict))
      else (rows, Ok(false))
  }

  // Steering messages first, then by time of creation, then by place.
  predicate Before(rows: seq<Row>, i: nat, j: nat)
    requires i < |rows| && j < |rows|
  {
    if rows[i].steer != rows[j].steer then rows[i].steer
    else if rows[i].createdAt != rows[j].createdAt then rows[i].createdAt < rows[j].createdAt
    else i < j
  }

  predicate Claimable(rows: seq<Row>, i: nat, agent: string)
    requires i < |rows|
  {
    rows[i].agent == agent && rows[i].state.Waiting?
  }

  // The first of the agent's waiting messages among the first `n` rows, or `n`.
  function First(rows: seq<Row>, agent: string, n: nat): (i: nat)
    requires n <= |rows|
    ensures i <= n
  {
    if n == 0 then 0 else
    var i := First(rows, agent, n - 1);
    if !Claimable(rows, n - 1, agent) then (if i == n - 1 then n else i)
    else if i == n - 1 || Before(rows, n - 1, i) then n - 1
    else i
  }

  function SetState(rows: seq<Row>, i: nat, state: MessageState): seq<Row>
    requires i < |rows|
  {
    rows[i := rows[i].(state := state)]
  }

  function Claimed(rows: seq<Row>, g: Guard, agent: string): (seq<Row>, Option<nat>) {
    var i := First(rows, agent, |rows|);
    if !MayClaim(g) || i == |rows| then (rows, None) else (SetState(rows, i, Sending), Some(i))
  }

  function Completed(rows: seq<Row>, id: string): seq<Row> {
    var i := Find(rows, id);
    if i < |rows| && rows[i].state.Sending? then SetState(rows, i, Delivered) else rows
  }

  function FailedAt(rows: seq<Row>, id: string): seq<Row> {
    var i := Find(rows, id);
    if i < |rows| && (rows[i].state.Waiting? || rows[i].state.Sending?) then SetState(rows, i, Failed) else rows
  }

  function Apply(rows: seq<Row>, op: Op): seq<Row> {
    match op
    case Insert(g, id, agent, mode, content, now) => Inserted(rows, g, id, agent, mode, content, now).0
    case Claim(g, agent) => Claimed(rows, g, agent).0
    case Complete(id) => Completed(rows, id)
    case Fail(id) => FailedAt(rows, id)
  }

  function Run(ops: seq<Op>): seq<Row> {
    if ops == [] then [] else Apply(Run(ops[..|ops| - 1]), ops[|ops| - 1])
  }

  // ---------- What a claim takes ----------

  // The chosen row is claimable, and every other claimable row comes after it.
  lemma {:induction false} FirstIsFirst(rows: seq<Row>, agent: string, n: nat, j: nat)
    requires n <= |rows| && j < n
    ensures
      var i := First(rows, agent, n);
      && (i < n ==> Claimable(rows, i, agent))
      && (Claimable(rows, j, agent) ==> i < n && (i == j || Before(rows, i, j)))
  {
    var before := First(rows, agent, n - 1);
    if n > 1 {
      FirstIsFirst(rows, agent, n - 1, if j < n - 1 then j else 0);
      if before < n - 1 {
        FirstIsFirst(rows, agent, n - 1, before);
      }
    }
  }

  /** A claim takes the one waiting message of the agent that comes before all its
      other waiting messages: a steering message if there is one, and among
      messages of one mode the oldest. */
  lemma {:induction false} ClaimTakesFirst(rows: seq<Row>, g: Guard, agent: string, j: nat)
    requires j < |rows| && Claimable(rows, j, agent)
    ensures
      var (after, taken) := Claimed(rows, g, agent);
      && (taken.Some? <==> MayClaim(g))
      && (taken.None? ==> after == rows)
      && (taken.Some? ==>
            && taken.value < |rows| && Claimable(rows, taken.value, agent)
            && after == SetState(rows, taken.value, Sending)
            && (!rows[taken.value].steer ==> !rows[j].steer)
            && (rows[taken.value].steer == rows[j].steer ==>
                  || rows[taken.value].createdAt < rows[j].createdAt
                  || (rows[taken.value].createdAt == rows[j].createdAt && taken.value <= j)))
  {
    FirstIsFirst(rows, agent, |rows|, j);
  }

  // ---------- What a run keeps ----------

  // The ways a message may go in one operation, and in any number of them.
  predicate Moves(a: MessageState, b: MessageState) {
    a == b || (a.Waiting? && (b.Sending? || b.Failed?)) || (a.Sending? && (b.Delivered? || b.Failed?))
  }

  predicate Follows(a: MessageState, b: MessageState) {
    a == b || a.Waiting? || (a.Sending? && (b.Delivered? || b.Failed?))
  }

  predicate SameContent(a: Row, b: Row) {
    a.id == b.id && a.agent == b.agent && a.steer == b.steer && a.content == b.content && a.createdAt == b.createdAt
  }

  ghost predicate Extends(rows: seq<Row>, later: seq<Row>) {
    && |rows| <= |later|
    && forall i :: 0 <= i < |rows| ==> SameContent(rows[i], later[i]) && Follows(rows[i].state, later[i].state)
  }

  ghost predicate Distinct(rows: seq<Row>) {
    forall i, j :: 0 <= i < j < |rows| ==> rows[i].id != rows[j].id
  }

  // What one operation may do to a table.
  ghost predicate Advances(rows: seq<Row>, later: seq<Row>) {
    && Distinct(later) && Extends(rows, later)
    && forall i :: 0 <= i < |rows| ==> Moves(rows[i].state, later[i].state)
  }

  lemma {:induction false} NothingAdvances(rows: seq<Row>)
    requires Distinct(rows)
    ensures Advances(rows, rows)
  {
  }

  lemma {:induction false} SetStateAdvances(rows: seq<Row>, i: nat, state: MessageState)
    requires Distinct(rows) && i < |rows| && Moves(rows[i].state, state)
    ensures Advances(rows, SetState(rows, i, state))
  {
  }

  lemma {:induction false} InsertAdvances(rows: seq<Row>, row: Row)
    requires Distinct(rows) && Find(rows, row.id) == |rows|
    ensures Advances(rows, rows + [row])
  {
  }

  lemma {:induction false} ApplyKeeps(rows: seq<Row>, op: Op)
    requires Distinct(rows)
    ensures Advances(rows, Apply(rows, op))
  {
    hide Advances, Distinct;
    NothingAdvances(rows);
    match op
    case Insert(g, id, agent, mode, content, now) =>
      if Find(rows, id) == |rows| {
        InsertAdvances(rows, Row(id, agent, mode == "steer", content, Waiting, now));
      }
    case Claim(g, agent) =>
      var i := First(rows, agent, |rows|);
      if i < |rows| {
        FirstIsFirst(rows, agent, |rows|, 0);
        SetStateAdvances(rows, i, Sending);
      }
    case Complete(id) =>
      var i := Find(rows, id);
      if i < |rows| && rows[i].state.Sending? {
        SetStateAdvances(rows, i, Delivered);
      }
    case Fail(id) =>
      var i := Find(rows, id);
      if i < |rows| && (rows[i].state.Waiting? || rows[i].state.Sending?) {
        SetStateAdvances(rows, i, Failed);
      }
  }

  lemma {:induction false} RunDistinct(ops: seq<Op>)
    ensures Distinct(Run(ops))
  {
    if ops != [] {
      RunDistinct(ops[..|ops| - 1]);
      ApplyKeeps(Run(ops[..|ops| - 1]), ops[|ops| - 1]);
    }
  }

  lemma {:induction false} ExtendsTransitive(a: seq<Row>, b: seq<Row>, c: seq<Row>)
    requires Extends(a, b) && Extends(b, c)
    ensures Extends(a, c)
  {
    forall i | 0 <= i < |a| ensures SameContent(a[i], c[i]) && Follows(a[i].state, c[i].state) {
      assert SameContent(b[i], c[i]);
    }
  }

  /** Over any run a message only ever moves from waiting to sending to delivered
      or failed, or from waiting to failed; it never disappears, its id is its
      own, and nothing but its state ever changes. */
  lemma {:induction false} MessagesOnlyMoveForward(ops: seq<Op>, more: seq<Op>)
    ensures Extends(Run(ops), Run(ops + more)) && Distinct(Run(ops + more))
  {
    RunDistinct(ops + more);
    if more == [] {
      assert ops + more == ops;
    } else {
      var all := ops + more;
      var before := all[..|all| - 1];
      assert before == ops + more[..|more| - 1];
      MessagesOnlyMoveForward(ops, more[..|more| - 1]);
      RunDistinct(before);
      ApplyKeeps(Run(before), all[|all| - 1]);
      ExtendsTransitive(Run(ops), Run(before), Run(all));
    }
  }

  // How often the message at place `i` is claimed in a run.
  function Claims(ops: seq<Op>, i: nat): nat {
    if ops == [] then 0 else
    var before, op := ops[..|ops| - 1], ops[|ops| - 1];
    Claims(before, i) + if op.Claim? && Claimed(Run(before), op.guard, op.agent).1 == Some(i) then 1 else 0
  }

  /** A message is claimed at most once, and not at all while it is waiting. */
  lemma {:induction false} ClaimedAtMostOnce(ops: seq<Op>, i: nat)
    ensures Claims(ops, i) <= 1
    ensures Claims(ops, i) == 1 ==> i < |Run(ops)| && !Run(ops)[i].state.Waiting?
  {
    if ops != [] {
      var before, op := ops[..|ops| - 1], ops[|ops| - 1];
      var rows := Run(before);
      ClaimedAtMostOnce(before, i);
      RunDistinct(before);
      ApplyKeeps(rows, op);
      if op.Claim? && Claimed(rows, op.guard, op.agent).1 == Some(i) {
        FirstIsFirst(rows, op.agent, |rows|, 0);
      }
    }
  }

  /** An id stays bound to its content: inserting it again is answered with "no"
      for the same message and refused for any other, and changes nothing. */
  lemma {:induction false} IdStaysBound(
    ops: seq<Op>, i: nat, g: Guard, agent: string, mode: string, content: string, now: int)
    requires i < |Run(ops)| && Accepts(g) && (mode == "queue" || mode == "steer")
    ensures
      var row := Run(ops)[i];
      var (after, r) := Inserted(Run(ops), g, row.id, agent, mode, content, now);
      && after == Run(ops)
      && r == if row.agent == agent && row.steer == (mode == "steer") && row.content == content then Ok(false)
              else Err(Conflict)
  {
    RunDistinct(ops);
    var rows := Run(ops);
    var k := Find(rows, rows[i].id);
    assert k == i;
  }

  // ---------- What each operation does in a run ----------

  lemma {:induction false} RunNext(ops: seq<Op>, op: Op)
    ensures Run(ops + [op]) == Apply(Run(ops), op)
  {
    assert (ops + [op])[..|ops|] == ops;
  }

  lemma {:induction false} Unknown(rows: seq<Row>, id: string)
    requires forall i :: 0 <= i < |rows| ==> rows[i].id != id
    ensures Find(rows, id) == |rows|
  {
  }

  lemma {:induction false} Known(rows: seq<Row>, i: nat)
    requires Distinct(rows) && i < |rows|
    ensures Find(rows, rows[i].id) == i
  {
  }

  /** A new message of a known mode is kept, waiting and as it was given, if the task is
      not over, closing or stopping; otherwise the table stays as it is. */
  lemma {:induction false} InsertedIsKept(
    ops: seq<Op>, g: Guard, id: string, agent: string, mode: string, content: string, now: int)
    requires forall i :: 0 <= i < |Run(ops)| ==> Run(ops)[i].id != id
    ensures
      var (rows, after) := (Run(ops), Run(ops + [Insert(g, id, agent, mode, content, now)]));
      var open := (mode == "queue" || mode == "steer") && g.phase != Terminal && !g.closing && !g.stopping;
      && Inserted(rows, g, id, agent, mode, content, now).1 ==
         (if mode != "queue" && mode != "steer" then Err(InvalidState) else if open then Ok(true) else Err(Conflict))
      && (!open ==> after == rows)
      && (open ==>
            && |after| == |rows| + 1 && after[..|rows|] == rows
            && var row := after[|rows|];
               && row.id == id && row.agent == agent && row.content == content && row.createdAt == now
               && (row.steer <==> mode == "steer") && row.state == Waiting)
  {
    hide Run;
    RunNext(ops, Insert(g, id, agent, mode, content, now));
    Unknown(Run(ops), id);
  }

  /** Completing a message delivers it if it is being sent, failing it fails it unless it
      is done with, and neither touches anything else. */
  lemma {:induction false} MessageEnds(ops: seq<Op>, i: nat)
    requires i < |Run(ops)|
    ensures
      var (rows, id) := (Run(ops), Run(ops)[i].id);
      && Run(ops + [Complete(id)]) ==
         (if rows[i].state == Sending then rows[i := rows[i].(state := Delivered)] else rows)
      && Run(ops + [Fail(id)]) ==
         (if rows[i].state == Sending || rows[i].state == Waiting then rows[i := rows[i].(state := Failed)] else rows)
  {
    hide Run;
    RunDistinct(ops);
    Known(Run(ops), i);
    RunNext(ops, Complete(Run(ops)[i].id));
    RunNext(ops, Fail(Run(ops)[i].id));
  }

  /** A claim sends a message exactly if one of the agent is waiting and its task is
      running, or waiting for input, and neither closing nor stopping; and that message
      and no other is then being sent. */
  lemma {:induction false} ClaimSends(ops: seq<Op>, g: Guard, agent: string)
    ensures
      var (rows, after) := (Run(ops), Run(ops + [Claim(g, agent)]));
      var taken := Claimed(rows, g, agent).1;
      && (taken.Some? <==>
            && (g.phase == Running || g.phase == WaitingInput) && !g.closing && !g.stopping
            && exists i :: 0 <= i < |rows| && rows[i].agent == agent && rows[i].state == Waiting)
      && (taken.None? ==> after == rows)
      && (taken.Some? ==> taken.value < |rows| && after == rows[taken.value := rows[taken.value].(state := Sending)])
  {
    hide Run;
    RunNext(ops, Claim(g, agent));
    var rows := Run(ops);
    if exists i :: 0 <= i < |rows| && rows[i].agent == agent && rows[i].state == Waiting {
      var i :| 0 <= i < |rows| && rows[i].agent == agent && rows[i].state == Waiting;
      FirstIsFirst(rows, agent, |rows|, i);
    } else if |rows| > 0 {
      FirstIsFirst(rows, agent, |rows|, 0);
    }
  }

  // ---------- The table itself ----------

  class MessageTable {
    var rows: seq<Row>

    constructor ()
      ensures rows == []
    {
      rows := [];
    }

    method InsertMessage(g: Guard, id: string, agent: string, mode: string, content: string, now: int)
      returns (r: Result<bool>)
      modifies this
      ensures (rows, r) == Inserted(old(rows), g, id, agent, mode, content, now)
    {
      if mode != "queue" && mode != "steer" {
        return Err(InvalidState);
      }
      if !Accepts(g) {
        return Err(Conflict);
      }
      var i := Find(rows, id);
      if i == |rows| {
        rows := rows + [Row(id, agent, mode == "steer", content, Waiting, now)];
        return Ok(true);
      }
      var existing := rows[i];
      if existing.agent != agent || existing.steer != (mode == "steer") || existing.content != content {
        return Err(Conflict);
      }
      r := Ok(false);
    }

    // The ordered query, row by row, then the update.
    method ClaimNext(g: Guard, agent: string) returns (taken: Option<nat>)
      modifies this
      ensures (rows, taken) == Claimed(old(rows), g, agent)
    {
      if !MayClaim(g) {
        return None;
      }
      var best, n := 0, 0;
      while n < |rows|
        invariant n <= |rows| && rows == old(rows)
        invariant best == First(rows, agent, n)
      {
        if Claimable(rows, n, agent) {
          if best == n || Before(rows, n, best) {
            best := n;
          }
        } else if best == n {
          best := n + 1;
        }
        n := n + 1;
      }
      if best == |rows| {
        return None;
      }
      rows := SetState(rows, best, Sending);
      taken := Some(best);
    }

    method CompleteMessage(id: string) returns (changed: bool)
      modifies this
      ensures rows == Completed(old(rows), id) && (changed <==> rows != old(rows))
    {
      var i := Find(rows, id);
      changed := i < |rows| && rows[i].state.Sending?;
      if changed {
        rows := SetState(rows, i, Delivered);
        assert rows[i] != old(rows)[i];
      }
    }

    method FailMessage(id: string) returns (changed: bool)
      modifies this
      ensures rows == FailedAt(old(rows), id) && (changed <==> rows != old(rows))
    {
      var i := Find(rows, id);
      changed := i < |rows| && (rows[i].state.Waiting? || rows[i].state.Sending?);
      if changed {
        rows := SetState(rows, i, Failed);
        assert rows[i] != old(rows)[i];
      }
    }
  }
}
