/**
 Matching responses to requests: a map from request id to the sender of the
 waiting caller, shared by the callers and the dispatcher thread. A step is one
 critical section or one write.

 A response also says whose request it answers. The program cannot see that; it is
 what the matching is judged by.
 */
module Correlator {
  import opened Options
  import opened ProcessGroups

  type Id = nat
  type Caller = nat

  // What the dispatcher puts into a caller's channel, or the caller ends with.
  datatype Delivery =
    | Answer(id: Id, payload: int, of: Option<Caller>)
    | ChildGone(exit: Exit)
    | StreamClosed
    | WriteFailed
    | Timeout

  // A request of one caller: whether it was written, its channel, and how it ended.
  datatype Request = Request(id: Id, sent: bool, inbox: seq<Delivery>, connected: bool, outcome: Option<Delivery>)

  /** `due` are the requests that are or will be on the wire and are not answered.
      Of the responses that `arrived`, `unmatched` were broadcast to the subscribers
      and `lost` went to a sender whose caller had given up; the rest were put into
      the channel of a waiting caller. */
  datatype State = State(
    nextId: Id, pending: map<Id, Caller>, requests: map<Caller, Request>, due: set<Caller>,
    arrived: seq<Id>, unmatched: seq<Id>, lost: seq<Id>)

  const START := State(1, map[], map[], {}, [], [], [])

  datatype Step =
    | Begins(c: Caller)
    | Reserves
    | BeginsWithId(c: Caller, id: Id)
    | Sends(c: Caller, ok: bool)
    | Arrives(id: Id, payload: int, of: Option<Caller>)
    | ChildExits(exit: Exit)
    | StreamEnds
    | Receives(c: Caller)
    | TimesOut(c: Caller)
    | Cancels(c: Caller)

  predicate Open(s: State, c: Caller) {
    c in s.requests && s.requests[c].outcome.None?
  }

  // Whoever is registered under the id is cut off.
  function Cut(s: State, id: Id): map<Caller, Request> {
    if id in s.pending && s.pending[id] in s.requests
    then s.requests[s.pending[id] := s.requests[s.pending[id]].(connected := false)]
    else s.requests
  }

  // Removing a registration drops the sender, whoever put it there.
  function Ended(s: State, c: Caller, outcome: Delivery): State
    requires c in s.requests
  {
    var id := s.requests[c].id;
    var cut := Cut(s, id);
    s.(requests := cut[c := cut[c].(outcome := Some(outcome))], pending := s.pending - {id})
  }

  // Registering under an id that is taken replaces the sender and still fails.
  function Begin(s: State, c: Caller, id: Id): State {
    if id in s.pending then
      s.(pending := s.pending[id := c], requests := Cut(s, id)[c := Request(id, false, [], false, Some(StreamClosed))])
    else
      s.(
        pending := s.pending[id := c], requests := s.requests[c := Request(id, false, [], true, None)],
        due := s.due + {c})
  }

  function Send(s: State, c: Caller, ok: bool): State
    requires c in s.requests
  {
    if ok then s.(requests := s.requests[c := s.requests[c].(sent := true)])
    else Ended(s.(due := s.due - {c}), c, WriteFailed)
  }

  function Arrive(s: State, id: Id, payload: int, of: Option<Caller>): State {
    var noted := s.(arrived := s.arrived + [id], due := s.due - if of.Some? then {of.value} else {});
    if id !in s.pending then noted.(unmatched := s.unmatched + [id])
    else
      var c := s.pending[id];
      var taken := noted.(pending := s.pending - {id});
      if Open(s, c) then
        taken.(requests := s.requests[c := s.requests[c].(inbox := s.requests[c].inbox + [Answer(id, payload, of)])])
      else taken.(lost := s.lost + [id])
  }

  // Every waiter then registered gets `d`.
  function Drain(s: State, d: Delivery): State {
    s.(
      pending := map[],
      requests := map c | c in s.requests ::
        if c in s.pending.Values && s.requests[c].outcome.None? then s.requests[c].(inbox := s.requests[c].inbox + [d])
        else s.requests[c])
  }

  // A response that claims to answer a request answers one that was written and not yet answered.
  predicate Enabled(s: State, step: Step) {
    match step
    case Begins(c) => c !in s.requests
    case BeginsWithId(c, _) => c !in s.requests
    case Sends(c, _) => Open(s, c) && !s.requests[c].sent
    case Arrives(id, _, of) =>
      of.Some? ==> of.value in s.due && of.value in s.requests && s.requests[of.value].id == id
                   && s.requests[of.value].sent
    case Receives(c) => Open(s, c) && s.requests[c].sent && (s.requests[c].inbox != [] || !s.requests[c].connected)
    case TimesOut(c) => Open(s, c) && s.requests[c].sent
    case Cancels(c) => Open(s, c) && s.requests[c].sent
    case _ => true
  }

  function Next(s: State, step: Step): State
    requires Enabled(s, step)
  {
    match step
    case Begins(c) => Begin(s.(nextId := s.nextId + 1), c, s.nextId)
    case Reserves => s.(nextId := s.nextId + 1)
    case BeginsWithId(c, id) => Begin(s, c, id)
    case Sends(c, ok) => Send(s, c, ok)
    case Arrives(id, payload, of) => Arrive(s, id, payload, of)
    case ChildExits(exit) => Drain(s, ChildGone(exit))
    case StreamEnds => Drain(s, StreamClosed)
    case Receives(c) =>
      Ended(s, c, if s.requests[c].inbox != [] then s.requests[c].inbox[0] else StreamClosed)
    case TimesOut(c) => Ended(s, c, Timeout)
    case Cancels(c) => Ended(s, c, StreamClosed)
  }

  function RunFrom(s: State, steps: seq<Step>): State {
    if steps == [] then s else
    var before, step := RunFrom(s, steps[..|steps| - 1]), steps[|steps| - 1];
    if Enabled(before, step) then Next(before, step) else before
  }

  function Run(steps: seq<Step>): State {
    RunFrom(START, steps)
  }

  // ---------- What every run keeps, whatever the ids ----------

  // Whoever is registered has nothing in its channel yet.
  ghost predicate Registered(s: State, id: Id)
    requires id in s.pending
  {
    s.pending[id] in s.requests && s.requests[s.pending[id]].id == id && s.requests[s.pending[id]].inbox == []
  }

  ghost predicate Fed(r: Request) {
    && |r.inbox| <= 1
    && (r.inbox != [] && r.inbox[0].Answer? ==> r.inbox[0].id == r.id)
    && (r.outcome.Some? && r.outcome.value.Answer? ==> r.inbox == [r.outcome.value])
  }

  ghost predicate IsDue(s: State, d: Caller) {
    d in s.requests && (s.requests[d].sent || s.requests[d].outcome.None?)
  }

  ghost predicate Held(s: State) {
    && (forall id :: id in s.pending ==> Registered(s, id))
    && (forall c :: c in s.requests ==> Fed(s.requests[c]))
    && (forall d :: d in s.due ==> IsDue(s, d))
  }

  lemma {:induction false} CutKeeps(s: State, id: Id)
    ensures Cut(s, id).Keys == s.requests.Keys
    ensures forall c :: c in s.requests ==> Cut(s, id)[c] == s.requests[c].(connected := Cut(s, id)[c].connected)
  {
  }

  lemma {:induction false} EndedHeld(s: State, c: Caller, outcome: Delivery)
    requires Held(s) && Open(s, c) && (outcome.Answer? ==> s.requests[c].inbox == [outcome])
    requires c in s.due ==> s.requests[c].sent
    ensures Held(Ended(s, c, outcome))
  {
    hide Cut;
    CutKeeps(s, s.requests[c].id);
    var next := Ended(s, c, outcome);
    forall i | i in next.pending ensures Registered(next, i) {
      assert Registered(s, i);
    }
    assert Fed(s.requests[c]);
  }

  lemma {:induction false} BeginHeld(s: State, c: Caller, id: Id)
    requires Held(s) && c !in s.requests
    ensures Held(Begin(s, c, id))
  {
    hide Cut;
    CutKeeps(s, id);
    var next := Begin(s, c, id);
    forall i | i in next.pending ensures Registered(next, i) {
      if i != id {
        assert Registered(s, i);
      }
    }
  }

  lemma {:induction false} ArriveHeld(s: State, id: Id, payload: int, of: Option<Caller>)
    requires Held(s)
    ensures Held(Arrive(s, id, payload, of))
  {
    var next := Arrive(s, id, payload, of);
    if id in s.pending {
      assert Registered(s, id);
    }
    forall i | i in next.pending ensures Registered(next, i) {
      assert Registered(s, i);
    }
  }

  lemma {:induction false} DrainHeld(s: State, d: Delivery)
    requires Held(s) && !d.Answer?
    ensures Held(Drain(s, d))
  {
    var next := Drain(s, d);
    forall c | c in next.requests ensures Fed(next.requests[c]) {
      assert Fed(s.requests[c]);
      if c in s.pending.Values {
        var id :| id in s.pending && s.pending[id] == c;
        assert Registered(s, id);
      }
    }
    forall e | e in next.due ensures IsDue(next, e) {
      assert IsDue(s, e);
    }
  }

  lemma {:induction false} NextHeld(s: State, step: Step)
    requires Held(s) && Enabled(s, step)
    ensures Held(Next(s, step))
  {
    hide Cut, Drain, Arrive, Begin, Ended;
    match step
    case Begins(c) => BeginHeld(s.(nextId := s.nextId + 1), c, s.nextId);
    case Reserves =>
    case BeginsWithId(c, id) => BeginHeld(s, c, id);
    case Sends(c, ok) =>
      if ok {
        SentHeld(s, c);
      } else {
        EndedHeld(s.(due := s.due - {c}), c, WriteFailed);
      }
    case Arrives(id, payload, of) => ArriveHeld(s, id, payload, of);
    case ChildExits(exit) => DrainHeld(s, ChildGone(exit));
    case StreamEnds => DrainHeld(s, StreamClosed);
    case Receives(c) =>
      var r := s.requests[c];
      assert Fed(r);
      if r.inbox != [] {
        assert r.inbox == [r.inbox[0]];
      }
      EndedHeld(s, c, if r.inbox != [] then r.inbox[0] else StreamClosed);
    case TimesOut(c) => EndedHeld(s, c, Timeout);
    case Cancels(c) => EndedHeld(s, c, StreamClosed);
  }

  lemma {:induction false} SentHeld(s: State, c: Caller)
    requires Held(s) && c in s.requests
    ensures Held(Send(s, c, true))
  {
    var next := Send(s, c, true);
    forall i | i in next.pending ensures Registered(next, i) {
      assert Registered(s, i);
    }
    assert Fed(s.requests[c]);
  }

  lemma {:induction false} RunHeld(steps: seq<Step>)
    ensures Held(Run(steps))
  {
    hide Held, Next, Enabled;
    if steps == [] {
      StartHeld();
    } else {
      RunHeld(steps[..|steps| - 1]);
      var s := Run(steps[..|steps| - 1]);
      if Enabled(s, steps[|steps| - 1]) {
        NextHeld(s, steps[|steps| - 1]);
      }
    }
  }

  lemma {:induction false} StartHeld()
    ensures Held(START)
  {
  }

  // ---------- Where responses go ----------

  // The callers in whose channel an answer was put, whether they took it or not.
  function Answered(s: State): set<Caller> {
    set c | c in s.requests && s.requests[c].inbox != [] && s.requests[c].inbox[0].Answer?
  }

  predicate Balanced(s: State) {
    |s.arrived| == |s.unmatched| + |s.lost| + |Answered(s)|
  }

  // Channels hold what they held.
  lemma {:induction false} SameAnswered(s: State, t: State)
    requires forall c :: c in s.requests ==> c in t.requests && t.requests[c].inbox == s.requests[c].inbox
    requires forall c :: c in t.requests ==> c in s.requests || t.requests[c].inbox == []
    ensures Answered(t) == Answered(s)
  {
  }

  lemma {:induction false} ArriveBalanced(s: State, id: Id, payload: int, of: Option<Caller>)
    requires Held(s) && Balanced(s)
    ensures Balanced(Arrive(s, id, payload, of))
  {
    var next := Arrive(s, id, payload, of);
    if id in s.pending && Open(s, s.pending[id]) {
      assert Registered(s, id);
      assert Answered(next) == Answered(s) + {s.pending[id]};
    } else {
      assert Answered(next) == Answered(s);
    }
  }

  lemma {:induction false} DrainBalanced(s: State, d: Delivery)
    requires Held(s) && Balanced(s) && !d.Answer?
    ensures Balanced(Drain(s, d))
  {
    var next := Drain(s, d);
    forall c | c in s.requests ensures c in Answered(next) <==> c in Answered(s) {
      if c in s.pending.Values {
        var id :| id in s.pending && s.pending[id] == c;
        assert Registered(s, id);
      }
    }
    assert Answered(next) == Answered(s);
  }

  lemma {:induction false} BeginBalanced(s: State, c: Caller, id: Id)
    requires Balanced(s) && c !in s.requests
    ensures Balanced(Begin(s, c, id))
  {
    hide Answered, Cut;
    CutKeeps(s, id);
    SameAnswered(s, Begin(s, c, id));
  }

  lemma {:induction false} EndedBalanced(s: State, c: Caller, outcome: Delivery)
    requires Balanced(s) && c in s.requests
    ensures Balanced(Ended(s, c, outcome))
  {
    hide Answered, Cut;
    CutKeeps(s, s.requests[c].id);
    SameAnswered(s, Ended(s, c, outcome));
  }

  lemma {:induction false} SendBalanced(s: State, c: Caller, ok: bool)
    requires Balanced(s) && c in s.requests
    ensures Balanced(Send(s, c, ok))
  {
    hide Answered, Cut, Ended;
    if ok {
      SameAnswered(s, Send(s, c, ok));
    } else {
      SameAnswered(s, s.(due := s.due - {c}));
      EndedBalanced(s.(due := s.due - {c}), c, WriteFailed);
    }
  }

  lemma {:induction false} NextBalanced(s: State, step: Step)
    requires Held(s) && Balanced(s) && Enabled(s, step)
    ensures Balanced(Next(s, step))
  {
    hide Held, Answered, Drain, Arrive, Cut, Begin, Ended, Send;
    match step
    case Begins(c) =>
      SameAnswered(s, s.(nextId := s.nextId + 1));
      BeginBalanced(s.(nextId := s.nextId + 1), c, s.nextId);
    case Reserves => SameAnswered(s, s.(nextId := s.nextId + 1));
    case BeginsWithId(c, id) => BeginBalanced(s, c, id);
    case Sends(c, ok) => SendBalanced(s, c, ok);
    case Arrives(id, payload, of) => ArriveBalanced(s, id, payload, of);
    case ChildExits(exit) => DrainBalanced(s, ChildGone(exit));
    case StreamEnds => DrainBalanced(s, StreamClosed);
    case Receives(c) => EndedBalanced(s, c, if s.requests[c].inbox != [] then s.requests[c].inbox[0] else StreamClosed);
    case TimesOut(c) => EndedBalanced(s, c, Timeout);
    case Cancels(c) => EndedBalanced(s, c, StreamClosed);
  }

  /** Every response that arrives goes to exactly one place, whatever the ids: it is
      broadcast, it is lost on a sender whose caller had given up, or it is put into
      the channel of one caller. No channel ever holds two deliveries. */
  lemma {:induction false} ResponsesAreAccounted(steps: seq<Step>)
    ensures Balanced(Run(steps))
    ensures forall c :: c in Run(steps).requests ==> |Run(steps).requests[c].inbox| <= 1
  {
    hide Held, Next, Enabled, Balanced;
    RunHeld(steps);
    assert forall c :: c in Run(steps).requests ==> |Run(steps).requests[c].inbox| <= 1 by {
      HeldMeansOne(Run(steps));
    }
    if steps == [] {
      StartBalanced();
    } else {
      var before := steps[..|steps| - 1];
      ResponsesAreAccounted(before);
      RunHeld(before);
      if Enabled(Run(before), steps[|steps| - 1]) {
        NextBalanced(Run(before), steps[|steps| - 1]);
      }
    }
  }

  lemma {:induction false} StartBalanced()
    ensures Balanced(START)
  {
  }

  lemma {:induction false} HeldMeansOne(s: State)
    requires Held(s)
    ensures forall c :: c in s.requests ==> |s.requests[c].inbox| <= 1
  {
    forall c | c in s.requests ensures |s.requests[c].inbox| <= 1 {
      assert Fed(s.requests[c]);
    }
  }

  // ---------- Beginning under an id ----------

  /** Beginning a request leaves every other request and registration alone exactly
      when the id is not pending; and exactly then the next response under the id
      reaches the caller. Otherwise the waiting caller is cut off, the new one fails,
      and the response is lost. */
  lemma {:induction false} BeginsCleanlyIff(steps: seq<Step>, c: Caller, id: Id, payload: int, of: Option<Caller>)
    requires c !in Run(steps).requests
    ensures
      var s := Run(steps);
      var begun := Begin(s, c, id);
      var next := Arrive(begun, id, payload, of);
      && ((&& (forall d :: d in s.requests ==> d in begun.requests && begun.requests[d] == s.requests[d])
           && (forall i :: i in s.pending ==> i in begun.pending && begun.pending[i] == s.pending[i]))
          <==> id !in s.pending)
      && (next.requests[c].inbox == [Answer(id, payload, of)] <==> id !in s.pending)
      && (id in s.pending ==>
            && s.pending[id] in begun.requests && !begun.requests[s.pending[id]].connected
            && begun.requests[c] == Request(id, false, [], false, Some(StreamClosed)) && next.lost == s.lost + [id])
  {
    hide Run;
    RunHeld(steps);
    var s := Run(steps);
    if id in s.pending {
      assert Registered(s, id);
      assert Begin(s, c, id).pending[id] != s.pending[id];
    }
  }

  // ---------- Whose answer a caller gets ----------

  // Every response answers a request: none is unasked for, none comes twice.
  predicate Solicited(steps: seq<Step>) {
    forall i :: 0 <= i < |steps| && steps[i].Arrives? ==> steps[i].of.Some?
  }

  // Whatever answer the caller was given is the answer to its own request.
  ghost predicate OnlyOwn(s: State, c: Caller) {
    && c in s.requests
    && (forall i :: 0 <= i < |s.requests[c].inbox| && s.requests[c].inbox[i].Answer? ==>
          s.requests[c].inbox[i].of == Some(c))
    && (s.requests[c].outcome.Some? && s.requests[c].outcome.value.Answer? ==>
          s.requests[c].outcome.value.of == Some(c))
  }

  // Nobody else's answer is due under the id while the caller is registered there.
  ghost predicate Alone(s: State, c: Caller) {
    && OnlyOwn(s, c)
    && (s.requests[c].id in s.pending && s.pending[s.requests[c].id] == c ==>
          forall d :: d in s.due && d in s.requests && s.requests[d].id == s.requests[c].id ==> d == c)
  }

  lemma {:induction false} BeginAlone(s: State, d: Caller, id: Id, c: Caller)
    requires Alone(s, c) && d !in s.requests
    ensures Alone(Begin(s, d, id), c)
  {
    hide Cut;
    CutKeeps(s, id);
  }

  lemma {:induction false} EndedAlone(s: State, d: Caller, outcome: Delivery, c: Caller)
    requires Alone(s, c) && Open(s, d) && (outcome.Answer? ==> s.requests[d].inbox == [outcome])
    ensures Alone(Ended(s, d, outcome), c)
  {
    hide Cut;
    CutKeeps(s, s.requests[d].id);
    if outcome.Answer? {
      assert s.requests[d].inbox[0] == outcome;
    }
  }

  lemma {:induction false} ArriveAlone(s: State, id: Id, payload: int, of: Caller, c: Caller)
    requires Held(s) && Alone(s, c) && Enabled(s, Arrives(id, payload, Some(of)))
    ensures Alone(Arrive(s, id, payload, Some(of)), c)
  {
    if id in s.pending {
      assert Registered(s, id);
    }
  }

  lemma {:induction false} NextAlone(s: State, step: Step, c: Caller)
    requires Held(s) && Enabled(s, step) && Alone(s, c) && (step.Arrives? ==> step.of.Some?)
    ensures Alone(Next(s, step), c)
  {
    hide Cut, Drain, Arrive, Begin, Ended;
    match step
    case Begins(d) => BeginAlone(s.(nextId := s.nextId + 1), d, s.nextId, c);
    case Reserves =>
    case BeginsWithId(d, id) => BeginAlone(s, d, id, c);
    case Sends(d, ok) =>
      if !ok {
        EndedAlone(s.(due := s.due - {d}), d, WriteFailed, c);
      }
    case Arrives(id, payload, of) => ArriveAlone(s, id, payload, of.value, c);
    case ChildExits(exit) => DrainAlone(s, ChildGone(exit), c);
    case StreamEnds => DrainAlone(s, StreamClosed, c);
    case Receives(d) =>
      var r := s.requests[d];
      assert Fed(r);
      if r.inbox != [] {
        assert r.inbox == [r.inbox[0]];
      }
      EndedAlone(s, d, if r.inbox != [] then r.inbox[0] else StreamClosed, c);
    case TimesOut(d) => EndedAlone(s, d, Timeout, c);
    case Cancels(d) => EndedAlone(s, d, StreamClosed, c);
  }

  lemma {:induction false} DrainAlone(s: State, d: Delivery, c: Caller)
    requires Alone(s, c) && !d.Answer?
    ensures Alone(Drain(s, d), c)
  {
  }

  lemma {:induction false} RunFromAlone(s: State, more: seq<Step>, c: Caller)
    requires Held(s) && Alone(s, c) && Solicited(more)
    ensures Held(RunFrom(s, more)) && Alone(RunFrom(s, more), c)
  {
    hide Held, Alone, Next, Enabled;
    if more != [] {
      RunFromAlone(s, more[..|more| - 1], c);
      var t := RunFrom(s, more[..|more| - 1]);
      if Enabled(t, more[|more| - 1]) {
        NextHeld(t, more[|more| - 1]);
        NextAlone(t, more[|more| - 1], c);
      }
    }
  }

  // No answer to an earlier request under the id is still due.
  ghost predicate Settled(s: State, id: Id) {
    forall d :: d in s.due && d in s.requests ==> s.requests[d].id != id
  }

  // An earlier request under the id is written, if it was not, and answered.
  function Interference(s: State, d: Caller): seq<Step>
    requires d in s.requests
  {
    (if s.requests[d].sent then [] else [Sends(d, true)]) + [Arrives(s.requests[d].id, 0, Some(d))]
  }

  lemma {:induction false} InterferenceMisleads(s: State, c: Caller, id: Id, d: Caller)
    requires Held(s) && c !in s.requests && id !in s.pending
    requires d in s.due && d in s.requests && s.requests[d].id == id
    ensures Solicited(Interference(s, d))
    ensures !OnlyOwn(RunFrom(Begin(s, c, id), Interference(s, d)), c)
  {
    assert IsDue(s, d);
    var begun, last := Begin(s, c, id), Arrives(id, 0, Some(d));
    var steps := Interference(s, d);
    var t := if s.requests[d].sent then begun else Send(begun, d, true);
    assert RunFrom(begun, []) == begun;
    if s.requests[d].sent {
      assert steps == [last] && steps[..0] == [];
    } else {
      OneStep(begun, Sends(d, true));
      assert steps == [Sends(d, true), last] && steps[..1] == [Sends(d, true)];
    }
    assert RunFrom(begun, steps[..|steps| - 1]) == t && steps[|steps| - 1] == last;
    assert Enabled(t, last);
    assert t.pending[id] == c && Open(t, c) && t.requests[c].inbox == [];
    assert RunFrom(begun, steps) == Arrive(t, id, 0, Some(d));
    assert RunFrom(begun, steps).requests[c].inbox[0] == Answer(id, 0, Some(d));
  }

  lemma {:induction false} OneStep(s: State, step: Step)
    requires Enabled(s, step)
    ensures RunFrom(s, [step]) == Next(s, step)
  {
    assert [step][..0] == [];
    assert RunFrom(s, []) == s;
  }

  /** Whose answer a caller gets. Let a caller begin under an id that is not pending.
      Then in every continuation in which responses answer requests, any answer it is
      given is its own, if and only if no answer to an earlier request under that id
      was still due. In particular an id that was never used is safe, and so is one
      whose requests were all answered or never written; the id of a request that
      timed out is not. */
  lemma {:induction false} OwnAnswerIff(steps: seq<Step>, c: Caller, id: Id)
    requires c !in Run(steps).requests && id !in Run(steps).pending
    ensures
      (forall more :: Solicited(more) ==> OnlyOwn(RunFrom(Begin(Run(steps), c, id), more), c))
      <==> Settled(Run(steps), id)
  {
    hide Run, RunFrom, Held, Begin, OnlyOwn;
    RunHeld(steps);
    var s := Run(steps);
    if Settled(s, id) {
      BeginHeld(s, c, id);
      SettledIsAlone(s, c, id);
      forall more | Solicited(more) ensures OnlyOwn(RunFrom(Begin(s, c, id), more), c) {
        RunFromAlone(Begin(s, c, id), more, c);
      }
    } else {
      var d :| d in s.due && d in s.requests && s.requests[d].id == id;
      InterferenceMisleads(s, c, id, d);
    }
  }

  lemma {:induction false} SettledIsAlone(s: State, c: Caller, id: Id)
    requires c !in s.requests && id !in s.pending && Settled(s, id)
    ensures Alone(Begin(s, c, id), c)
  {
  }

  // ---------- What becomes of a delivery ----------

  lemma {:induction false} RunNext(steps: seq<Step>, step: Step)
    ensures Run(steps + [step]) == if Enabled(Run(steps), step) then Next(Run(steps), step) else Run(steps)
  {
    assert (steps + [step])[..|steps|] == steps;
  }

  // What a caller makes of the delivery `d` in its channel, by its own steps: the first
  // of them decides.
  function Verdict(more: seq<Step>, c: Caller, d: Delivery): Option<Delivery> {
    if more == [] then None else
    var before, last := Verdict(more[..|more| - 1], c, d), more[|more| - 1];
    if before.Some? then before
    else if last == Receives(c) then Some(d)
    else if last == TimesOut(c) then Some(Timeout)
    else if last == Cancels(c) then Some(StreamClosed)
    else None
  }

  // The caller has been given `d` and has come to `outcome`.
  ghost predicate Given(s: State, c: Caller, d: Delivery, outcome: Option<Delivery>) {
    && c in s.requests && s.requests[c].sent && s.requests[c].inbox == [d] && s.requests[c].outcome == outcome
  }

  lemma {:induction false} BeginGiven(s: State, x: Caller, id: Id, c: Caller, d: Delivery, outcome: Option<Delivery>)
    requires Given(s, c, d, outcome) && x !in s.requests
    ensures Given(Begin(s, x, id), c, d, outcome)
  {
    hide Cut;
    CutKeeps(s, id);
  }

  lemma {:induction false} EndedGiven(
    s: State, x: Caller, end: Delivery, c: Caller, d: Delivery, outcome: Option<Delivery>)
    requires Given(s, c, d, outcome) && Open(s, x)
    ensures Given(Ended(s, x, end), c, d, if x == c then Some(end) else outcome)
  {
    hide Cut;
    CutKeeps(s, s.requests[x].id);
  }

  // Nothing more is put into the channel of a caller that has been given something.
  lemma {:induction false} DeliverGiven(
    s: State, id: Id, payload: int, of: Option<Caller>, e: Delivery, c: Caller, d: Delivery, outcome: Option<Delivery>)
    requires Held(s) && Given(s, c, d, outcome)
    ensures Given(Arrive(s, id, payload, of), c, d, outcome) && Given(Drain(s, e), c, d, outcome)
  {
    forall i | i in s.pending ensures s.pending[i] != c {
      assert Registered(s, i);
    }
  }

  lemma {:induction false} NextGiven(s: State, step: Step, c: Caller, d: Delivery, outcome: Option<Delivery>)
    requires Held(s) && Enabled(s, step) && Given(s, c, d, outcome)
    ensures Given(Next(s, step), c, d, if outcome.Some? then outcome else Verdict([step], c, d))
  {
    hide Cut, Drain, Arrive, Begin, Ended, Held;
    assert [step][..0] == [];
    match step
    case Begins(x) => BeginGiven(s.(nextId := s.nextId + 1), x, s.nextId, c, d, outcome);
    case Reserves =>
    case BeginsWithId(x, id) => BeginGiven(s, x, id, c, d, outcome);
    case Sends(x, ok) =>
      if !ok {
        EndedGiven(s.(due := s.due - {x}), x, WriteFailed, c, d, outcome);
      }
    case Arrives(id, payload, of) => DeliverGiven(s, id, payload, of, StreamClosed, c, d, outcome);
    case ChildExits(exit) => DeliverGiven(s, 0, 0, None, ChildGone(exit), c, d, outcome);
    case StreamEnds => DeliverGiven(s, 0, 0, None, StreamClosed, c, d, outcome);
    case Receives(x) =>
      EndedGiven(s, x, if s.requests[x].inbox != [] then s.requests[x].inbox[0] else StreamClosed, c, d, outcome);
    case TimesOut(x) => EndedGiven(s, x, Timeout, c, d, outcome);
    case Cancels(x) => EndedGiven(s, x, StreamClosed, c, d, outcome);
  }

  /** What is put into the channel of a caller is what it ends with. Let a caller whose
      request was written have been given `d`. Then whatever happens, and whatever ids
      are used, its channel holds `d` alone, and it ends with `d` exactly if it receives
      before it times out or is dropped; it ends by its own steps only, and once. */
  lemma {:induction false} DeliveryDecides(steps: seq<Step>, more: seq<Step>, c: Caller, d: Delivery)
    requires Given(Run(steps), c, d, None)
    ensures Given(Run(steps + more), c, d, Verdict(more, c, d))
  {
    hide Run, Held, Next, Enabled, Given;
    if more == [] {
      assert steps + more == steps;
    } else {
      var before, last := more[..|more| - 1], more[|more| - 1];
      DeliveryDecides(steps, before, c, d);
      RunHeld(steps + before);
      assert steps + more == steps + before + [last];
      RunNext(steps + before, last);
      assert [last][..0] == [];
      if Enabled(Run(steps + before), last) {
        NextGiven(Run(steps + before), last, c, d, Verdict(before, c, d));
      } else {
        OwnStepIsEnabled(Run(steps + before), last, c, d, Verdict(before, c, d));
      }
    }
  }

  lemma {:induction false} OwnStepIsEnabled(s: State, step: Step, c: Caller, d: Delivery, outcome: Option<Delivery>)
    requires Given(s, c, d, outcome) && !Enabled(s, step)
    ensures outcome.Some? || (step != Receives(c) && step != TimesOut(c) && step != Cancels(c))
  {
  }

  // ---------- A caller that is over, and a request that is answered ----------

  // What nobody can change about a caller that is over.
  ghost predicate Over(s: State, c: Caller, r: Request) {
    && c in s.requests && s.requests[c].outcome.Some?
    && s.requests[c] == r.(connected := s.requests[c].connected)
  }

  lemma {:induction false} NextOver(s: State, step: Step, c: Caller, r: Request)
    requires Enabled(s, step) && Over(s, c, r)
    ensures Over(Next(s, step), c, r)
  {
    hide Cut;
    if step.Begins? {
      CutKeeps(s.(nextId := s.nextId + 1), s.nextId);
    } else if step.BeginsWithId? {
      CutKeeps(s, step.id);
    } else if step.Sends? {
      CutKeeps(s.(due := s.due - {step.c}), s.requests[step.c].id);
    } else if step.Receives? || step.TimesOut? || step.Cancels? {
      CutKeeps(s, s.requests[step.c].id);
    }
  }

  /** A caller that has come to an end keeps it, and is given nothing any more, in any
      run and whatever ids are used. */
  lemma {:induction false} OverIsOver(steps: seq<Step>, more: seq<Step>, c: Caller)
    requires c in Run(steps).requests && Run(steps).requests[c].outcome.Some?
    ensures Over(Run(steps + more), c, Run(steps).requests[c])
  {
    hide Run, Next, Enabled;
    if more == [] {
      assert steps + more == steps;
    } else {
      var before, last := more[..|more| - 1], more[|more| - 1];
      OverIsOver(steps, before, c);
      assert steps + more == steps + before + [last];
      RunNext(steps + before, last);
      if Enabled(Run(steps + before), last) {
        NextOver(Run(steps + before), last, c, Run(steps).requests[c]);
      }
    }
  }

  // The answers to the request of `c` in a run.
  function AnswersTo(steps: seq<Step>, c: Caller): nat {
    if steps == [] then 0 else
    var before, last := steps[..|steps| - 1], steps[|steps| - 1];
    AnswersTo(before, c) + if last.Arrives? && last.of == Some(c) && Enabled(Run(before), last) then 1 else 0
  }

  /** A request is answered at most once, and only after it was written. */
  lemma {:induction false} AnsweredAtMostOnce(steps: seq<Step>, c: Caller)
    ensures AnswersTo(steps, c) <= 1
    ensures AnswersTo(steps, c) == 1 ==>
              c in Run(steps).requests && Run(steps).requests[c].sent && c !in Run(steps).due
  {
    hide Cut;
    if steps != [] {
      var before, last := steps[..|steps| - 1], steps[|steps| - 1];
      AnsweredAtMostOnce(before, c);
      if Enabled(Run(before), last) {
        DueShrinks(Run(before), last, c);
      }
    }
  }

  lemma {:induction false} DueShrinks(s: State, step: Step, c: Caller)
    requires Enabled(s, step)
    ensures c in s.requests ==>
              && c in Next(s, step).requests && (c !in s.due ==> c !in Next(s, step).due)
              && (s.requests[c].sent ==> Next(s, step).requests[c].sent)
    ensures step.Arrives? && step.of == Some(c) ==>
              c in Next(s, step).requests && Next(s, step).requests[c].sent && c !in Next(s, step).due
  {
    hide Cut;
    if c in s.requests {
      NextIds(s, step, c);
    }
  }

  // ---------- Fresh ids ----------

  // An id that has been handed out and that no request has used.
  ghost predicate Unused(s: State, id: Id) {
    id < s.nextId && forall c :: c in s.requests ==> s.requests[c].id != id
  }

  ghost predicate Fresh(s: State, step: Step) {
    step.BeginsWithId? ==> Unused(s, step.id)
  }

  // No request of the run was begun under an id used before.
  ghost predicate FreshRun(steps: seq<Step>) {
    steps == [] || (FreshRun(steps[..|steps| - 1]) && Fresh(Run(steps[..|steps| - 1]), steps[|steps| - 1]))
  }

  // Every id is used once, and whoever waits is registered under its own.
  ghost predicate Matched(s: State) {
    && (forall id :: id in s.pending ==> Open(s, s.pending[id]) && s.requests[s.pending[id]].connected)
    && (forall c :: c in s.requests ==> s.requests[c].id < s.nextId)
    && (forall c :: Open(s, c) && s.requests[c].inbox == [] ==>
          s.requests[c].id in s.pending && s.pending[s.requests[c].id] == c)
    && (forall c, d :: c in s.requests && d in s.requests && s.requests[c].id == s.requests[d].id ==> c == d)
    && s.lost == []
  }

  lemma {:induction false} BeginMatched(s: State, c: Caller, id: Id)
    requires Held(s) && Matched(s) && c !in s.requests && Unused(s, id)
    ensures Matched(Begin(s, c, id)) && id !in s.pending
  {
    forall i | i in s.pending ensures i != id {
      assert Registered(s, i);
    }
  }

  // Under an id of its own a caller ends alone.
  lemma {:induction false} EndsAlone(s: State, c: Caller, outcome: Delivery)
    requires Held(s) && Matched(s) && Open(s, c)
    ensures
      var (id, next) := (s.requests[c].id, Ended(s, c, outcome));
      && c in next.requests && next.requests == s.requests[c := next.requests[c]]
      && next.requests[c].id == id && next.requests[c].outcome.Some?
      && next.pending == s.pending - {id} && (forall i :: i in next.pending ==> s.pending[i] != c)
  {
    hide Fed, IsDue;
    var id := s.requests[c].id;
    if id in s.pending {
      assert Registered(s, id);
    }
    forall i | i in s.pending && i != id ensures s.pending[i] != c {
      assert Registered(s, i);
    }
  }

  lemma {:induction false} EndedMatched(s: State, c: Caller, outcome: Delivery)
    requires Held(s) && Matched(s) && Open(s, c)
    ensures Matched(Ended(s, c, outcome))
  {
    hide Ended, Held;
    EndsAlone(s, c, outcome);
    EndedBooks(s, c, outcome);
  }

  lemma {:induction false} EndedBooks(s: State, c: Caller, outcome: Delivery)
    requires c in s.requests
    ensures Ended(s, c, outcome).lost == s.lost && Ended(s, c, outcome).nextId == s.nextId
  {
    hide Cut;
    CutKeeps(s, s.requests[c].id);
  }

  lemma {:induction false} ArriveMatched(s: State, id: Id, payload: int, of: Option<Caller>)
    requires Held(s) && Matched(s)
    ensures Matched(Arrive(s, id, payload, of))
  {
    if id in s.pending {
      assert Registered(s, id);
    }
    forall i | i in s.pending && i != id && id in s.pending ensures s.pending[i] != s.pending[id] {
      assert Registered(s, i);
    }
  }

  lemma {:induction false} DrainMatched(s: State, d: Delivery)
    requires Matched(s)
    ensures Matched(Drain(s, d))
    ensures forall c :: Open(s, c) && s.requests[c].inbox == [] ==> Drain(s, d).requests[c].inbox == [d]
  {
    forall c | Open(s, c) && s.requests[c].inbox == [] ensures c in s.pending.Values {
      assert s.pending[s.requests[c].id] == c;
    }
  }

  lemma {:induction false} LaterMatched(s: State, t: State)
    requires Matched(s) && t.pending == s.pending && t.requests == s.requests && t.lost == s.lost
    requires s.nextId <= t.nextId
    ensures Matched(t)
  {
  }

  lemma {:induction false} BeginsMatched(s: State, c: Caller)
    requires Held(s) && Matched(s) && c !in s.requests
    ensures Matched(Begin(s.(nextId := s.nextId + 1), c, s.nextId))
  {
    hide Begin, Held;
    var later := s.(nextId := s.nextId + 1);
    HeldAlike(s, later);
    LaterMatched(s, later);
    BeginMatched(later, c, s.nextId);
  }

  lemma {:induction false} SendMatched(s: State, c: Caller, ok: bool)
    requires Held(s) && Matched(s) && Open(s, c)
    ensures Matched(Send(s, c, ok))
  {
    hide Ended, Held;
    if !ok {
      HeldAlike(s, s.(due := s.due - {c}));
      EndedMatched(s.(due := s.due - {c}), c, WriteFailed);
    }
  }

  lemma {:induction false} NextMatched(s: State, step: Step)
    requires Held(s) && Matched(s) && Enabled(s, step) && Fresh(s, step)
    ensures Matched(Next(s, step))
  {
    hide Cut, Drain, Arrive, Begin, Ended, Send, Held, Matched;
    match step
    case Begins(c) => BeginsMatched(s, c);
    case Reserves => LaterMatched(s, s.(nextId := s.nextId + 1));
    case BeginsWithId(c, id) => BeginMatched(s, c, id);
    case Sends(c, ok) => SendMatched(s, c, ok);
    case Arrives(id, payload, of) => ArriveMatched(s, id, payload, of);
    case ChildExits(exit) => DrainMatched(s, ChildGone(exit));
    case StreamEnds => DrainMatched(s, StreamClosed);
    case Receives(c) => EndedMatched(s, c, if s.requests[c].inbox != [] then s.requests[c].inbox[0] else StreamClosed);
    case TimesOut(c) => EndedMatched(s, c, Timeout);
    case Cancels(c) => EndedMatched(s, c, StreamClosed);
  }

  lemma {:induction false} HeldAlike(s: State, t: State)
    requires Held(s) && t.pending == s.pending && t.requests == s.requests && t.due <= s.due
    ensures Held(t)
  {
    forall i | i in t.pending ensures Registered(t, i) {
      assert Registered(s, i);
    }
    forall d | d in t.due ensures IsDue(t, d) {
      assert IsDue(s, d);
    }
  }

  lemma {:induction false} RunMatched(steps: seq<Step>)
    requires FreshRun(steps)
    ensures Held(Run(steps)) && Matched(Run(steps))
  {
    hide Held, Matched, Fresh, Next, Enabled;
    RunHeld(steps);
    if steps == [] {
      StartMatched();
    } else {
      var before := steps[..|steps| - 1];
      RunMatched(before);
      if Enabled(Run(before), steps[|steps| - 1]) {
        NextMatched(Run(before), steps[|steps| - 1]);
      }
    }
  }

  lemma {:induction false} StartMatched()
    ensures Matched(START)
  {
  }

  /** With fresh ids a response is routed exactly once: to the one caller that
      waits for its id, or to the subscribers if nobody does. None is lost. */
  lemma {:induction false} RoutedOnce(steps: seq<Step>, id: Id, payload: int, of: Option<Caller>)
    requires FreshRun(steps)
    ensures
      var s := Run(steps);
      var next := Arrive(s, id, payload, of);
      && next.lost == []
      && id !in next.pending
      && (id in s.pending ==>
            var c := s.pending[id];
            && Open(s, c) && s.requests[c].id == id
            && next.requests == s.requests[c := s.requests[c].(inbox := [Answer(id, payload, of)])]
            && next.unmatched == s.unmatched)
      && (id !in s.pending ==> next.requests == s.requests && next.unmatched == s.unmatched + [id])
      && (forall c :: Open(s, c) && s.requests[c].id == id && s.requests[c].inbox == [] ==>
            id in s.pending && s.pending[id] == c)
  {
    hide Run, FreshRun;
    RunMatched(steps);
    var s := Run(steps);
    if id in s.pending {
      assert Registered(s, id);
      assert s.requests[s.pending[id]].inbox + [Answer(id, payload, of)] == [Answer(id, payload, of)];
    }
  }

  // The caller's request was written and nothing has come back yet.
  ghost predicate Awaits(s: State, c: Caller) {
    Open(s, c) && s.requests[c].sent && s.requests[c].inbox == []
  }

  /** With fresh ids a request that is waiting when its response arrives ends with that
      response, if it receives it before it gives up; whatever happens in between. */
  lemma {:induction false} AnswerIsReturned(steps: seq<Step>, more: seq<Step>, c: Caller, payload: int)
    requires FreshRun(steps) && Awaits(Run(steps), c)
    requires Enabled(Run(steps), Arrives(Run(steps).requests[c].id, payload, Some(c)))
    ensures
      var id := Run(steps).requests[c].id;
      var (arrival, answer) := (Arrives(id, payload, Some(c)), Answer(id, payload, Some(c)));
      Given(Run(steps + [arrival] + more), c, answer, Verdict(more, c, answer))
  {
    hide Run, FreshRun, Next;
    var id := Run(steps).requests[c].id;
    RoutedOnce(steps, id, payload, Some(c));
    RunNext(steps, Arrives(id, payload, Some(c)));
    ArrivesNext(Run(steps), id, payload, Some(c));
    DeliveryDecides(steps + [Arrives(id, payload, Some(c))], more, c, Answer(id, payload, Some(c)));
  }

  lemma {:induction false} ArrivesNext(s: State, id: Id, payload: int, of: Option<Caller>)
    requires Enabled(s, Arrives(id, payload, of))
    ensures Next(s, Arrives(id, payload, of)) == Arrive(s, id, payload, of)
  {
    hide Arrive;
  }

  /** And one that is waiting when the child exits, or when the stream ends, ends with
      that. */
  lemma {:induction false} EndIsReturned(steps: seq<Step>, more: seq<Step>, c: Caller, end: Step)
    requires FreshRun(steps) && Awaits(Run(steps), c) && (end.ChildExits? || end.StreamEnds?)
    ensures
      var d := if end.ChildExits? then ChildGone(end.exit) else StreamClosed;
      Given(Run(steps + [end] + more), c, d, Verdict(more, c, d))
  {
    hide Run, FreshRun, Drain;
    var d := if end.ChildExits? then ChildGone(end.exit) else StreamClosed;
    RunMatched(steps);
    DrainMatched(Run(steps), d);
    DrainKeeps(Run(steps), d, c);
    RunNext(steps, end);
    DeliveryDecides(steps + [end], more, c, d);
  }

  lemma {:induction false} DrainKeeps(s: State, d: Delivery, c: Caller)
    requires c in s.requests
    ensures
      var next := Drain(s, d).requests;
      c in next && next[c] == s.requests[c].(inbox := next[c].inbox)
  {
  }

  /** A request that cannot be written ends with the failure of the write, and one that
      was cut off before anything came ends with a closed stream once it looks. */
  lemma {:induction false} FailureIsReturned(steps: seq<Step>, c: Caller)
    requires Open(Run(steps), c)
    ensures
      var r := Run(steps).requests[c];
      && (!r.sent ==>
            var next := Run(steps + [Sends(c, false)]).requests;
            c in next && next[c].outcome == Some(WriteFailed))
      && (r.sent && r.inbox == [] && !r.connected ==>
            var next := Run(steps + [Receives(c)]).requests;
            c in next && next[c].outcome == Some(StreamClosed))
      && (r.sent && r.inbox == [] ==>
            var next := Run(steps + [TimesOut(c)]).requests;
            c in next && next[c].outcome == Some(Timeout))
  {
    hide Run, Cut;
    var s := Run(steps);
    RunNext(steps, Sends(c, false));
    RunNext(steps, Receives(c));
    RunNext(steps, TimesOut(c));
    CutKeeps(s, s.requests[c].id);
    CutKeeps(s.(due := s.due - {c}), s.requests[c].id);
  }

  /** With fresh ids, and a runtime that answers requests, every answer a caller ends
      with is the answer to its own request. */
  lemma {:induction false} NoForeignResponse(steps: seq<Step>, c: Caller)
    requires FreshRun(steps) && Solicited(steps) && c in Run(steps).requests
    ensures OnlyOwn(Run(steps), c)
  {
    hide Held, Matched, Fresh, Next, Enabled, OnlyOwn;
    if steps != [] {
      var before, step := steps[..|steps| - 1], steps[|steps| - 1];
      var s := Run(before);
      RunMatched(before);
      if Enabled(s, step) {
        if c in s.requests {
          NoForeignResponse(before, c);
          MatchedIsAlone(s, c);
          NextAlone(s, step, c);
        } else {
          NewIsOwn(s, step, c);
        }
      } else {
        NoForeignResponse(before, c);
      }
    }
  }

  lemma {:induction false} MatchedIsAlone(s: State, c: Caller)
    requires Matched(s) && OnlyOwn(s, c)
    ensures Alone(s, c)
  {
  }

  lemma {:induction false} NewIsOwn(s: State, step: Step, c: Caller)
    requires Enabled(s, step) && c !in s.requests && c in Next(s, step).requests
    ensures OnlyOwn(Next(s, step), c)
  {
    hide Cut;
    if step.Begins? {
      CutKeeps(s.(nextId := s.nextId + 1), s.nextId);
    } else if step.BeginsWithId? {
      CutKeeps(s, step.id);
    } else if step.Sends? {
      CutKeeps(s.(due := s.due - {step.c}), s.requests[step.c].id);
    } else if step.Receives? || step.TimesOut? || step.Cancels? {
      CutKeeps(s, s.requests[step.c].id);
    }
  }

  // An id under which nobody can be registered again, as long as ids stay fresh.
  ghost predicate Retired(s: State, id: Id) {
    id !in s.pending && exists c :: c in s.requests && s.requests[c].id == id
  }

  // No step forgets a request or changes its id.
  lemma {:induction false} NextIds(s: State, step: Step, c: Caller)
    requires Enabled(s, step) && c in s.requests
    ensures c in Next(s, step).requests && Next(s, step).requests[c].id == s.requests[c].id
    ensures s.requests[c].sent ==> Next(s, step).requests[c].sent
  {
    hide Cut;
    if step.Begins? {
      CutKeeps(s.(nextId := s.nextId + 1), s.nextId);
    } else if step.BeginsWithId? {
      CutKeeps(s, step.id);
    } else if step.Sends? {
      CutKeeps(s.(due := s.due - {step.c}), s.requests[step.c].id);
    } else if step.Receives? || step.TimesOut? || step.Cancels? {
      CutKeeps(s, s.requests[step.c].id);
    }
  }

  // Only the beginning of a request registers an id.
  lemma {:induction false} NextPending(s: State, step: Step, id: Id)
    requires Enabled(s, step) && id !in s.pending
    ensures id in Next(s, step).pending ==> (step.Begins? && id == s.nextId) || (step.BeginsWithId? && id == step.id)
  {
    hide Cut, Open;
  }

  lemma {:induction false} RetiredStays(s: State, step: Step, id: Id)
    requires Matched(s) && Enabled(s, step) && Fresh(s, step) && Retired(s, id)
    ensures Retired(Next(s, step), id)
  {
    hide Next, Enabled;
    var c :| c in s.requests && s.requests[c].id == id;
    NextIds(s, step, c);
    NextPending(s, step, id);
  }

  /** A duplicate is always unmatched: once a response was routed to a caller,
      every later response under the same id is broadcast instead. */
  lemma {:induction false} DuplicatesAreUnmatched(
    steps: seq<Step>, more: seq<Step>, id: Id, payload: int, of: Option<Caller>)
    requires FreshRun(steps + [Arrives(id, payload, of)] + more) && FreshRun(steps)
    requires id in Run(steps).pending && Enabled(Run(steps), Arrives(id, payload, of))
    ensures Retired(Run(steps + [Arrives(id, payload, of)] + more), id)
  {
    hide Held, Matched, Fresh, Next, Enabled, Retired;
    var first := steps + [Arrives(id, payload, of)];
    if more == [] {
      assert first + more == first;
      assert first[..|first| - 1] == steps;
      RunMatched(steps);
      ArriveRetires(Run(steps), id, payload, of);
    } else {
      var all := first + more;
      var before := all[..|all| - 1];
      assert before == first + more[..|more| - 1];
      DuplicatesAreUnmatched(steps, more[..|more| - 1], id, payload, of);
      RunMatched(before);
      if Enabled(Run(before), all[|all| - 1]) {
        RetiredStays(Run(before), all[|all| - 1], id);
      }
    }
  }

  lemma {:induction false} ArriveRetires(s: State, id: Id, payload: int, of: Option<Caller>)
    requires Held(s) && id in s.pending && Enabled(s, Arrives(id, payload, of))
    ensures Retired(Next(s, Arrives(id, payload, of)), id)
  {
    assert Registered(s, id);
    var next := Next(s, Arrives(id, payload, of));
    assert s.pending[id] in next.requests && next.requests[s.pending[id]].id == id;
  }

  /** The exit of the child fails every caller then registered, and leaves nobody
      registered. */
  lemma {:induction false} ExitFailsEveryWaiter(steps: seq<Step>, exit: Exit, c: Caller)
    requires FreshRun(steps) && Open(Run(steps), c) && Run(steps).requests[c].inbox == []
    ensures
      var next := Drain(Run(steps), ChildGone(exit));
      next.pending == map[] && c in next.requests && next.requests[c].inbox == [ChildGone(exit)]
  {
    hide Run, FreshRun;
    RunMatched(steps);
    DrainMatched(Run(steps), ChildGone(exit));
  }

  // ---------- Ids that are not fresh ----------

  // A request begun under the id of one that is waiting.
  function Reused(): State {
    Next(Next(Next(START, Begins(0)), Sends(0, true)), BeginsWithId(1, 1))
  }

  /** Reusing an id that is pending loses the response: the first caller is cut
      off, the second fails, and the answer reaches neither of them nor the
      subscribers. */
  lemma {:induction false} ReuseLosesResponse(payload: int)
    ensures Enabled(Reused(), Arrives(1, payload, Some(0)))
    ensures
      var s := Next(Reused(), Arrives(1, payload, Some(0)));
      && s.lost == [1] && s.unmatched == []
      && s.requests[0].inbox == [] && !s.requests[0].connected && s.requests[1].outcome == Some(StreamClosed)
  {
  }

  // A request begun under the id of one that timed out unanswered.
  function Late(): State {
    Next(Next(Next(Next(START, Begins(0)), Sends(0, true)), TimesOut(0)), BeginsWithId(1, 1))
  }

  /** Reusing an id after a timeout hands the late answer to the wrong caller. */
  lemma {:induction false} ReuseMisdelivers(payload: int)
    ensures Enabled(Late(), Arrives(1, payload, Some(0)))
    ensures Next(Late(), Arrives(1, payload, Some(0))).requests[1].inbox == [Answer(1, payload, Some(0))]
  {
  }
}
