/**
 One stop at a time: callers of a stop either perform it or park until the one
 under way is decided. The gate is a mutex and a condition variable around a
 small state; a step is what one thread does between taking and releasing the
 mutex. A parked thread may also wake without having been notified.
 */
module StopGate {
  import opened Options
  import opened ProcessGroups

  datatype StopState =
    | Running(generation: nat)
    | Stopping(generation: nat, waiters: nat)
    | Failed(generation: nat, failure: Error, waiters: nat)
    | Stopped(outcome: StopOutcome)

  /** Where a caller is. `Queued` waits for the waiters of a failed stop to
      leave; `Waiting` is counted as a waiter of one generation. A caller that
      came back knows the generation it performed or waited for, if any. */
  datatype Thread =
    | Performing(generation: nat)
    | Queued
    | Waiting(generation: nat)
    | Back(asked: Option<nat>, result: Result<StopOutcome>)

  type Id = nat

  // `results` remembers how each generation ended; nothing reads it but the proof.
  datatype Gate = Gate(
    state: StopState, threads: map<Id, Thread>, notified: set<Id>, results: map<nat, Result<StopOutcome>>)

  predicate Parked(th: Thread) {
    th.Queued? || th.Waiting?
  }

  // ---------- Steps ----------

  function Moved(g: Gate, t: Id, th: Thread): Gate {
    g.(threads := g.threads[t := th], notified := g.notified - {t})
  }

  function NotifyAll(g: Gate): Gate {
    g.(notified := set t | t in g.threads && Parked(g.threads[t]))
  }

  // One round of the outer loop of a caller.
  function Try(g: Gate, t: Id): Gate {
    match g.state
    case Stopped(outcome) => Moved(g, t, Back(None, Ok(outcome)))
    case Running(generation) =>
      Moved(g.(state := Stopping(generation + 1, 0)), t, Performing(generation + 1))
    case Failed(generation, _, waiters) =>
      if waiters == 0 then Moved(g.(state := Stopping(generation + 1, 0)), t, Performing(generation + 1))
      else Moved(g, t, Queued)
    case Stopping(generation, waiters) =>
      Moved(g.(state := Stopping(generation, waiters + 1)), t, Waiting(generation))
  }

  // A counted waiter of `mine` wakes up.
  function Resume(g: Gate, t: Id, mine: nat): Gate {
    match g.state
    case Stopped(outcome) => Moved(g, t, Back(Some(mine), Ok(outcome)))
    case Failed(generation, failure, waiters) =>
      if generation != mine then Try(g, t) else
      var left := if waiters == 0 then 0 else waiters - 1;
      var gone := Moved(g.(state := Failed(generation, failure, left)), t, Back(Some(mine), Err(failure)));
      if left == 0 then NotifyAll(gone) else gone
    case Stopping(generation, _) =>
      if generation == mine then Moved(g, t, Waiting(mine)) else Try(g, t)
    case Running(_) => Try(g, t)
  }

  function Finish(g: Gate, t: Id, mine: nat, result: Result<StopOutcome>): Gate {
    var waiters := if g.state.Stopping? && g.state.generation == mine then g.state.waiters else 0;
    var state :=
      match result case Ok(outcome) => Stopped(outcome) case Err(failure) => Failed(mine, failure, waiters);
    NotifyAll(Moved(
      g.(state := state, results := g.results[mine := result]), t, Back(Some(mine), result)))
  }

  datatype Step = Call(t: Id) | Wake(t: Id) | Decide(t: Id, result: Result<StopOutcome>)

  predicate Enabled(g: Gate, s: Step) {
    match s
    case Call(t) => t in g.threads ==> g.threads[t].Back?
    case Wake(t) => t in g.threads && Parked(g.threads[t])
    case Decide(t, _) => t in g.threads && g.threads[t].Performing?
  }

  function Next(g: Gate, s: Step): Gate
    requires Enabled(g, s)
  {
    match s
    case Call(t) => Try(g, t)
    case Wake(t) => if g.threads[t].Queued? then Try(g, t) else Resume(g, t, g.threads[t].generation)
    case Decide(t, result) => Finish(g, t, g.threads[t].generation, result)
  }

  function Start(): Gate {
    Gate(Running(0), map[], {}, map[])
  }

  // ---------- What always holds ----------

  function Waiters(threads: map<Id, Thread>): set<Id> {
    set t | t in threads && threads[t].Waiting?
  }

  // The thread is where the state of the gate says threads may be.
  ghost predicate Fits(g: Gate, t: Id)
    requires t in g.threads
  {
    match g.threads[t]
    case Performing(generation) => g.state.Stopping? && g.state.generation == generation
    case Waiting(generation) =>
      || (g.state.Stopping? && g.state.generation == generation)
      || (g.state.Failed? && g.state.generation == generation && g.state.waiters > 0 && t in g.notified)
      || (&& g.state.Stopped? && t in g.notified
          && generation in g.results && g.results[generation] == Ok(g.state.outcome))
    case Queued =>
      || t in g.notified
      || g.state.Stopping?
      || (g.state.Failed? && g.state.waiters > 0)
    case Back(asked, result) =>
      && (result.Ok? ==> g.state == Stopped(result.value))
      && (result.Err? ==> asked.Some?)
      && (asked.Some? ==> asked.value in g.results && g.results[asked.value] == result)
  }

  // At most one thread performs a stop, and one does while the gate says so.
  function Performers(threads: map<Id, Thread>): set<Id> {
    set t | t in threads && threads[t].Performing?
  }

  ghost predicate AllFit(g: Gate) {
    forall t :: t in g.threads ==> Fits(g, t)
  }

  // One performer while stopping and none otherwise; as many waiters as counted.
  ghost predicate Counted(g: Gate) {
    && |Performers(g.threads)| == (if g.state.Stopping? then 1 else 0)
    && (g.state.Running? ==> Waiters(g.threads) == {})
    && (g.state.Stopping? || g.state.Failed? ==> |Waiters(g.threads)| == g.state.waiters)
  }

  // Generations are tried once each, in order, and fail until one succeeds.
  ghost predicate Recorded(g: Gate) {
    && (g.state.Failed? ==>
          g.state.generation in g.results && g.results[g.state.generation] == Err(g.state.failure))
    && (!g.state.Stopped? ==> forall n :: n in g.results ==> g.results[n].Err? && n <= g.state.generation)
    && (g.state.Stopping? || g.state.Running? ==> g.state.generation !in g.results)
    && (g.state.Stopped? ==> exists n :: n in g.results && g.results[n] == Ok(g.state.outcome))
  }

  ghost predicate Inv(g: Gate) {
    AllFit(g) && Counted(g) && Recorded(g)
  }

  lemma {:induction false} StartInv()
    ensures Inv(Start())
  {
  }

  // ---------- Counting ----------

  lemma {:induction false} CountMoved(threads: map<Id, Thread>, t: Id, th: Thread)
    ensures Waiters(threads[t := th]) == Waiters(threads) - {t} + (if th.Waiting? then {t} else {})
    ensures Performers(threads[t := th]) == Performers(threads) - {t} + (if th.Performing? then {t} else {})
    ensures t in Waiters(threads) <==> t in threads && threads[t].Waiting?
    ensures t in Performers(threads) <==> t in threads && threads[t].Performing?
  {
  }

  // A thread that neither waits nor performs takes a new place.
  lemma {:induction false} CountAdded(threads: map<Id, Thread>, t: Id, th: Thread)
    requires t in threads ==> threads[t].Back? || threads[t].Queued?
    ensures |Waiters(threads[t := th])| == |Waiters(threads)| + if th.Waiting? then 1 else 0
    ensures |Performers(threads[t := th])| == |Performers(threads)| + if th.Performing? then 1 else 0
    ensures !th.Waiting? ==> Waiters(threads[t := th]) == Waiters(threads)
  {
    hide Waiters, Performers;
    CountMoved(threads, t, th);
    assert Waiters(threads) - {t} == Waiters(threads) && Performers(threads) - {t} == Performers(threads);
  }

  lemma {:induction false} TryCounted(g: Gate, t: Id)
    requires Counted(g) && (t in g.threads ==> g.threads[t].Back? || g.threads[t].Queued?)
    ensures Counted(Try(g, t))
  {
    hide Waiters, Performers;
    CountAdded(g.threads, t, Try(g, t).threads[t]);
  }

  lemma {:induction false} ResumeCounted(g: Gate, t: Id)
    requires AllFit(g) && Counted(g) && t in g.threads && g.threads[t].Waiting?
    ensures Counted(Resume(g, t, g.threads[t].generation))
  {
    hide Waiters, Performers;
    var next := Resume(g, t, g.threads[t].generation);
    assert Fits(g, t);
    CountMoved(g.threads, t, next.threads[t]);
  }

  lemma {:induction false} FinishCounted(g: Gate, t: Id, result: Result<StopOutcome>)
    requires AllFit(g) && Counted(g) && t in g.threads && g.threads[t].Performing?
    ensures Counted(Finish(g, t, g.threads[t].generation, result))
  {
    hide Waiters, Performers;
    assert Fits(g, t);
    CountMoved(g.threads, t, Back(Some(g.threads[t].generation), result));
  }

  // ---------- Every thread fits ----------

  // Nobody performs outside a stop, and a counted waiter keeps the count above zero.
  lemma {:induction false} CountsTell(g: Gate, u: Id)
    requires Counted(g) && u in g.threads
    ensures g.threads[u].Performing? ==> g.state.Stopping?
    ensures g.threads[u].Waiting? ==>
              !g.state.Running? && (g.state.Stopping? || g.state.Failed? ==> g.state.waiters > 0)
  {
    if g.threads[u].Performing? {
      assert u in Performers(g.threads);
    }
    if g.threads[u].Waiting? {
      assert u in Waiters(g.threads);
    }
  }

  lemma {:induction false} TryFits(g: Gate, t: Id)
    requires Inv(g) && (t in g.threads ==> g.threads[t].Back? || g.threads[t].Queued?)
    ensures AllFit(Try(g, t)) && Recorded(Try(g, t))
  {
    hide Counted;
    var next := Try(g, t);
    forall u | u in next.threads ensures Fits(next, u) {
      if u != t {
        assert Fits(g, u);
        CountsTell(g, u);
      }
    }
  }

  lemma {:induction false} ResumeFits(g: Gate, t: Id)
    requires Inv(g) && t in g.threads && g.threads[t].Waiting?
    ensures
      var next := Resume(g, t, g.threads[t].generation);
      AllFit(next) && Recorded(next)
  {
    hide Counted;
    var next := Resume(g, t, g.threads[t].generation);
    assert Fits(g, t);
    CountsTell(g, t);
    forall u | u in next.threads ensures Fits(next, u) {
      if u != t {
        assert Fits(g, u);
        LastWaiter(g, t, u);
      }
    }
  }

  // When the count is one, there is no other waiter.
  lemma {:induction false} LastWaiter(g: Gate, t: Id, u: Id)
    requires Counted(g) && t in g.threads && u in g.threads && t != u && g.threads[t].Waiting?
    ensures g.threads[u].Waiting? && (g.state.Stopping? || g.state.Failed?) ==> g.state.waiters > 1
  {
    if g.threads[u].Waiting? {
      assert {t, u} <= Waiters(g.threads);
      SubsetSize({t, u}, Waiters(g.threads));
    }
  }

  lemma {:induction false} SubsetSize(a: set<Id>, b: set<Id>)
    requires a <= b
    ensures |a| <= |b|
  {
    assert |b - a| == |b| - |a|;
  }

  lemma {:induction false} FinishFits(g: Gate, t: Id, result: Result<StopOutcome>)
    requires Inv(g) && t in g.threads && g.threads[t].Performing?
    ensures
      var next := Finish(g, t, g.threads[t].generation, result);
      AllFit(next) && Recorded(next)
  {
    hide Counted;
    var next := Finish(g, t, g.threads[t].generation, result);
    assert Fits(g, t);
    assert next.results[g.threads[t].generation] == result;
    forall u | u in next.threads ensures Fits(next, u) {
      if u != t {
        assert Fits(g, u);
        CountsTell(g, u);
        OnePerformer(g, t, u);
      }
    }
  }

  lemma {:induction false} OnePerformer(g: Gate, t: Id, u: Id)
    requires Counted(g) && t in g.threads && u in g.threads && t != u && g.threads[t].Performing?
    ensures !g.threads[u].Performing?
  {
    if g.threads[u].Performing? {
      assert {t, u} <= Performers(g.threads);
      SubsetSize({t, u}, Performers(g.threads));
    }
  }

  // ---------- Whole runs ----------

  lemma {:induction false} NextInv(g: Gate, s: Step)
    requires Inv(g) && Enabled(g, s)
    ensures Inv(Next(g, s))
  {
    hide AllFit, Counted, Recorded;
    match s
    case Call(t) =>
      TryCounted(g, t);
      TryFits(g, t);
    case Wake(t) =>
      if g.threads[t].Queued? {
        TryCounted(g, t);
        TryFits(g, t);
      } else {
        ResumeCounted(g, t);
        ResumeFits(g, t);
      }
    case Decide(t, result) =>
      FinishCounted(g, t, result);
      FinishFits(g, t, result);
  }

  // A run of the gate; a step that is not possible is not taken.
  function Run(steps: seq<Step>): Gate {
    if steps == [] then Start() else
    var g, s := Run(steps[..|steps| - 1]), steps[|steps| - 1];
    if Enabled(g, s) then Next(g, s) else g
  }

  lemma {:induction false} RunInv(steps: seq<Step>)
    ensures Inv(Run(steps))
  {
    hide Inv;
    if steps == [] {
      StartInv();
    } else {
      var g, s := Run(steps[..|steps| - 1]), steps[|steps| - 1];
      RunInv(steps[..|steps| - 1]);
      if Enabled(g, s) {
        NextInv(g, s);
      }
    }
  }

  /** In every run at most one thread performs a stop, and while the gate is
      stopping or failed its count is the number of threads parked on exactly
      that generation. */
  lemma {:induction false} SingleFlight(steps: seq<Step>, t: Id, u: Id)
    requires t in Run(steps).threads && u in Run(steps).threads
    ensures
      var g := Run(steps);
      && (g.threads[t].Performing? && g.threads[u].Performing? ==> t == u)
      && (g.threads[t].Performing? ==> g.state.Stopping? && g.state.generation == g.threads[t].generation)
      && (g.state.Stopping? || g.state.Failed? ==>
            |Waiters(g.threads)| == g.state.waiters
            && (g.threads[t].Waiting? ==> g.threads[t].generation == g.state.generation))
  {
    RunInv(steps);
    var g := Run(steps);
    assert Fits(g, t);
    if g.threads[t].Performing? && t != u {
      OnePerformer(g, t, u);
    }
  }

  /** A waiter that wakes finds the gate stopped, or its own generation failed or
      still under way; no later attempt can have started before it came back. So
      the arm that sends it back to the beginning is never taken. */
  lemma {:induction false} WaiterIsNeverPassedOver(steps: seq<Step>, t: Id)
    requires t in Run(steps).threads && Run(steps).threads[t].Waiting?
    ensures
      var g := Run(steps);
      g.state.Stopped? || ((g.state.Failed? || g.state.Stopping?) && g.state.generation == g.threads[t].generation)
  {
    RunInv(steps);
    assert Fits(Run(steps), t);
  }

  /** Every caller comes back with the outcome of the stop it performed or waited
      for (`CameBackFrom`): success is one and the same for all and final, and a
      failure is that of its own generation. */
  lemma {:induction false} CallersAgree(steps: seq<Step>, t: Id, u: Id)
    requires t in Run(steps).threads && Run(steps).threads[t].Back?
    requires u in Run(steps).threads && Run(steps).threads[u].Back?
    ensures
      var (g, r, r') := (Run(steps), Run(steps).threads[t].result, Run(steps).threads[u].result);
      && (r.Ok? ==> g.state == Stopped(r.value))
      && (r.Ok? && r'.Ok? ==> r == r')
      && (r.Err? ==> g.threads[t].asked.Some?)
      && (g.threads[t].asked.Some? ==>
            g.threads[t].asked.value in g.results && g.results[g.threads[t].asked.value] == r)
  {
    RunInv(steps);
    assert Fits(Run(steps), t);
    assert Fits(Run(steps), u);
  }

  // The one more step of a run.
  lemma {:induction false} RunNext(steps: seq<Step>, step: Step)
    ensures Run(steps + [step]) == if Enabled(Run(steps), step) then Next(Run(steps), step) else Run(steps)
  {
    assert (steps + [step])[..|steps|] == steps;
  }

  // Only a thread that performed or waited for a generation comes back from it.
  lemma {:induction false} ComesBackFrom(g: Gate, step: Step, t: Id, n: nat)
    requires Enabled(g, step)
    requires
      var next := Next(g, step);
      t in next.threads && next.threads[t].Back? && next.threads[t].asked == Some(n)
    ensures t in g.threads
    ensures g.threads[t] == Next(g, step).threads[t] || g.threads[t] == Performing(n) || g.threads[t] == Waiting(n)
  {
  }

  /** Whoever comes back from a generation performed it or waited for it, in the very
      call it came back from: since then it has been back all the time. */
  lemma {:induction false} CameBackFrom(steps: seq<Step>, t: Id, n: nat) returns (i: nat)
    requires
      var g := Run(steps);
      t in g.threads && g.threads[t].Back? && g.threads[t].asked == Some(n)
    ensures i < |steps| && t in Run(steps[..i]).threads
    ensures Run(steps[..i]).threads[t] == Performing(n) || Run(steps[..i]).threads[t] == Waiting(n)
    ensures forall j :: i < j <= |steps| ==>
              t in Run(steps[..j]).threads && Run(steps[..j]).threads[t] == Run(steps).threads[t]
  {
    hide Next, Enabled;
    assert steps != [] by { NobodyAtStart(); }
    var before, last := steps[..|steps| - 1], steps[|steps| - 1];
    assert before + [last] == steps;
    RunNext(before, last);
    var g := Run(before);
    if Enabled(g, last) {
      ComesBackFrom(g, last, t, n);
    }
    assert steps[..|steps|] == steps;
    if g.threads[t] == Run(steps).threads[t] {
      i := CameBackFrom(before, t, n);
      assert forall j :: 0 <= j <= |before| ==> steps[..j] == before[..j];
    } else {
      i := |steps| - 1;
    }
  }

  lemma {:induction false} NobodyAtStart()
    ensures Run([]).threads == map[]
  {
  }

  /** A gate is never used up by failures: while it is not stopped and no stop is under
      way and nobody is still leaving a failed one, the next caller performs a stop of
      the next generation, and so does the next queued thread that wakes. In particular
      a call performs a stop whenever everybody is back. */
  lemma {:induction false} FailedStopIsRetried(steps: seq<Step>, step: Step)
    requires step.Call? || step.Wake?
    requires Enabled(Run(steps), step) && !Run(steps).state.Stopped? && !Run(steps).state.Stopping?
    requires step.Wake? ==> Run(steps).threads[step.t].Queued?
    requires Waiters(Run(steps).threads) == {}
    ensures
      var (g, next) := (Run(steps), Run(steps + [step]));
      && step.t in next.threads && next.threads[step.t] == Performing(g.state.generation + 1)
      && next.state == Stopping(g.state.generation + 1, 0)
  {
    hide Run;
    RunInv(steps);
    RunNext(steps, step);
  }

  lemma {:induction false} IdleGateIsTried(steps: seq<Step>, t: Id)
    requires forall u :: u in Run(steps).threads ==> Run(steps).threads[u].Back?
    ensures
      var (g, next) := (Run(steps), Run(steps + [Call(t)]));
      && t in next.threads
      && (match g.state
          case Stopped(outcome) => next.threads[t] == Back(None, Ok(outcome))
          case Stopping(_, _) => false
          case _ => next.threads[t] == Performing(g.state.generation + 1))
  {
    hide Run;
    RunInv(steps);
    RunNext(steps, Call(t));
    var g := Run(steps);
    assert Waiters(g.threads) == {} && Performers(g.threads) == {};
    if !g.state.Stopped? {
      FailedStopIsRetried(steps, Call(t));
    }
  }

  /** A stop that is decided reaches everybody it concerns: its performer is back with
      the result at once, and whoever waited for it once it wakes. */
  lemma {:induction false} DecisionReachesAll(steps: seq<Step>, t: Id, result: Result<StopOutcome>)
    requires t in Run(steps).threads && Run(steps).threads[t].Performing?
    ensures
      var (n, next) := (Run(steps).threads[t].generation, Run(steps + [Decide(t, result)]));
      && next.threads[t] == Back(Some(n), result) && n in next.results && next.results[n] == result
      && (forall u :: u in Run(steps).threads && Run(steps).threads[u].Waiting? ==>
            u in next.threads && next.threads[u] == Waiting(n) && u in next.notified)
  {
    hide Run;
    RunInv(steps);
    RunNext(steps, Decide(t, result));
    assert Fits(Run(steps), t);
    forall u | u in Run(steps).threads && Run(steps).threads[u].Waiting?
      ensures Run(steps).threads[u] == Waiting(Run(steps).threads[t].generation)
    {
      assert Fits(Run(steps), u);
    }
  }

  lemma {:induction false} WaiterComesBack(steps: seq<Step>, t: Id)
    requires t in Run(steps).threads && Run(steps).threads[t].Waiting?
    ensures
      var (g, n) := (Run(steps), Run(steps).threads[t].generation);
      var next := Run(steps + [Wake(t)]);
      t in next.threads && next.threads[t] == if n in g.results then Back(Some(n), g.results[n]) else Waiting(n)
  {
    hide Run;
    RunInv(steps);
    RunNext(steps, Wake(t));
    assert Fits(Run(steps), t);
  }

  /** A success that is shared was performed: some generation came to it. */
  lemma {:induction false} SuccessWasPerformed(steps: seq<Step>, t: Id)
    requires t in Run(steps).threads && Run(steps).threads[t].Back? && Run(steps).threads[t].result.Ok?
    ensures
      var g := Run(steps);
      exists n :: n in g.results && g.results[n] == g.threads[t].result
  {
    RunInv(steps);
    assert Fits(Run(steps), t);
  }

  // Only a successful performer stops a gate, and nobody opens it again.
  lemma {:induction false} OnlySuccessStops(g: Gate, s: Step)
    requires Inv(g) && Enabled(g, s)
    ensures g.state.Stopped? ==> Next(g, s).state == g.state
    ensures Next(g, s).state.Stopped? ==>
              g.state.Stopped? || (s.Decide? && s.result == Ok(Next(g, s).state.outcome))
  {
    if s.Decide? {
      CountsTell(g, s.t);
    }
  }

  /** A gate once stopped stays stopped with the same outcome. */
  lemma {:induction false} StoppedIsFinal(steps: seq<Step>, more: seq<Step>)
    requires Run(steps).state.Stopped?
    ensures Run(steps + more).state == Run(steps).state
  {
    if more == [] {
      assert steps + more == steps;
    } else {
      var all := steps + more;
      assert all[..|all| - 1] == steps + more[..|more| - 1];
      StoppedIsFinal(steps, more[..|more| - 1]);
      var g, s := Run(all[..|all| - 1]), all[|all| - 1];
      if Enabled(g, s) {
        RunInv(all[..|all| - 1]);
        OnlySuccessStops(g, s);
      }
    }
  }

  // The thread would come back or start performing if it woke now.
  predicate CouldProceed(g: Gate, t: Id)
    requires t in g.threads && Parked(g.threads[t])
  {
    !Parked(Next(g, Wake(t)).threads[t])
  }

  /** No wake-up is lost: a parked thread that could proceed has been notified.
      And no run is stuck: while a thread is parked, a stop is being performed or
      some notified thread can proceed. */
  lemma {:induction false} NoLostWakeup(steps: seq<Step>, t: Id)
    requires t in Run(steps).threads && Parked(Run(steps).threads[t])
    ensures
      var g := Run(steps);
      CouldProceed(g, t) ==> t in g.notified
  {
    RunInv(steps);
    assert Fits(Run(steps), t);
  }

  // Only who is parked has been notified.
  lemma {:induction false} NotifiedAreParked(steps: seq<Step>)
    ensures forall t :: t in Run(steps).notified ==> t in Run(steps).threads && Parked(Run(steps).threads[t])
  {
    if steps != [] {
      NotifiedAreParked(steps[..|steps| - 1]);
    }
  }

  lemma {:induction false} NoDeadlock(steps: seq<Step>, t: Id)
    requires t in Run(steps).threads && Parked(Run(steps).threads[t])
    ensures
      var g := Run(steps);
      || (exists u :: u in g.threads && g.threads[u].Performing?)
      || (exists u :: u in g.threads && u in g.notified && Parked(g.threads[u]) && CouldProceed(g, u))
  {
    RunInv(steps);
    var g := Run(steps);
    assert Fits(g, t);
    if g.state.Stopping? {
      var u := PickOne(Performers(g.threads));
      assert u in g.threads && g.threads[u].Performing?;
    } else if g.state.Failed? && g.state.waiters > 0 {
      var u := PickOne(Waiters(g.threads));
      assert u in g.threads && g.threads[u].Waiting?;
      assert Fits(g, u);
      assert CouldProceed(g, u);
    } else {
      CountsTell(g, t);
      assert CouldProceed(g, t);
    }
  }

  // Some element of a set that has one.
  ghost function PickOne(s: set<Id>): (u: Id)
    requires |s| > 0
    ensures u in s
  {
    assert s != {};
    var u :| u in s;
    u
  }
}
