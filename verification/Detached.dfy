/**
 Spawning a runtime that outlives the daemon: the daemon starts a parent, the
 parent forks a helper and exits, the helper spawns the runtime, reports its pid
 and waits for one directive. Any of them can die at any time, every wait can
 time out, and a pid that is free can be given to another process.

 Processes are told apart by incarnation; the process table says which
 incarnation a pid denotes. Two facts about the system are built in: a pid is not
 reused while a dead process is unreaped, and only its parent can reap it, which
 is the helper or, once the helper is gone, the system itself. A write to the
 directive pipe succeeds only while some process holds its read end.
 */
module Detached {
  import opened Options

  type Pid = nat
  type Incarnation = nat

  datatype Entry = Entry(who: Incarnation, alive: bool)

  datatype Frame = PidFrame(pid: Pid) | ErrorFrame | ExitFrame(status: int)

  datatype Directive = Ack | Nack | Reap

  datatype Parent = Starting | Forked | ParentDead | ParentReaped

  datatype Helper = NoHelper | Launching | Announcing | Listening | AwaitingDeath | Replying | HelperDead

  datatype Runtime = Runtime(pid: Pid, who: Incarnation)

  /** Where the daemon is. `seen` is the incarnation behind the identity it
      observed, `queue` the one its exit queue is registered on, `cleaned` the one
      it went on to stop and `exit` the status it was told. */
  datatype Daemon =
    | AwaitParent
    | AwaitPid
    | Observing(pid: Pid)
    | Registering(pid: Pid, seen: Incarnation)
    | Acking(seen: Incarnation, queue: Incarnation)
    | Nacking(target: Option<Incarnation>)
    | AskingReap
    | AwaitExit
    | Started(seen: Incarnation, queue: Incarnation)
    | Refused(cleaned: Option<Incarnation>, exit: Option<int>)

  datatype State = State(
    table: map<Pid, Entry>,
    born: nat,
    parent: Parent,
    helper: Helper,
    runtime: Option<Runtime>,
    status: Option<int>,              // how the runtime died
    reaped: bool,                     // the helper has reaped the runtime
    frames: seq<Frame>,               // the handshake pipe
    directives: seq<Directive>,       // the directive pipe
    written: seq<Directive>,          // every directive ever written
    daemon: Daemon)

  datatype Holder = ByParent | ByHelper

  predicate HelperAlive(h: Helper) {
    !h.NoHelper? && !h.HelperDead?
  }

  // Who holds the read end of the directive pipe.
  function Readers(s: State): set<Holder> {
    (if s.parent.Starting? || s.parent.Forked? then {ByParent} else {})
    + (if HelperAlive(s.helper) then {ByHelper} else {})
  }

  // ---------- Steps ----------

  datatype Step =
    | ParentForks
    | ParentFails                     // reports an error and exits
    | ParentExits                     // or is killed
    | HelperLaunches(pid: Pid)
    | HelperFails                     // reports an error and exits
    | HelperAnnounces
    | HelperReads
    | HelperWaits
    | HelperReplies
    | HelperExits                     // done, timed out, at end of file, or crashed
    | RuntimeDies(code: int)
    | SystemReaps                     // an orphaned runtime
    | OtherStarts(pid: Pid)
    | OtherDies(pid: Pid)
    | OtherIsReaped(pid: Pid)
    | DaemonReapsParent
    | DaemonReadsPid
    | DaemonObserves(fault: bool, sound: bool)
    | DaemonRegisters(fault: bool)
    | DaemonWrites
    | DaemonReadsExit
    | DaemonGivesUp                   // timeout, end of file, failed write or bad frame

  predicate IsRuntime(s: State, who: Incarnation) {
    s.runtime.Some? && s.runtime.value.who == who
  }

  // The pid of the runtime still denotes the runtime.
  predicate Holds(s: State) {
    s.runtime.Some? && s.runtime.value.pid in s.table && s.table[s.runtime.value.pid].who == s.runtime.value.who
  }

  predicate Writing(d: Daemon) {
    d.Acking? || d.Nacking? || d.AskingReap?
  }

  predicate Enabled(s: State, step: Step) {
    match step
    case ParentForks => s.parent.Starting? && s.helper.NoHelper?
    case ParentFails => s.parent.Starting?
    case ParentExits => s.parent.Starting? || s.parent.Forked?
    case HelperLaunches(pid) => s.helper.Launching? && pid !in s.table && pid > 1
    case HelperFails => s.helper.Launching?
    case HelperAnnounces => s.helper.Announcing? && s.runtime.Some?
    case HelperReads => s.helper.Listening? && s.directives != []
    case HelperWaits => s.helper.AwaitingDeath? && s.status.Some? && s.runtime.Some?
    case HelperReplies => s.helper.Replying? && s.status.Some?
    case HelperExits => HelperAlive(s.helper)
    case RuntimeDies(_) => Holds(s) && s.table[s.runtime.value.pid].alive && s.status.None?
    case SystemReaps => Holds(s) && s.status.Some? && s.helper.HelperDead?
    case OtherStarts(pid) => pid !in s.table
    case OtherDies(pid) => pid in s.table && !IsRuntime(s, s.table[pid].who)
    case OtherIsReaped(pid) => pid in s.table && !IsRuntime(s, s.table[pid].who)
    case DaemonReapsParent => s.daemon.AwaitParent? && s.parent.ParentDead?
    case DaemonReadsPid => s.daemon.AwaitPid? && s.frames != []
    case DaemonObserves(_, _) => s.daemon.Observing?
    case DaemonRegisters(_) => s.daemon.Registering?
    case DaemonWrites => Writing(s.daemon) && Readers(s) != {}
    case DaemonReadsExit => s.daemon.AwaitExit? && s.frames != []
    case DaemonGivesUp => !s.daemon.Started? && !s.daemon.Refused?
  }

  function Written(s: State, d: Directive, daemon: Daemon): State {
    s.(directives := s.directives + [d], written := s.written + [d], daemon := daemon)
  }

  function Next(s: State, step: Step): State
    requires Enabled(s, step)
  {
    match step
    case ParentForks => s.(parent := Forked, helper := Launching)
    case ParentFails => s.(parent := ParentDead, frames := s.frames + [ErrorFrame])
    case ParentExits => s.(parent := ParentDead)
    case HelperLaunches(pid) =>
      s.(helper := Announcing, runtime := Some(Runtime(pid, s.born)), born := s.born + 1,
         table := s.table[pid := Entry(s.born, true)])
    case HelperFails => s.(helper := HelperDead, frames := s.frames + [ErrorFrame])
    case HelperAnnounces => s.(helper := Listening, frames := s.frames + [PidFrame(s.runtime.value.pid)])
    case HelperReads =>
      s.(directives := s.directives[1..], helper := if s.directives[0].Reap? then AwaitingDeath else HelperDead)
    case HelperWaits => s.(helper := Replying, reaped := true, table := s.table - {s.runtime.value.pid})
    case HelperReplies => s.(helper := HelperDead, frames := s.frames + [ExitFrame(s.status.value)])
    case HelperExits => s.(helper := HelperDead)
    case RuntimeDies(code) =>
      s.(status := Some(code), table := s.table[s.runtime.value.pid := Entry(s.runtime.value.who, false)])
    case SystemReaps => s.(table := s.table - {s.runtime.value.pid})
    case OtherStarts(pid) => s.(table := s.table[pid := Entry(s.born, true)], born := s.born + 1)
    case OtherDies(pid) => s.(table := s.table[pid := s.table[pid].(alive := false)])
    case OtherIsReaped(pid) => s.(table := s.table - {pid})
    case DaemonReapsParent => s.(parent := ParentReaped, daemon := AwaitPid)
    case DaemonReadsPid =>
      var frame := s.frames[0];
      s.(frames := s.frames[1..], daemon := if frame.PidFrame? then Observing(frame.pid) else Refused(None, None))
    case DaemonObserves(fault, sound) =>
      var pid := s.daemon.pid;
      s.(daemon :=
        if fault then Nacking(None)
        else if pid !in s.table || !s.table[pid].alive then AskingReap
        else if !sound then Nacking(None)
        else Registering(pid, s.table[pid].who))
    case DaemonRegisters(fault) =>
      var (pid, seen) := (s.daemon.pid, s.daemon.seen);
      s.(daemon :=
        if fault then Nacking(Some(seen))
        else if pid !in s.table || !s.table[pid].alive then AskingReap
        else Acking(seen, s.table[pid].who))
    case DaemonWrites =>
      (match s.daemon
       case Acking(seen, queue) => Written(s, Ack, Started(seen, queue))
       case Nacking(target) => Written(s, Nack, Refused(target, None))
       case _ => Written(s, Reap, AwaitExit))
    case DaemonReadsExit =>
      var frame := s.frames[0];
      s.(frames := s.frames[1..], daemon := Refused(None, if frame.ExitFrame? then Some(frame.status) else None))
    case DaemonGivesUp => s.(daemon := Refused(None, None))
  }

  // The daemon has just started the parent; other processes exist already.
  predicate Initial(s: State) {
    && s.parent.Starting? && s.helper.NoHelper? && s.runtime.None? && s.status.None? && !s.reaped
    && s.frames == [] && s.directives == [] && s.written == [] && s.daemon.AwaitParent?
    && forall p :: p in s.table ==> s.table[p].who < s.born
  }

  // ---------- What always holds ----------

  // The helper has what its place in the protocol says, and while it lives and
  // has not reaped the runtime, the pid of the runtime denotes the runtime.
  ghost predicate HelperInv(s: State) {
    && (s.helper.NoHelper? || s.helper.Launching? ==> s.runtime.None?)
    && (HelperAlive(s.helper) && !s.helper.Launching? ==> s.runtime.Some?)
    && (HelperAlive(s.helper) && s.runtime.Some? && !s.reaped ==> Holds(s))
    && (s.helper.AwaitingDeath? ==> s.written == [Reap] && !s.reaped)
    && (s.reaped ==> s.written == [Reap] && s.status.Some? && (s.helper.Replying? || s.helper.HelperDead?))
    && (s.runtime.None? ==> s.status.None?)
  }

  // At most one directive, of the kind the daemon came to.
  ghost predicate PipeInv(s: State) {
    && (s.directives == [] || s.directives == s.written)
    && |s.written| <= 1
    && (match s.daemon
        case AwaitExit => s.written == [Reap]
        case Started(_, _) => s.written == [Ack]
        case Refused(cleaned, exit) =>
          (cleaned.Some? ==> s.written == [Nack]) && (exit.Some? ==> s.written == [Reap])
        case _ => s.written == [])
    && (!s.daemon.AwaitParent? && !s.daemon.Refused? ==> s.parent.ParentReaped?)
  }

  // Frames tell the truth about the runtime.
  ghost predicate FrameInv(s: State) {
    forall i :: 0 <= i < |s.frames| ==>
      match s.frames[i]
      case PidFrame(pid) => s.runtime.Some? && pid == s.runtime.value.pid
      case ExitFrame(status) => s.status == Some(status)
      case ErrorFrame => true
  }

  // An incarnation the daemon believes in is the runtime, or the helper is dead.
  ghost predicate Believed(s: State, who: Incarnation) {
    s.runtime.Some? && (who == s.runtime.value.who || s.helper.HelperDead?)
  }

  ghost predicate DaemonInv(s: State) {
    match s.daemon
    case Observing(pid) => s.runtime.Some? && pid == s.runtime.value.pid
    case Registering(pid, seen) => s.runtime.Some? && pid == s.runtime.value.pid && Believed(s, seen)
    case Acking(seen, queue) => Believed(s, seen) && Believed(s, queue)
    case Nacking(target) => target.Some? ==> Believed(s, target.value)
    case Started(seen, queue) => IsRuntime(s, seen) && IsRuntime(s, queue)
    case Refused(cleaned, exit) =>
      (cleaned.Some? ==> IsRuntime(s, cleaned.value)) && (exit.Some? ==> s.status == exit)
    case _ => true
  }

  ghost predicate Inv(s: State) {
    HelperInv(s) && PipeInv(s) && FrameInv(s) && DaemonInv(s)
  }

  lemma {:induction false} InitialInv(s: State)
    requires Initial(s)
    ensures Inv(s)
  {
  }

  /** The argument the protocol rests on: once the parent is reaped, a directive
      can be written only while the helper lives, and then the pid the daemon was
      told still denotes the runtime. */
  lemma {:induction false} WriteProvesHelper(s: State)
    requires HelperInv(s) && PipeInv(s) && DaemonInv(s) && Enabled(s, DaemonWrites)
    ensures HelperAlive(s.helper) && !s.reaped
    ensures s.runtime.Some? ==> Holds(s)
    ensures s.daemon.Acking? ==> IsRuntime(s, s.daemon.seen) && IsRuntime(s, s.daemon.queue)
    ensures s.daemon.Nacking? && s.daemon.target.Some? ==> IsRuntime(s, s.daemon.target.value)
  {
  }

  lemma {:induction false} NextHelperInv(s: State, step: Step)
    requires Inv(s) && Enabled(s, step)
    ensures HelperInv(Next(s, step))
  {
    hide FrameInv, DaemonInv;
    if step.HelperReads? && s.directives[0].Reap? {
      assert s.written == [Reap];
    }
  }

  lemma {:induction false} NextPipeInv(s: State, step: Step)
    requires Inv(s) && Enabled(s, step)
    ensures PipeInv(Next(s, step))
  {
    hide FrameInv;
  }

  lemma {:induction false} NextFrameInv(s: State, step: Step)
    requires Inv(s) && Enabled(s, step)
    ensures FrameInv(Next(s, step))
  {
  }

  lemma {:induction false} NextDaemonInv(s: State, step: Step)
    requires Inv(s) && Enabled(s, step)
    ensures DaemonInv(Next(s, step))
  {
    if step.DaemonWrites? {
      WriteProvesHelper(s);
    }
  }

  // ---------- Whole runs ----------

  function Run(start: State, steps: seq<Step>): State {
    if steps == [] then start else
    var s, step := Run(start, steps[..|steps| - 1]), steps[|steps| - 1];
    if Enabled(s, step) then Next(s, step) else s
  }

  lemma {:induction false} RunInv(start: State, steps: seq<Step>)
    requires Initial(start)
    ensures Inv(Run(start, steps))
  {
    hide HelperInv, PipeInv, FrameInv, DaemonInv;
    if steps == [] {
      InitialInv(start);
    } else {
      var s, step := Run(start, steps[..|steps| - 1]), steps[|steps| - 1];
      RunInv(start, steps[..|steps| - 1]);
      if Enabled(s, step) {
        NextHelperInv(s, step);
        NextPipeInv(s, step);
        NextFrameInv(s, step);
        NextDaemonInv(s, step);
      }
    }
  }

  /** Whatever dies, times out or is recycled: if the spawn succeeds, the identity
      the daemon observed and the exit queue it registered both denote the
      helper's own runtime. If it refuses and goes on to clean up, the identity it
      stops is that of the same runtime (whom that stop then reaches is said by
      `GroupLineage.SignalReaches`); and an exit status it reports is the one the
      runtime left. */
  lemma {:induction false} IdentitySafety(start: State, steps: seq<Step>)
    requires Initial(start)
    ensures
      var s := Run(start, steps);
      && (s.daemon.Started? ==>
            s.runtime.Some? && s.daemon.seen == s.runtime.value.who && s.daemon.queue == s.runtime.value.who)
      && (s.daemon.Refused? && s.daemon.cleaned.Some? ==>
            s.runtime.Some? && s.daemon.cleaned.value == s.runtime.value.who && s.written == [Nack])
      && (s.daemon.Refused? && s.daemon.exit.Some? ==> s.status == s.daemon.exit)
  {
    RunInv(start, steps);
  }

  /** At most one directive is ever written, none before the parent is reaped, and
      the helper reaps the runtime only after it was told to. */
  lemma {:induction false} OneDirective(start: State, steps: seq<Step>)
    requires Initial(start)
    ensures
      var s := Run(start, steps);
      && |s.written| <= 1
      && (s.reaped ==> s.written == [Reap])
      && (Writing(s.daemon) ==> s.written == [] && s.parent.ParentReaped?)
  {
    RunInv(start, steps);
  }

  /** Until it has been reaped by a living helper or the helper is gone, the pid of
      the runtime denotes the runtime, dead or alive. */
  lemma {:induction false} PidIsHeld(start: State, steps: seq<Step>)
    requires Initial(start) && Run(start, steps).runtime.Some?
    requires HelperAlive(Run(start, steps).helper) && Run(start, steps).written != [Reap]
    ensures Holds(Run(start, steps))
  {
    RunInv(start, steps);
  }

  // A run in which the helper and the runtime are lost between the first frame
  // and the observation, and another process gets the pid.
  function RecycledPid(pid: Pid): seq<Step> {
    [ParentForks, HelperLaunches(pid), HelperAnnounces, ParentExits, DaemonReapsParent, DaemonReadsPid,
     HelperExits, RuntimeDies(0), SystemReaps, OtherStarts(pid), DaemonObserves(false, true)]
  }

  // The daemon knows the pid of a runtime whose helper is listening.
  function Told(start: State, pid: Pid): State {
    start.(
      parent := ParentReaped, helper := Listening, runtime := Some(Runtime(pid, start.born)), born := start.born + 1,
      table := start.table[pid := Entry(start.born, true)], daemon := Observing(pid))
  }

  // The helper has written the pid; its parent is about to exit.
  function Announced(start: State, pid: Pid): State {
    start.(
      parent := Forked, helper := Listening, runtime := Some(Runtime(pid, start.born)), born := start.born + 1,
      table := start.table[pid := Entry(start.born, true)], frames := [PidFrame(pid)])
  }

  lemma {:induction false} GetsAnnounced(start: State, pid: Pid)
    requires Initial(start) && pid > 1 && pid !in start.table
    ensures Run(start, RecycledPid(pid)[..3]) == Announced(start, pid)
  {
    hide Run;
    var p := RecycledPid(pid);
    NothingTaken(start, p);
    var s := Taken(start, start, p, 0);
    s := Taken(start, s, p, 1);
    s := Taken(start, s, p, 2);
  }

  lemma {:induction false} GetsTold(start: State, pid: Pid)
    requires Initial(start) && pid > 1 && pid !in start.table
    ensures Run(start, RecycledPid(pid)[..6]) == Told(start, pid)
  {
    hide Run;
    var p := RecycledPid(pid);
    GetsAnnounced(start, pid);
    var s := Taken(start, Announced(start, pid), p, 3);
    s := Taken(start, s, p, 4);
    s := Taken(start, s, p, 5);
  }

  /** Why the write matters: what the daemon observed alone proves nothing. It can
      be a stranger that took over the pid, and then no directive can be written,
      so the stranger is neither reported nor stopped. */
  lemma {:induction false} ObservationAloneProvesNothing(start: State, pid: Pid)
    requires Initial(start) && pid > 1 && pid !in start.table
    ensures
      var s := Run(start, RecycledPid(pid));
      && s.daemon.Registering? && s.runtime.Some? && s.daemon.seen != s.runtime.value.who
      && Readers(s) == {}
  {
    hide Run;
    var p := RecycledPid(pid);
    GetsTold(start, pid);
    var s := Taken(start, Told(start, pid), p, 6);
    s := Taken(start, s, p, 7);
    s := Taken(start, s, p, 8);
    s := Taken(start, s, p, 9);
    s := Taken(start, s, p, 10);
    assert p[..11] == p;
  }

  /** Why the parent is reaped first: it holds the read end too, so before that a
      directive could be written although the helper is dead. */
  lemma {:induction false} ParentMasksHelper(start: State)
    requires Initial(start)
    ensures
      var s := Run(start, [ParentForks, HelperExits]);
      s.helper.HelperDead? && Readers(s) == {ByParent}
  {
    hide Run;
    var p := [ParentForks, HelperExits];
    NothingTaken(start, p);
    var s := Taken(start, start, p, 0);
    s := Taken(start, s, p, 1);
    assert p[..2] == p;
  }

  lemma {:induction false} NothingTaken(start: State, steps: seq<Step>)
    ensures Run(start, steps[..0]) == start
  {
  }

  // One more step of a run.
  lemma {:induction false} Taken(start: State, s: State, steps: seq<Step>, n: nat) returns (next: State)
    requires n < |steps| && s == Run(start, steps[..n]) && Enabled(s, steps[n])
    ensures next == Next(s, steps[n]) && next == Run(start, steps[..n + 1])
  {
    assert steps[..n + 1][..n] == steps[..n];
    next := Next(s, steps[n]);
  }

  // ---------- What the daemon makes of what it met ----------

  predicate Lives(s: State, pid: Pid) {
    pid in s.table && s.table[pid].alive
  }

  // What a look at the pid the daemon was told met.
  datatype Sight = Sight(fault: bool, alive: bool, sound: bool)

  function Looked(s: State, step: Step, sight: Option<Sight>): Option<Sight> {
    if step.DaemonObserves? && s.daemon.Observing?
    then Some(Sight(step.fault, Lives(s, s.daemon.pid), step.sound)) else sight
  }

  function Enrolled(s: State, step: Step, sight: Option<Sight>): Option<Sight> {
    if step.DaemonRegisters? && s.daemon.Registering?
    then Some(Sight(step.fault, Lives(s, s.daemon.pid), true)) else sight
  }

  // The observation and the registration of a run, if it came to them.
  function Observation(start: State, steps: seq<Step>): Option<Sight> {
    if steps == [] then None
    else
      var before, last := steps[..|steps| - 1], steps[|steps| - 1];
      Looked(Run(start, before), last, Observation(start, before))
  }

  function Registration(start: State, steps: seq<Step>): Option<Sight> {
    if steps == [] then None
    else
      var before, last := steps[..|steps| - 1], steps[|steps| - 1];
      Enrolled(Run(start, before), last, Registration(start, before))
  }

  predicate Clean(sight: Option<Sight>) {
    sight.Some? && !sight.value.fault && sight.value.alive && sight.value.sound
  }

  // A fault struck, or a living process had an unsound identity.
  predicate Spoiled(sight: Option<Sight>) {
    sight.Some? && (sight.value.fault || (sight.value.alive && !sight.value.sound))
  }

  predicate Vanished(sight: Option<Sight>) {
    sight.Some? && !sight.value.fault && !sight.value.alive
  }

  // Where the daemon is and what it has written is what it met.
  ghost predicate Earned(s: State, seen: Option<Sight>, registered: Option<Sight>) {
    match s.daemon
    case AwaitParent | AwaitPid | Observing(_) => seen.None? && registered.None?
    case Registering(_, _) => Clean(seen) && registered.None?
    case Acking(_, _) | Started(_, _) => Clean(seen) && Clean(registered)
    case Nacking(target) => (Spoiled(seen) || Spoiled(registered)) && (target.Some? <==> Spoiled(registered))
    case AskingReap | AwaitExit => Vanished(seen) || Vanished(registered)
    case Refused(cleaned, _) =>
      && s.written != [Ack]
      && (s.written == [Nack] ==>
            (Spoiled(seen) || Spoiled(registered)) && (cleaned.Some? <==> Spoiled(registered)))
      && (s.written == [Reap] ==> Vanished(seen) || Vanished(registered))
  }

  // A registration is only ever tried after a clean observation.
  ghost predicate InTurn(seen: Option<Sight>, registered: Option<Sight>) {
    registered.Some? ==> Clean(seen)
  }

  predicate ByDaemon(step: Step) {
    || step.DaemonReapsParent? || step.DaemonReadsPid? || step.DaemonObserves? || step.DaemonRegisters?
    || step.DaemonWrites? || step.DaemonReadsExit? || step.DaemonGivesUp?
  }

  // What the others do is no business of the daemon.
  lemma {:induction false} OthersStayOut(s: State, step: Step)
    requires Enabled(s, step) && !ByDaemon(step)
    ensures Next(s, step).daemon == s.daemon && Next(s, step).written == s.written
  {
  }

  lemma {:induction false} WritesFirst(s: State)
    requires PipeInv(s) && Enabled(s, DaemonWrites)
    ensures Next(s, DaemonWrites).written ==
            (if s.daemon.Acking? then [Ack] else if s.daemon.Nacking? then [Nack] else [Reap])
  {
  }

  lemma {:induction false} StepEarned(s: State, step: Step, seen: Option<Sight>, registered: Option<Sight>)
    requires PipeInv(s) && Enabled(s, step) && Earned(s, seen, registered) && InTurn(seen, registered)
    ensures Earned(Next(s, step), Looked(s, step, seen), Enrolled(s, step, registered))
    ensures InTurn(Looked(s, step, seen), Enrolled(s, step, registered))
  {
    if !ByDaemon(step) {
      hide Next, Enabled, PipeInv;
      OthersStayOut(s, step);
    } else if step.DaemonWrites? {
      WritesFirst(s);
    }
  }

  lemma {:induction false} RunEarned(start: State, steps: seq<Step>)
    requires Initial(start)
    ensures Earned(Run(start, steps), Observation(start, steps), Registration(start, steps))
    ensures InTurn(Observation(start, steps), Registration(start, steps))
  {
    hide HelperInv, FrameInv, DaemonInv, PipeInv, Earned, InTurn, Enabled, Next, Looked, Enrolled;
    if steps == [] {
      NothingMet(start);
    } else {
      var before, last := steps[..|steps| - 1], steps[|steps| - 1];
      RunEarned(start, before);
      RunInv(start, before);
      if Enabled(Run(start, before), last) {
        StepEarned(Run(start, before), last, Observation(start, before), Registration(start, before));
      } else {
        NotTaken(Run(start, before), last, Observation(start, before), Registration(start, before));
      }
    }
  }

  lemma {:induction false} NotTaken(s: State, step: Step, seen: Option<Sight>, registered: Option<Sight>)
    requires !Enabled(s, step)
    ensures Looked(s, step, seen) == seen && Enrolled(s, step, registered) == registered
  {
  }

  lemma {:induction false} NothingMet(start: State)
    requires Initial(start)
    ensures Earned(Run(start, []), Observation(start, []), Registration(start, []))
    ensures InTurn(Observation(start, []), Registration(start, []))
  {
  }

  /** The directive is the one the daemon's own looks call for, in every run. Once one
      is written, it is ACK if and only if the daemon found the pid alive with a sound
      identity and registered on it, alive still, without a fault; NACK if and only if a
      fault struck or the identity was unsound; and REAP if and only if the pid was dead
      or gone. The spawn succeeds exactly on ACK, and only a fault at the registration
      is cleaned up after. */
  lemma {:induction false} DirectiveIsDeserved(start: State, steps: seq<Step>)
    requires Initial(start)
    ensures
      var (s, seen, registered) := (Run(start, steps), Observation(start, steps), Registration(start, steps));
      && (s.written == [Ack] <==> s.daemon.Started?)
      && (s.written != [] ==>
            && (s.written == [Ack] <==> Clean(seen) && Clean(registered))
            && (s.written == [Nack] <==> Spoiled(seen) || Spoiled(registered))
            && (s.written == [Reap] <==> Vanished(seen) || Vanished(registered)))
      && (s.daemon.Refused? && s.written == [Nack] ==> (s.daemon.cleaned.Some? <==> Spoiled(registered)))
  {
    hide Run, Observation, Registration, HelperInv, FrameInv, DaemonInv;
    RunInv(start, steps);
    RunEarned(start, steps);
    var s := Run(start, steps);
    if s.written != [] {
      var d := s.written[0];
      assert s.written == [d];
      assert d.Ack? || d.Nack? || d.Reap?;
      assert [d] == [Ack] <==> d == Ack;
      assert [d] == [Nack] <==> d == Nack;
      assert [d] == [Reap] <==> d == Reap;
    }
  }

  /** And it is written, for the helper to read, as soon as the daemon gets to write it
      while the helper lives. */
  lemma {:induction false} DirectiveIsWritten(start: State, steps: seq<Step>)
    requires Initial(start) && HelperAlive(Run(start, steps).helper)
    requires
      var d := Run(start, steps).daemon;
      d.Acking? || d.Nacking? || d.AskingReap?
    ensures
      var (d, next) := (Run(start, steps).daemon, Run(start, steps + [DaemonWrites]));
      && next.written == next.directives
      && next.written == (if d.Acking? then [Ack] else if d.Nacking? then [Nack] else [Reap])
  {
    hide HelperInv, FrameInv, DaemonInv;
    RunInv(start, steps);
    WritesFirst(Run(start, steps));
    assert (steps + [DaemonWrites])[..|steps|] == steps;
  }

  /** The daemon goes on to the handshake only once the parent is dead. */
  lemma {:induction false} ParentIsAwaited(start: State, steps: seq<Step>)
    ensures
      var (s, next) := (Run(start, steps), Run(start, steps + [DaemonReapsParent]));
      s.daemon.AwaitParent? ==>
        (next.daemon.AwaitPid? <==> s.parent.ParentDead?) && (!next.daemon.AwaitPid? ==> next == s)
  {
    hide Run;
    OneMore(start, steps, DaemonReapsParent);
  }

  // A spawn in which nothing goes wrong.
  function Healthy(pid: Pid): seq<Step> {
    RecycledPid(pid)[..6] + [DaemonObserves(false, true), DaemonRegisters(false), DaemonWrites]
  }

  /** A spawn in which nothing goes wrong succeeds, and leaves the runtime alone. */
  lemma {:induction false} HealthySpawnStarts(start: State, pid: Pid)
    requires Initial(start) && pid > 1 && pid !in start.table
    ensures
      var s := Run(start, Healthy(pid));
      && s.daemon == Started(start.born, start.born) && s.written == [Ack]
      && s.runtime == Some(Runtime(pid, start.born)) && s.status.None? && Lives(s, pid)
  {
    hide Run;
    var p := Healthy(pid);
    assert p[..6] == RecycledPid(pid)[..6];
    GetsTold(start, pid);
    var s := Taken(start, Told(start, pid), p, 6);
    s := Taken(start, s, p, 7);
    s := Taken(start, s, p, 8);
    assert p[..9] == p;
  }

  // ---------- What the helper answers ----------

  // Nothing is on the handshake pipe but what the daemon has not read.
  ghost predicate Unread(s: State) {
    && (s.parent.Starting? ==> s.helper.NoHelper?)
    && (s.helper.Launching? || s.helper.Announcing? ==> s.frames == [])
    && (s.helper.Replying? ==> s.reaped)
    && (s.helper.NoHelper? && !s.parent.ParentDead? && !s.parent.ParentReaped? ==> s.frames == [])
    && (s.helper.Launching? || s.helper.Announcing? ==>
          s.daemon.AwaitParent? || s.daemon.AwaitPid? || s.daemon.Refused?)
    && (s.helper.Listening? && (s.daemon.AwaitParent? || s.daemon.AwaitPid?) ==> |s.frames| == 1)
    && (s.helper.Listening? && !s.daemon.AwaitParent? && !s.daemon.AwaitPid? && !s.daemon.Refused? ==> s.frames == [])
    && (s.helper.AwaitingDeath? && s.daemon.AwaitExit? ==> s.frames == [])
    && (s.helper.Replying? && s.daemon.AwaitExit? ==> s.frames == [])
  }

  // Incarnations are new, and the runtime lives until it dies.
  ghost predicate Living(s: State) {
    && (forall p :: p in s.table ==> s.table[p].who < s.born)
    && (s.runtime.Some? ==> s.runtime.value.who < s.born)
    && (Holds(s) && s.status.None? ==> s.table[s.runtime.value.pid].alive)
  }

  lemma {:induction false} StepUnread(s: State, step: Step)
    requires Inv(s) && Unread(s) && Enabled(s, step)
    ensures Unread(Next(s, step))
  {
    hide FrameInv, DaemonInv;
  }

  lemma {:induction false} StepLiving(s: State, step: Step)
    requires Living(s) && Enabled(s, step)
    ensures Living(Next(s, step))
  {
  }

  lemma {:induction false} RunUnread(start: State, steps: seq<Step>)
    requires Initial(start)
    ensures Unread(Run(start, steps)) && Living(Run(start, steps))
  {
    hide Inv, Unread, Living, Enabled, Next;
    if steps == [] {
      StartsUnread(start);
    } else {
      var s, step := Run(start, steps[..|steps| - 1]), steps[|steps| - 1];
      RunUnread(start, steps[..|steps| - 1]);
      RunInv(start, steps[..|steps| - 1]);
      if Enabled(s, step) {
        StepUnread(s, step);
        StepLiving(s, step);
      }
    }
  }

  lemma {:induction false} StartsUnread(start: State)
    requires Initial(start)
    ensures Unread(start) && Living(start)
  {
  }

  /** A helper that was told to reap answers with the status its runtime died with, and
      the daemon reports exactly that: from any reachable state in which both are
      waiting, if the runtime dies, or has died, and they go on. */
  lemma {:induction false} ReapIsAnswered(start: State, steps: seq<Step>, code: int)
    requires Initial(start) && Run(start, steps).helper.AwaitingDeath? && Run(start, steps).daemon.AwaitExit?
    ensures
      var s := Run(start, steps);
      var died := if s.status.Some? then steps else steps + [RuntimeDies(code)];
      var done := Run(start, died + [HelperWaits] + [HelperReplies] + [DaemonReadsExit]);
      && done.daemon == Refused(None, if s.status.Some? then s.status else Some(code))
      && done.reaped && done.helper.HelperDead? && done.frames == []
      && s.runtime.Some? && s.runtime.value.pid !in done.table
  {
    hide Run, FrameInv, DaemonInv;
    RunInv(start, steps);
    RunUnread(start, steps);
    var s := Run(start, steps);
    var died := if s.status.Some? then steps else steps + [RuntimeDies(code)];
    if s.status.None? {
      OneMore(start, steps, RuntimeDies(code));
    }
    OneMore(start, died, HelperWaits);
    OneMore(start, died + [HelperWaits], HelperReplies);
    OneMore(start, died + [HelperWaits] + [HelperReplies], DaemonReadsExit);
  }

  lemma {:induction false} OneMore(start: State, steps: seq<Step>, step: Step)
    ensures
      Run(start, steps + [step]) ==
      if Enabled(Run(start, steps), step) then Next(Run(start, steps), step) else Run(start, steps)
  {
    assert (steps + [step])[..|steps|] == steps;
  }

  /** A parent or helper that fails says so, and a daemon that waits for the handshake
      then refuses, with nothing written. */
  lemma {:induction false} FailureIsAnnounced(start: State, steps: seq<Step>, step: Step)
    requires Initial(start) && (step.ParentFails? || step.HelperFails?) && Enabled(Run(start, steps), step)
    ensures
      var (s, next) := (Run(start, steps), Run(start, steps + [step]));
      && next.frames == s.frames + [ErrorFrame]
      && (if step.ParentFails? then next.parent.ParentDead? else next.helper.HelperDead?)
      && (s.daemon.AwaitPid? ==> Run(start, steps + [step] + [DaemonReadsPid]).daemon == Refused(None, None))
  {
    hide Run, FrameInv, DaemonInv;
    RunInv(start, steps);
    RunUnread(start, steps);
    OneMore(start, steps, step);
    OneMore(start, steps + [step], DaemonReadsPid);
  }

  /** A runtime that dies is dead to whoever looks, with its status kept, until it is
      reaped. */
  lemma {:induction false} DeathShows(start: State, steps: seq<Step>, code: int)
    requires Enabled(Run(start, steps), RuntimeDies(code))
    ensures
      var (s, next) := (Run(start, steps), Run(start, steps + [RuntimeDies(code)]));
      && next.status == Some(code) && Holds(next) && !Lives(next, s.runtime.value.pid)
      && (forall pid :: pid in s.table && pid != s.runtime.value.pid ==>
            pid in next.table && next.table[pid] == s.table[pid])
  {
    hide Run;
    OneMore(start, steps, RuntimeDies(code));
  }

  /** Any other directive lets the helper go and leaves the runtime alone. */
  lemma {:induction false} HelperObeys(start: State, steps: seq<Step>)
    requires Initial(start) && Run(start, steps).helper.Listening? && Run(start, steps).directives != []
    ensures
      var (s, next) := (Run(start, steps), Run(start, steps + [HelperReads]));
      && next.helper == (if s.written == [Reap] then AwaitingDeath else HelperDead)
      && next.directives == [] && next.table == s.table && !next.reaped
  {
    hide Run, FrameInv, DaemonInv;
    RunInv(start, steps);
    OneMore(start, steps, HelperReads);
  }
}
