/**
 Stopping a process group against a process table that changes all the time.

 Every look at the table and every signal is an action; the log of a stop is the
 sequence of its actions, and the table at the time of the n-th action is the
 n-th table from the start. Nothing is assumed about how the table changes.
 */
module ProcessGroups {
  import opened Options

  const MEMBER_OBSERVATION_RETRIES: nat := 4
  const I32_MAX: nat := 0x7FFF_FFFF

  datatype Identity = Identity(pid: nat, pgid: int, uid: nat, startToken: string)

  type Table = map<nat, Identity>

  datatype Error = NotFound | InvalidInput | WouldBlock | TimedOut | OtherError

  datatype Result<+T> = Ok(value: T) | Err(error: Error)

  datatype Signal = Term | Kill

  datatype Exit = Exit(code: Option<int>) | Signaled(number: int) | UnknownExit

  // What goes wrong with the system call made at some time.
  datatype Fault = Clear | Torn | Broken

  // What the wait call on the child reports at some time.
  datatype Poll = StillRunning | Reaped(exit: Exit) | PollError

  datatype Env = Env(world: nat -> Table, fault: nat -> Fault, child: nat -> Poll)

  datatype Action =
    | SawProcess(pid: nat, identity: Identity)
    | SawNone(pid: nat)
    | SawGroup(pgid: int, members: set<Identity>)
    | Missed(busy: bool)                  // an observation that failed
    | Polled(poll: Poll)
    | Sent(pgid: int, signal: Signal)

  // ---------- The table and the log ----------

  function Members(t: Table, pgid: int): set<Identity> {
    set pid | pid in t && t[pid].pgid == pgid :: t[pid]
  }

  function LookAtProcess(env: Env, at: nat, pid: nat): Action {
    match env.fault(at)
    case Torn => Missed(true)
    case Broken => Missed(false)
    case Clear => if pid in env.world(at) then SawProcess(pid, env.world(at)[pid]) else SawNone(pid)
  }

  function LookAtGroup(env: Env, at: nat, pgid: int): Action {
    match env.fault(at)
    case Torn => Missed(true)
    case Broken => Missed(false)
    case Clear => SawGroup(pgid, Members(env.world(at), pgid))
  }

  // The action is what the table showed at that time.
  ghost predicate IsTrue(env: Env, at: nat, a: Action) {
    match a
    case SawProcess(pid, identity) => pid in env.world(at) && env.world(at)[pid] == identity
    case SawNone(pid) => pid !in env.world(at)
    case SawGroup(pgid, members) => members == Members(env.world(at), pgid)
    case Polled(poll) => poll == env.child(at)
    case _ => true
  }

  ghost predicate Faithful(env: Env, start: nat, log: seq<Action>) {
    forall i :: 0 <= i < |log| ==> IsTrue(env, start + i, log[i])
  }

  // ---------- What may be signalled ----------

  predicate SafeTarget(pgid: int) {
    pgid > 1
  }

  predicate Isolated(pid: nat, identity: Identity) {
    identity.pid == pid && pid > 1 && identity.pgid == pid && identity.startToken != ""
  }

  // Every member belongs to the leader's group and user.
  predicate Unambiguous(leader: Identity, members: set<Identity>) {
    && SafeTarget(leader.pgid)
    && forall m :: m in members ==> m.pid > 1 && m.pgid == leader.pgid && m.uid == leader.uid && m.startToken != ""
  }

  predicate Owned(leader: Identity, members: set<Identity>) {
    leader in members && Unambiguous(leader, members)
  }

  /** What a log proves about the group of `id`. `leader` and `absent` are the
      places where the process `id.pid` was last seen as `id` itself, or not at
      all; `group` is what the very last action saw of the group. */
  datatype Watch = Watch(
    leader: Option<nat>, absent: Option<nat>, group: Option<set<Identity>>, sent: seq<Signal>, lawful: bool)

  predicate MayTerm(w: Watch, id: Identity, leaderless: bool) {
    && w.sent == [] && w.group.Some?
    && (|| (w.leader.Some? && Owned(id, w.group.value))
        || (leaderless && w.absent.Some? && w.group.value != {} && Unambiguous(id, w.group.value)))
  }

  predicate MayKill(w: Watch, id: Identity) {
    w.sent == [Term] && w.group.Some? && Unambiguous(id, w.group.value)
  }

  function After(w: Watch, id: Identity, leaderless: bool, at: nat, a: Action): Watch {
    match a
    case SawProcess(pid, identity) =>
      w.(leader := if pid == id.pid && identity == id then Some(at) else None, absent := None, group := None)
    case SawNone(pid) =>
      w.(leader := None, absent := if pid == id.pid then Some(at) else None, group := None)
    case SawGroup(pgid, members) => w.(group := if pgid == id.pgid then Some(members) else None)
    case Missed(_) => w.(group := None)
    case Polled(_) => w.(group := None)
    case Sent(pgid, signal) =>
      var allowed := if signal.Term? then MayTerm(w, id, leaderless) else MayKill(w, id);
      Watch(None, None, None, w.sent + [signal], w.lawful && allowed && pgid == id.pgid)
  }

  function WatchOf(id: Identity, leaderless: bool, log: seq<Action>): Watch {
    if log == [] then Watch(None, None, None, [], true)
    else After(WatchOf(id, leaderless, log[..|log| - 1]), id, leaderless, |log| - 1, log[|log| - 1])
  }

  lemma {:induction false} WatchNext(id: Identity, leaderless: bool, log: seq<Action>, a: Action)
    ensures WatchOf(id, leaderless, log + [a]) == After(WatchOf(id, leaderless, log), id, leaderless, |log|, a)
  {
    assert (log + [a])[..|log|] == log;
  }

  lemma {:induction false} FaithfulNext(env: Env, start: nat, log: seq<Action>, a: Action)
    requires Faithful(env, start, log) && IsTrue(env, start + |log|, a)
    ensures Faithful(env, start, log + [a])
  {
  }

  // ---------- Worlds to stop in ----------

  // A look at this time succeeds and shows the leader and its group alive.
  ghost predicate Stands(env: Env, t: nat, id: Identity) {
    && env.fault(t).Clear? && env.child(t).StillRunning?
    && id.pid in env.world(t) && env.world(t)[id.pid] == id
    && Owned(id, Members(env.world(t), id.pgid))
  }

  ghost predicate Standing(env: Env, from: nat, until: nat, id: Identity) {
    forall t {:trigger env.fault(t)} {:trigger env.child(t)} {:trigger env.world(t)} ::
      from <= t < until ==> Stands(env, t, id)
  }

  ghost predicate Stubborn(env: Env, from: nat, id: Identity) {
    forall t {:trigger env.fault(t)} {:trigger env.child(t)} {:trigger env.world(t)} ::
      t >= from ==> Stands(env, t, id)
  }

  // From some time on every look succeeds and shows the leader reaped and its group empty.
  ghost predicate Gone(env: Env, from: nat, id: Identity) {
    && env.child(from).Reaped?
    && forall t :: t >= from ==>
         env.fault(t).Clear? && env.child(t) == env.child(from) && id.pid !in env.world(t)
         && Members(env.world(t), id.pgid) == {}
  }

  // A look at this time succeeds and shows an inhabited group beyond doubt.
  ghost predicate Inhabited(env: Env, t: nat, id: Identity) {
    env.fault(t).Clear? && Members(env.world(t), id.pgid) != {} && Unambiguous(id, Members(env.world(t), id.pgid))
  }

  // The group lives on from some time, with or without its leader.
  ghost predicate Lingers(env: Env, from: nat, id: Identity) {
    forall t {:trigger env.fault(t)} {:trigger env.world(t)} :: t >= from ==> Inhabited(env, t, id)
  }

  // From some time on the leader is not in the table and its group is empty.
  ghost predicate Emptied(env: Env, from: nat, id: Identity) {
    forall t {:trigger env.fault(t)} {:trigger env.world(t)} :: t >= from ==>
      env.fault(t).Clear? && id.pid !in env.world(t) && Members(env.world(t), id.pgid) == {}
  }

  // For some time the group is inhabited and led, or inhabited and orphaned.
  ghost predicate Settled(env: Env, from: nat, until: nat, id: Identity, led: bool) {
    forall t {:trigger env.fault(t)} {:trigger env.world(t)} :: from <= t < until ==>
      && Inhabited(env, t, id)
      && (if led then id.pid in env.world(t) && env.world(t)[id.pid] == id && id in Members(env.world(t), id.pgid)
          else id.pid !in env.world(t))
  }

  lemma {:induction false} LingersOn(env: Env, from: nat, t: nat, id: Identity)
    requires from <= t
    ensures Stubborn(env, from, id) ==> Lingers(env, t, id)
    ensures Gone(env, from, id) ==> Emptied(env, t, id)
    ensures Lingers(env, from, id) ==> Lingers(env, t, id) && Inhabited(env, t, id)
    ensures Emptied(env, from, id) ==> Emptied(env, t, id)
  {
    hide Members, Unambiguous;
    if Stubborn(env, from, id) {
      forall u | u >= t ensures Inhabited(env, u, id) {
        assert env.fault(u).Clear?;
      }
    }
    if Lingers(env, from, id) {
      forall u | u >= t ensures Inhabited(env, u, id) {
        assert env.fault(u) == env.fault(u);
      }
    }
  }

  lemma {:induction false} StubbornAt(env: Env, from: nat, t: nat, id: Identity)
    requires Stubborn(env, from, id) && from <= t
    ensures Stands(env, t, id) && Stubborn(env, t, id) && Standing(env, t, t + 2, id)
  {
    hide Stands;
    forall u | u >= t ensures Stands(env, u, id) {
      assert env.fault(u) == env.fault(u);
    }
  }

  lemma {:induction false} StandingAt(env: Env, from: nat, until: nat, t: nat, id: Identity)
    requires Standing(env, from, until, id) && from <= t < until
    ensures Stands(env, t, id)
    ensures t + 2 <= until ==> Standing(env, t, t + 2, id)
  {
    hide Stands;
    forall u | t <= u < until ensures Stands(env, u, id) {
      assert env.fault(u) == env.fault(u);
    }
  }

  lemma {:induction false} GoneAt(env: Env, from: nat, t: nat, id: Identity)
    requires Gone(env, from, id) && from <= t
    ensures env.fault(t).Clear? && env.child(t) == env.child(from) && env.child(t).Reaped? && id.pid !in env.world(t)
    ensures Members(env.world(t), id.pgid) == {} && Gone(env, t, id)
  {
    assert env.fault(t).Clear?;
    assert env.child(t) == env.child(from);
  }

  // What the three worlds show at one time of a stop that began at `start`;
  // `term` is when the signal lands in the world that heeds it.
  lemma {:induction false} Shown(env: Env, start: nat, term: nat, t: nat, id: Identity)
    requires start <= t && start <= term
    ensures Stubborn(env, start, id) ==>
              Stands(env, t, id) && Stubborn(env, t, id) && Standing(env, t, t + 2, id)
    ensures Standing(env, start, term, id) ==>
              (t < term ==> Stands(env, t, id)) && (t + 2 <= term ==> Standing(env, t, t + 2, id))
    ensures Gone(env, start, id) ==>
              && env.fault(t).Clear? && env.child(t) == env.child(start) && env.child(t).Reaped?
              && id.pid !in env.world(t) && Members(env.world(t), id.pgid) == {} && Gone(env, t, id)
  {
    hide Stubborn, Standing, Gone, Stands;
    if Stubborn(env, start, id) {
      StubbornAt(env, start, t, id);
    }
    if Standing(env, start, term, id) && t < term {
      StandingAt(env, start, term, t, id);
    }
    if Gone(env, start, id) {
      GoneAt(env, start, t, id);
    }
  }

  // ---------- System calls ----------

  method ObserveProcess(env: Env, start: nat, log: seq<Action>, pid: nat)
    returns (r: Result<Identity>, next: seq<Action>)
    ensures pid <= 1 || pid > I32_MAX ==> r == Err(InvalidInput) && next == log
    ensures 1 < pid <= I32_MAX ==>
              var a := LookAtProcess(env, start + |log|, pid);
              && next == log + [a]
              && r == match a
                 case SawProcess(_, identity) => Ok(identity)
                 case SawNone(_) => Err(NotFound)
                 case Missed(true) => Err(WouldBlock)
                 case _ => Err(OtherError)
  {
    next := log;
    if pid <= 1 || pid > I32_MAX {
      return Err(InvalidInput), next;
    }
    var a := LookAtProcess(env, start + |log|, pid);
    next := log + [a];
    r := match a
    case SawProcess(_, identity) => Ok(identity)
    case SawNone(_) => Err(NotFound)
    case Missed(true) => Err(WouldBlock)
    case _ => Err(OtherError);
  }

  // Looking again after a torn read adds nothing to what is known.
  ghost predicate Looked(
    id: Identity, leaderless: bool, log: seq<Action>, next: seq<Action>, r: Result<set<Identity>>)
  {
    var w := WatchOf(id, leaderless, log);
    WatchOf(id, leaderless, next) == w.(group := if r.Ok? then Some(r.value) else None)
  }

  method ObserveGroup(env: Env, start: nat, log: seq<Action>, id: Identity, ghost leaderless: bool)
    returns (r: Result<set<Identity>>, next: seq<Action>)
    requires Faithful(env, start, log)
    ensures Faithful(env, start, next)
    ensures !SafeTarget(id.pgid) ==> r == Err(InvalidInput) && next == log
    ensures SafeTarget(id.pgid) ==> Looked(id, leaderless, log, next, r)
    ensures SafeTarget(id.pgid) && env.fault(start + |log|).Clear? ==>
              r == Ok(Members(env.world(start + |log|), id.pgid)) && |next| == |log| + 1
    ensures log <= next
  {
    next := log;
    if !SafeTarget(id.pgid) {
      return Err(InvalidInput), next;
    }
    r := Err(OtherError);
    var attempt := 0;
    while attempt < MEMBER_OBSERVATION_RETRIES
      invariant attempt <= MEMBER_OBSERVATION_RETRIES
      invariant Faithful(env, start, next) && log <= next && r.Err?
      invariant attempt == 0 ==> next == log
      invariant attempt > 0 ==> !env.fault(start + |log|).Clear?
      invariant
        var w := WatchOf(id, leaderless, log);
        WatchOf(id, leaderless, next) == if attempt == 0 then w else w.(group := None)
    {
      hide Faithful, Members, WatchOf;
      var a := LookAtGroup(env, start + |next|, id.pgid);
      FaithfulNext(env, start, next, a);
      WatchNext(id, leaderless, next, a);
      next := next + [a];
      match a {
        case SawGroup(_, members) => return Ok(members), next;
        case Missed(true) => r := Err(WouldBlock);
        case _ => return Err(OtherError), next;
      }
      attempt := attempt + 1;
    }
  }

  method PollChild(env: Env, start: nat, log: seq<Action>) returns (poll: Poll, next: seq<Action>)
    requires Faithful(env, start, log)
    ensures Faithful(env, start, next) && next == log + [Polled(poll)] && poll == env.child(start + |log|)
  {
    poll := env.child(start + |log|);
    next := log + [Polled(poll)];
  }

  // A group that is already gone counts as signalled.
  method SignalGroup(env: Env, start: nat, log: seq<Action>, pgid: int, signal: Signal)
    returns (r: Result<()>, next: seq<Action>)
    requires Faithful(env, start, log)
    ensures Faithful(env, start, next)
    ensures next == if SafeTarget(pgid) then log + [Sent(pgid, signal)] else log
    ensures r.Ok? <==> SafeTarget(pgid) && !env.fault(start + |log|).Broken?
  {
    next := log;
    if !SafeTarget(pgid) {
      return Err(InvalidInput), next;
    }
    next := log + [Sent(pgid, signal)];
    r := if env.fault(start + |log|).Broken? then Err(OtherError) else Ok(());
  }

  // ---------- Waiting ----------

  // Looking on changes neither what was sent nor whether it was allowed.
  ghost predicate OnlyLooked(id: Identity, leaderless: bool, log: seq<Action>, next: seq<Action>) {
    var w, w' := WatchOf(id, leaderless, log), WatchOf(id, leaderless, next);
    w'.sent == w.sent && w'.lawful == w.lawful
  }

  // The last thing seen is that the group has no members.
  ghost predicate SawEmpty(id: Identity, leaderless: bool, log: seq<Action>) {
    WatchOf(id, leaderless, log).group == Some({})
  }

  // `patience` is the number of rounds until the deadline.
  method WaitForGroupDeath(
    env: Env, start: nat, log: seq<Action>, id: Identity, patience: nat, ghost leaderless: bool)
    returns (r: Result<Option<Exit>>, next: seq<Action>)
    requires Faithful(env, start, log) && SafeTarget(id.pgid)
    ensures Faithful(env, start, next) && OnlyLooked(id, leaderless, log, next)
    ensures r.Ok? && r.value.Some? ==> SawEmpty(id, leaderless, next)
    ensures log <= next
    ensures Stubborn(env, start + |log|, id) ==> r == Ok(None)
    ensures Gone(env, start + |log|, id) ==> r == Ok(Some(env.child(start + |log|).exit))
  {
    hide Faithful, WatchOf;
    next := log;
    var leaderExit: Option<Exit> := None;
    var left := patience;
    while true
      invariant Faithful(env, start, next) && OnlyLooked(id, leaderless, log, next)
      invariant log <= next
      invariant leaderExit.Some? ==> next != log && !Stubborn(env, start + |log|, id)
      invariant next == log || !Gone(env, start + |log|, id)
      decreases left
    {
      if leaderExit.None? {
        ghost var before := next;
        var poll;
        poll, next := PollChild(env, start, next);
        WatchNext(id, leaderless, before, Polled(poll));
        match poll {
          case StillRunning =>
          case Reaped(exit) => leaderExit := Some(exit);
          case PollError => return Err(OtherError), next;
        }
      }
      var seen;
      seen, next := ObserveGroup(env, start, next, id, leaderless);
      match seen {
        case Ok(members) =>
          if members == {} && leaderExit.Some? {
            return Ok(leaderExit), next;
          }
        case Err(WouldBlock) =>
        case Err(e) => return Err(e), next;
      }
      if left == 0 {
        return Ok(None), next;
      }
      left := left - 1;
    }
  }

  method WaitForPersistedGroupDeath(
    env: Env, start: nat, log: seq<Action>, id: Identity, patience: nat, ghost leaderless: bool)
    returns (r: Result<bool>, next: seq<Action>)
    requires Faithful(env, start, log) && SafeTarget(id.pgid)
    ensures Faithful(env, start, next) && OnlyLooked(id, leaderless, log, next)
    ensures r == Ok(true) ==> SawEmpty(id, leaderless, next)
    ensures log <= next
    ensures Lingers(env, start + |log|, id) ==> r == Ok(false)
    ensures Emptied(env, start + |log|, id) ==> r == Ok(true)
  {
    hide Faithful, WatchOf;
    next := log;
    var left := patience;
    while true
      invariant Faithful(env, start, next) && OnlyLooked(id, leaderless, log, next)
      invariant log <= next
      invariant next == log || !Emptied(env, start + |log|, id)
      decreases left
    {
      var seen;
      seen, next := ObserveGroup(env, start, next, id, leaderless);
      match seen {
        case Ok(members) =>
          if members == {} {
            return Ok(true), next;
          }
        case Err(WouldBlock) =>
        case Err(e) => return Err(e), next;
      }
      if left == 0 {
        return Ok(false), next;
      }
      left := left - 1;
    }
  }

  method EnsureGroupEmpty(env: Env, start: nat, log: seq<Action>, id: Identity, patience: nat, ghost leaderless: bool)
    returns (r: Result<()>, next: seq<Action>)
    requires Faithful(env, start, log)
    ensures Faithful(env, start, next) && OnlyLooked(id, leaderless, log, next)
    ensures r.Ok? ==> SawEmpty(id, leaderless, next)
    ensures log <= next
    ensures SafeTarget(id.pgid) && Gone(env, start + |log|, id) ==> r.Ok?
  {
    hide Faithful, WatchOf;
    next := log;
    var left := patience;
    while true
      invariant Faithful(env, start, next) && OnlyLooked(id, leaderless, log, next)
      invariant log <= next
      invariant next == log || !Gone(env, start + |log|, id)
      decreases left
    {
      var seen;
      seen, next := ObserveGroup(env, start, next, id, leaderless);
      match seen {
        case Ok(members) =>
          if members == {} {
            return Ok(()), next;
          }
          return Err(OtherError), next;
        case Err(WouldBlock) =>
          if left == 0 {
            return Err(WouldBlock), next;
          }
        case Err(e) => return Err(e), next;
      }
      left := left - 1;
    }
  }

  // ---------- Stopping ----------

  datatype StopOutcome = AlreadyExited(exit: Exit) | Terminated(exit: Exit)

  /** A stop that obeyed the rules: every signal was allowed when it was sent, at
      most one of each was sent, and success was seen. */
  ghost predicate Obeyed<T>(env: Env, start: nat, id: Identity, leaderless: bool, log: seq<Action>, r: Result<T>) {
    && Faithful(env, start, log)
    && WatchOf(id, leaderless, log).lawful
    && (r.Ok? ==> SawEmpty(id, leaderless, log))
  }

  // The identity of the leader, then the membership of its group, then TERM.
  method TermOwnedGroup(env: Env, start: nat, log: seq<Action>, id: Identity) returns (r: Result<()>, next: seq<Action>)
    requires Faithful(env, start, log) && SafeTarget(id.pgid)
    requires
      var w := WatchOf(id, false, log);
      w.lawful && w.leader.Some? && w.sent == []
    ensures Faithful(env, start, next) && log <= next
    ensures WatchOf(id, false, next).lawful
    ensures r.Ok? ==> WatchOf(id, false, next).sent == [Term]
    ensures Standing(env, start + |log|, start + |log| + 2, id) ==> r.Ok? && |next| == |log| + 2
  {
    hide Faithful, WatchOf;
    var seen;
    seen, next := ObserveGroup(env, start, log, id, false);
    if seen.Err? {
      return Err(seen.error), next;
    }
    if !Owned(id, seen.value) {
      return Err(OtherError), next;
    }
    WatchNext(id, false, next, Sent(id.pgid, Term));
    r, next := SignalGroup(env, start, next, id.pgid, Term);
  }

  // Membership is checked again before KILL.
  method KillOwnedGroup(env: Env, start: nat, log: seq<Action>, id: Identity, ghost leaderless: bool)
    returns (r: Result<()>, next: seq<Action>)
    requires Faithful(env, start, log) && SafeTarget(id.pgid)
    requires WatchOf(id, leaderless, log).lawful && WatchOf(id, leaderless, log).sent == [Term]
    ensures Faithful(env, start, next) && log <= next
    ensures WatchOf(id, leaderless, next).lawful
    ensures r.Ok? ==> WatchOf(id, leaderless, next).sent == [Term, Kill]
    ensures Inhabited(env, start + |log|, id) && Inhabited(env, start + |log| + 1, id) ==> r.Ok?
  {
    hide Faithful, WatchOf;
    var seen;
    seen, next := ObserveGroup(env, start, log, id, leaderless);
    if seen.Err? {
      return Err(seen.error), next;
    }
    if !Unambiguous(id, seen.value) {
      return Err(OtherError), next;
    }
    WatchNext(id, leaderless, next, Sent(id.pgid, Kill));
    r, next := SignalGroup(env, start, next, id.pgid, Kill);
  }

  // After TERM: wait for the child and its group, with KILL at the deadline.
  method AwaitChildOrKill(env: Env, start: nat, log: seq<Action>, id: Identity, patience: nat)
    returns (r: Result<Exit>, next: seq<Action>)
    requires Faithful(env, start, log) && SafeTarget(id.pgid)
    requires WatchOf(id, false, log).lawful && WatchOf(id, false, log).sent == [Term]
    ensures Obeyed(env, start, id, false, next, r)
    ensures Gone(env, start + |log|, id) ==>
              r == Ok(env.child(start + |log|).exit) && WatchOf(id, false, next).sent == [Term]
    ensures Stubborn(env, start + |log|, id) ==>
              r == Err(TimedOut) && WatchOf(id, false, next).sent == [Term, Kill]
  {
    hide Faithful, WatchOf, Stubborn, Standing, Gone, Members, Lingers, Inhabited;
    ghost var t := start + |log|;
    var dead;
    dead, next := WaitForGroupDeath(env, start, log, id, patience, false);
    if dead.Err? {
      return Err(dead.error), next;
    }
    if dead.value.Some? {
      Shown(env, t, t, t, id);
      return Ok(dead.value.value), next;
    }
    Shown(env, t, t, start + |next|, id);
    LingersOn(env, t, start + |next|, id);
    LingersOn(env, start + |next|, start + |next|, id);
    LingersOn(env, start + |next|, start + |next| + 1, id);
    var killed;
    killed, next := KillOwnedGroup(env, start, next, id, false);
    if killed.Err? {
      return Err(killed.error), next;
    }
    Shown(env, t, t, start + |next|, id);
    dead, next := WaitForGroupDeath(env, start, next, id, patience, false);
    if dead.Err? {
      return Err(dead.error), next;
    }
    r := if dead.value.Some? then Ok(dead.value.value) else Err(TimedOut);
  }

  method PerformStop(env: Env, start: nat, childPid: Option<nat>, id: Identity, patience: nat)
    returns (r: Result<StopOutcome>, log: seq<Action>)
    ensures Obeyed(env, start, id, false, log, r)
    ensures childPid.Some? && SafeTarget(id.pgid) && Gone(env, start, id) ==>
              r == Ok(AlreadyExited(env.child(start).exit)) && WatchOf(id, false, log).sent == []
    ensures childPid == Some(id.pid) && Isolated(id.pid, id) && id.pid <= I32_MAX ==>
              && (Stubborn(env, start, id) ==> r == Err(TimedOut) && WatchOf(id, false, log).sent == [Term, Kill])
              && (Standing(env, start, start + 4, id) && Gone(env, start + 4, id) ==>
                    r == Ok(Terminated(env.child(start + 4).exit)) && WatchOf(id, false, log).sent == [Term])
  {
    hide Faithful, WatchOf, Stubborn, Standing, Gone, Members, Unambiguous;
    log := [];
    Shown(env, start, start + 4, start, id);
    if childPid.None? {
      NothingDone(env, start, id, false);
      return Err(OtherError), log;
    }
    NothingDone(env, start, id, false);
    ghost var before := log;
    var poll;
    poll, log := PollChild(env, start, log);
    WatchNext(id, false, before, Polled(poll));
    match poll {
      case Reaped(exit) =>
        Shown(env, start, start + 4, start + |log|, id);
        var empty;
        empty, log := EnsureGroupEmpty(env, start, log, id, patience, false);
        return (if empty.Ok? then Ok(AlreadyExited(exit)) else Err(empty.error)), log;
      case PollError => return Err(OtherError), log;
      case StillRunning =>
    }
    if !Isolated(childPid.value, id) {
      return Err(OtherError), log;
    }
    before := log;
    Shown(env, start, start + 4, start + 1, id);
    var observed;
    observed, log := ObserveProcess(env, start, log, id.pid);
    if id.pid <= I32_MAX {
      WatchNext(id, false, before, LookAtProcess(env, start + |before|, id.pid));
      FaithfulNext(env, start, before, LookAtProcess(env, start + |before|, id.pid));
    }
    match observed {
      case Err(NotFound) =>
        r, log := StopVanished(env, start, log, id, patience);
        return;
      case Err(e) => return Err(e), log;
      case Ok(identity) =>
        if identity != id {
          return Err(OtherError), log;
        }
    }
    Shown(env, start, start + 4, start + |log|, id);
    var termed;
    termed, log := TermOwnedGroup(env, start, log, id);
    if termed.Err? {
      return Err(termed.error), log;
    }
    Shown(env, start, start + 4, start + |log|, id);
    var dead;
    dead, log := AwaitChildOrKill(env, start, log, id, patience);
    r := if dead.Ok? then Ok(Terminated(dead.value)) else Err(dead.error);
  }

  // The leader is not in the table, so nothing is signalled.
  method StopVanished(env: Env, start: nat, log: seq<Action>, id: Identity, patience: nat)
    returns (r: Result<StopOutcome>, next: seq<Action>)
    requires Faithful(env, start, log) && SafeTarget(id.pgid)
    ensures Faithful(env, start, next) && OnlyLooked(id, false, log, next)
    ensures r.Ok? ==> SawEmpty(id, false, next)
  {
    hide Faithful, WatchOf;
    var poll;
    poll, next := PollChild(env, start, log);
    WatchNext(id, false, log, Polled(poll));
    match poll {
      case Reaped(exit) =>
        var empty;
        empty, next := EnsureGroupEmpty(env, start, next, id, patience, false);
        return (if empty.Ok? then Ok(AlreadyExited(exit)) else Err(empty.error)), next;
      case PollError => return Err(OtherError), next;
      case StillRunning =>
    }
    var dead;
    dead, next := WaitForGroupDeath(env, start, next, id, patience, false);
    if dead.Err? {
      return Err(dead.error), next;
    }
    r := if dead.value.Some? then Ok(AlreadyExited(dead.value.value)) else Err(NotFound);
  }

  lemma {:induction false} NothingDone(env: Env, start: nat, id: Identity, leaderless: bool)
    ensures Faithful(env, start, [])
    ensures WatchOf(id, leaderless, []) == Watch(None, None, None, [], true)
  {
  }

  // After TERM: wait, and if the group outlives the deadline, KILL and wait again.
  method AwaitOrKill(env: Env, start: nat, log: seq<Action>, id: Identity, patience: nat, ghost leaderless: bool)
    returns (r: Result<()>, next: seq<Action>)
    requires Faithful(env, start, log) && SafeTarget(id.pgid)
    requires WatchOf(id, leaderless, log).lawful && WatchOf(id, leaderless, log).sent == [Term]
    ensures Obeyed(env, start, id, leaderless, next, r)
    ensures Emptied(env, start + |log|, id) ==> r.Ok? && WatchOf(id, leaderless, next).sent == [Term]
    ensures Lingers(env, start + |log|, id) ==>
              r == Err(TimedOut) && WatchOf(id, leaderless, next).sent == [Term, Kill]
  {
    hide Faithful, WatchOf, Members, Lingers, Emptied, Inhabited;
    ghost var t := start + |log|;
    var gone;
    gone, next := WaitForPersistedGroupDeath(env, start, log, id, patience, leaderless);
    if gone.Err? {
      return Err(gone.error), next;
    }
    if gone.value {
      return Ok(()), next;
    }
    LingersOn(env, t, start + |next|, id);
    LingersOn(env, t, start + |next| + 1, id);
    var killed;
    killed, next := KillOwnedGroup(env, start, next, id, leaderless);
    if killed.Err? {
      return Err(killed.error), next;
    }
    LingersOn(env, t, start + |next|, id);
    gone, next := WaitForPersistedGroupDeath(env, start, next, id, patience, leaderless);
    if gone.Err? {
      return Err(gone.error), next;
    }
    r := if gone.value then Ok(()) else Err(TimedOut);
  }

  // `exit` is what the termination latch holds when the stop is done.
  method PerformDetachedStop(env: Env, start: nat, id: Identity, patience: nat, exit: Exit)
    returns (r: Result<StopOutcome>, log: seq<Action>)
    ensures Obeyed(env, start, id, false, log, r)
    ensures Isolated(id.pid, id) && id.pid <= I32_MAX ==>
              && (Gone(env, start, id) ==> r == Ok(AlreadyExited(exit)) && WatchOf(id, false, log).sent == [])
              && (Stubborn(env, start, id) ==> r == Err(TimedOut) && WatchOf(id, false, log).sent == [Term, Kill])
              && (Standing(env, start, start + 3, id) && Gone(env, start + 3, id) ==>
                    r == Ok(Terminated(exit)) && WatchOf(id, false, log).sent == [Term])
  {
    hide Faithful, WatchOf, Stubborn, Standing, Gone, Members, Lingers, Emptied, Inhabited, Unambiguous;
    log := [];
    NothingDone(env, start, id, false);
    if !Isolated(id.pid, id) {
      return Err(OtherError), log;
    }
    Shown(env, start, start + 3, start, id);
    var observed;
    observed, log := ObserveProcess(env, start, log, id.pid);
    if id.pid <= I32_MAX {
      WatchNext(id, false, [], LookAtProcess(env, start, id.pid));
      FaithfulNext(env, start, [], LookAtProcess(env, start, id.pid));
    }
    Shown(env, start, start + 3, start + |log|, id);
    match observed {
      case Err(NotFound) =>
        var empty;
        empty, log := EnsureGroupEmpty(env, start, log, id, patience, false);
        return (if empty.Ok? then Ok(AlreadyExited(exit)) else Err(empty.error)), log;
      case Err(e) => return Err(e), log;
      case Ok(identity) =>
        if identity != id {
          return Err(OtherError), log;
        }
    }
    var termed;
    termed, log := TermOwnedGroup(env, start, log, id);
    if termed.Err? {
      return Err(termed.error), log;
    }
    Shown(env, start, start + 3, start + |log|, id);
    LingersOn(env, start, start + |log|, id);
    LingersOn(env, start + |log|, start + |log|, id);
    termed, log := AwaitOrKill(env, start, log, id, patience, false);
    r := if termed.Ok? then Ok(Terminated(exit)) else Err(termed.error);
  }

  // TERM for a group whose leader was seen, or for an orphaned group every
  // member of which is beyond doubt. Answers whether there was nobody to signal.
  method TermPersistedGroup(env: Env, start: nat, log: seq<Action>, id: Identity, leaderSeen: bool)
    returns (r: Result<bool>, next: seq<Action>)
    requires Faithful(env, start, log) && SafeTarget(id.pgid)
    requires
      var w := WatchOf(id, true, log);
      w.lawful && w.sent == [] && (if leaderSeen then w.leader.Some? else w.absent.Some?)
    ensures Faithful(env, start, next) && log <= next && WatchOf(id, true, next).lawful
    ensures r == Ok(true) ==> SawEmpty(id, true, next) && WatchOf(id, true, next).sent == []
    ensures r == Ok(false) ==> WatchOf(id, true, next).sent == [Term]
    ensures Settled(env, start + |log|, start + |log| + 2, id, leaderSeen) ==> r == Ok(false) && |next| == |log| + 2
    ensures !leaderSeen && Emptied(env, start + |log|, id) ==> r == Ok(true)
  {
    hide Faithful, WatchOf;
    var seen;
    seen, next := ObserveGroup(env, start, log, id, true);
    if seen.Err? {
      return Err(seen.error), next;
    }
    if !leaderSeen && seen.value == {} {
      return Ok(true), next;
    }
    if !(if leaderSeen then Owned(id, seen.value) else Unambiguous(id, seen.value)) {
      return Err(OtherError), next;
    }
    WatchNext(id, true, next, Sent(id.pgid, Term));
    var termed;
    termed, next := SignalGroup(env, start, next, id.pgid, Term);
    r := if termed.Ok? then Ok(false) else Err(termed.error);
  }

  /** After a restart the leader may be gone while its group lives on. A group that
      has emptied is left alone; a group that is led, or orphaned but beyond doubt,
      gets TERM, and KILL exactly when it outlives the deadline. */
  method StopPersisted(env: Env, start: nat, id: Identity, patience: nat) returns (r: Result<()>, log: seq<Action>)
    ensures Obeyed(env, start, id, true, log, r)
    ensures Isolated(id.pid, id) && id.pid <= I32_MAX ==>
              && (Emptied(env, start, id) ==> r.Ok? && WatchOf(id, true, log).sent == [])
              && (Settled(env, start, start + 3, id, true) || Settled(env, start, start + 3, id, false) ==>
                    && (Emptied(env, start + 3, id) ==> r.Ok? && WatchOf(id, true, log).sent == [Term])
                    && (Lingers(env, start + 3, id) ==>
                          r == Err(TimedOut) && WatchOf(id, true, log).sent == [Term, Kill]))
  {
    hide Faithful, WatchOf, Settled, Emptied, Lingers, Members, Inhabited;
    log := [];
    NothingDone(env, start, id, true);
    if !Isolated(id.pid, id) {
      return Err(OtherError), log;
    }
    SettledAt(env, start, id, true);
    SettledAt(env, start, id, false);
    var observed;
    observed, log := ObserveProcess(env, start, log, id.pid);
    if id.pid <= I32_MAX {
      WatchNext(id, true, [], LookAtProcess(env, start, id.pid));
      FaithfulNext(env, start, [], LookAtProcess(env, start, id.pid));
    }
    if observed.Err? && observed.error != NotFound {
      return Err(observed.error), log;
    }
    if observed.Ok? && observed.value != id {
      return Err(OtherError), log;
    }
    var empty;
    empty, log := TermPersistedGroup(env, start, log, id, observed.Ok?);
    if empty.Err? {
      return Err(empty.error), log;
    }
    if empty.value {
      return Ok(()), log;
    }
    r, log := AwaitOrKill(env, start, log, id, patience, true);
  }

  // What the first look of a persisted stop shows in each of its worlds.
  lemma {:induction false} SettledAt(env: Env, start: nat, id: Identity, led: bool)
    ensures Settled(env, start, start + 3, id, led) ==>
              && env.fault(start).Clear? && Settled(env, start + 1, start + 3, id, led)
              && (id.pid in env.world(start) <==> led) && (led ==> env.world(start)[id.pid] == id)
    ensures Emptied(env, start, id) ==>
              env.fault(start).Clear? && id.pid !in env.world(start) && Emptied(env, start + 1, id)
  {
    hide Members, Unambiguous;
    if Settled(env, start, start + 3, id, led) {
      assert env.fault(start).Clear?;
      assert env.fault(start + 1).Clear?;
      assert env.fault(start + 2).Clear?;
    }
  }

  // ---------- What obeying the rules means for the table ----------

  // The places in a watch point at what was seen there.
  lemma {:induction false} WatchPoints(id: Identity, leaderless: bool, log: seq<Action>)
    ensures
      var w := WatchOf(id, leaderless, log);
      && (w.leader.Some? ==> w.leader.value < |log| && log[w.leader.value] == SawProcess(id.pid, id))
      && (w.absent.Some? ==> w.absent.value < |log| && log[w.absent.value] == SawNone(id.pid))
      && (w.group.Some? ==> log != [] && log[|log| - 1] == SawGroup(id.pgid, w.group.value))
  {
    if log != [] {
      WatchPoints(id, leaderless, log[..|log| - 1]);
    }
  }

  // A lawful log was lawful at every earlier point.
  lemma {:induction false} LawfulBefore(id: Identity, leaderless: bool, log: seq<Action>, i: nat)
    requires WatchOf(id, leaderless, log).lawful && i <= |log|
    ensures WatchOf(id, leaderless, log[..i]).lawful
  {
    if i < |log| {
      LawfulBefore(id, leaderless, log[..|log| - 1], i);
      assert log[..|log| - 1][..i] == log[..i];
    } else {
      assert log[..i] == log;
    }
  }

  function SignalsOf(log: seq<Action>): seq<Signal> {
    if log == [] then [] else
    var last := log[|log| - 1];
    SignalsOf(log[..|log| - 1]) + if last.Sent? then [last.signal] else []
  }

  lemma {:induction false} SentIsSignals(id: Identity, leaderless: bool, log: seq<Action>)
    ensures WatchOf(id, leaderless, log).sent == SignalsOf(log)
  {
    if log != [] {
      SentIsSignals(id, leaderless, log[..|log| - 1]);
    }
  }

  // The process table shows the leader as recorded, inside a group all its own.
  ghost predicate LeaderThere(t: Table, id: Identity) {
    id.pid in t && t[id.pid] == id
  }

  ghost predicate GroupUnambiguous(t: Table, id: Identity) {
    forall pid :: pid in t && t[pid].pgid == id.pgid ==>
      t[pid].pid > 1 && t[pid].uid == id.uid && t[pid].startToken != ""
  }

  ghost predicate GroupEmpty(t: Table, pgid: int) {
    forall pid :: pid in t ==> t[pid].pgid != pgid
  }

  lemma {:induction false} MembersAre(t: Table, id: Identity)
    ensures Members(t, id.pgid) == {} <==> GroupEmpty(t, id.pgid)
    ensures Unambiguous(id, Members(t, id.pgid)) ==> GroupUnambiguous(t, id)
    ensures id in Members(t, id.pgid) ==> exists pid :: pid in t && t[pid] == id
  {
    forall pid | pid in t && t[pid].pgid == id.pgid ensures t[pid] in Members(t, id.pgid) {
    }
  }

  // A signal in a lawful log was allowed when it was sent.
  lemma {:induction false} AllowedWhenSent(id: Identity, leaderless: bool, log: seq<Action>, i: nat)
    requires WatchOf(id, leaderless, log).lawful && i < |log| && log[i].Sent?
    ensures log[i].pgid == id.pgid
    ensures
      var w := WatchOf(id, leaderless, log[..i]);
      if log[i].signal.Term? then MayTerm(w, id, leaderless) else MayKill(w, id)
  {
    LawfulBefore(id, leaderless, log, i + 1);
    assert log[..i + 1][..i] == log[..i];
  }

  /** TERM is never sent on a guess. When it was sent, the process table had shown
      the recorded leader under its pid, and at the last look before the signal
      the group held that leader and nobody of another user. Only after a restart
      the leader may instead be gone, with the group still inhabited. */
  lemma {:induction false} TermIsJustified(
    env: Env, start: nat, id: Identity, leaderless: bool, log: seq<Action>, i: nat)
    returns (seen: nat)
    requires Faithful(env, start, log) && WatchOf(id, leaderless, log).lawful
    requires i < |log| && log[i].Sent? && log[i].signal.Term?
    ensures log[i].pgid == id.pgid && seen < i - 1 && SignalsOf(log[..i]) == []
    ensures GroupUnambiguous(env.world(start + i - 1), id)
    ensures
      || (LeaderThere(env.world(start + seen), id) && id in Members(env.world(start + i - 1), id.pgid))
      || (leaderless && id.pid !in env.world(start + seen) && !GroupEmpty(env.world(start + i - 1), id.pgid))
  {
    hide Members, SignalsOf, WatchOf, GroupUnambiguous, GroupEmpty;
    var before := log[..i];
    var w := WatchOf(id, leaderless, before);
    AllowedWhenSent(id, leaderless, log, i);
    WatchPoints(id, leaderless, before);
    SentIsSignals(id, leaderless, before);
    MembersAre(env.world(start + i - 1), id);
    assert IsTrue(env, start + (i - 1), log[i - 1]);
    seen := if w.leader.Some? && Owned(id, w.group.value) then w.leader.value else w.absent.value;
    assert IsTrue(env, start + seen, log[seen]);
  }

  /** KILL follows a TERM, and a last look that found nobody of another user. */
  lemma {:induction false} KillIsJustified(
    env: Env, start: nat, id: Identity, leaderless: bool, log: seq<Action>, i: nat)
    requires Faithful(env, start, log) && WatchOf(id, leaderless, log).lawful
    requires i < |log| && log[i].Sent? && log[i].signal.Kill?
    ensures log[i].pgid == id.pgid && i > 0 && SignalsOf(log[..i]) == [Term]
    ensures GroupUnambiguous(env.world(start + i - 1), id)
  {
    hide Members, SignalsOf, WatchOf, GroupUnambiguous;
    var before := log[..i];
    AllowedWhenSent(id, leaderless, log, i);
    WatchPoints(id, leaderless, before);
    SentIsSignals(id, leaderless, before);
    MembersAre(env.world(start + i - 1), id);
    assert IsTrue(env, start + (i - 1), log[i - 1]);
  }

  /** A stop reports success only when the last look found the group empty. */
  lemma {:induction false} SuccessIsProved<T>(
    env: Env, start: nat, id: Identity, leaderless: bool, log: seq<Action>, r: Result<T>)
    requires Obeyed(env, start, id, leaderless, log, r) && r.Ok?
    ensures log != [] && GroupEmpty(env.world(start + |log| - 1), id.pgid)
  {
    WatchPoints(id, leaderless, log);
    MembersAre(env.world(start + |log| - 1), id);
    assert IsTrue(env, start + (|log| - 1), log[|log| - 1]);
  }

  // ---------- Stops among other activity ----------

  /** The tables as someone sees them who acts at the times `when(0)`, `when(1)`,
      and so on, while others act in between. */
  function View(env: Env, when: nat -> nat): Env {
    Env((i: nat) => env.world(when(i)), (i: nat) => env.fault(when(i)), (i: nat) => env.child(when(i)))
  }

  // One look at the group of `id` and nothing else, as `ObserveGroup` takes it.
  ghost predicate OneLook(env: Env, start: nat, id: Identity, log: seq<Action>, r: Result<set<Identity>>) {
    && Faithful(env, start, log)
    && (if SafeTarget(id.pgid) then Looked(id, false, [], log, r) else r.Err?)
  }

  method LookOnce(env: Env, start: nat, id: Identity) returns (r: Result<set<Identity>>, log: seq<Action>)
    ensures OneLook(env, start, id, log, r)
  {
    r, log := ObserveGroup(env, start, [], id, false);
  }

  /** A look that finds nobody was a look at a table without the group. */
  lemma {:induction false} EmptyLookIsProof(
    env: Env, start: nat, id: Identity, log: seq<Action>, r: Result<set<Identity>>)
    requires OneLook(env, start, id, log, r) && r == Ok({})
    ensures log != [] && GroupEmpty(env.world(start + |log| - 1), id.pgid)
  {
    WatchPoints(id, false, log);
    MembersAre(env.world(start + |log| - 1), id);
    assert IsTrue(env, start + (|log| - 1), log[|log| - 1]);
  }
}
