/**
 Whom a group signal reaches. A process group is a number that outlives its
 founder: while it is inhabited, only children of its members join it; once it
 has died out, its number is that of whoever is given the pid and founds it anew.

 The rules of `ProcessGroups` say what a stop has seen before it signals. Here is
 what that means for the processes behind the number.
 */
module GroupLineage {
  import opened ProcessGroups

  // The members of one group, each with whether it descends from the runtime, and
  // every identity used so far.
  datatype Group = Group(members: map<Identity, bool>, used: set<Identity>)

  datatype Change = Forks(parent: Identity, child: Identity) | Founds(founder: Identity) | Dies(member: Identity)

  predicate Possible(g: Group, pgid: int, c: Change) {
    match c
    case Forks(parent, child) => parent in g.members && child.pgid == pgid && child !in g.used
    case Founds(founder) =>
      g.members == map[] && founder.pid == pgid && founder.pgid == pgid && founder !in g.used
    case Dies(member) => member in g.members
  }

  function Changed(g: Group, pgid: int, c: Change): Group {
    if !Possible(g, pgid, c) then g else
    match c
    case Forks(parent, child) => Group(g.members[child := g.members[parent]], g.used + {child})
    case Founds(founder) => Group(map[founder := false], g.used + {founder})
    case Dies(member) => g.(members := g.members - {member})
  }

  function Grown(g: Group, pgid: int, history: seq<Change>): Group {
    if history == [] then g else Changed(Grown(g, pgid, history[..|history| - 1]), pgid, history[|history| - 1])
  }

  // At some point of the history the group had no members.
  predicate DiedOut(g: Group, pgid: int, history: seq<Change>) {
    || Grown(g, pgid, history).members == map[]
    || (history != [] && DiedOut(g, pgid, history[..|history| - 1]))
  }

  // The group of the runtime, as its leader founded it and its children joined it.
  predicate Own(g: Group, id: Identity) {
    id in g.members && g.members.Keys <= g.used && forall m :: m in g.members ==> g.members[m]
  }

  ghost predicate HasStranger(g: Group) {
    exists m :: m in g.members && !g.members[m]
  }

  // The members of a group are all kin or all strangers, and which of the two only
  // depends on whether it ever died out.
  lemma {:induction false} AllOrNone(g: Group, id: Identity, history: seq<Change>)
    requires Own(g, id)
    ensures
      var (now, dead) := (Grown(g, id.pgid, history), DiedOut(g, id.pgid, history));
      && (forall m :: m in now.members ==> now.members[m] == !dead && m in now.used)
      && g.used <= now.used && (dead ==> id !in now.members)
  {
    if history != [] {
      AllOrNone(g, id, history[..|history| - 1]);
    }
  }

  /** A group has a stranger exactly when it is inhabited and died out before. */
  lemma {:induction false} StrangersIff(g: Group, id: Identity, history: seq<Change>)
    requires Own(g, id)
    ensures HasStranger(Grown(g, id.pgid, history)) <==>
            Grown(g, id.pgid, history).members != map[] && DiedOut(g, id.pgid, history)
  {
    AllOrNone(g, id, history);
    var now := Grown(g, id.pgid, history);
    if now.members != map[] {
      assert exists m :: m in now.members.Keys;
    }
  }

  // The process table shows the group as its history made it; `when` is how far the
  // history is at each time.
  ghost predicate Follows(
    env: Env, start: nat, until: nat, id: Identity, g: Group, history: seq<Change>, when: nat -> nat)
  {
    forall t :: start <= t <= until ==>
      && when(t) <= |history|
      && Members(env.world(t), id.pgid) == Grown(g, id.pgid, history[..when(t)]).members.Keys
  }

  // The group as its history had made it at a time.
  ghost function At(g: Group, id: Identity, history: seq<Change>, n: nat): Group {
    Grown(g, id.pgid, history[..if n <= |history| then n else |history|])
  }

  ghost predicate DeadBy(g: Group, id: Identity, history: seq<Change>, n: nat) {
    DiedOut(g, id.pgid, history[..if n <= |history| then n else |history|])
  }

  // The action before a signal is a look at the group.
  lemma {:induction false} LooksFirst(env: Env, start: nat, id: Identity, log: seq<Action>, i: nat)
    requires Faithful(env, start, log) && WatchOf(id, true, log).lawful && i < |log| && log[i].Sent?
    ensures i >= 1 && log[i - 1] == SawGroup(id.pgid, Members(env.world(start + i - 1), id.pgid))
  {
    hide Members, WatchOf, Unambiguous, Owned;
    AllowedWhenSent(id, true, log, i);
    WatchPoints(id, true, log[..i]);
    assert IsTrue(env, start + (i - 1), log[i - 1]);
  }

  /** Whom a cleanup reaches. Every signal that a lawful stop sent, on whatever path,
      followed a look at the group, and reaches a stranger if and only if the group of
      the runtime had died out by then and is inhabited again. Was TERM sent on sight of
      the leader, the group had not died out by that look, so a stranger can only have
      come between the look and the signal. Had it died out by the look, the stop had
      found the pid of the leader unused. */
  lemma {:induction false} SignalReaches(
    env: Env, start: nat, id: Identity, log: seq<Action>, i: nat, g: Group, history: seq<Change>, when: nat -> nat)
    returns (seen: nat)
    requires Faithful(env, start, log) && WatchOf(id, true, log).lawful
    requires i < |log| && log[i].Sent?
    requires Own(g, id) && Follows(env, start, start + i, id, g, history, when)
    ensures i >= 1
    ensures
      var (look, sent) := (when(start + i - 1), when(start + i));
      && log[i - 1] == SawGroup(id.pgid, At(g, id, history, look).members.Keys)
      && (HasStranger(At(g, id, history, sent)) <==>
            At(g, id, history, sent).members != map[] && DeadBy(g, id, history, sent))
      && (log[i].signal.Term? ==>
            && (HasStranger(At(g, id, history, look)) <==> DeadBy(g, id, history, look))
            && (id in At(g, id, history, look).members ==> !DeadBy(g, id, history, look))
            && (DeadBy(g, id, history, look) ==> seen < i - 1 && id.pid !in env.world(start + seen)))
  {
    hide Grown, DiedOut, WatchOf, GroupUnambiguous, Faithful, Members, HasStranger;
    StrangersIff(g, id, history[..when(start + i)]);
    LooksFirst(env, start, id, log, i);
    var past := history[..when(start + i - 1)];
    if log[i].signal.Term? {
      seen := TermIsJustified(env, start, id, true, log, i);
      StrangersIff(g, id, past);
      AllOrNone(g, id, past);
      MembersAre(env.world(start + i - 1), id);
    } else {
      seen := 0;
    }
  }

  // ---------- A leaderless stop that meets a stranger ----------

  // The runtime dies, its pid goes to a process that founds a group, forks and dies.
  function TakenOver(id: Identity, founder: Identity, child: Identity): seq<Change> {
    [Dies(id), Founds(founder), Forks(founder, child), Dies(founder)]
  }

  // The process table after that; the child heeds TERM.
  function TableOf(child: Identity, t: nat): Table {
    if t < 3 then map[child.pid := child] else map[]
  }

  function Orphanage(child: Identity): Env {
    Env((t: nat) => TableOf(child, t), (t: nat) => Clear, (t: nat) => StillRunning)
  }

  ghost predicate CanTakeOver(id: Identity, founder: Identity, child: Identity) {
    && Isolated(id.pid, id) && id.pid <= I32_MAX
    && founder != id && founder.pid == id.pid && founder.pgid == id.pgid
    && child != id && child != founder && child.pid > 1 && child.pid != id.pid && child.pgid == id.pgid
    && child.uid == id.uid && child.startToken != ""
  }

  /** The condition can be met: here is a table whose group has died out and is
      inhabited by a stranger, and which is all a leaderless stop asks for. */
  lemma {:induction false} OrphansCanBeStrangers(id: Identity, founder: Identity, child: Identity)
    requires CanTakeOver(id, founder, child)
    ensures
      var (g, env, history) := (Group(map[id := true], {id}), Orphanage(child), TakenOver(id, founder, child));
      && Own(g, id) && Follows(env, 0, 2, id, g, history, (t: nat) => 4)
      && HasStranger(At(g, id, history, 4))
      && Settled(env, 0, 3, id, false) && Emptied(env, 3, id)
  {
    hide Grown;
    var g, history := Group(map[id := true], {id}), TakenOver(id, founder, child);
    NumberPassesOn(id, founder, child);
    assert history[..4] == history;
    assert child in Grown(g, id.pgid, history).members && !Grown(g, id.pgid, history).members[child];
    OrphanageShows(id, child);
  }

  lemma {:induction false} OrphanageShows(id: Identity, child: Identity)
    requires SafeTarget(id.pgid) && child.pid > 1 && child.pid != id.pid && child.pgid == id.pgid
    requires child.uid == id.uid && child.startToken != ""
    ensures forall t: nat :: Members(Orphanage(child).world(t), id.pgid) == if t < 3 then {child} else {}
    ensures Settled(Orphanage(child), 0, 3, id, false) && Emptied(Orphanage(child), 3, id)
  {
    var env := Orphanage(child);
    forall t: nat ensures Members(env.world(t), id.pgid) == if t < 3 then {child} else {} {
      OneMember(id, child, t);
    }
    forall t: nat | t < 3 ensures Inhabited(env, t, id) && id.pid !in env.world(t) {
      assert Members(env.world(t), id.pgid) == {child};
    }
  }

  lemma {:induction false} OneMember(id: Identity, child: Identity, t: nat)
    requires child.pgid == id.pgid
    ensures Members(TableOf(child, t), id.pgid) == if t < 3 then {child} else {}
  {
    if t < 3 {
      assert TableOf(child, t)[child.pid] == child;
    }
  }

  /** And the stop is run on it: it succeeds, and has sent TERM to the stranger. */
  method StopMeetsStranger(id: Identity, founder: Identity, child: Identity, patience: nat)
    returns (r: Result<()>, log: seq<Action>)
    requires CanTakeOver(id, founder, child)
    ensures Obeyed(Orphanage(child), 0, id, true, log, r)
    ensures r.Ok? && WatchOf(id, true, log).sent == [Term]
  {
    hide Obeyed, WatchOf, Settled, Emptied, Lingers;
    OrphansCanBeStrangers(id, founder, child);
    r, log := StopPersisted(Orphanage(child), 0, id, patience);
  }

  lemma {:induction false} NumberPassesOn(id: Identity, founder: Identity, child: Identity)
    requires founder != id && founder.pid == id.pid && founder.pgid == id.pgid == id.pid
    requires child != id && child != founder && child.pgid == id.pgid
    ensures
      var history := [Dies(id), Founds(founder), Forks(founder, child), Dies(founder)];
      Grown(Group(map[id := true], {id}), id.pgid, history).members == map[child := false]
  {
    hide Grown;
    var g := Group(map[id := true], {id});
    NothingGrown(g, id.pgid);
    GrownNext(g, id.pgid, [], Dies(id));
    assert [] + [Dies(id)] == [Dies(id)];
    assert Grown(g, id.pgid, [Dies(id)]) == Group(map[], {id});
    GrownNext(g, id.pgid, [Dies(id)], Founds(founder));
    assert [Dies(id)] + [Founds(founder)] == [Dies(id), Founds(founder)];
    GrownNext(g, id.pgid, [Dies(id), Founds(founder)], Forks(founder, child));
    assert [Dies(id), Founds(founder)] + [Forks(founder, child)] == [Dies(id), Founds(founder), Forks(founder, child)];
    GrownNext(g, id.pgid, [Dies(id), Founds(founder), Forks(founder, child)], Dies(founder));
    assert [Dies(id), Founds(founder), Forks(founder, child)] + [Dies(founder)]
        == [Dies(id), Founds(founder), Forks(founder, child), Dies(founder)];
  }

  lemma {:induction false} NothingGrown(g: Group, pgid: int)
    ensures Grown(g, pgid, []) == g
  {
  }

  lemma {:induction false} GrownNext(g: Group, pgid: int, history: seq<Change>, c: Change)
    ensures Grown(g, pgid, history + [c]) == Changed(Grown(g, pgid, history), pgid, c)
  {
    assert (history + [c])[..|history|] == history;
  }
}
