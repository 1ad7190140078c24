/**
 The tools a snapshot shows: the three with the most calls, ties broken by the
 newest call and then by name. The order is strict and total, so the snapshot
 does not depend on the order in which a hash map lists its entries.
 */
module Snapshot {
  import opened Listings
  import opened ToolHistory

  const MAX_SHOWN_TOOLS: nat := 3

  datatype ObservedTool = ObservedTool(name: string, callCount: nat, recent: seq<ObservedCall>)

  // Strings compare by code points from the left.
  predicate Precedes(a: string, b: string) {
    b != "" && (a == "" || a[0] < b[0] || (a[0] == b[0] && Precedes(a[1..], b[1..])))
  }

  predicate RanksAbove(tools: map<string, ToolGroup>, a: string, b: string)
    requires a in tools && b in tools
  {
    var left, right := tools[a], tools[b];
    if left.callCount != right.callCount then left.callCount > right.callCount
    else if left.latestSeq != right.latestSeq then left.latestSeq > right.latestSeq
    else Precedes(a, b)
  }

  // `a` sorted into names that are ranked already.
  function Insert(tools: map<string, ToolGroup>, a: string, ranked: seq<string>): (r: seq<string>)
    requires a in tools && forall n :: n in ranked ==> n in tools
    ensures forall n :: n in r <==> n == a || n in ranked
    ensures |r| == |ranked| + 1
  {
    if ranked == [] then [a]
    else if RanksAbove(tools, a, ranked[0]) then [a] + ranked
    else [ranked[0]] + Insert(tools, a, ranked[1..])
  }

  function Ranked(tools: map<string, ToolGroup>, names: seq<string>): (r: seq<string>)
    requires forall n :: n in names ==> n in tools
    ensures forall n :: n in r <==> n in names
  {
    if names == [] then [] else Insert(tools, names[0], Ranked(tools, names[1..]))
  }

  function Shown(tools: map<string, ToolGroup>, names: seq<string>): (shown: seq<ObservedTool>)
    requires forall n :: n in names ==> n in tools
  {
    var ranked := Ranked(tools, names);
    var top := if |ranked| <= MAX_SHOWN_TOOLS then ranked else ranked[..MAX_SHOWN_TOOLS];
    seq(|top|, i requires 0 <= i < |top| =>
      assert top[i] in ranked;
      ObservedTool(top[i], tools[top[i]].callCount, tools[top[i]].recent))
  }

  // ---------- The order ----------

  lemma {:induction false} PrecedesIsStrict(a: string, b: string)
    ensures !(Precedes(a, b) && Precedes(b, a))
    ensures a != b ==> Precedes(a, b) || Precedes(b, a)
    ensures a == b ==> !Precedes(a, b)
  {
    if a != "" && b != "" && a[0] == b[0] {
      PrecedesIsStrict(a[1..], b[1..]);
      assert a == [a[0]] + a[1..] && b == [b[0]] + b[1..];
    }
  }

  lemma {:induction false} PrecedesIsTransitive(a: string, b: string, c: string)
    requires Precedes(a, b) && Precedes(b, c)
    ensures Precedes(a, c)
  {
    if a != "" && a[0] == b[0] && b[0] == c[0] {
      PrecedesIsTransitive(a[1..], b[1..], c[1..]);
    }
  }

  // Of two tools exactly one ranks above the other.
  lemma {:induction false} RanksAboveIsStrict(tools: map<string, ToolGroup>, a: string, b: string)
    requires a in tools && b in tools
    ensures !(RanksAbove(tools, a, b) && RanksAbove(tools, b, a))
    ensures a != b ==> RanksAbove(tools, a, b) || RanksAbove(tools, b, a)
    ensures a == b ==> !RanksAbove(tools, a, b)
  {
    PrecedesIsStrict(a, b);
  }

  lemma {:induction false} RanksAboveIsTransitive(tools: map<string, ToolGroup>, a: string, b: string, c: string)
    requires a in tools && b in tools && c in tools
    requires RanksAbove(tools, a, b) && RanksAbove(tools, b, c)
    ensures RanksAbove(tools, a, c)
  {
    hide Precedes;
    if Precedes(a, b) && Precedes(b, c) {
      PrecedesIsTransitive(a, b, c);
    }
  }

  // ---------- The ranking ----------

  ghost predicate Descends(tools: map<string, ToolGroup>, ranked: seq<string>) {
    && (forall n :: n in ranked ==> n in tools)
    && forall i, j :: 0 <= i < j < |ranked| ==> RanksAbove(tools, ranked[i], ranked[j])
  }

  // The first of a descending list ranks above the rest.
  lemma {:induction false} HeadDescends(tools: map<string, ToolGroup>, a: string, rest: seq<string>)
    requires a in tools && Descends(tools, rest)
    requires forall n :: n in rest ==> RanksAbove(tools, a, n)
    ensures Descends(tools, [a] + rest)
  {
    hide RanksAbove;
    var all := [a] + rest;
    forall i, j | 0 <= i < j < |all| ensures RanksAbove(tools, all[i], all[j]) {
      assert all[j] == rest[j - 1];
      if i > 0 {
        assert all[i] == rest[i - 1];
      }
    }
  }

  lemma {:induction false} InsertDescends(tools: map<string, ToolGroup>, a: string, ranked: seq<string>)
    requires a in tools && a !in ranked && Descends(tools, ranked)
    ensures Descends(tools, Insert(tools, a, ranked))
  {
    hide RanksAbove;
    if ranked == [] {
    } else {
      var head, rest := ranked[0], ranked[1..];
      assert ranked == [head] + rest;
      assert head in ranked;
      assert forall n :: n in rest ==> n in ranked;
      assert Descends(tools, rest);
      forall n | n in rest ensures RanksAbove(tools, head, n) {
        var i :| 0 <= i < |rest| && rest[i] == n;
        assert ranked[i + 1] == n;
      }
      if RanksAbove(tools, a, head) {
        forall n | n in ranked ensures RanksAbove(tools, a, n) {
          if n != head {
            RanksAboveIsTransitive(tools, a, head, n);
          }
        }
        HeadDescends(tools, a, ranked);
      } else {
        RanksAboveIsStrict(tools, a, head);
        InsertDescends(tools, a, rest);
        HeadDescends(tools, head, Insert(tools, a, rest));
      }
    }
  }

  lemma {:induction false} RankedDescends(tools: map<string, ToolGroup>, names: seq<string>)
    requires forall n :: n in names ==> n in tools
    requires forall i, j :: 0 <= i < j < |names| ==> names[i] != names[j]
    ensures Descends(tools, Ranked(tools, names))
  {
    if names != [] {
      RankedDescends(tools, names[1..]);
      InsertDescends(tools, names[0], Ranked(tools, names[1..]));
    }
  }

  // The best of two descending lists of the same names is the same.
  lemma {:induction false} SameHead(tools: map<string, ToolGroup>, a: seq<string>, b: seq<string>)
    requires Descends(tools, a) && Descends(tools, b) && a != [] && b != []
    requires a[0] in b && b[0] in a
    ensures a[0] == b[0]
  {
    hide RanksAbove;
    assert a[0] in a && b[0] in b;
    RanksAboveIsStrict(tools, a[0], b[0]);
    var i :| 0 <= i < |a| && a[i] == b[0];
    var j :| 0 <= j < |b| && b[j] == a[0];
  }

  lemma {:induction false} RestDescends(tools: map<string, ToolGroup>, a: seq<string>)
    requires Descends(tools, a) && a != []
    ensures Descends(tools, a[1..])
    ensures forall n :: n in a[1..] <==> n in a && n != a[0]
  {
    hide RanksAbove;
    assert a[0] in a;
    assert a == [a[0]] + a[1..];
    forall n | n in a[1..] ensures n != a[0] {
      var i :| 0 <= i < |a[1..]| && a[1..][i] == n;
      assert RanksAbove(tools, a[0], a[i + 1]);
      RanksAboveIsStrict(tools, a[0], n);
    }
  }

  lemma {:induction false} SomeName(a: seq<string>)
    ensures a != [] ==> exists n :: n in a
  {
    if a != [] {
      assert a[0] in a;
    }
  }

  lemma {:induction false} DescentIsUnique(tools: map<string, ToolGroup>, a: seq<string>, b: seq<string>)
    requires Descends(tools, a) && Descends(tools, b) && forall n :: n in a <==> n in b
    ensures a == b
  {
    hide Descends;
    SomeName(a);
    SomeName(b);
    if a != [] {
      assert a[0] in b;
      assert b[0] in a;
      SameHead(tools, a, b);
      RestDescends(tools, a);
      RestDescends(tools, b);
      DescentIsUnique(tools, a[1..], b[1..]);
      assert a == [a[0]] + a[1..] && b == [b[0]] + b[1..];
    }
  }

  /** The snapshot does not depend on the order in which the map is listed. */
  lemma {:induction false} SnapshotIsOrderFree(tools: map<string, ToolGroup>, names: seq<string>, other: seq<string>)
    requires Lists(names, tools.Keys) && Lists(other, tools.Keys)
    ensures Shown(tools, names) == Shown(tools, other)
  {
    hide Descends, RanksAbove;
    RankedDescends(tools, names);
    RankedDescends(tools, other);
    DescentIsUnique(tools, Ranked(tools, names), Ranked(tools, other));
  }

  lemma {:induction false} ShownAt(tools: map<string, ToolGroup>, names: seq<string>)
    requires forall n :: n in names ==> n in tools
    ensures
      var (shown, ranked) := (Shown(tools, names), Ranked(tools, names));
      && |shown| == (if |ranked| <= MAX_SHOWN_TOOLS then |ranked| else MAX_SHOWN_TOOLS)
      && forall i :: 0 <= i < |shown| ==>
           && ranked[i] in tools
           && shown[i] == ObservedTool(ranked[i], tools[ranked[i]].callCount, tools[ranked[i]].recent)
  {
    var (shown, ranked) := (Shown(tools, names), Ranked(tools, names));
    forall i | 0 <= i < |shown|
      ensures
        && ranked[i] in tools
        && shown[i] == ObservedTool(ranked[i], tools[ranked[i]].callCount, tools[ranked[i]].recent)
    {
      assert ranked[i] in ranked;
    }
  }

  /** The snapshot shows the best three: those shown descend, and a tool is left
      out only if three are shown and all of them rank above it. */
  lemma {:induction false} SnapshotShowsBest(tools: map<string, ToolGroup>, names: seq<string>, n: string)
    requires Lists(names, tools.Keys) && n in tools
    ensures
      var shown := Shown(tools, names);
      && |shown| <= MAX_SHOWN_TOOLS
      && (forall i :: 0 <= i < |shown| ==>
            && shown[i].name in tools
            && shown[i].callCount == tools[shown[i].name].callCount
            && shown[i].recent == tools[shown[i].name].recent)
      && (forall i, j :: 0 <= i < j < |shown| ==> RanksAbove(tools, shown[i].name, shown[j].name))
      && ((exists i :: 0 <= i < |shown| && shown[i].name == n)
          || (|shown| == MAX_SHOWN_TOOLS
              && forall i :: 0 <= i < |shown| ==> RanksAbove(tools, shown[i].name, n)))
  {
    hide RanksAbove, Shown;
    RankedDescends(tools, names);
    ShownAt(tools, names);
    var ranked := Ranked(tools, names);
    var shown := Shown(tools, names);
    var k :| 0 <= k < |ranked| && ranked[k] == n;
    if k < |shown| {
      assert shown[k].name == n;
    }
  }

  /** What ranking above means for the reader of a snapshot: never fewer calls,
      and with as many calls a newer last one. */
  lemma {:induction false} RankingIsByUse(tools: map<string, ToolGroup>, names: seq<string>, n: string)
    requires Lists(names, tools.Keys) && n in tools
    ensures
      var shown := Shown(tools, names);
      (exists i :: 0 <= i < |shown| && shown[i].name == n)
      || forall i :: 0 <= i < |shown| ==>
           && shown[i].name in tools
           && tools[n].callCount <= shown[i].callCount
           && (tools[n].callCount == shown[i].callCount ==> tools[n].latestSeq <= tools[shown[i].name].latestSeq)
  {
    hide Shown, Precedes;
    SnapshotShowsBest(tools, names, n);
  }
}
