/**
 The wait text stream of a task: a rolling window of at most 8 KiB, two byte
 cursors, and the merge that carries both over to the tracker of the next claim.

 The reference is a mailbox that forgets nothing. Every run of appends, takes,
 peeks and tracker replacements is compared with the mailbox run on the same
 events.
 */
module WaitText {
  import opened Options
  import opened Utf8

  const MAX_LATEST_TEXT_BYTES: nat := 8 * 1024

  // The text fields of one tracker.
  datatype Text = Text(
    tail: string,
    appended: nat,
    delivered: nat,
    truncated: bool,
    updatedAt: Option<nat>,
    terminal: string,
    settled: bool)

  datatype WaitTail = WaitTail(text: string, truncated: bool)

  const FRESH := Text("", 0, 0, false, None, "", false)

  function Append(t: Text, delta: string, now: nat): Text {
    var joined := t.tail + delta;
    Text(
      LongestSuffix(joined, MAX_LATEST_TEXT_BYTES),
      t.appended + Bytes(delta),
      t.delivered,
      t.truncated || Bytes(joined) > MAX_LATEST_TEXT_BYTES,
      Some(now),
      if t.settled then t.terminal else t.terminal + delta,
      t.settled)
  }

  // The cursors are consistent with the window: what the two debug assertions
  // of the source check before slicing.
  ghost predicate Sliceable(t: Text) {
    && Bytes(t.tail) <= t.appended
    && t.delivered <= t.appended
    && (t.delivered >= t.appended - Bytes(t.tail) ==>
          IsCharBoundary(t.tail, t.delivered - (t.appended - Bytes(t.tail))))
  }

  function Peek(t: Text): WaitTail
    requires Sliceable(t)
  {
    var windowStart := t.appended - Bytes(t.tail);
    if t.delivered < windowStart then
      WaitTail(t.tail, true)
    else
      WaitTail(DropBytes(t.tail, t.delivered - windowStart), false)
  }

  function Taken(t: Text): Text {
    t.(delivered := t.appended)
  }

  function Later(a: Option<nat>, b: Option<nat>): Option<nat> {
    match (a, b)
    case (Some(x), Some(y)) => Some(if x < y then y else x)
    case (Some(_), None) => a
    case (None, _) => b
  }

  // The tracker of the new claim after it inherited the stream of `prior`.
  function Inherit(next: Text, prior: Text): Text {
    next.(
      tail := LongestSuffix(prior.tail + next.tail, MAX_LATEST_TEXT_BYTES),
      appended := prior.appended + next.appended,
      delivered := prior.delivered,
      updatedAt := Later(prior.updatedAt, next.updatedAt))
  }

  /** The merged stream was last updated when the later of its parts was. */
  lemma {:induction false} InheritIsLatest(next: Text, prior: Text)
    ensures
      var (r, a, b) := (Inherit(next, prior).updatedAt, prior.updatedAt, next.updatedAt);
      && (r == a || r == b)
      && (a.Some? ==> r.Some? && a.value <= r.value) && (b.Some? ==> r.Some? && b.value <= r.value)
  {
  }

  // ---------- What a tracker state says about the stream behind it ----------

  /** `whole` is everything ever appended to the stream and its first `seen`
      characters have been delivered. Only the last clause relates the window to
      the stream, and only for what is still owed: after a merge the head of the
      window need not be part of the stream's last 8 KiB at all. */
  ghost predicate Tracks(t: Text, whole: string, seen: nat) {
    && seen <= |whole|
    && t.appended == Bytes(whole)
    && t.delivered == Bytes(whole[..seen])
    && Bytes(t.tail) <= MAX_LATEST_TEXT_BYTES
    && Bytes(t.tail) <= Bytes(whole)
    && (Bytes(whole) <= MAX_LATEST_TEXT_BYTES ==> t.tail == whole)
    && (Bytes(whole[seen..]) <= Bytes(t.tail) ==> IsSuffix(whole[seen..], t.tail))
  }

  lemma {:induction false} FreshTracks()
    ensures Tracks(FRESH, "", 0)
  {
  }

  lemma {:induction false} AppendTracks(t: Text, whole: string, seen: nat, delta: string, now: nat)
    requires Tracks(t, whole, seen)
    ensures Tracks(Append(t, delta, now), whole + delta, seen)
  {
    MergeTracks(t, whole, seen, delta, delta);
    CutConcat(whole, delta, seen);
    BytesConcat(whole, delta);
  }

  lemma {:induction false} InheritTracks(next: Text, nextWhole: string, prior: Text, priorWhole: string, seen: nat)
    requires Tracks(next, nextWhole, 0) && Tracks(prior, priorWhole, seen)
    ensures Tracks(Inherit(next, prior), priorWhole + nextWhole, seen)
  {
    MergeTracks(prior, priorWhole, seen, next.tail, nextWhole);
    CutConcat(priorWhole, nextWhole, seen);
    BytesConcat(priorWhole, nextWhole);
  }

  // The common core of append and merge: the window `tail` stands for the newer
  // text `more`, which it is allowed to have forgotten only beyond the cap.
  lemma {:induction false} MergeTracks(t: Text, whole: string, seen: nat, tail: string, more: string)
    requires Tracks(t, whole, seen)
    requires Bytes(tail) <= Bytes(more)
    requires Bytes(more) <= MAX_LATEST_TEXT_BYTES ==> tail == more
    ensures
      var merged := LongestSuffix(t.tail + tail, MAX_LATEST_TEXT_BYTES);
      var all := whole + more;
      && Bytes(merged) <= MAX_LATEST_TEXT_BYTES
      && Bytes(merged) <= Bytes(all)
      && (Bytes(all) <= MAX_LATEST_TEXT_BYTES ==> merged == all)
      && (Bytes(all[seen..]) <= Bytes(merged) ==> IsSuffix(all[seen..], merged))
  {
    var joined := t.tail + tail;
    var merged := LongestSuffix(joined, MAX_LATEST_TEXT_BYTES);
    LongestSuffixFits(joined, MAX_LATEST_TEXT_BYTES);
    SuffixBytes(merged, joined);
    BytesConcat(t.tail, tail);
    BytesConcat(whole, more);
    var owed := whole[seen..];
    CutConcat(whole, more, seen);
    BytesConcat(owed, more);
    if Bytes(owed + more) <= Bytes(merged) {
      assert Bytes(owed) <= Bytes(t.tail);
      OwedSurvivesTrim(owed, more, t.tail, merged);
    }
  }

  lemma {:induction false} OwedSurvivesTrim(owed: string, more: string, window: string, merged: string)
    requires IsSuffix(owed, window)
    requires IsSuffix(merged, window + more)
    requires Bytes(owed + more) <= Bytes(merged)
    ensures IsSuffix(owed + more, merged)
  {
    SuffixConcat(owed, window, more);
    SuffixesNest(owed + more, merged, window + more);
  }

  lemma {:induction false} TakenTracks(t: Text, whole: string, seen: nat)
    requires Tracks(t, whole, seen)
    ensures Tracks(Taken(t), whole + "", |whole|)
  {
    assert whole + "" == whole == whole[..|whole|];
    assert whole[|whole|..] == "";
  }

  lemma {:induction false} PeekWhenOwedFits(t: Text, owed: string)
    requires t.delivered + Bytes(owed) == t.appended && Bytes(t.tail) <= t.appended
    requires IsSuffix(owed, t.tail)
    ensures Sliceable(t) && Peek(t) == WaitTail(owed, false)
  {
    CutAtSuffix(owed, t.tail);
  }

  // A tracker that follows a stream can always be sliced, and what it hands out
  // is exactly what is owed or is flagged.
  lemma {:induction false} PeekIsOwed(t: Text, whole: string, seen: nat)
    requires Tracks(t, whole, seen)
    ensures Sliceable(t)
    ensures Peek(t) ==
            if Bytes(whole[seen..]) > Bytes(t.tail) then WaitTail(t.tail, true) else WaitTail(whole[seen..], false)
  {
    BytesSplit(whole, seen);
    if Bytes(whole[seen..]) <= Bytes(t.tail) {
      PeekWhenOwedFits(t, whole[seen..]);
    }
  }

  // ---------- Whole runs against a mailbox that forgets nothing ----------

  datatype Event =
    | AppendText(delta: string, now: nat)  // the current tracker
    | Launch                               // a claim builds the next tracker
    | AppendNext(delta: string, now: nat)  // it already collects text
    | Replace                              // the map swap
    | TakeTail
    | PeekTail

  // `next` is the tracker of a claim that has not reached the map swap.
  datatype Trackers = Trackers(current: Text, next: Option<Text>)

  datatype Mailbox = Mailbox(owed: string, next: Option<string>)

  const NO_TRACKERS := Trackers(FRESH, None)
  const EMPTY_MAILBOX := Mailbox("", None)

  function Change(s: Trackers, e: Event): Trackers {
    match e
    case AppendText(d, now) => s.(current := Append(s.current, d, now))
    case Launch => s.(next := Some(FRESH))
    case AppendNext(d, now) => if s.next.None? then s else s.(next := Some(Append(s.next.value, d, now)))
    case Replace => if s.next.None? then s else Trackers(Inherit(s.next.value, s.current), None)
    case TakeTail => s.(current := Taken(s.current))
    case PeekTail => s
  }

  function Post(m: Mailbox, e: Event): Mailbox {
    match e
    case AppendText(d, _) => m.(owed := m.owed + d)
    case Launch => m.(next := Some(""))
    case AppendNext(d, _) => if m.next.None? then m else m.(next := Some(m.next.value + d))
    case Replace => if m.next.None? then m else Mailbox(m.owed + m.next.value, None)
    case TakeTail => m.(owed := "")
    case PeekTail => m
  }

  function RunTrackers(events: seq<Event>): Trackers {
    if events == [] then NO_TRACKERS
    else Change(RunTrackers(events[..|events| - 1]), events[|events| - 1])
  }

  function RunMailbox(events: seq<Event>): Mailbox {
    if events == [] then EMPTY_MAILBOX
    else Post(RunMailbox(events[..|events| - 1]), events[|events| - 1])
  }

  // The stream of a task: what was appended to the trackers that were or
  // became current, in order.
  function Stream(events: seq<Event>): string {
    if events == [] then "" else
    var before := events[..|events| - 1];
    match events[|events| - 1]
    case AppendText(d, _) => Stream(before) + d
    case Replace =>
      (match RunMailbox(before).next case None => Stream(before) case Some(text) => Stream(before) + text)
    case _ => Stream(before)
  }

  // The texts handed over by the takes of a run, in order, by the mailbox.
  function Handed(events: seq<Event>): string {
    if events == [] then "" else
    var before := events[..|events| - 1];
    if events[|events| - 1].TakeTail? then Handed(before) + RunMailbox(before).owed else Handed(before)
  }

  // The mailbox hands over the stream in order, each character once.
  lemma {:induction false} MailboxIsExactlyOnce(events: seq<Event>)
    ensures Handed(events) + RunMailbox(events).owed == Stream(events)
  {
    if events != [] {
      var before := events[..|events| - 1];
      MailboxIsExactlyOnce(before);
      match events[|events| - 1] {
        case AppendText(d, _) =>
          assert Handed(before) + (RunMailbox(before).owed + d) == Stream(before) + d;
        case Replace =>
          if RunMailbox(before).next.Some? {
            var text := RunMailbox(before).next.value;
            assert Handed(before) + (RunMailbox(before).owed + text) == Stream(before) + text;
          }
        case _ =>
      }
    }
  }

  // The current tracker follows the stream up to what the mailbox still owes.
  ghost predicate Follows(s: Trackers, m: Mailbox, handed: string) {
    && Tracks(s.current, handed + m.owed, |handed|)
    && s.next.Some? == m.next.Some?
    && (s.next.Some? ==> Tracks(s.next.value, m.next.value, 0))
  }

  lemma {:induction false} ChangeFollows(s: Trackers, m: Mailbox, handed: string, e: Event)
    requires Follows(s, m, handed)
    ensures Follows(Change(s, e), Post(m, e), if e.TakeTail? then handed + m.owed else handed)
  {
    var whole := handed + m.owed;
    match e {
      case AppendText(d, now) =>
        AppendTracks(s.current, whole, |handed|, d, now);
        ConcatAssociates(handed, m.owed, d);
      case AppendNext(d, now) =>
        if s.next.Some? {
          AppendTracks(s.next.value, m.next.value, 0, d, now);
        }
      case Replace =>
        if s.next.Some? {
          InheritTracks(s.next.value, m.next.value, s.current, whole, |handed|);
          ConcatAssociates(handed, m.owed, m.next.value);
        }
      case TakeTail =>
        TakenTracks(s.current, whole, |handed|);
      case Launch =>
        FreshTracks();
      case PeekTail =>
    }
  }

  lemma {:induction false} RunFollows(events: seq<Event>)
    ensures Follows(RunTrackers(events), RunMailbox(events), Handed(events))
  {
    if events == [] {
      FreshTracks();
    } else {
      var before := events[..|events| - 1];
      RunFollows(before);
      ChangeFollows(RunTrackers(before), RunMailbox(before), Handed(before), events[|events| - 1]);
    }
  }

  /** Exactly-once delivery over every run. A take or a peek that is not flagged
      returns what the mailbox returns; one is flagged exactly when more bytes
      are owed than the window holds, and then it hands out the whole window. */
  lemma {:induction false} ExactlyOnceDelivery(events: seq<Event>)
    ensures
      var t := RunTrackers(events).current;
      var owed := RunMailbox(events).owed;
      && Sliceable(t)
      && (!Peek(t).truncated ==> Peek(t).text == owed)
      && (Peek(t).truncated ==> Peek(t).text == t.tail && Peek(t).text != owed)
      && (Peek(t).truncated <==> Bytes(owed) > Bytes(t.tail))
      && Handed(events) + owed == Stream(events)
  {
    RunFollows(events);
    MailboxIsExactlyOnce(events);
    var owed := RunMailbox(events).owed;
    var whole := Handed(events) + owed;
    assert whole[|Handed(events)|..] == owed;
    PeekIsOwed(RunTrackers(events).current, whole, |Handed(events)|);
  }

  // ---------- When the window is the stream's last 8 KiB ----------

  ghost predicate Canonical(t: Text, whole: string) {
    && t.appended == Bytes(whole)
    && t.tail == LongestSuffix(whole, MAX_LATEST_TEXT_BYTES)
  }

  // The sum of the deltas of an append-only run.
  function Joined(deltas: seq<string>): string {
    if deltas == [] then "" else Joined(deltas[..|deltas| - 1]) + deltas[|deltas| - 1]
  }

  function AppendAll(t: Text, deltas: seq<string>, now: nat): Text {
    if deltas == [] then t else Append(AppendAll(t, deltas[..|deltas| - 1], now), deltas[|deltas| - 1], now)
  }

  // The window depends on the text and not on how it was cut into deltas.
  lemma {:induction false} WindowIgnoresDeltaBoundaries(t: Text, whole: string, deltas: seq<string>, now: nat)
    requires Canonical(t, whole)
    ensures Canonical(AppendAll(t, deltas, now), whole + Joined(deltas))
  {
    if deltas == [] {
      assert whole + "" == whole;
    } else {
      var before, last := deltas[..|deltas| - 1], deltas[|deltas| - 1];
      WindowIgnoresDeltaBoundaries(t, whole, before, now);
      assert whole + Joined(deltas) == whole + Joined(before) + last;
      WindowOfWindow(whole + Joined(before), last, MAX_LATEST_TEXT_BYTES);
      BytesConcat(whole + Joined(before), last);
    }
  }

  /** The sticky flag of a tracker says whether its stream ever outgrew the window. */
  lemma {:induction false} FlagIsSticky(deltas: seq<string>, now: nat)
    ensures AppendAll(FRESH, deltas, now).truncated <==> Bytes(Joined(deltas)) > MAX_LATEST_TEXT_BYTES
  {
    if deltas != [] {
      var before, last := deltas[..|deltas| - 1], deltas[|deltas| - 1];
      FlagIsSticky(before, now);
      assert Canonical(FRESH, "");
      WindowIgnoresDeltaBoundaries(FRESH, "", before, now);
      assert "" + Joined(before) == Joined(before);
      BytesConcat(Joined(before), last);
      LongestSuffixFits(Joined(before), MAX_LATEST_TEXT_BYTES);
    }
  }

  /** Merging keeps the window canonical exactly when the incoming window has not
      rolled, or leaves no room for the last character of the old window. */
  lemma {:induction false} MergeIsCanonicalIff(next: Text, nextWhole: string, prior: Text, priorWhole: string)
    requires Canonical(next, nextWhole) && Canonical(prior, priorWhole)
    ensures Canonical(Inherit(next, prior), priorWhole + nextWhole) <==>
              || next.appended <= MAX_LATEST_TEXT_BYTES
              || prior.tail == ""
              || Width(prior.tail[|prior.tail| - 1]) + Bytes(next.tail) > MAX_LATEST_TEXT_BYTES
  {
    var cap := MAX_LATEST_TEXT_BYTES;
    BytesConcat(priorWhole, nextWhole);
    LongestSuffixFits(nextWhole, cap);
    if next.appended <= cap {
      WindowOfWindow(priorWhole, nextWhole, cap);
    } else {
      WindowForgetsOlder(priorWhole, nextWhole, cap);
      KeepsNewerIff(prior.tail, next.tail, cap);
    }
  }

  // A window in front of a window that fits is dropped entirely iff not even its
  // last character fits.
  lemma {:induction false} KeepsNewerIff(s: string, d: string, cap: nat)
    requires Bytes(d) <= cap
    ensures LongestSuffix(s + d, cap) == d <==> s == "" || Width(s[|s| - 1]) + Bytes(d) > cap
    decreases |s|
  {
    BytesConcat(s, d);
    if s == "" {
      assert s + d == d;
    } else if Bytes(s + d) > cap {
      assert (s + d)[1..] == s[1..] + d;
      KeepsNewerIff(s[1..], d, cap);
    } else {
      BytesSplit(s, |s| - 1);
    }
  }

  function Euros(n: nat): string {
    if n == 0 then "" else ['\U{20AC}'] + Euros(n - 1)
  }

  lemma {:induction false} EuroBytes(n: nat)
    ensures Bytes(Euros(n)) == 3 * n
  {
    if n > 0 {
      assert Euros(n)[1..] == Euros(n - 1);
      EuroBytes(n - 1);
    }
  }

  lemma {:induction false} EuroWindow(n: nat, cap: nat)
    requires 0 < n && 3 * (n - 1) <= cap < 3 * n
    ensures LongestSuffix(Euros(n), cap) == Euros(n - 1)
  {
    hide Bytes;
    EuroBytes(n);
    EuroBytes(n - 1);
    assert Euros(n)[1..] == Euros(n - 1);
    assert LongestSuffix(Euros(n - 1), cap) == Euros(n - 1);
  }

  /** A rolled window of wide characters can leave two bytes free, and the old window
      fills them: after "a" was streamed to one claim and one euro sign more than fit
      the window to the next, the merged window starts with an "a" that does not
      precede its neighbour in the stream. */
  lemma {:induction false} RolledMergeIsNotCanonical()
    ensures
      var (n, rolled) := (MAX_LATEST_TEXT_BYTES / 3, Euros(MAX_LATEST_TEXT_BYTES / 3 + 1));
      var (prior, next) := (AppendAll(FRESH, ["a"], 0), AppendAll(FRESH, [rolled], 0));
      Inherit(next, prior).tail == "a" + Euros(n) && !Canonical(Inherit(next, prior), "a" + rolled)
  {
    RolledBy(MAX_LATEST_TEXT_BYTES / 3);
  }

  lemma {:induction false} RolledBy(n: nat)
    requires 3 * n + 1 <= MAX_LATEST_TEXT_BYTES < 3 * n + 3
    ensures
      var (prior, next) := (AppendAll(FRESH, ["a"], 0), AppendAll(FRESH, [Euros(n + 1)], 0));
      Inherit(next, prior).tail == "a" + Euros(n) && !Canonical(Inherit(next, prior), "a" + Euros(n + 1))
  {
    hide Append, AppendAll, Bytes;
    var prior, next := AppendAll(FRESH, ["a"], 0), AppendAll(FRESH, [Euros(n + 1)], 0);
    OneDelta("a");
    OneDelta(Euros(n + 1));
    EuroBytes(n + 1);
    EuroBytes(n);
    EuroWindow(n + 1, MAX_LATEST_TEXT_BYTES);
    AsciiBytes("a");
    assert next.tail == Euros(n) && prior.tail == "a" && next.appended == 3 * (n + 1);
    MergeIsCanonicalIff(next, Euros(n + 1), prior, "a");
    BytesConcat("a", Euros(n));
  }

  lemma {:induction false} OneDelta(delta: string)
    ensures Canonical(AppendAll(FRESH, [delta], 0), delta)
  {
    WindowIgnoresDeltaBoundaries(FRESH, "", [delta], 0);
    assert "" + Joined([delta]) == delta;
  }

  // The run the merge comment describes: the incoming tracker has rolled. Then
  // the next take is flagged, whatever was delivered before.
  lemma {:induction false} RolledMergeIsFlagged(
    next: Text, nextWhole: string, prior: Text, priorWhole: string, seen: nat)
    requires Tracks(next, nextWhole, 0) && Tracks(prior, priorWhole, seen)
    requires next.appended > MAX_LATEST_TEXT_BYTES
    ensures Sliceable(Inherit(next, prior))
    ensures Peek(Inherit(next, prior)).truncated
  {
    var whole := priorWhole + nextWhole;
    InheritTracks(next, nextWhole, prior, priorWhole, seen);
    PeekIsOwed(Inherit(next, prior), whole, seen);
    CutConcat(priorWhole, nextWhole, seen);
    BytesConcat(priorWhole[seen..], nextWhole);
  }
}
