/**
 The reasoning text of a task: a raw buffer of at most 64 KiB, of which the last
 200 characters are shown. The reference is the whole stream of deltas.
 */
module Reasoning {
  import opened Utf8

  const MAX_REASONING_CHARS: nat := 200
  const MAX_REASONING_BYTES: nat := 64 * 1024

  datatype Reasoning = Reasoning(raw: string, text: string, truncated: bool)

  const EMPTY := Reasoning("", "", false)

  // The last 200 characters.
  function Tail(s: string): string {
    if |s| <= MAX_REASONING_CHARS then s else s[|s| - MAX_REASONING_CHARS..]
  }

  // The raw buffer overflows when `delta` arrives.
  predicate Rolls(r: Reasoning, delta: string) {
    delta != "" && Bytes(r.raw + delta) > MAX_REASONING_BYTES
  }

  function Observe(r: Reasoning, delta: string): Reasoning {
    if delta == "" then r else
    var raw := LongestSuffix(r.raw + delta, MAX_REASONING_BYTES);
    Reasoning(raw, Tail(raw), r.truncated || Rolls(r, delta) || |raw| > MAX_REASONING_CHARS)
  }

  function Merge(r: Reasoning, newer: Reasoning): Reasoning {
    var joined := Observe(r, newer.raw);
    joined.(truncated := joined.truncated || newer.truncated)
  }

  /** What is shown is what showing the whole stream would show. The raw buffer
      is the whole stream or has lost some of it, and then both are long. */
  ghost predicate Shows(r: Reasoning, whole: string) {
    && r.text == Tail(whole)
    && (r.truncated <==> |whole| > MAX_REASONING_CHARS)
    && Stands(r.raw, whole)
  }

  ghost predicate Stands(raw: string, whole: string) {
    raw == whole ||
    (&& |raw| > MAX_REASONING_CHARS && |whole| > MAX_REASONING_CHARS
     && Tail(raw) == Tail(whole) && Bytes(whole) > MAX_REASONING_BYTES)
  }

  // No text changes nothing.
  lemma {:induction false} NothingRolls(r: Reasoning)
    ensures Observe(r, "") == r && !Rolls(r, "")
  {
  }

  lemma {:induction false} NothingShown()
    ensures Shows(EMPTY, "")
  {
  }

  lemma {:induction false} TailOfLongSuffix(t: string, s: string)
    requires IsSuffix(t, s) && |t| >= MAX_REASONING_CHARS
    ensures Tail(t) == Tail(s)
  {
  }

  lemma {:induction false} TailAppend(a: string, b: string, d: string)
    requires Tail(a) == Tail(b)
    requires a == b || (|a| > MAX_REASONING_CHARS && |b| > MAX_REASONING_CHARS)
    ensures Tail(a + d) == Tail(b + d)
  {
    if a != b {
      SuffixConcat(Tail(a), a, d);
      SuffixConcat(Tail(b), b, d);
      TailOfLongSuffix(Tail(a) + d, a + d);
      TailOfLongSuffix(Tail(b) + d, b + d);
    }
  }

  lemma {:induction false} TailPrepend(w: string, a: string, b: string)
    requires Tail(a) == Tail(b)
    requires a == b || (|a| > MAX_REASONING_CHARS && |b| > MAX_REASONING_CHARS)
    ensures Tail(w + a) == Tail(w + b)
  {
    if a != b {
      TailOfLongSuffix(Tail(a), a);
      SuffixPrepend(w, a);
      SuffixPrepend(w, b);
      TailOfLongSuffix(a, w + a);
      TailOfLongSuffix(b, w + b);
    }
  }

  // A buffer that has overflowed still holds far more than is shown.
  lemma {:induction false} RolledIsLong(s: string)
    requires Bytes(s) > MAX_REASONING_BYTES
    ensures |LongestSuffix(s, MAX_REASONING_BYTES)| > MAX_REASONING_CHARS
    ensures |s| > MAX_REASONING_CHARS
    ensures Tail(LongestSuffix(s, MAX_REASONING_BYTES)) == Tail(s)
  {
    LongestSuffixFits(s, MAX_REASONING_BYTES);
    TailOfLongSuffix(LongestSuffix(s, MAX_REASONING_BYTES), s);
  }

  lemma {:induction false} StandsAppend(raw: string, whole: string, d: string)
    requires Stands(raw, whole)
    ensures Stands(raw + d, whole + d)
  {
    TailAppend(raw, whole, d);
    BytesConcat(whole, d);
  }

  lemma {:induction false} StandsTrim(raw: string, whole: string)
    requires Stands(raw, whole)
    ensures Stands(LongestSuffix(raw, MAX_REASONING_BYTES), whole)
  {
    if Bytes(raw) > MAX_REASONING_BYTES {
      RolledIsLong(raw);
    }
  }

  lemma {:induction false} ObserveShows(r: Reasoning, whole: string, delta: string)
    requires Shows(r, whole)
    ensures Shows(Observe(r, delta), whole + delta)
  {
    if delta == "" {
      assert whole + delta == whole;
    } else {
      StandsAppend(r.raw, whole, delta);
      StandsTrim(r.raw + delta, whole + delta);
      if Rolls(r, delta) {
        RolledIsLong(r.raw + delta);
      }
    }
  }

  lemma {:induction false} MergeShows(r: Reasoning, whole: string, newer: Reasoning, more: string)
    requires Shows(r, whole) && Shows(newer, more)
    ensures Shows(Merge(r, newer), whole + more)
  {
    ObserveShows(r, whole, newer.raw);
    TailPrepend(whole, newer.raw, more);
    BytesConcat(whole, more);
  }

  // The buffer overflows exactly when the whole stream no longer fits.
  lemma {:induction false} RollsIff(r: Reasoning, whole: string, delta: string)
    requires Shows(r, whole) && Bytes(whole) <= MAX_REASONING_BYTES
    ensures Rolls(r, delta) <==> Bytes(whole + delta) > MAX_REASONING_BYTES
  {
    BytesConcat(whole, delta);
  }
}
