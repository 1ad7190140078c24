/**
 UTF-8 text as a sequence of Unicode scalar values.

 The program measures text in bytes but may only cut it between characters. A
 character takes one to four bytes (section 3 of RFC 3629), so a byte offset is
 a legal cut exactly when it is the byte length of some prefix.
 */
module Utf8 {

  function Width(c: char): (w: nat)
    ensures 1 <= w <= 4
  {
    if c as int < 0x80 then 1
    else if c as int < 0x800 then 2
    else if c as int < 0x10000 then 3
    else 4
  }

  // The number of bytes the text takes.
  function Bytes(s: string): (n: nat)
    ensures |s| <= n <= 4 * |s|
  {
    if s == "" then 0 else Width(s[0]) + Bytes(s[1..])
  }

  ghost predicate IsSuffix(t: string, s: string) {
    |t| <= |s| && s[|s| - |t|..] == t
  }

  // True iff `offset` bytes into `s` is the start of a character or the end.
  predicate IsCharBoundary(s: string, offset: nat) {
    offset == 0 || (s != "" && Width(s[0]) <= offset && IsCharBoundary(s[1..], offset - Width(s[0])))
  }

  // The text left after removing its first `offset` bytes.
  function DropBytes(s: string, offset: nat): (t: string)
    requires IsCharBoundary(s, offset)
    ensures IsSuffix(t, s)
    ensures Bytes(t) == Bytes(s) - offset
  {
    if offset == 0 then s else DropBytes(s[1..], offset - Width(s[0]))
  }

  // The first `offset` bytes of the text.
  function TakeBytes(s: string, offset: nat): string
    requires IsCharBoundary(s, offset)
  {
    if offset == 0 then "" else [s[0]] + TakeBytes(s[1..], offset - Width(s[0]))
  }

  // The longest character-aligned prefix of `s` that fits in `cap` bytes.
  function LongestPrefix(s: string, cap: nat): string {
    if s == "" || Width(s[0]) > cap then "" else [s[0]] + LongestPrefix(s[1..], cap - Width(s[0]))
  }

  // The longest character-aligned suffix of `s` that fits in `cap` bytes.
  function LongestSuffix(s: string, cap: nat): (t: string) {
    if Bytes(s) <= cap then s else LongestSuffix(s[1..], cap)
  }

  lemma {:induction false} CutConcat(s: string, t: string, k: nat)
    requires k <= |s|
    ensures (s + t)[..k] == s[..k]
    ensures (s + t)[k..] == s[k..] + t
  {
  }

  lemma {:induction false} ConcatAssociates(s: string, t: string, u: string)
    ensures s + t + u == s + (t + u)
  {
  }

  lemma {:induction false} BytesConcat(s: string, t: string)
    ensures Bytes(s + t) == Bytes(s) + Bytes(t)
  {
    if s == "" {
      assert s + t == t;
    } else {
      assert (s + t)[1..] == s[1..] + t;
      BytesConcat(s[1..], t);
    }
  }

  lemma {:induction false} BytesSplit(s: string, k: nat)
    requires k <= |s|
    ensures Bytes(s) == Bytes(s[..k]) + Bytes(s[k..])
  {
    BytesConcat(s[..k], s[k..]);
    assert s[..k] + s[k..] == s;
  }

  // A byte offset is a boundary exactly when some prefix has that many bytes.
  lemma {:induction false} BoundaryIsPrefixLength(s: string, offset: nat)
    ensures IsCharBoundary(s, offset) <==> exists k: nat :: k <= |s| && Bytes(s[..k]) == offset
  {
    if offset == 0 {
      assert Bytes(s[..0]) == 0;
    } else if s != "" {
      if Width(s[0]) <= offset {
        BoundaryIsPrefixLength(s[1..], offset - Width(s[0]));
      }
      forall k: nat | 0 < k <= |s|
        ensures Bytes(s[..k]) == Width(s[0]) + Bytes(s[1..][..k - 1])
      {
        assert s[..k][1..] == s[1..][..k - 1];
      }
      if IsCharBoundary(s, offset) {
        var k: nat :| k <= |s[1..]| && Bytes(s[1..][..k]) == offset - Width(s[0]);
        assert s[1..][..k] == s[1..][..(k + 1) - 1];
        assert Bytes(s[..k + 1]) == offset;
      }
    }
  }

  lemma {:induction false} ShiftCut(s: string, k: nat)
    requires 0 < k <= |s|
    ensures s[..k][1..] == s[1..][..k - 1]
    ensures s[1..][k - 1..] == s[k..]
  {
  }

  lemma {:induction false} BoundaryStep(s: string, offset: nat)
    requires s != "" && IsCharBoundary(s[1..], offset)
    ensures IsCharBoundary(s, Width(s[0]) + offset)
    ensures DropBytes(s, Width(s[0]) + offset) == DropBytes(s[1..], offset)
  {
  }

  lemma {:induction false} BytesStep(s: string, k: nat)
    requires 0 < k <= |s|
    ensures Bytes(s[..k]) == Width(s[0]) + Bytes(s[1..][..k - 1])
  {
    ShiftCut(s, k);
  }

  lemma {:induction false} DropPrefix(s: string, k: nat)
    requires k <= |s|
    ensures IsCharBoundary(s, Bytes(s[..k]))
    ensures DropBytes(s, Bytes(s[..k])) == s[k..]
  {
    if k > 0 {
      var rest, n := s[1..], Bytes(s[1..][..k - 1]);
      DropPrefix(rest, k - 1);
      BoundaryStep(s, n);
      BytesStep(s, k);
      ShiftCut(s, k);
    }
  }

  lemma {:induction false} SuffixBytes(t: string, s: string)
    requires IsSuffix(t, s)
    ensures Bytes(t) <= Bytes(s)
    ensures Bytes(t) == Bytes(s) ==> t == s
  {
    BytesSplit(s, |s| - |t|);
  }

  lemma {:induction false} SuffixConcat(t: string, s: string, d: string)
    requires IsSuffix(t, s)
    ensures IsSuffix(t + d, s + d)
  {
    assert s[|s| - |t|..] + d == (s + d)[|s + d| - |t + d|..];
  }

  lemma {:induction false} SuffixPrepend(d: string, s: string)
    ensures IsSuffix(s, d + s)
  {
  }

  lemma {:induction false} CutAtSuffix(t: string, s: string)
    requires IsSuffix(t, s)
    ensures Bytes(t) <= Bytes(s)
    ensures IsCharBoundary(s, Bytes(s) - Bytes(t))
    ensures DropBytes(s, Bytes(s) - Bytes(t)) == t
  {
    DropPrefix(s, |s| - |t|);
    BytesSplit(s, |s| - |t|);
  }

  // Of two suffixes of one text, the one with no more bytes is a suffix of the other.
  lemma {:induction false} SuffixesNest(t: string, u: string, s: string)
    requires IsSuffix(t, s) && IsSuffix(u, s) && Bytes(t) <= Bytes(u)
    ensures IsSuffix(t, u)
  {
    if |u| < |t| {
      assert u == t[|t| - |u|..];
      BytesSplit(t, |t| - |u|);
      assert false;
    } else {
      assert t == u[|u| - |t|..];
    }
  }

  lemma {:induction false} LongestSuffixFits(s: string, cap: nat)
    ensures IsSuffix(LongestSuffix(s, cap), s)
    ensures Bytes(LongestSuffix(s, cap)) <= cap
    ensures Bytes(s) > cap ==> Bytes(LongestSuffix(s, cap)) > cap - 4
    decreases |s|
  {
    if Bytes(s) > cap {
      LongestSuffixFits(s[1..], cap);
    }
  }

  // What the recursion computes is what the name says: no suffix that fits is longer.
  lemma {:induction false} LongestSuffixIsLongest(s: string, cap: nat, t: string)
    requires IsSuffix(t, s) && Bytes(t) <= cap
    ensures |t| <= |LongestSuffix(s, cap)|
    decreases |s|
  {
    if Bytes(s) > cap {
      assert s[|s| - |t|..] == s[1..][|s[1..]| - |t|..];
      LongestSuffixIsLongest(s[1..], cap, t);
    }
  }

  // Keeping only a window of the past does not change the next window.
  lemma {:induction false} WindowOfWindow(s: string, d: string, cap: nat)
    ensures LongestSuffix(LongestSuffix(s, cap) + d, cap) == LongestSuffix(s + d, cap)
    decreases |s|
  {
    if Bytes(s) > cap {
      BytesConcat(s, d);
      assert (s + d)[1..] == s[1..] + d;
      WindowOfWindow(s[1..], d, cap);
    }
  }

  // Once the newer part alone exceeds the cap, the older part cannot matter.
  lemma {:induction false} WindowForgetsOlder(s: string, d: string, cap: nat)
    requires Bytes(d) > cap
    ensures LongestSuffix(s + d, cap) == LongestSuffix(d, cap)
    decreases |s|
  {
    if s == "" {
      assert s + d == d;
    } else {
      BytesConcat(s, d);
      assert (s + d)[1..] == s[1..] + d;
      WindowForgetsOlder(s[1..], d, cap);
    }
  }

  lemma {:induction false} CutBeforeLongest(s: string, cap: nat)
    ensures Bytes(LongestSuffix(s, cap)) <= cap
    ensures Bytes(LongestSuffix(s, cap)) <= Bytes(s)
    ensures IsCharBoundary(s, Bytes(s) - Bytes(LongestSuffix(s, cap)))
  {
    LongestSuffixFits(s, cap);
    CutAtSuffix(LongestSuffix(s, cap), s);
  }

  // The first legal cut that leaves at most `cap` bytes leaves the longest suffix.
  lemma {:induction false} FirstCutIsLongest(s: string, cap: nat, split: nat)
    requires IsCharBoundary(s, split)
    requires Bytes(s) - cap <= split <= Bytes(s) - Bytes(LongestSuffix(s, cap))
    ensures DropBytes(s, split) == LongestSuffix(s, cap)
  {
    LongestSuffixFits(s, cap);
    LongestSuffixIsLongest(s, cap, DropBytes(s, split));
    SuffixesNest(LongestSuffix(s, cap), DropBytes(s, split), s);
  }

  lemma {:induction false} LongestPrefixFits(s: string, cap: nat)
    ensures Bytes(LongestPrefix(s, cap)) <= cap
    ensures LongestPrefix(s, cap) <= s
    ensures Bytes(s) > cap ==> Bytes(LongestPrefix(s, cap)) > cap - 4
    ensures IsCharBoundary(s, Bytes(LongestPrefix(s, cap)))
  {
    if s != "" && Width(s[0]) <= cap {
      LongestPrefixFits(s[1..], cap - Width(s[0]));
      assert ([s[0]] + LongestPrefix(s[1..], cap - Width(s[0])))[1..] == LongestPrefix(s[1..], cap - Width(s[0]));
    }
  }

  // The last legal cut within the cap leaves the longest prefix.
  lemma {:induction false} LastCutIsLongest(s: string, cap: nat, cut: nat)
    requires IsCharBoundary(s, cut) && Bytes(LongestPrefix(s, cap)) <= cut <= cap
    ensures TakeBytes(s, cut) == LongestPrefix(s, cap)
  {
    if cut > 0 {
      assert ([s[0]] + LongestPrefix(s[1..], cap - Width(s[0])))[1..] == LongestPrefix(s[1..], cap - Width(s[0]));
      LastCutIsLongest(s[1..], cap - Width(s[0]), cut - Width(s[0]));
    }
  }

  lemma {:induction false} BoundaryInside(s: string, offset: nat)
    requires IsCharBoundary(s, offset)
    ensures offset <= Bytes(s)
  {
    if offset > 0 {
      BoundaryInside(s[1..], offset - Width(s[0]));
    }
  }

  lemma {:induction false} AsciiBytes(s: string)
    requires forall i :: 0 <= i < |s| ==> s[i] as int < 0x80
    ensures Bytes(s) == |s|
  {
    if s != "" {
      AsciiBytes(s[1..]);
    }
  }

  /** The head trim shared by every rolling text buffer of the program: cut at
      the first character boundary that leaves at most `cap` bytes. */
  method TrimHead(s: string, cap: nat) returns (t: string)
    ensures t == LongestSuffix(s, cap)
  {
    if Bytes(s) <= cap {
      return s;
    }
    CutBeforeLongest(s, cap);
    var split := Bytes(s) - cap;
    while !IsCharBoundary(s, split)
      invariant Bytes(s) - cap <= split <= Bytes(s) - Bytes(LongestSuffix(s, cap))
      decreases Bytes(s) - split
    {
      split := split + 1;
    }
    FirstCutIsLongest(s, cap, split);
    t := DropBytes(s, split);
  }
}
