/**
 Reading lines off the runtime's output one byte at a time, with a cap on the
 length of a line on the wire. The reference is the plain split of the whole
 stream at its newlines.
 */
module LineReader {
  import opened Options

  type Byte = b: nat | b < 256

  const NEWLINE: Byte := 10
  const RETURN: Byte := 13
  const MAX_NDJSON_LINE_BYTES: nat := 16 * 1024 * 1024

  // A line without its delimiter, and its length on the wire with it.
  datatype Line = Line(text: seq<Byte>, wire: nat)

  // ---------- The plain split ----------

  // The position of the first newline, or the length.
  function FirstNewline(s: seq<Byte>): (i: nat)
    ensures i <= |s|
    ensures i < |s| ==> s[i] == NEWLINE
    ensures forall j :: 0 <= j < i ==> s[j] != NEWLINE
  {
    if s == [] || s[0] == NEWLINE then 0 else 1 + FirstNewline(s[1..])
  }

  // One carriage return at the end belongs to the delimiter.
  function Stripped(s: seq<Byte>): seq<Byte> {
    if s != [] && s[|s| - 1] == RETURN then s[..|s| - 1] else s
  }

  function FirstLine(s: seq<Byte>): Line
    requires s != []
  {
    var i := FirstNewline(s);
    if i == |s| then Line(s, |s|) else Line(Stripped(s[..i]), i + 1)
  }

  function Lines(s: seq<Byte>): seq<Line>
    decreases |s|
  {
    if s == [] then [] else [FirstLine(s)] + Lines(s[FirstLine(s).wire..])
  }

  // The lines before the first one that is too long.
  function Readable(lines: seq<Line>, cap: nat): seq<seq<Byte>> {
    if lines == [] || lines[0].wire > cap then [] else [lines[0].text] + Readable(lines[1..], cap)
  }

  predicate AllFit(lines: seq<Line>, cap: nat) {
    forall i :: 0 <= i < |lines| ==> lines[i].wire <= cap
  }

  // ---------- The reader ----------

  lemma {:induction false} NewlineAt(s: seq<Byte>, i: nat)
    requires i < |s| && s[i] == NEWLINE && forall j :: 0 <= j < i ==> s[j] != NEWLINE
    ensures FirstNewline(s) == i
  {
  }

  lemma {:induction false} NoNewline(s: seq<Byte>)
    requires forall j :: 0 <= j < |s| ==> s[j] != NEWLINE
    ensures FirstNewline(s) == |s|
  {
  }

  /** One line, byte by byte. A line is handed out whole if and only if its length
      on the wire is within the cap; otherwise all that is reported is cap + 1. */
  method ReadBoundedLine(input: seq<Byte>, pos: nat, cap: nat) returns (r: Option<Line>, next: nat)
    requires pos <= |input|
    ensures pos <= next <= |input|
    ensures r.None? <==> pos == |input|
    ensures r.Some? ==>
              var line := FirstLine(input[pos..]);
              && (r.value.wire <= cap <==> line.wire <= cap)
              && (line.wire <= cap ==> r.value == line && next == pos + line.wire)
              && (line.wire > cap ==> r.value.wire == cap + 1)
  {
    var s := input[pos..];
    var text: seq<Byte> := [];
    next := pos;
    while next < |input|
      invariant pos <= next <= |input|
      invariant text == input[pos..next] && |text| <= cap
      invariant forall j :: pos <= j < next ==> input[j] != NEWLINE
    {
      var byte := input[next];
      next := next + 1;
      if byte == NEWLINE {
        NewlineAt(s, |text|);
        assert s[..|text|] == text;
        var total := |text| + 1;
        if text != [] && text[|text| - 1] == RETURN {
          text := text[..|text| - 1];
        }
        return Some(Line(text, total)), next;
      }
      if |text| < cap {
        assert input[pos..next - 1] + [byte] == input[pos..next];
        text := text + [byte];
      } else {
        TooLong(s, cap);
        return Some(Line([], cap + 1)), next;
      }
    }
    assert s == text;
    NoNewline(s);
    r := if text == [] then None else Some(Line(text, |text|));
  }

  lemma {:induction false} TooLong(s: seq<Byte>, cap: nat)
    requires cap < |s| && forall j :: 0 <= j <= cap ==> s[j] != NEWLINE
    ensures FirstLine(s).wire > cap
  {
  }

  /** The read loop refines the plain split: it yields exactly the lines up to the
      first one that is too long, and stops there. */
  method ReadLines(input: seq<Byte>) returns (lines: seq<seq<Byte>>, oversized: Option<nat>)
    ensures lines == Readable(Lines(input), MAX_NDJSON_LINE_BYTES)
    ensures oversized ==
            if AllFit(Lines(input), MAX_NDJSON_LINE_BYTES) then None else Some(MAX_NDJSON_LINE_BYTES + 1)
  {
    hide Lines, Readable, AllFit, FirstLine;
    lines := [];
    oversized := None;
    var pos := 0;
    assert input[0..] == input;
    assert [] + Readable(Lines(input), MAX_NDJSON_LINE_BYTES) == Readable(Lines(input), MAX_NDJSON_LINE_BYTES);
    while true
      invariant pos <= |input|
      invariant lines + Readable(Lines(input[pos..]), MAX_NDJSON_LINE_BYTES) ==
                Readable(Lines(input), MAX_NDJSON_LINE_BYTES)
      invariant AllFit(Lines(input), MAX_NDJSON_LINE_BYTES) <==> AllFit(Lines(input[pos..]), MAX_NDJSON_LINE_BYTES)
      decreases |input| - pos
    {
      var read, next := ReadBoundedLine(input, pos, MAX_NDJSON_LINE_BYTES);
      if read.None? {
        NothingLeft(input[pos..], MAX_NDJSON_LINE_BYTES);
        return;
      }
      LinesStep(input, pos, MAX_NDJSON_LINE_BYTES);
      if read.value.wire > MAX_NDJSON_LINE_BYTES {
        return lines, Some(read.value.wire);
      }
      Regroup(lines, read.value.text, Readable(Lines(input[next..]), MAX_NDJSON_LINE_BYTES));
      lines := lines + [read.value.text];
      pos := next;
    }
  }

  lemma {:induction false} NothingLeft(s: seq<Byte>, cap: nat)
    requires s == []
    ensures Readable(Lines(s), cap) == [] && AllFit(Lines(s), cap)
  {
  }

  lemma {:induction false} Regroup(a: seq<seq<Byte>>, x: seq<Byte>, b: seq<seq<Byte>>)
    ensures a + ([x] + b) == a + [x] + b
  {
  }

  lemma {:induction false} LinesStep(input: seq<Byte>, pos: nat, cap: nat)
    requires pos < |input|
    ensures
      var line := FirstLine(input[pos..]);
      var rest := Lines(input[pos..]);
      && pos + line.wire <= |input|
      && (line.wire > cap ==> Readable(rest, cap) == [] && !AllFit(rest, cap))
      && (line.wire <= cap ==>
            && Readable(rest, cap) == [line.text] + Readable(Lines(input[pos + line.wire..]), cap)
            && (AllFit(rest, cap) <==> AllFit(Lines(input[pos + line.wire..]), cap)))
  {
    var s := input[pos..];
    var line := FirstLine(s);
    assert s[line.wire..] == input[pos + line.wire..];
    var rest, more := Lines(s), Lines(s[line.wire..]);
    assert rest == [line] + more;
    assert rest[0] == line && rest[1..] == more;
    assert forall i :: 0 <= i < |more| ==> more[i] == rest[i + 1];
  }

  // ---------- Frames survive ----------

  function Encode(frames: seq<seq<Byte>>): seq<Byte> {
    if frames == [] then [] else frames[0] + [NEWLINE] + Encode(frames[1..])
  }

  // A frame whose end on the wire is where its own bytes end.
  predicate Clean(f: seq<Byte>) {
    (forall i :: 0 <= i < |f| ==> f[i] != NEWLINE) && (f != [] ==> f[|f| - 1] != RETURN)
  }

  lemma {:induction false} FirstFrame(f: seq<Byte>, rest: seq<Byte>)
    requires Clean(f)
    ensures FirstLine(f + [NEWLINE] + rest) == Line(f, |f| + 1)
    ensures (f + [NEWLINE] + rest)[|f| + 1..] == rest
  {
    var s := f + [NEWLINE] + rest;
    NewlineAt(s, |f|);
    assert s[..|f|] == f;
  }

  /** Frames that are clean and fit the cap come out as they went in, one line
      each. */
  lemma {:induction false} FramesSurvive(frames: seq<seq<Byte>>, cap: nat)
    requires forall i :: 0 <= i < |frames| ==> Clean(frames[i]) && |frames[i]| < cap
    ensures Readable(Lines(Encode(frames)), cap) == frames
    ensures AllFit(Lines(Encode(frames)), cap)
  {
    if frames != [] {
      var s := Encode(frames);
      FirstFrame(frames[0], Encode(frames[1..]));
      FramesSurvive(frames[1..], cap);
      var all, more := Lines(s), Lines(Encode(frames[1..]));
      assert all == [Line(frames[0], |frames[0]| + 1)] + more;
      assert all[0] == Line(frames[0], |frames[0]| + 1) && all[1..] == more;
      assert frames == [frames[0]] + frames[1..];
    }
  }

  lemma {:induction false} ReadableHead(lines: seq<Line>, cap: nat)
    ensures Readable(lines, cap) != [] ==> lines != [] && Readable(lines, cap)[0] == lines[0].text
  {
  }

  lemma {:induction false} DirtyIsCut(f: seq<Byte>, i: nat)
    requires !Clean(f) && i <= |f| && (i == |f| ==> forall j :: 0 <= j < |f| ==> f[j] != NEWLINE)
    ensures |Stripped((f + [NEWLINE])[..i])| < |f|
  {
    if i == |f| {
      assert (f + [NEWLINE])[..i] == f;
    }
  }

  /** And no others: a frame written alone is read back unchanged exactly when it
      is clean and fits the cap. */
  lemma {:induction false} SurvivesIff(f: seq<Byte>, cap: nat)
    ensures Readable(Lines(f + [NEWLINE]), cap) == [f] <==> Clean(f) && |f| < cap
  {
    var s := f + [NEWLINE];
    var i := FirstNewline(s);
    var all := Lines(s);
    assert all == [FirstLine(s)] + Lines(s[FirstLine(s).wire..]);
    if Clean(f) {
      FirstFrame(f, []);
      assert f + [NEWLINE] + [] == s;
      assert all == [Line(f, |f| + 1)];
    } else {
      assert s[|f|] == NEWLINE;
      assert i <= |f|;
      assert |s[..i]| == i;
      DirtyIsCut(f, i);
      ReadableHead(all, cap);
      assert Readable(all, cap) == [] || |Readable(all, cap)[0]| < |[f][0]|;
    }
  }
}
