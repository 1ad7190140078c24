/**
 What is kept of the arguments of a tool call: every protocol-private field is
 removed at any depth, and an object that would serialise to more than 4 KiB is
 replaced by a preview of its serialisation.
 */
module Arguments {
  import opened Json
  import opened Options
  import opened Utf8
  import opened ToolHistory

  const MAX_ARGUMENT_BYTES: nat := 4 * 1024
  const MAX_ARGUMENT_PREVIEW_BYTES: nat := 2_000
  const PROTOCOL_FIELD := "encrypted_content"
  const PREVIEW_FIELD := "_truncated_preview"

  // ---------- Removing protocol fields ----------

  // The value without protocol fields, and the running count of removed fields.
  function Exclude(v: Value, excluded: nat): (Value, nat)
    decreases v
  {
    match v
    case Obj(entries) => var (kept, n) := ExcludeEntries(entries, excluded); (Obj(kept), n)
    case Arr(items) => var (kept, n) := ExcludeItems(items, excluded); (Arr(kept), n)
    case _ => (v, excluded)
  }

  function ExcludeEntries(entries: seq<Entry>, excluded: nat): (seq<Entry>, nat)
    decreases entries
  {
    if entries == [] then ([], excluded)
    else if entries[0].key == PROTOCOL_FIELD then ExcludeEntries(entries[1..], excluded + 1)
    else
      var (value, n) := Exclude(entries[0].value, excluded);
      var (rest, m) := ExcludeEntries(entries[1..], n);
      ([Entry(entries[0].key, value)] + rest, m)
  }

  function ExcludeItems(items: seq<Value>, excluded: nat): (seq<Value>, nat)
    decreases items
  {
    if items == [] then ([], excluded)
    else
      var (value, n) := Exclude(items[0], excluded);
      var (rest, m) := ExcludeItems(items[1..], n);
      ([value] + rest, m)
  }

  // Where a value sits inside another.
  datatype Step = Field(name: string) | Index(i: nat)

  function At(v: Value, path: seq<Step>): Option<Value>
    decreases path
  {
    if path == [] then Some(v) else
    match path[0]
    case Field(name) =>
      var member := Get(v, name);
      if member.None? then None else At(member.value, path[1..])
    case Index(i) =>
      if !v.Arr? || i >= |v.items| then None else At(v.items[i], path[1..])
  }

  function Cleaned(v: Value): Value {
    Exclude(v, 0).0
  }

  // The number of protocol fields that are not inside another one.
  function Marked(v: Value): nat
    decreases v
  {
    match v
    case Obj(entries) => MarkedEntries(entries)
    case Arr(items) => MarkedItems(items)
    case _ => 0
  }

  function MarkedEntries(entries: seq<Entry>): nat
    decreases entries
  {
    if entries == [] then 0 else
    (if entries[0].key == PROTOCOL_FIELD then 1 else Marked(entries[0].value)) + MarkedEntries(entries[1..])
  }

  function MarkedItems(items: seq<Value>): nat
    decreases items
  {
    if items == [] then 0 else Marked(items[0]) + MarkedItems(items[1..])
  }

  // The counter adds up the marked fields; the value does not depend on it.
  lemma {:induction false} ExcludeCounts(v: Value, excluded: nat)
    ensures Exclude(v, excluded) == (Cleaned(v), excluded + Marked(v))
    decreases v
  {
    match v
    case Obj(entries) =>
      ExcludeEntriesCounts(entries, excluded);
      ExcludeEntriesCounts(entries, 0);
    case Arr(items) =>
      ExcludeItemsCounts(items, excluded);
      ExcludeItemsCounts(items, 0);
    case _ =>
  }

  lemma {:induction false} ExcludeEntriesCounts(entries: seq<Entry>, excluded: nat)
    ensures ExcludeEntries(entries, excluded) == (ExcludeEntries(entries, 0).0, excluded + MarkedEntries(entries))
    decreases entries
  {
    if entries != [] {
      if entries[0].key == PROTOCOL_FIELD {
        ExcludeEntriesCounts(entries[1..], excluded + 1);
        ExcludeEntriesCounts(entries[1..], 1);
      } else {
        ExcludeCounts(entries[0].value, excluded);
        ExcludeCounts(entries[0].value, 0);
        ExcludeEntriesCounts(entries[1..], excluded + Marked(entries[0].value));
        ExcludeEntriesCounts(entries[1..], Marked(entries[0].value));
      }
    }
  }

  lemma {:induction false} ExcludeItemsCounts(items: seq<Value>, excluded: nat)
    ensures ExcludeItems(items, excluded) == (ExcludeItems(items, 0).0, excluded + MarkedItems(items))
    decreases items
  {
    if items != [] {
      ExcludeCounts(items[0], excluded);
      ExcludeCounts(items[0], 0);
      ExcludeItemsCounts(items[1..], excluded + Marked(items[0]));
      ExcludeItemsCounts(items[1..], Marked(items[0]));
    }
  }

  lemma {:induction false} CleanedEntry(entries: seq<Entry>, name: string)
    ensures Lookup(ExcludeEntries(entries, 0).0, name) ==
            if name == PROTOCOL_FIELD then None else
            match Lookup(entries, name) case None => None case Some(v) => Some(Cleaned(v))
    decreases entries
  {
    if entries != [] {
      var rest := entries[1..];
      CleanedEntry(rest, name);
      if entries[0].key == PROTOCOL_FIELD {
        ExcludeEntriesCounts(rest, 1);
      } else {
        var (value, n) := Exclude(entries[0].value, 0);
        ExcludeEntriesCounts(rest, n);
        assert ExcludeEntries(entries, 0).0 == [Entry(entries[0].key, value)] + ExcludeEntries(rest, 0).0;
      }
    }
  }

  lemma {:induction false} CleanedItem(items: seq<Value>, i: nat)
    ensures |ExcludeItems(items, 0).0| == |items|
    ensures i < |items| ==> ExcludeItems(items, 0).0[i] == Cleaned(items[i])
    decreases items
  {
    if items != [] {
      var (value, n) := Exclude(items[0], 0);
      ExcludeItemsCounts(items[1..], n);
      CleanedItem(items[1..], if i == 0 then 0 else i - 1);
    }
  }

  /** What is left, position by position: nothing at or below a protocol field,
      and at every other position what was there, cleaned in turn. */
  lemma {:induction false} CleanedAt(v: Value, path: seq<Step>)
    ensures At(Cleaned(v), path) ==
            if Field(PROTOCOL_FIELD) in path then None else
            match At(v, path) case None => None case Some(x) => Some(Cleaned(x))
    decreases |path|
  {
    if path != [] {
      match path[0]
      case Field(name) =>
        if v.Obj? {
          CleanedEntry(v.entries, name);
          var member := Lookup(v.entries, name);
          if member.Some? && name != PROTOCOL_FIELD {
            CleanedAt(member.value, path[1..]);
          }
        }
      case Index(i) =>
        if v.Arr? {
          CleanedItem(v.items, i);
          if i < |v.items| {
            CleanedAt(v.items[i], path[1..]);
          }
        }
    }
  }

  // ---------- Bounding the serialisation ----------

  function Preview(serialized: string): seq<Entry> {
    [Entry(PREVIEW_FIELD, Str(LongestPrefix(serialized, MAX_ARGUMENT_PREVIEW_BYTES)))]
  }

  // The bytes the arguments take when they are serialised.
  function Size(arguments: seq<Entry>): nat {
    Bytes(Encode(Obj(arguments)))
  }

  function Bounded(arguments: seq<Entry>, excluded: nat): Detail {
    if Size(arguments) <= MAX_ARGUMENT_BYTES then Detail(arguments, false, excluded) else
    var preview := Preview(Encode(Obj(arguments)));
    if Size(preview) > MAX_ARGUMENT_BYTES then Detail([], true, excluded)
    else Detail(preview, true, excluded)
  }

  // The object the input stands for; anything but an object counts as empty.
  function AsObject(input: Option<Value>): (v: Value)
    ensures v.Obj?
  {
    if input.Some? && input.value.Obj? then input.value else Obj([])
  }

  // The arguments as they are recorded.
  function Project(input: Option<Value>): Detail {
    var (arguments, excluded) := ExcludeEntries(AsObject(input).entries, 0);
    Bounded(arguments, excluded)
  }

  // ASCII that a JSON string holds as it is.
  ghost predicate Plain(s: string) {
    forall i :: 0 <= i < |s| ==> NeedsNoEscape(s[i]) && s[i] as int < 0x80
  }

  lemma {:induction false} OneTextBytes(key: string, text: string)
    requires Plain(key) && Printable(text)
    ensures Size([Entry(key, Str(text))]) <= 7 + |key| + 2 * Bytes(text)
  {
    EscapeNothing(key);
    AsciiBytes(key);
    QuotedBytes(key);
    EscapeDoubles(text);
    QuotedBytes(text);
    OneMemberBytes(key, Str(text));
  }

  lemma {:induction false} PreviewFieldIsPlain()
    ensures Plain(PREVIEW_FIELD) && |PREVIEW_FIELD| == 18
  {
  }

  // The preview fits whatever the serialisation holds, so it is never cleared.
  lemma {:induction false} PreviewFits(serialized: string)
    requires Printable(serialized)
    ensures Size(Preview(serialized)) <= 4_025
  {
    var text := LongestPrefix(serialized, MAX_ARGUMENT_PREVIEW_BYTES);
    LongestPrefixFits(serialized, MAX_ARGUMENT_PREVIEW_BYTES);
    PreviewFieldIsPlain();
    OneTextBytes(PREVIEW_FIELD, text);
  }

  lemma {:induction false} BoundedFits(arguments: seq<Entry>, excluded: nat)
    ensures
      var d := Bounded(arguments, excluded);
      && Size(d.arguments) <= MAX_ARGUMENT_BYTES
      && d.redacted == excluded
      && (d.truncated <==> Size(arguments) > MAX_ARGUMENT_BYTES)
      && d.arguments == if d.truncated then Preview(Encode(Obj(arguments))) else arguments
  {
    EncodePrintable(Obj(arguments));
    PreviewFits(Encode(Obj(arguments)));
  }

  /** The recorded arguments always serialise to at most 4 KiB. They are the
      cleaned input unless that is too long, and then its preview, which is never
      dropped; the counter is the number of removed fields. */
  lemma {:induction false} ProjectIsBounded(input: Option<Value>)
    ensures
      var d, cleaned := Project(input), Cleaned(AsObject(input));
      && Size(d.arguments) <= MAX_ARGUMENT_BYTES
      && d.redacted == Marked(AsObject(input))
      && (d.truncated <==> Bytes(Encode(cleaned)) > MAX_ARGUMENT_BYTES)
      && Obj(d.arguments) == if d.truncated then Obj(Preview(Encode(cleaned))) else cleaned
  {
    var entries := AsObject(input).entries;
    ExcludeEntriesCounts(entries, 0);
    BoundedFits(ExcludeEntries(entries, 0).0, MarkedEntries(entries));
  }

  // Anything but an object is recorded as no arguments.
  lemma {:induction false} EmptyProjects(input: Option<Value>)
    ensures input.None? || !input.value.Obj? ==> Project(input).arguments == []
  {
    if input.None? || !input.value.Obj? {
      ProjectIsBounded(input);
      assert Encode(Obj([])) == "{}";
      AsciiBytes("{}");
    }
  }

  lemma {:induction false} PreviewHasOneField(text: string, path: seq<Step>)
    requires Field(PROTOCOL_FIELD) in path
    ensures At(Obj([Entry(PREVIEW_FIELD, Str(text))]), path) == None
  {
    var v := Obj([Entry(PREVIEW_FIELD, Str(text))]);
    if path[0] == Field(PREVIEW_FIELD) {
      assert path == [path[0]] + path[1..];
      assert Get(v, PREVIEW_FIELD) == Some(Str(text));
    } else if path[0].Field? {
      assert v.entries[1..] == [];
      assert Lookup(v.entries, path[0].name) == Lookup([], path[0].name);
    }
  }

  // No recorded argument holds a protocol field, at any depth.
  lemma {:induction false} ProjectHasNoProtocolField(input: Option<Value>, path: seq<Step>)
    requires Field(PROTOCOL_FIELD) in path
    ensures At(Obj(Project(input).arguments), path) == None
  {
    ProjectIsBounded(input);
    CleanedAt(AsObject(input), path);
    PreviewHasOneField(LongestPrefix(Encode(Cleaned(AsObject(input))), MAX_ARGUMENT_PREVIEW_BYTES), path);
  }

  /** The cut of the preview: step back from the cap to a character boundary. */
  method CutPreview(s: string) returns (prefix: string)
    ensures prefix == LongestPrefix(s, MAX_ARGUMENT_PREVIEW_BYTES)
  {
    var cut := if Bytes(s) < MAX_ARGUMENT_PREVIEW_BYTES then Bytes(s) else MAX_ARGUMENT_PREVIEW_BYTES;
    LongestPrefixFits(s, MAX_ARGUMENT_PREVIEW_BYTES);
    BoundaryInside(s, Bytes(LongestPrefix(s, MAX_ARGUMENT_PREVIEW_BYTES)));
    while !IsCharBoundary(s, cut)
      invariant Bytes(LongestPrefix(s, MAX_ARGUMENT_PREVIEW_BYTES)) <= cut <= MAX_ARGUMENT_PREVIEW_BYTES
      decreases cut
    {
      cut := cut - 1;
    }
    LastCutIsLongest(s, MAX_ARGUMENT_PREVIEW_BYTES, cut);
    prefix := TakeBytes(s, cut);
  }
}
