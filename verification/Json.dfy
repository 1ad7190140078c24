/**
 JSON values as the program holds them after parsing, and their compact
 serialisation (sections 2 to 7 of RFC 8259).
 */
module Json {
  import opened Options
  import opened Utf8

  // What a printed float may consist of.
  predicate IsFloatChar(c: char) {
    '0' <= c <= '9' || c == '+' || c == '-' || c == '.' || c == 'e' || c == 'E'
  }

  type FloatLiteral = s: string | forall i :: 0 <= i < |s| ==> IsFloatChar(s[i])

  datatype Number = PosInt(n: nat) | NegInt(magnitude: nat) | Float(literal: FloatLiteral)

  datatype Value =
    | Null
    | Bool(b: bool)
    | Num(number: Number)
    | Str(text: string)
    | Arr(items: seq<Value>)
    | Obj(entries: seq<Entry>)

  datatype Entry = Entry(key: string, value: Value)

  function Lookup(entries: seq<Entry>, key: string): Option<Value> {
    if entries == [] then None
    else if entries[0].key == key then Some(entries[0].value)
    else Lookup(entries[1..], key)
  }

  // A member of an object; absent from everything that is not an object.
  function Get(v: Value, key: string): Option<Value> {
    if v.Obj? then Lookup(v.entries, key) else None
  }

  function AsText(v: Option<Value>): Option<string> {
    if v.Some? && v.value.Str? then Some(v.value.text) else None
  }

  function AsNat(v: Option<Value>): Option<nat> {
    if v.Some? && v.value.Num? && v.value.number.PosInt? then Some(v.value.number.n) else None
  }

  // The string member `key` of `v`, if it has one.
  function GetText(v: Value, key: string): Option<string> {
    AsText(Get(v, key))
  }

  // ---------- Compact serialisation ----------

  function Digit(n: nat): char
    requires n < 16
  {
    "0123456789abcdef"[n]
  }

  function Decimal(n: nat): (s: string)
    ensures s != ""
  {
    if n < 10 then [Digit(n)] else Decimal(n / 10) + [Digit(n % 10)]
  }

  predicate IsControl(c: char) {
    c as int < 0x20
  }

  // One character inside a JSON string.
  function Escape(c: char): (s: string) {
    if c == '\"' then "\\\""
    else if c == '\\' then "\\\\"
    else if c == '\n' then "\\n"
    else if c == '\r' then "\\r"
    else if c == '\t' then "\\t"
    else if c as int == 0x08 then "\\b"
    else if c as int == 0x0C then "\\f"
    else if IsControl(c) then "\\u00" + [Digit(c as int / 16), Digit(c as int % 16)]
    else [c]
  }

  function EscapeAll(s: string): string {
    if s == "" then "" else Escape(s[0]) + EscapeAll(s[1..])
  }

  function EncodeText(s: string): string {
    "\"" + EscapeAll(s) + "\""
  }

  function EncodeNumber(n: Number): string {
    match n
    case PosInt(n) => Decimal(n)
    case NegInt(m) => "-" + Decimal(m)
    case Float(literal) => literal
  }

  function Encode(v: Value): string
    decreases v
  {
    match v
    case Null => "null"
    case Bool(b) => if b then "true" else "false"
    case Num(n) => EncodeNumber(n)
    case Str(s) => EncodeText(s)
    case Arr(items) => "[" + EncodeItems(items) + "]"
    case Obj(entries) => "{" + EncodeEntries(entries) + "}"
  }

  function EncodeItems(items: seq<Value>): string
    decreases items
  {
    if items == [] then "" else
    Encode(items[0]) + (if |items| == 1 then "" else ",") + EncodeItems(items[1..])
  }

  function EncodeEntries(entries: seq<Entry>): string
    decreases entries
  {
    if entries == [] then "" else
    EncodeText(entries[0].key) + ":" + Encode(entries[0].value)
    + (if |entries| == 1 then "" else ",") + EncodeEntries(entries[1..])
  }

  ghost predicate Printable(s: string) {
    forall i :: 0 <= i < |s| ==> !IsControl(s[i])
  }

  lemma {:induction false} PrintableConcat(s: string, t: string)
    requires Printable(s) && Printable(t)
    ensures Printable(s + t)
  {
  }

  lemma {:induction false} EscapeAllPrintable(s: string)
    ensures Printable(EscapeAll(s))
  {
    if s != "" {
      EscapeAllPrintable(s[1..]);
      PrintableConcat(Escape(s[0]), EscapeAll(s[1..]));
    }
  }

  lemma {:induction false} DecimalPrintable(n: nat)
    ensures Printable(Decimal(n))
  {
    if n >= 10 {
      DecimalPrintable(n / 10);
    }
  }

  lemma {:induction false} NumberPrintable(n: Number)
    ensures Printable(EncodeNumber(n))
  {
    match n
    case PosInt(n) => DecimalPrintable(n);
    case NegInt(m) => DecimalPrintable(m);
    case Float(literal) =>
  }

  // Serialised JSON holds no control character: escaping has removed them all.
  lemma {:induction false} EncodePrintable(v: Value)
    ensures Printable(Encode(v))
    decreases v
  {
    match v
    case Num(n) => NumberPrintable(n);
    case Str(s) => EscapeAllPrintable(s);
    case Arr(items) => ItemsPrintable(items);
    case Obj(entries) => EntriesPrintable(entries);
    case _ =>
  }

  lemma {:induction false} ItemsPrintable(items: seq<Value>)
    ensures Printable(EncodeItems(items))
    decreases items
  {
    if items != [] {
      EncodePrintable(items[0]);
      ItemsPrintable(items[1..]);
    }
  }

  lemma {:induction false} EntriesPrintable(entries: seq<Entry>)
    ensures Printable(EncodeEntries(entries))
    decreases entries
  {
    if entries != [] {
      EscapeAllPrintable(entries[0].key);
      EncodePrintable(entries[0].value);
      EntriesPrintable(entries[1..]);
    }
  }

  // Escaping printable text at most doubles its bytes (section 7 of RFC 8259:
  // only the quotation mark and the reverse solidus still need an escape).
  lemma {:induction false} EscapeDoubles(s: string)
    requires Printable(s)
    ensures Bytes(EscapeAll(s)) <= 2 * Bytes(s)
  {
    if s != "" {
      assert !IsControl(s[0]);
      EscapeDoubles(s[1..]);
      BytesConcat(Escape(s[0]), EscapeAll(s[1..]));
      EscapeWidth(s[0]);
    }
  }

  lemma {:induction false} EscapeWidth(c: char)
    requires !IsControl(c)
    ensures Bytes(Escape(c)) <= 2 * Width(c)
  {
    if c == '\"' || c == '\\' {
      assert Bytes(Escape(c)) == 2 by {
        assert Escape(c)[1..] == [c];
      }
    }
  }

  predicate NeedsNoEscape(c: char) {
    !IsControl(c) && c != '\"' && c != '\\'
  }

  lemma {:induction false} EscapeNothing(s: string)
    requires forall i :: 0 <= i < |s| ==> NeedsNoEscape(s[i])
    ensures EscapeAll(s) == s
  {
    if s != "" {
      assert NeedsNoEscape(s[0]);
      EscapeNothing(s[1..]);
    }
  }

  lemma {:induction false} QuotedBytes(s: string)
    ensures Bytes(EncodeText(s)) == 2 + Bytes(EscapeAll(s))
  {
    BytesConcat("\"" + EscapeAll(s), "\"");
    BytesConcat("\"", EscapeAll(s));
    AsciiBytes("\"");
  }

  // An object with one member adds five bytes of punctuation to its two texts.
  lemma {:induction false} OneMemberBytes(key: string, v: Value)
    ensures Bytes(Encode(Obj([Entry(key, v)]))) == 3 + Bytes(EncodeText(key)) + Bytes(Encode(v))
  {
    var one := [Entry(key, v)];
    assert one[1..] == [];
    assert EncodeEntries(one) == EncodeText(key) + ":" + Encode(v) + "" + "";
    assert EncodeEntries(one) == EncodeText(key) + ":" + Encode(v);
    BytesConcat(EncodeText(key) + ":", Encode(v));
    BytesConcat(EncodeText(key), ":");
    BytesConcat("{" + EncodeEntries(one), "}");
    BytesConcat("{", EncodeEntries(one));
    AsciiBytes(":");
    AsciiBytes("{");
    AsciiBytes("}");
  }
}
