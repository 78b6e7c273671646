/** The text that `json.dumps(value, ensure_ascii=False, sort_keys=True)` writes, and a reader of such texts. */
module JsonText {
  import opened Wrappers
  import opened Json

  // ---------------------------------------------------------------------------
  // Strings
  // ---------------------------------------------------------------------------

  const HEX := "0123456789abcdef"

  function Escape(c: char): string {
    if c == '"' then "\\\""
    else if c == '\\' then "\\\\"
    else if c == '\n' then "\\n"
    else if c == '\r' then "\\r"
    else if c == '\t' then "\\t"
    else if c == '\U{8}' then "\\b"
    else if c == '\U{C}' then "\\f"
    else if c < ' ' then "\\u00" + [HEX[c as int / 16], HEX[c as int % 16]]
    else [c]
  }

  function Escaped(s: string): string {
    if s == "" then "" else Escape(s[0]) + Escaped(s[1..])
  }

  function HexValue(c: char): Option<nat> {
    if '0' <= c <= '9' then Some(c as int - '0' as int)
    else if 'a' <= c <= 'f' then Some(c as int - 'a' as int + 10)
    else if 'A' <= c <= 'F' then Some(c as int - 'A' as int + 10)
    else None
  }

  function ShortEscape(c: char): Option<char> {
    if c == '"' || c == '\\' || c == '/' then Some(c)
    else if c == 'n' then Some('\n')
    else if c == 'r' then Some('\r')
    else if c == 't' then Some('\t')
    else if c == 'b' then Some('\U{8}')
    else if c == 'f' then Some('\U{C}')
    else None
  }

  /** Four hexadecimal digits as a character; surrogates are none. */
  function HexChar(t: string): Option<char>
    requires |t| == 4
  {
    var a, b, c, d := HexValue(t[0]), HexValue(t[1]), HexValue(t[2]), HexValue(t[3]);
    if a.None? || b.None? || c.None? || d.None? then None
    else
      var n := ((a.value * 16 + b.value) * 16 + c.value) * 16 + d.value;
      if n < 0xD800 || 0xE000 <= n < 0x10000 then Some(n as char) else None
  }

  /**
   * The first character that the inside of a JSON string denotes, and how many characters spell it
   * (section 7 of RFC 8259). A quote, a character below the space or a lone backslash spells nothing.
   */
  function Spelled(t: string): (r: Option<(char, nat)>)
    ensures r.Some? ==> 1 <= r.value.1 <= |t|
  {
    if t == "" || t[0] == '"' || t[0] < ' ' then None
    else if t[0] != '\\' then Some((t[0], 1))
    else if |t| >= 6 && t[1] == 'u' then
      var c := HexChar(t[2..6]);
      if c.None? then None else Some((c.value, 6))
    else if |t| >= 2 then
      var c := ShortEscape(t[1]);
      if c.None? then None else Some((c.value, 2))
    else None
  }

  /** What the inside of a JSON string denotes, if it is one. */
  function Unescape(t: string): Option<string>
    decreases |t|
  {
    if t == "" then Some("")
    else
      var first := Spelled(t);
      if first.None? then None
      else
        var rest := Unescape(t[first.value.1..]);
        if rest.None? then None else Some([first.value.0] + rest.value)
  }

  lemma HexBack(n: nat)
    requires n < 16
    ensures HexValue(HEX[n]) == Some(n)
  {
  }

  lemma ControlSpells(c: char, rest: string)
    requires |Escape(c)| == 6
    ensures Spelled(Escape(c) + rest) == Some((c, 6))
  {
    var t, a, b := Escape(c) + rest, c as int / 16, c as int % 16;
    HexBack(a);
    HexBack(b);
    assert HexValue('0') == Some(0);
    assert t[..2] == "\\u" && t[2..6] == ['0', '0', HEX[a], HEX[b]];
    assert HexChar(t[2..6]) == Some(c);
  }

  /** An escaped character reads back as itself, whatever follows. */
  lemma EscapeSpells(c: char, rest: string)
    ensures Spelled(Escape(c) + rest) == Some((c, |Escape(c)|))
  {
    if |Escape(c)| == 6 {
      ControlSpells(c, rest);
    } else {
      hide HexChar;
    }
  }

  /** Escape sequences are written in lower case. */
  lemma EscapeLower(c: char, i: nat)
    requires i < |Escape(c)| && |Escape(c)| > 1
    ensures !('A' <= Escape(c)[i] <= 'Z')
  {
    if |Escape(c)| == 6 {
      assert forall n: nat :: n < 16 ==> !('A' <= HEX[n] <= 'Z');
    }
  }

  /** Escaping loses nothing: the escaped text is the inside of a JSON string that denotes the text. */
  lemma {:induction false} UnescapeEscaped(s: string)
    ensures Unescape(Escaped(s)) == Some(s)
  {
    hide Spelled, Escape;
    if s != "" {
      var rest := Escaped(s[1..]);
      EscapeSpells(s[0], rest);
      assert s == [s[0]] + s[1..];
      assert (Escape(s[0]) + rest)[|Escape(s[0])|..] == rest;
      UnescapeEscaped(s[1..]);
    }
  }

  /** No spelling of a character is shorter than its escape. */
  lemma EscapeShortest(t: string)
    requires Spelled(t).Some?
    ensures |Escape(Spelled(t).value.0)| <= Spelled(t).value.1
  {
  }

  /** Escaping wastes nothing: no JSON string that denotes the text is shorter. */
  lemma {:induction false} EscapedShortest(t: string, s: string)
    requires Unescape(t) == Some(s)
    ensures |Escaped(s)| <= |t|
    decreases |t|
  {
    hide Spelled, Escape;
    if t != "" {
      var first := Spelled(t).value;
      EscapeShortest(t);
      EscapedShortest(t[first.1..], s[1..]);
    }
  }

  lemma EscapeCounts(c: char)
    ensures |Escape(c)| == EscapedLength(c)
  {
  }

  lemma {:induction false} EscapedCounts(s: string)
    ensures |Escaped(s)| == CharsLength(s)
  {
    hide Escape, EscapedLength;
    if s != "" {
      EscapeCounts(s[0]);
      EscapedCounts(s[1..]);
    }
  }

  // ---------------------------------------------------------------------------
  // Whole values
  // ---------------------------------------------------------------------------

  function Quoted(s: string): string {
    "\"" + Escaped(s) + "\""
  }

  /** A value with its fields in the order they have. */
  function Written(v: Value): string {
    match v
    case Null => "null"
    case Bool(b) => if b then "true" else "false"
    case Number(text, _) => text
    case Str(s) => Quoted(s)
    case Arr(items) => "[" + WrittenItems(items) + "]"
    case Obj(fields) => "{" + WrittenFields(fields) + "}"
  }

  function WrittenItems(items: seq<Value>): string {
    if items == [] then ""
    else if |items| == 1 then Written(items[0])
    else Written(items[0]) + ", " + WrittenItems(items[1..])
  }

  function WrittenField(f: Field): string {
    Quoted(f.key.Name()) + ": " + Written(f.value)
  }

  function WrittenFields(fs: Fields): string {
    if fs == [] then ""
    else if |fs| == 1 then WrittenField(fs[0])
    else WrittenField(fs[0]) + ", " + WrittenFields(fs[1..])
  }

  /** The order of Python's strings, by code point. */
  predicate Before(a: string, b: string) {
    a == "" || (b != "" && (a[0] < b[0] || (a[0] == b[0] && Before(a[1..], b[1..]))))
  }

  function Inserted(fs: Fields, f: Field): (r: Fields)
    ensures multiset(r) == multiset(fs) + multiset{f}
  {
    if fs == [] || Before(f.key.Name(), fs[0].key.Name()) then [f] + fs
    else
      assert fs == [fs[0]] + fs[1..];
      [fs[0]] + Inserted(fs[1..], f)
  }

  /** The fields in the order of their names. */
  function Sorted(fs: Fields): (r: Fields)
    ensures multiset(r) == multiset(fs)
  {
    if fs == [] then []
    else
      assert fs == [fs[0]] + fs[1..];
      Inserted(Sorted(fs[1..]), fs[0])
  }

  /** `sort_keys`, all the way down. */
  function SortKeys(v: Value): Value {
    match v
    case Arr(items) => Arr(SortItems(items))
    case Obj(fields) => Obj(Sorted(SortValues(fields)))
    case _ => v
  }

  function SortItems(items: seq<Value>): (r: seq<Value>)
    ensures |r| == |items|
  {
    if items == [] then [] else [SortKeys(items[0])] + SortItems(items[1..])
  }

  function SortValues(fs: Fields): (r: Fields)
    ensures |r| == |fs|
  {
    if fs == [] then [] else [SortValue(fs[0])] + SortValues(fs[1..])
  }

  function SortValue(f: Field): Field {
    Field(f.key, SortKeys(f.value))
  }

  function Dumped(v: Value): string {
    Written(SortKeys(v))
  }

  lemma {:induction false} BeforeTotal(a: string, b: string)
    ensures Before(a, b) || Before(b, a)
  {
    if a != "" && b != "" {
      BeforeTotal(a[1..], b[1..]);
    }
  }

  lemma {:induction false} BeforeTransitive(a: string, b: string, c: string)
    requires Before(a, b) && Before(b, c)
    ensures Before(a, c)
  {
    if a != "" && a[0] == b[0] == c[0] {
      BeforeTransitive(a[1..], b[1..], c[1..]);
    }
  }

  predicate NamesOrdered(fs: Fields) {
    forall i, j :: 0 <= i < j < |fs| ==> Before(fs[i].key.Name(), fs[j].key.Name())
  }

  lemma {:induction false} InsertedOrdered(fs: Fields, f: Field)
    requires NamesOrdered(fs)
    ensures NamesOrdered(Inserted(fs, f))
  {
    hide Key.Name, Before;
    var r := Inserted(fs, f);
    if fs != [] && !Before(f.key.Name(), fs[0].key.Name()) {
      InsertedOrdered(fs[1..], f);
      BeforeTotal(f.key.Name(), fs[0].key.Name());
      forall j | 1 <= j < |r| ensures Before(fs[0].key.Name(), r[j].key.Name()) {
        assert r[j] in multiset(Inserted(fs[1..], f));
      }
    } else {
      forall j | 1 <= j < |r| ensures Before(f.key.Name(), r[j].key.Name()) {
        if j > 1 {
          BeforeTransitive(f.key.Name(), fs[0].key.Name(), r[j].key.Name());
        }
      }
    }
  }

  /** The names come out in ascending order; nothing is added or lost, as the contract of `Sorted` says. */
  lemma {:induction false} SortedOrdered(fs: Fields)
    ensures NamesOrdered(Sorted(fs))
  {
    hide Key.Name, Before;
    if fs != [] {
      SortedOrdered(fs[1..]);
      InsertedOrdered(Sorted(fs[1..]), fs[0]);
    }
  }

  /** In every object of the value, however deep, the names are in ascending order. */
  predicate KeysOrdered(v: Value) {
    match v
    case Arr(items) => forall i :: 0 <= i < |items| ==> KeysOrdered(items[i])
    case Obj(fields) => NamesOrdered(fields) && FieldsOrdered(fields)
    case _ => true
  }

  predicate FieldsOrdered(fs: Fields) {
    forall f :: f in fs ==> FieldOrdered(f)
  }

  predicate FieldOrdered(f: Field) {
    KeysOrdered(f.value)
  }

  lemma {:induction false} SortKeysOrdered(v: Value)
    ensures KeysOrdered(SortKeys(v))
    decreases v, 1
  {
    hide NamesOrdered;
    match v
    case Arr(items) => SortItemsOrdered(items);
    case Obj(fields) =>
      SortValuesOrdered(fields);
      SortedOrdered(SortValues(fields));
      forall f | f in Sorted(SortValues(fields)) ensures FieldOrdered(f) {
        assert f in multiset(Sorted(SortValues(fields)));
      }
    case _ =>
  }

  lemma {:induction false} SortItemsOrdered(items: seq<Value>)
    ensures forall i :: 0 <= i < |items| ==> KeysOrdered(SortItems(items)[i])
    decreases items
  {
    if items != [] {
      SortKeysOrdered(items[0]);
      SortItemsOrdered(items[1..]);
    }
  }

  lemma {:induction false} SortValuesOrdered(fs: Fields)
    ensures FieldsOrdered(SortValues(fs))
    decreases fs
  {
    hide FieldOrdered, SortValue;
    if fs != [] {
      SortValueOrdered(fs[0]);
      SortValuesOrdered(fs[1..]);
    }
  }

  lemma {:induction false} SortValueOrdered(f: Field)
    ensures FieldOrdered(SortValue(f))
    decreases f
  {
    SortKeysOrdered(f.value);
  }

  // ---------------------------------------------------------------------------
  // The length
  // ---------------------------------------------------------------------------

  lemma {:induction false} WrittenLength(v: Value)
    ensures |Written(v)| == Length(v)
    decreases v, 1
  {
    match v
    case Str(s) => EscapedCounts(s);
    case Arr(items) => ItemsWritten(items);
    case Obj(fields) => FieldsWritten(fields);
    case _ =>
  }

  lemma {:induction false} ItemsWritten(items: seq<Value>)
    ensures |WrittenItems(items)| == ItemsLength(items)
    decreases items
  {
    if items != [] {
      WrittenLength(items[0]);
      ItemsWritten(items[1..]);
    }
  }

  lemma {:induction false} FieldsWritten(fs: Fields)
    ensures |WrittenFields(fs)| == FieldsLength(fs)
    decreases fs
  {
    hide WrittenField, FieldLength;
    if fs != [] {
      FieldWritten(fs[0]);
      FieldsWritten(fs[1..]);
    }
  }

  lemma {:induction false} FieldWritten(f: Field)
    ensures |WrittenField(f)| == FieldLength(f)
    decreases f
  {
    EscapedCounts(f.key.Name());
    WrittenLength(f.value);
  }

  lemma {:induction false} InsertedLength(fs: Fields, f: Field)
    ensures FieldsLength(Inserted(fs, f)) == FieldLength(f) + (if fs == [] then 0 else 2 + FieldsLength(fs))
  {
    hide FieldLength, Before, Key.Name;
    if fs == [] {
      assert [f] + fs == [f];
    } else if Before(f.key.Name(), fs[0].key.Name()) {
      assert ([f] + fs)[1..] == fs;
    } else {
      InsertedLength(fs[1..], f);
      var rest := Inserted(fs[1..], f);
      assert ([fs[0]] + rest)[1..] == rest;
      assert |rest| == |multiset(rest)| > 0;
    }
  }

  lemma {:induction false} SortedLength(fs: Fields)
    ensures FieldsLength(Sorted(fs)) == FieldsLength(fs)
  {
    hide FieldLength, Inserted;
    if fs != [] {
      SortedLength(fs[1..]);
      InsertedLength(Sorted(fs[1..]), fs[0]);
      assert |Sorted(fs[1..])| == |multiset(Sorted(fs[1..]))| == |multiset(fs[1..])| == |fs[1..]|;
    }
  }

  lemma {:induction false} SortKeysLength(v: Value)
    ensures Length(SortKeys(v)) == Length(v)
    decreases v, 1
  {
    match v
    case Arr(items) => SortItemsLength(items);
    case Obj(fields) =>
      SortValuesLength(fields);
      SortedLength(SortValues(fields));
    case _ =>
  }

  lemma {:induction false} SortItemsLength(items: seq<Value>)
    ensures ItemsLength(SortItems(items)) == ItemsLength(items)
    decreases items
  {
    if items != [] {
      SortKeysLength(items[0]);
      SortItemsLength(items[1..]);
    }
  }

  lemma {:induction false} SortValuesLength(fs: Fields)
    ensures FieldsLength(SortValues(fs)) == FieldsLength(fs)
    decreases fs
  {
    hide FieldLength, SortValue;
    if fs != [] {
      SortValueLength(fs[0]);
      SortValuesLength(fs[1..]);
    }
  }

  lemma {:induction false} SortValueLength(f: Field)
    ensures FieldLength(SortValue(f)) == FieldLength(f)
    decreases f
  {
    SortKeysLength(f.value);
  }

  /** The measure of the context builder is the length of the serialised text, for every value. */
  lemma DumpedLength(v: Value)
    ensures |Dumped(v)| == Length(v)
  {
    SortKeysLength(v);
    WrittenLength(SortKeys(v));
  }
}
