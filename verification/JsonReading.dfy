/** Reading serialised values back: the text of a value denotes that value and no other. */
module JsonReading {
  import opened Wrappers
  import opened Json
  import opened JsonText

  /** What a JSON text denotes; numbers keep their digits, objects the order of their members. */
  datatype Doc =
    | DNull
    | DBool(b: bool)
    | DNumber(text: string)
    | DString(s: string)
    | DArray(items: seq<Doc>)
    | DObject(members: seq<(string, Doc)>)

  function View(v: Value): Doc {
    match v
    case Null => DNull
    case Bool(b) => DBool(b)
    case Number(text, _) => DNumber(text)
    case Str(s) => DString(s)
    case Arr(items) => DArray(ViewItems(items))
    case Obj(fields) => DObject(ViewFields(fields))
  }

  function ViewItems(items: seq<Value>): (r: seq<Doc>)
    ensures |r| == |items|
  {
    if items == [] then [] else [View(items[0])] + ViewItems(items[1..])
  }

  function ViewField(f: Field): (string, Doc) {
    (f.key.Name(), View(f.value))
  }

  function ViewFields(fs: Fields): (r: seq<(string, Doc)>)
    ensures |r| == |fs|
  {
    if fs == [] then [] else [ViewField(fs[0])] + ViewFields(fs[1..])
  }

  // ---------------------------------------------------------------------------
  // The reader
  // ---------------------------------------------------------------------------

  /** The rest of a string after its opening quote, and what follows the closing one. */
  function ReadString(t: string): (r: Option<(string, string)>)
    ensures r.Some? ==> |r.value.1| < |t|
    decreases |t|
  {
    if t == "" then None
    else if t[0] == '"' then Some(("", t[1..]))
    else
      var first := Spelled(t);
      if first.None? then None
      else
        var rest := ReadString(t[first.value.1..]);
        if rest.None? then None else Some(([first.value.0] + rest.value.0, rest.value.1))
  }

  /** The characters of printed numbers, those that are not finite included. */
  predicate NumberChar(c: char) {
    '0' <= c <= '9' || c in "+-.eENaInfity"
  }

  function NumberEnd(t: string): (k: nat)
    ensures k <= |t|
  {
    if t != "" && NumberChar(t[0]) then 1 + NumberEnd(t[1..]) else 0
  }

  function ReadValue(t: string): (r: Option<(Doc, string)>)
    ensures r.Some? ==> |r.value.1| < |t|
    decreases |t|, 0
  {
    if t == "" then None
    else if t[0] == '"' then
      var s := ReadString(t[1..]);
      if s.None? then None else Some((DString(s.value.0), s.value.1))
    else if "[]" <= t then Some((DArray([]), t[2..]))
    else if "{}" <= t then Some((DObject([]), t[2..]))
    else if t[0] == '[' then
      var items := ReadItems(t[1..]);
      if items.None? then None else Some((DArray(items.value.0), items.value.1))
    else if t[0] == '{' then
      var members := ReadMembers(t[1..]);
      if members.None? then None else Some((DObject(members.value.0), members.value.1))
    else if "null" <= t then Some((DNull, t[4..]))
    else if "true" <= t then Some((DBool(true), t[4..]))
    else if "false" <= t then Some((DBool(false), t[5..]))
    else
      var k := NumberEnd(t);
      if k == 0 then None else Some((DNumber(t[..k]), t[k..]))
  }

  /** The items of an array up to and with its closing bracket. */
  function ReadItems(t: string): (r: Option<(seq<Doc>, string)>)
    ensures r.Some? ==> |r.value.1| < |t|
    decreases |t|, 1
  {
    var first := ReadValue(t);
    if first.None? then None
    else
      var (item, rest) := first.value;
      if "]" <= rest then Some(([item], rest[1..]))
      else if ", " <= rest then
        var more := ReadItems(rest[2..]);
        if more.None? then None else Some(([item] + more.value.0, more.value.1))
      else None
  }

  function ReadMember(t: string): (r: Option<((string, Doc), string)>)
    ensures r.Some? ==> |r.value.1| < |t|
    decreases |t|, 1
  {
    var name := if "\"" <= t then ReadString(t[1..]) else None;
    if name.None? || !(": " <= name.value.1) then None
    else
      var value := ReadValue(name.value.1[2..]);
      if value.None? then None else Some(((name.value.0, value.value.0), value.value.1))
  }

  /** The members of an object up to and with its closing brace. */
  function ReadMembers(t: string): (r: Option<(seq<(string, Doc)>, string)>)
    ensures r.Some? ==> |r.value.1| < |t|
    decreases |t|, 2
  {
    var first := ReadMember(t);
    if first.None? then None
    else
      var (member, rest) := first.value;
      if "}" <= rest then Some(([member], rest[1..]))
      else if ", " <= rest then
        var more := ReadMembers(rest[2..]);
        if more.None? then None else Some(([member] + more.value.0, more.value.1))
      else None
  }

  /** A whole text as one value. */
  function Read(t: string): Option<Doc> {
    var r := ReadValue(t);
    if r.Some? && r.value.1 == "" then Some(r.value.0) else None
  }

  // ---------------------------------------------------------------------------
  // The round trip
  // ---------------------------------------------------------------------------

  /** A printed number: its characters, beginning as a number does. */
  predicate NumberText(s: string) {
    s != "" && ('0' <= s[0] <= '9' || s[0] in "-NI") && forall i :: 0 <= i < |s| ==> NumberChar(s[i])
  }

  /** Every number in the value is printed as one. */
  predicate Printable(v: Value) {
    match v
    case Number(text, _) => NumberText(text)
    case Arr(items) => forall i :: 0 <= i < |items| ==> Printable(items[i])
    case Obj(fields) => PrintableFields(fields)
    case _ => true
  }

  predicate PrintableFields(fs: Fields) {
    forall f :: f in fs ==> PrintableField(f)
  }

  predicate PrintableField(f: Field) {
    Printable(f.value)
  }

  /** What may follow a value. */
  predicate Ends(rest: string) {
    rest != "" ==> !NumberChar(rest[0])
  }

  lemma {:induction false} StringBack(s: string, rest: string)
    ensures ReadString(Escaped(s) + "\"" + rest) == Some((s, rest))
  {
    hide Spelled, Escape;
    var t := Escaped(s) + "\"" + rest;
    if s == "" {
      assert t == "\"" + rest;
    } else {
      var more := Escaped(s[1..]) + "\"" + rest;
      assert t == Escape(s[0]) + more;
      EscapeSpells(s[0], more);
      NotQuoted(s[0], more);
      assert t[|Escape(s[0])|..] == more;
      StringBack(s[1..], rest);
      assert s == [s[0]] + s[1..];
    }
  }

  lemma NotQuoted(c: char, rest: string)
    ensures |Escape(c)| >= 1 && (Escape(c) + rest)[0] != '"'
  {
  }

  lemma {:induction false} NumberBack(text: string, rest: string)
    requires (forall i :: 0 <= i < |text| ==> NumberChar(text[i])) && Ends(rest)
    ensures NumberEnd(text + rest) == |text|
  {
    if text == "" {
      assert text + rest == rest;
    } else {
      assert (text + rest)[1..] == text[1..] + rest;
      NumberBack(text[1..], rest);
    }
  }

  lemma LiteralBack(b: bool, rest: string)
    ensures ReadValue("null" + rest) == Some((DNull, rest))
    ensures ReadValue((if b then "true" else "false") + rest) == Some((DBool(b), rest))
  {
    hide Spelled, ReadString, ReadItems, ReadMembers;
    assert ("null" + rest)[4..] == rest && ("true" + rest)[4..] == rest && ("false" + rest)[5..] == rest;
  }

  lemma NumberStarts(t: string)
    requires t != "" && ('0' <= t[0] <= '9' || t[0] in "-NI")
    ensures t[0] !in {'"', '[', '{', 'n', 't', 'f'}
    ensures !("[]" <= t) && !("{}" <= t) && !("null" <= t) && !("true" <= t) && !("false" <= t)
  {
  }

  lemma NumberTextBack(text: string, rest: string)
    requires NumberText(text) && Ends(rest)
    ensures ReadValue(text + rest) == Some((DNumber(text), rest))
  {
    hide Spelled, ReadString, ReadItems, ReadMembers, NumberChar, NumberEnd, Ends;
    NumberBack(text, rest);
    var t := text + rest;
    NumberStarts(t);
    assert t[0] == text[0] && t[..|text|] == text && t[|text|..] == rest;
  }

  lemma QuotedBack(s: string, rest: string)
    ensures ReadValue(Quoted(s) + rest) == Some((DString(s), rest))
  {
    hide Spelled, ReadString, ReadItems, ReadMembers, Escaped;
    StringBack(s, rest);
    assert (Quoted(s) + rest)[1..] == Escaped(s) + "\"" + rest;
  }

  /** A written value reads back as itself, whatever delimiter follows. */
  lemma {:induction false} ValueBack(v: Value, rest: string)
    requires Printable(v) && Ends(rest)
    ensures ReadValue(Written(v) + rest) == Some((View(v), rest))
    decreases v, 1
  {
    hide ReadValue, Quoted;
    match v
    case Null => LiteralBack(true, rest);
    case Bool(b) => LiteralBack(b, rest);
    case Number(text, _) => NumberTextBack(text, rest);
    case Str(s) => QuotedBack(s, rest);
    case Arr(items) => ArrayBack(items, rest);
    case Obj(fields) => ObjectBack(fields, rest);
  }

  lemma {:induction false} ArrayBack(items: seq<Value>, rest: string)
    requires forall i :: 0 <= i < |items| ==> Printable(items[i])
    ensures ReadValue(Written(Arr(items)) + rest) == Some((View(Arr(items)), rest))
    decreases items, 1
  {
    hide ReadItems, ReadString, ReadMembers, WrittenItems, Printable, ViewItems;
    var t := Written(Arr(items)) + rest;
    if items == [] {
      NoItems();
      assert t == "[]" + rest && t[2..] == rest;
    } else {
      assert t == "[" + (WrittenItems(items) + "]" + rest);
      ItemsBack(items, rest);
      ItemsStart(items);
      assert t[0] == '[' && t[1] == WrittenItems(items)[0];
    }
  }

  lemma WrittenStarts(v: Value)
    requires Printable(v)
    ensures Written(v) != "" && Written(v)[0] != ']'
  {
    hide Escaped;
  }

  lemma NoItems()
    ensures WrittenItems([]) == "" && ViewItems([]) == []
  {
  }

  lemma ItemsStart(items: seq<Value>)
    requires items != [] && Printable(items[0])
    ensures WrittenItems(items) != "" && WrittenItems(items)[0] != ']'
  {
    hide Written;
    WrittenStarts(items[0]);
  }

  lemma {:induction false} ItemsBack(items: seq<Value>, rest: string)
    requires items != [] && forall i :: 0 <= i < |items| ==> Printable(items[i])
    ensures ReadItems(WrittenItems(items) + "]" + rest) == Some((ViewItems(items), rest))
    decreases items, 0
  {
    hide Written, View, ReadValue, Printable;
    var t := WrittenItems(items) + "]" + rest;
    if |items| == 1 {
      var after := "]" + rest;
      assert t == Written(items[0]) + after;
      ValueBack(items[0], after);
      assert "]" <= after && after[1..] == rest;
      assert ViewItems(items) == [View(items[0])] by { NoItems(); }
    } else {
      var more := WrittenItems(items[1..]) + "]" + rest;
      var after := ", " + more;
      assert t == Written(items[0]) + after;
      ValueBack(items[0], after);
      ItemsBack(items[1..], rest);
      assert after[0] == ',' && after[2..] == more;
    }
  }

  lemma {:induction false} ObjectBack(fs: Fields, rest: string)
    requires PrintableFields(fs)
    ensures ReadValue(Written(Obj(fs)) + rest) == Some((View(Obj(fs)), rest))
    decreases fs, 1
  {
    hide ReadItems, ReadString, ReadMembers, PrintableFields, WrittenFields, ViewFields;
    var t := Written(Obj(fs)) + rest;
    if fs == [] {
      NoFields();
      assert t == "{}" + rest && t[2..] == rest;
    } else {
      assert t == "{" + (WrittenFields(fs) + "}" + rest);
      FieldsBack(fs, rest);
      FieldsStart(fs);
      assert t[0] == '{' && t[1] == '"';
    }
  }

  lemma NoFields()
    ensures WrittenFields([]) == "" && ViewFields([]) == []
  {
  }

  lemma FieldsStart(fs: Fields)
    requires fs != []
    ensures WrittenFields(fs) != "" && WrittenFields(fs)[0] == '"'
  {
    hide Escaped, Written;
  }

  lemma {:induction false} FieldsBack(fs: Fields, rest: string)
    requires fs != [] && PrintableFields(fs)
    ensures ReadMembers(WrittenFields(fs) + "}" + rest) == Some((ViewFields(fs), rest))
    decreases fs, 0
  {
    hide WrittenField, ViewField, ReadMember, PrintableField;
    var t := WrittenFields(fs) + "}" + rest;
    if |fs| == 1 {
      var after := "}" + rest;
      assert t == WrittenField(fs[0]) + after;
      MemberBack(fs[0], after);
      assert "}" <= after && after[1..] == rest;
      assert ViewFields(fs) == [ViewField(fs[0])] by { NoFields(); }
    } else {
      var more := WrittenFields(fs[1..]) + "}" + rest;
      var after := ", " + more;
      assert t == WrittenField(fs[0]) + after;
      MemberBack(fs[0], after);
      FieldsBack(fs[1..], rest);
      assert after[0] == ',' && after[2..] == more;
    }
  }

  lemma {:induction false} MemberBack(f: Field, rest: string)
    requires PrintableField(f) && Ends(rest)
    ensures ReadMember(WrittenField(f) + rest) == Some((ViewField(f), rest))
    decreases f
  {
    hide Key.Name, Written, View, ReadValue, Escaped, Spelled;
    var t := WrittenField(f) + rest;
    var after := ": " + (Written(f.value) + rest);
    assert t[1..] == Escaped(f.key.Name()) + "\"" + after;
    StringBack(f.key.Name(), after);
    assert after[2..] == Written(f.value) + rest;
    ValueBack(f.value, rest);
  }

  lemma {:induction false} SortKeysPrintable(v: Value)
    requires Printable(v)
    ensures Printable(SortKeys(v))
    decreases v, 1
  {
    match v
    case Arr(items) => SortItemsPrintable(items);
    case Obj(fields) =>
      SortValuesPrintable(fields);
      forall f | f in Sorted(SortValues(fields)) ensures PrintableField(f) {
        assert f in multiset(Sorted(SortValues(fields)));
      }
    case _ =>
  }

  lemma {:induction false} SortItemsPrintable(items: seq<Value>)
    requires forall i :: 0 <= i < |items| ==> Printable(items[i])
    ensures forall i :: 0 <= i < |items| ==> Printable(SortItems(items)[i])
    decreases items
  {
    if items != [] {
      SortKeysPrintable(items[0]);
      SortItemsPrintable(items[1..]);
    }
  }

  lemma {:induction false} SortValuesPrintable(fs: Fields)
    requires PrintableFields(fs)
    ensures PrintableFields(SortValues(fs))
    decreases fs
  {
    hide PrintableField, SortValue;
    if fs != [] {
      SortValuePrintable(fs[0]);
      SortValuesPrintable(fs[1..]);
    }
  }

  lemma {:induction false} SortValuePrintable(f: Field)
    requires PrintableField(f)
    ensures PrintableField(SortValue(f))
    decreases f
  {
    SortKeysPrintable(f.value);
  }

  /** The serialised text of a value reads back as that value with its keys in order. */
  lemma DumpedReadsBack(v: Value)
    requires Printable(v)
    ensures Read(Dumped(v)) == Some(View(SortKeys(v)))
  {
    SortKeysPrintable(v);
    ValueBack(SortKeys(v), "");
    assert Dumped(v) + "" == Dumped(v);
  }
}
