/** The loader step by step: column searches, the flags reassigned one after another, and the duplicate check. */
module DatasetReader {
  import opened Wrappers
  import opened Whitespace
  import opened DatasetLoader
  import opened DatasetRoundTrip
  import opened DatasetReload

  // ---------------------------------------------------------------------------
  // Searching columns
  // ---------------------------------------------------------------------------

  method FirstValue(t: Text, row: Row, columns: seq<Column>) returns (s: string)
    ensures s == t.First(row, columns)
  {
    hide Text.Canonical;
    for i := 0 to |columns|
      invariant t.First(row, columns) == t.First(row, columns[i..])
    {
      s := t.Canonical(Cell(row, columns[i]));
      if s != "" {
        return;
      }
      assert columns[i..][1..] == columns[i + 1..];
    }
    s := "";
  }

  method FindOperations(t: Text, row: Row) returns (v: Option<Value>)
    ensures v == t.Structured(row, OPERATION_COLUMNS)
  {
    var columns := OPERATION_COLUMNS;
    for i := 0 to |columns|
      invariant t.Structured(row, columns) == t.Structured(row, columns[i..])
    {
      v := Cell(row, columns[i]);
      if v.Some? && v.value != Null && v.value != Str("") {
        return;
      }
      assert columns[i..][1..] == columns[i + 1..];
    }
    v := None;
  }

  method FindContradiction(t: Text, row: Row) returns (r: Read<Option<bool>>)
    ensures r == t.ReadContradiction(row, [ExpectedContradiction, ContradictionPresent, HasContradiction])
  {
    hide Text.Canonical, Text.ReadBool;
    var columns := [ExpectedContradiction, ContradictionPresent, HasContradiction];
    for i := 0 to |columns|
      invariant t.ReadContradiction(row, columns) == t.ReadContradiction(row, columns[i..])
    {
      if t.Canonical(Cell(row, columns[i])) != "" {
        PresentCell(t, row, columns[i]);
        return t.ReadBool(row[columns[i]]);
      }
      assert columns[i..][1..] == columns[i + 1..];
    }
    r := Good(None);
  }

  lemma PresentCell(t: Text, row: Row, c: Column)
    requires t.Canonical(Cell(row, c)) != ""
    ensures c in row
  {
  }

  // ---------------------------------------------------------------------------
  // One example
  // ---------------------------------------------------------------------------

  method ReadFlag(t: Text, row: Row, column: Column, flag: bool) returns (r: Read<bool>)
    ensures r == t.Override(row, column, flag)
  {
    hide Text.Canonical, Text.ReadBool;
    var value := flag;
    if t.Canonical(Cell(row, column)) != "" {
      PresentCell(t, row, column);
      var parsed := t.ReadBool(row[column]);
      if parsed.Bad? {
        return Bad(parsed.error);
      }
      if parsed.value.Some? {
        value := parsed.value.value;
      }
    }
    return Good(value);
  }

  method ReadStatus(t: Text, row: Row, u: Truth)
    returns (scorable: bool, operationScorable: bool, exclusion: Option<string>)
    ensures t.Excluded(row, u) ==
      u.(scorable := scorable, operationScorable := operationScorable, exclusion := exclusion)
  {
    hide Text.Canonical;
    scorable, operationScorable, exclusion := u.scorable, u.operationScorable, u.exclusion;
    var status := t.fold(t.Canonical(Cell(row, EvaluationStatus)));
    if "excluded" <= status {
      scorable := false;
      operationScorable := false;
      if exclusion.None? {
        exclusion := Some(status);
      }
    }
  }

  method ReadExpectation(t: Text, row: Row) returns (r: Read<Truth>)
    ensures r == t.ReadTruth(row)
  {
    hide Text.Structured, Text.LegacyTruth, Text.StructuredTruth;
    var structured := FindOperations(t, row);
    if structured.None? {
      r := t.LegacyTruth(row);
    } else {
      r := t.StructuredTruth(row, structured.value);
    }
  }

  method ReadExampleId(t: Text, row: Row, n: nat) returns (id: string)
    ensures id == t.ReadId(row, n)
  {
    hide Text.First;
    id := FirstValue(t, row, [RowId, ExampleId, Id, CsvLine]);
    if id == "" {
      id := t.rowName(n);
    }
  }

  method ReadMetadata(row: Row) returns (metadata: Row)
    ensures metadata == MetadataOf(row)
  {
    metadata := row - {Metadata};
    if Metadata in row && row[Metadata].Obj? {
      metadata := metadata + row[Metadata].fields;
    }
  }

  method ExampleFromMapping(t: Text, row: Row, n: nat) returns (r: Read<Example>)
    ensures r == t.FromMapping(row, n)
  {
    hide Text.Canonical, Text.First, Text.ReadTruth, Text.ReadId, Text.ReadContradiction,
      Text.Override, MetadataOf, Text.Excluded;
    var truth := ReadExpectation(t, row);
    if truth.Bad? {
      return Bad(truth.error);
    }
    var scorable, operationScorable, exclusion := ReadStatus(t, row, truth.value);
    var first := ReadFlag(t, row, Scorable, scorable);
    if first.Bad? {
      return Bad(first.error);
    }
    scorable := first.value;
    var second := ReadFlag(t, row, OperationScorable, operationScorable);
    if second.Bad? {
      return Bad(second.error);
    }
    operationScorable := second.value;
    var serialized := t.Canonical(Cell(row, ExclusionReason));
    if serialized != "" {
      exclusion := Some(serialized);
    }
    var id := ReadExampleId(t, row, n);
    var contradiction := FindContradiction(t, row);
    if contradiction.Bad? {
      return Bad(contradiction.error);
    }
    var subject := FirstValue(t, row, [Objet, Subject]);
    var body := FirstValue(t, row, [Corps, BodyText, EmailBody]);
    var metadata := ReadMetadata(row);
    return Good(Example(id, subject, body, truth.value.operations, truth.value.outcome, contradiction.value,
                        scorable, operationScorable, exclusion, metadata));
  }

  // ---------------------------------------------------------------------------
  // A whole data set
  // ---------------------------------------------------------------------------

  datatype Loaded = Rejected(error: Error) | Duplicated(ids: set<string>) | Examples(examples: seq<Example>)

  function ReadRows(t: Text, rows: seq<Row>, n: nat): (r: Read<seq<Example>>)
    ensures r.Good? ==> |r.value| == |rows|
  {
    if rows == [] then Good([])
    else
      var e :- t.FromMapping(rows[0], n);
      var rest :- ReadRows(t, rows[1..], n + 1);
      Good([e] + rest)
  }

  /** The ids that two examples share. */
  function Repeated(examples: seq<Example>): set<string> {
    set i, j | 0 <= i < j < |examples| && examples[i].id == examples[j].id :: examples[j].id
  }

  function Load(t: Text, rows: seq<Row>): Loaded {
    match ReadRows(t, rows, 1)
    case Bad(error) => Rejected(error)
    case Good(examples) => if Repeated(examples) == {} then Examples(examples) else Duplicated(Repeated(examples))
  }

  method LoadRows(t: Text, rows: seq<Row>) returns (r: Loaded)
    ensures r == Load(t, rows)
  {
    hide ReadRows, Repeated;
    var read := ReadEach(t, rows);
    if read.Bad? {
      return Rejected(read.error);
    }
    var duplicates := FindRepeated(read.value);
    if duplicates != {} {
      return Duplicated(duplicates);
    }
    return Examples(read.value);
  }

  method ReadEach(t: Text, rows: seq<Row>) returns (r: Read<seq<Example>>)
    ensures r == ReadRows(t, rows, 1)
  {
    hide Text.FromMapping;
    var examples: seq<Example> := [];
    assert rows[0..] == rows;
    NothingPrefixed(examples, ReadRows(t, rows, 1));
    for k := 0 to |rows|
      invariant ReadRows(t, rows, 1) == Prefixed(examples, ReadRows(t, rows[k..], k + 1))
    {
      var e := ExampleFromMapping(t, rows[k], k + 1);
      if e.Bad? {
        return Bad(e.error);
      }
      assert rows[k..][1..] == rows[k + 1..];
      Regroup(examples, e.value, ReadRows(t, rows[k + 1..], k + 2));
      examples := examples + [e.value];
    }
    assert rows[|rows|..] == [];
    NothingPrefixed(examples, Good([]));
    return Good(examples);
  }

  method FindRepeated(examples: seq<Example>) returns (duplicates: set<string>)
    ensures duplicates == Repeated(examples)
  {
    hide Repeated;
    var seen: set<string> := {};
    duplicates := {};
    NoneRepeated();
    for k := 0 to |examples|
      invariant seen == set i | 0 <= i < k :: examples[i].id
      invariant duplicates == Repeated(examples[..k])
    {
      NextRepeated(examples, k);
      if examples[k].id in seen {
        duplicates := duplicates + {examples[k].id};
      }
      seen := seen + {examples[k].id};
    }
    assert examples[..|examples|] == examples;
  }

  lemma NoneRepeated()
    ensures Repeated([]) == {}
  {
  }

  function Prefixed(done: seq<Example>, rest: Read<seq<Example>>): Read<seq<Example>> {
    if rest.Bad? then rest else Good(done + rest.value)
  }

  lemma NothingPrefixed(done: seq<Example>, rest: Read<seq<Example>>)
    ensures Prefixed([], rest) == rest && Prefixed(done, Good([])) == Good(done)
  {
    assert done + [] == done;
    assert rest.Good? ==> [] + rest.value == rest.value;
  }

  lemma Regroup(done: seq<Example>, e: Example, rest: Read<seq<Example>>)
    ensures Prefixed(done, if rest.Bad? then rest else Good([e] + rest.value)) == Prefixed(done + [e], rest)
  {
    if rest.Good? {
      assert done + ([e] + rest.value) == done + [e] + rest.value;
    }
  }

  lemma NextRepeated(examples: seq<Example>, k: nat)
    requires k < |examples|
    ensures Repeated(examples[..k + 1]) == Repeated(examples[..k]) +
      if exists i :: 0 <= i < k && examples[i].id == examples[k].id then {examples[k].id} else {}
  {
    var before, after := examples[..k], examples[..k + 1];
    assert forall i :: 0 <= i < k ==> after[i] == before[i] == examples[i];
    forall id | id in Repeated(before)
      ensures id in Repeated(after)
    {
      var i, j :| 0 <= i < j < k && before[i].id == before[j].id == id;
      assert after[i].id == after[j].id;
    }
    if i :| 0 <= i < k && examples[i].id == examples[k].id {
      assert after[i].id == after[k].id;
    }
  }

  /** A data set loads exactly when every row reads and no two examples share an id. */
  lemma LoadsWhen(t: Text, rows: seq<Row>)
    ensures Load(t, rows).Examples? <==>
      ReadRows(t, rows, 1).Good? &&
      forall i, j :: 0 <= i < j < |rows| ==> ReadRows(t, rows, 1).value[i].id != ReadRows(t, rows, 1).value[j].id
  {
    hide Text.FromMapping;
    RowsRead(t, rows, 1);
    if ReadRows(t, rows, 1).Good? {
      var examples := ReadRows(t, rows, 1).value;
      if i, j :| 0 <= i < j < |rows| && examples[i].id == examples[j].id {
        assert examples[j].id in Repeated(examples);
      }
    }
  }

  /** An example has the first id that its row gives, or else the name of its number, counting from one. */
  lemma IdsOfRows(t: Text, rows: seq<Row>, i: nat)
    requires i < |rows| && Load(t, rows).Examples?
    ensures var id := t.First(rows[i], [RowId, ExampleId, Id, CsvLine]);
      && |Load(t, rows).examples| == |rows|
      && Load(t, rows).examples[i].id == (if id != "" then id else t.rowName(i + 1))
  {
    hide Text.First, ReadRows, Repeated;
    RowsRead(t, rows, 1);
    IdOf(t, rows[i], 1 + i);
  }

  lemma IdOf(t: Text, row: Row, n: nat)
    requires t.FromMapping(row, n).Good?
    ensures var id := t.First(row, [RowId, ExampleId, Id, CsvLine]);
      t.FromMapping(row, n).value.id == (if id != "" then id else t.rowName(n))
  {
    hide Text.First, Text.ReadTruth, Text.Override, Text.ReadContradiction, Text.Canonical;
  }

  lemma {:induction false} RowsRead(t: Text, rows: seq<Row>, n: nat)
    ensures ReadRows(t, rows, n).Good? <==> forall i :: 0 <= i < |rows| ==> t.FromMapping(rows[i], n + i).Good?
    ensures ReadRows(t, rows, n).Good? ==>
      forall i :: 0 <= i < |rows| ==> t.FromMapping(rows[i], n + i) == Good(ReadRows(t, rows, n).value[i])
  {
    hide Text.FromMapping;
    if rows != [] {
      RowsRead(t, rows[1..], n + 1);
      forall i | 0 <= i < |rows| - 1
        ensures t.FromMapping(rows[1..][i], n + 1 + i) == t.FromMapping(rows[i + 1], n + (i + 1))
      {
      }
      assert forall i :: 0 < i < |rows| ==> rows[i] == rows[1..][i - 1];
    }
  }

  function Written(examples: seq<Example>): (rows: seq<Row>)
    ensures |rows| == |examples| && forall i :: 0 <= i < |rows| ==> rows[i] == AsDict(examples[i])
  {
    if examples == [] then [] else [AsDict(examples[0])] + Written(examples[1..])
  }

  /** A data set that loads can be written out and loaded again, with the same ids in the same order, and
      each example is the same up to its metadata exactly when its row had no lone null part. */
  lemma DatasetReloads(t: Text, rows: seq<Row>)
    requires t.Lawful() && Load(t, rows).Examples?
    ensures var examples := Load(t, rows).examples;
      var again := Load(t, Written(examples));
      && |examples| == |rows| && again.Examples? && |again.examples| == |rows|
      && (forall i :: 0 <= i < |rows| ==> again.examples[i].id == examples[i].id)
      && (forall i :: 0 <= i < |rows| ==>
            (again.examples[i].(metadata := examples[i].metadata) == examples[i] <==> !LoneNullPart(t, rows[i])))
  {
    hide Text.Lawful, Text.FromMapping, AsDict, LoneNullPart, ReadRows, Written, Repeated;
    var examples := Load(t, rows).examples;
    var written := Written(examples);
    RowsRead(t, rows, 1);
    forall i | 0 <= i < |rows|
      ensures t.FromMapping(rows[i], 1 + i) == Good(examples[i])
      ensures t.FromMapping(written[i], 1 + i).Good?
      ensures t.FromMapping(written[i], 1 + i).value.id == examples[i].id
      ensures t.FromMapping(written[i], 1 + i).value.(metadata := examples[i].metadata) == examples[i] <==>
        !LoneNullPart(t, rows[i])
    {
      Reloaded(t, rows[i], 1 + i, 1 + i);
      SecondReloadExact(t, rows[i], 1 + i, 1 + i, 1);
    }
    RowsRead(t, written, 1);
    LoadsWhen(t, rows);
    LoadsWhen(t, written);
  }

  // ---------------------------------------------------------------------------
  // The exception
  // ---------------------------------------------------------------------------

  lemma NanTrimmed()
    ensures Trimmed("nan;") && Trimmed("nan") && Trimmed("")
  {
  }

  lemma SplitStep(c: char, s: string)
    requires c != ';'
    ensures SplitAt([c] + s) == [[c] + SplitAt(s)[0]] + SplitAt(s)[1..]
  {
    assert ([c] + s)[1..] == s;
  }

  lemma NanSplit()
    ensures SplitAt("nan;") == ["nan", ""]
  {
    hide SplitAt;
    SplitSemicolon();
    SplitStep('n', ";");
    SplitStep('a', "n;");
    SplitStep('n', "an;");
    assert ['n'] + ";" == "n;" && ['a'] + "n;" == "an;" && ['n'] + "an;" == "nan;";
    assert ['n'] + "" == "n" && ['a'] + "n" == "an" && ['n'] + "an" == "nan";
    assert SplitAt("n;") == ["n", ""];
    assert SplitAt("an;") == ["an", ""];
  }

  lemma SplitSemicolon()
    ensures SplitAt(";") == ["", ""]
  {
    assert ";"[1..] == "";
  }

  lemma NanNull(t: Text)
    requires t.Lawful()
    ensures t.IsNull("nan") && !t.IsNull("nan;")
  {
    hide Text.Lawful;
    assert "nan" + ";" + "" == "nan;";
    SemicolonNotNull(t, "nan", "");
    assert Lower('n') && Lower('a');
    LowerFolds(t, "nan");
  }

  lemma NanParts(t: Text)
    ensures t.Parts("nan;") == ["nan"]
  {
    hide Trimmed, Strip;
    NanTrimmed();
    StripTrims("nan");
    StripTrims("");
    NanSplit();
    assert ["nan", ""][1..] == [""] && [""][1..] == [];
    assert t.KeepNonEmpty([]) == [];
    assert t.KeepNonEmpty([""]) == [];
  }

  lemma NanCell(t: Text)
    requires t.Lawful()
    ensures t.Canonical(Some(Str("nan;"))) == "nan;" && t.LegacyValues("nan;") == ["nan"] && t.IsNull("nan")
  {
    hide Text.Lawful, Trimmed, Strip, Text.IsNull, Text.Parts;
    NanNull(t);
    NanTrimmed();
    StripTrims("nan;");
    NanParts(t);
    ShowStr(t, "nan;");
  }

  lemma ShowStr(t: Text, s: string)
    requires t.Lawful()
    ensures t.show(Str(s)) == s
  {
  }

  lemma NanHead(t: Text, row: Row)
    requires t.Lawful() && row == map[Label := Str("vpn_access"), PdvCode := Str("nan;")]
    ensures Tag(t, row) == "vpn_access" && "vpn_access" in ACTIONS && t.CanonicalAction("vpn_access") == "vpn_access"
  {
    hide Text.Canonical, Text.Lawful, Stable, Text.CanonicalAction, Text.First;
    var a := "vpn_access";
    assert a == ACTIONS[0];
    ActionStable(t, a);
    ActionLower(a);
    LowerStable(t, a);
    StableReads(t, a);
    FirstColumn(t, row, Label, [ExpectedLabel, GroundTruthLabel]);
    assert [Label] + [ExpectedLabel, GroundTruthLabel] == [Label, ExpectedLabel, GroundTruthLabel];
  }

  lemma NanIds(t: Text, row: Row)
    requires t.Lawful() && row == map[Label := Str("vpn_access"), PdvCode := Str("nan;")]
    ensures t.First(row, PDV_COLUMNS) == "nan;" && t.First(row, PHONE_COLUMNS) == ""
  {
    hide Text.Canonical, Text.Lawful, Text.First;
    NanCell(t);
    FirstColumn(t, row, PdvCode, PDV_COLUMNS[1..]);
    assert [PdvCode] + PDV_COLUMNS[1..] == PDV_COLUMNS;
    NothingThere(t, row, PHONE_COLUMNS);
  }

  lemma NanStructured(t: Text, row: Row)
    requires row == map[Label := Str("vpn_access"), PdvCode := Str("nan;")]
    ensures t.Structured(row, OPERATION_COLUMNS).None?
  {
    NothingStructured(t, row, OPERATION_COLUMNS);
  }

  lemma {:induction false} NothingStructured(t: Text, row: Row, columns: seq<Column>)
    requires forall c :: c in columns ==> c !in row
    ensures t.Structured(row, columns) == None
  {
    if columns != [] {
      assert columns[0] !in row;
      NothingStructured(t, row, columns[1..]);
    }
  }

  lemma EmptyParts(t: Text)
    requires t.Lawful()
    ensures t.LegacyValues("") == []
  {
    hide Text.Lawful, Trimmed, Strip;
    StableReads(t, "");
    NanTrimmed();
    StripTrims("");
    assert SplitAt("") == [""] && [""][1..] == [];
    assert t.KeepNonEmpty([]) == [];
  }

  lemma NanTruth(t: Text, row: Row)
    requires t.Lawful() && row == map[Label := Str("vpn_access"), PdvCode := Str("nan;")]
    ensures LoneNullPart(t, row)
    ensures t.ReadTruth(row) == Good(Truth([Operation("vpn_access", Some("nan"), None, map[])], None, true, true, None))
  {
    hide Text.Lawful, Text.First, Text.Structured, Text.LegacyValues, Text.CanonicalAction, Text.IsNull;
    NanStructured(t, row);
    NanHead(t, row);
    NanIds(t, row);
    NanCell(t);
    EmptyParts(t);
    assert t.LegacyTruth(row) ==
      Good(Truth([Operation("vpn_access", Some("nan"), None, map[])], None, true, true, None));
  }

  lemma NanFlags(t: Text, row: Row, u: Truth)
    requires t.Lawful() && row == map[Label := Str("vpn_access"), PdvCode := Str("nan;")]
    ensures t.Excluded(row, u) == u && t.Override(row, Scorable, true) == Good(true)
    ensures t.Override(row, OperationScorable, true) == Good(true)
    ensures t.ReadContradiction(row, [ExpectedContradiction, ContradictionPresent, HasContradiction]) == Good(None)
  {
    hide Text.Canonical, Text.Lawful, Text.ReadContradiction, Text.ReadBool;
    FoldEmpty(t);
    Absent(t, row, EvaluationStatus);
    Absent(t, row, Scorable);
    Absent(t, row, OperationScorable);
    Absent(t, row, ExpectedContradiction);
    Absent(t, row, ContradictionPresent);
    Absent(t, row, HasContradiction);
    NoContradiction(t, row);
    assert |"excluded"| == 8;
  }

  /** The exception is real: a cell `nan;` gives the identifier "nan", which the next load drops. */
  lemma NanIsDropped(t: Text, n: nat, m: nat)
    requires t.Lawful()
    ensures var row: Row := map[Label := Str("vpn_access"), PdvCode := Str("nan;")];
      t.FromMapping(row, n).Good? &&
      var e := t.FromMapping(row, n).value;
      && e.operations == [Operation("vpn_access", Some("nan"), None, map[])]
      && t.FromMapping(AsDict(e), m).Good?
      && t.FromMapping(AsDict(e), m).value.operations == [Operation("vpn_access", None, None, map[])]
  {
    hide Text.Lawful, Text.First, Text.ReadTruth, Text.Excluded, Text.Override, Text.ReadContradiction, Text.ReadId,
      Text.Canonical, LoneNullPart, AsDict, Regular, RereadAll, Stable;
    var row: Row := map[Label := Str("vpn_access"), PdvCode := Str("nan;")];
    NanTruth(t, row);
    NanFlags(t, row, t.ReadTruth(row).value);
    var e := t.FromMapping(row, n).value;
    ReadRegular(t, row, n);
    WrittenReread(t, e, m);
    NanReread(t);
    assert RereadAll(t, e.operations)[0] == RereadOperation(t, e.operations[0]);
  }

  lemma NanReread(t: Text)
    requires t.Lawful()
    ensures Reread(t, Some("nan")) == None && Reread(t, None) == None
  {
    hide Text.Lawful, Trimmed, Text.Canonical;
    NanCell(t);
    NanTrimmed();
    StableReads(t, "nan");
    NullCell(t);
  }
}
