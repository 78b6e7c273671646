/** Writing an example out and reading it in again. */
module DatasetRoundTrip {
  import opened Wrappers
  import opened Whitespace
  import opened DatasetLoader

  // ---------------------------------------------------------------------------
  // Scalars that survive
  // ---------------------------------------------------------------------------

  /** A text that reading leaves as it is. */
  ghost predicate Stable(t: Text, s: string) {
    s != "" && Trimmed(s) && !t.IsNull(s)
  }

  lemma StableReads(t: Text, s: string)
    requires t.Lawful()
    ensures Stable(t, s) ==> t.Canonical(Some(Str(s))) == s
    ensures s != "" && Trimmed(s) && t.IsNull(s) ==> t.Canonical(Some(Str(s))) == ""
    ensures t.Canonical(Some(Str(""))) == ""
  {
    hide Trimmed;
    StripTrims(s);
    StripTrims("");
  }

  lemma CanonicalStable(t: Text, v: Option<Value>)
    requires t.Lawful()
    ensures t.Canonical(v) == "" || Stable(t, t.Canonical(v))
  {
    hide Trimmed;
    if v.Some? && !v.value.Null? {
      StripTrims(t.show(v.value));
    }
  }

  lemma {:induction false} FirstStable(t: Text, row: Row, columns: seq<Column>)
    requires t.Lawful()
    ensures t.First(row, columns) == "" || Stable(t, t.First(row, columns))
  {
    hide Stable;
    if columns != [] {
      CanonicalStable(t, Cell(row, columns[0]));
      FirstStable(t, row, columns[1..]);
    }
  }

  lemma LowerFolds(t: Text, s: string)
    requires t.Lawful() && forall i :: 0 <= i < |s| ==> Lower(s[i])
    ensures t.fold(s) == s
  {
  }

  lemma LongNotNull(s: string)
    requires |s| > 4
    ensures s !in NULL_TOKENS
  {
  }

  lemma LowerTrimmed(s: string)
    requires forall i :: 0 <= i < |s| ==> Lower(s[i])
    ensures Trimmed(s)
  {
    if s != "" {
      assert Lower(s[0]) && Lower(s[|s| - 1]);
    }
  }

  lemma LowerStable(t: Text, s: string)
    requires t.Lawful() && |s| > 4 && forall i :: 0 <= i < |s| ==> Lower(s[i])
    ensures t.fold(s) == s && Stable(t, s)
  {
    hide Text.Lawful, Lower, Trimmed;
    LowerFolds(t, s);
    LowerTrimmed(s);
    LongNotNull(s);
  }

  ghost predicate AllLower(s: string) {
    forall i :: 0 <= i < |s| ==> Lower(s[i])
  }

  const ATTRIBUTION := "_no_operation_attribution"

  lemma MultipleRowReads()
    ensures MULTIPLE_ROW == "legacy_multiple_row_has" + ATTRIBUTION
  {
  }

  lemma MultiValueReads()
    ensures MULTI_VALUE == "legacy_multi_value_fields_have" + ATTRIBUTION
  {
  }

  lemma ReasonsLower()
    ensures AllLower("legacy_multiple_row_has") && AllLower("legacy_multi_value_fields_have")
    ensures AllLower(ATTRIBUTION) && |ATTRIBUTION| > 4
  {
  }

  lemma ReasonStable(t: Text, a: string, b: string)
    requires t.Lawful() && AllLower(a) && AllLower(b) && |b| > 4
    ensures Stable(t, a + b)
  {
    hide Stable, Text.Lawful, Lower;
    LowerStable(t, a + b);
  }

  lemma ReasonsStable(t: Text)
    requires t.Lawful()
    ensures Stable(t, MULTIPLE_ROW) && Stable(t, MULTI_VALUE)
  {
    hide Stable, Text.Lawful, AllLower, ATTRIBUTION, MULTIPLE_ROW, MULTI_VALUE;
    ReasonsLower();
    MultipleRowReads();
    MultiValueReads();
    ReasonStable(t, "legacy_multiple_row_has", ATTRIBUTION);
    ReasonStable(t, "legacy_multi_value_fields_have", ATTRIBUTION);
  }

  lemma OutcomeStable(t: Text, o: string)
    requires t.Lawful() && o in ["irrelevant", "ambiguous", "unknown"]
    ensures t.fold(o) == o && Stable(t, o)
  {
    hide Stable, Text.Lawful;
    if o == "irrelevant" {
      LowerStable(t, "irrelevant");
    } else if o == "ambiguous" {
      LowerStable(t, "ambiguous");
    } else {
      LowerStable(t, "unknown");
    }
  }

  lemma ActionLower(a: string)
    requires a in ACTIONS
    ensures |a| >= 7 && forall i :: 0 <= i < |a| ==> Lower(a[i])
  {
  }

  lemma ActionStable(t: Text, a: string)
    requires t.Lawful() && a in ACTIONS
    ensures Stable(t, a) && t.CanonicalAction(a) == a && a != ""
  {
    hide Stable, Text.Lawful, Text.ActionName, Text.Canonical;
    ActionLower(a);
    LowerStable(t, a);
    StableReads(t, a);
    ActionFixed(t, a);
  }

  lemma ActionFixed(t: Text, a: string)
    requires a in ACTIONS && |a| >= 7 && t.fold(a) == a && Stable(t, a)
    ensures t.ActionName(a) == a
  {
    hide Trimmed, Text.IsNull;
    StripTrims(a);
  }

  lemma ActionsClosed(t: Text, s: string)
    ensures t.CanonicalAction(s) in ACTIONS
  {
  }

  // ---------------------------------------------------------------------------
  // Reading one operation back
  // ---------------------------------------------------------------------------

  /** An identifier that survives: absent, or stable. */
  ghost predicate Survives(t: Text, s: Option<string>) {
    s.None? || Stable(t, s.value)
  }

  /** What reading makes of a written identifier. */
  function Reread(t: Text, s: Option<string>): Option<string> {
    NonEmpty(t.Canonical(Some(OptStr(s))))
  }

  lemma RereadSurvives(t: Text, s: Option<string>)
    requires t.Lawful() && (s.Some? ==> s.value != "" && Trimmed(s.value))
    ensures Reread(t, s) == s <==> Survives(t, s)
  {
    hide Trimmed;
    if s.Some? {
      StableReads(t, s.value);
    }
  }

  lemma WrittenOperation(op: Operation)
    ensures var row := OperationAsDict(op).fields;
      && Cell(row, Action) == Some(Str(op.action)) && Cell(row, PdvCode) == Some(OptStr(op.pdvCode))
      && Cell(row, Phone) == Some(OptStr(op.phone)) && Cell(row, AdditionalFields) == Some(Obj(op.additional))
      && CodePosPdvNumber !in row && CodePosNumber !in row && PosCode !in row
      && NewPhone !in row && CodeOtpNumber !in row && OtpPhone !in row && Fields !in row
  {
  }

  lemma ActionCell(t: Text, row: Row, a: string)
    requires t.Lawful() && a in ACTIONS && Cell(row, Action) == Some(Str(a))
    ensures t.First(row, [Action, OperationType, PredictedLabel, Label, Type]) == a
  {
    hide Stable, Text.CanonicalAction, Text.Lawful, Text.Canonical, ACTIONS;
    ActionStable(t, a);
    StableReads(t, a);
  }

  lemma OperationCells(t: Text, op: Operation)
    requires t.Lawful() && op.action in ACTIONS
    ensures var row := OperationAsDict(op).fields;
      && t.First(row, [Action, OperationType, PredictedLabel, Label, Type]) == op.action
      && NonEmpty(t.First(row, PDV_COLUMNS)) == Reread(t, op.pdvCode)
      && NonEmpty(t.First(row, PHONE_COLUMNS)) == Reread(t, op.phone)
  {
    hide Text.Lawful, Text.First, Text.Canonical;
    var row := OperationAsDict(op).fields;
    WrittenOperation(op);
    ActionCell(t, row, op.action);
    PdvCell(t, row, OptStr(op.pdvCode));
    PhoneCell(t, row, OptStr(op.phone));
  }

  lemma PdvCell(t: Text, row: Row, v: Value)
    requires Cell(row, PdvCode) == Some(v)
    requires CodePosPdvNumber !in row && CodePosNumber !in row && PosCode !in row
    ensures t.First(row, PDV_COLUMNS) == t.Canonical(Some(v))
  {
    hide Text.Canonical;
    NothingThere(t, row, PDV_COLUMNS[1..]);
  }

  lemma PhoneCell(t: Text, row: Row, v: Value)
    requires Cell(row, Phone) == Some(v)
    requires NewPhone !in row && CodeOtpNumber !in row && OtpPhone !in row
    ensures t.First(row, PHONE_COLUMNS) == t.Canonical(Some(v))
  {
    NothingThere(t, row, PHONE_COLUMNS[1..][1..]);
    assert t.Canonical(Cell(row, NewPhone)) == "";
    assert t.First(row, PHONE_COLUMNS) == t.First(row, PHONE_COLUMNS[1..]);
    assert PHONE_COLUMNS[1..][0] == Phone;
  }

  lemma {:induction false} NothingThere(t: Text, row: Row, columns: seq<Column>)
    requires forall c :: c in columns ==> c !in row
    ensures t.First(row, columns) == ""
  {
    if columns != [] {
      assert columns[0] !in row;
      NothingThere(t, row, columns[1..]);
    }
  }

  /** A written operation is read back with each identifier reread on its own. */
  lemma CoerceWritten(t: Text, op: Operation)
    requires t.Lawful() && op.action in ACTIONS
    ensures t.Coerce(OperationAsDict(op)) ==
      Good(op.(pdvCode := Reread(t, op.pdvCode), phone := Reread(t, op.phone)))
  {
    hide Text.First, Text.CanonicalAction, Reread, Text.Lawful, Stable;
    WrittenOperation(op);
    OperationCells(t, op);
    ActionStable(t, op.action);
    EmptyFirst(t, PDV_COLUMNS);
    EmptyFirst(t, PHONE_COLUMNS);
  }

  lemma EmptyFirst(t: Text, columns: seq<Column>)
    ensures t.First(map[], columns) == ""
  {
    NothingThere(t, map[], columns);
  }

  function RereadOperation(t: Text, op: Operation): Operation {
    op.(pdvCode := Reread(t, op.pdvCode), phone := Reread(t, op.phone))
  }

  function RereadAll(t: Text, ops: seq<Operation>): (r: seq<Operation>)
    ensures |r| == |ops| && forall i :: 0 <= i < |ops| ==> r[i] == RereadOperation(t, ops[i])
  {
    if ops == [] then [] else [RereadOperation(t, ops[0])] + RereadAll(t, ops[1..])
  }

  lemma {:induction false} CoerceAllWritten(t: Text, ops: seq<Operation>)
    requires t.Lawful() && forall i :: 0 <= i < |ops| ==> ops[i].action in ACTIONS
    ensures t.CoerceAll(OperationsAsList(ops)) == Good(RereadAll(t, ops))
  {
    hide Text.Coerce, Reread, Text.Lawful, ACTIONS, OperationAsDict;
    if ops != [] {
      CoerceWritten(t, ops[0]);
      CoerceAllWritten(t, ops[1..]);
      var list := OperationsAsList(ops);
      assert list[0] == OperationAsDict(ops[0]) && list[1..] == OperationsAsList(ops[1..]);
    }
  }

  // ---------------------------------------------------------------------------
  // Reading a whole example back
  // ---------------------------------------------------------------------------

  /** What every example read from a row is like, apart from its identifiers. */
  ghost predicate Regular(t: Text, e: Example) {
    && Stable(t, e.id)
    && (e.subject == "" || Stable(t, e.subject)) && (e.body == "" || Stable(t, e.body))
    && (e.outcome.Some? ==> e.outcome.value in ["irrelevant", "ambiguous", "unknown"])
    && (e.exclusion.Some? ==> Stable(t, e.exclusion.value))
    && (forall i :: 0 <= i < |e.operations| ==> e.operations[i].action in ACTIONS)
  }

  lemma TextCell(t: Text, s: string)
    requires t.Lawful() && (s == "" || Stable(t, s))
    ensures t.Canonical(Some(Str(s))) == s
  {
    StableReads(t, s);
  }

  lemma WrittenCells(e: Example)
    ensures var row := AsDict(e);
      && Cell(row, ExampleId) == Some(Str(e.id)) && Cell(row, Subject) == Some(Str(e.subject))
      && Cell(row, BodyText) == Some(Str(e.body))
      && Cell(row, ExpectedOperations) == Some(List(OperationsAsList(e.operations)))
      && Cell(row, ExpectedOutcome) == Some(OptStr(e.outcome))
  {
    hide OperationsAsList, OptStr, OptBool;
  }

  lemma WrittenFlags(e: Example)
    ensures var row := AsDict(e);
      && Cell(row, ExpectedContradiction) == Some(OptBool(e.contradiction))
      && Cell(row, Scorable) == Some(Bool(e.scorable))
      && Cell(row, OperationScorable) == Some(Bool(e.operationScorable))
      && Cell(row, ExclusionReason) == Some(OptStr(e.exclusion))
  {
    hide OperationsAsList, OptStr, OptBool;
  }

  lemma UnwrittenColumns(e: Example)
    ensures var row := AsDict(e);
      && RowId !in row && Objet !in row && Corps !in row && EmailBody !in row && AnalysisOutcome !in row
      && EvaluationStatus !in row && ContradictionPresent !in row && HasContradiction !in row
  {
    hide OperationsAsList, OptStr, OptBool;
  }

  lemma WrittenExample(e: Example)
    ensures var row := AsDict(e);
      && Cell(row, ExampleId) == Some(Str(e.id)) && Cell(row, Subject) == Some(Str(e.subject))
      && Cell(row, BodyText) == Some(Str(e.body))
      && Cell(row, ExpectedOperations) == Some(List(OperationsAsList(e.operations)))
      && Cell(row, ExpectedOutcome) == Some(OptStr(e.outcome))
      && Cell(row, ExpectedContradiction) == Some(OptBool(e.contradiction))
      && Cell(row, Scorable) == Some(Bool(e.scorable))
      && Cell(row, OperationScorable) == Some(Bool(e.operationScorable))
      && Cell(row, ExclusionReason) == Some(OptStr(e.exclusion))
      && RowId !in row && Objet !in row && Corps !in row && EmailBody !in row && AnalysisOutcome !in row
      && EvaluationStatus !in row && ContradictionPresent !in row && HasContradiction !in row
  {
    hide AsDict, Cell;
    WrittenCells(e);
    WrittenFlags(e);
    UnwrittenColumns(e);
  }

  lemma OnlyColumn(t: Text, row: Row, a: Column)
    ensures t.First(row, [a]) == t.Canonical(Cell(row, a))
  {
    hide Text.Canonical;
    assert [a][1..] == [];
  }

  lemma HeadCells(t: Text, e: Example, n: nat)
    requires t.Lawful() && Regular(t, e)
    ensures var row := AsDict(e);
      t.ReadId(row, n) == e.id && t.First(row, [Objet, Subject]) == e.subject &&
      t.First(row, [Corps, BodyText, EmailBody]) == e.body
  {
    hide Text.Canonical, Stable, Text.Lawful, AsDict, Text.First;
    var row := AsDict(e);
    WrittenExample(e);
    TextCell(t, e.id);
    TextCell(t, e.subject);
    TextCell(t, e.body);
    Absent(t, row, RowId);
    Absent(t, row, Objet);
    Absent(t, row, Corps);
    Absent(t, row, EmailBody);
    StableNonEmpty(t, e.id);
    SecondColumn(t, row, RowId, ExampleId, [Id, CsvLine]);
    SecondColumn(t, row, Objet, Subject, []);
    SecondColumn(t, row, Corps, BodyText, [EmailBody]);
    OnlyColumn(t, row, EmailBody);
    NothingThere(t, row, []);
    assert [RowId, ExampleId] + [Id, CsvLine] == [RowId, ExampleId, Id, CsvLine];
    assert [Objet, Subject] + [] == [Objet, Subject];
    assert [Corps, BodyText] + [EmailBody] == [Corps, BodyText, EmailBody];
  }

  lemma StableNonEmpty(t: Text, s: string)
    requires Stable(t, s)
    ensures s != ""
  {
  }

  lemma Absent(t: Text, row: Row, c: Column)
    requires c !in row
    ensures t.Canonical(Cell(row, c)) == ""
  {
  }

  lemma SecondColumn(t: Text, row: Row, a: Column, b: Column, rest: seq<Column>)
    requires t.Canonical(Cell(row, a)) == ""
    ensures t.First(row, [a, b] + rest) ==
      if t.Canonical(Cell(row, b)) != "" then t.Canonical(Cell(row, b)) else t.First(row, rest)
  {
    hide Text.Canonical;
    assert ([a, b] + rest)[1..] == [b] + rest;
    assert ([b] + rest)[1..] == rest;
  }

  lemma BoolStable(t: Text)
    requires t.Lawful()
    ensures Stable(t, "True") && Stable(t, "False")
  {
    hide Text.Lawful;
    BoolFolds(t);
  }

  lemma BoolShown(t: Text, b: bool)
    requires t.Lawful()
    ensures t.show(Bool(b)) == (if b then "True" else "False")
  {
  }

  lemma BoolText(t: Text, b: bool)
    requires t.Lawful()
    ensures t.Canonical(Some(Bool(b))) == (if b then "True" else "False")
  {
    hide Text.Lawful, Trimmed, Text.IsNull;
    BoolShown(t, b);
    BoolStable(t);
    StripTrims(if b then "True" else "False");
  }

  lemma BoolCell(t: Text, row: Row, c: Column, b: bool, flag: bool)
    requires t.Lawful() && Cell(row, c) == Some(Bool(b))
    ensures t.Canonical(Cell(row, c)) != "" && t.ReadBool(Bool(b)) == Good(Some(b)) &&
      t.Override(row, c, flag) == Good(b)
  {
    hide Text.Canonical, Text.Lawful;
    BoolText(t, b);
    BoolFolds(t);
  }

  lemma BoolFolds(t: Text)
    requires t.Lawful()
    ensures t.fold("True") == "true" && t.fold("False") == "false"
  {
  }

  lemma FlagCells(t: Text, e: Example, a: bool, b: bool)
    requires t.Lawful()
    ensures var row := AsDict(e);
      && t.Override(row, Scorable, a) == Good(e.scorable)
      && t.Override(row, OperationScorable, b) == Good(e.operationScorable)
      && t.ReadContradiction(row, [ExpectedContradiction, ContradictionPresent, HasContradiction]) ==
         Good(e.contradiction)
  {
    hide Text.Canonical, Text.ReadBool, Text.Override, Text.Lawful, AsDict;
    var row := AsDict(e);
    WrittenExample(e);
    BoolCell(t, row, Scorable, e.scorable, a);
    BoolCell(t, row, OperationScorable, e.operationScorable, b);
    if e.contradiction.Some? {
      BoolCell(t, row, ExpectedContradiction, e.contradiction.value, false);
    } else {
      NullCell(t);
      Absent(t, row, ContradictionPresent);
      Absent(t, row, HasContradiction);
      NoContradiction(t, row);
    }
  }

  lemma NoContradiction(t: Text, row: Row)
    requires t.Canonical(Cell(row, ExpectedContradiction)) == ""
    requires t.Canonical(Cell(row, ContradictionPresent)) == "" && t.Canonical(Cell(row, HasContradiction)) == ""
    ensures t.ReadContradiction(row, [ExpectedContradiction, ContradictionPresent, HasContradiction]) == Good(None)
  {
    hide Text.Canonical;
    NextColumn(t, row, HasContradiction, []);
    NextColumn(t, row, ContradictionPresent, [HasContradiction]);
    NextColumn(t, row, ExpectedContradiction, [ContradictionPresent, HasContradiction]);
    assert [HasContradiction] + [] == [HasContradiction];
    assert [ContradictionPresent] + [HasContradiction] == [ContradictionPresent, HasContradiction];
    assert [ExpectedContradiction] + [ContradictionPresent, HasContradiction]
        == [ExpectedContradiction, ContradictionPresent, HasContradiction];
  }

  lemma NextColumn(t: Text, row: Row, c: Column, rest: seq<Column>)
    requires t.Canonical(Cell(row, c)) == ""
    ensures t.ReadContradiction(row, [c] + rest) == t.ReadContradiction(row, rest)
  {
    hide Text.Canonical;
    assert ([c] + rest)[1..] == rest;
  }

  lemma NullCell(t: Text)
    ensures t.Canonical(Some(Null)) == ""
  {
  }

  lemma OutcomeCell(t: Text, e: Example)
    requires t.Lawful() && Regular(t, e)
    ensures t.fold(t.First(AsDict(e), [ExpectedOutcome, AnalysisOutcome])) ==
      if e.outcome.Some? then e.outcome.value else ""
  {
    hide Text.Canonical, Stable, Text.Lawful, AsDict, Text.First;
    var row := AsDict(e);
    WrittenExample(e);
    Absent(t, row, AnalysisOutcome);
    NullCell(t);
    FoldEmpty(t);
    FirstColumn(t, row, ExpectedOutcome, [AnalysisOutcome]);
    OnlyColumn(t, row, AnalysisOutcome);
    assert [ExpectedOutcome] + [AnalysisOutcome] == [ExpectedOutcome, AnalysisOutcome];
    if e.outcome.Some? {
      OutcomeStable(t, e.outcome.value);
      TextCell(t, e.outcome.value);
      StableNonEmpty(t, e.outcome.value);
    }
  }

  lemma FirstColumn(t: Text, row: Row, a: Column, rest: seq<Column>)
    ensures t.First(row, [a] + rest) ==
      if t.Canonical(Cell(row, a)) != "" then t.Canonical(Cell(row, a)) else t.First(row, rest)
  {
    hide Text.Canonical;
    assert ([a] + rest)[1..] == rest;
  }

  lemma FoldEmpty(t: Text)
    requires t.Lawful()
    ensures t.fold("") == ""
  {
    LowerFolds(t, "");
  }

  lemma StructuredCell(t: Text, row: Row, list: Value)
    requires Cell(row, ExpectedOperations) == Some(list) && list.List?
    ensures t.Structured(row, OPERATION_COLUMNS) == Some(list)
  {
  }

  lemma OutcomeAccepted(o: Option<string>)
    requires o.Some? ==> o.value in ["irrelevant", "ambiguous", "unknown"]
    ensures var s := if o.Some? then o.value else "";
      s != "automated" && s in ["", "irrelevant", "ambiguous", "unknown"] && NonEmpty(s) == o
  {
  }

  lemma TruthReread(t: Text, e: Example)
    requires t.Lawful() && Regular(t, e)
    ensures t.ReadTruth(AsDict(e)) == Good(Truth(RereadAll(t, e.operations), e.outcome, true, true, None))
  {
    hide Text.First, Text.CoerceAll, Stable, RereadAll, Text.Lawful, AsDict, Text.Structured, Text.LegacyTruth;
    var row := AsDict(e);
    WrittenExample(e);
    var list := List(OperationsAsList(e.operations));
    StructuredCell(t, row, list);
    CoerceAllWritten(t, e.operations);
    OutcomeCell(t, e);
    OutcomeAccepted(e.outcome);
    assert t.ParseOperations(list) == Good(RereadAll(t, e.operations));
  }

  lemma StatusCell(t: Text, e: Example, u: Truth)
    requires t.Lawful()
    ensures t.Excluded(AsDict(e), u) == u
  {
    hide Text.Canonical, Text.Lawful, AsDict;
    FoldEmpty(t);
    WrittenExample(e);
    Absent(t, AsDict(e), EvaluationStatus);
    assert |"excluded"| == 8;
  }

  /** Reading a written example gives it back with its identifiers reread, metadata aside. */
  lemma WrittenReread(t: Text, e: Example, n: nat)
    requires t.Lawful() && Regular(t, e)
    ensures var r := t.FromMapping(AsDict(e), n);
      r.Good? && r.value.(metadata := e.metadata) == e.(operations := RereadAll(t, e.operations))
  {
    hide Text.First, Text.ReadTruth, Text.Override, Text.ReadContradiction, Text.ReadId, Text.Excluded, Text.Canonical,
      Stable, RereadAll, Text.Lawful;
    var row := AsDict(e);
    WrittenExample(e);
    TruthReread(t, e);
    var u := Truth(RereadAll(t, e.operations), e.outcome, true, true, None);
    StatusCell(t, e, u);
    FlagCells(t, e, true, true);
    HeadCells(t, e, n);
    NullCell(t);
    assert Cell(row, ExclusionReason) == Some(OptStr(e.exclusion));
    if e.exclusion.Some? {
      TextCell(t, e.exclusion.value);
      StableNonEmpty(t, e.exclusion.value);
    }
  }
}
