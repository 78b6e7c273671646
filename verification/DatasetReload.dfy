/** Which examples come back unchanged when they are written out and loaded again. */
module DatasetReload {
  import opened Wrappers
  import opened Whitespace
  import opened DatasetLoader
  import opened DatasetRoundTrip

  // ---------------------------------------------------------------------------
  // Identifiers of legacy rows
  // ---------------------------------------------------------------------------

  ghost predicate Clean(parts: seq<string>) {
    forall i :: 0 <= i < |parts| ==> parts[i] != "" && Trimmed(parts[i])
  }

  lemma {:induction false} KeepClean(t: Text, parts: seq<string>)
    ensures Clean(t.KeepNonEmpty(parts))
  {
    hide Trimmed;
    if parts != [] {
      StripTrims(parts[0]);
      KeepClean(t, parts[1..]);
    }
  }

  lemma {:induction false} JoinClean(parts: seq<string>)
    requires Clean(parts) && parts != []
    ensures Join(parts) != "" && Trimmed(Join(parts))
  {
    hide IsSpace;
    if |parts| > 1 {
      JoinClean(parts[1..]);
      var rest := Join(parts[1..]);
      assert Join(parts) == parts[0] + ";" + rest;
      assert Join(parts)[0] == parts[0][0];
      assert Join(parts)[|Join(parts)| - 1] == rest[|rest| - 1];
    }
  }

  lemma FoldSemicolon(t: Text, s: string)
    requires t.Lawful() && ';' in s
    ensures ';' in t.fold(s)
  {
    hide IsSpace, NULL_TOKENS, Lower, Trimmed;
  }

  lemma TokensPlain(s: string)
    requires ';' in s
    ensures s !in NULL_TOKENS
  {
    assert forall i :: 0 <= i < 3 ==> "nan"[i] != ';';
    assert forall i :: 0 <= i < 4 ==> "none"[i] != ';' && "null"[i] != ';';
  }

  lemma SemicolonNotNull(t: Text, a: string, b: string)
    requires t.Lawful()
    ensures !t.IsNull(a + ";" + b)
  {
    hide Text.Lawful, NULL_TOKENS;
    var s := a + ";" + b;
    assert s[|a|] == ';';
    FoldSemicolon(t, s);
    TokensPlain(t.fold(s));
  }

  /** An identifier put together from legacy parts survives unless it is one part that reads as null. */
  lemma {:induction false} PartsSurvive(t: Text, parts: seq<string>)
    requires t.Lawful() && Clean(parts)
    ensures Survives(t, NonEmpty(Join(parts))) <==> !(|parts| == 1 && t.IsNull(parts[0]))
    ensures NonEmpty(Join(parts)).Some? ==> Trimmed(Join(parts))
    ensures |parts| <= 1 ==> FirstOf(parts) == NonEmpty(Join(parts))
  {
    hide Trimmed, Text.Lawful, Text.IsNull;
    if parts != [] {
      JoinClean(parts);
      if |parts| > 1 {
        SemicolonNotNull(t, parts[0], Join(parts[1..]));
      }
    }
  }

  // ---------------------------------------------------------------------------
  // What reading a row guarantees
  // ---------------------------------------------------------------------------

  /** An identifier as it is read: absent, or a trimmed text. */
  ghost predicate Tidy(s: Option<string>) {
    s.Some? ==> s.value != "" && Trimmed(s.value)
  }

  ghost predicate TidyOperation(op: Operation) {
    op.action in ACTIONS && Tidy(op.pdvCode) && Tidy(op.phone)
  }

  ghost predicate Kept(t: Text, op: Operation) {
    Survives(t, op.pdvCode) && Survives(t, op.phone)
  }

  ghost predicate Sound(t: Text, u: Truth) {
    && (u.outcome.Some? ==> u.outcome.value in ["irrelevant", "ambiguous", "unknown"])
    && (u.exclusion.Some? ==> Stable(t, u.exclusion.value))
    && (forall i :: 0 <= i < |u.operations| ==> TidyOperation(u.operations[i]))
  }

  lemma StableTidy(t: Text, s: string)
    requires s == "" || Stable(t, s)
    ensures Tidy(NonEmpty(s)) && Survives(t, NonEmpty(s))
  {
  }

  lemma CoerceTidy(t: Text, v: Value)
    requires t.Lawful() && t.Coerce(v).Good?
    ensures TidyOperation(t.Coerce(v).value) && Kept(t, t.Coerce(v).value)
  {
    hide Text.First, Text.CanonicalAction, Text.Lawful, Stable, Tidy, Survives, ACTIONS;
    var row := v.fields;
    var nested: Row := if Fields in row && row[Fields].Obj? then row[Fields].fields else map[];
    FirstStable(t, row, PDV_COLUMNS);
    FirstStable(t, nested, PDV_COLUMNS);
    FirstStable(t, row, PHONE_COLUMNS);
    FirstStable(t, nested, PHONE_COLUMNS);
    StableTidy(t, OrElse(t.First(row, PDV_COLUMNS), t.First(nested, PDV_COLUMNS)));
    StableTidy(t, OrElse(t.First(row, PHONE_COLUMNS), t.First(nested, PHONE_COLUMNS)));
    ActionsClosed(t, t.First(row, [Action, OperationType, PredictedLabel, Label, Type]));
  }

  lemma {:induction false} CoerceAllTidy(t: Text, items: seq<Value>)
    requires t.Lawful() && t.CoerceAll(items).Good?
    ensures forall op :: op in t.CoerceAll(items).value ==> TidyOperation(op) && Kept(t, op)
  {
    hide Text.Coerce, Text.Lawful, TidyOperation, Kept;
    if items != [] {
      CoerceTidy(t, items[0]);
      CoerceAllTidy(t, items[1..]);
    }
  }

  lemma StructuredSound(t: Text, row: Row, v: Value)
    requires t.Lawful() && t.StructuredTruth(row, v).Good?
    ensures var u := t.StructuredTruth(row, v).value;
      Sound(t, u) && forall op :: op in u.operations ==> Kept(t, op)
  {
    hide Text.First, Text.Lawful, Text.CoerceAll, TidyOperation, Kept, Stable;
    var parsed := if v.Str? then t.parse(v.s) else Some(v);
    var list := if !parsed.value.Obj? then parsed.value
                else if Operations in parsed.value.fields then parsed.value.fields[Operations]
                else if ExpectedOperations in parsed.value.fields then parsed.value.fields[ExpectedOperations]
                else Null;
    CoerceAllTidy(t, list.items);
  }

  /** The label of a row, folded. */
  function Tag(t: Text, row: Row): string {
    t.fold(t.First(row, [Label, ExpectedLabel, GroundTruthLabel]))
  }

  predicate NamesAction(tag: string) {
    tag !in ["irrelevant", "ambiguous", "unknown", "automated", "multiple"]
  }

  predicate LoneNull(t: Text, parts: seq<string>) {
    |parts| == 1 && t.IsNull(parts[0])
  }

  /** A legacy operation row one of whose identifier cells is a single part reading as null, as `nan;` is. */
  predicate LoneNullPart(t: Text, row: Row) {
    && t.Structured(row, OPERATION_COLUMNS).None?
    && NamesAction(Tag(t, row))
    && (LoneNull(t, t.LegacyValues(t.First(row, PDV_COLUMNS))) ||
        LoneNull(t, t.LegacyValues(t.First(row, PHONE_COLUMNS))))
  }

  lemma PartsOf(t: Text, s: string)
    requires t.Lawful()
    ensures var parts := t.LegacyValues(s);
      && (Survives(t, NonEmpty(Join(parts))) <==> !LoneNull(t, parts)) && Tidy(NonEmpty(Join(parts)))
      && (|parts| <= 1 ==> FirstOf(parts) == NonEmpty(Join(parts)))
  {
    hide Text.Lawful, Survives, Clean, Trimmed, Join;
    KeepClean(t, SplitAt(t.Canonical(Some(Str(s)))));
    PartsSurvive(t, t.LegacyValues(s));
  }

  /** The operation of a legacy row that names an action. */
  function LegacyOperation(t: Text, row: Row): Operation {
    Operation(t.CanonicalAction(Tag(t, row)),
              NonEmpty(Join(t.LegacyValues(t.First(row, PDV_COLUMNS)))),
              NonEmpty(Join(t.LegacyValues(t.First(row, PHONE_COLUMNS)))), map[])
  }

  lemma LegacyOperationKept(t: Text, row: Row)
    requires t.Lawful()
    ensures var op := LegacyOperation(t, row);
      && TidyOperation(op)
      && (Kept(t, op) <==> !LoneNull(t, t.LegacyValues(t.First(row, PDV_COLUMNS)))
                           && !LoneNull(t, t.LegacyValues(t.First(row, PHONE_COLUMNS))))
  {
    hide Text.Lawful, Survives, Tidy, LoneNull, Join, Text.LegacyValues, Text.CanonicalAction, ACTIONS, Tag, Text.First;
    ActionsClosed(t, Tag(t, row));
    PartsOf(t, t.First(row, PDV_COLUMNS));
    PartsOf(t, t.First(row, PHONE_COLUMNS));
  }

  lemma LegacyShape(t: Text, row: Row)
    requires t.Lawful() && t.LegacyTruth(row).Good?
    ensures var u := t.LegacyTruth(row).value;
      && u.operations == (if NamesAction(Tag(t, row)) then [LegacyOperation(t, row)] else [])
      && (u.outcome.Some? ==> u.outcome.value in ["irrelevant", "ambiguous", "unknown"])
      && u.exclusion in [None, Some(MULTIPLE_ROW), Some(MULTI_VALUE)]
  {
    hide Text.Lawful, Join, Text.LegacyValues, Text.CanonicalAction, Text.First, MULTIPLE_ROW, MULTI_VALUE, LoneNull,
      Survives, Tidy;
    PartsOf(t, t.First(row, PDV_COLUMNS));
    PartsOf(t, t.First(row, PHONE_COLUMNS));
  }

  lemma LegacySound(t: Text, row: Row)
    requires t.Lawful() && t.LegacyTruth(row).Good?
    ensures Sound(t, t.LegacyTruth(row).value)
  {
    hide Text.Lawful, Text.LegacyTruth, Stable, MULTIPLE_ROW, MULTI_VALUE, TidyOperation, LegacyOperation, Kept;
    LegacyShape(t, row);
    LegacyOperationKept(t, row);
    ReasonsStable(t);
  }

  /** Among the rows that can be read, exactly the lone null parts lose an identifier. */
  lemma TruthKept(t: Text, row: Row)
    requires t.Lawful() && t.ReadTruth(row).Good?
    ensures Sound(t, t.ReadTruth(row).value)
    ensures (forall op :: op in t.ReadTruth(row).value.operations ==> Kept(t, op)) <==> !LoneNullPart(t, row)
  {
    hide Text.Lawful, Sound, Text.Structured, Text.LegacyTruth, Text.StructuredTruth, Kept, LoneNull, Tag, NamesAction,
      LegacyOperation, Text.First, Text.LegacyValues;
    var v := t.Structured(row, OPERATION_COLUMNS);
    if v.Some? {
      StructuredSound(t, row, v.value);
    } else {
      LegacySound(t, row);
      LegacyShape(t, row);
      LegacyOperationKept(t, row);
      if NamesAction(Tag(t, row)) {
        assert t.LegacyTruth(row).value.operations[0] == LegacyOperation(t, row);
      }
    }
  }

  lemma StatusStable(t: Text, s: string)
    requires t.Lawful() && (s == "" || Stable(t, s)) && "excluded" <= t.fold(s)
    ensures Stable(t, t.fold(s))
  {
    hide Trimmed;
    assert |t.fold(s)| >= |"excluded"| == 8;
    LongNotNull(t.fold(s));
    assert Trimmed(s) by { EmptyTrimmed(); }
  }

  lemma EmptyTrimmed()
    ensures Trimmed("")
  {
  }

  lemma ExcludedSound(t: Text, row: Row, u: Truth)
    requires t.Lawful() && Sound(t, u)
    ensures Sound(t, t.Excluded(row, u)) && t.Excluded(row, u).operations == u.operations
  {
    hide Text.Lawful, Stable, Text.Canonical, TidyOperation;
    var s := t.Canonical(Cell(row, EvaluationStatus));
    CanonicalStable(t, Cell(row, EvaluationStatus));
    if "excluded" <= t.fold(s) {
      StatusStable(t, s);
    }
  }

  lemma IdStable(t: Text, row: Row, n: nat)
    requires t.Lawful()
    ensures Stable(t, t.ReadId(row, n))
  {
    hide Trimmed, Text.First;
    FirstStable(t, row, [RowId, ExampleId, Id, CsvLine]);
    RowNameStable(t, n);
  }

  lemma RowNameStable(t: Text, n: nat)
    requires t.Lawful()
    ensures Stable(t, t.rowName(n))
  {
    hide Trimmed;
    assert "" in NULL_TOKENS;
    LowerFolds(t, "");
  }

  /** Every example read from a row has the regular shape, and its identifiers are trimmed. */
  lemma ReadRegular(t: Text, row: Row, n: nat)
    requires t.Lawful() && t.FromMapping(row, n).Good?
    ensures var e := t.FromMapping(row, n).value;
      Regular(t, e) && (forall op :: op in e.operations ==> TidyOperation(op)) &&
      t.ReadTruth(row).Good? && e.operations == t.ReadTruth(row).value.operations
  {
    hide Text.Lawful, Stable, Text.First, Text.ReadTruth, Text.Override, Text.ReadContradiction, Text.ReadId,
      Text.Excluded, Text.Canonical, Tidy, Kept, ACTIONS, LoneNullPart;
    TruthKept(t, row);
    var u := t.ReadTruth(row).value;
    ExcludedSound(t, row, u);
    IdStable(t, row, n);
    FirstStable(t, row, [Objet, Subject]);
    FirstStable(t, row, [Corps, BodyText, EmailBody]);
    CanonicalStable(t, Cell(row, ExclusionReason));
  }

  // ---------------------------------------------------------------------------
  // The round trip
  // ---------------------------------------------------------------------------

  lemma OperationReread(t: Text, op: Operation)
    requires t.Lawful() && TidyOperation(op)
    ensures RereadOperation(t, op) == op <==> Kept(t, op)
  {
    hide Text.Lawful, Survives, Reread, Trimmed, ACTIONS;
    RereadSurvives(t, op.pdvCode);
    RereadSurvives(t, op.phone);
  }

  lemma OperationsReread(t: Text, ops: seq<Operation>)
    requires t.Lawful() && forall op :: op in ops ==> TidyOperation(op)
    ensures RereadAll(t, ops) == ops <==> forall op :: op in ops ==> Kept(t, op)
  {
    hide Text.Lawful, TidyOperation, Kept, RereadOperation, RereadAll;
    forall op | op in ops
      ensures RereadOperation(t, op) == op <==> Kept(t, op)
    {
      OperationReread(t, op);
    }
    if RereadAll(t, ops) == ops {
      forall op | op in ops
        ensures Kept(t, op)
      {
        var i :| 0 <= i < |ops| && ops[i] == op;
        assert RereadAll(t, ops)[i] == RereadOperation(t, op);
      }
    }
  }

  /** The round trip: a read example, written and read again, is the same in every field except its
      metadata, exactly when its row has no lone null part. */
  lemma Reloaded(t: Text, row: Row, n: nat, m: nat)
    requires t.Lawful() && t.FromMapping(row, n).Good?
    ensures var e := t.FromMapping(row, n).value;
      var r := t.FromMapping(AsDict(e), m);
      r.Good? && (r.value.(metadata := e.metadata) == e <==> !LoneNullPart(t, row))
  {
    hide Text.Lawful, Text.FromMapping, AsDict, Regular, TidyOperation, Kept, LoneNullPart, Text.ReadTruth, RereadAll,
      Sound;
    var e := t.FromMapping(row, n).value;
    ReadRegular(t, row, n);
    WrittenReread(t, e, m);
    TruthKept(t, row);
    OperationsReread(t, e.operations);
  }

  /** Even where an identifier is lost, all the other fields survive and a second round trip loses nothing more. */
  lemma SecondReloadExact(t: Text, row: Row, n: nat, m: nat, k: nat)
    requires t.Lawful() && t.FromMapping(row, n).Good?
    ensures var e := t.FromMapping(row, n).value;
      var r := t.FromMapping(AsDict(e), m);
      && r.Good? && r.value.(operations := e.operations, metadata := e.metadata) == e
      && var q := t.FromMapping(AsDict(r.value), k);
         q.Good? && q.value.(metadata := r.value.metadata) == r.value
  {
    hide Text.Lawful, Text.FromMapping, AsDict, Regular, TidyOperation, Kept, LoneNullPart, Text.ReadTruth, RereadAll;
    var e := t.FromMapping(row, n).value;
    ReadRegular(t, row, n);
    WrittenReread(t, e, m);
    WrittenNotLegacy(t, e);
    Reloaded(t, AsDict(e), m, k);
  }

  lemma WrittenNotLegacy(t: Text, e: Example)
    ensures !LoneNullPart(t, AsDict(e))
  {
    hide AsDict;
    WrittenExample(e);
    StructuredCell(t, AsDict(e), List(OperationsAsList(e.operations)));
  }

  // ---------------------------------------------------------------------------
  // The laws are consistent
  // ---------------------------------------------------------------------------

  function AsciiLower(c: char): char {
    if 'A' <= c <= 'Z' then (c as int + 32) as char else c
  }

  function AsciiFold(s: string): (r: string)
    ensures |r| == |s| && forall i :: 0 <= i < |s| ==> r[i] == AsciiLower(s[i])
  {
    if s == "" then "" else [AsciiLower(s[0])] + AsciiFold(s[1..])
  }

  function AsciiShow(v: Value): string {
    if v.Str? then v.s else if v.Bool? then (if v.b then "True" else "False") else if v.Number? then v.text else "{}"
  }

  lemma AsciiSpace(c: char)
    ensures IsSpace(AsciiLower(c)) ==> IsSpace(c)
    ensures AsciiLower(AsciiLower(c)) == AsciiLower(c) && (Lower(c) ==> AsciiLower(c) == c)
    ensures c == ';' ==> AsciiLower(c) == ';'
  {
  }

  lemma AsciiFolds(s: string)
    ensures (forall i :: 0 <= i < |s| ==> Lower(s[i])) ==> AsciiFold(s) == s
    ensures Trimmed(s) ==> Trimmed(AsciiFold(s))
    ensures AsciiFold(AsciiFold(s)) == AsciiFold(s) && (s != "" ==> AsciiFold(s) != "")
    ensures ';' in s ==> ';' in AsciiFold(s)
  {
    hide IsSpace, Lower, AsciiLower;
    forall i | 0 <= i < |s|
      ensures (IsSpace(AsciiLower(s[i])) ==> IsSpace(s[i])) && AsciiLower(AsciiLower(s[i])) == AsciiLower(s[i])
      ensures (Lower(s[i]) ==> AsciiLower(s[i]) == s[i]) && (s[i] == ';' ==> AsciiLower(s[i]) == ';')
    {
      AsciiSpace(s[i]);
    }
    assert AsciiFold(AsciiFold(s)) == AsciiFold(s);
    if ';' in s {
      var i :| 0 <= i < |s| && s[i] == ';';
      assert AsciiFold(s)[i] == ';';
    }
    if forall i :: 0 <= i < |s| ==> Lower(s[i]) {
      assert AsciiFold(s) == s;
    }
  }

  lemma AsciiWords()
    ensures AsciiFold("True") == "true" && AsciiFold("False") == "false"
    ensures Trimmed("row") && AsciiFold("row") == "row" && "row" !in NULL_TOKENS
  {
    assert forall i :: 0 <= i < 3 ==> Lower("row"[i]);
  }

  function AsciiText(): Text {
    Text(AsciiFold, AsciiShow, (n: nat) => "row", (s: string) => None)
  }

  lemma AsciiFoldsLawfully()
    ensures AsciiText().FoldsLawfully()
  {
    hide IsSpace, Lower, AsciiLower, AsciiFold, AsciiShow, Trimmed, NULL_TOKENS;
    forall s
      ensures (forall i :: 0 <= i < |s| ==> Lower(s[i])) ==> AsciiFold(s) == s
      ensures Trimmed(s) ==> Trimmed(AsciiFold(s))
      ensures AsciiFold(AsciiFold(s)) == AsciiFold(s) && (s != "" ==> AsciiFold(s) != "")
      ensures ';' in s ==> ';' in AsciiFold(s)
    {
      AsciiFolds(s);
    }
    AsciiWords();
  }

  lemma AsciiShowsLawfully()
    ensures AsciiText().ShowsLawfully()
  {
    hide AsciiFold;
  }

  lemma AsciiNamesLawfully()
    ensures AsciiText().NamesLawfully()
  {
    hide AsciiFold, AsciiShow, Trimmed, NULL_TOKENS;
    AsciiWords();
  }

  /** The laws asked of folding and printing are met by plain ASCII text, so they do not contradict each other. */
  lemma LawsMet()
    ensures AsciiText().Lawful()
  {
    hide AsciiText, Text.FoldsLawfully, Text.ShowsLawfully, Text.NamesLawfully;
    AsciiFoldsLawfully();
    AsciiShowsLawfully();
    AsciiNamesLawfully();
  }
}
