/** Reading evaluation examples from rows, writing them back, and reading them again. */
module DatasetLoader {
  import opened Wrappers
  import opened Whitespace

  /** The columns the loader knows by name. */
  datatype Column =
    | RowId | ExampleId | Id | CsvLine
    | Objet | Subject | Corps | BodyText | EmailBody
    | ExpectedOperations | ExpectedOperationsJson | GroundTruthOperations | OperationsJson | Operations
    | ExpectedOutcome | AnalysisOutcome | EvaluationStatus
    | Scorable | OperationScorable | ExclusionReason
    | ExpectedContradiction | ContradictionPresent | HasContradiction
    | Metadata
    | Label | ExpectedLabel | GroundTruthLabel
    | Action | OperationType | PredictedLabel | Type | Fields | AdditionalFields | AdditionalPayload
    | PdvCode | CodePosPdvNumber | CodePosNumber | PosCode
    | NewPhone | Phone | CodeOtpNumber | OtpPhone
    | Other(name: string)

  datatype Value =
    | Null
    | Bool(b: bool)
    | Number(text: string)
    | Str(s: string)
    | List(items: seq<Value>)
    | Obj(fields: Row)

  type Row = map<Column, Value>

  const PDV_COLUMNS := [PdvCode, CodePosPdvNumber, CodePosNumber, PosCode]
  const PHONE_COLUMNS := [NewPhone, Phone, CodeOtpNumber, OtpPhone]
  const OPERATION_COLUMNS := [ExpectedOperations, ExpectedOperationsJson, GroundTruthOperations,
                              OperationsJson, Operations]

  datatype Error =
    | NotAnObject | MissingAction | BadAdditionalFields | BadJson | NotAList
    | NoLabel | UnsupportedLabel | UnsupportedOutcome | NotBoolean

  datatype Read<+T> = Bad(error: Error) | Good(value: T)
  {
    predicate IsFailure() { Bad? }
    function PropagateFailure<U>(): Read<U> requires Bad? { Bad(error) }
    function Extract(): T requires Good? { value }
  }

  datatype Operation = Operation(action: string, pdvCode: Option<string>, phone: Option<string>, additional: Row)

  datatype Example = Example(id: string, subject: string, body: string, operations: seq<Operation>,
                             outcome: Option<string>, contradiction: Option<bool>, scorable: bool,
                             operationScorable: bool, exclusion: Option<string>, metadata: Row)

  // ---------------------------------------------------------------------------
  // Text
  // ---------------------------------------------------------------------------

  const NULL_TOKENS := ["", "nan", "none", "null"]
  const ACTIONS := ["vpn_access", "otp_number_change", "account_unblock", "password_reset", "unknown"]

  predicate Lower(c: char) {
    'a' <= c <= 'z' || '0' <= c <= '9' || c == '_'
  }

  /** Case folding, `str()`, the fallback row names and the JSON parser come from outside. */
  datatype Text = Text(fold: string -> string, show: Value -> string, rowName: nat -> string,
                       parse: string -> Option<Value>)
  {
    ghost predicate Lawful() {
      FoldsLawfully() && ShowsLawfully() && NamesLawfully()
    }

    /** Folding leaves lower-case words alone, is idempotent, and does not empty, pad or split a text. */
    ghost predicate FoldsLawfully() {
      && (forall s {:trigger fold(s)} :: (forall i :: 0 <= i < |s| ==> Lower(s[i])) ==> fold(s) == s)
      && (forall s {:trigger fold(s)} :: Trimmed(s) ==> Trimmed(fold(s)))
      && (forall s {:trigger fold(fold(s))} :: fold(fold(s)) == fold(s))
      && (forall s {:trigger fold(s)} :: s != "" ==> fold(s) != "")
      && (forall s {:trigger fold(s)} :: ';' in s ==> ';' in fold(s))
      && fold("True") == "true" && fold("False") == "false"
    }

    ghost predicate ShowsLawfully() {
      (forall s :: show(Str(s)) == s) && show(Bool(true)) == "True" && show(Bool(false)) == "False"
    }

    ghost predicate NamesLawfully() {
      forall n :: Trimmed(rowName(n)) && fold(rowName(n)) !in NULL_TOKENS
    }

    predicate IsNull(s: string) {
      fold(s) in NULL_TOKENS
    }

    function Canonical(v: Option<Value>): string {
      if v.None? || v.value.Null? then ""
      else
        var t := Strip(show(v.value));
        if IsNull(t) then "" else t
    }

    function First(row: Row, columns: seq<Column>): string {
      if columns == [] then ""
      else
        var s := Canonical(Cell(row, columns[0]));
        if s != "" then s else First(row, columns[1..])
    }

    // Operations

    function ActionName(s: string): string {
      var n := fold(Strip(s));
      if n == "vpn" then "vpn_access"
      else if n == "otp" then "otp_number_change"
      else if n == "locked" then "account_unblock"
      else if n == "reset" then "password_reset"
      else if n in ACTIONS then n
      else "unknown"
    }

    function CanonicalAction(s: string): string {
      ActionName(Canonical(Some(Str(s))))
    }

    function Coerce(v: Value): Read<Operation> {
      if !v.Obj? then Bad(NotAnObject)
      else
        var row := v.fields;
        var action := First(row, [Action, OperationType, PredictedLabel, Label, Type]);
        if action == "" then Bad(MissingAction)
        else
          var nested: Row := if Fields in row && row[Fields].Obj? then row[Fields].fields else map[];
          var additional := if AdditionalFields in row then row[AdditionalFields]
                            else if AdditionalPayload in row then row[AdditionalPayload] else Obj(map[]);
          if !additional.Null? && !additional.Obj? then Bad(BadAdditionalFields)
          else
            Good(Operation(CanonicalAction(action),
                           NonEmpty(OrElse(First(row, PDV_COLUMNS), First(nested, PDV_COLUMNS))),
                           NonEmpty(OrElse(First(row, PHONE_COLUMNS), First(nested, PHONE_COLUMNS))),
                           if additional.Null? then map[] else additional.fields))
    }

    function CoerceAll(items: seq<Value>): Read<seq<Operation>> {
      if items == [] then Good([])
      else
        var op :- Coerce(items[0]);
        var rest :- CoerceAll(items[1..]);
        Good([op] + rest)
    }

    function ParseOperations(v: Value): Read<seq<Operation>> {
      var parsed := if v.Str? then parse(v.s) else Some(v);
      if parsed.None? then Bad(BadJson)
      else
        var list := if !parsed.value.Obj? then parsed.value
                    else if Operations in parsed.value.fields then parsed.value.fields[Operations]
                    else if ExpectedOperations in parsed.value.fields then parsed.value.fields[ExpectedOperations]
                    else Null;
        if !list.List? then Bad(NotAList) else CoerceAll(list.items)
    }

    /** The first operations column that holds something, if any does. */
    function Structured(row: Row, columns: seq<Column>): Option<Value> {
      if columns == [] then None
      else
        var v := Cell(row, columns[0]);
        if v.Some? && v.value != Null && v.value != Str("") then v else Structured(row, columns[1..])
    }

    // Legacy rows

    function Parts(s: string): seq<string> {
      KeepNonEmpty(SplitAt(s))
    }

    function KeepNonEmpty(parts: seq<string>): seq<string> {
      if parts == [] then []
      else (if Strip(parts[0]) == "" then [] else [Strip(parts[0])]) + KeepNonEmpty(parts[1..])
    }

    function LegacyValues(s: string): seq<string> {
      Parts(Canonical(Some(Str(s))))
    }

    function LegacyTruth(row: Row): Read<Truth> {
      var raw := First(row, [Label, ExpectedLabel, GroundTruthLabel]);
      var tag := fold(raw);
      if tag in ["irrelevant", "ambiguous", "unknown", "automated"] then
        Good(Truth([], Some(if tag == "automated" then "irrelevant" else tag), true, true, None))
      else if tag == "multiple" then
        Good(Truth([], None, false, false, Some(MULTIPLE_ROW)))
      else if tag == "" then Bad(NoLabel)
      else
        var action := CanonicalAction(tag);
        if action == "unknown" then Bad(UnsupportedLabel)
        else
          var pdvs, phones := LegacyValues(First(row, PDV_COLUMNS)), LegacyValues(First(row, PHONE_COLUMNS));
          if |pdvs| > 1 || |phones| > 1 then
            var joined := Operation(action, NonEmpty(Join(pdvs)), NonEmpty(Join(phones)), map[]);
            Good(Truth([joined], None, true, false, Some(MULTI_VALUE)))
          else
            Good(Truth([Operation(action, FirstOf(pdvs), FirstOf(phones), map[])], None, true, true, None))
    }

    function StructuredTruth(row: Row, v: Value): Read<Truth> {
      var operations :- ParseOperations(v);
      var folded := fold(First(row, [ExpectedOutcome, AnalysisOutcome]));
      var outcome := if folded == "automated" then "irrelevant" else folded;
      if outcome !in ["", "irrelevant", "ambiguous", "unknown"] then Bad(UnsupportedOutcome)
      else Good(Truth(operations, NonEmpty(outcome), true, true, None))
    }

    function ReadTruth(row: Row): Read<Truth> {
      var v := Structured(row, OPERATION_COLUMNS);
      if v.None? then LegacyTruth(row) else StructuredTruth(row, v.value)
    }

    function ReadBool(v: Value): Read<Option<bool>> {
      var t := fold(Canonical(Some(v)));
      if t == "" then Good(None)
      else if t in ["1", "true", "yes", "y", "oui"] then Good(Some(true))
      else if t in ["0", "false", "no", "n", "non"] then Good(Some(false))
      else Bad(NotBoolean)
    }

    /** A flag keeps its value unless its cell says otherwise. */
    function Override(row: Row, column: Column, flag: bool): Read<bool> {
      if Canonical(Cell(row, column)) == "" then Good(flag)
      else
        var b :- ReadBool(row[column]);
        Good(if b.Some? then b.value else flag)
    }

    function ReadContradiction(row: Row, columns: seq<Column>): Read<Option<bool>> {
      if columns == [] then Good(None)
      else if Canonical(Cell(row, columns[0])) != "" then ReadBool(row[columns[0]])
      else ReadContradiction(row, columns[1..])
    }

    function ReadId(row: Row, n: nat): string {
      var id := First(row, [RowId, ExampleId, Id, CsvLine]);
      if id == "" then rowName(n) else id
    }

    /** The flags once the evaluation status has been looked at. */
    function Excluded(row: Row, t: Truth): Truth {
      var status := fold(Canonical(Cell(row, EvaluationStatus)));
      if "excluded" <= status then
        t.(scorable := false, operationScorable := false,
           exclusion := if t.exclusion.Some? then t.exclusion else Some(status))
      else t
    }

    function FromMapping(row: Row, n: nat): Read<Example> {
      var read :- ReadTruth(row);
      var t := Excluded(row, read);
      var scorable :- Override(row, Scorable, t.scorable);
      var operationScorable :- Override(row, OperationScorable, t.operationScorable);
      var serialized := Canonical(Cell(row, ExclusionReason));
      var contradiction :- ReadContradiction(row, [ExpectedContradiction, ContradictionPresent, HasContradiction]);
      Good(Example(ReadId(row, n), First(row, [Objet, Subject]), First(row, [Corps, BodyText, EmailBody]),
                   t.operations, t.outcome, contradiction, scorable, operationScorable,
                   if serialized != "" then Some(serialized) else t.exclusion, MetadataOf(row)))
    }
  }

  const MULTIPLE_ROW := "legacy_multiple_row_has_no_operation_attribution"
  const MULTI_VALUE := "legacy_multi_value_fields_have_no_operation_attribution"

  datatype Truth = Truth(operations: seq<Operation>, outcome: Option<string>, scorable: bool,
                         operationScorable: bool, exclusion: Option<string>)

  function Cell(row: Row, c: Column): Option<Value> {
    if c in row then Some(row[c]) else None
  }

  /** The row itself, with a nested metadata object merged over it. */
  function MetadataOf(row: Row): Row {
    (row - {Metadata}) + if Metadata in row && row[Metadata].Obj? then row[Metadata].fields else map[]
  }

  function NonEmpty(s: string): Option<string> {
    if s == "" then None else Some(s)
  }

  function OrElse(s: string, t: string): string {
    if s != "" then s else t
  }

  function FirstOf(parts: seq<string>): Option<string> {
    if parts == [] then None else Some(parts[0])
  }

  function Join(parts: seq<string>): string {
    if parts == [] then "" else if |parts| == 1 then parts[0] else parts[0] + ";" + Join(parts[1..])
  }

  function SplitAt(s: string): (parts: seq<string>)
    ensures parts != []
  {
    if s == "" then [""]
    else
      var rest := SplitAt(s[1..]);
      if s[0] == ';' then [""] + rest else [[s[0]] + rest[0]] + rest[1..]
  }

  // ---------------------------------------------------------------------------
  // Writing back
  // ---------------------------------------------------------------------------

  function OptStr(s: Option<string>): Value {
    if s.Some? then Str(s.value) else Null
  }

  function OptBool(b: Option<bool>): Value {
    if b.Some? then Bool(b.value) else Null
  }

  function OperationAsDict(op: Operation): Value {
    Obj(map[Action := Str(op.action), PdvCode := OptStr(op.pdvCode), Phone := OptStr(op.phone),
            AdditionalFields := Obj(op.additional)])
  }

  function OperationsAsList(ops: seq<Operation>): seq<Value> {
    if ops == [] then [] else [OperationAsDict(ops[0])] + OperationsAsList(ops[1..])
  }

  function AsDict(e: Example): Row {
    map[ExampleId := Str(e.id), Subject := Str(e.subject), BodyText := Str(e.body),
        ExpectedOperations := List(OperationsAsList(e.operations)),
        ExpectedOutcome := OptStr(e.outcome), ExpectedContradiction := OptBool(e.contradiction),
        Scorable := Bool(e.scorable), OperationScorable := Bool(e.operationScorable),
        ExclusionReason := OptStr(e.exclusion), Metadata := Obj(e.metadata)]
  }
}
