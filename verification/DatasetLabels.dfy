/** What the words of an evaluation row mean: its label, its outcome, its flags and its identifiers. */
module DatasetLabels {
  import opened Wrappers
  import opened Whitespace
  import opened DatasetLoader
  import opened DatasetRoundTrip
  import opened DatasetReload

  // ---------------------------------------------------------------------------
  // Actions
  // ---------------------------------------------------------------------------

  /** A label names an action by its historical word or by its canonical name. */
  predicate Names(word: string, action: string) {
    || (action == "vpn_access" && word in ["vpn", "vpn_access"])
    || (action == "otp_number_change" && word in ["otp", "otp_number_change"])
    || (action == "account_unblock" && word in ["locked", "account_unblock"])
    || (action == "password_reset" && word in ["reset", "password_reset"])
  }

  lemma WordsDiffer()
    ensures "vpn" != "otp" && "locked" != "otp" && "locked" != "vpn" && "reset" !in ["vpn", "otp", "locked"]
    ensures forall a :: a in ACTIONS ==> a !in ["vpn", "otp", "locked", "reset"]
  {
    assert "vpn"[0] == 'v' && "otp"[0] == 'o';
    assert |"vpn"| == 3 && |"otp"| == 3 && |"locked"| == 6 && |"reset"| == 5;
  }

  lemma ActionsDiffer()
    ensures "vpn_access" !in ["otp_number_change", "account_unblock", "password_reset", "unknown"]
    ensures "otp_number_change" !in ["account_unblock", "password_reset", "unknown"]
    ensures "account_unblock" !in ["password_reset", "unknown"] && "password_reset" != "unknown"
  {
    assert |"vpn_access"| == 10 && |"otp_number_change"| == 17 && |"account_unblock"| == 15;
    assert |"password_reset"| == 14 && |"unknown"| == 7;
  }

  /** The action of a text that reading leaves as it is: the one its folded form names, else unknown. */
  lemma ActionOfText(t: Text, s: string)
    requires t.Lawful() && Stable(t, s)
    ensures forall action :: Names(t.fold(s), action) ==> t.CanonicalAction(s) == action
    ensures (forall action :: !Names(t.fold(s), action)) ==> t.CanonicalAction(s) == "unknown"
  {
    hide Text.Lawful, Trimmed, Text.IsNull, Names, Text.ActionName;
    StableReads(t, s);
    StripTrims(s);
    assert t.CanonicalAction(s) == t.ActionName(s) && Strip(s) == s;
    ActionOfFolded(t, s, t.fold(s));
  }

  lemma ActionOfFolded(t: Text, s: string, n: string)
    requires n == t.fold(Strip(s))
    ensures forall action :: Names(n, action) ==> t.ActionName(s) == action
    ensures (forall action :: !Names(n, action)) ==> t.ActionName(s) == "unknown"
  {
    hide Strip;
    WordsDiffer();
    ActionsDiffer();
    if forall action :: !Names(n, action) {
      assert !Names(n, "vpn_access") && !Names(n, "otp_number_change");
      assert !Names(n, "account_unblock") && !Names(n, "password_reset");
    }
  }

  lemma NamesOne(word: string, a: string, b: string)
    requires Names(word, a) && Names(word, b)
    ensures a == b && a != "unknown"
  {
    WordsDiffer();
    ActionsDiffer();
  }

  // ---------------------------------------------------------------------------
  // Legacy rows
  // ---------------------------------------------------------------------------

  lemma FoldedStable(t: Text, s: string)
    requires t.Lawful() && Stable(t, s)
    ensures Stable(t, t.fold(s)) && t.fold(t.fold(s)) == t.fold(s)
  {
  }

  lemma TagStable(t: Text, row: Row)
    requires t.Lawful()
    ensures Tag(t, row) == "" || (Stable(t, Tag(t, row)) && t.fold(Tag(t, row)) == Tag(t, row))
  {
    hide Stable, Text.Lawful, Text.First;
    var raw := t.First(row, [Label, ExpectedLabel, GroundTruthLabel]);
    FirstStable(t, row, [Label, ExpectedLabel, GroundTruthLabel]);
    if raw == "" {
      FoldEmpty(t);
    } else {
      FoldedStable(t, raw);
    }
  }

  lemma OutcomesNameNothing(word: string, action: string)
    requires Names(word, action)
    ensures NamesAction(word) && word != ""
  {
    assert |"irrelevant"| == 10 && "irrelevant"[0] == 'i' && |"ambiguous"| == 9 && |"unknown"| == 7;
    assert |"automated"| == 9 && |"multiple"| == 8;
    assert |"vpn"| == 3 && |"otp"| == 3 && |"locked"| == 6 && |"reset"| == 5;
    assert |"vpn_access"| == 10 && "vpn_access"[0] == 'v' && |"otp_number_change"| == 17;
    assert |"account_unblock"| == 15 && |"password_reset"| == 14;
  }

  /** What the ground truth of a legacy row says about an action. */
  predicate OneOperation(u: Truth, action: string) {
    |u.operations| == 1 && u.operations[0].action == action && u.outcome.None? && u.scorable
  }

  lemma LegacyAction(t: Text, row: Row, action: string)
    requires t.Lawful() && Names(Tag(t, row), action)
    ensures t.LegacyTruth(row).Good? && OneOperation(t.LegacyTruth(row).value, action)
  {
    hide Text.Lawful, Stable, Text.First, Text.LegacyValues, Text.CanonicalAction, Names, Join, MULTI_VALUE;
    TagStable(t, row);
    OutcomesNameNothing(Tag(t, row), action);
    ActionOfText(t, Tag(t, row));
    NamesOne(Tag(t, row), action, action);
  }

  lemma LegacyUnsupported(t: Text, row: Row)
    requires t.Lawful() && (forall action :: !Names(Tag(t, row), action))
    requires NamesAction(Tag(t, row)) && Tag(t, row) != ""
    ensures t.LegacyTruth(row) == Bad(UnsupportedLabel)
  {
    hide Text.Lawful, Stable, Text.First, Text.LegacyValues, Text.CanonicalAction, Names, Join, MULTI_VALUE;
    TagStable(t, row);
    ActionOfText(t, Tag(t, row));
  }

  lemma LegacyOutcome(t: Text, row: Row)
    ensures var tag, read := Tag(t, row), t.LegacyTruth(row);
      && (tag in ["irrelevant", "automated"] ==> read == Good(Truth([], Some("irrelevant"), true, true, None)))
      && (tag in ["ambiguous", "unknown"] ==> read == Good(Truth([], Some(tag), true, true, None)))
      && (tag == "multiple" ==> read == Good(Truth([], None, false, false, Some(MULTIPLE_ROW))))
      && (tag == "" ==> read == Bad(NoLabel))
  {
    hide Text.First, Text.LegacyValues, Text.CanonicalAction, MULTIPLE_ROW, MULTI_VALUE, Join;
    assert |"irrelevant"| == 10 && |"ambiguous"| == 9 && |"unknown"| == 7 && |"automated"| == 9 && |"multiple"| == 8;
    assert "ambiguous"[1] == 'm' && "automated"[1] == 'u';
  }

  /** The structured columns are empty, so the label decides. */
  predicate Legacy(t: Text, row: Row) {
    t.Structured(row, OPERATION_COLUMNS).None?
  }

  lemma FromTruth(t: Text, row: Row, n: nat)
    ensures t.ReadTruth(row).Bad? ==> t.FromMapping(row, n) == Bad(t.ReadTruth(row).error)
    ensures t.FromMapping(row, n).Good? ==>
      t.ReadTruth(row).Good?
      && t.FromMapping(row, n).value.operations == t.ReadTruth(row).value.operations
      && t.FromMapping(row, n).value.outcome == t.ReadTruth(row).value.outcome
  {
    hide Text.ReadTruth, Text.Override, Text.ReadContradiction, Text.First, Text.Canonical, Text.ReadId;
  }

  /**
   * What the label of a legacy row means, for the example read from it: vpn, otp, locked and reset stand
   * for one operation of the four actions, as their canonical names do; irrelevant, automated, ambiguous
   * and unknown are outcomes without operations; multiple is neither; anything else is refused.
   */
  lemma LabelMeans(t: Text, row: Row, n: nat, action: string)
    requires t.Lawful() && Legacy(t, row)
    ensures var tag, read := Tag(t, row), t.FromMapping(row, n);
      && (Names(tag, action) && read.Good? ==>
            |read.value.operations| == 1 && read.value.operations[0].action == action && read.value.outcome.None?)
      && (Names(tag, action) ==> read != Bad(UnsupportedLabel) && read != Bad(NoLabel))
      && (tag in ["irrelevant", "automated"] && read.Good? ==>
            read.value.operations == [] && read.value.outcome == Some("irrelevant"))
      && (tag in ["ambiguous", "unknown"] && read.Good? ==>
            read.value.operations == [] && read.value.outcome == Some(tag))
      && (tag == "multiple" && read.Good? ==> read.value.operations == [] && read.value.outcome.None?)
      && (tag == "" ==> read == Bad(NoLabel))
      && ((forall a :: !Names(tag, a)) && tag != "" && NamesAction(tag) ==> read == Bad(UnsupportedLabel))
  {
    hide Text.Lawful, Text.FromMapping, Text.LegacyTruth, Names, Tag, MULTIPLE_ROW;
    FromTruth(t, row, n);
    LegacyOutcome(t, row);
    var tag, read := Tag(t, row), t.FromMapping(row, n);
    if Names(tag, action) {
      LegacyAction(t, row, action);
      if read.Bad? {
        TruthErrors(t, row, n);
      }
    }
    if (forall a :: !Names(tag, a)) && tag != "" && NamesAction(tag) {
      LegacyUnsupported(t, row);
    }
  }

  /** Once the ground truth is read, only a flag can still be refused. */
  lemma TruthErrors(t: Text, row: Row, n: nat)
    requires t.ReadTruth(row).Good? && t.FromMapping(row, n).Bad?
    ensures t.FromMapping(row, n) == Bad(NotBoolean)
  {
    hide Text.ReadTruth, Text.First, Text.ReadId;
    ContradictionErrors(t, row, [ExpectedContradiction, ContradictionPresent, HasContradiction]);
  }

  lemma {:induction false} ContradictionErrors(t: Text, row: Row, columns: seq<Column>)
    ensures t.ReadContradiction(row, columns).Good? || t.ReadContradiction(row, columns) == Bad(NotBoolean)
  {
    hide Text.Canonical;
    if columns != [] {
      ContradictionErrors(t, row, columns[1..]);
    }
  }

  // ---------------------------------------------------------------------------
  // Structured rows
  // ---------------------------------------------------------------------------

  /** An operation of a structured row has the action that its word names, and is unknown for any other word. */
  lemma CoercedMeans(t: Text, v: Value)
    requires t.Lawful() && t.Coerce(v).Good?
    ensures var word := t.fold(t.First(v.fields, [Action, OperationType, PredictedLabel, Label, Type]));
      && (forall action :: Names(word, action) ==> t.Coerce(v).value.action == action)
      && ((forall action :: !Names(word, action)) ==> t.Coerce(v).value.action == "unknown")
  {
    hide Text.Lawful, Text.First, Stable, Names, Text.CanonicalAction;
    FirstStable(t, v.fields, [Action, OperationType, PredictedLabel, Label, Type]);
    ActionOfText(t, t.First(v.fields, [Action, OperationType, PredictedLabel, Label, Type]));
  }

  /** Every listed operation is read on its own, in order; one that cannot be read is refused with all. */
  lemma {:induction false} CoercedInOrder(t: Text, items: seq<Value>)
    ensures var r := t.CoerceAll(items);
      && (r.Good? <==> forall i :: 0 <= i < |items| ==> t.Coerce(items[i]).Good?)
      && (r.Good? ==> |r.value| == |items|)
      && (r.Good? ==> forall i :: 0 <= i < |items| ==> t.Coerce(items[i]) == Good(r.value[i]))
  {
    hide Text.Coerce;
    if items != [] {
      CoercedInOrder(t, items[1..]);
      assert forall i :: 0 < i < |items| ==> items[i] == items[1..][i - 1];
      if t.CoerceAll(items[1..]).Good? && t.Coerce(items[0]).Good? {
        var rest := t.CoerceAll(items[1..]).value;
        assert t.CoerceAll(items).value == [t.Coerce(items[0]).value] + rest;
      }
    }
  }

  /** Operations may be listed as they are, under `operations` or else `expected_operations`, or as JSON text. */
  lemma OperationsWrapped(t: Text, v: Value)
    ensures v.List? ==> t.ParseOperations(v) == t.CoerceAll(v.items)
    ensures v.Obj? && Operations in v.fields && v.fields[Operations].List? ==>
      t.ParseOperations(v) == t.CoerceAll(v.fields[Operations].items)
    ensures v.Obj? && Operations !in v.fields && ExpectedOperations in v.fields &&
            v.fields[ExpectedOperations].List? ==>
      t.ParseOperations(v) == t.CoerceAll(v.fields[ExpectedOperations].items)
    ensures v.Obj? && Operations !in v.fields && ExpectedOperations !in v.fields ==>
      t.ParseOperations(v) == Bad(NotAList)
    ensures v.Str? && t.parse(v.s).Some? && !t.parse(v.s).value.Str? ==>
      t.ParseOperations(v) == t.ParseOperations(t.parse(v.s).value)
    ensures v.Str? && t.parse(v.s).None? ==> t.ParseOperations(v) == Bad(BadJson)
  {
    hide Text.CoerceAll;
  }

  /** The nested fields of an operation, if it has any. */
  function Nested(row: Row): Row {
    if Fields in row && row[Fields].Obj? then row[Fields].fields else map[]
  }

  /** An operation's own columns come before its nested ones, for each identifier on its own. */
  lemma CoercedIdentifiers(t: Text, v: Value)
    requires t.Coerce(v).Good?
    ensures var op, row := t.Coerce(v).value, v.fields;
      && (t.First(row, PDV_COLUMNS) != "" ==> op.pdvCode == Some(t.First(row, PDV_COLUMNS)))
      && (t.First(row, PDV_COLUMNS) == "" ==> op.pdvCode == NonEmpty(t.First(Nested(row), PDV_COLUMNS)))
      && (t.First(row, PHONE_COLUMNS) != "" ==> op.phone == Some(t.First(row, PHONE_COLUMNS)))
      && (t.First(row, PHONE_COLUMNS) == "" ==> op.phone == NonEmpty(t.First(Nested(row), PHONE_COLUMNS)))
  {
    hide Text.First, Text.CanonicalAction;
  }

  /** The metadata of an example are the cells of its row and of its nested metadata, which come first. */
  lemma MetadataMerged(row: Row, c: Column)
    ensures var nested: Row := if Metadata in row && row[Metadata].Obj? then row[Metadata].fields else map[];
      Cell(MetadataOf(row), c) ==
      if c in nested then Some(nested[c]) else if c == Metadata then None else Cell(row, c)
  {
  }

  /** The outcome of a structured row: its word, automated counting as irrelevant; other words are refused. */
  lemma OutcomeMeans(t: Text, row: Row)
    requires !Legacy(t, row) && t.ParseOperations(t.Structured(row, OPERATION_COLUMNS).value).Good?
    ensures var word := t.fold(t.First(row, [ExpectedOutcome, AnalysisOutcome]));
      var read := t.ReadTruth(row);
      && (word == "" ==> read.Good? && read.value.outcome.None?)
      && (word in ["irrelevant", "automated"] ==> read.Good? && read.value.outcome == Some("irrelevant"))
      && (word in ["ambiguous", "unknown"] ==> read.Good? && read.value.outcome == Some(word))
      && (word !in ["", "irrelevant", "automated", "ambiguous", "unknown"] ==> read == Bad(UnsupportedOutcome))
      && (read.Good? ==> read.value.scorable && read.value.operationScorable && read.value.exclusion.None?)
  {
    hide Text.First, Text.ParseOperations, Text.Structured;
    assert |"irrelevant"| == 10 && |"ambiguous"| == 9 && |"unknown"| == 7 && |"automated"| == 9;
    assert "ambiguous"[1] == 'm' && "automated"[1] == 'u';
  }

  // ---------------------------------------------------------------------------
  // Flags
  // ---------------------------------------------------------------------------

  /** A flag is set by 1, true, yes, y and oui, cleared by 0, false, no, n and non, and left by a null cell. */
  lemma FlagMeans(t: Text, row: Row, c: Column, flag: bool)
    ensures var word := t.fold(t.Canonical(Cell(row, c)));
      var read := t.Override(row, c, flag);
      && (t.Canonical(Cell(row, c)) == "" ==> read == Good(flag))
      && (word in ["1", "true", "yes", "y", "oui"] && t.Canonical(Cell(row, c)) != "" ==> read == Good(true))
      && (word in ["0", "false", "no", "n", "non"] && t.Canonical(Cell(row, c)) != "" ==> read == Good(false))
      && (word !in ["", "1", "true", "yes", "y", "oui", "0", "false", "no", "n", "non"]
          && t.Canonical(Cell(row, c)) != ""
          ==> read == Bad(NotBoolean))
  {
    hide Text.Canonical, Text.ReadBool;
    if c in row {
      ReadsFlag(t, row[c]);
    } else {
      Absent(t, row, c);
    }
    assert t.Canonical(Cell(row, c)) != "" ==> c in row;
  }

  lemma ReadsFlag(t: Text, v: Value)
    ensures var word := t.fold(t.Canonical(Some(v)));
      && (word in ["1", "true", "yes", "y", "oui"] ==> t.ReadBool(v) == Good(Some(true)))
      && (word in ["0", "false", "no", "n", "non"] ==> t.ReadBool(v) == Good(Some(false)))
      && (word !in ["", "1", "true", "yes", "y", "oui", "0", "false", "no", "n", "non"]
          ==> t.ReadBool(v) == Bad(NotBoolean))
  {
    hide Text.Canonical;
    FlagWordsDiffer();
  }

  lemma FlagWordsDiffer()
    ensures forall w :: w in ["0", "false", "no", "n", "non"] ==> w !in ["1", "true", "yes", "y", "oui"]
  {
    assert "0"[0] == '0' && "1"[0] == '1' && "n"[0] == 'n' && "y"[0] == 'y' && "no"[0] == 'n';
    assert "non"[0] == 'n' && "oui"[0] == 'o' && "yes"[0] == 'y' && |"false"| == 5 && |"true"| == 4;
  }

  /** A trimmed text is null exactly if it folds to one of four words, and is kept otherwise. */
  lemma NullMeans(t: Text, s: string)
    requires t.Lawful() && Trimmed(s)
    ensures t.Canonical(Some(Str(s))) == if t.fold(s) in ["", "nan", "none", "null"] then "" else s
  {
    hide Trimmed;
    StripTrims(s);
  }

  /** An identifier cell of a legacy row names several values. */
  predicate Several(t: Text, row: Row) {
    && Legacy(t, row) && NamesAction(Tag(t, row))
    && (|t.LegacyValues(t.First(row, PDV_COLUMNS))| > 1 || |t.LegacyValues(t.First(row, PHONE_COLUMNS))| > 1)
  }

  predicate Multiple(t: Text, row: Row) {
    Legacy(t, row) && Tag(t, row) == "multiple"
  }

  lemma TruthScores(t: Text, row: Row)
    requires t.ReadTruth(row).Good?
    ensures var u := t.ReadTruth(row).value;
      && (u.scorable <==> !Multiple(t, row))
      && (u.operationScorable <==> !Multiple(t, row) && !Several(t, row))
      && u.exclusion ==
         (if Multiple(t, row) then Some("legacy_multiple_row_has_no_operation_attribution")
          else if Several(t, row) then Some("legacy_multi_value_fields_have_no_operation_attribution")
          else None)
  {
    hide Text.First, Text.LegacyValues, Text.CanonicalAction, Text.ParseOperations, Text.Structured, Join;
    assert |"irrelevant"| == 10 && |"ambiguous"| == 9 && |"unknown"| == 7 && |"automated"| == 9 && |"multiple"| == 8;
  }

  /**
   * What an example counts for when its row has no flags of its own: everything, unless its status says
   * that it is excluded or its label that it holds several requests; not as an operation if its
   * identifiers do not say to which operation they belong. The reason is the row's own, else that of the
   * label, else the status.
   */
  lemma ScoringMeans(t: Text, row: Row, n: nat)
    requires t.FromMapping(row, n).Good?
    requires t.Canonical(Cell(row, Scorable)) == "" && t.Canonical(Cell(row, OperationScorable)) == ""
    ensures var e := t.FromMapping(row, n).value;
      var status := t.fold(t.Canonical(Cell(row, EvaluationStatus)));
      var excluded := "excluded" <= status;
      var reason := t.Canonical(Cell(row, ExclusionReason));
      && (e.scorable <==> !excluded && !Multiple(t, row))
      && (e.operationScorable <==> !excluded && !Multiple(t, row) && !Several(t, row))
      && e.exclusion ==
         (if reason != "" then Some(reason)
          else if Multiple(t, row) then Some("legacy_multiple_row_has_no_operation_attribution")
          else if Several(t, row) then Some("legacy_multi_value_fields_have_no_operation_attribution")
          else if excluded then Some(status)
          else None)
  {
    hide Text.Canonical, Text.First, Text.ReadTruth, Text.ReadId, Text.ReadContradiction, Text.ReadBool, Multiple,
      Several;
    TruthScores(t, row);
  }

  // ---------------------------------------------------------------------------
  // Identifiers
  // ---------------------------------------------------------------------------

  lemma {:induction false} SplitJoins(s: string)
    ensures Join(SplitAt(s)) == s && forall i :: 0 <= i < |SplitAt(s)| ==> ';' !in SplitAt(s)[i]
  {
    if s != "" {
      SplitJoins(s[1..]);
      JoinStep(s[0], SplitAt(s[1..]));
      assert s == [s[0]] + s[1..];
    }
  }

  lemma JoinFront(p: string, rest: seq<string>)
    ensures Join([p] + rest) == if rest == [] then p else p + ";" + Join(rest)
  {
    assert ([p] + rest)[1..] == rest;
  }

  lemma JoinStep(c: char, rest: seq<string>)
    requires rest != []
    ensures Join([""] + rest) == ";" + Join(rest)
    ensures Join([[c] + rest[0]] + rest[1..]) == [c] + Join(rest)
  {
    hide Join;
    JoinFront("", rest);
    JoinFront(rest[0], rest[1..]);
    JoinFront([c] + rest[0], rest[1..]);
    assert rest == [rest[0]] + rest[1..];
  }

  /** A text without a semicolon is one part, whole. */
  lemma {:induction false} SplitWhole(s: string)
    requires ';' !in s
    ensures SplitAt(s) == [s]
  {
    if s != "" {
      SplitWhole(s[1..]);
      assert s == [s[0]] + s[1..];
    }
  }

  /** A single identifier in a legacy row is kept to the letter. */
  lemma IdentifierKept(t: Text, s: string)
    requires t.Lawful() && Stable(t, s) && ';' !in s
    ensures t.LegacyValues(s) == [s]
  {
    hide Text.Lawful, Text.IsNull, Trimmed, Text.Canonical;
    StableReads(t, s);
    StripTrims(s);
    SplitWhole(s);
    assert t.KeepNonEmpty([]) == [] && [s][1..] == [];
  }

  lemma IdentifierAbsent(t: Text)
    requires t.Lawful()
    ensures t.LegacyValues("") == []
  {
    hide Text.Lawful, Trimmed, Strip, Text.Canonical;
    StableReads(t, "");
    EmptyTrimmed();
    StripTrims("");
    SplitWhole("");
    assert t.KeepNonEmpty([]) == [] && [""][1..] == [];
  }

  /** Joined identifiers: their parts stay in order, stripped, the blank ones dropped. */
  lemma {:induction false} PartsInOrder(t: Text, a: seq<string>, b: seq<string>)
    ensures t.KeepNonEmpty(a + b) == t.KeepNonEmpty(a) + t.KeepNonEmpty(b)
    decreases |a|
  {
    hide Strip;
    if a == [] {
      assert a + b == b;
    } else {
      assert (a + b)[1..] == a[1..] + b;
      PartsInOrder(t, a[1..], b);
    }
  }

  /** A legacy row with one PDV code and at most one phone number gives an operation with just these. */
  lemma LegacyIdentifiers(t: Text, row: Row, n: nat, action: string)
    requires t.Lawful() && Legacy(t, row) && Names(Tag(t, row), action) && t.FromMapping(row, n).Good?
    requires ';' !in t.First(row, PDV_COLUMNS) && ';' !in t.First(row, PHONE_COLUMNS)
    ensures t.FromMapping(row, n).value.operations ==
      [Operation(action, NonEmpty(t.First(row, PDV_COLUMNS)), NonEmpty(t.First(row, PHONE_COLUMNS)), map[])]
  {
    hide Text.Lawful, Text.FromMapping, Text.First, Stable, Text.LegacyValues, Names, Tag;
    FromTruth(t, row, n);
    LegacyAction(t, row, action);
    LegacyShape(t, row);
    OneIdentifier(t, row, PDV_COLUMNS);
    OneIdentifier(t, row, PHONE_COLUMNS);
    assert t.LegacyTruth(row).value.operations == [LegacyOperation(t, row)];
  }

  lemma OneIdentifier(t: Text, row: Row, columns: seq<Column>)
    requires t.Lawful() && ';' !in t.First(row, columns)
    ensures Join(t.LegacyValues(t.First(row, columns))) == t.First(row, columns)
  {
    hide Text.Lawful, Text.First, Stable, Text.LegacyValues;
    FirstStable(t, row, columns);
    IdentifierAbsent(t);
    if t.First(row, columns) != "" {
      IdentifierKept(t, t.First(row, columns));
    }
  }

  /** Column `k` is the first one with a value, and `s` is its value. */
  ghost predicate FirstFilled(t: Text, row: Row, columns: seq<Column>, k: int, s: string) {
    && 0 <= k < |columns| && t.Canonical(Cell(row, columns[k])) == s && s != ""
    && forall i :: 0 <= i < k ==> t.Canonical(Cell(row, columns[i])) == ""
  }

  /** A value is looked up in its columns in their order, and is empty only if all of them are. */
  lemma {:induction false} FirstIsFilled(t: Text, row: Row, columns: seq<Column>)
    ensures forall k, s :: FirstFilled(t, row, columns, k, s) ==> t.First(row, columns) == s
    ensures t.First(row, columns) == "" <==> forall k :: 0 <= k < |columns| ==> t.Canonical(Cell(row, columns[k])) == ""
  {
    hide Text.Canonical;
    if columns != [] {
      FirstIsFilled(t, row, columns[1..]);
      assert forall k :: 0 < k < |columns| ==> columns[k] == columns[1..][k - 1];
      forall k, s | FirstFilled(t, row, columns, k, s) ensures t.First(row, columns) == s {
        if k > 0 {
          assert FirstFilled(t, row, columns[1..], k - 1, s);
        }
      }
    }
  }
}
