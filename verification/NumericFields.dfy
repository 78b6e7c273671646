/** Numbers found in a mail, the operation built from them, and the check that an operation's fields must pass. */
module NumericFields {
  import opened Spans
  import opened Wrappers
  import opened Whitespace

  datatype Action = VpnAccess | OtpNumberChange | AccountUnblock | PasswordReset | Unknown

  datatype Slot = PdvCode | Phone | NewPhone

  // ---------------------------------------------------------------------------
  // Numbers
  // ---------------------------------------------------------------------------

  predicate Separator(c: char) {
    c == ' ' || c == '\t' || c == '(' || c == ')' || c == '.' || c == '/' || c == '-'
  }

  /** Which characters count as decimal digits comes from outside; white space, separators and the plus do not. */
  ghost predicate Digits(digit: char -> bool) {
    forall c :: digit(c) ==> !IsSpace(c) && !Separator(c) && c != '+'
  }

  /** `s` is `k` times any number of separators followed by a digit. */
  predicate Groups(digit: char -> bool, s: string, k: nat) {
    if s == "" then k == 0
    else if digit(s[0]) then k > 0 && Groups(digit, s[1..], k - 1)
    else Separator(s[0]) && k > 0 && Groups(digit, s[1..], k)
  }

  function Unsigned(raw: string): string {
    if raw != "" && raw[0] == '+' then raw[1..] else raw
  }

  /** The numeric expression: a plus or not, a digit, and 7 to 14 further digits with separators before them. */
  predicate Numeric(digit: char -> bool, raw: string) {
    var s := Unsigned(raw);
    s != "" && digit(s[0]) && exists k :: 7 <= k <= 14 && Groups(digit, s[1..], k)
  }

  function OnlyDigits(digit: char -> bool, s: string): string {
    if s == "" then "" else (if digit(s[0]) then [s[0]] else "") + OnlyDigits(digit, s[1..])
  }

  function NormalizeNumeric(digit: char -> bool, value: Option<string>, keepPlus: bool): Option<string> {
    if value.None? then None
    else
      var text := Strip(value.value);
      var digits := OnlyDigits(digit, text);
      if digits == "" then None
      else if keepPlus && "+" <= text then Some("+" + digits)
      else Some(digits)
  }

  predicate AllDigits(digit: char -> bool, s: string) {
    forall i :: 0 <= i < |s| ==> digit(s[i])
  }

  /** Exactly eight digits. */
  predicate IsPdv(digit: char -> bool, s: string) {
    |s| == 8 && AllDigits(digit, s)
  }

  /** Nine to fifteen digits, after a plus or not. */
  predicate IsPhone(digit: char -> bool, s: string) {
    9 <= |Unsigned(s)| <= 15 && AllDigits(digit, Unsigned(s))
  }

  // ---------------------------------------------------------------------------
  // Candidates
  // ---------------------------------------------------------------------------

  datatype Hint = PdvOrUnknown | PhoneOrUnknown | NumericUnknown

  datatype Candidate = Candidate(value: string, raw: string, hint: Hint, start: nat, end: nat, context: string)

  /** The spans at which the numeric expression matches. */
  predicate Matches(digit: char -> bool, source: string, spans: seq<Span>) {
    forall i :: 0 <= i < |spans| ==>
      spans[i].start <= spans[i].end <= |source| && Numeric(digit, source[spans[i].start..spans[i].end])
  }

  function HintOf(normalized: string): Hint {
    var count := |Unsigned(normalized)|;
    if count == 8 && !("+" <= normalized) then PdvOrUnknown
    else if 9 <= count <= 15 then PhoneOrUnknown
    else NumericUnknown
  }

  function ContextOf(source: string, span: Span): string
    requires span.start <= span.end <= |source|
  {
    source[if span.start > 60 then span.start - 60 else 0..if span.end + 60 < |source| then span.end + 60 else |source|]
  }

  /** One match, as a list of no or one candidate. */
  function CandidateAt(digit: char -> bool, source: string, span: Span): seq<Candidate>
    requires span.start <= span.end <= |source|
  {
    var raw := source[span.start..span.end];
    var normalized := NormalizeNumeric(digit, Some(raw), true);
    if normalized.None? then []
    else [Candidate(normalized.value, raw, HintOf(normalized.value), span.start, span.end, ContextOf(source, span))]
  }

  function Candidates(digit: char -> bool, source: string, spans: seq<Span>): seq<Candidate>
    requires Matches(digit, source, spans)
  {
    if spans == [] then [] else CandidateAt(digit, source, spans[0]) + Candidates(digit, source, spans[1..])
  }

  lemma {:induction false} CandidatesMore(digit: char -> bool, source: string, spans: seq<Span>, span: Span)
    requires Matches(digit, source, spans + [span]) && Matches(digit, source, spans)
    requires span.start <= span.end <= |source|
    ensures Candidates(digit, source, spans + [span]) ==
      Candidates(digit, source, spans) + CandidateAt(digit, source, span)
  {
    hide CandidateAt, Numeric;
    if spans == [] {
      assert spans + [span] == [span] && [span][1..] == [];
    } else {
      assert (spans + [span])[1..] == spans[1..] + [span];
      CandidatesMore(digit, source, spans[1..], span);
    }
  }

  method ExtractCandidates(digit: char -> bool, source: string, spans: seq<Span>) returns (candidates: seq<Candidate>)
    requires Matches(digit, source, spans)
    ensures candidates == Candidates(digit, source, spans)
  {
    hide Numeric, OnlyDigits, NormalizeNumeric;
    candidates := [];
    for i := 0 to |spans|
      invariant candidates == Candidates(digit, source, spans[..i])
    {
      assert spans[..i + 1] == spans[..i] + [spans[i]];
      CandidatesMore(digit, source, spans[..i], spans[i]);
      var raw := source[spans[i].start..spans[i].end];
      var normalized := NormalizeNumeric(digit, Some(raw), true);
      if normalized.None? {
        continue;
      }
      var count := |Unsigned(normalized.value)|;
      var hint;
      if count == 8 && !("+" <= normalized.value) {
        hint := PdvOrUnknown;
      } else if 9 <= count <= 15 {
        hint := PhoneOrUnknown;
      } else {
        hint := NumericUnknown;
      }
      candidates := candidates +
        [Candidate(normalized.value, raw, hint, spans[i].start, spans[i].end, ContextOf(source, spans[i]))];
    }
    assert spans[..|spans|] == spans;
  }

  // ---------------------------------------------------------------------------
  // Building an operation
  // ---------------------------------------------------------------------------

  datatype Evidence = Evidence(slot: Slot, value: string, text: string)

  datatype Operation = Operation(action: Action, pdvCode: Option<string>, phone: Option<string>,
                                 missing: seq<Slot>, evidence: seq<Evidence>, confidence: real)

  /** The slots the builder fills for an action. */
  function ActionSlots(action: Action): seq<Slot> {
    match action
    case VpnAccess => [PdvCode, Phone]
    case OtpNumberChange => [PdvCode, NewPhone]
    case AccountUnblock => [PdvCode]
    case PasswordReset => [PdvCode]
    case Unknown => []
  }

  function FirstWith(candidates: seq<Candidate>, hint: Hint): Option<Candidate> {
    if candidates == [] then None
    else if candidates[0].hint == hint then Some(candidates[0])
    else FirstWith(candidates[1..], hint)
  }

  method BuildOperation(action: Action, candidates: seq<Candidate>, confidence: real) returns (op: Operation)
    ensures op == Built(action, candidates, confidence)
  {
    hide FirstWith, EvidenceFor, MissingFor;
    var pdv := FirstWith(candidates, PdvOrUnknown);
    var phone := FirstWith(candidates, PhoneOrUnknown);
    var needed := ActionSlots(action);
    var pdvCode := if PdvCode in needed && pdv.Some? then Some(pdv.value.value) else None;
    var phoneValue := None;
    if (Phone in needed || NewPhone in needed) && phone.Some? {
      phoneValue := Some(phone.value.value);
    }
    var evidence, missing := CollectEvidence(needed, pdv, phone);
    op := Operation(action, pdvCode, phoneValue, missing, evidence, confidence);
  }

  method CollectEvidence(needed: seq<Slot>, pdv: Option<Candidate>, phone: Option<Candidate>)
    returns (evidence: seq<Evidence>, missing: seq<Slot>)
    ensures evidence == EvidenceFor(ALL_SLOTS, needed, pdv, phone) &&
      missing == MissingFor(ALL_SLOTS, needed, pdv, phone)
  {
    hide EvidenceFor, MissingFor;
    evidence, missing := [], [];
    if PdvCode in needed {
      if pdv.Some? {
        evidence := evidence + [Evidence(PdvCode, pdv.value.value, pdv.value.context)];
      } else {
        missing := missing + [PdvCode];
      }
    }
    FirstSlot(needed, pdv, phone);
    var slots := [Phone, NewPhone];
    assert [PdvCode] + slots[..0] == [PdvCode];
    for i := 0 to |slots|
      invariant evidence == EvidenceFor([PdvCode] + slots[..i], needed, pdv, phone)
      invariant missing == MissingFor([PdvCode] + slots[..i], needed, pdv, phone)
    {
      assert [PdvCode] + slots[..i + 1] == ([PdvCode] + slots[..i]) + [slots[i]];
      OneMoreSlot([PdvCode] + slots[..i], slots[i], needed, pdv, phone);
      if slots[i] in needed {
        if phone.Some? {
          evidence := evidence + [Evidence(slots[i], phone.value.value, phone.value.context)];
        } else {
          missing := missing + [slots[i]];
        }
      }
    }
    assert [PdvCode] + slots[..|slots|] == ALL_SLOTS;
  }

  lemma FirstSlot(needed: seq<Slot>, pdv: Option<Candidate>, phone: Option<Candidate>)
    ensures EvidenceFor([PdvCode], needed, pdv, phone) == Quoted(PdvCode, needed, pdv, phone)
    ensures MissingFor([PdvCode], needed, pdv, phone) == Lacking(PdvCode, needed, pdv, phone)
  {
    assert [PdvCode][1..] == [];
  }

  /** The candidate that fills a slot. */
  function Filling(slot: Slot, pdv: Option<Candidate>, phone: Option<Candidate>): Option<Candidate> {
    if slot == PdvCode then pdv else phone
  }

  /** What one slot adds to the evidence. */
  function Quoted(slot: Slot, needed: seq<Slot>, pdv: Option<Candidate>, phone: Option<Candidate>): seq<Evidence> {
    var c := Filling(slot, pdv, phone);
    if slot in needed && c.Some? then [Evidence(slot, c.value.value, c.value.context)] else []
  }

  /** What one slot adds to the missing fields. */
  function Lacking(slot: Slot, needed: seq<Slot>, pdv: Option<Candidate>, phone: Option<Candidate>): seq<Slot> {
    if slot in needed && Filling(slot, pdv, phone).None? then [slot] else []
  }

  function EvidenceFor(slots: seq<Slot>, needed: seq<Slot>, pdv: Option<Candidate>,
      phone: Option<Candidate>): seq<Evidence> {
    if slots == [] then [] else Quoted(slots[0], needed, pdv, phone) + EvidenceFor(slots[1..], needed, pdv, phone)
  }

  function MissingFor(slots: seq<Slot>, needed: seq<Slot>, pdv: Option<Candidate>,
      phone: Option<Candidate>): seq<Slot> {
    if slots == [] then [] else Lacking(slots[0], needed, pdv, phone) + MissingFor(slots[1..], needed, pdv, phone)
  }

  lemma Regroup<T>(a: seq<T>, b: seq<T>, c: seq<T>)
    ensures a + (b + c) == (a + b) + c
  {
  }

  lemma {:induction false} OneMoreSlot(slots: seq<Slot>, slot: Slot, needed: seq<Slot>, pdv: Option<Candidate>,
      phone: Option<Candidate>)
    ensures EvidenceFor(slots + [slot], needed, pdv, phone) ==
      EvidenceFor(slots, needed, pdv, phone) + Quoted(slot, needed, pdv, phone)
    ensures MissingFor(slots + [slot], needed, pdv, phone) ==
      MissingFor(slots, needed, pdv, phone) + Lacking(slot, needed, pdv, phone)
  {
    hide Quoted, Lacking;
    if slots == [] {
      assert slots + [slot] == [slot] && [slot][1..] == [];
    } else {
      var rest := slots[1..];
      assert (slots + [slot])[0] == slots[0] && (slots + [slot])[1..] == rest + [slot];
      OneMoreSlot(rest, slot, needed, pdv, phone);
      Regroup(Quoted(slots[0], needed, pdv, phone), EvidenceFor(rest, needed, pdv, phone),
        Quoted(slot, needed, pdv, phone));
      Regroup(Lacking(slots[0], needed, pdv, phone), MissingFor(rest, needed, pdv, phone),
        Lacking(slot, needed, pdv, phone));
    }
  }

  const ALL_SLOTS := [PdvCode, Phone, NewPhone]

  function Built(action: Action, candidates: seq<Candidate>, confidence: real): Operation {
    var pdv, phone := FirstWith(candidates, PdvOrUnknown), FirstWith(candidates, PhoneOrUnknown);
    var needed := ActionSlots(action);
    Operation(action,
              if PdvCode in needed && pdv.Some? then Some(pdv.value.value) else None,
              if (Phone in needed || NewPhone in needed) && phone.Some? then Some(phone.value.value) else None,
              MissingFor(ALL_SLOTS, needed, pdv, phone), EvidenceFor(ALL_SLOTS, needed, pdv, phone), confidence)
  }

  // ---------------------------------------------------------------------------
  // Checking an operation's fields
  // ---------------------------------------------------------------------------

  datatype Reason = MissingField(slot: Slot) | InvalidPdv | InvalidPhone | UnsupportedAction

  /** The slots the domain requires of an action. */
  function RequiredFields(action: Action): seq<Slot> {
    if action == VpnAccess then [PdvCode, Phone]
    else if action == OtpNumberChange then [PdvCode, NewPhone]
    else if action == AccountUnblock || action == PasswordReset then [PdvCode]
    else []
  }

  function FieldOf(slot: Slot, pdvCode: Option<string>, phone: Option<string>): Option<string> {
    if slot == PdvCode then pdvCode else phone
  }

  predicate Blank(field: Option<string>) {
    field.None? || field.value == ""
  }

  function ReasonFor(slot: Slot, pdvCode: Option<string>, phone: Option<string>): seq<Reason> {
    if Blank(FieldOf(slot, pdvCode, phone)) then [MissingField(slot)] else []
  }

  function MissingReasons(slots: seq<Slot>, pdvCode: Option<string>, phone: Option<string>): seq<Reason> {
    if slots == [] then [] else ReasonFor(slots[0], pdvCode, phone) + MissingReasons(slots[1..], pdvCode, phone)
  }

  lemma {:induction false} OneMoreReason(slots: seq<Slot>, slot: Slot, pdvCode: Option<string>, phone: Option<string>)
    ensures MissingReasons(slots + [slot], pdvCode, phone) ==
      MissingReasons(slots, pdvCode, phone) + ReasonFor(slot, pdvCode, phone)
  {
    hide ReasonFor;
    if slots == [] {
      assert slots + [slot] == [slot] && [slot][1..] == [];
    } else {
      var first, rest := ReasonFor(slots[0], pdvCode, phone), slots[1..];
      assert (slots + [slot])[0] == slots[0] && (slots + [slot])[1..] == rest + [slot];
      OneMoreReason(rest, slot, pdvCode, phone);
      Regroup(first, MissingReasons(rest, pdvCode, phone), ReasonFor(slot, pdvCode, phone));
    }
  }

  function Reasons(action: Action, pdvCode: Option<string>, phone: Option<string>,
                   pdvPattern: string -> bool, phonePattern: string -> bool): seq<Reason>
  {
    MissingReasons(RequiredFields(action), pdvCode, phone)
    + (if pdvCode.Some? && !pdvPattern(pdvCode.value) then [InvalidPdv] else [])
    + (if phone.Some? && !phonePattern(phone.value) then [InvalidPhone] else [])
    + (if action == Unknown then [UnsupportedAction] else [])
  }

  method ValidateOperationFields(action: Action, pdvCode: Option<string>, phone: Option<string>,
                                 pdvPattern: string -> bool, phonePattern: string -> bool)
    returns (passed: bool, reasons: seq<Reason>)
    ensures reasons == Reasons(action, pdvCode, phone, pdvPattern, phonePattern) && passed == (reasons == [])
    ensures passed <==> Acceptable(action, pdvCode, phone, pdvPattern, phonePattern)
  {
    hide MissingReasons, RequiredFields, Acceptable;
    reasons := [];
    var required := RequiredFields(action);
    NoReason(pdvCode, phone);
    for i := 0 to |required|
      invariant reasons == MissingReasons(required[..i], pdvCode, phone)
    {
      assert required[..i + 1] == required[..i] + [required[i]];
      OneMoreReason(required[..i], required[i], pdvCode, phone);
      if Blank(FieldOf(required[i], pdvCode, phone)) {
        reasons := reasons + [MissingField(required[i])];
      }
    }
    assert required[..|required|] == required;
    if pdvCode.Some? && !pdvPattern(pdvCode.value) {
      reasons := reasons + [InvalidPdv];
    }
    if phone.Some? && !phonePattern(phone.value) {
      reasons := reasons + [InvalidPhone];
    }
    if action == Unknown {
      reasons := reasons + [UnsupportedAction];
    }
    passed := reasons == [];
    PassesWhen(action, pdvCode, phone, pdvPattern, phonePattern);
  }

  lemma NoReason(pdvCode: Option<string>, phone: Option<string>)
    ensures MissingReasons([], pdvCode, phone) == []
  {
  }

  /** A supported action with every required field filled in and every given field in its format. */
  predicate Acceptable(action: Action, pdvCode: Option<string>, phone: Option<string>,
                       pdvPattern: string -> bool, phonePattern: string -> bool)
  {
    && action != Unknown
    && (forall slot :: slot in RequiredFields(action) ==> !Blank(FieldOf(slot, pdvCode, phone)))
    && (pdvCode.Some? ==> pdvPattern(pdvCode.value)) && (phone.Some? ==> phonePattern(phone.value))
  }

  lemma PassesWhen(action: Action, pdvCode: Option<string>, phone: Option<string>,
                   pdvPattern: string -> bool, phonePattern: string -> bool)
    ensures Reasons(action, pdvCode, phone, pdvPattern, phonePattern) == [] <==>
      Acceptable(action, pdvCode, phone, pdvPattern, phonePattern)
  {
    hide MissingReasons, RequiredFields, Blank, FieldOf;
    NothingMissing(RequiredFields(action), pdvCode, phone);
  }

  lemma {:induction false} NothingMissing(slots: seq<Slot>, pdvCode: Option<string>, phone: Option<string>)
    ensures MissingReasons(slots, pdvCode, phone) == [] <==>
      forall slot :: slot in slots ==> !Blank(FieldOf(slot, pdvCode, phone))
  {
    if slots != [] {
      NothingMissing(slots[1..], pdvCode, phone);
      assert forall slot :: slot in slots <==> slot == slots[0] || slot in slots[1..];
    }
  }
}
