/** The builder and the validator agree, and a candidate's hint says which format its value has. */
module NumericPromises {
  import opened Spans
  import opened Wrappers
  import opened Whitespace
  import opened NumericFields

  // ---------------------------------------------------------------------------
  // Normal forms
  // ---------------------------------------------------------------------------

  lemma {:induction false} GroupsCount(digit: char -> bool, s: string, k: nat)
    requires Digits(digit) && Groups(digit, s, k)
    ensures |OnlyDigits(digit, s)| == k && (s != "" ==> digit(s[|s| - 1]))
  {
    if s != "" {
      assert Separator(s[0]) ==> !digit(s[0]);
      GroupsCount(digit, s[1..], if digit(s[0]) then k - 1 else k);
    }
  }

  lemma {:induction false} OnlyDigitsKeeps(digit: char -> bool, s: string)
    ensures AllDigits(digit, OnlyDigits(digit, s)) && (AllDigits(digit, s) ==> OnlyDigits(digit, s) == s)
  {
    if s != "" {
      OnlyDigitsKeeps(digit, s[1..]);
    }
  }

  lemma PlusNotDigit(digit: char -> bool, s: string)
    requires Digits(digit)
    ensures OnlyDigits(digit, "+" + s) == OnlyDigits(digit, s)
    ensures !IsSpace('+')
  {
    assert ("+" + s)[1..] == s;
  }

  function Signed(plus: bool, digits: string): string {
    (if plus then "+" else "") + digits
  }

  lemma SignSplit(digit: char -> bool, raw: string)
    requires Digits(digit) && raw != ""
    ensures raw == Signed("+" <= raw, Unsigned(raw)) && OnlyDigits(digit, raw) == OnlyDigits(digit, Unsigned(raw))
  {
    hide IsSpace, Separator;
    if raw[0] == '+' {
      assert raw == "+" + raw[1..];
      PlusNotDigit(digit, raw[1..]);
    }
  }

  lemma MatchCounts(digit: char -> bool, raw: string)
    requires Digits(digit) && Numeric(digit, raw)
    ensures var s := Unsigned(raw);
      raw != "" && 8 <= |OnlyDigits(digit, s)| <= 15 && s != "" && digit(s[0]) && digit(s[|s| - 1])
  {
    hide Groups;
    var s := Unsigned(raw);
    var k :| 7 <= k <= 14 && Groups(digit, s[1..], k);
    GroupsCount(digit, s[1..], k);
  }

  lemma {:induction false} DigitsGroup(digit: char -> bool, s: string)
    requires AllDigits(digit, s)
    ensures Groups(digit, s, |s|)
  {
    if s != "" {
      DigitsGroup(digit, s[1..]);
    }
  }

  /** Every number of 8 to 15 digits matches, with a plus before it or not. */
  lemma DigitsMatch(digit: char -> bool, s: string)
    requires Digits(digit) && AllDigits(digit, s) && 8 <= |s| <= 15
    ensures Numeric(digit, s) && Numeric(digit, "+" + s)
  {
    hide Groups;
    DigitsGroup(digit, s[1..]);
    assert Unsigned(s) == s && Unsigned("+" + s) == s;
  }

  /** What a matched number is normalised to: its sign and its 8 to 15 digits, nothing else. */
  lemma NumericNormal(digit: char -> bool, raw: string)
    requires Digits(digit) && Numeric(digit, raw)
    ensures var digits := OnlyDigits(digit, Unsigned(raw));
      && NormalizeNumeric(digit, Some(raw), true) == Some(Signed("+" <= raw, digits))
      && 8 <= |digits| <= 15 && AllDigits(digit, digits)
  {
    hide Groups, Digits, Trimmed, Strip, OnlyDigits, Numeric, Unsigned;
    var s := Unsigned(raw);
    MatchCounts(digit, raw);
    OnlyDigitsKeeps(digit, s);
    MatchTrimmed(digit, raw, s);
    StripTrims(raw);
    SignSplit(digit, raw);
    assert "" + OnlyDigits(digit, s) == OnlyDigits(digit, s);
  }

  lemma MatchTrimmed(digit: char -> bool, raw: string, s: string)
    requires Digits(digit) && raw != "" && s == Unsigned(raw) && s != "" && digit(s[0]) && digit(s[|s| - 1])
    ensures Trimmed(raw)
  {
    hide IsSpace;
    assert raw[|raw| - 1] == s[|s| - 1];
    PlusNotDigit(digit, "");
  }

  lemma {:induction false} SignedNormal(digit: char -> bool, plus: bool, digits: string)
    requires Digits(digit) && digits != "" && AllDigits(digit, digits)
    ensures NormalizeNumeric(digit, Some(Signed(plus, digits)), true) == Some(Signed(plus, digits))
    ensures Unsigned(Signed(plus, digits)) == digits && ("+" <= Signed(plus, digits) <==> plus)
  {
    hide IsSpace, Trimmed, Strip;
    var text := Signed(plus, digits);
    assert digits[0] != '+';
    assert Unsigned(text) == digits;
    MatchTrimmed(digit, text, digits);
    StripTrims(text);
    OnlyDigitsKeeps(digit, digits);
    if plus {
      PlusNotDigit(digit, digits);
    }
  }

  /** Normalising a second time changes nothing. */
  lemma NormalizedTwice(digit: char -> bool, raw: string)
    requires Digits(digit) && Numeric(digit, raw)
    ensures var v := NormalizeNumeric(digit, Some(raw), true);
      v.Some? && NormalizeNumeric(digit, v, true) == v
  {
    hide NormalizeNumeric, Numeric, OnlyDigits, IsSpace;
    NumericNormal(digit, raw);
    SignedNormal(digit, "+" <= raw, OnlyDigits(digit, Unsigned(raw)));
  }

  // ---------------------------------------------------------------------------
  // Hints
  // ---------------------------------------------------------------------------

  /** The hint of a candidate names the format its value is in; both formats exclude each other, and only
      eight digits after a plus are in neither. */
  ghost predicate WellHinted(digit: char -> bool, c: Candidate) {
    && (c.hint == PdvOrUnknown <==> IsPdv(digit, c.value))
    && (c.hint == PhoneOrUnknown <==> IsPhone(digit, c.value))
    && (c.hint == NumericUnknown <==> |c.value| == 9 && c.value[0] == '+')
    && AllDigits(digit, Unsigned(c.value)) && c.value != ""
  }

  lemma SignedHint(digit: char -> bool, plus: bool, digits: string)
    requires Digits(digit) && 8 <= |digits| <= 15 && AllDigits(digit, digits)
    ensures var v := Signed(plus, digits);
      && (HintOf(v) == PdvOrUnknown <==> IsPdv(digit, v)) && (HintOf(v) == PhoneOrUnknown <==> IsPhone(digit, v))
      && (HintOf(v) == NumericUnknown <==> |v| == 9 && v[0] == '+')
  {
    hide IsSpace;
    var v := Signed(plus, digits);
    SignedNormal(digit, plus, digits);
    if plus {
      assert v[0] == '+' && !digit('+');
    } else {
      assert v == digits && digit(v[0]);
    }
  }

  /** The text `s` holds `t`. */
  ghost predicate Holds(s: string, t: string) {
    exists i, j :: 0 <= i <= j <= |s| && s[i..j] == t
  }

  lemma CandidateHint(digit: char -> bool, source: string, span: Span)
    requires Digits(digit) && span.start <= span.end <= |source| && Numeric(digit, source[span.start..span.end])
    ensures var cs := CandidateAt(digit, source, span);
      && |cs| == 1 && WellHinted(digit, cs[0]) && Holds(cs[0].context, cs[0].raw)
      && cs[0].raw == source[span.start..span.end]
      && Unsigned(cs[0].value) == OnlyDigits(digit, Unsigned(cs[0].raw))
  {
    hide Numeric, NormalizeNumeric, IsSpace, HintOf, IsPdv, IsPhone, OnlyDigits, ContextOf, Holds;
    var raw := source[span.start..span.end];
    var digits := OnlyDigits(digit, Unsigned(raw));
    NumericNormal(digit, raw);
    SignedNormal(digit, "+" <= raw, digits);
    SignedHint(digit, "+" <= raw, digits);
    ContextHolds(source, span);
  }

  lemma Slice<T>(s: seq<T>, a: nat, b: nat, c: nat, d: nat)
    requires a <= c <= d <= b <= |s|
    ensures s[a..b][c - a..d - a] == s[c..d]
  {
    var t := s[a..b];
    assert |t| == b - a;
    assert forall k :: 0 <= k < |t| ==> t[k] == s[a + k];
    assert t[c - a..d - a] == s[c..d];
  }

  lemma ContextHolds(source: string, span: Span)
    requires span.start <= span.end <= |source|
    ensures Holds(ContextOf(source, span), source[span.start..span.end])
  {
    var from: nat := if span.start > 60 then span.start - 60 else 0;
    var until: nat := if span.end + 60 < |source| then span.end + 60 else |source|;
    Slice(source, from, until, span.start, span.end);
    assert ContextOf(source, span) == source[from..until];
  }

  /** One candidate for each match, in order, each well hinted and quoted with its surroundings. */
  lemma {:induction false} CandidatesHinted(digit: char -> bool, source: string, spans: seq<Span>)
    requires Digits(digit) && Matches(digit, source, spans)
    ensures var cs := Candidates(digit, source, spans);
      && |cs| == |spans|
      && (forall i :: 0 <= i < |cs| ==> WellHinted(digit, cs[i]) && Holds(cs[i].context, cs[i].raw))
      && (forall i :: 0 <= i < |cs| ==> cs[i].start == spans[i].start && cs[i].end == spans[i].end)
  {
    hide WellHinted, Holds, Numeric, Digits, NormalizeNumeric, HintOf, ContextOf;
    if spans != [] {
      CandidateHint(digit, source, spans[0]);
      CandidatesHinted(digit, source, spans[1..]);
      var rest := Candidates(digit, source, spans[1..]);
      forall i | 1 <= i < |spans|
        ensures Candidates(digit, source, spans)[i] == rest[i - 1] && spans[i] == spans[1..][i - 1]
      {
      }
    }
  }

  // ---------------------------------------------------------------------------
  // The first candidate of a kind
  // ---------------------------------------------------------------------------

  /** The candidate at `k` is the first one with the hint. */
  ghost predicate IsFirst(candidates: seq<Candidate>, hint: Hint, k: nat) {
    k < |candidates| && candidates[k].hint == hint && forall i :: 0 <= i < k ==> candidates[i].hint != hint
  }

  lemma {:induction false} FirstWithFirst(candidates: seq<Candidate>, hint: Hint)
    ensures var c := FirstWith(candidates, hint);
      && (c.None? <==> forall i :: 0 <= i < |candidates| ==> candidates[i].hint != hint)
      && (c.Some? ==> exists k: nat :: IsFirst(candidates, hint, k) && candidates[k] == c.value)
  {
    if candidates != [] && candidates[0].hint != hint {
      FirstWithFirst(candidates[1..], hint);
      var c := FirstWith(candidates[1..], hint);
      if c.Some? {
        var k: nat :| IsFirst(candidates[1..], hint, k) && candidates[1..][k] == c.value;
        assert IsFirst(candidates, hint, k + 1) && candidates[k + 1] == c.value;
      }
    } else if candidates != [] {
      assert IsFirst(candidates, hint, 0);
    }
  }

  lemma FirstHinted(digit: char -> bool, candidates: seq<Candidate>, hint: Hint)
    requires forall c :: c in candidates ==> WellHinted(digit, c)
    ensures var c := FirstWith(candidates, hint);
      c.Some? ==> c.value.hint == hint && WellHinted(digit, c.value)
  {
    hide WellHinted;
    FirstWithFirst(candidates, hint);
  }

  // ---------------------------------------------------------------------------
  // Agreement
  // ---------------------------------------------------------------------------

  lemma TablesAgree(action: Action)
    ensures ActionSlots(action) == RequiredFields(action)
  {
  }

  function EvidenceSlots(evidence: seq<Evidence>): seq<Slot> {
    if evidence == [] then [] else [evidence[0].slot] + EvidenceSlots(evidence[1..])
  }

  function AsReasons(slots: seq<Slot>): seq<Reason> {
    if slots == [] then [] else [MissingField(slots[0])] + AsReasons(slots[1..])
  }

  /** The two lists, slot by slot. */
  lemma SlotLists(needed: seq<Slot>, pdv: Option<Candidate>, phone: Option<Candidate>)
    ensures MissingFor(ALL_SLOTS, needed, pdv, phone) ==
      Lacking(PdvCode, needed, pdv, phone) + Lacking(Phone, needed, pdv, phone) + Lacking(NewPhone, needed, pdv, phone)
    ensures EvidenceFor(ALL_SLOTS, needed, pdv, phone) ==
      Quoted(PdvCode, needed, pdv, phone) + Quoted(Phone, needed, pdv, phone) + Quoted(NewPhone, needed, pdv, phone)
  {
    hide MissingFor, EvidenceFor, Lacking, Quoted;
    FirstSlot(needed, pdv, phone);
    OneMoreSlot([PdvCode], Phone, needed, pdv, phone);
    OneMoreSlot([PdvCode, Phone], NewPhone, needed, pdv, phone);
    assert [PdvCode] + [Phone] == [PdvCode, Phone];
    assert [PdvCode, Phone] + [NewPhone] == ALL_SLOTS;
  }

  function Quote(slot: Slot, c: Option<Candidate>): seq<Evidence> {
    if c.None? then [] else [Evidence(slot, c.value.value, c.value.context)]
  }

  function Lack(slot: Slot, c: Option<Candidate>): seq<Slot> {
    if c.None? then [slot] else []
  }

  /** What the builder's two lists are for each action. */
  lemma BuiltLists(action: Action, candidates: seq<Candidate>, confidence: real)
    ensures var op := Built(action, candidates, confidence);
      var pdv, phone := FirstWith(candidates, PdvOrUnknown), FirstWith(candidates, PhoneOrUnknown);
      match action
      case VpnAccess => op.missing == Lack(PdvCode, pdv) + Lack(Phone, phone) &&
        op.evidence == Quote(PdvCode, pdv) + Quote(Phone, phone)
      case OtpNumberChange => op.missing == Lack(PdvCode, pdv) + Lack(NewPhone, phone) &&
        op.evidence == Quote(PdvCode, pdv) + Quote(NewPhone, phone)
      case AccountUnblock => op.missing == Lack(PdvCode, pdv) && op.evidence == Quote(PdvCode, pdv)
      case PasswordReset => op.missing == Lack(PdvCode, pdv) && op.evidence == Quote(PdvCode, pdv)
      case Unknown => op.missing == [] && op.evidence == []
  {
    hide MissingFor, EvidenceFor, FirstWith;
    var pdv, phone := FirstWith(candidates, PdvOrUnknown), FirstWith(candidates, PhoneOrUnknown);
    var needed := ActionSlots(action);
    SlotLists(needed, pdv, phone);
  }

  /** The slots are shared out between what is lacking and what is quoted: each is in one list and not in the
      other, nothing else is in either, and the lengths leave no room for a repetition. */
  ghost predicate Shared(missing: seq<Slot>, evidence: seq<Evidence>, slots: seq<Slot>) {
    var quoted := EvidenceSlots(evidence);
    && |missing| + |quoted| == |slots|
    && (forall slot :: slot in slots ==> (slot in missing <==> slot !in quoted))
    && (forall slot :: slot in missing || slot in quoted ==> slot in slots)
  }

  /** Every required slot is in exactly one of the two lists, once, and no other slot is in either. */
  lemma SlotsPartitioned(action: Action, candidates: seq<Candidate>, confidence: real)
    ensures var op := Built(action, candidates, confidence);
      Shared(op.missing, op.evidence, RequiredFields(action))
  {
    hide Built, FirstWith, Shared, Lack, Quote;
    BuiltLists(action, candidates, confidence);
    var pdv, phone := FirstWith(candidates, PdvOrUnknown), FirstWith(candidates, PhoneOrUnknown);
    PairShared(PdvCode, Phone, pdv, phone);
    PairShared(PdvCode, NewPhone, pdv, phone);
    OneShared(PdvCode, pdv);
    NoneShared();
  }

  lemma NoneShared()
    ensures Shared([], [], [])
  {
  }

  lemma OneShared(slot: Slot, c: Option<Candidate>)
    ensures Shared(Lack(slot, c), Quote(slot, c), [slot])
  {
    hide EvidenceSlots;
    OnePartitioned(slot, c);
  }

  lemma PairShared(a: Slot, b: Slot, c: Option<Candidate>, d: Option<Candidate>)
    requires a != b
    ensures Shared(Lack(a, c) + Lack(b, d), Quote(a, c) + Quote(b, d), [a, b])
  {
    hide EvidenceSlots, Quote;
    PairPartitioned(a, b, c, d);
  }

  lemma OnePartitioned(slot: Slot, c: Option<Candidate>)
    ensures EvidenceSlots(Quote(slot, c)) == if c.None? then [] else [slot]
  {
  }

  lemma PairPartitioned(a: Slot, b: Slot, c: Option<Candidate>, d: Option<Candidate>)
    ensures EvidenceSlots(Quote(a, c) + Quote(b, d)) == (if c.None? then [] else [a]) + (if d.None? then [] else [b])
  {
    if c.Some? {
      assert (Quote(a, c) + Quote(b, d))[1..] == Quote(b, d);
    } else {
      assert Quote(a, c) + Quote(b, d) == Quote(b, d);
    }
    OnePartitioned(b, d);
  }

  /** The evidence for a slot quotes the value that the operation carries for it. */
  lemma EvidenceIsField(action: Action, candidates: seq<Candidate>, confidence: real)
    ensures var op := Built(action, candidates, confidence);
      forall e :: e in op.evidence ==> FieldOf(e.slot, op.pdvCode, op.phone) == Some(e.value)
  {
    hide FirstWith, EvidenceFor, MissingFor;
    BuiltLists(action, candidates, confidence);
  }

  /** Evidence quotes the first candidate of its kind: its value and the text around it. */
  lemma EvidenceQuotes(action: Action, candidates: seq<Candidate>, confidence: real)
    ensures forall e :: e in Built(action, candidates, confidence).evidence ==>
      exists k: nat :: IsFirst(candidates, if e.slot == PdvCode then PdvOrUnknown else PhoneOrUnknown, k)
                       && candidates[k].value == e.value && candidates[k].context == e.text
  {
    hide FirstWith, Built, IsFirst;
    BuiltLists(action, candidates, confidence);
    FirstWithFirst(candidates, PdvOrUnknown);
    FirstWithFirst(candidates, PhoneOrUnknown);
  }

  /** The text around a number reaches 60 characters to either side, or to the end of the mail. */
  lemma ContextReaches(source: string, span: Span)
    requires span.start <= span.end <= |source|
    ensures exists a, b :: 0 <= a <= span.start && span.end <= b <= |source| && ContextOf(source, span) == source[a..b]
                           && (a == 0 || span.start - a == 60) && (b == |source| || b - span.end == 60)
                           && span.start - a <= 60 && b - span.end <= 60
  {
    var a: nat := if span.start > 60 then span.start - 60 else 0;
    var b: nat := if span.end + 60 < |source| then span.end + 60 else |source|;
    assert ContextOf(source, span) == source[a..b];
  }

  /** A needed field is filled, in its format, exactly when a candidate of its kind was found. */
  lemma BuiltFields(digit: char -> bool, action: Action, candidates: seq<Candidate>, confidence: real)
    requires forall c :: c in candidates ==> WellHinted(digit, c)
    ensures var op := Built(action, candidates, confidence);
      var pdv, phone := FirstWith(candidates, PdvOrUnknown), FirstWith(candidates, PhoneOrUnknown);
      && (PdvCode in RequiredFields(action) ==> (Blank(op.pdvCode) <==> pdv.None?))
      && (Phone in RequiredFields(action) || NewPhone in RequiredFields(action) ==> (Blank(op.phone) <==> phone.None?))
      && (op.pdvCode.Some? ==> IsPdv(digit, op.pdvCode.value)) && (op.phone.Some? ==> IsPhone(digit, op.phone.value))
  {
    hide FirstWith, EvidenceFor, MissingFor, IsPdv, IsPhone;
    TablesAgree(action);
    FirstHinted(digit, candidates, PdvOrUnknown);
    FirstHinted(digit, candidates, PhoneOrUnknown);
  }

  lemma RequiredReasons(action: Action, pdvCode: Option<string>, phone: Option<string>)
    ensures MissingReasons(RequiredFields(action), pdvCode, phone) ==
      (if PdvCode in RequiredFields(action) && Blank(pdvCode) then [MissingField(PdvCode)] else [])
      + (if Phone in RequiredFields(action) && Blank(phone) then [MissingField(Phone)] else [])
      + (if NewPhone in RequiredFields(action) && Blank(phone) then [MissingField(NewPhone)] else [])
  {
    hide MissingReasons, Blank;
    NoReason(pdvCode, phone);
    OneMoreReason([], PdvCode, pdvCode, phone);
    OneMoreReason([PdvCode], Phone, pdvCode, phone);
    OneMoreReason([PdvCode], NewPhone, pdvCode, phone);
    assert [] + [PdvCode] == [PdvCode];
    assert [PdvCode] + [Phone] == [PdvCode, Phone];
    assert [PdvCode] + [NewPhone] == [PdvCode, NewPhone];
  }

  lemma LackReasons(a: Slot, b: Slot, c: Option<Candidate>, d: Option<Candidate>)
    ensures AsReasons(Lack(a, c)) == if c.None? then [MissingField(a)] else []
    ensures AsReasons(Lack(a, c) + Lack(b, d)) ==
      (if c.None? then [MissingField(a)] else []) + (if d.None? then [MissingField(b)] else [])
  {
    assert [b][1..] == [] && [a][1..] == [];
    if c.None? {
      assert (Lack(a, c) + Lack(b, d))[1..] == Lack(b, d);
    } else {
      assert Lack(a, c) + Lack(b, d) == Lack(b, d);
    }
  }

  lemma AsReasonsNone(slots: seq<Slot>)
    ensures AsReasons(slots) == [] <==> slots == []
  {
  }

  /** The missing slots of a built operation are the validator's reasons for its required fields. */
  lemma BuiltReasons(digit: char -> bool, action: Action, candidates: seq<Candidate>, confidence: real)
    requires forall c :: c in candidates ==> WellHinted(digit, c)
    ensures var op := Built(action, candidates, confidence);
      MissingReasons(RequiredFields(action), op.pdvCode, op.phone) == AsReasons(op.missing)
  {
    hide Built, FirstWith, IsPdv, IsPhone, AsReasons, MissingReasons, Lack, Quote, Blank;
    var op := Built(action, candidates, confidence);
    var pdv, phone := FirstWith(candidates, PdvOrUnknown), FirstWith(candidates, PhoneOrUnknown);
    BuiltLists(action, candidates, confidence);
    BuiltFields(digit, action, candidates, confidence);
    RequiredReasons(action, op.pdvCode, op.phone);
    LackReasons(PdvCode, Phone, pdv, phone);
    LackReasons(PdvCode, NewPhone, pdv, phone);
    AsReasonsNone(op.missing);
  }

  lemma {:induction false} MissingTold(slots: seq<Slot>, pdvCode: Option<string>, phone: Option<string>)
    ensures forall r :: r in MissingReasons(slots, pdvCode, phone) <==>
      r.MissingField? && r.slot in slots && Blank(if r.slot == PdvCode then pdvCode else phone)
  {
    hide Blank;
    if slots != [] {
      MissingTold(slots[1..], pdvCode, phone);
    }
  }

  /** Each reason says what is wrong: a required field is blank, a given one is out of its format, or the action
      is not supported. */
  lemma ReasonsTell(action: Action, pdvCode: Option<string>, phone: Option<string>,
                    pdvPattern: string -> bool, phonePattern: string -> bool)
    ensures var reasons := Reasons(action, pdvCode, phone, pdvPattern, phonePattern);
      && (forall slot :: MissingField(slot) in reasons <==>
            slot in RequiredFields(action) && Blank(if slot == PdvCode then pdvCode else phone))
      && (InvalidPdv in reasons <==> pdvCode.Some? && !pdvPattern(pdvCode.value))
      && (InvalidPhone in reasons <==> phone.Some? && !phonePattern(phone.value))
      && (UnsupportedAction in reasons <==> action == Unknown)
  {
    hide Blank, MissingReasons, RequiredFields;
    MissingTold(RequiredFields(action), pdvCode, phone);
  }

  lemma BuiltAction(action: Action, candidates: seq<Candidate>, confidence: real)
    ensures Built(action, candidates, confidence).action == action
    ensures Built(action, candidates, confidence).confidence == confidence
  {
    hide FirstWith, EvidenceFor, MissingFor;
  }

  /** The builder and the validator agree: with the default formats the reasons are exactly the missing slots. */
  lemma BuiltValidates(digit: char -> bool, action: Action, candidates: seq<Candidate>, confidence: real)
    requires forall c :: c in candidates ==> WellHinted(digit, c)
    ensures var op := Built(action, candidates, confidence);
      var reasons := Reasons(op.action, op.pdvCode, op.phone, s => IsPdv(digit, s), s => IsPhone(digit, s));
      && op.action == action && op.confidence == confidence
      && reasons == AsReasons(op.missing) + (if action == Unknown then [UnsupportedAction] else [])
      && (action != Unknown ==> (op.missing == [] <==> reasons == []))
  {
    hide Built, FirstWith, IsPdv, IsPhone, AsReasons, MissingReasons, RequiredFields, Blank;
    BuiltAction(action, candidates, confidence);
    BuiltFields(digit, action, candidates, confidence);
    BuiltReasons(digit, action, candidates, confidence);
    AsReasonsNone(Built(action, candidates, confidence).missing);
  }

  /** From the text of a mail: the operation built for a supported action passes the validator exactly when
      nothing is missing, which is exactly when the text holds the numbers the action needs. */
  lemma TextValidates(digit: char -> bool, source: string, spans: seq<Span>, action: Action, confidence: real)
    requires Digits(digit) && Matches(digit, source, spans) && action != Unknown
    ensures var cs := Candidates(digit, source, spans);
      var op := Built(action, cs, confidence);
      && op.action == action
      && (op.missing == [] <==>
            Acceptable(op.action, op.pdvCode, op.phone, s => IsPdv(digit, s), s => IsPhone(digit, s)))
      && (op.missing == [] <==>
            (exists i :: 0 <= i < |cs| && IsPdv(digit, cs[i].value)) &&
            (action in [VpnAccess, OtpNumberChange] ==> exists i :: 0 <= i < |cs| && IsPhone(digit, cs[i].value)))
  {
    hide FirstWith, EvidenceFor, MissingFor, Acceptable, Candidates, Numeric, Digits, Reasons, IsPdv, IsPhone, Built;
    var cs := Candidates(digit, source, spans);
    CandidatesHinted(digit, source, spans);
    var op := Built(action, cs, confidence);
    BuiltValidates(digit, action, cs, confidence);
    PassesWhen(action, op.pdvCode, op.phone, s => IsPdv(digit, s), s => IsPhone(digit, s));
    FirstWithFirst(cs, PdvOrUnknown);
    FirstWithFirst(cs, PhoneOrUnknown);
    BuiltLists(action, cs, confidence);
  }
}
