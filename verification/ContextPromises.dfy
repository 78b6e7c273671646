/** Every finalised context fits, fails closed, and keeps what it keeps whole. */
module ContextPromises {
  import opened Wrappers
  import opened Json
  import opened BoundedText
  import opened ContextBuilder

  // ---------------------------------------------------------------------------
  // The cap
  // ---------------------------------------------------------------------------

  lemma PlainString(s: string)
    requires forall i :: 0 <= i < |s| ==> Plain(s[i])
    ensures StringLength(s) == |s| + 2
  {
    PlainLength(s);
  }

  lemma WarningLengths()
    ensures StringLength(LIMIT_EXCEEDED) == 40 && StringLength(SECTIONS_OMITTED) == 32
  {
    hide StringLength;
    PlainString(LIMIT_EXCEEDED);
    PlainString(SECTIONS_OMITTED);
  }

  lemma ModeLengths()
    ensures StringLength(BOUNDED_CONTEXT) == 17
    ensures StringLength(Mode.Name()) == 6 && StringLength(LatestUserMessage.Name()) == 21
  {
    hide StringLength;
    PlainString(BOUNDED_CONTEXT);
    PlainString("mode");
    PlainString("latest_user_message");
  }

  lemma KeyLengths()
    ensures StringLength(AutomaticExecutionAllowed.Name()) == 29
    ensures StringLength(ContextSectionsOmitted.Name()) == 39
    ensures StringLength(ContextLimitWarnings.Name()) == 24
  {
    hide StringLength;
    PlainString("automatic_execution_allowed");
    PlainString("context_sections_omitted_due_to_limit");
    PlainString("context_limit_warnings");
  }

  lemma FieldsStep(f: Field, fs: Fields)
    requires fs != []
    ensures FieldsLength([f] + fs) == FieldLength(f) + 2 + FieldsLength(fs)
  {
    assert ([f] + fs)[1..] == fs;
  }

  lemma PairLength(v: Value, w: Value)
    ensures ItemsLength([v, w]) == Length(v) + 2 + Length(w)
  {
    assert [v, w][1..] == [w];
  }

  lemma EssentialLength()
    ensures Length(Arr(Strings(ESSENTIAL))) == 76
  {
    hide StringLength;
    WarningLengths();
    var items := Strings(ESSENTIAL);
    assert items == [Str(LIMIT_EXCEEDED), Str(SECTIONS_OMITTED)];
    PairLength(items[0], items[1]);
    assert items == [items[0], items[1]];
  }

  /** The envelope with the fallback mode is 243 characters long. */
  lemma EnvelopeLength(b: Builder)
    ensures Length(Obj(b.Envelope(BOUNDED_CONTEXT))) == 243
  {
    hide StringLength, FieldsLength, Strings;
    ModeLengths();
    KeyLengths();
    EssentialLength();
    EmptyLength();
    var e := b.Envelope(BOUNDED_CONTEXT);
    OneField(e[4]);
    FieldsStep(e[3], [e[4]]);
    FieldsStep(e[2], [e[3]] + [e[4]]);
    FieldsStep(e[1], [e[2]] + ([e[3]] + [e[4]]));
    FieldsStep(e[0], [e[1]] + ([e[2]] + ([e[3]] + [e[4]])));
    assert e == [e[0]] + ([e[1]] + ([e[2]] + ([e[3]] + [e[4]])));
  }

  lemma OneField(f: Field)
    ensures FieldsLength([f]) == FieldLength(f)
  {
  }

  lemma EmptyLength()
    ensures StringLength("") == 2
  {
  }

  lemma {:induction false} SearchFits(b: Builder, d: Fields, key: Key, original: string, low: int, high: int,
      best: string)
    requires b.Valid() && b.Fits(Set(d, key, Str(best)))
    ensures b.Fits(Set(d, key, Str(b.Search(d, key, original, low, high, best))))
    decreases high - low + 1
  {
    hide Length, Bounded;
    if low <= high {
      var limit := (low + high) / 2;
      var candidate := b.Shorten(original, limit);
      if b.Fits(Set(d, key, Str(candidate))) {
        SearchFits(b, d, key, original, limit + 1, high, candidate);
      } else {
        SearchFits(b, d, key, original, low, limit - 1, best);
      }
    }
  }

  lemma ShrunkFits(b: Builder, d: Fields, key: Key)
    requires b.Valid() && b.Shrunk(d, key).0
    ensures b.Fits(b.Shrunk(d, key).1)
  {
    hide Length;
    if b.HasText(d, key) {
      var original := Get(d, key).value.s;
      SearchFits(b, d, key, original, 0, |original|, "");
    }
  }

  lemma {:induction false} DropProseFits(b: Builder, d: Fields, keys: seq<Key>)
    requires b.DropProse(d, keys).Done?
    ensures b.Fits(b.DropProse(d, keys).fields)
    decreases |keys|
  {
    hide Length;
    if keys != [] && !b.Fits(Drop(d, keys[0])) {
      DropProseFits(b, Drop(d, keys[0]), keys[1..]);
    }
  }

  function Snipped(d: Fields, key: Key): Fields {
    if Get(d, key).Some? && Get(d, key).value.Arr? then Set(d, key, Arr(BlankedAll(Get(d, key).value.items))) else d
  }

  lemma {:induction false} BlankSnippetsFits(b: Builder, d: Fields, keys: seq<Key>)
    requires b.BlankSnippets(d, keys).Done?
    ensures b.Fits(b.BlankSnippets(d, keys).fields)
    decreases |keys|
  {
    hide Length;
    if keys != [] && !b.Fits(Snipped(d, keys[0])) {
      BlankSnippetsFits(b, Snipped(d, keys[0]), keys[1..]);
    }
  }

  lemma {:induction false} ShrinkTextsFits(b: Builder, d: Fields, keys: seq<Key>)
    requires b.Valid() && b.ShrinkTexts(d, keys).Done?
    ensures b.Fits(b.ShrinkTexts(d, keys).fields)
    decreases |keys|
  {
    hide Length;
    if b.Shrunk(d, keys[0]).0 {
      ShrunkFits(b, d, keys[0]);
    } else {
      ShrinkTextsFits(b, b.Shrunk(d, keys[0]).1, keys[1..]);
    }
  }

  lemma {:induction false} PopEntriesFits(b: Builder, d: Fields, keys: seq<Key>)
    requires b.PopEntries(d, keys).Done?
    ensures b.Fits(b.PopEntries(d, keys).fields)
    decreases |keys|
  {
    hide Length;
    if Get(d, keys[0]).Some? && Get(d, keys[0]).value.Arr? {
      var e := b.PopKey(d, keys[0], Get(d, keys[0]).value.items);
      if !b.Fits(e) {
        PopEntriesFits(b, e, keys[1..]);
      }
    } else {
      PopEntriesFits(b, d, keys[1..]);
    }
  }

  lemma ReducedFits(b: Builder, d: Fields, ws: seq<string>)
    requires b.Valid() && b.Reduced(d, ws).Done?
    ensures b.Fits(b.Reduced(d, ws).fields)
  {
    hide Length, CandidateKeys;
    var s1 := b.DropProse(b.Flagged(d, ws), PROSE);
    if s1.Done? {
      DropProseFits(b, b.Flagged(d, ws), PROSE);
    } else {
      ReducedFurtherFits(b, s1.fields);
    }
  }

  lemma ReducedFurtherFits(b: Builder, d: Fields)
    requires b.Valid() && b.ReducedFurther(d).Done?
    ensures b.Fits(b.ReducedFurther(d).fields)
  {
    hide Length, CandidateKeys;
    var s2 := b.BlankSnippets(d, CandidateKeys(d));
    if s2.Done? {
      BlankSnippetsFits(b, d, CandidateKeys(d));
    } else {
      var s3 := b.ShrinkTexts(s2.fields, TEXTS);
      if s3.Done? {
        ShrinkTextsFits(b, s2.fields, TEXTS);
      } else {
        PopEntriesFits(b, s3.fields, CandidateKeys(s3.fields) + COLLECTIONS);
      }
    }
  }

  // The envelope

  predicate EnvelopeKey(k: Key) {
    k.Mode? || k.LatestUserMessage? || k.AutomaticExecutionAllowed? || k.ContextSectionsOmitted? ||
    k.ContextLimitWarnings?
  }

  lemma EnvelopeGets(b: Builder, mode: string)
    ensures Get(b.Envelope(mode), LatestUserMessage) == Some(Str(""))
    ensures Get(b.Envelope(mode), AutomaticExecutionAllowed) == Some(Bool(false))
    ensures forall k :: !EnvelopeKey(k) ==> Get(b.Envelope(mode), k) == None
  {
    var e := b.Envelope(mode);
    assert e[1..][1..] == e[2..] && e[1..][1..][1..] == e[3..];
    assert Get(e[2..], AutomaticExecutionAllowed) == Some(Bool(false));
    assert Get(e[1..], AutomaticExecutionAllowed) == Some(Bool(false));
    forall k | !EnvelopeKey(k) ensures Get(e, k) == None {
      assert Get(e[4..], k) == None;
      assert Get(e[3..], k) == None;
      assert Get(e[2..], k) == None;
      assert Get(e[1..], k) == None;
    }
  }

  lemma BaseFits(b: Builder, d: Fields)
    requires b.Valid()
    ensures b.Fits(b.Base(d)) && Get(b.Base(d), LatestUserMessage) == Some(Str(""))
    ensures Get(b.Base(d), AutomaticExecutionAllowed) == Some(Bool(false))
    ensures forall k :: !EnvelopeKey(k) ==> Get(b.Base(d), k) == None
  {
    hide Length;
    EnvelopeLength(b);
    EnvelopeGets(b, b.ModeOf(d));
    EnvelopeGets(b, BOUNDED_CONTEXT);
    assert Set(b.Envelope(b.ModeOf(d)), Mode, Str(BOUNDED_CONTEXT)) == b.Envelope(BOUNDED_CONTEXT);
  }

  lemma {:induction false} AddWarningsKeeps(b: Builder, m: Fields, listed: seq<string>, ws: seq<string>)
    requires b.Fits(m)
    ensures b.Fits(b.AddWarnings(m, listed, ws))
    ensures forall k :: k != ContextLimitWarnings ==> Get(b.AddWarnings(m, listed, ws), k) == Get(m, k)
    decreases |ws|
  {
    hide Length;
    if ws != [] {
      var e := Set(m, ContextLimitWarnings, Arr(Strings(listed + [ws[0]])));
      if ws[0] !in ESSENTIAL && b.Fits(e) {
        AddWarningsKeeps(b, e, listed + [ws[0]], ws[1..]);
      } else {
        AddWarningsKeeps(b, m, listed, ws[1..]);
      }
    }
  }

  lemma {:induction false} AddReferencesKeeps(b: Builder, m: Fields, d: Fields, keys: seq<Key>)
    requires b.Fits(m)
    ensures b.Fits(b.AddReferences(m, d, keys))
    ensures forall k :: k !in keys ==> Get(b.AddReferences(m, d, keys), k) == Get(m, k)
    ensures forall k :: k in keys && Get(m, k) in {None, Get(d, k)} ==>
      Get(b.AddReferences(m, d, keys), k) in {None, Get(d, k)}
    decreases |keys|
  {
    hide Length;
    if keys != [] {
      var v := Get(d, keys[0]);
      if v.Some? && v.value != Null && b.Fits(Set(m, keys[0], v.value)) {
        AddReferencesKeeps(b, Set(m, keys[0], v.value), d, keys[1..]);
      } else {
        AddReferencesKeeps(b, m, d, keys[1..]);
      }
    }
  }

  // ---------------------------------------------------------------------------
  // What becomes of a list of records
  // ---------------------------------------------------------------------------

  /** The list is gone, as it was, or a prefix of its entries, each of them whole and unchanged. */
  ghost predicate ListCut(before: Option<Value>, after: Option<Value>) {
    || after == None
    || after == before
    || (before.Some? && before.value.Arr? && after.Some? && after.value.Arr? && after.value.items <= before.value.items)
  }

  /** A list of candidates with every snippet blanked. */
  function BlankedList(v: Option<Value>): Option<Value> {
    if v.Some? && v.value.Arr? then Some(Arr(BlankedAll(v.value.items))) else v
  }

  /** Candidates are cut as they are, or after all their snippets have been blanked. */
  ghost predicate CandidatesKept(before: Option<Value>, after: Option<Value>) {
    ListCut(before, after) || ListCut(BlankedList(before), after)
  }

  /** Everything in a record but its snippet is as it was. */
  ghost predicate RecordIntact(before: Value, after: Value) {
    if before.Obj? then after.Obj? && forall k :: k != SnippetContext ==> Get(after.fields, k) == Get(before.fields, k)
    else after == before
  }

  /** Blanking and compacting touch nothing in a candidate but its snippet, and leave that empty. */
  lemma SnippetsOnly(v: Value)
    ensures RecordIntact(v, Blanked(v)) && RecordIntact(v, Compact(v))
    ensures v.Obj? ==> Get(Compact(v).fields, SnippetContext) == Some(Str(""))
    ensures v.Obj? && Get(v.fields, SnippetContext).None? ==> Blanked(v) == v
    ensures v.Obj? ==>
      Get(Blanked(v).fields, SnippetContext).None? || !Truthy(Get(Blanked(v).fields, SnippetContext).value)
  {
  }

  function CompactAll(items: seq<Value>): (r: seq<Value>)
    ensures |r| == |items| && forall i :: 0 <= i < |items| ==> r[i] == Compact(items[i])
  {
    seq(|items|, i requires 0 <= i < |items| => Compact(items[i]))
  }

  /** The minimal envelope holds a prefix of the compact records, or none. */
  ghost predicate CompactKept(before: Option<Value>, after: Option<Value>) {
    || after == None
    || (before.Some? && before.value.Arr? && after.Some? && after.value.Arr? &&
        after.value.items <= CompactAll(before.value.items))
  }

  lemma {:induction false} RetainKeeps(b: Builder, m: Fields, key: Key, items: seq<Value>, k: nat, retained: seq<Value>)
    requires b.Fits(m) && k <= |items| && retained == CompactAll(items)[..k]
    requires Get(m, key) == if k == 0 then None else Some(Arr(retained))
    ensures b.Fits(b.Retain(m, key, retained, items[k..]))
    ensures forall j :: j != key ==> Get(b.Retain(m, key, retained, items[k..]), j) == Get(m, j)
    ensures CompactKept(Some(Arr(items)), Get(b.Retain(m, key, retained, items[k..]), key))
    decreases |items| - k
  {
    hide Length;
    if k < |items| {
      var more := retained + [Compact(items[k])];
      if b.Fits(Set(m, key, Arr(more))) {
        assert more == CompactAll(items)[..k + 1];
        RetainKeeps(b, Set(m, key, Arr(more)), key, items, k + 1, more);
        assert items[k..][1..] == items[k + 1..];
      }
    }
  }

  lemma {:induction false} RetainAllKeeps(b: Builder, m: Fields, d: Fields, keys: seq<Key>)
    requires forall k :: k in keys ==> Get(d, k).Some? && Get(d, k).value.Arr?
    requires forall i, j :: 0 <= i < j < |keys| ==> keys[i] != keys[j]
    requires b.Fits(m) && forall k :: k in keys ==> Get(m, k) == None
    ensures b.Fits(b.RetainAll(m, d, keys))
    ensures forall k :: k !in keys ==> Get(b.RetainAll(m, d, keys), k) == Get(m, k)
    ensures forall k :: k in keys ==> CompactKept(Get(d, k), Get(b.RetainAll(m, d, keys), k))
    decreases |keys|
  {
    hide Length, CompactKept;
    if keys != [] {
      var items := Get(d, keys[0]).value.items;
      assert items[0..] == items;
      assert CompactAll(items)[..0] == [];
      RetainKeeps(b, m, keys[0], items, 0, []);
      RetainAllKeeps(b, b.Retain(m, keys[0], [], items), d, keys[1..]);
    }
  }

  // ---------------------------------------------------------------------------
  // What becomes of a text
  // ---------------------------------------------------------------------------

  /** Some shortening of the text. */
  ghost predicate Shortened(b: Builder, original: string, s: string)
    requires b.Valid()
  {
    exists limit: int :: 0 <= limit <= |original| && s == b.Shorten(original, limit)
  }

  ghost predicate TextKept(b: Builder, original: string, before: Option<Value>, after: Option<Value>)
    requires b.Valid()
  {
    || after == before
    || after == Some(Str(""))
    || (after.Some? && after.value.Str? && Shortened(b, original, after.value.s))
  }

  lemma {:induction false} SearchShortens(b: Builder, d: Fields, key: Key, original: string, low: int, high: int,
      best: string)
    requires b.Valid() && 0 <= low && high <= |original| && (best == "" || Shortened(b, original, best))
    ensures var s := b.Search(d, key, original, low, high, best); s == "" || Shortened(b, original, s)
    decreases high - low + 1
  {
    hide Length, Bounded;
    if low <= high {
      var limit := (low + high) / 2;
      var candidate := b.Shorten(original, limit);
      if b.Fits(Set(d, key, Str(candidate))) {
        SearchShortens(b, d, key, original, limit + 1, high, candidate);
      } else {
        SearchShortens(b, d, key, original, low, limit - 1, best);
      }
    }
  }

  lemma {:induction false} ShrunkKeeps(b: Builder, d: Fields, key: Key)
    requires b.Valid()
    ensures forall k :: k != key ==> Get(b.Shrunk(d, key).1, k) == Get(d, k)
    ensures b.HasText(d, key) ==> TextKept(b, Get(d, key).value.s, Get(d, key), Get(b.Shrunk(d, key).1, key))
    ensures !b.HasText(d, key) ==> b.Shrunk(d, key).1 == d
    ensures !b.Shrunk(d, key).0 ==> !b.HasText(b.Shrunk(d, key).1, key)
  {
    hide Length, Bounded, Builder.Valid, Builder.Search, Builder.Fits, Shortened;
    if b.HasText(d, key) {
      var original := Get(d, key).value.s;
      SearchShortens(b, d, key, original, 0, |original|, "");
    }
  }

  /** Filling in the latest message again costs nothing: the search starts from a fitting blank. */
  lemma RefilledKeeps(b: Builder, m: Fields, latest: string)
    requires b.Valid() && b.Fits(m) && Get(m, LatestUserMessage) == Some(Str(""))
    ensures b.Fits(b.Refilled(m, latest))
    ensures forall k :: k != LatestUserMessage ==> Get(b.Refilled(m, latest), k) == Get(m, k)
    ensures TextKept(b, latest, Some(Str(latest)), Get(b.Refilled(m, latest), LatestUserMessage))
  {
    hide Length, Bounded;
    assert b.Shrunk(m, LatestUserMessage) == (true, m);
    if latest != "" {
      var e := Set(m, LatestUserMessage, Str(latest));
      SetSet(m, LatestUserMessage, Str(latest), Str(""));
      SetSame(m, LatestUserMessage, Str(""));
      assert Set(e, LatestUserMessage, Str("")) == m;
      ShrunkKeeps(b, e, LatestUserMessage);
      ShrunkFits(b, e, LatestUserMessage);
    }
  }

  // ---------------------------------------------------------------------------
  // What each reduction leaves alone
  // ---------------------------------------------------------------------------

  lemma {:induction false} DropProseKeeps(b: Builder, d: Fields, keys: seq<Key>, k: Key)
    ensures Get(b.DropProse(d, keys).fields, k) in {None, Get(d, k)}
    ensures k !in keys ==> Get(b.DropProse(d, keys).fields, k) == Get(d, k)
    ensures k in keys && b.DropProse(d, keys).More? ==> Get(b.DropProse(d, keys).fields, k) == None
    decreases |keys|
  {
    hide Length;
    if keys != [] && !b.Fits(Drop(d, keys[0])) {
      DropProseKeeps(b, Drop(d, keys[0]), keys[1..], k);
    }
  }

  lemma BlankedTwice(v: Option<Value>)
    ensures BlankedList(BlankedList(v)) == BlankedList(v)
  {
    if v.Some? && v.value.Arr? {
      var once := BlankedAll(v.value.items);
      forall i | 0 <= i < |once| ensures Blanked(once[i]) == once[i] {
        BlankTwice(v.value.items[i]);
      }
      assert BlankedAll(once) == once;
    }
  }

  lemma BlankTwice(v: Value)
    ensures Blanked(Blanked(v)) == Blanked(v)
  {
  }

  lemma SnippedList(d: Fields, key: Key, k: Key)
    ensures Get(Snipped(d, key), k) == if k == key then BlankedList(Get(d, k)) else Get(d, k)
  {
  }

  lemma {:induction false} BlankSnippetsKeeps(b: Builder, d: Fields, keys: seq<Key>, k: Key)
    ensures Get(b.BlankSnippets(d, keys).fields, k) in {Get(d, k), BlankedList(Get(d, k))}
    ensures k !in keys ==> Get(b.BlankSnippets(d, keys).fields, k) == Get(d, k)
    decreases |keys|
  {
    hide Length, BlankedList;
    if keys != [] {
      SnippedList(d, keys[0], k);
      BlankedTwice(Get(d, k));
      if !b.Fits(Snipped(d, keys[0])) {
        BlankSnippetsKeeps(b, Snipped(d, keys[0]), keys[1..], k);
      }
    }
  }

  lemma {:induction false} ShrinkTextsKeeps(b: Builder, d: Fields, keys: seq<Key>, k: Key)
    requires b.Valid() && forall i, j :: 0 <= i < j < |keys| ==> keys[i] != keys[j]
    ensures k !in keys ==> Get(b.ShrinkTexts(d, keys).fields, k) == Get(d, k)
    ensures k in keys && !b.HasText(d, k) ==> Get(b.ShrinkTexts(d, keys).fields, k) == Get(d, k)
    ensures k in keys && b.HasText(d, k) ==>
      TextKept(b, Get(d, k).value.s, Get(d, k), Get(b.ShrinkTexts(d, keys).fields, k))
    decreases |keys|
  {
    hide Length, Bounded;
    if keys != [] {
      var e := b.Shrunk(d, keys[0]).1;
      ShrunkKeeps(b, d, keys[0]);
      if !b.Shrunk(d, keys[0]).0 {
        ShrinkTextsKeeps(b, e, keys[1..], k);
      }
    }
  }

  lemma {:induction false} PopEntriesKeeps(b: Builder, d: Fields, keys: seq<Key>, k: Key, before: Option<Value>)
    requires ListCut(before, Get(d, k))
    ensures ListCut(before, Get(b.PopEntries(d, keys).fields, k))
    ensures k !in keys ==> Get(b.PopEntries(d, keys).fields, k) == Get(d, k)
    decreases |keys|
  {
    hide Length, ListCut;
    if keys != [] {
      if Get(d, keys[0]).Some? && Get(d, keys[0]).value.Arr? {
        var items := Get(d, keys[0]).value.items;
        var e := b.PopKey(d, keys[0], items);
        if keys[0] == k {
          CutFurther(before, items, b.Popped(d, k, items));
        }
        if !b.Fits(e) {
          PopEntriesKeeps(b, e, keys[1..], k, before);
        }
      } else {
        PopEntriesKeeps(b, d, keys[1..], k, before);
      }
    }
  }

  lemma CutFurther(before: Option<Value>, items: seq<Value>, rest: seq<Value>)
    requires ListCut(before, Some(Arr(items))) && rest <= items
    ensures ListCut(before, Some(Arr(rest))) && ListCut(before, None)
  {
  }

  // ---------------------------------------------------------------------------
  // The promises
  // ---------------------------------------------------------------------------

  lemma EnvelopeGrows(b: Builder, d: Fields, ws: seq<string>) returns (m: Fields)
    requires b.Valid()
    ensures m == b.AddReferences(b.AddWarnings(b.Base(d), ESSENTIAL, ws), d, REFERENCES)
    ensures b.Fits(m) && Get(m, LatestUserMessage) == Some(Str(""))
    ensures Get(m, AutomaticExecutionAllowed) == Some(Bool(false))
    ensures forall k :: k in REFERENCES ==> Get(m, k) in {None, Get(d, k)}
    ensures forall k :: !EnvelopeKey(k) && k !in REFERENCES ==> Get(m, k) == None
  {
    hide Length, Bounded, Builder.Valid, Builder.Fits, Builder.Base, Builder.AddWarnings, Builder.AddReferences,
      Strings;
    var m0 := b.Base(d);
    BaseFits(b, d);
    var m1 := b.AddWarnings(m0, ESSENTIAL, ws);
    AddWarningsKeeps(b, m0, ESSENTIAL, ws);
    m := b.AddReferences(m1, d, REFERENCES);
    AddReferencesKeeps(b, m1, d, REFERENCES);
  }

  lemma EnvelopeRetains(b: Builder, d: Fields, m: Fields) returns (r: Fields)
    requires b.Valid() && b.Fits(m) && forall k :: k in CANDIDATES ==> Get(m, k) == None
    ensures r == b.RetainAll(m, d, CandidateKeys(d)) && b.Fits(r)
    ensures forall k :: k in CANDIDATES ==> CompactKept(Get(d, k), Get(r, k))
    ensures forall k :: k !in CANDIDATES ==> Get(r, k) == Get(m, k)
  {
    hide Length, Bounded, CompactKept;
    r := b.RetainAll(m, d, CandidateKeys(d));
    RetainAllKeeps(b, m, d, CandidateKeys(d));
    forall k | k in CANDIDATES && k !in CandidateKeys(d) ensures CompactKept(Get(d, k), Get(r, k)) {
      NoneKept(Get(d, k));
    }
  }

  /** The envelope always fits, so the builder's last check never raises. */
  lemma MinimalFits(b: Builder, d: Fields, warnings: seq<string>)
    requires b.Valid()
    ensures b.Fits(b.Minimal(d, warnings))
    ensures Get(b.Minimal(d, warnings), AutomaticExecutionAllowed) == Some(Bool(false))
    ensures TextKept(b, b.LatestText(d), Some(Str(b.LatestText(d))), Get(b.Minimal(d, warnings), LatestUserMessage))
    ensures forall k :: k in CANDIDATES ==> CompactKept(Get(d, k), Get(b.Minimal(d, warnings), k))
    ensures forall k :: k in REFERENCES ==> Get(b.Minimal(d, warnings), k) in {None, Get(d, k)}
    ensures forall k :: !EnvelopeKey(k) && k !in CANDIDATES && k !in REFERENCES ==>
      Get(b.Minimal(d, warnings), k) == None
  {
    hide Length, Bounded, Builder.Valid, Builder.Fits, Builder.Base, Builder.AddWarnings, Builder.AddReferences,
      Builder.RetainAll, Builder.Refilled, TextKept, CompactKept, WithoutRepeats;
    var m := EnvelopeGrows(b, d, WithoutRepeats(warnings));
    var r := EnvelopeRetains(b, d, m);
    RefilledKeeps(b, r, b.LatestText(d));
    assert b.Minimal(d, warnings) == b.Refilled(r, b.LatestText(d));
  }

  lemma NoneKept(before: Option<Value>)
    ensures CompactKept(before, None)
  {
  }

  /** For every context, warning list and cap, the finalised context is within the cap. */
  lemma FinalizedFits(b: Builder, d: Fields, ws: seq<string>)
    requires b.Valid()
    ensures b.Fits(b.Finalized(d, ws))
  {
    hide Length;
    if !b.Fits(Warned(d, ws)) {
      if b.Reduced(d, ws).Done? {
        ReducedFits(b, d, ws);
      } else {
        MinimalFits(b, d, ws + ESSENTIAL);
      }
    }
  }

  /** Finalising a finalised context changes nothing. */
  lemma FinalizedTwice(b: Builder, d: Fields, ws: seq<string>)
    requires b.Valid()
    ensures b.Finalized(b.Finalized(d, ws), []) == b.Finalized(d, ws)
  {
    hide Length;
    FinalizedFits(b, d, ws);
    assert Warned(b.Finalized(d, ws), []) == b.Finalized(d, ws);
  }

  lemma FlaggedKeeps(b: Builder, d: Fields, ws: seq<string>)
    ensures Get(b.Flagged(d, ws), AutomaticExecutionAllowed) == Some(Bool(false))
    ensures forall k :: !EnvelopeKey(k) || k == LatestUserMessage || k == Mode ==>
      Get(b.Flagged(d, ws), k) == Get(d, k)
  {
  }

  /** What the reductions before the envelope may do to any one key. */
  ghost predicate KeyKept(b: Builder, k: Key, before: Option<Value>, after: Option<Value>)
    requires b.Valid()
  {
    if k in PROSE then after in {None, before}
    else if k in TEXTS then
      after == before || (before.Some? && before.value.Str? && TextKept(b, before.value.s, before, after))
    else if k in CANDIDATES then CandidatesKept(before, after)
    else if k in COLLECTIONS then ListCut(before, after)
    else after == before
  }

  ghost predicate NotYetCut(k: Key, before: Option<Value>, now: Option<Value>) {
    if k in PROSE then now in {None, before}
    else if k in CANDIDATES then now in {before, BlankedList(before)}
    else now == before
  }

  lemma ReducedMostKeeps(b: Builder, d: Fields, k: Key, before: Option<Value>)
    requires b.Valid() && NotYetCut(k, before, Get(d, k))
    ensures KeyKept(b, k, before, Get(b.ReducedMost(d).fields, k))
  {
    hide Length, Bounded, CandidateKeys, ListCut, TextKept, BlankedList, Builder.Valid, Builder.Fits,
      Builder.ShrinkTexts, Builder.PopEntries;
    hide KeyKept, NotYetCut;
    var s := b.ShrinkTexts(d, TEXTS);
    ShrinkTextsKeeps(b, d, TEXTS, k);
    CutSame(Get(s.fields, k));
    if s.More? {
      PopEntriesKeeps(b, s.fields, CandidateKeys(s.fields) + COLLECTIONS, k, Get(s.fields, k));
    }
    KeptByCut(b, k, before, Get(d, k), Get(s.fields, k), Get(b.ReducedMost(d).fields, k));
  }

  /** A text that is kept and then not cut, or anything else that is cut, is kept in the sense of its key. */
  lemma KeptByCut(b: Builder, k: Key, before: Option<Value>, now: Option<Value>, shrunk: Option<Value>,
                  after: Option<Value>)
    requires b.Valid() && NotYetCut(k, before, now) && ListCut(shrunk, after)
    requires k !in CANDIDATES + COLLECTIONS ==> after == shrunk
    requires if k in TEXTS && now.Some? && now.value.Str? && now.value.s != ""
             then TextKept(b, now.value.s, now, shrunk) else shrunk == now
    ensures KeyKept(b, k, before, after)
  {
    hide Length, Bounded, ListCut, TextKept, BlankedList, Builder.Valid;
  }

  lemma ReducedFurtherKeeps(b: Builder, d: Fields, k: Key, before: Option<Value>)
    requires b.Valid() && Get(d, k) in {None, before} && (k !in PROSE ==> Get(d, k) == before)
    ensures KeyKept(b, k, before, Get(b.ReducedFurther(d).fields, k))
  {
    hide Length, Bounded, CandidateKeys, ListCut, TextKept, BlankedList;
    var s := b.BlankSnippets(d, CandidateKeys(d));
    BlankSnippetsKeeps(b, d, CandidateKeys(d), k);
    CutSame(Get(s.fields, k));
    assert NotYetCut(k, before, Get(s.fields, k));
    if s.More? {
      ReducedMostKeeps(b, s.fields, k, before);
    }
  }

  lemma ReducedKeeps(b: Builder, d: Fields, ws: seq<string>, k: Key)
    requires b.Valid()
    ensures KeyKept(b, k, Get(b.Flagged(d, ws), k), Get(b.Reduced(d, ws).fields, k))
  {
    hide Length, Bounded, ListCut, TextKept, BlankedList;
    var f := b.Flagged(d, ws);
    DropProseKeeps(b, f, PROSE, k);
    CutSame(Get(f, k));
    if b.DropProse(f, PROSE).More? {
      ReducedFurtherKeeps(b, b.DropProse(f, PROSE).fields, k, Get(f, k));
    }
  }

  lemma CutSame(before: Option<Value>)
    ensures ListCut(before, before)
  {
  }

  /** Fail closed: the input comes back unchanged, or automatic execution is switched off. */
  lemma {:induction false} FailsClosed(b: Builder, d: Fields, ws: seq<string>)
    requires b.Valid()
    ensures
      || (ws == [] && b.Fits(d) && b.Finalized(d, ws) == d)
      || Get(b.Finalized(d, ws), AutomaticExecutionAllowed) == Some(Bool(false))
  {
    hide Length, KeyKept;
    if !b.Fits(Warned(d, ws)) {
      FlaggedKeeps(b, d, ws);
      ReducedKeeps(b, d, ws, AutomaticExecutionAllowed);
      SwitchKept(b, Get(b.Flagged(d, ws), AutomaticExecutionAllowed),
        Get(b.Reduced(d, ws).fields, AutomaticExecutionAllowed));
      MinimalFits(b, d, ws + ESSENTIAL);
    }
  }

  lemma SwitchKept(b: Builder, before: Option<Value>, after: Option<Value>)
    requires b.Valid() && KeyKept(b, AutomaticExecutionAllowed, before, after)
    ensures after == before
  {
  }

  lemma WarnedKeeps(d: Fields, ws: seq<string>)
    ensures forall k :: k != ContextLimitWarnings && k != AutomaticExecutionAllowed ==>
      Get(Warned(d, ws), k) == Get(d, k)
  {
  }

  lemma MinimalSubstitutesNothing(b: Builder, d: Fields, ws: seq<string>, k: Key)
    requires b.Valid() && !EnvelopeKey(k)
    ensures var before, after := Get(d, k), Get(b.Minimal(d, ws), k);
      if k in CANDIDATES then CompactKept(before, after)
      else after == None || (k in REFERENCES && after == before)
  {
    hide Length, Bounded, CompactKept, TextKept, Builder.Minimal;
    MinimalFits(b, d, ws);
  }

  /**
   * Apart from the envelope's own keys: short of the minimal envelope, a key keeps its value, prose may
   * go, free text may be shortened, a list of candidates loses snippets and entries from its end, the
   * other lists lose entries from their end, and all that is left of a list is verbatim. The envelope
   * holds nothing but references as they were and a prefix of the compact candidates.
   */
  lemma NothingSubstituted(b: Builder, d: Fields, ws: seq<string>, k: Key)
    requires b.Valid() && !EnvelopeKey(k)
    ensures var before, after := Get(d, k), Get(b.Finalized(d, ws), k);
      if b.Fits(Warned(d, ws)) then after == before
      else if b.Reduced(d, ws).Done? then KeyKept(b, k, before, after)
      else if k in CANDIDATES then CompactKept(before, after)
      else after == None || (k in REFERENCES && after == before)
  {
    hide Length, KeyKept, CompactKept, Warned, Builder.Minimal, Builder.Reduced, Builder.Flagged;
    if b.Fits(Warned(d, ws)) {
      WarnedKeeps(d, ws);
    } else if b.Reduced(d, ws).Done? {
      FlaggedKeeps(b, d, ws);
      ReducedKeeps(b, d, ws, k);
    } else {
      MinimalSubstitutesNothing(b, d, ws + ESSENTIAL, k);
    }
  }

  lemma ReducedLatest(b: Builder, d: Fields, before: Option<Value>, after: Option<Value>)
    requires b.Valid() && before == Get(d, LatestUserMessage) && KeyKept(b, LatestUserMessage, before, after)
    ensures after == before || TextKept(b, b.LatestText(d), Some(Str(b.LatestText(d))), after)
  {
    hide TextKept, ListCut, BlankedList;
    if after != before {
      assert b.LatestText(d) == before.value.s by { assert b.text(Str(before.value.s)) == before.value.s; }
    }
  }

  /** The latest message is the input's, blank, or a shortening of it. */
  lemma {:induction false} LatestKept(b: Builder, d: Fields, ws: seq<string>)
    requires b.Valid()
    ensures var after := Get(b.Finalized(d, ws), LatestUserMessage);
      || after == Get(d, LatestUserMessage)
      || TextKept(b, b.LatestText(d), Some(Str(b.LatestText(d))), after)
  {
    hide Length, KeyKept, TextKept, Warned, Builder.Minimal, Builder.Reduced, Builder.Flagged;
    if b.Fits(Warned(d, ws)) {
      WarnedKeeps(d, ws);
    } else if b.Reduced(d, ws).Done? {
      FlaggedKeeps(b, d, ws);
      ReducedKeeps(b, d, ws, LatestUserMessage);
      ReducedLatest(b, d, Get(d, LatestUserMessage), Get(b.Reduced(d, ws).fields, LatestUserMessage));
    } else {
      MinimalFits(b, d, ws + ESSENTIAL);
    }
  }

  lemma MostTouchesLatest(b: Builder, d: Fields)
    requires b.Valid() && Get(b.ReducedMost(d).fields, LatestUserMessage) != Get(d, LatestUserMessage)
    ensures !b.HasText(b.ReducedMost(d).fields, Subject)
    ensures !b.HasText(b.ReducedMost(d).fields, PreviousAgentQuestion)
  {
    hide Length, Bounded, TextKept, CandidateKeys, Builder.Valid, Builder.Fits, Builder.PopEntries, Builder.Shrunk;
    var (fits, e) := b.Shrunk(d, Subject);
    ShrunkKeeps(b, d, Subject);
    assert TEXTS[1..] == [PreviousAgentQuestion, LatestUserMessage];
    ShrinkTextsKeeps(b, d, TEXTS, LatestUserMessage);
    if !fits {
      var (fits', e') := b.Shrunk(e, PreviousAgentQuestion);
      ShrunkKeeps(b, e, PreviousAgentQuestion);
      assert TEXTS[1..][1..] == [LatestUserMessage];
      if !fits' {
        ShrinkTextsKeeps(b, e', [LatestUserMessage], Subject);
        ShrinkTextsKeeps(b, e', [LatestUserMessage], PreviousAgentQuestion);
      }
    }
    PopLeavesTexts(b, b.ShrinkTexts(d, TEXTS).fields);
  }

  lemma PopLeavesTexts(b: Builder, d: Fields)
    ensures forall k :: k in TEXTS ==>
      Get(b.PopEntries(d, CandidateKeys(d) + COLLECTIONS).fields, k) == Get(d, k)
  {
    hide Length, ListCut, CandidateKeys, Builder.PopEntries;
    forall k | k in TEXTS
      ensures Get(b.PopEntries(d, CandidateKeys(d) + COLLECTIONS).fields, k) == Get(d, k)
    {
      CutSame(Get(d, k));
      PopEntriesKeeps(b, d, CandidateKeys(d) + COLLECTIONS, k, Get(d, k));
    }
  }

  lemma FurtherTouchesLatest(b: Builder, d: Fields)
    requires b.Valid() && Get(b.ReducedFurther(d).fields, LatestUserMessage) != Get(d, LatestUserMessage)
    ensures !b.HasText(b.ReducedFurther(d).fields, Subject)
    ensures !b.HasText(b.ReducedFurther(d).fields, PreviousAgentQuestion)
  {
    hide Length, Bounded, TextKept, Builder.ReducedMost, Builder.HasText, Builder.BlankSnippets;
    var keys := CandidateKeys(d);
    CutSame(Get(d, LatestUserMessage));
    BlankSnippetsKeeps(b, d, keys, LatestUserMessage);
    MostTouchesLatest(b, b.BlankSnippets(d, keys).fields);
  }

  lemma ReducedTouchesLatest(b: Builder, d: Fields, ws: seq<string>)
    requires b.Valid() && Get(b.Reduced(d, ws).fields, LatestUserMessage) != Get(d, LatestUserMessage)
    ensures forall k :: k in PROSE ==> Get(b.Reduced(d, ws).fields, k) == None
    ensures !b.HasText(b.Reduced(d, ws).fields, Subject)
    ensures !b.HasText(b.Reduced(d, ws).fields, PreviousAgentQuestion)
  {
    hide Length, Bounded, TextKept, BlankedList, ListCut, Builder.ReducedFurther, Builder.HasText, Builder.Flagged,
      Builder.DropProse;
    var f := b.Flagged(d, ws);
    FlaggedKeeps(b, d, ws);
    DropProseKeeps(b, f, PROSE, LatestUserMessage);
    var s := b.DropProse(f, PROSE);
    FurtherTouchesLatest(b, s.fields);
    forall k | k in PROSE ensures Get(b.Reduced(d, ws).fields, k) == None {
      DropProseKeeps(b, f, PROSE, k);
      ReducedFurtherKeeps(b, s.fields, k, None);
    }
  }

  /** Low-trust prose, the subject and the agent's question go before the latest message is touched. */
  lemma LatestGoesLast(b: Builder, d: Fields, ws: seq<string>)
    requires b.Valid()
    requires Get(b.Finalized(d, ws), LatestUserMessage) != Get(d, LatestUserMessage)
    ensures forall k :: k in PROSE ==> Get(b.Finalized(d, ws), k) == None
    ensures !b.HasText(b.Finalized(d, ws), Subject) && !b.HasText(b.Finalized(d, ws), PreviousAgentQuestion)
  {
    hide Length, Warned, Builder.Reduced, Builder.Minimal, CompactKept, TextKept, Builder.Valid, Builder.Fits,
      Builder.HasText, WithoutRepeats;
    WarnedKeeps(d, ws);
    if b.Reduced(d, ws).Done? {
      ReducedTouchesLatest(b, d, ws);
    } else {
      MinimalFits(b, d, ws + ESSENTIAL);
      NoText(b, b.Finalized(d, ws), Subject);
      NoText(b, b.Finalized(d, ws), PreviousAgentQuestion);
    }
  }

  lemma NoText(b: Builder, d: Fields, k: Key)
    ensures Get(d, k) == None ==> !b.HasText(d, k)
  {
  }
}
