/** The measure of the context builder is the serialised text, and reductions go no further than it asks. */
module ContextMeasure {
  import opened Wrappers
  import opened Json
  import opened JsonText
  import opened BoundedText
  import opened ContextBuilder
  import opened ContextPromises

  /** A context fits exactly when its serialised text is within the cap. */
  lemma FitsIsText(b: Builder, d: Fields)
    ensures b.Fits(d) <==> |Dumped(Obj(d))| <= b.maxContext
  {
    hide Dumped, Length;
    DumpedLength(Obj(d));
  }

  // ---------------------------------------------------------------------------
  // Prose and snippets
  // ---------------------------------------------------------------------------

  function Dropped(d: Fields, keys: seq<Key>): Fields
    decreases |keys|
  {
    if keys == [] then d else Dropped(Drop(d, keys[0]), keys[1..])
  }

  /** Prose is dropped key by key: only when the context without the keys before it is still too long. */
  lemma {:induction false} ProseDroppedOnNeed(b: Builder, d: Fields, keys: seq<Key>) returns (n: nat)
    ensures n <= |keys| && b.DropProse(d, keys).fields == Dropped(d, keys[..n])
    ensures forall i :: 0 < i < n ==> !b.Fits(Dropped(d, keys[..i]))
    ensures b.DropProse(d, keys).More? ==> n == |keys| && (n > 0 ==> !b.Fits(Dropped(d, keys)))
    decreases |keys|
  {
    hide Length;
    n := 0;
    if keys != [] {
      var e := Drop(d, keys[0]);
      n := 1;
      assert keys[..1] == [keys[0]] && Dropped(d, keys[..1]) == e;
      if !b.Fits(e) {
        var m := ProseDroppedOnNeed(b, e, keys[1..]);
        n := m + 1;
        forall i | 0 < i <= |keys| ensures Dropped(d, keys[..i]) == Dropped(e, keys[1..][..i - 1]) {
          assert keys[..i][1..] == keys[1..][..i - 1];
        }
        assert keys[..|keys|] == keys && keys[1..][..|keys| - 1] == keys[1..];
      }
    }
  }

  // ---------------------------------------------------------------------------
  // Texts
  // ---------------------------------------------------------------------------

  /** The context with the text shortened to this limit fits. */
  ghost predicate FitsAt(b: Builder, d: Fields, key: Key, original: string, limit: int)
    requires b.Valid()
  {
    b.Fits(Set(d, key, Str(b.Shorten(original, limit))))
  }

  /** The text shortened to `limit` fits; shortened to one character more, if there is one, it does not. */
  ghost predicate LastFitting(b: Builder, d: Fields, key: Key, original: string, limit: int)
    requires b.Valid()
  {
    && 0 <= limit <= |original| && FitsAt(b, d, key, original, limit)
    && (limit < |original| ==> !FitsAt(b, d, key, original, limit + 1))
  }

  /** One turn of the search. */
  lemma SearchTurn(b: Builder, d: Fields, key: Key, original: string, low: int, high: int, best: string)
    requires b.Valid() && low <= high
    ensures var middle := (low + high) / 2;
      b.Search(d, key, original, low, high, best) ==
      if FitsAt(b, d, key, original, middle) then
        b.Search(d, key, original, middle + 1, high, b.Shorten(original, middle))
      else b.Search(d, key, original, low, middle - 1, best)
  {
    hide Length, Builder.Shorten, Builder.Valid, Builder.Fits, Set;
  }

  lemma {:induction false} SearchEnds(b: Builder, d: Fields, key: Key, original: string, low: int, high: int,
      best: string) returns (limit: int)
    requires b.Valid() && 0 <= low <= high + 1 && high <= |original|
    requires FitsAt(b, d, key, original, 0)
    requires low > 0 ==> best == b.Shorten(original, low - 1) && FitsAt(b, d, key, original, low - 1)
    requires high < |original| ==> !FitsAt(b, d, key, original, high + 1)
    ensures LastFitting(b, d, key, original, limit)
    ensures b.Search(d, key, original, low, high, best) == b.Shorten(original, limit)
    decreases high - low + 1
  {
    hide Builder.Shorten, Builder.Valid, FitsAt;
    if low > high {
      limit := high;
    } else {
      hide Builder.Search;
      var middle := (low + high) / 2;
      SearchTurn(b, d, key, original, low, high, best);
      if FitsAt(b, d, key, original, middle) {
        limit := SearchEnds(b, d, key, original, middle + 1, high, b.Shorten(original, middle));
      } else {
        limit := SearchEnds(b, d, key, original, low, middle - 1, best);
      }
    }
  }

  /** A text that can be made to fit is shortened to a limit that fits, and whose next one does not. */
  lemma ShrunkToLastFitting(b: Builder, d: Fields, key: Key) returns (limit: int)
    requires b.Valid() && b.HasText(d, key) && b.Shrunk(d, key).0
    ensures LastFitting(b, d, key, Get(d, key).value.s, limit)
    ensures b.Shrunk(d, key).1 == Set(d, key, Str(b.Shorten(Get(d, key).value.s, limit)))
  {
    hide Length, Builder.Fits, LastFitting, Builder.Search;
    var original := Get(d, key).value.s;
    assert b.Shorten(original, 0) == "";
    limit := SearchEnds(b, d, key, original, 0, |original|, "");
  }

  // ---------------------------------------------------------------------------
  // Collections
  // ---------------------------------------------------------------------------

  /** As many entries stay as fit: every longer part of the list is too long. */
  lemma {:induction false} PoppedLongest(b: Builder, d: Fields, key: Key, entries: seq<Value>)
    ensures var r := b.Popped(d, key, entries);
      && (r != [] ==> b.Fits(Set(d, key, Arr(r))))
      && forall k :: |r| < k <= |entries| ==> !b.Fits(Set(d, key, Arr(entries[..k])))
  {
    hide Length;
    if entries != [] && !b.Fits(Set(d, key, Arr(entries))) {
      var front := entries[..|entries| - 1];
      PoppedLongest(b, d, key, front);
      forall k | |b.Popped(d, key, entries)| < k <= |entries|
        ensures !b.Fits(Set(d, key, Arr(entries[..k])))
      {
        if k == |entries| {
          assert entries[..k] == entries;
        } else {
          assert entries[..k] == front[..k];
        }
      }
    }
  }

  predicate IsList(v: Option<Value>) {
    v.Some? && v.value.Arr?
  }

  /** The candidate keys are those of the two that hold lists, in their order. */
  lemma CandidateKeysAre(d: Fields)
    ensures forall k ::
      k in CandidateKeys(d) <==> k in {NumericCandidates, NumericCandidatesFromLatestReply} && IsList(Get(d, k))
    ensures |CandidateKeys(d)| == 2 ==> CandidateKeys(d) == [NumericCandidates, NumericCandidatesFromLatestReply]
  {
  }

  /** The context after one list has been cut. */
  function Cut(b: Builder, d: Fields, key: Key): Fields {
    var first := Get(d, key);
    if IsList(first) then b.PopKey(d, key, first.value.items) else d
  }

  /** One list after another: the cut stops at the first list whose cutting is enough, and leaves no list
      behind that it has cut in vain. */
  lemma PopTurn(b: Builder, d: Fields, keys: seq<Key>)
    requires keys != []
    ensures var e := Cut(b, d, keys[0]);
      && (forall k :: k != keys[0] ==> Get(e, k) == Get(d, k))
      && b.PopEntries(d, keys) ==
         (if IsList(Get(d, keys[0])) && b.Fits(e) then Done(e) else b.PopEntries(e, keys[1..]))
      && (IsList(Get(d, keys[0])) && !b.Fits(e) ==> Get(e, keys[0]) == None)
  {
    hide Length, Builder.Popped;
    if IsList(Get(d, keys[0])) {
      PoppedLongest(b, d, keys[0], Get(d, keys[0]).value.items);
    }
  }

  /** A key that is not to be cut keeps its value. */
  lemma CutLeaves(b: Builder, d: Fields, keys: seq<Key>, k: Key)
    requires k !in keys
    ensures Get(b.PopEntries(d, keys).fields, k) == Get(d, k)
  {
    hide ListCut, Builder.PopEntries;
    CutSame(Get(d, k));
    PopEntriesKeeps(b, d, keys, k, Get(d, k));
  }

  /** Collections are cut in their order: one is touched only when those before it are gone. */
  lemma {:induction false} CollectionsInOrder(b: Builder, d: Fields, keys: seq<Key>, i: nat, j: nat)
    requires forall m, n :: 0 <= m < n < |keys| ==> keys[m] != keys[n]
    requires i < j < |keys|
    requires Get(b.PopEntries(d, keys).fields, keys[j]) != Get(d, keys[j])
    ensures !IsList(Get(b.PopEntries(d, keys).fields, keys[i]))
    decreases |keys|
  {
    hide Builder.PopEntries, Builder.Fits, Cut;
    var e, rest := Cut(b, d, keys[0]), keys[1..];
    PopTurn(b, d, keys);
    assert rest[j - 1] == keys[j];
    if i > 0 {
      assert rest[i - 1] == keys[i];
      CollectionsInOrder(b, e, rest, i - 1, j - 1);
    } else {
      CutLeaves(b, e, rest, keys[0]);
      CutNothing(b, d, keys[0]);
    }
  }

  lemma CutNothing(b: Builder, d: Fields, key: Key)
    ensures !IsList(Get(d, key)) ==> Cut(b, d, key) == d
  {
  }

  // ---------------------------------------------------------------------------
  // The order of the reductions
  // ---------------------------------------------------------------------------

  lemma {:induction false} TextsBlank(b: Builder, d: Fields, keys: seq<Key>)
    requires b.Valid() && forall i, j :: 0 <= i < j < |keys| ==> keys[i] != keys[j]
    requires b.ShrinkTexts(d, keys).More?
    ensures forall k :: k in keys ==> !b.HasText(b.ShrinkTexts(d, keys).fields, k)
    decreases |keys|
  {
    hide Length, Bounded, TextKept, Builder.Shrunk, Builder.Valid;
    if keys != [] {
      var e := b.Shrunk(d, keys[0]).1;
      ShrunkKeeps(b, d, keys[0]);
      TextsBlank(b, e, keys[1..]);
      ShrinkTextsKeeps(b, e, keys[1..], keys[0]);
      assert forall k :: k in keys <==> k == keys[0] || k in keys[1..];
    }
  }

  /** No text is left in the context, and nothing of the low-trust prose. */
  ghost predicate Worn(b: Builder, r: Fields) {
    (forall k :: k in PROSE ==> Get(r, k) == None) && (forall k :: k in TEXTS ==> !b.HasText(r, k))
  }

  lemma MostTouchesCollection(b: Builder, d: Fields, k: Key)
    requires b.Valid() && k in COLLECTIONS && Get(b.ReducedMost(d).fields, k) != Get(d, k)
    ensures forall t :: t in TEXTS ==> !b.HasText(b.ReducedMost(d).fields, t)
  {
    hide Length, Bounded, TextKept, CandidateKeys, Builder.Valid, Builder.Fits, Builder.PopEntries, Builder.Shrunk,
      Builder.ShrinkTexts, Builder.HasText;
    ShrinkTextsKeeps(b, d, TEXTS, k);
    var s := b.ShrinkTexts(d, TEXTS);
    assert s.More?;
    TextsBlank(b, d, TEXTS);
    PopLeavesTexts(b, s.fields);
    forall t | t in TEXTS ensures !b.HasText(b.ReducedMost(d).fields, t) {
      SameText(b, s.fields, b.ReducedMost(d).fields, t);
    }
  }

  lemma SameText(b: Builder, d: Fields, r: Fields, k: Key)
    requires Get(d, k) == Get(r, k)
    ensures b.HasText(d, k) == b.HasText(r, k)
  {
  }

  lemma FurtherTouchesCollection(b: Builder, d: Fields, k: Key)
    requires b.Valid() && k in COLLECTIONS && Get(b.ReducedFurther(d).fields, k) != Get(d, k)
    ensures forall t :: t in TEXTS ==> !b.HasText(b.ReducedFurther(d).fields, t)
  {
    hide Length, Bounded, TextKept, Builder.ReducedMost, Builder.HasText, Builder.BlankSnippets;
    var keys := CandidateKeys(d);
    CutSame(Get(d, k));
    BlankSnippetsKeeps(b, d, keys, k);
    MostTouchesCollection(b, b.BlankSnippets(d, keys).fields, k);
  }

  /** Structured collections are cut only when all prose is gone and no text is left to shorten. */
  lemma CollectionsGoLast(b: Builder, d: Fields, ws: seq<string>, k: Key)
    requires b.Valid() && b.Reduced(d, ws).Done? && k in COLLECTIONS
    requires Get(b.Reduced(d, ws).fields, k) != Get(d, k)
    ensures Worn(b, b.Reduced(d, ws).fields)
  {
    hide Length, Bounded, TextKept, BlankedList, ListCut, Builder.ReducedFurther, Builder.HasText, Builder.Flagged,
      Builder.DropProse;
    var f := b.Flagged(d, ws);
    FlaggedKeeps(b, d, ws);
    DropProseKeeps(b, f, PROSE, k);
    var s := b.DropProse(f, PROSE);
    FurtherTouchesCollection(b, s.fields, k);
    forall p | p in PROSE ensures Get(b.Reduced(d, ws).fields, p) == None {
      DropProseKeeps(b, f, PROSE, p);
      ReducedFurtherKeeps(b, s.fields, p, None);
    }
  }

  lemma {:induction false} AllSnipped(b: Builder, d: Fields, keys: seq<Key>, k: Key)
    requires b.BlankSnippets(d, keys).More? && (forall i, j :: 0 <= i < j < |keys| ==> keys[i] != keys[j])
    requires k in keys || !IsList(Get(d, k))
    ensures Get(b.BlankSnippets(d, keys).fields, k) == BlankedList(Get(d, k))
    decreases |keys|
  {
    hide Length, BlankedAll;
    if keys != [] {
      SnippedList(d, keys[0], k);
      if k == keys[0] {
        BlankSnippetsKeeps(b, Snipped(d, k), keys[1..], k);
      } else {
        AllSnipped(b, Snipped(d, keys[0]), keys[1..], k);
      }
    }
  }

  lemma MostCutsBlanked(b: Builder, d: Fields, c: Key)
    requires b.Valid() && c in CANDIDATES
    ensures ListCut(Get(d, c), Get(b.ReducedMost(d).fields, c))
  {
    hide Length, Bounded, ListCut, TextKept, Builder.Valid, CandidateKeys, Builder.ShrinkTexts, Builder.PopEntries;
    var s := b.ShrinkTexts(d, TEXTS);
    ShrinkTextsKeeps(b, d, TEXTS, c);
    CutSame(Get(d, c));
    if s.More? {
      PopEntriesKeeps(b, s.fields, CandidateKeys(s.fields) + COLLECTIONS, c, Get(d, c));
    }
  }

  lemma FurtherTouchesText(b: Builder, d: Fields, k: Key, c: Key)
    requires b.Valid() && k in TEXTS && c in CANDIDATES
    requires Get(b.ReducedFurther(d).fields, k) != Get(d, k)
    ensures ListCut(BlankedList(Get(d, c)), Get(b.ReducedFurther(d).fields, c))
  {
    hide Length, ListCut, BlankedList, Builder.ReducedMost, Builder.BlankSnippets, Builder.Valid, CandidateKeys;
    var keys := CandidateKeys(d);
    BlankSnippetsKeeps(b, d, keys, k);
    CandidateKeysAre(d);
    var s := b.BlankSnippets(d, keys);
    assert s.More?;
    AllSnipped(b, d, keys, c);
    MostCutsBlanked(b, s.fields, c);
  }

  /** A text is shortened only when every candidate snippet is blank; candidates are touched only when all
      prose is gone. */
  lemma TextsAfterSnippets(b: Builder, d: Fields, ws: seq<string>, k: Key)
    requires b.Valid() && b.Reduced(d, ws).Done? && k in TEXTS + CANDIDATES
    requires Get(b.Reduced(d, ws).fields, k) != Get(d, k)
    ensures forall p :: p in PROSE ==> Get(b.Reduced(d, ws).fields, p) == None
    ensures k in TEXTS ==>
      forall c :: c in CANDIDATES ==> ListCut(BlankedList(Get(d, c)), Get(b.Reduced(d, ws).fields, c))
  {
    hide Length, Bounded, TextKept, BlankedList, ListCut, Builder.ReducedFurther, Builder.HasText, Builder.Flagged,
      Builder.DropProse;
    var f := b.Flagged(d, ws);
    FlaggedKeeps(b, d, ws);
    DropProseKeeps(b, f, PROSE, k);
    var s := b.DropProse(f, PROSE);
    assert s.More?;
    forall p | p in PROSE ensures Get(b.Reduced(d, ws).fields, p) == None {
      DropProseKeeps(b, f, PROSE, p);
      ReducedFurtherKeeps(b, s.fields, p, None);
    }
    if k in TEXTS {
      forall c | c in CANDIDATES ensures ListCut(BlankedList(Get(d, c)), Get(b.Reduced(d, ws).fields, c)) {
        DropProseKeeps(b, f, PROSE, c);
        FurtherTouchesText(b, s.fields, k, c);
      }
    }
  }

  // ---------------------------------------------------------------------------
  // When nothing is left to reduce
  // ---------------------------------------------------------------------------

  lemma {:induction false} ListsGone(b: Builder, d: Fields, keys: seq<Key>)
    requires forall m, n :: 0 <= m < n < |keys| ==> keys[m] != keys[n]
    requires b.PopEntries(d, keys).More?
    ensures forall k :: k in keys ==> !IsList(Get(b.PopEntries(d, keys).fields, k))
    decreases |keys|
  {
    hide Builder.PopEntries, Builder.Fits, Cut;
    if keys == [] {
      NothingPopped(b, d);
    } else {
      var e, rest := Cut(b, d, keys[0]), keys[1..];
      PopTurn(b, d, keys);
      ListsGone(b, e, rest);
      CutLeaves(b, e, rest, keys[0]);
      CutNothing(b, d, keys[0]);
      assert forall k :: k in keys <==> k == keys[0] || k in rest;
    }
  }

  lemma NothingPopped(b: Builder, d: Fields)
    ensures b.PopEntries(d, []) == More(d)
  {
  }

  lemma ListKeysDiffer(d: Fields)
    ensures var keys := CandidateKeys(d) + COLLECTIONS;
      forall m, n :: 0 <= m < n < |keys| ==> keys[m] != keys[n]
  {
    assert forall n :: 0 <= n < 3 ==> COLLECTIONS[n] !in CANDIDATES;
  }

  lemma MostReduced(b: Builder, d: Fields)
    requires b.Valid() && b.ReducedMost(d).More?
    ensures forall k :: k in [Subject, PreviousAgentQuestion, LatestUserMessage] ==>
      !b.HasText(b.ReducedMost(d).fields, k)
    ensures forall k :: k in CANDIDATES + COLLECTIONS ==> !IsList(Get(b.ReducedMost(d).fields, k))
  {
    hide Length, Builder.ShrinkTexts, Builder.PopEntries, Builder.HasText, Builder.Valid, CandidateKeys, ListCut;
    var s := b.ShrinkTexts(d, TEXTS).fields;
    var keys := CandidateKeys(s) + COLLECTIONS;
    TextsBlank(b, d, TEXTS);
    PopLeavesTexts(b, s);
    forall k | k in TEXTS ensures !b.HasText(b.ReducedMost(d).fields, k) {
      SameText(b, s, b.ReducedMost(d).fields, k);
    }
    CandidateKeysAre(s);
    ListKeysDiffer(s);
    ListsGone(b, s, keys);
    forall k | k in CANDIDATES + COLLECTIONS ensures !IsList(Get(b.ReducedMost(d).fields, k)) {
      if k !in keys {
        CutSame(Get(s, k));
        PopEntriesKeeps(b, s, keys, k, Get(s, k));
      }
    }
  }

  /** The minimal envelope is the last resort: it is built only when no prose, no free text, and none of the
      candidates and collections is left, and the rest alone is too long. */
  lemma EnvelopeIsLastResort(b: Builder, d: Fields, ws: seq<string>)
    requires b.Valid() && b.Reduced(d, ws).More?
    ensures var r := b.Reduced(d, ws).fields;
      && (forall k :: k in [RelevantThreadContext, ClosedHistorySummary, PreprocessingNotes, TextSinceLastClosedRequest]
            ==> Get(r, k) == None)
      && (forall k :: k in [Subject, PreviousAgentQuestion, LatestUserMessage] ==> !b.HasText(r, k))
      && (forall k :: k in [NumericCandidates, NumericCandidatesFromLatestReply] ==> !IsList(Get(r, k)))
      && (forall k :: k in [PossibleOpenRequests, TargetOperations, StoredOperations] ==> !IsList(Get(r, k)))
  {
    hide Length, Bounded, TextKept, BlankedList, ListCut, Builder.ReducedFurther, Builder.HasText, Builder.Flagged,
      Builder.DropProse, Builder.ReducedMost, Builder.BlankSnippets, CandidateKeys;
    var f := b.Flagged(d, ws);
    var s := b.DropProse(f, PROSE);
    forall p | p in PROSE ensures Get(b.Reduced(d, ws).fields, p) == None {
      DropProseKeeps(b, f, PROSE, p);
      ReducedFurtherKeeps(b, s.fields, p, None);
    }
    FurtherReduced(b, s.fields);
  }

  lemma FurtherReduced(b: Builder, d: Fields)
    requires b.Valid() && b.ReducedFurther(d).More?
    ensures var r := b.ReducedFurther(d).fields;
      && (forall k :: k in [Subject, PreviousAgentQuestion, LatestUserMessage] ==> !b.HasText(r, k))
      && (forall k :: k in CANDIDATES + COLLECTIONS ==> !IsList(Get(r, k)))
  {
    hide Length, Builder.HasText, Builder.ReducedMost, Builder.BlankSnippets, CandidateKeys, IsList;
    MostReduced(b, b.BlankSnippets(d, CandidateKeys(d)).fields);
  }
}
