/** The program: reductions that overwrite a private copy of the context. */
module ContextFinalizer {
  import opened Json
  import opened JsonText
  import opened BoundedText
  import opened ContextBuilder
  import opened ContextPromises
  import opened ContextMeasure

  /** A context dictionary, passed by reference and updated in place. */
  class Context {
    var fields: Fields

    constructor (fields: Fields)
      ensures this.fields == fields
    {
      this.fields := fields;
    }
  }

  method ApplyWarnings(context: Context, warnings: seq<string>)
    modifies context
    ensures context.fields == Warned(old(context.fields), warnings)
  {
    if warnings == [] {
      return;
    }
    var all := WithoutRepeats(warnings + ["context_truncated", "safety_context_incomplete"]);
    context.fields := Set(context.fields, ContextLimitWarnings, Arr(Strings(all)));
    context.fields := Set(context.fields, AutomaticExecutionAllowed, Bool(false));
  }

  method ShrinkTopLevelText(b: Builder, context: Context, key: Key) returns (fits: bool)
    requires b.Valid()
    modifies context
    ensures (fits, context.fields) == b.Shrunk(old(context.fields), key)
  {
    hide Length, Bounded, ProperSpans, Builder.Fits, Builder.Search;
    if !b.HasText(context.fields, key) {
      return b.Fits(context.fields);
    }
    ghost var d := context.fields;
    var original := Get(context.fields, key).value.s;
    context.fields := Set(context.fields, key, Str(""));
    if !b.Fits(context.fields) {
      return false;
    }
    SearchText(b, context, key, original, d);
    return true;
  }

  /** The loop over limits, starting from a blank text. */
  method SearchText(b: Builder, context: Context, key: Key, original: string, ghost d: Fields)
    requires b.Valid() && context.fields == Set(d, key, Str(""))
    modifies context
    ensures context.fields == Set(d, key, Str(b.Search(d, key, original, 0, |original|, "")))
  {
    hide Length, Bounded, ProperSpans, Builder.Fits, Set;
    var low, high, best := 0, |original|, "";
    ghost var current := Str("");
    while low <= high
      invariant 0 <= low && high <= |original|
      invariant context.fields == Set(d, key, current)
      invariant b.Search(d, key, original, low, high, best) == b.Search(d, key, original, 0, |original|, "")
      decreases high - low
    {
      var limit := (low + high) / 2;
      var candidate, _ := BoundText(original, limit, b.tokens(original));
      SetSet(d, key, current, Str(candidate));
      context.fields := Set(context.fields, key, Str(candidate));
      current := Str(candidate);
      if b.Fits(context.fields) {
        best := candidate;
        low := limit + 1;
      } else {
        high := limit - 1;
      }
    }
    SetSet(d, key, current, Str(best));
    context.fields := Set(context.fields, key, Str(best));
  }

  method RemoveProse(b: Builder, context: Context) returns (fits: bool)
    modifies context
    ensures (if fits then Done(context.fields) else More(context.fields)) == b.DropProse(old(context.fields), PROSE)
  {
    hide Length;
    var i := 0;
    while i < |PROSE|
      invariant 0 <= i <= |PROSE|
      invariant b.DropProse(context.fields, PROSE[i..]) == b.DropProse(old(context.fields), PROSE)
    {
      context.fields := Drop(context.fields, PROSE[i]);
      if b.Fits(context.fields) {
        return true;
      }
      i := i + 1;
    }
    return false;
  }

  method EmptySnippets(b: Builder, context: Context) returns (fits: bool)
    modifies context
    ensures (if fits then Done(context.fields) else More(context.fields)) ==
      b.BlankSnippets(old(context.fields), CandidateKeys(old(context.fields)))
  {
    hide Length;
    var keys := CandidateKeys(context.fields);
    var i := 0;
    while i < |keys|
      invariant 0 <= i <= |keys|
      invariant forall j :: i <= j < |keys| ==> Get(context.fields, keys[j]) == Get(old(context.fields), keys[j])
      invariant b.BlankSnippets(context.fields, keys[i..]) == b.BlankSnippets(old(context.fields), keys)
    {
      var candidates := BlankEntries(Get(context.fields, keys[i]).value.items);
      context.fields := Set(context.fields, keys[i], Arr(candidates));
      if b.Fits(context.fields) {
        return true;
      }
      i := i + 1;
    }
    return false;
  }

  /** The loop over one list of candidates. */
  method BlankEntries(items: seq<Value>) returns (candidates: seq<Value>)
    ensures candidates == BlankedAll(items)
  {
    candidates := items;
    var j := 0;
    while j < |candidates|
      invariant 0 <= j <= |candidates| == |items|
      invariant forall i :: 0 <= i < j ==> candidates[i] == Blanked(items[i])
      invariant forall i :: j <= i < |items| ==> candidates[i] == items[i]
    {
      var candidate := candidates[j];
      if candidate.Obj? && Get(candidate.fields, SnippetContext).Some? &&
         Truthy(Get(candidate.fields, SnippetContext).value)
      {
        candidates := candidates[j := Obj(Set(candidate.fields, SnippetContext, Str("")))];
      }
      j := j + 1;
    }
  }

  method ShrinkFreeText(b: Builder, context: Context) returns (fits: bool)
    requires b.Valid()
    modifies context
    ensures (if fits then Done(context.fields) else More(context.fields)) == b.ShrinkTexts(old(context.fields), TEXTS)
  {
    hide Length, Builder.Shrunk;
    var i := 0;
    while i < |TEXTS|
      invariant 0 <= i <= |TEXTS|
      invariant b.ShrinkTexts(context.fields, TEXTS[i..]) == b.ShrinkTexts(old(context.fields), TEXTS)
    {
      fits := ShrinkTopLevelText(b, context, TEXTS[i]);
      if fits {
        return;
      }
      i := i + 1;
    }
    return false;
  }

  /** Pops whole entries of one list, and the list itself once it is empty. */
  method PopList(b: Builder, context: Context, key: Key)
    requires Get(context.fields, key).Some? && Get(context.fields, key).value.Arr?
    modifies context
    ensures context.fields == b.PopKey(old(context.fields), key, Get(old(context.fields), key).value.items)
  {
    hide Length;
    ghost var d := context.fields;
    var entries := Get(context.fields, key).value.items;
    SetSame(d, key, Arr(entries));
    while entries != [] && !b.Fits(context.fields)
      invariant context.fields == Set(d, key, Arr(entries))
      invariant b.Popped(d, key, entries) == b.Popped(d, key, Get(d, key).value.items)
      decreases |entries|
    {
      SetSet(d, key, Arr(entries), Arr(entries[..|entries| - 1]));
      entries := entries[..|entries| - 1];
      context.fields := Set(context.fields, key, Arr(entries));
    }
    if entries == [] {
      DropSet(d, key, Arr([]));
      context.fields := Drop(context.fields, key);
    }
  }

  lemma {:induction false} DropSet(fs: Fields, k: Key, v: Value)
    ensures Drop(Set(fs, k, v), k) == Drop(fs, k)
  {
    if fs != [] && fs[0].key != k {
      DropSet(fs[1..], k, v);
    }
  }

  method PopCollections(b: Builder, context: Context) returns (fits: bool)
    modifies context
    ensures (if fits then Done(context.fields) else More(context.fields)) ==
      b.PopEntries(old(context.fields), CandidateKeys(old(context.fields)) + COLLECTIONS)
  {
    hide Length, Builder.PopKey;
    var keys := CandidateKeys(context.fields) + COLLECTIONS;
    var i := 0;
    while i < |keys|
      invariant 0 <= i <= |keys|
      invariant b.PopEntries(context.fields, keys[i..]) == b.PopEntries(old(context.fields), keys)
    {
      var entries := Get(context.fields, keys[i]);
      if entries.Some? && entries.value.Arr? {
        PopList(b, context, keys[i]);
        if b.Fits(context.fields) {
          return true;
        }
      }
      i := i + 1;
    }
    return false;
  }

  method ListWarnings(b: Builder, minimal: Context, warnings: seq<string>)
    modifies minimal
    ensures minimal.fields == b.AddWarnings(old(minimal.fields), ESSENTIAL, warnings)
  {
    hide Length;
    var listed := ESSENTIAL;
    var i := 0;
    while i < |warnings|
      invariant 0 <= i <= |warnings|
      invariant b.AddWarnings(minimal.fields, listed, warnings[i..]) ==
        b.AddWarnings(old(minimal.fields), ESSENTIAL, warnings)
    {
      if warnings[i] !in ESSENTIAL {
        var candidate := Set(minimal.fields, ContextLimitWarnings, Arr(Strings(listed + [warnings[i]])));
        if b.Fits(candidate) {
          minimal.fields := candidate;
          listed := listed + [warnings[i]];
        }
      }
      i := i + 1;
    }
  }

  method KeepReferences(b: Builder, minimal: Context, context: Context)
    requires minimal != context
    modifies minimal
    ensures minimal.fields == b.AddReferences(old(minimal.fields), context.fields, REFERENCES)
  {
    hide Length;
    var i := 0;
    while i < |REFERENCES|
      invariant 0 <= i <= |REFERENCES|
      invariant b.AddReferences(minimal.fields, context.fields, REFERENCES[i..]) ==
        b.AddReferences(old(minimal.fields), context.fields, REFERENCES)
    {
      var value := Get(context.fields, REFERENCES[i]);
      if value.Some? && value.value != Null {
        var candidate := Set(minimal.fields, REFERENCES[i], value.value);
        if b.Fits(candidate) {
          minimal.fields := candidate;
        }
      }
      i := i + 1;
    }
  }

  method KeepCandidates(b: Builder, minimal: Context, key: Key, entries: seq<Value>)
    modifies minimal
    ensures minimal.fields == b.Retain(old(minimal.fields), key, [], entries)
  {
    hide Length;
    var retained: seq<Value> := [];
    var i := 0;
    while i < |entries|
      invariant 0 <= i <= |entries|
      invariant b.Retain(minimal.fields, key, retained, entries[i..]) == b.Retain(old(minimal.fields), key, [], entries)
    {
      var candidate := Set(minimal.fields, key, Arr(retained + [Compact(entries[i])]));
      if !b.Fits(candidate) {
        break;
      }
      retained := retained + [Compact(entries[i])];
      minimal.fields := candidate;
      i := i + 1;
    }
  }

  method BuildMinimal(b: Builder, context: Context, warnings: seq<string>) returns (minimal: Context)
    requires b.Valid()
    ensures fresh(minimal) && minimal.fields == b.Minimal(context.fields, warnings)
  {
    hide Length, Bounded, Builder.Shrunk, Builder.AddWarnings, Builder.AddReferences, Builder.Retain, WithoutRepeats;
    minimal := new Context(b.Envelope(b.ModeOf(context.fields)));
    if !b.Fits(minimal.fields) {
      minimal.fields := Set(minimal.fields, Mode, Str(BOUNDED_CONTEXT));
    }
    ListWarnings(b, minimal, WithoutRepeats(warnings));
    KeepReferences(b, minimal, context);
    ghost var m := minimal.fields;
    var keys := CandidateKeys(context.fields);
    var i := 0;
    while i < |keys|
      invariant 0 <= i <= |keys| && fresh(minimal)
      invariant b.RetainAll(minimal.fields, context.fields, keys[i..]) == b.RetainAll(m, context.fields, keys)
    {
      KeepCandidates(b, minimal, keys[i], Get(context.fields, keys[i]).value.items);
      i := i + 1;
    }
    var latest := b.LatestText(context.fields);
    var _ := ShrinkTopLevelText(b, minimal, LatestUserMessage);
    if latest != "" {
      minimal.fields := Set(minimal.fields, LatestUserMessage, Str(latest));
      var _ := ShrinkTopLevelText(b, minimal, LatestUserMessage);
    }
    MinimalFits(b, context.fields, warnings);
    if !b.Fits(minimal.fields) {
      assert false;
    }
  }

  /**
   * The caller's context is left as it was; the result is a new one, whose serialised text is within
   * the cap. Nothing but warnings is added as long as that is enough.
   */
  method FinalizeContext(b: Builder, context: Context, warnings: seq<string>) returns (result: Context)
    requires b.Valid()
    ensures fresh(result) && result.fields == b.Finalized(context.fields, warnings)
    ensures |Dumped(Obj(result.fields))| <= b.maxContext
    ensures |Dumped(Obj(Warned(context.fields, warnings)))| <= b.maxContext ==>
      result.fields == Warned(context.fields, warnings)
  {
    hide Length, Dumped, Builder.DropProse, Builder.BlankSnippets, Builder.ShrinkTexts, Builder.PopEntries,
      Builder.Minimal, Warned;
    FinalizedFits(b, context.fields, warnings);
    FitsIsText(b, b.Finalized(context.fields, warnings));
    FitsIsText(b, Warned(context.fields, warnings));
    result := new Context(context.fields);
    ApplyWarnings(result, warnings);
    if b.Fits(result.fields) {
      return;
    }
    var auditWarnings := warnings + ESSENTIAL;
    ApplyWarnings(result, auditWarnings);
    result.fields := Set(result.fields, ContextSectionsOmitted, Bool(true));
    var fits := RemoveProse(b, result);
    if fits {
      return;
    }
    fits := EmptySnippets(b, result);
    if fits {
      return;
    }
    fits := ShrinkFreeText(b, result);
    if fits {
      return;
    }
    fits := PopCollections(b, result);
    if fits {
      return;
    }
    result := BuildMinimal(b, context, auditWarnings);
  }
}
