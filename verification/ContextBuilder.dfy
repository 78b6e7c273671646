/** The cascade of reductions that keeps a model context under its length cap. */
module ContextBuilder {
  import opened Spans
  import opened Wrappers
  import opened Json
  import opened BoundedText

  const MIN_CONTEXT_CHARACTERS := 256

  const PROSE := [RelevantThreadContext, ClosedHistorySummary, PreprocessingNotes, TextSinceLastClosedRequest]
  const TEXTS := [Subject, PreviousAgentQuestion, LatestUserMessage]
  const CANDIDATES := [NumericCandidates, NumericCandidatesFromLatestReply]
  const COLLECTIONS := [PossibleOpenRequests, TargetOperations, StoredOperations]
  const REFERENCES := [RequestReference, RequestStatus]

  const LIMIT_EXCEEDED := "model_context_character_limit_exceeded"
  const SECTIONS_OMITTED := "model_context_sections_omitted"
  const ESSENTIAL := [LIMIT_EXCEEDED, SECTIONS_OMITTED]
  const BOUNDED_CONTEXT := "bounded_context"

  /** A reduction step either reaches the cap or hands its context on. */
  datatype Stage = Done(fields: Fields) | More(fields: Fields)

  function WithoutRepeats(ws: seq<string>): seq<string> {
    if ws == [] then []
    else
      var front := WithoutRepeats(ws[..|ws| - 1]);
      if ws[|ws| - 1] in front then front else front + [ws[|ws| - 1]]
  }

  function Strings(ws: seq<string>): (r: seq<Value>)
    ensures |r| == |ws| && forall i :: 0 <= i < |ws| ==> r[i] == Str(ws[i])
  {
    seq(|ws|, i requires 0 <= i < |ws| => Str(ws[i]))
  }

  function Warned(d: Fields, ws: seq<string>): Fields {
    if ws == [] then d
    else
      var all := WithoutRepeats(ws + ["context_truncated", "safety_context_incomplete"]);
      Set(Set(d, ContextLimitWarnings, Arr(Strings(all))), AutomaticExecutionAllowed, Bool(false))
  }

  function CandidateKeys(d: Fields): (r: seq<Key>)
    ensures forall k :: k in r ==> k in CANDIDATES && Get(d, k).Some? && Get(d, k).value.Arr?
    ensures |r| <= 2 && (|r| == 2 ==> r[0] != r[1])
  {
    (if Get(d, NumericCandidates).Some? && Get(d, NumericCandidates).value.Arr? then [NumericCandidates] else []) +
    (if Get(d, NumericCandidatesFromLatestReply).Some? && Get(d, NumericCandidatesFromLatestReply).value.Arr?
     then [NumericCandidatesFromLatestReply] else [])
  }

  /** A candidate record with an empty snippet. */
  function Compact(v: Value): Value {
    if v.Obj? then Obj(Set(v.fields, SnippetContext, Str(""))) else v
  }

  function Blanked(v: Value): Value {
    if v.Obj? && Get(v.fields, SnippetContext).Some? && Truthy(Get(v.fields, SnippetContext).value)
    then Compact(v) else v
  }

  function BlankedAll(items: seq<Value>): (r: seq<Value>)
    ensures |r| == |items| && forall i :: 0 <= i < |items| ==> r[i] == Blanked(items[i])
  {
    seq(|items|, i requires 0 <= i < |items| => Blanked(items[i]))
  }

  /**
   * The limits of a builder, with what it takes from outside: the protected-token matches of a
   * text, and `str()` of a value.
   */
  datatype Builder = Builder(maxContext: nat, maxLatest: nat, maxThread: nat,
                             tokens: string -> seq<Span>, text: Value -> string)
  {
    ghost predicate Valid() {
      && maxContext >= MIN_CONTEXT_CHARACTERS && maxLatest >= 1 && maxThread >= 1
      && (forall s :: ProperSpans(s, tokens(s)))
      && (forall s :: text(Str(s)) == s)
    }

    predicate Fits(d: Fields) {
      Length(Obj(d)) <= maxContext
    }

    function Shorten(s: string, limit: int): string
      requires Valid()
    {
      Bounded(s, limit, tokens(s))
    }

    /** The search over limits: the last candidate that fitted on its way. */
    function Search(d: Fields, key: Key, original: string, low: int, high: int, best: string): string
      requires Valid()
      decreases high - low + 1
    {
      if low > high then best
      else
        var limit := (low + high) / 2;
        var candidate := Shorten(original, limit);
        if Fits(Set(d, key, Str(candidate))) then Search(d, key, original, limit + 1, high, candidate)
        else Search(d, key, original, low, limit - 1, best)
    }

    predicate HasText(d: Fields, key: Key) {
      Get(d, key).Some? && Get(d, key).value.Str? && Get(d, key).value.s != ""
    }

    function Shrunk(d: Fields, key: Key): (r: (bool, Fields))
      requires Valid()
    {
      if !HasText(d, key) then (Fits(d), d)
      else
        var original := Get(d, key).value.s;
        var blank := Set(d, key, Str(""));
        if !Fits(blank) then (false, blank)
        else (true, Set(d, key, Str(Search(d, key, original, 0, |original|, ""))))
    }

    function DropProse(d: Fields, keys: seq<Key>): Stage
      decreases |keys|
    {
      if keys == [] then More(d)
      else
        var e := Drop(d, keys[0]);
        if Fits(e) then Done(e) else DropProse(e, keys[1..])
    }

    function BlankSnippets(d: Fields, keys: seq<Key>): Stage
      decreases |keys|
    {
      if keys == [] then More(d)
      else
        var e := if Get(d, keys[0]).Some? && Get(d, keys[0]).value.Arr?
                 then Set(d, keys[0], Arr(BlankedAll(Get(d, keys[0]).value.items))) else d;
        if Fits(e) then Done(e) else BlankSnippets(e, keys[1..])
    }

    function ShrinkTexts(d: Fields, keys: seq<Key>): Stage
      requires Valid()
      decreases |keys|
    {
      if keys == [] then More(d)
      else
        var (fits, e) := Shrunk(d, keys[0]);
        if fits then Done(e) else ShrinkTexts(e, keys[1..])
    }

    /** Whole entries leave from the end until the context fits or none is left. */
    function Popped(d: Fields, key: Key, entries: seq<Value>): (r: seq<Value>)
      ensures r <= entries
    {
      if entries == [] || Fits(Set(d, key, Arr(entries))) then entries
      else Popped(d, key, entries[..|entries| - 1])
    }

    function PopKey(d: Fields, key: Key, entries: seq<Value>): Fields {
      var kept := Popped(d, key, entries);
      if kept == [] then Drop(d, key) else Set(d, key, Arr(kept))
    }

    function PopEntries(d: Fields, keys: seq<Key>): Stage
      decreases |keys|
    {
      if keys == [] then More(d)
      else if Get(d, keys[0]).Some? && Get(d, keys[0]).value.Arr? then
        var e := PopKey(d, keys[0], Get(d, keys[0]).value.items);
        if Fits(e) then Done(e) else PopEntries(e, keys[1..])
      else
        PopEntries(d, keys[1..])
    }

    // The minimal envelope

    function ModeOf(d: Fields): string {
      match Get(d, Mode)
      case Some(Str(s)) => if |s| > 64 then BOUNDED_CONTEXT else s
      case _ => BOUNDED_CONTEXT
    }

    function Envelope(mode: string): Fields {
      [Field(Mode, Str(mode)),
       Field(LatestUserMessage, Str("")),
       Field(AutomaticExecutionAllowed, Bool(false)),
       Field(ContextSectionsOmitted, Bool(true)),
       Field(ContextLimitWarnings, Arr(Strings(ESSENTIAL)))]
    }

    function Base(d: Fields): Fields {
      var e := Envelope(ModeOf(d));
      if Fits(e) then e else Set(e, Mode, Str(BOUNDED_CONTEXT))
    }

    /** `listed` are the warnings the envelope already carries. */
    function AddWarnings(m: Fields, listed: seq<string>, ws: seq<string>): Fields
      decreases |ws|
    {
      if ws == [] then m
      else
        var e := Set(m, ContextLimitWarnings, Arr(Strings(listed + [ws[0]])));
        if ws[0] !in ESSENTIAL && Fits(e) then AddWarnings(e, listed + [ws[0]], ws[1..])
        else AddWarnings(m, listed, ws[1..])
    }

    function AddReferences(m: Fields, d: Fields, keys: seq<Key>): Fields
      decreases |keys|
    {
      if keys == [] then m
      else
        var v := Get(d, keys[0]);
        if v.Some? && v.value != Null && Fits(Set(m, keys[0], v.value))
        then AddReferences(Set(m, keys[0], v.value), d, keys[1..])
        else AddReferences(m, d, keys[1..])
    }

    function Retain(m: Fields, key: Key, retained: seq<Value>, entries: seq<Value>): Fields
      decreases |entries|
    {
      if entries == [] then m
      else
        var more := retained + [Compact(entries[0])];
        if Fits(Set(m, key, Arr(more))) then Retain(Set(m, key, Arr(more)), key, more, entries[1..]) else m
    }

    function RetainAll(m: Fields, d: Fields, keys: seq<Key>): Fields
      requires forall k :: k in keys ==> Get(d, k).Some? && Get(d, k).value.Arr?
      decreases |keys|
    {
      if keys == [] then m
      else RetainAll(Retain(m, keys[0], [], Get(d, keys[0]).value.items), d, keys[1..])
    }

    function LatestText(d: Fields): string {
      match Get(d, LatestUserMessage)
      case Some(v) => text(v)
      case None => ""
    }

    function Refilled(m: Fields, latest: string): Fields
      requires Valid()
    {
      var e := Shrunk(m, LatestUserMessage).1;
      if latest == "" then e else Shrunk(Set(e, LatestUserMessage, Str(latest)), LatestUserMessage).1
    }

    function Minimal(d: Fields, warnings: seq<string>): Fields
      requires Valid()
    {
      var m0 := Base(d);
      var m1 := AddWarnings(m0, ESSENTIAL, WithoutRepeats(warnings));
      var m2 := AddReferences(m1, d, REFERENCES);
      Refilled(RetainAll(m2, d, CandidateKeys(d)), LatestText(d))
    }

    function Flagged(d: Fields, ws: seq<string>): Fields {
      Set(Warned(Warned(d, ws), ws + ESSENTIAL), ContextSectionsOmitted, Bool(true))
    }

    /** Everything before the minimal envelope, one reduction after the other. */
    function Reduced(d: Fields, ws: seq<string>): Stage
      requires Valid()
    {
      var s := DropProse(Flagged(d, ws), PROSE);
      if s.Done? then s else ReducedFurther(s.fields)
    }

    function ReducedFurther(d: Fields): Stage
      requires Valid()
    {
      var s := BlankSnippets(d, CandidateKeys(d));
      if s.Done? then s else ReducedMost(s.fields)
    }

    function ReducedMost(d: Fields): Stage
      requires Valid()
    {
      var s := ShrinkTexts(d, TEXTS);
      if s.Done? then s else PopEntries(s.fields, CandidateKeys(s.fields) + COLLECTIONS)
    }

    function Finalized(d: Fields, ws: seq<string>): Fields
      requires Valid()
    {
      if Fits(Warned(d, ws)) then Warned(d, ws)
      else
        var s := Reduced(d, ws);
        if s.Done? then s.fields else Minimal(d, ws + ESSENTIAL)
    }
  }

  /** The constructor's checks. */
  function Create(maxContext: int, maxLatest: int, maxThread: int,
                  tokens: string -> seq<Span>, text: Value -> string): (r: Option<Builder>)
    requires (forall s :: ProperSpans(s, tokens(s))) && forall s :: text(Str(s)) == s
    ensures r.Some? <==> maxContext >= MIN_CONTEXT_CHARACTERS && maxLatest >= 1 && maxThread >= 1
    ensures r.Some? ==> r.value.Valid() && r.value.maxContext == maxContext
  {
    if maxContext < MIN_CONTEXT_CHARACTERS || maxLatest < 1 || maxThread < 1 then None
    else Some(Builder(maxContext, maxLatest, maxThread, tokens, text))
  }
}
