/** What a shortened context says about its own shortening. */
module ContextWarnings {
  import opened Wrappers
  import opened Json
  import opened BoundedText
  import opened ContextBuilder
  import opened ContextPromises

  const CLOSING := ["context_truncated", "safety_context_incomplete"]

  /** The context lists the warnings `l`. */
  ghost predicate Lists(d: Fields, l: seq<string>) {
    Get(d, ContextLimitWarnings) == Some(Arr(Strings(l)))
  }

  ghost predicate Distinct(l: seq<string>) {
    forall i, j :: 0 <= i < j < |l| ==> l[i] != l[j]
  }

  lemma {:induction false} RepeatsGone(ws: seq<string>)
    ensures forall w :: w in WithoutRepeats(ws) <==> w in ws
    ensures Distinct(WithoutRepeats(ws))
  {
    if ws != [] {
      RepeatsGone(ws[..|ws| - 1]);
      assert ws == ws[..|ws| - 1] + [ws[|ws| - 1]];
    }
  }

  /** Warnings keep the order in which they were first raised: more of them only add to the end. */
  lemma {:induction false} RepeatsInOrder(ws: seq<string>, more: seq<string>)
    ensures WithoutRepeats(ws) <= WithoutRepeats(ws + more)
    decreases |more|
  {
    if more == [] {
      assert ws + more == ws;
    } else {
      assert (ws + more)[..|ws + more| - 1] == ws + more[..|more| - 1];
      RepeatsInOrder(ws, more[..|more| - 1]);
    }
  }

  lemma EnvelopeLists(b: Builder, mode: string)
    ensures Lists(b.Envelope(mode), ESSENTIAL) && Get(b.Envelope(mode), ContextSectionsOmitted) == Some(Bool(true))
  {
    var e := b.Envelope(mode);
    assert e[1..][1..] == e[2..] && e[2..][1..] == e[3..] && e[3..][1..] == e[4..];
    assert Get(e[4..], ContextLimitWarnings) == Some(Arr(Strings(ESSENTIAL)));
    assert Get(e[3..], ContextSectionsOmitted) == Some(Bool(true));
    assert Get(e[3..], ContextLimitWarnings) == Get(e[4..], ContextLimitWarnings);
    assert Get(e[2..], ContextLimitWarnings) == Get(e[3..], ContextLimitWarnings);
    assert Get(e[2..], ContextSectionsOmitted) == Get(e[3..], ContextSectionsOmitted);
    assert Get(e[1..], ContextLimitWarnings) == Get(e[2..], ContextLimitWarnings);
    assert Get(e[1..], ContextSectionsOmitted) == Get(e[2..], ContextSectionsOmitted);
  }

  lemma BaseLists(b: Builder, d: Fields)
    ensures Lists(b.Base(d), ESSENTIAL) && Get(b.Base(d), ContextSectionsOmitted) == Some(Bool(true))
  {
    hide Length, Builder.Envelope, Lists, Builder.Fits;
    EnvelopeLists(b, b.ModeOf(d));
    SetLists(b.Envelope(b.ModeOf(d)), Mode, Str(BOUNDED_CONTEXT), ESSENTIAL);
  }

  lemma SetLists(d: Fields, k: Key, v: Value, l: seq<string>)
    requires Lists(d, l) && k != ContextLimitWarnings
    ensures Lists(Set(d, k, v), l)
  {
  }

  lemma {:induction false} AddedLists(b: Builder, m: Fields, listed: seq<string>, ws: seq<string>)
    returns (l: seq<string>)
    requires Lists(m, listed)
    ensures Lists(b.AddWarnings(m, listed, ws), l) && listed <= l
    ensures forall w :: w in l ==> w in listed || w in ws
    decreases |ws|
  {
    hide Length, Builder.Fits, ESSENTIAL;
    l := listed;
    if ws != [] {
      var more := listed + [ws[0]];
      var e := Set(m, ContextLimitWarnings, Arr(Strings(more)));
      if ws[0] !in ESSENTIAL && b.Fits(e) {
        l := AddedLists(b, e, more, ws[1..]);
      } else {
        l := AddedLists(b, m, listed, ws[1..]);
      }
    }
  }

  /** The minimal envelope always lists the two essential warnings first, then warnings of the audit. */
  lemma MinimalLists(b: Builder, d: Fields, ws: seq<string>) returns (l: seq<string>)
    requires b.Valid()
    ensures Lists(b.Minimal(d, ws), l) && ESSENTIAL <= l && forall w :: w in l ==> w in ESSENTIAL || w in ws
    ensures Get(b.Minimal(d, ws), ContextSectionsOmitted) == Some(Bool(true))
  {
    hide Length, Bounded, Builder.Valid, Builder.Fits, Builder.Base, Builder.AddWarnings, Builder.AddReferences,
      Builder.Refilled, Builder.RetainAll, WithoutRepeats, ESSENTIAL, Strings;
    var fresh' := WithoutRepeats(ws);
    RepeatsGone(ws);
    BaseFits(b, d);
    BaseLists(b, d);
    l := AddedLists(b, b.Base(d), ESSENTIAL, fresh');
    AddWarningsKeeps(b, b.Base(d), ESSENTIAL, fresh');
    AddReferencesKeeps(b, b.AddWarnings(b.Base(d), ESSENTIAL, fresh'), d, REFERENCES);
    var m := EnvelopeGrows(b, d, fresh');
    var r := EnvelopeRetains(b, d, m);
    RefilledKeeps(b, r, b.LatestText(d));
    assert b.Minimal(d, ws) == b.Refilled(r, b.LatestText(d));
  }

  lemma FlaggedLists(b: Builder, d: Fields, ws: seq<string>)
    ensures Lists(b.Flagged(d, ws), WithoutRepeats(ws + ESSENTIAL + CLOSING))
    ensures Get(b.Flagged(d, ws), ContextSectionsOmitted) == Some(Bool(true))
  {
    hide WithoutRepeats;
    assert |ESSENTIAL| == 2;
  }

  lemma KeptExactly(b: Builder, k: Key, before: Option<Value>, after: Option<Value>)
    requires b.Valid() && k in {ContextLimitWarnings, ContextSectionsOmitted} && KeyKept(b, k, before, after)
    ensures after == before
  {
  }

  /** A context that had to be reduced says so: it lists both limit warnings, lists nothing that was not
      raised, and is marked as having lost sections. Short of the envelope it lists every warning once. */
  lemma ReductionReported(b: Builder, d: Fields, ws: seq<string>) returns (l: seq<string>)
    requires b.Valid() && !b.Fits(Warned(d, ws))
    ensures Lists(b.Finalized(d, ws), l) && (forall w :: w in ESSENTIAL ==> w in l)
    ensures forall w :: w in l ==> w in ws || w in ESSENTIAL || w in CLOSING
    ensures Get(b.Finalized(d, ws), ContextSectionsOmitted) == Some(Bool(true))
    ensures b.Reduced(d, ws).Done? ==> Distinct(l) && forall w :: w in ws ==> w in l
  {
    hide Length, Builder.Valid, Builder.Fits, Builder.Reduced, Builder.Minimal, Builder.Flagged, WithoutRepeats,
      KeyKept, Strings, Warned, ESSENTIAL, CLOSING;
    if b.Reduced(d, ws).Done? {
      l := WithoutRepeats(ws + ESSENTIAL + CLOSING);
      RepeatsGone(ws + ESSENTIAL + CLOSING);
      FlaggedLists(b, d, ws);
      ReducedKeeps(b, d, ws, ContextLimitWarnings);
      ReducedKeeps(b, d, ws, ContextSectionsOmitted);
      KeptExactly(b, ContextLimitWarnings, Get(b.Flagged(d, ws), ContextLimitWarnings),
        Get(b.Reduced(d, ws).fields, ContextLimitWarnings));
      KeptExactly(b, ContextSectionsOmitted, Get(b.Flagged(d, ws), ContextSectionsOmitted),
        Get(b.Reduced(d, ws).fields, ContextSectionsOmitted));
    } else {
      l := MinimalLists(b, d, ws + ESSENTIAL);
    }
  }
}
