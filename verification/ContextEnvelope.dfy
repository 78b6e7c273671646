/** The minimal envelope is as full as it can be: nothing that it leaves out would still fit into it. */
module ContextEnvelope {
  import opened Wrappers
  import opened Json
  import opened BoundedText
  import opened ContextBuilder
  import opened ContextPromises
  import opened ContextWarnings
  import opened ContextMeasure

  // ---------------------------------------------------------------------------
  // What an entry costs
  // ---------------------------------------------------------------------------

  /** What setting a key adds to the length of a context. */
  function Cost(m: Fields, k: Key, w: Value): int {
    match Get(m, k)
    case Some(before) => Length(w) - Length(before)
    case None => FieldLength(Field(k, w)) + (if m == [] then 0 else 2)
  }

  lemma FieldsHead(f: Field, rest: Fields)
    ensures FieldsLength([f] + rest) == FieldLength(f) + (if rest == [] then 0 else 2 + FieldsLength(rest))
  {
    assert ([f] + rest)[1..] == rest;
  }

  lemma Overwritten(f: Field, w: Value)
    ensures FieldLength(Field(f.key, w)) == FieldLength(f) + Length(w) - Length(f.value)
  {
    hide Length, Key.Name;
  }

  lemma {:induction false} SetLength(m: Fields, k: Key, w: Value)
    ensures FieldsLength(Set(m, k, w)) == FieldsLength(m) + Cost(m, k, w)
  {
    hide FieldsLength, FieldLength, Length;
    if m == [] {
      FieldsHead(Field(k, w), []);
      assert [Field(k, w)] + [] == [Field(k, w)];
      NoFields();
    } else {
      var rest := m[1..];
      assert m == [m[0]] + rest;
      FieldsHead(m[0], rest);
      if m[0].key == k {
        FieldsHead(Field(k, w), rest);
        Overwritten(m[0], w);
      } else {
        SetLength(rest, k, w);
        FieldsHead(m[0], Set(rest, k, w));
        NotEmptied(rest, k, w);
        if rest == [] {
          NoFields();
        }
      }
    }
  }

  lemma NoFields()
    ensures FieldsLength([]) == 0
  {
  }

  lemma NotEmptied(m: Fields, k: Key, w: Value)
    ensures Set(m, k, w) != []
  {
  }

  /** A context that holds at least as much is no shorter. */
  ghost predicate Grown(m: Fields, r: Fields) {
    m != [] && r != [] && FieldsLength(m) <= FieldsLength(r)
  }

  /** What does not fit into a context does not fit into one that has grown elsewhere. */
  lemma StaysTooLong(b: Builder, m: Fields, r: Fields, k: Key, w: Value)
    requires Grown(m, r) && Get(m, k) == Get(r, k) && !b.Fits(Set(m, k, w))
    ensures !b.Fits(Set(r, k, w))
  {
    hide FieldsLength, FieldLength, Set;
    SetLength(m, k, w);
    SetLength(r, k, w);
  }

  lemma SetGrows(m: Fields, k: Key, w: Value)
    requires m != [] && (Get(m, k).Some? ==> Length(Get(m, k).value) <= Length(w))
    ensures Grown(m, Set(m, k, w))
  {
    hide FieldsLength, Length;
    SetLength(m, k, w);
    NotEmptied(m, k, w);
  }

  lemma {:induction false} ItemsAppend(items: seq<Value>, v: Value)
    ensures ItemsLength(items + [v]) == ItemsLength(items) + (if items == [] then 0 else 2) + Length(v)
  {
    hide Length;
    if items == [] {
      assert items + [v] == [v];
    } else {
      assert (items + [v])[1..] == items[1..] + [v];
      ItemsAppend(items[1..], v);
    }
  }

  // ---------------------------------------------------------------------------
  // Warnings
  // ---------------------------------------------------------------------------

  lemma WarningCost(m: Fields, l: seq<string>, w: string)
    requires Lists(m, l) && l != [] && m != []
    ensures FieldsLength(Set(m, ContextLimitWarnings, Arr(Strings(l + [w])))) == FieldsLength(m) + 2 + StringLength(w)
  {
    hide FieldsLength, StringLength, ItemsLength;
    SetLength(m, ContextLimitWarnings, Arr(Strings(l + [w])));
    assert Strings(l + [w]) == Strings(l) + [Str(w)];
    ItemsAppend(Strings(l), Str(w));
  }

  /** The context lists the warnings `l`, and has no room for this one. */
  ghost predicate NoRoomFor(b: Builder, m: Fields, l: seq<string>, w: string) {
    Lists(m, l) && !b.Fits(Set(m, ContextLimitWarnings, Arr(Strings(l + [w]))))
  }

  lemma NoRoomLater(b: Builder, m: Fields, l: seq<string>, r: Fields, k: seq<string>, w: string)
    requires NoRoomFor(b, m, l, w) && l != [] && Grown(m, r) && Lists(r, k) && k != []
    ensures NoRoomFor(b, r, k, w)
  {
    hide FieldsLength, StringLength, Lists, Strings;
    WarningCost(m, l, w);
    WarningCost(r, k, w);
  }

  lemma {:induction false} WarningsFill(b: Builder, m: Fields, listed: seq<string>, ws: seq<string>)
      returns (l: seq<string>)
    requires Lists(m, listed) && listed != [] && m != []
    ensures var r := b.AddWarnings(m, listed, ws);
      && Lists(r, l) && listed <= l && Grown(m, r)
      && forall w :: w in ws && w !in ESSENTIAL && w !in l ==> NoRoomFor(b, r, l, w)
    decreases |ws|
  {
    hide FieldsLength, Builder.Fits, ESSENTIAL, Lists, Strings, NoRoomFor;
    l := listed;
    var r := b.AddWarnings(m, listed, ws);
    if ws == [] {
      GrownSame(m);
    } else {
      var more := listed + [ws[0]];
      var e := Set(m, ContextLimitWarnings, Arr(Strings(more)));
      if ws[0] !in ESSENTIAL && b.Fits(e) {
        WarningAdded(m, listed, ws[0]);
        l := WarningsFill(b, e, more, ws[1..]);
        GrownTwice(m, e, r);
        assert l[|listed|] == more[|listed|] == ws[0];
      } else {
        l := WarningsFill(b, m, listed, ws[1..]);
        if ws[0] !in ESSENTIAL {
          assert NoRoomFor(b, m, listed, ws[0]) by { NoRoomHere(b, m, listed, ws[0]); }
          NoRoomLater(b, m, listed, r, l, ws[0]);
        }
      }
      assert forall w :: w in ws <==> w == ws[0] || w in ws[1..];
    }
  }

  lemma NoRoomHere(b: Builder, m: Fields, l: seq<string>, w: string)
    requires Lists(m, l) && !b.Fits(Set(m, ContextLimitWarnings, Arr(Strings(l + [w]))))
    ensures NoRoomFor(b, m, l, w)
  {
  }

  lemma WarningAdded(m: Fields, l: seq<string>, w: string)
    requires Lists(m, l) && l != [] && m != []
    ensures var e := Set(m, ContextLimitWarnings, Arr(Strings(l + [w])));
      Grown(m, e) && Lists(e, l + [w])
  {
    hide FieldsLength, StringLength, Strings;
    WarningCost(m, l, w);
    NotEmptied(m, ContextLimitWarnings, Arr(Strings(l + [w])));
  }

  lemma GrownSame(m: Fields)
    requires m != []
    ensures Grown(m, m)
  {
  }

  lemma GrownTwice(m: Fields, e: Fields, r: Fields)
    requires Grown(m, e) && Grown(e, r)
    ensures Grown(m, r)
  {
  }

  // ---------------------------------------------------------------------------
  // References
  // ---------------------------------------------------------------------------

  /** A reference that was there and is left out would not fit. */
  ghost predicate ReferenceFills(b: Builder, d: Fields, r: Fields, k: Key) {
    Get(r, k) == None && Get(d, k).Some? && Get(d, k).value != Null ==> !b.Fits(Set(r, k, Get(d, k).value))
  }

  lemma ReferenceLater(b: Builder, d: Fields, m: Fields, r: Fields, k: Key)
    requires Grown(m, r) && Get(m, k) == Get(r, k) && ReferenceFills(b, d, m, k)
    ensures ReferenceFills(b, d, r, k)
  {
    hide Length, Grown;
    if Get(r, k) == None && Get(d, k).Some? && Get(d, k).value != Null {
      StaysTooLong(b, m, r, k, Get(d, k).value);
    }
  }

  lemma {:induction false} ReferencesFill(b: Builder, m: Fields, d: Fields, keys: seq<Key>)
    requires m != [] && (forall k :: k in keys ==> Get(m, k) == None)
    requires forall i, j :: 0 <= i < j < |keys| ==> keys[i] != keys[j]
    ensures var r := b.AddReferences(m, d, keys);
      Grown(m, r) && forall k :: k in keys ==> ReferenceFills(b, d, r, k)
    decreases |keys|
  {
    hide FieldsLength, Builder.Fits, ReferenceFills, Grown;
    var r := b.AddReferences(m, d, keys);
    if keys == [] {
      GrownSame(m);
    } else {
      var v := Get(d, keys[0]);
      var e := if v.Some? && v.value != Null && b.Fits(Set(m, keys[0], v.value)) then Set(m, keys[0], v.value) else m;
      assert r == b.AddReferences(e, d, keys[1..]);
      if e != m {
        SetGrows(m, keys[0], v.value);
        NotEmptied(m, keys[0], v.value);
      } else {
        GrownSame(m);
      }
      ReferencesFill(b, e, d, keys[1..]);
      GrownTwice(m, e, r);
      FirstReference(b, d, m, e, keys[0]);
      AddReferencesLeave(b, e, d, keys[1..]);
      ReferenceLater(b, d, e, r, keys[0]);
    }
  }

  lemma FirstReference(b: Builder, d: Fields, m: Fields, e: Fields, k: Key)
    requires Get(m, k) == None
    requires var v := Get(d, k);
      e == if v.Some? && v.value != Null && b.Fits(Set(m, k, v.value)) then Set(m, k, v.value) else m
    ensures ReferenceFills(b, d, e, k)
  {
    hide Length;
  }

  lemma {:induction false} AddReferencesLeave(b: Builder, m: Fields, d: Fields, keys: seq<Key>)
    ensures forall k :: k !in keys ==> Get(b.AddReferences(m, d, keys), k) == Get(m, k)
    decreases |keys|
  {
    hide Length;
    if keys != [] {
      var v := Get(d, keys[0]);
      if v.Some? && v.value != Null && b.Fits(Set(m, keys[0], v.value)) {
        AddReferencesLeave(b, Set(m, keys[0], v.value), d, keys[1..]);
      } else {
        AddReferencesLeave(b, m, d, keys[1..]);
      }
    }
  }

  // ---------------------------------------------------------------------------
  // Candidates
  // ---------------------------------------------------------------------------

  /** The first `n` compact records of a list are there, and one more would not fit. */
  ghost predicate CandidatesFill(b: Builder, r: Fields, k: Key, items: seq<Value>, n: int) {
    && 0 <= n <= |items|
    && Get(r, k) == (if n == 0 then None else Some(Arr(CompactAll(items)[..n])))
    && (n < |items| ==> !b.Fits(Set(r, k, Arr(CompactAll(items)[..n + 1]))))
  }

  lemma CandidatesLater(b: Builder, m: Fields, r: Fields, k: Key, items: seq<Value>, n: int)
    requires Grown(m, r) && Get(m, k) == Get(r, k) && CandidatesFill(b, m, k, items, n)
    ensures CandidatesFill(b, r, k, items, n)
  {
    hide Length, Grown;
    if n < |items| {
      StaysTooLong(b, m, r, k, Arr(CompactAll(items)[..n + 1]));
    }
  }

  lemma {:induction false} RetainFills(b: Builder, m: Fields, key: Key, items: seq<Value>, k: nat,
      retained: seq<Value>) returns (n: int)
    requires m != [] && k <= |items| && retained == CompactAll(items)[..k]
    requires Get(m, key) == if k == 0 then None else Some(Arr(retained))
    ensures var r := b.Retain(m, key, retained, items[k..]);
      && Grown(m, r) && CandidatesFill(b, r, key, items, n)
      && forall j :: j != key ==> Get(r, j) == Get(m, j)
    decreases |items| - k
  {
    hide Length, Grown;
    n := k;
    if k < |items| {
      var more := retained + [Compact(items[k])];
      var e := Set(m, key, Arr(more));
      assert more == CompactAll(items)[..k + 1];
      if b.Fits(e) {
        RetainedGrows(m, key, retained, Compact(items[k]));
        n := RetainFills(b, e, key, items, k + 1, more);
        assert items[k..][1..] == items[k + 1..];
        GrownTwice(m, e, b.Retain(m, key, retained, items[k..]));
      } else {
        GrownSame(m);
      }
    } else {
      GrownSame(m);
    }
  }

  lemma RetainedGrows(m: Fields, key: Key, retained: seq<Value>, v: Value)
    requires m != [] && Get(m, key) in {None, Some(Arr(retained))}
    ensures Grown(m, Set(m, key, Arr(retained + [v]))) && Set(m, key, Arr(retained + [v])) != []
  {
    hide FieldsLength, ItemsLength, Set;
    ItemsAppend(retained, v);
    SetGrows(m, key, Arr(retained + [v]));
    NotEmptied(m, key, Arr(retained + [v]));
  }

  /** Each list of candidates is as full as it can be. */
  ghost predicate ListsFill(b: Builder, d: Fields, r: Fields, k: Key)
    requires Get(d, k).Some? && Get(d, k).value.Arr?
  {
    exists n :: CandidatesFill(b, r, k, Get(d, k).value.items, n)
  }

  lemma {:induction false} RetainAllFills(b: Builder, m: Fields, d: Fields, keys: seq<Key>)
    requires forall k :: k in keys ==> Get(d, k).Some? && Get(d, k).value.Arr?
    requires forall i, j :: 0 <= i < j < |keys| ==> keys[i] != keys[j]
    requires m != [] && forall k :: k in keys ==> Get(m, k) == None
    ensures var r := b.RetainAll(m, d, keys);
      && Grown(m, r) && (forall k :: k in keys ==> ListsFill(b, d, r, k))
      && forall k :: k !in keys ==> Get(r, k) == Get(m, k)
    decreases |keys|
  {
    hide Length, Grown, CandidatesFill, Builder.Fits, Builder.Retain;
    var r := b.RetainAll(m, d, keys);
    if keys == [] {
      GrownSame(m);
    } else {
      var items := Get(d, keys[0]).value.items;
      assert items[0..] == items && CompactAll(items)[..0] == [];
      var n := RetainFills(b, m, keys[0], items, 0, []);
      var e := b.Retain(m, keys[0], [], items);
      GrownNonEmpty(m, e);
      RetainAllFills(b, e, d, keys[1..]);
      GrownTwice(m, e, r);
      CandidatesLater(b, e, r, keys[0], items, n);
    }
  }

  lemma GrownNonEmpty(m: Fields, r: Fields)
    requires Grown(m, r)
    ensures r != []
  {
  }

  // ---------------------------------------------------------------------------
  // The latest message, and all of it
  // ---------------------------------------------------------------------------

  /** The latest message is shortened to a limit that fits and whose next one does not. */
  ghost predicate LatestFills(b: Builder, r: Fields, latest: string)
    requires b.Valid()
  {
    exists limit :: LastFitting(b, r, LatestUserMessage, latest, limit)
                    && Get(r, LatestUserMessage) == Some(Str(b.Shorten(latest, limit)))
  }

  lemma RefilledFills(b: Builder, m: Fields, latest: string)
    requires b.Valid() && m != [] && b.Fits(m) && Get(m, LatestUserMessage) == Some(Str(""))
    ensures var r := b.Refilled(m, latest);
      Grown(m, r) && (latest != "" ==> LatestFills(b, r, latest))
  {
    hide Length, Bounded, Builder.Valid, Builder.Fits, Builder.Search, LastFitting, Grown;
    var k := LatestUserMessage;
    assert b.Shrunk(m, k) == (true, m) by { BlankShrunk(b, m); }
    if latest == "" {
      GrownSame(m);
    } else {
      var e := Set(m, k, Str(latest));
      SetSet(m, k, Str(latest), Str(""));
      SetSame(m, k, Str(""));
      var limit := ShrunkToLastFitting(b, e, k);
      var r := Set(e, k, Str(b.Shorten(latest, limit)));
      SetSet(m, k, Str(latest), Str(b.Shorten(latest, limit)));
      SameFitting(b, m, e, latest, limit);
      SameFitting(b, m, r, latest, limit);
      BlankShortest(b.Shorten(latest, limit));
      SetGrows(m, k, Str(b.Shorten(latest, limit)));
      assert b.Refilled(m, latest) == r;
    }
  }

  lemma BlankShrunk(b: Builder, m: Fields)
    requires b.Valid() && b.Fits(m) && Get(m, LatestUserMessage) == Some(Str(""))
    ensures b.Shrunk(m, LatestUserMessage) == (true, m)
  {
    hide Length;
  }

  lemma BlankShortest(s: string)
    ensures Length(Str("")) <= Length(Str(s))
  {
    EmptyLength();
  }

  /** Where the latest message stands in a context does not depend on the one that stood there before. */
  lemma SameFitting(b: Builder, m: Fields, e: Fields, latest: string, limit: int)
    requires b.Valid() && exists v :: e == Set(m, LatestUserMessage, v)
    ensures LastFitting(b, m, LatestUserMessage, latest, limit) <==>
      LastFitting(b, e, LatestUserMessage, latest, limit)
  {
    hide Length, Bounded, Builder.Fits;
    var v :| e == Set(m, LatestUserMessage, v);
    forall w ensures Set(e, LatestUserMessage, w) == Set(m, LatestUserMessage, w) {
      SetSet(m, LatestUserMessage, v, w);
    }
  }

  /** The envelope with its warnings, with its references and with its candidates. */
  lemma EnvelopeStages(b: Builder, d: Fields, ws: seq<string>)
      returns (l: seq<string>, m1: Fields, m2: Fields, m3: Fields)
    requires b.Valid()
    ensures Lists(m1, l) && l != [] && forall w :: w in ws && w !in l ==> NoRoomFor(b, m1, l, w)
    ensures forall k :: k in REFERENCES ==> ReferenceFills(b, d, m2, k)
    ensures forall k :: k in CandidateKeys(d) ==> ListsFill(b, d, m3, k)
    ensures b.Fits(m3) && Get(m3, LatestUserMessage) == Some(Str(""))
    ensures b.Minimal(d, ws) == b.Refilled(m3, b.LatestText(d))
    ensures Grown(m1, m2) && Grown(m2, m3)
    ensures forall k :: k != ContextLimitWarnings ==> Get(m1, k) == Get(b.Base(d), k)
    ensures forall k :: k !in REFERENCES ==> Get(m1, k) == Get(m2, k)
    ensures forall k :: k !in CANDIDATES ==> Get(m2, k) == Get(m3, k)
  {
    hide Length, Bounded, Builder.Valid, Builder.Fits, Builder.Base, Builder.AddWarnings, Builder.AddReferences,
      Builder.RetainAll, Builder.Refilled, WithoutRepeats, Strings, Grown, NoRoomFor, ReferenceFills, CandidatesFill,
      ListsFill, Lists, ESSENTIAL;
    var once := WithoutRepeats(ws);
    RepeatsGone(ws);
    var m0 := b.Base(d);
    BaseFits(b, d);
    BaseLists(b, d);
    BaseNonEmpty(b, d);
    l := WarningsFill(b, m0, ESSENTIAL, once);
    forall w | w in ESSENTIAL ensures w in l {
      var i :| 0 <= i < |ESSENTIAL| && ESSENTIAL[i] == w;
      assert l[i] == w;
    }
    AddWarningsKeeps(b, m0, ESSENTIAL, once);
    m1 := b.AddWarnings(m0, ESSENTIAL, once);
    GrownNonEmpty(m0, m1);
    ReferencesFill(b, m1, d, REFERENCES);
    AddReferencesKeeps(b, m1, d, REFERENCES);
    m2 := b.AddReferences(m1, d, REFERENCES);
    GrownNonEmpty(m1, m2);
    RetainAllFills(b, m2, d, CandidateKeys(d));
    m3 := EnvelopeRetains(b, d, m2);
  }

  lemma ListsCarried(m: Fields, r: Fields, l: seq<string>)
    requires Lists(m, l) && Get(m, ContextLimitWarnings) == Get(r, ContextLimitWarnings)
    ensures Lists(r, l)
  {
  }

  lemma ListsFillLater(b: Builder, d: Fields, m: Fields, r: Fields, k: Key)
    requires Get(d, k).Some? && Get(d, k).value.Arr?
    requires Grown(m, r) && Get(m, k) == Get(r, k) && ListsFill(b, d, m, k)
    ensures ListsFill(b, d, r, k)
  {
    hide Grown, CandidatesFill;
    var n :| CandidatesFill(b, m, k, Get(d, k).value.items, n);
    CandidatesLater(b, m, r, k, Get(d, k).value.items, n);
  }

  /** Whatever the envelope leaves out, a warning, a reference, the next candidate, one more character of the
      latest message, would take it over the cap. */
  lemma NothingLeftOutFits(b: Builder, d: Fields, ws: seq<string>) returns (l: seq<string>)
    requires b.Valid()
    ensures var r := b.Minimal(d, ws);
      && Lists(r, l) && (forall w :: w in ws && w !in l ==> NoRoomFor(b, r, l, w))
      && (forall k :: k in [RequestReference, RequestStatus] ==> ReferenceFills(b, d, r, k))
      && (forall k :: k in CandidateKeys(d) ==> ListsFill(b, d, r, k))
      && (b.LatestText(d) != "" ==> LatestFills(b, r, b.LatestText(d)))
  {
    hide Length, Bounded, Builder.Valid, Builder.Fits, Builder.Minimal, Builder.Refilled, Strings, Grown, NoRoomFor,
      ReferenceFills, CandidatesFill, LatestFills, ListsFill, Lists;
    var m1, m2, m3;
    l, m1, m2, m3 := EnvelopeStages(b, d, ws);
    GrownNonEmpty(m2, m3);
    RefilledFills(b, m3, b.LatestText(d));
    RefilledKeeps(b, m3, b.LatestText(d));
    var r := b.Minimal(d, ws);
    GrownTwice(m2, m3, r);
    GrownTwice(m1, m2, r);
    ListsCarried(m1, r, l);
    forall w | w in ws && w !in l ensures NoRoomFor(b, r, l, w) {
      NoRoomLater(b, m1, l, r, l, w);
    }
    forall k | k in REFERENCES ensures ReferenceFills(b, d, r, k) {
      ReferenceLater(b, d, m2, r, k);
    }
    forall k | k in CandidateKeys(d) ensures ListsFill(b, d, r, k) {
      ListsFillLater(b, d, m3, r, k);
    }
  }

  lemma BaseNonEmpty(b: Builder, d: Fields)
    ensures b.Base(d) != [] && ESSENTIAL != []
  {
    hide Length;
  }

  /** The envelope has the mode of the context if that is a text of at most 64 characters and fits, else the
      fallback mode. */
  lemma EnvelopeMode(b: Builder, d: Fields, ws: seq<string>)
    requires b.Valid()
    ensures Get(b.Minimal(d, ws), Mode) ==
      match Get(d, Mode)
      case Some(Str(mode)) =>
        Some(Str(if |mode| <= 64 && b.Fits(b.Envelope(mode)) then mode else "bounded_context"))
      case _ => Some(Str("bounded_context"))
  {
    hide Length, Bounded, Builder.Valid, Builder.Fits, Builder.Minimal, Builder.Refilled, Strings, Grown, Builder.Base,
      NoRoomFor, ReferenceFills, CandidatesFill, LatestFills, ListsFill, Lists;
    var l, m1, m2, m3 := EnvelopeStages(b, d, ws);
    RefilledKeeps(b, m3, b.LatestText(d));
    BaseMode(b, d);
  }

  lemma BaseMode(b: Builder, d: Fields)
    ensures Get(b.Base(d), Mode) ==
      match Get(d, Mode)
      case Some(Str(mode)) =>
        Some(Str(if |mode| <= 64 && b.Fits(b.Envelope(mode)) then mode else "bounded_context"))
      case _ => Some(Str("bounded_context"))
  {
    hide Length, Builder.Fits;
  }
}
