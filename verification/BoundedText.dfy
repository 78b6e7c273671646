/** Shortening free text without cutting a protected token in two. */
module BoundedText {
  import opened Spans
  import opened Whitespace

  const MARKER := "\n[...]\n"
  const ELLIPSIS := "\U{2026}"

  /** What iterating over the matches yields: disjoint spans from left to right, each of which
      begins and ends with a character that is not white space. */
  predicate ProperSpans(value: string, spans: seq<Span>) {
    && (forall i :: 0 <= i < |spans| ==> spans[i].start < spans[i].end <= |value|)
    && (forall i, j :: 0 <= i < j < |spans| ==> spans[i].end <= spans[j].start)
    && (forall i :: 0 <= i < |spans| && spans[i].end <= |value| && spans[i].start < spans[i].end ==>
          !IsSpace(value[spans[i].start]) && !IsSpace(value[spans[i].end - 1]))
  }

  predicate Straddles(span: Span, cut: int) {
    span.start < cut < span.end
  }

  /** The end of the kept head: the start of the token the cut falls into, if there is one. */
  function HeadCut(spans: seq<Span>, cut: int): (r: int)
    ensures r <= cut && (cut >= 0 ==> r >= 0)
  {
    if spans == [] then cut
    else if Straddles(spans[0], cut) then spans[0].start
    else HeadCut(spans[1..], cut)
  }

  /** The start of the kept tail: the end of the token the cut falls into, if there is one. */
  function TailCut(spans: seq<Span>, cut: int): (r: int)
    ensures r >= cut
  {
    if spans == [] then cut
    else if Straddles(spans[0], cut) then spans[0].end
    else TailCut(spans[1..], cut)
  }

  /** Whether the text is long enough, and the limit wide enough, for both a head and a tail. */
  predicate IsCut(value: string, limit: int) {
    |value| > limit && limit >= |MARKER|
  }

  lemma {:induction false} TailCutBound(value: string, spans: seq<Span>, cut: int)
    requires ProperSpans(value, spans) && cut <= |value|
    ensures TailCut(spans, cut) <= |value|
  {
    if spans != [] && !Straddles(spans[0], cut) {
      TailCutBound(value, spans[1..], cut);
    }
  }

  function HeadEnd(value: string, limit: int, spans: seq<Span>): (r: nat)
    requires IsCut(value, limit) && ProperSpans(value, spans)
    ensures r <= |value|
  {
    StripEnd(value, HeadCut(spans, (limit - |MARKER|) / 2))
  }

  function TailStart(value: string, limit: int, spans: seq<Span>): (r: nat)
    requires IsCut(value, limit) && ProperSpans(value, spans)
    ensures r <= |value|
  {
    var available := limit - |MARKER|;
    var cut := |value| - (available - available / 2);
    TailCutBound(value, spans, cut);
    StripStart(value, TailCut(spans, cut))
  }

  /** The shortened text. */
  function Bounded(value: string, limit: int, spans: seq<Span>): string
    requires ProperSpans(value, spans)
  {
    if |value| <= limit then value
    else if limit <= 0 then ""
    else if limit < |MARKER| then ELLIPSIS[..1]
    else value[..HeadEnd(value, limit, spans)] + MARKER + value[TailStart(value, limit, spans)..]
  }

  lemma Cuts(value: string, limit: int, spans: seq<Span>)
    requires IsCut(value, limit) && ProperSpans(value, spans)
    ensures var available := limit - |MARKER|;
      var head, tail := HeadCut(spans, available / 2), TailCut(spans, |value| - (available - available / 2));
      && tail <= |value| && 0 <= head
      && HeadEnd(value, limit, spans) == StripEnd(value, head)
      && TailStart(value, limit, spans) == StripStart(value, tail)
  {
    hide IsSpace, StripEnd, StripStart, HeadCut, TailCut;
    var available := limit - |MARKER|;
    TailCutBound(value, spans, |value| - (available - available / 2));
  }

  method BoundText(value: string, limit: int, spans: seq<Span>) returns (bounded: string, truncated: bool)
    requires ProperSpans(value, spans)
    ensures bounded == Bounded(value, limit, spans) && truncated == (|value| > limit)
  {
    hide ProperSpans, HeadEnd, TailStart;
    if |value| <= limit {
      return value, false;
    }
    if limit <= 0 {
      return "", true;
    }
    if limit < |MARKER| {
      return ELLIPSIS[..1], true;
    }
    bounded := CutText(value, limit, spans);
    truncated := true;
  }

  /** Head and tail around the marker, each cut moved out of the token it falls into and stripped. */
  method CutText(value: string, limit: int, spans: seq<Span>) returns (bounded: string)
    requires IsCut(value, limit) && ProperSpans(value, spans)
    ensures bounded == value[..HeadEnd(value, limit, spans)] + MARKER + value[TailStart(value, limit, spans)..]
  {
    hide IsSpace, StripEnd, StripStart, HeadCut, TailCut, ProperSpans, HeadEnd, TailStart;
    var available := limit - |MARKER|;
    var head := available / 2;
    var tail := available - head;
    head := MoveHead(spans, head);
    var tailStart := MoveTail(spans, |value| - tail);
    Cuts(value, limit, spans);
    var prefix := value[..StripEnd(value, head)];
    var suffix := value[StripStart(value, tailStart)..];
    bounded := prefix + MARKER + suffix;
  }

  /** The loop that moves the head cut out of the token it falls into. */
  method MoveHead(spans: seq<Span>, cut: int) returns (head: int)
    ensures head == HeadCut(spans, cut)
  {
    head := cut;
    var i := 0;
    while i < |spans|
      invariant 0 <= i <= |spans|
      invariant head == cut && HeadCut(spans, cut) == HeadCut(spans[i..], cut)
    {
      if spans[i].start < head < spans[i].end {
        head := spans[i].start;
        break;
      }
      i := i + 1;
    }
  }

  /** The loop that moves the tail cut out of the token it falls into. */
  method MoveTail(spans: seq<Span>, cut: int) returns (tailStart: int)
    ensures tailStart == TailCut(spans, cut)
  {
    tailStart := cut;
    var i := 0;
    while i < |spans|
      invariant 0 <= i <= |spans|
      invariant tailStart == cut && TailCut(spans, cut) == TailCut(spans[i..], cut)
    {
      if spans[i].start < tailStart < spans[i].end {
        tailStart := spans[i].end;
        break;
      }
      i := i + 1;
    }
  }

  // ---------------------------------------------------------------------------
  // Promises
  // ---------------------------------------------------------------------------

  /** The text never exceeds its limit. */
  lemma BoundedFits(value: string, limit: int, spans: seq<Span>)
    requires ProperSpans(value, spans) && limit >= 0
    ensures |Bounded(value, limit, spans)| <= limit
  {
  }

  lemma {:induction false} HeadCutClean(spans: seq<Span>, cut: int, s: Span)
    requires forall i :: 0 <= i < |spans| ==> spans[i].start < spans[i].end
    requires forall i, j :: 0 <= i < j < |spans| ==> spans[i].end <= spans[j].start
    requires s in spans
    ensures !Straddles(s, HeadCut(spans, cut))
  {
    if Straddles(spans[0], cut) {
      var i :| 0 <= i < |spans| && spans[i] == s;
    } else if s != spans[0] {
      HeadCutClean(spans[1..], cut, s);
    } else {
      HeadCutOutside(spans[1..], cut, s);
    }
  }

  /** A span before all the others that the cut does not fall into stays clear of the new cut. */
  lemma {:induction false} HeadCutOutside(spans: seq<Span>, cut: int, s: Span)
    requires !Straddles(s, cut) && s.start < s.end
    requires forall i :: 0 <= i < |spans| ==> s.end <= spans[i].start
    ensures !Straddles(s, HeadCut(spans, cut))
  {
    if spans != [] && !Straddles(spans[0], cut) {
      HeadCutOutside(spans[1..], cut, s);
    }
  }

  lemma {:induction false} TailCutClean(spans: seq<Span>, cut: int, s: Span)
    requires forall i :: 0 <= i < |spans| ==> spans[i].start < spans[i].end
    requires forall i, j :: 0 <= i < j < |spans| ==> spans[i].end <= spans[j].start
    requires s in spans
    ensures !Straddles(s, TailCut(spans, cut))
  {
    if Straddles(spans[0], cut) {
      var i :| 0 <= i < |spans| && spans[i] == s;
    } else if s != spans[0] {
      TailCutClean(spans[1..], cut, s);
    } else {
      TailCutOutside(spans[1..], cut, s);
    }
  }

  lemma {:induction false} TailCutOutside(spans: seq<Span>, cut: int, s: Span)
    requires !Straddles(s, cut) && s.start < s.end
    requires forall i :: 0 <= i < |spans| ==> s.end <= spans[i].start && spans[i].start < spans[i].end
    ensures !Straddles(s, TailCut(spans, cut))
  {
    if spans != [] && !Straddles(spans[0], cut) {
      TailCutOutside(spans[1..], cut, s);
    }
  }

  /** Stripping stops at the white space next to a token. */
  lemma StripKeeps(value: string, s: Span, h: nat, t: nat)
    requires s.start < s.end <= |value| && h <= |value| && t <= |value|
    requires !IsSpace(value[s.start]) && !IsSpace(value[s.end - 1])
    requires !Straddles(s, h) && !Straddles(s, t)
    ensures !Straddles(s, StripEnd(value, h)) && !Straddles(s, StripStart(value, t))
  {
    hide IsSpace;
  }

  /**
   * What is kept of a shortened text is its part before `HeadEnd` and its part from `TailStart`
   * on, in this order and without overlap; every protected token lies whole in the one, whole in
   * the other, or outside both.
   */
  lemma TokensStayWhole(value: string, limit: int, spans: seq<Span>, s: Span)
    requires IsCut(value, limit) && ProperSpans(value, spans) && s in spans
    ensures HeadEnd(value, limit, spans) <= TailStart(value, limit, spans)
    ensures
      || s.end <= HeadEnd(value, limit, spans)
      || s.start >= TailStart(value, limit, spans)
      || (s.start >= HeadEnd(value, limit, spans) && s.end <= TailStart(value, limit, spans))
  {
    hide IsSpace, StripEnd, StripStart, HeadCut, TailCut;
    var available := limit - |MARKER|;
    var cut := |value| - (available - available / 2);
    HeadCutClean(spans, available / 2, s);
    TailCutClean(spans, cut, s);
    TailCutBound(value, spans, cut);
    StripKeeps(value, s, HeadCut(spans, available / 2), TailCut(spans, cut));
  }

  lemma {:induction false} HeadCutWithin(spans: seq<Span>, cut: int)
    ensures var r := HeadCut(spans, cut);
      r == cut || exists s :: s in spans && Straddles(s, cut) && s.start == r
  {
    if spans != [] && !Straddles(spans[0], cut) {
      HeadCutWithin(spans[1..], cut);
    } else if spans != [] {
      assert spans[0] in spans;
    }
  }

  lemma {:induction false} TailCutWithin(spans: seq<Span>, cut: int)
    ensures var r := TailCut(spans, cut);
      r == cut || exists s :: s in spans && Straddles(s, cut) && s.end == r
  {
    if spans != [] && !Straddles(spans[0], cut) {
      TailCutWithin(spans[1..], cut);
    } else if spans != [] {
      assert spans[0] in spans;
    }
  }

  /** A token that a cut falls into covers position `i`. */
  ghost predicate InCutToken(spans: seq<Span>, cut: int, i: int) {
    exists s :: s in spans && Straddles(s, cut) && s.start <= i < s.end
  }

  lemma HeadRoom(value: string, spans: seq<Span>, cut: nat)
    requires cut <= |value|
    ensures var h := StripEnd(value, HeadCut(spans, cut));
      h <= cut && forall i :: h <= i < cut ==> IsSpace(value[i]) || InCutToken(spans, cut, i)
  {
    hide IsSpace, HeadCut, StripEnd;
    HeadCutWithin(spans, cut);
  }

  lemma TailRoom(value: string, spans: seq<Span>, cut: nat)
    requires cut <= |value| && TailCut(spans, cut) <= |value|
    ensures var t := StripStart(value, TailCut(spans, cut));
      cut <= t && forall i :: cut <= i < t ==> IsSpace(value[i]) || InCutToken(spans, cut, i)
  {
    hide IsSpace, TailCut, StripStart;
    TailCutWithin(spans, cut);
  }

  /**
   * A shortened text is its head, the marker and its tail. Head and tail have half of the room left by
   * the marker each, the tail the odd character, and of their room nothing is given up except white
   * space and the token that the cut falls into.
   */
  lemma RoomUsed(value: string, limit: int, spans: seq<Span>)
    requires IsCut(value, limit) && ProperSpans(value, spans)
    ensures var h, t := HeadEnd(value, limit, spans), TailStart(value, limit, spans);
      var room := limit - |MARKER|;
      var head, tail := room / 2, |value| - (room - room / 2);
      && Bounded(value, limit, spans) == value[..h] + MARKER + value[t..]
      && h <= head && tail <= t
      && (forall i :: h <= i < head ==> IsSpace(value[i]) || InCutToken(spans, head, i))
      && (forall i :: tail <= i < t ==> IsSpace(value[i]) || InCutToken(spans, tail, i))
  {
    hide IsSpace, HeadCut, TailCut, HeadEnd, TailStart, StripEnd, StripStart, ProperSpans, InCutToken;
    Cuts(value, limit, spans);
    var room := limit - |MARKER|;
    HeadRoom(value, spans, room / 2);
    TailRoom(value, spans, |value| - (room - room / 2));
  }

  /** A text that has been shortened shows it: by the marker, or by an ellipsis where there is no room for one. */
  lemma ShorteningShows(value: string, limit: int, spans: seq<Span>)
    requires ProperSpans(value, spans) && 0 < limit < |value|
    ensures var s := Bounded(value, limit, spans);
      if limit < |MARKER| then s == ELLIPSIS
      else exists a, b :: 0 <= a <= b <= |s| && s[a..b] == MARKER && s[..a] <= value
                          && |value| >= |s| - b && value[|value| - (|s| - b)..] == s[b..]
  {
    hide HeadEnd, TailStart;
    if limit >= |MARKER| {
      var h, t := HeadEnd(value, limit, spans), TailStart(value, limit, spans);
      var s := Bounded(value, limit, spans);
      assert s == value[..h] + MARKER + value[t..];
      assert s[..h] == value[..h] && s[h..h + |MARKER|] == MARKER && s[h + |MARKER|..] == value[t..];
    }
  }
}
