/**
 * Pool-adjacent-violators calibration.
 *
 * The specification keeps, for every block, the very points it has absorbed; the program keeps
 * only their right-most confidence, label sum and weight.
 */
module Isotonic {
  import opened Points

  /** One entry of the working list `grouped`. */
  datatype Block = Block(maxX: real, sumY: real, weight: real)

  /** One entry of the fitted parameters. */
  datatype Step = Step(maxConfidence: real, probability: real)

  type Segments = seq<seq<Point>>

  function Last<T>(s: seq<T>): T
    requires s != []
  {
    s[|s| - 1]
  }

  predicate NonEmpty(ss: Segments) {
    forall j :: 0 <= j < |ss| ==> ss[j] != []
  }

  function Flatten(ss: Segments): seq<Point> {
    if ss == [] then [] else Flatten(ss[..|ss| - 1]) + Last(ss)
  }

  function Ratio(p: nat, n: nat): real
    requires n > 0
  {
    p as real / n as real
  }

  function Mean(seg: seq<Point>): real
    requires seg != []
  {
    Ratio(Ones(seg), |seg|)
  }

  /** The point joins the last block when it repeats that block's confidence. */
  function Add(ss: Segments, p: Point): (r: Segments)
    requires NonEmpty(ss)
    ensures NonEmpty(r) && r != []
  {
    if ss != [] && Last(Last(ss)).x == p.x then
      ss[..|ss| - 1] + [Last(ss) + [p]]
    else
      ss + [[p]]
  }

  function Merged(ss: Segments): (r: Segments)
    requires |ss| >= 2 && NonEmpty(ss)
    ensures NonEmpty(r) && |r| == |ss| - 1
  {
    ss[..|ss| - 2] + [ss[|ss| - 2] + ss[|ss| - 1]]
  }

  /** Merges the last two blocks for as long as the left mean exceeds the right one. */
  function Pool(ss: Segments): (r: Segments)
    requires NonEmpty(ss)
    ensures NonEmpty(r) && (ss != [] ==> r != [])
    decreases |ss|
  {
    if |ss| < 2 || Mean(ss[|ss| - 2]) <= Mean(ss[|ss| - 1]) then ss else Pool(Merged(ss))
  }

  /** The blocks after the points of an ordered list have been taken in. */
  function Blocks(s: seq<Point>): (r: Segments)
    ensures NonEmpty(r) && (s != [] ==> r != [])
  {
    if s == [] then [] else Pool(Add(Blocks(s[..|s| - 1]), Last(s)))
  }

  function Summary(seg: seq<Point>): Block
    requires seg != []
  {
    Block(Last(seg).x, Ones(seg) as real, |seg| as real)
  }

  function Summaries(ss: Segments): (r: seq<Block>)
    requires NonEmpty(ss)
    ensures |r| == |ss| && forall j :: 0 <= j < |ss| ==> r[j] == Summary(ss[j])
  {
    seq(|ss|, j requires 0 <= j < |ss| && ss[j] != [] => Summary(ss[j]))
  }

  function Steps(ss: Segments): (r: seq<Step>)
    requires NonEmpty(ss)
    ensures |r| == |ss|
    ensures forall j :: 0 <= j < |ss| ==> r[j] == Step(Last(ss[j]).x, Mean(ss[j]))
  {
    seq(|ss|, j requires 0 <= j < |ss| && ss[j] != [] => Step(Last(ss[j]).x, Mean(ss[j])))
  }

  function Fit(points: seq<Point>): (steps: seq<Step>)
    ensures points != [] ==> steps != []
  {
    assert |Sorted(points)| == |multiset(points)|;
    Steps(Blocks(Sorted(points)))
  }

  /** Merging the last two blocks adds up their sums and weights and keeps the right bound. */
  lemma SummariesMerged(ss: Segments)
    requires |ss| >= 2 && NonEmpty(ss)
    ensures var left, right := Summaries(ss)[|ss| - 2], Summaries(ss)[|ss| - 1];
      && left.weight > 0.0 && right.weight > 0.0
      && (left.sumY / left.weight <= right.sumY / right.weight <==> Mean(ss[|ss| - 2]) <= Mean(ss[|ss| - 1]))
      && Summaries(Merged(ss)) ==
         Summaries(ss)[..|ss| - 2] + [Block(right.maxX, left.sumY + right.sumY, left.weight + right.weight)]
  {
    hide Ones;
    OnesConcat(ss[|ss| - 2], ss[|ss| - 1]);
  }

  /** The pooling loop, run each time a point has been taken in. */
  method PoolLast(blocks: seq<Block>, ghost ss: Segments) returns (grouped: seq<Block>)
    requires NonEmpty(ss) && blocks == Summaries(ss)
    ensures grouped == Summaries(Pool(ss))
  {
    hide Mean, Summary, Merged;
    grouped := blocks;
    ghost var rs := ss;
    while |grouped| >= 2
      invariant NonEmpty(rs) && grouped == Summaries(rs) && Pool(rs) == Pool(ss)
    {
      SummariesMerged(rs);
      var left, right := grouped[|grouped| - 2], grouped[|grouped| - 1];
      if left.sumY / left.weight <= right.sumY / right.weight {
        break;
      }
      left := Block(right.maxX, left.sumY + right.sumY, left.weight + right.weight);
      grouped := grouped[|grouped| - 2 := left];
      grouped := grouped[..|grouped| - 1];
      rs := Merged(rs);
    }
  }

  /** A point joins the last block on an equal confidence, else it opens a block of its own. */
  method TakeIn(blocks: seq<Block>, p: Point, ghost ss: Segments) returns (grouped: seq<Block>)
    requires NonEmpty(ss) && blocks == Summaries(ss)
    ensures grouped == Summaries(Add(ss, p))
  {
    AddSummaries(ss, p);
    if blocks != [] && Last(blocks).maxX == p.x {
      var last := Last(blocks);
      grouped := blocks[|blocks| - 1 := last.(sumY := last.sumY + Label(p), weight := last.weight + 1.0)];
    } else {
      grouped := blocks + [Block(p.x, Label(p), 1.0)];
    }
  }

  lemma BlocksNext(s: seq<Point>, k: nat)
    requires k < |s|
    ensures Blocks(s[..k + 1]) == Pool(Add(Blocks(s[..k]), s[k]))
  {
    assert s[..k + 1][..k] == s[..k];
  }

  method FitIsotonic(points: seq<Point>) returns (steps: seq<Step>)
    ensures steps == Fit(points)
  {
    var order := Sorted(points);
    var grouped: seq<Block> := [];
    var k := 0;
    while k < |order|
      invariant 0 <= k <= |order| && grouped == Summaries(Blocks(order[..k]))
    {
      ghost var ss := Blocks(order[..k]);
      grouped := TakeIn(grouped, order[k], ss);
      grouped := PoolLast(grouped, Add(ss, order[k]));
      BlocksNext(order, k);
      k := k + 1;
    }
    assert order[..|order|] == order;
    steps := Probabilities(grouped, Blocks(order));
  }

  /** The fitted parameters keep of each block its bound and its mean. */
  method Probabilities(grouped: seq<Block>, ghost ss: Segments) returns (steps: seq<Step>)
    requires NonEmpty(ss) && grouped == Summaries(ss)
    ensures steps == Steps(ss)
  {
    steps := seq(|grouped|, j requires 0 <= j < |grouped| && grouped[j].weight != 0.0 =>
      Step(grouped[j].maxX, grouped[j].sumY / grouped[j].weight));
  }

  lemma AddSummaries(ss: Segments, p: Point)
    requires NonEmpty(ss)
    ensures Summaries(Add(ss, p)) ==
      if ss != [] && Last(Last(ss)).x == p.x then
        var b := Last(Summaries(ss));
        Summaries(ss)[|ss| - 1 := Block(b.maxX, b.sumY + Label(p), b.weight + 1.0)]
      else
        Summaries(ss) + [Block(p.x, Label(p), 1.0)]
  {
    OnesConcat([], [p]);
    assert [] + [p] == [p];
    if ss != [] {
      OnesConcat(Last(ss), [p]);
    }
  }

  /** The first block whose bound the value does not pass, else the last one. */
  function Predict(steps: seq<Step>, raw: real): real
    requires steps != []
  {
    if raw <= steps[0].maxConfidence || |steps| == 1 then
      steps[0].probability
    else
      Predict(steps[1..], raw)
  }

  /** The loop over the fitted steps. */
  method ReadSteps(steps: seq<Step>, raw: real) returns (probability: real)
    requires steps != []
    ensures probability == Predict(steps, raw)
    ensures exists j :: Reads(steps, raw, j) && probability == steps[j].probability
  {
    var k := 0;
    while k < |steps|
      invariant 0 <= k <= |steps| && forall i :: 0 <= i < k ==> raw > steps[i].maxConfidence
    {
      if raw <= steps[k].maxConfidence {
        PredictFirst(steps, raw, k);
        return steps[k].probability;
      }
      k := k + 1;
    }
    PredictFirst(steps, raw, |steps| - 1);
    return steps[|steps| - 1].probability;
  }

  /** Step `j` is the one a value is read from: the first whose bound it does not pass, or the last. */
  ghost predicate Reads(steps: seq<Step>, raw: real, j: int) {
    && 0 <= j < |steps|
    && (forall i :: 0 <= i < j ==> raw > steps[i].maxConfidence)
    && (raw <= steps[j].maxConfidence || j == |steps| - 1)
  }

  lemma {:induction false} PredictFirst(steps: seq<Step>, raw: real, j: int)
    requires Reads(steps, raw, j)
    ensures Predict(steps, raw) == steps[j].probability
  {
    if j > 0 {
      assert raw > steps[0].maxConfidence;
      PredictFirst(steps[1..], raw, j - 1);
    }
  }

  // ---------------------------------------------------------------------------
  // What the blocks look like, ties or not
  // ---------------------------------------------------------------------------

  ghost predicate Rising(seg: seq<Point>) {
    forall i, j :: 0 <= i < j < |seg| ==> seg[i].x <= seg[j].x
  }

  /**
   * Blocks follow each other without sharing a confidence, and a block reaches over several
   * confidences only by having absorbed a positive label.
   */
  ghost predicate Separated(ss: Segments)
    requires NonEmpty(ss)
  {
    ss == [] ||
    (&& Separated(ss[..|ss| - 1])
     && Rising(Last(ss))
     && (Last(ss)[0].x < Last(Last(ss)).x ==> Ones(Last(ss)) > 0)
     && (|ss| >= 2 ==> Last(ss[|ss| - 2]).x < Last(ss)[0].x))
  }

  ghost predicate Ascending(ss: Segments)
    requires NonEmpty(ss)
  {
    |ss| < 2 || (Ascending(ss[..|ss| - 1]) && Mean(ss[|ss| - 2]) <= Mean(ss[|ss| - 1]))
  }

  lemma RatioRange(p: nat, n: nat)
    requires 0 < n && p <= n
    ensures 0.0 <= Ratio(p, n) <= 1.0 && Ratio(n, n) == 1.0
  {
  }

  lemma LargerMeanPositive(a: seq<Point>, b: seq<Point>)
    requires a != [] && b != [] && Mean(a) > Mean(b)
    ensures Ones(a) > 0
  {
    RatioRange(Ones(b), |b|);
  }

  lemma FlattenLast(ss: Segments)
    requires NonEmpty(ss) && ss != []
    ensures Flatten(ss) != [] && Last(Flatten(ss)) == Last(Last(ss))
  {
  }

  lemma FlattenSnoc(ss: Segments, seg: seq<Point>)
    ensures Flatten(ss + [seg]) == Flatten(ss) + seg
  {
    assert (ss + [seg])[..|ss|] == ss;
  }

  lemma LastTwo<T>(s: seq<T>)
    requires |s| >= 2
    ensures s == s[..|s| - 2] + [s[|s| - 2]] + [s[|s| - 1]]
  {
  }

  lemma Regroup<T>(s: seq<T>, a: seq<T>, b: seq<T>)
    ensures s + a + b == s + (a + b)
  {
  }

  lemma MergedFlatten(ss: Segments)
    requires |ss| >= 2 && NonEmpty(ss)
    ensures Flatten(Merged(ss)) == Flatten(ss)
  {
    hide Flatten, NonEmpty;
    var front, a, b := ss[..|ss| - 2], ss[|ss| - 2], ss[|ss| - 1];
    LastTwo(ss);
    FlattenSnoc(front, a);
    FlattenSnoc(front + [a], b);
    FlattenSnoc(front, a + b);
    Regroup(Flatten(front), a, b);
  }

  lemma MergedSlices(ss: Segments)
    requires |ss| >= 2 && NonEmpty(ss)
    ensures Merged(ss)[..|ss| - 2] == ss[..|ss| - 1][..|ss| - 2]
    ensures Last(Merged(ss)) == ss[|ss| - 2] + ss[|ss| - 1]
  {
    hide NonEmpty;
  }

  lemma MergedParts(ss: Segments)
    requires |ss| >= 2 && NonEmpty(ss)
    ensures Flatten(Merged(ss)) == Flatten(ss)
    ensures Merged(ss)[..|ss| - 2] == ss[..|ss| - 1][..|ss| - 2]
    ensures Last(Merged(ss)) == ss[|ss| - 2] + ss[|ss| - 1]
    ensures Ones(Last(Merged(ss))) == Ones(ss[|ss| - 2]) + Ones(ss[|ss| - 1])
  {
    hide Flatten, Ones, Merged, NonEmpty;
    MergedFlatten(ss);
    MergedSlices(ss);
    OnesConcat(ss[|ss| - 2], ss[|ss| - 1]);
  }

  lemma RisingConcat(a: seq<Point>, b: seq<Point>)
    requires a != [] && b != [] && Rising(a) && Rising(b) && Last(a).x <= b[0].x
    ensures Rising(a + b)
  {
    forall i, j | 0 <= i < j < |a + b| ensures (a + b)[i].x <= (a + b)[j].x {
      if i < |a| <= j {
        assert a[i].x <= Last(a).x && b[0].x <= b[j - |a|].x;
      }
    }
  }

  lemma MergedSeparated(ss: Segments)
    requires |ss| >= 2 && NonEmpty(ss) && Separated(ss) && Ones(ss[|ss| - 2]) > 0
    ensures Separated(Merged(ss))
  {
    var init := ss[..|ss| - 1];
    MergedParts(ss);
    assert Separated(init) && Last(init) == ss[|ss| - 2];
    assert |init| >= 2 ==> init[|init| - 2] == Merged(ss)[|ss| - 3];
    RisingConcat(ss[|ss| - 2], ss[|ss| - 1]);
  }

  lemma MergedStructure(ss: Segments)
    requires |ss| >= 2 && NonEmpty(ss) && Separated(ss) && Ascending(ss[..|ss| - 1])
    requires Mean(ss[|ss| - 2]) > Mean(ss[|ss| - 1])
    ensures Separated(Merged(ss)) && Ascending(Merged(ss)[..|Merged(ss)| - 1])
    ensures Flatten(Merged(ss)) == Flatten(ss)
  {
    hide Ones, Mean, Separated;
    MergedParts(ss);
    LargerMeanPositive(ss[|ss| - 2], ss[|ss| - 1]);
    MergedSeparated(ss);
  }

  lemma {:induction false} PoolStructure(ss: Segments)
    requires NonEmpty(ss) && ss != [] && Separated(ss) && Ascending(ss[..|ss| - 1])
    ensures Separated(Pool(ss)) && Ascending(Pool(ss)) && Flatten(Pool(ss)) == Flatten(ss)
    decreases |ss|
  {
    hide Mean, Separated, Flatten;
    if |ss| >= 2 && Mean(ss[|ss| - 2]) > Mean(ss[|ss| - 1]) {
      MergedStructure(ss);
      PoolStructure(Merged(ss));
    }
  }

  lemma AddParts(ss: Segments, p: Point)
    requires NonEmpty(ss)
    ensures Flatten(Add(ss, p)) == Flatten(ss) + [p]
    ensures Add(ss, p)[..|Add(ss, p)| - 1] ==
      if ss != [] && Last(Last(ss)).x == p.x then ss[..|ss| - 1] else ss
  {
  }

  /** What may follow separated blocks. */
  ghost predicate MayFollow(front: Segments, seg: seq<Point>)
    requires NonEmpty(front) && seg != []
  {
    && Rising(seg) && (seg[0].x < Last(seg).x ==> Ones(seg) > 0)
    && (front != [] ==> Last(Last(front)).x < seg[0].x)
  }

  lemma SeparatedSnoc(front: Segments, seg: seq<Point>)
    requires NonEmpty(front) && Separated(front) && seg != [] && MayFollow(front, seg)
    ensures NonEmpty(front + [seg]) && Separated(front + [seg])
  {
    hide Rising, Ones;
    assert (front + [seg])[..|front|] == front;
  }

  lemma SeparatedFront(ss: Segments)
    requires NonEmpty(ss) && ss != [] && Separated(ss)
    ensures Separated(ss[..|ss| - 1]) && MayFollow(ss[..|ss| - 1], Last(ss))
  {
    hide Rising, Ones;
  }

  lemma JoinMayFollow(front: Segments, seg: seq<Point>, p: Point)
    requires NonEmpty(front) && seg != [] && MayFollow(front, seg) && Last(seg).x == p.x
    ensures MayFollow(front, seg + [p])
  {
    hide Ones, NonEmpty;
    OnesConcat(seg, [p]);
    RisingConcat(seg, [p]);
  }

  lemma AddSeparated(ss: Segments, p: Point)
    requires NonEmpty(ss) && Separated(ss)
    requires ss != [] ==> Last(Last(ss)).x <= p.x
    ensures Separated(Add(ss, p))
  {
    hide Ones, Separated, Rising;
    if ss != [] && Last(Last(ss)).x == p.x {
      hide MayFollow;
      SeparatedFront(ss);
      JoinMayFollow(ss[..|ss| - 1], Last(ss), p);
      SeparatedSnoc(ss[..|ss| - 1], Last(ss) + [p]);
    } else {
      OneRising(p);
      SeparatedSnoc(ss, [p]);
    }
  }

  lemma OneRising(p: Point)
    ensures Rising([p])
  {
  }

  lemma OrderedFront(s: seq<Point>)
    requires Ordered(s) && s != []
    ensures Ordered(s[..|s| - 1])
    ensures |s| >= 2 ==> Last(s[..|s| - 1]).x <= Last(s).x
  {
    if |s| >= 2 {
      assert Precedes(s[|s| - 2], s[|s| - 1]);
    }
  }

  ghost predicate Structured(ss: Segments, s: seq<Point>)
    requires NonEmpty(ss)
  {
    Flatten(ss) == s && Separated(ss) && Ascending(ss)
  }

  lemma StructuredStep(ss: Segments, front: seq<Point>, p: Point)
    requires NonEmpty(ss) && Structured(ss, front)
    requires front != [] ==> Last(front).x <= p.x
    ensures Structured(Pool(Add(ss, p)), front + [p])
  {
    if ss != [] {
      FlattenLast(ss);
    }
    AddParts(ss, p);
    AddSeparated(ss, p);
    assert Ascending(Add(ss, p)[..|Add(ss, p)| - 1]);
    PoolStructure(Add(ss, p));
  }

  lemma NothingStructured()
    ensures Structured([], [])
  {
  }

  /** The blocks partition the ordered points, never split a confidence, and have rising means. */
  lemma {:induction false} BlocksStructure(s: seq<Point>)
    requires Ordered(s)
    ensures Structured(Blocks(s), s)
  {
    hide Structured, Pool, Add, Precedes;
    if s == [] {
      NothingStructured();
    } else {
      var front := s[..|s| - 1];
      OrderedFront(s);
      BlocksStructure(front);
      StructuredStep(Blocks(front), front, Last(s));
      assert front + [Last(s)] == s;
    }
  }
}
