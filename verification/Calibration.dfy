/** What the isotonic calibration promises about the points it was fitted on. */
module Calibration {
  import opened Points
  import opened Isotonic
  import opened IsotonicOptimality
  import opened ConfidenceTies
  import opened UnsafeTies

  lemma SameTotals(points: seq<Point>, w: Point -> real)
    ensures Sum(points, w) == Sum(Sorted(points), w) && |points| == |Sorted(points)|
  {
    Permuted(points, Sorted(points), w, (p: Point) => true);
  }

  lemma SortedMembers(points: seq<Point>, p: Point)
    ensures p in points <==> p in Sorted(points)
  {
    assert p in points <==> p in multiset(points);
    assert p in Sorted(points) <==> p in multiset(Sorted(points));
  }

  // ---------------------------------------------------------------------------
  // Structure and conservation, for every input
  // ---------------------------------------------------------------------------

  /** The fitted steps have increasing bounds and non-decreasing probabilities between 0 and 1. */
  lemma FitShape(points: seq<Point>)
    ensures Increasing(Fit(points)) && RisingSteps(Fit(points))
    ensures forall j :: 0 <= j < |Fit(points)| ==> 0.0 <= Fit(points)[j].probability <= 1.0
    ensures Flatten(Blocks(Sorted(points))) == Sorted(points)
  {
    var ss := Blocks(Sorted(points));
    BlocksStructure(Sorted(points));
    StepsIncreasing(ss);
    StepsRising(ss);
    forall j | 0 <= j < |ss| ensures 0.0 <= Mean(ss[j]) <= 1.0 {
      RatioRange(Ones(ss[j]), |ss[j]|);
    }
  }

  /** The calibrated value is monotone in the raw confidence and a probability. */
  lemma FittedMonotone(points: seq<Point>, a: real, b: real)
    requires points != [] && a <= b
    ensures 0.0 <= Fitted(points)(a) <= Fitted(points)(b) <= 1.0
  {
    hide Fit, Predict;
    FitShape(points);
    PredictMonotone(Fit(points), a, b);
    PredictRange(Fit(points), a);
    PredictRange(Fit(points), b);
  }

  function TotalWeight(blocks: seq<Block>): real {
    if blocks == [] then 0.0 else TotalWeight(blocks[..|blocks| - 1]) + blocks[|blocks| - 1].weight
  }

  lemma {:induction false} WeightOfBlocks(ss: Segments)
    requires NonEmpty(ss)
    ensures TotalWeight(Summaries(ss)) == |Flatten(ss)| as real
  {
    hide Ones;
    if ss != [] {
      var front := ss[..|ss| - 1];
      WeightOfBlocks(front);
      assert Summaries(ss)[..|ss| - 1] == Summaries(front);
    }
  }

  /** The weights of the working blocks add up to the number of points. */
  lemma WeightConserved(points: seq<Point>)
    ensures TotalWeight(Summaries(Blocks(Sorted(points)))) == |points| as real
  {
    hide Blocks;
    BlocksStructure(Sorted(points));
    WeightOfBlocks(Blocks(Sorted(points)));
    SameTotals(points, p => 0.0);
  }

  lemma {:induction false} BlocksApart(ss: Segments, i: nat, j: nat, p: Point, q: Point)
    requires NonEmpty(ss) && Separated(ss) && i < j < |ss| && p in ss[i] && q in ss[j]
    ensures p.x < q.x
  {
    hide Ones;
    if j < |ss| - 1 {
      BlocksApart(ss[..|ss| - 1], i, j, p, q);
    } else {
      var front := ss[..|ss| - 1];
      InBlock(front, i, p);
      var k :| 0 <= k < |Last(ss)| && Last(ss)[k] == q;
      assert Last(ss)[0].x <= q.x && Last(Last(front)).x < Last(ss)[0].x;
    }
  }

  lemma {:induction false} InSomeBlock(ss: Segments, p: Point) returns (j: nat)
    requires p in Flatten(ss)
    ensures j < |ss| && p in ss[j]
  {
    if p in Last(ss) {
      j := |ss| - 1;
    } else {
      j := InSomeBlock(ss[..|ss| - 1], p);
    }
  }

  /** Points of equal confidence end up in the same block. */
  lemma EqualConfidencesShareBlock(points: seq<Point>, p: Point, q: Point)
    requires p in points && q in points && p.x == q.x
    ensures exists seg :: seg in Blocks(Sorted(points)) && p in seg && q in seg
  {
    hide Blocks, Sorted, Separated, Ascending;
    var ss := Blocks(Sorted(points));
    BlocksStructure(Sorted(points));
    SortedMembers(points, p);
    SortedMembers(points, q);
    var i := InSomeBlock(ss, p);
    var j := InSomeBlock(ss, q);
    if i < j {
      BlocksApart(ss, i, j, p, q);
    } else if j < i {
      BlocksApart(ss, j, i, q, p);
    }
    assert ss[i] in ss && p in ss[i] && q in ss[i];
  }

  lemma FittedReads(points: seq<Point>, x: real)
    requires points != []
    ensures Fitted(points)(x) == Predict(Steps(Blocks(Sorted(points))), x)
  {
    hide Blocks;
  }

  lemma FittedMeans(points: seq<Point>)
    requires points != []
    ensures GivesMeans(Fitted(points), Blocks(Sorted(points)))
  {
    hide Blocks, Sorted, Predict, Steps, Fitted, Separated, Ascending, Flatten, Mean;
    var ss := Blocks(Sorted(points));
    BlocksStructure(Sorted(points));
    forall j, p: Point | 0 <= j < |ss| && p in ss[j] ensures Fitted(points)(p.x) == Mean(ss[j]) {
      PredictGivesMeans(ss, j, p);
      FittedReads(points, p.x);
    }
  }

  lemma MeanTotal(p: nat, n: nat, total: real)
    requires n > 0 && IsTotal(total, Ratio(p, n), n)
    ensures total == p as real
  {
  }

  lemma SegmentSum(seg: seq<Point>, g: real -> real)
    requires seg != [] && forall p :: p in seg ==> g(p.x) == Mean(seg)
    ensures Sum(seg, (p: Point) => g(p.x)) == Ones(seg) as real
  {
    ConstantSum(seg, (p: Point) => g(p.x), Mean(seg));
    MeanTotal(Ones(seg), |seg|, Sum(seg, (p: Point) => g(p.x)));
  }

  lemma {:induction false} SumOfMeans(ss: Segments, g: real -> real)
    requires NonEmpty(ss) && GivesMeans(g, ss)
    ensures Sum(Flatten(ss), (p: Point) => g(p.x)) == Ones(Flatten(ss)) as real
  {
    hide Mean;
    if ss != [] {
      SumOfMeans(ss[..|ss| - 1], g);
      SumConcat(Flatten(ss[..|ss| - 1]), Last(ss), (p: Point) => g(p.x));
      OnesConcat(Flatten(ss[..|ss| - 1]), Last(ss));
      SegmentSum(Last(ss), g);
    }
  }

  lemma {:induction false} LabelSum(s: seq<Point>)
    ensures Sum(s, p => Label(p)) == Ones(s) as real
  {
    if s != [] {
      LabelSum(s[..|s| - 1]);
    }
  }

  /** Calibration conserves the labels: the calibrated probabilities add up to the positive ones. */
  lemma Conservation(points: seq<Point>)
    requires points != []
    ensures Sum(points, (p: Point) => Fitted(points)(p.x)) == Sum(points, p => Label(p))
  {
    var s := Sorted(points);
    hide Blocks, Fitted;
    var w := (p: Point) => Fitted(points)(p.x);
    BlocksStructure(s);
    FittedMeans(points);
    SumOfMeans(Blocks(s), Fitted(points));
    SumPointwise(s, w, (p: Point) => Fitted(points)(p.x));
    SameTotals(points, w);
    SameTotals(points, p => Label(p));
    LabelSum(s);
  }

  // ---------------------------------------------------------------------------
  // Optimality
  // ---------------------------------------------------------------------------

  lemma SameLevels(points: seq<Point>, x: real)
    ensures Below(points, x) == Below(Sorted(points), x) && At(points, x) == At(Sorted(points), x)
  {
    Permuted(points, Sorted(points), p => 0.0, (q: Point) => q.x < x);
    Permuted(points, Sorted(points), p => 0.0, (q: Point) => q.x == x);
  }

  lemma SafeSorted(points: seq<Point>)
    requires TieSafe(points)
    ensures TieSafe(Sorted(points))
  {
    forall p | p in Sorted(points)
      ensures SafeLevel(Below(Sorted(points), p.x), At(Sorted(points), p.x))
    {
      SortedMembers(points, p);
      SameLevels(points, p.x);
      assert SafeLevel(Below(points, p.x), At(points, p.x));
    }
  }

  /**
   * Least squares: every monotone assignment errs by at least as much as the fit, and by at least
   * its squared distance from the fit more.
   */
  lemma FitBeatsMonotone(points: seq<Point>, f: real -> real)
    requires points != [] && TieSafe(points) && NonDecreasing(points, f)
    ensures Error(points, f) >= Error(points, Fitted(points)) + Gap(points, f, Fitted(points))
  {
    hide Mean, Predict, Blocks;
    var s, g := Sorted(points), Fitted(points);
    SafeSorted(points);
    assert s[..|s|] == s;
    BlocksCertified(s, |s|);
    BlocksStructure(s);
    FittedMeans(points);
    forall p | p in s ensures p in points {
      SortedMembers(points, p);
    }
    BlocksOptimal(Blocks(s), f, g);
    SameTotals(points, (p: Point) => Square(f(p.x) - Label(p)));
    SameTotals(points, (p: Point) => Square(g(p.x) - Label(p)));
    SameTotals(points, (p: Point) => Square(f(p.x) - g(p.x)));
  }

  lemma {:induction false} SumPositive(s: seq<Point>, w: Point -> real, q: Point)
    requires (forall p :: p in s ==> w(p) >= 0.0) && q in s
    ensures Sum(s, w) >= w(q)
  {
    var front, p := s[..|s| - 1], s[|s| - 1];
    assert p in s && s == front + [p];
    SumNonNegative(front, w);
    if q in front {
      SumPositive(front, w, q);
    }
  }

  lemma {:induction false} SumNonNegative(s: seq<Point>, w: Point -> real)
    requires forall p :: p in s ==> w(p) >= 0.0
    ensures Sum(s, w) >= 0.0
  {
    if s != [] {
      assert s[|s| - 1] in s;
      SumNonNegative(s[..|s| - 1], w);
    }
  }

  lemma SquareRange(r: real)
    ensures Square(r) >= 0.0 && (r != 0.0 ==> Square(r) > 0.0)
  {
    if r != 0.0 {
      SquarePositive(r);
    }
  }

  /** The fit is the only minimiser: an assignment as good agrees with it on every point. */
  lemma FitUnique(points: seq<Point>, f: real -> real, q: Point)
    requires points != [] && TieSafe(points) && NonDecreasing(points, f) && q in points
    requires Error(points, f) <= Error(points, Fitted(points))
    ensures f(q.x) == Fitted(points)(q.x)
  {
    hide Square, Fitted;
    var w := (p: Point) => Square(f(p.x) - Fitted(points)(p.x));
    FitBeatsMonotone(points, f);
    forall p | p in points ensures w(p) >= 0.0 {
      SquareRange(f(p.x) - Fitted(points)(p.x));
    }
    SumPositive(points, w, q);
    SquareRange(f(q.x) - Fitted(points)(q.x));
  }

  /** The fit itself is a non-decreasing assignment to the points. */
  lemma FittedNonDecreasing(points: seq<Point>)
    requires points != []
    ensures NonDecreasing(points, Fitted(points))
  {
    forall p, q | p in points && q in points && p.x <= q.x
      ensures Fitted(points)(p.x) <= Fitted(points)(q.x)
    {
      FittedMonotone(points, p.x, q.x);
    }
  }

  lemma SafeRelabelled(points: seq<Point>, other: seq<Point>)
    requires TieSafe(points) && SameConfidences(other, points)
    ensures TieSafe(other)
  {
    forall q | q in other ensures SafeLevel(Below(other, q.x), At(other, q.x)) {
      var i :| 0 <= i < |other| && other[i] == q;
      SameCounts(points, other, q.x);
      assert points[i] in points;
    }
  }

  lemma {:induction false} SameCounts(a: seq<Point>, b: seq<Point>, x: real)
    requires SameConfidences(b, a)
    ensures Below(a, x) == Below(b, x) && At(a, x) == At(b, x)
  {
    if a != [] {
      SameCounts(a[..|a| - 1], b[..|b| - 1], x);
    }
  }

  lemma LeastSquaresWhenSafe(points: seq<Point>)
    requires points != [] && TieSafe(points)
    ensures LeastSquares(points)
  {
    hide Square, Fitted;
    FittedNonDecreasing(points);
    forall f: real -> real | NonDecreasing(points, f)
      ensures Error(points, Fitted(points)) <= Error(points, f)
    {
      FitBeatsMonotone(points, f);
      forall p | p in points ensures Square(f(p.x) - Fitted(points)(p.x)) >= 0.0 {
        SquareRange(f(p.x) - Fitted(points)(p.x));
      }
      SumNonNegative(points, (p: Point) => Square(f(p.x) - Fitted(points)(p.x)));
    }
  }

  lemma BeatenByTrap(q: seq<Point>, t: seq<Point>, e: nat, m: nat, n: nat)
    requires q != [] && multiset(q) == multiset(t) && Ordered(t)
    requires Trap(t, e, m, n) && !SafeLevel(m, n)
    ensures !LeastSquares(q)
  {
    hide Blocks, Predict, Square, Trap, SafeLevel;
    SortedUnique(Sorted(q), t);
    forall raw ensures Fitted(q)(raw) == Predict(Steps(Blocks(t)), raw) {
      assert Fit(q) == Steps(Blocks(t));
    }
    TrapBeaten(t, e, m, n, Fitted(q));
    var f :| NonDecreasing(t, f) && Error(t, f) < Error(t, Fitted(q));
    SameTotals(q, (r: Point) => Square(f(r.x) - Label(r)));
    SameTotals(q, (r: Point) => Square(Fitted(q)(r.x) - Label(r)));
    forall r | r in q ensures r in t {
      SortedMembers(q, r);
    }
    assert NonDecreasing(q, f);
  }

  lemma UnsafeSorted(points: seq<Point>, p: Point)
    requires p in points && !SafeLevel(Below(points, p.x), At(points, p.x))
    ensures var s := Sorted(points);
      !SafeLevel(Below(s, p.x), At(s, p.x)) && Below(s, p.x) >= 1 && At(s, p.x) >= 1
  {
    hide SafeLevel, Below, At, Sorted;
    SortedMembers(points, p);
    SameLevels(points, p.x);
    AtLeastOne(Sorted(points), p);
    SafeWhenLowest(Below(Sorted(points), p.x), At(Sorted(points), p.x));
  }

  lemma AtLeastOne(s: seq<Point>, p: Point)
    requires p in s
    ensures At(s, p.x) >= 1
  {
    hide Count;
    var i :| 0 <= i < |s| && s[i] == p;
    CountRange(s, i, i + 1, (q: Point) => q.x == p.x);
  }

  lemma SafeWhenLowest(m: nat, n: nat)
    ensures m == 0 && n >= 1 ==> SafeLevel(m, n)
  {
  }

  lemma BeatenWhenUnsafe(points: seq<Point>, p: Point) returns (q: seq<Point>)
    requires p in points && !SafeLevel(Below(points, p.x), At(points, p.x))
    ensures SameConfidences(q, points) && q != [] && !LeastSquares(q)
  {
    hide LeastSquares, Trap, SafeLevel, Below, At;
    var s := Sorted(points);
    UnsafeSorted(points, p);
    var t, e := SetTrap(s, p.x);
    q := Relabel(points, s, t);
    BeatenByTrap(q, t, e, Below(s, p.x), At(s, p.x));
  }

  /**
   * A list of confidences is served optimally under every labelling if and only if its ties are
   * safe. Pairwise distinct confidences always are.
   */
  lemma OptimalExactlyWhenTiesSafe(points: seq<Point>)
    requires points != []
    ensures TieSafe(points) <==>
      forall q :: SameConfidences(q, points) && q != [] ==> LeastSquares(q)
  {
    if TieSafe(points) {
      forall q | SameConfidences(q, points) && q != [] ensures LeastSquares(q) {
        SafeRelabelled(points, q);
        LeastSquaresWhenSafe(q);
      }
    } else {
      var p :| p in points && !SafeLevel(Below(points, p.x), At(points, p.x));
      var q := BeatenWhenUnsafe(points, p);
    }
  }

  ghost predicate Distinct(points: seq<Point>) {
    forall i, j :: 0 <= i < j < |points| ==> points[i].x != points[j].x
  }

  lemma DistinctTieSafe(points: seq<Point>)
    requires Distinct(points)
    ensures TieSafe(points)
  {
    forall p | p in points ensures SafeLevel(Below(points, p.x), At(points, p.x)) {
      var i :| 0 <= i < |points| && points[i] == p;
      CountExact(points, i, i + 1, (q: Point) => q.x == p.x);
    }
  }

  // ---------------------------------------------------------------------------
  // Nothing to pool
  // ---------------------------------------------------------------------------

  function Singles(s: seq<Point>): (r: Segments)
    ensures |r| == |s| && forall j :: 0 <= j < |s| ==> r[j] == [s[j]]
  {
    seq(|s|, j requires 0 <= j < |s| => [s[j]])
  }

  /** Confidences rise from point to point, and no label falls. */
  ghost predicate AlreadyRising(s: seq<Point>) {
    forall i, j :: 0 <= i < j < |s| ==> s[i].x < s[j].x && (s[i].positive ==> s[j].positive)
  }

  lemma SinglesSnoc(front: seq<Point>, p: Point)
    ensures Singles(front + [p]) == Singles(front) + [[p]]
  {
  }

  /** A point above the others opens a block of its own, and keeps it unless its label falls. */
  lemma SingleAdded(front: seq<Point>, p: Point)
    requires front != [] ==> front[|front| - 1].x < p.x && (front[|front| - 1].positive ==> p.positive)
    ensures Pool(Add(Singles(front), p)) == Singles(front) + [[p]]
  {
    hide Mean, Merged;
    var ss := Singles(front) + [[p]];
    if front != [] {
      var last := front[|front| - 1];
      assert Singles(front)[|front| - 1] == [last];
      SingleMean(last);
      SingleMean(p);
      assert ss[|ss| - 2] == [last] && ss[|ss| - 1] == [p];
    }
  }

  lemma {:induction false} SinglesStay(s: seq<Point>)
    requires AlreadyRising(s)
    ensures Blocks(s) == Singles(s)
  {
    hide Pool, Add, Singles;
    if s == [] {
      NoSingles();
    } else {
      var front, p := s[..|s| - 1], s[|s| - 1];
      SinglesStay(front);
      SingleAdded(front, p);
      SinglesSnoc(front, p);
      assert s == front + [p];
    }
  }

  lemma NoSingles()
    ensures Singles([]) == []
  {
  }

  lemma SingleMean(p: Point)
    ensures Mean([p]) == Label(p)
  {
    assert [p][..0] == [];
  }

  /** Points that are in order already are left alone: every confidence keeps a step and its label. */
  lemma RisingLeftAlone(points: seq<Point>, k: nat)
    requires AlreadyRising(points) && k < |points|
    ensures |Fit(points)| == |points| && Fit(points)[k] == Step(points[k].x, Label(points[k]))
  {
    hide Blocks;
    assert Ordered(points);
    SortedUnique(Sorted(points), points);
    SinglesStay(points);
    SingleMean(points[k]);
  }

  // ---------------------------------------------------------------------------
  // The reported scores
  // ---------------------------------------------------------------------------

  function SquaredErrors(points: seq<Point>, probabilities: seq<real>): real
    requires |points| == |probabilities|
  {
    var n := |points|;
    if n == 0 then 0.0
    else
      SquaredErrors(points[..n - 1], probabilities[..n - 1]) +
      Square(probabilities[n - 1] - Label(points[n - 1]))
  }

  function Brier(points: seq<Point>, probabilities: seq<real>): real
    requires |points| == |probabilities| && points != []
  {
    SquaredErrors(points, probabilities) / |points| as real
  }

  /** The score is a mean: of one point it is the squared error, of two lists the mean of theirs by length. */
  lemma BrierIsMean(a: seq<Point>, p: seq<real>, b: seq<Point>, q: seq<real>)
    requires |a| == |p| > 0 && |b| == |q| > 0
    ensures Brier(a + b, p + q) * (|a| + |b|) as real == Brier(a, p) * |a| as real + Brier(b, q) * |b| as real
    ensures |a| == 1 ==> Brier(a, p) == Square(p[0] - Label(a[0]))
  {
    hide Square;
    ErrorsConcat(a, p, b, q);
    if |a| == 1 {
      assert SquaredErrors(a[..0], p[..0]) == 0.0;
    }
    assert |a + b| == |a| + |b|;
    Divided(SquaredErrors(a, p), |a|);
    Divided(SquaredErrors(b, q), |b|);
    Divided(SquaredErrors(a + b, p + q), |a + b|);
  }

  lemma Divided(total: real, n: nat)
    requires n > 0
    ensures total / n as real * n as real == total
  {
  }

  lemma {:induction false} ErrorsConcat(a: seq<Point>, p: seq<real>, b: seq<Point>, q: seq<real>)
    requires |a| == |p| && |b| == |q|
    ensures SquaredErrors(a + b, p + q) == SquaredErrors(a, p) + SquaredErrors(b, q)
    decreases |b|
  {
    hide Square;
    if b == [] {
      assert a + b == a && p + q == p;
    } else {
      var n := |b| - 1;
      assert (a + b)[..|a + b| - 1] == a + b[..n] && (p + q)[..|p + q| - 1] == p + q[..n];
      ErrorsConcat(a, p, b[..n], q[..n]);
    }
  }

  function Raw(points: seq<Point>): (r: seq<real>)
    ensures |r| == |points|
  {
    seq(|points|, i requires 0 <= i < |points| => points[i].x)
  }

  function Calibrated(points: seq<Point>): (r: seq<real>)
    requires points != []
    ensures |r| == |points| && forall i :: 0 <= i < |points| ==> r[i] == Fitted(points)(points[i].x)
  {
    seq(|points|, i requires 0 <= i < |points| => Fitted(points)(points[i].x))
  }

  lemma {:induction false} ErrorsAre(points: seq<Point>, probabilities: seq<real>, f: real -> real)
    requires |points| == |probabilities|
    requires forall i :: 0 <= i < |points| ==> probabilities[i] == f(points[i].x)
    ensures SquaredErrors(points, probabilities) == Error(points, f)
  {
    hide Square;
    if points != [] {
      ErrorsAre(points[..|points| - 1], probabilities[..|points| - 1], f);
    }
  }

  lemma DivideOrder(a: real, b: real, n: real)
    requires n > 0.0 && a <= b
    ensures a / n <= b / n
  {
  }

  /** With safe ties the calibrated Brier score is never worse than the raw one. */
  lemma CalibratedBrierNotWorse(points: seq<Point>)
    requires points != [] && TieSafe(points)
    ensures Brier(points, Calibrated(points)) <= Brier(points, Raw(points))
  {
    hide Fitted;
    var identity := (x: real) => x;
    ErrorsAre(points, Calibrated(points), Fitted(points));
    ErrorsAre(points, Raw(points), identity);
    LeastSquaresWhenSafe(points);
    assert NonDecreasing(points, identity);
    DivideOrder(Error(points, Fitted(points)), Error(points, identity), |points| as real);
  }

  lemma ErrorsStep(points: seq<Point>, probabilities: seq<real>, k: nat)
    requires |points| == |probabilities| && k < |points|
    ensures SquaredErrors(points[..k + 1], probabilities[..k + 1]) ==
      SquaredErrors(points[..k], probabilities[..k]) + Square(probabilities[k] - Label(points[k]))
  {
    assert points[..k + 1][..k] == points[..k];
    assert probabilities[..k + 1][..k] == probabilities[..k];
  }

  lemma SixErrors(points: seq<Point>, probabilities: seq<real>, r: seq<real>)
    requires |points| == |probabilities| == |r| == 6
    requires forall k :: 0 <= k < 6 ==> r[k] == Square(probabilities[k] - Label(points[k]))
    ensures SquaredErrors(points, probabilities) == r[0] + r[1] + r[2] + r[3] + r[4] + r[5]
  {
    hide Square;
    ErrorsStep(points, probabilities, 0);
    ErrorsStep(points, probabilities, 1);
    ErrorsStep(points, probabilities, 2);
    ErrorsStep(points, probabilities, 3);
    ErrorsStep(points, probabilities, 4);
    ErrorsStep(points, probabilities, 5);
    assert points[..6] == points && probabilities[..6] == probabilities;
  }

  const TIED: seq<Point> := [Point(0.5, false), Point(0.5, true), Point(0.75, false),
                             Point(0.75, true), Point(0.75, true), Point(0.75, true)]

  lemma TiedTrap()
    ensures Trap(TIED, 1, 2, 4) && Ordered(TIED)
  {
  }

  lemma TiedFit()
    ensures Fit(TIED) == [Step(0.75, 2.0 / 3.0)]
  {
    hide Blocks, Ones, Sorted, Ordered, Trap;
    TiedTrap();
    SortedUnique(Sorted(TIED), TIED);
    TrapOneBlock(TIED, 1, 2, 4, 6);
    TrapOnes(TIED, 1, 2, 4, 6);
    assert TIED[..6] == TIED;
  }

  lemma CalibratedAt(points: seq<Point>, i: nat)
    requires i < |points|
    ensures Calibrated(points)[i] == Predict(Fit(points), points[i].x)
  {
    hide Calibrated, Predict, Fit;
  }

  lemma TiedScores()
    ensures SquaredErrors(TIED, Calibrated(TIED)) == 4.0 / 3.0
    ensures SquaredErrors(TIED, Raw(TIED)) == 5.0 / 4.0
  {
    hide SquaredErrors, Fit, Calibrated;
    TiedFit();
    SixErrors(TIED, Raw(TIED), [0.25, 0.25, 0.5625, 0.0625, 0.0625, 0.0625]);
    var low, high := 1.0 / 9.0, 4.0 / 9.0;
    forall i | 0 <= i < 6 ensures Calibrated(TIED)[i] == 2.0 / 3.0 {
      CalibratedAt(TIED, i);
    }
    SixErrors(TIED, Calibrated(TIED), [high, low, high, low, low, low]);
  }

  /** Two points on 0.5 and four on 0.75: the fit scores worse than the raw confidences. */
  lemma TiesCanWorsenBrier()
    ensures Fit(TIED) == [Step(0.75, 2.0 / 3.0)]
    ensures SquaredErrors(TIED, Calibrated(TIED)) == 4.0 / 3.0
    ensures SquaredErrors(TIED, Raw(TIED)) == 5.0 / 4.0
    ensures Brier(TIED, Calibrated(TIED)) > Brier(TIED, Raw(TIED))
  {
    hide SquaredErrors, Fit, Calibrated, Raw;
    TiedFit();
    TiedScores();
  }
}
