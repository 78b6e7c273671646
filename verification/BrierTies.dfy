/**
 * Exactly which patterns of confidences are scored no worse after calibration.
 *
 * The fit depends on the order and the ties of the confidences, not on their values, so an assignment
 * that beats it can be made into the raw confidences of another list with the same pattern.
 */
module BrierTies {
  import opened Points
  import opened Isotonic
  import opened IsotonicOptimality
  import opened ConfidenceTies
  import opened Calibration

  /** The confidences of both lists are ordered and tied alike; their values and labels may differ. */
  ghost predicate SamePattern(a: seq<Point>, b: seq<Point>) {
    |a| == |b| && forall i, j :: 0 <= i < |a| && 0 <= j < |a| ==> (a[i].x < a[j].x <==> b[i].x < b[j].x)
  }

  /** Raw confidences as the calibration accepts them. */
  ghost predicate InRange(s: seq<Point>) {
    forall p :: p in s ==> 0.0 <= p.x <= 1.0
  }

  ghost predicate NotWorse(points: seq<Point>)
    requires points != []
  {
    Brier(points, Calibrated(points)) <= Brier(points, Raw(points))
  }

  // ---------------------------------------------------------------------------
  // Safe ties are a matter of the pattern
  // ---------------------------------------------------------------------------

  lemma {:induction false} CountAlike(a: seq<Point>, b: seq<Point>, c: Point -> bool, d: Point -> bool)
    requires |a| == |b| && forall i :: 0 <= i < |a| ==> (c(a[i]) <==> d(b[i]))
    ensures Count(a, c) == Count(b, d)
  {
    if a != [] {
      CountAlike(a[..|a| - 1], b[..|b| - 1], c, d);
    }
  }

  lemma PatternSafe(a: seq<Point>, b: seq<Point>)
    requires TieSafe(b) && SamePattern(a, b)
    ensures TieSafe(a)
  {
    hide Count;
    forall p | p in a ensures SafeLevel(Below(a, p.x), At(a, p.x)) {
      var i :| 0 <= i < |a| && a[i] == p;
      var x := b[i].x;
      CountAlike(a, b, (q: Point) => q.x < p.x, (q: Point) => q.x < x);
      CountAlike(a, b, (q: Point) => q.x == p.x, (q: Point) => q.x == x);
      assert b[i] in b;
    }
  }

  // ---------------------------------------------------------------------------
  // Renaming the confidences
  // ---------------------------------------------------------------------------

  function Renamed(p: Point, h: real -> real): Point {
    Point(h(p.x), p.positive)
  }

  function Rename(s: seq<Point>, h: real -> real): (r: seq<Point>)
    ensures |r| == |s| && forall i :: 0 <= i < |s| ==> r[i] == Renamed(s[i], h)
  {
    seq(|s|, i requires 0 <= i < |s| => Renamed(s[i], h))
  }

  /** The renaming keeps the order of the confidences of `all`. */
  ghost predicate KeepsOrder(h: real -> real, all: seq<Point>) {
    forall p, q :: p in all && q in all ==> (p.x < q.x <==> h(p.x) < h(q.x))
  }

  ghost predicate Among(s: seq<Point>, all: seq<Point>) {
    forall p :: p in s ==> p in all
  }

  lemma RenameConcat(a: seq<Point>, b: seq<Point>, h: real -> real)
    ensures Rename(a + b, h) == Rename(a, h) + Rename(b, h)
  {
  }

  lemma PrecedesRenamed(p: Point, q: Point, h: real -> real, all: seq<Point>)
    requires KeepsOrder(h, all) && p in all && q in all
    ensures Precedes(Renamed(p, h), Renamed(q, h)) <==> Precedes(p, q)
    ensures h(p.x) == h(q.x) <==> p.x == q.x
  {
  }

  lemma OrderedRenamed(s: seq<Point>, h: real -> real, all: seq<Point>)
    requires KeepsOrder(h, all) && Among(s, all) && Ordered(s)
    ensures Ordered(Rename(s, h))
  {
    hide Precedes, Renamed, KeepsOrder;
    forall i, j | 0 <= i < j < |s| ensures Precedes(Rename(s, h)[i], Rename(s, h)[j]) {
      PrecedesRenamed(s[i], s[j], h, all);
    }
  }

  lemma RenameSnoc(s: seq<Point>, p: Point, h: real -> real)
    ensures Rename(s + [p], h) == Rename(s, h) + [Renamed(p, h)]
  {
    hide Renamed;
  }

  lemma InsertSnoc(front: seq<Point>, last: Point, p: Point)
    requires Ordered(front + [last])
    ensures Ordered(front)
    ensures Insert(front + [last], p) ==
      if Precedes(last, p) then front + [last] + [p] else Insert(front, p) + [last]
  {
    hide Precedes;
    assert (front + [last])[..|front|] == front;
    assert forall i, j :: 0 <= i < j < |front| ==> Precedes((front + [last])[i], (front + [last])[j]);
  }

  lemma InsertNone(p: Point)
    ensures Insert([], p) == [p]
  {
  }

  lemma {:induction false} InsertRenamed(s: seq<Point>, p: Point, h: real -> real, all: seq<Point>)
    requires KeepsOrder(h, all) && Among(s, all) && p in all && Ordered(s)
    ensures Ordered(Rename(s, h)) && Insert(Rename(s, h), Renamed(p, h)) == Rename(Insert(s, p), h)
  {
    hide Precedes, Renamed, KeepsOrder, Ordered, Insert, Rename;
    OrderedRenamed(s, h, all);
    RenameSnoc([], p, h);
    assert [] + [p] == [p];
    if s == [] {
      assert Rename([], h) == [];
      InsertNone(p);
      InsertNone(Renamed(p, h));
    } else {
      var front, last := s[..|s| - 1], s[|s| - 1];
      assert s == front + [last];
      PrecedesRenamed(last, p, h, all);
      RenameSnoc(front, last, h);
      InsertSnoc(front, last, p);
      InsertSnoc(Rename(front, h), Renamed(last, h), Renamed(p, h));
      RenameSnoc(s, p, h);
      InsertRenamed(front, p, h, all);
      RenameSnoc(Insert(front, p), last, h);
    }
  }

  lemma SortedAmong(points: seq<Point>, all: seq<Point>)
    requires Among(points, all)
    ensures Among(Sorted(points), all)
  {
    hide Sorted;
    forall p | p in Sorted(points) ensures p in all {
      SortedMembers(points, p);
    }
  }

  lemma {:induction false} SortedRenamed(points: seq<Point>, h: real -> real, all: seq<Point>)
    requires KeepsOrder(h, all) && Among(points, all)
    ensures Sorted(Rename(points, h)) == Rename(Sorted(points), h)
  {
    hide Insert, KeepsOrder, Renamed, Ordered;
    if points != [] {
      var front, last := points[..|points| - 1], points[|points| - 1];
      SortedRenamed(front, h, all);
      SortedAmong(front, all);
      InsertRenamed(Sorted(front), last, h, all);
      assert Rename(points, h)[..|points| - 1] == Rename(front, h);
    }
  }

  // Blocks

  function RenameAll(ss: Segments, h: real -> real): (r: Segments)
    ensures |r| == |ss| && forall j :: 0 <= j < |ss| ==> r[j] == Rename(ss[j], h)
    ensures NonEmpty(ss) ==> NonEmpty(r)
  {
    seq(|ss|, j requires 0 <= j < |ss| => Rename(ss[j], h))
  }

  ghost predicate AllAmong(ss: Segments, all: seq<Point>) {
    forall j :: 0 <= j < |ss| ==> Among(ss[j], all)
  }

  lemma {:induction false} OnesRenamed(s: seq<Point>, h: real -> real)
    ensures Ones(Rename(s, h)) == Ones(s)
  {
    if s != [] {
      OnesRenamed(s[..|s| - 1], h);
      assert Rename(s, h)[..|s| - 1] == Rename(s[..|s| - 1], h);
    }
  }

  lemma MeanRenamed(seg: seq<Point>, h: real -> real)
    requires seg != []
    ensures Mean(Rename(seg, h)) == Mean(seg)
  {
    OnesRenamed(seg, h);
  }

  lemma RenameAllSnoc(ss: Segments, seg: seq<Point>, h: real -> real)
    ensures RenameAll(ss + [seg], h) == RenameAll(ss, h) + [Rename(seg, h)]
  {
    hide Rename;
  }

  lemma AmongSnoc(ss: Segments, seg: seq<Point>, all: seq<Point>)
    requires AllAmong(ss, all) && Among(seg, all)
    ensures AllAmong(ss + [seg], all)
  {
    hide Among;
  }

  lemma AmongFront(ss: Segments, all: seq<Point>)
    requires AllAmong(ss, all) && ss != []
    ensures AllAmong(ss[..|ss| - 1], all) && Among(Last(ss), all)
  {
    hide Among;
  }

  lemma AddTo(front: Segments, last: seq<Point>, p: Point)
    requires NonEmpty(front) && last != []
    ensures NonEmpty(front + [last])
    ensures Add(front + [last], p) ==
      if Last(last).x == p.x then front + [last + [p]] else front + [last] + [[p]]
  {
    assert Last(front + [last]) == last && (front + [last])[..|front|] == front;
  }

  lemma AddRenamed(ss: Segments, p: Point, h: real -> real, all: seq<Point>)
    requires KeepsOrder(h, all) && NonEmpty(ss) && AllAmong(ss, all) && p in all
    ensures Add(RenameAll(ss, h), Renamed(p, h)) == RenameAll(Add(ss, p), h)
    ensures AllAmong(Add(ss, p), all)
  {
    hide KeepsOrder, AllAmong, RenameAll;
    RenameAllSnoc(ss, [p], h);
    AmongSnoc(ss, [p], all);
    assert Rename([p], h) == [Renamed(p, h)];
    if ss != [] {
      var front, last := ss[..|ss| - 1], Last(ss);
      assert ss == front + [last];
      AmongFront(ss, all);
      assert Last(last) in last;
      PrecedesRenamed(Last(last), p, h, all);
      AddTo(front, last, p);
      RenameAllSnoc(front, last, h);
      AddTo(RenameAll(front, h), Rename(last, h), Renamed(p, h));
      RenameSnoc(last, p, h);
      RenameAllSnoc(front, last + [p], h);
      AmongSnoc(front, last + [p], all);
    } else {
      assert RenameAll([], h) == [];
    }
  }

  lemma MergedRenamed(ss: Segments, h: real -> real, all: seq<Point>)
    requires |ss| >= 2 && NonEmpty(ss) && AllAmong(ss, all)
    ensures Merged(RenameAll(ss, h)) == RenameAll(Merged(ss), h) && AllAmong(Merged(ss), all)
  {
    RenameConcat(ss[|ss| - 2], ss[|ss| - 1], h);
  }

  lemma {:induction false} PoolRenamed(ss: Segments, h: real -> real, all: seq<Point>)
    requires NonEmpty(ss) && AllAmong(ss, all)
    ensures Pool(RenameAll(ss, h)) == RenameAll(Pool(ss), h) && AllAmong(Pool(ss), all)
    decreases |ss|
  {
    hide Mean, Rename, Merged, AllAmong;
    if |ss| >= 2 {
      MeanRenamed(ss[|ss| - 2], h);
      MeanRenamed(ss[|ss| - 1], h);
      MergedRenamed(ss, h, all);
      if Mean(ss[|ss| - 2]) > Mean(ss[|ss| - 1]) {
        PoolRenamed(Merged(ss), h, all);
      }
    }
  }

  lemma {:induction false} BlocksRenamed(s: seq<Point>, h: real -> real, all: seq<Point>)
    requires KeepsOrder(h, all) && Among(s, all)
    ensures Blocks(Rename(s, h)) == RenameAll(Blocks(s), h) && AllAmong(Blocks(s), all)
  {
    hide Pool, Add, KeepsOrder, Renamed, AllAmong;
    if s == [] {
      assert AllAmong([], all) by { NoneAmong(all); }
    } else {
      var front := s[..|s| - 1];
      BlocksRenamed(front, h, all);
      AddRenamed(Blocks(front), Last(s), h, all);
      PoolRenamed(Add(Blocks(front), Last(s)), h, all);
      assert Rename(s, h)[..|s| - 1] == Rename(front, h);
    }
  }

  lemma NoneAmong(all: seq<Point>)
    ensures AllAmong([], all)
  {
  }

  /** The fit gives a renamed confidence what it gave the original one. */
  lemma FittedRenamed(points: seq<Point>, h: real -> real, p: Point)
    requires KeepsOrder(h, points) && p in points
    ensures Fitted(Rename(points, h))(h(p.x)) == Fitted(points)(p.x)
  {
    hide Blocks, Sorted, Fitted, KeepsOrder, Separated, Ascending, Mean;
    var q := Rename(points, h);
    var ss, tt := Blocks(Sorted(points)), Blocks(Sorted(q));
    SortedRenamed(points, h, points);
    SortedAmong(points, points);
    BlocksRenamed(Sorted(points), h, points);
    BlocksStructure(Sorted(points));
    SortedMembers(points, p);
    FittedMeans(points);
    FittedMeans(q);
    var j := InSomeBlock(ss, p);
    var i :| 0 <= i < |ss[j]| && ss[j][i] == p;
    assert tt[j] == Rename(ss[j], h) && tt[j][i] == Renamed(p, h) && Renamed(p, h) in tt[j];
    MeanRenamed(ss[j], h);
  }

  // Scores

  lemma {:induction false} SumRenamed(s: seq<Point>, h: real -> real, v: Point -> real, w: Point -> real)
    requires forall p :: p in s ==> v(Renamed(p, h)) == w(p)
    ensures Sum(Rename(s, h), v) == Sum(s, w)
  {
    hide Renamed;
    if s != [] {
      assert s[|s| - 1] in s;
      SumRenamed(s[..|s| - 1], h, v, w);
      assert Rename(s, h)[..|s| - 1] == Rename(s[..|s| - 1], h);
    }
  }

  lemma RawErrorRenamed(points: seq<Point>, h: real -> real)
    ensures Error(Rename(points, h), (x: real) => x) == Error(points, h)
  {
    hide Square;
    SumRenamed(points, h, (p: Point) => Square(((x: real) => x)(p.x) - Label(p)),
      (p: Point) => Square(h(p.x) - Label(p)));
  }

  lemma FittedErrorRenamed(points: seq<Point>, h: real -> real)
    requires points != [] && KeepsOrder(h, points)
    ensures Error(Rename(points, h), Fitted(Rename(points, h))) == Error(points, Fitted(points))
  {
    hide Square, Fitted, KeepsOrder;
    var q := Rename(points, h);
    forall p | p in points
      ensures Square(Fitted(q)(Renamed(p, h).x) - Label(Renamed(p, h))) == Square(Fitted(points)(p.x) - Label(p))
    {
      FittedRenamed(points, h, p);
    }
    SumRenamed(points, h, (p: Point) => Square(Fitted(q)(p.x) - Label(p)),
      (p: Point) => Square(Fitted(points)(p.x) - Label(p)));
  }

  lemma BrierErrors(points: seq<Point>)
    requires points != []
    ensures NotWorse(points) <==> Error(points, Fitted(points)) <= Error(points, (x: real) => x)
  {
    hide Fitted;
    var identity := (x: real) => x;
    ErrorsAre(points, Calibrated(points), Fitted(points));
    ErrorsAre(points, Raw(points), identity);
    QuotientOrder(Error(points, Fitted(points)), Error(points, identity), |points| as real);
  }

  lemma QuotientOrder(a: real, b: real, n: real)
    requires n > 0.0
    ensures a / n <= b / n <==> a <= b
  {
  }

  // ---------------------------------------------------------------------------
  // From a better assignment to better raw confidences
  // ---------------------------------------------------------------------------

  function Clamp(r: real): real {
    if r < 0.0 then 0.0 else if r > 1.0 then 1.0 else r
  }

  lemma ClampCloser(r: real, p: Point)
    ensures Square(Clamp(r) - Label(p)) <= Square(r - Label(p))
  {
  }

  lemma {:induction false} SumOrder(s: seq<Point>, v: Point -> real, w: Point -> real)
    requires forall p :: p in s ==> v(p) <= w(p)
    ensures Sum(s, v) <= Sum(s, w)
  {
    if s != [] {
      assert s[|s| - 1] in s;
      SumOrder(s[..|s| - 1], v, w);
    }
  }

  function Clamped(f: real -> real): real -> real {
    (x: real) => Clamp(f(x))
  }

  function Residue(f: real -> real): Point -> real {
    (p: Point) => Square(f(p.x) - Label(p))
  }

  lemma ErrorIs(points: seq<Point>, f: real -> real)
    ensures Error(points, f) == Sum(points, Residue(f))
  {
    hide Square;
    SumPointwise(points, Residue(f), (p: Point) => Square(f(p.x) - Label(p)));
  }

  lemma ClampedResidue(f: real -> real, p: Point)
    ensures Residue(Clamped(f))(p) <= Residue(f)(p)
  {
    hide Clamp, Square, Label;
    ClampCloser(f(p.x), p);
  }

  lemma ClampedBetter(points: seq<Point>, f: real -> real)
    requires NonDecreasing(points, f)
    ensures NonDecreasing(points, Clamped(f)) && Error(points, Clamped(f)) <= Error(points, f)
  {
    hide Residue, Error;
    forall p | p in points ensures Residue(Clamped(f))(p) <= Residue(f)(p) {
      ClampedResidue(f, p);
    }
    SumOrder(points, Residue(Clamped(f)), Residue(f));
    ErrorIs(points, f);
    ErrorIs(points, Clamped(f));
  }

  /** The share of points strictly below a confidence: it tells all confidences of the points apart. */
  function Rank(points: seq<Point>, x: real): real
    requires points != []
  {
    Ratio(Below(points, x), |points|)
  }

  lemma {:induction false} BelowGrows(s: seq<Point>, x: real, y: real)
    requires x <= y
    ensures Below(s, x) <= Below(s, y)
    ensures (exists p :: p in s && x <= p.x < y) ==> Below(s, x) < Below(s, y)
  {
    if s != [] {
      BelowGrows(s[..|s| - 1], x, y);
      assert s == s[..|s| - 1] + [s[|s| - 1]];
    }
  }

  lemma RatioGrows(a: nat, b: nat, n: nat)
    requires n > 0 && a <= b <= n
    ensures 0.0 <= Ratio(a, n) <= Ratio(b, n) <= 1.0 && (a < b ==> Ratio(a, n) < Ratio(b, n))
  {
  }

  lemma RankGrows(points: seq<Point>, p: Point, q: Point)
    requires p in points && q in points
    ensures 0.0 <= Rank(points, p.x) <= 1.0
    ensures p.x < q.x ==> Rank(points, p.x) < Rank(points, q.x)
  {
    hide Ratio, Count;
    RatioGrows(Below(points, p.x), Below(points, p.x), |points|);
    if p.x < q.x {
      BelowGrows(points, p.x, q.x);
      RatioGrows(Below(points, p.x), Below(points, q.x), |points|);
    }
  }

  function Times(a: real, b: real): real {
    a * b
  }

  function Mix(e: real, a: real, b: real): real {
    Times(1.0 - e, a) + Times(e, b)
  }

  lemma ProductSign(a: real, b: real)
    requires a >= 0.0 && b >= 0.0
    ensures a * b >= 0.0 && (a > 0.0 && b > 0.0 ==> a * b > 0.0)
  {
  }

  lemma TimesGap(e: real, a: real, b: real)
    ensures Times(e, b) - Times(e, a) == Times(e, b - a)
  {
  }

  lemma TimesSign(e: real, d: real)
    requires e > 0.0 && d >= 0.0
    ensures Times(e, d) >= 0.0 && (d > 0.0 ==> Times(e, d) > 0.0)
  {
    ProductSign(e, d);
  }

  lemma Scaled(e: real, a: real, b: real)
    requires e > 0.0 && a <= b
    ensures Times(e, a) <= Times(e, b) && (a < b ==> Times(e, a) < Times(e, b))
  {
    hide Times;
    TimesGap(e, a, b);
    TimesSign(e, b - a);
  }

  lemma MixGrows(e: real, a: real, b: real, c: real, d: real)
    requires 0.0 < e < 1.0 && a <= b && c <= d
    ensures Mix(e, a, c) <= Mix(e, b, d) && (c < d ==> Mix(e, a, c) < Mix(e, b, d))
  {
    hide Times;
    Scaled(1.0 - e, a, b);
    Scaled(e, c, d);
  }

  lemma MixRange(e: real, a: real, b: real)
    requires 0.0 < e < 1.0 && 0.0 <= a <= 1.0 && 0.0 <= b <= 1.0
    ensures 0.0 <= Mix(e, a, b) <= 1.0
  {
    MixGrows(e, 0.0, a, 0.0, b);
    MixGrows(e, a, 1.0, b, 1.0);
  }

  lemma MixConvex(e: real, a: real, b: real, y: real)
    requires 0.0 < e < 1.0
    ensures Square(Mix(e, a, b) - y) <= Mix(e, Square(a - y), Square(b - y))
  {
    var u, v := a - y, b - y;
    MixShift(e, a, b, y);
    MixSquare(e, u, v);
  }

  lemma MixShift(e: real, a: real, b: real, y: real)
    ensures Mix(e, a, b) - y == Mix(e, a - y, b - y)
  {
  }

  lemma MixSquare(e: real, u: real, v: real)
    requires 0.0 < e < 1.0
    ensures Square(Mix(e, u, v)) <= Mix(e, Square(u), Square(v))
  {
    var d := e * (1.0 - e);
    SquareRange(u - v);
    assert d > 0.0;
    assert d * Square(u - v) >= 0.0;
    assert Mix(e, Square(u), Square(v)) - Square(Mix(e, u, v)) == d * Square(u - v);
  }

  function Mixed(e: real, f: real -> real, g: real -> real): real -> real {
    (x: real) => Mix(e, f(x), g(x))
  }

  lemma {:induction false} SumMixed(s: seq<Point>, e: real, v: Point -> real, w: Point -> real)
    ensures Sum(s, (p: Point) => Mix(e, v(p), w(p))) == Mix(e, Sum(s, v), Sum(s, w))
  {
    if s != [] {
      SumMixed(s[..|s| - 1], e, v, w);
      MixAdds(e, Sum(s[..|s| - 1], v), Sum(s[..|s| - 1], w), v(s[|s| - 1]), w(s[|s| - 1]));
    }
  }

  lemma MixAdds(e: real, a: real, b: real, c: real, d: real)
    ensures Mix(e, a, b) + Mix(e, c, d) == Mix(e, a + c, b + d)
  {
  }

  lemma MixedAt(e: real, f: real -> real, g: real -> real, x: real)
    ensures Mixed(e, f, g)(x) == Mix(e, f(x), g(x))
  {
  }

  lemma MixedResidue(e: real, f: real -> real, g: real -> real, p: Point)
    requires 0.0 < e < 1.0
    ensures Residue(Mixed(e, f, g))(p) <= Mix(e, Residue(f)(p), Residue(g)(p))
  {
    hide Square, Mix, Mixed, Label;
    MixedAt(e, f, g, p.x);
    MixConvex(e, f(p.x), g(p.x), Label(p));
  }

  lemma MixedError(points: seq<Point>, e: real, f: real -> real, g: real -> real)
    requires 0.0 < e < 1.0
    ensures Error(points, Mixed(e, f, g)) <= Mix(e, Error(points, f), Error(points, g))
  {
    hide Residue, Mix, Mixed, Error, Sum;
    var v, w := Residue(f), Residue(g);
    forall p | p in points ensures Residue(Mixed(e, f, g))(p) <= Mix(e, v(p), w(p)) {
      MixedResidue(e, f, g, p);
    }
    SumOrder(points, Residue(Mixed(e, f, g)), (p: Point) => Mix(e, v(p), w(p)));
    SumMixed(points, e, v, w);
    ErrorIs(points, f);
    ErrorIs(points, g);
    ErrorIs(points, Mixed(e, f, g));
  }

  /** A weight for which mixing in something of error `b` stays under `c`, when `a` is under it. */
  lemma SmallWeight(a: real, b: real, c: real) returns (e: real)
    requires 0.0 <= a < c && b >= 0.0
    ensures 0.0 < e < 1.0 && Mix(e, a, b) < c
  {
    var d := c - a;
    e := d / (d + b + 1.0);
    FractionOf(d, d + b + 1.0, e);
    assert e * b <= d - e by { assert e * d >= 0.0; assert e * (d + b + 1.0) == e * d + e * b + e; }
    assert e * a >= 0.0;
    assert Mix(e, a, b) == a - e * a + e * b;
  }

  lemma FractionOf(d: real, n: real, e: real)
    requires 0.0 < d < n && e == d / n
    ensures 0.0 < e < 1.0 && e * n == d
  {
    assert e * n == d;
    if e <= 0.0 {
      ProductSign(-e, n);
    } else if e >= 1.0 {
      ProductSign(e - 1.0, n);
    }
  }

  lemma ErrorNonNegative(points: seq<Point>, f: real -> real)
    ensures Error(points, f) >= 0.0
  {
    hide Square;
    forall p | p in points ensures Square(f(p.x) - Label(p)) >= 0.0 {
      SquareRange(f(p.x) - Label(p));
    }
    SumNonNegative(points, (p: Point) => Square(f(p.x) - Label(p)));
  }

  function RankOf(points: seq<Point>): real -> real
    requires points != []
  {
    (x: real) => Rank(points, x)
  }

  lemma MixedRises(points: seq<Point>, e: real, k: real -> real, p: Point, q: Point)
    requires points != [] && 0.0 < e < 1.0 && NonDecreasing(points, k)
    requires p in points && q in points && p.x < q.x
    ensures Mixed(e, k, RankOf(points))(p.x) < Mixed(e, k, RankOf(points))(q.x)
  {
    hide Mix, Rank, Mixed;
    RankGrows(points, p, q);
    MixedAt(e, k, RankOf(points), p.x);
    MixedAt(e, k, RankOf(points), q.x);
    MixGrows(e, k(p.x), k(q.x), Rank(points, p.x), Rank(points, q.x));
  }

  lemma MixedInRange(points: seq<Point>, e: real, f: real -> real, p: Point)
    requires points != [] && 0.0 < e < 1.0 && p in points
    ensures 0.0 <= Mixed(e, Clamped(f), RankOf(points))(p.x) <= 1.0
  {
    hide Mix, Rank, Mixed, Clamp;
    RankGrows(points, p, p);
    MixedAt(e, Clamped(f), RankOf(points), p.x);
    ClampRange(f(p.x));
    MixRange(e, Clamp(f(p.x)), Rank(points, p.x));
  }

  lemma MixedKeepsOrder(points: seq<Point>, e: real, f: real -> real)
    requires points != [] && 0.0 < e < 1.0 && NonDecreasing(points, Clamped(f))
    ensures KeepsOrder(Mixed(e, Clamped(f), RankOf(points)), points)
    ensures InRange(Rename(points, Mixed(e, Clamped(f), RankOf(points))))
  {
    hide Mixed, RankOf, Clamped, NonDecreasing;
    var h := Mixed(e, Clamped(f), RankOf(points));
    forall p, q | p in points && q in points ensures p.x < q.x <==> h(p.x) < h(q.x) {
      if p.x < q.x {
        MixedRises(points, e, Clamped(f), p, q);
      } else if q.x < p.x {
        MixedRises(points, e, Clamped(f), q, p);
      }
    }
    forall i | 0 <= i < |points| ensures 0.0 <= h(points[i].x) <= 1.0 {
      MixedInRange(points, e, f, points[i]);
    }
  }

  lemma ClampRange(r: real)
    ensures 0.0 <= Clamp(r) <= 1.0
  {
  }

  /** Where the fit is beaten at all, it is beaten by a strictly increasing assignment between 0 and 1. */
  lemma StrictlyBeaten(points: seq<Point>) returns (h: real -> real)
    requires points != [] && !LeastSquares(points)
    ensures KeepsOrder(h, points) && InRange(Rename(points, h))
    ensures Error(points, h) < Error(points, Fitted(points))
  {
    hide Square, Fitted, Mix, KeepsOrder, InRange, Mixed, Clamped, Sum, RankOf;
    FittedNonDecreasing(points);
    var f: real -> real :| NonDecreasing(points, f) && Error(points, f) < Error(points, Fitted(points));
    var k, g := Clamped(f), RankOf(points);
    ClampedBetter(points, f);
    ErrorNonNegative(points, k);
    ErrorNonNegative(points, g);
    var e := SmallWeight(Error(points, k), Error(points, g), Error(points, Fitted(points)));
    h := Mixed(e, k, g);
    MixedError(points, e, k, g);
    MixedKeepsOrder(points, e, f);
  }

  lemma PatternRenamed(q: seq<Point>, points: seq<Point>, h: real -> real)
    requires SameConfidences(q, points) && KeepsOrder(h, q)
    ensures SamePattern(Rename(q, h), points)
  {
    var r := Rename(q, h);
    forall i, j | 0 <= i < |r| && 0 <= j < |r| ensures r[i].x < r[j].x <==> points[i].x < points[j].x {
      assert q[i] in q && q[j] in q;
    }
  }

  /** An unsafe tie lets some list of the same pattern be scored worse after calibration. */
  lemma WorseWhenUnsafe(points: seq<Point>) returns (r: seq<Point>)
    requires !TieSafe(points)
    ensures r != [] && SamePattern(r, points) && InRange(r) && !NotWorse(r)
  {
    hide SafeLevel, LeastSquares, NotWorse, SamePattern, InRange, KeepsOrder, Fitted, Error, Below, At;
    var p :| p in points && !SafeLevel(Below(points, p.x), At(points, p.x));
    var q := BeatenWhenUnsafe(points, p);
    var h := StrictlyBeaten(q);
    r := Rename(q, h);
    PatternRenamed(q, points, h);
    RawErrorRenamed(q, h);
    FittedErrorRenamed(q, h);
    BrierErrors(r);
  }

  lemma NotWorseWhenSafe(points: seq<Point>)
    requires TieSafe(points) && points != []
    ensures NotWorse(points)
  {
    CalibratedBrierNotWorse(points);
  }

  /**
   * Calibration never worsens the Brier score of a pattern of confidences, whatever their values and
   * labels, if and only if its ties are safe; confidences between 0 and 1 suffice to show it.
   */
  lemma ScoreSafeExactlyWhenTiesSafe(points: seq<Point>)
    ensures TieSafe(points) <==>
      forall q :: q != [] && SamePattern(q, points) ==> NotWorse(q)
    ensures TieSafe(points) <==>
      forall q :: q != [] && SamePattern(q, points) && InRange(q) ==> NotWorse(q)
  {
    hide SamePattern, NotWorse, TieSafe, InRange;
    if TieSafe(points) {
      forall q | q != [] && SamePattern(q, points) ensures NotWorse(q) {
        PatternSafe(q, points);
        NotWorseWhenSafe(q);
      }
    } else {
      var r := WorseWhenUnsafe(points);
    }
  }
}
