/** Least-squares optimality of the fitted step function, and what confidence ties do to it. */
module IsotonicOptimality {
  import opened Points
  import opened Isotonic

  function Square(r: real): real {
    r * r
  }

  /** Sum of squared errors of an assignment that depends on the confidence only. */
  function Error(s: seq<Point>, f: real -> real): real {
    Sum(s, (p: Point) => Square(f(p.x) - Label(p)))
  }

  function Gap(s: seq<Point>, f: real -> real, g: real -> real): real {
    Sum(s, (p: Point) => Square(f(p.x) - g(p.x)))
  }

  /** The calibrated value as a function of the raw confidence. */
  function Fitted(points: seq<Point>): real -> real
    requires points != []
  {
    (raw: real) => Predict(Fit(points), raw)
  }

  ghost predicate NonDecreasing(s: seq<Point>, f: real -> real) {
    forall p, q :: p in s && q in s && p.x <= q.x ==> f(p.x) <= f(q.x)
  }

  // ---------------------------------------------------------------------------
  // One block
  // ---------------------------------------------------------------------------

  /**
   * Every part of the block that ends where the confidence changes has a label mean
   * no smaller than that of the block.
   */
  ghost predicate Certified(seg: seq<Point>) {
    forall i {:trigger seg[..i]} :: 0 < i < |seg| && seg[i - 1].x < seg[i].x ==>
      Mean(seg[..i]) >= Mean(seg)
  }

  function Residual(m: real): Point -> real {
    (p: Point) => Label(p) - m
  }

  function Weighted(m: real, f: real -> real): Point -> real {
    (p: Point) => (Label(p) - m) * f(p.x)
  }

  ghost predicate Dominates(s: seq<Point>, m: real) {
    forall i {:trigger s[..i]} :: 0 < i < |s| && s[i - 1].x < s[i].x ==> Sum(s[..i], Residual(m)) >= 0.0
  }

  ghost predicate AtMostProduct(x: real, y: real, z: real) {
    x <= y * z
  }

  lemma SumAppend(s: seq<Point>, p: Point, w: Point -> real)
    ensures Sum(s + [p], w) == Sum(s, w) + w(p)
  {
    assert (s + [p])[..|s|] == s;
  }

  ghost predicate IsExcess(total: real, ones: int, m: real, n: int) {
    total == ones as real - m * n as real
  }

  lemma {:induction false} ResidualTotal(s: seq<Point>, m: real)
    ensures IsExcess(Sum(s, Residual(m)), Ones(s), m, |s|)
  {
    if s != [] {
      ResidualTotal(s[..|s| - 1], m);
      assert m * |s| as real == m * (|s| - 1) as real + m;
    }
  }

  lemma PrefixExcess(p: nat, i: nat, m: real, total: real)
    requires i > 0 && Ratio(p, i) >= m && IsExcess(total, p, m, i)
    ensures total >= 0.0
  {
    var c := Ratio(p, i);
    assert c * i as real == p as real;
    assert (c - m) * i as real >= 0.0;
  }

  lemma WholeExcess(p: nat, i: nat, total: real)
    requires i > 0 && IsExcess(total, p, Ratio(p, i), i)
    ensures total == 0.0
  {
  }

  lemma CertifiedCut(seg: seq<Point>, cut: seq<Point>)
    requires seg != [] && cut != [] && Mean(cut) >= Mean(seg)
    ensures Sum(cut, Residual(Mean(seg))) >= 0.0
  {
    ResidualTotal(cut, Mean(seg));
    PrefixExcess(Ones(cut), |cut|, Mean(seg), Sum(cut, Residual(Mean(seg))));
  }

  lemma CertifiedDominates(seg: seq<Point>)
    requires seg != [] && Certified(seg)
    ensures Dominates(seg, Mean(seg)) && Sum(seg, Residual(Mean(seg))) == 0.0
  {
    forall i | 0 < i < |seg| && seg[i - 1].x < seg[i].x
      ensures Sum(seg[..i], Residual(Mean(seg))) >= 0.0
    {
      CertifiedCut(seg, seg[..i]);
    }
    ResidualTotal(seg, Mean(seg));
    WholeExcess(Ones(seg), |seg|, Sum(seg, Residual(Mean(seg))));
  }

  lemma PartsStep(dot: real, e: real, a: real, b: real, d: real, w: real)
    requires AtMostProduct(dot, e, a) && (a == b || (a <= b && e >= 0.0)) && w == d * b
    ensures AtMostProduct(dot + w, e + d, b)
  {
    if a != b {
      assert e * (b - a) >= 0.0;
    }
    assert (e + d) * b == e * b + d * b;
  }

  lemma PartsAppend(s: seq<Point>, p: Point, m: real, f: real -> real, a: real)
    requires AtMostProduct(Sum(s, Weighted(m, f)), Sum(s, Residual(m)), a)
    requires a == f(p.x) || (a <= f(p.x) && Sum(s, Residual(m)) >= 0.0)
    ensures AtMostProduct(Sum(s + [p], Weighted(m, f)), Sum(s + [p], Residual(m)), f(p.x))
  {
    hide Sum;
    PartsStep(Sum(s, Weighted(m, f)), Sum(s, Residual(m)), a, f(p.x), Label(p) - m, Weighted(m, f)(p));
    SumAppend(s, p, Weighted(m, f));
    SumAppend(s, p, Residual(m));
  }

  /** Summation by parts. */
  lemma {:induction false} ByParts(s: seq<Point>, m: real, f: real -> real, k: nat)
    requires Dominates(s, m) && Rising(s) && NonDecreasing(s, f)
    requires 0 < k <= |s|
    ensures AtMostProduct(Sum(s[..k], Weighted(m, f)), Sum(s[..k], Residual(m)), f(s[k - 1].x))
  {
    assert s[..k] == s[..k - 1] + [s[k - 1]];
    if k == 1 {
      assert s[..0] == [];
      PartsAppend([], s[0], m, f, f(s[0].x));
    } else {
      ByParts(s, m, f, k - 1);
      assert s[k - 2] in s && s[k - 1] in s && s[k - 2].x <= s[k - 1].x;
      PartsAppend(s[..k - 1], s[k - 1], m, f, f(s[k - 2].x));
    }
  }

  lemma {:induction false} SumCombine(s: seq<Point>, u: Point -> real, v: Point -> real,
                                      w: Point -> real, d: Point -> real)
    requires forall p :: p in s ==> u(p) == v(p) + w(p) - 2.0 * d(p)
    ensures Sum(s, u) == Sum(s, v) + Sum(s, w) - 2.0 * Sum(s, d)
  {
    if s != [] {
      assert s[|s| - 1] in s;
      SumCombine(s[..|s| - 1], u, v, w, d);
    }
  }

  lemma SplitSquare(f: real, m: real, y: real)
    ensures Square(f - y) == Square(m - y) + Square(f - m) - 2.0 * ((y - m) * (f - m))
  {
  }

  /** The cross term between the distance to `m` and the residuals is a sum by parts. */
  lemma Expand(s: seq<Point>, f: real -> real, g: real -> real, m: real, h: real -> real)
    requires forall p :: p in s ==> g(p.x) == m && h(p.x) == f(p.x) - m
    ensures Error(s, f) == Error(s, g) + Gap(s, f, g) - 2.0 * Sum(s, Weighted(m, h))
  {
    forall p | p in s
      ensures Square(f(p.x) - Label(p)) ==
        Square(g(p.x) - Label(p)) + Square(f(p.x) - g(p.x)) - 2.0 * Weighted(m, h)(p)
    {
      SplitSquare(f(p.x), m, Label(p));
    }
    SumCombine(s, (p: Point) => Square(f(p.x) - Label(p)), (p: Point) => Square(g(p.x) - Label(p)),
               (p: Point) => Square(f(p.x) - g(p.x)), Weighted(m, h));
  }

  /** On one block the mean beats every monotone assignment, by at least their distance. */
  lemma BlockOptimal(seg: seq<Point>, f: real -> real, g: real -> real)
    requires seg != [] && Certified(seg) && Rising(seg) && NonDecreasing(seg, f)
    requires forall p :: p in seg ==> g(p.x) == Mean(seg)
    ensures Error(seg, f) >= Error(seg, g) + Gap(seg, f, g)
  {
    var m := Mean(seg);
    var h := (x: real) => f(x) - m;
    assert seg[..|seg|] == seg;
    CertifiedDominates(seg);
    ByParts(seg, m, h, |seg|);
    Expand(seg, f, g, m, h);
  }

  // ---------------------------------------------------------------------------
  // All blocks
  // ---------------------------------------------------------------------------

  /** The assignment gives every point the mean of its block. */
  ghost predicate GivesMeans(g: real -> real, ss: Segments)
    requires NonEmpty(ss)
  {
    forall j, p :: 0 <= j < |ss| && p in ss[j] ==> g(p.x) == Mean(ss[j])
  }

  ghost predicate AllCertified(ss: Segments) {
    forall j :: 0 <= j < |ss| ==> Certified(ss[j])
  }

  lemma {:induction false} BlocksOptimal(ss: Segments, f: real -> real, g: real -> real)
    requires NonEmpty(ss) && Separated(ss) && AllCertified(ss)
    requires NonDecreasing(Flatten(ss), f) && GivesMeans(g, ss)
    ensures Error(Flatten(ss), f) >= Error(Flatten(ss), g) + Gap(Flatten(ss), f, g)
  {
    if ss != [] {
      var init := ss[..|ss| - 1];
      var front, last := Flatten(init), Last(ss);
      assert Flatten(ss) == front + last;
      assert forall p :: p in front || p in last ==> p in Flatten(ss);
      BlocksOptimal(init, f, g);
      BlockOptimal(last, f, g);
      SumConcat(front, last, (p: Point) => Square(f(p.x) - Label(p)));
      SumConcat(front, last, (p: Point) => Square(g(p.x) - Label(p)));
      SumConcat(front, last, (p: Point) => Square(f(p.x) - g(p.x)));
    }
  }

  ghost predicate Increasing(steps: seq<Step>) {
    forall i, j :: 0 <= i < j < |steps| ==> steps[i].maxConfidence < steps[j].maxConfidence
  }

  lemma {:induction false} StepsIncreasing(ss: Segments)
    requires NonEmpty(ss) && Separated(ss)
    ensures Increasing(Steps(ss))
  {
    if ss != [] {
      var init := ss[..|ss| - 1];
      StepsIncreasing(init);
      assert Steps(ss)[..|init|] == Steps(init);
      forall i | 0 <= i < |init| ensures Steps(ss)[i].maxConfidence < Last(Last(ss)).x {
        assert Steps(init)[i].maxConfidence <= Steps(init)[|init| - 1].maxConfidence;
        assert Last(ss)[0].x <= Last(Last(ss)).x;
      }
    }
  }

  lemma {:induction false} PredictSplit(steps: seq<Step>, raw: real)
    requires |steps| >= 2 && Increasing(steps)
    ensures Predict(steps, raw) ==
      if raw <= steps[|steps| - 2].maxConfidence then Predict(steps[..|steps| - 1], raw)
      else Last(steps).probability
    decreases |steps|
  {
    if |steps| == 2 {
      assert Predict(steps[1..], raw) == steps[1].probability;
    } else {
      var rest := steps[1..];
      PredictSplit(rest, raw);
      assert rest[..|rest| - 1] == steps[..|steps| - 1][1..];
      assert steps[0].maxConfidence < steps[|steps| - 2].maxConfidence;
    }
  }

  lemma PredictOnLast(ss: Segments, p: Point)
    requires |ss| >= 2 && NonEmpty(ss) && Separated(ss) && p in Last(ss)
    ensures Predict(Steps(ss), p.x) == Mean(Last(ss))
  {
    hide Mean, Predict;
    StepsIncreasing(ss);
    PredictSplit(Steps(ss), p.x);
    assert Last(ss)[0].x <= p.x;
  }

  lemma PredictOnEarlier(ss: Segments, x: real)
    requires |ss| >= 2 && NonEmpty(ss) && Separated(ss) && x <= Last(ss[|ss| - 2]).x
    ensures Predict(Steps(ss), x) == Predict(Steps(ss[..|ss| - 1]), x)
  {
    hide Mean, Predict, Separated;
    StepsIncreasing(ss);
    PredictSplit(Steps(ss), x);
    assert Steps(ss)[..|ss| - 1] == Steps(ss[..|ss| - 1]);
  }

  /** Reading the step function at a training confidence gives the mean of its block. */
  lemma {:induction false} PredictGivesMeans(ss: Segments, j: nat, p: Point)
    requires NonEmpty(ss) && Separated(ss) && j < |ss| && p in ss[j]
    ensures Predict(Steps(ss), p.x) == Mean(ss[j])
    decreases |ss|
  {
    hide Mean;
    if |ss| >= 2 && j == |ss| - 1 {
      PredictOnLast(ss, p);
    } else if |ss| >= 2 {
      var init := ss[..|ss| - 1];
      PredictGivesMeans(init, j, p);
      InBlock(init, j, p);
      PredictOnEarlier(ss, p.x);
    }
  }

  lemma {:induction false} InBlock(ss: Segments, j: nat, p: Point)
    requires NonEmpty(ss) && Separated(ss) && j < |ss| && p in ss[j]
    ensures p.x <= Last(Last(ss)).x
    decreases |ss|
  {
    if j < |ss| - 1 {
      InBlock(ss[..|ss| - 1], j, p);
      assert Last(ss)[0].x <= Last(Last(ss)).x;
    } else {
      var k :| 0 <= k < |ss[j]| && ss[j][k] == p;
    }
  }

  // ---------------------------------------------------------------------------
  // When the blocks are certified
  // ---------------------------------------------------------------------------

  lemma CrossMultiply(p: real, q: real, n: real, m: real)
    requires n > 0.0 && m > 0.0
    ensures p / n <= q / m <==> p * m <= q * n
  {
    var a, b := p / n, q / m;
    assert p == a * n && q == b * m;
    Scale(a, b, n * m);
    assert p * m == a * (n * m);
    assert q * n == b * (n * m);
  }

  lemma Scale(x: real, y: real, k: real)
    requires k > 0.0
    ensures x <= y <==> x * k <= y * k
  {
  }

  lemma MediantReal(p: real, n: real, q: real, m: real)
    requires n > 0.0 && m > 0.0
    ensures p / n >= (p + q) / (n + m) <==> p / n >= q / m
    ensures (p + q) / (n + m) >= q / m <==> p / n >= q / m
  {
    CrossMultiply(q, p, m, n);
    CrossMultiply(p + q, p, n + m, n);
    CrossMultiply(q, p + q, m, n + m);
  }

  /** The mean of two runs lies between their means. */
  lemma Mediant(a: seq<Point>, b: seq<Point>)
    requires a != [] && b != []
    ensures Mean(a) >= Mean(a + b) <==> Mean(a) >= Mean(b)
    ensures Mean(a + b) >= Mean(b) <==> Mean(a) >= Mean(b)
  {
    OnesConcat(a, b);
    MediantReal(Ones(a) as real, |a| as real, Ones(b) as real, |b| as real);
  }

  lemma CutInRight(a: seq<Point>, b: seq<Point>, j: nat)
    requires a != [] && 0 < j < |b| && Mean(b[..j]) >= Mean(b) && Mean(a) >= Mean(b)
    ensures Mean(a + b[..j]) >= Mean(a + b)
  {
    var front, back := b[..j], b[j..];
    assert b == front + back && a + b == (a + front) + back;
    Mediant(a, b);
    Mediant(front, back);
    Mediant(a + front, back);
  }

  /** Merging a block into a left neighbour of larger mean keeps both certificates. */
  lemma MergeCertified(a: seq<Point>, b: seq<Point>)
    requires a != [] && b != [] && Certified(a) && Certified(b) && Mean(a) > Mean(b)
    ensures Certified(a + b)
  {
    var c := a + b;
    Mediant(a, b);
    forall i | 0 < i < |c| && c[i - 1].x < c[i].x
      ensures Mean(c[..i]) >= Mean(c)
    {
      if i < |a| {
        assert c[..i] == a[..i] && a[i - 1].x < a[i].x;
      } else if i == |a| {
        assert c[..i] == a;
      } else {
        var j := i - |a|;
        assert c[..i] == a + b[..j] && b[j - 1].x < b[j].x;
        CutInRight(a, b, j);
      }
    }
  }

  lemma {:induction false} PoolCertified(ss: Segments)
    requires NonEmpty(ss) && AllCertified(ss)
    ensures AllCertified(Pool(ss))
    decreases |ss|
  {
    if |ss| >= 2 && Mean(ss[|ss| - 2]) > Mean(ss[|ss| - 1]) {
      MergeCertified(ss[|ss| - 2], ss[|ss| - 1]);
      PoolCertified(Merged(ss));
    }
  }

  // ---------------------------------------------------------------------------
  // Monotone reading
  // ---------------------------------------------------------------------------

  ghost predicate RisingSteps(steps: seq<Step>) {
    forall i, j :: 0 <= i < j < |steps| ==> steps[i].probability <= steps[j].probability
  }

  lemma {:induction false} StepsRising(ss: Segments)
    requires NonEmpty(ss) && Ascending(ss)
    ensures RisingSteps(Steps(ss))
  {
    hide Mean;
    if |ss| >= 2 {
      var init := ss[..|ss| - 1];
      StepsRising(init);
      assert Steps(ss)[..|init|] == Steps(init);
      forall i | 0 <= i < |init| ensures Steps(ss)[i].probability <= Last(Steps(ss)).probability {
        assert Steps(init)[i].probability <= Steps(init)[|init| - 1].probability;
      }
    }
  }

  lemma {:induction false} PredictRange(steps: seq<Step>, raw: real)
    requires steps != [] && RisingSteps(steps)
    ensures exists j :: 0 <= j < |steps| && Predict(steps, raw) == steps[j].probability
    ensures Predict(steps, raw) >= steps[0].probability
    decreases |steps|
  {
    if raw <= steps[0].maxConfidence || |steps| == 1 {
      assert Predict(steps, raw) == steps[0].probability;
    } else {
      PredictRange(steps[1..], raw);
      var j :| 0 <= j < |steps[1..]| && Predict(steps[1..], raw) == steps[1..][j].probability;
      assert Predict(steps, raw) == steps[j + 1].probability;
    }
  }

  lemma {:induction false} PredictMonotone(steps: seq<Step>, a: real, b: real)
    requires steps != [] && RisingSteps(steps) && a <= b
    ensures Predict(steps, a) <= Predict(steps, b)
    decreases |steps|
  {
    if a <= steps[0].maxConfidence || |steps| == 1 {
      PredictRange(steps, b);
    } else {
      PredictMonotone(steps[1..], a, b);
    }
  }
}
