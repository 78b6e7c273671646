/** Every unsafe list of confidences has a labelling on which the fit is beaten. */
module UnsafeTies {
  import opened Points
  import opened Isotonic
  import opened IsotonicOptimality
  import opened ConfidenceTies

  // ---------------------------------------------------------------------------
  // Arrangements
  // ---------------------------------------------------------------------------

  lemma SameLast(a: seq<Point>, b: seq<Point>)
    requires Ordered(a) && Ordered(b) && multiset(a) == multiset(b) && a != [] && b != []
    ensures Last(a) == Last(b)
  {
    assert Last(a) in multiset(b) && Last(b) in multiset(a);
    assert Precedes(Last(a), Last(b)) && Precedes(Last(b), Last(a));
  }

  lemma FrontMultiset(s: seq<Point>)
    requires s != []
    ensures multiset(s[..|s| - 1]) == multiset(s) - multiset{Last(s)}
  {
    assert s == s[..|s| - 1] + [Last(s)];
  }

  lemma {:induction false} SortedUnique(a: seq<Point>, b: seq<Point>)
    requires Ordered(a) && Ordered(b) && multiset(a) == multiset(b)
    ensures a == b
    decreases |a|
  {
    assert |a| == |multiset(a)| == |multiset(b)| == |b|;
    if a != [] {
      SameLast(a, b);
      OrderedFront(a);
      OrderedFront(b);
      FrontMultiset(a);
      FrontMultiset(b);
      SortedUnique(a[..|a| - 1], b[..|b| - 1]);
    }
  }

  lemma SameConfidencesWithout(t: seq<Point>, s: seq<Point>, j: nat)
    requires SameConfidences(t, s) && j < |s|
    ensures SameConfidences(Without(t, j), Without(s, j))
  {
  }

  lemma RelabelStep(front: seq<Point>, r: seq<Point>, p: Point, q: Point)
    requires SameConfidences(r, front) && p.x == q.x
    ensures SameConfidences(r + [q], front + [p])
  {
  }

  lemma Pick(points: seq<Point>, s: seq<Point>) returns (j: nat)
    requires multiset(points) == multiset(s) && points != []
    ensures j < |s| && s[j] == Last(points)
    ensures multiset(points[..|points| - 1]) == multiset(Without(s, j))
  {
    assert Last(points) in multiset(s);
    j :| 0 <= j < |s| && s[j] == Last(points);
    FrontMultiset(points);
    TakeOutMultiset(s, j);
  }

  /** New labels given to one arrangement can be carried over to any other. */
  lemma {:induction false} Relabel(points: seq<Point>, s: seq<Point>, t: seq<Point>) returns (q: seq<Point>)
    requires multiset(points) == multiset(s) && SameConfidences(t, s)
    ensures SameConfidences(q, points) && multiset(q) == multiset(t)
    decreases |points|
  {
    if points == [] {
      assert |s| == |multiset(s)| == 0;
      q := [];
    } else {
      var j := Pick(points, s);
      SameConfidencesWithout(t, s, j);
      var r := Relabel(points[..|points| - 1], Without(s, j), Without(t, j));
      assert points == points[..|points| - 1] + [Last(points)];
      RelabelStep(points[..|points| - 1], r, Last(points), t[j]);
      TakeOutMultiset(t, j);
      q := r + [t[j]];
    }
  }

  lemma {:induction false} CountNone(s: seq<Point>, c: Point -> bool)
    requires forall p :: p in s ==> !c(p)
    ensures Count(s, c) == 0
  {
    if s != [] {
      assert s[|s| - 1] in s;
      CountNone(s[..|s| - 1], c);
    }
  }

  lemma CountNoneIn(s: seq<Point>, lo: nat, hi: nat, c: Point -> bool)
    requires lo <= hi <= |s| && forall i :: lo <= i < hi ==> !c(s[i])
    ensures Count(s[lo..hi], c) == 0
  {
    hide Count;
    CountNone(s[lo..hi], c);
  }

  lemma CountAllIn(s: seq<Point>, lo: nat, hi: nat, c: Point -> bool)
    requires lo <= hi <= |s| && forall i :: lo <= i < hi ==> c(s[i])
    ensures Count(s[lo..hi], c) == hi - lo
  {
    hide Count;
    CountAll(s[lo..hi], c);
  }

  lemma CountSplit(s: seq<Point>, k: nat, c: Point -> bool)
    requires k <= |s|
    ensures Count(s, c) == Count(s[0..k], c) + Count(s[k..|s|], c)
  {
    hide Count;
    assert s == s[0..k] + s[k..|s|];
    CountConcat(s[0..k], s[k..|s|], c);
  }

  lemma CountExact(s: seq<Point>, lo: nat, hi: nat, c: Point -> bool)
    requires lo <= hi <= |s| && forall i :: 0 <= i < |s| ==> (c(s[i]) <==> lo <= i < hi)
    ensures Count(s, c) == hi - lo
  {
    hide Count;
    var front := s[0..hi];
    CountSplit(s, hi, c);
    CountNoneIn(s, hi, |s|, c);
    CountSplit(front, lo, c);
    CountNoneIn(front, 0, lo, c);
    CountAllIn(front, lo, hi, c);
  }

  /** In an ordered list the points below a confidence come first, then those on it. */
  lemma Levels(s: seq<Point>, x: real)
    requires Ordered(s)
    ensures Below(s, x) + At(s, x) <= |s|
    ensures forall i :: 0 <= i < |s| ==> (s[i].x < x <==> i < Below(s, x))
    ensures forall i :: 0 <= i < |s| ==> (s[i].x == x <==> Below(s, x) <= i < Below(s, x) + At(s, x))
  {
    var lo := FirstNotBelow(s, x);
    var hi := lo;
    while hi < |s| && s[hi].x == x
      invariant lo <= hi <= |s| && forall i :: lo <= i < hi ==> s[i].x == x
    {
      hi := hi + 1;
    }
    if hi < |s| {
      forall i | hi <= i < |s| ensures s[i].x > x {
        assert i == hi || Precedes(s[hi], s[i]);
      }
    }
    CountExact(s, 0, lo, (p: Point) => p.x < x);
    CountExact(s, lo, hi, (p: Point) => p.x == x);
  }

  lemma FirstNotBelow(s: seq<Point>, x: real) returns (lo: nat)
    requires Ordered(s)
    ensures lo <= |s|
    ensures forall i :: 0 <= i < lo ==> s[i].x < x
    ensures forall i :: lo <= i < |s| ==> s[i].x >= x
  {
    lo := 0;
    while lo < |s| && s[lo].x < x
      invariant lo <= |s| && forall i :: 0 <= i < lo ==> s[i].x < x
    {
      lo := lo + 1;
    }
    if lo < |s| {
      forall i | lo <= i < |s| ensures s[i].x >= x {
        assert i == lo || Precedes(s[lo], s[i]);
      }
    }
  }

  // ---------------------------------------------------------------------------
  // The labelling
  // ---------------------------------------------------------------------------

  /**
   * The last point `e` of the lowest confidence is positive, the other points below the tie are
   * negative; the tie, which begins at `m`, holds one negative point; all the rest is positive.
   */
  ghost predicate Trap(t: seq<Point>, e: nat, m: nat, n: nat) {
    && e < m && n >= 1 && m + n <= |t|
    && (forall i :: 0 <= i < |t| ==> (t[i].positive <==> i == e || i > m))
    && (forall i :: 0 <= i <= e ==> t[i].x == t[0].x)
    && t[e].x < t[e + 1].x
    && (forall i :: 0 <= i < m ==> t[i].x < t[m].x)
    && (forall i :: m <= i < m + n ==> t[i].x == t[m].x)
    && (forall i :: m + n <= i < |t| ==> t[m].x < t[i].x)
  }

  lemma SetTrap(s: seq<Point>, x: real) returns (t: seq<Point>, e: nat)
    requires Ordered(s) && Below(s, x) >= 1 && At(s, x) >= 1
    ensures SameConfidences(t, s) && Ordered(t)
    ensures Trap(t, e, Below(s, x), At(s, x)) && t[Below(s, x)].x == x
  {
    var m, n := Below(s, x), At(s, x);
    Levels(s, x);
    e := 0;
    while s[e + 1].x == s[0].x
      invariant e < m && forall i :: 0 <= i <= e ==> s[i].x == s[0].x
      decreases m - e
    {
      e := e + 1;
    }
    assert Precedes(s[e], s[e + 1]);
    t := seq(|s|, i requires 0 <= i < |s| => Point(s[i].x, i == e || i > m));
    forall i, j | 0 <= i < j < |t| ensures Precedes(t[i], t[j]) {
      assert Precedes(s[i], s[j]);
      if i == e {
        assert j == e + 1 || Precedes(s[e + 1], s[j]);
      }
    }
  }

  lemma {:induction false} TrapOnes(t: seq<Point>, e: nat, m: nat, n: nat, k: nat)
    requires Trap(t, e, m, n) && k <= m + n
    ensures Ones(t[..k]) == (if k > e then 1 else 0) + (if k > m + 1 then k - m - 1 else 0)
  {
    if k > 0 {
      TrapOnes(t, e, m, n, k - 1);
      assert t[..k][..k - 1] == t[..k - 1];
    }
  }

  lemma PoolOne(seg: seq<Point>)
    requires seg != []
    ensures Pool([seg]) == [seg]
  {
  }

  lemma PoolTwo(a: seq<Point>, b: seq<Point>)
    requires a != [] && b != []
    ensures Pool([a, b]) == if Mean(a) <= Mean(b) then [a, b] else [a + b]
  {
    if Mean(a) > Mean(b) {
      assert Merged([a, b]) == [a + b];
      PoolOne(a + b);
    }
  }

  lemma FirstPoint(t: seq<Point>)
    requires t != []
    ensures Blocks(t[..1]) == [t[..1]]
  {
    BlocksNext(t, 0);
    assert t[..0] == [] && t[..1] == [t[0]];
    PoolOne([t[0]]);
  }

  lemma MeanPositive(seg: seq<Point>)
    requires seg != []
    ensures Mean(seg) > 0.0 <==> Ones(seg) > 0
  {
  }

  lemma TrapNewLevel(seg: seq<Point>, p: Point)
    requires seg != [] && Last(seg).x != p.x && Ones(seg) > 0 && !p.positive
    ensures Pool(Add([seg], p)) == [seg + [p]]
  {
    assert Add([seg], p) == [seg, [p]];
    assert [p][..0] == [];
    MeanPositive(seg);
    MeanPositive([p]);
    PoolTwo(seg, [p]);
  }

  lemma TrapSameLevel(seg: seq<Point>, p: Point)
    requires seg != [] && Last(seg).x == p.x
    ensures Pool(Add([seg], p)) == [seg + [p]]
  {
    assert Add([seg], p) == [seg + [p]];
    PoolOne(seg + [p]);
  }

  /** Up to the end of the tie the trap keeps everything in one block. */
  lemma {:induction false} TrapOneBlock(t: seq<Point>, e: nat, m: nat, n: nat, k: nat)
    requires Trap(t, e, m, n) && 0 < k <= m + n
    ensures Blocks(t[..k]) == [t[..k]]
  {
    hide Blocks, Pool, Mean, Ones, Add;
    if k == 1 {
      FirstPoint(t);
    } else {
      BlocksNext(t, k - 1);
      assert t[..k] == t[..k - 1] + [t[k - 1]];
      TrapOneBlock(t, e, m, n, k - 1);
      if t[k - 2].x == t[k - 1].x {
        TrapSameLevel(t[..k - 1], t[k - 1]);
      } else {
        TrapOnes(t, e, m, n, k - 1);
        TrapNewLevel(t[..k - 1], t[k - 1]);
      }
    }
  }

  /** The first block is `a`; a later last block is all positive. */
  ghost predicate FirstStays(ss: Segments, a: seq<Point>) {
    ss != [] && ss[0] == a && (|ss| == 1 || Ones(Last(ss)) == |Last(ss)|)
  }

  /** A positive label never pools: no mean exceeds that of an all-positive block. */
  lemma PositiveAdd(ss: Segments, a: seq<Point>, p: Point)
    requires NonEmpty(ss) && FirstStays(ss, a) && p.positive
    requires a != [] && Last(a).x < p.x
    ensures FirstStays(Pool(Add(ss, p)), a)
  {
    var r := Add(ss, p);
    OnesConcat(Last(ss), [p]);
    OnesConcat([], [p]);
    assert [] + [p] == [p];
    FullMean(r[|r| - 2], Last(r));
    assert Pool(r) == r;
  }

  lemma FullMean(a: seq<Point>, b: seq<Point>)
    requires a != [] && b != [] && Ones(b) == |b|
    ensures Mean(a) <= Mean(b)
  {
    RatioRange(Ones(a), |a|);
    RatioRange(|b|, |b|);
  }

  /** From `c` on, all is positive and above what came before. */
  ghost predicate PositiveTail(t: seq<Point>, c: nat) {
    0 < c <= |t| && forall i :: c <= i < |t| ==> t[i].positive && t[c - 1].x < t[i].x
  }

  lemma {:induction false} TailLeavesFirst(t: seq<Point>, c: nat, k: nat)
    requires PositiveTail(t, c) && c <= k <= |t| && Blocks(t[..c]) == [t[..c]]
    ensures FirstStays(Blocks(t[..k]), t[..c])
  {
    hide Blocks, Pool, Mean, Ones, Add;
    if k > c {
      TailLeavesFirst(t, c, k - 1);
      BlocksNext(t, k - 1);
      PositiveAdd(Blocks(t[..k - 1]), t[..c], t[k - 1]);
    }
  }

  lemma TrapTail(t: seq<Point>, e: nat, m: nat, n: nat)
    requires Trap(t, e, m, n)
    ensures PositiveTail(t, m + n)
  {
  }

  /** The rest of the trap leaves that block alone. */
  lemma TrapFirstBlock(t: seq<Point>, e: nat, m: nat, n: nat)
    requires Trap(t, e, m, n)
    ensures FirstStays(Blocks(t), t[..m + n])
  {
    hide Blocks, Pool, Mean, Ones, Add;
    TrapOneBlock(t, e, m, n, m + n);
    TrapTail(t, e, m, n);
    TailLeavesFirst(t, m + n, |t|);
    assert t[..|t|] == t;
  }

  // ---------------------------------------------------------------------------
  // The better assignment
  // ---------------------------------------------------------------------------

  lemma UnsafeMeans(m: nat, n: nat)
    requires m >= 1 && n >= 1 && !SafeLevel(m, n)
    ensures Ratio(1, m) < Ratio(n, m + n)
  {
    RatioOrder(1, m, n, m + n);
    assert n * m == (m - 1) * (n - 1) + m + n - 1;
  }

  lemma ConstantGap(s: seq<Point>, f: real -> real, g: real -> real, a: real, b: real)
    requires s != [] && b == Mean(s)
    requires forall p :: p in s ==> f(p.x) == a && g(p.x) == b
    requires a != b
    ensures Error(s, f) > Error(s, g)
  {
    var h := (x: real) => a - b;
    Expand(s, f, g, b, h);
    ResidualTotal(s, b);
    WholeExcess(Ones(s), |s|, Sum(s, Residual(b)));
    SumScaled(s, b, h, a - b);
    ConstantSum(s, (p: Point) => Square(f(p.x) - g(p.x)), Square(a - b));
    SquarePositive(a - b);
    ProductPositive(Square(a - b), |s| as real, Gap(s, f, g));
  }

  lemma ProductPositive(a: real, b: real, q: real)
    requires a > 0.0 && b > 0.0 && q == a * b
    ensures q > 0.0
  {
  }

  lemma SquarePositive(r: real)
    requires r != 0.0
    ensures Square(r) > 0.0
  {
    if r > 0.0 {
      ProductPositive(r, r, Square(r));
    } else {
      ProductPositive(-r, -r, Square(r));
    }
  }

  lemma {:induction false} SumScaled(s: seq<Point>, m: real, h: real -> real, c: real)
    requires forall p :: p in s ==> h(p.x) == c
    ensures Sum(s, Weighted(m, h)) == c * Sum(s, Residual(m))
  {
    if s != [] {
      assert s[|s| - 1] in s;
      SumScaled(s[..|s| - 1], m, h, c);
    }
  }

  ghost predicate IsTotal(total: real, each: real, n: nat) {
    total == each * n as real
  }

  lemma {:induction false} ConstantSum(s: seq<Point>, w: Point -> real, c: real)
    requires forall p :: p in s ==> w(p) == c
    ensures IsTotal(Sum(s, w), c, |s|)
  {
    if s != [] {
      assert s[|s| - 1] in s;
      ConstantSum(s[..|s| - 1], w, c);
    }
  }

  /** The fit of the trap, lowered to the mean of the lower points there. */
  function Lowered(g: real -> real, x: real, low: real): real -> real {
    (raw: real) => if raw < x then low else g(raw)
  }

  lemma LoweredBetter(a: seq<Point>, b: seq<Point>, x: real, g: real -> real, c: real)
    requires a != [] && c != Mean(a)
    requires forall p :: p in a ==> p.x < x && g(p.x) == c
    requires forall p :: p in b ==> p.x >= x
    ensures Error(a + b, Lowered(g, x, Mean(a))) < Error(a + b, g)
  {
    var f := Lowered(g, x, Mean(a));
    ConstantGap(a, g, f, c, Mean(a));
    SumConcat(a, b, (p: Point) => Square(f(p.x) - Label(p)));
    SumConcat(a, b, (p: Point) => Square(g(p.x) - Label(p)));
    SumPointwise(b, (p: Point) => Square(f(p.x) - Label(p)), (p: Point) => Square(g(p.x) - Label(p)));
  }

  lemma LoweredMonotone(t: seq<Point>, x: real, g: real -> real, low: real)
    requires NonDecreasing(t, g) && forall p :: p in t && p.x >= x ==> low <= g(p.x)
    ensures NonDecreasing(t, Lowered(g, x, low))
  {
  }

  /** What the trap shows of the fit: one value below and on the tie, above the mean below it. */
  lemma TrapFit(t: seq<Point>, e: nat, m: nat, n: nat)
    requires Trap(t, e, m, n) && Ordered(t) && !SafeLevel(m, n)
    ensures Mean(t[..m]) < Mean(t[..m + n])
    ensures forall i :: 0 <= i < m + n ==> Predict(Steps(Blocks(t)), t[i].x) == Mean(t[..m + n])
  {
    hide Ratio, Predict, Blocks, Steps, Ones, Separated, Ascending, Flatten;
    TrapFirstBlock(t, e, m, n);
    BlocksStructure(t);
    TrapOnes(t, e, m, n, m);
    TrapOnes(t, e, m, n, m + n);
    UnsafeMeans(m, n);
    forall i | 0 <= i < m + n ensures Predict(Steps(Blocks(t)), t[i].x) == Mean(t[..m + n]) {
      assert t[i] == t[..m + n][i];
      PredictGivesMeans(Blocks(t), 0, t[i]);
    }
  }

  lemma TrapSides(t: seq<Point>, e: nat, m: nat, n: nat)
    requires Trap(t, e, m, n) && Ordered(t)
    ensures forall p :: p in t[..m] ==> p.x < t[m].x
    ensures forall p :: p in t[m..] ==> p.x >= t[m].x
  {
    hide Precedes;
    forall i | m <= i < |t| ensures t[i].x >= t[m].x {
    }
  }

  /** The fit of the trap never falls below the mean of the points under the tie. */
  lemma TrapRises(t: seq<Point>, e: nat, m: nat, n: nat, g: real -> real)
    requires Trap(t, e, m, n) && Ordered(t) && !SafeLevel(m, n)
    requires forall raw :: g(raw) == Predict(Steps(Blocks(t)), raw)
    ensures NonDecreasing(t, g) && forall p :: p in t && p.x >= t[m].x ==> Mean(t[..m]) <= g(p.x)
  {
    hide Predict, Blocks, Steps, Mean, Trap, SafeLevel, Ordered, Separated, Ascending, Flatten;
    TrapFit(t, e, m, n);
    BlocksStructure(t);
    StepsRising(Blocks(t));
    TrapTie(t, e, m, n);
    forall p, q | p in t && q in t && p.x <= q.x ensures g(p.x) <= g(q.x) {
      PredictMonotone(Steps(Blocks(t)), p.x, q.x);
    }
    assert t[m] in t;
  }

  lemma TrapTie(t: seq<Point>, e: nat, m: nat, n: nat)
    requires Trap(t, e, m, n)
    ensures 0 < m < m + n <= |t|
  {
  }

  lemma TrapBeaten(t: seq<Point>, e: nat, m: nat, n: nat, g: real -> real)
    requires Trap(t, e, m, n) && Ordered(t) && !SafeLevel(m, n)
    requires forall raw :: g(raw) == Predict(Steps(Blocks(t)), raw)
    ensures exists f :: NonDecreasing(t, f) && Error(t, f) < Error(t, g)
  {
    hide Predict, Blocks, Steps, Mean, Trap, SafeLevel, Ordered, Error, NonDecreasing, Lowered;
    TrapTie(t, e, m, n);
    var low, c := Mean(t[..m]), Mean(t[..m + n]);
    TrapFit(t, e, m, n);
    TrapSides(t, e, m, n);
    TrapRises(t, e, m, n, g);
    LoweredMonotone(t, t[m].x, g, low);
    assert t == t[..m] + t[m..];
    forall p | p in t[..m] ensures g(p.x) == c {
      var i :| 0 <= i < m && t[i] == p;
    }
    LoweredBetter(t[..m], t[m..], t[m].x, g, c);
  }
}
