/**
 * Exactly which lists of confidences the fit serves optimally.
 *
 * The fit takes tied points in one by one and pools after each of them, so a block may be merged
 * to the left before the rest of its own tie has arrived.
 */
module ConfidenceTies {
  import opened Points
  import opened Isotonic
  import opened IsotonicOptimality

  /**
   * At every confidence, with `n` points on it and `m` points strictly below it,
   * (m - 1) * (n - 1) is at most one.
   */
  ghost predicate TieSafe(points: seq<Point>) {
    forall p :: p in points ==> SafeLevel(Below(points, p.x), At(points, p.x))
  }

  ghost predicate SafeLevel(below: int, at: int) {
    (below - 1) * (at - 1) <= 1
  }

  /** The fit is a non-decreasing assignment, and none errs less. */
  ghost predicate LeastSquares(points: seq<Point>)
    requires points != []
  {
    && NonDecreasing(points, Fitted(points))
    && forall f: real -> real :: NonDecreasing(points, f) ==> Error(points, Fitted(points)) <= Error(points, f)
  }

  /** The same confidences, labelled in another way. */
  ghost predicate SameConfidences(a: seq<Point>, b: seq<Point>) {
    |a| == |b| && forall i :: 0 <= i < |a| ==> a[i].x == b[i].x
  }

  // ---------------------------------------------------------------------------
  // Safe ties keep the certificates
  // ---------------------------------------------------------------------------

  lemma {:induction false} CountAll(s: seq<Point>, c: Point -> bool)
    requires forall p :: p in s ==> c(p)
    ensures Count(s, c) == |s|
  {
    if s != [] {
      assert s[|s| - 1] in s;
      CountAll(s[..|s| - 1], c);
    }
  }

  lemma CountRange(s: seq<Point>, lo: nat, hi: nat, c: Point -> bool)
    requires lo <= hi <= |s| && forall i :: lo <= i < hi ==> c(s[i])
    ensures Count(s, c) >= hi - lo
  {
    hide Count;
    assert s == s[..lo] + (s[lo..hi] + s[hi..]);
    CountConcat(s[..lo], s[lo..hi] + s[hi..], c);
    CountConcat(s[lo..hi], s[hi..], c);
    CountAll(s[lo..hi], c);
  }

  lemma SafeProduct(below: int, at: int, d: int, c: int)
    requires SafeLevel(below, at) && 1 <= d <= below && 1 <= c <= at - 1
    ensures SafeLevel(d, c + 1)
  {
    Grow(below - 1, d - 1, c);
    Grow(at - 1, c, below - 1);
  }

  lemma Grow(x: int, y: int, k: nat)
    requires x >= y
    ensures x * k >= y * k
  {
  }

  lemma RatioOrder(p: nat, i: nat, t: nat, q: nat)
    requires i > 0 && q > 0
    ensures Ratio(p, i) >= Ratio(t, q) <==> p * q >= t * i
  {
    CrossMultiply(t as real, p as real, q as real, i as real);
    assert (p * q) as real == p as real * q as real;
    assert (t * i) as real == t as real * i as real;
  }

  lemma TwoBelow(d: nat, c: nat)
    requires d >= 1 && c >= 1 && SafeLevel(d, c + 1)
    ensures d == 1 || (d == 2 && c == 1)
  {
    Grow(c, 1, d - 1);
    if d >= 2 {
      Grow(d - 1, 1, c);
    }
  }

  /**
   * `d` points of lower confidences and `c` points of the tie are already in the block, with `t`
   * positive labels in all; another positive label leaves the cut after `i` points certified.
   */
  lemma PositiveTieCut(p: nat, i: nat, t: nat, q: nat, d: nat, c: nat)
    requires 1 <= i <= d && 1 <= c && q == d + c && SafeLevel(d, c + 1)
    requires p <= i && p <= t <= q && t - p <= q - i && t > 0
    requires Ratio(p, i) >= Ratio(t, q)
    ensures Ratio(p, i) >= Ratio(t + 1, q + 1)
  {
    TwoBelow(d, c);
    RatioOrder(p, i, t, q);
    RatioOrder(p, i, t + 1, q + 1);
    if i == 1 {
      assert p == 1;
    } else {
      assert i == 2 && q == 3 && p * 3 >= t * 2;
    }
  }

  lemma NegativeTieCut(p: nat, i: nat, t: nat, q: nat)
    requires i > 0 && q > 0 && Ratio(p, i) >= Ratio(t, q)
    ensures Ratio(p, i) >= Ratio(t, q + 1)
  {
    RatioOrder(p, i, t, q);
    RatioOrder(p, i, t, q + 1);
    assert p * (q + 1) == p * q + p;
  }

  lemma OnesParts(s: seq<Point>, i: nat)
    requires i <= |s|
    ensures Ones(s[..i]) <= Ones(s) <= Ones(s[..i]) + (|s| - i)
  {
    assert s == s[..i] + s[i..];
    OnesConcat(s[..i], s[i..]);
  }

  /** Where the tie begins inside the block it has joined. */
  lemma LevelStart(seg: seq<Point>) returns (d: nat)
    requires seg != [] && Rising(seg)
    ensures d < |seg|
    ensures forall i :: 0 <= i < d ==> seg[i].x < Last(seg).x
    ensures forall i :: d <= i < |seg| ==> seg[i].x == Last(seg).x
  {
    d := |seg| - 1;
    while d > 0 && seg[d - 1].x == Last(seg).x
      invariant d < |seg| && forall i :: d <= i < |seg| ==> seg[i].x == Last(seg).x
    {
      d := d - 1;
    }
    forall i | 0 <= i < d ensures seg[i].x < Last(seg).x {
      assert seg[i].x <= seg[d - 1].x <= Last(seg).x;
    }
  }

  lemma OnesSnoc(seg: seq<Point>, p: Point)
    ensures Ones(seg + [p]) == Ones(seg) + (if p.positive then 1 else 0)
  {
    assert (seg + [p])[..|seg|] == seg;
  }

  lemma TieCut(seg: seq<Point>, p: Point, d: nat, i: nat)
    requires 0 < i <= d < |seg| && Mean(seg[..i]) >= Mean(seg) && Ones(seg) > 0
    requires p.positive ==> SafeLevel(d, |seg| - d + 1)
    ensures Mean(seg[..i]) >= Mean(seg + [p])
  {
    hide Ones, Ratio, SafeLevel;
    OnesSnoc(seg, p);
    OnesParts(seg, i);
    if p.positive {
      PositiveTieCut(Ones(seg[..i]), i, Ones(seg), |seg|, d, |seg| - d);
    } else {
      NegativeTieCut(Ones(seg[..i]), i, Ones(seg), |seg|);
    }
  }

  /** `d` is where the tie that `p` belongs to begins inside the block. */
  lemma TieCertified(seg: seq<Point>, p: Point, d: nat)
    requires seg != [] && Certified(seg) && Last(seg).x == p.x && d < |seg|
    requires d > 0 ==> Ones(seg) > 0
    requires forall i :: d <= i < |seg| ==> seg[i].x == p.x
    requires p.positive && d > 0 ==> SafeLevel(d, |seg| - d + 1)
    ensures Certified(seg + [p])
  {
    hide Mean, Ones;
    var s := seg + [p];
    forall i | 0 < i < |s| && s[i - 1].x < s[i].x
      ensures Mean(s[..i]) >= Mean(s)
    {
      assert i < |seg| && seg[i - 1].x < seg[i].x;
      assert s[..i] == seg[..i];
      assert i <= d;
      TieCut(seg, p, d, i);
    }
  }

  // ---------------------------------------------------------------------------
  // Safe ties are enough
  // ---------------------------------------------------------------------------

  /** The points of the last block are the last points taken in. */
  lemma LastBlockSuffix(ss: Segments, s: seq<Point>)
    requires NonEmpty(ss) && ss != [] && Flatten(ss) == s
    ensures |Last(ss)| <= |s| && Last(ss) == s[|s| - |Last(ss)|..]
  {
  }

  /** The counts of a whole list bound what one block can hold of a tie. */
  lemma TieCounts(s: seq<Point>, k: nat, seg: seq<Point>, d: nat)
    requires k < |s| && seg != [] && |seg| <= k && seg == s[k - |seg|..k]
    requires Last(seg).x == s[k].x && d < |seg|
    requires forall i :: 0 <= i < d ==> seg[i].x < s[k].x
    requires forall i :: d <= i < |seg| ==> seg[i].x == s[k].x
    ensures Below(s, s[k].x) >= d && At(s, s[k].x) >= |seg| - d + 1
  {
    var a := k - |seg|;
    assert forall i :: a <= i < k ==> s[i] == seg[i - a];
    CountRange(s, a, a + d, (p: Point) => p.x < s[k].x);
    CountRange(s, a + d, k + 1, (p: Point) => p.x == s[k].x);
  }

  lemma JoinCertified(s: seq<Point>, k: nat, seg: seq<Point>)
    requires k < |s| && TieSafe(s) && seg != [] && |seg| <= k && seg == s[k - |seg|..k]
    requires Certified(seg) && Rising(seg) && Last(seg).x == s[k].x
    requires seg[0].x < Last(seg).x ==> Ones(seg) > 0
    ensures Certified(seg + [s[k]])
  {
    hide SafeLevel, Ones, Mean;
    var p := s[k];
    var d := LevelStart(seg);
    TieCounts(s, k, seg, d);
    assert SafeLevel(Below(s, p.x), At(s, p.x)) by { assert p in s; }
    if d > 0 {
      SafeProduct(Below(s, p.x), At(s, p.x), d, |seg| - d);
    }
    TieCertified(seg, p, d);
  }

  lemma CertifiedAppend(ss: Segments, seg: seq<Point>)
    requires AllCertified(ss) && Certified(seg)
    ensures AllCertified(ss + [seg])
  {
  }

  lemma CertifiedParts(ss: Segments)
    requires AllCertified(ss) && ss != []
    ensures AllCertified(ss[..|ss| - 1]) && Certified(Last(ss))
  {
  }

  lemma LastSeparated(ss: Segments)
    requires NonEmpty(ss) && ss != [] && Separated(ss)
    ensures Rising(Last(ss)) && (Last(ss)[0].x < Last(Last(ss)).x ==> Ones(Last(ss)) > 0)
  {
    hide Rising, Ones;
  }

  lemma LastTaken(ss: Segments, s: seq<Point>, k: nat)
    requires k <= |s| && NonEmpty(ss) && ss != [] && Flatten(ss) == s[..k]
    ensures |Last(ss)| <= k && Last(ss) == s[k - |Last(ss)|..k]
  {
    hide Flatten, NonEmpty;
    LastBlockSuffix(ss, s[..k]);
  }

  lemma AddCertified(s: seq<Point>, k: nat, ss: Segments)
    requires k < |s| && TieSafe(s) && NonEmpty(ss)
    requires Structured(ss, s[..k]) && AllCertified(ss)
    ensures AllCertified(Add(ss, s[k]))
  {
    hide TieSafe, AllCertified, Separated, Ascending, Flatten, Rising, Ones;
    if ss != [] && Last(Last(ss)).x == s[k].x {
      var seg := Last(ss);
      LastTaken(ss, s, k);
      LastSeparated(ss);
      CertifiedParts(ss);
      JoinCertified(s, k, seg);
      CertifiedAppend(ss[..|ss| - 1], seg + [s[k]]);
    } else {
      OneCertified(s[k]);
      CertifiedAppend(ss, [s[k]]);
    }
  }

  lemma OneCertified(p: Point)
    ensures Certified([p])
  {
  }

  lemma NothingCertified()
    ensures AllCertified(Blocks([]))
  {
  }

  lemma OrderedPrefix(s: seq<Point>, k: nat)
    requires Ordered(s) && k <= |s|
    ensures Ordered(s[..k])
  {
    hide Precedes;
  }

  /** With safe ties every block is certified after every prefix of the points. */
  lemma {:induction false} BlocksCertified(s: seq<Point>, k: nat)
    requires Ordered(s) && TieSafe(s) && k <= |s|
    ensures AllCertified(Blocks(s[..k]))
  {
    hide Structured, Add, Pool, AllCertified, TieSafe, Ordered, Blocks;
    if k == 0 {
      NothingCertified();
      assert s[..0] == [];
    } else {
      BlocksCertified(s, k - 1);
      OrderedPrefix(s, k - 1);
      BlocksStructure(s[..k - 1]);
      AddCertified(s, k - 1, Blocks(s[..k - 1]));
      BlocksNext(s, k - 1);
      PoolCertified(Add(Blocks(s[..k - 1]), s[k - 1]));
    }
  }
}
