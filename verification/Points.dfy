/** Labelled confidences, weighted sums over them, and the ordering `sorted` gives them. */
module Points {

  /** A raw confidence together with whether the prediction was correct. */
  datatype Point = Point(x: real, positive: bool)

  function Label(p: Point): real {
    if p.positive then 1.0 else 0.0
  }

  function Ones(s: seq<Point>): (n: nat)
    ensures n <= |s|
  {
    if s == [] then 0 else Ones(s[..|s| - 1]) + (if s[|s| - 1].positive then 1 else 0)
  }

  function Sum(s: seq<Point>, w: Point -> real): real {
    if s == [] then 0.0 else Sum(s[..|s| - 1], w) + w(s[|s| - 1])
  }

  function Count(s: seq<Point>, c: Point -> bool): (n: nat)
    ensures n <= |s|
  {
    if s == [] then 0 else Count(s[..|s| - 1], c) + (if c(s[|s| - 1]) then 1 else 0)
  }

  /** How many points lie strictly below a confidence, and how many share it. */
  function Below(s: seq<Point>, x: real): nat {
    Count(s, (p: Point) => p.x < x)
  }

  function At(s: seq<Point>, x: real): nat {
    Count(s, (p: Point) => p.x == x)
  }

  lemma {:induction false} OnesConcat(a: seq<Point>, b: seq<Point>)
    ensures Ones(a + b) == Ones(a) + Ones(b)
  {
    if b == [] {
      assert a + b == a;
    } else {
      assert (a + b)[..|a + b| - 1] == a + b[..|b| - 1];
      OnesConcat(a, b[..|b| - 1]);
    }
  }

  lemma {:induction false} SumConcat(a: seq<Point>, b: seq<Point>, w: Point -> real)
    ensures Sum(a + b, w) == Sum(a, w) + Sum(b, w)
  {
    if b == [] {
      assert a + b == a;
    } else {
      assert (a + b)[..|a + b| - 1] == a + b[..|b| - 1];
      SumConcat(a, b[..|b| - 1], w);
    }
  }

  lemma {:induction false} CountConcat(a: seq<Point>, b: seq<Point>, c: Point -> bool)
    ensures Count(a + b, c) == Count(a, c) + Count(b, c)
  {
    if b == [] {
      assert a + b == a;
    } else {
      assert (a + b)[..|a + b| - 1] == a + b[..|b| - 1];
      CountConcat(a, b[..|b| - 1], c);
    }
  }

  lemma {:induction false} SumPointwise(s: seq<Point>, v: Point -> real, w: Point -> real)
    requires forall p :: p in s ==> v(p) == w(p)
    ensures Sum(s, v) == Sum(s, w)
  {
    if s != [] {
      assert s == s[..|s| - 1] + [s[|s| - 1]];
      SumPointwise(s[..|s| - 1], v, w);
    }
  }

  function Without(s: seq<Point>, j: nat): (r: seq<Point>)
    requires j < |s|
    ensures |r| == |s| - 1
  {
    s[..j] + s[j + 1..]
  }

  lemma TakeOutMultiset(s: seq<Point>, j: nat)
    requires j < |s|
    ensures multiset(s) == multiset(Without(s, j)) + multiset{s[j]}
    ensures multiset(Without(s, j)) == multiset(s) - multiset{s[j]}
  {
    assert s == s[..j] + [s[j]] + s[j + 1..];
  }

  lemma Extend(s: seq<Point>, j: nat, w: Point -> real, c: Point -> bool)
    requires j < |s|
    ensures Sum(s[..j + 1], w) == Sum(s[..j], w) + w(s[j])
    ensures Count(s[..j + 1], c) == Count(s[..j], c) + (if c(s[j]) then 1 else 0)
  {
    assert s[..j + 1][..j] == s[..j];
  }

  lemma TakeOut(s: seq<Point>, j: nat, w: Point -> real, c: Point -> bool)
    requires j < |s|
    ensures Sum(s, w) == Sum(Without(s, j), w) + w(s[j])
    ensures Count(s, c) == Count(Without(s, j), c) + (if c(s[j]) then 1 else 0)
  {
    hide Sum, Count;
    var front, back := s[..j + 1], s[j + 1..];
    assert s == front + back;
    Extend(s, j, w, c);
    SumConcat(front, back, w);
    CountConcat(front, back, c);
    SumConcat(s[..j], back, w);
    CountConcat(s[..j], back, c);
  }

  /** Sums and counts do not depend on the arrangement of the points. */
  lemma {:induction false} Permuted(a: seq<Point>, b: seq<Point>, w: Point -> real, c: Point -> bool)
    requires multiset(a) == multiset(b)
    ensures |a| == |b| && Sum(a, w) == Sum(b, w) && Count(a, c) == Count(b, c)
    decreases |a|
  {
    assert |a| == |multiset(a)| == |multiset(b)| == |b|;
    if a != [] {
      var front, p := a[..|a| - 1], a[|a| - 1];
      TakeOutMultiset(a, |a| - 1);
      assert front == Without(a, |a| - 1);
      assert p in multiset(b);
      var j :| 0 <= j < |b| && b[j] == p;
      TakeOutMultiset(b, j);
      Permuted(front, Without(b, j), w, c);
      TakeOut(b, j, w, c);
    }
  }

  /** The tuple order of the source: by confidence, then label. */
  predicate Precedes(p: Point, q: Point) {
    p.x < q.x || (p.x == q.x && (p.positive ==> q.positive))
  }

  predicate Ordered(s: seq<Point>) {
    forall i, j :: 0 <= i < j < |s| ==> Precedes(s[i], s[j])
  }

  function Insert(s: seq<Point>, p: Point): (r: seq<Point>)
    requires Ordered(s)
    ensures Ordered(r) && multiset(r) == multiset(s) + multiset{p}
  {
    if s == [] || Precedes(s[|s| - 1], p) then
      s + [p]
    else
      var front, last := s[..|s| - 1], s[|s| - 1];
      assert s == front + [last];
      var r := Insert(front, p);
      AppendOrdered(front, p, r, last);
      r + [last]
  }

  lemma AppendOrdered(front: seq<Point>, p: Point, r: seq<Point>, last: Point)
    requires Ordered(front + [last]) && !Precedes(last, p)
    requires Ordered(r) && multiset(r) == multiset(front) + multiset{p}
    ensures Ordered(r + [last])
  {
    forall i | 0 <= i < |r|
      ensures Precedes(r[i], last)
    {
      assert r[i] in multiset(r);
      if r[i] in front {
        var j :| 0 <= j < |front| && front[j] == r[i];
        assert (front + [last])[j] == r[i] && (front + [last])[|front|] == last;
      }
    }
  }

  /** `sorted(points)`. */
  function Sorted(points: seq<Point>): (r: seq<Point>)
    ensures Ordered(r) && multiset(r) == multiset(points)
  {
    if points == [] then
      []
    else
      assert points == points[..|points| - 1] + [points[|points| - 1]];
      Insert(Sorted(points[..|points| - 1]), points[|points| - 1])
  }
}
