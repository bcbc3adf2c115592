/** Simplifying an outline: Douglas-Peucker with a stack in place of recursion.

    `Simplify` marks the points to keep in an array while it pops and pushes
    segments. It keeps exactly what the recursive form, `Path`, keeps; and that
    drops no point farther than the tolerance from the line that replaces it. */
module Outlines {

  datatype Point = Point(x: real, y: real)

  // ---------------------------------------------------------------- products

  function Times(a: real, b: real): real
  {
    a * b
  }

  function Squared(r: real): real
  {
    Times(r, r)
  }

  lemma TimesPositive(a: real, b: real)
    requires a > 0.0 && b > 0.0
    ensures Times(a, b) > 0.0
  {
  }

  lemma SquaredPositive(r: real)
    ensures Squared(r) >= 0.0 && (Squared(r) == 0.0 ==> r == 0.0)
  {
    if r > 0.0 {
      TimesPositive(r, r);
    } else if r < 0.0 {
      TimesPositive(-r, -r);
      assert Times(-r, -r) == Times(r, r);
    }
  }

  lemma TimesSum(a: real, b: real, c: real)
    ensures Times(a + b, c) == Times(a, c) + Times(b, c) && Times(c, a + b) == Times(c, a) + Times(c, b)
    ensures Times(a, b) == Times(b, a)
  {
  }

  lemma TimesFour(a: real, b: real, c: real, d: real)
    ensures Times(Times(a, b), Times(c, d)) == Times(Times(a, c), Times(b, d))
  {
  }

  lemma SquaredSum(a: real, b: real)
    ensures Squared(a + b) == Squared(a) + 2.0 * Times(a, b) + Squared(b)
    ensures Squared(a - b) == Squared(a) - 2.0 * Times(a, b) + Squared(b)
  {
  }

  lemma TimesOrdered(l: real, d: real, e: real)
    requires l > 0.0
    ensures Times(l, d) <= Times(l, e) <==> d <= e
  {
    TimesSum(d - e, e, l);
    TimesSum(e - d, d, l);
    if d > e {
      TimesPositive(l, d - e);
    } else if d < e {
      TimesPositive(l, e - d);
    }
  }

  /** The lengths of two vectors multiply to their cross and dot products. */
  lemma Lagrange(u: real, v: real, sx: real, sy: real)
    ensures Times(Squared(sx) + Squared(sy), Squared(u) + Squared(v))
         == Squared(Times(u, sy) - Times(v, sx)) + Squared(Times(u, sx) + Times(v, sy))
  {
    hide Times;
    TimesSum(Squared(sx), Squared(sy), Squared(u) + Squared(v));
    TimesSum(Squared(u), Squared(v), Squared(sx));
    TimesSum(Squared(u), Squared(v), Squared(sy));
    SquaredSum(Times(u, sy), Times(v, sx));
    SquaredSum(Times(u, sx), Times(v, sy));
    TimesFour(u, sy, u, sy);
    TimesFour(v, sx, v, sx);
    TimesFour(u, sx, u, sx);
    TimesFour(v, sy, v, sy);
    TimesFour(u, sy, v, sx);
    TimesFour(u, sx, v, sy);
    TimesSum(sx, sy, 0.0);
    TimesSum(Squared(u), Squared(sx), 0.0);
    TimesSum(Squared(u), Squared(sy), 0.0);
    TimesSum(Squared(v), Squared(sx), 0.0);
    TimesSum(Squared(v), Squared(sy), 0.0);
  }

  // ---------------------------------------------------------------- distances

  /** The square of the distance between two points. */
  function Distance2(a: Point, b: Point): real
  {
    Squared(b.x - a.x) + Squared(b.y - a.y)
  }

  lemma DistanceZero(a: Point, b: Point)
    ensures Distance2(a, b) >= 0.0 && (Distance2(a, b) == 0.0 ==> a == b)
  {
    SquaredPositive(b.x - a.x);
    SquaredPositive(b.y - a.y);
  }

  function Cross(a: Point, b: Point, p: Point): real
  {
    Times(p.x - a.x, b.y - a.y) - Times(p.y - a.y, b.x - a.x)
  }

  function Dot(a: Point, b: Point, p: Point): real
  {
    Times(p.x - a.x, b.x - a.x) + Times(p.y - a.y, b.y - a.y)
  }

  /** What distances from one segment are compared by: the square of the
      distance to its line, times `Scale`; or of the distance to its one point. */
  function Off(a: Point, b: Point, p: Point): real
  {
    if Distance2(a, b) == 0.0 then Distance2(a, p) else Squared(Cross(a, b, p))
  }

  function Scale(a: Point, b: Point): real
  {
    if Distance2(a, b) == 0.0 then 1.0 else Distance2(a, b)
  }

  /** The distance exceeds the tolerance. Every distance exceeds a negative one. */
  predicate Exceeds(a: Point, b: Point, p: Point, tolerance: real)
  {
    tolerance < 0.0 || Off(a, b, p) > Times(Scale(a, b), Squared(tolerance))
  }

  /** A point of the line through `a` and `b`. */
  function OnLine(a: Point, b: Point, t: real): Point
  {
    Point(a.x + Times(t, b.x - a.x), a.y + Times(t, b.y - a.y))
  }

  /** Off the line at `t`, split along the line and across it. */
  lemma Split(a: Point, b: Point, p: Point, t: real)
    ensures Times(Distance2(a, b), Distance2(OnLine(a, b, t), p))
         == Squared(Cross(a, b, p)) + Squared(Dot(a, b, p) - Times(t, Distance2(a, b)))
  {
    hide Times, Squared;
    var q, sx, sy := OnLine(a, b, t), b.x - a.x, b.y - a.y;
    var u, v := p.x - q.x, p.y - q.y;
    Lagrange(u, v, sx, sy);
    assert Cross(a, b, p) == Times(u, sy) - Times(v, sx) by {
      assert p.x - a.x == u + Times(t, sx) && p.y - a.y == v + Times(t, sy);
      TimesSum(u, Times(t, sx), sy);
      TimesSum(v, Times(t, sy), sx);
      TimesTurned(t, sx, sy);
    }
    assert Dot(a, b, p) - Times(t, Distance2(a, b)) == Times(u, sx) + Times(v, sy) by {
      assert p.x - a.x == u + Times(t, sx) && p.y - a.y == v + Times(t, sy);
      TimesSum(u, Times(t, sx), sx);
      TimesSum(v, Times(t, sy), sy);
      TimesSum(Squared(sx), Squared(sy), t);
      TimesTurned(t, sx, sx);
      TimesTurned(t, sy, sy);
    }
  }

  lemma TimesTurned(t: real, a: real, b: real)
    ensures Times(Times(t, a), b) == Times(Times(t, b), a) == Times(t, Times(a, b))
    ensures Squared(a) == Times(a, a)
  {
  }

  /** Where the line comes nearest to `p`, and how near. */
  lemma Nearest(a: Point, b: Point, p: Point) returns (t: real)
    ensures Times(Scale(a, b), Distance2(OnLine(a, b, t), p)) == Off(a, b, p)
  {
    DistanceZero(a, b);
    if a == b {
      t := 0.0;
      assert OnLine(a, b, t) == a && Distance2(a, b) == 0.0;
    } else {
      t := Dot(a, b, p) / Distance2(a, b);
      assert Times(t, Distance2(a, b)) == Dot(a, b, p);
      Split(a, b, p, t);
    }
  }

  /** No point of the line is nearer than that. */
  lemma NoNearer(a: Point, b: Point, p: Point, t: real)
    ensures Off(a, b, p) <= Times(Scale(a, b), Distance2(OnLine(a, b, t), p)) && Scale(a, b) > 0.0
  {
    DistanceZero(a, b);
    if Distance2(a, b) == 0.0 {
      assert OnLine(a, b, t) == a;
    } else {
      Split(a, b, p, t);
      SquaredPositive(Dot(a, b, p) - Times(t, Distance2(a, b)));
    }
  }

  /** `Exceeds` is about the distance: a point does not exceed the tolerance
      exactly when some point of the line lies that near. */
  lemma ExceedsMeansFar(a: Point, b: Point, p: Point, tolerance: real)
    requires tolerance >= 0.0
    ensures !Exceeds(a, b, p, tolerance) <==> exists t :: Distance2(OnLine(a, b, t), p) <= Squared(tolerance)
  {
    hide Distance2, Squared, Times, Off, Scale, OnLine;
    var t := Nearest(a, b, p);
    NoNearer(a, b, p, t);
    TimesOrdered(Scale(a, b), Distance2(OnLine(a, b, t), p), Squared(tolerance));
    forall u | Distance2(OnLine(a, b, u), p) <= Squared(tolerance) ensures !Exceeds(a, b, p, tolerance) {
      NoNearer(a, b, p, u);
      TimesOrdered(Scale(a, b), Distance2(OnLine(a, b, u), p), Squared(tolerance));
    }
  }

  // ---------------------------------------------------------------- the recursive form

  /** The first of the points strictly between `first` and `last` that lie
      farthest from the segment; of those before `end`. */
  function WorstBefore(points: seq<Point>, first: nat, last: nat, end: nat): (worst: nat)
    requires first + 1 < end <= last < |points|
    ensures first < worst < end
    ensures forall j :: first < j < end ==> Off(points[first], points[last], points[j]) <= Off(points[first], points[last], points[worst])
    ensures forall j :: first < j < worst ==> Off(points[first], points[last], points[j]) < Off(points[first], points[last], points[worst])
    decreases end
  {
    hide Off;
    if end == first + 2 then first + 1 else
      var worst := WorstBefore(points, first, last, end - 1);
      if Off(points[first], points[last], points[end - 1]) > Off(points[first], points[last], points[worst]) then end - 1 else worst
  }

  function Worst(points: seq<Point>, first: nat, last: nat): (worst: nat)
    requires first + 1 < last < |points|
    ensures first < worst < last
  {
    WorstBefore(points, first, last, last)
  }

  /** Where a segment is split, if it is. */
  predicate Splits(points: seq<Point>, first: nat, last: nat, tolerance: real)
    requires first < last < |points|
  {
    last - first >= 2 && Exceeds(points[first], points[last], points[Worst(points, first, last)], tolerance)
  }

  /** The indices kept from `first` to `last`, both included, in order. */
  function Path(points: seq<Point>, first: nat, last: nat, tolerance: real): (r: seq<nat>)
    requires first < last < |points|
    ensures |r| >= 2 && r[0] == first && r[|r| - 1] == last
    ensures forall i :: 0 <= i < |r| ==> first <= r[i] <= last
    decreases last - first
  {
    if Splits(points, first, last, tolerance) then
      var split := Worst(points, first, last);
      Path(points, first, split, tolerance) + Path(points, split, last, tolerance)[1..]
    else [first, last]
  }

  lemma PathSplit(points: seq<Point>, first: nat, last: nat, tolerance: real)
    requires first < last < |points| && Splits(points, first, last, tolerance)
    ensures var split := Worst(points, first, last);
            Path(points, first, last, tolerance)
            == Path(points, first, split, tolerance) + Path(points, split, last, tolerance)[1..]
  {
    hide Worst, WorstBefore, Exceeds;
  }

  ghost predicate Ascending(r: seq<nat>)
  {
    forall i, j :: 0 <= i < j < |r| ==> r[i] < r[j]
  }

  lemma {:induction false} PathAscends(points: seq<Point>, first: nat, last: nat, tolerance: real)
    requires first < last < |points|
    ensures Ascending(Path(points, first, last, tolerance))
    decreases last - first
  {
    if Splits(points, first, last, tolerance) {
      var split := Worst(points, first, last);
      PathAscends(points, first, split, tolerance);
      PathAscends(points, split, last, tolerance);
    }
  }

  /** Between two kept points that follow one another, every point is within the
      tolerance of the line through them. */
  ghost predicate NearTheirLines(points: seq<Point>, r: seq<nat>, tolerance: real)
  {
    forall i, k: nat :: 0 <= i < |r| - 1 && r[i] < k < r[i + 1] < |points| ==>
      !Exceeds(points[r[i]], points[r[i + 1]], points[k], tolerance)
  }

  lemma NearJoined(points: seq<Point>, left: seq<nat>, right: seq<nat>, tolerance: real)
    requires left != [] && right != [] && left[|left| - 1] == right[0]
    requires NearTheirLines(points, left, tolerance) && NearTheirLines(points, right, tolerance)
    ensures NearTheirLines(points, left + right[1..], tolerance)
  {
    hide Exceeds;
    var r := left + right[1..];
    forall i, k: nat | 0 <= i < |r| - 1 && r[i] < k < r[i + 1] < |points|
      ensures !Exceeds(points[r[i]], points[r[i + 1]], points[k], tolerance)
    {
      if i + 1 < |left| {
        assert r[i] == left[i] && r[i + 1] == left[i + 1];
      } else {
        var j := i + 1 - |left|;
        assert r[i] == right[j] && r[i + 1] == right[j + 1];
      }
    }
  }

  /** Every point left out is within the tolerance of the line through the two
      kept points it lies between. */
  lemma {:induction false} NothingFarIsDropped(points: seq<Point>, first: nat, last: nat, tolerance: real)
    requires first < last < |points|
    ensures NearTheirLines(points, Path(points, first, last, tolerance), tolerance)
    decreases last - first
  {
    hide Off, Exceeds;
    if Splits(points, first, last, tolerance) {
      PathSplit(points, first, last, tolerance);
      var split := Worst(points, first, last);
      hide Path, Worst, NearTheirLines;
      NothingFarIsDropped(points, first, split, tolerance);
      NothingFarIsDropped(points, split, last, tolerance);
      NearJoined(points, Path(points, first, split, tolerance), Path(points, split, last, tolerance), tolerance);
    } else {
      forall k: nat | first < k < last ensures !Exceeds(points[first], points[last], points[k], tolerance) {
        Nearer(points[first], points[last], points[Worst(points, first, last)], points[k], tolerance);
      }
    }
  }

  lemma Nearer(a: Point, b: Point, far: Point, p: Point, tolerance: real)
    requires Off(a, b, p) <= Off(a, b, far) && !Exceeds(a, b, far, tolerance)
    ensures !Exceeds(a, b, p, tolerance)
  {
  }

  lemma JoinedAt(left: seq<nat>, right: seq<nat>, k: nat)
    requires left != [] && right != [] && left[|left| - 1] == right[0]
    ensures k in left + right[1..] <==> k in left || k in right
  {
    if k in right {
      var i :| 0 <= i < |right| && right[i] == k;
      if i > 0 {
        assert right[1..][i - 1] == k;
      }
    }
  }

  /** Between `i` and `j`, `k` lies farthest off, and too far. */
  predicate Needed(points: seq<Point>, tolerance: real, i: nat, k: nat, j: nat)
  {
    && i < k < j < |points| && Exceeds(points[i], points[j], points[k], tolerance)
    && (forall m :: i < m < j ==> Off(points[i], points[j], points[m]) <= Off(points[i], points[j], points[k]))
  }

  ghost predicate AllNeeded(points: seq<Point>, r: seq<nat>, tolerance: real)
  {
    forall k :: k in r ==>
      k == r[0] || k == r[|r| - 1] || exists i, j :: i in r && j in r && Needed(points, tolerance, i, k, j)
  }

  lemma NeededJoined(points: seq<Point>, left: seq<nat>, right: seq<nat>, tolerance: real)
    requires |left| >= 2 && |right| >= 2 && left[|left| - 1] == right[0]
    requires AllNeeded(points, left, tolerance) && AllNeeded(points, right, tolerance)
    requires Needed(points, tolerance, left[0], right[0], right[|right| - 1])
    ensures AllNeeded(points, left + right[1..], tolerance)
  {
    hide Needed;
    var r := left + right[1..];
    assert r[0] == left[0] && r[|r| - 1] == right[|right| - 1] && left[0] in r && right[|right| - 1] in r;
    forall k | k in r
      ensures k == r[0] || k == r[|r| - 1] || exists i, j :: i in r && j in r && Needed(points, tolerance, i, k, j)
    {
      JoinedAt(left, right, k);
      if k != r[0] && k != r[|r| - 1] && k != right[0] {
        var i, j :| Needed(points, tolerance, i, k, j) && ((i in left && j in left) || (i in right && j in right));
        JoinedAt(left, right, i);
        JoinedAt(left, right, j);
      }
    }
  }

  /** And no point is kept without need: each one but the ends lies too far
      from the line through two other kept points, and farthest of all between. */
  lemma {:induction false} NothingIsKeptInVain(points: seq<Point>, first: nat, last: nat, tolerance: real)
    requires first < last < |points|
    ensures AllNeeded(points, Path(points, first, last, tolerance), tolerance)
    decreases last - first
  {
    hide Exceeds, Off;
    if Splits(points, first, last, tolerance) {
      PathSplit(points, first, last, tolerance);
      var split := Worst(points, first, last);
      assert Needed(points, tolerance, first, split, last);
      hide Path, Splits, Worst, Needed, AllNeeded;
      NothingIsKeptInVain(points, first, split, tolerance);
      NothingIsKeptInVain(points, split, last, tolerance);
      NeededJoined(points, Path(points, first, split, tolerance), Path(points, split, last, tolerance), tolerance);
    }
  }

  // ---------------------------------------------------------------- marks

  /** The points marked, of the first `n`, in order. */
  function Marked(points: seq<Point>, keep: seq<bool>, n: nat): (r: seq<Point>)
    requires n <= |keep| == |points|
  {
    if n == 0 then [] else Marked(points, keep, n - 1) + if keep[n - 1] then [points[n - 1]] else []
  }

  function At(points: seq<Point>, r: seq<nat>): (s: seq<Point>)
    requires forall i :: 0 <= i < |r| ==> r[i] < |points|
    ensures |s| == |r| && forall i :: 0 <= i < |s| ==> s[i] == points[r[i]]
  {
    seq(|r|, i requires 0 <= i < |r| => points[r[i]])
  }

  lemma AtOneMore(points: seq<Point>, front: seq<nat>, k: nat)
    requires (forall i :: 0 <= i < |front| ==> front[i] < |points|) && k < |points|
    ensures At(points, front + [k]) == At(points, front) + [points[k]]
  {
  }

  lemma LastMarked(r: seq<nat>, n: nat)
    requires Ascending(r) && n in r && forall i :: 0 <= i < |r| ==> r[i] <= n
    ensures r == r[..|r| - 1] + [n] && n !in r[..|r| - 1]
  {
    var i :| 0 <= i < |r| && r[i] == n;
    assert r[i] <= r[|r| - 1];
  }

  lemma {:induction false} RoomFor(r: seq<nat>, n: nat)
    requires Ascending(r) && forall i :: 0 <= i < |r| ==> r[i] < n
    ensures |r| <= n
  {
    if r != [] {
      RoomFor(r[..|r| - 1], r[|r| - 1]);
    }
  }

  lemma AscendingFront(r: seq<nat>)
    requires Ascending(r) && r != []
    ensures Ascending(r[..|r| - 1])
  {
  }

  /** The indices below `n` at which something is marked. */
  ghost predicate MarksBelow(keep: seq<bool>, n: nat, r: seq<nat>)
    requires n <= |keep|
  {
    && (forall i :: 0 <= i < |r| ==> r[i] < n)
    && (forall k: nat :: k < n ==> (keep[k] <==> k in r))
  }

  lemma MarksRoom(keep: seq<bool>, n: nat, r: seq<nat>)
    requires n <= |keep| && Ascending(r) && MarksBelow(keep, n, r)
    ensures |r| <= n
  {
    RoomFor(r, n);
  }

  lemma MarksFront(keep: seq<bool>, n: nat, r: seq<nat>)
    requires 0 < n <= |keep| && Ascending(r) && MarksBelow(keep, n, r) && keep[n - 1]
    ensures r != [] && r == r[..|r| - 1] + [n - 1] && Ascending(r[..|r| - 1]) && MarksBelow(keep, n - 1, r[..|r| - 1])
    ensures var front := r[..|r| - 1]; forall i :: 0 <= i < |front| ==> front[i] < n - 1
  {
    hide Ascending;
    LastMarked(r, n - 1);
    AscendingFront(r);
    var front := r[..|r| - 1];
    assert forall i :: 0 <= i < |front| ==> front[i] == r[i] && front[i] in front;
    forall k: nat | k < n - 1 ensures k in r <==> k in front {
    }
  }

  lemma MarksSame(keep: seq<bool>, n: nat, r: seq<nat>)
    requires 0 < n <= |keep| && MarksBelow(keep, n, r) && !keep[n - 1]
    ensures MarksBelow(keep, n - 1, r)
  {
    assert forall i :: 0 <= i < |r| ==> r[i] in r;
  }

  lemma MarkedStep(points: seq<Point>, keep: seq<bool>, n: nat)
    requires n <= |keep| == |points|
    ensures n == 0 ==> Marked(points, keep, n) == []
    ensures n > 0 && keep[n - 1] ==> Marked(points, keep, n) == Marked(points, keep, n - 1) + [points[n - 1]]
    ensures n > 0 && !keep[n - 1] ==> Marked(points, keep, n) == Marked(points, keep, n - 1)
  {
  }

  /** What is marked at ascending indices, and nowhere else, is the points there. */
  lemma {:induction false} MarkedAt(points: seq<Point>, keep: seq<bool>, n: nat, r: seq<nat>)
    requires n <= |keep| == |points| && Ascending(r) && MarksBelow(keep, n, r)
    ensures Marked(points, keep, n) == At(points, r)
  {
    hide Ascending, MarksBelow, At, Marked;
    MarkedStep(points, keep, n);
    if n == 0 {
      MarksRoom(keep, n, r);
      assert At(points, r) == [];
    } else if keep[n - 1] {
      MarksFront(keep, n, r);
      var front := r[..|r| - 1];
      MarkedAt(points, keep, n - 1, front);
      AtOneMore(points, front, n - 1);
    } else {
      MarksSame(keep, n, r);
      MarkedAt(points, keep, n - 1, r);
    }
  }

  // ---------------------------------------------------------------- the iterative form

  type Segment = (nat, nat)

  ghost predicate Segments(stack: seq<Segment>, n: nat)
  {
    forall s :: s in stack ==> s.0 < s.1 < n
  }

  /** An index the segment has yet to keep. */
  ghost predicate Inside(points: seq<Point>, tolerance: real, s: Segment, k: nat)
    requires s.0 < s.1 < |points|
  {
    s.0 < k < s.1 && k in Path(points, s.0, s.1, tolerance)
  }

  /** An index some segment on the stack has yet to keep. */
  ghost predicate Pending(points: seq<Point>, tolerance: real, stack: seq<Segment>, k: nat)
    requires Segments(stack, |points|)
  {
    exists s :: s in stack && Inside(points, tolerance, s, k)
  }

  lemma PendingPushed(points: seq<Point>, tolerance: real, rest: seq<Segment>, s: Segment, k: nat)
    requires Segments(rest, |points|) && s.0 < s.1 < |points|
    ensures Segments(rest + [s], |points|)
    ensures Pending(points, tolerance, rest + [s], k) <==> Pending(points, tolerance, rest, k) || Inside(points, tolerance, s, k)
  {
    hide Inside;
    assert forall t :: t in rest + [s] <==> t in rest || t == s;
  }

  lemma WholeStack(points: seq<Point>, tolerance: real, s: Segment, k: nat)
    requires s.0 < s.1 < |points|
    ensures Segments([s], |points|)
    ensures Pending(points, tolerance, [s], k) <==> Inside(points, tolerance, s, k)
  {
    assert [] + [s] == [s];
    PendingPushed(points, tolerance, [], s, k);
  }

  /** Each segment of length n is popped, and split into n pieces at most. */
  ghost function Work(stack: seq<Segment>): int
  {
    if stack == [] then 0 else
      var top := stack[|stack| - 1];
      var length: int := top.1 as int - top.0 as int;
      Work(stack[..|stack| - 1]) + 2 * length - 1
  }

  lemma {:induction false} WorkLeft(stack: seq<Segment>, n: nat)
    requires Segments(stack, n)
    ensures Work(stack) >= |stack|
  {
    if stack != [] {
      WorkLeft(stack[..|stack| - 1], n);
    }
  }

  lemma WorkTop(rest: seq<Segment>, top: Segment)
    ensures Work(rest + [top]) == Work(rest) + 2 * (top.1 as int - top.0 as int) - 1
    ensures Work([]) == 0
  {
    assert (rest + [top])[..|rest|] == rest;
  }

  lemma WorkPushed(rest: seq<Segment>, s: Segment, t: Segment)
    requires s.1 == t.0
    ensures Work(rest + [s, t]) == Work(rest + [(s.0, t.1)]) - 1
  {
    assert (rest + [s, t])[..|rest| + 1] == rest + [s];
    assert (rest + [s])[..|rest|] == rest && (rest + [(s.0, t.1)])[..|rest|] == rest;
  }

  /** What the popped segment had pending is its split, and what the two
      halves have pending. */
  lemma InsideSplits(points: seq<Point>, tolerance: real, s: Segment, k: nat)
    requires s.0 < s.1 < |points| && Splits(points, s.0, s.1, tolerance)
    ensures var split := Worst(points, s.0, s.1);
            Inside(points, tolerance, s, k)
            <==> k == split || Inside(points, tolerance, (s.0, split), k) || Inside(points, tolerance, (split, s.1), k)
  {
    PathSplit(points, s.0, s.1, tolerance);
    var split := Worst(points, s.0, s.1);
    hide Path, Splits, Worst;
    var r, left, right := Path(points, s.0, s.1, tolerance), Path(points, s.0, split, tolerance), Path(points, split, s.1, tolerance);
    PathAscends(points, s.0, split, tolerance);
    PathAscends(points, split, s.1, tolerance);
    JoinedAt(left, right, k);
  }

  lemma TwoPushed(points: seq<Point>, tolerance: real, rest: seq<Segment>, s: Segment, t: Segment, k: nat)
    requires Segments(rest, |points|) && s.0 < s.1 < |points| && t.0 < t.1 < |points|
    ensures Segments(rest + [s, t], |points|)
    ensures Pending(points, tolerance, rest + [s, t], k)
            <==> Pending(points, tolerance, rest, k) || Inside(points, tolerance, s, k) || Inside(points, tolerance, t, k)
  {
    hide Inside, Pending, Segments;
    PendingPushed(points, tolerance, rest, s, k);
    PendingPushed(points, tolerance, rest + [s], t, k);
    assert rest + [s] + [t] == rest + [s, t];
  }

  lemma SplitPushed(points: seq<Point>, tolerance: real, rest: seq<Segment>, top: Segment, k: nat)
    requires Segments(rest, |points|) && top.0 < top.1 < |points| && Splits(points, top.0, top.1, tolerance)
    ensures var split := Worst(points, top.0, top.1);
            var pushed := rest + [(top.0, split), (split, top.1)];
            Segments(pushed, |points|)
            && (k == split || Pending(points, tolerance, pushed, k) <==> Pending(points, tolerance, rest + [top], k))
  {
    var split := Worst(points, top.0, top.1);
    hide Inside, Pending, Splits, Path, Worst, Segments;
    InsideSplits(points, tolerance, top, k);
    PendingPushed(points, tolerance, rest, top, k);
    TwoPushed(points, tolerance, rest, (top.0, split), (split, top.1), k);
  }

  lemma WholePopped(points: seq<Point>, tolerance: real, rest: seq<Segment>, top: Segment, k: nat)
    requires Segments(rest, |points|) && top.0 < top.1 < |points| && !Splits(points, top.0, top.1, tolerance)
    ensures Pending(points, tolerance, rest + [top], k) <==> Pending(points, tolerance, rest, k)
  {
    PendingPushed(points, tolerance, rest, top, k);
  }

  /** What the loop keeps: the path is what is marked, and what is pending. */
  ghost predicate Between(points: seq<Point>, tolerance: real, keep: seq<bool>, stack: seq<Segment>)
  {
    && |keep| == |points| >= 3 && Segments(stack, |points|) && keep[0] && keep[|points| - 1]
    && forall k: nat :: 0 < k < |points| - 1 ==>
         (k in Path(points, 0, |points| - 1, tolerance) <==> keep[k] || Pending(points, tolerance, stack, k))
  }

  lemma BetweenStart(points: seq<Point>, tolerance: real, keep: seq<bool>)
    requires |keep| == |points| >= 3 && keep[0] && keep[|points| - 1]
    requires forall k :: 0 < k < |points| - 1 ==> !keep[k]
    ensures Between(points, tolerance, keep, [(0, |points| - 1)])
  {
    hide Path, Pending;
    var whole: Segment := (0, |points| - 1);
    forall k: nat | 0 < k < |points| - 1
      ensures Pending(points, tolerance, [whole], k) <==> k in Path(points, 0, |points| - 1, tolerance)
    {
      WholeStack(points, tolerance, whole, k);
    }
  }

  lemma BetweenSplit(points: seq<Point>, tolerance: real, keep: seq<bool>, rest: seq<Segment>, top: Segment)
    requires Between(points, tolerance, keep, rest + [top])
    requires Segments(rest, |points|) && top.0 < top.1 < |points| && Splits(points, top.0, top.1, tolerance)
    ensures var split := Worst(points, top.0, top.1);
            Between(points, tolerance, keep[split := true], rest + [(top.0, split), (split, top.1)])
  {
    var split := Worst(points, top.0, top.1);
    hide Pending, Splits, Worst;
    var marked, pushed := keep[split := true], rest + [(top.0, split), (split, top.1)];
    SplitPushed(points, tolerance, rest, top, 0);
    var path := Path(points, 0, |points| - 1, tolerance);
    hide Path;
    forall k: nat | 0 < k < |points| - 1
      ensures k in path <==> marked[k] || Pending(points, tolerance, pushed, k)
    {
      SplitPushed(points, tolerance, rest, top, k);
      assert k in path <==> keep[k] || Pending(points, tolerance, rest + [top], k);
    }
  }

  lemma BetweenWhole(points: seq<Point>, tolerance: real, keep: seq<bool>, rest: seq<Segment>, top: Segment)
    requires Between(points, tolerance, keep, rest + [top])
    requires Segments(rest, |points|) && top.0 < top.1 < |points| && !Splits(points, top.0, top.1, tolerance)
    ensures Between(points, tolerance, keep, rest)
  {
    hide Path, Pending, Splits;
    forall k: nat | 0 < k < |points| - 1
      ensures Pending(points, tolerance, rest, k) <==> Pending(points, tolerance, rest + [top], k)
    {
      WholePopped(points, tolerance, rest, top, k);
    }
  }

  lemma MarksAreThePath(points: seq<Point>, tolerance: real, keep: seq<bool>)
    requires Between(points, tolerance, keep, [])
    ensures Marked(points, keep, |points|) == At(points, Path(points, 0, |points| - 1, tolerance))
  {
    assert forall k: nat :: !Pending(points, tolerance, [], k);
    hide Path, Pending, Ascending, At, Inside;
    var r := Path(points, 0, |points| - 1, tolerance);
    PathAscends(points, 0, |points| - 1, tolerance);
    assert r[0] in r && r[|r| - 1] in r;
    MarkedAt(points, keep, |points|, r);
  }

  /** Simplifies an open path: fewer than three points stay as they are, and
      the ends are always kept. */
  method Simplify(points: seq<Point>, tolerance: real) returns (kept: seq<Point>, ghost pops: nat)
    ensures |points| < 3 ==> kept == points
    ensures |points| >= 3 ==> kept == At(points, Path(points, 0, |points| - 1, tolerance))
    ensures |points| >= 3 ==> pops <= 2 * |points| - 3
  {
    pops := 0;
    if |points| < 3 {
      return points, 0;
    }
    hide Path, Between, Exceeds, Off, At, Worst, Marked, Work;
    var n := |points|;
    var keep := new bool[n](_ => false);
    keep[0], keep[n - 1] := true, true;
    var stack: seq<Segment> := [(0, n - 1)];
    BetweenStart(points, tolerance, keep[..]);
    WorkTop([], (0, n - 1));
    assert [] + [(0, n - 1)] == stack;
    while stack != []
      invariant Segments(stack, n) && Between(points, tolerance, keep[..], stack)
      invariant pops + Work(stack) <= 2 * n - 3
      decreases Work(stack)
    {
      WorkLeft(stack, n);
      ghost var top, rest := stack[|stack| - 1], stack[..|stack| - 1];
      assert stack == rest + [top];
      WorkTop(rest, top);
      var first, last := stack[|stack| - 1].0, stack[|stack| - 1].1;
      stack := stack[..|stack| - 1];
      pops := pops + 1;
      if last - first >= 2 {
        var split := Worst(points, first, last);
        if Exceeds(points[first], points[last], points[split], tolerance) {
          BetweenSplit(points, tolerance, keep[..], rest, top);
          ghost var marked := keep[..][split := true];
          keep[split] := true;
          assert keep[..] == marked;
          stack := stack + [(first, split), (split, last)];
          WorkPushed(rest, (first, split), (split, last));
          continue;
        }
      }
      BetweenWhole(points, tolerance, keep[..], rest, top);
      WorkLeft(rest, n);
    }
    MarksAreThePath(points, tolerance, keep[..]);
    kept := Marked(points, keep[..], n);
  }
}
