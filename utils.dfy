/** `js/Utils.js`: the Fisher–Yates shuffle and the point-to-segment distance. */
module Utils {
  import opened Vectors

  // ---------------------------------------------------------------------
  // shuffle
  // ---------------------------------------------------------------------

  /** Every value `Math.random()` may return. */
  predicate IsRandom(r: real) {
    0.0 <= r < 1.0
  }

  /** A stream of random draws, all in `[0, 1)`. */
  predicate AllRandom(rands: seq<real>) {
    forall k :: 0 <= k < |rands| ==> IsRandom(rands[k])
  }

  /** `Math.floor(Math.random() * (i + 1))`: the partner slot of slot `i`. */
  function SwapIndex(r: real, i: nat): (j: nat)
    requires IsRandom(r)
    ensures j <= i
  {
    var n := (i + 1) as real;
    assert 0.0 <= r * n < n by {
      assert (1.0 - r) * n > 0.0;
    }
    FloorOf(r * n)
  }

  /** `Math.floor` on a non-negative number. */
  function FloorOf(v: real): (f: nat)
    requires v >= 0.0
    ensures f as real <= v < f as real + 1.0
  {
    v.Floor
  }

  function Swap<T>(s: seq<T>, i: nat, j: nat): (t: seq<T>)
    requires i < |s| && j < |s|
    ensures |t| == |s|
  {
    s[i := s[j]][j := s[i]]
  }

  lemma SwapPermutes<T>(s: seq<T>, i: nat, j: nat)
    requires i < |s| && j < |s|
    ensures multiset(Swap(s, i, j)) == multiset(s)
  {
  }

  /** Swap partners that a run of `shuffle` can draw: slot `k` pairs with a slot `<= k`. */
  predicate ValidDraws(js: seq<nat>) {
    forall k :: 0 <= k < |js| ==> js[k] <= k
  }

  /** The partner drawn for every slot (slot 0's draw is never used). */
  function Draws(rands: seq<real>): (js: seq<nat>)
    requires AllRandom(rands)
    ensures |js| == |rands| && ValidDraws(js)
  {
    seq(|rands|, k requires 0 <= k < |rands| => SwapIndex(rands[k], k))
  }

  /**
   * The shuffle as a function of the drawn partners: the swaps of slots
   * `i`, `i - 1`, ..., `1`, each with its partner.
   */
  function ShuffleWith<T>(s: seq<T>, js: seq<nat>, i: int): seq<T>
    requires |js| == |s| && ValidDraws(js) && i < |s|
    decreases i
  {
    if i <= 0 then s
    else ShuffleWith(Swap(s, i, js[i]), js, i - 1)
  }

  function Shuffled<T>(s: seq<T>, rands: seq<real>): seq<T>
    requires |rands| == |s| && AllRandom(rands)
  {
    ShuffleWith(s, Draws(rands), |s| - 1)
  }

  /** The shuffle only ever swaps, so it returns a permutation of its input. */
  lemma {:induction false} ShuffleWithPermutes<T>(s: seq<T>, js: seq<nat>, i: int)
    requires |js| == |s| && ValidDraws(js) && i < |s|
    ensures |ShuffleWith(s, js, i)| == |s|
    ensures multiset(ShuffleWith(s, js, i)) == multiset(s)
    decreases i
  {
    if i > 0 {
      SwapPermutes(s, i, js[i]);
      ShuffleWithPermutes(Swap(s, i, js[i]), js, i - 1);
    }
  }

  /** Whatever the draws, the shuffled list holds exactly the input's elements. */
  lemma ShuffledPermutes<T>(s: seq<T>, rands: seq<real>)
    requires |rands| == |s| && AllRandom(rands)
    ensures |Shuffled(s, rands)| == |s|
    ensures multiset(Shuffled(s, rands)) == multiset(s)
    ensures forall x :: x in Shuffled(s, rands) <==> x in s
  {
    ShuffleWithPermutes(s, Draws(rands), |s| - 1);
    var r := Shuffled(s, rands);
    forall x ensures x in r <==> x in s {
      assert x in r <==> x in multiset(r);
      assert x in s <==> x in multiset(s);
    }
  }

  /**
   * `shuffle(array)`: copies the input into a fresh array and swaps slot `i`
   * with a random slot `j <= i`, for `i` from the last slot down to 1. The
   * argument is a value, so the caller's list is never changed.
   */
  method Shuffle<T>(input: seq<T>, rands: seq<real>) returns (r: seq<T>)
    requires |rands| == |input| && AllRandom(rands)
    ensures r == Shuffled(input, rands)
    ensures |r| == |input| && multiset(r) == multiset(input)
  {
    var arr := new T[|input|](k requires 0 <= k < |input| => input[k]);
    var js := Draws(rands);
    var i := arr.Length - 1;
    assert arr[..] == input;
    while i > 0
      invariant -1 <= i < arr.Length
      invariant i == -1 ==> arr.Length == 0
      invariant ShuffleWith(arr[..], js, i) == Shuffled(input, rands)
    {
      ghost var before := arr[..];
      SwapSlots(arr, i, js[i]);
      assert ShuffleWith(before, js, i) == ShuffleWith(arr[..], js, i - 1);
      i := i - 1;
    }
    r := arr[..];
    ShuffledPermutes(input, rands);
  }

  /** `[array[i], array[j]] = [array[j], array[i]]`. */
  method SwapSlots<T>(arr: array<T>, i: nat, j: nat)
    requires i < arr.Length && j < arr.Length
    modifies arr
    ensures arr[..] == Swap(old(arr[..]), i, j)
  {
    arr[i], arr[j] := arr[j], arr[i];
  }

  /** No element occurs twice. */
  predicate Distinct<T(==)>(s: seq<T>) {
    forall i, j :: 0 <= i < j < |s| ==> s[i] != s[j]
  }

  /** Two slots holding the same element make it occur at least twice. */
  lemma PairCount<T>(s: seq<T>, i: nat, j: nat)
    requires i < j < |s|
    ensures s[i] == s[j] ==> multiset(s)[s[i]] >= 2
  {
    assert s == s[..j] + s[j..];
    assert multiset(s) == multiset(s[..j]) + multiset(s[j..]);
    assert s[i] == s[..j][i];
    assert s[j] == s[j..][0];
  }

  /** A list in which every element occurs at most once has no repeated slot. */
  lemma CountsDistinct<T>(s: seq<T>)
    requires forall x :: multiset(s)[x] <= 1
    ensures Distinct(s)
  {
    forall i, j | 0 <= i < j < |s| ensures s[i] != s[j] {
      PairCount(s, i, j);
    }
  }

  /**
   * A shuffled list of elements that each occur at most once has no
   * repeated slot either.
   */
  lemma ShuffledDistinct<T>(s: seq<T>, rands: seq<real>)
    requires |rands| == |s| && AllRandom(rands)
    requires forall x :: multiset(s)[x] <= 1
    ensures Distinct(Shuffled(s, rands))
  {
    ShuffledPermutes(s, rands);
    CountsDistinct(Shuffled(s, rands));
  }

  // ---------------------------------------------------------------------
  // pointToSegmentDistance
  // ---------------------------------------------------------------------

  function Clamp01(v: real): real {
    if v < 0.0 then 0.0 else if v > 1.0 then 1.0 else v
  }

  /**
   * The projection parameter `t = max(0, min(1, pointVec·lineVec / |lineVec|²))`
   * of a segment of non-zero length.
   */
  function ProjectionParam(point: Vec3, lineStart: Vec3, lineEnd: Vec3): (t: real)
    requires LengthSq(Sub(lineEnd, lineStart)) != 0.0
    ensures 0.0 <= t <= 1.0
  {
    var lineVec := Sub(lineEnd, lineStart);
    Clamp01(Dot(Sub(point, lineStart), lineVec) / LengthSq(lineVec))
  }

  /**
   * The square of `pointToSegmentDistance(point, lineStart, lineEnd)`: the
   * distance to the start for a zero-length segment, otherwise the distance
   * to the clamped projection of the point onto the segment.
   */
  function PointToSegmentDistSq(point: Vec3, lineStart: Vec3, lineEnd: Vec3): real {
    var lineVec := Sub(lineEnd, lineStart);
    if LengthSq(lineVec) == 0.0 then DistSq(point, lineStart)
    else DistSq(point, Add(lineStart, Scale(lineVec, ProjectionParam(point, lineStart, lineEnd))))
  }

  /** The point lies on the closed segment from `lineStart` to `lineEnd`. */
  ghost predicate OnSegment(point: Vec3, lineStart: Vec3, lineEnd: Vec3) {
    exists u: real :: 0.0 <= u <= 1.0 && point == Add(lineStart, Scale(Sub(lineEnd, lineStart), u))
  }

  /** On a zero-length segment the distance is the distance to its start. */
  lemma ZeroLengthSegment(point: Vec3, lineStart: Vec3)
    ensures PointToSegmentDistSq(point, lineStart, lineStart) == DistSq(point, lineStart)
  {
    assert LengthSq(Sub(lineStart, lineStart)) == 0.0;
  }

  /**
   * On `[0, 1]`, the quadratic `W - 2tD + t²V` with `V > 0` is smallest at
   * `D / V` clamped into the interval, so it is no more than its values at
   * either end of the interval.
   */
  lemma ClampedQuadratic(W: real, D: real, V: real, ts: real)
    requires V > 0.0 && D == ts * V
    ensures Quadratic(W, D, V, Clamp01(ts)) <= Quadratic(W, D, V, 0.0)
    ensures Quadratic(W, D, V, Clamp01(ts)) <= Quadratic(W, D, V, 1.0)
  {
    var t := Clamp01(ts);
    if ts < 0.0 {
      assert D <= 0.0;
    } else if ts > 1.0 {
      assert (ts - 1.0) * V > 0.0;
      assert D > V;
    } else {
      assert t * t * V == t * D;
      assert t * D >= 0.0;
      assert (W - 2.0 * D + V) - (W - 2.0 * t * D + t * t * V) == V * ((1.0 - t) * (1.0 - t));
      assert (1.0 - t) * (1.0 - t) >= 0.0;
    }
  }

  /**
   * The distance to a segment is never more than the distance to either of
   * its end points.
   */
  lemma SegmentDistanceAtMostEndpoints(point: Vec3, lineStart: Vec3, lineEnd: Vec3)
    ensures 0.0 <= PointToSegmentDistSq(point, lineStart, lineEnd) <= DistSq(point, lineStart)
    ensures PointToSegmentDistSq(point, lineStart, lineEnd) <= DistSq(point, lineEnd)
  {
    var v := Sub(lineEnd, lineStart);
    if LengthSq(v) == 0.0 {
      SameEnds(lineStart, lineEnd);
    } else {
      ProperSegmentBound(point, lineStart, lineEnd);
    }
  }

  lemma SameEnds(lineStart: Vec3, lineEnd: Vec3)
    requires LengthSq(Sub(lineEnd, lineStart)) == 0.0
    ensures lineEnd == lineStart
  {
    ZeroLength(Sub(lineEnd, lineStart));
    SubZero(lineEnd, lineStart);
  }

  lemma ProperSegmentBound(point: Vec3, lineStart: Vec3, lineEnd: Vec3)
    requires LengthSq(Sub(lineEnd, lineStart)) != 0.0
    ensures PointToSegmentDistSq(point, lineStart, lineEnd) <= DistSq(point, lineStart)
    ensures PointToSegmentDistSq(point, lineStart, lineEnd) <= DistSq(point, lineEnd)
  {
    var v := Sub(lineEnd, lineStart);
    var w := Sub(point, lineStart);
    var V := LengthSq(v);
    var D := Dot(w, v);
    var W := LengthSq(w);
    var ts := D / V;
    var t := ProjectionParam(point, lineStart, lineEnd);
    assert t == Clamp01(ts);
    assert Sub(point, Add(lineStart, Scale(v, t))) == Sub(w, Scale(v, t));
    ExpandLengthSq(w, v, t);
    assert Sub(point, lineEnd) == Sub(w, Scale(v, 1.0));
    ExpandLengthSq(w, v, 1.0);
    assert Sub(point, lineStart) == Sub(w, Scale(v, 0.0));
    ExpandLengthSq(w, v, 0.0);
    DivideBack(D, V);
    ClampedQuadratic(W, D, V, ts);
  }

  lemma ScaleZero(u: real)
    ensures Scale(Zero, u) == Zero
  {
    assert 0.0 * u == 0.0;
  }

  /** A point of the segment is at distance zero from it. */
  lemma PointOnSegmentHasZeroDistance(point: Vec3, lineStart: Vec3, lineEnd: Vec3, u: real)
    requires 0.0 <= u <= 1.0 && point == Add(lineStart, Scale(Sub(lineEnd, lineStart), u))
    ensures PointToSegmentDistSq(point, lineStart, lineEnd) == 0.0
  {
    var v := Sub(lineEnd, lineStart);
    if LengthSq(v) == 0.0 {
      SameEnds(lineStart, lineEnd);
      ScaleZero(u);
      assert point == Add(lineStart, Zero);
    } else {
      var w := Sub(point, lineStart);
      assert w == Scale(v, u);
      assert Dot(w, v) == u * LengthSq(v);
      DivideBack(u, LengthSq(v));
      assert ProjectionParam(point, lineStart, lineEnd) == u;
    }
  }
}
