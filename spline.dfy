/**
 * `js/Spline.js`: the waypoint planner. From a start ring and an ordered
 * list of target ids it builds the control points handed to the
 * Catmull-Rom curve: a climb to flight height, then for every target a
 * descent midpoint, detours above rings lying on the way, and a straight
 * pass through the ring along its normal followed by a climb back out.
 */
module Spline {
  import opened Vectors
  import opened Wrappers
  import opened Three
  import opened Config
  import opened Globals
  import opened Utils

  // ---------------------------------------------------------------------
  // findNearbyPostsOnPath
  // ---------------------------------------------------------------------

  /** An entry of `nearbyPosts`: a post and its squared distance to the path segment. */
  datatype Nearby = Nearby(post: Post, distSq: real)

  /**
   * `distance < threshold && distance > 0.1`, stated on the squared
   * distance (a distance is never negative, so a non-positive threshold
   * admits nothing).
   */
  predicate IsNear(distSq: real, threshold: real) {
    0.0 < threshold && 0.01 < distSq < threshold * threshold
  }

  /** Squaring keeps the order of non-negative numbers. */
  lemma SquareMonotone(a: real, b: real)
    requires 0.0 <= a && 0.0 <= b
    ensures a < b <==> a * a < b * b
  {
    if a < b {
      ProductPositive(b - a, b + a);
      assert (b - a) * (b + a) == b * b - a * a;
    } else {
      ProductNonNegative(a - b, a + b);
      assert (a - b) * (a + b) == a * a - b * b;
    }
  }

  /** The squared test agrees with the test on the distance itself. */
  lemma IsNearMatchesDistance(d: real, threshold: real)
    requires d >= 0.0
    ensures IsNear(d * d, threshold) <==> (d < threshold && d > 0.1)
  {
    if 0.0 < threshold {
      SquareMonotone(d, threshold);
      SquareMonotone(0.1, d);
    }
  }

  /** The entries the scan over `posts` pushes, in the order of `posts`. */
  function Candidates(posts: seq<Post>, s: Vec3, e: Vec3, threshold: real): seq<Nearby> {
    if posts == [] then []
    else
      var rest := Candidates(posts[..|posts| - 1], s, e, threshold);
      var p := posts[|posts| - 1];
      var d := PointToSegmentDistSq(p.center, s, e);
      if IsNear(d, threshold) then rest + [Nearby(p, d)] else rest
  }

  /** An entry is pushed exactly when its post is near the segment. */
  lemma {:induction false} CandidatesMembers(posts: seq<Post>, s: Vec3, e: Vec3, threshold: real)
    ensures |Candidates(posts, s, e, threshold)| <= |posts|
    ensures forall n :: n in Candidates(posts, s, e, threshold) <==>
      n.post in posts && n.distSq == PointToSegmentDistSq(n.post.center, s, e) && IsNear(n.distSq, threshold)
  {
    if posts != [] {
      var init := posts[..|posts| - 1];
      CandidatesMembers(init, s, e, threshold);
      assert posts == init + [posts[|posts| - 1]];
    }
  }

  predicate SortedByDistance(s: seq<Nearby>) {
    forall i, j :: 0 <= i < j < |s| ==> s[i].distSq <= s[j].distSq
  }

  /** Puts `n` after every entry that is not farther away than it. */
  function Insert(s: seq<Nearby>, n: Nearby): seq<Nearby> {
    if s == [] then [n]
    else if s[|s| - 1].distSq <= n.distSq then s + [n]
    else Insert(s[..|s| - 1], n) + [s[|s| - 1]]
  }

  /**
   * `nearbyPosts.sort((a, b) => a.distance - b.distance)`: ascending
   * distance (the square root keeps the order), ties in scan order as a
   * stable sort leaves them.
   */
  function SortByDistance(s: seq<Nearby>): seq<Nearby> {
    if s == [] then [] else Insert(SortByDistance(s[..|s| - 1]), s[|s| - 1])
  }

  /** No entry of `s` is farther away than `bound`. */
  predicate AllWithin(s: seq<Nearby>, bound: real) {
    forall k :: 0 <= k < |s| ==> s[k].distSq <= bound
  }

  lemma AppendSorted(r: seq<Nearby>, last: Nearby)
    requires SortedByDistance(r) && AllWithin(r, last.distSq)
    ensures SortedByDistance(r + [last])
  {
    var t := r + [last];
    forall i, j | 0 <= i < j < |t| ensures t[i].distSq <= t[j].distSq {
      assert t[i] == r[i];
    }
  }

  lemma WithinByMultiset(r: seq<Nearby>, s: seq<Nearby>, n: Nearby, bound: real)
    requires multiset(r) == multiset(s) + multiset{n}
    requires AllWithin(s, bound) && n.distSq <= bound
    ensures AllWithin(r, bound)
  {
    forall k | 0 <= k < |r| ensures r[k].distSq <= bound {
      assert r[k] in multiset(r);
      if r[k] != n {
        assert r[k] in multiset(s);
        var m :| 0 <= m < |s| && s[m] == r[k];
      }
    }
  }

  lemma {:induction false} InsertSorted(s: seq<Nearby>, n: Nearby)
    requires SortedByDistance(s)
    ensures SortedByDistance(Insert(s, n))
    ensures multiset(Insert(s, n)) == multiset(s) + multiset{n}
    ensures |Insert(s, n)| == |s| + 1
  {
    if s == [] {
    } else if s[|s| - 1].distSq <= n.distSq {
      AppendSorted(s, n);
    } else {
      var init := s[..|s| - 1];
      var last := s[|s| - 1];
      assert s == init + [last];
      assert AllWithin(init, last.distSq);
      InsertSorted(init, n);
      WithinByMultiset(Insert(init, n), init, n, last.distSq);
      AppendSorted(Insert(init, n), last);
    }
  }

  /** The sort returns the same entries, in ascending distance. */
  lemma {:induction false} SortByDistanceSorts(s: seq<Nearby>)
    ensures SortedByDistance(SortByDistance(s))
    ensures multiset(SortByDistance(s)) == multiset(s)
    ensures |SortByDistance(s)| == |s|
  {
    if s != [] {
      var init := s[..|s| - 1];
      SortByDistanceSorts(init);
      InsertSorted(SortByDistance(init), s[|s| - 1]);
      assert s == init + [s[|s| - 1]];
    }
  }

  /**
   * `findNearbyPostsOnPath(startPoint, endPoint, threshold)` over the
   * given `postsData`: the posts whose distance to the segment lies
   * strictly between 0.1 and the threshold, nearest first.
   */
  method FindNearbyPostsOnPath(posts: seq<Post>, startPoint: Vec3, endPoint: Vec3, threshold: real)
    returns (nearby: seq<Nearby>)
    ensures nearby == SortByDistance(Candidates(posts, startPoint, endPoint, threshold))
    ensures SortedByDistance(nearby) && |nearby| <= |posts|
    ensures forall n :: n in nearby <==>
      n.post in posts && n.distSq == PointToSegmentDistSq(n.post.center, startPoint, endPoint)
      && IsNear(n.distSq, threshold)
  {
    var found: seq<Nearby> := [];
    for i := 0 to |posts|
      invariant found == Candidates(posts[..i], startPoint, endPoint, threshold)
    {
      var post := posts[i];
      var distance := PointToSegmentDistSq(post.center, startPoint, endPoint);
      if IsNear(distance, threshold) {
        found := found + [Nearby(post, distance)];
      }
      assert posts[..i + 1][..i] == posts[..i];
    }
    assert posts[..|posts|] == posts;
    nearby := SortByDistance(found);
    SortByDistanceSorts(found);
    CandidatesMembers(posts, startPoint, endPoint, threshold);
    forall n ensures n in nearby <==> n in found {
      assert n in nearby <==> n in multiset(nearby);
      assert n in found <==> n in multiset(found);
    }
  }

  // ---------------------------------------------------------------------
  // The waypoints of one target
  // ---------------------------------------------------------------------

  function Max(a: real, b: real): real {
    if a >= b then a else b
  }

  /** `postsData[id]` exists. */
  predicate Resolves(posts: seq<Post>, id: int) {
    0 <= id < |posts|
  }

  /** The detour point above a ring on the way: raised by `max(2, center.y + 2)`. */
  function AvoidancePoint(p: Post): (a: Vec3)
    ensures a.x == p.center.x && a.z == p.center.z
    ensures a.y >= p.center.y + 2.0 && a.y >= 2.0 * p.center.y + 2.0
  {
    WithY(p.center, p.center.y + Max(2.0, p.center.y + 2.0))
  }

  /** Detours for the nearby entries that are neither the current target nor the start ring. */
  function Avoidances(nearby: seq<Nearby>, id: int, startId: int): seq<Vec3> {
    if nearby == [] then []
    else
      var rest := Avoidances(nearby[..|nearby| - 1], id, startId);
      var n := nearby[|nearby| - 1];
      if n.post.id != id && n.post.id != startId then rest + [AvoidancePoint(n.post)] else rest
  }

  /**
   * Every detour comes from a nearby ring other than the target and the
   * start ring, and every such ring gets one.
   */
  lemma {:induction false} AvoidancesSpec(nearby: seq<Nearby>, id: int, startId: int)
    ensures |Avoidances(nearby, id, startId)| <= |nearby|
    ensures forall a :: a in Avoidances(nearby, id, startId) ==>
      exists n :: n in nearby && n.post.id != id && n.post.id != startId && a == AvoidancePoint(n.post)
    ensures forall n :: n in nearby && n.post.id != id && n.post.id != startId ==>
      AvoidancePoint(n.post) in Avoidances(nearby, id, startId)
  {
    if nearby != [] {
      var init := nearby[..|nearby| - 1];
      AvoidancesSpec(init, id, startId);
      assert nearby == init + [nearby[|nearby| - 1]];
    }
  }

  /** `v` projected on the horizontal plane (`approachVector.y = 0`). */
  function Horizontal(v: Vec3): Vec3 {
    WithY(v, 0.0)
  }

  /**
   * The ring's normal, negated when the horizontal approach runs against
   * it. The source normalises the approach first; a positive length does
   * not change the sign of the dot product and a zero vector stays zero.
   */
  function PassDirection(normal: Vec3, approach: Vec3): Vec3 {
    if Dot(Horizontal(approach), normal) < 0.0 then Neg(normal) else normal
  }

  /** The pass direction is the normal up to sign, and never points back along the approach. */
  lemma PassDirectionFacesApproach(normal: Vec3, approach: Vec3)
    ensures PassDirection(normal, approach) == normal || PassDirection(normal, approach) == Neg(normal)
    ensures Dot(Horizontal(approach), PassDirection(normal, approach)) >= 0.0
    ensures Dot(Horizontal(approach), normal) >= 0.0 ==> PassDirection(normal, approach) == normal
  {
    DotNeg(Horizontal(approach), normal);
  }

  /** The point `offset` along `dir` from `c`, kept at the ring's height. */
  function Along(c: Vec3, dir: Vec3, offset: real): (p: Vec3)
    ensures p.y == c.y
  {
    WithY(Add(c, Scale(dir, offset)), c.y)
  }

  /** `c + k·dir - c` seen from the horizontal vector `h` is `k` times `h·dir`. */
  lemma AlongOffset(c: Vec3, dir: Vec3, h: Vec3, k: real)
    requires h.y == 0.0
    ensures Dot(h, Sub(Along(c, dir, k), c)) == k * Dot(h, dir)
  {
    var off := Sub(Along(c, dir, k), c);
    assert off == Vec3(dir.x * k, 0.0, dir.z * k);
    assert h.x * (dir.x * k) == k * (h.x * dir.x);
    assert h.z * (dir.z * k) == k * (h.z * dir.z);
  }

  /**
   * The four points pushed after the detours of a target centered at `c`,
   * reached from `last`: before, center, after and the climb.
   */
  function PassPoints(c: Vec3, normal: Vec3, last: Vec3, pre: real, height: real): (pts: seq<Vec3>)
    ensures |pts| == 4
  {
    var dir := PassDirection(normal, Sub(c, last));
    var after := Along(c, dir, pre);
    [Along(c, dir, -pre), c, after, WithY(after, height)]
  }

  /**
   * The pass goes straight through the ring: the before and after points
   * sit at ring height, symmetric about the center; for a non-negative
   * `preRingDistance` the after point lies ahead along the horizontal
   * approach and the before point behind it; the climb is straight above
   * the after point at flight height.
   */
  lemma PassGeometry(c: Vec3, normal: Vec3, last: Vec3, pre: real, height: real)
    ensures var p := PassPoints(c, normal, last, pre, height);
      && p[1] == c
      && p[0].y == c.y && p[2].y == c.y
      && Midpoint(p[0], p[2]) == c
      && (pre >= 0.0 ==>
            Dot(Horizontal(Sub(c, last)), Sub(p[2], c)) >= 0.0
            && Dot(Horizontal(Sub(c, last)), Sub(p[0], c)) <= 0.0)
      && p[3] == WithY(p[2], height) && p[3].y == height
  {
    var h := Horizontal(Sub(c, last));
    var dir := PassDirection(normal, Sub(c, last));
    PassDirectionFacesApproach(normal, Sub(c, last));
    AlongOffset(c, dir, h, pre);
    AlongOffset(c, dir, h, -pre);
    assert dir.x * -pre == -(dir.x * pre);
    assert dir.z * -pre == -(dir.z * pre);
    if pre >= 0.0 {
      ProductNonNegative(pre, Dot(h, dir));
    }
  }

  /** The detours of a resolved target, reached from `last`. */
  function Detours(posts: seq<Post>, startId: int, last: Vec3, id: int): seq<Vec3>
    requires Resolves(posts, id)
  {
    Avoidances(SortByDistance(Candidates(posts, last, posts[id].center, 4.0)), id, startId)
  }

  /**
   * There is at most one detour per post, and each rises above a ring,
   * other than the target and the start ring, that lies near the leg
   * from `last` to the target.
   */
  lemma DetoursSpec(posts: seq<Post>, startId: int, last: Vec3, id: int)
    requires Resolves(posts, id)
    ensures |Detours(posts, startId, last, id)| <= |posts|
    ensures forall a :: a in Detours(posts, startId, last, id) ==>
      exists p :: (p in posts && p.id != id && p.id != startId
        && IsNear(PointToSegmentDistSq(p.center, last, posts[id].center), 4.0)
        && a == AvoidancePoint(p))
  {
    var cands := Candidates(posts, last, posts[id].center, 4.0);
    var nearby := SortByDistance(cands);
    CandidatesMembers(posts, last, posts[id].center, 4.0);
    SortByDistanceSorts(cands);
    AvoidancesSpec(nearby, id, startId);
    forall a | a in Detours(posts, startId, last, id)
      ensures exists p :: (p in posts && p.id != id && p.id != startId
        && IsNear(PointToSegmentDistSq(p.center, last, posts[id].center), 4.0)
        && a == AvoidancePoint(p))
    {
      var n :| n in nearby && n.post.id != id && n.post.id != startId && a == AvoidancePoint(n.post);
      assert n in multiset(nearby);
      assert n in cands;
    }
  }

  /**
   * The points one iteration of the loop over `targetIds` pushes after
   * `last`: nothing for an id with no post, otherwise the midpoint, the
   * detours, then the pass points.
   */
  function Block(posts: seq<Post>, startId: int, cfg: Config, last: Vec3, id: int): seq<Vec3> {
    if !Resolves(posts, id) then []
    else
      var c := posts[id].center;
      [Midpoint(last, c)] + Detours(posts, startId, last, id)
      + PassPoints(c, posts[id].normal, last, cfg.preRingDistance, cfg.height)
  }

  /**
   * A resolved target's block has `5 + k` points for its `k` detours, the
   * midpoint towards the ring first, and its center third from the end.
   */
  lemma BlockShape(posts: seq<Post>, startId: int, cfg: Config, last: Vec3, id: int)
    requires Resolves(posts, id)
    ensures var b := Block(posts, startId, cfg, last, id);
      && |b| == 5 + |Detours(posts, startId, last, id)| <= 5 + |posts|
      && b[0] == Midpoint(last, posts[id].center)
      && b[|b| - 3] == posts[id].center
  {
    DetoursSpec(posts, startId, last, id);
    PassGeometry(posts[id].center, posts[id].normal, last, cfg.preRingDistance, cfg.height);
  }

  /** The length part of `BlockShape`: five points plus at most one detour per post. */
  lemma BlockSize(posts: seq<Post>, startId: int, cfg: Config, last: Vec3, id: int)
    requires Resolves(posts, id)
    ensures 5 <= |Block(posts, startId, cfg, last, id)| <= 5 + |posts|
  {
    BlockShape(posts, startId, cfg, last, id);
  }

  // ---------------------------------------------------------------------
  // createSimpleSplinePath
  // ---------------------------------------------------------------------

  /** The first waypoint: the start ring's center lifted to flight height. */
  function StartPoint(posts: seq<Post>, startId: int, cfg: Config): Vec3
    requires Resolves(posts, startId)
  {
    WithY(posts[startId].center, cfg.height)
  }

  /**
   * The points after the first `n` turns of a loop over `ids` that starts
   * from `start` and, each turn, appends `step(last, id)` for the last
   * point so far and the turn's id.
   */
  function Fold(start: Vec3, ids: seq<int>, n: nat, step: (Vec3, int) -> seq<Vec3>): (pts: seq<Vec3>)
    requires n <= |ids|
    ensures |pts| >= 1 && pts[0] == start
  {
    if n == 0 then [start]
    else
      var prev := Fold(start, ids, n - 1, step);
      prev + step(prev[|prev| - 1], ids[n - 1])
  }

  /** A turn for an id naming a post appends five to `5 + |posts|` points; a turn for any other id appends nothing. */
  ghost predicate Sized(step: (Vec3, int) -> seq<Vec3>, posts: seq<Post>) {
    forall last: Vec3, id: int ::
      (Resolves(posts, id) ==> 5 <= |step(last, id)| <= 5 + |posts|)
      && (!Resolves(posts, id) ==> step(last, id) == [])
  }

  /** A turn for an id naming a post puts that post's center third from the end of what it appends. */
  ghost predicate CenteredThird(step: (Vec3, int) -> seq<Vec3>, posts: seq<Post>) {
    forall last: Vec3, id: int :: Resolves(posts, id) ==>
      |step(last, id)| >= 3 && step(last, id)[|step(last, id)| - 3] == posts[id].center
  }

  /** How many of the first `n` ids name a post. */
  function ResolvedCount(posts: seq<Post>, ids: seq<int>, n: nat): (r: nat)
    requires n <= |ids|
    ensures r <= n
  {
    if n == 0 then 0
    else ResolvedCount(posts, ids, n - 1) + (if Resolves(posts, ids[n - 1]) then 1 else 0)
  }

  /** With sized turns, the point count is one plus five to `5 + |posts|` per id that names a post. */
  lemma {:induction false} FoldCount(start: Vec3, ids: seq<int>, n: nat, step: (Vec3, int) -> seq<Vec3>, posts: seq<Post>)
    requires n <= |ids| && Sized(step, posts)
    ensures 1 + 5 * ResolvedCount(posts, ids, n) <= |Fold(start, ids, n, step)|
    ensures |Fold(start, ids, n, step)| <= 1 + (5 + |posts|) * ResolvedCount(posts, ids, n)
  {
    if n > 0 {
      var prev := Fold(start, ids, n - 1, step);
      var b := step(prev[|prev| - 1], ids[n - 1]);
      FoldCount(start, ids, n - 1, step, posts);
      assert |Fold(start, ids, n, step)| == |prev| + |b|;
      if Resolves(posts, ids[n - 1]) {
        CountStep(|prev| + |b|, |prev|, 5 + |posts|, ResolvedCount(posts, ids, n - 1), ResolvedCount(posts, ids, n));
      }
    }
  }

  /** One more block of `5..per` points keeps the count within the bounds for one more target. */
  lemma CountStep(len: int, prevLen: int, per: int, r: nat, r2: nat)
    requires 1 + 5 * r <= prevLen <= 1 + per * r
    requires prevLen + 5 <= len <= prevLen + per && r2 == r + 1
    ensures 1 + 5 * r2 <= len <= 1 + per * r2
  {
    assert per * (r + 1) == per * r + per;
  }

  lemma {:induction false} NoneResolved(posts: seq<Post>, ids: seq<int>, n: nat)
    requires n <= |ids|
    ensures ResolvedCount(posts, ids, n) == 0 <==> forall k :: 0 <= k < n ==> !Resolves(posts, ids[k])
  {
    if n > 0 {
      NoneResolved(posts, ids, n - 1);
    }
  }

  /** The first `m` turns build a prefix of what the first `n` build. */
  lemma {:induction false} FoldPrefix(start: Vec3, ids: seq<int>, m: nat, n: nat, step: (Vec3, int) -> seq<Vec3>)
    requires m <= n <= |ids|
    ensures Fold(start, ids, m, step) <= Fold(start, ids, n, step)
    decreases n
  {
    if m < n {
      FoldPrefix(start, ids, m, n - 1, step);
    }
  }

  /** Under sized turns, a later turn for an id naming a post ends with its own last three points past an earlier turn's. */
  lemma FoldOrder(start: Vec3, ids: seq<int>, j: nat, j2: nat, step: (Vec3, int) -> seq<Vec3>, posts: seq<Post>)
    requires j < j2 < |ids| && Sized(step, posts) && Resolves(posts, ids[j2])
    ensures |Fold(start, ids, j + 1, step)| < |Fold(start, ids, j2 + 1, step)|
  {
    FoldPrefix(start, ids, j + 1, j2, step);
    FoldGrows(start, ids, j2, step, posts);
  }

  /** A sized turn for an id naming a post adds at least five points. */
  lemma FoldGrows(start: Vec3, ids: seq<int>, i: nat, step: (Vec3, int) -> seq<Vec3>, posts: seq<Post>)
    requires i < |ids| && Sized(step, posts) && Resolves(posts, ids[i])
    ensures |Fold(start, ids, i, step)| + 5 <= |Fold(start, ids, i + 1, step)|
  {
    var prev := Fold(start, ids, i, step);
    var b := step(prev[|prev| - 1], ids[i]);
    assert |Fold(start, ids, i + 1, step)| == |prev| + |b|;
  }

  /** The turn for `ids[j]`, naming a post, leaves that post's center third from the end, and it stays there. */
  lemma FoldCenter(start: Vec3, ids: seq<int>, j: nat, n: nat, step: (Vec3, int) -> seq<Vec3>, posts: seq<Post>)
    requires j < n <= |ids| && CenteredThird(step, posts) && Resolves(posts, ids[j])
    ensures 0 < |Fold(start, ids, j + 1, step)| - 3 < |Fold(start, ids, n, step)|
    ensures Fold(start, ids, n, step)[|Fold(start, ids, j + 1, step)| - 3] == posts[ids[j]].center
  {
    var prev := Fold(start, ids, j, step);
    var b := step(prev[|prev| - 1], ids[j]);
    assert Fold(start, ids, j + 1, step) == prev + b;
    assert (prev + b)[|prev| + |b| - 3] == b[|b| - 3];
    FoldPrefix(start, ids, j + 1, n, step);
  }

  /** What the first `n` turns append, added up, each turn's share given by `size` at the last point before it. */
  ghost function Appended(start: Vec3, ids: seq<int>, n: nat, step: (Vec3, int) -> seq<Vec3>, size: (Vec3, int) -> nat): nat
    requires n <= |ids|
  {
    if n == 0 then 0
    else
      var prev := Fold(start, ids, n - 1, step);
      Appended(start, ids, n - 1, step, size) + size(prev[|prev| - 1], ids[n - 1])
  }

  /** When `size` measures every step, the fold holds its start point plus everything `size` adds up. */
  lemma {:induction false} FoldLength(start: Vec3, ids: seq<int>, n: nat, step: (Vec3, int) -> seq<Vec3>, size: (Vec3, int) -> nat)
    requires n <= |ids|
    requires forall last: Vec3, id: int :: |step(last, id)| == size(last, id)
    ensures |Fold(start, ids, n, step)| == 1 + Appended(start, ids, n, step, size)
  {
    if n > 0 {
      FoldLength(start, ids, n - 1, step, size);
    }
  }

  /** One turn of `createSimpleSplinePath`'s loop: the block of the id, reached from the last point. */
  function PlannerStep(posts: seq<Post>, startId: int, cfg: Config): (Vec3, int) -> seq<Vec3> {
    (last: Vec3, id: int) => Block(posts, startId, cfg, last, id)
  }

  /** The planner's turns are sized and put the target's center third from the end. */
  lemma PlannerStepShape(posts: seq<Post>, startId: int, cfg: Config)
    ensures Sized(PlannerStep(posts, startId, cfg), posts)
    ensures CenteredThird(PlannerStep(posts, startId, cfg), posts)
  {
    var step := PlannerStep(posts, startId, cfg);
    forall last: Vec3, id: int
      ensures Resolves(posts, id) ==> 5 <= |step(last, id)| <= 5 + |posts|
      ensures Resolves(posts, id) ==> step(last, id)[|step(last, id)| - 3] == posts[id].center
      ensures !Resolves(posts, id) ==> step(last, id) == []
    {
      if Resolves(posts, id) {
        BlockShape(posts, startId, cfg, last, id);
      }
    }
  }

  /** The waypoints after the first `n` turns of the loop over `ids`. */
  function Waypoints(posts: seq<Post>, startId: int, cfg: Config, ids: seq<int>, n: nat): (pts: seq<Vec3>)
    requires Resolves(posts, startId) && n <= |ids|
  {
    Fold(StartPoint(posts, startId, cfg), ids, n, PlannerStep(posts, startId, cfg))
  }

  /**
   * The waypoint count: one start point plus `5 + k` per resolved target,
   * with `k` detours, exactly as `Turns` adds them up, and at most one
   * detour per post; ids that name no post add nothing, so only the start
   * point is left exactly when none resolves.
   */
  lemma WaypointCount(posts: seq<Post>, startId: int, cfg: Config, ids: seq<int>)
    requires Resolves(posts, startId)
    ensures var pts := Waypoints(posts, startId, cfg, ids, |ids|);
      && 1 + 5 * ResolvedCount(posts, ids, |ids|) <= |pts| <= 1 + (5 + |posts|) * ResolvedCount(posts, ids, |ids|)
      && pts[0] == StartPoint(posts, startId, cfg)
    ensures |Waypoints(posts, startId, cfg, ids, |ids|)| == 1 + Turns(posts, startId, cfg, ids, |ids|)
    ensures ResolvedCount(posts, ids, |ids|) == 0 <==> forall k :: 0 <= k < |ids| ==> !Resolves(posts, ids[k])
  {
    WaypointsExact(posts, startId, cfg, ids, |ids|);
    PlannerStepShape(posts, startId, cfg);
    FoldCount(StartPoint(posts, startId, cfg), ids, |ids|, PlannerStep(posts, startId, cfg), posts);
    NoneResolved(posts, ids, |ids|);
  }

  /**
   * What a turn for `id` appends after `last`: five points plus one per
   * detour when `id` names a post, nothing otherwise.
   */
  function TurnSize(posts: seq<Post>, startId: int, last: Vec3, id: int): nat {
    if Resolves(posts, id) then 5 + |Detours(posts, startId, last, id)| else 0
  }

  /** Each turn of the loop lengthens the waypoints by its `TurnSize`, measured from the last point so far. */
  lemma WaypointsStep(posts: seq<Post>, startId: int, cfg: Config, ids: seq<int>, n: nat)
    requires Resolves(posts, startId) && n < |ids|
    ensures var prev := Waypoints(posts, startId, cfg, ids, n);
      |Waypoints(posts, startId, cfg, ids, n + 1)| == |prev| + TurnSize(posts, startId, prev[|prev| - 1], ids[n])
  {
    var prev := Waypoints(posts, startId, cfg, ids, n);
    if Resolves(posts, ids[n]) {
      BlockShape(posts, startId, cfg, prev[|prev| - 1], ids[n]);
    }
  }

  /** The sizes of the first `n` turns added up, each measured from the waypoints before it. */
  ghost function Turns(posts: seq<Post>, startId: int, cfg: Config, ids: seq<int>, n: nat): nat
    requires Resolves(posts, startId) && n <= |ids|
  {
    Appended(StartPoint(posts, startId, cfg), ids, n, PlannerStep(posts, startId, cfg),
      (last: Vec3, id: int) => TurnSize(posts, startId, last, id))
  }

  /** The exact waypoint count: the start point plus `5 + kᵢ` for each resolved target `i` with `kᵢ` detours. */
  lemma WaypointsExact(posts: seq<Post>, startId: int, cfg: Config, ids: seq<int>, n: nat)
    requires Resolves(posts, startId) && n <= |ids|
    ensures |Waypoints(posts, startId, cfg, ids, n)| == 1 + Turns(posts, startId, cfg, ids, n)
  {
    var size := (last: Vec3, id: int) => TurnSize(posts, startId, last, id);
    forall last: Vec3, id: int
      ensures |PlannerStep(posts, startId, cfg)(last, id)| == size(last, id)
    {
      if Resolves(posts, id) {
        BlockShape(posts, startId, cfg, last, id);
      }
    }
    FoldLength(StartPoint(posts, startId, cfg), ids, n, PlannerStep(posts, startId, cfg), size);
  }

  /** Where target `j`'s center lands among the waypoints. */
  function CenterIndex(posts: seq<Post>, startId: int, cfg: Config, ids: seq<int>, j: nat): int
    requires Resolves(posts, startId) && j < |ids|
  {
    |Waypoints(posts, startId, cfg, ids, j + 1)| - 3
  }

  /** Resolved targets' centers come in the order of `ids`. */
  lemma CentersInOrder(posts: seq<Post>, startId: int, cfg: Config, ids: seq<int>, j: nat, j2: nat)
    requires Resolves(posts, startId)
    requires j < j2 < |ids| && Resolves(posts, ids[j2])
    ensures CenterIndex(posts, startId, cfg, ids, j) < CenterIndex(posts, startId, cfg, ids, j2)
  {
    PlannerStepShape(posts, startId, cfg);
    FoldOrder(StartPoint(posts, startId, cfg), ids, j, j2, PlannerStep(posts, startId, cfg), posts);
  }

  /** Every resolved target's center appears verbatim among the waypoints, at its `CenterIndex`. */
  lemma CenterLands(posts: seq<Post>, startId: int, cfg: Config, ids: seq<int>, j: nat)
    requires Resolves(posts, startId) && j < |ids| && Resolves(posts, ids[j])
    ensures 0 < CenterIndex(posts, startId, cfg, ids, j) < |Waypoints(posts, startId, cfg, ids, |ids|)|
    ensures Waypoints(posts, startId, cfg, ids, |ids|)[CenterIndex(posts, startId, cfg, ids, j)] == posts[ids[j]].center
  {
    PlannerStepShape(posts, startId, cfg);
    FoldCenter(StartPoint(posts, startId, cfg), ids, j, |ids|, PlannerStep(posts, startId, cfg), posts);
  }

  /** What `createSimpleSplinePath` returns, `None` standing for `null`. */
  function Plan(posts: seq<Post>, startId: int, targetIds: seq<int>, cfg: Config): Option<Curve> {
    if !Resolves(posts, startId) then None
    else
      var pts := Waypoints(posts, startId, cfg, targetIds, |targetIds|);
      if |pts| < 2 then None else Some(Curve(pts, cfg.curveType, cfg.splineTension))
  }

  /**
   * There is no curve exactly when the start ring is missing or no target
   * id names a post; otherwise its control points start at the lifted
   * start ring and it carries the configured type and tension.
   */
  lemma PlanResult(posts: seq<Post>, startId: int, targetIds: seq<int>, cfg: Config)
    ensures Plan(posts, startId, targetIds, cfg) == None <==>
      !Resolves(posts, startId) || forall k :: 0 <= k < |targetIds| ==> !Resolves(posts, targetIds[k])
    ensures Plan(posts, startId, targetIds, cfg).Some? ==>
      var c := Plan(posts, startId, targetIds, cfg).value;
      |c.points| >= 6 && c.points[0] == WithY(posts[startId].center, cfg.height)
      && c.curveType == cfg.curveType && c.tension == cfg.splineTension
  {
    if Resolves(posts, startId) {
      WaypointCount(posts, startId, cfg, targetIds);
    }
  }

  /** The loop over `nearbyPosts`: one detour per entry that is neither the target nor the start ring. */
  method CollectAvoidances(nearbyPosts: seq<Nearby>, id: int, startId: int)
    returns (result: seq<Vec3>)
    ensures result == Avoidances(nearbyPosts, id, startId)
  {
    result := [];
    for k := 0 to |nearbyPosts|
      invariant result == Avoidances(nearbyPosts[..k], id, startId)
    {
      var nearby := nearbyPosts[k];
      assert nearbyPosts[..k + 1][..k] == nearbyPosts[..k];
      if nearby.post.id != id && nearby.post.id != startId {
        result := result + [AvoidancePoint(nearby.post)];
      }
    }
    assert nearbyPosts[..|nearbyPosts|] == nearbyPosts;
  }

  /**
   * The four pass points: before, through and after the ring along its
   * normal, flipped to face the approach from `lastPoint`, then the climb
   * to flight height.
   */
  method PassThrough(post: Post, lastPoint: Vec3, cfg: Config) returns (pass: seq<Vec3>)
    ensures pass == PassPoints(post.center, post.normal, lastPoint, cfg.preRingDistance, cfg.height)
  {
    var direction := post.normal;
    if Dot(Horizontal(Sub(post.center, lastPoint)), direction) < 0.0 {
      direction := Neg(direction);
    }
    var beforePoint := Along(post.center, direction, -cfg.preRingDistance);
    var afterPoint := Along(post.center, direction, cfg.preRingDistance);
    pass := [beforePoint, post.center, afterPoint, WithY(afterPoint, cfg.height)];
  }

  /** The body of the loop over `targetIds` for an id that names a post. */
  method AppendBlock(posts: seq<Post>, startId: int, cfg: Config, points: seq<Vec3>, id: int)
    returns (result: seq<Vec3>)
    requires Resolves(posts, id) && |points| >= 1
    ensures result == points + Block(posts, startId, cfg, points[|points| - 1], id)
  {
    var post := posts[id];
    var lastPoint := points[|points| - 1];
    var nearbyPosts := FindNearbyPostsOnPath(posts, lastPoint, post.center, 4.0);
    var detours := CollectAvoidances(nearbyPosts, id, startId);
    assert detours == Detours(posts, startId, lastPoint, id);
    var pass := PassThrough(post, lastPoint, cfg);
    assert [Midpoint(lastPoint, post.center)] + detours + pass == Block(posts, startId, cfg, lastPoint, id);
    result := points + ([Midpoint(lastPoint, post.center)] + detours + pass);
  }

  /**
   * `createSimpleSplinePath(startId, targetIds)` over the given
   * `postsData` and `CONFIG`.
   */
  method CreateSimpleSplinePath(posts: seq<Post>, startId: int, targetIds: seq<int>, cfg: Config)
    returns (curve: Option<Curve>)
    ensures curve == Plan(posts, startId, targetIds, cfg)
  {
    if !Resolves(posts, startId) {
      return None;
    }
    var points := [WithY(posts[startId].center, cfg.height)];
    for i := 0 to |targetIds|
      invariant points == Waypoints(posts, startId, cfg, targetIds, i)
    {
      var id := targetIds[i];
      if !Resolves(posts, id) {
        continue;
      }
      points := AppendBlock(posts, startId, cfg, points, id);
    }
    if |points| < 2 {
      return None;
    }
    curve := Some(Curve(points, cfg.curveType, cfg.splineTension));
  }
}
