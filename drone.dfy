/**
 * `js/entities/DroneBall.js`: a bird-shaped drone that flies endless
 * random rounds through all the rings, leaving a trail ribbon behind it.
 * `Math.random()` draws are parameters; the mesh, its orientation and the
 * scene graph are rendering and are left out.
 */
module Drone {
  import opened Vectors
  import opened Wrappers
  import opened Three
  import opened Config
  import opened Globals
  import opened Utils
  import opened Spline
  import opened Trail

  // ---------------------------------------------------------------------
  // The route of a round
  // ---------------------------------------------------------------------

  /** `postsData.map(p => p.id)`. */
  function PostIds(posts: seq<Post>): (ids: seq<int>)
    ensures |ids| == |posts| && forall k :: 0 <= k < |posts| ==> ids[k] == posts[k].id
  {
    seq(|posts|, k requires 0 <= k < |posts| => posts[k].id)
  }

  /** `ids.filter(id => id !== x)`. */
  function Without(ids: seq<int>, x: int): seq<int> {
    if |ids| == 0 then []
    else if ids[0] == x then Without(ids[1..], x)
    else [ids[0]] + Without(ids[1..], x)
  }

  /** The filter drops every copy of `x` and keeps every other id as often as it occurs. */
  lemma {:induction false} WithoutSpec(ids: seq<int>, x: int)
    ensures multiset(Without(ids, x)) == multiset(ids)[x := 0]
    ensures x !in Without(ids, x)
    ensures forall y :: y in Without(ids, x) <==> y in ids && y != x
    ensures |Without(ids, x)| == |ids| - multiset(ids)[x]
  {
    if |ids| > 0 {
      WithoutSpec(ids[1..], x);
      assert ids == [ids[0]] + ids[1..];
      assert multiset(ids) == multiset{ids[0]} + multiset(ids[1..]);
    }
    var w := Without(ids, x);
    assert |multiset(w)| == |multiset(ids)| - multiset(ids)[x];
    forall y ensures y in w <==> y in ids && y != x {
      assert y in w <==> y in multiset(w);
      assert y in ids <==> y in multiset(ids);
    }
  }

  /** `available` of `planNewRoute`: every post id except the start's. */
  function Available(posts: seq<Post>, startId: int): seq<int> {
    Without(PostIds(posts), startId)
  }

  /** `routeIds`: the available ids in shuffled order. */
  function Route(posts: seq<Post>, startId: int, rands: seq<real>): seq<int>
    requires |rands| == |Available(posts, startId)| && AllRandom(rands)
  {
    Shuffled(Available(posts, startId), rands)
  }

  /** Over numbered posts, each post other than the start ring once. */
  lemma {:induction false} AvailableSpec(posts: seq<Post>, startId: int)
    requires Indexed(posts)
    ensures forall y :: multiset(Available(posts, startId))[y] == if Resolves(posts, y) && y != startId then 1 else 0
    ensures forall y :: y in Available(posts, startId) <==> Resolves(posts, y) && y != startId
    ensures |Available(posts, startId)| == if Resolves(posts, startId) then |posts| - 1 else |posts|
  {
    var ids := PostIds(posts);
    WithoutSpec(ids, startId);
    assert ids == seq(|posts|, k requires 0 <= k < |posts| => k);
    forall y ensures multiset(ids)[y] == if Resolves(posts, y) then 1 else 0 {
      CountIdentity(|posts|, y);
    }
  }

  /** In `[0, 1, ..., n - 1]` every number in range occurs once and no other does. */
  lemma {:induction false} CountIdentity(n: nat, x: int)
    ensures multiset(seq(n, k requires 0 <= k < n => k))[x] == if 0 <= x < n then 1 else 0
  {
    if n > 0 {
      var s := seq(n, k requires 0 <= k < n => k);
      var t := seq(n - 1, k requires 0 <= k < n - 1 => k);
      CountIdentity(n - 1, x);
      assert s == t + [n - 1];
      assert multiset(s) == multiset(t) + multiset{n - 1};
    }
  }

  /**
   * Over numbered posts, a round visits every post other than its start
   * once, in some order.
   */
  lemma RouteMembers(posts: seq<Post>, startId: int, rands: seq<real>)
    requires Indexed(posts)
    requires |rands| == |Available(posts, startId)| && AllRandom(rands)
    ensures var route := Route(posts, startId, rands);
      Distinct(route) && (forall y :: y in route <==> Resolves(posts, y) && y != startId)
      && |route| == if Resolves(posts, startId) then |posts| - 1 else |posts|
  {
    AvailableSpec(posts, startId);
    var available := Available(posts, startId);
    ShuffledPermutes(available, rands);
    forall y ensures multiset(available)[y] <= 1 {
      assert multiset(available)[y] == if Resolves(posts, y) && y != startId then 1 else 0;
    }
    ShuffledDistinct(available, rands);
  }

  /**
   * On a course of two or more rings a round ends on a ring that is not
   * its start, so the next round has a start that names a post, and the
   * planner always returns a curve.
   */
  lemma RouteSpec(posts: seq<Post>, startId: int, rands: seq<real>, cfg: Config)
    requires Indexed(posts) && Resolves(posts, startId) && |posts| >= 2
    requires |rands| == |Available(posts, startId)| && AllRandom(rands)
    ensures var route := Route(posts, startId, rands);
      |route| == |posts| - 1
      && Resolves(posts, route[|route| - 1]) && route[|route| - 1] != startId
      && Plan(posts, startId, route, cfg).Some?
  {
    var route := Route(posts, startId, rands);
    RouteMembers(posts, startId, rands);
    assert route[|route| - 1] in route;
    PlanResult(posts, startId, route, cfg);
  }

  // ---------------------------------------------------------------------
  // Per-drone constants and motion
  // ---------------------------------------------------------------------

  /** `1 + Math.random()`: the mesh's scale. */
  function DroneScale(r: real): real {
    1.0 + r
  }

  /** `CONFIG.speed * (0.8 + Math.random() * 0.4)`: the drone's own speed. */
  function DroneSpeed(base: real, r: real): real {
    base * (0.8 + r * 0.4)
  }

  /** Drones are between one and two times the model's size, and fly at 80 % to 120 % of the configured speed. */
  lemma DroneRanges(base: real, r: real)
    requires IsRandom(r) && base >= 0.0
    ensures 1.0 <= DroneScale(r) < 2.0
    ensures 0.8 * base <= DroneSpeed(base, r) <= 1.2 * base
  {
    ProductNonNegative(base, r * 0.4);
    ProductNonNegative(base, (1.0 - r) * 0.4);
    assert DroneSpeed(base, r) == 0.8 * base + base * (r * 0.4);
    assert 1.2 * base - DroneSpeed(base, r) == base * ((1.0 - r) * 0.4);
  }

  /** `speed / len`: the share of the curve flown in one frame. */
  function Step(speed: real, len: real): real
    requires len >= 1.0
  {
    speed / len
  }

  /**
   * A frame flies exactly `speed` units of arc length, and on a curve at
   * least one unit long its share of the curve is positive and no more
   * than `speed`.
   */
  lemma StepSpec(speed: real, len: real)
    requires len >= 1.0 && speed > 0.0
    ensures Step(speed, len) * len == speed
    ensures 0.0 < Step(speed, len) <= speed
  {
    DivideBack(speed, len);
    var q := Step(speed, len);
    FactorPositive(q, len);
    assert speed - q == q * (len - 1.0);
    ProductNonNegative(q, len - 1.0);
  }

  // ---------------------------------------------------------------------
  // The DroneBall object
  // ---------------------------------------------------------------------

  class DroneBall {
    var currentStartId: int
    var curve: Option<Curve>
    var progress: real
    var nextStartId: int
    /** `mesh.position`. */
    var position: Vec3
    const speed: real
    const scale: real
    const trail: TrailRibbon

    /** The route planning of `planNewRoute` on a course of two or more posts. */
    ghost predicate Planned(posts: seq<Post>, cfg: Config, rands: seq<real>)
      reads this
      requires |rands| == |Available(posts, currentStartId)| && AllRandom(rands)
    {
      var route := Route(posts, currentStartId, rands);
      curve == Plan(posts, currentStartId, route, cfg) && progress == 0.0
      && (|route| > 0 ==> nextStartId == route[|route| - 1])
    }

    /**
     * `new DroneBall(color, startId)`: a scale and a speed drawn once, a
     * fresh trail, and a first route planned from `startId`.
     */
    constructor (posts: seq<Post>, cfg: Config, startId: int, rScale: real, rSpeed: real, rands: seq<real>)
      requires |rands| == |Available(posts, startId)| && AllRandom(rands)
      ensures fresh(trail) && fresh(trail.positions) && trail.Valid() && trail.history == []
      ensures scale == DroneScale(rScale) && speed == DroneSpeed(cfg.speed, rSpeed)
      ensures currentStartId == startId && position == Zero
      ensures |posts| < 2 ==> curve == None && progress == 0.0 && nextStartId == 0
      ensures |posts| >= 2 ==> Planned(posts, cfg, rands)
    {
      trail := new TrailRibbon();
      scale := DroneScale(rScale);
      speed := DroneSpeed(cfg.speed, rSpeed);
      currentStartId := startId;
      curve := None;
      progress := 0.0;
      nextStartId := 0;
      position := Zero;
      new;
      PlanNewRoute(posts, cfg, rands);
    }

    /**
     * `planNewRoute()`: with fewer than two posts nothing happens;
     * otherwise the drone flies every other post in shuffled order, its
     * next round starting from the last of them, and starts at the curve's
     * beginning.
     */
    method PlanNewRoute(posts: seq<Post>, cfg: Config, rands: seq<real>)
      requires |rands| == |Available(posts, currentStartId)| && AllRandom(rands)
      modifies this
      ensures currentStartId == old(currentStartId) && position == old(position)
      ensures |posts| < 2 ==>
        curve == old(curve) && progress == old(progress) && nextStartId == old(nextStartId)
      ensures |posts| >= 2 ==> Planned(posts, cfg, rands)
      ensures |posts| >= 2 && |Route(posts, currentStartId, rands)| == 0 ==> nextStartId == old(nextStartId)
    {
      if |posts| < 2 {
        return;
      }
      var available := Available(posts, currentStartId);
      var routeIds := Shuffle(available, rands);
      if |routeIds| > 0 {
        nextStartId := routeIds[|routeIds| - 1];
      }
      curve := CreateSimpleSplinePath(posts, currentStartId, routeIds, cfg);
      progress := 0.0;
    }

    /**
     * `update()`: without a curve at least one unit long nothing happens.
     * Otherwise the drone advances by `speed / len`; at the end of the
     * curve it starts a new round from `nextStartId`, and before it, it
     * moves to the curve's point there and, when the curve has a tangent
     * there, feeds the trail.
     */
    method Update(posts: seq<Post>, cfg: Config, lib: Library, rands: seq<real>)
      requires trail.Valid()
      requires |rands| == |Available(posts, nextStartId)| && AllRandom(rands)
      modifies this, trail, trail.positions
      ensures trail.Valid()
      ensures old(curve) == None || lib.length(old(curve).value) < 1.0 ==>
        curve == old(curve) && progress == old(progress) && position == old(position)
        && currentStartId == old(currentStartId) && nextStartId == old(nextStartId)
        && unchanged(trail) && unchanged(trail.positions)
      ensures old(curve).Some? && lib.length(old(curve).value) >= 1.0 ==>
        var c := old(curve).value;
        var p := old(progress) + Step(speed, lib.length(c));
        (p >= 1.0 ==>
          currentStartId == old(nextStartId) && position == old(position)
          && unchanged(trail) && unchanged(trail.positions)
          && (|posts| < 2 ==> curve == old(curve) && progress == p && nextStartId == old(nextStartId))
          && (|posts| >= 2 ==> Planned(posts, cfg, rands)))
        && (p < 1.0 ==>
          curve == old(curve) && progress == p && currentStartId == old(currentStartId)
          && nextStartId == old(nextStartId) && position == lib.pointAt(c, p)
          && (lib.tangentAt(c, p).None? ==> unchanged(trail) && unchanged(trail.positions))
          && (lib.tangentAt(c, p).Some? ==>
                trail.history == Pushed(old(trail.history), Node(position, RightOf(lib.tangentAt(c, p).value, lib)))
                && (|trail.history| < 2 ==>
                      trail.visible == old(trail.visible) && trail.drawCount == old(trail.drawCount)
                      && trail.opacity == old(trail.opacity) && trail.positions[..] == old(trail.positions[..]))
                && (|trail.history| >= 2 ==> trail.Drawn(cfg.isNight))))
    {
      if curve == None {
        return;
      }
      var c := curve.value;
      var len := lib.length(c);
      if len < 1.0 {
        return;
      }
      progress := progress + speed / len;
      if progress >= 1.0 {
        currentStartId := nextStartId;
        PlanNewRoute(posts, cfg, rands);
      } else {
        position := lib.pointAt(c, progress);
        var tangent := lib.tangentAt(c, progress);
        if tangent.Some? {
          trail.Update(position, tangent.value, cfg.isNight, lib);
        }
      }
    }
  }
}
