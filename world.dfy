/**
 * `js/World.js`: the player's rounds (`startPlayerRound`) and the course
 * they are flown on (`generateWorld`), over the shared `GameState`
 * record. A ring's run state is its material colour: yellow when idle,
 * blue for the current target, red once passed; its fire burns exactly
 * while it is blue.
 */
module World {
  import opened Vectors
  import opened Wrappers
  import opened Three
  import opened Config
  import opened Globals
  import opened Utils
  import opened Spline
  import opened Fire
  import opened Drone

  // ---------------------------------------------------------------------
  // Ring colours along a round
  // ---------------------------------------------------------------------

  /** The emissive colour that goes with a ring colour. */
  function GlowOf(color: int): int {
    if color == Red then RedGlow else if color == Blue then BlueGlow else NoGlow
  }

  /** The ids of a round are distinct posts of a course of `n`. */
  predicate PathOk(n: nat, path: seq<int>) {
    Distinct(path) && forall j :: 0 <= j < |path| ==> 0 <= path[j] < n
  }

  /**
   * The colours of `n` rings while the player flies `path` with cursor
   * `idx`: the targets before the cursor are red, the one at it blue, the
   * later ones and the rings off the path yellow.
   */
  predicate Coloured(n: nat, path: seq<int>, idx: int, colors: seq<int>) {
    |colors| == n && 0 <= idx && PathOk(n, path)
    && (forall j :: 0 <= j < |path| && j < idx ==> colors[path[j]] == Red)
    && (idx < |path| ==> colors[path[idx]] == Blue)
    && (forall j :: idx < j < |path| ==> colors[path[j]] == Yellow)
    && (forall k :: 0 <= k < n && k !in path ==> colors[k] == Yellow)
  }

  /**
   * At most one ring is the target, the one under the cursor, and the red
   * rings are exactly the targets already passed.
   */
  lemma ColouredSpec(n: nat, path: seq<int>, idx: int, colors: seq<int>, k: int)
    requires Coloured(n, path, idx, colors) && 0 <= k < n
    ensures colors[k] == Blue <==> idx < |path| && k == path[idx]
    ensures colors[k] == Red <==> exists j :: 0 <= j < |path| && j < idx && path[j] == k
    ensures colors[k] == Red || colors[k] == Blue || colors[k] == Yellow
  {
    if k in path {
      var j :| 0 <= j < |path| && path[j] == k;
      forall j2 | 0 <= j2 < |path| && path[j2] == k ensures j2 == j {
      }
    }
  }

  /** The colours after the player passes the target under the cursor. */
  function Passed(colors: seq<int>, path: seq<int>, idx: nat): seq<int>
    requires idx < |path| && forall j :: 0 <= j < |path| ==> 0 <= path[j] < |colors|
  {
    var c := colors[path[idx] := Red];
    if idx + 1 < |path| then c[path[idx + 1] := Blue] else c
  }

  /** Passing a target keeps the colours in step with the cursor moved on by one. */
  lemma PassedColoured(n: nat, path: seq<int>, idx: nat, colors: seq<int>)
    requires Coloured(n, path, idx, colors) && idx < |path|
    ensures Coloured(n, path, idx + 1, Passed(colors, path, idx))
  {
    var c := Passed(colors, path, idx);
    forall j | 0 <= j < |path| && j < idx + 1 ensures c[path[j]] == Red {
      if idx + 1 < |path| {
        assert path[j] != path[idx + 1];
      }
    }
    forall j | idx + 1 < j < |path| ensures c[path[j]] == Yellow {
      assert path[j] != path[idx] && path[j] != path[idx + 1];
    }
  }

  /** The colours at the start of a round: all yellow but the first target. */
  function RoundStart(n: nat, path: seq<int>): (colors: seq<int>)
    requires forall j :: 0 <= j < |path| ==> 0 <= path[j] < n
    ensures |colors| == n
  {
    var idle := seq(n, k => Yellow);
    if |path| == 0 then idle else idle[path[0] := Blue]
  }

  /** A new round, empty or not, starts in step with a cursor at 0 or anywhere past an empty path. */
  lemma RoundStartColoured(n: nat, path: seq<int>, idx: int)
    requires PathOk(n, path) && 0 <= idx && (|path| > 0 ==> idx == 0)
    ensures Coloured(n, path, idx, RoundStart(n, path))
  {
    var c := RoundStart(n, path);
    forall j | idx < j < |path| ensures c[path[j]] == Yellow {
      assert path[j] != path[0];
    }
  }

  // ---------------------------------------------------------------------
  // Course placement
  // ---------------------------------------------------------------------

  /** `minDistance`, and the tries per post. */
  const MinDistance: real := 10.0
  const MaxAttempts: nat := 100

  /** A post's ground position `{ x, z }`. */
  datatype Spot = Spot(x: real, z: real)

  function SpotDistSq(a: Spot, b: Spot): real {
    (a.x - b.x) * (a.x - b.x) + (a.z - b.z) * (a.z - b.z)
  }

  /** `postPositions.some(pos => distance < minDistance)`, compared squared. */
  predicate Crowded(prev: seq<Spot>, s: Spot) {
    exists k :: 0 <= k < |prev| && SpotDistSq(prev[k], s) < MinDistance * MinDistance
  }

  /** The try the `do … while` keeps: the first uncrowded one, or the last one allowed. */
  function FirstFit(prev: seq<Spot>, tries: seq<Spot>, a: nat): (r: nat)
    requires a < |tries|
    ensures a <= r < |tries|
    decreases |tries| - a
  {
    if a == |tries| - 1 || !Crowded(prev, tries[a]) then a else FirstFit(prev, tries, a + 1)
  }

  /** Every try before the kept one was crowded, and the kept one is free unless it is the last. */
  lemma {:induction false} FirstFitSpec(prev: seq<Spot>, tries: seq<Spot>, a: nat)
    requires a < |tries|
    ensures forall b :: a <= b < FirstFit(prev, tries, a) ==> Crowded(prev, tries[b])
    ensures FirstFit(prev, tries, a) < |tries| - 1 ==> !Crowded(prev, tries[FirstFit(prev, tries, a)])
    decreases |tries| - a
  {
    if !(a == |tries| - 1 || !Crowded(prev, tries[a])) {
      FirstFitSpec(prev, tries, a + 1);
    }
  }

  /** `postPositions` after the placement of every post. */
  function Spots(tries: seq<seq<Spot>>): (spots: seq<Spot>)
    requires forall i :: 0 <= i < |tries| ==> |tries[i]| == MaxAttempts
    ensures |spots| == |tries|
  {
    if |tries| == 0 then []
    else
      var prev := Spots(tries[..|tries| - 1]);
      var last := tries[|tries| - 1];
      prev + [last[FirstFit(prev, last, 0)]]
  }

  /** Whether post `i` found a free spot before its tries ran out. */
  predicate Settled(tries: seq<seq<Spot>>, i: nat)
    requires forall i :: 0 <= i < |tries| ==> |tries[i]| == MaxAttempts
    requires i < |tries|
  {
    FirstFit(Spots(tries[..i]), tries[i], 0) < MaxAttempts - 1
  }

  /** Placing more posts leaves the earlier spots where they are. */
  lemma {:induction false} SpotsPrefix(tries: seq<seq<Spot>>, m: nat)
    requires forall i :: 0 <= i < |tries| ==> |tries[i]| == MaxAttempts
    requires m <= |tries|
    ensures Spots(tries[..m]) == Spots(tries)[..m]
    decreases |tries|
  {
    if m < |tries| {
      var init := tries[..|tries| - 1];
      assert tries[..m] == init[..m];
      SpotsPrefix(init, m);
    } else {
      assert tries[..m] == tries;
    }
  }

  /**
   * Every post that settled stands at least `minDistance` from every post
   * placed before it.
   */
  lemma SpotsSpaced(tries: seq<seq<Spot>>, i: nat, j: nat)
    requires forall i :: 0 <= i < |tries| ==> |tries[i]| == MaxAttempts
    requires j < i < |tries| && Settled(tries, i)
    ensures SpotDistSq(Spots(tries)[j], Spots(tries)[i]) >= MinDistance * MinDistance
  {
    var prev := Spots(tries[..i]);
    FirstFitSpec(prev, tries[i], 0);
    SpotsPrefix(tries, i);
    SpotsPrefix(tries, i + 1);
    assert tries[..i + 1][..i] == tries[..i];
    assert Spots(tries)[i] == Spots(tries[..i + 1])[i];
  }

  /** `h`: `1 + Math.random() * (maxPostHeight - 1)`. */
  function PostHeight(r: real, maxPostHeight: real): real {
    1.0 + r * (maxPostHeight - 1.0)
  }

  /** Posts are at least one unit tall and no taller than `maxPostHeight`. */
  lemma PostHeightRange(r: real, maxPostHeight: real)
    requires IsRandom(r) && maxPostHeight >= 1.0
    ensures 1.0 <= PostHeight(r, maxPostHeight) <= maxPostHeight
  {
    ProductNonNegative(r, maxPostHeight - 1.0);
    ProductNonNegative(1.0 - r, maxPostHeight - 1.0);
    assert maxPostHeight - PostHeight(r, maxPostHeight) == (1.0 - r) * (maxPostHeight - 1.0);
  }

  /** The record pushed for post `i`: its ring `1.65` above the post's top, with entry and exit 4 along the normal. */
  function MakePost(i: int, s: Spot, h: real, normal: Vec3): Post {
    var center := Vec3(s.x, h + 1.5 + 0.15, s.z);
    Post(i, center, normal, Add(center, Scale(normal, 4.0)), Sub(center, Scale(normal, 4.0)))
  }

  /** A ring's entry and exit lie on its axis, 4 units either side of its center. */
  lemma MakePostSpec(i: int, s: Spot, h: real, normal: Vec3)
    ensures var p := MakePost(i, s, h, normal);
      p.id == i && p.center.y == h + 1.65 && p.center.x == s.x && p.center.z == s.z
      && Midpoint(p.entry, p.exit) == p.center
      && Sub(p.entry, p.center) == Scale(normal, 4.0) && Sub(p.center, p.exit) == Scale(normal, 4.0)
  {
  }

  /** `postsData` after `generateWorld`. */
  function Course(tries: seq<seq<Spot>>, heights: seq<real>, normals: seq<Vec3>, maxPostHeight: real): (posts: seq<Post>)
    requires forall i :: 0 <= i < |tries| ==> |tries[i]| == MaxAttempts
    requires |heights| == |tries| && |normals| == |tries|
    ensures |posts| == |tries| && Indexed(posts)
  {
    var spots := Spots(tries);
    seq(|tries|, i requires 0 <= i < |tries| =>
      MakePost(i, spots[i], PostHeight(heights[i], maxPostHeight), normals[i]))
  }

  /** The camera's start: 15 behind the first ring along its normal, at flight height. */
  function StartCamera(first: Post, height: real): Vec3 {
    WithY(Sub(first.center, Scale(first.normal, 15.0)), height)
  }

  /** `(i + 1) % CONFIG.numPosts`, the start of drone `i`; with no posts it names none (`NaN` in the source). */
  function DroneStart(i: nat, numPosts: nat): int {
    if numPosts == 0 then -1 else (i + 1) % numPosts
  }

  /**
   * Drones start on a post of the course, drone `i` on the post after
   * post `i`, so drones no more numerous than the posts start apart.
   */
  lemma DroneStartSpec(i: nat, i2: nat, numPosts: nat)
    requires numPosts > 0
    ensures 0 <= DroneStart(i, numPosts) < numPosts
    ensures i + 1 < numPosts ==> DroneStart(i, numPosts) == i + 1
    ensures i < i2 < numPosts ==> DroneStart(i, numPosts) != DroneStart(i2, numPosts)
  {
    if i < i2 < numPosts && i2 + 1 == numPosts {
      assert DroneStart(i2, numPosts) == 0;
    }
  }

  /** The length of the route drone `i` plans first, on a course of `numPosts` numbered posts. */
  function DroneRouteLength(i: nat, numPosts: nat): nat {
    if numPosts == 0 then 0 else numPosts - 1
  }

  // ---------------------------------------------------------------------
  // Placement and construction loops
  // ---------------------------------------------------------------------

  /** The `do … while` of one post: draw tries until one is free or the tries run out. */
  method PlaceSpot(prev: seq<Spot>, tries: seq<Spot>) returns (spot: Spot, attempts: nat)
    requires |tries| == MaxAttempts
    ensures 1 <= attempts <= MaxAttempts && spot == tries[attempts - 1]
    ensures spot == tries[FirstFit(prev, tries, 0)]
  {
    spot := tries[0];
    attempts := 1;
    while attempts < MaxAttempts && Crowded(prev, spot)
      invariant 1 <= attempts <= MaxAttempts && spot == tries[attempts - 1]
      invariant FirstFit(prev, tries, 0) == FirstFit(prev, tries, attempts - 1)
      decreases MaxAttempts - attempts
    {
      spot := tries[attempts];
      attempts := attempts + 1;
    }
  }

  /** The placement loop of `generateWorld`: posts numbered in order. */
  method PlacePosts(tries: seq<seq<Spot>>, heights: seq<real>, normals: seq<Vec3>, maxPostHeight: real)
    returns (posts: seq<Post>)
    requires forall i :: 0 <= i < |tries| ==> |tries[i]| == MaxAttempts
    requires |heights| == |tries| && |normals| == |tries|
    ensures posts == Course(tries, heights, normals, maxPostHeight)
  {
    var spots: seq<Spot> := [];
    posts := [];
    for i := 0 to |tries|
      invariant spots == Spots(tries[..i])
      invariant |posts| == i
      invariant forall k :: 0 <= k < i ==>
        posts[k] == MakePost(k, spots[k], PostHeight(heights[k], maxPostHeight), normals[k])
    {
      var spot, _ := PlaceSpot(spots, tries[i]);
      assert tries[..i + 1][..i] == tries[..i];
      spots := spots + [spot];
      var h := PostHeight(heights[i], maxPostHeight);
      posts := posts + [MakePost(i, spot, h, normals[i])];
    }
    assert tries[..|tries|] == tries;
  }

  /** One fresh, disabled fire per post. */
  method MakeFires(n: nat) returns (fires: seq<FireEffect>)
    ensures |fires| == n
    ensures forall i, j :: 0 <= i < j < n ==> fires[i] != fires[j]
    ensures forall k :: 0 <= k < n ==> fresh(fires[k]) && !fires[k].enabled && fires[k].Valid()
  {
    fires := [];
    for i := 0 to n
      invariant |fires| == i
      invariant forall a, b :: 0 <= a < b < i ==> fires[a] != fires[b]
      invariant forall k :: 0 <= k < i ==> fresh(fires[k]) && !fires[k].enabled && fires[k].Valid()
    {
      var f := new FireEffect();
      fires := fires + [f];
    }
  }

  /** `dispose()` of every fire of the previous course. */
  method DisposeFires(fires: seq<FireEffect>)
    modifies set k | 0 <= k < |fires| :: fires[k]
    ensures forall k :: 0 <= k < |fires| ==> fires[k].pool == [] && fires[k].enabled == old(fires[k].enabled)
  {
    for i := 0 to |fires|
      invariant forall k :: 0 <= k < i ==> fires[k].pool == []
      invariant forall k :: 0 <= k < |fires| ==> fires[k].enabled == old(fires[k].enabled)
    {
      fires[i].Dispose();
    }
  }

  /** A round's ids are distinct posts of the course. */
  lemma RoutePathOk(posts: seq<Post>, startId: int, rands: seq<real>)
    requires Indexed(posts)
    requires |rands| == |Available(posts, startId)| && AllRandom(rands)
    ensures PathOk(|posts|, Route(posts, startId, rands))
    ensures forall j :: 0 <= j < |Route(posts, startId, rands)| ==> Route(posts, startId, rands)[j] != startId
  {
    var route := Route(posts, startId, rands);
    RouteMembers(posts, startId, rands);
    forall j | 0 <= j < |route| ensures 0 <= route[j] < |posts| && route[j] != startId {
      assert route[j] in route;
    }
  }

  /** The drone loop of `generateWorld`: drone `i` starts at post `(i + 1) % numPosts`. */
  method SpawnDrones(posts: seq<Post>, cfg: Config, scales: seq<real>, speeds: seq<real>, routes: seq<seq<real>>)
    returns (drones: seq<DroneBall>)
    requires Indexed(posts) && |posts| == cfg.numPosts
    requires |scales| == cfg.numBalls && |speeds| == cfg.numBalls && |routes| == cfg.numBalls
    requires forall i :: 0 <= i < |routes| ==> |routes[i]| == DroneRouteLength(i, cfg.numPosts) && AllRandom(routes[i])
    ensures |drones| == cfg.numBalls
    ensures forall i :: 0 <= i < |drones| ==>
      fresh(drones[i]) && drones[i].currentStartId == DroneStart(i, cfg.numPosts)
      && drones[i].scale == DroneScale(scales[i]) && drones[i].speed == DroneSpeed(cfg.speed, speeds[i])
  {
    drones := [];
    for i := 0 to cfg.numBalls
      invariant |drones| == i
      invariant forall j :: 0 <= j < i ==>
        fresh(drones[j]) && drones[j].currentStartId == DroneStart(j, cfg.numPosts)
        && drones[j].scale == DroneScale(scales[j]) && drones[j].speed == DroneSpeed(cfg.speed, speeds[j])
    {
      var startId := DroneStart(i, cfg.numPosts);
      AvailableSpec(posts, startId);
      var d := new DroneBall(posts, cfg, startId, scales[i], speeds[i], routes[i]);
      drones := drones + [d];
    }
  }

  // ---------------------------------------------------------------------
  // GameState
  // ---------------------------------------------------------------------

  /** The parts of `GameState` the rounds and the course live in. */
  class World {
    var posts: seq<Post>
    /** The material and emissive colour of each post's ring. */
    var ringColor: seq<int>
    var ringEmissive: seq<int>
    /** The fire of each post's ring. */
    var fires: seq<FireEffect>
    var drones: seq<DroneBall>
    var path: seq<int>
    var targetIdx: int
    var nextStartId: int
    var curve: Option<Curve>
    var progress: real
    var status: Status
    /** `camera.position`. */
    var camera: Vec3

    /** The records line up with the posts, numbered in order, each ring with its own fire. */
    ghost predicate Valid()
      reads this
    {
      Indexed(posts) && |ringColor| == |posts| && |ringEmissive| == |posts| && |fires| == |posts|
      && (forall i, j :: 0 <= i < j < |fires| ==> fires[i] != fires[j])
      && 0 <= targetIdx
    }

    /** The rings show the round: colours by the cursor, glows by colour, fires on the blue ring only. */
    ghost predicate RoundValid()
      reads this, fires
    {
      Valid() && Coloured(|posts|, path, targetIdx, ringColor)
      && (forall k :: 0 <= k < |posts| ==> ringEmissive[k] == GlowOf(ringColor[k]))
      && (forall k :: 0 <= k < |posts| ==> fires[k].enabled == (ringColor[k] == Blue))
    }

    /** The record as the page loads: no course, no round. */
    constructor ()
      ensures Valid() && RoundValid()
      ensures posts == [] && drones == [] && path == [] && curve == None
      ensures targetIdx == 0 && nextStartId == 0 && progress == 0.0 && status == Initial
    {
      posts := [];
      ringColor := [];
      ringEmissive := [];
      fires := [];
      drones := [];
      path := [];
      targetIdx := 0;
      nextStartId := 0;
      curve := None;
      progress := 0.0;
      status := Initial;
      camera := Zero;
    }

    /**
     * `startPlayerRound(startId)`: every ring back to yellow with its fire
     * out; a new round through every other post in shuffled order; with
     * no post to fly to, only an error status; otherwise the first target
     * turns blue with its fire lit, the round's curve is planned from
     * `startId`, and the next round will start at the last target.
     */
    method StartPlayerRound(startId: int, cfg: Config, rands: seq<real>)
      requires Valid()
      requires |rands| == |Available(posts, startId)| && AllRandom(rands)
      modifies this, fires
      ensures Valid() && RoundValid()
      ensures posts == old(posts) && fires == old(fires) && drones == old(drones) && camera == old(camera)
      ensures path == Route(posts, startId, rands)
      ensures ringColor == RoundStart(|posts|, path)
      ensures forall k :: 0 <= k < |posts| ==> ActiveCount(fires[k].pool) == 0
      ensures |path| == 0 ==>
        status == NotEnoughPosts && curve == old(curve) && progress == old(progress)
        && targetIdx == old(targetIdx) && nextStartId == old(nextStartId)
      ensures |path| > 0 ==>
        targetIdx == 0 && nextStartId == path[|path| - 1] && nextStartId != startId
        && curve == Plan(posts, startId, path, cfg) && progress == 0.0 && status == Targets(|path|)
    {
      ResetRings();
      ChoosePath(startId, rands);
      if |path| == 0 {
        status := NotEnoughPosts;
        RoundStartColoured(|posts|, path, targetIdx);
        return;
      }
      BeginRound(startId, cfg);
    }

    /** `playerPathIndices = shuffle(available)`. */
    method ChoosePath(startId: int, rands: seq<real>)
      requires Valid()
      requires |rands| == |Available(posts, startId)| && AllRandom(rands)
      modifies this
      ensures posts == old(posts) && ringColor == old(ringColor) && ringEmissive == old(ringEmissive)
      ensures Valid() && path == Route(posts, startId, rands)
      ensures PathOk(|posts|, path) && forall j :: 0 <= j < |path| ==> path[j] != startId
      ensures fires == old(fires) && drones == old(drones) && targetIdx == old(targetIdx) && camera == old(camera)
      ensures nextStartId == old(nextStartId) && curve == old(curve) && progress == old(progress) && status == old(status)
    {
      var available := Available(posts, startId);
      var route := Shuffle(available, rands);
      path := route;
      RoutePathOk(posts, startId, rands);
    }

    /** The rest of `startPlayerRound` once the round has targets. */
    method BeginRound(startId: int, cfg: Config)
      requires Valid() && PathOk(|posts|, path) && |path| > 0
      requires forall j :: 0 <= j < |path| ==> path[j] != startId
      requires ringColor == RoundStart(|posts|, []) && ringEmissive == seq(|posts|, k => NoGlow)
      requires forall k :: 0 <= k < |posts| ==> !fires[k].enabled && ActiveCount(fires[k].pool) == 0
      modifies this, fires[path[0]]
      ensures Valid() && RoundValid()
      ensures posts == old(posts) && fires == old(fires) && drones == old(drones) && camera == old(camera)
      ensures path == old(path) && ringColor == RoundStart(|posts|, path)
      ensures forall k :: 0 <= k < |posts| ==> ActiveCount(fires[k].pool) == 0
      ensures targetIdx == 0 && nextStartId == path[|path| - 1] && nextStartId != startId
      ensures curve == Plan(posts, startId, path, cfg) && progress == 0.0 && status == Targets(|path|)
    {
      targetIdx := 0;
      nextStartId := path[|path| - 1];
      PlanCurve(startId, cfg);
      status := Targets(|path|);
      RoundStartColoured(|posts|, path, 0);
      Light(path[0], Blue);
    }

    /** The curve of a round and its progress reset. */
    method PlanCurve(startId: int, cfg: Config)
      modifies this
      ensures curve == Plan(posts, startId, path, cfg) && progress == 0.0
      ensures posts == old(posts) && ringColor == old(ringColor) && ringEmissive == old(ringEmissive)
      ensures fires == old(fires) && drones == old(drones) && path == old(path) && targetIdx == old(targetIdx)
      ensures nextStartId == old(nextStartId) && status == old(status) && camera == old(camera)
    {
      curve := CreateSimpleSplinePath(posts, startId, path, cfg);
      progress := 0.0;
    }

    /**
     * Sets ring `id` to `color` with its glow, and lights its fire for
     * blue or puts it out otherwise; nothing else changes.
     */
    method Light(id: int, color: int)
      requires Valid() && 0 <= id < |posts|
      modifies this, fires[id]
      ensures Valid()
      ensures ringColor == old(ringColor)[id := color] && ringEmissive == old(ringEmissive)[id := GlowOf(color)]
      ensures fires[id].enabled == (color == Blue)
      ensures color == Blue ==> fires[id].pool == old(fires[id].pool)
      ensures color != Blue ==> ActiveCount(fires[id].pool) == 0
      ensures forall k :: 0 <= k < |posts| && k != id ==> fires[k].enabled == old(fires[k].enabled)
      ensures posts == old(posts) && fires == old(fires) && drones == old(drones) && camera == old(camera)
      ensures path == old(path) && targetIdx == old(targetIdx) && nextStartId == old(nextStartId)
      ensures curve == old(curve) && progress == old(progress) && status == old(status)
    {
      ringColor := ringColor[id := color];
      ringEmissive := ringEmissive[id := GlowOf(color)];
      if color == Blue {
        fires[id].Enable();
      } else {
        fires[id].Disable();
      }
    }

    /** The `forEach` that opens `startPlayerRound`: yellow, no glow, fire out, on every ring. */
    method ResetRings()
      requires Valid()
      modifies this, fires
      ensures Valid() && ringColor == RoundStart(|posts|, []) && ringEmissive == seq(|posts|, k => NoGlow)
      ensures forall k :: 0 <= k < |posts| ==> !fires[k].enabled && ActiveCount(fires[k].pool) == 0
      ensures posts == old(posts) && fires == old(fires) && drones == old(drones) && camera == old(camera)
      ensures path == old(path) && targetIdx == old(targetIdx) && nextStartId == old(nextStartId)
      ensures curve == old(curve) && progress == old(progress) && status == old(status)
    {
      for k := 0 to |posts|
        invariant Valid()
        invariant posts == old(posts) && fires == old(fires) && drones == old(drones) && camera == old(camera)
        invariant path == old(path) && targetIdx == old(targetIdx) && nextStartId == old(nextStartId)
        invariant curve == old(curve) && progress == old(progress) && status == old(status)
        invariant forall j :: 0 <= j < k ==> ringColor[j] == Yellow && ringEmissive[j] == NoGlow
        invariant forall j :: 0 <= j < k ==> !fires[j].enabled && ActiveCount(fires[j].pool) == 0
      {
        ringColor := ringColor[k := Yellow];
        ringEmissive := ringEmissive[k := NoGlow];
        fires[k].Disable();
      }
    }

    /**
     * `generateWorld()`: the previous fires are disposed; each post is
     * placed by rejection sampling and numbered in order, with a yellow
     * ring and an unlit fire; with more than one post the camera is put
     * behind the first ring and a round starts there; then the drones are
     * created. With one post or none, the previous round is left as it
     * was.
     */
    method GenerateWorld(cfg: Config, tries: seq<seq<Spot>>, heights: seq<real>, normals: seq<Vec3>,
                         roundRands: seq<real>, scales: seq<real>, speeds: seq<real>, routes: seq<seq<real>>)
      requires Valid()
      requires |tries| == cfg.numPosts && forall i :: 0 <= i < |tries| ==> |tries[i]| == MaxAttempts
      requires |heights| == cfg.numPosts && |normals| == cfg.numPosts
      requires cfg.numPosts > 1 ==> |roundRands| == cfg.numPosts - 1 && AllRandom(roundRands)
      requires |scales| == cfg.numBalls && |speeds| == cfg.numBalls && |routes| == cfg.numBalls
      requires forall i :: 0 <= i < |routes| ==> |routes[i]| == DroneRouteLength(i, cfg.numPosts) && AllRandom(routes[i])
      modifies this, fires
      ensures forall k :: 0 <= k < |old(fires)| ==> old(fires)[k].pool == []
      ensures Valid() && posts == Course(tries, heights, normals, cfg.maxPostHeight)
      ensures forall k :: 0 <= k < |fires| ==> fresh(fires[k])
      ensures |drones| == cfg.numBalls
      ensures forall i :: 0 <= i < |drones| ==> fresh(drones[i]) && drones[i].currentStartId == DroneStart(i, cfg.numPosts)
      ensures |posts| > 1 ==>
        RoundValid() && camera == StartCamera(posts[0], cfg.height)
        && |Available(posts, 0)| == |roundRands| && path == Route(posts, 0, roundRands) && |path| == |posts| - 1
        && targetIdx == 0 && nextStartId == path[|path| - 1] && curve == Plan(posts, 0, path, cfg)
        && progress == 0.0 && status == Targets(|path|)
      ensures |posts| <= 1 ==>
        ringColor == seq(|posts|, k => Yellow) && ringEmissive == seq(|posts|, k => NoGlow)
        && (forall k :: 0 <= k < |posts| ==> !fires[k].enabled)
        && camera == old(camera) && path == old(path) && targetIdx == old(targetIdx)
        && nextStartId == old(nextStartId) && curve == old(curve) && progress == old(progress)
        && status == Generating
    {
      RebuildCourse(cfg, tries, heights, normals);
      // The drones only read the new course, so creating them before the
      // round starts, rather than after it, changes nothing.
      var flock := SpawnDrones(posts, cfg, scales, speeds, routes);
      drones := flock;
      if |posts| > 1 {
        OpenFirstRound(cfg, roundRands);
      }
    }

    /** The camera placed behind the first ring, and `startPlayerRound(0)`. */
    method OpenFirstRound(cfg: Config, roundRands: seq<real>)
      requires Valid() && |posts| > 1 && |roundRands| == |posts| - 1 && AllRandom(roundRands)
      modifies this, fires
      ensures posts == old(posts) && fires == old(fires) && drones == old(drones)
      ensures RoundValid() && camera == StartCamera(posts[0], cfg.height)
        && |Available(posts, 0)| == |roundRands| && path == Route(posts, 0, roundRands) && |path| == |posts| - 1
        && targetIdx == 0 && nextStartId == path[|path| - 1] && curve == Plan(posts, 0, path, cfg)
        && progress == 0.0 && status == Targets(|path|)
    {
      camera := StartCamera(posts[0], cfg.height);
      AvailableSpec(posts, 0);
      StartPlayerRound(0, cfg, roundRands);
      RouteMembers(posts, 0, roundRands);
    }

    /** The part of `generateWorld` that tears down the old course and places the new one. */
    method RebuildCourse(cfg: Config, tries: seq<seq<Spot>>, heights: seq<real>, normals: seq<Vec3>)
      requires Valid()
      requires |tries| == cfg.numPosts && forall i :: 0 <= i < |tries| ==> |tries[i]| == MaxAttempts
      requires |heights| == cfg.numPosts && |normals| == cfg.numPosts
      modifies this, fires
      ensures forall k :: 0 <= k < |old(fires)| ==> old(fires)[k].pool == []
      ensures Valid() && posts == Course(tries, heights, normals, cfg.maxPostHeight)
      ensures forall k :: 0 <= k < |fires| ==> fresh(fires[k]) && !fires[k].enabled
      ensures ringColor == seq(|posts|, k => Yellow) && ringEmissive == seq(|posts|, k => NoGlow)
      ensures drones == [] && status == Generating && camera == old(camera)
      ensures path == old(path) && targetIdx == old(targetIdx) && nextStartId == old(nextStartId)
      ensures curve == old(curve) && progress == old(progress)
    {
      status := Generating;
      DisposeFires(fires);
      var built := PlacePosts(tries, heights, normals, cfg.maxPostHeight);
      var lit := MakeFires(|built|);
      Install(built, lit);
    }

    /** `postsData` rebuilt: the new posts with yellow, unlit rings, and no drones yet. */
    method Install(built: seq<Post>, lit: seq<FireEffect>)
      requires Indexed(built) && |lit| == |built| && 0 <= targetIdx
      requires forall i, j :: 0 <= i < j < |lit| ==> lit[i] != lit[j]
      modifies this
      ensures Valid() && posts == built && fires == lit
      ensures ringColor == seq(|posts|, k => Yellow) && ringEmissive == seq(|posts|, k => NoGlow)
      ensures drones == [] && status == old(status) && camera == old(camera)
      ensures path == old(path) && targetIdx == old(targetIdx) && nextStartId == old(nextStartId)
      ensures curve == old(curve) && progress == old(progress)
    {
      posts := built;
      fires := lit;
      ringColor := seq(|built|, k => Yellow);
      ringEmissive := seq(|built|, k => NoGlow);
      drones := [];
    }
  }
}
