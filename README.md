# Rings flight: a Dafny model

This project models the flight logic of a three.js toy. The player's camera flies a Catmull-Rom curve through a course of rings on posts. The rings are yellow when idle, blue for the current target and red once passed; the target's ring burns with a particle fire. Drones fly endless random rounds of their own, each with a trail ribbon, and at night every ring gets a light beacon while fireflies drift over the field.

The model covers the following parts, one Dafny module each:

- **`Spline`**: the waypoint planner.
  - From a start ring and an ordered list of target ids, it builds the control points of the curve.
  - The list starts with a climb to flight height.
  - For each target it then emits a descent midpoint, detours above rings lying near the leg, points before, at and after the ring along its normal, and a climb back out.
- **`Utils`**: the Fisher–Yates shuffle and the clamped point-to-segment distance.
- **`World`**: the shared game state.
  - `startPlayerRound` colours the rings, chooses the round's path and plans its curve.
  - `generateWorld` places the posts by rejection sampling and numbers them in order.
- **`MainLoop`**: the player's part of each frame.
  - Progress advances by `speed / len`.
  - A new round starts when the curve is done.
  - The camera's gaze uses a single-phase look-at transition.
  - An edge-triggered ring crossing moves the target cursor on.
- **`Fire`**: the 200-slot particle pool of a ring's fire. Spawning takes the first free slot, every frame ages the slots in flight and retires them, and `disable` is a hard stop.
- **`Drone`**: a drone's route planning and progress, with its own short-curve guard.
- **`Trail`**: the trail's history and its fixed vertex and index buffers.
- **`Beacon`**: the beacon's look, classified from the ring colour.
- **`Fireflies`**: the firefly position buffer, which wraps around at the sides of the box.

Support modules:

- **`Vectors`**: vector arithmetic on `real`.
- **`Three`**: the curve library the model cannot see. It is a value of uninterpreted functions passed as a parameter.
- **`Config`** and **`Globals`**: the `CONFIG` record, the post record, the colour constants and the status line.
- **`Wrappers`**: `Option` for `null`.

Modelling choices:

- Numbers are Dafny `real`.
- Distances are compared squared, so no square root is needed.
- `Math.random()` draws become parameters in `[0, 1)`.
- `performance.now()` and the camera's world direction become inputs.

The look-at is a single linear transition of 3 seconds (`js/Main.js:49-55, 92-103`).

## Model

| member | source | states |
|---|---|---|
| Utils.SwapIndex | js/Utils.js:6 | the swap partner `floor(r·(i+1))` of a draw `r` in `[0,1)` lies in `[0, i]` |
| Utils.FloorOf | js/Utils.js:6 | `Math.floor` of a non-negative number: the natural `f` with `f <= v < f + 1` |
| Utils.Draws | js/Utils.js:5-6 | one swap partner per position, each within `[0, i]` for its position `i` |
| Utils.SwapPermutes | js/Utils.js:7 | a swap keeps the multiset of elements |
| Utils.ShuffleWithPermutes | js/Utils.js:5-8 | the swaps from `i` down to 1 keep the length and the multiset |
| Utils.ShuffledPermutes | js/Utils.js:3-10 | the shuffle is a permutation: same length, same multiset, same members |
| Utils.ShuffledDistinct | js/Utils.js:3-10 | shuffling distinct elements gives distinct elements |
| Utils.Shuffle | js/Utils.js:3-10 | the in-place loop on a copy of the input gives the Fisher–Yates result for the draws, a permutation of the input |
| Utils.SwapSlots | js/Utils.js:7 | the destructuring swap exchanges exactly slots `i` and `j` of the array |
| Utils.ZeroLengthSegment | js/Utils.js:18 | a zero-length segment gives the distance to its start |
| Utils.ProjectionParam | js/Utils.js:21 | the projection parameter is clamped into `[0, 1]` |
| Utils.SegmentDistanceAtMostEndpoints | js/Utils.js:13-25 | the distance is non-negative and no more than the distance to either endpoint |
| Utils.ProperSegmentBound | js/Utils.js:21-24 | on a proper segment the clamped projection is no farther than either endpoint |
| Utils.SameEnds | js/Utils.js:16-18 | a segment of length zero has equal ends |
| Utils.PointOnSegmentHasZeroDistance | js/Utils.js:21-24 | a point on the segment has distance 0 |
| Spline.IsNearMatchesDistance | js/Spline.js:12 | the squared test holds exactly when `0.1 < d < threshold` |
| Spline.CandidatesMembers | js/Spline.js:10-19 | the scan keeps a post exactly when its segment distance is strictly between 0.1 and the threshold, at most one entry per post |
| Spline.InsertSorted | js/Spline.js:21 | inserting into a sorted list keeps it sorted and adds exactly the new entry |
| Spline.SortByDistanceSorts | js/Spline.js:21 | the sort returns a permutation of the entries in ascending distance |
| Spline.FindNearbyPostsOnPath | js/Spline.js:7-22 | the result is sorted by distance, has at most one entry per post, and holds exactly the posts whose distance is in `(0.1, threshold)` |
| Spline.AvoidancePoint | js/Spline.js:60-61 | a detour keeps the ring's x and z and is raised by `max(2, y + 2)` |
| Spline.AvoidancesSpec | js/Spline.js:55-64 | every detour comes from a nearby ring other than the target and the start ring, and every such ring gets one |
| Spline.CollectAvoidances | js/Spline.js:55-64 | the detour loop pushes the detours `AvoidancesSpec` describes |
| Spline.PassDirectionFacesApproach | js/Spline.js:68-80 | the pass direction is the normal, negated exactly when the horizontal approach runs against it (a zero dot keeps it) |
| Spline.PassGeometry | js/Spline.js:82-102 | before and after sit at ring height, symmetric about the center, behind and ahead along the approach; the climb-out is above the after point at flight height |
| Spline.DetoursSpec | js/Spline.js:51-64 | at most one detour per post, each above a ring other than target and start that lies near the leg |
| Spline.BlockShape | js/Spline.js:36-103 | a resolved target appends `5 + k` points for `k` detours: the midpoint first, its center third from the end |
| Spline.BlockSize | js/Spline.js:36-103 | a resolved target appends between 5 and `5 + |posts|` points |
| Spline.Fold | js/Spline.js:28-36 | the list being built always starts with the start point |
| Spline.FoldCount | js/Spline.js:36-103 | with turns of that size the list has between `1 + 5r` and `1 + (5 + |posts|)r` points for `r` ids that name a post |
| Spline.NoneResolved | js/Spline.js:36-38 | no id counts exactly when no id names a post |
| Spline.FoldLength | js/Spline.js:28-103 | points are only pushed, so the list holds the start point plus exactly the sum of what each turn appends |
| Spline.FoldPrefix | js/Spline.js:36-103 | points are only pushed: the list after fewer turns is a prefix of the list after more |
| Spline.FoldGrows | js/Spline.js:36-103 | the turn of an id naming a post adds at least five points |
| Spline.FoldOrder | js/Spline.js:36-103 | a later resolved target's points end past an earlier target's |
| Spline.FoldCenter | js/Spline.js:89-90 | the turn of a resolved target leaves its center third from the end, and later turns keep it there |
| Spline.PlannerStepShape | js/Spline.js:36-103 | the planner's turns have those sizes and put the target's center third from the end |
| Spline.WaypointCount | js/Spline.js:28-103 | there are exactly `1 + Σ(5 + kᵢ)` waypoints (`Turns`) over resolved targets, so between `1 + 5r` and `1 + (5 + |posts|)r` for `r` resolved targets, starting with the lifted start ring, and unresolved ids add nothing |
| Spline.WaypointsStep | js/Spline.js:36-100 | one turn of the loop adds five points plus one per detour the segment from the last point needs when the id names a post, and nothing otherwise |
| Spline.WaypointsExact | js/Spline.js:28-103 | after `n` turns there are exactly one start point plus `5 + kᵢ` for each resolved target among the first `n`, `kᵢ` its detours from the point before it |
| Spline.CentersInOrder | js/Spline.js:36-90 | resolved targets' centers appear in the order of `targetIds` |
| Spline.CenterLands | js/Spline.js:89-90 | every resolved target's center appears verbatim among the waypoints |
| Spline.PlanResult | js/Spline.js:25-112 | no curve exactly when the start is missing or no target id names a post; otherwise at least 6 points, the first the start center at flight height, with the configured type and tension |
| Spline.PassThrough | js/Spline.js:66-101 | the four pass points are the ones `PassGeometry` describes: before, center and after along the normal flipped to face the approach, then the climb |
| Spline.AppendBlock | js/Spline.js:37-102 | one loop turn for a resolved id appends exactly its block |
| Spline.CreateSimpleSplinePath | js/Spline.js:25-112 | the loop computes the plan whose properties `PlanResult`, `WaypointCount`, `CentersInOrder` and `CenterLands` state |
| Fire.MaxLifeOf | js/effects/FireEffect.js:91 | a particle's life span lies in `[0.8, 1.5)` |
| Fire.FirstInactive | js/effects/FireEffect.js:55 | `find` gives the first idle slot, or nothing exactly when every slot is in flight |
| Fire.Spawned | js/effects/FireEffect.js:53-100 | a spawn keeps the pool size and the slot invariant |
| Fire.ActiveCountFull | js/effects/FireEffect.js:55-56 | the pool is full exactly when every slot is in flight |
| Fire.ActiveCountEmpty | js/effects/FireEffect.js:44-51 | no slot is in flight exactly when the count is zero |
| Fire.ActiveCountUpdate | js/effects/FireEffect.js:90-92 | activating an idle slot adds one to the count |
| Fire.SpawnedSpec | js/effects/FireEffect.js:53-100 | a spawn activates only the first idle slot, with life 0 and a span in `[0.8, 1.5)`; it changes nothing on a full pool |
| Fire.SpawnedAll | js/effects/FireEffect.js:104-109 | a burst of spawns keeps the pool size and the slot invariant |
| Fire.SpawnedAllSpec | js/effects/FireEffect.js:104-109 | a burst fills as many idle slots as it has attempts, never more than the pool holds |
| Fire.AgedSpec | js/effects/FireEffect.js:112-166 | an idle slot is untouched; a slot ages by `deltaTime` and stays in flight exactly while life < span; a live slot has opacity in `(0,1]` and scale in `(0.5,1]` |
| Fire.FireEffect.constructor | js/effects/FireEffect.js:6-38 | the pool starts disabled with 200 idle, hidden slots of life 0 |
| Fire.FireEffect.Enable | js/effects/FireEffect.js:40-42 | only `enabled` changes |
| Fire.FireEffect.Disable | js/effects/FireEffect.js:44-51 | spawning stops, and every slot becomes idle and hidden with nothing else changed |
| Fire.FireEffect.SpawnParticle | js/effects/FireEffect.js:53-100 | the pool becomes the spawn result |
| Fire.FireEffect.Update | js/effects/FireEffect.js:102-168 | 8 (night) or 5 (day) attempts when enabled, none when disabled, then every slot is aged; the slot invariant holds |
| Fire.FireEffect.AgeParticles | js/effects/FireEffect.js:112-167 | every slot is aged by `deltaTime` and the slot invariant is kept |
| Fire.FireEffect.Dispose | js/effects/FireEffect.js:170-177 | the pool is emptied |
| Drone.PostIds | js/entities/DroneBall.js:46 | the ids of the posts, in order |
| Drone.WithoutSpec | js/entities/DroneBall.js:46 | the filter drops every copy of the start id and keeps every other id as often as it occurs |
| Drone.AvailableSpec | js/entities/DroneBall.js:46 | over numbered posts, each post but the start exactly once |
| Drone.RouteMembers | js/entities/DroneBall.js:46-47 | a route is a distinct arrangement of every post but the start |
| Drone.RouteSpec | js/entities/DroneBall.js:44-52 | with two or more posts the route ends on a post other than the start, and the planner returns a curve |
| Drone.DroneRanges | js/entities/DroneBall.js:29-37 | the scale is in `[1, 2)` and the speed in `[0.8, 1.2]` times the configured speed |
| Drone.StepSpec | js/entities/DroneBall.js:62-63 | a frame flies exactly `speed` units of arc, a positive share of the curve no more than `speed` |
| Drone.DroneBall.constructor | js/entities/DroneBall.js:15-41 | scale and speed drawn once, a fresh empty trail, then a first route planned from `startId` |
| Drone.DroneBall.PlanNewRoute | js/entities/DroneBall.js:43-54 | nothing happens with fewer than 2 posts; otherwise the curve is planned through the shuffled route, the next start is its last id, and progress is 0 |
| Drone.DroneBall.Update | js/entities/DroneBall.js:56-87 | no-op without a curve at least 1 long, the trail untouched; otherwise progress moves by `speed/len`; at 1 or more the drone restarts from the next start and replans (keeping curve, progress and next start with fewer than two posts) and leaves the trail alone; below it moves to the curve point and, only when a tangent exists, pushes a trail node and redraws the ribbon once it has two nodes |
| Trail.QuadVertices | js/effects/TrailRibbon.js:20-26 | each quad's two triangles name the four vertices of node `i` and node `i + 1` |
| Trail.StripIndices | js/effects/TrailRibbon.js:14-26 | `6·(maxPoints−1)` indices, quad after quad, all below `2·maxPoints` |
| Trail.TaperSpec | js/effects/TrailRibbon.js:88 | the taper is 1 at the head, strictly decreasing along the trail, and positive |
| Trail.VerticesStraddle | js/effects/TrailRibbon.js:89-92 | a node's two vertices straddle its position |
| Trail.SetPair | js/effects/TrailRibbon.js:94-102 | writes coordinates `6v..6v+5` and nothing else |
| Trail.LayOut | js/effects/TrailRibbon.js:84-117 | node `i` gets its tapered left and right vertices; the slots past the history collapse onto the oldest node |
| Trail.WingNonDegenerate | js/effects/TrailRibbon.js:56-62 | the wing vector always has squared length at least 0.1 |
| Trail.Pushed | js/effects/TrailRibbon.js:64-72 | the newest node is first and the history holds 1 to 20 nodes |
| Trail.PushedSpec | js/effects/TrailRibbon.js:64-72 | the older nodes keep their order, and only the oldest drops out once the history is full |
| Trail.TrailRibbon.constructor | js/effects/TrailRibbon.js:6-51 | empty history, the strip indices, a zeroed buffer of `maxPoints·2·3` numbers, a hidden mesh |
| Trail.TrailRibbon.Update | js/effects/TrailRibbon.js:53-128 | the node is pushed; with fewer than 2 nodes the buffer, visibility, draw range and opacity are untouched; otherwise the trail is drawn |
| Trail.TrailRibbon.Redraw | js/effects/TrailRibbon.js:74-127 | with 2 or more nodes: visible, the buffer laid out, draw range `6·(len−1)`, opacity 0.8 at night and 0.4 by day |
| Beacon.LookOf | js/effects/LightBeacon.js:65-79 | yellow gives 0.05 and 0.8, blue gives 0.3 and 1.2, any other colour 0.15 and 1.0 |
| Beacon.LookOrder | js/effects/LightBeacon.js:59-79 | the blue look is the strongest and the yellow the faintest, each reached only by its own colour |
| Beacon.RoundBeacons | js/effects/LightBeacon.js:59-79 | during a round the strongest beacon stands over exactly the current target and the middle look over exactly the passed rings |
| Beacon.LightBeacon.constructor | js/effects/LightBeacon.js:38-44 | a beacon starts hidden |
| Beacon.LightBeacon.Update | js/effects/LightBeacon.js:46-80 | by day only `visible` turns false; at night the beacon is visible, takes the ring's colour and the look of that colour |
| Fireflies.Spread | js/effects/CyberFireflies.js:30-36 | `(r − 0.5)·w` lies in `[−w/2, w/2)` |
| Fireflies.WrapSpec | js/effects/CyberFireflies.js:75-80 | a coordinate at most one box width outside moves by at most one width back inside; one inside is left alone |
| Fireflies.WrapHeight | js/effects/CyberFireflies.js:82-83 | above 50 a height resets to 0 and below 0 to 50, so it ends in `[0, 50]`; a height in range is kept |
| Fireflies.MovedBounds | js/effects/CyberFireflies.js:61-84 | after an update every height is in `[0, 50]`, and an inside x or z that moved at most one width stays inside |
| Fireflies.StartBounds | js/effects/CyberFireflies.js:29-37 | initial x and z are in `[−range/2, range/2)`, y in `[0, 40)`, velocities in `[−0.1, 0.1)` |
| Fireflies.CyberFireflies.constructor | js/effects/CyberFireflies.js:20-55 | both buffers hold `3·count` numbers, seeded from six draws per firefly |
| Fireflies.CyberFireflies.SeedOne | js/effects/CyberFireflies.js:29-37 | seeds the three coordinates of one firefly and touches no other slot |
| Fireflies.CyberFireflies.Update | js/effects/CyberFireflies.js:57-90 | each coordinate moves by `velocity·dt·10` and is wrapped; the velocities are unchanged; opacity is 0.8 or 0.4 plus the pulse |
| Fireflies.CyberFireflies.MoveOne | js/effects/CyberFireflies.js:61-84 | moves the three coordinates of one firefly and touches no other slot |
| Fireflies.CyberFireflies.SetNightMode | js/effects/CyberFireflies.js:92-101 | `0x00ffff` and size 0.8 at night, `0xffffaa` and size 0.4 by day |
| World.ColouredSpec | js/World.js:19-38 | in a round's colouring exactly the target under the cursor is blue, exactly the passed targets are red, and all others are yellow |
| World.PassedColoured | js/Main.js:144-174 | passing the target keeps the colouring in step with the cursor moved on by one |
| World.RoundStartColoured | js/World.js:19-38 | a new round's colours (all yellow, the first target blue) agree with a cursor at 0 |
| World.FirstFit | js/World.js:131-140 | the kept try is one of the 100 allowed |
| World.FirstFitSpec | js/World.js:131-142 | every try before the kept one was crowded, and the kept one is free unless the tries ran out |
| World.SpotsPrefix | js/World.js:143 | placing more posts leaves the earlier spots where they are |
| World.SpotsSpaced | js/World.js:121-143 | a post that found a free spot stands at least 10 from every earlier post |
| World.PostHeightRange | js/World.js:144 | `h` is in `[1, maxPostHeight]` |
| World.MakePostSpec | js/World.js:153-179 | post `i` has id `i`, ring height `h + 1.65`, and entry and exit 4 along the normal either side of the center |
| World.Course | js/World.js:125-184 | one post per placement, numbered in order |
| World.DroneStartSpec | js/World.js:196-200 | drone `i` starts on post `(i+1) mod n`, so up to `n` drones start on different posts |
| World.PlaceSpot | js/World.js:126-143 | the `do … while` keeps the first free try, or the 100th, after 1 to 100 attempts |
| World.PlacePosts | js/World.js:125-184 | the placement loop builds the course |
| World.MakeFires | js/World.js:166 | one fresh, disabled fire per post, all different |
| World.DisposeFires | js/World.js:63-67 | every old fire's pool is emptied |
| World.RoutePathOk | js/World.js:25-26 | a round's path is distinct posts of the course, none of them the start |
| World.SpawnDrones | js/World.js:196-200 | `numBalls` fresh drones, drone `i` starting at `(i+1) mod numPosts` with its drawn scale and speed |
| World.World.constructor | js/Globals.js:3-30 | no course, no round, cursor and progress 0 |
| World.World.StartPlayerRound | js/World.js:17-49 | rings reset; path is a shuffle of the other ids; an empty path only sets the error status; otherwise cursor 0, only the first target blue with its fire lit, the next start the last id, the curve planned and progress 0 |
| World.World.ChoosePath | js/World.js:25-26 | the path is the shuffled list of other ids; nothing else changes |
| World.World.BeginRound | js/World.js:33-48 | cursor 0, first target blue and lit, next start the last target (not the start), curve planned, progress 0, status with the target count |
| World.World.PlanCurve | js/World.js:42-43 | the round's curve is planned and progress reset; nothing else changes |
| World.World.Light | js/Main.js:144-174 | sets one ring's colour and glow, lights its fire for blue and stops it otherwise, and changes nothing else |
| World.World.ResetRings | js/World.js:19-23 | every ring turns yellow with no glow and its fire out |
| World.World.GenerateWorld | js/World.js:51-201 | old fires disposed; the placed course numbered in order; with more than one post the camera goes behind ring 0 and a round starts there; the drones start at `(i+1) mod n` |
| World.World.OpenFirstRound | js/World.js:186-194 | camera 15 behind ring 0 at flight height, then a round from post 0 through all other posts |
| World.World.RebuildCourse | js/World.js:62-184 | old fires disposed, the new course placed with yellow, unlit rings, and no drones yet |
| World.World.Install | js/World.js:69-75 | `postsData` replaced by the new posts, and the drones cleared |
| MainLoop.LookAtParam | js/Main.js:94-95 | `t = min(elapsed/duration, 1)` is at most 1, non-negative for non-negative elapsed time, and reaches 1 exactly when the time is up |
| MainLoop.LookAheadParam | js/Main.js:112-113 | the look-ahead parameter is never past the curve's end and, before it, strictly ahead of the camera |
| MainLoop.OppositeSigns | js/Main.js:135 | a product is negative exactly when its factors have strictly opposite signs |
| MainLoop.Crossed | js/Main.js:131-142 | a crossing is a strict sign change of the plane distance within 1.8 of the center; touching the plane never counts |
| MainLoop.Lapsed | js/Main.js:100-103 | the transition stops exactly when its time is up, and nothing else about it changes |
| MainLoop.GazeSpec | js/Main.js:92-116 | a transition starts at its start target and ends at its end target; with none, the gaze is the target center, or a curve point strictly ahead past the last target |
| MainLoop.Animator.constructor | js/Main.js:46-55 | the previous camera at the origin, no transition, a 3000 ms duration |
| MainLoop.Animator.Tick | js/Main.js:73-211 | without a curve longer than 1 nothing changes; otherwise progress moves by `speed/len`; at 1 or more a round starts at the next start; below it the camera moves, looks, and passes the ring it flew through; `previousCamera` is updated in every case |
| MainLoop.Animator.Advance | js/Main.js:76-84 | progress moves by `speed/len`, then either a new round or a move |
| MainLoop.Animator.Fly | js/Main.js:84-181 | the camera goes to the curve point, the gaze is taken, and the crossing is checked |
| MainLoop.Animator.Look | js/Main.js:90-118 | the gaze, and the transition stopped once its time is up |
| MainLoop.Animator.CheckCrossing | js/Main.js:120-180 | the target is passed exactly when a target remains and the camera flew through its ring; otherwise nothing changes |
| MainLoop.Animator.Pass | js/Main.js:144-178 | the ring turns red with its fire stopped; the cursor moves on by one; status shows the count left; a transition starts 20 ahead of the camera towards the next target, which turns blue and lit; past the last target the round is finished |

## Left out

- Rendering and scene management are not modelled: meshes, materials, geometry disposal, `camera.lookAt` and `mesh.lookAt`. The gaze is returned as a value.
- `getWorldDirection` is the `forward` input of `MainLoop.Animator.Tick`, and `performance.now()` is its `now` input.
- `updateSplineHelper` and the internals of `CatmullRomCurve3` are not modelled. `getLength`, `getPointAt`, `getTangentAt` and `normalize` are uninterpreted functions in `Three.Library`, with no interpolation proved.
- `js/Theme.js`, the DOM sliders and checkboxes, `updateFPS` and the `setTimeout` debounces are UI and I/O. `updateStatus` is modelled as a `Status` value.
- Sin and cos are not modelled. Ring normals are inputs to `World.World.GenerateWorld`.
- Fire particle motion, turbulence and HSL colours are not modelled. A slot keeps its life clock, flags, opacity and scale.
- The firefly sine wobble and opacity pulse are inputs. Float32 rounding of the firefly buffers is not modelled.
- The firefly `dispose` and the `!this.mesh` guards of `CyberFireflies` are not modelled, because the constructor always creates the mesh. Drone and trail `dispose` are not modelled either: they only release rendering resources.
- The tick's fan-out to the drones, fires, beacons and fireflies is not composed into one method. Each is modelled by its own `Update`.
- `Spline.PassDirection`: the source normalises the horizontal approach before the dot product. The model compares the unnormalised dot, which has the same sign for a non-zero vector. A zero approach normalises to zero in three.js, and it keeps the normal in both.
- `MainLoop.Crossed`: the radius `1.5 * 1.2` is taken as exactly 1.8, whereas in doubles it is 1.7999999999999998. The distance is compared squared.
- `Fire.FireEffect.Update` requires `deltaTime >= 0`, which a monotonic clock gives. It is needed for the slot invariant `life < maxLife`.
- `MainLoop.Animator.Tick` requires a consistent round (`RoundValid`). After `generateWorld` with one post or none, the previous round's path and curve stay in the source and may name posts that no longer exist; that stale state is not modelled.
- `MainLoop.Animator.Tick` takes the draws for a possible new round on every frame. Only the frame that starts a round uses them.
- `World.DroneStart`: with no posts, `(i + 1) % 0` is `NaN` in the source; the model uses -1, which names no post.
- `Trail.TrailRibbon.constructor`: three.js starts a new geometry's draw count at `Infinity`; the model starts it at 0. The mesh is hidden until the first draw sets the count, so nothing differs on screen.
- `Trail.Node`: the source stores the wing already multiplied by `width`, and the model applies the factor when laying out the vertices. The vertices are the same.
- `Drone.DroneBall.PlanNewRoute`: on an empty route, the source's `nextStartId` becomes `undefined`, and the model keeps the old value. Over numbered posts with two or more posts the route is never empty (`Drone.RouteSpec`).
- `World.World.GenerateWorld` creates the drones before the first round starts, not after it. The drones only read the new course, so the final state is the same.
