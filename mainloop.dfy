/**
 * The player's part of each frame of `animate` in `js/Main.js`: progress
 * along the round's curve, the camera's gaze with its single-phase
 * `lookAtTransition`, and the edge-triggered ring crossing that moves the
 * target cursor on.
 */
module MainLoop {
  import opened Vectors
  import opened Wrappers
  import opened Three
  import opened Config
  import opened Globals
  import opened Utils
  import opened Fire
  import opened Spline
  import opened Drone
  import opened World

  /** `lookAtTransition.duration`, in milliseconds. */
  const TransitionMs: real := 3000.0
  /** `lookAheadDistance`, in world units along the curve. */
  const LookAhead: real := 3.0
  /** `ringRadius` and the margin a crossing is allowed around it. */
  const RingRadius: real := 1.5
  const RingMargin: real := 1.2
  /** How far ahead of the camera a new transition starts looking. */
  const GlanceAhead: real := 20.0

  /** The `lookAtTransition` record. */
  datatype LookAtTransition = LookAtTransition(
    active: bool,
    startTime: real,
    duration: real,
    startTarget: Vec3,
    endTarget: Vec3)

  /** The record as the page loads it. */
  const Resting := LookAtTransition(false, 0.0, TransitionMs, Zero, Zero)

  /** `Math.min(elapsed / duration, 1)`: how far the transition has got, in `[0, 1]`, reaching 1 exactly once its time is up. */
  function LookAtParam(elapsed: real, duration: real): (t: real)
    requires duration > 0.0
    ensures t <= 1.0
    ensures elapsed >= 0.0 ==> t >= 0.0
    ensures t == 1.0 <==> elapsed >= duration
    ensures t < 1.0 ==> t * duration == elapsed
  {
    var q := elapsed / duration;
    DivideBack(q, duration);
    assert q * duration == elapsed;
    if q < 1.0 then q else 1.0
  }

  /** `Math.min(progress + lookAheadDistance / len, 1)`: a curve parameter ahead of the camera, never past the end. */
  function LookAheadParam(progress: real, len: real): (t: real)
    requires len > 0.0
    ensures t <= 1.0 && t <= progress + LookAhead / len
    ensures progress < 1.0 ==> progress < t
  {
    var ahead := LookAhead / len;
    DivideBack(ahead, len);
    FactorPositive(ahead, len);
    if progress + ahead < 1.0 then progress + ahead else 1.0
  }

  /** The signed distance of `p` from the plane through `center` with normal `normal`. */
  function PlaneDist(p: Vec3, center: Vec3, normal: Vec3): real {
    Dot(Sub(p, center), normal)
  }

  /** A product is negative exactly when its factors have strictly opposite signs. */
  lemma OppositeSigns(a: real, b: real)
    ensures a * b < 0.0 <==> (a < 0.0 < b) || (b < 0.0 < a)
  {
    if a < 0.0 && b < 0.0 {
      ProductPositive(-a, -b);
    } else if a > 0.0 && b > 0.0 {
      ProductPositive(a, b);
    } else if a < 0.0 < b {
      ProductPositive(-a, b);
    } else if b < 0.0 < a {
      ProductPositive(a, -b);
    }
  }

  /**
   * `crossedPlane && distanceToCenter < ringRadius * 1.2`, the distance
   * compared squared: the plane distance changes sign strictly, so a
   * frame that only touches the plane is no crossing, and the camera is
   * within 1.8 of the center.
   */
  function Crossed(cur: real, prev: real, distSq: real): (b: bool)
    ensures b <==> ((cur < 0.0 < prev) || (prev < 0.0 < cur)) && distSq < 1.8 * 1.8
    ensures cur == 0.0 || prev == 0.0 ==> !b
  {
    OppositeSigns(cur, prev);
    cur * prev < 0.0 && distSq < (RingRadius * RingMargin) * (RingRadius * RingMargin)
  }

  /** The camera, moved from `prev` to `cur`, flew through the ring of the target under cursor `idx`. */
  predicate Crosses(posts: seq<Post>, path: seq<int>, idx: int, prev: Vec3, cur: Vec3)
    requires PathOk(|posts|, path) && 0 <= idx
  {
    idx < |path|
    && var ring := posts[path[idx]];
       Crossed(PlaneDist(cur, ring.center, ring.normal), PlaneDist(prev, ring.center, ring.normal), DistSq(cur, ring.center))
  }

  /** The transition after this frame's check: a transition whose time is up stops. */
  function Lapsed(tr: LookAtTransition, now: real): (r: LookAtTransition)
    requires tr.duration > 0.0
    ensures r.active <==> tr.active && now - tr.startTime < tr.duration
    ensures r.startTime == tr.startTime && r.duration == tr.duration
    ensures r.startTarget == tr.startTarget && r.endTarget == tr.endTarget
  {
    if tr.active && LookAtParam(now - tr.startTime, tr.duration) >= 1.0 then tr.(active := false) else tr
  }

  /**
   * What the camera looks at this frame: along the running transition;
   * with none, at the center of the target under the cursor or, past the
   * last target, at the curve a little ahead.
   */
  function GazeAt(tr: LookAtTransition, now: real, posts: seq<Post>, path: seq<int>, idx: int,
                  lib: Library, c: Curve, progress: real, len: real): Vec3
    requires tr.duration > 0.0 && len > 0.0 && PathOk(|posts|, path) && 0 <= idx
  {
    if tr.active then Lerp(tr.startTarget, tr.endTarget, LookAtParam(now - tr.startTime, tr.duration))
    else if idx < |path| then posts[path[idx]].center
    else lib.pointAt(c, LookAheadParam(progress, len))
  }

  /**
   * A transition starts on the point it was given and, once its time is
   * up, rests on the next ring's center; with none running the gaze is
   * on the current target, or on the curve strictly ahead of the camera.
   */
  lemma {:induction false} GazeSpec(tr: LookAtTransition, now: real, posts: seq<Post>, path: seq<int>, idx: int,
                                    lib: Library, c: Curve, progress: real, len: real)
    requires tr.duration > 0.0 && len > 0.0 && PathOk(|posts|, path) && 0 <= idx
    ensures tr.active && now == tr.startTime ==> GazeAt(tr, now, posts, path, idx, lib, c, progress, len) == tr.startTarget
    ensures tr.active && now - tr.startTime >= tr.duration ==> GazeAt(tr, now, posts, path, idx, lib, c, progress, len) == tr.endTarget
    ensures !tr.active && idx < |path| ==> GazeAt(tr, now, posts, path, idx, lib, c, progress, len) == posts[path[idx]].center
    ensures !tr.active && idx >= |path| && progress < 1.0 ==>
      exists t :: progress < t <= 1.0 && GazeAt(tr, now, posts, path, idx, lib, c, progress, len) == lib.pointAt(c, t)
  {
    LerpEnds(tr.startTarget, tr.endTarget);
    if !tr.active && idx >= |path| && progress < 1.0 {
      var t := LookAheadParam(progress, len);
      assert progress < t <= 1.0 && GazeAt(tr, now, posts, path, idx, lib, c, progress, len) == lib.pointAt(c, t);
    }
  }

  /** `Main.js`'s loop variables: `previousCameraPosition` and `lookAtTransition`. */
  class Animator {
    var previousCamera: Vec3
    var lookAt: LookAtTransition

    /** The transition always lasts three seconds. */
    ghost predicate Valid()
      reads this
    {
      lookAt.duration == TransitionMs
    }

    /**
     * What the crossing check of a frame left, from the cursor `idx`, the
     * colours `colors`, the status `status` and the transition `tr` it
     * started with, and the camera's previous position `prev`: the target
     * passed when the camera flew through its ring, and nothing changed
     * otherwise.
     */
    ghost predicate Outcome(w: World, idx: int, colors: seq<int>, status: Status, prev: Vec3,
                            tr: LookAtTransition, now: real, forward: Vec3)
      reads this, w
    {
      0 <= idx && PathOk(|w.posts|, w.path)
      && if Crosses(w.posts, w.path, idx, prev, w.camera) then PassedState(w, idx, colors, tr, now, forward)
         else w.targetIdx == idx && w.ringColor == colors && w.status == status && lookAt == tr
    }

    /**
     * The state after the target under cursor `idx` was passed, from the
     * colours `colors` and the transition `tr` it was passed with.
     */
    ghost predicate PassedState(w: World, idx: int, colors: seq<int>, tr: LookAtTransition, now: real, forward: Vec3)
      reads this, w
    {
      0 <= idx < |w.path| && PathOk(|w.posts|, w.path) && |colors| == |w.posts|
      && w.targetIdx == idx + 1 && w.ringColor == Passed(colors, w.path, idx)
      && w.status == (if idx + 1 < |w.path| then Pending(|w.path| - (idx + 1)) else RoundFinished)
      && lookAt == LookAtTransition(true, now, tr.duration, Add(w.camera, Scale(forward, GlanceAhead)),
                                    if idx + 1 < |w.path| then w.posts[w.path[idx + 1]].center else tr.endTarget)
    }

    constructor ()
      ensures Valid() && previousCamera == Zero && lookAt == Resting
    {
      previousCamera := Zero;
      lookAt := Resting;
    }

    /**
     * The player's share of one `animate()` frame at time `now`. With a
     * curve longer than 1 the progress moves on by `speed / len`; on
     * reaching 1 a new round starts at the previous round's last target
     * and the camera stays put; otherwise the camera moves to the curve
     * point at the new progress, looks along the gaze, and passes the
     * target ring when it flew through it. The camera position is
     * remembered for the next frame in every case.
     */
    method Tick(w: World, cfg: Config, lib: Library, now: real, forward: Vec3, rands: seq<real>)
      returns (gaze: Option<Vec3>)
      requires Valid() && w.RoundValid()
      requires |rands| == |Available(w.posts, w.nextStartId)| && AllRandom(rands)
      modifies this, w, w.fires
      ensures Valid() && w.RoundValid() && previousCamera == w.camera
      ensures w.posts == old(w.posts) && w.fires == old(w.fires) && w.drones == old(w.drones)
      ensures !Flying(old(w.curve), lib) ==>
        gaze == None && lookAt == old(lookAt) && unchanged(w) && unchanged(w.fires)
      ensures Flying(old(w.curve), lib) && Advanced(old(w.progress), cfg, lib, old(w.curve)) >= 1.0 ==>
        gaze == None && lookAt == old(lookAt) && w.camera == old(w.camera)
        && w.path == Route(w.posts, old(w.nextStartId), rands)
        && (|w.path| > 0 ==>
              w.targetIdx == 0 && w.progress == 0.0 && w.status == Targets(|w.path|)
              && w.curve == Plan(w.posts, old(w.nextStartId), w.path, cfg))
        && (|w.path| == 0 ==>
              w.status == NotEnoughPosts && w.curve == old(w.curve)
              && w.progress == Advanced(old(w.progress), cfg, lib, old(w.curve)))
      ensures Flying(old(w.curve), lib) && Advanced(old(w.progress), cfg, lib, old(w.curve)) < 1.0 ==>
        var c := old(w.curve).value;
        var p := Advanced(old(w.progress), cfg, lib, old(w.curve));
        w.progress == p && w.curve == old(w.curve) && w.camera == lib.pointAt(c, p)
        && gaze == Some(GazeAt(old(lookAt), now, w.posts, w.path, old(w.targetIdx), lib, c, p, lib.length(c)))
        && w.path == old(w.path) && w.nextStartId == old(w.nextStartId)
        && Outcome(w, old(w.targetIdx), old(w.ringColor), old(w.status), old(previousCamera), Lapsed(old(lookAt), now), now, forward)
    {
      gaze := None;
      if w.curve.Some? && lib.length(w.curve.value) > 1.0 {
        gaze := Advance(w, cfg, lib, now, forward, rands);
      }
      previousCamera := w.camera;
    }

    /** A frame with a curve longer than 1: `progress += speed / len`, then a new round or a move. */
    method Advance(w: World, cfg: Config, lib: Library, now: real, forward: Vec3, rands: seq<real>)
      returns (gaze: Option<Vec3>)
      requires Valid() && w.RoundValid() && Flying(w.curve, lib)
      requires |rands| == |Available(w.posts, w.nextStartId)| && AllRandom(rands)
      modifies this, w, w.fires
      ensures Valid() && w.RoundValid() && previousCamera == old(previousCamera)
      ensures w.posts == old(w.posts) && w.fires == old(w.fires) && w.drones == old(w.drones)
      ensures Advanced(old(w.progress), cfg, lib, old(w.curve)) >= 1.0 ==>
        gaze == None && lookAt == old(lookAt) && w.camera == old(w.camera)
        && w.path == Route(w.posts, old(w.nextStartId), rands)
        && (|w.path| > 0 ==>
              w.targetIdx == 0 && w.progress == 0.0 && w.status == Targets(|w.path|)
              && w.curve == Plan(w.posts, old(w.nextStartId), w.path, cfg))
        && (|w.path| == 0 ==>
              w.status == NotEnoughPosts && w.curve == old(w.curve)
              && w.progress == Advanced(old(w.progress), cfg, lib, old(w.curve)))
      ensures Advanced(old(w.progress), cfg, lib, old(w.curve)) < 1.0 ==>
        var c := old(w.curve).value;
        var p := Advanced(old(w.progress), cfg, lib, old(w.curve));
        w.progress == p && w.curve == old(w.curve) && w.camera == lib.pointAt(c, p)
        && gaze == Some(GazeAt(old(lookAt), now, w.posts, w.path, old(w.targetIdx), lib, c, p, lib.length(c)))
        && w.path == old(w.path) && w.nextStartId == old(w.nextStartId)
        && Outcome(w, old(w.targetIdx), old(w.ringColor), old(w.status), old(previousCamera), Lapsed(old(lookAt), now), now, forward)
    {
      var c := w.curve.value;
      var len := lib.length(c);
      w.progress := w.progress + Step(cfg.speed, len);
      if w.progress >= 1.0 {
        gaze := None;
        w.StartPlayerRound(w.nextStartId, cfg, rands);
      } else {
        var target := Fly(w, lib, c, len, now, forward);
        gaze := Some(target);
      }
    }

    /** The moving half of a frame: the camera to the curve, the gaze, and the crossing check. */
    method Fly(w: World, lib: Library, c: Curve, len: real, now: real, forward: Vec3) returns (target: Vec3)
      requires Valid() && w.RoundValid() && len > 0.0
      modifies this, w, w.fires
      ensures Valid() && w.RoundValid() && previousCamera == old(previousCamera)
      ensures w.posts == old(w.posts) && w.fires == old(w.fires) && w.drones == old(w.drones)
      ensures w.progress == old(w.progress) && w.curve == old(w.curve) && w.camera == lib.pointAt(c, w.progress)
      ensures target == GazeAt(old(lookAt), now, w.posts, w.path, old(w.targetIdx), lib, c, w.progress, len)
      ensures w.path == old(w.path) && w.nextStartId == old(w.nextStartId)
      ensures Outcome(w, old(w.targetIdx), old(w.ringColor), old(w.status), previousCamera, Lapsed(old(lookAt), now), now, forward)
    {
      w.camera := lib.pointAt(c, w.progress);
      target := Look(w, lib, c, len, now);
      CheckCrossing(w, now, forward);
    }

    /** The gaze of this frame, and the transition stopped once its time is up. */
    method Look(w: World, lib: Library, c: Curve, len: real, now: real) returns (target: Vec3)
      requires Valid() && PathOk(|w.posts|, w.path) && 0 <= w.targetIdx && len > 0.0
      modifies this
      ensures Valid() && previousCamera == old(previousCamera) && lookAt == Lapsed(old(lookAt), now)
      ensures target == GazeAt(old(lookAt), now, w.posts, w.path, w.targetIdx, lib, c, w.progress, len)
    {
      if lookAt.active {
        var t := LookAtParam(now - lookAt.startTime, lookAt.duration);
        target := Lerp(lookAt.startTarget, lookAt.endTarget, t);
        if t >= 1.0 {
          lookAt := lookAt.(active := false);
        }
      } else if w.targetIdx < |w.path| {
        target := w.posts[w.path[w.targetIdx]].center;
      } else {
        target := lib.pointAt(c, LookAheadParam(w.progress, len));
      }
    }

    /** The crossing test, made only while a target remains. */
    method CheckCrossing(w: World, now: real, forward: Vec3)
      requires Valid() && w.RoundValid()
      modifies this, w, w.fires
      ensures Valid() && w.RoundValid() && previousCamera == old(previousCamera)
      ensures w.posts == old(w.posts) && w.fires == old(w.fires) && w.drones == old(w.drones)
      ensures w.progress == old(w.progress) && w.curve == old(w.curve) && w.camera == old(w.camera)
      ensures w.path == old(w.path) && w.nextStartId == old(w.nextStartId)
      ensures Outcome(w, old(w.targetIdx), old(w.ringColor), old(w.status), previousCamera, old(lookAt), now, forward)
    {
      if w.targetIdx < |w.path| {
        var ring := w.posts[w.path[w.targetIdx]];
        var cur := PlaneDist(w.camera, ring.center, ring.normal);
        var prev := PlaneDist(previousCamera, ring.center, ring.normal);
        if Crossed(cur, prev, DistSq(w.camera, ring.center)) {
          Pass(w, now, forward);
        }
      }
    }

    /**
     * Flying through the target: its ring turns red and its fire goes out,
     * the cursor moves on by one, a transition starts from 20 ahead of the
     * camera towards the next target, which turns blue with its fire lit;
     * past the last target the round is finished.
     */
    method Pass(w: World, now: real, forward: Vec3)
      requires Valid() && w.RoundValid() && w.targetIdx < |w.path|
      modifies this, w, w.fires
      ensures Valid() && w.RoundValid() && previousCamera == old(previousCamera)
      ensures w.posts == old(w.posts) && w.fires == old(w.fires) && w.drones == old(w.drones)
      ensures w.progress == old(w.progress) && w.curve == old(w.curve) && w.camera == old(w.camera)
      ensures w.path == old(w.path) && w.nextStartId == old(w.nextStartId)
      ensures PassedState(w, old(w.targetIdx), old(w.ringColor), old(lookAt), now, forward)
      ensures ActiveCount(w.fires[w.path[old(w.targetIdx)]].pool) == 0
    {
      var idx := w.targetIdx;
      PassedColoured(|w.posts|, w.path, idx, w.ringColor);
      w.Light(w.path[idx], Red);
      w.targetIdx := idx + 1;
      w.status := Pending(|w.path| - w.targetIdx);
      lookAt := lookAt.(active := true, startTime := now, startTarget := Add(w.camera, Scale(forward, GlanceAhead)));
      if w.targetIdx < |w.path| {
        lookAt := lookAt.(endTarget := w.posts[w.path[w.targetIdx]].center);
        w.Light(w.path[w.targetIdx], Blue);
      } else {
        w.status := RoundFinished;
      }
    }
  }

  /** `playerCurve` exists and is longer than 1, so the player moves this frame. */
  predicate Flying(curve: Option<Curve>, lib: Library) {
    curve.Some? && lib.length(curve.value) > 1.0
  }

  /** `playerProgress + CONFIG.speed / len`. */
  function Advanced(progress: real, cfg: Config, lib: Library, curve: Option<Curve>): real
    requires Flying(curve, lib)
  {
    progress + Step(cfg.speed, lib.length(curve.value))
  }
}
