/**
 * `js/effects/CyberFireflies.js`: a cloud of points drifting in a box
 * `range` wide and 50 high, wrapping round at its sides, with a flat
 * position buffer of three numbers per firefly.
 */
module Fireflies {
  import opened Utils

  /** The height the cloud starts within, and the height it wraps at. */
  const StartHeight: real := 40.0
  const Ceiling: real := 50.0

  /** Point colours and sizes by day and by night, and as created. */
  const DayColor: int := 0xffffaa
  const NightColor: int := 0x00ffff
  const NewColor: int := 0xffff00

  /** `(r - 0.5) * width`: a random draw spread over `[-width/2, width/2)`. */
  function Spread(r: real, width: real): (x: real)
    requires IsRandom(r) && width >= 0.0
    ensures -width / 2.0 <= x && (width > 0.0 ==> x < width / 2.0)
  {
    var c := r - 0.5;
    assert -0.5 <= c < 0.5;
    ProductBounds(c, width);
    c * width
  }

  /** For `-0.5 <= c < 0.5`, `c * w` lies in `[-w/2, w/2)` for positive `w`. */
  lemma ProductBounds(c: real, w: real)
    requires -0.5 <= c < 0.5 && w >= 0.0
    ensures -w / 2.0 <= c * w && (w > 0.0 ==> c * w < w / 2.0)
  {
    assert (c + 0.5) * w >= 0.0 by {
      assert c + 0.5 >= 0.0;
    }
    if w > 0.0 {
      assert (0.5 - c) * w > 0.0 by {
        assert 0.5 - c > 0.0;
      }
    }
  }

  /** The wrap of a horizontal coordinate: past one side of the box it re-enters from the other. */
  function Wrap(x: real, range: real): real {
    var half := range / 2.0;
    var x1 := if x > half then x - range else x;
    if x1 < -half then x1 + range else x1
  }

  /**
   * A coordinate at most one box width outside the box is brought back
   * inside by moving it a whole width at most once, and one inside is
   * left alone.
   */
  lemma WrapSpec(x: real, range: real)
    requires range >= 0.0 && -range / 2.0 - range <= x <= range / 2.0 + range
    ensures -range / 2.0 <= Wrap(x, range) <= range / 2.0
    ensures Wrap(x, range) == x || Wrap(x, range) == x - range || Wrap(x, range) == x + range
    ensures -range / 2.0 <= x <= range / 2.0 ==> Wrap(x, range) == x
  {
  }

  /** The wrap of a height: above the ceiling it restarts at the ground, below the ground at the ceiling. */
  function WrapHeight(y: real): (h: real)
    ensures 0.0 <= h <= Ceiling
    ensures 0.0 <= y <= Ceiling ==> h == y
    ensures y > Ceiling ==> h == 0.0
    ensures y < 0.0 ==> h == Ceiling
  {
    var y1 := if y > Ceiling then 0.0 else y;
    if y1 < 0.0 then Ceiling else y1
  }

  /** `x + velocity * deltaTime * 10`: a coordinate moved for one frame. */
  function Drift(x: real, velocity: real, dt: real): real {
    x + velocity * dt * 10.0
  }

  /** Coordinate `k` of the buffer after one `update`: moved by `velocity * deltaTime * 10`, the height also by its firefly's wobble, then wrapped. */
  function MovedAt(p: seq<real>, v: seq<real>, dt: real, wobble: seq<real>, range: real, k: int): real
    requires |v| == |p| && |p| == 3 * |wobble| && 0 <= k < |p|
  {
    var moved := Drift(p[k], v[k], dt);
    if k % 3 == 1 then WrapHeight(moved + wobble[k / 3]) else Wrap(moved, range)
  }

  /** The whole buffer after one `update`. */
  function Moved(p: seq<real>, v: seq<real>, dt: real, wobble: seq<real>, range: real): (q: seq<real>)
    requires |v| == |p| && |p| == 3 * |wobble|
    ensures |q| == |p|
  {
    seq(|p|, k requires 0 <= k < |p| => MovedAt(p, v, dt, wobble, range, k))
  }

  /**
   * After an `update` every height lies in `[0, 50]`, and a horizontal
   * coordinate that was inside the box and moved at most a box width in
   * the frame is inside the box again.
   */
  lemma {:induction false} MovedBounds(p: seq<real>, v: seq<real>, dt: real, wobble: seq<real>, range: real, k: int)
    requires |v| == |p| && |p| == 3 * |wobble| && 0 <= k < |p| && range >= 0.0
    ensures k % 3 == 1 ==> 0.0 <= Moved(p, v, dt, wobble, range)[k] <= Ceiling
    ensures k % 3 != 1 && -range / 2.0 <= p[k] <= range / 2.0
            && -range <= v[k] * dt * 10.0 <= range ==>
      -range / 2.0 <= Moved(p, v, dt, wobble, range)[k] <= range / 2.0
  {
    var moved := Drift(p[k], v[k], dt);
    if k % 3 != 1 && -range / 2.0 <= p[k] <= range / 2.0 && -range <= v[k] * dt * 10.0 <= range {
      WrapSpec(moved, range);
    }
  }

  /** The width velocity components are spread over. */
  const VelocityWidth: real := 0.2

  /** The draw a firefly's coordinate `k` of the flat buffer starts from: the `k % 3`-th of its six, or the `3 + k % 3`-th for its velocity. */
  function Draw(rands: seq<real>, k: int, velocity: bool): (r: real)
    requires 0 <= k && 6 * (k / 3) + 6 <= |rands| && AllRandom(rands)
    ensures IsRandom(r)
  {
    rands[6 * (k / 3) + (if velocity then 3 else 0) + k % 3]
  }

  /** Coordinate `k` of the position buffer as created. */
  function StartPosition(rands: seq<real>, range: real, k: int): real
    requires 0 <= k && 6 * (k / 3) + 6 <= |rands| && AllRandom(rands) && range >= 0.0
  {
    if k % 3 == 1 then Draw(rands, k, false) * StartHeight else Spread(Draw(rands, k, false), range)
  }

  /** Coordinate `k` of the velocity buffer as created. */
  function StartVelocity(rands: seq<real>, k: int): real
    requires 0 <= k && 6 * (k / 3) + 6 <= |rands| && AllRandom(rands)
  {
    Spread(Draw(rands, k, true), VelocityWidth)
  }

  /**
   * A new cloud lies within the box, below height 40, and every velocity
   * component is in `[-0.1, 0.1)`.
   */
  lemma StartBounds(rands: seq<real>, range: real, k: int)
    requires 0 <= k && 6 * (k / 3) + 6 <= |rands| && AllRandom(rands) && range > 0.0
    ensures k % 3 == 1 ==> 0.0 <= StartPosition(rands, range, k) < StartHeight
    ensures k % 3 != 1 ==> -range / 2.0 <= StartPosition(rands, range, k) < range / 2.0
    ensures -0.1 <= StartVelocity(rands, k) < 0.1
  {
    var r := Draw(rands, k, false);
    if k % 3 == 1 {
      assert r * StartHeight < StartHeight;
    }
  }

  /** Coordinate `c` of firefly `i` sits at `3 * i + c` of the flat buffer. */
  lemma SlotOf(i: nat, k: int, c: int)
    requires 0 <= c < 3 && k == 3 * i + c
    ensures k / 3 == i && k % 3 == c
  {
  }

  /** A `CyberFireflies` cloud: its buffers and its point material. */
  class CyberFireflies {
    const count: nat
    const range: real
    /** The position buffer: x, y, z of each firefly in turn. */
    const positions: array<real>
    const velocities: array<real>
    var color: int
    var size: real
    var opacity: real

    /** Both buffers hold three numbers per firefly and are distinct. */
    ghost predicate Valid()
      reads this
    {
      positions.Length == 3 * count && velocities.Length == 3 * count && positions != velocities
    }

    /**
     * A cloud of `count` fireflies in a box `range` wide, drawing six
     * random numbers per firefly: x, y and z of its position, then of its
     * velocity.
     */
    constructor (count: nat, range: real, rands: seq<real>)
      requires |rands| == 6 * count && AllRandom(rands) && range >= 0.0
      ensures Valid() && this.count == count && this.range == range
      ensures fresh(positions) && fresh(velocities)
      ensures color == NewColor && size == 0.5 && opacity == 0.6
      ensures forall k :: 0 <= k < 3 * count ==>
        positions[k] == StartPosition(rands, range, k) && velocities[k] == StartVelocity(rands, k)
    {
      this.count := count;
      this.range := range;
      positions := new real[3 * count];
      velocities := new real[3 * count];
      color := NewColor;
      size := 0.5;
      opacity := 0.6;
      new;
      for i := 0 to count
        invariant Valid() && color == NewColor && size == 0.5 && opacity == 0.6
        invariant forall k :: 0 <= k < 3 * i ==>
          positions[k] == StartPosition(rands, range, k) && velocities[k] == StartVelocity(rands, k)
      {
        SeedOne(i, rands);
      }
    }

    /** The body of the constructor's loop for firefly `i`: its position and velocity drawn. */
    method SeedOne(i: nat, rands: seq<real>)
      requires Valid() && |rands| == 6 * count && AllRandom(rands) && range >= 0.0 && i < count
      modifies positions, velocities
      ensures forall k :: 0 <= k < 3 * count && (k < 3 * i || 3 * i + 3 <= k) ==>
        positions[k] == old(positions[k]) && velocities[k] == old(velocities[k])
      ensures forall k :: 3 * i <= k < 3 * i + 3 ==>
        positions[k] == StartPosition(rands, range, k) && velocities[k] == StartVelocity(rands, k)
    {
      var ix, iy, iz := 3 * i, 3 * i + 1, 3 * i + 2;
      SlotOf(i, ix, 0);
      SlotOf(i, iy, 1);
      SlotOf(i, iz, 2);
      positions[ix] := Spread(rands[6 * i], range);
      positions[iy] := rands[6 * i + 1] * StartHeight;
      positions[iz] := Spread(rands[6 * i + 2], range);
      velocities[ix] := Spread(rands[6 * i + 3], VelocityWidth);
      velocities[iy] := Spread(rands[6 * i + 4], VelocityWidth);
      velocities[iz] := Spread(rands[6 * i + 5], VelocityWidth);
      assert positions[ix] == StartPosition(rands, range, ix) && velocities[ix] == StartVelocity(rands, ix);
      assert positions[iy] == StartPosition(rands, range, iy) && velocities[iy] == StartVelocity(rands, iy);
      assert positions[iz] == StartPosition(rands, range, iz) && velocities[iz] == StartVelocity(rands, iz);
    }

    /**
     * `update(time, deltaTime)`: every firefly moves by its velocity and
     * its height by `wobble` (the sine wave, one value per firefly), each
     * coordinate wrapped at the box; the velocities stay as they are, and
     * the opacity pulses by `pulse` around 0.8 at night or 0.4 by day.
     */
    method Update(deltaTime: real, wobble: seq<real>, isNight: bool, pulse: real)
      requires Valid() && |wobble| == count
      modifies positions, this
      ensures Valid() && color == old(color) && size == old(size)
      ensures positions[..] == Moved(old(positions[..]), velocities[..], deltaTime, wobble, range)
      ensures opacity == (if isNight then 0.8 else 0.4) + pulse
    {
      for i := 0 to count
        invariant Valid() && color == old(color) && size == old(size)
        invariant forall k :: 0 <= k < 3 * i ==>
          positions[k] == MovedAt(old(positions[..]), velocities[..], deltaTime, wobble, range, k)
        invariant forall k :: 3 * i <= k < positions.Length ==> positions[k] == old(positions[k])
      {
        MoveOne(i, deltaTime, wobble);
      }
      assert positions[..] == Moved(old(positions[..]), velocities[..], deltaTime, wobble, range);
      opacity := (if isNight then 0.8 else 0.4) + pulse;
    }

    /** The body of `update`'s loop for firefly `i`: its three coordinates moved and wrapped. */
    method MoveOne(i: nat, deltaTime: real, wobble: seq<real>)
      requires Valid() && |wobble| == count && i < count
      modifies positions
      ensures forall k :: 0 <= k < positions.Length && (k < 3 * i || 3 * i + 3 <= k) ==> positions[k] == old(positions[k])
      ensures forall k :: 3 * i <= k < 3 * i + 3 ==>
        positions[k] == MovedAt(old(positions[..]), velocities[..], deltaTime, wobble, range, k)
    {
      ghost var p, v := positions[..], velocities[..];
      var ix, iy, iz := 3 * i, 3 * i + 1, 3 * i + 2;
      SlotOf(i, ix, 0);
      SlotOf(i, iy, 1);
      SlotOf(i, iz, 2);
      positions[ix] := Wrap(Drift(positions[ix], velocities[ix], deltaTime), range);
      positions[iy] := WrapHeight(Drift(positions[iy], velocities[iy], deltaTime) + wobble[i]);
      positions[iz] := Wrap(Drift(positions[iz], velocities[iz], deltaTime), range);
      assert positions[ix] == MovedAt(p, v, deltaTime, wobble, range, ix);
      assert positions[iy] == MovedAt(p, v, deltaTime, wobble, range, iy);
      assert positions[iz] == MovedAt(p, v, deltaTime, wobble, range, iz);
    }

    /** `setNightMode(isNight)`: cyan points of size 0.8 at night, pale yellow of size 0.4 by day. */
    method SetNightMode(isNight: bool)
      modifies this
      ensures isNight ==> color == NightColor && size == 0.8
      ensures !isNight ==> color == DayColor && size == 0.4
      ensures opacity == old(opacity)
    {
      if isNight {
        color := NightColor;
        size := 0.8;
      } else {
        color := DayColor;
        size := 0.4;
      }
    }
  }
}
