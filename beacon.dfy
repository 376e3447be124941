/**
 * `js/effects/LightBeacon.js`: the light column above a ring, shown only
 * at night, whose strength follows the ring's colour.
 */
module Beacon {
  import opened Globals
  import opened World

  /** The material colour a cloned beacon material starts with (white). */
  const White: int := 0xffffff

  /** How a beacon is drawn: its opacity and its uniform scale. */
  datatype Look = Look(opacity: real, scale: real)

  /**
   * The beacon's look for a ring colour: faint and small for an idle
   * (yellow) ring, strong and large for the target (blue), in between for
   * any other colour, such as a passed (red) ring.
   */
  function LookOf(hex: int): (l: Look)
    ensures hex == Yellow ==> l == Look(0.05, 0.8)
    ensures hex == Blue ==> l == Look(0.3, 1.2)
    ensures hex != Yellow && hex != Blue ==> l == Look(0.15, 1.0)
  {
    if hex == Yellow then Look(0.05, 0.8)
    else if hex == Blue then Look(0.3, 1.2)
    else Look(0.15, 1.0)
  }

  /** The target's beacon outshines a passed ring's, which outshines an idle ring's. */
  lemma LookOrder(hex: int)
    ensures LookOf(Yellow).opacity <= LookOf(hex).opacity <= LookOf(Blue).opacity
    ensures LookOf(Yellow).scale <= LookOf(hex).scale <= LookOf(Blue).scale
    ensures LookOf(hex) == LookOf(Blue) <==> hex == Blue
    ensures LookOf(hex) == LookOf(Yellow) <==> hex == Yellow
  {
  }

  /**
   * During a round, the strongest beacon stands over exactly the target
   * under the cursor, and the dimmed one (opacity 0.15) over exactly the
   * rings already passed.
   */
  lemma {:induction false} RoundBeacons(n: nat, path: seq<int>, idx: int, colors: seq<int>, k: int)
    requires Coloured(n, path, idx, colors) && 0 <= k < n
    ensures LookOf(colors[k]) == LookOf(Blue) <==> idx < |path| && k == path[idx]
    ensures LookOf(colors[k]) == Look(0.15, 1.0) <==> exists j :: 0 <= j < |path| && j < idx && path[j] == k
  {
    ColouredSpec(n, path, idx, colors, k);
    LookOrder(colors[k]);
  }

  /** A `LightBeacon`: the beacon mesh's visibility and material. */
  class LightBeacon {
    var visible: bool
    var color: int
    var opacity: real
    var scale: real

    /** A new beacon is hidden, with the shared material's settings. */
    constructor ()
      ensures !visible && color == White && opacity == 0.0 && scale == 1.0
    {
      visible := false;
      color := White;
      opacity := 0.0;
      scale := 1.0;
    }

    /**
     * `update()` for a ring of colour `ringColor`: by day the beacon is
     * hidden and nothing else changes; at night it is shown in the ring's
     * colour with the look that colour calls for.
     */
    method Update(isNight: bool, ringColor: int)
      modifies this
      ensures !isNight ==> !visible && color == old(color) && opacity == old(opacity) && scale == old(scale)
      ensures isNight ==> visible && color == ringColor && Look(opacity, scale) == LookOf(ringColor)
    {
      if !isNight {
        visible := false;
        return;
      }
      visible := true;
      color := ringColor;
      var l := LookOf(ringColor);
      opacity := l.opacity;
      scale := l.scale;
    }
  }
}
