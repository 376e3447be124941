/** The mutable `CONFIG` record; the sliders that change it are not modelled. */
module Config {
  import opened Three

  datatype Config = Config(
    speed: real,
    height: real,
    terrainSize: real,
    numPosts: nat,
    numBalls: nat,
    preRingDistance: real,
    maxPostHeight: real,
    splineTension: real,
    curveType: CurveType,
    isNight: bool,
    showSpline: bool,
    firefliesCount: nat)

  /** The values the record starts with. */
  const Default := Config(0.25, 25.0, 300.0, 20, 5, 15.0, 10.0, 0.0, Chordal, false, false, 700)
}
