/**
 * The three.js curve the planner's waypoints are handed to. Its
 * interpolation is a library we do not model: a `Library` value carries
 * the library's answers as total functions, so every operation that
 * needs one takes it as a parameter and nothing is assumed about it.
 */
module Three {
  import opened Vectors
  import opened Wrappers

  /** `curve.curveType`. */
  datatype CurveType = Uniform | Chordal | Centripetal

  /** A `CatmullRomCurve3` as constructed: its control points and settings. */
  datatype Curve = Curve(points: seq<Vec3>, curveType: CurveType, tension: real)

  /**
   * `getLength`, `getPointAt`, `getTangentAt` of a curve, and
   * `Vector3.normalize`.
   */
  datatype Library = Library(
    length: Curve -> real,
    pointAt: (Curve, real) -> Vec3,
    tangentAt: (Curve, real) -> Option<Vec3>,
    normalize: Vec3 -> Vec3)
}
