/** The camera defaults of glwidget.h and the three-component vector the widget
    stores its position and rotation in. */
module Defaults {

  /** A QVector3D, with exact real components. */
  datatype Vec3 = Vec3(x: real, y: real, z: real)

  const DefaultXRot: real := 0.0
  const DefaultYRot: real := 0.0
  /** The starting depth of the camera, and the far end of the range it may move in. */
  const DefaultZPos: real := -10.0

  /** The camera depths setZPosition accepts: from DefaultZPos (inclusive)
      up to half of it (exclusive), so [-10, -5). */
  predicate InZRange(z: real) {
    DefaultZPos <= z < DefaultZPos / 2.0
  }
}
