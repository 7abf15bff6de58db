/**
 * The host engine's plain value types that the bar code passes around:
 * vectors and colours. Floats are modelled as reals.
 */
module Math {

  datatype Vec2 = Vec2(x: real, y: real)

  datatype Vec3 = Vec3(x: real, y: real, z: real)

  /** `Vec4`; the 2D material packs (value, width, height, border width) into x, y, z, w. */
  datatype Vec4 = Vec4(x: real, y: real, z: real, w: real)

  /** `Color` as the 3D material stores it. */
  datatype Color = Rgba(red: real, green: real, blue: real, alpha: real)

  /** `LinearRgba` as the 2D material stores it. */
  datatype LinearRgba = LinearRgba(red: real, green: real, blue: real, alpha: real)

  /** `Vec3::Y`. */
  const UnitY: Vec3 := Vec3(0.0, 1.0, 0.0)

  /** `k * v` for a scalar `k` and a vector `v`. */
  function Scale(k: real, v: Vec3): Vec3
  {
    Vec3(k * v.x, k * v.y, k * v.z)
  }
}
