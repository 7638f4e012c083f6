/** Three-component vectors over the reals. They stand for Bevy's `Vec3` and
    for the `[f64; 3]` arrays of an SGP4 prediction; f32/f64 rounding and the
    casts between the two widths are not modelled. */
module Vectors {

  datatype Vec3 = Vec3(x: real, y: real, z: real)

  const Zero := Vec3(0.0, 0.0, 0.0)

  function Add(a: Vec3, b: Vec3): Vec3 {
    Vec3(a.x + b.x, a.y + b.y, a.z + b.z)
  }

  function Scale(a: Vec3, k: real): Vec3 {
    Vec3(a.x * k, a.y * k, a.z * k)
  }
}
