/** Points and directions in the scene's world space. */
module Space {

  /** A 3-component coordinate, written `[x, y, z]` in the renderer. */
  datatype Vec3 = Vec3(x: real, y: real, z: real)

  const Origin: Vec3 := Vec3(0.0, 0.0, 0.0)
}
