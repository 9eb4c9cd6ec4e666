/** glm's small vector types, with exact real components standing in for 32-bit floats. */
module Vectors {

  /** glm::vec2: a texture coordinate (x is U, y is V). */
  datatype Vec2 = Vec2(x: real, y: real)

  /** glm::vec3: a position, a scale or a translation. */
  datatype Vec3 = Vec3(x: real, y: real, z: real) {

    /** Component-wise sum, glm's `operator+` on vec3. */
    function Plus(o: Vec3): Vec3 {
      Vec3(x + o.x, y + o.y, z + o.z)
    }

    /** Component-wise difference, glm's `operator-` on vec3. */
    function Minus(o: Vec3): Vec3 {
      Vec3(x - o.x, y - o.y, z - o.z)
    }
  }

  const Zero3 := Vec3(0.0, 0.0, 0.0)
  const One3 := Vec3(1.0, 1.0, 1.0)
}
