/** Three-component vectors over the reals, standing in for glm::vec3. */
module Vectors {

  datatype Vec3 = Vec3(x: real, y: real, z: real)

  /** Component-wise sum, glm's `operator+` on two vectors. */
  function Add(u: Vec3, v: Vec3): Vec3
  {
    Vec3(u.x + v.x, u.y + v.y, u.z + v.z)
  }

  /** Component-wise scaling, glm's `vec3 * float`. */
  function Scale(v: Vec3, s: real): Vec3
  {
    Vec3(v.x * s, v.y * s, v.z * s)
  }

  /** Adding `v` scaled by `a` and then by `b` is adding it once, scaled by `a + b`. */
  lemma AddScaleMerge(p: Vec3, v: Vec3, a: real, b: real)
    ensures Add(Add(p, Scale(v, a)), Scale(v, b)) == Add(p, Scale(v, a + b))
  {
  }
}
