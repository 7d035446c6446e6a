/**
  Two- and four-component real vectors, the part of glm's `dvec2` / `dvec4`
  that the particle code uses: component-wise sums, scaling by a scalar,
  the dot product and the planar cross product with the z axis.
 */
module Vectors {

  /** A point or a velocity in the plane (glm::dvec2). */
  datatype Vec2 = Vec2(x: real, y: real) {

    function Add(o: Vec2): Vec2 {
      Vec2(x + o.x, y + o.y)
    }

    function Sub(o: Vec2): Vec2 {
      Vec2(x - o.x, y - o.y)
    }

    function Scale(k: real): Vec2 {
      Vec2(k * x, k * y)
    }

    function Dot(o: Vec2): real {
      x * o.x + y * o.y
    }

    /** The z component of the 3D cross product of two planar vectors. */
    function Cross(o: Vec2): real {
      x * o.y - y * o.x
    }

    /** The squared length (glm::dot(v, v)). */
    function NormSq(): real {
      x * x + y * y
    }

    /** The planar part of `this × ẑ`: the vector turned a quarter turn clockwise. */
    function Turn(): (r: Vec2)
      ensures r.Dot(this) == 0.0
      ensures r.NormSq() == NormSq()
    {
      Vec2(y, -x)
    }
  }

  /**
    The integrated state (x, y, vx, vy) of one Runge–Kutta step
    (glm::dvec4 with components x, y, z, w).
   */
  datatype Vec4 = Vec4(x: real, y: real, z: real, w: real) {

    function Add(o: Vec4): Vec4 {
      Vec4(x + o.x, y + o.y, z + o.z, w + o.w)
    }

    function Scale(k: real): Vec4 {
      Vec4(k * x, k * y, k * z, k * w)
    }

    /** The first two components: the position. */
    function Position(): Vec2 {
      Vec2(x, y)
    }

    /** The last two components: the velocity. */
    function Velocity(): Vec2 {
      Vec2(z, w)
    }
  }
}
