/**
 Value types shared by the mesh generators, the Phong effect and the forward
 rendering system: vectors, matrices and the scene components that are only
 ever copied around.

 Floating-point vectors are modelled with `real` components. Nothing in the
 modelled code does arithmetic on them beyond negation, halving and
 multiplication by +1/-1, which are exact in IEEE arithmetic as well.
 */
module Common {

  datatype Option<+T> = None | Some(value: T)

  datatype Vec2 = Vec2(x: real, y: real)
  datatype Vec3 = Vec3(x: real, y: real, z: real)
  datatype Vec4 = Vec4(x: real, y: real, z: real, w: real)

  /** `glm::vec3{}` and `glm::vec4{}`: every component zero. */
  const Zero3 := Vec3(0.0, 0.0, 0.0)
  const Zero4 := Vec4(0.0, 0.0, 0.0, 0.0)

  /** `glm::vec4{c, w}`: a vec3 widened by a fourth component. */
  function Widen(c: Vec3, w: real): Vec4
  {
    Vec4(c.x, c.y, c.z, w)
  }

  /** A 4x4 matrix: its sixteen entries, column-major as glm stores them.
      The model never computes with a matrix; it only copies it. */
  datatype Mat4 = Mat4(entries: seq<real>)

  /** The Transform component: the world matrix returned by getTransform()
      and the translation returned by getPosition(). Both are read from a
      header that is not part of this model, so they are kept side by side. */
  datatype Transform = Transform(matrix: Mat4, position: Vec3)

  /** The Light component: its colour. Its position comes from the Transform
      of the same entity. */
  datatype Light = Light(color: Vec3)

  /** The ProjectionCamera component: its projection matrix. */
  datatype Camera = Camera(projection: Mat4)

  /** The Material component as the effect reads it. */
  datatype Material = Material(albedo: Vec3, emission: Vec3)

  /** A texture object, identified by its GL texture name. */
  datatype Texture = Texture(id: nat)

  /** A render target, opaque to the model. */
  datatype Framebuffer = Framebuffer(id: nat)

  /** Behaviour of code outside the model that the rendering system depends
      on: `glm::inverse`, and the values that the default constructors of
      `glm::mat4`, `fw::Transform` and `fw::Light` produce. */
  datatype Externals = Externals(
    inverse: Mat4 -> Mat4,
    defaultMatrix: Mat4,
    defaultTransform: Transform,
    defaultLight: Light)

  /** Concatenation is associative; stated once so that long concatenations
      can be regrouped in a single step. */
  lemma AppendAssociates<T>(x: seq<T>, y: seq<T>, z: seq<T>)
    ensures (x + y) + z == x + (y + z)
  {
  }
}
