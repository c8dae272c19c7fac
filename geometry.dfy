/** Engine value types used by the gameplay scripts: vectors, rotations,
    poses. Components are exact reals; float rounding is not modelled. */
module Geometry {

  datatype Option<T> = None | Some(value: T)

  /** A 2D screen position in pixels (a touch or mouse position). */
  datatype Vec2 = Vec2(x: real, y: real)

  /** A 3D world position or direction. */
  datatype Vec3 = Vec3(x: real, y: real, z: real)

  /** A rotation quaternion, kept as its four components. */
  datatype Quat = Quat(w: real, x: real, y: real, z: real)

  /** Where an object sits in the world: a position and a rotation. */
  datatype Pose = Pose(position: Vec3, rotation: Quat)

  /** The identity rotation. */
  const IDENTITY: Quat := Quat(1.0, 0.0, 0.0, 0.0)

  /** The unit vectors pointing left and right along the world x axis. */
  const LEFT: Vec3 := Vec3(-1.0, 0.0, 0.0)
  const RIGHT: Vec3 := Vec3(1.0, 0.0, 0.0)

  function Add(a: Vec3, b: Vec3): Vec3 {
    Vec3(a.x + b.x, a.y + b.y, a.z + b.z)
  }

  function Scale(v: Vec3, k: real): Vec3 {
    Vec3(v.x * k, v.y * k, v.z * k)
  }

  function Abs(x: real): (r: real)
    ensures r >= 0.0 && (r == x || r == -x)
  {
    if x < 0.0 then -x else x
  }
}
