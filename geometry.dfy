/** Vector values shared by the calibration controller and the UDP decoder
    (Unity's Vector2 / Vector3 as plain records of reals). */
module Geometry {

  datatype Vec2 = Vec2(x: real, y: real)

  datatype Vec3 = Vec3(x: real, y: real, z: real)
}
