/**
 * Shared value types of the world: points in space and the objects the
 * scene builder places.  Three.js meshes, geometries and materials are not
 * modelled; an object is its kind (with the size and colour parameters the
 * builder passes for it) and the position it is placed at.
 */
module Geometry {

  /** A point or offset in world space, `Vector3` with exact reals. */
  datatype Vec3 = Vec3(x: real, y: real, z: real)

  function Add(a: Vec3, b: Vec3): Vec3
  {
    Vec3(a.x + b.x, a.y + b.y, a.z + b.z)
  }

  function Sub(a: Vec3, b: Vec3): Vec3
  {
    Vec3(a.x - b.x, a.y - b.y, a.z - b.z)
  }

  /** What a placed mesh is. */
  datatype Kind =
    | Ground
      // the second road is the first one turned a quarter turn about y
    | Road(crossing: bool)
    | LaneMarker
    | Building(width: real, height: int, depth: real, color: int)
    | Window(width: real)
    | TreeTrunk
    | TreeCanopy

  /** One mesh added to the scene: its kind and its position. */
  datatype Placed = Placed(kind: Kind, at: Vec3)
}
