/** Integer 3-vectors: block indices, chunk positions and neighbour offsets. */
module Vectors {

  datatype Vec3 = Vec3(x: int, y: int, z: int)

  const ZERO := Vec3(0, 0, 0)

  function Add(a: Vec3, b: Vec3): Vec3 {
    Vec3(a.x + b.x, a.y + b.y, a.z + b.z)
  }

  function Sub(a: Vec3, b: Vec3): Vec3 {
    Vec3(a.x - b.x, a.y - b.y, a.z - b.z)
  }

  function Neg(a: Vec3): Vec3 {
    Vec3(-a.x, -a.y, -a.z)
  }

  function Dot(a: Vec3, b: Vec3): int {
    a.x * b.x + a.y * b.y + a.z * b.z
  }

  /** A component of a relation offset: one of -1, 0, 1. */
  predicate IsUnitComponent(c: int) {
    -1 <= c <= 1
  }

  /** An offset in {-1,0,1}^3: the index space of a chunk's 27-slot neighbour table. */
  predicate IsOffset(d: Vec3) {
    IsUnitComponent(d.x) && IsUnitComponent(d.y) && IsUnitComponent(d.z)
  }

  /** A unit vector along exactly one axis. */
  predicate IsAxisUnit(v: Vec3) {
    || ((v.x == 1 || v.x == -1) && v.y == 0 && v.z == 0)
    || (v.x == 0 && (v.y == 1 || v.y == -1) && v.z == 0)
    || (v.x == 0 && v.y == 0 && (v.z == 1 || v.z == -1))
  }
}
