/**
 * Vector values used by the terrain pipeline: Unity's Vector2, Vector3 and
 * Vector3Int. Single-precision components are modelled as `real`, so the
 * model has no rounding.
 */
module Geometry {

  datatype Vec2 = Vec2(x: real, y: real)

  datatype Vec3 = Vec3(x: real, y: real, z: real) {
    /** Component-wise sum (`a + b` on Vector3). */
    function Plus(other: Vec3): Vec3 {
      Vec3(x + other.x, y + other.y, z + other.z)
    }

    /** Component-wise division by two (`v / 2` on Vector3). */
    function Half(): Vec3 {
      Vec3(x / 2.0, y / 2.0, z / 2.0)
    }
  }

  datatype Vec3Int = Vec3Int(x: int, y: int, z: int) {
    function Plus(other: Vec3Int): Vec3Int {
      Vec3Int(x + other.x, y + other.y, z + other.z)
    }

    /** The implicit Vector3Int-to-Vector3 conversion. */
    function ToVec3(): Vec3 {
      Vec3(x as real, y as real, z as real)
    }
  }

  /** A vertex of the unit cube [0,1]^3. */
  predicate IsUnitCorner(v: Vec3) {
    (v.x == 0.0 || v.x == 1.0) && (v.y == 0.0 || v.y == 1.0) && (v.z == 0.0 || v.z == 1.0)
  }

  /** An integer offset to a vertex of the unit cube. */
  predicate IsUnitOffset(v: Vec3Int) {
    0 <= v.x <= 1 && 0 <= v.y <= 1 && 0 <= v.z <= 1
  }

  /** `v` lies in the closed box [lo, lo + size] on every axis. */
  predicate InBox(v: Vec3, lo: Vec3, size: Vec3) {
    && lo.x <= v.x <= lo.x + size.x
    && lo.y <= v.y <= lo.y + size.y
    && lo.z <= v.z <= lo.z + size.z
  }
}
