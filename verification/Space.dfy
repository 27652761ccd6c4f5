/** Integer boxes of `klotho-core`. */
module Space {
  import opened Prelude

  datatype Vec3 = Vec3(x: int, y: int, z: int)

  /** A closed axis-aligned box, empty when a minimum exceeds its maximum. */
  datatype Aabb = Aabb(min: Vec3, max: Vec3) {
    predicate IsEmpty() { min.x > max.x || min.y > max.y || min.z > max.z }

    predicate Intersects(other: Aabb) {
      && !IsEmpty() && !other.IsEmpty()
      && min.x <= other.max.x && other.min.x <= max.x
      && min.y <= other.max.y && other.min.y <= max.y
      && min.z <= other.max.z && other.min.z <= max.z
    }

    predicate ContainsPoint(p: Vec3) {
      && !IsEmpty()
      && min.x <= p.x <= max.x
      && min.y <= p.y <= max.y
      && min.z <= p.z <= max.z
    }
  }

  predicate IsI32Vec(v: Vec3) { IsI32(v.x) && IsI32(v.y) && IsI32(v.z) }
}
