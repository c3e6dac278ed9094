/** Three-component vectors over the reals (the gl-matrix `vec3` operations the
    cone builder uses) and the host numerics it borrows: Math.PI, Math.cos,
    Math.sin, Math.sqrt and vec3.normalize. The host functions are not defined
    here: they are values of a `Numerics` record handed to the builder, and the
    few facts a proof needs about them are stated as predicates that a lemma
    requires. */
module Vectors {

  datatype Vec3 = Vec3(x: real, y: real, z: real)

  /** vec3.subtract(out, a, b): the vector that takes b to a. */
  function Sub(a: Vec3, b: Vec3): (r: Vec3)
    ensures Vec3(b.x + r.x, b.y + r.y, b.z + r.z) == a
  {
    Vec3(a.x - b.x, a.y - b.y, a.z - b.z)
  }

  function Dot(a: Vec3, b: Vec3): real {
    a.x * b.x + a.y * b.y + a.z * b.z
  }

  /** vec3.cross(out, a, b): a vector perpendicular to both operands. */
  function Cross(a: Vec3, b: Vec3): (r: Vec3)
    ensures Dot(r, a) == 0.0 && Dot(r, b) == 0.0
  {
    Vec3(a.y * b.z - a.z * b.y, a.z * b.x - a.x * b.z, a.x * b.y - a.y * b.x)
  }

  /** The three floats a vector contributes to a flat attribute array. */
  function Components(v: Vec3): (r: seq<real>)
    ensures |r| == 3 && r[0] == v.x && r[1] == v.y && r[2] == v.z
  {
    [v.x, v.y, v.z]
  }

  /** The host's numeric primitives, left abstract: any total functions. */
  datatype Numerics = Numerics(
    pi: real,
    cos: real -> real,
    sin: real -> real,
    sqrt: real -> real,
    normalize: Vec3 -> Vec3)

  /** What the smooth-normal branch needs of Math.sqrt: zero exactly at zero. */
  ghost predicate SqrtSeparatesZero(sqrt: real -> real) {
    sqrt(0.0) == 0.0 && forall t :: t > 0.0 ==> sqrt(t) > 0.0
  }

  /** What the smooth normals need of Math.sqrt to be unit vectors: it is the
      non-negative square root. */
  ghost predicate SqrtIsRoot(sqrt: real -> real) {
    forall t :: t >= 0.0 ==> sqrt(t) >= 0.0 && sqrt(t) * sqrt(t) == t
  }

  /** What the face normal needs of vec3.normalize: it only rescales its
      argument, so whatever is perpendicular to v is perpendicular to the
      result. */
  ghost predicate KeepsPerpendicular(normalize: Vec3 -> Vec3) {
    forall v, e :: Dot(v, e) == 0.0 ==> Dot(normalize(v), e) == 0.0
  }

  /** cos(a)^2 + sin(a)^2 == 1 for every angle. */
  ghost predicate Pythagorean(cos: real -> real, sin: real -> real) {
    forall a :: cos(a) * cos(a) + sin(a) * sin(a) == 1.0
  }
}
