/** The attribute data of the cone mesh (hw07/cone.js), as values.

    For `segments` faces the builder emits one triangle per face i: the base
    circle vertices at angles i*step and (i+1)*step (step = 2*PI/segments) at
    y = -HALF_HEIGHT, then the apex (0, HALF_HEIGHT, 0). Every attribute stream
    is the concatenation, face after face, of what one face pushes; `Stream`
    says exactly that, and `StreamAt` turns it into facts about single
    entries. */
module ConeGeometry {
  import opened Vectors
  import opened Optional

  const Radius: real := 0.5
  const HalfHeight: real := 0.5
  const DefaultColor: seq<real> := [0.8, 0.8, 0.8, 1.0]
  const Apex: Vec3 := Vec3(0.0, HalfHeight, 0.0)

  /** A colour option is usable when it has at least the three channels read. */
  predicate ColorOk(option: Option<seq<real>>) {
    option.Some? ==> |option.value| >= 3
  }

  /** Everything the mesh depends on: host numerics, face count, chosen colour. */
  datatype Params = Params(num: Numerics, segments: nat, rgb: seq<real>) {
    predicate Valid() {
      segments > 0 && |rgb| >= 3
    }
  }

  datatype Attribute = Position | Normal | Color | TexCoord

  /** Floats one face contributes to a stream. */
  function Width(a: Attribute): nat {
    if a == TexCoord then 6 else 9
  }

  /** The angle between neighbouring base vertices (hw07/cone.js:22), a helper
      of Angle. */
  function AngleStep(p: Params): real
    requires p.Valid()
  {
    2.0 * p.num.pi / p.segments as real
  }

  /** angle0 of face i, which is also angle1 of face i - 1 (hw07/cone.js:36-37).
      A helper of BaseVertex. */
  function Angle(p: Params, i: int): real
    requires p.Valid()
  {
    i as real * AngleStep(p)
  }

  /** Base-circle vertex number i, at angle i * step: on the plane
      y = -HalfHeight and, when cos and sin satisfy cos^2 + sin^2 = 1, at
      distance Radius from the axis. */
  function BaseVertex(p: Params, i: int): (r: Vec3)
    requires p.Valid()
    ensures r.y == -HalfHeight
    ensures Pythagorean(p.num.cos, p.num.sin) ==> r.x * r.x + r.z * r.z == Radius * Radius
  {
    Vec3(Radius * p.num.cos(Angle(p, i)), -HalfHeight, Radius * p.num.sin(Angle(p, i)))
  }

  /** cross(v2 - v0, v1 - v0) for face i, before normalisation: perpendicular
      to both edges of the face. */
  function RawFaceNormal(p: Params, i: int): (r: Vec3)
    requires p.Valid()
    ensures var v0 := BaseVertex(p, i);
      Dot(r, Sub(BaseVertex(p, i + 1), v0)) == 0.0 && Dot(r, Sub(Apex, v0)) == 0.0
  {
    var v0 := BaseVertex(p, i);
    Cross(Sub(Apex, v0), Sub(BaseVertex(p, i + 1), v0))
  }

  /** The normalised face normal: perpendicular to both edges of the face as
      long as normalize only rescales. */
  function FaceNormal(p: Params, i: int): (r: Vec3)
    requires p.Valid()
    ensures var v0 := BaseVertex(p, i);
      KeepsPerpendicular(p.num.normalize) ==>
        Dot(r, Sub(BaseVertex(p, i + 1), v0)) == 0.0 && Dot(r, Sub(Apex, v0)) == 0.0
  {
    p.num.normalize(RawFaceNormal(p, i))
  }

  /** The RGB triple every slot receives. */
  function FaceColor(p: Params): seq<real>
    requires p.Valid()
  {
    [p.rgb[0], p.rgb[1], p.rgb[2]]
  }

  /** t repeated k times; the inner `for k < 3` loops push this. */
  function Rep(t: seq<real>, k: nat): (r: seq<real>)
    ensures |r| == |t| * k
  {
    if k == 0 then [] else Rep(t, k - 1) + t
  }

  /** What face i pushes onto the stream of attribute a. */
  function FaceData(p: Params, a: Attribute, i: nat): (r: seq<real>)
    requires p.Valid()
    ensures |r| == Width(a)
  {
    match a
    case Position =>
      Components(BaseVertex(p, i)) + Components(BaseVertex(p, i + 1)) + Components(Apex)
    case Normal =>
      var n := Components(FaceNormal(p, i));
      n + n + n
    case Color =>
      var c := FaceColor(p);
      c + c + c
    case TexCoord =>
      var u0 := i as real / p.segments as real;
      var u1 := (i + 1) as real / p.segments as real;
      [u0, 0.0, u1, 0.0, u1, 1.0]
  }

  /** The stream of attribute a after the first k faces. */
  function Stream(p: Params, a: Attribute, k: nat): (r: seq<real>)
    requires p.Valid()
    ensures |r| == Width(a) * k
  {
    if k == 0 then [] else Stream(p, a, k - 1) + FaceData(p, a, k - 1)
  }

  /** Entry j of face i sits at Width(a) * i + j, for every face already pushed. */
  lemma {:induction false} StreamAt(p: Params, a: Attribute, k: nat, i: nat, j: nat)
    requires p.Valid() && i < k && j < Width(a)
    ensures Width(a) * i + j < |Stream(p, a, k)|
    ensures Stream(p, a, k)[Width(a) * i + j] == FaceData(p, a, i)[j]
  {
    var w := Width(a);
    var prev := Stream(p, a, k - 1);
    assert Stream(p, a, k) == prev + FaceData(p, a, k - 1);
    assert |prev| == w * (k - 1);
    if i < k - 1 {
      StreamAt(p, a, k - 1, i, j);
    } else {
      assert w * i == |prev|;
    }
  }

  /** The position stream holds three floats for each of the 3 * segments
      vertex slots. */
  lemma PositionCount(p: Params)
    requires p.Valid()
    ensures |Stream(p, Position, p.segments)| == 9 * p.segments
    ensures |Stream(p, Position, p.segments)| % 3 == 0
  {
    var s := p.segments;
    assert Width(Position) == 9;
    assert |Stream(p, Position, s)| == 9 * s;
    assert 9 * s == 3 * (3 * s);
    SlotsOfThree(3 * s);
  }

  /** A stream of k slots of three floats divides into slots. */
  lemma SlotsOfThree(k: nat)
    ensures (3 * k) % 3 == 0
  {
  }

  /** The index list after k faces: face f pushes 3f, 3f+1, 3f+2. */
  function IndexStream(k: nat): (r: seq<int>)
    ensures |r| == 3 * k
    ensures forall s :: 0 <= s < 3 * k ==> r[s] == s
  {
    if k == 0 then [] else IndexStream(k - 1) + [3 * (k - 1), 3 * (k - 1) + 1, 3 * (k - 1) + 2]
  }

  /** new Uint16Array(list): every value is taken modulo 2^16. */
  function Uint16(s: seq<int>): (r: seq<int>)
    ensures |r| == |s|
    ensures forall k :: 0 <= k < |s| ==> 0 <= r[k] < 65536
    ensures forall k :: 0 <= k < |s| && 0 <= s[k] < 65536 ==> r[k] == s[k]
  {
    seq(|s|, k requires 0 <= k < |s| => s[k] % 65536)
  }

  // ---------------------------------------------------------------------
  // Smooth (per-slot) vertex normals

  /** computeVertexNormals for one slot: (x, 0, z) scaled by 1/sqrt(x*x + z*z),
      or straight up when that length is not positive. A positive length
      scales the result back to (x, 0, z). */
  function SlotNormal(sqrt: real -> real, x: real, z: real): (r: Vec3)
    ensures var len := sqrt(x * x + z * z);
      && (len > 0.0 ==> r.y == 0.0 && r.x * len == x && r.z * len == z)
      && (!(len > 0.0) ==> r == Vec3(0.0, 1.0, 0.0))
  {
    var len := sqrt(x * x + z * z);
    if len > 0.0 then Vec3(x / len, 0.0, z / len) else Vec3(0.0, 1.0, 0.0)
  }

  /** The two branches of SlotNormal, for a length computed separately. A proof
      step of ComputeVertexNormals. */
  lemma SlotNormalCases(sqrt: real -> real, x: real, z: real, len: real)
    requires len == sqrt(x * x + z * z)
    ensures len > 0.0 ==> SlotNormal(sqrt, x, z) == Vec3(x / len, 0.0, z / len)
    ensures !(len > 0.0) ==> SlotNormal(sqrt, x, z) == Vec3(0.0, 1.0, 0.0)
  {
    if len > 0.0 {
      assert SlotNormal(sqrt, x, z) == Vec3(x / len, 0.0, z / len);
    } else {
      assert SlotNormal(sqrt, x, z) == Vec3(0.0, 1.0, 0.0);
    }
  }

  /** With Math.sqrt the non-negative square root, every smooth normal is a
      unit vector. */
  lemma SlotNormalIsUnit(sqrt: real -> real, x: real, z: real)
    requires SqrtIsRoot(sqrt)
    ensures var r := SlotNormal(sqrt, x, z);
      r.x * r.x + r.y * r.y + r.z * r.z == 1.0
  {
    var len := sqrt(x * x + z * z);
    var r := SlotNormal(sqrt, x, z);
    assert x * x + z * z >= 0.0;
    assert len * len == x * x + z * z;
    if len > 0.0 {
      var a, b := r.x * r.x, r.z * r.z;
      var m := len * len;
      assert r.x * len == x && r.z * len == z;
      assert x * x == a * m by {
        assert x * x == (r.x * len) * (r.x * len);
      }
      assert z * z == b * m by {
        assert z * z == (r.z * len) * (r.z * len);
      }
      assert m == x * x + z * z;
      calc {
        (a + b) * (len * len);
        a * m + b * m;
        x * x + z * z;
        len * len;
      }
      UnitFactor(a + b, len);
    }
  }

  /** A factor that leaves a positive square unchanged is 1. */
  lemma UnitFactor(q: real, len: real)
    requires len > 0.0 && q * (len * len) == len * len
    ensures q == 1.0
  {
    PositiveSquare(len);
    assert (q - 1.0) * (len * len) == 0.0;
  }

  lemma PositiveSquare(t: real)
    requires t > 0.0
    ensures t * t > 0.0
  {
  }

  /** The smooth normals of the first k vertex slots of vs, three floats each. */
  function SmoothPrefix(sqrt: real -> real, vs: seq<real>, k: nat): (r: seq<real>)
    requires 3 * k <= |vs|
    ensures |r| == 3 * k
  {
    if k == 0 then []
    else SmoothPrefix(sqrt, vs, k - 1) + Components(SlotNormal(sqrt, vs[3 * (k - 1)], vs[3 * (k - 1) + 2]))
  }

  /** The whole vertexNormals buffer for a flat vertex array. */
  function SmoothNormals(sqrt: real -> real, vs: seq<real>): (r: seq<real>)
    requires |vs| % 3 == 0
    ensures |r| == |vs|
  {
    SmoothPrefix(sqrt, vs, |vs| / 3)
  }

  /** The smooth normal is (0, 1, 0) exactly for a vertex on the axis, and
      horizontal for every other vertex. */
  lemma SlotNormalOnAxis(sqrt: real -> real, x: real, z: real)
    requires SqrtSeparatesZero(sqrt)
    ensures SlotNormal(sqrt, x, z) == Vec3(0.0, 1.0, 0.0) <==> x == 0.0 && z == 0.0
    ensures !(x == 0.0 && z == 0.0) ==> SlotNormal(sqrt, x, z).y == 0.0
  {
    if x == 0.0 && z == 0.0 {
      assert x * x + z * z == 0.0;
    } else {
      assert x * x > 0.0 || z * z > 0.0;
      assert x * x + z * z > 0.0;
    }
  }

  /** Slot v of the vertexNormals buffer is the smooth normal of slot v's vertex. */
  lemma SmoothNormalsAt(sqrt: real -> real, vs: seq<real>, v: nat)
    requires |vs| % 3 == 0 && 3 * v + 2 < |vs|
    ensures var n := SlotNormal(sqrt, vs[3 * v], vs[3 * v + 2]);
      SmoothNormals(sqrt, vs)[3 * v] == n.x &&
      SmoothNormals(sqrt, vs)[3 * v + 1] == n.y &&
      SmoothNormals(sqrt, vs)[3 * v + 2] == n.z
  {
    SmoothPrefixAt(sqrt, vs, |vs| / 3, v);
  }

  lemma {:induction false} SmoothPrefixAt(sqrt: real -> real, vs: seq<real>, k: nat, v: nat)
    requires 3 * k <= |vs| && v < k
    ensures var n := SlotNormal(sqrt, vs[3 * v], vs[3 * v + 2]);
      var r := SmoothPrefix(sqrt, vs, k);
      r[3 * v] == n.x && r[3 * v + 1] == n.y && r[3 * v + 2] == n.z
  {
    var prev := SmoothPrefix(sqrt, vs, k - 1);
    var last := Components(SlotNormal(sqrt, vs[3 * (k - 1)], vs[3 * (k - 1) + 2]));
    assert SmoothPrefix(sqrt, vs, k) == prev + last;
    if v < k - 1 {
      SmoothPrefixAt(sqrt, vs, k - 1, v);
    } else {
      assert 3 * v == |prev|;
    }
  }
}
