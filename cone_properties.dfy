/** What the cone builder's streams hold, entry by entry (hw07/cone.js:35-151):
    the attribute streams of all `segments` faces, stated per face and per
    vertex slot. Slot v of a stream of triples occupies entries 3v .. 3v+2;
    face i owns slots 3i, 3i+1, 3i+2. */
module ConeProperties {
  import opened Vectors
  import opened ConeGeometry

  /** The attribute streams stay parallel: 9n floats of positions, normals and
      colours, 6n of texture coordinates and 3n indices for n faces, i.e.
      three vertex slots per face in every stream. */
  lemma StreamLengths(p: Params)
    requires p.Valid()
    ensures var n := p.segments;
      && |Stream(p, Position, n)| == 9 * n && |Stream(p, Normal, n)| == 9 * n
      && |Stream(p, Color, n)| == 9 * n && |Stream(p, TexCoord, n)| == 6 * n
      && |IndexStream(n)| == 3 * n
  {
    assert Width(Position) == 9 && Width(Normal) == 9 && Width(Color) == 9 && Width(TexCoord) == 6;
  }

  /** Face i's slots 3i and 3i+1 are the base-circle vertices at angles i*step
      and (i+1)*step on y = -HalfHeight; slot 3i+2 is the apex. */
  lemma {:induction false} FacePositions(p: Params, i: nat)
    requires p.Valid() && i < p.segments
    ensures var s := Stream(p, Position, p.segments);
      var a0 := Angle(p, i);
      var a1 := Angle(p, i + 1);
      && 9 * i + 8 < |s|
      && s[9 * i] == Radius * p.num.cos(a0) && s[9 * i + 1] == -HalfHeight
      && s[9 * i + 2] == Radius * p.num.sin(a0)
      && s[9 * i + 3] == Radius * p.num.cos(a1) && s[9 * i + 4] == -HalfHeight
      && s[9 * i + 5] == Radius * p.num.sin(a1)
      && s[9 * i + 6] == 0.0 && s[9 * i + 7] == HalfHeight && s[9 * i + 8] == 0.0
  {
    var a0 := Angle(p, i);
    var a1 := Angle(p, i + 1);
    assert BaseVertex(p, i) == Vec3(Radius * p.num.cos(a0), -HalfHeight, Radius * p.num.sin(a0));
    assert BaseVertex(p, i + 1) == Vec3(Radius * p.num.cos(a1), -HalfHeight, Radius * p.num.sin(a1));
    assert FaceData(p, Position, i)
      == Components(BaseVertex(p, i)) + Components(BaseVertex(p, i + 1)) + Components(Apex);
    StreamAt(p, Position, p.segments, i, 0);
    StreamAt(p, Position, p.segments, i, 1);
    StreamAt(p, Position, p.segments, i, 2);
    StreamAt(p, Position, p.segments, i, 3);
    StreamAt(p, Position, p.segments, i, 4);
    StreamAt(p, Position, p.segments, i, 5);
    StreamAt(p, Position, p.segments, i, 6);
    StreamAt(p, Position, p.segments, i, 7);
    StreamAt(p, Position, p.segments, i, 8);
  }

  /** The second base vertex of face i is the first base vertex of face i+1:
      neighbouring faces meet, though they never share a slot. */
  lemma AdjacentFacesMeet(p: Params, i: nat)
    requires p.Valid() && i + 1 < p.segments
    ensures var s := Stream(p, Position, p.segments);
      9 * i + 11 < |s| &&
      s[9 * i + 3] == s[9 * (i + 1)] && s[9 * i + 4] == s[9 * (i + 1) + 1] &&
      s[9 * i + 5] == s[9 * (i + 1) + 2]
  {
    FacePositions(p, i);
    FacePositions(p, i + 1);
  }

  /** The face normal of face i is written identically to all three of its slots. */
  lemma FaceNormalShared(p: Params, i: nat, k: nat)
    requires p.Valid() && i < p.segments && k < 3
    ensures var s := Stream(p, Normal, p.segments);
      var n := FaceNormal(p, i);
      9 * i + 3 * k + 2 < |s| &&
      s[9 * i + 3 * k] == n.x && s[9 * i + 3 * k + 1] == n.y && s[9 * i + 3 * k + 2] == n.z
  {
    var c := Components(FaceNormal(p, i));
    assert FaceData(p, Normal, i) == c + c + c;
    assert FaceData(p, Normal, i)[3 * k .. 3 * k + 3] == c;
    StreamAt(p, Normal, p.segments, i, 3 * k);
    StreamAt(p, Normal, p.segments, i, 3 * k + 1);
    StreamAt(p, Normal, p.segments, i, 3 * k + 2);
  }

  /** Every slot's colour is the chosen RGB; the stream stores three floats per
      slot, so alpha is never stored. */
  lemma {:induction false} ColorsReplicated(p: Params, v: nat)
    requires p.Valid() && v < 3 * p.segments
    ensures var s := Stream(p, Color, p.segments);
      |s| == 3 * (3 * p.segments) &&
      s[3 * v] == p.rgb[0] && s[3 * v + 1] == p.rgb[1] && s[3 * v + 2] == p.rgb[2]
  {
    var i, k := v / 3, v % 3;
    assert 3 * v == 9 * i + 3 * k;
    StreamAt(p, Color, p.segments, i, 3 * k);
    StreamAt(p, Color, p.segments, i, 3 * k + 1);
    StreamAt(p, Color, p.segments, i, 3 * k + 2);
  }

  /** Face i's texture coordinates are (i/n, 0), ((i+1)/n, 0), ((i+1)/n, 1). */
  lemma FaceTexCoords(p: Params, i: nat)
    requires p.Valid() && i < p.segments
    ensures var s := Stream(p, TexCoord, p.segments);
      var n := p.segments as real;
      6 * i + 5 < |s| &&
      s[6 * i] == i as real / n && s[6 * i + 1] == 0.0 &&
      s[6 * i + 2] == (i + 1) as real / n && s[6 * i + 3] == 0.0 &&
      s[6 * i + 4] == (i + 1) as real / n && s[6 * i + 5] == 1.0
  {
    StreamAt(p, TexCoord, p.segments, i, 0);
    StreamAt(p, TexCoord, p.segments, i, 1);
    StreamAt(p, TexCoord, p.segments, i, 2);
    StreamAt(p, TexCoord, p.segments, i, 3);
    StreamAt(p, TexCoord, p.segments, i, 4);
    StreamAt(p, TexCoord, p.segments, i, 5);
  }

  /** Every texture coordinate lies in [0, 1]. */
  lemma TexCoordsInUnitRange(p: Params, e: nat)
    requires p.Valid() && e < 6 * p.segments
    ensures 0.0 <= Stream(p, TexCoord, p.segments)[e] <= 1.0
  {
    var i, j := e / 6, e % 6;
    assert e == 6 * i + j;
    FaceTexCoords(p, i);
    var n := p.segments as real;
    UnitFraction(i as real, n);
    UnitFraction((i + 1) as real, n);
  }

  lemma UnitFraction(a: real, n: real)
    requires 0.0 <= a <= n && n > 0.0
    ensures 0.0 <= a / n <= 1.0
  {
    var q := a / n;
    assert q * n == a;
  }

  /** The seam: face 0 starts at u = 0 and face n-1 ends at u = 1. */
  lemma TexCoordSeam(p: Params)
    requires p.Valid()
    ensures var s := Stream(p, TexCoord, p.segments);
      var last := 6 * (p.segments - 1);
      s[0] == 0.0 && s[last + 2] == 1.0 && s[last + 4] == 1.0
  {
    FaceTexCoords(p, 0);
    FaceTexCoords(p, p.segments - 1);
  }

  /** Face i's indices are 3i, 3i+1, 3i+2; every index names a vertex slot, and
      no two index entries name the same slot. */
  lemma IndicesOwnTheirSlots(p: Params, i: nat)
    requires p.Valid() && i < p.segments
    ensures var idx := IndexStream(p.segments);
      var slots := |Stream(p, Position, p.segments)| / 3;
      && |idx| == slots
      && idx[3 * i] == 3 * i && idx[3 * i + 1] == 3 * i + 1 && idx[3 * i + 2] == 3 * i + 2
      && (forall s :: 0 <= s < |idx| ==> 0 <= idx[s] < slots)
      && (forall s, t :: 0 <= s < t < |idx| ==> idx[s] != idx[t])
  {
  }

  /** Every apex slot gets the smooth normal (0, 1, 0) exactly. */
  lemma ApexSmoothNormal(p: Params, i: nat)
    requires p.Valid() && i < p.segments && SqrtSeparatesZero(p.num.sqrt)
    ensures var vs := Stream(p, Position, p.segments);
      var vn := SmoothNormals(p.num.sqrt, vs);
      9 * i + 8 < |vn| && vn[9 * i + 6] == 0.0 && vn[9 * i + 7] == 1.0 && vn[9 * i + 8] == 0.0
  {
    var vs := Stream(p, Position, p.segments);
    PositionCount(p);
    ApexOnAxis(p, i);
    UprightOnAxis(p.num.sqrt, vs, 3 * i + 2);
  }

  lemma UprightOnAxis(sqrt: real -> real, vs: seq<real>, v: nat)
    requires SqrtSeparatesZero(sqrt)
    requires |vs| % 3 == 0 && 3 * v + 2 < |vs| && vs[3 * v] == 0.0 && vs[3 * v + 2] == 0.0
    ensures var vn := SmoothNormals(sqrt, vs);
      vn[3 * v] == 0.0 && vn[3 * v + 1] == 1.0 && vn[3 * v + 2] == 0.0
  {
    SmoothNormalsAt(sqrt, vs, v);
    SlotNormalOnAxis(sqrt, 0.0, 0.0);
  }

  /** Slot 3i + 2 of every face is the apex, on the axis. */
  lemma ApexOnAxis(p: Params, i: nat)
    requires p.Valid() && i < p.segments
    ensures var s := Stream(p, Position, p.segments);
      9 * i + 8 < |s| && s[9 * i + 6] == 0.0 && s[9 * i + 8] == 0.0
  {
    StreamAt(p, Position, p.segments, i, 6);
    StreamAt(p, Position, p.segments, i, 8);
  }

  /** Every base slot gets a horizontal smooth normal (y-component 0). */
  lemma BaseSmoothNormal(p: Params, i: nat)
    requires p.Valid() && i < p.segments
    requires SqrtSeparatesZero(p.num.sqrt) && Pythagorean(p.num.cos, p.num.sin)
    ensures var vn := SmoothNormals(p.num.sqrt, Stream(p, Position, p.segments));
      9 * i + 4 < |vn| && vn[9 * i + 1] == 0.0 && vn[9 * i + 4] == 0.0
  {
    BaseSlotHorizontal(p, i, 0);
    BaseSlotHorizontal(p, i, 1);
  }

  /** Base slot 3i + k (k = 0 or 1) gets a horizontal smooth normal. */
  lemma BaseSlotHorizontal(p: Params, i: nat, k: nat)
    requires p.Valid() && i < p.segments && k < 2
    requires SqrtSeparatesZero(p.num.sqrt) && Pythagorean(p.num.cos, p.num.sin)
    ensures var vn := SmoothNormals(p.num.sqrt, Stream(p, Position, p.segments));
      9 * i + 3 * k + 2 < |vn| && vn[9 * i + 3 * k + 1] == 0.0
  {
    var vs := Stream(p, Position, p.segments);
    PositionCount(p);
    BaseOnCircle(p, i, k);
    HorizontalOffAxis(p.num, vs, 3 * i + k, Angle(p, i + k));
  }

  /** Base slot 3i + k (k = 0 or 1) holds base-circle vertex i + k. */
  lemma BaseOnCircle(p: Params, i: nat, k: nat)
    requires p.Valid() && i < p.segments && k < 2
    ensures var vs := Stream(p, Position, p.segments);
      var e := 9 * i + 3 * k;
      && e + 2 < |vs|
      && vs[e] == Radius * p.num.cos(Angle(p, i + k))
      && vs[e + 2] == Radius * p.num.sin(Angle(p, i + k))
  {
    FacePositions(p, i);
    if k == 0 {
      assert 9 * i + 3 * k == 9 * i;
    } else {
      assert 9 * i + 3 * k == 9 * i + 3 && i + k == i + 1;
    }
  }

  /** A slot holding a point of the base circle gets a horizontal smooth normal. */
  lemma HorizontalOffAxis(num: Numerics, vs: seq<real>, v: nat, a: real)
    requires SqrtSeparatesZero(num.sqrt) && Pythagorean(num.cos, num.sin)
    requires |vs| % 3 == 0 && 3 * v + 2 < |vs|
    requires vs[3 * v] == Radius * num.cos(a) && vs[3 * v + 2] == Radius * num.sin(a)
    ensures SmoothNormals(num.sqrt, vs)[3 * v + 1] == 0.0
  {
    SmoothNormalsAt(num.sqrt, vs, v);
    OffAxisHorizontal(num, a, vs[3 * v], vs[3 * v + 2]);
  }

  /** A point of the base circle is never on the axis, so its smooth normal is
      horizontal. */
  lemma OffAxisHorizontal(num: Numerics, a: real, x: real, z: real)
    requires SqrtSeparatesZero(num.sqrt) && Pythagorean(num.cos, num.sin)
    requires x == Radius * num.cos(a) && z == Radius * num.sin(a)
    ensures SlotNormal(num.sqrt, x, z).y == 0.0
  {
    assert num.cos(a) * num.cos(a) + num.sin(a) * num.sin(a) == 1.0;
    SlotNormalOnAxis(num.sqrt, x, z);
  }
}
