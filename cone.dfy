/** The Cone class of hw07/cone.js: its constructor builds the attribute
    arrays face by face, computeVertexNormals fills a second normal buffer in
    place, the two copy methods overwrite the active normal buffer, and
    initBuffers / updateNormals upload the arrays to the GPU array buffer.

    Float32Array and Uint16Array fields become arrays; `vbo` and `ebo` hold
    what the GPU buffers contain (one entry per float / per index), since the
    WebGL handles themselves carry no information this model needs. */
module ConeMesh {
  import opened Vectors
  import opened Optional
  import opened ConeGeometry
  import opened VertexBuffer

  /** new Float32Array(list), without the rounding to 32-bit floats. */
  method NewFloat32Array(s: seq<real>) returns (a: array<real>)
    ensures fresh(a) && a[..] == s
  {
    a := new real[|s|](k requires 0 <= k < |s| => s[k]);
  }

  /** new Uint16Array(list): values are taken modulo 2^16. */
  method NewUint16Array(s: seq<int>) returns (a: array<int>)
    ensures fresh(a) && a[..] == Uint16(s)
  {
    var u := Uint16(s);
    a := new int[|u|](k requires 0 <= k < |u| => u[k]);
  }

  /** The five lists the constructor's loop fills before they become typed arrays. */
  datatype Lists = Lists(positions: seq<real>, normals: seq<real>, colors: seq<real>,
                         texCoords: seq<real>, indices: seq<int>)

  /** The lists the loop leaves for the parameters p: every face's data, in face order. */
  ghost function Mesh(p: Params): Lists
    requires p.Valid()
  {
    Lists(Stream(p, Position, p.segments), Stream(p, Normal, p.segments), Stream(p, Color, p.segments),
          Stream(p, TexCoord, p.segments), IndexStream(p.segments))
  }

  /** The constructor's typed arrays, each a fresh array of its own; the
      normal list is copied three times (active, flat backup, smooth backup). */
  method NewArrays(positions: seq<real>, normalList: seq<real>, colorList: seq<real>,
                   texCoordList: seq<real>, indexList: seq<int>)
    returns (vertices: array<real>, normals: array<real>, colors: array<real>,
             texCoords: array<real>, indices: array<int>, faceNormals: array<real>,
             vertexNormals: array<real>)
    ensures fresh(vertices) && fresh(normals) && fresh(colors) && fresh(texCoords)
    ensures fresh(indices) && fresh(faceNormals) && fresh(vertexNormals)
    ensures normals != vertices && normals != colors && normals != texCoords
    ensures normals != faceNormals && normals != vertexNormals
    ensures vertices[..] == positions && normals[..] == normalList && colors[..] == colorList
    ensures texCoords[..] == texCoordList && indices[..] == Uint16(indexList)
    ensures faceNormals[..] == normalList && vertexNormals[..] == normalList
  {
    vertices := NewFloat32Array(positions);
    normals := NewFloat32Array(normalList);
    colors := NewFloat32Array(colorList);
    texCoords := NewFloat32Array(texCoordList);
    indices := NewUint16Array(indexList);
    // Two copies of the face normals, kept so either shading can be restored later.
    faceNormals := NewFloat32Array(normalList);
    vertexNormals := NewFloat32Array(normalList);
  }

  /** The constructor's face loop, one pass per face i from 0 to segments - 1: the
      attribute lists hold the streams of the faces pushed so far. */
  method BuildFaces(num: Numerics, segments: nat, color: seq<real>)
    returns (positions: seq<real>, normalList: seq<real>, colorList: seq<real>,
             texCoordList: seq<real>, indexList: seq<int>)
    requires 0 < segments && |color| >= 3
    ensures var p := Params(num, segments, color);
      && positions == Stream(p, Position, segments)
      && normalList == Stream(p, Normal, segments)
      && colorList == Stream(p, Color, segments)
      && texCoordList == Stream(p, TexCoord, segments)
      && indexList == IndexStream(segments)
  {
    var angleStep := (2.0 * num.pi) / segments as real;
    positions, normalList, colorList, texCoordList, indexList := [], [], [], [], [];
    ghost var p := Params(num, segments, color);

    var i := 0;
    while i < segments
      invariant 0 <= i <= segments
      invariant positions == Stream(p, Position, i)
      invariant normalList == Stream(p, Normal, i)
      invariant colorList == Stream(p, Color, i)
      invariant texCoordList == Stream(p, TexCoord, i)
      invariant indexList == IndexStream(i)
    {
      positions, normalList, colorList, texCoordList, indexList :=
        PushFace(num, segments, color, angleStep, i, positions, normalList, colorList, texCoordList, indexList);
      StreamNext(p, Position, i);
      StreamNext(p, Normal, i);
      StreamNext(p, Color, i);
      StreamNext(p, TexCoord, i);
      i := i + 1;
    }
  }

  /** One pass of the face loop: face i pushes two base-circle vertices and
      the apex, its face normal and the colour once per vertex, its texture
      coordinates and the indices of its three vertex slots. */
  method PushFace(num: Numerics, segments: nat, color: seq<real>, angleStep: real, i: nat,
                  positions: seq<real>, normalList: seq<real>, colorList: seq<real>,
                  texCoordList: seq<real>, indexList: seq<int>)
    returns (positions': seq<real>, normalList': seq<real>, colorList': seq<real>,
             texCoordList': seq<real>, indexList': seq<int>)
    requires 0 < segments && |color| >= 3 && angleStep == (2.0 * num.pi) / segments as real
    ensures var p := Params(num, segments, color);
      && positions' == positions + FaceData(p, Position, i)
      && normalList' == normalList + FaceData(p, Normal, i)
      && colorList' == colorList + FaceData(p, Color, i)
      && texCoordList' == texCoordList + FaceData(p, TexCoord, i)
      && indexList' == indexList + [3 * i, 3 * i + 1, 3 * i + 2]
  {
    ghost var p := Params(num, segments, color);
    var angle0 := i as real * angleStep;
    var angle1 := (i + 1) as real * angleStep;
    FaceAngles(p, i, angleStep);
    var x0 := Radius * num.cos(angle0);
    var z0 := Radius * num.sin(angle0);
    var x1 := Radius * num.cos(angle1);
    var z1 := Radius * num.sin(angle1);
    var x2 := 0.0;
    var z2 := 0.0;

    PositionData(p, i);
    positions' := positions + [x0, -HalfHeight, z0, x1, -HalfHeight, z1, x2, HalfHeight, z2];

    var v0 := Vec3(x0, -HalfHeight, z0);
    var v1 := Vec3(x1, -HalfHeight, z1);
    var v2 := Vec3(x2, HalfHeight, z2);
    var edge1 := Sub(v1, v0);
    var edge2 := Sub(v2, v0);
    var normal := num.normalize(Cross(edge2, edge1));
    FaceNormalOf(p, i, x0, z0, x1, z1);

    NormalData(p, i);
    normalList' := PushThrice(normalList, [normal.x, normal.y, normal.z]);
    ColorData(p, i);
    colorList' := PushThrice(colorList, [color[0], color[1], color[2]]);

    var u0 := i as real / segments as real;
    var u1 := (i + 1) as real / segments as real;
    texCoordList' := texCoordList + [u0, 0.0, u1, 0.0, u1, 1.0];

    var base := i * 3;
    indexList' := indexList + [base, base + 1, base + 2];
  }

  /** The inner three-pass loops: push the triple t once per vertex of the face. */
  method PushThrice(list: seq<real>, t: seq<real>) returns (r: seq<real>)
    ensures r == list + Rep(t, 3)
  {
    r := list;
    var k := 0;
    while k < 3
      invariant 0 <= k <= 3
      invariant r == list + Rep(t, k)
    {
      r := r + t;
      k := k + 1;
    }
  }

  class Cone {
    const num: Numerics
    const segments: nat
    /** options.color as given to the constructor. */
    ghost const colorOption: Option<seq<real>>
    /** The lists the constructor's loop built. */
    ghost const mesh: Lists

    const vertices: array<real>
    const normals: array<real>
    const colors: array<real>
    const texCoords: array<real>
    const indices: array<int>
    const faceNormals: array<real>
    var vertexNormals: array<real>

    /** Contents of the GPU array buffer (this.vbo), one entry per float. */
    var vbo: seq<real>
    /** Contents of the GPU element buffer (this.ebo). */
    var ebo: seq<int>

    /** The parameters the mesh is built from. */
    ghost function Shape(): Params {
      Params(num, segments, colorOption.GetOr(DefaultColor))
    }

    /** What the constructor's loop leaves: every stream holds exactly what
        was built for the cone's parameters, the active normal buffer is an
        array of its own of the vertices' length, and the face normals are an
        independent copy that nothing overwrites. */
    ghost predicate Built()
      reads vertices, colors, texCoords, indices, faceNormals
    {
      && 0 < segments && 3 * segments <= 65536
      && ColorOk(colorOption)
      && normals != vertices && normals != colors && normals != texCoords
      && normals != faceNormals
      && mesh == Mesh(Shape())
      && vertices[..] == mesh.positions
      && faceNormals[..] == mesh.normals
      && colors[..] == mesh.colors
      && texCoords[..] == mesh.texCoords
      && indices[..] == mesh.indices
      && vertices.Length == 9 * segments && vertices.Length % 3 == 0
      && normals.Length == vertices.Length
    }

    /** The object invariant: Built, and the smooth-normal buffer holds the
        smooth normals of the vertices. */
    ghost predicate Valid()
      reads this`vertexNormals
      reads vertices, colors, texCoords, indices, faceNormals, vertexNormals
    {
      && Built() && normals != vertexNormals
      && vertexNormals[..] == SmoothNormals(num.sqrt, vertices[..])
    }

    /** new Cone(gl, segments, options) */
    constructor (num: Numerics, segments: nat, colorOption: Option<seq<real>>)
      requires 0 < segments && 3 * segments <= 65536
      requires ColorOk(colorOption)
      ensures Valid()
      ensures this.num == num && this.segments == segments && this.colorOption == colorOption
      ensures normals[..] == faceNormals[..]
      ensures vbo == vertices[..] + normals[..] + colors[..] + texCoords[..]
      ensures ebo == indices[..]
      ensures fresh(vertices) && fresh(normals) && fresh(colors) && fresh(texCoords)
      ensures fresh(indices) && fresh(faceNormals) && fresh(vertexNormals)
    {
      var color := colorOption.GetOr(DefaultColor);
      var positions, normalList, colorList, texCoordList, indexList := BuildFaces(num, segments, color);

      var vertexArray, normalArray, colorArray, texCoordArray, indexArray, faceNormalArray, vertexNormalArray :=
        NewArrays(positions, normalList, colorList, texCoordList, indexList);
      UnwrappedIndices(segments);
      PositionCount(Params(num, segments, color));

      this.num := num;
      this.segments := segments;
      this.colorOption := colorOption;
      mesh := Lists(positions, normalList, colorList, texCoordList, indexList);
      vertices := vertexArray;
      normals := normalArray;
      colors := colorArray;
      texCoords := texCoordArray;
      indices := indexArray;
      faceNormals := faceNormalArray;
      vertexNormals := vertexNormalArray;
      new;
      ComputeVertexNormals();
      var _ := InitBuffers();
    }

    /** computeVertexNormals: a fresh buffer the size of the vertices, slot v
        set to the smooth normal of vertex v. */
    method ComputeVertexNormals()
      requires vertices.Length % 3 == 0
      modifies this`vertexNormals
      ensures fresh(vertexNormals)
      ensures vertexNormals[..] == SmoothNormals(num.sqrt, vertices[..])
    {
      var vCount := vertices.Length / 3;
      ghost var vs := vertices[..];
      ghost var target := SmoothNormals(num.sqrt, vs);
      var buffer := new real[vertices.Length];
      var i := 0;
      while i < vCount
        invariant 0 <= i <= vCount
        invariant buffer.Length == |vs| && vertices[..] == vs
        invariant forall s :: 0 <= s < 3 * i ==> buffer[s] == target[s]
      {
        var x := vertices[i * 3 + 0];
        var z := vertices[i * 3 + 2];
        var len := num.sqrt(x * x + z * z);
        ghost var n := SlotNormal(num.sqrt, x, z);
        SlotNormalCases(num.sqrt, x, z, len);
        SmoothNormalsAt(num.sqrt, vs, i);
        assert target[i * 3] == n.x && target[i * 3 + 1] == n.y && target[i * 3 + 2] == n.z;
        if len > 0.0 {
          buffer[i * 3 + 0] := x / len;
          buffer[i * 3 + 1] := 0.0;
          buffer[i * 3 + 2] := z / len;
        } else {
          buffer[i * 3 + 0] := 0.0;
          buffer[i * 3 + 1] := 1.0;
          buffer[i * 3 + 2] := 0.0;
        }
        assert buffer[i * 3] == n.x && buffer[i * 3 + 1] == n.y && buffer[i * 3 + 2] == n.z;
        i := i + 1;
      }
      assert buffer[..] == target;
      vertexNormals := buffer;
    }

    /** copyFaceNormalsToNormals: normals.set(faceNormals). Calling it again
        changes nothing, and after copyVertexNormalsToNormals it restores the
        flat normals the constructor built. */
    method CopyFaceNormalsToNormals()
      requires Valid()
      modifies normals
      ensures Valid()
      ensures normals[..] == faceNormals[..] == Stream(Shape(), Normal, segments)
    {
      forall k | 0 <= k < normals.Length {
        normals[k] := faceNormals[k];
      }
      assert normals[..] == faceNormals[..];
    }

    /** copyVertexNormalsToNormals: normals.set(vertexNormals). */
    method CopyVertexNormalsToNormals()
      requires Valid()
      modifies normals
      ensures Valid()
      ensures normals[..] == vertexNormals[..] == SmoothNormals(num.sqrt, vertices[..])
    {
      forall k | 0 <= k < normals.Length {
        normals[k] := vertexNormals[k];
      }
      assert normals[..] == vertexNormals[..];
    }

    /** initBuffers: allocate totalSize bytes and upload the four blocks at
        their offsets; the index list goes to the element buffer. The result
        is the layout handed to bufferData and vertexAttribPointer. */
    method InitBuffers() returns (layout: Layout)
      modifies this`vbo, this`ebo
      ensures layout == BlockLayout(vertices[..], normals[..], colors[..], texCoords[..])
      ensures vbo == vertices[..] + normals[..] + colors[..] + texCoords[..]
      ensures ebo == indices[..]
    {
      var v, n, c, t := vertices[..], normals[..], colors[..], texCoords[..];
      var vSize := ByteLength(v);
      var nSize := ByteLength(n);
      var cSize := ByteLength(c);
      var tSize := ByteLength(t);
      var totalSize := vSize + nSize + cSize + tSize;

      vbo := BufferData(totalSize);
      vbo := BufferSubData(vbo, 0, v);
      vbo := BufferSubData(vbo, vSize, n);
      vbo := BufferSubData(vbo, vSize + nSize, c);
      vbo := BufferSubData(vbo, vSize + nSize + cSize, t);
      assert vbo == Upload(v, n, c, t);

      ebo := indices[..];
      layout := Layout(totalSize, 0, vSize, vSize + nSize, vSize + nSize + cSize);
    }

    /** updateNormals: re-upload only the normal block, at byte offset
        vertices.byteLength. When the buffer held the four blocks before, it
        now holds them with the current normals. */
    method UpdateNormals()
      modifies this`vbo
      ensures vbo == BufferSubData(old(vbo), ByteLength(vertices[..]), normals[..])
      ensures IsBlockLayout(old(vbo), vertices[..], normals.Length, colors[..], texCoords[..]) ==>
        vbo == vertices[..] + normals[..] + colors[..] + texCoords[..]
    {
      var vSize := ByteLength(vertices[..]);
      if IsBlockLayout(vbo, vertices[..], normals.Length, colors[..], texCoords[..]) {
        RewriteNormalBlock(vbo, vertices[..], normals[..], colors[..], texCoords[..]);
      }
      vbo := BufferSubData(vbo, vSize, normals[..]);
    }

    /** draw: the number of indices drawElements reads; every one of them
        names a vertex slot. */
    method Draw() returns (count: nat)
      requires Valid()
      ensures count == 3 * segments
      ensures forall s :: 0 <= s < count ==> 0 <= indices[s] < vertices.Length / 3
    {
      count := indices.Length;
    }
  }

  lemma StreamNext(p: Params, a: Attribute, i: nat)
    requires p.Valid()
    ensures Stream(p, a, i + 1) == Stream(p, a, i) + FaceData(p, a, i)
  {
  }

  /** angle0 and angle1 of face i, as the loop computes them. */
  lemma FaceAngles(p: Params, i: nat, angleStep: real)
    requires p.Valid() && angleStep == (2.0 * p.num.pi) / p.segments as real
    ensures i as real * angleStep == Angle(p, i)
    ensures (i + 1) as real * angleStep == Angle(p, i + 1)
  {
  }

  /** The nine position floats face i pushes. */
  lemma PositionData(p: Params, i: nat)
    requires p.Valid()
    ensures var a0 := Angle(p, i);
      var a1 := Angle(p, i + 1);
      FaceData(p, Position, i) ==
        [Radius * p.num.cos(a0), -HalfHeight, Radius * p.num.sin(a0),
         Radius * p.num.cos(a1), -HalfHeight, Radius * p.num.sin(a1),
         0.0, HalfHeight, 0.0]
  {
  }

  /** The normal the loop computes from its vertex coordinates is face i's. */
  lemma FaceNormalOf(p: Params, i: nat, x0: real, z0: real, x1: real, z1: real)
    requires p.Valid()
    requires x0 == Radius * p.num.cos(Angle(p, i)) && z0 == Radius * p.num.sin(Angle(p, i))
    requires x1 == Radius * p.num.cos(Angle(p, i + 1)) && z1 == Radius * p.num.sin(Angle(p, i + 1))
    ensures var v0 := Vec3(x0, -HalfHeight, z0);
      var v1 := Vec3(x1, -HalfHeight, z1);
      var v2 := Vec3(0.0, HalfHeight, 0.0);
      p.num.normalize(Cross(Sub(v2, v0), Sub(v1, v0))) == FaceNormal(p, i)
  {
  }

  /** Face i's normal, once per vertex. */
  lemma NormalData(p: Params, i: nat)
    requires p.Valid()
    ensures var n := FaceNormal(p, i);
      FaceData(p, Normal, i) == Rep([n.x, n.y, n.z], 3)
  {
    var n := FaceNormal(p, i);
    RepThrice([n.x, n.y, n.z]);
  }

  /** The colour, once per vertex. */
  lemma ColorData(p: Params, i: nat)
    requires p.Valid()
    ensures FaceData(p, Color, i) == Rep([p.rgb[0], p.rgb[1], p.rgb[2]], 3)
  {
    RepThrice(FaceColor(p));
  }

  /** Rep(t, 3), the three copies the inner loops push, is t + t + t. */
  lemma RepThrice(t: seq<real>)
    ensures Rep(t, 3) == t + t + t
  {
    assert Rep(t, 1) == t;
  }

  /** With at most 65536 slots, the Uint16Array conversion keeps every index. */
  lemma UnwrappedIndices(segments: nat)
    requires 3 * segments <= 65536
    ensures Uint16(IndexStream(segments)) == IndexStream(segments)
  {
  }
}
