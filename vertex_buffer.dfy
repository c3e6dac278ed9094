/** The GPU array buffer that Cone.initBuffers and Cone.updateNormals fill
    (hw07/cone.js:164-218), seen only through the numbers passed to
    gl.bufferData and gl.bufferSubData. The buffer's contents are a sequence
    with one entry per 32-bit float; a byte offset o addresses entry o / 4. */
module VertexBuffer {

  /** Float32Array.BYTES_PER_ELEMENT */
  const FloatBytes: nat := 4

  /** byteLength of a Float32Array holding a: a float-aligned byte count that
      addresses exactly the entry after a's last float. */
  function ByteLength(a: seq<real>): (r: nat)
    ensures r % FloatBytes == 0 && r / FloatBytes == |a|
  {
    FloatBytes * |a|
  }

  /** gl.bufferData(ARRAY_BUFFER, byteSize, usage): fresh storage, zero-filled. */
  function BufferData(byteSize: nat): (buf: seq<real>)
    ensures |buf| * FloatBytes <= byteSize < (|buf| + 1) * FloatBytes
    ensures forall k :: 0 <= k < |buf| ==> buf[k] == 0.0
  {
    seq(byteSize / FloatBytes, _ => 0.0)
  }

  /** gl.bufferSubData(ARRAY_BUFFER, byteOffset, data): overwrite the entries
      from byteOffset on with data; a write that would run past the end of the
      storage is an INVALID_VALUE error and leaves the buffer unchanged. */
  function BufferSubData(buf: seq<real>, byteOffset: nat, data: seq<real>): (r: seq<real>)
    requires byteOffset % FloatBytes == 0
    ensures |r| == |buf|
    ensures byteOffset / FloatBytes + |data| > |buf| ==> r == buf
  {
    var o := byteOffset / FloatBytes;
    if o + |data| <= |buf| then buf[..o] + data + buf[o + |data|..] else buf
  }

  /** A write that fits puts data[k - o] at every entry k it covers, o being
      the entry addressed by byteOffset, and keeps every other entry. */
  lemma BufferSubDataAt(buf: seq<real>, byteOffset: nat, data: seq<real>, k: nat)
    requires byteOffset % FloatBytes == 0
    requires byteOffset / FloatBytes + |data| <= |buf| && k < |buf|
    ensures var o := byteOffset / FloatBytes;
      BufferSubData(buf, byteOffset, data)[k] ==
        if o <= k < o + |data| then data[k - o] else buf[k]
  {
    var o := byteOffset / FloatBytes;
    var r := buf[..o] + data + buf[o + |data|..];
    if k < o {
      assert r[k] == buf[..o][k];
    } else if k < o + |data| {
      assert r[k] == data[k - o];
    } else {
      assert r[k] == buf[o + |data|..][k - o - |data|];
    }
  }

  /** The sizes and offsets initBuffers computes: the total passed to
      bufferData and the offsets of the four attribute blocks (also the
      offsets given to vertexAttribPointer for locations 0 to 3). */
  datatype Layout = Layout(
    totalSize: nat,
    positionOffset: nat,
    normalOffset: nat,
    colorOffset: nat,
    texCoordOffset: nat)

  function BlockLayout(v: seq<real>, n: seq<real>, c: seq<real>, t: seq<real>): Layout {
    var vSize := ByteLength(v);
    var nSize := ByteLength(n);
    var cSize := ByteLength(c);
    var tSize := ByteLength(t);
    Layout(vSize + nSize + cSize + tSize, 0, vSize, vSize + nSize, vSize + nSize + cSize)
  }

  /** The buffer contents after initBuffers' bufferData and four bufferSubData
      calls: the four blocks end to end, with nothing left over. */
  function Upload(v: seq<real>, n: seq<real>, c: seq<real>, t: seq<real>): (buf: seq<real>)
    ensures buf == v + n + c + t
  {
    UploadWrites(v, n, c, t);
    var l := BlockLayout(v, n, c, t);
    BufferSubData(BufferSubData(BufferSubData(BufferSubData(BufferData(l.totalSize),
      l.positionOffset, v), l.normalOffset, n), l.colorOffset, c), l.texCoordOffset, t)
  }

  /** The four writes of Upload fill the zeroed storage exactly. */
  lemma UploadWrites(v: seq<real>, n: seq<real>, c: seq<real>, t: seq<real>)
    ensures var l := BlockLayout(v, n, c, t);
      BufferSubData(BufferSubData(BufferSubData(BufferSubData(BufferData(l.totalSize),
        l.positionOffset, v), l.normalOffset, n), l.colorOffset, c), l.texCoordOffset, t)
      == v + n + c + t
  {
    var l := BlockLayout(v, n, c, t);
    var all := v + n + c + t;
    var b0 := BufferData(l.totalSize);
    var b1 := BufferSubData(b0, l.positionOffset, v);
    var b2 := BufferSubData(b1, l.normalOffset, n);
    var b3 := BufferSubData(b2, l.colorOffset, c);
    var b4 := BufferSubData(b3, l.texCoordOffset, t);
    assert |b0| == |all|;
    forall k | 0 <= k < |all|
      ensures b4[k] == all[k]
    {
      BufferSubDataAt(b0, l.positionOffset, v, k);
      BufferSubDataAt(b1, l.normalOffset, n, k);
      BufferSubDataAt(b2, l.colorOffset, c, k);
      BufferSubDataAt(b3, l.texCoordOffset, t, k);
    }
  }

  /** Each attribute pointer's byte offset addresses the first float of its own
      block, and the total size is exactly the bytes uploaded. */
  lemma OffsetsAddressBlocks(v: seq<real>, n: seq<real>, c: seq<real>, t: seq<real>, k: nat)
    ensures var l := BlockLayout(v, n, c, t);
      var buf := Upload(v, n, c, t);
      && l.totalSize == FloatBytes * |buf|
      && l.positionOffset % FloatBytes == 0 && l.normalOffset % FloatBytes == 0
      && l.colorOffset % FloatBytes == 0 && l.texCoordOffset % FloatBytes == 0
      && (k < |v| ==> buf[l.positionOffset / FloatBytes + k] == v[k])
      && (k < |n| ==> buf[l.normalOffset / FloatBytes + k] == n[k])
      && (k < |c| ==> buf[l.colorOffset / FloatBytes + k] == c[k])
      && (k < |t| ==> buf[l.texCoordOffset / FloatBytes + k] == t[k])
  {
  }

  /** A buffer laid out as v, then a normal block of nLen floats, then c and t. */
  ghost predicate IsBlockLayout(buf: seq<real>, v: seq<real>, nLen: nat, c: seq<real>, t: seq<real>) {
    |buf| == |v| + nLen + |c| + |t| && buf[..|v|] == v && buf[|v| + nLen..] == c + t
  }

  /** updateNormals: rewriting the block at byte offset ByteLength(v) replaces
      the normals and nothing else. */
  lemma RewriteNormalBlock(buf: seq<real>, v: seq<real>, n: seq<real>, c: seq<real>, t: seq<real>)
    requires IsBlockLayout(buf, v, |n|, c, t)
    ensures BufferSubData(buf, ByteLength(v), n) == v + n + c + t
  {
    var r := BufferSubData(buf, ByteLength(v), n);
    assert ByteLength(v) / FloatBytes == |v|;
    forall k | 0 <= k < |r|
      ensures r[k] == (v + n + c + t)[k]
    {
      BufferSubDataAt(buf, ByteLength(v), n, k);
      if k < |v| {
        assert buf[k] == buf[..|v|][k];
      } else if k >= |v| + |n| {
        assert buf[k] == buf[|v| + |n|..][k - |v| - |n|];
      }
    }
  }
}
