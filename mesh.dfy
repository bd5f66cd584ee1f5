/**
 * Meshes: the upload of a mesh's vertices and 16-bit indices through
 * host-visible staging buffers into device-local buffers, the conversion of
 * an imported scene mesh into vertices and a flat index list, and teardown.
 */
module Meshes {
  import opened Vulkan
  import opened Devices
  import opened Buffers
  import opened Vertices

  /** uint16_t, the element type of the index array and of the index buffer. */
  newtype uint16 = x: int | 0 <= x < 0x1_0000

  const UINT16_LIMIT: int := 0x1_0000

  /** sizeof(uint16_t). */
  const INDEX_SIZE: nat := 2

  // ---------------------------------------------------------------------
  // The bytes of the index array
  // ---------------------------------------------------------------------

  /** The low and the high byte of an index. */
  function LowByte(x: uint16): byte {
    (x as int % 256) as byte
  }

  function HighByte(x: uint16): byte {
    (x as int / 256) as byte
  }

  /** The index whose low and high bytes are given. */
  function FromBytes(low: byte, high: byte): uint16 {
    (low as int + 256 * high as int) as uint16
  }

  /** The in-memory image of an index array: each index as two bytes, low byte first. */
  function IndexBytes(indices: seq<uint16>): (bytes: seq<byte>)
    ensures |bytes| == INDEX_SIZE * |indices|
  {
    if |indices| == 0 then []
    else IndexBytes(indices[..|indices| - 1]) + [LowByte(indices[|indices| - 1]), HighByte(indices[|indices| - 1])]
  }

  /** Reads an index array back from its in-memory image. */
  function DecodeIndices(bytes: seq<byte>): (indices: seq<uint16>)
    requires |bytes| % INDEX_SIZE == 0
    ensures INDEX_SIZE * |indices| == |bytes|
  {
    if |bytes| == 0 then []
    else DecodeIndices(bytes[..|bytes| - 2]) + [FromBytes(bytes[|bytes| - 2], bytes[|bytes| - 1])]
  }

  /** The two bytes of one index give the index back. */
  lemma IndexByteRoundTrip(x: uint16)
    ensures FromBytes(LowByte(x), HighByte(x)) == x
  {
    var n, low, high := x as int, x as int % 256, x as int / 256;
    assert n == 256 * high + low;
    assert LowByte(x) as int == low;
    assert HighByte(x) as int == high;
  }

  /** The bytes copied into the index staging buffer determine the indices exactly. */
  lemma {:induction false} IndexBytesRoundTrip(indices: seq<uint16>)
    ensures DecodeIndices(IndexBytes(indices)) == indices
  {
    if |indices| > 0 {
      var prefix, last := indices[..|indices| - 1], indices[|indices| - 1];
      var bytes := IndexBytes(indices);
      assert bytes[..|bytes| - 2] == IndexBytes(prefix);
      IndexByteRoundTrip(last);
      IndexBytesRoundTrip(prefix);
      assert prefix + [last] == indices;
    }
  }

  // ---------------------------------------------------------------------
  // Uploads
  // ---------------------------------------------------------------------

  /** What the driver reports as the memory requirements of a staging buffer and of its destination. */
  datatype UploadRequirements = UploadRequirements(staging: MemoryRequirements, destination: MemoryRequirements)

  /** A host-visible, coherent memory type fits the staging buffer and a device-local one the destination. */
  predicate MemoryAvailable(types: MemoryTypeList, r: UploadRequirements) {
    && FirstSuitableMemoryType(types, r.staging.memoryTypeBits, HOST_VISIBLE_COHERENT, 0).Some?
    && FirstSuitableMemoryType(types, r.destination.memoryTypeBits, MEMORY_PROPERTY_DEVICE_LOCAL, 0).Some?
  }

  /**
   * The first half of an upload: a host-visible, coherent TRANSFER_SRC
   * staging buffer of |data| bytes, mapped, filled with `data` and unmapped.
   */
  method Stage(drv: Driver, device: Device, data: seq<byte>, r: UploadRequirements) returns (staging: Buffer)
    requires drv.Valid()
    requires device.alive
    requires MemoryAvailable(device.physical.memoryTypes, r)
    modifies drv
    ensures drv.Valid()
    ensures fresh(staging) && staging.device == device && staging.size == |data|
    ensures staging.handle == old(drv.st.nextHandle) && staging.memory == staging.handle + 1
    ensures drv.st == old(drv.st).(
              nextHandle := staging.memory + 1,
              live := old(drv.st.live) + {staging.handle, staging.memory},
              created := old(drv.st.created)[staging.handle := BufferInfo(|data|, BUFFER_USAGE_TRANSFER_SRC, SHARING_MODE_EXCLUSIVE)]
                           [staging.memory := MemoryInfo(r.staging.size,
                              FirstSuitableMemoryType(device.physical.memoryTypes, r.staging.memoryTypeBits, HOST_VISIBLE_COHERENT, 0).value)],
              bindings := old(drv.st.bindings)[staging.handle := Binding(staging.memory, 0)],
              mapped := old(drv.st.mapped) - {staging.memory},
              memory := old(drv.st.memory)[staging.memory := data])
  {
    staging := ConstructBuffer(drv, device, |data|, BUFFER_USAGE_TRANSFER_SRC, HOST_VISIBLE_COHERENT, r.staging);
    var copied := staging.CopyDataToMemory(drv, data);
    assert data[..|data|] == data;
  }

  /**
   * One upload of initVerticesAndIndices: the data is staged (see Stage); a
   * device-local destination of the same size is created with `usage`; one
   * copy between them is submitted and waited on; and the staging buffer is
   * released, memory first. Only the destination and its memory stay live.
   */
  method Upload(drv: Driver, device: Device, data: seq<byte>, usage: Flags, r: UploadRequirements)
    returns (destination: Buffer)
    requires drv.Valid()
    requires device.alive
    requires MemoryAvailable(device.physical.memoryTypes, r)
    modifies drv
    ensures drv.Valid()
    ensures fresh(destination) && destination.device == device && destination.size == |data|
    ensures destination.handle == old(drv.st.nextHandle) + 2 && destination.memory == destination.handle + 1
    ensures UploadStep(old(drv.st), drv.st, data, usage)
  {
    var staging := Stage(drv, device, data, r);
    ghost var staged := drv.st;
    destination := ConstructBuffer(drv, device, |data|, usage, MEMORY_PROPERTY_DEVICE_LOCAL, r.destination);
    assert drv.st.created[staging.handle] == staged.created[staging.handle];
    var transferred := destination.TransferBufferToBuffer(drv, staging.handle);
    var destroyed := staging.Destroy(drv);
  }

  /**
   * One upload from driver state `before` to `after`: the staging buffer is
   * handle n (its memory n + 1), the destination n + 2 (its memory n + 3).
   * The staging buffer is a TRANSFER_SRC buffer whose memory holds `data`,
   * the destination a buffer of the same size with `usage`; one copy between
   * them was submitted; the staging memory and then its buffer were
   * released; only the destination and its memory stay live; and nothing
   * created before changes.
   */
  ghost predicate UploadStep(before: DriverState, after: DriverState, data: seq<byte>, usage: Flags) {
    var n := before.nextHandle;
    && after.nextHandle == n + 4
    && after.live == before.live + {n + 2, n + 3}
    && n in after.created && n + 2 in after.created
    && after.created[n] == BufferInfo(|data|, BUFFER_USAGE_TRANSFER_SRC, SHARING_MODE_EXCLUSIVE)
    && after.created[n + 2] == BufferInfo(|data|, usage, SHARING_MODE_EXCLUSIVE)
    && (forall h :: h in before.created ==> h in after.created && after.created[h] == before.created[h])
    && after.memory == before.memory[n + 1 := data]
    && after.released == before.released + [n + 1, n]
    && after.submissions == before.submissions + [[CopyBuffer(n, n + 2, |data|)]]
  }

  // ---------------------------------------------------------------------
  // Mesh
  // ---------------------------------------------------------------------

  /**
   * A mesh: its vertices and 16-bit indices, and the device-local buffers
   * they were uploaded to.
   */
  class Mesh {
    const device: Device
    var vertices: seq<Vertex>
    var indices: seq<uint16>
    var vertexBuffer: Buffer?
    var indexBuffer: Buffer?

    /**
     * Mesh(device, vertices, indices): keeps both arrays and uploads them.
     * `vertexBytes` is the in-memory image of the vertex array, which the
     * upload copies byte for byte.
     */
    constructor (drv: Driver, device: Device, vertices: seq<Vertex>, indices: seq<uint16>, vertexBytes: seq<byte>,
                 vertexUpload: UploadRequirements, indexUpload: UploadRequirements)
      requires drv.Valid()
      requires device.alive
      requires |vertexBytes| == VertexSize() * |vertices|
      requires MemoryAvailable(device.physical.memoryTypes, vertexUpload)
      requires MemoryAvailable(device.physical.memoryTypes, indexUpload)
      modifies drv
      ensures drv.Valid()
      ensures this.device == device && this.vertices == vertices && this.indices == indices
      ensures BuffersAt(old(drv.st.nextHandle), |vertexBytes|)
      ensures Uploaded(old(drv.st), drv.st, vertexBytes, IndexBytes(indices))
    {
      this.device := device;
      this.vertices := vertices;
      this.indices := indices;
      vertexBuffer := null;
      indexBuffer := null;
      new;
      InitVerticesAndIndices(drv, vertexBytes, vertexUpload, indexUpload);
    }

    /**
     * initVerticesAndIndices: the vertex array, then the index array, each
     * uploaded through its own staging buffer. The vertex buffer holds
     * sizeof(Vertex) bytes per vertex and the index buffer two per index.
     */
    method InitVerticesAndIndices(drv: Driver, vertexBytes: seq<byte>,
                                  vertexUpload: UploadRequirements, indexUpload: UploadRequirements)
      requires drv.Valid()
      requires device.alive
      requires |vertexBytes| == VertexSize() * |vertices|
      requires MemoryAvailable(device.physical.memoryTypes, vertexUpload)
      requires MemoryAvailable(device.physical.memoryTypes, indexUpload)
      modifies this`vertexBuffer, this`indexBuffer, drv
      ensures drv.Valid()
      ensures BuffersAt(old(drv.st.nextHandle), |vertexBytes|)
      ensures Uploaded(old(drv.st), drv.st, vertexBytes, IndexBytes(indices))
    {
      ghost var before := drv.st;
      vertexBuffer := Upload(drv, device, vertexBytes, VERTEX_BUFFER_USAGE, vertexUpload);
      ghost var afterVertices := drv.st;
      indexBuffer := Upload(drv, device, IndexBytes(indices), INDEX_BUFFER_USAGE, indexUpload);
      VertexThenIndexUpload(before, afterVertices, drv.st, vertexBytes, IndexBytes(indices));
    }

    /**
     * The device-local buffers of an upload that started at handle n: the
     * vertex buffer is n + 2 (memory n + 3) and holds `vertexSize` bytes,
     * the index buffer n + 6 (memory n + 7) and holds two bytes per index.
     */
    ghost predicate BuffersAt(n: nat, vertexSize: nat)
      reads this, vertexBuffer, indexBuffer
    {
      && vertexBuffer != null && indexBuffer != null
      && vertexBuffer.handle == n + 2 && vertexBuffer.memory == n + 3 && vertexBuffer.size == vertexSize
      && indexBuffer.handle == n + 6 && indexBuffer.memory == n + 7 && indexBuffer.size == INDEX_SIZE * |indices|
    }

    /**
     * The destructor: the index buffer is released before the vertex buffer.
     * Each ~Buffer locks its device without a check, so a buffer whose device
     * has expired dereferences null and nothing after it runs.
     */
    method Destroy(drv: Driver) returns (outcome: Outcome<()>)
      requires drv.Valid()
      modifies drv
      ensures drv.Valid()
      ensures var indexExpired := indexBuffer != null && !(indexBuffer.device != null && indexBuffer.device.alive);
              var vertexExpired := vertexBuffer != null && !(vertexBuffer.device != null && vertexBuffer.device.alive);
              var indexReleased := if indexBuffer != null then [indexBuffer.memory, indexBuffer.handle] else [];
              var vertexReleased := if vertexBuffer != null then [vertexBuffer.memory, vertexBuffer.handle] else [];
              && (indexExpired ==> outcome == Aborted(NullDereference) && drv.st == old(drv.st))
              && (!indexExpired && vertexExpired ==>
                    outcome == Aborted(NullDereference) && drv.st.released == old(drv.st.released) + indexReleased)
              && (!indexExpired && !vertexExpired ==>
                    outcome == Returned(()) && drv.st.released == old(drv.st.released) + indexReleased + vertexReleased)
    {
      if indexBuffer != null {
        outcome := indexBuffer.Destroy(drv);
        if outcome.Aborted? {
          return;
        }
      }
      outcome := Returned(());
      if vertexBuffer != null {
        outcome := vertexBuffer.Destroy(drv);
      }
    }
  }

  const VERTEX_BUFFER_USAGE: Flags := BUFFER_USAGE_TRANSFER_DST | BUFFER_USAGE_VERTEX_BUFFER
  const INDEX_BUFFER_USAGE: Flags := BUFFER_USAGE_TRANSFER_DST | BUFFER_USAGE_INDEX_BUFFER

  /**
   * The two uploads of a mesh, from the driver state `before` to `after`:
   * the vertex staging buffer is handle n (its memory n + 1) and the vertex
   * buffer n + 2; the index staging buffer n + 4 and the index buffer n + 6.
   * The staging memories hold exactly the uploaded bytes, the vertex copy is
   * submitted before the index copy, both staging buffers are released in
   * that order, and only the two device-local buffers and their memories
   * stay live.
   */
  ghost predicate Uploaded(before: DriverState, after: DriverState, vertexBytes: seq<byte>, indexBytes: seq<byte>) {
    var n := before.nextHandle;
    && after.nextHandle == n + 8
    && after.live == before.live + {n + 2, n + 3, n + 6, n + 7}
    && n + 2 in after.created && n + 6 in after.created
    && after.created[n + 2] == BufferInfo(|vertexBytes|, VERTEX_BUFFER_USAGE, SHARING_MODE_EXCLUSIVE)
    && after.created[n + 6] == BufferInfo(|indexBytes|, INDEX_BUFFER_USAGE, SHARING_MODE_EXCLUSIVE)
    && n + 1 in after.memory && after.memory[n + 1] == vertexBytes
    && n + 5 in after.memory && after.memory[n + 5] == indexBytes
    && after.released == before.released + [n + 1, n, n + 5, n + 4]
    && after.submissions == before.submissions + [[CopyBuffer(n, n + 2, |vertexBytes|)], [CopyBuffer(n + 4, n + 6, |indexBytes|)]]
  }

  /** A vertex upload followed by an index upload is a mesh upload. */
  lemma VertexThenIndexUpload(s0: DriverState, s1: DriverState, s2: DriverState, vertexBytes: seq<byte>, indexBytes: seq<byte>)
    requires UploadStep(s0, s1, vertexBytes, VERTEX_BUFFER_USAGE)
    requires UploadStep(s1, s2, indexBytes, INDEX_BUFFER_USAGE)
    ensures Uploaded(s0, s2, vertexBytes, indexBytes)
  {
    var n := s0.nextHandle;
    assert s2.created[n + 2] == s1.created[n + 2];
    assert s2.memory == s0.memory[n + 1 := vertexBytes][n + 5 := indexBytes];
  }

  // ---------------------------------------------------------------------
  // Scene import
  // ---------------------------------------------------------------------

  /**
   * The part of the first aiMesh of an imported scene the constructor
   * reads: vertex positions, texture-coordinate channel 0 when present, and
   * the faces as lists of unsigned vertex indices.
   */
  datatype SceneMesh = SceneMesh(positions: seq<Vec3>, texCoords: Option<seq<Vec3>>, faces: seq<seq<nat>>)

  /** Channel 0 has a coordinate for every vertex, and every face is a triangle (the constructor asserts it). */
  predicate WellFormedScene(scene: SceneMesh) {
    && (scene.texCoords.Some? ==> |scene.texCoords.value| >= |scene.positions|)
    && forall f :: 0 <= f < |scene.faces| ==> |scene.faces[f]| == 3
  }

  /** The colour every imported vertex gets: opaque black. */
  const SCENE_VERTEX_COLOR: Vec4 := Vec4(0.0, 0.0, 0.0, 1.0)

  /**
   * One vertex per scene vertex, in order: its position, the fixed colour,
   * and the (u, v) of texture channel 0, or (0, 0) without that channel.
   * The constructor call passes position, colour and texture coordinate,
   * the fields of a vertex without a normal; the normal, which it does not
   * name, is taken to be zero.
   */
  method SceneVertices(scene: SceneMesh) returns (vertices: seq<Vertex>)
    requires WellFormedScene(scene)
    ensures |vertices| == |scene.positions|
    ensures forall i :: 0 <= i < |vertices| ==>
              && vertices[i].position == scene.positions[i]
              && vertices[i].normal == Vec3(0.0, 0.0, 0.0)
              && vertices[i].color == SCENE_VERTEX_COLOR
              && vertices[i].uv == (if scene.texCoords.Some?
                                    then Vec2(scene.texCoords.value[i].x, scene.texCoords.value[i].y)
                                    else Vec2(0.0, 0.0))
  {
    vertices := [];
    for i := 0 to |scene.positions|
      invariant |vertices| == i
      invariant forall j :: 0 <= j < i ==>
                  && vertices[j].position == scene.positions[j]
                  && vertices[j].normal == Vec3(0.0, 0.0, 0.0)
                  && vertices[j].color == SCENE_VERTEX_COLOR
                  && vertices[j].uv == (if scene.texCoords.Some?
                                        then Vec2(scene.texCoords.value[j].x, scene.texCoords.value[j].y)
                                        else Vec2(0.0, 0.0))
    {
      var uv := Vec3(0.0, 0.0, 0.0);
      if scene.texCoords.Some? {
        uv := scene.texCoords.value[i];
      }
      vertices := vertices + [Vertex(scene.positions[i], Vec3(0.0, 0.0, 0.0), SCENE_VERTEX_COLOR, Vec2(uv.x, uv.y))];
    }
  }

  /** The face indices concatenated in face order. */
  function Flatten(faces: seq<seq<nat>>): seq<nat> {
    if |faces| == 0 then [] else Flatten(faces[..|faces| - 1]) + faces[|faces| - 1]
  }

  /** With triangles only, index 3f + k of the flat list is corner k of face f. */
  lemma {:induction false} FlattenTriangles(faces: seq<seq<nat>>)
    requires forall f :: 0 <= f < |faces| ==> |faces[f]| == 3
    ensures |Flatten(faces)| == 3 * |faces|
    ensures forall f, k :: 0 <= f < |faces| && 0 <= k < 3 ==> Flatten(faces)[3 * f + k] == faces[f][k]
  {
    if |faces| > 0 {
      FlattenTriangles(faces[..|faces| - 1]);
    }
  }

  /**
   * The index list as the scene constructor builds it: each unsigned face
   * index is pushed into the uint16_t vector, which keeps it modulo 2^16.
   */
  function TruncatedIndices(faces: seq<seq<nat>>): (indices: seq<uint16>)
    ensures |indices| == |Flatten(faces)|
  {
    var flat := Flatten(faces);
    seq(|flat|, j requires 0 <= j < |flat| => (flat[j] % UINT16_LIMIT) as uint16)
  }

  /** Every index below 2^16. */
  predicate FitsIndexType(indices: seq<nat>) {
    forall j :: 0 <= j < |indices| ==> indices[j] < UINT16_LIMIT
  }

  /**
   * The truncated list is the face list exactly when every index fits in 16
   * bits; otherwise some triangle silently refers to another vertex.
   */
  lemma TruncationKeepsIndicesIff(faces: seq<seq<nat>>)
    ensures (forall j :: 0 <= j < |Flatten(faces)| ==> TruncatedIndices(faces)[j] as int == Flatten(faces)[j])
            <==> FitsIndexType(Flatten(faces))
  {
    var flat := Flatten(faces);
    if !FitsIndexType(flat) {
      var j :| 0 <= j < |flat| && flat[j] >= UINT16_LIMIT;
      assert TruncatedIndices(faces)[j] as int != flat[j];
    }
  }

  /** A triangle over vertices 65536, 65537 and 65538 is drawn over vertices 0, 1 and 2. */
  lemma TruncatedTriangleAliasesFirstVertices()
    ensures Flatten([[65536, 65537, 65538]]) == [65536, 65537, 65538]
    ensures TruncatedIndices([[65536, 65537, 65538]]) == [0, 1, 2]
  {
    var faces: seq<seq<nat>> := [[65536, 65537, 65538]];
    assert faces[..0] == [];
    assert Flatten(faces) == [65536, 65537, 65538];
  }

  /**
   * The face loop of the scene constructor with the narrowing checked: the
   * face indices concatenated in face order when all of them fit in 16
   * bits, and nothing otherwise.
   */
  method FlattenFaces(faces: seq<seq<nat>>) returns (indices: Option<seq<uint16>>)
    requires forall f :: 0 <= f < |faces| ==> |faces[f]| == 3
    ensures indices.Some? <==> FitsIndexType(Flatten(faces))
    ensures indices.Some? ==>
              && |indices.value| == 3 * |faces|
              && forall f, k :: 0 <= f < |faces| && 0 <= k < 3 ==> indices.value[3 * f + k] as int == faces[f][k]
  {
    FlattenTriangles(faces);
    var flat: seq<uint16> := [];
    for f := 0 to |faces|
      invariant |flat| == 3 * f
      invariant forall j :: 0 <= j < 3 * f ==> flat[j] as int == Flatten(faces)[j]
    {
      var face := faces[f];
      if face[0] >= UINT16_LIMIT || face[1] >= UINT16_LIMIT || face[2] >= UINT16_LIMIT {
        var k :| 0 <= k < 3 && face[k] >= UINT16_LIMIT;
        assert Flatten(faces)[3 * f + k] == face[k];
        return None;
      }
      flat := flat + [face[0] as uint16, face[1] as uint16, face[2] as uint16];
    }
    return Some(flat);
  }

  /**
   * The face loop of the scene constructor as written: the three corners of
   * each face, in face order, each pushed into the uint16_t index vector,
   * which keeps it modulo 2^16.
   */
  method PushFaceIndices(faces: seq<seq<nat>>) returns (indices: seq<uint16>)
    requires forall f :: 0 <= f < |faces| ==> |faces[f]| == 3
    ensures |indices| == 3 * |faces|
    ensures forall f, k :: 0 <= f < |faces| && 0 <= k < 3 ==> indices[3 * f + k] as int == faces[f][k] % UINT16_LIMIT
    ensures indices == TruncatedIndices(faces)
  {
    FlattenTriangles(faces);
    indices := [];
    for f := 0 to |faces|
      invariant |indices| == 3 * f
      invariant forall j :: 0 <= j < 3 * f ==> indices[j] as int == Flatten(faces)[j] % UINT16_LIMIT
    {
      var face := faces[f];
      indices := indices + [(face[0] % UINT16_LIMIT) as uint16, (face[1] % UINT16_LIMIT) as uint16,
                            (face[2] % UINT16_LIMIT) as uint16];
    }
  }

  /**
   * The scene constructor: the vertices of the first mesh, its faces
   * flattened into the index list, each index narrowed to 16 bits, and the
   * upload of both. A face index of 2^16 or more is not rejected: it
   * silently names vertex `index mod 2^16` (see FlattenFaces for the
   * checked flattening).
   */
  method MeshFromScene(drv: Driver, device: Device, scene: SceneMesh, vertexBytes: seq<byte>,
                       vertexUpload: UploadRequirements, indexUpload: UploadRequirements)
    returns (mesh: Mesh)
    requires drv.Valid()
    requires device.alive
    requires WellFormedScene(scene)
    requires |vertexBytes| == VertexSize() * |scene.positions|
    requires MemoryAvailable(device.physical.memoryTypes, vertexUpload)
    requires MemoryAvailable(device.physical.memoryTypes, indexUpload)
    modifies drv
    ensures drv.Valid()
    ensures fresh(mesh)
    ensures |mesh.vertices| == |scene.positions|
    ensures forall i :: 0 <= i < |scene.positions| ==>
              && mesh.vertices[i].position == scene.positions[i]
              && mesh.vertices[i].normal == Vec3(0.0, 0.0, 0.0)
              && mesh.vertices[i].color == SCENE_VERTEX_COLOR
              && mesh.vertices[i].uv == (if scene.texCoords.Some?
                                         then Vec2(scene.texCoords.value[i].x, scene.texCoords.value[i].y)
                                         else Vec2(0.0, 0.0))
    ensures |mesh.indices| == 3 * |scene.faces|
    ensures forall f, k :: 0 <= f < |scene.faces| && 0 <= k < 3 ==>
              mesh.indices[3 * f + k] as int == scene.faces[f][k] % UINT16_LIMIT
    ensures mesh.indices == TruncatedIndices(scene.faces)
    ensures mesh.BuffersAt(old(drv.st.nextHandle), |vertexBytes|)
    ensures Uploaded(old(drv.st), drv.st, vertexBytes, IndexBytes(mesh.indices))
  {
    var vertices := SceneVertices(scene);
    var indices := PushFaceIndices(scene.faces);
    mesh := new Mesh(drv, device, vertices, indices, vertexBytes, vertexUpload, indexUpload);
  }
}
