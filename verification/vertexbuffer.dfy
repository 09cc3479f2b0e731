/**
  VertexBuffer: a GL array buffer filled once from a float array of
  `vertexCount` vertices with `componentCount` floats each.
 */
module VertexBuffers {
  import opened Device

  datatype VertexBuffer = VertexBuffer(id: Name, vertexCount: Uint, componentCount: Uint)

  /** Bytes the constructor copies: vertexCount * componentCount in unsigned arithmetic, widened, times sizeof(float). */
  function UploadBytes(vertexCount: Uint, componentCount: Uint): nat {
    UintProduct(vertexCount, componentCount) * FloatSize
  }

  /**
    The constructor. `floats` is the number of floats the caller's `vertices`
    array really holds; the upload is recorded against it, so an over-read shows.
   */
  function New(s: Device, floats: nat, vertexCount: Uint, componentCount: Uint): (r: Step<VertexBuffer>)
    ensures r.obj.vertexCount == vertexCount && r.obj.componentCount == componentCount
    ensures r.obj.id != 0 && Fresh(s, r.obj.id)
    ensures s.next <= r.obj.id < r.state.next
    ensures r.state.bind == s.bind.(arrayBuffer := 0)
    ensures r.state.log == s.log + [Created(BufferObject, r.obj.id),
                                    Upload(ArrayBuffer, r.obj.id, UploadBytes(vertexCount, componentCount), floats * FloatSize)]
    ensures r.state.storage == s.storage[r.obj.id := Filled(UploadBytes(vertexCount, componentCount), floats * FloatSize)]
  {
    var g := Gen(s, BufferObject);
    var s1 := BindBuffer(g.state, ArrayBuffer, g.obj);
    var s2 := BufferData(s1, ArrayBuffer, UploadBytes(vertexCount, componentCount), floats * FloatSize);
    Step(VertexBuffer(g.obj, vertexCount, componentCount), BindBuffer(s2, ArrayBuffer, 0))
  }

  function Bind(s: Device, vb: VertexBuffer): (r: Device)
    ensures r.bind == s.bind.(arrayBuffer := vb.id)
    ensures r.log == s.log && r.storage == s.storage && r.next == s.next
  {
    BindBuffer(s, ArrayBuffer, vb.id)
  }

  function Unbind(s: Device, vb: VertexBuffer): (r: Device)
    ensures r.bind == s.bind.(arrayBuffer := 0)
    ensures r.log == s.log && r.storage == s.storage && r.next == s.next
  {
    BindBuffer(s, ArrayBuffer, 0)
  }

  /** The destructor. */
  function Destroy(s: Device, vb: VertexBuffer): (r: Device)
    ensures r.bind == s.bind && r.storage == s.storage
    ensures r.log == s.log + [Deleted(BufferObject, vb.id)]
  {
    Delete(s, BufferObject, vb.id)
  }

  /** The upload stays inside the source array exactly when it holds the (wrapped) product of the counts. */
  lemma UploadInBounds(s: Device, floats: nat, vertexCount: Uint, componentCount: Uint)
    ensures var r := New(s, floats, vertexCount, componentCount).state;
            !OverReads(r.log[|r.log| - 1]) <==> UintProduct(vertexCount, componentCount) <= floats
    ensures vertexCount * componentCount < UintRange ==>
              (!OverReads(New(s, floats, vertexCount, componentCount).state.log[|s.log| + 1]) <==> vertexCount * componentCount <= floats)
  {
  }

  /** Bind then Unbind gives back the starting context when no array buffer was bound, and binding twice is binding once. */
  lemma BindNeutral(s: Device, vb: VertexBuffer)
    ensures Unbind(Bind(s, vb), vb).bind == s.bind.(arrayBuffer := 0)
    ensures s.bind.arrayBuffer == 0 ==> Unbind(Bind(s, vb), vb) == s
    ensures Bind(Bind(s, vb), vb) == Bind(s, vb)
  {
  }

  /** A buffer built and then destroyed was created exactly once and is deleted once more than before. */
  lemma CreateDeletePaired(s: Device, floats: nat, vertexCount: Uint, componentCount: Uint)
    ensures var c := New(s, floats, vertexCount, componentCount);
            var r := Destroy(c.state, c.obj);
            && Count(r.log, Created(BufferObject, c.obj.id)) == 1
            && Count(r.log, Deleted(BufferObject, c.obj.id)) == Count(s.log, Deleted(BufferObject, c.obj.id)) + 1
  {
    var c := New(s, floats, vertexCount, componentCount);
    assert Created(BufferObject, c.obj.id) !in s.log;
  }
}
