/**
  IndexBuffer: a GL element array buffer filled once from `primitiveCount`
  primitives of `componentCount` unsigned-int indices each.
 */
module IndexBuffers {
  import opened Device

  datatype IndexBuffer = IndexBuffer(id: Name, primitiveCount: Uint, componentCount: Uint)

  /** Bytes the constructor copies: primitiveCount * componentCount in unsigned arithmetic, widened, times sizeof(unsigned int). */
  function UploadBytes(primitiveCount: Uint, componentCount: Uint): nat {
    UintProduct(primitiveCount, componentCount) * UintSize
  }

  /** The index count draws issue from this buffer: getPrimitiveCount() * getComponentCount(). */
  function DrawCount(ib: IndexBuffer): Uint {
    UintProduct(ib.primitiveCount, ib.componentCount)
  }

  /**
    The constructor. The upload is recorded against the length of `indices`,
    the array the caller really passes, so an over-read shows.
   */
  function New(s: Device, indices: seq<nat>, primitiveCount: Uint, componentCount: Uint): (r: Step<IndexBuffer>)
    ensures r.obj.primitiveCount == primitiveCount && r.obj.componentCount == componentCount
    ensures r.obj.id != 0 && Fresh(s, r.obj.id)
    ensures s.next <= r.obj.id < r.state.next
    ensures r.state.bind == s.bind.(elementBuffer := 0)
    ensures r.state.log == s.log + [Created(BufferObject, r.obj.id),
                                    Upload(ElementArrayBuffer, r.obj.id, UploadBytes(primitiveCount, componentCount), |indices| * UintSize)]
    ensures r.state.storage == s.storage[r.obj.id := Filled(UploadBytes(primitiveCount, componentCount), |indices| * UintSize)]
  {
    var g := Gen(s, BufferObject);
    var s1 := BindBuffer(g.state, ElementArrayBuffer, g.obj);
    var s2 := BufferData(s1, ElementArrayBuffer, UploadBytes(primitiveCount, componentCount), |indices| * UintSize);
    Step(IndexBuffer(g.obj, primitiveCount, componentCount), BindBuffer(s2, ElementArrayBuffer, 0))
  }

  function Bind(s: Device, ib: IndexBuffer): (r: Device)
    ensures r.bind == s.bind.(elementBuffer := ib.id)
    ensures r.log == s.log && r.storage == s.storage && r.next == s.next
  {
    BindBuffer(s, ElementArrayBuffer, ib.id)
  }

  function Unbind(s: Device, ib: IndexBuffer): (r: Device)
    ensures r.bind == s.bind.(elementBuffer := 0)
    ensures r.log == s.log && r.storage == s.storage && r.next == s.next
  {
    BindBuffer(s, ElementArrayBuffer, 0)
  }

  /** The destructor. */
  function Destroy(s: Device, ib: IndexBuffer): (r: Device)
    ensures r.bind == s.bind && r.storage == s.storage
    ensures r.log == s.log + [Deleted(BufferObject, ib.id)]
  {
    Delete(s, BufferObject, ib.id)
  }

  /** The upload stays inside `indices` exactly when it holds the (wrapped) product of the counts. */
  lemma UploadInBounds(s: Device, indices: seq<nat>, primitiveCount: Uint, componentCount: Uint)
    ensures var r := New(s, indices, primitiveCount, componentCount).state;
            !OverReads(r.log[|r.log| - 1]) <==> UintProduct(primitiveCount, componentCount) <= |indices|
    ensures primitiveCount * componentCount < UintRange ==>
              (!OverReads(New(s, indices, primitiveCount, componentCount).state.log[|s.log| + 1])
               <==> primitiveCount * componentCount <= |indices|)
  {
  }

  /**
    Once this buffer is bound, a draw of DrawCount indices reads only indices
    copied from `indices` exactly when the upload did not over-read.
   */
  lemma DrawWithinUpload(s: Device, indices: seq<nat>, primitiveCount: Uint, componentCount: Uint)
    ensures var c := New(s, indices, primitiveCount, componentCount);
            var d := Draw(Bind(c.state, c.obj), DrawCount(c.obj));
            !OverDraws(d.log[|d.log| - 1]) <==> DrawCount(c.obj) <= |indices|
  {
  }

  /** Bind then Unbind gives back the starting context when no element buffer was bound, and binding twice is binding once. */
  lemma BindNeutral(s: Device, ib: IndexBuffer)
    ensures Unbind(Bind(s, ib), ib).bind == s.bind.(elementBuffer := 0)
    ensures s.bind.elementBuffer == 0 ==> Unbind(Bind(s, ib), ib) == s
    ensures Bind(Bind(s, ib), ib) == Bind(s, ib)
  {
  }

  /** A buffer built and then destroyed was created exactly once and is deleted once more than before. */
  lemma CreateDeletePaired(s: Device, indices: seq<nat>, primitiveCount: Uint, componentCount: Uint)
    ensures var c := New(s, indices, primitiveCount, componentCount);
            var r := Destroy(c.state, c.obj);
            && Count(r.log, Created(BufferObject, c.obj.id)) == 1
            && Count(r.log, Deleted(BufferObject, c.obj.id)) == Count(s.log, Deleted(BufferObject, c.obj.id)) + 1
  {
    var c := New(s, indices, primitiveCount, componentCount);
    assert Created(BufferObject, c.obj.id) !in s.log;
  }
}
