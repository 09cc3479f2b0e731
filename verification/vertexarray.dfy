/**
  VertexArray: a GL vertex array object with one attribute slot per attached
  VertexBuffer ("separate arrays" layout, offset 0, tightly packed floats).
 */
module VertexArrays {
  import opened Device
  import VertexBuffers

  /** `buffers` is the array's list of owned buffers, the ones its destructor deletes. */
  datatype VertexArray = VertexArray(id: Name, buffers: seq<VertexBuffers.VertexBuffer>)

  /** The constructor: one fresh name, no owned buffers, no binding touched. */
  function New(s: Device): (r: Step<VertexArray>)
    ensures r.obj.buffers == [] && r.obj.id != 0 && Fresh(s, r.obj.id)
    ensures s.next <= r.obj.id < r.state.next
    ensures r.state.bind == s.bind && r.state.storage == s.storage
    ensures r.state.log == s.log + [Created(VertexArrayObject, r.obj.id)]
  {
    var g := Gen(s, VertexArrayObject);
    Step(VertexArray(g.obj, []), g.state)
  }

  function Bind(s: Device, va: VertexArray): (r: Device)
    ensures r.bind == s.bind.(vertexArray := va.id)
    ensures r.log == s.log && r.storage == s.storage && r.next == s.next
  {
    BindVertexArray(s, va.id)
  }

  function Unbind(s: Device, va: VertexArray): (r: Device)
    ensures r.bind == s.bind.(vertexArray := 0)
    ensures r.log == s.log && r.storage == s.storage && r.next == s.next
  {
    BindVertexArray(s, 0)
  }

  /** The attribute pointer addVertexBuffer declares for `vb` on `slot`. */
  function Layout(vao: Name, vb: VertexBuffers.VertexBuffer, slot: nat): Event {
    AttribPointer(vao, vb.id, slot, vb.componentCount, vb.componentCount * FloatSize, 0)
  }

  /**
    The GL side of addVertexBuffer: with this array and `vb` bound, enable
    exactly `slot` and point it at `vb`, then unbind both.
   */
  function AttachLayout(s: Device, va: VertexArray, vb: VertexBuffers.VertexBuffer, slot: nat): (r: Device)
    ensures r.bind == s.bind.(vertexArray := 0, arrayBuffer := 0)
    ensures r.storage == s.storage && r.next == s.next
    ensures r.log == s.log + [AttribEnabled(va.id, slot), Layout(va.id, vb, slot)]
  {
    var s1 := Bind(s, va);
    var s2 := VertexBuffers.Bind(s1, vb);
    var s3 := EnableVertexAttribArray(s2, slot);
    var s4 := VertexAttribPointer(s3, slot, vb.componentCount, vb.componentCount * FloatSize, 0);
    var s5 := VertexBuffers.Unbind(s4, vb);
    Unbind(s5, va)
  }

  /** addVertexBuffer as written: the GL layout is set, but the buffer is never added to the owned list. */
  function AddVertexBufferAsWritten(s: Device, va: VertexArray, vb: VertexBuffers.VertexBuffer, slot: nat): (r: Step<VertexArray>)
    ensures r.obj == va
    ensures r.state.bind == s.bind.(vertexArray := 0, arrayBuffer := 0)
    ensures r.state.storage == s.storage && r.state.next == s.next
    ensures r.state.log == s.log + [AttribEnabled(va.id, slot), Layout(va.id, vb, slot)]
  {
    Step(va, AttachLayout(s, va, vb, slot))
  }

  /** addVertexBuffer with the ownership the destructor relies on: the buffer joins the owned list. */
  function AddVertexBuffer(s: Device, va: VertexArray, vb: VertexBuffers.VertexBuffer, slot: nat): (r: Step<VertexArray>)
    ensures r.obj.id == va.id && r.obj.buffers == va.buffers + [vb]
    ensures r.state.bind == s.bind.(vertexArray := 0, arrayBuffer := 0)
    ensures r.state.storage == s.storage && r.state.next == s.next
    ensures r.state.log == s.log + [AttribEnabled(va.id, slot), Layout(va.id, vb, slot)]
  {
    Step(va.(buffers := va.buffers + [vb]), AttachLayout(s, va, vb, slot))
  }

  /** The names of a list of buffers. */
  function Ids(bufs: seq<VertexBuffers.VertexBuffer>): (ids: seq<Name>)
    ensures |ids| == |bufs| && forall i | 0 <= i < |bufs| :: ids[i] == bufs[i].id
  {
    seq(|bufs|, i requires 0 <= i < |bufs| => bufs[i].id)
  }

  function Deletions(ids: seq<Name>): (es: seq<Event>)
    ensures |es| == |ids| && forall i | 0 <= i < |ids| :: es[i] == Deleted(BufferObject, ids[i])
  {
    seq(|ids|, i requires 0 <= i < |ids| => Deleted(BufferObject, ids[i]))
  }

  /** The destructor's loop: delete every owned buffer, in list order. */
  function DeleteBuffers(s: Device, bufs: seq<VertexBuffers.VertexBuffer>): (r: Device)
    ensures r.bind == s.bind && r.storage == s.storage
    ensures r.log == s.log + Deletions(Ids(bufs))
    decreases |bufs|
  {
    if bufs == [] then s
    else
      var r := DeleteBuffers(VertexBuffers.Destroy(s, bufs[0]), bufs[1..]);
      assert Deletions(Ids(bufs)) == [Deleted(BufferObject, bufs[0].id)] + Deletions(Ids(bufs[1..]));
      AppendAssoc(s.log, [Deleted(BufferObject, bufs[0].id)], Deletions(Ids(bufs[1..])));
      r
  }

  /** The destructor: every owned buffer, then the array itself. */
  function Destroy(s: Device, va: VertexArray): (r: Device)
    ensures r.bind == s.bind && r.storage == s.storage
    ensures r.log == s.log + Deletions(Ids(va.buffers)) + [Deleted(VertexArrayObject, va.id)]
  {
    Delete(DeleteBuffers(s, va.buffers), VertexArrayObject, va.id)
  }

  /** The destructor deletes each owned buffer as often as it is owned, the array once, and nothing else. */
  lemma DestroyDeletesExactly(s: Device, va: VertexArray)
    ensures forall n: Name :: Count(Destroy(s, va).log, Deleted(BufferObject, n))
                              == Count(s.log, Deleted(BufferObject, n)) + multiset(Ids(va.buffers))[n]
    ensures Count(Destroy(s, va).log, Deleted(VertexArrayObject, va.id)) == Count(s.log, Deleted(VertexArrayObject, va.id)) + 1
    ensures forall e: Event | !e.Deleted? :: Count(Destroy(s, va).log, e) == Count(s.log, e)
  {
    DeletionsCount(Ids(va.buffers));
  }

  lemma {:induction false} DeletionsCount(ids: seq<Name>)
    ensures forall n: Name :: multiset(Deletions(ids))[Deleted(BufferObject, n)] == multiset(ids)[n]
    ensures forall e: Event | !e.Deleted? || e.kind != BufferObject :: multiset(Deletions(ids))[e] == 0
  {
    if ids != [] {
      DeletionsCount(ids[1..]);
      assert ids == [ids[0]] + ids[1..];
      assert Deletions(ids) == [Deleted(BufferObject, ids[0])] + Deletions(ids[1..]);
    }
  }

  /** Binding, then unbinding, leaves the vertex-array binding at 0 whatever it was before. */
  lemma BindNeutral(s: Device, va: VertexArray)
    ensures Unbind(Bind(s, va), va).bind == s.bind.(vertexArray := 0)
    ensures s.bind.vertexArray == 0 ==> Unbind(Bind(s, va), va) == s
  {
  }

  /**
    As written, a buffer attached to a fresh array is never deleted by the
    array's destructor: its deletion count does not move.
   */
  lemma AsWrittenLeaksAttached(s: Device, vb: VertexBuffers.VertexBuffer, slot: nat)
    ensures var c := New(s);
            var a := AddVertexBufferAsWritten(c.state, c.obj, vb, slot);
            var d := Destroy(a.state, a.obj);
            Count(d.log, Deleted(BufferObject, vb.id)) == Count(s.log, Deleted(BufferObject, vb.id))
  {
    var c := New(s);
    var a := AddVertexBufferAsWritten(c.state, c.obj, vb, slot);
    DestroyDeletesExactly(a.state, a.obj);
  }

  /** Appending unrelated events, then the deletion of `n`, then more unrelated events counts one more deletion of `n`. */
  lemma DeletedOnceMore(log: seq<Event>, es: seq<Event>, k: Kind, n: Name, after: seq<Event>)
    requires Deleted(k, n) !in es && Deleted(k, n) !in after
    ensures Count(log + es + [Deleted(k, n)] + after, Deleted(k, n)) == Count(log, Deleted(k, n)) + 1
  {
    CountPast(log, es, Deleted(k, n));
    CountAppend(log + es, [Deleted(k, n)], Deleted(k, n));
    CountPast(log + es + [Deleted(k, n)], after, Deleted(k, n));
  }

  /** With ownership recorded, destroying a fresh array deletes the buffer attached to it exactly once more. */
  lemma DestroyReleasesAttached(s: Device, vb: VertexBuffers.VertexBuffer, slot: nat)
    ensures var c := New(s);
            var a := AddVertexBuffer(c.state, c.obj, vb, slot);
            var d := Destroy(a.state, a.obj);
            Count(d.log, Deleted(BufferObject, vb.id)) == Count(s.log, Deleted(BufferObject, vb.id)) + 1
  {
    var c := New(s);
    var a := AddVertexBuffer(c.state, c.obj, vb, slot);
    var es := [Created(VertexArrayObject, c.obj.id), AttribEnabled(c.obj.id, slot), Layout(c.obj.id, vb, slot)];
    assert Ids(a.obj.buffers) == [vb.id];
    assert Destroy(a.state, a.obj).log == s.log + es + [Deleted(BufferObject, vb.id)] + [Deleted(VertexArrayObject, c.obj.id)] by {
      AppendAssoc(s.log, [Created(VertexArrayObject, c.obj.id)], [AttribEnabled(c.obj.id, slot), Layout(c.obj.id, vb, slot)]);
    }
    DeletedOnceMore(s.log, es, BufferObject, vb.id, [Deleted(VertexArrayObject, c.obj.id)]);
  }
}
