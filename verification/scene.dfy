/**
  The demo scene: the cube's index list, the objects built before the render
  loop, the per-frame sequence of binds, draws and unbinds, and the teardown.
  Shaders are taken as already built; the float uniforms (lights, matrices)
  are not enumerated, since they change no binding.
 */
module Scene {
  import opened Device
  import Shaders
  import Textures
  import VertexArrays
  import VertexBuffers
  import IndexBuffers

  // ---------------------------------------------------------------------
  // Cube indices

  /** Face f's two triangles: corners 0, 1, 2 and 2, 3, 0 of its four vertices 4f .. 4f+3. */
  function Quad(f: nat): seq<nat> {
    [4 * f, 4 * f + 1, 4 * f + 2, 4 * f + 2, 4 * f + 3, 4 * f]
  }

  /** The index list of the first n faces. */
  function Faces(n: nat): (ix: seq<nat>)
    ensures |ix| == 6 * n
  {
    if n == 0 then [] else Faces(n - 1) + Quad(n - 1)
  }

  /** The cube's 36 indices. */
  const FaceCount: nat := 6
  const IndexCount: nat := 36

  function CubeIndices(): (ix: seq<nat>)
    ensures |ix| == IndexCount
  {
    Faces(FaceCount)
  }

  /** The loop that fills the 36-entry index array, face by face. */
  method BuildCubeIndices() returns (indices: seq<nat>)
    ensures indices == CubeIndices()
  {
    indices := [];
    var i := 0;
    while i < 6
      invariant 0 <= i <= 6
      invariant indices == Faces(i)
    {
      indices := indices + [0 + i * 4, 1 + i * 4, 2 + i * 4, 2 + i * 4, 3 + i * 4, 0 + i * 4];
      i := i + 1;
    }
  }

  /** Entries 6f .. 6f+5 of the list are face f's two triangles. */
  lemma {:induction false} FaceSlice(n: nat, f: nat)
    requires f < n
    ensures Faces(n)[6 * f..6 * f + 6] == Quad(f)
  {
    if f < n - 1 {
      FaceSlice(n - 1, f);
      assert Faces(n)[..6 * (n - 1)] == Faces(n - 1);
    }
  }

  /** Every index of the first n faces names one of their 4n vertices. */
  lemma {:induction false} FacesBelow(n: nat)
    ensures forall j | 0 <= j < |Faces(n)| :: Faces(n)[j] < 4 * n
  {
    if n > 0 {
      FacesBelow(n - 1);
      var ix := Faces(n);
      assert forall j | 0 <= j < 6 * (n - 1) :: ix[j] == Faces(n - 1)[j];
      assert forall j | 6 * (n - 1) <= j < 6 * n :: ix[j] == Quad(n - 1)[j - 6 * (n - 1)];
    }
  }

  /** Every index names one of the 24 vertices each vertex buffer holds. */
  lemma IndicesInRange()
    ensures |CubeIndices()| == 36
    ensures forall j | 0 <= j < 36 :: CubeIndices()[j] < 24
  {
    FacesBelow(6);
  }

  /** Face f's two triangles use exactly face f's four vertices 4f .. 4f+3. */
  function Face(f: nat): seq<nat>
    requires f < 6
  {
    CubeIndices()[6 * f..6 * f + 6]
  }

  lemma FaceUsesItsCorners(f: nat)
    requires f < 6
    ensures (set x | x in Face(f)) == {4 * f, 4 * f + 1, 4 * f + 2, 4 * f + 3}
  {
    FaceSlice(6, f);
  }

  // ---------------------------------------------------------------------
  // Vertex arrays

  /** Vertices per attribute buffer: four per face, six faces. */
  const CubeVertices: Uint := 24

  /** Floats in the position, normal and texture-coordinate arrays. */
  const PositionFloats: nat := 72
  const NormalFloats: nat := 72
  const TexCoordFloats: nat := 48

  /** What building one vertex buffer and attaching it to the array named `vao` on `slot` appends. */
  function AttachEvents(vao: Name, vb: VertexBuffers.VertexBuffer, floats: nat, slot: nat): seq<Event> {
    [Created(BufferObject, vb.id),
     Upload(ArrayBuffer, vb.id, VertexBuffers.UploadBytes(vb.vertexCount, vb.componentCount), floats * FloatSize),
     AttribEnabled(vao, slot),
     VertexArrays.Layout(vao, vb, slot)]
  }

  /**
    Which constructors the scene is built with: `AsWritten` runs
    addVertexBuffer and Texture's constructor as the program has them,
    `Corrected` the versions that keep the buffer and pick the format.
   */
  datatype Version = AsWritten | Corrected

  /** One attribute of the "separate arrays" layout: the floats its source array holds, and the components per vertex. */
  datatype Attribute = Attribute(floats: nat, components: Uint)

  /** The cube's attributes on slots 0, 1, 2: position, normal, texture coordinates. */
  const CubeAttributes: seq<Attribute> := [Attribute(PositionFloats, 3), Attribute(NormalFloats, 3), Attribute(TexCoordFloats, 2)]

  /** The lamp's only attribute, on slot 0: position. */
  const LampAttributes: seq<Attribute> := [Attribute(PositionFloats, 3)]

  /** A vertex array and the vertex buffers created for it, whether or not the array's list records them. */
  datatype Built = Built(vao: VertexArrays.VertexArray, buffers: seq<VertexBuffers.VertexBuffer>)

  /** Buffers named in strictly increasing order, every name in [lo, hi). */
  predicate NamedBetween(bufs: seq<VertexBuffers.VertexBuffer>, lo: Name, hi: Name) {
    && (forall i, j | 0 <= i < j < |bufs| :: bufs[i].id < bufs[j].id)
    && (forall i | 0 <= i < |bufs| :: lo <= bufs[i].id < hi)
  }

  /** Two runs of names, the second above the first, make one run. */
  lemma JoinNamed(a: seq<VertexBuffers.VertexBuffer>, b: seq<VertexBuffers.VertexBuffer>, lo: Name, mid: Name, hi: Name, top: Name)
    requires NamedBetween(a, lo, mid) && NamedBetween(b, mid, hi) && lo <= mid <= hi <= top
    ensures NamedBetween(a + b, lo, top)
  {
    forall i | |a| <= i < |a + b|
      ensures lo <= (a + b)[i].id < top
    {
      assert (a + b)[i] == b[i - |a|];
    }
    forall i, j | 0 <= i < j < |a + b|
      ensures (a + b)[i].id < (a + b)[j].id
    {
      if j < |a| {
      } else if i < |a| {
        assert (a + b)[j] == b[j - |a|];
      } else {
        assert (a + b)[i] == b[i - |a|] && (a + b)[j] == b[j - |a|];
      }
    }
  }

  lemma ListAssoc(a: seq<VertexBuffers.VertexBuffer>, b: seq<VertexBuffers.VertexBuffer>, c: seq<VertexBuffers.VertexBuffer>)
    ensures a + b + c == a + (b + c)
  {
  }

  /** addVertexBuffer(new VertexBuffer(array, 24, componentCount), slot), with either version of addVertexBuffer. */
  function Attach(s: Device, va: VertexArrays.VertexArray, floats: nat, componentCount: Uint, slot: nat, v: Version)
    : (r: Step<(VertexArrays.VertexArray, VertexBuffers.VertexBuffer)>)
    ensures r.obj.0.id == va.id && r.obj.0.buffers == (if v.Corrected? then va.buffers + [r.obj.1] else va.buffers)
    ensures r.obj.1.vertexCount == CubeVertices && r.obj.1.componentCount == componentCount
    ensures s.next <= r.obj.1.id < r.state.next
    ensures r.state.log == s.log + AttachEvents(va.id, r.obj.1, floats, slot)
    ensures r.state.bind == s.bind.(vertexArray := 0, arrayBuffer := 0)
  {
    var vb := VertexBuffers.New(s, floats, CubeVertices, componentCount);
    var a := if v.Corrected? then VertexArrays.AddVertexBuffer(vb.state, va, vb.obj, slot)
             else VertexArrays.AddVertexBufferAsWritten(vb.state, va, vb.obj, slot);
    AppendAssoc(s.log, [Created(BufferObject, vb.obj.id), Upload(ArrayBuffer, vb.obj.id, VertexBuffers.UploadBytes(CubeVertices, componentCount), floats * FloatSize)],
                [AttribEnabled(va.id, slot), VertexArrays.Layout(va.id, vb.obj, slot)]);
    Step((a.obj, vb.obj), a.state)
  }

  /** What attaching `bufs` for `attrs`, on consecutive slots from `slot`, appends: one AttachEvents per buffer. */
  function AttachedEvents(vao: Name, bufs: seq<VertexBuffers.VertexBuffer>, attrs: seq<Attribute>, slot: nat): seq<Event>
    decreases |bufs|
  {
    if bufs == [] || attrs == [] then []
    else AttachEvents(vao, bufs[0], attrs[0].floats, slot) + AttachedEvents(vao, bufs[1..], attrs[1..], slot + 1)
  }

  /**
    One fresh vertex buffer per attribute, attached on consecutive slots from
    `slot`; the array's list grows by the new buffers only in the corrected version.
   */
  function AttachFrom(s: Device, va: VertexArrays.VertexArray, attrs: seq<Attribute>, slot: nat, v: Version): (r: Step<Built>)
    ensures r.obj.vao.id == va.id
    ensures r.obj.vao.buffers == if v.Corrected? then va.buffers + r.obj.buffers else va.buffers
    ensures |r.obj.buffers| == |attrs|
    ensures r.state.log == s.log + AttachedEvents(va.id, r.obj.buffers, attrs, slot)
    ensures r.state.bind == if attrs == [] then s.bind else s.bind.(vertexArray := 0, arrayBuffer := 0)
    decreases |attrs|
  {
    if attrs == [] then Step(Built(va, []), s)
    else
      var a := Attach(s, va, attrs[0].floats, attrs[0].components, slot, v);
      var rest := AttachFrom(a.state, a.obj.0, attrs[1..], slot + 1, v);
      var bufs := [a.obj.1] + rest.obj.buffers;
      assert bufs[1..] == rest.obj.buffers;
      AppendAssoc(s.log, AttachEvents(va.id, a.obj.1, attrs[0].floats, slot), AttachedEvents(va.id, rest.obj.buffers, attrs[1..], slot + 1));
      ListAssoc(va.buffers, [a.obj.1], rest.obj.buffers);
      Step(Built(rest.obj.vao, bufs), rest.state)
  }

  /** One step of AttachFrom: the first attribute's buffer, then those of the rest, from the state it leaves. */
  lemma AttachFromStep(s: Device, va: VertexArrays.VertexArray, attrs: seq<Attribute>, slot: nat, v: Version)
    requires attrs != []
    ensures var a := Attach(s, va, attrs[0].floats, attrs[0].components, slot, v);
            var rest := AttachFrom(a.state, a.obj.0, attrs[1..], slot + 1, v);
            var r := AttachFrom(s, va, attrs, slot, v);
            r.obj.buffers == [a.obj.1] + rest.obj.buffers && r.state == rest.state
  {
  }

  /** Each new buffer holds the cube's 24 vertices with its attribute's component count. */
  lemma {:induction false} AttachFromShapes(s: Device, va: VertexArrays.VertexArray, attrs: seq<Attribute>, slot: nat, v: Version)
    ensures var r := AttachFrom(s, va, attrs, slot, v);
            forall k | 0 <= k < |attrs| :: r.obj.buffers[k].vertexCount == CubeVertices && r.obj.buffers[k].componentCount == attrs[k].components
    decreases |attrs|
  {
    if attrs != [] {
      var a := Attach(s, va, attrs[0].floats, attrs[0].components, slot, v);
      var rest := AttachFrom(a.state, a.obj.0, attrs[1..], slot + 1, v);
      AttachFromShapes(a.state, a.obj.0, attrs[1..], slot + 1, v);
      AttachFromStep(s, va, attrs, slot, v);
      ShapesCons(a.obj.1, rest.obj.buffers, attrs);
    }
  }

  /** Prepending a buffer of the first attribute's shape to buffers of the rest's shapes. */
  lemma ShapesCons(b: VertexBuffers.VertexBuffer, rest: seq<VertexBuffers.VertexBuffer>, attrs: seq<Attribute>)
    requires attrs != [] && |rest| == |attrs| - 1
    requires b.vertexCount == CubeVertices && b.componentCount == attrs[0].components
    requires forall k | 0 <= k < |rest| :: rest[k].vertexCount == CubeVertices && rest[k].componentCount == attrs[1..][k].components
    ensures forall k | 0 <= k < |attrs| :: ([b] + rest)[k].vertexCount == CubeVertices && ([b] + rest)[k].componentCount == attrs[k].components
  {
    forall k | 1 <= k < |attrs|
      ensures ([b] + rest)[k].vertexCount == CubeVertices && ([b] + rest)[k].componentCount == attrs[k].components
    {
      assert ([b] + rest)[k] == rest[k - 1] && attrs[k] == attrs[1..][k - 1];
    }
  }

  /** The new buffers get distinct names, in increasing order, all drawn after `s`. */
  lemma {:induction false} AttachFromNames(s: Device, va: VertexArrays.VertexArray, attrs: seq<Attribute>, slot: nat, v: Version)
    ensures var r := AttachFrom(s, va, attrs, slot, v);
            s.next <= r.state.next && NamedBetween(r.obj.buffers, s.next, r.state.next)
    decreases |attrs|
  {
    if attrs != [] {
      var a := Attach(s, va, attrs[0].floats, attrs[0].components, slot, v);
      var rest := AttachFrom(a.state, a.obj.0, attrs[1..], slot + 1, v);
      AttachFromNames(a.state, a.obj.0, attrs[1..], slot + 1, v);
      AttachFromStep(s, va, attrs, slot, v);
      NamedCons(a.obj.1, rest.obj.buffers, s.next, a.state.next, rest.state.next);
    }
  }

  /** A buffer named below a run of names, and not below `lo`, extends the run. */
  lemma NamedCons(b: VertexBuffers.VertexBuffer, rest: seq<VertexBuffers.VertexBuffer>, lo: Name, mid: Name, hi: Name)
    requires lo <= b.id < mid <= hi && NamedBetween(rest, mid, hi)
    ensures NamedBetween([b] + rest, lo, hi)
  {
    JoinNamed([b], rest, lo, mid, hi, hi);
  }

  /**
    The cube's array: position, normal and texture coordinates on slots 0, 1
    and 2, each its own buffer; the array's list holds the three buffers only
    in the corrected version.
   */
  function CubeArray(s: Device, v: Version): (r: Step<Built>)
    ensures |r.obj.buffers| == 3
    ensures r.obj.vao.buffers == if v.Corrected? then r.obj.buffers else []
    ensures r.obj.buffers[0].vertexCount == r.obj.buffers[1].vertexCount == r.obj.buffers[2].vertexCount == CubeVertices
    ensures r.obj.buffers[0].componentCount == 3 && r.obj.buffers[1].componentCount == 3 && r.obj.buffers[2].componentCount == 2
    ensures s.next <= r.obj.buffers[0].id < r.obj.buffers[1].id < r.obj.buffers[2].id < r.state.next
    ensures r.state.bind == s.bind.(vertexArray := 0, arrayBuffer := 0)
    ensures r.state.log == s.log + [Created(VertexArrayObject, r.obj.vao.id)] + AttachedEvents(r.obj.vao.id, r.obj.buffers, CubeAttributes, 0)
  {
    var c := VertexArrays.New(s);
    AttachFromShapes(c.state, c.obj, CubeAttributes, 0, v);
    AttachFromNames(c.state, c.obj, CubeAttributes, 0, v);
    AttachFrom(c.state, c.obj, CubeAttributes, 0, v)
  }

  /** The lamp's array: position only, on slot 0, from its own copy of the position data. */
  function LightArray(s: Device, v: Version): (r: Step<Built>)
    ensures |r.obj.buffers| == 1
    ensures r.obj.vao.buffers == if v.Corrected? then r.obj.buffers else []
    ensures r.obj.buffers[0].vertexCount == CubeVertices && r.obj.buffers[0].componentCount == 3
    ensures s.next <= r.obj.buffers[0].id < r.state.next
    ensures r.state.bind == s.bind.(vertexArray := 0, arrayBuffer := 0)
    ensures r.state.log == s.log + [Created(VertexArrayObject, r.obj.vao.id)] + AttachedEvents(r.obj.vao.id, r.obj.buffers, LampAttributes, 0)
  {
    var c := VertexArrays.New(s);
    AttachFromShapes(c.state, c.obj, LampAttributes, 0, v);
    AttachFromNames(c.state, c.obj, LampAttributes, 0, v);
    AttachFrom(c.state, c.obj, LampAttributes, 0, v)
  }

  /** Each attribute upload reads exactly its array: vertex count times components is the array's length. */
  lemma AttributeUploadsInBounds(vao: Name, vb: VertexBuffers.VertexBuffer, slot: nat)
    requires vb.vertexCount == CubeVertices && (vb.componentCount == 3 || vb.componentCount == 2)
    ensures var floats := if vb.componentCount == 3 then PositionFloats else TexCoordFloats;
            forall e | e in AttachEvents(vao, vb, floats, slot) :: !OverReads(e)
    ensures vb.componentCount == 3 ==> NormalFloats == PositionFloats
  {
  }

  /** Every attached buffer's attribute pointer is among the events, on its own slot. */
  lemma {:induction false} LayoutsRecorded(vao: Name, bufs: seq<VertexBuffers.VertexBuffer>, attrs: seq<Attribute>, slot: nat)
    requires |bufs| == |attrs|
    ensures forall k | 0 <= k < |bufs| :: VertexArrays.Layout(vao, bufs[k], slot + k) in AttachedEvents(vao, bufs, attrs, slot)
    decreases |bufs|
  {
    if bufs != [] {
      LayoutsRecorded(vao, bufs[1..], attrs[1..], slot + 1);
      var head := AttachEvents(vao, bufs[0], attrs[0].floats, slot);
      var tail := AttachedEvents(vao, bufs[1..], attrs[1..], slot + 1);
      forall k | 0 <= k < |bufs|
        ensures VertexArrays.Layout(vao, bufs[k], slot + k) in head + tail
      {
        if k == 0 {
          assert head[3] == VertexArrays.Layout(vao, bufs[0], slot);
        } else {
          assert bufs[k] == bufs[1..][k - 1];
        }
      }
    }
  }

  /** The cube's array declares slots 0, 1, 2 with 3, 3, 2 floats, tightly packed, each from its own buffer. */
  lemma CubeLayout(s: Device, v: Version)
    ensures var c := CubeArray(s, v);
            && AttribPointer(c.obj.vao.id, c.obj.buffers[0].id, 0, 3, 12, 0) in c.state.log
            && AttribPointer(c.obj.vao.id, c.obj.buffers[1].id, 1, 3, 12, 0) in c.state.log
            && AttribPointer(c.obj.vao.id, c.obj.buffers[2].id, 2, 2, 8, 0) in c.state.log
  {
    var c := CubeArray(s, v);
    LayoutsRecorded(c.obj.vao.id, c.obj.buffers, CubeAttributes, 0);
  }

  // ---------------------------------------------------------------------
  // Setup

  datatype Scene = Scene(
    lighting: Shaders.Shader,
    lamp: Shaders.Shader,
    cube: VertexArrays.VertexArray,
    light: VertexArrays.VertexArray,
    ibo: IndexBuffers.IndexBuffer,
    diffuseMap: Textures.Texture,
    specularMap: Textures.Texture,
    vertexBuffers: seq<VertexBuffers.VertexBuffer>)

  /** The sampler uniforms of the lighting shader, and the units the setup assigns them. */
  const DiffuseSampler: string := "material.diffuse"
  const SpecularSampler: string := "material.specular"
  const DiffuseUnit: nat := 0
  const SpecularUnit: nat := 1

  /** The sampler assignment: with the lighting shader enabled, each sampler is set to its unit. */
  function ConfigureSamplers(s: Device, lighting: Shaders.Shader): (r: Device)
    ensures r.bind == s.bind.(program := 0) && r.storage == s.storage
    ensures |r.log| == |s.log| + 2
    ensures r.log[|r.log| - 2] == UniformWrite(lighting.id, DiffuseSampler, lighting.id, IntValue(DiffuseUnit))
    ensures r.log[|r.log| - 1] == UniformWrite(lighting.id, SpecularSampler, lighting.id, IntValue(SpecularUnit))
    ensures r.log == s.log + [UniformWrite(lighting.id, DiffuseSampler, lighting.id, IntValue(DiffuseUnit))]
                           + [UniformWrite(lighting.id, SpecularSampler, lighting.id, IntValue(SpecularUnit))]
  {
    var s1 := Shaders.Enable(s, lighting);
    var s2 := Shaders.SetInt(s1, lighting, DiffuseSampler, DiffuseUnit);
    var s3 := Shaders.SetInt(s2, lighting, SpecularSampler, SpecularUnit);
    Shaders.Disable(s3, lighting)
  }

  /**
    The scene's buffers: the two vertex arrays, the index buffer built from
    the cube's indices with the given counts, and the four vertex buffers
    created on the way (the cube's three, then the lamp's).
   */
  datatype Geometry = Geometry(cube: VertexArrays.VertexArray, light: VertexArrays.VertexArray, ibo: IndexBuffers.IndexBuffer,
                               vertexBuffers: seq<VertexBuffers.VertexBuffer>)

  /**
    As written, neither array's list records its buffers; corrected, the
    cube's list holds the first three and the lamp's the fourth. The four
    vertex buffers have increasing, hence distinct, names, all below the
    index buffer's.
   */
  function BuildGeometry(s: Device, primitiveCount: Uint, componentCount: Uint, v: Version): (r: Step<Geometry>)
    ensures |r.obj.vertexBuffers| == 4
    ensures v.AsWritten? ==> r.obj.cube.buffers == [] && r.obj.light.buffers == []
    ensures v.Corrected? ==> r.obj.cube.buffers + r.obj.light.buffers == r.obj.vertexBuffers && |r.obj.cube.buffers| == 3
    ensures var vbs := r.obj.vertexBuffers;
            vbs[0].id < vbs[1].id < vbs[2].id < vbs[3].id < r.obj.ibo.id
    ensures r.obj.ibo == IndexBuffers.IndexBuffer(r.obj.ibo.id, primitiveCount, componentCount) && r.obj.ibo.id != 0
    ensures r.obj.ibo.id in r.state.storage
    ensures r.state.storage[r.obj.ibo.id] == Filled(IndexBuffers.UploadBytes(primitiveCount, componentCount), IndexCount * UintSize)
    ensures r.state.bind == s.bind.(vertexArray := 0, arrayBuffer := 0, elementBuffer := 0)
  {
    var cube := CubeArray(s, v);
    var light := LightArray(cube.state, v);
    var ibo := IndexBuffers.New(light.state, CubeIndices(), primitiveCount, componentCount);
    Step(Geometry(cube.obj.vao, light.obj.vao, ibo.obj, cube.obj.buffers + light.obj.buffers), ibo.state)
  }

  /** Texture's constructor, as written or corrected; both keep the same contract. */
  function NewTexture(s: Device, decoded: Option<Textures.Image>, v: Version): (r: Step<Textures.Texture>)
    ensures r.obj.image == decoded && r.obj.id != 0 && Fresh(s, r.obj.id)
    ensures r.state.storage == s.storage
    ensures r.state.bind == s.bind.(units := s.bind.units[s.bind.activeUnit := r.obj.id])
    ensures Created(TextureObject, r.obj.id) in r.state.log
  {
    if v.Corrected? then Textures.New(s, decoded) else Textures.NewAsWritten(s, decoded)
  }

  /**
    The diffuse and the specular map, created one after the other, then the
    lighting shader's samplers pointed at units 0 and 1; the storage and the
    buffer bindings are untouched.
   */
  function Materials(s: Device, lighting: Shaders.Shader, diffuse: Option<Textures.Image>, specular: Option<Textures.Image>, v: Version)
    : (r: Step<(Textures.Texture, Textures.Texture)>)
    ensures r.obj.0.image == diffuse && r.obj.1.image == specular
    ensures r.obj.0.id != 0 && r.obj.1.id != 0 && r.obj.0.id != r.obj.1.id
    ensures r.state.storage == s.storage
    ensures r.state.bind.program == 0 && r.state.bind.vertexArray == s.bind.vertexArray
    ensures r.state.bind.arrayBuffer == s.bind.arrayBuffer && r.state.bind.elementBuffer == s.bind.elementBuffer
    ensures |r.state.log| >= 2
    ensures r.state.log[|r.state.log| - 2] == UniformWrite(lighting.id, DiffuseSampler, lighting.id, IntValue(DiffuseUnit))
    ensures r.state.log[|r.state.log| - 1] == UniformWrite(lighting.id, SpecularSampler, lighting.id, IntValue(SpecularUnit))
  {
    var d := NewTexture(s, diffuse, v);
    var sp := NewTexture(d.state, specular, v);
    Step((d.obj, sp.obj), ConfigureSamplers(sp.state, lighting))
  }

  /**
    Everything between the shaders and the render loop: the two vertex
    arrays, the index buffer built with the given counts, the two textures,
    and the sampler assignment.
   */
  function Setup(s: Device, lighting: Shaders.Shader, lamp: Shaders.Shader, primitiveCount: Uint, componentCount: Uint,
                 diffuse: Option<Textures.Image>, specular: Option<Textures.Image>, v: Version): (r: Step<Scene>)
    ensures var g := BuildGeometry(s, primitiveCount, componentCount, v);
            && r.obj == Scene(lighting, lamp, g.obj.cube, g.obj.light, g.obj.ibo, r.obj.diffuseMap, r.obj.specularMap, g.obj.vertexBuffers)
            && r.state.storage == g.state.storage
    ensures Unbound(r.state.bind)
  {
    var g := BuildGeometry(s, primitiveCount, componentCount, v);
    var m := Materials(g.state, lighting, diffuse, specular, v);
    Step(Scene(lighting, lamp, g.obj.cube, g.obj.light, g.obj.ibo, m.obj.0, m.obj.1, g.obj.vertexBuffers), m.state)
  }

  // ---------------------------------------------------------------------
  // One frame

  /** No program, vertex array, array buffer or element buffer bound. */
  predicate Unbound(b: Bindings) {
    b.program == 0 && b.vertexArray == 0 && b.arrayBuffer == 0 && b.elementBuffer == 0
  }

  /** `n` copies of `e`. */
  function Repeat(e: Event, n: nat): (es: seq<Event>)
    ensures |es| == n && forall i | 0 <= i < n :: es[i] == e
  {
    if n == 0 then [] else [e] + Repeat(e, n - 1)
  }

  /** A loop of `n` identical draws: nothing but the model matrix changes between them. */
  function DrawTimes(s: Device, count: nat, n: nat): (r: Device)
    ensures r.bind == s.bind && r.storage == s.storage
    ensures r.log == s.log + Repeat(DrawElements(count, s.bind, Available(s)), n)
    decreases n
  {
    if n == 0 then s
    else
      var e := DrawElements(count, s.bind, Available(s));
      var r := DrawTimes(Draw(s, count), count, n - 1);
      AppendAssoc(s.log, [e], Repeat(e, n - 1));
      r
  }

  /** The containers drawn per frame, and the lamps. */
  const Containers: nat := 10
  const Lamps: nat := 4

  /** The cube pass up to its draws: lighting shader, cube array, index buffer, and the two maps on units 0 and 1. */
  function CubeBegin(s: Device, sc: Scene): (r: Device)
    ensures r.bind == s.bind.(program := sc.lighting.id, vertexArray := sc.cube.id, elementBuffer := sc.ibo.id,
                              activeUnit := SpecularUnit,
                              units := s.bind.units[DiffuseUnit := sc.diffuseMap.id][SpecularUnit := sc.specularMap.id])
    ensures r.log == s.log && r.storage == s.storage
  {
    var s1 := Shaders.Enable(s, sc.lighting);
    var s2 := VertexArrays.Bind(s1, sc.cube);
    var s3 := IndexBuffers.Bind(s2, sc.ibo);
    var s4 := Textures.Bind(s3, sc.diffuseMap, DiffuseUnit);
    Textures.Bind(s4, sc.specularMap, SpecularUnit)
  }

  /** The cube pass's unbinds as written: both maps call unbind(), which clears the active unit, unit 1, twice. */
  function CubeEndAsWritten(s: Device, sc: Scene): (r: Device)
    ensures r.bind == s.bind.(program := 0, vertexArray := 0, elementBuffer := 0,
                              units := s.bind.units[s.bind.activeUnit := 0])
    ensures r.log == s.log && r.storage == s.storage
  {
    var s1 := Textures.Unbind(s, sc.diffuseMap);
    var s2 := Textures.Unbind(s1, sc.specularMap);
    var s3 := IndexBuffers.Unbind(s2, sc.ibo);
    var s4 := VertexArrays.Unbind(s3, sc.cube);
    Shaders.Disable(s4, sc.lighting)
  }

  /** The cube pass's unbinds with each map cleared from the unit it was bound on. */
  function CubeEnd(s: Device, sc: Scene): (r: Device)
    ensures r.bind == s.bind.(program := 0, vertexArray := 0, elementBuffer := 0, activeUnit := SpecularUnit,
                              units := s.bind.units[DiffuseUnit := 0][SpecularUnit := 0])
    ensures r.log == s.log && r.storage == s.storage
  {
    var s1 := Textures.UnbindFrom(s, DiffuseUnit);
    var s2 := Textures.UnbindFrom(s1, SpecularUnit);
    var s3 := IndexBuffers.Unbind(s2, sc.ibo);
    var s4 := VertexArrays.Unbind(s3, sc.cube);
    Shaders.Disable(s4, sc.lighting)
  }

  /** The lamp pass: lamp shader, lamp array, index buffer, the lamp draws, and the unbinds. */
  function LampPass(s: Device, sc: Scene): (r: Device)
    ensures r.bind == s.bind.(program := 0, vertexArray := 0, elementBuffer := 0)
    ensures r.storage == s.storage
    ensures r.log == s.log + Repeat(DrawElements(IndexBuffers.DrawCount(sc.ibo),
                                                 s.bind.(program := sc.lamp.id, vertexArray := sc.light.id, elementBuffer := sc.ibo.id),
                                                 IndicesIn(s.storage, sc.ibo.id)), Lamps)
  {
    var s1 := Shaders.Enable(s, sc.lamp);
    var s2 := VertexArrays.Bind(s1, sc.light);
    var s3 := IndexBuffers.Bind(s2, sc.ibo);
    var s4 := DrawTimes(s3, IndexBuffers.DrawCount(sc.ibo), Lamps);
    var s5 := IndexBuffers.Unbind(s4, sc.ibo);
    var s6 := VertexArrays.Unbind(s5, sc.light);
    Shaders.Disable(s6, sc.lamp)
  }

  /** The draw every container issues: the cube pass's bindings, the index buffer's draw count. */
  function CubeDraw(s: Device, sc: Scene): Event {
    DrawElements(IndexBuffers.DrawCount(sc.ibo), CubeBegin(s, sc).bind, IndicesIn(s.storage, sc.ibo.id))
  }

  /** The lamp draw of a frame whose cube pass ended in `b`. */
  function LampDraw(s: Device, sc: Scene, b: Bindings): Event {
    DrawElements(IndexBuffers.DrawCount(sc.ibo), b.(program := sc.lamp.id, vertexArray := sc.light.id, elementBuffer := sc.ibo.id),
                 IndicesIn(s.storage, sc.ibo.id))
  }

  /** One iteration of the render loop as written. */
  function FrameAsWritten(s: Device, sc: Scene): (r: Device)
    ensures r.storage == s.storage
    ensures r.bind == s.bind.(program := 0, vertexArray := 0, elementBuffer := 0, activeUnit := SpecularUnit,
                              units := s.bind.units[DiffuseUnit := sc.diffuseMap.id][SpecularUnit := 0])
    ensures var b := CubeEndAsWritten(CubeBegin(s, sc), sc).bind;
            r.log == s.log + Repeat(CubeDraw(s, sc), Containers) + Repeat(LampDraw(s, sc, b), Lamps)
  {
    var c := DrawTimes(CubeBegin(s, sc), IndexBuffers.DrawCount(sc.ibo), Containers);
    LampPass(CubeEndAsWritten(c, sc), sc)
  }

  /** One iteration of the render loop with each map unbound from its own unit. */
  function Frame(s: Device, sc: Scene): (r: Device)
    ensures r.storage == s.storage
    ensures r.bind == s.bind.(program := 0, vertexArray := 0, elementBuffer := 0, activeUnit := SpecularUnit,
                              units := s.bind.units[DiffuseUnit := 0][SpecularUnit := 0])
    ensures var b := CubeEnd(CubeBegin(s, sc), sc).bind;
            r.log == s.log + Repeat(CubeDraw(s, sc), Containers) + Repeat(LampDraw(s, sc, b), Lamps)
  {
    var c := DrawTimes(CubeBegin(s, sc), IndexBuffers.DrawCount(sc.ibo), Containers);
    LampPass(CubeEnd(c, sc), sc)
  }

  /**
    At every container draw, the units the samplers were set to hold the
    maps they are named after, and the lighting shader, cube array and index
    buffer are bound.
   */
  lemma SamplersSeeTheirMaps(s: Device, sc: Scene)
    ensures var d := CubeDraw(s, sc);
            && d.at.OnUnit(DiffuseUnit) == sc.diffuseMap.id && d.at.OnUnit(SpecularUnit) == sc.specularMap.id
            && d.at.program == sc.lighting.id && d.at.vertexArray == sc.cube.id && d.at.elementBuffer == sc.ibo.id
  {
  }

  /** A neutral context for a frame: no program, array or index buffer bound, units 0 and 1 empty, unit 1 active. */
  predicate Neutral(b: Bindings) {
    b.program == 0 && b.vertexArray == 0 && b.elementBuffer == 0 && b.activeUnit == SpecularUnit
    && b.OnUnit(DiffuseUnit) == 0 && b.OnUnit(SpecularUnit) == 0
  }

  /** With each map unbound from its own unit, a frame leaves a neutral context neutral. */
  lemma FrameKeepsNeutral(s: Device, sc: Scene)
    requires Neutral(s.bind)
    ensures Neutral(Frame(s, sc).bind)
    ensures forall u: nat :: Frame(s, sc).bind.OnUnit(u) == s.bind.OnUnit(u)
  {
  }

  /** As written, unit 0 still holds the diffuse map after every frame: unbind() cleared unit 1 twice. */
  lemma AsWrittenUnitZeroLeftover(s: Device, sc: Scene)
    ensures FrameAsWritten(s, sc).bind.OnUnit(DiffuseUnit) == sc.diffuseMap.id
    ensures FrameAsWritten(s, sc).bind.OnUnit(SpecularUnit) == 0
    ensures sc.diffuseMap.id != 0 ==> !Neutral(FrameAsWritten(s, sc).bind)
  {
  }

  // ---------------------------------------------------------------------
  // The index buffer's counts

  /** The counts the scene passes: 36 primitives of 3 indices, for a 36-entry array. */
  const WrittenPrimitives: Uint := 36
  /** The counts the array holds: 12 triangles of 3 indices. */
  const Triangles: Uint := 12
  const TriangleCorners: Uint := 3

  /** As written, the index upload copies 108 indices out of a 36-entry array. */
  lemma AsWrittenIndexOverRead(s: Device)
    ensures var r := IndexBuffers.New(s, CubeIndices(), WrittenPrimitives, TriangleCorners).state;
            OverReads(r.log[|r.log| - 1])
  {
    IndexBuffers.UploadInBounds(s, CubeIndices(), WrittenPrimitives, TriangleCorners);
  }

  /** As written, every container draw asks for 108 indices while the buffer holds 36 from the array. */
  lemma AsWrittenOverDraws(s: Device, lighting: Shaders.Shader, lamp: Shaders.Shader,
                           diffuse: Option<Textures.Image>, specular: Option<Textures.Image>)
    ensures var st := Setup(s, lighting, lamp, WrittenPrimitives, TriangleCorners, diffuse, specular, AsWritten);
            var d := CubeDraw(st.state, st.obj);
            d.count == 108 && d.available == 36 && OverDraws(d)
  {
    var st := Setup(s, lighting, lamp, WrittenPrimitives, TriangleCorners, diffuse, specular, AsWritten);
    SceneOverDraws(st.state, st.obj);
  }

  /** A scene whose index buffer was built with 36 primitives of 3 from the 36-entry array over-draws. */
  lemma SceneOverDraws(s: Device, sc: Scene)
    requires sc.ibo.primitiveCount == WrittenPrimitives && sc.ibo.componentCount == TriangleCorners && sc.ibo.id != 0
    requires sc.ibo.id in s.storage
    requires s.storage[sc.ibo.id] == Filled(IndexBuffers.UploadBytes(WrittenPrimitives, TriangleCorners), IndexCount * UintSize)
    ensures var d := CubeDraw(s, sc);
            d.count == 108 && d.available == 36 && OverDraws(d)
  {
    FilledDefined(IndexBuffers.UploadBytes(WrittenPrimitives, TriangleCorners), IndexCount * UintSize);
  }

  /** With 12 triangles of 3, the upload reads exactly the array. */
  lemma UploadWithinIndices(s: Device)
    ensures var r := IndexBuffers.New(s, CubeIndices(), Triangles, TriangleCorners).state;
            !OverReads(r.log[|r.log| - 1])
  {
    IndexBuffers.UploadInBounds(s, CubeIndices(), Triangles, TriangleCorners);
  }

  /**
    With 12 triangles of 3, in the corrected scene every container draw, and
    every lamp draw whatever the cube pass left bound, uses exactly the
    indices the buffer holds.
   */
  lemma DrawsWithinIndices(s: Device, lighting: Shaders.Shader, lamp: Shaders.Shader,
                           diffuse: Option<Textures.Image>, specular: Option<Textures.Image>, after: Bindings)
    ensures var st := Setup(s, lighting, lamp, Triangles, TriangleCorners, diffuse, specular, Corrected);
            var d := CubeDraw(st.state, st.obj);
            var l := LampDraw(st.state, st.obj, after);
            d.count == d.available == 36 && !OverDraws(d) && !OverDraws(l)
  {
    var st := Setup(s, lighting, lamp, Triangles, TriangleCorners, diffuse, specular, Corrected);
    SceneDrawsFit(st.state, st.obj, after);
  }

  /** A scene whose index buffer holds 12 triangles of 3, all from the array, draws within them. */
  lemma SceneDrawsFit(s: Device, sc: Scene, after: Bindings)
    requires sc.ibo.primitiveCount == Triangles && sc.ibo.componentCount == TriangleCorners && sc.ibo.id != 0
    requires sc.ibo.id in s.storage && s.storage[sc.ibo.id] == Filled(IndexBuffers.UploadBytes(Triangles, TriangleCorners), IndexCount * UintSize)
    ensures var d := CubeDraw(s, sc);
            var l := LampDraw(s, sc, after);
            d.count == d.available == 36 && !OverDraws(d) && !OverDraws(l)
  {
    FilledDefined(IndexBuffers.UploadBytes(Triangles, TriangleCorners), IndexCount * UintSize);
  }

  /** A store filled from a source at least as large is fully defined; otherwise it holds what the source had. */
  lemma FilledDefined(bytes: nat, sourceBytes: nat)
    ensures Filled(bytes, sourceBytes).defined == if bytes <= sourceBytes then bytes else sourceBytes
  {
  }

  // ---------------------------------------------------------------------
  // Teardown

  /** What the teardown appends: both shaders, both vertex arrays with the buffers on their lists, the index buffer; not the textures. */
  function TeardownEvents(sc: Scene): seq<Event> {
    [Deleted(ProgramObject, sc.lighting.id)]
    + VertexArrays.Deletions(VertexArrays.Ids(sc.cube.buffers)) + [Deleted(VertexArrayObject, sc.cube.id)]
    + [Deleted(ProgramObject, sc.lamp.id)]
    + VertexArrays.Deletions(VertexArrays.Ids(sc.light.buffers)) + [Deleted(VertexArrayObject, sc.light.id)]
    + [Deleted(BufferObject, sc.ibo.id)]
  }

  /** The deletions after the loop, in main's order: lighting shader, cube array, lamp shader, lamp array, index buffer. */
  function Teardown(s: Device, sc: Scene): (r: Device)
    ensures r.bind == s.bind && r.storage == s.storage
    ensures r.log == s.log + [Deleted(ProgramObject, sc.lighting.id)]
                           + VertexArrays.Deletions(VertexArrays.Ids(sc.cube.buffers)) + [Deleted(VertexArrayObject, sc.cube.id)]
                           + [Deleted(ProgramObject, sc.lamp.id)]
                           + VertexArrays.Deletions(VertexArrays.Ids(sc.light.buffers)) + [Deleted(VertexArrayObject, sc.light.id)]
                           + [Deleted(BufferObject, sc.ibo.id)]
  {
    var s1 := Shaders.Destroy(s, sc.lighting);
    var s2 := VertexArrays.Destroy(s1, sc.cube);
    var s3 := Shaders.Destroy(s2, sc.lamp);
    var s4 := VertexArrays.Destroy(s3, sc.light);
    IndexBuffers.Destroy(s4, sc.ibo)
  }

  /** The teardown appends its events after whatever the log already holds. */
  lemma TeardownAppends(s: Device, sc: Scene)
    ensures Teardown(s, sc).log == s.log + TeardownEvents(sc)
  {
    var r := Teardown(s, sc);
    var es := TeardownEvents(sc);
    assert |r.log| == |s.log| + |es|;
    forall k | 0 <= k < |r.log|
      ensures r.log[k] == (s.log + es)[k]
    {
    }
  }

  /** Buffer deletions are not texture deletions. */
  lemma BuffersOnly(ids: seq<Name>, n: Name)
    ensures Deleted(TextureObject, n) !in VertexArrays.Deletions(ids)
  {
  }

  /** The teardown never deletes either texture, or any other. */
  lemma TexturesOutliveTeardown(s: Device, sc: Scene)
    ensures forall n: Name :: Count(Teardown(s, sc).log, Deleted(TextureObject, n)) == Count(s.log, Deleted(TextureObject, n))
  {
    forall n: Name
      ensures Count(Teardown(s, sc).log, Deleted(TextureObject, n)) == Count(s.log, Deleted(TextureObject, n))
    {
      BuffersOnly(VertexArrays.Ids(sc.cube.buffers), n);
      BuffersOnly(VertexArrays.Ids(sc.light.buffers), n);
      TeardownAppends(s, sc);
      CountPast(s.log, TeardownEvents(sc), Deleted(TextureObject, n));
    }
  }

  /**
    The buffer deletions of the teardown: each buffer on either array's list
    as often as it is listed, the index buffer once, and no other buffer.
   */
  lemma TeardownBufferDeletions(sc: Scene, n: Name)
    ensures multiset(TeardownEvents(sc))[Deleted(BufferObject, n)]
            == multiset(VertexArrays.Ids(sc.cube.buffers))[n] + multiset(VertexArrays.Ids(sc.light.buffers))[n]
               + (if n == sc.ibo.id then 1 else 0)
  {
    VertexArrays.DeletionsCount(VertexArrays.Ids(sc.cube.buffers));
    VertexArrays.DeletionsCount(VertexArrays.Ids(sc.light.buffers));
  }

  /**
    A scene whose arrays list no buffers: the teardown deletes the index
    buffer once and none of the four vertex buffers.
   */
  lemma {:induction false} UnlistedLeak(sc: Scene)
    requires sc.cube.buffers == [] && sc.light.buffers == [] && |sc.vertexBuffers| == 4
    requires var vbs := sc.vertexBuffers; vbs[0].id < vbs[1].id < vbs[2].id < vbs[3].id < sc.ibo.id
    ensures forall i | 0 <= i < 4 :: multiset(TeardownEvents(sc))[Deleted(BufferObject, sc.vertexBuffers[i].id)] == 0
    ensures multiset(TeardownEvents(sc))[Deleted(BufferObject, sc.ibo.id)] == 1
  {
    forall i | 0 <= i < 4
      ensures multiset(TeardownEvents(sc))[Deleted(BufferObject, sc.vertexBuffers[i].id)] == 0
    {
      TeardownBufferDeletions(sc, sc.vertexBuffers[i].id);
      if i == 0 {} else if i == 1 {} else if i == 2 {} else {}
    }
    TeardownBufferDeletions(sc, sc.ibo.id);
  }

  /**
    A scene whose cube array lists the first three vertex buffers and whose
    lamp array lists the fourth, all named apart from each other and from
    the index buffer: the teardown deletes each of the five exactly once.
   */
  lemma {:induction false} ListedReleased(sc: Scene)
    requires |sc.vertexBuffers| == 4
    requires sc.cube.buffers == sc.vertexBuffers[..3] && sc.light.buffers == sc.vertexBuffers[3..]
    requires var vbs := sc.vertexBuffers; vbs[0].id < vbs[1].id < vbs[2].id < vbs[3].id < sc.ibo.id
    ensures forall i | 0 <= i < 4 :: multiset(TeardownEvents(sc))[Deleted(BufferObject, sc.vertexBuffers[i].id)] == 1
    ensures multiset(TeardownEvents(sc))[Deleted(BufferObject, sc.ibo.id)] == 1
  {
    var vbs := sc.vertexBuffers;
    var a, b, c, d := vbs[0].id, vbs[1].id, vbs[2].id, vbs[3].id;
    var cube, light := multiset(VertexArrays.Ids(sc.cube.buffers)), multiset(VertexArrays.Ids(sc.light.buffers));
    assert VertexArrays.Ids(sc.cube.buffers) == [a, b, c];
    assert VertexArrays.Ids(sc.light.buffers) == [d];
    assert cube[a] == 1 && cube[b] == 1 && cube[c] == 1 && cube[d] == 0 && cube[sc.ibo.id] == 0;
    assert light[a] == 0 && light[b] == 0 && light[c] == 0 && light[d] == 1 && light[sc.ibo.id] == 0;
    forall i | 0 <= i < 4
      ensures multiset(TeardownEvents(sc))[Deleted(BufferObject, vbs[i].id)] == 1
    {
      TeardownBufferDeletions(sc, vbs[i].id);
      if i == 0 {} else if i == 1 {} else if i == 2 {} else {}
    }
    TeardownBufferDeletions(sc, sc.ibo.id);
  }

  /**
    As written, main's teardown deletes the index buffer but none of the four
    vertex buffers: the arrays' lists are empty, so their destructors have
    nothing to release.
   */
  lemma AsWrittenTeardownLeaks(s: Device, lighting: Shaders.Shader, lamp: Shaders.Shader, primitiveCount: Uint, componentCount: Uint,
                               diffuse: Option<Textures.Image>, specular: Option<Textures.Image>)
    ensures var sc := Setup(s, lighting, lamp, primitiveCount, componentCount, diffuse, specular, AsWritten).obj;
            && |sc.vertexBuffers| == 4
            && (forall i | 0 <= i < 4 :: multiset(TeardownEvents(sc))[Deleted(BufferObject, sc.vertexBuffers[i].id)] == 0)
            && multiset(TeardownEvents(sc))[Deleted(BufferObject, sc.ibo.id)] == 1
  {
    var sc := Setup(s, lighting, lamp, primitiveCount, componentCount, diffuse, specular, AsWritten).obj;
    var vbs := sc.vertexBuffers;
    assert vbs[0].id < vbs[1].id < vbs[2].id < vbs[3].id < sc.ibo.id;
    UnlistedLeak(sc);
  }

  /** With the corrected constructors, the teardown deletes each of the four vertex buffers exactly once, and the index buffer once. */
  lemma TeardownReleasesVertexBuffers(s: Device, lighting: Shaders.Shader, lamp: Shaders.Shader, primitiveCount: Uint, componentCount: Uint,
                                      diffuse: Option<Textures.Image>, specular: Option<Textures.Image>)
    ensures var sc := Setup(s, lighting, lamp, primitiveCount, componentCount, diffuse, specular, Corrected).obj;
            && |sc.vertexBuffers| == 4
            && (forall i | 0 <= i < 4 :: multiset(TeardownEvents(sc))[Deleted(BufferObject, sc.vertexBuffers[i].id)] == 1)
            && multiset(TeardownEvents(sc))[Deleted(BufferObject, sc.ibo.id)] == 1
  {
    var g := BuildGeometry(s, primitiveCount, componentCount, Corrected).obj;
    var sc := Setup(s, lighting, lamp, primitiveCount, componentCount, diffuse, specular, Corrected).obj;
    SplitLists(g.cube.buffers, g.light.buffers, g.vertexBuffers);
    ListedReleased(sc);
  }

  /** Three lists followed by one that make up four buffers are its first three and its last. */
  lemma SplitLists(cube: seq<VertexBuffers.VertexBuffer>, light: seq<VertexBuffers.VertexBuffer>, all: seq<VertexBuffers.VertexBuffer>)
    requires cube + light == all && |cube| == 3 && |all| == 4
    ensures cube == all[..3] && light == all[3..]
  {
  }
}
