/**
  Mesh: one VAO, one element buffer and one interleaved vertex buffer of
  VertexData records, drawn with a list of typed textures whose sampler
  uniforms are named after their type and their rank among textures of
  that type.
 */
module Meshes {
  import opened Device
  import Gl = Device
  import Decimal
  import Shaders

  // ---------------------------------------------------------------------
  // Vertex layout

  /** The float components of VertexData's fields, in declaration order: Position, Normal, TexCoords, Tangent, Bitangent. */
  const Components: seq<nat> := [3, 3, 2, 3, 3]

  /** offsetof each field. */
  const Offsets: seq<nat> := [0, 12, 24, 32, 44]

  /** sizeof(VertexData): five tightly packed float vectors. */
  const VertexSize: nat := 56

  /** The attribute layout of the record: the fields follow each other with no padding and fill it exactly. */
  lemma LayoutTilesVertex()
    ensures |Components| == |Offsets| == 5 && Offsets[0] == 0
    ensures forall i | 0 <= i < 4 :: Offsets[i + 1] == Offsets[i] + Components[i] * FloatSize
    ensures Offsets[4] + Components[4] * FloatSize == VertexSize
  {
  }

  /** What setupMesh declares for one field: enable its slot, then point it into the record. */
  function Attribute(vao: Name, vbo: Name, slot: nat): seq<Event>
    requires slot < 5
  {
    [AttribEnabled(vao, slot), AttribPointer(vao, vbo, slot, Components[slot], VertexSize, Offsets[slot])]
  }

  function SetAttribute(s: Device, slot: nat): (r: Device)
    requires slot < 5
    ensures r.bind == s.bind && r.storage == s.storage && r.next == s.next
    ensures r.log == s.log + Attribute(s.bind.vertexArray, s.bind.arrayBuffer, slot)
  {
    var s1 := EnableVertexAttribArray(s, slot);
    var e := AttribPointer(s.bind.vertexArray, s.bind.arrayBuffer, slot, Components[slot], VertexSize, Offsets[slot]);
    AppendAssoc(s.log, [AttribEnabled(s.bind.vertexArray, slot)], [e]);
    VertexAttribPointer(s1, slot, Components[slot], VertexSize, Offsets[slot])
  }

  // ---------------------------------------------------------------------
  // Construction

  /** A texture as a mesh holds it: its GL name and its type string. */
  datatype TextureData = TextureData(id: Name, kind: string)

  /** A Mesh: the vertex count, the indices, the textures, and the three GL names setupMesh generated. */
  datatype Mesh = Mesh(vertexCount: nat, indices: seq<nat>, textures: seq<TextureData>, vao: Name, vbo: Name, ebo: Name)

  /**
    The constructor and setupMesh: generate the VAO, the element buffer and the
    vertex buffer in that order, upload both arrays whole, declare the five
    attributes, and unbind everything. Taking the address of element 0 needs
    both arrays non-empty.
   */
  function New(s: Device, vertexCount: nat, indices: seq<nat>, textures: seq<TextureData>): (r: Step<Mesh>)
    requires vertexCount > 0 && |indices| > 0
    ensures r.obj == Mesh(vertexCount, indices, textures, s.next, s.next + 2, s.next + 1)
    ensures r.state.next == s.next + 3
    ensures r.state.bind == s.bind.(vertexArray := 0, arrayBuffer := 0, elementBuffer := 0)
    ensures r.state.storage == s.storage[r.obj.ebo := Filled(|indices| * UintSize, |indices| * UintSize)]
                                        [r.obj.vbo := Filled(vertexCount * VertexSize, vertexCount * VertexSize)]
    ensures var m := r.obj;
            r.state.log == s.log + [Created(VertexArrayObject, m.vao)] + [Created(BufferObject, m.ebo)] + [Created(BufferObject, m.vbo)]
                           + [Upload(ElementArrayBuffer, m.ebo, |indices| * UintSize, |indices| * UintSize)]
                           + [Upload(ArrayBuffer, m.vbo, vertexCount * VertexSize, vertexCount * VertexSize)]
                           + Attribute(m.vao, m.vbo, 0) + Attribute(m.vao, m.vbo, 1) + Attribute(m.vao, m.vbo, 2)
                           + Attribute(m.vao, m.vbo, 3) + Attribute(m.vao, m.vbo, 4)
  {
    var vao := Gen(s, VertexArrayObject);
    var ebo := Gen(vao.state, BufferObject);
    var vbo := Gen(ebo.state, BufferObject);
    var s1 := BindVertexArray(vbo.state, vao.obj);
    var s2 := BindBuffer(s1, ElementArrayBuffer, ebo.obj);
    var s3 := BindBuffer(s2, ArrayBuffer, vbo.obj);
    var s4 := BufferData(s3, ElementArrayBuffer, |indices| * UintSize, |indices| * UintSize);
    var s5 := BufferData(s4, ArrayBuffer, vertexCount * VertexSize, vertexCount * VertexSize);
    var s6 := SetAttribute(SetAttribute(SetAttribute(SetAttribute(SetAttribute(s5, 0), 1), 2), 3), 4);
    var s7 := BindBuffer(s6, ArrayBuffer, 0);
    var s8 := BindBuffer(s7, ElementArrayBuffer, 0);
    Step(Mesh(vertexCount, indices, textures, vao.obj, vbo.obj, ebo.obj), BindVertexArray(s8, 0))
  }

  // ---------------------------------------------------------------------
  // Sampler names

  const Diffuse: string := "texture_diffuse"
  const Specular: string := "texture_specular"
  const Normal: string := "texture_normal"
  const Height: string := "texture_height"

  /** The four type strings Draw keeps a counter for. */
  predicate Known(kind: string) {
    kind == Diffuse || kind == Specular || kind == Normal || kind == Height
  }

  /** The four type strings are pairwise different; they first differ at position 8. */
  lemma KindsDistinct()
    ensures Diffuse != Specular && Diffuse != Normal && Diffuse != Height
    ensures Specular != Normal && Specular != Height && Normal != Height
  {
    assert Diffuse[8] == 'd' && Specular[8] == 's' && Normal[8] == 'n' && Height[8] == 'h';
  }

  /** How many of the first `i` textures have type `kind`. */
  function Rank(ts: seq<TextureData>, i: nat, kind: string): nat
    requires i <= |ts|
  {
    if i == 0 then 0 else Rank(ts, i - 1, kind) + (if ts[i - 1].kind == kind then 1 else 0)
  }

  /** The value of the unsigned counter for `kind` when texture `i` is reached: 1 plus the earlier textures of that type, modulo 2^32. */
  function Counter(ts: seq<TextureData>, i: nat, kind: string): Uint
    requires i <= |ts|
  {
    (1 + Rank(ts, i, kind)) % UintRange
  }

  /** The numeric suffix of texture i's sampler: its counter for a known type, nothing for any other. */
  function Suffix(ts: seq<TextureData>, i: nat): string
    requires i < |ts|
  {
    if Known(ts[i].kind) then Decimal.Render(Counter(ts, i, ts[i].kind)) else ""
  }

  /** Moving past texture i advances exactly the counter of its type, wrapping at 2^32. */
  lemma CounterStep(ts: seq<TextureData>, i: nat, kind: string)
    requires i < |ts|
    ensures Counter(ts, i + 1, kind) == if ts[i].kind == kind then (Counter(ts, i, kind) + 1) % UintRange else Counter(ts, i, kind)
  {
    var r := 1 + Rank(ts, i, kind);
    if ts[i].kind == kind {
      assert r == (r / UintRange) * UintRange + r % UintRange;
      assert r + 1 == (r / UintRange) * UintRange + (r % UintRange + 1);
    }
  }

  /** The sampler uniform texture i is assigned to. */
  function SamplerName(ts: seq<TextureData>, i: nat): string
    requires i < |ts|
  {
    "material." + ts[i].kind + Suffix(ts, i)
  }

  /** The sampler writes for the first `n` textures: texture i's sampler gets unit i. */
  function Writes(ts: seq<TextureData>, n: nat, lookup: Name, program: Name): seq<Event>
    requires n <= |ts|
  {
    if n == 0 then [] else Writes(ts, n - 1, lookup, program) + [UniformWrite(lookup, SamplerName(ts, n - 1), program, IntValue(n - 1))]
  }

  /** Write i sets the sampler named for texture i to unit i, and there is one write per texture. */
  lemma {:induction false} WritesAt(ts: seq<TextureData>, n: nat, lookup: Name, program: Name)
    requires n <= |ts|
    ensures |Writes(ts, n, lookup, program)| == n
    ensures forall i | 0 <= i < n :: Writes(ts, n, lookup, program)[i] == UniformWrite(lookup, SamplerName(ts, i), program, IntValue(i))
  {
    if n > 0 {
      WritesAt(ts, n - 1, lookup, program);
    }
  }

  // ---------------------------------------------------------------------
  // Texture units

  /** Units 0..n-1 after binding texture i on unit i. */
  function BindUnits(units: map<nat, Name>, ts: seq<TextureData>, n: nat): map<nat, Name>
    requires n <= |ts|
  {
    if n == 0 then units else BindUnits(units, ts, n - 1)[n - 1 := ts[n - 1].id]
  }

  /** Units 0..n-1 after binding 0 on each. */
  function ClearUnits(units: map<nat, Name>, n: nat): map<nat, Name> {
    if n == 0 then units else ClearUnits(units, n - 1)[n - 1 := 0]
  }

  /** The active unit after a sweep over units 0..n-1. */
  function ActiveAfter(active: nat, n: nat): nat {
    if n == 0 then active else n - 1
  }

  lemma {:induction false} BindUnitsOn(b: Bindings, ts: seq<TextureData>, n: nat)
    requires n <= |ts|
    ensures forall u: nat :: b.(units := BindUnits(b.units, ts, n)).OnUnit(u) == if u < n then ts[u].id else b.OnUnit(u)
  {
    if n > 0 {
      BindUnitsOn(b, ts, n - 1);
    }
  }

  lemma {:induction false} ClearUnitsOn(b: Bindings, n: nat)
    ensures forall u: nat :: b.(units := ClearUnits(b.units, n)).OnUnit(u) == if u < n then 0 else b.OnUnit(u)
  {
    if n > 0 {
      ClearUnitsOn(b, n - 1);
      forall u: nat
        ensures b.(units := ClearUnits(b.units, n)).OnUnit(u) == if u < n then 0 else b.OnUnit(u)
      {
        assert b.(units := ClearUnits(b.units, n - 1)).OnUnit(u) == if u < n - 1 then 0 else b.OnUnit(u);
      }
    }
  }

  // ---------------------------------------------------------------------
  // Drawing

  /** The bindings in force at the draw call: the mesh's VAO and element buffer, texture i on unit i. */
  function DrawBindings(b: Bindings, m: Mesh): Bindings {
    var n := |m.textures|;
    b.(vertexArray := m.vao, elementBuffer := m.ebo, activeUnit := ActiveAfter(b.activeUnit, n),
       units := BindUnits(b.units, m.textures, n))
  }

  /** The bindings Draw leaves: VAO, element buffer and units 0..n-1 cleared, the active unit not restored. */
  function AfterBindings(b: Bindings, m: Mesh): Bindings {
    var at := DrawBindings(b, m);
    at.(vertexArray := 0, elementBuffer := 0, units := ClearUnits(at.units, |m.textures|))
  }

  /**
    The draw protocol stated directly: the sampler writes named by rank, one
    indexed draw of every index with the mesh's objects bound, and the
    bindings left as the unbind sweep leaves them.
   */
  function DrawSpec(s: Device, m: Mesh, lookup: Name): (r: Device)
    ensures r.next == s.next && r.storage == s.storage
  {
    var ws := Writes(m.textures, |m.textures|, lookup, s.bind.program);
    var d := DrawElements(|m.indices|, DrawBindings(s.bind, m), IndicesIn(s.storage, m.ebo));
    WritesAt(m.textures, |m.textures|, lookup, s.bind.program);
    assert forall e | e in ws + [d] :: !e.Created?;
    State(AfterBindings(s.bind, m), s.next, s.storage, s.log + ws + [d])
  }

  /**
    One step of Draw's naming: the suffix for texture i is the counter of
    its type, and that counter, alone, advances; other types get no suffix.
   */
  method NextNumber(ts: seq<TextureData>, i: nat, diffuseNr: Uint, specularNr: Uint, normalNr: Uint, heightNr: Uint)
    returns (number: string, diffuseNr': Uint, specularNr': Uint, normalNr': Uint, heightNr': Uint)
    requires i < |ts|
    requires diffuseNr == Counter(ts, i, Diffuse) && specularNr == Counter(ts, i, Specular)
    requires normalNr == Counter(ts, i, Normal) && heightNr == Counter(ts, i, Height)
    ensures number == Suffix(ts, i)
    ensures diffuseNr' == Counter(ts, i + 1, Diffuse) && specularNr' == Counter(ts, i + 1, Specular)
    ensures normalNr' == Counter(ts, i + 1, Normal) && heightNr' == Counter(ts, i + 1, Height)
  {
    KindsDistinct();
    CounterStep(ts, i, Diffuse);
    CounterStep(ts, i, Specular);
    CounterStep(ts, i, Normal);
    CounterStep(ts, i, Height);
    var kind := ts[i].kind;
    diffuseNr', specularNr', normalNr', heightNr' := diffuseNr, specularNr, normalNr, heightNr;
    if kind == Diffuse {
      number := Decimal.Render(diffuseNr);
      diffuseNr' := (diffuseNr + 1) % UintRange;
    } else if kind == Specular {
      number := Decimal.Render(specularNr);
      specularNr' := (specularNr + 1) % UintRange;
    } else if kind == Normal {
      number := Decimal.Render(normalNr);
      normalNr' := (normalNr + 1) % UintRange;
    } else if kind == Height {
      number := Decimal.Render(heightNr);
      heightNr' := (heightNr + 1) % UintRange;
    } else {
      number := "";
    }
  }

  /**
    Mesh::Draw: bind the VAO and element buffer; for each texture i activate
    unit i, name its sampler from the per-type counters (fresh on every call)
    and set it to i, and bind the texture; draw every index; then clear each
    unit and unbind the element buffer and the VAO.
   */
  method Draw(s: Device, m: Mesh, shader: Shaders.Shader) returns (r: Device)
    ensures r == DrawSpec(s, m, shader.id)
  {
    var d := BindBuffer(BindVertexArray(s, m.vao), ElementArrayBuffer, m.ebo);
    d := BindSamplers(d, m.textures, shader.id);
    d := Gl.Draw(d, |m.indices|);
    d := ClearSweep(d, |m.textures|);
    d := BindBuffer(d, ElementArrayBuffer, 0);
    r := BindVertexArray(d, 0);
  }

  /** Draw's first loop: texture i is bound on unit i and its sampler, named from the per-type counters, is set to i. */
  method BindSamplers(s: Device, ts: seq<TextureData>, lookup: Name) returns (r: Device)
    ensures r.next == s.next && r.storage == s.storage
    ensures r.log == s.log + Writes(ts, |ts|, lookup, s.bind.program)
    ensures r.bind == s.bind.(activeUnit := ActiveAfter(s.bind.activeUnit, |ts|), units := BindUnits(s.bind.units, ts, |ts|))
  {
    r := s;
    var diffuseNr: Uint, specularNr: Uint, normalNr: Uint, heightNr: Uint := 1, 1, 1, 1;
    var i := 0;
    while i < |ts|
      invariant 0 <= i <= |ts|
      invariant r.next == s.next && r.storage == s.storage
      invariant r.log == s.log + Writes(ts, i, lookup, s.bind.program)
      invariant r.bind == s.bind.(activeUnit := ActiveAfter(s.bind.activeUnit, i), units := BindUnits(s.bind.units, ts, i))
      invariant diffuseNr == Counter(ts, i, Diffuse) && specularNr == Counter(ts, i, Specular)
      invariant normalNr == Counter(ts, i, Normal) && heightNr == Counter(ts, i, Height)
    {
      r := ActiveTexture(r, i);
      var number;
      number, diffuseNr, specularNr, normalNr, heightNr := NextNumber(ts, i, diffuseNr, specularNr, normalNr, heightNr);
      AppendAssoc(s.log, Writes(ts, i, lookup, s.bind.program), [UniformWrite(lookup, SamplerName(ts, i), s.bind.program, IntValue(i))]);
      r := Uniform(r, lookup, "material." + ts[i].kind + number, IntValue(i));
      r := BindTexture(r, ts[i].id);
      i := i + 1;
    }
  }

  /** Draw's second loop: each of units 0..n-1 is made active and cleared. */
  method ClearSweep(s: Device, n: nat) returns (r: Device)
    ensures r.next == s.next && r.storage == s.storage && r.log == s.log
    ensures r.bind == s.bind.(activeUnit := ActiveAfter(s.bind.activeUnit, n), units := ClearUnits(s.bind.units, n))
  {
    r := s;
    var i := 0;
    while i < n
      invariant 0 <= i <= n
      invariant r.next == s.next && r.storage == s.storage && r.log == s.log
      invariant r.bind == s.bind.(activeUnit := ActiveAfter(s.bind.activeUnit, i), units := ClearUnits(s.bind.units, i))
    {
      r := ActiveTexture(r, i);
      r := BindTexture(r, 0);
      i := i + 1;
    }
  }

  // ---------------------------------------------------------------------
  // Properties of Draw

  /**
    At the draw call the mesh's VAO and element buffer are bound, texture i
    sits on unit i for every texture, the program is the caller's, and every
    index is drawn.
   */
  lemma DrawSeesTextures(s: Device, m: Mesh, lookup: Name)
    ensures var r := DrawSpec(s, m, lookup);
            && |r.log| == |s.log| + |m.textures| + 1
            && var d := r.log[|r.log| - 1];
            && d.DrawElements? && d.count == |m.indices|
            && d.at.vertexArray == m.vao && d.at.elementBuffer == m.ebo && d.at.program == s.bind.program
            && (forall u: nat | u < |m.textures| :: d.at.OnUnit(u) == m.textures[u].id)
  {
    WritesAt(m.textures, |m.textures|, lookup, s.bind.program);
    BindUnitsOn(s.bind.(vertexArray := m.vao, elementBuffer := m.ebo, activeUnit := ActiveAfter(s.bind.activeUnit, |m.textures|)), m.textures, |m.textures|);
  }

  /**
    After Draw the VAO and element buffer are unbound and units 0..n-1 are
    empty; other units, the program and the array buffer are as before. The
    active unit is left at the last texture's unit.
   */
  lemma DrawLeavesUnitsClear(s: Device, m: Mesh, lookup: Name)
    ensures var r := DrawSpec(s, m, lookup);
            && r.bind.vertexArray == 0 && r.bind.elementBuffer == 0
            && r.bind.program == s.bind.program && r.bind.arrayBuffer == s.bind.arrayBuffer
            && r.bind.activeUnit == (if m.textures == [] then s.bind.activeUnit else |m.textures| - 1)
            && (forall u: nat :: r.bind.OnUnit(u) == if u < |m.textures| then 0 else s.bind.OnUnit(u))
  {
    var at := DrawBindings(s.bind, m);
    ClearUnitsOn(at, |m.textures|);
    BindUnitsOn(s.bind, m.textures, |m.textures|);
    forall u: nat
      ensures DrawSpec(s, m, lookup).bind.OnUnit(u) == if u < |m.textures| then 0 else s.bind.OnUnit(u)
    {
      assert DrawSpec(s, m, lookup).bind.OnUnit(u) == at.(units := ClearUnits(at.units, |m.textures|)).OnUnit(u);
      assert at.OnUnit(u) == s.bind.(units := BindUnits(s.bind.units, m.textures, |m.textures|)).OnUnit(u);
    }
  }

  /** Each Draw sets one sampler per texture and issues exactly one draw call. */
  lemma DrawViews(s: Device, m: Mesh, lookup: Name)
    ensures var r := DrawSpec(s, m, lookup);
            && Only(r.log, UniformWrites) == Only(s.log, UniformWrites) + Writes(m.textures, |m.textures|, lookup, s.bind.program)
            && |Only(r.log, DrawCalls)| == |Only(s.log, DrawCalls)| + 1
  {
    var ws := Writes(m.textures, |m.textures|, lookup, s.bind.program);
    var d := DrawElements(|m.indices|, DrawBindings(s.bind, m), IndicesIn(s.storage, m.ebo));
    WritesAt(m.textures, |m.textures|, lookup, s.bind.program);
    OnlyConcat(s.log + ws, [d], UniformWrites);
    OnlyConcat(s.log, ws, UniformWrites);
    OnlyAll(ws, UniformWrites);
    OnlySingle(d, UniformWrites);
    OnlyConcat(s.log + ws, [d], DrawCalls);
    OnlyConcat(s.log, ws, DrawCalls);
    OnlyEmpty(ws, DrawCalls);
    OnlySingle(d, DrawCalls);
  }

  /**
    The counters start afresh on every call: drawing the same mesh twice sets
    the same samplers to the same units both times.
   */
  lemma RedrawSameSamplers(s: Device, m: Mesh, lookup: Name)
    ensures var r1 := DrawSpec(s, m, lookup);
            var r2 := DrawSpec(r1, m, lookup);
            var ws := Writes(m.textures, |m.textures|, lookup, s.bind.program);
            && r1.log[..|s.log| + |ws|] == s.log + ws
            && r2.log[..|r1.log| + |ws|] == r1.log + ws
  {
    var r1 := DrawSpec(s, m, lookup);
    var ws := Writes(m.textures, |m.textures|, lookup, s.bind.program);
    assert r1.bind.program == s.bind.program;
    assert r1.log == s.log + ws + [r1.log[|r1.log| - 1]];
  }

  /** i < j: at j the count of `kind` has passed i's, and it never exceeds the position. */
  lemma {:induction false} RankGrows(ts: seq<TextureData>, i: nat, j: nat, kind: string)
    requires i < j <= |ts| && ts[i].kind == kind
    ensures Rank(ts, j, kind) >= Rank(ts, i, kind) + 1
    ensures Rank(ts, j, kind) <= j
  {
    if j > i + 1 {
      RankGrows(ts, i, j - 1, kind);
    } else {
      RankBounded(ts, i, kind);
    }
  }

  lemma {:induction false} RankBounded(ts: seq<TextureData>, i: nat, kind: string)
    requires i <= |ts|
    ensures Rank(ts, i, kind) <= i
  {
    if i > 0 {
      RankBounded(ts, i - 1, kind);
    }
  }

  /** A known type's sampler name: the prefix, the type, and its counter's digits. */
  lemma KnownName(ts: seq<TextureData>, i: nat)
    requires i < |ts| && Known(ts[i].kind)
    ensures |SamplerName(ts, i)| > 17 && SamplerName(ts, i)[17] == ts[i].kind[8]
    ensures SamplerName(ts, i)[..9 + |ts[i].kind|] == "material." + ts[i].kind
    ensures SamplerName(ts, i)[9 + |ts[i].kind|..] == Decimal.Render(Counter(ts, i, ts[i].kind))
  {
  }

  /**
    While fewer than 2^32 textures are drawn, textures of the four known types
    never share a sampler name: different types differ in the type, and two
    of the same type differ in the counter.
   */
  lemma NamesDistinct(ts: seq<TextureData>, i: nat, j: nat)
    requires i < j < |ts| < UintRange
    requires Known(ts[i].kind) && Known(ts[j].kind)
    ensures SamplerName(ts, i) != SamplerName(ts, j)
  {
    if ts[i].kind == ts[j].kind {
      SameKindDistinct(ts, i, j);
    } else {
      OtherKindDistinct(ts, i, j);
    }
  }

  lemma SameKindDistinct(ts: seq<TextureData>, i: nat, j: nat)
    requires i < j < |ts| < UintRange
    requires Known(ts[i].kind) && ts[j].kind == ts[i].kind
    ensures SamplerName(ts, i) != SamplerName(ts, j)
  {
    var k := ts[i].kind;
    RankGrows(ts, i, j, k);
    RankBounded(ts, i, k);
    assert Counter(ts, i, k) != Counter(ts, j, k);
    Decimal.RenderInjective(Counter(ts, i, k), Counter(ts, j, k));
    KnownName(ts, i);
    KnownName(ts, j);
  }

  lemma OtherKindDistinct(ts: seq<TextureData>, i: nat, j: nat)
    requires i < |ts| && j < |ts|
    requires Known(ts[i].kind) && Known(ts[j].kind) && ts[i].kind != ts[j].kind
    ensures SamplerName(ts, i) != SamplerName(ts, j)
  {
    assert ts[i].kind[8] != ts[j].kind[8];
    KnownName(ts, i);
    KnownName(ts, j);
  }

  /** A texture of any other type is named by its type alone, and no counter moves. */
  lemma UnknownKindUnnumbered(ts: seq<TextureData>, i: nat)
    requires i < |ts| && !Known(ts[i].kind)
    ensures SamplerName(ts, i) == "material." + ts[i].kind
    ensures forall k | Known(k) :: Counter(ts, i + 1, k) == Counter(ts, i, k)
  {
    assert "material." + ts[i].kind + "" == "material." + ts[i].kind;
  }

  /** Two diffuse maps and a specular map are bound to texture_diffuse1, texture_diffuse2 and texture_specular1. */
  lemma NamesExample(a: Name, b: Name, c: Name)
    ensures var ts := [TextureData(a, Diffuse), TextureData(b, Diffuse), TextureData(c, Specular)];
            && SamplerName(ts, 0) == "material." + Diffuse + "1"
            && SamplerName(ts, 1) == "material." + Diffuse + "2"
            && SamplerName(ts, 2) == "material." + Specular + "1"
  {
    var ts := [TextureData(a, Diffuse), TextureData(b, Diffuse), TextureData(c, Specular)];
    assert Diffuse != Specular by {
      KindsDistinct();
    }
    assert Rank(ts, 1, Diffuse) == 1;
    assert Rank(ts, 2, Specular) == 0 by {
      assert Rank(ts, 1, Specular) == 0;
    }
    assert Decimal.Render(1) == "1" && Decimal.Render(2) == "2";
  }

  /** A mesh drawn right after construction draws exactly the indices it uploaded. */
  lemma NewThenDrawInBounds(s: Device, vertexCount: nat, indices: seq<nat>, textures: seq<TextureData>, lookup: Name)
    requires vertexCount > 0 && |indices| > 0
    ensures var c := New(s, vertexCount, indices, textures);
            var r := DrawSpec(c.state, c.obj, lookup);
            var d := r.log[|r.log| - 1];
            d.DrawElements? && d.count == d.available == |indices| && !OverDraws(d)
  {
    var c := New(s, vertexCount, indices, textures);
    DrawSeesTextures(c.state, c.obj, lookup);
    var st := Filled(|indices| * UintSize, |indices| * UintSize);
    assert c.state.storage[c.obj.ebo] == st;
    assert st.defined / UintSize == |indices|;
  }
}
