/**
  An abstract OpenGL context, as the engine's wrappers see it.

  The context is an immutable record: the current bindings, the next unused
  object name, the storage of every buffer that received data, and an ordered
  log of everything observable that is not a binding change (object creation
  and deletion, uploads, attribute setup, uniform writes, draws, diagnostics).
  Every GL entry point the engine calls becomes a pure transition on it.
 */
module Device {

  datatype Option<T> = None | Some(value: T)

  /** An OpenGL object name (an unsigned int); 0 is reserved for "no object". */
  type Name = nat

  /** `unsigned int` is 32 bits wide on every platform the engine builds for. */
  const UintRange: nat := 0x1_0000_0000
  type Uint = n: nat | n < UintRange

  /** sizeof(unsigned int) and sizeof(float). */
  const UintSize: nat := 4
  const FloatSize: nat := 4

  /** The product of two unsigned ints as C++ computes it, modulo 2^32. */
  function UintProduct(a: Uint, b: Uint): (p: Uint)
    ensures p <= a * b
    ensures a * b < UintRange ==> p == a * b
  {
    (a * b) % UintRange
  }

  datatype Stage = VertexStage | FragmentStage | GeometryStage

  /** The kinds of GL object the engine creates and deletes. */
  datatype Kind =
    | BufferObject
    | VertexArrayObject
    | TextureObject
    | ShaderObject(stage: Stage)
    | ProgramObject

  datatype Target = ArrayBuffer | ElementArrayBuffer

  /** Pixel formats; `Indeterminate` is the value of a format variable read before it was assigned. */
  datatype Format = Red | Rgb | Rgba | Indeterminate

  datatype TexParam = WrapSRepeat | WrapTRepeat | MinFilterLinear | MagFilterLinear

  /** Uniform values: integers exactly, floating-point values by their shape only. */
  datatype Shape = Float | Vec2 | Vec3 | Vec4 | Mat2 | Mat3 | Mat4
  datatype Value = IntValue(i: int) | FloatValue(shape: Shape)

  datatype Status = CompileStatus | LinkStatus

  /** The type strings the shader hands to readFile and checkCompileErrors: "VERTEX", "FRAGMENT", "GEOMETRY" and "PROGRAM". */
  datatype Tag = VertexTag | FragmentTag | GeometryTag | ProgramTag

  /** Lines written to the console. */
  datatype Message =
    | FileNotRead(tag: Tag)
    | CompileError(tag: Tag)
    | LinkError(tag: Tag)
    | TextureLoadFailed
    | UnsupportedChannels(channels: int)

  /** The binding state shared by every component: the whole of what "leaving the context neutral" is about. */
  datatype Bindings = Bindings(
    program: Name,
    vertexArray: Name,
    arrayBuffer: Name,
    elementBuffer: Name,
    activeUnit: nat,
    units: map<nat, Name>)
  {
    /** The 2D texture bound on `unit` (0 when none ever was). */
    function OnUnit(unit: nat): Name {
      if unit in units then units[unit] else 0
    }
  }

  const NoBindings: Bindings := Bindings(0, 0, 0, 0, 0, map[])

  /** A buffer's data store: its size and how many of its leading bytes were copied from valid source memory. */
  datatype Storage = Storage(bytes: nat, defined: nat)

  /** The store left by copying `bytes` bytes from a source holding `sourceBytes` valid ones. */
  function Filled(bytes: nat, sourceBytes: nat): (st: Storage)
    ensures st.bytes == bytes && st.defined <= bytes && st.defined <= sourceBytes
    ensures st.defined == bytes || st.defined == sourceBytes
  {
    Storage(bytes, if bytes <= sourceBytes then bytes else sourceBytes)
  }

  datatype Event =
    | Created(kind: Kind, name: Name)
    | Deleted(kind: Kind, name: Name)
    | Upload(target: Target, buffer: Name, bytes: nat, sourceBytes: nat)
    | AttribEnabled(vertexArray: Name, slot: nat)
    | AttribPointer(vertexArray: Name, buffer: Name, slot: nat, size: nat, stride: nat, offset: nat)
    | TexParameter(texture: Name, param: TexParam)
    | TexImage(texture: Name, format: Format, width: int, height: int)
    | Mipmap(texture: Name)
    | ShaderSource(shader: Name, source: string)
    | Compile(shader: Name)
    | Attach(program: Name, shader: Name)
    | Link(program: Name)
    | Query(queried: Name, status: Status)
    | InfoLog(object: Name, status: Status)
    | UniformWrite(lookup: Name, uniform: string, program: Name, value: Value)
    | DrawElements(count: nat, at: Bindings, available: nat)
    | Diagnostic(message: Message)

  datatype State = State(bind: Bindings, next: Name, storage: map<Name, Storage>, log: seq<Event>)

  /** Names are handed out in increasing order, so every name ever created lies below `next`. */
  predicate Valid(s: State) {
    && s.next > 0
    && (forall e | e in s.log && e.Created? :: 0 < e.name < s.next)
  }

  type Device = s: State | Valid(s) witness State(NoBindings, 1, map[], [])

  const Initial: Device := State(NoBindings, 1, map[], [])

  /** A name no earlier creation returned. */
  predicate Fresh(s: Device, n: Name) {
    forall e | e in s.log && e.Created? :: e.name != n
  }

  /** The result of a constructor: the new object and the context after it. */
  datatype Step<T> = Step(obj: T, state: Device)

  // ---------------------------------------------------------------------
  // Log views

  /** Views of the log: uniform writes, draw calls, console diagnostics, and everything the device itself sees. */
  datatype Category = UniformWrites | DrawCalls | Diagnostics | DeviceCalls | InfoLogs | Commands

  predicate In(e: Event, c: Category) {
    match c
    case UniformWrites => e.UniformWrite?
    case DrawCalls => e.DrawElements?
    case Diagnostics => e.Diagnostic?
    case DeviceCalls => !e.Diagnostic?
    case InfoLogs => e.InfoLog?
    case Commands => !e.Diagnostic? && !e.InfoLog?
  }

  /** The events of category `c`, in log order. */
  function Only(log: seq<Event>, c: Category): seq<Event> {
    if log == [] then []
    else Only(log[..|log| - 1], c) + (if In(log[|log| - 1], c) then [log[|log| - 1]] else [])
  }

  lemma {:induction false} OnlyConcat(a: seq<Event>, b: seq<Event>, c: Category)
    ensures Only(a + b, c) == Only(a, c) + Only(b, c)
    decreases |b|
  {
    if b == [] {
      assert a + b == a;
    } else {
      var b' := b[..|b| - 1];
      assert (a + b)[..|a + b| - 1] == a + b';
      assert (a + b)[|a + b| - 1] == b[|b| - 1];
      OnlyConcat(a, b', c);
    }
  }

  lemma OnlySingle(e: Event, c: Category)
    ensures Only([e], c) == if In(e, c) then [e] else []
  {
    assert [e][..0] == [];
  }

  /** Appending events none of which is of category `c` leaves that view unchanged. */
  lemma {:induction false} OnlyNone(a: seq<Event>, b: seq<Event>, c: Category)
    requires forall e | e in b :: !In(e, c)
    ensures Only(a + b, c) == Only(a, c)
    decreases |b|
  {
    OnlyConcat(a, b, c);
    OnlyEmpty(b, c);
  }

  lemma {:induction false} OnlyEmpty(b: seq<Event>, c: Category)
    requires forall e | e in b :: !In(e, c)
    ensures Only(b, c) == []
    decreases |b|
  {
    if b != [] {
      assert b[|b| - 1] in b;
      OnlyEmpty(b[..|b| - 1], c);
    }
  }

  /** The view of three events, one at a time. */
  lemma OnlyThree(x: Event, y: Event, z: Event, c: Category)
    ensures Only([x, y, z], c)
            == (if In(x, c) then [x] else []) + (if In(y, c) then [y] else []) + (if In(z, c) then [z] else [])
  {
    assert [x, y, z] == [x] + [y] + [z];
    OnlyConcat([x] + [y], [z], c);
    OnlyConcat([x], [y], c);
    OnlySingle(x, c);
    OnlySingle(y, c);
    OnlySingle(z, c);
  }

  /** A log all of whose events are of category `c` is its own view. */
  lemma {:induction false} OnlyAll(b: seq<Event>, c: Category)
    requires forall e | e in b :: In(e, c)
    ensures Only(b, c) == b
    decreases |b|
  {
    if b != [] {
      assert b[|b| - 1] in b;
      OnlyAll(b[..|b| - 1], c);
      assert b == b[..|b| - 1] + [b[|b| - 1]];
    }
  }

  /** Events with no console output and no info-log fetch are commands, and all the device sees of them. */
  lemma QuietViews(b: seq<Event>)
    requires forall e | e in b :: !e.Diagnostic? && !e.InfoLog?
    ensures Only(b, DeviceCalls) == b && Only(b, Commands) == b
    ensures Only(b, InfoLogs) == [] && Only(b, Diagnostics) == []
  {
    assert forall e | e in b :: In(e, DeviceCalls) && In(e, Commands) && !In(e, InfoLogs) && !In(e, Diagnostics);
    OnlyAll(b, DeviceCalls);
    OnlyAll(b, Commands);
    OnlyEmpty(b, InfoLogs);
    OnlyEmpty(b, Diagnostics);
  }

  /** What the device sees splits into commands and info-log fetches: one call more per fetch. */
  lemma {:induction false} DeviceCallsSplit(b: seq<Event>)
    ensures |Only(b, DeviceCalls)| == |Only(b, Commands)| + |Only(b, InfoLogs)|
    decreases |b|
  {
    if b != [] {
      DeviceCallsSplit(b[..|b| - 1]);
    }
  }

  /** How many times `e` occurs in the log; used for "created once", "deleted exactly once". */
  function Count(log: seq<Event>, e: Event): nat {
    multiset(log)[e]
  }

  /** Events that neither create nor delete anything leave every creation and deletion count alone. */
  lemma CountsUnchanged(log: seq<Event>, es: seq<Event>)
    requires forall e | e in es :: !e.Created? && !e.Deleted?
    ensures forall k: Kind, n: Name :: Count(log + es, Created(k, n)) == Count(log, Created(k, n))
    ensures forall k: Kind, n: Name :: Count(log + es, Deleted(k, n)) == Count(log, Deleted(k, n))
  {
    forall k: Kind, n: Name
      ensures multiset(es)[Created(k, n)] == 0 && multiset(es)[Deleted(k, n)] == 0
    {
      assert Created(k, n) !in es && Deleted(k, n) !in es;
    }
  }

  /** Appending events that do not include `e` leaves its count alone. */
  lemma CountPast(log: seq<Event>, es: seq<Event>, e: Event)
    requires e !in es
    ensures Count(log + es, e) == Count(log, e)
  {
    assert multiset(log + es) == multiset(log) + multiset(es);
  }

  /** Counts add up over concatenation. */
  lemma CountAppend(log: seq<Event>, es: seq<Event>, e: Event)
    ensures Count(log + es, e) == Count(log, e) + Count(es, e)
  {
    assert multiset(log + es) == multiset(log) + multiset(es);
  }

  /** Regrouping appended events. */
  lemma AppendAssoc(a: seq<Event>, b: seq<Event>, c: seq<Event>)
    ensures a + (b + c) == a + b + c
  {
  }

  /** Creating a name not created before, doing nothing that creates or deletes, then deleting it. */
  lemma CreateThenDelete(log: seq<Event>, k: Kind, n: Name, first: seq<Event>, second: seq<Event>)
    requires Created(k, n) !in log
    requires forall e | e in first :: !e.Created? && !e.Deleted?
    requires forall e | e in second :: !e.Created? && !e.Deleted?
    ensures Count(log + [Created(k, n)] + first + second + [Deleted(k, n)], Created(k, n)) == 1
    ensures Count(log + [Created(k, n)] + first + second + [Deleted(k, n)], Deleted(k, n)) == Count(log, Deleted(k, n)) + 1
  {
    assert Created(k, n) !in first && Deleted(k, n) !in first;
    assert Created(k, n) !in second && Deleted(k, n) !in second;
  }

  // ---------------------------------------------------------------------
  // Primitive transitions

  function Emit(s: Device, e: Event): (r: Device)
    requires !e.Created?
    ensures r.bind == s.bind && r.next == s.next && r.storage == s.storage
    ensures r.log == s.log + [e]
  {
    s.(log := s.log + [e])
  }

  function EmitAll(s: Device, es: seq<Event>): (r: Device)
    requires forall e | e in es :: !e.Created?
    ensures r.bind == s.bind && r.next == s.next && r.storage == s.storage
    ensures r.log == s.log + es
  {
    s.(log := s.log + es)
  }

  /** glGen*: a fresh non-zero name, recorded as created. */
  function Gen(s: Device, kind: Kind): (r: Step<Name>)
    ensures r.obj != 0 && Fresh(s, r.obj) && r.obj < r.state.next
    ensures r.obj == s.next && r.state.next == s.next + 1
    ensures r.state.bind == s.bind && r.state.storage == s.storage
    ensures r.state.log == s.log + [Created(kind, r.obj)]
  {
    var n := s.next;
    var r := State(s.bind, n + 1, s.storage, s.log + [Created(kind, n)]);
    assert Valid(r) by {
      forall e | e in r.log && e.Created?
        ensures 0 < e.name < r.next
      {
        if e !in s.log {
          assert e == Created(kind, n);
        }
      }
    }
    Step(n, r)
  }

  function Delete(s: Device, kind: Kind, n: Name): (r: Device)
    ensures r.bind == s.bind && r.storage == s.storage
    ensures r.log == s.log + [Deleted(kind, n)]
  {
    Emit(s, Deleted(kind, n))
  }

  function BindVertexArray(s: Device, n: Name): (r: Device)
    ensures r.bind == s.bind.(vertexArray := n)
    ensures r.log == s.log && r.storage == s.storage
  {
    s.(bind := s.bind.(vertexArray := n))
  }

  function BindBuffer(s: Device, t: Target, n: Name): (r: Device)
    ensures t == ArrayBuffer ==> r.bind == s.bind.(arrayBuffer := n)
    ensures t == ElementArrayBuffer ==> r.bind == s.bind.(elementBuffer := n)
    ensures r.log == s.log && r.storage == s.storage && r.next == s.next
  {
    match t
    case ArrayBuffer => s.(bind := s.bind.(arrayBuffer := n))
    case ElementArrayBuffer => s.(bind := s.bind.(elementBuffer := n))
  }

  function UseProgram(s: Device, n: Name): (r: Device)
    ensures r.bind == s.bind.(program := n)
    ensures r.log == s.log && r.storage == s.storage
  {
    s.(bind := s.bind.(program := n))
  }

  /** glActiveTexture(GL_TEXTURE0 + unit). */
  function ActiveTexture(s: Device, unit: nat): (r: Device)
    ensures r.bind == s.bind.(activeUnit := unit)
    ensures r.log == s.log && r.storage == s.storage
  {
    s.(bind := s.bind.(activeUnit := unit))
  }

  /** glBindTexture(GL_TEXTURE_2D, n): binds on the active unit only. */
  function BindTexture(s: Device, n: Name): (r: Device)
    ensures r.bind == s.bind.(units := s.bind.units[s.bind.activeUnit := n])
    ensures r.bind.OnUnit(s.bind.activeUnit) == n
    ensures forall u: nat | u != s.bind.activeUnit :: r.bind.OnUnit(u) == s.bind.OnUnit(u)
    ensures r.log == s.log && r.storage == s.storage
  {
    s.(bind := s.bind.(units := s.bind.units[s.bind.activeUnit := n]))
  }

  /** The buffer currently bound to a target. */
  function BoundTo(b: Bindings, t: Target): Name {
    match t
    case ArrayBuffer => b.arrayBuffer
    case ElementArrayBuffer => b.elementBuffer
  }

  /**
    glBufferData on the buffer bound to `t`, copying `bytes` bytes from a
    source region that only holds `sourceBytes` valid bytes.
   */
  function BufferData(s: Device, t: Target, bytes: nat, sourceBytes: nat): (r: Device)
    ensures r.bind == s.bind
    ensures r.log == s.log + [Upload(t, BoundTo(s.bind, t), bytes, sourceBytes)]
    ensures BoundTo(s.bind, t) != 0 ==> r.storage == s.storage[BoundTo(s.bind, t) := Filled(bytes, sourceBytes)]
    ensures BoundTo(s.bind, t) == 0 ==> r.storage == s.storage
    ensures r.next == s.next
  {
    var n := BoundTo(s.bind, t);
    var s' := Emit(s, Upload(t, n, bytes, sourceBytes));
    if n == 0 then s'
    else s'.(storage := s.storage[n := Filled(bytes, sourceBytes)])
  }

  function EnableVertexAttribArray(s: Device, slot: nat): (r: Device)
    ensures r.bind == s.bind && r.storage == s.storage
    ensures r.log == s.log + [AttribEnabled(s.bind.vertexArray, slot)]
  {
    Emit(s, AttribEnabled(s.bind.vertexArray, slot))
  }

  /** glVertexAttribPointer: records the layout against the bound vertex array and array buffer. */
  function VertexAttribPointer(s: Device, slot: nat, size: nat, stride: nat, offset: nat): (r: Device)
    ensures r.bind == s.bind && r.storage == s.storage
    ensures r.log == s.log + [AttribPointer(s.bind.vertexArray, s.bind.arrayBuffer, slot, size, stride, offset)]
  {
    Emit(s, AttribPointer(s.bind.vertexArray, s.bind.arrayBuffer, slot, size, stride, offset))
  }

  /** The texture bound on the active unit, which every GL_TEXTURE_2D call addresses. */
  function ActiveTextureName(b: Bindings): Name {
    b.OnUnit(b.activeUnit)
  }

  function TexParameteri(s: Device, p: TexParam): (r: Device)
    ensures r.bind == s.bind && r.storage == s.storage
    ensures r.log == s.log + [TexParameter(ActiveTextureName(s.bind), p)]
  {
    Emit(s, TexParameter(ActiveTextureName(s.bind), p))
  }

  function TexImage2D(s: Device, format: Format, width: int, height: int): (r: Device)
    ensures r.bind == s.bind && r.storage == s.storage
    ensures r.log == s.log + [TexImage(ActiveTextureName(s.bind), format, width, height)]
  {
    Emit(s, TexImage(ActiveTextureName(s.bind), format, width, height))
  }

  function GenerateMipmap(s: Device): (r: Device)
    ensures r.bind == s.bind && r.storage == s.storage
    ensures r.log == s.log + [Mipmap(ActiveTextureName(s.bind))]
  {
    Emit(s, Mipmap(ActiveTextureName(s.bind)))
  }

  function Diagnose(s: Device, m: Message): (r: Device)
    ensures r.bind == s.bind && r.storage == s.storage
    ensures r.log == s.log + [Diagnostic(m)]
  {
    Emit(s, Diagnostic(m))
  }

  /** glUniform* at a location looked up by name in program `lookup`; the value lands in the program in use. */
  function Uniform(s: Device, lookup: Name, uniform: string, v: Value): (r: Device)
    ensures r.bind == s.bind && r.storage == s.storage
    ensures r.log == s.log + [UniformWrite(lookup, uniform, s.bind.program, v)]
  {
    Emit(s, UniformWrite(lookup, uniform, s.bind.program, v))
  }

  /** The number of indices the bound element buffer holds from valid source memory. */
  function Available(s: Device): nat {
    IndicesIn(s.storage, s.bind.elementBuffer)
  }

  /** The number of indices buffer `n` holds from valid source memory. */
  function IndicesIn(storage: map<Name, Storage>, n: Name): nat {
    if n != 0 && n in storage then storage[n].defined / UintSize else 0
  }

  /** glDrawElements(GL_TRIANGLES, count, GL_UNSIGNED_INT, 0). */
  function Draw(s: Device, count: nat): (r: Device)
    ensures r.bind == s.bind && r.storage == s.storage
    ensures r.log == s.log + [DrawElements(count, s.bind, Available(s))]
  {
    Emit(s, DrawElements(count, s.bind, Available(s)))
  }

  /** An upload that copies past the end of its source. */
  predicate OverReads(e: Event) {
    e.Upload? && e.bytes > e.sourceBytes
  }

  /** A draw that fetches indices the element buffer never received from valid memory. */
  predicate OverDraws(e: Event) {
    e.DrawElements? && e.count > e.available
  }
}
