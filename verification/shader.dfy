/**
  Shader: reads the stage sources, compiles each stage, links a program and
  exposes the uniform setters. File contents and compile/link outcomes are
  oracles handed in by the caller.
 */
module Shaders {
  import opened Device

  /** The readable files and their contents. */
  type Files = map<string, string>

  /** The stage sources load() hands to glShaderSource; the geometry stage is optional. */
  datatype Sources = Sources(vertex: string, fragment: string, geometry: Option<string>)

  /** What the driver reports for each compile and for the link. */
  datatype Outcomes = Outcomes(vertexCompiles: bool, fragmentCompiles: bool, geometryCompiles: bool, links: bool)

  const AllSucceed: Outcomes := Outcomes(true, true, true, true)

  /** A Shader: the program name and the sources it was built from. */
  datatype Shader = Shader(id: Name, sources: Sources)

  /** readFile: the file contents, or the empty string and a diagnostic naming the stage when the file cannot be read. */
  function ReadFile(s: Device, files: Files, path: string, tag: Tag): (r: Step<string>)
    ensures path in files ==> r.obj == files[path] && r.state == s
    ensures path !in files ==> r.obj == "" && r.state.log == s.log + [Diagnostic(FileNotRead(tag))]
    ensures r.state.bind == s.bind && r.state.storage == s.storage && r.state.next == s.next
  {
    if path in files then Step(files[path], s)
    else Step("", Diagnose(s, FileNotRead(tag)))
  }

  /** The status checkCompileErrors asks for: the link status for the "PROGRAM" tag, the compile status for any other. */
  function StatusFor(tag: Tag): Status {
    if tag == ProgramTag then LinkStatus else CompileStatus
  }

  function ErrorFor(tag: Tag): Message {
    if tag == ProgramTag then LinkError(tag) else CompileError(tag)
  }

  /** The info-log fetch checkCompileErrors makes after a failed status: the shader log for a stage, the program log for "PROGRAM". */
  function Fetch(obj: Name, tag: Tag, ok: bool): seq<Event> {
    if ok then [] else [InfoLog(obj, StatusFor(tag))]
  }

  /**
    The events of checkCompileErrors: one status query; when the status
    reports failure, the info log is fetched and printed as a diagnostic.
   */
  function CheckEvents(obj: Name, tag: Tag, ok: bool): seq<Event> {
    [Query(obj, StatusFor(tag))] + Fetch(obj, tag, ok) + (if ok then [] else [Diagnostic(ErrorFor(tag))])
  }

  function CheckCompileErrors(s: Device, obj: Name, tag: Tag, ok: bool): (r: Device)
    ensures r.log == s.log + CheckEvents(obj, tag, ok)
    ensures r.bind == s.bind && r.storage == s.storage && r.next == s.next
  {
    var s1 := Emit(s, Query(obj, StatusFor(tag)));
    if ok then s1 else Diagnose(Emit(s1, InfoLog(obj, StatusFor(tag))), ErrorFor(tag))
  }

  /**
    The link status is queried exactly for the "PROGRAM" tag; the info log of
    the checked object is fetched, and a diagnostic written, exactly on failure.
   */
  lemma CheckQueriesAndLogs(obj: Name, tag: Tag, ok: bool)
    ensures CheckEvents(obj, tag, ok)[0].Query? && CheckEvents(obj, tag, ok)[0].queried == obj
    ensures CheckEvents(obj, tag, ok)[0].status == LinkStatus <==> tag == ProgramTag
    ensures (exists e | e in CheckEvents(obj, tag, ok) :: e.Diagnostic?) <==> !ok
    ensures (exists e | e in CheckEvents(obj, tag, ok) :: e.InfoLog?) <==> !ok
    ensures !ok ==> CheckEvents(obj, tag, ok)[1] == InfoLog(obj, CheckEvents(obj, tag, ok)[0].status)
    ensures !ok ==> Diagnostic(ErrorFor(tag)) in CheckEvents(obj, tag, ok)
    ensures ErrorFor(tag).LinkError? <==> tag == ProgramTag
  {
    if !ok {
      assert CheckEvents(obj, tag, ok)[1].InfoLog?;
      assert CheckEvents(obj, tag, ok)[2] == Diagnostic(ErrorFor(tag));
    } else {
      assert CheckEvents(obj, tag, ok) == [Query(obj, StatusFor(tag))];
    }
  }

  /** What building one stage appends: create, source, compile, check. */
  function StageEvents(stage: Stage, h: Name, source: string, tag: Tag, ok: bool): seq<Event> {
    StageHead(stage, h, source) + CheckEvents(h, tag, ok)
  }

  /** The calls before the check: create, source, compile. */
  function StageHead(stage: Stage, h: Name, source: string): seq<Event> {
    [Created(ShaderObject(stage), h), ShaderSource(h, source), Compile(h)]
  }

  function CompileStage(s: Device, stage: Stage, source: string, tag: Tag, ok: bool): (r: Step<Name>)
    ensures r.obj == s.next && r.state.next == s.next + 1
    ensures r.state.bind == s.bind && r.state.storage == s.storage
    ensures r.state.log == s.log + StageEvents(stage, r.obj, source, tag, ok)
  {
    var g := Gen(s, ShaderObject(stage));
    var s1 := Emit(g.state, ShaderSource(g.obj, source));
    var s2 := Emit(s1, Compile(g.obj));
    Step(g.obj, CheckCompileErrors(s2, g.obj, tag, ok))
  }

  /** The names `load` works with; `geometry` is present exactly when a geometry source is. */
  datatype Names = Names(vertex: Name, fragment: Name, geometry: Option<Name>, program: Name)

  function AttachGeometry(program: Name, g: Option<Name>): seq<Event> {
    if g.Some? then [Attach(program, g.value)] else []
  }

  function DeleteGeometry(g: Option<Name>): seq<Event> {
    if g.Some? then [Deleted(ShaderObject(GeometryStage), g.value)] else []
  }

  /**
    The protocol `load` follows: build the vertex and fragment stages (and the
    geometry stage when there is one), create the program, attach, link and
    check it, then delete every stage object.
   */
  function LoadEvents(n: Names, src: Sources, out: Outcomes): seq<Event> {
    var st := Stages(n.vertex, n.fragment, n.geometry);
    StagesEvents(st, src, out) + LinkEvents(st, n.program, out)
  }

  /** The names `load` is handed by the device, starting from `next`. */
  function LoadNames(next: Name, src: Sources): Names {
    if src.geometry.Some? then Names(next, next + 1, Some(next + 2), next + 3)
    else Names(next, next + 1, None, next + 2)
  }

  /** The optional geometry stage. */
  function GeometryStageIf(s: Device, src: Option<string>, ok: bool): (r: Step<Option<Name>>)
    ensures r.obj.Some? <==> src.Some?
    ensures src.Some? ==> r.obj == Some(s.next) && r.state.next == s.next + 1
    ensures src.None? ==> r.state.next == s.next
    ensures r.state.log == s.log + if src.Some? then StageEvents(GeometryStage, s.next, src.value, GeometryTag, ok) else []
    ensures r.state.bind == s.bind && r.state.storage == s.storage
  {
    match src
    case None => Step(None, s)
    case Some(text) =>
      var g := CompileStage(s, GeometryStage, text, GeometryTag, ok);
      Step(Some(g.obj), g.state)
  }

  /** The stage objects load builds before the program. */
  datatype Stages = Stages(vertex: Name, fragment: Name, geometry: Option<Name>)

  function StagesEvents(st: Stages, src: Sources, out: Outcomes): seq<Event> {
    StageEvents(VertexStage, st.vertex, src.vertex, VertexTag, out.vertexCompiles)
    + StageEvents(FragmentStage, st.fragment, src.fragment, FragmentTag, out.fragmentCompiles)
    + (if st.geometry.Some? && src.geometry.Some?
       then StageEvents(GeometryStage, st.geometry.value, src.geometry.value, GeometryTag, out.geometryCompiles)
       else [])
  }

  /** Attaching every stage object to the program. */
  function AttachAll(st: Stages, program: Name): seq<Event> {
    [Attach(program, st.vertex), Attach(program, st.fragment)] + AttachGeometry(program, st.geometry)
  }

  /** Creating, attaching and linking the program. */
  function LinkHead(st: Stages, program: Name): seq<Event> {
    [Created(ProgramObject, program)] + AttachAll(st, program) + [Link(program)]
  }

  /** Deleting every stage object. */
  function StageDeletions(st: Stages): seq<Event> {
    [Deleted(ShaderObject(VertexStage), st.vertex), Deleted(ShaderObject(FragmentStage), st.fragment)]
    + DeleteGeometry(st.geometry)
  }

  function LinkEvents(st: Stages, program: Name, out: Outcomes): seq<Event> {
    LinkHead(st, program) + CheckEvents(program, ProgramTag, out.links) + StageDeletions(st)
  }

  /** The first half of load: compile every stage there is a source for. */
  function CompileStages(s: Device, src: Sources, out: Outcomes): (r: Step<Stages>)
    ensures r.obj.vertex == s.next && r.obj.fragment == s.next + 1
    ensures r.obj.geometry == (if src.geometry.Some? then Some(s.next + 2) else None)
    ensures r.state.next == if src.geometry.Some? then s.next + 3 else s.next + 2
    ensures r.state.log == s.log + StagesEvents(r.obj, src, out)
    ensures r.state.bind == s.bind && r.state.storage == s.storage
  {
    var v := CompileStage(s, VertexStage, src.vertex, VertexTag, out.vertexCompiles);
    var f := CompileStage(v.state, FragmentStage, src.fragment, FragmentTag, out.fragmentCompiles);
    var g := GeometryStageIf(f.state, src.geometry, out.geometryCompiles);
    var st := Stages(v.obj, f.obj, g.obj);
    var vertex := StageEvents(VertexStage, st.vertex, src.vertex, VertexTag, out.vertexCompiles);
    var fragment := StageEvents(FragmentStage, st.fragment, src.fragment, FragmentTag, out.fragmentCompiles);
    var geometry := if st.geometry.Some? && src.geometry.Some?
                    then StageEvents(GeometryStage, st.geometry.value, src.geometry.value, GeometryTag, out.geometryCompiles)
                    else [];
    AppendAssoc(s.log, vertex, fragment);
    AppendAssoc(s.log, vertex + fragment, geometry);
    Step(st, g.state)
  }

  /** The second half of load: create, attach, link and check the program, then delete the stages. */
  function LinkProgram(s: Device, st: Stages, out: Outcomes): (r: Step<Name>)
    ensures r.obj == s.next
    ensures r.state.log == s.log + LinkEvents(st, r.obj, out)
    ensures r.state.bind == s.bind && r.state.storage == s.storage
  {
    var p := Gen(s, ProgramObject);
    var s1 := EmitAll(p.state, AttachAll(st, p.obj));
    var s2 := Emit(s1, Link(p.obj));
    var s3 := CheckCompileErrors(s2, p.obj, ProgramTag, out.links);
    var deletions := StageDeletions(st);
    assert forall e | e in deletions :: e.Deleted?;
    var s4 := EmitAll(s3, deletions);
    var head := LinkHead(st, p.obj);
    AppendAssoc(s.log, [Created(ProgramObject, p.obj)], AttachAll(st, p.obj));
    AppendAssoc(s.log, [Created(ProgramObject, p.obj)] + AttachAll(st, p.obj), [Link(p.obj)]);
    AppendAssoc(s.log, head, CheckEvents(p.obj, ProgramTag, out.links));
    AppendAssoc(s.log, head + CheckEvents(p.obj, ProgramTag, out.links), deletions);
    Step(p.obj, s4)
  }

  /** load(): every step runs whatever the outcomes; the program name is returned. */
  function Load(s: Device, src: Sources, out: Outcomes): (r: Step<Name>)
    ensures r.obj == LoadNames(s.next, src).program
    ensures r.state.log == s.log + LoadEvents(LoadNames(s.next, src), src, out)
    ensures r.state.bind == s.bind && r.state.storage == s.storage
  {
    var c := CompileStages(s, src, out);
    var l := LinkProgram(c.state, c.obj, out);
    var n := LoadNames(s.next, src);
    assert c.obj == Stages(n.vertex, n.fragment, n.geometry) && l.obj == n.program;
    var compiled := StagesEvents(c.obj, src, out);
    var linked := LinkEvents(c.obj, l.obj, out);
    AppendAssoc(s.log, compiled, linked);
    Step(l.obj, l.state)
  }

  /** The console line readFile writes for an unreadable file, if any. */
  function ReadFailure(files: Files, path: string, tag: Tag): seq<Event> {
    if path in files then [] else [Diagnostic(FileNotRead(tag))]
  }

  /** The console lines of reading all the stage files, in order. */
  function ReadFailures(files: Files, vertexPath: string, fragmentPath: string, geometryPath: Option<string>): seq<Event> {
    ReadFailure(files, vertexPath, VertexTag) + ReadFailure(files, fragmentPath, FragmentTag)
    + (if geometryPath.Some? then ReadFailure(files, geometryPath.value, GeometryTag) else [])
  }

  /** The sources the constructor reads; an unreadable file contributes the empty string and one console line. */
  function ReadSources(s: Device, files: Files, vertexPath: string, fragmentPath: string, geometryPath: Option<string>): (r: Step<Sources>)
    ensures r.obj.vertex == (if vertexPath in files then files[vertexPath] else "")
    ensures r.obj.fragment == (if fragmentPath in files then files[fragmentPath] else "")
    ensures r.obj.geometry.Some? <==> geometryPath.Some?
    ensures geometryPath.Some? ==> r.obj.geometry.value == (if geometryPath.value in files then files[geometryPath.value] else "")
    ensures r.state.log == s.log + ReadFailures(files, vertexPath, fragmentPath, geometryPath)
    ensures r.state.bind == s.bind && r.state.storage == s.storage && r.state.next == s.next
  {
    var v := ReadFile(s, files, vertexPath, VertexTag);
    var f := ReadFile(v.state, files, fragmentPath, FragmentTag);
    match geometryPath
    case None => Step(Sources(v.obj, f.obj, None), f.state)
    case Some(path) =>
      var t := ReadFile(f.state, files, path, GeometryTag);
      Step(Sources(v.obj, f.obj, Some(t.obj)), t.state)
  }

  /** The constructor: read the sources, then load. */
  function New(s: Device, files: Files, vertexPath: string, fragmentPath: string, geometryPath: Option<string>,
               out: Outcomes): (r: Step<Shader>)
    ensures var src := ReadSources(s, files, vertexPath, fragmentPath, geometryPath);
            && r.obj == Shader(LoadNames(s.next, src.obj).program, src.obj)
            && r.state.log == src.state.log + LoadEvents(LoadNames(s.next, src.obj), src.obj, out)
    ensures r.state.bind == s.bind && r.state.storage == s.storage
  {
    var src := ReadSources(s, files, vertexPath, fragmentPath, geometryPath);
    var l := Load(src.state, src.obj, out);
    Step(Shader(l.obj, src.obj), l.state)
  }

  /** enable(): make this program current. */
  function Enable(s: Device, sh: Shader): (r: Device)
    ensures r.bind == s.bind.(program := sh.id)
    ensures r.log == s.log && r.storage == s.storage && r.next == s.next
  {
    UseProgram(s, sh.id)
  }

  /** disable(): make no program current, whatever was current before. */
  function Disable(s: Device, sh: Shader): (r: Device)
    ensures r.bind == s.bind.(program := 0)
    ensures r.log == s.log && r.storage == s.storage && r.next == s.next
  {
    UseProgram(s, 0)
  }

  /**
    Every setter: one lookup of `name` in this shader's program and one upload,
    which lands in the program that is current.
   */
  function Set(s: Device, sh: Shader, name: string, v: Value): (r: Device)
    ensures r.bind == s.bind && r.storage == s.storage && r.next == s.next
    ensures r.log == s.log + [UniformWrite(sh.id, name, s.bind.program, v)]
    ensures Only(r.log, UniformWrites) == Only(s.log, UniformWrites) + [UniformWrite(sh.id, name, s.bind.program, v)]
    ensures Only(r.log, DrawCalls) == Only(s.log, DrawCalls)
  {
    var e := UniformWrite(sh.id, name, s.bind.program, v);
    OnlyConcat(s.log, [e], UniformWrites);
    OnlyConcat(s.log, [e], DrawCalls);
    OnlySingle(e, UniformWrites);
    OnlySingle(e, DrawCalls);
    Uniform(s, sh.id, name, v)
  }

  function SetInt(s: Device, sh: Shader, name: string, i: int): (r: Device)
    ensures r.bind == s.bind && r.storage == s.storage
    ensures r.log == s.log + [UniformWrite(sh.id, name, s.bind.program, IntValue(i))]
  {
    Set(s, sh, name, IntValue(i))
  }

  /** setBool uploads the boolean as the integer 1 or 0. */
  function SetBool(s: Device, sh: Shader, name: string, b: bool): (r: Device)
    ensures r == SetInt(s, sh, name, if b then 1 else 0)
  {
    Set(s, sh, name, IntValue(if b then 1 else 0))
  }

  /** setFloat, setVec2/3/4 and setMat2/3/4: the value is kept abstract, only its shape is recorded. */
  function SetFloats(s: Device, sh: Shader, name: string, shape: Shape): (r: Device)
    ensures r.bind == s.bind
    ensures r.log == s.log + [UniformWrite(sh.id, name, s.bind.program, FloatValue(shape))]
  {
    Set(s, sh, name, FloatValue(shape))
  }

  /** The destructor. */
  function Destroy(s: Device, sh: Shader): (r: Device)
    ensures r.bind == s.bind && r.storage == s.storage
    ensures r.log == s.log + [Deleted(ProgramObject, sh.id)]
  {
    Delete(s, ProgramObject, sh.id)
  }

  /** A uniform write made while the shader is enabled is looked up in, and lands in, that same program. */
  lemma WriteLandsWhenEnabled(s: Device, sh: Shader, name: string, v: Value)
    ensures var r := Set(Enable(s, sh), sh, name, v);
            var w := r.log[|r.log| - 1];
            w.lookup == w.program == sh.id
  {
  }

  /** enable then disable leaves no program current; from a neutral context it is the identity. */
  lemma EnableDisableNeutral(s: Device, sh: Shader)
    ensures Disable(Enable(s, sh), sh).bind == s.bind.(program := 0)
    ensures s.bind.program == 0 ==> Disable(Enable(s, sh), sh) == s
  {
  }

  /**
    The device's view of a status check: the query of a succeeding check,
    plus one info-log fetch when the status reports failure.
   */
  lemma CheckDeviceCalls(obj: Name, tag: Tag, ok: bool)
    ensures Only(CheckEvents(obj, tag, ok), Commands) == CheckEvents(obj, tag, true)
    ensures Only(CheckEvents(obj, tag, ok), InfoLogs) == Fetch(obj, tag, ok)
    ensures Only(CheckEvents(obj, tag, ok), DeviceCalls) == CheckEvents(obj, tag, true) + Fetch(obj, tag, ok)
    ensures Only(CheckEvents(obj, tag, ok), Diagnostics) == if ok then [] else [Diagnostic(ErrorFor(tag))]
  {
    var q := Query(obj, StatusFor(tag));
    assert CheckEvents(obj, tag, true) == [q];
    QuietViews([q]);
    if !ok {
      var f := InfoLog(obj, StatusFor(tag));
      var d := Diagnostic(ErrorFor(tag));
      assert CheckEvents(obj, tag, ok) == [q, f, d];
      OnlyThree(q, f, d, Commands);
      OnlyThree(q, f, d, InfoLogs);
      OnlyThree(q, f, d, DeviceCalls);
      OnlyThree(q, f, d, Diagnostics);
    } else {
      assert CheckEvents(obj, tag, ok) == [q];
    }
  }

  /** Any view of a stage build is the view of its head followed by the view of its check. */
  lemma StageSplit(stage: Stage, h: Name, source: string, tag: Tag, ok: bool, c: Category)
    ensures Only(StageEvents(stage, h, source, tag, ok), c) == Only(StageHead(stage, h, source), c) + Only(CheckEvents(h, tag, ok), c)
  {
    OnlyConcat(StageHead(stage, h, source), CheckEvents(h, tag, ok), c);
  }

  lemma StageHeadQuiet(stage: Stage, h: Name, source: string)
    ensures Only(StageHead(stage, h, source), Commands) == StageHead(stage, h, source)
    ensures Only(StageHead(stage, h, source), DeviceCalls) == StageHead(stage, h, source)
    ensures Only(StageHead(stage, h, source), InfoLogs) == [] && Only(StageHead(stage, h, source), Diagnostics) == []
  {
    QuietViews(StageHead(stage, h, source));
  }

  lemma {:induction false} StageViews(stage: Stage, h: Name, source: string, tag: Tag, ok: bool)
    ensures Only(StageEvents(stage, h, source, tag, ok), Commands) == StageEvents(stage, h, source, tag, true)
    ensures Only(StageEvents(stage, h, source, tag, ok), InfoLogs) == Fetch(h, tag, ok)
    ensures Only(StageEvents(stage, h, source, tag, ok), DeviceCalls) == StageEvents(stage, h, source, tag, true) + Fetch(h, tag, ok)
    ensures Only(StageEvents(stage, h, source, tag, ok), Diagnostics) == if ok then [] else [Diagnostic(ErrorFor(tag))]
  {
    var p := StageHead(stage, h, source);
    StageSplit(stage, h, source, tag, ok, Commands);
    StageSplit(stage, h, source, tag, ok, InfoLogs);
    StageSplit(stage, h, source, tag, ok, DeviceCalls);
    StageSplit(stage, h, source, tag, ok, Diagnostics);
    StageHeadQuiet(stage, h, source);
    CheckDeviceCalls(h, tag, ok);
    AppendAssoc(p, CheckEvents(h, tag, true), Fetch(h, tag, ok));
  }

  /** The diagnostics of the stage compiles, in the order load() checks them. */
  function StageFailures(src: Sources, out: Outcomes): seq<Event> {
    (if out.vertexCompiles then [] else [Diagnostic(CompileError(VertexTag))])
    + (if out.fragmentCompiles then [] else [Diagnostic(CompileError(FragmentTag))])
    + (if src.geometry.Some? && !out.geometryCompiles then [Diagnostic(CompileError(GeometryTag))] else [])
  }

  /** The info-log fetches of the stage compiles, in the order load() checks them. */
  function StageFetches(st: Stages, src: Sources, out: Outcomes): seq<Event> {
    Fetch(st.vertex, VertexTag, out.vertexCompiles)
    + Fetch(st.fragment, FragmentTag, out.fragmentCompiles)
    + (if st.geometry.Some? && src.geometry.Some? then Fetch(st.geometry.value, GeometryTag, out.geometryCompiles) else [])
  }

  /** Any view of the stage builds is the views of the vertex, fragment and geometry builds, in order. */
  lemma StagesSplit(st: Stages, src: Sources, out: Outcomes, c: Category)
    requires st.geometry.Some? <==> src.geometry.Some?
    ensures Only(StagesEvents(st, src, out), c)
            == Only(StageEvents(VertexStage, st.vertex, src.vertex, VertexTag, out.vertexCompiles), c)
               + Only(StageEvents(FragmentStage, st.fragment, src.fragment, FragmentTag, out.fragmentCompiles), c)
               + (if st.geometry.Some?
                  then Only(StageEvents(GeometryStage, st.geometry.value, src.geometry.value, GeometryTag, out.geometryCompiles), c)
                  else [])
  {
    var a := StageEvents(VertexStage, st.vertex, src.vertex, VertexTag, out.vertexCompiles);
    var b := StageEvents(FragmentStage, st.fragment, src.fragment, FragmentTag, out.fragmentCompiles);
    var g := if st.geometry.Some?
             then StageEvents(GeometryStage, st.geometry.value, src.geometry.value, GeometryTag, out.geometryCompiles)
             else [];
    assert StagesEvents(st, src, out) == (a + b) + g;
    OnlyConcat(a + b, g, c);
    OnlyConcat(a, b, c);
    if st.geometry.None? {
      OnlyAll([], c);
    }
  }

  lemma {:induction false} StagesViews(st: Stages, src: Sources, out: Outcomes)
    requires st.geometry.Some? <==> src.geometry.Some?
    ensures Only(StagesEvents(st, src, out), Commands) == StagesEvents(st, src, AllSucceed)
    ensures Only(StagesEvents(st, src, out), InfoLogs) == StageFetches(st, src, out)
    ensures Only(StagesEvents(st, src, out), Diagnostics) == StageFailures(src, out)
    ensures |StageFetches(st, src, out)| == |StageFailures(src, out)|
  {
    StagesCommands(st, src, out);
    StagesFetches(st, src, out);
    StagesFailures(st, src, out);
    FetchesMatchFailures(st, src, out);
  }

  /** One view of one stage build, taken from StageViews. */
  lemma StageView(stage: Stage, h: Name, source: string, tag: Tag, ok: bool, c: Category)
    requires c == Commands || c == InfoLogs || c == Diagnostics
    ensures Only(StageEvents(stage, h, source, tag, ok), c)
            == match c
               case Commands => StageEvents(stage, h, source, tag, true)
               case InfoLogs => Fetch(h, tag, ok)
               case _ => if ok then [] else [Diagnostic(ErrorFor(tag))]
  {
    StageViews(stage, h, source, tag, ok);
  }

  /** One view of the vertex, fragment and optional geometry builds. */
  lemma {:induction false} StagesView(st: Stages, src: Sources, out: Outcomes, c: Category)
    requires st.geometry.Some? <==> src.geometry.Some?
    requires c == Commands || c == InfoLogs || c == Diagnostics
    ensures var v := Only(StageEvents(VertexStage, st.vertex, src.vertex, VertexTag, out.vertexCompiles), c);
            var f := Only(StageEvents(FragmentStage, st.fragment, src.fragment, FragmentTag, out.fragmentCompiles), c);
            var g := if st.geometry.Some?
                     then Only(StageEvents(GeometryStage, st.geometry.value, src.geometry.value, GeometryTag, out.geometryCompiles), c)
                     else [];
            Only(StagesEvents(st, src, out), c) == v + f + g
  {
    StagesSplit(st, src, out, c);
  }

  lemma {:induction false} StagesCommands(st: Stages, src: Sources, out: Outcomes)
    requires st.geometry.Some? <==> src.geometry.Some?
    ensures Only(StagesEvents(st, src, out), Commands) == StagesEvents(st, src, AllSucceed)
  {
    StagesView(st, src, out, Commands);
    StageView(VertexStage, st.vertex, src.vertex, VertexTag, out.vertexCompiles, Commands);
    StageView(FragmentStage, st.fragment, src.fragment, FragmentTag, out.fragmentCompiles, Commands);
    if st.geometry.Some? {
      StageView(GeometryStage, st.geometry.value, src.geometry.value, GeometryTag, out.geometryCompiles, Commands);
    }
  }

  lemma {:induction false} StagesFetches(st: Stages, src: Sources, out: Outcomes)
    requires st.geometry.Some? <==> src.geometry.Some?
    ensures Only(StagesEvents(st, src, out), InfoLogs) == StageFetches(st, src, out)
  {
    StagesView(st, src, out, InfoLogs);
    StageView(VertexStage, st.vertex, src.vertex, VertexTag, out.vertexCompiles, InfoLogs);
    StageView(FragmentStage, st.fragment, src.fragment, FragmentTag, out.fragmentCompiles, InfoLogs);
    if st.geometry.Some? {
      StageView(GeometryStage, st.geometry.value, src.geometry.value, GeometryTag, out.geometryCompiles, InfoLogs);
    }
  }

  lemma {:induction false} StagesFailures(st: Stages, src: Sources, out: Outcomes)
    requires st.geometry.Some? <==> src.geometry.Some?
    ensures Only(StagesEvents(st, src, out), Diagnostics) == StageFailures(src, out)
  {
    StagesView(st, src, out, Diagnostics);
    StageView(VertexStage, st.vertex, src.vertex, VertexTag, out.vertexCompiles, Diagnostics);
    StageView(FragmentStage, st.fragment, src.fragment, FragmentTag, out.fragmentCompiles, Diagnostics);
    if st.geometry.Some? {
      StageView(GeometryStage, st.geometry.value, src.geometry.value, GeometryTag, out.geometryCompiles, Diagnostics);
    }
  }

  /** One info-log fetch per failed stage. */
  lemma FetchesMatchFailures(st: Stages, src: Sources, out: Outcomes)
    requires st.geometry.Some? <==> src.geometry.Some?
    ensures |StageFetches(st, src, out)| == |StageFailures(src, out)|
  {
  }

  lemma LinkPiecesQuiet(st: Stages, program: Name)
    ensures forall e | e in LinkHead(st, program) :: !e.Diagnostic? && !e.InfoLog?
    ensures forall e | e in StageDeletions(st) :: !e.Diagnostic? && !e.InfoLog?
  {
  }

  /** Any view of the link half is the views of its head, its check and its deletions, in order. */
  lemma LinkSplit(st: Stages, program: Name, out: Outcomes, c: Category)
    ensures Only(LinkEvents(st, program, out), c)
            == Only(LinkHead(st, program), c) + Only(CheckEvents(program, ProgramTag, out.links), c) + Only(StageDeletions(st), c)
  {
    var a := LinkHead(st, program);
    var k := CheckEvents(program, ProgramTag, out.links);
    var b := StageDeletions(st);
    OnlyConcat(a + k, b, c);
    OnlyConcat(a, k, c);
  }

  /** The head and the deletions of the link half are commands only. */
  lemma LinkPiecesViews(st: Stages, program: Name)
    ensures Only(LinkHead(st, program), Commands) == LinkHead(st, program)
    ensures Only(StageDeletions(st), Commands) == StageDeletions(st)
    ensures Only(LinkHead(st, program), InfoLogs) == [] && Only(StageDeletions(st), InfoLogs) == []
    ensures Only(LinkHead(st, program), Diagnostics) == [] && Only(StageDeletions(st), Diagnostics) == []
  {
    LinkPiecesQuiet(st, program);
    QuietViews(LinkHead(st, program));
    QuietViews(StageDeletions(st));
  }

  lemma {:induction false} LinkViews(st: Stages, program: Name, out: Outcomes)
    ensures Only(LinkEvents(st, program, out), Commands) == LinkEvents(st, program, AllSucceed)
    ensures Only(LinkEvents(st, program, out), InfoLogs) == Fetch(program, ProgramTag, out.links)
    ensures Only(LinkEvents(st, program, out), Diagnostics) == if out.links then [] else [Diagnostic(LinkError(ProgramTag))]
  {
    LinkCommands(st, program, out);
    LinkFetches(st, program, out);
    LinkFailures(st, program, out);
  }

  lemma {:induction false} LinkFetches(st: Stages, program: Name, out: Outcomes)
    ensures Only(LinkEvents(st, program, out), InfoLogs) == Fetch(program, ProgramTag, out.links)
  {
    LinkSplit(st, program, out, InfoLogs);
    LinkPiecesViews(st, program);
    CheckDeviceCalls(program, ProgramTag, out.links);
    assert [] + Fetch(program, ProgramTag, out.links) + [] == Fetch(program, ProgramTag, out.links);
  }

  lemma {:induction false} LinkFailures(st: Stages, program: Name, out: Outcomes)
    ensures Only(LinkEvents(st, program, out), Diagnostics) == if out.links then [] else [Diagnostic(LinkError(ProgramTag))]
  {
    var d := if out.links then [] else [Diagnostic(LinkError(ProgramTag))];
    LinkSplit(st, program, out, Diagnostics);
    LinkPiecesViews(st, program);
    CheckDeviceCalls(program, ProgramTag, out.links);
    assert [] + d + [] == d;
  }

  lemma {:induction false} LinkCommands(st: Stages, program: Name, out: Outcomes)
    ensures Only(LinkEvents(st, program, out), Commands) == LinkEvents(st, program, AllSucceed)
  {
    LinkSplit(st, program, out, Commands);
    LinkPiecesViews(st, program);
    CheckDeviceCalls(program, ProgramTag, out.links);
  }

  /**
    load() runs every step whatever the driver reports: with the info-log
    fetches and console lines taken out, its calls are exactly those of a
    fully successful build; each failed compile or link adds one info-log
    fetch of the failing object and one console line, in order.
   */
  lemma LoadIgnoresOutcomes(next: Name, src: Sources, out: Outcomes)
    ensures var n := LoadNames(next, src);
            && Only(LoadEvents(n, src, out), Commands) == LoadEvents(n, src, AllSucceed)
            && Only(LoadEvents(n, src, out), InfoLogs)
               == StageFetches(Stages(n.vertex, n.fragment, n.geometry), src, out) + Fetch(n.program, ProgramTag, out.links)
            && Only(LoadEvents(n, src, out), Diagnostics)
               == StageFailures(src, out) + (if out.links then [] else [Diagnostic(LinkError(ProgramTag))])
            && |Only(LoadEvents(n, src, out), DeviceCalls)|
               == |LoadEvents(n, src, AllSucceed)| + |Only(LoadEvents(n, src, out), Diagnostics)|
  {
    var n := LoadNames(next, src);
    var st := Stages(n.vertex, n.fragment, n.geometry);
    OnlyConcat(StagesEvents(st, src, out), LinkEvents(st, n.program, out), Commands);
    OnlyConcat(StagesEvents(st, src, out), LinkEvents(st, n.program, out), InfoLogs);
    OnlyConcat(StagesEvents(st, src, out), LinkEvents(st, n.program, out), Diagnostics);
    StagesViews(st, src, out);
    LinkViews(st, n.program, out);
    DeviceCallsSplit(LoadEvents(n, src, out));
  }

  /** Building one stage creates exactly that stage's object and deletes nothing. */
  lemma StageCreates(stage: Stage, h: Name, source: string, tag: Tag, ok: bool)
    ensures forall e | e in StageEvents(stage, h, source, tag, ok) && e.Created? :: e == Created(ShaderObject(stage), h)
    ensures Created(ShaderObject(stage), h) in StageEvents(stage, h, source, tag, ok)
    ensures forall e | e in StageEvents(stage, h, source, tag, ok) :: !e.Deleted?
  {
    assert StageEvents(stage, h, source, tag, ok)[0] == Created(ShaderObject(stage), h);
  }

  /** The only objects the stage half creates are its stages. */
  lemma StagesCreate(st: Stages, src: Sources, out: Outcomes)
    ensures forall e | e in StagesEvents(st, src, out) && e.Created? ::
              || e == Created(ShaderObject(VertexStage), st.vertex)
              || e == Created(ShaderObject(FragmentStage), st.fragment)
              || (st.geometry.Some? && src.geometry.Some? && e == Created(ShaderObject(GeometryStage), st.geometry.value))
    ensures Created(ShaderObject(VertexStage), st.vertex) in StagesEvents(st, src, out)
    ensures Created(ShaderObject(FragmentStage), st.fragment) in StagesEvents(st, src, out)
    ensures forall e | e in StagesEvents(st, src, out) :: !e.Deleted?
  {
    StageCreates(VertexStage, st.vertex, src.vertex, VertexTag, out.vertexCompiles);
    StageCreates(FragmentStage, st.fragment, src.fragment, FragmentTag, out.fragmentCompiles);
    if st.geometry.Some? && src.geometry.Some? {
      StageCreates(GeometryStage, st.geometry.value, src.geometry.value, GeometryTag, out.geometryCompiles);
    }
  }

  /** The link half creates only the program and deletes exactly the stages. */
  lemma LinkCreatesAndDeletes(st: Stages, program: Name, out: Outcomes)
    ensures forall e | e in LinkEvents(st, program, out) && e.Created? :: e == Created(ProgramObject, program)
    ensures forall e | e in LinkEvents(st, program, out) && e.Deleted? :: e.kind.ShaderObject?
    ensures Created(ProgramObject, program) in LinkEvents(st, program, out) && Link(program) in LinkEvents(st, program, out)
    ensures Deleted(ShaderObject(VertexStage), st.vertex) in LinkEvents(st, program, out)
    ensures Deleted(ShaderObject(FragmentStage), st.fragment) in LinkEvents(st, program, out)
    ensures st.geometry.Some? ==> Deleted(ShaderObject(GeometryStage), st.geometry.value) in LinkEvents(st, program, out)
  {
    var head := LinkHead(st, program);
    var tail := StageDeletions(st);
    assert head[0] in LinkEvents(st, program, out);
    assert head[|head| - 1] == Link(program) && head[|head| - 1] in LinkEvents(st, program, out);
    assert tail[0] in LinkEvents(st, program, out) && tail[1] in LinkEvents(st, program, out);
    if st.geometry.Some? {
      assert tail[2] in LinkEvents(st, program, out);
    }
  }

  /**
    load() creates one object per stage it has a source for and the program,
    deletes every stage object it created before returning, and keeps the program.
   */
  lemma LoadReleasesStages(next: Name, src: Sources, out: Outcomes)
    ensures var n := LoadNames(next, src);
            var es := LoadEvents(n, src, out);
            && Created(ShaderObject(VertexStage), n.vertex) in es && Deleted(ShaderObject(VertexStage), n.vertex) in es
            && Created(ShaderObject(FragmentStage), n.fragment) in es && Deleted(ShaderObject(FragmentStage), n.fragment) in es
            && (forall e | e in es && e.Created? && e.kind.ShaderObject? :: Deleted(e.kind, e.name) in es)
            && Created(ProgramObject, n.program) in es && Link(n.program) in es
            && Deleted(ProgramObject, n.program) !in es
            && ((exists e | e in es :: e.Created? && e.kind == ShaderObject(GeometryStage)) <==> src.geometry.Some?)
  {
    var n := LoadNames(next, src);
    var st := Stages(n.vertex, n.fragment, n.geometry);
    var a := StagesEvents(st, src, out);
    var b := LinkEvents(st, n.program, out);
    assert LoadEvents(n, src, out) == a + b;
    StagesCreate(st, src, out);
    LinkCreatesAndDeletes(st, n.program, out);
    ReleasedStages(a, b);
    assert Deleted(ProgramObject, n.program) !in a + b;
    if src.geometry.Some? {
      var g := StageEvents(GeometryStage, st.geometry.value, src.geometry.value, GeometryTag, out.geometryCompiles);
      assert g[0] in a;
      assert g[0] in a + b;
    } else {
      assert forall e: Event | e in a + b && e.Created? :: e.kind != ShaderObject(GeometryStage);
    }
  }

  /** A stage object created in the first half and deleted in the second is released by the whole. */
  lemma ReleasedStages(a: seq<Event>, b: seq<Event>)
    requires forall e | e in b && e.Created? :: !e.kind.ShaderObject?
    requires forall e | e in a && e.Created? && e.kind.ShaderObject? :: Deleted(e.kind, e.name) in b
    ensures forall e | e in a + b && e.Created? && e.kind.ShaderObject? :: Deleted(e.kind, e.name) in a + b
  {
  }

  /** load() hands glShaderSource only the texts it was given. */
  lemma LoadSourcesFrom(n: Names, src: Sources, out: Outcomes)
    ensures forall e | e in LoadEvents(n, src, out) && e.ShaderSource? ::
              e.source == src.vertex || e.source == src.fragment || Some(e.source) == src.geometry
  {
    var st := Stages(n.vertex, n.fragment, n.geometry);
    assert forall e | e in LinkHead(st, n.program) :: !e.ShaderSource?;
    assert forall e | e in StageDeletions(st) :: !e.ShaderSource?;
    assert forall e | e in CheckEvents(n.program, ProgramTag, out.links) :: !e.ShaderSource?;
    StagesSourcesFrom(st, src, out);
  }

  lemma StagesSourcesFrom(st: Stages, src: Sources, out: Outcomes)
    ensures forall e | e in StagesEvents(st, src, out) && e.ShaderSource? ::
              e.source == src.vertex || e.source == src.fragment || Some(e.source) == src.geometry
  {
    forall stage: Stage, h: Name, t: string, tag: Tag, ok: bool
      ensures forall e | e in StageEvents(stage, h, t, tag, ok) && e.ShaderSource? :: e.source == t
    {
      assert forall e | e in CheckEvents(h, tag, ok) :: !e.ShaderSource?;
    }
  }

  /** An unreadable vertex file is reported, and the shader is still built, from the empty source. */
  lemma MissingVertexFileStillBuilds(s: Device, files: Files, vertexPath: string, fragmentPath: string, out: Outcomes)
    requires vertexPath !in files
    ensures var r := New(s, files, vertexPath, fragmentPath, None, out);
            && Diagnostic(FileNotRead(VertexTag)) in r.state.log
            && ShaderSource(s.next, "") in r.state.log
            && Link(r.obj.id) in r.state.log
  {
    var src := ReadSources(s, files, vertexPath, fragmentPath, None);
    var n := LoadNames(s.next, src.obj);
    var st := Stages(n.vertex, n.fragment, n.geometry);
    var r := New(s, files, vertexPath, fragmentPath, None, out);
    assert ReadFailures(files, vertexPath, fragmentPath, None)[0] in r.state.log;
    var v := StageEvents(VertexStage, s.next, "", VertexTag, out.vertexCompiles);
    assert v[1] in StagesEvents(st, src.obj, out);
    LoadReleasesStages(s.next, src.obj, out);
  }
}
