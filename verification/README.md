# RenderEngine, modelled in Dafny

RenderEngine is a small C++ OpenGL engine: a `Window` over GLFW, thin RAII
wrappers for vertex buffers, index buffers, vertex arrays, textures and
shader programs, a `Mesh` that draws itself with named sampler uniforms, and
a demo `main.cpp` that lights ten textured containers and four lamps. Almost
every line of it calls OpenGL. This project models the OpenGL context as an
immutable value. Every wrapper method becomes a pure transition on that
value, with a contract over the resulting state.

The context (`Device.State`, module `Device`) holds:

- the bindings: current program, vertex array, array buffer, element
  buffer, active texture unit, and the texture on each unit;
- the next fresh object name;
- for every buffer, how many bytes it holds and how many of them were
  actually copied from the caller's array (`Storage`);
- a log of the observable calls: object creation and deletion, uploads,
  attribute layouts, texture parameters, uniform writes, status queries,
  draws, and console diagnostics.

Binds are not logged. They live in the bindings, and every draw event
carries a snapshot of the bindings plus the number of defined indices in
the bound element buffer. `Device` is the subset of states where every
created name lies below `next`.

Files and modules:

- `device.dfy` (`Device`): the context, the OpenGL calls used by the engine,
  log views (`Only`, `Count`) and counting lemmas.
- `vertexbuffer.dfy`, `indexbuffer.dfy`, `vertexarray.dfy`: the buffer wrappers.
- `texture.dfy` (`Textures`): format choice, decode branching, unit binding.
- `shader.dfy` (`Shaders`): file reading, the stage/program protocol of
  `load`, status checks, enable/disable, uniform setters.
- `decimal.dfy` (`Decimal`): the decimal rendering `stringstream` uses for
  the sampler-name counters.
- `mesh.dfy` (`Meshes`): `setupMesh` and `Mesh::Draw`.
- `window.dfy` (`Windows`): the key and button tables, callbacks, the
  first-mouse logic and `processInput`.
- `scene.dfy` (`Scene`): the cube indices, the demo's objects, one frame of
  its render loop, and its teardown.

Decoding outcomes, compile and link outcomes, and the contents of files are
parameters. The model neither reads files nor decodes images.

Where the source has a defect, the model keeps both the code as written and
a corrected version. The demo scene takes a `Scene.Version`: `AsWritten`
builds it with `addVertexBuffer` and the `Texture` constructor as the
program has them (so the arrays record no buffers), and `Corrected` uses the
versions that record the buffer and refuse unsupported channel counts.

## Model

| member | source | states |
|---|---|---|
| Device.UintProduct | RenderEngine/RenderEngine/src/graphics/buffers/indexbuffer.cpp:9 | The 32-bit product of two counts never exceeds the true product, and equals it when that product fits in 32 bits. |
| Device.Filled | RenderEngine/RenderEngine/src/graphics/buffers/vertexbuffer.cpp:9 | A buffer filled with `bytes` from a source of `sourceBytes` holds `bytes` bytes, of which only as many as the source had are defined. |
| Device.Gen | RenderEngine/RenderEngine/src/graphics/buffers/vertexbuffer.cpp:7 | A generated name is nonzero and was never created before; the creation is logged and no binding changes. |
| Device.BufferData | RenderEngine/RenderEngine/src/graphics/buffers/vertexbuffer.cpp:9 | An upload fills the buffer bound to the target and only that one; with nothing bound, storage is unchanged. |
| Device.BindTexture | RenderEngine/RenderEngine/src/graphics/texture.cpp:54 | Binding a texture sets only the active unit; every other unit keeps its texture. |
| Device.Draw | RenderEngine/RenderEngine/src/graphics/mesh.cpp:51 | An indexed draw records its count, the bindings at the time and the defined indices available, and changes no state. |
| Device.CreateThenDelete | RenderEngine/RenderEngine/src/graphics/buffers/vertexbuffer.cpp:4-16 | An object created fresh and deleted after calls that create and delete nothing is created exactly once and deleted once more than before. |
| VertexBuffers.New | RenderEngine/RenderEngine/src/graphics/buffers/vertexbuffer.cpp:4-11 | The constructor keeps both counts, creates one fresh buffer, fills it with vertexCount*componentCount floats, and leaves the array-buffer binding at 0. |
| VertexBuffers.Bind | RenderEngine/RenderEngine/src/graphics/buffers/vertexbuffer.cpp:17-20 | bind sets the array-buffer binding to this buffer and changes nothing else. |
| VertexBuffers.Unbind | RenderEngine/RenderEngine/src/graphics/buffers/vertexbuffer.cpp:21-24 | unbind clears the array-buffer binding whatever it held, and changes nothing else. |
| VertexBuffers.Destroy | RenderEngine/RenderEngine/src/graphics/buffers/vertexbuffer.cpp:13-16 | The destructor logs exactly one deletion of this buffer. |
| VertexBuffers.UploadInBounds | RenderEngine/RenderEngine/src/graphics/buffers/vertexbuffer.cpp:9 | The upload stays within the caller's array exactly when the wrapped product of the counts is at most the number of floats supplied. |
| VertexBuffers.BindNeutral | RenderEngine/RenderEngine/src/graphics/buffers/vertexbuffer.cpp:17-24 | bind then unbind restores a context that had no array buffer bound, and binding twice equals binding once. |
| VertexBuffers.CreateDeletePaired | RenderEngine/RenderEngine/src/graphics/buffers/vertexbuffer.cpp:4-16 | A buffer constructed then destroyed is created exactly once and deleted exactly once more. |
| IndexBuffers.New | RenderEngine/RenderEngine/src/graphics/buffers/indexbuffer.cpp:4-11 | The constructor keeps both counts, creates one fresh buffer, fills it with primitiveCount*componentCount indices read from the array, and leaves the element-buffer binding at 0. |
| IndexBuffers.Bind | RenderEngine/RenderEngine/src/graphics/buffers/indexbuffer.cpp:17-20 | bind sets the element-buffer binding to this buffer and changes nothing else. |
| IndexBuffers.Unbind | RenderEngine/RenderEngine/src/graphics/buffers/indexbuffer.cpp:21-24 | unbind clears the element-buffer binding and changes nothing else. |
| IndexBuffers.Destroy | RenderEngine/RenderEngine/src/graphics/buffers/indexbuffer.cpp:13-16 | The destructor logs exactly one deletion of this buffer. |
| IndexBuffers.UploadInBounds | RenderEngine/RenderEngine/src/graphics/buffers/indexbuffer.cpp:9 | The upload stays within the index array exactly when the wrapped product of the counts is at most the array's length. |
| IndexBuffers.DrawWithinUpload | RenderEngine/RenderEngine/src/graphics/buffers/indexbuffer.cpp:4-11 | Once the buffer is bound, a draw of primitiveCount*componentCount indices uses only defined indices exactly when that count is at most the array's length. |
| IndexBuffers.BindNeutral | RenderEngine/RenderEngine/src/graphics/buffers/indexbuffer.cpp:17-24 | bind then unbind restores a context with no element buffer bound, and binding twice equals binding once. |
| IndexBuffers.CreateDeletePaired | RenderEngine/RenderEngine/src/graphics/buffers/indexbuffer.cpp:4-16 | An index buffer constructed then destroyed is created exactly once and deleted exactly once more. |
| VertexArrays.New | RenderEngine/RenderEngine/src/graphics/buffers/vertexarray.cpp:5-8 | The constructor creates one fresh, nonzero vertex array with no recorded buffers and binds nothing. |
| VertexArrays.Bind | RenderEngine/RenderEngine/src/graphics/buffers/vertexarray.cpp:29-32 | bind sets the current vertex array and changes nothing else. |
| VertexArrays.Unbind | RenderEngine/RenderEngine/src/graphics/buffers/vertexarray.cpp:34-37 | unbind sets the current vertex array to 0 whatever it was, and changes nothing else. |
| VertexArrays.AttachLayout | RenderEngine/RenderEngine/src/graphics/buffers/vertexarray.cpp:20-26 | addVertexBuffer enables exactly the given slot and points it at the buffer, with the buffer's component count, a stride of componentCount floats and offset 0; it leaves the array and array buffer unbound. |
| VertexArrays.AddVertexBufferAsWritten | RenderEngine/RenderEngine/src/graphics/buffers/vertexarray.cpp:18-27 | As written, addVertexBuffer issues the layout calls but leaves the array's list of buffers unchanged. |
| VertexArrays.AddVertexBuffer | RenderEngine/RenderEngine/src/graphics/buffers/vertexarray.cpp:18-27 | The corrected addVertexBuffer issues the same calls and appends the buffer to the array's list, which the destructor walks. |
| VertexArrays.DeleteBuffers | RenderEngine/RenderEngine/src/graphics/buffers/vertexarray.cpp:12-13 | The destructor's loop deletes each recorded buffer in order and changes no binding. |
| VertexArrays.Destroy | RenderEngine/RenderEngine/src/graphics/buffers/vertexarray.cpp:10-16 | The destructor deletes every recorded buffer, then the array itself. |
| VertexArrays.DestroyDeletesExactly | RenderEngine/RenderEngine/src/graphics/buffers/vertexarray.cpp:10-16 | Each buffer name is deleted as many more times as it occurs in the list; the array is deleted exactly once more; no other event is added. |
| VertexArrays.DeletionsCount | RenderEngine/RenderEngine/src/graphics/buffers/vertexarray.cpp:12-13 | The deletions are, as a multiset, exactly the recorded buffer names, and contain nothing else. |
| VertexArrays.BindNeutral | RenderEngine/RenderEngine/src/graphics/buffers/vertexarray.cpp:29-37 | bind then unbind restores a context that had no vertex array bound. |
| VertexArrays.AsWrittenLeaksAttached | RenderEngine/RenderEngine/src/graphics/buffers/vertexarray.cpp:18-27 | As written, a buffer attached to a new array is not deleted when the array is destroyed. |
| VertexArrays.DeletedOnceMore | RenderEngine/RenderEngine/src/graphics/buffers/vertexarray.cpp:10-16 | A single deletion surrounded by events that are not that deletion raises its count by exactly one. |
| VertexArrays.DestroyReleasesAttached | RenderEngine/RenderEngine/src/graphics/buffers/vertexarray.cpp:10-27 | With the buffer recorded, destroying the array deletes the attached buffer exactly once. |
| Textures.FormatAsWritten | RenderEngine/RenderEngine/src/graphics/texture.cpp:24-32 | As written, the format is unassigned exactly when the channel count is not 1, 3 or 4. |
| Textures.FormatFor | RenderEngine/RenderEngine/src/graphics/texture.cpp:24-30 | 1 channel gives RED, 3 give RGB, 4 give RGBA, and any other count gives no format. |
| Textures.Prepare | RenderEngine/RenderEngine/src/graphics/texture.cpp:8-15 | The constructor creates a fresh texture, binds it on the active unit, and sets wrap S/T and min/mag filter before any decode. |
| Textures.Upload | RenderEngine/RenderEngine/src/graphics/texture.cpp:32-33 | An upload sends the image to the texture on the active unit, then builds its mipmaps. |
| Textures.NewAsWritten | RenderEngine/RenderEngine/src/graphics/texture.cpp:5-43 | As written, the constructor leaves the new texture bound on the active unit, with the unassigned format used for unsupported channel counts. |
| Textures.New | RenderEngine/RenderEngine/src/graphics/texture.cpp:5-43 | The corrected constructor has the same effect on bindings and storage, and reports an unsupported channel count instead of uploading. |
| Textures.Bind | RenderEngine/RenderEngine/src/graphics/texture.cpp:51-55 | bind(n) makes unit n active and puts this texture on it; every other unit is unchanged. |
| Textures.Unbind | RenderEngine/RenderEngine/src/graphics/texture.cpp:59-62 | unbind clears whatever unit is active, not the unit the texture was bound to. |
| Textures.UnbindFrom | RenderEngine/RenderEngine/main.cpp:312-313 | Clearing a given unit makes it active and empty, leaving the other units alone. |
| Textures.Destroy | RenderEngine/RenderEngine/src/graphics/texture.cpp:44-47 | The destructor logs exactly one deletion of this texture. |
| Textures.UploadIffDecoded | RenderEngine/RenderEngine/src/graphics/texture.cpp:21-39 | Image data is uploaded, and mipmaps built, if and only if decoding succeeded with a supported channel count; a failed decode is reported if and only if decoding failed. |
| Textures.NeverIndeterminate | RenderEngine/RenderEngine/src/graphics/texture.cpp:24-32 | With the check, no upload ever uses an unassigned format. |
| Textures.AsWrittenIndeterminate | RenderEngine/RenderEngine/src/graphics/texture.cpp:24-32 | As written, a decoded two-channel image is uploaded with an unassigned format. |
| Textures.AgreeWhenSupported | RenderEngine/RenderEngine/src/graphics/texture.cpp:21-39 | Both constructors agree if and only if decoding failed or the channel count is supported. |
| Textures.UnbindMissesEarlierUnit | RenderEngine/RenderEngine/src/graphics/texture.cpp:51-62 | After binding t on unit n and another texture on unit m, t's unbind clears unit m and leaves t on unit n. |
| Textures.CreateDeletePaired | RenderEngine/RenderEngine/src/graphics/texture.cpp:5-47 | With the corrected constructor, a texture constructed then destroyed is created exactly once and deleted exactly once more, whatever the decode outcome. |
| Textures.CreateDeletePairedAsWritten | RenderEngine/RenderEngine/src/graphics/texture.cpp:5-47 | With the constructor as written, too, a texture constructed then destroyed is created exactly once and deleted exactly once more, whatever the decode reported, unsupported channel counts included. |
| Shaders.ReadFile | RenderEngine/RenderEngine/src/graphics/shader.cpp:29-48 | A readable file yields its contents with no side effect; an unreadable one yields the empty string and one diagnostic tagged with the stage. |
| Shaders.CheckCompileErrors | RenderEngine/RenderEngine/src/graphics/shader.cpp:95-117 | The check issues one status query; only when the status reports failure does it fetch the info log of the checked object and print one diagnostic. |
| Shaders.CheckQueriesAndLogs | RenderEngine/RenderEngine/src/graphics/shader.cpp:99-116 | The query is for link status if and only if the tag is PROGRAM; an info-log fetch of the checked object, and a diagnostic, appear if and only if the check failed; the diagnostic is a link error if and only if the tag is PROGRAM. |
| Shaders.CompileStage | RenderEngine/RenderEngine/src/graphics/shader.cpp:57-60 | A stage is created under a fresh name, given its source, compiled and checked. |
| Shaders.GeometryStageIf | RenderEngine/RenderEngine/src/graphics/shader.cpp:69-74 | A geometry stage is built if and only if there is a geometry source; otherwise nothing happens. |
| Shaders.CompileStages | RenderEngine/RenderEngine/src/graphics/shader.cpp:57-74 | Vertex, fragment and optional geometry stages get distinct fresh names, in that order. |
| Shaders.LinkProgram | RenderEngine/RenderEngine/src/graphics/shader.cpp:77-89 | The program is created, every stage attached, linked and checked, then every stage deleted. |
| Shaders.Load | RenderEngine/RenderEngine/src/graphics/shader.cpp:52-93 | load returns the program name, follows the stage and link protocol, and changes no binding or storage. |
| Shaders.ReadSources | RenderEngine/RenderEngine/src/graphics/shader.cpp:9-19 | The constructor reads the vertex, fragment and, when given, geometry file; each unreadable file contributes an empty source and one diagnostic. |
| Shaders.New | RenderEngine/RenderEngine/src/graphics/shader.cpp:7-21 | The shader's name is the program load returns from the sources just read. |
| Shaders.Enable | RenderEngine/RenderEngine/src/graphics/shader.cpp:121-124 | enable makes this program current and changes nothing else. |
| Shaders.Disable | RenderEngine/RenderEngine/src/graphics/shader.cpp:128-131 | disable makes no program current and changes nothing else. |
| Shaders.Set | RenderEngine/RenderEngine/src/graphics/shader.cpp:145-190 | A setter looks the uniform up on this shader, writes to the current program, adds exactly one uniform write and no draw, and changes no binding. |
| Shaders.SetInt | RenderEngine/RenderEngine/src/graphics/shader.cpp:140-143 | setInt writes the integer to the named uniform and changes no binding. |
| Shaders.SetBool | RenderEngine/RenderEngine/src/graphics/shader.cpp:135-138 | setBool is setInt with 1 for true and 0 for false. |
| Shaders.SetFloats | RenderEngine/RenderEngine/src/graphics/shader.cpp:145-190 | The float and matrix setters write one value of the given shape to the named uniform. |
| Shaders.Destroy | RenderEngine/RenderEngine/src/graphics/shader.cpp:25-27 | The destructor deletes the program once. |
| Shaders.WriteLandsWhenEnabled | RenderEngine/RenderEngine/src/graphics/shader.cpp:121-143 | After enable, a write looks up and lands in the same program. |
| Shaders.EnableDisableNeutral | RenderEngine/RenderEngine/src/graphics/shader.cpp:121-131 | enable then disable leaves no program current, and restores a context that had none. |
| Shaders.CheckDeviceCalls | RenderEngine/RenderEngine/src/graphics/shader.cpp:95-117 | What the device sees of a check is the query of a succeeding check plus one info-log fetch when it fails; the console line appears only on failure. |
| Shaders.StageViews | RenderEngine/RenderEngine/src/graphics/shader.cpp:57-60 | Building a stage makes the calls of a successful build plus one shader info-log fetch when it does not compile; it logs a compile error exactly then. |
| Shaders.StagesViews | RenderEngine/RenderEngine/src/graphics/shader.cpp:57-74 | Without the info-log fetches, compiling the stages makes the calls of an all-compiling build; the fetches and the diagnostics are one per failed stage, in order. |
| Shaders.LinkPiecesQuiet | RenderEngine/RenderEngine/src/graphics/shader.cpp:77-89 | Creating, attaching, linking and deleting log no diagnostics. |
| Shaders.LinkViews | RenderEngine/RenderEngine/src/graphics/shader.cpp:77-89 | Without the info-log fetch, linking makes the calls of a successful link; a failed link adds one program info-log fetch and one link error. |
| Shaders.LoadIgnoresOutcomes | RenderEngine/RenderEngine/src/graphics/shader.cpp:57-89 | load has no early exit: its calls are those of an all-successful load plus one info-log fetch per failed compile or link, and its diagnostics are exactly the failed compiles followed by a failed link. |
| Shaders.StageCreates | RenderEngine/RenderEngine/src/graphics/shader.cpp:57-60 | Building a stage creates exactly that stage object and deletes nothing. |
| Shaders.StagesCreate | RenderEngine/RenderEngine/src/graphics/shader.cpp:57-74 | Compiling creates the vertex and fragment objects, the geometry object only when there is a geometry source, and deletes nothing. |
| Shaders.LinkCreatesAndDeletes | RenderEngine/RenderEngine/src/graphics/shader.cpp:77-89 | Linking creates only the program and deletes only stage objects: the vertex, the fragment and any geometry stage. |
| Shaders.LoadReleasesStages | RenderEngine/RenderEngine/src/graphics/shader.cpp:57-92 | Every stage object load creates is deleted; the program is created, linked and not deleted; a geometry stage exists if and only if there is a geometry source. |
| Shaders.ReleasedStages | RenderEngine/RenderEngine/src/graphics/shader.cpp:77-89 | Stage deletions that follow in a part creating no stage objects release every stage object created before. |
| Shaders.LoadSourcesFrom | RenderEngine/RenderEngine/src/graphics/shader.cpp:57-74 | Every source handed to a stage is one of the sources read. |
| Shaders.StagesSourcesFrom | RenderEngine/RenderEngine/src/graphics/shader.cpp:57-74 | Every source the compile steps hand over is one of the sources read. |
| Shaders.MissingVertexFileStillBuilds | RenderEngine/RenderEngine/src/graphics/shader.cpp:9-20 | A missing vertex file is reported, the empty source is compiled, and the program is still linked. |
| Decimal.DigitChar | RenderEngine/RenderEngine/src/graphics/mesh.cpp:36 | A digit value maps to the character of that value. |
| Decimal.Render | RenderEngine/RenderEngine/src/graphics/mesh.cpp:36-43 | A counter renders as a non-empty string of digits with no leading zero. |
| Decimal.ParseRender | RenderEngine/RenderEngine/src/graphics/mesh.cpp:36-43 | Reading the rendered digits back gives the counter. |
| Decimal.RenderInjective | RenderEngine/RenderEngine/src/graphics/mesh.cpp:36-43 | Two counters render alike if and only if they are equal. |
| Meshes.LayoutTilesVertex | RenderEngine/RenderEngine/src/graphics/mesh.h:22-33 | The five attributes (3, 3, 2, 3, 3 floats) lie back to back from offset 0 and fill the vertex record exactly. |
| Meshes.SetAttribute | RenderEngine/RenderEngine/src/graphics/mesh.cpp:97-110 | Each attribute step enables its slot and points it into the bound vertex buffer, changing no binding. |
| Meshes.New | RenderEngine/RenderEngine/src/graphics/mesh.cpp:6-11 | setupMesh creates the array and two buffers, fills them from the non-empty index and vertex vectors, declares the five attributes, and leaves array, array buffer and element buffer unbound. |
| Meshes.KindsDistinct | RenderEngine/RenderEngine/src/graphics/mesh.cpp:35-42 | The four texture type strings are pairwise different. |
| Meshes.CounterStep | RenderEngine/RenderEngine/src/graphics/mesh.cpp:35-42 | Each texture advances the 32-bit counter of its own type by one and leaves the others alone. |
| Meshes.WritesAt | RenderEngine/RenderEngine/src/graphics/mesh.cpp:45 | The i-th sampler write sets texture i's uniform name to the unit index i. |
| Meshes.BindUnitsOn | RenderEngine/RenderEngine/src/graphics/mesh.cpp:26-29 | After the binding loop, unit i holds texture i for every i below n, and other units are unchanged. |
| Meshes.ClearUnitsOn | RenderEngine/RenderEngine/src/graphics/mesh.cpp:56-62 | After the unbind sweep, units below n are empty and the others unchanged. |
| Meshes.DrawSpec | RenderEngine/RenderEngine/src/graphics/mesh.cpp:14-68 | The draw protocol stated directly; it changes neither storage nor the name counter. |
| Meshes.NextNumber | RenderEngine/RenderEngine/src/graphics/mesh.cpp:31-43 | One step of the naming loop yields the suffix for texture i and the counters after texture i. |
| Meshes.Draw | RenderEngine/RenderEngine/src/graphics/mesh.cpp:14-68 | The loop-based Draw produces exactly the state of the stated protocol. |
| Meshes.BindSamplers | RenderEngine/RenderEngine/src/graphics/mesh.cpp:26-48 | The first loop writes one sampler uniform per texture in order and binds texture i on unit i, leaving the last unit active. |
| Meshes.ClearSweep | RenderEngine/RenderEngine/src/graphics/mesh.cpp:56-62 | The second loop empties units 0..n-1 and leaves unit n-1 active. |
| Meshes.DrawSeesTextures | RenderEngine/RenderEngine/src/graphics/mesh.cpp:26-51 | Exactly one draw follows the sampler writes; it draws every index with the mesh's array and index buffer bound and texture i on unit i. |
| Meshes.DrawLeavesUnitsClear | RenderEngine/RenderEngine/src/graphics/mesh.cpp:56-66 | After Draw the array and element buffer are unbound, units 0..n-1 are empty, and the active unit is n-1, not restored. |
| Meshes.DrawViews | RenderEngine/RenderEngine/src/graphics/mesh.cpp:45-51 | Draw adds exactly the sampler writes and one draw. |
| Meshes.RedrawSameSamplers | RenderEngine/RenderEngine/src/graphics/mesh.cpp:22-25 | The counters restart on every call, so two draws in a row write the same sampler sequence. |
| Meshes.RankGrows | RenderEngine/RenderEngine/src/graphics/mesh.cpp:35-42 | A later position has a strictly higher count of a type that occurred in between. |
| Meshes.RankBounded | RenderEngine/RenderEngine/src/graphics/mesh.cpp:35-42 | A type's count before position i is at most i. |
| Meshes.KnownName | RenderEngine/RenderEngine/src/graphics/mesh.cpp:33-45 | A known type's name is "material." + type + the decimal counter of that type. |
| Meshes.NamesDistinct | RenderEngine/RenderEngine/src/graphics/mesh.cpp:33-45 | Two textures of known types get different sampler names. |
| Meshes.SameKindDistinct | RenderEngine/RenderEngine/src/graphics/mesh.cpp:35-45 | Two textures of the same known type get different numbers. |
| Meshes.OtherKindDistinct | RenderEngine/RenderEngine/src/graphics/mesh.cpp:33-45 | Textures of different known types get different names. |
| Meshes.UnknownKindUnnumbered | RenderEngine/RenderEngine/src/graphics/mesh.cpp:35-43 | An unknown type gets "material." + type with no number and advances no counter. |
| Meshes.NamesExample | RenderEngine/RenderEngine/src/graphics/mesh.cpp:22-45 | [diffuse, diffuse, specular] are named diffuse1, diffuse2, specular1. |
| Meshes.NewThenDrawInBounds | RenderEngine/RenderEngine/src/graphics/mesh.cpp:51 | A mesh's draw asks for exactly the indices its setup uploaded, so it never over-draws. |
| Windows.NewAsWritten | RenderEngine/RenderEngine/src/graphics/window.cpp:9-18 | As written, the constructor sets the first-mouse flag and start position but leaves the key and button tables as they were. |
| Windows.New | RenderEngine/RenderEngine/src/graphics/window.cpp:9-18 | The corrected constructor starts with every key and button released and otherwise agrees with the original. |
| Windows.ReadAsWritten | RenderEngine/RenderEngine/src/graphics/window.cpp:101-107 | The guarded read reaches past the table if and only if the code equals the table size; larger codes read false. |
| Windows.ReadChecked | RenderEngine/RenderEngine/src/graphics/window.cpp:101-107 | The checked read is true only inside the table, and agrees with the guarded read at every other code. |
| Windows.IsKeyPressedAsWritten | RenderEngine/RenderEngine/src/graphics/window.cpp:101-107 | As written, isKeyPressed reads out of bounds exactly at MAX_KEYS. |
| Windows.IsKeyPressed | RenderEngine/RenderEngine/src/graphics/window.cpp:101-107 | A key counts as pressed if and only if its code is inside the table and its entry is set. |
| Windows.IsMouseButtonPressedAsWritten | RenderEngine/RenderEngine/src/graphics/window.cpp:109-115 | As written, isMouseButtonPressed reads out of bounds exactly at MAX_MOUSE_BUTTONS. |
| Windows.IsMouseButtonPressed | RenderEngine/RenderEngine/src/graphics/window.cpp:109-115 | A button counts as pressed if and only if its code is inside the table and its entry is set. |
| Windows.QueriesAgreeBelowBound | RenderEngine/RenderEngine/src/graphics/window.cpp:101-115 | The guarded and checked queries agree at every code except the table size. |
| Windows.StoreAsWritten | RenderEngine/RenderEngine/src/graphics/window.cpp:170-180 | A table write succeeds if and only if the index is inside the table; it sets that entry to "not released" and no other. |
| Windows.KeyCallbackAsWritten | RenderEngine/RenderEngine/src/graphics/window.cpp:170-174 | As written, key_callback writes outside the table for every key outside 0..MAX_KEYS-1, and otherwise changes only the key table. |
| Windows.KeyCallback | RenderEngine/RenderEngine/src/graphics/window.cpp:170-174 | key_callback sets only the given key to "not released" and agrees with the original wherever that is in bounds. |
| Windows.MouseButtonCallbackAsWritten | RenderEngine/RenderEngine/src/graphics/window.cpp:176-180 | As written, mouse_button_callback writes outside the table for every button outside the table. |
| Windows.MouseButtonCallback | RenderEngine/RenderEngine/src/graphics/window.cpp:176-180 | mouse_button_callback sets only the given button and agrees with the original wherever that is in bounds. |
| Windows.KeyEventThenQuery | RenderEngine/RenderEngine/src/graphics/window.cpp:101-107 | After a key event, that key reads pressed if and only if the action was not a release; other keys read as before. |
| Windows.UnknownKeyWritesOutside | RenderEngine/RenderEngine/src/graphics/window.cpp:170-174 | An unknown key (-1) writes outside the table as written; the checked callback ignores it. |
| Windows.MousePosition | RenderEngine/RenderEngine/src/graphics/window.cpp:182-201 | The cursor callback stores the narrowed position, clears the first-mouse flag for good, and hands the camera exactly one look. |
| Windows.FirstMouseLooksNowhere | RenderEngine/RenderEngine/src/graphics/window.cpp:186-199 | On the first event the offsets are the float rounding error of the position, hence zero when the position is exact. |
| Windows.LaterMouseMeasuresFromLast | RenderEngine/RenderEngine/src/graphics/window.cpp:193-199 | A later event measures from the previous position, with y reversed. |
| Windows.Held | RenderEngine/RenderEngine/src/graphics/window.cpp:152-159 | The held-key scan emits only moves. |
| Windows.ProcessInput | RenderEngine/RenderEngine/src/graphics/window.cpp:146-161 | processInput requests closing if and only if Escape is held or closing was already requested, and appends the movement moves; nothing else changes. |
| Windows.HeldKeys | RenderEngine/RenderEngine/src/graphics/window.cpp:152-159 | A direction is moved if and only if it is scanned and its key is held; at most one move per scanned direction. |
| Windows.HeldAbove | RenderEngine/RenderEngine/src/graphics/window.cpp:152-159 | Moves come only from scanned directions, so a bound on the scan is a bound on the moves. |
| Windows.HeldOrdered | RenderEngine/RenderEngine/src/graphics/window.cpp:152-159 | Moves keep the scan's order. |
| Windows.MovesAreHeldKeys | RenderEngine/RenderEngine/src/graphics/window.cpp:146-161 | processInput moves in a direction if and only if its key is held, in the order forward, backward, left, right, at most four times. |
| Windows.FreshWindowIdle | RenderEngine/RenderEngine/src/graphics/window.cpp:146-161 | A freshly built window neither moves the camera nor closes. |
| Windows.AsWrittenPhantomKey | RenderEngine/RenderEngine/src/graphics/window.cpp:9-18 | As written, leftover memory with W set makes the first frame move forward without any key event. |
| Scene.Faces | RenderEngine/RenderEngine/main.cpp:151-162 | The first n faces of the index loop, six indices each. |
| Scene.CubeIndices | RenderEngine/RenderEngine/main.cpp:151-162 | The cube's index array has 36 entries. |
| Scene.BuildCubeIndices | RenderEngine/RenderEngine/main.cpp:151-162 | The index loop produces exactly the six faces. |
| Scene.FaceSlice | RenderEngine/RenderEngine/main.cpp:155-161 | Entries 6f..6f+5 are 4f + [0,1,2,2,3,0]. |
| Scene.FacesBelow | RenderEngine/RenderEngine/main.cpp:151-162 | Every index of n faces is below 4n. |
| Scene.IndicesInRange | RenderEngine/RenderEngine/main.cpp:151-162 | All 36 indices are below 24, the vertex count of every vertex buffer. |
| Scene.FaceUsesItsCorners | RenderEngine/RenderEngine/main.cpp:155-161 | Each face's two triangles use exactly that face's four vertices. |
| Scene.Attach | RenderEngine/RenderEngine/main.cpp:187-191 | Attaching a new 24-vertex buffer issues the layout calls and leaves array and buffer unbound; as written the array's list is unchanged, corrected the buffer is appended. |
| Scene.AttachFrom | RenderEngine/RenderEngine/main.cpp:187-191 | One fresh buffer per attribute on consecutive slots; the array's list grows by exactly those buffers in the corrected version and not at all as written. |
| Scene.CubeArray | RenderEngine/RenderEngine/main.cpp:186-189 | The cube array gets three new 24-vertex buffers with 3, 3 and 2 components on slots 0, 1 and 2, in increasing name order; as written its list records none of them, corrected it records all three. |
| Scene.LightArray | RenderEngine/RenderEngine/main.cpp:190-191 | The lamp array gets one new 24-vertex, 3-component buffer on slot 0; as written its list records none, corrected it records that buffer. |
| Scene.AttributeUploadsInBounds | RenderEngine/RenderEngine/main.cpp:187-191 | No attribute upload reads past its array. |
| Scene.CubeLayout | RenderEngine/RenderEngine/main.cpp:186-189 | The cube's slots 0, 1, 2 are declared with 3, 3, 2 floats and strides of 12, 12 and 8 bytes, each from its own buffer. |
| Scene.ConfigureSamplers | RenderEngine/RenderEngine/main.cpp:203-206 | material.diffuse is set to unit 0 and material.specular to unit 1 in the lighting program, which is then disabled. |
| Scene.BuildGeometry | RenderEngine/RenderEngine/main.cpp:186-193 | The geometry step creates four vertex buffers with increasing names below the index buffer's; as written neither array lists any of them, corrected the cube lists the first three and the lamp the fourth; the index buffer keeps the given counts and is filled from the 36-entry array; the array, array-buffer and element-buffer bindings end at 0 and every other binding is as before. |
| Scene.Materials | RenderEngine/RenderEngine/main.cpp:198-206 | With either texture constructor, the two textures are distinct, carry their decoded images, and the sampler writes come last. |
| Scene.NewTexture | RenderEngine/RenderEngine/main.cpp:198-199 | Either constructor gives a fresh nonzero texture carrying its decoded image, bound on the active unit, with storage untouched. |
| Scene.Setup | RenderEngine/RenderEngine/main.cpp:186-206 | Setup leaves no program, array or buffer bound; its arrays, vertex buffers and index buffer are those of the geometry step of the same version, so as written the arrays list no vertex buffers. |
| Scene.Repeat | RenderEngine/RenderEngine/main.cpp:300-310 | n copies of one event. |
| Scene.DrawTimes | RenderEngine/RenderEngine/main.cpp:300-310 | A draw loop of n iterations adds n identical draws and changes no binding. |
| Scene.CubeBegin | RenderEngine/RenderEngine/main.cpp:222-227 | The cube pass binds the lighting program, the cube array, the index buffer, and the two maps on units 0 and 1. |
| Scene.CubeEndAsWritten | RenderEngine/RenderEngine/main.cpp:312-316 | As written, the cube pass ends with unit 1 cleared twice and unit 0 still holding the diffuse map. |
| Scene.CubeEnd | RenderEngine/RenderEngine/main.cpp:312-316 | With each map cleared from its own unit, the cube pass ends with both units empty. |
| Scene.LampPass | RenderEngine/RenderEngine/main.cpp:319-336 | The lamp pass draws four times with the lamp program and array and the index buffer, then unbinds all three. |
| Scene.FrameAsWritten | RenderEngine/RenderEngine/main.cpp:222-336 | As written, a frame issues ten container draws and four lamp draws and leaves the diffuse map on unit 0. |
| Scene.Frame | RenderEngine/RenderEngine/main.cpp:222-336 | The corrected frame issues the same draws and leaves units 0 and 1 empty. |
| Scene.SamplersSeeTheirMaps | RenderEngine/RenderEngine/main.cpp:204-205 | At each container draw, the units the samplers name hold the diffuse and specular maps, with the lighting program, cube array and index buffer bound. |
| Scene.FrameKeepsNeutral | RenderEngine/RenderEngine/main.cpp:312-316 | With the correction, a frame leaves a neutral context neutral and every unit as it found it. |
| Scene.AsWrittenUnitZeroLeftover | RenderEngine/RenderEngine/main.cpp:312-313 | As written, unit 0 still holds the diffuse map after the frame, so the context is no longer neutral. |
| Scene.AsWrittenIndexOverRead | RenderEngine/RenderEngine/main.cpp:193 | As written, the index buffer copies 108 indices out of a 36-entry array. |
| Scene.AsWrittenOverDraws | RenderEngine/RenderEngine/main.cpp:309 | As written, each container draw asks for 108 indices where 36 are defined. |
| Scene.SceneOverDraws | RenderEngine/RenderEngine/main.cpp:309 | Any scene whose index buffer was built with 36 primitives of 3 from the 36-entry array asks for 108 indices per container draw where 36 are defined. |
| Scene.UploadWithinIndices | RenderEngine/RenderEngine/main.cpp:193 | Built as 12 triangles of 3, the index upload reads exactly the array. |
| Scene.DrawsWithinIndices | RenderEngine/RenderEngine/main.cpp:309-330 | Built as 12 triangles of 3, every container and lamp draw asks for exactly the 36 defined indices. |
| Scene.SceneDrawsFit | RenderEngine/RenderEngine/main.cpp:309-330 | Any scene whose index buffer holds 12 triangles of 3 from the 36-entry array draws exactly the 36 defined indices, in the cube pass and in the lamp pass. |
| Scene.FilledDefined | RenderEngine/RenderEngine/src/graphics/buffers/indexbuffer.cpp:9 | A buffer's defined bytes are the smaller of its size and its source's size. |
| Scene.Teardown | RenderEngine/RenderEngine/main.cpp:347-351 | The teardown deletes both programs, both arrays with the buffers on their lists, and the index buffer, in source order. |
| Scene.BuffersOnly | RenderEngine/RenderEngine/src/graphics/buffers/vertexarray.cpp:12-13 | A vertex array's buffer deletions never delete a texture. |
| Scene.TexturesOutliveTeardown | RenderEngine/RenderEngine/main.cpp:347-351 | The teardown deletes no texture. |
| Scene.TeardownBufferDeletions | RenderEngine/RenderEngine/main.cpp:347-351 | The teardown deletes a buffer as often as it is on either array's list, plus once for the index buffer, and no other buffer. |
| Scene.UnlistedLeak | RenderEngine/RenderEngine/main.cpp:347-351 | When neither array lists its buffers, the teardown deletes none of the four vertex buffers and the index buffer once. |
| Scene.ListedReleased | RenderEngine/RenderEngine/main.cpp:347-351 | When the cube lists the first three vertex buffers and the lamp the fourth, the teardown deletes each of them, and the index buffer, exactly once. |
| Scene.AsWrittenTeardownLeaks | RenderEngine/RenderEngine/main.cpp:186-191 | As written, the scene's teardown deletes the index buffer but none of the four vertex buffers created for the arrays. |
| Scene.TeardownReleasesVertexBuffers | RenderEngine/RenderEngine/main.cpp:186-191 | With the corrected addVertexBuffer, the scene's teardown deletes each of the four vertex buffers exactly once, and the index buffer once. |

## Left out

- GLFW window and context creation, GLAD loading, buffer swapping, event polling, the framebuffer-size callback, the viewport and the scroll callback: platform I/O with nothing to state beyond the calls themselves.
- The contents of shader files, stb_image decoding and GLSL compile and link semantics: these are parameters (`Files`, `Option<Image>`, `Outcomes`).
- glm vector and matrix math, the values of float uniforms, the lighting constants and the camera: floating point, and the camera's header is not part of this model. Float uniforms are modelled only by their shape (`Shaders.SetFloats`).
- Scene.Frame: leaves out the per-frame uniform writes (view position, lights, matrices) and the model matrix set before each draw; it keeps the binds, draws and unbinds.
- `Window::setTime`: float-only arithmetic.
- The render loop `while (!window.closed())` is modelled as one frame; `Scene.FrameKeepsNeutral` is what carries across iterations.
- The shader constructor keeps the geometry source as a `const char*` into a block-scoped string, which dangles once the block ends; object lifetimes cannot be expressed in this model, which treats the source as a value.
- A vertex array capturing the element-array binding: the model keeps one flat binding record, so unbinding the index buffer while an array is bound is not reflected in that array.
- OpenGL's rule that deleting a bound object unbinds it: deletions are logged but bindings are not touched.
- `Mesh` has no destructor, so its GL objects are never deleted; the model states no pairing for meshes.
- Meshes.NamesDistinct: requires fewer than 2^32 textures, because a 32-bit counter that wraps around would repeat a name.
- Windows.MousePosition: the double-to-float conversion of the cursor position is a parameter (`narrow`), not IEEE rounding.
- `Window::clear` (glClearColor and glClear) and the `glGetError` report in `Window::update`: the frame model does not include clearing or the error query, which change no binding and consume no engine state.
- Meshes.New: requires non-empty vertex and index vectors, because setupMesh takes `&vertices[0]` and `&indices[0]`, which is undefined for an empty vector; the source constructor itself accepts empty vectors.
- Object names come from one shared counter for every kind of object, handed out consecutively; OpenGL only promises fresh names per kind, so the model is stricter than the device here.
- Model loading (assimp) and the `Model` class are not part of this model.

## Findings

| source | as written | input that shows it | evidently intended | confidence | as-written member | corrected member |
|---|---|---|---|---|---|---|
| RenderEngine/RenderEngine/main.cpp:193 | The index buffer is built with 36 primitives of 3 components from a 36-entry array, so the upload copies 108 indices and every draw asks for 108. | The demo scene as written. | 12 triangles of 3 components: 36 indices uploaded and drawn. | high; not executed | Scene.AsWrittenIndexOverRead | Scene.UploadWithinIndices |
| RenderEngine/RenderEngine/main.cpp:309 | Each container and lamp draw uses primitiveCount*componentCount = 108 indices while the buffer holds 36 defined ones. | The demo scene as written. | Draw count 36. | high; not executed | Scene.AsWrittenOverDraws | Scene.DrawsWithinIndices |
| RenderEngine/RenderEngine/main.cpp:312-313 | Both unbind calls clear the active unit, which bind(1) left at 1, so unit 0 keeps the diffuse map after every frame. | Any frame with a nonzero diffuse map. | Each map cleared from its own unit. | high; not executed | Scene.AsWrittenUnitZeroLeftover | Scene.FrameKeepsNeutral |
| RenderEngine/RenderEngine/src/graphics/window.cpp:103 | The guard `keycode > MAX_KEYS` lets keycode 1024 through to a 1024-entry table. | isKeyPressed(1024). | `keycode >= MAX_KEYS`. | high; not executed | Windows.IsKeyPressedAsWritten | Windows.QueriesAgreeBelowBound |
| RenderEngine/RenderEngine/src/graphics/window.cpp:111 | The guard `mousebuttoncode > MAX_MOUSE_BUTTONS` lets code 32 through to a 32-entry table. | isMouseButtonPressed(32). | `mousebuttoncode >= MAX_MOUSE_BUTTONS`. | high; not executed | Windows.IsMouseButtonPressedAsWritten | Windows.IsMouseButtonPressed |
| RenderEngine/RenderEngine/src/graphics/window.cpp:173 | key_callback indexes the key table with the raw key code; GLFW reports unknown keys as -1. | key_callback with key -1. | Ignore keys outside the table. | medium; not executed | Windows.UnknownKeyWritesOutside | Windows.KeyCallback |
| RenderEngine/RenderEngine/src/graphics/window.cpp:9-18 | The constructor never clears the key and button tables; the demo's window is a local, so they start indeterminate. | A table whose W entry happens to be set. | All keys and buttons released at start. | medium; not executed | Windows.AsWrittenPhantomKey | Windows.FreshWindowIdle |
| RenderEngine/RenderEngine/src/graphics/texture.cpp:24-32 | The format is assigned only for 1, 3 and 4 channels and used unassigned otherwise. | A decoded grey-plus-alpha image (2 channels). | Report the unsupported channel count and skip the upload. | high; not executed | Textures.AsWrittenIndeterminate | Textures.NeverIndeterminate |
| RenderEngine/RenderEngine/src/graphics/buffers/vertexarray.cpp:18-27 | addVertexBuffer never records the buffer, so the destructor's delete loop finds nothing and attached buffers leak. | A new array, one attached buffer, then destroy. | Record the buffer so the destructor deletes it. | high; not executed | VertexArrays.AsWrittenLeaksAttached | VertexArrays.DestroyReleasesAttached |
| RenderEngine/RenderEngine/main.cpp:186-191 | The demo attaches four vertex buffers that no array records, so deleting the arrays at the end releases none of them. | The demo scene as written. | Each array deletes the buffers attached to it. | high; not executed | Scene.AsWrittenTeardownLeaks | Scene.TeardownReleasesVertexBuffers |
