# Engine core in Dafny

This project models the sequential core of a small C++ game engine: the
description of vertex data (shader data types and buffer layouts), the
texture-unit ring buffer, render commands and the choice of graphics API,
vertex-array attribute assignment, the 2D and 3D renderers' data paths, and
the event system (events, the event handler's callback table, layers and the
layer stack).

Everything the engine does to the GPU, to FreeType or to the log is recorded
as an entry in a trace. The trace is a sequence of `Gpu.Call` values held by a
`GpuContext.Context` object, or by the layer stack for layer hooks. So "binds
the texture, then draws four indices" becomes a postcondition on the trace.

| file | module | what it models |
|---|---|---|
| ints.dfy | Ints | `uint8_t`, `uint32_t`, `int32_t`, and wrap-around modulo 2^32 |
| wrappers.dfy | Wrappers | an `Option` for null pointers and absent values |
| gpu_trace.dfy | Gpu, GpuContext | the trace entries and the object that collects them |
| shader_data_type.dfy | ShaderDataTypes | `ShaderDataType`, `SDT::size`, `SDT::componentCount` |
| buffer_layout.dfy | BufferLayouts | `BufferElement`, `BufferLayout`, `addElement`, `calcStrideAndOffset` |
| texture_unit_manager.dfy | TextureUnits | `TextureUnitManager` |
| vertex_array.dfy | VertexArrays | `SDT::toGLType`, `OpenGLVertexArray` |
| render_api.dfy | RenderApi | the resource factories and their API switch |
| render_commands.dfy | RenderCommands | `RenderCommand`, `RenderCommandFactory`, `getValue`, `actionCommand` |
| renderer2d.dfy | Render2D | `Renderer2D`, `Quad`, `Renderer2DVertex::pack`, `RtoRGBA`, text layout |
| renderer3d.dfy | Render3D | `Material`, `Renderer3D` |
| events.dfy | Events | event types, categories, key and window events, the handled flag |
| event_handler.dfy | EventHandlers | the twelve-slot callback table |
| layers.dfy | Layers | `Layer`, `LayerStack` |

Source paths below are relative to the engine repository.

## Model

| member | source | states |
|---|---|---|
| ShaderDataTypes.Size | engine/enginecode/include/independent/rendering/shaderDataType.h:25-42 | the size is the component count times the component width (1 byte, 2 short, 4 float); it is positive exactly for the listed types other than None, and at most 16 |
| ShaderDataTypes.ComponentCount | engine/enginecode/include/independent/rendering/shaderDataType.h:44-61 | the count is N for FloatN, ShortN and Byte4 (Short and Float count as 1), between 1 and 4; None and unlisted types give 0 |
| BufferLayouts.MakeElement | engine/enginecode/include/independent/rendering/bufferLayout.h:25-30 | a new element keeps its type and normalised flag (false when omitted), has size `SDT::size(type)` and offset 0 |
| BufferLayouts.Recompute | engine/enginecode/src/independent/rendering/bufferLayout.cpp:12-22 | recomputing keeps every element's type, size and normalised flag; a zero stride becomes the sum of the sizes (mod 2^32), a non-zero stride is kept even when smaller than that sum |
| BufferLayouts.SumSizesOnlyReadsSizes | engine/enginecode/src/independent/rendering/bufferLayout.cpp:15-19 | the running sum depends on the element sizes alone, so rewriting offsets never changes it |
| BufferLayouts.RecomputeRunningSum | engine/enginecode/src/independent/rendering/bufferLayout.cpp:14-19 | after a recompute, element 0 has offset 0 and offset[i+1] = offset[i] + size[i], mod 2^32 |
| BufferLayouts.RecomputeOffsetIsExactSum | engine/enginecode/src/independent/rendering/bufferLayout.cpp:14-19 | when the sizes sum below 2^32, each offset is exactly the sum of the sizes before it |
| BufferLayouts.RecomputeIdempotent | engine/enginecode/src/independent/rendering/bufferLayout.cpp:12-22 | recomputing twice is the same as recomputing once, offsets and stride alike |
| BufferLayouts.AppendElement | engine/enginecode/src/independent/rendering/bufferLayout.cpp:6-10 | adding appends the element at the end, with offset the sum of the earlier sizes; earlier elements keep their descriptions and order; the length grows by one; a non-zero stride is kept |
| BufferLayouts.AddElementLeavesStrideStale | engine/enginecode/src/independent/rendering/bufferLayout.cpp:6-22 | as written: on a layout whose non-zero stride is its full size, adding a non-empty element leaves the stride smaller than the new full size |
| BufferLayouts.AddElementStaleExample | engine/enginecode/src/independent/rendering/bufferLayout.cpp:6-22 | as written: a {Float3} layout has stride 12; after adding a Float2 its stride is still 12, while the element sizes now sum to 20 |
| BufferLayouts.AppendElementIntended | engine/enginecode/src/independent/rendering/bufferLayout.cpp:6-22 | corrected: adding an element to a layout whose stride was computed rather than given brings the stride up to the new sum of sizes; a stride given explicitly is kept |
| BufferLayouts.RunningOffsets | engine/enginecode/src/independent/rendering/bufferLayout.cpp:14-19 | the offset loop gives each element the uint32_t running sum of the sizes before it, exactly as `Recompute` does, and ends with the wrapped total |
| BufferLayouts.BufferLayout.constructor | engine/enginecode/include/independent/rendering/bufferLayout.h:48 | the layout keeps the elements in the order given, stores the given stride (0 when omitted) and then recomputes offsets and stride; a non-zero stride counts as given |
| BufferLayouts.BufferLayout.AddElement | engine/enginecode/src/independent/rendering/bufferLayout.cpp:6-10 | the element is appended and the layout recomputed, with the defect of the first finding corrected: a stride that was computed rather than given grows to cover the new element, as `AppendElementIntended` describes; whether the stride was given is kept |
| BufferLayouts.BufferLayout.CalcStrideAndOffset | engine/enginecode/src/independent/rendering/bufferLayout.cpp:12-22 | the loop rewrites the layout in place into `Recompute` of the old layout |
| BufferLayouts.BufferLayout.GetStride | engine/enginecode/include/independent/rendering/bufferLayout.h:49 | `getStride` reads the stored stride, the one the constructor and `AddElement` establish |
| BufferLayouts.BufferLayout.Elements | engine/enginecode/include/independent/rendering/bufferLayout.h:51-54 | `begin` to `end` visits the stored elements in their stored order |
| TextureUnits.TextureUnitManager.constructor | engine/enginecode/include/independent/rendering/textureUnitManager.h:22 | exactly `capacity` slots, all holding the empty sentinel 0xFFFFFFFF; not full; head = tail = 0 |
| TextureUnits.TextureUnitManager.Full | engine/enginecode/include/independent/rendering/textureUnitManager.h:23 | `full()` reads the full flag, false after construction and after `clear` |
| TextureUnits.TextureUnitManager.GetUnit | engine/enginecode/include/independent/rendering/textureUnitManager.h:25 | the returned unit is a valid slot that now holds the texture; the texture needs binding iff it was not resident before; when no bind is needed, the unit already held the texture and the manager is unchanged; every other slot is unchanged |
| TextureUnits.TextureUnitManager.Clear | engine/enginecode/include/independent/rendering/textureUnitManager.h:24 | the manager returns to its freshly constructed state with the same capacity |
| VertexArrays.ToGLType | engine/enginecode/src/platform/OpenGL/OpenGLVertexArray.cpp:11-21 | GL_FLOAT exactly for Float to Float4; every other type, including Byte4 and the Short types, maps to GL_INVALID_ENUM |
| VertexArrays.AttributeCallsAt | engine/enginecode/src/platform/OpenGL/OpenGLVertexArray.cpp:42-60 | element k of the layout is given attribute index first+k (mod 2^32), enabled and then configured with its component count, GL type, normalised flag, the layout stride and its own offset |
| VertexArrays.OpenGLVertexArray.constructor | engine/enginecode/src/platform/OpenGL/OpenGLVertexArray.cpp:25-29 | a new array is created and bound; it has no buffers, no index buffer and attribute index 0 |
| VertexArrays.OpenGLVertexArray.GetRenderID | engine/enginecode/include/platform/OpenGL/OpenGLVertexArray.h:31 | `getRenderID` reads the id the array was created with, which no operation changes |
| VertexArrays.OpenGLVertexArray.GetDrawCount | engine/enginecode/include/platform/OpenGL/OpenGLVertexArray.h:32 | the draw count is the index buffer's count when one is set and 0 otherwise |
| VertexArrays.OpenGLVertexArray.AddVertexBuffer | engine/enginecode/src/platform/OpenGL/OpenGLVertexArray.cpp:36-64 | binds the array and the buffer, then configures one attribute per layout element in layout order; the attribute index grows by the number of elements; the list of vertex buffers is not appended to |
| VertexArrays.OpenGLVertexArray.SetIndexBuffer | engine/enginecode/src/platform/OpenGL/OpenGLVertexArray.cpp:66-69 | replaces the single index buffer with the given one, which may be null, so that the draw count is then 0; leaves the attribute index and the vertex buffers unchanged |
| RenderApi.NotSupported | engine/enginecode/src/independent/rendering/renderAPI.cpp:20-45 | a factory logs nothing under OpenGL and exactly one error under any other API |
| RenderApi.CreateIndexBuffer | engine/enginecode/src/independent/rendering/renderAPI.cpp:20-45 | an index buffer is built iff the API is OpenGL, with the given count and id; otherwise an error is logged and null is returned |
| RenderApi.CreateVertexBuffer | engine/enginecode/src/independent/rendering/renderAPI.cpp:47-72 | a vertex buffer is built iff the API is OpenGL, with the given size and layout; otherwise an error is logged and null is returned |
| RenderApi.FactoryBuildsOrLogs | engine/enginecode/src/independent/rendering/renderAPI.cpp:20-72 | each factory either builds its resource or logs one error, never both and never neither |
| RenderApi.CreateVertexArray | engine/enginecode/src/independent/rendering/renderAPI.cpp:74-99 | a fresh, empty vertex array is created iff the API is OpenGL; otherwise the result is null and one error is logged |
| RenderApi.DrawCountFollowsIndexBuffer | engine/enginecode/include/platform/OpenGL/OpenGLVertexArray.h:32 | a new vertex array draws 0 indices; after an index buffer of count n is set, it draws n; after the index buffer is set to null, it draws 0 again |
| RenderCommands.AsU32 | engine/enginecode/include/independent/rendering/renderCommands.h:38-50 | an unsigned argument is read unchanged; a float argument in range is truncated to the integer below it |
| RenderCommands.GetValue | engine/enginecode/include/independent/rendering/renderCommands.h:38-50 | an index inside the tuple yields that argument; an index past its end leaves the output as it was |
| RenderCommands.ClearColourAndDepthBufferAction | engine/enginecode/src/independent/rendering/renderCommands.cpp:10-25 | under OpenGL the action clears the colour and depth bits; under every other API it is empty |
| RenderCommands.CommandAction | engine/enginecode/include/independent/rendering/renderCommands.h:71-149 | every kind yields an action of one captured call, except that clearing colour and depth under a non-OpenGL API yields the empty action |
| RenderCommands.SetClearColourCapturesArgs | engine/enginecode/include/independent/rendering/renderCommands.h:119-131 | setClearColour reads arguments 0 to 3 as r, g, b, a in that order |
| RenderCommands.UseProgramCapturesArg | engine/enginecode/include/independent/rendering/renderCommands.h:134-143 | useProgram reads argument 0 as the shader id |
| RenderCommands.ExtraArgsIgnored | engine/enginecode/include/independent/rendering/renderCommands.h:38-50 | once a kind has all the arguments it reads, further arguments and uninitialised locals make no difference |
| RenderCommands.EachKindRunsItsNamedCall | engine/enginecode/include/independent/rendering/renderCommands.h:76-149 | each kind builds the closure of its own getter whatever the arguments: clear depth, clear colour, clear both (under OpenGL), enable depth test, enable blend, default blend function, disable depth test, disable blend, set clear colour, use program |
| RenderCommands.DistinctKindsDistinctActions | engine/enginecode/include/independent/rendering/renderCommands.h:76-149 | under OpenGL, two different kinds never build the same action |
| RenderCommands.CreateCommand | engine/enginecode/include/independent/rendering/renderCommands.h:71-149 | every kind gets a freshly allocated command holding the action of that kind and arguments |
| RenderCommands.ActionCommand | engine/enginecode/include/independent/rendering/rendererCommon.h:26 | running a command performs its captured calls; an empty action performs nothing and reports failure |
| RenderCommands.TwoClearColourCommands | engine/enginecode/include/independent/rendering/renderCommands.h:119-131 | two setClearColour commands capture their arguments by value, so each sets its own colour |
| Render2D.CreateCentreHalfExtents | engine/enginecode/src/independent/rendering/renderer2D.cpp:261-269 | the factory gives translate (centre, 0) and scale (2·halfExtents, 1) |
| Render2D.CentreHalfExtentsCorners | engine/enginecode/src/independent/rendering/renderer2D.cpp:261-269 | the quad's corners, in vertex order, are centre ± halfExtents: bottom-left, top-left, top-right, bottom-right |
| Render2D.Pack | engine/enginecode/src/independent/rendering/renderer2D.cpp:271-280 | r sits in bits 0-7, g in 8-15, b in 16-23 and a in 24-31, so shifting and masking recovers each channel |
| Render2D.PackInjective | engine/enginecode/src/independent/rendering/renderer2D.cpp:271-280 | two tints pack to the same word iff they are equal |
| Render2D.QuadVerticesFollowCorners | engine/enginecode/src/independent/rendering/renderer2D.cpp:134-144 | all four vertices carry the same packed tint; vertices 0 to 3 get UVs start, (start.x, end.y), end and (end.x, start.y) |
| Render2D.GlyphPixel | engine/enginecode/src/independent/rendering/renderer2D.cpp:186-205 | for i < height and j < width, the glyph buffer holds (255, 255, 255, src[i·width+j]) at byte 4·(i·256 + j) |
| Render2D.GlyphOutsideBlank | engine/enginecode/src/independent/rendering/renderer2D.cpp:186-205 | every byte outside the width×height region of the glyph buffer is 0 |
| Render2D.RowTailBlank | engine/enginecode/src/independent/rendering/renderer2D.cpp:203 | the bytes a row skips past the glyph's width stay 0 |
| Render2D.GlyphAdvance | engine/enginecode/src/independent/rendering/renderer2D.cpp:220 | the advance is a whole number of pixels: the glyph's advance in 1/64 pixel rounded down |
| Render2D.GlyphImage | engine/enginecode/src/independent/rendering/renderer2D.cpp:186-205 | the glyph buffer a glyph's bitmap expands to: 256×256×4 bytes, byte k as `GlyphByte` gives it |
| Render2D.GlyphQuad | engine/enginecode/src/independent/rendering/renderer2D.cpp:217-225 | a glyph's quad has its first corner at the pen moved by the glyph's bearing (left, −top) and its opposite corner 256 further in x and y |
| Render2D.CharCallsDraws | engine/enginecode/src/independent/rendering/renderer2D.cpp:207-240 | one character draws exactly one quad of four indices, in four calls, when its glyph loads, and logs one error with no draw otherwise |
| Render2D.TextDrawsLoadedGlyphs | engine/enginecode/src/independent/rendering/renderer2D.cpp:242-253 | a text draws one four-index quad per character whose glyph loads and none for the others; its calls number four per loaded character plus one per missing one |
| Render2D.Strlen | engine/enginecode/src/independent/rendering/renderer2D.cpp:244 | the length counts the characters before the first NUL, or the whole text when there is none |
| Render2D.PenStateAllLoaded | engine/enginecode/src/independent/rendering/renderer2D.cpp:242-253 | when every glyph loads, the pen ends at the start x plus the sum of the advances |
| Render2D.PenPositionsAllLoaded | engine/enginecode/src/independent/rendering/renderer2D.cpp:242-253 | character k is drawn at the fixed y and, when every glyph loads, at the start x plus the advances of the characters before it |
| Render2D.QuadGeometry | engine/enginecode/src/independent/rendering/renderer2D.cpp:48-57 | init builds a vertex array holding the vertex buffer's attributes and an index buffer of count 4 |
| Render2D.FreeTypeLog | engine/enginecode/src/independent/rendering/renderer2D.cpp:71-78 | init logs one error per failed FreeType step, and only errors: initialisation first, the font size last |
| Render2D.InitialVertices | engine/enginecode/src/independent/rendering/renderer2D.cpp:39-47 | the four vertices start at the unit quad's corners with UV (0, 0) and a white tint |
| Render2D.NewGlyphBuffer | engine/enginecode/src/independent/rendering/renderer2D.cpp:65-84 | the glyph buffer is 256×256×4 bytes, every one of them 60 |
| Render2D.Renderer2D.constructor | engine/enginecode/src/independent/rendering/renderer2D.cpp:17-90 | init makes a 1×1 white default texture and a zero-size sub-texture of it, tint (1, 1, 1, 1), the identity model, the unit quad with four indices in the given vertex buffer, logs each FreeType failure, and sends the 60-filled glyph buffer to a new font texture, in that order |
| Render2D.Renderer2D.Submit | engine/enginecode/src/independent/rendering/renderer2D.cpp:128-149 | binds the sub-texture's base texture, sets the model to translate·scale, rewrites all four vertices, sends them to the vertex buffer `init` created and draws the four indices |
| Render2D.Renderer2D.SubmitRotated | engine/enginecode/src/independent/rendering/renderer2D.cpp:161-184 | as the main submit, with translate·rotate(angle about z)·scale; the degrees flag changes nothing |
| Render2D.Renderer2D.SubmitTinted | engine/enginecode/src/independent/rendering/renderer2D.cpp:118-121 | the tint-only overload draws with the zero-size default sub-texture |
| Render2D.Renderer2D.SubmitTextured | engine/enginecode/src/independent/rendering/renderer2D.cpp:123-126 | the texture-only overload draws with the tint (1, 1, 1, 1) |
| Render2D.Renderer2D.SubmitTintedRotated | engine/enginecode/src/independent/rendering/renderer2D.cpp:151-154 | the rotated tint-only overload draws with the default sub-texture |
| Render2D.Renderer2D.SubmitTexturedRotated | engine/enginecode/src/independent/rendering/renderer2D.cpp:156-159 | the rotated texture-only overload draws with the tint (1, 1, 1, 1) |
| Render2D.Renderer2D.FillQuad | engine/enginecode/src/independent/rendering/renderer2D.cpp:134-148 | the vertex loop and UV assignment give exactly `QuadVertices` of the model, tint and sub-texture, which are sent to the vertex buffer `init` created |
| Render2D.Renderer2D.RtoRGBA | engine/enginecode/src/independent/rendering/renderer2D.cpp:186-205 | after the call every glyph-buffer byte is the expansion of the single-channel bitmap, for a bitmap no wider and no taller than the buffer |
| Render2D.ExpandRow | engine/enginecode/src/independent/rendering/renderer2D.cpp:194-203 | one row of the bitmap is written at the walker, and the walker ends at the row's tail, which the skip then passes |
| Render2D.Renderer2D.SubmitChar | engine/enginecode/src/independent/rendering/renderer2D.cpp:207-240 | a glyph that fails to load logs an error and changes nothing else, keeping the advance; otherwise the advance becomes the glyph's, the bitmap is expanded and sent, and a 256×256 quad is drawn at the pen moved by the bearing; the calls are exactly `CharCalls` of the character at that pen |
| Render2D.Renderer2D.SubmitText | engine/enginecode/src/independent/rendering/renderer2D.cpp:242-253 | the characters before the first NUL are drawn left to right at the pen positions of `PenPositions`, the calls being each character's `CharCalls` at its pen position, in order (`TextCalls`) |
| Render3D.FlagsDistinct | engine/enginecode/include/independent/rendering/renderer3D.h:58-59 | flag_texture = 1 and flag_tint = 2 are distinct bits, and no flag is set in 0 |
| Render3D.SetOneFlag | engine/enginecode/include/independent/rendering/renderer3D.h:27 | setting one flag sets it and leaves the other as it was |
| Render3D.Material.WithShader | engine/enginecode/include/independent/rendering/renderer3D.h:31-33 | a shader-only material has no flags set and no texture |
| Render3D.Material.WithTexture | engine/enginecode/include/independent/rendering/renderer3D.h:35-38 | shader plus texture sets only flag_texture, with tint zero |
| Render3D.Material.WithTint | engine/enginecode/include/independent/rendering/renderer3D.h:40-43 | shader plus tint sets only flag_tint, with no texture |
| Render3D.Material.constructor | engine/enginecode/include/independent/rendering/renderer3D.h:45-48 | the full constructor sets both flags |
| Render3D.Material.SetFlag | engine/enginecode/include/independent/rendering/renderer3D.h:27 | setFlag (used by the constructors only) only ORs bits in: every flag set before stays set; texture and tint are unchanged |
| Render3D.Material.IsFlagSet | engine/enginecode/include/independent/rendering/renderer3D.h:53 | a flag is set iff the material's flags share a bit with it; the zero flag is never set |
| Render3D.Material.SetTexture | engine/enginecode/include/independent/rendering/renderer3D.h:55 | replaces the texture and nothing else |
| Render3D.Material.SetTint | engine/enginecode/include/independent/rendering/renderer3D.h:56 | replaces the tint and nothing else |
| Render3D.UploadFor | engine/enginecode/src/independent/rendering/renderer3D.cpp:36-60 | an entry is uploaded iff its type is Int, Float3, Float4 or Mat4; the upload goes to the material's shader under the entry's name, through the upload function of that type, with the value stored at the entry's address read as that type |
| Render3D.UniformUploadsMatchEntries | engine/enginecode/src/independent/rendering/renderer3D.cpp:36-60 | the scene uniforms cause one upload per entry of type Int, Float3, Float4 or Mat4, each to the material's shader under the entry's name, as the kind of value that type selects and holding what memory stores at the entry's address; other types are skipped |
| Render3D.UniformUploadsAppend | engine/enginecode/src/independent/rendering/renderer3D.cpp:36-60 | the entries are uploaded in the map's iteration order: the uploads of two runs of entries follow one another |
| Render3D.UploadCount | engine/enginecode/src/independent/rendering/renderer3D.cpp:36-60 | the number of uploads is the number of entries of an uploadable type |
| Render3D.UniformUploadsOnlyUpload | engine/enginecode/src/independent/rendering/renderer3D.cpp:36-60 | the uniform loop only uploads, to the material's shader |
| Render3D.SubmitDrawsOnce | engine/enginecode/src/independent/rendering/renderer3D.cpp:23-79 | a submit issues exactly one draw, as its last call, with the geometry's draw count, and begins by using the program |
| Render3D.NamedCommand | engine/enginecode/src/independent/rendering/renderer3D.cpp:26-30 | each command kind outside the command enumeration is a fresh command capturing one call |
| Render3D.Renderer3D.constructor | engine/enginecode/src/independent/rendering/renderer3D.cpp:10-16 | init creates a 1×1 all-255 default texture, a default tint (1, 1, 1, 1) and no scene uniforms |
| Render3D.Renderer3D.Begin | engine/enginecode/src/independent/rendering/renderer3D.cpp:18-21 | begin replaces the stored scene uniforms with its argument |
| Render3D.Renderer3D.End | engine/enginecode/src/independent/rendering/renderer3D.cpp:81-84 | end empties the scene uniforms |
| Render3D.Renderer3D.DrawFor | engine/enginecode/src/independent/rendering/renderer3D.cpp:65-72 | the bound texture is the material's when flag_texture is set, else the default; the tint is the material's when flag_tint is set, else the default; the count is the geometry's draw count |
| Render3D.Renderer3D.Submit | engine/enginecode/src/independent/rendering/renderer3D.cpp:23-79 | submit issues, in order, use program, the scene uniforms (read from memory as it stands at the call), u_model, bind texture, u_texData = 0, u_tint, bind vertex array, bind index buffer, draw; the uniforms are left unchanged |
| Render3D.IssueDraw | engine/enginecode/src/independent/rendering/renderer3D.cpp:26-78 | the commands are built first and then run around the uploads, giving the trace `SubmitCalls` |
| Render3D.IssuePerDraw | engine/enginecode/src/independent/rendering/renderer3D.cpp:63-78 | after the scene uniforms: u_model, bind texture, u_texData, u_tint, bind vertex array, bind index buffer, draw |
| Render3D.UploadSceneUniforms | engine/enginecode/src/independent/rendering/renderer3D.cpp:36-60 | the loop over the uniform map switches on each entry's type and issues exactly `UniformUploads` of its entries and the memory |
| Events.CategoriesAreDistinctBits | engine/enginecode/include/independent/events/event.h:27-35 | the category values 1, 2, 4, 8 and 16 are single bits, no two of which overlap |
| Events.StaticType | engine/enginecode/include/independent/events/windowEvents.h:27-95 | every class's static type is one of its own, never None and never a mouse type; a key type (keyboardEvents.h:52-87) exactly for the key classes |
| Events.CategoryFlags | engine/enginecode/include/independent/events/keyboardEvents.h:29 | the category word of each class; what membership it gives is stated by `CategoryMembership` |
| Events.CategoryMembership | engine/enginecode/include/independent/events/event.h:53 | key events are in Keyboard and Input and in no other category; window events are in Window only; nothing is in None |
| Events.EventTypeAsWritten | engine/enginecode/include/independent/events/windowEvents.h:62-96 | as written: the focus, lost-focus and move events answer WindowResize |
| Events.EventTypeAsWrittenConfusesClasses | engine/enginecode/include/independent/events/windowEvents.h:62-96 | as written: the type agrees with the static type exactly for close, resize and key events, so a focus event and a resize event report the same type |
| Events.IntendedEventType | engine/enginecode/include/independent/events/windowEvents.h:27-99 | corrected: every class answers its own static type, never None, and a key type exactly for key events |
| Events.EventTypeIdentifiesClass | engine/enginecode/include/independent/events/windowEvents.h:27-99 | corrected: two events report the same type iff they are of the same class |
| Events.KeyCode | engine/enginecode/include/independent/events/keyboardEvents.h:23-28 | `getKeyCode` returns the keycode the event was built with |
| Events.RepeatCount | engine/enginecode/include/independent/events/keyboardEvents.h:46-51 | `getRepeatCount` returns the repeat count the key press was built with |
| Events.Size | engine/enginecode/include/independent/events/windowEvents.h:43-52 | `getSize` returns the (width, height) the resize event was built with |
| Events.Pos | engine/enginecode/include/independent/events/windowEvents.h:90-99 | `getPos` returns the (x, y) the move event was built with |
| Events.Event.constructor | engine/enginecode/include/independent/events/event.h:46 | a new event is not handled |
| Events.Event.IsHandled | engine/enginecode/include/independent/events/event.h:51 | reads the handled flag, false on a new event and b after `handle(b)` (see `Handle`) |
| Events.Event.Handle | engine/enginecode/include/independent/events/event.h:52 | after `handle(b)`, `isHandled()` returns b |
| Events.Event.GetCategoryFlags | engine/enginecode/include/independent/events/event.h:50 | the flags are those of the event's class, so the event is in exactly the categories `CategoryMembership` gives |
| Events.Event.IsInCategory | engine/enginecode/include/independent/events/event.h:53 | `isInCategory(c)` holds iff the category flags and c share a bit |
| Events.Event.GetEventType | engine/enginecode/include/independent/events/event.h:49 | the type of the event is its class's static type (the corrected form) |
| Events.ResizeScenario | engineTests/eventTests.cpp:3-25 | a resize event built from (800, 600) reports that size, the Window category, WindowResize as both types, and is not handled |
| EventHandlers.SlotFor | engine/enginecode/include/independent/events/eventHandler.h:13-26 | each event class has its own callback slot; key events go to the three key slots |
| EventHandlers.DefaultIgnoresEvent | engine/enginecode/include/independent/events/eventHandler.h:28-41 | a default callback returns false and leaves the event as it was |
| EventHandlers.HandlingHandlerReportsHandled | engineTests/eventHandlerTests.h:9-13 | a callback that handles the event leaves it handled and, returning the flag, returns true |
| EventHandlers.Invoke | engine/enginecode/include/independent/events/eventHandler.h:28-41 | calling a callback changes only the event's handled flag, as `HandledAfter` says, and returns `ResultOf` |
| EventHandlers.EventHandler.constructor | engine/enginecode/include/independent/events/eventHandler.h:13-41 | all twelve callbacks start as their defaults |
| EventHandlers.EventHandler.GetCallback | engine/enginecode/include/independent/events/eventHandler.h:59-72 | each getter returns the callback currently installed in its slot: the default after construction, the last one given to its setter afterwards (see `SetCallback`) |
| EventHandlers.EventHandler.SetCallback | engine/enginecode/include/independent/events/eventHandler.h:44-57 | each setter replaces its own callback; the other eleven are unchanged |
| EventHandlers.OnCloseScenario | engineTests/eventHandlerTests.cpp:5-26 | a close event is unhandled before, still unhandled after the default callback, and handled after the installed handler runs |
| Layers.Layer.constructor | engine/enginecode/include/independent/core/layer.h:11-17 | a new layer keeps its name and is displayed, active and focused |
| Layers.Layer.GetName | engine/enginecode/include/independent/core/layer.h:24 | the name the layer was built with, which no setter changes |
| Layers.Layer.IsDisplayed | engine/enginecode/include/independent/core/layer.h:28 | the displayed flag, true when built and then the value of the last `setDisplayed` |
| Layers.Layer.IsActive | engine/enginecode/include/independent/core/layer.h:29 | the active flag, true when built and then the value of the last `setActive` |
| Layers.Layer.IsFocused | engine/enginecode/include/independent/core/layer.h:30 | the focused flag, true when built and then the value of the last `setFocused` |
| Layers.Layer.SetDisplayed | engine/enginecode/include/independent/core/layer.h:25 | sets the displayed flag and no other |
| Layers.Layer.SetActive | engine/enginecode/include/independent/core/layer.h:26 | sets the active flag and no other |
| Layers.Layer.SetFocused | engine/enginecode/include/independent/core/layer.h:27 | sets the focused flag and no other |
| Layers.SetFlag | engine/enginecode/include/independent/core/layer.h:25-27 | the three setters as one: the named flag takes the value, the other two are unchanged |
| Layers.Updates | engine/enginecode/src/independent/core/layerStack.cpp:25-28 | update calls each layer's update hook once, bottom to top |
| Layers.Renders | engine/enginecode/src/independent/core/layerStack.cpp:30-33 | render calls each layer's render hook once, bottom to top |
| Layers.Detaches | engine/enginecode/src/independent/core/layerStack.cpp:7-10 | the destructor detaches the layers top first |
| Layers.DetachesFollowReverseOrder | engine/enginecode/src/independent/core/layerStack.cpp:7-10 | the detach order is exactly the reverse of the push order |
| Layers.HandledAfterIff | engine/enginecode/src/independent/core/layerStack.cpp:35-58 | after dispatch the event is handled iff it started handled or some focused layer that received it handled it |
| Layers.ReceivesIff | engine/enginecode/src/independent/core/layerStack.cpp:35-58 | a layer receives the event iff it is focused and no earlier layer handled it |
| Layers.FirstHandlerStopsDispatch | engine/enginecode/src/independent/core/layerStack.cpp:35-58 | once a layer handles the event, no layer above it receives it |
| Layers.HandledEventReachesNoLayer | engine/enginecode/src/independent/core/layerStack.cpp:35-58 | an event that is already handled reaches no layer and stays handled |
| Layers.LayerStack.constructor | engine/enginecode/include/independent/core/layerStack.h:13 | a new stack is empty |
| Layers.LayerStack.Layers | engine/enginecode/include/independent/core/layerStack.h:36-37 | forward iteration runs bottom to top in push order, the order `Push` builds and `Updates` and `Renders` follow |
| Layers.LayerStack.ReverseLayers | engine/enginecode/include/independent/core/layerStack.h:38-39 | reverse iteration runs top to bottom |
| Layers.LayerStack.Push | engine/enginecode/src/independent/core/layerStack.cpp:12-17 | push attaches the layer, then places it on top; older layers are unchanged |
| Layers.LayerStack.Pop | engine/enginecode/src/independent/core/layerStack.cpp:19-23 | pop detaches the top layer, then removes it; the stack must not be empty |
| Layers.LayerStack.PopAll | engine/enginecode/src/independent/core/layerStack.cpp:7-10 | the destructor's loop leaves the stack empty, having detached every layer top first |
| Layers.LayerStack.UpdateAll | engine/enginecode/src/independent/core/layerStack.cpp:25-28 | the stack is unchanged and each layer is updated once, bottom to top |
| Layers.LayerStack.RenderAll | engine/enginecode/src/independent/core/layerStack.cpp:30-33 | the stack is unchanged and each layer is rendered once, bottom to top |
| Layers.LayerStack.Offer | engine/enginecode/src/independent/core/layerStack.cpp:37 | one layer receives the event iff it is focused and the event is unhandled |
| Layers.LayerStack.Dispatch | engine/enginecode/src/independent/core/layerStack.cpp:35-58 | the event visits the layers bottom to top; exactly the layers of `Receives` get the hook, and the final flag is `HandledAfter` |
| Layers.LayerStack.KeyPressed | engine/enginecode/src/independent/core/layerStack.cpp:35-38 | key presses are dispatched as `Dispatch` describes |
| Layers.LayerStack.KeyReleased | engine/enginecode/src/independent/core/layerStack.cpp:40-43 | key releases are dispatched as `Dispatch` describes |
| Layers.LayerStack.SetWhere | engine/enginecode/src/independent/core/layerStack.cpp:60-89 | a flag is set on exactly the selected layers; other flags and other layers are unchanged |
| Layers.LayerStack.SetActive | engine/enginecode/src/independent/core/layerStack.cpp:60-63 | sets active on every layer whose name is the given name (identity, not text) and on no other |
| Layers.LayerStack.SetDisplayed | engine/enginecode/src/independent/core/layerStack.cpp:65-68 | sets displayed on every layer with the given name and on no other |
| Layers.LayerStack.SetFocused | engine/enginecode/src/independent/core/layerStack.cpp:70-73 | sets focused on every layer with the given name and on no other |
| Layers.LayerStack.SetAllActive | engine/enginecode/src/independent/core/layerStack.cpp:75-79 | every layer becomes active; the other flags are unchanged |
| Layers.LayerStack.SetAllDisplayed | engine/enginecode/src/independent/core/layerStack.cpp:81-84 | every layer becomes displayed; the other flags are unchanged |
| Layers.LayerStack.SetAllFocused | engine/enginecode/src/independent/core/layerStack.cpp:86-89 | every layer becomes focused; the other flags are unchanged |

## Left out

- Native OpenGL, FreeType and GLFW calls: each is a trace entry or an input. The glyph bitmap and the success of `FT_Load_Char` are given as a `font` map. The names the GPU gives new objects are parameters.
- The GLFW windowing layer, input polling, key-code tables, cameras, timers, the application singleton and the sandbox demo: platform glue and bootstrap code outside the modelled core.
- Logging: each `Log::error` is a `LogError` entry with its message text; formatting of `{0}` arguments is written out in the model.
- Floating-point matrix maths: model matrices are symbolic (`TranslateScale`, `TranslateRotateScale`); vertex positions are applications of them, not computed floats.
- Render2D.Pack: the float-to-byte scaling inside `pack` (`tint.r * 255` cast to an integer) is left out; channels are bytes already.
- The default `BufferLayout()` leaves its stride uninitialised; the model always takes a stride, 0 when omitted.
- TextureUnits.TextureUnitManager.GetUnit: only the declaration is visible, so the contract promises no eviction policy, and a zero-capacity manager is excluded.
- TextureUnits.TextureUnitManager.Clear: only the declaration is visible; the contract restores the constructed state.
- `LayerStack::onMouseWheel` is declared but never defined.
- Mouse dispatch (`onMousePressed`, `onMouseReleased`, `onMouseMoved`): the mouse event classes are empty, so there are no mouse events to build; the dispatch loop they share is `Layers.LayerStack.Dispatch`, over any hook.
- The layers' input hooks are not declared on `Layer`; what a layer does with an input event is a `reacts` parameter giving whether it handles it, and its other side effects are left out.
- Scene-wide uniforms are an `unordered_map`; the model takes its entries as a sequence in iteration order, which the source does not fix.
- An `std::function` that is empty throws when called; `actionCommand` on the empty action is modelled as doing nothing and reporting failure.
- `Renderer2D::begin` (renderer2D.cpp:92-116) is outside the modelled core: it uploads the camera through a uniform buffer, and `UniformBuffer::uploadData`, the std140 layout and `SubTexture`'s transforms have no visible body.
- `WindowEvent` derives from `Event` privately and declares `getCategoryFlags` private (windowEvents.h:14-16). As written, `isHandled`, `handle`, `isInCategory` and `getCategoryFlags` cannot be called on a window event from outside; the model treats them as public on every event, as the key events and the tests use them.
- Render3D.UploadFor: the value at a uniform's address is read through a `Memory` argument as the type the entry declares; what happens when the stored object has another type (reinterpreting its bytes) is not modelled.
- `Renderer2DVertex`'s texture-unit field is not modelled; `VertexBufferLayout` is not defined, so the 2D vertex layout is a parameter.
- `getIndexBuffer()` and `getID()` are used by the renderers but not declared on `VertexArray`; the model reads the OpenGL vertex array's index buffer and id.
- Render2D.Renderer2D.FillQuad: `getVertexBuffers().at(0)` (renderer2D.cpp:146, 181) is taken to be the vertex buffer `init` created, and the upload names that buffer's id. Read as the OpenGL vertex array's buffer list, it would be empty, because `addVertexBuffer` never appends to it (OpenGLVertexArray.cpp:36-64); `.at(0)` would then throw before any draw. The model does not capture that throw.
- Render3D.Material.SetFlag: private in the source and called only by the constructors, so no flag changes after construction; the model's method is public, but nothing else calls it.
- The GL objects made by `IndexBuffer::create` and `VertexBuffer::create` are not traced, only built.
- Render2D.GlyphsFit: every glyph must fit the 256×256 glyph buffer, which the source does not check; a larger glyph would write past the buffer.
- RenderCommands.AsU32: a float outside the `uint32_t` range has undefined conversion in C++; the model wraps it modulo 2^32.
- `advance.x >> 6` on a negative advance is a floor division by 64, as an arithmetic shift gives.
- The active API is fixed at OpenGL at start-up and is consulted only when a resource or command is created.
- Render3D.Material.WithShader: the tint of a shader-only material is uninitialised in the source; the model takes it as a parameter.
- Render3D.Renderer3D.Submit: requires an index buffer and, when flag_texture is set, a texture; the source dereferences both without a check.
- The command kinds `bindVertexArray`, `bindBuffer`, `bind2DTexture` and `drawTriangles` are not in the command enumeration; each is a command capturing one named call.
- Only `getClearColourAndDepthBufferCommand` has a body; the other action getters are tags whose calls name the command.
- Callbacks are arbitrary code in the source; the model describes each callback by whether it calls `handle(b)` and what it returns.
- The twelve callback fields are one table indexed by slot.
- The destructor counts layers in a `uint32_t`; more than 2^32 layers is not modelled.
- Pushing the same layer pointer twice gives two owners of one object; the model lets a layer appear twice without ownership.
- Windowing events in windowsEvents.h duplicate windowEvents.h and are not part of this model.

## Findings

| source | as written | input that shows it | evidently intended | confidence | as-written member | corrected member |
|---|---|---|---|---|---|---|
| engine/enginecode/src/independent/rendering/bufferLayout.cpp:6-22 | `addElement` recomputes offsets, but `calcStrideAndOffset` only fills the stride when it is 0, so once a layout has a stride, adding an element never grows it | a layout of {Float3} (stride 12) after `addElement(Float2)`: the new element sits at offset 12 and ends at 20, but the stride stays 12 | the stride of a layout whose stride was computed grows to the new sum of sizes | not executed | BufferLayouts.AddElementLeavesStrideStale, BufferLayouts.AddElementStaleExample | BufferLayouts.AppendElementIntended, BufferLayouts.BufferLayout.AddElement |
| engine/enginecode/include/independent/events/windowEvents.h:64 | `WindowFocusEvent::getEventType` returns `EventType::WindowResize`; lost focus (line 76) and move (line 96) do the same | a `WindowFocusEvent` reports the same type as a `WindowResizeEvent(800, 600)` | each class returns its own static type: WindowFocus, WindowLostFocus, WindowMoved | not executed | Events.EventTypeAsWritten, Events.EventTypeAsWrittenConfusesClasses | Events.EventTypeIdentifiesClass, Events.Event.GetEventType |
