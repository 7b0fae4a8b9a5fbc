/**
 * `Material` and `Renderer3D`: a material is a shader plus an optional
 * texture and tint, each marked present by a flag bit; the 3D renderer draws
 * one piece of geometry per `submit`, between a `begin` that installs the
 * scene-wide uniforms and an `end` that drops them.
 */
module Render3D {
  import opened Ints
  import opened Gpu
  import opened GpuContext
  import opened Wrappers
  import opened ShaderDataTypes
  import opened VertexArrays
  import opened RenderApi
  import opened RenderCommands

  const FLAG_TEXTURE: bv32 := 1
  const FLAG_TINT: bv32 := 2

  /** `m_flags & flag` taken as a truth value. */
  predicate FlagSet(flags: bv32, flag: bv32)
  {
    flags & flag != 0
  }

  /** The two flags are distinct bits, and a material with no flags has neither. */
  lemma FlagsDistinct()
    ensures FLAG_TEXTURE & FLAG_TINT == 0
    ensures !FlagSet(0, FLAG_TEXTURE) && !FlagSet(0, FLAG_TINT)
  { }

  /** Setting one flag sets it and leaves the other as it was. */
  lemma SetOneFlag(flags: bv32)
    ensures FlagSet(flags | FLAG_TEXTURE, FLAG_TEXTURE) && FlagSet(flags | FLAG_TINT, FLAG_TINT)
    ensures (flags | FLAG_TEXTURE) & FLAG_TINT == flags & FLAG_TINT
    ensures (flags | FLAG_TINT) & FLAG_TEXTURE == flags & FLAG_TEXTURE
  { }

  class Material {
    var flags: bv32
    const shaderID: u32
    var texture: Option<u32>
    var tint: Vec4

    /** Shader only: no flags, no texture, and a tint left as whatever `indeterminate` is. */
    constructor WithShader(shader: u32, indeterminate: Vec4)
      ensures flags == 0 && shaderID == shader && texture == Nothing && tint == indeterminate
    {
      flags := 0;
      shaderID := shader;
      texture := Nothing;
      tint := indeterminate;
    }

    /** Shader and texture: only the texture flag, tint zero. */
    constructor WithTexture(shader: u32, tex: Option<u32>)
      ensures flags == FLAG_TEXTURE && shaderID == shader && texture == tex && tint == Vec4(0.0, 0.0, 0.0, 0.0)
    {
      flags := 0;
      shaderID := shader;
      texture := tex;
      tint := Vec4(0.0, 0.0, 0.0, 0.0);
      new;
      SetFlag(FLAG_TEXTURE);
    }

    /** Shader and tint: only the tint flag, no texture. */
    constructor WithTint(shader: u32, t: Vec4)
      ensures flags == FLAG_TINT && shaderID == shader && texture == Nothing && tint == t
    {
      flags := 0;
      shaderID := shader;
      texture := Nothing;
      tint := t;
      new;
      SetFlag(FLAG_TINT);
    }

    /** The full constructor: both flags. */
    constructor (shader: u32, tex: Option<u32>, t: Vec4)
      ensures flags == FLAG_TEXTURE | FLAG_TINT && shaderID == shader && texture == tex && tint == t
    {
      flags := 0;
      shaderID := shader;
      texture := tex;
      tint := t;
      new;
      SetFlag(FLAG_TEXTURE | FLAG_TINT);
    }

    /**
     * `setFlag`: ORs `flag` in; no bit is ever cleared. It is private in the
     * material and only the constructors call it, so a material's flags do
     * not change after construction.
     */
    method SetFlag(flag: bv32)
      modifies this
      ensures flags == old(flags) | flag
      ensures forall f :: FlagSet(old(flags), f) ==> FlagSet(flags, f)
      ensures texture == old(texture) && tint == old(tint)
    {
      flags := flags | flag;
    }

    /** `isFlagSet`. */
    function IsFlagSet(flag: bv32): (r: bool)
      reads this
      ensures r <==> flags & flag != 0
      ensures r ==> flag != 0
    {
      FlagSet(flags, flag)
    }

    /** `setTexture`: changes the texture only. */
    method SetTexture(tex: Option<u32>)
      modifies this
      ensures texture == tex && flags == old(flags) && tint == old(tint)
    {
      texture := tex;
    }

    /** `setTint`: changes the tint only. */
    method SetTint(t: Vec4)
      modifies this
      ensures tint == t && flags == old(flags) && texture == old(texture)
    {
      tint := t;
    }
  }

  /** The `ShaderDataType` enumerators `Int` and `Mat4`, which the type's own header does not list. */
  const INT: ShaderDataType := Unlisted("Int")
  const MAT4: ShaderDataType := Unlisted("Mat4")

  /**
   * One entry of the scene-wide uniform map, in the map's iteration order:
   * the uniform's name, its declared type and the address its value is read from.
   */
  datatype SceneUniform = SceneUniform(name: string, dataType: ShaderDataType, address: Pointer)

  /**
   * The program's memory as `submit` reads it: what an `int`, a `glm::vec3`,
   * a `glm::vec4` or a `glm::mat4` stored at an address holds at that moment.
   */
  datatype Memory = Memory(ints: Pointer -> int, vec3s: Pointer -> Vec3, vec4s: Pointer -> Vec4,
                           mat4s: Pointer -> seq<real>)

  /** The four types `submit` knows how to upload. */
  predicate Uploadable(t: ShaderDataType)
  {
    t == INT || t == Float3 || t == Float4 || t == MAT4
  }

  /** `v` is sent through the upload function for `t`: `uploadInt`, `uploadFloat3`, `uploadFloat4` or `uploadMat4`. */
  predicate UploadedAs(v: UniformValue, t: ShaderDataType)
  {
    (v.IntValue? <==> t == INT) && (v.Float3Value? <==> t == Float3) &&
    (v.Float4Value? <==> t == Float4) && (v.Mat4Value? <==> t == MAT4)
  }

  /** `v` is what `mem` holds at `a`, read as the type `v` is uploaded as. */
  predicate StoredAt(mem: Memory, a: Pointer, v: UniformValue)
  {
    match v
    case IntValue(i) => i == mem.ints(a)
    case Float3Value(x, y, z) => Vec3(x, y, z) == mem.vec3s(a)
    case Float4Value(x, y, z, w) => Vec4(x, y, z, w) == mem.vec4s(a)
    case Mat4Value(m) => m == mem.mat4s(a)
  }

  /**
   * The upload `submit` makes for `u`: the switch on its declared type picks
   * the upload function and how the address is dereferenced; other types make none.
   */
  function UploadFor(shader: u32, u: SceneUniform, mem: Memory): (c: Option<Call>)
    ensures c.Some? <==> Uploadable(u.dataType)
    ensures c.Some? ==> c.value.Upload? && c.value.shaderID == shader && c.value.name == u.name &&
                        UploadedAs(c.value.value, u.dataType) && StoredAt(mem, u.address, c.value.value)
  {
    if u.dataType == INT then Some(Upload(shader, u.name, IntValue(mem.ints(u.address))))
    else if u.dataType == Float3 then
      var v := mem.vec3s(u.address);
      Some(Upload(shader, u.name, Float3Value(v.x, v.y, v.z)))
    else if u.dataType == Float4 then
      var v := mem.vec4s(u.address);
      Some(Upload(shader, u.name, Float4Value(v.x, v.y, v.z, v.w)))
    else if u.dataType == MAT4 then Some(Upload(shader, u.name, Mat4Value(mem.mat4s(u.address))))
    else Nothing
  }

  /** The uploads the scene-wide uniforms cause, in order; entries of any other type are skipped. */
  function UniformUploads(shader: u32, us: seq<SceneUniform>, mem: Memory): (calls: seq<Call>)
  {
    if us == [] then []
    else
      var up := UploadFor(shader, us[|us| - 1], mem);
      UniformUploads(shader, us[..|us| - 1], mem) + (if up.Some? then [up.value] else [])
  }

  /** How many of `us` have an uploadable type. */
  function CountUploadable(us: seq<SceneUniform>): nat
  {
    if us == [] then 0 else CountUploadable(us[..|us| - 1]) + (if Uploadable(us[|us| - 1].dataType) then 1 else 0)
  }

  /**
   * The scene-wide uniforms cause one upload per entry of an uploadable type,
   * each to the material's shader under the entry's own name, through the
   * upload function its declared type selects, of the value stored at its address.
   */
  lemma {:induction false} UniformUploadsMatchEntries(shader: u32, us: seq<SceneUniform>, mem: Memory, k: nat)
    requires k < |UniformUploads(shader, us, mem)|
    ensures |UniformUploads(shader, us, mem)| == CountUploadable(us)
    ensures exists i :: 0 <= i < |us| && Uploadable(us[i].dataType) &&
                        var c := UniformUploads(shader, us, mem)[k];
                        c.Upload? && c.shaderID == shader && c.name == us[i].name &&
                        UploadedAs(c.value, us[i].dataType) && StoredAt(mem, us[i].address, c.value)
  {
    var n := |us| - 1;
    var before := UniformUploads(shader, us[..n], mem);
    if k < |before| {
      UniformUploadsMatchEntries(shader, us[..n], mem, k);
      var i :| 0 <= i < n && Uploadable(us[..n][i].dataType) &&
               var c := before[k];
               c.Upload? && c.shaderID == shader && c.name == us[..n][i].name &&
               UploadedAs(c.value, us[..n][i].dataType) && StoredAt(mem, us[..n][i].address, c.value);
      assert us[i] == us[..n][i];
      assert UniformUploads(shader, us, mem)[k] == before[k];
    } else {
      assert k == |before|;
      if |before| > 0 {
        UniformUploadsMatchEntries(shader, us[..n], mem, 0);
      } else {
        UploadCount(shader, us[..n], mem);
      }
      assert UniformUploads(shader, us, mem)[k] == UploadFor(shader, us[n], mem).value;
    }
  }

  lemma {:induction false} UploadCount(shader: u32, us: seq<SceneUniform>, mem: Memory)
    ensures |UniformUploads(shader, us, mem)| == CountUploadable(us)
  {
    if us != [] {
      UploadCount(shader, us[..|us| - 1], mem);
    }
  }

  /** The entries are uploaded in the map's order: the uploads of two runs of entries follow each other. */
  lemma {:induction false} UniformUploadsAppend(shader: u32, us: seq<SceneUniform>, vs: seq<SceneUniform>, mem: Memory)
    ensures UniformUploads(shader, us + vs, mem) == UniformUploads(shader, us, mem) + UniformUploads(shader, vs, mem)
  {
    if vs == [] {
      assert us + vs == us;
    } else {
      var n := |vs| - 1;
      assert (us + vs)[..|us + vs| - 1] == us + vs[..n];
      assert (us + vs)[|us + vs| - 1] == vs[n];
      UniformUploadsAppend(shader, us, vs[..n], mem);
    }
  }

  /** Scene-wide uniforms only upload: they bind nothing and draw nothing. */
  lemma {:induction false} UniformUploadsOnlyUpload(shader: u32, us: seq<SceneUniform>, mem: Memory)
    ensures forall c :: c in UniformUploads(shader, us, mem) ==> c.Upload? && c.shaderID == shader
  {
    if us != [] {
      UniformUploadsOnlyUpload(shader, us[..|us| - 1], mem);
    }
  }

  /** What a `submit` leaves to be drawn with, once the material's flags have chosen texture and tint. */
  datatype Draw = Draw(shader: u32, texture: u32, tint: Vec4, vertexArray: u32, indexBuffer: u32, count: u32)

  /**
   * The calls of one `submit`, in order: use the program, upload the scene-wide
   * uniforms, `u_model`, bind the texture, `u_texData` = 0, `u_tint`, bind the
   * vertex array and the index buffer, draw.
   */
  function SubmitCalls(d: Draw, uniforms: seq<SceneUniform>, mem: Memory, model: seq<real>): seq<Call>
  {
    [UseProgramAction(d.shader)] + UniformUploads(d.shader, uniforms, mem) + PerDrawCalls(d, model)
  }

  /** The calls of a `submit` after the scene-wide uniforms. */
  function PerDrawCalls(d: Draw, model: seq<real>): seq<Call>
  {
    [Upload(d.shader, "u_model", Mat4Value(model)),
     Bind2DTextureAction(d.texture),
     Upload(d.shader, "u_texData", IntValue(0)),
     Upload(d.shader, "u_tint", Float4Value(d.tint.x, d.tint.y, d.tint.z, d.tint.w)),
     BindVertexArrayAction(d.vertexArray),
     BindIndexBufferAction(d.indexBuffer),
     DrawTrianglesAction(d.count)]
  }

  /** How many draws `calls` issues. */
  function DrawCount(calls: seq<Call>): nat
  {
    if calls == [] then 0 else DrawCount(calls[..|calls| - 1]) + (if calls[|calls| - 1].DrawTrianglesAction? then 1 else 0)
  }

  lemma {:induction false} DrawCountAppend(a: seq<Call>, b: seq<Call>)
    ensures DrawCount(a + b) == DrawCount(a) + DrawCount(b)
  {
    if b == [] {
      assert a + b == a;
    } else {
      assert (a + b)[..|a + b| - 1] == a + b[..|b| - 1];
      assert (a + b)[|a + b| - 1] == b[|b| - 1];
      DrawCountAppend(a, b[..|b| - 1]);
    }
  }

  lemma {:induction false} NoDrawsWithoutDrawCalls(calls: seq<Call>)
    requires forall c :: c in calls ==> !c.DrawTrianglesAction?
    ensures DrawCount(calls) == 0
  {
    if calls != [] {
      NoDrawsWithoutDrawCalls(calls[..|calls| - 1]);
    }
  }

  /**
   * A submit issues exactly one draw, as its last call, with the count it was
   * given, and starts by using the program, whatever the scene-wide uniforms hold.
   */
  lemma SubmitDrawsOnce(d: Draw, uniforms: seq<SceneUniform>, mem: Memory, model: seq<real>)
    ensures DrawCount(SubmitCalls(d, uniforms, mem, model)) == 1
    ensures SubmitCalls(d, uniforms, mem, model)[|SubmitCalls(d, uniforms, mem, model)| - 1] == DrawTrianglesAction(d.count)
    ensures SubmitCalls(d, uniforms, mem, model)[0] == UseProgramAction(d.shader)
  {
    var ups := UniformUploads(d.shader, uniforms, mem);
    UniformUploadsOnlyUpload(d.shader, uniforms, mem);
    NoDrawsWithoutDrawCalls(ups);
    var tail := PerDrawCalls(d, model);
    DrawCountAppend([UseProgramAction(d.shader)], ups);
    DrawCountAppend([UseProgramAction(d.shader)] + ups, tail);
    NoDrawsWithoutDrawCalls(tail[..6]);
    DrawCountAppend(tail[..6], tail[6..]);
    assert tail == tail[..6] + tail[6..];
    assert DrawCount([UseProgramAction(d.shader)]) == 0 by {
      NoDrawsWithoutDrawCalls([UseProgramAction(d.shader)]);
    }
  }

  /**
   * A command of a kind the command enumeration does not define
   * (`bindVertexArray`, `bindBuffer`, `bind2DTexture`, `drawTriangles`): one named call.
   */
  method NamedCommand(call: Call) returns (command: RenderCommand)
    ensures fresh(command) && command.action == Closure([call])
  {
    command := new RenderCommand();
    command.action := Closure([call]);
  }

  class Renderer3D {
    var sceneWideUniforms: seq<SceneUniform>
    const defaultTextureID: u32
    const defaultTint: Vec4

    /** `init`: a 1×1 white default texture, tint (1, 1, 1, 1), no scene-wide uniforms. */
    constructor (defaultTexture: u32, gl: Context)
      modifies gl
      ensures sceneWideUniforms == [] && defaultTextureID == defaultTexture && defaultTint == Vec4(1.0, 1.0, 1.0, 1.0)
      ensures gl.calls == old(gl.calls) + [CreateTexture(defaultTexture, 1, 1, 4, [255, 255, 255, 255])]
    {
      sceneWideUniforms := [];
      defaultTextureID := defaultTexture;
      defaultTint := Vec4(1.0, 1.0, 1.0, 1.0);
      new;
      gl.calls := gl.calls + [CreateTexture(defaultTexture, 1, 1, 4, [255, 255, 255, 255])];
    }

    /** `begin`: replaces the scene-wide uniforms with `uniforms`. */
    method Begin(uniforms: seq<SceneUniform>)
      modifies this
      ensures sceneWideUniforms == uniforms
    {
      sceneWideUniforms := uniforms;
    }

    /** `end`: drops the scene-wide uniforms. */
    method End()
      modifies this
      ensures sceneWideUniforms == []
    {
      sceneWideUniforms := [];
    }

    /** The texture and tint a material draws with: its own where its flag is set, the defaults otherwise. */
    function DrawFor(geometry: OpenGLVertexArray, material: Material): (d: Draw)
      requires geometry.indexBuffer.Some?
      requires material.IsFlagSet(FLAG_TEXTURE) ==> material.texture.Some?
      reads this, geometry, material
      ensures d.texture == if material.IsFlagSet(FLAG_TEXTURE) then material.texture.value else defaultTextureID
      ensures d.tint == if material.IsFlagSet(FLAG_TINT) then material.tint else defaultTint
      ensures d.count == geometry.GetDrawCount() && d.shader == material.shaderID
    {
      Draw(material.shaderID,
           if material.IsFlagSet(FLAG_TEXTURE) then material.texture.value else defaultTextureID,
           if material.IsFlagSet(FLAG_TINT) then material.tint else defaultTint,
           geometry.GetRenderID(), geometry.indexBuffer.value.renderID, geometry.GetDrawCount())
    }

    /**
     * `submit`: issues the calls of `SubmitCalls` through render commands and
     * the material's shader, reading each scene-wide uniform's value from `mem`
     * as it stands at the call; the scene-wide uniforms are left as they are.
     */
    method Submit(geometry: OpenGLVertexArray, material: Material, model: seq<real>, mem: Memory, gl: Context)
      requires geometry.indexBuffer.Some?
      requires material.IsFlagSet(FLAG_TEXTURE) ==> material.texture.Some?
      modifies gl
      ensures gl.calls == old(gl.calls) + SubmitCalls(DrawFor(geometry, material), sceneWideUniforms, mem, model)
    {
      var textureID := if material.IsFlagSet(FLAG_TEXTURE) then material.texture.value else defaultTextureID;
      var tint := if material.IsFlagSet(FLAG_TINT) then material.tint else defaultTint;
      var d := Draw(material.shaderID, textureID, tint, geometry.GetRenderID(), geometry.indexBuffer.value.renderID, geometry.GetDrawCount());
      IssueDraw(d, sceneWideUniforms, mem, model, gl);
    }
  }

  /**
   * The commands and uploads of one `submit` once the material and geometry
   * have been read: the commands are built first, then run in order around
   * the uniform uploads.
   */
  method IssueDraw(d: Draw, uniforms: seq<SceneUniform>, mem: Memory, model: seq<real>, gl: Context)
    modifies gl
    ensures gl.calls == old(gl.calls) + SubmitCalls(d, uniforms, mem, model)
  {
    var noLocals := Uninit(0.0, 0.0, 0.0, 0.0, 0);
    var useProgramCommand := CreateCommand(UseProgram, [UIntArg(d.shader)], CURRENT_API, noLocals);
    UseProgramCapturesArg([UIntArg(d.shader)], CURRENT_API, noLocals);
    var bindVertexArrayCommand := NamedCommand(BindVertexArrayAction(d.vertexArray));
    var bindBufferCommand := NamedCommand(BindIndexBufferAction(d.indexBuffer));
    var drawTriangles := NamedCommand(DrawTrianglesAction(d.count));

    var ok := ActionCommand(useProgramCommand, gl);
    UploadSceneUniforms(d.shader, uniforms, mem, gl);
    IssuePerDraw(d, model, bindVertexArrayCommand, bindBufferCommand, drawTriangles, gl);
  }

  /** The part of `submit` after the scene-wide uniforms, with the commands built before them. */
  method IssuePerDraw(d: Draw, model: seq<real>, bindVertexArrayCommand: RenderCommand, bindBufferCommand: RenderCommand,
                      drawTriangles: RenderCommand, gl: Context)
    requires bindVertexArrayCommand.action == Closure([BindVertexArrayAction(d.vertexArray)])
    requires bindBufferCommand.action == Closure([BindIndexBufferAction(d.indexBuffer)])
    requires drawTriangles.action == Closure([DrawTrianglesAction(d.count)])
    modifies gl
    ensures gl.calls == old(gl.calls) + PerDrawCalls(d, model)
  {
    gl.calls := gl.calls + [Upload(d.shader, "u_model", Mat4Value(model))];
    var bindTextureCommand := NamedCommand(Bind2DTextureAction(d.texture));
    var ok := ActionCommand(bindTextureCommand, gl);
    gl.calls := gl.calls + [Upload(d.shader, "u_texData", IntValue(0))];
    gl.calls := gl.calls + [Upload(d.shader, "u_tint", Float4Value(d.tint.x, d.tint.y, d.tint.z, d.tint.w))];
    ok := ActionCommand(bindVertexArrayCommand, gl);
    ok := ActionCommand(bindBufferCommand, gl);
    ok := ActionCommand(drawTriangles, gl);
  }

  /** The loop of `submit` over the scene-wide uniforms. */
  method UploadSceneUniforms(shader: u32, us: seq<SceneUniform>, mem: Memory, gl: Context)
    modifies gl
    ensures gl.calls == old(gl.calls) + UniformUploads(shader, us, mem)
  {
    var i := 0;
    while i < |us|
      invariant 0 <= i <= |us|
      invariant gl.calls == old(gl.calls) + UniformUploads(shader, us[..i], mem)
    {
      assert us[..i + 1][..i] == us[..i];
      var u := us[i];
      if u.dataType == INT {
        gl.calls := gl.calls + [Upload(shader, u.name, IntValue(mem.ints(u.address)))];
      } else if u.dataType == Float3 {
        var v := mem.vec3s(u.address);
        gl.calls := gl.calls + [Upload(shader, u.name, Float3Value(v.x, v.y, v.z))];
      } else if u.dataType == Float4 {
        var v := mem.vec4s(u.address);
        gl.calls := gl.calls + [Upload(shader, u.name, Float4Value(v.x, v.y, v.z, v.w))];
      } else if u.dataType == MAT4 {
        gl.calls := gl.calls + [Upload(shader, u.name, Mat4Value(mem.mat4s(u.address)))];
      }
      i := i + 1;
    }
    assert us[..i] == us;
  }
}
