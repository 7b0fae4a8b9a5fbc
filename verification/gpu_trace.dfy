/**
 * The abstract trace of effects the engine has on the graphics API, the font
 * library and the log. Native calls (OpenGL, FreeType, the logger) are not
 * executed by the model: each one becomes a `Call` value, and an operation's
 * effect is the sequence of calls it issues, in order.
 */
module Gpu {
  import opened Ints

  /** A NUL-terminated C string or any other object named by its address: pointer identity, not contents. */
  type Pointer = nat

  /** The uniform value an OpenGL shader upload receives (floating point values stay abstract). */
  datatype UniformValue =
    | IntValue(i: int)
    | Float3Value(x: real, y: real, z: real)
    | Float4Value(x: real, y: real, z: real, w: real)
    | Mat4Value(m: seq<real>)

  datatype Call =
    // glClear with the colour and/or depth bits
    | Clear(colourBit: bool, depthBit: bool)
    // actions produced by command getters whose bodies are not part of the model, named by their getter
    | ClearDepthBufferAction
    | ClearColourBufferAction
    | EnableDepthTestAction
    | EnableBlendAction
    | SetBlendFuncDefaultAction
    | DisableDepthTestAction
    | DisableBlendAction
    | SetClearColourAction(r: real, g: real, b: real, a: real)
    | UseProgramAction(shaderID: u32)
    // command kinds the 3D renderer names that the command enumeration does not define
    | BindVertexArrayAction(vertexArrayID: u32)
    | BindIndexBufferAction(indexBufferID: u32)
    | Bind2DTextureAction(textureID: u32)
    | DrawTrianglesAction(count: u32)
    // direct OpenGL calls
    | GlCreateVertexArray(id: u32)
    | GlBindVertexArray(id: u32)
    | GlBindArrayBuffer(id: u32)
    | GlEnableVertexAttribArray(index: u32)
    | GlVertexAttribPointer(index: u32, components: u32, glType: u32, normalised: u32, stride: u32, offset: u32)
    | GlBindTexture2D(id: u32)
    | GlDrawQuads(count: u32)
    // shader uniform uploads through the shader interface
    | Upload(shaderID: u32, name: string, value: UniformValue)
    // texture creation and buffer and texture edits, with the bytes or vertices they send
    | CreateTexture(textureID: u32, width: u32, height: u32, channels: u32, pixels: seq<u8>)
    | EditVertexBuffer(bufferID: u32, vertices: seq<Vertex2D>)
    | EditTexture(textureID: u32, width: u32, height: u32, pixels: seq<u8>)
    // a message sent to the error log
    | LogError(message: string)

  /** A Renderer2D vertex: position, texture coordinates and packed tint. */
  datatype Vertex2D = Vertex2D(position: Position, uv: Vec2, tint: bv32)

  datatype Vec2 = Vec2(x: real, y: real)
  datatype Vec3 = Vec3(x: real, y: real, z: real)
  datatype Vec4 = Vec4(x: real, y: real, z: real, w: real)

  /**
   * A vertex position `model * corner`. The translate/scale product is
   * evaluated exactly; a rotation is kept symbolic, with the angle exactly as
   * the model matrix received it.
   */
  datatype Position =
    | Scaled(p: Vec4)
    | Rotated(translate: Vec3, angle: real, scale: Vec3, corner: Vec4)
}

/** The single, process-wide graphics context: the calls issued to it so far, in order. */
module GpuContext {
  import opened Gpu

  class Context {
    var calls: seq<Call>

    constructor ()
      ensures calls == []
    {
      calls := [];
    }
  }
}
