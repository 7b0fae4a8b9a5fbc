/**
 * `RenderAPI` and the factories that build a GPU resource for the API in use:
 * only OpenGL is implemented; every other API logs an error and yields null.
 */
module RenderApi {
  import opened Ints
  import opened Gpu
  import opened GpuContext
  import opened Wrappers
  import opened BufferLayouts
  import opened VertexArrays

  datatype API = None | OpenGL | Direct3D | Vulkan

  /** The API in use: fixed at OpenGL, with no way to change it. */
  const CURRENT_API: API := OpenGL

  /** The error a factory logs for an API it cannot build for; OpenGL logs nothing. */
  function NotSupported(api: API): (log: seq<Call>)
    ensures api == OpenGL <==> log == []
    ensures api != OpenGL ==> |log| == 1 && log[0].LogError?
  {
    match api
    case None => [LogError("Not having a rendering API is not supported")]
    case OpenGL => []
    case Direct3D => [LogError("Direct3D is not supported")]
    case Vulkan => [LogError("Vulkan is not supported")]
  }

  /** A factory's outcome: the resource (null when unsupported) and what it logged. */
  datatype Created<T> = Created(resource: Option<T>, log: seq<Call>)

  /**
   * `IndexBuffer::create`: under OpenGL an index buffer that remembers `count`,
   * with `id` the name the GL gives it; otherwise null and an error.
   */
  function CreateIndexBuffer(api: API, count: u32, id: u32): (r: Created<IndexBuffer>)
    ensures r.resource.Some? <==> api == OpenGL
    ensures r.resource.Some? ==> r.resource.value.count == count && r.resource.value.renderID == id
    ensures r.log == NotSupported(api)
  {
    if api == OpenGL then Created(Some(IndexBuffer(id, count)), []) else Created(Nothing, NotSupported(api))
  }

  /** `VertexBuffer::create`: under OpenGL a vertex buffer holding `layout`; otherwise null and an error. */
  function CreateVertexBuffer(api: API, size: u32, layout: Layout, id: u32): (r: Created<VertexBuffer>)
    ensures r.resource.Some? <==> api == OpenGL
    ensures r.resource.Some? ==> r.resource.value == VertexBuffer(id, size, layout)
    ensures r.log == NotSupported(api)
  {
    if api == OpenGL then Created(Some(VertexBuffer(id, size, layout)), []) else Created(Nothing, NotSupported(api))
  }

  /** Every factory either builds its resource or logs exactly one error, never both and never neither. */
  lemma FactoryBuildsOrLogs(api: API, count: u32, size: u32, layout: Layout, id: u32)
    ensures CreateIndexBuffer(api, count, id).resource.Some? != (|CreateIndexBuffer(api, count, id).log| == 1)
    ensures CreateVertexBuffer(api, size, layout, id).resource.Some? != (|CreateVertexBuffer(api, size, layout, id).log| == 1)
  { }

  /** `VertexArray::create`: under OpenGL a new, empty vertex array; otherwise null and an error in the log. */
  method CreateVertexArray(api: API, id: u32, gl: Context) returns (va: OpenGLVertexArray?)
    modifies gl
    ensures va != null <==> api == OpenGL
    ensures va != null ==> fresh(va) && va.renderID == id && va.vertexBuffers == [] &&
                           va.indexBuffer == Nothing && va.attributeIndex == 0
    ensures va != null ==> gl.calls == old(gl.calls) + [GlCreateVertexArray(id), GlBindVertexArray(id)]
    ensures va == null ==> gl.calls == old(gl.calls) + NotSupported(api)
  {
    if api == OpenGL {
      va := new OpenGLVertexArray(id, gl);
    } else {
      va := null;
      gl.calls := gl.calls + NotSupported(api);
    }
  }

  /**
   * Geometry built through the factories under the API in use: the draw count
   * is 0 until an index buffer is set, then the count that buffer was created
   * with, and 0 again once the index buffer is set to null.
   */
  method DrawCountFollowsIndexBuffer(count: u32, vaID: u32, ibID: u32, gl: Context) returns (before: u32, after: u32, cleared: u32)
    modifies gl
    ensures before == 0 && after == count && cleared == 0
  {
    var va := CreateVertexArray(CURRENT_API, vaID, gl);
    before := va.GetDrawCount();
    var ib := CreateIndexBuffer(CURRENT_API, count, ibID);
    va.SetIndexBuffer(ib.resource);
    after := va.GetDrawCount();
    va.SetIndexBuffer(Nothing);
    cleared := va.GetDrawCount();
  }
}
