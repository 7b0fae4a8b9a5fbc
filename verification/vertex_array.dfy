/**
 * `OpenGLVertexArray`: the vertex buffers and the index buffer of one piece
 * of geometry, and the attribute slots its layouts are given.
 */
module VertexArrays {
  import opened Ints
  import opened Gpu
  import opened GpuContext
  import opened Wrappers
  import opened ShaderDataTypes
  import opened BufferLayouts

  const GL_FALSE: u32 := 0
  const GL_TRUE: u32 := 1
  const GL_INVALID_ENUM: u32 := 0x0500
  const GL_FLOAT: u32 := 0x1406

  /** An index buffer: its render id and the index count it was created with. */
  datatype IndexBuffer = IndexBuffer(renderID: u32, count: u32)

  /** A vertex buffer: its render id, byte size and the layout it was created with. */
  datatype VertexBuffer = VertexBuffer(renderID: u32, size: u32, layout: Layout)

  /** `SDT::toGLType`: GL_FLOAT for the float vectors, GL_INVALID_ENUM for every other type. */
  function ToGLType(t: ShaderDataType): (r: u32)
    ensures r == GL_FLOAT <==> ShapeOf(t).Vector? && ShapeOf(t).scalar == FloatScalar
    ensures r == GL_FLOAT || r == GL_INVALID_ENUM
  {
    match t
    case Float => GL_FLOAT
    case Float2 => GL_FLOAT
    case Float3 => GL_FLOAT
    case Float4 => GL_FLOAT
    case _ => GL_INVALID_ENUM
  }

  /** The two calls that configure attribute `index` for element `e`. */
  function AttributeSetup(e: BufferElement, stride: u32, index: u32): seq<Call>
  {
    [GlEnableVertexAttribArray(index),
     GlVertexAttribPointer(index, ComponentCount(e.dataType), ToGLType(e.dataType),
                           if e.normalised then GL_TRUE else GL_FALSE, stride, e.offset)]
  }

  /** The calls that configure `es`, one element after the other, from attribute `first` on. */
  function AttributeCalls(es: seq<BufferElement>, stride: u32, first: u32): seq<Call>
  {
    if es == [] then []
    else AttributeCalls(es[..|es| - 1], stride, first) + AttributeSetup(es[|es| - 1], stride, Wrap32(first + |es| - 1))
  }

  /**
   * Element `k` of a layout gets attribute `first + k`, with its component
   * count, type, normalised flag, the layout stride and its own offset.
   */
  lemma {:induction false} AttributeCallsAt(es: seq<BufferElement>, stride: u32, first: u32, k: nat)
    requires k < |es|
    ensures |AttributeCalls(es, stride, first)| == 2 * |es|
    ensures AttributeCalls(es, stride, first)[2 * k] == GlEnableVertexAttribArray(Wrap32(first + k))
    ensures AttributeCalls(es, stride, first)[2 * k + 1] ==
            GlVertexAttribPointer(Wrap32(first + k), ComponentCount(es[k].dataType), ToGLType(es[k].dataType),
                                  if es[k].normalised then GL_TRUE else GL_FALSE, stride, es[k].offset)
  {
    var n := |es|;
    if k < n - 1 {
      AttributeCallsAt(es[..n - 1], stride, first, k);
    } else if n > 1 {
      AttributeCallsAt(es[..n - 1], stride, first, 0);
    } else {
      assert es[..n - 1] == [];
    }
  }

  class OpenGLVertexArray {
    var vertexBuffers: seq<VertexBuffer>
    var indexBuffer: Option<IndexBuffer>
    var renderID: u32
    var attributeIndex: u32

    /** `OpenGLVertexArray()`: creates and binds the GL object; no buffers, attribute index 0. */
    constructor (id: u32, gl: Context)
      modifies gl
      ensures renderID == id && vertexBuffers == [] && indexBuffer == Nothing && attributeIndex == 0
      ensures gl.calls == old(gl.calls) + [GlCreateVertexArray(id), GlBindVertexArray(id)]
    {
      renderID := id;
      vertexBuffers := [];
      indexBuffer := Nothing;
      attributeIndex := 0;
      new;
      gl.calls := gl.calls + [GlCreateVertexArray(id), GlBindVertexArray(id)];
    }

    /** `getRenderID`. */
    function GetRenderID(): (id: u32)
      reads this
      ensures id == renderID
    {
      renderID
    }

    /** `getDrawCount`: the index buffer's count, or 0 without one. */
    function GetDrawCount(): (n: u32)
      reads this
      ensures indexBuffer.Some? ==> n == indexBuffer.value.count
      ensures indexBuffer.Nothing? ==> n == 0
    {
      if indexBuffer.Some? then indexBuffer.value.count else 0
    }

    /**
     * `addVertexBuffer`: binds this array and the buffer, then gives each
     * layout element, in order, the next attribute index. The buffer itself
     * is not stored.
     */
    method AddVertexBuffer(vb: VertexBuffer, gl: Context)
      modifies this, gl
      ensures gl.calls == old(gl.calls) + [GlBindVertexArray(renderID), GlBindArrayBuffer(vb.renderID)] +
                          AttributeCalls(vb.layout.elements, vb.layout.stride, old(attributeIndex))
      ensures attributeIndex == Wrap32(old(attributeIndex) + |vb.layout.elements|)
      ensures vertexBuffers == old(vertexBuffers) && indexBuffer == old(indexBuffer) && renderID == old(renderID)
    {
      gl.calls := gl.calls + [GlBindVertexArray(renderID), GlBindArrayBuffer(vb.renderID)];
      ghost var start := gl.calls;
      var es := vb.layout.elements;
      var i := 0;
      while i < |es|
        invariant 0 <= i <= |es|
        invariant attributeIndex == Wrap32(old(attributeIndex) + i)
        invariant gl.calls == start + AttributeCalls(es[..i], vb.layout.stride, old(attributeIndex))
        invariant vertexBuffers == old(vertexBuffers) && indexBuffer == old(indexBuffer) && renderID == old(renderID)
      {
        assert es[..i + 1][..i] == es[..i];
        var normalised := GL_FALSE;
        if es[i].normalised {
          normalised := GL_TRUE;
        }
        gl.calls := gl.calls + [GlEnableVertexAttribArray(attributeIndex),
          GlVertexAttribPointer(attributeIndex, ComponentCount(es[i].dataType), ToGLType(es[i].dataType),
                                normalised, vb.layout.stride, es[i].offset)];
        WrapAdd(old(attributeIndex) + i, 1);
        attributeIndex := Wrap32(attributeIndex + 1);
        i := i + 1;
      }
      assert es[..i] == es;
    }

    /**
     * `setIndexBuffer`: replaces the stored index buffer, possibly with a null
     * pointer (`Nothing`), after which the draw count is 0; nothing else changes.
     */
    method SetIndexBuffer(ib: Option<IndexBuffer>)
      modifies this
      ensures indexBuffer == ib
      ensures vertexBuffers == old(vertexBuffers) && attributeIndex == old(attributeIndex) && renderID == old(renderID)
    {
      indexBuffer := ib;
    }
  }
}
