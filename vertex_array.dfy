/** Vertex-array attribute binding: a vertex array turns the layout of each
    vertex buffer attached to it into one attribute description per element,
    and remembers its vertex buffers and its index buffer. */
module VertexArray {
  import opened Gl
  import opened Buffer

  /** The GL component type an attribute of type `t` is read as; an unknown
      type (`None`) maps to 0. */
  function ShaderDataTypeToOpenGLType(t: ShaderDataType): (r: u32)
    ensures r == GL_FLOAT <==> t in {Float, Float2, Float3, Float4, Mat3, Mat4}
    ensures r == GL_INT <==> t in {Int, Int2, Int3, Int4}
    ensures r == GL_BOOL <==> t == Bool
    ensures r == 0 <==> t == None
  {
    match t
    case Float => GL_FLOAT
    case Float2 => GL_FLOAT
    case Float3 => GL_FLOAT
    case Float4 => GL_FLOAT
    case Mat3 => GL_FLOAT
    case Mat4 => GL_FLOAT
    case Int => GL_INT
    case Int2 => GL_INT
    case Int3 => GL_INT
    case Int4 => GL_INT
    case Bool => GL_BOOL
    case None => 0
  }

  /** Bytes of one component of a GL component type: `GLfloat` and `GLint`
      take four, `GLboolean` one. */
  function ComponentBytes(componentType: u32): nat
  {
    if componentType == GL_FLOAT || componentType == GL_INT then 4
    else if componentType == GL_BOOL then 1
    else 0
  }

  /** The three type tables agree: an element's byte size is its component
      count times the bytes of the GL component type it is described with. */
  lemma SizeMatchesAttributeFormat(e: BufferElement)
    ensures ShaderDataTypeSize(e.dataType) as int
            == e.ValueCount() as int * ComponentBytes(ShaderDataTypeToOpenGLType(e.dataType))
  {
  }

  /** The `glVertexAttribPointer` call describing element `e` at attribute `index`. */
  function AttributePointer(e: BufferElement, index: nat, stride: u32): GlCall
  {
    VertexAttribPointer(index, e.ValueCount(), ShaderDataTypeToOpenGLType(e.dataType),
                        if e.normalized then GL_TRUE else GL_FALSE, stride, e.offset)
  }

  /** The calls issued for a layout's elements, in order: element `i` enables
      attribute `i`, then describes it. */
  function AttributeCalls(elements: seq<BufferElement>, stride: u32): seq<GlCall>
  {
    if elements == [] then []
    else
      var last := |elements| - 1;
      AttributeCalls(elements[..last], stride)
        + [EnableVertexAttribArray(last), AttributePointer(elements[last], last, stride)]
  }

  /** Describing one more element appends its two calls. */
  lemma AttributeCallsStep(elements: seq<BufferElement>, stride: u32, i: nat)
    requires i < |elements|
    ensures AttributeCalls(elements[..i + 1], stride)
            == AttributeCalls(elements[..i], stride) + [EnableVertexAttribArray(i), AttributePointer(elements[i], i, stride)]
  {
    assert elements[..i + 1][..i] == elements[..i];
  }

  /** Two calls per element. */
  lemma {:induction false} AttributeCallsLength(elements: seq<BufferElement>, stride: u32)
    ensures |AttributeCalls(elements, stride)| == 2 * |elements|
  {
    if elements != [] {
      AttributeCallsLength(elements[..|elements| - 1], stride);
    }
  }

  /** Attribute indices run 0, 1, ..., n - 1 in layout order: calls `2i` and
      `2i + 1` enable and describe attribute `i` from element `i` (its component
      count, GL type, normalized flag and offset) with the layout's one stride. */
  lemma {:induction false} AttributeCallsAt(elements: seq<BufferElement>, stride: u32, i: nat)
    requires i < |elements|
    ensures |AttributeCalls(elements, stride)| == 2 * |elements|
    ensures AttributeCalls(elements, stride)[2 * i] == EnableVertexAttribArray(i)
    ensures AttributeCalls(elements, stride)[2 * i + 1] == AttributePointer(elements[i], i, stride)
    decreases |elements|
  {
    var last := |elements| - 1;
    AttributeCallsLength(elements, stride);
    AttributeCallsLength(elements[..last], stride);
    if i < last {
      AttributeCallsAt(elements[..last], stride, i);
    }
  }

  /** For any layout that keeps the layout invariant (as every constructed
      `BufferLayout` does) and does not wrap around, the attribute describing
      element `i` points at the sum of the sizes before it, and every
      attribute's stride is the sum of all sizes. */
  lemma AttributeOfLaidOutElement(elements: seq<BufferElement>, stride: u32, i: nat)
    requires IsLaidOut(elements, stride)
    requires SumSizes(elements) < U32_MODULUS
    requires i < |elements|
    ensures |AttributeCalls(elements, stride)| == 2 * |elements|
    ensures AttributeCalls(elements, stride)[2 * i + 1].VertexAttribPointer?
    ensures AttributeCalls(elements, stride)[2 * i + 1].offset as int == SumSizes(elements[..i])
    ensures AttributeCalls(elements, stride)[2 * i + 1].stride as int == SumSizes(elements)
  {
    AttributeCallsAt(elements, stride, i);
    PrefixMonotone(elements, i, |elements|);
    SumSizesWhole(elements);
  }

  /** `Vertex_Array`: a driver vertex-array handle, the vertex buffers attached
      so far and the index buffer, if one was set. */
  class VertexArray {
    const renderId: u32
    var vertexBuffers: seq<VertexBuffer>
    var indexBuffer: IndexBuffer?

    /** `renderId` is the handle the driver generated for the array. */
    constructor (renderId: u32)
      ensures this.renderId == renderId
      ensures vertexBuffers == [] && indexBuffer == null
    {
      this.renderId := renderId;
      vertexBuffers := [];
      indexBuffer := null;
    }

    method Bind(gl: GlContext)
      modifies gl
      ensures gl.calls == old(gl.calls) + [BindVertexArray(renderId)]
    {
      gl.Issue(BindVertexArray(renderId));
    }

    method Unbind(gl: GlContext)
      modifies gl
      ensures gl.calls == old(gl.calls) + [BindVertexArray(0)]
    {
      gl.Issue(BindVertexArray(0));
    }

    /** Binds the array and the buffer, describes one attribute per element of
        the buffer's layout, then attaches the buffer last. */
    method AddVertexBuffer(vertexBuffer: VertexBuffer, gl: GlContext)
      modifies this`vertexBuffers, gl
      ensures gl.calls == old(gl.calls)
                          + [BindVertexArray(renderId), BindBuffer(GL_ARRAY_BUFFER, vertexBuffer.renderId)]
                          + AttributeCalls(vertexBuffer.layout.elements, vertexBuffer.layout.stride)
      ensures vertexBuffers == old(vertexBuffers) + [vertexBuffer]
      ensures indexBuffer == old(indexBuffer)
    {
      gl.Issue(BindVertexArray(renderId));
      vertexBuffer.Bind(gl);

      var index: nat := 0;
      var layout := vertexBuffer.GetLayout();
      var elements := layout.GetElements();
      ghost var before := gl.calls;
      while index < |elements|
        invariant index <= |elements|
        invariant gl.calls == before + AttributeCalls(elements[..index], layout.stride)
        modifies gl
      {
        var element := elements[index];
        var stride := layout.GetStride();
        gl.Issue(EnableVertexAttribArray(index));
        gl.Issue(VertexAttribPointer(index, element.ValueCount(), ShaderDataTypeToOpenGLType(element.dataType),
                                     if element.normalized then GL_TRUE else GL_FALSE, stride, element.offset));
        AttributeCallsStep(elements, stride, index);
        index := index + 1;
      }
      assert elements[..index] == elements;
      vertexBuffers := vertexBuffers + [vertexBuffer];
    }

    /** Binds the array and the index buffer and records the index buffer. */
    method SetIndexBuffer(ib: IndexBuffer, gl: GlContext)
      modifies this`indexBuffer, gl
      ensures gl.calls == old(gl.calls) + [BindVertexArray(renderId), BindBuffer(GL_ELEMENT_ARRAY_BUFFER, ib.renderId)]
      ensures indexBuffer == ib
      ensures vertexBuffers == old(vertexBuffers)
    {
      gl.Issue(BindVertexArray(renderId));
      ib.Bind(gl);
      indexBuffer := ib;
    }

    method GetVertexBuffers() returns (buffers: seq<VertexBuffer>)
      ensures buffers == vertexBuffers
    {
      buffers := vertexBuffers;
    }

    method GetIndexBuffer() returns (ib: IndexBuffer?)
      ensures ib == indexBuffer
    {
      ib := indexBuffer;
    }
  }
}
